/** Conversion of a profile exported by the vendor's web driver into the CLI's
    own profile format (drunkdeer/converter.go), and the CLI profile types
    (drunkdeer/structs.go).

    Millimetre values are `float32` in the Go code; the only operations the
    conversion applies to them are equality and counting, so here they are
    whole tenths of a millimetre (`Tenths`), the unit the device bytes use. */
module Converter {
  import opened Wrappers
  import opened Faults

  /** A distance in tenths of a millimetre (2.0 mm is 20). */
  type Tenths = int

  /** One key of a web-driver profile. */
  datatype DDConfigKey = DDConfigKey(keyname: string, actuation: Tenths, downstroke: Tenths, upstroke: Tenths)

  /** A web-driver profile: the storage name encodes the keyboard model. */
  datatype DDConfig = DDConfig(storageName: string, showname: string, keys: seq<DDConfigKey>)

  datatype RapidTriggerSettings = RapidTriggerSettings(enabled: bool, defaultDownstroke: Tenths, defaultUpstroke: Tenths)

  /** Lighting as the profile states it; the fields are Go `int`s and are cut
      to bytes only when sent. */
  datatype LightSettings = LightSettings(enabled: bool, direction: int, sequence: int, speed: int, brightness: int)

  /** A CLI profile: defaults plus sparse per-key overrides by key name. */
  datatype Config = Config(
    model: string,
    rapidTrigger: RapidTriggerSettings,
    turbo: bool,
    defaultActuation: Tenths,
    actuationPoints: map<string, Tenths>,
    rapidTriggers: map<string, (Tenths, Tenths)>,
    light: LightSettings)

  /** The zero `LightSettings{}`. */
  const LightOff: LightSettings := LightSettings(false, 0, 0, 0, 0)

  // ---------------------------------------------------------------------------
  // Most used value

  /** How often `v` occurs in `vals`: the count the Go map accumulates. */
  function Count(vals: seq<Tenths>, v: Tenths): nat {
    multiset(vals)[v]
  }

  /** The selection loop over the counts, visiting the distinct values in the
      order of their first occurrence (Go visits them in map order, which is
      unspecified): a value replaces the current best only when its count is
      strictly greater. The result occurs at least as often as every value
      of `vals`. */
  function MostUsedFrom(vals: seq<Tenths>, i: nat, best: Tenths, bestCount: nat): (r: Tenths)
    requires i <= |vals|
    requires (bestCount == 0 && i == 0 && best == 0) || (bestCount > 0 && best in vals && bestCount == Count(vals, best))
    requires forall k | 0 <= k < i :: Count(vals, vals[k]) <= bestCount
    ensures r == best || r in vals
    ensures forall k | 0 <= k < |vals| :: Count(vals, vals[k]) <= Count(vals, r)
    decreases |vals| - i
  {
    if i == |vals| then best
    else
      var v := vals[i];
      var n := Count(vals, v);
      assert n > 0;
      if n > bestCount then MostUsedFrom(vals, i + 1, v, n)
      else MostUsedFrom(vals, i + 1, best, bestCount)
  }

  /** `getMostUsedActuation` and its downstroke and upstroke twins: 0 for no
      keys, otherwise a value of the keys with maximal count. */
  function MostUsed(vals: seq<Tenths>): (r: Tenths)
    ensures |vals| == 0 ==> r == 0
    ensures |vals| > 0 ==> r in vals
    ensures forall k | 0 <= k < |vals| :: Count(vals, vals[k]) <= Count(vals, r)
  {
    MostUsedFrom(vals, 0, 0, 0)
  }

  /** No value, present or not, is more frequent than the most used one. */
  lemma MostUsedIsMaximal(vals: seq<Tenths>, v: Tenths)
    ensures Count(vals, v) <= Count(vals, MostUsed(vals))
  {
    if v in vals {
      var k :| 0 <= k < |vals| && vals[k] == v;
    }
  }

  function Actuations(keys: seq<DDConfigKey>): (vals: seq<Tenths>)
    ensures |vals| == |keys| && forall k | 0 <= k < |keys| :: vals[k] == keys[k].actuation
  {
    seq(|keys|, k requires 0 <= k < |keys| => keys[k].actuation)
  }

  function Downstrokes(keys: seq<DDConfigKey>): (vals: seq<Tenths>)
    ensures |vals| == |keys| && forall k | 0 <= k < |keys| :: vals[k] == keys[k].downstroke
  {
    seq(|keys|, k requires 0 <= k < |keys| => keys[k].downstroke)
  }

  function Upstrokes(keys: seq<DDConfigKey>): (vals: seq<Tenths>)
    ensures |vals| == |keys| && forall k | 0 <= k < |keys| :: vals[k] == keys[k].upstroke
  {
    seq(|keys|, k requires 0 <= k < |keys| => keys[k].upstroke)
  }

  // ---------------------------------------------------------------------------
  // Model name

  /** `getModelFromStorageName`: characters 5, 6 and 7 of the storage name;
      a shorter name makes the slice panic. */
  function ModelFromStorageName(storageName: string): (r: Result<string, Fault>)
    ensures |storageName| < 8 ==> r == Failure(SliceOutOfRange)
    ensures |storageName| >= 8 ==>
      && r.Success? && |r.value| == 3
      && forall k | 0 <= k < 3 :: r.value[k] == storageName[5 + k]
  {
    if |storageName| < 8 then Failure(SliceOutOfRange) else Success(storageName[5..8])
  }

  // ---------------------------------------------------------------------------
  // Sparse overrides

  /** The map the loop of `convertToCLIConfig` builds from `keys`: every key
      that `qualifies` stores `value(key)` under its name, a later key
      overwriting an earlier one of the same name. */
  function Overrides<V>(keys: seq<DDConfigKey>, qualifies: DDConfigKey -> bool, value: DDConfigKey -> V): map<string, V>
    decreases |keys|
  {
    if |keys| == 0 then map[]
    else
      var key := keys[|keys| - 1];
      var m := Overrides(keys[..|keys| - 1], qualifies, value);
      if qualifies(key) then m[key.keyname := value(key)] else m
  }

  /** Key `j` is the last key named `name` that qualifies. */
  ghost predicate LastQualifying(keys: seq<DDConfigKey>, qualifies: DDConfigKey -> bool, name: string, j: int) {
    && 0 <= j < |keys| && keys[j].keyname == name && qualifies(keys[j])
    && forall j' | j < j' < |keys| :: keys[j'].keyname == name ==> !qualifies(keys[j'])
  }

  /** A name is present in the overrides exactly when some key of that name
      qualifies, and then holds the value of the last such key. */
  lemma {:induction false} OverridesSpec<V>(keys: seq<DDConfigKey>, qualifies: DDConfigKey -> bool, value: DDConfigKey -> V, name: string)
    ensures name in Overrides(keys, qualifies, value) <==>
      exists j | 0 <= j < |keys| :: keys[j].keyname == name && qualifies(keys[j])
    ensures name in Overrides(keys, qualifies, value) ==>
      exists j :: LastQualifying(keys, qualifies, name, j) && Overrides(keys, qualifies, value)[name] == value(keys[j])
    decreases |keys|
  {
    if |keys| > 0 {
      var init := keys[..|keys| - 1];
      var key := keys[|keys| - 1];
      var m := Overrides(init, qualifies, value);
      OverridesSpec(init, qualifies, value, name);
      assert forall j | 0 <= j < |init| :: init[j] == keys[j];
      if qualifies(key) && key.keyname == name {
        assert LastQualifying(keys, qualifies, name, |keys| - 1);
      } else {
        if name in m {
          var j :| LastQualifying(init, qualifies, name, j) && m[name] == value(init[j]);
          assert LastQualifying(keys, qualifies, name, j);
        }
        if exists j | 0 <= j < |keys| :: keys[j].keyname == name && qualifies(keys[j]) {
          var j :| 0 <= j < |keys| && keys[j].keyname == name && qualifies(keys[j]);
          assert j < |init|;
        }
      }
    }
  }

  /** A key gets an actuation override when its actuation is set and differs
      from the default. */
  predicate ActuationQualifies(key: DDConfigKey, defaultActuation: Tenths) {
    key.actuation != 0 && key.actuation != defaultActuation
  }

  /** A key gets a rapid-trigger entry when its downstroke or its upstroke is
      set and differs from the corresponding default. */
  predicate RapidTriggerQualifies(key: DDConfigKey, defaultDownstroke: Tenths, defaultUpstroke: Tenths) {
    || (key.downstroke != 0 && key.downstroke != defaultDownstroke)
    || (key.upstroke != 0 && key.upstroke != defaultUpstroke)
  }

  /** The actuation points of a converted profile. */
  function ActuationPoints(keys: seq<DDConfigKey>, defaultActuation: Tenths): map<string, Tenths> {
    Overrides(keys, (k: DDConfigKey) => ActuationQualifies(k, defaultActuation), (k: DDConfigKey) => k.actuation)
  }

  /** The rapid-trigger entries of a converted profile. */
  function RapidTriggers(keys: seq<DDConfigKey>, defaultDownstroke: Tenths, defaultUpstroke: Tenths): map<string, (Tenths, Tenths)> {
    Overrides(keys, (k: DDConfigKey) => RapidTriggerQualifies(k, defaultDownstroke, defaultUpstroke),
              (k: DDConfigKey) => (k.downstroke, k.upstroke))
  }

  /** `convertToCLIConfig`: the model from the storage name, the most used
      values as defaults, rapid trigger on, turbo and lights off, and sparse
      overrides for the keys that differ from the defaults. */
  function ConvertToCLIConfig(dd: DDConfig): (r: Result<Config, Fault>)
    ensures |dd.storageName| < 8 <==> r.Failure?
    ensures r.Success? ==>
      var c := r.value;
      && c.model == dd.storageName[5..8]
      && c.defaultActuation == MostUsed(Actuations(dd.keys))
      && c.rapidTrigger.defaultDownstroke == MostUsed(Downstrokes(dd.keys))
      && c.rapidTrigger.defaultUpstroke == MostUsed(Upstrokes(dd.keys))
      && c.rapidTrigger.enabled && !c.turbo && !c.light.enabled && c.light == LightOff
  {
    var model :- ModelFromStorageName(dd.storageName);
    var defaultActuation := MostUsed(Actuations(dd.keys));
    var defaultDownstroke := MostUsed(Downstrokes(dd.keys));
    var defaultUpstroke := MostUsed(Upstrokes(dd.keys));
    Success(Config(
      model,
      RapidTriggerSettings(true, defaultDownstroke, defaultUpstroke),
      false,
      defaultActuation,
      ActuationPoints(dd.keys, defaultActuation),
      RapidTriggers(dd.keys, defaultDownstroke, defaultUpstroke),
      LightOff))
  }

  /** The overrides of a converted profile: a name has an actuation point
      exactly when one of its keys has a non-zero, non-default actuation, and
      then holds the actuation of the last such key; it has a rapid-trigger
      entry exactly when one of its keys has a non-zero, non-default
      downstroke or upstroke, and then holds the (downstroke, upstroke) pair
      of the last such key. */
  lemma ConvertedOverrides(dd: DDConfig, name: string)
    requires ConvertToCLIConfig(dd).Success?
    ensures var c := ConvertToCLIConfig(dd).value;
      var actuates := (k: DDConfigKey) => ActuationQualifies(k, c.defaultActuation);
      var triggers := (k: DDConfigKey) => RapidTriggerQualifies(k, c.rapidTrigger.defaultDownstroke, c.rapidTrigger.defaultUpstroke);
      && (name in c.actuationPoints <==> exists j | 0 <= j < |dd.keys| :: dd.keys[j].keyname == name && actuates(dd.keys[j]))
      && (name in c.actuationPoints ==>
          exists j :: LastQualifying(dd.keys, actuates, name, j) && c.actuationPoints[name] == dd.keys[j].actuation)
      && (name in c.rapidTriggers <==> exists j | 0 <= j < |dd.keys| :: dd.keys[j].keyname == name && triggers(dd.keys[j]))
      && (name in c.rapidTriggers ==>
          exists j :: LastQualifying(dd.keys, triggers, name, j) &&
            c.rapidTriggers[name] == (dd.keys[j].downstroke, dd.keys[j].upstroke))
  {
    var c := ConvertToCLIConfig(dd).value;
    var actuates := (k: DDConfigKey) => ActuationQualifies(k, c.defaultActuation);
    var triggers := (k: DDConfigKey) => RapidTriggerQualifies(k, c.rapidTrigger.defaultDownstroke, c.rapidTrigger.defaultUpstroke);
    OverridesSpec(dd.keys, actuates, (k: DDConfigKey) => k.actuation, name);
    OverridesSpec(dd.keys, triggers, (k: DDConfigKey) => (k.downstroke, k.upstroke), name);
  }

  /** For a profile whose key names are distinct, each key's own values are
      what the converted profile holds for its name. */
  lemma ConvertedKeyValues(dd: DDConfig, j: int)
    requires ConvertToCLIConfig(dd).Success?
    requires 0 <= j < |dd.keys|
    requires forall a, b | 0 <= a < b < |dd.keys| :: dd.keys[a].keyname != dd.keys[b].keyname
    ensures var c := ConvertToCLIConfig(dd).value;
      var key := dd.keys[j];
      && (ActuationQualifies(key, c.defaultActuation) <==> key.keyname in c.actuationPoints)
      && (key.keyname in c.actuationPoints ==> c.actuationPoints[key.keyname] == key.actuation)
      && (RapidTriggerQualifies(key, c.rapidTrigger.defaultDownstroke, c.rapidTrigger.defaultUpstroke) <==>
          key.keyname in c.rapidTriggers)
      && (key.keyname in c.rapidTriggers ==> c.rapidTriggers[key.keyname] == (key.downstroke, key.upstroke))
  {
    var c := ConvertToCLIConfig(dd).value;
    var key := dd.keys[j];
    ConvertedOverrides(dd, key.keyname);
    var actuates := (k: DDConfigKey) => ActuationQualifies(k, c.defaultActuation);
    var triggers := (k: DDConfigKey) => RapidTriggerQualifies(k, c.rapidTrigger.defaultDownstroke, c.rapidTrigger.defaultUpstroke);
    assert forall j' | 0 <= j' < |dd.keys| && dd.keys[j'].keyname == key.keyname :: j' == j;
    if key.keyname in c.actuationPoints {
      var j' :| LastQualifying(dd.keys, actuates, key.keyname, j') && c.actuationPoints[key.keyname] == dd.keys[j'].actuation;
    }
    if key.keyname in c.rapidTriggers {
      var j' :| LastQualifying(dd.keys, triggers, key.keyname, j') &&
        c.rapidTriggers[key.keyname] == (dd.keys[j'].downstroke, dd.keys[j'].upstroke);
    }
  }
}
