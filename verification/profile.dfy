/** Loading a CLI profile onto the keyboard (drunkdeer/main.go): the model
    check, the expansion of the sparse overrides into dense per-key arrays,
    the light-disabled rule, and the order in which the settings are sent. */
module Profile {
  import opened Wrappers
  import opened Faults
  import opened Bytes
  import opened Consts
  import opened DriverUtils
  import opened Builder
  import opened Controller
  import opened Converter

  /** The three dense arrays `prepareKeySettings` returns. */
  datatype KeySettings = KeySettings(actuations: PerKey, downstrokes: PerKey, upstrokes: PerKey)

  /** The downstroke half of the rapid-trigger entries. */
  function DownstrokeHalf(rt: map<string, (Tenths, Tenths)>): (m: map<string, Tenths>)
    ensures m.Keys == rt.Keys && forall name | name in rt :: m[name] == rt[name].0
  {
    map name | name in rt :: rt[name].0
  }

  /** The upstroke half of the rapid-trigger entries. */
  function UpstrokeHalf(rt: map<string, (Tenths, Tenths)>): (m: map<string, Tenths>)
    ensures m.Keys == rt.Keys && forall name | name in rt :: m[name] == rt[name].1
  {
    map name | name in rt :: rt[name].1
  }

  /** Slot `i` is the slot the name lookup finds for the name it holds. This
      is every used slot and slot 1, the one the empty name resolves to. */
  predicate Owns(i: int)
    requires 0 <= i < LayoutSize
  {
    LayoutShape();
    GetIndexByKey(Layout[i]) == i
  }

  /** A per-key array of the fill loop after the override names outside
      `pending` have been written: the converted override of the name that
      owns a slot when that name is done, the converted default elsewhere. */
  function PartialDense(default: uint8, overrides: map<string, Tenths>, pending: set<string>): PerKey {
    LayoutShape();
    seq(LayoutSize, i requires 0 <= i < LayoutSize =>
      if Owns(i) && Layout[i] in overrides && Layout[i] !in pending then ActuationToByte(overrides[Layout[i]]) else default)
  }

  /** Writing the override of one more name changes exactly the slot of that name. */
  lemma PartialDenseStep(default: uint8, overrides: map<string, Tenths>, pending: set<string>, name: string)
    requires name in pending && name in overrides && name in Layout
    ensures PartialDense(default, overrides, pending - {name})
         == PartialDense(default, overrides, pending)[GetIndexByKey(name) := ActuationToByte(overrides[name])]
  {
    LayoutShape();
    var i := GetIndexByKey(name);
    assert Owns(i) && Layout[i] == name;
    var before := PartialDense(default, overrides, pending);
    var after := PartialDense(default, overrides, pending - {name});
    forall j | 0 <= j < LayoutSize && j != i
      ensures after[j] == before[j]
    {
      if Owns(j) && Layout[j] == name {
        assert false;
      }
    }
    assert after == before[i := ActuationToByte(overrides[name])];
  }

  /** A dense per-key array: the converted override of the name that owns a
      slot when there is one, the converted default everywhere else. Every
      override lands in the slot of its name, and a slot no override name
      resolves to keeps the default. */
  function Dense(default: uint8, overrides: map<string, Tenths>): (a: PerKey)
    ensures forall name | name in overrides && name in Layout ::
      a[GetIndexByKey(name)] == ActuationToByte(overrides[name])
    ensures forall i | 0 <= i < LayoutSize ::
      (forall name | name in overrides :: GetIndexByKey(name) != i) ==> a[i] == default
  {
    LayoutShape();
    var a := PartialDense(default, overrides, {});
    assert forall name | name in overrides && name in Layout :: Owns(GetIndexByKey(name));
    a
  }

  /** Every name of the profile's overrides is a name of the layout. */
  predicate NamesInLayout(config: Config) {
    && (forall name | name in config.actuationPoints :: name in Layout)
    && (forall name | name in config.rapidTriggers :: name in Layout)
  }

  /** `prepareKeySettings`: every slot starts at the converted default of its
      array; each actuation override then writes the slot of its name, and
      each rapid-trigger entry writes both the downstroke and the upstroke of
      the slot of its name. A name the layout does not hold gives index -1,
      and the write panics. */
  function PrepareKeySettings(config: Config): (r: Result<KeySettings, Fault>)
    ensures !NamesInLayout(config) <==> r == Failure(IndexOutOfRange)
    ensures r.Success? ==>
      && (forall name | name in config.actuationPoints ::
            r.value.actuations[GetIndexByKey(name)] == ActuationToByte(config.actuationPoints[name]))
      && (forall name | name in config.rapidTriggers ::
            && r.value.downstrokes[GetIndexByKey(name)] == ActuationToByte(config.rapidTriggers[name].0)
            && r.value.upstrokes[GetIndexByKey(name)] == ActuationToByte(config.rapidTriggers[name].1))
      && (forall i | 0 <= i < LayoutSize && (forall name | name in config.actuationPoints :: GetIndexByKey(name) != i) ::
            r.value.actuations[i] == ActuationToByte(config.defaultActuation))
      && (forall i | 0 <= i < LayoutSize && (forall name | name in config.rapidTriggers :: GetIndexByKey(name) != i) ::
            && r.value.downstrokes[i] == ActuationToByte(config.rapidTrigger.defaultDownstroke)
            && r.value.upstrokes[i] == ActuationToByte(config.rapidTrigger.defaultUpstroke))
  {
    if !NamesInLayout(config) then Failure(IndexOutOfRange)
    else
      var down := DownstrokeHalf(config.rapidTriggers);
      var up := UpstrokeHalf(config.rapidTriggers);
      Success(KeySettings(
        Dense(ActuationToByte(config.defaultActuation), config.actuationPoints),
        Dense(ActuationToByte(config.rapidTrigger.defaultDownstroke), down),
        Dense(ActuationToByte(config.rapidTrigger.defaultUpstroke), up)))
  }

  /** The Go procedure behind `PrepareKeySettings`: fill, then visit the
      actuation overrides and then the rapid-trigger entries one name at a
      time, in an arbitrary order (Go's map order), stopping at the first
      name the layout does not hold. Whatever the order, the outcome is
      `PrepareKeySettings`. */
  method PrepareKeySettingsSteps(config: Config) returns (r: Result<KeySettings, Fault>)
    ensures r == PrepareKeySettings(config)
  {
    var actuations := FillActuations(ActuationToByte(config.defaultActuation), config.actuationPoints);
    if actuations.None? {
      return Failure(IndexOutOfRange);
    }
    var strokes := FillRapidTriggers(ActuationToByte(config.rapidTrigger.defaultDownstroke),
                                     ActuationToByte(config.rapidTrigger.defaultUpstroke), config.rapidTriggers);
    if strokes.None? {
      return Failure(IndexOutOfRange);
    }
    r := Success(KeySettings(actuations.value, strokes.value.0, strokes.value.1));
  }

  /** The actuation loop of `prepareKeySettings`: `None` is the panic on a
      name the layout does not hold. */
  method FillActuations(default: uint8, ap: map<string, Tenths>) returns (r: Option<PerKey>)
    ensures r.Some? <==> forall name | name in ap :: name in Layout
    ensures r.Some? ==> r.value == Dense(default, ap)
  {
    LayoutShape();
    var actuations: PerKey := Repeat(default, LayoutSize);
    var todo := ap.Keys;
    assert actuations == PartialDense(default, ap, todo);
    while todo != {}
      invariant todo <= ap.Keys
      invariant forall name | name in ap && name !in todo :: name in Layout
      invariant actuations == PartialDense(default, ap, todo)
      decreases |todo|
    {
      var key :| key in todo;
      var i := GetIndexByKey(key);
      if i == -1 {
        return None;
      }
      PartialDenseStep(default, ap, todo, key);
      actuations := actuations[i := ActuationToByte(ap[key])];
      todo := todo - {key};
    }
    r := Some(actuations);
  }

  /** The rapid-trigger loop of `prepareKeySettings`: each entry writes the
      downstroke and the upstroke of its slot; `None` is the panic on a name
      the layout does not hold. */
  method FillRapidTriggers(defaultDown: uint8, defaultUp: uint8, rt: map<string, (Tenths, Tenths)>)
    returns (r: Option<(PerKey, PerKey)>)
    ensures r.Some? <==> forall name | name in rt :: name in Layout
    ensures r.Some? ==> r.value == (Dense(defaultDown, DownstrokeHalf(rt)), Dense(defaultUp, UpstrokeHalf(rt)))
  {
    LayoutShape();
    var downstrokes: PerKey := Repeat(defaultDown, LayoutSize);
    var upstrokes: PerKey := Repeat(defaultUp, LayoutSize);
    var down := DownstrokeHalf(rt);
    var up := UpstrokeHalf(rt);
    var todo := rt.Keys;
    assert downstrokes == PartialDense(defaultDown, down, todo);
    assert upstrokes == PartialDense(defaultUp, up, todo);
    while todo != {}
      invariant todo <= rt.Keys
      invariant forall name | name in rt && name !in todo :: name in Layout
      invariant downstrokes == PartialDense(defaultDown, down, todo)
      invariant upstrokes == PartialDense(defaultUp, up, todo)
      decreases |todo|
    {
      var key :| key in todo;
      var i := GetIndexByKey(key);
      if i == -1 {
        return None;
      }
      PartialDenseStep(defaultDown, down, todo, key);
      PartialDenseStep(defaultUp, up, todo, key);
      downstrokes := downstrokes[i := ActuationToByte(rt[key].0)];
      upstrokes := upstrokes[i := ActuationToByte(rt[key].1)];
      todo := todo - {key};
    }
    r := Some((downstrokes, upstrokes));
  }

  /** The light rule of `handleLoadProfile`: a disabled light has its
      sequence forced to off; an enabled one is kept. */
  function ApplyLightRule(light: LightSettings): (r: LightSettings)
    ensures r.enabled == light.enabled
    ensures r.direction == light.direction && r.speed == light.speed && r.brightness == light.brightness
    ensures r.sequence == if light.enabled then light.sequence else SequenceOff
  {
    if light.enabled then light else light.(sequence := SequenceOff)
  }

  /** `configureLights`: the controller's light state, each field cut to a byte. */
  function ConfigureLights(light: LightSettings): (r: Light)
    ensures r.direction == TruncateToByte(light.direction) && r.speed == TruncateToByte(light.speed)
    ensures r.sequence == TruncateToByte(light.sequence) && r.brightness == TruncateToByte(light.brightness)
    ensures 0 <= light.sequence < 256 ==> r.sequence == light.sequence
  {
    Light(direction := TruncateToByte(light.direction), speed := TruncateToByte(light.speed),
          sequence := TruncateToByte(light.sequence), brightness := TruncateToByte(light.brightness))
  }

  /** The model check of `handleLoadProfile`: a profile that names a model
      must name the device's model. */
  predicate ModelMatches(config: Config, deviceModel: string) {
    config.model == "" || config.model == deviceModel
  }

  /** `applySettings`: turbo / rapid trigger, then the light from the
      controller's light state, then the three Load operations. */
  function ApplySettings(c: Controller, config: Config, s: KeySettings): (r: Result<Controller, Fault>)
    ensures c.closed <==> r.Failure?
    // Only the queue and the arrays change: the light, the identity and the
    // turbo and rapid trigger flags change only when the keyboard's echo is received.
    ensures r.Success? ==>
      r.value == c.(sent := c.sent
         + [BuildRapidTriggerTurbo(config.rapidTrigger.enabled, config.turbo),
            BuildLedModeSelect(c.light.direction, c.light.sequence, c.light.speed, c.light.brightness, 0xff)]
         + LoadPackets(Actuation, s.actuations) + LoadPackets(Downstroke, s.downstrokes) + LoadPackets(Upstroke, s.upstrokes),
         actuations := s.actuations, downstrokes := s.downstrokes, upstrokes := s.upstrokes)
  {
    if c.closed then Failure(SendOnClosedChannel)
    else
      var header := [BuildRapidTriggerTurbo(config.rapidTrigger.enabled, config.turbo),
                     BuildLedModeSelect(c.light.direction, c.light.sequence, c.light.speed, c.light.brightness, 0xff)];
      var c2 := c.(sent := c.sent + header);
      assert QueueAll(c, header) == Success(c2);
      var pa := LoadPackets(Actuation, s.actuations);
      var pd := LoadPackets(Downstroke, s.downstrokes);
      var pu := LoadPackets(Upstroke, s.upstrokes);
      var c3 := Load(c2, Actuation, s.actuations).value;
      assert c3.sent == c2.sent + pa && !c3.closed;
      var c4 := Load(c3, Downstroke, s.downstrokes).value;
      assert c4.sent == c2.sent + pa + pd && !c4.closed;
      var c5 := Load(c4, Upstroke, s.upstrokes);
      assert c5.value.sent == c2.sent + pa + pd + pu;
      c5
  }

  /** `handleLoadProfile` after the profile has been read: the model check
      (`os.Exit(1)` on a mismatch), the dense arrays, the light rule, the
      light state, and the settings. `deviceModel` is the model the
      keyboard's identity reports. */
  function LoadProfile(c: Controller, deviceModel: string, config: Config): (r: Result<Controller, Fault>)
    ensures !ModelMatches(config, deviceModel) ==> r == Failure(ModelMismatch)
    ensures ModelMatches(config, deviceModel) && !NamesInLayout(config) ==> r == Failure(IndexOutOfRange)
    ensures r.Success? <==> ModelMatches(config, deviceModel) && NamesInLayout(config) && !c.closed
    ensures r.Success? ==>
      var s := PrepareKeySettings(config).value;
      var light := ConfigureLights(ApplyLightRule(config.light));
      && r.value.light == light
      && r.value.actuations == s.actuations && r.value.downstrokes == s.downstrokes && r.value.upstrokes == s.upstrokes
      && r.value.sent == c.sent
         + [BuildRapidTriggerTurbo(config.rapidTrigger.enabled, config.turbo),
            BuildLedModeSelect(light.direction, light.sequence, light.speed, light.brightness, 0xff)]
         + LoadPackets(Actuation, s.actuations) + LoadPackets(Downstroke, s.downstrokes) + LoadPackets(Upstroke, s.upstrokes)
    ensures r.Success? ==>
      && r.value.identity == c.identity && r.value.turbo == c.turbo && r.value.rapidTrigger == c.rapidTrigger
      && !r.value.closed
  {
    if !ModelMatches(config, deviceModel) then Failure(ModelMismatch)
    else
      var s :- PrepareKeySettings(config);
      var lit := c.(light := ConfigureLights(ApplyLightRule(config.light)));
      ApplySettings(lit, config, s)
  }

  /** A profile with its light disabled sends the "off" sequence, whatever
      sequence it names. */
  lemma DisabledLightSendsOff(c: Controller, deviceModel: string, config: Config)
    requires LoadProfile(c, deviceModel, config).Success?
    requires !config.light.enabled
    ensures |LoadProfile(c, deviceModel, config).value.sent| > |c.sent| + 1
    ensures LoadProfile(c, deviceModel, config).value.sent[|c.sent| + 1][4] == SequenceOff
  {
    var sent := LoadProfile(c, deviceModel, config).value.sent;
    assert sent[|c.sent| + 1] == BuildLedModeSelect(ConfigureLights(ApplyLightRule(config.light)).direction,
      SequenceOff, ConfigureLights(ApplyLightRule(config.light)).speed,
      ConfigureLights(ApplyLightRule(config.light)).brightness, 0xff);
  }

  /** What `PrepareKeySettings` puts into the slot of a layout name: its
      override when the profile has one, the default otherwise. */
  lemma SlotOfName(config: Config, name: string)
    requires NamesInLayout(config) && name in Layout
    ensures var s := PrepareKeySettings(config).value;
      var i := GetIndexByKey(name);
      && 0 <= i < LayoutSize
      && s.actuations[i] == ActuationToByte(
           if name in config.actuationPoints then config.actuationPoints[name] else config.defaultActuation)
      && s.downstrokes[i] == ActuationToByte(
           if name in config.rapidTriggers then config.rapidTriggers[name].0 else config.rapidTrigger.defaultDownstroke)
      && s.upstrokes[i] == ActuationToByte(
           if name in config.rapidTriggers then config.rapidTriggers[name].1 else config.rapidTrigger.defaultUpstroke)
  {
    LayoutShape();
    var i := GetIndexByKey(name);
    forall other | other in Layout && GetIndexByKey(other) == i
      ensures other == name
    {
    }
  }

  /** Every override name of a converted profile is the name of one of its keys. */
  lemma ConvertedNamesInLayout(dd: DDConfig)
    requires |dd.storageName| >= 8
    requires forall k | 0 <= k < |dd.keys| :: dd.keys[k].keyname in Layout
    ensures ConvertToCLIConfig(dd).Success? && NamesInLayout(ConvertToCLIConfig(dd).value)
  {
    var c := ConvertToCLIConfig(dd).value;
    forall name | name in c.actuationPoints || name in c.rapidTriggers
      ensures name in Layout
    {
      ConvertedOverrides(dd, name);
    }
  }

  /** From web-driver profile to device arrays: for a profile whose key names
      are distinct and all in the layout, converting it and expanding the
      result puts into each key's slot that key's own actuation, or the most
      used actuation where the key leaves it at 0, and that key's own
      downstroke and upstroke when either differs from its default. */
  lemma ConvertThenPrepare(dd: DDConfig, j: int)
    requires |dd.storageName| >= 8
    requires forall a, b | 0 <= a < b < |dd.keys| :: dd.keys[a].keyname != dd.keys[b].keyname
    requires forall k | 0 <= k < |dd.keys| :: dd.keys[k].keyname in Layout
    requires 0 <= j < |dd.keys|
    ensures ConvertToCLIConfig(dd).Success?
    ensures PrepareKeySettings(ConvertToCLIConfig(dd).value).Success?
    ensures var c := ConvertToCLIConfig(dd).value;
      var s := PrepareKeySettings(c).value;
      var key := dd.keys[j];
      var i := GetIndexByKey(key.keyname);
      && 0 <= i < LayoutSize
      && s.actuations[i] == ActuationToByte(if key.actuation != 0 then key.actuation else c.defaultActuation)
      && s.downstrokes[i] == ActuationToByte(
           if RapidTriggerQualifies(key, c.rapidTrigger.defaultDownstroke, c.rapidTrigger.defaultUpstroke)
           then key.downstroke else c.rapidTrigger.defaultDownstroke)
      && s.upstrokes[i] == ActuationToByte(
           if RapidTriggerQualifies(key, c.rapidTrigger.defaultDownstroke, c.rapidTrigger.defaultUpstroke)
           then key.upstroke else c.rapidTrigger.defaultUpstroke)
  {
    ConvertedNamesInLayout(dd);
    ConvertedKeyValues(dd, j);
    SlotOfName(ConvertToCLIConfig(dd).value, dd.keys[j].keyname);
  }
}
