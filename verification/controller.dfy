/** The device controller (driver/controller.go) as a state record.

    The Go controller owns a HID device, a bounded outbound queue drained by a
    writer goroutine, and a reader goroutine that hands inbound frames to a
    decoder goroutine. Here the outbound queue is the list `sent` of every
    payload enqueued so far, in order (the single writer sends them first in,
    first out, each framed by `Frame`); the inbound side is the pure filter
    `ReadFrame` followed by the pure state transition `Receive`. */
module Controller {
  import opened Wrappers
  import opened Faults
  import opened Bytes
  import opened Consts
  import opened DriverUtils
  import opened Builder
  import Decimal

  /** A per-key array: one byte per layout slot. */
  type PerKey = s: seq<uint8> | |s| == LayoutSize witness seq(126, _ => 0)

  /** Last known LED mode. */
  datatype Light = Light(direction: uint8, speed: uint8, sequence: uint8, brightness: uint8)

  /** What the keyboard said about itself. */
  datatype Identity = Identity(
    keyboardModel: string,
    keyboardType: uint8,
    firmwareVersion: string,
    turbo: bool,
    rapidTrigger: bool)

  /** An inbound packet: the command byte and the bytes after it. */
  datatype Packet = Packet(command: uint8, data: seq<uint8>)

  datatype Controller = Controller(
    identity: Option<Identity>,
    actuations: PerKey,
    downstrokes: PerKey,
    upstrokes: PerKey,
    turbo: bool,
    rapidTrigger: bool,
    light: Light,
    sent: seq<Payload>,
    closed: bool)

  /** A new controller: default actuation on every key, zero stroke
      thresholds, nothing known about the device, nothing sent. */
  function NewController(): (c: Controller)
    ensures forall i | 0 <= i < LayoutSize :: c.actuations[i] == DefaultActuation
    ensures forall i | 0 <= i < LayoutSize :: c.downstrokes[i] == 0 && c.upstrokes[i] == 0
    ensures c.identity == None && !c.turbo && !c.rapidTrigger && !c.closed
    ensures c.light == Light(0, 0, 0, 0) && c.sent == []
  {
    Controller(None, Repeat(DefaultActuation, LayoutSize), Repeat(0, LayoutSize), Repeat(0, LayoutSize),
               false, false, Light(0, 0, 0, 0), [], false)
  }

  // ---------------------------------------------------------------------------
  // Outbound side

  /** Size of a HID frame in both directions. */
  const FrameSize: nat := 64

  /** `sendReport`: the report id, then the first 63 payload bytes, then zeros. */
  function Frame(p: Payload): (f: seq<uint8>)
    ensures |f| == FrameSize
    ensures f[0] == ReportId
    ensures forall k | 0 <= k < PayloadSize :: f[1 + k] == (if k < |p| then p[k] else 0)
  {
    var body := if |p| > PayloadSize then p[..PayloadSize] else p;
    [ReportId] + body + Repeat(0, PayloadSize - |body|)
  }

  /** The frames the writer puts on the wire for a queue, in queue order. */
  function Transmitted(queue: seq<Payload>): (frames: seq<seq<uint8>>)
    ensures |frames| == |queue|
    ensures forall k | 0 <= k < |queue| :: frames[k] == Frame(queue[k])
  {
    seq(|queue|, k requires 0 <= k < |queue| => Frame(queue[k]))
  }

  /** Payloads enqueued one after another are written one after another. */
  lemma TransmittedInOrder(first: seq<Payload>, second: seq<Payload>)
    ensures Transmitted(first + second) == Transmitted(first) + Transmitted(second)
  {
  }

  /** `QueuePacket`: appends to the queue; a send on the channel after `Close`
      has closed it is a panic. */
  function QueuePacket(c: Controller, p: Payload): (r: Result<Controller, Fault>)
    ensures c.closed ==> r == Failure(SendOnClosedChannel)
    ensures !c.closed ==> r == Success(c.(sent := c.sent + [p]))
  {
    if c.closed then Failure(SendOnClosedChannel) else Success(c.(sent := c.sent + [p]))
  }

  /** Queues `ps` in order. */
  function QueueAll(c: Controller, ps: seq<Payload>): (r: Result<Controller, Fault>)
    ensures |ps| > 0 && c.closed ==> r == Failure(SendOnClosedChannel)
    ensures !c.closed ==> r == Success(c.(sent := c.sent + ps))
    ensures |ps| == 0 ==> r == Success(c)
    decreases |ps|
  {
    if |ps| == 0 then
      assert c.sent + ps == c.sent;
      Success(c)
    else
      var c' :- QueuePacket(c, ps[0]);
      var r := QueueAll(c', ps[1..]);
      assert c.sent + ps == c.sent + [ps[0]] + ps[1..];
      r
  }

  /** `GetIdentity`: when no identity is known yet, an identity request is
      queued (the wait for the answer is not modelled). */
  function RequestIdentity(c: Controller): (r: Result<Controller, Fault>)
    ensures c.identity.Some? ==> r == Success(c)
    ensures c.identity.None? && !c.closed ==> r == Success(c.(sent := c.sent + [[PacketIdentity, 0x02]]))
    ensures c.identity.None? && c.closed ==> r.Failure?
  {
    if c.identity.Some? then Success(c) else QueuePacket(c, BuildIdentity())
  }

  /** `Close` as a one-shot flag: closing twice is the same as closing once. */
  function Close(c: Controller): (r: Controller)
    ensures r.closed
    ensures r.identity == c.identity && r.light == c.light && r.sent == c.sent
    ensures r.actuations == c.actuations && r.downstrokes == c.downstrokes && r.upstrokes == c.upstrokes
    ensures r.turbo == c.turbo && r.rapidTrigger == c.rapidTrigger
  {
    c.(closed := true)
  }

  /** After `Close` nothing more can be queued, and a second `Close` changes nothing. */
  lemma CloseIsFinal(c: Controller, p: Payload)
    ensures Close(Close(c)) == Close(c)
    ensures QueuePacket(Close(c), p).Failure?
    ensures Close(c).sent == c.sent && Close(c).actuations == c.actuations
    ensures Close(c).downstrokes == c.downstrokes && Close(c).upstrokes == c.upstrokes
    ensures Close(c).light == c.light && Close(c).identity == c.identity
    ensures Close(c).turbo == c.turbo && Close(c).rapidTrigger == c.rapidTrigger
    ensures !c.closed ==> Close(c) != c
  {
  }

  // ---------------------------------------------------------------------------
  // Row packets

  function Min(a: int, b: int): int {
    if a <= b then a else b
  }

  /** The first slot of packet row `row`: the loop variable `i` of the Load
      and WriteDefaults loops, which advances by `KeysPerRow` per row. */
  function RowStart(row: int): (i: int)
    ensures i == 59 * row
  {
    KeysPerRow * row
  }

  /** Slots `[RowStart(row), RowStart(row) + KeysPerRow)` of `values`,
      cut at the end of `values`: the `row` slice of the Go loop. */
  function RowSlice(values: seq<uint8>, row: nat): (s: seq<uint8>)
    requires RowStart(row) < |values|
    ensures |s| == Min(KeysPerRow, |values| - RowStart(row))
    ensures forall k | 0 <= k < |s| :: s[k] == values[RowStart(row) + k]
  {
    values[RowStart(row)..Min(RowStart(row) + KeysPerRow, |values|)]
  }

  /** The row slices the loop `for i := 0; i < len(values); i += KEYS_PER_ROW`
      of the Load operations visits, from row `row` on: every slice starts
      inside `values`, and the loop stops at the first row that does not. */
  function RowSlices(values: seq<uint8>, row: nat): (rows: seq<seq<uint8>>)
    ensures RowStart(row + |rows|) >= |values|
    ensures RowStart(row) < |values| ==> |rows| > 0 && RowStart(row + |rows| - 1) < |values|
    ensures forall k | 0 <= k < |rows| ::
      RowStart(row + k) < |values| && rows[k] == RowSlice(values, row + k)
    decreases |values| - RowStart(row)
  {
    if RowStart(row) >= |values| then []
    else
      var rest := RowSlices(values, row + 1);
      var rows := [RowSlice(values, row)] + rest;
      assert forall k | 1 <= k < |rows| :: rows[k] == rest[k - 1];
      rows
  }

  /** The packets of the Load loop: one per row slice, with the row number
      cast to `uint8` as Go does. */
  function RowPackets(kind: StrokeKind, values: seq<uint8>): seq<Payload> {
    var rows := RowSlices(values, 0);
    seq(|rows|, k requires 0 <= k < |rows| => BuildModifyRowFor(kind, TruncateToByte(k), rows[k]))
  }

  /** For a full per-key array the loop sends exactly three packets: rows 0,
      1 and 2 with 59, 59 and 8 keys. */
  function LoadPackets(kind: StrokeKind, values: PerKey): (ps: seq<Payload>)
    ensures |ps| == 3
    ensures ps[0] == BuildModifyRowFor(kind, 0, values[..59])
    ensures ps[1] == BuildModifyRowFor(kind, 1, values[59..118])
    ensures ps[2] == BuildModifyRowFor(kind, 2, values[118..])
  {
    var rows := RowSlices(values, 0);
    assert RowStart(0 + |rows|) >= |values|;
    assert RowStart(0 + |rows| - 1) < |values|;
    assert rows[0] == values[..59];
    assert rows[1] == values[59..118];
    assert rows[2] == values[118..];
    RowPackets(kind, values)
  }

  /** The key values the keyboard reads out of a list of row packets, row after row. */
  function DeviceValues(ps: seq<Payload>): seq<uint8>
    requires forall k | 0 <= k < |ps| :: |ps[k]| == PayloadSize
    decreases |ps|
  {
    if |ps| == 0 then [] else RowKeysOf(ps[0]) + DeviceValues(ps[1..])
  }

  /** The three row packets of a Load carry exactly the per-key array: no key
      is lost to truncation and no padding is sent. */
  lemma LoadPacketsRoundTrip(kind: StrokeKind, values: PerKey)
    ensures forall k | 0 <= k < 3 :: |LoadPackets(kind, values)[k]| == PayloadSize
    ensures DeviceValues(LoadPackets(kind, values)) == values
  {
    var ps := LoadPackets(kind, values);
    RowKeysRoundTrip(kind, 0, values[..59]);
    RowKeysRoundTrip(kind, 1, values[59..118]);
    RowKeysRoundTrip(kind, 2, values[118..]);
    DeviceValuesOfThree(ps);
    assert values[..59] + values[59..118] + values[118..] == values;
  }

  /** Three row packets are read out in order. */
  lemma DeviceValuesOfThree(ps: seq<Payload>)
    requires |ps| == 3 && forall k | 0 <= k < 3 :: |ps[k]| == PayloadSize
    ensures DeviceValues(ps) == RowKeysOf(ps[0]) + RowKeysOf(ps[1]) + RowKeysOf(ps[2])
  {
    var rest: seq<Payload> := ps[1..];
    var last: seq<Payload> := rest[1..];
    assert |last[1..]| == 0;
    assert DeviceValues(last) == RowKeysOf(ps[2]);
    assert DeviceValues(rest) == RowKeysOf(ps[1]) + RowKeysOf(ps[2]);
  }

  /** `LoadActuations`, `LoadDownstrokes`, `LoadUpstrokes`: reject an array of
      the wrong length, store it, and queue its row packets in row order. */
  function Load(c: Controller, kind: StrokeKind, values: seq<uint8>): (r: Result<Controller, Fault>)
    ensures |values| != LayoutSize ==> r == Failure(LengthMismatch)
    ensures |values| == LayoutSize && c.closed ==> r == Failure(SendOnClosedChannel)
    ensures |values| == LayoutSize && !c.closed ==> r.Success?
    ensures r.Success? ==>
      && r.value.sent == c.sent + LoadPackets(kind, values)
      && r.value.actuations == (if kind == Actuation then values else c.actuations)
      && r.value.downstrokes == (if kind == Downstroke then values else c.downstrokes)
      && r.value.upstrokes == (if kind == Upstroke then values else c.upstrokes)
      && r.value.identity == c.identity && r.value.light == c.light
      && r.value.turbo == c.turbo && r.value.rapidTrigger == c.rapidTrigger && !r.value.closed
  {
    if |values| != LayoutSize then Failure(LengthMismatch)
    else
      var stored := match kind
        case Actuation => c.(actuations := values)
        case Downstroke => c.(downstrokes := values)
        case Upstroke => c.(upstrokes := values);
      QueueAll(stored, LoadPackets(kind, values))
  }

  // ---------------------------------------------------------------------------
  // Modifiers

  /** `ModifyActuationsByIndexes`, generalised to any per-key array: every
      in-range index of `indexes` is set to `v`; out-of-range indexes are
      skipped. */
  function SetIndexes(a: PerKey, indexes: seq<int>, v: uint8): (r: PerKey)
    ensures forall i | 0 <= i < LayoutSize ::
      r[i] == if (exists k | 0 <= k < |indexes| :: indexes[k] == i) then v else a[i]
    decreases |indexes|
  {
    if |indexes| == 0 then a
    else
      var index := indexes[0];
      var a' := if 0 <= index < |a| then a[index := v] else a;
      var r := SetIndexes(a', indexes[1..], v);
      assert forall k | 1 <= k < |indexes| :: indexes[1..][k - 1] == indexes[k];
      r
  }

  function ModifyActuationsByIndexes(c: Controller, indexes: seq<int>, v: uint8): (r: Controller)
    ensures forall i | 0 <= i < LayoutSize ::
      r.actuations[i] == if (exists k | 0 <= k < |indexes| :: indexes[k] == i) then v else c.actuations[i]
    ensures r == c.(actuations := r.actuations)
  {
    c.(actuations := SetIndexes(c.actuations, indexes, v))
  }

  /** `ModifyActuationsByNames`: every name the layout holds sets its slot;
      names it does not hold are skipped. */
  function SetNames(a: PerKey, names: seq<string>, v: uint8): (r: PerKey)
    ensures forall i | 0 <= i < LayoutSize ::
      r[i] == if (exists k | 0 <= k < |names| :: GetIndexByKey(names[k]) == i) then v else a[i]
  {
    // A name outside the layout looks up as -1, which is out of range.
    var indexes := seq(|names|, k requires 0 <= k < |names| => GetIndexByKey(names[k]));
    assert forall k | 0 <= k < |names| :: indexes[k] == GetIndexByKey(names[k]);
    SetIndexes(a, indexes, v)
  }

  function ModifyActuationsByNames(c: Controller, names: seq<string>, v: uint8): (r: Controller)
    ensures forall i | 0 <= i < LayoutSize ::
      r.actuations[i] == if (exists k | 0 <= k < |names| :: GetIndexByKey(names[k]) == i) then v else c.actuations[i]
    ensures r == c.(actuations := r.actuations)
  {
    c.(actuations := SetNames(c.actuations, names, v))
  }

  /** Which slots a list of names modifies: a used slot exactly when its name
      is listed, slot 1 (the first unused slot) exactly when "" is listed,
      and no other unused slot. */
  lemma NamesModifyTheirSlots(c: Controller, names: seq<string>, v: uint8, i: int)
    requires 0 <= i < LayoutSize
    ensures Layout[i] != "" ==>
      (ModifyActuationsByNames(c, names, v).actuations[i] == if Layout[i] in names then v else c.actuations[i])
    ensures Layout[i] == "" && i != 1 ==> ModifyActuationsByNames(c, names, v).actuations[i] == c.actuations[i]
    ensures i == 1 ==>
      (ModifyActuationsByNames(c, names, v).actuations[1] == if "" in names then v else c.actuations[1])
  {
    LayoutShape();
    EmptyNameIndex();
    if Layout[i] != "" {
      IndexOfKeyOfIndex(i);
      if Layout[i] in names {
        var k :| 0 <= k < |names| && names[k] == Layout[i];
        assert GetIndexByKey(names[k]) == i;
      }
    }
    if i == 1 && "" in names {
      var k :| 0 <= k < |names| && names[k] == "";
      assert GetIndexByKey(names[k]) == 1;
    }
  }

  /** `ModifyAllActuations`: every slot is set to `v`. */
  function ModifyAllActuations(c: Controller, v: uint8): (r: Controller)
    ensures forall i | 0 <= i < LayoutSize :: r.actuations[i] == v
    ensures r == c.(actuations := r.actuations)
  {
    c.(actuations := Repeat(v, LayoutSize))
  }

  // ---------------------------------------------------------------------------
  // WriteDefaults

  /** One pass of the `WriteDefaults` loop: the actuation, downstroke and
      upstroke packets of row `row` of the controller's current arrays. */
  function RowTriple(c: Controller, row: nat): (ps: seq<Payload>)
    requires RowStart(row) < LayoutSize
    ensures |ps| == 3
  {
    var r := TruncateToByte(row);
    [BuildModifyRowFor(Actuation, r, RowSlice(c.actuations, row)),
     BuildModifyRowFor(Downstroke, r, RowSlice(c.downstrokes, row)),
     BuildModifyRowFor(Upstroke, r, RowSlice(c.upstrokes, row))]
  }

  /** The loop of `WriteDefaults` from row `row` on. */
  function DefaultRows(c: Controller, row: nat): seq<Payload>
    decreases LayoutSize - RowStart(row)
  {
    if RowStart(row) >= LayoutSize then [] else RowTriple(c, row) + DefaultRows(c, row + 1)
  }

  /** The payloads `WriteDefaults` queues: lights off, rapid trigger and turbo
      off, then the three row packets of every row. */
  function DefaultsPackets(c: Controller): (ps: seq<Payload>)
    ensures |ps| == 11
    ensures ps == [BuildLedModeSelect(0, SequenceOff, 5, 9, 0xff), BuildRapidTriggerTurbo(false, false)]
                  + (RowTriple(c, 0) + RowTriple(c, 1) + RowTriple(c, 2))
  {
    DefaultRowsUnrolled(c);
    [BuildLedModeSelect(0, SequenceOff, 5, 9, 0xff), BuildRapidTriggerTurbo(false, false)] + DefaultRows(c, 0)
  }

  /** The loop of `WriteDefaults` runs for rows 0, 1 and 2. */
  lemma DefaultRowsUnrolled(c: Controller)
    ensures DefaultRows(c, 0) == RowTriple(c, 0) + RowTriple(c, 1) + RowTriple(c, 2)
  {
    assert RowStart(1) == 59 && RowStart(2) == 118 && RowStart(3) == 177;
    var t0, t1, t2 := RowTriple(c, 0), RowTriple(c, 1), RowTriple(c, 2);
    assert DefaultRows(c, 2) == t2 + [];
    assert t2 + [] == t2;
    assert DefaultRows(c, 1) == t1 + t2;
    assert DefaultRows(c, 0) == t0 + (t1 + t2);
    assert t0 + (t1 + t2) == t0 + t1 + t2;
  }

  function WriteDefaults(c: Controller): (r: Result<Controller, Fault>)
    ensures c.closed ==> r == Failure(SendOnClosedChannel)
    ensures !c.closed ==> r == Success(c.(sent := c.sent + DefaultsPackets(c)))
  {
    QueueAll(c, DefaultsPackets(c))
  }

  /** The row packets of a per-key array that holds `v` in every slot. */
  function UniformRow(kind: StrokeKind, row: uint8, v: uint8): Payload
    requires row < 3
  {
    BuildModifyRowFor(kind, row, Repeat(v, RowWidth(row)))
  }

  /** Each row slice of a uniform array is as wide as its row. */
  lemma UniformSlice(v: uint8, row: nat)
    requires row < 3
    ensures RowSlice(Repeat(v, LayoutSize), row) == Repeat(v, RowWidth(row as uint8))
  {
  }

  /** `WriteDefaults` sends the controller's current arrays, not a separate
      default array. On a fresh controller these are the defaults: every
      actuation packet carries 2.0 mm on every key of its row, and every
      stroke packet carries 0 mm. */
  lemma FreshWriteDefaults()
    ensures WriteDefaults(NewController()).Success?
    ensures DefaultsPackets(NewController()) ==
      [BuildLedModeSelect(0, SequenceOff, 5, 9, 0xff), BuildRapidTriggerTurbo(false, false)]
      + [UniformRow(Actuation, 0, DefaultActuation), UniformRow(Downstroke, 0, 0), UniformRow(Upstroke, 0, 0)]
      + [UniformRow(Actuation, 1, DefaultActuation), UniformRow(Downstroke, 1, 0), UniformRow(Upstroke, 1, 0)]
      + [UniformRow(Actuation, 2, DefaultActuation), UniformRow(Downstroke, 2, 0), UniformRow(Upstroke, 2, 0)]
  {
    var c := NewController();
    UniformSlice(DefaultActuation, 0);
    UniformSlice(DefaultActuation, 1);
    UniformSlice(DefaultActuation, 2);
    UniformSlice(0, 0);
    UniformSlice(0, 1);
    UniformSlice(0, 2);
  }

  // ---------------------------------------------------------------------------
  // Inbound side

  /** The reader loop's handling of one read of `n` bytes into a 64-byte
      buffer: a frame not starting with the report id is dropped; otherwise a
      positive count delivers the command `buf[1]` and the data `buf[2:n]`
      (a count of 1 makes that slice a panic). */
  function ReadFrame(buf: seq<uint8>, n: int): (r: Result<Option<Packet>, Fault>)
    requires |buf| == FrameSize && 0 <= n <= FrameSize
    ensures buf[0] != ReportId ==> r == Success(None)
    ensures buf[0] == ReportId && n == 0 ==> r == Success(None)
    ensures buf[0] == ReportId && n == 1 ==> r == Failure(SliceOutOfRange)
    ensures buf[0] == ReportId && n >= 2 ==> r == Success(Some(Packet(buf[1], buf[2..n])))
  {
    if buf[0] != ReportId then Success(None)
    else if n > 0 then
      if n < 2 then Failure(SliceOutOfRange) else Success(Some(Packet(buf[1], buf[2..n])))
    else Success(None)
  }

  /** A framed payload read back whole is delivered as its first byte and
      the rest of the frame. */
  lemma FrameRoundTrip(p: Payload)
    requires 1 <= |p| <= PayloadSize
    ensures ReadFrame(Frame(p), FrameSize) == Success(Some(Packet(p[0], p[1..] + Repeat(0, PayloadSize - |p|))))
  {
    var f := Frame(p);
    assert f[2..FrameSize] == p[1..] + Repeat(0, PayloadSize - |p|);
  }

  /** The firmware version as the Go code computes it: `v0 | v1<<8` in byte
      arithmetic, before the conversion to `int`. */
  function FirmwareVersionNumber(v0: uint8, v1: uint8): int {
    ((v0 as bv8) | ((v1 as bv8) << 8)) as int
  }

  /** The shift of a byte by 8 is 0, so only the low byte survives. */
  lemma FirmwareVersionIsLowByte(v0: uint8, v1: uint8)
    ensures FirmwareVersionNumber(v0, v1) == v0
  {
  }

  /** The identity response. `None` means the frame is skipped: its byte 1 is
      not 0. Otherwise a response shorter than 16 data bytes is a panic, and
      a full one yields the model of bytes 3..5, the version of bytes 6..7,
      turbo from byte 14 and rapid trigger from byte 15. */
  function DecodeIdentity(data: seq<uint8>): (r: Result<Option<Identity>, Fault>)
    ensures |data| >= 2 && data[1] != 0 ==> r == Success(None)
    ensures (|data| < 2 || data[1] == 0) && |data| < 16 ==> r == Failure(IndexOutOfRange)
    ensures |data| >= 16 && data[1] == 0 ==>
      && r.Success? && r.value.Some?
      && r.value.value.keyboardModel == DetectKeyboardModel(data[3..6]).name
      && r.value.value.keyboardType == DetectKeyboardModel(data[3..6]).keyboardType % 256
      && r.value.value.firmwareVersion == "0.0" + Decimal.NatToString(data[6])
      && r.value.value.turbo == (data[14] != 0)
      && r.value.value.rapidTrigger == (data[15] != 0)
  {
    if |data| >= 2 && data[1] != 0 then Success(None)
    else if |data| < 16 then Failure(IndexOutOfRange)
    else
      var model := DetectKeyboardModel(data[3..6]);
      var version := FirmwareVersionNumber(data[6], data[7]);
      FirmwareVersionIsLowByte(data[6], data[7]);
      Success(Some(Identity(
        model.name,
        TruncateToByte(model.keyboardType),
        "0.0" + Decimal.NatToString(version),
        data[14] != 0,
        data[15] != 0)))
  }

  /** The decoder goroutine's handling of one packet, as a state transition.
      An index beyond the data is a panic. Only the identity, the light and
      the turbo/rapid-trigger flags can change. */
  function Receive(c: Controller, p: Packet): (r: Result<Controller, Fault>)
    ensures r.Success? ==>
      && r.value.actuations == c.actuations && r.value.downstrokes == c.downstrokes
      && r.value.upstrokes == c.upstrokes && r.value.sent == c.sent && r.value.closed == c.closed
    ensures p.command == PacketLedModeSelect ==>
      if |p.data| < 6 then r == Failure(IndexOutOfRange)
      else r == Success(c.(light := Light(direction := p.data[2], speed := p.data[4],
                                          sequence := p.data[3], brightness := p.data[5])))
    ensures p.command == PacketTurboRapidTrigger ==>
      if |p.data| < 8 then r == Failure(IndexOutOfRange)
      else r == Success(c.(turbo := p.data[6] != 0, rapidTrigger := p.data[7] != 0))
    ensures p.command == PacketIdentity ==>
      match DecodeIdentity(p.data)
      case Failure(e) => r == Failure(e)
      case Success(None) => r == Success(c)
      case Success(Some(id)) => r == Success(c.(identity := Some(id)))
    ensures p.command !in {PacketIdentity, PacketLedModeSelect, PacketTurboRapidTrigger} ==> r == Success(c)
  {
    if p.command == PacketIdentity then
      var decoded :- DecodeIdentity(p.data);
      if decoded.Some? then Success(c.(identity := decoded)) else Success(c)
    else if p.command == PacketLedModeSelect then
      if |p.data| < 6 then Failure(IndexOutOfRange)
      else Success(c.(light := Light(direction := p.data[2], speed := p.data[4],
                                     sequence := p.data[3], brightness := p.data[5])))
    else if p.command == PacketTurboRapidTrigger then
      if |p.data| < 8 then Failure(IndexOutOfRange)
      else Success(c.(turbo := p.data[6] != 0, rapidTrigger := p.data[7] != 0))
    else
      Success(c)
  }

  /** A complete 64-byte read never makes the reader or the decoder panic. */
  lemma FullFramesNeverPanic(c: Controller, buf: seq<uint8>)
    requires |buf| == FrameSize
    ensures ReadFrame(buf, FrameSize).Success?
    ensures ReadFrame(buf, FrameSize).value.Some? ==> Receive(c, ReadFrame(buf, FrameSize).value.value).Success?
  {
  }

  /** The keyboard echoes the LED command it received; decoding the echo of
      a framed LED command recovers direction, sequence, speed and brightness. */
  lemma LightEchoRoundTrip(c: Controller, direction: uint8, sequence: uint8, speed: uint8, brightness: uint8, rgb: uint8)
    ensures var echo := ReadFrame(Frame(BuildLedModeSelect(direction, sequence, speed, brightness, rgb)), FrameSize);
      && echo.Success? && echo.value.Some?
      && Receive(c, echo.value.value) == Success(c.(light := Light(direction, speed, sequence, brightness)))
    ensures var echo := ReadFrame(Frame(BuildLedModeSelectTurbo(direction, sequence, speed, brightness, rgb)), FrameSize);
      && echo.Success? && echo.value.Some?
      && Receive(c, echo.value.value) == Success(c.(light := Light(direction, speed, sequence, brightness)))
  {
    var p := BuildLedModeSelect(direction, sequence, speed, brightness, rgb);
    FrameRoundTrip(p);
    var q := BuildLedModeSelectTurbo(direction, sequence, speed, brightness, rgb);
    FrameRoundTrip(q);
  }

  /** Decoding the echo of a framed turbo / rapid-trigger command recovers both flags. */
  lemma TurboEchoRoundTrip(c: Controller, rt: bool, turbo: bool)
    ensures var echo := ReadFrame(Frame(BuildRapidTriggerTurbo(rt, turbo)), FrameSize);
      && echo.Success? && echo.value.Some?
      && Receive(c, echo.value.value) == Success(c.(turbo := turbo, rapidTrigger := rt))
  {
    var p := BuildRapidTriggerTurbo(rt, turbo);
    FrameRoundTrip(p);
  }
}
