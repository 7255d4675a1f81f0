/** The report encoder (driver/builder.go): pure functions that turn semantic
    parameters into command payloads. A payload is at most 63 bytes; the
    transport adds the report id in front (see `Controller.Frame`). */
module Builder {
  import opened Bytes
  import opened Consts
  import opened DriverUtils

  type Payload = seq<uint8>

  /** Size of the fixed-width payloads (a 64-byte frame without its report id). */
  const PayloadSize: nat := 63

  /** Asks the keyboard to describe itself. */
  function BuildIdentity(): (r: Payload)
    ensures r == [PacketIdentity, 0x02]
  {
    [PacketIdentity, 0x02]
  }

  /** Selects a lighting effect; byte 2 is 0 (plain mode). */
  function BuildLedModeSelect(direction: uint8, sequence: uint8, speed: uint8, brightness: uint8, rgb: uint8): (r: Payload)
    ensures |r| == 8
    ensures r[0] == PacketLedModeSelect && r[1] == 0x01 && r[2] == 0x00
    ensures r[3] == direction && r[4] == sequence && r[5] == speed && r[6] == brightness && r[7] == rgb
  {
    [PacketLedModeSelect, 0x01, 0x00, direction, sequence, speed, brightness, rgb]
  }

  /** The turbo variant of the lighting command: the plain command with byte 2 set to 1. */
  function BuildLedModeSelectTurbo(direction: uint8, sequence: uint8, speed: uint8, brightness: uint8, rgb: uint8): (r: Payload)
    ensures |r| == 8 && r[2] == 0x01
    ensures forall k | 0 <= k < 8 && k != 2 :: r[k] == BuildLedModeSelect(direction, sequence, speed, brightness, rgb)[k]
  {
    BuildLedModeSelect(direction, sequence, speed, brightness, rgb)[2 := 0x01]
  }

  /** The fixed header of the turbo / rapid-trigger command. */
  const TurboRapidTriggerHeader: Payload := [PacketTurboRapidTrigger, 0x00, 0x1E, 0x01, 0x00, 0x00, 0x01]

  /** Switches rapid trigger and turbo: turbo flag at offset 7, rapid-trigger
      flag at offset 8, zero elsewhere after the header. */
  function BuildRapidTriggerTurbo(rt: bool, turbo: bool): (r: Payload)
    ensures |r| == PayloadSize
    ensures r[..7] == [0xB5, 0x00, 0x1E, 0x01, 0x00, 0x00, 0x01]
    ensures r[7] == BoolToByte(turbo) && r[8] == BoolToByte(rt)
    ensures forall k | 9 <= k < PayloadSize :: r[k] == 0
  {
    TurboRapidTriggerHeader + [BoolToByte(turbo), BoolToByte(rt)] + Repeat(0, PayloadSize - 9)
  }

  /** Turns key tracking on or off (defined by the driver, unused by the CLI). */
  function BuildKeyTracking(track: bool): (r: Payload)
    ensures |r| == PayloadSize
    ensures r[0] == PacketModifyKey && r[1] == 0x03
    ensures r[2] == (if track then 1 else 0)
    ensures forall k | 3 <= k < PayloadSize :: r[k] == 0
  {
    [PacketModifyKey, 0x03, if track then 1 else 0] + Repeat(0, PayloadSize - 3)
  }

  /** How many key bytes a row packet carries: 8 for the short row 2, 59 for
      every other row number. */
  function RowWidth(row: uint8): (w: nat)
    ensures row == ShortRow ==> w == ShortRowKeys
    ensures row != ShortRow ==> w == KeysPerRow
    ensures w <= PayloadSize - 4
  {
    if row == ShortRow then ShortRowKeys else KeysPerRow
  }

  /** The first `width` values of `keys`, right-padded with `fill`. */
  function FitRow(keys: seq<uint8>, width: nat, fill: uint8): (r: seq<uint8>)
    ensures |r| == width
    ensures forall k | 0 <= k < width :: r[k] == (if k < |keys| then keys[k] else fill)
  {
    if |keys| >= width then keys[..width] else keys + Repeat(fill, width - |keys|)
  }

  /** The row payload: header [0xB6, 0x01, 0x00, row], then the row's keys
      silently truncated or padded with `defaultValue` to the row width, then
      zeros. */
  function BuildModifyRow(row: uint8, keys: seq<uint8>, defaultValue: uint8): (r: Payload)
    ensures |r| == PayloadSize
    ensures r[..4] == [PacketModifyKey, 0x01, 0x00, row]
    ensures forall k | 0 <= k < RowWidth(row) ::
      r[4 + k] == (if k < |keys| then keys[k] else defaultValue)
    ensures forall k | 4 + RowWidth(row) <= k < PayloadSize :: r[k] == 0
  {
    var width := RowWidth(row);
    var r := [PacketModifyKey, 0x01, 0x00, row] + FitRow(keys, width, defaultValue) + Repeat(0, PayloadSize - 4 - width);
    assert forall k | 0 <= k < width :: r[4 + k] == FitRow(keys, width, defaultValue)[k];
    r
  }

  /** The Go procedure behind `BuildModifyRow` step by step: truncate to 59,
      truncate row 2 to 8, pad with `append`, then copy the keys after the
      header. The Go `append` may write into the caller's array; this model
      builds a fresh sequence instead. */
  method BuildModifyRowSteps(row: uint8, keys: seq<uint8>, defaultValue: uint8) returns (report: Payload)
    ensures report == BuildModifyRow(row, keys, defaultValue)
  {
    report := [PacketModifyKey, 0x01, 0x00, row] + Repeat(0, PayloadSize - 4);
    var ks := FitRowSteps(row, keys, defaultValue);
    var i := 0;
    while i < |ks|
      invariant 0 <= i <= |ks|
      invariant |report| == PayloadSize
      invariant report[..4] == [PacketModifyKey, 0x01, 0x00, row]
      invariant forall k | 0 <= k < i :: report[4 + k] == ks[k]
      invariant forall k | 4 + i <= k < PayloadSize :: report[k] == 0
    {
      report := report[i + 4 := ks[i]];
      i := i + 1;
    }
    var expected := BuildModifyRow(row, keys, defaultValue);
    assert forall k | 0 <= k < PayloadSize :: report[k] == expected[k] by {
      forall k | 0 <= k < PayloadSize
        ensures report[k] == expected[k]
      {
        if k < 4 {
          assert report[k] == report[..4][k] && expected[k] == expected[..4][k];
        }
      }
    }
  }

  /** The truncation and padding steps of `BuildModifyRow`: cut to 59 keys,
      cut row 2 to 8, then append the default value up to the row width. */
  method FitRowSteps(row: uint8, keys: seq<uint8>, defaultValue: uint8) returns (ks: seq<uint8>)
    ensures ks == FitRow(keys, RowWidth(row), defaultValue)
  {
    ks := keys;
    if |ks| > KeysPerRow {
      ks := ks[..KeysPerRow];
    }
    if |ks| > ShortRowKeys && row == ShortRow {
      ks := ks[..ShortRowKeys];
    }
    var kept := |ks|;
    assert forall k | 0 <= k < kept :: ks[k] == keys[k];
    if |ks| < KeysPerRow && row != ShortRow {
      var i := |ks|;
      while i < KeysPerRow
        invariant kept <= i <= KeysPerRow && |ks| == i
        invariant forall k | 0 <= k < i :: ks[k] == (if k < kept then keys[k] else defaultValue)
      {
        ks := ks + [defaultValue];
        i := i + 1;
      }
    }
    if |ks| < ShortRowKeys && row == ShortRow {
      var i := |ks|;
      while i < ShortRowKeys
        invariant kept <= i <= ShortRowKeys && |ks| == i
        invariant forall k | 0 <= k < i :: ks[k] == (if k < kept then keys[k] else defaultValue)
      {
        ks := ks + [defaultValue];
        i := i + 1;
      }
    }
  }

  /** The three per-key quantities a row packet can carry. */
  datatype StrokeKind = Actuation | Downstroke | Upstroke

  /** Byte 1 of the row packet for each quantity. */
  function Subcommand(kind: StrokeKind): uint8 {
    match kind
    case Actuation => 0x01
    case Downstroke => 0x04
    case Upstroke => 0x05
  }

  /** The padding value for each quantity: the default 2.0 mm actuation, or 0.0 mm. */
  function FillValue(kind: StrokeKind): uint8 {
    match kind
    case Actuation => DefaultActuation
    case Downstroke => 0x00
    case Upstroke => 0x00
  }

  function BuildModifyRowActuation(row: uint8, keys: seq<uint8>): (r: Payload)
    ensures |r| == PayloadSize && r[1] == 0x01
    ensures forall k | 0 <= k < PayloadSize && k != 1 :: r[k] == BuildModifyRow(row, keys, 0x14)[k]
  {
    BuildModifyRow(row, keys, DefaultActuation)[1 := 0x01]
  }

  function BuildModifyRowDownstroke(row: uint8, keys: seq<uint8>): (r: Payload)
    ensures |r| == PayloadSize && r[1] == 0x04
    ensures forall k | 0 <= k < PayloadSize && k != 1 :: r[k] == BuildModifyRow(row, keys, 0x00)[k]
  {
    BuildModifyRow(row, keys, 0x00)[1 := 0x04]
  }

  function BuildModifyRowUpstroke(row: uint8, keys: seq<uint8>): (r: Payload)
    ensures |r| == PayloadSize && r[1] == 0x05
    ensures forall k | 0 <= k < PayloadSize && k != 1 :: r[k] == BuildModifyRow(row, keys, 0x00)[k]
  {
    BuildModifyRow(row, keys, 0x00)[1 := 0x05]
  }

  /** The row builder for one quantity. */
  function BuildModifyRowFor(kind: StrokeKind, row: uint8, keys: seq<uint8>): Payload {
    match kind
    case Actuation => BuildModifyRowActuation(row, keys)
    case Downstroke => BuildModifyRowDownstroke(row, keys)
    case Upstroke => BuildModifyRowUpstroke(row, keys)
  }

  /** The three variants differ only in byte 1 and in the fill value; the
      downstroke and upstroke packets differ in byte 1 alone. */
  lemma VariantsDiffer(kind: StrokeKind, row: uint8, keys: seq<uint8>)
    ensures |BuildModifyRowFor(kind, row, keys)| == PayloadSize
    ensures BuildModifyRowFor(kind, row, keys)[1] == Subcommand(kind)
    ensures BuildModifyRowFor(kind, row, keys) == BuildModifyRow(row, keys, FillValue(kind))[1 := Subcommand(kind)]
    ensures BuildModifyRowDownstroke(row, keys)[1 := 0x05] == BuildModifyRowUpstroke(row, keys)
  {
  }

  /** The key bytes a row packet carries, as the keyboard reads them. */
  function RowKeysOf(p: Payload): (keys: seq<uint8>)
    requires |p| == PayloadSize
    ensures |keys| == RowWidth(p[3])
    ensures forall k | 0 <= k < |keys| :: keys[k] == p[4 + k]
  {
    p[4..4 + RowWidth(p[3])]
  }

  /** Decoding the key bytes of a row packet gives back the values it was
      built from, truncated or padded to the row width; a row of exactly the
      row width comes back unchanged. */
  lemma RowKeysRoundTrip(kind: StrokeKind, row: uint8, keys: seq<uint8>)
    ensures |BuildModifyRowFor(kind, row, keys)| == PayloadSize
    ensures BuildModifyRowFor(kind, row, keys)[3] == row
    ensures RowKeysOf(BuildModifyRowFor(kind, row, keys)) == FitRow(keys, RowWidth(row), FillValue(kind))
    ensures |keys| == RowWidth(row) ==> RowKeysOf(BuildModifyRowFor(kind, row, keys)) == keys
  {
    var p := BuildModifyRowFor(kind, row, keys);
    VariantsDiffer(kind, row, keys);
    assert p[3] == BuildModifyRow(row, keys, FillValue(kind))[..4][3];
  }
}
