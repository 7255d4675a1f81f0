/** Small helpers of the driver package (driver/utils.go): flag encoding,
    model detection from the identity signature, the name/index/row lookups
    over the layout, and the actuation clamp. */
module DriverUtils {
  import opened Bytes
  import opened Consts

  /** Encodes a flag the way the device reads it back: 1 for true, 0 for false. */
  function BoolToByte(b: bool): (r: uint8)
    ensures r <= 1
    ensures (r != 0) == b
  {
    if b then 1 else 0
  }

  /** A detected keyboard: its model name and its numeric type. */
  datatype ModelInfo = ModelInfo(name: string, keyboardType: int)

  /** What an unrecognised signature resolves to: the plain A75. */
  const FallbackModel: ModelInfo := ModelInfo(KeyboardA75, 75)

  /** The known three-byte signatures, in the order the Go code tries them:
      A75, A75 Pro, G75, G65, G60. */
  const Signatures: seq<(seq<uint8>, ModelInfo)> :=
    [([0x0b, 0x01, 0x01], ModelInfo(KeyboardA75, 75)),
     ([0x0b, 0x04, 0x01], ModelInfo(KeyboardA75, 75)),
     ([0x0b, 0x04, 0x03], ModelInfo(KeyboardA75Pro, 750)),
     ([0x0b, 0x04, 0x05], ModelInfo(KeyboardG75, 754)),
     ([0x0f, 0x01, 0x01], ModelInfo(KeyboardG65, 65)),
     ([0x0b, 0x02, 0x01], ModelInfo(KeyboardG65, 65)),
     ([0x0b, 0x03, 0x01], ModelInfo(KeyboardG60, 60))]

  /** The value of the first entry of `table[from..]` whose key is `key`, or
      `fallback` when there is none. */
  function FirstMatch<K(==), V>(table: seq<(K, V)>, key: K, fallback: V, from: nat): (r: V)
    requires from <= |table|
    ensures (forall j | from <= j < |table| :: table[j].0 != key) ==> r == fallback
    ensures forall k | from <= k < |table| && table[k].0 == key ::
      (forall j | from <= j < k :: table[j].0 != key) ==> r == table[k].1
    decreases |table| - from
  {
    if from == |table| then fallback
    else if table[from].0 == key then table[from].1
    else FirstMatch(table, key, fallback, from + 1)
  }

  /** Resolves the model signature of an identity response. Total: a signature
      that is unknown, or of the wrong length, gives the A75. */
  function DetectKeyboardModel(signature: seq<uint8>): (r: ModelInfo)
    ensures signature == [0x0b, 0x01, 0x01] ==> r == ModelInfo("A75", 75)
    ensures signature == [0x0b, 0x04, 0x01] ==> r == ModelInfo("A75", 75)
    ensures signature == [0x0b, 0x04, 0x03] ==> r == ModelInfo("A75", 750)
    ensures signature == [0x0b, 0x04, 0x05] ==> r == ModelInfo("G75", 754)
    ensures signature == [0x0f, 0x01, 0x01] ==> r == ModelInfo("G65", 65)
    ensures signature == [0x0b, 0x02, 0x01] ==> r == ModelInfo("G65", 65)
    ensures signature == [0x0b, 0x03, 0x01] ==> r == ModelInfo("G60", 60)
    ensures (forall k | 0 <= k < |Signatures| :: Signatures[k].0 != signature) ==> r == ModelInfo("A75", 75)
  {
    assert |Signatures| == 7;
    assert Signatures[0].0 == [0x0b, 0x01, 0x01] && Signatures[1].0 == [0x0b, 0x04, 0x01];
    assert Signatures[2].0 == [0x0b, 0x04, 0x03] && Signatures[3].0 == [0x0b, 0x04, 0x05];
    assert Signatures[4].0 == [0x0f, 0x01, 0x01] && Signatures[5].0 == [0x0b, 0x02, 0x01];
    assert Signatures[6].0 == [0x0b, 0x03, 0x01];
    FirstMatch(Signatures, signature, FallbackModel, 0)
  }

  /** The name in slot `index`, or "" outside the layout. */
  function GetKeyByIndex(index: int): (name: string)
    ensures 0 <= index < |Layout| ==> name == Layout[index]
    ensures !(0 <= index < |Layout|) ==> name == ""
  {
    if 0 <= index < |Layout| then Layout[index] else ""
  }

  /** Linear search of `table[from..]` for `name`. */
  function IndexFrom(table: seq<string>, name: string, from: nat): (r: int)
    requires from <= |table|
    ensures r == -1 || from <= r < |table|
    ensures r == -1 <==> forall j | from <= j < |table| :: table[j] != name
    ensures r != -1 ==> table[r] == name && forall j | from <= j < r :: table[j] != name
    decreases |table| - from
  {
    if from == |table| then -1
    else if table[from] == name then from
    else IndexFrom(table, name, from + 1)
  }

  /** The first slot holding `name`, or -1 when the layout does not hold it. */
  function GetIndexByKey(name: string): (r: int)
    ensures -1 <= r < LayoutSize
    ensures r == -1 <==> name !in Layout
    ensures r != -1 ==> Layout[r] == name && forall j | 0 <= j < r :: Layout[j] != name
  {
    LayoutShape();
    IndexFrom(Layout, name, 0)
  }

  /** Name to slot and back gives the name again. */
  lemma KeyOfIndexOfKey(name: string)
    requires name in Layout
    ensures GetIndexByKey(name) != -1
    ensures GetKeyByIndex(GetIndexByKey(name)) == name
  {
  }

  /** Slot to name and back gives the slot again, for every used slot: the
      lookup is injective on the names of the layout. */
  lemma IndexOfKeyOfIndex(index: int)
    requires 0 <= index < |Layout| && Layout[index] != ""
    ensures GetIndexByKey(GetKeyByIndex(index)) == index
  {
    LayoutNamesDistinct();
  }

  /** The empty name is "found" at slot 1, the first unused slot. */
  lemma EmptyNameIndex()
    ensures GetIndexByKey("") == 1
  {
    assert Layout[0] == "ESC" && Layout[1] == "";
  }

  /** The packet row of a slot, or -1 outside the layout. */
  function GetRowByIndex(index: int): (row: int)
    ensures 0 <= index < |Layout| ==> 0 <= row <= 2 && KeysPerRow * row <= index < KeysPerRow * row + KeysPerRow
    ensures !(0 <= index < |Layout|) ==> row == -1
  {
    LayoutShape();
    if 0 <= index < |Layout| then index / KeysPerRow else -1
  }

  /** Converts an actuation, given in whole tenths of a millimetre, to the
      device byte: negative values become 1, values above 255 become 255, and
      everything else, 0 included, is kept. */
  function ActuationToByte(tenths: int): (b: uint8)
    ensures tenths < 0 ==> b == 1
    ensures tenths > 255 ==> b == 255
    ensures 0 <= tenths <= 255 ==> b == tenths
  {
    if tenths < 0 then 1
    else if tenths > 255 then 255
    else tenths
  }

  /** Examples: 2.0 mm is 0x14, 30.0 mm is clamped to 255, 0.0 mm stays 0,
      and a negative value becomes 1. */
  lemma ActuationExamples()
    ensures ActuationToByte(20) == DefaultActuation
    ensures ActuationToByte(300) == 255
    ensures ActuationToByte(0) == 0
    ensures ActuationToByte(-1) == 1
  {
  }
}
