/** Constants of the DrunkDeer protocol and the keyboard layout table
    (driver/consts.go). */
module Consts {
  import opened Bytes

  /** Byte 0 of every HID frame, in both directions. */
  const ReportId: uint8 := 0x04
  /** Keys carried by one row packet. */
  const KeysPerRow: nat := 59
  /** The row whose packet carries only a few keys, and how many. */
  const ShortRow: uint8 := 2
  const ShortRowKeys: nat := 8
  /** 0x14 is 2.0 mm, in the device's tenths of a millimetre. */
  const DefaultActuation: uint8 := 0x14

  /** Command ids: byte 0 of an outbound payload, byte 1 of a frame. */
  const PacketIdentity: uint8 := 0xA0
  const PacketLedModeSelect: uint8 := 0xAE
  const PacketModifyKey: uint8 := 0xB6
  const PacketTurboRapidTrigger: uint8 := 0xB5
  const PacketKeyTracking: uint8 := 0xB7

  /** Model names. The A75 Pro deliberately shares the A75 name. */
  const KeyboardA75Pro: string := "A75"
  const KeyboardA75: string := "A75"
  const KeyboardG65: string := "G65"
  const KeyboardG60: string := "G60"
  const KeyboardG75: string := "G75"

  /** LED sequence (effect) ids. 0x01 is not used. */
  const SequenceOff: uint8 := 0x00
  const SequenceAlways: uint8 := 0x02
  const SequenceSpectrum: uint8 := 0x03
  const SequenceBreath: uint8 := 0x04
  const SequencePress: uint8 := 0x05
  const SequenceStars: uint8 := 0x06
  const SequenceWave: uint8 := 0x07
  const SequenceSurf: uint8 := 0x08
  const SequenceSurfDown: uint8 := 0x09
  const SequenceRipple: uint8 := 0x0A
  const SequenceFish: uint8 := 0x0B
  const SequenceFountain: uint8 := 0x0C
  const SequenceTraffic: uint8 := 0x0D
  const SequenceSnake: uint8 := 0x0E
  const SequenceSurfRepeat: uint8 := 0x0F
  const SequenceSurfCross: uint8 := 0x10
  const SequenceLaserKey: uint8 := 0x11
  const SequenceFountainRandom: uint8 := 0x12
  const SequenceCustom: uint8 := 0x13

  /** The lighting effects in declaration order. */
  const Effects: seq<uint8> :=
    [SequenceAlways, SequenceSpectrum, SequenceBreath, SequencePress, SequenceStars, SequenceWave,
     SequenceSurf, SequenceSurfDown, SequenceRipple, SequenceFish, SequenceFountain, SequenceTraffic,
     SequenceSnake, SequenceSurfRepeat, SequenceSurfCross, SequenceLaserKey, SequenceFountainRandom,
     SequenceCustom]

  /** The key layout is written, as in the Go source, as six lines of 21
      names; "" marks an unused slot. The index of a name in the
      concatenation is the key's position in every per-key array. */
  const LineWidth: nat := 21
  const LineCount: nat := 6

  const Line0: seq<string> :=
    ["ESC", "", "F1", "F2", "F3", "F4", "F5", "F6", "F7", "F8", "F9", "F10", "F11", "F12", "KP7", "KP8", "KP9", "", "", "", ""]

  const Line1: seq<string> :=
    ["TILDE", "1", "2", "3", "4", "5", "6", "7", "8", "9", "0", "MINUS", "PLUS", "BACK", "KP4", "KP5", "KP6", "", "", "", ""]

  const Line2: seq<string> :=
    ["TAB", "Q", "W", "E", "R", "T", "Y", "U", "I", "O", "P", "BRKTS_L", "BRKTS_R", "SLASH_K29", "KP1", "KP2", "KP3", "", "", "", ""]

  const Line3: seq<string> :=
    ["CAPS", "A", "S", "D", "F", "G", "H", "J", "K", "L", "COLON", "QOTATN", "", "RETURN", "", "KP0", "KP_DEL", "", "", "", ""]

  const Line4: seq<string> :=
    ["SHF_L", "EUR_K45", "Z", "X", "C", "V", "B", "N", "M", "COMMA", "PERIOD", "SLASH", "", "SHF_R", "ARR_UP", "", "NUMS", "", "", "", ""]

  const Line5: seq<string> :=
    ["CTRL_L", "WIN_L", "ALT_L", "", "", "", "SPACE", "", "", "", "ALT_R", "FN1", "APP", "ARR_L", "ARR_DW", "ARR_R", "CTRL_R", "", "", "", ""]

  const Layout: seq<string> := Line0 + Line1 + Line2 + Line3 + Line4 + Line5

  /** Length of `Layout` and of every per-key array. */
  const LayoutSize: nat := 126

  const WasdKeys: seq<int> := [44, 64, 65, 66]
  const NumeralKeys: seq<int> := [22, 23, 24, 25, 26, 27, 28, 29, 30, 31]
  const CharacterKeys: seq<int> :=
    [43, 44, 45, 46, 47, 48, 49, 50, 51, 52] +
    [64, 65, 66, 67, 68, 69, 70, 71, 72] +
    [86, 87, 88, 89, 90, 91, 92]

  /** The letters of the three letter rows of a QWERTY keyboard. */
  const LetterRows: string := "QWERTYUIOP" + "ASDFGHJKL" + "ZXCVBNM"

  /** The 126 slots are two full rows of `KeysPerRow` keys and one short row. */
  lemma LayoutShape()
    ensures |Layout| == LayoutSize == LineCount * LineWidth
    ensures LayoutSize == 2 * KeysPerRow + ShortRowKeys
  {
  }

  /** The command ids are pairwise distinct, so the decoder's dispatch on the
      command byte is unambiguous. */
  lemma PacketIdsDistinct()
    ensures |{PacketIdentity, PacketLedModeSelect, PacketModifyKey, PacketTurboRapidTrigger, PacketKeyTracking}| == 5
  {
  }

  /** "Off" is 0 and the effects run consecutively from 0x02 to 0x13. */
  lemma SequenceIds()
    ensures SequenceOff == 0
    ensures |Effects| == 18
    ensures forall k | 0 <= k < |Effects| :: Effects[k] == 0x02 + k
  {
  }

  /** The index lists name the keys they are named after. */
  lemma WasdKeyNames()
    ensures |WasdKeys| == 4
    ensures Layout[WasdKeys[0]] == "W" && Layout[WasdKeys[1]] == "A"
    ensures Layout[WasdKeys[2]] == "S" && Layout[WasdKeys[3]] == "D"
  {
    LayoutShape();
    assert Layout[44] == Line2[2];
    assert Layout[64] == Line3[1] && Layout[65] == Line3[2] && Layout[66] == Line3[3];
  }

  lemma NumeralKeyNames()
    ensures |NumeralKeys| == 10
    ensures forall k | 0 <= k < 10 :: 0 <= NumeralKeys[k] < |Layout|
    ensures forall k | 0 <= k < 10 :: Layout[NumeralKeys[k]] == ["1234567890"[k]]
  {
    LayoutShape();
    NumeralSlice();
    forall k | 0 <= k < 10
      ensures Layout[NumeralKeys[k]] == ["1234567890"[k]]
    {
      assert NumeralKeys[k] == 22 + k;
      assert Layout[22 + k] == Layout[22..32][k];
    }
  }

  /** Every character key names a letter: Q..P, A..L, Z..M in keyboard order. */
  lemma CharacterKeyNames()
    ensures |CharacterKeys| == 26
    ensures forall k | 0 <= k < 26 :: 0 <= CharacterKeys[k] < |Layout|
    ensures forall k | 0 <= k < 26 :: Layout[CharacterKeys[k]] == [LetterRows[k]]
  {
    LayoutShape();
    LetterRowSlices();
    CharacterKeySpans();
    forall k | 0 <= k < 26
      ensures 0 <= CharacterKeys[k] < |Layout| && Layout[CharacterKeys[k]] == [LetterRows[k]]
    {
      if k < 10 {
        assert CharacterKeys[k] == CharacterKeys[..10][k] && LetterRows[k] == LetterRows[..10][k];
        assert Layout[43 + k] == Layout[43..53][k];
      } else if k < 19 {
        assert CharacterKeys[k] == CharacterKeys[10..19][k - 10] && LetterRows[k] == LetterRows[10..19][k - 10];
        assert Layout[64 + (k - 10)] == Layout[64..73][k - 10];
      } else {
        assert CharacterKeys[k] == CharacterKeys[19..][k - 19] && LetterRows[k] == LetterRows[19..][k - 19];
        assert Layout[86 + (k - 19)] == Layout[86..93][k - 19];
      }
    }
  }

  /** `n` consecutive slots from `start`. */
  function Span(start: int, n: nat): (r: seq<int>)
    ensures |r| == n && forall k | 0 <= k < n :: r[k] == start + k
  {
    seq(n, k requires 0 <= k < n => start + k)
  }

  lemma CharacterKeySpans()
    ensures |CharacterKeys| == 26 && |LetterRows| == 26
    ensures CharacterKeys[..10] == Span(43, 10) && CharacterKeys[10..19] == Span(64, 9) && CharacterKeys[19..] == Span(86, 7)
    ensures LetterRows[..10] == "QWERTYUIOP" && LetterRows[10..19] == "ASDFGHJKL" && LetterRows[19..] == "ZXCVBNM"
  {
  }

  /** Each character of `s` as a one-character name. */
  function Singletons(s: string): (names: seq<string>)
    ensures |names| == |s| && forall k | 0 <= k < |s| :: names[k] == [s[k]]
  {
    seq(|s|, k requires 0 <= k < |s| => [s[k]])
  }

  /** The three letter rows sit at slots 43, 64 and 86 of the layout. */
  lemma LetterRowSlices()
    ensures |Layout| == LayoutSize
    ensures Layout[43..53] == Singletons("QWERTYUIOP")
    ensures Layout[64..73] == Singletons("ASDFGHJKL")
    ensures Layout[86..93] == Singletons("ZXCVBNM")
  {
    TopLetterSlice();
    HomeLetterSlice();
    BottomLetterSlice();
  }

  lemma TopLetterSlice()
    ensures |Layout| == LayoutSize && Layout[43..53] == Singletons("QWERTYUIOP")
  {
    LineSlices();
    assert Layout[43..53] == Line2[1..11];
    assert Line2[1..11] == Singletons("QWERTYUIOP");
  }

  lemma HomeLetterSlice()
    ensures |Layout| == LayoutSize && Layout[64..73] == Singletons("ASDFGHJKL")
  {
    LineSlices();
    assert Layout[64..73] == Line3[1..10];
    assert Line3[1..10] == Singletons("ASDFGHJKL");
  }

  lemma BottomLetterSlice()
    ensures |Layout| == LayoutSize && Layout[86..93] == Singletons("ZXCVBNM")
  {
    LineSlices();
    assert Layout[86..93] == Line4[2..9];
    assert Line4[2..9] == Singletons("ZXCVBNM");
  }

  lemma NumeralSlice()
    ensures |Layout| == LayoutSize && Layout[22..32] == Singletons("1234567890")
  {
    LineSlices();
    assert Layout[22..32] == Line1[1..11];
    assert Line1[1..11] == Singletons("1234567890");
  }

  /** The layout is its six lines, one after the other. */
  lemma LineSlices()
    ensures |Layout| == LayoutSize
    ensures Layout[0..21] == Line0 && Layout[21..42] == Line1 && Layout[42..63] == Line2
    ensures Layout[63..84] == Line3 && Layout[84..105] == Line4 && Layout[105..126] == Line5
  {
    assert |Line0| == |Line1| == |Line2| == |Line3| == |Line4| == |Line5| == 21;
    SixLinesSlices(Line0, Line1, Line2, Line3, Line4, Line5);
  }

  /** Slicing six concatenated lines of width 21, for any contents. */
  lemma SixLinesSlices<T>(l0: seq<T>, l1: seq<T>, l2: seq<T>, l3: seq<T>, l4: seq<T>, l5: seq<T>)
    requires |l0| == |l1| == |l2| == |l3| == |l4| == |l5| == 21
    ensures var s := l0 + l1 + l2 + l3 + l4 + l5;
      && |s| == 126
      && s[0..21] == l0 && s[21..42] == l1 && s[42..63] == l2
      && s[63..84] == l3 && s[84..105] == l4 && s[105..126] == l5
  {
    var s := l0 + l1 + l2 + l3 + l4 + l5;
    assert s[0..21] == l0;
    assert s[21..42] == l1;
    assert s[42..63] == l2;
    assert s[63..84] == l3;
    assert s[84..105] == l4;
    assert s[105..126] == l5;
  }

  // Uniqueness of the names. Comparing all pairs of the 126 slots at once is
  // beyond the solver, so the names are compared line against line, and each
  // slot is then located in its line.

  function Line(r: nat): (l: seq<string>)
    requires r < LineCount
    ensures |l| == LineWidth
  {
    if r == 0 then Line0 else if r == 1 then Line1 else if r == 2 then Line2
    else if r == 3 then Line3 else if r == 4 then Line4 else Line5
  }

  function LineOf(i: nat): (r: nat)
    requires i < LayoutSize
    ensures r < LineCount && LineWidth * r <= i < LineWidth * r + LineWidth
  {
    if i < 21 then 0 else if i < 42 then 1 else if i < 63 then 2
    else if i < 84 then 3 else if i < 105 then 4 else 5
  }

  /** Indexing six concatenated lines of width 21, for any contents. */
  lemma SixLinesAt<T>(l0: seq<T>, l1: seq<T>, l2: seq<T>, l3: seq<T>, l4: seq<T>, l5: seq<T>, i: nat)
    requires |l0| == |l1| == |l2| == |l3| == |l4| == |l5| == 21 && i < 126
    ensures |l0 + l1 + l2 + l3 + l4 + l5| == 126
    ensures i < 21 ==> (l0 + l1 + l2 + l3 + l4 + l5)[i] == l0[i]
    ensures 21 <= i < 42 ==> (l0 + l1 + l2 + l3 + l4 + l5)[i] == l1[i - 21]
    ensures 42 <= i < 63 ==> (l0 + l1 + l2 + l3 + l4 + l5)[i] == l2[i - 42]
    ensures 63 <= i < 84 ==> (l0 + l1 + l2 + l3 + l4 + l5)[i] == l3[i - 63]
    ensures 84 <= i < 105 ==> (l0 + l1 + l2 + l3 + l4 + l5)[i] == l4[i - 84]
    ensures 105 <= i ==> (l0 + l1 + l2 + l3 + l4 + l5)[i] == l5[i - 105]
  {
  }

  lemma LayoutAt(i: nat)
    requires i < LayoutSize
    ensures |Layout| == LayoutSize
    ensures Layout[i] == Line(LineOf(i))[i - LineWidth * LineOf(i)]
  {
    assert |Line0| == |Line1| == |Line2| == |Line3| == |Line4| == |Line5| == LineWidth;
    SixLinesAt(Line0, Line1, Line2, Line3, Line4, Line5, i);
  }

  lemma DistinctWithinLine0()
    ensures forall i, j | 0 <= i < j < LineWidth && Line0[i] != "" :: Line0[i] != Line0[j]
  {
  }

  lemma DistinctAcrossLines01()
    ensures forall i, j | 0 <= i < LineWidth && 0 <= j < LineWidth && Line0[i] != "" :: Line0[i] != Line1[j]
  {
  }

  lemma DistinctAcrossLines02()
    ensures forall i, j | 0 <= i < LineWidth && 0 <= j < LineWidth && Line0[i] != "" :: Line0[i] != Line2[j]
  {
  }

  lemma DistinctAcrossLines03()
    ensures forall i, j | 0 <= i < LineWidth && 0 <= j < LineWidth && Line0[i] != "" :: Line0[i] != Line3[j]
  {
  }

  lemma DistinctAcrossLines04()
    ensures forall i, j | 0 <= i < LineWidth && 0 <= j < LineWidth && Line0[i] != "" :: Line0[i] != Line4[j]
  {
  }

  lemma DistinctAcrossLines05()
    ensures forall i, j | 0 <= i < LineWidth && 0 <= j < LineWidth && Line0[i] != "" :: Line0[i] != Line5[j]
  {
  }

  lemma DistinctWithinLine1()
    ensures forall i, j | 0 <= i < j < LineWidth && Line1[i] != "" :: Line1[i] != Line1[j]
  {
  }

  lemma DistinctAcrossLines12()
    ensures forall i, j | 0 <= i < LineWidth && 0 <= j < LineWidth && Line1[i] != "" :: Line1[i] != Line2[j]
  {
  }

  lemma DistinctAcrossLines13()
    ensures forall i, j | 0 <= i < LineWidth && 0 <= j < LineWidth && Line1[i] != "" :: Line1[i] != Line3[j]
  {
  }

  lemma DistinctAcrossLines14()
    ensures forall i, j | 0 <= i < LineWidth && 0 <= j < LineWidth && Line1[i] != "" :: Line1[i] != Line4[j]
  {
  }

  lemma DistinctAcrossLines15()
    ensures forall i, j | 0 <= i < LineWidth && 0 <= j < LineWidth && Line1[i] != "" :: Line1[i] != Line5[j]
  {
  }

  lemma DistinctWithinLine2()
    ensures forall i, j | 0 <= i < j < LineWidth && Line2[i] != "" :: Line2[i] != Line2[j]
  {
  }

  lemma DistinctAcrossLines23()
    ensures forall i, j | 0 <= i < LineWidth && 0 <= j < LineWidth && Line2[i] != "" :: Line2[i] != Line3[j]
  {
  }

  lemma DistinctAcrossLines24()
    ensures forall i, j | 0 <= i < LineWidth && 0 <= j < LineWidth && Line2[i] != "" :: Line2[i] != Line4[j]
  {
  }

  lemma DistinctAcrossLines25()
    ensures forall i, j | 0 <= i < LineWidth && 0 <= j < LineWidth && Line2[i] != "" :: Line2[i] != Line5[j]
  {
  }

  lemma DistinctWithinLine3()
    ensures forall i, j | 0 <= i < j < LineWidth && Line3[i] != "" :: Line3[i] != Line3[j]
  {
  }

  lemma DistinctAcrossLines34()
    ensures forall i, j | 0 <= i < LineWidth && 0 <= j < LineWidth && Line3[i] != "" :: Line3[i] != Line4[j]
  {
  }

  lemma DistinctAcrossLines35()
    ensures forall i, j | 0 <= i < LineWidth && 0 <= j < LineWidth && Line3[i] != "" :: Line3[i] != Line5[j]
  {
  }

  lemma DistinctWithinLine4()
    ensures forall i, j | 0 <= i < j < LineWidth && Line4[i] != "" :: Line4[i] != Line4[j]
  {
  }

  lemma DistinctAcrossLines45()
    ensures forall i, j | 0 <= i < LineWidth && 0 <= j < LineWidth && Line4[i] != "" :: Line4[i] != Line5[j]
  {
  }

  lemma DistinctWithinLine5()
    ensures forall i, j | 0 <= i < j < LineWidth && Line5[i] != "" :: Line5[i] != Line5[j]
  {
  }

  lemma LinesDistinct(a: nat, b: nat)
    requires a <= b < LineCount
    ensures forall i, j | 0 <= i < LineWidth && 0 <= j < LineWidth && (a < b || i < j) && Line(a)[i] != "" ::
      Line(a)[i] != Line(b)[j]
  {
    if a == 0 && b == 0 { DistinctWithinLine0(); }
    else if a == 0 && b == 1 { DistinctAcrossLines01(); }
    else if a == 0 && b == 2 { DistinctAcrossLines02(); }
    else if a == 0 && b == 3 { DistinctAcrossLines03(); }
    else if a == 0 && b == 4 { DistinctAcrossLines04(); }
    else if a == 0 && b == 5 { DistinctAcrossLines05(); }
    else if a == 1 && b == 1 { DistinctWithinLine1(); }
    else if a == 1 && b == 2 { DistinctAcrossLines12(); }
    else if a == 1 && b == 3 { DistinctAcrossLines13(); }
    else if a == 1 && b == 4 { DistinctAcrossLines14(); }
    else if a == 1 && b == 5 { DistinctAcrossLines15(); }
    else if a == 2 && b == 2 { DistinctWithinLine2(); }
    else if a == 2 && b == 3 { DistinctAcrossLines23(); }
    else if a == 2 && b == 4 { DistinctAcrossLines24(); }
    else if a == 2 && b == 5 { DistinctAcrossLines25(); }
    else if a == 3 && b == 3 { DistinctWithinLine3(); }
    else if a == 3 && b == 4 { DistinctAcrossLines34(); }
    else if a == 3 && b == 5 { DistinctAcrossLines35(); }
    else if a == 4 && b == 4 { DistinctWithinLine4(); }
    else if a == 4 && b == 5 { DistinctAcrossLines45(); }
    else if a == 5 && b == 5 { DistinctWithinLine5(); }
  }

  /** Non-empty names occur at most once in the layout, so a name identifies
      its slot. */
  lemma {:induction false} LayoutNamesDistinct()
    ensures forall i, j | 0 <= i < j < |Layout| && Layout[i] != "" :: Layout[i] != Layout[j]
  {
    LayoutShape();
    forall i, j | 0 <= i < j < |Layout| && Layout[i] != ""
      ensures Layout[i] != Layout[j]
    {
      LayoutAt(i);
      LayoutAt(j);
      LinesDistinct(LineOf(i), LineOf(j));
    }
  }
}
