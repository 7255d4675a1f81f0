/** Go's fixed-width unsigned integers, as subsets of Dafny's unbounded `int`. */
module Bytes {

  const TwoTo8: int := 0x100
  const TwoTo16: int := 0x1_0000

  /** Go `byte` / `uint8`. */
  type uint8 = x: int | 0 <= x < TwoTo8

  /** Go `uint16` (HID vendor id, product id, usage page, usage). */
  type uint16 = x: int | 0 <= x < TwoTo16

  /** Go's `uint8(x)` / `byte(x)` conversion of an `int`: keeps the low eight
      bits. Dafny's `%` is Euclidean, which agrees with two's-complement
      truncation for negative `x` as well. */
  function TruncateToByte(x: int): (b: uint8)
    ensures 0 <= x < TwoTo8 ==> b == x
    ensures (x - b) % TwoTo8 == 0
  {
    x % TwoTo8
  }

  /** `n` copies of `v`: what `make([]byte, n)` followed by a fill loop builds. */
  function Repeat(v: uint8, n: nat): (r: seq<uint8>)
    ensures |r| == n
    ensures forall i | 0 <= i < n :: r[i] == v
  {
    seq(n, _ => v)
  }
}

/** The few functions of Go's `strings` package the model uses, on Dafny strings
    (sequences of characters; Go compares bytes, which is the same thing for the
    ASCII text these functions see here). */
module Strings {

  /** `strings.HasPrefix(s, prefix)` */
  predicate HasPrefix(s: string, prefix: string) {
    |prefix| <= |s| && s[..|prefix|] == prefix
  }

  /** `strings.HasSuffix(s, suffix)` */
  predicate HasSuffix(s: string, suffix: string) {
    |suffix| <= |s| && s[|s| - |suffix|..] == suffix
  }

  lemma AppendedHasSuffix(s: string, suffix: string)
    ensures HasSuffix(s + suffix, suffix)
  {
    assert (s + suffix)[|s|..] == suffix;
  }

  /** `strings.TrimSuffix(s, suffix)`: drops one trailing `suffix` if present. */
  function TrimSuffix(s: string, suffix: string): (r: string)
    ensures HasSuffix(s, suffix) ==> r + suffix == s
    ensures !HasSuffix(s, suffix) ==> r == s
  {
    if HasSuffix(s, suffix) then
      assert s == s[..|s| - |suffix|] + s[|s| - |suffix|..];
      s[..|s| - |suffix|]
    else s
  }

  /** `sub` occurs in `s` starting at position `i`. */
  ghost predicate OccursAt(s: string, sub: string, i: int) {
    0 <= i && i + |sub| <= |s| && s[i..i + |sub|] == sub
  }

  /** `strings.Contains(s, sub)`, searching left to right from position `from`. */
  function ContainsFrom(s: string, sub: string, from: nat): (r: bool)
    requires from <= |s|
    ensures r <==> exists i :: from <= i && OccursAt(s, sub, i)
    decreases |s| - from
  {
    if from + |sub| > |s| then
      assert forall i :: from <= i && OccursAt(s, sub, i) ==> false;
      false
    else if s[from..from + |sub|] == sub then
      assert OccursAt(s, sub, from);
      true
    else
      var r := ContainsFrom(s, sub, from + 1);
      assert !OccursAt(s, sub, from);
      r
  }

  /** `strings.Contains(s, sub)` */
  function Contains(s: string, sub: string): (r: bool)
    ensures r <==> exists i :: OccursAt(s, sub, i)
  {
    ContainsFrom(s, sub, 0)
  }
}

/** Decimal formatting of naturals, as `fmt.Sprintf("%v", n)` prints an `int`,
    with the parser that reads it back. */
module Decimal {

  predicate IsDigit(c: char) {
    '0' <= c <= '9'
  }

  function DigitChar(d: nat): (c: char)
    requires d < 10
    ensures IsDigit(c) && c as int - '0' as int == d
  {
    (d + '0' as int) as char
  }

  /** The decimal digits of `n`, most significant first, without leading zeros. */
  function NatToString(n: nat): (s: string)
    ensures |s| >= 1
    ensures forall k | 0 <= k < |s| :: IsDigit(s[k])
    ensures |s| > 1 ==> s[0] != '0'
  {
    if n < 10 then [DigitChar(n)] else NatToString(n / 10) + [DigitChar(n % 10)]
  }

  /** The value of a string of decimal digits. */
  function ParseDigits(s: string): nat
    requires forall k | 0 <= k < |s| :: IsDigit(s[k])
  {
    if |s| == 0 then 0
    else
      assert IsDigit(s[|s| - 1]);
      ParseDigits(s[..|s| - 1]) * 10 + (s[|s| - 1] as int - '0' as int)
  }

  /** Reading the printed number back gives the number. */
  lemma {:induction false} ParseNatToString(n: nat)
    ensures ParseDigits(NatToString(n)) == n
  {
    if n >= 10 {
      var s := NatToString(n);
      assert s[..|s| - 1] == NatToString(n / 10);
      ParseNatToString(n / 10);
    }
  }
}
