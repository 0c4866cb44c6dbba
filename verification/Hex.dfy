/** Hex text and the bytes it stands for (backend/src/indexer/datum.ts:263-281). */
module Hex {
  import opened Bytes
  import opened Options

  /** The value of a hex digit of either case. */
  function DigitOf(c: char): (d: Option<nat>)
    ensures d.Some? ==> d.value < 16
  {
    if '0' <= c <= '9' then Some((c - '0') as nat)
    else if 'a' <= c <= 'f' then Some((c - 'a') as nat + 10)
    else if 'A' <= c <= 'F' then Some((c - 'A') as nat + 10)
    else None
  }

  function LowerDigit(d: nat): char
    requires d < 16
  {
    if d < 10 then '0' + d as char else 'a' + (d - 10) as char
  }

  /** What JavaScript's parseInt skips at the front. */
  predicate IsSpace(c: char) {
    '\t' <= c <= '\r' || c == ' ' || c == '\U{a0}' || c == '\U{1680}' || '\U{2000}' <= c <= '\U{200a}' ||
    c == '\U{2028}' || c == '\U{2029}' || c == '\U{202f}' || c == '\U{205f}' || c == '\U{3000}' || c == '\U{feff}'
  }

  /** Number.parseInt of two characters in base 16, stored in a byte; `None` for NaN. It takes a sign or a
      space before one digit, and ignores whatever follows the first digit; "0x" is a prefix without digits. */
  function ParsePair(c: char, d: char): Option<Byte> {
    var x, y := DigitOf(c), DigitOf(d);
    if x.Some? then
      if c == '0' && (d == 'x' || d == 'X') then None
      else Some(if y.Some? then 16 * x.value + y.value else x.value)
    else if y.None? then None
    else if c == '-' then Some((256 - y.value) % 256)
    else if c == '+' || IsSpace(c) then Some(y.value)
    else None
  }

  function Cleaned(hex: string): string {
    if |hex| >= 2 && hex[0] == '0' && (hex[1] == 'x' || hex[1] == 'X') then hex[2..] else hex
  }

  function Pairs(s: string): Option<seq<Byte>>
    requires |s| % 2 == 0
  {
    if s == [] then Some([])
    else
      var front, last := Pairs(s[..|s| - 2]), ParsePair(s[|s| - 2], s[|s| - 1]);
      if front.None? || last.None? then None else Some(front.value + [last.value])
  }

  function BytesOfHex(hex: string): Option<seq<Byte>> {
    var s := Cleaned(hex);
    if |s| % 2 != 0 then None else Pairs(s)
  }

  /** hexToBytes (datum.ts:263-273). */
  method HexToBytes(hex: string) returns (r: Option<seq<Byte>>)
    ensures r == BytesOfHex(hex)
  {
    var cleaned := Cleaned(hex);
    if |cleaned| % 2 != 0 {
      return None;
    }
    var out: seq<Byte> := [];
    for i := 0 to |cleaned| / 2
      invariant Pairs(cleaned[..2 * i]) == Some(out)
    {
      assert cleaned[..2 * (i + 1)][..2 * i] == cleaned[..2 * i];
      var v := ParsePair(cleaned[2 * i], cleaned[2 * i + 1]);
      if v.None? {
        StaysBad(cleaned, i + 1);
        return None;
      }
      out := out + [v.value];
    }
    assert cleaned[..|cleaned|] == cleaned;
    r := Some(out);
  }

  lemma {:induction false} StaysBad(s: string, n: nat)
    requires |s| % 2 == 0 && 2 * n <= |s| && Pairs(s[..2 * n]).None?
    ensures Pairs(s).None?
  {
    if 2 * n == |s| {
      assert s[..2 * n] == s;
    } else {
      assert s[..|s| - 2][..2 * n] == s[..2 * n];
      StaysBad(s[..|s| - 2], n);
    }
  }

  /** bytesToHex (datum.ts:275-281). */
  function HexOf(b: seq<Byte>): (s: string)
    ensures |s| == 2 * |b|
  {
    if b == [] then ""
    else
      var last := b[|b| - 1];
      HexOf(b[..|b| - 1]) + [LowerDigit(last / 16), LowerDigit(last % 16)]
  }

  lemma LowerDigitIs(d: nat)
    requires d < 16
    ensures DigitOf(LowerDigit(d)) == Some(d) && LowerDigit(d) != 'x' && LowerDigit(d) != 'X'
  {
  }

  lemma PairIs(x: Byte)
    ensures ParsePair(LowerDigit(x / 16), LowerDigit(x % 16)) == Some(x)
  {
    LowerDigitIs(x / 16);
    LowerDigitIs(x % 16);
    hide DigitOf, LowerDigit, IsSpace;
  }

  lemma {:induction false} PairsOfHex(b: seq<Byte>)
    ensures Pairs(HexOf(b)) == Some(b)
  {
    if b != [] {
      hide ParsePair, LowerDigit;
      var front, last := b[..|b| - 1], b[|b| - 1];
      PairsOfHex(front);
      PairIs(last);
      assert HexOf(b)[..|HexOf(b)| - 2] == HexOf(front);
      assert b == front + [last];
    }
  }

  lemma {:induction false} HexDigits(b: seq<Byte>)
    ensures forall i :: 0 <= i < |HexOf(b)| ==> DigitOf(HexOf(b)[i]).Some?
  {
    if b != [] {
      HexDigits(b[..|b| - 1]);
      LowerDigitIs(b[|b| - 1] / 16);
      LowerDigitIs(b[|b| - 1] % 16);
      hide DigitOf, LowerDigit;
    }
  }

  /** The hex text of a byte string is read back as those bytes. */
  lemma HexRoundTrip(b: seq<Byte>)
    ensures BytesOfHex(HexOf(b)) == Some(b)
  {
    hide *;
    PairsOfHex(b);
    HexDigits(b);
    DigitsAreClean(HexOf(b));
    CleanText(HexOf(b));
  }

  lemma CleanText(s: string)
    requires Cleaned(s) == s && |s| % 2 == 0
    ensures BytesOfHex(s) == Pairs(s)
  {
    hide Cleaned, Pairs;
  }

  lemma DigitsAreClean(s: string)
    requires forall i :: 0 <= i < |s| ==> DigitOf(s[i]).Some?
    ensures Cleaned(s) == s
  {
    if |s| >= 2 {
      assert DigitOf(s[1]).Some?;
    }
  }
}
