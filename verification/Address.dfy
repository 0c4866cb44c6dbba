/** Regrouping bits and building script addresses (offchain/src/tx/address.ts:45-96). */
module Address {
  import opened Arith
  import opened Bech32
  import opened Bytes
  import opened Options
  import Hex

  const P32: nat := 0x1_0000_0000

  /** The 32-bit signed integer with the low bits of `x`. A shift is a multiplication under this wrap, and
      `|` of a value into bits just shifted empty is an addition. */
  function Wrap32(x: int): int { (x + 0x8000_0000) % P32 - 0x8000_0000 }

  /** The number whose digits these are, the highest first. */
  function Number(digits: seq<nat>, base: nat): nat {
    if digits == [] then 0 else Number(digits[..|digits| - 1], base) * base + digits[|digits| - 1]
  }

  predicate Digits(digits: seq<nat>, base: nat) { forall i :: 0 <= i < |digits| ==> digits[i] < base }

  // ---- arithmetic ----

  lemma PowPositive(k: nat)
    ensures Pow(2, k) >= 1
  {
  }

  lemma {:induction false} PowAdd(i: nat, j: nat)
    ensures Pow(2, i + j) == Pow(2, i) * Pow(2, j)
  {
    if i > 0 {
      PowAdd(i - 1, j);
      assert 2 * (Pow(2, i - 1) * Pow(2, j)) == (2 * Pow(2, i - 1)) * Pow(2, j);
    }
  }

  lemma PowThirtyTwo()
    ensures Pow(2, 32) == P32 && Pow(2, 8) == 256 && Pow(2, 5) == 32
  {
    PowersOfTwo();
    assert Pow(2, 5) == 32;
    PowAdd(8, 8);
    PowAdd(16, 16);
  }

  /** Whole multiples pass through a division. */
  lemma DivideMultiple(x: int, k: int, d: nat)
    requires d > 0
    ensures (x + k * d) / d == x / d + k
  {
    var q := (x + k * d) / d - (x / d + k);
    assert x + k * d == ((x + k * d) / d) * d + (x + k * d) % d;
    assert x == (x / d) * d + x % d;
    assert q * d == ((x + k * d) / d) * d - (x / d) * d - k * d;
    MultipleGrows(q, d);
  }

  lemma DivideTwice(x: nat, a: nat, b: nat)
    requires a > 0 && b > 0
    ensures a * b > 0 && x / (a * b) == x / a / b
  {
    var q := x / a;
    DivideParts(x, a, b, q, x % a, q / b, q % b);
  }

  lemma DivideParts(x: nat, a: nat, b: nat, q: nat, r: nat, s: nat, t: nat)
    requires r < a && t < b && x == q * a + r && q == s * b + t
    ensures a * b > 0 && x / (a * b) == s
  {
    ProductPositive(a, b);
    TwoDigits(a, b, s, t, r);
    QuotientIs(x, a * b, s, t * a + r);
  }

  lemma TwoDigits(a: nat, b: nat, s: nat, t: nat, r: nat)
    requires t < b && r < a
    ensures (s * b + t) * a + r == s * (a * b) + (t * a + r)
    ensures 0 <= t * a + r < a * b
  {
    assert (s * b) * a == s * (a * b);
    var k := b - 1 - t;
    assert k * a >= 0;
    assert a * b == (k + 1 + t) * a;
    assert (k + 1 + t) * a == k * a + a + t * a;
  }

  lemma ProductPositive(a: nat, b: nat)
    requires a > 0 && b > 0
    ensures a * b > 0
  {
  }

  lemma QuotientIs(x: nat, d: nat, q: nat, r: nat)
    requires d > 0 && r < d && x == q * d + r
    ensures x / d == q && x % d == r
  {
    var k := x / d - q;
    assert k * d == (x / d) * d - q * d;
    MultipleGrows(k, d);
  }

  lemma WrapCong(x: int)
    ensures Cong(Wrap32(x), x, P32)
  {
    var y := x + 0x8000_0000;
    CongMod(y, P32);
    assert Wrap32(x) - x == y % P32 - y;
  }

  /** The low 32 bits are enough for any `width` bits above `bits`, as long as they lie in them. */
  lemma Extract(acc: int, full: nat, bits: nat, width: nat)
    requires bits + width <= 32 && Cong(acc, full, P32)
    ensures Pow(2, bits) > 0 && Pow(2, width) > 0
    ensures (acc / Pow(2, bits)) % Pow(2, width) == (full / Pow(2, bits)) % Pow(2, width)
  {
    hide Cong, Pow;
    PowPositive(bits);
    PowPositive(width);
    PowThirtyTwo();
    var b, w, rest := Pow(2, bits), Pow(2, width), Pow(2, 32 - bits - width);
    PowAdd(bits, width);
    PowAdd(bits + width, 32 - bits - width);
    var m := Factor(acc, full, P32);
    MultipleOf(m, b, w, rest);
    DivideMultiple(full, (m * rest) * w, b);
    CongByFactor(acc / b, full / b, w, m * rest);
    CongIsModEqual(acc / b, full / b, w);
  }

  lemma MultipleOf(m: int, b: nat, w: nat, rest: nat)
    ensures m * ((b * w) * rest) == ((m * rest) * w) * b
  {
    assert (b * w) * rest == (rest * w) * b;
    assert m * ((rest * w) * b) == (m * (rest * w)) * b;
    assert m * (rest * w) == (m * rest) * w;
  }

  /** One more digit taken off the top. */
  lemma PushDigit(x: nat, bits: nat, width: nat)
    ensures Pow(2, bits) > 0 && Pow(2, width) > 0 && Pow(2, bits + width) > 0
    ensures (x / Pow(2, bits + width)) * Pow(2, width) + (x / Pow(2, bits)) % Pow(2, width) == x / Pow(2, bits)
  {
    hide Pow;
    PowPositive(bits);
    PowPositive(width);
    PowPositive(bits + width);
    PowAdd(bits, width);
    DivideTwice(x, Pow(2, bits), Pow(2, width));
  }

  /** New low bits do not change the part above them. */
  lemma ShiftedAbove(x: nat, v: nat, bits: nat, width: nat)
    requires v < Pow(2, width)
    ensures Pow(2, bits) > 0 && Pow(2, bits + width) > 0
    ensures (x * Pow(2, width) + v) / Pow(2, bits + width) == x / Pow(2, bits)
  {
    hide Pow;
    PowPositive(bits);
    PowPositive(bits + width);
    PowAdd(width, bits);
    var y := x * Pow(2, width) + v;
    DivideTwice(y, Pow(2, width), Pow(2, bits));
    QuotientIs(y, Pow(2, width), x, v);
  }

  lemma ShiftedCong(acc: int, full: nat, v: nat, width: nat)
    requires Cong(acc, full, P32)
    ensures Cong(Wrap32(acc * Pow(2, width)) + v, full * Pow(2, width) + v, P32)
  {
    hide Cong, Pow, Wrap32;
    var p := Pow(2, width);
    CongRefl(p, P32);
    CongRefl(v, P32);
    CongMul(acc, full, p, p, P32);
    WrapCong(acc * p);
    CongTrans(Wrap32(acc * p), acc * p, full * p, P32);
    CongAdd(Wrap32(acc * p), full * p, v, v, P32);
  }

  // ---- convertBits ----

  /** Mid-way: `out` and the `bits` still in the accumulator make up the input so far. */
  ghost predicate Regrouping(full: nat, count: nat, acc: int, bits: nat, out: seq<nat>, toBits: nat) {
    && Cong(acc, full, P32)
    && bits + |out| * toBits == count
    && Pow(2, bits) > 0
    && Number(out, Pow(2, toBits)) == full / Pow(2, bits)
    && Digits(out, Pow(2, toBits))
  }

  lemma TakeGroup(full: nat, count: nat, acc: int, bits: nat, out: seq<nat>, toBits: nat)
    requires toBits <= bits <= 32 && Regrouping(full, count, acc, bits, out, toBits)
    ensures Pow(2, bits - toBits) > 0 && Pow(2, toBits) > 0
    ensures Regrouping(full, count, acc, bits - toBits, out + [(acc / Pow(2, bits - toBits)) % Pow(2, toBits)], toBits)
  {
    hide Cong, Pow;
    var b := bits - toBits;
    Extract(acc, full, b, toBits);
    PushDigit(full, b, toBits);
    var d := (acc / Pow(2, b)) % Pow(2, toBits);
    assert (out + [d])[..|out|] == out;
    OneMoreGroup(|out|, toBits);
  }

  lemma OneMoreGroup(n: nat, width: nat)
    ensures (n + 1) * width == n * width + width
  {
  }

  lemma TakeValue(full: nat, count: nat, acc: int, bits: nat, out: seq<nat>, toBits: nat, v: nat, fromBits: nat)
    requires Regrouping(full, count, acc, bits, out, toBits) && v < Pow(2, fromBits)
    ensures Regrouping(full * Pow(2, fromBits) + v, count + fromBits, Wrap32(acc * Pow(2, fromBits)) + v, bits + fromBits, out, toBits)
  {
    hide Cong, Pow, Wrap32;
    ShiftedCong(acc, full, v, fromBits);
    ShiftedAbove(full, v, bits, fromBits);
  }

  /** How many bits the input leaves over, and what they hold. */
  function Rest(count: nat, toBits: nat): nat
    requires toBits > 0
  {
    count % toBits
  }

  /** The left-over bits, shifted to the top of a group. */
  function Tail(full: nat, rest: nat, toBits: nat): nat
    requires rest <= toBits
  {
    PowPositive(toBits);
    (full * Pow(2, toBits - rest)) % Pow(2, toBits)
  }

  lemma TailOfAcc(acc: int, full: nat, rest: nat, toBits: nat)
    requires rest <= toBits <= 32 && Cong(acc, full, P32)
    ensures Pow(2, toBits) > 0 && Wrap32(acc * Pow(2, toBits - rest)) % Pow(2, toBits) == Tail(full, rest, toBits)
  {
    hide Cong, Pow, Wrap32;
    PowPositive(toBits);
    PowPositive(0);
    ShiftedCong(acc, full, 0, toBits - rest);
    Extract(Wrap32(acc * Pow(2, toBits - rest)), full * Pow(2, toBits - rest), 0, toBits);
    PowZero();
  }

  lemma PowZero()
    ensures Pow(2, 0) == 1
  {
  }

  /** convertBits (address.ts:74-96): the accumulator is a 32-bit integer that is never masked.
      `None`: it threw. */
  method ConvertBits(data: seq<nat>, fromBits: nat, toBits: nat, pad: bool) returns (r: Option<seq<nat>>)
    requires 1 <= fromBits && 1 <= toBits && fromBits + toBits <= 32
    ensures var full := Number(data, Pow(2, fromBits));
            var rest := Rest(|data| * fromBits, toBits);
            && (r.None? <==> !Digits(data, Pow(2, fromBits)) || (!pad && (rest >= fromBits || Tail(full, rest, toBits) != 0)))
            && (r.Some? ==> Regrouped(full, |data| * fromBits, r.value, toBits, pad))
  {
    hide Cong, Pow, Wrap32, Regrouping, Number, Regrouped, Tail;
    var acc: int, bits: nat, out: seq<nat> := 0, 0, [];
    NothingYet(toBits);
    PowPositive(toBits);
    assert data[..0] == [];
    NumberNone(Pow(2, fromBits));
    for j := 0 to |data|
      invariant bits < toBits
      invariant Digits(data[..j], Pow(2, fromBits))
      invariant Regrouping(Number(data[..j], Pow(2, fromBits)), j * fromBits, acc, bits, out, toBits)
    {
      var value := data[j];
      if value >= Pow(2, fromBits) {
        return None;
      }
      ghost var full := Number(data[..j], Pow(2, fromBits));
      TakeValue(full, j * fromBits, acc, bits, out, toBits, value, fromBits);
      OneMoreGroup(j, fromBits);
      NumberNext(data, j, Pow(2, fromBits));
      full := full * Pow(2, fromBits) + value;
      acc := Wrap32(acc * Pow(2, fromBits)) + value;
      bits := bits + fromBits;
      while bits >= toBits
        invariant bits < toBits + fromBits
        invariant Regrouping(full, (j + 1) * fromBits, acc, bits, out, toBits)
      {
        TakeGroup(full, (j + 1) * fromBits, acc, bits, out, toBits);
        bits := bits - toBits;
        out := out + [(acc / Pow(2, bits)) % Pow(2, toBits)];
      }
    }
    assert data[..|data|] == data;
    ghost var full, count := Number(data, Pow(2, fromBits)), |data| * fromBits;
    BitsAreRest(full, count, acc, bits, out, toBits);
    Finished(full, count, acc, bits, out, toBits);
    if pad {
      if bits > 0 {
        out := out + [Wrap32(acc * Pow(2, toBits - bits)) % Pow(2, toBits)];
      }
    } else if bits >= fromBits || Wrap32(acc * Pow(2, toBits - bits)) % Pow(2, toBits) != 0 {
      return None;
    }
    r := Some(out);
  }

  lemma NumberNext(data: seq<nat>, j: nat, base: nat)
    requires j < |data|
    ensures Number(data[..j + 1], base) == Number(data[..j], base) * base + data[j]
  {
    assert data[..j + 1][..j] == data[..j];
  }

  lemma NumberNone(base: nat)
    ensures Number([], base) == 0
  {
  }

  lemma NothingYet(toBits: nat)
    ensures Regrouping(0, 0, 0, 0, [], toBits)
  {
    hide Cong;
    CongRefl(0, P32);
    PowZero();
  }

  lemma BitsAreRest(full: nat, count: nat, acc: int, bits: nat, out: seq<nat>, toBits: nat)
    requires bits < toBits && Regrouping(full, count, acc, bits, out, toBits)
    ensures bits == Rest(count, toBits) && |out| == count / toBits
    ensures Cong(acc, full, P32)
  {
    hide Cong, Pow, Number, Digits;
    QuotientIs(count, toBits, |out|, bits);
  }

  /** What a conversion means: the same number, its left-over bits padded with zeros or dropped. */
  ghost predicate Regrouped(full: nat, count: nat, out: seq<nat>, toBits: nat, pad: bool)
    requires toBits > 0
  {
    var rest := Rest(count, toBits);
    && Digits(out, Pow(2, toBits))
    && (if pad && rest > 0
        then |out| == count / toBits + 1 && Number(out, Pow(2, toBits)) == full * Pow(2, toBits - rest)
        else |out| == count / toBits && Pow(2, rest) > 0 && Number(out, Pow(2, toBits)) == full / Pow(2, rest))
  }

  lemma Finished(full: nat, count: nat, acc: int, bits: nat, out: seq<nat>, toBits: nat)
    requires bits < toBits <= 32 && Regrouping(full, count, acc, bits, out, toBits)
    requires bits == Rest(count, toBits) && |out| == count / toBits
    ensures Pow(2, toBits) > 0
    ensures Wrap32(acc * Pow(2, toBits - bits)) % Pow(2, toBits) == Tail(full, bits, toBits)
    ensures Regrouped(full, count, out, toBits, false)
    ensures bits == 0 ==> Regrouped(full, count, out, toBits, true)
    ensures bits > 0 ==>
              Regrouped(full, count, out + [Wrap32(acc * Pow(2, toBits - bits)) % Pow(2, toBits)], toBits, true)
  {
    hide Cong, Pow, Wrap32;
    TailOfAcc(acc, full, bits, toBits);
    PadDigit(full, bits, toBits);
    var d := Tail(full, bits, toBits);
    assert (out + [d])[..|out|] == out;
    PowPositive(toBits);
  }

  /** The left-over bits, padded, complete the number. */
  lemma PadDigit(full: nat, rest: nat, toBits: nat)
    requires rest <= toBits
    ensures Pow(2, rest) > 0 && (full / Pow(2, rest)) * Pow(2, toBits) + Tail(full, rest, toBits) == full * Pow(2, toBits - rest)
  {
    hide Pow;
    var k := toBits - rest;
    var x := full * Pow(2, k);
    PowPositive(rest);
    PowPositive(k);
    PowPositive(toBits);
    PowAdd(k, rest);
    DivideTwice(x, Pow(2, k), Pow(2, rest));
    QuotientIs(x, Pow(2, k), full, 0);
  }

  // ---- there and back ----

  lemma {:induction false} NumberInjective(xs: seq<nat>, ys: seq<nat>, base: nat)
    requires |xs| == |ys| && Digits(xs, base) && Digits(ys, base) && Number(xs, base) == Number(ys, base)
    ensures xs == ys
  {
    if xs != [] {
      var n := |xs| - 1;
      QuotientIs(Number(xs, base), base, Number(xs[..n], base), xs[n]);
      QuotientIs(Number(ys, base), base, Number(ys[..n], base), ys[n]);
      NumberInjective(xs[..n], ys[..n], base);
      assert xs == xs[..n] + [xs[n]] && ys == ys[..n] + [ys[n]];
    }
  }

  /** Bytes to groups and back: what a padded conversion of any bytes to groups of five returns is
      converted back, without padding, to exactly those bytes. */
  lemma BackToBytes(data: seq<nat>, groups: seq<nat>, back: seq<nat>)
    requires Digits(data, Pow(2, 8))
    requires Regrouped(Number(data, Pow(2, 8)), |data| * 8, groups, 5, true)
    requires Regrouped(Number(groups, Pow(2, 5)), |groups| * 5, back, 8, false)
    ensures back == data
  {
    hide Number, Digits, Pow;
    var full := Number(data, Pow(2, 8));
    var p := PadBits(|data|);
    GroupCount(|data|, |groups|);
    PowPositive(p);
    PadNumber(full, |data| * 8, groups);
    QuotientIs(full * Pow(2, p), Pow(2, p), full, 0);
    NumberInjective(back, data, Pow(2, 8));
  }

  /** The zeros that complete the last group of five. */
  function PadBits(bytes: nat): (p: nat)
    ensures p < 5
  {
    (5 - bytes * 8 % 5) % 5
  }

  lemma GroupCount(bytes: nat, groups: nat)
    requires groups == bytes * 8 / 5 + if bytes * 8 % 5 > 0 then 1 else 0
    ensures groups * 5 == bytes * 8 + PadBits(bytes)
    ensures Rest(groups * 5, 8) == PadBits(bytes) && groups * 5 / 8 == bytes
  {
    var bits := bytes * 8;
    assert bits == bits / 5 * 5 + bits % 5;
    QuotientIs(groups * 5, 8, bytes, PadBits(bytes));
  }

  lemma PadNumber(full: nat, count: nat, groups: seq<nat>)
    requires count % 8 == 0 && Regrouped(full, count, groups, 5, true)
    ensures Number(groups, Pow(2, 5)) == full * Pow(2, PadBits(count / 8))
  {
    hide Pow, Number, Digits;
    PowZero();
    assert count / 8 * 8 == count;
  }

  /** Neither direction throws. */
  lemma BothConvert(data: seq<nat>, groups: seq<nat>)
    requires Digits(data, Pow(2, 8))
    requires Regrouped(Number(data, Pow(2, 8)), |data| * 8, groups, 5, true)
    ensures Digits(groups, Pow(2, 5))
    ensures Rest(|groups| * 5, 8) < 5 && Tail(Number(groups, Pow(2, 5)), Rest(|groups| * 5, 8), 8) == 0
  {
    hide Number, Digits, Pow, Tail;
    var full := Number(data, Pow(2, 8));
    GroupCount(|data|, |groups|);
    PadNumber(full, |data| * 8, groups);
    PaddedLeavesNothing(full, PadBits(|data|));
  }

  /** The zeros that pad a number leave a tail of zeros. */
  lemma PaddedLeavesNothing(full: nat, p: nat)
    requires p <= 8
    ensures full * Pow(2, p) >= 0 && Tail(full * Pow(2, p), p, 8) == 0
  {
    hide Pow;
    PowPositive(8);
    PowPositive(p);
    PowAdd(p, 8 - p);
    assert (full * Pow(2, p)) * Pow(2, 8 - p) == full * (Pow(2, p) * Pow(2, 8 - p));
    QuotientIs(full * Pow(2, 8), Pow(2, 8), full, 0);
  }

  /** The conversion and its inverse, as they run. */
  method ThereAndBack(data: seq<nat>) returns (back: Option<seq<nat>>)
    requires Digits(data, Pow(2, 8))
    ensures back == Some(data)
  {
    var groups := ConvertBits(data, 8, 5, true);
    BothConvert(data, groups.value);
    back := ConvertBits(groups.value, 5, 8, false);
    BackToBytes(data, groups.value, back.value);
  }

  /** Different bytes never share their groups. */
  lemma GroupsInjective(x: seq<nat>, y: seq<nat>, groups: seq<nat>)
    requires |x| == |y| && Digits(x, Pow(2, 8)) && Digits(y, Pow(2, 8))
    requires Regrouped(Number(x, Pow(2, 8)), |x| * 8, groups, 5, true)
    requires Regrouped(Number(y, Pow(2, 8)), |y| * 8, groups, 5, true)
    ensures x == y
  {
    hide Number, Digits, Pow;
    var p := PadBits(|x|);
    PowPositive(p);
    PadNumber(Number(x, Pow(2, 8)), |x| * 8, groups);
    PadNumber(Number(y, Pow(2, 8)), |y| * 8, groups);
    QuotientIs(Number(x, Pow(2, 8)) * Pow(2, p), Pow(2, p), Number(x, Pow(2, 8)), 0);
    QuotientIs(Number(y, Pow(2, 8)) * Pow(2, p), Pow(2, p), Number(y, Pow(2, 8)), 0);
    NumberInjective(x, y, Pow(2, 8));
  }

  // ---- script addresses ----

  const CHARSET: string := "qpzry9x8gf2tvdw0s3jn54khce6mua7l"

  function Hrp(networkId: nat): (s: string)
    ensures forall i :: 0 <= i < |s| ==> s[i] < 128 as char
  {
    if networkId == 0 then "addr_test" else "addr"
  }

  /** The symbol of a group. */
  function SymbolChar(g: nat): char
    requires g < 32
  {
    CHARSET[g]
  }

  function SymbolChars(groups: seq<nat>): (s: string)
    requires Digits(groups, 32)
    ensures |s| == |groups|
  {
    seq(|groups|, i requires 0 <= i < |groups| => SymbolChar(groups[i]))
  }

  function AsSymbols(groups: seq<nat>): seq<bv32>
    requires Digits(groups, 32)
  {
    seq(|groups|, i requires 0 <= i < |groups| => groups[i] as bv32)
  }

  function Payload(hash: seq<nat>, networkId: nat): seq<nat> { [0x70 + networkId] + hash }

  lemma SymbolFits(x: bv32)
    requires x < 32
    ensures x as nat < 32
  {
  }

  function CheckChars(sum: seq<bv32>): (s: string)
    requires AllSymbols(sum)
    ensures |s| == |sum|
  {
    seq(|sum|, i requires 0 <= i < |sum| =>
      SymbolFits(sum[i]);
      SymbolChar(sum[i] as nat))
  }

  /** The address: prefix, separator, the payload's groups, and six symbols that make the whole check. */
  ghost predicate IsAddress(s: string, hash: seq<nat>, networkId: nat, groups: seq<nat>, sum: seq<bv32>) {
    && Regrouped(Number(Payload(hash, networkId), Pow(2, 8)), 29 * 8, groups, 5, true)
    && Digits(groups, 32)
    && |sum| == 6 && AllSymbols(sum)
    && s == Hrp(networkId) + "1" + SymbolChars(groups) + CheckChars(sum)
    && Bech32.Run(1, HrpExpand(Hrp(networkId)) + AsSymbols(groups) + sum) == 1
  }

  lemma SmallCast(n: nat)
    requires n < 32
    ensures n as bv32 < 32
  {
  }

  lemma ValuesAreSymbols(hrp: string, groups: seq<nat>)
    requires Digits(groups, 32) && forall i :: 0 <= i < |hrp| ==> hrp[i] < 128 as char
    ensures AllSymbols(HrpExpand(hrp) + AsSymbols(groups))
  {
    var high := seq(|hrp|, i requires 0 <= i < |hrp| => (hrp[i] as int / 32) as bv32);
    var low := seq(|hrp|, i requires 0 <= i < |hrp| => (hrp[i] as int % 32) as bv32);
    forall i | 0 <= i < |hrp| ensures high[i] < 32 && low[i] < 32 {
      SmallCast(hrp[i] as int / 32);
      SmallCast(hrp[i] as int % 32);
    }
    forall i | 0 <= i < |groups| ensures AsSymbols(groups)[i] < 32 {
      SmallCast(groups[i]);
    }
    assert HrpExpand(hrp) == high + [0] + low;
  }

  lemma ChecksumSymbols(m: bv32)
    ensures AllSymbols(Symbols(m))
  {
    hide Cut;
    forall i | 0 <= i < 6 ensures Symbols(m)[i] < 32 {
      LowBitsAreSmall(Cut(m, 5 - i));
    }
  }

  lemma LowBitsAreSmall(x: bv32)
    ensures x & 0x1f < 32
  {
  }

  /** The checksum's part of bech32Encode (address.ts:67-72). */
  method Encode(hrp: string, groups: seq<nat>) returns (text: string, ghost sum: seq<bv32>)
    requires Digits(groups, 32) && forall i :: 0 <= i < |hrp| ==> hrp[i] < 128 as char
    ensures |sum| == 6 && AllSymbols(sum) && text == hrp + "1" + SymbolChars(groups) + CheckChars(sum)
    ensures Bech32.Run(1, HrpExpand(hrp) + AsSymbols(groups) + sum) == 1
  {
    hide Bech32.Run, Symbol, HrpExpand, AsSymbols, SymbolChar;
    var values := AsSymbols(groups);
    var checksum := Bech32CreateChecksum(hrp, values);
    sum := checksum;
    ValuesAreSymbols(hrp, groups);
    ChecksumChecks(HrpExpand(hrp) + values);
    ChecksumSymbols(ChecksumNumber(HrpExpand(hrp) + values));
    text := hrp + "1";
    for i := 0 to |groups|
      invariant text == hrp + "1" + SymbolChars(groups)[..i]
    {
      text := text + [SymbolChar(groups[i])];
    }
    assert SymbolChars(groups)[..|groups|] == SymbolChars(groups);
    ghost var body := text;
    for i := 0 to |checksum|
      invariant text == body + CheckChars(checksum)[..i]
    {
      SymbolFits(checksum[i]);
      text := text + [SymbolChar(checksum[i] as nat)];
    }
    assert CheckChars(checksum)[..|checksum|] == CheckChars(checksum);
  }

  /** The 28 bytes that the hex text of a script hash stands for. */
  function ScriptHash(hex: string): (hash: Option<seq<nat>>)
    ensures hash.Some? ==> |hash.value| == 28 && Digits(hash.value, 256)
  {
    var bytes := Hex.BytesOfHex(hex);
    if bytes.None? || |bytes.value| != 28 then None else Some(bytes.value)
  }

  /** buildScriptAddress (address.ts:45-58); `None`: the text is not the hex of 28 bytes. */
  method BuildScriptAddress(scriptHashHex: string, networkId: nat)
    returns (r: Option<string>, ghost groups: seq<nat>, ghost sum: seq<bv32>)
    requires networkId <= 1
    ensures r.None? <==> ScriptHash(scriptHashHex).None?
    ensures r.Some? ==> IsAddress(r.value, ScriptHash(scriptHashHex).value, networkId, groups, sum)
  {
    groups, sum := [], [];
    var scriptHash := Hex.HexToBytes(scriptHashHex);
    if scriptHash.None? || |scriptHash.value| != 28 {
      return None, groups, sum;
    }
    var payload := [0x70 + networkId] + scriptHash.value;
    PowThirtyTwo();
    assert Digits(payload, 256);
    hide Number, Pow, Bech32.Run, CheckChars, SymbolChars, AsSymbols, HrpExpand, AllSymbols, Hex.BytesOfHex;
    var out := ConvertBits(payload, 8, 5, true);
    var text, check := Encode(Hrp(networkId), out.value);
    groups, sum := out.value, check;
    r := Some(text);
  }

  /** Where a symbol stands in the alphabet. */
  function Position(c: char): nat {
    if c == 'q' then 0 else if c == 'p' then 1 else if c == 'z' then 2 else if c == 'r' then 3
    else if c == 'y' then 4 else if c == '9' then 5 else if c == 'x' then 6 else if c == '8' then 7
    else if c == 'g' then 8 else if c == 'f' then 9 else if c == '2' then 10 else if c == 't' then 11
    else if c == 'v' then 12 else if c == 'd' then 13 else if c == 'w' then 14 else if c == '0' then 15
    else if c == 's' then 16 else if c == '3' then 17 else if c == 'j' then 18 else if c == 'n' then 19
    else if c == '5' then 20 else if c == '4' then 21 else if c == 'k' then 22 else if c == 'h' then 23
    else if c == 'c' then 24 else if c == 'e' then 25 else if c == '6' then 26 else if c == 'm' then 27
    else if c == 'u' then 28 else if c == 'a' then 29 else if c == '7' then 30 else if c == 'l' then 31 else 32
  }

  lemma PositionLow(g: nat)
    requires g < 16
    ensures Position(SymbolChar(g)) == g
  {
  }

  lemma PositionHigh(g: nat)
    requires 16 <= g < 32
    ensures Position(SymbolChar(g)) == g
  {
  }

  /** The symbols are distinct characters. */
  lemma CharsetInjective(g: nat, h: nat)
    requires g < 32 && h < 32 && SymbolChar(g) == SymbolChar(h)
    ensures g == h
  {
    hide SymbolChar, Position;
    if g < 16 {
      PositionLow(g);
    } else {
      PositionHigh(g);
    }
    if h < 16 {
      PositionLow(h);
    } else {
      PositionHigh(h);
    }
  }

  lemma SymbolCharsInjective(x: seq<nat>, y: seq<nat>)
    requires Digits(x, 32) && Digits(y, 32) && SymbolChars(x) == SymbolChars(y)
    ensures x == y
  {
    assert |SymbolChars(x)| == |SymbolChars(y)|;
    forall i | 0 <= i < |x| ensures x[i] == y[i] {
      assert SymbolChars(x)[i] == SymbolChars(y)[i];
      CharsetInjective(x[i], y[i]);
    }
  }

  /** Equal addresses come from the same hash on the same network. */
  lemma AddressInjective(s: string, hash: seq<nat>, networkId: nat, groups: seq<nat>, sum: seq<bv32>,
                         hash': seq<nat>, networkId': nat, groups': seq<nat>, sum': seq<bv32>)
    requires Digits(hash, 256) && Digits(hash', 256) && |hash| == |hash'| == 28 && networkId <= 1 && networkId' <= 1
    requires IsAddress(s, hash, networkId, groups, sum) && IsAddress(s, hash', networkId', groups', sum')
    ensures hash == hash' && networkId == networkId'
  {
    hide Number, Pow, SymbolChars, CheckChars, Bech32.Run, HrpExpand, AsSymbols, AllSymbols;
    PowThirtyTwo();
    assert s[4] == (if networkId == 0 then '_' else '1');
    assert s[4] == (if networkId' == 0 then '_' else '1');
    var n := |Hrp(networkId)| + 1;
    assert |groups| == 47 == |groups'|;
    assert s[n..n + 47] == SymbolChars(groups) && s[n..n + 47] == SymbolChars(groups');
    SymbolCharsInjective(groups, groups');
    var x, y := Payload(hash, networkId), Payload(hash', networkId');
    GroupsInjective(x, y, groups);
    assert x[1..] == hash && y[1..] == hash';
  }
}
