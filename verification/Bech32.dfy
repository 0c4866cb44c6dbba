/** Bech32 addresses (offchain/src/tx/address.ts:98-125; the checksum is BIP-173's). */
module Bech32 {
  // ---- the checksum's step ----

  function Generator(i: nat): bv32
    requires i < 5
  {
    if i == 0 then 0x3b6a57b2 else if i == 1 then 0x26508e6d else if i == 2 then 0x1ea119fa
    else if i == 3 then 0x3d4233dd else 0x2a1462b3
  }

  function X(a: bv32, b: bv32): bv32 { a ^ b }

  /** `(top >> i) & 1`. */
  predicate Bit(top: bv32, i: nat)
    requires i < 5
  {
    (if i == 0 then top & 1 else if i == 1 then (top >> 1) & 1 else if i == 2 then (top >> 2) & 1
     else if i == 3 then (top >> 3) & 1 else (top >> 4) & 1) != 0
  }

  function Tap(top: bv32, i: nat): bv32
    requires i < 5
  {
    if Bit(top, i) then Generator(i) else 0
  }

  function Taps(chk: bv32, top: bv32, i: nat): bv32
    requires i <= 5
  {
    if i == 0 then chk else X(Taps(chk, top, i - 1), Tap(top, i - 1))
  }

  /** One turn of bech32Polymod's loop (address.ts:102-106). */
  function Step(chk: bv32, v: bv32): bv32 { Taps(X((chk & 0x1ffffff) << 5, v), chk >> 25, 5) }

  function Run(chk: bv32, values: seq<bv32>): bv32 {
    if values == [] then chk else Step(Run(chk, values[..|values| - 1]), values[|values| - 1])
  }

  /** bech32Polymod (address.ts:98-109). */
  method Bech32Polymod(values: seq<bv32>) returns (chk: bv32)
    ensures chk == Run(1, values)
  {
    hide X, Bit;
    chk := 1;
    for j := 0 to |values|
      invariant chk == Run(1, values[..j])
    {
      assert values[..j + 1][..j] == values[..j];
      var top := chk >> 25;
      var mixed := X((chk & 0x1ffffff) << 5, values[j]);
      ghost var before := chk;
      chk := mixed;
      for i := 0 to 5
        invariant chk == Taps(mixed, top, i)
      {
        if Bit(top, i) {
          chk := X(chk, Generator(i));
        } else {
          XorZeros(chk);
        }
      }
      assert chk == Step(before, values[j]);
    }
    assert values[..|values|] == values;
  }

  lemma XorZeros(g: bv32)
    ensures X(g, g) == 0 && X(g, 0) == g && X(0, g) == g
  {
  }

  lemma XorAssoc(a: bv32, b: bv32, c: bv32)
    ensures X(X(a, b), c) == X(a, X(b, c))
  {
    assert (a ^ b) ^ c == a ^ (b ^ c);
  }

  lemma XorComm(a: bv32, b: bv32)
    ensures X(a, b) == X(b, a)
  {
  }

  lemma Swap(a: bv32, b: bv32, c: bv32, d: bv32)
    ensures X(X(a, b), X(c, d)) == X(X(a, c), X(b, d))
  {
    hide X;
    XorAssoc(a, b, X(c, d));
    XorAssoc(b, c, d);
    XorComm(b, c);
    XorAssoc(c, b, d);
    XorAssoc(a, c, X(b, d));
  }

  lemma BitLinear(a: bv32, b: bv32, i: nat)
    requires i < 5
    ensures Bit(X(a, b), i) <==> Bit(a, i) != Bit(b, i)
  {
    if i < 2 {
      assert Bit(X(a, b), i) <==> Bit(a, i) != Bit(b, i);
    }
  }

  lemma TapLinear(a: bv32, b: bv32, i: nat)
    requires i < 5
    ensures Tap(X(a, b), i) == X(Tap(a, i), Tap(b, i))
  {
    BitLinear(a, b, i);
    XorZeros(Generator(i));
    XorZeros(0);
    hide X, Bit, Generator;
  }

  lemma {:induction false} TapsLinear(x: bv32, y: bv32, a: bv32, b: bv32, i: nat)
    requires i <= 5
    ensures Taps(X(x, y), X(a, b), i) == X(Taps(x, a, i), Taps(y, b, i))
  {
    hide X, Tap;
    if i > 0 {
      TapsLinear(x, y, a, b, i - 1);
      TapLinear(a, b, i - 1);
      Swap(Taps(x, a, i - 1), Taps(y, b, i - 1), Tap(a, i - 1), Tap(b, i - 1));
    }
  }

  lemma ShiftLinear(a: bv32, b: bv32)
    ensures (X(a, b) & 0x1ffffff) << 5 == X((a & 0x1ffffff) << 5, (b & 0x1ffffff) << 5)
    ensures X(a, b) >> 25 == X(a >> 25, b >> 25)
  {
  }

  /** The step is linear over XOR. */
  lemma StepLinear(a: bv32, b: bv32, u: bv32, v: bv32)
    ensures Step(X(a, b), X(u, v)) == X(Step(a, u), Step(b, v))
  {
    ShiftLinear(a, b);
    Swap((a & 0x1ffffff) << 5, (b & 0x1ffffff) << 5, u, v);
    TapsLinear(X((a & 0x1ffffff) << 5, u), X((b & 0x1ffffff) << 5, v), a >> 25, b >> 25, 5);
    hide X, Taps;
  }

  function XorEach(us: seq<bv32>, vs: seq<bv32>): (r: seq<bv32>)
    requires |us| == |vs|
    ensures |r| == |us|
  {
    seq(|us|, i requires 0 <= i < |us| => X(us[i], vs[i]))
  }

  /** And so is a whole run, over any length. */
  lemma {:induction false} RunLinear(a: bv32, b: bv32, us: seq<bv32>, vs: seq<bv32>)
    requires |us| == |vs|
    ensures Run(X(a, b), XorEach(us, vs)) == X(Run(a, us), Run(b, vs))
  {
    hide X, Step;
    if us != [] {
      var n := |us| - 1;
      RunLinear(a, b, us[..n], vs[..n]);
      assert XorEach(us, vs)[..n] == XorEach(us[..n], vs[..n]);
      StepLinear(Run(a, us[..n]), Run(b, vs[..n]), us[n], vs[n]);
    }
  }

  lemma {:induction false} RunAppend(chk: bv32, xs: seq<bv32>, ys: seq<bv32>)
    ensures Run(chk, xs + ys) == Run(Run(chk, xs), ys)
  {
    if ys == [] {
      assert xs + ys == xs;
    } else {
      hide Step;
      var n := |ys| - 1;
      assert (xs + ys)[..|xs + ys| - 1] == xs + ys[..n];
      RunAppend(chk, xs, ys[..n]);
    }
  }

  // ---- the checksum ----

  function Beside(chk: bv32, v: bv32): bv32 { (chk << 5) | v }

  /** With nothing at the top, a step only shifts the value in. */
  lemma NoTop(chk: bv32, v: bv32)
    requires chk < 0x200_0000 && v < 32
    ensures Step(chk, v) == Beside(chk, v)
  {
    hide Taps;
    ShiftedIn(chk, v);
    NoTaps(X((chk & 0x1ffffff) << 5, v), 5);
  }

  lemma ShiftedIn(chk: bv32, v: bv32)
    requires chk < 0x200_0000 && v < 32
    ensures chk >> 25 == 0 && ((chk & 0x1ffffff) << 5) ^ v == (chk << 5) | v
  {
  }

  lemma {:induction false} NoTaps(x: bv32, i: nat)
    requires i <= 5
    ensures Taps(x, 0, i) == x
  {
    if i > 0 {
      NoTaps(x, i - 1);
      assert !Bit(0, i - 1);
      XorZeros(x);
      hide X, Bit;
    }
  }

  /** The number without its last `k` symbols. */
  function Cut(m: bv32, k: nat): bv32
    requires k <= 6
  {
    if k == 0 then m else if k == 1 then m >> 5 else if k == 2 then m >> 10 else if k == 3 then m >> 15
    else if k == 4 then m >> 20 else if k == 5 then m >> 25 else 0
  }

  /** Symbol i of six, the highest first: `(polymod >> (5 * (5 - i))) & 0x1f`. */
  function Symbol(m: bv32, i: nat): (s: bv32)
    requires i < 6
  {
    Cut(m, 5 - i) & 0x1f
  }

  /** Each symbol, shifted in below the ones before it. */
  lemma Piece(m: bv32, i: nat)
    requires m < 0x4000_0000 && i < 6
    ensures Symbol(m, i) < 32
    ensures Cut(m, 6 - i) < 0x200_0000 && Beside(Cut(m, 6 - i), Symbol(m, i)) == Cut(m, 5 - i)
  {
    hide Cut, Symbol, Beside;
    if i == 0 {
      Piece0(m);
    } else if i == 1 {
      Piece1(m);
    } else if i == 2 {
      Piece2(m);
    } else if i == 3 {
      Piece3(m);
    } else if i == 4 {
      Piece4(m);
    } else {
      Piece5(m);
    }
  }

  lemma Piece0(m: bv32)
    requires m < 0x4000_0000
    ensures Symbol(m, 0) < 32 && Cut(m, 6) < 0x200_0000 && Beside(Cut(m, 6), Symbol(m, 0)) == Cut(m, 5)
  {
  }

  lemma Piece1(m: bv32)
    requires m < 0x4000_0000
    ensures Symbol(m, 1) < 32 && Cut(m, 5) < 0x200_0000 && Beside(Cut(m, 5), Symbol(m, 1)) == Cut(m, 4)
  {
  }

  lemma Piece2(m: bv32)
    requires m < 0x4000_0000
    ensures Symbol(m, 2) < 32 && Cut(m, 4) < 0x200_0000 && Beside(Cut(m, 4), Symbol(m, 2)) == Cut(m, 3)
  {
  }

  lemma Piece3(m: bv32)
    requires m < 0x4000_0000
    ensures Symbol(m, 3) < 32 && Cut(m, 3) < 0x200_0000 && Beside(Cut(m, 3), Symbol(m, 3)) == Cut(m, 2)
  {
  }

  lemma Piece4(m: bv32)
    requires m < 0x4000_0000
    ensures Symbol(m, 4) < 32 && Cut(m, 2) < 0x200_0000 && Beside(Cut(m, 2), Symbol(m, 4)) == Cut(m, 1)
  {
  }

  lemma Piece5(m: bv32)
    requires m < 0x4000_0000
    ensures Symbol(m, 5) < 32 && Cut(m, 1) < 0x200_0000 && Beside(Cut(m, 1), Symbol(m, 5)) == Cut(m, 0)
  {
  }

  function Symbols(m: bv32): (c: seq<bv32>)
    ensures |c| == 6
  {
    seq(6, i requires 0 <= i < 6 => Symbol(m, i))
  }

  /** Six symbols fed to an empty register rebuild the number they were cut from. */
  lemma {:induction false} SymbolsRebuild(m: bv32, i: nat)
    requires m < 0x4000_0000 && i <= 6
    ensures Run(0, Symbols(m)[..i]) == Cut(m, 6 - i)
  {
    if i > 0 {
      hide Cut, Symbol, Step;
      SymbolsRebuild(m, i - 1);
      SymbolStep(m, i - 1);
      assert Symbols(m)[..i][..i - 1] == Symbols(m)[..i - 1];
    }
  }

  lemma SymbolStep(m: bv32, i: nat)
    requires m < 0x4000_0000 && i < 6
    ensures Step(Cut(m, 6 - i), Symbol(m, i)) == Cut(m, 5 - i)
  {
    hide Cut, Symbol, Step, Beside;
    Piece(m, i);
    NoTop(Cut(m, 6 - i), Symbol(m, i));
  }

  lemma TapsBound(x: bv32, top: bv32, i: nat)
    requires x < 0x4000_0000 && i <= 5
    ensures Taps(x, top, i) < 0x4000_0000
  {
    if i > 0 {
      TapsBound(x, top, i - 1);
      TapBound(top, i - 1);
      hide Tap, Bit;
      XorBound(Taps(x, top, i - 1), Tap(top, i - 1));
    }
  }

  lemma TapBound(top: bv32, i: nat)
    requires i < 5
    ensures Tap(top, i) < 0x4000_0000
  {
    hide Bit;
  }

  lemma XorBound(a: bv32, b: bv32)
    requires a < 0x4000_0000 && b < 0x4000_0000
    ensures X(a, b) < 0x4000_0000
  {
  }

  lemma StepBound(chk: bv32, v: bv32)
    requires v < 32
    ensures Step(chk, v) < 0x4000_0000
  {
    ShiftBound(chk);
    hide Taps, X;
    XorBound((chk & 0x1ffffff) << 5, v);
    TapsBound(X((chk & 0x1ffffff) << 5, v), chk >> 25, 5);
  }

  lemma ShiftBound(chk: bv32)
    ensures (chk & 0x1ffffff) << 5 < 0x4000_0000
  {
  }

  ghost predicate AllSymbols(values: seq<bv32>) { forall i :: 0 <= i < |values| ==> values[i] < 32 }

  lemma RunBound(chk: bv32, values: seq<bv32>)
    requires chk < 0x4000_0000 && AllSymbols(values)
    ensures Run(chk, values) < 0x4000_0000
  {
    if values != [] {
      StepBound(Run(chk, values[..|values| - 1]), values[|values| - 1]);
      hide Step;
    }
  }

  function Zeros32(n: nat): seq<bv32> { seq(n, i => 0) }

  /** Feeding `c` instead of zeros adds what `c` leaves in an empty register. */
  lemma RunOffset(r: bv32, c: seq<bv32>)
    ensures Run(r, c) == X(Run(r, Zeros32(|c|)), Run(0, c))
  {
    var z := Zeros32(|c|);
    RunLinear(r, 0, z, c);
    XorZeros(r);
    hide Run;
    forall i | 0 <= i < |c| ensures XorEach(z, c)[i] == c[i] {
      XorZeros(c[i]);
    }
    assert XorEach(z, c) == c;
  }

  /** bech32CreateChecksum (address.ts:119-125) makes the whole string check: for every data and every
      length, the polymod of the values and their checksum is 1. */
  lemma ChecksumChecks(values: seq<bv32>)
    requires AllSymbols(values)
    ensures Run(1, values + Symbols(ChecksumNumber(values))) == 1
  {
    hide X, Step, Run, Symbol;
    var z := Zeros32(6);
    var r := Run(1, values);
    RunAppend(1, values, z);
    var m := ChecksumNumber(values);
    assert AllSymbols(values + z);
    RunBound(1, values + z);
    XorBound(Run(r, z), 1);
    RunAppend(1, values, Symbols(m));
    RunOffset(r, Symbols(m));
    SymbolsRebuild(m, 6);
    assert Symbols(m)[..6] == Symbols(m);
    WholeNumber(m);
    Cancel(Run(r, z), 1);
  }

  lemma WholeNumber(m: bv32)
    ensures Cut(m, 0) == m
  {
  }

  lemma Cancel(a: bv32, b: bv32)
    ensures X(a, X(a, b)) == b
  {
    XorAssoc(a, a, b);
    XorZeros(a);
    XorZeros(b);
  }

  function ChecksumNumber(values: seq<bv32>): bv32 { X(Run(1, values + Zeros32(6)), 1) }

  /** `>> 5` and `& 0x1f` of each character, around a zero (address.ts:111-117). */
  function HrpExpand(hrp: string): (r: seq<bv32>)
    requires forall i :: 0 <= i < |hrp| ==> hrp[i] < 128 as char
    ensures |r| == 2 * |hrp| + 1
  {
    seq(|hrp|, i requires 0 <= i < |hrp| => (hrp[i] as int / 32) as bv32) + [0] +
    seq(|hrp|, i requires 0 <= i < |hrp| => (hrp[i] as int % 32) as bv32)
  }

  method Bech32CreateChecksum(hrp: string, data: seq<bv32>) returns (out: seq<bv32>)
    requires forall i :: 0 <= i < |hrp| ==> hrp[i] < 128 as char
    ensures out == Symbols(ChecksumNumber(HrpExpand(hrp) + data))
  {
    hide X, Run, Symbol, HrpExpand;
    var values := HrpExpand(hrp) + data;
    var polymod := Bech32Polymod(values + [0, 0, 0, 0, 0, 0]);
    assert Zeros32(6) == [0, 0, 0, 0, 0, 0];
    polymod := X(polymod, 1);
    out := [];
    for i := 0 to 6
      invariant out == Symbols(polymod)[..i]
    {
      out := out + [Symbol(polymod, i)];
    }
  }

  // ---- errors ----

  /** The five generators differ in their low five bits, in every combination. */
  lemma GeneratorsIndependent(b0: bool, b1: bool, b2: bool, b3: bool, b4: bool)
    requires b0 || b1 || b2 || b3 || b4
    ensures X(X(X(X(if b0 then Generator(0) else 0, if b1 then Generator(1) else 0), if b2 then Generator(2) else 0),
                if b3 then Generator(3) else 0), if b4 then Generator(4) else 0) & 0x1f != 0
  {
  }

  lemma SomeBit(top: bv32)
    requires 0 != top < 32
    ensures Bit(top, 0) || Bit(top, 1) || Bit(top, 2) || Bit(top, 3) || Bit(top, 4)
  {
  }

  lemma LowBitsSurvive(x: bv32, t: bv32)
    requires x & 0x1f == 0 && t & 0x1f != 0
    ensures X(x, t) != 0
  {
  }

  lemma ShiftedRegister(chk: bv32)
    ensures ((chk & 0x1ffffff) << 5) & 0x1f == 0
    ensures 0x200_0000 <= chk < 0x4000_0000 ==> 0 != chk >> 25 < 32
    ensures 0 != chk < 0x200_0000 ==> Beside(chk, 0) != 0
  {
  }

  lemma XorRegroups(x: bv32, a: bv32, b: bv32, c: bv32, d: bv32, e: bv32)
    ensures X(X(X(X(X(X(x, 0), a), b), c), d), e) == X(x, X(X(X(X(a, b), c), d), e))
  {
    XorZeros(x);
    hide X;
    XorAssoc(x, a, b);
    XorAssoc(x, X(a, b), c);
    XorAssoc(x, X(X(a, b), c), d);
    XorAssoc(x, X(X(X(a, b), c), d), e);
  }

  /** A non-zero register stays non-zero when zeros follow: the taps that a non-zero top switches on show
      in the low five bits, which the shift leaves empty. */
  lemma StepNonZero(chk: bv32)
    requires 0 != chk < 0x4000_0000
    ensures Step(chk, 0) != 0
  {
    ShiftedRegister(chk);
    if chk < 0x200_0000 {
      NoTop(chk, 0);
      hide Step, Beside;
    } else {
      var x, top := (chk & 0x1ffffff) << 5, chk >> 25;
      StepUnrolled(chk, 0);
      XorRegroups(x, Tap(top, 0), Tap(top, 1), Tap(top, 2), Tap(top, 3), Tap(top, 4));
      hide Step, Taps, X, Bit, Generator;
      SomeBit(top);
      GeneratorsIndependent(Bit(top, 0), Bit(top, 1), Bit(top, 2), Bit(top, 3), Bit(top, 4));
      LowBitsSurvive(x, X(X(X(X(Tap(top, 0), Tap(top, 1)), Tap(top, 2)), Tap(top, 3)), Tap(top, 4)));
    }
  }

  lemma StepUnrolled(chk: bv32, v: bv32)
    ensures Step(chk, v) ==
            X(X(X(X(X(X((chk & 0x1ffffff) << 5, v), Tap(chk >> 25, 0)), Tap(chk >> 25, 1)), Tap(chk >> 25, 2)), Tap(chk >> 25, 3)),
              Tap(chk >> 25, 4))
  {
    hide X, Tap;
    var x, top := X((chk & 0x1ffffff) << 5, v), chk >> 25;
    assert Taps(x, top, 1) == X(Taps(x, top, 0), Tap(top, 0));
    assert Taps(x, top, 2) == X(Taps(x, top, 1), Tap(top, 1));
    assert Taps(x, top, 3) == X(Taps(x, top, 2), Tap(top, 2));
    assert Taps(x, top, 4) == X(Taps(x, top, 3), Tap(top, 3));
    assert Taps(x, top, 5) == X(Taps(x, top, 4), Tap(top, 4));
  }

  lemma {:induction false} ZerosKeep(chk: bv32, n: nat)
    requires 0 != chk < 0x4000_0000
    ensures 0 != Run(chk, Zeros32(n)) < 0x4000_0000
  {
    if n > 0 {
      ZerosKeep(chk, n - 1);
      assert Zeros32(n)[..n - 1] == Zeros32(n - 1);
      StepNonZero(Run(chk, Zeros32(n - 1)));
      StepBound(Run(chk, Zeros32(n - 1)), 0);
      hide Step;
    }
  }

  lemma {:induction false} ZerosStayZero(n: nat)
    ensures Run(0, Zeros32(n)) == 0
  {
    if n > 0 {
      ZerosStayZero(n - 1);
      assert Zeros32(n)[..n - 1] == Zeros32(n - 1);
      NoTop(0, 0);
      hide Step;
      assert Beside(0, 0) == 0;
    }
  }

  /** 32 to the power i, up to six. */
  function Limit(i: nat): bv32
    requires i <= 6
  {
    if i == 0 then 1 else if i == 1 then 0x20 else if i == 2 then 0x400 else if i == 3 then 0x8000 else if i == 4 then 0x10_0000
    else if i == 5 then 0x200_0000 else 0x4000_0000
  }

  lemma BesideGrows(chk: bv32, v: bv32, i: nat)
    requires i < 6 && chk < Limit(i) && v < 32
    ensures chk < 0x200_0000 && Beside(chk, v) < Limit(i + 1)
    ensures Beside(chk, v) == 0 <==> chk == 0 && v == 0
  {
  }

  /** Up to six symbols leave the empty register empty only if all are zero. */
  lemma {:induction false} BurstStays(e: seq<bv32>)
    requires |e| <= 6 && AllSymbols(e)
    ensures Run(0, e) < Limit(|e|)
    ensures Run(0, e) == 0 <==> AllZero(e)
  {
    if e != [] {
      hide Step, Limit, AllZero, AllSymbols;
      var n := |e| - 1;
      LastSymbol(e);
      BurstStays(e[..n]);
      BurstStep(Run(0, e[..n]), e[n], n);
    }
  }

  ghost predicate AllZero(e: seq<bv32>) { forall i :: 0 <= i < |e| ==> e[i] == 0 }

  lemma LastSymbol(e: seq<bv32>)
    requires e != [] && AllSymbols(e)
    ensures AllSymbols(e[..|e| - 1]) && e[|e| - 1] < 32
    ensures AllZero(e) <==> AllZero(e[..|e| - 1]) && e[|e| - 1] == 0
  {
    assert forall i :: 0 <= i < |e| - 1 ==> e[..|e| - 1][i] == e[i];
  }

  lemma BurstStep(chk: bv32, v: bv32, i: nat)
    requires i < 6 && chk < Limit(i) && v < 32
    ensures Step(chk, v) < Limit(i + 1) && (Step(chk, v) == 0 <==> chk == 0 && v == 0)
  {
    hide Step, Beside, Limit;
    BesideGrows(chk, v, i);
    NoTop(chk, v);
  }

  /** Any change confined to six neighbouring symbols is noticed, in a string of any length: no two
      strings that differ only there have the same polymod, so at most one of them checks. */
  lemma BurstDetected(front: seq<bv32>, b: seq<bv32>, b': seq<bv32>, back: seq<bv32>)
    requires |b| == |b'| <= 6 && b != b' && AllSymbols(b) && AllSymbols(b')
    ensures Run(1, front + b + back) != Run(1, front + b' + back)
  {
    hide Step, X, Run;
    var e := XorEach(b, b');
    ErrorSymbols(b, b');
    BurstStays(e);
    LimitBound(|e|);
    ZerosKeep(Run(0, e), |back|);
    var r := Run(1, front);
    RunAppend(1, front, b);
    RunAppend(1, front, b');
    RunAppend(1, front + b, back);
    RunAppend(1, front + b', back);
    RunLinear(r, r, b, b');
    XorZeros(r);
    var s, s' := Run(r, b), Run(r, b');
    RunLinear(s, s', back, back);
    SelfXor(back);
    if Run(s, back) == Run(s', back) {
      XorZeros(Run(s, back));
    }
  }

  lemma SelfXor(us: seq<bv32>)
    ensures XorEach(us, us) == Zeros32(|us|)
  {
    forall i | 0 <= i < |us| ensures XorEach(us, us)[i] == 0 {
      XorZeros(us[i]);
    }
  }

  lemma LimitBound(i: nat)
    requires i <= 6
    ensures Limit(i) <= 0x4000_0000
  {
  }

  lemma ErrorSymbols(b: seq<bv32>, b': seq<bv32>)
    requires |b| == |b'| && b != b' && AllSymbols(b) && AllSymbols(b')
    ensures AllSymbols(XorEach(b, b')) && !AllZero(XorEach(b, b'))
  {
    forall i | 0 <= i < |b| ensures XorEach(b, b')[i] < 32 {
      SmallXor(b[i], b'[i]);
    }
    var i :| 0 <= i < |b| && b[i] != b'[i];
    DifferentXor(b[i], b'[i]);
    assert XorEach(b, b')[i] != 0;
  }

  lemma SmallXor(a: bv32, b: bv32)
    requires a < 32 && b < 32
    ensures X(a, b) < 32
  {
  }

  lemma DifferentXor(a: bv32, b: bv32)
    requires a != b
    ensures X(a, b) != 0
  {
  }
}