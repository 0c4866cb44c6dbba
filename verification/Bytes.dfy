/** Bytes, bytewise XOR and big-endian numbers. */
module Bytes {
  import opened Arith

  type Byte = x: int | 0 <= x < 256

  /** Bitwise XOR of the `n` low bits, bit by bit. */
  function XorBits(a: nat, b: nat, n: nat): (c: nat)
    ensures c < Pow(2, n)
  {
    if n == 0 then 0 else 2 * XorBits(a / 2, b / 2, n - 1) + (if a % 2 == b % 2 then 0 else 1)
  }

  function Xor(a: Byte, b: Byte): Byte {
    PowersOfTwo();
    XorBits(a, b, 8)
  }

  lemma PowersOfTwo()
    ensures Pow(2, 8) == 256
  {
    assert Pow(2, 2) == 4;
    assert Pow(2, 4) == 16;
    assert Pow(2, 6) == 64;
  }

  lemma XorBitsHead(a: nat, b: nat, n: nat)
    requires n > 0
    ensures XorBits(a, b, n) / 2 == XorBits(a / 2, b / 2, n - 1)
    ensures XorBits(a, b, n) % 2 == if a % 2 == b % 2 then 0 else 1
  {
  }

  lemma {:induction false} XorBitsAssoc(a: nat, b: nat, c: nat, n: nat)
    ensures XorBits(XorBits(a, b, n), c, n) == XorBits(a, XorBits(b, c, n), n)
  {
    if n > 0 {
      XorBitsAssoc(a / 2, b / 2, c / 2, n - 1);
      XorBitsHead(a, b, n);
      XorBitsHead(b, c, n);
    }
  }

  lemma {:induction false} XorBitsComm(a: nat, b: nat, n: nat)
    ensures XorBits(a, b, n) == XorBits(b, a, n)
  {
    if n > 0 {
      XorBitsComm(a / 2, b / 2, n - 1);
    }
  }

  lemma {:induction false} XorBitsSelf(a: nat, n: nat)
    ensures XorBits(a, a, n) == 0
  {
    if n > 0 {
      XorBitsSelf(a / 2, n - 1);
    }
  }

  lemma {:induction false} XorBitsZero(a: nat, n: nat)
    requires a < Pow(2, n)
    ensures XorBits(a, 0, n) == a
  {
    if n > 0 {
      XorBitsZero(a / 2, n - 1);
    }
  }

  lemma XorAssoc(a: Byte, b: Byte, c: Byte)
    ensures Xor(Xor(a, b), c) == Xor(a, Xor(b, c))
  {
    XorBitsAssoc(a, b, c, 8);
  }

  lemma XorComm(a: Byte, b: Byte)
    ensures Xor(a, b) == Xor(b, a)
  {
    XorBitsComm(a, b, 8);
  }

  lemma XorSelf(a: Byte)
    ensures Xor(a, a) == 0
  {
    XorBitsSelf(a, 8);
  }

  lemma XorZero(a: Byte)
    ensures Xor(a, 0) == a && Xor(0, a) == a
  {
    PowersOfTwo();
    XorBitsZero(a, 8);
    XorBitsComm(0, a, 8);
  }

  /** xorInPlace (offchain/src/crypto/sigma_or.ts:84-87) on values of one length. */
  function XorBytes(a: seq<Byte>, b: seq<Byte>): (c: seq<Byte>)
    requires |a| == |b|
    ensures |c| == |a|
  {
    seq(|a|, i requires 0 <= i < |a| => Xor(a[i], b[i]))
  }

  function Zeros(n: nat): seq<Byte> { seq(n, i => 0) }

  ghost predicate AllOfLength(parts: seq<seq<Byte>>, n: nat) {
    forall i :: 0 <= i < |parts| ==> |parts[i]| == n
  }

  function XorAll(parts: seq<seq<Byte>>, n: nat): (c: seq<Byte>)
    requires AllOfLength(parts, n)
    ensures |c| == n
  {
    if parts == [] then Zeros(n) else XorBytes(XorAll(parts[..|parts| - 1], n), parts[|parts| - 1])
  }

  /** XOR does not mind where a part stands: taking one out XORs it out. */
  lemma {:induction false} XorAllWithout(parts: seq<seq<Byte>>, i: nat, n: nat)
    requires AllOfLength(parts, n) && i < |parts|
    ensures AllOfLength(parts[..i] + parts[i + 1..], n)
    ensures XorAll(parts, n) == XorBytes(XorAll(parts[..i] + parts[i + 1..], n), parts[i])
  {
    var last := |parts| - 1;
    var rest := parts[..i] + parts[i + 1..];
    if i == last {
      assert rest == parts[..last];
    } else {
      XorAllWithout(parts[..last], i, n);
      var short := parts[..last][..i] + parts[..last][i + 1..];
      assert rest[..|rest| - 1] == short && rest[|rest| - 1] == parts[last];
      XorSwap(XorAll(short, n), parts[i], parts[last]);
    }
  }

  lemma XorSwap(x: seq<Byte>, y: seq<Byte>, z: seq<Byte>)
    requires |x| == |y| == |z|
    ensures XorBytes(XorBytes(x, y), z) == XorBytes(XorBytes(x, z), y)
  {
    forall k | 0 <= k < |x| ensures XorBytes(XorBytes(x, y), z)[k] == XorBytes(XorBytes(x, z), y)[k] {
      hide Xor;
      XorAssoc(x[k], y[k], z[k]);
      XorAssoc(x[k], z[k], y[k]);
      XorComm(y[k], z[k]);
    }
  }

  lemma XorTwice(a: seq<Byte>, b: seq<Byte>)
    requires |a| == |b|
    ensures XorBytes(a, XorBytes(b, a)) == b
    ensures XorBytes(XorBytes(b, a), a) == b
  {
    forall k | 0 <= k < |a|
      ensures XorBytes(a, XorBytes(b, a))[k] == b[k] && XorBytes(XorBytes(b, a), a)[k] == b[k]
    {
      hide Xor;
      XorAssoc(b[k], a[k], a[k]);
      XorComm(a[k], Xor(b[k], a[k]));
      XorSelf(a[k]);
      XorZero(b[k]);
    }
  }

  /** Big-endian value (bytesToBigIntBE, offchain/src/crypto/bls.ts:67-73). */
  function ToNat(b: seq<Byte>): nat {
    if b == [] then 0 else ToNat(b[..|b| - 1]) * 256 + b[|b| - 1]
  }

  /** The `n` low-order bytes of `x`, big-endian (scalarToBytes, bls.ts:33-43). */
  function FromNat(x: nat, n: nat): (b: seq<Byte>)
    ensures |b| == n
  {
    if n == 0 then [] else FromNat(x / 256, n - 1) + [x % 256]
  }

  lemma {:induction false} ToNatBound(b: seq<Byte>)
    ensures ToNat(b) < Pow(256, |b|)
  {
    if b != [] {
      ToNatBound(b[..|b| - 1]);
    }
  }

  lemma {:induction false} FromNatRoundTrip(x: nat, n: nat)
    requires x < Pow(256, n)
    ensures ToNat(FromNat(x, n)) == x
  {
    if n > 0 {
      FromNatRoundTrip(x / 256, n - 1);
      assert FromNat(x, n)[..n - 1] == FromNat(x / 256, n - 1);
    }
  }

  lemma SameDigits(x: nat, d: Byte, y: nat, e: Byte)
    requires x * 256 + d == y * 256 + e
    ensures x == y && d == e
  {
  }

  lemma {:induction false} ToNatInjective(a: seq<Byte>, b: seq<Byte>)
    requires |a| == |b| && ToNat(a) == ToNat(b)
    ensures a == b
  {
    if a != [] {
      var x, y := a[..|a| - 1], b[..|b| - 1];
      SameDigits(ToNat(x), a[|a| - 1], ToNat(y), b[|b| - 1]);
      ToNatInjective(x, y);
      assert a == x + [a[|a| - 1]] && b == y + [b[|b| - 1]];
    }
  }

  lemma ToNatRoundTrip(b: seq<Byte>)
    ensures FromNat(ToNat(b), |b|) == b
  {
    ToNatBound(b);
    FromNatRoundTrip(ToNat(b), |b|);
    ToNatInjective(FromNat(ToNat(b), |b|), b);
  }

  // ---- text ----

  /** The bytes of an ASCII string. */
  function Ascii(s: string): (b: seq<Byte>)
    requires forall i :: 0 <= i < |s| ==> s[i] < 128 as char
    ensures |b| == |s| && forall i :: 0 <= i < |s| ==> b[i] == s[i] as int
  {
    seq(|s|, i requires 0 <= i < |s| => s[i] as int)
  }

  /** Byte strings joined, in order. */
  function Flatten(parts: seq<seq<Byte>>): seq<Byte> {
    if parts == [] then [] else Flatten(parts[..|parts| - 1]) + parts[|parts| - 1]
  }

  lemma FlattenNext(parts: seq<seq<Byte>>, i: nat)
    requires i < |parts|
    ensures Flatten(parts[..i + 1]) == Flatten(parts[..i]) + parts[i]
  {
    assert parts[..i + 1][..i] == parts[..i];
  }

  lemma {:induction false} FlattenPrefix(parts: seq<seq<Byte>>, n: nat)
    requires n <= |parts|
    ensures |Flatten(parts[..n])| <= |Flatten(parts)|
  {
    if n < |parts| {
      FlattenPrefix(parts[..|parts| - 1], n);
      assert parts[..|parts| - 1][..n] == parts[..n];
    } else {
      assert parts[..n] == parts;
    }
  }

  lemma PowersOf256()
    ensures Pow(256, 0) == 1 && Pow(256, 1) == 0x100 && Pow(256, 2) == 0x1_0000 && Pow(256, 4) == 0x1_0000_0000
    ensures Pow(256, 3) == 0x100_0000 && Pow(256, 8) == 0x1_0000_0000_0000_0000
  {
    assert Pow(256, 5) == 0x100_0000_0000;
    assert Pow(256, 6) == 0x1_0000_0000_0000;
    assert Pow(256, 7) == 0x100_0000_0000_0000;
  }

  /** Three bytes or fewer stay below 2^24. */
  lemma ShortIsSmall(b: seq<Byte>)
    requires |b| <= 3
    ensures ToNat(b) < 0x100_0000
  {
    ToNatBound(b);
    PowersOf256();
    hide Pow, ToNat;
    assert |b| == 0 || |b| == 1 || |b| == 2 || |b| == 3;
  }
}
