/** The prime-order group and the primitives the sigma protocols call (offchain/src/crypto/bls.ts).

    A point of the order-r subgroup is represented by its discrete logarithm, a residue below r;
    compression is any injective encoding to 48 bytes with its partial inverse; the hash, the HMAC
    and the deterministic nonce are arbitrary functions of the right output range. */
module Group {
  import opened Arith
  import opened Bytes
  import opened Options

  const SCALAR_BYTES: nat := 32

  type Point = nat

  type Scalar = nat

  datatype Suite = Suite(
    r: nat,
    encode: Point -> seq<Byte>,
    decode: seq<Byte> -> Option<Point>,
    hash: seq<Byte> -> seq<Byte>,
    hmac: (seq<Byte>, seq<Byte>) -> seq<Byte>,
    nonce: (Scalar, seq<Byte>) -> Scalar)

  ghost predicate Valid(s: Suite) {
    && s.r >= 2 && IsPrime(s.r) && s.r <= Pow(256, SCALAR_BYTES)
    && (forall p :: 0 <= p < s.r ==> |s.encode(p)| == 48 && s.decode(s.encode(p)) == Some(p))
    && (forall b :: s.decode(b).Some? ==> s.decode(b).value < s.r)
    && (forall m :: |s.hash(m)| == 32)
    && (forall k, m :: |s.hmac(k, m)| == 32)
    && (forall w, m :: 0 < w < s.r ==> 0 < s.nonce(w, m) < s.r)
  }

  function ScalarMul(k: int, p: int, r: nat): Point
    requires r > 0
  {
    (k * p) % r
  }

  function PointAdd(p: Point, q: Point, r: nat): Point
    requires r > 0
  {
    (p + q) % r
  }

  function PointSub(p: Point, q: Point, r: nat): Point
    requires r > 0
  {
    (p - q) % r
  }

  /** reduceScalar(bytesToBigIntBE(c)). */
  function Reduce(c: seq<Byte>, r: nat): (k: Scalar)
    requires r > 0
    ensures k < r
  {
    ToNat(c) % r
  }

  /** z = (k + c w) mod r, as the provers compute it. */
  function Response(k: Scalar, c: Scalar, w: Scalar, r: nat): (z: Scalar)
    requires r > 0
    ensures z < r
  {
    (k + (c * w) % r) % r
  }

  /** [z]p == t + [c]q, as the verifiers test it. */
  predicate Balanced(z: int, p: int, t: int, c: int, q: int, r: nat)
    requires r > 0
  {
    ScalarMul(z, p, r) == PointAdd(t % r, ScalarMul(c, q, r), r)
  }

  lemma BalancedIsCong(z: int, p: int, t: int, c: int, q: int, r: nat)
    requires r > 0
    ensures Balanced(z, p, t, c, q, r) <==> Cong(z * p, t + c * q, r)
  {
    hide Cong;
    CongMod(t, r);
    CongMod(c * q, r);
    CongAdd(t % r, t, (c * q) % r, c * q, r);
    var rhs := t % r + (c * q) % r;
    CongIsModEqual(z * p, rhs, r);
    CongSym(rhs, t + c * q, r);
    if Cong(z * p, rhs, r) {
      CongTrans(z * p, rhs, t + c * q, r);
    }
    if Cong(z * p, t + c * q, r) {
      CongTrans(z * p, t + c * q, rhs, r);
    }
  }

  /** A simulated branch balances whatever the statement is. */
  lemma SimulatedBalances(z: int, p: int, c: int, q: int, r: nat)
    requires r > 0
    ensures Balanced(z, p, PointSub(ScalarMul(z, p, r), ScalarMul(c, q, r), r), c, q, r)
  {
    var d := (z * p) % r - (c * q) % r;
    CongMod(z * p, r);
    CongMod(c * q, r);
    CongMod(d, r);
    CongAdd((z * p) % r, z * p, (c * q) % r, c * q, r);
    CongTrans(d % r, d, z * p - c * q, r);
    CongAdd(d % r, z * p - c * q, c * q, c * q, r);
    CongSym(d % r + c * q, z * p, r);
    BalancedIsCong(z, p, d % r, c, q, r);
  }

  /** The honest response (k + c w) mod r balances exactly when the witness satisfies the statement
      or the challenge vanishes. */
  lemma RealBalancesIff(k: int, p: int, c: int, w: int, q: int, r: nat)
    requires IsPrime(r)
    ensures Balanced((k + (c * w) % r) % r, p, ScalarMul(k, p, r), c, q, r)
            <==> Cong(c, 0, r) || Cong(w * p, q, r)
  {
    assert r > 0;
    hide Cong, IsPrime, Balanced, ScalarMul;
    var z := (k + (c * w) % r) % r;
    ResponseIsCong(k, c, w, p, r);
    KeptCommitment(k, p, c * q, r);
    BalancedIsCong(z, p, ScalarMul(k, p, r), c, q, r);
    SameSides(z * p, (k + c * w) * p, ScalarMul(k, p, r) + c * q, k * p + c * q, r);
    DifferenceOfSides(k, p, c, w, q);
    DifferenceIsCong((k + c * w) * p, k * p + c * q, c * (w * p - q), r);
    ProductIsCong(c, w * p, q, r);
  }

  lemma ResponseIsCong(k: int, c: int, w: int, p: int, r: nat)
    requires r > 0
    ensures Cong(((k + (c * w) % r) % r) * p, (k + c * w) * p, r)
  {
    hide Cong;
    var z := (k + (c * w) % r) % r;
    CongMod(c * w, r);
    CongRefl(k, r);
    CongRefl(p, r);
    CongMod(k + (c * w) % r, r);
    CongAdd(k, k, (c * w) % r, c * w, r);
    CongTrans(z, k + (c * w) % r, k + c * w, r);
    CongMul(z, k + c * w, p, p, r);
  }

  lemma KeptCommitment(k: int, p: int, x: int, r: nat)
    requires r > 0
    ensures Cong(ScalarMul(k, p, r) + x, k * p + x, r)
  {
    hide Cong;
    CongMod(k * p, r);
    CongRefl(x, r);
    CongAdd((k * p) % r, k * p, x, x, r);
  }

  lemma DifferenceOfSides(k: int, p: int, c: int, w: int, q: int)
    ensures (k + c * w) * p - (k * p + c * q) == c * (w * p - q)
  {
    assert (k + c * w) * p == k * p + (c * w) * p;
    assert (c * w) * p == c * (w * p);
    assert c * (w * p - q) == c * (w * p) - c * q;
  }

  lemma DifferenceIsCong(x: int, y: int, d: int, r: nat)
    requires r > 0 && x - y == d
    ensures Cong(x, y, r) <==> Cong(d, 0, r)
  {
  }

  /** A prime divides a product exactly when it divides a factor. */
  lemma ProductIsCong(c: int, x: int, y: int, r: nat)
    requires IsPrime(r)
    ensures Cong(c * (x - y), 0, r) <==> Cong(c, 0, r) || Cong(x, y, r)
  {
    hide IsPrime;
    PrimeDividesProduct(c, x - y, r);
  }

  /** The same on residues: the challenge is 0 or the statement point is [w]p. */
  lemma RealBalancesExactly(k: Scalar, p: Point, c: Scalar, w: Scalar, q: Point, r: nat)
    requires IsPrime(r) && c < r && q < r
    ensures Balanced(Response(k, c, w, r), p, ScalarMul(k, p, r), c, q, r) <==> c == 0 || ScalarMul(w, p, r) == q
  {
    hide Balanced, ScalarMul, Cong, IsPrime;
    RealBalancesIff(k, p, c, w, q, r);
    ResidueIsZero(c, r);
    MulIsCong(w, p, q, r);
  }

  lemma MulIsCong(w: int, p: int, q: Point, r: nat)
    requires q < r
    ensures ScalarMul(w, p, r) == q <==> Cong(w * p, q, r)
  {
    CongIsModEqual(w * p, q, r);
    SmallMod(q, r);
  }

  lemma SameSides(x: int, x': int, y: int, y': int, r: nat)
    requires r > 0 && Cong(x, x', r) && Cong(y, y', r)
    ensures Cong(x, y, r) <==> Cong(x', y', r)
  {
    CongSym(x, x', r);
    CongSym(y, y', r);
    if Cong(x, y, r) {
      CongTrans(x', x, y, r);
      CongTrans(x', y, y', r);
    }
    if Cong(x', y', r) {
      CongTrans(x, x', y', r);
      CongTrans(x, y', y, r);
    }
  }

  /** The witness two accepting answers to one commitment give away. */
  ghost function Extract(z: int, z': int, c: int, c': int, r: nat): (w: Scalar)
    requires IsPrime(r) && !Cong(c, c', r)
    ensures w < r
  {
    CongMod(c - c', r);
    ((z - z') * Inverse((c - c') % r, r)) % r
  }

  lemma ExtractSound(z: int, z': int, p: int, t: int, c: int, c': int, q: int, r: nat)
    requires IsPrime(r) && !Cong(c, c', r)
    requires Balanced(z, p, t, c, q, r) && Balanced(z', p, t, c', q, r)
    ensures Cong(Extract(z, z', c, c', r) * p, q, r)
  {
    var dz, dc := z - z', c - c';
    DifferencesBalance(z, z', p, t, c, c', q, r);
    NonzeroDifference(c, c', r);
    var i := Inverse(dc % r, r);
    hide Cong, Balanced;
    CongMod(dc, r);
    CongRefl(i, r);
    CongMul(dc, dc % r, i, i, r);
    CongTrans(dc * i, (dc % r) * i, 1, r);
    Solve(dz, dc, i, p, q, r);
  }

  lemma NonzeroDifference(c: int, c': int, r: nat)
    requires r > 0 && !Cong(c, c', r)
    ensures 0 < (c - c') % r < r
  {
  }

  lemma DifferencesBalance(z: int, z': int, p: int, t: int, c: int, c': int, q: int, r: nat)
    requires r > 0
    requires Balanced(z, p, t, c, q, r) && Balanced(z', p, t, c', q, r)
    ensures Cong((z - z') * p, (c - c') * q, r)
  {
    hide Cong, Balanced;
    BalancedIsCong(z, p, t, c, q, r);
    BalancedIsCong(z', p, t, c', q, r);
    CongAdd(z * p, t + c * q, z' * p, t + c' * q, r);
    assert (z - z') * p == z * p - z' * p;
    assert (c - c') * q == c * q - c' * q;
  }

  /** From dz p = dc q and dc i = 1: (dz i) p = q. */
  lemma Solve(dz: int, dc: int, i: int, p: int, q: int, r: nat)
    requires r > 0 && Cong(dz * p, dc * q, r) && Cong(dc * i, 1, r)
    ensures Cong((dz * i) % r * p, q, r)
  {
    hide Cong;
    CongRefl(i, r);
    CongRefl(p, r);
    CongRefl(q, r);
    CongMul(dz * p, dc * q, i, i, r);
    CongMul(dc * i, 1, q, q, r);
    assert (dc * q) * i == (dc * i) * q;
    CongTrans((dz * p) * i, (dc * i) * q, 1 * q, r);
    CongMod(dz * i, r);
    CongMul((dz * i) % r, dz * i, p, p, r);
    assert (dz * i) * p == (dz * p) * i;
    CongTrans((dz * i) % r * p, (dz * p) * i, q, r);
  }

  lemma ExtractExact(z: Scalar, z': Scalar, p: Point, t: Point, c: Scalar, c': Scalar, q: Point, r: nat)
    requires IsPrime(r) && c < r && c' < r && c != c' && q < r
    requires Balanced(z, p, t, c, q, r) && Balanced(z', p, t, c', q, r)
    ensures !Cong(c, c', r)
    ensures ScalarMul(Extract(z, z', c, c', r), p, r) == q
  {
    hide *;
    CongIsModEqual(c, c', r);
    SmallMod(c, r);
    SmallMod(c', r);
    ExtractSound(z, z', p, t, c, c', q, r);
    MulIsCong(Extract(z, z', c, c', r), p, q, r);
  }
}
