/** The one-statement proofs: Schnorr, which guards withdrawal, and the DH tuple
    (offchain/src/crypto/schnorr.ts, dhtuple.ts). */
module Schnorr {
  import opened Arith
  import opened Bytes
  import opened Options
  import opened Group
  import FS = FiatShamir

  /** A transcript: the commitments (one for Schnorr, two for a DH tuple) and the response. */
  datatype Proof = Proof(t: seq<seq<Byte>>, z: seq<Byte>)

  /** A statement [x]bases[i] == points[i] for one x: one base for Schnorr, two for a DH tuple. */
  datatype Claim = Claim(bases: seq<Point>, points: seq<Point>)

  ghost predicate WellFormed(s: Suite, c: Claim) {
    && 1 <= |c.bases| == |c.points| <= 2
    && forall i :: 0 <= i < |c.bases| ==> c.bases[i] < s.r && c.points[i] < s.r
  }

  function Encodings(s: Suite, ps: seq<Point>): seq<seq<Byte>> {
    seq(|ps|, i requires 0 <= i < |ps| => s.encode(ps[i]))
  }

  function Input(s: Suite, c: Claim, t: seq<seq<Byte>>, ctx: seq<Byte>): seq<Byte>
    requires 1 <= |c.bases| == |c.points| == |t| <= 2
  {
    if |t| == 1 then FS.FsInput(FS.Schnorr(s.encode(c.bases[0]), s.encode(c.points[0]), t[0], ctx))
    else FS.FsInput(FS.DHTuple(s.encode(c.bases[0]), s.encode(c.bases[1]), s.encode(c.points[0]), s.encode(c.points[1]), t[0], t[1], ctx))
  }

  /** The points the prover derives from its secret (publicPoint, dhPair). */
  function ClaimOf(s: Suite, bases: seq<Point>, secret: Scalar): Claim
    requires s.r > 0
  {
    Claim(bases, seq(|bases|, i requires 0 <= i < |bases| => ScalarMul(secret, bases[i], s.r)))
  }

  function NonceInput(s: Suite, c: Claim, ctx: seq<Byte>): seq<Byte> {
    Flatten(Encodings(s, c.bases) + Encodings(s, c.points)) + ctx
  }

  function Commit(s: Suite, bases: seq<Point>, k: Scalar): seq<Point>
    requires s.r > 0
  {
    seq(|bases|, i requires 0 <= i < |bases| => ScalarMul(k, bases[i], s.r))
  }

  function Prove(s: Suite, bases: seq<Point>, secret: Scalar, ctx: seq<Byte>): Proof
    requires s.r > 0 && 1 <= |bases| <= 2
  {
    var claim := ClaimOf(s, bases, secret);
    var k := s.nonce(secret, NonceInput(s, claim, ctx));
    var t := Encodings(s, Commit(s, bases, k));
    var c := Reduce(s.hash(Input(s, claim, t, ctx)), s.r);
    Proof(t, FromNat(Response(k, c, secret, s.r), SCALAR_BYTES))
  }

  predicate Verify(s: Suite, claim: Claim, p: Proof, ctx: seq<Byte>)
    requires s.r > 0 && 1 <= |claim.bases| == |claim.points| <= 2
  {
    && |p.t| == |claim.bases| && (forall i :: 0 <= i < |p.t| ==> |p.t[i]| == 48) && |p.z| == SCALAR_BYTES
    && ToNat(p.z) < s.r
    && var c := Reduce(s.hash(Input(s, claim, p.t, ctx)), s.r);
       forall i :: 0 <= i < |p.t| ==>
         s.decode(p.t[i]).Some? && Balanced(ToNat(p.z), claim.bases[i], s.decode(p.t[i]).value, c, claim.points[i], s.r)
  }

  /** Every proof made with a secret in [1, r) verifies against the points it was made for. */
  lemma ProofVerifies(s: Suite, bases: seq<Point>, secret: Scalar, ctx: seq<Byte>)
    requires Valid(s) && 1 <= |bases| <= 2 && 0 < secret < s.r
    requires forall i :: 0 <= i < |bases| ==> bases[i] < s.r
    ensures Verify(s, ClaimOf(s, bases, secret), Prove(s, bases, secret, ctx), ctx)
  {
    hide Response, Balanced, IsPrime, FromNat, ToNat, FS.FsInput, Pow;
    var claim, p := ClaimOf(s, bases, secret), Prove(s, bases, secret, ctx);
    var k := s.nonce(secret, NonceInput(s, claim, ctx));
    var c := Reduce(s.hash(Input(s, claim, p.t, ctx)), s.r);
    FromNatRoundTrip(Response(k, c, secret, s.r), SCALAR_BYTES);
    forall i | 0 <= i < |bases|
      ensures s.decode(p.t[i]) == Some(ScalarMul(k, bases[i], s.r)) && |p.t[i]| == 48
      ensures Balanced(Response(k, c, secret, s.r), bases[i], ScalarMul(k, bases[i], s.r), c, claim.points[i], s.r)
    {
      assert Commit(s, bases, k)[i] == ScalarMul(k, bases[i], s.r) < s.r;
      RealBalancesExactly(k, bases[i], c, secret, claim.points[i], s.r);
    }
  }

  /** Two accepted answers to the same commitments under different challenges give the secret:
      one scalar that opens every point of the claim. */
  lemma SecretExtracted(s: Suite, s': Suite, claim: Claim, p: Proof, p': Proof, ctx: seq<Byte>) returns (w: Scalar)
    requires Valid(s) && s' == s.(hash := s'.hash) && WellFormed(s, claim) && p.t == p'.t
    requires Verify(s, claim, p, ctx) && Verify(s', claim, p', ctx)
    requires Reduce(s.hash(Input(s, claim, p.t, ctx)), s.r) != Reduce(s'.hash(Input(s', claim, p'.t, ctx)), s.r)
    ensures w < s.r && forall i :: 0 <= i < |claim.bases| ==> ScalarMul(w, claim.bases[i], s.r) == claim.points[i]
  {
    hide Balanced, IsPrime, Reduce, ToNat, ScalarMul, Input, Cong, Extract;
    var c := Reduce(s.hash(Input(s, claim, p.t, ctx)), s.r);
    var c' := Reduce(s'.hash(Input(s', claim, p'.t, ctx)), s.r);
    var z, z' := ToNat(p.z), ToNat(p'.z);
    ExtractExact(z, z', claim.bases[0], s.decode(p.t[0]).value, c, c', claim.points[0], s.r);
    forall i | 0 <= i < |claim.bases|
      ensures ScalarMul(Extract(z, z', c, c', s.r), claim.bases[i], s.r) == claim.points[i]
    {
      ExtractExact(z, z', claim.bases[i], s.decode(p.t[i]).value, c, c', claim.points[i], s.r);
    }
    w := Extract(z, z', c, c', s.r);
  }
}
