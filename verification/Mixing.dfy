/** One honest mix with its proofs (offchain/scripts/gen-mix-kat.ts:121-165): every input proves that some
    output is its own re-randomisation. */
module Mixing {
  import opened Arith
  import opened Bytes
  import opened Options
  import opened Group
  import opened Ownership
  import opened Permutations
  import opened SigmaOr

  function StatementsOf(outputs: seq<Box>): (stmts: seq<Statement>)
    ensures |stmts| == |outputs|
  {
    seq(|outputs|, i requires 0 <= i < |outputs| => Statement(outputs[i].a, outputs[i].b))
  }

  ghost predicate BoxesInGroup(boxes: seq<Box>, r: nat) {
    forall i :: 0 <= i < |boxes| ==> boxes[i].a < r && boxes[i].b < r
  }

  /** The prover of input i: its real branch is where the permutation puts its output, its witness the
      scalar of its re-randomisation. */
  function ProverOf(s: Suite, inputs: seq<Box>, perm: seq<nat>, ys: seq<Scalar>, outputs: seq<Box>, ctx: seq<Byte>, i: nat): Prover
    requires i < |inputs| == |perm| == |ys|
  {
    Prover(s, inputs[i].a, inputs[i].b, StatementsOf(outputs), perm[i], ys[i], ctx)
  }

  /** What a mix needs of its inputs and scalars. */
  ghost predicate Mixable(s: Suite, inputs: seq<Box>, perm: seq<nat>, ys: seq<Scalar>) {
    && Valid(s) && 2 <= |inputs| <= 255 && |inputs| == |perm| == |ys| && IsPermutation(perm)
    && BoxesInGroup(inputs, s.r) && forall i :: 0 <= i < |ys| ==> 0 < ys[i] < s.r
  }

  lemma MixInGroup(inputs: seq<Box>, perm: seq<nat>, ys: seq<Scalar>, outputs: seq<Box>, r: nat)
    requires r > 0 && IsMix(inputs, perm, ys, outputs, r)
    ensures BoxesInGroup(outputs, r)
  {
    forall j | 0 <= j < |outputs| ensures outputs[j].a < r && outputs[j].b < r {
      var i := Preimage(perm, j);
      assert outputs[perm[i]] == Rerandomize(inputs[i], ys[i], r);
    }
  }

  lemma ProverIsReady(s: Suite, inputs: seq<Box>, perm: seq<nat>, ys: seq<Scalar>, outputs: seq<Box>, ctx: seq<Byte>, i: nat)
    requires Mixable(s, inputs, perm, ys) && IsMix(inputs, perm, ys, outputs, s.r) && i < |inputs|
    ensures ProverOf(s, inputs, perm, ys, outputs, ctx, i).Ready()
    ensures RealHolds(ProverOf(s, inputs, perm, ys, outputs, ctx, i))
  {
    MixInGroup(inputs, perm, ys, outputs, s.r);
    hide Valid, Reduce;
    assert outputs[perm[i]] == Rerandomize(inputs[i], ys[i], s.r);
  }

  /** Every proof of an honest mix is accepted, at every width, by the input it is made for. */
  lemma MixProofsVerify(s: Suite, inputs: seq<Box>, perm: seq<nat>, ys: seq<Scalar>, outputs: seq<Box>, ctx: seq<Byte>, i: nat)
    requires Mixable(s, inputs, perm, ys) && IsMix(inputs, perm, ys, outputs, s.r) && i < |inputs|
    ensures ProverOf(s, inputs, perm, ys, outputs, ctx, i).Ready()
    ensures Accepts(s, inputs[i].a, inputs[i].b, StatementsOf(outputs), ProverOf(s, inputs, perm, ys, outputs, ctx, i).Proof(), ctx)
  {
    ProverIsReady(s, inputs, perm, ys, outputs, ctx, i);
    ProofAcceptedIff(ProverOf(s, inputs, perm, ys, outputs, ctx, i));
    hide *;
  }

  /** scenario (gen-mix-kat.ts:121-165), on given boxes, permutation and scalars: the outputs are the mix,
      and its own check of every proof passes. The context is any function of the outputs. */
  method Scenario(s: Suite, inputs: seq<Box>, perm: seq<nat>, ys: seq<Scalar>, ctxOf: seq<Box> -> seq<Byte>)
    returns (r: Option<(seq<Box>, seq<seq<Branch>>)>)
    requires Mixable(s, inputs, perm, ys)
    ensures r.Some? && var (outputs, proofs) := r.value;
            && IsMix(inputs, perm, ys, outputs, s.r) && |proofs| == |inputs|
            && forall i :: 0 <= i < |inputs| ==>
                 Accepts(s, inputs[i].a, inputs[i].b, StatementsOf(outputs), proofs[i], ctxOf(outputs))
    ensures AllUsable(inputs, s.r) ==>
              AllUsable(r.value.0, s.r) && multiset(Owners(inputs, s.r)) == multiset(Owners(r.value.0, s.r))
  {
    hide IsPrime, Accepts, IsMix, InGroup, Valid, Usable, Owner;
    assert s.r >= 2 && IsPrime(s.r) by {
      PrimeSuite(s);
    }
    var outputs := MixOutputs(inputs, perm, ys, s.r);
    ghost var mixed := outputs[..];
    var ctx, statements := ctxOf(outputs[..]), StatementsOf(outputs[..]);
    MixWidth(inputs, perm, ys, mixed, s.r);
    var proofs: seq<seq<Branch>> := [];
    for i := 0 to |inputs|
      invariant outputs[..] == mixed && |proofs| == i
      invariant forall j :: 0 <= j < i ==> Accepts(s, inputs[j].a, inputs[j].b, statements, proofs[j], ctx)
    {
      MixProofsVerify(s, inputs, perm, ys, mixed, ctx, i);
      ReadyInGroup(s, inputs, perm, ys, mixed, ctx, i);
      var proof := ProveSigmaOr(s, inputs[i].a, inputs[i].b, statements, perm[i], ys[i], ctx);
      var verified := VerifySigmaOr(s, inputs[i].a, inputs[i].b, statements, proof.value, ctx);
      if verified != Some(true) {
        return None;
      }
      proofs := proofs + [proof.value];
    }
    if AllUsable(inputs, s.r) {
      MixKeepsOwners(inputs, perm, ys, mixed, s.r);
    }
    r := Some((outputs[..], proofs));
  }

  lemma PrimeSuite(s: Suite)
    requires Valid(s)
    ensures s.r >= 2 && IsPrime(s.r)
  {
  }

  lemma MixWidth(inputs: seq<Box>, perm: seq<nat>, ys: seq<Scalar>, outputs: seq<Box>, r: nat)
    requires r > 0 && IsMix(inputs, perm, ys, outputs, r)
    ensures |outputs| == |inputs|
  {
  }

  lemma ReadyInGroup(s: Suite, inputs: seq<Box>, perm: seq<nat>, ys: seq<Scalar>, outputs: seq<Box>, ctx: seq<Byte>, i: nat)
    requires i < |inputs| == |perm| == |ys| && ProverOf(s, inputs, perm, ys, outputs, ctx, i).Ready()
    ensures InGroup(s, inputs[i].a, inputs[i].b, StatementsOf(outputs))
    ensures 2 <= |outputs| <= 255 && perm[i] < |outputs| && 0 < ys[i] < s.r
  {
  }
}
