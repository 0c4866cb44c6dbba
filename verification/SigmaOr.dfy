/** The N-way sigma-OR proof and its two verifiers (offchain/src/crypto/sigma_or.ts,
    crypto/ref/src/sigma_or.rs). */
module SigmaOr {
  import opened Arith
  import opened Bytes
  import opened Options
  import opened Group
  import FS = FiatShamir

  datatype Statement = Statement(ap: Point, bp: Point)

  datatype Branch = Branch(t0: seq<Byte>, t1: seq<Byte>, c: seq<Byte>, z: seq<Byte>)

  datatype ProveError = TooFewStatements | IndexOutOfRange | WitnessOutOfRange | TooManyStatements

  ghost predicate InGroup(s: Suite, a: Point, b: Point, stmts: seq<Statement>) {
    a < s.r && b < s.r && forall i :: 0 <= i < |stmts| ==> stmts[i].ap < s.r && stmts[i].bp < s.r
  }

  function StatementBytes(s: Suite, stmts: seq<Statement>): seq<FS.Pair> {
    seq(|stmts|, i requires 0 <= i < |stmts| => FS.Pair(s.encode(stmts[i].ap), s.encode(stmts[i].bp)))
  }

  function Message(s: Suite, a: Point, b: Point, stmts: seq<Statement>, ctx: seq<Byte>, i: nat, role: FS.Role): seq<Byte> {
    FS.NonceMessage(s.encode(a), s.encode(b), StatementBytes(s, stmts), ctx, i, role)
  }

  /** The prover's inputs, past its argument checks. */
  datatype Prover = Prover(s: Suite, a: Point, b: Point, stmts: seq<Statement>, index: nat, secret: Scalar, ctx: seq<Byte>)
  {
    ghost predicate Ready() {
      && Valid(s) && InGroup(s, a, b, stmts)
      && 2 <= |stmts| <= 255 && index < |stmts| && 0 < secret < s.r
    }

    /** The nonce r_p of the real branch. */
    function RealNonce(): Scalar { s.nonce(secret, Message(s, a, b, stmts, ctx, index, FS.Real)) }

    function SimC(i: nat): seq<Byte> { s.hmac(FromNat(secret, SCALAR_BYTES), Message(s, a, b, stmts, ctx, i, FS.SimC)) }

    function SimZ(i: nat): Scalar { s.nonce(secret, Message(s, a, b, stmts, ctx, i, FS.SimZ)) }

    /** Commitment to base `base` of branch `i`, whose statement point on that base is `target`. */
    function Commitment(i: nat, base: Point, target: Point): Point
      requires s.r > 0
    {
      if i == index then ScalarMul(RealNonce(), base, s.r)
      else PointSub(ScalarMul(SimZ(i), base, s.r), ScalarMul(Reduce(SimC(i), s.r), target, s.r), s.r)
    }

    function Commitments(): (c: seq<FS.Pair>)
      requires s.r > 0
      ensures |c| == |stmts|
    {
      seq(|stmts|, i requires 0 <= i < |stmts| =>
        FS.Pair(s.encode(Commitment(i, a, stmts[i].ap)), s.encode(Commitment(i, b, stmts[i].bp))))
    }

    function GlobalChallenge(): (c: seq<Byte>)
      requires Ready()
      ensures |c| == 32
    {
      Challenge(s, a, b, stmts, Commitments(), ctx)
    }

    lemma SimsHaveLength()
      requires Valid(s)
      ensures forall i :: 0 <= i ==> |SimC(i)| == 32
    {
    }

    /** The simulated challenges, in branch order. */
    function Sims(): (c: seq<seq<Byte>>)
      requires Valid(s) && index < |stmts|
      ensures AllOfLength(c, 32)
    {
      SimsHaveLength();
      seq(|stmts| - 1, i requires 0 <= i < |stmts| - 1 => SimC(if i < index then i else i + 1))
    }

    function RealC(): seq<Byte>
      requires Ready()
    {
      XorBytes(GlobalChallenge(), XorAll(Sims(), 32))
    }

    function RealZ(): Scalar
      requires Ready()
    {
      Response(RealNonce(), Reduce(RealC(), s.r), secret, s.r)
    }

    function BranchAt(i: nat): Branch
      requires Ready() && i < |stmts|
    {
      Branch(Commitments()[i].fst, Commitments()[i].snd,
             if i == index then RealC() else SimC(i),
             FromNat(if i == index then RealZ() else SimZ(i), SCALAR_BYTES))
    }

    function Proof(): seq<Branch>
      requires Ready()
    {
      seq(|stmts|, i requires 0 <= i < |stmts| => BranchAt(i))
    }
  }

  function Challenge(s: Suite, a: Point, b: Point, stmts: seq<Statement>, commitments: seq<FS.Pair>, ctx: seq<Byte>): seq<Byte>
    requires 2 <= |stmts| <= 255 && |commitments| == |stmts|
  {
    s.hash(FS.FsInput(FS.SigmaOr(s.encode(a), s.encode(b), StatementBytes(s, stmts), commitments, ctx)))
  }

  function CommitmentBytes(proof: seq<Branch>): seq<FS.Pair> {
    seq(|proof|, i requires 0 <= i < |proof| => FS.Pair(proof[i].t0, proof[i].t1))
  }

  function Challenges(proof: seq<Branch>): seq<seq<Byte>> {
    seq(|proof|, i requires 0 <= i < |proof| => proof[i].c)
  }

  predicate GoodLengths(br: Branch) {
    |br.t0| == 48 && |br.t1| == 48 && |br.c| == 32 && |br.z| == SCALAR_BYTES
  }

  /** One branch decodes, its response is canonical and both equations balance. */
  predicate BranchAccepts(s: Suite, a: Point, b: Point, st: Statement, br: Branch)
    requires s.r > 0
  {
    && ToNat(br.z) < s.r && s.decode(br.t0).Some? && s.decode(br.t1).Some?
    && Balanced(ToNat(br.z), a, s.decode(br.t0).value, Reduce(br.c, s.r), st.ap, s.r)
    && Balanced(ToNat(br.z), b, s.decode(br.t1).value, Reduce(br.c, s.r), st.bp, s.r)
  }

  predicate Shaped(stmts: seq<Statement>, proof: seq<Branch>) {
    2 <= |stmts| == |proof| && forall i :: 0 <= i < |proof| ==> GoodLengths(proof[i])
  }

  /** What an accepted proof is. */
  ghost predicate Accepts(s: Suite, a: Point, b: Point, stmts: seq<Statement>, proof: seq<Branch>, ctx: seq<Byte>)
    requires s.r > 0
  {
    && Shaped(stmts, proof) && |stmts| <= 255
    && Challenge(s, a, b, stmts, CommitmentBytes(proof), ctx) == XorAll(Challenges(proof), 32)
    && forall i :: 0 <= i < |stmts| ==> BranchAccepts(s, a, b, stmts[i], proof[i])
  }

  // ---- the prover ----

  /** proveSigmaOr (sigma_or.ts:117-204). The width limit of the hash input is hit last. */
  method ProveSigmaOr(s: Suite, a: Point, b: Point, stmts: seq<Statement>, realIndex: int, secret: int, ctx: seq<Byte>)
    returns (res: Result<seq<Branch>, ProveError>)
    requires Valid(s) && InGroup(s, a, b, stmts)
    ensures |stmts| < 2 ==> res == Err(TooFewStatements)
    ensures |stmts| >= 2 && !(0 <= realIndex < |stmts|) ==> res == Err(IndexOutOfRange)
    ensures |stmts| >= 2 && 0 <= realIndex < |stmts| && !(0 < secret < s.r) ==> res == Err(WitnessOutOfRange)
    ensures |stmts| > 255 && 0 <= realIndex < |stmts| && 0 < secret < s.r ==> res == Err(TooManyStatements)
    ensures 2 <= |stmts| <= 255 && 0 <= realIndex < |stmts| && 0 < secret < s.r
            ==> res == Ok(Prover(s, a, b, stmts, realIndex, secret, ctx).Proof())
  {
    hide ScalarMul, Reduce, IsPrime, Response, XorAll, FS.FsInput, FS.NonceMessage, XorBytes;
    var N := |stmts|;
    if N < 2 {
      return Err(TooFewStatements);
    }
    if realIndex < 0 || realIndex >= N {
      return Err(IndexOutOfRange);
    }
    if secret <= 0 || secret >= s.r {
      return Err(WitnessOutOfRange);
    }
    var p := Prover(s, a, b, stmts, realIndex, secret, ctx);
    var t0Pts := new Point[N](_ => 0);
    var t1Pts := new Point[N](_ => 0);
    var cPerBranch := new seq<Byte>[N](_ => []);
    var zPerBranch := new Scalar[N](_ => 0);
    var r_p := p.RealNonce();
    t0Pts[realIndex] := ScalarMul(r_p, a, s.r);
    t1Pts[realIndex] := ScalarMul(r_p, b, s.r);
    SimulateBranches(p, t0Pts, t1Pts, cPerBranch, zPerBranch);
    var commitments := EncodeCommitments(p, t0Pts, t1Pts);
    var input := FS.FsInputSigmaOr(s.encode(a), s.encode(b), StatementBytes(s, stmts), commitments, ctx);
    if input.None? {
      return Err(TooManyStatements);
    }
    var cGlobal := s.hash(input.value);
    var sims := CollectSims(p, cPerBranch);
    cPerBranch[realIndex] := XorBytes(cGlobal, XorAll(sims, 32));
    zPerBranch[realIndex] := Response(r_p, Reduce(cPerBranch[realIndex], s.r), secret, s.r);
    var branches := Assemble(p, commitments, cPerBranch, zPerBranch);
    res := Ok(branches);
  }

  /** The loop over simulated branches (sigma_or.ts:157-171). */
  method SimulateBranches(p: Prover, t0Pts: array<Point>, t1Pts: array<Point>, cPerBranch: array<seq<Byte>>, zPerBranch: array<Scalar>)
    requires p.s.r > 0 && p.index < |p.stmts| == t0Pts.Length == t1Pts.Length == cPerBranch.Length == zPerBranch.Length
    requires t0Pts != t1Pts && t0Pts != zPerBranch && t1Pts != zPerBranch
    requires t0Pts[p.index] == p.Commitment(p.index, p.a, p.stmts[p.index].ap)
    requires t1Pts[p.index] == p.Commitment(p.index, p.b, p.stmts[p.index].bp)
    modifies t0Pts, t1Pts, cPerBranch, zPerBranch
    ensures forall k :: 0 <= k < |p.stmts| ==> t0Pts[k] == p.Commitment(k, p.a, p.stmts[k].ap)
    ensures forall k :: 0 <= k < |p.stmts| ==> t1Pts[k] == p.Commitment(k, p.b, p.stmts[k].bp)
    ensures forall k :: 0 <= k < |p.stmts| && k != p.index ==> cPerBranch[k] == p.SimC(k) && zPerBranch[k] == p.SimZ(k)
  {
    hide ScalarMul, PointSub, Reduce, FS.NonceMessage;
    for i := 0 to |p.stmts|
      invariant t0Pts[p.index] == p.Commitment(p.index, p.a, p.stmts[p.index].ap)
      invariant t1Pts[p.index] == p.Commitment(p.index, p.b, p.stmts[p.index].bp)
      invariant forall k :: 0 <= k < i ==> t0Pts[k] == p.Commitment(k, p.a, p.stmts[k].ap)
      invariant forall k :: 0 <= k < i ==> t1Pts[k] == p.Commitment(k, p.b, p.stmts[k].bp)
      invariant forall k :: 0 <= k < i && k != p.index ==> cPerBranch[k] == p.SimC(k) && zPerBranch[k] == p.SimZ(k)
    {
      if i != p.index {
        var c_i, z_i := p.SimC(i), p.SimZ(i);
        cPerBranch[i] := c_i;
        zPerBranch[i] := z_i;
        var cMod := Reduce(c_i, p.s.r);
        t0Pts[i] := PointSub(ScalarMul(z_i, p.a, p.s.r), ScalarMul(cMod, p.stmts[i].ap, p.s.r), p.s.r);
        t1Pts[i] := PointSub(ScalarMul(z_i, p.b, p.s.r), ScalarMul(cMod, p.stmts[i].bp, p.s.r), p.s.r);
      }
    }
  }

  method EncodeCommitments(p: Prover, t0Pts: array<Point>, t1Pts: array<Point>) returns (commitments: seq<FS.Pair>)
    requires p.s.r > 0 && |p.stmts| == t0Pts.Length == t1Pts.Length
    requires forall k :: 0 <= k < |p.stmts| ==> t0Pts[k] == p.Commitment(k, p.a, p.stmts[k].ap)
    requires forall k :: 0 <= k < |p.stmts| ==> t1Pts[k] == p.Commitment(k, p.b, p.stmts[k].bp)
    ensures commitments == p.Commitments()
  {
    hide ScalarMul, PointSub, Reduce, FS.NonceMessage, Prover.Commitment;
    commitments := [];
    for i := 0 to |p.stmts|
      invariant commitments == p.Commitments()[..i]
    {
      commitments := commitments + [FS.Pair(p.s.encode(t0Pts[i]), p.s.encode(t1Pts[i]))];
    }
  }

  /** cPerBranch without the real branch (sigma_or.ts:185). */
  method CollectSims(p: Prover, cPerBranch: array<seq<Byte>>) returns (sims: seq<seq<Byte>>)
    requires Valid(p.s) && p.index < |p.stmts| == cPerBranch.Length
    requires forall k :: 0 <= k < |p.stmts| && k != p.index ==> cPerBranch[k] == p.SimC(k)
    ensures sims == p.Sims()
  {
    hide Valid, Prover.SimC;
    sims := [];
    for i := 0 to |p.stmts|
      invariant sims == p.Sims()[..if i <= p.index then i else i - 1]
    {
      if i != p.index {
        sims := sims + [cPerBranch[i]];
      }
    }
  }

  method Assemble(p: Prover, commitments: seq<FS.Pair>, cPerBranch: array<seq<Byte>>, zPerBranch: array<Scalar>) returns (branches: seq<Branch>)
    requires p.Ready() && |p.stmts| == cPerBranch.Length == zPerBranch.Length && commitments == p.Commitments()
    requires forall k :: 0 <= k < |p.stmts| && k != p.index ==> cPerBranch[k] == p.SimC(k) && zPerBranch[k] == p.SimZ(k)
    requires cPerBranch[p.index] == p.RealC() && zPerBranch[p.index] == p.RealZ()
    ensures branches == p.Proof()
  {
    hide Valid, InGroup, Prover.RealC, Prover.RealZ, Prover.SimC, Prover.SimZ, Prover.Commitments, FromNat;
    branches := [];
    for i := 0 to |p.stmts|
      invariant branches == p.Proof()[..i]
    {
      var br := Branch(commitments[i].fst, commitments[i].snd, cPerBranch[i], FromNat(zPerBranch[i], SCALAR_BYTES));
      assert br == p.BranchAt(i);
      branches := branches + [br];
    }
  }

  // ---- the two verifiers ----

  /** verifySigmaOr (sigma_or.ts:207-262). `None` is the exception the hash input raises when the
      width exceeds 255. */
  method VerifySigmaOr(s: Suite, a: Point, b: Point, stmts: seq<Statement>, proof: seq<Branch>, ctx: seq<Byte>)
    returns (res: Option<bool>)
    requires Valid(s)
    ensures res == None <==> Shaped(stmts, proof) && |stmts| > 255
    ensures res == Some(true) <==> Accepts(s, a, b, stmts, proof, ctx)
  {
    hide IsPrime, XorAll, FS.FsInput, BranchAccepts;
    var N := |stmts|;
    if N < 2 || |proof| != N {
      return Some(false);
    }
    var shaped := CheckLengths(proof);
    if !shaped {
      return Some(false);
    }
    var input := FS.FsInputSigmaOr(s.encode(a), s.encode(b), StatementBytes(s, stmts), CommitmentBytes(proof), ctx);
    if input.None? {
      return None;
    }
    var recombined := SameBytes(s.hash(input.value), XorAll(Challenges(proof), 32));
    if !recombined {
      return Some(false);
    }
    for i := 0 to N
      invariant forall k :: 0 <= k < i ==> BranchAccepts(s, a, b, stmts[k], proof[k])
    {
      var ok := CheckBranch(s, a, b, stmts[i], proof[i]);
      if !ok {
        return Some(false);
      }
    }
    return Some(true);
  }

  /** sigma_or.ts:217-222. */
  method CheckLengths(proof: seq<Branch>) returns (ok: bool)
    ensures ok <==> forall k :: 0 <= k < |proof| ==> GoodLengths(proof[k])
  {
    for i := 0 to |proof|
      invariant forall k :: 0 <= k < i ==> GoodLengths(proof[k])
    {
      if |proof[i].t0| != 48 || |proof[i].t1| != 48 || |proof[i].c| != 32 || |proof[i].z| != SCALAR_BYTES {
        return false;
      }
    }
    return true;
  }

  /** sigma_or.ts:237-239. */
  method SameBytes(x: seq<Byte>, y: seq<Byte>) returns (same: bool)
    requires |x| == |y|
    ensures same <==> x == y
  {
    for i := 0 to |x|
      invariant x[..i] == y[..i]
    {
      if x[i] != y[i] {
        return false;
      }
    }
    return true;
  }

  /** sigma_or.ts:243-259. */
  method CheckBranch(s: Suite, a: Point, b: Point, st: Statement, br: Branch) returns (ok: bool)
    requires s.r > 0
    ensures ok <==> BranchAccepts(s, a, b, st, br)
  {
    var z := ToNat(br.z);
    if z >= s.r {
      return false;
    }
    var t0, t1 := s.decode(br.t0), s.decode(br.t1);
    if t0.None? || t1.None? {
      return false;
    }
    var cMod := Reduce(br.c, s.r);
    if !Balanced(z, a, t0.value, cMod, st.ap, s.r) {
      return false;
    }
    if !Balanced(z, b, t1.value, cMod, st.bp, s.r) {
      return false;
    }
    return true;
  }

  /** `WidthPanic` is the assertion in fs_hash_sigma_or. */
  datatype CryptoError = BadPointEncoding | NotInSubgroup | BadScalar | BadLength | WidthPanic

  datatype RustStatement = RustStatement(ap: seq<Byte>, bp: seq<Byte>)

  function Encoded(s: Suite, stmts: seq<Statement>): seq<RustStatement> {
    seq(|stmts|, i requires 0 <= i < |stmts| => RustStatement(s.encode(stmts[i].ap), s.encode(stmts[i].bp)))
  }

  function RustPairs(stmts: seq<RustStatement>): seq<FS.Pair> {
    seq(|stmts|, i requires 0 <= i < |stmts| => FS.Pair(stmts[i].ap, stmts[i].bp))
  }

  /** G1::from_compressed (bls.rs:39-55); `check` is whether the library deserialises the bytes at all, which is
      asked before they are decompressed. */
  function FromCompressed(s: Suite, check: seq<Byte> -> bool, bytes: seq<Byte>): Result<Point, CryptoError> {
    if |bytes| != 48 then Err(BadLength)
    else if !check(bytes) then Err(NotInSubgroup)
    else
      var p := s.decode(bytes);
      if p.None? then Err(BadPointEncoding) else Ok(p.value)
  }

  /** Two points, the first error winning. */
  function TwoPoints(s: Suite, check: seq<Byte> -> bool, x: seq<Byte>, y: seq<Byte>): Result<Statement, CryptoError> {
    var p, q := FromCompressed(s, check, x), FromCompressed(s, check, y);
    if p.Err? then Err(p.error) else if q.Err? then Err(q.error) else Ok(Statement(p.value, q.value))
  }

  /** One branch: an error for a bad point or scalar, else whether it is accepted. */
  function RustBranch(s: Suite, check: seq<Byte> -> bool, a: Point, b: Point, st: RustStatement, br: Branch): Result<bool, CryptoError>
    requires s.r > 0
  {
    var stmt, commitment := TwoPoints(s, check, st.ap, st.bp), TwoPoints(s, check, br.t0, br.t1);
    if stmt.Err? then Err(stmt.error)
    else if commitment.Err? then Err(commitment.error)
    else if ToNat(br.z) >= s.r then Err(BadScalar)
    else Ok(BranchAccepts(s, a, b, stmt.value, br))
  }

  /** Among the first `n` branches the first that does not accept decides. */
  function RustBranches(s: Suite, check: seq<Byte> -> bool, a: Point, b: Point, stmts: seq<RustStatement>, branches: seq<Branch>, n: nat): Result<bool, CryptoError>
    requires s.r > 0 && n <= |stmts| && n <= |branches|
  {
    if n == 0 then Ok(true)
    else
      var before := RustBranches(s, check, a, b, stmts, branches, n - 1);
      if before != Ok(true) then before else RustBranch(s, check, a, b, stmts[n - 1], branches[n - 1])
  }

  predicate RustShaped(stmts: seq<RustStatement>, branches: seq<Branch>) {
    2 <= |stmts| == |branches| && forall i :: 0 <= i < |branches| ==> GoodLengths(branches[i])
  }

  lemma ChallengeLengths(branches: seq<Branch>)
    requires forall i :: 0 <= i < |branches| ==> GoodLengths(branches[i])
    ensures AllOfLength(Challenges(branches), 32)
  {
  }

  /** The answer to any bytes: shape, then the bases, then the width, then the challenges, then the branches. */
  function RustVerdict(s: Suite, check: seq<Byte> -> bool, a: seq<Byte>, b: seq<Byte>, stmts: seq<RustStatement>, branches: seq<Branch>, ctx: seq<Byte>):
    Result<bool, CryptoError>
    requires s.r > 0
  {
    var bases := TwoPoints(s, check, a, b);
    if !RustShaped(stmts, branches) then Err(BadLength)
    else if bases.Err? then Err(bases.error)
    else if |stmts| > 255 then Err(WidthPanic)
    else
      ChallengeLengths(branches);
      if s.hash(FS.FsInput(FS.SigmaOr(a, b, RustPairs(stmts), CommitmentBytes(branches), ctx))) != XorAll(Challenges(branches), 32)
      then Ok(false)
      else RustBranches(s, check, bases.value.ap, bases.value.bp, stmts, branches, |stmts|)
  }

  /** verify (crypto/ref/src/sigma_or.rs:21-87): everything arrives as bytes, malformed input is an error, not `false`. */
  method VerifyRust(s: Suite, check: seq<Byte> -> bool, a: seq<Byte>, b: seq<Byte>, stmts: seq<RustStatement>, branches: seq<Branch>, ctx: seq<Byte>)
    returns (res: Result<bool, CryptoError>)
    requires Valid(s)
    ensures res == RustVerdict(s, check, a, b, stmts, branches, ctx)
  {
    hide IsPrime, XorAll, FS.FsInput, BranchAccepts, RustBranch, FromCompressed;
    var n := |stmts|;
    if n < 2 || |branches| != n {
      return Err(BadLength);
    }
    var shaped := CheckLengths(branches);
    if !shaped {
      return Err(BadLength);
    }
    var a_pt, b_pt := FromCompressed(s, check, a), FromCompressed(s, check, b);
    if a_pt.Err? {
      return Err(a_pt.error);
    }
    if b_pt.Err? {
      return Err(b_pt.error);
    }
    var input := FS.FsInputSigmaOr(a, b, RustPairs(stmts), CommitmentBytes(branches), ctx);
    if input.None? {
      return Err(WidthPanic);
    }
    ChallengeLengths(branches);
    var xor_acc := XorChallenges(branches);
    if s.hash(input.value) != xor_acc {
      return Ok(false);
    }
    for i := 0 to n
      invariant RustBranches(s, check, a_pt.value, b_pt.value, stmts, branches, i) == Ok(true)
    {
      var ok := CheckRustBranch(s, check, a_pt.value, b_pt.value, stmts[i], branches[i]);
      if ok != Ok(true) {
        Decided(s, check, a_pt.value, b_pt.value, stmts, branches, i + 1, n);
        return ok;
      }
    }
    return Ok(true);
  }

  lemma {:induction false} Decided(s: Suite, check: seq<Byte> -> bool, a: Point, b: Point, stmts: seq<RustStatement>, branches: seq<Branch>, m: nat, n: nat)
    requires s.r > 0 && m <= n <= |stmts| && n <= |branches|
    requires RustBranches(s, check, a, b, stmts, branches, m) != Ok(true)
    ensures RustBranches(s, check, a, b, stmts, branches, n) == RustBranches(s, check, a, b, stmts, branches, m)
  {
    hide RustBranch;
    if m < n {
      Decided(s, check, a, b, stmts, branches, m, n - 1);
    }
  }

  /** sigma_or.rs:56-61. */
  method XorChallenges(branches: seq<Branch>) returns (acc: seq<Byte>)
    requires AllOfLength(Challenges(branches), 32)
    ensures acc == XorAll(Challenges(branches), 32)
  {
    acc := Zeros(32);
    for i := 0 to |branches|
      invariant acc == XorAll(Challenges(branches)[..i], 32)
    {
      assert Challenges(branches)[..i + 1][..i] == Challenges(branches)[..i];
      assert Challenges(branches)[i] == branches[i].c;
      acc := XorBytes(acc, branches[i].c);
    }
    assert Challenges(branches)[..|branches|] == Challenges(branches);
  }

  /** sigma_or.rs:67-85: points first, then the scalar, then the two equations. */
  method CheckRustBranch(s: Suite, check: seq<Byte> -> bool, a: Point, b: Point, st: RustStatement, br: Branch) returns (res: Result<bool, CryptoError>)
    requires s.r > 0 && GoodLengths(br)
    ensures res == RustBranch(s, check, a, b, st, br)
  {
    hide Balanced;
    var ap_pt, bp_pt := FromCompressed(s, check, st.ap), FromCompressed(s, check, st.bp);
    if ap_pt.Err? {
      return Err(ap_pt.error);
    }
    if bp_pt.Err? {
      return Err(bp_pt.error);
    }
    var t0_pt, t1_pt := FromCompressed(s, check, br.t0), FromCompressed(s, check, br.t1);
    if t0_pt.Err? {
      return Err(t0_pt.error);
    }
    if t1_pt.Err? {
      return Err(t1_pt.error);
    }
    var z := ToNat(br.z);
    if z >= s.r {
      return Err(BadScalar);
    }
    var c := Reduce(br.c, s.r);
    if !Balanced(z, a, t0_pt.value, c, ap_pt.value, s.r) {
      return Ok(false);
    }
    if !Balanced(z, b, t1_pt.value, c, bp_pt.value, s.r) {
      return Ok(false);
    }
    return Ok(true);
  }

  /** A point has one encoding, as compressed points do. */
  ghost predicate Canonical(s: Suite) { forall x :: s.decode(x).Some? ==> x == s.encode(s.decode(x).value) }

  /** Whatever decompresses to a group member passes the check. */
  ghost predicate Admits(s: Suite, check: seq<Byte> -> bool) { forall x :: s.decode(x).Some? ==> check(x) }

  /** The points that bytes stand for. */
  ghost predicate StandsFor(s: Suite, a: seq<Byte>, b: seq<Byte>, stmts: seq<RustStatement>,
                            pa: Point, pb: Point, pts: seq<Statement>) {
    InGroup(s, pa, pb, pts) && a == s.encode(pa) && b == s.encode(pb) && stmts == Encoded(s, pts)
  }

  lemma RustBranchAccepts(s: Suite, check: seq<Byte> -> bool, a: Point, b: Point, st: Statement, br: Branch)
    requires Valid(s) && Admits(s, check) && st.ap < s.r && st.bp < s.r && GoodLengths(br)
    ensures RustBranch(s, check, a, b, RustStatement(s.encode(st.ap), s.encode(st.bp)), br) == Ok(true) <==> BranchAccepts(s, a, b, st, br)
  {
    hide Balanced, IsPrime, Reduce;
  }

  lemma {:induction false} RustBranchesAccept(s: Suite, check: seq<Byte> -> bool, pa: Point, pb: Point, pts: seq<Statement>, branches: seq<Branch>, n: nat)
    requires Valid(s) && Admits(s, check) && InGroup(s, pa, pb, pts) && n <= |pts| == |branches|
    requires forall i :: 0 <= i < |branches| ==> GoodLengths(branches[i])
    ensures RustBranches(s, check, pa, pb, Encoded(s, pts), branches, n) == Ok(true) <==>
            forall i :: 0 <= i < n ==> BranchAccepts(s, pa, pb, pts[i], branches[i])
  {
    hide RustBranch, BranchAccepts, GoodLengths, Valid;
    if n > 0 {
      RustBranchesAccept(s, check, pa, pb, pts, branches, n - 1);
      RustBranchAccepts(s, check, pa, pb, pts[n - 1], branches[n - 1]);
    }
  }

  /** On encodings of points the Rust verifier accepts exactly what the TypeScript verifier accepts. */
  lemma VerifiersAgree(s: Suite, check: seq<Byte> -> bool, pa: Point, pb: Point, pts: seq<Statement>, branches: seq<Branch>, ctx: seq<Byte>)
    requires Valid(s) && Admits(s, check) && InGroup(s, pa, pb, pts)
    ensures RustVerdict(s, check, s.encode(pa), s.encode(pb), Encoded(s, pts), branches, ctx) == Ok(true) <==>
            Accepts(s, pa, pb, pts, branches, ctx)
  {
    hide IsPrime, XorAll, FS.FsInput, BranchAccepts, RustBranches, GoodLengths;
    assert RustPairs(Encoded(s, pts)) == StatementBytes(s, pts);
    if RustShaped(Encoded(s, pts), branches) {
      RustBranchesAccept(s, check, pa, pb, pts, branches, |pts|);
    }
  }

  predicate AllDecode(s: Suite, check: seq<Byte> -> bool, stmts: seq<RustStatement>, n: nat)
    requires n <= |stmts|
  {
    forall i :: 0 <= i < n ==> TwoPoints(s, check, stmts[i].ap, stmts[i].bp).Ok?
  }

  function DecodedPoints(s: Suite, check: seq<Byte> -> bool, stmts: seq<RustStatement>): seq<Statement>
    requires AllDecode(s, check, stmts, |stmts|)
  {
    seq(|stmts|, i requires 0 <= i < |stmts| => TwoPoints(s, check, stmts[i].ap, stmts[i].bp).value)
  }

  lemma {:induction false} AcceptedDecodes(s: Suite, check: seq<Byte> -> bool, a: Point, b: Point, stmts: seq<RustStatement>, branches: seq<Branch>, n: nat)
    requires s.r > 0 && n <= |stmts| && n <= |branches| && RustBranches(s, check, a, b, stmts, branches, n) == Ok(true)
    ensures AllDecode(s, check, stmts, n)
  {
    hide BranchAccepts, TwoPoints;
    if n > 0 {
      AcceptedDecodes(s, check, a, b, stmts, branches, n - 1);
    }
  }

  lemma BasesDecode(s: Suite, check: seq<Byte> -> bool, a: seq<Byte>, b: seq<Byte>)
    requires Valid(s) && Canonical(s) && TwoPoints(s, check, a, b).Ok?
    ensures var p := TwoPoints(s, check, a, b).value; p.ap < s.r && p.bp < s.r && a == s.encode(p.ap) && b == s.encode(p.bp)
  {
    hide IsPrime;
  }

  lemma DecodedStandsFor(s: Suite, check: seq<Byte> -> bool, a: seq<Byte>, b: seq<Byte>, stmts: seq<RustStatement>)
    requires Valid(s) && Canonical(s) && TwoPoints(s, check, a, b).Ok? && AllDecode(s, check, stmts, |stmts|)
    ensures var p := TwoPoints(s, check, a, b).value; StandsFor(s, a, b, stmts, p.ap, p.bp, DecodedPoints(s, check, stmts))
  {
    BasesDecode(s, check, a, b);
    forall i | 0 <= i < |stmts|
      ensures var p := TwoPoints(s, check, stmts[i].ap, stmts[i].bp).value;
              p.ap < s.r && p.bp < s.r && stmts[i].ap == s.encode(p.ap) && stmts[i].bp == s.encode(p.bp)
    {
      BasesDecode(s, check, stmts[i].ap, stmts[i].bp);
    }
    hide Valid, Canonical, TwoPoints;
    assert Encoded(s, DecodedPoints(s, check, stmts)) == stmts;
  }

  lemma AcceptedStandsFor(s: Suite, check: seq<Byte> -> bool, a: seq<Byte>, b: seq<Byte>, stmts: seq<RustStatement>, branches: seq<Branch>, ctx: seq<Byte>)
    requires Valid(s) && Canonical(s) && RustVerdict(s, check, a, b, stmts, branches, ctx) == Ok(true)
    ensures exists pa, pb, pts :: StandsFor(s, a, b, stmts, pa, pb, pts)
  {
    PrimeIsPositive(s);
    hide Valid, XorAll, FS.FsInput, RustBranches, GoodLengths, TwoPoints, Canonical, AllDecode, StandsFor;
    AcceptedDecodes(s, check, TwoPoints(s, check, a, b).value.ap, TwoPoints(s, check, a, b).value.bp, stmts, branches, |stmts|);
    DecodedStandsFor(s, check, a, b, stmts);
  }

  lemma VerdictOnPoints(s: Suite, check: seq<Byte> -> bool, a: seq<Byte>, b: seq<Byte>, stmts: seq<RustStatement>, branches: seq<Branch>, ctx: seq<Byte>,
                        pa: Point, pb: Point, pts: seq<Statement>)
    requires Valid(s) && Admits(s, check) && StandsFor(s, a, b, stmts, pa, pb, pts)
    ensures RustVerdict(s, check, a, b, stmts, branches, ctx) == Ok(true) <==> Accepts(s, pa, pb, pts, branches, ctx)
  {
    VerifiersAgree(s, check, pa, pb, pts, branches, ctx);
    hide RustVerdict, Accepts, Valid;
  }

  /** Whatever bytes arrive, the Rust verifier accepts them if and only if they are the encodings of points
      for which the proof is accepted. */
  lemma RustAcceptsIff(s: Suite, check: seq<Byte> -> bool, a: seq<Byte>, b: seq<Byte>, stmts: seq<RustStatement>, branches: seq<Branch>, ctx: seq<Byte>)
    requires Valid(s) && Admits(s, check) && Canonical(s)
    ensures RustVerdict(s, check, a, b, stmts, branches, ctx) == Ok(true) <==>
            exists pa, pb, pts :: StandsFor(s, a, b, stmts, pa, pb, pts) && Accepts(s, pa, pb, pts, branches, ctx)
  {
    PrimeIsPositive(s);
    hide *;
    if RustVerdict(s, check, a, b, stmts, branches, ctx) == Ok(true) {
      AcceptedStandsFor(s, check, a, b, stmts, branches, ctx);
      var pa, pb, pts :| StandsFor(s, a, b, stmts, pa, pb, pts);
      VerdictOnPoints(s, check, a, b, stmts, branches, ctx, pa, pb, pts);
    }
    if pa, pb, pts :| StandsFor(s, a, b, stmts, pa, pb, pts) && Accepts(s, pa, pb, pts, branches, ctx) {
      VerdictOnPoints(s, check, a, b, stmts, branches, ctx, pa, pb, pts);
    }
  }

  lemma PrimeIsPositive(s: Suite)
    requires Valid(s)
    ensures s.r > 0
  {
  }

  // ---- completeness, exactly ----

  lemma ProofIsShaped(p: Prover)
    requires p.Ready()
    ensures Shaped(p.stmts, p.Proof())
    ensures CommitmentBytes(p.Proof()) == p.Commitments()
  {
    forall i | 0 <= i < |p.stmts| ensures GoodLengths(p.Proof()[i]) {
      assert p.Proof()[i] == p.BranchAt(i);
      assert p.Commitment(i, p.a, p.stmts[i].ap) < p.s.r && p.Commitment(i, p.b, p.stmts[i].bp) < p.s.r;
    }
  }

  lemma SimsAreTheOthers(p: Prover)
    requires p.Ready()
    ensures var cs := Challenges(p.Proof()); cs[..p.index] + cs[p.index + 1..] == p.Sims() && cs[p.index] == p.RealC()
  {
    hide Valid, InGroup, Prover.RealC, Prover.RealZ, Prover.SimC, Prover.SimZ, Prover.Commitments, FromNat;
    var cs := Challenges(p.Proof());
    forall k | 0 <= k < |p.stmts| ensures cs[k] == if k == p.index then p.RealC() else p.SimC(k) {
      assert p.Proof()[k] == p.BranchAt(k);
    }
    var others := cs[..p.index] + cs[p.index + 1..];
    forall k | 0 <= k < |p.stmts| - 1 ensures others[k] == p.Sims()[k] {
      assert others[k] == cs[if k < p.index then k else k + 1];
    }
  }

  /** The branch challenges always XOR to the global one. */
  lemma ChallengesRecombine(p: Prover)
    requires p.Ready()
    ensures AllOfLength(Challenges(p.Proof()), 32)
    ensures XorAll(Challenges(p.Proof()), 32) == p.GlobalChallenge()
  {
    ProofIsShaped(p);
    ChallengeLengths(p.Proof());
    SimsAreTheOthers(p);
    hide Valid, InGroup, XorAll, XorBytes, GoodLengths, Challenges, Prover.Sims, Prover.GlobalChallenge, Prover.Proof;
    XorAllWithout(Challenges(p.Proof()), p.index, 32);
    var x := XorAll(p.Sims(), 32);
    XorTwice(x, p.GlobalChallenge());
    XorBytesComm(x, p.RealC());
  }

  lemma XorBytesComm(a: seq<Byte>, b: seq<Byte>)
    requires |a| == |b|
    ensures XorBytes(a, b) == XorBytes(b, a)
  {
    forall k | 0 <= k < |a| ensures XorBytes(a, b)[k] == XorBytes(b, a)[k] {
      XorComm(a[k], b[k]);
    }
  }

  lemma ResponseInRange(p: Prover, i: nat)
    requires p.Ready() && i < |p.stmts|
    ensures (if i == p.index then p.RealZ() else p.SimZ(i)) < p.s.r <= Pow(256, SCALAR_BYTES)
  {
    hide IsPrime, Response, Pow, FS.NonceMessage;
  }

  lemma CommitmentInRange(p: Prover, i: nat, base: Point, target: Point)
    requires p.Ready()
    ensures p.Commitment(i, base, target) < p.s.r
    ensures p.s.decode(p.s.encode(p.Commitment(i, base, target))) == Some(p.Commitment(i, base, target))
  {
    hide IsPrime, Prover.SimC, Prover.SimZ, Prover.RealNonce, Reduce;
  }

  lemma BranchDecodes(p: Prover, i: nat)
    requires p.Ready() && i < |p.stmts|
    ensures var br := p.BranchAt(i);
            && ToNat(br.z) == (if i == p.index then p.RealZ() else p.SimZ(i)) < p.s.r
            && p.s.decode(br.t0) == Some(p.Commitment(i, p.a, p.stmts[i].ap))
            && p.s.decode(br.t1) == Some(p.Commitment(i, p.b, p.stmts[i].bp))
  {
    hide Valid, InGroup, FromNat, ToNat, Pow, Prover.RealZ, Prover.SimZ, Prover.RealC, Prover.SimC, Prover.Commitment;
    ResponseInRange(p, i);
    FromNatRoundTrip(if i == p.index then p.RealZ() else p.SimZ(i), SCALAR_BYTES);
    CommitmentInRange(p, i, p.a, p.stmts[i].ap);
    CommitmentInRange(p, i, p.b, p.stmts[i].bp);
  }

  lemma SimulatedAccepts(p: Prover, i: nat)
    requires p.Ready() && i < |p.stmts| && i != p.index
    ensures BranchAccepts(p.s, p.a, p.b, p.stmts[i], p.BranchAt(i))
  {
    BranchDecodes(p, i);
    var c := Reduce(p.SimC(i), p.s.r);
    SimulatedBalances(p.SimZ(i), p.a, c, p.stmts[i].ap, p.s.r);
    SimulatedBalances(p.SimZ(i), p.b, c, p.stmts[i].bp, p.s.r);
  }

  ghost predicate RealHolds(p: Prover)
    requires p.Ready()
  {
    || Reduce(p.RealC(), p.s.r) == 0
    || (ScalarMul(p.secret, p.a, p.s.r) == p.stmts[p.index].ap && ScalarMul(p.secret, p.b, p.s.r) == p.stmts[p.index].bp)
  }

  lemma ReadyFacts(p: Prover)
    requires p.Ready()
    ensures IsPrime(p.s.r) && p.a < p.s.r && p.b < p.s.r
    ensures p.stmts[p.index].ap < p.s.r && p.stmts[p.index].bp < p.s.r
  {
    hide IsPrime;
  }

  lemma RealAcceptsIff(p: Prover)
    requires p.Ready()
    ensures BranchAccepts(p.s, p.a, p.b, p.stmts[p.index], p.BranchAt(p.index)) <==> RealHolds(p)
  {
    hide Balanced, ScalarMul, Reduce, IsPrime, ToNat, Response, Valid, InGroup, Prover.RealC, Prover.Commitments;
    var c, st := Reduce(p.RealC(), p.s.r), p.stmts[p.index];
    ReadyFacts(p);
    BranchDecodes(p, p.index);
    RealBalancesExactly(p.RealNonce(), p.a, c, p.secret, st.ap, p.s.r);
    RealBalancesExactly(p.RealNonce(), p.b, c, p.secret, st.bp, p.s.r);
  }

  /** A proof made for any real index, context and other statements, true or false, is accepted
      exactly when the witness satisfies the real statement or the real challenge is 0 mod r. */
  lemma ProofAcceptedIff(p: Prover)
    requires p.Ready()
    ensures Accepts(p.s, p.a, p.b, p.stmts, p.Proof(), p.ctx) <==> RealHolds(p)
  {
    hide BranchAccepts, RealHolds, Valid, XorAll, Reduce, GoodLengths, IsPrime;
    ProofIsShaped(p);
    ChallengesRecombine(p);
    RealAcceptsIff(p);
    forall i | 0 <= i < |p.stmts| && i != p.index ensures BranchAccepts(p.s, p.a, p.b, p.stmts[i], p.Proof()[i]) {
      SimulatedAccepts(p, i);
    }
    assert p.Proof()[p.index] == p.BranchAt(p.index);
  }

  // ---- special soundness ----

  /** Two accepted transcripts with one set of commitments but different global challenges (two
      hash functions: the forked run) differ in a branch challenge. */
  lemma SomeChallengeDiffers(s: Suite, s': Suite, a: Point, b: Point, stmts: seq<Statement>,
                             proof: seq<Branch>, proof': seq<Branch>, ctx: seq<Byte>) returns (i: nat)
    requires Valid(s) && s' == s.(hash := s'.hash)
    requires Accepts(s, a, b, stmts, proof, ctx) && Accepts(s', a, b, stmts, proof', ctx)
    requires CommitmentBytes(proof) == CommitmentBytes(proof')
    requires Challenge(s, a, b, stmts, CommitmentBytes(proof), ctx) != Challenge(s', a, b, stmts, CommitmentBytes(proof'), ctx)
    ensures i < |stmts| && proof[i].c != proof'[i].c
  {
    hide IsPrime, XorAll, FS.FsInput, BranchAccepts, Valid;
    assert Challenges(proof) != Challenges(proof');
    i :| 0 <= i < |stmts| && proof[i].c != proof'[i].c;
  }

  /** A branch whose two challenges differ mod r gives a scalar that is a witness for it. */
  lemma WitnessExtracted(s: Suite, s': Suite, a: Point, b: Point, stmts: seq<Statement>,
                         proof: seq<Branch>, proof': seq<Branch>, ctx: seq<Byte>, i: nat) returns (w: Scalar)
    requires Valid(s) && s' == s.(hash := s'.hash) && InGroup(s, a, b, stmts)
    requires Accepts(s, a, b, stmts, proof, ctx) && Accepts(s', a, b, stmts, proof', ctx)
    requires CommitmentBytes(proof) == CommitmentBytes(proof')
    requires i < |stmts| && Reduce(proof[i].c, s.r) != Reduce(proof'[i].c, s.r)
    ensures w < s.r
    ensures ScalarMul(w, a, s.r) == stmts[i].ap && ScalarMul(w, b, s.r) == stmts[i].bp
  {
    assert CommitmentBytes(proof)[i] == CommitmentBytes(proof')[i];
    assert BranchAccepts(s, a, b, stmts[i], proof[i]) && BranchAccepts(s', a, b, stmts[i], proof'[i]);
    var c, c', z, z' := Reduce(proof[i].c, s.r), Reduce(proof'[i].c, s.r), ToNat(proof[i].z), ToNat(proof'[i].z);
    ExtractExact(z, z', a, s.decode(proof[i].t0).value, c, c', stmts[i].ap, s.r);
    ExtractExact(z, z', b, s.decode(proof[i].t1).value, c, c', stmts[i].bp, s.r);
    w := Extract(z, z', c, c', s.r);
  }
}
