/** Challenge inputs and nonce messages (offchain/src/crypto/hash.ts, sigma_or.ts:64-112). */
module FiatShamir {
  import Arith
  import opened Bytes
  import opened Options

  const POINT_BYTES: nat := 48

  const DOMAIN_TAG_V1: seq<Byte> := Ascii("lovejoin/sigmajoin/v1/")

  /** A pair of compressed points: (a'_i, b'_i) or (t_{i,0}, t_{i,1}). */
  datatype Pair = Pair(fst: seq<Byte>, snd: seq<Byte>)

  datatype Statement =
    | Schnorr(g: seq<Byte>, u: seq<Byte>, t: seq<Byte>, ctx: seq<Byte>)
    | DHTuple(g: seq<Byte>, h: seq<Byte>, u: seq<Byte>, v: seq<Byte>, t0: seq<Byte>, t1: seq<Byte>, ctx: seq<Byte>)
    | SigmaOr(a: seq<Byte>, b: seq<Byte>, branches: seq<Pair>, commitments: seq<Pair>, ctx: seq<Byte>)

  function Chunks(ps: seq<Pair>): seq<seq<Byte>> {
    if ps == [] then [] else Chunks(ps[..|ps| - 1]) + [ps[|ps| - 1].fst, ps[|ps| - 1].snd]
  }

  /** The group elements of a statement, in hashing order. */
  function Elements(s: Statement): seq<seq<Byte>> {
    match s
    case Schnorr(g, u, t, _) => [g, u, t]
    case DHTuple(g, h, u, v, t0, t1, _) => [g, h, u, v, t0, t1]
    case SigmaOr(a, b, branches, commitments, _) => [a, b] + Chunks(branches) + Chunks(commitments)
  }

  /** Why fsInputSigmaOr throws (hash.ts:122-128). */
  predicate BadWidth(branches: seq<Pair>, commitments: seq<Pair>) {
    |branches| != |commitments| || |branches| < 2 || |branches| > 255
  }

  function Header(s: Statement): seq<Byte>
    requires s.SigmaOr? ==> |s.branches| < 256
  {
    match s
    case Schnorr(_, _, _, _) => [1]
    case DHTuple(_, _, _, _, _, _, _) => [2]
    case SigmaOr(_, _, branches, _, _) => [3, |branches|]
  }

  function FsInput(s: Statement): seq<Byte>
    requires s.SigmaOr? ==> !BadWidth(s.branches, s.commitments)
  {
    DOMAIN_TAG_V1 + Header(s) + (Flatten(Elements(s)) + s.ctx)
  }

  ghost predicate Points(parts: seq<seq<Byte>>) {
    AllOfLength(parts, POINT_BYTES)
  }

  /** All points are 48 bytes and a sigma-OR width is one the program accepts. */
  ghost predicate WellSized(s: Statement) {
    Points(Elements(s)) && (s.SigmaOr? ==> !BadWidth(s.branches, s.commitments))
  }

  lemma {:induction false} ChunksLength(ps: seq<Pair>)
    ensures |Chunks(ps)| == 2 * |ps|
  {
    if ps != [] {
      ChunksLength(ps[..|ps| - 1]);
    }
  }

  lemma {:induction false} ChunksInjective(ps: seq<Pair>, qs: seq<Pair>)
    requires Chunks(ps) == Chunks(qs)
    ensures ps == qs
  {
    ChunksLength(ps);
    ChunksLength(qs);
    if ps != [] {
      var p, q := ps[|ps| - 1], qs[|qs| - 1];
      var n := |Chunks(ps)|;
      assert Chunks(ps)[n - 2] == p.fst && Chunks(ps)[n - 1] == p.snd;
      assert Chunks(qs)[n - 2] == q.fst && Chunks(qs)[n - 1] == q.snd;
      assert Chunks(ps)[..n - 2] == Chunks(ps[..|ps| - 1]) && Chunks(qs)[..n - 2] == Chunks(qs[..|qs| - 1]);
      ChunksInjective(ps[..|ps| - 1], qs[..|qs| - 1]);
      assert ps == ps[..|ps| - 1] + [p] && qs == qs[..|qs| - 1] + [q];
    }
  }

  lemma {:induction false} FlattenLength(parts: seq<seq<Byte>>)
    requires Points(parts)
    ensures |Flatten(parts)| == POINT_BYTES * |parts|
  {
    if parts != [] {
      FlattenLength(parts[..|parts| - 1]);
    }
  }

  /** Concatenated points split back, because every point has the same width. */
  lemma {:induction false} FlattenInjective(xs: seq<seq<Byte>>, ys: seq<seq<Byte>>)
    requires Points(xs) && Points(ys) && |xs| == |ys| && Flatten(xs) == Flatten(ys)
    ensures xs == ys
  {
    if xs != [] {
      var last := |xs| - 1;
      FlattenLength(xs[..last]);
      FlattenLength(ys[..last]);
      var n := |Flatten(xs[..last])|;
      assert Flatten(xs)[..n] == Flatten(xs[..last]) && Flatten(ys)[..n] == Flatten(ys[..last]);
      assert Flatten(xs)[n..] == xs[last] && Flatten(ys)[n..] == ys[last];
      FlattenInjective(xs[..last], ys[..last]);
      assert xs == xs[..last] + [xs[last]] && ys == ys[..last] + [ys[last]];
    }
  }

  lemma SplitAt(a: seq<Byte>, b: seq<Byte>, c: seq<Byte>, d: seq<Byte>)
    requires a + b == c + d && |a| == |c|
    ensures a == c && b == d
  {
    assert (a + b)[..|a|] == a && (c + d)[..|c|] == c;
    assert (a + b)[|a|..] == b && (c + d)[|c|..] == d;
  }

  lemma SameHeader(s: Statement, t: Statement)
    requires WellSized(s) && WellSized(t) && FsInput(s) == FsInput(t)
    ensures Header(s) == Header(t)
  {
    var n := |DOMAIN_TAG_V1|;
    assert FsInput(s)[n] == Header(s)[0] && FsInput(t)[n] == Header(t)[0];
    if s.SigmaOr? {
      assert FsInput(s)[n + 1] == Header(s)[1];
      assert FsInput(t)[n + 1] == Header(t)[1];
    }
  }

  function Count(header: seq<Byte>): int
    requires |header| > 0 && (|header| == 1 ==> header[0] <= 2)
  {
    if |header| == 1 then (if header[0] == 1 then 3 else 6) else 2 + 4 * (header[1] as int)
  }

  /** The header fixes how many points follow. */
  lemma ElementCount(s: Statement)
    requires WellSized(s)
    ensures |Elements(s)| == Count(Header(s))
    ensures |Flatten(Elements(s))| == POINT_BYTES * |Elements(s)|
  {
    FlattenLength(Elements(s));
    if s.SigmaOr? {
      ChunksLength(s.branches);
      ChunksLength(s.commitments);
    }
  }

  lemma SamePayload(s: Statement, t: Statement)
    requires WellSized(s) && WellSized(t) && FsInput(s) == FsInput(t) && Header(s) == Header(t)
    ensures Flatten(Elements(s)) + s.ctx == Flatten(Elements(t)) + t.ctx
  {
    CancelFront(DOMAIN_TAG_V1 + Header(s), Flatten(Elements(s)) + s.ctx, Flatten(Elements(t)) + t.ctx);
  }

  lemma CancelFront(front: seq<Byte>, x: seq<Byte>, y: seq<Byte>)
    requires front + x == front + y
    ensures x == y
  {
    SplitAt(front, x, front, y);
  }

  /** Equal challenge inputs come from the same protocol, width, points, commitments and context. */
  lemma FsInputInjective(s: Statement, t: Statement)
    requires WellSized(s) && WellSized(t) && FsInput(s) == FsInput(t)
    ensures s == t
  {
    SameHeader(s, t);
    SamePayload(s, t);
    ElementCount(s);
    ElementCount(t);
    SplitAt(Flatten(Elements(s)), s.ctx, Flatten(Elements(t)), t.ctx);
    FlattenInjective(Elements(s), Elements(t));
    SameElements(s, t);
  }

  lemma SameElements(s: Statement, t: Statement)
    requires WellSized(s) && WellSized(t) && Header(s) == Header(t) && Elements(s) == Elements(t) && s.ctx == t.ctx
    ensures s == t
  {
    if s.SigmaOr? {
      var x, y := Elements(s), Elements(t);
      var n := |Chunks(s.branches)|;
      ChunksLength(s.branches);
      ChunksLength(t.branches);
      assert x[..2] == [s.a, s.b] && y[..2] == [t.a, t.b];
      assert s.a == x[0] && s.b == x[1] && t.a == y[0] && t.b == y[1];
      assert x[2..2 + n] == Chunks(s.branches) && y[2..2 + n] == Chunks(t.branches);
      assert x[2 + n..] == Chunks(s.commitments) && y[2 + n..] == Chunks(t.commitments);
      ChunksInjective(s.branches, t.branches);
      ChunksInjective(s.commitments, t.commitments);
    } else {
      assert Elements(s)[0] == Elements(t)[0] && Elements(s)[1] == Elements(t)[1] && Elements(s)[2] == Elements(t)[2];
      if s.DHTuple? {
        assert Elements(s)[3] == Elements(t)[3] && Elements(s)[4] == Elements(t)[4] && Elements(s)[5] == Elements(t)[5];
      }
    }
  }

  /** concat (hash.ts:36-46): fill one buffer at a moving offset. */
  method Concat(parts: seq<seq<Byte>>) returns (out: array<Byte>)
    ensures fresh(out) && out[..] == Flatten(parts)
  {
    var total := 0;
    for i := 0 to |parts|
      invariant total == |Flatten(parts[..i])|
    {
      assert parts[..i + 1][..i] == parts[..i];
      total := total + |parts[i]|;
    }
    assert parts[..|parts|] == parts;
    out := new Byte[total](_ => 0);
    var off := 0;
    for i := 0 to |parts|
      invariant off == |Flatten(parts[..i])| <= out.Length
      invariant out[..off] == Flatten(parts[..i])
      invariant fresh(out) && out.Length == |Flatten(parts)|
    {
      assert parts[..i + 1][..i] == parts[..i];
      FlattenPrefix(parts, i + 1);
      var p := parts[i];
      ghost var done := out[..off];
      for k := 0 to |p|
        invariant out[..off + k] == done + p[..k]
        invariant fresh(out)
      {
        out[off + k] := p[k];
      }
      assert p[..|p|] == p;
      off := off + |p|;
    }
    assert parts[..|parts|] == parts;
  }

  /** fsInputSigmaOr (hash.ts:115-145). */
  method FsInputSigmaOr(a: seq<Byte>, b: seq<Byte>, branches: seq<Pair>, commitments: seq<Pair>, ctx: seq<Byte>)
    returns (r: Option<seq<Byte>>)
    ensures r == if BadWidth(branches, commitments) then None else Some(FsInput(SigmaOr(a, b, branches, commitments, ctx)))
  {
    if |branches| != |commitments| {
      return None;
    }
    var N := |branches|;
    if N < 2 || N > 0xff {
      return None;
    }
    ghost var s := SigmaOr(a, b, branches, commitments, ctx);
    var head: seq<seq<Byte>> := [DOMAIN_TAG_V1, [3, N]];
    var elements: seq<seq<Byte>> := [a, b];
    for i := 0 to N
      invariant elements == [a, b] + Chunks(branches[..i])
    {
      assert branches[..i + 1][..i] == branches[..i];
      elements := elements + [branches[i].fst, branches[i].snd];
    }
    assert branches[..N] == branches;
    for i := 0 to N
      invariant elements == [a, b] + Chunks(branches) + Chunks(commitments[..i])
    {
      assert commitments[..i + 1][..i] == commitments[..i];
      elements := elements + [commitments[i].fst, commitments[i].snd];
    }
    assert commitments[..N] == commitments;
    var out := Concat(head + elements + [ctx]);
    PartsMakeInput(s);
    r := Some(out[..]);
  }

  lemma PartsMakeInput(s: Statement)
    requires s.SigmaOr? && !BadWidth(s.branches, s.commitments)
    ensures Flatten([DOMAIN_TAG_V1, Header(s)] + Elements(s) + [s.ctx]) == FsInput(s)
  {
    hide Flatten, Elements, Header, FsInput;
    FlattenThree([DOMAIN_TAG_V1, Header(s)], Elements(s), [s.ctx]);
    FlattenOne(s.ctx);
    FlattenTwo(DOMAIN_TAG_V1, Header(s));
    InputIs(s);
  }

  lemma InputIs(s: Statement)
    requires s.SigmaOr? && !BadWidth(s.branches, s.commitments)
    ensures FsInput(s) == DOMAIN_TAG_V1 + Header(s) + Flatten(Elements(s)) + s.ctx
  {
    hide Flatten, Elements, Header, BadWidth;
  }

  lemma FlattenTwo(x: seq<Byte>, y: seq<Byte>)
    ensures Flatten([x, y]) == x + y
  {
    assert [x, y] == [x] + [y];
    FlattenSplits([x], [y]);
    FlattenOne(x);
    FlattenOne(y);
  }

  lemma FlattenThree(x: seq<seq<Byte>>, y: seq<seq<Byte>>, z: seq<seq<Byte>>)
    ensures Flatten(x + y + z) == Flatten(x) + Flatten(y) + Flatten(z)
  {
    FlattenSplits(x + y, z);
    FlattenSplits(x, y);
  }

  lemma FlattenOne(x: seq<Byte>)
    ensures Flatten([x]) == x
  {
    assert [x][..0] == [];
  }

  lemma {:induction false} FlattenSplits(xs: seq<seq<Byte>>, ys: seq<seq<Byte>>)
    ensures Flatten(xs + ys) == Flatten(xs) + Flatten(ys)
  {
    if ys == [] {
      assert xs + ys == xs;
    } else {
      var front, last := ys[..|ys| - 1], ys[|ys| - 1];
      assert (xs + ys)[..|xs + ys| - 1] == xs + front && (xs + ys)[|xs + ys| - 1] == last;
      FlattenSplits(xs, front);
      assert Flatten(xs + ys) == Flatten(xs + front) + last;
      assert Flatten(ys) == Flatten(front) + last;
      hide Flatten;
    }
  }

  // ---- per-branch nonce messages ----

  datatype Role = Real | SimC | SimZ

  function Tag(role: Role): seq<Byte> {
    match role
    case Real => Ascii("lovejoin/sigma-or/real-r/v1")
    case SimC => Ascii("lovejoin/sigma-or/sim-c/v1")
    case SimZ => Ascii("lovejoin/sigma-or/sim-z/v1")
  }

  /** u32be (sigma_or.ts:68-70). */
  function U32be(x: nat): seq<Byte> { FromNat(x, 4) }

  /** nonceBindingMessage (sigma_or.ts:100-112). */
  function BaseMessage(a: seq<Byte>, b: seq<Byte>, statements: seq<Pair>, ctx: seq<Byte>): seq<Byte> {
    Flatten([a, b] + Chunks(statements)) + ctx
  }

  function NonceMessage(a: seq<Byte>, b: seq<Byte>, statements: seq<Pair>, ctx: seq<Byte>, index: nat, role: Role): seq<Byte> {
    BaseMessage(a, b, statements, ctx) + U32be(index) + Tag(role)
  }

  /** The fourth byte from the end tells the three roles apart: 'r', 'c' or 'z'. */
  lemma TagEnds(role: Role, m: seq<Byte>)
    ensures var n := m + Tag(role);
            n[|n| - 4] == match role case Real => 'r' as int case SimC => 'c' as int case SimZ => 'z' as int
  {
    var n := m + Tag(role);
    assert n[|n| - 4] == Tag(role)[|Tag(role)| - 4];
  }

  /** Index and role sit at fixed places at the end. */
  lemma MessageEnds(base: seq<Byte>, i: nat, role: Role, base': seq<Byte>, i': nat, role': Role)
    requires i < 0x1_0000_0000 && i' < 0x1_0000_0000
    ensures base + U32be(i) + Tag(role) == base' + U32be(i') + Tag(role') <==> base == base' && i == i' && role == role'
  {
    if base + U32be(i) + Tag(role) == base' + U32be(i') + Tag(role') {
      TagEnds(role, base + U32be(i));
      TagEnds(role', base' + U32be(i'));
      assert role == role';
      SplitAt(base + U32be(i), Tag(role), base' + U32be(i'), Tag(role'));
      SplitAt(base, U32be(i), base', U32be(i'));
      assert Arith.Pow(256, 4) == 0x1_0000_0000 by {
        assert Arith.Pow(256, 1) == 256;
        assert Arith.Pow(256, 2) == 0x1_0000;
        assert Arith.Pow(256, 3) == 0x100_0000;
      }
      FromNatRoundTrip(i, 4);
      FromNatRoundTrip(i', 4);
    }
  }

  /** The first points of a message of more statements. */
  lemma {:induction false} ChunksSplit(ss: seq<Pair>, n: nat)
    requires n <= |ss|
    ensures Chunks(ss) == Chunks(ss[..n]) + Chunks(ss[n..])
  {
    if n == |ss| {
      assert ss[..n] == ss && ss[n..] == [];
    } else {
      var last := |ss| - 1;
      ChunksSplit(ss[..last], n);
      assert ss[..last][..n] == ss[..n] && ss[..last][n..] == ss[n..][..last - n];
    }
  }

  /** A wider message is a narrower one whose context starts with the remaining statements. */
  lemma BaseRegroups(a: seq<Byte>, b: seq<Byte>, ss: seq<Pair>, n: nat, ctx: seq<Byte>)
    requires n <= |ss|
    ensures BaseMessage(a, b, ss, ctx) == BaseMessage(a, b, ss[..n], Flatten(Chunks(ss[n..])) + ctx)
  {
    hide Flatten, Chunks;
    ChunksSplit(ss, n);
    var x, y := [a, b] + Chunks(ss[..n]), Chunks(ss[n..]);
    assert [a, b] + Chunks(ss) == x + y;
    FlattenSplits(x, y);
    assert Flatten(x) + Flatten(y) + ctx == Flatten(x) + (Flatten(y) + ctx);
  }

  lemma BaseInjective(a: seq<Byte>, b: seq<Byte>, ss: seq<Pair>, ctx: seq<Byte>,
                      a': seq<Byte>, b': seq<Byte>, ss': seq<Pair>, ctx': seq<Byte>)
    requires |ss| == |ss'| && Points([a, b] + Chunks(ss)) && Points([a', b'] + Chunks(ss'))
    requires BaseMessage(a, b, ss, ctx) == BaseMessage(a', b', ss', ctx')
    ensures a == a' && b == b' && ss == ss' && ctx == ctx'
  {
    var x, x' := [a, b] + Chunks(ss), [a', b'] + Chunks(ss');
    ChunksLength(ss);
    ChunksLength(ss');
    FlattenLength(x);
    FlattenLength(x');
    SplitAt(Flatten(x), ctx, Flatten(x'), ctx');
    FlattenInjective(x, x');
    assert x[0] == a && x[1] == b && x'[0] == a' && x'[1] == b';
    assert x[2..] == Chunks(ss) && x'[2..] == Chunks(ss');
    ChunksInjective(ss, ss');
  }

  lemma PointsSplit(x: seq<seq<Byte>>, y: seq<seq<Byte>>)
    ensures Points(x + y) <==> Points(x) && Points(y)
  {
    if Points(x + y) {
      assert forall i :: 0 <= i < |x| ==> x[i] == (x + y)[i];
      assert forall i :: 0 <= i < |y| ==> y[i] == (x + y)[|x| + i];
    }
  }

  lemma PointsOfFront(a: seq<Byte>, b: seq<Byte>, ss: seq<Pair>, n: nat)
    requires n <= |ss| && Points([a, b] + Chunks(ss))
    ensures Points([a, b] + Chunks(ss[..n])) && Points(Chunks(ss[n..]))
  {
    hide Points, Chunks;
    ChunksSplit(ss, n);
    assert [a, b] + Chunks(ss) == ([a, b] + Chunks(ss[..n])) + Chunks(ss[n..]);
    PointsSplit([a, b] + Chunks(ss[..n]), Chunks(ss[n..]));
  }

  lemma BaseEqualIff(a: seq<Byte>, b: seq<Byte>, ss: seq<Pair>, ctx: seq<Byte>,
                     a': seq<Byte>, b': seq<Byte>, ss': seq<Pair>, ctx': seq<Byte>)
    requires |ss| <= |ss'|
    requires Points([a, b] + Chunks(ss)) && Points([a', b'] + Chunks(ss'))
    ensures BaseMessage(a, b, ss, ctx) == BaseMessage(a', b', ss', ctx') <==>
            a == a' && b == b' && ss == ss'[..|ss|] && ctx == Flatten(Chunks(ss'[|ss|..])) + ctx'
  {
    var front, rest := ss'[..|ss|], Flatten(Chunks(ss'[|ss|..])) + ctx';
    hide *;
    BaseRegroups(a', b', ss', |ss|, ctx');
    PointsOfFront(a', b', ss', |ss|);
    if BaseMessage(a, b, ss, ctx) == BaseMessage(a', b', ss', ctx') {
      BaseInjective(a, b, ss, ctx, a', b', front, rest);
    }
  }

  /** Two nonce messages, of any two widths, are equal if and only if index and role agree and the
      narrower message's context is the wider one's remaining statements followed by its context. */
  lemma NonceMessagesEqualIff(a: seq<Byte>, b: seq<Byte>, ss: seq<Pair>, ctx: seq<Byte>, i: nat, role: Role,
                              a': seq<Byte>, b': seq<Byte>, ss': seq<Pair>, ctx': seq<Byte>, i': nat, role': Role)
    requires |ss| <= |ss'| && i < 0x1_0000_0000 && i' < 0x1_0000_0000
    requires Points([a, b] + Chunks(ss)) && Points([a', b'] + Chunks(ss'))
    ensures NonceMessage(a, b, ss, ctx, i, role) == NonceMessage(a', b', ss', ctx', i', role') <==>
            && a == a' && b == b' && i == i' && role == role'
            && ss == ss'[..|ss|] && ctx == Flatten(Chunks(ss'[|ss|..])) + ctx'
  {
    MessageEnds(BaseMessage(a, b, ss, ctx), i, role, BaseMessage(a', b', ss', ctx'), i', role');
    BaseEqualIff(a, b, ss, ctx, a', b', ss', ctx');
    hide BaseMessage, U32be, Tag, Flatten, Chunks, Points;
  }

  /** For equal context lengths the nonce message determines statements, context, branch index and
      role, across all widths; for one width it does so for contexts of any lengths. */
  lemma NonceMessageInjective(a: seq<Byte>, b: seq<Byte>, ss: seq<Pair>, ctx: seq<Byte>, i: nat, role: Role,
                              a': seq<Byte>, b': seq<Byte>, ss': seq<Pair>, ctx': seq<Byte>, i': nat, role': Role)
    requires |ss| == |ss'| || |ctx| == |ctx'|
    requires i < 0x1_0000_0000 && i' < 0x1_0000_0000
    requires Points([a, b] + Chunks(ss)) && Points([a', b'] + Chunks(ss'))
    requires NonceMessage(a, b, ss, ctx, i, role) == NonceMessage(a', b', ss', ctx', i', role')
    ensures a == a' && b == b' && ss == ss' && ctx == ctx' && i == i' && role == role'
  {
    hide NonceMessage, Flatten, Chunks, Points;
    if |ss| <= |ss'| {
      NonceMessagesEqualIff(a, b, ss, ctx, i, role, a', b', ss', ctx', i', role');
      RestIsLong(a', b', ss', |ss|);
    } else {
      NonceMessagesEqualIff(a', b', ss', ctx', i', role', a, b, ss, ctx, i, role);
      RestIsLong(a, b, ss, |ss'|);
    }
  }

  /** Left-over statements make a context longer. */
  lemma RestIsLong(a: seq<Byte>, b: seq<Byte>, ss: seq<Pair>, n: nat)
    requires n <= |ss| && Points([a, b] + Chunks(ss))
    ensures |Flatten(Chunks(ss[n..]))| == 2 * POINT_BYTES * (|ss| - n)
    ensures n == |ss| ==> ss[..n] == ss && Flatten(Chunks(ss[n..])) == []
  {
    PointsOfFront(a, b, ss, n);
    ChunksLength(ss[n..]);
    FlattenLength(Chunks(ss[n..]));
    hide Flatten, Chunks, Points;
  }

  /** The shortest collision: the last statement read as the start of the context. */
  lemma NonceMessageAmbiguousAcrossWidths(a: seq<Byte>, b: seq<Byte>, ss: seq<Pair>, last: Pair, ctx: seq<Byte>, i: nat, role: Role)
    ensures NonceMessage(a, b, ss + [last], ctx, i, role) == NonceMessage(a, b, ss, last.fst + last.snd + ctx, i, role)
  {
    BaseRegroups(a, b, ss + [last], |ss|, ctx);
    assert (ss + [last])[..|ss|] == ss && (ss + [last])[|ss|..] == [last] && [last][..0] == [];
    assert Chunks([last]) == [last.fst, last.snd];
    FlattenTwo(last.fst, last.snd);
  }
}
