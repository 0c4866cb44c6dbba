/** Who can open which box, over whole runs of deposits, mixes and withdrawals
    (offchain/src/tx/deposit.ts, offchain/scripts/gen-mix-kat.ts:121-139,
    offchain/src/pool/identify.ts, offchain/src/seedelf/register.ts). */
module Ownership {
  import opened Arith
  import opened Options
  import opened Group
  import opened Permutations

  datatype Box = Box(a: Point, b: Point)

  ghost predicate Usable(box: Box, r: nat) {
    0 < box.a < r && 0 < box.b < r
  }

  /** ownsBox (identify.ts:127-138), on decoded points. */
  predicate OwnsBox(secret: int, box: Box, r: nat)
    requires r > 0
  {
    secret > 0 && ScalarMul(secret, box.a, r) == box.b
  }

  /** findOwnedBoxes (identify.ts:145-147). */
  function FindOwnedBoxes(secret: int, boxes: seq<Box>, r: nat): seq<Box>
    requires r > 0
  {
    if boxes == [] then []
    else
      var last := |boxes| - 1;
      FindOwnedBoxes(secret, boxes[..last], r) + if OwnsBox(secret, boxes[last], r) then [boxes[last]] else []
  }

  /** The one scalar in [1, r) that opens a usable box. */
  ghost function Owner(box: Box, r: nat): (x: Scalar)
    requires IsPrime(r) && Usable(box, r)
    ensures x < r
  {
    ScalarMul(Inverse(box.a, r), box.b, r)
  }

  lemma OwnerOpens(box: Box, r: nat)
    requires IsPrime(r) && Usable(box, r)
    ensures OwnsBox(Owner(box, r), box, r)
  {
    hide Cong, IsPrime;
    var i := Inverse(box.a, r);
    var x := Owner(box, r);
    CongMod(i * box.b, r);
    CongRefl(box.a, r);
    CongRefl(box.b, r);
    CongMul(x, i * box.b, box.a, box.a, r);
    CongMul(box.a * i, 1, box.b, box.b, r);
    assert (i * box.b) * box.a == (box.a * i) * box.b;
    CongTrans(x * box.a, (box.a * i) * box.b, 1 * box.b, r);
    MulIsCong(x, box.a, box.b, r);
    if x == 0 {
      ZeroScalar(box.a, r);
      assert false;
    }
  }

  lemma ZeroScalar(p: Point, r: nat)
    requires r > 0
    ensures ScalarMul(0, p, r) == 0
  {
  }

  /** No other scalar in [1, r) opens it. */
  lemma OnlyOwnerOpens(box: Box, x: Scalar, y: Scalar, r: nat)
    requires IsPrime(r) && Usable(box, r) && x < r && y < r
    requires OwnsBox(x, box, r) && OwnsBox(y, box, r)
    ensures x == y
  {
    hide Cong, IsPrime;
    MulIsCong(x, box.a, box.b, r);
    MulIsCong(y, box.a, box.b, r);
    CongSym(y * box.a, box.b, r);
    CongTrans(x * box.a, box.b, y * box.a, r);
    CancelFactor(x, y, box.a, r);
    CongIsModEqual(x, y, r);
    SmallMod(x, r);
    SmallMod(y, r);
  }

  lemma CancelFactor(x: int, y: int, a: nat, r: nat)
    requires IsPrime(r) && 0 < a < r && Cong(x * a, y * a, r)
    ensures Cong(x, y, r)
  {
    assert (x - y) * a == x * a - y * a;
    PrimeDividesProduct(x - y, a, r);
    ResidueIsZero(a, r);
  }

  /** Exactly one scalar in [1, r) opens a usable box. */
  lemma OpensIffOwner(box: Box, x: Scalar, r: nat)
    requires IsPrime(r) && Usable(box, r) && x < r
    ensures OwnsBox(x, box, r) <==> x == Owner(box, r)
  {
    hide OwnsBox, Owner, IsPrime;
    OwnerOpens(box, r);
    if OwnsBox(x, box, r) {
      OnlyOwnerOpens(box, x, Owner(box, r), r);
    }
  }

  // ---- re-randomisation ----

  function Rerandomize(box: Box, y: Scalar, r: nat): Box
    requires r > 0
  {
    Box(ScalarMul(y, box.a, r), ScalarMul(y, box.b, r))
  }

  lemma NonzeroProduct(y: Scalar, p: Point, r: nat)
    requires IsPrime(r) && 0 < y < r && 0 < p < r
    ensures 0 < ScalarMul(y, p, r) < r
  {
    PrimeDividesProduct(y, p, r);
    ResidueIsZero(y, r);
    ResidueIsZero(p, r);
  }

  /** Multiplying both points by y: x opens the new box exactly when it opened the old one. */
  lemma RerandomizeKeepsOpeners(box: Box, y: Scalar, x: int, r: nat)
    requires IsPrime(r) && Usable(box, r) && 0 < y < r
    ensures Usable(Rerandomize(box, y, r), r)
    ensures OwnsBox(x, Rerandomize(box, y, r), r) <==> OwnsBox(x, box, r)
  {
    hide IsPrime, ScalarMul;
    ScalarKept(box, y, x, r);
  }

  /** The same for every integer x, as scalar multiplication takes it. */
  lemma ScalarKept(box: Box, y: Scalar, x: int, r: nat)
    requires IsPrime(r) && Usable(box, r) && 0 < y < r
    ensures var box' := Rerandomize(box, y, r);
            Usable(box', r) && (ScalarMul(x, box'.a, r) == box'.b <==> ScalarMul(x, box.a, r) == box.b)
  {
    hide Cong, IsPrime;
    NonzeroProduct(y, box.a, r);
    NonzeroProduct(y, box.b, r);
    MulIsCong(x, box.a, box.b, r);
    MulIsCong(x, ScalarMul(y, box.a, r), ScalarMul(y, box.b, r), r);
    ScaledCong(x, y, box.a, box.b, r);
  }

  /** x a' = b' for the scaled points exactly when x a = b. */
  lemma ScaledCong(x: int, y: Scalar, a: Point, b: Point, r: nat)
    requires IsPrime(r) && 0 < y < r
    ensures Cong(x * ScalarMul(y, a, r), ScalarMul(y, b, r), r) <==> Cong(x * a, b, r)
  {
    hide Cong, IsPrime;
    CongMod(y * a, r);
    CongMod(y * b, r);
    CongRefl(x, r);
    CongRefl(y, r);
    CongMul(x, x, (y * a) % r, y * a, r);
    SameSides(x * ((y * a) % r), x * (y * a), (y * b) % r, y * b, r);
    assert x * (y * a) == (x * a) * y && y * b == b * y;
    if Cong(x * a, b, r) {
      CongMul(x * a, b, y, y, r);
    }
    if Cong((x * a) * y, b * y, r) {
      CancelFactor(x * a, b, y, r);
    }
  }

  lemma RerandomizeKeepsOwner(box: Box, y: Scalar, r: nat)
    requires IsPrime(r) && Usable(box, r) && 0 < y < r
    ensures Usable(Rerandomize(box, y, r), r)
    ensures Owner(Rerandomize(box, y, r), r) == Owner(box, r)
  {
    hide OwnsBox, Owner, IsPrime, Rerandomize;
    RerandomizeKeepsOpeners(box, y, Owner(box, r), r);
    OpensIffOwner(box, Owner(box, r), r);
    OpensIffOwner(Rerandomize(box, y, r), Owner(box, r), r);
  }

  // ---- one step ----

  datatype DepositError = SecretOutOfRange | RerandomizationOutOfRange | IdentityPoint | EqualPoints

  /** planDepositTx's point computation (deposit.ts:343-373, 157-166); `None` is the a = g path.
      Equal points are refused by the datum encoder. */
  function PlanDeposit(x: int, d: Option<int>, r: nat): Result<Box, DepositError>
    requires r >= 2
  {
    if x <= 0 || x >= r then Err(SecretOutOfRange)
    else if d.Some? && (d.value <= 0 || d.value >= r) then Err(RerandomizationOutOfRange)
    else
      var a := if d.None? then 1 else ScalarMul(d.value, 1, r);
      var b := ScalarMul(x, a, r);
      if a == 0 || b == 0 then Err(IdentityPoint)
      else if a == b then Err(EqualPoints)
      else Ok(Box(a, b))
  }

  /** A deposit is planned exactly for secrets in [2, r) with d in [1, r); its one opener is x. */
  lemma DepositOwnedBySecret(x: int, d: Option<int>, r: nat)
    requires IsPrime(r)
    ensures PlanDeposit(x, d, r).Ok? <==> 2 <= x < r && (d.Some? ==> 0 < d.value < r)
    ensures PlanDeposit(x, d, r).Ok? ==> Usable(PlanDeposit(x, d, r).value, r) && Owner(PlanDeposit(x, d, r).value, r) == x
  {
    if 0 < x < r && (d.Some? ==> 0 < d.value < r) {
      var a := if d.None? then 1 else ScalarMul(d.value, 1, r);
      assert 0 < a < r by {
        if d.Some? {
          NonzeroProduct(d.value, 1, r);
        }
      }
      NonzeroProduct(x, a, r);
      var box := Box(a, ScalarMul(x, a, r));
      OpensIffOwner(box, x, r);
      OneOpensEqualPoints(a, r);
      OpensIffOwner(box, 1, r);
    }
  }

  lemma OneOpensEqualPoints(a: Point, r: nat)
    requires a < r
    ensures ScalarMul(1, a, r) == a
  {
    SmallMod(a, r);
  }

  /** The outputs of a mix: input i, re-randomised by ys[i], lands at position perm[i]. */
  ghost predicate IsMix(inputs: seq<Box>, perm: seq<nat>, ys: seq<Scalar>, outputs: seq<Box>, r: nat)
    requires r > 0
  {
    && |inputs| == |perm| == |ys| == |outputs| && IsPermutation(perm)
    && forall i :: 0 <= i < |inputs| ==> outputs[perm[i]] == Rerandomize(inputs[i], ys[i], r)
  }

  /** The output loop of a mix (gen-mix-kat.ts:132-138). */
  method MixOutputs(inputs: seq<Box>, perm: seq<nat>, ys: seq<Scalar>, r: nat) returns (outputs: array<Box>)
    requires r > 0 && |inputs| == |perm| == |ys| && IsPermutation(perm)
    ensures fresh(outputs) && IsMix(inputs, perm, ys, outputs[..], r)
  {
    outputs := new Box[|inputs|](_ => Box(0, 0));
    for i := 0 to |inputs|
      invariant fresh(outputs) && outputs.Length == |inputs|
      invariant forall k :: 0 <= k < i ==> outputs[perm[k]] == Rerandomize(inputs[k], ys[k], r)
    {
      outputs[perm[i]] := Rerandomize(inputs[i], ys[i], r);
    }
  }

  // ---- whole runs ----

  datatype Op =
    | Deposit(x: Scalar, d: Option<int>)
    | Mix(picks: seq<nat>, perm: seq<nat>, ys: seq<Scalar>, outputs: seq<Box>)
    | Withdraw(index: nat, x: Scalar)

  function Pick(boxes: seq<Box>, picks: seq<nat>): seq<Box>
    requires forall i :: 0 <= i < |picks| ==> picks[i] < |boxes|
  {
    seq(|picks|, i requires 0 <= i < |picks| => boxes[picks[i]])
  }

  /** The boxes a mix leaves alone, in order. */
  function Rest(boxes: seq<Box>, picks: seq<nat>): seq<Box> {
    if boxes == [] then []
    else Rest(boxes[..|boxes| - 1], picks) + if |boxes| - 1 in picks then [] else [boxes[|boxes| - 1]]
  }

  ghost predicate Allowed(boxes: seq<Box>, op: Op, r: nat)
    requires r >= 2
  {
    match op
    case Deposit(x, d) => PlanDeposit(x, d, r).Ok?
    case Mix(picks, perm, ys, outputs) =>
      && Distinct(picks) && (forall i :: 0 <= i < |picks| ==> picks[i] < |boxes|)
      && (forall i :: 0 <= i < |ys| ==> 0 < ys[i] < r)
      && IsMix(Pick(boxes, picks), perm, ys, outputs, r)
    case Withdraw(i, x) => i < |boxes| && x < r && OwnsBox(x, boxes[i], r)
  }

  ghost function Step(boxes: seq<Box>, op: Op, r: nat): seq<Box>
    requires r >= 2 && Allowed(boxes, op, r)
  {
    match op
    case Deposit(x, d) => boxes + [PlanDeposit(x, d, r).value]
    case Mix(picks, perm, ys, outputs) => Rest(boxes, picks) + outputs
    case Withdraw(i, x) => boxes[..i] + boxes[i + 1..]
  }

  /** The secrets that should still open something: deposits add one, withdrawals remove it. */
  function Live(secrets: multiset<Scalar>, op: Op): multiset<Scalar>
  {
    match op
    case Deposit(x, _) => secrets + multiset{x}
    case Mix(_, _, _, _) => secrets
    case Withdraw(_, x) => secrets - multiset{x}
  }

  ghost predicate AllUsable(boxes: seq<Box>, r: nat) {
    forall i :: 0 <= i < |boxes| ==> Usable(boxes[i], r)
  }

  ghost function Owners(boxes: seq<Box>, r: nat): seq<Scalar>
    requires IsPrime(r) && AllUsable(boxes, r)
  {
    seq(|boxes|, i requires 0 <= i < |boxes| => Owner(boxes[i], r))
  }

  /** Every owned secret has exactly its own box. */
  ghost predicate Accounts(boxes: seq<Box>, secrets: multiset<Scalar>, r: nat)
    requires IsPrime(r)
  {
    AllUsable(boxes, r) && multiset(Owners(boxes, r)) == secrets
  }

  lemma OwnersAppend(s: seq<Box>, t: seq<Box>, r: nat)
    requires IsPrime(r) && AllUsable(s, r) && AllUsable(t, r)
    ensures AllUsable(s + t, r) && Owners(s + t, r) == Owners(s, r) + Owners(t, r)
  {
    hide Owner, IsPrime;
  }

  lemma MixKeepsOwners(inputs: seq<Box>, perm: seq<nat>, ys: seq<Scalar>, outputs: seq<Box>, r: nat)
    requires IsPrime(r) && AllUsable(inputs, r) && IsMix(inputs, perm, ys, outputs, r)
    requires forall i :: 0 <= i < |ys| ==> 0 < ys[i] < r
    ensures AllUsable(outputs, r) && multiset(Owners(inputs, r)) == multiset(Owners(outputs, r))
  {
    hide Owner, IsPrime, Rerandomize, Usable;
    forall j | 0 <= j < |outputs| ensures Usable(outputs[j], r) {
      var i := Preimage(perm, j);
      RerandomizeKeepsOwner(inputs[i], ys[i], r);
    }
    forall i | 0 <= i < |inputs| ensures Owners(outputs, r)[perm[i]] == Owners(inputs, r)[i] {
      RerandomizeKeepsOwner(inputs[i], ys[i], r);
    }
    PermutedMultiset(Owners(inputs, r), Owners(outputs, r), perm);
  }

  lemma Cancel<T>(m: multiset<T>, n: multiset<T>, x: T)
    requires m + multiset{x} == n + multiset{x}
    ensures m == n
  {
    assert m == (m + multiset{x}) - multiset{x};
    assert n == (n + multiset{x}) - multiset{x};
  }

  /** Dropping the pick of the last box leaves picks of the boxes before it. */
  lemma PickWithoutLast(boxes: seq<Box>, picks: seq<nat>, j: nat)
    requires Distinct(picks) && forall i :: 0 <= i < |picks| ==> picks[i] < |boxes|
    requires boxes != [] && j < |picks| && picks[j] == |boxes| - 1
    ensures var rest := Drop(picks, j);
            && Distinct(rest) && (forall i :: 0 <= i < |rest| ==> rest[i] < |boxes| - 1)
            && Pick(boxes[..|boxes| - 1], rest) == Drop(Pick(boxes, picks), j)
  {
    var rest := Drop(picks, j);
    forall i | 0 <= i < |rest| ensures rest[i] == picks[if i < j then i else i + 1] && rest[i] < |boxes| - 1 {
    }
  }

  lemma RestSkipsPick(boxes: seq<Box>, picks: seq<nat>)
    requires boxes != [] && |boxes| - 1 in picks
    ensures Rest(boxes, picks) == Rest(boxes[..|boxes| - 1], picks)
  {
  }

  lemma RestKeepsUnpicked(boxes: seq<Box>, picks: seq<nat>)
    requires boxes != [] && |boxes| - 1 !in picks
    ensures Rest(boxes, picks) == Rest(boxes[..|boxes| - 1], picks) + [boxes[|boxes| - 1]]
  {
  }

  lemma PicksBelowLast(boxes: seq<Box>, picks: seq<nat>)
    requires forall i :: 0 <= i < |picks| ==> picks[i] < |boxes|
    requires boxes != [] && |boxes| - 1 !in picks
    ensures forall i :: 0 <= i < |picks| ==> picks[i] < |boxes| - 1
  {
    forall i | 0 <= i < |picks| ensures picks[i] < |boxes| - 1 {
      assert picks[i] in picks;
    }
  }

  /** Picked boxes and the rest together are all boxes. */
  lemma {:induction false} PickAndRest(boxes: seq<Box>, picks: seq<nat>)
    requires Distinct(picks) && forall i :: 0 <= i < |picks| ==> picks[i] < |boxes|
    ensures multiset(boxes) == multiset(Pick(boxes, picks)) + multiset(Rest(boxes, picks))
    decreases |boxes|, 1
  {
    if boxes == [] {
      NothingToPick(boxes, picks);
    } else if |boxes| - 1 in picks {
      PickLast(boxes, picks);
    } else {
      PickNotLast(boxes, picks);
    }
  }

  lemma NothingToPick(boxes: seq<Box>, picks: seq<nat>)
    requires forall i :: 0 <= i < |picks| ==> picks[i] < |boxes|
    ensures |boxes| == 0 ==> |picks| == 0
  {
    if |picks| > 0 {
      assert picks[0] < |boxes|;
    }
  }

  lemma PickIgnoresTail(boxes: seq<Box>, picks: seq<nat>)
    requires boxes != [] && forall i :: 0 <= i < |picks| ==> picks[i] < |boxes| - 1
    ensures Pick(boxes, picks) == Pick(boxes[..|boxes| - 1], picks)
  {
  }

  lemma {:induction false} PickNotLast(boxes: seq<Box>, picks: seq<nat>)
    requires Distinct(picks) && (forall i :: 0 <= i < |picks| ==> picks[i] < |boxes|)
    requires boxes != [] && |boxes| - 1 !in picks
    ensures multiset(boxes) == multiset(Pick(boxes, picks)) + multiset(Rest(boxes, picks))
    decreases |boxes|, 0
  {
    hide *;
    var front := boxes[..|boxes| - 1];
    PicksBelowLast(boxes, picks);
    PickAndRest(front, picks);
    RestKeepsUnpicked(boxes, picks);
    PickIgnoresTail(boxes, picks);
    assert boxes == front + [boxes[|boxes| - 1]];
  }

  lemma {:induction false} PickLast(boxes: seq<Box>, picks: seq<nat>)
    requires Distinct(picks) && (forall i :: 0 <= i < |picks| ==> picks[i] < |boxes|)
    requires boxes != [] && |boxes| - 1 in picks
    ensures multiset(boxes) == multiset(Pick(boxes, picks)) + multiset(Rest(boxes, picks))
    decreases |boxes|, 0
  {
    var last := |boxes| - 1;
    var j :| 0 <= j < |picks| && picks[j] == last;
    var picked := Pick(boxes, picks);
    assert |picked| == |picks| && picked[j] == boxes[last];
    PickWithoutLast(boxes, picks, j);
    PickAndRest(boxes[..last], Drop(picks, j));
    RestIgnores(boxes[..last], picks, j);
    RestSkipsPick(boxes, picks);
    hide Pick, Rest;
    DropFromMultiset(picked, j);
    DropFromMultiset(boxes, last);
    assert Drop(boxes, last) == boxes[..last];
  }

  lemma {:induction false} RestIgnores(boxes: seq<Box>, picks: seq<nat>, j: nat)
    requires j < |picks| && picks[j] >= |boxes|
    ensures Rest(boxes, Drop(picks, j)) == Rest(boxes, picks)
  {
    if boxes != [] {
      RestIgnores(boxes[..|boxes| - 1], picks, j);
      var n := |boxes| - 1;
      if n in picks {
        var i :| 0 <= i < |picks| && picks[i] == n;
        assert Drop(picks, j)[if i < j then i else i - 1] == n;
      }
    }
  }

  lemma UsableAround(t: seq<Box>, j: nat, r: nat)
    requires IsPrime(r) && j < |t| && Usable(t[j], r) && AllUsable(Drop(t, j), r)
    ensures AllUsable(t, r) && Drop(Owners(t, r), j) == Owners(Drop(t, j), r)
  {
    hide Owner, IsPrime, Usable;
    forall k | 0 <= k < |t| ensures Usable(t[k], r) {
      if k != j {
        assert Drop(t, j)[if k < j then k else k - 1] == t[k];
      }
    }
  }

  lemma {:induction false} OwnersOfEqualMultisets(s: seq<Box>, t: seq<Box>, r: nat)
    requires IsPrime(r) && AllUsable(s, r) && multiset(s) == multiset(t)
    ensures AllUsable(t, r) && multiset(Owners(s, r)) == multiset(Owners(t, r))
    decreases |s|
  {
    hide Owner, IsPrime, Usable;
    if s == [] {
      assert |multiset(t)| == 0;
      assert t == [];
    } else {
      var last := |s| - 1;
      assert s[last] in multiset(s);
      assert s[last] in multiset(t);
      var j :| 0 <= j < |t| && t[j] == s[last];
      DropFromMultiset(t, j);
      DropFromMultiset(s, last);
      assert Drop(s, last) == s[..last];
      Cancel(multiset(s[..last]), multiset(Drop(t, j)), s[last]);
      OwnersOfEqualMultisets(s[..last], Drop(t, j), r);
      UsableAround(t, j, r);
      DropFromMultiset(Owners(t, r), j);
      assert Owners(s, r) == Owners(s[..last], r) + [Owner(s[last], r)];
    }
  }

  lemma DepositAccounts(boxes: seq<Box>, secrets: multiset<Scalar>, x: Scalar, d: Option<int>, r: nat)
    requires IsPrime(r) && Accounts(boxes, secrets, r) && PlanDeposit(x, d, r).Ok?
    ensures Accounts(boxes + [PlanDeposit(x, d, r).value], secrets + multiset{x}, r)
  {
    hide Owner, IsPrime, OwnsBox, PlanDeposit, Usable;
    DepositOwnedBySecret(x, d, r);
    var box := PlanDeposit(x, d, r).value;
    OwnersAppend(boxes, [box], r);
    assert Owners([box], r) == [x];
  }

  lemma MixAccounts(boxes: seq<Box>, secrets: multiset<Scalar>, picks: seq<nat>, perm: seq<nat>, ys: seq<Scalar>, outputs: seq<Box>, r: nat)
    requires r >= 2 && IsPrime(r) && Accounts(boxes, secrets, r) && Allowed(boxes, Mix(picks, perm, ys, outputs), r)
    ensures Accounts(Rest(boxes, picks) + outputs, secrets, r)
  {
    hide Owner, IsPrime, Usable, Rest, Pick;
    PickAndRest(boxes, picks);
    var inputs, rest := Pick(boxes, picks), Rest(boxes, picks);
    assert multiset(inputs + rest) == multiset(boxes);
    OwnersOfEqualMultisets(boxes, inputs + rest, r);
    SplitUsable(inputs, rest, r);
    MixKeepsOwners(inputs, perm, ys, outputs, r);
    OwnersAppend(inputs, rest, r);
    OwnersAppend(rest, outputs, r);
  }

  lemma WithdrawAccounts(boxes: seq<Box>, secrets: multiset<Scalar>, i: nat, x: Scalar, r: nat)
    requires IsPrime(r) && Accounts(boxes, secrets, r) && i < |boxes| && x < r && OwnsBox(x, boxes[i], r)
    ensures Accounts(boxes[..i] + boxes[i + 1..], secrets - multiset{x}, r)
  {
    hide Owner, IsPrime, OwnsBox, Usable;
    OpensIffOwner(boxes[i], x, r);
    var s, t := boxes[..i], boxes[i + 1..];
    DropFromMultiset(Owners(boxes, r), i);
    assert Drop(Owners(boxes, r), i) == Owners(s + t, r);
    assert Owners(boxes, r)[i] == x;
  }

  /** Every step moves the live secrets exactly as it moves the boxes. */
  lemma StepAccounts(boxes: seq<Box>, secrets: multiset<Scalar>, op: Op, r: nat)
    requires r >= 2 && IsPrime(r) && Accounts(boxes, secrets, r) && Allowed(boxes, op, r)
    ensures Accounts(Step(boxes, op, r), Live(secrets, op), r)
  {
    hide IsPrime, Accounts, PlanDeposit, OwnsBox, IsMix, Rest, Pick;
    match op
    case Deposit(x, d) => DepositAccounts(boxes, secrets, x, d, r);
    case Mix(picks, perm, ys, outputs) => MixAccounts(boxes, secrets, picks, perm, ys, outputs, r);
    case Withdraw(i, x) => WithdrawAccounts(boxes, secrets, i, x, r);
  }

  lemma SplitUsable(s: seq<Box>, t: seq<Box>, r: nat)
    requires AllUsable(s + t, r)
    ensures AllUsable(s, r) && AllUsable(t, r)
  {
    hide Usable;
    forall i | 0 <= i < |s| ensures Usable(s[i], r) {
      assert (s + t)[i] == s[i];
    }
    forall i | 0 <= i < |t| ensures Usable(t[i], r) {
      assert (s + t)[|s| + i] == t[i];
    }
  }

  /** A run that starts from no boxes: `boxes` and `secrets` after it. */
  ghost predicate Run(ops: seq<Op>, boxes: seq<Box>, secrets: multiset<Scalar>, r: nat)
    requires r >= 2
    decreases |ops|
  {
    if ops == [] then boxes == [] && secrets == multiset{}
    else
      var op := ops[|ops| - 1];
      exists b, s :: Run(ops[..|ops| - 1], b, s, r) && Allowed(b, op, r)
                     && boxes == Step(b, op, r) && secrets == Live(s, op)
  }

  lemma {:induction false} RunAccounts(ops: seq<Op>, boxes: seq<Box>, secrets: multiset<Scalar>, r: nat)
    requires r >= 2 && IsPrime(r) && Run(ops, boxes, secrets, r)
    ensures Accounts(boxes, secrets, r)
    decreases |ops|
  {
    hide IsPrime, Accounts, Allowed, Step, Live;
    if ops == [] {
      EmptyAccounts(r);
    } else {
      var op := ops[|ops| - 1];
      var b, s :| Run(ops[..|ops| - 1], b, s, r) && Allowed(b, op, r)
                  && boxes == Step(b, op, r) && secrets == Live(s, op);
      RunAccounts(ops[..|ops| - 1], b, s, r);
      StepAccounts(b, s, op, r);
    }
  }

  lemma EmptyAccounts(r: nat)
    requires IsPrime(r)
    ensures Accounts([], multiset{}, r)
  {
    assert Owners([], r) == [];
  }

  lemma OwnersOfPrefix(boxes: seq<Box>, r: nat)
    requires IsPrime(r) && AllUsable(boxes, r) && boxes != []
    ensures AllUsable(boxes[..|boxes| - 1], r)
    ensures Owners(boxes, r) == Owners(boxes[..|boxes| - 1], r) + [Owner(boxes[|boxes| - 1], r)]
  {
    hide Owner, IsPrime, Usable;
  }

  lemma {:induction false} FoundCount(x: Scalar, boxes: seq<Box>, r: nat)
    requires IsPrime(r) && AllUsable(boxes, r) && x < r
    ensures |FindOwnedBoxes(x, boxes, r)| == multiset(Owners(boxes, r))[x]
    ensures forall b :: b in FindOwnedBoxes(x, boxes, r) ==> b in boxes && OwnsBox(x, b, r)
  {
    hide Owner, IsPrime, OwnsBox, Usable;
    if boxes != [] {
      var last := |boxes| - 1;
      OwnersOfPrefix(boxes, r);
      FoundCount(x, boxes[..last], r);
      OpensIffOwner(boxes[last], x, r);
      hide Owners;
    }
  }

  /** After any run with distinct secrets, each secret not yet withdrawn finds exactly one box, and
      every other scalar in [1, r) finds none. */
  lemma EachSecretOpensOneBox(ops: seq<Op>, boxes: seq<Box>, secrets: multiset<Scalar>, x: Scalar, r: nat)
    requires r >= 2 && IsPrime(r) && Run(ops, boxes, secrets, r) && x < r
    requires forall s :: s in secrets ==> secrets[s] == 1
    ensures |FindOwnedBoxes(x, boxes, r)| == if x in secrets then 1 else 0
    ensures forall b :: b in FindOwnedBoxes(x, boxes, r) ==> b in boxes && OwnsBox(x, b, r)
  {
    hide Owner, IsPrime, OwnsBox, Usable, FindOwnedBoxes;
    RunAccounts(ops, boxes, secrets, r);
    FoundCount(x, boxes, r);
  }

  // ---- Seedelf registers ----

  /** createRegister (register.ts:76-85): a register is a box (generator, public value). */
  function CreateRegister(x: int, r: nat): Option<Box>
    requires r > 0
  {
    var u := ScalarMul(x, 1, r);
    if u == 0 then None else Some(Box(1, u))
  }

  /** ownsSeedelfRegister (register.ts:117-128), on decoded points: any scalar may be asked. */
  predicate OwnsRegister(reg: Box, x: int, r: nat)
    requires r > 0
  {
    ScalarMul(x, reg.a, r) == reg.b
  }

  /** rerandomizeRegister (register.ts:95-110). */
  function RerandomizeRegister(reg: Box, d: int, r: nat): Option<Box>
    requires r > 0
  {
    if d == 0 then None
    else
      var g, u := ScalarMul(d, reg.a, r), ScalarMul(d, reg.b, r);
      if g == 0 || u == 0 then None else Some(Box(g, u))
  }

  function RerandomizeAll(reg: Box, ds: seq<int>, r: nat): Option<Box>
    requires r > 0
  {
    if ds == [] then Some(reg)
    else
      var before := RerandomizeAll(reg, ds[..|ds| - 1], r);
      if before.None? then None else RerandomizeRegister(before.value, ds[|ds| - 1], r)
  }

  /** A scalar multiplies like its residue. */
  lemma ScalarMod(x: int, p: Point, r: nat)
    requires r > 0
    ensures ScalarMul(x, p, r) == ScalarMul(x % r, p, r)
  {
    hide Cong;
    CongMod(x, r);
    CongRefl(p, r);
    CongMul(x, x % r, p, p, r);
    CongIsModEqual(x * p, (x % r) * p, r);
  }

  /** A scalar that is no multiple of r re-randomises like its residue; a multiple of r is refused. */
  lemma RegisterIs(reg: Box, d: int, r: nat)
    requires IsPrime(r) && r >= 2 && Usable(reg, r)
    ensures RerandomizeRegister(reg, d, r) == if d % r == 0 then None else Some(Rerandomize(reg, d % r, r))
  {
    ScalarMod(d, reg.a, r);
    ScalarMod(d, reg.b, r);
    ZeroScalar(reg.a, r);
    if d % r != 0 {
      NonzeroProduct(d % r, reg.a, r);
      NonzeroProduct(d % r, reg.b, r);
      assert d != 0;
    }
    hide ScalarMul, IsPrime;
  }

  /** One re-randomisation fails exactly for a multiple of r, and changes no owner. */
  lemma RegisterStep(reg: Box, d: int, x: int, r: nat)
    requires IsPrime(r) && r >= 2 && Usable(reg, r)
    ensures var out := RerandomizeRegister(reg, d, r);
            && (out.Some? <==> d % r != 0)
            && (out.Some? ==> Usable(out.value, r) && (OwnsRegister(out.value, x, r) <==> OwnsRegister(reg, x, r)))
  {
    hide ScalarMul, IsPrime, Rerandomize, Usable, RerandomizeRegister;
    RegisterIs(reg, d, r);
    if d % r != 0 {
      ScalarKept(reg, d % r, x, r);
    }
  }

  /** Any chain of re-randomisations goes through exactly when no scalar is a multiple of r, and then keeps
      exactly the scalars that own the register. */
  lemma {:induction false} RegisterChainKeepsOwner(reg: Box, ds: seq<int>, x: int, r: nat)
    requires IsPrime(r) && r >= 2 && Usable(reg, r)
    ensures var out := RerandomizeAll(reg, ds, r);
            && (out.Some? <==> forall i :: 0 <= i < |ds| ==> ds[i] % r != 0)
            && (out.Some? ==> Usable(out.value, r) && (OwnsRegister(out.value, x, r) <==> OwnsRegister(reg, x, r)))
  {
    hide IsPrime, OwnsRegister, RerandomizeRegister, Usable;
    if ds != [] {
      var last := |ds| - 1;
      var before := RerandomizeAll(reg, ds[..last], r);
      RegisterChainKeepsOwner(reg, ds[..last], x, r);
      assert forall i :: 0 <= i < last ==> ds[..last][i] == ds[i];
      if before.Some? {
        RegisterStep(before.value, ds[last], x, r);
      }
    }
  }

  /** A register created for x and re-randomised in any way is owned by exactly the scalars equal to x
      mod r. */
  lemma CreatedRegisterOwner(x: int, ds: seq<int>, y: int, r: nat)
    requires IsPrime(r) && r >= 2
    ensures CreateRegister(x, r).Some? <==> x % r != 0
    ensures CreateRegister(x, r).Some? && RerandomizeAll(CreateRegister(x, r).value, ds, r).Some? ==>
              (OwnsRegister(RerandomizeAll(CreateRegister(x, r).value, ds, r).value, y, r) <==> y % r == x % r)
  {
    if x % r != 0 {
      RegisterChainKeepsOwner(Box(1, x % r), ds, y, r);
      hide IsPrime, RerandomizeAll;
    }
  }
}
