/** The fee of a launch transaction (infra/bootstrap/koios-launch.py:330-370). */
module LaunchFee {
  import opened Options

  const FIRST_FEE: nat := 500_000

  const MIN_CHANGE: int := 1_500_000

  /** The k-th fee tried: each is what the body with the one before it needs, plus a margin. */
  function FeeTried(balance: int, minFee: (nat, int) -> nat, k: nat): nat {
    if k == 0 then FIRST_FEE
    else
      var fee := FeeTried(balance, minFee, k - 1);
      minFee(fee, balance - fee) + 50_000
  }

  function Total(xs: seq<nat>): nat { if xs == [] then 0 else Total(xs[..|xs| - 1]) + xs[|xs| - 1] }

  /** An output with a fixed amount, and the least the ledger takes for it. */
  datatype FixedOutput = FixedOutput(lovelace: nat, required: nat)

  function Amounts(fixed: seq<FixedOutput>): seq<nat> {
    seq(|fixed|, i requires 0 <= i < |fixed| => fixed[i].lovelace)
  }

  predicate AllFit(fixed: seq<FixedOutput>) { forall i :: 0 <= i < |fixed| ==> fixed[i].lovelace >= fixed[i].required }

  /** The least change: the launcher's own bound and the ledger's. */
  function Floor(changeMin: nat): int { if changeMin > MIN_CHANGE then changeMin else MIN_CHANGE }

  /** The collateral offered covers the ledger's percentage of the fee, rounded up. */
  predicate Covers(collateral: Option<nat>, percentage: nat, fee: nat) {
    collateral.Some? ==> collateral.value >= (fee * percentage + 99) / 100
  }

  /** The first `k` fees all left enough change and none was final. */
  ghost predicate StillTrying(balance: int, floor: int, minFee: (nat, int) -> nat, k: nat) {
    forall j :: 0 <= j < k ==>
      balance - FeeTried(balance, minFee, j) >= floor && FeeTried(balance, minFee, j) != FeeTried(balance, minFee, j + 1)
  }

  /** Try `k` is the final one. */
  ghost predicate SettlesAt(balance: int, floor: int, minFee: (nat, int) -> nat, k: nat) {
    && StillTrying(balance, floor, minFee, k)
    && balance - FeeTried(balance, minFee, k) >= floor && FeeTried(balance, minFee, k) == FeeTried(balance, minFee, k + 1)
  }

  /** One of six tries is final and its fee is covered. */
  ghost predicate Converges(balance: int, floor: int, minFee: (nat, int) -> nat, collateral: Option<nat>, percentage: nat) {
    exists k :: 0 <= k < 6 && SettlesAt(balance, floor, minFee, k) && Covers(collateral, percentage, FeeTried(balance, minFee, k))
  }

  /** build_tx up to signing (koios-launch.py:330-370). When it answers, inputs and outputs balance, every
      output and the change are large enough, the fee is exactly what this body needs plus the margin, and
      the collateral covers it; it answers exactly when one of six tries is final and nothing is too small. */
  method ConvergeFee(inputs: seq<nat>, fixed: seq<FixedOutput>, changeMin: nat, deposit: nat, minFee: (nat, int) -> nat,
                     collateral: Option<nat>, percentage: nat) returns (r: Option<(nat, int)>)
    ensures r.Some? ==>
              var (fee, change) := r.value;
              && Total(Amounts(fixed)) + deposit + fee + change == Total(inputs) && AllFit(fixed) && change >= Floor(changeMin)
              && fee == minFee(fee, change) + 50_000 && Covers(collateral, percentage, fee)
    ensures var balance := Total(inputs) - Total(Amounts(fixed)) - deposit;
            r.Some? <==> inputs != [] && AllFit(fixed) && Converges(balance, Floor(changeMin), minFee, collateral, percentage)
  {
    hide *;
    if inputs == [] {
      return None;
    }
    var fixedTotal, total := Total(Amounts(fixed)), Total(inputs);
    ghost var balance, floor := total - fixedTotal - deposit, Floor(changeMin);
    var fee := FIRST_FEE;
    FirstTry(balance, floor, minFee, changeMin);
    for k := 0 to 6
      invariant fee == FeeTried(balance, minFee, k) && StillTrying(balance, floor, minFee, k)
    {
      var change := total - fixedTotal - deposit - fee;
      assert change == balance - fee;
      if change < MIN_CHANGE || !AllFit(fixed) || change < changeMin {
        if AllFit(fixed) {
          NoOtherTry(balance, floor, minFee, k, collateral, percentage);
        }
        return None;
      }
      var adjusted := minFee(fee, change) + 50_000;
      NextTry(balance, floor, minFee, k);
      if adjusted == fee {
        NoOtherTry(balance, floor, minFee, k, collateral, percentage);
        return if Covers(collateral, percentage, fee) then Some((fee, change)) else None;
      }
      fee := adjusted;
    }
    NoTryLeft(balance, floor, minFee, collateral, percentage);
    r := None;
  }

  lemma FirstTry(balance: int, floor: int, minFee: (nat, int) -> nat, changeMin: nat)
    ensures FeeTried(balance, minFee, 0) == FIRST_FEE && StillTrying(balance, floor, minFee, 0)
    ensures Floor(changeMin) == MIN_CHANGE >= changeMin || Floor(changeMin) == changeMin >= MIN_CHANGE
  {
  }

  lemma NextTry(balance: int, floor: int, minFee: (nat, int) -> nat, k: nat)
    requires StillTrying(balance, floor, minFee, k)
    ensures var fee := FeeTried(balance, minFee, k);
            var next := minFee(fee, balance - fee) + 50_000;
            && FeeTried(balance, minFee, k + 1) == next
            && (balance - fee >= floor && next != fee ==> StillTrying(balance, floor, minFee, k + 1))
  {
  }

  /** The loop stops at the only try that can be final. */
  lemma NoOtherTry(balance: int, floor: int, minFee: (nat, int) -> nat, k: nat, collateral: Option<nat>, percentage: nat)
    requires StillTrying(balance, floor, minFee, k) && k < 6
    requires balance - FeeTried(balance, minFee, k) < floor || FeeTried(balance, minFee, k) == FeeTried(balance, minFee, k + 1)
    ensures Converges(balance, floor, minFee, collateral, percentage) <==>
            balance - FeeTried(balance, minFee, k) >= floor && Covers(collateral, percentage, FeeTried(balance, minFee, k))
  {
    hide FeeTried, Covers;
    if balance - FeeTried(balance, minFee, k) >= floor {
      assert SettlesAt(balance, floor, minFee, k);
    }
  }

  lemma NoTryLeft(balance: int, floor: int, minFee: (nat, int) -> nat, collateral: Option<nat>, percentage: nat)
    requires StillTrying(balance, floor, minFee, 6)
    ensures !Converges(balance, floor, minFee, collateral, percentage)
  {
    hide FeeTried, Covers;
  }
}
