/** When a placement may join orders already working (`domain/order_concurrency.py`).

    Money is counted in the smallest price unit, so every amount is an integer. Contract
    ids and order references are compared only, so they are numbers here. A denial is the source's
    denial text reduced to what it names. */
module OrderConcurrency {
  import opened Optionals

  type OptionId = nat

  datatype PlacementLeg = PlacementLeg(optionId: OptionId, closing: bool)

  datatype NewPlacement = NewPlacement(
    legs: seq<PlacementLeg>, quantity: Option<nat>, limitPrice: Option<nat>)

  datatype WorkingPlacement = WorkingPlacement(
    orderRef: nat, optionId: Option<OptionId>, closing: bool,
    remaining: Option<int>, limitPrice: Option<nat>)

  datatype AccountSnapshot = AccountSnapshot(
    agenticVerified: bool, asOf: int, settledCash: Option<int>)

  /** `account_state_max_age_seconds`: a limit, the `none` marker, or any other marker. */
  datatype AgeRule = MaxAge(seconds: nat) | NoLimit | NotSet

  /** Verified multiplier of each contract read this run; an absent key is unverified. */
  type Multipliers = map<OptionId, nat>

  datatype Gap = WorkingGap(orderRef: nat) | NewOrderGap | CashGap

  datatype Denial =
    | PlacementInFlight
    | SameContract(labels: seq<nat>)
    | NotAllCloses
    | FundsUnverified(gaps: seq<Gap>)
    | FundsExceeded(total: nat, cash: int)

  /** What one order would cost, when every factor is known. */
  function Debit(price: Option<nat>, multiplier: Option<nat>, quantity: Option<int>): (r: Option<nat>)
    ensures r.Some? <==> price.Some? && multiplier.Some? && quantity.Some? && quantity.value >= 0
  {
    if price.Some? && multiplier.Some? && quantity.Some? && quantity.value >= 0
    then var q: nat := quantity.value; Some(price.value * multiplier.value * q)
    else None
  }

  function MultiplierOf(multipliers: Multipliers, id: Option<OptionId>): Option<nat> {
    if id.Some? && id.value in multipliers then Some(multipliers[id.value]) else None
  }

  function WorkingDebit(w: WorkingPlacement, multipliers: Multipliers): Option<nat> {
    Debit(w.limitPrice, MultiplierOf(multipliers, w.optionId), w.remaining)
  }

  function QuantityOf(new_: NewPlacement): Option<int> {
    if new_.quantity.Some? then Some(new_.quantity.value) else None
  }

  function LegDebit(new_: NewPlacement, leg: PlacementLeg, multipliers: Multipliers): Option<nat> {
    Debit(new_.limitPrice, MultiplierOf(multipliers, Some(leg.optionId)), QuantityOf(new_))
  }

  function Amount(debit: Option<nat>): nat {
    if debit.Some? then debit.value else 0
  }

  /** The debits of the working orders that have one. */
  function WorkingTotal(working: seq<WorkingPlacement>, multipliers: Multipliers): nat {
    if working == [] then 0
    else WorkingTotal(working[..|working| - 1], multipliers)
         + Amount(WorkingDebit(working[|working| - 1], multipliers))
  }

  function LegsTotal(new_: NewPlacement, legs: seq<PlacementLeg>, multipliers: Multipliers): nat {
    if legs == [] then 0
    else LegsTotal(new_, legs[..|legs| - 1], multipliers)
         + Amount(LegDebit(new_, legs[|legs| - 1], multipliers))
  }

  /** The account's settled cash, as far as a check may count on it: read for the verified account,
      under an age rule that is set, and no older than its limit, if it has one. */
  predicate VerifiedCash(account: Option<AccountSnapshot>, maxAge: AgeRule, now: int, cash: int) {
    && account.Some? && account.value.agenticVerified && account.value.settledCash == Some(cash)
    && match maxAge
       case MaxAge(seconds) => 0 <= now - account.value.asOf <= seconds
       case NoLimit => true
       case NotSet => false
  }

  /** The settled cash a check may count on, or None when it cannot be verified. */
  function Cash(account: Option<AccountSnapshot>, maxAge: AgeRule, now: int): (r: Option<int>)
    ensures forall cash :: r == Some(cash) <==> VerifiedCash(account, maxAge, now, cash)
  {
    if account.None? || !account.value.agenticVerified then None
    else if maxAge.NotSet? then None
    else if maxAge.MaxAge? && !(0 <= now - account.value.asOf <= maxAge.seconds) then None
    else account.value.settledCash
  }

  predicate OnContractOf(w: WorkingPlacement, new_: NewPlacement) {
    w.optionId.Some? && exists i :: 0 <= i < |new_.legs| && new_.legs[i].optionId == w.optionId.value
  }

  predicate AllClosing(new_: NewPlacement, working: seq<WorkingPlacement>) {
    && (forall i :: 0 <= i < |new_.legs| ==> new_.legs[i].closing)
    && (forall i :: 0 <= i < |working| ==> working[i].closing)
  }

  predicate AllPriced(new_: NewPlacement, working: seq<WorkingPlacement>, multipliers: Multipliers) {
    && (forall i :: 0 <= i < |working| ==> WorkingDebit(working[i], multipliers).Some?)
    && (forall i :: 0 <= i < |new_.legs| ==> LegDebit(new_, new_.legs[i], multipliers).Some?)
  }

  /** The rule the module documents (ADR-0051): what may work beside what. */
  predicate Admissible(
    new_: NewPlacement, working: seq<WorkingPlacement>, inFlight: nat,
    multipliers: Multipliers, cash: Option<int>)
  {
    && inFlight == 0
    && (working != [] ==>
          && (forall i :: 0 <= i < |working| ==> !OnContractOf(working[i], new_))
          && AllClosing(new_, working)
          && AllPriced(new_, working, multipliers)
          && cash.Some?
          && WorkingTotal(working, multipliers) + LegsTotal(new_, new_.legs, multipliers) <= cash.value)
  }

  // ---- The rule, from the fields --------------------------------------------------------------

  function Sum(amounts: seq<nat>): nat {
    if amounts == [] then 0 else Sum(amounts[..|amounts| - 1]) + amounts[|amounts| - 1]
  }

  /** Everything a working order's debit needs is known. */
  predicate Known(w: WorkingPlacement, multipliers: Multipliers) {
    && w.limitPrice.Some? && w.optionId.Some? && w.optionId.value in multipliers
    && w.remaining.Some? && w.remaining.value >= 0
  }

  predicate LegKnown(new_: NewPlacement, leg: PlacementLeg, multipliers: Multipliers) {
    new_.limitPrice.Some? && new_.quantity.Some? && leg.optionId in multipliers
  }

  /** The working orders' debits: limit price, contract's multiplier, and what is left, all known. */
  predicate Debits(working: seq<WorkingPlacement>, multipliers: Multipliers, debits: seq<nat>) {
    |debits| == |working| && forall i :: 0 <= i < |working| ==>
      && Known(working[i], multipliers)
      && debits[i] == working[i].limitPrice.value * multipliers[working[i].optionId.value] * working[i].remaining.value
  }

  predicate LegDebits(new_: NewPlacement, multipliers: Multipliers, debits: seq<nat>) {
    |debits| == |new_.legs| && forall i :: 0 <= i < |new_.legs| ==>
      && LegKnown(new_, new_.legs[i], multipliers)
      && debits[i] == new_.limitPrice.value * multipliers[new_.legs[i].optionId] * new_.quantity.value
  }

  /** A placement may work: nothing else is being placed, and it is alone, or one of closes on
      different contracts whose debits are all known and together within verified cash. */
  ghost predicate MayWork(
    new_: NewPlacement, working: seq<WorkingPlacement>, inFlight: nat, multipliers: Multipliers,
    account: Option<AccountSnapshot>, maxAge: AgeRule, now: int)
  {
    && inFlight == 0
    && (working != [] ==>
          && (forall i, k :: 0 <= i < |working| && 0 <= k < |new_.legs| ==>
                working[i].optionId != Some(new_.legs[k].optionId))
          && (forall k :: 0 <= k < |new_.legs| ==> new_.legs[k].closing)
          && (forall i :: 0 <= i < |working| ==> working[i].closing)
          && Funded(new_, working, multipliers, account, maxAge, now))
  }

  ghost predicate Funded(
    new_: NewPlacement, working: seq<WorkingPlacement>, multipliers: Multipliers,
    account: Option<AccountSnapshot>, maxAge: AgeRule, now: int)
  {
    exists debits, legDebits, cash ::
      && Debits(working, multipliers, debits) && LegDebits(new_, multipliers, legDebits)
      && VerifiedCash(account, maxAge, now, cash) && Sum(debits) + Sum(legDebits) <= cash
  }

  lemma {:induction false} WorkingSum(working: seq<WorkingPlacement>, multipliers: Multipliers) returns (debits: seq<nat>)
    requires forall i :: 0 <= i < |working| ==> WorkingDebit(working[i], multipliers).Some?
    ensures Debits(working, multipliers, debits) && Sum(debits) == WorkingTotal(working, multipliers)
  {
    if working == [] {
      debits := [];
    } else {
      var n := |working| - 1;
      var before := WorkingSum(working[..n], multipliers);
      debits := before + [WorkingDebit(working[n], multipliers).value];
      assert debits[..n] == before;
    }
  }

  lemma {:induction false} LegsSum(new_: NewPlacement, legs: seq<PlacementLeg>, multipliers: Multipliers)
    returns (debits: seq<nat>)
    requires forall i :: 0 <= i < |legs| ==> LegDebit(new_, legs[i], multipliers).Some?
    ensures LegDebits(new_.(legs := legs), multipliers, debits) && Sum(debits) == LegsTotal(new_, legs, multipliers)
  {
    if legs == [] {
      debits := [];
    } else {
      var n := |legs| - 1;
      var before := LegsSum(new_, legs[..n], multipliers);
      debits := before + [LegDebit(new_, legs[n], multipliers).value];
      assert debits[..n] == before;
    }
  }

  lemma DebitsAreDebits(working: seq<WorkingPlacement>, multipliers: Multipliers, a: seq<nat>, b: seq<nat>)
    requires Debits(working, multipliers, a) && Debits(working, multipliers, b)
    ensures a == b
  { }

  lemma LegDebitsAreDebits(new_: NewPlacement, multipliers: Multipliers, a: seq<nat>, b: seq<nat>)
    requires LegDebits(new_, multipliers, a) && LegDebits(new_, multipliers, b)
    ensures a == b
  { }

  lemma PricedExactlyWhen(new_: NewPlacement, working: seq<WorkingPlacement>, multipliers: Multipliers)
    ensures AllPriced(new_, working, multipliers)
            <==> && (exists debits :: Debits(working, multipliers, debits))
                 && (exists debits :: LegDebits(new_, multipliers, debits))
  {
    if AllPriced(new_, working, multipliers) {
      var a := WorkingSum(working, multipliers);
      var b := LegsSum(new_, new_.legs, multipliers);
      assert new_.(legs := new_.legs) == new_;
    }
  }

  lemma FundedExactlyWhen(
    new_: NewPlacement, working: seq<WorkingPlacement>, multipliers: Multipliers,
    account: Option<AccountSnapshot>, maxAge: AgeRule, now: int)
    ensures Funded(new_, working, multipliers, account, maxAge, now)
            <==> && AllPriced(new_, working, multipliers)
                 && Cash(account, maxAge, now).Some?
                 && WorkingTotal(working, multipliers) + LegsTotal(new_, new_.legs, multipliers)
                    <= Cash(account, maxAge, now).value
  {
    PricedExactlyWhen(new_, working, multipliers);
    if AllPriced(new_, working, multipliers) {
      var a := WorkingSum(working, multipliers);
      var b := LegsSum(new_, new_.legs, multipliers);
      assert new_.(legs := new_.legs) == new_;
      forall debits, legDebits | Debits(working, multipliers, debits) && LegDebits(new_, multipliers, legDebits)
        ensures debits == a && legDebits == b
      {
        DebitsAreDebits(working, multipliers, debits, a);
        LegDebitsAreDebits(new_, multipliers, legDebits, b);
      }
      if Cash(account, maxAge, now).Some? {
        assert VerifiedCash(account, maxAge, now, Cash(account, maxAge, now).value);
      }
    }
  }

  /** The two ways to say the rule. */
  lemma AdmissibleExactlyWhen(
    new_: NewPlacement, working: seq<WorkingPlacement>, inFlight: nat, multipliers: Multipliers,
    account: Option<AccountSnapshot>, maxAge: AgeRule, now: int)
    ensures MayWork(new_, working, inFlight, multipliers, account, maxAge, now)
            <==> Admissible(new_, working, inFlight, multipliers, Cash(account, maxAge, now))
  {
    FundedExactlyWhen(new_, working, multipliers, account, maxAge, now);
    assert (forall i :: 0 <= i < |working| ==> !OnContractOf(working[i], new_))
           <==> (forall i, k :: 0 <= i < |working| && 0 <= k < |new_.legs| ==>
                   working[i].optionId != Some(new_.legs[k].optionId));
  }

  method SameContractLabels(new_: NewPlacement, working: seq<WorkingPlacement>) returns (labels: seq<nat>)
    ensures labels == [] <==> forall i :: 0 <= i < |working| ==> !OnContractOf(working[i], new_)
    ensures forall l :: l in labels <==>
              exists i :: 0 <= i < |working| && OnContractOf(working[i], new_) && working[i].orderRef == l
  {
    var contracts := set leg | leg in new_.legs :: leg.optionId;
    labels := [];
    for k := 0 to |working|
      invariant labels == [] <==> forall i :: 0 <= i < k ==> !OnContractOf(working[i], new_)
      invariant forall l :: l in labels <==>
                  exists i :: 0 <= i < k && OnContractOf(working[i], new_) && working[i].orderRef == l
    {
      if working[k].optionId.Some? && working[k].optionId.value in contracts {
        labels := labels + [working[k].orderRef];
      }
    }
  }

  /** The loop over the working orders: their debits, and a gap for each that has none. */
  method SumWorking(working: seq<WorkingPlacement>, multipliers: Multipliers) returns (total: nat, gaps: seq<Gap>)
    ensures gaps == [] <==> forall i :: 0 <= i < |working| ==> WorkingDebit(working[i], multipliers).Some?
    ensures forall l :: WorkingGap(l) in gaps <==>
              exists i :: 0 <= i < |working| && working[i].orderRef == l && !Known(working[i], multipliers)
    ensures total == WorkingTotal(working, multipliers)
    ensures CashGap !in gaps && NewOrderGap !in gaps
  {
    total, gaps := 0, [];
    for k := 0 to |working|
      invariant gaps == [] <==> forall i :: 0 <= i < k ==> WorkingDebit(working[i], multipliers).Some?
      invariant forall l :: WorkingGap(l) in gaps <==>
                  exists i :: 0 <= i < k && working[i].orderRef == l && !Known(working[i], multipliers)
      invariant total == WorkingTotal(working[..k], multipliers)
      invariant CashGap !in gaps && NewOrderGap !in gaps
    {
      assert working[..k + 1][..k] == working[..k];
      match WorkingDebit(working[k], multipliers)
      case None => gaps := gaps + [WorkingGap(working[k].orderRef)];
      case Some(debit) => total := total + debit;
    }
    assert working[..|working|] == working;
  }

  /** The loop over the new order's legs. */
  method SumLegs(new_: NewPlacement, multipliers: Multipliers) returns (total: nat, gaps: seq<Gap>)
    ensures gaps == [] <==> forall i :: 0 <= i < |new_.legs| ==> LegDebit(new_, new_.legs[i], multipliers).Some?
    ensures NewOrderGap in gaps <==> exists i :: 0 <= i < |new_.legs| && !LegKnown(new_, new_.legs[i], multipliers)
    ensures total == LegsTotal(new_, new_.legs, multipliers)
    ensures forall gap :: gap in gaps ==> gap == NewOrderGap
  {
    total, gaps := 0, [];
    for k := 0 to |new_.legs|
      invariant gaps == [] <==> forall i :: 0 <= i < k ==> LegDebit(new_, new_.legs[i], multipliers).Some?
      invariant NewOrderGap in gaps <==> exists i :: 0 <= i < k && !LegKnown(new_, new_.legs[i], multipliers)
      invariant total == LegsTotal(new_, new_.legs[..k], multipliers)
      invariant forall gap :: gap in gaps ==> gap == NewOrderGap
    {
      assert new_.legs[..k + 1][..k] == new_.legs[..k];
      match LegDebit(new_, new_.legs[k], multipliers)
      case None => gaps := gaps + [NewOrderGap];
      case Some(debit) => total := total + debit;
    }
    assert new_.legs[..|new_.legs|] == new_.legs;
  }

  /** The funds gaps and the debits of the working orders and the new one. */
  method SumDebits(new_: NewPlacement, working: seq<WorkingPlacement>, multipliers: Multipliers)
    returns (total: nat, gaps: seq<Gap>)
    ensures gaps == [] <==> AllPriced(new_, working, multipliers)
    ensures forall l :: WorkingGap(l) in gaps <==>
              exists i :: 0 <= i < |working| && working[i].orderRef == l && !Known(working[i], multipliers)
    ensures NewOrderGap in gaps <==> exists i :: 0 <= i < |new_.legs| && !LegKnown(new_, new_.legs[i], multipliers)
    ensures total == WorkingTotal(working, multipliers) + LegsTotal(new_, new_.legs, multipliers)
    ensures CashGap !in gaps
  {
    var workingTotal, workingGaps := SumWorking(working, multipliers);
    var legsTotal, legGaps := SumLegs(new_, multipliers);
    total, gaps := workingTotal + legsTotal, workingGaps + legGaps;
  }

  /** `check_concurrency`: no denial exactly when the placement is admissible, and each
      denial exactly when its own rule is the first one broken. */
  method CheckConcurrency(
    new_: NewPlacement, working: seq<WorkingPlacement>, inFlight: nat, multipliers: Multipliers,
    account: Option<AccountSnapshot>, maxAge: AgeRule, now: int)
    returns (denial: Option<Denial>)
    ensures denial.None? <==> MayWork(new_, working, inFlight, multipliers, account, maxAge, now)
    ensures denial.None? <==> Admissible(new_, working, inFlight, multipliers, Cash(account, maxAge, now))
    ensures denial == Some(PlacementInFlight) <==> inFlight > 0
    ensures denial.Some? && denial.value.SameContract? <==>
              inFlight == 0 && exists i :: 0 <= i < |working| && OnContractOf(working[i], new_)
    ensures denial.Some? && denial.value.SameContract? ==>
              forall l :: l in denial.value.labels <==>
                exists i :: 0 <= i < |working| && OnContractOf(working[i], new_) && working[i].orderRef == l
    ensures denial == Some(NotAllCloses) <==>
              && inFlight == 0 && working != []
              && (forall i :: 0 <= i < |working| ==> !OnContractOf(working[i], new_))
              && !AllClosing(new_, working)
    ensures denial.Some? && denial.value.FundsUnverified? ==>
              && denial.value.gaps != []
              && (forall l :: WorkingGap(l) in denial.value.gaps <==>
                    exists i :: 0 <= i < |working| && working[i].orderRef == l && !Known(working[i], multipliers))
              && (NewOrderGap in denial.value.gaps <==>
                    exists i :: 0 <= i < |new_.legs| && !LegKnown(new_, new_.legs[i], multipliers))
              && (CashGap in denial.value.gaps <==> forall cash :: !VerifiedCash(account, maxAge, now, cash))
    ensures denial.Some? && denial.value.FundsExceeded? ==>
              && AllPriced(new_, working, multipliers)
              && VerifiedCash(account, maxAge, now, denial.value.cash)
              && denial.value.total == WorkingTotal(working, multipliers) + LegsTotal(new_, new_.legs, multipliers)
              && denial.value.total > denial.value.cash
  {
    AdmissibleExactlyWhen(new_, working, inFlight, multipliers, account, maxAge, now);
    if inFlight > 0 {
      return Some(PlacementInFlight);
    }
    if working == [] {
      return None;
    }
    var labels := SameContractLabels(new_, working);
    if labels != [] {
      return Some(SameContract(labels));
    }
    if !AllClosing(new_, working) {
      return Some(NotAllCloses);
    }
    var total, gaps := SumDebits(new_, working, multipliers);
    var cash := Cash(account, maxAge, now);
    if cash.None? {
      gaps := gaps + [CashGap];
    }
    if gaps != [] {
      return Some(FundsUnverified(gaps));
    }
    if total > cash.value {
      return Some(FundsExceeded(total, cash.value));
    }
    return None;
  }

  lemma {:induction false} TotalWithout(working: seq<WorkingPlacement>, i: nat, multipliers: Multipliers)
    requires i < |working|
    ensures WorkingTotal(working[..i] + working[i + 1..], multipliers)
            == WorkingTotal(working, multipliers) - Amount(WorkingDebit(working[i], multipliers))
  {
    var n := |working| - 1;
    if i == n {
      assert working[..i] + working[i + 1..] == working[..n];
    } else {
      var rest := working[..i] + working[i + 1..];
      assert rest[..|rest| - 1] == working[..n][..i] + working[..n][i + 1..];
      assert rest[|rest| - 1] == working[n];
      TotalWithout(working[..n], i, multipliers);
    }
  }

  /** Counting a resolved order as still working can only deny: whatever is admissible
      beside a list of working orders is admissible with any one of them gone. */
  lemma AdmissibleWithout(
    new_: NewPlacement, working: seq<WorkingPlacement>, i: nat,
    multipliers: Multipliers, cash: Option<int>)
    requires i < |working|
    requires Admissible(new_, working, 0, multipliers, cash)
    ensures Admissible(new_, working[..i] + working[i + 1..], 0, multipliers, cash)
  {
    TotalWithout(working, i, multipliers);
    var rest := working[..i] + working[i + 1..];
    forall k | 0 <= k < |rest| ensures rest[k] in working { }
  }
}
