/** The dry-run reservation simulation (`domain/assembly.py`, `_Sim`, `simulate`, `reserve`,
    `_dry_attempt`): hypothetical orders, in priority order, against one baseline. Amounts are
    scaled integers. */
module DryRun {
  import opened Optionals
  import opened Arithmetic

  type Key = nat
  type Amounts = map<Key, Option<int>>

  datatype Use = Use(key: Key, perContract: int)

  /** `ResourceUse` and `ReservationRequirement`: a positive use of each key, each key once. */
  predicate ValidUses(uses: seq<Use>) {
    && (forall i :: 0 <= i < |uses| ==> uses[i].perContract > 0)
    && forall i, j :: 0 <= i < j < |uses| ==> uses[i].key != uses[j].key
  }

  /** One proposed leg. `base` is the fact set's quantity; `uses` is None when its resource use
      is unknown; `noCloseQuantity` is a discretionary close without a quantity; a
      `conditional` leg hangs on a hypothetical close. */
  datatype Leg = Leg(base: Option<nat>, uses: Option<seq<Use>>, noCloseQuantity: bool, conditional: bool, price: int) {
    predicate Valid() { uses.Some? ==> ValidUses(uses.value) }
  }

  datatype Outcome = Unavailable | NoCapacity | BadPrice(quantity: nat) | Attempted(quantity: nat)

  function AmountOf(amounts: Amounts, key: Key): Option<int> {
    if key in amounts then amounts[key] else None
  }

  // ---- What a quantity must be -----------------------------------------------------------

  /** The quantity of contracts fits the amounts left, and the fact set's cap. */
  predicate Fits(amounts: Amounts, base: nat, uses: seq<Use>, quantity: nat) {
    && quantity <= base
    && forall i :: 0 <= i < |uses| && AmountOf(amounts, uses[i].key).Some? ==>
         quantity == 0 || quantity * uses[i].perContract <= AmountOf(amounts, uses[i].key).value
  }

  ghost predicate Largest(amounts: Amounts, base: nat, uses: seq<Use>, quantity: nat) {
    forall q: nat :: Fits(amounts, base, uses, q) <==> q <= quantity
  }

  predicate AllKnown(amounts: Amounts, uses: seq<Use>) {
    forall i :: 0 <= i < |uses| ==> AmountOf(amounts, uses[i].key).Some?
  }

  /** The simulated quantity: none without a cap, with a needed amount unknown, or with the
      resource use unknown after something was reserved; else the largest that fits. */
  ghost predicate QuantityIs(amounts: Amounts, reservedAny: bool, leg: Leg, quantity: Option<nat>) {
    if leg.base.None? then quantity.None?
    else if leg.uses.None? then quantity == if reservedAny then None else leg.base
    else if !AllKnown(amounts, leg.uses.value) then quantity.None?
    else quantity.Some? && Largest(amounts, leg.base.value, leg.uses.value, quantity.value)
  }

  function FloorDiv(amount: int, per: int): (r: nat)
    requires per > 0
  {
    if amount <= 0 then 0 else amount / per
  }

  lemma {:induction false} FloorDivIsLargest(amount: int, per: int, q: nat)
    requires per > 0
    ensures q <= FloorDiv(amount, per) <==> q == 0 || q * per <= amount
  {
    var r := FloorDiv(amount, per);
    if amount <= 0 {
      if q > 0 { MulMonotone(1, q, per); }
    } else {
      assert r * per <= amount < (r + 1) * per;
      if q <= r { MulMonotone(q, r, per); } else { MulMonotone(r + 1, q, per); }
    }
  }

  function Min(a: nat, b: nat): nat { if a <= b then a else b }

  lemma OneMoreUse(amounts: Amounts, base: nat, uses: seq<Use>, k: nat, quantity: nat)
    requires k < |uses| && ValidUses(uses) && AmountOf(amounts, uses[k].key).Some?
    requires Largest(amounts, base, uses[..k], quantity)
    ensures Largest(amounts, base, uses[..k + 1],
                    Min(quantity, FloorDiv(AmountOf(amounts, uses[k].key).value, uses[k].perContract)))
  {
    var amount, per := AmountOf(amounts, uses[k].key).value, uses[k].perContract;
    var more := uses[..k + 1];
    forall q: nat ensures Fits(amounts, base, more, q) <==> q <= Min(quantity, FloorDiv(amount, per))
    {
      FloorDivIsLargest(amount, per, q);
      FitsOneMore(amounts, base, uses, k, q);
      assert Fits(amounts, base, uses[..k], q) <==> q <= quantity;
    }
  }

  lemma FitsOneMore(amounts: Amounts, base: nat, uses: seq<Use>, k: nat, q: nat)
    requires k < |uses| && AmountOf(amounts, uses[k].key).Some?
    ensures Fits(amounts, base, uses[..k + 1], q) <==>
            Fits(amounts, base, uses[..k], q)
            && (q == 0 || q * uses[k].perContract <= AmountOf(amounts, uses[k].key).value)
  {
    assert uses[..k + 1][k] == uses[k];
    forall i | 0 <= i < k ensures uses[..k + 1][i] == uses[..k][i] { }
  }

  // ---- What a reservation leaves ----------------------------------------------------------

  /** What one contract uses of the key. */
  function Per(uses: seq<Use>, key: Key): int {
    if uses == [] then 0
    else Per(uses[..|uses| - 1], key) + if uses[|uses| - 1].key == key then uses[|uses| - 1].perContract else 0
  }

  function Less(amount: Option<int>, taken: int): Option<int> {
    if amount.Some? then Some(amount.value - taken) else None
  }

  /** The known amounts less the quantity's use of each. */
  function After(amounts: Amounts, uses: seq<Use>, quantity: nat): Amounts {
    map key | key in amounts :: Less(amounts[key], quantity * Per(uses, key))
  }

  predicate Reserves(leg: Leg, outcome: Outcome) { outcome.Attempted? && !leg.conditional }

  function Step(amounts: Amounts, leg: Leg, outcome: Outcome): Amounts {
    if Reserves(leg, outcome) && leg.uses.Some? then After(amounts, leg.uses.value, outcome.quantity) else amounts
  }

  /** The quantity a leg is given, before its price is looked at. */
  ghost predicate Intended(amounts: Amounts, reservedAny: bool, leg: Leg, quantity: Option<nat>) {
    if leg.noCloseQuantity then quantity == None
    else if leg.conditional then quantity == leg.base
    else QuantityIs(amounts, reservedAny, leg, quantity)
  }

  function OutcomeOf(leg: Leg, quantity: Option<nat>): Outcome {
    if quantity.None? then Unavailable
    else if quantity.value == 0 then NoCapacity
    else if leg.price <= 0 then BadPrice(quantity.value)
    else Attempted(quantity.value)
  }

  /** What an intended quantity comes to: an attempt only of a positive quantity at a positive price. */
  predicate Decides(leg: Leg, quantity: Option<nat>, outcome: Outcome) {
    match outcome
    case Unavailable => quantity == None
    case NoCapacity => quantity == Some(0)
    case BadPrice(n) => quantity == Some(n) && n > 0 && leg.price <= 0
    case Attempted(n) => quantity == Some(n) && n > 0 && leg.price > 0
  }

  /** What the simulation must decide for a leg, given the amounts left. */
  ghost predicate OutcomeIs(amounts: Amounts, reservedAny: bool, leg: Leg, outcome: Outcome) {
    exists quantity :: Intended(amounts, reservedAny, leg, quantity) && Decides(leg, quantity, outcome)
  }

  class DrySim {
    var available: Amounts
    var reservedAny: bool

    constructor (baseline: Amounts)
      ensures available == baseline && !reservedAny
    {
      available, reservedAny := baseline, false;
    }

    /** `simulate`. */
    method Simulate(leg: Leg) returns (quantity: Option<nat>)
      requires leg.Valid()
      ensures QuantityIs(available, reservedAny, leg, quantity)
    {
      if leg.base.None? { return None; }
      if leg.uses.None? { return if reservedAny then None else leg.base; }
      var uses := leg.uses.value;
      var q := leg.base.value;
      for k := 0 to |uses|
        invariant Largest(available, leg.base.value, uses[..k], q)
        invariant AllKnown(available, uses[..k])
      {
        var amount := AmountOf(available, uses[k].key);
        if amount.None? {
          return None;
        }
        OneMoreUse(available, leg.base.value, uses, k, q);
        q := Min(q, FloorDiv(amount.value, uses[k].perContract));
      }
      assert uses[..|uses|] == uses;
      return Some(q);
    }

    /** `reserve`. */
    method Reserve(uses: Option<seq<Use>>, quantity: nat)
      requires uses.Some? ==> ValidUses(uses.value)
      modifies this
      ensures reservedAny
      ensures available == if uses.Some? then After(old(available), uses.value, quantity) else old(available)
    {
      reservedAny := true;
      if uses.None? { return; }
      AfterNone(available, quantity);
      for k := 0 to |uses.value|
        invariant reservedAny && available == After(old(available), uses.value[..k], quantity)
      {
        var use := uses.value[k];
        AfterOneMore(old(available), uses.value, k, quantity);
        if AmountOf(available, use.key).Some? {
          available := available[use.key := Some(available[use.key].value - use.perContract * quantity)];
        }
      }
      assert uses.value[..|uses.value|] == uses.value;
    }

    /** `_dry_attempt`. */
    method DryAttempt(leg: Leg) returns (outcome: Outcome)
      requires leg.Valid()
      modifies this
      ensures OutcomeIs(old(available), old(reservedAny), leg, outcome)
      ensures available == Step(old(available), leg, outcome)
      ensures reservedAny <==> old(reservedAny) || Reserves(leg, outcome)
    {
      var quantity: Option<nat> := None;
      if !leg.noCloseQuantity {
        if leg.conditional {
          quantity := leg.base;
        } else {
          quantity := Simulate(leg);
        }
      }
      assert Intended(available, reservedAny, leg, quantity);
      outcome := OutcomeOf(leg, quantity);
      if outcome.Attempted? && !leg.conditional {
        Reserve(leg.uses, outcome.quantity);
      }
    }
  }

  lemma AfterNone(amounts: Amounts, quantity: nat)
    ensures After(amounts, [], quantity) == amounts
  {
    assert Per([], 0) == 0;
    forall key | key in amounts ensures Less(amounts[key], quantity * Per([], key)) == amounts[key] { }
  }

  lemma AfterOneMore(amounts: Amounts, uses: seq<Use>, k: nat, quantity: nat)
    requires k < |uses|
    ensures var before, key := After(amounts, uses[..k], quantity), uses[k].key;
            After(amounts, uses[..k + 1], quantity)
            == if AmountOf(before, key).Some?
               then before[key := Some(before[key].value - uses[k].perContract * quantity)] else before
  {
    assert uses[..k + 1][..k] == uses[..k];
    forall key: Key ensures quantity * Per(uses[..k + 1], key)
                    == quantity * Per(uses[..k], key) + if uses[k].key == key then uses[k].perContract * quantity else 0
    {
      Distribute(quantity, Per(uses[..k], key), uses[k].perContract);
    }
  }

  lemma Distribute(q: int, a: int, b: int)
    ensures q * (a + b) == q * a + b * q
  { }

  // ---- The whole simulation -----------------------------------------------------------------

  /** The amounts left after the first n outcomes. */
  function Left(baseline: Amounts, legs: seq<Leg>, outcomes: seq<Outcome>, n: nat): Amounts
    requires n <= |legs| && n <= |outcomes|
  {
    if n == 0 then baseline else Step(Left(baseline, legs, outcomes, n - 1), legs[n - 1], outcomes[n - 1])
  }

  predicate AnyReserved(legs: seq<Leg>, outcomes: seq<Outcome>, n: nat)
    requires n <= |legs| && n <= |outcomes|
  {
    n > 0 && (AnyReserved(legs, outcomes, n - 1) || Reserves(legs[n - 1], outcomes[n - 1]))
  }

  /** Each of the first n outcomes is what the amounts left by the earlier ones require. */
  ghost predicate Simulated(baseline: Amounts, legs: seq<Leg>, outcomes: seq<Outcome>, n: nat)
    requires n <= |legs| && n <= |outcomes|
  {
    n == 0 || (Simulated(baseline, legs, outcomes, n - 1)
               && OutcomeIs(Left(baseline, legs, outcomes, n - 1), AnyReserved(legs, outcomes, n - 1),
                            legs[n - 1], outcomes[n - 1]))
  }

  lemma {:induction false} SimulatedAt(baseline: Amounts, legs: seq<Leg>, outcomes: seq<Outcome>, n: nat, i: nat)
    requires i < n <= |legs| && n <= |outcomes| && Simulated(baseline, legs, outcomes, n)
    ensures OutcomeIs(Left(baseline, legs, outcomes, i), AnyReserved(legs, outcomes, i), legs[i], outcomes[i])
  {
    if i < n - 1 { SimulatedAt(baseline, legs, outcomes, n - 1, i); }
  }

  /** What the first n reserving attempts use of the key. */
  function Used(legs: seq<Leg>, outcomes: seq<Outcome>, n: nat, key: Key): int
    requires n <= |legs| && n <= |outcomes|
  {
    if n == 0 then 0
    else Used(legs, outcomes, n - 1, key)
         + if Reserves(legs[n - 1], outcomes[n - 1]) && legs[n - 1].uses.Some?
           then outcomes[n - 1].quantity * Per(legs[n - 1].uses.value, key) else 0
  }

  lemma {:induction false} LeftMore(baseline: Amounts, legs: seq<Leg>, outcomes: seq<Outcome>, next: Outcome, n: nat)
    requires n <= |legs| && n <= |outcomes|
    ensures Left(baseline, legs, outcomes + [next], n) == Left(baseline, legs, outcomes, n)
    ensures AnyReserved(legs, outcomes + [next], n) == AnyReserved(legs, outcomes, n)
    ensures Simulated(baseline, legs, outcomes + [next], n) == Simulated(baseline, legs, outcomes, n)
  {
    if n > 0 { LeftMore(baseline, legs, outcomes, next, n - 1); }
  }

  /** The proposals in priority order, each against what the earlier ones left. */
  method RunDry(baseline: Amounts, legs: seq<Leg>) returns (outcomes: seq<Outcome>)
    requires forall i :: 0 <= i < |legs| ==> legs[i].Valid()
    ensures |outcomes| == |legs| && Simulated(baseline, legs, outcomes, |legs|)
  {
    var sim := new DrySim(baseline);
    outcomes := [];
    for n := 0 to |legs|
      invariant |outcomes| == n && Simulated(baseline, legs, outcomes, n)
      invariant sim.available == Left(baseline, legs, outcomes, n)
      invariant sim.reservedAny == AnyReserved(legs, outcomes, n)
    {
      var next := sim.DryAttempt(legs[n]);
      LeftMore(baseline, legs, outcomes, next, n);
      outcomes := outcomes + [next];
    }
  }

  // ---- Conservation ---------------------------------------------------------------------------

  lemma {:induction false} LeftIsBaselineLessUsed(baseline: Amounts, legs: seq<Leg>, outcomes: seq<Outcome>, n: nat, key: Key)
    requires n <= |legs| && n <= |outcomes|
    ensures AmountOf(Left(baseline, legs, outcomes, n), key)
            == Less(AmountOf(baseline, key), Used(legs, outcomes, n, key))
  {
    if n > 0 { LeftIsBaselineLessUsed(baseline, legs, outcomes, n - 1, key); }
  }

  lemma {:induction false} PerOfKey(uses: seq<Use>, key: Key) returns (i: int)
    requires ValidUses(uses)
    ensures -1 <= i < |uses|
    ensures i == -1 ==> Per(uses, key) == 0
    ensures i >= 0 ==> uses[i].key == key && Per(uses, key) == uses[i].perContract
  {
    if uses == [] {
      i := -1;
    } else {
      var n := |uses| - 1;
      i := PerOfKey(uses[..n], key);
      if uses[n].key == key { i := n; }
    }
  }

  /** A reserving attempt with a known use takes no more than is left. */
  lemma TakesWhatIsLeft(amounts: Amounts, reservedAny: bool, leg: Leg, outcome: Outcome, key: Key)
    requires leg.Valid() && leg.uses.Some? && Reserves(leg, outcome) && OutcomeIs(amounts, reservedAny, leg, outcome)
    requires AmountOf(amounts, key).Some?
    ensures var taken := outcome.quantity * Per(leg.uses.value, key);
            taken == 0 || 0 < taken <= AmountOf(amounts, key).value
  {
    var uses := leg.uses.value;
    var i := PerOfKey(uses, key);
    assert Fits(amounts, leg.base.value, uses, outcome.quantity);
    if i >= 0 { MulMonotone(1, outcome.quantity, uses[i].perContract); }
  }

  /** Conservation: for every resource, the reserving attempts together never use more than the
      baseline, and nothing of a resource whose baseline is not positive. */
  lemma {:induction false} NeverOverReserves(baseline: Amounts, legs: seq<Leg>, outcomes: seq<Outcome>, n: nat, key: Key)
    requires n <= |legs| && n <= |outcomes| && Simulated(baseline, legs, outcomes, n)
    requires forall i :: 0 <= i < |legs| ==> legs[i].Valid()
    requires AmountOf(baseline, key).Some?
    ensures var b := AmountOf(baseline, key).value;
            0 <= Used(legs, outcomes, n, key) <= if b > 0 then b else 0
  {
    if n > 0 {
      var m := n - 1;
      NeverOverReserves(baseline, legs, outcomes, m, key);
      if Reserves(legs[m], outcomes[m]) && legs[m].uses.Some? {
        LeftIsBaselineLessUsed(baseline, legs, outcomes, m, key);
        TakesWhatIsLeft(Left(baseline, legs, outcomes, m), AnyReserved(legs, outcomes, m), legs[m], outcomes[m], key);
      }
    }
  }

  /** No attempt is made on a resource whose baseline is unknown. */
  lemma NothingOfUnknown(baseline: Amounts, legs: seq<Leg>, outcomes: seq<Outcome>, n: nat, i: nat, u: nat)
    requires n <= |legs| && n <= |outcomes| && Simulated(baseline, legs, outcomes, n)
    requires i < n && Reserves(legs[i], outcomes[i]) && legs[i].uses.Some? && u < |legs[i].uses.value|
    ensures AmountOf(baseline, legs[i].uses.value[u].key).Some?
  {
    LeftIsBaselineLessUsed(baseline, legs, outcomes, i, legs[i].uses.value[u].key);
    SimulatedAt(baseline, legs, outcomes, n, i);
  }

  lemma {:induction false} ReservedBefore(legs: seq<Leg>, outcomes: seq<Outcome>, n: nat, i: nat)
    requires i < n <= |legs| && n <= |outcomes| && Reserves(legs[i], outcomes[i])
    ensures AnyReserved(legs, outcomes, n)
  {
    if i < n - 1 { ReservedBefore(legs, outcomes, n - 1, i); }
  }

  /** A reserving attempt whose resource use is unknown comes before every other. */
  lemma UnknownUseComesFirst(baseline: Amounts, legs: seq<Leg>, outcomes: seq<Outcome>, n: nat, i: nat, j: nat)
    requires n <= |legs| && n <= |outcomes| && Simulated(baseline, legs, outcomes, n)
    requires i < n && j < n && Reserves(legs[i], outcomes[i]) && legs[i].uses.None? && Reserves(legs[j], outcomes[j])
    ensures i <= j
  {
    SimulatedAt(baseline, legs, outcomes, n, i);
    if !AnyReserved(legs, outcomes, i) {
      forall k | 0 <= k < i ensures !Reserves(legs[k], outcomes[k]) {
        if Reserves(legs[k], outcomes[k]) { ReservedBefore(legs, outcomes, i, k); }
      }
    }
  }

  lemma OutcomeIsOnly(amounts: Amounts, reservedAny: bool, leg: Leg, a: Outcome, b: Outcome)
    requires OutcomeIs(amounts, reservedAny, leg, a) && OutcomeIs(amounts, reservedAny, leg, b)
    ensures a == b
  {
    forall q, r | QuantityIs(amounts, reservedAny, leg, q) && QuantityIs(amounts, reservedAny, leg, r) ensures q == r {
      if leg.base.Some? && leg.uses.Some? && AllKnown(amounts, leg.uses.value) {
        assert Fits(amounts, leg.base.value, leg.uses.value, q.value);
        assert Fits(amounts, leg.base.value, leg.uses.value, r.value);
      }
    }
  }

  /** The rule fixes every outcome: the same baseline and priority order give the same attempts. */
  lemma {:induction false} SimulationIsDetermined(baseline: Amounts, legs: seq<Leg>, a: seq<Outcome>, b: seq<Outcome>, n: nat)
    requires n <= |legs| && n <= |a| && n <= |b|
    requires Simulated(baseline, legs, a, n) && Simulated(baseline, legs, b, n)
    ensures a[..n] == b[..n]
  {
    if n > 0 {
      var m := n - 1;
      SimulationIsDetermined(baseline, legs, a, b, m);
      SamePrefix(baseline, legs, a, b, m);
      OutcomeIsOnly(Left(baseline, legs, a, m), AnyReserved(legs, a, m), legs[m], a[m], b[m]);
    }
  }

  lemma {:induction false} SamePrefix(baseline: Amounts, legs: seq<Leg>, a: seq<Outcome>, b: seq<Outcome>, n: nat)
    requires n <= |legs| && n <= |a| && n <= |b| && a[..n] == b[..n]
    ensures Left(baseline, legs, a, n) == Left(baseline, legs, b, n)
    ensures AnyReserved(legs, a, n) == AnyReserved(legs, b, n)
  {
    if n > 0 {
      assert a[n - 1] == a[..n][n - 1] == b[..n][n - 1] == b[n - 1];
      assert a[..n - 1] == b[..n - 1];
      SamePrefix(baseline, legs, a, b, n - 1);
    }
  }
}
