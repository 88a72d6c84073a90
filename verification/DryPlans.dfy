/** The dry run over the decisions of a record (`domain/assembly.py`, `run`): the plans in
    priority order, then the plans without a priority, each leg against what the earlier ones
    left, and the attempts put back with their decisions. */
module DryPlans {
  import opened Optionals
  import opened Priorities
  import opened Sorting
  import opened DryRun

  // ---- The order of the simulation ---------------------------------------------------------

  /** The plans with no priority, in array order. */
  function Others(plans: seq<Ranked>): seq<nat> {
    if plans == [] then []
    else
      var n := |plans| - 1;
      Others(plans[..n]) + if Closes(plans[n]) || Opens(plans[n]) then [] else [n]
  }

  /** `sim_order`: the priority order, then the others. */
  predicate SimOrder(plans: seq<Ranked>, order: seq<nat>) {
    var m := |order| - |Others(plans)|;
    m >= 0 && PriorityOrder(plans, order[..m]) && order[m..] == Others(plans)
  }

  lemma {:induction false} OthersAre(plans: seq<Ranked>)
    ensures forall i: nat :: i in Others(plans) <==> i < |plans| && !Closes(plans[i]) && !Opens(plans[i])
    ensures forall i, j :: 0 <= i < j < |Others(plans)| ==> Others(plans)[i] < Others(plans)[j]
  {
    if plans != [] {
      var n := |plans| - 1;
      OthersAre(plans[..n]);
      var rest := Others(plans[..n]);
      forall i | 0 <= i < |rest| ensures rest[i] < n { assert rest[i] in rest; }
    }
  }

  /** Every plan is simulated exactly once. */
  lemma SimulatedOnce(plans: seq<Ranked>, order: seq<nat>, i: nat)
    requires SimOrder(plans, order)
    ensures multiset(order)[i] == if i < |plans| then 1 else 0
  {
    var m := |order| - |Others(plans)|;
    assert order == order[..m] + order[m..];
    PrioritizedOnce(plans, order[..m], i);
    OthersAre(plans);
    OnceEach(Others(plans), i);
  }

  lemma AllOnce(plans: seq<Ranked>, order: seq<nat>)
    requires SimOrder(plans, order)
    ensures forall i: nat :: i < |plans| ==> multiset(order)[i] == 1
  {
    forall i: nat | i < |plans| ensures multiset(order)[i] == 1 { SimulatedOnce(plans, order, i); }
  }

  method OrderPlans(plans: seq<Ranked>) returns (order: seq<nat>)
    ensures SimOrder(plans, order)
  {
    var ordered := Prioritize(plans);
    var others := [];
    for n := 0 to |plans|
      invariant others == Others(plans[..n])
    {
      assert plans[..n + 1][..n] == plans[..n];
      if !Closes(plans[n]) && !Opens(plans[n]) {
        others := others + [n];
      }
    }
    assert plans[..|plans|] == plans;
    order := ordered + others;
    assert order[..|ordered|] == ordered && order[|ordered|..] == others;
  }

  // ---- Lists of the plans, one after another ---------------------------------------------------

  predicate Within(order: seq<nat>, n: nat) { forall k :: 0 <= k < |order| ==> order[k] < n }

  function Joined<T>(parts: seq<seq<T>>, order: seq<nat>): seq<T>
    requires Within(order, |parts|)
  {
    if order == [] then [] else Joined(parts, order[..|order| - 1]) + parts[order[|order| - 1]]
  }

  lemma {:induction false} JoinedIgnores<T>(parts: seq<seq<T>>, order: seq<nat>, i: nat, part: seq<T>)
    requires Within(order, |parts|) && i < |parts| && i !in order
    ensures Joined(parts[i := part], order) == Joined(parts, order)
  {
    if order != [] { JoinedIgnores(parts, order[..|order| - 1], i, part); }
  }

  lemma {:induction false} JoinedLength<T, U>(a: seq<seq<T>>, b: seq<seq<U>>, order: seq<nat>)
    requires |a| == |b| && Within(order, |a|) && SameShape(a, b)
    ensures |Joined(a, order)| == |Joined(b, order)|
  {
    if order != [] { JoinedLength(a, b, order[..|order| - 1]); }
  }

  predicate SameShape<T, U>(a: seq<seq<T>>, b: seq<seq<U>>)
  {
    |a| == |b| && forall i :: 0 <= i < |a| ==> |a[i]| == |b[i]|
  }

  lemma {:induction false} JoinedPrefix<T>(parts: seq<seq<T>>, order: seq<nat>, k: nat)
    requires Within(order, |parts|) && k <= |order|
    ensures |Joined(parts, order[..k])| <= |Joined(parts, order)|
    ensures k < |order| ==> Joined(parts, order[..k + 1]) == Joined(parts, order[..k]) + parts[order[k]]
    decreases |order|
  {
    if k < |order| {
      var n := |order| - 1;
      assert order[..k + 1][..k] == order[..k];
      assert order[..n][..k] == order[..k];
      JoinedPrefix(parts, order[..n], k);
    } else {
      assert order[..k] == order;
    }
  }

  lemma NoneTwice(order: seq<nat>, k: nat)
    requires k < |order| && multiset(order)[order[k]] == 1
    ensures order[k] !in order[..k]
  {
    var before, o, rest := order[..k], order[k], order[k + 1..];
    assert order == before + [o] + rest;
    assert multiset(order) == multiset(before) + multiset{o} + multiset(rest);
    assert o in before ==> o in multiset(before);
  }

  /** Puts consecutive results back with the plans they came from. */
  method PutBack(legs: seq<seq<Leg>>, order: seq<nat>, outcomes: seq<Outcome>) returns (built: seq<seq<Outcome>>)
    requires Within(order, |legs|) && |outcomes| == |Joined(legs, order)|
    requires forall i: nat :: i < |legs| ==> multiset(order)[i] == 1
    ensures SameShape(legs, built) && Joined(built, order) == outcomes
  {
    built := seq(|legs|, i => []);
    var at := 0;
    for k := 0 to |order|
      invariant |built| == |legs| && at == |Joined(legs, order[..k])| <= |outcomes|
      invariant forall m :: 0 <= m < k ==> |built[order[m]]| == |legs[order[m]]|
      invariant Joined(built, order[..k]) == outcomes[..at]
    {
      var o := order[k];
      NoneTwice(order, k);
      JoinedPrefix(legs, order, k);
      JoinedPrefix(legs, order, k + 1);
      var next := outcomes[at..at + |legs[o]|];
      JoinedIgnores(built, order[..k], o, next);
      built := built[o := next];
      assert order[..k + 1][..k] == order[..k];
      assert outcomes[..at] + next == outcomes[..at + |legs[o]|];
      at := at + |legs[o]|;
    }
    assert order[..|order|] == order;
    forall i | 0 <= i < |legs| ensures |built[i]| == |legs[i]| {
      assert i in multiset(order);
      var m :| 0 <= m < |order| && order[m] == i;
    }
  }

  // ---- What the decisions use together -------------------------------------------------------

  /** What one plan's reserving attempts use of the key. */
  function UsedBy(legs: seq<Leg>, outcomes: seq<Outcome>, key: Key): int
    requires |legs| == |outcomes|
  {
    Used(legs, outcomes, |legs|, key)
  }

  /** The same over the plans of an order, and over all plans in array order. */
  function UsedIn(legs: seq<seq<Leg>>, built: seq<seq<Outcome>>, order: seq<nat>, key: Key): int
    requires SameShape(legs, built) && Within(order, |legs|)
  {
    if order == [] then 0
    else
      var o := order[|order| - 1];
      UsedIn(legs, built, order[..|order| - 1], key) + UsedBy(legs[o], built[o], key)
  }

  function Upto(n: nat): (r: seq<nat>)
    ensures |r| == n && forall i :: 0 <= i < n ==> r[i] == i
  {
    seq(n, i => i)
  }

  function TotalUsed(legs: seq<seq<Leg>>, built: seq<seq<Outcome>>, key: Key): int
    requires SameShape(legs, built)
  {
    UsedIn(legs, built, Upto(|legs|), key)
  }

  lemma {:induction false} UsedPrefix(a: seq<Leg>, b: seq<Leg>, c: seq<Outcome>, d: seq<Outcome>, n: nat, key: Key)
    requires |a| == |c| && n <= |a|
    ensures Used(a + b, c + d, n, key) == Used(a, c, n, key)
  {
    if n > 0 { UsedPrefix(a, b, c, d, n - 1, key); }
  }

  lemma {:induction false} UsedAppend(a: seq<Leg>, b: seq<Leg>, c: seq<Outcome>, d: seq<Outcome>, n: nat, key: Key)
    requires |a| == |c| && n <= |b| && n <= |d|
    ensures Used(a + b, c + d, |a| + n, key) == Used(a, c, |a|, key) + Used(b, d, n, key)
  {
    if n == 0 {
      UsedPrefix(a, b, c, d, |a|, key);
    } else {
      UsedAppend(a, b, c, d, n - 1, key);
      assert (a + b)[|a| + n - 1] == b[n - 1] && (c + d)[|a| + n - 1] == d[n - 1];
    }
  }

  lemma {:induction false} UsedJoined(legs: seq<seq<Leg>>, built: seq<seq<Outcome>>, order: seq<nat>, key: Key)
    requires SameShape(legs, built) && Within(order, |legs|)
    ensures |Joined(legs, order)| == |Joined(built, order)|
    ensures Used(Joined(legs, order), Joined(built, order), |Joined(legs, order)|, key) == UsedIn(legs, built, order, key)
  {
    JoinedLength(legs, built, order);
    if order != [] {
      var n, o := |order| - 1, order[|order| - 1];
      UsedJoined(legs, built, order[..n], key);
      UsedAppend(Joined(legs, order[..n]), legs[o], Joined(built, order[..n]), built[o], |legs[o]|, key);
    }
  }

  lemma {:induction false} UsedWithout(legs: seq<seq<Leg>>, built: seq<seq<Outcome>>, order: seq<nat>, k: nat, key: Key)
    requires SameShape(legs, built) && Within(order, |legs|) && k < |order|
    ensures Within(order[..k] + order[k + 1..], |legs|)
    ensures UsedIn(legs, built, order, key)
            == UsedIn(legs, built, order[..k] + order[k + 1..], key) + UsedBy(legs[order[k]], built[order[k]], key)
  {
    var n := |order| - 1;
    var rest := order[..k] + order[k + 1..];
    if k == n {
      assert rest == order[..n];
    } else {
      assert rest[..|rest| - 1] == order[..n][..k] + order[..n][k + 1..];
      UsedWithout(legs, built, order[..n], k, key);
    }
  }

  /** What is used does not depend on the order it is counted in. */
  lemma {:induction false} UsedInAnyOrder(legs: seq<seq<Leg>>, built: seq<seq<Outcome>>, a: seq<nat>, b: seq<nat>, key: Key)
    requires SameShape(legs, built) && Within(a, |legs|) && Within(b, |legs|) && multiset(a) == multiset(b)
    ensures UsedIn(legs, built, a, key) == UsedIn(legs, built, b, key)
    decreases |a|
  {
    if a == [] {
      assert |b| == |multiset(b)| == 0;
    } else {
      var n := |a| - 1;
      assert a[n] in multiset(b);
      var k :| 0 <= k < |b| && b[k] == a[n];
      UsedWithout(legs, built, b, k, key);
      WithoutLast(a);
      WithoutAt(b, k);
      UsedInAnyOrder(legs, built, a[..n], b[..k] + b[k + 1..], key);
    }
  }

  lemma UptoOnce(n: nat, i: nat)
    ensures multiset(Upto(n))[i] == if i < n then 1 else 0
  {
    OnceEach(Upto(n), i);
    if i < n { assert Upto(n)[i] == i; }
  }

  lemma SimOrderPermutes(plans: seq<Ranked>, order: seq<nat>)
    requires SimOrder(plans, order)
    ensures multiset(order) == multiset(Upto(|plans|)) && Within(order, |plans|)
  {
    forall i: nat ensures multiset(order)[i] == multiset(Upto(|plans|))[i] {
      SimulatedOnce(plans, order, i);
      UptoOnce(|plans|, i);
    }
    forall k | 0 <= k < |order| ensures order[k] < |plans| {
      assert order[k] in multiset(order);
      SimulatedOnce(plans, order, order[k]);
    }
  }

  predicate AllValid(legs: seq<seq<Leg>>) {
    forall i, k :: 0 <= i < |legs| && 0 <= k < |legs[i]| ==> legs[i][k].Valid()
  }

  lemma {:induction false} JoinedValid(legs: seq<seq<Leg>>, order: seq<nat>)
    requires AllValid(legs) && Within(order, |legs|)
    ensures forall i :: 0 <= i < |Joined(legs, order)| ==> Joined(legs, order)[i].Valid()
  {
    if order != [] { JoinedValid(legs, order[..|order| - 1]); }
  }

  /** The attempts of each decision are what the simulation in priority order decides. */
  ghost predicate RecordIs(baseline: Amounts, plans: seq<Ranked>, legs: seq<seq<Leg>>, built: seq<seq<Outcome>>,
                           order: seq<nat>)
    requires |legs| == |plans|
  {
    && SimOrder(plans, order) && Within(order, |plans|) && SameShape(legs, built)
    && |Joined(legs, order)| == |Joined(built, order)|
    && Simulated(baseline, Joined(legs, order), Joined(built, order), |Joined(legs, order)|)
  }

  /** `run`, for a proposal-only record. */
  method RunPlans(baseline: Amounts, plans: seq<Ranked>, legs: seq<seq<Leg>>)
    returns (built: seq<seq<Outcome>>, ghost order: seq<nat>)
    requires |legs| == |plans| && AllValid(legs)
    ensures SameShape(legs, built) && RecordIs(baseline, plans, legs, built, order)
  {
    var simOrder := OrderPlans(plans);
    order := simOrder;
    SimOrderPermutes(plans, simOrder);
    JoinedValid(legs, simOrder);
    var all := Join(legs, simOrder);
    var outcomes := RunDry(baseline, all);
    AllOnce(plans, simOrder);
    built := PutBack(legs, simOrder, outcomes);
  }

  method Join(legs: seq<seq<Leg>>, order: seq<nat>) returns (all: seq<Leg>)
    requires Within(order, |legs|)
    ensures all == Joined(legs, order)
  {
    all := [];
    for k := 0 to |order|
      invariant all == Joined(legs, order[..k])
    {
      JoinedPrefix(legs, order, k);
      all := all + legs[order[k]];
    }
    assert order[..|order|] == order;
  }

  /** Conservation over the record: whatever order the priorities put the decisions in, all their
      reserving attempts together use no more of a resource than the baseline has. */
  lemma RecordNeverOverReserves(baseline: Amounts, plans: seq<Ranked>, legs: seq<seq<Leg>>, built: seq<seq<Outcome>>,
                                order: seq<nat>, key: Key)
    requires |legs| == |plans| && AllValid(legs) && RecordIs(baseline, plans, legs, built, order)
    requires AmountOf(baseline, key).Some?
    ensures var b := AmountOf(baseline, key).value;
            0 <= TotalUsed(legs, built, key) <= if b > 0 then b else 0
  {
    SimOrderPermutes(plans, order);
    JoinedValid(legs, order);
    NeverOverReserves(baseline, Joined(legs, order), Joined(built, order), |Joined(legs, order)|, key);
    UsedJoined(legs, built, order, key);
    UsedInAnyOrder(legs, built, order, Upto(|legs|), key);
  }

  lemma SimOrderIsDetermined(plans: seq<Ranked>, p: seq<nat>, q: seq<nat>)
    requires SimOrder(plans, p) && SimOrder(plans, q)
    ensures p == q
  {
    var m := |p| - |Others(plans)|;
    var n := |q| - |Others(plans)|;
    OrderIsDetermined(plans, p[..m], q[..n]);
    assert p == p[..m] + p[m..] && q == q[..n] + q[n..];
  }

  /** The plans and the baseline fix every attempt of the record. */
  lemma RecordIsDetermined(baseline: Amounts, plans: seq<Ranked>, legs: seq<seq<Leg>>,
                           a: seq<seq<Outcome>>, b: seq<seq<Outcome>>, p: seq<nat>, q: seq<nat>)
    requires |legs| == |plans| && RecordIs(baseline, plans, legs, a, p) && RecordIs(baseline, plans, legs, b, q)
    ensures p == q && a == b
  {
    SimOrderIsDetermined(plans, p, q);
    SimulationIsDetermined(baseline, Joined(legs, p), Joined(a, p), Joined(b, p), |Joined(legs, p)|);
    assert Joined(a, p)[..|Joined(legs, p)|] == Joined(a, p);
    assert Joined(b, p)[..|Joined(legs, p)|] == Joined(b, p);
    forall i | 0 <= i < |legs| ensures a[i] == b[i] {
      SimulatedOnce(plans, p, i);
      assert i in multiset(p);
      var k :| 0 <= k < |p| && p[k] == i;
      PartsAreFixed(legs, a, b, p, k);
    }
  }

  lemma {:induction false} PartsAreFixed(legs: seq<seq<Leg>>, a: seq<seq<Outcome>>, b: seq<seq<Outcome>>,
                                         order: seq<nat>, k: nat)
    requires SameShape(legs, a) && SameShape(legs, b) && Within(order, |legs|) && k < |order|
    requires Joined(a, order) == Joined(b, order)
    ensures a[order[k]] == b[order[k]]
    decreases |order|
  {
    var n := |order| - 1;
    var o := order[n];
    JoinedLength(a, b, order[..n]);
    var x, y := Joined(a, order[..n]), Joined(b, order[..n]);
    assert (x + a[o])[..|x|] == x && (y + b[o])[..|x|] == y;
    assert (x + a[o])[|x|..] == a[o] && (y + b[o])[|x|..] == b[o];
    if k < n { PartsAreFixed(legs, a, b, order[..n], k); }
  }
}
