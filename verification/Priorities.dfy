/** The order in which decisions reserve resources (`domain/assembly.py`, `prioritize`). */
module Priorities {
  import opened Optionals
  import opened Assembly
  import opened Sorting

  /** A decision's action and its ranking key, where all its metrics are known. */
  datatype Ranked = Ranked(action: Action, key: Option<seq<int>>)

  predicate Closes(p: Ranked) { p.action.Close? || p.action.Roll? }
  predicate Opens(p: Ranked) { p.action.OpenCsp? || p.action.OpenCc? }

  /** The indexes of the plans of one kind, in array order. */
  function Chosen(plans: seq<Ranked>, closing: bool): seq<nat> {
    if plans == [] then []
    else
      var n := |plans| - 1;
      Chosen(plans[..n], closing) + if (if closing then Closes(plans[n]) else Opens(plans[n])) then [n] else []
  }

  predicate KeysKnown(plans: seq<Ranked>) {
    forall i :: 0 <= i < |plans| && Opens(plans[i]) ==> plans[i].key.Some?
  }

  /** Lexicographic order of two keys, as tuples compare. */
  predicate KeyLess(a: seq<int>, b: seq<int>) {
    b != [] && (a == [] || a[0] < b[0] || (a[0] == b[0] && KeyLess(a[1..], b[1..])))
  }

  function KeyOf(plans: seq<Ranked>, i: nat): seq<int> {
    if i < |plans| && plans[i].key.Some? then plans[i].key.value else []
  }

  predicate Before(plans: seq<Ranked>, i: nat, j: nat) {
    KeyLess(KeyOf(plans, i), KeyOf(plans, j)) || (KeyOf(plans, i) == KeyOf(plans, j) && i < j)
  }

  lemma {:induction false} KeyLessTransitive(a: seq<int>, b: seq<int>, c: seq<int>)
    requires KeyLess(a, b) && KeyLess(b, c)
    ensures KeyLess(a, c)
  {
    if a != [] && a[0] == b[0] == c[0] { KeyLessTransitive(a[1..], b[1..], c[1..]); }
  }

  lemma {:induction false} KeyLessTotal(a: seq<int>, b: seq<int>)
    ensures KeyLess(a, b) || a == b || KeyLess(b, a)
    ensures !(KeyLess(a, b) && KeyLess(b, a)) && !KeyLess(a, a)
  {
    if a != [] {
      KeyLessTotal(a[1..], a[1..]);
      if b != [] && a[0] == b[0] {
        KeyLessTotal(a[1..], b[1..]);
        assert a == [a[0]] + a[1..] && b == [b[0]] + b[1..];
      }
    }
  }

  function Ahead(plans: seq<Ranked>): (nat, nat) -> bool { (i: nat, j: nat) => Before(plans, i, j) }

  lemma BeforeTransitive(plans: seq<Ranked>)
    ensures Transitive(Ahead(plans)) && Asymmetric(Ahead(plans))
  {
    forall i, j, k | Before(plans, i, j) && Before(plans, j, k) ensures Before(plans, i, k) {
      var a, b, c := KeyOf(plans, i), KeyOf(plans, j), KeyOf(plans, k);
      if KeyLess(a, b) && KeyLess(b, c) { KeyLessTransitive(a, b, c); }
    }
    forall i, j | Before(plans, i, j) ensures !Before(plans, j, i) { BeforeTotal(plans, i, j); }
  }

  lemma BeforeTotal(plans: seq<Ranked>, i: nat, j: nat)
    ensures i == j || Before(plans, i, j) || Before(plans, j, i)
    ensures !(Before(plans, i, j) && Before(plans, j, i))
  {
    KeyLessTotal(KeyOf(plans, i), KeyOf(plans, j));
  }

  /** The ranked opens: a sort by key, array order between equal keys. */
  method SortByKey(plans: seq<Ranked>, opens: seq<nat>) returns (order: seq<nat>)
    requires forall i, j :: 0 <= i < j < |opens| ==> opens[i] != opens[j]
    ensures multiset(order) == multiset(opens)
    ensures Sorted(Ahead(plans), order)
  {
    BeforeTransitive(plans);
    forall i, j | 0 <= i < j < |opens| ensures Before(plans, opens[i], opens[j]) || Before(plans, opens[j], opens[i]) {
      BeforeTotal(plans, opens[i], opens[j]);
    }
    order := Sort(Ahead(plans), opens);
  }

  /** The first difference decides, or the first key is a part of the second. */
  ghost predicate LexLess(a: seq<int>, b: seq<int>) {
    exists k :: 0 <= k <= |a| && k < |b| && a[..k] == b[..k] && (k == |a| || a[k] < b[k])
  }

  lemma {:induction false} KeyLessExactlyWhen(a: seq<int>, b: seq<int>)
    ensures KeyLess(a, b) <==> LexLess(a, b)
  {
    if a != [] && b != [] {
      KeyLessExactlyWhen(a[1..], b[1..]);
      if LexLess(a, b) {
        var k :| 0 <= k <= |a| && k < |b| && a[..k] == b[..k] && (k == |a| || a[k] < b[k]);
        if k > 0 {
          assert a[..k][0] == b[..k][0];
          assert a[1..][..k - 1] == a[..k][1..] && b[1..][..k - 1] == b[..k][1..];
        }
      }
      if a[0] == b[0] && LexLess(a[1..], b[1..]) {
        var k :| 0 <= k <= |a| - 1 && k < |b| - 1 && a[1..][..k] == b[1..][..k] && (k == |a| - 1 || a[1..][k] < b[1..][k]);
        assert a[..k + 1] == [a[0]] + a[1..][..k] && b[..k + 1] == [b[0]] + b[1..][..k];
      }
    }
    if a == [] && b != [] { assert a[..0] == b[..0]; }
    if a != [] && b != [] && a[0] < b[0] { assert a[..0] == b[..0]; }
  }

  predicate Returns(p: Ranked) { p.action == Close || p.action == Roll }

  predicate Sells(p: Ranked) { p.action == OpenCsp || p.action == OpenCc }

  /** Decision `i` comes before decision `j`: closes and rolls before opens, and in array order; opens
      by key and then in array order, if every open has one, else in array order. */
  ghost predicate ComesFirst(plans: seq<Ranked>, i: nat, j: nat)
    requires i < |plans| && j < |plans|
  {
    if Returns(plans[i]) || Returns(plans[j]) then Returns(plans[i]) && (Returns(plans[j]) ==> i < j)
    else if forall k :: 0 <= k < |plans| && Sells(plans[k]) ==> plans[k].key.Some? then
      plans[i].key.Some? && plans[j].key.Some?
      && (LexLess(plans[i].key.value, plans[j].key.value) || (plans[i].key == plans[j].key && i < j))
    else i < j
  }

  /** What the priority order promises: closes and rolls first, in array order; then the opens,
      ranked when every open has a key, else in array order. */
  predicate PriorityOrder(plans: seq<Ranked>, ordered: seq<nat>) {
    var closes := Chosen(plans, true);
    && |closes| <= |ordered| && ordered[..|closes|] == closes
    && multiset(ordered[|closes|..]) == multiset(Chosen(plans, false))
    && if KeysKnown(plans) then Sorted(Ahead(plans), ordered[|closes|..])
       else ordered[|closes|..] == Chosen(plans, false)
  }

  lemma {:induction false} ChosenIs(plans: seq<Ranked>, closing: bool)
    ensures forall i: nat :: i in Chosen(plans, closing) <==>
                        i < |plans| && if closing then Closes(plans[i]) else Opens(plans[i])
    ensures forall i, j :: 0 <= i < j < |Chosen(plans, closing)| ==> Chosen(plans, closing)[i] < Chosen(plans, closing)[j]
  {
    if plans != [] {
      var n := |plans| - 1;
      ChosenIs(plans[..n], closing);
      var rest := Chosen(plans[..n], closing);
      forall i | 0 <= i < |rest| ensures rest[i] < n { assert rest[i] in rest; }
    }
  }

  method Choose(plans: seq<Ranked>, closing: bool) returns (chosen: seq<nat>)
    ensures chosen == Chosen(plans, closing)
  {
    chosen := [];
    for n := 0 to |plans|
      invariant chosen == Chosen(plans[..n], closing)
    {
      assert plans[..n + 1][..n] == plans[..n];
      if (closing && Closes(plans[n])) || (!closing && Opens(plans[n])) {
        chosen := chosen + [n];
      }
    }
    assert plans[..|plans|] == plans;
  }

  /** `prioritize`. */
  method Prioritize(plans: seq<Ranked>) returns (ordered: seq<nat>)
    ensures PriorityOrder(plans, ordered)
  {
    var closes := Choose(plans, true);
    var opens := Choose(plans, false);
    ChosenIs(plans, false);
    var incomplete := exists i :: 0 <= i < |plans| && Opens(plans[i]) && plans[i].key.None?;
    var ranked := opens;
    if !incomplete {
      ranked := SortByKey(plans, opens);
    }
    ordered := closes + ranked;
    assert ordered[|closes|..] == ranked;
  }

  /** Every plan with a leg to execute has exactly one place in the order, and no other plan. */
  lemma PrioritizedOnce(plans: seq<Ranked>, ordered: seq<nat>, i: nat)
    requires PriorityOrder(plans, ordered)
    ensures multiset(ordered)[i] == if i < |plans| && (Returns(plans[i]) || Sells(plans[i])) then 1 else 0
  {
    var closes, opens := Chosen(plans, true), Chosen(plans, false);
    var rest := ordered[|closes|..];
    assert ordered == closes + rest;
    ChosenIs(plans, true);
    ChosenIs(plans, false);
    OnceEach(closes, i);
    OnceEach(opens, i);
  }

  lemma {:induction false} OnceEach(s: seq<nat>, i: nat)
    requires forall a, b :: 0 <= a < b < |s| ==> s[a] < s[b]
    ensures multiset(s)[i] == if i in s then 1 else 0
  {
    if s != [] {
      var n := |s| - 1;
      OnceEach(s[..n], i);
      assert s == s[..n] + [s[n]];
    }
  }

  /** In the order, each decision comes before the next by the rule. */
  lemma OrderedByRule(plans: seq<Ranked>, ordered: seq<nat>, a: nat, b: nat)
    requires PriorityOrder(plans, ordered) && a < b < |ordered|
    ensures ordered[a] < |plans| && ordered[b] < |plans| && ComesFirst(plans, ordered[a], ordered[b])
  {
    ChosenIs(plans, true);
    ChosenIs(plans, false);
    InItsPart(plans, ordered, a);
    InItsPart(plans, ordered, b);
    if a < |Chosen(plans, true)| {
      ClosesComeFirst(plans, ordered, a, b);
    } else {
      OpensComeByKey(plans, ordered, a, b);
    }
  }

  lemma ClosesComeFirst(plans: seq<Ranked>, ordered: seq<nat>, a: nat, b: nat)
    requires PriorityOrder(plans, ordered) && a < b < |ordered| && a < |Chosen(plans, true)|
    requires ordered[a] < |plans| && ordered[b] < |plans|
    ensures ComesFirst(plans, ordered[a], ordered[b])
  {
    var n := |Chosen(plans, true)|;
    ChosenIs(plans, true);
    ChosenIs(plans, false);
    InItsPart(plans, ordered, b);
    assert ordered[a] == ordered[..n][a];
    if b < n { assert ordered[b] == ordered[..n][b]; }
  }

  lemma OpensComeByKey(plans: seq<Ranked>, ordered: seq<nat>, a: nat, b: nat)
    requires PriorityOrder(plans, ordered) && |Chosen(plans, true)| <= a < b < |ordered|
    requires ordered[a] in Chosen(plans, false) && ordered[b] in Chosen(plans, false)
    ensures ordered[a] < |plans| && ordered[b] < |plans| && ComesFirst(plans, ordered[a], ordered[b])
  {
    ChosenIs(plans, false);
    OpensArePlaced(plans, ordered, a, b);
    RankedByRule(plans, ordered[a], ordered[b]);
  }

  lemma OpensArePlaced(plans: seq<Ranked>, ordered: seq<nat>, a: nat, b: nat)
    requires PriorityOrder(plans, ordered) && |Chosen(plans, true)| <= a < b < |ordered|
    ensures if KeysKnown(plans) then Before(plans, ordered[a], ordered[b]) else ordered[a] < ordered[b]
  {
    var rest := ordered[|Chosen(plans, true)|..];
    var i, k := a - |Chosen(plans, true)|, b - |Chosen(plans, true)|;
    assert ordered[a] == rest[i] && ordered[b] == rest[k];
    if KeysKnown(plans) { SortedComeBefore(plans, rest, i, k); } else { ChosenIs(plans, false); }
  }

  lemma SortedComeBefore(plans: seq<Ranked>, order: seq<nat>, a: nat, b: nat)
    requires Sorted(Ahead(plans), order) && a < b < |order|
    ensures Before(plans, order[a], order[b])
  {
    assert Ahead(plans)(order[a], order[b]);
  }

  lemma RankedByRule(plans: seq<Ranked>, i: nat, j: nat)
    requires i < |plans| && j < |plans| && Opens(plans[i]) && Opens(plans[j])
    requires if KeysKnown(plans) then Before(plans, i, j) else i < j
    ensures ComesFirst(plans, i, j)
  {
    if KeysKnown(plans) {
      KeyLessExactlyWhen(KeyOf(plans, i), KeyOf(plans, j));
    } else {
      var k :| 0 <= k < |plans| && Opens(plans[k]) && plans[k].key.None?;
      assert Sells(plans[k]);
    }
  }

  lemma InItsPart(plans: seq<Ranked>, ordered: seq<nat>, a: nat)
    requires PriorityOrder(plans, ordered) && a < |ordered|
    ensures ordered[a] in Chosen(plans, a < |Chosen(plans, true)|)
  {
    var n := |Chosen(plans, true)|;
    if a < n {
      assert ordered[a] == ordered[..n][a];
    } else {
      assert ordered[a] == ordered[n..][a - n] && ordered[a] in multiset(ordered[n..]);
    }
  }

  /** The rule leaves no choice: two orders of the same plans are the same. */
  lemma OrderIsDetermined(plans: seq<Ranked>, a: seq<nat>, b: seq<nat>)
    requires PriorityOrder(plans, a) && PriorityOrder(plans, b)
    ensures a == b
  {
    var n := |Chosen(plans, true)|;
    assert a == a[..n] + a[n..] && b == b[..n] + b[n..];
    if KeysKnown(plans) {
      BeforeTransitive(plans);
      SortedIsUnique(Ahead(plans), a[n..], b[n..]);
    }
  }
}
