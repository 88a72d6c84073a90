/** Sorting by an order, and that it leaves no choice. */
module Sorting {
  ghost predicate Transitive<T(!new)>(less: (T, T) -> bool) {
    forall a, b, c :: less(a, b) && less(b, c) ==> less(a, c)
  }

  ghost predicate Asymmetric<T(!new)>(less: (T, T) -> bool) { forall a, b :: less(a, b) ==> !less(b, a) }

  ghost predicate Comparable<T>(less: (T, T) -> bool, s: seq<T>) {
    forall i, j :: 0 <= i < j < |s| ==> less(s[i], s[j]) || less(s[j], s[i])
  }

  predicate Sorted<T>(less: (T, T) -> bool, s: seq<T>) {
    forall i, j :: 0 <= i < j < |s| ==> less(s[i], s[j])
  }

  /** The item goes where it belongs. */
  function Insert<T>(less: (T, T) -> bool, s: seq<T>, x: T): (r: seq<T>)
    ensures multiset(r) == multiset(s) + multiset{x}
  {
    if s == [] then [x]
    else
      var n := |s| - 1;
      assert s == s[..n] + [s[n]];
      if less(s[n], x) then s + [x] else Insert(less, s[..n], x) + [s[n]]
  }

  lemma {:induction false} InsertSorts<T(!new)>(less: (T, T) -> bool, s: seq<T>, x: T)
    requires Transitive(less) && Sorted(less, s)
    requires forall i :: 0 <= i < |s| ==> less(s[i], x) || less(x, s[i])
    ensures Sorted(less, Insert(less, s, x))
  {
    if s != [] && !less(s[|s| - 1], x) {
      var n := |s| - 1;
      InsertSorts(less, s[..n], x);
      var r := Insert(less, s[..n], x);
      forall i | 0 <= i < |r| ensures less(r[i], s[n]) { InsertedFrom(less, s[..n], x, i); }
    }
  }

  lemma InsertedFrom<T>(less: (T, T) -> bool, s: seq<T>, x: T, i: nat)
    requires i < |Insert(less, s, x)|
    ensures Insert(less, s, x)[i] in s || Insert(less, s, x)[i] == x
  {
    assert Insert(less, s, x)[i] in multiset(Insert(less, s, x));
  }

  /** Python's `sorted` by a key that tells any two items apart. */
  method Sort<T(!new, ==)>(less: (T, T) -> bool, items: seq<T>) returns (sorted: seq<T>)
    requires Transitive(less) && Comparable(less, items)
    ensures multiset(sorted) == multiset(items) && Sorted(less, sorted)
  {
    sorted := [];
    for k := 0 to |items|
      invariant Sorted(less, sorted)
      invariant multiset(sorted) == multiset(items[..k])
    {
      assert items[..k + 1] == items[..k] + [items[k]];
      forall i | 0 <= i < |sorted| ensures less(sorted[i], items[k]) || less(items[k], sorted[i]) {
        assert sorted[i] in multiset(items[..k]);
        var j :| 0 <= j < k && items[j] == sorted[i];
      }
      InsertSorts(less, sorted, items[k]);
      sorted := Insert(less, sorted, items[k]);
    }
    assert items[..|items|] == items;
  }

  /** Two sorted lists of the same items are the same. */
  lemma {:induction false} SortedIsUnique<T(!new)>(less: (T, T) -> bool, a: seq<T>, b: seq<T>)
    requires Asymmetric(less) && multiset(a) == multiset(b) && Sorted(less, a) && Sorted(less, b)
    ensures a == b
    decreases |a|
  {
    SameLength(a, b);
    if a == [] { return; }
    var n := |a| - 1;
    LastIsLast(less, a, b);
    WithoutLast(a);
    WithoutLast(b);
    SortedPrefix(less, a, n);
    SortedPrefix(less, b, n);
    SortedIsUnique(less, a[..n], b[..n]);
    SameEnds(a, b);
  }

  lemma SortedPrefix<T>(less: (T, T) -> bool, a: seq<T>, n: nat)
    requires n <= |a| && Sorted(less, a)
    ensures Sorted(less, a[..n])
  { }

  lemma SameEnds<T>(a: seq<T>, b: seq<T>)
    requires |a| == |b| > 0 && a[..|a| - 1] == b[..|b| - 1] && a[|a| - 1] == b[|b| - 1]
    ensures a == b
  {
    assert a == a[..|a| - 1] + [a[|a| - 1]];
  }

  lemma SameLength<T>(a: seq<T>, b: seq<T>)
    requires multiset(a) == multiset(b)
    ensures |a| == |b|
  {
    assert |a| == |multiset(a)| == |multiset(b)| == |b|;
  }

  lemma WithoutLast<T>(a: seq<T>)
    requires a != []
    ensures multiset(a[..|a| - 1]) == multiset(a) - multiset{a[|a| - 1]}
  {
    assert a == a[..|a| - 1] + [a[|a| - 1]];
  }

  lemma WithoutAt<T>(a: seq<T>, i: nat)
    requires i < |a|
    ensures multiset(a[..i] + a[i + 1..]) == multiset(a) - multiset{a[i]}
  {
    assert a == a[..i] + [a[i]] + a[i + 1..];
  }

  lemma LastIsGreatest<T>(less: (T, T) -> bool, a: seq<T>, x: T)
    requires Sorted(less, a) && x in a
    ensures x == a[|a| - 1] || less(x, a[|a| - 1])
  { }

  lemma LastIsLast<T(!new)>(less: (T, T) -> bool, a: seq<T>, b: seq<T>)
    requires Asymmetric(less) && multiset(a) == multiset(b) && |a| == |b| > 0
    requires Sorted(less, a) && Sorted(less, b)
    ensures a[|a| - 1] == b[|b| - 1]
  {
    var x, y := a[|a| - 1], b[|b| - 1];
    assert x in multiset(b) && y in multiset(a);
    LastIsGreatest(less, a, y);
    LastIsGreatest(less, b, x);
  }
}
