// Insertion sort by a "comes before" relation: Python's `sorted` on dictionary items and SQL's ORDER BY.
module Sorting {

  ghost predicate Sorted<T(!new)>(s: seq<T>, before: (T, T) -> bool) {
    forall i, j :: 0 <= i < j < |s| ==> before(s[i], s[j])
  }

  // A strict order under which no two positions of `s` tie.
  ghost predicate Ordered<T(!new)>(s: seq<T>, before: (T, T) -> bool) {
    && (forall x, y, z :: before(x, y) && before(y, z) ==> before(x, z))
    && (forall x, y :: before(x, y) ==> !before(y, x))
    && (forall i, j :: 0 <= i < j < |s| ==> before(s[i], s[j]) || before(s[j], s[i]))
  }

  function Insert<T(==)>(x: T, s: seq<T>, before: (T, T) -> bool): (r: seq<T>)
    ensures multiset(r) == multiset([x] + s)
  {
    if s == [] || !before(s[0], x) then [x] + s
    else
      assert s == [s[0]] + s[1..];
      assert [x] + s == [x] + [s[0]] + s[1..];
      [s[0]] + Insert(x, s[1..], before)
  }

  function Sort<T(==)>(s: seq<T>, before: (T, T) -> bool): (r: seq<T>)
    ensures multiset(r) == multiset(s)
    ensures |r| == |s|
  {
    if s == [] then []
    else
      assert s == [s[0]] + s[1..];
      var r := Insert(s[0], Sort(s[1..], before), before);
      assert multiset(r) == multiset(s) && |multiset(r)| == |r| && |multiset(s)| == |s|;
      r
  }

  lemma {:induction false} InsertSorted<T(!new)>(x: T, s: seq<T>, before: (T, T) -> bool)
    requires Sorted(s, before)
    requires forall a, b, c :: before(a, b) && before(b, c) ==> before(a, c)
    requires forall y :: y in s ==> before(x, y) || before(y, x)
    ensures Sorted(Insert(x, s, before), before)
  {
    if s != [] && before(s[0], x) {
      InsertSorted(x, s[1..], before);
      var r := Insert(x, s[1..], before);
      forall y | y in r ensures before(s[0], y) {
        assert y in multiset(r) && y in multiset([x] + s[1..]);
      }
    }
  }

  lemma {:induction false} SortSorted<T(!new)>(s: seq<T>, before: (T, T) -> bool)
    requires Ordered(s, before)
    ensures Sorted(Sort(s, before), before)
  {
    if s != [] {
      SortSorted(s[1..], before);
      var r := Sort(s[1..], before);
      forall y | y in r ensures before(s[0], y) || before(y, s[0]) {
        assert y in multiset(r) && y in multiset(s[1..]);
        var k :| 0 <= k < |s[1..]| && s[1..][k] == y;
        assert s[k + 1] == y;
      }
      InsertSorted(s[0], r, before);
    }
  }

  // A list that is already ascending is left as it is.
  lemma {:induction false} SortOfSorted<T(!new)>(s: seq<T>, before: (T, T) -> bool)
    requires Sorted(s, before)
    requires forall x, y :: before(x, y) ==> !before(y, x)
    ensures Sort(s, before) == s
  {
    if s != [] {
      SortOfSorted(s[1..], before);
      assert |s| > 1 ==> before(s[0], s[1]);
    }
  }

  // An ascending order has only one arrangement of the same elements.
  lemma {:induction false} SortedUnique<T(!new)>(a: seq<T>, b: seq<T>, before: (T, T) -> bool)
    requires multiset(a) == multiset(b)
    requires Sorted(a, before) && Sorted(b, before)
    requires forall x, y :: before(x, y) ==> !before(y, x)
    ensures a == b
  {
    hide Sorted;
    assert |multiset(a)| == |a| && |multiset(b)| == |b|;
    if a != [] {
      SameFirst(a, b, before);
      TailElements(a);
      TailElements(b);
      TailSorted(a, before);
      TailSorted(b, before);
      SortedUnique(a[1..], b[1..], before);
      assert a == [a[0]] + a[1..] && b == [b[0]] + b[1..];
    }
  }

  lemma SameFirst<T(!new)>(a: seq<T>, b: seq<T>, before: (T, T) -> bool)
    requires a != [] && b != [] && multiset(a) == multiset(b)
    requires Sorted(a, before) && Sorted(b, before)
    requires forall x, y :: before(x, y) ==> !before(y, x)
    ensures a[0] == b[0]
  {
    assert a[0] in multiset(a) && b[0] in multiset(b);
    assert a[0] in b && b[0] in a;
  }

  lemma TailSorted<T(!new)>(s: seq<T>, before: (T, T) -> bool)
    requires s != [] && Sorted(s, before)
    ensures Sorted(s[1..], before)
  {
  }

  lemma TailElements<T>(s: seq<T>)
    requires s != []
    ensures multiset(s[1..]) == multiset(s) - multiset([s[0]])
  {
    assert s == [s[0]] + s[1..];
  }
}
