/** Sorting by any total order, and why the result depends only on what is sorted. */
module Sorting {
  import opened Base

  ghost predicate TotalOrder<T(!new)>(le: (T, T) -> bool) {
    && (forall a, b :: le(a, b) || le(b, a))
    && (forall a, b, c :: le(a, b) && le(b, c) ==> le(a, c))
    && (forall a, b :: le(a, b) && le(b, a) ==> a == b)
  }

  ghost predicate Ordered<T(!new)>(le: (T, T) -> bool, s: seq<T>) {
    forall i, j :: 0 <= i < j < |s| ==> le(s[i], s[j])
  }

  function Place<T>(le: (T, T) -> bool, x: T, s: seq<T>): (r: seq<T>)
    ensures multiset(r) == multiset{x} + multiset(s)
  {
    if s == [] then [x]
    else if le(x, s[0]) then [x] + s
    else
      assert s == [s[0]] + s[1..];
      [s[0]] + Place(le, x, s[1..])
  }

  function SortBy<T>(le: (T, T) -> bool, s: seq<T>): (r: seq<T>)
    ensures multiset(r) == multiset(s)
  {
    if s == [] then [] else
      assert s == [s[0]] + s[1..];
      Place(le, s[0], SortBy(le, s[1..]))
  }

  lemma {:induction false} PlaceOrdered<T(!new)>(le: (T, T) -> bool, x: T, s: seq<T>)
    requires TotalOrder(le) && Ordered(le, s)
    ensures Ordered(le, Place(le, x, s))
  {
    if s != [] && !le(x, s[0]) {
      PlaceOrdered(le, x, s[1..]);
      var r := Place(le, x, s[1..]);
      forall j | 0 <= j < |r| ensures le(s[0], r[j]) {
        assert r[j] in multiset(r);
        assert r[j] == x || r[j] in s[1..];
      }
    }
  }

  lemma {:induction false} SortOrdered<T(!new)>(le: (T, T) -> bool, s: seq<T>)
    requires TotalOrder(le)
    ensures Ordered(le, SortBy(le, s))
  {
    if s != [] {
      SortOrdered(le, s[1..]);
      PlaceOrdered(le, s[0], SortBy(le, s[1..]));
    }
  }

  lemma SameBag<T(!new)>(a: seq<T>, b: seq<T>, x: T)
    requires multiset(a) == multiset(b)
    ensures x in a <==> x in b
  {
    assert x in a <==> x in multiset(a);
    assert x in b <==> x in multiset(b);
  }

  /** Two ordered lists of the same elements are the same list. */
  lemma {:induction false} OrderedUnique<T(!new)>(le: (T, T) -> bool, a: seq<T>, b: seq<T>)
    requires TotalOrder(le) && Ordered(le, a) && Ordered(le, b) && multiset(a) == multiset(b)
    ensures a == b
  {
    if a == [] {
      assert forall i :: 0 <= i < |b| ==> b[i] in multiset(b);
    } else {
      SameBag(a, b, a[0]);
      SameBag(a, b, b[0]);
      assert b[0] in a && le(a[0], b[0]) by { FirstLeast(le, a, b[0]); }
      FirstLeast(le, b, a[0]);
      assert a[0] == b[0];
      assert a == [a[0]] + a[1..] && b == [b[0]] + b[1..];
      assert multiset(a[1..]) == multiset(a) - multiset{a[0]};
      assert multiset(b[1..]) == multiset(b) - multiset{b[0]};
      OrderedUnique(le, a[1..], b[1..]);
    }
  }

  lemma FirstLeast<T(!new)>(le: (T, T) -> bool, s: seq<T>, x: T)
    requires TotalOrder(le) && Ordered(le, s)
    ensures x in s ==> le(s[0], x)
  {
    if x in s {
      var i :| 0 <= i < |s| && s[i] == x;
      assert le(s[0], s[0]);
    }
  }

  lemma {:induction false} DistinctBag<T(!new)>(s: seq<T>, x: T)
    requires Distinct(s)
    ensures multiset(s)[x] == if x in s then 1 else 0
  {
    if s != [] {
      DistinctBag(s[1..], x);
      assert s == [s[0]] + s[1..];
    }
  }

  /** Lists without repetition that list the same set sort alike. */
  lemma SortOfSet<T(!new)>(le: (T, T) -> bool, a: seq<T>, b: seq<T>)
    requires TotalOrder(le) && Distinct(a) && Distinct(b) && Elements(a) == Elements(b)
    ensures SortBy(le, a) == SortBy(le, b)
  {
    forall x ensures multiset(a)[x] == multiset(b)[x] {
      DistinctBag(a, x);
      DistinctBag(b, x);
      assert x in a <==> x in Elements(a);
      assert x in b <==> x in Elements(b);
    }
    assert multiset(a) == multiset(b);
    SortOrdered(le, a);
    SortOrdered(le, b);
    OrderedUnique(le, SortBy(le, a), SortBy(le, b));
  }

  /** The sorted list lists the same elements. */
  lemma SortElements<T(!new)>(le: (T, T) -> bool, s: seq<T>)
    ensures Elements(SortBy(le, s)) == Elements(s) && |SortBy(le, s)| == |s|
    ensures Distinct(SortBy(le, s)) <==> Distinct(s)
  {
    var r := SortBy(le, s);
    forall x ensures x in r <==> x in s { SameBag(r, s, x); }
    assert |r| == |multiset(r)| && |s| == |multiset(s)|;
    assert Elements(r) == Elements(s);
    ElementsCardinality(r);
    ElementsCardinality(s);
  }
}
