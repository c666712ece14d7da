/** The rotating candidate window: how soon a claimable partition is offered. */
module Sweep {
  import opened Base

  /** A partition, by its place in the text order the window query sorts by. */
  type Key = nat

  // ---------------------------------------------------------------- the window query

  function Least(s: set<Key>): (k: Key)
    requires s != {}
    ensures k in s && forall l :: l in s ==> k <= l
  {
    LeastKeyOf(s);
    var k :| k in s && forall l :: l in s ==> k <= l;
    k
  }

  lemma LeastKeyOf(s: set<Key>)
    requires s != {}
    ensures exists k :: k in s && forall l :: l in s ==> k <= l
  {
    var x :| x in s;
    LeastMember(s, x);
  }

  /** The first `limit` keys, in order. */
  function First(s: set<Key>, limit: nat): (w: seq<Key>)
    decreases limit
  {
    if limit == 0 || s == {} then [] else [Least(s)] + First(s - {Least(s)}, limit - 1)
  }

  function Beyond(s: set<Key>, after: Option<Key>): set<Key> {
    set k | k in s && (after.None? || k > after.value)
  }

  /** One window: the first `limit` claimable partitions after the cursor. */
  function Window(claimable: set<Key>, after: Option<Key>, limit: nat): seq<Key> {
    First(Beyond(claimable, after), limit)
  }

  /** A window lists, in order, the least members there are, as many as fit. */
  lemma {:induction false} FirstFacts(s: set<Key>, limit: nat)
    ensures var w := First(s, limit);
            && |w| == (if |s| < limit then |s| else limit)
            && (forall i :: 0 <= i < |w| ==> w[i] in s)
            && (forall i, j :: 0 <= i < j < |w| ==> w[i] < w[j])
            && (forall k, i :: k in s && k !in w && 0 <= i < |w| ==> w[i] < k)
            && (|s| <= limit ==> forall k :: k in s ==> k in w)
    decreases limit
  {
    if limit > 0 && s != {} {
      var k := Least(s);
      FirstFacts(s - {k}, limit - 1);
      assert |s - {k}| == |s| - 1;
      var w, rest := First(s, limit), First(s - {k}, limit - 1);
      assert w == [k] + rest;
      forall x, i | x in s && x !in w && 0 <= i < |w| ensures w[i] < x {
        assert x != k;
        if i > 0 { assert w[i] == rest[i - 1]; }
      }
    } else if s == {} {
    } else {
      assert |s| > 0;
    }
  }

  /** The window of a query: the least `limit` members beyond the cursor, in order, or all
      of them if they are fewer. */
  predicate IsWindow(w: seq<Key>, claimable: set<Key>, after: Option<Key>, limit: nat) {
    && |w| <= limit
    && (forall k :: k in w ==> k in claimable && (after.None? || k > after.value))
    && (forall i, j :: 0 <= i < j < |w| ==> w[i] < w[j])
    && (forall k :: k in claimable && (after.None? || k > after.value) && k !in w ==>
          |w| == limit && forall i :: 0 <= i < |w| ==> w[i] < k)
  }

  lemma WindowMeans(claimable: set<Key>, after: Option<Key>, limit: nat)
    ensures IsWindow(Window(claimable, after, limit), claimable, after, limit)
  {
    hide First;
    FirstFacts(Beyond(claimable, after), limit);
  }

  // ---------------------------------------------------------------- one pass

  /** A window as the catalog returns it; counts are of the whole eligible set. */
  datatype CandidateWindow = CandidateWindow(partitions: seq<Key>, nextCursor: Option<Key>, eligible: nat, leased: nat)

  /** The rows of the query: the counts, and the window's partitions with their cursors. */
  function FromRows(rows: seq<Key>, eligible: nat, leased: nat): CandidateWindow {
    CandidateWindow(rows, if rows == [] then None else Some(rows[|rows| - 1]), eligible, leased)
  }

  /** What one pass offers from a cursor, and the cursor it leaves. `now` and `again` are
      the claimable partitions at its two possible queries. */
  function Offered(cursor: Option<Key>, now: set<Key>, again: set<Key>, limit: nat): seq<Key> {
    var w := Window(now, cursor, limit);
    if cursor.Some? && w == [] then Window(again, None, limit) else w
  }

  function Left(cursor: Option<Key>, now: set<Key>, again: set<Key>, limit: nat): Option<Key> {
    var w := Offered(cursor, now, again, limit);
    if |w| < limit || w == [] then None else Some(w[|w| - 1])
  }

  class Sweeper {
    var cursors: map<nat, Key>
    var candidates: nat
    var sweepWraps: nat

    constructor ()
      ensures cursors == map[] && candidates == 0 && sweepWraps == 0
    {
      cursors, candidates, sweepWraps := map[], 0, 0;
    }

    function Cursor(ht: nat): Option<Key>
      reads this
    {
      if ht in cursors then Some(cursors[ht]) else None
    }

    /** One pass over a hypertable's candidates: offers a window after the stored cursor,
        from the head again when nothing is left, and stores or drops the cursor. */
    method Pass(ht: nat, limit: nat, now: set<Key>, again: set<Key>, eligible: nat, leased: nat) returns (w: CandidateWindow)
      modifies this
      ensures w.partitions == Offered(old(Cursor(ht)), now, again, limit)
      ensures Cursor(ht) == Left(old(Cursor(ht)), now, again, limit)
      ensures IsWindow(w.partitions, now, old(Cursor(ht)), limit)
              || (old(Cursor(ht)).Some? && IsWindow([], now, old(Cursor(ht)), limit) && IsWindow(w.partitions, again, None, limit))
      ensures Cursor(ht) == if |w.partitions| == limit > 0 then Some(w.partitions[limit - 1]) else None
      ensures w.eligible == eligible && w.leased == leased
      ensures forall other :: other != ht ==> (other in cursors <==> other in old(cursors))
      ensures forall other :: other != ht && other in cursors ==> cursors[other] == old(cursors)[other]
      ensures candidates == old(candidates) + |w.partitions|
      ensures sweepWraps == old(sweepWraps)
                            + (if eligible > 0 && (|w.partitions| < limit
                                                   || (old(Cursor(ht)).Some? && Window(now, old(Cursor(ht)), limit) == []))
                               then 1 else 0)
    {
      WindowMeans(now, Cursor(ht), limit);
      WindowMeans(again, None, limit);
      var cursor := Cursor(ht);
      var resumed := cursor.Some?;
      w := FromRows(Window(now, cursor, limit), eligible, leased);
      var ranOffTail := resumed && w.partitions == [];
      if ranOffTail {
        w := FromRows(Window(again, None, limit), eligible, leased);
      }
      var exhausted := |w.partitions| < limit;
      if w.nextCursor.Some? && !exhausted {
        cursors := cursors[ht := w.nextCursor.value];
      } else {
        cursors := cursors - {ht};
      }
      candidates := candidates + |w.partitions|;
      if w.eligible > 0 && (ranOffTail || exhausted) { sweepWraps := sweepWraps + 1; }
    }
  }

  // ---------------------------------------------------------------- fairness

  /** The passes of a sweep: the claimable sets each saw. Every one of them lies in the
      universe and holds partition `p`. */
  predicate Claimable(passes: seq<(set<Key>, set<Key>)>, universe: set<Key>, p: Key) {
    forall i :: 0 <= i < |passes| ==>
      passes[i].0 <= universe && passes[i].1 <= universe && p in passes[i].0 && p in passes[i].1
  }

  function CursorAt(start: Option<Key>, passes: seq<(set<Key>, set<Key>)>, limit: nat, i: nat): Option<Key>
    requires i <= |passes|
  {
    if i == 0 then start else Left(CursorAt(start, passes, limit, i - 1), passes[i - 1].0, passes[i - 1].1, limit)
  }

  predicate OfferedIn(start: Option<Key>, passes: seq<(set<Key>, set<Key>)>, limit: nat, i: nat, p: Key)
    requires i < |passes|
  {
    p in Offered(CursorAt(start, passes, limit, i), passes[i].0, passes[i].1, limit)
  }

  /** Members of the universe the cursor has still to pass before `p`. */
  function Ahead(universe: set<Key>, cursor: Option<Key>, p: Key): set<Key> {
    set k | k in universe && k < p && (cursor.None? || k > cursor.value)
  }

  predicate Past(cursor: Option<Key>, p: Key) {
    cursor.Some? && cursor.value >= p
  }

  function Ceil(n: nat, limit: nat): nat
    requires limit > 0
  {
    (n + limit - 1) / limit
  }

  /** A bound on the passes until `p` is offered. */
  function Patience(universe: set<Key>, cursor: Option<Key>, p: Key, limit: nat): nat
    requires limit > 0
  {
    if Past(cursor, p) then |Beyond(universe, cursor)| / limit + 1 + |Ahead(universe, None, p)| / limit + 1
    else |Ahead(universe, cursor, p)| / limit + 1
  }

  lemma FewerQuotients(a: nat, b: nat, limit: nat)
    requires limit > 0 && b + limit <= a
    ensures b / limit + 1 <= a / limit
  {
    var q := b / limit;
    assert b == limit * q + b % limit;
    assert limit * (q + 1) == limit * q + limit;
    QuotientAtLeast(a, q + 1, limit);
  }

  /** A window that stops short of `p` is full of members before `p`. */
  lemma MissIsFull(universe: set<Key>, claimable: set<Key>, cursor: Option<Key>, p: Key, limit: nat)
    requires limit > 0 && claimable <= universe && p in claimable && !Past(cursor, p)
    requires p !in Window(claimable, cursor, limit)
    ensures var w := Window(claimable, cursor, limit);
            |w| == limit && !Past(Some(w[limit - 1]), p)
            && |Ahead(universe, Some(w[limit - 1]), p)| + limit <= |Ahead(universe, cursor, p)|
  {
    var s := Beyond(claimable, cursor);
    var w := Window(claimable, cursor, limit);
    FirstFacts(s, limit);
    assert p in s && w == First(s, limit);
    var before, after := Ahead(universe, cursor, p), Ahead(universe, Some(w[limit - 1]), p);
    assert w[limit - 1] < p;
    assert after <= before && Elements(w) <= before && Elements(w) !! after by {
      forall k | k in w ensures k in before && k !in after {
        var i :| 0 <= i < |w| && w[i] == k;
        assert w[i] in s;
        assert i < limit - 1 ==> w[i] < w[limit - 1];
      }
    }
    assert Distinct(w);
    ElementsCardinality(w);
    SubsetCardinality(Elements(w) + after, before);
  }

  /** A full window beyond `p` leaves that many fewer beyond. */
  lemma PastIsFull(universe: set<Key>, claimable: set<Key>, cursor: Option<Key>, p: Key, limit: nat)
    requires limit > 0 && claimable <= universe && Past(cursor, p) && |Window(claimable, cursor, limit)| == limit
    ensures var w := Window(claimable, cursor, limit);
            Past(Some(w[limit - 1]), p) && |Beyond(universe, Some(w[limit - 1]))| + limit <= |Beyond(universe, cursor)|
  {
    var s := Beyond(claimable, cursor);
    var w := Window(claimable, cursor, limit);
    FirstFacts(s, limit);
    var before, after := Beyond(universe, cursor), Beyond(universe, Some(w[limit - 1]));
    forall k | k in w ensures k in before && k !in after {
      var i :| 0 <= i < |w| && w[i] == k;
      assert w[i] in s;
      assert i < limit - 1 ==> w[i] < w[limit - 1];
    }
    assert w[limit - 1] in s;
    assert Distinct(w);
    ElementsCardinality(w);
    assert Elements(w) <= before && after <= before && Elements(w) !! after;
    SubsetCardinality(Elements(w) + after, before);
  }

  lemma MissAhead(universe: set<Key>, cursor: Option<Key>, now: set<Key>, again: set<Key>, p: Key, limit: nat)
    requires limit > 0 && now <= universe && p in now && !Past(cursor, p) && p !in Offered(cursor, now, again, limit)
    ensures Patience(universe, Left(cursor, now, again, limit), p, limit) < Patience(universe, cursor, p, limit)
  {
    hide Window; hide Ahead; hide Beyond; hide Past;
    var w := Window(now, cursor, limit);
    if cursor.Some? && w == [] { EmptyMiss(now, cursor, p, limit); }
    MissIsFull(universe, now, cursor, p, limit);
    FewerQuotients(|Ahead(universe, cursor, p)|, |Ahead(universe, Some(w[limit - 1]), p)|, limit);
  }

  lemma MissAfterWrap(universe: set<Key>, cursor: Option<Key>, now: set<Key>, again: set<Key>, p: Key, limit: nat)
    requires limit > 0 && again <= universe && p in again && Past(cursor, p) && Window(now, cursor, limit) == []
    requires p !in Offered(cursor, now, again, limit)
    ensures Patience(universe, Left(cursor, now, again, limit), p, limit) < Patience(universe, cursor, p, limit)
  {
    hide Window; hide Ahead; hide Beyond;
    var v := Window(again, None, limit);
    MissIsFull(universe, again, None, p, limit);
    hide Past;
    FewerQuotients(|Ahead(universe, None, p)|, |Ahead(universe, Some(v[limit - 1]), p)|, limit);
  }

  lemma MissBeyond(universe: set<Key>, cursor: Option<Key>, now: set<Key>, again: set<Key>, p: Key, limit: nat)
    requires limit > 0 && now <= universe && Past(cursor, p) && |Window(now, cursor, limit)| == limit
    ensures Patience(universe, Left(cursor, now, again, limit), p, limit) < Patience(universe, cursor, p, limit)
  {
    hide Window; hide Ahead; hide Beyond;
    var w := Window(now, cursor, limit);
    PastIsFull(universe, now, cursor, p, limit);
    hide Past;
    FewerQuotients(|Beyond(universe, cursor)|, |Beyond(universe, Some(w[limit - 1]))|, limit);
  }

  lemma MissAtEnd(universe: set<Key>, cursor: Option<Key>, now: set<Key>, again: set<Key>, p: Key, limit: nat)
    requires limit > 0 && Past(cursor, p) && 0 < |Window(now, cursor, limit)| < limit
    ensures Patience(universe, Left(cursor, now, again, limit), p, limit) < Patience(universe, cursor, p, limit)
  {
    hide Window; hide Ahead; hide Beyond;
  }

  /** A pass that does not offer `p` uses up some of the patience. */
  lemma PassUsesPatience(universe: set<Key>, cursor: Option<Key>, now: set<Key>, again: set<Key>, p: Key, limit: nat)
    requires limit > 0 && now <= universe && again <= universe && p in now && p in again
    requires p !in Offered(cursor, now, again, limit)
    ensures Patience(universe, Left(cursor, now, again, limit), p, limit) < Patience(universe, cursor, p, limit)
  {
    hide Window; hide Offered; hide Left; hide Patience; hide Past;
    WindowBound(now, cursor, limit);
    if !Past(cursor, p) { MissAhead(universe, cursor, now, again, p, limit); }
    else if Window(now, cursor, limit) == [] { MissAfterWrap(universe, cursor, now, again, p, limit); }
    else if |Window(now, cursor, limit)| == limit { MissBeyond(universe, cursor, now, again, p, limit); }
    else { MissAtEnd(universe, cursor, now, again, p, limit); }
  }

  lemma WindowBound(claimable: set<Key>, cursor: Option<Key>, limit: nat)
    ensures |Window(claimable, cursor, limit)| <= limit
  {
    FirstFacts(Beyond(claimable, cursor), limit);
  }

  lemma EmptyMiss(claimable: set<Key>, cursor: Option<Key>, p: Key, limit: nat)
    requires limit > 0 && p in claimable && !Past(cursor, p)
    ensures Window(claimable, cursor, limit) != []
  {
    FirstFacts(Beyond(claimable, cursor), limit);
    assert p in Beyond(claimable, cursor);
  }

  lemma {:induction false} OfferedWithinPatience(universe: set<Key>, start: Option<Key>, passes: seq<(set<Key>, set<Key>)>, p: Key, limit: nat, from: nat)
    requires limit > 0 && Claimable(passes, universe, p) && from <= |passes|
    requires |passes| - from >= Patience(universe, CursorAt(start, passes, limit, from), p, limit)
    ensures exists i :: from <= i < |passes| && OfferedIn(start, passes, limit, i, p)
    decreases |passes| - from
  {
    hide Offered; hide Left;
    assert Patience(universe, CursorAt(start, passes, limit, from), p, limit) >= 1;
    if !OfferedIn(start, passes, limit, from, p) {
      PassUsesPatience(universe, CursorAt(start, passes, limit, from), passes[from].0, passes[from].1, p, limit);
      assert CursorAt(start, passes, limit, from + 1) == Left(CursorAt(start, passes, limit, from), passes[from].0, passes[from].1, limit);
      OfferedWithinPatience(universe, start, passes, p, limit, from + 1);
    }
  }

  lemma SplitQuotients(a: nat, b: nat, n: nat, limit: nat)
    requires limit > 0 && a + b < n
    ensures a / limit + b / limit + 1 <= Ceil(n, limit)
  {
    assert a == limit * (a / limit) + a % limit && b == limit * (b / limit) + b % limit;
    var q := a / limit + b / limit;
    assert limit * q == limit * (a / limit) + limit * (b / limit);
    assert limit * q <= a + b;
    assert limit * (q + 1) == limit * q + limit;
    assert n + limit - 1 >= limit * (q + 1);
    QuotientAtLeast(n + limit - 1, q + 1, limit);
  }

  lemma QuotientAtLeast(x: nat, q: nat, limit: nat)
    requires limit > 0 && x >= limit * q
    ensures x / limit >= q
  {
    if x / limit < q {
      assert x < limit * (x / limit + 1);
      Times(limit, x / limit + 1, q);
    }
  }

  lemma Times(limit: nat, a: nat, b: nat)
    requires a <= b
    ensures limit * a <= limit * b
  {
  }

  /** Whatever becomes eligible or is leased meanwhile, and wherever the cursor stands, a
      partition that stays claimable is offered within ceil(|U| / limit) + 1 passes — so
      within 2 * ceil(|U| / limit) + 1. */
  lemma OfferedSoon(universe: set<Key>, start: Option<Key>, passes: seq<(set<Key>, set<Key>)>, p: Key, limit: nat)
    requires limit > 0 && p in universe && Claimable(passes, universe, p)
    requires |passes| >= Ceil(|universe|, limit) + 1
    ensures exists i :: 0 <= i <= Ceil(|universe|, limit) && i < |passes| && OfferedIn(start, passes, limit, i, p)
  {
    hide Patience; hide OfferedIn;
    var first := passes[..Ceil(|universe|, limit) + 1];
    PatienceBound(universe, start, p, limit);
    OfferedWithinPatience(universe, start, first, p, limit, 0);
    var i :| 0 <= i < |first| && OfferedIn(start, first, limit, i, p);
    SameOffer(start, first, passes, limit, i, p);
  }

  lemma CountAround(universe: set<Key>, start: Option<Key>, p: Key)
    requires p in universe
    ensures Past(start, p) ==> |Beyond(universe, start)| + |Ahead(universe, None, p)| < |universe|
    ensures |Ahead(universe, start, p)| < |universe|
  {
    var a, b, c := Beyond(universe, start), Ahead(universe, None, p), Ahead(universe, start, p);
    if Past(start, p) {
      assert a !! b && p !in a + b;
      assert |a + b| == |a| + |b|;
      SmallerWithout(a + b, p, universe);
    }
    SmallerWithout(c, p, universe);
  }

  lemma SmallerWithout(a: set<Key>, p: Key, universe: set<Key>)
    requires a <= universe && p in universe && p !in a
    ensures |a| < |universe|
  {
    SubsetCardinality(a, universe);
  }

  lemma PatienceBound(universe: set<Key>, start: Option<Key>, p: Key, limit: nat)
    requires limit > 0 && p in universe
    ensures Patience(universe, start, p, limit) <= Ceil(|universe|, limit) + 1
  {
    hide Ceil; hide Beyond; hide Ahead; hide Past;
    CountAround(universe, start, p);
    if Past(start, p) {
      SplitQuotients(|Beyond(universe, start)|, |Ahead(universe, None, p)|, |universe|, limit);
    } else {
      SplitQuotients(|Ahead(universe, start, p)|, 0, |universe|, limit);
      NoQuotient(limit);
    }
  }

  lemma NoQuotient(limit: nat)
    requires limit > 0
    ensures 0 / limit == 0
  {
  }

  lemma SameOffer(start: Option<Key>, some: seq<(set<Key>, set<Key>)>, all: seq<(set<Key>, set<Key>)>, limit: nat, i: nat, p: Key)
    requires |some| <= |all| && some == all[..|some|] && i < |some| && OfferedIn(start, some, limit, i, p)
    ensures OfferedIn(start, all, limit, i, p)
  {
    hide Left; hide Offered;
    SameCursors(start, some, all, limit, i);
  }

  lemma {:induction false} SameCursors(start: Option<Key>, some: seq<(set<Key>, set<Key>)>, all: seq<(set<Key>, set<Key>)>, limit: nat, i: nat)
    requires |some| <= |all| && some == all[..|some|] && i <= |some|
    ensures CursorAt(start, some, limit, i) == CursorAt(start, all, limit, i)
  {
    hide Left;
    if i > 0 { SameCursors(start, some, all, limit, i - 1); }
  }

  // ---------------------------------------------------------------- a static backlog

  predicate Increasing(w: seq<Key>) {
    forall i, j :: 0 <= i < j < |w| ==> w[i] < w[j]
  }

  function Min(a: nat, b: nat): nat {
    if a < b then a else b
  }

  lemma LeastIsFirst(s: set<Key>, w: seq<Key>)
    requires Increasing(w) && Elements(w) == s && w != []
    ensures s != {} && Least(s) == w[0] && Increasing(w[1..]) && Elements(w[1..]) == s - {w[0]}
  {
    assert w[0] in s;
    var k := Least(s);
    assert k in w;
    assert w == [w[0]] + w[1..];
  }

  /** The first keys of a set listed in order are the first of the list. */
  lemma {:induction false} FirstOfSorted(s: set<Key>, w: seq<Key>, limit: nat)
    requires Increasing(w) && Elements(w) == s
    ensures First(s, limit) == w[..Min(limit, |w|)]
    decreases limit
  {
    hide Increasing; hide Least; hide First; hide Elements;
    if w == [] {
      assert s == {} by { NothingListed(); }
      FirstOfNone(s, limit);
    } else if limit == 0 {
      FirstOfNone(s, 0);
    } else {
      LeastIsFirst(s, w);
      FirstStep(s, limit);
      FirstOfSorted(s - {w[0]}, w[1..], limit - 1);
      assert w[..Min(limit, |w|)] == [w[0]] + w[1..][..Min(limit - 1, |w| - 1)];
    }
  }

  lemma NothingListed()
    ensures Elements<Key>([]) == {}
  {
  }

  lemma FirstOfNone(s: set<Key>, limit: nat)
    requires s == {} || limit == 0
    ensures First(s, limit) == []
  {
  }

  lemma FirstStep(s: set<Key>, limit: nat)
    requires s != {} && limit > 0
    ensures First(s, limit) == [Least(s)] + First(s - {Least(s)}, limit - 1)
  {
  }

  /** What lies beyond the j-th key is the list from there on. */
  lemma BeyondOfSorted(s: set<Key>, w: seq<Key>, j: nat)
    requires Increasing(w) && Elements(w) == s && 0 < j <= |w|
    ensures Increasing(w[j..]) && Elements(w[j..]) == Beyond(s, Some(w[j - 1]))
  {
    forall k ensures k in w[j..] <==> k in Beyond(s, Some(w[j - 1])) {
      if k in s && k > w[j - 1] {
        var i: nat :| i < |w| && w[i] == k by { assert k in w; }
        assert i >= j;
        assert w[j..][i - j] == k;
      }
      if k in w[j..] {
        var i: nat :| i < |w[j..]| && w[j..][i] == k;
        assert w[j + i] == k;
      }
    }
  }

  /** The cursor after `i` passes over an unchanging set, from the head. */
  function StaticCursor(s: set<Key>, limit: nat, i: nat): Option<Key> {
    if i == 0 then None else Left(StaticCursor(s, limit, i - 1), s, s, limit)
  }

  function StaticWindow(s: set<Key>, limit: nat, i: nat): seq<Key> {
    Offered(StaticCursor(s, limit, i), s, s, limit)
  }

  /** `i * limit`. */
  function Offset(limit: nat, i: nat): nat {
    if i == 0 then 0 else Offset(limit, i - 1) + limit
  }

  lemma {:induction false} OffsetIsProduct(limit: nat, i: nat)
    ensures Offset(limit, i) == i * limit
  {
    if i > 0 {
      OffsetIsProduct(limit, i - 1);
      assert (i - 1) * limit + limit == i * limit;
    }
  }

  /** The window after the j-th key of the list is what follows it. */
  lemma WindowAfter(s: set<Key>, w: seq<Key>, limit: nat, j: nat)
    requires limit > 0 && Increasing(w) && Elements(w) == s && j < |w|
    ensures var cursor := if j == 0 then None else Some(w[j - 1]);
            Window(s, cursor, limit) == w[j..Min(j + limit, |w|)]
  {
    hide Increasing; hide Elements;
    if j == 0 {
      assert Beyond(s, None) == s;
      FirstOfSorted(s, w, limit);
    } else {
      BeyondOfSorted(s, w, j);
      FirstOfSorted(Beyond(s, Some(w[j - 1])), w[j..], limit);
      assert w[j..][..Min(limit, |w| - j)] == w[j..Min(j + limit, |w|)];
    }
  }

  /** A pass with keys left offers them, and leaves the cursor at the last if the window
      was full. */
  lemma PassAfter(s: set<Key>, w: seq<Key>, limit: nat, j: nat)
    requires limit > 0 && Increasing(w) && Elements(w) == s && j < |w|
    ensures var cursor := if j == 0 then None else Some(w[j - 1]);
            && Offered(cursor, s, s, limit) == w[j..Min(j + limit, |w|)]
            && Left(cursor, s, s, limit) == if j + limit <= |w| then Some(w[j + limit - 1]) else None
  {
    hide Increasing; hide Elements; hide Window;
    WindowAfter(s, w, limit, j);
  }

  /** Pass `i` of a rotation stands `i * limit` keys into the list and offers the next
      ones. */
  lemma {:induction false} StaticPass(s: set<Key>, w: seq<Key>, limit: nat, i: nat)
    requires limit > 0 && Increasing(w) && Elements(w) == s && Offset(limit, i) < |w|
    ensures var j := Offset(limit, i);
            && StaticCursor(s, limit, i) == (if j == 0 then None else Some(w[j - 1]))
            && StaticWindow(s, limit, i) == w[j..Min(j + limit, |w|)]
  {
    hide Offered; hide Left; hide Increasing; hide Elements;
    if i > 0 {
      StaticPass(s, w, limit, i - 1);
      PassAfter(s, w, limit, Offset(limit, i - 1));
    }
    PassAfter(s, w, limit, Offset(limit, i));
  }

  function Windows(s: set<Key>, limit: nat, n: nat): seq<Key> {
    if n == 0 then [] else Windows(s, limit, n - 1) + StaticWindow(s, limit, n - 1)
  }

  lemma {:induction false} WindowsJoin(s: set<Key>, w: seq<Key>, limit: nat, n: nat)
    requires limit > 0 && Increasing(w) && Elements(w) == s && (n > 0 ==> Offset(limit, n - 1) < |w|)
    ensures Windows(s, limit, n) == w[..Min(Offset(limit, n), |w|)]
  {
    hide StaticWindow; hide StaticCursor; hide Increasing; hide Elements;
    if n > 0 {
      var j := Offset(limit, n - 1);
      WindowsJoin(s, w, limit, n - 1);
      StaticPass(s, w, limit, n - 1);
      assert w[..j] + w[j..Min(j + limit, |w|)] == w[..Min(j + limit, |w|)];
    }
  }

  /** Over an unchanging set each rotation of ceil(|U| / limit) passes offers every
      partition exactly once, in order, and the pass after it is the first again. */
  lemma RotationOffersEachOnce(s: set<Key>, w: seq<Key>, limit: nat)
    requires limit > 0 && w != [] && Increasing(w) && Elements(w) == s
    ensures Windows(s, limit, Ceil(|w|, limit)) == w
    ensures StaticWindow(s, limit, Ceil(|w|, limit)) == StaticWindow(s, limit, 0)
  {
    hide Increasing; hide Elements; hide Ceil;
    var m := Ceil(|w|, limit);
    CeilFacts(|w|, limit);
    OffsetIsProduct(limit, m - 1);
    OffsetIsProduct(limit, m);
    WindowsJoin(s, w, limit, m);
    assert w[..|w|] == w;
    StaticPass(s, w, limit, m - 1);
    Restarts(s, w, limit, m);
  }

  lemma Restarts(s: set<Key>, w: seq<Key>, limit: nat, m: nat)
    requires limit > 0 && w != [] && Increasing(w) && Elements(w) == s && m > 0
    requires Offset(limit, m - 1) < |w| <= Offset(limit, m)
    ensures StaticWindow(s, limit, m) == StaticWindow(s, limit, 0)
  {
    hide Increasing; hide Elements; hide Window;
    StaticPass(s, w, limit, m - 1);
    PassAfter(s, w, limit, Offset(limit, m - 1));
    if |w| == Offset(limit, m) {
      NothingBeyondLast(s, w, limit);
    }
  }

  lemma NothingBeyondLast(s: set<Key>, w: seq<Key>, limit: nat)
    requires w != [] && Increasing(w) && Elements(w) == s
    ensures Window(s, Some(w[|w| - 1]), limit) == []
  {
    BeyondOfSorted(s, w, |w|);
    assert Elements(w[|w|..]) == {};
  }

  lemma CeilFacts(n: nat, limit: nat)
    requires n > 0 && limit > 0
    ensures var m := Ceil(n, limit); m > 0 && (m - 1) * limit < n <= m * limit
  {
    var x := n + limit - 1;
    assert x == limit * (x / limit) + x % limit;
    QuotientAtLeast(x, 1, limit);
    assert (x / limit - 1) * limit == limit * (x / limit) - limit;
    assert limit * (x / limit) == (x / limit) * limit;
  }
}
