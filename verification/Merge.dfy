/** The K-way streaming merge: it never sorts, it guards the order of what it reads,
    and what it emits is the stable sort of its inputs end to end. */
module Merge {
  import opened Base
  import opened Rows

  const MERGE_BATCH_ROWS := 8192

  /** What a part stream yields: a decoded batch, possibly empty, or a read failure. */
  datatype Item = Batch(rows: seq<Row>) | Failure

  datatype MergeError = OrderViolation(stream: nat, row: nat) | ReadFailure(stream: nat)

  /** A stream's current batch and how far the merge is into it. `last` is the last row
      read so far, against which the next batch is checked. */
  datatype Cursor = Cursor(stream: seq<Item>, batch: seq<Row>, idx: nat, exhausted: bool, last: Option<Row>)

  /** A heap entry: the sort key at a cursor, and the cursor. */
  datatype Head = Head(row: Row, stream: nat)

  // ---------------------------------------------------------------- streams

  function RowsIn(items: seq<Item>): seq<Row> {
    if items == [] then [] else (if items[0].Batch? then items[0].rows else []) + RowsIn(items[1..])
  }

  lemma {:induction false} RowsInAppend(a: seq<Item>, b: seq<Item>)
    ensures RowsIn(a + b) == RowsIn(a) + RowsIn(b)
  {
    if a == [] {
      assert a + b == b;
    } else {
      assert (a + b)[1..] == a[1..] + b;
      RowsInAppend(a[1..], b);
    }
  }

  predicate Readable(items: seq<Item>) {
    forall i :: 0 <= i < |items| ==> items[i].Batch?
  }

  /** A stream the merge accepts: every batch can be read, and the rows are in order
      across batches. */
  predicate Good(items: seq<Item>) {
    Readable(items) && Sorted(RowsIn(items))
  }

  /** What an error tells of a stream: everything before was readable and in order, and there
      a read fails, or the batch has a row below the one before it. */
  ghost predicate Blames(streams: seq<seq<Item>>, e: MergeError) {
    e.stream < |streams| && exists k :: BlamesAt(streams[e.stream], e, k)
  }

  ghost predicate BlamesAt(items: seq<Item>, e: MergeError, k: nat) {
    && k < |items| && Readable(items[..k]) && Sorted(RowsIn(items[..k]))
    && match e
       case ReadFailure(_) => items[k].Failure?
       case OrderViolation(_, row) =>
         items[k].Batch? && row < |items[k].rows|
         && var before := RowsIn(items[..k]) + items[k].rows[..row];
            before != [] && !Le(before[|before| - 1], items[k].rows[row])
  }

  // ---------------------------------------------------------------- picking the least head

  lemma SortCons(a: Row, s: seq<Row>)
    ensures StableSort([a] + s) == Insert(a, StableSort(s))
  {
    assert ([a] + s)[1..] == s;
  }

  lemma InsertPasses(a: Row, x: Row, s: seq<Row>)
    requires !Le(a, x)
    ensures Insert(a, [x] + s) == [x] + Insert(a, s)
  {
    assert ([x] + s)[1..] == s;
  }

  lemma InsertFirst(x: Row, s: seq<Row>)
    requires forall b :: b in s ==> Le(x, b)
    ensures Insert(x, StableSort(s)) == [x] + StableSort(s)
  {
    var r := StableSort(s);
    if r != [] { assert r[0] in multiset(r); assert r[0] in multiset(s); }
  }

  lemma ConsOut<T>(a: seq<T>, b: seq<T>, c: seq<T>)
    requires a != []
    ensures a + b + c == [a[0]] + (a[1..] + b + c) && a + c == [a[0]] + (a[1..] + c)
  {
  }

  /** A row below everything after it and strictly below everything before it comes
      first in the stable sort. */
  lemma {:induction false} FirstOfSort(before: seq<Row>, x: Row, after: seq<Row>)
    requires forall a :: a in before ==> !Le(a, x)
    requires forall b :: b in after ==> Le(x, b)
    ensures StableSort(before + [x] + after) == [x] + StableSort(before + after)
  {
    hide Le; hide StableSort; hide Insert;
    if before == [] {
      assert before + [x] + after == [x] + after && before + after == after;
      SortCons(x, after);
      InsertFirst(x, after);
    } else {
      var a, more := before[0], before[1..];
      assert forall b :: b in more ==> b in before;
      FirstOfSort(more, x, after);
      ConsOut(before, [x], after);
      SortCons(a, more + [x] + after);
      SortCons(a, more + after);
      InsertPasses(a, x, StableSort(more + after));
    }
  }

  /** The least head, ties going to the earlier stream. */
  predicate Least(rems: seq<seq<Row>>, s: nat) {
    && s < |rems| && rems[s] != []
    && forall j :: 0 <= j < |rems| && rems[j] != [] ==>
         if j < s then !Le(rems[j][0], rems[s][0]) else Le(rems[s][0], rems[j][0])
  }

  lemma LeTrans(a: Row, b: Row, c: Row)
    ensures Le(a, b) && Le(b, c) ==> Le(a, c)
    ensures !Le(b, a) && Le(b, c) ==> !Le(c, a)
  {
  }

  lemma FlattenSplit<T>(ss: seq<seq<T>>, s: nat)
    requires s < |ss| && ss[s] != []
    ensures Flatten(ss) == Flatten(ss[..s]) + [ss[s][0]] + (ss[s][1..] + Flatten(ss[s + 1..]))
    ensures Flatten(ss[s := ss[s][1..]]) == Flatten(ss[..s]) + (ss[s][1..] + Flatten(ss[s + 1..]))
  {
    var x, tail := ss[s][0], ss[s][1..];
    assert ss == ss[..s] + ([ss[s]] + ss[s + 1..]);
    FlattenAppend(ss[..s], [ss[s]] + ss[s + 1..]);
    assert ([ss[s]] + ss[s + 1..])[1..] == ss[s + 1..];
    assert ss[s] == [x] + tail;
    var tt := ss[s := tail];
    assert tt == ss[..s] + ([tail] + ss[s + 1..]);
    FlattenAppend(ss[..s], [tail] + ss[s + 1..]);
    assert ([tail] + ss[s + 1..])[1..] == ss[s + 1..];
  }

  /** Taking the least head of sorted streams takes the first row of their stable sort. */
  lemma PickLeast(rems: seq<seq<Row>>, s: nat)
    requires Least(rems, s) && forall j :: 0 <= j < |rems| ==> Sorted(rems[j])
    ensures StableSort(Flatten(rems)) == [rems[s][0]] + StableSort(Flatten(rems[s := rems[s][1..]]))
  {
    var x, tail := rems[s][0], rems[s][1..];
    var before, after := Flatten(rems[..s]), tail + Flatten(rems[s + 1..]);
    FlattenSplit(rems, s);
    forall a | a in before ensures !Le(a, x) {
      FlattenMembers(rems[..s], a);
      var j, i :| 0 <= j < s && 0 <= i < |rems[..s][j]| && rems[..s][j][i] == a;
      HeadIsLeast(rems[j], i);
      LeTrans(x, rems[j][0], a);
    }
    forall b | b in after ensures Le(x, b) {
      if b in tail {
        var i :| 0 <= i < |tail| && tail[i] == b;
        assert rems[s][i + 1] == b;
      } else {
        FlattenMembers(rems[s + 1..], b);
        var j, i :| 0 <= j < |rems[s + 1..]| && 0 <= i < |rems[s + 1..][j]| && rems[s + 1..][j][i] == b;
        HeadIsLeast(rems[s + 1 + j], i);
        LeTrans(x, rems[s + 1 + j][0], b);
      }
    }
    FirstOfSort(before, x, after);
  }

  lemma HeadIsLeast(s: seq<Row>, i: nat)
    requires Sorted(s) && i < |s|
    ensures Le(s[0], s[i])
  {
  }

  // ---------------------------------------------------------------- cursors

  /** The rows a cursor has not emitted yet. */
  function Rem(c: Cursor): seq<Row>
    requires c.idx <= |c.batch|
  {
    c.batch[c.idx..] + RowsIn(c.stream)
  }

  /** A cursor against the stream it came from: what it has read so far is readable, in
      order, ends in its batch and in `last`. */
  ghost predicate CursorOk(c: Cursor, origin: seq<Item>) {
    && |c.stream| <= |origin| && c.stream == origin[|origin| - |c.stream|..]
    && Readable(origin[..|origin| - |c.stream|])
    && c.idx <= |c.batch|
    && (c.exhausted ==> c.stream == [])
    && SeenOk(RowsIn(origin[..|origin| - |c.stream|]), c.batch, c.last)
  }

  ghost predicate SeenOk(seen: seq<Row>, batch: seq<Row>, last: Option<Row>) {
    && Sorted(seen)
    && |batch| <= |seen| && seen[|seen| - |batch|..] == batch
    && last == (if seen == [] then None else Some(seen[|seen| - 1]))
  }

  /** The rows left are a suffix of the stream's rows, so in order if those are. */
  lemma RemIsSuffix(c: Cursor, origin: seq<Item>)
    requires CursorOk(c, origin)
    ensures |Rem(c)| <= |RowsIn(origin)| && Rem(c) == RowsIn(origin)[|RowsIn(origin)| - |Rem(c)|..]
  {
    hide RowsIn; hide Sorted;
    var k := |origin| - |c.stream|;
    assert origin == origin[..k] + origin[k..];
    RowsInAppend(origin[..k], origin[k..]);
    SuffixOfJoin(RowsIn(origin[..k]), c.batch, c.idx, RowsIn(c.stream));
  }

  lemma SuffixOfJoin<T>(seen: seq<T>, batch: seq<T>, idx: nat, rest: seq<T>)
    requires |batch| <= |seen| && seen[|seen| - |batch|..] == batch && idx <= |batch|
    ensures var left := batch[idx..] + rest; left == (seen + rest)[|seen + rest| - |left|..]
  {
  }

  lemma SortedSuffix(s: seq<Row>, k: nat)
    requires Sorted(s) && k <= |s|
    ensures Sorted(s[k..])
  {
  }

  /** A stream read to its end without complaint is a good one. */
  lemma ExhaustedIsGood(c: Cursor, origin: seq<Item>)
    requires CursorOk(c, origin) && c.stream == []
    ensures Good(origin)
  {
    assert origin[..|origin|] == origin;
  }

  // ---------------------------------------------------------------- the guard

  /** Order within the batch and against the previous batch, row by row. */
  method ConvertAndGuard(batch: seq<Row>, stream: nat, prev: Option<Row>) returns (r: Result<Row, MergeError>)
    requires batch != []
    ensures r.Ok? <==> Sorted(batch) && (prev.Some? ==> Le(prev.value, batch[0]))
    ensures r.Ok? ==> r.value == batch[|batch| - 1]
    ensures r.Err? ==> r.error.OrderViolation? && r.error.stream == stream && r.error.row < |batch|
    ensures r.Err? && r.error.row > 0 ==> !Le(batch[r.error.row - 1], batch[r.error.row])
    ensures r.Err? && r.error.row == 0 ==> prev.Some? && !Le(prev.value, batch[0])
  {
    for i := 1 to |batch|
      invariant forall a, b :: 0 <= a < b < i ==> Le(batch[a], batch[b])
    {
      if !Le(batch[i - 1], batch[i]) {
        return Err(OrderViolation(stream, i));
      }
      forall a | 0 <= a < i ensures Le(batch[a], batch[i]) { LeTrans(batch[a], batch[i - 1], batch[i]); }
    }
    if prev.Some? && !Le(prev.value, batch[0]) {
      return Err(OrderViolation(stream, 0));
    }
    return Ok(batch[|batch| - 1]);
  }

  lemma JoinSorted(a: seq<Row>, b: seq<Row>)
    requires a != [] && b != [] && Sorted(a) && Sorted(b) && Le(a[|a| - 1], b[0])
    ensures Sorted(a + b)
  {
    forall i, j | 0 <= i < j < |a + b| ensures Le((a + b)[i], (a + b)[j]) {
      if i < |a| <= j {
        LeTrans(a[i], a[|a| - 1], b[0]);
        LeTrans(a[i], b[0], b[j - |a|]);
      }
    }
  }

  /** The next item of the stream joins what was seen. */
  lemma SeenMore(origin: seq<Item>, k: nat)
    requires k < |origin|
    ensures RowsIn(origin[..k + 1]) == RowsIn(origin[..k]) + (if origin[k].Batch? then origin[k].rows else [])
    ensures RowsIn(origin[k..]) == (if origin[k].Batch? then origin[k].rows else []) + RowsIn(origin[k + 1..])
  {
    assert origin[..k + 1] == origin[..k] + [origin[k]];
    RowsInAppend(origin[..k], [origin[k]]);
    assert RowsIn([origin[k]]) == (if origin[k].Batch? then origin[k].rows else []) + RowsIn([origin[k]][1..]);
    assert origin[k..][1..] == origin[k + 1..];
  }

  /** A violation the guard sees is one of the whole stream. */
  lemma ViolationIsBad(c: Cursor, origin: seq<Item>, batch: seq<Row>)
    requires CursorOk(c, origin) && c.stream != [] && c.stream[0] == Batch(batch) && batch != []
    requires !(Sorted(batch) && (c.last.Some? ==> Le(c.last.value, batch[0])))
    ensures !Good(origin)
  {
    var k := |origin| - |c.stream|;
    var seen := RowsIn(origin[..k]);
    SeenMore(origin, k);
    assert origin == origin[..k + 1] + origin[k + 1..];
    RowsInAppend(origin[..k + 1], origin[k + 1..]);
    assert RowsIn(origin) == seen + batch + RowsIn(origin[k + 1..]);
    if Sorted(seen + batch + RowsIn(origin[k + 1..])) { SortedWithin(seen, batch, RowsIn(origin[k + 1..])); }
  }

  lemma FailureBlames(c: Cursor, origins: seq<seq<Item>>, s: nat)
    requires s < |origins| && CursorOk(c, origins[s]) && c.stream != [] && c.stream[0].Failure?
    ensures Blames(origins, ReadFailure(s))
  {
    var k: nat := |origins[s]| - |c.stream|;
    assert BlamesAt(origins[s], ReadFailure(s), k);
  }

  lemma ViolationBlames(c: Cursor, origins: seq<seq<Item>>, s: nat, batch: seq<Row>, e: MergeError)
    requires s < |origins| && CursorOk(c, origins[s]) && c.stream != [] && c.stream[0] == Batch(batch)
    requires e.OrderViolation? && e.stream == s && e.row < |batch|
    requires e.row > 0 ==> !Le(batch[e.row - 1], batch[e.row])
    requires e.row == 0 ==> c.last.Some? && !Le(c.last.value, batch[0])
    ensures Blames(origins, e)
  {
    hide Sorted; hide Le;
    var items := origins[s];
    var k: nat := |items| - |c.stream|;
    assert items[k] == Batch(batch);
    var before := RowsIn(items[..k]) + batch[..e.row];
    if e.row > 0 { assert before[|before| - 1] == batch[e.row - 1]; }
    assert BlamesAt(items, e, k);
  }

  lemma SortedWithin(a: seq<Row>, b: seq<Row>, c: seq<Row>)
    requires Sorted(a + b + c)
    ensures Sorted(b) && (a != [] && b != [] ==> Le(a[|a| - 1], b[0]))
  {
    hide Le;
    var all := a + b + c;
    forall i, j | 0 <= i < j < |b| ensures Le(b[i], b[j]) { assert all[|a| + i] == b[i] && all[|a| + j] == b[j]; }
    if a != [] && b != [] { assert all[|a| - 1] == a[|a| - 1] && all[|a|] == b[0]; }
  }

  lemma SeenJoins(seen: seq<Row>, batch: seq<Row>, last: Option<Row>, next: seq<Row>)
    requires SeenOk(seen, batch, last) && next != [] && Sorted(next) && (last.Some? ==> Le(last.value, next[0]))
    ensures SeenOk(seen + next, next, Some(next[|next| - 1]))
  {
    if seen != [] { JoinSorted(seen, next); } else { assert seen + next == next; }
    assert (seen + next)[|seen|..] == next;
  }

  /** A batch that passes the guard becomes the cursor's batch. */
  lemma LoadOk(c: Cursor, origin: seq<Item>, batch: seq<Row>)
    requires CursorOk(c, origin) && c.stream != [] && c.stream[0] == Batch(batch) && batch != []
    requires Sorted(batch) && (c.last.Some? ==> Le(c.last.value, batch[0])) && c.idx == |c.batch|
    ensures var c' := Cursor(c.stream[1..], batch, 0, false, Some(batch[|batch| - 1]));
            CursorOk(c', origin) && Rem(c') == Rem(c)
  {
    hide RowsIn; hide SeenOk;
    var k := |origin| - |c.stream|;
    SeenMore(origin, k);
    SeenJoins(RowsIn(origin[..k]), c.batch, c.last, batch);
    assert c.stream[1..] == origin[k + 1..];
    assert c.batch[c.idx..] == [] && batch[0..] == batch;
  }

  /** An empty batch is passed over. */
  lemma SkipOk(c: Cursor, origin: seq<Item>)
    requires CursorOk(c, origin) && c.stream != [] && c.stream[0] == Batch([])
    ensures var c' := c.(stream := c.stream[1..], exhausted := false); CursorOk(c', origin) && Rem(c') == Rem(c)
  {
    hide RowsIn; hide Sorted; hide SeenOk;
    var k := |origin| - |c.stream|;
    SeenMore(origin, k);
    assert c.stream[1..] == origin[k + 1..];
    assert RowsIn(origin[..k]) + [] == RowsIn(origin[..k]);
    assert [] + RowsIn(origin[k + 1..]) == RowsIn(origin[k + 1..]);
    assert c.stream == origin[k..];
  }

  // ---------------------------------------------------------------- the merge state

  function Rems(cursors: seq<Cursor>): seq<seq<Row>>
    requires forall s :: 0 <= s < |cursors| ==> cursors[s].idx <= |cursors[s].batch|
  {
    seq(|cursors|, s requires 0 <= s < |cursors| => Rem(cursors[s]))
  }

  ghost predicate CursorsOk(cursors: seq<Cursor>, origins: seq<seq<Item>>) {
    |cursors| == |origins| && forall s :: 0 <= s < |cursors| ==> CursorOk(cursors[s], origins[s])
  }

  /** The heap holds the head of every cursor that has one, `except` aside. */
  ghost predicate HeapOk(cursors: seq<Cursor>, heap: seq<Head>, except: int) {
    && (forall i :: 0 <= i < |heap| ==>
          && heap[i].stream < |cursors| && heap[i].stream != except
          && cursors[heap[i].stream].idx < |cursors[heap[i].stream].batch|
          && heap[i].row == cursors[heap[i].stream].batch[cursors[heap[i].stream].idx])
    && (forall i, j :: 0 <= i < j < |heap| ==> heap[i].stream != heap[j].stream)
    && (forall s :: 0 <= s < |cursors| && s != except && cursors[s].idx < |cursors[s].batch| ==> InHeap(heap, s))
  }

  ghost predicate InHeap(heap: seq<Head>, s: nat) {
    exists i :: 0 <= i < |heap| && heap[i].stream == s
  }

  /** A cursor between batches has ended. */
  ghost predicate Loaded(cursors: seq<Cursor>) {
    forall s :: 0 <= s < |cursors| && cursors[s].idx >= |cursors[s].batch| ==> cursors[s].exhausted
  }

  predicate HeadLe(a: Head, b: Head) {
    Le(a.row, b.row) && (Le(b.row, a.row) ==> a.stream <= b.stream)
  }

  lemma HeadOrder(a: Head, b: Head, c: Head)
    ensures HeadLe(a, a) && (HeadLe(a, b) || HeadLe(b, a))
    ensures HeadLe(a, b) && HeadLe(b, c) ==> HeadLe(a, c)
  {
  }

  predicate LeastAt(heap: seq<Head>, i: nat) {
    i < |heap| && forall j :: 0 <= j < |heap| ==> HeadLe(heap[i], heap[j])
  }

  lemma {:induction false} LeastHead(heap: seq<Head>)
    requires heap != []
    ensures exists i :: LeastAt(heap, i)
  {
    hide HeadLe;
    var n := |heap| - 1;
    HeadOrder(heap[n], heap[n], heap[n]);
    if n == 0 {
      assert LeastAt(heap, 0);
    } else {
      LeastHead(heap[..n]);
      var i: nat :| LeastAt(heap[..n], i);
      HeadOrder(heap[i], heap[n], heap[n]);
      if HeadLe(heap[i], heap[n]) {
        assert forall j :: 0 <= j < n ==> HeadLe(heap[i], heap[..n][j]);
        assert LeastAt(heap, i);
      } else {
        forall j | 0 <= j < n ensures HeadLe(heap[n], heap[j]) {
          assert HeadLe(heap[i], heap[..n][j]);
          HeadOrder(heap[n], heap[i], heap[j]);
        }
        assert LeastAt(heap, n);
      }
    }
  }

  class MergeState {
    var cursors: seq<Cursor>
    var heap: seq<Head>
    ghost var origins: seq<seq<Item>>

    ghost predicate Valid()
      reads this
    {
      CursorsOk(cursors, origins) && HeapOk(cursors, heap, -1) && Loaded(cursors)
    }

    constructor (streams: seq<seq<Item>>)
      ensures cursors == Fresh(streams) && heap == [] && origins == streams
    {
      cursors, heap, origins := Fresh(streams), [], streams;
    }

    /** The first batch of every stream. */
    method Init() returns (error: Option<MergeError>)
      requires cursors == Fresh(origins) && heap == []
      modifies this`cursors, this`heap
      ensures error.Some? ==> SomeBad(origins) && Blames(origins, error.value)
      ensures error.None? ==> Valid() && Emitted(origins, Fresh(origins), [], cursors)
    {
      hide CursorOk; hide Rem; hide HeapOk; hide Good; hide Sorted; hide Le; hide Emitted; hide SomeBad;
      hide Rems; hide AllGood; hide InBatches; hide Fresh;
      FreshOk(origins);
      for s := 0 to |cursors|
        invariant CursorsOk(cursors, origins) && HeapOk(cursors, heap, -1)
        invariant forall j :: 0 <= j < s && cursors[j].idx >= |cursors[j].batch| ==> cursors[j].exhausted
        invariant forall j :: s <= j < |cursors| ==> cursors[j] == Cursor(origins[j], [], 0, false, None)
        invariant Emitted(origins, Fresh(origins), [], cursors)
      {
        ghost var before := cursors;
        error := Refill(s);
        if error.Some? { return; }
        RefillEmits(origins, Fresh(origins), [], before, cursors, s);
      }
      error := None;
    }

    /** Every stream is read to its end and every row emitted. */
    ghost predicate Drained()
      reads this
    {
      forall s :: 0 <= s < |cursors| ==> cursors[s].stream == [] && cursors[s].idx == |cursors[s].batch|
    }

    /** Removes the least head. */
    method Pop() returns (h: Head, ghost at: nat)
      requires heap != []
      modifies this`heap
      ensures at < |old(heap)| && LeastAt(old(heap), at)
      ensures h == old(heap)[at] && heap == old(heap)[..at] + old(heap)[at + 1..]
    {
      LeastHead(heap);
      var i: nat :| LeastAt(heap, i);
      at := i;
      h := heap[i];
      heap := heap[..i] + heap[i + 1..];
    }

    /** Pulls the next non-empty batch of stream `s` through the guard and pushes its
        head; an ended stream leaves the cursor exhausted. */
    method Refill(s: nat) returns (error: Option<MergeError>)
      requires CursorsOk(cursors, origins) && s < |cursors| && cursors[s].idx == |cursors[s].batch|
      requires HeapOk(cursors, heap, -1)
      modifies this`cursors, this`heap
      ensures error.Some? ==> SomeBad(origins) && Blames(origins, error.value)
      ensures error.None? ==> CursorsOk(cursors, origins) && HeapOk(cursors, heap, -1) && Refilled(old(cursors), cursors, s)
      ensures error.None? ==> cursors[s].exhausted || cursors[s].idx < |cursors[s].batch|
      ensures error.None? ==> ReadOn(old(cursors)[s], cursors[s])
    {
      hide CursorOk; hide Rem; hide HeapOk; hide Good; hide Sorted; hide Le; hide Blames;
      while true
        invariant CursorsOk(cursors, origins) && Refilled(old(cursors), cursors, s)
        invariant |cursors[s].stream| <= |old(cursors)[s].stream|
        invariant cursors[s].idx == |cursors[s].batch| && HeapOk(cursors, heap, -1)
        decreases |cursors[s].stream|
      {
        var c := cursors[s];
        if c.stream == [] {
          EndOk(c, origins[s]);
          EmptyCursor(cursors, heap, s, c.(exhausted := true));
          cursors := cursors[s := c.(exhausted := true)];
          return None;
        }
        if c.stream[0].Failure? {
          FailureIsBad(c, origins[s]);
          FailureBlames(c, origins, s);
          return Some(ReadFailure(s));
        }
        var batch := c.stream[0].rows;
        if batch == [] {
          SkipOk(c, origins[s]);
          EmptyCursor(cursors, heap, s, c.(stream := c.stream[1..], exhausted := false));
          cursors := cursors[s := c.(stream := c.stream[1..], exhausted := false)];
        } else {
          var guarded := ConvertAndGuard(batch, s, c.last);
          if guarded.Err? {
            ViolationIsBad(c, origins[s], batch);
            ViolationBlames(c, origins, s, batch, guarded.error);
            return Some(guarded.error);
          }
          LoadOk(c, origins[s], batch);
          PushOk(cursors, heap, s, Cursor(c.stream[1..], batch, 0, false, Some(guarded.value)));
          cursors := cursors[s := Cursor(c.stream[1..], batch, 0, false, Some(guarded.value))];
          heap := heap + [Head(batch[0], s)];
          return None;
        }
      }
    }

    /** The interleave: every index names a batch a cursor still holds. */
    method Build(indices: seq<(nat, nat)>, ghost picked: seq<Row>) returns (batch: seq<Row>)
      requires Picked(cursors, indices, picked)
      ensures batch == picked
    {
      var batches := seq(|cursors|, s requires 0 <= s < |cursors| reads this => cursors[s].batch);
      batch := seq(|indices|, k requires 0 <= k < |indices| && indices[k].0 < |batches| && indices[k].1 < |batches[indices[k].0]|
                              => batches[indices[k].0][indices[k].1]);
    }

    /** The next merged batch, or nothing when every stream is drained. */
    method NextBatch() returns (r: Result<Option<seq<Row>>, MergeError>)
      requires Valid()
      modifies this`cursors, this`heap
      ensures r.Err? ==> SomeBad(origins) && Blames(origins, r.error)
      ensures r.Ok? ==> Valid() && (r.value.None? ==> Drained() && cursors == old(cursors))
      ensures r.Ok? && r.value.Some? ==>
                0 < |r.value.value| <= MERGE_BATCH_ROWS && Emitted(origins, old(cursors), r.value.value, cursors)
      ensures r.Ok? && r.value.Some? && |r.value.value| < 8192 ==> BatchDone(old(cursors), cursors) || Drained()
    {
      hide CursorOk; hide Rem; hide HeapOk; hide Good; hide Sorted; hide Le; hide Emitted; hide Picked; hide SomeBad; hide LeastAt;
      hide Rems; hide Least; hide AllGood; hide Left; hide InBatches; hide InHeap; hide Readable; hide RowsIn; hide HeadLe; hide SeenOk;
      hide Flatten; hide StableSort; hide Blames; hide BatchDone; hide SameBatches;
      var indices: seq<(nat, nat)> := [];
      ghost var picked: seq<Row> := [];
      NothingEmitted(origins, cursors);
      SameSelf(cursors);
      while true
        invariant Valid()
        invariant |indices| == |picked| < MERGE_BATCH_ROWS && (indices == [] ==> cursors == old(cursors))
        invariant Picked(cursors, indices, picked)
        invariant Emitted(origins, old(cursors), picked, cursors) && SameBatches(old(cursors), cursors)
        decreases Left(cursors)
      {
        if heap == [] {
          NoHeads(cursors, heap, origins);
          if indices == [] { return Ok(None); }
          var out := Build(indices, picked);
          return Ok(Some(out));
        }
        ghost var full := heap;
        var h, at := Pop();
        var s := h.stream;
        PopOk(cursors, full, at, origins);
        var c := cursors[s];
        StepEmits(origins, old(cursors), picked, cursors, s);
        PickedMore(cursors, indices, picked, s);
        indices, picked := indices + [(s, c.idx)], picked + [c.batch[c.idx]];
        Advance(cursors, heap, s, origins);
        ghost var before := cursors;
        OneFurther(old(cursors), cursors, s);
        cursors := cursors[s := c.(idx := c.idx + 1)];
        if cursors[s].idx >= |cursors[s].batch| {
          var out := Build(indices, picked);
          ghost var pending := cursors;
          var error := Refill(s);
          if error.Some? { return Err(error.value); }
          RanOut(old(cursors), before, s, cursors[s]);
          RefillEmits(origins, old(cursors), picked, pending, cursors, s);
          return Ok(Some(out));
        }
        heap := heap + [Head(c.batch[c.idx + 1], s)];
        if |indices| >= MERGE_BATCH_ROWS {
          var out := Build(indices, picked);
          return Ok(Some(out));
        }
      }
    }
  }

  /** The cursor took the next batch of its stream, or found its end. */
  predicate ReadOn(c: Cursor, c': Cursor) {
    c'.exhausted || |c'.stream| < |c.stream|
  }

  /** Cursors that only moved within their batches. */
  ghost predicate SameBatches(cursors: seq<Cursor>, cursors': seq<Cursor>) {
    && |cursors'| == |cursors|
    && forall s :: 0 <= s < |cursors| ==> cursors[s].idx <= cursors'[s].idx && cursors'[s] == cursors[s].(idx := cursors'[s].idx)
  }

  lemma SameSelf(cursors: seq<Cursor>)
    ensures SameBatches(cursors, cursors)
  {
  }

  lemma OneFurther(cursors: seq<Cursor>, cursors': seq<Cursor>, s: nat)
    requires SameBatches(cursors, cursors') && s < |cursors'|
    ensures SameBatches(cursors, cursors'[s := cursors'[s].(idx := cursors'[s].idx + 1)])
  {
  }

  lemma RanOut(cursors: seq<Cursor>, cursors': seq<Cursor>, s: nat, c: Cursor)
    requires SameBatches(cursors, cursors') && s < |cursors| && cursors'[s].idx < |cursors'[s].batch|
    requires ReadOn(cursors'[s].(idx := cursors'[s].idx + 1), c)
    ensures forall after: seq<Cursor> :: |after| == |cursors| && after[s] == c ==> BatchDone(cursors, after)
  {
  }

  /** Some cursor ran out of its batch and read on. */
  ghost predicate BatchDone(cursors: seq<Cursor>, cursors': seq<Cursor>) {
    exists s :: 0 <= s < |cursors| && s < |cursors'| && cursors[s].idx < |cursors[s].batch|
                && ReadOn(cursors[s], cursors'[s])
  }

  function Fresh(streams: seq<seq<Item>>): seq<Cursor> {
    seq(|streams|, s requires 0 <= s < |streams| => Cursor(streams[s], [], 0, false, None))
  }

  lemma FreshOk(streams: seq<seq<Item>>)
    ensures CursorsOk(Fresh(streams), streams) && HeapOk(Fresh(streams), [], -1)
    ensures Emitted(streams, Fresh(streams), [], Fresh(streams))
    ensures |Fresh(streams)| == |streams|
    ensures forall j :: 0 <= j < |streams| ==> Fresh(streams)[j] == Cursor(streams[j], [], 0, false, None)
  {
    hide Good; hide Emitted;
    forall s | 0 <= s < |streams| ensures CursorOk(Fresh(streams)[s], streams[s]) { FreshCursor(streams[s]); }
    NothingEmitted(streams, Fresh(streams));
  }

  lemma FreshCursor(items: seq<Item>)
    ensures CursorOk(Cursor(items, [], 0, false, None), items)
  {
    assert items[0..] == items && items[..0] == [];
  }

  ghost predicate SomeBad(origins: seq<seq<Item>>) {
    exists j :: 0 <= j < |origins| && !Good(origins[j])
  }

  /** Only cursor `s` moved on in its stream, and what it has left to emit is the same. */
  ghost predicate Refilled(cursors: seq<Cursor>, cursors': seq<Cursor>, s: nat) {
    && |cursors'| == |cursors| && s < |cursors|
    && cursors[s].idx <= |cursors[s].batch| && cursors'[s].idx <= |cursors'[s].batch|
    && Rem(cursors'[s]) == Rem(cursors[s])
    && forall j :: 0 <= j < |cursors| && j != s ==> cursors'[j] == cursors[j]
  }

  /** A cursor without a head has none in the heap either. */
  lemma EmptyCursor(cursors: seq<Cursor>, heap: seq<Head>, s: nat, c: Cursor)
    requires HeapOk(cursors, heap, -1) && s < |cursors| && cursors[s].idx == |cursors[s].batch| && c.idx == |c.batch|
    ensures HeapOk(cursors[s := c], heap, -1)
  {
    hide InHeap;
  }

  /** A stream that ends leaves its cursor with nothing to give. */
  lemma EndOk(c: Cursor, origin: seq<Item>)
    requires CursorOk(c, origin) && c.stream == []
    ensures CursorOk(c.(exhausted := true), origin) && Rem(c.(exhausted := true)) == Rem(c)
  {
  }

  lemma FailureIsBad(c: Cursor, origin: seq<Item>)
    requires CursorOk(c, origin) && c.stream != [] && c.stream[0].Failure?
    ensures !Good(origin)
  {
    assert origin[|origin| - |c.stream|] == c.stream[0];
  }

  /** A cursor without a head gets one. */
  lemma PushOk(cursors: seq<Cursor>, heap: seq<Head>, s: nat, c: Cursor)
    requires s < |cursors| && c.idx < |c.batch|
    requires HeapOk(cursors, heap, s) || (HeapOk(cursors, heap, -1) && cursors[s].idx >= |cursors[s].batch|)
    ensures HeapOk(cursors[s := c], heap + [Head(c.batch[c.idx], s)], -1)
  {
    var h := heap + [Head(c.batch[c.idx], s)];
    assert h[|heap|].stream == s;
    forall j | 0 <= j < |cursors| && cursors[s := c][j].idx < |cursors[s := c][j].batch| ensures InHeap(h, j) {
      if j != s {
        assert InHeap(heap, j);
        var i :| 0 <= i < |heap| && heap[i].stream == j;
        assert h[i].stream == j;
      }
    }
  }

  // ---------------------------------------------------------------- what a batch takes

  ghost predicate AllGood(origins: seq<seq<Item>>) {
    forall s :: 0 <= s < |origins| ==> Good(origins[s])
  }

  /** The indices pick these rows out of the batches the cursors hold. */
  ghost predicate Picked(cursors: seq<Cursor>, indices: seq<(nat, nat)>, picked: seq<Row>) {
    && |indices| == |picked|
    && forall k :: 0 <= k < |indices| ==>
         && indices[k].0 < |cursors| && indices[k].1 < |cursors[indices[k].0].batch|
         && cursors[indices[k].0].batch[indices[k].1] == picked[k]
  }

  ghost predicate InBatches(cursors: seq<Cursor>) {
    forall s :: 0 <= s < |cursors| ==> cursors[s].idx <= |cursors[s].batch|
  }

  /** The emitted rows are the first of the stable sort of what was left, and what is
      left now is the rest. */
  ghost predicate Emitted(origins: seq<seq<Item>>, cursors: seq<Cursor>, out: seq<Row>, cursors': seq<Cursor>) {
    && InBatches(cursors) && InBatches(cursors')
    && (AllGood(origins) ==> StableSort(Flatten(Rems(cursors))) == out + StableSort(Flatten(Rems(cursors'))))
    && Left(cursors) == |out| + Left(cursors')
  }

  ghost function Left(cursors: seq<Cursor>): nat {
    if InBatches(cursors) then |Flatten(Rems(cursors))| else 0
  }

  lemma AllInBatches(cursors: seq<Cursor>, origins: seq<seq<Item>>)
    requires CursorsOk(cursors, origins)
    ensures InBatches(cursors)
  {
    hide SeenOk;
  }

  lemma NothingEmitted(origins: seq<seq<Item>>, cursors: seq<Cursor>)
    requires CursorsOk(cursors, origins)
    ensures Emitted(origins, cursors, [], cursors) && Picked(cursors, [], [])
  {
    AllInBatches(cursors, origins);
    if InBatches(cursors) { assert [] + StableSort(Flatten(Rems(cursors))) == StableSort(Flatten(Rems(cursors))); }
  }

  lemma NoHeads(cursors: seq<Cursor>, heap: seq<Head>, origins: seq<seq<Item>>)
    requires CursorsOk(cursors, origins) && HeapOk(cursors, heap, -1) && Loaded(cursors) && heap == []
    ensures forall s :: 0 <= s < |cursors| ==> cursors[s].stream == [] && cursors[s].idx == |cursors[s].batch|
  {
    hide SeenOk; hide Readable;
    forall s | 0 <= s < |cursors| ensures cursors[s].stream == [] && cursors[s].idx == |cursors[s].batch| {
      assert CursorOk(cursors[s], origins[s]);
      assert !InHeap(heap, s);
    }
  }

  /** The least of the heap is the least head of all that is left. */
  lemma PopOk(cursors: seq<Cursor>, heap: seq<Head>, i: nat, origins: seq<seq<Item>>)
    requires CursorsOk(cursors, origins) && HeapOk(cursors, heap, -1) && Loaded(cursors) && LeastAt(heap, i)
    ensures HeapOk(cursors, heap[..i] + heap[i + 1..], heap[i].stream)
    ensures InBatches(cursors) && heap[i].stream < |cursors|
    ensures cursors[heap[i].stream].idx < |cursors[heap[i].stream].batch|
    ensures Least(Rems(cursors), heap[i].stream)
  {
    hide SeenOk; hide Readable; hide RowsIn;
    AllInBatches(cursors, origins);
    HeapWithout(cursors, heap, i);
    var s, rems := heap[i].stream, Rems(cursors);
    assert rems[s][0] == cursors[s].batch[cursors[s].idx];
    forall j | 0 <= j < |rems| && rems[j] != [] ensures if j < s then !Le(rems[j][0], rems[s][0]) else Le(rems[s][0], rems[j][0]) {
      assert CursorOk(cursors[j], origins[j]);
      if cursors[j].idx == |cursors[j].batch| { NothingLeft(cursors[j]); }
      assert InHeap(heap, j);
      var k :| 0 <= k < |heap| && heap[k].stream == j;
      assert HeadLe(heap[i], heap[k]);
      assert rems[j][0] == cursors[j].batch[cursors[j].idx];
    }
  }

  lemma NothingLeft(c: Cursor)
    requires c.idx == |c.batch| && c.stream == []
    ensures Rem(c) == []
  {
  }

  lemma HeapWithout(cursors: seq<Cursor>, heap: seq<Head>, i: nat)
    requires HeapOk(cursors, heap, -1) && i < |heap|
    ensures HeapOk(cursors, heap[..i] + heap[i + 1..], heap[i].stream)
  {
    hide InHeap;
    var h := heap[..i] + heap[i + 1..];
    forall s | 0 <= s < |cursors| && s != heap[i].stream && cursors[s].idx < |cursors[s].batch| ensures InHeap(h, s) {
      StillInHeap(heap, i, s);
    }
    assert forall k :: 0 <= k < |h| ==> h[k] == heap[if k < i then k else k + 1];
  }

  lemma StillInHeap(heap: seq<Head>, i: nat, s: nat)
    requires i < |heap| && heap[i].stream != s && InHeap(heap, s)
    ensures InHeap(heap[..i] + heap[i + 1..], s)
  {
    var k :| 0 <= k < |heap| && heap[k].stream == s;
    assert (heap[..i] + heap[i + 1..])[if k < i then k else k - 1].stream == s;
  }

  lemma RemsSorted(cursors: seq<Cursor>, origins: seq<seq<Item>>)
    requires CursorsOk(cursors, origins) && AllGood(origins) && InBatches(cursors)
    ensures forall s :: 0 <= s < |cursors| ==> Sorted(Rems(cursors)[s])
  {
    hide CursorOk; hide Rem; hide Sorted;
    forall s | 0 <= s < |cursors| ensures Sorted(Rems(cursors)[s]) {
      RemIsSuffix(cursors[s], origins[s]);
      assert Good(origins[s]);
      SortedSuffix(RowsIn(origins[s]), |RowsIn(origins[s])| - |Rem(cursors[s])|);
    }
  }

  lemma RemStep(c: Cursor)
    requires c.idx < |c.batch|
    ensures Rem(c) == [c.batch[c.idx]] + Rem(c.(idx := c.idx + 1))
  {
    assert c.batch[c.idx..] == [c.batch[c.idx]] + c.batch[c.idx + 1..];
  }

  lemma StepEmits(origins: seq<seq<Item>>, start: seq<Cursor>, picked: seq<Row>, cursors: seq<Cursor>, s: nat)
    requires CursorsOk(cursors, origins) && InBatches(cursors) && Least(Rems(cursors), s)
    requires s < |cursors| && cursors[s].idx < |cursors[s].batch|
    requires Emitted(origins, start, picked, cursors)
    ensures var c := cursors[s];
            && Emitted(origins, start, picked + [c.batch[c.idx]], cursors[s := c.(idx := c.idx + 1)])
            && Left(cursors[s := c.(idx := c.idx + 1)]) < Left(cursors)
  {
    hide Least; hide StableSort; hide Flatten;
    var c, rems := cursors[s], Rems(cursors);
    var cursors' := cursors[s := c.(idx := c.idx + 1)];
    RemStep(c);
    assert Rems(cursors') == rems[s := rems[s][1..]];
    FlattenShrinks(rems, s);
    if AllGood(origins) {
      RemsSorted(cursors, origins);
      PickLeast(rems, s);
      assert picked + [rems[s][0]] + StableSort(Flatten(Rems(cursors'))) == picked + ([rems[s][0]] + StableSort(Flatten(Rems(cursors'))));
    }
  }

  lemma FlattenShrinks<T>(rems: seq<seq<T>>, s: nat)
    requires s < |rems| && rems[s] != []
    ensures |Flatten(rems)| == 1 + |Flatten(rems[s := rems[s][1..]])|
  {
    FlattenSplit(rems, s);
  }

  lemma PickedMore(cursors: seq<Cursor>, indices: seq<(nat, nat)>, picked: seq<Row>, s: nat)
    requires Picked(cursors, indices, picked) && s < |cursors| && cursors[s].idx < |cursors[s].batch|
    ensures var c := cursors[s];
            Picked(cursors[s := c.(idx := c.idx + 1)], indices + [(s, c.idx)], picked + [c.batch[c.idx]])
  {
  }

  lemma MovedOk(c: Cursor, origin: seq<Item>)
    requires CursorOk(c, origin) && c.idx < |c.batch|
    ensures CursorOk(c.(idx := c.idx + 1), origin)
  {
  }

  /** The popped cursor moves one row on; it gets a new head unless its batch is done. */
  lemma Advance(cursors: seq<Cursor>, heap: seq<Head>, s: nat, origins: seq<seq<Item>>)
    requires CursorsOk(cursors, origins) && HeapOk(cursors, heap, s) && s < |cursors| && cursors[s].idx < |cursors[s].batch|
    ensures var c := cursors[s]; var c' := c.(idx := c.idx + 1);
            && CursorsOk(cursors[s := c'], origins)
            && if c'.idx < |c'.batch| then HeapOk(cursors[s := c'], heap + [Head(c.batch[c'.idx], s)], -1)
               else HeapOk(cursors[s := c'], heap, -1)
  {
    hide CursorOk; hide InHeap;
    var c := cursors[s];
    MovedOk(c, origins[s]);
    if c.idx + 1 < |c.batch| { PushOk(cursors, heap, s, c.(idx := c.idx + 1)); }
  }

  lemma RefillEmits(origins: seq<seq<Item>>, start: seq<Cursor>, picked: seq<Row>, cursors: seq<Cursor>, cursors': seq<Cursor>, s: nat)
    requires Emitted(origins, start, picked, cursors) && Refilled(cursors, cursors', s)
    ensures Emitted(origins, start, picked, cursors')
  {
    assert InBatches(cursors');
    assert Rems(cursors') == Rems(cursors);
  }

  // ---------------------------------------------------------------- the whole merge

  function AllRows(streams: seq<seq<Item>>): seq<seq<Row>> {
    seq(|streams|, s requires 0 <= s < |streams| => RowsIn(streams[s]))
  }

  /** Merges sorted streams batch by batch. It completes exactly when every stream can
      be read and is in order across its batches, and then the batches end to end are
      the stable sort of the streams end to end; no batch is empty or oversized. */
  method MergeStreams(streams: seq<seq<Item>>) returns (out: seq<seq<Row>>, error: Option<MergeError>)
    ensures error.None? <==> forall s :: 0 <= s < |streams| ==> Good(streams[s])
    ensures error.Some? ==> Blames(streams, error.value)
    ensures error.None? ==> Flatten(out) == StableSort(Flatten(AllRows(streams)))
    ensures forall i :: 0 <= i < |out| ==> 0 < |out[i]| <= 8192
  {
    hide CursorOk; hide Rem; hide HeapOk; hide Good; hide Sorted; hide Le; hide Emitted; hide Rems; hide InBatches; hide Fresh;
    hide Left; hide StableSort; hide Loaded; hide AllRows;
    out := [];
    var m := new MergeState(streams);
    error := m.Init();
    if error.Some? { return; }
    while true
      invariant m.Valid() && m.origins == streams && fresh(m)
      invariant Emitted(streams, Fresh(streams), Flatten(out), m.cursors)
      invariant forall i :: 0 <= i < |out| ==> 0 < |out[i]| <= MERGE_BATCH_ROWS
      decreases Left(m.cursors)
    {
      ghost var before := m.cursors;
      var r := m.NextBatch();
      if r.Err? { return out, Some(r.error); }
      if r.value.None? {
        AllRead(m.cursors, streams);
        WholeEmitted(streams, m.cursors, Flatten(out));
        return out, None;
      }
      EmittedMore(streams, Fresh(streams), Flatten(out), before, r.value.value, m.cursors);
      FlattenPush(out, r.value.value);
      out := out + [r.value.value];
    }
  }

  lemma EmittedMore(origins: seq<seq<Item>>, a: seq<Cursor>, x: seq<Row>, b: seq<Cursor>, y: seq<Row>, c: seq<Cursor>)
    requires Emitted(origins, a, x, b) && Emitted(origins, b, y, c)
    ensures Emitted(origins, a, x + y, c)
    ensures y != [] ==> Left(c) < Left(b)
  {
    hide AllGood;
    assert InBatches(a) && InBatches(b) && InBatches(c);
    assert x + (y + StableSort(Flatten(Rems(c)))) == x + y + StableSort(Flatten(Rems(c)));
  }

  lemma AllRead(cursors: seq<Cursor>, origins: seq<seq<Item>>)
    requires CursorsOk(cursors, origins)
    requires forall s :: 0 <= s < |cursors| ==> cursors[s].stream == [] && cursors[s].idx == |cursors[s].batch|
    ensures AllGood(origins)
  {
    hide CursorOk; hide Good;
    forall s | 0 <= s < |origins| ensures Good(origins[s]) { ExhaustedIsGood(cursors[s], origins[s]); }
  }

  lemma {:induction false} FlattenEmpty<T>(ss: seq<seq<T>>)
    requires forall i :: 0 <= i < |ss| ==> ss[i] == []
    ensures Flatten(ss) == []
  {
    if ss != [] { FlattenEmpty(ss[1..]); }
  }

  lemma WholeEmitted(origins: seq<seq<Item>>, cursors: seq<Cursor>, out: seq<Row>)
    requires AllGood(origins) && Emitted(origins, Fresh(origins), out, cursors)
    requires forall s :: 0 <= s < |cursors| ==> cursors[s].stream == [] && cursors[s].idx == |cursors[s].batch|
    ensures out == StableSort(Flatten(AllRows(origins)))
  {
    hide AllGood;
    forall s | 0 <= s < |cursors| ensures Rem(cursors[s]) == [] { NothingLeft(cursors[s]); }
    FreshRems(origins);
    hide Rem;
    FlattenEmpty(Rems(cursors));
    assert out + [] == out;
  }

  lemma FreshRems(origins: seq<seq<Item>>)
    ensures InBatches(Fresh(origins)) && Rems(Fresh(origins)) == AllRows(origins)
  {
    assert forall s :: 0 <= s < |origins| ==> [] + RowsIn(origins[s]) == RowsIn(origins[s]);
  }
}
