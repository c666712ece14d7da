/** One materialized-view attempt and one ingest buffer, as the programs they are. How
    attempts interleave, and what a lost answer does, is the machine's part. */
module Workers {
  import opened Base
  import opened Tables
  import opened Machine
  import opened Wellformed
  import opened Meaning
  import opened Catalog

  // ---------------------------------------------------------------- a view attempt

  datatype MvError = SourceRead | Transform | Catalogue(error: CommitError)

  /** A transform's result: parts to publish, or an error that is or is not the data's. */
  datatype Output = Parts(metas: seq<PartMeta>) | Failure(dataError: bool)

  /** What a published event adds: the transform's parts, none for a skipped failure. */
  function Yield(output: Output): seq<PartMeta> {
    if output.Parts? then output.metas else []
  }

  /** A commit carries the identity's key with its fingerprint. */
  ghost predicate Published(db: Db, id: Identity) {
    exists c :: Carries(db, c, id.ht, id.key) && id.fp.Some? && db.commits[c].fp == id.fp
  }

  /** A commit carries the key with another fingerprint, or with none. */
  ghost predicate Collides(db: Db, id: Identity) {
    exists c :: Carries(db, c, id.ht, id.key) && (db.commits[c].fp.None? || db.commits[c].fp != id.fp)
  }

  ghost predicate Free(db: Db, id: Identity) {
    forall c :: !Carries(db, c, id.ht, id.key)
  }

  lemma ReconcileSays(db: Db, id: Identity)
    requires Indexed(db)
    ensures Reconcile(db, id) == Ok(None) <==> Free(db, id)
    ensures Reconcile(db, id).Ok? && Reconcile(db, id).value.Some? <==> Published(db, id)
    ensures Reconcile(db, id).Err? <==> Collides(db, id)
    ensures Reconcile(db, id).Err? ==> Reconcile(db, id).error == KeyCollision
    ensures !(Published(db, id) && Collides(db, id)) && !(Free(db, id) && (Published(db, id) || Collides(db, id)))
  {
    hide Reconcile; hide Indexed;
    ReconcileMeans(db, id);
    if Published(db, id) {
      var c :| Carries(db, c, id.ht, id.key) && id.fp.Some? && db.commits[c].fp == id.fp;
      assert Reconcile(db, id) == Ok(Some(c));
    }
    if Reconcile(db, id).Ok? && Reconcile(db, id).value.Some? {
      var c := Reconcile(db, id).value.value;
      assert Reconcile(db, id) == Ok(Some(c));
      assert Carries(db, c, id.ht, id.key);
    }
  }

  class View {
    const catalog: Store
    const pipeline: Pid
    const source: Ht
    const target: Ht
    const skipsBadData: bool

    constructor (catalog: Store, pipeline: Pid, source: Ht, target: Ht, skipsBadData: bool)
      ensures this.catalog == catalog && this.pipeline == pipeline && this.source == source && this.target == target
      ensures this.skipsBadData == skipsBadData
    {
      this.catalog, this.pipeline, this.source, this.target, this.skipsBadData := catalog, pipeline, source, target, skipsBadData;
    }

    function Key(): (Worker, Ht) {
      (MvWorker(pipeline), source)
    }

    function IdentityOf(event: CommitId): Identity {
      EventIdentity(pipeline, Pipeline(source, target), event)
    }

    /** The cursor is at the event, which is published or needs no publication; nothing
        else about the cursors changed. */
    ghost predicate Advanced(before: Db, event: CommitId, kind: Kind)
      reads catalog
    {
      && catalog.cursors == SetCursor(before.cursors, MvWorker(pipeline), source, event)
      && (kind == KAdd && !(Key() in before.cursors && before.cursors[Key()] >= event) ==> Published(catalog.Snapshot(), IdentityOf(event)))
    }

    predicate AtCursor(cursors: map<(Worker, Ht), CommitId>, event: CommitId) {
      Key() in cursors && cursors[Key()] >= event
    }

    /** Did this event's work already land? A proof by operation moves the cursor. */
    method Completed(event: CommitId) returns (r: Result<bool, CommitError>)
      requires catalog.Consistent()
      modifies catalog`cursors
      ensures catalog.Consistent()
      ensures r == Ok(true) ==> Advanced(old(catalog.Snapshot()), event, KAdd)
      ensures r != Ok(true) ==> catalog.cursors == old(catalog.cursors)
      ensures r == Ok(true) <==> AtCursor(old(catalog.cursors), event) || Published(old(catalog.Snapshot()), IdentityOf(event))
      ensures r == Ok(false) <==> !AtCursor(old(catalog.cursors), event) && Free(old(catalog.Snapshot()), IdentityOf(event))
      ensures r.Err? ==> r.error == KeyCollision
    {
      hide Reconcile; hide Published; hide Collides; hide Free; hide Indexed;
      ReconcileSays(catalog.Snapshot(), IdentityOf(event));
      if Key() in catalog.cursors && catalog.cursors[Key()] >= event { return Ok(true); }
      var prior := Reconcile(catalog.Snapshot(), IdentityOf(event));
      if prior.Err? { return Err(prior.error); }
      if prior.value.None? { return Ok(false); }
      ghost var before := catalog.Snapshot();
      catalog.StoreCursor(MvWorker(pipeline), source, event);
      CursorsAside(before, catalog.Snapshot(), IdentityOf(event));
      return Ok(true);
    }

    /** One attempt at one event. A REPLACE or DELETE only moves the cursor. An ADD succeeds
        exactly when it is already done, or its key is free and the source can be read and
        the transform gives parts or an error the policy skips; it then adds the event's
        own commit with exactly those parts. Each failure has its own error and changes no
        table. */
    method ProcessEvent(event: CommitId, kind: Kind, now: nat, readable: bool, output: Output) returns (r: Result<(), MvError>)
      requires catalog.Consistent()
      modifies catalog
      ensures catalog.Consistent()
      ensures r.Ok? ==> Advanced(old(catalog.Snapshot()), event, kind)
      ensures r.Err? ==> catalog.Snapshot() == old(catalog.Snapshot())
      ensures var before, id := old(catalog.Snapshot()), IdentityOf(event);
              var todo := kind == KAdd && !AtCursor(before.cursors, event) && !Published(before, id);
              var skipped := output.Failure? && output.dataError && skipsBadData;
              && (r.Ok? <==> (todo ==> Free(before, id) && readable && (output.Parts? || skipped)))
              && (r == Err(Catalogue(KeyCollision)) <==> todo && Collides(before, id))
              && (r == Err(SourceRead) <==> todo && Free(before, id) && !readable)
              && (r == Err(Transform) <==> todo && Free(before, id) && readable && output.Failure? && !skipped)
              && (if todo && r.Ok?
                  then
                    && catalog.commits == before.commits[old(catalog.commitSeq) := CommitRow(target, KAdd, Some(id.key), id.fp, now)]
                    && catalog.parts == before.parts + NewParts(before.nextPart, old(catalog.commitSeq), target, Yield(output))
                  else catalog.commits == before.commits && catalog.parts == before.parts)
      ensures output.Failure? ==> catalog.parts == old(catalog.parts)
    {
      hide Reconcile; hide CommitWhole; hide Published; hide Collides; hide Free; hide Indexed; hide NewIds;
      ReconcileSays(catalog.Snapshot(), IdentityOf(event));
      ghost var before := catalog.Snapshot();
      if kind != KAdd {
        catalog.StoreCursor(MvWorker(pipeline), source, event);
        CursorsAside(before, catalog.Snapshot(), IdentityOf(event));
        return Ok(());
      }
      var done := Completed(event);
      if done.Err? { return Err(Catalogue(done.error)); }
      if done.value { return Ok(()); }
      if !readable { return Err(SourceRead); }
      if output.Failure? && !(skipsBadData && output.dataError) { return Err(Transform); }
      r := Publish(event, now, Yield(output));
      if output.Failure? { NoPartsAdded(old(catalog.nextPart), old(catalog.commitSeq), target); }
    }

    /** Commits the ADD under the event's identity, then moves the cursor: with the key
        free nothing can refuse it. */
    method Publish(event: CommitId, now: nat, items: seq<PartMeta>) returns (r: Result<(), MvError>)
      requires catalog.Consistent() && Free(catalog.Snapshot(), IdentityOf(event))
      modifies catalog
      ensures catalog.Consistent() && r == Ok(())
      ensures Advanced(old(catalog.Snapshot()), event, KAdd)
              && catalog.commits == old(catalog.commits)[old(catalog.commitSeq) :=
                   CommitRow(target, KAdd, Some(IdentityOf(event).key), IdentityOf(event).fp, now)]
      ensures catalog.parts == old(catalog.parts) + NewParts(old(catalog.nextPart), old(catalog.commitSeq), target, items)
    {
      hide Reconcile; hide Body; hide Landing; hide Free; hide Published; hide Collides; hide Indexed; hide NewIds;
      ghost var before := catalog.Snapshot();
      ReconcileSays(before, IdentityOf(event));
      ghost var c := catalog.commitSeq;
      var outcome := catalog.CommitTxn(now, target, Add(items), Some(IdentityOf(event)), [], None);
      NothingRefuses(before, c, now, target, items, IdentityOf(event), outcome);
      PublishOutcome(before, c, now, target, items, IdentityOf(event));
      assert outcome.Committed?;
      ghost var landed := catalog.Snapshot();
      catalog.StoreCursor(MvWorker(pipeline), source, event);
      NowPublished(before, landed, c, now, target, IdentityOf(event));
      CursorsAside(landed, catalog.Snapshot(), IdentityOf(event));
      return Ok(());
    }
  }

  /** Cursors have no part in what is published. */
  lemma CursorsAside(db: Db, db': Db, id: Identity)
    requires db' == db.(cursors := db'.cursors)
    ensures Published(db', id) <==> Published(db, id)
    ensures Indexed(db') <==> Indexed(db)
    ensures forall c :: NewIds(db', c) <==> NewIds(db, c)
  {
    assert forall c :: Carries(db', c, id.ht, id.key) <==> Carries(db, c, id.ht, id.key);
  }

  lemma NothingRefuses(db: Db, c: CommitId, now: nat, ht: Ht, items: seq<PartMeta>, id: Identity, o: Outcome)
    requires id.ht == ht && Free(db, id) && Answers(db, c, now, ht, Add(items), Some(id), [], None, o)
    ensures o == Committed(c)
  {
    hide Carries; hide Fits;
    NothingLive(db.parts, ht);
  }

  lemma PublishOutcome(db: Db, c: CommitId, now: nat, ht: Ht, items: seq<PartMeta>, id: Identity)
    requires id.ht == ht && Reconcile(db, id) == Ok(None)
    ensures var (o, db') := Body(db, c, ht, Add(items), Some(id), [], now);
            if o.Failed? then db' == db
            else o == Committed(c) && db'.cursors == db.cursors
                 && db'.commits == db.commits[c := CommitRow(ht, KAdd, Some(id.key), id.fp, now)]
                 && db'.keyIndex == db.keyIndex[(ht, id.key) := c]
                 && db'.parts == db.parts + NewParts(db.nextPart, c, ht, items)
  {
    AddsOnly(db, c, ht, items);
    hide NewParts; hide ApplyOp; hide AdvanceOffsets; hide InsertCommit; hide PartsAfter; hide AllLive; hide Paths;
    if Body(db, c, ht, Add(items), Some(id), [], now).0.Committed? {
      BodyCommits(db, c, ht, Add(items), Some(id), [], now);
    } else {
      BodyDeclines(db, c, ht, Add(items), Some(id), [], now);
    }
  }

  lemma NoPartsAdded(next: PartId, c: CommitId, ht: Ht)
    ensures NewParts(next, c, ht, []) == map[]
  {}

  lemma AddsOnly(db: Db, c: CommitId, ht: Ht, items: seq<PartMeta>)
    ensures PartsAfter(db, c, ht, Add(items)) == db.parts + NewParts(db.nextPart, c, ht, items)
  {
    NoTombstone(db.parts, c);
  }

  /** After the commit the identity is published. */
  lemma NowPublished(db: Db, db': Db, c: CommitId, now: nat, ht: Ht, id: Identity)
    requires id.ht == ht && id.fp.Some?
    requires db'.commits == db.commits[c := CommitRow(ht, KAdd, Some(id.key), id.fp, now)]
    ensures Published(db', id)
  {
    assert Carries(db', c, id.ht, id.key);
  }

  // ---------------------------------------------------------------- the ingest buffer

  type Day = nat

  datatype IngestConfig = IngestConfig(maxBufferRows: nat, l0StopParts: nat, l0SlowdownParts: nat)

  datatype FlushDecision = Flush | Defer

  function Decide(maxLiveL0: nat, deferred: nat, totalRows: nat, cfg: IngestConfig): FlushDecision {
    if totalRows >= 2 * cfg.maxBufferRows then Flush
    else if maxLiveL0 >= cfg.l0StopParts then Defer
    else if maxLiveL0 >= cfg.l0SlowdownParts && deferred == 0 then Defer
    else Flush
  }

  /** What a buffer holds, as backpressure sees it: whether anything was read, the rows
      kept, and the flushes deferred since the last one. */
  datatype Load = Load(read: bool, rows: nat, deferred: nat)

  const Empty := Load(false, 0, 0)

  /** One turn of the worker's loop; `maxLiveL0` is what a probe of the catalog answers. */
  datatype Event =
    | Message(tp: Tp, offset: nat, row: Option<(Day, nat)>, maxLiveL0: nat)
    | Timer(maxLiveL0: nat)
    | Shutdown

  /** A flush, if anything was read; forced, or with no rows to hold back, it goes through. */
  function Attempt(l: Load, force: bool, maxLiveL0: nat, cfg: IngestConfig): (Load, Option<FlushDecision>) {
    if !l.read then (l, None)
    else if !force && l.rows > 0 && Decide(maxLiveL0, l.deferred, l.rows, cfg) == Defer
    then (l.(deferred := l.deferred + 1), Some(Defer))
    else (Empty, Some(FlushDecision.Flush))
  }

  /** A message is buffered and flushes at the buffer cap; the timer always tries. */
  function Handle(l: Load, e: Event, cfg: IngestConfig): (Load, Option<FlushDecision>) {
    match e
    case Message(_, _, row, live) =>
      var more := Load(true, l.rows + (if row.Some? then 1 else 0), l.deferred);
      if more.rows >= cfg.maxBufferRows then Attempt(more, false, live, cfg) else (more, None)
    case Timer(live) => Attempt(l, false, live, cfg)
    case Shutdown => Attempt(l, true, 0, cfg)
  }

  function After(events: seq<Event>, cfg: IngestConfig): Load {
    if events == [] then Empty else Handle(After(events[..|events| - 1], cfg), events[|events| - 1], cfg).0
  }

  /** What turn `i` decided, if it tried to flush. */
  function Decision(events: seq<Event>, i: nat, cfg: IngestConfig): Option<FlushDecision>
    requires i < |events|
  {
    Handle(After(events[..i], cfg), events[i], cfg).1
  }

  /** However long compaction is behind, a worker never holds twice the buffer cap. */
  lemma {:induction false} BufferIsBounded(events: seq<Event>, cfg: IngestConfig)
    ensures After(events, cfg).rows == 0 || After(events, cfg).rows < 2 * cfg.maxBufferRows
  {
    if events != [] { BufferIsBounded(events[..|events| - 1], cfg); }
  }

  lemma {:induction false} DeferredStays(events: seq<Event>, i: nat, j: nat, cfg: IngestConfig)
    requires i < j <= |events| && Decision(events, i, cfg) == Some(Defer)
    requires forall k :: i < k < j ==> Decision(events, k, cfg) == None
    ensures After(events[..j], cfg).deferred > 0
    decreases j
  {
    assert events[..j][..j - 1] == events[..j - 1] && events[..j][j - 1] == events[j - 1];
    assert After(events[..j], cfg) == Handle(After(events[..j - 1], cfg), events[j - 1], cfg).0;
    if i < j - 1 {
      DeferredStays(events, i, j - 1, cfg);
      assert Decision(events, j - 1, cfg) == None;
    }
  }

  /** Over any turns of the loop: two attempts running are deferred only at the stop line,
      and none below both lines. */
  lemma BackpressureIsBounded(events: seq<Event>, j: nat, cfg: IngestConfig)
    requires j < |events| && Decision(events, j, cfg) == Some(Defer)
    ensures !events[j].Shutdown? && events[j].maxLiveL0 >= (if cfg.l0StopParts <= cfg.l0SlowdownParts then cfg.l0StopParts else cfg.l0SlowdownParts)
    ensures forall i :: 0 <= i < j && Decision(events, i, cfg) == Some(Defer) && (forall k :: i < k < j ==> Decision(events, k, cfg) == None) ==>
              events[j].maxLiveL0 >= cfg.l0StopParts
  {
    forall i | 0 <= i < j && Decision(events, i, cfg) == Some(Defer) && (forall k :: i < k < j ==> Decision(events, k, cfg) == None)
      ensures events[j].maxLiveL0 >= cfg.l0StopParts
    {
      DeferredStays(events, i, j, cfg);
    }
  }

  /** The rows that some turns of the loop kept. */
  function RowsIn(events: seq<Event>): nat {
    if events == [] then 0
    else RowsIn(events[..|events| - 1]) + (if events[|events| - 1].Message? && events[|events| - 1].row.Some? then 1 else 0)
  }

  predicate AnyMessage(events: seq<Event>) {
    exists i :: 0 <= i < |events| && events[i].Message?
  }

  /** A stretch of turns that begins behind a flush, or at the start, and has none. */
  predicate Unflushed(events: seq<Event>, lo: nat, hi: nat, cfg: IngestConfig) {
    && lo <= hi <= |events|
    && (lo > 0 ==> Decision(events, lo - 1, cfg) == Some(FlushDecision.Flush))
    && forall k :: lo <= k < hi ==> Decision(events, k, cfg) != Some(FlushDecision.Flush)
  }

  predicate AnyDeferred(events: seq<Event>, lo: nat, hi: nat, cfg: IngestConfig)
    requires hi <= |events|
  {
    exists k :: lo <= k < hi && Decision(events, k, cfg) == Some(Defer)
  }

  lemma AfterStep(events: seq<Event>, n: nat, cfg: IngestConfig)
    requires 0 < n <= |events|
    ensures After(events[..n], cfg) == Handle(After(events[..n - 1], cfg), events[n - 1], cfg).0
  {
    assert events[..n][..n - 1] == events[..n - 1] && events[..n][n - 1] == events[n - 1];
  }

  lemma StretchGrows(events: seq<Event>, lo: nat, n: nat, cfg: IngestConfig)
    requires lo <= n < |events|
    ensures RowsIn(events[lo..n + 1]) == RowsIn(events[lo..n]) + (if events[n].Message? && events[n].row.Some? then 1 else 0)
    ensures AnyMessage(events[lo..n + 1]) <==> AnyMessage(events[lo..n]) || events[n].Message?
    ensures AnyDeferred(events, lo, n + 1, cfg) <==> AnyDeferred(events, lo, n, cfg) || Decision(events, n, cfg) == Some(Defer)
  {
    hide Decision;
    var front := events[lo..n];
    assert events[lo..n + 1] == front + [events[n]];
    assert (front + [events[n]])[..|front|] == front;
    if AnyMessage(events[lo..n]) {
      var i :| 0 <= i < |events[lo..n]| && events[lo..n][i].Message?;
      assert events[lo..n + 1][i].Message?;
    }
  }

  /** What is held at a turn is what came in since the last flush. */
  lemma {:induction false} HeldSinceFlush(events: seq<Event>, lo: nat, hi: nat, cfg: IngestConfig)
    requires Unflushed(events, lo, hi, cfg)
    ensures var l := After(events[..hi], cfg);
            && l.rows == RowsIn(events[lo..hi]) && (l.read <==> AnyMessage(events[lo..hi]))
            && (l.deferred > 0 <==> AnyDeferred(events, lo, hi, cfg))
    decreases hi
  {
    hide After;
    if lo == hi {
      assert events[lo..hi] == [];
      if lo > 0 { AfterStep(events, lo, cfg); } else { NothingYet(events, cfg); }
    } else {
      hide RowsIn; hide AnyMessage; hide AnyDeferred;
      HeldSinceFlush(events, lo, hi - 1, cfg);
      AfterStep(events, hi, cfg);
      StretchGrows(events, lo, hi - 1, cfg);
      assert Decision(events, hi - 1, cfg) != Some(FlushDecision.Flush);
    }
  }

  lemma NothingYet(events: seq<Event>, cfg: IngestConfig)
    ensures After(events[..0], cfg) == Empty
  {
  }

  /** Each turn's decision, from the turns since the last flush: a turn tries when a
      message brings the rows to the cap, at the timer, and at shutdown, if anything was
      read. An unforced try with rows held is deferred if and only if they are fewer than
      twice the cap, and the live level-0 parts are at the stop line, or at the slowdown
      line with nothing deferred yet; every other try flushes. */
  lemma DecisionMeans(events: seq<Event>, lo: nat, j: nat, cfg: IngestConfig)
    requires j < |events| && Unflushed(events, lo, j, cfg)
    ensures var rows := RowsIn(events[lo..j + 1]);
            var tries := AnyMessage(events[lo..j + 1]) && (events[j].Message? ==> rows >= cfg.maxBufferRows);
            var holds := !events[j].Shutdown? && 0 < rows < 2 * cfg.maxBufferRows
                         && (events[j].maxLiveL0 >= cfg.l0StopParts
                             || (events[j].maxLiveL0 >= cfg.l0SlowdownParts && !AnyDeferred(events, lo, j, cfg)));
            && (Decision(events, j, cfg) == Some(Defer) <==> tries && holds)
            && (Decision(events, j, cfg) == Some(FlushDecision.Flush) <==> tries && !holds)
  {
    hide After; hide RowsIn; hide AnyMessage; hide AnyDeferred;
    HeldSinceFlush(events, lo, j, cfg);
    StretchGrows(events, lo, j, cfg);
  }

  class Buffers {
    var rowsByDay: map<Day, seq<nat>>
    var ranges: map<Tp, Span>
    var totalRows: nat
    var deferredFlushes: nat

    /** No rows are held exactly when none are counted, and rows come with a range. */
    predicate Valid()
      reads this
    {
      (rowsByDay == map[] <==> totalRows == 0) && (ranges == map[] ==> totalRows == 0 && deferredFlushes == 0)
    }

    function Holding(): Load
      reads this
    {
      Load(ranges != map[], totalRows, deferredFlushes)
    }

    constructor ()
      ensures rowsByDay == map[] && ranges == map[] && Valid() && Holding() == Empty
    {
      rowsByDay, ranges, totalRows, deferredFlushes := map[], map[], 0, 0;
    }

    /** The offset counts as read whether or not the row is kept. */
    method BufferMessage(tp: Tp, offset: nat, row: Option<(Day, nat)>)
      requires Valid()
      modifies this
      ensures Valid()
      ensures ranges == old(ranges)[tp := Span(if tp in old(ranges) then old(ranges)[tp].first else offset, offset)]
      ensures deferredFlushes == old(deferredFlushes)
      ensures match row
              case None => rowsByDay == old(rowsByDay) && totalRows == old(totalRows)
              case Some((d, x)) =>
                && totalRows == old(totalRows) + 1
                && rowsByDay == old(rowsByDay)[d := (if d in old(rowsByDay) then old(rowsByDay)[d] else []) + [x]]
    {
      var range := if tp in ranges then ranges[tp] else Span(offset, offset);
      ranges := ranges[tp := range.(last := offset)];
      if row.None? { return; }
      var (day, x) := row.value;
      rowsByDay := rowsByDay[day := (if day in rowsByDay then rowsByDay[day] else []) + [x]];
      totalRows := totalRows + 1;
      assert day in rowsByDay && tp in ranges;
    }

    /** A flush hands over all rows, day by day, and all ranges, in one commit; a deferred
        one, or one with nothing read, hands over and forgets nothing. */
    method Flush(force: bool, maxLiveL0: nat, cfg: IngestConfig) returns (r: Option<(map<Day, seq<nat>>, seq<OffsetRange>)>)
      requires Valid()
      modifies this
      ensures Valid() && Holding() == Attempt(old(Holding()), force, maxLiveL0, cfg).0
      ensures r.Some? <==> old(ranges) != map[]
                           && !(!force && 0 < old(totalRows) < 2 * cfg.maxBufferRows
                                && (maxLiveL0 >= cfg.l0StopParts || (maxLiveL0 >= cfg.l0SlowdownParts && old(deferredFlushes) == 0)))
      ensures r.Some? <==> Attempt(old(Holding()), force, maxLiveL0, cfg).1 == Some(FlushDecision.Flush)
      ensures r.None? ==> ranges == old(ranges) && rowsByDay == old(rowsByDay) && totalRows == old(totalRows)
      ensures r.None? && old(ranges) != map[] ==> deferredFlushes == old(deferredFlushes) + 1
      ensures r.Some? ==> r.value.0 == old(rowsByDay) && Drains(old(ranges), r.value.1)
      ensures r.Some? ==> ranges == map[] && rowsByDay == map[] && totalRows == 0 && deferredFlushes == 0
    {
      if ranges == map[] { return None; }
      if !force && rowsByDay != map[] && Decide(maxLiveL0, deferredFlushes, totalRows, cfg) == Defer {
        deferredFlushes := deferredFlushes + 1;
        return None;
      }
      deferredFlushes := 0;
      var items := rowsByDay;
      rowsByDay := map[];
      var offsets := DrainRanges();
      totalRows := 0;
      return Some((items, offsets));
    }

    /** The loop, turn by turn: which turns handed rows over is what the decisions say. */
    method Consume(events: seq<Event>, cfg: IngestConfig) returns (flushed: seq<bool>)
      requires Valid() && Holding() == Empty
      modifies this
      ensures Valid() && Holding() == After(events, cfg)
      ensures |flushed| == |events|
      ensures forall i :: 0 <= i < |events| ==> (flushed[i] <==> Decision(events, i, cfg) == Some(FlushDecision.Flush))
    {
      flushed := [];
      for n := 0 to |events|
        invariant Valid() && Holding() == After(events[..n], cfg) && |flushed| == n
        invariant forall i :: 0 <= i < n ==> (flushed[i] <==> Decision(events, i, cfg) == Some(FlushDecision.Flush))
      {
        assert events[..n + 1][..n] == events[..n];
        var handed: Option<(map<Day, seq<nat>>, seq<OffsetRange>)> := None;
        match events[n] {
          case Message(tp, offset, row, live) =>
            BufferMessage(tp, offset, row);
            if totalRows >= cfg.maxBufferRows { handed := Flush(false, live, cfg); }
          case Timer(live) => handed := Flush(false, live, cfg);
          case Shutdown => handed := Flush(true, 0, cfg);
        }
        flushed := flushed + [handed.Some?];
      }
      assert events[..|events|] == events;
    }

    method DrainRanges() returns (offsets: seq<OffsetRange>)
      modifies this`ranges
      ensures Drains(old(ranges), offsets) && ranges == map[]
    {
      ghost var all := ranges;
      offsets := [];
      while ranges != map[]
        invariant forall tp :: tp in ranges ==> tp in all && ranges[tp] == all[tp]
        invariant forall o :: o in offsets ==> o.tp in all && o.tp !in ranges && all[o.tp] == Span(o.first, o.last)
        invariant forall tp :: tp in all ==> tp in ranges || OffsetRange(tp, all[tp].first, all[tp].last) in offsets
        invariant forall i, j :: 0 <= i < j < |offsets| ==> offsets[i].tp != offsets[j].tp
        decreases |ranges|
      {
        NotEmpty(ranges);
        var tp :| tp in ranges;
        var span := ranges[tp];
        Shorter(ranges, tp);
        offsets, ranges := offsets + [OffsetRange(tp, span.first, span.last)], ranges - {tp};
      }
    }
  }

  lemma NotEmpty(m: map<Tp, Span>)
    requires m != map[]
    ensures exists tp :: tp in m
  {
    if forall tp :: tp !in m { assert false; }
  }

  lemma Shorter(m: map<Tp, Span>, tp: Tp)
    requires tp in m
    ensures |m - {tp}| < |m|
  {
    assert (m - {tp}).Keys == m.Keys - {tp};
    assert m.Keys == m.Keys - {tp} + {tp};
  }
}
