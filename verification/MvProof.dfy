/** Materialized views are exactly-once: whatever replicas, crashes, stale reads and
    lost acknowledgements a run holds, a pipeline's cursor never passes a source ADD
    whose operation is not committed in the target. */
module MvProof {
  import opened Base
  import opened Rows
  import opened Tables
  import opened Machine
  import opened Frames
  import opened Wellformed
  import opened FeedProof

  /** The operation that applies source event `e` is committed in the target. */
  ghost predicate Applied(s: State, p: Pid, e: CommitId) {
    && p in s.cfg.pipelines
    && var k := (s.cfg.pipelines[p].target, MvDigest(p, s.cfg.pipelines[p].source, e));
       && k in s.db.keyIndex && s.db.keyIndex[k] in s.db.commits
       && s.db.commits[s.db.keyIndex[k]].fp == Some(MvDigest(p, s.cfg.pipelines[p].source, e))
  }

  /** Nothing is left to do for event `e`: it added nothing, or its rows are out. */
  ghost predicate Done(s: State, p: Pid, e: CommitId) {
    (e in s.db.commits && s.db.commits[e].kind != KAdd) || Applied(s, p, e)
  }

  function CursorKey(s: State, p: Pid): (Worker, Ht)
    requires p in s.cfg.pipelines
  {
    (MvWorker(p), s.cfg.pipelines[p].source)
  }

  /** A cursor value a replica read: at or above the registration, not ahead of the
      stored cursor. */
  ghost predicate ReadCursor(s: State, p: Pid, c: CommitId) {
    && p in s.cfg.pipelines && p in s.hist.mvInit
    && CursorKey(s, p) in s.db.cursors
    && s.hist.mvInit[p] <= c <= s.db.cursors[CursorKey(s, p)]
  }

  /** `e` is the event right after `c`, inside a decided prefix of the feed. */
  ghost predicate NextEvent(s: State, p: Pid, c: CommitId, e: CommitId) {
    && ReadCursor(s, p, c)
    && var src := s.cfg.pipelines[p].source;
       && e in Feed(s.db, src) && c < e <= HeadOf(s.hist, src)
       && forall x :: x in Feed(s.db, src) && x < e ==> x <= c
  }

  ghost predicate ReplicaOk(s: State, x: Replica) {
    match x
    case RIdle => true
    case RCursor(p, c) => ReadCursor(s, p, c)
    case RWaiting(p, c) => ReadCursor(s, p, c)
    case RHead(p, c, h) => ReadCursor(s, p, c) && h <= HeadOf(s.hist, s.cfg.pipelines[p].source)
    case REvent(p, c, e) => NextEvent(s, p, c, e)
    case RPublish(p, c, e, t) =>
      && NextEvent(s, p, c, e) && t < s.nextTxn
      && (t in s.txns ==> s.txns[t].req.ident == Some(EventIdentity(p, s.cfg.pipelines[p], e)))
    case RReady(p, c, e) => NextEvent(s, p, c, e) && Done(s, p, e)
  }

  ghost predicate ReplicasOk(s: State) {
    forall r :: r in s.replicas ==> ReplicaOk(s, s.replicas[r])
  }

  /** Every event between a pipeline's registration and its cursor is done. */
  ghost predicate PipelineOk(s: State, p: Pid) {
    && p in s.cfg.pipelines && p in s.hist.mvInit && CursorKey(s, p) in s.db.cursors
    && s.hist.mvInit[p] <= s.db.cursors[CursorKey(s, p)]
    && forall e :: e in Feed(s.db, s.cfg.pipelines[p].source) ==>
         (s.hist.mvInit[p] < e <= s.db.cursors[CursorKey(s, p)] ==> Done(s, p, e))
  }

  ghost predicate PipelinesOk(s: State) {
    && (forall k :: k in s.db.cursors && k.0.MvWorker? ==>
          k.0.pipeline in s.cfg.pipelines && k == CursorKey(s, k.0.pipeline) && PipelineOk(s, k.0.pipeline))
    && (forall p :: p in s.hist.mvInit ==> p in s.cfg.pipelines && CursorKey(s, p) in s.db.cursors)
  }

  ghost predicate MvOk(s: State) {
    ReplicasOk(s) && PipelinesOk(s)
  }

  // ---------------------------------------------------------------- what only grows

  /** Everything an invariant about the feed and the operations may rely on from one
      state to the next. */
  ghost predicate Grows(s: State, s': State) {
    && s'.cfg == s.cfg
    && FeedKept(s, s')
    && (forall k :: k in s.db.keyIndex ==> k in s'.db.keyIndex && s'.db.keyIndex[k] == s.db.keyIndex[k])
    && (forall c :: c in s.db.commits ==> c in s'.db.commits && s'.db.commits[c] == s.db.commits[c])
    && (forall k :: k in s.db.cursors ==> k in s'.db.cursors && s.db.cursors[k] <= s'.db.cursors[k])
    && (forall p :: p in s.hist.mvInit ==> p in s'.hist.mvInit && s'.hist.mvInit[p] == s.hist.mvInit[p])
    && s.nextTxn <= s'.nextTxn
  }

  lemma AppliedStays(s: State, s': State, p: Pid, e: CommitId)
    requires Grows(s, s') && Applied(s, p, e)
    ensures Applied(s', p, e)
  {
    hide FeedKept;
  }

  lemma DoneStays(s: State, s': State, p: Pid, e: CommitId)
    requires Grows(s, s') && Done(s, p, e)
    ensures Done(s', p, e)
  {
    if Applied(s, p, e) { AppliedStays(s, s', p, e); }
    hide FeedKept; hide Applied;
  }

  lemma ReadCursorStays(s: State, s': State, p: Pid, c: CommitId)
    requires Grows(s, s') && ReadCursor(s, p, c)
    ensures ReadCursor(s', p, c) && p in s.cfg.pipelines
  {
    hide FeedKept;
  }

  lemma NextEventStays(s: State, s': State, p: Pid, c: CommitId, e: CommitId)
    requires Grows(s, s') && NextEvent(s, p, c, e)
    ensures NextEvent(s', p, c, e)
  {
    ReadCursorStays(s, s', p, c);
    hide ReadCursor; hide Feed;
    var src := s.cfg.pipelines[p].source;
    assert PrefixKept(s.db, s'.db, src, HeadOf(s.hist, src));
  }

  /** An idle-side replica whose transaction, if it has one, is still the one it began. */
  lemma ReplicaStays(s: State, s': State, x: Replica)
    requires Grows(s, s') && ReplicaOk(s, x)
    requires x.RPublish? && x.txn in s'.txns ==> x.txn in s.txns && s'.txns[x.txn].req == s.txns[x.txn].req
    ensures ReplicaOk(s', x)
  {
    match x
    case RIdle =>
    case RCursor(p, c) => ReadCursorStays(s, s', p, c);
    case RWaiting(p, c) => ReadCursorStays(s, s', p, c);
    case RHead(p, c, h) =>
      ReadCursorStays(s, s', p, c);
      HeadsGrow(s, s', s.cfg.pipelines[p].source);
    case REvent(p, c, e) => NextEventStays(s, s', p, c, e);
    case RPublish(p, c, e, t) => NextEventStays(s, s', p, c, e);
    case RReady(p, c, e) => NextEventStays(s, s', p, c, e); DoneStays(s, s', p, e);
  }

  lemma HeadsGrow(s: State, s': State, ht: Ht)
    requires FeedKept(s, s')
    ensures HeadOf(s.hist, ht) <= HeadOf(s'.hist, ht)
  {
  }

  /** A pipeline whose cursor did not move. */
  lemma PipelineStays(s: State, s': State, p: Pid)
    requires Grows(s, s') && PipelineOk(s, p) && CursorsOk(s)
    requires CursorKey(s, p) in s'.db.cursors && s'.db.cursors[CursorKey(s, p)] == s.db.cursors[CursorKey(s, p)]
    ensures PipelineOk(s', p)
  {
    var src := s.cfg.pipelines[p].source;
    assert s.db.cursors[CursorKey(s, p)] <= HeadOf(s.hist, src);
    forall e | e in Feed(s'.db, src) && s.hist.mvInit[p] < e <= s.db.cursors[CursorKey(s, p)] ensures Done(s', p, e) {
      assert PrefixKept(s.db, s'.db, src, HeadOf(s.hist, src));
      hide Feed; hide Done;
      DoneStays(s, s', p, e);
    }
  }

  /** No cursor of a materialized view moved or appeared. */
  lemma PipelinesStay(s: State, s': State)
    requires Grows(s, s') && PipelinesOk(s) && CursorsOk(s)
    requires s'.hist.mvInit == s.hist.mvInit
    requires forall k :: k in s'.db.cursors && k.0.MvWorker? ==> k in s.db.cursors && s'.db.cursors[k] == s.db.cursors[k]
    ensures PipelinesOk(s')
  {
    forall k | k in s'.db.cursors && k.0.MvWorker?
      ensures k.0.pipeline in s'.cfg.pipelines && k == CursorKey(s', k.0.pipeline) && PipelineOk(s', k.0.pipeline)
    {
      assert PipelineOk(s, k.0.pipeline);
      hide FeedKept; hide PipelineOk; hide CursorsOk;
      PipelineStays(s, s', k.0.pipeline);
    }
  }

  // ---------------------------------------------------------------- transactions

  /** Whoever is told that a transaction landed is told so about work that is out. */
  ghost predicate AnswerTrue(s: State, t: nat, s': State)
    requires t in s.txns
  {
    forall p, e :: p in s.cfg.pipelines && s.txns[t].req.ident == Some(EventIdentity(p, s.cfg.pipelines[p], e)) ==>
      Done(s', p, e)
  }

  lemma AnswerKeepsMv(s: State, t: nat, ok: bool, s': State)
    requires ReplicasOk(s) && t in s.txns && Grows(s, s')
    requires s'.replicas == AnswerReplica(s.replicas, s.txns[t].req.client, t, ok)
    requires s'.txns == s.txns - {t}
    requires ok ==> AnswerTrue(s, t, s')
    ensures ReplicasOk(s')
  {
    forall r | r in s'.replicas ensures ReplicaOk(s', s'.replicas[r]) {
      var x := s.replicas[r];
      assert ReplicaOk(s, x);
      if s'.replicas[r] == x {
        if !(x.RPublish? && x.txn == t) { ReplicaStays(s, s', x); }
        else { PublishStays(s, s', x); }
      } else if s'.replicas[r].RReady? {
        NextEventStays(s, s', x.pipeline, x.cursor, x.event);
        assert x.pipeline in s.cfg.pipelines by { NextEventPipeline(s, x.pipeline, x.cursor, x.event); }
      }
    }
  }

  lemma NextEventPipeline(s: State, p: Pid, c: CommitId, e: CommitId)
    requires NextEvent(s, p, c, e)
    ensures p in s.cfg.pipelines
  {
  }

  lemma PublishStays(s: State, s': State, x: Replica)
    requires Grows(s, s') && ReplicaOk(s, x) && x.RPublish? && x.txn !in s'.txns
    ensures ReplicaOk(s', x)
  {
    ReplicaStays(s, s', x);
  }

  /** A landed answer is true: the operation is in the unique index under its own
      fingerprint. */
  lemma LandedIsApplied(s: State, t: nat, s': State)
    requires Wf(s) && t in s.txns && s.txns[t].phase.Allocated? && s'.cfg == s.cfg
    requires Landed(BodyOf(s, t).0) && s'.db == BodyOf(s, t).1
    ensures AnswerTrue(s, t, s')
  {
    var x := s.txns[t];
    forall p, e | p in s.cfg.pipelines && x.req.ident == Some(EventIdentity(p, s.cfg.pipelines[p], e))
      ensures Applied(s', p, e)
    {
      if BodyOf(s, t).0.Committed? {
        BodyCommits(s.db, x.phase.id, x.req.ht, x.req.op, x.req.ident, x.req.ranges, x.startedAt);
      } else {
        BodyDeclines(s.db, x.phase.id, x.req.ht, x.req.op, x.req.ident, x.req.ranges, x.startedAt);
      }
    }
  }

  lemma ReconciledIsApplied(s: State, t: nat)
    requires t in s.txns && s.txns[t].req.ident.Some?
    requires Reconcile(s.db, s.txns[t].req.ident.value).Ok? && Reconcile(s.db, s.txns[t].req.ident.value).value.Some?
    ensures AnswerTrue(s, t, s)
  {
  }

  lemma AnswerTrueLater(s: State, t: nat, s': State)
    requires t in s.txns && AnswerTrue(s, t, s) && Grows(s, s')
    ensures AnswerTrue(s, t, s')
  {
    forall p, e | p in s.cfg.pipelines && s.txns[t].req.ident == Some(EventIdentity(p, s.cfg.pipelines[p], e))
      ensures Done(s', p, e)
    {
      DoneStays(s, s', p, e);
    }
  }

  lemma SameTablesGrow(s: State, s': State)
    requires s'.cfg == s.cfg && s'.db.commits == s.db.commits && s'.db.keyIndex == s.db.keyIndex
    requires s'.db.cursors == s.db.cursors && s'.hist.heads == s.hist.heads && s'.hist.mvInit == s.hist.mvInit
    requires s.nextTxn <= s'.nextTxn
    ensures Grows(s, s')
  {
    SameFeed(s, s');
    hide FeedKept;
  }

  lemma SameCursors(s: State, s': State)
    requires Grows(s, s') && PipelinesOk(s) && CursorsOk(s) && s'.db.cursors == s.db.cursors && s'.hist.mvInit == s.hist.mvInit
    ensures PipelinesOk(s')
  {
    PipelinesStay(s, s');
  }

  lemma BeginKeepsMv(s: State, t: nat, req: Request)
    requires MvOk(s) && CursorsOk(s) && TxnEnabled(s, Begin(t, req))
    ensures MvOk(TxnNext(s, Begin(t, req)))
  {
    hide TxnNext; hide ClientOk; hide Paths;
    hide Grows; hide NextEvent; hide Done; hide ReadCursor; hide PipelinesOk;
    var s' := TxnNext(s, Begin(t, req));
    BeginFrame(s, t, req);
    BeginWorkers(s, t, req);
    SameTablesGrow(s, s');
    SameCursors(s, s');
    forall r | r in s'.replicas ensures ReplicaOk(s', s'.replicas[r]) {
      var x := s.replicas[r];
      assert ReplicaOk(s, x);
      if s'.replicas[r] == x { ReplicaStays(s, s', x); }
      else { NextEventStays(s, s', x.pipeline, x.cursor, x.event); }
    }
  }

  lemma TxnKeepsMv(s: State, step: TxnStep)
    requires Wf(s) && MvOk(s) && CursorsOk(s) && TxnEnabled(s, step) && !step.Finish?
    ensures MvOk(TxnNext(s, step))
  {
    hide *;
    var s' := TxnNext(s, step);
    if step.Begin? {
      BeginKeepsMv(s, step.txn, step.req);
    } else {
      MovesKeepsMv(s, step);
    }
  }

  lemma FailsKeepsMv(s: State, t: nat)
    requires MvOk(s) && CursorsOk(s) && t in s.txns
    ensures MvOk(Answer(s, t, false))
  {
    var s' := Answer(s, t, false);
    SameTablesGrow(s, s');
    SameCursors(s, s');
    AnswerKeepsMv(s, t, false, s');
  }

  lemma AdvancesKeepsMv(s: State, t: nat, x: Txn, s': State)
    requires MvOk(s) && CursorsOk(s) && t in s.txns && Advances(s, t, x, s')
    ensures MvOk(s')
  {
    SameTablesGrow(s, s');
    SameCursors(s, s');
    SameRequests(s, s');
  }

  lemma ReplayKeepsMv(s: State, t: nat, ack: bool)
    requires MvOk(s) && CursorsOk(s) && t in s.txns && s.txns[t].req.ident.Some?
    requires Reconcile(s.db, s.txns[t].req.ident.value).Ok? && Reconcile(s.db, s.txns[t].req.ident.value).value.Some?
    ensures MvOk(Answer(s, t, ack))
  {
    var s' := Answer(s, t, ack);
    ReconciledIsApplied(s, t);
    SameTablesGrow(s, s');
    AnswerTrueLater(s, t, s');
    SameCursors(s, s');
    AnswerKeepsMv(s, t, ack, s');
  }

  lemma MovesKeepsMv(s: State, step: TxnStep)
    requires MvOk(s) && CursorsOk(s) && TxnEnabled(s, step) && !step.Finish? && !step.Begin?
    ensures MvOk(TxnNext(s, step))
  {
    var s' := TxnNext(s, step);
    var t := step.txn;
    FailsKeepsMv(s, t);
    match step {
      case Lookup(_, ack) =>
        LookupFrame(s, t, ack);
        if Advances(s, t, s.txns[t].(phase := Looked), s') { AdvancesKeepsMv(s, t, s.txns[t].(phase := Looked), s'); }
        else if s' != Answer(s, t, false) { ReplayKeepsMv(s, t, ack); }
      case Check(_) =>
        CheckFrame(s, t);
        var x := s.txns[t].(phase := Fenced, fencedAt := Some(s.now));
        if Advances(s, t, x, s') { AdvancesKeepsMv(s, t, x, s'); }
      case Alloc(_) => AllocFrame(s, t); AdvancesKeepsMv(s, t, s.txns[t].(phase := Allocated(s.commitSeq)), s');
      case Rollback(_) => RollbackFrame(s, t);
    }
  }

  lemma SameRequests(s: State, s': State)
    requires ReplicasOk(s) && Grows(s, s') && s'.replicas == s.replicas
    requires forall t :: t in s'.txns ==> t in s.txns && s'.txns[t].req == s.txns[t].req
    ensures ReplicasOk(s')
  {
    forall r | r in s'.replicas ensures ReplicaOk(s', s'.replicas[r]) {
      assert ReplicaOk(s, s.replicas[r]);
      hide Grows; hide ReplicaOk;
      ReplicaStays(s, s', s.replicas[r]);
    }
  }

  /** A commit goes in under an unused id and a free key. */
  lemma CommitIsNew(s: State, t: nat, s': State)
    requires Wf(s) && CommitEffect(s, t, s')
    ensures s.txns[t].phase.id !in s.db.commits
    ensures s.txns[t].req.ident.Some? ==>
              s.txns[t].req.ident.value.ht == s.txns[t].req.ht
              && (s.txns[t].req.ht, s.txns[t].req.ident.value.key) !in s.db.keyIndex
  {
  }

  lemma CommitGrows(s: State, t: nat, s': State)
    requires Wf(s) && FeedOk(s) && CommitEffect(s, t, s')
    ensures Grows(s, s')
  {
    hide FeedKept; hide Record; hide AdvanceOffsets; hide Paths; hide PartsAfter; hide AllLive; hide Inputs;
    hide Outputs; hide Wf; hide FeedOk; hide Reconcile;
    CommitKeepsFeed(s, t, s');
    CommitIsNew(s, t, s');
    RecordHeads(s, s.txns[t].req);
  }

  lemma FinishKeepsMv(s: State, t: nat, ack: bool)
    requires Wf(s) && FeedOk(s) && MvOk(s) && TxnEnabled(s, Finish(t, ack))
    ensures MvOk(TxnNext(s, Finish(t, ack)))
    ensures Grows(s, TxnNext(s, Finish(t, ack)))
  {
    var s' := TxnNext(s, Finish(t, ack));
    var o := BodyOf(s, t).0;
    FinishCases(s, t, ack);
    FinishFrame(s, t, ack);
    hide Record;
    if o.Committed? { CommitGrows(s, t, s'); } else { SameTablesGrow(s, s'); }
    if ack && Landed(o) { LandedIsApplied(s, t, s'); }
    AnswerKeepsMv(s, t, ack && Landed(o), s');
    assert CursorsOk(s) && s'.db.cursors == s.db.cursors && s'.hist.mvInit == s.hist.mvInit by { FinishCursors(s, t, ack); }
    SameCursors(s, s');
  }

  lemma FinishCursors(s: State, t: nat, ack: bool)
    requires FeedOk(s) && TxnEnabled(s, Finish(t, ack))
    ensures CursorsOk(s)
    ensures var s' := TxnNext(s, Finish(t, ack)); s'.db.cursors == s.db.cursors && s'.hist.mvInit == s.hist.mvInit
  {
    FinishCases(s, t, ack);
    RecordHeads(s, s.txns[t].req);
    hide LocksOk;
  }

  // ---------------------------------------------------------------- feed steps

  /** Handing a head to a replica that waited for it. */
  lemma ToReplicaKeepsMv(s: State, r: nat, x: nat, s': State)
    requires MvOk(s) && CursorsOk(s) && r in s.readers && ToReplica(s, r, x, s') && FeedKept(s, s')
    ensures MvOk(s') && Grows(s, s')
  {
    hide Grows; hide HeadOf; hide ToReplica;
    hide Feed; hide IsHead;
    ToReplicaFacts(s, r, x, s');
    KeptGrows(s, s');
    SameCursors(s, s');
    forall q | q in s'.replicas ensures ReplicaOk(s', s'.replicas[q]) {
      ReplicaStays(s, s', s.replicas[q]);
      if s'.replicas[q] != s.replicas[q] { HeadArrives(s', s.replicas[q], Head(s.db, s.readers[r].ht)); }
    }
  }

  lemma ToReplicaFacts(s: State, r: nat, x: nat, s': State)
    requires r in s.readers && ToReplica(s, r, x, s')
    ensures s'.cfg == s.cfg && s'.db == s.db && s'.hist.mvInit == s.hist.mvInit && s'.nextTxn == s.nextTxn && s'.txns == s.txns
    ensures Head(s.db, s.readers[r].ht) <= HeadOf(s'.hist, s.readers[r].ht)
    ensures s'.replicas == s.replicas
            || (x in s.replicas && s.replicas[x].RWaiting? && s.replicas[x].pipeline in s.cfg.pipelines
                && s.cfg.pipelines[s.replicas[x].pipeline].source == s.readers[r].ht
                && s'.replicas == s.replicas[x := RHead(s.replicas[x].pipeline, s.replicas[x].cursor,
                                                        Head(s.db, s.readers[r].ht))])
  {
    HeadReadTables(s, r);
  }

  lemma ToCursorTables(s: State, r: nat, p: Pid, s': State)
    requires r in s.readers && ToCursor(s, r, p, s')
    ensures s'.cfg == s.cfg && s'.db.commits == s.db.commits && s'.db.keyIndex == s.db.keyIndex
    ensures s'.nextTxn == s.nextTxn && s'.txns == s.txns && s'.replicas == s.replicas
  {
    hide IsHead;
  }

  lemma ToCursorFresh(s: State, r: nat, p: Pid, s': State)
    requires r in s.readers && ToCursor(s, r, p, s') && (MvWorker(p), s.readers[r].ht) !in s.db.cursors
    ensures s'.db.cursors == s.db.cursors[(MvWorker(p), s.readers[r].ht) := Head(s.db, s.readers[r].ht)]
    ensures s'.hist.mvInit == s.hist.mvInit[p := Head(s.db, s.readers[r].ht)]
  {
  }

  lemma ToCursorKnown(s: State, r: nat, p: Pid, s': State)
    requires r in s.readers && ToCursor(s, r, p, s') && (MvWorker(p), s.readers[r].ht) in s.db.cursors
    ensures s'.db.cursors == s.db.cursors && s'.hist.mvInit == s.hist.mvInit
  {
  }

  lemma HeadReadTables(s: State, r: nat)
    requires r in s.readers
    ensures var s' := HeadRead(s, r);
            && s' == s.(readers := s'.readers, hist := s.hist.(heads := s'.hist.heads))
            && Head(s.db, s.readers[r].ht) <= HeadOf(s'.hist, s.readers[r].ht)
  {
    hide Head; hide IsHead; hide Feed;
  }

  lemma HeadArrives(s: State, x: Replica, h: CommitId)
    requires x.RWaiting? && ReplicaOk(s, x) && x.pipeline in s.cfg.pipelines
    requires h <= HeadOf(s.hist, s.cfg.pipelines[x.pipeline].source)
    ensures ReplicaOk(s, RHead(x.pipeline, x.cursor, h))
  {
  }

  /** The tables did not move, the heads only grew. */
  lemma KeptGrows(s: State, s': State)
    requires s'.cfg == s.cfg && s'.db == s.db && s'.hist.mvInit == s.hist.mvInit && s.nextTxn <= s'.nextTxn
    requires FeedKept(s, s')
    ensures Grows(s, s')
  {
    hide FeedKept;
  }

  lemma ToConsumerKeepsMv(s: State, r: nat, c: nat, s': State)
    requires MvOk(s) && CursorsOk(s) && r in s.readers && ToConsumer(s, r, c, s') && FeedKept(s, s')
    ensures MvOk(s') && Grows(s, s')
  {
    HeadReadTables(s, r);
    KeptGrows(s, s');
    SameCursors(s, s');
    SameRequests(s, s');
  }

  /** A first registration starts at the head: nothing is owed yet. */
  lemma ToCursorKeepsMv(s: State, r: nat, p: Pid, s': State)
    requires MvOk(s) && CursorsOk(s) && r in s.readers && ToCursor(s, r, p, s') && FeedKept(s, s')
    requires p in s.cfg.pipelines && s.readers[r].ht == s.cfg.pipelines[p].source
    ensures MvOk(s') && Grows(s, s')
  {
    hide CursorsOk; hide IsHead; hide ToCursor;
    ToCursorTables(s, r, p, s');
    if CursorKey(s, p) in s.db.cursors { ToCursorKnown(s, r, p, s'); } else { ToCursorFresh(s, r, p, s'); }
    assert p in s.hist.mvInit ==> CursorKey(s, p) in s.db.cursors;
    assert Grows(s, s');
    SameRequests(s, s');
    forall k | k in s'.db.cursors && k.0.MvWorker?
      ensures k.0.pipeline in s'.cfg.pipelines && k == CursorKey(s', k.0.pipeline) && PipelineOk(s', k.0.pipeline)
    {
      if k in s.db.cursors {
        PipelineStays(s, s', k.0.pipeline);
      } else {
        FreshPipeline(s', p);
      }
    }
  }

  lemma FreshPipeline(s: State, p: Pid)
    requires p in s.cfg.pipelines && p in s.hist.mvInit && CursorKey(s, p) in s.db.cursors
    requires s.db.cursors[CursorKey(s, p)] == s.hist.mvInit[p]
    ensures PipelineOk(s, p)
  {
  }

  lemma HeadDeliveredKeepsMv(s: State, r: nat, s': State)
    requires MvOk(s) && CursorsOk(s) && r in s.readers && HeadDelivered(s, r, s') && FeedKept(s, s')
    requires s.readers[r].purpose.Register? ==>
               s.readers[r].purpose.pipeline in s.cfg.pipelines
               && s.readers[r].ht == s.cfg.pipelines[s.readers[r].purpose.pipeline].source
    ensures MvOk(s') && Grows(s, s')
  {
    match s.readers[r].purpose
    case ForReplica(x) => ToReplicaKeepsMv(s, r, x, s');
    case ForConsumer(c) => ToConsumerKeepsMv(s, r, c, s');
    case Register(p) => ToCursorKeepsMv(s, r, p, s');
  }

  /** A reader that registers a cursor holds the lock of the pipeline's own source. */
  ghost predicate ReadersOk(s: State) {
    forall r :: r in s.readers && s.readers[r].purpose.Register? ==>
      s.readers[r].purpose.pipeline in s.cfg.pipelines
      && s.readers[r].ht == s.cfg.pipelines[s.readers[r].purpose.pipeline].source
  }

  lemma FeedLockKeepsMv(s: State, r: nat, ht: Ht, purpose: Purpose)
    requires MvOk(s) && CursorsOk(s) && FeedEnabled(s, FeedLock(r, ht, purpose))
    ensures MvOk(FeedNext(s, FeedLock(r, ht, purpose)))
  {
    hide IsPage;
    hide IsHead;
    var s' := FeedNext(s, FeedLock(r, ht, purpose));
    SameTablesGrow(s, s');
    SameCursors(s, s');
    forall q | q in s'.replicas ensures ReplicaOk(s', s'.replicas[q]) {
      assert ReplicaOk(s, s.replicas[q]);
      ReplicaStays(s, s', s.replicas[q]);
    }
  }

  lemma PersistKeepsMv(s: State, step: FeedStep)
    requires MvOk(s) && CursorsOk(s) && FeedEnabled(s, step) && (step.Persist? || step.PersistHead?)
    ensures MvOk(FeedNext(s, step)) && Grows(s, FeedNext(s, step))
  {
    hide PipelinesOk; hide CursorsOk;
    var s' := FeedNext(s, step);
    SameFeed(s, s');
    assert Grows(s, s');
    SameRequests(s, s');
    PipelinesStay(s, s');
  }

  lemma QuietFeedKeepsMv(s: State, step: FeedStep)
    requires MvOk(s) && CursorsOk(s) && FeedEnabled(s, step) && (step.FeedAbort? || step.Subscribe? || step.Page?)
    ensures MvOk(FeedNext(s, step)) && Grows(s, FeedNext(s, step))
  {
    var s' := FeedNext(s, step);
    SameTablesGrow(s, s');
    SameCursors(s, s');
    SameRequests(s, s');
  }

  lemma FeedKeepsMv(s: State, step: FeedStep)
    requires Wf(s) && FeedOk(s) && MvOk(s) && ReadersOk(s) && FeedEnabled(s, step)
    ensures MvOk(FeedNext(s, step)) && Grows(s, FeedNext(s, step))
  {
    hide Grows; hide FeedKept;
    match step {
      case FeedLock(r, ht, purpose) => FeedLockKeepsMv(s, r, ht, purpose); FeedLockGrows(s, r, ht, purpose);
      case FeedRead(r) => FeedReadKeepsMv(s, r);
      case Persist(c, n) => PersistKeepsMv(s, step);
      case PersistHead(c, n) => PersistKeepsMv(s, step);
      case _ => QuietFeedKeepsMv(s, step);
    }
  }

  lemma FeedLockGrows(s: State, r: nat, ht: Ht, purpose: Purpose)
    requires FeedEnabled(s, FeedLock(r, ht, purpose))
    ensures Grows(s, FeedNext(s, FeedLock(r, ht, purpose)))
  {
    SameTablesGrow(s, FeedNext(s, FeedLock(r, ht, purpose)));
  }

  lemma FeedReadKeepsMv(s: State, r: nat)
    requires Wf(s) && FeedOk(s) && MvOk(s) && ReadersOk(s) && FeedEnabled(s, FeedRead(r))
    ensures MvOk(FeedNext(s, FeedRead(r))) && Grows(s, FeedNext(s, FeedRead(r)))
  {
    hide FeedKept;
    FeedReadKeeps(s, r);
    FeedReadFrame(s, r);
    HeadDeliveredKeepsMv(s, r, FeedNext(s, FeedRead(r)));
  }

  // ---------------------------------------------------------------- replica steps

  lemma MvStartKeeps(s: State, r: nat, p: Pid)
    requires MvOk(s) && CursorsOk(s) && MvEnabled(s, MvStart(r, p))
    ensures MvOk(MvNext(s, MvStart(r, p))) && Grows(s, MvNext(s, MvStart(r, p)))
  {
    var s' := MvNext(s, MvStart(r, p));
    SameTablesGrow(s, s');
    SameCursors(s, s');
    forall q | q in s'.replicas ensures ReplicaOk(s', s'.replicas[q]) {
      if q != r { assert ReplicaOk(s, s.replicas[q]); ReplicaStays(s, s', s.replicas[q]); }
      else {
        assert (MvWorker(p), s.cfg.pipelines[p].source) in s.db.cursors;
        assert PipelineOk(s, p);
      }
    }
  }

  /** The page's event is the one right after the cursor, inside a decided prefix. */
  lemma PageGivesNext(s: State, p: Pid, c: CommitId, h: CommitId, page: seq<CommitId>)
    requires ReadCursor(s, p, c) && h <= HeadOf(s.hist, s.cfg.pipelines[p].source)
    requires |page| == 1 && IsPage(s.db, s.cfg.pipelines[p].source, c, h, page)
    ensures NextEvent(s, p, c, page[0])
  {
    hide Feed;
    var src := s.cfg.pipelines[p].source;
    forall x | x in Feed(s.db, src) && x < page[0] ensures x <= c {
    }
  }

  lemma OneReplica(s: State, r: nat, y: Replica, s': State)
    requires ReplicasOk(s) && PipelinesOk(s) && CursorsOk(s) && ReplicaOk(s, y)
    requires !y.RPublish? && s' == s.(replicas := s.replicas[r := y])
    ensures MvOk(s') && Grows(s, s')
  {
    SameTablesGrow(s, s');
    SameCursors(s, s');
    forall q | q in s'.replicas ensures ReplicaOk(s', s'.replicas[q]) {
      if q != r { ReplicaStays(s, s', s.replicas[q]); } else { ReplicaStays(s, s', y); }
    }
  }

  lemma MvPageKeeps(s: State, r: nat, page: seq<CommitId>)
    requires MvOk(s) && CursorsOk(s) && MvEnabled(s, MvPage(r, page))
    ensures MvOk(MvNext(s, MvPage(r, page))) && Grows(s, MvNext(s, MvPage(r, page)))
  {
    var x := s.replicas[r];
    assert ReplicaOk(s, x);
    if page == [] {
      OneReplica(s, r, RIdle, MvNext(s, MvPage(r, page)));
    } else {
      PageGivesNext(s, x.pipeline, x.cursor, x.head, page);
      OneReplica(s, r, REvent(x.pipeline, x.cursor, page[0]), MvNext(s, MvPage(r, page)));
    }
  }

  lemma MvCheckKeeps(s: State, step: MvStep)
    requires MvOk(s) && CursorsOk(s) && MvEnabled(s, step)
    requires step.MvSkip? || step.MvCheckCursor? || step.MvCheckOperation? || step.MvCrash?
    ensures MvOk(MvNext(s, step)) && Grows(s, MvNext(s, step))
  {
    hide ReadCursor;
    var s', x := MvNext(s, step), s.replicas[step.replica];
    assert ReplicaOk(s, x);
    SameTablesGrow(s, s);
    if s' == s.(replicas := s.replicas[step.replica := RIdle]) {
      OneReplica(s, step.replica, RIdle, s');
    } else if s' != s {
      OneReplica(s, step.replica, RReady(x.pipeline, x.cursor, x.event), s');
    }
  }

  /** The cursor moves to an event that is done, over nothing that is not. */
  lemma MvAdvanceIs(s: State, r: nat)
    requires MvEnabled(s, MvAdvance(r))
    ensures r in s.replicas && s.replicas[r].RReady? && s.replicas[r].pipeline in s.cfg.pipelines
    ensures var x := s.replicas[r];
            MvNext(s, MvAdvance(r))
            == s.(db := s.db.(cursors := SetCursor(s.db.cursors, MvWorker(x.pipeline), s.cfg.pipelines[x.pipeline].source, x.event)),
                  replicas := s.replicas[r := RIdle])
  {
    hide IsPage; hide Reconcile; hide SetCursor;
  }

  lemma ReadyFacts(s: State, p: Pid, c: CommitId, e: CommitId)
    requires ReplicaOk(s, RReady(p, c, e))
    ensures NextEvent(s, p, c, e) && Done(s, p, e) && p in s.cfg.pipelines && CursorKey(s, p) in s.db.cursors
    ensures e <= HeadOf(s.hist, s.cfg.pipelines[p].source)
  {
    hide Feed; hide Done; hide HeadOf;
  }

  lemma MvAdvanceKeeps(s: State, r: nat)
    requires MvOk(s) && CursorsOk(s) && MvEnabled(s, MvAdvance(r))
    ensures MvOk(MvNext(s, MvAdvance(r))) && Grows(s, MvNext(s, MvAdvance(r))) && CursorsOk(MvNext(s, MvAdvance(r)))
  {
    hide Done; hide PipelineOk; hide FeedKept; hide NextEvent; hide HeadOf;
    MvAdvanceIs(s, r);
    var s', x := MvNext(s, MvAdvance(r)), s.replicas[r];
    ReadyFacts(s, x.pipeline, x.cursor, x.event);
    SameFeed(s, s');
    assert Grows(s, s');
    assert CursorsOk(s');
    hide Grows;
    assert ReplicaOk(s', RIdle) by { IdleOk(s'); }
    forall q | q in s'.replicas ensures ReplicaOk(s', s'.replicas[q]) {
      if q != r { ReplicaStays(s, s', s.replicas[q]); }
    }
    forall k | k in s'.db.cursors && k.0.MvWorker?
      ensures k.0.pipeline in s'.cfg.pipelines && k == CursorKey(s', k.0.pipeline) && PipelineOk(s', k.0.pipeline)
    {
      if k == CursorKey(s, x.pipeline) {
        PipelineAdvances(s, s', x.pipeline, x.cursor, x.event);
      } else {
        PipelineStays(s, s', k.0.pipeline);
      }
    }
  }

  lemma IdleOk(s: State)
    ensures ReplicaOk(s, RIdle)
  {
  }

  lemma PipelineAdvances(s: State, s': State, p: Pid, c: CommitId, e: CommitId)
    requires PipelineOk(s, p) && NextEvent(s, p, c, e) && Done(s, p, e) && Grows(s, s')
    requires s'.db.commits == s.db.commits && s'.hist == s.hist
    requires CursorKey(s, p) in s'.db.cursors
    requires s'.db.cursors[CursorKey(s, p)] == e || s'.db.cursors[CursorKey(s, p)] == s.db.cursors[CursorKey(s, p)]
    ensures PipelineOk(s', p)
  {
    hide FeedKept; hide Done;
    var src := s.cfg.pipelines[p].source;
    assert Feed(s'.db, src) == Feed(s.db, src);
    forall x | x in Feed(s'.db, src) && s.hist.mvInit[p] < x <= s'.db.cursors[CursorKey(s, p)] ensures Done(s', p, x) {
      hide Feed;
      assert Done(s, p, x);
      DoneStays(s, s', p, x);
    }
  }

  lemma MvKeepsMv(s: State, step: MvStep)
    requires MvOk(s) && CursorsOk(s) && MvEnabled(s, step)
    ensures MvOk(MvNext(s, step)) && Grows(s, MvNext(s, step)) && CursorsOk(MvNext(s, step))
  {
    hide *;
    match step {
      case MvStart(r, p) => MvStartKeeps(s, r, p); QuietMvCursors(s, step);
      case MvPage(r, page) => MvPageKeeps(s, r, page); QuietMvCursors(s, step);
      case MvAdvance(r) => MvAdvanceKeeps(s, r);
      case _ => MvCheckKeeps(s, step); QuietMvCursors(s, step);
    }
  }

  lemma QuietMvCursors(s: State, step: MvStep)
    requires CursorsOk(s) && MvEnabled(s, step) && !step.MvAdvance?
    ensures CursorsOk(MvNext(s, step))
  {
    hide MvNext; hide MvEnabled; hide CursorsOk;
    MvFrame(s, step);
    SameCursorsOk(s, MvNext(s, step));
  }

  lemma SameCursorsOk(s: State, s': State)
    requires CursorsOk(s) && s'.db.cursors == s.db.cursors && s'.hist.heads == s.hist.heads
    ensures CursorsOk(s')
  {
    assert forall ht :: HeadOf(s'.hist, ht) == HeadOf(s.hist, ht);
  }

  // ---------------------------------------------------------------- everything else

  lemma MvFrameKeeps(s: State, s': State)
    requires MvOk(s) && CursorsOk(s)
    requires s'.cfg == s.cfg && s'.db.commits == s.db.commits && s'.db.keyIndex == s.db.keyIndex
    requires s'.db.cursors == s.db.cursors && s'.hist.heads == s.hist.heads && s'.hist.mvInit == s.hist.mvInit
    requires s'.nextTxn == s.nextTxn && s'.txns == s.txns && s'.replicas == s.replicas
    ensures MvOk(s') && Grows(s, s')
  {
    SameTablesGrow(s, s');
    SameCursors(s, s');
    SameRequests(s, s');
  }
}
