/** Which part of the state each family of steps may touch. */
module Frames {
  import opened Base
  import opened Rows
  import opened Tables
  import opened Machine

  lemma BeginFrame(s: State, t: nat, req: Request)
    requires TxnEnabled(s, Begin(t, req))
    ensures var s' := TxnNext(s, Begin(t, req));
            s' == s.(txns := s.txns[t := Txn(req, s.now, None, Locked)], nextTxn := t + 1,
                     claimed := s.claimed + Paths(Outputs(req.op)),
                     replicas := s'.replicas, ingesters := s'.ingesters)
  {
  }

  /** What beginning a transaction does to the worker that waits for it. */
  lemma BeginWorkers(s: State, t: nat, req: Request)
    requires TxnEnabled(s, Begin(t, req))
    ensures var s' := TxnNext(s, Begin(t, req));
            && (if req.client.MvReplica? then
                  && req.client.replica in s.replicas && s.replicas[req.client.replica].REvent?
                  && var e := s.replicas[req.client.replica];
                     && s'.replicas == s.replicas[req.client.replica := RPublish(e.pipeline, e.cursor, e.event, t)]
                     && e.pipeline in s.cfg.pipelines
                     && req.ident == Some(EventIdentity(e.pipeline, s.cfg.pipelines[e.pipeline], e.event))
                else s'.replicas == s.replicas)
            && (if req.client.Ingester? then
                  && req.client.worker in s.ingesters && s.ingesters[req.client.worker].IRun?
                  && var w := s.ingesters[req.client.worker];
                     && s'.ingesters == s.ingesters[req.client.worker := IFlush(w.ht, w.pos, t)]
                     && req.ht == w.ht && req.starts == w.from && Drains(w.buf, req.ranges) && req.took == w.took
                     && req.ident == Some(Factory(req.ht, IngestDigest(Elements(req.ranges))))
                else s'.ingesters == s.ingesters && req.ranges == []
                     && (req.ident.Some? && req.ident.value.fp.Some? ==> !req.ident.value.fp.value.IngestDigest?))
  {
  }

  /** A transaction that only moves on to its next phase. */
  predicate Advances(s: State, t: nat, x: Txn, s': State)
    requires t in s.txns
  {
    && x.req == s.txns[t].req && x.startedAt == s.txns[t].startedAt
    && s' == s.(txns := s.txns[t := x], commitSeq := s'.commitSeq)
  }

  lemma LookupFrame(s: State, t: nat, ack: bool)
    requires TxnEnabled(s, Lookup(t, ack))
    ensures var s' := TxnNext(s, Lookup(t, ack));
            || (Advances(s, t, s.txns[t].(phase := Looked), s') && s'.commitSeq == s.commitSeq)
            || s' == Answer(s, t, false)
            || (s' == Answer(s, t, ack) && s.txns[t].req.ident.Some?
                && Reconcile(s.db, s.txns[t].req.ident.value).Ok?
                && Reconcile(s.db, s.txns[t].req.ident.value).value.Some?)
  {
  }

  lemma CheckFrame(s: State, t: nat)
    requires TxnEnabled(s, Check(t))
    ensures var s' := TxnNext(s, Check(t));
            || s' == Answer(s, t, false)
            || (Advances(s, t, s.txns[t].(phase := Fenced, fencedAt := Some(s.now)), s') && s'.commitSeq == s.commitSeq
                && Fence(s.db, s.now, s.txns[t].req.ht, s.txns[t].req.lease.value, s.txns[t].req.op).None?)
  {
    hide Answer;
  }

  lemma AllocFrame(s: State, t: nat)
    requires TxnEnabled(s, Alloc(t))
    ensures Advances(s, t, s.txns[t].(phase := Allocated(s.commitSeq)), TxnNext(s, Alloc(t)))
    ensures TxnNext(s, Alloc(t)).commitSeq == s.commitSeq + 1
  {
  }

  lemma RollbackFrame(s: State, t: nat)
    requires TxnEnabled(s, Rollback(t))
    ensures TxnNext(s, Rollback(t)) == Answer(s, t, false)
  {
  }

  /** Until it finishes, a transaction touches nothing but itself, the id sequence
      and the worker it answers: it begins, moves on, or is over with nothing done. */
  lemma TxnFrame(s: State, step: TxnStep)
    requires TxnEnabled(s, step) && !step.Finish? && !step.Begin?
    ensures step.txn in s.txns
    ensures var s' := TxnNext(s, step);
            || s' == Answer(s, step.txn, true)
            || s' == Answer(s, step.txn, false)
            || exists x :: Advances(s, step.txn, x, s')
  {
    match step {
      case Lookup(t, ack) => LookupFrame(s, t, ack);
      case Check(t) => CheckFrame(s, t);
      case Alloc(t) => AllocFrame(s, t);
      case Rollback(t) => RollbackFrame(s, t);
    }
  }

  /** What an unfinished transaction's step leaves of the transaction table. */
  ghost predicate TxnMoves(s: State, s': State) {
    && s' == s.(txns := s'.txns, nextTxn := s'.nextTxn, commitSeq := s'.commitSeq, claimed := s'.claimed,
                replicas := s'.replicas, ingesters := s'.ingesters)
    && s.commitSeq <= s'.commitSeq
    && forall t :: t in s'.txns ==>
         if t in s.txns then
           && s'.txns[t].req == s.txns[t].req && s'.txns[t].startedAt == s.txns[t].startedAt
           && (s'.txns[t].phase == s.txns[t].phase
               || !s'.txns[t].phase.Allocated?
               || (s'.txns[t].phase == Allocated(s.commitSeq) && s'.commitSeq == s.commitSeq + 1))
         else
           s'.txns[t].phase.Locked? && forall r :: r in s.readers ==> s.readers[r].ht != s'.txns[t].req.ht
  }

  lemma AnswerMoves(s: State, t: nat, ok: bool)
    requires t in s.txns
    ensures TxnMoves(s, Answer(s, t, ok))
  {
    hide AnswerReplica; hide AnswerIngester;
  }

  lemma AdvanceMoves(s: State, t: nat, x: Txn, s': State)
    requires t in s.txns && Advances(s, t, x, s')
    requires (!x.phase.Allocated? && s'.commitSeq == s.commitSeq)
             || (x.phase == Allocated(s.commitSeq) && s'.commitSeq == s.commitSeq + 1)
    ensures TxnMoves(s, s')
  {
  }

  lemma BeginMoves(s: State, t: nat, req: Request)
    requires TxnEnabled(s, Begin(t, req))
    ensures TxnMoves(s, TxnNext(s, Begin(t, req)))
  {
    BeginFrame(s, t, req);
  }

  lemma TxnMovesOn(s: State, step: TxnStep)
    requires TxnEnabled(s, step) && !step.Finish?
    ensures TxnMoves(s, TxnNext(s, step))
  {
    hide TxnNext; hide Answer;
    hide Fence; hide Reconcile; hide Paths; hide Outputs; hide TxnMoves; hide Advances;
    var s' := TxnNext(s, step);
    match step {
      case Begin(t, req) => BeginMoves(s, t, req);
      case Lookup(t, ack) =>
        LookupFrame(s, t, ack); AnswerMoves(s, t, false); AnswerMoves(s, t, ack);
        var x := s.txns[t].(phase := Looked);
        if Advances(s, t, x, s') && s'.commitSeq == s.commitSeq { AdvanceMoves(s, t, x, s'); }
      case Check(t) =>
        CheckFrame(s, t); AnswerMoves(s, t, false);
        var x := s.txns[t].(phase := Fenced, fencedAt := Some(s.now));
        if Advances(s, t, x, s') && s'.commitSeq == s.commitSeq { AdvanceMoves(s, t, x, s'); }
      case Alloc(t) => AllocFrame(s, t); AdvanceMoves(s, t, s.txns[t].(phase := Allocated(s.commitSeq)), s');
      case Rollback(t) => RollbackFrame(s, t); AnswerMoves(s, t, false);
    }
  }

  lemma FinishFrame(s: State, t: nat, ack: bool)
    requires TxnEnabled(s, Finish(t, ack))
    ensures var s' := TxnNext(s, Finish(t, ack));
            && s' == s.(db := s'.db, hist := s'.hist, txns := s.txns - {t}, replicas := s'.replicas, ingesters := s'.ingesters)
            && s'.db == BodyOf(s, t).1
            && s'.hist == (if BodyOf(s, t).0.Committed? then Record(s, s.txns[t].req) else s.hist)
            && s'.replicas == AnswerReplica(s.replicas, s.txns[t].req.client, t, ack && Landed(BodyOf(s, t).0))
            && s'.ingesters == AnswerIngester(s.ingesters, s.txns[t].req.client, t, ack && Landed(BodyOf(s, t).0))
  {
    hide Record;
  }

  /** The common effect of a head read: the lock is released and the head recorded. */
  ghost function HeadRead(s: State, r: nat): State
    requires r in s.readers
  {
    var ht := s.readers[r].ht;
    var h := Head(s.db, ht);
    s.(readers := s.readers - {r},
       hist := s.hist.(heads := s.hist.heads[ht := if h > HeadOf(s.hist, ht) then h else HeadOf(s.hist, ht)]))
  }

  ghost predicate ToReplica(s: State, r: nat, x: nat, s': State)
    requires r in s.readers
  {
    || s' == HeadRead(s, r)
    || (x in s.replicas && s.replicas[x].RWaiting? && s.replicas[x].pipeline in s.cfg.pipelines
        && s.cfg.pipelines[s.replicas[x].pipeline].source == s.readers[r].ht
        && s' == HeadRead(s, r).(replicas := s.replicas[x := RHead(s.replicas[x].pipeline, s.replicas[x].cursor,
                                                                   Head(s.db, s.readers[r].ht))]))
  }

  ghost predicate ToConsumer(s: State, r: nat, c: nat, s': State)
    requires r in s.readers
  {
    || s' == HeadRead(s, r)
    || (c in s.consumers && s.consumers[c].ht == s.readers[r].ht
        && s' == HeadRead(s, r).(consumers := s.consumers[c := s.consumers[c].(head := Some(Head(s.db, s.readers[r].ht)))]))
  }

  ghost predicate ToCursor(s: State, r: nat, p: Pid, s': State)
    requires r in s.readers
  {
    var k, h := (MvWorker(p), s.readers[r].ht), Head(s.db, s.readers[r].ht);
    if k in s.db.cursors then s' == HeadRead(s, r)
    else s' == HeadRead(s, r).(db := s.db.(cursors := s.db.cursors[k := h]),
                               hist := HeadRead(s, r).hist.(mvInit := s.hist.mvInit[p := h]))
  }

  /** What a head read changes besides: the head is handed to whoever asked, and a
      first registration stores it as the cursor. */
  ghost predicate HeadDelivered(s: State, r: nat, s': State)
    requires r in s.readers
  {
    match s.readers[r].purpose
    case ForReplica(x) => ToReplica(s, r, x, s')
    case ForConsumer(c) => ToConsumer(s, r, c, s')
    case Register(p) => ToCursor(s, r, p, s')
  }

  lemma ReadForReplica(s: State, r: nat, x: nat)
    requires FeedEnabled(s, FeedRead(r)) && s.readers[r].purpose == ForReplica(x)
    ensures ToReplica(s, r, x, FeedNext(s, FeedRead(r)))
  {
  }

  lemma ReadForConsumer(s: State, r: nat, c: nat)
    requires FeedEnabled(s, FeedRead(r)) && s.readers[r].purpose == ForConsumer(c)
    ensures ToConsumer(s, r, c, FeedNext(s, FeedRead(r)))
  {
  }

  lemma ReadForCursor(s: State, r: nat, p: Pid)
    requires FeedEnabled(s, FeedRead(r)) && s.readers[r].purpose == Register(p)
    ensures ToCursor(s, r, p, FeedNext(s, FeedRead(r)))
  {
  }

  lemma FeedReadFrame(s: State, r: nat)
    requires FeedEnabled(s, FeedRead(r))
    ensures HeadDelivered(s, r, FeedNext(s, FeedRead(r)))
  {
    match s.readers[r].purpose
    case ForReplica(x) => ReadForReplica(s, r, x);
    case ForConsumer(c) => ReadForConsumer(s, r, c);
    case Register(p) => ReadForCursor(s, r, p);
  }

  lemma QuietFeedFrame(s: State, step: FeedStep)
    requires FeedEnabled(s, step) && !step.FeedRead?
    ensures var s' := FeedNext(s, step);
            s' == s.(db := s.db.(cursors := s'.db.cursors), readers := s'.readers, replicas := s'.replicas, consumers := s'.consumers)
  {
    match step
    case FeedLock(r, ht, purpose) =>
    case FeedAbort(r) =>
    case Subscribe(c, ht, name) =>
    case Page(c, page) =>
    case Persist(c, name) =>
    case PersistHead(c, name) =>
  }

  predicate FeedOnly(s: State, s': State) {
    s' == s.(db := s.db.(cursors := s'.db.cursors), readers := s'.readers, replicas := s'.replicas,
             consumers := s'.consumers,
             hist := s.hist.(heads := s'.hist.heads, mvInit := s'.hist.mvInit))
  }

  lemma ToReplicaFrame(s: State, r: nat, x: nat, s': State)
    requires r in s.readers && ToReplica(s, r, x, s')
    ensures FeedOnly(s, s')
  {
    hide Head; hide HeadOf;
  }

  lemma ToConsumerFrame(s: State, r: nat, c: nat, s': State)
    requires r in s.readers && ToConsumer(s, r, c, s')
    ensures FeedOnly(s, s')
  {
    hide Head; hide HeadOf;
  }

  lemma ToCursorFrame(s: State, r: nat, p: Pid, s': State)
    requires r in s.readers && ToCursor(s, r, p, s')
    ensures FeedOnly(s, s')
  {
    hide Head; hide HeadOf;
  }

  lemma DeliveredFrame(s: State, r: nat, s': State)
    requires r in s.readers && HeadDelivered(s, r, s')
    ensures FeedOnly(s, s')
  {
    match s.readers[r].purpose
    case ForReplica(x) => ToReplicaFrame(s, r, x, s');
    case ForConsumer(c) => ToConsumerFrame(s, r, c, s');
    case Register(p) => ToCursorFrame(s, r, p, s');
  }

  /** A feed step moves cursors, its readers and consumers, and replicas. */
  lemma FeedFrame(s: State, step: FeedStep)
    requires FeedEnabled(s, step)
    ensures var s' := FeedNext(s, step);
            s' == s.(db := s.db.(cursors := s'.db.cursors), readers := s'.readers, replicas := s'.replicas,
                     consumers := s'.consumers,
                     hist := s.hist.(heads := s'.hist.heads, mvInit := s'.hist.mvInit))
  {
    hide FeedNext; hide IsPage; hide HeadDelivered;
    if step.FeedRead? {
      FeedReadFrame(s, step.reader);
      DeliveredFrame(s, step.reader, FeedNext(s, step));
    } else {
      QuietFeedFrame(s, step);
    }
  }

  lemma LeaseFrame(s: State, step: LeaseStep)
    requires LeaseEnabled(s, step)
    ensures var s' := LeaseNext(s, step);
            s' == s.(db := s.db.(leases := s'.db.leases), acquires := s'.acquires, genSeq := s'.genSeq,
                     hist := s.hist.(tenancies := s'.hist.tenancies))
  {
  }

  lemma MvAdvanceFrame(s: State, r: nat)
    requires MvEnabled(s, MvAdvance(r))
    ensures var s' := MvNext(s, MvAdvance(r)); s' == s.(db := s.db.(cursors := s'.db.cursors), replicas := s'.replicas)
  {
    hide IsPage; hide SetCursor; hide Reconcile;
  }

  lemma MvStartFrame(s: State, step: MvStep)
    requires MvEnabled(s, step) && step.MvStart?
    ensures var s' := MvNext(s, step); s' == s.(replicas := s'.replicas)
  {
    hide IsPage; hide SetCursor; hide Reconcile;
  }

  lemma MvPageFrame(s: State, step: MvStep)
    requires MvEnabled(s, step) && step.MvPage?
    ensures var s' := MvNext(s, step); s' == s.(replicas := s'.replicas)
  {
    hide IsPage; hide SetCursor; hide Reconcile;
  }

  lemma MvSkipFrame(s: State, step: MvStep)
    requires MvEnabled(s, step) && step.MvSkip?
    ensures var s' := MvNext(s, step); s' == s.(replicas := s'.replicas)
  {
    hide IsPage; hide SetCursor; hide Reconcile;
  }

  lemma MvCheckCursorFrame(s: State, step: MvStep)
    requires MvEnabled(s, step) && step.MvCheckCursor?
    ensures var s' := MvNext(s, step); s' == s.(replicas := s'.replicas)
  {
    hide IsPage; hide SetCursor; hide Reconcile;
  }

  lemma MvCheckOperationFrame(s: State, step: MvStep)
    requires MvEnabled(s, step) && step.MvCheckOperation?
    ensures var s' := MvNext(s, step); s' == s.(replicas := s'.replicas)
  {
    hide Reconcile;
    var x := s.replicas[step.replica];
    var prior := Reconcile(s.db, EventIdentity(x.pipeline, s.cfg.pipelines[x.pipeline], x.event));
  }

  lemma MvCrashFrame(s: State, step: MvStep)
    requires MvEnabled(s, step) && step.MvCrash?
    ensures var s' := MvNext(s, step); s' == s.(replicas := s'.replicas)
  {
    hide IsPage; hide SetCursor; hide Reconcile;
  }

  lemma MvQuietFrame(s: State, step: MvStep)
    requires MvEnabled(s, step) && !step.MvAdvance?
    ensures var s' := MvNext(s, step); s' == s.(replicas := s'.replicas)
  {
    hide MvNext; hide MvEnabled;
    match step
    case MvStart(r, p) => MvStartFrame(s, step);
    case MvPage(r, page) => MvPageFrame(s, step);
    case MvSkip(r) => MvSkipFrame(s, step);
    case MvCheckCursor(r) => MvCheckCursorFrame(s, step);
    case MvCheckOperation(r) => MvCheckOperationFrame(s, step);
    case MvCrash(r) => MvCrashFrame(s, step);
  }

  lemma MvFrame(s: State, step: MvStep)
    requires MvEnabled(s, step)
    ensures var s' := MvNext(s, step);
            && s' == s.(db := s.db.(cursors := s'.db.cursors), replicas := s'.replicas)
            && (!step.MvAdvance? ==> s'.db.cursors == s.db.cursors)
  {
    hide MvNext; hide MvEnabled;
    if step.MvAdvance? { MvAdvanceFrame(s, step.replica); } else { MvQuietFrame(s, step); }
  }

  lemma IngestFrame(s: State, step: IngestStep)
    requires IngestEnabled(s, step)
    ensures var s' := IngestNext(s, step);
            s' == s.(ingesters := s'.ingesters, kafka := s'.kafka)
  {
  }

  lemma ObjectFrame(s: State, step: ObjectStep)
    requires ObjectEnabled(s, step)
    ensures var s' := ObjectNext(s, step);
            s' == s.(db := s.db.(pending := s'.db.pending), content := s'.content, store := s'.store,
                     registered := s'.registered)
  {
  }

  lemma GcFrame(s: State, step: GcStep)
    requires GcEnabled(s, step)
    ensures var s' := GcNext(s, step);
            s' == s.(db := s.db.(parts := s'.db.parts, pending := s'.db.pending), gcs := s'.gcs, store := s'.store,
                     hist := s.hist.(reaped := s'.hist.reaped, swept := s'.hist.swept))
  {
    hide Reapable; hide Orphaned;
  }
}
