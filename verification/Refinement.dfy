/** The catalog program and the step machine agree: a commit that nobody interrupts is
    the machine's steps one after the other. */
module Refinement {
  import opened Base
  import opened Rows
  import opened Tables
  import opened Machine
  import opened Frames
  import opened Meaning
  import opened Catalog
  import opened Workers

  /** The steps left of a transaction that holds its clearance: draw an id, finish. */
  lemma DrawAndFinish(s: State, t: nat)
    requires TxnEnabled(s, Alloc(t))
    ensures var s1 := TxnNext(s, Alloc(t));
            && TxnEnabled(s1, Finish(t, true))
            && var x, s2 := s.txns[t], TxnNext(s1, Finish(t, true));
               && (BodyOf(s1, t).0, s2.db) == Body(s.db, s.commitSeq, x.req.ht, x.req.op, x.req.ident, x.req.ranges, x.startedAt)
               && s2.commitSeq == s.commitSeq + 1
  {
    hide Record;
    AllocFrame(s, t);
    FinishFrame(TxnNext(s, Alloc(t)), t, true);
  }

  /** An unleased commit: begin, draw, finish. */
  lemma UnleasedCommitRefines(s: State, req: Request)
    requires TxnEnabled(s, Begin(s.nextTxn, req)) && req.lease.None?
    ensures var t := s.nextTxn;
            var s1 := TxnNext(s, Begin(t, req));
            && TxnEnabled(s1, Alloc(t))
            && var s2 := TxnNext(s1, Alloc(t));
               && TxnEnabled(s2, Finish(t, true))
               && var s3, spec := TxnNext(s2, Finish(t, true)),
                                  CommitWhole(s.db, s.commitSeq, s.now, req.ht, req.op, req.ident, req.ranges, req.lease);
                  BodyOf(s2, t).0 == spec.0 && s3.db == spec.1 && s3.commitSeq == s.commitSeq + 1 && spec.2
  {
    hide Bounds;
    BeginFrame(s, s.nextTxn, req);
    DrawAndFinish(TxnNext(s, Begin(s.nextTxn, req)), s.nextTxn);
  }

  /** How the program's leased commit ends: by a replay or a collision, by a refusal of
      the fence, or with the body. */
  lemma LeasedReplays(s: State, req: Request)
    requires RequestOk(s, req) && req.lease.Some? && Prior(s.db, req.ident) != Ok(None)
    ensures var spec := CommitWhole(s.db, s.commitSeq, s.now, req.ht, req.op, req.ident, req.ranges, req.lease);
            spec.1 == s.db && !spec.2
  {
    hide Reconcile; hide Fence; hide Body;
  }

  lemma LeasedRefused(s: State, req: Request)
    requires RequestOk(s, req) && req.lease.Some? && Prior(s.db, req.ident) == Ok(None)
    requires Fence(s.db, s.now, req.ht, req.lease.value, req.op).Some?
    ensures var spec := CommitWhole(s.db, s.commitSeq, s.now, req.ht, req.op, req.ident, req.ranges, req.lease);
            spec.0.Failed? && spec.1 == s.db && !spec.2
  {
    hide Prior; hide Fence; hide Body;
  }

  lemma LeasedRuns(s: State, req: Request)
    requires RequestOk(s, req) && req.lease.Some? && Prior(s.db, req.ident) == Ok(None)
    requires Fence(s.db, s.now, req.ht, req.lease.value, req.op).None?
    ensures var spec := CommitWhole(s.db, s.commitSeq, s.now, req.ht, req.op, req.ident, req.ranges, req.lease);
            var body := Body(s.db, s.commitSeq, req.ht, req.op, req.ident, req.ranges, s.now);
            spec.0 == body.0 && spec.1 == body.1 && spec.2
  {
    hide Prior; hide Fence; hide Body;
  }

  /** A leased commit: begin, look for a replay, and — if there is none — pass the
      fence, draw, finish. It stops where the program returns. */
  lemma LeasedCommitRefines(s: State, req: Request)
    requires TxnEnabled(s, Begin(s.nextTxn, req)) && req.lease.Some?
    requires !LeaseRowLocked(s, req.lease.value.ht, req.lease.value.partition)
    ensures var t, spec := s.nextTxn, CommitWhole(s.db, s.commitSeq, s.now, req.ht, req.op, req.ident, req.ranges, req.lease);
            var s1 := TxnNext(s, Begin(t, req));
            && TxnEnabled(s1, Lookup(t, true))
            && var s2 := TxnNext(s1, Lookup(t, true));
               if t !in s2.txns then spec.1 == s.db == s2.db && !spec.2
               else
                 && TxnEnabled(s2, Check(t))
                 && var s3 := TxnNext(s2, Check(t));
                    if t !in s3.txns then spec.0.Failed? && spec.1 == s.db == s3.db && !spec.2
                    else
                      && TxnEnabled(s3, Alloc(t))
                      && var s4 := TxnNext(s3, Alloc(t));
                         && TxnEnabled(s4, Finish(t, true))
                         && BodyOf(s4, t).0 == spec.0 && TxnNext(s4, Finish(t, true)).db == spec.1 && spec.2
  {
    hide *;
    var t := s.nextTxn;
    LeasedBegin(s, req);
    BeginFrame(s, t, req);
    var s1 := TxnNext(s, Begin(t, req));
    LookupCases(s1, t);
    var s2 := TxnNext(s1, Lookup(t, true));
    if t in s2.txns {
      StillUnlocked(s, s2, t, req);
      FencedTail(s2, t, req);
      if t in TxnNext(s2, Check(t)).txns { LeasedRuns(s, req); } else { LeasedRefused(s, req); }
    } else {
      LeasedReplays(s, req);
    }
  }

  lemma LeasedBegin(s: State, req: Request)
    requires TxnEnabled(s, Begin(s.nextTxn, req)) && req.lease.Some?
    ensures RequestOk(s, req) && TxnEnabled(TxnNext(s, Begin(s.nextTxn, req)), Lookup(s.nextTxn, true))
  {
    hide TxnNext; hide RequestOk; hide ClientOk;
    BeginFrame(s, s.nextTxn, req);
  }

  /** The rest of a leased commit that found no replay. */
  lemma FencedTail(s: State, t: nat, req: Request)
    requires t in s.txns && s.txns[t] == Txn(req, s.now, None, Looked) && req.lease.Some?
    requires !LeaseRowLocked(s, req.lease.value.ht, req.lease.value.partition)
    ensures TxnEnabled(s, Check(t))
    ensures var s' := TxnNext(s, Check(t));
            && s'.db == s.db && (t in s'.txns <==> Fence(s.db, s.now, req.ht, req.lease.value, req.op).None?)
            && (t in s'.txns ==>
                  && TxnEnabled(s', Alloc(t))
                  && var s2 := TxnNext(s', Alloc(t));
                     && TxnEnabled(s2, Finish(t, true))
                     && (BodyOf(s2, t).0, TxnNext(s2, Finish(t, true)).db)
                        == Body(s.db, s.commitSeq, req.ht, req.op, req.ident, req.ranges, s.now))
  {
    hide TxnNext; hide LeaseRowLocked; hide Body; hide BodyOf; hide Fence; hide Answer;
    CheckCases(s, t);
    if t in TxnNext(s, Check(t)).txns { DrawAndFinish(TxnNext(s, Check(t)), t); }
  }

  lemma LookupIs(s: State, t: nat)
    requires TxnEnabled(s, Lookup(t, true))
    ensures t in s.txns
    ensures var x := s.txns[t];
            var prior := Prior(s.db, x.req.ident);
            TxnNext(s, Lookup(t, true))
            == if prior.Err? then Answer(s, t, false)
               else if prior.value.Some? then Answer(s, t, true)
               else s.(txns := s.txns[t := x.(phase := Looked)])
  {
  }

  lemma CheckIs(s: State, t: nat)
    requires TxnEnabled(s, Check(t))
    ensures var x := s.txns[t];
            TxnNext(s, Check(t))
            == if Fence(s.db, s.now, x.req.ht, x.req.lease.value, x.req.op).Some? then Answer(s, t, false)
               else s.(txns := s.txns[t := x.(phase := Fenced, fencedAt := Some(s.now))])
  {
  }

  lemma Gone(s: State, t: nat, ok: bool)
    requires t in s.txns
    ensures t !in Answer(s, t, ok).txns && Answer(s, t, ok).db == s.db
  {
    hide AnswerReplica; hide AnswerIngester;
  }

  lemma LookupCases(s: State, t: nat)
    requires TxnEnabled(s, Lookup(t, true))
    ensures var s', x := TxnNext(s, Lookup(t, true)), s.txns[t];
            var prior := Prior(s.db, x.req.ident);
            && s'.db == s.db
            && (t in s'.txns <==> prior == Ok(None))
            && (t in s'.txns ==> s' == s.(txns := s.txns[t := x.(phase := Looked)]))
  {
    hide *;
    LookupIs(s, t);
    Gone(s, t, false);
    Gone(s, t, true);
  }

  lemma CheckCases(s: State, t: nat)
    requires TxnEnabled(s, Check(t))
    ensures var s', x := TxnNext(s, Check(t)), s.txns[t];
            && s'.db == s.db
            && (t in s'.txns <==> Fence(s.db, s.now, x.req.ht, x.req.lease.value, x.req.op).None?)
            && (t in s'.txns ==> s' == s.(txns := s.txns[t := x.(phase := Fenced, fencedAt := Some(s.now))]))
  {
    hide LeaseRowLocked;
    CheckIs(s, t);
    Gone(s, t, false);
  }

  lemma StillUnlocked(s: State, s': State, t: nat, req: Request)
    requires req.lease.Some? && !LeaseRowLocked(s, req.lease.value.ht, req.lease.value.partition)
    requires s'.txns == s.txns[t := Txn(req, s.now, None, Looked)]
    ensures !LeaseRowLocked(s', req.lease.value.ht, req.lease.value.partition)
  {
  }

  // ---------------------------------------------------------------- leases

  /** An acquire of the program is a draw and an installation: one generation drawn, and the
      row taken exactly when it is free, expired or the owner's own. */
  lemma AcquireRefines(s: State, a: nat, ht: Ht, partition: Partition, owner: Owner, ttl: nat)
    requires a !in s.acquires && ttl > 0 && !LeaseRowLocked(s, ht, partition)
    ensures var k := (ht, partition);
            && LeaseEnabled(s, Draw(a, ht, partition, owner, ttl))
            && var s1 := LeaseNext(s, Draw(a, ht, partition, owner, ttl));
               && LeaseEnabled(s1, Install(a))
               && var s2 := LeaseNext(s1, Install(a));
                  && s2.genSeq == s.genSeq + 1
                  && s2.db.leases == if k in s.db.leases && s.now < s.db.leases[k].expiresAt && s.db.leases[k].owner != owner then s.db.leases
                                     else s.db.leases[k := LeaseRow(owner, if k in s.db.leases && s.now < s.db.leases[k].expiresAt
                                                                           then s.db.leases[k].generation else s.genSeq, s.now + ttl)]
  {
    hide InstallLease; hide RenewLease; hide ReleaseLease;
    var s1 := LeaseNext(s, Draw(a, ht, partition, owner, ttl));
    SameLock(s, s1, ht, partition);
    hide LeaseRowLocked;
    InstallMeans(s.db.leases, s.now, ht, partition, owner, s.genSeq, ttl);
    var out := InstallLease(s.db.leases, s.now, ht, partition, owner, s.genSeq, ttl);
    assert LeaseNext(s1, Install(a)).db.leases == out.1;
  }

  lemma SameLock(s: State, s': State, ht: Ht, partition: Partition)
    requires s'.txns == s.txns
    ensures LeaseRowLocked(s', ht, partition) <==> LeaseRowLocked(s, ht, partition)
  {
  }

  // ---------------------------------------------------------------- the collector

  /** One turn of the reaping loop is a fetch, a delete and a mark, for every part that is
      due and only for those. */
  lemma ReapRefines(s: State, g: nat, ht: Ht, p: PartId)
    requires g in s.gcs ==> s.gcs[g].GIdle?
    ensures GcEnabled(s, ReapFetch(g, ht, p)) <==> Due(s.db, s.now, s.cfg.tombstoneGrace, ht, p)
    ensures Due(s.db, s.now, s.cfg.tombstoneGrace, ht, p) ==>
              var s1 := GcNext(s, ReapFetch(g, ht, p));
              && GcEnabled(s1, ReapDelete(g))
              && var s2 := GcNext(s1, ReapDelete(g));
                 && s2.store == s.store - {s.db.parts[p].meta.path} && s2.db == s.db
                 && GcEnabled(s2, ReapMark(g))
                 && GcNext(s2, ReapMark(g)).db == s.db.(parts := s.db.parts[p := s.db.parts[p].(purged := true)])
                 && GcNext(s2, ReapMark(g)).store == s2.store
  {
    ReapableMeans(s.db, s.now, s.cfg.tombstoneGrace, ht, p);
    hide Reapable; hide PastGrace; hide BehindCursors; hide Orphaned;
  }

  /** One turn of the sweeping loop is a fetch, a delete and a clear, for every intent at
      least the grace old and only for those. */
  lemma SweepRefines(s: State, g: nat, x: Path)
    requires g in s.gcs ==> s.gcs[g].GIdle?
    ensures GcEnabled(s, SweepFetch(g, x)) <==> x in s.db.pending && s.db.pending[x].createdAt + s.cfg.orphanGrace <= s.now
    ensures GcEnabled(s, SweepFetch(g, x)) ==>
              var s1 := GcNext(s, SweepFetch(g, x));
              && GcEnabled(s1, SweepDelete(g))
              && var s2 := GcNext(s1, SweepDelete(g));
                 && s2.store == s.store - {x} && s2.db == s.db
                 && GcEnabled(s2, SweepClear(g))
                 && GcNext(s2, SweepClear(g)).db == s.db.(pending := s.db.pending - {x})
                 && GcNext(s2, SweepClear(g)).store == s2.store
  {
    hide Reapable;
  }

  // ---------------------------------------------------------------- views

  /** First registration at the barrier stores the head; a later one changes nothing. */
  lemma RegisterRefines(s: State, r: nat, p: Pid)
    requires r !in s.readers && p in s.cfg.pipelines
    requires forall q :: q in s.readers ==> s.readers[q].ht != s.cfg.pipelines[p].source
    requires forall t :: t in s.txns ==> s.txns[t].req.ht != s.cfg.pipelines[p].source
    ensures var ht := s.cfg.pipelines[p].source;
            var k := (MvWorker(p), ht);
            && FeedEnabled(s, FeedLock(r, ht, Register(p)))
            && var s1 := FeedNext(s, FeedLock(r, ht, Register(p)));
               && FeedEnabled(s1, FeedRead(r))
               && var cursors := FeedNext(s1, FeedRead(r)).db.cursors;
                  && k in cursors
                  && (k in s.db.cursors ==> cursors == s.db.cursors)
                  && (k !in s.db.cursors ==> IsHead(s.db, ht, cursors[k]) && cursors == s.db.cursors[k := cursors[k]])
  {
    hide IsPage; hide SetCursor; hide Head; hide IsHead;
    var ht := s.cfg.pipelines[p].source;
    var s1 := FeedNext(s, FeedLock(r, ht, Register(p)));
    assert s1.db == s.db;
    HeadIsHead(s.db, ht);
  }

  lemma HeadIsHead(db: Db, ht: Ht)
    ensures IsHead(db, ht, Head(db, ht))
  {
  }

  /** An attempt at an event that is no ADD skips it and advances the cursor to it. */
  lemma SkipRefines(s: State, r: nat)
    requires r in s.replicas && s.replicas[r].REvent? && s.replicas[r].pipeline in s.cfg.pipelines
    requires s.replicas[r].event in s.db.commits && s.db.commits[s.replicas[r].event].kind != KAdd
    ensures var x := s.replicas[r];
            && MvEnabled(s, MvSkip(r))
            && var s1 := MvNext(s, MvSkip(r));
               && MvEnabled(s1, MvAdvance(r))
               && var s2 := MvNext(s1, MvAdvance(r));
                  && AtLeast(s2.db.cursors, (MvWorker(x.pipeline), s.cfg.pipelines[x.pipeline].source), x.event)
                  && s2.db == s.db.(cursors := s2.db.cursors) && s2.replicas[r] == RIdle
  {
    hide IsPage; hide Reconcile;
  }

  predicate AtLeast(cursors: map<(Worker, Ht), CommitId>, k: (Worker, Ht), c: CommitId) {
    k in cursors && cursors[k] >= c
  }

  /** Where a check leaves an attempt: ready to advance at a published event, to go on at a
      free key, and idle at a taken one. */
  ghost function Checked(db: Db, id: Identity, p: Pid, c: CommitId, e: CommitId): Replica {
    if Published(db, id) then RReady(p, c, e) else if Free(db, id) then REvent(p, c, e) else RIdle
  }

  /** The check by operation key, against the commits themselves. */
  lemma CheckRefines(s: State, r: nat, p: Pid, c: CommitId, e: CommitId)
    requires Indexed(s.db) && r in s.replicas && s.replicas[r] == REvent(p, c, e) && p in s.cfg.pipelines
    ensures MvEnabled(s, MvCheckOperation(r))
    ensures MvNext(s, MvCheckOperation(r)) == s.(replicas := s.replicas[r := Checked(s.db, EventIdentity(p, s.cfg.pipelines[p], e), p, c, e)])
  {
    hide IsPage; hide Reconcile; hide Published; hide Free; hide Collides; hide Indexed;
    ReconcileSays(s.db, EventIdentity(p, s.cfg.pipelines[p], e));
    assert s.replicas[r := s.replicas[r]] == s.replicas;
  }

  /** The files are uploaded under paths of their own that nobody has named, with key
      ranges that bracket their rows. */
  predicate OwnUploads(s: State, outputs: seq<PartMeta>) {
    && (forall m :: m in outputs ==> m.path in s.content && m.path !in s.claimed
                                     && forall r :: r in s.content[m.path] ==> m.keyMin <= r.key <= m.keyMax)
    && (forall i, j :: 0 <= i < j < |outputs| ==> outputs[i].path != outputs[j].path)
  }

  predicate Unlocked(s: State, ht: Ht) {
    s.nextTxn !in s.txns && forall r :: r in s.readers ==> s.readers[r].ht != ht
  }

  /** Any rewrite of parts that exist may be committed under a lease, whatever it came to. */
  lemma MergeMayBegin(s: State, ht: Ht, inputs: seq<PartId>, outputs: seq<PartMeta>, l: Lease, level: nat)
    requires Unlocked(s, ht) && OwnUploads(s, outputs)
    requires inputs != [] && forall i :: i in inputs ==> i in s.db.parts
    requires RewriteOf(InputFiles(s, inputs), Files(s, outputs))
    ensures TxnEnabled(s, Begin(s.nextTxn, Request(ht, Replace(inputs, outputs), Some(Factory(ht, CompactDigest(Elements(inputs), level))),
                                                   [], Some(l), Merger, map[], {}, {})))
  {
    hide RewriteOf; hide Files; hide InputFiles;
  }

  /** The rewritten files of an erasure may be committed. */
  lemma EraserMayBegin(s: State, ht: Ht, k: int, inputs: seq<PartId>, outputs: seq<PartMeta>)
    requires Unlocked(s, ht) && OwnUploads(s, outputs)
    requires inputs != [] && forall i :: i in inputs ==> i in s.db.parts
    requires Files(s, outputs) == KeptFiles(s, inputs, k)
    ensures TxnEnabled(s, Begin(s.nextTxn, Request(ht, Replace(inputs, outputs), Some(Factory(ht, EraseDigest(k, Elements(inputs)))),
                                                   [], None, Eraser(k), map[], {}, {})))
  {
    hide Files; hide KeptFiles;
  }
}
