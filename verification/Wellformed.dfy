/** What every step keeps about the commit, part and transaction tables. */
module Wellformed {
  import opened Base
  import opened Rows
  import opened Tables
  import opened Machine
  import opened Frames

  /** Commit ids come from the sequence; the unique index and the keyed rows name
      each other. */
  predicate CommitsOk(s: State) {
    && 0 < s.commitSeq
    && (forall c :: c in s.db.commits ==> 0 < c < s.commitSeq)
    && (forall k :: k in s.db.keyIndex ==>
          && s.db.keyIndex[k] in s.db.commits
          && s.db.commits[s.db.keyIndex[k]].ht == k.0
          && s.db.commits[s.db.keyIndex[k]].key == Some(k.1))
    && (forall c :: c in s.db.commits && s.db.commits[c].key.Some? ==>
          && (s.db.commits[c].ht, s.db.commits[c].key.value) in s.db.keyIndex
          && s.db.keyIndex[(s.db.commits[c].ht, s.db.commits[c].key.value)] == c)
  }

  /** A part is created and deleted by commits of its own hypertable, in that order. */
  predicate PartsOk(s: State) {
    forall p :: p in s.db.parts ==>
      var x := s.db.parts[p];
      && p < s.db.nextPart
      && x.createdBy in s.db.commits && s.db.commits[x.createdBy].ht == x.ht
      && (x.deletedBy.Some? ==>
            && x.deletedBy.value in s.db.commits && s.db.commits[x.deletedBy.value].ht == x.ht
            && x.createdBy < x.deletedBy.value)
  }

  /** A drawn id is unused and unshared, and above the id of every commit whose parts
      the transaction names: those were read before the id was drawn. */
  predicate TxnsOk(s: State) {
    && (forall t :: t in s.txns ==>
          var x := s.txns[t];
          && t < s.nextTxn
          && (x.req.ident.Some? ==> x.req.ident.value.ht == x.req.ht)
          && (x.phase.Allocated? ==> 0 < x.phase.id < s.commitSeq && x.phase.id !in s.db.commits)
          && (forall i :: i in Inputs(x.req.op) ==>
                i in s.db.parts && (x.phase.Allocated? ==> s.db.parts[i].createdBy < x.phase.id)))
    && (forall t, u :: t in s.txns && u in s.txns && t != u ==>
          !(s.txns[t].phase.Allocated? && s.txns[t].phase == s.txns[u].phase))
  }

  /** A reaper only ever holds a tombstoned part. */
  predicate ReapersOk(s: State) {
    forall g :: g in s.gcs && (s.gcs[g].GReap? || s.gcs[g].GReaped?) ==>
      s.gcs[g].part in s.db.parts && s.db.parts[s.gcs[g].part].deletedBy.Some?
  }

  predicate Wf(s: State) {
    CommitsOk(s) && PartsOk(s) && TxnsOk(s) && ReapersOk(s)
  }

  // ---------------------------------------------------------------- one transaction body

  /** What a body that commits leaves in each table. */
  lemma BodyCommits(db: Db, c: CommitId, ht: Ht, op: Op, id: Option<Identity>, ranges: seq<OffsetRange>, at: nat)
    requires Body(db, c, ht, op, id, ranges, at).0.Committed?
    ensures var db' := Body(db, c, ht, op, id, ranges, at).1;
            && Body(db, c, ht, op, id, ranges, at).0 == Committed(c)
            && (id.Some? ==> Reconcile(db, id.value) == Ok(None))
            && db'.commits == db.commits[c := CommitRow(ht, KindOf(op),
                                           if id.Some? then Some(id.value.key) else None,
                                           if id.Some? then id.value.fp else None, at)]
            && db'.keyIndex == (if id.Some? then db.keyIndex[(ht, id.value.key) := c] else db.keyIndex)
            && db'.leases == db.leases && db'.cursors == db.cursors
            && db'.nextPart == db.nextPart + |Outputs(op)|
            && db'.pending == db.pending - Paths(Outputs(op))
            && AdvanceOffsets(db.offsets, ht, ranges) == Ok(db'.offsets)
            && db'.parts == PartsAfter(db, c, ht, op)
    ensures AllLive(db.parts, ht, Inputs(op))
  {
    var db1 := InsertCommit(db, c, ht, KindOf(op), id, at);
    OpApplies(db1, ht, c, op);
    assert db1.parts == db.parts && db1.nextPart == db.nextPart && db1.pending == db.pending && db1.offsets == db.offsets;
    PartsAfterSame(db1, db, c, ht, op);
  }

  predicate AllLive(parts: map<PartId, Part>, ht: Ht, ids: seq<PartId>) {
    && Distinct(ids)
    && forall i :: i in ids ==> i in parts && parts[i].ht == ht && Live(parts[i])
  }

  lemma PartsAfterSame(a: Db, b: Db, c: CommitId, ht: Ht, op: Op)
    requires a.parts == b.parts && a.nextPart == b.nextPart
    ensures PartsAfter(a, c, ht, op) == PartsAfter(b, c, ht, op)
  {
  }

  lemma TombstoneApplies(db: Db, ht: Ht, c: CommitId, ids: seq<PartId>)
    requires TombstoneParts(db, ht, c, ids).Ok?
    ensures AllLive(db.parts, ht, ids)
    ensures TombstoneParts(db, ht, c, ids).value == db.(parts := Tombstone(db.parts, Elements(ids), c))
  {
    MatchedAll(db.parts, ht, ids);
    hide Matched; hide Tombstone;
  }

  /** An operation that applies tombstones all its inputs and appends its outputs. */
  lemma OpApplies(db: Db, ht: Ht, c: CommitId, op: Op)
    requires ApplyOp(db, ht, c, op).Ok?
    ensures AllLive(db.parts, ht, Inputs(op))
    ensures ApplyOp(db, ht, c, op).value
            == db.(parts := PartsAfter(db, c, ht, op), nextPart := db.nextPart + |Outputs(op)|,
                   pending := db.pending - Paths(Outputs(op)))
  {
    match op {
      case Add(outputs) => NoTombstone(db.parts, c); assert Inputs(op) == []; NothingLive(db.parts, ht);
      case Replace(inputs, outputs) => TombstoneApplies(db, ht, c, inputs);
      case Delete(inputs) => TombstoneApplies(db, ht, c, inputs); NoNewParts(db, ht, c); assert Outputs(op) == [];
    }
  }

  lemma NoTombstone(parts: map<PartId, Part>, c: CommitId)
    ensures Tombstone(parts, Elements([]), c) == parts
  {
  }

  lemma NothingLive(parts: map<PartId, Part>, ht: Ht)
    ensures AllLive(parts, ht, [])
  {
  }

  lemma NoNewParts(db: Db, ht: Ht, c: CommitId)
    ensures forall parts: map<PartId, Part> :: parts + NewParts(db.nextPart, c, ht, []) == parts
    ensures db.pending - Paths([]) == db.pending
  {
  }

  /** The parts table after a committed operation. */
  function PartsAfter(db: Db, c: CommitId, ht: Ht, op: Op): map<PartId, Part> {
    Tombstone(db.parts, Elements(Inputs(op)), c) + NewParts(db.nextPart, c, ht, Outputs(op))
  }

  /** The parts table after a committed operation, row by row. */
  lemma PartsAfterRows(db: Db, c: CommitId, ht: Ht, op: Op)
    requires forall p :: p in db.parts ==> p < db.nextPart
    ensures var parts, n := PartsAfter(db, c, ht, op), db.nextPart;
            && (forall p :: p in parts ==> p in db.parts || n <= p < n + |Outputs(op)|)
            && (forall p :: p in db.parts ==>
                  p in parts
                  && parts[p] == (if p in Inputs(op) then db.parts[p].(deletedBy := Some(c)) else db.parts[p]))
            && (forall p :: p in parts && n <= p ==>
                  p < n + |Outputs(op)| && parts[p] == Part(ht, Outputs(op)[p - n], c, None, false))
            && (forall i :: n <= i < n + |Outputs(op)| ==> i in parts)
  {
    hide Inputs; hide Outputs;
  }

  /** Anything but a commit leaves the tables alone. */
  lemma BodyDeclines(db: Db, c: CommitId, ht: Ht, op: Op, id: Option<Identity>, ranges: seq<OffsetRange>, at: nat)
    requires !Body(db, c, ht, op, id, ranges, at).0.Committed?
    ensures Body(db, c, ht, op, id, ranges, at).1 == db
  {
  }

  // ---------------------------------------------------------------- preservation

  lemma WfFrame(s: State, s': State)
    requires Wf(s)
    requires s'.db.commits == s.db.commits && s'.db.keyIndex == s.db.keyIndex && s'.db.parts == s.db.parts
    requires s'.db.nextPart == s.db.nextPart && s'.txns == s.txns && s'.nextTxn == s.nextTxn
    requires s'.commitSeq == s.commitSeq && s'.gcs == s.gcs
    ensures Wf(s')
  {
  }

  lemma AnswerKeeps(s: State, t: nat, ok: bool)
    requires Wf(s) && t in s.txns
    ensures Wf(Answer(s, t, ok))
  {
    hide AnswerReplica; hide AnswerIngester;
  }

  lemma BeginKeeps(s: State, t: nat, req: Request)
    requires Wf(s) && TxnEnabled(s, Begin(t, req))
    ensures Wf(TxnNext(s, Begin(t, req)))
  {
    hide ClientOk; hide TxnNext; hide Paths;
    BeginFrame(s, t, req);
  }

  lemma AllocKeeps(s: State, t: nat)
    requires Wf(s) && TxnEnabled(s, Alloc(t))
    ensures Wf(TxnNext(s, Alloc(t)))
  {
    AllocFrame(s, t);
  }

  lemma AdvanceKeeps(s: State, t: nat, x: Txn, s': State)
    requires Wf(s) && t in s.txns && Advances(s, t, x, s') && s'.commitSeq == s.commitSeq
    requires !x.phase.Allocated? && !s.txns[t].phase.Allocated?
    ensures Wf(s')
  {
  }

  lemma TxnKeeps(s: State, step: TxnStep)
    requires Wf(s) && TxnEnabled(s, step) && !step.Finish?
    ensures Wf(TxnNext(s, step))
  {
    hide TxnNext; hide Answer; hide Reconcile; hide Fence; hide RequestOk; hide ClientOk; hide LeaseRowLocked;
    hide Wf; hide Advances;
    match step {
      case Begin(t, req) => BeginKeeps(s, t, req);
      case Lookup(t, ack) =>
        LookupFrame(s, t, ack); AnswerKeeps(s, t, false); AnswerKeeps(s, t, ack);
        var x := s.txns[t].(phase := Looked);
        if Advances(s, t, x, TxnNext(s, step)) && TxnNext(s, step).commitSeq == s.commitSeq {
          AdvanceKeeps(s, t, x, TxnNext(s, step));
        }
      case Check(t) =>
        CheckFrame(s, t); AnswerKeeps(s, t, false);
        var x := s.txns[t].(phase := Fenced, fencedAt := Some(s.now));
        if Advances(s, t, x, TxnNext(s, step)) && TxnNext(s, step).commitSeq == s.commitSeq {
          AdvanceKeeps(s, t, x, TxnNext(s, step));
        }
      case Alloc(t) => AllocKeeps(s, t);
      case Rollback(t) => RollbackFrame(s, t); AnswerKeeps(s, t, false);
    }
  }

  /** What a committing finish leaves of the tables this module is about. */
  ghost predicate CommitEffect(s: State, t: nat, s': State) {
    && t in s.txns && s.txns[t].phase.Allocated?
    && var x := s.txns[t];
       && (x.req.ident.Some? ==> Reconcile(s.db, x.req.ident.value) == Ok(None))
       && s'.db.commits == s.db.commits[x.phase.id := CommitRow(x.req.ht, KindOf(x.req.op),
                                if x.req.ident.Some? then Some(x.req.ident.value.key) else None,
                                if x.req.ident.Some? then x.req.ident.value.fp else None, x.startedAt)]
       && s'.db.keyIndex == (if x.req.ident.Some? then s.db.keyIndex[(x.req.ht, x.req.ident.value.key) := x.phase.id]
                             else s.db.keyIndex)
       && s'.db.leases == s.db.leases && s'.db.cursors == s.db.cursors
       && s'.db.nextPart == s.db.nextPart + |Outputs(x.req.op)|
       && s'.db.pending == s.db.pending - Paths(Outputs(x.req.op))
       && AdvanceOffsets(s.db.offsets, x.req.ht, x.req.ranges) == Ok(s'.db.offsets)
       && s'.db.parts == PartsAfter(s.db, x.phase.id, x.req.ht, x.req.op)
       && AllLive(s.db.parts, x.req.ht, Inputs(x.req.op))
       && s'.hist == Record(s, x.req)
       && s' == s.(db := s'.db, hist := s'.hist, txns := s.txns - {t}, replicas := s'.replicas, ingesters := s'.ingesters)
  }

  /** A finish either commits, or leaves tables and history alone. */
  lemma FinishCases(s: State, t: nat, ack: bool)
    requires TxnEnabled(s, Finish(t, ack))
    ensures var s' := TxnNext(s, Finish(t, ack));
            if BodyOf(s, t).0.Committed? then CommitEffect(s, t, s') else s' == Answer(s, t, ack && Landed(BodyOf(s, t).0))
  {
    var x := s.txns[t];
    FinishFrame(s, t, ack);
    if BodyOf(s, t).0.Committed? {
      BodyCommits(s.db, x.phase.id, x.req.ht, x.req.op, x.req.ident, x.req.ranges, x.startedAt);
    } else {
      BodyDeclines(s.db, x.phase.id, x.req.ht, x.req.op, x.req.ident, x.req.ranges, x.startedAt);
    }
  }

  lemma CommitKeepsCommits(s: State, t: nat, s': State)
    requires CommitsOk(s) && TxnsOk(s) && CommitEffect(s, t, s')
    ensures CommitsOk(s')
  {
    hide PartsAfter; hide AllLive; hide Record; hide AdvanceOffsets; hide Paths; hide Inputs; hide Outputs;
  }

  lemma CommitKeepsParts(s: State, t: nat, s': State)
    requires TxnsOk(s) && PartsOk(s) && CommitEffect(s, t, s')
    ensures PartsOk(s')
  {
    hide Record; hide PartsAfter;
    var x := s.txns[t];
    PartsAfterRows(s.db, x.phase.id, x.req.ht, x.req.op);
    forall p | p in s'.db.parts
      ensures var y := s'.db.parts[p];
              && p < s'.db.nextPart
              && y.createdBy in s'.db.commits && s'.db.commits[y.createdBy].ht == y.ht
              && (y.deletedBy.Some? ==>
                    && y.deletedBy.value in s'.db.commits && s'.db.commits[y.deletedBy.value].ht == y.ht
                    && y.createdBy < y.deletedBy.value)
    {
      if p in s.db.parts && p in Inputs(x.req.op) {
        InputIsLive(s, t, s', p);
      }
    }
  }

  lemma InputIsLive(s: State, t: nat, s': State, p: PartId)
    requires TxnsOk(s) && CommitEffect(s, t, s') && p in Inputs(s.txns[t].req.op)
    ensures p in s.db.parts && s.db.parts[p].ht == s.txns[t].req.ht && Live(s.db.parts[p])
    ensures s.db.parts[p].createdBy < s.txns[t].phase.id
  {
  }

  lemma CommitKeepsTxns(s: State, t: nat, s': State)
    requires TxnsOk(s) && CommitEffect(s, t, s') && PartsOk(s)
    ensures TxnsOk(s')
  {
    hide Record; hide PartsAfter;
    assert forall p :: p in s.db.parts ==> p in s'.db.parts && s'.db.parts[p].createdBy == s.db.parts[p].createdBy by {
      PartsAfterRows(s.db, s.txns[t].phase.id, s.txns[t].req.ht, s.txns[t].req.op);
    }
  }

  lemma CommitKeepsReapers(s: State, t: nat, s': State)
    requires ReapersOk(s) && CommitEffect(s, t, s') && PartsOk(s)
    ensures ReapersOk(s')
  {
    hide AllLive;
    PartsAfterRows(s.db, s.txns[t].phase.id, s.txns[t].req.ht, s.txns[t].req.op);
  }

  lemma FinishKeeps(s: State, t: nat, ack: bool)
    requires Wf(s) && TxnEnabled(s, Finish(t, ack))
    ensures Wf(TxnNext(s, Finish(t, ack)))
  {
    var s' := TxnNext(s, Finish(t, ack));
    FinishCases(s, t, ack);
    if BodyOf(s, t).0.Committed? {
      CommitKeepsCommits(s, t, s');
      CommitKeepsParts(s, t, s');
      CommitKeepsTxns(s, t, s');
      CommitKeepsReapers(s, t, s');
    } else {
      AnswerKeeps(s, t, ack && Landed(BodyOf(s, t).0));
    }
  }

  lemma ReapMarkKeeps(s: State, g: nat)
    requires Wf(s) && GcEnabled(s, ReapMark(g))
    ensures Wf(GcNext(s, ReapMark(g)))
  {
    hide Orphaned; hide Reapable; hide CommitsOk;
    assert CommitsOk(GcNext(s, ReapMark(g))) by { CommitsFrame(s, GcNext(s, ReapMark(g))); }
  }

  lemma CommitsFrame(s: State, s': State)
    requires CommitsOk(s) && s'.db.commits == s.db.commits && s'.db.keyIndex == s.db.keyIndex && s'.commitSeq == s.commitSeq
    ensures CommitsOk(s')
  {
  }

  lemma GcKeeps(s: State, step: GcStep)
    requires Wf(s) && GcEnabled(s, step)
    ensures Wf(GcNext(s, step))
  {
    if step.ReapMark? {
      ReapMarkKeeps(s, step.gc);
    } else {
      var s' := GcNext(s, step);
      GcFrame(s, step);
      assert s'.db.parts == s.db.parts;
      assert CommitsOk(s') by { CommitsFrame(s, s'); }
      assert PartsOk(s') && TxnsOk(s') by { PartsAndTxnsFrame(s, s'); }
    }
  }

  lemma PartsAndTxnsFrame(s: State, s': State)
    requires PartsOk(s) && TxnsOk(s)
    requires s'.db.commits == s.db.commits && s'.db.parts == s.db.parts && s'.db.nextPart == s.db.nextPart
    requires s'.txns == s.txns && s'.nextTxn == s.nextTxn && s'.commitSeq == s.commitSeq
    ensures PartsOk(s') && TxnsOk(s')
  {
  }

  lemma OthersKeep(s: State, step: Step)
    requires Wf(s) && Enabled(s, step) && (step.FeedS? || step.LeaseS? || step.MvS? || step.IngestS? || step.ObjectS? || step.Tick?)
    ensures Wf(Next(s, step))
  {
    hide GcEnabled; hide GcNext; hide Wf;
    match step {
      case FeedS(f) => FeedFrame(s, f);
      case LeaseS(l) => LeaseFrame(s, l);
      case MvS(m) => MvFrame(s, m);
      case IngestS(i) => IngestFrame(s, i);
      case ObjectS(o) => ObjectFrame(s, o);
      case Tick =>
    }
    WfFrame(s, Next(s, step));
  }

  lemma Keeps(s: State, step: Step)
    requires Wf(s) && Enabled(s, step)
    ensures Wf(Next(s, step))
  {
    match step {
      case TxnS(t) => if t.Finish? { FinishKeeps(s, t.txn, t.ack); } else { TxnKeeps(s, t); }
      case GcS(g) => GcKeeps(s, g);
      case _ => OthersKeep(s, step);
    }
  }
}
