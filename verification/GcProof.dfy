/** Garbage collection: which objects reaping and sweeping may delete, and why no
    lagging materialized view can miss one. */
module GcProof {
  import opened Base
  import opened Rows
  import opened Tables
  import opened Machine
  import opened Frames
  import opened Wellformed
  import opened FeedProof
  import opened LeaseProof

  // ---------------------------------------------------------------- paths

  ghost predicate Unused(s: State, x: Path) {
    forall p :: p in s.db.parts ==> s.db.parts[p].meta.path != x
  }

  /** Each uploaded file belongs to at most one part or one unfinished request. */
  ghost predicate PathsOk(s: State) {
    && (forall p :: p in s.db.parts ==> s.db.parts[p].meta.path in s.claimed)
    && (forall p, q :: p in s.db.parts && q in s.db.parts && p != q ==> s.db.parts[p].meta.path != s.db.parts[q].meta.path)
    && (forall x :: x in s.claimed ==> x in s.content)
    && (forall x :: x in s.content ==> x in s.registered)
    && (forall x :: x in s.db.pending ==> x in s.registered && Unused(s, x))
    && (forall x :: x in s.store ==> x in s.content)
  }

  ghost predicate TxnPathsOk(s: State) {
    && (forall t, m :: t in s.txns && m in Outputs(s.txns[t].req.op) ==> m.path in s.claimed && Unused(s, m.path))
    && (forall t :: t in s.txns ==> DistinctPaths(Outputs(s.txns[t].req.op)))
    && (forall t, u :: t in s.txns && u in s.txns && t != u ==>
          forall m, n :: m in Outputs(s.txns[t].req.op) && n in Outputs(s.txns[u].req.op) ==> m.path != n.path)
  }

  predicate DistinctPaths(metas: seq<PartMeta>) {
    forall i, j :: 0 <= i < j < |metas| ==> metas[i].path != metas[j].path
  }

  /** A reaper's candidate and a reaped part are tombstoned for good; a reaped part's
      object is gone for good. */
  ghost predicate ReapedOk(s: State) {
    && (forall p :: p in s.hist.reaped ==>
          p in s.db.parts && s.db.parts[p].deletedBy.Some? && s.db.parts[p].meta.path !in s.store)
    && (forall g :: g in s.gcs && s.gcs[g].GReaped? ==> s.gcs[g].part in s.hist.reaped)
    && (forall p :: p in s.db.parts && s.db.parts[p].purged ==> p in s.hist.reaped)
  }

  ghost predicate GcOk(s: State) {
    PathsOk(s) && TxnPathsOk(s) && ReapedOk(s)
  }

  // ---------------------------------------------------------------- intents and owners

  /** The intent is on record and has not reached the grace. */
  ghost predicate Young(s: State, x: Path) {
    x in s.db.pending && s.now < s.db.pending[x].createdAt + s.cfg.orphanGrace
  }

  ghost predicate Owned(s: State, x: Path) {
    exists p :: p in s.db.parts && s.db.parts[p].meta.path == x && !s.db.parts[p].purged
  }

  // ---------------------------------------------------------------- the fence

  /** Every registered view cursor of the part's hypertable has passed its deletion. */
  ghost predicate Passed(s: State, p: PartId) {
    && p in s.db.parts && s.db.parts[p].deletedBy.Some?
    && forall k :: k in s.db.cursors && k.0.MvWorker? && k.1 == s.db.parts[p].ht ==>
         s.db.parts[p].deletedBy.value <= s.db.cursors[k]
  }

  ghost predicate FenceOk(s: State) {
    && (forall g :: g in s.gcs && (s.gcs[g].GReap? || s.gcs[g].GReaped?) ==> Passed(s, s.gcs[g].part))
    && (forall p :: p in s.hist.reaped ==> Passed(s, p))
  }

  // ---------------------------------------------------------------- transactions

  /** The same parts under the same paths. */
  ghost predicate SameMetas(s: State, s': State) {
    && (forall p :: p in s'.db.parts <==> p in s.db.parts)
    && (forall p :: p in s.db.parts ==> s'.db.parts[p].meta == s.db.parts[p].meta)
  }

  lemma UnusedFrame(s: State, s': State, x: Path)
    requires Unused(s, x) && SameMetas(s, s')
    ensures Unused(s', x)
  {
  }

  lemma PathsFrame(s: State, s': State)
    requires PathsOk(s) && SameMetas(s, s') && s.claimed <= s'.claimed <= s'.content.Keys
    requires s'.content == s.content && s'.registered == s.registered && s'.store <= s.store
    requires s'.db.pending.Keys <= s.db.pending.Keys
    ensures PathsOk(s')
  {
    forall x | x in s'.db.pending ensures x in s'.registered && Unused(s', x) { UnusedFrame(s, s', x); }
    hide Unused;
  }

  /** The transactions are among those before. */
  lemma TxnPathsFrame(s: State, s': State)
    requires TxnPathsOk(s) && SameMetas(s, s') && s.claimed <= s'.claimed
    requires forall t :: t in s'.txns ==> t in s.txns && s'.txns[t].req == s.txns[t].req
    ensures TxnPathsOk(s')
  {
    hide Outputs; hide DistinctPaths;
    forall t, m | t in s'.txns && m in Outputs(s'.txns[t].req.op) ensures m.path in s'.claimed && Unused(s', m.path) {
      UnusedFrame(s, s', m.path);
    }
    hide Unused;
  }

  lemma ReapedFrame(s: State, s': State)
    requires ReapedOk(s) && s'.db.parts == s.db.parts && s'.gcs == s.gcs && s'.hist.reaped == s.hist.reaped && s'.store == s.store
    ensures ReapedOk(s')
  {
  }

  lemma BeginKeepsGc(s: State, t: nat, req: Request)
    requires GcOk(s) && TxnEnabled(s, Begin(t, req))
    ensures GcOk(TxnNext(s, Begin(t, req)))
  {
    hide TxnNext; hide ReapedOk;
    var s' := TxnNext(s, Begin(t, req));
    BeginFrame(s, t, req);
    assert s'.claimed <= s'.content.Keys;
    ReapedFrame(s, s');
    PathsFrame(s, s');
    BeginPaths(s, t, req, s');
  }

  lemma BeginPaths(s: State, t: nat, req: Request, s': State)
    requires PathsOk(s) && TxnPathsOk(s) && RequestOk(s, req) && t !in s.txns
    requires s'.txns == s.txns[t := Txn(req, s.now, None, Locked)] && s'.db.parts == s.db.parts
    requires s'.claimed == s.claimed + Paths(Outputs(req.op))
    ensures TxnPathsOk(s')
  {
    assert forall m :: m in Outputs(req.op) ==> m.path in Paths(Outputs(req.op)) && m.path !in s.claimed;
    assert DistinctPaths(Outputs(req.op)) by { DistinctOutputs(s, req); }
    forall u, m | u in s'.txns && m in Outputs(s'.txns[u].req.op) ensures m.path in s'.claimed && Unused(s', m.path) {
      if u != t { UnusedFrame(s, s', m.path); }
    }
  }

  lemma DistinctOutputs(s: State, req: Request)
    requires RequestOk(s, req)
    ensures DistinctPaths(Outputs(req.op))
  {
    hide Outputs; hide Bounds;
  }

  lemma MovesKeepsGc(s: State, step: TxnStep)
    requires GcOk(s) && TxnEnabled(s, step) && !step.Finish? && !step.Begin?
    ensures GcOk(TxnNext(s, step))
  {
    hide TxnNext; hide TxnEnabled; hide PathsOk; hide TxnPathsOk; hide ReapedOk; hide AnswerReplica; hide AnswerIngester;
    var s' := TxnNext(s, step);
    TxnFrame(s, step);
    ClaimedKnown(s);
    PathsFrame(s, s');
    TxnPathsFrame(s, s');
    ReapedFrame(s, s');
  }

  lemma ClaimedKnown(s: State)
    requires PathsOk(s)
    ensures s.claimed <= s.content.Keys
  {
    hide Unused;
  }

  // ---------------------------------------------------------------- commits

  /** Parts before keep their rows' identity; parts after come from the outputs. */
  lemma PartOrigin(s: State, t: nat, s': State, p: PartId)
    requires PartsOk(s) && CommitEffect(s, t, s') && p in s'.db.parts
    ensures if p in s.db.parts then s'.db.parts[p].meta == s.db.parts[p].meta && s'.db.parts[p].ht == s.db.parts[p].ht
            else exists i :: 0 <= i < |Outputs(s.txns[t].req.op)| && i == p - s.db.nextPart
                             && s'.db.parts[p] == Part(s.txns[t].req.ht, Outputs(s.txns[t].req.op)[i], s.txns[t].phase.id, None, false)
  {
    hide PartsAfter;
    PartsAfterRows(s.db, s.txns[t].phase.id, s.txns[t].req.ht, s.txns[t].req.op);
  }

  lemma CommitUnused(s: State, t: nat, s': State, x: Path)
    requires PartsOk(s) && CommitEffect(s, t, s') && Unused(s, x)
    requires forall m :: m in Outputs(s.txns[t].req.op) ==> m.path != x
    ensures Unused(s', x)
  {
    hide CommitEffect; hide Outputs; hide PartsOk;
    forall p | p in s'.db.parts ensures s'.db.parts[p].meta.path != x { PartOrigin(s, t, s', p); }
  }

  lemma CommitKeepsPaths(s: State, t: nat, s': State)
    requires PartsOk(s) && PathsOk(s) && TxnPathsOk(s) && CommitEffect(s, t, s')
    ensures PathsOk(s')
  {
    hide Record; hide PartsAfter;
    var out := Outputs(s.txns[t].req.op);
    assert forall m :: m in out ==> m.path in s.claimed && Unused(s, m.path);
    assert DistinctPaths(out);
    forall p, q | p in s'.db.parts && q in s'.db.parts && p != q
      ensures s'.db.parts[p].meta.path != s'.db.parts[q].meta.path
    {
      PartOrigin(s, t, s', p);
      PartOrigin(s, t, s', q);
    }
    forall p | p in s'.db.parts ensures s'.db.parts[p].meta.path in s'.claimed { PartOrigin(s, t, s', p); }
    forall x | x in s'.db.pending ensures x in s'.registered && Unused(s', x) {
      assert x !in Paths(out);
      CommitUnused(s, t, s', x);
    }
  }

  lemma CommitKeepsTxnPaths(s: State, t: nat, s': State)
    requires PartsOk(s) && TxnPathsOk(s) && CommitEffect(s, t, s')
    ensures TxnPathsOk(s')
  {
    hide CommitEffect; hide DistinctPaths; hide Unused;
    CommitLeaves(s, t, s');
    forall u, m | u in s'.txns && m in Outputs(s'.txns[u].req.op) ensures m.path in s'.claimed && Unused(s', m.path) {
      CommitUnused(s, t, s', m.path);
    }
  }

  /** A commit ends its own transaction and leaves the others. */
  lemma CommitLeaves(s: State, t: nat, s': State)
    requires CommitEffect(s, t, s')
    ensures t in s.txns && s'.txns == s.txns - {t} && s'.claimed == s.claimed
  {
  }

  lemma CommitKeepsReaped(s: State, t: nat, s': State)
    requires PartsOk(s) && ReapedOk(s) && CommitEffect(s, t, s')
    ensures ReapedOk(s')
  {
    CommitPartIdentity(s, t, s');
    RecordHeads(s, s.txns[t].req);
    forall p | p in s'.db.parts && s'.db.parts[p].purged ensures p in s'.hist.reaped { PartOrigin(s, t, s', p); }
  }

  lemma FinishKeepsGc(s: State, t: nat, ack: bool)
    requires Wf(s) && GcOk(s) && TxnEnabled(s, Finish(t, ack))
    ensures GcOk(TxnNext(s, Finish(t, ack)))
  {
    hide PathsOk; hide TxnPathsOk; hide ReapedOk;
    hide AnswerIngester; hide CommitsOk; hide PartsOk; hide TxnsOk; hide ReapersOk;
    var s' := TxnNext(s, Finish(t, ack));
    FinishCases(s, t, ack);
    if BodyOf(s, t).0.Committed? {
      CommitKeepsPaths(s, t, s');
      CommitKeepsTxnPaths(s, t, s');
      CommitKeepsReaped(s, t, s');
    } else {
      ClaimedKnown(s);
      PathsFrame(s, s');
      TxnPathsFrame(s, s');
      ReapedFrame(s, s');
    }
  }

  // ---------------------------------------------------------------- uploads

  lemma RegisterKeepsPaths(s: State, x: Path, ht: Ht)
    requires PathsOk(s) && ObjectEnabled(s, RegisterPath(x, ht))
    ensures PathsOk(ObjectNext(s, RegisterPath(x, ht)))
  {
    var s' := ObjectNext(s, RegisterPath(x, ht));
    assert Unused(s', x);
    forall y | y in s'.db.pending ensures Unused(s', y) { if y != x { UnusedFrame(s, s', y); } }
    hide Unused;
  }

  lemma PutKeepsPaths(s: State, x: Path, rows: seq<Row>)
    requires PathsOk(s) && ObjectEnabled(s, Put(x, rows))
    ensures PathsOk(ObjectNext(s, Put(x, rows)))
  {
    var s' := ObjectNext(s, Put(x, rows));
    forall y | y in s'.db.pending ensures Unused(s', y) { UnusedFrame(s, s', y); }
    hide Unused;
  }

  lemma ObjectKeepsReaped(s: State, step: ObjectStep)
    requires PathsOk(s) && ReapedOk(s) && ObjectEnabled(s, step)
    ensures ReapedOk(ObjectNext(s, step))
  {
    hide Unused;
  }

  lemma ObjectKeepsGc(s: State, step: ObjectStep)
    requires GcOk(s) && ObjectEnabled(s, step)
    ensures GcOk(ObjectNext(s, step))
  {
    hide ReapedOk;
    TxnPathsFrame(s, ObjectNext(s, step));
    ObjectKeepsReaped(s, step);
    match step {
      case RegisterPath(x, ht) => RegisterKeepsPaths(s, x, ht);
      case Put(x, rows) => PutKeepsPaths(s, x, rows);
    }
  }

  // ---------------------------------------------------------------- collectors

  /** Reaping never deletes a live part's object: no other part has the path. */
  lemma ReapIsSafe(s: State, g: nat)
    requires Wf(s) && GcOk(s) && GcEnabled(s, ReapDelete(g))
    ensures var s' := GcNext(s, ReapDelete(g));
            forall q :: q in s.db.parts && Live(s.db.parts[q]) && s.db.parts[q].meta.path in s.store ==>
              s.db.parts[q].meta.path in s'.store
  {
    var p := s.gcs[g].part;
    assert s.db.parts[p].deletedBy.Some?;
  }

  lemma ReapDeleteKeeps(s: State, g: nat)
    requires Wf(s) && GcOk(s) && GcEnabled(s, ReapDelete(g))
    ensures GcOk(GcNext(s, ReapDelete(g)))
  {
    hide TxnPathsOk; hide PartsOk; hide Orphaned; hide PathsOk;
    var s' := GcNext(s, ReapDelete(g));
    ClaimedKnown(s);
    PathsFrame(s, s');
    TxnPathsFrame(s, s');
  }

  lemma ReapMarkKeepsGc(s: State, g: nat)
    requires Wf(s) && GcOk(s) && GcEnabled(s, ReapMark(g))
    ensures GcOk(GcNext(s, ReapMark(g)))
  {
    hide TxnsOk; hide PartsOk; hide Orphaned; hide PathsOk; hide TxnPathsOk;
    var s' := GcNext(s, ReapMark(g));
    ClaimedKnown(s);
    PathsFrame(s, s');
    TxnPathsFrame(s, s');
  }

  lemma QuietGcKeeps(s: State, step: GcStep)
    requires GcOk(s) && GcEnabled(s, step) && !step.ReapDelete? && !step.ReapMark?
    ensures GcOk(GcNext(s, step))
  {
    hide TxnPathsOk; hide PathsOk;
    var s' := GcNext(s, step);
    ClaimedKnown(s);
    PathsFrame(s, s');
    TxnPathsFrame(s, s');
  }

  lemma GcKeepsGc(s: State, step: GcStep)
    requires Wf(s) && GcOk(s) && GcEnabled(s, step)
    ensures GcOk(GcNext(s, step))
  {
    if step.ReapDelete? { ReapDeleteKeeps(s, step.gc); }
    else if step.ReapMark? { ReapMarkKeepsGc(s, step.gc); }
    else { QuietGcKeeps(s, step); }
  }

  lemma QuietKeepsGc(s: State, s': State)
    requires GcOk(s) && s'.db.parts == s.db.parts && s'.db.pending == s.db.pending && s'.claimed == s.claimed
    requires s'.content == s.content && s'.registered == s.registered && s'.store == s.store && s'.txns == s.txns
    requires s'.gcs == s.gcs && s'.hist.reaped == s.hist.reaped
    ensures GcOk(s')
  {
    hide PathsOk; hide TxnPathsOk; hide ReapedOk;
    ClaimedKnown(s);
    PathsFrame(s, s');
    TxnPathsFrame(s, s');
    ReapedFrame(s, s');
  }

  // ---------------------------------------------------------------- the fence against views

  /** Cursors of registered views only move forward, and no view appears below `p`. */
  ghost predicate ViewsGrow(s: State, s': State) {
    forall k :: k in s'.db.cursors && k.0.MvWorker? ==>
      (k in s.db.cursors && s.db.cursors[k] <= s'.db.cursors[k]) || s'.db.cursors[k] == Head(s.db, k.1)
  }

  lemma PassedStays(s: State, s': State, p: PartId)
    requires PartsOk(s) && Passed(s, p) && ViewsGrow(s, s')
    requires p in s'.db.parts && s'.db.parts[p].ht == s.db.parts[p].ht && s'.db.parts[p].deletedBy == s.db.parts[p].deletedBy
    ensures Passed(s', p)
  {
    var x := s.db.parts[p];
    assert x.deletedBy.value in Feed(s.db, x.ht);
    hide PartsOk; hide Feed; hide Head;
    forall k | k in s'.db.cursors && k.0.MvWorker? && k.1 == x.ht ensures x.deletedBy.value <= s'.db.cursors[k] {
      if !(k in s.db.cursors && s.db.cursors[k] <= s'.db.cursors[k]) {
        assert IsHead(s.db, k.1, Head(s.db, k.1));
      }
    }
  }

  /** The same parts and collectors, cursors that only grew. */
  lemma FenceFrame(s: State, s': State)
    requires PartsOk(s) && FenceOk(s) && ViewsGrow(s, s') && s'.gcs == s.gcs && s'.hist.reaped == s.hist.reaped
    requires forall p :: p in s.db.parts ==>
               && p in s'.db.parts && s'.db.parts[p].ht == s.db.parts[p].ht
               && (s.db.parts[p].deletedBy.Some? ==> s'.db.parts[p].deletedBy == s.db.parts[p].deletedBy)
    ensures FenceOk(s')
  {
    hide PartsOk; hide ViewsGrow;
    forall g | g in s'.gcs && (s'.gcs[g].GReap? || s'.gcs[g].GReaped?) ensures Passed(s', s'.gcs[g].part) {
      assert Passed(s, s.gcs[g].part);
      PassedStays(s, s', s.gcs[g].part);
    }
    forall p | p in s'.hist.reaped ensures Passed(s', p) {
      assert Passed(s, p);
      PassedStays(s, s', p);
    }
  }

  lemma SameViews(s: State, s': State)
    requires s'.db.cursors == s.db.cursors
    ensures ViewsGrow(s, s')
  {
    hide Head;
  }

  lemma GcKeepsFence(s: State, step: GcStep)
    requires PartsOk(s) && FenceOk(s) && GcEnabled(s, step)
    ensures FenceOk(GcNext(s, step))
  {
    hide PartsOk;
    var s' := GcNext(s, step);
    assert forall p :: Passed(s, p) ==> Passed(s', p) by {
      forall p | Passed(s, p) ensures Passed(s', p) { PassedSame(s, s', p, step); }
    }
    if step.ReapFetch? { assert Passed(s, step.part); }
  }

  lemma PassedSame(s: State, s': State, p: PartId, step: GcStep)
    requires GcEnabled(s, step) && s' == GcNext(s, step) && Passed(s, p)
    ensures Passed(s', p)
  {
    hide Orphaned; hide Reapable;
    assert s'.db.cursors == s.db.cursors;
  }

  lemma CommitKeepsFence(s: State, t: nat, s': State)
    requires PartsOk(s) && FenceOk(s) && CommitEffect(s, t, s')
    ensures FenceOk(s')
  {
    CommitPartIdentity(s, t, s');
    RecordHeads(s, s.txns[t].req);
    SameViews(s, s');
    FenceFrame(s, s');
  }
}
