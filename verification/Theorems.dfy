/** The guarantees of the catalog protocol, each over every run. */
module Theorems {
  import opened Base
  import opened Rows
  import opened Tables
  import opened Machine
  import opened Frames
  import opened Wellformed
  import opened Meaning
  import opened FeedProof
  import opened MvProof
  import opened IngestProof
  import opened LeaseProof
  import opened GcProof
  import opened ContentProof
  import opened Runs
  import opened Origins
  import opened IntakeProof
  import opened StoreProof

  // ---------------------------------------------------------------- the change feed

  /** Once a reader was handed head `h`, no commit at or below `h` appears later. */
  lemma FeedHeadIsFinal(run: seq<State>, steps: seq<Step>, i: nat, j: nat, r: nat)
    requires IsRun(run, steps) && i < j < |run| && steps[i] == FeedS(FeedRead(r))
    ensures r in run[i].readers
    ensures var ht := run[i].readers[r].ht;
            forall c :: c <= Head(run[i].db, ht) ==> (c in Feed(run[i].db, ht) <==> c in Feed(run[j].db, ht))
  {
    FeedReadFrame(run[i], r);
    HandsOut(run[i], r, run[i + 1]);
    var ht := run[i].readers[r].ht;
    HeadIsRecorded(run[i], ht, Head(run[i].db, ht), run[i + 1]);
    RunLasts(run, steps, i + 1, j);
    LastingPrefix(run[i + 1], run[j], ht);
    SameCommitsSameFeed(run[i].db, run[i + 1].db, ht);
  }

  lemma HeadIsRecorded(s: State, ht: Ht, h: CommitId, s': State)
    requires HandedOut(s, ht, h, s')
    ensures h <= HeadOf(s'.hist, ht) && s'.db.commits == s.db.commits
  {
  }

  lemma LastingPrefix(s: State, s': State, ht: Ht)
    requires Lasts(s, s')
    ensures HeadOf(s.hist, ht) <= HeadOf(s'.hist, ht)
    ensures forall c :: c <= HeadOf(s.hist, ht) ==> (c in Feed(s.db, ht) <==> c in Feed(s'.db, ht))
  {
    assert FeedKept(s, s');
    assert PrefixKept(s.db, s'.db, ht, HeadOf(s.hist, ht));
  }

  lemma SameCommitsSameFeed(db: Db, db': Db, ht: Ht)
    requires db'.commits == db.commits
    ensures Feed(db', ht) == Feed(db, ht)
  {
  }

  /** A consumer that pages below the head has seen, in increasing order, exactly the
      events between its start and its cursor — those that exist now and those that
      will ever exist. */
  lemma ConsumerSeesEachEventOnce(run: seq<State>, steps: seq<Step>, i: nat, j: nat, c: nat)
    requires IsRun(run, steps) && i <= j < |run| && c in run[i].consumers
    ensures var x := run[i].consumers[c];
            && (forall a, b :: 0 <= a < b < |x.seen| ==> x.seen[a] < x.seen[b])
            && (forall e :: e in x.seen <==> e in Feed(run[j].db, x.ht) && x.start < e <= x.cursor)
  {
    RunConsumers(run, steps, i);
    RunLasts(run, steps, i, j);
    var x := run[i].consumers[c];
    assert ConsumerOk(run[i], x);
    LastingPrefix(run[i], run[j], x.ht);
  }

  // ---------------------------------------------------------------- materialized views

  /** A view's cursor is never at or past a source ADD (beyond the registration point)
      whose identity is not committed in the target. */
  lemma CursorNeverPassesUnapplied(run: seq<State>, steps: seq<Step>, i: nat, p: Pid, e: CommitId)
    requires IsRun(run, steps) && i < |run| && p in run[i].cfg.pipelines
    requires CursorKey(run[i], p) in run[i].db.cursors && p in run[i].hist.mvInit
    requires e in Feed(run[i].db, run[i].cfg.pipelines[p].source) && run[i].db.commits[e].kind == KAdd
    requires run[i].hist.mvInit[p] < e <= run[i].db.cursors[CursorKey(run[i], p)]
    ensures Applied(run[i], p, e)
  {
    hide IsRun; hide Applied;
    RunPipelines(run, steps, i);
    assert PipelineOk(run[i], p);
    assert Done(run[i], p, e);
  }

  /** Each source ADD yields at most one target commit, and every target commit of a
      view comes from one ADD past the registration point. */
  lemma OneTargetCommitPerAdd(run: seq<State>, steps: seq<Step>, i: nat, p: Pid, src: Ht, e: CommitId, a: CommitId, b: CommitId)
    requires IsRun(run, steps) && i < |run|
    requires a in run[i].db.commits && run[i].db.commits[a].fp == Some(MvDigest(p, src, e))
    requires b in run[i].db.commits && run[i].db.commits[b].fp == Some(MvDigest(p, src, e))
    ensures a == b
    ensures p in run[i].cfg.pipelines && src == run[i].cfg.pipelines[p].source
    ensures run[i].db.commits[a].ht == run[i].cfg.pipelines[p].target
    ensures e in Feed(run[i].db, src) && run[i].db.commits[e].kind == KAdd
    ensures p in run[i].hist.mvInit && run[i].hist.mvInit[p] < e
  {
    hide IsRun;
    RunCommits(run, steps, i);
    RunOrigins(run, steps, i);
    var s := run[i];
    assert OriginOk(s, s.db.commits[a].ht, s.db.commits[a].key, s.db.commits[a].fp);
    assert OriginOk(s, s.db.commits[b].ht, s.db.commits[b].key, s.db.commits[b].fp);
  }

  /** A view that finds a reaped source part missing also finds its event completed:
      every registered cursor had passed the part's deletion before the reap. */
  lemma ReapedSourceIsCompleted(run: seq<State>, steps: seq<Step>, i: nat, r: nat, part: PartId)
    requires IsRun(run, steps) && i < |run|
    requires r in run[i].replicas && run[i].replicas[r].REvent? && part in run[i].hist.reaped && part in run[i].db.parts
    requires run[i].db.parts[part].createdBy == run[i].replicas[r].event
    ensures MvEnabled(run[i], MvCheckCursor(r))
    ensures MvNext(run[i], MvCheckCursor(r)).replicas[r] == RIdle
    ensures var p := run[i].replicas[r].pipeline;
            && p in run[i].cfg.pipelines && CursorKey(run[i], p) in run[i].db.cursors
            && run[i].replicas[r].event < run[i].db.cursors[CursorKey(run[i], p)]
  {
    hide IsRun;
    RunParts(run, steps, i);
    RunReplicas(run, steps, i);
    RunPassed(run, steps, i);
    var s, x := run[i], run[i].replicas[r];
    assert ReplicaOk(s, x);
    assert Passed(s, part);
    assert s.db.parts[part].ht == s.cfg.pipelines[x.pipeline].source by {
      assert x.event in Feed(s.db, s.cfg.pipelines[x.pipeline].source);
    }
  }

  /** The object of a source part that committed in time is missing only after a reap, so
      the same holds of every such part whose object the store does not have. */
  lemma MissingSourceIsCompleted(run: seq<State>, steps: seq<Step>, k: nat, i: nat, r: nat, part: PartId)
    requires IsRun(run, steps) && k < i < |run| && CommitsInTime(run, k, part) && part in run[i].db.parts
    requires r in run[i].replicas && run[i].replicas[r].REvent?
    requires run[i].db.parts[part].createdBy == run[i].replicas[r].event && run[i].db.parts[part].meta.path !in run[i].store
    ensures MvEnabled(run[i], MvCheckCursor(r))
    ensures MvNext(run[i], MvCheckCursor(r)).replicas[r] == RIdle
  {
    hide *;
    CommittedObjectStays(run, steps, k, i, part);
    ReapedSourceIsCompleted(run, steps, i, r, part);
  }

  // ---------------------------------------------------------------- ingest

  /** Committed offset ranges of one topic partition never overlap; every message below
      the stored position lies in one of them; the position never decreases. */
  lemma IngestExactlyOnce(run: seq<State>, steps: seq<Step>, i: nat, j: nat, ht: Ht, tp: Tp)
    requires IsRun(run, steps) && i <= j < |run|
    ensures var f := run[i].hist.flushed;
            forall a, b, m :: 0 <= a < |f| && 0 <= b < |f| && Covers(f[a], ht, tp, m) && Covers(f[b], ht, tp, m) ==> a == b
    ensures forall m :: m in Msgs(run[i], tp) && m < Stored(run[i].db.offsets, ht, tp) ==> Consumed(run[i], ht, tp, m)
    ensures forall a :: 0 <= a < |run[i].hist.flushed| ==>
              var f := run[i].hist.flushed[a]; f.1.first <= f.1.last < Stored(run[i].db.offsets, f.0, f.1.tp)
    ensures Stored(run[i].db.offsets, ht, tp) <= Stored(run[j].db.offsets, ht, tp)
  {
    RunLedger(run, steps, i);
    RunOffsetsLast(run, steps, i, j);
    var f := run[i].hist.flushed;
    forall a, b, m | 0 <= a < |f| && 0 <= b < |f| && Covers(f[a], ht, tp, m) && Covers(f[b], ht, tp, m) ensures a == b {
      assert a < b ==> Apart(f[a], f[b]);
      assert b < a ==> Apart(f[b], f[a]);
    }
  }

  /** Every message below the stored position that is still in the log was taken in by
      exactly one committed flush, and no message by two. */
  lemma EachMessageTakenOnce(run: seq<State>, steps: seq<Step>, i: nat, ht: Ht, tp: Tp, m: nat)
    requires IsRun(run, steps) && i < |run|
    ensures m in Msgs(run[i], tp) && m < Stored(run[i].db.offsets, ht, tp) ==> Taken(run[i], ht, tp, m)
    ensures var f := run[i].hist.intakes;
            forall a, b :: 0 <= a < |f| && 0 <= b < |f| && f[a].ht == f[b].ht == ht && (tp, m) in f[a].took && (tp, m) in f[b].took ==> a == b
  {
    RunIntake(run, steps, i);
    var f := run[i].hist.intakes;
    assert forall a, b :: 0 <= a < b < |f| ==> Separate(f[a], f[b]);
  }

  // ---------------------------------------------------------------- content

  /** The rows of the live parts are those of the committed ADDs less those the
      committed deletions removed. */
  lemma ContentConserved(run: seq<State>, steps: seq<Step>, i: nat, ht: Ht)
    requires IsRun(run, steps) && i < |run|
    ensures LiveRows(run[i], ht) + RowsOf(run[i].hist.erased, ht) == RowsOf(run[i].hist.added, ht)
  {
    hide IsRun; hide LiveRows; hide RowsOf;
    RunBalances(run, steps, i);
  }

  /** Only a committing transaction touches the ledger of rows. */
  lemma QuietStepsKeepRows(s: State, step: Step)
    requires Enabled(s, step) && !Lands(s, step)
    ensures Next(s, step).hist.added == s.hist.added && Next(s, step).hist.erased == s.hist.erased
    ensures Next(s, step).hist.intakes == s.hist.intakes
  {
    hide Enabled; hide Next; hide TxnEnabled; hide TxnNext; hide BodyOf; hide CommitEffect; hide TxnMoves;
    StepMeans(s, step);
    match step
    case TxnS(t) =>
      if t.Finish? { DrewItsId(s, t.txn, t.ack); FinishCases(s, t.txn, t.ack); }
      else { TxnMovesOn(s, t); MovesFrame(s, TxnNext(s, t)); }
    case FeedS(f) => FeedFrame(s, f);
    case LeaseS(l) => LeaseFrame(s, l);
    case MvS(m) => MvFrame(s, m);
    case IngestS(i) => IngestFrame(s, i);
    case ObjectS(o) => ObjectFrame(s, o);
    case GcS(g) => GcFrame(s, g);
    case Tick =>
  }

  /** Every step other than a commit leaves the visible rows alone: crashes, uploads,
      failed and replayed transactions, reaping and sweeping. */
  lemma OnlyCommitsMoveRows(run: seq<State>, steps: seq<Step>, i: nat, ht: Ht)
    requires IsRun(run, steps) && i < |steps| && !Lands(run[i], steps[i])
    ensures LiveRows(run[i + 1], ht) == LiveRows(run[i], ht)
  {
    hide *;
    RunMeans(run, steps);
    StepEnabled(run, steps, i);
    ContentConserved(run, steps, i, ht);
    ContentConserved(run, steps, i + 1, ht);
    QuietStepsKeepRows(run[i], steps[i]);
    Cancel(LiveRows(run[i], ht), LiveRows(run[i + 1], ht), RowsOf(run[i].hist.erased, ht));
  }

  lemma StepEnabled(run: seq<State>, steps: seq<Step>, i: nat)
    requires IsRun(run, steps) && i < |steps|
    ensures Enabled(run[i], steps[i]) && run[i + 1] == Next(run[i], steps[i])
  {
    hide Init; hide Next; hide Enabled;
  }

  lemma Cancel<T>(a: multiset<T>, b: multiset<T>, c: multiset<T>)
    requires a + c == b + c
    ensures a == b
  {
    forall x: T ensures a[x] == b[x] { assert (a + c)[x] == (b + c)[x]; }
  }

  /** The request that a committing step commits. */
  ghost predicate Commits(s: State, step: Step, req: Request) {
    Lands(s, step) && req == s.txns[step.t.txn].req
  }

  lemma CommitHappens(run: seq<State>, steps: seq<Step>, i: nat, req: Request)
    requires IsRun(run, steps) && i < |steps| && Commits(run[i], steps[i], req)
    ensures CommitEffect(run[i], steps[i].t.txn, run[i + 1])
  {
    FinishCases(run[i], steps[i].t.txn, steps[i].t.ack);
  }

  /** What each kind of commit does to the visible rows of its hypertable: an ADD adds
      the rows of its files, a merge moves nothing, an erasure takes away the key's
      rows of the parts it read and nothing else; other hypertables see nothing. */
  lemma CommitMovesExactly(run: seq<State>, steps: seq<Step>, i: nat, req: Request, ht: Ht)
    requires IsRun(run, steps) && i < |steps| && Commits(run[i], steps[i], req)
    ensures var s, s' := run[i], run[i + 1];
            if ht != req.ht then LiveRows(s', ht) == LiveRows(s, ht)
            else LiveRows(s', ht) + ErasedBy(s, req) == LiveRows(s, ht) + AddedBy(s, req)
    ensures req.client.Merger? ==> LiveRows(run[i + 1], ht) == LiveRows(run[i], ht)
    ensures req.client.Eraser? ==> forall r :: r in ErasedBy(run[i], req) ==> r.key == req.client.key
  {
    hide MvOk;
    hide IngestOk; hide LeaseOk; hide GcOk; hide FenceOk; hide PartsOk; hide PartBoundsOk; hide RequestContentOk; hide LedgerBalances;
    hide AddedBy; hide ErasedBy; hide SumRows; hide FilesOf; hide Flatten; hide Inputs; hide Outputs;
    var s, s', t := run[i], run[i + 1], steps[i].t.txn;
    RunInv(run, steps, i);
    CommitHappens(run, steps, i, req);
    WfParts(s);
    assert RequestContentOk(s, req);
    RequestBalances(s, req);
    CommitMovesRows(s, t, s', ht);
    RequestKind(s, req);
    if ht == req.ht {
      Exchange(LiveRows(s, ht), LiveRows(s', ht), SumRows(s.db.parts, s.content, Inputs(req.op)),
               multiset(Flatten(FilesOf(s.content, Outputs(req.op)))), AddedBy(s, req), ErasedBy(s, req));
    } else {
      var none: multiset<Row> := multiset{};
      Exchange(LiveRows(s, ht), LiveRows(s', ht), none, none, none, none);
    }
  }

  lemma Exchange<T>(live: multiset<T>, live': multiset<T>, ins: multiset<T>, outs: multiset<T>, plus: multiset<T>, minus: multiset<T>)
    requires live' + ins == live + outs && ins + plus == outs + minus
    ensures live' + minus == live + plus
    ensures plus == multiset{} && minus == multiset{} ==> live' == live
  {
    forall x: T ensures (live' + minus)[x] == (live + plus)[x] {
      assert (live' + ins)[x] == (live + outs)[x];
      assert (ins + plus)[x] == (outs + minus)[x];
    }
    if plus == multiset{} && minus == multiset{} { Cancel(live', live, plus); }
  }

  lemma RequestKind(s: State, req: Request)
    requires RequestContentOk(s, req)
    ensures req.client.Merger? ==> AddedBy(s, req) == multiset{} && ErasedBy(s, req) == multiset{}
    ensures req.client.Eraser? ==> AddedBy(s, req) == multiset{}
    ensures req.client.Eraser? ==> forall r :: r in ErasedBy(s, req) ==> r.key == req.client.key
  {
    hide Bounds; hide RewriteOf; hide InputFiles; hide Files; hide KeptFiles; hide KeyRowsOfParts; hide Flatten;
    if req.client.Eraser? { KeyRowsHaveKey(s, req.op.inputs, req.client.key); }
  }

  lemma {:induction false} KeyRowsHaveKey(s: State, ids: seq<PartId>, k: int)
    ensures forall r :: r in KeyRowsOfParts(s, ids, k) ==> r.key == k
    decreases |ids|
  {
    hide RowsAt; hide Erased;
    if ids != [] {
      KeyRowsHaveKey(s, ids[1..], k);
      if ids[0] in s.db.parts { KeptAndErased(RowsAt(s.content, s.db.parts[ids[0]].meta.path), k); }
    }
  }

  lemma CommitRecords(s: State, t: nat, s': State)
    requires CommitEffect(s, t, s')
    ensures var req := s.txns[t].req;
            s'.hist.intakes == s.hist.intakes + (if req.client.Ingester? then [Intake(req.ht, req.took, req.kept)] else [])
  {
    RecordIntakes(s, s.txns[t].req);
  }

  lemma IntakesExtendOnce(run: seq<State>, steps: seq<Step>, j: nat)
    requires IsRun(run, steps) && j < |steps|
    ensures run[j].hist.intakes <= run[j + 1].hist.intakes
  {
    StepEnabled(run, steps, j);
    if Lands(run[j], steps[j]) {
      LandsEffect(run[j], steps[j]);
      CommitRecords(run[j], steps[j].t.txn, run[j + 1]);
    } else {
      QuietStepsKeepRows(run[j], steps[j]);
    }
  }

  lemma {:induction false} IntakesExtend(run: seq<State>, steps: seq<Step>, i: nat, j: nat)
    requires IsRun(run, steps) && i <= j < |run|
    ensures run[i].hist.intakes <= run[j].hist.intakes
    decreases j - i
  {
    hide *;
    if i < j {
      IntakesExtend(run, steps, i, j - 1);
      RunMeans(run, steps);
      IntakesExtendOnce(run, steps, j - 1);
    }
  }

  /** Ingest adds rows exactly once: a committed flush adds precisely the rows of the
      messages it kept, each of which it took, and no other flush of the hypertable, before
      or after, takes any of them. */
  lemma IngestedRowsExactlyOnce(run: seq<State>, steps: seq<Step>, i: nat, j: nat, req: Request)
    requires IsRun(run, steps) && i < j < |run| && Commits(run[i], steps[i], req) && req.client.Ingester?
    ensures req.kept <= req.took && req.kept <= run[i].cfg.payload.Keys
    ensures AddedBy(run[i], req) == MessageRows(run[i].cfg.payload, req.kept)
    ensures var n, f := |run[i].hist.intakes|, run[j].hist.intakes;
            && n < |f| && f[n] == Intake(req.ht, req.took, req.kept)
            && forall k :: 0 <= k < |f| && k != n && f[k].ht == req.ht ==> f[k].took !! req.took
  {
    hide Next; hide HistoryTook; hide BodyOf; hide CommitEffect; hide MessageRows; hide Files;
    hide Flatten; hide Inv; hide Msgs; hide InRanges;
    RunIntake(run, steps, i);
    assert RequestTook(run[i], req);
    CommitHappens(run, steps, i, req);
    CommitRecords(run[i], steps[i].t.txn, run[i + 1]);
    IntakesExtend(run, steps, i + 1, j);
    RunIntake(run, steps, j);
    var n, f := |run[i].hist.intakes|, run[j].hist.intakes;
    assert run[i + 1].hist.intakes[n] == Intake(req.ht, req.took, req.kept);
    assert f[n] == run[i + 1].hist.intakes[n];
    IntakesSeparate(run[j]);
    assert forall k :: 0 <= k < n ==> Separate(f[k], f[n]);
    assert forall k :: n < k < |f| ==> Separate(f[n], f[k]);
  }

  lemma IntakesSeparate(s: State)
    requires HistoryTook(s)
    ensures forall i, j :: 0 <= i < j < |s.hist.intakes| ==> Separate(s.hist.intakes[i], s.hist.intakes[j])
  {
  }

  // ---------------------------------------------------------------- erasure

  /** Ledgers and uploads only grow. */
  ghost predicate LedgersGrow(s: State, s': State) {
    && (forall ht :: RowsOf(s.hist.added, ht) <= RowsOf(s'.hist.added, ht) && RowsOf(s.hist.erased, ht) <= RowsOf(s'.hist.erased, ht))
    && (forall x :: x in s.content ==> x in s'.content && s'.content[x] == s.content[x])
  }

  lemma SameContent(s: State, step: Step)
    requires Enabled(s, step)
    ensures forall x :: x in s.content ==> x in Next(s, step).content && Next(s, step).content[x] == s.content[x]
  {
    hide TxnEnabled; hide TxnNext; hide FeedEnabled; hide FeedNext; hide LeaseEnabled; hide LeaseNext; hide MvEnabled; hide MvNext;
    hide IngestEnabled; hide IngestNext; hide GcEnabled; hide GcNext; hide Lands;
    hide ObjectEnabled; hide ObjectNext; hide Enabled; hide Next;
    StepMeans(s, step);
    if step.ObjectS? { ObjectContent(s, step.o); }
    else if step.GcS? { GcFrame(s, step.g); }
    else if Lands(s, step) { LandsCommits(s, step); }
    else { StillStep(s, step); }
  }

  lemma ObjectContent(s: State, step: ObjectStep)
    requires ObjectEnabled(s, step)
    ensures forall x :: x in s.content ==> x in ObjectNext(s, step).content && ObjectNext(s, step).content[x] == s.content[x]
  {
  }

  lemma CommitLedgers(s: State, t: nat, s': State)
    requires CommitEffect(s, t, s')
    ensures var req := s.txns[t].req;
            forall ht ::
              && RowsOf(s'.hist.added, ht) == RowsOf(s.hist.added, ht) + (if ht == req.ht then AddedBy(s, req) else multiset{})
              && RowsOf(s'.hist.erased, ht) == RowsOf(s.hist.erased, ht) + (if ht == req.ht then ErasedBy(s, req) else multiset{})
  {
    hide AddedBy; hide ErasedBy;
  }

  lemma LedgersGrowOnce(run: seq<State>, steps: seq<Step>, j: nat)
    requires IsRun(run, steps) && j < |steps|
    ensures LedgersGrow(run[j], run[j + 1])
  {
    hide Next; hide CommitEffect;
    StepEnabled(run, steps, j);
    SameContent(run[j], steps[j]);
    if Lands(run[j], steps[j]) {
      LandsEffect(run[j], steps[j]);
      CommitLedgers(run[j], steps[j].t.txn, run[j + 1]);
    } else {
      QuietStepsKeepRows(run[j], steps[j]);
    }
  }

  lemma {:induction false} LedgersGrowOn(run: seq<State>, steps: seq<Step>, i: nat, j: nat)
    requires IsRun(run, steps) && i <= j < |run|
    ensures LedgersGrow(run[i], run[j])
    decreases j - i
  {
    hide Enabled; hide Next; hide RowsOf;
    if i < j {
      LedgersGrowOn(run, steps, i, j - 1);
      RunMeans(run, steps);
      LedgersGrowOnce(run, steps, j - 1);
      forall ht ensures RowsOf(run[i].hist.added, ht) <= RowsOf(run[j].hist.added, ht) && RowsOf(run[i].hist.erased, ht) <= RowsOf(run[j].hist.erased, ht) {
        assert RowsOf(run[i].hist.added, ht) <= RowsOf(run[j - 1].hist.added, ht) && RowsOf(run[i].hist.erased, ht) <= RowsOf(run[j - 1].hist.erased, ht);
      }
    }
  }

  /** A committing erasure takes every row of its key that was live when it read. */
  lemma ErasureTakesWhatItRead(run: seq<State>, steps: seq<Step>, i: nat, j: nat, req: Request, r: Row)
    requires IsRun(run, steps) && i <= j < |steps| && Commits(run[j], steps[j], req) && req.client.Eraser? && r.key == req.client.key
    requires Selects(run[i], req.ht, req.client.key, Elements(Inputs(req.op)))
    ensures ErasedBy(run[j], req)[r] == LiveRows(run[i], req.ht)[r]
  {
    hide BodyOf; hide Selects; hide LiveRows; hide KeyRowsOfParts;
    RunStart(run, steps);
    RunParts(run, steps, i);
    RunBounds(run, steps, i);
    RunPartsLast(run, steps, i, j);
    LedgersGrowOn(run, steps, i, j);
    EraserInputs(run, steps, i, j, req);
    assert forall p :: p in req.op.inputs ==> p in run[i].db.parts;
    KeyRowsStay(run[i], run[j], req.op.inputs, req.client.key);
    SelectedHoldTheKey(run[i], req.ht, req.client.key, req.op.inputs, r);
  }

  /** The parts it commits on are distinct, and were live when it read. */
  lemma EraserInputs(run: seq<State>, steps: seq<Step>, i: nat, j: nat, req: Request)
    requires IsRun(run, steps) && i <= j < |steps| && Commits(run[j], steps[j], req) && req.client.Eraser?
    requires Selects(run[i], req.ht, req.client.key, Elements(Inputs(req.op)))
    ensures req.op.Replace? && AllLive(run[i].db.parts, req.ht, req.op.inputs)
  {
    hide IsRun; hide BodyOf; hide CommitEffect;
    RunStart(run, steps);
    CommitHappens(run, steps, j, req);
    CommitInputs(run[j], steps[j].t.txn, run[j + 1]);
    RunRequests(run, steps, j);
    assert RequestContentOk(run[j], req);
    EraserReplaces(run[j], req);
    assert forall p :: p in req.op.inputs ==> p in Elements(req.op.inputs);
    hide RequestContentOk; hide RequestContentsOk;
  }

  lemma EraserReplaces(s: State, req: Request)
    requires RequestContentOk(s, req) && req.client.Eraser?
    ensures req.op.Replace? && forall i :: i in Inputs(req.op) ==> i in s.db.parts
    ensures Files(s, Outputs(req.op)) == KeptFiles(s, Inputs(req.op), req.client.key)
  {
  }

  /** Erasure is complete: from its commit on, every visible row of the key was added after
      the deletion read. Nothing that was visible then survives, not even in the output of
      a merge that committed in between. */
  lemma ErasureIsComplete(run: seq<State>, steps: seq<Step>, i: nat, j: nat, m: nat, req: Request, r: Row)
    requires IsRun(run, steps) && i <= j < |steps| && j < m < |run| && Commits(run[j], steps[j], req) && req.client.Eraser?
    requires Selects(run[i], req.ht, req.client.key, Elements(Inputs(req.op))) && r.key == req.client.key
    ensures LiveRows(run[m], req.ht)[r] + RowsOf(run[i].hist.added, req.ht)[r] <= RowsOf(run[m].hist.added, req.ht)[r]
  {
    var ht := req.ht;
    ContentConserved(run, steps, i, ht);
    ContentConserved(run, steps, m, ht);
    LedgersGrowOn(run, steps, i, j);
    LedgersGrowOn(run, steps, j + 1, m);
    CommitHappens(run, steps, j, req);
    CommitLedgers(run[j], steps[j].t.txn, run[j + 1]);
    ErasureTakesWhatItRead(run, steps, i, j, req, r);
    var e, e' := RowsOf(run[i].hist.erased, ht), RowsOf(run[m].hist.erased, ht);
    assert (LiveRows(run[i], ht) + e)[r] == RowsOf(run[i].hist.added, ht)[r];
    assert (LiveRows(run[m], ht) + e')[r] == RowsOf(run[m].hist.added, ht)[r];
    assert (RowsOf(run[j].hist.erased, ht) + ErasedBy(run[j], req))[r] == RowsOf(run[j + 1].hist.erased, ht)[r];
    assert e <= RowsOf(run[j].hist.erased, ht) && RowsOf(run[j + 1].hist.erased, ht) <= e';
  }

  /** Part by part: once a deletion of the parts that overlapped its key commits, no part
      that was there when it read, or that it wrote, still shows a row of the key. */
  lemma ErasureReachesEveryPart(run: seq<State>, steps: seq<Step>, i: nat, j: nat, req: Request, p: PartId)
    requires IsRun(run, steps) && i <= j < |steps| && Commits(run[j], steps[j], req) && req.client.Eraser?
    requires Selects(run[i], req.ht, req.client.key, Elements(Inputs(req.op)))
    requires p in run[j + 1].db.parts && Live(run[j + 1].db.parts[p]) && run[j + 1].db.parts[p].ht == req.ht
    requires p in run[i].db.parts || p !in run[j].db.parts
    ensures forall r :: r in RowsAt(run[j + 1].content, run[j + 1].db.parts[p].meta.path) ==> r.key != req.client.key
  {
    hide IsRun; hide BodyOf; hide CommitEffect; hide Inv; hide Inputs; hide Bounds; hide RowsAt;
    RunStart(run, steps);
    var t, s' := steps[j].t.txn, run[j + 1];
    CommitHappens(run, steps, j, req);
    RunParts(run, steps, j);
    if p in run[i].db.parts {
      RunPartsLast(run, steps, i, j + 1);
      if p in Inputs(req.op) { CommitTombstones(run[j], t, s', p); }
      assert p !in Elements(Inputs(req.op));
      RunBounds(run, steps, j + 1);
      RowsInside(s', p);
      forall r | r in RowsAt(s'.content, s'.db.parts[p].meta.path) ensures r.key != req.client.key {
        if r.key == req.client.key { OutOfBounds(s'.db.parts[p].meta, RowsAt(s'.content, s'.db.parts[p].meta.path), r); }
      }
    } else {
      RunRequests(run, steps, j);
      RewrittenHasNoKey(run[j], t, s', p);
    }
  }

  /** A part an erasure wrote holds no row of the key. */
  lemma RewrittenHasNoKey(s: State, t: nat, s': State, p: PartId)
    requires PartsOk(s) && RequestContentsOk(s) && CommitEffect(s, t, s')
    requires s.txns[t].req.client.Eraser? && p in s'.db.parts && p !in s.db.parts
    ensures forall r :: r in RowsAt(s'.content, s'.db.parts[p].meta.path) ==> r.key != s.txns[t].req.client.key
  {
    hide CommitEffect; hide PartsOk; hide Inputs; hide Outputs; hide KeptFiles; hide RequestContentOk;
    CommitLeaves(s, t, s');
    CommitContent(s, t, s');
    PartOrigin(s, t, s', p);
    var req := s.txns[t].req;
    EraserReplaces(s, req);
    var i :| 0 <= i < |Outputs(req.op)| && i == p - s.db.nextPart && s'.db.parts[p].meta == Outputs(req.op)[i];
    KeptFilesLackKey(s, Inputs(req.op), req.client.key);
    assert Files(s, Outputs(req.op))[i] == RowsAt(s.content, Outputs(req.op)[i].path);
  }

  lemma CommitContent(s: State, t: nat, s': State)
    requires CommitEffect(s, t, s')
    ensures s'.content == s.content
  {
  }

  lemma {:induction false} KeptFilesLackKey(s: State, ids: seq<PartId>, k: int)
    requires forall i :: i in ids ==> i in s.db.parts
    ensures forall f, r :: f in KeptFiles(s, ids, k) && r in f ==> r.key != k
    decreases |ids|
  {
    hide RowsAt; hide Rows.Kept;
    if ids != [] {
      assert ids[0] in ids;
      KeptFilesLackKey(s, ids[1..], k);
      KeptAndErased(RowsAt(s.content, s.db.parts[ids[0]].meta.path), k);
    }
  }

  /** A tombstone is set once: of two commits that name a part, at most one lands, and
      the part keeps that commit's id for ever. */
  lemma NoPartReplacedTwice(run: seq<State>, steps: seq<Step>, i: nat, j: nat, a: Request, b: Request, p: PartId)
    requires IsRun(run, steps) && i < |steps| && j < |steps| && Commits(run[i], steps[i], a) && Commits(run[j], steps[j], b)
    requires p in Inputs(a.op) && p in Inputs(b.op)
    ensures i == j
  {
    hide *;
    if i < j { TombstonedForGood(run, steps, i, j, a, b, p); }
    if j < i { TombstonedForGood(run, steps, j, i, b, a, p); }
  }

  lemma TombstonedForGood(run: seq<State>, steps: seq<Step>, i: nat, j: nat, a: Request, b: Request, p: PartId)
    requires IsRun(run, steps) && i < j < |steps| && Commits(run[i], steps[i], a) && Commits(run[j], steps[j], b)
    requires p in Inputs(a.op)
    ensures p !in Inputs(b.op)
  {
    hide IsRun; hide BodyOf; hide Inputs; hide CommitEffect;
    RunStart(run, steps);
    RunParts(run, steps, i);
    CommitHappens(run, steps, i, a);
    CommitHappens(run, steps, j, b);
    CommitTombstones(run[i], steps[i].t.txn, run[i + 1], p);
    RunPartsLast(run, steps, i + 1, j);
    if p in Inputs(b.op) { CommitNeedsLive(run[j], steps[j].t.txn, run[j + 1], p); }
  }

  lemma CommitTombstones(s: State, t: nat, s': State, p: PartId)
    requires PartsOk(s) && CommitEffect(s, t, s') && p in Inputs(s.txns[t].req.op)
    ensures p in s'.db.parts && s'.db.parts[p].deletedBy == Some(s.txns[t].phase.id)
  {
    PartsAfterRows(s.db, s.txns[t].phase.id, s.txns[t].req.ht, s.txns[t].req.op);
  }

  lemma CommitInputs(s: State, t: nat, s': State)
    requires CommitEffect(s, t, s')
    ensures AllLive(s.db.parts, s.txns[t].req.ht, Inputs(s.txns[t].req.op))
  {
  }

  lemma CommitNeedsLive(s: State, t: nat, s': State, p: PartId)
    requires CommitEffect(s, t, s') && p in Inputs(s.txns[t].req.op)
    ensures p in s.db.parts && Live(s.db.parts[p])
  {
  }

  // ---------------------------------------------------------------- reconciliation

  /** At most one commit ever exists per hypertable and operation key. */
  lemma OneCommitPerKey(run: seq<State>, steps: seq<Step>, i: nat, a: CommitId, b: CommitId)
    requires IsRun(run, steps) && i < |run| && a in run[i].db.commits && b in run[i].db.commits
    requires run[i].db.commits[a].ht == run[i].db.commits[b].ht
    requires run[i].db.commits[a].key.Some? && run[i].db.commits[a].key == run[i].db.commits[b].key
    ensures a == b
  {
    hide IsRun;
    RunCommits(run, steps, i);
  }

  /** A `Committed` answer is correct — the commit exists under exactly this key and
      fingerprint — and every later lookup gives it again. */
  lemma CommittedIsFinal(run: seq<State>, steps: seq<Step>, i: nat, j: nat, id: Identity, c: CommitId)
    requires IsRun(run, steps) && i <= j < |run| && Reconcile(run[i].db, id) == Ok(Some(c))
    ensures c in run[j].db.commits && run[j].db.commits[c].ht == id.ht
    ensures run[j].db.commits[c].key == Some(id.key) && run[j].db.commits[c].fp == id.fp
    ensures Reconcile(run[j].db, id) == Ok(Some(c))
  {
    hide IsRun; hide FeedKept;
    RunCommits(run, steps, i);
    RunCommits(run, steps, j);
    RunGrows(run, steps, i, j);
  }

  /** A taken key answers any other intent, and any intent against a row without a
      fingerprint, with a collision — for ever. */
  lemma CollisionIsFinal(run: seq<State>, steps: seq<Step>, i: nat, j: nat, id: Identity, c: CommitId)
    requires IsRun(run, steps) && i <= j < |run| && c in run[i].db.commits
    requires run[i].db.commits[c].ht == id.ht && run[i].db.commits[c].key == Some(id.key)
    ensures run[i].db.commits[c].fp.None? || run[i].db.commits[c].fp != id.fp <==> Reconcile(run[j].db, id) == Err(KeyCollision)
  {
    hide IsRun; hide FeedKept;
    RunCommits(run, steps, i);
    RunCommits(run, steps, j);
    RunGrows(run, steps, i, j);
  }

  /** The answer to a request whose intent is already committed, whatever happened to
      its lease since: that commit, and no table changes. */
  lemma ReplayChangesNothing(s: State, t: nat, ack: bool, c: CommitId)
    requires t in s.txns && s.txns[t].req.ident.Some? && Reconcile(s.db, s.txns[t].req.ident.value) == Ok(Some(c))
    ensures TxnEnabled(s, Lookup(t, ack)) ==>
              TxnNext(s, Lookup(t, ack)).db == s.db && TxnNext(s, Lookup(t, ack)).hist == s.hist
              && t !in TxnNext(s, Lookup(t, ack)).txns
    ensures TxnEnabled(s, Finish(t, ack)) ==>
              BodyOf(s, t) == (AlreadyApplied(c), s.db)
              && TxnNext(s, Finish(t, ack)).db == s.db && TxnNext(s, Finish(t, ack)).hist == s.hist
  {
    hide Paths;
  }

  /** A failed commit — a collision, a lost part, an offset race — changes no table. */
  lemma LoserChangesNothing(s: State, t: nat, ack: bool)
    requires TxnEnabled(s, Finish(t, ack)) && BodyOf(s, t).0.Failed?
    ensures TxnNext(s, Finish(t, ack)).db == s.db && TxnNext(s, Finish(t, ack)).hist == s.hist
  {
    FinishCases(s, t, ack);
  }

  // ---------------------------------------------------------------- leases

  /** One generation, one tenancy: rows of any two states of a run that carry the same
      generation are the same partition's and the same owner's. */
  lemma GenerationNamesOneTenancy(run: seq<State>, steps: seq<Step>, i: nat, j: nat, a: (Ht, Partition), b: (Ht, Partition))
    requires IsRun(run, steps) && i <= j < |run| && a in run[i].db.leases && b in run[j].db.leases
    requires run[i].db.leases[a].generation == run[j].db.leases[b].generation
    ensures a == b && run[i].db.leases[a].owner == run[j].db.leases[b].owner
  {
    hide IsRun; hide Dead;
    RunGenerations(run, steps, i);
    RunGenerations(run, steps, j);
    RunTenanciesLast(run, steps, i, j);
  }

  /** The generation was installed once and no row carries it any more. */
  ghost predicate Gone(s: State, g: nat) {
    g in s.hist.tenancies && forall k :: k in s.db.leases ==> s.db.leases[k].generation != g
  }

  lemma InstallStaysGone(s: State, a: nat, g: nat)
    requires GenerationsOk(s) && LeaseEnabled(s, Install(a)) && Gone(s, g)
    ensures Gone(LeaseNext(s, Install(a)), g)
  {
    hide RenewLease; hide ReleaseLease; hide LeaseRowLocked;
    assert s.acquires[a].drawn != g;
  }

  lemma LeaseStaysGone(s: State, step: LeaseStep, g: nat)
    requires GenerationsOk(s) && LeaseEnabled(s, step) && Gone(s, g)
    ensures Gone(LeaseNext(s, step), g)
  {
    match step
    case Draw(_, _, _, _, _) =>
    case Install(a) => InstallStaysGone(s, a, g);
    case Renew(l, ttl) => RenewRows(s.db.leases, s.now, l, ttl);
    case Release(l) => ReleaseRows(s.db.leases, l);
  }

  /** Only lease steps touch lease rows. */
  lemma OthersKeepLeases(s: State, step: Step)
    requires Enabled(s, step) && !step.LeaseS?
    ensures Next(s, step).db.leases == s.db.leases && Next(s, step).hist.tenancies == s.hist.tenancies
  {
    hide *;
    StepMeans(s, step);
    match step
    case TxnS(t) => TxnKeepsLeases(s, t);
    case FeedS(f) => FeedFrame(s, f);
    case MvS(m) => MvFrame(s, m);
    case IngestS(i) => IngestFrame(s, i);
    case ObjectS(o) => ObjectFrame(s, o);
    case GcS(g) => GcFrame(s, g);
    case Tick =>
  }

  lemma TxnKeepsLeases(s: State, step: TxnStep)
    requires TxnEnabled(s, step)
    ensures TxnNext(s, step).db.leases == s.db.leases && TxnNext(s, step).hist.tenancies == s.hist.tenancies
  {
    hide TxnEnabled; hide TxnNext; hide TxnMoves; hide BodyOf; hide CommitEffect;
    if step.Finish? {
      DrewItsId(s, step.txn, step.ack);
      FinishCases(s, step.txn, step.ack);
      if BodyOf(s, step.txn).0.Committed? { CommitKeepsLeaseRows(s, step.txn, TxnNext(s, step)); }
    } else {
      TxnMovesOn(s, step);
      MovesFrame(s, TxnNext(s, step));
    }
  }

  lemma CommitKeepsLeaseRows(s: State, t: nat, s': State)
    requires CommitEffect(s, t, s')
    ensures s'.db.leases == s.db.leases && s'.hist.tenancies == s.hist.tenancies
  {
    RecordTenancies(s, s.txns[t].req);
  }

  lemma SameRowsGone(s: State, s': State, g: nat)
    requires s'.db.leases == s.db.leases && s'.hist.tenancies == s.hist.tenancies && Gone(s, g)
    ensures Gone(s', g)
  {
  }

  lemma GoneStep(s: State, step: Step, g: nat)
    requires Inv(s) && Enabled(s, step) && Gone(s, g)
    ensures Gone(Next(s, step), g)
  {
    hide *;
    StepMeans(s, step);
    InvWorkers(s);
    if step.LeaseS? { LeaseStaysGone(s, step.l, g); } else { OthersKeepLeases(s, step); SameRowsGone(s, Next(s, step), g); }
  }

  lemma {:induction false} GoneForever(run: seq<State>, steps: seq<Step>, i: nat, j: nat, g: nat)
    requires IsRun(run, steps) && i <= j < |run| && Gone(run[i], g)
    ensures Gone(run[j], g)
    decreases j - i
  {
    hide Enabled; hide Inv;
    RunMeans(run, steps);
    if i < j {
      RunStart(run, steps);
      GoneForever(run, steps, i, j - 1, g);
      RunStep(run, steps, j - 1);
      GoneStep(run[j - 1], steps[j - 1], g);
    }
  }

  /** A generation that has left its row — by release or takeover — never comes back in
      any row, however often rows are deleted and taken anew. */
  lemma GenerationNeverReturns(run: seq<State>, steps: seq<Step>, i: nat, j: nat, k: nat, at: (Ht, Partition), x: (Ht, Partition))
    requires IsRun(run, steps) && i <= j <= k < |run| && at in run[i].db.leases
    requires at in run[j].db.leases ==> run[j].db.leases[at].generation != run[i].db.leases[at].generation
    ensures x in run[k].db.leases ==> run[k].db.leases[x].generation != run[i].db.leases[at].generation
  {
    hide IsRun; hide Dead;
    var g := run[i].db.leases[at].generation;
    RunGenerations(run, steps, i);
    RunTenanciesLast(run, steps, i, j);
    forall y | y in run[j].db.leases ensures run[j].db.leases[y].generation != g {
      if run[j].db.leases[y].generation == g { GenerationNamesOneTenancy(run, steps, i, j, at, y); }
    }
    GoneForever(run, steps, j, k, g);
  }

  lemma UnfencedStays(s: State, step: Step, l: Lease)
    requires Inv(s) && Enabled(s, step) && Dead(s, l) && NoneFenced(s, l)
    ensures NoneFenced(Next(s, step), l)
  {
    hide Inv;
    StepMeans(s, step);
    match step
    case TxnS(t) => UnfencedTxn(s, t, l);
    case FeedS(f) => FeedFrame(s, f);
    case LeaseS(x) => LeaseFrame(s, x);
    case MvS(m) => MvFrame(s, m);
    case IngestS(i) => IngestFrame(s, i);
    case ObjectS(o) => ObjectFrame(s, o);
    case GcS(g) => GcFrame(s, g);
    case Tick =>
  }

  /** No transaction passes its fence in this step. */
  ghost predicate NoNewFence(s: State, s': State) {
    forall t :: t in s'.txns && s'.txns[t].fencedAt.Some? ==>
      t in s.txns && s.txns[t].fencedAt.Some? && s'.txns[t].req == s.txns[t].req
  }

  lemma AnswerNoFence(s: State, t: nat, ok: bool)
    requires t in s.txns
    ensures NoNewFence(s, Answer(s, t, ok))
  {
    hide AnswerReplica; hide AnswerIngester;
  }

  predicate SameGrounds(x: Txn, y: Txn) {
    x.fencedAt == y.fencedAt && x.req == y.req
  }

  lemma PhaseNoFence(s: State, t: nat, x: Txn, s': State)
    requires s'.txns == s.txns[t := x] && (x.fencedAt.None? || (t in s.txns && SameGrounds(x, s.txns[t])))
    ensures NoNewFence(s, s')
  {
  }

  lemma OverNoFence(s: State, t: nat, s': State)
    requires s'.txns == s.txns - {t}
    ensures NoNewFence(s, s')
  {
  }

  lemma MoveNoFence(s: State, step: TxnStep)
    requires TxnEnabled(s, step) && !step.Check?
    ensures NoNewFence(s, TxnNext(s, step))
  {
    hide TxnEnabled; hide TxnNext; hide Reconcile; hide Paths; hide Outputs; hide Answer; hide AnswerReplica; hide AnswerIngester;
    hide BodyOf; hide Record; hide NoNewFence;
    var t, s' := step.txn, TxnNext(s, step);
    if step.Begin? {
      BeginFrame(s, t, step.req);
      PhaseNoFence(s, t, Txn(step.req, s.now, None, Locked), s');
    } else if step.Finish? {
      FinishFrame(s, t, step.ack);
      OverNoFence(s, t, s');
    } else {
      TxnFrame(s, step);
      AnswerNoFence(s, t, true);
      AnswerNoFence(s, t, false);
      if step.Lookup? { LookupFrame(s, t, step.ack); }
      if step.Alloc? { AllocFrame(s, t); }
      if step.Rollback? { RollbackFrame(s, t); }
      if t in s'.txns && s'.txns == s.txns[t := s'.txns[t]] && SameGrounds(s'.txns[t], s.txns[t]) { PhaseNoFence(s, t, s'.txns[t], s'); }
    }
  }

  /** A dead token does not pass the fence. */
  lemma UnfencedTxn(s: State, step: TxnStep, l: Lease)
    requires TxnEnabled(s, step) && Dead(s, l) && NoneFenced(s, l)
    ensures NoneFenced(TxnNext(s, step), l)
  {
    hide TxnNext; hide ClientOk; hide Holds;
    if step.Check? {
      var t := step.txn;
      CheckFrame(s, t);
      AnswerNoFence(s, t, false);
      if s.txns[t].req.lease == Some(l) && Fence(s.db, s.now, s.txns[t].req.ht, l, s.txns[t].req.op).None? {
        FencePasses(s, s.txns[t].req.ht, l, s.txns[t].req.op);
      }
    } else {
      MoveNoFence(s, step);
    }
  }

  lemma {:induction false} LostTokenStaysOut(run: seq<State>, steps: seq<Step>, i: nat, j: nat, l: Lease)
    requires IsRun(run, steps) && i <= j < |run| && Dead(run[i], l) && NoneFenced(run[i], l)
    ensures Dead(run[j], l) && NoneFenced(run[j], l)
    decreases j - i
  {
    hide IsRun; hide Inv; hide Dead; hide NoneFenced;
    if i < j {
      RunStart(run, steps);
      LostTokenStaysOut(run, steps, i, j - 1, l);
      RunStep(run, steps, j - 1);
      UnfencedStays(run[j - 1], steps[j - 1], l);
      RunTenanciesLast(run, steps, i, j);
    }
  }

  /** Once a tenancy has expired, been taken over or been released, no REPLACE that has
      not already passed its fence can ever commit under its token. */
  lemma LostLeaseNeverCommits(run: seq<State>, steps: seq<Step>, i: nat, j: nat, l: Lease, req: Request)
    requires IsRun(run, steps) && i <= j < |steps| && Dead(run[i], l) && NoneFenced(run[i], l) && req.lease == Some(l)
    ensures !Commits(run[j], steps[j], req)
  {
    RunStart(run, steps);
    LostTokenStaysOut(run, steps, i, j, l);
    RunFences(run, steps, j);
    if steps[j].TxnS? && steps[j].t.txn in run[j].txns { assert FencedOk(run[j], run[j].txns[steps[j].t.txn]); }
  }

  /** A REPLACE that commits under a lease: its token is the one in the row, the row was
      unexpired when the fence read it, and it touches only the leased partition. */
  lemma LeasedCommitStaysInside(run: seq<State>, steps: seq<Step>, i: nat, req: Request)
    requires IsRun(run, steps) && i < |steps| && Commits(run[i], steps[i], req) && req.lease.Some?
    ensures var l := req.lease.value;
            && req.ht == l.ht && InRow(run[i].db.leases, l) && Inside(run[i], l, req.op)
            && exists at :: at <= run[i].now && at < run[i].db.leases[(l.ht, l.partition)].expiresAt
                            && run[i].txns[steps[i].t.txn].fencedAt == Some(at)
  {
    RunStart(run, steps);
    RunFences(run, steps, i);
    assert FencedOk(run[i], run[i].txns[steps[i].t.txn]);
  }

  /** The step hands the row's own token back. */
  predicate HandsBack(s: State, step: Step, k: (Ht, Partition)) {
    step.LeaseS? && step.l.Release? && k in s.db.leases
    && step.l.lease == Lease(k.0, k.1, s.db.leases[k].owner, s.db.leases[k].generation)
  }

  lemma LeaseRowStands(s: State, step: LeaseStep, k: (Ht, Partition))
    requires LeaseEnabled(s, step) && k in s.db.leases && s.now < s.db.leases[k].expiresAt && !HandsBack(s, LeaseS(step), k)
    ensures var leases := LeaseNext(s, step).db.leases;
            k in leases && leases[k].owner == s.db.leases[k].owner && leases[k].generation == s.db.leases[k].generation
  {
    hide InstallLease; hide RenewLease; hide ReleaseLease; hide LeaseRowLocked;
    match step
    case Draw(_, _, _, _, _) =>
    case Install(a) =>
      var q := s.acquires[a];
      InstallMeans(s.db.leases, s.now, q.ht, q.partition, q.owner, q.drawn, q.ttl);
      var out := InstallLease(s.db.leases, s.now, q.ht, q.partition, q.owner, q.drawn, q.ttl);
      assert LeaseNext(s, step).db.leases == out.1;
      assert out.0.None? || out.1 == s.db.leases[(q.ht, q.partition) := LeaseRow(q.owner, out.0.value.generation, s.now + q.ttl)];
    case Renew(l, ttl) => RenewMeans(s.db.leases, s.now, l, ttl);
    case Release(l) =>
      ReleaseMeans(s.db.leases, l);
      assert l == Lease(l.ht, l.partition, l.owner, l.generation);
  }

  /** A row whose expiry has not come is nobody else's to take: whatever step is made, its
      owner and generation stand unless its own token is handed back. */
  lemma UnexpiredRowStands(s: State, step: Step, k: (Ht, Partition))
    requires Enabled(s, step) && k in s.db.leases && s.now < s.db.leases[k].expiresAt && !HandsBack(s, step, k)
    ensures var leases := Next(s, step).db.leases;
            k in leases && leases[k].owner == s.db.leases[k].owner && leases[k].generation == s.db.leases[k].generation
  {
    hide Enabled; hide Next; hide LeaseEnabled; hide LeaseNext;
    StepMeans(s, step);
    if step.LeaseS? { LeaseRowStands(s, step.l, k); } else { OthersKeepLeases(s, step); }
  }

  /** So a tenancy that never lapses and is never handed back stays its owner's, under one
      generation, however often it is extended and whoever else tries to take it. */
  lemma {:induction false} TenancyStands(run: seq<State>, steps: seq<Step>, i: nat, j: nat, k: (Ht, Partition))
    requires IsRun(run, steps) && i <= j < |run| && k in run[i].db.leases
    requires forall m :: i <= m < j && k in run[m].db.leases ==> run[m].now < run[m].db.leases[k].expiresAt && !HandsBack(run[m], steps[m], k)
    ensures k in run[j].db.leases && run[j].db.leases[k].owner == run[i].db.leases[k].owner
    ensures run[j].db.leases[k].generation == run[i].db.leases[k].generation
    decreases j - i
  {
    hide IsRun; hide Enabled; hide Next; hide Inv; hide HandsBack;
    if i < j {
      RunStart(run, steps);
      TenancyStands(run, steps, i, j - 1, k);
      RunStep(run, steps, j - 1);
      UnexpiredRowStands(run[j - 1], steps[j - 1], k);
    }
  }

  // ---------------------------------------------------------------- objects

  /** Reaping, at any moment of any run, leaves every live part's object alone, and
      a reaped part never becomes live again. */
  lemma ReapingSparesLiveParts(run: seq<State>, steps: seq<Step>, i: nat, g: nat, q: PartId)
    requires IsRun(run, steps) && i < |steps| && steps[i] == GcS(ReapDelete(g))
    requires q in run[i].db.parts && Live(run[i].db.parts[q]) && run[i].db.parts[q].meta.path in run[i].store
    ensures run[i].db.parts[q].meta.path in run[i + 1].store
  {
    hide *;
    RunStart(run, steps);
    RunStep(run, steps, i);
    StepMeans(run[i], steps[i]);
    InvMeans(run[i]);
    ReapIsSafe(run[i], g);
  }

  /** The object is there as long as the part is live. */
  ghost predicate HasObject(s: State, p: PartId) {
    p in s.db.parts && Live(s.db.parts[p]) ==> s.db.parts[p].meta.path in s.store
  }

  /** A part whose own commit landed before its intent's grace was over keeps its object
      until it is reaped, whatever else in the run is late. */
  lemma CommittedObjectStays(run: seq<State>, steps: seq<Step>, i: nat, j: nat, p: PartId)
    requires IsRun(run, steps) && i < j < |run| && CommitsInTime(run, i, p)
    ensures p in run[j].db.parts && run[j].db.parts[p].meta == run[i + 1].db.parts[p].meta
    ensures p in run[j].hist.reaped || run[j].db.parts[p].meta.path in run[j].store
    ensures HasObject(run[j], p)
  {
    hide IsRun; hide CommitsInTime;
    InTimeIsHeld(run, steps, i, p);
    RunHeld(run, steps, i + 1, j, p);
    RunPartsLast(run, steps, i + 1, j);
    RunReaped(run, steps, j);
  }

  /** From any reachable state on, in every run that goes on from there, a live part keeps
      its object while it is live if and only if the object is stored and no collector has
      fetched its path as an orphan's. */
  lemma ObjectStaysIff(run: seq<State>, steps: seq<Step>, i: nat, p: PartId)
    requires IsRun(run, steps) && i < |run| && p in run[i].db.parts && Live(run[i].db.parts[p])
    ensures run[i].db.parts[p].meta.path in run[i].store && NotSwept(run[i], run[i].db.parts[p].meta.path)
            <==> forall run': seq<State>, steps': seq<Step>, j: nat ::
                   IsRun(run', steps') && i <= j < |run'| && run'[i] == run[i] ==> HasObject(run'[j], p)
  {
    hide IsRun; hide Enabled; hide Next;
    var s := run[i];
    var x := s.db.parts[p].meta.path;
    if x in s.store && NotSwept(s, x) {
      forall run': seq<State>, steps': seq<Step>, j: nat | IsRun(run', steps') && i <= j < |run'| && run'[i] == s
        ensures HasObject(run'[j], p)
      {
        RunHeld(run', steps', i, j, p);
        RunReaped(run', steps', j);
      }
    } else if x in s.store {
      var g :| g in s.gcs && s.gcs[g].GSweep? && s.gcs[g].path == x;
      SweepTakes(s, g, p);
      var run', steps' := GoOn(run, steps, i, GcS(SweepDelete(g)));
      assert !HasObject(run'[i + 1], p);
    } else {
      assert !HasObject(run[i], p);
    }
  }

  lemma SweepTakes(s: State, g: nat, p: PartId)
    requires g in s.gcs && s.gcs[g].GSweep? && p in s.db.parts && Live(s.db.parts[p]) && s.gcs[g].path == s.db.parts[p].meta.path
    ensures Enabled(s, GcS(SweepDelete(g))) && !HasObject(Next(s, GcS(SweepDelete(g))), p)
  {
    hide Reapable; hide Orphaned;
  }

  /** A run may go on from any of its states with any enabled step. */
  lemma GoOn(run: seq<State>, steps: seq<Step>, i: nat, step: Step) returns (run': seq<State>, steps': seq<Step>)
    requires IsRun(run, steps) && i < |run| && Enabled(run[i], step)
    ensures IsRun(run', steps') && |run'| == i + 2 && run'[i] == run[i] && run'[i + 1] == Next(run[i], step)
  {
    hide Init; hide Enabled; hide Next;
    run', steps' := run[..i + 1] + [Next(run[i], step)], steps[..i] + [step];
    forall k | 0 <= k < |steps'| ensures Enabled(run'[k], steps'[k]) && run'[k + 1] == Next(run'[k], steps'[k]) {
      if k < i { assert Enabled(run[k], steps[k]) && run[k + 1] == Next(run[k], steps[k]); }
    }
  }

  /** If every commit lands in time, every live part has its object: uploads may be late. */
  lemma {:induction false} LivePartsHaveObjects(run: seq<State>, steps: seq<Step>, i: nat)
    requires IsRun(run, steps) && i < |run|
    requires forall k, p :: 0 <= k < i && p !in run[k].db.parts && p in run[k + 1].db.parts ==> CommitsInTime(run, k, p)
    ensures forall p :: p in run[i].db.parts ==> Held(run[i], p)
    ensures forall p :: HasObject(run[i], p)
  {
    hide IsRun; hide CommitsInTime; hide NotSwept;
    RunStart(run, steps);
    if i > 0 {
      LivePartsHaveObjects(run, steps, i - 1);
      forall p | p in run[i].db.parts ensures Held(run[i], p) {
        if p in run[i - 1].db.parts { RunHeld(run, steps, i - 1, i, p); } else { InTimeIsHeld(run, steps, i - 1, p); }
      }
    }
    RunReaped(run, steps, i);
  }

  // ---------------------------------------------------------------- the tombstone grace

  /** Whatever a reaper holds or has deleted was tombstoned at least the grace ago. */
  ghost predicate GraceOk(s: State) {
    && (forall g :: g in s.gcs && (s.gcs[g].GReap? || s.gcs[g].GReaped?) ==> PastGrace(s.db, s.now, s.cfg.tombstoneGrace, s.gcs[g].part))
    && (forall p :: p in s.hist.reaped ==> PastGrace(s.db, s.now, s.cfg.tombstoneGrace, p))
  }

  lemma PastGraceLasts(s: State, s': State, p: PartId)
    requires Grows(s, s') && PartsLast(s, s') && s.now <= s'.now && PastGrace(s.db, s.now, s.cfg.tombstoneGrace, p)
    ensures PastGrace(s'.db, s'.now, s'.cfg.tombstoneGrace, p)
  {
    hide FeedKept;
  }

  lemma GcGrace(s: State, step: GcStep)
    requires GraceOk(s) && GcEnabled(s, step)
    ensures GcNext(s, step).now == s.now
    ensures var s' := GcNext(s, step);
            && (forall g :: g in s'.gcs && (s'.gcs[g].GReap? || s'.gcs[g].GReaped?) ==> PastGrace(s.db, s.now, s.cfg.tombstoneGrace, s'.gcs[g].part))
            && (forall p :: p in s'.hist.reaped ==> PastGrace(s.db, s.now, s.cfg.tombstoneGrace, p))
  {
    hide Reapable; hide PastGrace; hide Orphaned;
    if step.ReapFetch? { ReapableIsPast(s, step.ht, step.part); }
  }

  lemma ReapableIsPast(s: State, ht: Ht, p: PartId)
    requires Reapable(s.db, s.now, s.cfg.tombstoneGrace, ht, p)
    ensures PastGrace(s.db, s.now, s.cfg.tombstoneGrace, p)
  {
    ReapableMeans(s.db, s.now, s.cfg.tombstoneGrace, ht, p);
  }

  /** Reapers change only by their own steps. */
  lemma ReapersKept(s: State, step: Step)
    requires Enabled(s, step) && !step.GcS?
    ensures var s' := Next(s, step); s'.gcs == s.gcs && s'.hist.reaped == s.hist.reaped && s.now <= s'.now
  {
    hide Enabled; hide Next; hide Lands; hide Still;
    if step.ObjectS? { StepMeans(s, step); ObjectFrame(s, step.o); }
    else if Lands(s, step) { LandsReapers(s, step); }
    else { StillStep(s, step); StillReapers(s, Next(s, step)); }
  }

  lemma LandsReapers(s: State, step: Step)
    requires Enabled(s, step) && Lands(s, step)
    ensures var s' := Next(s, step); s'.gcs == s.gcs && s'.hist.reaped == s.hist.reaped && s'.now == s.now
  {
    hide Enabled; hide Next; hide BodyOf; hide CommitEffect;
    LandsEffect(s, step);
    CommitObjects(s, step.t.txn, Next(s, step));
  }

  lemma StillReapers(s: State, s': State)
    requires Still(s, s')
    ensures s'.gcs == s.gcs && s'.hist.reaped == s.hist.reaped && s.now <= s'.now
  {
  }

  lemma {:induction false} RunGrace(run: seq<State>, steps: seq<Step>, i: nat)
    requires IsRun(run, steps) && i < |run|
    ensures GraceOk(run[i])
  {
    hide IsRun; hide Enabled; hide Next; hide Inv; hide PastGrace; hide Grows; hide PartsLast;
    RunStart(run, steps);
    if i > 0 {
      var s, s' := run[i - 1], run[i];
      RunGrace(run, steps, i - 1);
      RunStep(run, steps, i - 1);
      RunGrows(run, steps, i - 1, i);
      RunPartsLast(run, steps, i - 1, i);
      if steps[i - 1].GcS? { StepMeans(s, steps[i - 1]); GcGrace(s, steps[i - 1].g); } else { ReapersKept(s, steps[i - 1]); }
      forall p | PastGrace(s.db, s.now, s.cfg.tombstoneGrace, p) ensures PastGrace(s'.db, s'.now, s'.cfg.tombstoneGrace, p) { PastGraceLasts(s, s', p); }
    }
  }

  /** No object of a part is reaped before the grace of the part's own tombstone is over. */
  lemma ReapingWaits(run: seq<State>, steps: seq<Step>, i: nat, p: PartId)
    requires IsRun(run, steps) && i < |run| && p in run[i].hist.reaped
    ensures PastGrace(run[i].db, run[i].now, run[i].cfg.tombstoneGrace, p)
  {
    hide IsRun; hide PastGrace;
    RunGrace(run, steps, i);
  }

  /** A query that planned against a part finds its object until the part's tombstone is as
      old as the grace, if the object was there and no sweeper held its path. */
  lemma QueryFindsItsObject(run: seq<State>, steps: seq<Step>, i: nat, j: nat, p: PartId)
    requires IsRun(run, steps) && i <= j < |run| && p in run[i].db.parts
    requires run[i].db.parts[p].meta.path in run[i].store && NotSwept(run[i], run[i].db.parts[p].meta.path)
    requires !PastGrace(run[j].db, run[j].now, run[j].cfg.tombstoneGrace, p)
    ensures run[i].db.parts[p].meta.path in run[j].store
  {
    hide IsRun; hide PastGrace; hide NotSwept;
    RunHeld(run, steps, i, j, p);
    RunGrace(run, steps, j);
    RunPartsLast(run, steps, i, j);
  }

  // ---------------------------------------------------------------- the books

  /** An object that is stored is on the collector's books. */
  ghost predicate OnBooks(s: State, x: Path) {
    x in s.store ==> x in s.db.pending || Owned(s, x)
  }

  /** An upload that landed before its intent's grace was over stays on the books for as
      long as it is stored, whatever else in the run is late. */
  lemma UploadStaysOnBooks(run: seq<State>, steps: seq<Step>, i: nat, j: nat, x: Path, rows: seq<Row>)
    requires IsRun(run, steps) && i < j < |run| && steps[i] == ObjectS(Put(x, rows)) && Young(run[i], x)
    ensures OnBooks(run[j], x)
  {
    hide Inv;
    RunStart(run, steps);
    RunYoung(run, steps, i);
    RunStep(run, steps, i);
    TimelyPutCovers(run[i], x, rows);
    RunCovered(run, steps, i + 1, j, x);
  }

  /** From any reachable state on, in every run that goes on from there, an upload stays on
      the books if and only if it is not stored, or owned by an unpurged part, or has an
      intent that no collector is about to clear. */
  lemma StaysOnBooksIff(run: seq<State>, steps: seq<Step>, i: nat, x: Path)
    requires IsRun(run, steps) && i < |run| && x in run[i].content
    ensures (x in run[i].store ==> Owned(run[i], x) || (x in run[i].db.pending && NotCleared(run[i], x)))
            <==> forall run': seq<State>, steps': seq<Step>, j: nat ::
                   IsRun(run', steps') && i <= j < |run'| && run'[i] == run[i] ==> OnBooks(run'[j], x)
  {
    var s := run[i];
    if x in s.store ==> Owned(s, x) || (x in s.db.pending && NotCleared(s, x)) {
      forall run': seq<State>, steps': seq<Step>, j: nat | IsRun(run', steps') && i <= j < |run'| && run'[i] == s
        ensures OnBooks(run'[j], x)
      {
        RunCovered(run', steps', i, j, x);
      }
    } else if x in s.db.pending {
      var g :| g in s.gcs && s.gcs[g].GSwept? && s.gcs[g].path == x;
      ClearForgets(s, g, x);
      var run', steps' := GoOn(run, steps, i, GcS(SweepClear(g)));
      assert !OnBooks(run'[i + 1], x);
    } else {
      assert !OnBooks(run[i], x);
    }
  }

  lemma ClearForgets(s: State, g: nat, x: Path)
    requires g in s.gcs && s.gcs[g].GSwept? && s.gcs[g].path == x && x in s.store && !Owned(s, x)
    ensures Enabled(s, GcS(SweepClear(g))) && !OnBooks(Next(s, GcS(SweepClear(g))), x)
  {
    hide Reapable; hide Orphaned;
    var s' := GcNext(s, SweepClear(g));
    assert Owned(s', x) ==> Owned(s, x);
  }

  /** If every upload lands in time, every stored object is on the books: commits may be
      late. */
  lemma {:induction false} StoreIsOnBooks(run: seq<State>, steps: seq<Step>, i: nat)
    requires IsRun(run, steps) && i < |run|
    requires forall k :: 0 <= k < i && steps[k].ObjectS? && steps[k].o.Put? ==> Young(run[k], steps[k].o.path)
    ensures forall x :: x in run[i].content ==> Covered(run[i], x)
    ensures forall x :: OnBooks(run[i], x)
  {
    hide Enabled; hide Inv;
    RunStart(run, steps);
    if i > 0 {
      StoreIsOnBooks(run, steps, i - 1);
      RunYoung(run, steps, i - 1);
      RunStep(run, steps, i - 1);
      forall x | x in run[i].content ensures Covered(run[i], x) {
        if x in run[i - 1].content { RunCovered(run, steps, i - 1, i, x); } else { NewContent(run[i - 1], steps[i - 1], x); }
      }
    }
    RunPaths(run, steps, i);
  }

  lemma NewContent(s: State, step: Step, x: Path)
    requires Inv(s) && YoungOk(s) && Enabled(s, step) && x !in s.content && x in Next(s, step).content
    requires step.ObjectS? && step.o.Put? ==> Young(s, step.o.path)
    ensures Covered(Next(s, step), x)
  {
    hide Inv; hide YoungOk; hide Young; hide TxnEnabled; hide TxnNext; hide FeedEnabled; hide FeedNext; hide LeaseEnabled; hide LeaseNext;
    hide MvEnabled; hide MvNext; hide IngestEnabled; hide IngestNext; hide GcEnabled; hide GcNext; hide Lands; hide CommitEffect; hide Covered;
    if step.ObjectS? { if step.o.Put? { TimelyPutCovers(s, x, step.o.rows); } }
    else if step.GcS? { GcFrame(s, step.g); }
    else if Lands(s, step) { LandsCommits(s, step); }
    else { StillStep(s, step); }
  }

  lemma LandsCommits(s: State, step: Step)
    requires Enabled(s, step) && Lands(s, step)
    ensures Next(s, step).content == s.content
  {
    LandsEffect(s, step);
    CommitObjects(s, step.t.txn, Next(s, step));
  }
}
