/** Every reachable state satisfies every invariant, and what a state settles stays
    settled in all later states of the run. */
module Runs {
  import opened Base
  import opened Rows
  import opened Tables
  import opened Machine
  import opened Frames
  import opened Wellformed
  import opened FeedProof
  import opened MvProof
  import opened IngestProof
  import opened LeaseProof
  import opened GcProof
  import opened ContentProof

  ghost predicate Inv(s: State) {
    && Wf(s) && FeedOk(s) && MvOk(s) && ReadersOk(s) && IngestOk(s) && LeaseOk(s) && GcOk(s) && FenceOk(s) && ContentOk(s)
  }

  /** Parts keep their identity, and a tombstone is final. */
  ghost predicate PartsLast(s: State, s': State) {
    forall p :: p in s.db.parts ==>
      && p in s'.db.parts && s'.db.parts[p].ht == s.db.parts[p].ht && s'.db.parts[p].meta == s.db.parts[p].meta
      && s'.db.parts[p].createdBy == s.db.parts[p].createdBy
      && (s.db.parts[p].deletedBy.Some? ==> s'.db.parts[p].deletedBy == s.db.parts[p].deletedBy)
  }

  ghost predicate OffsetsLast(s: State, s': State) {
    forall ht, tp :: Stored(s.db.offsets, ht, tp) <= Stored(s'.db.offsets, ht, tp)
  }

  /** A generation once installed keeps its tenancy, and a token that lost its lease
      never holds it again. */
  ghost predicate TenanciesLast(s: State, s': State) {
    && (forall l :: Dead(s, l) ==> Dead(s', l))
    && (forall g :: g in s.hist.tenancies ==> g in s'.hist.tenancies && s'.hist.tenancies[g] == s.hist.tenancies[g])
  }

  ghost predicate Lasts(s: State, s': State) {
    Grows(s, s') && PartsLast(s, s') && OffsetsLast(s, s') && TenanciesLast(s, s')
  }

  // ---------------------------------------------------------------- opening definitions

  /** The invariants one by one, for proofs that hide what each of them says. */
  lemma InvMeans(s: State)
    ensures Inv(s) <==> Wf(s) && FeedOk(s) && MvOk(s) && ReadersOk(s) && IngestOk(s) && LeaseOk(s) && GcOk(s) && FenceOk(s) && ContentOk(s)
  {
    hide ContentOk;
  }

  lemma InvParts(s: State)
    requires Inv(s)
    ensures CommitsOk(s) && PartsOk(s) && TxnsOk(s) && ReapersOk(s)
    ensures PathsOk(s) && TxnPathsOk(s) && ReapedOk(s)
    ensures PartBoundsOk(s) && RequestContentsOk(s) && LedgerBalances(s)
  {
    InvMeans(s);
    hide IngestOk;
  }

  lemma InvWorkers(s: State)
    requires Inv(s)
    ensures LocksOk(s) && HeadsOk(s) && CursorsOk(s) && ConsumersOk(s) && ReplicasOk(s) && PipelinesOk(s)
    ensures LogsOk(s) && LedgerOk(s) && WorkersOk(s) && RequestsOk(s) && CommitRangesOk(s)
    ensures GenerationsOk(s) && FencesOk(s) && FenceOk(s)
  {
    InvMeans(s);
    hide GcOk; hide ContentOk;
  }

  /** A step is a step of one family. */
  lemma StepMeans(s: State, step: Step)
    requires Enabled(s, step)
    ensures match step
            case TxnS(t) => TxnEnabled(s, t) && Next(s, step) == TxnNext(s, t)
            case FeedS(f) => FeedEnabled(s, f) && Next(s, step) == FeedNext(s, f)
            case LeaseS(l) => LeaseEnabled(s, l) && Next(s, step) == LeaseNext(s, l)
            case MvS(m) => MvEnabled(s, m) && Next(s, step) == MvNext(s, m)
            case IngestS(i) => IngestEnabled(s, i) && Next(s, step) == IngestNext(s, i)
            case ObjectS(o) => ObjectEnabled(s, o) && Next(s, step) == ObjectNext(s, o)
            case GcS(g) => GcEnabled(s, g) && Next(s, step) == GcNext(s, g)
            case Tick => Next(s, step) == s.(now := s.now + 1)
  {
    hide GcNext;
  }

  lemma RunMeans(run: seq<State>, steps: seq<Step>)
    requires IsRun(run, steps)
    ensures |run| == |steps| + 1 && Init(run[0])
    ensures forall i :: 0 <= i < |steps| ==> Enabled(run[i], steps[i]) && run[i + 1] == Next(run[i], steps[i])
  {
    hide Init; hide Enabled; hide Next;
  }

  lemma LastsMeans(s: State, s': State)
    ensures Lasts(s, s') <==> Grows(s, s') && PartsLast(s, s') && OffsetsLast(s, s') && TenanciesLast(s, s')
  {
  }

  // ---------------------------------------------------------------- small frames

  lemma ReadersFrame(s: State, s': State)
    requires ReadersOk(s) && s'.cfg == s.cfg && forall r :: r in s'.readers ==> r in s.readers && s'.readers[r] == s.readers[r]
    ensures ReadersOk(s')
  {
  }

  lemma FeedKeepsReaders(s: State, step: FeedStep)
    requires ReadersOk(s) && FeedEnabled(s, step)
    ensures ReadersOk(FeedNext(s, step))
  {
    hide IsPage; hide Head; hide SetCursor;
    if step.FeedLock? {
    } else if step.FeedRead? {
      FeedReadReaders(s, step.reader);
    } else {
      ReadersFrame(s, FeedNext(s, step));
    }
  }

  lemma FeedReadReaders(s: State, r: nat)
    requires ReadersOk(s) && FeedEnabled(s, FeedRead(r))
    ensures ReadersOk(FeedNext(s, FeedRead(r)))
  {
    var s' := FeedNext(s, FeedRead(r));
    FeedReadFrame(s, r);
    FeedFrame(s, FeedRead(r));
    HandsOut(s, r, s');
    ReadersFrame(s, s');
  }

  lemma SameParts(s: State, s': State)
    requires s'.db.parts == s.db.parts
    ensures PartsLast(s, s')
  {
  }

  lemma SameOffsets(s: State, s': State)
    requires s'.db.offsets == s.db.offsets
    ensures OffsetsLast(s, s')
  {
  }

  lemma SameLeases(s: State, s': State)
    requires s'.db.leases == s.db.leases && s'.hist.tenancies == s.hist.tenancies && s.now <= s'.now
    ensures TenanciesLast(s, s')
  {
    forall l | Dead(s, l) ensures Dead(s', l) { assert Holds(s'.db.leases, s'.now, l) ==> Holds(s.db.leases, s.now, l); }
  }

  /** Steps that leave parts, leases and offsets alone. */
  lemma QuietLasts(s: State, s': State)
    requires s'.db.parts == s.db.parts && s'.db.offsets == s.db.offsets && s'.db.leases == s.db.leases
    requires s'.hist.tenancies == s.hist.tenancies && s.now <= s'.now && Grows(s, s')
    ensures Lasts(s, s')
  {
    hide *;
    SameParts(s, s');
    SameOffsets(s, s');
    SameLeases(s, s');
    LastsMeans(s, s');
  }

  lemma MovesFrame(s: State, s': State)
    requires TxnMoves(s, s')
    ensures s'.cfg == s.cfg && s'.db == s.db && s'.content == s.content && s'.registered == s.registered
    ensures s'.store == s.store && s'.gcs == s.gcs && s'.hist == s.hist && s'.now == s.now
  {
  }

  // ---------------------------------------------------------------- transactions

  lemma BeginStep(s: State, t: nat, req: Request)
    requires Inv(s) && TxnEnabled(s, Begin(t, req))
    ensures Inv(TxnNext(s, Begin(t, req))) && Lasts(s, TxnNext(s, Begin(t, req)))
  {
    hide ViewsGrow;
    var s' := TxnNext(s, Begin(t, req));
    var step := Begin(t, req);
    BeginFrame(s, t, req);
    TxnKeeps(s, step);
    TxnKeepsFeed(s, step);
    CursorsHold(s);
    TxnKeepsMv(s, step);
    ReadersFrame(s, s');
    TxnKeepsIngest(s, step);
    TxnKeepsLease(s, step);
    BeginKeepsGc(s, t, req);
    BeginKeepsContent(s, t, req);
    KeepsFence(s, s');
    SameTablesGrow(s, s');
    QuietLasts(s, s');
  }

  lemma CursorsHold(s: State)
    requires FeedOk(s)
    ensures CursorsOk(s)
  {
  }

  /** Parts, cursors, collectors and the reap history as before. */
  lemma KeepsFence(s: State, s': State)
    requires Wf(s) && FenceOk(s) && s'.db.parts == s.db.parts && s'.db.cursors == s.db.cursors
    requires s'.gcs == s.gcs && s'.hist.reaped == s.hist.reaped
    ensures FenceOk(s')
  {
    SameViews(s, s');
    FenceFrame(s, s');
  }

  lemma MoveStep(s: State, step: TxnStep)
    requires Inv(s) && TxnEnabled(s, step) && !step.Begin? && !step.Finish?
    ensures Inv(TxnNext(s, step)) && Lasts(s, TxnNext(s, step))
  {
    hide IngestOk; hide LeaseOk;
    hide Grows; hide AnswerReplica; hide AnswerIngester;
    var s' := TxnNext(s, step);
    TxnFrame(s, step);
    TxnKeeps(s, step);
    TxnKeepsFeed(s, step);
    CursorsHold(s);
    TxnKeepsMv(s, step);
    ReadersFrame(s, s');
    TxnKeepsIngest(s, step);
    TxnKeepsLease(s, step);
    MovesKeepsGc(s, step);
    MovesKeepsContent(s, step);
    KeepsFence(s, s');
    SameTablesGrow(s, s');
    QuietLasts(s, s');
  }

  lemma CommitLasts(s: State, t: nat, s': State)
    requires Wf(s) && FeedOk(s) && IngestOk(s) && CommitEffect(s, t, s') && Grows(s, s')
    ensures Lasts(s, s')
  {
    hide Record; hide Outputs;
    hide Grows; hide IngestOk; hide FeedOk; hide CommitsOk; hide TxnsOk; hide ReapersOk; hide PartsOk; hide TenanciesLast;
    hide Stored; hide Msgs; hide LogEnd;
    CommitPartIdentity(s, t, s');
    CommitKeepsLedger(s, t, s');
    RecordHeads(s, s.txns[t].req);
    SameLeases(s, s');
  }

  lemma FinishStep(s: State, t: nat, ack: bool)
    requires Inv(s) && TxnEnabled(s, Finish(t, ack))
    ensures Inv(TxnNext(s, Finish(t, ack))) && Lasts(s, TxnNext(s, Finish(t, ack)))
  {
    hide IngestOk; hide LeaseOk; hide BodyOf;
    hide GcOk; hide ContentOk; hide Lasts; hide Grows; hide CommitEffect; hide AnswerReplica; hide AnswerIngester;
    hide Record;
    var s' := TxnNext(s, Finish(t, ack));
    FinishCases(s, t, ack);
    FinishFrame(s, t, ack);
    FinishKeeps(s, t, ack);
    FinishKeepsFeed(s, t, ack);
    FinishKeepsMv(s, t, ack);
    ReadersFrame(s, s');
    FinishKeepsIngest(s, t, ack);
    FinishKeepsLease(s, t, ack);
    FinishKeepsGc(s, t, ack);
    FinishKeepsContent(s, t, ack);
    if BodyOf(s, t).0.Committed? {
      WfParts(s);
      CommitKeepsFence(s, t, s');
      CommitLasts(s, t, s');
    } else {
      KeepsFence(s, s');
      QuietLasts(s, s');
    }
  }

  lemma WfParts(s: State)
    requires Wf(s)
    ensures PartsOk(s)
  {
  }

  // ---------------------------------------------------------------- feed, leases, views

  lemma FeedStepKeeps(s: State, step: FeedStep)
    requires Inv(s) && FeedEnabled(s, step)
    ensures Inv(FeedNext(s, step)) && Lasts(s, FeedNext(s, step))
  {
    hide *;
    InvMeans(s);
    var s' := FeedNext(s, step);
    FeedFrame(s, step);
    WfFrame(s, s');
    FeedKeepsFeed(s, step);
    FeedKeepsMv(s, step);
    FeedKeepsReaders(s, step);
    QuietKeepsIngest(s, s');
    QuietKeepsLease(s, s');
    QuietKeepsGc(s, s');
    AllKept(s, s');
    ContentFrame(s, s');
    QuietLasts(s, s');
    WfParts(s);
    FeedViews(s, step);
    FenceFrame(s, s');
    InvMeans(FeedNext(s, step));
  }

  lemma AllKept(s: State, s': State)
    requires s'.db.parts == s.db.parts && s'.content == s.content
    ensures ContentProof.Persists(s, s')
  {
  }

  /** A feed step that moves a view's cursor registers it at the head it read. */
  lemma FeedViews(s: State, step: FeedStep)
    requires FeedEnabled(s, step)
    ensures ViewsGrow(s, FeedNext(s, step))
  {
    hide Head; hide IsPage;
    if step.FeedRead? { FeedReadViews(s, step.reader); }
  }

  lemma FeedReadViews(s: State, r: nat)
    requires FeedEnabled(s, FeedRead(r))
    ensures ViewsGrow(s, FeedNext(s, FeedRead(r)))
  {
    FeedReadFrame(s, r);
    HandsOut(s, r, FeedNext(s, FeedRead(r)));
  }

  lemma LeaseStepKeeps(s: State, step: LeaseStep)
    requires Inv(s) && LeaseEnabled(s, step)
    ensures Inv(LeaseNext(s, step)) && Lasts(s, LeaseNext(s, step))
  {
    hide ReadersOk; hide IngestOk;
    hide GcOk; hide FenceOk; hide ContentOk; hide Grows; hide ViewsGrow; hide ContentProof.Persists; hide GenerationsOk; hide FencesOk;
    hide PartsLast; hide OffsetsLast; hide Dead; hide LeaseOk;
    var s' := LeaseNext(s, step);
    LeaseFrame(s, step);
    WfFrame(s, s');
    FeedOkFrame(s, s');
    CursorsHold(s);
    MvFrameKeeps(s, s');
    ReadersFrame(s, s');
    QuietKeepsIngest(s, s');
    LeaseKeepsLease(s, step);
    QuietKeepsGc(s, s');
    AllKept(s, s');
    ContentFrame(s, s');
    KeepsFence(s, s');
    SameParts(s, s');
    SameOffsets(s, s');
    LeaseGenerations(s);
    forall l | Dead(s, l) ensures Dead(s', l) { LeaseStepDead(s, step, l); }
    TenanciesGrow(s, step);
  }

  lemma LeaseGenerations(s: State)
    requires LeaseOk(s)
    ensures GenerationsOk(s)
  {
    hide GenerationsOk; hide FencesOk;
  }

  lemma TenanciesGrow(s: State, step: LeaseStep)
    requires LeaseOk(s) && LeaseEnabled(s, step)
    ensures forall g :: g in s.hist.tenancies ==>
              g in LeaseNext(s, step).hist.tenancies && LeaseNext(s, step).hist.tenancies[g] == s.hist.tenancies[g]
  {
    if step.Install? { assert s.acquires[step.acquire].drawn !in s.hist.tenancies; }
  }

  /** A view's advance only moves its cursor forward. */
  lemma MvViews(s: State, s': State)
    requires Grows(s, s') && forall k :: k in s'.db.cursors ==> k in s.db.cursors
    ensures ViewsGrow(s, s')
  {
    hide FeedKept; hide Head;
  }

  lemma MvCursorKeys(s: State, step: MvStep)
    requires MvOk(s) && MvEnabled(s, step)
    ensures forall k :: k in MvNext(s, step).db.cursors ==> k in s.db.cursors
  {
    if step.MvAdvance? {
      assert ReplicaOk(s, s.replicas[step.replica]);
    } else {
      MvFrame(s, step);
    }
  }

  lemma MvStepKeeps(s: State, step: MvStep)
    requires Inv(s) && MvEnabled(s, step)
    ensures Inv(MvNext(s, step)) && Lasts(s, MvNext(s, step))
  {
    hide ContentOk; hide Lasts; hide Grows; hide ViewsGrow; hide PartsOk;
    hide ContentProof.Persists; hide FeedKept;
    var s' := MvNext(s, step);
    MvFrame(s, step);
    WfFrame(s, s');
    MvKeepsMv(s, step);
    SameFeed(s, s');
    LocksFrame(s, s');
    ConsumersFrame(s, s');
    ReadersFrame(s, s');
    QuietKeepsIngest(s, s');
    QuietKeepsLease(s, s');
    QuietKeepsGc(s, s');
    AllKept(s, s');
    ContentFrame(s, s');
    QuietLasts(s, s');
    WfParts(s);
    MvCursorKeys(s, step);
    MvViews(s, s');
    FenceFrame(s, s');
  }

  lemma LocksFrame(s: State, s': State)
    requires LocksOk(s) && HeadsOk(s) && s'.txns == s.txns && s'.readers == s.readers
    requires s'.commitSeq == s.commitSeq && s'.hist.heads == s.hist.heads
    ensures LocksOk(s') && HeadsOk(s')
  {
    assert forall ht :: HeadOf(s'.hist, ht) == HeadOf(s.hist, ht);
  }

  // ---------------------------------------------------------------- the remaining families

  lemma IngestStepKeeps(s: State, step: IngestStep)
    requires Inv(s) && IngestEnabled(s, step)
    ensures Inv(IngestNext(s, step)) && Lasts(s, IngestNext(s, step))
  {
    hide *;
    InvMeans(s);
    var s' := IngestNext(s, step);
    IngestFrame(s, step);
    IngestKeepsIngest(s, step);
    WfFrame(s, s');
    FeedOkFrame(s, s');
    CursorsHold(s);
    MvFrameKeeps(s, s');
    ReadersFrame(s, s');
    QuietKeepsLease(s, s');
    QuietKeepsGc(s, s');
    AllKept(s, s');
    ContentFrame(s, s');
    KeepsFence(s, s');
    QuietLasts(s, s');
    InvMeans(IngestNext(s, step));
  }

  lemma ObjectStepKeeps(s: State, step: ObjectStep)
    requires Inv(s) && ObjectEnabled(s, step)
    ensures Inv(ObjectNext(s, step)) && Lasts(s, ObjectNext(s, step))
  {
    hide *;
    InvMeans(s);
    var s' := ObjectNext(s, step);
    ObjectFrame(s, step);
    WfFrame(s, s');
    FeedOkFrame(s, s');
    CursorsHold(s);
    MvFrameKeeps(s, s');
    ReadersFrame(s, s');
    QuietKeepsIngest(s, s');
    QuietKeepsLease(s, s');
    ObjectKeepsGc(s, step);
    ObjectKeepsContent(s, step);
    KeepsFence(s, s');
    QuietLasts(s, s');
    InvMeans(ObjectNext(s, step));
  }

  lemma GcPartsLast(s: State, step: GcStep)
    requires GcEnabled(s, step)
    ensures PartsLast(s, GcNext(s, step))
  {
    hide Reapable; hide Orphaned;
  }

  lemma GcStepKeeps(s: State, step: GcStep)
    requires Inv(s) && GcEnabled(s, step)
    ensures Inv(GcNext(s, step)) && Lasts(s, GcNext(s, step))
  {
    hide FenceOk; hide TenanciesLast;
    var s' := GcNext(s, step);
    GcFrame(s, step);
    GcPartsLast(s, step);
    GcKeeps(s, step);
    FeedOkFrame(s, s');
    CursorsHold(s);
    MvFrameKeeps(s, s');
    ReadersFrame(s, s');
    QuietKeepsIngest(s, s');
    QuietKeepsLease(s, s');
    GcKeepsGc(s, step);
    WfParts(s);
    GcKeepsFence(s, step);
    GcKeepsContent(s, step);
    SameOffsets(s, s');
    SameLeases(s, s');
  }

  lemma TickKeeps(s: State)
    requires Inv(s)
    ensures Inv(s.(now := s.now + 1)) && Lasts(s, s.(now := s.now + 1))
  {
    hide *;
    InvMeans(s);
    var s' := s.(now := s.now + 1);
    WfFrame(s, s');
    FeedOkFrame(s, s');
    CursorsHold(s);
    MvFrameKeeps(s, s');
    ReadersFrame(s, s');
    QuietKeepsIngest(s, s');
    QuietKeepsLease(s, s');
    QuietKeepsGc(s, s');
    AllKept(s, s');
    ContentFrame(s, s');
    KeepsFence(s, s');
    QuietLasts(s, s');
    InvMeans(s.(now := s.now + 1));
  }

  /** Every step of every worker keeps every invariant and everything settled. */
  lemma StepKeeps(s: State, step: Step)
    requires Inv(s) && Enabled(s, step)
    ensures Inv(Next(s, step)) && Lasts(s, Next(s, step))
  {
    hide *;
    InvMeans(s);
    StepMeans(s, step);
    InvMeans(Next(s, step));
    match step
    case TxnS(t) =>
      if t.Begin? { BeginStep(s, t.txn, t.req); }
      else if t.Finish? { FinishStep(s, t.txn, t.ack); }
      else { MoveStep(s, t); }
    case FeedS(f) => FeedStepKeeps(s, f);
    case LeaseS(l) => LeaseStepKeeps(s, l);
    case MvS(m) => MvStepKeeps(s, m);
    case IngestS(i) => IngestStepKeeps(s, i);
    case ObjectS(o) => ObjectStepKeeps(s, o);
    case GcS(g) => GcStepKeeps(s, g);
    case Tick => TickKeeps(s);
  }

  // ---------------------------------------------------------------- whole runs

  lemma InitTables(s: State)
    requires Init(s)
    ensures Wf(s) && FeedOk(s) && ReadersOk(s) && LeaseOk(s)
  {
  }

  lemma InitWorkers(s: State)
    requires Init(s)
    ensures MvOk(s) && IngestOk(s)
  {
  }

  lemma InitObjects(s: State)
    requires Init(s)
    ensures GcOk(s) && FenceOk(s) && ContentOk(s)
  {
  }

  lemma InitInv(s: State)
    requires Init(s)
    ensures Inv(s)
  {
    hide *;
    InitTables(s);
    InitWorkers(s);
    InitObjects(s);
    InvMeans(s);
  }

  /** Every reachable state satisfies every invariant. */
  lemma {:induction false} RunInv(run: seq<State>, steps: seq<Step>, i: nat)
    requires IsRun(run, steps) && i < |run|
    ensures Inv(run[i])
  {
    hide *;
    RunMeans(run, steps);
    if i == 0 {
      InitInv(run[0]);
    } else {
      RunInv(run, steps, i - 1);
      StepKeeps(run[i - 1], steps[i - 1]);
    }
    InvMeans(run[i]);
  }

  lemma GrowsTrans(a: State, b: State, c: State)
    requires Grows(a, b) && Grows(b, c)
    ensures Grows(a, c)
  {
    hide FeedKept;
    KeptTrans(a, b, c);
  }

  lemma KeptTrans(a: State, b: State, c: State)
    requires FeedKept(a, b) && FeedKept(b, c)
    ensures FeedKept(a, c)
  {
    hide HeadOf; hide Feed;
    forall ht ensures HeadOf(a.hist, ht) <= HeadOf(c.hist, ht) && PrefixKept(a.db, c.db, ht, HeadOf(a.hist, ht)) {
      assert HeadOf(a.hist, ht) <= HeadOf(b.hist, ht) <= HeadOf(c.hist, ht);
      assert PrefixKept(a.db, b.db, ht, HeadOf(a.hist, ht)) && PrefixKept(b.db, c.db, ht, HeadOf(b.hist, ht));
    }
  }

  lemma LastsTrans(a: State, b: State, c: State)
    requires Lasts(a, b) && Lasts(b, c)
    ensures Lasts(a, c)
  {
    GrowsTrans(a, b, c);
    assert TenanciesLast(a, c);
    assert PartsLast(a, c);
    forall ht, tp ensures Stored(a.db.offsets, ht, tp) <= Stored(c.db.offsets, ht, tp) {
      assert Stored(a.db.offsets, ht, tp) <= Stored(b.db.offsets, ht, tp) <= Stored(c.db.offsets, ht, tp);
    }
  }

  lemma LastsSelf(s: State)
    ensures Lasts(s, s)
  {
  }

  /** What one state of a run settles, every later state of the run keeps. */
  lemma {:induction false} RunLasts(run: seq<State>, steps: seq<Step>, i: nat, j: nat)
    requires IsRun(run, steps) && i <= j < |run|
    ensures Lasts(run[i], run[j])
    decreases j - i
  {
    hide *;
    RunMeans(run, steps);
    if i == j {
      LastsSelf(run[i]);
    } else {
      RunLasts(run, steps, i, j - 1);
      RunInv(run, steps, j - 1);
      StepKeeps(run[j - 1], steps[j - 1]);
      LastsTrans(run[i], run[j - 1], run[j]);
    }
  }

  // ---------------------------------------------------------------- one invariant at a time

  lemma RunStart(run: seq<State>, steps: seq<Step>)
    requires IsRun(run, steps)
    ensures |run| == |steps| + 1 && Init(run[0])
  {
    hide *;
    RunMeans(run, steps);
  }

  lemma RunCommits(run: seq<State>, steps: seq<Step>, i: nat)
    requires IsRun(run, steps) && i < |run|
    ensures CommitsOk(run[i])
  {
    hide *;
    RunInv(run, steps, i);
    InvParts(run[i]);
  }

  lemma RunParts(run: seq<State>, steps: seq<Step>, i: nat)
    requires IsRun(run, steps) && i < |run|
    ensures PartsOk(run[i])
  {
    hide *;
    RunInv(run, steps, i);
    InvParts(run[i]);
  }

  lemma RunPaths(run: seq<State>, steps: seq<Step>, i: nat)
    requires IsRun(run, steps) && i < |run|
    ensures PathsOk(run[i]) && TxnPathsOk(run[i])
  {
    hide *;
    RunInv(run, steps, i);
    InvParts(run[i]);
  }

  lemma RunReaped(run: seq<State>, steps: seq<Step>, i: nat)
    requires IsRun(run, steps) && i < |run|
    ensures ReapedOk(run[i])
  {
    hide *;
    RunInv(run, steps, i);
    InvParts(run[i]);
  }

  lemma RunBounds(run: seq<State>, steps: seq<Step>, i: nat)
    requires IsRun(run, steps) && i < |run|
    ensures PartBoundsOk(run[i])
  {
    hide *;
    RunInv(run, steps, i);
    InvParts(run[i]);
  }

  lemma RunRequests(run: seq<State>, steps: seq<Step>, i: nat)
    requires IsRun(run, steps) && i < |run|
    ensures RequestContentsOk(run[i])
  {
    hide *;
    RunInv(run, steps, i);
    InvParts(run[i]);
  }

  lemma RunBalances(run: seq<State>, steps: seq<Step>, i: nat)
    requires IsRun(run, steps) && i < |run|
    ensures LedgerBalances(run[i])
  {
    hide *;
    RunInv(run, steps, i);
    InvParts(run[i]);
  }

  lemma RunConsumers(run: seq<State>, steps: seq<Step>, i: nat)
    requires IsRun(run, steps) && i < |run|
    ensures ConsumersOk(run[i])
  {
    hide *;
    RunInv(run, steps, i);
    InvWorkers(run[i]);
  }

  lemma RunReplicas(run: seq<State>, steps: seq<Step>, i: nat)
    requires IsRun(run, steps) && i < |run|
    ensures ReplicasOk(run[i])
  {
    hide *;
    RunInv(run, steps, i);
    InvWorkers(run[i]);
  }

  lemma RunPipelines(run: seq<State>, steps: seq<Step>, i: nat)
    requires IsRun(run, steps) && i < |run|
    ensures PipelinesOk(run[i])
  {
    hide *;
    RunInv(run, steps, i);
    InvWorkers(run[i]);
  }

  lemma RunLedger(run: seq<State>, steps: seq<Step>, i: nat)
    requires IsRun(run, steps) && i < |run|
    ensures LedgerOk(run[i])
  {
    hide *;
    RunInv(run, steps, i);
    InvWorkers(run[i]);
  }

  lemma RunGenerations(run: seq<State>, steps: seq<Step>, i: nat)
    requires IsRun(run, steps) && i < |run|
    ensures GenerationsOk(run[i])
  {
    hide *;
    RunInv(run, steps, i);
    InvWorkers(run[i]);
  }

  lemma RunFences(run: seq<State>, steps: seq<Step>, i: nat)
    requires IsRun(run, steps) && i < |run|
    ensures FencesOk(run[i])
  {
    hide *;
    RunInv(run, steps, i);
    InvWorkers(run[i]);
  }

  lemma RunPassed(run: seq<State>, steps: seq<Step>, i: nat)
    requires IsRun(run, steps) && i < |run|
    ensures FenceOk(run[i])
  {
    hide *;
    RunInv(run, steps, i);
    InvWorkers(run[i]);
  }

  lemma RunGrows(run: seq<State>, steps: seq<Step>, i: nat, j: nat)
    requires IsRun(run, steps) && i <= j < |run|
    ensures Grows(run[i], run[j])
  {
    hide *;
    RunLasts(run, steps, i, j);
    LastsMeans(run[i], run[j]);
  }

  lemma RunPartsLast(run: seq<State>, steps: seq<Step>, i: nat, j: nat)
    requires IsRun(run, steps) && i <= j < |run|
    ensures PartsLast(run[i], run[j])
  {
    hide *;
    RunLasts(run, steps, i, j);
    LastsMeans(run[i], run[j]);
  }

  lemma RunOffsetsLast(run: seq<State>, steps: seq<Step>, i: nat, j: nat)
    requires IsRun(run, steps) && i <= j < |run|
    ensures OffsetsLast(run[i], run[j])
  {
    hide *;
    RunLasts(run, steps, i, j);
    LastsMeans(run[i], run[j]);
  }

  lemma RunTenanciesLast(run: seq<State>, steps: seq<Step>, i: nat, j: nat)
    requires IsRun(run, steps) && i <= j < |run|
    ensures TenanciesLast(run[i], run[j])
  {
    hide *;
    RunLasts(run, steps, i, j);
    LastsMeans(run[i], run[j]);
  }
}
