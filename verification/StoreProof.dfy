/** The object store against the catalog, file by file: which live parts keep their
    object and which stored objects stay on the books, in every run. */
module StoreProof {
  import opened Base
  import opened Rows
  import opened Tables
  import opened Machine
  import opened Frames
  import opened Wellformed
  import opened FeedProof
  import opened MvProof
  import opened IngestProof
  import opened LeaseProof
  import opened GcProof
  import opened ContentProof
  import opened Runs

  /** No collector is about to delete the object as an orphan's. */
  ghost predicate NotSwept(s: State, x: Path) {
    forall g :: g in s.gcs && s.gcs[g].GSweep? ==> s.gcs[g].path != x
  }

  /** No collector is about to clear the intent as an orphan's. */
  ghost predicate NotCleared(s: State, x: Path) {
    forall g :: g in s.gcs && s.gcs[g].GSwept? ==> s.gcs[g].path != x
  }

  /** Young intents are out of every collector's hands, and their uploads are stored. */
  ghost predicate YoungOk(s: State) {
    && (forall g :: g in s.gcs && (s.gcs[g].GSweep? || s.gcs[g].GSwept?) ==>
          s.gcs[g].path in s.registered && !Young(s, s.gcs[g].path))
    && (forall x :: x in s.content && Young(s, x) ==> x in s.store)
  }

  /** The part's object can go by reaping alone. */
  ghost predicate Held(s: State, p: PartId) {
    && p in s.db.parts
    && NotSwept(s, s.db.parts[p].meta.path)
    && (p in s.hist.reaped || s.db.parts[p].meta.path in s.store)
  }

  /** If the upload is stored, an unpurged part owns it or its intent will outlast it. */
  ghost predicate Covered(s: State, x: Path) {
    && x in s.content
    && (x in s.store ==> Owned(s, x) || (x in s.db.pending && NotCleared(s, x)))
  }

  // ---------------------------------------------------------------- steps that touch no object

  ghost predicate Still(s: State, s': State) {
    && s'.cfg == s.cfg && s'.db.parts == s.db.parts && s'.db.pending == s.db.pending
    && s'.content == s.content && s'.registered == s.registered && s'.store == s.store
    && s'.gcs == s.gcs && s'.hist.reaped == s.hist.reaped && s.now <= s'.now
  }

  ghost predicate Lands(s: State, step: Step) {
    step.TxnS? && step.t.Finish? && step.t.txn in s.txns && s.txns[step.t.txn].phase.Allocated?
    && BodyOf(s, step.t.txn).0.Committed?
  }

  lemma DrewItsId(s: State, t: nat, ack: bool)
    requires TxnEnabled(s, Finish(t, ack))
    ensures t in s.txns && s.txns[t].phase.Allocated?
  {
    hide RequestOk; hide ClientOk; hide LeaseRowLocked;
  }

  lemma StillStep(s: State, step: Step)
    requires Enabled(s, step) && !step.ObjectS? && !step.GcS? && !Lands(s, step)
    ensures Still(s, Next(s, step))
  {
    hide Enabled; hide Next; hide TxnEnabled; hide TxnNext; hide CommitEffect; hide TxnMoves; hide BodyOf;
    StepMeans(s, step);
    match step
    case TxnS(t) =>
      if t.Finish? { DrewItsId(s, t.txn, t.ack); FinishCases(s, t.txn, t.ack); } else { TxnMovesOn(s, t); MovesFrame(s, TxnNext(s, t)); }
    case FeedS(f) => FeedFrame(s, f);
    case LeaseS(l) => LeaseFrame(s, l);
    case MvS(m) => MvFrame(s, m);
    case IngestS(i) => IngestFrame(s, i);
    case Tick =>
  }

  lemma StillKeeps(s: State, s': State)
    requires Still(s, s')
    ensures YoungOk(s) ==> YoungOk(s')
    ensures forall p :: Held(s, p) ==> Held(s', p)
    ensures forall x :: Covered(s, x) ==> Covered(s', x)
  {
    assert forall x :: Young(s', x) ==> Young(s, x);
    assert forall x :: Owned(s, x) ==> Owned(s', x);
    hide Young; hide Owned;
  }

  // ---------------------------------------------------------------- commits

  lemma LandsEffect(s: State, step: Step)
    requires Enabled(s, step) && Lands(s, step)
    ensures CommitEffect(s, step.t.txn, Next(s, step))
  {
    FinishCases(s, step.t.txn, step.t.ack);
  }

  /** Of objects and collectors a commit touches only the intents of its outputs. */
  lemma CommitObjects(s: State, t: nat, s': State)
    requires CommitEffect(s, t, s')
    ensures s'.store == s.store && s'.content == s.content && s'.registered == s.registered && s'.gcs == s.gcs
    ensures s'.hist.reaped == s.hist.reaped && s'.cfg == s.cfg && s'.now == s.now
    ensures s'.db.pending == s.db.pending - Paths(Outputs(s.txns[t].req.op))
  {
    RecordHeads(s, s.txns[t].req);
  }

  lemma CommitKeepsYoung(s: State, t: nat, s': State)
    requires YoungOk(s) && CommitEffect(s, t, s')
    ensures YoungOk(s')
  {
    hide CommitEffect;
    CommitObjects(s, t, s');
    assert forall x :: Young(s', x) ==> Young(s, x);
  }

  lemma CommitKeepsHeld(s: State, t: nat, s': State, p: PartId)
    requires PartsOk(s) && Held(s, p) && CommitEffect(s, t, s')
    ensures Held(s', p)
  {
    CommitObjects(s, t, s');
    CommitPartIdentity(s, t, s');
    PartOrigin(s, t, s', p);
  }

  /** A part that commits while its intent is young is held. */
  lemma TimelyCommitHolds(s: State, t: nat, s': State, p: PartId)
    requires PartsOk(s) && PathsOk(s) && TxnPathsOk(s) && YoungOk(s) && CommitEffect(s, t, s')
    requires p in s'.db.parts && p !in s.db.parts && Young(s, s'.db.parts[p].meta.path)
    ensures Held(s', p)
  {
    hide CommitEffect;
    CommitLeaves(s, t, s');
    CommitObjects(s, t, s');
    PartOrigin(s, t, s', p);
  }

  lemma CommitKeepsCovered(s: State, t: nat, s': State, x: Path)
    requires PartsOk(s) && Covered(s, x) && CommitEffect(s, t, s')
    ensures Covered(s', x)
  {
    hide PartsAfter; hide AllLive; hide PartsOk;
    var out, n := Outputs(s.txns[t].req.op), s.db.nextPart;
    CommitObjects(s, t, s');
    CommitPartIdentity(s, t, s');
    if Owned(s, x) {
      var p :| p in s.db.parts && s.db.parts[p].meta.path == x && !s.db.parts[p].purged;
      OwnerStays(s, t, s', p);
    } else if x in Paths(out) {
      var m :| m in out && m.path == x;
      var k :| 0 <= k < |out| && out[k] == m;
      NewOwner(s, t, s', k);
    }
  }

  lemma OwnerStays(s: State, t: nat, s': State, p: PartId)
    requires PartsOk(s) && CommitEffect(s, t, s') && p in s.db.parts
    ensures p in s'.db.parts && s'.db.parts[p].purged == s.db.parts[p].purged && s'.db.parts[p].meta == s.db.parts[p].meta
  {
    PartsAfterRows(s.db, s.txns[t].phase.id, s.txns[t].req.ht, s.txns[t].req.op);
  }

  lemma NewOwner(s: State, t: nat, s': State, k: nat)
    requires PartsOk(s) && CommitEffect(s, t, s') && k < |Outputs(s.txns[t].req.op)|
    ensures var p := s.db.nextPart + k;
            p in s'.db.parts && !s'.db.parts[p].purged && s'.db.parts[p].meta == Outputs(s.txns[t].req.op)[k]
  {
    PartsAfterRows(s.db, s.txns[t].phase.id, s.txns[t].req.ht, s.txns[t].req.op);
  }

  // ---------------------------------------------------------------- uploads

  lemma ObjectKeepsYoung(s: State, step: ObjectStep)
    requires PathsOk(s) && YoungOk(s) && ObjectEnabled(s, step)
    ensures YoungOk(ObjectNext(s, step))
  {
    hide Unused;
  }

  lemma ObjectKeepsHeld(s: State, step: ObjectStep, p: PartId)
    requires Held(s, p) && ObjectEnabled(s, step)
    ensures Held(ObjectNext(s, step), p)
  {
  }

  lemma ObjectKeepsCovered(s: State, step: ObjectStep, x: Path)
    requires Covered(s, x) && ObjectEnabled(s, step)
    ensures Covered(ObjectNext(s, step), x)
  {
    if Owned(s, x) { assert Owned(ObjectNext(s, step), x); }
  }

  /** An upload that lands while its intent is young is covered. */
  lemma TimelyPutCovers(s: State, x: Path, rows: seq<Row>)
    requires YoungOk(s) && ObjectEnabled(s, Put(x, rows)) && Young(s, x)
    ensures Covered(ObjectNext(s, Put(x, rows)), x)
  {
  }

  // ---------------------------------------------------------------- collectors

  lemma ReapKeepsYoung(s: State, step: GcStep)
    requires PathsOk(s) && YoungOk(s) && GcEnabled(s, step) && (step.ReapDelete? || step.ReapMark?)
    ensures YoungOk(GcNext(s, step))
  {
    var s' := GcNext(s, step);
    assert forall x :: Young(s', x) <==> Young(s, x);
    if step.ReapDelete? {
      assert forall x :: Young(s, x) ==> x != s.db.parts[s.gcs[step.gc].part].meta.path;
    }
  }

  lemma SweepKeepsYoung(s: State, step: GcStep)
    requires PathsOk(s) && YoungOk(s) && GcEnabled(s, step) && !step.ReapDelete? && !step.ReapMark?
    ensures YoungOk(GcNext(s, step))
  {
    hide Reapable; hide Unused;
  }

  lemma GcKeepsYoung(s: State, step: GcStep)
    requires PathsOk(s) && YoungOk(s) && GcEnabled(s, step)
    ensures YoungOk(GcNext(s, step))
  {
    hide *;
    if step.ReapDelete? || step.ReapMark? { ReapKeepsYoung(s, step); } else { SweepKeepsYoung(s, step); }
  }

  /** Only its own reaping takes a held part's object. */
  lemma GcKeepsHeld(s: State, step: GcStep, p: PartId)
    requires PathsOk(s) && Held(s, p) && GcEnabled(s, step)
    ensures Held(GcNext(s, step), p)
  {
    hide Reapable;
    if step.SweepFetch? { assert Unused(s, step.path); }
    hide Unused;
  }

  lemma OwnerKept(s: State, step: GcStep, x: Path)
    requires ReapedOk(s) && GcEnabled(s, step) && Owned(s, x) && x in s.store
    ensures Owned(GcNext(s, step), x)
  {
    hide Reapable; hide Orphaned;
    var p :| p in s.db.parts && s.db.parts[p].meta.path == x && !s.db.parts[p].purged;
    var s' := GcNext(s, step);
    assert step.ReapMark? ==> s.gcs[step.gc].part != p;
    assert p in s'.db.parts && s'.db.parts[p] == s.db.parts[p];
  }

  lemma GcKeepsCovered(s: State, step: GcStep, x: Path)
    requires ReapedOk(s) && Covered(s, x) && GcEnabled(s, step)
    ensures Covered(GcNext(s, step), x)
  {
    if x in s.store && Owned(s, x) { OwnerKept(s, step, x); }
  }

  // ---------------------------------------------------------------- every step

  lemma StepKeepsYoung(s: State, step: Step)
    requires Inv(s) && YoungOk(s) && Enabled(s, step)
    ensures YoungOk(Next(s, step))
  {
    hide BodyOf; hide CommitEffect;
    InvParts(s);
    if step.ObjectS? { ObjectKeepsYoung(s, step.o); }
    else if step.GcS? { GcKeepsYoung(s, step.g); }
    else if Lands(s, step) { LandsEffect(s, step); CommitKeepsYoung(s, step.t.txn, Next(s, step)); }
    else { StillStep(s, step); StillKeeps(s, Next(s, step)); }
  }

  lemma StepKeepsHeld(s: State, step: Step, p: PartId)
    requires Inv(s) && Held(s, p) && Enabled(s, step)
    ensures Held(Next(s, step), p)
  {
    hide TxnPathsOk; hide ReapedOk; hide BodyOf; hide Still; hide CommitEffect;
    InvParts(s);
    if step.ObjectS? { ObjectKeepsHeld(s, step.o, p); }
    else if step.GcS? { GcKeepsHeld(s, step.g, p); }
    else if Lands(s, step) { LandsEffect(s, step); CommitKeepsHeld(s, step.t.txn, Next(s, step), p); }
    else { StillStep(s, step); StillKeeps(s, Next(s, step)); }
  }

  lemma StepKeepsCovered(s: State, step: Step, x: Path)
    requires Inv(s) && Covered(s, x) && Enabled(s, step)
    ensures Covered(Next(s, step), x)
  {
    hide TxnPathsOk; hide ReapedOk; hide BodyOf; hide CommitEffect;
    InvParts(s);
    if step.ObjectS? { ObjectKeepsCovered(s, step.o, x); }
    else if step.GcS? { GcKeepsCovered(s, step.g, x); }
    else if Lands(s, step) { LandsEffect(s, step); CommitKeepsCovered(s, step.t.txn, Next(s, step), x); }
    else { StillStep(s, step); StillKeeps(s, Next(s, step)); }
  }

  // ---------------------------------------------------------------- every run

  lemma RunStep(run: seq<State>, steps: seq<Step>, i: nat)
    requires IsRun(run, steps) && i < |steps|
    ensures Enabled(run[i], steps[i]) && run[i + 1] == Next(run[i], steps[i]) && Inv(run[i])
  {
    hide *;
    RunMeans(run, steps);
    RunInv(run, steps, i);
    InvMeans(run[i]);
  }

  /** Whatever the timing, a young intent's upload is stored and in nobody's hands. */
  lemma {:induction false} RunYoung(run: seq<State>, steps: seq<Step>, i: nat)
    requires IsRun(run, steps) && i < |run|
    ensures YoungOk(run[i])
  {
    hide Inv;
    RunMeans(run, steps);
    if i > 0 {
      RunYoung(run, steps, i - 1);
      RunStep(run, steps, i - 1);
      StepKeepsYoung(run[i - 1], steps[i - 1]);
    }
  }

  lemma {:induction false} RunHeld(run: seq<State>, steps: seq<Step>, i: nat, j: nat, p: PartId)
    requires IsRun(run, steps) && i <= j < |run| && Held(run[i], p)
    ensures Held(run[j], p)
    decreases j - i
  {
    hide *;
    if i < j {
      RunMeans(run, steps);
      RunHeld(run, steps, i, j - 1, p);
      RunStep(run, steps, j - 1);
      StepKeepsHeld(run[j - 1], steps[j - 1], p);
    }
  }

  lemma {:induction false} RunCovered(run: seq<State>, steps: seq<Step>, i: nat, j: nat, x: Path)
    requires IsRun(run, steps) && i <= j < |run| && Covered(run[i], x)
    ensures Covered(run[j], x)
    decreases j - i
  {
    hide *;
    if i < j {
      RunMeans(run, steps);
      RunCovered(run, steps, i, j - 1, x);
      RunStep(run, steps, j - 1);
      StepKeepsCovered(run[j - 1], steps[j - 1], x);
    }
  }

  lemma GcAddsNoPart(s: State, step: GcStep)
    requires GcEnabled(s, step)
    ensures GcNext(s, step).db.parts.Keys == s.db.parts.Keys
  {
    hide Reapable; hide Orphaned;
  }

  /** Only a commit registers parts. */
  lemma PartsAppearByCommit(s: State, step: Step, p: PartId)
    requires Enabled(s, step) && p !in s.db.parts && p in Next(s, step).db.parts
    ensures Lands(s, step)
  {
    if step.ObjectS? { ObjectFrame(s, step.o); }
    else if step.GcS? { GcAddsNoPart(s, step.g); }
    else if !Lands(s, step) { StillStep(s, step); }
  }

  /** The part's own commit came before its intent's grace was over. */
  ghost predicate CommitsInTime(run: seq<State>, i: nat, p: PartId) {
    && i + 1 < |run| && p !in run[i].db.parts && p in run[i + 1].db.parts
    && Young(run[i], run[i + 1].db.parts[p].meta.path)
  }

  lemma InTimeIsHeld(run: seq<State>, steps: seq<Step>, i: nat, p: PartId)
    requires IsRun(run, steps) && CommitsInTime(run, i, p)
    ensures Held(run[i + 1], p)
  {
    hide Init; hide Enabled; hide Next; hide Inv; hide PathsOk; hide TxnPathsOk; hide ReapedOk; hide YoungOk; hide Young;
    hide CommitEffect; hide BodyOf; hide Held;
    RunMeans(run, steps);
    RunStep(run, steps, i);
    RunYoung(run, steps, i);
    InvParts(run[i]);
    PartsAppearByCommit(run[i], steps[i], p);
    LandsEffect(run[i], steps[i]);
    TimelyCommitHolds(run[i], steps[i].t.txn, run[i + 1], p);
  }
}
