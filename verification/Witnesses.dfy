/** Short runs that show where a guarantee ends: which of its conditions it needs. */
module Witnesses {
  import opened Base
  import opened Rows
  import opened Tables
  import opened Machine
  import opened Frames
  import opened Wellformed
  import opened LeaseProof
  import opened GcProof
  import opened StoreProof
  import opened Theorems

  /** A run goes on with any enabled step. */
  lemma Extend(run: seq<State>, steps: seq<Step>, step: Step, s': State)
    requires IsRun(run, steps) && Enabled(run[|steps|], step) && s' == Next(run[|steps|], step)
    ensures IsRun(run + [s'], steps + [step])
  {
    hide Init; hide Enabled; hide Next;
  }

  // ---------------------------------------------------------------- one upload and its commit

  const Start := State(Config(map[], 0, 0, map[]), EmptyDb, 1, 1, 0, map[], 0, map[], map[], map[], map[], map[], map[], map[],
                       map[], {}, {}, {}, EmptyHistory)

  const File := PartMeta(0, 0, 0, 0, 0)

  const Intent := Identity(0, ForeignDigest(0), Some(ForeignDigest(0)))

  /** An ADD of one empty file by a caller outside the fleet. */
  const Upload := Request(0, Add([File]), Some(Intent), [], None, Direct, map[], {}, {})

  const Registered := Start.(registered := {0}, db := EmptyDb.(pending := map[0 := Pending(0, 0)]))
  const Uploaded := Registered.(content := map[0 := []], store := {0})
  const Begun := Uploaded.(txns := map[0 := Txn(Upload, 0, None, Locked)], nextTxn := 1, claimed := {0})
  const Drawn := Begun.(txns := map[0 := Txn(Upload, 0, None, Allocated(1))], commitSeq := 2)

  const CommittedDb := EmptyDb.(commits := map[1 := CommitRow(0, KAdd, Some(ForeignDigest(0)), Some(ForeignDigest(0)), 0)],
                                keyIndex := map[(0, ForeignDigest(0)) := 1],
                                parts := map[0 := Part(0, File, 1, None, false)], nextPart := 1)

  const CommittedHist := EmptyHistory.(added := map[0 := multiset{}], erased := map[0 := multiset{}])

  lemma RegisterSteps()
    ensures Init(Start)
    ensures Enabled(Start, ObjectS(RegisterPath(0, 0))) && Next(Start, ObjectS(RegisterPath(0, 0))) == Registered
  {
  }

  lemma PutSteps()
    ensures Enabled(Registered, ObjectS(Put(0, []))) && Next(Registered, ObjectS(Put(0, []))) == Uploaded
  {
  }

  lemma BeginSteps()
    ensures Enabled(Uploaded, TxnS(Begin(0, Upload))) && Next(Uploaded, TxnS(Begin(0, Upload))) == Begun
  {
    hide Answer;
    OnePath();
    assert {} + Paths(Outputs(Upload.op)) == {0};
  }

  lemma OnePath()
    ensures Paths([File]) == {0}
  {
    assert File in [File];
  }

  lemma AllocSteps()
    ensures Enabled(Begun, TxnS(Alloc(0))) && Next(Begun, TxnS(Alloc(0))) == Drawn
  {
    hide Answer;
  }

  lemma BodyOfUpload()
    ensures Body(Drawn.db, 1, 0, Upload.op, Upload.ident, [], 0) == (Committed(1), CommittedDb)
  {
    OnePath();
    assert NewParts(0, 1, 0, [File]) == map[0 := Part(0, File, 1, None, false)];
    hide NewParts; hide Paths;
    var db1 := InsertCommit(Drawn.db, 1, 0, KAdd, Upload.ident, 0);
    assert InsertParts(db1, 0, 1, [File]) == CommittedDb;
  }

  lemma RecordUpload(s: State)
    requires s.hist == EmptyHistory && s.content == Uploaded.content
    ensures Record(s, Upload) == CommittedHist
  {
    assert Files(s, [File]) == [[]];
    assert Flatten(Files(s, [File])) == [] + Flatten(Files(s, [File])[1..]);
  }

  /** The upload commits from any state that differs from `Drawn` only in its collectors. */
  lemma FinishSteps(gcs: map<nat, GcState>)
    ensures var s := Drawn.(gcs := gcs);
            && Enabled(s, TxnS(Finish(0, true)))
            && BodyOf(s, 0).0.Committed?
            && Next(s, TxnS(Finish(0, true))) == s.(db := CommittedDb, hist := CommittedHist, txns := map[])
  {
    hide Body;
    var s := Drawn.(gcs := gcs);
    BodyOfUpload();
    RecordUpload(s);
    FinishFrame(s, 0, true);
    assert s.txns - {0} == map[];
  }

  lemma BeginRun() returns (run: seq<State>, steps: seq<Step>)
    ensures IsRun(run, steps) && |steps| == 3 && run[3] == Begun
  {
    hide Init; hide Enabled; hide Next;
    RegisterSteps(); PutSteps(); BeginSteps();
    run, steps := [Start], [];
    Extend(run, steps, ObjectS(RegisterPath(0, 0)), Registered);
    run, steps := run + [Registered], steps + [ObjectS(RegisterPath(0, 0))];
    Extend(run, steps, ObjectS(Put(0, [])), Uploaded);
    run, steps := run + [Uploaded], steps + [ObjectS(Put(0, []))];
    Extend(run, steps, TxnS(Begin(0, Upload)), Begun);
    run, steps := run + [Begun], steps + [TxnS(Begin(0, Upload))];
  }

  lemma DrawnRun() returns (run: seq<State>, steps: seq<Step>)
    ensures IsRun(run, steps) && |steps| == 4 && run[3] == Begun && run[4] == Drawn
  {
    hide Init; hide Enabled; hide Next;
    AllocSteps();
    run, steps := BeginRun();
    Extend(run, steps, TxnS(Alloc(0)), Drawn);
    run, steps := run + [Drawn], steps + [TxnS(Alloc(0))];
  }

  const Arrived := Drawn.(db := CommittedDb, hist := CommittedHist, txns := map[])

  lemma LandedRun() returns (run: seq<State>, steps: seq<Step>)
    ensures IsRun(run, steps) && |steps| == 5 && run[5] == Arrived && run[3] == Begun
  {
    run, steps := DrawnRun();
    FinishSteps(map[]);
    assert Drawn.(gcs := map[]) == Drawn;
    Extend(run, steps, TxnS(Finish(0, true)), Arrived);
    run, steps := run + [Arrived], steps + [TxnS(Finish(0, true))];
  }

  // ---------------------------------------------------------------- absence is not final

  lemma AbsentNow()
    ensures Reconcile(Begun.db, Intent) == Ok(None) && Reconcile(CommittedDb, Intent) == Ok(Some(1))
  {
  }

  /** A lookup that answers `Absent` may be followed by the commit it did not see. */
  lemma AbsentIsNotFinal() returns (run: seq<State>, steps: seq<Step>)
    ensures IsRun(run, steps) && |run| == 6
    ensures Reconcile(run[3].db, Intent) == Ok(None) && Reconcile(run[5].db, Intent) == Ok(Some(1))
  {
    AbsentNow();
    run, steps := LandedRun();
  }

  // ---------------------------------------------------------------- an untimely commit

  const Fetched := Drawn.(gcs := map[0 := GSweep(0)])
  const Swept := Fetched.(db := CommittedDb, hist := CommittedHist.(swept := {0}), txns := map[], store := {}, gcs := map[0 := GSwept(0)])

  lemma SweepFetchSteps()
    ensures Enabled(Drawn, GcS(SweepFetch(0, 0))) && Next(Drawn, GcS(SweepFetch(0, 0))) == Fetched
  {
    hide Reapable;
  }

  lemma SweepDeleteSteps()
    ensures var s := Fetched.(db := CommittedDb, hist := CommittedHist, txns := map[]);
            Enabled(s, GcS(SweepDelete(0))) && Next(s, GcS(SweepDelete(0))) == Swept
  {
    hide Reapable; hide Orphaned;
  }

  /** A sweep can take the object of a live part: the
      commit lands between the sweeper's fetch and its delete. */
  lemma LateCommitLosesItsObject() returns (run: seq<State>, steps: seq<Step>)
    ensures IsRun(run, steps) && |run| == 8
    ensures var s := run[7]; 0 in s.db.parts && Live(s.db.parts[0]) && s.db.parts[0].meta.path !in s.store
  {
    run, steps := DrawnRun();
    SweepFetchSteps();
    Extend(run, steps, GcS(SweepFetch(0, 0)), Fetched);
    run, steps := run + [Fetched], steps + [GcS(SweepFetch(0, 0))];
    FinishSteps(map[0 := GSweep(0)]);
    var s := Fetched.(db := CommittedDb, hist := CommittedHist, txns := map[]);
    Extend(run, steps, TxnS(Finish(0, true)), s);
    run, steps := run + [s], steps + [TxnS(Finish(0, true))];
    SweepDeleteSteps();
    Extend(run, steps, GcS(SweepDelete(0)), Swept);
    run, steps := run + [Swept], steps + [GcS(SweepDelete(0))];
  }

  // ---------------------------------------------------------------- an untimely upload

  const Hunted := Registered.(gcs := map[0 := GSweep(0)])
  const Missed := Hunted.(gcs := map[0 := GSwept(0)], hist := EmptyHistory.(swept := {0}))
  const Straggler := Missed.(content := map[0 := []], store := {0})
  const Forgotten := Straggler.(gcs := map[0 := GIdle], db := EmptyDb)

  lemma HuntSteps()
    ensures Enabled(Registered, GcS(SweepFetch(0, 0))) && Next(Registered, GcS(SweepFetch(0, 0))) == Hunted
    ensures Enabled(Hunted, GcS(SweepDelete(0))) && Next(Hunted, GcS(SweepDelete(0))) == Missed
  {
    hide Reapable;
  }

  lemma StragglerSteps()
    ensures Enabled(Missed, ObjectS(Put(0, []))) && Next(Missed, ObjectS(Put(0, []))) == Straggler
    ensures Enabled(Straggler, GcS(SweepClear(0))) && Next(Straggler, GcS(SweepClear(0))) == Forgotten
  {
    hide Reapable; hide Orphaned;
    assert Straggler.db.pending - {0} == map[];
  }

  /** An upload that lands between a sweeper's delete and its clear is stored for good and
      on nobody's books. */
  lemma LateUploadIsForgotten() returns (run: seq<State>, steps: seq<Step>)
    ensures IsRun(run, steps) && |run| == 6 && steps[3] == ObjectS(Put(0, [])) && !Young(run[3], 0)
    ensures !OnBooks(run[5], 0)
  {
    hide Init; hide Enabled; hide Next;
    RegisterSteps(); HuntSteps(); StragglerSteps();
    run, steps := [Start], [];
    Extend(run, steps, ObjectS(RegisterPath(0, 0)), Registered);
    run, steps := run + [Registered], steps + [ObjectS(RegisterPath(0, 0))];
    Extend(run, steps, GcS(SweepFetch(0, 0)), Hunted);
    run, steps := run + [Hunted], steps + [GcS(SweepFetch(0, 0))];
    Extend(run, steps, GcS(SweepDelete(0)), Missed);
    run, steps := run + [Missed], steps + [GcS(SweepDelete(0))];
    Extend(run, steps, ObjectS(Put(0, [])), Straggler);
    run, steps := run + [Straggler], steps + [ObjectS(Put(0, []))];
    Extend(run, steps, GcS(SweepClear(0)), Forgotten);
    run, steps := run + [Forgotten], steps + [GcS(SweepClear(0))];
  }

  // ---------------------------------------------------------------- a lease that runs out

  const Token := Lease(0, 0, 7, 1)
  const Merge := Request(0, Replace([0], []), Some(Factory(0, CompactDigest({0}, 1))), [], Some(Token), Merger, map[], {}, {})

  const Drew := Arrived.(acquires := map[0 := Acquire(0, 0, 7, 1, 1)], genSeq := 2)
  const Leased := Arrived.(genSeq := 2, db := CommittedDb.(leases := map[(0, 0) := LeaseRow(7, 1, 1)]),
                           hist := CommittedHist.(tenancies := map[1 := Token]))
  const Merging := Leased.(txns := map[1 := Txn(Merge, 0, None, Locked)], nextTxn := 2)
  const Sought := Merging.(txns := map[1 := Txn(Merge, 0, None, Looked)])
  const Checked := Merging.(txns := map[1 := Txn(Merge, 0, Some(0), Fenced)])
  const Expired := Checked.(now := 1)
  const Ready := Expired.(txns := map[1 := Txn(Merge, 0, Some(0), Allocated(2))], commitSeq := 3)

  lemma DrawSteps()
    ensures Enabled(Arrived, LeaseS(Draw(0, 0, 0, 7, 1))) && Next(Arrived, LeaseS(Draw(0, 0, 0, 7, 1))) == Drew
  {
  }

  lemma InstallSteps()
    ensures Enabled(Drew, LeaseS(Install(0))) && Next(Drew, LeaseS(Install(0))) == Leased
  {
    hide RenewLease; hide ReleaseLease;
    assert Drew.acquires - {0} == map[];
  }

  lemma MergeIsRewrite()
    ensures RewriteOf(InputFiles(Leased, [0]), Files(Leased, []))
  {
    assert InputFiles(Leased, [0]) == [[]];
    assert Flatten(InputFiles(Leased, [0])) == [] + Flatten(InputFiles(Leased, [0])[1..]);
    assert Files(Leased, []) == [];
  }

  lemma MergeRequest()
    ensures RequestOk(Leased, Merge) && ClientOk(Leased, Merge)
  {
    hide RewriteOf; hide Files; hide InputFiles;
    MergeIsRewrite();
  }

  lemma MergeBeginSteps()
    ensures Enabled(Leased, TxnS(Begin(1, Merge))) && Next(Leased, TxnS(Begin(1, Merge))) == Merging
  {
    hide RequestOk; hide ClientOk;
    MergeRequest();
    assert Paths(Outputs(Merge.op)) == {};
  }

  lemma MergeLookupSteps()
    ensures Enabled(Merging, TxnS(Lookup(1, true))) && Next(Merging, TxnS(Lookup(1, true))) == Sought
  {
    hide Answer; hide ClientOk; hide Reconcile;
    assert Reconcile(Merging.db, Merge.ident.value) == Ok(None) by { MergeAbsent(); }
  }

  lemma MergeAbsent()
    ensures Reconcile(Merging.db, Merge.ident.value) == Ok(None)
  {
  }

  lemma FencePassesNow()
    ensures Fence(Sought.db, 0, 0, Token, Merge.op).None?
  {
    assert PartsInside(Sought.db, 0, 0, [0]) == {0};
  }

  lemma MergeCheckSteps()
    ensures Enabled(Sought, TxnS(Check(1))) && Next(Sought, TxnS(Check(1))) == Checked
  {
    hide Fence; hide Record; hide ClientOk;
    FencePassesNow();
  }

  lemma MergeAllocSteps()
    ensures Enabled(Expired, TxnS(Alloc(1))) && Next(Expired, TxnS(Alloc(1))) == Ready
  {
    hide RequestOk; hide ClientOk;
  }

  lemma MergeCommits()
    ensures BodyOf(Ready, 1).0.Committed?
  {
    MatchedAll(Ready.db.parts, 0, [0]);
  }

  /** A lease may run out after its REPLACE passed the fence: the REPLACE still commits.
      This is the one way in which a commit lands under a lapsed token. */
  lemma LeaseMayLapseAfterTheFence() returns (run: seq<State>, steps: seq<Step>)
    ensures IsRun(run, steps) && |steps| == 12
    ensures var s := run[12];
            && Enabled(s, TxnS(Finish(1, true))) && Commits(s, TxnS(Finish(1, true)), Merge)
            && Dead(s, Token) && !NoneFenced(s, Token)
  {
    hide Init; hide Enabled; hide Next; hide BodyOf; hide Reconcile;
    run, steps := LandedRun();
    DrawSteps(); InstallSteps(); MergeBeginSteps(); MergeLookupSteps(); MergeCheckSteps(); MergeAllocSteps(); MergeCommits();
    Extend(run, steps, LeaseS(Draw(0, 0, 0, 7, 1)), Drew);
    run, steps := run + [Drew], steps + [LeaseS(Draw(0, 0, 0, 7, 1))];
    Extend(run, steps, LeaseS(Install(0)), Leased);
    run, steps := run + [Leased], steps + [LeaseS(Install(0))];
    Extend(run, steps, TxnS(Begin(1, Merge)), Merging);
    run, steps := run + [Merging], steps + [TxnS(Begin(1, Merge))];
    Extend(run, steps, TxnS(Lookup(1, true)), Sought);
    run, steps := run + [Sought], steps + [TxnS(Lookup(1, true))];
    Extend(run, steps, TxnS(Check(1)), Checked);
    run, steps := run + [Checked], steps + [TxnS(Check(1))];
    TickSteps();
    Extend(run, steps, Tick, Expired);
    run, steps := run + [Expired], steps + [Tick];
    Extend(run, steps, TxnS(Alloc(1)), Ready);
    run, steps := run + [Ready], steps + [TxnS(Alloc(1))];
    LastStep();
    assert Ready.txns[1].fencedAt.Some?;
  }

  lemma TickSteps()
    ensures Enabled(Checked, Tick) && Next(Checked, Tick) == Expired
  {
    hide TxnEnabled; hide TxnNext;
  }

  lemma LastStep()
    ensures Enabled(Ready, TxnS(Finish(1, true)))
  {
    hide RequestOk; hide ClientOk; hide LeaseRowLocked;
  }
}
