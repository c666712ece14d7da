/** Runs that get all the way: an ingested message is stored once and its position moved, a
    view publishes an event and advances past it, a consumer reads it, an erasure lands.
    What is proved of every run is thereby proved of these. */
module Passages {
  import opened Base
  import opened Rows
  import opened Tables
  import opened Machine
  import opened Frames
  import opened Wellformed
  import opened ContentProof
  import Witnesses

  ghost predicate Goes(s: State, step: Step, s': State) {
    Enabled(s, step) && Next(s, step) == s'
  }

  /** A run goes on where a step leads. */
  lemma On(run: seq<State>, steps: seq<Step>, step: Step, s': State) returns (run': seq<State>, steps': seq<Step>)
    requires IsRun(run, steps) && Goes(run[|steps|], step, s')
    ensures IsRun(run', steps') && |steps'| == |steps| + 1 && run'[|steps'|] == s' && run' == run + [s']
  {
    hide Init; hide Enabled; hide Next;
    Witnesses.Extend(run, steps, step, s');
    run', steps' := run + [s'], steps + [step];
  }

  // ---------------------------------------------------------------- one message

  const Row0 := Row(5, 0, [])
  const Meta0 := PartMeta(0, 0, 5, 5, 0)
  const Range0 := OffsetRange(0, 0, 0)
  const OnePart := Part(0, Meta0, 1, None, false)
  const IngestCfg := Config(map[], 0, 10, map[(0, 0) := Row0])
  const I0 := State(IngestCfg, EmptyDb, 1, 1, 0, map[], 0, map[], map[], map[], map[], map[], map[], map[], map[], {}, {}, {}, EmptyHistory)
  const I1 := I0.(kafka := map[0 := Log({0}, 1)])
  const I2 := I1.(ingesters := map[0 := IRun(0, map[0 := 0], map[0 := 0], map[], {})])
  const I3 := I1.(ingesters := map[0 := IRun(0, map[0 := 0], map[0 := 1], map[0 := Span(0, 0)], {(0, 0)})])
  const I4 := I3.(registered := {0}, db := EmptyDb.(pending := map[0 := Pending(0, 0)]))
  const I5 := I4.(content := map[0 := [Row0]], store := {0})
  const FlushIt := Request(0, Add([Meta0]), Some(Factory(0, IngestDigest({Range0}))), [Range0], None, Ingester(0), map[0 := 0], {(0, 0)}, {(0, 0)})
  const I6 := I5.(txns := map[0 := Txn(FlushIt, 0, None, Locked)], nextTxn := 1, claimed := {0}, ingesters := map[0 := IFlush(0, map[0 := 1], 0)])
  const I7 := I6.(txns := map[0 := Txn(FlushIt, 0, None, Allocated(1))], commitSeq := 2)

  lemma IngestStarts()
    ensures Init(I0) && Goes(I0, IngestS(KafkaAppend(0, 0)), I1) && Goes(I1, IngestS(Connect(0, 0)), I2)
  {
    var none: set<nat> := {};
    assert none + {0} == {0};
    assert Next(I0, IngestS(KafkaAppend(0, 0))).kafka == I1.kafka;
    assert (map tp | tp in I1.kafka :: Stored(I1.db.offsets, 0, tp)) == map[0 := 0];
    assert Next(I1, IngestS(Connect(0, 0))).ingesters == I2.ingesters;
  }

  lemma IngestReceives()
    ensures Goes(I2, IngestS(Receive(0, 0, 0)), I3)
  {
    var none: set<(Tp, nat)> := {};
    assert none + {(0, 0)} == {(0, 0)};
    var all: map<Tp, nat> := map[0 := 0];
    assert all[0 := 1] == map[0 := 1];
    assert Next(I2, IngestS(Receive(0, 0, 0))).ingesters[0] == I3.ingesters[0];
  }

  lemma IngestUploads()
    ensures Goes(I3, ObjectS(RegisterPath(0, 0)), I4) && Goes(I4, ObjectS(Put(0, [Row0])), I5)
  {
  }

  lemma FlushClient()
    ensures RequestOk(I5, FlushIt) && ClientOk(I5, FlushIt)
  {
    assert Elements([Range0]) == {Range0};
    assert Files(I5, [Meta0]) == [[Row0]];
    assert Flatten([[Row0]]) == [Row0] + Flatten([[Row0]][1..]);
    MessageRowsOf(IngestCfg.payload, {(0, 0)}, (0, 0));
    assert {(0, 0)} - {(0, 0)} == {};
    assert FlushIt.op.outputs == [Meta0];
  }

  lemma IngestBegins()
    ensures Goes(I5, TxnS(Begin(0, FlushIt)), I6)
  {
    hide RequestOk; hide ClientOk;
    FlushClient();
    assert Paths([Meta0]) == {0} by { assert Meta0 in [Meta0]; }
    assert {} + {0} == {0};
  }

  lemma IngestDraws()
    ensures Goes(I6, TxnS(Alloc(0)), I7)
  {
    hide RequestOk; hide ClientOk;
  }

  lemma FlushBody()
    ensures BodyOf(I7, 0).0 == Committed(1) && BodyOf(I7, 0).1.offsets == map[(0, 0) := 1]
    ensures BodyOf(I7, 0).1.parts == map[0 := OnePart] && BodyOf(I7, 0).1.nextPart == 1
    ensures BodyOf(I7, 0).1.keyIndex == map[(0, IngestDigest({Range0})) := 1]
  {
    assert NewParts(0, 1, 0, [Meta0]) == map[0 := OnePart];
    assert AdvanceOffsets(map[], 0, [Range0]) == Ok(map[(0, 0) := 1]) by {
      assert [Range0][1..] == [];
      assert AdvanceOffsets(map[(0, 0) := 1], 0, []) == Ok(map[(0, 0) := 1]);
    }
    hide Paths; hide NewParts; hide AdvanceOffsets;
  }

  /** A message is received, uploaded and committed: its position is behind it, its row is
      visible, and the worker stands at the new position with an empty buffer. */
  lemma IngestLands() returns (run: seq<State>, steps: seq<Step>)
    ensures IsRun(run, steps) && |steps| == 8
    ensures Settled(run[8])
    ensures var s := run[8];
            && s.db.offsets == map[(0, 0) := 1] && LiveRows(s, 0) == multiset{Row0}
            && s.ingesters == map[0 := IRun(0, map[0 := 1], map[0 := 1], map[], {})]
  {
    hide Init; hide Enabled; hide Next; hide BodyOf;
    IngestStarts(); IngestReceives(); IngestUploads(); IngestBegins(); IngestDraws();
    run, steps := [I0], [];
    run, steps := On(run, steps, IngestS(KafkaAppend(0, 0)), I1);
    run, steps := On(run, steps, IngestS(Connect(0, 0)), I2);
    run, steps := On(run, steps, IngestS(Receive(0, 0, 0)), I3);
    run, steps := On(run, steps, ObjectS(RegisterPath(0, 0)), I4);
    run, steps := On(run, steps, ObjectS(Put(0, [Row0])), I5);
    run, steps := On(run, steps, TxnS(Begin(0, FlushIt)), I6);
    run, steps := On(run, steps, TxnS(Alloc(0)), I7);
    var s := IngestFinishes();
    run, steps := On(run, steps, TxnS(Finish(0, true)), s);
  }

  lemma IngestFinishes() returns (s: State)
    ensures Goes(I7, TxnS(Finish(0, true)), s)
    ensures Settled(s) && s.db.offsets == map[(0, 0) := 1] && LiveRows(s, 0) == multiset{Row0}
    ensures s.ingesters == map[0 := IRun(0, map[0 := 1], map[0 := 1], map[], {})]
  {
    hide BodyOf; hide RequestOk; hide ClientOk; hide Record;
    assert TxnEnabled(I7, Finish(0, true));
    FinishFrame(I7, 0, true);
    FlushBody();
    s := Next(I7, TxnS(Finish(0, true)));
    hide TxnNext;
    OneFile(s);
  }

  lemma OneFile(s: State)
    requires s.db.parts == map[0 := OnePart] && s.db.nextPart == 1 && s.content == map[0 := [Row0]]
    ensures LiveRows(s, 0) == multiset{Row0}
  {
    assert LiveUpto(s.db.parts, s.content, 0, 0) == multiset{};
    assert LiveUpto(s.db.parts, s.content, 0, 1) == LiveUpto(s.db.parts, s.content, 0, 0) + PartRows(s.content, s.db.parts[0], 0);
  }

  // ---------------------------------------------------------------- one erasure

  const Erasure := Request(0, Replace([0], []), Some(Factory(0, EraseDigest(5, {0}))), [], None, Eraser(5), map[], {}, {})

  /** One part is live, it holds one row, and nothing is in flight. */
  ghost predicate Settled(s: State) {
    && s.db.parts == map[0 := OnePart] && s.db.nextPart == 1 && s.content == map[0 := [Row0]]
    && s.txns == map[] && s.readers == map[] && (0, EraseDigest(5, {0})) !in s.db.keyIndex
  }

  function Erasing(s: State): State { s.(txns := map[s.nextTxn := Txn(Erasure, s.now, None, Locked)], nextTxn := s.nextTxn + 1) }
  function ErasureDrawn(s: State): State {
    Erasing(s).(txns := map[s.nextTxn := Txn(Erasure, s.now, None, Allocated(s.commitSeq))], commitSeq := s.commitSeq + 1)
  }

  lemma EraserClient(s: State)
    requires Settled(s)
    ensures RequestOk(s, Erasure) && ClientOk(s, Erasure)
  {
    assert Elements([0]) == {0};
    assert [0][1..] == [];
    assert KeptFiles(s, [0], 5) == KeptFiles(s, [], 5);
    assert Files(s, []) == [];
    assert Erasure.op.inputs == [0] && Erasure.op.outputs == [];
    assert Elements(Erasure.op.inputs) == {0};
  }

  lemma ErasureBegins(s: State)
    requires Settled(s)
    ensures Goes(s, TxnS(Begin(s.nextTxn, Erasure)), Erasing(s))
  {
    hide RequestOk; hide ClientOk; hide Record; hide BodyOf; hide Answer;
    EraserClient(s);
    assert Paths([]) == {};
    assert s.claimed + {} == s.claimed;
    var none: map<nat, Txn> := map[];
    assert none[s.nextTxn := Txn(Erasure, s.now, None, Locked)] == map[s.nextTxn := Txn(Erasure, s.now, None, Locked)];
  }

  lemma ErasureDraws(s: State)
    requires Settled(s)
    ensures Goes(Erasing(s), TxnS(Alloc(s.nextTxn)), ErasureDrawn(s))
  {
    hide RequestOk; hide ClientOk; hide Record; hide BodyOf; hide Answer;
    var t := s.nextTxn;
    assert Erasing(s).txns[t := ErasureDrawn(s).txns[t]] == ErasureDrawn(s).txns;
  }

  lemma ErasureApplies(db: Db, c: CommitId)
    requires db.parts == map[0 := OnePart] && db.nextPart == 1
    ensures var r := ApplyOp(db, 0, c, Erasure.op);
            r.Ok? && r.value.parts == map[0 := OnePart.(deletedBy := Some(c))] && r.value.nextPart == 1 && r.value.offsets == db.offsets
  {
    assert Matched(db.parts, 0, [0]) == {0};
    assert Paths([]) == {};
    assert NewParts(1, c, 0, []) == map[];
    hide NewParts; hide Paths; hide Matched;
    assert Tombstone(db.parts, {0}, c) == map[0 := OnePart.(deletedBy := Some(c))];
  }

  lemma ErasureBody(s: State)
    requires Settled(s)
    ensures var (o, db) := BodyOf(ErasureDrawn(s), s.nextTxn);
            o.Committed? && db.parts == map[0 := OnePart.(deletedBy := Some(s.commitSeq))] && db.nextPart == 1
  {
    hide ApplyOp;
    ErasureApplies(InsertCommit(s.db, s.commitSeq, 0, KReplace, Erasure.ident, s.now), s.commitSeq);
  }

  lemma ErasureFinishes(s: State) returns (s': State)
    requires Settled(s)
    ensures Goes(ErasureDrawn(s), TxnS(Finish(s.nextTxn, true)), s') && LiveRows(s', 0) == multiset{}
  {
    hide BodyOf; hide RequestOk; hide ClientOk; hide Record;
    assert TxnEnabled(ErasureDrawn(s), Finish(s.nextTxn, true));
    FinishFrame(ErasureDrawn(s), s.nextTxn, true);
    ErasureBody(s);
    s' := Next(ErasureDrawn(s), TxnS(Finish(s.nextTxn, true)));
    hide TxnNext;
    assert LiveUpto(s'.db.parts, s'.content, 0, 0) == multiset{};
    assert LiveUpto(s'.db.parts, s'.content, 0, 1) == multiset{};
  }

  /** The row that landed is then erased. */
  lemma ErasureLands() returns (run: seq<State>, steps: seq<Step>)
    ensures IsRun(run, steps) && |steps| == 11
    ensures LiveRows(run[8], 0) == multiset{Row0} && LiveRows(run[11], 0) == multiset{}
  {
    hide Init; hide Goes; hide Enabled; hide Next; hide LiveRows;
    run, steps := IngestLands();
    var s := run[8];
    ErasureBegins(s); ErasureDraws(s);
    var s' := ErasureFinishes(s);
    run, steps := On(run, steps, TxnS(Begin(s.nextTxn, Erasure)), Erasing(s));
    run, steps := On(run, steps, TxnS(Alloc(s.nextTxn)), ErasureDrawn(s));
    run, steps := On(run, steps, TxnS(Finish(s.nextTxn, true)), s');
  }

  // ---------------------------------------------------------------- one event

  const ViewCfg := Config(map[0 := Pipeline(0, 1)], 0, 0, map[])
  const V0 := State(ViewCfg, EmptyDb, 1, 1, 0, map[], 0, map[], map[], map[], map[], map[], map[], map[], map[], {}, {}, {}, EmptyHistory)
  const V1 := V0.(readers := map[0 := Reader(0, Register(0))])
  const V2 := V0.(db := EmptyDb.(cursors := map[(MvWorker(0), 0) := 0]), hist := EmptyHistory.(heads := map[0 := 0], mvInit := map[0 := 0]))
  const Source := Request(0, Add([]), None, [], None, Direct, map[], {}, {})
  const V3 := V2.(txns := map[0 := Txn(Source, 0, None, Locked)], nextTxn := 1)
  const V4 := V3.(txns := map[0 := Txn(Source, 0, None, Allocated(1))], commitSeq := 2)
  const V5 := V4.(txns := map[], db := V2.db.(commits := map[1 := CommitRow(0, KAdd, None, None, 0)]),
                  hist := V2.hist.(added := map[0 := multiset{}], erased := map[0 := multiset{}]))
  const V6 := V5.(replicas := map[0 := RCursor(0, 0)])
  const V8 := V5.(replicas := map[0 := RHead(0, 0, 1)], hist := V5.hist.(heads := map[0 := 1]))
  const V9 := V8.(replicas := map[0 := REvent(0, 0, 1)])
  const Publication := Request(1, Add([]), Some(EventIdentity(0, Pipeline(0, 1), 1)), [], None, MvReplica(0), map[], {}, {})
  const V10 := V9.(txns := map[1 := Txn(Publication, 0, None, Locked)], nextTxn := 2, replicas := map[0 := RPublish(0, 0, 1, 1)])
  const V11 := V10.(txns := map[1 := Txn(Publication, 0, None, Allocated(2))], commitSeq := 3)
  const Published := Some(MvDigest(0, 0, 1))
  const V12 := V11.(txns := map[], replicas := map[0 := RReady(0, 0, 1)],
                    db := V5.db.(commits := V5.db.commits[2 := CommitRow(1, KAdd, Published, Published, 0)],
                                 keyIndex := map[(1, MvDigest(0, 0, 1)) := 2]),
                    hist := V8.hist.(added := map[0 := multiset{}, 1 := multiset{}], erased := map[0 := multiset{}, 1 := multiset{}]))
  const V13 := V12.(replicas := map[0 := RIdle], db := V12.db.(cursors := map[(MvWorker(0), 0) := 1]))

  lemma ViewRegisters()
    ensures Init(V0) && Goes(V0, FeedS(FeedLock(0, 0, Register(0))), V1) && Goes(V1, FeedS(FeedRead(0)), V2)
  {
    assert V1.readers - {0} == map[];
    assert IsHead(V1.db, 0, Head(V1.db, 0));
  }

  lemma SourceCommits()
    ensures Goes(V2, TxnS(Begin(0, Source)), V3) && Goes(V3, TxnS(Alloc(0)), V4)
  {
    assert Paths([]) == {};
  }

  /** An empty ADD takes nothing in. */
  lemma Nothing(s: State, req: Request)
    requires req.op == Add([]) && req.ranges == [] && !req.client.Ingester?
    ensures Record(s, req) == s.hist.(added := s.hist.added[req.ht := RowsOf(s.hist.added, req.ht)],
                                      erased := s.hist.erased[req.ht := RowsOf(s.hist.erased, req.ht)])
  {
    assert Files(s, []) == [];
    assert AddedBy(s, req) == multiset{} && ErasedBy(s, req) == multiset{};
    assert RowsOf(s.hist.added, req.ht) + multiset{} == RowsOf(s.hist.added, req.ht);
    assert RowsOf(s.hist.erased, req.ht) + multiset{} == RowsOf(s.hist.erased, req.ht);
    var none: seq<(Ht, OffsetRange)> := [];
    assert s.hist.flushed + none == s.hist.flushed;
    assert s.hist.intakes + [] == s.hist.intakes;
  }

  lemma SourceBody()
    ensures BodyOf(V4, 0) == (Committed(1), V5.db)
  {
    assert Paths([]) == {};
    assert NewParts(0, 1, 0, []) == map[];
  }

  lemma SourceLands()
    ensures Goes(V4, TxnS(Finish(0, true)), V5)
  {
    hide RequestOk; hide ClientOk; hide Record; hide BodyOf;
    assert TxnEnabled(V4, Finish(0, true));
    FinishFrame(V4, 0, true);
    Nothing(V4, Source);
    SourceBody();
    assert V4.txns - {0} == map[];
    hide TxnNext;
  }

  lemma ViewReads()
    ensures Goes(V5, MvS(MvStart(0, 0)), V6) && Goes(V8, MvS(MvPage(0, [1])), V9)
  {
    hide TxnEnabled; hide TxnNext; hide FeedEnabled; hide FeedNext;
    assert Feed(V8.db, 0) == {1};
  }

  function Waiting(s: State): State {
    s.(replicas := map[0 := RWaiting(0, 0)], readers := map[0 := Reader(0, ForReplica(0))])
  }

  lemma ViewLocks(s: State)
    requires s.cfg == ViewCfg && s.replicas == map[0 := RCursor(0, 0)] && s.readers == map[] && s.txns == map[]
    ensures Goes(s, FeedS(FeedLock(0, 0, ForReplica(0))), Waiting(s))
  {
    hide TxnEnabled; hide TxnNext; hide MvEnabled; hide MvNext; hide IsPage; hide Head;
  }

  lemma ViewHears(s: State)
    requires s.cfg == ViewCfg && s.replicas == map[0 := RCursor(0, 0)] && s.readers == map[]
    requires 1 in s.db.commits && Feed(s.db, 0) == {1} && s.hist.heads == map[0 := 0]
    ensures Goes(Waiting(s), FeedS(FeedRead(0)), s.(replicas := map[0 := RHead(0, 0, 1)], hist := s.hist.(heads := map[0 := 1])))
  {
    hide TxnEnabled; hide TxnNext; hide MvEnabled; hide MvNext; hide IsPage;
    HeadIsOne(s.db);
    assert Waiting(s).readers - {0} == map[];
  }

  lemma HeadIsOne(db: Db)
    requires 1 in db.commits && Feed(db, 0) == {1}
    ensures Head(db, 0) == 1
  {
    assert IsHead(db, 0, Head(db, 0));
  }

  lemma ViewPublishes()
    ensures Goes(V9, TxnS(Begin(1, Publication)), V10)
  {
    hide BodyOf; hide Answer; hide Record; hide Reconcile; hide Fence; hide FeedEnabled; hide FeedNext; hide MvEnabled; hide MvNext;
    assert Paths([]) == {};
    var none: set<Path> := {};
    assert none + {} == none;
  }

  lemma PublicationDraws()
    ensures Goes(V10, TxnS(Alloc(1)), V11)
  {
    hide RequestOk; hide ClientOk; hide BodyOf; hide Answer;
  }

  lemma PublicationBody()
    ensures BodyOf(V11, 1) == (Committed(2), V12.db)
  {
    assert Paths([]) == {};
    assert NewParts(0, 2, 1, []) == map[];
  }

  lemma PublicationLands()
    ensures Goes(V11, TxnS(Finish(1, true)), V12)
  {
    hide RequestOk; hide ClientOk; hide Record; hide BodyOf;
    assert TxnEnabled(V11, Finish(1, true));
    FinishFrame(V11, 1, true);
    Nothing(V11, Publication);
    PublicationBody();
    assert V11.txns - {1} == map[];
    hide TxnNext;
  }

  lemma ViewMovesOn(s: State)
    requires s.cfg == ViewCfg && s.db.cursors == map[(MvWorker(0), 0) := 0] && s.replicas == map[0 := RReady(0, 0, 1)]
    ensures Goes(s, MvS(MvAdvance(0)), s.(replicas := map[0 := RIdle], db := s.db.(cursors := map[(MvWorker(0), 0) := 1])))
  {
    hide TxnEnabled; hide TxnNext; hide FeedEnabled; hide FeedNext; hide Reconcile; hide IsPage;
  }

  lemma ViewIsPublished()
    ensures Reconcile(V13.db, EventIdentity(0, Pipeline(0, 1), 1)) == Ok(Some(2)) && Feed(V13.db, 0) == {1}
  {
  }

  lemma ViewStarts() returns (run: seq<State>, steps: seq<Step>)
    ensures IsRun(run, steps) && |steps| == 9 && run[9] == V9
  {
    hide Goes; hide Enabled; hide Next;
    ViewRegisters(); SourceCommits(); SourceLands(); ViewReads();
    assert Feed(V6.db, 0) == {1};
    ViewLocks(V6); ViewHears(V6);
    run, steps := [V0], [];
    run, steps := On(run, steps, FeedS(FeedLock(0, 0, Register(0))), V1);
    run, steps := On(run, steps, FeedS(FeedRead(0)), V2);
    run, steps := On(run, steps, TxnS(Begin(0, Source)), V3);
    run, steps := On(run, steps, TxnS(Alloc(0)), V4);
    run, steps := On(run, steps, TxnS(Finish(0, true)), V5);
    run, steps := On(run, steps, MvS(MvStart(0, 0)), V6);
    run, steps := On(run, steps, FeedS(FeedLock(0, 0, ForReplica(0))), Waiting(V6));
    run, steps := On(run, steps, FeedS(FeedRead(0)), V8);
    run, steps := On(run, steps, MvS(MvPage(0, [1])), V9);
  }

  /** A view registers ahead of a commit, reads it, publishes for it once and stands at it. */
  lemma ViewAdvances() returns (run: seq<State>, steps: seq<Step>)
    ensures IsRun(run, steps) && |steps| == 13 && run[13] == V13
    ensures Reconcile(V13.db, EventIdentity(0, Pipeline(0, 1), 1)) == Ok(Some(2)) && V13.db.cursors[(MvWorker(0), 0)] == 1
  {
    hide Init; hide Goes; hide Reconcile;
    ViewPublishes(); PublicationDraws(); PublicationLands(); ViewMovesOn(V12);
    ViewIsPublished();
    run, steps := ViewStarts();
    run, steps := On(run, steps, TxnS(Begin(1, Publication)), V10);
    run, steps := On(run, steps, TxnS(Alloc(1)), V11);
    run, steps := On(run, steps, TxnS(Finish(1, true)), V12);
    run, steps := On(run, steps, MvS(MvAdvance(0)), V13);
  }

  // ---------------------------------------------------------------- one page

  /** The states of one consumer's visit to a feed whose only commit is 1. */
  function Subscribed(s: State): State { s.(consumers := map[0 := Consumer(0, 0, 0, None, [])]) }
  function Reading(s: State): State { Subscribed(s).(readers := map[0 := Reader(0, ForConsumer(0))]) }
  function Headed(s: State): State { s.(consumers := map[0 := Consumer(0, 0, 0, Some(1), [])]) }
  function Paged(s: State): State { s.(consumers := map[0 := Consumer(0, 0, 1, None, [1])]) }
  function Persisted(s: State): State { Paged(s).(db := s.db.(cursors := s.db.cursors[(Named(0), 0) := 1])) }

  ghost predicate Unvisited(s: State) {
    && s.consumers == map[] && s.readers == map[] && s.txns == map[]
    && (Named(0), 0) !in s.db.cursors && s.hist.heads == map[0 := 1]
    && 1 in s.db.commits && Feed(s.db, 0) == {1}
  }

  lemma ConsumerSteps(s: State)
    requires Unvisited(s)
    ensures Goes(s, FeedS(Subscribe(0, 0, 0)), Subscribed(s)) && Goes(Subscribed(s), FeedS(FeedLock(0, 0, ForConsumer(0))), Reading(s))
  {
    hide Feed; hide IsPage; hide Head;
  }

  lemma HeadArrives(s: State)
    requires Unvisited(s)
    ensures Goes(Reading(s), FeedS(FeedRead(0)), Headed(s))
  {
    hide IsPage;
    HeadIsOne(s.db);
    assert Reading(s).readers - {0} == map[];
  }

  lemma PageArrives(s: State)
    requires Unvisited(s)
    ensures Goes(Headed(s), FeedS(Page(0, [1])), Paged(s)) && Goes(Paged(s), FeedS(Persist(0, 0)), Persisted(s))
  {
    hide Head;
    var none: seq<CommitId> := [];
    assert none + [1] == [1];
  }

  lemma ConsumerVisits(run: seq<State>, steps: seq<Step>) returns (run': seq<State>, steps': seq<Step>)
    requires IsRun(run, steps) && Unvisited(run[|steps|])
    ensures IsRun(run', steps') && |steps'| == |steps| + 5 && run'[|steps'|] == Persisted(run[|steps|])
  {
    hide Init; hide Goes; hide Enabled; hide Next; hide Unvisited;
    var s := run[|steps|];
    ConsumerSteps(s); HeadArrives(s); PageArrives(s);
    run', steps' := On(run, steps, FeedS(Subscribe(0, 0, 0)), Subscribed(s));
    run', steps' := On(run', steps', FeedS(FeedLock(0, 0, ForConsumer(0))), Reading(s));
    run', steps' := On(run', steps', FeedS(FeedRead(0)), Headed(s));
    run', steps' := On(run', steps', FeedS(Page(0, [1])), Paged(s));
    run', steps' := On(run', steps', FeedS(Persist(0, 0)), Persisted(s));
  }

  /** A consumer then reads the feed to its head and stores how far it got. */
  lemma ConsumerReads() returns (run: seq<State>, steps: seq<Step>)
    ensures IsRun(run, steps) && |steps| == 18
    ensures var s := run[18];
            0 in s.consumers && s.consumers[0].seen == [1] && (Named(0), 0) in s.db.cursors && s.db.cursors[(Named(0), 0)] == 1
  {
    hide Init; hide Goes; hide Enabled; hide Next; hide Reconcile; hide Feed;
    run, steps := ViewAdvances();
    ViewIsPublished();
    run, steps := ConsumerVisits(run, steps);
  }
}
