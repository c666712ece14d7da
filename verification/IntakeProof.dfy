/** What ingest takes in: each message's row at most once, no message passed over. */
module IntakeProof {
  import opened Base
  import opened Rows
  import opened Tables
  import opened Machine
  import opened Frames
  import opened Wellformed
  import opened IngestProof
  import opened ContentProof
  import opened Runs

  // ---------------------------------------------------------------- the invariant

  predicate InRanges(ranges: seq<OffsetRange>, x: (Tp, nat)) {
    exists i :: 0 <= i < |ranges| && ranges[i].tp == x.0 && ranges[i].first <= x.1 <= ranges[i].last
  }

  /** The buffer took every message there is between where it began and where it reads. */
  ghost predicate WorkerTook(s: State, w: IngestState) {
    match w
    case IRun(ht, from, pos, buf, took) =>
      && (forall x :: x in took ==> x.0 in buf && buf[x.0].first <= x.1 <= buf[x.0].last)
      && (forall tp, m :: tp in pos && tp in from && m in Msgs(s, tp) && from[tp] <= m < pos[tp] ==> (tp, m) in took)
    case _ => true
  }

  /** The offset is between where the buffer began and where its range ends. */
  predicate Within(req: Request, i: nat, m: nat) {
    && i < |req.ranges| && req.ranges[i].tp in req.starts
    && req.starts[req.ranges[i].tp] <= m <= req.ranges[i].last
  }

  /** So did the request it became, whose files hold the rows of the messages it kept. */
  ghost predicate RequestTook(s: State, req: Request) {
    && (!req.client.Ingester? ==> req.ranges == [])
    && (req.client.Ingester? ==>
          && (forall x :: x in req.took ==> InRanges(req.ranges, x))
          && (forall i, m :: 0 <= i < |req.ranges| && m in Msgs(s, req.ranges[i].tp) && Within(req, i, m) ==>
                (req.ranges[i].tp, m) in req.took)
          && req.op.Add? && req.kept <= req.took && req.kept <= s.cfg.payload.Keys
          && multiset(Flatten(Files(s, req.op.outputs))) == MessageRows(s.cfg.payload, req.kept))
  }

  ghost predicate Taken(s: State, ht: Ht, tp: Tp, m: nat) {
    exists i :: 0 <= i < |s.hist.intakes| && s.hist.intakes[i].ht == ht && (tp, m) in s.hist.intakes[i].took
  }

  /** Committed intakes lie below the stored positions, never share a message, and miss
      none below them. */
  ghost predicate HistoryTook(s: State) {
    && (forall i, x :: 0 <= i < |s.hist.intakes| && x in s.hist.intakes[i].took ==>
          x.1 < Stored(s.db.offsets, s.hist.intakes[i].ht, x.0))
    && (forall i, j :: 0 <= i < j < |s.hist.intakes| ==> Separate(s.hist.intakes[i], s.hist.intakes[j]))
    && (forall ht, tp, m :: m in Msgs(s, tp) && m < Stored(s.db.offsets, ht, tp) ==> Taken(s, ht, tp, m))
  }

  predicate Separate(a: Intake, b: Intake) {
    a.ht == b.ht ==> a.took !! b.took
  }

  ghost predicate WorkersTook(s: State) {
    forall w :: w in s.ingesters ==> WorkerTook(s, s.ingesters[w])
  }

  ghost predicate RequestsTook(s: State) {
    forall t :: t in s.txns ==> RequestTook(s, s.txns[t].req)
  }

  ghost predicate IntakeOk(s: State) {
    WorkersTook(s) && RequestsTook(s) && HistoryTook(s)
  }

  // ---------------------------------------------------------------- what stays

  lemma WorkerTookStays(s: State, s': State, w: IngestState)
    requires OffsetsGrow(s, s') && WorkerOk(s, w) && WorkerTook(s, w)
    ensures WorkerTook(s', w)
  {
  }

  lemma RequestTookStays(s: State, s': State, req: Request)
    requires OffsetsGrow(s, s') && RequestRangesOk(s, req) && RequestContentOk(s, req) && RequestTook(s, req)
    requires s'.cfg == s.cfg && Persists(s, s')
    ensures RequestTook(s', req)
  {
    if req.client.Ingester? { FilesStay(s, s', req.op.outputs); }
  }

  /** The same positions and intakes over logs that only grew at the end or shrank. */
  lemma HistoryStays(s: State, s': State)
    requires HistoryTook(s) && LedgerOk(s) && OffsetsGrow(s, s')
    requires s'.db.offsets == s.db.offsets && s'.hist.intakes == s.hist.intakes
    ensures HistoryTook(s')
  {
    forall ht, tp, m | m in Msgs(s', tp) && m < Stored(s'.db.offsets, ht, tp) ensures Taken(s', ht, tp, m) {
      assert Stored(s.db.offsets, ht, tp) <= LogEnd(s, tp);
      assert Taken(s, ht, tp, m);
    }
  }

  lemma IntakeFrame(s: State, s': State)
    requires IntakeOk(s) && IngestOk(s) && RequestContentsOk(s) && OffsetsGrow(s, s') && Persists(s, s')
    requires s'.db.offsets == s.db.offsets && s'.hist.intakes == s.hist.intakes && s'.cfg == s.cfg
    requires forall t :: t in s'.txns ==> t in s.txns && s'.txns[t].req == s.txns[t].req
    requires forall w :: w in s'.ingesters ==> (w in s.ingesters && s'.ingesters[w] == s.ingesters[w]) || WorkerTook(s', s'.ingesters[w])
    ensures IntakeOk(s')
  {
    hide RequestRangesOk; hide RequestContentOk;
    hide LogsOk; hide CommitRangesOk; hide LedgerOk; hide Persists;
    HistoryStays(s, s');
    forall w | w in s'.ingesters ensures WorkerTook(s', s'.ingesters[w]) {
      if w in s.ingesters && s'.ingesters[w] == s.ingesters[w] { WorkerTookStays(s, s', s.ingesters[w]); }
    }
    forall t | t in s'.txns ensures RequestTook(s', s'.txns[t].req) { RequestTookStays(s, s', s.txns[t].req); }
  }

  // ---------------------------------------------------------------- the steps

  /** A request takes over what its worker took. */
  lemma FlushTakes(s: State, t: nat, req: Request)
    requires TxnEnabled(s, Begin(t, req)) && WorkersTook(s) && WorkersOk(s)
    ensures RequestTook(s, req)
  {
    if req.client.Ingester? {
      var w := s.ingesters[req.client.worker];
      assert WorkerTook(s, w) && WorkerOk(s, w);
      forall x | x in req.took ensures InRanges(req.ranges, x) {
        var r := OffsetRange(x.0, w.buf[x.0].first, w.buf[x.0].last);
        assert r in req.ranges;
        var i :| 0 <= i < |req.ranges| && req.ranges[i] == r;
      }
      forall i, m | 0 <= i < |req.ranges| && m in Msgs(s, req.ranges[i].tp) && Within(req, i, m)
        ensures (req.ranges[i].tp, m) in req.took
      {
        assert req.ranges[i] in req.ranges;
        assert w.pos[req.ranges[i].tp] == w.buf[req.ranges[i].tp].last + 1;
      }
    }
  }

  lemma BeginKeepsIntake(s: State, t: nat, req: Request)
    requires IntakeOk(s) && IngestOk(s) && RequestContentsOk(s) && TxnEnabled(s, Begin(t, req))
    ensures IntakeOk(TxnNext(s, Begin(t, req)))
  {
    hide RequestOk; hide ClientOk; hide WorkerTook; hide RequestTook; hide HistoryTook; hide WorkerOk; hide RequestRangesOk;
    hide RequestContentOk; hide LogsOk; hide CommitRangesOk; hide LedgerOk; hide Persists; hide OffsetsGrow; hide Paths; hide Outputs;
    hide Drains; hide Elements;
    var s' := TxnNext(s, Begin(t, req));
    BeginFrame(s, t, req);
    BeginWorkers(s, t, req);
    FlushTakes(s, t, req);
    SameOffsetsGrow(s, s');
    AllKept(s, s');
    HistoryStays(s, s');
    SameTook(s, s');
    forall u | u in s'.txns ensures RequestTook(s', s'.txns[u].req) {
      if u != t { RequestTookStays(s, s', s.txns[u].req); }
    }
    forall w | w in s'.ingesters ensures WorkerTook(s', s'.ingesters[w]) {
      if w in s.ingesters && s'.ingesters[w] == s.ingesters[w] { WorkerTookStays(s, s', s.ingesters[w]); }
      else { FlushingTook(s', s'.ingesters[w]); }
    }
  }

  lemma SameTook(s: State, s': State)
    requires s'.kafka == s.kafka && s'.content == s.content && s'.cfg == s.cfg
    ensures forall req :: RequestTook(s, req) ==> RequestTook(s', req)
  {
    hide MessageRows; hide Flatten; hide InRanges;
    forall req | RequestTook(s, req) ensures RequestTook(s', req) {
      assert forall tp :: Msgs(s', tp) == Msgs(s, tp);
      if req.client.Ingester? { assert Files(s', req.op.outputs) == Files(s, req.op.outputs); }
    }
  }

  lemma FlushingTook(s: State, w: IngestState)
    requires w.IFlush? || w.IOff? || (w.IRun? && w.from == w.pos && w.took == {})
    ensures WorkerTook(s, w)
  {
  }

  /** An answer leaves the worker with an empty buffer, or stopped. */
  lemma AnsweredTook(s: State, ingesters: map<nat, IngestState>, client: Client, t: nat, ok: bool, w: nat)
    requires w in AnswerIngester(ingesters, client, t, ok)
    ensures var y := AnswerIngester(ingesters, client, t, ok)[w]; (w in ingesters && y == ingesters[w]) || WorkerTook(s, y)
  {
  }

  lemma AnswerKeepsIntake(s: State, t: nat, ok: bool)
    requires IntakeOk(s) && IngestOk(s) && RequestContentsOk(s) && t in s.txns
    ensures IntakeOk(Answer(s, t, ok))
  {
    hide RequestContentsOk; hide OffsetsGrow; hide Persists;
    var s' := Answer(s, t, ok);
    SameOffsetsGrow(s, s');
    AllKept(s, s');
    forall w | w in s'.ingesters ensures (w in s.ingesters && s'.ingesters[w] == s.ingesters[w]) || WorkerTook(s', s'.ingesters[w]) {
      AnsweredTook(s', s.ingesters, s.txns[t].req.client, t, ok, w);
    }
    IntakeFrame(s, s');
  }

  lemma AdvanceKeepsIntake(s: State, t: nat, x: Txn, s': State)
    requires IntakeOk(s) && IngestOk(s) && RequestContentsOk(s) && t in s.txns && Advances(s, t, x, s')
    ensures IntakeOk(s')
  {
    hide RequestContentsOk; hide Persists;
    SameOffsetsGrow(s, s');
    AllKept(s, s');
    IntakeFrame(s, s');
  }

  lemma MoveKeepsIntake(s: State, step: TxnStep)
    requires IntakeOk(s) && IngestOk(s) && RequestContentsOk(s) && TxnEnabled(s, step) && !step.Begin? && !step.Finish?
    ensures IntakeOk(TxnNext(s, step))
  {
    hide *;
    var s', t := TxnNext(s, step), step.txn;
    TxnFrame(s, step);
    AnswerKeepsIntake(s, t, true);
    AnswerKeepsIntake(s, t, false);
    if x :| Advances(s, t, x, s') { AdvanceKeepsIntake(s, t, x, s'); }
  }

  // ---------------------------------------------------------------- commits

  lemma CommitTables(s: State, t: nat, s': State)
    requires IngestOk(s) && CommitEffect(s, t, s')
    ensures t in s.txns && Advanced(s, s.txns[t].req, s') && RequestRangesOk(s, s.txns[t].req)
    ensures s'.kafka == s.kafka && s'.cfg == s.cfg && s'.content == s.content && s'.txns == s.txns - {t}
    ensures var req := s.txns[t].req;
            s'.hist.intakes == s.hist.intakes + (if req.client.Ingester? then [Intake(req.ht, req.took, req.kept)] else [])
  {
    hide PartsAfter; hide Inputs; hide Outputs; hide Reconcile;
    hide WorkersOk; hide CommitRangesOk; hide Stored; hide Msgs; hide LogEnd; hide Elements; hide LedgerOk; hide RangeOk; hide LogsOk;
    var x := s.txns[t];
    assert RequestRangesOk(s, x.req);
    OffsetsAdvance(s.db.offsets, x.req.ht, x.req.ranges);
    RecordIntakes(s, x.req);
  }

  lemma RecordIntakes(s: State, req: Request)
    ensures Record(s, req).intakes == s.hist.intakes + (if req.client.Ingester? then [Intake(req.ht, req.took, req.kept)] else [])
  {
    hide AddedBy; hide ErasedBy;
  }

  lemma CommitTakesBelow(s: State, t: nat, s': State, i: nat, x: (Tp, nat))
    requires IngestOk(s) && HistoryTook(s) && RequestsTook(s) && CommitEffect(s, t, s')
    requires i < |s'.hist.intakes| && x in s'.hist.intakes[i].took
    ensures x.1 < Stored(s'.db.offsets, s'.hist.intakes[i].ht, x.0)
  {
    hide CommitEffect; hide IngestOk; hide MessageRows;
    CommitTables(s, t, s');
    var req := s.txns[t].req;
    assert RequestTook(s, req);
    if i < |s.hist.intakes| {
      StoredGrows(s, req, s', s.hist.intakes[i].ht, x.0);
    } else {
      var k :| 0 <= k < |req.ranges| && req.ranges[k].tp == x.0 && req.ranges[k].first <= x.1 <= req.ranges[k].last;
    }
  }

  lemma CommitTakesApart(s: State, t: nat, s': State, i: nat, j: nat)
    requires IngestOk(s) && HistoryTook(s) && RequestsTook(s) && CommitEffect(s, t, s') && i < j < |s'.hist.intakes|
    ensures Separate(s'.hist.intakes[i], s'.hist.intakes[j])
  {
    hide CommitEffect;
    CommitTables(s, t, s');
    var req := s.txns[t].req;
    assert RequestTook(s, req);
    if j < |s.hist.intakes| {
      assert Separate(s.hist.intakes[i], s.hist.intakes[j]);
    } else if s.hist.intakes[i].ht == req.ht {
      assert forall k :: 0 <= k < |req.ranges| ==> Stored(s.db.offsets, req.ht, req.ranges[k].tp) <= req.ranges[k].first;
      assert forall x :: x in s.hist.intakes[i].took ==> x.1 < Stored(s.db.offsets, req.ht, x.0);
    }
  }

  lemma CommitTakesAll(s: State, t: nat, s': State, ht: Ht, tp: Tp, m: nat)
    requires IngestOk(s) && HistoryTook(s) && RequestsTook(s) && CommitEffect(s, t, s')
    requires m in Msgs(s', tp) && m < Stored(s'.db.offsets, ht, tp)
    ensures Taken(s', ht, tp, m)
  {
    hide CommitEffect; hide IngestOk;
    hide Elements; hide InRanges;
    CommitTables(s, t, s');
    var req, n := s.txns[t].req, |s.hist.intakes|;
    assert RequestTook(s, req);
    assert Msgs(s', tp) == Msgs(s, tp);
    if m < Stored(s.db.offsets, ht, tp) {
      assert Taken(s, ht, tp, m);
      var i :| 0 <= i < n && s.hist.intakes[i].ht == ht && (tp, m) in s.hist.intakes[i].took;
      assert s'.hist.intakes[i] == s.hist.intakes[i];
    } else {
      assert ht == req.ht;
      var k :| 0 <= k < |req.ranges| && req.ranges[k].tp == tp;
      assert RangeOk(s, ht, req.starts[tp], tp, req.ranges[k].first, req.ranges[k].last);
      assert Within(req, k, m);
      assert s'.hist.intakes[n].ht == ht && (tp, m) in s'.hist.intakes[n].took;
    }
  }

  lemma CommitKeepsHistory(s: State, t: nat, s': State)
    requires IngestOk(s) && HistoryTook(s) && RequestsTook(s) && CommitEffect(s, t, s')
    ensures HistoryTook(s')
  {
    hide CommitEffect;
    forall i, x | 0 <= i < |s'.hist.intakes| && x in s'.hist.intakes[i].took
      ensures x.1 < Stored(s'.db.offsets, s'.hist.intakes[i].ht, x.0)
    {
      CommitTakesBelow(s, t, s', i, x);
    }
    forall i, j | 0 <= i < j < |s'.hist.intakes| ensures Separate(s'.hist.intakes[i], s'.hist.intakes[j]) { CommitTakesApart(s, t, s', i, j); }
    forall ht, tp, m | m in Msgs(s', tp) && m < Stored(s'.db.offsets, ht, tp) ensures Taken(s', ht, tp, m) { CommitTakesAll(s, t, s', ht, tp, m); }
  }

  lemma CommitKeepsIntake(s: State, t: nat, ok: bool, s': State)
    requires IntakeOk(s) && Wf(s) && IngestOk(s) && RequestContentsOk(s) && CommitEffect(s, t, s')
    requires s'.ingesters == AnswerIngester(s.ingesters, s.txns[t].req.client, t, ok)
    ensures IntakeOk(s')
  {
    hide CommitEffect; hide AnswerIngester; hide OffsetsGrow;
    hide WorkerOk; hide RequestRangesOk; hide RequestContentOk; hide LogsOk; hide CommitRangesOk; hide LedgerOk; hide Wf;
    CommitTables(s, t, s');
    CommitKeepsHistory(s, t, s');
    CommitKeepsLedger(s, t, s');
    WfParts(s);
    CommitKept(s, t, s');
    forall w | w in s'.ingesters ensures WorkerTook(s', s'.ingesters[w]) {
      AnsweredTook(s', s.ingesters, s.txns[t].req.client, t, ok, w);
      if w in s.ingesters && s'.ingesters[w] == s.ingesters[w] { WorkerTookStays(s, s', s.ingesters[w]); }
    }
    forall u | u in s'.txns ensures RequestTook(s', s'.txns[u].req) { RequestTookStays(s, s', s.txns[u].req); }
  }

  lemma FinishKeepsIntake(s: State, t: nat, ack: bool)
    requires IntakeOk(s) && Wf(s) && IngestOk(s) && RequestContentsOk(s) && TxnEnabled(s, Finish(t, ack))
    ensures IntakeOk(TxnNext(s, Finish(t, ack)))
  {
    hide IngestOk; hide RequestContentsOk; hide Wf;
    FinishCases(s, t, ack);
    FinishFrame(s, t, ack);
    if BodyOf(s, t).0.Committed? {
      CommitKeepsIntake(s, t, ack && Landed(BodyOf(s, t).0), TxnNext(s, Finish(t, ack)));
    } else {
      AnswerKeepsIntake(s, t, ack && Landed(BodyOf(s, t).0));
    }
  }

  // ---------------------------------------------------------------- ingest and the other families

  lemma ReceivedTook(s: State, w: nat, tp: Tp, o: nat)
    requires WorkersTook(s) && WorkersOk(s) && IngestEnabled(s, Receive(w, tp, o))
    ensures var s' := IngestNext(s, Receive(w, tp, o)); WorkerTook(s', s'.ingesters[w])
  {
    hide WorkerOk;
    var s', x := IngestNext(s, Receive(w, tp, o)), s.ingesters[w];
    assert WorkerTook(s, x) && WorkerOk(s, x);
    assert forall q :: Msgs(s', q) == Msgs(s, q);
    var y := IRun(x.ht, x.from, x.pos[tp := o + 1], x.buf[tp := Span(if tp in x.buf then x.buf[tp].first else o, o)], x.took + {(tp, o)});
    assert s'.ingesters[w] == y;
    OneMoreTook(s, s', x, tp, o);
  }

  lemma OneMoreTook(s: State, s': State, x: IngestState, tp: Tp, o: nat)
    requires x.IRun? && WorkerTook(s, x) && WorkerOk(s, x) && tp in x.pos && x.pos[tp] <= o
    requires forall q :: Msgs(s', q) == Msgs(s, q)
    requires forall m :: m in Msgs(s, tp) && m < o ==> m < x.pos[tp]
    ensures WorkerTook(s', IRun(x.ht, x.from, x.pos[tp := o + 1],
                                x.buf[tp := Span(if tp in x.buf then x.buf[tp].first else o, o)], x.took + {(tp, o)}))
  {
    hide Stored; hide LogEnd;
    var buf := x.buf[tp := Span(if tp in x.buf then x.buf[tp].first else o, o)];
    var pos, took := x.pos[tp := o + 1], x.took + {(tp, o)};
    assert tp in x.buf ==> x.buf[tp].first <= x.buf[tp].last < o by { if tp in x.buf { FirstBeforeLast(s, x, tp); } }
    forall z | z in took ensures z.0 in buf && buf[z.0].first <= z.1 <= buf[z.0].last {
      if z != (tp, o) { assert z in x.took; }
    }
    forall q, m | q in pos && q in x.from && m in Msgs(s', q) && x.from[q] <= m < pos[q] ensures (q, m) in took {
      assert m in Msgs(s, q);
      if q == tp && m != o { assert m < x.pos[tp]; }
    }
  }

  lemma FirstBeforeLast(s: State, x: IngestState, tp: Tp)
    requires x.IRun? && WorkerOk(s, x) && tp in x.buf
    ensures tp in x.pos && x.buf[tp].first <= x.buf[tp].last && x.pos[tp] == x.buf[tp].last + 1
  {
    hide Stored; hide LogEnd; hide NoneBetween;
  }

  lemma KafkaGrows(s: State, step: IngestStep)
    requires LogsOk(s) && IngestEnabled(s, step)
    ensures OffsetsGrow(s, IngestNext(s, step))
  {
    hide Stored;
  }

  lemma IngestKeepsIntake(s: State, step: IngestStep)
    requires IntakeOk(s) && IngestOk(s) && RequestContentsOk(s) && IngestEnabled(s, step)
    ensures IntakeOk(IngestNext(s, step))
  {
    hide RequestsTook; hide LedgerOk; hide RequestContentsOk;
    hide WorkerTook; hide WorkerOk; hide OffsetsGrow; hide Persists; hide Stored; hide Msgs; hide LogEnd;
    var s' := IngestNext(s, step);
    KafkaGrows(s, step);
    AllKept(s, s');
    match step {
      case Connect(w, ht) => FlushingTook(s', s'.ingesters[w]);
      case Receive(w, tp, o) => ReceivedTook(s, w, tp, o);
      case IngestCrash(w) => FlushingTook(s', s'.ingesters[w]);
      case KafkaAppend(tp, o) =>
      case KafkaRemove(tp, o) =>
    }
    IntakeFrame(s, s');
  }

  lemma QuietKeepsIntake(s: State, s': State)
    requires IntakeOk(s) && IngestOk(s) && RequestContentsOk(s) && Persists(s, s')
    requires s'.db.offsets == s.db.offsets && s'.kafka == s.kafka && s'.hist.intakes == s.hist.intakes && s'.cfg == s.cfg
    requires s'.txns == s.txns && s'.nextTxn == s.nextTxn && s'.ingesters == s.ingesters
    ensures IntakeOk(s')
  {
    hide *;
    SameOffsetsGrow(s, s');
    IntakeFrame(s, s');
  }

  lemma ObjectPersists(s: State, step: ObjectStep)
    requires ObjectEnabled(s, step)
    ensures Persists(s, ObjectNext(s, step))
  {
  }

  lemma GcPersists(s: State, step: GcStep)
    requires GcEnabled(s, step)
    ensures Persists(s, GcNext(s, step))
  {
    hide Reapable; hide Orphaned;
  }

  lemma IntakeKeeps(s: State, step: Step)
    requires IntakeOk(s) && Wf(s) && IngestOk(s) && RequestContentsOk(s) && Enabled(s, step)
    ensures IntakeOk(Next(s, step))
  {
    hide *;
    StepMeans(s, step);
    var s' := Next(s, step);
    match step {
      case TxnS(t) =>
        if t.Begin? { BeginKeepsIntake(s, t.txn, t.req); }
        else if t.Finish? { FinishKeepsIntake(s, t.txn, t.ack); }
        else { MoveKeepsIntake(s, t); }
      case FeedS(f) => FeedFrame(s, f); AllKept(s, s'); QuietKeepsIntake(s, s');
      case LeaseS(l) => LeaseFrame(s, l); AllKept(s, s'); QuietKeepsIntake(s, s');
      case MvS(m) => MvFrame(s, m); AllKept(s, s'); QuietKeepsIntake(s, s');
      case IngestS(i) => IngestKeepsIntake(s, i);
      case ObjectS(o) => ObjectFrame(s, o); ObjectPersists(s, o); QuietKeepsIntake(s, s');
      case GcS(g) => GcFrame(s, g); GcPersists(s, g); QuietKeepsIntake(s, s');
      case Tick => AllKept(s, s'); QuietKeepsIntake(s, s');
    }
  }

  lemma InitIntake(s: State)
    requires Init(s)
    ensures IntakeOk(s)
  {
  }

  lemma IngestPartsOf(s: State)
    requires Inv(s)
    ensures Wf(s) && IngestOk(s) && RequestContentsOk(s)
  {
    hide RequestContentsOk; hide LedgerBalances;
  }

  /** In every state of every run the intakes are in order. */
  lemma {:induction false} RunIntake(run: seq<State>, steps: seq<Step>, i: nat)
    requires IsRun(run, steps) && i < |run|
    ensures IntakeOk(run[i])
  {
    hide *;
    RunMeans(run, steps);
    if i == 0 {
      InitIntake(run[0]);
    } else {
      RunIntake(run, steps, i - 1);
      RunInv(run, steps, i - 1);
      IngestPartsOf(run[i - 1]);
      IntakeKeeps(run[i - 1], steps[i - 1]);
    }
  }
}
