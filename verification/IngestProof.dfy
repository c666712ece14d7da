/** Ingest is exactly-once: committed offset ranges never overlap, the stored
    position never moves back, and no message below it was passed over. */
module IngestProof {
  import opened Base
  import opened Rows
  import opened Tables
  import opened Machine
  import opened Frames
  import opened Wellformed

  ghost predicate LogsOk(s: State) {
    forall tp, m :: m in Msgs(s, tp) ==> m < LogEnd(s, tp)
  }

  /** No message lies between where a reader stood and the first offset it read. */
  ghost predicate NoneBetween(s: State, tp: Tp, lo: nat, hi: nat) {
    forall m :: m in Msgs(s, tp) ==> !(lo <= m < hi)
  }

  /** A committed range covers message `m` of `tp` for hypertable `ht`. */
  ghost predicate Consumed(s: State, ht: Ht, tp: Tp, m: nat) {
    exists i :: 0 <= i < |s.hist.flushed| && Covers(s.hist.flushed[i], ht, tp, m)
  }

  predicate Covers(f: (Ht, OffsetRange), ht: Ht, tp: Tp, m: nat) {
    f.0 == ht && f.1.tp == tp && f.1.first <= m <= f.1.last
  }

  /** The ledger of committed ranges against the stored positions. */
  ghost predicate LedgerOk(s: State) {
    && (forall i :: 0 <= i < |s.hist.flushed| ==>
          var f := s.hist.flushed[i];
          f.1.first <= f.1.last < Stored(s.db.offsets, f.0, f.1.tp))
    && (forall i, j :: 0 <= i < j < |s.hist.flushed| ==> Apart(s.hist.flushed[i], s.hist.flushed[j]))
    && (forall ht, tp, m :: m in Msgs(s, tp) && m < Stored(s.db.offsets, ht, tp) ==> Consumed(s, ht, tp, m))
    && (forall ht, tp :: Stored(s.db.offsets, ht, tp) <= LogEnd(s, tp))
  }

  /** Two committed ranges of one hypertable and partition lie apart, in order. */
  predicate Apart(a: (Ht, OffsetRange), b: (Ht, OffsetRange)) {
    a.0 == b.0 && a.1.tp == b.1.tp ==> a.1.last < b.1.first
  }

  /** What a buffered or submitted range is known to be. */
  ghost predicate RangeOk(s: State, ht: Ht, start: nat, tp: Tp, first: nat, last: nat) {
    && start <= Stored(s.db.offsets, ht, tp)
    && first <= last < LogEnd(s, tp)
    && NoneBetween(s, tp, start, first)
  }

  ghost predicate WorkerOk(s: State, w: IngestState) {
    match w
    case IOff => true
    case IRun(ht, from, pos, buf, _) =>
      && from.Keys == pos.Keys && buf.Keys <= pos.Keys
      && forall tp :: tp in pos ==>
           && pos[tp] <= LogEnd(s, tp)
           && (if tp in buf then RangeOk(s, ht, from[tp], tp, buf[tp].first, buf[tp].last) && pos[tp] == buf[tp].last + 1
               else pos[tp] == from[tp] <= Stored(s.db.offsets, ht, tp))
    case IFlush(ht, pos, t) =>
      && t < s.nextTxn
      && (forall tp :: tp in pos ==> pos[tp] <= LogEnd(s, tp))
      && (t in s.txns ==>
            && s.txns[t].req.ht == ht
            && forall tp :: tp in pos ==> pos[tp] <= Stored(s.db.offsets, ht, tp) || Submits(s.txns[t].req.ranges, tp, pos[tp]))
  }

  /** A submitted range ends where the worker's position stands. */
  ghost predicate Submits(ranges: seq<OffsetRange>, tp: Tp, pos: nat) {
    exists i :: 0 <= i < |ranges| && ranges[i].tp == tp && ranges[i].last + 1 == pos
  }

  ghost predicate WorkersOk(s: State) {
    forall w :: w in s.ingesters ==> WorkerOk(s, s.ingesters[w])
  }

  ghost predicate RequestRangesOk(s: State, req: Request) {
    && (forall i, j :: 0 <= i < j < |req.ranges| ==> req.ranges[i].tp != req.ranges[j].tp)
    && (forall i :: 0 <= i < |req.ranges| ==>
          && req.ranges[i].tp in req.starts
          && RangeOk(s, req.ht, req.starts[req.ranges[i].tp], req.ranges[i].tp, req.ranges[i].first, req.ranges[i].last))
    && (req.ident.Some? && req.ident.value.fp.Some? && req.ident.value.fp.value.IngestDigest? ==>
          req.ident.value.fp.value.ranges == Elements(req.ranges))
    && (req.ranges != [] ==> req.ident == Some(Factory(req.ht, IngestDigest(Elements(req.ranges)))))
  }

  ghost predicate RequestsOk(s: State) {
    forall t :: t in s.txns ==> RequestRangesOk(s, s.txns[t].req)
  }

  /** A commit that names offsets has moved the positions past them. */
  ghost predicate CommitRangesOk(s: State) {
    forall c, r :: c in s.db.commits && s.db.commits[c].fp.Some? && s.db.commits[c].fp.value.IngestDigest?
                   && r in s.db.commits[c].fp.value.ranges ==>
      r.last < Stored(s.db.offsets, s.db.commits[c].ht, r.tp)
  }

  ghost predicate IngestOk(s: State) {
    LogsOk(s) && LedgerOk(s) && WorkersOk(s) && RequestsOk(s) && CommitRangesOk(s)
  }

  // ---------------------------------------------------------------- the compare-and-set loop

  /** With one range per partition, the loop takes each position from at or below the
      range's start to just past its end, and touches nothing else. */
  lemma {:induction false} OffsetsAdvance(offsets: map<(Ht, Tp), nat>, ht: Ht, ranges: seq<OffsetRange>)
    requires forall i, j :: 0 <= i < j < |ranges| ==> ranges[i].tp != ranges[j].tp
    requires AdvanceOffsets(offsets, ht, ranges).Ok?
    ensures var o := AdvanceOffsets(offsets, ht, ranges).value;
            && (forall i :: 0 <= i < |ranges| ==>
                  Stored(offsets, ht, ranges[i].tp) <= ranges[i].first && Stored(o, ht, ranges[i].tp) == ranges[i].last + 1)
            && (forall h, tp :: h != ht || (forall i :: 0 <= i < |ranges| ==> ranges[i].tp != tp) ==>
                  Stored(o, h, tp) == Stored(offsets, h, tp))
    decreases ranges
  {
    if ranges != [] {
      var r, rest := ranges[0], ranges[1..];
      var mid := offsets[(ht, r.tp) := r.last + 1];
      OffsetsAdvance(mid, ht, rest);
      var o := AdvanceOffsets(offsets, ht, ranges).value;
      assert o == AdvanceOffsets(mid, ht, rest).value;
      hide AdvanceOffsets;
      assert forall i :: 0 <= i < |rest| ==> rest[i] == ranges[i + 1];
      assert Stored(o, ht, r.tp) == Stored(mid, ht, r.tp);
      forall i | 0 <= i < |ranges|
        ensures Stored(offsets, ht, ranges[i].tp) <= ranges[i].first && Stored(o, ht, ranges[i].tp) == ranges[i].last + 1
      {
        if i > 0 { assert ranges[i] == rest[i - 1]; }
      }
      forall h, tp | h != ht || (forall i :: 0 <= i < |ranges| ==> ranges[i].tp != tp)
        ensures Stored(o, h, tp) == Stored(offsets, h, tp)
      {
        assert h != ht || tp != ranges[0].tp;
        assert Stored(o, h, tp) == Stored(mid, h, tp);
      }
    }
  }

  // ---------------------------------------------------------------- what only grows

  /** Positions only move forward; messages below a log's end only disappear. */
  ghost predicate OffsetsGrow(s: State, s': State) {
    && (forall ht, tp :: Stored(s.db.offsets, ht, tp) <= Stored(s'.db.offsets, ht, tp))
    && (forall tp :: LogEnd(s, tp) <= LogEnd(s', tp))
    && (forall tp, m :: m in Msgs(s', tp) && m < LogEnd(s, tp) ==> m in Msgs(s, tp))
    && s.nextTxn <= s'.nextTxn
  }

  lemma RangeStays(s: State, s': State, ht: Ht, start: nat, tp: Tp, first: nat, last: nat)
    requires OffsetsGrow(s, s') && RangeOk(s, ht, start, tp, first, last)
    ensures RangeOk(s', ht, start, tp, first, last)
  {
    hide Stored; hide Msgs; hide LogEnd;
    assert Stored(s.db.offsets, ht, tp) <= Stored(s'.db.offsets, ht, tp);
    assert LogEnd(s, tp) <= LogEnd(s', tp);
  }

  lemma WorkerStays(s: State, s': State, w: IngestState)
    requires OffsetsGrow(s, s') && WorkerOk(s, w)
    requires w.IFlush? && w.txn in s'.txns ==> w.txn in s.txns && s'.txns[w.txn].req == s.txns[w.txn].req
    ensures WorkerOk(s', w)
  {
    hide LogEnd;
    match w
    case IOff =>
    case IRun(ht, from, pos, buf, _) =>
      forall tp | tp in pos
        ensures pos[tp] <= LogEnd(s', tp)
                && (if tp in buf then RangeOk(s', ht, from[tp], tp, buf[tp].first, buf[tp].last) && pos[tp] == buf[tp].last + 1
                    else pos[tp] == from[tp] <= Stored(s'.db.offsets, ht, tp))
      {
        assert LogEnd(s, tp) <= LogEnd(s', tp);
        assert Stored(s.db.offsets, ht, tp) <= Stored(s'.db.offsets, ht, tp);
        if tp in buf { RangeStays(s, s', ht, from[tp], tp, buf[tp].first, buf[tp].last); }
      }
    case IFlush(ht, pos, t) =>
      forall tp | tp in pos
        ensures pos[tp] <= LogEnd(s', tp)
                && (t in s'.txns ==> pos[tp] <= Stored(s'.db.offsets, ht, tp) || Submits(s'.txns[t].req.ranges, tp, pos[tp]))
      {
        assert LogEnd(s, tp) <= LogEnd(s', tp);
        assert Stored(s.db.offsets, ht, tp) <= Stored(s'.db.offsets, ht, tp);
      }
  }

  lemma RequestStays(s: State, s': State, req: Request)
    requires OffsetsGrow(s, s') && RequestRangesOk(s, req)
    ensures RequestRangesOk(s', req)
  {
    hide RangeOk; hide OffsetsGrow;
    forall i | 0 <= i < |req.ranges|
      ensures req.ranges[i].tp in req.starts
              && RangeOk(s', req.ht, req.starts[req.ranges[i].tp], req.ranges[i].tp, req.ranges[i].first, req.ranges[i].last)
    {
      RangeStays(s, s', req.ht, req.starts[req.ranges[i].tp], req.ranges[i].tp, req.ranges[i].first, req.ranges[i].last);
    }
  }

  lemma SameOffsetsGrow(s: State, s': State)
    requires s'.db.offsets == s.db.offsets && s'.kafka == s.kafka && s.nextTxn <= s'.nextTxn
    ensures OffsetsGrow(s, s')
  {
  }

  /** Offsets, logs and ledger untouched; the transactions are a part of those before. */
  lemma QuietKeepsIngest(s: State, s': State)
    requires IngestOk(s)
    requires s'.db.offsets == s.db.offsets && s'.kafka == s.kafka && s'.hist.flushed == s.hist.flushed
    requires s'.db.commits == s.db.commits && s'.ingesters == s.ingesters && s'.nextTxn == s.nextTxn
    requires forall t :: t in s'.txns ==> t in s.txns && s'.txns[t].req == s.txns[t].req
    ensures IngestOk(s')
  {
    SameOffsetsGrow(s, s');
    LedgerFrame(s, s');
    forall w | w in s'.ingesters ensures WorkerOk(s', s'.ingesters[w]) { WorkerStays(s, s', s.ingesters[w]); }
    forall t | t in s'.txns ensures RequestRangesOk(s', s'.txns[t].req) { RequestStays(s, s', s.txns[t].req); }
  }

  lemma LedgerFrame(s: State, s': State)
    requires LedgerOk(s) && LogsOk(s) && s'.db.offsets == s.db.offsets && s'.kafka == s.kafka && s'.hist.flushed == s.hist.flushed
    ensures LedgerOk(s') && LogsOk(s')
  {
    assert forall tp :: Msgs(s', tp) == Msgs(s, tp) && LogEnd(s', tp) == LogEnd(s, tp);
    forall ht, tp, m | m in Msgs(s', tp) && m < Stored(s'.db.offsets, ht, tp) ensures Consumed(s', ht, tp, m) {
      assert Consumed(s, ht, tp, m);
    }
  }

  // ---------------------------------------------------------------- transactions

  /** The ranges a flush submits are the ones the worker buffered. */
  lemma FlushRanges(s: State, req: Request, ht: Ht, from: map<Tp, nat>, pos: map<Tp, nat>, buf: map<Tp, Span>, took: set<(Tp, nat)>)
    requires WorkerOk(s, IRun(ht, from, pos, buf, took)) && Drains(buf, req.ranges)
    requires req.ht == ht && req.starts == from
    requires req.ident == Some(Factory(req.ht, IngestDigest(Elements(req.ranges))))
    ensures RequestRangesOk(s, req)
    ensures forall tp :: tp in pos ==> pos[tp] <= Stored(s.db.offsets, ht, tp) || Submits(req.ranges, tp, pos[tp])
  {
    hide LogEnd;
    forall i | 0 <= i < |req.ranges|
      ensures req.ranges[i].tp in req.starts
              && RangeOk(s, req.ht, req.starts[req.ranges[i].tp], req.ranges[i].tp, req.ranges[i].first, req.ranges[i].last)
    {
      var r := req.ranges[i];
      assert r in req.ranges;
      assert r.tp in pos;
    }
    forall tp | tp in pos ensures pos[tp] <= Stored(s.db.offsets, ht, tp) || Submits(req.ranges, tp, pos[tp]) {
      if tp in buf {
        var r := OffsetRange(tp, buf[tp].first, buf[tp].last);
        assert r in req.ranges;
        var i :| 0 <= i < |req.ranges| && req.ranges[i] == r;
      }
    }
  }

  lemma BeginKeepsIngest(s: State, t: nat, req: Request)
    requires IngestOk(s) && TxnEnabled(s, Begin(t, req))
    ensures IngestOk(TxnNext(s, Begin(t, req)))
  {
    hide TxnNext; hide ClientOk;
    hide LedgerOk; hide LogsOk; hide RequestRangesOk; hide Submits; hide RangeOk; hide Stored; hide LogEnd;
    var s' := TxnNext(s, Begin(t, req));
    BeginFrame(s, t, req);
    BeginWorkers(s, t, req);
    SameOffsetsGrow(s, s');
    LedgerFrame(s, s');
    if req.client.Ingester? {
      var w := s.ingesters[req.client.worker];
      assert WorkerOk(s, w);
      FlushRanges(s, req, w.ht, w.from, w.pos, w.buf, w.took);
    } else {
      NoRanges(s, req);
    }
    forall u | u in s'.txns ensures RequestRangesOk(s', s'.txns[u].req) { RequestStays(s, s', s'.txns[u].req); }
    forall w | w in s'.ingesters ensures WorkerOk(s', s'.ingesters[w]) {
      assert WorkerOk(s, s.ingesters[w]);
      if s'.ingesters[w] == s.ingesters[w] { WorkerStays(s, s', s.ingesters[w]); }
      else { LogEndSame(s, s'); }
    }
  }

  lemma LogEndSame(s: State, s': State)
    requires s'.kafka == s.kafka
    ensures forall tp :: LogEnd(s', tp) == LogEnd(s, tp)
  {
  }

  lemma NoRanges(s: State, req: Request)
    requires req.ranges == []
    requires req.ident.Some? && req.ident.value.fp.Some? ==> !req.ident.value.fp.value.IngestDigest?
    ensures RequestRangesOk(s, req)
  {
  }

  /** The submitted ranges lie below the stored positions. */
  ghost predicate Settled(s: State, req: Request) {
    forall i :: 0 <= i < |req.ranges| ==> req.ranges[i].last < Stored(s.db.offsets, req.ht, req.ranges[i].tp)
  }

  lemma AnswerKeepsWorkers(s: State, t: nat, ok: bool, s': State)
    requires WorkersOk(s) && t in s.txns && OffsetsGrow(s, s')
    requires s'.ingesters == AnswerIngester(s.ingesters, s.txns[t].req.client, t, ok)
    requires s'.txns == s.txns - {t}
    requires ok ==> Settled(s', s.txns[t].req)
    ensures WorkersOk(s')
  {
    hide Stored; hide LogEnd; hide RangeOk;
    forall w | w in s'.ingesters ensures WorkerOk(s', s'.ingesters[w]) {
      var x := s.ingesters[w];
      assert WorkerOk(s, x);
      if s'.ingesters[w] == x { WorkerStays(s, s', x); }
      else if s'.ingesters[w].IRun? {
        var pos := x.pos;
        forall tp | tp in pos ensures pos[tp] <= LogEnd(s', tp) && pos[tp] <= Stored(s'.db.offsets, x.ht, tp) {
          assert LogEnd(s, tp) <= LogEnd(s', tp);
          assert Stored(s.db.offsets, x.ht, tp) <= Stored(s'.db.offsets, x.ht, tp);
        }
      }
    }
  }

  /** A landed answer is true of the offsets. */
  lemma LandedIsSettled(s: State, t: nat, s': State)
    requires Wf(s) && RequestsOk(s) && CommitRangesOk(s) && t in s.txns && s.txns[t].phase.Allocated?
    requires Landed(BodyOf(s, t).0) && s'.db == BodyOf(s, t).1
    ensures Settled(s', s.txns[t].req)
  {
    var x := s.txns[t];
    assert RequestRangesOk(s, x.req);
    if BodyOf(s, t).0.Committed? {
      BodyCommits(s.db, x.phase.id, x.req.ht, x.req.op, x.req.ident, x.req.ranges, x.startedAt);
      OffsetsAdvance(s.db.offsets, x.req.ht, x.req.ranges);
    } else {
      BodyDeclines(s.db, x.phase.id, x.req.ht, x.req.op, x.req.ident, x.req.ranges, x.startedAt);
      if x.req.ranges != [] { ReplaySettled(s, x.req); }
    }
  }

  lemma ReplaySettled(s: State, req: Request)
    requires CommitsOk(s) && CommitRangesOk(s) && req.ident == Some(Factory(req.ht, IngestDigest(Elements(req.ranges))))
    requires Reconcile(s.db, req.ident.value).Ok? && Reconcile(s.db, req.ident.value).value.Some?
    ensures Settled(s, req)
  {
    hide Stored;
    var c := s.db.keyIndex[(req.ht, req.ident.value.key)];
    forall i | 0 <= i < |req.ranges| ensures req.ranges[i].last < Stored(s.db.offsets, req.ht, req.ranges[i].tp) {
      assert req.ranges[i] in Elements(req.ranges);
    }
  }

  /** The ledger after a commit: each new range starts at or past the old position and
      no message lies in between. */
  lemma CommitKeepsLedger(s: State, t: nat, s': State)
    requires IngestOk(s) && CommitEffect(s, t, s')
    ensures LedgerOk(s') && LogsOk(s') && OffsetsGrow(s, s')
  {
    hide PartsAfter;
    hide WorkersOk; hide Stored; hide Msgs; hide LogEnd; hide Elements; hide LedgerOk; hide RangeOk;
    var x := s.txns[t];
    assert RequestRangesOk(s, x.req);
    OffsetsAdvance(s.db.offsets, x.req.ht, x.req.ranges);
    RecordFlushed(s, x.req);
    LogsSame(s, s');
    LedgerGrows(s, x.req, s');
  }

  lemma LogsSame(s: State, s': State)
    requires s'.kafka == s.kafka
    ensures forall tp :: Msgs(s', tp) == Msgs(s, tp) && LogEnd(s', tp) == LogEnd(s, tp)
  {
  }

  lemma RecordFlushed(s: State, req: Request)
    ensures var f := Record(s, req).flushed;
            && |f| == |s.hist.flushed| + |req.ranges|
            && (forall i :: 0 <= i < |s.hist.flushed| ==> f[i] == s.hist.flushed[i])
            && (forall i :: |s.hist.flushed| <= i < |f| ==> f[i] == (req.ht, req.ranges[i - |s.hist.flushed|]))
  {
    hide AddedBy; hide ErasedBy;
  }

  /** The positions after the loop, from the loop's own lemma. */
  ghost predicate Advanced(s: State, req: Request, s': State) {
    && (forall i :: 0 <= i < |req.ranges| ==>
          Stored(s.db.offsets, req.ht, req.ranges[i].tp) <= req.ranges[i].first
          && Stored(s'.db.offsets, req.ht, req.ranges[i].tp) == req.ranges[i].last + 1)
    && (forall h, tp :: h != req.ht || (forall i :: 0 <= i < |req.ranges| ==> req.ranges[i].tp != tp) ==>
          Stored(s'.db.offsets, h, tp) == Stored(s.db.offsets, h, tp))
  }

  lemma StoredGrows(s: State, req: Request, s': State, ht: Ht, tp: Tp)
    requires Advanced(s, req, s') && RequestRangesOk(s, req)
    ensures Stored(s.db.offsets, ht, tp) <= Stored(s'.db.offsets, ht, tp)
  {
    hide Stored; hide RangeOk; hide Elements;
    if ht == req.ht && exists i :: 0 <= i < |req.ranges| && req.ranges[i].tp == tp {
      var i :| 0 <= i < |req.ranges| && req.ranges[i].tp == tp;
      assert RangeOk(s, req.ht, req.starts[req.ranges[i].tp], req.ranges[i].tp, req.ranges[i].first, req.ranges[i].last);
      RangeOrder(s, req.ht, req.starts[req.ranges[i].tp], req.ranges[i].tp, req.ranges[i].first, req.ranges[i].last);
    }
  }

  lemma RangeOrder(s: State, ht: Ht, start: nat, tp: Tp, first: nat, last: nat)
    requires RangeOk(s, ht, start, tp, first, last)
    ensures first <= last < LogEnd(s, tp) && start <= Stored(s.db.offsets, ht, tp) && NoneBetween(s, tp, start, first)
  {
  }

  lemma LedgerGrows(s: State, req: Request, s': State)
    requires LedgerOk(s) && LogsOk(s) && RequestRangesOk(s, req) && Advanced(s, req, s')
    requires s'.kafka == s.kafka && s.nextTxn == s'.nextTxn
    requires var f := s'.hist.flushed;
             && |f| == |s.hist.flushed| + |req.ranges|
             && (forall i :: 0 <= i < |s.hist.flushed| ==> f[i] == s.hist.flushed[i])
             && (forall i :: |s.hist.flushed| <= i < |f| ==> f[i] == (req.ht, req.ranges[i - |s.hist.flushed|]))
    ensures LedgerOk(s') && LogsOk(s') && OffsetsGrow(s, s')
  {
    LogsSame(s, s');
    var n, f := |s.hist.flushed|, s'.hist.flushed;
    forall ht, tp ensures Stored(s.db.offsets, ht, tp) <= Stored(s'.db.offsets, ht, tp) { StoredGrows(s, req, s', ht, tp); }
    forall i | 0 <= i < |f| ensures f[i].1.first <= f[i].1.last < Stored(s'.db.offsets, f[i].0, f[i].1.tp) {
      if i >= n {
        var r := req.ranges[i - n];
        RangeOrder(s, req.ht, req.starts[r.tp], r.tp, r.first, r.last);
      }
    }
    forall i, j | 0 <= i < j < |f| ensures Apart(f[i], f[j]) {
      if i < n { assert s.hist.flushed[i] == f[i]; }
    }
    forall ht, tp ensures Stored(s'.db.offsets, ht, tp) <= LogEnd(s', tp) {
      if ht == req.ht && exists i :: 0 <= i < |req.ranges| && req.ranges[i].tp == tp {
        var i :| 0 <= i < |req.ranges| && req.ranges[i].tp == tp;
        RangeOrder(s, req.ht, req.starts[tp], tp, req.ranges[i].first, req.ranges[i].last);
      }
    }
    forall ht, tp, m | m in Msgs(s', tp) && m < Stored(s'.db.offsets, ht, tp) ensures Consumed(s', ht, tp, m) {
      CommitConsumes(s, req, s', ht, tp, m);
    }
  }

  lemma CommitConsumes(s: State, req: Request, s': State, ht: Ht, tp: Tp, m: nat)
    requires LedgerOk(s) && RequestRangesOk(s, req) && Advanced(s, req, s')
    requires s'.kafka == s.kafka
    requires var f := s'.hist.flushed;
             && |f| == |s.hist.flushed| + |req.ranges|
             && (forall i :: 0 <= i < |s.hist.flushed| ==> f[i] == s.hist.flushed[i])
             && (forall i :: |s.hist.flushed| <= i < |f| ==> f[i] == (req.ht, req.ranges[i - |s.hist.flushed|]))
    requires m in Msgs(s', tp) && m < Stored(s'.db.offsets, ht, tp)
    ensures Consumed(s', ht, tp, m)
  {
    LogsSame(s, s');
    var n, f := |s.hist.flushed|, s'.hist.flushed;
    if m < Stored(s.db.offsets, ht, tp) {
      assert Consumed(s, ht, tp, m);
      var i :| 0 <= i < n && Covers(s.hist.flushed[i], ht, tp, m);
      assert Covers(f[i], ht, tp, m);
    } else {
      var i :| 0 <= i < |req.ranges| && req.ranges[i].tp == tp && ht == req.ht;
      RangeOrder(s, req.ht, req.starts[tp], tp, req.ranges[i].first, req.ranges[i].last);
      assert Covers(f[n + i], ht, tp, m);
    }
  }

  lemma CommitKeepsRanges(s: State, t: nat, s': State)
    requires CommitRangesOk(s) && RequestsOk(s) && OffsetsGrow(s, s') && CommitEffect(s, t, s')
    requires Settled(s', s.txns[t].req)
    ensures CommitRangesOk(s')
  {
    hide Record; hide PartsAfter;
    hide Stored; hide RangeOk;
    var x := s.txns[t];
    assert RequestRangesOk(s, x.req);
    forall c, r | c in s'.db.commits && s'.db.commits[c].fp.Some? && s'.db.commits[c].fp.value.IngestDigest?
                  && r in s'.db.commits[c].fp.value.ranges
      ensures r.last < Stored(s'.db.offsets, s'.db.commits[c].ht, r.tp)
    {
      if c == x.phase.id {
        assert r in Elements(x.req.ranges);
      } else {
        assert Stored(s.db.offsets, s.db.commits[c].ht, r.tp) <= Stored(s'.db.offsets, s.db.commits[c].ht, r.tp);
      }
    }
  }

  lemma CommitKeepsIngest(s: State, t: nat, ack: bool, s': State)
    requires Wf(s) && IngestOk(s) && CommitEffect(s, t, s') && BodyOf(s, t).0.Committed?
    requires s'.db == BodyOf(s, t).1
    requires s'.ingesters == AnswerIngester(s.ingesters, s.txns[t].req.client, t, ack)
    ensures IngestOk(s')
  {
    hide OffsetsGrow; hide BodyOf;
    hide Wf;
    CommitKeepsLedger(s, t, s');
    LandedIsSettled(s, t, s');
    CommitKeepsRanges(s, t, s');
    AnswerKeepsWorkers(s, t, ack, s');
    forall u | u in s'.txns ensures RequestRangesOk(s', s'.txns[u].req) { RequestStays(s, s', s.txns[u].req); }
  }

  lemma FinishKeepsIngest(s: State, t: nat, ack: bool)
    requires Wf(s) && IngestOk(s) && TxnEnabled(s, Finish(t, ack))
    ensures IngestOk(TxnNext(s, Finish(t, ack)))
  {
    hide AnswerIngester; hide Wf; hide Record;
    hide IngestOk;
    var s' := TxnNext(s, Finish(t, ack));
    var o := BodyOf(s, t).0;
    FinishCases(s, t, ack);
    FinishFrame(s, t, ack);
    if o.Committed? {
      CommitKeepsIngest(s, t, ack, s');
    } else {
      DeclineKeepsIngest(s, t, ack && Landed(o));
    }
  }

  lemma DeclineKeepsIngest(s: State, t: nat, ok: bool)
    requires Wf(s) && IngestOk(s) && t in s.txns
    requires ok ==> s.txns[t].phase.Allocated? && Landed(BodyOf(s, t).0) && !BodyOf(s, t).0.Committed?
    ensures IngestOk(Answer(s, t, ok))
  {
    var s' := Answer(s, t, ok);
    if ok { DeclineTables(s, t); LandedIsSettled(s, t, s'); }
    SettleKeepsIngest(s, t, ok);
  }

  lemma DeclineTables(s: State, t: nat)
    requires t in s.txns && s.txns[t].phase.Allocated? && !BodyOf(s, t).0.Committed?
    ensures BodyOf(s, t).1 == s.db
  {
    hide Body;
    var x := s.txns[t];
    BodyDeclines(s.db, x.phase.id, x.req.ht, x.req.op, x.req.ident, x.req.ranges, x.startedAt);
  }

  lemma SettleKeepsIngest(s: State, t: nat, ok: bool)
    requires IngestOk(s) && t in s.txns && (ok ==> Settled(Answer(s, t, ok), s.txns[t].req))
    ensures IngestOk(Answer(s, t, ok))
  {
    var s' := Answer(s, t, ok);
    SameOffsetsGrow(s, s');
    LedgerFrame(s, s');
    AnswerKeepsWorkers(s, t, ok, s');
    forall u | u in s'.txns ensures RequestRangesOk(s', s'.txns[u].req) { RequestStays(s, s', s.txns[u].req); }
  }

  lemma TxnKeepsIngest(s: State, step: TxnStep)
    requires Wf(s) && IngestOk(s) && TxnEnabled(s, step) && !step.Finish?
    ensures IngestOk(TxnNext(s, step))
  {
    hide IngestOk;
    hide Answer; hide Advances; hide Wf; hide BodyOf; hide Settled;
    var s', t := TxnNext(s, step), step.txn;
    match step {
      case Begin(_, req) => BeginKeepsIngest(s, t, req);
      case Lookup(_, ack) =>
        LookupFrame(s, t, ack);
        DeclineKeepsIngest(s, t, false);
        if Advances(s, t, s.txns[t].(phase := Looked), s') { AdvancesKeepsIngest(s, t, s.txns[t].(phase := Looked), s'); }
        else if s' != Answer(s, t, false) { ReplayKeepsIngest(s, t, ack); }
      case Check(_) =>
        CheckFrame(s, t);
        DeclineKeepsIngest(s, t, false);
        var x := s.txns[t].(phase := Fenced, fencedAt := Some(s.now));
        if Advances(s, t, x, s') { AdvancesKeepsIngest(s, t, x, s'); }
      case Alloc(_) => AllocFrame(s, t); AdvancesKeepsIngest(s, t, s.txns[t].(phase := Allocated(s.commitSeq)), s');
      case Rollback(_) => RollbackFrame(s, t); DeclineKeepsIngest(s, t, false);
    }
  }

  lemma AdvancesKeepsIngest(s: State, t: nat, x: Txn, s': State)
    requires IngestOk(s) && t in s.txns && Advances(s, t, x, s')
    ensures IngestOk(s')
  {
    hide IngestOk;
    QuietKeepsIngest(s, s');
  }

  lemma ReplayKeepsIngest(s: State, t: nat, ack: bool)
    requires Wf(s) && IngestOk(s) && t in s.txns && s.txns[t].req.ident.Some?
    requires Reconcile(s.db, s.txns[t].req.ident.value).Ok? && Reconcile(s.db, s.txns[t].req.ident.value).value.Some?
    ensures IngestOk(Answer(s, t, ack))
  {
    var req := s.txns[t].req;
    assert RequestRangesOk(s, req);
    if req.ranges != [] { ReplaySettled(s, req); }
    assert Settled(Answer(s, t, ack), req);
    SettleKeepsIngest(s, t, ack);
  }

  // ---------------------------------------------------------------- workers and logs

  lemma OneWorker(s: State, w: nat, y: IngestState, s': State)
    requires IngestOk(s) && WorkerOk(s, y) && !y.IFlush? && s' == s.(ingesters := s.ingesters[w := y])
    ensures IngestOk(s')
  {
    SameOffsetsGrow(s, s');
    LedgerFrame(s, s');
    forall v | v in s'.ingesters ensures WorkerOk(s', s'.ingesters[v]) {
      if v == w { WorkerStays(s, s', y); } else { WorkerStays(s, s', s.ingesters[v]); }
    }
    forall t | t in s'.txns ensures RequestRangesOk(s', s'.txns[t].req) { RequestStays(s, s', s.txns[t].req); }
  }

  lemma ConnectKeeps(s: State, w: nat, ht: Ht)
    requires IngestOk(s) && IngestEnabled(s, Connect(w, ht))
    ensures IngestOk(IngestNext(s, Connect(w, ht)))
  {
    var pos := map tp | tp in s.kafka :: Stored(s.db.offsets, ht, tp);
    assert WorkerOk(s, IRun(ht, pos, pos, map[], {}));
    OneWorker(s, w, IRun(ht, pos, pos, map[], {}), IngestNext(s, Connect(w, ht)));
  }

  /** A received message extends the buffer over a stretch without messages. */
  lemma Received(s: State, ht: Ht, from: map<Tp, nat>, pos: map<Tp, nat>, buf: map<Tp, Span>, took: set<(Tp, nat)>,
                 tp: Tp, o: nat)
    requires WorkerOk(s, IRun(ht, from, pos, buf, took)) && tp in pos && o in Msgs(s, tp) && o < LogEnd(s, tp) && pos[tp] <= o
    requires forall m :: m in Msgs(s, tp) && m < o ==> m < pos[tp]
    ensures WorkerOk(s, IRun(ht, from, pos[tp := o + 1],
                             buf[tp := Span(if tp in buf then buf[tp].first else o, o)], took + {(tp, o)}))
  {
    hide Stored; hide LogEnd; hide Msgs;
    var pos', buf' := pos[tp := o + 1], buf[tp := Span(if tp in buf then buf[tp].first else o, o)];
    forall q | q in pos'
      ensures pos'[q] <= LogEnd(s, q)
              && (if q in buf' then RangeOk(s, ht, from[q], q, buf'[q].first, buf'[q].last) && pos'[q] == buf'[q].last + 1
                  else pos'[q] == from[q] <= Stored(s.db.offsets, ht, q))
    {
      if q == tp && tp in buf { assert RangeOk(s, ht, from[q], q, buf[q].first, buf[q].last); }
    }
  }

  lemma ReceiveKeeps(s: State, w: nat, tp: Tp, o: nat)
    requires IngestOk(s) && IngestEnabled(s, Receive(w, tp, o))
    ensures IngestOk(IngestNext(s, Receive(w, tp, o)))
  {
    hide Stored; hide WorkerOk;
    var x := s.ingesters[w];
    Received(s, x.ht, x.from, x.pos, x.buf, x.took, tp, o);
    OneWorker(s, w, x.(pos := x.pos[tp := o + 1], buf := x.buf[tp := Span(if tp in x.buf then x.buf[tp].first else o, o)], took := x.took + {(tp, o)}),
              IngestNext(s, Receive(w, tp, o)));
  }

  lemma KafkaKeeps(s: State, step: IngestStep)
    requires IngestOk(s) && IngestEnabled(s, step) && (step.KafkaAppend? || step.KafkaRemove?)
    ensures IngestOk(IngestNext(s, step))
  {
    hide WorkerOk; hide RequestRangesOk;
    var s' := IngestNext(s, step);
    assert OffsetsGrow(s, s');
    forall tp, m | m in Msgs(s', tp) ensures m < LogEnd(s', tp) {
      if tp != step.tp || step.KafkaRemove? || m != step.offset {
        assert m in Msgs(s, tp);
        assert LogEnd(s, tp) <= LogEnd(s', tp);
      }
    }
    LogsMove(s, s');
    forall v | v in s'.ingesters ensures WorkerOk(s', s'.ingesters[v]) { WorkerStays(s, s', s.ingesters[v]); }
    forall t | t in s'.txns ensures RequestRangesOk(s', s'.txns[t].req) { RequestStays(s, s', s.txns[t].req); }
  }

  /** A message appended past the end, or removed, owes nothing below the positions. */
  lemma LogsMove(s: State, s': State)
    requires LedgerOk(s) && OffsetsGrow(s, s') && s'.db.offsets == s.db.offsets && s'.hist.flushed == s.hist.flushed
    ensures LedgerOk(s')
  {
    hide Stored; hide Msgs; hide LogEnd;
    forall ht, tp ensures Stored(s'.db.offsets, ht, tp) <= LogEnd(s', tp) {
      assert LogEnd(s, tp) <= LogEnd(s', tp);
    }
    forall ht, tp, m | m in Msgs(s', tp) && m < Stored(s'.db.offsets, ht, tp) ensures Consumed(s', ht, tp, m) {
      assert Stored(s.db.offsets, ht, tp) <= LogEnd(s, tp);
      assert Consumed(s, ht, tp, m);
    }
  }

  lemma IngestKeepsIngest(s: State, step: IngestStep)
    requires IngestOk(s) && IngestEnabled(s, step)
    ensures IngestOk(IngestNext(s, step))
  {
    match step {
      case Connect(w, ht) => ConnectKeeps(s, w, ht);
      case Receive(w, tp, o) => ReceiveKeeps(s, w, tp, o);
      case IngestCrash(w) => OneWorker(s, w, IOff, IngestNext(s, step));
      case _ => KafkaKeeps(s, step);
    }
  }
}
