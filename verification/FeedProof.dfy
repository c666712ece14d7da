/** Feed completeness: once a head has been handed out, the feed up to it is final. */
module FeedProof {
  import opened Base
  import opened Rows
  import opened Tables
  import opened Machine
  import opened Frames
  import opened Wellformed

  /** A reader's exclusive lock and a writer's shared lock exclude each other. */
  ghost predicate LocksOk(s: State) {
    forall r, t :: r in s.readers && t in s.txns ==> s.readers[r].ht != s.txns[t].req.ht
  }

  /** Every id still to be drawn, and every id drawn and not yet decided, is above
      every head handed out for its hypertable. */
  ghost predicate HeadsOk(s: State) {
    && (forall ht :: HeadOf(s.hist, ht) < s.commitSeq)
    && (forall t :: t in s.txns && s.txns[t].phase.Allocated? ==>
          HeadOf(s.hist, s.txns[t].req.ht) < s.txns[t].phase.id)
  }

  /** No cursor runs ahead of the heads handed out. */
  ghost predicate CursorsOk(s: State) {
    forall k :: k in s.db.cursors ==> s.db.cursors[k] <= HeadOf(s.hist, k.1)
  }

  /** A consumer has seen exactly the committed events between its start and its
      cursor, in increasing order. */
  ghost predicate ConsumerOk(s: State, x: Consumer) {
    && x.start <= x.cursor <= HeadOf(s.hist, x.ht)
    && (x.head.Some? ==> x.head.value <= HeadOf(s.hist, x.ht))
    && (forall i, j :: 0 <= i < j < |x.seen| ==> x.seen[i] < x.seen[j])
    && (forall c :: c in x.seen <==> c in Feed(s.db, x.ht) && x.start < c <= x.cursor)
  }

  ghost predicate ConsumersOk(s: State) {
    forall c :: c in s.consumers ==> ConsumerOk(s, s.consumers[c])
  }

  ghost predicate FeedOk(s: State) {
    LocksOk(s) && HeadsOk(s) && CursorsOk(s) && ConsumersOk(s)
  }

  /** Nothing at or below a head handed out has appeared or disappeared. */
  ghost predicate FeedKept(s: State, s': State) {
    forall ht :: HeadOf(s.hist, ht) <= HeadOf(s'.hist, ht) && PrefixKept(s.db, s'.db, ht, HeadOf(s.hist, ht))
  }

  ghost predicate PrefixKept(db: Db, db': Db, ht: Ht, h: CommitId) {
    forall c :: c <= h ==> (c in Feed(db, ht) <==> c in Feed(db', ht))
  }

  // ---------------------------------------------------------------- transactions

  lemma ConsumersFrame(s: State, s': State)
    requires ConsumersOk(s) && s'.consumers == s.consumers && s'.hist.heads == s.hist.heads
    requires FeedKept(s, s')
    ensures ConsumersOk(s')
  {
    forall c | c in s'.consumers ensures ConsumerOk(s', s'.consumers[c]) {
      var x := s.consumers[c];
      assert ConsumerOk(s, x);
      assert PrefixKept(s.db, s'.db, x.ht, HeadOf(s.hist, x.ht));
      hide Feed;
    }
  }

  lemma SameFeed(s: State, s': State)
    requires s'.db.commits == s.db.commits && s'.hist.heads == s.hist.heads
    ensures FeedKept(s, s')
  {
  }

  lemma TxnKeepsFeed(s: State, step: TxnStep)
    requires FeedOk(s) && TxnEnabled(s, step) && !step.Finish?
    ensures FeedOk(TxnNext(s, step)) && FeedKept(s, TxnNext(s, step))
  {
    var s' := TxnNext(s, step);
    TxnMovesOn(s, step);
    SameFeed(s, s');
    ConsumersFrame(s, s');
  }

  /** A commit lands above every head handed out for its hypertable. */
  lemma CommitKeepsFeed(s: State, t: nat, s': State)
    requires Wf(s) && FeedOk(s) && CommitEffect(s, t, s')
    ensures FeedOk(s') && FeedKept(s, s')
  {
    hide Record; hide AllLive;
    hide PartsOk; hide ReapersOk; hide ConsumersOk;
    assert s'.hist.heads == s.hist.heads by { RecordHeads(s, s.txns[t].req); }
    hide CommitsOk;
    forall ht ensures HeadOf(s.hist, ht) <= HeadOf(s'.hist, ht) && PrefixKept(s.db, s'.db, ht, HeadOf(s.hist, ht)) {
    }
    ConsumersFrame(s, s');
  }

  lemma RecordHeads(s: State, req: Request)
    ensures Record(s, req).heads == s.hist.heads && Record(s, req).mvInit == s.hist.mvInit
    ensures Record(s, req).tenancies == s.hist.tenancies
    ensures Record(s, req).reaped == s.hist.reaped && Record(s, req).swept == s.hist.swept
  {
    hide AddedBy; hide ErasedBy;
  }

  lemma FinishKeepsFeed(s: State, t: nat, ack: bool)
    requires Wf(s) && FeedOk(s) && TxnEnabled(s, Finish(t, ack))
    ensures FeedOk(TxnNext(s, Finish(t, ack))) && FeedKept(s, TxnNext(s, Finish(t, ack)))
  {
    hide BodyOf; hide AnswerIngester; hide Wf;
    var s' := TxnNext(s, Finish(t, ack));
    FinishCases(s, t, ack);
    if BodyOf(s, t).0.Committed? {
      CommitKeepsFeed(s, t, s');
    } else {
      SameFeed(s, s');
      ConsumersFrame(s, s');
    }
  }

  // ---------------------------------------------------------------- readers and consumers

  /** The table-level effect of handing out head `h` of `ht`. */
  ghost predicate HandedOut(s: State, ht: Ht, h: CommitId, s': State) {
    && s'.txns == s.txns && s'.commitSeq == s.commitSeq && s'.db.commits == s.db.commits
    && (forall r :: r in s'.readers ==> r in s.readers && s'.readers[r] == s.readers[r])
    && s'.hist.heads == s.hist.heads[ht := if h > HeadOf(s.hist, ht) then h else HeadOf(s.hist, ht)]
    && (forall k :: k in s'.db.cursors ==>
          (k in s.db.cursors && s'.db.cursors[k] == s.db.cursors[k]) || (k.1 == ht && s'.db.cursors[k] == h))
    && (forall c :: c in s'.consumers ==>
          && c in s.consumers
          && (s'.consumers[c] == s.consumers[c]
              || (s.consumers[c].ht == ht && s'.consumers[c] == s.consumers[c].(head := Some(h)))))
  }

  lemma HeadBelow(s: State, ht: Ht)
    requires CommitsOk(s)
    ensures Head(s.db, ht) < s.commitSeq
  {
    assert IsHead(s.db, ht, Head(s.db, ht));
    hide Head;
  }

  lemma HeadReadHandsOut(s: State, r: nat)
    requires r in s.readers
    ensures HandedOut(s, s.readers[r].ht, Head(s.db, s.readers[r].ht), HeadRead(s, r))
  {
    hide Head; hide IsHead; hide Feed;
  }

  lemma ConsumerHandsOut(s: State, r: nat, c: nat, s': State)
    requires r in s.readers && ToConsumer(s, r, c, s')
    ensures HandedOut(s, s.readers[r].ht, Head(s.db, s.readers[r].ht), s')
  {
    HeadReadHandsOut(s, r);
  }

  lemma CursorHandsOut(s: State, r: nat, p: Pid, s': State)
    requires r in s.readers && ToCursor(s, r, p, s')
    ensures HandedOut(s, s.readers[r].ht, Head(s.db, s.readers[r].ht), s')
  {
    HeadReadHandsOut(s, r);
    hide HeadOf;
  }

  lemma ReplicaHandsOut(s: State, r: nat, x: nat, s': State)
    requires r in s.readers && ToReplica(s, r, x, s')
    ensures HandedOut(s, s.readers[r].ht, Head(s.db, s.readers[r].ht), s')
  {
    HeadReadHandsOut(s, r);
  }

  lemma HandsOut(s: State, r: nat, s': State)
    requires r in s.readers && HeadDelivered(s, r, s')
    ensures HandedOut(s, s.readers[r].ht, Head(s.db, s.readers[r].ht), s')
  {
    match s.readers[r].purpose
    case ForReplica(x) => ReplicaHandsOut(s, r, x, s');
    case ForConsumer(c) => ConsumerHandsOut(s, r, c, s');
    case Register(p) => CursorHandsOut(s, r, p, s');
  }

  lemma HandedOutConsumers(s: State, ht: Ht, h: CommitId, s': State)
    requires ConsumersOk(s) && HandedOut(s, ht, h, s')
    ensures ConsumersOk(s')
  {
    assert forall x :: HeadOf(s.hist, x) <= HeadOf(s'.hist, x);
    assert h <= HeadOf(s'.hist, ht);
    forall c | c in s'.consumers ensures ConsumerOk(s', s'.consumers[c]) {
      assert Feed(s'.db, s'.consumers[c].ht) == Feed(s.db, s'.consumers[c].ht);
      hide Feed; hide HeadOf;
      assert c in s.consumers && ConsumerOk(s, s.consumers[c]);
      var x, y := s.consumers[c], s'.consumers[c];
      assert y == x || y == x.(head := Some(h));
    }
  }

  /** Reading the head: no writer is in flight, so everything at or below the
      maximum is decided. */
  lemma HandedOutKeeps(s: State, ht: Ht, h: CommitId, s': State)
    requires LocksOk(s) && HeadsOk(s) && CursorsOk(s) && HandedOut(s, ht, h, s') && h < s.commitSeq
    requires forall t :: t in s.txns ==> s.txns[t].req.ht != ht
    ensures LocksOk(s') && HeadsOk(s') && CursorsOk(s') && FeedKept(s, s')
  {
    assert forall x :: HeadOf(s.hist, x) <= HeadOf(s'.hist, x) && (x != ht ==> HeadOf(s'.hist, x) == HeadOf(s.hist, x));
    assert LocksOk(s') && HeadsOk(s') by { hide CursorsOk; }
    assert CursorsOk(s') by { hide LocksOk; hide HeadsOk; }
  }

  lemma FeedReadKeeps(s: State, r: nat)
    requires Wf(s) && FeedOk(s) && FeedEnabled(s, FeedRead(r))
    ensures FeedOk(FeedNext(s, FeedRead(r))) && FeedKept(s, FeedNext(s, FeedRead(r)))
  {
    var s', ht := FeedNext(s, FeedRead(r)), s.readers[r].ht;
    FeedReadFrame(s, r);
    HeadBelow(s, ht);
    HandsOut(s, r, s');
    assert forall t :: t in s.txns ==> s.txns[t].req.ht != ht;
    HandedOutKeeps(s, ht, Head(s.db, ht), s');
    HandedOutConsumers(s, ht, Head(s.db, ht), s');
  }

  /** A page extends what a consumer has seen by exactly the next committed events. */
  lemma PageKeeps(s: State, c: nat, page: seq<CommitId>)
    requires FeedOk(s) && FeedEnabled(s, Page(c, page))
    ensures FeedOk(FeedNext(s, Page(c, page)))
  {
    var s' := FeedNext(s, Page(c, page));
    var x, y := s.consumers[c], s'.consumers[c];
    assert ConsumerOk(s, x);
    PageExtends(s, x, page);
    assert y.seen == x.seen + page && y.ht == x.ht && y.start == x.start;
    forall d | d in s'.consumers ensures ConsumerOk(s', s'.consumers[d]) {
      if d != c { assert ConsumerOk(s, s.consumers[d]); }
    }
    assert LocksOk(s') && HeadsOk(s') && CursorsOk(s') by { OtherFrame(s, s'); }
  }

  lemma OtherFrame(s: State, s': State)
    requires LocksOk(s) && HeadsOk(s) && CursorsOk(s)
    requires s'.txns == s.txns && s'.readers == s.readers && s'.commitSeq == s.commitSeq && s'.hist.heads == s.hist.heads
    requires s'.db.cursors == s.db.cursors
    ensures LocksOk(s') && HeadsOk(s') && CursorsOk(s')
  {
    assert forall ht :: HeadOf(s'.hist, ht) == HeadOf(s.hist, ht);
  }

  lemma PageExtends(s: State, x: Consumer, page: seq<CommitId>)
    requires ConsumerOk(s, x) && x.head.Some? && IsPage(s.db, x.ht, x.cursor, x.head.value, page)
    ensures ConsumerOk(s, x.(cursor := if page == [] then x.cursor else page[|page| - 1], head := None, seen := x.seen + page))
  {
    var last := if page == [] then x.cursor else page[|page| - 1];
    assert x.cursor <= last <= HeadOf(s.hist, x.ht);
    forall c ensures c in x.seen + page <==> c in Feed(s.db, x.ht) && x.start < c <= last {
      hide Feed;
    }
    forall i, j | 0 <= i < j < |x.seen + page| ensures (x.seen + page)[i] < (x.seen + page)[j] {
      if i < |x.seen| <= j { assert x.seen[i] in x.seen; }
    }
  }

  lemma PersistKeeps(s: State, step: FeedStep)
    requires FeedOk(s) && FeedEnabled(s, step) && (step.Persist? || step.PersistHead?)
    ensures FeedOk(FeedNext(s, step))
  {
    var s' := FeedNext(s, step);
    FeedFrame(s, step);
    assert s'.hist.heads == s.hist.heads && s'.consumers == s.consumers && s'.readers == s.readers
           && CursorsOk(s') by {
      hide Head; hide IsPage; hide LocksOk; hide HeadsOk; hide Feed;
      assert ConsumerOk(s, s.consumers[step.consumer]);
    }
    hide FeedEnabled; hide FeedNext; hide CursorsOk; hide ConsumersOk; hide FeedKept;
    SameFeed(s, s');
    ConsumersFrame(s, s');
  }

  lemma SubscribeKeeps(s: State, c: nat, ht: Ht, name: nat)
    requires FeedOk(s) && FeedEnabled(s, Subscribe(c, ht, name))
    ensures FeedOk(FeedNext(s, Subscribe(c, ht, name)))
  {
    var s' := FeedNext(s, Subscribe(c, ht, name));
    assert ConsumersOk(s') by {
      forall d | d in s'.consumers ensures ConsumerOk(s', s'.consumers[d]) {
        if d != c { assert ConsumerOk(s, s.consumers[d]); }
      }
    }
    OtherFrame(s, s');
  }

  lemma ReaderKeeps(s: State, step: FeedStep)
    requires FeedOk(s) && FeedEnabled(s, step) && (step.FeedLock? || step.FeedAbort?)
    ensures FeedOk(FeedNext(s, step))
  {
    var s' := FeedNext(s, step);
    FeedFrame(s, step);
    assert LocksOk(s') && s'.hist.heads == s.hist.heads && s'.consumers == s.consumers
           && s'.db.cursors == s.db.cursors by {
    }
    SameFeed(s, s');
    ConsumersFrame(s, s');
  }

  lemma FeedKeepsFeed(s: State, step: FeedStep)
    requires Wf(s) && FeedOk(s) && FeedEnabled(s, step)
    ensures FeedOk(FeedNext(s, step)) && FeedKept(s, FeedNext(s, step))
  {
    if step.FeedRead? {
      FeedReadKeeps(s, step.reader);
    } else {
      FeedFrame(s, step);
      assert FeedNext(s, step).hist.heads == s.hist.heads by {
      }
      SameFeed(s, FeedNext(s, step));
      if step.Page? { PageKeeps(s, step.consumer, step.page); }
      else if step.Persist? || step.PersistHead? { PersistKeeps(s, step); }
      else if step.Subscribe? { SubscribeKeeps(s, step.consumer, step.ht, step.name); }
      else { ReaderKeeps(s, step); }
    }
  }

  // ---------------------------------------------------------------- the other families

  lemma FeedOkFrame(s: State, s': State)
    requires FeedOk(s)
    requires s'.db.commits == s.db.commits && s'.txns == s.txns && s'.readers == s.readers && s'.consumers == s.consumers
    requires s'.commitSeq == s.commitSeq && s'.hist.heads == s.hist.heads && s'.db.cursors == s.db.cursors
    ensures FeedOk(s') && FeedKept(s, s')
  {
    SameFeed(s, s');
    ConsumersFrame(s, s');
    OtherFrame(s, s');
  }
}
