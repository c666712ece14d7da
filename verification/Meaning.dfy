/** What each statement of the catalog answers and when, said of the tables alone. */
module Meaning {
  import opened Base
  import opened Tables
  import opened Wellformed

  // ---------------------------------------------------------------- reconciliation

  /** The commit's row carries the key in the hypertable. */
  predicate Carries(db: Db, c: CommitId, ht: Ht, key: Digest) {
    c in db.commits && db.commits[c].ht == ht && db.commits[c].key == Some(key)
  }

  /** The unique index and the keyed rows name each other. */
  ghost predicate Indexed(db: Db) {
    && (forall k :: k in db.keyIndex ==> Carries(db, db.keyIndex[k], k.0, k.1))
    && (forall c :: c in db.commits && db.commits[c].key.Some? ==>
          (db.commits[c].ht, db.commits[c].key.value) in db.keyIndex
          && db.keyIndex[(db.commits[c].ht, db.commits[c].key.value)] == c)
  }

  /** The key is free, or its one commit has this very fingerprint, or it is taken by an
      intent that is unknown or another. */
  lemma ReconcileMeans(db: Db, id: Identity)
    requires Indexed(db)
    ensures Reconcile(db, id) == Ok(None) <==> forall c :: !Carries(db, c, id.ht, id.key)
    ensures forall c :: Reconcile(db, id) == Ok(Some(c)) <==>
              Carries(db, c, id.ht, id.key) && id.fp.Some? && db.commits[c].fp == id.fp
    ensures Reconcile(db, id) == Err(KeyCollision) <==>
              exists c :: Carries(db, c, id.ht, id.key) && (db.commits[c].fp.None? || db.commits[c].fp != id.fp)
    ensures Reconcile(db, id).Err? ==> Reconcile(db, id) == Err(KeyCollision)
  {
    if (id.ht, id.key) in db.keyIndex {
      var c := db.keyIndex[(id.ht, id.key)];
      assert Carries(db, c, id.ht, id.key);
    }
  }

  // ---------------------------------------------------------------- offsets

  /** Where range `i` of a list finds its topic partition: behind the nearest earlier range
      of the partition, or at the stored position if there is none. */
  predicate Fits(offsets: map<(Ht, Tp), nat>, ht: Ht, ranges: seq<OffsetRange>, i: nat)
    requires i < |ranges|
  {
    && ((forall j :: 0 <= j < i ==> ranges[j].tp != ranges[i].tp) && (ht, ranges[i].tp) in offsets ==>
          offsets[(ht, ranges[i].tp)] <= ranges[i].first)
    && (forall j :: 0 <= j < i && ranges[j].tp == ranges[i].tp && (forall k :: j < k < i ==> ranges[k].tp != ranges[i].tp) ==>
          ranges[j].last + 1 <= ranges[i].first)
  }

  predicate Mentions(ranges: seq<OffsetRange>, tp: Tp) {
    exists i :: 0 <= i < |ranges| && ranges[i].tp == tp
  }

  /** Each partition named is at the end of its last range, every other where it was. */
  ghost predicate Moved(offsets: map<(Ht, Tp), nat>, ht: Ht, ranges: seq<OffsetRange>, offsets': map<(Ht, Tp), nat>) {
    && (forall k :: k in offsets' <==> k in offsets || (k.0 == ht && Mentions(ranges, k.1)))
    && (forall i :: 0 <= i < |ranges| && (forall k :: i < k < |ranges| ==> ranges[k].tp != ranges[i].tp) ==>
          (ht, ranges[i].tp) in offsets' && offsets'[(ht, ranges[i].tp)] == ranges[i].last + 1)
    && (forall k :: k in offsets && !(k.0 == ht && Mentions(ranges, k.1)) ==> k in offsets' && offsets'[k] == offsets[k])
  }

  lemma FitsShift(offsets: map<(Ht, Tp), nat>, ht: Ht, ranges: seq<OffsetRange>, i: nat)
    requires 0 < i < |ranges|
    ensures Fits(offsets, ht, ranges, i) <==> Fits(offsets[(ht, ranges[0].tp) := ranges[0].last + 1], ht, ranges[1..], i - 1)
  {
    var rest, mid := ranges[1..], offsets[(ht, ranges[0].tp) := ranges[0].last + 1];
    assert forall j :: 0 < j < |ranges| ==> rest[j - 1] == ranges[j];
    assert forall j :: 0 <= j < |rest| ==> ranges[j + 1] == rest[j];
    if Fits(offsets, ht, ranges, i) {
      forall j | 0 <= j < i - 1 && rest[j].tp == rest[i - 1].tp && (forall k :: j < k < i - 1 ==> rest[k].tp != rest[i - 1].tp)
        ensures rest[j].last + 1 <= rest[i - 1].first
      {
        assert forall k :: j + 1 < k < i ==> ranges[k].tp != ranges[i].tp by {
          forall k | j + 1 < k < i ensures ranges[k].tp != ranges[i].tp { assert rest[k - 1].tp != rest[i - 1].tp; }
        }
        assert ranges[j + 1].tp == ranges[i].tp;
      }
      if forall j :: 0 <= j < i - 1 ==> rest[j].tp != rest[i - 1].tp {
        assert forall k :: 0 < k < i ==> ranges[k].tp != ranges[i].tp by {
          forall k | 0 < k < i ensures ranges[k].tp != ranges[i].tp { assert rest[k - 1].tp != rest[i - 1].tp; }
        }
      }
    }
    if Fits(mid, ht, rest, i - 1) {
      forall j | 0 <= j < i && ranges[j].tp == ranges[i].tp && (forall k :: j < k < i ==> ranges[k].tp != ranges[i].tp)
        ensures ranges[j].last + 1 <= ranges[i].first
      {
        assert forall k :: j - 1 < k < i - 1 ==> k >= 0 ==> rest[k].tp != rest[i - 1].tp;
        if j > 0 { assert rest[j - 1].tp == rest[i - 1].tp; }
      }
    }
  }

  /** The compare-and-set loop accepts a list of ranges if and only if each finds its
      partition at or before its first offset; it then moves exactly those partitions,
      each to the end of its last range. Otherwise it names the first that does not fit. */
  lemma {:induction false} AdvanceMeans(offsets: map<(Ht, Tp), nat>, ht: Ht, ranges: seq<OffsetRange>)
    ensures AdvanceOffsets(offsets, ht, ranges).Ok? <==> forall i :: 0 <= i < |ranges| ==> Fits(offsets, ht, ranges, i)
    ensures AdvanceOffsets(offsets, ht, ranges).Ok? ==> Moved(offsets, ht, ranges, AdvanceOffsets(offsets, ht, ranges).value)
    ensures AdvanceOffsets(offsets, ht, ranges).Err? ==>
              exists i :: 0 <= i < |ranges| && !Fits(offsets, ht, ranges, i) && (forall j :: 0 <= j < i ==> Fits(offsets, ht, ranges, j))
                          && AdvanceOffsets(offsets, ht, ranges).error == OffsetRace(ranges[i].tp)
    decreases ranges
  {
    hide Fits; hide Moved;
    if ranges == [] {
      NothingMoved(offsets, ht);
    } else {
      FirstFits(offsets, ht, ranges);
      if Fits(offsets, ht, ranges, 0) {
        var mid, rest := offsets[(ht, ranges[0].tp) := ranges[0].last + 1], ranges[1..];
        AdvanceMeans(mid, ht, rest);
        forall i | 0 < i < |ranges| ensures Fits(offsets, ht, ranges, i) <==> Fits(mid, ht, rest, i - 1) { FitsShift(offsets, ht, ranges, i); }
        if AdvanceOffsets(mid, ht, rest).Ok? {
          forall i | 0 <= i < |ranges| ensures Fits(offsets, ht, ranges, i) { if i > 0 { assert Fits(mid, ht, rest, i - 1); } }
          MovedMore(offsets, ht, ranges, AdvanceOffsets(mid, ht, rest).value);
        } else {
          var i :| 0 <= i < |rest| && !Fits(mid, ht, rest, i) && (forall j :: 0 <= j < i ==> Fits(mid, ht, rest, j))
                   && AdvanceOffsets(mid, ht, rest).error == OffsetRace(rest[i].tp);
          assert !Fits(offsets, ht, ranges, i + 1);
        }
      }
    }
  }

  lemma NothingMoved(offsets: map<(Ht, Tp), nat>, ht: Ht)
    ensures Moved(offsets, ht, [], offsets)
  {
  }

  lemma FirstFits(offsets: map<(Ht, Tp), nat>, ht: Ht, ranges: seq<OffsetRange>)
    requires ranges != []
    ensures Fits(offsets, ht, ranges, 0) <==> ((ht, ranges[0].tp) in offsets ==> offsets[(ht, ranges[0].tp)] <= ranges[0].first)
  {
  }

  lemma MentionsMore(ranges: seq<OffsetRange>, tp: Tp)
    requires ranges != []
    ensures Mentions(ranges, tp) <==> tp == ranges[0].tp || Mentions(ranges[1..], tp)
  {
    if Mentions(ranges, tp) && tp != ranges[0].tp {
      var i :| 0 <= i < |ranges| && ranges[i].tp == tp;
      assert ranges[1..][i - 1].tp == tp;
    }
    if Mentions(ranges[1..], tp) {
      var i :| 0 <= i < |ranges[1..]| && ranges[1..][i].tp == tp;
      assert ranges[i + 1].tp == tp;
    }
  }

  lemma MovedMore(offsets: map<(Ht, Tp), nat>, ht: Ht, ranges: seq<OffsetRange>, offsets': map<(Ht, Tp), nat>)
    requires ranges != [] && Moved(offsets[(ht, ranges[0].tp) := ranges[0].last + 1], ht, ranges[1..], offsets')
    ensures Moved(offsets, ht, ranges, offsets')
  {
    hide Mentions;
    forall tp ensures Mentions(ranges, tp) <==> tp == ranges[0].tp || Mentions(ranges[1..], tp) { MentionsMore(ranges, tp); }
    forall i | 0 <= i < |ranges| && (forall k :: i < k < |ranges| ==> ranges[k].tp != ranges[i].tp)
      ensures (ht, ranges[i].tp) in offsets' && offsets'[(ht, ranges[i].tp)] == ranges[i].last + 1
    {
      LastMoved(offsets[(ht, ranges[0].tp) := ranges[0].last + 1], ht, ranges, offsets', i);
    }
  }

  lemma LastMoved(mid: map<(Ht, Tp), nat>, ht: Ht, ranges: seq<OffsetRange>, offsets': map<(Ht, Tp), nat>, i: nat)
    requires i < |ranges| && (forall k :: i < k < |ranges| ==> ranges[k].tp != ranges[i].tp) && Moved(mid, ht, ranges[1..], offsets')
    requires i == 0 ==> (ht, ranges[0].tp) in mid && mid[(ht, ranges[0].tp)] == ranges[0].last + 1
    ensures (ht, ranges[i].tp) in offsets' && offsets'[(ht, ranges[i].tp)] == ranges[i].last + 1
  {
    var rest := ranges[1..];
    if i > 0 {
      forall k | i - 1 < k < |rest| ensures rest[k].tp != rest[i - 1].tp { assert ranges[k + 1].tp != ranges[i].tp; }
      assert rest[i - 1] == ranges[i];
    } else {
      forall k | 0 <= k < |rest| ensures rest[k].tp != ranges[0].tp { assert ranges[k + 1].tp != ranges[0].tp; }
    }
  }

  lemma DistinctFits(offsets: map<(Ht, Tp), nat>, ht: Ht, ranges: seq<OffsetRange>)
    requires forall i, j :: 0 <= i < j < |ranges| ==> ranges[i].tp != ranges[j].tp
    ensures (forall i :: 0 <= i < |ranges| ==> Fits(offsets, ht, ranges, i)) <==>
            forall r :: r in ranges && (ht, r.tp) in offsets ==> offsets[(ht, r.tp)] <= r.first
  {
    forall i | 0 <= i < |ranges|
      ensures Fits(offsets, ht, ranges, i) <==> ((ht, ranges[i].tp) in offsets ==> offsets[(ht, ranges[i].tp)] <= ranges[i].first)
    {
    }
  }

  /** For ranges of different partitions only the stored positions matter. */
  lemma DistinctAdvance(offsets: map<(Ht, Tp), nat>, ht: Ht, ranges: seq<OffsetRange>)
    requires forall i, j :: 0 <= i < j < |ranges| ==> ranges[i].tp != ranges[j].tp
    ensures AdvanceOffsets(offsets, ht, ranges).Ok? <==>
            forall r :: r in ranges && (ht, r.tp) in offsets ==> offsets[(ht, r.tp)] <= r.first
    ensures AdvanceOffsets(offsets, ht, ranges).Ok? ==>
              var o := AdvanceOffsets(offsets, ht, ranges).value;
              && (forall r :: r in ranges ==> (ht, r.tp) in o && o[(ht, r.tp)] == r.last + 1)
              && (forall k :: k in o && !(k.0 == ht && Mentions(ranges, k.1)) ==> k in offsets && o[k] == offsets[k])
              && forall k :: k in offsets ==> k in o
    ensures forall tp :: AdvanceOffsets(offsets, ht, ranges) == Err(OffsetRace(tp)) ==>
              exists r :: r in ranges && r.tp == tp && (ht, tp) in offsets && offsets[(ht, tp)] > r.first
  {
    AdvanceMeans(offsets, ht, ranges);
    forall i | 0 <= i < |ranges|
      ensures Fits(offsets, ht, ranges, i) <==> ((ht, ranges[i].tp) in offsets ==> offsets[(ht, ranges[i].tp)] <= ranges[i].first)
    {
    }
    hide AdvanceOffsets; hide Fits;
    forall r | r in ranges ensures Mentions(ranges, r.tp) {
      var i :| 0 <= i < |ranges| && ranges[i] == r;
      assert ranges[i].tp == r.tp;
    }
  }

  // ---------------------------------------------------------------- a whole commit

  /** One whole `commit_txn` against tables nobody else writes meanwhile: what it
      answers, what it leaves, and whether it drew a commit id. */
  function CommitWhole(db: Db, c: CommitId, now: nat, ht: Ht, op: Op, id: Option<Identity>,
                       ranges: seq<OffsetRange>, lease: Option<Lease>): (Outcome, Db, bool)
  {
    if id.Some? && id.value.ht != ht then (Failed(ForeignIdentity), db, false)
    else
      var body := Body(db, c, ht, op, id, ranges, now);
      if lease.None? then (body.0, body.1, true)
      else
        var prior := Prior(db, id);
        if prior.Err? then (Failed(prior.error), db, false)
        else if prior.value.Some? then (AlreadyApplied(prior.value.value), db, false)
        else
          var refused := Fence(db, now, ht, lease.value, op);
          if refused.Some? then (Failed(refused.value), db, false) else (body.0, body.1, true)
  }

  /** The identity is of this hypertable, and no commit carries its key. */
  ghost predicate Fresh(db: Db, ht: Ht, id: Option<Identity>) {
    id.Some? ==> id.value.ht == ht && forall c :: !Carries(db, c, ht, id.value.key)
  }

  /** The token is in its unexpired row and the operation is a REPLACE within its
      partition: distinct parts of it in, parts of it out. */
  predicate Guarded(db: Db, now: nat, ht: Ht, l: Lease, op: Op) {
    && l.ht == ht && InForce(db, now, l) && Within(db, l, op)
  }

  predicate InForce(db: Db, now: nat, l: Lease) {
    && (l.ht, l.partition) in db.leases
    && var row := db.leases[(l.ht, l.partition)];
       row.owner == l.owner && row.generation == l.generation && now < row.expiresAt
  }

  predicate Within(db: Db, l: Lease, op: Op) {
    && op.Replace? && Distinct(op.inputs)
    && (forall m :: m in op.outputs ==> m.partition == l.partition)
    && (forall p :: p in op.inputs ==> p in db.parts && db.parts[p].ht == l.ht && db.parts[p].meta.partition == l.partition)
  }

  ghost predicate AllFit(db: Db, ht: Ht, ranges: seq<OffsetRange>) {
    forall i :: 0 <= i < |ranges| ==> Fits(db.offsets, ht, ranges, i)
  }

  /** How many of the parts named are live parts of the hypertable. */
  function LiveAmong(db: Db, ht: Ht, ids: seq<PartId>): nat {
    |set p | p in ids && p in db.parts && db.parts[p].ht == ht && db.parts[p].deletedBy.None?|
  }

  /** The answer a request gets: each answer exactly when its ground holds and no ground
      that is looked at earlier does. */
  ghost predicate Answers(db: Db, c: CommitId, now: nat, ht: Ht, op: Op, id: Option<Identity>, ranges: seq<OffsetRange>,
                          lease: Option<Lease>, o: Outcome)
  {
    var own := id.Some? ==> id.value.ht == ht;
    var free := Fresh(db, ht, id);
    var guarded := lease.Some? ==> Guarded(db, now, ht, lease.value, op);
    var live := AllLive(db.parts, ht, Inputs(op));
    && (o.Committed? <==> free && guarded && live && AllFit(db, ht, ranges))
    && (o.Committed? ==> o.id == c)
    && (forall x :: o == AlreadyApplied(x) <==>
          own && id.Some? && Carries(db, x, ht, id.value.key) && id.value.fp.Some? && db.commits[x].fp == id.value.fp)
    && (o == Failed(ForeignIdentity) <==> !own)
    && (o == Failed(KeyCollision) <==>
          own && id.Some? && exists x :: Carries(db, x, ht, id.value.key) && (db.commits[x].fp.None? || db.commits[x].fp != id.value.fp))
    && (o == Failed(LeaseLost) <==> free && lease.Some? && lease.value.ht == ht && !InForce(db, now, lease.value))
    && (o == Failed(PartitionMismatch) <==>
          free && lease.Some? && (lease.value.ht != ht || (InForce(db, now, lease.value) && !Within(db, lease.value, op))))
    && (forall n, m :: o == Failed(Conflict(n, m)) <==>
          free && guarded && !live && n == |Inputs(op)| && m == LiveAmong(db, ht, Inputs(op)))
    && (forall tp :: o == Failed(OffsetRace(tp)) ==>
          exists i :: 0 <= i < |ranges| && ranges[i].tp == tp && !Fits(db.offsets, ht, ranges, i)
                      && forall j :: 0 <= j < i ==> Fits(db.offsets, ht, ranges, j))
    && (o.Failed? && o.error.OffsetRace? <==> free && guarded && live && !AllFit(db, ht, ranges))
  }

  /** What a commit leaves: its own row, its inputs tombstoned, its outputs registered and
      their intents dropped, its partitions moved — and everything else where it was. */
  ghost predicate Landing(db: Db, c: CommitId, now: nat, ht: Ht, op: Op, id: Option<Identity>, ranges: seq<OffsetRange>, db': Db) {
    var outs, n := Outputs(op), db.nextPart;
    && (forall x :: x in db'.commits <==> x in db.commits || x == c)
    && (forall x :: x in db.commits && x != c ==> x in db'.commits && db'.commits[x] == db.commits[x])
    && c in db'.commits && db'.commits[c].ht == ht && db'.commits[c].createdAt == now
    && db'.commits[c].key == (if id.Some? then Some(id.value.key) else None)
    && db'.commits[c].fp == (if id.Some? then id.value.fp else None)
    && (op.Add? <==> db'.commits[c].kind == KAdd) && (op.Replace? <==> db'.commits[c].kind == KReplace)
    && (op.Delete? <==> db'.commits[c].kind == KDelete)
    && (forall p :: p in db'.parts <==> p in db.parts || n <= p < n + |outs|)
    && (forall p :: p in db.parts ==>
          p in db'.parts && db'.parts[p] == if p in Inputs(op) then db.parts[p].(deletedBy := Some(c)) else db.parts[p])
    && (forall p :: n <= p < n + |outs| ==> p in db'.parts && db'.parts[p] == Part(ht, OutputAt(outs, n, p), c, None, false))
    && db'.nextPart == n + |outs|
    && (forall x :: x in db'.pending <==> x in db.pending && forall m :: m in outs ==> m.path != x)
    && (forall x :: x in db'.pending ==> db'.pending[x] == db.pending[x])
    && Moved(db.offsets, ht, ranges, db'.offsets)
    && db'.leases == db.leases && db'.cursors == db.cursors
  }

  /** The next commit and the next part are new to the tables. */
  ghost predicate NewIds(db: Db, c: CommitId) {
    (forall x :: x in db.commits ==> x < c) && forall p :: p in db.parts ==> p < db.nextPart
  }

  // ---------------------------------------------------------------- leases

  /** An attempt is declined exactly while the row is another owner's and unexpired, and
      then nothing changes. Otherwise the token is in force up to its time to live, under
      the old generation only in the owner's own unexpired row, and other rows stand. */
  lemma InstallMeans(leases: map<(Ht, Partition), LeaseRow>, now: nat, ht: Ht, partition: Partition, owner: Owner, drawn: nat, ttl: nat)
    ensures var (got, leases') := InstallLease(leases, now, ht, partition, owner, drawn, ttl);
            var k := (ht, partition);
            && (got.None? <==> k in leases && now < leases[k].expiresAt && leases[k].owner != owner)
            && (got.None? ==> leases' == leases)
            && (got.Some? ==>
                  && got.value == Lease(ht, partition, owner, if k in leases && now < leases[k].expiresAt then leases[k].generation else drawn)
                  && leases' == leases[k := LeaseRow(owner, got.value.generation, now + ttl)])
  {
  }

  lemma RenewMeans(leases: map<(Ht, Partition), LeaseRow>, now: nat, l: Lease, ttl: nat)
    ensures var (ok, leases') := RenewLease(leases, now, l, ttl);
            var k := (l.ht, l.partition);
            && (ok <==> k in leases && leases[k].owner == l.owner && leases[k].generation == l.generation && now < leases[k].expiresAt)
            && leases' == if ok then leases[k := LeaseRow(l.owner, l.generation, now + ttl)] else leases
  {
  }

  lemma ReleaseMeans(leases: map<(Ht, Partition), LeaseRow>, l: Lease)
    ensures var (ok, leases') := ReleaseLease(leases, l);
            var k := (l.ht, l.partition);
            && (ok <==> k in leases && leases[k].owner == l.owner && leases[k].generation == l.generation)
            && leases' == if ok then leases - {k} else leases
  {
  }

  // ---------------------------------------------------------------- collection

  /** The part's tombstone is at least the grace old. */
  predicate PastGrace(db: Db, now: nat, grace: nat, p: PartId) {
    && p in db.parts && db.parts[p].deletedBy.Some? && db.parts[p].deletedBy.value in db.commits
    && db.commits[db.parts[p].deletedBy.value].createdAt + grace <= now
  }

  /** No cursor of the part's table is before its tombstone. */
  predicate BehindCursors(db: Db, p: PartId) {
    p in db.parts && db.parts[p].deletedBy.Some?
    && forall k :: k in db.cursors && k.1 == db.parts[p].ht ==> db.parts[p].deletedBy.value <= db.cursors[k]
  }

  /** The collector may delete the part's object. */
  predicate Due(db: Db, now: nat, grace: nat, ht: Ht, p: PartId) {
    p in db.parts && db.parts[p].ht == ht && !db.parts[p].purged && PastGrace(db, now, grace, p) && BehindCursors(db, p)
  }

  lemma ReapableMeans(db: Db, now: nat, grace: nat, ht: Ht, p: PartId)
    ensures Reapable(db, now, grace, ht, p) <==> Due(db, now, grace, ht, p)
  {
  }

  // ---------------------------------------------------------------- the two agree

  lemma FenceMeans(db: Db, now: nat, ht: Ht, l: Lease, op: Op)
    ensures Fence(db, now, ht, l, op).None? <==> Guarded(db, now, ht, l, op)
    ensures Fence(db, now, ht, l, op) == Some(LeaseLost) <==> l.ht == ht && !InForce(db, now, l)
    ensures Fence(db, now, ht, l, op) == Some(PartitionMismatch) <==> l.ht != ht || (InForce(db, now, l) && !Within(db, l, op))
    ensures Fence(db, now, ht, l, op).Some? ==> Fence(db, now, ht, l, op).value in {LeaseLost, PartitionMismatch}
  {
    if op.Replace? {
      var inside := PartsInside(db, ht, l.partition, op.inputs);
      ElementsCardinality(op.inputs);
      SubsetCardinality(inside, Elements(op.inputs));
      if l.ht == ht && Within(db, l, op) { assert inside == Elements(op.inputs); }
      if |inside| == |op.inputs| {
        forall p | p in op.inputs ensures p in inside { assert p in Elements(op.inputs); }
      }
    }
  }

  lemma LiveMeans(db: Db, ht: Ht, ids: seq<PartId>, c: CommitId)
    ensures TombstoneParts(db, ht, c, ids).Ok? <==> AllLive(db.parts, ht, ids)
    ensures TombstoneParts(db, ht, c, ids).Err? ==> TombstoneParts(db, ht, c, ids).error == Conflict(|ids|, LiveAmong(db, ht, ids))
  {
    MatchedAll(db.parts, ht, ids);
    assert Matched(db.parts, ht, ids) == set p | p in ids && p in db.parts && db.parts[p].ht == ht && db.parts[p].deletedBy.None?;
  }

  /** The operation applies exactly when its inputs are distinct live parts. */
  lemma OpMeans(db: Db, ht: Ht, c: CommitId, op: Op)
    ensures ApplyOp(db, ht, c, op).Ok? <==> AllLive(db.parts, ht, Inputs(op))
    ensures ApplyOp(db, ht, c, op).Err? ==>
              ApplyOp(db, ht, c, op).error == Conflict(|Inputs(op)|, LiveAmong(db, ht, Inputs(op)))
    ensures ApplyOp(db, ht, c, op).Ok? ==> ApplyOp(db, ht, c, op).value.offsets == db.offsets
  {
    hide TombstoneParts; hide LiveAmong; hide NewParts; hide Paths;
    LiveMeans(db, ht, Inputs(op), c);
    match op {
      case Add(_) => NothingLive(db.parts, ht);
      case Replace(inputs, _) => if TombstoneParts(db, ht, c, inputs).Ok? { TombstoneApplies(db, ht, c, inputs); }
      case Delete(inputs) => if TombstoneParts(db, ht, c, inputs).Ok? { TombstoneApplies(db, ht, c, inputs); }
    }
  }

  /** How a body without a prior commit ends. */
  lemma BodyMeans(db: Db, c: CommitId, now: nat, ht: Ht, op: Op, id: Option<Identity>, ranges: seq<OffsetRange>)
    requires Prior(db, id) == Ok(None)
    ensures var o := Body(db, c, ht, op, id, ranges, now).0;
            && (o.Committed? <==> AllLive(db.parts, ht, Inputs(op)) && AllFit(db, ht, ranges))
            && (o.Committed? ==> o.id == c)
            && (!AllLive(db.parts, ht, Inputs(op)) ==> o == Failed(Conflict(|Inputs(op)|, LiveAmong(db, ht, Inputs(op)))))
            && (AllLive(db.parts, ht, Inputs(op)) && !AllFit(db, ht, ranges) ==>
                  exists i :: 0 <= i < |ranges| && !Fits(db.offsets, ht, ranges, i) && (forall j :: 0 <= j < i ==> Fits(db.offsets, ht, ranges, j))
                              && o == Failed(OffsetRace(ranges[i].tp)))
  {
    hide Fits; hide Moved; hide ApplyOp; hide AdvanceOffsets; hide LiveAmong; hide AllLive; hide Prior;
    var db1 := InsertCommit(db, c, ht, KindOf(op), id, now);
    OpMeans(db1, ht, c, op);
    assert db1.parts == db.parts && db1.offsets == db.offsets;
    assert LiveAmong(db1, ht, Inputs(op)) == LiveAmong(db, ht, Inputs(op)) by { SameLive(db1, db, ht, Inputs(op)); }
    AdvanceMeans(db.offsets, ht, ranges);
  }

  lemma SameLive(a: Db, b: Db, ht: Ht, ids: seq<PartId>)
    requires a.parts == b.parts
    ensures LiveAmong(a, ht, ids) == LiveAmong(b, ht, ids)
  {
  }

  /** Every request is answered as its grounds say. */
  lemma CommitMeans(db: Db, c: CommitId, now: nat, ht: Ht, op: Op, id: Option<Identity>, ranges: seq<OffsetRange>, lease: Option<Lease>)
    requires Indexed(db)
    ensures Answers(db, c, now, ht, op, id, ranges, lease, CommitWhole(db, c, now, ht, op, id, ranges, lease).0)
  {
    hide Fits; hide LiveAmong; hide AllLive; hide Body; hide Fence; hide Reconcile; hide Carries; hide InForce; hide Within;
    if id.Some? { ReconcileMeans(db, id.value); }
    if lease.Some? { FenceMeans(db, now, ht, lease.value, op); }
    if Prior(db, id) == Ok(None) { BodyMeans(db, c, now, ht, op, id, ranges); } else { BodyReplays(db, c, now, ht, op, id, ranges); }
  }

  lemma BodyReplays(db: Db, c: CommitId, now: nat, ht: Ht, op: Op, id: Option<Identity>, ranges: seq<OffsetRange>)
    requires Prior(db, id) != Ok(None)
    ensures var o := Body(db, c, ht, op, id, ranges, now).0;
            o == if Prior(db, id).Err? then Failed(Prior(db, id).error) else AlreadyApplied(Prior(db, id).value.value)
  {
  }

  /** So an unleased request lands exactly on a free key, distinct live inputs and ranges
      of different partitions none of which the stored positions have passed. */
  lemma PlainCommit(db: Db, c: CommitId, now: nat, ht: Ht, op: Op, id: Option<Identity>, ranges: seq<OffsetRange>)
    requires Indexed(db) && forall i, j :: 0 <= i < j < |ranges| ==> ranges[i].tp != ranges[j].tp
    ensures CommitWhole(db, c, now, ht, op, id, ranges, None).0 == Committed(c) <==>
            && Fresh(db, ht, id) && Distinct(Inputs(op))
            && (forall p :: p in Inputs(op) ==> p in db.parts && db.parts[p].ht == ht && db.parts[p].deletedBy.None?)
            && (forall r :: r in ranges && (ht, r.tp) in db.offsets ==> db.offsets[(ht, r.tp)] <= r.first)
  {
    hide CommitWhole; hide Indexed; hide Fits; hide Fresh; hide LiveAmong; hide Distinct;
    CommitMeans(db, c, now, ht, op, id, ranges, None);
    DistinctFits(db.offsets, ht, ranges);
  }

  /** A commit leaves exactly its own effects, and the unique index in order. */
  lemma CommitLeavesExactly(db: Db, c: CommitId, now: nat, ht: Ht, op: Op, id: Option<Identity>, ranges: seq<OffsetRange>, lease: Option<Lease>)
    requires NewIds(db, c)
    ensures var (o, db', drew) := CommitWhole(db, c, now, ht, op, id, ranges, lease);
            if o.Committed? then Landing(db, c, now, ht, op, id, ranges, db') && drew else db' == db
    ensures Indexed(db) ==> Indexed(CommitWhole(db, c, now, ht, op, id, ranges, lease).1)
  {
    hide Fits; hide Moved; hide ApplyOp; hide AdvanceOffsets; hide Fence; hide PartsAfter; hide AllLive; hide Reconcile; hide Body;
    var (o, db', drew) := CommitWhole(db, c, now, ht, op, id, ranges, lease);
    if o.Committed? {
      BodyCommits(db, c, ht, op, id, ranges, now);
      AdvanceMeans(db.offsets, ht, ranges);
      LandingRows(db, c, now, ht, op, id, ranges, db');
      if Indexed(db) && id.Some? { ReconcileMeans(db, id.value); }
    } else if !Body(db, c, ht, op, id, ranges, now).0.Committed? {
      BodyDeclines(db, c, ht, op, id, ranges, now);
    }
  }

  lemma LandingRows(db: Db, c: CommitId, now: nat, ht: Ht, op: Op, id: Option<Identity>, ranges: seq<OffsetRange>, db': Db)
    requires NewIds(db, c) && Moved(db.offsets, ht, ranges, db'.offsets)
    requires db'.commits == db.commits[c := CommitRow(ht, KindOf(op), if id.Some? then Some(id.value.key) else None,
                                                      if id.Some? then id.value.fp else None, now)]
    requires db'.leases == db.leases && db'.cursors == db.cursors && db'.nextPart == db.nextPart + |Outputs(op)|
    requires db'.pending == db.pending - Paths(Outputs(op)) && db'.parts == PartsAfter(db, c, ht, op)
    ensures Landing(db, c, now, ht, op, id, ranges, db')
  {
    hide Moved; hide Inputs; hide Outputs; hide PartsAfter;
    PartsAfterRows(db, c, ht, op);
  }
}
