/** The catalog as a program: the statements of its transactions over mutable tables,
    and the collector's loops over them. Each operation is proved to have the effect
    that `Tables` gives it and the step machine uses. */
module Catalog {
  import opened Base
  import opened Tables
  import opened Wellformed
  import opened Meaning
  import opened Machine

  /** What a commit promises, whatever its request. */
  lemma Promised(db: Db, c: CommitId, now: nat, ht: Ht, op: Op, id: Option<Identity>, ranges: seq<OffsetRange>, lease: Option<Lease>)
    ensures var (o, db', drew) := CommitWhole(db, c, now, ht, op, id, ranges, lease);
            && (Indexed(db) ==> Answers(db, c, now, ht, op, id, ranges, lease, o))
            && (!o.Committed? ==> db' == db)
            && (NewIds(db, c) && o.Committed? ==> Landing(db, c, now, ht, op, id, ranges, db'))
            && (Indexed(db) && NewIds(db, c) ==> Indexed(db') && NewIds(db', if drew then c + 1 else c))
  {
    hide Answers; hide Body; hide Fence; hide Prior; hide Indexed; hide Moved;
    if Indexed(db) { CommitMeans(db, c, now, ht, op, id, ranges, lease); }
    if NewIds(db, c) { CommitLeavesExactly(db, c, now, ht, op, id, ranges, lease); }
    if !Body(db, c, ht, op, id, ranges, now).0.Committed? { BodyDeclines(db, c, ht, op, id, ranges, now); }
  }

  lemma InsertOne(n: PartId, c: CommitId, ht: Ht, metas: seq<PartMeta>, i: nat)
    requires i < |metas|
    ensures NewParts(n, c, ht, metas[..i + 1]) == NewParts(n, c, ht, metas[..i])[n + i := Part(ht, metas[i], c, None, false)]
  {
  }

  lemma MoreParts(parts: map<PartId, Part>, added: map<PartId, Part>, p: PartId, x: Part)
    ensures (parts + added)[p := x] == parts + added[p := x]
  {
  }

  class Store {
    var commits: map<CommitId, CommitRow>
    var keyIndex: map<(Ht, Digest), CommitId>
    var parts: map<PartId, Part>
    var nextPart: PartId
    var offsets: map<(Ht, Tp), nat>
    var leases: map<(Ht, Partition), LeaseRow>
    var cursors: map<(Worker, Ht), CommitId>
    var pending: map<Path, Pending>
    var commitSeq: CommitId
    var genSeq: nat

    function Snapshot(): Db
      reads this
    {
      Db(commits, keyIndex, parts, nextPart, offsets, leases, cursors, pending)
    }

    /** The unique index is right and the sequences are ahead of the ids in use. */
    ghost predicate Consistent()
      reads this
    {
      Indexed(Snapshot()) && NewIds(Snapshot(), commitSeq)
    }

    constructor ()
      ensures Consistent() && Snapshot() == EmptyDb && commitSeq == 1 && genSeq == 1
    {
      commits, keyIndex, parts, nextPart := map[], map[], map[], 0;
      offsets, leases, cursors, pending := map[], map[], map[], map[];
      commitSeq, genSeq := 1, 1;
    }

    /** What a dropped transaction leaves: everything but the sequences as it was. */
    method Rollback(db: Db)
      modifies this
      ensures Snapshot() == db && commitSeq == old(commitSeq) && genSeq == old(genSeq)
    {
      commits, keyIndex, parts, nextPart := db.commits, db.keyIndex, db.parts, db.nextPart;
      offsets, leases, cursors, pending := db.offsets, db.leases, db.cursors, db.pending;
    }

    /** One INSERT per part, then the intents of all of them dropped. */
    method InsertAll(ht: Ht, c: CommitId, metas: seq<PartMeta>)
      modifies this`parts, this`nextPart, this`pending
      ensures Snapshot() == InsertParts(old(Snapshot()), ht, c, metas)
    {
      ghost var before, n := parts, nextPart;
      assert before + NewParts(n, c, ht, []) == before;
      for i := 0 to |metas|
        invariant nextPart == n + i && pending == old(pending)
        invariant parts == before + NewParts(n, c, ht, metas[..i])
      {
        InsertOne(n, c, ht, metas, i);
        MoreParts(before, NewParts(n, c, ht, metas[..i]), n + i, Part(ht, metas[i], c, None, false));
        parts := parts[nextPart := Part(ht, metas[i], c, None, false)];
        nextPart := nextPart + 1;
      }
      assert metas[..|metas|] == metas;
      pending := pending - Paths(metas);
    }

    /** The guarded UPDATE; a short row count is a conflict. */
    method TombstoneAll(ht: Ht, c: CommitId, ids: seq<PartId>) returns (error: Option<CommitError>)
      modifies this`parts
      ensures match TombstoneParts(old(Snapshot()), ht, c, ids)
              case Ok(db) => error.None? && Snapshot() == db
              case Err(e) => error == Some(e)
      ensures error.None? <==> AllLive(old(parts), ht, ids)
      ensures error.None? ==> parts.Keys == old(parts).Keys && forall p :: p in parts ==>
                parts[p] == if p in ids then old(parts)[p].(deletedBy := Some(c)) else old(parts)[p]
    {
      MatchedAll(parts, ht, ids);
      var matched := Matched(parts, ht, ids);
      parts := Tombstone(parts, matched, c);
      error := if |matched| != |ids| then Some(Conflict(|ids|, |matched|)) else None;
    }

    /** The compare-and-set of each offset range in turn. */
    method AdvanceAll(ht: Ht, ranges: seq<OffsetRange>) returns (error: Option<CommitError>)
      modifies this`offsets
      ensures match AdvanceOffsets(old(offsets), ht, ranges)
              case Ok(o) => error.None? && offsets == o
              case Err(e) => error == Some(e)
      ensures error.None? <==> forall i :: 0 <= i < |ranges| ==> Fits(old(offsets), ht, ranges, i)
      ensures error.None? ==> Moved(old(offsets), ht, ranges, offsets)
      ensures error.Some? ==> exists i :: 0 <= i < |ranges| && !Fits(old(offsets), ht, ranges, i)
                                          && (forall j :: 0 <= j < i ==> Fits(old(offsets), ht, ranges, j))
                                          && error == Some(OffsetRace(ranges[i].tp))
    {
      hide Fits; hide Moved;
      AdvanceMeans(offsets, ht, ranges);
      for i := 0 to |ranges|
        invariant AdvanceOffsets(old(offsets), ht, ranges) == AdvanceOffsets(offsets, ht, ranges[i..])
      {
        var k := (ht, ranges[i].tp);
        if k in offsets && offsets[k] > ranges[i].first {
          return Some(OffsetRace(ranges[i].tp));
        }
        offsets := offsets[k := ranges[i].last + 1];
      }
      return None;
    }

    method ApplyAll(ht: Ht, c: CommitId, op: Op) returns (error: Option<CommitError>)
      modifies this`parts, this`nextPart, this`pending
      ensures match ApplyOp(old(Snapshot()), ht, c, op)
              case Ok(db) => error.None? && Snapshot() == db
              case Err(e) => error == Some(e)
    {
      match op {
        case Add(outputs) => InsertAll(ht, c, outputs); error := None;
        case Replace(inputs, outputs) =>
          error := TombstoneAll(ht, c, inputs);
          if error.None? { InsertAll(ht, c, outputs); }
        case Delete(inputs) => error := TombstoneAll(ht, c, inputs);
      }
    }

    /** The answer is the one the request's grounds call for; a commit leaves exactly its
        effects and draws its id, anything else changes no table. */
    method CommitTxn(now: nat, ht: Ht, op: Op, id: Option<Identity>, ranges: seq<OffsetRange>, lease: Option<Lease>)
      returns (outcome: Outcome)
      modifies this
      ensures var spec := CommitWhole(old(Snapshot()), old(commitSeq), now, ht, op, id, ranges, lease);
              && outcome == spec.0 && Snapshot() == spec.1
              && commitSeq == (if spec.2 then old(commitSeq) + 1 else old(commitSeq)) && genSeq == old(genSeq)
      ensures Indexed(old(Snapshot())) ==> Answers(old(Snapshot()), old(commitSeq), now, ht, op, id, ranges, lease, outcome)
      ensures outcome.Committed? && NewIds(old(Snapshot()), old(commitSeq)) ==>
                Landing(old(Snapshot()), old(commitSeq), now, ht, op, id, ranges, Snapshot())
      ensures !outcome.Committed? ==> Snapshot() == old(Snapshot())
      ensures Consistent() || !old(Consistent())
    {
      hide Answers; hide Landing; hide Body; hide Fence; hide Prior; hide Indexed; hide NewIds;
      Promised(Snapshot(), commitSeq, now, ht, op, id, ranges, lease);
      if id.Some? && id.value.ht != ht { return Failed(ForeignIdentity); }
      var before := Snapshot();
      if lease.Some? {
        var prior := Prior(before, id);
        if prior.Err? { return Failed(prior.error); }
        if prior.value.Some? { return AlreadyApplied(prior.value.value); }
        var refused := Fence(before, now, ht, lease.value, op);
        if refused.Some? { return Failed(refused.value); }
      }
      var c := commitSeq;
      commitSeq := commitSeq + 1;
      outcome := RunBody(c, now, ht, op, id, ranges);
    }

    method RunBody(c: CommitId, now: nat, ht: Ht, op: Op, id: Option<Identity>, ranges: seq<OffsetRange>)
      returns (outcome: Outcome)
      modifies this
      ensures (outcome, Snapshot()) == Body(old(Snapshot()), c, ht, op, id, ranges, now)
      ensures commitSeq == old(commitSeq) && genSeq == old(genSeq)
    {
      hide ApplyOp; hide AdvanceOffsets; hide Fits; hide Moved; hide Prior;
      var before := Snapshot();
      var prior := Prior(before, id);
      if prior.Err? { return Failed(prior.error); }
      if prior.value.Some? { return AlreadyApplied(prior.value.value); }
      var inserted := InsertCommit(before, c, ht, KindOf(op), id, now);
      commits, keyIndex := inserted.commits, inserted.keyIndex;
      assert Snapshot() == inserted;
      var error := ApplyAll(ht, c, op);
      if error.Some? { Rollback(before); return Failed(error.value); }
      ghost var applied := Snapshot();
      error := AdvanceAll(ht, ranges);
      if error.Some? { Rollback(before); return Failed(error.value); }
      assert Snapshot() == applied.(offsets := offsets);
      outcome := Committed(c);
    }

    // -------------------------------------------------------------- leases and cursors

    /** Draws a generation whether or not the row is then taken. */
    method TryAcquire(now: nat, ht: Ht, partition: Partition, owner: Owner, ttl: nat)
      returns (lease: Result<Option<Lease>, CommitError>)
      modifies this`leases, this`genSeq
      ensures ttl == 0 ==> lease == Err(InvalidTtl) && leases == old(leases) && genSeq == old(genSeq)
      ensures ttl > 0 ==>
                && genSeq == old(genSeq) + 1 && lease.Ok?
                && (lease.value, leases) == InstallLease(old(leases), now, ht, partition, owner, old(genSeq), ttl)
      ensures ttl > 0 ==>
                var k := (ht, partition);
                && (lease == Ok(None) <==> k in old(leases) && now < old(leases)[k].expiresAt && old(leases)[k].owner != owner)
                && (lease == Ok(None) ==> leases == old(leases))
                && (lease != Ok(None) ==>
                      && lease == Ok(Some(Lease(ht, partition, owner,
                           if k in old(leases) && now < old(leases)[k].expiresAt && old(leases)[k].owner == owner
                           then old(leases)[k].generation else old(genSeq))))
                      && forall later: nat :: Holds(leases, later, lease.value.value) <==> later < now + ttl)
                && (forall x :: x in leases <==> x in old(leases) || (x == k && lease != Ok(None)))
                && (forall x :: x in old(leases) && x != k ==> x in leases && leases[x] == old(leases)[x])
    {
      if ttl == 0 { return Err(InvalidTtl); }
      var drawn := genSeq;
      genSeq := genSeq + 1;
      var k := (ht, partition);
      if k in leases && leases[k].expiresAt > now && leases[k].owner != owner {
        return Ok(None);
      }
      var ours := k in leases && leases[k].owner == owner && leases[k].expiresAt > now;
      var generation := if ours then leases[k].generation else drawn;
      leases := leases[k := LeaseRow(owner, generation, now + ttl)];
      return Ok(Some(Lease(ht, partition, owner, generation)));
    }

    /** Extends a tenancy its holder still has. Nobody's owner or generation changes, no row
        appears or goes, and a token that is not in an unexpired row extends nothing. */
    method Renew(now: nat, l: Lease, ttl: nat) returns (held: Result<bool, CommitError>)
      modifies this`leases
      ensures ttl == 0 ==> held == Err(InvalidTtl) && leases == old(leases)
      ensures ttl > 0 ==> held.Ok? && (held.value, leases) == RenewLease(old(leases), now, l, ttl)
      ensures leases.Keys == old(leases).Keys
      ensures forall k :: k in leases ==>
                leases[k].owner == old(leases)[k].owner && leases[k].generation == old(leases)[k].generation
      ensures forall k :: k in leases && leases[k] != old(leases)[k] ==>
                k == (l.ht, l.partition) && held == Ok(true) && old(leases)[k].expiresAt > now
      ensures held == Ok(true) ==> Holds(old(leases), now, l) && forall later: nat :: later < now + ttl ==> Holds(leases, later, l)
      ensures held == Ok(true) ==> forall later: nat :: Holds(leases, later, l) <==> later < now + ttl
      ensures ttl > 0 ==> (held == Ok(true) <==>
                var k := (l.ht, l.partition);
                k in old(leases) && old(leases)[k].owner == l.owner && old(leases)[k].generation == l.generation && now < old(leases)[k].expiresAt)
      ensures ttl > 0 && held != Ok(true) ==> !Holds(leases, now, l)
    {
      if ttl == 0 { return Err(InvalidTtl); }
      if !Holds(leases, now, l) { return Ok(false); }
      leases := leases[(l.ht, l.partition) := LeaseRow(l.owner, l.generation, now + ttl)];
      return Ok(true);
    }

    /** Hands back exactly this tenancy: afterwards the token holds nothing at any time,
        every other row stands, and a stale token leaves its successor's row. */
    method Release(l: Lease) returns (deleted: bool)
      modifies this`leases
      ensures (deleted, leases) == ReleaseLease(old(leases), l)
      ensures forall now :: !Holds(leases, now, l)
      ensures forall k :: k in old(leases) && k != (l.ht, l.partition) ==> k in leases && leases[k] == old(leases)[k]
      ensures forall k :: k in leases ==> k in old(leases)
      ensures var k := (l.ht, l.partition);
              k in old(leases) && (old(leases)[k].owner != l.owner || old(leases)[k].generation != l.generation) ==>
                !deleted && k in leases && leases[k] == old(leases)[k]
      ensures deleted ==> (l.ht, l.partition) !in leases
      ensures deleted <==> var k := (l.ht, l.partition); k in old(leases) && old(leases)[k].owner == l.owner && old(leases)[k].generation == l.generation
    {
      var k := (l.ht, l.partition);
      deleted := k in leases && leases[k].owner == l.owner && leases[k].generation == l.generation;
      if deleted { leases := leases - {k}; }
    }

    method StoreCursor(w: Worker, ht: Ht, c: CommitId)
      modifies this`cursors
      ensures cursors == SetCursor(old(cursors), w, ht, c)
      ensures (w, ht) in cursors && cursors[(w, ht)] >= c
      ensures forall k :: k in old(cursors) ==> k in cursors && old(cursors)[k] <= cursors[k]
      ensures forall k :: k in cursors <==> k in old(cursors) || k == (w, ht)
      ensures forall k :: k in cursors && (k != (w, ht) || (k in old(cursors) && old(cursors)[k] >= c)) ==> cursors[k] == old(cursors)[k]
      ensures !((w, ht) in old(cursors) && old(cursors)[(w, ht)] >= c) ==> cursors[(w, ht)] == c
    {
      if !((w, ht) in cursors && cursors[(w, ht)] >= c) { cursors := cursors[(w, ht) := c]; }
    }

    // -------------------------------------------------------------- the feed

    /** `SELECT max(id)`: 0 when the hypertable has no commit. */
    method FeedHead(ht: Ht) returns (h: CommitId)
      ensures IsHead(Snapshot(), ht, h)
    {
      h := 0;
      var rest := commits.Keys;
      while rest != {}
        invariant rest <= commits.Keys
        invariant h == 0 || h in Feed(Snapshot(), ht)
        invariant forall c :: c in Feed(Snapshot(), ht) && c !in rest ==> c <= h
      {
        var c :| c in rest;
        rest := rest - {c};
        if commits[c].ht == ht && c > h { h := c; }
      }
    }

    /** First registration of a view's cursor, at the head of its source; `sources` has the
        source table of each pipeline, none for one that reads a stream. An unknown
        pipeline and one without a source table are refused, and a refusal stores nothing. */
    method EnsureMvCursor(p: Pid, sources: map<Pid, Option<Ht>>) returns (cursor: Result<CommitId, CursorError>)
      modifies this`cursors
      ensures cursor == Err(UnknownPipeline) <==> p !in sources
      ensures cursor == Err(NoSourceTable) <==> p in sources && sources[p].None?
      ensures cursor.Err? ==> cursors == old(cursors)
      ensures cursor.Ok? ==>
                var k := (MvWorker(p), sources[p].value);
                && k in cursors && cursor.value == cursors[k]
                && (k in old(cursors) ==> cursors == old(cursors))
                && (k !in old(cursors) ==> IsHead(old(Snapshot()), k.1, cursor.value) && cursors == old(cursors)[k := cursor.value])
    {
      if p !in sources { return Err(UnknownPipeline); }
      if sources[p].None? { return Err(NoSourceTable); }
      var k := (MvWorker(p), sources[p].value);
      var h := FeedHead(k.1);
      if k !in cursors { cursors := cursors[k := h]; }
      return Ok(cursors[k]);
    }

    // -------------------------------------------------------------- collector queries

    /** The reapable part with the least id: a part tombstoned by a commit at least the grace
        old, behind every cursor of its table. With none left every tombstoned and unpurged
        part is younger than that or ahead of some cursor. */
    method NextReapable(now: nat, grace: nat, ht: Ht) returns (r: Option<PartId>)
      ensures r.Some? ==> Due(Snapshot(), now, grace, ht, r.value) && forall q :: Due(Snapshot(), now, grace, ht, q) ==> r.value <= q
      ensures r.None? ==> forall q :: !Due(Snapshot(), now, grace, ht, q)
    {
      forall p ensures Reapable(Snapshot(), now, grace, ht, p) <==> Due(Snapshot(), now, grace, ht, p) {
        ReapableMeans(Snapshot(), now, grace, ht, p);
      }
      var found := set p | p in parts && Reapable(Snapshot(), now, grace, ht, p);
      assert forall q :: Due(Snapshot(), now, grace, ht, q) ==> q in found;
      if found == {} { return None; }
      ghost var any :| any in found;
      LeastMember(found, any);
      var p :| p in found && forall q :: q in found ==> p <= q;
      return Some(p);
    }

    method MarkPurged(ids: seq<PartId>)
      modifies this`parts
      ensures parts == Stamped(old(parts), Elements(ids))
      ensures parts.Keys == old(parts).Keys
      ensures forall p :: p in parts ==>
                && (parts[p].purged <==> old(parts)[p].purged || p in ids)
                && parts[p] == old(parts)[p].(purged := parts[p].purged)
    {
      parts := map p | p in parts :: if p in ids then parts[p].(purged := true) else parts[p];
    }

    /** The intent past its grace with the least path; with none left every intent of the
        table is within its grace. */
    method NextOrphan(now: nat, grace: nat, ht: Ht) returns (r: Option<Path>)
      ensures r.Some? ==> SweptNow(Snapshot(), now, grace, ht, r.value)
                          && forall x :: SweptNow(Snapshot(), now, grace, ht, x) ==> r.value <= x
      ensures r.None? ==> forall x :: !SweptNow(Snapshot(), now, grace, ht, x)
    {
      var found := set x | x in pending && Orphaned(Snapshot(), now, grace, x) && pending[x].ht == ht;
      assert forall x :: SweptNow(Snapshot(), now, grace, ht, x) ==> x in found;
      if found == {} { return None; }
      ghost var any :| any in found;
      LeastMember(found, any);
      var x :| x in found && forall y :: y in found ==> x <= y;
      return Some(x);
    }

    /** Intents are recorded once: a path already on record keeps its age. */
    method RegisterPending(now: nat, ht: Ht, paths: seq<Path>)
      modifies this`pending
      ensures forall x :: x in pending <==> x in old(pending) || x in paths
      ensures forall x :: x in pending ==>
                pending[x] == (if x in old(pending) then old(pending)[x] else Pending(ht, now))
    {
      pending := map x | x in pending.Keys + Elements(paths) :: if x in pending then pending[x] else Pending(ht, now);
    }

    method ClearPending(paths: seq<Path>)
      modifies this`pending
      ensures pending == old(pending) - Elements(paths)
      ensures forall x :: x in pending <==> x in old(pending) && x !in paths
      ensures forall x :: x in pending ==> pending[x] == old(pending)[x]
    {
      pending := pending - Elements(paths);
    }

    /** The oldest events above `after`, at most `limit` of them, none above the head:
        a page whose last id may be stored as the cursor. Each event lists the parts
        its commit created and those it tombstoned. */
    method ChangesSince(ht: Ht, after: CommitId, limit: nat) returns (events: seq<ChangeEvent>, head: CommitId)
      ensures IsHead(Snapshot(), ht, head)
      ensures |events| <= limit
      ensures limit > 0 ==> IsPage(Snapshot(), ht, after, head, Ids(events))
      ensures |events| < limit ==> forall c :: c in Feed(Snapshot(), ht) && after < c <= head ==> c in Ids(events)
      ensures forall i :: 0 <= i < |events| ==> IsEvent(Snapshot(), events[i])
    {
      hide IsPage; hide Paged;
      head := FeedHead(ht);
      events := [];
      var rest := set c | c in commits && commits[c].ht == ht && after < c <= head;
      NothingPaged(Snapshot(), ht, after, head);
      while rest != {} && |events| < limit
        invariant |events| <= limit && (events == [] || limit > 0)
        invariant Paged(Snapshot(), ht, after, head, events, rest)
        invariant forall i :: 0 <= i < |events| ==> IsEvent(Snapshot(), events[i])
        decreases rest
      {
        ghost var any :| any in rest;
        LeastMember(rest, any);
        var c :| c in rest && forall z :: z in rest ==> c <= z;
        RestIsFeed(Snapshot(), ht, after, head, events, rest, c);
        var added := set p | p in parts && parts[p].createdBy == c;
        var removed := set p | p in parts && parts[p].deletedBy == Some(c);
        var event := ChangeEvent(c, commits[c].kind, added, removed);
        PagedMore(Snapshot(), ht, after, head, events, rest, event);
        rest := rest - {c};
        events := events + [event];
      }
      PageIds(Snapshot(), ht, after, head, events, rest);
    }
  }

  datatype CursorError = UnknownPipeline | NoSourceTable

  datatype ChangeEvent = ChangeEvent(id: CommitId, kind: Kind, added: set<PartId>, removed: set<PartId>)

  function Ids(events: seq<ChangeEvent>): seq<CommitId> {
    seq(|events|, i requires 0 <= i < |events| => events[i].id)
  }

  /** The event reports its commit's kind and exactly the parts it created and tombstoned. */
  ghost predicate IsEvent(db: Db, e: ChangeEvent) {
    && e.id in db.commits && e.kind == db.commits[e.id].kind
    && (forall p :: p in e.added <==> p in db.parts && db.parts[p].createdBy == e.id)
    && (forall p :: p in e.removed <==> p in db.parts && db.parts[p].deletedBy == Some(e.id))
  }

  /** `events` are the oldest of the range in order, `rest` the others. */
  ghost predicate Paged(db: Db, ht: Ht, after: CommitId, head: CommitId, events: seq<ChangeEvent>, rest: set<CommitId>) {
    && (forall c :: c in rest ==> c in Feed(db, ht) && after < c <= head)
    && (forall c :: c in Feed(db, ht) && after < c <= head ==> c in rest || c in Ids(events))
    && (forall i :: 0 <= i < |events| ==> events[i].id in Feed(db, ht) && after < events[i].id <= head)
    && (forall i, j :: 0 <= i < j < |events| ==> events[i].id < events[j].id)
    && (forall i, c :: 0 <= i < |events| && c in rest ==> events[i].id < c)
  }

  lemma NothingPaged(db: Db, ht: Ht, after: CommitId, head: CommitId)
    ensures Paged(db, ht, after, head, [], set c | c in db.commits && db.commits[c].ht == ht && after < c <= head)
  {
  }

  lemma RestIsFeed(db: Db, ht: Ht, after: CommitId, head: CommitId, events: seq<ChangeEvent>, rest: set<CommitId>, c: CommitId)
    requires Paged(db, ht, after, head, events, rest) && c in rest
    ensures c in db.commits
  {
  }

  lemma PagedMore(db: Db, ht: Ht, after: CommitId, head: CommitId, events: seq<ChangeEvent>, rest: set<CommitId>, e: ChangeEvent)
    requires Paged(db, ht, after, head, events, rest) && e.id in rest && forall z :: z in rest ==> e.id <= z
    ensures Paged(db, ht, after, head, events + [e], rest - {e.id})
  {
    hide Feed;
    assert Ids(events + [e]) == Ids(events) + [e.id];
  }

  lemma PageIds(db: Db, ht: Ht, after: CommitId, head: CommitId, events: seq<ChangeEvent>, rest: set<CommitId>)
    requires Paged(db, ht, after, head, events, rest)
    ensures events != [] || rest == {} ==> IsPage(db, ht, after, head, Ids(events))
    ensures rest == {} ==> forall c :: c in Feed(db, ht) && after < c <= head ==> c in Ids(events)
  {
    hide Feed;
    var page := Ids(events);
    forall c | c in Feed(db, ht) && after < c <= head ensures c in page || forall i :: 0 <= i < |page| ==> page[i] < c {
      if c !in page { assert c in rest; }
    }
  }

  // ---------------------------------------------------------------- the collector

  /** The collector: one authorized candidate at a time, the object first and the
      catalog row after it. `broken` holds the paths whose delete request fails. */
  class Gc {
    const catalog: Store
    var objects: set<Path>
    var reaped: nat
    var swept: nat

    constructor (catalog: Store, objects: set<Path>)
      ensures this.catalog == catalog && this.objects == objects && reaped == 0 && swept == 0
    {
      this.catalog, this.objects, reaped, swept := catalog, objects, 0, 0;
    }

    /** Every part that may be reaped is deleted and stamped, nothing else is touched,
        and a failing delete stops the pass with every finished part already stamped. */
    method Reap(now: nat, grace: nat, ht: Ht, broken: set<Path>) returns (ok: bool)
      modifies this, catalog`parts
      ensures swept == old(swept)
      ensures exists done :: Reaped(old(catalog.Snapshot()), old(objects), now, grace, ht, done, catalog.Snapshot(), objects)
                             && reaped == old(reaped) + |done|
      ensures ok ==> forall p :: !Due(catalog.Snapshot(), now, grace, ht, p)
      ensures !ok ==> exists p :: Due(catalog.Snapshot(), now, grace, ht, p) && catalog.parts[p].meta.path in broken
    {
      hide Due; hide Stamped; hide PathsOf;
      ghost var before := catalog.Snapshot();
      ghost var store := objects;
      ghost var done: set<PartId> := {};
      NoneStamped(before.parts);
      var next := catalog.NextReapable(now, grace, ht);
      while next.Some?
        invariant Reaped(before, store, now, grace, ht, done, catalog.Snapshot(), objects)
        invariant reaped == old(reaped) + |done| && swept == old(swept)
        invariant next.Some? ==> Due(catalog.Snapshot(), now, grace, ht, next.value)
        invariant next.None? ==> forall q :: !Due(catalog.Snapshot(), now, grace, ht, q)
        decreases before.parts.Keys - done, next.Some?
      {
        var p := next.value;
        StampedReap(before, done, now, grace, ht, p);
        if catalog.parts[p].meta.path in broken { return false; }
        objects := objects - {catalog.parts[p].meta.path};
        catalog.MarkPurged([p]);
        reaped := reaped + 1;
        StampMore(before.parts, done, p);
        done := done + {p};
        next := catalog.NextReapable(now, grace, ht);
      }
      return true;
    }

    /** Every intent past its grace is swept and cleared, and no other. */
    method Sweep(now: nat, grace: nat, ht: Ht, broken: set<Path>) returns (ok: bool)
      modifies this, catalog`pending
      ensures reaped == old(reaped)
      ensures exists done :: Swept(old(catalog.Snapshot()), old(objects), now, grace, ht, done, catalog.Snapshot(), objects)
                             && swept == old(swept) + |done|
      ensures ok ==> forall x :: !SweptNow(catalog.Snapshot(), now, grace, ht, x)
      ensures !ok ==> exists x :: x in broken && SweptNow(catalog.Snapshot(), now, grace, ht, x)
    {
      ghost var before := catalog.Snapshot();
      ghost var store := objects;
      ghost var done: set<Path> := {};
      assert before.pending - done == before.pending && objects - done == objects;
      var next := catalog.NextOrphan(now, grace, ht);
      while next.Some?
        invariant Swept(before, store, now, grace, ht, done, catalog.Snapshot(), objects)
        invariant swept == old(swept) + |done| && reaped == old(reaped)
        invariant next.Some? ==> SweptNow(catalog.Snapshot(), now, grace, ht, next.value)
        invariant next.None? ==> forall x :: !SweptNow(catalog.Snapshot(), now, grace, ht, x)
        decreases before.pending.Keys - done, next.Some?
      {
        var x := next.value;
        if x in broken { return false; }
        objects := objects - {x};
        catalog.ClearPending([x]);
        swept := swept + 1;
        assert x !in done;
        SweepMore(before.pending, store, done, x);
        done := done + {x};
        next := catalog.NextOrphan(now, grace, ht);
      }
      return true;
    }
  }

  /** A pass reaped exactly the parts `done`: each was due when the pass began, is
      stamped now, and its object is gone; nothing else changed. */
  ghost predicate Reaped(db: Db, objects: set<Path>, now: nat, grace: nat, ht: Ht, done: set<PartId>, db': Db, objects': set<Path>) {
    && done <= db.parts.Keys
    && (forall p :: p in done ==> Due(db, now, grace, ht, p))
    && db' == db.(parts := Stamped(db.parts, done))
    && objects' == objects - PathsOf(db.parts, done)
  }

  /** A pass swept exactly the intents `done`. */
  ghost predicate Swept(db: Db, objects: set<Path>, now: nat, grace: nat, ht: Ht, done: set<Path>, db': Db, objects': set<Path>) {
    && done <= db.pending.Keys
    && (forall x :: x in done ==> SweptNow(db, now, grace, ht, x))
    && db' == db.(pending := db.pending - done)
    && objects' == objects - done
  }

  /** The intent is the table's and at least the grace old. */
  predicate SweptNow(db: Db, now: nat, grace: nat, ht: Ht, x: Path) {
    x in db.pending && db.pending[x].ht == ht && db.pending[x].createdAt + grace <= now
  }

  function Stamped(parts: map<PartId, Part>, ids: set<PartId>): map<PartId, Part> {
    map p | p in parts :: if p in ids then parts[p].(purged := true) else parts[p]
  }

  function PathsOf(parts: map<PartId, Part>, ids: set<PartId>): set<Path> {
    set p | p in ids && p in parts :: parts[p].meta.path
  }

  lemma NoneStamped(parts: map<PartId, Part>)
    ensures Stamped(parts, {}) == parts && PathsOf(parts, {}) == {}
  {
  }

  lemma StampMore(parts: map<PartId, Part>, done: set<PartId>, p: PartId)
    requires p in parts
    ensures Stamped(Stamped(parts, done), Elements([p])) == Stamped(parts, done + {p})
    ensures PathsOf(parts, done + {p}) == PathsOf(parts, done) + {parts[p].meta.path}
  {
    assert Elements([p]) == {p};
  }

  lemma SweepMore(pending: map<Path, Pending>, store: set<Path>, done: set<Path>, x: Path)
    ensures (pending - done) - Elements([x]) == pending - (done + {x})
    ensures (store - done) - {x} == store - (done + {x})
  {
    assert Elements([x]) == {x};
  }

  /** A stamped part is due no more, and stamping changes nothing else about it. */
  lemma StampedReap(db: Db, done: set<PartId>, now: nat, grace: nat, ht: Ht, p: PartId)
    requires Due(db.(parts := Stamped(db.parts, done)), now, grace, ht, p)
    ensures p in db.parts && p !in done && Due(db, now, grace, ht, p)
    ensures p in Stamped(db.parts, done) && Stamped(db.parts, done)[p].meta == db.parts[p].meta
  {
  }
}
