/** The catalog tables and what one committed statement or transaction does to them.

    Every function here is the meaning of one SQL statement (or of one whole
    transaction body) over the committed tables; interleaving is in `Machine`. */
module Tables {
  import opened Base
  import opened Rows

  type Ht = nat          // hypertable id
  type CommitId = nat    // commits.id, drawn from one sequence
  type PartId = nat
  type Path = nat        // object path; a fresh UUID per upload
  type Partition = nat   // partition_values
  type Pid = nat         // pipeline id
  type Tp = nat          // one Kafka (topic, partition)
  type Owner = nat

  datatype Kind = KAdd | KReplace | KDelete

  /** One consumed Kafka offset range, both ends inclusive. */
  datatype OffsetRange = OffsetRange(tp: Tp, first: nat, last: nat)

  /** What a fingerprint digests. The hash is taken to be injective, so a digest is
      represented by the intent it is the digest of. */
  datatype Digest =
    | MvDigest(pipeline: Pid, source: Ht, event: CommitId)
    | IngestDigest(ranges: set<OffsetRange>)
    | CompactDigest(parts: set<PartId>, level: nat)
    | EraseDigest(key: int, parts: set<PartId>)
    | ForeignDigest(n: nat)

  /** The identity of one logical mutation: scope, stored key, fingerprint. A
      factory pairs a key with its own fingerprint; a legacy row has none. */
  datatype Identity = Identity(ht: Ht, key: Digest, fp: Option<Digest>)

  function Factory(ht: Ht, d: Digest): Identity {
    Identity(ht, d, Some(d))
  }

  datatype PartMeta = PartMeta(path: Path, partition: Partition, keyMin: int, keyMax: int, level: nat)

  datatype Part = Part(ht: Ht, meta: PartMeta, createdBy: CommitId,
                       deletedBy: Option<CommitId>, purged: bool)

  predicate Live(p: Part) {
    p.deletedBy.None?
  }

  datatype CommitRow = CommitRow(ht: Ht, kind: Kind, key: Option<Digest>,
                                 fp: Option<Digest>, createdAt: nat)

  datatype LeaseRow = LeaseRow(owner: Owner, generation: nat, expiresAt: nat)

  /** A lease token as a worker holds it. */
  datatype Lease = Lease(ht: Ht, partition: Partition, owner: Owner, generation: nat)

  /** The holder of a feed cursor. */
  datatype Worker = MvWorker(pipeline: Pid) | Named(name: nat)

  datatype Pending = Pending(ht: Ht, createdAt: nat)

  datatype Db = Db(
    commits: map<CommitId, CommitRow>,
    keyIndex: map<(Ht, Digest), CommitId>,  // commits_idempotency_idx
    parts: map<PartId, Part>,
    nextPart: PartId,
    offsets: map<(Ht, Tp), nat>,
    leases: map<(Ht, Partition), LeaseRow>,
    cursors: map<(Worker, Ht), CommitId>,
    pending: map<Path, Pending>)

  const EmptyDb := Db(map[], map[], map[], 0, map[], map[], map[], map[])

  datatype Op =
    | Add(outputs: seq<PartMeta>)
    | Replace(inputs: seq<PartId>, outputs: seq<PartMeta>)
    | Delete(inputs: seq<PartId>)

  function KindOf(op: Op): Kind {
    match op
    case Add(_) => KAdd
    case Replace(_, _) => KReplace
    case Delete(_) => KDelete
  }

  /** The parts an operation tombstones. */
  function Inputs(op: Op): seq<PartId> {
    match op
    case Add(_) => []
    case Replace(inputs, _) => inputs
    case Delete(inputs) => inputs
  }

  /** The parts an operation registers. */
  function Outputs(op: Op): seq<PartMeta> {
    match op
    case Add(outputs) => outputs
    case Replace(_, outputs) => outputs
    case Delete(_) => []
  }

  function Paths(metas: seq<PartMeta>): set<Path> {
    set m | m in metas :: m.path
  }

  datatype CommitError =
    | KeyCollision
    | Conflict(expected: nat, matched: nat)
    | OffsetRace(tp: Tp)
    | LeaseLost
    | PartitionMismatch
    | ForeignIdentity               // an identity of another hypertable
    | InvalidTtl

  // ---------------------------------------------------------------- reconciliation

  /** The commit that already carries this exact intent, nothing when the key is
      free, and a collision when the key is taken by another or an unknown intent. */
  function Reconcile(db: Db, id: Identity): Result<Option<CommitId>, CommitError> {
    if (id.ht, id.key) !in db.keyIndex then Ok(None)
    else
      var c := db.keyIndex[(id.ht, id.key)];
      if c !in db.commits then Ok(None)
      else
        var stored := db.commits[c].fp;
        if stored.Some? && stored == id.fp then Ok(Some(c)) else Err(KeyCollision)
  }

  /** The same for a request that may carry no identity. */
  function Prior(db: Db, id: Option<Identity>): Result<Option<CommitId>, CommitError> {
    if id.None? then Ok(None) else Reconcile(db, id.value)
  }

  // ---------------------------------------------------------------- transaction body

  /** The rows an `UPDATE … WHERE id = ANY(ids) AND hypertable_id = ht AND
      deleted_by_commit IS NULL` touches. */
  function Matched(parts: map<PartId, Part>, ht: Ht, ids: seq<PartId>): set<PartId> {
    set i | i in ids && i in parts && parts[i].ht == ht && Live(parts[i])
  }

  function Tombstone(parts: map<PartId, Part>, ids: set<PartId>, c: CommitId): map<PartId, Part> {
    map i | i in parts :: if i in ids then parts[i].(deletedBy := Some(c)) else parts[i]
  }

  function OutputAt(metas: seq<PartMeta>, n: PartId, i: PartId): PartMeta
    requires n <= i < n + |metas|
  {
    metas[i - n]
  }

  function NewParts(n: PartId, c: CommitId, ht: Ht, metas: seq<PartMeta>): map<PartId, Part> {
    map i | n <= i < n + |metas| :: Part(ht, OutputAt(metas, n, i), c, None, false)
  }

  function InsertParts(db: Db, ht: Ht, c: CommitId, metas: seq<PartMeta>): Db {
    var n := db.nextPart;
    db.(parts := db.parts + NewParts(n, c, ht, metas),
        nextPart := n + |metas|,
        pending := db.pending - Paths(metas))
  }

  /** Tombstones exactly the named live parts, or reports how many matched. */
  function TombstoneParts(db: Db, ht: Ht, c: CommitId, ids: seq<PartId>): Result<Db, CommitError> {
    var matched := Matched(db.parts, ht, ids);
    if |matched| != |ids| then Err(Conflict(|ids|, |matched|))
    else Ok(db.(parts := Tombstone(db.parts, matched, c)))
  }

  function ApplyOp(db: Db, ht: Ht, c: CommitId, op: Op): Result<Db, CommitError> {
    match op
    case Add(outputs) => Ok(InsertParts(db, ht, c, outputs))
    case Replace(inputs, outputs) =>
      var t := TombstoneParts(db, ht, c, inputs);
      if t.Err? then t else Ok(InsertParts(t.value, ht, c, outputs))
    case Delete(inputs) => TombstoneParts(db, ht, c, inputs)
  }

  /** The offset compare-and-set loop: each range applies only while the stored
      position has not passed the start of the range. */
  function AdvanceOffsets(offsets: map<(Ht, Tp), nat>, ht: Ht, ranges: seq<OffsetRange>)
    : Result<map<(Ht, Tp), nat>, CommitError>
    decreases ranges
  {
    if ranges == [] then Ok(offsets)
    else
      var r := ranges[0];
      if (ht, r.tp) in offsets && offsets[(ht, r.tp)] > r.first then Err(OffsetRace(r.tp))
      else AdvanceOffsets(offsets[(ht, r.tp) := r.last + 1], ht, ranges[1..])
  }

  datatype Outcome = Committed(id: CommitId) | AlreadyApplied(id: CommitId) | Failed(error: CommitError)

  predicate Landed(o: Outcome) {
    o.Committed? || o.AlreadyApplied?
  }

  /** The commit row's insertion: the row and its entry in the unique index. */
  function InsertCommit(db: Db, c: CommitId, ht: Ht, kind: Kind, id: Option<Identity>, at: nat): Db {
    match id
    case None => db.(commits := db.commits[c := CommitRow(ht, kind, None, None, at)])
    case Some(i) =>
      db.(commits := db.commits[c := CommitRow(ht, kind, Some(i.key), i.fp, at)],
          keyIndex := db.keyIndex[(ht, i.key) := c])
  }

  /** The transaction body from the commit row to the commit point, under the
      already drawn id `c`: a replay applies nothing, a failure applies nothing. */
  function Body(db: Db, c: CommitId, ht: Ht, op: Op, id: Option<Identity>,
                ranges: seq<OffsetRange>, at: nat): (Outcome, Db)
  {
    var prior := Prior(db, id);
    if prior.Err? then (Failed(prior.error), db)
    else if prior.value.Some? then (AlreadyApplied(prior.value.value), db)
    else
      var applied := ApplyOp(InsertCommit(db, c, ht, KindOf(op), id, at), ht, c, op);
      if applied.Err? then (Failed(applied.error), db)
      else
        var offsets := AdvanceOffsets(applied.value.offsets, ht, ranges);
        if offsets.Err? then (Failed(offsets.error), db)
        else (Committed(c), applied.value.(offsets := offsets.value))
  }

  // ---------------------------------------------------------------- leases

  /** The token is the one in the row, and the row has not expired. */
  predicate Holds(leases: map<(Ht, Partition), LeaseRow>, now: nat, l: Lease) {
    && (l.ht, l.partition) in leases
    && leases[(l.ht, l.partition)].owner == l.owner
    && leases[(l.ht, l.partition)].generation == l.generation
    && leases[(l.ht, l.partition)].expiresAt > now
  }

  /** The named parts that lie in one partition. */
  function PartsInside(db: Db, ht: Ht, partition: Partition, ids: seq<PartId>): set<PartId> {
    set i | i in ids && i in db.parts && db.parts[i].ht == ht && db.parts[i].meta.partition == partition
  }

  /** The lease fence of a compaction REPLACE: nothing when it passes. */
  function Fence(db: Db, now: nat, ht: Ht, l: Lease, op: Op): Option<CommitError> {
    if ht != l.ht then Some(PartitionMismatch)
    else if !Holds(db.leases, now, l) then Some(LeaseLost)
    else if !op.Replace? then Some(PartitionMismatch)
    else if exists m :: m in op.outputs && m.partition != l.partition then Some(PartitionMismatch)
    else
      if |PartsInside(db, ht, l.partition, op.inputs)| != |op.inputs| then Some(PartitionMismatch) else None
  }

  /** Installs a drawn generation: takes a free or expired row, refreshes the
      owner's own unexpired row under its old generation, otherwise declines. */
  function InstallLease(leases: map<(Ht, Partition), LeaseRow>, now: nat, ht: Ht, partition: Partition,
                        owner: Owner, drawn: nat, ttl: nat)
    : (Option<Lease>, map<(Ht, Partition), LeaseRow>)
  {
    var k := (ht, partition);
    if k !in leases then
      (Some(Lease(ht, partition, owner, drawn)), leases[k := LeaseRow(owner, drawn, now + ttl)])
    else
      var row := leases[k];
      if row.expiresAt <= now || row.owner == owner then
        var g := if row.owner == owner && row.expiresAt > now then row.generation else drawn;
        (Some(Lease(ht, partition, owner, g)), leases[k := LeaseRow(owner, g, now + ttl)])
      else (None, leases)
  }

  function RenewLease(leases: map<(Ht, Partition), LeaseRow>, now: nat, l: Lease, ttl: nat)
    : (bool, map<(Ht, Partition), LeaseRow>)
  {
    if Holds(leases, now, l) then
      (true, leases[(l.ht, l.partition) := LeaseRow(l.owner, l.generation, now + ttl)])
    else (false, leases)
  }

  function ReleaseLease(leases: map<(Ht, Partition), LeaseRow>, l: Lease)
    : (bool, map<(Ht, Partition), LeaseRow>)
  {
    var k := (l.ht, l.partition);
    if k in leases && leases[k].owner == l.owner && leases[k].generation == l.generation
    then (true, leases - {k}) else (false, leases)
  }

  // ---------------------------------------------------------------- cursors and feed

  /** A cursor only moves forward. */
  function SetCursor(cursors: map<(Worker, Ht), CommitId>, w: Worker, ht: Ht, c: CommitId)
    : map<(Worker, Ht), CommitId>
  {
    if (w, ht) in cursors && cursors[(w, ht)] >= c then cursors else cursors[(w, ht) := c]
  }

  function Feed(db: Db, ht: Ht): set<CommitId> {
    set c | c in db.commits && db.commits[c].ht == ht
  }

  /** `SELECT max(id)`, 0 when the hypertable has no commit. */
  ghost predicate IsHead(db: Db, ht: Ht, h: CommitId) {
    && (forall c :: c in Feed(db, ht) ==> c <= h)
    && (h == 0 || h in Feed(db, ht))
  }

  lemma HeadExists(db: Db, ht: Ht)
    ensures exists h :: IsHead(db, ht, h)
  {
    var s := Feed(db, ht);
    var h, rest := 0, s;
    while rest != {}
      invariant rest <= s
      invariant h == 0 || h in s
      invariant forall c :: c in s && c !in rest ==> c <= h
    {
      var c :| c in rest;
      if c > h { h := c; }
      rest := rest - {c};
    }
    assert IsHead(db, ht, h);
  }

  ghost function Head(db: Db, ht: Ht): (h: CommitId)
    ensures IsHead(db, ht, h)
  {
    HeadExists(db, ht);
    var h :| IsHead(db, ht, h);
    h
  }

  // ---------------------------------------------------------------- garbage collection

  /** A tombstoned, unpurged part whose deleting commit is past the grace and at or
      below every registered cursor of its hypertable. */
  predicate Reapable(db: Db, now: nat, grace: nat, ht: Ht, p: PartId) {
    && p in db.parts
    && db.parts[p].ht == ht
    && db.parts[p].deletedBy.Some?
    && !db.parts[p].purged
    && db.parts[p].deletedBy.value in db.commits
    && db.commits[db.parts[p].deletedBy.value].createdAt + grace <= now
    && forall k :: k in db.cursors && k.1 == ht ==> db.parts[p].deletedBy.value <= db.cursors[k]
  }

  /** An upload intent whose age has reached the grace. */
  predicate Orphaned(db: Db, now: nat, grace: nat, path: Path) {
    path in db.pending && db.pending[path].createdAt + grace <= now
  }

  // ---------------------------------------------------------------- facts

  /** The row count test of the tombstone statement passes exactly when the ids are
      distinct and every one of them names a live part of this hypertable. */
  lemma MatchedAll(parts: map<PartId, Part>, ht: Ht, ids: seq<PartId>)
    ensures |Matched(parts, ht, ids)| == |ids| <==>
            Distinct(ids) && forall i :: i in ids ==> i in parts && parts[i].ht == ht && Live(parts[i])
    ensures |Matched(parts, ht, ids)| == |ids| ==> Matched(parts, ht, ids) == Elements(ids)
  {
    var m := Matched(parts, ht, ids);
    ElementsCardinality(ids);
    SubsetCardinality(m, Elements(ids));
    if forall i :: i in ids ==> i in parts && parts[i].ht == ht && Live(parts[i]) {
      assert m == Elements(ids);
    } else {
      var i :| i in ids && !(i in parts && parts[i].ht == ht && Live(parts[i]));
      assert i in Elements(ids) && i !in m;
    }
  }

  /** A successful offset loop never moves a position back, and leaves each range's
      position at or past the end of the range. */
  lemma {:induction false} AdvanceOffsetsMonotone(offsets: map<(Ht, Tp), nat>, ht: Ht, ranges: seq<OffsetRange>)
    requires forall r :: r in ranges ==> r.first <= r.last
    requires AdvanceOffsets(offsets, ht, ranges).Ok?
    ensures var o := AdvanceOffsets(offsets, ht, ranges).value;
            && (forall k :: k in offsets ==> k in o && offsets[k] <= o[k])
            && (forall r :: r in ranges ==> (ht, r.tp) in o && r.last + 1 <= o[(ht, r.tp)])
            && (forall k :: k in o && k !in offsets ==> k.0 == ht && exists r :: r in ranges && r.tp == k.1)
            && (forall k :: k in offsets && k.0 != ht ==> o[k] == offsets[k])
    decreases ranges
  {
    if ranges != [] {
      var r := ranges[0];
      var mid := offsets[(ht, r.tp) := r.last + 1];
      assert forall x :: x in ranges[1..] ==> x in ranges;
      AdvanceOffsetsMonotone(mid, ht, ranges[1..]);
      assert (ht, r.tp) in mid;
      assert forall x :: x in ranges ==> x == r || x in ranges[1..];
    }
  }
}
