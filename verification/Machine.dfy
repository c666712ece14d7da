/** The catalog and its workers as one step machine.

    A state holds the committed tables, the transactions and feed readers in
    flight, every worker's local state, the Kafka logs and the object store. One
    step is one statement, one message, one object request or one clock tick, so a
    run is an arbitrary interleaving of any number of workers that may crash, be
    duplicated, lose an acknowledgement or leave a transaction behind.

    PostgreSQL is assumed to behave as sections 13.2.1 (Read Committed) and 13.3.5
    (Advisory Locks) of its documentation describe: a statement reads the rows
    committed when it starts, and a shared and an exclusive holder of one advisory
    lock exclude each other until their transactions end. The row locks a
    transaction takes let its checks be read at its commit point. */
module Machine {
  import opened Base
  import opened Rows
  import opened Tables

  // ---------------------------------------------------------------- transactions

  /** Who is waiting for a transaction's answer, and on what grounds it was begun. */
  datatype Client =
    | Direct                        // a catalog caller outside the worker fleet
    | MvReplica(replica: nat)
    | Ingester(worker: nat)
    | Merger                        // a ladder merge or a finalization
    | Eraser(key: int)              // delete_key

  datatype Request = Request(
    ht: Ht,
    op: Op,
    ident: Option<Identity>,
    ranges: seq<OffsetRange>,
    lease: Option<Lease>,
    client: Client,
    starts: map<Tp, nat>,           // history: where the ingest buffer began to read,
    took: set<(Tp, nat)>,           //   the messages it was delivered,
    kept: set<(Tp, nat)>)           //   and those whose row it kept

  datatype Phase =
    | Locked                        // holds the shared feed lock
    | Looked                        // a leased request found no replay
    | Fenced                        // a leased request passed the fence
    | Allocated(id: CommitId)       // drew its commit id

  datatype Txn = Txn(req: Request, startedAt: nat, fencedAt: Option<nat>, phase: Phase)

  // ---------------------------------------------------------------- feed readers

  datatype Purpose =
    | ForReplica(replica: nat)
    | ForConsumer(consumer: nat)
    | Register(pipeline: Pid)       // ensure_mv_cursor

  /** A reader holds the exclusive feed lock of `ht` from the moment it exists. */
  datatype Reader = Reader(ht: Ht, purpose: Purpose)

  // ---------------------------------------------------------------- workers

  /** A materialized-view replica inside one `process_event` attempt. `cursor` is
      the cursor value the attempt started from. */
  datatype Replica =
    | RIdle
    | RCursor(pipeline: Pid, cursor: CommitId)
    | RWaiting(pipeline: Pid, cursor: CommitId)
    | RHead(pipeline: Pid, cursor: CommitId, head: CommitId)
    | REvent(pipeline: Pid, cursor: CommitId, event: CommitId)
    | RPublish(pipeline: Pid, cursor: CommitId, event: CommitId, txn: nat)
    | RReady(pipeline: Pid, cursor: CommitId, event: CommitId)

  datatype Span = Span(first: nat, last: nat)

  /** An ingest worker. `from` is the position of the last successful flush (or the
      connect), `pos` the next offset to read, `buf` the offsets read in between and
      `took` the messages they delivered. */
  datatype IngestState =
    | IOff
    | IRun(ht: Ht, from: map<Tp, nat>, pos: map<Tp, nat>, buf: map<Tp, Span>, took: set<(Tp, nat)>)
    | IFlush(ht: Ht, pos: map<Tp, nat>, txn: nat)

  datatype Log = Log(msgs: set<nat>, end: nat)

  /** A feed consumer that pages and remembers the last id; `seen` is its history. */
  datatype Consumer = Consumer(ht: Ht, start: CommitId, cursor: CommitId, head: Option<CommitId>,
                               seen: seq<CommitId>)

  datatype GcState =
    | GIdle
    | GReap(part: PartId)           // candidate fetched
    | GReaped(part: PartId)         // object deleted, stamp outstanding
    | GSweep(path: Path)
    | GSwept(path: Path)

  datatype Acquire = Acquire(ht: Ht, partition: Partition, owner: Owner, ttl: nat, drawn: nat)

  datatype Pipeline = Pipeline(source: Ht, target: Ht)

  /** `payload` has the row of every message that decodes to one. */
  datatype Config = Config(pipelines: map<Pid, Pipeline>, tombstoneGrace: nat, orphanGrace: nat, payload: map<(Tp, nat), Row>)

  /** What one committed flush took in: the messages delivered and those whose row it kept. */
  datatype Intake = Intake(ht: Ht, took: set<(Tp, nat)>, kept: set<(Tp, nat)>)

  /** History variables: no step reads them. */
  datatype History = History(
    heads: map<Ht, CommitId>,               // highest head any reader was given
    mvInit: map<Pid, CommitId>,             // where each MV cursor was first registered
    tenancies: map<nat, Lease>,             // every generation ever installed
    added: map<Ht, multiset<Row>>,          // rows of committed ADDs
    erased: map<Ht, multiset<Row>>,         // rows removed by committed deletions
    flushed: seq<(Ht, OffsetRange)>,        // committed offset ranges, in commit order
    intakes: seq<Intake>,                   // what the committed flushes took in
    reaped: set<PartId>,                    // parts whose object a reaper deleted
    swept: set<Path>)                       // paths whose object a sweeper deleted

  datatype State = State(
    cfg: Config,
    db: Db,
    commitSeq: CommitId,                    // next value of the commit id sequence
    genSeq: nat,                            // next value of the lease generation sequence
    now: nat,
    txns: map<nat, Txn>,
    nextTxn: nat,
    readers: map<nat, Reader>,
    acquires: map<nat, Acquire>,
    replicas: map<nat, Replica>,
    ingesters: map<nat, IngestState>,
    consumers: map<nat, Consumer>,
    gcs: map<nat, GcState>,
    kafka: map<Tp, Log>,
    content: map<Path, seq<Row>>,           // what was uploaded under each path
    store: set<Path>,                       // the objects present
    registered: set<Path>,                  // every path ever registered
    claimed: set<Path>,                     // paths some request has named
    hist: History)

  const EmptyHistory := History(map[], map[], map[], map[], map[], [], [], {}, {})

  /** An empty catalog; pipelines never feed a table into itself. */
  predicate Init(s: State) {
    && s == State(s.cfg, EmptyDb, 1, 1, 0, map[], 0, map[], map[], map[], map[], map[], map[], map[],
                  map[], {}, {}, {}, EmptyHistory)
    && forall p :: p in s.cfg.pipelines ==> s.cfg.pipelines[p].source != s.cfg.pipelines[p].target
  }

  // ---------------------------------------------------------------- steps

  /** The steps of `commit_txn`. `ack` says whether the answer reaches the caller. */
  datatype TxnStep =
    | Begin(txn: nat, req: Request)
    | Lookup(txn: nat, ack: bool)
    | Check(txn: nat)                       // fence_lease
    | Alloc(txn: nat)
    | Finish(txn: nat, ack: bool)
    | Rollback(txn: nat)

  datatype FeedStep =
    | FeedLock(reader: nat, ht: Ht, purpose: Purpose)
    | FeedRead(reader: nat)
    | FeedAbort(reader: nat)
    | Subscribe(consumer: nat, ht: Ht, name: nat)   // resumes from a stored cursor
    | Page(consumer: nat, page: seq<CommitId>)
    | Persist(consumer: nat, name: nat)             // the last processed event
    | PersistHead(consumer: nat, name: nat)         // a prefix from feed_head

  datatype LeaseStep =
    | Draw(acquire: nat, ht: Ht, partition: Partition, owner: Owner, ttl: nat)
    | Install(acquire: nat)
    | Renew(lease: Lease, ttl: nat)
    | Release(lease: Lease)

  datatype MvStep =
    | MvStart(replica: nat, pipeline: Pid)
    | MvPage(replica: nat, page: seq<CommitId>)
    | MvSkip(replica: nat)
    | MvCheckCursor(replica: nat)
    | MvCheckOperation(replica: nat)
    | MvAdvance(replica: nat)
    | MvCrash(replica: nat)

  datatype IngestStep =
    | Connect(worker: nat, ht: Ht)
    | Receive(worker: nat, tp: Tp, offset: nat)
    | IngestCrash(worker: nat)
    | KafkaAppend(tp: Tp, offset: nat)
    | KafkaRemove(tp: Tp, offset: nat)

  datatype ObjectStep =
    | RegisterPath(path: Path, ht: Ht)
    | Put(path: Path, rows: seq<Row>)

  datatype GcStep =
    | ReapFetch(gc: nat, ht: Ht, part: PartId)
    | ReapDelete(gc: nat)
    | ReapMark(gc: nat)
    | SweepFetch(gc: nat, path: Path)
    | SweepDelete(gc: nat)
    | SweepClear(gc: nat)
    | GcCrash(gc: nat)

  datatype Step =
    | TxnS(t: TxnStep)
    | FeedS(f: FeedStep)
    | LeaseS(l: LeaseStep)
    | MvS(m: MvStep)
    | IngestS(i: IngestStep)
    | ObjectS(o: ObjectStep)
    | GcS(g: GcStep)
    | Tick

  // ---------------------------------------------------------------- helpers

  function RowsAt(content: map<Path, seq<Row>>, path: Path): seq<Row> {
    if path in content then content[path] else []
  }

  function Stored(offsets: map<(Ht, Tp), nat>, ht: Ht, tp: Tp): nat {
    if (ht, tp) in offsets then offsets[(ht, tp)] else 0
  }

  function Msgs(s: State, tp: Tp): set<nat> {
    if tp in s.kafka then s.kafka[tp].msgs else {}
  }

  function LogEnd(s: State, tp: Tp): nat {
    if tp in s.kafka then s.kafka[tp].end else 0
  }

  function HeadOf(h: History, ht: Ht): CommitId {
    if ht in h.heads then h.heads[ht] else 0
  }

  function RowsOf(m: map<Ht, multiset<Row>>, ht: Ht): multiset<Row> {
    if ht in m then m[ht] else multiset{}
  }

  /** The recorded key range brackets every key in the file. */
  predicate Bounds(m: PartMeta, rows: seq<Row>) {
    forall r :: r in rows ==> m.keyMin <= r.key <= m.keyMax
  }

  function Files(s: State, metas: seq<PartMeta>): seq<seq<Row>> {
    seq(|metas|, i requires 0 <= i < |metas| => RowsAt(s.content, metas[i].path))
  }

  function InputFiles(s: State, ids: seq<PartId>): seq<seq<Row>>
    requires forall i :: i in ids ==> i in s.db.parts
  {
    seq(|ids|, i requires 0 <= i < |ids| => RowsAt(s.content, s.db.parts[ids[i]].meta.path))
  }

  /** The rewritten files of `delete_key`: one per part that is not wholly the
      key's, unless nothing of it survives. */
  function KeptFiles(s: State, ids: seq<PartId>, k: int): seq<seq<Row>>
    requires forall i :: i in ids ==> i in s.db.parts
  {
    if ids == [] then []
    else
      var p := s.db.parts[ids[0]];
      var rest := KeptFiles(s, ids[1..], k);
      var kept := Kept(RowsAt(s.content, p.meta.path), k);
      if p.meta.keyMin == k && p.meta.keyMax == k then rest
      else if kept == [] then rest
      else [kept] + rest
  }

  /** The rows of a set of messages, each message's once. */
  ghost function MessageRows(payload: map<(Tp, nat), Row>, kept: set<(Tp, nat)>): multiset<Row>
    requires kept <= payload.Keys
  {
    if kept == {} then multiset{}
    else
      var x :| x in kept;
      multiset{payload[x]} + MessageRows(payload, kept - {x})
  }

  /** Whichever message is counted first, the rows are the same. */
  lemma {:induction false} MessageRowsOf(payload: map<(Tp, nat), Row>, kept: set<(Tp, nat)>, x: (Tp, nat))
    requires kept <= payload.Keys && x in kept
    ensures MessageRows(payload, kept) == multiset{payload[x]} + MessageRows(payload, kept - {x})
  {
    var y :| y in kept && MessageRows(payload, kept) == multiset{payload[y]} + MessageRows(payload, kept - {y});
    if x != y {
      MessageRowsOf(payload, kept - {y}, x);
      MessageRowsOf(payload, kept - {x}, y);
      assert kept - {y} - {x} == kept - {x} - {y};
    }
  }

  /** The live parts whose key range contains the key: what a deletion reads. */
  predicate Selects(s: State, ht: Ht, k: int, ids: set<PartId>) {
    ids == set p | p in s.db.parts && s.db.parts[p].ht == ht && Live(s.db.parts[p])
                   && s.db.parts[p].meta.keyMin <= k <= s.db.parts[p].meta.keyMax
  }

  function EventIdentity(p: Pid, pl: Pipeline, event: CommitId): Identity {
    Factory(pl.target, MvDigest(p, pl.source, event))
  }

  /** The buffer's ranges, drained in any order. */
  predicate Drains(buf: map<Tp, Span>, ranges: seq<OffsetRange>) {
    && (forall r :: r in ranges ==> r.tp in buf && buf[r.tp] == Span(r.first, r.last))
    && (forall tp :: tp in buf ==> OffsetRange(tp, buf[tp].first, buf[tp].last) in ranges)
    && (forall i, j :: 0 <= i < j < |ranges| ==> ranges[i].tp != ranges[j].tp)
  }

  // ---------------------------------------------------------------- enabling

  /** What holds of every request when it is begun: the caller names parts it has
      read and files it has uploaded and nobody else has named, and recorded the
      key ranges of those files. */
  predicate RequestOk(s: State, req: Request) {
    && (forall i :: i in Inputs(req.op) ==> i in s.db.parts)
    && (forall m :: m in Outputs(req.op) ==>
          m.path in s.content && m.path !in s.claimed && Bounds(m, s.content[m.path]))
    && (forall i, j :: 0 <= i < j < |Outputs(req.op)| ==>
          Outputs(req.op)[i].path != Outputs(req.op)[j].path)
    && (req.ident.Some? ==> req.ident.value.ht == req.ht)
  }

  /** The grounds on which each kind of caller begins its commit. */
  ghost predicate ClientOk(s: State, req: Request) {
    match req.client
    case Direct =>
      && !req.op.Replace? && req.ranges == [] && req.lease.None?
      && (req.ident.Some? && req.ident.value.fp.Some? ==> req.ident.value.fp.value.ForeignDigest?)
    case MvReplica(r) =>
      && req.op.Add? && req.ranges == [] && req.lease.None?
      && r in s.replicas && s.replicas[r].REvent?
      && var e := s.replicas[r];
         && e.event in s.db.commits && s.db.commits[e.event].kind == KAdd
         && e.pipeline in s.cfg.pipelines
         && req.ht == s.cfg.pipelines[e.pipeline].target
         && req.ident == Some(EventIdentity(e.pipeline, s.cfg.pipelines[e.pipeline], e.event))
    case Ingester(w) =>
      && req.op.Add? && req.lease.None?
      && w in s.ingesters && s.ingesters[w].IRun?
      && req.ht == s.ingesters[w].ht
      && s.ingesters[w].buf != map[]
      && Drains(s.ingesters[w].buf, req.ranges)
      && req.ident == Some(Factory(req.ht, IngestDigest(Elements(req.ranges))))
      && req.starts == s.ingesters[w].from && req.took == s.ingesters[w].took
      && req.kept <= req.took && req.kept <= s.cfg.payload.Keys
      && multiset(Flatten(Files(s, req.op.outputs))) == MessageRows(s.cfg.payload, req.kept)
    case Merger =>
      && req.op.Replace? && req.ranges == [] && req.lease.Some?
      && req.op.inputs != []
      && (forall i :: i in req.op.inputs ==> i in s.db.parts)
      && req.ident.Some? && req.ident.value.fp.Some? && req.ident.value.fp.value.CompactDigest?
      && RewriteOf(InputFiles(s, req.op.inputs), Files(s, req.op.outputs))
    case Eraser(k) =>
      && req.op.Replace? && req.ranges == [] && req.lease.None?
      && req.op.inputs != []
      && (forall i :: i in req.op.inputs ==> i in s.db.parts)
      && req.ident == Some(Factory(req.ht, EraseDigest(k, Elements(req.op.inputs))))
      && Files(s, req.op.outputs) == KeptFiles(s, req.op.inputs, k)
  }

  /** A transaction past its fence holds the lease row. */
  predicate LeaseRowLocked(s: State, ht: Ht, partition: Partition) {
    exists t :: t in s.txns && s.txns[t].fencedAt.Some? && s.txns[t].req.lease.Some?
                && s.txns[t].req.lease.value.ht == ht && s.txns[t].req.lease.value.partition == partition
  }

  ghost predicate TxnEnabled(s: State, step: TxnStep) {
    match step
    case Begin(t, req) =>
      && t == s.nextTxn && t !in s.txns
      && (forall r :: r in s.readers ==> s.readers[r].ht != req.ht)
      && RequestOk(s, req) && ClientOk(s, req)
    case Lookup(t, _) => t in s.txns && s.txns[t].phase.Locked? && s.txns[t].req.lease.Some?
    case Check(t) =>
      && t in s.txns && s.txns[t].phase.Looked? && s.txns[t].req.lease.Some?
      && !LeaseRowLocked(s, s.txns[t].req.lease.value.ht, s.txns[t].req.lease.value.partition)
    case Alloc(t) =>
      && t in s.txns
      && ((s.txns[t].phase.Locked? && s.txns[t].req.lease.None?) || s.txns[t].phase.Fenced?)
    case Finish(t, _) => t in s.txns && s.txns[t].phase.Allocated?
    case Rollback(t) => t in s.txns
  }

  predicate FeedEnabled(s: State, step: FeedStep) {
    match step
    case FeedLock(r, ht, purpose) =>
      && r !in s.readers
      && (forall q :: q in s.readers ==> s.readers[q].ht != ht)
      && (forall t :: t in s.txns ==> s.txns[t].req.ht != ht)
      && (match purpose
          case ForReplica(x) =>
            x in s.replicas && s.replicas[x].RCursor? && s.replicas[x].pipeline in s.cfg.pipelines
            && ht == s.cfg.pipelines[s.replicas[x].pipeline].source
          case ForConsumer(c) => c in s.consumers && ht == s.consumers[c].ht
          case Register(p) => p in s.cfg.pipelines && ht == s.cfg.pipelines[p].source)
    case FeedRead(r) => r in s.readers
    case FeedAbort(r) => r in s.readers
    case Subscribe(c, _, _) => c !in s.consumers
    case Page(c, page) =>
      && c in s.consumers && s.consumers[c].head.Some?
      && IsPage(s.db, s.consumers[c].ht, s.consumers[c].cursor, s.consumers[c].head.value, page)
    case Persist(c, _) => c in s.consumers
    case PersistHead(c, _) => c in s.consumers && s.consumers[c].head.Some?
  }

  /** A page of `changes_since`: the oldest commits above `after` and at most
      `head`, in order, up to some limit. */
  predicate IsPage(db: Db, ht: Ht, after: CommitId, head: CommitId, page: seq<CommitId>) {
    && (forall i :: 0 <= i < |page| ==> page[i] in Feed(db, ht) && after < page[i] <= head)
    && (forall i, j :: 0 <= i < j < |page| ==> page[i] < page[j])
    && (forall c :: c in Feed(db, ht) && after < c <= head ==>
          c in page || forall i :: 0 <= i < |page| ==> page[i] < c)
    && (page == [] ==> forall c :: c in Feed(db, ht) ==> !(after < c <= head))
  }

  predicate LeaseEnabled(s: State, step: LeaseStep) {
    match step
    case Draw(a, _, _, _, ttl) => a !in s.acquires && ttl > 0
    case Install(a) => a in s.acquires && !LeaseRowLocked(s, s.acquires[a].ht, s.acquires[a].partition)
    case Renew(l, ttl) => ttl > 0 && !LeaseRowLocked(s, l.ht, l.partition)
    case Release(l) => !LeaseRowLocked(s, l.ht, l.partition)
  }

  predicate MvEnabled(s: State, step: MvStep) {
    match step
    case MvStart(r, p) =>
      && (r in s.replicas ==> s.replicas[r].RIdle?)
      && p in s.cfg.pipelines && (MvWorker(p), s.cfg.pipelines[p].source) in s.db.cursors
    case MvPage(r, page) =>
      && r in s.replicas && s.replicas[r].RHead? && s.replicas[r].pipeline in s.cfg.pipelines
      && |page| <= 1
      && IsPage(s.db, s.cfg.pipelines[s.replicas[r].pipeline].source,
                s.replicas[r].cursor, s.replicas[r].head, page)
    case MvSkip(r) =>
      && r in s.replicas && s.replicas[r].REvent?
      && s.replicas[r].event in s.db.commits && s.db.commits[s.replicas[r].event].kind != KAdd
    case MvCheckCursor(r) =>
      r in s.replicas && s.replicas[r].REvent? && s.replicas[r].pipeline in s.cfg.pipelines
    case MvCheckOperation(r) =>
      r in s.replicas && s.replicas[r].REvent? && s.replicas[r].pipeline in s.cfg.pipelines
    case MvAdvance(r) =>
      r in s.replicas && s.replicas[r].RReady? && s.replicas[r].pipeline in s.cfg.pipelines
    case MvCrash(r) => r in s.replicas
  }

  predicate IngestEnabled(s: State, step: IngestStep) {
    match step
    case Connect(w, _) => w in s.ingesters ==> s.ingesters[w].IOff?
    case Receive(w, tp, o) =>
      && w in s.ingesters && s.ingesters[w].IRun?
      && o in Msgs(s, tp)
      && tp in s.ingesters[w].pos
      && s.ingesters[w].pos[tp] <= o
      && (forall m :: m in Msgs(s, tp) && m < o ==> m < s.ingesters[w].pos[tp])
    case IngestCrash(w) => w in s.ingesters
    case KafkaAppend(tp, o) => LogEnd(s, tp) <= o
    case KafkaRemove(tp, o) => o in Msgs(s, tp)
  }

  predicate ObjectEnabled(s: State, step: ObjectStep) {
    match step
    case RegisterPath(p, _) => p !in s.registered
    case Put(p, _) => p in s.registered && p !in s.content
  }

  predicate GcEnabled(s: State, step: GcStep) {
    match step
    case ReapFetch(g, ht, p) =>
      (g in s.gcs ==> s.gcs[g].GIdle?) && Reapable(s.db, s.now, s.cfg.tombstoneGrace, ht, p)
    case ReapDelete(g) => g in s.gcs && s.gcs[g].GReap? && s.gcs[g].part in s.db.parts
    case ReapMark(g) => g in s.gcs && s.gcs[g].GReaped? && s.gcs[g].part in s.db.parts
    case SweepFetch(g, p) =>
      (g in s.gcs ==> s.gcs[g].GIdle?) && Orphaned(s.db, s.now, s.cfg.orphanGrace, p)
    case SweepDelete(g) => g in s.gcs && s.gcs[g].GSweep?
    case SweepClear(g) => g in s.gcs && s.gcs[g].GSwept?
    case GcCrash(g) => g in s.gcs
  }

  ghost predicate Enabled(s: State, step: Step) {
    match step
    case TxnS(t) => TxnEnabled(s, t)
    case FeedS(f) => FeedEnabled(s, f)
    case LeaseS(l) => LeaseEnabled(s, l)
    case MvS(m) => MvEnabled(s, m)
    case IngestS(i) => IngestEnabled(s, i)
    case ObjectS(o) => ObjectEnabled(s, o)
    case GcS(g) => GcEnabled(s, g)
    case Tick => true
  }

  // ---------------------------------------------------------------- effects

  /** The answer of transaction `t` reaches the replica that is waiting for it. */
  function AnswerReplica(replicas: map<nat, Replica>, client: Client, t: nat, ok: bool): map<nat, Replica> {
    if client.MvReplica? && client.replica in replicas && replicas[client.replica].RPublish?
       && replicas[client.replica].txn == t then
      var r := replicas[client.replica];
      replicas[client.replica := if ok then RReady(r.pipeline, r.cursor, r.event) else RIdle]
    else replicas
  }

  /** The answer of transaction `t` reaches the ingest worker that is waiting for it. */
  function AnswerIngester(ingesters: map<nat, IngestState>, client: Client, t: nat, ok: bool)
    : map<nat, IngestState>
  {
    if client.Ingester? && client.worker in ingesters && ingesters[client.worker].IFlush?
       && ingesters[client.worker].txn == t then
      var w := ingesters[client.worker];
      ingesters[client.worker := if ok then IRun(w.ht, w.pos, w.pos, map[], {}) else IOff]
    else ingesters
  }

  /** Transaction `t` is over and its caller is told `ok` (or hears of a failure). */
  function Answer(s: State, t: nat, ok: bool): State
    requires t in s.txns
  {
    s.(txns := s.txns - {t},
       replicas := AnswerReplica(s.replicas, s.txns[t].req.client, t, ok),
       ingesters := AnswerIngester(s.ingesters, s.txns[t].req.client, t, ok))
  }

  /** The rows of a list of parts. */
  function RowsOfParts(s: State, ids: seq<PartId>): multiset<Row> {
    if ids == [] then multiset{}
    else (if ids[0] in s.db.parts then multiset(RowsAt(s.content, s.db.parts[ids[0]].meta.path)) else multiset{})
         + RowsOfParts(s, ids[1..])
  }

  /** The rows of key `k` in a list of parts. */
  function KeyRowsOfParts(s: State, ids: seq<PartId>, k: int): multiset<Row> {
    if ids == [] then multiset{}
    else (if ids[0] in s.db.parts then Erased(RowsAt(s.content, s.db.parts[ids[0]].meta.path), k) else multiset{})
         + KeyRowsOfParts(s, ids[1..], k)
  }

  /** The rows a committed request brings in, and the rows it takes away for good. */
  function AddedBy(s: State, req: Request): multiset<Row> {
    if req.op.Add? then multiset(Flatten(Files(s, req.op.outputs))) else multiset{}
  }

  function ErasedBy(s: State, req: Request): multiset<Row> {
    if req.client.Eraser? && req.op.Replace? then KeyRowsOfParts(s, req.op.inputs, req.client.key)
    else if req.op.Delete? then RowsOfParts(s, req.op.inputs)
    else multiset{}
  }

  function Record(s: State, req: Request): History {
    s.hist.(added := s.hist.added[req.ht := RowsOf(s.hist.added, req.ht) + AddedBy(s, req)],
            erased := s.hist.erased[req.ht := RowsOf(s.hist.erased, req.ht) + ErasedBy(s, req)],
            flushed := s.hist.flushed + seq(|req.ranges|, i requires 0 <= i < |req.ranges| => (req.ht, req.ranges[i])),
            intakes := s.hist.intakes + (if req.client.Ingester? then [Intake(req.ht, req.took, req.kept)] else []))
  }

  function BodyOf(s: State, t: nat): (Outcome, Db)
    requires t in s.txns && s.txns[t].phase.Allocated?
  {
    var x := s.txns[t];
    Body(s.db, x.phase.id, x.req.ht, x.req.op, x.req.ident, x.req.ranges, x.startedAt)
  }

  function TxnNext(s: State, step: TxnStep): State
    requires TxnEnabled(s, step)
  {
    match step
    case Begin(t, req) =>
      s.(txns := s.txns[t := Txn(req, s.now, None, Locked)],
         nextTxn := t + 1,
         claimed := s.claimed + Paths(Outputs(req.op)),
         replicas := if req.client.MvReplica? then
                       var e := s.replicas[req.client.replica];
                       s.replicas[req.client.replica := RPublish(e.pipeline, e.cursor, e.event, t)]
                     else s.replicas,
         ingesters := if req.client.Ingester? then
                        var w := s.ingesters[req.client.worker];
                        s.ingesters[req.client.worker := IFlush(w.ht, w.pos, t)]
                      else s.ingesters)
    case Lookup(t, ack) =>
      var x := s.txns[t];
      var prior := Prior(s.db, x.req.ident);
      if prior.Err? then Answer(s, t, false)
      else if prior.value.Some? then Answer(s, t, ack)
      else s.(txns := s.txns[t := x.(phase := Looked)])
    case Check(t) =>
      var x := s.txns[t];
      if Fence(s.db, s.now, x.req.ht, x.req.lease.value, x.req.op).Some? then Answer(s, t, false)
      else s.(txns := s.txns[t := x.(phase := Fenced, fencedAt := Some(s.now))])
    case Alloc(t) =>
      s.(txns := s.txns[t := s.txns[t].(phase := Allocated(s.commitSeq))], commitSeq := s.commitSeq + 1)
    case Finish(t, ack) =>
      var (o, db) := BodyOf(s, t);
      Answer(s, t, ack && Landed(o)).(
        db := db,
        hist := if o.Committed? then Record(s, s.txns[t].req) else s.hist)
    case Rollback(t) => Answer(s, t, false)
  }

  ghost function FeedNext(s: State, step: FeedStep): State
    requires FeedEnabled(s, step)
  {
    match step
    case FeedLock(r, ht, purpose) =>
      s.(readers := s.readers[r := Reader(ht, purpose)],
         replicas := if purpose.ForReplica? then
                       var x := s.replicas[purpose.replica];
                       s.replicas[purpose.replica := RWaiting(x.pipeline, x.cursor)]
                     else s.replicas)
    case FeedRead(r) =>
      var ht := s.readers[r].ht;
      var h := Head(s.db, ht);
      var s1 := s.(readers := s.readers - {r},
                   hist := s.hist.(heads := s.hist.heads[ht := if h > HeadOf(s.hist, ht) then h else HeadOf(s.hist, ht)]));
      (match s.readers[r].purpose
       case ForReplica(x) =>
         if x in s.replicas && s.replicas[x].RWaiting? && s.replicas[x].pipeline in s.cfg.pipelines
            && s.cfg.pipelines[s.replicas[x].pipeline].source == ht
         then s1.(replicas := s.replicas[x := RHead(s.replicas[x].pipeline, s.replicas[x].cursor, h)])
         else s1
       case ForConsumer(c) =>
         if c in s.consumers && s.consumers[c].ht == ht
         then s1.(consumers := s.consumers[c := s.consumers[c].(head := Some(h))]) else s1
       case Register(p) =>
         if (MvWorker(p), ht) in s.db.cursors then s1
         else s1.(db := s.db.(cursors := s.db.cursors[(MvWorker(p), ht) := h]),
                  hist := s1.hist.(mvInit := s.hist.mvInit[p := h])))
    case FeedAbort(r) => s.(readers := s.readers - {r})
    case Subscribe(c, ht, name) =>
      var after := if (Named(name), ht) in s.db.cursors then s.db.cursors[(Named(name), ht)] else 0;
      s.(consumers := s.consumers[c := Consumer(ht, after, after, None, [])])
    case Page(c, page) =>
      var x := s.consumers[c];
      s.(consumers := s.consumers[c :=
           x.(cursor := if page == [] then x.cursor else page[|page| - 1], head := None, seen := x.seen + page)])
    case Persist(c, name) =>
      s.(db := s.db.(cursors := SetCursor(s.db.cursors, Named(name), s.consumers[c].ht, s.consumers[c].cursor)))
    case PersistHead(c, name) =>
      s.(db := s.db.(cursors := SetCursor(s.db.cursors, Named(name), s.consumers[c].ht, s.consumers[c].head.value)))
  }

  function LeaseNext(s: State, step: LeaseStep): State
    requires LeaseEnabled(s, step)
  {
    match step
    case Draw(a, ht, partition, owner, ttl) =>
      s.(acquires := s.acquires[a := Acquire(ht, partition, owner, ttl, s.genSeq)], genSeq := s.genSeq + 1)
    case Install(a) =>
      var q := s.acquires[a];
      var (got, leases) := InstallLease(s.db.leases, s.now, q.ht, q.partition, q.owner, q.drawn, q.ttl);
      s.(acquires := s.acquires - {a},
         db := s.db.(leases := leases),
         hist := if got.Some? && got.value.generation == q.drawn
                 then s.hist.(tenancies := s.hist.tenancies[q.drawn := got.value]) else s.hist)
    case Renew(l, ttl) => s.(db := s.db.(leases := RenewLease(s.db.leases, s.now, l, ttl).1))
    case Release(l) => s.(db := s.db.(leases := ReleaseLease(s.db.leases, l).1))
  }

  function MvNext(s: State, step: MvStep): State
    requires MvEnabled(s, step)
  {
    match step
    case MvStart(r, p) =>
      s.(replicas := s.replicas[r := RCursor(p, s.db.cursors[(MvWorker(p), s.cfg.pipelines[p].source)])])
    case MvPage(r, page) =>
      var x := s.replicas[r];
      s.(replicas := s.replicas[r := if page == [] then RIdle else REvent(x.pipeline, x.cursor, page[0])])
    case MvSkip(r) =>
      var x := s.replicas[r];
      s.(replicas := s.replicas[r := RReady(x.pipeline, x.cursor, x.event)])
    case MvCheckCursor(r) =>
      var x := s.replicas[r];
      var k := (MvWorker(x.pipeline), s.cfg.pipelines[x.pipeline].source);
      if k in s.db.cursors && s.db.cursors[k] >= x.event then s.(replicas := s.replicas[r := RIdle]) else s
    case MvCheckOperation(r) =>
      var x := s.replicas[r];
      var prior := Reconcile(s.db, EventIdentity(x.pipeline, s.cfg.pipelines[x.pipeline], x.event));
      if prior.Err? then s.(replicas := s.replicas[r := RIdle])
      else if prior.value.Some? then s.(replicas := s.replicas[r := RReady(x.pipeline, x.cursor, x.event)])
      else s
    case MvAdvance(r) =>
      var x := s.replicas[r];
      s.(db := s.db.(cursors := SetCursor(s.db.cursors, MvWorker(x.pipeline),
                                          s.cfg.pipelines[x.pipeline].source, x.event)),
         replicas := s.replicas[r := RIdle])
    case MvCrash(r) => s.(replicas := s.replicas[r := RIdle])
  }

  function IngestNext(s: State, step: IngestStep): State
    requires IngestEnabled(s, step)
  {
    match step
    case Connect(w, ht) =>
      var pos := map tp | tp in s.kafka :: Stored(s.db.offsets, ht, tp);
      s.(ingesters := s.ingesters[w := IRun(ht, pos, pos, map[], {})])
    case Receive(w, tp, o) =>
      var x := s.ingesters[w];
      s.(ingesters := s.ingesters[w :=
           x.(pos := x.pos[tp := o + 1],
              buf := x.buf[tp := Span(if tp in x.buf then x.buf[tp].first else o, o)],
              took := x.took + {(tp, o)})])
    case IngestCrash(w) => s.(ingesters := s.ingesters[w := IOff])
    case KafkaAppend(tp, o) => s.(kafka := s.kafka[tp := Log(Msgs(s, tp) + {o}, o + 1)])
    case KafkaRemove(tp, o) => s.(kafka := s.kafka[tp := Log(Msgs(s, tp) - {o}, LogEnd(s, tp))])
  }

  function ObjectNext(s: State, step: ObjectStep): State
    requires ObjectEnabled(s, step)
  {
    match step
    case RegisterPath(p, ht) =>
      s.(registered := s.registered + {p}, db := s.db.(pending := s.db.pending[p := Pending(ht, s.now)]))
    case Put(p, rows) => s.(content := s.content[p := rows], store := s.store + {p})
  }

  function GcNext(s: State, step: GcStep): State
    requires GcEnabled(s, step)
  {
    match step
    case ReapFetch(g, _, p) => s.(gcs := s.gcs[g := GReap(p)])
    case ReapDelete(g) =>
      var p := s.gcs[g].part;
      s.(gcs := s.gcs[g := GReaped(p)],
         store := s.store - {s.db.parts[p].meta.path},
         hist := s.hist.(reaped := s.hist.reaped + {p}))
    case ReapMark(g) =>
      var p := s.gcs[g].part;
      s.(gcs := s.gcs[g := GIdle],
         db := s.db.(parts := s.db.parts[p := s.db.parts[p].(purged := true)]))
    case SweepFetch(g, p) => s.(gcs := s.gcs[g := GSweep(p)])
    case SweepDelete(g) =>
      var p := s.gcs[g].path;
      s.(gcs := s.gcs[g := GSwept(p)], store := s.store - {p}, hist := s.hist.(swept := s.hist.swept + {p}))
    case SweepClear(g) =>
      s.(gcs := s.gcs[g := GIdle], db := s.db.(pending := s.db.pending - {s.gcs[g].path}))
    case GcCrash(g) => s.(gcs := s.gcs[g := GIdle])
  }

  ghost function Next(s: State, step: Step): State
    requires Enabled(s, step)
  {
    match step
    case TxnS(t) => TxnNext(s, t)
    case FeedS(f) => FeedNext(s, f)
    case LeaseS(l) => LeaseNext(s, l)
    case MvS(m) => MvNext(s, m)
    case IngestS(i) => IngestNext(s, i)
    case ObjectS(o) => ObjectNext(s, o)
    case GcS(g) => GcNext(s, g)
    case Tick => s.(now := s.now + 1)
  }

  // ---------------------------------------------------------------- runs

  /** A run: a sequence of states, each one step after the one before. */
  ghost predicate IsRun(run: seq<State>, steps: seq<Step>) {
    && |run| == |steps| + 1
    && Init(run[0])
    && forall i :: 0 <= i < |steps| ==> Enabled(run[i], steps[i]) && run[i + 1] == Next(run[i], steps[i])
  }
}
