# Verification of Ukiel

Ukiel is a data lake whose transaction layer is a Postgres catalog. Ingest workers,
compactors, key deletion, materialized views and the garbage collector run independently,
possibly duplicated or crashed, and meet only at that catalog. This project models the
catalog protocol, the streaming rewrite engine, the pruning stack and the pure algorithms
around them in Dafny, and proves what they promise.

Verify with `dafny verify --resource-limit 2000000 dfyconfig.toml`.

## How it is built

* `Base`, `Rows`, `Sorting`: containers, rows under the sort key, stable sort.
* `Tables`: the catalog tables and the meaning of each statement and transaction body.
* `Machine`: one state machine over the tables, the transactions in flight, the feed
  readers, leases, workers, Kafka logs and the object store. A step is one statement, one
  message, one object request or one clock tick, so a run is any interleaving of any number
  of workers that crash, duplicate work, read stale state or lose acknowledgements.
* `Meaning`: what each statement answers and when, said of the tables alone, with no
  reference to how the statement computes it.
* `Frames`, `Wellformed`, `FeedProof`, `MvProof`, `IngestProof`, `IntakeProof`, `LeaseProof`,
  `GcProof`, `ContentProof`: which part of the state each family of steps touches, and the invariants.
* `Runs`, `StoreProof`, `Origins`, `Theorems`: the invariants over whole runs, the object
  store against the catalog file by file, and the guarantees of the protocol.
* `Witnesses`, `Passages`: runs that show which conditions the guarantees need, and runs that
  get all the way, so that no guarantee holds for want of anything happening.
* `Catalog`, `Refinement`, `Workers`: the catalog, the collector, a view attempt and the
  ingest buffer as programs that change state, proved against `Tables` and `Meaning`, and the
  link between an uninterrupted call and the machine's steps.
* `Merge`, `Stats`, `ChunkWriter`, `Encoding`, `Rewrite`, `Deletion`: the K-way merge, the
  file writer for an arbitrary encoded-size function, the one-batch writer, and the erasure
  of a key.
* `KeyFilter`, `Pruning`, `Indexing`: the Bloom filter in both its forms, the pruned scan,
  and why what the writers record is sound to prune by.
* `Canonical`, `CanonicalProof`, `Identities`: operation identities.
* `Ladder`, `Sweep`, `Dag`: the compaction ladder, the rotating candidate window, the
  pipeline graph.

## Assumptions

* PostgreSQL behaves as sections 13.2.1 (Read Committed) and 13.3.5 (Advisory Locks) of its
  documentation say: a statement reads what was committed when it starts, and shared and
  exclusive holders of one advisory lock exclude each other until their transactions end.
  Row locks let a transaction's checks be read at its commit point. Sequences hand out each
  value once, in order.
* The operation hash is injective: a fingerprint is represented by the intent it digests.
  The key-set codec is a set or bytes that fail to decode.
* What row a message at an offset of a topic partition holds does not change, and is the same
  for every worker that reads it.
* Upload paths are fresh. Callers name parts they read and files they uploaded, with key
  ranges that bracket the rows; `ChunkWriter` and `Deletion` prove that of the writers.
* No run is assumed to be timely. Where a guarantee about an object depends on timing, it is
  the timing of that part's own commit (`StoreProof.CommitsInTime`) or of that file's own
  upload (`GcProof.Young`), within the orphan grace of its intent's registration.

## Findings

* `crates/ukiel-core/src/stats.rs:11-15` says every ambiguous state of the index data keeps
  the part. For column entries it does not: one that is present but empty, null or not an
  object makes the range clause of `crates/ukiel-catalog/src/parts.rs:211-223` NULL, and the
  part is dropped with the answers it holds (`Pruning.EmptyEntryLosesRows`). Pruning is exact
  if and only if, in each part that holds an answer, every bounded column's entry is absent or
  carries the integers the bounds need (`Pruning.PrunedEqualsFullIff`).
* The writers themselves reach that case. Column statistics and the key index share one JSON
  object, and nothing keeps a table from having an integer column named `packing_keys` or
  `key_row_groups`. In a multi-key part the index entry then replaces that column's
  statistics, and a bound on the column drops the part; the isolation filter above the scan
  cannot bring the rows back. For written parts the exact condition is `Indexing.Harmless`: no
  bound on `key_row_groups` unless no row answers the query, and none on `packing_keys` unless
  no row with a key from zero up does, since a part with a negative key carries no key set
  (`Indexing.ExactIffHarmless`).
* An erasure rewrites each part at its own level under one commit, so a commit may have live
  parts at several levels. A later merge can then leave the number of live commits where it
  was (`Ladder.CommitCountMayStay`); what every merge lowers is the number of distinct
  (level, commit) pairs (`Ladder.CompactionShrinks`).
* A lease may lapse between the fence and the commit of one transaction; the row lock keeps a
  successor out, so the commit is safe, but "unexpired" holds at the fence, not at the commit
  (`Witnesses.LeaseMayLapseAfterTheFence`).
* The sweep window is fairer than one might expect: a partition that stays claimable is
  offered within ceil(|U|/limit) + 1 passes.
* `extract_int64_ranges` adds and subtracts one without an overflow check. With wrap-around
  the bounds stay safe (`Pruning.AnswersAreAdmitted`).

## Model

| member | source | states |
|---|---|---|
| Catalog.Store.CommitTxn | crates/ukiel-catalog/src/commit.rs:163-326 | Over the tables as they stood: committed exactly when the key is free, the lease guards the request, its inputs are distinct live parts and every range finds its position at or before its first offset, and each other answer exactly on its own ground in the source's order; a commit leaves its own row with the operation's kind, its tombstones, parts, dropped intents and positions, and nothing else; any other answer leaves every table as it was |
| Catalog.Store.RunBody | crates/ukiel-catalog/src/commit.rs:214-292 | From the commit row to the commit point: replay and failure leave every table as it was, success leaves exactly the tables of `Tables.Body` |
| Catalog.Store.InsertAll | crates/ukiel-catalog/src/commit.rs:492-526 | The part-by-part loop appends exactly the outputs under fresh ids and drops exactly their upload intents |
| Catalog.Store.TombstoneAll | crates/ukiel-catalog/src/commit.rs:531-556 | Succeeds exactly on distinct live parts of the hypertable, stamps exactly those and changes nothing else of any part; a short match is a conflict that changes nothing |
| Tables.MatchedAll | crates/ukiel-catalog/src/commit.rs:531-556 | The row-count test passes if and only if the ids are distinct and each names a live part of this hypertable |
| Catalog.Store.AdvanceAll | crates/ukiel-catalog/src/commit.rs:259-292 | Succeeds exactly when every range's position is absent or at or before its first offset; then each partition named stands just past its last range and every other where it was; a failure names the first range that does not fit |
| Tables.AdvanceOffsetsMonotone | crates/ukiel-catalog/src/commit.rs:259-292 | A successful loop never moves a position back, reaches past every range, and touches no other hypertable |
| Meaning.AdvanceMeans | crates/ukiel-catalog/src/commit.rs:259-292 | For any list of ranges: accepted if and only if each finds its partition, behind the nearest earlier range of it or at the stored position, at or before its first offset; then exactly the named partitions move, each to the end of its last range; otherwise the first that does not fit is named |
| Meaning.DistinctAdvance | crates/ukiel-catalog/src/commit.rs:259-292 | For ranges of different partitions: accepted if and only if every stored position is absent or at or before its range's first offset; then each stands at its last offset plus one |
| Meaning.ReconcileMeans | crates/ukiel-catalog/src/commit.rs:363-381 | Against the commits themselves: absent exactly when no commit of the hypertable has the key, replayed exactly when one has it under this fingerprint, a collision exactly when its fingerprint is unknown or other |
| Meaning.CommitMeans | crates/ukiel-catalog/src/commit.rs:163-326 | The exact ground of every answer of a commit, and the order in which grounds count |
| Meaning.PlainCommit | crates/ukiel-catalog/src/commit.rs:214-292 | An unleased request commits if and only if its key is free, its inputs are distinct live parts and no stored position has passed the start of its range |
| Meaning.CommitLeavesExactly | crates/ukiel-catalog/src/commit.rs:163-326 | What a commit leaves in each table, row by row, stored kind included, and that nothing else moves; anything but a commit leaves the tables alone |
| Wellformed.BodyCommits | crates/ukiel-catalog/src/commit.rs:163-326 | What a committing body leaves in each table, and that all its inputs were live and distinct |
| Wellformed.BodyDeclines | crates/ukiel-catalog/src/commit.rs:214-292 | Anything but a commit changes no table |
| LeaseProof.FencePasses | crates/ukiel-catalog/src/commit.rs:402-466 | A passed fence means: same hypertable, token in the row, unexpired, a REPLACE whose inputs and outputs all lie in the leased partition |
| LeaseProof.FenceRefuses | crates/ukiel-catalog/src/commit.rs:402-466 | The converse: any of these missing and the fence refuses |
| Meaning.FenceMeans | crates/ukiel-catalog/src/commit.rs:402-466 | Passes if and only if the token is in its unexpired row and the operation replaces distinct parts of the partition by parts of it; which of the two refusals otherwise |
| Catalog.Store.TryAcquire | crates/ukiel-catalog/src/leases.rs:89-125 | A zero TTL is refused. Otherwise one generation is drawn, and the answer is none, with every row as it was, exactly while the row is unexpired and another's; else the token holds for exactly the times before now plus TTL, under the old generation only in the owner's own unexpired row, and other rows stand |
| Meaning.InstallMeans | crates/ukiel-catalog/src/leases.rs:89-125 | The conditional upsert: declined exactly while the row is another's and unexpired |
| Catalog.Store.Renew | crates/ukiel-catalog/src/leases.rs:133-157 | A zero TTL is refused; succeeds exactly for the token in its unexpired row, which it then holds for exactly the times before now plus TTL; no row changes owner or generation, appears or goes |
| Catalog.Store.Release | crates/ukiel-catalog/src/leases.rs:163-180 | Deletes exactly the row that has this owner and generation; afterwards the token holds nothing at any time, every other row stands, and a stale token leaves its successor's row |
| Catalog.Store.StoreCursor | crates/ukiel-catalog/src/cursors.rs:35-54 | The cursor ends at the given id or stays where it was further on; no cursor retreats and no other moves |
| Catalog.Store.FeedHead | crates/ukiel-catalog/src/feed.rs:8-48 | The greatest committed id of the hypertable, 0 when there is none |
| Catalog.Store.ChangesSince | crates/ukiel-catalog/src/feed.rs:55-99 | A page: the oldest commits above the cursor and at most the head, in order, each with exactly the parts it created and tombstoned; a page that is not full misses nothing |
| Catalog.Store.EnsureMvCursor | crates/ukiel-catalog/src/pipelines.rs:272-303 | An unknown pipeline and one without a source table are refused and store nothing; first registration stores the head read; a later one returns the stored cursor unchanged |
| Catalog.Store.NextReapable | crates/ukiel-catalog/src/gc.rs:51-75 | The least part whose deleting commit is at least the grace old and at or below every cursor of its table, tombstoned and unpurged; with none returned every tombstoned unpurged part is younger than that or ahead of a cursor |
| Meaning.ReapableMeans | crates/ukiel-catalog/src/gc.rs:51-75 | Reapable exactly when tombstoned and unpurged, by a commit at least the grace old, at or below every cursor of the table |
| Catalog.Store.NextOrphan | crates/ukiel-catalog/src/gc.rs:79-94 | The least path of the table whose intent is at least the grace old; with none returned every intent is younger |
| Catalog.Store.MarkPurged | crates/ukiel-catalog/src/gc.rs:96-103 | Stamps exactly the named parts; no part appears, goes or changes otherwise |
| Catalog.Store.RegisterPending | crates/ukiel-catalog/src/gc.rs:137-155 | Every path is on record afterwards and a path already on record keeps its age |
| Catalog.Store.ClearPending | crates/ukiel-catalog/src/gc.rs:177-187 | Drops exactly the named intents; every other keeps its row |
| Catalog.Gc.Reap | crates/ukiel-gc/src/lib.rs:103-131 | A pass deletes and stamps only parts whose tombstone is at least the grace old and behind every cursor, and changes nothing else; it ends with none such left, or at a part whose delete failed |
| Catalog.Gc.Sweep | crates/ukiel-gc/src/lib.rs:137-162 | A pass deletes and clears only intents at least the grace old and changes nothing else; it ends with none such left, or at a failed delete |
| Refinement.UnleasedCommitRefines | crates/ukiel-catalog/src/commit.rs:163-326 | An uninterrupted commit of the program is the machine's begin, draw, finish: same answer, same tables, same id |
| Refinement.LeasedCommitRefines | crates/ukiel-catalog/src/commit.rs:163-326 | The same for a leased commit with its lookup and fence, including where it stops early |
| Refinement.AcquireRefines | crates/ukiel-catalog/src/leases.rs:89-125 | An acquire of the program is the machine's draw and installation, with the row taken exactly when free, expired or the owner's own |
| Refinement.ReapRefines | crates/ukiel-gc/src/lib.rs:103-131 | A turn of the reaping loop is the machine's fetch, delete and mark, enabled for exactly the due parts |
| Refinement.SweepRefines | crates/ukiel-gc/src/lib.rs:137-162 | A turn of the sweeping loop is the machine's fetch, delete and clear, enabled for exactly the intents past their grace |
| Refinement.RegisterRefines | crates/ukiel-catalog/src/pipelines.rs:272-303 | The machine's registration stores the head of the source the first time and nothing later |
| Refinement.SkipRefines | crates/ukiel-mv/src/lib.rs:296-299 | The machine's view skips an event that is no ADD and moves its cursor to it |
| Refinement.MergeMayBegin | crates/ukiel-compactor/src/compactor.rs:663-752 | Any rewrite of existing parts into uploaded files of their own may be committed under a lease, so the machine leaves out no merge the engine can produce |
| Refinement.EraserMayBegin | crates/ukiel-compactor/src/deletion.rs:32-140 | The same for the rewritten files of any erasure |
| Refinement.CheckRefines | crates/ukiel-mv/src/lib.rs:270-294 | The machine's completion check answers as the commits themselves say |
| Runs.StepKeeps | crates/ukiel-catalog/src/commit.rs:163-326 | Every step of every worker keeps every invariant, and everything settled before it stays settled |
| Runs.RunInv | crates/ukiel-catalog/src/commit.rs:163-326 | Every state of every run satisfies every invariant |
| Runs.RunLasts | crates/ukiel-catalog/src/commit.rs:163-326 | Between any two states of a run: commits, keys, part identities and tombstones persist, cursors, offsets and heads only grow, the feed below a head is fixed, a lost token stays lost |
| Wellformed.Keeps | crates/ukiel-catalog/src/commit.rs:214-257 | Ids come from the sequence, the unique index and the keyed rows name each other, a part's deleter is younger than its creator and of its own hypertable |
| FeedProof.FinishKeepsFeed | crates/ukiel-catalog/src/commit.rs:185-226 | A commit lands above every head ever handed out for its hypertable |
| FeedProof.FeedKeepsFeed | crates/ukiel-catalog/src/feed.rs:8-48 | Handing out a head keeps: no drawn id of the hypertable is at or below it, no cursor is above it, every consumer has seen exactly its range |
| MvProof.FinishKeepsMv | crates/ukiel-catalog/src/commit.rs:214-244 | A commit or a replay that answers a view means the event's identity is committed in the target |
| MvProof.MvKeepsMv | crates/ukiel-mv/src/lib.rs:259-294 | Every view step, stale or crashed, keeps: each cursor has only completed events behind it |
| MvProof.FeedKeepsMv | crates/ukiel-catalog/src/pipelines.rs:272-303 | First registration at the barrier starts a view with nothing skipped; other head reads leave views as they are |
| IngestProof.IngestKeepsIngest | crates/ukiel-ingest/src/consumer.rs:218-323 | Connects, receives over offset gaps, crashes and log compaction keep: a buffered range follows the stored position with no message in between |
| IngestProof.FinishKeepsIngest | crates/ukiel-catalog/src/commit.rs:259-292 | A commit appends ranges disjoint from and above all earlier ones, and leaves no message below the position uncovered |
| IntakeProof.RunIntake | crates/ukiel-ingest/src/consumer.rs:269-412 | In every state of every run the committed flushes took disjoint sets of messages, exactly the existing ones of their offset ranges |
| LeaseProof.LeaseKeepsLease | crates/ukiel-catalog/src/leases.rs:89-180 | Acquire, renew and release keep: every row's tenancy is on record under its own generation, and no fenced transaction's row moves |
| GcProof.GcKeepsFence | crates/ukiel-catalog/src/gc.rs:51-75 | A reaper's candidate, and every reaped part, has its deletion behind every registered view cursor |
| GcProof.PassedStays | crates/ukiel-catalog/src/pipelines.rs:272-303 | A view that registers after a reaper fetched its candidate starts past the candidate's deletion |
| StoreProof.RunYoung | crates/ukiel-gc/src/lib.rs:137-162 | In every run, whatever its timing: an upload whose intent is within its grace is stored, and no sweeper holds its path |
| StoreProof.StepKeepsHeld | crates/ukiel-gc/src/lib.rs:103-162 | No step of any worker takes the object of a part that no sweeper had fetched, except the reaping of that part |
| StoreProof.StepKeepsCovered | crates/ukiel-gc/src/lib.rs:103-162 | An object once owned, or on record with nobody about to clear it, stays on record or owned for as long as it is stored, through every step |
| ContentProof.TombstoneMany | crates/ukiel-catalog/src/commit.rs:531-556 | Tombstoning distinct live parts takes away exactly their rows, and none from another hypertable |
| ContentProof.InsertMany | crates/ukiel-catalog/src/commit.rs:492-526 | Registering parts adds exactly the rows of their files |
| ContentProof.ErasureSplits | crates/ukiel-compactor/src/deletion.rs:61-77 | The rows of the parts a deletion read are the rows it rewrote plus the key's rows, parts dropped unread included |
| Theorems.FeedHeadIsFinal | crates/ukiel-catalog/src/feed.rs:31-48 | Once a head is returned, no commit at or below it becomes visible in any later state of any run |
| Theorems.ConsumerSeesEachEventOnce | crates/ukiel-catalog/src/feed.rs:50-99 | A paging consumer has seen, in increasing order, exactly the events between its start and its cursor, including any that later states hold |
| Theorems.CursorNeverPassesUnapplied | crates/ukiel-mv/src/lib.rs:296-422 | No view cursor is ever at or past a source ADD beyond its registration whose identity is not committed in the target |
| Theorems.OneTargetCommitPerAdd | crates/ukiel-mv/src/lib.rs:296-422 | A source ADD yields at most one target commit, and every target commit of a view comes from one ADD past the registration |
| Origins.RunOrigins | crates/ukiel-mv/src/lib.rs:302-310 | Every commit that carries a view's fingerprint has that view's target, its factory key, and an ADD of its source |
| Theorems.ReapedSourceIsCompleted | crates/ukiel-mv/src/lib.rs:319-339 | A view whose source part was reaped finds its cursor past the event, so the completion check succeeds |
| Theorems.MissingSourceIsCompleted | crates/ukiel-mv/src/lib.rs:319-339 | The same holds of any source part that itself committed within its grace and whose object is missing |
| Theorems.IngestExactlyOnce | crates/ukiel-catalog/src/commit.rs:259-292 | Committed offset ranges of a topic partition are pairwise disjoint, every existing message below the stored position lies in one, and the position never decreases |
| Theorems.EachMessageTakenOnce | crates/ukiel-ingest/src/consumer.rs:269-412 | Every message below the stored position that is still in the log was taken in by a committed flush, and no message by two |
| Theorems.IngestedRowsExactlyOnce | crates/ukiel-ingest/src/consumer.rs:325-412 | A committed flush adds precisely the rows of the messages it kept, each of which it took and no other flush of the hypertable ever takes |
| Theorems.ErasureIsComplete | crates/ukiel-compactor/src/deletion.rs:32-140 | From the commit of an erasure on, the visible rows of its key are at most those added after it read: nothing visible then survives in any part, a concurrent merge's output included |
| Theorems.ErasureReachesEveryPart | crates/ukiel-compactor/src/deletion.rs:32-140 | Part by part: no part there when the erasure read, and none it wrote, shows a row of the key after its commit |
| ContentProof.SelectedHoldTheKey | crates/ukiel-catalog/src/parts.rs:136-154 | The live parts whose key range contains a key hold every live row of it |
| Theorems.ContentConserved | crates/ukiel-compactor/src/compactor.rs:663-752 | In every state the rows of the live parts are those of the committed ADDs less those removed by committed deletions |
| Theorems.OnlyCommitsMoveRows | crates/ukiel-catalog/src/commit.rs:163-326 | Every other step of every worker leaves the visible rows of every hypertable alone |
| Theorems.CommitMovesExactly | crates/ukiel-compactor/src/deletion.rs:32-140 | A committed ADD adds its rows, a merge moves none, an erasure removes exactly the key's rows of the parts it read, other hypertables see nothing |
| Theorems.NoPartReplacedTwice | crates/ukiel-catalog/src/commit.rs:531-556 | Of all committed operations of a run, at most one tombstones a given part |
| Theorems.OneCommitPerKey | crates/ukiel-catalog/src/commit.rs:214-244 | At most one commit exists per hypertable and operation key |
| Theorems.CommittedIsFinal | crates/ukiel-catalog/src/commit.rs:108-124 | A `Committed` lookup names a commit with exactly this key and fingerprint, and every later lookup repeats it |
| Theorems.CollisionIsFinal | crates/ukiel-catalog/src/commit.rs:363-381 | A taken key answers an intent with a collision, now and later, if and only if the stored fingerprint is unknown or different |
| Theorems.ReplayChangesNothing | crates/ukiel-catalog/src/commit.rs:197-244 | A replay is answered with its commit and changes no table, even after its lease is lost |
| Theorems.LoserChangesNothing | crates/ukiel-catalog/src/commit.rs:246-292 | A collision, a lost part or an offset race changes no table |
| Theorems.GenerationNamesOneTenancy | crates/ukiel-catalog/src/leases.rs:89-125 | Lease rows of any two states that carry one generation belong to the same partition and owner |
| Theorems.GenerationNeverReturns | crates/ukiel-catalog/src/leases.rs:89-180 | A generation that left its row by release or takeover never appears in any row again, though releases delete rows |
| Theorems.UnexpiredRowStands | crates/ukiel-catalog/src/leases.rs:89-180 | A row whose expiry has not come keeps its owner and generation through every step but a release of that very token |
| Theorems.TenancyStands | crates/ukiel-catalog/src/leases.rs:89-180 | Over runs: a tenancy that neither lapses nor is handed back stays its owner's, under one generation |
| Theorems.LostLeaseNeverCommits | crates/ukiel-catalog/src/commit.rs:402-466 | Once a token has expired, been taken over or released, no REPLACE under it that has not already passed its fence ever commits |
| Theorems.LeasedCommitStaysInside | crates/ukiel-catalog/src/commit.rs:402-466 | A REPLACE that commits under a lease has its token in the row, was checked before the row's expiry, and touches only the leased partition |
| Theorems.ReapingSparesLiveParts | crates/ukiel-gc/src/lib.rs:103-131 | Reaping never removes a live part's object, at any moment of any run |
| Theorems.ReapingWaits | crates/ukiel-catalog/src/gc.rs:51-75 | In no state of any run was the object of a part reaped before the grace of the part's own tombstone was over |
| Theorems.QueryFindsItsObject | crates/ukiel-gc/src/lib.rs:103-131 | A query that planned against a part whose object was there and not being swept finds it in every later state until the part's tombstone is as old as the grace |
| Theorems.CommittedObjectStays | crates/ukiel-gc/src/lib.rs:103-162 | In every run, a part whose own commit landed within its intent's grace has its object until it is reaped, and while it is live, whatever else was late |
| Theorems.ObjectStaysIff | crates/ukiel-gc/src/lib.rs:137-162 | From any reachable state, a live part keeps its object in every continuation if and only if the object is stored and no sweeper has fetched its path |
| Theorems.LivePartsHaveObjects | crates/ukiel-gc/src/lib.rs:103-162 | If every part committed within its grace, every live part has its object; uploads may be late |
| Theorems.UploadStaysOnBooks | crates/ukiel-gc/src/lib.rs:137-162 | In every run, an upload that landed within its intent's grace has an intent or an unpurged part for as long as it is stored |
| Theorems.StaysOnBooksIff | crates/ukiel-gc/src/lib.rs:137-162 | From any reachable state, an upload stays on the books in every continuation if and only if it is not stored, or owned, or has an intent that no sweeper is about to clear |
| Theorems.StoreIsOnBooks | crates/ukiel-gc/src/lib.rs:137-162 | If every upload landed within its grace, every stored object is on the books; commits may be late |
| Witnesses.AbsentIsNotFinal | crates/ukiel-catalog/src/commit.rs:108-124 | A run in which `Absent` is followed by the commit it did not see: absence only permits replanning |
| Witnesses.LateCommitLosesItsObject | crates/ukiel-gc/src/lib.rs:137-162 | A run in which a late commit loses its object to a sweep: the part's own timing is needed |
| Witnesses.LateUploadIsForgotten | crates/ukiel-gc/src/lib.rs:137-162 | A run in which a late upload is stored with neither intent nor part: the upload's own timing is needed |
| Witnesses.LeaseMayLapseAfterTheFence | crates/ukiel-catalog/src/commit.rs:402-466 | A run in which a lease lapses between the fence and the commit, and the commit lands: the fence instant is what is guaranteed |
| Passages.IngestLands | crates/ukiel-ingest/src/consumer.rs:269-412 | A run in which a message is received, uploaded and committed: its row is visible and its position behind it |
| Passages.ErasureLands | crates/ukiel-compactor/src/deletion.rs:32-140 | A run in which that row is then erased |
| Passages.ViewAdvances | crates/ukiel-mv/src/lib.rs:296-422 | A run in which a view registers, reads a commit, publishes for it and stands at it |
| Passages.ConsumerReads | crates/ukiel-catalog/src/feed.rs:8-99 | A run in which a consumer reads the feed to its head and stores its position |
| Workers.View.Completed | crates/ukiel-mv/src/lib.rs:270-294 | True exactly when the cursor is at the event or the commits hold the event's key under its fingerprint, and then the cursor is at the event; another intent under the key is the only error; nothing else moves |
| Workers.View.ProcessEvent | crates/ukiel-mv/src/lib.rs:296-422 | An event that is no ADD always succeeds. An ADD succeeds exactly when the cursor is there, or the identity is published, or its key is free, the source readable and the output parts or a skipped data error; each other case has its own error. Success leaves the cursor at the event; at most the event's own commit is added, with exactly the transform's parts or none; failure changes no table |
| Workers.Buffers.BufferMessage | crates/ukiel-ingest/src/consumer.rs:269-323 | The offset counts as read whether or not the row is kept |
| Workers.Buffers.Flush | crates/ukiel-ingest/src/consumer.rs:325-412 | Nothing read is no flush; deferred exactly when unforced, with rows held, fewer than twice the cap, and at the stop line, or at the slowdown line with nothing deferred since the last flush; otherwise it hands over all rows and ranges and empties the buffers, while a deferred one keeps everything |
| Workers.BufferIsBounded | crates/ukiel-ingest/src/consumer.rs:189-214 | After any sequence of messages and timer ticks, however far compaction is behind, the rows held are fewer than twice the buffer cap, or none |
| Workers.BackpressureIsBounded | crates/ukiel-ingest/src/consumer.rs:134-153 | Over any sequence of turns: two flush attempts running are deferred only at the stop line, none below both lines, and never a shutdown's |
| Workers.HeldSinceFlush | crates/ukiel-ingest/src/consumer.rs:189-214 | After any turns, what is held, whether anything was read and whether anything was deferred are those of the turns since the last flush |
| Workers.DecisionMeans | crates/ukiel-ingest/src/consumer.rs:134-153 | Over any turns: an unforced try with rows held is deferred if and only if fewer than twice the cap are held and the live level-0 parts are at the stop line, or at the slowdown line with nothing deferred since the last flush; every other try flushes |
| Workers.Buffers.Consume | crates/ukiel-ingest/src/consumer.rs:189-214 | The loop over the mutable buffers makes exactly those decisions, turn by turn |
| Rows.StableSortSorts | crates/ukiel-compactor/src/merge.rs:1-9 | The reference a merge is held to sorts by packing key and remaining sort columns |
| Rows.StableSortIsStable | crates/ukiel-compactor/src/merge.rs:1-9 | The reference keeps tied rows in input order |
| Rows.KeptJoin | crates/ukiel-compactor/src/deletion.rs:85-140 | An erasure keeps the other keys' rows in their order |
| Merge.ConvertAndGuard | crates/ukiel-compactor/src/merge.rs:51-81 | Accepts a batch exactly when it is in order and does not regress behind the previous one; an error names a row that does |
| Merge.PickLeast | crates/ukiel-compactor/src/merge.rs:187-217 | Taking the least head, ties to the earlier stream, takes the first row of the stable sort of all that is left |
| Merge.MergeState.Init | crates/ukiel-compactor/src/merge.rs:92-146 | Loads the first batch of every stream and loses no row |
| Merge.MergeState.Refill | crates/ukiel-compactor/src/merge.rs:150-178 | Skips empty batches, keeps what the stream has left to give, and fails only on an unreadable or unsorted stream |
| Merge.MergeState.Build | crates/ukiel-compactor/src/merge.rs:180-183 | Every index names a batch a cursor still holds, and the batch is the rows picked |
| Merge.MergeState.NextBatch | crates/ukiel-compactor/src/merge.rs:187-217 | A batch of 1 to 8192 rows, the next rows of the stable sort, shorter than 8192 only when a stream's loaded batch ran out or at the end; nothing only when every stream is drained; an error blames a stream that is unreadable or unsorted |
| Merge.MergeStreams | crates/ukiel-compactor/src/merge.rs:233-262 | Completes if and only if every stream can be read and is sorted across its batches, and then the output is the stable sort of the streams end to end, in batches of 1 to 8192 rows; an error names a stream and what is wrong with it |
| ChunkWriter.SplitByKey | crates/ukiel-compactor/src/rewrite.rs:152-166 | The maximal runs of equal keys, in order, end to end the batch |
| ChunkWriter.OpenFile.WriteSlice | crates/ukiel-compactor/src/rewrite.rs:327-337 | Appends a slice within the row-group cap and keeps key range, count, statistics and key set exact |
| ChunkWriter.OpenFile.Close | crates/ukiel-compactor/src/rewrite.rs:344-385 | The record states the file's rows, exact range, count, statistics, key set and one span per row group, each group but the last full; single-key files carry no index |
| ChunkWriter.StreamingChunkWriter.CutBefore | crates/ukiel-compactor/src/rewrite.rs:482-497 | After the cut the next key has room: separated files hold one key, dedicated files admit no other |
| ChunkWriter.StreamingChunkWriter.ConsumeKeyRun | crates/ukiel-compactor/src/rewrite.rs:474-530 | For any size function: the run is in the files, cuts follow placement, and an open size-targeted file is below its target |
| ChunkWriter.StreamingChunkWriter.Write | crates/ukiel-compactor/src/rewrite.rs:454-472 | The files end to end are the input; each is as recorded; every file but the last is full or dedicated; none went on past its target by more than one row group's rows |
| ChunkWriter.FilesInKeyOrder | crates/ukiel-compactor/src/rewrite.rs:387-400 | On sorted input recorded ranges bracket every row by the first and last key, files are in key order, and neighbours share a key only where a size-targeted key goes on in a file of its own |
| ChunkWriter.SeparatedIsOneFilePerKey | crates/ukiel-compactor/src/rewrite.rs:482-497 | Separated placement gives one file per key, across batch boundaries |
| ChunkWriter.GroupsInKeyOrder | crates/ukiel-compactor/src/rewrite.rs:499-517 | No row group exceeds the cap and the key ranges of a file's row groups never interleave |
| Rewrite.MergeParts | crates/ukiel-compactor/src/compactor.rs:663-752 | Merge and writer together: succeeds exactly on readable sorted parts, and then the files are a rewrite of the parts in the sense the catalog protocol assumes |
| Deletion.KeyAligned | crates/ukiel-compactor/src/rewrite.rs:264-293 | Row groups within the cap that end to end are the batch; neighbours share a key only if that key has more rows than the cap |
| Deletion.LiveParts | crates/ukiel-catalog/src/parts.rs:136-154 | Exactly the live parts of the hypertable whose key range contains the key, in the order of their ids |
| Deletion.DeleteKey | crates/ukiel-compactor/src/deletion.rs:32-140 | The rewritten files are, one for one, those the catalog protocol assumes of an erasure, each the kept rows of one part at its level and partition, with range, count, statistics, key set and spans rebuilt from those rows; no row of the key is left, the row count is that of the key's rows |
| Encoding.EncodeBatch | crates/ukiel-write/src/lib.rs:387-424 | The level-0 writer: fails exactly on an empty batch, else one file of the batch with an exact record and no spans |
| Stats.Range | crates/ukiel-core/src/stats.rs:236-246 | Exact least and greatest non-null value of a column, nothing when there is none |
| Stats.Int64StatsAccumulator.Update | crates/ukiel-core/src/stats.rs:236-258 | After each slice the statistics are exact for all rows fed so far |
| Stats.StatsUnique | crates/ukiel-core/src/stats.rs:219-222 | Exact statistics are unique, so slices and the whole batch give the same result |
| Stats.Int64ColumnStats | crates/ukiel-core/src/stats.rs:198-217 | The one-batch form records the exact range of every integer column |
| Stats.KeyBitmap | crates/ukiel-core/src/stats.rs:87-91 | The one-batch form records exactly the keys, under the accumulator's conditions |
| Stats.KeyBitmapAccumulator.Update | crates/ukiel-core/src/stats.rs:49-68 | The set is exact until a negative key poisons it for good |
| Stats.KeyBitmapAccumulator.Finish | crates/ukiel-core/src/stats.rs:72-82 | A set is written exactly when no key is negative, there is one, and there are at most 10000 |
| Stats.KeyRowGroups | crates/ukiel-core/src/stats.rs:137-160 | All or nothing: spans exactly when every group has statistics, one for each in order |
| Stats.RecordMeans | crates/ukiel-core/src/stats.rs:174-196 | What a record holds: the exact range of each column that has one, the key set and the spans under their own names and in front of columns so named; nothing exactly when there is nothing to record |
| KeyFilter.HashStaysInI64 | crates/ukiel-core/src/keyfilter.rs:288-306 | Every intermediate value of the hash fits a signed 64-bit integer, for every key |
| KeyFilter.HashTellsKeysApart | crates/ukiel-core/src/keyfilter.rs:288-306 | Two keys have one hash in a probe if and only if they agree modulo the prime |
| KeyFilter.ProbesInside | crates/ukiel-core/src/keyfilter.rs:271-279 | Every probe offset lies inside the blob of its tier |
| KeyFilter.Build | crates/ukiel-core/src/keyfilter.rs:187-203 | No filter exactly for at most one key, more than 8000, or a negative one; else exactly the demanded bits are set |
| KeyFilter.FilterLength | crates/ukiel-core/src/keyfilter.rs:187-203 | The blob is of the least tier that holds its keys |
| KeyFilter.MaybeContainsMeans | crates/ukiel-core/src/keyfilter.rs:213-224 | Denies exactly when the blob is of a known version and length, the key is not negative, and a bit it demands is not set |
| KeyFilter.PresentKeyIsNeverDenied | crates/ukiel-core/src/keyfilter.rs:187-224 | A key the filter was built over is never denied |
| KeyFilter.DeniedKeyIsAbsent | crates/ukiel-core/src/keyfilter.rs:213-224 | A denied key is not among the filter's keys |
| KeyFilter.DeniedIff | crates/ukiel-core/src/keyfilter.rs:213-224 | Over a built filter a key is denied if and only if one of its probes lands where no probe of any key does |
| KeyFilter.SqlPredicate | crates/ukiel-core/src/keyfilter.rs:234-257 | The arms number their binds consecutively, tier by tier, two for each probe |
| KeyFilter.SqlMeans | crates/ukiel-core/src/keyfilter.rs:234-268 | The SQL form, for any key and column: false exactly over a known blob that lacks a demanded bit |
| KeyFilter.SqlAgrees | crates/ukiel-core/src/keyfilter.rs:234-268 | For every blob and key the generated SQL never raises, and for keys >= 0 it answers as `maybe_contains` |
| KeyFilter.FormsAgreeIff | crates/ukiel-core/src/keyfilter.rs:213-268 | The SQL form and `maybe_contains` agree on every blob if and only if the key is not negative |
| Pruning.ExtractInt64Ranges | crates/ukiel-query/src/provider.rs:43-98 | The loop computes the bounds of the recognized comparisons, mirrored literals and 64-bit wrap-around included |
| Pruning.BoundsAreTight | crates/ukiel-query/src/provider.rs:43-98 | A column is bounded exactly when some conjunct is a recognized comparison on it, and a 64-bit value is within its bounds if and only if it satisfies all of them |
| Pruning.PassesMeans | crates/ukiel-query/src/provider.rs:43-98 | A row passes a recognized comparison exactly when it has an integer there that satisfies it |
| Pruning.AnswersAreAdmitted | crates/ukiel-query/src/provider.rs:43-98 | A row that passes every conjunct lies within every bound, wrapped ones included |
| Pruning.UnreadableEntryDropsPart | crates/ukiel-catalog/src/parts.rs:211-223 | An entry that is present and lacks an integer the bound needs makes the clause NULL, and the part is dropped |
| Pruning.CatalogKeepsMeans | crates/ukiel-catalog/src/parts.rs:159-236 | The exact ground on which the catalog query keeps a part |
| Pruning.FilterMeans | crates/ukiel-catalog/src/parts.rs:159-236 | The filter clause is false exactly over a known blob that lacks a bit of the key |
| Pruning.CatalogKeepsAnswers | crates/ukiel-catalog/src/parts.rs:159-236 | Under SQL's three truth values the catalog query keeps a part that holds an answer if and only if every bounded column's entry is absent or carries the integers its bounds need; absent key set, spans, filter and statistics never drop it |
| Pruning.AccessPlanFor | crates/ukiel-query/src/provider.rs:133-158 | With well-formed spans a plan exactly when some group's span excludes the key, and it holds exactly those groups; none otherwise |
| Pruning.PlanMeans | crates/ukiel-query/src/provider.rs:133-158 | With well-formed spans the plan has a group if and only if its span excludes the key |
| Pruning.ProviderKeepsKey | crates/ukiel-query/src/provider.rs:106-158 | No file and no row group with a row of the key is left out |
| Pruning.FileMeans | crates/ukiel-query/src/provider.rs:106-158 | A file is left out exactly when its key set lacks the key or every span excludes it; a file that is read skips exactly the groups whose span does |
| Pruning.Scan | crates/ukiel-query/src/provider.rs:256-314 | The file list is the plan: catalog query, then bitmap, then spans |
| Pruning.PlanLists | crates/ukiel-query/src/provider.rs:256-314 | The file list has exactly the parts the catalog query and the provider keep, each with the groups its spans exclude |
| Pruning.PrunedEqualsFullIff | crates/ukiel-query/src/provider.rs:256-314 | For every slice, filter list and list of sound parts, the pruned scan returns the rows of a scan of all live parts, in order, if and only if each part that holds an answer is readable under the bounds |
| Pruning.PrunedEqualsFull | crates/ukiel-query/src/provider.rs:256-314 | Hence the pruned scan is the full one over parts whose bounded columns' entries are absent or well formed |
| Pruning.EmptyEntryLosesRows | crates/ukiel-catalog/src/parts.rs:211-223 | A part whose entry for a bounded column is `{}` loses its row: a concrete part, filter and answer |
| Indexing.WrittenReadableIff | crates/ukiel-catalog/src/parts.rs:211-223 | A written part is readable under the bounds if and only if none is on the name of an index entry the part carries |
| Indexing.WrittenPartsScanExactlyIff | crates/ukiel-query/src/provider.rs:256-314 | Over written parts the pruned scan is the full one if and only if no part that holds an answer carries an index entry under the name of a bounded column |
| Indexing.HarmlessIsExact | crates/ukiel-query/src/provider.rs:256-314 | Over written parts, with no bound on `key_row_groups` that some row answers under and none on `packing_keys` that some row with a key from zero up does, the pruned scan is the full one |
| Indexing.SafeIsHarmless | crates/ukiel-query/src/provider.rs:43-98 | It suffices to read the query: no bound on `key_row_groups`, and one on `packing_keys` in the slice of a negative key only |
| Indexing.ExactIffHarmless | crates/ukiel-catalog/src/parts.rs:211-223 | For every query the scan is right for every list of written parts, and for every list of registered ones, if and only if the query is harmless; the failing part is one the streaming writer records and the catalog registers, for every 64-bit key |
| Indexing.NegativeKeysHaveNoSet | crates/ukiel-core/src/stats.rs:49-82 | A written part that holds a negative key carries no key set, so nothing hides its column named `packing_keys` |
| Indexing.WriteAndScan | crates/ukiel-query/src/provider.rs:256-314 | Rows streamed to files, registered and scanned by a harmless query: the answer is the filter of the rows that went in, in order |
| Indexing.KeyFilterOf | crates/ukiel-catalog/src/commit.rs:478-490 | A filter is derived exactly for a decodable recorded set of 2 to 8000 keys from zero up, and is built over exactly that set |
| Indexing.Register | crates/ukiel-catalog/src/commit.rs:478-526 | A registered part is the writer's record with the filter derived from it, which is there exactly when the recorded set can be filtered |
| Indexing.WrittenIsSound | crates/ukiel-compactor/src/rewrite.rs:344-385 | Everything the streaming, level-0 and erasure writers record, with the filter the catalog derives, is sound to prune by |
| Indexing.LostIndexIsSound | crates/ukiel-core/src/stats.rs:11-15 | Dropping or garbling any entry keeps a sound part sound; dropping keeps it readable under all bounds, garbling exactly under those that do not bound that name |
| CanonicalProof.JsonPrefix | crates/ukiel-core/src/operation.rs:206-244 | The encoding of a JSON value tells where it ends and which value it is, object key order aside |
| CanonicalProof.DigitsSpell | crates/ukiel-core/src/operation.rs:206-244 | A length prefix is the big-endian bytes of its number |
| CanonicalProof.EncodingIsInjective | crates/ukiel-core/src/operation.rs:314-444 | Two valid intents have the same bytes if and only if they are the same intent, up to the order of parts and ranges and of JSON object keys |
| Identities.Encoder.PutJson | crates/ukiel-core/src/operation.rs:206-244 | The recursive append writes exactly the canonical JSON bytes, members in key order |
| Identities.CanonicalParts | crates/ukiel-core/src/operation.rs:262-272 | Accepts exactly nonempty lists without repetition, and names the least repeated id; one pass over sorted neighbours finds it |
| Identities.CanonicalRanges | crates/ukiel-core/src/operation.rs:277-308 | Accepts exactly nonempty lists of well-formed ranges of which no two overlap; an error names a malformed range, or two that overlap, for what it is |
| Identities.NeighboursSuffice | crates/ukiel-core/src/operation.rs:294-306 | In sorted order, if no neighbours overlap then no two ranges overlap |
| Identities.MvIdentity | crates/ukiel-core/src/operation.rs:353-376 | Succeeds exactly on a valid intent, with its canonical bytes; an error names the first field that is out of range |
| Identities.IngestIdentity | crates/ukiel-core/src/operation.rs:383-396 | Succeeds exactly on a valid intent, with its canonical bytes; each error exactly on its ground |
| Identities.CompactionIdentity | crates/ukiel-core/src/operation.rs:400-420 | Succeeds exactly on a valid intent, with its canonical bytes; each error exactly on its ground |
| Identities.DeleteKeyIdentity | crates/ukiel-core/src/operation.rs:424-444 | Succeeds exactly on a valid intent, with its canonical bytes; each error exactly on its ground |
| Identities.KeysAreBoundedAndDistinct | crates/ukiel-core/src/operation.rs:314-346 | Stored keys stay within 128 bytes for any intent and tell domain and digest apart |
| Ladder.EligibleLevel | crates/ukiel-compactor/src/compactor.rs:637-656 | The least level whose distinct live runs reach its trigger, with all its parts; nothing exactly when no level does |
| Ladder.EligibleMeans | crates/ukiel-compactor/src/compactor.rs:637-656 | A level is ready exactly when its distinct commits reach `l0_fanout` at level 0 and `fanout` at any other |
| Ladder.FinalizeMeans | crates/ukiel-compactor/src/compactor.rs:491-526 | A finalization may be planned exactly when two live parts are of different commits |
| Ladder.PlanIsEnabled | crates/ukiel-compactor/src/compactor.rs:491-526 | For every list of live parts, commits at several levels included, the planner finds a level exactly when the merge of that level is a step |
| Ladder.CompactionShrinks | crates/ukiel-compactor/src/compactor.rs:491-526 | With triggers of at least two, every merge and every finalization lowers the number of distinct live (level, commit) pairs, a merge by at least its trigger less one, whatever erasures did before |
| Ladder.CompactionStops | crates/ukiel-compactor/src/compactor.rs:491-526 | While ingest and erasure pause, the merges and finalizations and the pairs left are together at most the pairs there were |
| Ladder.Quiesces | crates/ukiel-compactor/src/compactor.rs:491-526 | A partition left to the ladder stops within that bound with every level below its trigger |
| Ladder.CommitsDropIff | crates/ukiel-compactor/src/compactor.rs:637-656 | A merge lowers the number of distinct live commits if and only if more of the group's commits leave the partition entirely than it adds, one or none |
| Ladder.CommitCountMayStay | crates/ukiel-compactor/src/deletion.rs:85-140 | A run in which an erasure leaves one commit at two levels and the next merge keeps the number of distinct commits |
| Ladder.QuietIffBelowTriggers | crates/ukiel-catalog/src/parts.rs:367-398 | No merge is possible if and only if every level is below its trigger |
| Ladder.DepthIsLogarithmic | crates/ukiel-compactor/src/compactor.rs:637-656 | A run of level l >= 1 descends from at least l0_fanout * fanout^(l-1) distinct ingested runs |
| Sweep.Sweeper.Pass | crates/ukiel-compactor/src/compactor.rs:436-487 | Offers the least claimable partitions after the stored cursor, up to the limit, or from the head when nothing is left after it; stores the last one as cursor only after a full window; counts wraps |
| Sweep.WindowMeans | crates/ukiel-catalog/src/parts.rs:66-93 | The window is the least claimable partitions after the cursor, up to the limit, in order |
| Sweep.OfferedSoon | crates/ukiel-compactor/src/compactor.rs:436-487 | A partition that stays claimable is offered within ceil(|U|/limit) + 1 passes, whatever else changes |
| Sweep.RotationOffersEachOnce | crates/ukiel-catalog/src/parts.rs:66-93 | Over an unchanging set each rotation offers every partition exactly once, and the next starts at the head |
| Dag.PipelineCatalog.Reachable | crates/ukiel-catalog/src/pipelines.rs:207-221 | The recursive query finds exactly the tables reachable from the target |
| Dag.AcyclicIffNotReachable | crates/ukiel-catalog/src/pipelines.rs:207-221 | A new edge keeps an acyclic graph acyclic if and only if its head does not reach its tail |
| Dag.PipelineCatalog.EnsurePipeline | crates/ukiel-catalog/src/pipelines.rs:144-240 | Keeps the graph acyclic; refuses, in this order and exactly then, a blank name or text or an id that is not positive, a name under another definition, an unknown endpoint, a cycle; a refusal changes nothing |
| Dag.Search | crates/ukiel-mv/src/lib.rs:177-192 | The worklist search terminates and finds the goal if and only if it is reachable |
| Dag.SelectionHasCycle | crates/ukiel-mv/src/lib.rs:175-193 | Rejects a selection if and only if its graph has a cycle |

## Left out

- Theorems.LostLeaseNeverCommits: speaks of REPLACEs that had not passed their fence when the token was lost; one that had passed may still commit, as `Witnesses.LeaseMayLapseAfterTheFence` shows.
- Theorems.CommittedObjectStays: speaks of parts that committed within their own grace, because a sweeper that has fetched the path may take a later one's object, as `Witnesses.LateCommitLosesItsObject` shows; `Theorems.ObjectStaysIff` has the exact condition.
- Theorems.UploadStaysOnBooks: speaks of files uploaded within their own grace, because a sweeper may clear the intent of a later one, as `Witnesses.LateUploadIsForgotten` shows; `Theorems.StaysOnBooksIff` has the exact condition.
- Workers.View.ProcessEvent: one attempt without interleaving, so the repeated completion checks and lost acknowledgements are only in `Machine`; the transform is an arbitrary result.
- Workers.Buffers.BufferMessage: payload decoding, the packing-key check and the event-time bounds reduce to whether a row is kept.
- Ladder.DepthIsLogarithmic: ladder merges and ingest only, since a finalization reaches the top level from any number of runs; the 16-bit level does not wrap in the ladder model.
- Merge.MergeStreams: collects the batches instead of yielding them lazily, and compares sort keys as a total preorder (packing key, then a rank) instead of Arrow row encodings.
- ChunkWriter.StreamingChunkWriter.Write: the Parquet writer is its row groups; the encoded size is an arbitrary function of the file so far; a row-group cap of zero, which the Parquet writer refuses, is excluded.
- Pruning.PrunedEqualsFull: limits, projections and alias columns, and DataFusion's own pruning on top of the plan are not part of this model; comparisons it does not recognize have an arbitrary meaning. A bound recorded as a string or a fraction reads as missing; the query's integer cast would raise on it, or read the integer a string spells.
- Stats.KeyBitmapAccumulator.Update: a missing or non-integer packing-key column is not part of this model; every row has an integer packing key.
- SQL text, connection pools, migrations and SQLSTATE classes: only the meaning of each transaction; outcomes are ok, definite failure, or an answer that is lost.
- Retry supervision and lease renewal loops: the machine lets any caller retry, renew or stop at any time.
- Expression evaluation, Parquet and Arrow encoding, compression, the DataFusion planner, blake3, roaring and base64: foreign libraries.
- `plan_chunks`, `split_by_key` consumers outside the writer, and the in-memory sort path: superseded by the streaming writer in the modelled operations.
- `reconcile_once`: the listing-based backstop, which needs object-store listings and their clocks.
- HTTP server, result formatting, caches, health, metrics, configuration and bootstrap: shallow properties.
- False-positive rates of the key filter: measured there, not needed for correctness.
- Live-lock: no run is claimed to make progress beyond the bounds stated for the sweep and the ladder.
