/** Erasing one packing key: parts wholly the key's are dropped unread, the others are
    rewritten without it. */
module Deletion {
  import opened Base
  import opened Rows
  import opened Tables
  import opened Machine
  import opened Stats
  import opened ChunkWriter
  import opened Encoding

  // ---------------------------------------------------------------- key-aligned row groups

  function Count(rows: seq<Row>, k: int): nat {
    if rows == [] then 0 else (if rows[0].key == k then 1 else 0) + Count(rows[1..], k)
  }

  lemma {:induction false} CountJoin(a: seq<Row>, b: seq<Row>, k: int)
    ensures Count(a + b, k) == Count(a, k) + Count(b, k)
  {
    if a == [] {
      assert a + b == b;
    } else {
      assert (a + b)[1..] == a[1..] + b;
      CountJoin(a[1..], b, k);
    }
  }

  lemma {:induction false} CountAll(rows: seq<Row>, k: int)
    requires forall r :: r in rows ==> r.key == k
    ensures Count(rows, k) == |rows|
  {
    if rows != [] {
      assert rows[0] in rows;
      CountAll(rows[1..], k);
    }
  }

  lemma {:induction false} FlattenMember<T>(ss: seq<seq<T>>, i: nat)
    requires i < |ss|
    ensures Flatten(ss) == Flatten(ss[..i]) + ss[i] + Flatten(ss[i + 1..])
  {
    assert ss == ss[..i] + ([ss[i]] + ss[i + 1..]);
    FlattenAppend(ss[..i], [ss[i]] + ss[i + 1..]);
    assert ([ss[i]] + ss[i + 1..])[1..] == ss[i + 1..];
  }

  /** A run of the batch holds that many rows of its key. */
  lemma RunCount(runs: seq<(int, seq<Row>)>, batch: seq<Row>, i: nat)
    requires KeyRuns(runs, batch) && i < |runs|
    ensures Count(batch, runs[i].0) >= |runs[i].1|
  {
    var rows, k := RunRows(runs), runs[i].0;
    FlattenMember(rows, i);
    var a, b, c := Flatten(rows[..i]), rows[i], Flatten(rows[i + 1..]);
    CountJoin(a + b, c, k);
    CountJoin(a, b, k);
    CountAll(b, k);
  }

  /** Where two neighbouring row groups share a key, that key has more rows than one
      group may hold. */
  predicate Aligned(groups: seq<seq<Row>>, batch: seq<Row>, cap: nat) {
    forall i :: 0 < i < |groups| && Continues(groups[i - 1], groups[i]) ==> Count(batch, groups[i][0].key) > cap
  }

  function LastKeyOf(groups: seq<seq<Row>>): Option<int> {
    if groups == [] || groups[|groups| - 1] == [] then None else Some(groups[|groups| - 1][|groups[|groups| - 1]| - 1].key)
  }

  /** Groups that hold `rows`, in size and on key boundaries. */
  ghost predicate Laid(all: seq<seq<Row>>, rows: seq<Row>, batch: seq<Row>, cap: nat) {
    Flatten(all) == rows && GroupsOk(all, cap) && Aligned(all, batch, cap) && Tight(all, cap)
  }

  lemma LaidPush(all: seq<seq<Row>>, rows: seq<Row>, batch: seq<Row>, cap: nat, g: seq<Row>)
    requires Laid(all, rows, batch, cap) && 0 < |g| <= cap
    requires LastKeyOf(all) == Some(g[0].key) ==> Count(batch, g[0].key) > cap
    requires all != [] ==> |all[|all| - 1]| + Lead(g) > cap
    ensures Laid(all + [g], rows + g, batch, cap) && LastKeyOf(all + [g]) == Some(g[|g| - 1].key)
  {
    hide Count; hide Flatten; hide Tight; hide Lead;
    FlattenPush(all, g);
    TightPush(all, g, cap);
    var more := all + [g];
    forall i | 0 < i < |more| && Continues(more[i - 1], more[i]) ensures Count(batch, more[i][0].key) > cap {
      if i < |all| { assert more[i] == all[i] && more[i - 1] == all[i - 1]; }
    }
  }

  lemma LaidGrow(all: seq<seq<Row>>, rows: seq<Row>, batch: seq<Row>, cap: nat, slice: seq<Row>)
    requires Laid(all, rows, batch, cap) && all != [] && slice != [] && |all[|all| - 1]| + |slice| <= cap
    ensures var n := |all| - 1;
            var more := all[..n] + [all[n] + slice];
            Laid(more, rows + slice, batch, cap) && LastKeyOf(more) == Some(slice[|slice| - 1].key)
  {
    hide Count; hide Flatten; hide Tight;
    var n := |all| - 1;
    var more := all[..n] + [all[n] + slice];
    assert all == all[..n] + [all[n]];
    TightGrow(all[..n], all[n], slice, cap);
    assert all == all[..n] + [all[n]];
    FlattenPush(all[..n], all[n]);
    FlattenPush(all[..n], all[n] + slice);
    assert Flatten(all[..n]) + (all[n] + slice) == Flatten(all[..n]) + all[n] + slice;
    forall i | 0 < i < |more| && Continues(more[i - 1], more[i]) ensures Count(batch, more[i][0].key) > cap {
      assert more[i - 1] == all[i - 1] && more[i][0] == all[i][0];
    }
  }

  lemma {:induction false} LaidPieces(all: seq<seq<Row>>, rows: seq<Row>, batch: seq<Row>, cap: nat, slice: seq<Row>, k: int)
    requires Laid(all, rows, batch, cap) && cap > 0 && slice != [] && (forall r :: r in slice ==> r.key == k)
    requires LastKeyOf(all) == Some(k) || |slice| > cap ==> Count(batch, k) > cap
    requires all != [] ==> |all[|all| - 1]| + |slice| > cap
    ensures Laid(all + Pieces(slice, cap), rows + slice, batch, cap) && LastKeyOf(all + Pieces(slice, cap)) == Some(k)
    decreases |slice|
  {
    hide Count; hide Laid; hide LastKeyOf;
    assert slice[0] in slice && slice[|slice| - 1] in slice;
    LaidNonempty(all, rows, batch, cap);
    if |slice| <= cap {
      LeadOfKey(slice, k);
      LaidPush(all, rows, batch, cap, slice);
      assert all + Pieces(slice, cap) == all + [slice];
    } else {
      var g, rest := slice[..cap], slice[cap..];
      CutFacts(slice, cap, k);
      LeadOfKey(g, k);
      LaidPush(all, rows, batch, cap, g);
      LaidPieces(all + [g], rows + g, batch, cap, rest, k);
      PiecesCut(all, slice, cap);
      assert rows + g + rest == rows + slice by { assert slice == g + rest; }
    }
  }

  lemma LaidNonempty(all: seq<seq<Row>>, rows: seq<Row>, batch: seq<Row>, cap: nat)
    requires Laid(all, rows, batch, cap)
    ensures all != [] ==> |all[|all| - 1]| > 0
  {
  }

  lemma CutFacts(slice: seq<Row>, cap: nat, k: int)
    requires 0 < cap < |slice| && forall r :: r in slice ==> r.key == k
    ensures (forall r :: r in slice[..cap] ==> r.key == k) && slice[..cap][0].key == k && slice[..cap][cap - 1].key == k && forall r :: r in slice[cap..] ==> r.key == k
  {
    assert slice[0] in slice && slice[cap - 1] in slice;
  }

  lemma PiecesCut(all: seq<seq<Row>>, slice: seq<Row>, cap: nat)
    requires 0 < cap < |slice|
    ensures all + [slice[..cap]] + Pieces(slice[cap..], cap) == all + Pieces(slice, cap)
  {
  }

  /** The rows of one batch as row groups that end on key boundaries wherever the cap
      allows. */
  method KeyAligned(batch: seq<Row>, cap: nat) returns (groups: seq<seq<Row>>)
    requires cap > 0
    ensures Flatten(groups) == batch && GroupsOk(groups, cap) && Aligned(groups, batch, cap) && Tight(groups, cap)
  {
    hide Count; hide Laid; hide KeyRuns; hide Pieces; hide LastKeyOf; hide Flatten; hide RunRows;
    var runs := SplitByKey(batch);
    groups := [];
    var current: seq<Row> := [];
    Nothing(runs, batch, cap);
    for i := 0 to |runs|
      invariant Laid(AllGroups(groups, current), Flatten(RunRows(runs)[..i]), batch, cap) && |current| <= cap
      invariant groups != [] ==> current != []
      invariant LastKeyOf(AllGroups(groups, current)) == if i == 0 then None else Some(runs[i - 1].0)
    {
      var slice := runs[i].1;
      RunFacts(runs, batch, i);
      ghost var rows := Flatten(RunRows(runs)[..i]);
      if |current| > 0 && |current| + |slice| > cap {
        groups, current := groups + [current], [];
      }
      if |current| + |slice| <= cap {
        FillGroup(groups, current, rows, batch, cap, slice, runs[i].0);
        current := current + slice;
      } else {
        var pieces := Pieces(slice, cap);
        LaidPieces(groups, rows, batch, cap, slice, runs[i].0);
        PiecesFilled(slice, cap);
        LastApart(groups, pieces);
        groups, current := groups + pieces[..|pieces| - 1], pieces[|pieces| - 1];
      }
    }
    WholeRuns(runs, batch);
    groups := AllGroups(groups, current);
    LaidMeans(groups, batch, cap);
  }

  lemma LastApart(groups: seq<seq<Row>>, pieces: seq<seq<Row>>)
    requires pieces != [] && pieces[|pieces| - 1] != []
    ensures groups + pieces == AllGroups(groups + pieces[..|pieces| - 1], pieces[|pieces| - 1])
  {
  }

  /** A run that fits the group in progress joins it, or starts one. */
  lemma FillGroup(groups: seq<seq<Row>>, current: seq<Row>, rows: seq<Row>, batch: seq<Row>, cap: nat, slice: seq<Row>, k: int)
    requires Laid(AllGroups(groups, current), rows, batch, cap) && slice != [] && |current| + |slice| <= cap
    requires (forall r :: r in slice ==> r.key == k) && slice[0].key == k && slice[|slice| - 1].key == k
    requires LastKeyOf(AllGroups(groups, current)) != Some(k) && (current == [] && groups != [] ==> |groups[|groups| - 1]| + |slice| > cap)
    ensures Laid(AllGroups(groups, current + slice), rows + slice, batch, cap)
    ensures LastKeyOf(AllGroups(groups, current + slice)) == Some(k)
  {
    hide Count; hide Laid; hide LastKeyOf;
    LeadOfKey(slice, k);
    if current == [] {
      LaidPush(groups, rows, batch, cap, slice);
      assert current + slice == slice;
    } else {
      LaidGrow(groups + [current], rows, batch, cap, slice);
      assert (groups + [current])[..|groups|] == groups;
    }
  }

  lemma LaidMeans(all: seq<seq<Row>>, batch: seq<Row>, cap: nat)
    requires Laid(all, batch, batch, cap)
    ensures Flatten(all) == batch && GroupsOk(all, cap) && Aligned(all, batch, cap) && Tight(all, cap)
  {
  }

  lemma Nothing(runs: seq<(int, seq<Row>)>, batch: seq<Row>, cap: nat)
    ensures Laid([], Flatten(RunRows(runs)[..0]), batch, cap) && LastKeyOf([]) == None
  {
  }

  lemma WholeRuns(runs: seq<(int, seq<Row>)>, batch: seq<Row>)
    requires KeyRuns(runs, batch)
    ensures Flatten(RunRows(runs)[..|runs|]) == batch
  {
    assert RunRows(runs)[..|runs|] == RunRows(runs);
  }

  lemma RunFacts(runs: seq<(int, seq<Row>)>, batch: seq<Row>, i: nat)
    requires KeyRuns(runs, batch) && i < |runs|
    ensures var k, slice := runs[i].0, runs[i].1;
            && slice != [] && (forall r :: r in slice ==> r.key == k) && slice[0].key == k && slice[|slice| - 1].key == k
            && Count(batch, k) >= |slice| && (i > 0 ==> runs[i - 1].0 != k)
            && Flatten(RunRows(runs)[..i + 1]) == Flatten(RunRows(runs)[..i]) + slice
  {
    hide Count; hide Flatten;
    RunCount(runs, batch, i);
    var slice := runs[i].1;
    assert slice[0] in slice && slice[|slice| - 1] in slice;
    assert RunRows(runs)[..i + 1] == RunRows(runs)[..i] + [slice];
    FlattenPush(RunRows(runs)[..i], slice);
  }

  // ---------------------------------------------------------------- delete_key

  /** A rewritten part: where it belongs, and its file with its record. */
  datatype Rewritten = Rewritten(partition: Partition, level: nat, part: EncodedPart)

  datatype DeletionStats = DeletionStats(dropped: nat, rewritten: nat, rowsDeleted: nat)

  function FilesIn(parts: seq<Rewritten>): seq<seq<Row>> {
    seq(|parts|, i requires 0 <= i < |parts| => Flatten(parts[i].part.file))
  }

  predicate OfTable(s: State, ht: Ht, ids: seq<PartId>) {
    forall i :: i in ids ==> i in s.db.parts && s.db.parts[i].ht == ht
  }

  /** A set of ids in order. */
  method InIdOrder(all: set<PartId>) returns (ids: seq<PartId>)
    ensures Elements(ids) == all && forall i, j :: 0 <= i < j < |ids| ==> ids[i] < ids[j]
  {
    ids := [];
    var rest := all;
    while rest != {}
      invariant rest <= all && forall p :: p in all <==> p in ids || p in rest
      invariant forall i, j :: 0 <= i < j < |ids| ==> ids[i] < ids[j]
      invariant forall i, p :: 0 <= i < |ids| && p in rest ==> ids[i] < p
    {
      ghost var any :| any in rest;
      LeastMember(rest, any);
      var p :| p in rest && forall q :: q in rest ==> p <= q;
      ids, rest := ids + [p], rest - {p};
    }
  }

  /** The live parts whose key range contains the key, in the order of their ids. */
  method LiveParts(s: State, ht: Ht, k: int) returns (ids: seq<PartId>)
    ensures Selects(s, ht, k, Elements(ids)) && OfTable(s, ht, ids) && forall i, j :: 0 <= i < j < |ids| ==> ids[i] < ids[j]
  {
    var all := set p | p in s.db.parts && s.db.parts[p].ht == ht && Live(s.db.parts[p])
                       && s.db.parts[p].meta.keyMin <= k <= s.db.parts[p].meta.keyMax;
    ids := InIdOrder(all);
    assert forall i :: i in ids ==> i in Elements(ids);
  }

  function DroppedCount(s: State, ids: seq<PartId>, k: int): nat {
    |KeyRowsOfParts(s, ids, k)|
  }

  /** How many of the parts hold nothing but the key. */
  function WhollyTheKeys(s: State, ids: seq<PartId>, k: int): nat {
    if ids == [] then 0
    else (if ids[0] in s.db.parts && s.db.parts[ids[0]].meta.keyMin == k && s.db.parts[ids[0]].meta.keyMax == k then 1 else 0)
         + WhollyTheKeys(s, ids[1..], k)
  }

  /** The rewrite of the live parts that overlap a key: what the machine expects of an
      erasure's outputs, file by file, each at its part's level and partition with a record
      rebuilt from the rows kept, no row of the key left anywhere, and the count of rows
      that went. `s` is the catalog and the store as read. */
  method DeleteKey(s: State, schema: seq<Column>, ht: Ht, k: int, cap: nat)
    returns (ids: seq<PartId>, outputs: seq<Rewritten>, stats: DeletionStats)
    requires cap > 0 && DistinctNames(schema)
    requires forall i :: i in s.db.parts ==> Bounds(s.db.parts[i].meta, RowsAt(s.content, s.db.parts[i].meta.path))
    requires forall i :: i in s.db.parts && s.db.parts[i].ht == ht ==> RowsFit(schema, RowsAt(s.content, s.db.parts[i].meta.path))
    ensures Selects(s, ht, k, Elements(ids)) && OfTable(s, ht, ids)
    ensures FilesIn(outputs) == KeptFiles(s, ids, k)
    ensures forall j :: 0 <= j < |outputs| ==> RecordOk(schema, outputs[j].part) && Indexed(schema, outputs[j].part)
                                               && GroupsOk(outputs[j].part.file, cap) && Tight(outputs[j].part.file, cap)
    ensures forall j, r :: 0 <= j < |outputs| && r in Flatten(outputs[j].part.file) ==> r.key != k
    ensures forall j :: 0 <= j < |outputs| ==> FromPart(s, ids, k, outputs[j])
    ensures stats.dropped == WhollyTheKeys(s, ids, k) && stats.rewritten == |ids| - stats.dropped && |outputs| <= stats.rewritten
    ensures stats.rowsDeleted == DroppedCount(s, ids, k)
  {
    hide Flatten; hide Rows.Kept; hide Erased; hide RecordOk; hide RowsAt; hide Aligned; hide KeptFiles; hide DroppedCount;
    hide GroupsOk; hide Bounds; hide RowsFit; hide DistinctNames; hide Tight; hide Indexed; hide FromPart;
    ids := LiveParts(s, ht, k);
    outputs := [];
    stats := DeletionStats(0, 0, 0);
    assert ids[0..] == ids;
    for n := 0 to |ids|
      invariant FilesIn(outputs) + KeptFiles(s, ids[n..], k) == KeptFiles(s, ids, k)
      invariant forall j :: 0 <= j < |outputs| ==> RecordOk(schema, outputs[j].part) && Indexed(schema, outputs[j].part)
                                                   && GroupsOk(outputs[j].part.file, cap) && Tight(outputs[j].part.file, cap)
      invariant forall j, r :: 0 <= j < |outputs| && r in Flatten(outputs[j].part.file) ==> r.key != k
      invariant forall j :: 0 <= j < |outputs| ==> FromPart(s, ids, k, outputs[j])
      invariant stats.dropped + WhollyTheKeys(s, ids[n..], k) == WhollyTheKeys(s, ids, k)
      invariant stats.dropped + stats.rewritten == n && |outputs| <= stats.rewritten
      invariant stats.rowsDeleted + DroppedCount(s, ids[n..], k) == DroppedCount(s, ids, k)
    {
      assert ids[n] in ids && ids[n..][0] == ids[n] && ids[n..][1..] == ids[n + 1..];
      var part := s.db.parts[ids[n]];
      var batch := RowsAt(s.content, part.meta.path);
      KeptStep(s, ids, n, k);
      if part.meta.keyMin == k && part.meta.keyMax == k {
        AllGone(s, ids[n], batch, k);
        stats := stats.(dropped := stats.dropped + 1, rowsDeleted := stats.rowsDeleted + |batch|);
        continue;
      }
      var kept := Rows.Kept(batch, k);
      KeptAndErased(batch, k);
      KeptSize(batch, k);
      KeptFits(schema, batch, k);
      stats := stats.(rewritten := stats.rewritten + 1, rowsDeleted := stats.rowsDeleted + (|batch| - |kept|));
      if kept == [] { continue; }
      var groups := KeyAligned(kept, cap);
      var encoded := Describe(schema, kept, groups, cap, true);
      var out := Rewritten(part.meta.partition, part.meta.level, encoded);
      assert FilesIn(outputs + [out]) == FilesIn(outputs) + [kept];
      IsFromPart(s, ids, k, out, ids[n]);
      outputs := outputs + [out];
    }
    assert ids[|ids|..] == [];
    NothingLeft(s, k);
    assert FilesIn(outputs) + [] == FilesIn(outputs);
  }

  /** The rows one of the parts keeps, at that part's level and in its partition. */
  ghost predicate FromPart(s: State, ids: seq<PartId>, k: int, out: Rewritten) {
    exists i :: i in ids && i in s.db.parts && s.db.parts[i].meta.partition == out.partition && s.db.parts[i].meta.level == out.level
                && Flatten(out.part.file) == Rows.Kept(RowsAt(s.content, s.db.parts[i].meta.path), k)
  }

  lemma IsFromPart(s: State, ids: seq<PartId>, k: int, out: Rewritten, i: PartId)
    requires i in ids && i in s.db.parts && s.db.parts[i].meta.partition == out.partition && s.db.parts[i].meta.level == out.level
    requires Flatten(out.part.file) == Rows.Kept(RowsAt(s.content, s.db.parts[i].meta.path), k)
    ensures FromPart(s, ids, k, out)
  {
  }

  lemma {:induction false} KeptFits(schema: seq<Column>, rows: seq<Row>, k: int)
    requires RowsFit(schema, rows)
    ensures RowsFit(schema, Rows.Kept(rows, k))
  {
    hide RowFits;
    if rows != [] {
      KeptFits(schema, rows[1..], k);
      var rest := Rows.Kept(rows[1..], k);
      assert Rows.Kept(rows, k) == (if rows[0].key != k then [rows[0]] else []) + rest;
    }
  }

  lemma NothingLeft(s: State, k: int)
    ensures KeptFiles(s, [], k) == [] && DroppedCount(s, [], k) == 0
  {
  }

  /** A part bracketed by the key alone holds nothing else. */
  lemma AllGone(s: State, i: PartId, rows: seq<Row>, k: int)
    requires i in s.db.parts && Bounds(s.db.parts[i].meta, rows) && s.db.parts[i].meta.keyMin == k == s.db.parts[i].meta.keyMax
    ensures |Erased(rows, k)| == |rows|
  {
    EveryRowGone(rows, k);
  }

  lemma {:induction false} EveryRowGone(rows: seq<Row>, k: int)
    requires forall r :: r in rows ==> r.key == k
    ensures |Erased(rows, k)| == |rows|
  {
    if rows != [] {
      assert rows[0] in rows;
      EveryRowGone(rows[1..], k);
    }
  }

  lemma KeptSize(rows: seq<Row>, k: int)
    ensures |Erased(rows, k)| == |rows| - |Rows.Kept(rows, k)| && |Rows.Kept(rows, k)| <= |rows|
  {
    hide Erased; hide Rows.Kept;
    KeptAndErased(rows, k);
    assert |multiset(rows)| == |rows| && |multiset(Rows.Kept(rows, k))| == |Rows.Kept(rows, k)|;
  }

  /** The next part's share of the machine's lists. */
  lemma KeptStep(s: State, ids: seq<PartId>, n: nat, k: int)
    requires n < |ids| && forall i :: i in ids ==> i in s.db.parts
    ensures var part := s.db.parts[ids[n]];
            var batch := RowsAt(s.content, part.meta.path);
            && KeptFiles(s, ids[n..], k)
               == (if part.meta.keyMin == k && part.meta.keyMax == k then [] else if Rows.Kept(batch, k) == [] then [] else [Rows.Kept(batch, k)])
                  + KeptFiles(s, ids[n + 1..], k)
            && DroppedCount(s, ids[n..], k) == |Erased(batch, k)| + DroppedCount(s, ids[n + 1..], k)
  {
    hide RowsAt; hide Rows.Kept; hide Erased;
    assert ids[n..][0] == ids[n] && ids[n..][1..] == ids[n + 1..];
  }
}
