/** The placement-driven file writer: it cuts a sorted stream into files and row groups
    by an encoded size it can only measure, never predict. */
module ChunkWriter {
  import opened Base
  import opened Rows
  import opened Stats

  // ---------------------------------------------------------------- key runs

  predicate SingleKey(rows: seq<Row>) {
    forall i, j :: 0 <= i < j < |rows| ==> rows[i].key == rows[j].key
  }

  function RunRows(runs: seq<(int, seq<Row>)>): (rows: seq<seq<Row>>)
    ensures |rows| == |runs|
  {
    seq(|runs|, i requires 0 <= i < |runs| => runs[i].1)
  }

  /** The maximal runs of equal keys, in order. */
  predicate KeyRuns(runs: seq<(int, seq<Row>)>, batch: seq<Row>) {
    && Flatten(RunRows(runs)) == batch
    && (forall i :: 0 <= i < |runs| ==> runs[i].1 != [] && forall r :: r in runs[i].1 ==> r.key == runs[i].0)
    && (forall i :: 0 < i < |runs| ==> runs[i - 1].0 != runs[i].0)
  }

  lemma RunsMore(runs: seq<(int, seq<Row>)>, before: seq<Row>, key: int, slice: seq<Row>)
    requires KeyRuns(runs, before) && slice != [] && forall r :: r in slice ==> r.key == key
    requires runs != [] ==> runs[|runs| - 1].0 != key
    ensures KeyRuns(runs + [(key, slice)], before + slice)
  {
    FlattenPush(RunRows(runs), slice);
    assert RunRows(runs + [(key, slice)]) == RunRows(runs) + [slice];
  }

  /** One contiguous slice per key run. */
  method SplitByKey(batch: seq<Row>) returns (runs: seq<(int, seq<Row>)>)
    ensures KeyRuns(runs, batch)
  {
    hide KeyRuns;
    runs := [];
    var start := 0;
    assert batch[..0] == [];
    assert KeyRuns(runs, batch[..start]) by { NoRuns(); }
    for i := 1 to |batch| + 1
      invariant 0 <= start <= |batch|
      invariant i <= |batch| ==> start < i
      invariant i > |batch| ==> start == |batch|
      invariant KeyRuns(runs, batch[..start])
      invariant forall j :: start <= j < i && j < |batch| ==> batch[j].key == batch[start].key
      invariant runs != [] && start < |batch| ==> runs[|runs| - 1].0 != batch[start].key
    {
      if i == |batch| || batch[i].key != batch[start].key {
        var slice := batch[start..i];
        assert batch[..start] + slice == batch[..i];
        RunsMore(runs, batch[..start], batch[start].key, slice);
        runs := runs + [(batch[start].key, slice)];
        start := i;
      }
    }
    assert batch[..|batch|] == batch;
  }

  lemma NoRuns()
    ensures KeyRuns([], [])
  {
    assert RunRows([]) == [];
  }

  // ---------------------------------------------------------------- files

  /** Least and greatest key of a row group, as the file's own metadata records them. */
  function GroupRange(g: seq<Row>): (r: (int, int))
    requires g != []
    ensures forall x :: x in g ==> r.0 <= x.key <= r.1
    ensures (exists x :: x in g && x.key == r.0) && (exists x :: x in g && x.key == r.1)
  {
    if |g| == 1 then (g[0].key, g[0].key)
    else
      var t := GroupRange(g[1..]);
      assert g == [g[0]] + g[1..];
      (if g[0].key < t.0 then g[0].key else t.0, if g[0].key > t.1 then g[0].key else t.1)
  }

  predicate GroupsOk(groups: seq<seq<Row>>, cap: nat) {
    forall i :: 0 <= i < |groups| ==> 0 < |groups[i]| <= cap
  }

  /** Row groups so far, the one in progress included. */
  function AllGroups(groups: seq<seq<Row>>, current: seq<Row>): seq<seq<Row>> {
    if current == [] then groups else groups + [current]
  }

  /** How many rows a group begins with that have its first row's key. */
  function Lead(g: seq<Row>): (n: nat)
    ensures n <= |g| && (g != [] ==> n > 0)
  {
    if g == [] then 0 else 1 + (if |g| > 1 && g[1].key == g[0].key then Lead(g[1..]) else 0)
  }

  /** A group ends only where the rows of the next key would not have fitted it. */
  predicate Tight(groups: seq<seq<Row>>, cap: nat) {
    forall i :: 0 < i < |groups| ==> |groups[i - 1]| + Lead(groups[i]) > cap
  }

  lemma {:induction false} LeadGrows(g: seq<Row>, s: seq<Row>)
    requires g != []
    ensures Lead(g + s) >= Lead(g)
  {
    if |g| > 1 && g[1].key == g[0].key {
      LeadGrows(g[1..], s);
      assert (g + s)[1..] == g[1..] + s;
    }
  }

  lemma {:induction false} LeadOfKey(s: seq<Row>, k: int)
    requires forall r :: r in s ==> r.key == k
    ensures Lead(s) == |s|
  {
    if |s| > 1 {
      assert s[0] in s && s[1] in s;
      LeadOfKey(s[1..], k);
    }
  }

  lemma TightPush(groups: seq<seq<Row>>, g: seq<Row>, cap: nat)
    requires Tight(groups, cap) && (groups != [] ==> |groups[|groups| - 1]| + Lead(g) > cap)
    ensures Tight(groups + [g], cap)
  {
    hide Lead;
    var more := groups + [g];
    forall i | 0 < i < |more| ensures |more[i - 1]| + Lead(more[i]) > cap {
      if i < |groups| { assert more[i] == groups[i] && more[i - 1] == groups[i - 1]; }
    }
  }

  lemma TightGrow(groups: seq<seq<Row>>, g: seq<Row>, s: seq<Row>, cap: nat)
    requires Tight(groups + [g], cap) && g != []
    ensures Tight(groups + [g + s], cap)
  {
    hide Lead;
    var all, more := groups + [g], groups + [g + s];
    LeadGrows(g, s);
    forall i | 0 < i < |more| ensures |more[i - 1]| + Lead(more[i]) > cap {
      assert |all[i - 1]| + Lead(all[i]) > cap;
      assert more[i - 1] == all[i - 1];
    }
  }

  lemma StillTight(groups: seq<seq<Row>>, current: seq<Row>, slice: seq<Row>, key: int, cap: nat)
    requires Tight(AllGroups(groups, current), cap) && slice != [] && forall r :: r in slice ==> r.key == key
    requires current == [] && groups != [] ==> |groups[|groups| - 1]| + |slice| > cap
    ensures Tight(AllGroups(groups, current + slice), cap)
  {
    hide Tight;
    LeadOfKey(slice, key);
    if current == [] {
      TightPush(groups, slice, cap);
      assert current + slice == slice;
    } else {
      TightGrow(groups, current, slice, cap);
    }
  }

  function GroupMetas(groups: seq<seq<Row>>): seq<GroupMeta> {
    seq(|groups|, i requires 0 <= i < |groups| => if groups[i] == [] then None else Some(GroupRange(groups[i])))
  }

  /** One written file: its row groups, and what the catalog will record of it. */
  datatype ChunkOutput = ChunkOutput(path: nat, file: seq<seq<Row>>, keyMin: int, keyMax: int, rowCount: nat,
                                     columnStats: Option<map<string, Json>>)

  /** The greatest key among the rows. */
  predicate IsMaxKey(rows: seq<Row>, k: int) {
    (exists r :: r in rows && r.key == k) && forall r :: r in rows ==> r.key <= k
  }

  /** The recorded index: exact statistics, and for a file of several keys the exact key
      set (if it can be recorded) and the span of every row group. */
  ghost predicate IndexOk(schema: seq<Column>, file: seq<seq<Row>>, multiKey: bool, stats: Option<map<string, Json>>) {
    exists ranges, bitmap, spans ::
      && IsStats(schema, Flatten(file), ranges)
      && stats == WithKeyIndex(StatsJson(ranges), bitmap, spans)
      && BitmapOk(Flatten(file), multiKey, bitmap)
      && SpansOk(file, multiKey, spans)
  }

  ghost predicate BitmapOk(rows: seq<Row>, multiKey: bool, bitmap: Option<Blob>) {
    && (bitmap.Some? <==> multiKey && (forall k :: k in KeysOf(rows) ==> k >= 0) && 0 < |KeysOf(rows)| <= MAX_BITMAP_KEYS)
    && (bitmap.Some? ==> bitmap.value == Keys(KeysOf(rows)))
  }

  ghost predicate SpansOk(file: seq<seq<Row>>, multiKey: bool, spans: Option<Json>) {
    && (spans.Some? <==> multiKey)
    && (spans.Some? ==>
          && spans.value.JArr? && |spans.value.items| == |file|
          && forall i :: 0 <= i < |file| ==> file[i] != [] && spans.value.items[i] == SpanJson(GroupRange(file[i])))
  }

  /** A written file is what its record says. */
  ghost predicate OutputOk(schema: seq<Column>, cap: nat, o: ChunkOutput) {
    var rows := Flatten(o.file);
    && rows != [] && GroupsOk(o.file, cap) && Tight(o.file, cap)
    && o.rowCount == |rows| && o.keyMin == rows[0].key && IsMaxKey(rows, o.keyMax)
    && IndexOk(schema, o.file, o.keyMin != o.keyMax, o.columnStats)
  }

  /** One open output file: closed row groups and the one being filled. */
  class OpenFile {
    const path: nat
    const keyMin: int
    const dedicated: bool
    const schema: seq<Column>
    const stats: Int64StatsAccumulator
    const keys: KeyBitmapAccumulator
    var groups: seq<seq<Row>>
    var current: seq<Row>
    var keyMax: int
    var currentKey: int
    var rows: nat

    function Repr(): set<object> { {this, stats, keys} }

    function Content(): seq<Row>
      reads this
    {
      Flatten(groups) + current
    }

    ghost predicate Valid(cap: nat)
      reads Repr()
    {
      && DistinctNames(schema)
      && GroupsOk(groups, cap) && |current| <= cap && Tight(AllGroups(groups, current), cap)
      && rows == |Content()|
      && IsStats(schema, Content(), stats.stats)
      && Collected(Content(), keys.keys, keys.poisoned)
      && (Content() == [] ==> keyMax == keyMin)
      && (Content() != [] ==>
            && keyMin == Content()[0].key && currentKey == Content()[|Content()| - 1].key
            && IsMaxKey(Content(), keyMax))
    }

    constructor (path: nat, key: int, dedicated: bool, schema: seq<Column>)
      requires DistinctNames(schema)
      ensures forall cap :: Valid(cap)
      ensures Content() == [] && keyMin == key && this.dedicated == dedicated && this.schema == schema && this.path == path
      ensures fresh(stats) && fresh(keys) && current == [] && groups == []
    {
      this.path, keyMin, this.dedicated, this.schema := path, key, dedicated, schema;
      stats := new Int64StatsAccumulator(schema);
      keys := new KeyBitmapAccumulator();
      groups, current, keyMax, currentKey, rows := [], [], key, key, 0;
    }

    /** Ends the row group being filled. */
    method Flush(cap: nat)
      requires Valid(cap)
      modifies this`groups, this`current
      ensures Valid(cap) && Content() == old(Content()) && current == []
      ensures groups == (if old(current) == [] then old(groups) else old(groups) + [old(current)])
    {
      hide Tight; hide IsStats; hide Collected; hide IsMaxKey; hide DistinctNames; hide Flatten;
      if current != [] {
        FlattenPush(groups, current);
        groups, current := groups + [current], [];
      }
      assert Content() == old(Content());
    }

    /** Appends a slice of one key that the row group has room for. */
    method WriteSlice(cap: nat, key: int, slice: seq<Row>)
      requires Valid(cap) && |current| + |slice| <= cap
      requires slice != [] && RowsFit(schema, slice) && (forall r :: r in slice ==> r.key == key)
      requires Content() == [] ==> key == keyMin
      requires current == [] && groups != [] ==> |groups[|groups| - 1]| + |slice| > cap
      modifies Repr()
      ensures Valid(cap) && Content() == old(Content()) + slice && currentKey == key
      ensures groups == old(groups) && current == old(current) + slice
    {
      hide Tight; hide AllGroups; hide GroupsOk; hide IsStats; hide Collected; hide DistinctNames; hide Flatten; hide RowsFit; hide IsMaxKey;
      ghost var before := Content();
      StillTight(groups, current, slice, key, cap);
      stats.Update(schema, slice, before);
      keys.Update(slice, before);
      current := current + slice;
      assert Content() == before + slice;
      keyMax := if key > keyMax then key else keyMax;
      currentKey := key;
      rows := rows + |slice|;
      MaxKeyJoin(before, slice, key, old(keyMax));
      assert slice[|slice| - 1] in slice && slice[0] in slice;
    }

    /** Ends the file: the last group out first, the spans read after it. */
    method Close(cap: nat) returns (o: ChunkOutput)
      requires Valid(cap) && Content() != []
      modifies this`groups, this`current
      ensures OutputOk(schema, cap, o) && Flatten(o.file) == old(Content()) && o.path == path
      ensures o.keyMin == keyMin && o.keyMax == keyMax
      ensures o.file == (if old(current) == [] then old(groups) else old(groups) + [old(current)])
    {
      hide IsStats; hide Collected; hide GroupsOk; hide IsMaxKey; hide WithKeyIndex; hide StatsJson;
      Flush(cap);
      assert Flatten(groups) + [] == Flatten(groups);
      var bitmap: Option<Blob>, spans: Option<Json> := None, None;
      if keyMin != keyMax {
        spans := KeyRowGroups(GroupMetas(groups));
        bitmap := keys.Finish(Content());
        SpansRead(groups, cap, spans);
      }
      var recorded := WithKeyIndex(StatsJson(stats.stats), bitmap, spans);
      BitmapRead(Content(), keyMin, keyMax, bitmap);
      assert SpansOk(groups, keyMin != keyMax, spans);
      assert IsStats(schema, Flatten(groups), stats.stats);
      assert IndexOk(schema, groups, keyMin != keyMax, recorded);
      o := ChunkOutput(path, groups, keyMin, keyMax, rows, recorded);
    }
  }

  lemma MaxKeyJoin(rows: seq<Row>, slice: seq<Row>, key: int, max: int)
    requires slice != [] && forall r :: r in slice ==> r.key == key
    requires rows == [] ==> key == max
    requires rows != [] ==> IsMaxKey(rows, max)
    ensures IsMaxKey(rows + slice, if key > max then key else max)
  {
    assert slice[0] in rows + slice;
    if rows != [] {
      var r :| r in rows && r.key == max;
      assert r in rows + slice;
    }
  }

  lemma SpansRead(groups: seq<seq<Row>>, cap: nat, spans: Option<Json>)
    requires GroupsOk(groups, cap) && groups != []
    requires var metas := GroupMetas(groups);
             && (spans.Some? <==> metas != [] && forall i :: 0 <= i < |metas| ==> metas[i].Some?)
             && (spans.Some? ==> spans.value.JArr? && |spans.value.items| == |metas|
                                 && forall i :: 0 <= i < |metas| ==> metas[i].Some? && spans.value.items[i] == SpanJson(metas[i].value))
    ensures SpansOk(groups, true, spans)
  {
    var metas := GroupMetas(groups);
    assert forall i :: 0 <= i < |groups| ==> groups[i] != [] && metas[i] == Some(GroupRange(groups[i]));
  }

  lemma BitmapRead(rows: seq<Row>, lo: int, hi: int, bitmap: Option<Blob>)
    requires lo == hi ==> bitmap.None?
    requires lo != hi ==> (bitmap.Some? <==> (forall k :: k in KeysOf(rows) ==> k >= 0) && 0 < |KeysOf(rows)| <= MAX_BITMAP_KEYS)
    requires bitmap.Some? ==> bitmap.value == Keys(KeysOf(rows))
    ensures BitmapOk(rows, lo != hi, bitmap)
  {
  }

  // ---------------------------------------------------------------- cutting a stream into files

  /** What the writer is told, and the encoded size of a file's path, closed row groups
      and group in progress: any function at all. */
  datatype Settings = Settings(schema: seq<Column>, cap: nat, placement: Placement,
                               size: (nat, seq<seq<Row>>, seq<Row>) -> nat)

  /** The open file as far as the stream is concerned. */
  datatype Tail = Tail(content: seq<Row>, dedicated: bool, size: nat)

  function Contents(outputs: seq<ChunkOutput>): seq<seq<Row>> {
    seq(|outputs|, i requires 0 <= i < |outputs| => Flatten(outputs[i].file))
  }

  function Files(outputs: seq<ChunkOutput>, tail: Option<Tail>): seq<seq<Row>> {
    Contents(outputs) + (if tail.Some? then [tail.value.content] else [])
  }

  function LastKey(files: seq<seq<Row>>): Option<int> {
    if files == [] || files[|files| - 1] == [] then None else Some(files[|files| - 1][|files[|files| - 1]| - 1].key)
  }

  /** The second file starts with the key the first ends with. */
  predicate Continues(a: seq<Row>, b: seq<Row>) {
    a != [] && b != [] && a[|a| - 1].key == b[0].key
  }

  /** The shape placement gives the files: one file when packed, one key a file when
      separated, and a key carried into a further file only when size-targeted, a file
      it then has to itself. */
  predicate Chain(placement: Placement, files: seq<seq<Row>>) {
    && (forall i :: 0 <= i < |files| ==> files[i] != [])
    && (forall i :: 0 < i < |files| && Continues(files[i - 1], files[i]) ==> placement.SizeTargeted? && SingleKey(files[i]))
    && (placement.Separated? ==> forall i :: 0 <= i < |files| ==> SingleKey(files[i]))
    && (placement.Packed? ==> |files| <= 1)
  }

  /** The file had reached its target when it was closed. */
  predicate Full(w: Settings, o: ChunkOutput) {
    w.placement.SizeTargeted? ==>
      || w.size(o.path, o.file, []) >= w.placement.Target()
      || (o.file != [] && w.size(o.path, o.file[..|o.file| - 1], o.file[|o.file| - 1]) >= w.placement.Target())
  }

  /** No file ends early: each of the first `n` was full or dedicated to one key. */
  predicate EndedWell(w: Settings, outputs: seq<ChunkOutput>, n: int) {
    forall i :: 0 <= i < n && i < |outputs| ==>
      Full(w, outputs[i]) || (i > 0 && Continues(Flatten(outputs[i - 1].file), Flatten(outputs[i].file)))
  }

  /** Some earlier state of the file, no more than one row group's rows before, was still
      below the target: the file was written on only until it reached it. */
  ghost predicate Lean(w: Settings, path: nat, content: seq<Row>) {
    w.placement.SizeTargeted? ==> exists groups, current :: WasBelow(w, path, content, groups, current)
  }

  ghost predicate WasBelow(w: Settings, path: nat, content: seq<Row>, groups: seq<seq<Row>>, current: seq<Row>)
    requires w.placement.SizeTargeted?
  {
    var before := Flatten(groups) + current;
    && |before| <= |content| <= |before| + w.cap && before == content[..|before|]
    && (before == [] || w.size(path, groups, current) < w.placement.Target())
  }

  /** No two files have one path, and all of them come before `next`. */
  predicate InPathOrder(outputs: seq<ChunkOutput>, next: nat) {
    && (forall i, j :: 0 <= i < j < |outputs| ==> outputs[i].path < outputs[j].path)
    && forall i :: 0 <= i < |outputs| ==> outputs[i].path < next
  }

  lemma PathPush(outputs: seq<ChunkOutput>, o: ChunkOutput, next: nat)
    requires InPathOrder(outputs, o.path) && o.path < next
    ensures InPathOrder(outputs + [o], next)
  {
  }

  ghost predicate AllLean(w: Settings, outputs: seq<ChunkOutput>) {
    forall i :: 0 <= i < |outputs| ==> Lean(w, outputs[i].path, Flatten(outputs[i].file))
  }

  lemma LeanMore(w: Settings, path: nat, groups: seq<seq<Row>>, current: seq<Row>, slice: seq<Row>)
    requires |slice| <= w.cap
    requires w.placement.SizeTargeted? && Flatten(groups) + current != [] ==> w.size(path, groups, current) < w.placement.Target()
    ensures Lean(w, path, Flatten(groups) + current + slice)
  {
    if w.placement.SizeTargeted? { assert WasBelow(w, path, Flatten(groups) + current + slice, groups, current); }
  }

  lemma AllLeanPush(w: Settings, outputs: seq<ChunkOutput>, o: ChunkOutput)
    requires AllLean(w, outputs) && Lean(w, o.path, Flatten(o.file))
    ensures AllLean(w, outputs + [o])
  {
    hide Lean;
  }

  ghost predicate Progress(w: Settings, outputs: seq<ChunkOutput>, last: Option<int>, tail: Option<Tail>, consumed: seq<Row>) {
    && (forall i :: 0 <= i < |outputs| ==> OutputOk(w.schema, w.cap, outputs[i]))
    && Flatten(Files(outputs, tail)) == consumed
    && Chain(w.placement, Files(outputs, tail))
    && last == LastKey(Contents(outputs))
    && (tail.Some? ==> tail.value.content != [] && tail.value.dedicated == (last == Some(tail.value.content[0].key)))
    && EndedWell(w, outputs, |outputs|)
  }

  /** Between key runs: only a size-targeted stream is without an open file once it has
      written, and the open file is below its target. */
  predicate Settled(w: Settings, outputs: seq<ChunkOutput>, tail: Option<Tail>) {
    && (tail.None? && !w.placement.SizeTargeted? ==> outputs == [])
    && (tail.Some? && w.placement.SizeTargeted? ==> tail.value.size < w.placement.Target())
  }

  /** A slice of key `k` may go into the open file, or into a new one. */
  predicate Room(w: Settings, outputs: seq<ChunkOutput>, last: Option<int>, tail: Option<Tail>, k: int) {
    match tail
    case None => (w.placement.Packed? ==> outputs == []) && (w.placement.Separated? ==> last != Some(k))
    case Some(t) =>
      t.content != [] && (w.placement.Separated? || (w.placement.SizeTargeted? && t.dedicated) ==> t.content[|t.content| - 1].key == k)
  }

  lemma ContentsPush(outputs: seq<ChunkOutput>, o: ChunkOutput)
    ensures Contents(outputs + [o]) == Contents(outputs) + [Flatten(o.file)]
  {
  }

  lemma CloseStep(w: Settings, outputs: seq<ChunkOutput>, last: Option<int>, t: Tail, consumed: seq<Row>, o: ChunkOutput)
    requires Progress(w, outputs, last, Some(t), consumed) && OutputOk(w.schema, w.cap, o) && Flatten(o.file) == t.content
    requires t.dedicated || Full(w, o)
    ensures Progress(w, outputs + [o], Some(t.content[|t.content| - 1].key), None, consumed)
  {
    hide OutputOk; hide Flatten;
    ContentsPush(outputs, o);
    assert Files(outputs + [o], None) == Files(outputs, Some(t));
    assert Contents(outputs) == [] ==> outputs == [];
    if t.dedicated {
      var n := |outputs|;
      assert Contents(outputs)[n - 1] == Flatten(outputs[n - 1].file);
      assert Continues(Flatten(outputs[n - 1].file), Flatten(o.file));
    }
  }

  lemma ChainPush(p: Placement, files: seq<seq<Row>>, c: seq<Row>)
    requires Chain(p, files) && c != [] && SingleKey(c) && (p.Packed? ==> files == [])
    requires files != [] && Continues(files[|files| - 1], c) ==> p.SizeTargeted?
    ensures Chain(p, files + [c])
  {
    hide SingleKey;
    var more := files + [c];
    assert more[|files|] == c && forall i :: 0 <= i < |files| ==> more[i] == files[i];
  }

  lemma OneKeySlice(slice: seq<Row>, k: int)
    requires forall r :: r in slice ==> r.key == k
    ensures SingleKey(slice) && (slice != [] ==> slice[0].key == k && slice[|slice| - 1].key == k)
  {
    assert forall i :: 0 <= i < |slice| ==> slice[i] in slice;
  }

  lemma OpenStep(w: Settings, outputs: seq<ChunkOutput>, last: Option<int>, consumed: seq<Row>, k: int, slice: seq<Row>, size: nat)
    requires Progress(w, outputs, last, None, consumed) && Room(w, outputs, last, None, k)
    requires slice != [] && forall r :: r in slice ==> r.key == k
    ensures Progress(w, outputs, last, Some(Tail(slice, last == Some(k), size)), consumed + slice)
  {
    hide OutputOk; hide EndedWell; hide Flatten;
    var t := Tail(slice, last == Some(k), size);
    var files := Contents(outputs);
    assert Files(outputs, None) == files && Files(outputs, Some(t)) == files + [slice];
    FlattenPush(files, slice);
    OneKeySlice(slice, k);
    ChainPush(w.placement, files, slice);
  }

  lemma ChainGrows(p: Placement, files: seq<seq<Row>>, c: seq<Row>, c': seq<Row>)
    requires Chain(p, files + [c]) && c != [] && c' != [] && c'[0].key == c[0].key
    requires p.Separated? || (files != [] && Continues(files[|files| - 1], c)) ==> SingleKey(c')
    ensures Chain(p, files + [c'])
  {
    hide SingleKey;
    var old_, new_ := files + [c], files + [c'];
    assert old_[|files|] == c && new_[|files|] == c' && forall i :: 0 <= i < |files| ==> new_[i] == old_[i];
  }

  lemma AppendStep(w: Settings, outputs: seq<ChunkOutput>, last: Option<int>, t: Tail, consumed: seq<Row>, k: int, slice: seq<Row>, size: nat)
    requires Progress(w, outputs, last, Some(t), consumed) && Room(w, outputs, last, Some(t), k)
    requires slice != [] && forall r :: r in slice ==> r.key == k
    ensures Progress(w, outputs, last, Some(Tail(t.content + slice, t.dedicated, size)), consumed + slice)
  {
    hide Contents;
    var t' := Tail(t.content + slice, t.dedicated, size);
    var files := Contents(outputs);
    FlattenPush(files, t.content);
    FlattenPush(files, t'.content);
    assert Flatten(files) + (t.content + slice) == Flatten(files) + t.content + slice;
    assert files != [] && Continues(files[|files| - 1], t.content) ==> t.dedicated && w.placement.SizeTargeted? && SingleKey(t.content) by {
      assert (files + [t.content])[|files|] == t.content;
      assert files != [] ==> (files + [t.content])[|files| - 1] == files[|files| - 1];
    }
    assert w.placement.Separated? ==> SingleKey(t.content) by { assert (files + [t.content])[|files|] == t.content; }
    if SingleKey(t.content) && t.content[|t.content| - 1].key == k { SingleJoin(t.content, k, slice); }
    ChainGrows(w.placement, files, t.content, t'.content);
  }

  lemma SingleJoin(a: seq<Row>, k: int, b: seq<Row>)
    requires SingleKey(a) && a != [] && a[|a| - 1].key == k && forall r :: r in b ==> r.key == k
    ensures SingleKey(a + b)
  {
    forall i | 0 <= i < |a + b| ensures (a + b)[i].key == k {
      if i < |a| - 1 { assert a[i].key == a[|a| - 1].key; }
      if i >= |a| { assert b[i - |a|] in b; }
    }
  }

  class StreamingChunkWriter {
    const w: Settings
    var nextPath: nat
    var lastClosedKey: Option<int>

    constructor (w: Settings)
      ensures this.w == w && lastClosedKey == None
    {
      this.w, nextPath, lastClosedKey := w, 0, None;
    }

    function EncodedSize(f: OpenFile): nat
      reads f
    {
      w.size(f.path, f.groups, f.current)
    }

    function TailOf(f: OpenFile?): Option<Tail>
      reads f
    {
      if f == null then None else Some(Tail(f.Content(), f.dedicated, EncodedSize(f)))
    }

    /** The open file is in order, and what was consumed so far is in the files. */
    ghost predicate Ready(open: OpenFile?, outputs: seq<ChunkOutput>, consumed: seq<Row>)
      reads this, if open == null then {} else open.Repr()
    {
      && (open != null ==> open.Valid(w.cap) && open.current != [] && open.schema == w.schema && Lean(w, open.path, open.Content()))
      && AllLean(w, outputs) && InPathOrder(outputs, if open == null then nextPath else open.path)
      && (open != null ==> open.path < nextPath)
      && Progress(w, outputs, lastClosedKey, TailOf(open), consumed)
    }

    method OpenNext(key: int, dedicated: bool) returns (f: OpenFile)
      requires DistinctNames(w.schema)
      modifies this`nextPath
      ensures fresh(f.Repr()) && f.Valid(w.cap) && f.Content() == [] && f.groups == [] && f.current == []
      ensures f.keyMin == key && f.dedicated == dedicated && f.schema == w.schema
      ensures f.path == old(nextPath) && nextPath == f.path + 1
    {
      var path := nextPath;
      nextPath := nextPath + 1;
      f := new OpenFile(path, key, dedicated, w.schema);
    }

    method CloseFile(f: OpenFile, outputs: seq<ChunkOutput>, ghost consumed: seq<Row>) returns (outputs': seq<ChunkOutput>)
      requires Ready(f, outputs, consumed)
      requires w.placement.SizeTargeted? ==> f.dedicated || EncodedSize(f) >= w.placement.Target()
      modifies this`lastClosedKey, f`groups, f`current
      ensures Ready(null, outputs', consumed) && lastClosedKey == Some(old(f.currentKey)) && outputs' != []
    {
      hide OutputOk; hide Chain; hide EndedWell; hide Progress; hide Lean; hide AllLean; hide InPathOrder; hide Tight; hide GroupsOk;
      hide IsMaxKey; hide IsStats; hide Collected; hide DistinctNames; hide Flatten;
      assert f.Content() != [] by { TailNotEmpty(w, outputs, lastClosedKey, TailOf(f).value, consumed); }
      ghost var t := TailOf(f).value;
      var o := f.Close(w.cap);
      assert Full(w, o) || t.dedicated;
      CloseStep(w, outputs, lastClosedKey, t, consumed, o);
      AllLeanPush(w, outputs, o);
      PathPush(outputs, o, nextPath);
      lastClosedKey := Some(f.currentKey);
      outputs' := outputs + [o];
    }

    predicate BelowTarget(f: OpenFile)
      reads f
    {
      w.placement.SizeTargeted? ==> EncodedSize(f) < w.placement.Target()
    }

    /** Cuts before a new key where the placement demands it. */
    method CutBefore(open: OpenFile?, outputs: seq<ChunkOutput>, k: int, ghost consumed: seq<Row>)
      returns (open': OpenFile?, outputs': seq<ChunkOutput>)
      requires Ready(open, outputs, consumed) && Settled(w, outputs, TailOf(open))
      modifies this`lastClosedKey, if open == null then {} else {open}
      ensures open' == open || open' == null
      ensures Ready(open', outputs', consumed) && Room(w, outputs', lastClosedKey, TailOf(open'), k)
      ensures open' != null ==> BelowTarget(open')
    {
      hide OutputOk; hide Chain; hide EndedWell; hide Progress; hide IsStats; hide IsMaxKey; hide Collected; hide GroupsOk; hide LastKey;
      hide Lean; hide AllLean;
      open', outputs' := open, outputs;
      if open' == null {
        if outputs == [] { NothingClosed(w, outputs, lastClosedKey, consumed); }
        return;
      }
      TailNotEmpty(w, outputs, lastClosedKey, TailOf(open').value, consumed);
      var cut := match w.placement
        case Packed => false
        case Separated => open'.currentKey != k
        case SizeTargeted(_) => open'.currentKey != k && (EncodedSize(open') >= w.placement.Target() || open'.dedicated);
      if cut {
        outputs' := CloseFile(open', outputs', consumed);
        open' := null;
      }
    }

    /** Writes the next slice of a run into the open file, in a row group it fits. */
    method FillSlice(f: OpenFile, created: bool, outputs: seq<ChunkOutput>, k: int, run: seq<Row>, start: nat, ghost consumed: seq<Row>)
      returns (take: nat)
      requires w.cap > 0 && RowsFit(w.schema, run) && start < |run| && (forall r :: r in run ==> r.key == k)
      requires f.Valid(w.cap) && f.schema == w.schema
      requires if created then f.groups == [] else f.current != []
      requires created ==> f.Content() == [] && f.current == [] && f.keyMin == k && f.dedicated == (lastClosedKey == Some(k))
      requires AllLean(w, outputs) && InPathOrder(outputs, f.path) && f.path < nextPath && (created || BelowTarget(f))
      requires var tail := if created then None else TailOf(f);
               Progress(w, outputs, lastClosedKey, tail, consumed) && Room(w, outputs, lastClosedKey, tail, k)
      modifies f.Repr()
      ensures take == (if |run| - start < w.cap then |run| - start else w.cap)
      ensures Ready(f, outputs, consumed + run[start..start + take]) && f.currentKey == k
    {
      hide OutputOk; hide Chain; hide EndedWell; hide Progress; hide Flatten; hide IsStats; hide RowFits; hide KeysOf; hide IsMaxKey;
      hide Collected; hide GroupsOk; hide LastKey; hide DistinctNames; hide Lean; hide AllLean; hide Tight; hide AllGroups; hide InPathOrder;
      ghost var t := TailOf(f).value;
      ghost var groups, current := f.groups, f.current;
      if !created { TailNotEmpty(w, outputs, lastClosedKey, t, consumed); }
      if |f.current| > 0 && |f.current| + (|run| - start) > w.cap {
        f.Flush(w.cap);
      }
      take := if |run| - start < w.cap then |run| - start else w.cap;
      var slice := run[start..start + take];
      SliceOf(w.schema, run, k, start, take);
      f.WriteSlice(w.cap, k, slice);
      LeanMore(w, f.path, groups, current, slice);
      if created {
        assert [] + slice == slice;
        OpenStep(w, outputs, lastClosedKey, consumed, k, slice, EncodedSize(f));
      } else {
        AppendStep(w, outputs, lastClosedKey, t, consumed, k, slice, EncodedSize(f));
      }
    }

    /** Writes one key run: cuts before it where the placement says so, then slice by
        slice, cutting again whenever the target is reached. */
    method ConsumeKeyRun(open: OpenFile?, outputs: seq<ChunkOutput>, k: int, run: seq<Row>, ghost consumed: seq<Row>)
      returns (open': OpenFile?, outputs': seq<ChunkOutput>)
      requires Ready(open, outputs, consumed) && Settled(w, outputs, TailOf(open))
      requires w.cap > 0 && DistinctNames(w.schema) && RowsFit(w.schema, run)
      requires run != [] && forall r :: r in run ==> r.key == k
      modifies this, if open == null then {} else open.Repr()
      ensures open' != null ==> open' == open || fresh(open'.Repr())
      ensures Ready(open', outputs', consumed + run) && Settled(w, outputs', TailOf(open'))
    {
      hide OutputOk; hide Chain; hide EndedWell; hide Progress; hide Flatten; hide RowFits; hide OpenFile.Valid;
      hide LastKey; hide DistinctNames; hide Lean; hide AllLean; hide InPathOrder;
      open', outputs' := CutBefore(open, outputs, k, consumed);
      var start := 0;
      assert consumed + run[..0] == consumed;
      while start < |run|
        invariant start <= |run|
        invariant open' != null ==> open' == open || fresh(open'.Repr())
        invariant Ready(open', outputs', consumed + run[..start])
        invariant start < |run| ==> Room(w, outputs', lastClosedKey, TailOf(open'), k)
        invariant start > 0 ==> Settled(w, outputs', TailOf(open'))
        invariant open' != null ==> BelowTarget(open')
      {
        var created := open' == null;
        if open' == null {
          open' := OpenNext(k, lastClosedKey == Some(k));
        }
        var take := FillSlice(open', created, outputs', k, run, start, consumed + run[..start]);
        assert consumed + run[..start] + run[start..start + take] == consumed + run[..start + take];
        start := start + take;
        FullyTold(open', outputs', k, consumed + run[..start]);
        if w.placement.SizeTargeted? && EncodedSize(open') >= w.placement.Target() {
          outputs' := CloseFile(open', outputs', consumed + run[..start]);
          open' := null;
        }
      }
      assert run[..|run|] == run;
    }

    /** Writes a whole stream of batches. */
    method Write(batches: seq<seq<Row>>) returns (outputs: seq<ChunkOutput>)
      requires lastClosedKey == None && w.cap > 0 && DistinctNames(w.schema)
      requires forall i :: 0 <= i < |batches| ==> RowsFit(w.schema, batches[i])
      modifies this
      ensures Written(w, outputs, Flatten(batches))
      ensures forall i, j :: 0 <= i < j < |outputs| ==> outputs[i].path != outputs[j].path
    {
      hide OutputOk; hide Chain; hide EndedWell; hide Progress; hide RowFits; hide OpenFile.Valid; hide LastKey; hide DistinctNames;
      hide KeyRuns; hide Written; hide Lean;
      outputs := [];
      var open: OpenFile? := null;
      NothingWritten(w);
      for i := 0 to |batches|
        invariant open == null || fresh(open.Repr())
        invariant Ready(open, outputs, Flatten(batches[..i])) && Settled(w, outputs, TailOf(open))
      {
        var runs := SplitByKey(batches[i]);
        ghost var before := Flatten(batches[..i]);
        assert before + Flatten(RunRows(runs)[..0]) == before;
        for j := 0 to |runs|
          invariant open == null || fresh(open.Repr())
          invariant Ready(open, outputs, before + Flatten(RunRows(runs)[..j])) && Settled(w, outputs, TailOf(open))
        {
          RunOf(w.schema, runs, batches[i], j);
          open, outputs := ConsumeKeyRun(open, outputs, runs[j].0, runs[j].1, before + Flatten(RunRows(runs)[..j]));
          assert before + Flatten(RunRows(runs)[..j]) + runs[j].1 == before + Flatten(RunRows(runs)[..j + 1]);
        }
        WholeBatch(runs, batches, i);
      }
      assert batches[..|batches|] == batches;
      if open != null {
        outputs := CloseLast(open, outputs, Flatten(batches));
      } else {
        AllClosed(w, outputs, lastClosedKey, Flatten(batches));
      }
    }

    /** The file still open at the end of the stream is closed whatever its size. */
    method CloseLast(f: OpenFile, outputs: seq<ChunkOutput>, ghost consumed: seq<Row>) returns (outputs': seq<ChunkOutput>)
      requires Ready(f, outputs, consumed)
      modifies f`groups, f`current
      ensures Written(w, outputs', consumed)
      ensures forall i, j :: 0 <= i < j < |outputs'| ==> outputs'[i].path != outputs'[j].path
    {
      hide OutputOk; hide Chain; hide EndedWell; hide Progress; hide Lean; hide AllLean;
      TailNotEmpty(w, outputs, lastClosedKey, TailOf(f).value, consumed);
      ghost var t := TailOf(f).value;
      var o := f.Close(w.cap);
      AllLeanPush(w, outputs, o);
      PathPush(outputs, o, nextPath);
      LastClosed(w, outputs, lastClosedKey, t, consumed, o);
      outputs' := outputs + [o];
    }

    /** After a slice of `k` the open file has room for more of `k`. */
    lemma FullyTold(f: OpenFile, outputs: seq<ChunkOutput>, k: int, consumed: seq<Row>)
      requires Ready(f, outputs, consumed) && f.currentKey == k
      ensures Room(w, outputs, lastClosedKey, TailOf(f), k)
    {
      hide OutputOk; hide Chain; hide EndedWell; hide Progress; hide IsStats; hide IsMaxKey; hide Collected; hide GroupsOk; hide LastKey;
      hide Lean; hide AllLean;
      TailNotEmpty(w, outputs, lastClosedKey, TailOf(f).value, consumed);
    }
  }

  lemma TailNotEmpty(w: Settings, outputs: seq<ChunkOutput>, last: Option<int>, t: Tail, consumed: seq<Row>)
    requires Progress(w, outputs, last, Some(t), consumed)
    ensures t.content != []
  {
  }

  lemma NothingClosed(w: Settings, outputs: seq<ChunkOutput>, last: Option<int>, consumed: seq<Row>)
    requires Progress(w, outputs, last, None, consumed) && outputs == []
    ensures last == None
  {
  }

  lemma SliceOf(schema: seq<Column>, run: seq<Row>, k: int, start: nat, take: nat)
    requires RowsFit(schema, run) && start + take <= |run| && forall r :: r in run ==> r.key == k
    ensures RowsFit(schema, run[start..start + take]) && forall r :: r in run[start..start + take] ==> r.key == k
  {
  }

  lemma RunOf(schema: seq<Column>, runs: seq<(int, seq<Row>)>, batch: seq<Row>, j: nat)
    requires KeyRuns(runs, batch) && j < |runs| && RowsFit(schema, batch)
    ensures runs[j].1 != [] && (forall r :: r in runs[j].1 ==> r.key == runs[j].0) && RowsFit(schema, runs[j].1)
    ensures Flatten(RunRows(runs)[..j + 1]) == Flatten(RunRows(runs)[..j]) + runs[j].1
  {
    hide RowFits;
    var rows := RunRows(runs);
    assert rows[..j + 1] == rows[..j] + [runs[j].1];
    FlattenPush(rows[..j], runs[j].1);
    assert rows == rows[..j + 1] + rows[j + 1..];
    FlattenAppend(rows[..j + 1], rows[j + 1..]);
    var n := |Flatten(rows[..j])|;
    forall i | 0 <= i < |runs[j].1| ensures RowFits(schema, runs[j].1[i]) { assert batch[n + i] == runs[j].1[i]; }
  }

  lemma WholeBatch(runs: seq<(int, seq<Row>)>, batches: seq<seq<Row>>, i: nat)
    requires i < |batches| && KeyRuns(runs, batches[i])
    ensures Flatten(batches[..i]) + Flatten(RunRows(runs)[..|runs|]) == Flatten(batches[..i + 1])
  {
    assert RunRows(runs)[..|runs|] == RunRows(runs);
    assert batches[..i + 1] == batches[..i] + [batches[i]];
    FlattenPush(batches[..i], batches[i]);
  }

  // ---------------------------------------------------------------- what was written

  /** The files hold the input, end to end, each as its record says; placement shapes the
      cuts, only the last file may end below its target, and none goes on past it. */
  ghost predicate Written(w: Settings, outputs: seq<ChunkOutput>, rows: seq<Row>) {
    && Flatten(Contents(outputs)) == rows
    && (forall i :: 0 <= i < |outputs| ==> OutputOk(w.schema, w.cap, outputs[i]))
    && Chain(w.placement, Contents(outputs))
    && EndedWell(w, outputs, |outputs| - 1)
    && AllLean(w, outputs)
  }

  lemma NothingWritten(w: Settings)
    ensures Progress(w, [], None, None, []) && Settled(w, [], None)
  {
    assert Files([], None) == [];
  }

  lemma AllClosed(w: Settings, outputs: seq<ChunkOutput>, last: Option<int>, consumed: seq<Row>)
    requires Progress(w, outputs, last, None, consumed) && AllLean(w, outputs)
    ensures Written(w, outputs, consumed)
  {
    assert Files(outputs, None) == Contents(outputs);
  }

  lemma LastClosed(w: Settings, outputs: seq<ChunkOutput>, last: Option<int>, t: Tail, consumed: seq<Row>, o: ChunkOutput)
    requires Progress(w, outputs, last, Some(t), consumed) && OutputOk(w.schema, w.cap, o) && Flatten(o.file) == t.content
    requires AllLean(w, outputs + [o])
    ensures Written(w, outputs + [o], consumed)
  {
    hide OutputOk;
    ContentsPush(outputs, o);
    assert Files(outputs, Some(t)) == Contents(outputs + [o]);
  }

  // ---------------------------------------------------------------- sorted input

  predicate InOrder(a: seq<Row>, b: seq<Row>) {
    forall x, y :: x in a && y in b ==> x.key <= y.key
  }

  lemma JoinInOrder(a: seq<Row>, b: seq<Row>)
    requires KeySorted(a + b)
    ensures KeySorted(a) && KeySorted(b) && InOrder(a, b)
  {
    var all := a + b;
    assert forall i :: 0 <= i < |a| ==> a[i] == all[i];
    assert forall i :: 0 <= i < |b| ==> b[i] == all[|a| + i];
    forall x, y | x in a && y in b ensures x.key <= y.key {
      var i :| 0 <= i < |a| && a[i] == x;
      var j :| 0 <= j < |b| && b[j] == y;
      assert all[i] == x && all[|a| + j] == y;
    }
  }

  /** Rows of a sorted sequence of pieces are in order within and across pieces. */
  lemma {:induction false} PiecesInOrder(pieces: seq<seq<Row>>)
    requires KeySorted(Flatten(pieces))
    ensures forall i :: 0 <= i < |pieces| ==> KeySorted(pieces[i])
    ensures forall i, j :: 0 <= i < j < |pieces| ==> InOrder(pieces[i], pieces[j])
  {
    hide KeySorted; hide InOrder;
    if pieces != [] {
      var rest := pieces[1..];
      JoinInOrder(pieces[0], Flatten(rest));
      PiecesInOrder(rest);
      forall j | 0 < j < |pieces| ensures InOrder(pieces[0], pieces[j]) {
        BeforeAPiece(pieces[0], rest, j - 1);
        assert rest[j - 1] == pieces[j];
      }
      assert forall i :: 0 < i < |pieces| ==> pieces[i] == rest[i - 1];
    }
  }

  lemma BeforeAPiece(a: seq<Row>, rest: seq<seq<Row>>, i: nat)
    requires InOrder(a, Flatten(rest)) && i < |rest|
    ensures InOrder(a, rest[i])
  {
    forall x, y | x in a && y in rest[i] ensures x.key <= y.key { FlattenHolds(rest, i, y); }
  }

  /** The recorded range is the file's first and last key and brackets the rest. */
  predicate Ends(o: ChunkOutput) {
    var f := Flatten(o.file);
    && f != [] && f[0].key == o.keyMin && f[|f| - 1].key == o.keyMax
    && forall r :: r in f ==> o.keyMin <= r.key <= o.keyMax
  }

  lemma EndsAreExtremes(w: Settings, o: ChunkOutput)
    requires OutputOk(w.schema, w.cap, o) && KeySorted(Flatten(o.file))
    ensures Ends(o)
  {
    hide IndexOk; hide Flatten; hide GroupsOk;
    var f := Flatten(o.file);
    assert f[|f| - 1] in f;
    var r :| r in f && r.key == o.keyMax;
    var i :| 0 <= i < |f| && f[i] == r;
    assert f[i].key <= f[|f| - 1].key;
  }

  lemma AllEnds(w: Settings, outputs: seq<ChunkOutput>, rows: seq<Row>)
    requires Written(w, outputs, rows) && KeySorted(rows)
    ensures forall i :: 0 <= i < |outputs| ==> Ends(outputs[i]) && KeySorted(Contents(outputs)[i])
    ensures forall i, j :: 0 <= i < j < |outputs| ==> InOrder(Contents(outputs)[i], Contents(outputs)[j])
  {
    var files := Contents(outputs);
    PiecesInOrder(files);
    forall i | 0 <= i < |outputs| ensures Ends(outputs[i]) {
      assert files[i] == Flatten(outputs[i].file);
      EndsAreExtremes(w, outputs[i]);
    }
  }

  lemma EndsInOrder(a: ChunkOutput, b: ChunkOutput)
    requires Ends(a) && Ends(b) && InOrder(Flatten(a.file), Flatten(b.file))
    ensures a.keyMax <= b.keyMin
    ensures a.keyMax == b.keyMin <==> Continues(Flatten(a.file), Flatten(b.file))
  {
    hide Flatten;
    var f := Flatten(a.file);
    assert f[|f| - 1] in f && Flatten(b.file)[0] in Flatten(b.file);
  }

  /** With a sorted stream the recorded key ranges are exact, the files are in key
      order, and two files share a key only where a size-targeted key goes on: then
      every later one of the two holds nothing else. */
  lemma FilesInKeyOrder(w: Settings, outputs: seq<ChunkOutput>, rows: seq<Row>)
    requires Written(w, outputs, rows) && KeySorted(rows)
    ensures forall i :: 0 <= i < |outputs| ==> Ends(outputs[i])
    ensures forall i, j :: 0 <= i < j < |outputs| ==> outputs[i].keyMax <= outputs[j].keyMin
    ensures forall i :: 0 < i < |outputs| && outputs[i - 1].keyMax == outputs[i].keyMin ==>
              w.placement.SizeTargeted? && outputs[i].keyMin == outputs[i].keyMax
  {
    hide Flatten; hide Continues; hide SingleKey; hide Written; hide Ends; hide KeySorted; hide InOrder; hide Chain;
    AllEnds(w, outputs, rows);
    var files := Contents(outputs);
    ChainOf(w, outputs, rows);
    forall i, j | 0 <= i < j < |outputs| ensures outputs[i].keyMax <= outputs[j].keyMin {
      assert InOrder(files[i], files[j]);
      EndsInOrder(outputs[i], outputs[j]);
    }
    forall i | 0 < i < |outputs| && outputs[i - 1].keyMax == outputs[i].keyMin
      ensures w.placement.SizeTargeted? && outputs[i].keyMin == outputs[i].keyMax
    {
      assert InOrder(files[i - 1], files[i]);
      EndsInOrder(outputs[i - 1], outputs[i]);
      SharedKeyIsDedicated(w.placement, files, i);
      SingleEnds(outputs[i]);
    }
  }

  lemma ChainOf(w: Settings, outputs: seq<ChunkOutput>, rows: seq<Row>)
    requires Written(w, outputs, rows)
    ensures Chain(w.placement, Contents(outputs))
  {
    hide Chain; hide OutputOk; hide EndedWell; hide AllLean; hide Flatten;
  }

  lemma SingleEnds(o: ChunkOutput)
    requires Ends(o) && SingleKey(Flatten(o.file))
    ensures o.keyMin == o.keyMax
  {
    hide Flatten;
  }

  lemma SharedKeyIsDedicated(p: Placement, files: seq<seq<Row>>, i: nat)
    requires Chain(p, files) && 0 < i < |files| && Continues(files[i - 1], files[i])
    ensures p.SizeTargeted? && SingleKey(files[i])
  {
    hide SingleKey; hide Continues;
  }

  /** Separated placement of a sorted stream gives one file per key. */
  lemma SeparatedIsOneFilePerKey(w: Settings, outputs: seq<ChunkOutput>, rows: seq<Row>)
    requires Written(w, outputs, rows) && KeySorted(rows) && w.placement.Separated?
    ensures forall i :: 0 <= i < |outputs| ==> outputs[i].keyMin == outputs[i].keyMax
    ensures forall i, j :: 0 <= i < j < |outputs| ==> outputs[i].keyMin < outputs[j].keyMin
  {
    hide Flatten;
    FilesInKeyOrder(w, outputs, rows);
    forall i | 0 <= i < |outputs| ensures outputs[i].keyMin == outputs[i].keyMax {
      assert SingleKey(Contents(outputs)[i]);
      SingleEnds(outputs[i]);
    }
    forall i, j | 0 <= i < j < |outputs| ensures outputs[i].keyMin < outputs[j].keyMin {
      assert outputs[i + 1 - 1].keyMax != outputs[i + 1].keyMin;
    }
  }

  /** The key ranges of a file's row groups never interleave, and none is oversized. */
  lemma GroupsInKeyOrder(w: Settings, outputs: seq<ChunkOutput>, rows: seq<Row>, i: nat)
    requires Written(w, outputs, rows) && KeySorted(rows) && i < |outputs|
    ensures forall g :: 0 <= g < |outputs[i].file| ==> 0 < |outputs[i].file[g]| <= w.cap
    ensures forall g, h :: 0 <= g < h < |outputs[i].file| ==> GroupsApart(outputs[i].file[g], outputs[i].file[h])
  {
    AllEnds(w, outputs, rows);
    assert OutputOk(w.schema, w.cap, outputs[i]);
    assert Contents(outputs)[i] == Flatten(outputs[i].file);
    PiecesInOrder(outputs[i].file);
    forall g, h | 0 <= g < h < |outputs[i].file| ensures GroupsApart(outputs[i].file[g], outputs[i].file[h]) {
      RangesApart(outputs[i].file[g], outputs[i].file[h]);
    }
  }

  lemma RangesApart(a: seq<Row>, b: seq<Row>)
    requires a != [] && b != [] && InOrder(a, b)
    ensures GroupsApart(a, b)
  {
    var ra, rb := GroupRange(a), GroupRange(b);
    var x: Row :| x in a && x.key == ra.1;
    var y: Row :| y in b && y.key == rb.0;
  }

  predicate GroupsApart(a: seq<Row>, b: seq<Row>) {
    a != [] && b != [] && GroupRange(a).1 <= GroupRange(b).0
  }
}
