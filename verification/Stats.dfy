/** Column statistics and the key index the three writers store with a part. */
module Stats {
  import opened Base
  import opened Rows

  // ---------------------------------------------------------------- JSON and the key-set codec

  /** A serialized key set, or bytes that decode to nothing. */
  datatype Blob = Keys(keys: set<int>) | Garbage(n: nat)

  datatype Json =
    | JNum(n: int)
    | JStr(blob: Blob)
    | JArr(items: seq<Json>)
    | JObj(fields: map<string, Json>)
    | JOther

  const PACKING_KEYS_STAT := "packing_keys"
  const KEY_ROW_GROUPS_STAT := "key_row_groups"
  const MAX_BITMAP_KEYS := 10000

  /** Whether `key` is in the encoded set; nothing when that cannot be decided. */
  function BitmapContains(encoded: Blob, key: int): (r: Option<bool>) {
    if key < 0 then None
    else match encoded
      case Garbage(_) => None
      case Keys(s) => Some(key in s)
  }

  // ---------------------------------------------------------------- columns

  datatype Column = Column(name: string, int64: bool)

  /** A row of a table: an integer packing key, one cell per column, integers in integer
      columns only. */
  predicate RowFits(schema: seq<Column>, r: Row) {
    && InI64(r.key)
    && |r.cells| == |schema|
    && forall i :: 0 <= i < |schema| ==> (r.cells[i].Int64? ==> schema[i].int64 && InI64(r.cells[i].v))
  }

  predicate RowsFit(schema: seq<Column>, rows: seq<Row>) {
    forall k :: 0 <= k < |rows| ==> RowFits(schema, rows[k])
  }

  predicate DistinctNames(schema: seq<Column>) {
    forall i, j :: 0 <= i < j < |schema| ==> schema[i].name != schema[j].name
  }

  /** The non-null values of one column. */
  ghost function Values(rows: seq<Row>, i: nat): set<int> {
    set k | 0 <= k < |rows| && i < |rows[k].cells| && rows[k].cells[i].Int64? :: rows[k].cells[i].v
  }

  /** The exact least and greatest of a set; nothing for the empty set. */
  ghost predicate IsRange(values: set<int>, range: Option<(int, int)>) {
    match range
    case None => values == {}
    case Some((mn, mx)) => mn in values && mx in values && forall v :: v in values ==> mn <= v <= mx
  }

  function Lookup(stats: map<string, (int, int)>, name: string): Option<(int, int)> {
    if name in stats then Some(stats[name]) else None
  }

  /** The statistics of `rows`: every integer column with a value has an entry, its
      exact least and greatest value, and no other name has one. */
  ghost predicate IsStats(schema: seq<Column>, rows: seq<Row>, stats: map<string, (int, int)>) {
    && (forall i :: 0 <= i < |schema| ==> IsRange(Values(rows, i), Lookup(stats, schema[i].name)))
    && (forall name :: name in stats ==> exists i :: 0 <= i < |schema| && schema[i].name == name)
  }

  lemma ValuesJoin(a: seq<Row>, b: seq<Row>, i: nat)
    ensures Values(a + b, i) == Values(a, i) + Values(b, i)
  {
    var j := a + b;
    forall v ensures v in Values(j, i) <==> v in Values(a, i) + Values(b, i) {
      if v in Values(j, i) {
        var k :| 0 <= k < |j| && i < |j[k].cells| && j[k].cells[i].Int64? && j[k].cells[i].v == v;
        if k < |a| { assert a[k] == j[k]; } else { assert b[k - |a|] == j[k]; }
      }
      if v in Values(a, i) {
        var k :| 0 <= k < |a| && i < |a[k].cells| && a[k].cells[i].Int64? && a[k].cells[i].v == v;
        assert j[k] == a[k];
      }
      if v in Values(b, i) {
        var k :| 0 <= k < |b| && i < |b[k].cells| && b[k].cells[i].Int64? && b[k].cells[i].v == v;
        assert j[|a| + k] == b[k];
      }
    }
  }

  lemma RangeUnique(values: set<int>, x: Option<(int, int)>, y: Option<(int, int)>)
    requires IsRange(values, x) && IsRange(values, y)
    ensures x == y
  {
  }

  /** Statistics are unique, so feeding slices or the whole gives one result. */
  lemma StatsUnique(schema: seq<Column>, rows: seq<Row>, a: map<string, (int, int)>, b: map<string, (int, int)>)
    requires IsStats(schema, rows, a) && IsStats(schema, rows, b)
    ensures a == b
  {
    hide Values; hide IsRange;
    forall name | name in a || name in b ensures Lookup(a, name) == Lookup(b, name) {
      var i :| 0 <= i < |schema| && schema[i].name == name;
      RangeUnique(Values(rows, i), Lookup(a, name), Lookup(b, name));
    }
    assert forall name :: name in a.Keys + b.Keys ==> Lookup(a, name) == Lookup(b, name);
  }

  function Wider(x: Option<(int, int)>, y: Option<(int, int)>): Option<(int, int)> {
    if x.None? then y else if y.None? then x
    else Some((if y.value.0 < x.value.0 then y.value.0 else x.value.0, if y.value.1 > x.value.1 then y.value.1 else x.value.1))
  }

  lemma RangeJoin(a: set<int>, x: Option<(int, int)>, b: set<int>, y: Option<(int, int)>)
    requires IsRange(a, x) && IsRange(b, y)
    ensures IsRange(a + b, Wider(x, y))
  {
  }

  class Int64StatsAccumulator {
    var stats: map<string, (int, int)>

    constructor (schema: seq<Column>)
      ensures IsStats(schema, [], stats)
    {
      stats := map[];
    }

    /** Folds one batch's integer columns into the running least and greatest values. */
    method Update(schema: seq<Column>, batch: seq<Row>, ghost seen: seq<Row>)
      requires DistinctNames(schema) && RowsFit(schema, batch) && IsStats(schema, seen, stats)
      modifies this
      ensures IsStats(schema, seen + batch, stats)
    {
      hide Values; hide RowFits; hide IsRange;
      for i := 0 to |schema|
        invariant forall j :: 0 <= j < i ==> IsRange(Values(seen + batch, j), Lookup(stats, schema[j].name))
        invariant forall j :: i <= j < |schema| ==> IsRange(Values(seen, j), Lookup(stats, schema[j].name))
        invariant forall name :: name in stats ==> exists i :: 0 <= i < |schema| && schema[i].name == name
      {
        ValuesJoin(seen, batch, i);
        ghost var was := Lookup(stats, schema[i].name);
        if !schema[i].int64 {
          NoIntegers(schema, batch, i);
          assert Values(seen, i) + {} == Values(seen, i);
          continue;
        }
        var range := Range(batch, i);
        RangeJoin(Values(seen, i), was, Values(batch, i), range);
        if range.None? { continue; }
        var name := schema[i].name;
        if name in stats {
          var (mn, mx) := stats[name];
          stats := stats[name := (if range.value.0 < mn then range.value.0 else mn,
                                  if range.value.1 > mx then range.value.1 else mx)];
        } else {
          stats := stats[name := range.value];
        }
        assert Lookup(stats, name) == Wider(was, range);
      }
    }
  }

  /** Least and greatest non-null value of a column. */
  method Range(batch: seq<Row>, i: nat) returns (r: Option<(int, int)>)
    ensures IsRange(Values(batch, i), r)
  {
    hide Values; hide IsRange;
    r := None;
    NoValues(i);
    for k := 0 to |batch|
      invariant IsRange(Values(batch[..k], i), r)
    {
      ValuesJoin(batch[..k], [batch[k]], i);
      assert batch[..k + 1] == batch[..k] + [batch[k]];
      ValuesOne(batch[k], i);
      if i < |batch[k].cells| && batch[k].cells[i].Int64? {
        var v := batch[k].cells[i].v;
        RangeJoin(Values(batch[..k], i), r, {v}, Some((v, v)));
        r := Some(match r
                  case None => (v, v)
                  case Some((mn, mx)) => (if v < mn then v else mn, if v > mx then v else mx));
      } else {
        RangeJoin(Values(batch[..k], i), r, {}, None);
      }
    }
    assert batch[..|batch|] == batch;
  }

  lemma NoValues(i: nat)
    ensures IsRange(Values([], i), None)
  {
  }

  lemma ValuesOne(r: Row, i: nat)
    ensures Values([r], i) == if i < |r.cells| && r.cells[i].Int64? then {r.cells[i].v} else {}
  {
    if i < |r.cells| && r.cells[i].Int64? { assert [r][0] == r; }
  }

  lemma NoIntegers(schema: seq<Column>, batch: seq<Row>, i: nat)
    requires i < |schema| && RowsFit(schema, batch) && !schema[i].int64
    ensures Values(batch, i) == {}
  {
    forall k | 0 <= k < |batch| ensures !batch[k].cells[i].Int64? { assert RowFits(schema, batch[k]); }
  }

  // ---------------------------------------------------------------- the key set

  function KeysOf(rows: seq<Row>): set<int> {
    set r | r in rows :: r.key
  }

  /** The distinct packing keys of the rows fed so far, unless a negative one was seen. */
  ghost predicate Collected(rows: seq<Row>, keys: set<int>, poisoned: bool) {
    && (poisoned <==> exists k :: k in KeysOf(rows) && k < 0)
    && (!poisoned ==> keys == KeysOf(rows))
  }

  lemma KeysJoin(a: seq<Row>, b: seq<Row>)
    ensures KeysOf(a + b) == KeysOf(a) + KeysOf(b)
  {
    assert forall r :: r in a + b <==> r in a || r in b;
  }

  class KeyBitmapAccumulator {
    var keys: set<int>
    var poisoned: bool

    constructor ()
      ensures Collected([], keys, poisoned)
    {
      keys, poisoned := {}, false;
    }

    /** Folds one batch's packing keys in; a negative key poisons the set for good. */
    method Update(batch: seq<Row>, ghost seen: seq<Row>)
      requires Collected(seen, keys, poisoned)
      modifies this
      ensures Collected(seen + batch, keys, poisoned)
    {
      hide KeysOf;
      KeysJoin(seen, batch);
      if poisoned { return; }
      assert seen + batch[..0] == seen;
      for k := 0 to |batch|
        invariant !poisoned && Collected(seen + batch[..k], keys, poisoned)
      {
        assert seen + batch[..k + 1] == seen + batch[..k] + [batch[k]];
        KeysJoin(seen + batch[..k], [batch[k]]);
        OneKey(batch[k]);
        if batch[k].key < 0 {
          poisoned := true;
          assert seen + batch == seen + batch[..k + 1] + batch[k + 1..];
          KeysJoin(seen + batch[..k + 1], batch[k + 1..]);
          return;
        }
        keys := keys + {batch[k].key};
      }
      assert seen + batch[..|batch|] == seen + batch;
    }

    /** The encoded set, unless poisoned, empty or too large to be worth storing. */
    method Finish(ghost rows: seq<Row>) returns (r: Option<Blob>)
      requires Collected(rows, keys, poisoned)
      ensures r.Some? <==> (forall k :: k in KeysOf(rows) ==> k >= 0) && 0 < |KeysOf(rows)| <= 10000
      ensures r.Some? ==> r.value == Keys(KeysOf(rows))
    {
      if poisoned || keys == {} { return None; }
      if |keys| > MAX_BITMAP_KEYS { return None; }
      return Some(Keys(keys));
    }
  }

  lemma OneKey(r: Row)
    ensures KeysOf([r]) == {r.key}
  {
    assert r in [r];
  }

  // ---------------------------------------------------------------- row-group spans

  /** Key statistics of each row group as the file's metadata has them, if at all. */
  type GroupMeta = Option<(int, int)>

  /** The spans, all or nothing: a gap would shift every later one. */
  method KeyRowGroups(groups: seq<GroupMeta>) returns (r: Option<Json>)
    ensures r.Some? <==> groups != [] && forall i :: 0 <= i < |groups| ==> groups[i].Some?
    ensures r.Some? ==> r.value.JArr? && |r.value.items| == |groups|
                        && forall i :: 0 <= i < |groups| ==> groups[i].Some? && r.value.items[i] == SpanJson(groups[i].value)
  {
    if groups == [] { return None; }
    var spans: seq<Json> := [];
    for i := 0 to |groups|
      invariant |spans| == i
      invariant forall j :: 0 <= j < i ==> groups[j].Some? && spans[j] == SpanJson(groups[j].value)
    {
      if groups[i].None? { return None; }
      spans := spans + [SpanJson(groups[i].value)];
    }
    return Some(JArr(spans));
  }

  function SpanJson(span: (int, int)): Json {
    JArr([JNum(span.0), JNum(span.1)])
  }

  function RangeJson(range: (int, int)): Json {
    JObj(map["min" := JNum(range.0), "max" := JNum(range.1)])
  }

  /** `{"col": {"min", "max"}}`, nothing when no column has a value. */
  function StatsJson(stats: map<string, (int, int)>): Option<map<string, Json>> {
    if stats == map[] then None else Some(map name | name in stats :: RangeJson(stats[name]))
  }

  /** The key index joins the statistics object under its two reserved names. */
  function WithKeyIndex(stats: Option<map<string, Json>>, bitmap: Option<Blob>, spans: Option<Json>): Option<map<string, Json>> {
    if bitmap.None? && spans.None? then stats
    else
      var m0 := if stats.Some? then stats.value else map[];
      var m1 := if bitmap.Some? then m0[PACKING_KEYS_STAT := JStr(bitmap.value)] else m0;
      Some(if spans.Some? then m1[KEY_ROW_GROUPS_STAT := spans.value] else m1)
  }

  /** What a record holds: the least and the greatest value of every column that has one,
      the key set and the spans under their own names — and those names' columns hidden
      behind them. Nothing at all is recorded exactly when there is nothing to record. */
  lemma RecordMeans(ranges: map<string, (int, int)>, bitmap: Option<Blob>, spans: Option<Json>)
    ensures var stats := WithKeyIndex(StatsJson(ranges), bitmap, spans);
            && (stats.None? <==> ranges == map[] && bitmap.None? && spans.None?)
            && (stats.Some? ==>
                  && (forall name :: name in stats.value <==>
                        name in ranges || (bitmap.Some? && name == "packing_keys") || (spans.Some? && name == "key_row_groups"))
                  && (spans.Some? ==> stats.value["key_row_groups"] == spans.value)
                  && (bitmap.Some? ==> stats.value["packing_keys"] == JStr(bitmap.value))
                  && (forall name :: name in ranges && !(bitmap.Some? && name == "packing_keys") && !(spans.Some? && name == "key_row_groups") ==>
                        stats.value[name] == JObj(map["min" := JNum(ranges[name].0), "max" := JNum(ranges[name].1)])))
  {
    if ranges != map[] { assert exists name :: name in ranges; }
  }

  // ---------------------------------------------------------------- one-shot forms

  /** Exact statistics of one batch. */
  method Int64ColumnStats(schema: seq<Column>, batch: seq<Row>) returns (stats: map<string, (int, int)>)
    requires DistinctNames(schema) && RowsFit(schema, batch)
    ensures IsStats(schema, batch, stats)
  {
    hide Values; hide RowFits; hide IsRange;
    stats := map[];
    for i := 0 to |schema|
      invariant forall j :: 0 <= j < i ==> IsRange(Values(batch, j), Lookup(stats, schema[j].name))
      invariant forall name :: name in stats ==> exists j :: 0 <= j < i && schema[j].name == name
    {
      assert schema[i].name !in stats;
      if !schema[i].int64 {
        NoIntegers(schema, batch, i);
        NoRange(batch, i);
        continue;
      }
      var range := Range(batch, i);
      if range.None? { continue; }
      stats := stats[schema[i].name := range.value];
      assert Lookup(stats, schema[i].name) == range;
    }
  }

  lemma NoRange(batch: seq<Row>, i: nat)
    requires Values(batch, i) == {}
    ensures IsRange(Values(batch, i), None)
  {
  }

  /** The key set of one batch. */
  method KeyBitmap(batch: seq<Row>) returns (r: Option<Blob>)
    ensures r.Some? <==> (forall k :: k in KeysOf(batch) ==> k >= 0) && 0 < |KeysOf(batch)| <= MAX_BITMAP_KEYS
    ensures r.Some? ==> r.value == Keys(KeysOf(batch))
  {
    hide KeysOf;
    var acc := new KeyBitmapAccumulator();
    acc.Update(batch, []);
    assert [] + batch == batch;
    r := acc.Finish(batch);
  }
}
