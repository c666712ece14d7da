/** What the writers record is sound, so the scan may act on it: from written rows to
    scanned rows. */
module Indexing {
  import opened Base
  import opened Rows
  import opened Stats
  import opened KeyFilter
  import opened ChunkWriter
  import opened Encoding
  import opened Pruning

  /** The key filter the catalog derives for a part from its recorded key set: one for
      every decodable set of 2 to 8000 keys from zero up, none otherwise. */
  method KeyFilterOf(stats: Option<map<string, Json>>) returns (r: Option<seq<bv8>>)
    ensures Derives(stats, r)
  {
    if stats.None? || PACKING_KEYS_STAT !in stats.value { return None; }
    var j := stats.value[PACKING_KEYS_STAT];
    if !j.JStr? || j.blob.Garbage? { return None; }
    var keys := BitmapKeys(j.blob.keys);
    ElementsCardinality(keys);
    r := Build(keys);
    SameMembers(keys, j.blob.keys);
    assert r.Some? ==> FilterOver(r.value, keys, j.blob.keys);
  }

  /** The recorded set is one the catalog filters. */
  predicate Filterable(stats: Option<map<string, Json>>) {
    && Recorded(stats).Some? && 2 <= |Recorded(stats).value| <= MAX_KEYS_WORTH_FILTERING
    && forall k :: k in Recorded(stats).value ==> k >= 0
  }

  ghost predicate Derives(stats: Option<map<string, Json>>, filter: Option<seq<bv8>>) {
    (filter.Some? <==> Filterable(stats)) && Derived(stats, filter)
  }

  /** The decodable key set of a part's statistics. */
  function Recorded(stats: Option<map<string, Json>>): Option<set<int>> {
    if stats.Some? && PACKING_KEYS_STAT in stats.value && stats.value[PACKING_KEYS_STAT].JStr?
       && stats.value[PACKING_KEYS_STAT].blob.Keys?
    then Some(stats.value[PACKING_KEYS_STAT].blob.keys) else None
  }

  /** The members of a decoded set, each once. */
  method BitmapKeys(s: set<int>) returns (keys: seq<int>)
    ensures Elements(keys) == s && Distinct(keys)
  {
    keys := [];
    var rest := s;
    while rest != {}
      invariant rest <= s && Distinct(keys)
      invariant forall k :: k in s <==> k in keys || k in rest
      invariant forall k :: k in keys ==> k !in rest
    {
      NotEmpty(rest);
      var k :| k in rest;
      OneMore(keys, k);
      keys, rest := keys + [k], rest - {k};
    }
    assert forall k :: k in s <==> k in keys;
  }

  lemma SameMembers(keys: seq<int>, s: set<int>)
    requires Elements(keys) == s
    ensures forall k :: k in keys <==> k in s
  {
    assert forall k :: k in keys <==> k in Elements(keys);
  }

  lemma NotEmpty(s: set<int>)
    requires s != {}
    ensures exists k :: k in s
  {
    if forall k :: k !in s { assert false; }
  }

  lemma OneMore(keys: seq<int>, k: int)
    requires Distinct(keys) && k !in keys
    ensures Distinct(keys + [k])
    ensures forall x :: x in keys + [k] <==> x in keys || x == k
  {
  }

  function AsPart(e: EncodedPart, filter: Option<seq<bv8>>): PartFile {
    PartFile(e.file, e.keyMin, e.keyMax, e.columnStats, filter)
  }

  /** The filter is over the recorded set, or there is none. */
  ghost predicate Derived(stats: Option<map<string, Json>>, filter: Option<seq<bv8>>) {
    filter.Some? ==> Recorded(stats).Some? && exists keys :: FilterOver(filter.value, keys, Recorded(stats).value)
  }

  ghost predicate FilterOver(blob: seq<bv8>, keys: seq<int>, recorded: set<int>) {
    Elements(keys) == recorded && Distinct(keys) && IsFilter(blob, keys)
  }

  /** A part as one of the writers recorded it, its filter derived or left out. */
  ghost predicate WrittenPart(schema: seq<Column>, p: PartFile) {
    exists e, filter :: RecordOk(schema, e) && Derived(e.columnStats, filter) && p == AsPart(e, filter)
  }

  /** A written part as the catalog registers it, with the filter it derives. */
  ghost predicate Registered(schema: seq<Column>, p: PartFile) {
    exists e, filter :: RecordOk(schema, e) && Derives(e.columnStats, filter) && p == AsPart(e, filter)
  }

  /** Registration: the record as it is, the filter derived from it. */
  method Register(schema: seq<Column>, e: EncodedPart) returns (p: PartFile)
    requires RecordOk(schema, e)
    ensures Registered(schema, p) && p == AsPart(e, p.filter)
    ensures p.filter.Some? <==> Filterable(e.columnStats)
  {
    hide RecordOk; hide Derived; hide Filterable;
    var filter := KeyFilterOf(e.columnStats);
    p := AsPart(e, filter);
    assert Derives(e.columnStats, filter);
  }

  lemma RegisteredIsWritten(schema: seq<Column>, p: PartFile)
    requires Registered(schema, p)
    ensures WrittenPart(schema, p)
  {
    hide RecordOk; hide Derived;
    var e, filter :| RecordOk(schema, e) && Derives(e.columnStats, filter) && p == AsPart(e, filter);
    assert Derived(e.columnStats, filter);
  }

  lemma EntryOfStats(ranges: map<string, (int, int)>, bitmap: Option<Blob>, spans: Option<Json>, name: string)
    requires var stats := WithKeyIndex(StatsJson(ranges), bitmap, spans); stats.Some? && name in stats.value
    ensures var j := WithKeyIndex(StatsJson(ranges), bitmap, spans).value[name];
            || (spans.Some? && name == KEY_ROW_GROUPS_STAT && j == spans.value)
            || (bitmap.Some? && name == PACKING_KEYS_STAT && j == JStr(bitmap.value))
            || (name in ranges && j == RangeJson(ranges[name]))
  {
  }

  lemma RangeBrackets(schema: seq<Column>, rows: seq<Row>, ranges: map<string, (int, int)>, i: nat)
    requires i < |schema| && IsStats(schema, rows, ranges) && schema[i].name in ranges
    ensures ColumnSound(rows, i, RangeJson(ranges[schema[i].name]))
  {
    hide Values;
    assert IsRange(Values(rows, i), Lookup(ranges, schema[i].name));
    forall r | r in rows && i < |r.cells| && r.cells[i].Int64? ensures r.cells[i].v in Values(rows, i) { ValueOfRow(rows, i, r); }
  }

  lemma ValueOfRow(rows: seq<Row>, i: nat, r: Row)
    requires r in rows && i < |r.cells| && r.cells[i].Int64?
    ensures r.cells[i].v in Values(rows, i)
  {
    var k :| 0 <= k < |rows| && rows[k] == r;
  }

  lemma SpansAreSound(file: seq<seq<Row>>, spans: Json)
    requires SpansOk(file, true, Some(spans))
    ensures SpansSound(file, Some(spans))
  {
    forall i, r | 0 <= i < |file| && r in file[i]
      ensures SpanOf(spans.items[i]).Some? && SpanOf(spans.items[i]).value.0 <= r.key <= SpanOf(spans.items[i]).value.1
    {
      assert spans.items[i] == SpanJson(GroupRange(file[i]));
    }
  }

  /** The filter the catalog derived never denies a key of the part. */
  lemma FilterIsSound(rows: seq<Row>, stats: Option<map<string, Json>>, filter: Option<seq<bv8>>)
    requires filter.Some? ==> Recorded(stats) == Some(KeysOf(rows)) && exists keys :: FilterOver(filter.value, keys, KeysOf(rows))
    ensures FilterSound(rows, filter)
  {
    if filter.Some? {
      var keys :| FilterOver(filter.value, keys, KeysOf(rows));
      forall r | r in rows ensures FilterAnswer(filter, r.key) == Some(true) {
        assert r.key in KeysOf(rows);
        assert r.key in keys;
        PresentKeyIsNeverDenied(keys, filter.value, r.key);
        KeysNotNegative(keys, filter.value, r.key);
        SqlAgrees(3, [ArmOf(3, 0), ArmOf(3, 1), ArmOf(3, 2)], filter.value, r.key);
      }
    }
  }

  lemma KeysNotNegative(keys: seq<int>, blob: seq<bv8>, k: int)
    requires IsFilter(blob, keys) && k in keys
    ensures k >= 0
  {
  }

  /** Every file a writer outputs, with the filter the catalog derives, carries only sound
      index data: streamed, written in one batch, or rewritten without a key. */
  lemma WrittenIsSound(schema: seq<Column>, e: EncodedPart, filter: Option<seq<bv8>>)
    requires RecordOk(schema, e) && Derived(e.columnStats, filter)
    ensures Sound(schema, AsPart(e, filter))
  {
    hide IsStats; hide StatsJson; hide WithKeyIndex; hide Flatten; hide RowsFit; hide ColumnSound; hide SpansSound; hide IsFilter;
    hide FilterSound; hide KeysOf; hide IndexParts;
    var rows, p := Flatten(e.file), AsPart(e, filter);
    var ranges, bitmap, spans :| MadeOf(schema, e, ranges, bitmap, spans);
    forall name | IntColumn(schema, name) && Field(p, name).Some?
      ensures ColumnSound(rows, ColumnOf(schema, name).value, Field(p, name).value)
    {
      EntryOfStats(ranges, bitmap, spans, name);
      IndexEntriesSayNothing(e, bitmap, spans, rows, ColumnOf(schema, name).value);
      if name in ranges { RangeBrackets(schema, rows, ranges, ColumnOf(schema, name).value); }
    }
    BitmapEntry(e, ranges, bitmap, spans);
    AllKeys(rows);
    SpansEntry(e, ranges, bitmap, spans);
    FilterIsSound(rows, e.columnStats, filter);
  }

  /** An index entry has no bound to read. */
  lemma IndexEntriesSayNothing(e: EncodedPart, bitmap: Option<Blob>, spans: Option<Json>, rows: seq<Row>, i: nat)
    requires IndexParts(e, bitmap, spans)
    ensures bitmap.Some? ==> ColumnSound(rows, i, JStr(bitmap.value))
    ensures spans.Some? ==> spans.value.JArr? && ColumnSound(rows, i, spans.value)
  {
    hide Flatten;
  }

  lemma BitmapEntry(e: EncodedPart, ranges: map<string, (int, int)>, bitmap: Option<Blob>, spans: Option<Json>)
    requires e.columnStats == WithKeyIndex(StatsJson(ranges), bitmap, spans) && IndexParts(e, bitmap, spans)
    ensures Recorded(e.columnStats).Some? <==> bitmap.Some?
    ensures bitmap.Some? ==> Recorded(e.columnStats).value == KeysOf(Flatten(e.file))
    ensures BitmapSound(Flatten(e.file), if e.columnStats.Some? && PACKING_KEYS_STAT in e.columnStats.value
                                         then Some(e.columnStats.value[PACKING_KEYS_STAT]) else None)
  {
    hide Flatten; hide SpansOk;
    if e.columnStats.Some? && PACKING_KEYS_STAT in e.columnStats.value { EntryOfStats(ranges, bitmap, spans, PACKING_KEYS_STAT); }
  }

  lemma SpansEntry(e: EncodedPart, ranges: map<string, (int, int)>, bitmap: Option<Blob>, spans: Option<Json>)
    requires e.columnStats == WithKeyIndex(StatsJson(ranges), bitmap, spans) && IndexParts(e, bitmap, spans)
    ensures SpansSound(e.file, if e.columnStats.Some? && KEY_ROW_GROUPS_STAT in e.columnStats.value
                               then Some(e.columnStats.value[KEY_ROW_GROUPS_STAT]) else None)
  {
    if e.columnStats.Some? && KEY_ROW_GROUPS_STAT in e.columnStats.value {
      EntryOfStats(ranges, bitmap, spans, KEY_ROW_GROUPS_STAT);
      if spans.Some? && e.columnStats.value[KEY_ROW_GROUPS_STAT] == spans.value {
        SpansAreMulti(e, spans);
        SpansAreSound(e.file, spans.value);
      } else {
        NoSpans(e.file, e.columnStats.value[KEY_ROW_GROUPS_STAT]);
      }
    } else {
      NoSpans(e.file, JOther);
    }
  }

  lemma SpansAreMulti(e: EncodedPart, spans: Option<Json>)
    requires SpansOk(e.file, e.keyMin != e.keyMax, spans) && spans.Some?
    ensures e.keyMin != e.keyMax
  {
  }

  lemma AllKeys(rows: seq<Row>)
    ensures forall r :: r in rows ==> r.key in KeysOf(rows)
  {
  }

  lemma NoSpans(file: seq<seq<Row>>, j: Json)
    requires !j.JArr?
    ensures SpansSound(file, None) && SpansSound(file, Some(j))
  {
  }

  /** Losing or garbling any entry never turns a sound part into an unsound one; whether a
      scan still finds its rows is a matter of `Readable` alone. */
  lemma LostIndexIsSound(schema: seq<Column>, p: PartFile, name: string, garbage: Json)
    requires Sound(schema, p) && p.stats.Some?
    requires garbage.JOther? || (garbage.JStr? && garbage.blob.Garbage?) || garbage == JObj(map[]) || garbage == JArr([])
    ensures Sound(schema, p.(stats := None)) && Sound(schema, p.(filter := None))
    ensures Sound(schema, p.(stats := Some(p.stats.value - {name})))
    ensures Sound(schema, p.(stats := Some(p.stats.value[name := garbage])))
    ensures forall bounds :: Readable(p.(stats := None), bounds)
    ensures forall bounds :: Readable(p, bounds) ==> Readable(p.(stats := Some(p.stats.value - {name})), bounds)
    ensures forall bounds :: Readable(p, bounds) && !(name in bounds && Bounded(bounds[name])) ==>
              Readable(p.(stats := Some(p.stats.value[name := garbage])), bounds)
    ensures forall bounds: Bounds :: name in bounds && Bounded(bounds[name]) ==>
              !Readable(p.(stats := Some(p.stats.value[name := garbage])), bounds)
  {
    hide FilterSound; hide ColumnSound; hide RowsFit; hide Flatten; hide SpansSound;
    NoFilter(Flatten(p.groups));
    GarbageSaysNothing(Flatten(p.groups), p.groups, garbage);
  }

  lemma GarbageSaysNothing(rows: seq<Row>, groups: seq<seq<Row>>, garbage: Json)
    requires garbage.JOther? || (garbage.JStr? && garbage.blob.Garbage?) || garbage == JObj(map[]) || garbage == JArr([])
    ensures forall i :: ColumnSound(rows, i, garbage)
    ensures SpansSound(groups, Some(garbage)) && SpansSound(groups, None)
    ensures SubNum(garbage, "min").None? && SubNum(garbage, "max").None?
  {
  }

  lemma NoFilter(rows: seq<Row>)
    ensures FilterSound(rows, None)
  {
  }

  // ---------------------------------------------------------------- written parts

  /** The index entries a record carries under its two reserved names. */
  predicate HasSpans(p: PartFile) {
    Field(p, KEY_ROW_GROUPS_STAT).Some? && Field(p, KEY_ROW_GROUPS_STAT).value.JArr?
  }

  predicate HasKeySet(p: PartFile) {
    Field(p, PACKING_KEYS_STAT).Some? && Field(p, PACKING_KEYS_STAT).value.JStr?
  }

  predicate BoundOn(bounds: Bounds, name: string) {
    name in bounds && Bounded(bounds[name])
  }

  lemma EntryOfWritten(schema: seq<Column>, p: PartFile, name: string)
    requires WrittenPart(schema, p) && Field(p, name).Some?
    ensures var j := Field(p, name).value;
            || (SubNum(j, "min").Some? && SubNum(j, "max").Some? && j.JObj?)
            || (name == KEY_ROW_GROUPS_STAT && j.JArr?)
            || (name == PACKING_KEYS_STAT && j.JStr?)
  {
    hide IsStats;
    var e, filter :| RecordOk(schema, e) && Derived(e.columnStats, filter) && p == AsPart(e, filter);
    var ranges, bitmap, spans :| MadeOf(schema, e, ranges, bitmap, spans);
    EntryOfStats(ranges, bitmap, spans, name);
    IndexEntriesSayNothing(e, bitmap, spans, [], 0);
  }

  /** A written part is readable exactly when no bounded column bears the name of an index
      entry the part carries. */
  lemma WrittenReadableIff(schema: seq<Column>, p: PartFile, bounds: Bounds)
    requires WrittenPart(schema, p)
    ensures Readable(p, bounds) <==> !(BoundOn(bounds, KEY_ROW_GROUPS_STAT) && HasSpans(p)) && !(BoundOn(bounds, PACKING_KEYS_STAT) && HasKeySet(p))
  {
    hide WrittenPart;
    forall name | name in bounds && Field(p, name).Some?
      ensures Carries(Field(p, name).value, bounds[name]) <==>
              !(Bounded(bounds[name]) && ((name == KEY_ROW_GROUPS_STAT && HasSpans(p)) || (name == PACKING_KEYS_STAT && HasKeySet(p))))
    {
      EntryOfWritten(schema, p, name);
    }
  }

  /** A written part that holds a negative key carries no key set. */
  lemma NegativeKeysHaveNoSet(schema: seq<Column>, p: PartFile, r: Row)
    requires WrittenPart(schema, p) && r in Flatten(p.groups) && r.key < 0
    ensures !HasKeySet(p)
  {
    var e, filter :| RecordOk(schema, e) && Derived(e.columnStats, filter) && p == AsPart(e, filter);
    var ranges, bitmap, spans :| MadeOf(schema, e, ranges, bitmap, spans);
    AllKeys(Flatten(e.file));
    assert bitmap.None?;
    if Field(p, PACKING_KEYS_STAT).Some? {
      EntryOfStats(ranges, bitmap, spans, PACKING_KEYS_STAT);
    }
  }

  ghost predicate AllWritten(q: Query, parts: seq<PartFile>) {
    LiteralsFit(q.filters) && forall i :: 0 <= i < |parts| ==> WrittenPart(q.schema, parts[i])
  }

  lemma WrittenAreSound(q: Query, parts: seq<PartFile>)
    requires AllWritten(q, parts)
    ensures AllSound(q, parts)
  {
    hide Sound; hide RecordOk; hide Derived;
    forall i | 0 <= i < |parts| ensures SoundPart(q.schema, parts[i]) {
      assert WrittenPart(q.schema, parts[i]);
      var e, filter :| RecordOk(q.schema, e) && Derived(e.columnStats, filter) && parts[i] == AsPart(e, filter);
      WrittenIsSound(q.schema, e, filter);
    }
  }

  /** Over written parts the pruned scan is the full scan if and only if no part that holds
      an answer carries an index entry under the name of a bounded column. */
  lemma WrittenPartsScanExactlyIff(q: Query, parts: seq<PartFile>)
    requires AllWritten(q, parts)
    ensures var bounds := BoundsOf(q.schema, q.filters);
            Answer(q, Plan(q, bounds, parts)) == FullAnswer(q, parts)
            <==> forall i :: 0 <= i < |parts| && Holds(q, parts[i]) ==>
                   !(BoundOn(bounds, KEY_ROW_GROUPS_STAT) && HasSpans(parts[i])) && !(BoundOn(bounds, PACKING_KEYS_STAT) && HasKeySet(parts[i]))
  {
    WrittenAreSound(q, parts);
    PrunedEqualsFullIff(q, parts);
    forall i | 0 <= i < |parts| ensures Readable(parts[i], BoundsOf(q.schema, q.filters)) <==>
             !(BoundOn(BoundsOf(q.schema, q.filters), KEY_ROW_GROUPS_STAT) && HasSpans(parts[i]))
             && !(BoundOn(BoundsOf(q.schema, q.filters), PACKING_KEYS_STAT) && HasKeySet(parts[i]))
    {
      WrittenReadableIff(q.schema, parts[i], BoundsOf(q.schema, q.filters));
    }
  }

  /** Some row of the table answers the query; `least` bounds its key from below. */
  ghost predicate Answerable(q: Query, least: Option<int>) {
    exists r :: RowFits(q.schema, r) && Wanted(q, r) && (least.Some? ==> least.value <= r.key)
  }

  /** No bound on the spans' name unless no row answers the query, and none on the key
      set's name unless no row with a key from zero up does: a part with a negative key has
      no key set. */
  ghost predicate Harmless(q: Query) {
    var bounds := BoundsOf(q.schema, q.filters);
    && (BoundOn(bounds, KEY_ROW_GROUPS_STAT) ==> !Answerable(q, None))
    && (BoundOn(bounds, PACKING_KEYS_STAT) ==> !Answerable(q, Some(0)))
  }

  /** What can be read off the query: no bound on the spans' name, and one on the key set's
      name in the slice of a negative key only. */
  predicate Safe(slice: Option<int>, bounds: Bounds) {
    && !BoundOn(bounds, KEY_ROW_GROUPS_STAT)
    && (BoundOn(bounds, PACKING_KEYS_STAT) ==> slice.Some? && slice.value < 0)
  }

  lemma SafeIsHarmless(q: Query)
    requires Safe(q.slice, BoundsOf(q.schema, q.filters))
    ensures Harmless(q)
  {
  }

  lemma RowOfWritten(schema: seq<Column>, p: PartFile, r: Row)
    requires WrittenPart(schema, p) && r in Flatten(p.groups)
    ensures RowFits(schema, r)
  {
    var e, filter :| RecordOk(schema, e) && Derived(e.columnStats, filter) && p == AsPart(e, filter);
    RowFitsHere(schema, Flatten(p.groups), r);
  }

  lemma HarmlessIsExact(q: Query, parts: seq<PartFile>)
    requires AllWritten(q, parts) && Harmless(q)
    ensures Answer(q, Plan(q, BoundsOf(q.schema, q.filters), parts)) == FullAnswer(q, parts)
  {
    hide Plan;
    WrittenPartsScanExactlyIff(q, parts);
    forall i | 0 <= i < |parts| && Holds(q, parts[i])
      ensures !BoundOn(BoundsOf(q.schema, q.filters), KEY_ROW_GROUPS_STAT)
      ensures !(BoundOn(BoundsOf(q.schema, q.filters), PACKING_KEYS_STAT) && HasKeySet(parts[i]))
    {
      var r :| r in Flatten(parts[i].groups) && Wanted(q, r);
      RowOfWritten(q.schema, parts[i], r);
      assert Answerable(q, None);
      if r.key < 0 { NegativeKeysHaveNoSet(q.schema, parts[i], r); } else { assert Answerable(q, Some(0)); }
    }
  }

  // ---------------------------------------------------------------- a part a writer writes

  lemma {:induction false} RangeExists(values: set<int>)
    ensures exists range :: IsRange(values, range)
  {
    if values == {} {
      assert IsRange(values, None);
    } else {
      NotEmpty(values);
      var v :| v in values;
      var rest := values - {v};
      RangeExists(rest);
      var range :| IsRange(rest, range);
      assert IsRange({v}, Some((v, v)));
      RangeJoin(rest, range, {v}, Some((v, v)));
      assert rest + {v} == values;
    }
  }

  lemma {:induction false} StatsExist(schema: seq<Column>, rows: seq<Row>, n: nat)
    requires DistinctNames(schema) && n <= |schema|
    ensures exists stats :: StatsUpto(schema, rows, stats, n)
  {
    hide Values; hide IsRange;
    if n == 0 {
      assert StatsUpto(schema, rows, map[], 0);
    } else {
      StatsExist(schema, rows, n - 1);
      var stats :| StatsUpto(schema, rows, stats, n - 1);
      RangeExists(Values(rows, n - 1));
      var range :| IsRange(Values(rows, n - 1), range);
      assert schema[n - 1].name !in stats;
      assert StatsUpto(schema, rows, if range.None? then stats else stats[schema[n - 1].name := range.value], n);
    }
  }

  ghost predicate StatsUpto(schema: seq<Column>, rows: seq<Row>, stats: map<string, (int, int)>, n: nat)
    requires n <= |schema|
  {
    && (forall i :: 0 <= i < n ==> IsRange(Values(rows, i), Lookup(stats, schema[i].name)))
    && (forall name :: name in stats ==> exists i :: 0 <= i < n && schema[i].name == name)
  }

  /** The row and one of a neighbouring key, in one row group. */
  function TwoKeys(r: Row): seq<seq<Row>> {
    [[r.(key := LowKey(r)), r.(key := LowKey(r) + 1)]]
  }

  /** The key itself, unless there is none above it. */
  function LowKey(r: Row): int {
    if r.key == 0x7fff_ffff_ffff_ffff then r.key - 1 else r.key
  }

  lemma TwoKeysFacts(schema: seq<Column>, r: Row)
    requires RowFits(schema, r)
    ensures var lo := LowKey(r);
            && Flatten(TwoKeys(r)) == TwoKeys(r)[0] && RowsFit(schema, Flatten(TwoKeys(r))) && r in Flatten(TwoKeys(r))
            && KeyRangeExact(Flatten(TwoKeys(r)), lo, lo + 1) && KeysOf(Flatten(TwoKeys(r))) == {lo, lo + 1}
            && GroupRange(TwoKeys(r)[0]) == (lo, lo + 1)
  {
    var g := TwoKeys(r)[0];
    assert Flatten(TwoKeys(r)) == g + Flatten(TwoKeys(r)[1..]);
    assert g[0] in g && g[1] in g;
    assert g[1..] == [r.(key := LowKey(r) + 1)];
    assert r == g[0] || r == g[1];
  }

  /** The key set such a part records. */
  function TwoKeySet(lo: int): Option<Blob> {
    if lo >= 0 then Some(Keys({lo, lo + 1})) else None
  }

  lemma TwoKeyIndex(r: Row)
    ensures BitmapOk(TwoKeys(r)[0], true, TwoKeySet(LowKey(r)))
    ensures SpansOk(TwoKeys(r), true, Some(JArr([SpanJson((LowKey(r), LowKey(r) + 1))])))
  {
    var rows, lo := TwoKeys(r)[0], LowKey(r);
    assert KeysOf(rows) == {lo, lo + 1} by { assert rows[0] in rows && rows[1] in rows; }
    assert |{lo, lo + 1}| == 2;
    assert rows[1..] == [r.(key := lo + 1)];
  }

  /** The catalog has a filter to derive, or none to. */
  lemma DerivableFilter(stats: Option<map<string, Json>>)
    ensures exists filter :: Derives(stats, filter)
  {
    hide IsFilter;
    if Filterable(stats) {
      var keys := ListOf(Recorded(stats).value);
      SameMembers(keys, Recorded(stats).value);
      FilterExists(keys);
      var blob :| IsFilter(blob, keys);
      assert FilterOver(blob, keys, Recorded(stats).value);
      assert Derives(stats, Some(blob));
    } else {
      assert Derives(stats, None);
    }
  }

  lemma {:induction false} ListOf(s: set<int>) returns (keys: seq<int>)
    ensures Elements(keys) == s && Distinct(keys)
  {
    if s == {} {
      keys := [];
    } else {
      NotEmpty(s);
      var k :| k in s;
      keys := ListOf(s - {k});
      OneMore(keys, k);
      keys := keys + [k];
      assert s == s - {k} + {k};
    }
  }

  /** A part of two keys, as the streaming writer records it and the catalog registers it:
      with the spans, and with the key set when no key is negative. */
  lemma TwoKeyPartExists(schema: seq<Column>, r: Row)
    requires DistinctNames(schema) && RowFits(schema, r)
    ensures exists p :: Registered(schema, p) && p.groups == TwoKeys(r) && HasSpans(p) && (r.key >= 0 ==> HasKeySet(p))
  {
    hide Values; hide IsRange; hide Flatten; hide GroupRange; hide KeysOf; hide KeyRangeExact; hide RowsFit; hide StatsJson;
    hide WithKeyIndex; hide BitmapOk; hide SpansOk; hide RowFits; hide DistinctNames; hide Derives; hide TwoKeys;
    var rows, lo := Flatten(TwoKeys(r)), LowKey(r);
    TwoKeysFacts(schema, r);
    StatsExist(schema, rows, |schema|);
    var ranges :| StatsUpto(schema, rows, ranges, |schema|);
    assert IsStats(schema, rows, ranges);
    var bitmap, spans := TwoKeySet(lo), Some(JArr([SpanJson((lo, lo + 1))]));
    TwoKeyIndex(r);
    var e := EncodedPart(TwoKeys(r), lo, lo + 1, |rows|, WithKeyIndex(StatsJson(ranges), bitmap, spans));
    assert IndexParts(e, bitmap, spans);
    assert MadeOf(schema, e, ranges, bitmap, spans);
    hide MadeOf; hide IsStats; hide IndexParts;
    assert RecordOk(schema, e);
    DerivableFilter(e.columnStats);
    var filter :| Derives(e.columnStats, filter);
    assert Registered(schema, AsPart(e, filter));
    IndexIsThere(ranges, bitmap, spans);
  }

  lemma IndexIsThere(ranges: map<string, (int, int)>, bitmap: Option<Blob>, spans: Option<Json>)
    requires spans.Some?
    ensures var stats := WithKeyIndex(StatsJson(ranges), bitmap, spans);
            && stats.Some? && KEY_ROW_GROUPS_STAT in stats.value && stats.value[KEY_ROW_GROUPS_STAT] == spans.value
            && (bitmap.Some? ==> PACKING_KEYS_STAT in stats.value && stats.value[PACKING_KEYS_STAT] == JStr(bitmap.value))
  {
  }

  ghost predicate AllRegistered(q: Query, parts: seq<PartFile>) {
    forall i :: 0 <= i < |parts| ==> Registered(q.schema, parts[i])
  }

  /** For every query the scan is exact over every list of written parts, and over every
      list the catalog registers, if and only if the query is harmless. */
  lemma ExactIffHarmless(q: Query)
    requires LiteralsFit(q.filters) && DistinctNames(q.schema)
    ensures Harmless(q) <==>
            forall parts: seq<PartFile> | AllWritten(q, parts) ::
              Answer(q, Plan(q, BoundsOf(q.schema, q.filters), parts)) == FullAnswer(q, parts)
    ensures Harmless(q) <==>
            forall parts: seq<PartFile> | AllRegistered(q, parts) ::
              Answer(q, Plan(q, BoundsOf(q.schema, q.filters), parts)) == FullAnswer(q, parts)
  {
    hide BoundOn; hide RowFits;
    forall parts: seq<PartFile> | AllRegistered(q, parts) ensures AllWritten(q, parts) {
      forall i | 0 <= i < |parts| ensures WrittenPart(q.schema, parts[i]) { RegisteredIsWritten(q.schema, parts[i]); }
    }
    if Harmless(q) {
      forall parts: seq<PartFile> | AllWritten(q, parts)
        ensures Answer(q, Plan(q, BoundsOf(q.schema, q.filters), parts)) == FullAnswer(q, parts)
      {
        HarmlessIsExact(q, parts);
      }
    } else {
      var bound := BoundOn(BoundsOf(q.schema, q.filters), KEY_ROW_GROUPS_STAT) && Answerable(q, None);
      var r :| RowFits(q.schema, r) && Wanted(q, r) && (!bound ==> 0 <= r.key);
      var p := HarmedPart(q, r);
      assert AllRegistered(q, [p]);
    }
  }

  /** A registered part that holds the row and whose scan loses it. */
  lemma HarmedPart(q: Query, r: Row) returns (p: PartFile)
    requires LiteralsFit(q.filters) && DistinctNames(q.schema) && RowFits(q.schema, r) && Wanted(q, r)
    requires BoundOn(BoundsOf(q.schema, q.filters), KEY_ROW_GROUPS_STAT)
             || (BoundOn(BoundsOf(q.schema, q.filters), PACKING_KEYS_STAT) && r.key >= 0)
    ensures Registered(q.schema, p)
    ensures Answer(q, Plan(q, BoundsOf(q.schema, q.filters), [p])) != FullAnswer(q, [p])
  {
    hide WrittenPart; hide Registered; hide Plan; hide HasSpans; hide HasKeySet; hide BoundOn;
    hide Passes; hide RowFits; hide Flatten;
    TwoKeyPartExists(q.schema, r);
    p :| Registered(q.schema, p) && p.groups == TwoKeys(r) && HasSpans(p) && (r.key >= 0 ==> HasKeySet(p));
    RegisteredIsWritten(q.schema, p);
    TwoKeysFacts(q.schema, r);
    assert Holds(q, [p][0]);
    assert AllWritten(q, [p]);
    WrittenPartsScanExactlyIff(q, [p]);
  }

  // ---------------------------------------------------------------- from rows to rows

  /** Streams batches into files, registers them, scans them: the answer is the filter of
      the rows that went in, for every harmless query. */
  method WriteAndScan(w: Settings, batches: seq<seq<Row>>, q: Query) returns (answer: seq<Row>)
    requires w.cap > 0 && DistinctNames(w.schema) && w.schema == q.schema && LiteralsFit(q.filters)
    requires KeySorted(Flatten(batches)) && forall i :: 0 <= i < |batches| ==> RowsFit(w.schema, batches[i])
    ensures Harmless(q) ==> answer == Select(q, Flatten(batches))
  {
    hide Flatten; hide RowsFit; hide OutputOk; hide Chain; hide EndedWell; hide AllLean; hide Ends; hide KeySorted; hide WrittenPart; hide Registered; hide RecordOk;
    hide Harmless; hide Plan; hide Answer; hide Select; hide BoundsOf; hide BoundOn; hide FullAnswer; hide Contents;
    var writer := new StreamingChunkWriter(w);
    var outputs := writer.Write(batches);
    FilesInKeyOrder(w, outputs, Flatten(batches));
    OutputsFit(w, outputs, batches);
    assert forall i :: 0 <= i < |outputs| ==> OutputOk(w.schema, w.cap, outputs[i]) by { WrittenMeans(w, outputs, Flatten(batches)); }
    var parts: seq<PartFile> := [];
    for i := 0 to |outputs|
      invariant |parts| == i
      invariant forall j :: 0 <= j < i ==> WrittenPart(q.schema, parts[j]) && parts[j].groups == outputs[j].file
    {
      StreamedIsRecorded(w.schema, w.cap, outputs[i]);
      var p := Register(w.schema, Encoded(outputs[i]));
      RegisteredIsWritten(w.schema, p);
      parts := parts + [p];
    }
    var files := Scan(q, parts);
    answer := Answer(q, files);
    assert AllWritten(q, parts);
    if Harmless(q) {
      HarmlessIsExact(q, parts);
      WrittenMeans(w, outputs, Flatten(batches));
      FullIsSelect(q, parts, outputs);
    }
  }

  lemma WrittenMeans(w: Settings, outputs: seq<ChunkOutput>, rows: seq<Row>)
    requires ChunkWriter.Written(w, outputs, rows)
    ensures Flatten(Contents(outputs)) == rows && forall i :: 0 <= i < |outputs| ==> OutputOk(w.schema, w.cap, outputs[i])
  {
  }

  lemma OutputsFit(w: Settings, outputs: seq<ChunkOutput>, batches: seq<seq<Row>>)
    requires ChunkWriter.Written(w, outputs, Flatten(batches)) && forall i :: 0 <= i < |batches| ==> RowsFit(w.schema, batches[i])
    ensures forall i :: 0 <= i < |outputs| ==> RowsFit(w.schema, Flatten(outputs[i].file))
  {
    hide OutputOk;
    WrittenMeans(w, outputs, Flatten(batches));
    forall i, k | 0 <= i < |outputs| && 0 <= k < |Flatten(outputs[i].file)| ensures RowFits(w.schema, Flatten(outputs[i].file)[k]) {
      var r := Flatten(outputs[i].file)[k];
      assert Contents(outputs)[i] == Flatten(outputs[i].file);
      FlattenHolds(Contents(outputs), i, r);
      FlattenMembers(batches, r);
    }
  }

  lemma {:induction false} FullIsSelect(q: Query, parts: seq<PartFile>, outputs: seq<ChunkOutput>)
    requires |parts| == |outputs| && forall i :: 0 <= i < |parts| ==> parts[i].groups == outputs[i].file
    ensures FullAnswer(q, parts) == Select(q, Flatten(Contents(outputs)))
  {
    hide Flatten; hide Select;
    if parts == [] {
      assert Contents(outputs) == [];
      NothingSelected(q);
    } else {
      var n := |parts| - 1;
      FullIsSelect(q, parts[..n], outputs[..n]);
      assert Contents(outputs) == Contents(outputs[..n]) + [Flatten(outputs[n].file)];
      FlattenPush(Contents(outputs[..n]), Flatten(outputs[n].file));
      SelectAppend(q, Flatten(Contents(outputs[..n])), Flatten(outputs[n].file));
    }
  }

  lemma NothingSelected(q: Query)
    ensures Select(q, Flatten([])) == []
  {
  }
}
