/** Writing one batch as one file: the shape of the ingest, view and deletion writers. */
module Encoding {
  import opened Base
  import opened Rows
  import opened Stats
  import opened ChunkWriter

  /** One written file and what the catalog records of it. */
  datatype EncodedPart = EncodedPart(file: seq<seq<Row>>, keyMin: int, keyMax: int, rowCount: nat,
                                     columnStats: Option<map<string, Json>>)

  /** The least and the greatest key of the rows. */
  predicate KeyRangeExact(rows: seq<Row>, lo: int, hi: int) {
    && (exists r :: r in rows && r.key == lo) && (exists r :: r in rows && r.key == hi)
    && forall r :: r in rows ==> lo <= r.key <= hi
  }

  /** What every writer records: exact range and count, exact statistics, for a file of
      several keys the exact key set where one can be written, and the span of every row
      group or none. */
  ghost predicate RecordOk(schema: seq<Column>, e: EncodedPart) {
    var rows := Flatten(e.file);
    && rows != [] && RowsFit(schema, rows)
    && e.rowCount == |rows| && KeyRangeExact(rows, e.keyMin, e.keyMax)
    && exists ranges, bitmap, spans :: MadeOf(schema, e, ranges, bitmap, spans)
  }

  /** The statistics and the index a record was made of. */
  ghost predicate MadeOf(schema: seq<Column>, e: EncodedPart, ranges: map<string, (int, int)>, bitmap: Option<Blob>, spans: Option<Json>) {
    && IsStats(schema, Flatten(e.file), ranges)
    && e.columnStats == WithKeyIndex(StatsJson(ranges), bitmap, spans)
    && IndexParts(e, bitmap, spans)
  }

  ghost predicate IndexParts(e: EncodedPart, bitmap: Option<Blob>, spans: Option<Json>) {
    && BitmapOk(Flatten(e.file), e.keyMin != e.keyMax, bitmap)
    && (spans.None? || SpansOk(e.file, e.keyMin != e.keyMax, spans))
  }

  /** The record has the span of every row group exactly when the file has several keys. */
  ghost predicate Indexed(schema: seq<Column>, e: EncodedPart) {
    exists ranges, bitmap, spans :: MadeOf(schema, e, ranges, bitmap, spans) && (spans.Some? <==> e.keyMin != e.keyMax)
  }

  /** The record has no spans. */
  ghost predicate Unspanned(schema: seq<Column>, e: EncodedPart) {
    exists ranges, bitmap :: MadeOf(schema, e, ranges, bitmap, None)
  }

  function Encoded(o: ChunkOutput): EncodedPart {
    EncodedPart(o.file, o.keyMin, o.keyMax, o.rowCount, o.columnStats)
  }

  /** The streaming writer's records are of this shape. */
  lemma StreamedIsRecorded(schema: seq<Column>, cap: nat, o: ChunkOutput)
    requires OutputOk(schema, cap, o) && Ends(o) && RowsFit(schema, Flatten(o.file))
    ensures RecordOk(schema, Encoded(o))
  {
    hide Flatten; hide IsStats; hide WithKeyIndex; hide StatsJson; hide BitmapOk; hide SpansOk; hide RowsFit; hide GroupsOk;
    var rows := Flatten(o.file);
    assert KeyRangeExact(rows, o.keyMin, o.keyMax) by { assert rows[0] in rows && rows[|rows| - 1] in rows; }
    var ranges, bitmap, spans :| IsStats(schema, rows, ranges) && o.columnStats == WithKeyIndex(StatsJson(ranges), bitmap, spans)
                                 && BitmapOk(rows, o.keyMin != o.keyMax, bitmap) && SpansOk(o.file, o.keyMin != o.keyMax, spans);
    assert IndexParts(Encoded(o), bitmap, spans);
    assert MadeOf(schema, Encoded(o), ranges, bitmap, spans);
  }

  /** A slice too large for one group, as the file writer splits it. */
  function Pieces(slice: seq<Row>, cap: nat): (p: seq<seq<Row>>)
    requires cap > 0 && slice != []
    ensures p != []
  {
    if |slice| <= cap then [slice] else [slice[..cap]] + Pieces(slice[cap..], cap)
  }

  lemma {:induction false} PiecesFilled(slice: seq<Row>, cap: nat)
    requires cap > 0 && slice != []
    ensures forall i :: 0 <= i < |Pieces(slice, cap)| ==> 0 < |Pieces(slice, cap)[i]| <= cap
    ensures forall i :: 0 <= i < |Pieces(slice, cap)| - 1 ==> |Pieces(slice, cap)[i]| == cap
    decreases |slice|
  {
    if |slice| > cap { PiecesFilled(slice[cap..], cap); }
  }

  lemma {:induction false} PiecesJoin(slice: seq<Row>, cap: nat)
    requires cap > 0 && slice != []
    ensures Flatten(Pieces(slice, cap)) == slice
    decreases |slice|
  {
    if |slice| <= cap {
      assert Flatten([slice]) == slice + Flatten([slice][1..]);
    } else {
      PiecesJoin(slice[cap..], cap);
      assert Pieces(slice, cap)[1..] == Pieces(slice[cap..], cap);
      assert slice == slice[..cap] + slice[cap..];
    }
  }

  /** The record of a batch written as the given row groups, its index rebuilt from the
      batch itself; `spanned` says whether the writer stores row-group spans. */
  method Describe(schema: seq<Column>, batch: seq<Row>, groups: seq<seq<Row>>, cap: nat, spanned: bool) returns (e: EncodedPart)
    requires DistinctNames(schema) && RowsFit(schema, batch) && batch != []
    requires Flatten(groups) == batch && GroupsOk(groups, cap)
    ensures RecordOk(schema, e) && e.file == groups
    ensures if spanned then Indexed(schema, e) else Unspanned(schema, e)
  {
    hide Flatten; hide IsStats; hide WithKeyIndex; hide StatsJson; hide RowsFit; hide GroupsOk; hide KeysOf; hide KeyRangeExact;
    var range := GroupRange(batch);
    var multiKey := range.0 != range.1;
    var stats := Int64ColumnStats(schema, batch);
    var bitmap: Option<Blob>, spans: Option<Json> := None, None;
    if multiKey {
      bitmap := KeyBitmap(batch);
      if spanned {
        assert groups != [] by { SomeGroup(groups); }
        spans := KeyRowGroups(GroupMetas(groups));
        SpansRead(groups, cap, spans);
      }
    }
    e := EncodedPart(groups, range.0, range.1, |batch|, WithKeyIndex(StatsJson(stats), bitmap, spans));
    BitmapRead(batch, range.0, range.1, bitmap);
    RangeIsExact(batch);
    assert IndexParts(e, bitmap, spans);
    assert MadeOf(schema, e, stats, bitmap, spans);
  }

  lemma SomeGroup(groups: seq<seq<Row>>)
    requires Flatten(groups) != []
    ensures groups != []
  {
  }

  lemma RangeIsExact(rows: seq<Row>)
    requires rows != []
    ensures KeyRangeExact(rows, GroupRange(rows).0, GroupRange(rows).1)
  {
    var r := GroupRange(rows);
    assert exists x :: x in rows && x.key == r.0;
    assert exists x :: x in rows && x.key == r.1;
  }

  datatype WriteError = EmptyBatch

  /** The level-0 writer: one sorted batch, one file, an index without spans. */
  method EncodeBatch(schema: seq<Column>, batch: seq<Row>, cap: nat) returns (r: Result<EncodedPart, WriteError>)
    requires cap > 0 && DistinctNames(schema) && RowsFit(schema, batch)
    ensures r.Err? <==> batch == []
    ensures r.Ok? ==> RecordOk(schema, r.value) && Unspanned(schema, r.value) && Flatten(r.value.file) == batch
    ensures r.Ok? ==> GroupsOk(r.value.file, cap) && forall i :: 0 <= i < |r.value.file| - 1 ==> |r.value.file[i]| == cap
  {
    if batch == [] { return Err(EmptyBatch); }
    PiecesJoin(batch, cap);
    PiecesFilled(batch, cap);
    var e := Describe(schema, batch, Pieces(batch, cap), cap, false);
    return Ok(e);
  }
}
