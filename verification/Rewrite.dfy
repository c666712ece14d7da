/** A compaction's data path: merge the input parts, write the merged stream. */
module Rewrite {
  import opened Base
  import opened Rows
  import opened Stats
  import opened Merge
  import opened ChunkWriter

  /** The merge of the parts, cut into files. It succeeds exactly when every part can be
      read and is in order; then the files are a rewrite of the parts, in key order,
      with exact key ranges. */
  method MergeParts(streams: seq<seq<Item>>, w: Settings) returns (outputs: seq<ChunkOutput>, error: Option<MergeError>)
    requires w.cap > 0 && DistinctNames(w.schema)
    requires forall s :: 0 <= s < |streams| ==> RowsFit(w.schema, RowsIn(streams[s]))
    ensures error.None? <==> forall s :: 0 <= s < |streams| ==> Good(streams[s])
    ensures error.Some? ==> Blames(streams, error.value)
    ensures error.None? ==> Written(w, outputs, StableSort(Flatten(AllRows(streams))))
    ensures error.None? ==> RewriteOf(AllRows(streams), Contents(outputs))
    ensures error.None? ==> forall i :: 0 <= i < |outputs| ==> Ends(outputs[i])
    ensures error.None? ==> forall i, j :: 0 <= i < j < |outputs| ==> outputs[i].keyMax <= outputs[j].keyMin
  {
    hide Good; hide RowsFit; hide StableSort; hide AllRows; hide Ends; hide Chain; hide EndedWell; hide OutputOk; hide KeySorted;
    outputs := [];
    var batches;
    batches, error := MergeStreams(streams);
    if error.Some? { return; }
    ghost var merged := StableSort(Flatten(AllRows(streams)));
    MergedFits(w.schema, streams, batches);
    var writer := new StreamingChunkWriter(w);
    outputs := writer.Write(batches);
    MergedIsSorted(Flatten(AllRows(streams)));
    FilesInKeyOrder(w, outputs, merged);
  }

  lemma MergedIsSorted(rows: seq<Row>)
    ensures KeySorted(StableSort(rows))
  {
    StableSortSorts(rows);
  }

  lemma MergedFits(schema: seq<Column>, streams: seq<seq<Item>>, batches: seq<seq<Row>>)
    requires forall s :: 0 <= s < |streams| ==> RowsFit(schema, RowsIn(streams[s]))
    requires Flatten(batches) == StableSort(Flatten(AllRows(streams)))
    ensures forall i :: 0 <= i < |batches| ==> RowsFit(schema, batches[i])
  {
    hide RowFits;
    forall i, k | 0 <= i < |batches| && 0 <= k < |batches[i]| ensures RowFits(schema, batches[i][k]) {
      var r := batches[i][k];
      FlattenHolds(batches, i, r);
      assert r in multiset(Flatten(batches));
      assert r in Flatten(AllRows(streams));
      FlattenMembers(AllRows(streams), r);
    }
  }
}
