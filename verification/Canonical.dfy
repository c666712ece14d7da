/** Canonical operation identities: type-tagged, length-delimited bytes of an intent. */
module Canonical {
  import opened Base
  import opened Sorting

  type Byte = b: nat | b < 256
  type Text = seq<Byte>

  // ---------------------------------------------------------------- values

  /** A JSON value; an object is a map, so member order is no part of it. */
  datatype Json =
    | JNull
    | JBool(b: bool)
    | JNumber(text: Text)
    | JString(s: Text)
    | JArray(items: seq<Json>)
    | JObject(fields: map<Text, Json>)

  datatype IngestRange = IngestRange(topic: Text, partition: int, first: int, last: int)

  datatype Intent =
    | Mv(version: nat, pipeline: int, source: int, commit: int)
    | Ingest(version: nat, ranges: seq<IngestRange>)
    | Compaction(version: nat, level: int, parts: seq<int>, partition: Json, schema: Json, sortKey: seq<Text>, placement: Placement)
    | DeleteKey(version: nat, key: int, parts: seq<int>, schema: Json, sortKey: seq<Text>, placement: Placement)

  datatype OperationError =
    | InvalidId(field: string, value: int)
    | MvSelfLoop
    | NoInputParts
    | DuplicateInputPart(id: int)
    | NoOffsetRanges
    | EmptyTopic
    | InvertedOffsetRange(range: IngestRange)
    | OverlappingOffsetRanges(range: IngestRange)
    | EmptySortKey

  // ---------------------------------------------------------------- what the machine types hold

  predicate Length(n: nat) {
    n < 0x1_0000_0000_0000_0000
  }

  /** Every length fits the machine's size type. */
  ghost predicate JsonFits(j: Json) {
    match j
    case JNumber(t) => Length(|t|)
    case JString(t) => Length(|t|)
    case JArray(items) => Length(|items|) && forall i :: 0 <= i < |items| ==> JsonFits(items[i])
    case JObject(fields) => Length(|fields|) && forall k :: k in fields ==> Length(|k|) && JsonFits(fields[k])
    case _ => true
  }

  predicate TextsFit(ts: seq<Text>) {
    Length(|ts|) && forall i :: 0 <= i < |ts| ==> Length(|ts[i]|)
  }

  predicate IntsFit(s: seq<int>) {
    Length(|s|) && forall i :: 0 <= i < |s| ==> InI64(s[i])
  }

  predicate RangeFits(r: IngestRange) {
    Length(|r.topic|) && InI64(r.partition) && InI64(r.first) && InI64(r.last)
  }

  predicate RangesFit(s: seq<IngestRange>) {
    Length(|s|) && forall i :: 0 <= i < |s| ==> RangeFits(s[i])
  }

  predicate PlacementFits(p: Placement) {
    p.SizeTargeted? ==> InI64(p.bytes)
  }

  /** The fields of an intent are values of their machine types. */
  ghost predicate IntentFits(i: Intent) {
    && InI64(i.version)
    && match i
       case Mv(_, p, s, c) => InI64(p) && InI64(s) && InI64(c)
       case Ingest(_, ranges) => RangesFit(ranges)
       case Compaction(_, level, parts, partition, schema, sortKey, placement) =>
         InI64(level) && IntsFit(parts) && JsonFits(partition) && JsonFits(schema) && TextsFit(sortKey) && PlacementFits(placement)
       case DeleteKey(_, key, parts, schema, sortKey, placement) =>
         InI64(key) && IntsFit(parts) && JsonFits(schema) && TextsFit(sortKey) && PlacementFits(placement)
  }

  // ---------------------------------------------------------------- orders

  predicate TextLe(a: Text, b: Text) {
    if a == [] then true
    else if b == [] then false
    else a[0] < b[0] || (a[0] == b[0] && TextLe(a[1..], b[1..]))
  }

  lemma {:induction false} TextOrder(a: Text, b: Text, c: Text)
    ensures TextLe(a, b) || TextLe(b, a)
    ensures TextLe(a, b) && TextLe(b, c) ==> TextLe(a, c)
    ensures TextLe(a, b) && TextLe(b, a) ==> a == b
  {
    if a != [] && b != [] {
      TextOrder(a[1..], b[1..], if c != [] then c[1..] else []);
      assert a == [a[0]] + a[1..] && b == [b[0]] + b[1..];
    }
  }

  lemma TextLeTotal()
    ensures TotalOrder(TextLe)
  {
    forall a, b ensures (TextLe(a, b) || TextLe(b, a)) && (TextLe(a, b) && TextLe(b, a) ==> a == b) { TextOrder(a, b, a); }
    forall a, b, c | TextLe(a, b) && TextLe(b, c) ensures TextLe(a, c) { TextOrder(a, b, c); }
  }

  predicate IntLe(a: int, b: int) {
    a <= b
  }

  /** Topic, then partition, first and last: the derived order of a range. */
  predicate RangeLe(a: IngestRange, b: IngestRange) {
    if a.topic != b.topic then TextLe(a.topic, b.topic)
    else if a.partition != b.partition then a.partition < b.partition
    else if a.first != b.first then a.first < b.first
    else a.last <= b.last
  }

  lemma RangeLeTotal()
    ensures TotalOrder(RangeLe)
  {
    forall a: IngestRange, b: IngestRange
      ensures (RangeLe(a, b) || RangeLe(b, a)) && (RangeLe(a, b) && RangeLe(b, a) ==> a == b)
    {
      TextOrder(a.topic, b.topic, a.topic);
    }
    forall a, b, c | RangeLe(a, b) && RangeLe(b, c) ensures RangeLe(a, c) {
      TextOrder(a.topic, b.topic, c.topic);
      TextOrder(c.topic, b.topic, a.topic);
    }
  }

  // ---------------------------------------------------------------- the encoding

  /** Big-endian digits. */
  function Digits(n: nat, k: nat): (d: Text)
    ensures |d| == k
  {
    if k == 0 then [] else Digits(n / 256, k - 1) + [n % 256]
  }

  /** A 64-bit length. */
  function Len(n: nat): (d: Text)
    ensures |d| == 8
  {
    Digits(n % 0x1_0000_0000_0000_0000, 8)
  }

  const TAG_STR: Byte := 0x02
  const TAG_INT: Byte := 0x03
  const TAG_LIST: Byte := 0x04
  const TAG_JSON_NULL: Byte := 0x10
  const TAG_JSON_BOOL: Byte := 0x11
  const TAG_JSON_NUMBER: Byte := 0x12
  const TAG_JSON_STRING: Byte := 0x13
  const TAG_JSON_ARRAY: Byte := 0x14
  const TAG_JSON_OBJECT: Byte := 0x15

  function EncStr(s: Text): Text {
    [TAG_STR] + Len(|s|) + s
  }

  /** Two's complement, big-endian. */
  function EncInt(v: int): Text {
    [TAG_INT] + Digits(v % 0x1_0000_0000_0000_0000, 8)
  }

  function EncInts(s: seq<int>): Text {
    if s == [] then [] else EncInt(s[0]) + EncInts(s[1..])
  }

  function EncStrs(s: seq<Text>): Text {
    if s == [] then [] else EncStr(s[0]) + EncStrs(s[1..])
  }

  function EncRange(r: IngestRange): Text {
    EncStr(r.topic) + EncInt(r.partition) + EncInt(r.first) + EncInt(r.last)
  }

  function EncRanges(s: seq<IngestRange>): Text {
    if s == [] then [] else EncRange(s[0]) + EncRanges(s[1..])
  }

  function EncList(n: nat, items: Text): Text {
    [TAG_LIST] + Len(n) + items
  }

  /** The keys of an object in order. */
  ghost function SortedKeys(s: set<Text>): (r: seq<Text>)
    ensures Elements(r) == s && Distinct(r) && |r| == |s|
  {
    var keys := ListOf(s);
    ElementsCardinality(keys);
    SortElements(TextLe, keys);
    ElementsCardinality(SortBy(TextLe, keys));
    SortBy(TextLe, keys)
  }

  ghost function ListOf(s: set<Text>): (r: seq<Text>)
    ensures Elements(r) == s && Distinct(r)
  {
    if s == {} then [] else
      var k :| k in s;
      var rest := ListOf(s - {k});
      assert Elements([k] + rest) == {k} + Elements(rest);
      [k] + rest
  }

  ghost function EncJson(j: Json): Text
    decreases j, 1, 0
  {
    match j
    case JNull => [TAG_JSON_NULL]
    case JBool(b) => [TAG_JSON_BOOL, if b then 1 else 0]
    case JNumber(t) => [TAG_JSON_NUMBER] + Len(|t|) + t
    case JString(t) => [TAG_JSON_STRING] + Len(|t|) + t
    case JArray(items) => [TAG_JSON_ARRAY] + Len(|items|) + EncItems(j, |items|)
    case JObject(fields) => [TAG_JSON_OBJECT] + Len(|fields|) + EncMembers(j, SortedKeys(fields.Keys))
  }

  /** The last `n` items of an array. */
  ghost function EncItems(j: Json, n: nat): Text
    requires j.JArray? && n <= |j.items|
    decreases j, 0, n
  {
    if n == 0 then [] else EncJson(j.items[|j.items| - n]) + EncItems(j, n - 1)
  }

  ghost function EncMembers(j: Json, keys: seq<Text>): Text
    requires j.JObject? && forall k :: k in keys ==> k in j.fields
    decreases j, 0, |keys|
  {
    if keys == [] then [] else Len(|keys[0]|) + keys[0] + EncJson(j.fields[keys[0]]) + EncMembers(j, keys[1..])
  }

  function Ascii(s: string): Text {
    seq(|s|, i requires 0 <= i < |s| => if s[i] as int < 256 then s[i] as int else 0)
  }

  function EncPlacement(p: Placement): Text {
    match p
    case Packed => EncStr(Ascii("packed"))
    case Separated => EncStr(Ascii("separated"))
    case SizeTargeted(n) => EncStr(Ascii("size_targeted")) + EncInt(n)
  }

  function Domain(i: Intent): Text {
    match i
    case Mv(_, _, _, _) => Ascii("mv")
    case Ingest(_, _) => Ascii("ingest")
    case Compaction(_, _, _, _, _, _, _) => Ascii("compaction")
    case DeleteKey(_, _, _, _, _, _) => Ascii("delete-key")
  }

  function SortedParts(parts: seq<int>): seq<int> {
    SortBy(IntLe, parts)
  }

  function SortedRanges(ranges: seq<IngestRange>): seq<IngestRange> {
    SortBy(RangeLe, ranges)
  }

  ghost function EncBody(i: Intent): Text {
    match i
    case Mv(v, p, s, c) => EncInt(v) + EncInt(p) + EncInt(s) + EncInt(c)
    case Ingest(v, ranges) => EncInt(v) + EncList(|ranges|, EncRanges(SortedRanges(ranges)))
    case Compaction(v, level, parts, partition, schema, sortKey, placement) =>
      EncInt(v) + EncInt(level) + EncList(|parts|, EncInts(SortedParts(parts))) + EncJson(partition) + EncJson(schema)
      + EncList(|sortKey|, EncStrs(sortKey)) + EncPlacement(placement)
    case DeleteKey(v, key, parts, schema, sortKey, placement) =>
      EncInt(v) + EncInt(key) + EncList(|parts|, EncInts(SortedParts(parts))) + EncJson(schema)
      + EncList(|sortKey|, EncStrs(sortKey)) + EncPlacement(placement)
  }

  /** The canonical bytes of an intent on a hypertable. */
  ghost function CanonicalBytes(ht: int, i: Intent): Text {
    EncStr(Ascii("ukiel")) + EncStr(Domain(i)) + EncInt(1) + EncInt(ht) + EncBody(i)
  }
}
