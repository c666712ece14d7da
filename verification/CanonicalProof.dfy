/** The canonical encoding is self-delimiting, hence injective on intents. */
module CanonicalProof {
  import opened Base
  import opened Sorting
  import opened Canonical

  // ---------------------------------------------------------------- self-delimiting pieces

  lemma Apart(a: Text, x: Text, b: Text, y: Text)
    requires |a| == |b| && a + x == b + y
    ensures a == b && x == y
  {
    assert a == (a + x)[..|a|] && b == (b + y)[..|b|];
    assert x == (a + x)[|a|..] && y == (b + y)[|b|..];
  }

  function Pow256(k: nat): (p: nat)
    ensures p > 0
  {
    if k == 0 then 1 else 256 * Pow256(k - 1)
  }

  lemma {:induction false} DigitsInjective(n: nat, m: nat, k: nat)
    requires n < Pow256(k) && m < Pow256(k) && Digits(n, k) == Digits(m, k)
    ensures n == m
  {
    if k > 0 {
      var a, b := Digits(n / 256, k - 1), Digits(m / 256, k - 1);
      assert Digits(n, k)[..k - 1] == a && Digits(m, k)[..k - 1] == b;
      assert Digits(n, k)[k - 1] == n % 256 && Digits(m, k)[k - 1] == m % 256;
      DigitsInjective(n / 256, m / 256, k - 1);
    }
  }

  /** The number that digits of base 256 spell, the most significant first. */
  function Spelled(d: Text): nat
    requires forall i :: 0 <= i < |d| ==> 0 <= d[i] < 256
  {
    if d == [] then 0 else 256 * Spelled(d[..|d| - 1]) + d[|d| - 1]
  }

  function Power256(k: nat): nat {
    if k == 0 then 1 else 256 * Power256(k - 1)
  }

  /** Digits are bytes, most significant first, and spell the number modulo their range. */
  lemma {:induction false} DigitsSpell(n: nat, k: nat)
    requires n < Power256(k)
    ensures (forall i :: 0 <= i < k ==> 0 <= Digits(n, k)[i] < 256) && Spelled(Digits(n, k)) == n
  {
    if k > 0 {
      assert n / 256 < Power256(k - 1);
      DigitsSpell(n / 256, k - 1);
      var d := Digits(n, k);
      assert d[..k - 1] == Digits(n / 256, k - 1) && d[k - 1] == n % 256;
    }
  }

  lemma EightDigits(n: nat, m: nat)
    requires Length(n) && Length(m) && Digits(n, 8) == Digits(m, 8)
    ensures n == m
  {
    assert Pow256(8) == 0x1_0000_0000_0000_0000;
    DigitsInjective(n, m, 8);
  }

  lemma LenPrefix(n: nat, x: Text, m: nat, y: Text)
    requires Length(n) && Length(m) && Len(n) + x == Len(m) + y
    ensures n == m && x == y
  {
    hide Digits;
    Apart(Len(n), x, Len(m), y);
    EightDigits(n, m);
  }

  /** A tag, a length and that many bytes. */
  lemma TaggedPrefix(tag: Byte, s: Text, x: Text, t: Text, y: Text)
    requires Length(|s|) && Length(|t|) && [tag] + Len(|s|) + s + x == [tag] + Len(|t|) + t + y
    ensures s == t && x == y
  {
    hide Len;
    assert [tag] + Len(|s|) + s + x == [tag] + (Len(|s|) + (s + x));
    assert [tag] + Len(|t|) + t + y == [tag] + (Len(|t|) + (t + y));
    Apart([tag], Len(|s|) + (s + x), [tag], Len(|t|) + (t + y));
    LenPrefix(|s|, s + x, |t|, t + y);
    Apart(s, x, t, y);
  }

  lemma StrPrefix(s: Text, x: Text, t: Text, y: Text)
    requires Length(|s|) && Length(|t|) && EncStr(s) + x == EncStr(t) + y
    ensures s == t && x == y
  {
    TaggedPrefix(TAG_STR, s, x, t, y);
  }

  lemma IntPrefix(v: int, x: Text, w: int, y: Text)
    requires InI64(v) && InI64(w) && EncInt(v) + x == EncInt(w) + y
    ensures v == w && x == y
  {
    hide Digits;
    var m := 0x1_0000_0000_0000_0000;
    Apart(EncInt(v), x, EncInt(w), y);
    Apart([TAG_INT], Digits(v % m, 8), [TAG_INT], Digits(w % m, 8));
    EightDigits(v % m, w % m);
  }

  lemma Assoc(a: Text, b: Text, c: Text)
    ensures (a + b) + c == a + (b + c)
  {
  }

  lemma {:induction false} IntsPrefix(s: seq<int>, x: Text, t: seq<int>, y: Text)
    requires |s| == |t| && IntsFit(s) && IntsFit(t) && EncInts(s) + x == EncInts(t) + y
    ensures s == t && x == y
  {
    hide EncInt; hide InI64;
    if s == [] {
      assert [] + x == x && [] + y == y;
    } else {
      Assoc(EncInt(s[0]), EncInts(s[1..]), x);
      Assoc(EncInt(t[0]), EncInts(t[1..]), y);
      IntPrefix(s[0], EncInts(s[1..]) + x, t[0], EncInts(t[1..]) + y);
      IntsPrefix(s[1..], x, t[1..], y);
      assert s == [s[0]] + s[1..] && t == [t[0]] + t[1..];
    }
  }

  lemma {:induction false} StrsPrefix(s: seq<Text>, x: Text, t: seq<Text>, y: Text)
    requires |s| == |t| && TextsFit(s) && TextsFit(t) && EncStrs(s) + x == EncStrs(t) + y
    ensures s == t && x == y
  {
    hide EncStr;
    if s == [] {
      assert [] + x == x && [] + y == y;
    } else {
      Assoc(EncStr(s[0]), EncStrs(s[1..]), x);
      Assoc(EncStr(t[0]), EncStrs(t[1..]), y);
      StrPrefix(s[0], EncStrs(s[1..]) + x, t[0], EncStrs(t[1..]) + y);
      StrsPrefix(s[1..], x, t[1..], y);
      assert s == [s[0]] + s[1..] && t == [t[0]] + t[1..];
    }
  }

  lemma RangePrefix(r: IngestRange, x: Text, q: IngestRange, y: Text)
    requires RangeFits(r) && RangeFits(q) && EncRange(r) + x == EncRange(q) + y
    ensures r == q && x == y
  {
    hide EncStr; hide EncInt; hide InI64;
    var rl, ql := EncInt(r.last) + x, EncInt(q.last) + y;
    var rf, qf := EncInt(r.first) + rl, EncInt(q.first) + ql;
    var rp, qp := EncInt(r.partition) + rf, EncInt(q.partition) + qf;
    assert EncRange(r) + x == EncStr(r.topic) + rp;
    assert EncRange(q) + y == EncStr(q.topic) + qp;
    StrPrefix(r.topic, rp, q.topic, qp);
    IntPrefix(r.partition, rf, q.partition, qf);
    IntPrefix(r.first, rl, q.first, ql);
    IntPrefix(r.last, x, q.last, y);
  }

  lemma {:induction false} RangesPrefix(s: seq<IngestRange>, x: Text, t: seq<IngestRange>, y: Text)
    requires |s| == |t| && RangesFit(s) && RangesFit(t) && EncRanges(s) + x == EncRanges(t) + y
    ensures s == t && x == y
  {
    hide EncRange; hide RangeFits;
    if s == [] {
      assert [] + x == x && [] + y == y;
    } else {
      Assoc(EncRange(s[0]), EncRanges(s[1..]), x);
      Assoc(EncRange(t[0]), EncRanges(t[1..]), y);
      RangePrefix(s[0], EncRanges(s[1..]) + x, t[0], EncRanges(t[1..]) + y);
      RangesPrefix(s[1..], x, t[1..], y);
      assert s == [s[0]] + s[1..] && t == [t[0]] + t[1..];
    }
  }

  /** A list's length comes before its items. */
  lemma ListPrefix(n: nat, s: Text, x: Text, m: nat, t: Text, y: Text)
    requires Length(n) && Length(m) && EncList(n, s) + x == EncList(m, t) + y
    ensures n == m && s + x == t + y
  {
    hide Len;
    assert EncList(n, s) + x == [TAG_LIST] + (Len(n) + (s + x));
    assert EncList(m, t) + y == [TAG_LIST] + (Len(m) + (t + y));
    Apart([TAG_LIST], Len(n) + (s + x), [TAG_LIST], Len(m) + (t + y));
    LenPrefix(n, s + x, m, t + y);
  }

  // ---------------------------------------------------------------- JSON

  lemma JsonTag(j: Json)
    ensures EncJson(j) != []
    ensures EncJson(j)[0] == match j
                             case JNull => TAG_JSON_NULL
                             case JBool(_) => TAG_JSON_BOOL
                             case JNumber(_) => TAG_JSON_NUMBER
                             case JString(_) => TAG_JSON_STRING
                             case JArray(_) => TAG_JSON_ARRAY
                             case JObject(_) => TAG_JSON_OBJECT
  {
    hide EncItems; hide EncMembers; hide Len;
  }

  lemma SameTag(a: Json, x: Text, b: Json, y: Text)
    requires EncJson(a) + x == EncJson(b) + y
    ensures a.JNull? <==> b.JNull?
    ensures a.JBool? <==> b.JBool?
    ensures a.JNumber? <==> b.JNumber?
    ensures a.JString? <==> b.JString?
    ensures a.JArray? <==> b.JArray?
    ensures a.JObject? <==> b.JObject?
  {
    hide EncJson;
    JsonTag(a);
    JsonTag(b);
    assert (EncJson(a) + x)[0] == EncJson(a)[0] && (EncJson(b) + y)[0] == EncJson(b)[0];
  }

  /** The encoding of a JSON value tells where it ends and what it is. */
  lemma {:induction false} JsonPrefix(a: Json, x: Text, b: Json, y: Text)
    requires JsonFits(a) && JsonFits(b) && EncJson(a) + x == EncJson(b) + y
    ensures a == b && x == y
    decreases a, 1, 0
  {
    hide Len; hide EncItems; hide EncMembers;
    SameTag(a, x, b, y);
    match a {
      case JNull => Apart(EncJson(a), x, EncJson(b), y);
      case JBool(p) => Apart(EncJson(a), x, EncJson(b), y);
      case JNumber(t) => TaggedPrefix(TAG_JSON_NUMBER, t, x, b.text, y);
      case JString(t) => TaggedPrefix(TAG_JSON_STRING, t, x, b.s, y);
      case JArray(items) =>
        SizedPrefix(TAG_JSON_ARRAY, |items|, EncItems(a, |items|), x, |b.items|, EncItems(b, |b.items|), y);
        ItemsPrefix(a, x, b, y, |items|);
        assert items == b.items;
      case JObject(fields) =>
        var ks, ls := SortedKeys(fields.Keys), SortedKeys(b.fields.Keys);
        SizedPrefix(TAG_JSON_OBJECT, |fields|, EncMembers(a, ks), x, |b.fields|, EncMembers(b, ls), y);
        MembersPrefix(a, ks, x, b, ls, y);
        SameFields(a, b, ks);
    }
  }

  lemma SameFields(a: Json, b: Json, ks: seq<Text>)
    requires a.JObject? && b.JObject? && Elements(ks) == a.fields.Keys == b.fields.Keys
    requires forall k :: k in ks ==> k in a.fields && k in b.fields && a.fields[k] == b.fields[k]
    ensures a == b
  {
    assert forall k :: k in a.fields ==> k in Elements(ks);
    assert a.fields == b.fields;
  }

  lemma SizedPrefix(tag: Byte, n: nat, s: Text, x: Text, m: nat, t: Text, y: Text)
    requires Length(n) && Length(m) && [tag] + Len(n) + s + x == [tag] + Len(m) + t + y
    ensures n == m && s + x == t + y
  {
    hide Len;
    assert [tag] + Len(n) + s + x == [tag] + (Len(n) + (s + x));
    assert [tag] + Len(m) + t + y == [tag] + (Len(m) + (t + y));
    Apart([tag], Len(n) + (s + x), [tag], Len(m) + (t + y));
    LenPrefix(n, s + x, m, t + y);
  }

  lemma ItemsUnfold(j: Json, n: nat)
    requires j.JArray? && n <= |j.items| && JsonFits(j)
    ensures EncItems(j, n) == if n == 0 then [] else EncJson(j.items[|j.items| - n]) + EncItems(j, n - 1)
    ensures n > 0 ==> JsonFits(j.items[|j.items| - n])
  {
    hide EncJson;
  }

  lemma {:induction false} ItemsPrefix(a: Json, x: Text, b: Json, y: Text, n: nat)
    requires a.JArray? && b.JArray? && |a.items| == |b.items| && n <= |a.items| && JsonFits(a) && JsonFits(b)
    requires EncItems(a, n) + x == EncItems(b, n) + y
    ensures x == y && forall i :: |a.items| - n <= i < |a.items| ==> a.items[i] == b.items[i]
    decreases a, 0, n
  {
    hide EncJson; hide JsonFits; hide EncItems;
    ItemsUnfold(a, n);
    ItemsUnfold(b, n);
    if n == 0 {
      assert [] + x == x && [] + y == y;
    } else {
      var i := |a.items| - n;
      Assoc(EncJson(a.items[i]), EncItems(a, n - 1), x);
      Assoc(EncJson(b.items[i]), EncItems(b, n - 1), y);
      JsonPrefix(a.items[i], EncItems(a, n - 1) + x, b.items[i], EncItems(b, n - 1) + y);
      ItemsPrefix(a, x, b, y, n - 1);
    }
  }

  lemma MemberSplit(k: Text, u: Text, more: Text, x: Text, l: Text, v: Text, less: Text, y: Text)
    requires Length(|k|) && Length(|l|)
    requires Len(|k|) + k + u + more + x == Len(|l|) + l + v + less + y
    ensures k == l && u + (more + x) == v + (less + y)
  {
    hide Len;
    assert Len(|k|) + k + u + more + x == Len(|k|) + (k + (u + (more + x)));
    assert Len(|l|) + l + v + less + y == Len(|l|) + (l + (v + (less + y)));
    LenPrefix(|k|, k + (u + (more + x)), |l|, l + (v + (less + y)));
    Apart(k, u + (more + x), l, v + (less + y));
  }

  lemma {:induction false} MembersPrefix(a: Json, ks: seq<Text>, x: Text, b: Json, ls: seq<Text>, y: Text)
    requires a.JObject? && b.JObject? && JsonFits(a) && JsonFits(b) && |ks| == |ls|
    requires (forall k :: k in ks ==> k in a.fields) && (forall k :: k in ls ==> k in b.fields)
    requires EncMembers(a, ks) + x == EncMembers(b, ls) + y
    ensures x == y && ks == ls && forall k :: k in ks ==> k in b.fields && a.fields[k] == b.fields[k]
    decreases a, 0, |ks|
  {
    hide EncJson; hide Len;
    if ks == [] {
      assert [] + x == x && [] + y == y;
    } else {
      var k, l := ks[0], ls[0];
      var moreA, moreB := EncMembers(a, ks[1..]), EncMembers(b, ls[1..]);
      MemberSplit(k, EncJson(a.fields[k]), moreA, x, l, EncJson(b.fields[l]), moreB, y);
      JsonPrefix(a.fields[k], moreA + x, b.fields[l], moreB + y);
      MembersPrefix(a, ks[1..], x, b, ls[1..], y);
      assert ks == [k] + ks[1..] && ls == [l] + ls[1..];
    }
  }

  // ---------------------------------------------------------------- intents

  predicate Overlap(a: IngestRange, b: IngestRange) {
    a.topic == b.topic && a.partition == b.partition && a.first <= b.last && b.first <= a.last
  }

  /** What `canonical_ranges` accepts. */
  ghost predicate RangesValid(ranges: seq<IngestRange>) {
    && ranges != []
    && (forall i :: 0 <= i < |ranges| ==> ranges[i].topic != [] && ranges[i].first <= ranges[i].last)
    && forall i, j :: 0 <= i < j < |ranges| ==> !Overlap(ranges[i], ranges[j])
  }

  /** What a factory accepts. */
  ghost predicate Valid(ht: int, i: Intent) {
    match i
    case Mv(_, p, s, c) => ht > 0 && p > 0 && s > 0 && c > 0 && ht != s
    case Ingest(_, ranges) => RangesValid(ranges)
    case Compaction(_, _, parts, _, _, sortKey, _) => parts != [] && Distinct(parts) && sortKey != []
    case DeleteKey(_, _, parts, _, sortKey, _) => parts != [] && Distinct(parts) && sortKey != []
  }

  /** The same intent: equal fields, parts and ranges in any order. */
  ghost predicate Same(ht: int, i: Intent, ht': int, j: Intent) {
    && ht == ht'
    && match i
       case Mv(_, _, _, _) => i == j
       case Ingest(v, ranges) => j.Ingest? && v == j.version && Elements(ranges) == Elements(j.ranges)
       case Compaction(v, level, parts, partition, schema, sortKey, placement) =>
         j.Compaction? && Elements(parts) == Elements(j.parts) && j == Compaction(v, level, j.parts, partition, schema, sortKey, placement)
       case DeleteKey(v, key, parts, schema, sortKey, placement) =>
         j.DeleteKey? && Elements(parts) == Elements(j.parts) && j == DeleteKey(v, key, j.parts, schema, sortKey, placement)
  }

  lemma PlacementPrefix(p: Placement, q: Placement)
    requires PlacementFits(p) && PlacementFits(q) && EncPlacement(p) == EncPlacement(q)
    ensures p == q
  {
    hide EncStr; hide EncInt;
    assert Ascii("packed")[0] != Ascii("separated")[0] && |Ascii("separated")| != |Ascii("size_targeted")| && |Ascii("packed")| != |Ascii("size_targeted")|;
    var a := if p.Packed? then Ascii("packed") else if p.Separated? then Ascii("separated") else Ascii("size_targeted");
    var b := if q.Packed? then Ascii("packed") else if q.Separated? then Ascii("separated") else Ascii("size_targeted");
    var x := if p.SizeTargeted? then EncInt(p.bytes) else [];
    var y := if q.SizeTargeted? then EncInt(q.bytes) else [];
    assert EncPlacement(p) == EncStr(a) + x && EncPlacement(q) == EncStr(b) + y;
    StrPrefix(a, x, b, y);
    if p.SizeTargeted? {
      assert x == x + [] && y == y + [];
      IntPrefix(p.bytes, [], q.bytes, []);
    }
  }

  lemma DomainsDiffer(i: Intent, j: Intent)
    requires Domain(i) == Domain(j)
    ensures i.Mv? <==> j.Mv?
    ensures i.Ingest? <==> j.Ingest?
    ensures i.Compaction? <==> j.Compaction?
    ensures i.DeleteKey? <==> j.DeleteKey?
  {
    assert Ascii("compaction")[0] != Ascii("delete-key")[0];
  }

  lemma SortedFits(parts: seq<int>)
    requires IntsFit(parts)
    ensures IntsFit(SortedParts(parts)) && |SortedParts(parts)| == |parts|
  {
    hide InI64;
    var r := SortedParts(parts);
    SortElements(IntLe, parts);
    forall i | 0 <= i < |r| ensures InI64(r[i]) { assert r[i] in Elements(r); assert r[i] in parts; }
  }

  lemma SortedRangesFit(ranges: seq<IngestRange>)
    requires RangesFit(ranges)
    ensures RangesFit(SortedRanges(ranges)) && |SortedRanges(ranges)| == |ranges|
  {
    hide RangeFits;
    var r := SortedRanges(ranges);
    SortElements(RangeLe, ranges);
    forall i | 0 <= i < |r| ensures RangeFits(r[i]) { assert r[i] in Elements(r); assert r[i] in ranges; }
  }

  /** A list of parts, then the rest. */
  lemma PartsPrefix(s: seq<int>, x: Text, t: seq<int>, y: Text)
    requires IntsFit(s) && IntsFit(t)
    requires EncList(|s|, EncInts(SortedParts(s))) + x == EncList(|t|, EncInts(SortedParts(t))) + y
    ensures SortedParts(s) == SortedParts(t) && Elements(s) == Elements(t) && x == y
  {
    hide EncInts; hide EncList; hide IntsFit; hide SortedParts;
    SortedFits(s);
    SortedFits(t);
    ListPrefix(|s|, EncInts(SortedParts(s)), x, |t|, EncInts(SortedParts(t)), y) by { FitsLength(s); FitsLength(t); }
    IntsPrefix(SortedParts(s), x, SortedParts(t), y);
    SortedPartsElements(s);
    SortedPartsElements(t);
  }

  lemma FitsLength(s: seq<int>)
    requires IntsFit(s)
    ensures Length(|s|)
  {
  }

  lemma SortedPartsElements(s: seq<int>)
    ensures Elements(SortedParts(s)) == Elements(s)
  {
    SortElements(IntLe, s);
  }

  lemma KeysPrefix(s: seq<Text>, x: Text, t: seq<Text>, y: Text)
    requires TextsFit(s) && TextsFit(t) && EncList(|s|, EncStrs(s)) + x == EncList(|t|, EncStrs(t)) + y
    ensures s == t && x == y
  {
    hide EncStrs; hide EncList;
    ListPrefix(|s|, EncStrs(s), x, |t|, EncStrs(t), y);
    StrsPrefix(s, x, t, y);
  }

  lemma MvBody(i: Intent, j: Intent)
    requires i.Mv? && j.Mv? && IntentFits(i) && IntentFits(j) && EncBody(i) == EncBody(j)
    ensures i == j
  {
    hide EncInt; hide InI64;
    assert EncBody(i) == EncInt(i.version) + (EncInt(i.pipeline) + (EncInt(i.source) + (EncInt(i.commit) + [])));
    assert EncBody(j) == EncInt(j.version) + (EncInt(j.pipeline) + (EncInt(j.source) + (EncInt(j.commit) + [])));
    IntPrefix(i.version, EncInt(i.pipeline) + (EncInt(i.source) + (EncInt(i.commit) + [])),
              j.version, EncInt(j.pipeline) + (EncInt(j.source) + (EncInt(j.commit) + [])));
    IntPrefix(i.pipeline, EncInt(i.source) + (EncInt(i.commit) + []), j.pipeline, EncInt(j.source) + (EncInt(j.commit) + []));
    IntPrefix(i.source, EncInt(i.commit) + [], j.source, EncInt(j.commit) + []);
    IntPrefix(i.commit, [], j.commit, []);
  }

  lemma IngestBody(i: Intent, j: Intent)
    requires i.Ingest? && j.Ingest? && IntentFits(i) && IntentFits(j) && EncBody(i) == EncBody(j)
    ensures i.version == j.version && Elements(i.ranges) == Elements(j.ranges)
  {
    hide EncInt; hide InI64; hide EncList; hide EncRanges; hide SortedRanges; hide RangeFits;
    var a, b := EncList(|i.ranges|, EncRanges(SortedRanges(i.ranges))), EncList(|j.ranges|, EncRanges(SortedRanges(j.ranges)));
    IntPrefix(i.version, a, j.version, b);
    assert a == a + [] && b == b + [];
    SortedRangesFit(i.ranges);
    SortedRangesFit(j.ranges);
    ListPrefix(|i.ranges|, EncRanges(SortedRanges(i.ranges)), [], |j.ranges|, EncRanges(SortedRanges(j.ranges)), []);
    RangesPrefix(SortedRanges(i.ranges), [], SortedRanges(j.ranges), []);
    SortedRangesElements(i.ranges);
    SortedRangesElements(j.ranges);
  }

  lemma SortedRangesElements(s: seq<IngestRange>)
    ensures Elements(SortedRanges(s)) == Elements(s)
  {
    SortElements(RangeLe, s);
  }

  function PartsBytes(parts: seq<int>): Text {
    EncList(|parts|, EncInts(SortedParts(parts)))
  }

  function KeysBytes(keys: seq<Text>): Text {
    EncList(|keys|, EncStrs(keys))
  }

  ghost function Tail(schema: Json, sortKey: seq<Text>, placement: Placement): Text {
    EncJson(schema) + (KeysBytes(sortKey) + EncPlacement(placement))
  }

  lemma TailPrefix(schema: Json, sortKey: seq<Text>, placement: Placement, schema': Json, sortKey': seq<Text>, placement': Placement)
    requires JsonFits(schema) && JsonFits(schema') && TextsFit(sortKey) && TextsFit(sortKey') && PlacementFits(placement) && PlacementFits(placement')
    requires Tail(schema, sortKey, placement) == Tail(schema', sortKey', placement')
    ensures schema == schema' && sortKey == sortKey' && placement == placement'
  {
    hide EncJson; hide EncPlacement; hide EncList; hide EncStrs; hide TextsFit;
    JsonPrefix(schema, KeysBytes(sortKey) + EncPlacement(placement), schema', KeysBytes(sortKey') + EncPlacement(placement'));
    KeysPrefix(sortKey, EncPlacement(placement), sortKey', EncPlacement(placement'));
    PlacementPrefix(placement, placement');
  }

  lemma CompactionBody(i: Intent, j: Intent)
    requires i.Compaction? && j.Compaction? && IntentFits(i) && IntentFits(j) && EncBody(i) == EncBody(j)
    ensures Same(0, i, 0, j)
  {
    hide EncInt; hide InI64; hide EncList; hide EncInts; hide SortedParts; hide EncJson; hide EncStrs; hide EncPlacement; hide IntsFit;
    hide TextsFit; hide JsonFits; hide PlacementFits; hide Elements;
    var ti, tj := Tail(i.schema, i.sortKey, i.placement), Tail(j.schema, j.sortKey, j.placement);
    assert EncBody(i) == EncInt(i.version) + (EncInt(i.level) + (PartsBytes(i.parts) + (EncJson(i.partition) + ti)));
    assert EncBody(j) == EncInt(j.version) + (EncInt(j.level) + (PartsBytes(j.parts) + (EncJson(j.partition) + tj)));
    IntPrefix(i.version, EncInt(i.level) + (PartsBytes(i.parts) + (EncJson(i.partition) + ti)),
              j.version, EncInt(j.level) + (PartsBytes(j.parts) + (EncJson(j.partition) + tj)));
    IntPrefix(i.level, PartsBytes(i.parts) + (EncJson(i.partition) + ti), j.level, PartsBytes(j.parts) + (EncJson(j.partition) + tj));
    PartsPrefix(i.parts, EncJson(i.partition) + ti, j.parts, EncJson(j.partition) + tj);
    JsonPrefix(i.partition, ti, j.partition, tj);
    TailPrefix(i.schema, i.sortKey, i.placement, j.schema, j.sortKey, j.placement);
  }

  lemma DeleteBody(i: Intent, j: Intent)
    requires i.DeleteKey? && j.DeleteKey? && IntentFits(i) && IntentFits(j) && EncBody(i) == EncBody(j)
    ensures Same(0, i, 0, j)
  {
    hide EncInt; hide InI64; hide EncList; hide EncInts; hide SortedParts; hide EncJson; hide EncStrs; hide EncPlacement; hide IntsFit;
    hide TextsFit; hide JsonFits; hide PlacementFits; hide Elements;
    var ti, tj := Tail(i.schema, i.sortKey, i.placement), Tail(j.schema, j.sortKey, j.placement);
    assert EncBody(i) == EncInt(i.version) + (EncInt(i.key) + (PartsBytes(i.parts) + ti));
    assert EncBody(j) == EncInt(j.version) + (EncInt(j.key) + (PartsBytes(j.parts) + tj));
    IntPrefix(i.version, EncInt(i.key) + (PartsBytes(i.parts) + ti), j.version, EncInt(j.key) + (PartsBytes(j.parts) + tj));
    IntPrefix(i.key, PartsBytes(i.parts) + ti, j.key, PartsBytes(j.parts) + tj);
    PartsPrefix(i.parts, ti, j.parts, tj);
    TailPrefix(i.schema, i.sortKey, i.placement, j.schema, j.sortKey, j.placement);
  }

  lemma BytesTell(ht: int, i: Intent, ht': int, j: Intent)
    requires InI64(ht) && InI64(ht') && IntentFits(i) && IntentFits(j) && CanonicalBytes(ht, i) == CanonicalBytes(ht', j)
    ensures Same(ht, i, ht', j)
  {
    hide EncStr; hide EncInt; hide InI64; hide EncBody; hide IntentFits; hide Ascii;
    var u := Ascii("ukiel");
    var xi, xj := EncInt(ht) + EncBody(i), EncInt(ht') + EncBody(j);
    assert CanonicalBytes(ht, i) == EncStr(u) + (EncStr(Domain(i)) + (EncInt(1) + xi));
    assert CanonicalBytes(ht', j) == EncStr(u) + (EncStr(Domain(j)) + (EncInt(1) + xj));
    Short(i);
    Short(j);
    StrPrefix(u, EncStr(Domain(i)) + (EncInt(1) + xi), u, EncStr(Domain(j)) + (EncInt(1) + xj));
    StrPrefix(Domain(i), EncInt(1) + xi, Domain(j), EncInt(1) + xj);
    assert InI64(1) by { OneFits(); }
    IntPrefix(1, xi, 1, xj);
    IntPrefix(ht, EncBody(i), ht', EncBody(j));
    DomainsDiffer(i, j);
    match i {
      case Mv(_, _, _, _) => MvBody(i, j);
      case Ingest(_, _) => IngestBody(i, j);
      case Compaction(_, _, _, _, _, _, _) => CompactionBody(i, j);
      case DeleteKey(_, _, _, _, _, _) => DeleteBody(i, j);
    }
  }

  lemma OneFits()
    ensures InI64(1)
  {
  }

  lemma Short(i: Intent)
    ensures Length(|Domain(i)|) && Length(|Ascii("ukiel")|)
  {
  }

  lemma RangesDistinct(ranges: seq<IngestRange>)
    requires RangesValid(ranges)
    ensures Distinct(ranges)
  {
    forall i, j | 0 <= i < j < |ranges| ensures ranges[i] != ranges[j] { assert !Overlap(ranges[i], ranges[j]); }
  }

  lemma SameBytes(ht: int, i: Intent, ht': int, j: Intent)
    requires Valid(ht, i) && Valid(ht', j) && Same(ht, i, ht', j)
    ensures CanonicalBytes(ht, i) == CanonicalBytes(ht', j)
  {
    hide EncStr; hide EncInt; hide EncJson; hide EncInts; hide EncRanges; hide EncStrs; hide EncPlacement; hide EncList;
    match i {
      case Mv(_, _, _, _) =>
      case Ingest(_, ranges) =>
        RangesDistinct(ranges);
        RangesDistinct(j.ranges);
        RangeLeTotal();
        SortOfSet(RangeLe, ranges, j.ranges);
        SameLength(ranges, j.ranges);
      case Compaction(_, _, parts, _, _, _, _) => SortOfSet(IntLe, parts, j.parts); SameLength(parts, j.parts);
      case DeleteKey(_, _, parts, _, _, _) => SortOfSet(IntLe, parts, j.parts); SameLength(parts, j.parts);
    }
  }

  lemma SameLength<T>(a: seq<T>, b: seq<T>)
    requires Distinct(a) && Distinct(b) && Elements(a) == Elements(b)
    ensures |a| == |b|
  {
    ElementsCardinality(a);
    ElementsCardinality(b);
  }

  /** Two valid intents have the same canonical bytes if and only if they are the same
      intent, up to the order in which parts and ranges are listed. */
  lemma EncodingIsInjective(ht: int, i: Intent, ht': int, j: Intent)
    requires InI64(ht) && InI64(ht') && IntentFits(i) && IntentFits(j) && Valid(ht, i) && Valid(ht', j)
    ensures CanonicalBytes(ht, i) == CanonicalBytes(ht', j) <==> Same(ht, i, ht', j)
  {
    hide CanonicalBytes; hide Same; hide Valid; hide IntentFits;
    if CanonicalBytes(ht, i) == CanonicalBytes(ht', j) { BytesTell(ht, i, ht', j); }
    if Same(ht, i, ht', j) { SameBytes(ht, i, ht', j); }
  }
}
