/** The identity factories: they check an intent, normalize it and write its bytes. */
module Identities {
  import opened Base
  import opened Sorting
  import opened Canonical
  import opened CanonicalProof

  const MAX_OPERATION_KEY_LEN := 128

  /** The byte buffer the factories append to. */
  class Encoder {
    var bytes: Text

    constructor ()
      ensures bytes == []
    {
      bytes := [];
    }

    method Push(b: Text)
      modifies this
      ensures bytes == old(bytes) + b
    {
      bytes := bytes + b;
    }

    method Str(s: Text)
      modifies this
      ensures bytes == old(bytes) + EncStr(s)
    {
      ghost var before := bytes;
      Push([TAG_STR]);
      Push(Len(|s|));
      Push(s);
      assert bytes == before + EncStr(s);
    }

    method Int(v: int)
      modifies this
      ensures bytes == old(bytes) + EncInt(v)
    {
      ghost var before := bytes;
      Push([TAG_INT]);
      Push(Digits(v % 0x1_0000_0000_0000_0000, 8));
      assert bytes == before + EncInt(v);
    }

    method ListHead(n: nat)
      modifies this
      ensures bytes == old(bytes) + [TAG_LIST] + Len(n)
    {
      Push([TAG_LIST]);
      Push(Len(n));
    }

    method Ints(s: seq<int>)
      modifies this
      ensures bytes == old(bytes) + EncList(|s|, EncInts(s))
    {
      hide EncInt; hide Len;
      ghost var before := bytes;
      ListHead(|s|);
      assert EncInts(s[..0]) == [];
      for i := 0 to |s|
        invariant bytes == before + [TAG_LIST] + Len(|s|) + EncInts(s[..i])
      {
        Int(s[i]);
        IntsSnoc(s[..i], s[i]);
        assert s[..i + 1] == s[..i] + [s[i]];
      }
      assert s[..|s|] == s;
      assert bytes == before + EncList(|s|, EncInts(s));
    }

    method Strs(s: seq<Text>)
      modifies this
      ensures bytes == old(bytes) + EncList(|s|, EncStrs(s))
    {
      hide EncStr; hide Len;
      ghost var before := bytes;
      ListHead(|s|);
      assert EncStrs(s[..0]) == [];
      for i := 0 to |s|
        invariant bytes == before + [TAG_LIST] + Len(|s|) + EncStrs(s[..i])
      {
        Str(s[i]);
        StrsSnoc(s[..i], s[i]);
        assert s[..i + 1] == s[..i] + [s[i]];
      }
      assert s[..|s|] == s;
      assert bytes == before + EncList(|s|, EncStrs(s));
    }

    method Ranges(s: seq<IngestRange>)
      modifies this
      ensures bytes == old(bytes) + EncList(|s|, EncRanges(s))
    {
      hide EncInt; hide EncStr; hide Len;
      ghost var before := bytes;
      ListHead(|s|);
      assert EncRanges(s[..0]) == [];
      for i := 0 to |s|
        invariant bytes == before + [TAG_LIST] + Len(|s|) + EncRanges(s[..i])
      {
        ghost var at := bytes;
        Str(s[i].topic);
        Int(s[i].partition);
        Int(s[i].first);
        Int(s[i].last);
        assert bytes == at + EncRange(s[i]);
        RangesSnoc(s[..i], s[i]);
        assert s[..i + 1] == s[..i] + [s[i]];
      }
      assert s[..|s|] == s;
      assert bytes == before + EncList(|s|, EncRanges(s));
    }

    /** A tag, a length, that many bytes. */
    method Sized(tag: Byte, t: Text)
      modifies this
      ensures bytes == old(bytes) + ([tag] + Len(|t|) + t)
    {
      hide Len;
      ghost var before := bytes;
      Push([tag]);
      Push(Len(|t|));
      Push(t);
      assert bytes == before + ([tag] + Len(|t|) + t);
    }

    /** Canonical JSON: an object's members in the order of their keys. */
    method PutJson(j: Json)
      modifies this
      ensures bytes == old(bytes) + EncJson(j)
      decreases j, 1
    {
      hide Len; hide EncItems; hide EncMembers;
      match j {
        case JNull => Push([TAG_JSON_NULL]);
        case JBool(b) => Push([TAG_JSON_BOOL, if b then 1 else 0]);
        case JNumber(t) => Sized(TAG_JSON_NUMBER, t);
        case JString(t) => Sized(TAG_JSON_STRING, t);
        case JArray(_) => PutArray(j);
        case JObject(_) => PutObject(j);
      }
    }

    method PutArray(j: Json)
      requires j.JArray?
      modifies this
      ensures bytes == old(bytes) + EncJson(j)
      decreases j, 0
    {
      hide Len; hide EncMembers;
      ghost var before := bytes;
      var n := |j.items|;
      Push([TAG_JSON_ARRAY]);
      Push(Len(n));
      ghost var head := bytes;
      for i := 0 to n
        invariant bytes + EncItems(j, n - i) == head + EncItems(j, n)
      {
        ghost var at, rest := bytes, EncItems(j, n - i - 1);
        PutJson(j.items[i]);
        ItemsStep(j, n - i);
        Assoc(at, EncJson(j.items[i]), rest);
      }
      assert bytes + [] == bytes;
      assert before + [TAG_JSON_ARRAY] + Len(n) + EncItems(j, n) == before + ([TAG_JSON_ARRAY] + Len(n) + EncItems(j, n));
    }

    method PutObject(j: Json)
      requires j.JObject?
      modifies this
      ensures bytes == old(bytes) + EncJson(j)
      decreases j, 0
    {
      hide Len; hide EncItems; hide SortBy; hide Keys;
      ghost var before := bytes;
      var n := |j.fields|;
      Push([TAG_JSON_OBJECT]);
      Push(Len(n));
      ghost var head := bytes;
      var keys := SortBy(TextLe, Keys(j.fields));
      KeysInOrder(j.fields, keys);
      for i := 0 to |keys|
        invariant bytes + EncMembers(j, keys[i..]) == head + EncMembers(j, keys)
      {
        ghost var at, rest := bytes, EncMembers(j, keys[i + 1..]);
        assert keys[i] in keys;
        Push(Len(|keys[i]|));
        Push(keys[i]);
        PutJson(j.fields[keys[i]]);
        MembersStep(j, keys, i);
        MemberAssoc(at, Len(|keys[i]|), keys[i], EncJson(j.fields[keys[i]]), rest);
      }
      assert bytes + [] == bytes;
      assert before + [TAG_JSON_OBJECT] + Len(n) + EncMembers(j, keys) == before + ([TAG_JSON_OBJECT] + Len(n) + EncMembers(j, keys));
    }

    method Place(p: Placement)
      modifies this
      ensures bytes == old(bytes) + EncPlacement(p)
    {
      hide EncStr; hide EncInt;
      ghost var before := bytes;
      match p {
        case Packed => Str(Ascii("packed"));
        case Separated => Str(Ascii("separated"));
        case SizeTargeted(n) => Str(Ascii("size_targeted")); Int(n);
      }
      assert bytes == before + EncPlacement(p);
    }

    /** The header every intent starts with. */
    method Header(ht: int, domain: Text)
      modifies this
      ensures bytes == old(bytes) + (EncStr(Ascii("ukiel")) + EncStr(domain) + EncInt(1) + EncInt(ht))
    {
      hide EncStr; hide EncInt; hide Ascii;
      ghost var before := bytes;
      Str(Ascii("ukiel"));
      Str(domain);
      Int(1);
      Int(ht);
      assert bytes == before + (EncStr(Ascii("ukiel")) + EncStr(domain) + EncInt(1) + EncInt(ht));
    }
  }

  lemma ItemsStep(j: Json, n: nat)
    requires j.JArray? && 0 < n <= |j.items|
    ensures EncItems(j, n) == EncJson(j.items[|j.items| - n]) + EncItems(j, n - 1)
  {
  }

  lemma MembersStep(j: Json, keys: seq<Text>, i: nat)
    requires j.JObject? && i < |keys| && forall k :: k in keys ==> k in j.fields
    ensures EncMembers(j, keys[i..]) == Len(|keys[i]|) + keys[i] + EncJson(j.fields[keys[i]]) + EncMembers(j, keys[i + 1..])
  {
    hide Len; hide EncJson;
    assert keys[i..][1..] == keys[i + 1..];
  }

  lemma MemberAssoc(at: Text, a: Text, b: Text, c: Text, rest: Text)
    ensures at + a + b + c + rest == at + (a + b + c + rest)
  {
  }

  function Keys(fields: map<Text, Json>): (r: seq<Text>)
    ensures Elements(r) == fields.Keys && Distinct(r)
  {
    KeyList(fields.Keys)
  }

  /** The members of a set, each once. */
  function KeyList(s: set<Text>): (r: seq<Text>)
    ensures Elements(r) == s && Distinct(r)
  {
    if s == {} then [] else
      LeastText(s);
      var k :| k in s && forall l :: l in s ==> TextLe(k, l);
      LeastIsUnique(s);
      var rest := KeyList(s - {k});
      assert Elements([k] + rest) == {k} + Elements(rest);
      [k] + rest
  }

  lemma {:induction false} LeastText(s: set<Text>)
    requires s != {}
    ensures exists k :: k in s && forall l :: l in s ==> TextLe(k, l)
  {
    var k :| k in s;
    TextOrder(k, k, k);
    if s == {k} {
    } else {
      LeastText(s - {k});
      var m :| m in s - {k} && forall l :: l in s - {k} ==> TextLe(m, l);
      TextOrder(k, m, k);
      if TextLe(m, k) {
        assert forall l :: l in s ==> TextLe(m, l);
      } else {
        forall l | l in s ensures TextLe(k, l) { TextOrder(k, m, l); }
      }
    }
  }

  lemma LeastIsUnique(s: set<Text>)
    ensures forall k, l :: k in s && l in s && (forall m :: m in s ==> TextLe(k, m)) && (forall m :: m in s ==> TextLe(l, m)) ==> k == l
  {
    forall k, l | k in s && l in s && (forall m :: m in s ==> TextLe(k, m)) && (forall m :: m in s ==> TextLe(l, m)) ensures k == l {
      TextOrder(k, l, k);
    }
  }

  lemma KeysInOrder(fields: map<Text, Json>, keys: seq<Text>)
    requires keys == SortBy(TextLe, Keys(fields))
    ensures keys == SortedKeys(fields.Keys) && keys[0..] == keys && keys[|keys|..] == []
    ensures forall k :: k in keys ==> k in fields
  {
    TextLeTotal();
    SortOfSet(TextLe, Keys(fields), ListOf(fields.Keys));
    assert forall k :: k in keys ==> k in Elements(keys);
  }

  lemma {:induction false} IntsSnoc(s: seq<int>, v: int)
    ensures EncInts(s + [v]) == EncInts(s) + EncInt(v)
  {
    hide EncInt;
    if s == [] {
      assert EncInts([v]) == EncInt(v) + EncInts([v][1..]);
    } else {
      IntsSnoc(s[1..], v);
      assert (s + [v])[1..] == s[1..] + [v];
    }
  }

  lemma {:induction false} StrsSnoc(s: seq<Text>, v: Text)
    ensures EncStrs(s + [v]) == EncStrs(s) + EncStr(v)
  {
    hide EncStr;
    if s == [] {
      assert EncStrs([v]) == EncStr(v) + EncStrs([v][1..]);
    } else {
      StrsSnoc(s[1..], v);
      assert (s + [v])[1..] == s[1..] + [v];
    }
  }

  lemma {:induction false} RangesSnoc(s: seq<IngestRange>, v: IngestRange)
    ensures EncRanges(s + [v]) == EncRanges(s) + EncRange(v)
  {
    hide EncRange;
    if s == [] {
      assert EncRanges([v]) == EncRange(v) + EncRanges([v][1..]);
    } else {
      RangesSnoc(s[1..], v);
      assert (s + [v])[1..] == s[1..] + [v];
    }
  }

  // ---------------------------------------------------------------- normalization

  /** The text is before the other: a proper prefix of it, or less where they first differ. */
  ghost predicate Before(a: Text, b: Text) {
    exists n :: 0 <= n <= |a| && n <= |b| && a[..n] == b[..n] && if n == |a| then n < |b| else n < |b| && a[n] < b[n]
  }

  /** By topic, then by partition, then by offset. */
  ghost predicate InOrder(s: seq<IngestRange>) {
    forall i, j :: 0 <= i < j < |s| ==>
      if s[i].topic != s[j].topic then Before(s[i].topic, s[j].topic)
      else s[i].partition < s[j].partition || (s[i].partition == s[j].partition && s[i].last < s[j].first)
  }

  lemma {:induction false} TextLeMeans(a: Text, b: Text)
    requires TextLe(a, b) && a != b
    ensures Before(a, b)
  {
    if a == [] {
      assert a[..0] == b[..0];
    } else if a[0] < b[0] {
      assert a[..0] == b[..0];
    } else {
      TextLeMeans(a[1..], b[1..]);
      var n :| 0 <= n <= |a[1..]| && n <= |b[1..]| && a[1..][..n] == b[1..][..n]
               && if n == |a[1..]| then n < |b[1..]| else n < |b[1..]| && a[1..][n] < b[1..][n];
      assert a[..n + 1] == [a[0]] + a[1..][..n] && b[..n + 1] == [b[0]] + b[1..][..n];
    }
  }

  lemma SortedInOrder(s: seq<IngestRange>)
    requires Ordered(RangeLe, s) && (forall k :: 0 <= k < |s| ==> Wellformed(s[k]))
    requires forall i, j :: 0 <= i < j < |s| ==> !Overlap(s[i], s[j])
    ensures InOrder(s)
  {
    hide TextLe;
    forall i, j | 0 <= i < j < |s|
      ensures if s[i].topic != s[j].topic then Before(s[i].topic, s[j].topic)
              else s[i].partition < s[j].partition || (s[i].partition == s[j].partition && s[i].last < s[j].first)
    {
      assert RangeLe(s[i], s[j]) && !Overlap(s[i], s[j]) && Wellformed(s[i]) && Wellformed(s[j]);
      if s[i].topic != s[j].topic { TextLeMeans(s[i].topic, s[j].topic); }
    }
  }

  /** Why a list of parts is no intent: it is empty, or names the least of its repeated
      parts. */
  predicate PartsRefused(parts: seq<int>, e: OperationError) {
    if parts == [] then e == NoInputParts
    else e.DuplicateInputPart? && multiset(parts)[e.id] > 1 && forall x :: x in parts && x < e.id ==> multiset(parts)[x] == 1
  }

  /** Why a list of ranges is no intent: it is empty, or has a range without a topic, or one
      that ends before it begins, or one that begins within another. */
  ghost predicate RangesRefused(ranges: seq<IngestRange>, e: OperationError) {
    if ranges == [] then e == NoOffsetRanges
    else if exists r :: r in ranges && r.topic == [] then e == EmptyTopic
    else if exists r :: r in ranges && r.first > r.last then
      e.InvertedOffsetRange? && e.range in ranges && e.range.first > e.range.last
    else e.OverlappingOffsetRanges? && BeginsWithin(ranges, e.range)
  }

  /** Another range of the list, or a second copy of this one, holds its first offset. */
  ghost predicate BeginsWithin(ranges: seq<IngestRange>, r: IngestRange) {
    exists i, j :: 0 <= i < |ranges| && 0 <= j < |ranges| && i != j && ranges[i] == r
                   && ranges[j].topic == r.topic && ranges[j].partition == r.partition && ranges[j].first <= r.first <= ranges[j].last
  }

  /** Sorts the parts; the one test of neighbours finds any repetition. */
  method CanonicalParts(parts: seq<int>) returns (r: Result<seq<int>, OperationError>)
    ensures r.Ok? <==> parts != [] && Distinct(parts)
    ensures r.Ok? ==> r.value == SortedParts(parts) && forall i, j :: 0 <= i < j < |r.value| ==> r.value[i] < r.value[j]
    ensures r.Err? ==> PartsRefused(parts, r.error)
  {
    hide SortBy; hide Ordered; hide TotalOrder; hide Distinct; hide Elements;
    if parts == [] { return Err(NoInputParts); }
    var ids := SortedParts(parts);
    IntLeTotal();
    SortOrdered(IntLe, parts);
    SortElements(IntLe, parts);
    for i := 1 to |ids|
      invariant forall a, b :: 0 <= a < b < i ==> ids[a] < ids[b]
    {
      if ids[i - 1] == ids[i] {
        TwiceListed(ids, i);
        OnceBelow(ids, i);
        return Err(DuplicateInputPart(ids[i]));
      }
      NeighbourBelow(ids, i);
    }
    IncreasingIsDistinct(ids);
    return Ok(ids);
  }

  lemma IntLeTotal()
    ensures TotalOrder(IntLe)
  {
  }

  lemma NeighbourBelow(ids: seq<int>, i: nat)
    requires Ordered(IntLe, ids) && 0 < i < |ids| && ids[i - 1] != ids[i]
    ensures ids[i - 1] < ids[i]
  {
    assert IntLe(ids[i - 1], ids[i]);
  }

  lemma IncreasingIsDistinct(ids: seq<int>)
    requires forall a, b :: 0 <= a < b < |ids| ==> ids[a] < ids[b]
    ensures Distinct(ids)
  {
  }

  lemma TwiceListed(s: seq<int>, i: nat)
    requires 0 < i < |s| && s[i - 1] == s[i]
    ensures multiset(s)[s[i]] > 1 && !Distinct(s)
  {
    assert s == s[..i] + [s[i]] + s[i + 1..];
    assert s[..i] == s[..i - 1] + [s[i - 1]];
  }

  lemma {:induction false} CountOnce(s: seq<int>, x: int)
    requires forall a, b :: 0 <= a < b < |s| ==> s[a] < s[b]
    ensures multiset(s)[x] == if x in s then 1 else 0
  {
    if s != [] {
      var n := |s| - 1;
      CountOnce(s[..n], x);
      assert s == s[..n] + [s[n]];
    }
  }

  lemma CountNone(s: seq<int>, x: int)
    requires forall a :: 0 <= a < |s| ==> s[a] > x
    ensures multiset(s)[x] == 0
  {
  }

  /** What lies below the first repetition is listed once. */
  lemma OnceBelow(ids: seq<int>, i: nat)
    requires Ordered(IntLe, ids) && 0 < i < |ids| && ids[i - 1] == ids[i]
    requires forall a, b :: 0 <= a < b < i ==> ids[a] < ids[b]
    ensures forall x :: x in ids && x < ids[i] ==> multiset(ids)[x] == 1
  {
    forall x | x in ids && x < ids[i] ensures multiset(ids)[x] == 1 {
      assert ids == ids[..i] + ids[i..];
      CountOnce(ids[..i], x);
      forall a | 0 <= a < |ids[i..]| ensures ids[i..][a] > x { if a > 0 { assert IntLe(ids[i], ids[i + a]); } }
      CountNone(ids[i..], x);
      assert x in ids[..i];
    }
  }

  /** Sorts the ranges; testing neighbours finds an overlap whenever any two overlap. */
  method CanonicalRanges(ranges: seq<IngestRange>) returns (r: Result<seq<IngestRange>, OperationError>)
    ensures r.Ok? <==> RangesValid(ranges)
    ensures r.Ok? ==> r.value == SortedRanges(ranges) && InOrder(r.value)
    ensures r.Err? ==> RangesRefused(ranges, r.error)
  {
    hide TextLe; hide RangeLe; hide SortBy; hide Ordered; hide Elements; hide TotalOrder; hide Overlap; hide Distinct;
    if ranges == [] { return Err(NoOffsetRanges); }
    var sorted := SortedRanges(ranges);
    RangeLeTotal();
    SortOrdered(RangeLe, ranges);
    SortElements(RangeLe, ranges);
    for i := 0 to |sorted|
      invariant forall k :: 0 <= k < i ==> Wellformed(sorted[k])
    {
      if !Wellformed(sorted[i]) {
        Malformed(ranges, sorted, i);
        MalformedWhy(ranges, sorted, i);
        return Err(if sorted[i].topic == [] then EmptyTopic else InvertedOffsetRange(sorted[i]));
      }
    }
    for i := 1 to |sorted|
      invariant forall k :: 1 <= k < i ==> !Overlap(sorted[k - 1], sorted[k])
    {
      var prev, next := sorted[i - 1], sorted[i];
      if prev.topic == next.topic && prev.partition == next.partition && next.first <= prev.last {
        LaterOverlaps(sorted, i);
        if RangesValid(ranges) { NoOverlapWhenValid(ranges, sorted, i); }
        OverlapWhy(ranges, sorted, i);
        return Err(OverlappingOffsetRanges(next));
      }
      StartsLater(sorted, i);
    }
    NeighboursSuffice(sorted);
    SortedInOrder(sorted);
    ApartTransfers(ranges, sorted);
    return Ok(sorted);
  }

  /** The first malformed range in order has no topic if any has none. */
  lemma MalformedWhy(ranges: seq<IngestRange>, sorted: seq<IngestRange>, i: nat)
    requires Elements(sorted) == Elements(ranges) && Ordered(RangeLe, sorted) && i < |sorted| && !Wellformed(sorted[i])
    requires forall k :: 0 <= k < i ==> Wellformed(sorted[k])
    ensures RangesRefused(ranges, if sorted[i].topic == [] then EmptyTopic else InvertedOffsetRange(sorted[i]))
  {
    assert sorted[i] in Elements(sorted);
    assert sorted[i] in ranges;
    if r :| r in ranges && r.topic == [] {
      assert r in Elements(ranges);
      var k: nat :| k < |sorted| && sorted[k] == r;
      if k > i { assert RangeLe(sorted[i], sorted[k]); }
    }
  }

  /** Neighbours that overlap are two entries of the list. */
  lemma OverlapWhy(ranges: seq<IngestRange>, sorted: seq<IngestRange>, i: nat)
    requires multiset(sorted) == multiset(ranges) && Ordered(RangeLe, sorted) && 0 < i < |sorted|
    requires forall k :: 0 <= k < |sorted| ==> Wellformed(sorted[k])
    requires sorted[i - 1].topic == sorted[i].topic && sorted[i - 1].partition == sorted[i].partition && sorted[i].first <= sorted[i - 1].last
    ensures RangesRefused(ranges, OverlappingOffsetRanges(sorted[i]))
  {
    var a, b := sorted[i - 1], sorted[i];
    assert RangeLe(a, b);
    forall r | r in ranges ensures Wellformed(r) { SameBag(ranges, sorted, r); }
    SameBag(sorted, ranges, b);
    SameBag(sorted, ranges, a);
    if a != b {
      var m: nat :| m < |ranges| && ranges[m] == b;
      var n: nat :| n < |ranges| && ranges[n] == a;
    } else {
      TwoCopies(sorted, ranges, i);
    }
  }

  lemma TwoCopies(sorted: seq<IngestRange>, ranges: seq<IngestRange>, i: nat)
    requires multiset(sorted) == multiset(ranges) && 0 < i < |sorted| && sorted[i - 1] == sorted[i]
    ensures exists m, n :: 0 <= m < |ranges| && 0 <= n < |ranges| && m != n && ranges[m] == ranges[n] == sorted[i]
  {
    var x := sorted[i];
    assert sorted == sorted[..i - 1] + [x] + [x] + sorted[i + 1..];
    assert multiset(ranges)[x] >= 2;
    assert x in multiset(ranges);
    var m: nat :| m < |ranges| && ranges[m] == x;
    assert ranges == ranges[..m] + [x] + ranges[m + 1..];
    assert x in multiset(ranges[..m]) || x in multiset(ranges[m + 1..]);
    if x in ranges[..m] {
      var n: nat :| n < m && ranges[..m][n] == x;
      assert ranges[n] == x;
    } else {
      assert x in ranges[m + 1..];
      var n: nat :| n < |ranges[m + 1..]| && ranges[m + 1..][n] == x;
      assert ranges[m + 1 + n] == x;
    }
  }

  predicate Wellformed(r: IngestRange) {
    r.topic != [] && r.first <= r.last
  }

  lemma Malformed(ranges: seq<IngestRange>, sorted: seq<IngestRange>, i: nat)
    requires Elements(sorted) == Elements(ranges) && i < |sorted| && !Wellformed(sorted[i])
    ensures !RangesValid(ranges)
  {
    assert sorted[i] in Elements(sorted);
    var k :| 0 <= k < |ranges| && ranges[k] == sorted[i];
  }

  /** In order, if no range overlaps its neighbour then no two overlap. */
  lemma {:induction false} NeighboursSuffice(s: seq<IngestRange>)
    requires Ordered(RangeLe, s) && forall k :: 0 <= k < |s| ==> Wellformed(s[k])
    requires forall k :: 1 <= k < |s| ==> !Overlap(s[k - 1], s[k])
    ensures forall i, j :: 0 <= i < j < |s| ==> !Overlap(s[i], s[j])
  {
    forall i, j | 0 <= i < j < |s| ensures !Overlap(s[i], s[j]) { ChainApart(s, i, j); }
  }

  lemma {:induction false} ChainApart(s: seq<IngestRange>, i: nat, j: nat)
    requires i < j < |s| && Ordered(RangeLe, s) && forall k :: 0 <= k < |s| ==> Wellformed(s[k])
    requires forall k :: 1 <= k < |s| ==> !Overlap(s[k - 1], s[k])
    ensures !Overlap(s[i], s[j])
    decreases j - i
  {
    assert RangeLe(s[i], s[j]) && RangeLe(s[i], s[i + 1]) && RangeLe(s[i + 1], s[j]);
    assert !Overlap(s[i + 1 - 1], s[i + 1]);
    if i + 1 < j {
      ChainApart(s, i + 1, j);
      if s[i].topic == s[j].topic {
        TextOrder(s[i].topic, s[i + 1].topic, s[i].topic);
      }
    }
  }

  lemma LaterOverlaps(s: seq<IngestRange>, i: nat)
    requires Ordered(RangeLe, s) && 0 < i < |s| && Wellformed(s[i - 1]) && Wellformed(s[i])
    requires s[i - 1].topic == s[i].topic && s[i - 1].partition == s[i].partition && s[i].first <= s[i - 1].last
    ensures Overlap(s[i - 1], s[i])
  {
    assert RangeLe(s[i - 1], s[i]);
  }

  lemma StartsLater(s: seq<IngestRange>, i: nat)
    requires 0 < i < |s|
    requires !(s[i - 1].topic == s[i].topic && s[i - 1].partition == s[i].partition && s[i].first <= s[i - 1].last)
    ensures !Overlap(s[i - 1], s[i])
  {
  }

  /** Valid ranges do not overlap in sorted order either. */
  lemma NoOverlapWhenValid(ranges: seq<IngestRange>, sorted: seq<IngestRange>, i: nat)
    requires sorted == SortedRanges(ranges) && RangesValid(ranges) && 0 < i < |sorted|
    ensures !Overlap(sorted[i - 1], sorted[i])
  {
    SortElements(RangeLe, ranges);
    RangesDistinct(ranges);
    assert sorted[i - 1] in Elements(sorted) && sorted[i] in Elements(sorted);
    var a: nat :| a < |ranges| && ranges[a] == sorted[i - 1];
    var b: nat :| b < |ranges| && ranges[b] == sorted[i];
    assert sorted[i - 1] != sorted[i];
    assert a < b ==> !Overlap(ranges[a], ranges[b]);
    assert b < a ==> !Overlap(ranges[b], ranges[a]);
  }

  lemma ApartTransfers(ranges: seq<IngestRange>, sorted: seq<IngestRange>)
    requires sorted == SortedRanges(ranges) && ranges != []
    requires forall k :: 0 <= k < |sorted| ==> Wellformed(sorted[k])
    requires forall i, j :: 0 <= i < j < |sorted| ==> !Overlap(sorted[i], sorted[j])
    ensures RangesValid(ranges)
  {
    SortElements(RangeLe, ranges);
    forall i | 0 <= i < |ranges| ensures Wellformed(ranges[i]) { assert ranges[i] in Elements(ranges); assert ranges[i] in sorted; }
    assert Distinct(sorted) by {
      forall i, j | 0 <= i < j < |sorted| ensures sorted[i] != sorted[j] { assert !Overlap(sorted[i], sorted[j]); assert Wellformed(sorted[i]); }
    }
    forall i, j | 0 <= i < j < |ranges| ensures !Overlap(ranges[i], ranges[j]) {
      assert ranges[i] in Elements(ranges) && ranges[j] in Elements(ranges);
      var a: nat :| a < |sorted| && sorted[a] == ranges[i];
      var b: nat :| b < |sorted| && sorted[b] == ranges[j];
      assert a != b;
      if a < b { assert !Overlap(sorted[a], sorted[b]); } else { assert !Overlap(sorted[b], sorted[a]); }
    }
  }

  // ---------------------------------------------------------------- factories

  /** Processing of one source ADD by one pipeline. */
  method MvIdentity(ht: int, i: Intent) returns (r: Result<Text, OperationError>)
    requires i.Mv?
    ensures r.Ok? <==> ht > 0 && i.pipeline > 0 && i.source > 0 && i.commit > 0 && ht != i.source
    ensures r == Err(MvSelfLoop) <==> ht > 0 && i.pipeline > 0 && i.source > 0 && i.commit > 0 && ht == i.source
    ensures r.Err? && r.error != MvSelfLoop ==>
              r.error == (if ht <= 0 then InvalidId("target_hypertable_id", ht)
                          else if i.pipeline <= 0 then InvalidId("pipeline_id", i.pipeline)
                          else if i.source <= 0 then InvalidId("source_hypertable_id", i.source)
                          else InvalidId("source_commit_id", i.commit))
    ensures r.Ok? <==> Valid(ht, i)
    ensures r.Ok? ==> r.value == CanonicalBytes(ht, i)
  {
    hide EncStr; hide EncInt; hide EncList; hide EncInts; hide EncRanges; hide EncStrs; hide EncJson; hide EncPlacement; hide Ascii;
    hide SortedParts; hide SortedRanges; hide RangesValid; hide Distinct; hide Domain;
    if ht <= 0 { return Err(InvalidId("target_hypertable_id", ht)); }
    if i.pipeline <= 0 { return Err(InvalidId("pipeline_id", i.pipeline)); }
    if i.source <= 0 { return Err(InvalidId("source_hypertable_id", i.source)); }
    if i.commit <= 0 { return Err(InvalidId("source_commit_id", i.commit)); }
    if ht == i.source { return Err(MvSelfLoop); }
    var e := new Encoder();
    e.Header(ht, Domain(i));
    e.Int(i.version);
    e.Int(i.pipeline);
    e.Int(i.source);
    e.Int(i.commit);
    assert e.bytes == CanonicalBytes(ht, i);
    return Ok(e.bytes);
  }

  /** Consumption of exactly these offsets. */
  method IngestIdentity(ht: int, i: Intent) returns (r: Result<Text, OperationError>)
    requires i.Ingest?
    ensures r.Ok? <==> Valid(ht, i)
    ensures r.Err? ==> RangesRefused(i.ranges, r.error)
    ensures r.Ok? ==> r.value == CanonicalBytes(ht, i)
  {
    hide EncStr; hide EncInt; hide EncList; hide EncInts; hide EncRanges; hide EncStrs; hide EncJson; hide EncPlacement; hide Ascii;
    hide SortedParts; hide SortedRanges; hide RangesValid; hide Distinct; hide Domain;
    var sorted := CanonicalRanges(i.ranges);
    if sorted.Err? { return Err(sorted.error); }
    SortedRangeCount(i.ranges);
    var e := new Encoder();
    e.Header(ht, Domain(i));
    e.Int(i.version);
    e.Ranges(sorted.value);
    assert e.bytes == CanonicalBytes(ht, i);
    return Ok(e.bytes);
  }

  /** A merge of exactly these parts into one run. */
  method CompactionIdentity(ht: int, i: Intent) returns (r: Result<Text, OperationError>)
    requires i.Compaction?
    ensures r.Ok? <==> Valid(ht, i)
    ensures r == Err(EmptySortKey) <==> i.parts != [] && Distinct(i.parts) && i.sortKey == []
    ensures r.Err? && r.error != EmptySortKey ==> PartsRefused(i.parts, r.error)
    ensures r.Ok? ==> r.value == CanonicalBytes(ht, i)
  {
    hide EncStr; hide EncInt; hide EncList; hide EncInts; hide EncRanges; hide EncStrs; hide EncJson; hide EncPlacement; hide Ascii;
    hide SortedParts; hide SortedRanges; hide RangesValid; hide Distinct; hide Domain;
    var sorted := CanonicalParts(i.parts);
    if sorted.Err? { return Err(sorted.error); }
    if i.sortKey == [] { return Err(EmptySortKey); }
    SortedPartCount(i.parts);
    var e := new Encoder();
    e.Header(ht, Domain(i));
    ghost var head := e.bytes;
    e.Int(i.version);
    e.Int(i.level);
    e.Ints(sorted.value);
    e.PutJson(i.partition);
    e.PutJson(i.schema);
    e.Strs(i.sortKey);
    e.Place(i.placement);
    assert e.bytes == head + EncBody(i);
    assert e.bytes == CanonicalBytes(ht, i);
    return Ok(e.bytes);
  }

  /** Removal of one key from exactly these parts. */
  method DeleteKeyIdentity(ht: int, i: Intent) returns (r: Result<Text, OperationError>)
    requires i.DeleteKey?
    ensures r.Ok? <==> Valid(ht, i)
    ensures r == Err(EmptySortKey) <==> i.parts != [] && Distinct(i.parts) && i.sortKey == []
    ensures r.Err? && r.error != EmptySortKey ==> PartsRefused(i.parts, r.error)
    ensures r.Ok? ==> r.value == CanonicalBytes(ht, i)
  {
    hide EncStr; hide EncInt; hide EncList; hide EncInts; hide EncRanges; hide EncStrs; hide EncJson; hide EncPlacement; hide Ascii;
    hide SortedParts; hide SortedRanges; hide RangesValid; hide Distinct; hide Domain;
    var sorted := CanonicalParts(i.parts);
    if sorted.Err? { return Err(sorted.error); }
    if i.sortKey == [] { return Err(EmptySortKey); }
    SortedPartCount(i.parts);
    var e := new Encoder();
    e.Header(ht, Domain(i));
    ghost var head := e.bytes;
    e.Int(i.version);
    e.Int(i.key);
    e.Ints(sorted.value);
    e.PutJson(i.schema);
    e.Strs(i.sortKey);
    e.Place(i.placement);
    assert e.bytes == head + EncBody(i);
    assert e.bytes == CanonicalBytes(ht, i);
    return Ok(e.bytes);
  }

  lemma SortedPartCount(parts: seq<int>)
    ensures |SortedParts(parts)| == |parts|
  {
    SortElements(IntLe, parts);
  }

  lemma SortedRangeCount(ranges: seq<IngestRange>)
    ensures |SortedRanges(ranges)| == |ranges|
  {
    SortElements(RangeLe, ranges);
  }

  // ---------------------------------------------------------------- the stored key

  function HexDigit(n: nat): Byte
    requires n < 16
  {
    if n < 10 then 48 + n else 87 + n
  }

  function Hex(bytes: Text): (h: Text)
    ensures |h| == 2 * |bytes|
  {
    if bytes == [] then [] else [HexDigit(bytes[0] / 16), HexDigit(bytes[0] % 16)] + Hex(bytes[1..])
  }

  /** `ukiel/{domain}/v1/{hex digest}`. */
  function KeyText(domain: Text, digest: Text): Text {
    Ascii("ukiel/") + domain + Ascii("/v1/") + Hex(digest)
  }

  /** A factory's key never exceeds the bound, however many parts or ranges the intent
      covers, and tells the domain and the digest apart. */
  lemma KeysAreBoundedAndDistinct(i: Intent, j: Intent, d: Text, e: Text)
    requires |d| == |e| == 32
    ensures |KeyText(Domain(i), d)| <= MAX_OPERATION_KEY_LEN
    ensures KeyText(Domain(i), d) == KeyText(Domain(j), e) <==> Domain(i) == Domain(j) && d == e
  {
    var u, v := Ascii("ukiel/"), Ascii("/v1/");
    if KeyText(Domain(i), d) == KeyText(Domain(j), e) {
      assert |Domain(i)| == |Domain(j)|;
      assert KeyText(Domain(i), d) == u + (Domain(i) + (v + Hex(d))) && KeyText(Domain(j), e) == u + (Domain(j) + (v + Hex(e)));
      Apart(u, Domain(i) + (v + Hex(d)), u, Domain(j) + (v + Hex(e)));
      Apart(Domain(i), v + Hex(d), Domain(j), v + Hex(e));
      Apart(v, Hex(d), v, Hex(e));
      HexInjective(d, e);
    }
  }

  lemma {:induction false} HexInjective(a: Text, b: Text)
    requires |a| == |b| && Hex(a) == Hex(b)
    ensures a == b
  {
    if a != [] {
      assert Hex(a)[2..] == Hex(a[1..]) && Hex(b)[2..] == Hex(b[1..]);
      assert Hex(a)[0] == HexDigit(a[0] / 16) && Hex(b)[0] == HexDigit(b[0] / 16);
      assert Hex(a)[1] == HexDigit(a[0] % 16) && Hex(b)[1] == HexDigit(b[0] % 16);
      HexInjective(a[1..], b[1..]);
      assert a == [a[0]] + a[1..] && b == [b[0]] + b[1..];
    }
  }
}
