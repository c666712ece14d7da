/** Rows as the storage layer sees them: a packing key, the position the remaining
    sort columns give the row, and its column values. */
module Rows {
  import opened Base

  /** One column value: NULL, a 64-bit integer, or a value of another type. */
  datatype Cell = Null | Int64(v: int) | Opaque(id: nat)

  /** `key` is the packing key, the first sort column; `rank` is the place of the
      row under the remaining sort columns (any total preorder has such a rank). */
  datatype Row = Row(key: int, rank: int, cells: seq<Cell>)

  /** The sort-key order: packing key first, then the remaining sort columns. */
  predicate Le(a: Row, b: Row) {
    a.key < b.key || (a.key == b.key && a.rank <= b.rank)
  }

  predicate Sorted(s: seq<Row>) {
    forall i, j :: 0 <= i < j < |s| ==> Le(s[i], s[j])
  }

  predicate KeySorted(s: seq<Row>) {
    forall i, j :: 0 <= i < j < |s| ==> s[i].key <= s[j].key
  }

  /** Inserts a row in front of the first row that is not below it. */
  function Insert(x: Row, s: seq<Row>): (r: seq<Row>)
    ensures multiset(r) == multiset{x} + multiset(s)
  {
    if s == [] then [x]
    else if Le(x, s[0]) then [x] + s
    else
      assert s == [s[0]] + s[1..];
      [s[0]] + Insert(x, s[1..])
  }

  /** The reference: insertion sort from the right, which keeps equal rows in
      their input order. */
  function StableSort(s: seq<Row>): (r: seq<Row>)
    ensures multiset(r) == multiset(s)
  {
    if s == [] then [] else
      assert s == [s[0]] + s[1..];
      Insert(s[0], StableSort(s[1..]))
  }

  lemma {:induction false} InsertSorted(x: Row, s: seq<Row>)
    requires Sorted(s)
    ensures Sorted(Insert(x, s))
  {
    if s == [] || Le(x, s[0]) {
    } else {
      InsertSorted(x, s[1..]);
      var r := Insert(x, s[1..]);
      forall j | 0 <= j < |r| ensures Le(s[0], r[j]) {
        assert r[j] in multiset(r);
        assert r[j] == x || r[j] in s[1..];
      }
    }
  }

  /** The reference really sorts: by packing key, and by rank within a key. */
  lemma {:induction false} StableSortSorts(s: seq<Row>)
    ensures Sorted(StableSort(s))
    ensures forall i, j :: 0 <= i < j < |StableSort(s)| ==>
              var a, b := StableSort(s)[i], StableSort(s)[j];
              a.key < b.key || (a.key == b.key && a.rank <= b.rank)
  {
    if s != [] {
      StableSortSorts(s[1..]);
      InsertSorted(s[0], StableSort(s[1..]));
    }
  }

  /** The reference is stable: rows that tie keep their relative input order. */
  lemma {:induction false} StableSortIsStable(s: seq<Row>, key: int, rank: int)
    ensures Ties(StableSort(s), key, rank) == Ties(s, key, rank)
  {
    if s != [] {
      StableSortIsStable(s[1..], key, rank);
      StableSortSorts(s[1..]);
      InsertTies(s[0], StableSort(s[1..]), key, rank);
      assert s == [s[0]] + s[1..];
    }
  }

  /** The rows of `s` at one place of the sort order, in order. */
  function Ties(s: seq<Row>, key: int, rank: int): seq<Row> {
    if s == [] then []
    else (if s[0].key == key && s[0].rank == rank then [s[0]] else []) + Ties(s[1..], key, rank)
  }

  lemma TiesCons(x: Row, s: seq<Row>, key: int, rank: int)
    ensures Ties([x] + s, key, rank) ==
            (if x.key == key && x.rank == rank then [x] else []) + Ties(s, key, rank)
  {
    assert ([x] + s)[1..] == s;
  }

  lemma InsertBelow(x: Row, s: seq<Row>)
    requires s != [] && !Le(x, s[0])
    ensures Insert(x, s) == [s[0]] + Insert(x, s[1..])
  {
  }

  lemma {:induction false} InsertTies(x: Row, s: seq<Row>, key: int, rank: int)
    requires Sorted(s)
    ensures Ties(Insert(x, s), key, rank) == Ties([x] + s, key, rank)
  {
    hide Ties; hide Insert;
    if s == [] || Le(x, s[0]) {
      assert Insert(x, s) == [x] + s by { InsertAbove(x, s); }
    } else {
      var rest := s[1..];
      assert s == [s[0]] + rest;
      InsertTies(x, rest, key, rank);
      InsertBelow(x, s);
      TiesCons(x, rest, key, rank);
      TiesCons(s[0], Insert(x, rest), key, rank);
      TiesCons(s[0], rest, key, rank);
      TiesCons(x, s, key, rank);
    }
  }

  lemma InsertAbove(x: Row, s: seq<Row>)
    requires s == [] || Le(x, s[0])
    ensures Insert(x, s) == [x] + s
  {
  }

  /** What a merge of the files `ins` may write: files that, end to end, are the
      stable sort of the inputs end to end. */
  predicate RewriteOf(ins: seq<seq<Row>>, outs: seq<seq<Row>>) {
    Flatten(outs) == StableSort(Flatten(ins))
  }

  /** The rows that survive the erasure of key `k`. */
  function Kept(s: seq<Row>, k: int): seq<Row> {
    if s == [] then []
    else (if s[0].key != k then [s[0]] else []) + Kept(s[1..], k)
  }

  /** One row is kept unless it is the key's, and what is kept keeps its order. */
  lemma {:induction false} KeptJoin(a: seq<Row>, b: seq<Row>, k: int)
    ensures Kept(a + b, k) == Kept(a, k) + Kept(b, k)
    ensures |a| == 1 ==> Kept(a, k) == if a[0].key == k then [] else a
  {
    if a == [] {
      assert a + b == b;
    } else {
      assert (a + b)[1..] == a[1..] + b;
      KeptJoin(a[1..], b, k);
    }
  }

  /** The rows the erasure of key `k` removes. */
  function Erased(s: seq<Row>, k: int): multiset<Row> {
    if s == [] then multiset{}
    else (if s[0].key == k then multiset{s[0]} else multiset{}) + Erased(s[1..], k)
  }

  lemma {:induction false} KeptAndErased(s: seq<Row>, k: int)
    ensures multiset(Kept(s, k)) + Erased(s, k) == multiset(s)
    ensures forall r :: r in Kept(s, k) ==> r.key != k
    ensures forall r :: r in Erased(s, k) ==> r.key == k
  {
    if s != [] {
      KeptAndErased(s[1..], k);
      assert s == [s[0]] + s[1..];
    }
  }
}
