/** Containers shared by every module of the project. */
module Base {

  datatype Option<+T> = None | Some(value: T)

  datatype Result<+T, +E> = Ok(value: T) | Err(error: E)

  /** No element occurs twice. */
  predicate Distinct<T(==)>(s: seq<T>) {
    forall i, j :: 0 <= i < j < |s| ==> s[i] != s[j]
  }

  /** The elements of a sequence. */
  function Elements<T>(s: seq<T>): set<T> {
    set x | x in s
  }

  function Flatten<T>(ss: seq<seq<T>>): seq<T> {
    if ss == [] then [] else ss[0] + Flatten(ss[1..])
  }

  lemma {:induction false} FlattenAppend<T>(a: seq<seq<T>>, b: seq<seq<T>>)
    ensures Flatten(a + b) == Flatten(a) + Flatten(b)
  {
    if a == [] {
      assert a + b == b;
    } else {
      assert (a + b)[1..] == a[1..] + b;
      FlattenAppend(a[1..], b);
    }
  }

  /** A chunk pushed at the end of a list of chunks. */
  lemma FlattenPush<T>(a: seq<seq<T>>, x: seq<T>)
    ensures Flatten(a + [x]) == Flatten(a) + x
  {
    FlattenAppend(a, [x]);
    assert Flatten([x]) == x + Flatten([x][1..]);
  }

  /** A set has at most as many elements as a sequence listing them, and exactly
      as many only when the sequence lists nothing twice. */
  lemma {:induction false} ElementsCardinality<T>(s: seq<T>)
    ensures |Elements(s)| <= |s|
    ensures |Elements(s)| == |s| <==> Distinct(s)
  {
    if s != [] {
      var front, last := s[..|s| - 1], s[|s| - 1];
      ElementsCardinality(front);
      assert Elements(s) == Elements(front) + {last};
      if last in front {
        assert Elements(s) == Elements(front);
        var i :| 0 <= i < |front| && front[i] == last;
        assert s[i] == s[|s| - 1];
      } else {
        assert Distinct(s) <==> Distinct(front) by {
          assert forall i :: 0 <= i < |front| ==> s[i] == front[i];
        }
      }
    }
  }

  lemma SubsetCardinality<T>(a: set<T>, b: set<T>)
    requires a <= b
    ensures |a| <= |b|
    ensures |a| == |b| ==> a == b
  {
    var d := b - a;
    assert b == a + d;
    assert |b| == |a| + |d|;
  }

  /** An element of a piece is an element of the whole, and the other way. */
  lemma {:induction false} FlattenHolds<T>(ss: seq<seq<T>>, i: nat, x: T)
    requires i < |ss| && x in ss[i]
    ensures x in Flatten(ss)
  {
    if i > 0 { FlattenHolds(ss[1..], i - 1, x); }
  }

  lemma {:induction false} FlattenMembers<T>(ss: seq<seq<T>>, x: T)
    requires x in Flatten(ss)
    ensures exists j, i :: 0 <= j < |ss| && 0 <= i < |ss[j]| && ss[j][i] == x
  {
    if x in ss[0] {
      var i :| 0 <= i < |ss[0]| && ss[0][i] == x;
    } else {
      FlattenMembers(ss[1..], x);
      var j, i :| 0 <= j < |ss[1..]| && 0 <= i < |ss[1..][j]| && ss[1..][j][i] == x;
      assert ss[j + 1][i] == x;
    }
  }

  /** A nonempty set of naturals has a least member. */
  lemma {:induction false} LeastMember(s: set<nat>, x: nat)
    requires x in s
    ensures exists y :: y in s && forall z :: z in s ==> y <= z
    decreases x
  {
    if y :| y in s && y < x { LeastMember(s, y); }
  }

  /** The values of a signed 64-bit integer. */
  predicate InI64(v: int) {
    -0x8000_0000_0000_0000 <= v <= 0x7fff_ffff_ffff_ffff
  }

  /** How a table's merged files are cut: all keys in one file, one file per key, or
      files of about a number of bytes, read as an unsigned machine size. */
  datatype Placement = Packed | Separated | SizeTargeted(bytes: int) {
    function Target(): nat
      requires SizeTargeted?
    {
      bytes % 0x1_0000_0000_0000_0000
    }
  }
}
