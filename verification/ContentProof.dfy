/** Content conservation: the rows of the live parts are the rows of the committed
    ADDs less the rows of the committed deletions, whatever merges, erasures and
    losers a run interleaves. */
module ContentProof {
  import opened Base
  import opened Rows
  import opened Tables
  import opened Machine
  import opened Frames
  import opened Wellformed
  import opened LeaseProof
  import opened GcProof

  // ---------------------------------------------------------------- live rows

  function PartRows(content: map<Path, seq<Row>>, p: Part, ht: Ht): multiset<Row> {
    if p.ht == ht && Live(p) then multiset(RowsAt(content, p.meta.path)) else multiset{}
  }

  function LiveUpto(parts: map<PartId, Part>, content: map<Path, seq<Row>>, ht: Ht, n: nat): multiset<Row> {
    if n == 0 then multiset{}
    else LiveUpto(parts, content, ht, n - 1)
         + (if n - 1 in parts then PartRows(content, parts[n - 1], ht) else multiset{})
  }

  /** Every row a full scan of the hypertable's live parts reads. */
  function LiveRows(s: State, ht: Ht): multiset<Row> {
    LiveUpto(s.db.parts, s.content, ht, s.db.nextPart)
  }

  lemma {:induction false} LiveSame(parts: map<PartId, Part>, content: map<Path, seq<Row>>,
                                    parts': map<PartId, Part>, content': map<Path, seq<Row>>, ht: Ht, n: nat)
    requires forall p :: p < n ==> (p in parts <==> p in parts')
    requires forall p :: p < n && p in parts ==> PartRows(content, parts[p], ht) == PartRows(content', parts'[p], ht)
    ensures LiveUpto(parts, content, ht, n) == LiveUpto(parts', content', ht, n)
  {
    hide PartRows;
    if n > 0 { LiveSame(parts, content, parts', content', ht, n - 1); }
  }

  /** Tombstoning one live part takes away exactly its rows. */
  lemma {:induction false} TombstoneOne(parts: map<PartId, Part>, content: map<Path, seq<Row>>, ht: Ht, n: nat, i: PartId, c: CommitId)
    requires i in parts && i < n && parts[i].ht == ht && Live(parts[i])
    ensures LiveUpto(parts, content, ht, n)
            == LiveUpto(parts[i := parts[i].(deletedBy := Some(c))], content, ht, n) + multiset(RowsAt(content, parts[i].meta.path))
  {
    hide RowsAt;
    var parts' := parts[i := parts[i].(deletedBy := Some(c))];
    if n - 1 == i {
      LiveSame(parts, content, parts', content, ht, n - 1);
    } else {
      TombstoneOne(parts, content, ht, n - 1, i, c);
    }
  }

  lemma LiveElsewhere(parts: map<PartId, Part>, content: map<Path, seq<Row>>, ht: Ht, n: nat, i: PartId, c: CommitId)
    requires i in parts && parts[i].ht != ht
    ensures LiveUpto(parts, content, ht, n) == LiveUpto(parts[i := parts[i].(deletedBy := Some(c))], content, ht, n)
  {
    LiveSame(parts, content, parts[i := parts[i].(deletedBy := Some(c))], content, ht, n);
  }

  /** The rows of a list of parts, by their paths. */
  function SumRows(parts: map<PartId, Part>, content: map<Path, seq<Row>>, ids: seq<PartId>): multiset<Row> {
    if ids == [] then multiset{}
    else (if ids[0] in parts then multiset(RowsAt(content, parts[ids[0]].meta.path)) else multiset{})
         + SumRows(parts, content, ids[1..])
  }

  lemma {:induction false} SumRowsSame(parts: map<PartId, Part>, parts': map<PartId, Part>, content: map<Path, seq<Row>>, ids: seq<PartId>)
    requires forall i :: i in ids ==> (i in parts <==> i in parts') && (i in parts ==> parts'[i].meta == parts[i].meta)
    ensures SumRows(parts, content, ids) == SumRows(parts', content, ids)
  {
    if ids != [] { SumRowsSame(parts, parts', content, ids[1..]); }
  }

  lemma TombstoneFirst(parts: map<PartId, Part>, ht: Ht, ids: seq<PartId>, c: CommitId)
    requires ids != [] && AllLive(parts, ht, ids)
    ensures var parts' := parts[ids[0] := parts[ids[0]].(deletedBy := Some(c))];
            && AllLive(parts', ht, ids[1..])
            && Tombstone(parts', Elements(ids[1..]), c) == Tombstone(parts, Elements(ids), c)
  {
    var i, rest := ids[0], ids[1..];
    assert forall j :: j in ids <==> j == i || j in rest;
    forall j | j in rest ensures j != i {
      var k :| 0 <= k < |rest| && rest[k] == j;
      assert ids[k + 1] == j;
    }
  }

  /** Tombstoning a list of distinct live parts takes away exactly their rows, and
      only from their own hypertable. */
  lemma {:induction false} TombstoneMany(parts: map<PartId, Part>, content: map<Path, seq<Row>>, ht: Ht, h: Ht, n: nat,
                                         ids: seq<PartId>, c: CommitId)
    requires AllLive(parts, ht, ids) && forall i :: i in ids ==> i < n
    ensures LiveUpto(parts, content, h, n)
            == LiveUpto(Tombstone(parts, Elements(ids), c), content, h, n) + (if h == ht then SumRows(parts, content, ids) else multiset{})
    decreases |ids|
  {
    hide LiveUpto; hide PartRows; hide RowsAt;
    if ids == [] {
      assert Tombstone(parts, Elements(ids), c) == parts;
    } else {
      var i, rest := ids[0], ids[1..];
      var parts' := parts[i := parts[i].(deletedBy := Some(c))];
      TombstoneFirst(parts, ht, ids, c);
      assert i in ids && forall j :: j in rest ==> j in ids;
      TombstoneMany(parts', content, ht, h, n, rest, c);
      SumRowsSame(parts, parts', content, rest);
      if h == ht { TombstoneOne(parts, content, h, n, i, c); } else { LiveElsewhere(parts, content, h, n, i, c); }
    }
  }

  function FilesOf(content: map<Path, seq<Row>>, metas: seq<PartMeta>): seq<seq<Row>> {
    seq(|metas|, i requires 0 <= i < |metas| => RowsAt(content, metas[i].path))
  }

  lemma InsertLast(parts: map<PartId, Part>, content: map<Path, seq<Row>>, ht: Ht, h: Ht, n: nat,
                   metas: seq<PartMeta>, c: CommitId)
    requires metas != [] && forall p :: p in parts ==> p < n
    ensures var k := |metas| - 1;
            LiveUpto(parts + NewParts(n, c, ht, metas), content, h, n + |metas|)
            == LiveUpto(parts + NewParts(n, c, ht, metas[..k]), content, h, n + k)
               + (if h == ht then multiset(RowsAt(content, metas[k].path)) else multiset{})
  {
    hide PartRows; hide RowsAt;
    var k := |metas| - 1;
    var all, some := parts + NewParts(n, c, ht, metas), parts + NewParts(n, c, ht, metas[..k]);
    NewPartsPrefix(parts, ht, n, metas, c);
    hide NewParts;
    LiveSame(all, content, some, content, h, n + k);
    assert LiveUpto(all, content, h, n + |metas|)
           == LiveUpto(all, content, h, n + k) + PartRows(content, Part(ht, metas[k], c, None, false), h);
    NewPartRows(content, ht, h, metas[k], c);
  }

  lemma NewPartRows(content: map<Path, seq<Row>>, ht: Ht, h: Ht, m: PartMeta, c: CommitId)
    ensures PartRows(content, Part(ht, m, c, None, false), h) == if h == ht then multiset(RowsAt(content, m.path)) else multiset{}
  {
  }

  lemma NewPartsPrefix(parts: map<PartId, Part>, ht: Ht, n: nat, metas: seq<PartMeta>, c: CommitId)
    requires metas != [] && forall p :: p in parts ==> p < n
    ensures var k := |metas| - 1;
            var all, some := parts + NewParts(n, c, ht, metas), parts + NewParts(n, c, ht, metas[..k]);
            && n + k in all && all[n + k] == Part(ht, metas[k], c, None, false)
            && (forall p :: p < n + k ==> (p in all <==> p in some))
            && (forall p :: p < n + k && p in all ==> all[p] == some[p])
  {
  }

  /** Appending parts adds exactly the rows of their files. */
  lemma {:induction false} InsertMany(parts: map<PartId, Part>, content: map<Path, seq<Row>>, ht: Ht, h: Ht, n: nat,
                                      metas: seq<PartMeta>, c: CommitId)
    requires forall p :: p in parts ==> p < n
    ensures LiveUpto(parts + NewParts(n, c, ht, metas), content, h, n + |metas|)
            == LiveUpto(parts, content, h, n) + (if h == ht then multiset(Flatten(FilesOf(content, metas))) else multiset{})
    decreases |metas|
  {
    hide LiveUpto; hide RowsAt;
    if metas == [] {
      assert parts + NewParts(n, c, ht, metas) == parts;
      assert FilesOf(content, metas) == [];
    } else {
      var k := |metas| - 1;
      InsertMany(parts, content, ht, h, n, metas[..k], c);
      InsertLast(parts, content, ht, h, n, metas, c);
      assert FilesOf(content, metas) == FilesOf(content, metas[..k]) + [RowsAt(content, metas[k].path)];
      FlattenPush(FilesOf(content, metas[..k]), RowsAt(content, metas[k].path));
    }
  }

  // ---------------------------------------------------------------- the invariant

  ghost predicate PartBoundsOk(s: State) {
    forall p :: p in s.db.parts ==>
      s.db.parts[p].meta.path in s.content && Bounds(s.db.parts[p].meta, s.content[s.db.parts[p].meta.path])
  }

  /** What a request's caller computed is still what the store holds: inputs and
      uploads never change. */
  ghost predicate RequestContentOk(s: State, req: Request) {
    && (forall i :: i in Inputs(req.op) ==> i in s.db.parts)
    && (forall m :: m in Outputs(req.op) ==> m.path in s.content && Bounds(m, s.content[m.path]))
    && (match req.client
        case Merger => req.op.Replace? && RewriteOf(InputFiles(s, Inputs(req.op)), Files(s, Outputs(req.op)))
        case Eraser(k) => req.op.Replace? && Files(s, Outputs(req.op)) == KeptFiles(s, Inputs(req.op), k)
        case _ => !req.op.Replace?)
  }

  ghost predicate RequestContentsOk(s: State) {
    forall t :: t in s.txns ==> RequestContentOk(s, s.txns[t].req)
  }

  ghost predicate LedgerBalances(s: State) {
    forall ht :: LiveRows(s, ht) + RowsOf(s.hist.erased, ht) == RowsOf(s.hist.added, ht)
  }

  ghost predicate ContentOk(s: State) {
    PartBoundsOk(s) && RequestContentsOk(s) && LedgerBalances(s)
  }

  // ---------------------------------------------------------------- what never changes

  ghost predicate Persists(s: State, s': State) {
    && (forall p :: p in s.db.parts ==> p in s'.db.parts && s'.db.parts[p].meta == s.db.parts[p].meta)
    && (forall x :: x in s.content ==> x in s'.content && s'.content[x] == s.content[x])
  }

  lemma FilesStay(s: State, s': State, metas: seq<PartMeta>)
    requires Persists(s, s') && forall m :: m in metas ==> m.path in s.content
    ensures Files(s', metas) == Files(s, metas)
  {
    assert forall i :: 0 <= i < |metas| ==> metas[i] in metas;
  }

  lemma InputFilesStay(s: State, s': State, ids: seq<PartId>)
    requires Persists(s, s') && PartBoundsOk(s) && forall i :: i in ids ==> i in s.db.parts
    ensures forall i :: i in ids ==> i in s'.db.parts
    ensures InputFiles(s', ids) == InputFiles(s, ids)
  {
    hide Bounds;
    assert forall i :: 0 <= i < |ids| ==> ids[i] in ids;
  }

  lemma {:induction false} KeptFilesStay(s: State, s': State, ids: seq<PartId>, k: int)
    requires Persists(s, s') && PartBoundsOk(s) && forall i :: i in ids ==> i in s.db.parts
    ensures forall i :: i in ids ==> i in s'.db.parts
    ensures KeptFiles(s', ids, k) == KeptFiles(s, ids, k)
    decreases |ids|
  {
    hide Bounds;
    if ids != [] {
      assert ids[0] in ids;
      assert forall i :: i in ids[1..] ==> i in ids;
      KeptFilesStay(s, s', ids[1..], k);
    }
  }

  lemma RequestContentStays(s: State, s': State, req: Request)
    requires Persists(s, s') && PartBoundsOk(s) && RequestContentOk(s, req)
    ensures RequestContentOk(s', req)
  {
    FilesStay(s, s', Outputs(req.op));
    InputFilesStay(s, s', Inputs(req.op));
    if req.client.Eraser? { KeptFilesStay(s, s', Inputs(req.op), req.client.key); }
  }

  // ---------------------------------------------------------------- what a commit moves

  lemma {:induction false} RowsOfPartsIsFlat(s: State, ids: seq<PartId>)
    requires forall i :: i in ids ==> i in s.db.parts
    ensures RowsOfParts(s, ids) == multiset(Flatten(InputFiles(s, ids)))
    ensures RowsOfParts(s, ids) == SumRows(s.db.parts, s.content, ids)
    decreases |ids|
  {
    hide RowsAt;
    if ids != [] {
      assert ids[0] in ids;
      assert forall i :: i in ids[1..] ==> i in ids;
      RowsOfPartsIsFlat(s, ids[1..]);
      assert InputFiles(s, ids)[1..] == InputFiles(s, ids[1..]);
    } else {
      assert InputFiles(s, ids) == [];
    }
  }

  lemma {:induction false} AllErased(rows: seq<Row>, k: int)
    requires forall r :: r in rows ==> r.key == k
    ensures Erased(rows, k) == multiset(rows)
  {
    if rows != [] {
      AllErased(rows[1..], k);
      assert rows == [rows[0]] + rows[1..];
    }
  }

  /** What the rewrite of one part keeps. */
  function KeptFile(s: State, p: Part, k: int): seq<seq<Row>> {
    var kept := Rows.Kept(RowsAt(s.content, p.meta.path), k);
    if p.meta.keyMin == k && p.meta.keyMax == k then [] else if kept == [] then [] else [kept]
  }

  /** A part a deletion drops unread holds nothing but the key. */
  lemma PartSplits(s: State, i: PartId, k: int)
    requires PartBoundsOk(s) && i in s.db.parts
    ensures var p := s.db.parts[i];
            multiset(RowsAt(s.content, p.meta.path))
            == multiset(Flatten(KeptFile(s, p, k))) + Erased(RowsAt(s.content, p.meta.path), k)
  {
    hide Erased; hide Rows.Kept; hide RowsAt;
    var p := s.db.parts[i];
    var rows := RowsAt(s.content, p.meta.path);
    KeptAndErased(rows, k);
    if p.meta.keyMin == k && p.meta.keyMax == k {
      assert forall r :: r in rows ==> r.key == k by { RowsInside(s, i); }
      AllErased(rows, k);
    } else {
      FlattenOne(Rows.Kept(rows, k));
    }
  }

  lemma RowsInside(s: State, i: PartId)
    requires PartBoundsOk(s) && i in s.db.parts
    ensures Bounds(s.db.parts[i].meta, RowsAt(s.content, s.db.parts[i].meta.path))
  {
    hide Bounds;
  }

  lemma FlattenOne<T>(x: seq<T>)
    ensures Flatten([x]) == x
  {
    assert Flatten([x]) == x + Flatten([x][1..]);
  }

  lemma KeptFilesCons(s: State, ids: seq<PartId>, k: int)
    requires ids != [] && forall i :: i in ids ==> i in s.db.parts
    ensures ids[0] in s.db.parts
    ensures KeptFiles(s, ids, k) == KeptFile(s, s.db.parts[ids[0]], k) + KeptFiles(s, ids[1..], k)
  {
    hide RowsAt; hide Rows.Kept;
    assert ids[0] in ids;
  }

  /** The rows of the parts a deletion read are the rows it rewrote and the rows it
      erased. */
  lemma {:induction false} ErasureSplits(s: State, ids: seq<PartId>, k: int)
    requires PartBoundsOk(s) && forall i :: i in ids ==> i in s.db.parts
    ensures RowsOfParts(s, ids) == multiset(Flatten(KeptFiles(s, ids, k))) + KeyRowsOfParts(s, ids, k)
    decreases |ids|
  {
    if ids != [] {
      assert ids[0] in ids;
      assert forall i :: i in ids[1..] ==> i in ids;
      ErasureSplits(s, ids[1..], k);
      PartSplits(s, ids[0], k);
      KeptFilesCons(s, ids, k);
      FlattenAppend(KeptFile(s, s.db.parts[ids[0]], k), KeptFiles(s, ids[1..], k));
    }
  }

  /** Rows in, rows out: what a committed request adds less what it erases is what its
      outputs hold less what its inputs held. */
  lemma RequestBalances(s: State, req: Request)
    requires PartBoundsOk(s) && RequestContentOk(s, req)
    ensures SumRows(s.db.parts, s.content, Inputs(req.op)) + AddedBy(s, req)
            == multiset(Flatten(FilesOf(s.content, Outputs(req.op)))) + ErasedBy(s, req)
  {
    hide Flatten; hide Files;
    var ins, outs := Inputs(req.op), Outputs(req.op);
    RowsOfPartsIsFlat(s, ins);
    assert Files(s, outs) == FilesOf(s.content, outs) by { SameFiles(s, outs); }
    if req.client.Eraser? {
      ErasureSplits(s, ins, req.client.key);
    } else if !req.client.Merger? {
      NothingIn(s); NothingOut(s);
    }
  }

  lemma SameFiles(s: State, metas: seq<PartMeta>)
    ensures Files(s, metas) == FilesOf(s.content, metas)
  {
    hide RowsAt;
  }

  lemma NothingIn(s: State)
    ensures SumRows(s.db.parts, s.content, []) == multiset{}
  {
  }

  lemma NothingOut(s: State)
    ensures Flatten(FilesOf(s.content, [])) == []
  {
  }

  lemma CommitParts(s: State, t: nat, s': State)
    requires PartsOk(s) && CommitEffect(s, t, s')
    ensures t in s.txns && s.txns[t].phase.Allocated?
    ensures var req, c, n := s.txns[t].req, s.txns[t].phase.id, s.db.nextPart;
            var dead := Tombstone(s.db.parts, Elements(Inputs(req.op)), c);
            && AllLive(s.db.parts, req.ht, Inputs(req.op))
            && (forall i :: i in Inputs(req.op) ==> i < n)
            && (forall p :: p in s.db.parts ==> p < n) && (forall p :: p in dead ==> p < n)
            && s'.db.parts == dead + NewParts(n, c, req.ht, Outputs(req.op))
            && s'.db.nextPart == n + |Outputs(req.op)| && s'.content == s.content
  {
  }

  lemma CommitMovesRows(s: State, t: nat, s': State, ht: Ht)
    requires PartsOk(s) && CommitEffect(s, t, s')
    ensures var req := s.txns[t].req;
            LiveRows(s', ht) + (if ht == req.ht then SumRows(s.db.parts, s.content, Inputs(req.op)) else multiset{})
            == LiveRows(s, ht) + (if ht == req.ht then multiset(Flatten(FilesOf(s.content, Outputs(req.op)))) else multiset{})
  {
    hide Outputs; hide LiveUpto; hide NewParts;
    CommitParts(s, t, s');
    var req, c, n := s.txns[t].req, s.txns[t].phase.id, s.db.nextPart;
    TombstoneMany(s.db.parts, s.content, req.ht, ht, n, Inputs(req.op), c);
    InsertMany(Tombstone(s.db.parts, Elements(Inputs(req.op)), c), s.content, req.ht, ht, n, Outputs(req.op), c);
  }

  lemma RecordRows(s: State, req: Request, ht: Ht)
    ensures RowsOf(Record(s, req).added, ht) == RowsOf(s.hist.added, ht) + (if ht == req.ht then AddedBy(s, req) else multiset{})
    ensures RowsOf(Record(s, req).erased, ht) == RowsOf(s.hist.erased, ht) + (if ht == req.ht then ErasedBy(s, req) else multiset{})
  {
    hide AddedBy; hide ErasedBy;
  }

  lemma CommitRecord(s: State, t: nat, s': State)
    requires CommitEffect(s, t, s')
    ensures s'.hist == Record(s, s.txns[t].req)
  {
  }

  lemma BalanceAt(s: State, t: nat, s': State, ht: Ht)
    requires PartsOk(s) && PartBoundsOk(s) && t in s.txns && RequestContentOk(s, s.txns[t].req) && CommitEffect(s, t, s')
    requires LiveRows(s, ht) + RowsOf(s.hist.erased, ht) == RowsOf(s.hist.added, ht)
    ensures LiveRows(s', ht) + RowsOf(s'.hist.erased, ht) == RowsOf(s'.hist.added, ht)
  {
    var req := s.txns[t].req;
    RequestBalances(s, req);
    CommitMovesRows(s, t, s', ht);
    RecordRows(s, req, ht);
    CommitRecord(s, t, s');
    if ht == req.ht {
      Balances(LiveRows(s, ht), LiveRows(s', ht), SumRows(s.db.parts, s.content, Inputs(req.op)),
               multiset(Flatten(FilesOf(s.content, Outputs(req.op)))), AddedBy(s, req), ErasedBy(s, req),
               RowsOf(s.hist.added, ht), RowsOf(s.hist.erased, ht));
    } else {
      var none: multiset<Row> := multiset{};
      Balances(LiveRows(s, ht), LiveRows(s', ht), none, none, none, none, RowsOf(s.hist.added, ht), RowsOf(s.hist.erased, ht));
    }
  }

  lemma Balances<T>(live: multiset<T>, live': multiset<T>, ins: multiset<T>, outs: multiset<T>,
                    plus: multiset<T>, minus: multiset<T>, added: multiset<T>, erased: multiset<T>)
    requires live' + ins == live + outs && ins + plus == outs + minus && live + erased == added
    ensures live' + (erased + minus) == added + plus
  {
    forall x: T ensures (live' + (erased + minus))[x] == (added + plus)[x] {
      assert (live' + ins)[x] == (live + outs)[x];
      assert (ins + plus)[x] == (outs + minus)[x];
      assert (live + erased)[x] == added[x];
    }
  }

  lemma CommitBalances(s: State, t: nat, s': State)
    requires PartsOk(s) && PartBoundsOk(s) && t in s.txns && RequestContentOk(s, s.txns[t].req)
    requires LedgerBalances(s) && CommitEffect(s, t, s')
    ensures LedgerBalances(s')
  {
    forall ht ensures LiveRows(s', ht) + RowsOf(s'.hist.erased, ht) == RowsOf(s'.hist.added, ht) {
      BalanceAt(s, t, s', ht);
    }
  }

  // ---------------------------------------------------------------- preservation

  lemma BalanceFrame(s: State, s': State)
    requires LedgerBalances(s) && s'.db.nextPart == s.db.nextPart
    requires s'.hist.added == s.hist.added && s'.hist.erased == s.hist.erased
    requires forall p :: p in s'.db.parts <==> p in s.db.parts
    requires forall p :: p in s.db.parts ==>
               s'.db.parts[p].ht == s.db.parts[p].ht && s'.db.parts[p].deletedBy == s.db.parts[p].deletedBy
               && s'.db.parts[p].meta == s.db.parts[p].meta
               && RowsAt(s'.content, s.db.parts[p].meta.path) == RowsAt(s.content, s.db.parts[p].meta.path)
    ensures LedgerBalances(s')
  {
    hide RowsAt;
    forall ht ensures LiveRows(s', ht) + RowsOf(s'.hist.erased, ht) == RowsOf(s'.hist.added, ht) {
      assert LiveRows(s, ht) + RowsOf(s.hist.erased, ht) == RowsOf(s.hist.added, ht);
      hide LiveUpto;
      LiveSame(s.db.parts, s.content, s'.db.parts, s'.content, ht, s.db.nextPart);
    }
  }

  /** Parts keep their identity, uploads their content, and the transactions are among
      those before. */
  lemma ContentFrame(s: State, s': State)
    requires ContentOk(s) && Persists(s, s') && s'.db.nextPart == s.db.nextPart
    requires s'.hist.added == s.hist.added && s'.hist.erased == s.hist.erased
    requires forall p :: p in s'.db.parts <==> p in s.db.parts
    requires forall p :: p in s.db.parts ==>
               s'.db.parts[p].ht == s.db.parts[p].ht && s'.db.parts[p].deletedBy == s.db.parts[p].deletedBy
    requires forall t :: t in s'.txns ==> t in s.txns && s'.txns[t].req == s.txns[t].req
    ensures ContentOk(s')
  {
    hide RequestContentOk; hide Bounds; hide LedgerBalances;
    BalanceFrame(s, s');
    forall t | t in s'.txns ensures RequestContentOk(s', s'.txns[t].req) { RequestContentStays(s, s', s.txns[t].req); }
  }

  lemma BeginRequestContent(s: State, t: nat, req: Request)
    requires TxnEnabled(s, Begin(t, req))
    ensures RequestContentOk(s, req)
  {
  }

  lemma BeginKeepsContent(s: State, t: nat, req: Request)
    requires ContentOk(s) && TxnEnabled(s, Begin(t, req))
    ensures ContentOk(TxnNext(s, Begin(t, req)))
  {
    hide TxnNext; hide RequestOk; hide ClientOk; hide RequestContentOk;
    var s' := TxnNext(s, Begin(t, req));
    BeginFrame(s, t, req);
    BeginRequestContent(s, t, req);
    BalanceFrame(s, s');
    forall u | u in s'.txns ensures RequestContentOk(s', s'.txns[u].req) { RequestContentStays(s, s', s'.txns[u].req); }
  }

  lemma MovesKeepsContent(s: State, step: TxnStep)
    requires ContentOk(s) && TxnEnabled(s, step) && !step.Finish? && !step.Begin?
    ensures ContentOk(TxnNext(s, step))
  {
    hide TxnNext; hide TxnEnabled; hide ContentOk; hide AnswerReplica; hide AnswerIngester;
    TxnFrame(s, step);
    ContentFrame(s, TxnNext(s, step));
  }

  lemma CommitKept(s: State, t: nat, s': State)
    requires PartsOk(s) && CommitEffect(s, t, s')
    ensures Persists(s, s')
  {
    CommitPartIdentity(s, t, s');
  }

  lemma CommitKeepsBounds(s: State, t: nat, s': State)
    requires PartsOk(s) && PartBoundsOk(s) && t in s.txns && RequestContentOk(s, s.txns[t].req) && CommitEffect(s, t, s')
    ensures PartBoundsOk(s')
  {
    forall p | p in s'.db.parts
      ensures s'.db.parts[p].meta.path in s'.content && Bounds(s'.db.parts[p].meta, s'.content[s'.db.parts[p].meta.path])
    {
      PartOrigin(s, t, s', p);
    }
  }

  lemma CommitKeepsContent(s: State, t: nat, s': State)
    requires Wf(s) && ContentOk(s) && CommitEffect(s, t, s')
    ensures ContentOk(s')
  {
    CommitLeaves(s, t, s');
    CommitKept(s, t, s');
    CommitBalances(s, t, s');
    CommitKeepsBounds(s, t, s');
    forall u | u in s'.txns ensures RequestContentOk(s', s'.txns[u].req) { RequestContentStays(s, s', s.txns[u].req); }
  }

  lemma FinishKeepsContent(s: State, t: nat, ack: bool)
    requires Wf(s) && ContentOk(s) && TxnEnabled(s, Finish(t, ack))
    ensures ContentOk(TxnNext(s, Finish(t, ack)))
  {
    hide TxnNext; hide BodyOf; hide CommitEffect; hide ContentOk; hide Wf; hide AnswerReplica; hide AnswerIngester;
    FinishCases(s, t, ack);
    if BodyOf(s, t).0.Committed? { CommitKeepsContent(s, t, TxnNext(s, Finish(t, ack))); }
    else { ContentFrame(s, TxnNext(s, Finish(t, ack))); }
  }

  lemma ObjectKeepsContent(s: State, step: ObjectStep)
    requires ContentOk(s) && ObjectEnabled(s, step)
    ensures ContentOk(ObjectNext(s, step))
  {
    hide ContentOk;
    ContentFrame(s, ObjectNext(s, step));
  }

  lemma GcKeepsContent(s: State, step: GcStep)
    requires ContentOk(s) && GcEnabled(s, step)
    ensures ContentOk(GcNext(s, step))
  {
    hide ContentOk; hide Reapable; hide Orphaned;
    ContentFrame(s, GcNext(s, step));
  }

  // ---------------------------------------------------------------- all rows of one key

  lemma {:induction false} KeyRowsCount(s: State, ids: seq<PartId>, k: int, r: Row)
    requires r.key == k
    ensures SumRows(s.db.parts, s.content, ids)[r] == KeyRowsOfParts(s, ids, k)[r]
    decreases |ids|
  {
    hide RowsAt; hide Erased; hide Rows.Kept;
    if ids != [] {
      KeyRowsCount(s, ids[1..], k, r);
      if ids[0] in s.db.parts {
        var rows := RowsAt(s.content, s.db.parts[ids[0]].meta.path);
        KeptAndErased(rows, k);
        assert multiset(Rows.Kept(rows, k))[r] == 0;
      }
    }
  }

  lemma {:induction false} NoRowOfKey(parts: map<PartId, Part>, content: map<Path, seq<Row>>, ht: Ht, n: nat, r: Row)
    requires forall p :: p in parts && parts[p].ht == ht && Live(parts[p]) ==> r !in RowsAt(content, parts[p].meta.path)
    ensures LiveUpto(parts, content, ht, n)[r] == 0
  {
    hide RowsAt;
    if n > 0 { NoRowOfKey(parts, content, ht, n - 1, r); }
  }

  /** The live parts whose key range contains a key hold every live row of it. */
  lemma SelectedHoldTheKey(s: State, ht: Ht, k: int, ids: seq<PartId>, r: Row)
    requires PartsOk(s) && PartBoundsOk(s) && AllLive(s.db.parts, ht, ids) && Selects(s, ht, k, Elements(ids)) && r.key == k
    ensures LiveRows(s, ht)[r] == KeyRowsOfParts(s, ids, k)[r]
  {
    var rest := Tombstone(s.db.parts, Elements(ids), 0);
    assert forall i :: i in ids ==> i < s.db.nextPart by { KnownIds(s, ht, ids); }
    TombstoneMany(s.db.parts, s.content, ht, ht, s.db.nextPart, ids, 0);
    forall p | p in rest && rest[p].ht == ht && Live(rest[p]) ensures r !in RowsAt(s.content, rest[p].meta.path) {
      assert p !in Elements(ids);
      RowsInside(s, p);
      OutOfBounds(s.db.parts[p].meta, RowsAt(s.content, s.db.parts[p].meta.path), r);
    }
    NoRowOfKey(rest, s.content, ht, s.db.nextPart, r);
    KeyRowsCount(s, ids, k, r);
  }

  lemma KnownIds(s: State, ht: Ht, ids: seq<PartId>)
    requires PartsOk(s) && AllLive(s.db.parts, ht, ids)
    ensures forall i :: i in ids ==> i < s.db.nextPart
  {
  }

  lemma OutOfBounds(m: PartMeta, rows: seq<Row>, r: Row)
    requires Bounds(m, rows) && !(m.keyMin <= r.key <= m.keyMax)
    ensures r !in rows
  {
  }

  lemma {:induction false} KeyRowsStay(s: State, s': State, ids: seq<PartId>, k: int)
    requires Persists(s, s') && PartBoundsOk(s) && forall i :: i in ids ==> i in s.db.parts
    ensures KeyRowsOfParts(s', ids, k) == KeyRowsOfParts(s, ids, k)
    decreases |ids|
  {
    hide Bounds; hide Erased;
    if ids != [] {
      assert ids[0] in ids;
      KeyRowsStay(s, s', ids[1..], k);
    }
  }
}
