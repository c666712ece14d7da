/** Lease fencing: generations are never shared, a dead token stays dead, and a fenced
    REPLACE commits only under a token that still sits in the lease row. */
module LeaseProof {
  import opened Base
  import opened Rows
  import opened Tables
  import opened Machine
  import opened Frames
  import opened Wellformed

  /** A drawn generation is unique and no tenancy has it yet; an installed one names
      exactly one tenancy. */
  ghost predicate GenerationsOk(s: State) {
    && (forall a :: a in s.acquires ==> s.acquires[a].drawn < s.genSeq && s.acquires[a].drawn !in s.hist.tenancies)
    && (forall a, b :: a in s.acquires && b in s.acquires && a != b ==> s.acquires[a].drawn != s.acquires[b].drawn)
    && (forall g :: g in s.hist.tenancies ==> g < s.genSeq && s.hist.tenancies[g].generation == g)
    && (forall k :: k in s.db.leases ==>
          && s.db.leases[k].generation in s.hist.tenancies
          && s.hist.tenancies[s.db.leases[k].generation] == Lease(k.0, k.1, s.db.leases[k].owner, s.db.leases[k].generation))
  }

  predicate InRow(leases: map<(Ht, Partition), LeaseRow>, l: Lease) {
    && (l.ht, l.partition) in leases
    && leases[(l.ht, l.partition)].owner == l.owner
    && leases[(l.ht, l.partition)].generation == l.generation
  }

  /** The rewrite stays inside the leased partition. */
  ghost predicate Inside(s: State, l: Lease, op: Op) {
    && op.Replace?
    && (forall m :: m in op.outputs ==> m.partition == l.partition)
    && (forall i :: i in op.inputs ==> i in s.db.parts && s.db.parts[i].ht == l.ht && s.db.parts[i].meta.partition == l.partition)
  }

  /** A transaction past its fence holds the row of its own token, which had not
      expired when the fence was read, and rewrites only the leased partition. */
  ghost predicate FencedOk(s: State, x: Txn) {
    && (x.req.lease.Some? && x.phase.Allocated? ==> x.fencedAt.Some?)
    && (x.phase.Fenced? ==> x.fencedAt.Some?)
    && (x.fencedAt.Some? ==>
          && x.req.lease.Some?
          && var l := x.req.lease.value;
             && x.req.ht == l.ht && InRow(s.db.leases, l)
             && x.fencedAt.value < s.db.leases[(l.ht, l.partition)].expiresAt
             && x.fencedAt.value <= s.now
             && Inside(s, l, x.req.op))
  }

  ghost predicate FencesOk(s: State) {
    && (forall t :: t in s.txns ==> FencedOk(s, s.txns[t]))
    && (forall t, u :: t in s.txns && u in s.txns && t != u && s.txns[t].fencedAt.Some? && s.txns[u].fencedAt.Some? ==>
          SomeLease(s.txns[t]) != SomeLease(s.txns[u]))
  }

  /** The row a fenced transaction locks. */
  function SomeLease(x: Txn): Option<(Ht, Partition)> {
    if x.req.lease.Some? then Some((x.req.lease.value.ht, x.req.lease.value.partition)) else None
  }

  ghost predicate LeaseOk(s: State) {
    GenerationsOk(s) && FencesOk(s)
  }

  // ---------------------------------------------------------------- the fence

  /** A fence that passes: the token is held, and the request is a REPLACE inside the
      leased partition. */
  lemma FencePasses(s: State, ht: Ht, l: Lease, op: Op)
    requires Fence(s.db, s.now, ht, l, op).None?
    ensures ht == l.ht && Holds(s.db.leases, s.now, l) && Inside(s, l, op)
  {
    var inside := PartsInside(s.db, ht, l.partition, op.inputs);
    ElementsCardinality(op.inputs);
    SubsetCardinality(inside, Elements(op.inputs));
    forall i | i in op.inputs ensures i in inside { assert i in Elements(op.inputs); }
  }

  /** And the other way: anything else is refused. */
  lemma FenceRefuses(s: State, ht: Ht, l: Lease, op: Op)
    requires ht != l.ht || !Holds(s.db.leases, s.now, l) || !Inside(s, l, op)
    ensures Fence(s.db, s.now, ht, l, op).Some?
  {
    if Fence(s.db, s.now, ht, l, op).None? { FencePasses(s, ht, l, op); }
  }

  // ---------------------------------------------------------------- preservation

  lemma GenerationsFrame(s: State, s': State)
    requires GenerationsOk(s) && s'.acquires == s.acquires && s'.genSeq == s.genSeq
    requires s'.hist.tenancies == s.hist.tenancies && s'.db.leases == s.db.leases
    ensures GenerationsOk(s')
  {
  }

  lemma FencedStays(s: State, s': State, x: Txn)
    requires FencedOk(s, x) && s.now <= s'.now
    requires x.fencedAt.Some? && x.req.lease.Some? ==>
               var k := (x.req.lease.value.ht, x.req.lease.value.partition);
               k in s.db.leases ==> k in s'.db.leases && s'.db.leases[k] == s.db.leases[k]
    requires forall p :: p in s.db.parts ==> p in s'.db.parts && s'.db.parts[p].ht == s.db.parts[p].ht
                                             && s'.db.parts[p].meta == s.db.parts[p].meta
    ensures FencedOk(s', x)
  {
  }

  /** Lease rows and part identities kept; the transactions are among those before. */
  lemma FencesFrame(s: State, s': State)
    requires FencesOk(s) && s.now <= s'.now && s'.db.leases == s.db.leases
    requires forall p :: p in s.db.parts ==> p in s'.db.parts && s'.db.parts[p].ht == s.db.parts[p].ht
                                             && s'.db.parts[p].meta == s.db.parts[p].meta
    requires forall t :: t in s'.txns ==> t in s.txns && s'.txns[t] == s.txns[t]
    ensures FencesOk(s')
  {
    hide FencedOk; hide SomeLease;
    forall t | t in s'.txns ensures FencedOk(s', s'.txns[t]) { FencedStays(s, s', s.txns[t]); }
  }

  lemma BeginKeepsLease(s: State, t: nat, req: Request)
    requires LeaseOk(s) && TxnEnabled(s, Begin(t, req))
    ensures LeaseOk(TxnNext(s, Begin(t, req)))
  {
    hide TxnNext; hide ClientOk; hide GenerationsOk;
    var s' := TxnNext(s, Begin(t, req));
    BeginFrame(s, t, req);
    GenerationsFrame(s, s');
    forall u | u in s'.txns ensures FencedOk(s', s'.txns[u]) {
      if u != t { FencedStays(s, s', s.txns[u]); }
    }
  }

  lemma AnswerKeepsLease(s: State, t: nat, ok: bool)
    requires LeaseOk(s) && t in s.txns
    ensures LeaseOk(Answer(s, t, ok))
  {
    GenerationsFrame(s, Answer(s, t, ok));
    FencesFrame(s, Answer(s, t, ok));
  }

  lemma AdvanceKeepsLease(s: State, t: nat, x: Txn, s': State)
    requires LeaseOk(s) && t in s.txns && Advances(s, t, x, s') && x.fencedAt == s.txns[t].fencedAt && FencedOk(s, x)
    ensures LeaseOk(s')
  {
    hide GenerationsOk; hide FencedOk;
    GenerationsFrame(s, s');
    forall u | u in s'.txns ensures FencedOk(s', s'.txns[u]) { FencedStays(s, s', s'.txns[u]); }
  }

  lemma FencedNow(s: State, t: nat, s': State)
    requires LeaseOk(s) && t in s.txns && s.txns[t].req.lease.Some?
    requires Advances(s, t, s.txns[t].(phase := Fenced, fencedAt := Some(s.now)), s')
    requires s.txns[t].req.ht == s.txns[t].req.lease.value.ht && InRow(s.db.leases, s.txns[t].req.lease.value)
    requires s.now < s.db.leases[(s.txns[t].req.lease.value.ht, s.txns[t].req.lease.value.partition)].expiresAt
    requires Inside(s, s.txns[t].req.lease.value, s.txns[t].req.op)
    requires forall u :: u in s.txns && s.txns[u].fencedAt.Some? ==> SomeLease(s.txns[u]) != SomeLease(s.txns[t])
    ensures LeaseOk(s')
  {
    hide GenerationsOk;
    GenerationsFrame(s, s');
    var x := s.txns[t].(phase := Fenced, fencedAt := Some(s.now));
    assert FencedOk(s, x);
    assert SomeLease(x) == SomeLease(s.txns[t]);
    forall u | u in s'.txns ensures FencedOk(s', s'.txns[u]) {
      if u != t { FencedStays(s, s', s.txns[u]); } else { FencedStays(s, s', x); }
    }
  }

  lemma CheckKeepsLease(s: State, t: nat)
    requires LeaseOk(s) && TxnEnabled(s, Check(t))
    ensures LeaseOk(TxnNext(s, Check(t)))
  {
    hide Inside; hide LeaseRowLocked; hide SomeLease; hide Holds;
    var s' := TxnNext(s, Check(t));
    CheckFrame(s, t);
    AnswerKeepsLease(s, t, false);
    if s' != Answer(s, t, false) {
      var x := s.txns[t];
      FencePasses(s, x.req.ht, x.req.lease.value, x.req.op);
      HoldsRow(s, x.req.lease.value);
      NotLocked(s, t);
      FencedNow(s, t, s');
    }
  }

  lemma HoldsRow(s: State, l: Lease)
    requires Holds(s.db.leases, s.now, l)
    ensures InRow(s.db.leases, l) && s.now < s.db.leases[(l.ht, l.partition)].expiresAt
  {
  }

  lemma NotLocked(s: State, t: nat)
    requires TxnEnabled(s, Check(t))
    ensures forall u :: u in s.txns && s.txns[u].fencedAt.Some? ==> SomeLease(s.txns[u]) != SomeLease(s.txns[t])
  {
    hide RequestOk; hide ClientOk;
  }

  lemma TxnKeepsLease(s: State, step: TxnStep)
    requires LeaseOk(s) && TxnEnabled(s, step) && !step.Finish?
    ensures LeaseOk(TxnNext(s, step))
  {
    hide TxnNext; hide Reconcile; hide GenerationsOk;
    hide Answer; hide Advances; hide InRow; hide Inside; hide SomeLease;
    var s', t := TxnNext(s, step), step.txn;
    match step {
      case Begin(_, req) => BeginKeepsLease(s, t, req);
      case Lookup(_, ack) =>
        LookupFrame(s, t, ack);
        AnswerKeepsLease(s, t, false); AnswerKeepsLease(s, t, ack);
        var x := s.txns[t].(phase := Looked);
        assert FencedOk(s, s.txns[t]);
        if Advances(s, t, x, s') { AdvanceKeepsLease(s, t, x, s'); }
      case Check(_) => CheckKeepsLease(s, t);
      case Alloc(_) =>
        AllocFrame(s, t);
        assert FencedOk(s, s.txns[t]);
        AdvanceKeepsLease(s, t, s.txns[t].(phase := Allocated(s.commitSeq)), s');
      case Rollback(_) => RollbackFrame(s, t); AnswerKeepsLease(s, t, false);
    }
  }

  lemma CommitPartIdentity(s: State, t: nat, s': State)
    requires PartsOk(s) && CommitEffect(s, t, s')
    ensures forall p :: p in s.db.parts ==> p in s'.db.parts && s'.db.parts[p].ht == s.db.parts[p].ht
                                            && s'.db.parts[p].meta == s.db.parts[p].meta
                                            && s'.db.parts[p].createdBy == s.db.parts[p].createdBy
                                            && s'.db.parts[p].purged == s.db.parts[p].purged
                                            && (s.db.parts[p].deletedBy.Some? ==> s'.db.parts[p].deletedBy == s.db.parts[p].deletedBy)
  {
    hide PartsAfter;
    PartsAfterRows(s.db, s.txns[t].phase.id, s.txns[t].req.ht, s.txns[t].req.op);
  }

  lemma FinishKeepsLease(s: State, t: nat, ack: bool)
    requires Wf(s) && LeaseOk(s) && TxnEnabled(s, Finish(t, ack))
    ensures LeaseOk(TxnNext(s, Finish(t, ack)))
  {
    hide GenerationsOk; hide FencesOk; hide Record;
    hide Reconcile; hide PartsAfter; hide Inputs; hide Outputs; hide AllLive; hide CommitsOk; hide PartsOk;
    hide TxnsOk; hide ReapersOk;
    var s' := TxnNext(s, Finish(t, ack));
    FinishCases(s, t, ack);
    if BodyOf(s, t).0.Committed? {
      CommitPartIdentity(s, t, s');
      RecordTenancies(s, s.txns[t].req);
      GenerationsFrame(s, s');
      FencesFrame(s, s');
    } else {
      AnswerKeepsLease(s, t, ack && Landed(BodyOf(s, t).0));
    }
  }

  lemma RecordTenancies(s: State, req: Request)
    ensures Record(s, req).tenancies == s.hist.tenancies
  {
    hide AddedBy; hide ErasedBy;
  }

  // ---------------------------------------------------------------- lease statements

  lemma DrawKeeps(s: State, a: nat, ht: Ht, partition: Partition, owner: Owner, ttl: nat)
    requires LeaseOk(s) && LeaseEnabled(s, Draw(a, ht, partition, owner, ttl))
    ensures LeaseOk(LeaseNext(s, Draw(a, ht, partition, owner, ttl)))
  {
    FencesFrame(s, LeaseNext(s, Draw(a, ht, partition, owner, ttl)));
  }

  /** Rows of other partitions stay; a locked row is not touched at all. */
  lemma FencesElsewhere(s: State, s': State, ht: Ht, partition: Partition)
    requires FencesOk(s) && !LeaseRowLocked(s, ht, partition)
    requires s'.now == s.now && s'.txns == s.txns && s'.db.parts == s.db.parts
    requires forall k :: k in s.db.leases && k != (ht, partition) ==> k in s'.db.leases && s'.db.leases[k] == s.db.leases[k]
    ensures FencesOk(s')
  {
    hide FencedOk; hide SomeLease;
    forall t | t in s'.txns ensures FencedOk(s', s'.txns[t]) {
      FencedStays(s, s', s.txns[t]);
    }
  }

  /** Installing a drawn generation starts a tenancy nobody ever had. */
  lemma InstallKeeps(s: State, a: nat)
    requires LeaseOk(s) && LeaseEnabled(s, Install(a))
    ensures LeaseOk(LeaseNext(s, Install(a)))
  {
    hide GenerationsOk;
    InstallGenerations(s, a);
    FencesElsewhere(s, LeaseNext(s, Install(a)), s.acquires[a].ht, s.acquires[a].partition);
  }

  lemma InstallGenerations(s: State, a: nat)
    requires GenerationsOk(s) && LeaseEnabled(s, Install(a))
    ensures GenerationsOk(LeaseNext(s, Install(a)))
    ensures s.acquires[a].drawn !in s.hist.tenancies
  {
    hide LeaseRowLocked; hide RenewLease; hide ReleaseLease;
  }

  lemma RenewReleaseGenerations(s: State, step: LeaseStep)
    requires GenerationsOk(s) && LeaseEnabled(s, step) && (step.Renew? || step.Release?)
    ensures GenerationsOk(LeaseNext(s, step))
  {
    match step
    case Renew(l, ttl) => RenewRows(s.db.leases, s.now, l, ttl); SameTenancies(s, LeaseNext(s, step));
    case Release(l) => ReleaseRows(s.db.leases, l); SameTenancies(s, LeaseNext(s, step));
  }

  /** Renewing and releasing leave each row's tenancy as it was, or drop the row. */
  lemma RenewRows(leases: map<(Ht, Partition), LeaseRow>, now: nat, l: Lease, ttl: nat)
    ensures forall k :: k in RenewLease(leases, now, l, ttl).1 ==>
              k in leases && RenewLease(leases, now, l, ttl).1[k].owner == leases[k].owner
              && RenewLease(leases, now, l, ttl).1[k].generation == leases[k].generation
  {
  }

  lemma ReleaseRows(leases: map<(Ht, Partition), LeaseRow>, l: Lease)
    ensures forall k :: k in ReleaseLease(leases, l).1 ==> k in leases && ReleaseLease(leases, l).1[k] == leases[k]
  {
  }

  lemma SameTenancies(s: State, s': State)
    requires GenerationsOk(s) && s'.acquires == s.acquires && s'.genSeq == s.genSeq && s'.hist.tenancies == s.hist.tenancies
    requires forall k :: k in s'.db.leases ==>
               k in s.db.leases && s'.db.leases[k].owner == s.db.leases[k].owner
               && s'.db.leases[k].generation == s.db.leases[k].generation
    ensures GenerationsOk(s')
  {
  }

  lemma RenewReleaseKeeps(s: State, step: LeaseStep)
    requires LeaseOk(s) && LeaseEnabled(s, step) && (step.Renew? || step.Release?)
    ensures LeaseOk(LeaseNext(s, step))
  {
    hide GenerationsOk;
    RenewReleaseGenerations(s, step);
    FencesElsewhere(s, LeaseNext(s, step), step.lease.ht, step.lease.partition);
  }

  lemma LeaseKeepsLease(s: State, step: LeaseStep)
    requires LeaseOk(s) && LeaseEnabled(s, step)
    ensures LeaseOk(LeaseNext(s, step))
  {
    hide LeaseOk; hide LeaseNext; hide LeaseEnabled;
    match step
    case Draw(a, ht, p, o, ttl) => DrawKeeps(s, a, ht, p, o, ttl);
    case Install(a) => InstallKeeps(s, a);
    case Renew(l, ttl) => RenewReleaseKeeps(s, step);
    case Release(l) => RenewReleaseKeeps(s, step);
  }

  lemma QuietKeepsLease(s: State, s': State)
    requires LeaseOk(s) && s'.acquires == s.acquires && s'.genSeq == s.genSeq && s'.hist.tenancies == s.hist.tenancies
    requires s'.db.leases == s.db.leases && s'.txns == s.txns && s.now <= s'.now
    requires forall p :: p in s.db.parts ==> p in s'.db.parts && s'.db.parts[p].ht == s.db.parts[p].ht
                                             && s'.db.parts[p].meta == s.db.parts[p].meta
    ensures LeaseOk(s')
  {
    hide GenerationsOk; hide FencesOk;
    GenerationsFrame(s, s');
    FencesFrame(s, s');
  }

  // ---------------------------------------------------------------- dead tokens

  /** A token that was installed once and is not held now: expired, taken over or
      released. */
  ghost predicate Dead(s: State, l: Lease) {
    l.generation in s.hist.tenancies && !Holds(s.db.leases, s.now, l)
  }

  /** No transaction is past its fence under the token. */
  ghost predicate NoneFenced(s: State, l: Lease) {
    forall t :: t in s.txns && s.txns[t].fencedAt.Some? ==> s.txns[t].req.lease != Some(l)
  }

  lemma LeaseStepDead(s: State, step: LeaseStep, l: Lease)
    requires GenerationsOk(s) && LeaseEnabled(s, step) && Dead(s, l)
    ensures Dead(LeaseNext(s, step), l)
  {
    hide LeaseRowLocked;
    match step
    case Draw(a, ht, p, o, ttl) =>
    case Install(a) => assert s.acquires[a].drawn != l.generation;
    case Renew(m, ttl) =>
    case Release(m) =>
  }
}
