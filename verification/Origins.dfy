/** Where a view's target commits come from: each carries the identity of one source
    ADD past the view's first registration. */
module Origins {
  import opened Base
  import opened Rows
  import opened Tables
  import opened Machine
  import opened Frames
  import opened Wellformed
  import opened FeedProof
  import opened MvProof
  import opened Runs
  import IngestProof
  import LeaseProof
  import GcProof
  import ContentProof

  /** An identity whose fingerprint is a view's is the one the factory makes for an ADD
      of the view's source past the initial cursor. */
  ghost predicate OriginOk(s: State, ht: Ht, key: Option<Digest>, fp: Option<Digest>) {
    fp.Some? && fp.value.MvDigest? ==>
      var d := fp.value;
      && key == fp
      && d.pipeline in s.cfg.pipelines && ht == s.cfg.pipelines[d.pipeline].target
      && d.source == s.cfg.pipelines[d.pipeline].source
      && d.pipeline in s.hist.mvInit && s.hist.mvInit[d.pipeline] < d.event
      && d.event in s.db.commits && s.db.commits[d.event].ht == d.source && s.db.commits[d.event].kind == KAdd
  }

  ghost predicate RequestOrigin(s: State, req: Request) {
    req.ident.Some? ==> OriginOk(s, req.ht, Some(req.ident.value.key), req.ident.value.fp)
  }

  ghost predicate OriginsOk(s: State) {
    && (forall t :: t in s.txns ==> RequestOrigin(s, s.txns[t].req))
    && (forall c :: c in s.db.commits ==> OriginOk(s, s.db.commits[c].ht, s.db.commits[c].key, s.db.commits[c].fp))
  }

  lemma OriginStays(s: State, s': State, ht: Ht, key: Option<Digest>, fp: Option<Digest>)
    requires Grows(s, s') && OriginOk(s, ht, key, fp)
    ensures OriginOk(s', ht, key, fp)
  {
    hide FeedKept;
  }

  /** The same commits, and transactions with requests from before. */
  lemma OriginsFrame(s: State, s': State)
    requires OriginsOk(s) && Grows(s, s') && s'.db.commits == s.db.commits
    requires forall t :: t in s'.txns ==> t in s.txns && s'.txns[t].req == s.txns[t].req
    ensures OriginsOk(s')
  {
    hide Grows; hide OriginOk;
    forall t | t in s'.txns ensures RequestOrigin(s', s'.txns[t].req) {
      assert RequestOrigin(s, s.txns[t].req);
      if s.txns[t].req.ident.Some? {
        OriginStays(s, s', s.txns[t].req.ht, Some(s.txns[t].req.ident.value.key), s.txns[t].req.ident.value.fp);
      }
    }
    forall c | c in s'.db.commits ensures OriginOk(s', s'.db.commits[c].ht, s'.db.commits[c].key, s'.db.commits[c].fp) {
      OriginStays(s, s', s.db.commits[c].ht, s.db.commits[c].key, s.db.commits[c].fp);
    }
  }

  lemma BeginOrigin(s: State, t: nat, req: Request)
    requires MvOk(s) && TxnEnabled(s, Begin(t, req))
    ensures RequestOrigin(s, req)
  {
    hide RewriteOf; hide KeptFiles;
    if req.client.MvReplica? {
      var e := s.replicas[req.client.replica];
      assert ReplicaOk(s, e);
      assert e.event in Feed(s.db, s.cfg.pipelines[e.pipeline].source);
    }
  }

  lemma BeginOrigins(s: State, t: nat, req: Request)
    requires Inv(s) && OriginsOk(s) && TxnEnabled(s, Begin(t, req))
    ensures OriginsOk(TxnNext(s, Begin(t, req)))
  {
    hide IngestProof.IngestOk; hide LeaseProof.LeaseOk; hide GcProof.GcOk; hide GcProof.FenceOk; hide ContentProof.ContentOk;
    hide Grows; hide PartsLast; hide OffsetsLast; hide TenanciesLast; hide Paths; hide Outputs;
    var s' := TxnNext(s, Begin(t, req));
    BeginFrame(s, t, req);
    BeginStep(s, t, req);
    BeginOrigin(s, t, req);
    forall u | u in s'.txns ensures RequestOrigin(s', s'.txns[u].req) { SameOrigin(s, s', s'.txns[u].req); }
    forall c | c in s'.db.commits ensures OriginOk(s', s'.db.commits[c].ht, s'.db.commits[c].key, s'.db.commits[c].fp) {
      OriginStays(s, s', s.db.commits[c].ht, s.db.commits[c].key, s.db.commits[c].fp);
    }
  }

  lemma SameOrigin(s: State, s': State, req: Request)
    requires Grows(s, s') && RequestOrigin(s, req)
    ensures RequestOrigin(s', req)
  {
    hide Grows; hide OriginOk;
    if req.ident.Some? { OriginStays(s, s', req.ht, Some(req.ident.value.key), req.ident.value.fp); }
  }

  lemma CommitOrigins(s: State, t: nat, s': State)
    requires OriginsOk(s) && Grows(s, s') && CommitEffect(s, t, s')
    ensures OriginsOk(s')
  {
    hide Record;
    forall u | u in s'.txns ensures RequestOrigin(s', s'.txns[u].req) { SameOrigin(s, s', s.txns[u].req); }
    forall c | c in s'.db.commits ensures OriginOk(s', s'.db.commits[c].ht, s'.db.commits[c].key, s'.db.commits[c].fp) {
      if c == s.txns[t].phase.id {
        SameOrigin(s, s', s.txns[t].req);
        if s.txns[t].req.ident.None? { NoOrigin(s', s.txns[t].req.ht); }
      } else {
        OriginStays(s, s', s.db.commits[c].ht, s.db.commits[c].key, s.db.commits[c].fp);
      }
    }
  }

  lemma NoOrigin(s: State, ht: Ht)
    ensures OriginOk(s, ht, None, None)
  {
  }

  lemma FinishOrigins(s: State, t: nat, ack: bool)
    requires Inv(s) && OriginsOk(s) && TxnEnabled(s, Finish(t, ack))
    ensures OriginsOk(TxnNext(s, Finish(t, ack)))
  {
    hide Inv;
    FinishStep(s, t, ack);
    FinishCases(s, t, ack);
    if BodyOf(s, t).0.Committed? { CommitOrigins(s, t, TxnNext(s, Finish(t, ack))); }
    else { OriginsFrame(s, TxnNext(s, Finish(t, ack))); }
  }

  lemma MoveOrigins(s: State, step: TxnStep)
    requires Inv(s) && OriginsOk(s) && TxnEnabled(s, step) && !step.Begin? && !step.Finish?
    ensures OriginsOk(TxnNext(s, step))
  {
    hide TxnNext; hide TxnEnabled; hide OriginsOk; hide Inv; hide Grows; hide PartsLast; hide OffsetsLast; hide TenanciesLast;
    hide AnswerReplica; hide AnswerIngester;
    TxnFrame(s, step);
    MoveStep(s, step);
    OriginsFrame(s, TxnNext(s, step));
  }

  lemma OriginsKeep(s: State, step: Step)
    requires Inv(s) && OriginsOk(s) && Enabled(s, step)
    ensures OriginsOk(Next(s, step))
  {
    hide Inv;
    hide Grows;
    var s' := Next(s, step);
    match step {
      case TxnS(t) =>
        if t.Begin? { BeginOrigins(s, t.txn, t.req); }
        else if t.Finish? { FinishOrigins(s, t.txn, t.ack); }
        else { MoveOrigins(s, t); }
      case FeedS(f) => FeedFrame(s, f); FeedStepKeeps(s, f); OriginsFrame(s, s');
      case LeaseS(l) => LeaseFrame(s, l); LeaseStepKeeps(s, l); OriginsFrame(s, s');
      case MvS(m) => MvFrame(s, m); MvStepKeeps(s, m); OriginsFrame(s, s');
      case IngestS(i) => IngestFrame(s, i); IngestStepKeeps(s, i); OriginsFrame(s, s');
      case ObjectS(o) => ObjectFrame(s, o); ObjectStepKeeps(s, o); OriginsFrame(s, s');
      case GcS(g) => GcFrame(s, g); GcStepKeeps(s, g); OriginsFrame(s, s');
      case Tick => TickKeeps(s); OriginsFrame(s, s');
    }
  }

  lemma {:induction false} RunOrigins(run: seq<State>, steps: seq<Step>, i: nat)
    requires IsRun(run, steps) && i < |run|
    ensures OriginsOk(run[i])
  {
    hide Inv;
    if i > 0 {
      RunOrigins(run, steps, i - 1);
      RunInv(run, steps, i - 1);
      OriginsKeep(run[i - 1], steps[i - 1]);
    }
  }
}
