/** The evidence kernel over whole histories: what its indexes say, and when a run's log passes verification. */
module EvidenceHistory {
  import RunOrder
  import opened EvidenceSpec
  import opened EvidenceInvariants

  datatype EvidenceOp =
    | IngestOp(event: Event, pressure: Pressure)
    | DeleteOp(tenant: string, run: string, prefix: string)
    | SweepOp(now: int)

  ghost function Apply(cfg: EvidenceConfig, ev: Evidence, op: EvidenceOp): Evidence {
    match op
    case IngestOp(e, p) => Ingest(cfg, ev, e, p)
    case DeleteOp(tenant, run, prefix) => DeleteByDSAR(cfg, ev, tenant, run, prefix)
    case SweepOp(now) => SweepRetention(cfg, ev, now)
  }

  ghost function After(cfg: EvidenceConfig, ops: seq<EvidenceOp>): Evidence {
    if ops == [] then NO_EVIDENCE else Apply(cfg, After(cfg, ops[..|ops| - 1]), ops[|ops| - 1])
  }

  lemma {:induction false} ReachableOk(cfg: EvidenceConfig, ops: seq<EvidenceOp>)
    ensures EvOk(cfg, After(cfg, ops))
  {
    if ops != [] {
      ReachableOk(cfg, ops[..|ops| - 1]);
      hide EvOk, Ingest, DeleteByDSAR, SweepRetention;
      var ev := After(cfg, ops[..|ops| - 1]);
      match ops[|ops| - 1]
      case IngestOp(e, p) => IngestOk(cfg, ev, e, p);
      case DeleteOp(tenant, run, prefix) => DeleteOk(cfg, ev, tenant, run, prefix);
      case SweepOp(now) => SweepOk(cfg, ev, now);
    }
  }

  /** After any history: counters are folds of the logs, ids are distinct, and the index holds exactly the hot events. */
  lemma IndexesAgree(cfg: EvidenceConfig, ops: seq<EvidenceOp>)
    ensures var ev := After(cfg, ops);
      && (forall r :: r in ev.runs ==> ev.runs[r].stats == Summary(ev.runs[r].events))
      && (forall r, i, r', i' ::
            (r in ev.runs && r' in ev.runs && 0 <= i < |ev.runs[r].events| && 0 <= i' < |ev.runs[r'].events|
             && ev.runs[r].events[i].id == ev.runs[r'].events[i'].id) ==> r == r' && i == i')
      && (forall r, e :: r in ev.runs && e in ev.runs[r].events ==> e.id in ev.byId && ev.byId[e.id] == e && e.runId == r)
      && (forall id :: id in ev.byId ==> ev.byId[id].id == id && ev.byId[id].runId in ev.runs && ev.byId[id] in ev.runs[ev.byId[id].runId].events)
  {
    ReachableOk(cfg, ops);
    var ev := After(cfg, ops);
    hide After, Summary, Linked, Numbered;
    forall r | r in ev.runs ensures RunOk(cfg, r, ev.runs[r], ChainAt(ev, r)) { }
    forall r, i, r', i' | r in ev.runs && r' in ev.runs && 0 <= i < |ev.runs[r].events| && 0 <= i' < |ev.runs[r'].events|
        && ev.runs[r].events[i].id == ev.runs[r'].events[i'].id ensures r == r' && i == i' {
      SameSpot(cfg, ev, r, i, r', i');
    }
    forall id | id in ev.byId ensures ev.byId[id].id == id && ev.byId[id].runId in ev.runs && ev.byId[id] in ev.runs[ev.byId[id].runId].events {
      var r :| r in ev.runs && ev.byId[id] in ev.runs[r].events && ev.byId[id].id == id;
    }
  }

  lemma SameSpot(cfg: EvidenceConfig, ev: Evidence, r: string, i: nat, r': string, i': nat)
    requires EvOk(cfg, ev) && r in ev.runs && r' in ev.runs && i < |ev.runs[r].events| && i' < |ev.runs[r'].events|
    requires ev.runs[r].events[i].id == ev.runs[r'].events[i'].id
    ensures r == r' && i == i'
  {
    hide Linked, Numbered, Summary, IndexOk;
    var id := ev.runs[r].events[i].id;
    assert id in Ids(ev.runs[r].events) && id in Ids(ev.runs[r'].events);
    assert RunOk(cfg, r, ev.runs[r], ChainAt(ev, r));
  }

  // ----- Verification -----

  lemma {:induction false} OrderedSorts(es: seq<Event>)
    requires InOrder(es)
    ensures SortEvents(es) == es
  {
    if es != [] {
      OrderedSorts(es[..|es| - 1]);
      assert es == es[..|es| - 1] + [es[|es| - 1]];
      if |es| > 1 { assert Sooner(es[|es| - 2], es[|es| - 1]); }
    }
  }

  ghost predicate Injective(cfg: EvidenceConfig) {
    forall c, c' :: cfg.hash(c) == cfg.hash(c') ==> c == c'
  }

  /** In a chain, the blank digest and each digest is followed by one event only. */
  lemma FollowsOne(cfg: EvidenceConfig, es: seq<Event>, i: nat, j: nat)
    requires ValidHash(cfg) && Injective(cfg) && Linked(cfg, es) && Distinct(es) && i < |es| && j < |es|
    requires es[j].link.prev == HashBefore(es, i)
    ensures i == j
  {
    assert LinkOk(cfg, es, i) && LinkOk(cfg, es, j);
    if i > 0 { assert LinkOk(cfg, es, i - 1); }
    if j > 0 { assert LinkOk(cfg, es, j - 1); }
  }

  /** If the sorted log is a chain too, it is the log itself. */
  lemma {:induction false} SameChain(cfg: EvidenceConfig, es: seq<Event>, s: seq<Event>, n: nat)
    requires ValidHash(cfg) && Injective(cfg) && Linked(cfg, es) && Distinct(es) && Linked(cfg, s)
    requires |s| == |es| && n <= |es| && forall x :: x in s ==> x in es
    ensures s[..n] == es[..n]
  {
    if n > 0 {
      SameChain(cfg, es, s, n - 1);
      assert LinkOk(cfg, s, n - 1);
      assert n > 1 ==> s[..n - 1][n - 2] == es[..n - 1][n - 2];
      assert s[n - 1] in es;
      var j :| 0 <= j < |es| && es[j] == s[n - 1];
      FollowsOne(cfg, es, n - 1, j);
    }
  }

  /** Verification passes exactly if the log was written in the order of time and id. */
  lemma VerifiesIff(cfg: EvidenceConfig, es: seq<Event>)
    requires ValidHash(cfg) && Injective(cfg) && Linked(cfg, es) && Distinct(es)
    ensures Verifies(cfg, es) <==> InOrder(es)
  {
    hide SortEvents, InOrder;
    if InOrder(es) { OrderedSorts(es); }
    if Verifies(cfg, es) {
      SortKeeps(es);
      SortOrders(es);
      var s := SortEvents(es);
      SameChain(cfg, es, s, |es|);
      assert s[..|es|] == s && es[..|es|] == es;
    }
  }

  lemma VerifiesIffReachable(cfg: EvidenceConfig, ops: seq<EvidenceOp>, r: string)
    requires ValidHash(cfg) && Injective(cfg) && r in After(cfg, ops).runs
    ensures Verifies(cfg, After(cfg, ops).runs[r].events) <==> InOrder(After(cfg, ops).runs[r].events)
  {
    ReachableOk(cfg, ops);
    var ev := After(cfg, ops);
    hide After, Verifies, InOrder, Summary;
    assert RunOk(cfg, r, ev.runs[r], ChainAt(ev, r));
    hide Linked, Distinct;
    VerifiesIff(cfg, ev.runs[r].events);
  }

  lemma OrderedVerifies(cfg: EvidenceConfig, es: seq<Event>)
    requires Linked(cfg, es) && InOrder(es)
    ensures Verifies(cfg, es)
  {
    OrderedSorts(es);
  }

  /** Right after a deletion or a sweep every run passes, whatever order its events came in. */
  lemma RebuiltVerifies(cfg: EvidenceConfig, ops: seq<EvidenceOp>, op: EvidenceOp, r: string)
    requires op.SweepOp? || (op.DeleteOp? && op.tenant != "")
    requires r in Apply(cfg, After(cfg, ops), op).runs
    ensures Verifies(cfg, Apply(cfg, After(cfg, ops), op).runs[r].events)
  {
    ReachableOk(cfg, ops);
    var ev := After(cfg, ops);
    hide After, Verifies, InOrder, DeleteByDSAR, SweepRetention, Summary;
    if op.SweepOp? { SweepOk(cfg, ev, op.now); } else { DeleteOk(cfg, ev, op.tenant, op.run, op.prefix); }
    var ev' := Apply(cfg, ev, op);
    assert RunOk(cfg, r, ev'.runs[r], ChainAt(ev', r));
    OrderedVerifies(cfg, ev'.runs[r].events);
  }

  lemma SnocInOrder(es: seq<Event>, e: Event)
    requires InOrder(es) && (es == [] || Sooner(es[|es| - 1], e))
    ensures InOrder(es + [e])
  {
    hide Sooner;
    var r := es + [e];
    forall i, j | 0 <= i < j < |r| ensures Sooner(r[i], r[j]) {
      if j == |es| && i < |es| - 1 { SoonerTransitive(es[i], es[|es| - 1], e); }
    }
  }

  lemma StampSooner(cfg: EvidenceConfig, a: Event, chain: Chain, e: Event)
    ensures Sooner(a, Stamp(cfg, chain, e)) == Sooner(a, e) && Sooner(Stamp(cfg, chain, e), a) == Sooner(e, a)
    ensures Sooner(a, Stamp(cfg, chain, Degraded(cfg, e))) == Sooner(a, e) && Sooner(Stamp(cfg, chain, Degraded(cfg, e)), a) == Sooner(e, a)
  {
  }

  function ActionFor(cfg: EvidenceConfig, ev: Evidence, e: Event, p: Pressure): Action {
    Decide(cfg, DataAt(ev.runs, e.runId).stats, e, p)
  }

  /** What is logged for an event that is not dropped. */
  function Logged(cfg: EvidenceConfig, ev: Evidence, e: Event, p: Pressure): Event {
    Stamp(cfg, ChainAt(ev, e.runId), if ActionFor(cfg, ev, e, p) == Degrade then Degraded(cfg, e) else e)
  }

  /** What an ingest does to the log of a run. */
  lemma IngestAppends(cfg: EvidenceConfig, ev: Evidence, e: Event, p: Pressure, r: string)
    ensures HotOf(Ingest(cfg, ev, e, p), r)
      == if r == e.runId && e.id !in ev.byId && ActionFor(cfg, ev, e, p) != Drop then HotOf(ev, r) + [Logged(cfg, ev, e, p)] else HotOf(ev, r)
  {
    hide Stamp, Tally, Decide;
  }

  /** A logged event is in the index and ends the log of its run. */
  lemma IngestIndexes(cfg: EvidenceConfig, ev: Evidence, e: Event, p: Pressure)
    requires e.id !in ev.byId && ActionFor(cfg, ev, e, p) != Drop
    ensures var ev' := Ingest(cfg, ev, e, p);
      e.id in ev'.byId && ev'.byId[e.id] == Logged(cfg, ev, e, p) && ev'.byId[e.id] in HotOf(ev', e.runId)
  {
    hide Tally, Decide;
    var x := Logged(cfg, ev, e, p);
    assert x in HotOf(ev, e.runId) + [x];
  }

  /** An event that comes after all of its run's, in time and id, leaves a passing run passing. */
  lemma InOrderKeepsVerifying(cfg: EvidenceConfig, ops: seq<EvidenceOp>, e: Event, p: Pressure, r: string)
    requires InOrder(HotOf(After(cfg, ops), r))
    requires r == e.runId ==> HotOf(After(cfg, ops), r) == [] || Sooner(HotOf(After(cfg, ops), r)[|HotOf(After(cfg, ops), r)| - 1], e)
    ensures var ev' := Ingest(cfg, After(cfg, ops), e, p);
      InOrder(HotOf(ev', r)) && (r in ev'.runs ==> Verifies(cfg, ev'.runs[r].events))
  {
    ReachableOk(cfg, ops);
    var ev := After(cfg, ops);
    hide After, Verifies, EvOk, Ingest, InOrder, Stamp, Sooner, Linked, Decide;
    var ev' := Ingest(cfg, ev, e, p);
    IngestAppends(cfg, ev, e, p, r);
    IngestOk(cfg, ev, e, p);
    if r == e.runId && e.id !in ev.byId && ActionFor(cfg, ev, e, p) != Drop {
      if HotOf(ev, r) != [] { StampSooner(cfg, HotOf(ev, r)[|HotOf(ev, r)| - 1], ChainAt(ev, r), e); }
      SnocInOrder(HotOf(ev, r), Logged(cfg, ev, e, p));
    }
    if r in ev'.runs {
      LogIsLinked(cfg, ev', r);
      OrderedVerifies(cfg, ev'.runs[r].events);
    }
  }

  lemma LogIsLinked(cfg: EvidenceConfig, ev: Evidence, r: string)
    requires EvOk(cfg, ev) && r in ev.runs
    ensures Linked(cfg, ev.runs[r].events)
  {
    hide Linked;
    assert RunOk(cfg, r, ev.runs[r], ChainAt(ev, r));
  }

  lemma AfterIngest(cfg: EvidenceConfig, ops: seq<EvidenceOp>, e: Event, p: Pressure)
    ensures After(cfg, ops + [IngestOp(e, p)]) == Ingest(cfg, After(cfg, ops), e, p)
  {
    hide Ingest;
    assert (ops + [IngestOp(e, p)])[..|ops|] == ops;
  }

  lemma LateOutOfOrder(cfg: EvidenceConfig, ev: Evidence, e: Event, p: Pressure)
    requires e.id !in ev.byId && ActionFor(cfg, ev, e, p) != Drop
    requires var es := HotOf(ev, e.runId); es != [] && Sooner(e, es[|es| - 1])
    ensures var ev' := Ingest(cfg, ev, e, p); e.runId in ev'.runs && !InOrder(ev'.runs[e.runId].events)
  {
    hide Ingest, ActionFor, Stamp, Sooner;
    IngestAppends(cfg, ev, e, p, e.runId);
    var es, x := HotOf(ev, e.runId), Logged(cfg, ev, e, p);
    StampSooner(cfg, es[|es| - 1], ChainAt(ev, e.runId), e);
    SoonerNotBoth(x, es[|es| - 1]);
    assert !Sooner((es + [x])[|es| - 1], (es + [x])[|es|]);
  }

  /** The other way round it does not: one logged event earlier than the last one, and the run fails until the next rebuild. */
  lemma LateEventFails(cfg: EvidenceConfig, ops: seq<EvidenceOp>, e: Event, p: Pressure)
    requires ValidHash(cfg) && Injective(cfg) && e.id !in After(cfg, ops).byId && ActionFor(cfg, After(cfg, ops), e, p) != Drop
    requires var es := HotOf(After(cfg, ops), e.runId); es != [] && Sooner(e, es[|es| - 1])
    ensures var ev' := Ingest(cfg, After(cfg, ops), e, p);
      e.runId in ev'.runs && !Verifies(cfg, ev'.runs[e.runId].events)
  {
    hide *;
    AfterIngest(cfg, ops, e, p);
    LateOutOfOrder(cfg, After(cfg, ops), e, p);
    VerifiesIffReachable(cfg, ops + [IngestOp(e, p)], e.runId);
  }

  lemma SoonerNotBoth(a: Event, b: Event)
    requires Sooner(a, b)
    ensures !Sooner(b, a)
  {
    if a.ts == b.ts { RunOrder.BeforeNotBoth(a.id, b.id); }
  }
}
