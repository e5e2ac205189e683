/** What a run may hold in full, and what no pressure may take away. */
module EvidenceBudget {
  import opened EvidenceSpec
  import opened EvidenceInvariants
  import opened EvidenceHistory

  // ----- The events held in full -----

  /** An event counts against the budget, as one or by its size, unless its payload was given up. */
  function Weight(bytes: bool, e: Event): nat {
    if e.degraded then 0 else if bytes then e.bytes else 1
  }

  function Held(bytes: bool, es: seq<Event>): nat {
    if es == [] then 0 else Held(bytes, es[..|es| - 1]) + Weight(bytes, es[|es| - 1])
  }

  lemma HeldSnoc(bytes: bool, es: seq<Event>, e: Event)
    ensures Held(bytes, es + [e]) == Held(bytes, es) + Weight(bytes, e)
  {
    assert (es + [e])[..|es|] == es;
  }

  lemma {:induction false} HeldInserted(bytes: bool, es: seq<Event>, e: Event)
    ensures Held(bytes, InsertEvent(es, e)) == Held(bytes, es) + Weight(bytes, e)
  {
    hide Weight, Sooner;
    if es == [] || Sooner(es[|es| - 1], e) {
      HeldSnoc(bytes, es, e);
    } else {
      HeldInserted(bytes, es[..|es| - 1], e);
      HeldSnoc(bytes, InsertEvent(es[..|es| - 1], e), es[|es| - 1]);
    }
  }

  lemma {:induction false} HeldSorted(bytes: bool, es: seq<Event>)
    ensures Held(bytes, SortEvents(es)) == Held(bytes, es)
  {
    hide Weight;
    if es != [] {
      HeldSorted(bytes, es[..|es| - 1]);
      HeldInserted(bytes, SortEvents(es[..|es| - 1]), es[|es| - 1]);
    }
  }

  lemma {:induction false} HeldStamped(cfg: EvidenceConfig, bytes: bool, es: seq<Event>)
    ensures Held(bytes, Stamped(cfg, es)) == Held(bytes, es)
  {
    if es != [] {
      var init := Stamped(cfg, es[..|es| - 1]);
      HeldStamped(cfg, bytes, es[..|es| - 1]);
      HeldSnoc(bytes, init, Stamp(cfg, Head(init), es[|es| - 1]));
    }
  }

  lemma HeldRefreshed(cfg: EvidenceConfig, bytes: bool, es: seq<Event>)
    ensures Held(bytes, Refreshed(cfg, es).events) == Held(bytes, es)
  {
    HeldStamped(cfg, bytes, SortEvents(es));
    HeldSorted(bytes, es);
  }

  lemma {:induction false} HeldRedacted(cfg: EvidenceConfig, bytes: bool, es: seq<Event>, tenant: string, prefix: string)
    ensures Held(bytes, Redacted(cfg, es, tenant, prefix)) <= Held(bytes, es)
  {
    if es != [] {
      var init, e := Redacted(cfg, es[..|es| - 1], tenant, prefix), es[|es| - 1];
      HeldRedacted(cfg, bytes, es[..|es| - 1], tenant, prefix);
      HeldSnoc(bytes, init, e);
      HeldSnoc(bytes, init, Tombstoned(cfg, e));
    }
  }

  lemma {:induction false} HeldKept(bytes: bool, es: seq<Event>, now: int, max: int)
    ensures Held(bytes, Keep(es, now, max)) <= Held(bytes, es)
  {
    hide Weight;
    if es != [] {
      var init := Keep(es[..|es| - 1], now, max);
      HeldKept(bytes, es[..|es| - 1], now, max);
      HeldSnoc(bytes, init, es[|es| - 1]);
      assert init + [] == init;
    }
  }

  lemma {:induction false} HeldWithin(es: seq<Event>)
    ensures Held(false, es) <= Summary(es).count && Held(true, es) <= Summary(es).bytes
  {
    if es != [] { HeldWithin(es[..|es| - 1]); }
  }

  // ----- The budget of a run -----

  ghost predicate Within(cfg: EvidenceConfig, es: seq<Event>) {
    && (cfg.maxEvents > 0 ==> Held(false, es) <= cfg.maxEvents)
    && (cfg.maxBytes > 0 ==> Held(true, es) <= cfg.maxBytes)
  }

  lemma LessWithin(cfg: EvidenceConfig, es: seq<Event>, es': seq<Event>)
    requires Within(cfg, es) && Held(false, es') <= Held(false, es) && Held(true, es') <= Held(true, es)
    ensures Within(cfg, es')
  {
  }

  lemma StatsAre(cfg: EvidenceConfig, ev: Evidence, r: string)
    requires EvOk(cfg, ev)
    ensures DataAt(ev.runs, r).stats == Summary(HotOf(ev, r))
  {
    hide Linked, Numbered, Distinct, IndexOk, RunsApart;
    assert r in ev.runs ==> RunOk(cfg, r, ev.runs[r], ChainAt(ev, r));
  }

  lemma IngestWithin(cfg: EvidenceConfig, ev: Evidence, e: Event, p: Pressure, r: string)
    requires EvOk(cfg, ev) && Within(cfg, HotOf(ev, r))
    ensures Within(cfg, HotOf(Ingest(cfg, ev, e, p), r))
  {
    IngestAppends(cfg, ev, e, p, r);
    hide Ingest, Summary, EvOk;
    var es := HotOf(ev, r);
    if r == e.runId && e.id !in ev.byId && ActionFor(cfg, ev, e, p) != Drop {
      var x := Logged(cfg, ev, e, p);
      HeldSnoc(false, es, x);
      HeldSnoc(true, es, x);
      if ActionFor(cfg, ev, e, p) == Accept {
        StatsAre(cfg, ev, r);
        HeldWithin(es);
      }
    } else {
      assert es + [] == es;
    }
  }

  lemma DeleteWithin(cfg: EvidenceConfig, ev: Evidence, tenant: string, run: string, prefix: string, r: string)
    requires Within(cfg, HotOf(ev, r))
    ensures Within(cfg, HotOf(DeleteByDSAR(cfg, ev, tenant, run, prefix), r))
  {
    hide Held, Redacted, Refreshed, ById, Within;
    if tenant != "" && r in ev.runs {
      var es := ev.runs[r].events;
      var kept := if run == "" || r == run then Redacted(cfg, es, tenant, prefix) else es;
      HeldRedacted(cfg, false, es, tenant, prefix);
      HeldRedacted(cfg, true, es, tenant, prefix);
      HeldRefreshed(cfg, false, kept);
      HeldRefreshed(cfg, true, kept);
      LessWithin(cfg, es, Refreshed(cfg, kept).events);
    }
  }

  lemma SweepWithin(cfg: EvidenceConfig, ev: Evidence, now: int, r: string)
    requires Within(cfg, HotOf(ev, r))
    ensures Within(cfg, HotOf(SweepRetention(cfg, ev, now), r))
  {
    var es := HotOf(ev, r);
    var kept := Keep(es, now, cfg.eventRetention);
    HeldKept(false, es, now, cfg.eventRetention);
    HeldKept(true, es, now, cfg.eventRetention);
    HeldRefreshed(cfg, false, kept);
    HeldRefreshed(cfg, true, kept);
    LessWithin(cfg, es, Refreshed(cfg, kept).events);
    LessWithin(cfg, es, []);
    hide Held, Keep, Refreshed, ById, Within, WarmAfter, ColdAfter;
  }

  /** In any history, the events a run holds in full are within its budget, in number and in size. */
  lemma {:induction false} BudgetHolds(cfg: EvidenceConfig, ops: seq<EvidenceOp>, r: string)
    ensures var es := HotOf(After(cfg, ops), r);
      && (cfg.maxEvents > 0 ==> Held(false, es) <= cfg.maxEvents)
      && (cfg.maxBytes > 0 ==> Held(true, es) <= cfg.maxBytes)
  {
    if ops != [] {
      var init := ops[..|ops| - 1];
      var ev := After(cfg, init);
      BudgetHolds(cfg, init, r);
      ReachableOk(cfg, init);
      assert Within(cfg, HotOf(ev, r));
      hide EvOk, Ingest, DeleteByDSAR, SweepRetention, HotOf, Held;
      match ops[|ops| - 1]
      case IngestOp(e, p) => IngestWithin(cfg, ev, e, p, r);
      case DeleteOp(tenant, run, prefix) => DeleteWithin(cfg, ev, tenant, run, prefix, r);
      case SweepOp(now) => SweepWithin(cfg, ev, now, r);
    }
  }

  // ----- What pressure cannot take -----

  /**
   * An event of tier 0, or of tier 1 and high risk, is logged and indexed under any pressure; a new one loses its payload
   * if and only if its run has no room for it.
   */
  lemma CriticalIsKept(cfg: EvidenceConfig, ops: seq<EvidenceOp>, e: Event, p: Pressure)
    requires (e.tier == Tier0 || (e.tier == Tier1 && e.highRisk)) && !e.degraded
    ensures var ev, ev' := After(cfg, ops), Ingest(cfg, After(cfg, ops), e, p);
      && e.id in ev'.byId
      && (e.id !in ev.byId ==>
            && ev'.byId[e.id] in HotOf(ev', e.runId)
            && (ev'.byId[e.id].degraded <==> OverBudget(cfg, Summary(HotOf(ev, e.runId)), e)))
  {
    ReachableOk(cfg, ops);
    var ev := After(cfg, ops);
    StatsAre(cfg, ev, e.runId);
    hide After, EvOk, Summary, OverBudget;
    CriticalAction(cfg, Summary(HotOf(ev, e.runId)), e, p);
    hide Ingest, Decide, HotOf;
    if e.id !in ev.byId { IngestIndexes(cfg, ev, e, p); } else { DuplicateIgnored(cfg, ev, e, p); }
  }

  lemma CriticalAction(cfg: EvidenceConfig, s: Stats, e: Event, p: Pressure)
    requires e.tier == Tier0 || (e.tier == Tier1 && e.highRisk)
    ensures Decide(cfg, s, e, p) == if OverBudget(cfg, s, e) then Degrade else Accept
  {
    hide OverBudget, EffectiveLevel;
  }
}
