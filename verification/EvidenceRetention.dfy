/** The retention sweep: it loses nothing but what is over age, and how often it ran makes no difference. */
module EvidenceRetention {
  import opened EvidenceSpec
  import opened EvidenceInvariants
  import EvidenceHistory

  /** The retention times as the constructor leaves them. */
  ghost predicate Layered(cfg: EvidenceConfig) {
    cfg.eventRetention <= cfg.warmRetention <= cfg.coldRetention
  }

  // ----- Contents apart from order and chaining -----

  function Bares(es: seq<Event>): multiset<Event> {
    if es == [] then multiset{} else Bares(es[..|es| - 1]) + multiset{Bare(es[|es| - 1])}
  }

  lemma BaresSnoc(es: seq<Event>, e: Event)
    ensures Bares(es + [e]) == Bares(es) + multiset{Bare(e)}
  {
    assert (es + [e])[..|es|] == es;
  }

  lemma BaresNone()
    ensures Bares([]) == multiset{}
  {
  }

  lemma {:induction false} BaresConcat(a: seq<Event>, b: seq<Event>)
    ensures Bares(a + b) == Bares(a) + Bares(b)
  {
    hide Bares;
    if b == [] {
      assert a + b == a;
      BaresNone();
    } else {
      var init, e := b[..|b| - 1], b[|b| - 1];
      BaresConcat(a, init);
      assert a + b == (a + init) + [e] && b == init + [e];
      BaresSnoc(a + init, e);
      BaresSnoc(init, e);
    }
  }

  lemma {:induction false} BaresInsert(es: seq<Event>, e: Event)
    ensures Bares(InsertEvent(es, e)) == Bares(es) + multiset{Bare(e)}
  {
    if es == [] || Sooner(es[|es| - 1], e) {
      BaresSnoc(es, e);
    } else {
      BaresInsert(es[..|es| - 1], e);
      BaresSnoc(InsertEvent(es[..|es| - 1], e), es[|es| - 1]);
    }
  }

  lemma {:induction false} BaresSorted(es: seq<Event>)
    ensures Bares(SortEvents(es)) == Bares(es)
  {
    if es != [] {
      BaresSorted(es[..|es| - 1]);
      BaresInsert(SortEvents(es[..|es| - 1]), es[|es| - 1]);
    }
  }

  lemma {:induction false} BaresStamped(cfg: EvidenceConfig, es: seq<Event>)
    ensures Bares(Stamped(cfg, es)) == Bares(es)
  {
    if es != [] {
      var init := Stamped(cfg, es[..|es| - 1]);
      BaresStamped(cfg, es[..|es| - 1]);
      BaresSnoc(init, Stamp(cfg, Head(init), es[|es| - 1]));
    }
  }

  lemma BaresRefreshed(cfg: EvidenceConfig, es: seq<Event>)
    ensures Bares(Refreshed(cfg, es).events) == Bares(es)
  {
    hide Bares, SortEvents, Stamped, Summary;
    BaresSorted(es);
    BaresStamped(cfg, SortEvents(es));
  }

  lemma {:induction false} BaresCount(es: seq<Event>)
    ensures |Bares(es)| == |es|
  {
    if es != [] { BaresCount(es[..|es| - 1]); }
  }

  // ----- Filters by age -----

  lemma {:induction false} PickCounts(es: seq<Event>, now: int, min: int, max: int, x: Event)
    ensures Bares(Pick(es, now, min, max))[x] == if Aged(x, now, min, max) then Bares(es)[x] else 0
  {
    hide Bares;
    if es == [] {
      BaresNone();
    } else {
      var init, e := es[..|es| - 1], es[|es| - 1];
      PickCounts(init, now, min, max, x);
      assert es == init + [e];
      BaresSnoc(init, e);
      BaresSnoc(Pick(init, now, min, max), e);
      assert Pick(init, now, min, max) + [] == Pick(init, now, min, max);
    }
  }

  lemma {:induction false} KeepCounts(es: seq<Event>, now: int, max: int, x: Event)
    ensures Bares(Keep(es, now, max))[x] == if Young(x, now, max) then Bares(es)[x] else 0
  {
    hide Bares;
    if es == [] {
      BaresNone();
    } else {
      var init, e := es[..|es| - 1], es[|es| - 1];
      KeepCounts(init, now, max, x);
      assert es == init + [e];
      BaresSnoc(init, e);
      BaresSnoc(Keep(init, now, max), e);
      assert Keep(init, now, max) + [] == Keep(init, now, max);
    }
  }

  // ----- One sweep, run by run -----

  ghost function Hot(ev: Evidence, r: string): multiset<Event> { Bares(HotOf(ev, r)) }
  ghost function Warm(ev: Evidence, r: string): multiset<Event> { Bares(WarmOf(ev, r)) }
  ghost function Cold(ev: Evidence, r: string): multiset<Event> { Bares(ColdOf(ev, r)) }

  lemma RebuildArchives(cfg: EvidenceConfig, ev: Evidence)
    ensures Rebuild(cfg, ev).warm == ev.warm && Rebuild(cfg, ev).cold == ev.cold
  {
    hide Refreshed, ById, Head;
  }

  lemma SweepLists(cfg: EvidenceConfig, ev: Evidence, now: int, r: string)
    ensures var ev' := SweepRetention(cfg, ev, now);
      && WarmOf(ev', r) == WarmAfter(cfg, ev, r, now)
      && ColdOf(ev', r) == ColdAfter(cfg, ev, r, now)
  {
    hide Keep, Pick, Rebuild;
    RebuildArchives(cfg, Archived(cfg, ev, now));
    hide WarmAfter, ColdAfter;
    var a := Archived(cfg, ev, now);
    if r !in ev.warm && r !in ev.runs { NoWarm(cfg, ev, r, now); }
    if r !in ev.cold && r !in ev.warm && r !in ev.runs { NoCold(cfg, ev, r, now); }
    assert WarmOf(a, r) == WarmAfter(cfg, ev, r, now);
    assert ColdOf(a, r) == ColdAfter(cfg, ev, r, now);
  }

  lemma NoWarm(cfg: EvidenceConfig, ev: Evidence, r: string, now: int)
    requires r !in ev.warm && r !in ev.runs
    ensures WarmAfter(cfg, ev, r, now) == []
  {
  }

  lemma NoCold(cfg: EvidenceConfig, ev: Evidence, r: string, now: int)
    requires r !in ev.cold && r !in ev.warm && r !in ev.runs
    ensures ColdAfter(cfg, ev, r, now) == []
  {
  }

  lemma SweepHot(cfg: EvidenceConfig, ev: Evidence, now: int, r: string)
    ensures Bares(HotOf(SweepRetention(cfg, ev, now), r)) == Bares(Keep(HotOf(ev, r), now, cfg.eventRetention))
    ensures forall e :: e in HotOf(SweepRetention(cfg, ev, now), r) ==> Young(e, now, cfg.eventRetention)
  {
    hide ById, Head, WarmAfter, ColdAfter, Bares, Refreshed;
    var kept := Keep(HotOf(ev, r), now, cfg.eventRetention);
    BaresRefreshed(cfg, kept);
    KeptAreYoung(cfg, HotOf(ev, r), now, cfg.eventRetention);
    if r !in ev.runs { assert kept == []; }
    assert HotOf(SweepRetention(cfg, ev, now), r) == if kept == [] then [] else Refreshed(cfg, kept).events;
    if kept == [] { assert Bares([]) == Bares(kept); }
  }

  lemma {:induction false} KeepMembers(es: seq<Event>, now: int, max: int)
    ensures forall e :: e in Keep(es, now, max) <==> e in es && Young(e, now, max)
  {
    if es != [] {
      KeepMembers(es[..|es| - 1], now, max);
      assert es == es[..|es| - 1] + [es[|es| - 1]];
    }
  }

  lemma {:induction false} PickMembers(es: seq<Event>, now: int, min: int, max: int)
    ensures forall e :: e in Pick(es, now, min, max) <==> e in es && Aged(e, now, min, max)
  {
    if es != [] {
      PickMembers(es[..|es| - 1], now, min, max);
      assert es == es[..|es| - 1] + [es[|es| - 1]];
    }
  }

  lemma KeptAreYoung(cfg: EvidenceConfig, es: seq<Event>, now: int, max: int)
    ensures forall e :: e in Refreshed(cfg, Keep(es, now, max)).events ==> Young(e, now, max)
  {
    hide Keep, SortEvents, Stamped, Summary;
    var kept := Keep(es, now, max);
    KeepMembers(es, now, max);
    SortKeeps(kept);
    var s := SortEvents(kept);
    StampedOk(cfg, s);
    forall e | e in Stamped(cfg, s) ensures Young(e, now, max) {
      var i :| 0 <= i < |s| && Stamped(cfg, s)[i] == e;
      assert Bare(Stamped(cfg, s)[i]) == Bare(s[i]);
      assert s[i] in kept;
    }
  }

  /** How many copies of an event each tier holds after a sweep. */
  lemma SweepCounts(cfg: EvidenceConfig, ev: Evidence, now: int, r: string, x: Event)
    ensures var (ev', age) := (SweepRetention(cfg, ev, now), now - x.ts);
      && Hot(ev', r)[x] == (if age <= cfg.eventRetention then Hot(ev, r)[x] else 0)
      && Warm(ev', r)[x] == (if age <= cfg.warmRetention then Warm(ev, r)[x] else 0)
                          + (if cfg.eventRetention < age <= cfg.warmRetention then Hot(ev, r)[x] else 0)
      && Cold(ev', r)[x] == (if age <= cfg.coldRetention then Cold(ev, r)[x] else 0)
                          + (if cfg.warmRetention < age <= cfg.coldRetention then Warm(ev, r)[x] + Hot(ev, r)[x] else 0)
  {
    hide SweepRetention, Bares, Keep, Pick;
    SweepHot(cfg, ev, now, r);
    SweepLists(cfg, ev, now, r);
    KeepCounts(HotOf(ev, r), now, cfg.eventRetention, x);
    WarmCounts(cfg, ev, now, r, x);
    ColdCounts(cfg, ev, now, r, x);
  }

  lemma WarmCounts(cfg: EvidenceConfig, ev: Evidence, now: int, r: string, x: Event)
    ensures Bares(WarmAfter(cfg, ev, r, now))[x]
         == (if now - x.ts <= cfg.warmRetention then Warm(ev, r)[x] else 0)
          + (if cfg.eventRetention < now - x.ts <= cfg.warmRetention then Hot(ev, r)[x] else 0)
  {
    hide Bares, Keep, Pick;
    KeepCounts(WarmOf(ev, r), now, cfg.warmRetention, x);
    PickCounts(HotOf(ev, r), now, cfg.eventRetention, cfg.warmRetention, x);
    BaresConcat(Keep(WarmOf(ev, r), now, cfg.warmRetention), Pick(HotOf(ev, r), now, cfg.eventRetention, cfg.warmRetention));
  }

  lemma ColdCounts(cfg: EvidenceConfig, ev: Evidence, now: int, r: string, x: Event)
    ensures Bares(ColdAfter(cfg, ev, r, now))[x]
         == (if now - x.ts <= cfg.coldRetention then Cold(ev, r)[x] else 0)
          + (if cfg.warmRetention < now - x.ts <= cfg.coldRetention then Warm(ev, r)[x] + Hot(ev, r)[x] else 0)
  {
    hide Bares, Keep, Pick;
    var (w, c) := (cfg.warmRetention, cfg.coldRetention);
    PickCounts(WarmOf(ev, r), now, w, c, x);
    PickCounts(HotOf(ev, r), now, w, c, x);
    BaresConcat(ColdOf(ev, r), Pick(WarmOf(ev, r), now, w, c));
    KeepCounts(ColdOf(ev, r) + Pick(WarmOf(ev, r), now, w, c), now, c, x);
    BaresConcat(RotatedCold(cfg, ev, r, now), Pick(HotOf(ev, r), now, w, c));
  }

  // ----- Path independence -----

  /** Sweeping at t1 and then at a later t2 leaves each tier of each run with the events that sweeping once at t2 leaves. */
  lemma SweepPathIndependent(cfg: EvidenceConfig, ev: Evidence, t1: int, t2: int, r: string)
    requires Layered(cfg) && t1 <= t2
    ensures var (a, b) := (SweepRetention(cfg, SweepRetention(cfg, ev, t1), t2), SweepRetention(cfg, ev, t2));
      Hot(a, r) == Hot(b, r) && Warm(a, r) == Warm(b, r) && Cold(a, r) == Cold(b, r)
  {
    hide SweepRetention, Hot, Warm, Cold;
    var m := SweepRetention(cfg, ev, t1);
    var a, b := SweepRetention(cfg, m, t2), SweepRetention(cfg, ev, t2);
    forall x ensures Hot(a, r)[x] == Hot(b, r)[x] && Warm(a, r)[x] == Warm(b, r)[x] && Cold(a, r)[x] == Cold(b, r)[x] {
      SweepCounts(cfg, ev, t1, r, x);
      SweepCounts(cfg, m, t2, r, x);
      SweepCounts(cfg, ev, t2, r, x);
    }
  }

  // ----- Conservation -----

  /** The events of a list that are over age. */
  function Lapsed(es: seq<Event>, now: int, max: int): seq<Event> {
    if es == [] then [] else
      var e := es[|es| - 1];
      Lapsed(es[..|es| - 1], now, max) + if Young(e, now, max) then [] else [e]
  }

  lemma {:induction false} LapsedCounts(es: seq<Event>, now: int, max: int, x: Event)
    ensures Bares(Lapsed(es, now, max))[x] == if Young(x, now, max) then 0 else Bares(es)[x]
  {
    hide Bares;
    if es == [] {
      BaresNone();
    } else {
      var init, e := es[..|es| - 1], es[|es| - 1];
      LapsedCounts(init, now, max, x);
      assert es == init + [e];
      BaresSnoc(init, e);
      BaresSnoc(Lapsed(init, now, max), e);
      assert Lapsed(init, now, max) + [] == Lapsed(init, now, max);
    }
  }

  /** What a sweep deletes of a run: everything past the last retention time. */
  function Deleted(cfg: EvidenceConfig, ev: Evidence, r: string, now: int): seq<Event> {
    Lapsed(HotOf(ev, r), now, cfg.coldRetention) + Lapsed(WarmOf(ev, r), now, cfg.coldRetention) + Lapsed(ColdOf(ev, r), now, cfg.coldRetention)
  }

  /** Each event of a run is hot, warm, cold or deleted after a sweep, and exactly as often as it was there before. */
  lemma SweepConserves(cfg: EvidenceConfig, ev: Evidence, now: int, r: string)
    requires Layered(cfg)
    ensures var ev' := SweepRetention(cfg, ev, now);
      && Hot(ev, r) + Warm(ev, r) + Cold(ev, r) == Hot(ev', r) + Warm(ev', r) + Cold(ev', r) + Bares(Deleted(cfg, ev, r, now))
      && |HotOf(ev, r)| + |WarmOf(ev, r)| + |ColdOf(ev, r)|
         == |HotOf(ev', r)| + |WarmOf(ev', r)| + |ColdOf(ev', r)| + |Deleted(cfg, ev, r, now)|
  {
    hide SweepRetention, Bares, Lapsed;
    var ev' := SweepRetention(cfg, ev, now);
    var before := Hot(ev, r) + Warm(ev, r) + Cold(ev, r);
    var after := Hot(ev', r) + Warm(ev', r) + Cold(ev', r) + Bares(Deleted(cfg, ev, r, now));
    forall x ensures before[x] == after[x] {
      SweepCounts(cfg, ev, now, r, x);
      DeletedCounts(cfg, ev, now, r, x);
    }
    assert before == after;
    BaresCount(HotOf(ev, r));
    BaresCount(WarmOf(ev, r));
    BaresCount(ColdOf(ev, r));
    BaresCount(HotOf(ev', r));
    BaresCount(WarmOf(ev', r));
    BaresCount(ColdOf(ev', r));
    BaresCount(Deleted(cfg, ev, r, now));
    assert |before| == |Hot(ev, r) + Warm(ev, r)| + |Cold(ev, r)|;
    assert |after| == |Hot(ev', r) + Warm(ev', r) + Cold(ev', r)| + |Bares(Deleted(cfg, ev, r, now))|;
    assert |Hot(ev', r) + Warm(ev', r) + Cold(ev', r)| == |Hot(ev', r) + Warm(ev', r)| + |Cold(ev', r)|;
  }

  lemma DeletedCounts(cfg: EvidenceConfig, ev: Evidence, now: int, r: string, x: Event)
    ensures Bares(Deleted(cfg, ev, r, now))[x]
         == if now - x.ts <= cfg.coldRetention then 0 else Hot(ev, r)[x] + Warm(ev, r)[x] + Cold(ev, r)[x]
  {
    hide Bares, Lapsed;
    var c := cfg.coldRetention;
    LapsedCounts(HotOf(ev, r), now, c, x);
    LapsedCounts(WarmOf(ev, r), now, c, x);
    LapsedCounts(ColdOf(ev, r), now, c, x);
    BaresConcat(Lapsed(HotOf(ev, r), now, c), Lapsed(WarmOf(ev, r), now, c));
    BaresConcat(Lapsed(HotOf(ev, r), now, c) + Lapsed(WarmOf(ev, r), now, c), Lapsed(ColdOf(ev, r), now, c));
  }

  // ----- Tiers over whole histories -----

  /** The sweeps of the history are at times that do not go back, the last of them not after `t`. */
  ghost predicate Forward(ops: seq<EvidenceHistory.EvidenceOp>, t: int) {
    && (forall i :: 0 <= i < |ops| && ops[i].SweepOp? ==> ops[i].now <= t)
    && (forall i, j :: 0 <= i < j < |ops| && ops[i].SweepOp? && ops[j].SweepOp? ==> ops[i].now <= ops[j].now)
  }

  /** Archived events have the age of their archive, at time `t` or later. */
  ghost predicate ArchivesOld(cfg: EvidenceConfig, ev: Evidence, t: int) {
    && (forall r, e :: e in WarmOf(ev, r) ==> t - e.ts > cfg.eventRetention)
    && (forall r, e :: e in ColdOf(ev, r) ==> t - e.ts > cfg.warmRetention)
  }

  lemma SweepAges(cfg: EvidenceConfig, ev: Evidence, now: int, r: string)
    requires Layered(cfg) && ArchivesOld(cfg, ev, now)
    ensures var ev' := SweepRetention(cfg, ev, now);
      && (forall e :: e in HotOf(ev', r) ==> now - e.ts <= cfg.eventRetention)
      && (forall e :: e in WarmOf(ev', r) ==> cfg.eventRetention < now - e.ts <= cfg.warmRetention)
      && (forall e :: e in ColdOf(ev', r) ==> cfg.warmRetention < now - e.ts <= cfg.coldRetention)
  {
    hide SweepRetention, Keep, Pick;
    SweepHot(cfg, ev, now, r);
    SweepLists(cfg, ev, now, r);
    var (h, w, c) := (cfg.eventRetention, cfg.warmRetention, cfg.coldRetention);
    KeepMembers(WarmOf(ev, r), now, w);
    PickMembers(HotOf(ev, r), now, h, w);
    PickMembers(WarmOf(ev, r), now, w, c);
    PickMembers(HotOf(ev, r), now, w, c);
    KeepMembers(ColdOf(ev, r) + Pick(WarmOf(ev, r), now, w, c), now, c);
  }

  lemma SweepOld(cfg: EvidenceConfig, ev: Evidence, now: int)
    requires Layered(cfg) && ArchivesOld(cfg, ev, now)
    ensures ArchivesOld(cfg, SweepRetention(cfg, ev, now), now)
  {
    hide SweepRetention;
    var ev' := SweepRetention(cfg, ev, now);
    forall r, e | e in WarmOf(ev', r) ensures now - e.ts > cfg.eventRetention { SweepAges(cfg, ev, now, r); }
    forall r, e | e in ColdOf(ev', r) ensures now - e.ts > cfg.warmRetention { SweepAges(cfg, ev, now, r); }
  }

  lemma OtherOpsLeaveArchives(cfg: EvidenceConfig, ev: Evidence, op: EvidenceHistory.EvidenceOp)
    requires !op.SweepOp?
    ensures EvidenceHistory.Apply(cfg, ev, op).warm == ev.warm && EvidenceHistory.Apply(cfg, ev, op).cold == ev.cold
  {
    hide Refreshed, ById, Head, Redacted, Stamp, Tally;
  }

  lemma {:induction false} ReachableOld(cfg: EvidenceConfig, ops: seq<EvidenceHistory.EvidenceOp>, t: int)
    requires Layered(cfg) && Forward(ops, t)
    ensures ArchivesOld(cfg, EvidenceHistory.After(cfg, ops), t)
  {
    if ops != [] {
      var init, op := ops[..|ops| - 1], ops[|ops| - 1];
      var ev := EvidenceHistory.After(cfg, init);
      if op.SweepOp? {
        ReachableOld(cfg, init, op.now);
        hide SweepRetention, Ingest, DeleteByDSAR, ArchivesOld;
        SweepOld(cfg, ev, op.now);
        StillOld(cfg, SweepRetention(cfg, ev, op.now), op.now, t);
      } else {
        ReachableOld(cfg, init, t);
        hide SweepRetention, Ingest, DeleteByDSAR, ArchivesOld;
        OtherOpsLeaveArchives(cfg, ev, op);
        SameArchives(cfg, ev, EvidenceHistory.Apply(cfg, ev, op), t);
      }
    }
  }

  lemma SameArchives(cfg: EvidenceConfig, ev: Evidence, ev': Evidence, t: int)
    requires ArchivesOld(cfg, ev, t) && ev'.warm == ev.warm && ev'.cold == ev.cold
    ensures ArchivesOld(cfg, ev', t)
  {
    forall r ensures WarmOf(ev', r) == WarmOf(ev, r) && ColdOf(ev', r) == ColdOf(ev, r) { }
  }

  lemma StillOld(cfg: EvidenceConfig, ev: Evidence, t: int, t': int)
    requires ArchivesOld(cfg, ev, t) && t <= t'
    ensures ArchivesOld(cfg, ev, t')
  {
  }

  /**
   * Right after a sweep at `t`, in any history whose sweeps do not go back in time, an event is where its age says:
   * hot up to the event retention, warm up to the warm one, cold up to the cold one.
   */
  lemma TierIsAge(cfg: EvidenceConfig, ops: seq<EvidenceHistory.EvidenceOp>, t: int, r: string)
    requires Layered(cfg) && Forward(ops, t)
    ensures var ev := SweepRetention(cfg, EvidenceHistory.After(cfg, ops), t);
      && (forall e :: e in HotOf(ev, r) ==> t - e.ts <= cfg.eventRetention)
      && (forall e :: e in WarmOf(ev, r) ==> cfg.eventRetention < t - e.ts <= cfg.warmRetention)
      && (forall e :: e in ColdOf(ev, r) ==> cfg.warmRetention < t - e.ts <= cfg.coldRetention)
  {
    hide SweepRetention, ArchivesOld;
    ReachableOld(cfg, ops, t);
    SweepAges(cfg, EvidenceHistory.After(cfg, ops), t, r);
  }
}
