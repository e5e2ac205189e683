/** What an ingest stores, what a deletion on request leaves, and what the counters and chains of a run say, told from the events. */
module EvidenceRules {
  import RunOrder
  import opened EvidenceSpec
  import opened EvidenceInvariants
  import opened EvidenceHistory

  // ----- The order of events -----

  /** Events are in order of time and, at the same time, of their ids letter by letter. */
  lemma SoonerIff(a: Event, b: Event)
    ensures Sooner(a, b) <==> a.ts < b.ts || (a.ts == b.ts && exists n: nat :: RunOrder.FirstDiffers(a.id, b.id, n))
  {
    RunOrder.BeforeIff(a.id, b.id);
  }

  // ----- Ingest -----

  /** No level set for all, for the source or for the tenant is above the effective one, and it is one of them. */
  lemma LevelIs(p: Pressure, e: Event)
    ensures var l := EffectiveLevel(p, e);
      && l >= p.level && (e.source in p.bySource ==> l >= p.bySource[e.source]) && (e.tenant in p.byTenant ==> l >= p.byTenant[e.tenant])
      && (l == p.level || (e.source in p.bySource && l == p.bySource[e.source]) || (e.tenant in p.byTenant && l == p.byTenant[e.tenant]))
  {
  }

  /** The run has room for the event, in number and in size. */
  predicate HasRoom(cfg: EvidenceConfig, s: Stats, e: Event) {
    (cfg.maxEvents > 0 ==> s.count < cfg.maxEvents) && (cfg.maxBytes > 0 ==> s.bytes + e.bytes <= cfg.maxBytes)
  }

  /** Exactly which events are degraded and which are dropped. */
  lemma DecideIff(cfg: EvidenceConfig, s: Stats, e: Event, p: Pressure)
    ensures Decide(cfg, s, e, p) == Degrade <==> !HasRoom(cfg, s, e) && e.tier in {Tier0, Tier1}
    ensures var level := EffectiveLevel(p, e);
      Decide(cfg, s, e, p) == Drop <==>
        || (!HasRoom(cfg, s, e) && e.tier in {Tier2, Tier3})
        || (&& HasRoom(cfg, s, e) && !e.highRisk
            && (|| (level == 1 && e.tier in {Tier2, Tier3})
                || (level in {2, 3} && e.tier in {Tier1, Tier2, Tier3})
                || (p.load >= cfg.highLoad && e.tier in {Tier2, Tier3} && cfg.sampledOut(e.id, e.tier))))
  {
  }

  /** All but the link of the two events is the same. */
  predicate SameBut(e: Event, e': Event) {
    e'.(link := e.link) == e
  }

  /** What is stored of an event that is not dropped: all of it, or all but its payload. */
  function StoredForm(cfg: EvidenceConfig, e: Event, degraded: bool): Event {
    if degraded then e.(degraded := true, payload := Payload("", []), payloadHash := cfg.degradedHash) else e
  }

  /**
   * In any history, a new event that is not dropped ends the log of its run, linked to the one before it by number and
   * hash; a duplicate or dropped event changes no log.
   */
  lemma IngestDoes(cfg: EvidenceConfig, ops: seq<EvidenceOp>, e: Event, p: Pressure)
    ensures var (ev, ev') := (After(cfg, ops), Ingest(cfg, After(cfg, ops), e, p));
      var (es, es', action) := (HotOf(ev, e.runId), HotOf(ev', e.runId), Decide(cfg, Summary(HotOf(ev, e.runId)), e, p));
      if e.id in ev.byId || action == Drop then es' == es && ev'.byId == ev.byId
      else
        && |es'| == |es| + 1 && es'[..|es|] == es && ev'.byId == ev.byId[e.id := es'[|es|]]
        && var x := es'[|es|];
        && SameBut(StoredForm(cfg, e, action == Degrade), x)
        && x.link.number == |es| + 1 && x.link.prev == (if es == [] then "" else es[|es| - 1].link.hash)
        && x.link.hash == cfg.hash(LinkContent(x.link.prev, x.id, x.typ, x.canonicalHash, x.payloadHash, x.ts))
    ensures var (ev, ev') := (After(cfg, ops), Ingest(cfg, After(cfg, ops), e, p));
      forall r :: r != e.runId ==> HotOf(ev', r) == HotOf(ev, r)
  {
    var ev := After(cfg, ops);
    ReachableOk(cfg, ops);
    StatsAndHead(cfg, ev, e.runId);
    forall r ensures r != e.runId ==> HotOf(Ingest(cfg, ev, e, p), r) == HotOf(ev, r) { IngestAppends(cfg, ev, e, p, r); hide Ingest; }
    IngestAppends(cfg, ev, e, p, e.runId);
    if e.id in ev.byId { DuplicateIgnored(cfg, ev, e, p); }
    IngestIndex(cfg, ev, e, p);
    hide After, EvOk, Ingest, Decide, Summary;
    var es := HotOf(ev, e.runId);
    assert (es + [Logged(cfg, ev, e, p)])[..|es|] == es;
  }

  lemma IngestIndex(cfg: EvidenceConfig, ev: Evidence, e: Event, p: Pressure)
    ensures Ingest(cfg, ev, e, p).byId
      == if e.id in ev.byId || ActionFor(cfg, ev, e, p) == Drop then ev.byId else ev.byId[e.id := Logged(cfg, ev, e, p)]
  {
    hide Decide, Tally;
  }

  lemma StatsAndHead(cfg: EvidenceConfig, ev: Evidence, r: string)
    requires EvOk(cfg, ev)
    ensures DataAt(ev.runs, r).stats == Summary(HotOf(ev, r)) && ChainAt(ev, r) == Head(HotOf(ev, r))
    ensures HotOf(ev, r) != [] ==> HotOf(ev, r)[|HotOf(ev, r)| - 1].link.number == |HotOf(ev, r)|
  {
    hide Linked, Distinct, IndexOk, RunsApart;
    assert r in ev.runs ==> RunOk(cfg, r, ev.runs[r], ChainAt(ev, r));
  }

  // ----- Deletion on request -----

  /** The event is one the request is about: of the tenant, with a payload under the prefix. */
  predicate Hit(tenant: string, prefix: string, e: Event) {
    e.tenant == tenant && |prefix| <= |e.payloadRef| && e.payloadRef[..|prefix|] == prefix
  }

  predicate LowSignal(e: Event) {
    e.tier == Tier3 && e.grade == Operational
  }

  /** The event with its payload taken away. */
  function Erased(cfg: EvidenceConfig, e: Event): Event {
    e.(tombstoned := true, payload := Payload("", []), payloadHash := cfg.tombstoneHash)
  }

  /** What a request leaves of an event, if anything. */
  predicate Leaves(cfg: EvidenceConfig, tenant: string, prefix: string, e: Event, x: Event) {
    if Hit(tenant, prefix, e) then !LowSignal(e) && x == Erased(cfg, e) else x == e
  }

  lemma HitIff(tenant: string, prefix: string, e: Event)
    ensures Targeted(tenant, prefix, e) <==> Hit(tenant, prefix, e)
  {
    if prefix == "" { assert e.payloadRef[..0] == ""; }
  }

  lemma {:induction false} RedactedFrom(cfg: EvidenceConfig, es: seq<Event>, tenant: string, prefix: string, x: Event) returns (e: Event)
    requires x in Redacted(cfg, es, tenant, prefix)
    ensures e in es && Leaves(cfg, tenant, prefix, e, x)
  {
    var init, last := es[..|es| - 1], es[|es| - 1];
    HitIff(tenant, prefix, last);
    assert es == init + [last];
    if x in Redacted(cfg, init, tenant, prefix) { e := RedactedFrom(cfg, init, tenant, prefix, x); } else { e := last; }
  }

  lemma {:induction false} RedactedKeeps(cfg: EvidenceConfig, es: seq<Event>, tenant: string, prefix: string, e: Event, x: Event)
    requires e in es && Leaves(cfg, tenant, prefix, e, x)
    ensures x in Redacted(cfg, es, tenant, prefix)
  {
    var init, last := es[..|es| - 1], es[|es| - 1];
    HitIff(tenant, prefix, last);
    assert es == init + [last];
    if e in init { RedactedKeeps(cfg, init, tenant, prefix, e, x); }
  }

  /** A rebuild only chains the events of a log anew. */
  lemma RefreshedFrom(cfg: EvidenceConfig, es: seq<Event>, x: Event) returns (e: Event)
    requires x in Refreshed(cfg, es).events
    ensures e in es && SameBut(e, x)
  {
    var s := SortEvents(es);
    SortKeeps(es);
    StampedOk(cfg, s);
    hide SortEvents, Stamped, Linked, Numbered;
    var i :| 0 <= i < |s| && Stamped(cfg, s)[i] == x;
    e := s[i];
    assert Bare(x) == Bare(e);
    assert x.(link := e.link) == Bare(x).(link := e.link);
  }

  lemma RefreshedKeeps(cfg: EvidenceConfig, es: seq<Event>, e: Event) returns (x: Event)
    requires e in es
    ensures x in Refreshed(cfg, es).events && SameBut(e, x)
  {
    var s := SortEvents(es);
    SortKeeps(es);
    StampedOk(cfg, s);
    hide SortEvents, Stamped, Linked, Numbered;
    var i :| 0 <= i < |s| && s[i] == e;
    x := Stamped(cfg, s)[i];
    assert Bare(x) == Bare(e);
    assert x.(link := e.link) == Bare(x).(link := e.link);
  }

  /** The log of a run after a request, before it is rebuilt. */
  function Remains(cfg: EvidenceConfig, ev: Evidence, tenant: string, run: string, prefix: string, r: string): seq<Event>
    requires r in ev.runs
  {
    if run in {"", r} then Redacted(cfg, ev.runs[r].events, tenant, prefix) else ev.runs[r].events
  }

  lemma DeletedLog(cfg: EvidenceConfig, ev: Evidence, tenant: string, run: string, prefix: string, r: string)
    requires tenant != ""
    ensures var ev' := DeleteByDSAR(cfg, ev, tenant, run, prefix);
      && (r in ev'.runs <==> r in ev.runs)
      && (r in ev.runs ==> ev'.runs[r].events == Refreshed(cfg, Remains(cfg, ev, tenant, run, prefix, r)).events)
  {
    hide Redacted, Refreshed, ById;
  }

  lemma LeftFrom(cfg: EvidenceConfig, ev: Evidence, tenant: string, run: string, prefix: string, r: string, x: Event) returns (e: Event)
    requires tenant != "" && x in HotOf(DeleteByDSAR(cfg, ev, tenant, run, prefix), r)
    ensures e in HotOf(ev, r)
    ensures SameBut(if run in {"", r} && Hit(tenant, prefix, e) then Erased(cfg, e) else e, x)
    ensures run in {"", r} && Hit(tenant, prefix, e) ==> !LowSignal(e)
  {
    DeletedLog(cfg, ev, tenant, run, prefix, r);
    hide DeleteByDSAR, Refreshed, Redacted, Hit;
    e := RefreshedFrom(cfg, Remains(cfg, ev, tenant, run, prefix, r), x);
    if run in {"", r} { e := RedactedFrom(cfg, ev.runs[r].events, tenant, prefix, e); }
  }

  lemma LeftOf(cfg: EvidenceConfig, ev: Evidence, tenant: string, run: string, prefix: string, r: string, e: Event) returns (x: Event)
    requires tenant != "" && e in HotOf(ev, r) && !(run in {"", r} && Hit(tenant, prefix, e) && LowSignal(e))
    ensures x in HotOf(DeleteByDSAR(cfg, ev, tenant, run, prefix), r)
    ensures SameBut(if run in {"", r} && Hit(tenant, prefix, e) then Erased(cfg, e) else e, x)
  {
    DeletedLog(cfg, ev, tenant, run, prefix, r);
    hide DeleteByDSAR, Refreshed, Redacted, Hit;
    var kept := if run in {"", r} && Hit(tenant, prefix, e) then Erased(cfg, e) else e;
    if run in {"", r} { RedactedKeeps(cfg, ev.runs[r].events, tenant, prefix, e, kept); }
    x := RefreshedKeeps(cfg, Remains(cfg, ev, tenant, run, prefix, r), kept);
  }

  /**
   * After a deletion for a tenant, in any state: no event of the tenant under the prefix that the request covers has kept
   * its payload, and none of low signal is there at all; every event of the run that the request does not cover is there
   * as it was, and one it covers without being of low signal is there without its payload; and nothing else is.
   */
  lemma DeletionErases(cfg: EvidenceConfig, ev: Evidence, tenant: string, run: string, prefix: string, r: string)
    requires tenant != ""
    ensures var ev' := DeleteByDSAR(cfg, ev, tenant, run, prefix);
      && (run in {"", r} ==> forall x :: x in HotOf(ev', r) && Hit(tenant, prefix, x) ==>
            x.tombstoned && x.payload == Payload("", []) && x.payloadHash == cfg.tombstoneHash && !LowSignal(x))
      && (forall e :: e in HotOf(ev, r) && !(run in {"", r} && Hit(tenant, prefix, e)) ==> exists x :: x in HotOf(ev', r) && SameBut(e, x))
      && (run in {"", r} ==> forall e :: e in HotOf(ev, r) && Hit(tenant, prefix, e) && !LowSignal(e) ==>
            exists x :: x in HotOf(ev', r) && SameBut(Erased(cfg, e), x))
      && (forall x :: x in HotOf(ev', r) ==> exists e :: e in HotOf(ev, r) && e.id == x.id)
  {
    hide DeleteByDSAR, HotOf;
    var ev' := DeleteByDSAR(cfg, ev, tenant, run, prefix);
    forall x | x in HotOf(ev', r)
      ensures exists e :: e in HotOf(ev, r) && e.id == x.id
      ensures run in {"", r} && Hit(tenant, prefix, x) ==>
        x.tombstoned && x.payload == Payload("", []) && x.payloadHash == cfg.tombstoneHash && !LowSignal(x)
    {
      var e := LeftFrom(cfg, ev, tenant, run, prefix, r, x);
      ErasedHit(cfg, tenant, prefix, e, x, run in {"", r});
    }
    forall e | e in HotOf(ev, r) && !(run in {"", r} && Hit(tenant, prefix, e)) ensures exists x :: x in HotOf(ev', r) && SameBut(e, x) {
      var x := LeftOf(cfg, ev, tenant, run, prefix, r, e);
    }
    if run in {"", r} {
      forall e | e in HotOf(ev, r) && Hit(tenant, prefix, e) && !LowSignal(e) ensures exists x :: x in HotOf(ev', r) && SameBut(Erased(cfg, e), x) {
        var x := LeftOf(cfg, ev, tenant, run, prefix, r, e);
      }
    }
  }

  lemma ErasedHit(cfg: EvidenceConfig, tenant: string, prefix: string, e: Event, x: Event, covered: bool)
    requires SameBut(if covered && Hit(tenant, prefix, e) then Erased(cfg, e) else e, x)
    requires covered && Hit(tenant, prefix, e) ==> !LowSignal(e)
    ensures e.id == x.id
    ensures covered && Hit(tenant, prefix, x) ==>
      x.tombstoned && x.payload == Payload("", []) && x.payloadHash == cfg.tombstoneHash && !LowSignal(x)
  {
    var kept := if covered && Hit(tenant, prefix, e) then Erased(cfg, e) else e;
    assert kept.tenant == x.tenant && kept.payloadRef == x.payloadRef && kept.id == x.id;
  }

  // ----- Counters -----

  /** How many events of a log have a property. */
  function Number(es: seq<Event>, p: Event -> bool): nat {
    if es == [] then 0 else Number(es[..|es| - 1], p) + if p(es[|es| - 1]) then 1 else 0
  }

  function FromSource(source: string): Event -> bool { (e: Event) => e.source == source }
  function OfTier(tier: EvidenceTier): Event -> bool { (e: Event) => e.tier == tier }
  function OfGrade(grade: Grade): Event -> bool { (e: Event) => e.grade == grade }

  function Size(es: seq<Event>): nat {
    if es == [] then 0 else Size(es[..|es| - 1]) + es[|es| - 1].bytes
  }

  function CountOf<K>(m: map<K, int>, key: K): int {
    if key in m then m[key] else 0
  }

  lemma {:induction false} SummaryCounts(es: seq<Event>, source: string, tier: EvidenceTier, grade: Grade)
    ensures var s := Summary(es);
      && s.count == |es| && s.bytes == Size(es)
      && CountOf(s.bySource, source) == Number(es, FromSource(source))
      && CountOf(s.byTier, tier) == Number(es, OfTier(tier))
      && CountOf(s.byGrade, grade) == Number(es, OfGrade(grade))
      && (s.needsGraph <==> exists e :: e in es && e.highRisk)
      && (forall e :: e in es ==> e.ts <= s.lastTs) && s.lastTs >= 0 && (s.lastTs == 0 || exists e :: e in es && e.ts == s.lastTs)
  {
    if es != [] {
      var init, last := es[..|es| - 1], es[|es| - 1];
      SummaryCounts(init, source, tier, grade);
      assert es == init + [last];
      hide Number, Size, Summary;
      SummarySnoc(init, last, source, tier, grade);
      TallyDoes(Summary(init), last, source, tier, grade);
      hide Tally;
    }
  }

  lemma TallyDoes(s: Stats, e: Event, source: string, tier: EvidenceTier, grade: Grade)
    ensures var t := Tally(s, e);
      && t.count == s.count + 1 && t.bytes == s.bytes + e.bytes && t.needsGraph == (s.needsGraph || e.highRisk)
      && t.lastTs == (if e.ts > s.lastTs then e.ts else s.lastTs)
      && CountOf(t.bySource, source) == CountOf(s.bySource, source) + (if e.source == source then 1 else 0)
      && CountOf(t.byTier, tier) == CountOf(s.byTier, tier) + (if e.tier == tier then 1 else 0)
      && CountOf(t.byGrade, grade) == CountOf(s.byGrade, grade) + (if e.grade == grade then 1 else 0)
  {
  }

  lemma SummarySnoc(init: seq<Event>, last: Event, source: string, tier: EvidenceTier, grade: Grade)
    ensures var es := init + [last];
      && Summary(es) == Tally(Summary(init), last) && Size(es) == Size(init) + last.bytes
      && Number(es, FromSource(source)) == Number(init, FromSource(source)) + (if last.source == source then 1 else 0)
      && Number(es, OfTier(tier)) == Number(init, OfTier(tier)) + (if last.tier == tier then 1 else 0)
      && Number(es, OfGrade(grade)) == Number(init, OfGrade(grade)) + (if last.grade == grade then 1 else 0)
  {
    assert (init + [last])[..|init|] == init;
  }

  /** In any history the counters of a run are what a count of its log gives. */
  lemma CountersTell(cfg: EvidenceConfig, ops: seq<EvidenceOp>, r: string, source: string, tier: EvidenceTier, grade: Grade)
    requires r in After(cfg, ops).runs
    ensures var (es, s) := (HotOf(After(cfg, ops), r), After(cfg, ops).runs[r].stats);
      && s.count == |es| && s.bytes == Size(es)
      && CountOf(s.bySource, source) == Number(es, FromSource(source))
      && CountOf(s.byTier, tier) == Number(es, OfTier(tier))
      && CountOf(s.byGrade, grade) == Number(es, OfGrade(grade))
      && (s.needsGraph <==> exists e :: e in es && e.highRisk)
      && (forall e :: e in es ==> e.ts <= s.lastTs) && (s.lastTs == 0 || exists e :: e in es && e.ts == s.lastTs)
  {
    ReachableOk(cfg, ops);
    StatsAndHead(cfg, After(cfg, ops), r);
    SummaryCounts(HotOf(After(cfg, ops), r), source, tier, grade);
    hide After, EvOk, Summary, Number, Size;
  }

  // ----- What a chain binds -----

  /** What the hash of an event is computed from. */
  predicate SameContent(a: Event, b: Event) {
    a.id == b.id && a.typ == b.typ && a.canonicalHash == b.canonicalHash && a.payloadHash == b.payloadHash && a.ts == b.ts
  }

  lemma {:induction false} HashesBind(cfg: EvidenceConfig, es: seq<Event>, es': seq<Event>, n: nat, n': nat)
    requires ValidHash(cfg) && Injective(cfg) && Linked(cfg, es) && Linked(cfg, es') && n <= |es| && n' <= |es'|
    requires HashBefore(es, n) == HashBefore(es', n')
    ensures n == n' && forall i :: 0 <= i < n ==> SameContent(es[i], es'[i])
  {
    if n > 0 { assert LinkOk(cfg, es, n - 1); }
    if n' > 0 { assert LinkOk(cfg, es', n' - 1); }
    if n > 0 && n' > 0 { HashesBind(cfg, es, es', n - 1, n' - 1); }
  }

  /** With an injective hash, two runs of any two histories with the same head have logged the same events, as far as they are hashed. */
  lemma EqualHeadsEqualEvents(cfg: EvidenceConfig, ops: seq<EvidenceOp>, r: string, ops': seq<EvidenceOp>, r': string)
    requires ValidHash(cfg) && Injective(cfg) && r in After(cfg, ops).runs && r' in After(cfg, ops').runs
    requires ChainAt(After(cfg, ops), r).last == ChainAt(After(cfg, ops'), r').last
    ensures var (es, es') := (HotOf(After(cfg, ops), r), HotOf(After(cfg, ops'), r'));
      |es| == |es'| && forall i :: 0 <= i < |es| ==> SameContent(es[i], es'[i])
  {
    ReachableOk(cfg, ops);
    ReachableOk(cfg, ops');
    var ev, ev' := After(cfg, ops), After(cfg, ops');
    hide After, SameContent, ValidHash, Injective;
    StatsAndHead(cfg, ev, r);
    StatsAndHead(cfg, ev', r');
    LogIsLinked(cfg, ev, r);
    LogIsLinked(cfg, ev', r');
    hide EvOk, Linked;
    HashesBind(cfg, HotOf(ev, r), HotOf(ev', r'), |HotOf(ev, r)|, |HotOf(ev', r')|);
  }
}
