/**
 * The evidence kernel's logs, indexes and archives as values: ingest, deletion on request, the retention sweep and the
 * rebuild that follows both. A payload is what the decision graph reads of it.
 */
module EvidenceSpec {
  import opened RunTypes

  datatype EvidenceTier = Tier0 | Tier1 | Tier2 | Tier3

  datatype Grade = Audit | Operational

  datatype Payload = Payload(node: string, parents: seq<string>)

  /** An event's place in its run's chain. */
  datatype Link = Link(number: nat, prev: string, hash: string)

  datatype Event = Event(
    id: string, typ: string, runId: string, tenant: string, source: string, tier: EvidenceTier, grade: Grade, highRisk: bool,
    ts: int, payloadRef: string, payload: Payload, payloadHash: string, canonicalHash: string, bytes: nat,
    degraded: bool, tombstoned: bool, link: Link)

  /** What an integrity hash is computed from. */
  datatype LinkContent = LinkContent(prev: string, id: string, typ: string, canonicalHash: string, payloadHash: string, ts: int)

  /** `sampledOut` tells which events of tier 2 and 3 are dropped by sampling under high load. */
  datatype EvidenceConfig = EvidenceConfig(
    hash: LinkContent -> string, tombstoneHash: string, degradedHash: string,
    eventRetention: int, warmRetention: int, coldRetention: int,
    maxEvents: int, maxBytes: int, highLoad: real, sampledOut: (string, EvidenceTier) -> bool)

  /** The back-pressure levels set for all, for a source and for a tenant, and the load a request reports. */
  datatype Pressure = Pressure(level: int, bySource: map<string, int>, byTenant: map<string, int>, load: real)

  /** A digest is never blank. */
  ghost predicate ValidHash(cfg: EvidenceConfig) {
    forall c :: cfg.hash(c) != ""
  }

  datatype Chain = Chain(last: string, count: nat)

  datatype Stats = Stats(
    count: int, bytes: int, bySource: map<string, int>, byTier: map<EvidenceTier, int>, byGrade: map<Grade, int>,
    lastTs: int, needsGraph: bool)

  datatype RunData = RunData(events: seq<Event>, stats: Stats)

  datatype Evidence = Evidence(
    runs: map<string, RunData>,
    byId: map<string, Event>,
    integrity: map<string, Chain>,
    warm: map<string, seq<Event>>,
    cold: map<string, seq<Event>>)

  const NO_STATS := Stats(0, 0, map[], map[], map[], 0, false)
  const NO_EVIDENCE := Evidence(map[], map[], map[], map[], map[])
  const NO_CHAIN := Chain("", 0)

  // ----- Tallies -----

  function Bump<K>(m: map<K, int>, key: K): map<K, int> {
    m[key := (if key in m then m[key] else 0) + 1]
  }

  function Tally(s: Stats, e: Event): Stats {
    Stats(s.count + 1, s.bytes + e.bytes, Bump(s.bySource, e.source), Bump(s.byTier, e.tier), Bump(s.byGrade, e.grade),
          if e.ts > s.lastTs then e.ts else s.lastTs, s.needsGraph || e.highRisk)
  }

  /** The fold of a log that a run's counters are to equal. */
  function Summary(es: seq<Event>): Stats {
    if es == [] then NO_STATS else Tally(Summary(es[..|es| - 1]), es[|es| - 1])
  }

  // ----- Chains -----

  function ContentOf(prev: string, e: Event): LinkContent {
    LinkContent(prev, e.id, e.typ, e.canonicalHash, e.payloadHash, e.ts)
  }

  function Stamp(cfg: EvidenceConfig, chain: Chain, e: Event): Event {
    e.(link := Link(chain.count + 1, chain.last, cfg.hash(ContentOf(chain.last, e))))
  }

  function Head(es: seq<Event>): Chain {
    if es == [] then NO_CHAIN else Chain(es[|es| - 1].link.hash, es[|es| - 1].link.number)
  }

  /** The events chained anew, in their order. */
  function Stamped(cfg: EvidenceConfig, es: seq<Event>): seq<Event> {
    if es == [] then [] else
      var init := Stamped(cfg, es[..|es| - 1]);
      init + [Stamp(cfg, Head(init), es[|es| - 1])]
  }

  // ----- The order of verification -----

  predicate Sooner(a: Event, b: Event) {
    a.ts < b.ts || (a.ts == b.ts && Before(a.id, b.id))
  }

  function InsertEvent(es: seq<Event>, e: Event): seq<Event> {
    if es == [] || Sooner(es[|es| - 1], e) then es + [e] else InsertEvent(es[..|es| - 1], e) + [es[|es| - 1]]
  }

  function SortEvents(es: seq<Event>): seq<Event> {
    if es == [] then [] else InsertEvent(SortEvents(es[..|es| - 1]), es[|es| - 1])
  }

  /** The chain check, over the events in the order of their time and id. */
  ghost predicate LinkOk(cfg: EvidenceConfig, es: seq<Event>, i: nat)
    requires i < |es|
  {
    es[i].link.prev == HashBefore(es, i) && es[i].link.hash == cfg.hash(ContentOf(es[i].link.prev, es[i]))
  }

  function HashBefore(es: seq<Event>, i: nat): string
    requires i <= |es|
  {
    if i == 0 then "" else es[i - 1].link.hash
  }

  ghost predicate Linked(cfg: EvidenceConfig, es: seq<Event>) {
    forall i: nat | i < |es| :: LinkOk(cfg, es, i)
  }

  ghost predicate Verifies(cfg: EvidenceConfig, es: seq<Event>) {
    Linked(cfg, SortEvents(es))
  }

  // ----- Ingest -----

  datatype Action = Accept | Degrade | Drop

  function ChainAt(ev: Evidence, r: string): Chain {
    if r in ev.integrity then ev.integrity[r] else NO_CHAIN
  }

  function DataAt(runs: map<string, RunData>, r: string): RunData {
    if r in runs then runs[r] else RunData([], NO_STATS)
  }

  function Degraded(cfg: EvidenceConfig, e: Event): Event {
    e.(degraded := true, payload := Payload("", []), payloadHash := cfg.degradedHash)
  }

  function Append(cfg: EvidenceConfig, ev: Evidence, e: Event): Evidence {
    var x, rd := Stamp(cfg, ChainAt(ev, e.runId), e), DataAt(ev.runs, e.runId);
    ev.(runs := ev.runs[e.runId := RunData(rd.events + [x], Tally(rd.stats, x))],
        byId := ev.byId[x.id := x],
        integrity := ev.integrity[e.runId := Chain(x.link.hash, x.link.number)])
  }

  predicate Droppable(t: EvidenceTier) {
    t == Tier2 || t == Tier3
  }

  /** The run has no room left for the event within its budget. */
  predicate OverBudget(cfg: EvidenceConfig, s: Stats, e: Event) {
    (cfg.maxEvents > 0 && s.count + 1 > cfg.maxEvents) || (cfg.maxBytes > 0 && s.bytes + e.bytes > cfg.maxBytes)
  }

  function Raised(level: int, scoped: map<string, int>, key: string): int {
    if key in scoped && scoped[key] > level then scoped[key] else level
  }

  function EffectiveLevel(p: Pressure, e: Event): int {
    Raised(Raised(p.level, p.bySource, e.source), p.byTenant, e.tenant)
  }

  predicate PressedOut(level: int, e: Event) {
    !e.highRisk && ((level == 1 && Droppable(e.tier)) || ((level == 2 || level == 3) && e.tier != Tier0))
  }

  predicate SampledOut(cfg: EvidenceConfig, load: real, e: Event) {
    load >= cfg.highLoad && !e.highRisk && Droppable(e.tier) && cfg.sampledOut(e.id, e.tier)
  }

  function Decide(cfg: EvidenceConfig, s: Stats, e: Event, p: Pressure): Action {
    if OverBudget(cfg, s, e) then (if Droppable(e.tier) then Drop else Degrade)
    else if PressedOut(EffectiveLevel(p, e), e) || SampledOut(cfg, p.load, e) then Drop
    else Accept
  }

  /** The budget is looked at first, then the back-pressure, then the load. */
  function Ingest(cfg: EvidenceConfig, ev: Evidence, e: Event, p: Pressure): Evidence {
    IngestAs(cfg, ev, e, Decide(cfg, DataAt(ev.runs, e.runId).stats, e, p))
  }

  /** A duplicate of a hot event changes nothing; a dropped event still opens its run's record. */
  function IngestAs(cfg: EvidenceConfig, ev: Evidence, e: Event, action: Action): Evidence {
    if e.id in ev.byId then ev
    else match action
      case Drop => ev.(runs := ev.runs[e.runId := DataAt(ev.runs, e.runId)])
      case Degrade => Append(cfg, ev, Degraded(cfg, e))
      case Accept => Append(cfg, ev, e)
  }

  lemma DuplicateIgnored(cfg: EvidenceConfig, ev: Evidence, e: Event, p: Pressure)
    requires e.id in ev.byId
    ensures Ingest(cfg, ev, e, p) == ev
  {
    hide Decide;
  }

  // ----- Rebuild -----

  function Ids(es: seq<Event>): set<string> {
    set i | 0 <= i < |es| :: es[i].id
  }

  function AllIds(runs: map<string, RunData>): set<string> {
    set r, i | r in runs && 0 <= i < |runs[r].events| :: runs[r].events[i].id
  }

  ghost predicate Located(runs: map<string, RunData>, id: string, e: Event) {
    exists r :: r in runs && e in runs[r].events && e.id == id
  }

  /** The index of the hot events by id; ids are distinct. */
  ghost function ById(runs: map<string, RunData>): map<string, Event> {
    map id | id in AllIds(runs) :: EventFor(runs, id)
  }

  ghost function EventFor(runs: map<string, RunData>, id: string): Event
    requires id in AllIds(runs)
  {
    assert exists r, i :: r in runs && 0 <= i < |runs[r].events| && runs[r].events[i].id == id;
    assert exists e :: Located(runs, id, e) by {
      var r, i :| r in runs && 0 <= i < |runs[r].events| && runs[r].events[i].id == id;
      assert Located(runs, id, runs[r].events[i]);
    }
    var e :| Located(runs, id, e);
    e
  }

  function Refreshed(cfg: EvidenceConfig, es: seq<Event>): RunData {
    var sorted := Stamped(cfg, SortEvents(es));
    RunData(sorted, Summary(sorted))
  }

  /** Logs are sorted and chained anew, and everything derived from them is computed afresh. */
  ghost function Rebuild(cfg: EvidenceConfig, ev: Evidence): Evidence {
    var runs := map r | r in ev.runs :: Refreshed(cfg, ev.runs[r].events);
    ev.(runs := runs, byId := ById(runs), integrity := map r | r in runs && runs[r].events != [] :: Head(runs[r].events))
  }

  // ----- Deletion on request -----

  predicate Targeted(tenant: string, prefix: string, e: Event) {
    e.tenant == tenant && (prefix == "" || prefix <= e.payloadRef)
  }

  function Tombstoned(cfg: EvidenceConfig, e: Event): Event {
    e.(tombstoned := true, payload := Payload("", []), payloadHash := cfg.tombstoneHash)
  }

  /** Low-signal operational events are deleted, other targeted events lose their payload. */
  function Redacted(cfg: EvidenceConfig, es: seq<Event>, tenant: string, prefix: string): seq<Event> {
    if es == [] then [] else
      var (init, e) := (Redacted(cfg, es[..|es| - 1], tenant, prefix), es[|es| - 1]);
      if !Targeted(tenant, prefix, e) then init + [e]
      else if e.tier == Tier3 && e.grade == Operational then init
      else init + [Tombstoned(cfg, e)]
  }

  /** A blank run means every run; a blank tenant is refused. */
  ghost function DeleteByDSAR(cfg: EvidenceConfig, ev: Evidence, tenant: string, run: string, prefix: string): Evidence {
    if tenant == "" then ev
    else Rebuild(cfg, ev.(runs := map r | r in ev.runs ::
      if run == "" || r == run then ev.runs[r].(events := Redacted(cfg, ev.runs[r].events, tenant, prefix)) else ev.runs[r]))
  }

  // ----- Retention -----

  /** The events whose age is over `min`, if given, and at most `max`, if given. */
  predicate Aged(e: Event, now: int, min: int, max: int) {
    min < now - e.ts <= max
  }

  function Pick(es: seq<Event>, now: int, min: int, max: int): seq<Event> {
    if es == [] then [] else
      var e := es[|es| - 1];
      Pick(es[..|es| - 1], now, min, max) + if Aged(e, now, min, max) then [e] else []
  }

  predicate Young(e: Event, now: int, max: int) {
    now - e.ts <= max
  }

  function Keep(es: seq<Event>, now: int, max: int): seq<Event> {
    if es == [] then [] else
      var e := es[|es| - 1];
      Keep(es[..|es| - 1], now, max) + if Young(e, now, max) then [e] else []
  }

  function HotOf(ev: Evidence, r: string): seq<Event> {
    DataAt(ev.runs, r).events
  }

  function WarmOf(ev: Evidence, r: string): seq<Event> {
    if r in ev.warm then ev.warm[r] else []
  }

  function ColdOf(ev: Evidence, r: string): seq<Event> {
    if r in ev.cold then ev.cold[r] else []
  }

  /** Warm events past their time move to cold, cold events past theirs go; then hot events past theirs move by age. */
  function WarmAfter(cfg: EvidenceConfig, ev: Evidence, r: string, now: int): seq<Event> {
    Keep(WarmOf(ev, r), now, cfg.warmRetention) + Pick(HotOf(ev, r), now, cfg.eventRetention, cfg.warmRetention)
  }

  function RotatedCold(cfg: EvidenceConfig, ev: Evidence, r: string, now: int): seq<Event> {
    Keep(ColdOf(ev, r) + Pick(WarmOf(ev, r), now, cfg.warmRetention, cfg.coldRetention), now, cfg.coldRetention)
  }

  function ColdAfter(cfg: EvidenceConfig, ev: Evidence, r: string, now: int): seq<Event> {
    RotatedCold(cfg, ev, r, now) + Pick(HotOf(ev, r), now, cfg.warmRetention, cfg.coldRetention)
  }

  function Archived(cfg: EvidenceConfig, ev: Evidence, now: int): Evidence {
    ev.(runs := map r | r in ev.runs && Keep(HotOf(ev, r), now, cfg.eventRetention) != [] ::
          ev.runs[r].(events := Keep(HotOf(ev, r), now, cfg.eventRetention)),
        warm := map r | r in ev.warm.Keys + ev.runs.Keys && WarmAfter(cfg, ev, r, now) != [] :: WarmAfter(cfg, ev, r, now),
        cold := map r | r in ev.cold.Keys + ev.warm.Keys + ev.runs.Keys && ColdAfter(cfg, ev, r, now) != [] :: ColdAfter(cfg, ev, r, now))
  }

  ghost function SweepRetention(cfg: EvidenceConfig, ev: Evidence, now: int): Evidence {
    Rebuild(cfg, Archived(cfg, ev, now))
  }
}
