/**
 * Versioned feature signal contracts: the five maps of a snapshot, and publish, rollback and the activation of due
 * versions as functions on them. Requests are normalised; a storage key is the tuple it joins.
 */
module ContractSpec {
  import opened Outcomes
  import opened Totals

  datatype Scope = Scope(org: string, workspace: string, project: string)

  datatype StorageKey = StorageKey(scope: Scope, risk: string, phase: string)

  datatype Contract = Contract(required: seq<string>, schema: string, producers: seq<string>, maxFreshness: int, maxDrift: real)

  datatype VersionStatus = ActiveVersion | SupersededVersion | ScheduledVersion

  datatype Version = Version(
    version: int, contract: Contract, hash: string, status: VersionStatus,
    activationAt: int, reason: string, actor: string, createdAt: int)

  datatype RollbackRecord = RollbackRecord(
    previousVersion: int, targetVersion: int, previousRequired: seq<string>, targetRequired: seq<string>,
    previousHash: string, targetHash: string, reason: string, actor: string, createdAt: int)

  datatype Contracts = Contracts(
    active: map<StorageKey, Contract>,
    meta: map<StorageKey, int>,
    history: map<StorageKey, seq<Version>>,
    rollbacks: map<StorageKey, seq<RollbackRecord>>,
    scheduled: map<StorageKey, seq<Version>>)

  const NO_CONTRACTS := Contracts(map[], map[], map[], map[], map[])

  /** The content hash (blank if it fails), and the major number of a schema version, if it has one. */
  datatype ContractConfig = ContractConfig(hash: Contract -> string, schemaMajor: string -> Option<nat>)

  datatype ContractError =
    | RiskRequired | RiskInvalid | PhaseInvalid | FieldsRequired | FieldsInvalid | FreshnessInvalid | DriftInvalid | ReasonRequired
    | BreakingChange | SchemaBreakingChange | HistoryNotFound | TargetNotFound | NoPreviousVersion | StoreSyncFailed

  datatype PublishRequest = PublishRequest(
    scope: Scope, risk: string, phase: string, contract: Contract, reason: string, actor: string,
    activateAt: int, allowBreaking: bool)

  datatype RollbackRequest = RollbackRequest(
    scope: Scope, risk: string, phase: string, targetVersion: int, reason: string, actor: string)

  const RISKS := ["low", "medium", "high", "critical", "*"]
  const PHASES := ["PRE_CONTEXT", "PRE_TOOL", "PRE_RESUME", "PRE_RELEASE", "*"]
  const FIELDS := ["feature_version", "feature_schema_version", "feature_evidence_ref", "feature_producer_id"]

  function History(m: Contracts, key: StorageKey): seq<Version> {
    if key in m.history then m.history[key] else []
  }

  function Scheduled(m: Contracts, key: StorageKey): seq<Version> {
    if key in m.scheduled then m.scheduled[key] else []
  }

  function Rollbacks(m: Contracts, key: StorageKey): seq<RollbackRecord> {
    if key in m.rollbacks then m.rollbacks[key] else []
  }

  function NextVersion(h: seq<Version>): int {
    if h == [] then 1 else h[|h| - 1].version + 1
  }

  // ----- The active version -----

  function Marked(x: Version, version: int, at: int): Version {
    if x.version == version then x.(status := ActiveVersion, activationAt := at)
    else if x.status == ActiveVersion then x.(status := SupersededVersion)
    else x
  }

  /** One version becomes the active one; the one that was is superseded. */
  function SetActive(h: seq<Version>, version: int, at: int): (r: seq<Version>)
    ensures |r| == |h| && forall i :: 0 <= i < |h| ==> r[i] == Marked(h[i], version, at)
  {
    seq(|h|, i requires 0 <= i < |h| => Marked(h[i], version, at))
  }

  // ----- Publish -----

  predicate Removes(was: seq<string>, next: seq<string>) {
    exists f :: f in was && f !in next
  }

  predicate SchemaBreaks(cfg: ContractConfig, was: string, next: string) {
    cfg.schemaMajor(was).Some? && cfg.schemaMajor(next).Some? && cfg.schemaMajor(was) != cfg.schemaMajor(next)
  }

  function KeyOf(scope: Scope, risk: string, phase: string): StorageKey {
    StorageKey(scope, risk, if phase == "" then "*" else phase)
  }

  function RequestError(req: PublishRequest): Option<ContractError> {
    if req.risk == "" then Some(RiskRequired)
    else if req.risk !in RISKS then Some(RiskInvalid)
    else if req.phase != "" && req.phase !in PHASES then Some(PhaseInvalid)
    else if req.contract.required == [] then Some(FieldsRequired)
    else if exists f :: f in req.contract.required && f !in FIELDS then Some(FieldsInvalid)
    else if req.contract.maxFreshness < 0 then Some(FreshnessInvalid)
    else if req.contract.maxDrift < 0.0 then Some(DriftInvalid)
    else if req.reason == "" then Some(ReasonRequired)
    else None
  }

  function CompatibilityError(cfg: ContractConfig, m: Contracts, req: PublishRequest): Option<ContractError> {
    var key := KeyOf(req.scope, req.risk, req.phase);
    if key !in m.active || req.allowBreaking then None
    else if Removes(m.active[key].required, req.contract.required) then Some(BreakingChange)
    else if SchemaBreaks(cfg, m.active[key].schema, req.contract.schema) then Some(SchemaBreakingChange)
    else None
  }

  function ActivationTime(req: PublishRequest, now: int): int {
    if req.activateAt == 0 then now else req.activateAt
  }

  function PublishedVersion(cfg: ContractConfig, m: Contracts, req: PublishRequest, now: int): Version {
    var at := ActivationTime(req, now);
    Version(NextVersion(History(m, KeyOf(req.scope, req.risk, req.phase))), req.contract, cfg.hash(req.contract),
            if at > now then ScheduledVersion else ActiveVersion, at, req.reason, req.actor, now)
  }

  /** A version to come is noted in history and schedule. */
  function Schedule(m: Contracts, key: StorageKey, v: Version): Contracts {
    m.(scheduled := m.scheduled[key := Scheduled(m, key) + [v]], history := m.history[key := History(m, key) + [v]])
  }

  /** A version that is due at once is noted in history and made the active one. */
  function Adopt(m: Contracts, key: StorageKey, v: Version, now: int): Contracts {
    m.(active := m.active[key := v.contract], meta := m.meta[key := now],
       history := m.history[key := SetActive(History(m, key) + [v], v.version, now)])
  }

  function Publish(cfg: ContractConfig, m: Contracts, req: PublishRequest, now: int): Result<Contracts, ContractError> {
    if RequestError(req).Some? then Err(RequestError(req).value)
    else if CompatibilityError(cfg, m, req).Some? then Err(CompatibilityError(cfg, m, req).value)
    else
      var key, v := KeyOf(req.scope, req.risk, req.phase), PublishedVersion(cfg, m, req, now);
      if v.activationAt > now then Ok(Schedule(m, key, v)) else Ok(Adopt(m, key, v, now))
  }

  // ----- Rollback -----

  /** The first entry of that version. */
  function FindVersion(h: seq<Version>, version: int): Option<Version> {
    if h == [] then None else if h[0].version == version then Some(h[0]) else FindVersion(h[1..], version)
  }

  function RollbackTarget(h: seq<Version>, targetVersion: int): Result<Version, ContractError> {
    if h == [] then Err(HistoryNotFound)
    else if targetVersion > 0 then
      if FindVersion(h, targetVersion).Some? then Ok(FindVersion(h, targetVersion).value) else Err(TargetNotFound)
    else if |h| < 2 then Err(NoPreviousVersion)
    else Ok(h[|h| - 2])
  }

  function Rollback(cfg: ContractConfig, m: Contracts, req: RollbackRequest, now: int): Result<Contracts, ContractError> {
    if req.risk == "" then Err(RiskRequired)
    else if req.phase != "" && req.phase !in PHASES then Err(PhaseInvalid)
    else if req.reason == "" then Err(ReasonRequired)
    else
      var key := KeyOf(req.scope, req.risk, req.phase);
      var h := History(m, key);
      var target := RollbackTarget(h, req.targetVersion);
      if target.Err? then Err(target.error)
      else
        var (t, current) := (target.value, h[|h| - 1]);
        var v := Version(NextVersion(h), t.contract, cfg.hash(t.contract), ActiveVersion, now, "rollback:" + req.reason, req.actor, now);
        var record := RollbackRecord(current.version, t.version, current.contract.required, t.contract.required,
                                     current.hash, t.hash, req.reason, req.actor, now);
        Ok(Adopt(m, key, v, now).(rollbacks := m.rollbacks[key := Rollbacks(m, key) + [record]]))
  }

  // ----- Scheduled activation -----

  /** Order of activation: by time, and by version for equal times. */
  predicate Earlier(a: Version, b: Version) {
    a.activationAt < b.activationAt || (a.activationAt == b.activationAt && a.version < b.version)
  }

  function InsertVersion(s: seq<Version>, v: Version): seq<Version> {
    if s == [] || Earlier(s[|s| - 1], v) then s + [v] else InsertVersion(s[..|s| - 1], v) + [s[|s| - 1]]
  }

  function Sorted(s: seq<Version>): seq<Version> {
    if s == [] then [] else InsertVersion(Sorted(s[..|s| - 1]), s[|s| - 1])
  }

  function Due(s: seq<Version>, now: int): seq<Version> {
    if s == [] then [] else
      var v := s[|s| - 1];
      Due(s[..|s| - 1], now) + if v.activationAt <= now then [v] else []
  }

  function Remaining(s: seq<Version>, now: int): seq<Version> {
    if s == [] then [] else
      var v := s[|s| - 1];
      Remaining(s[..|s| - 1], now) + if v.activationAt > now then [v] else []
  }

  /** The history after the listed versions became active one after the other. */
  function ActivateAll(h: seq<Version>, items: seq<Version>, now: int): seq<Version> {
    if items == [] then h else SetActive(ActivateAll(h, items[..|items| - 1], now), items[|items| - 1].version, now)
  }

  /** What is due for a key, in order of activation. */
  function DueOf(m: Contracts, key: StorageKey, now: int): seq<Version> {
    Due(Sorted(Scheduled(m, key)), now)
  }

  function RemainingOf(m: Contracts, key: StorageKey, now: int): seq<Version> {
    Remaining(Sorted(Scheduled(m, key)), now)
  }

  function DueKeys(m: Contracts, now: int): set<StorageKey> {
    set key | key in m.scheduled && DueOf(m, key, now) != []
  }

  /** All due versions become active, in order; the last one of a key stays so. */
  function ApplyDue(m: Contracts, now: int): Contracts {
    m.(active := map key | key in m.active.Keys + DueKeys(m, now) ::
         if key in DueKeys(m, now) then DueOf(m, key, now)[|DueOf(m, key, now)| - 1].contract else m.active[key],
       meta := map key | key in m.meta.Keys + DueKeys(m, now) :: if key in DueKeys(m, now) then now else m.meta[key],
       history := map key | key in m.history :: ActivateAll(m.history[key], DueOf(m, key, now), now),
       scheduled := map key | key in m.scheduled && RemainingOf(m, key, now) != [] :: RemainingOf(m, key, now))
  }

  /** The scheduler commits nothing if nothing is due. */
  function RunScheduler(m: Contracts, now: int): Contracts {
    if DueKeys(m, now) == {} then m else ApplyDue(m, now)
  }

  // ----- Counts -----

  function ScheduledLengths(m: Contracts): StorageKey -> nat {
    key => |Scheduled(m, key)|
  }

  function DueLengths(m: Contracts, now: int): StorageKey -> nat {
    key => |DueOf(m, key, now)|
  }

  /** How many versions are scheduled in all. */
  ghost function PendingCount(m: Contracts): nat {
    Sum(m.scheduled.Keys, ScheduledLengths(m))
  }

  /** How many of them are due. */
  ghost function DueCount(m: Contracts, now: int): nat {
    Sum(m.scheduled.Keys, DueLengths(m, now))
  }
}
