/** What publish, rollback and the scheduler do to a key and to every other, told on well-formed maps. */
module ContractRules {
  import opened Outcomes
  import opened Checks
  import opened ContractSpec
  import opened ContractOrder
  import opened ContractInvariants

  /** The maps say the same about the key. */
  ghost predicate SameKey(m: Contracts, m': Contracts, key: StorageKey) {
    && History(m', key) == History(m, key) && ActiveOf(m', key) == ActiveOf(m, key) && Scheduled(m', key) == Scheduled(m, key)
    && Rollbacks(m', key) == Rollbacks(m, key) && (key in m'.meta <==> key in m.meta) && (key in m.meta ==> m'.meta[key] == m.meta[key])
  }

  function OrAny(phase: string): string {
    if phase == "" then "*" else phase
  }

  lemma KeyNumbered(cfg: ContractConfig, m: Contracts, key: StorageKey)
    requires WellFormed(cfg, m)
    ensures Numbered(History(m, key)) && NextVersion(History(m, key)) == |History(m, key)| + 1
  {
    assert KeyOk(cfg, History(m, key), ActiveOf(m, key), Scheduled(m, key));
  }

  // ----- A version that is active at once -----

  /** One more version, the active one; the one that was is superseded and no other is touched. */
  ghost predicate Enforces(h: seq<Version>, h': seq<Version>, v: Version) {
    && |h'| == |h| + 1 && h'[|h|] == v && v.version == |h| + 1 && v.status == ActiveVersion
    && forall i :: 0 <= i < |h| ==> h'[i] == if h[i].status == ActiveVersion then h[i].(status := SupersededVersion) else h[i]
  }

  /** The version is the active one of its key, and no other key changes. */
  ghost predicate Adopts(m: Contracts, m': Contracts, key: StorageKey, v: Version, now: int) {
    && Enforces(History(m, key), History(m', key), v.(activationAt := now)) && ActiveOf(m', key) == Some(v.contract)
    && Scheduled(m', key) == Scheduled(m, key) && key in m'.meta && m'.meta[key] == now && m'.rollbacks == m.rollbacks
    && forall x :: x != key ==> SameKey(m, m', x)
  }

  lemma AdoptDoes(cfg: ContractConfig, m: Contracts, key: StorageKey, v: Version, now: int)
    requires WellFormed(cfg, m) && v.version == NextVersion(History(m, key)) && v.status == ActiveVersion
    ensures Adopts(m, Adopt(m, key, v, now), key, v, now)
  {
    hide WellFormed, SetActive, Enforces, Numbered;
    KeyNumbered(cfg, m, key);
    AdoptedHistory(History(m, key), v, now);
  }

  lemma AdoptedHistory(h: seq<Version>, v: Version, now: int)
    requires Numbered(h) && v.version == NextVersion(h) && v.status == ActiveVersion
    ensures Enforces(h, SetActive(h + [v], v.version, now), v.(activationAt := now))
  {
  }

  // ----- Rollback -----

  /** Where in the history the version rolled back to stands: the one named, or the one before the latest. */
  function TargetAt(h: seq<Version>, targetVersion: int): int {
    if targetVersion > 0 then targetVersion - 1 else |h| - 2
  }

  function RollbackChecks(m: Contracts, req: RollbackRequest): seq<(bool, ContractError)> {
    var h := History(m, StorageKey(req.scope, req.risk, OrAny(req.phase)));
    [(req.risk != "", RiskRequired),
     (req.phase in ["", "PRE_CONTEXT", "PRE_TOOL", "PRE_RESUME", "PRE_RELEASE", "*"], PhaseInvalid),
     (req.reason != "", ReasonRequired),
     (h != [], HistoryNotFound),
     (req.targetVersion <= |h|, TargetNotFound),
     (req.targetVersion > 0 || |h| >= 2, NoPreviousVersion)]
  }

  lemma {:induction false} FindVersionIs(h: seq<Version>, from: nat, version: int)
    requires from <= |h| && Numbered(h) && version > from
    ensures FindVersion(h[from..], version) == if version <= |h| then Some(h[version - 1]) else None
    decreases |h| - from
  {
    if from < |h| && version != from + 1 {
      assert h[from..][1..] == h[from + 1..];
      FindVersionIs(h, from + 1, version);
    }
  }

  lemma RollbackTargetIs(h: seq<Version>, targetVersion: int)
    requires Numbered(h)
    ensures RollbackTarget(h, targetVersion) ==
      if h == [] then Err(HistoryNotFound)
      else if targetVersion > |h| then Err(TargetNotFound)
      else if targetVersion <= 0 && |h| < 2 then Err(NoPreviousVersion)
      else Ok(h[TargetAt(h, targetVersion)])
  {
    hide Numbered;
    assert h[0..] == h;
    if targetVersion > 0 { FindVersionIs(h, 0, targetVersion); }
  }

  /** The content rolled back to is the next version and the active one, the rollback is recorded, and no other key changes. */
  ghost predicate RolledBack(cfg: ContractConfig, m: Contracts, m': Contracts, req: RollbackRequest, now: int) {
    var key := StorageKey(req.scope, req.risk, OrAny(req.phase));
    var h := History(m, key);
    && 0 <= TargetAt(h, req.targetVersion) < |h|
    && var (current, t) := (h[|h| - 1], h[TargetAt(h, req.targetVersion)]);
    && Enforces(h, History(m', key), Version(|h| + 1, t.contract, cfg.hash(t.contract), ActiveVersion, now, "rollback:" + req.reason, req.actor, now))
    && ActiveOf(m', key) == Some(t.contract) && Scheduled(m', key) == Scheduled(m, key) && key in m'.meta && m'.meta[key] == now
    && Rollbacks(m', key) == Rollbacks(m, key) + [RollbackRecord(|h|, TargetAt(h, req.targetVersion) + 1, current.contract.required, t.contract.required,
                                                                 current.hash, t.hash, req.reason, req.actor, now)]
    && forall x :: x != key ==> SameKey(m, m', x)
  }

  /** A rollback is refused with the first check that fails; otherwise it goes to the version named, or the one before the latest. */
  lemma RollbackDoes(cfg: ContractConfig, m: Contracts, req: RollbackRequest, now: int)
    requires WellFormed(cfg, m)
    ensures var r := Rollback(cfg, m, req, now);
      if !AllPass(RollbackChecks(m, req)) then r.Err? && Reports(RollbackChecks(m, req), Some(r.error))
      else r.Ok? && RolledBack(cfg, m, r.value, req, now)
  {
    var key := StorageKey(req.scope, req.risk, OrAny(req.phase));
    var h := History(m, key);
    assert KeyOk(cfg, h, ActiveOf(m, key), Scheduled(m, key));
    RollbackTargetIs(h, req.targetVersion);
    var checks := RollbackChecks(m, req);
    hide WellFormed, KeyOk, RollbackTarget, Reports, AllPass, Adopt, RolledBack;
    if !checks[0].0 { FirstFails(checks, 0); }
    else if !checks[1].0 { FirstFails(checks, 1); }
    else if !checks[2].0 { FirstFails(checks, 2); }
    else if !checks[3].0 { FirstFails(checks, 3); }
    else if !checks[4].0 { FirstFails(checks, 4); }
    else if !checks[5].0 { FirstFails(checks, 5); }
    else {
      SixPass(checks);
      RollbackTakes(cfg, m, req, now);
    }
  }

  lemma RollbackTakes(cfg: ContractConfig, m: Contracts, req: RollbackRequest, now: int)
    requires WellFormed(cfg, m) && req.risk != "" && req.reason != "" && (req.phase == "" || req.phase in PHASES)
    requires var h := History(m, StorageKey(req.scope, req.risk, OrAny(req.phase)));
      h != [] && req.targetVersion <= |h| && (req.targetVersion > 0 || |h| >= 2)
    ensures Rollback(cfg, m, req, now).Ok? && RolledBack(cfg, m, Rollback(cfg, m, req, now).value, req, now)
  {
    hide WellFormed, RollbackTarget, Enforces, Adopts, NextVersion, Adopt;
    var key := StorageKey(req.scope, req.risk, OrAny(req.phase));
    var h := History(m, key);
    KeyNumbered(cfg, m, key);
    RollbackTargetIs(h, req.targetVersion);
    var t := h[TargetAt(h, req.targetVersion)];
    var v := Version(|h| + 1, t.contract, cfg.hash(t.contract), ActiveVersion, now, "rollback:" + req.reason, req.actor, now);
    assert h[|h| - 1].version == |h| && t.version == TargetAt(h, req.targetVersion) + 1;
    hide Numbered;
    AdoptDoes(cfg, m, key, v, now);
    var record := RollbackRecord(|h|, TargetAt(h, req.targetVersion) + 1, h[|h| - 1].contract.required, t.contract.required,
                                 h[|h| - 1].hash, t.hash, req.reason, req.actor, now);
    assert Rollback(cfg, m, req, now) == Ok(Adopt(m, key, v, now).(rollbacks := m.rollbacks[key := Rollbacks(m, key) + [record]]));
    RecordDoes(m, Adopt(m, key, v, now), key, v, now, record);
  }

  lemma RecordDoes(m: Contracts, a: Contracts, key: StorageKey, v: Version, now: int, record: RollbackRecord)
    requires Adopts(m, a, key, v, now)
    ensures var m' := a.(rollbacks := m.rollbacks[key := Rollbacks(m, key) + [record]]);
      && Enforces(History(m, key), History(m', key), v.(activationAt := now)) && ActiveOf(m', key) == Some(v.contract)
      && Scheduled(m', key) == Scheduled(m, key) && key in m'.meta && m'.meta[key] == now
      && Rollbacks(m', key) == Rollbacks(m, key) + [record]
      && forall x :: x != key ==> SameKey(m, m', x)
  {
    hide Enforces;
    var m' := a.(rollbacks := m.rollbacks[key := Rollbacks(m, key) + [record]]);
    forall x | x != key ensures SameKey(m, m', x) { assert SameKey(m, a, x); }
  }

  // ----- Publish -----

  function RequestChecks(req: PublishRequest): seq<(bool, ContractError)> {
    [(req.risk != "", RiskRequired),
     (req.risk in ["low", "medium", "high", "critical", "*"], RiskInvalid),
     (req.phase in ["", "PRE_CONTEXT", "PRE_TOOL", "PRE_RESUME", "PRE_RELEASE", "*"], PhaseInvalid),
     (req.contract.required != [], FieldsRequired),
     (forall f :: f in req.contract.required ==> f in ["feature_version", "feature_schema_version", "feature_evidence_ref", "feature_producer_id"], FieldsInvalid),
     (req.contract.maxFreshness >= 0, FreshnessInvalid),
     (req.contract.maxDrift >= 0.0, DriftInvalid),
     (req.reason != "", ReasonRequired)]
  }

  /** Unless it may break, a publish is held against the contract its key enforces. */
  function BreakingChecks(cfg: ContractConfig, m: Contracts, req: PublishRequest): seq<(bool, ContractError)> {
    var active := ActiveOf(m, StorageKey(req.scope, req.risk, OrAny(req.phase)));
    [(req.allowBreaking || active.None? || KeepsFields(active.value, req.contract), BreakingChange),
     (req.allowBreaking || active.None? || KeepsMajor(cfg, active.value, req.contract), SchemaBreakingChange)]
  }

  /** Every field required before is required still. */
  predicate KeepsFields(was: Contract, next: Contract) {
    forall f :: f in was.required ==> f in next.required
  }

  /** Unless one of the two schema versions has no major number, they have the same. */
  predicate KeepsMajor(cfg: ContractConfig, was: Contract, next: Contract) {
    cfg.schemaMajor(was.schema).None? || cfg.schemaMajor(next.schema).None? || cfg.schemaMajor(was.schema) == cfg.schemaMajor(next.schema)
  }

  /** The contract is the next version of its key: the active one if it is due, else one to come; no other key changes. */
  ghost predicate Published(cfg: ContractConfig, m: Contracts, m': Contracts, req: PublishRequest, now: int) {
    var key := StorageKey(req.scope, req.risk, OrAny(req.phase));
    var (h, at) := (History(m, key), if req.activateAt == 0 then now else req.activateAt);
    var v := Version(|h| + 1, req.contract, cfg.hash(req.contract), ActiveVersion, now, req.reason, req.actor, now);
    && Rollbacks(m', key) == Rollbacks(m, key)
    && (forall x :: x != key ==> SameKey(m, m', x))
    && (if at <= now then
          && Enforces(h, History(m', key), v) && ActiveOf(m', key) == Some(req.contract) && Scheduled(m', key) == Scheduled(m, key)
          && key in m'.meta && m'.meta[key] == now
        else
          && History(m', key) == h + [v.(status := ScheduledVersion, activationAt := at)] && ActiveOf(m', key) == ActiveOf(m, key)
          && Scheduled(m', key) == Scheduled(m, key) + [v.(status := ScheduledVersion, activationAt := at)] && m'.meta == m.meta)
  }

  lemma PublishTakes(cfg: ContractConfig, m: Contracts, req: PublishRequest, now: int)
    requires WellFormed(cfg, m) && RequestError(req).None? && CompatibilityError(cfg, m, req).None?
    ensures Publish(cfg, m, req, now).Ok? && Published(cfg, m, Publish(cfg, m, req, now).value, req, now)
  {
    hide WellFormed, RequestError, CompatibilityError, NextVersion, Numbered, Adopt, Enforces, Schedule;
    var key := StorageKey(req.scope, req.risk, OrAny(req.phase));
    KeyNumbered(cfg, m, key);
    var v := PublishedVersion(cfg, m, req, now);
    if v.activationAt <= now { AdoptDoes(cfg, m, key, v, now); } else { ScheduleDoes(m, key, v); }
  }

  lemma ScheduleDoes(m: Contracts, key: StorageKey, v: Version)
    ensures var m' := Schedule(m, key, v);
      && History(m', key) == History(m, key) + [v] && Scheduled(m', key) == Scheduled(m, key) + [v] && ActiveOf(m', key) == ActiveOf(m, key)
      && m'.meta == m.meta && m'.rollbacks == m.rollbacks && forall x :: x != key ==> SameKey(m, m', x)
  {
  }

  /** A publish is refused with the first check that fails; without leave to break, it then keeps every required field and the schema's major. */
  lemma PublishDoes(cfg: ContractConfig, m: Contracts, req: PublishRequest, now: int)
    requires WellFormed(cfg, m)
    ensures var r := Publish(cfg, m, req, now);
      if !AllPass(RequestChecks(req)) then r.Err? && Reports(RequestChecks(req), Some(r.error))
      else if !AllPass(BreakingChecks(cfg, m, req)) then r.Err? && Reports(BreakingChecks(cfg, m, req), Some(r.error))
      else r.Ok? && Published(cfg, m, r.value, req, now)
  {
    RequestReports(req);
    BreakingReports(cfg, m, req);
    hide RequestError, CompatibilityError, Reports, AllPass, RequestChecks, BreakingChecks, WellFormed, Published;
    if AllPass(RequestChecks(req)) && AllPass(BreakingChecks(cfg, m, req)) { PublishTakes(cfg, m, req, now); }
  }

  lemma RequestReports(req: PublishRequest)
    ensures if AllPass(RequestChecks(req)) then RequestError(req).None?
            else RequestError(req).Some? && Reports(RequestChecks(req), RequestError(req))
  {
    var checks := RequestChecks(req);
    hide Reports, AllPass;
    if !checks[0].0 { FirstFails(checks, 0); }
    else if !checks[1].0 { FirstFails(checks, 1); }
    else if !checks[2].0 { FirstFails(checks, 2); }
    else if !checks[3].0 { FirstFails(checks, 3); }
    else if !checks[4].0 { FirstFails(checks, 4); }
    else if !checks[5].0 { FirstFails(checks, 5); }
    else if !checks[6].0 { FirstFails(checks, 6); }
    else if !checks[7].0 { FirstFails(checks, 7); }
    else { EightPass(checks); }
  }

  lemma BreakingReports(cfg: ContractConfig, m: Contracts, req: PublishRequest)
    ensures if AllPass(BreakingChecks(cfg, m, req)) then CompatibilityError(cfg, m, req).None?
            else CompatibilityError(cfg, m, req).Some? && Reports(BreakingChecks(cfg, m, req), CompatibilityError(cfg, m, req))
  {
    var checks := BreakingChecks(cfg, m, req);
    hide Reports, AllPass;
    if !checks[0].0 { FirstFails(checks, 0); } else if !checks[1].0 { FirstFails(checks, 1); } else { TwoPass(checks); }
  }

  // ----- The scheduler -----

  /** The version is due and no due one comes after it, in time or, at the same time, in number. */
  ghost predicate LastDue(scheduled: seq<Version>, now: int, v: Version) {
    && v in scheduled && v.activationAt <= now
    && forall u :: u in scheduled && u.activationAt <= now && u != v ==>
         u.activationAt < v.activationAt || (u.activationAt == v.activationAt && u.version < v.version)
  }

  ghost predicate IsDue(scheduled: seq<Version>, now: int, version: int) {
    exists u :: u in scheduled && u.activationAt <= now && u.version == version
  }

  /** What becomes of one entry when `last` is the last of the due versions. */
  ghost predicate EntryAfter(scheduled: seq<Version>, now: int, last: Version, x: Version, x': Version) {
    && x'.(status := x.status, activationAt := x.activationAt) == x
    && (if x.version == last.version then x'.status == ActiveVersion && x'.activationAt == now
        else if IsDue(scheduled, now, x.version) then x'.status == SupersededVersion
        else x' == if x.status == ActiveVersion then x.(status := SupersededVersion) else x)
  }

  predicate Holds(items: seq<Version>, version: int) {
    exists n :: 0 <= n < |items| && items[n].version == version
  }

  lemma {:induction false} ActivatedStatus(h: seq<Version>, items: seq<Version>, now: int, i: nat)
    requires items != [] && i < |h|
    ensures |ActivateAll(h, items, now)| == |h|
    ensures var (x, x', last) := (h[i], ActivateAll(h, items, now)[i], items[|items| - 1]);
      && x'.(status := x.status, activationAt := x.activationAt) == x
      && (if x.version == last.version then x'.status == ActiveVersion && x'.activationAt == now
          else if Holds(items, x.version) then x'.status == SupersededVersion
          else x' == if x.status == ActiveVersion then x.(status := SupersededVersion) else x)
  {
    var init, last := items[..|items| - 1], items[|items| - 1];
    assert items == init + [last];
    if init == [] {
      assert ActivateAll(h, init, now) == h;
    } else {
      ActivatedStatus(h, init, now, i);
      var version := h[i].version;
      assert Holds(items, version) <==> Holds(init, version) || version == last.version by {
        if Holds(init, version) { var n :| 0 <= n < |init| && init[n].version == version; assert items[n].version == version; }
        if Holds(items, version) {
          var n :| 0 <= n < |items| && items[n].version == version;
          if n < |init| { assert init[n].version == version; }
        }
        assert items[|init|].version == last.version;
      }
      assert Holds(init, init[|init| - 1].version);
    }
  }

  lemma DueIs(scheduled: seq<Version>, now: int)
    requires Distinct(scheduled)
    ensures var due := Due(Sorted(scheduled), now);
      && (forall x :: x in due <==> x in scheduled && x.activationAt <= now)
      && (due != [] ==> LastDue(scheduled, now, due[|due| - 1]))
      && (forall x :: x in Remaining(Sorted(scheduled), now) <==> x in scheduled && x.activationAt > now)
  {
    hide Sorted, Due, Remaining;
    SortedKeeps(scheduled);
    SortedOrders(scheduled);
    SplitMembers(Sorted(scheduled), now);
    RemainingOrdered(Sorted(scheduled), now);
    var due := Due(Sorted(scheduled), now);
    if due != [] {
      var v := due[|due| - 1];
      forall u | u in scheduled && u.activationAt <= now && u != v ensures Earlier(u, v) {
        assert u in due;
        var n :| 0 <= n < |due| && due[n] == u;
      }
    }
  }

  /** A key before and after the scheduler ran: what was not due is still scheduled, and the last due version is the active one. */
  ghost predicate KeyActivated(h: seq<Version>, active: Option<Contract>, s: seq<Version>, now: int,
                               h': seq<Version>, active': Option<Contract>, s': seq<Version>) {
    && (forall x :: x in s' <==> x in s && x.activationAt > now)
    && (!AnyDue(s, now) ==> h' == h && active' == active)
    && (AnyDue(s, now) ==> exists v :: LastDue(s, now, v) && active' == Some(v.contract) && HistoryAfter(s, now, v, h, h'))
  }

  ghost predicate Activated(m: Contracts, m': Contracts, now: int, key: StorageKey) {
    && KeyActivated(History(m, key), ActiveOf(m, key), Scheduled(m, key), now, History(m', key), ActiveOf(m', key), Scheduled(m', key))
    && Rollbacks(m', key) == Rollbacks(m, key)
    && (key in m'.meta && (AnyDue(Scheduled(m, key), now) || key in m.meta) ==>
          m'.meta[key] == if AnyDue(Scheduled(m, key), now) then now else m.meta[key])
  }

  ghost predicate AnyDue(scheduled: seq<Version>, now: int) {
    exists u :: u in scheduled && u.activationAt <= now
  }

  ghost predicate HistoryAfter(scheduled: seq<Version>, now: int, last: Version, h: seq<Version>, h': seq<Version>) {
    |h'| == |h| && forall i :: 0 <= i < |h| ==> EntryAfter(scheduled, now, last, h[i], h'[i])
  }

  lemma SchedulerDoes(cfg: ContractConfig, m: Contracts, now: int, key: StorageKey)
    requires WellFormed(cfg, m)
    ensures Activated(m, RunScheduler(m, now), now, key)
  {
    hide WellFormed, Activated, ApplyDue, Sorted, Due, Remaining, ActivateAll;
    ScheduleDistinct(cfg, m, key);
    if DueKeys(m, now) == {} {
      NoDueKeys(m, now, key);
      NotActivated(m, now, key);
    } else {
      DueHasHistory(cfg, m, now, key);
      ApplyDueActivates(m, now, key);
    }
  }

  lemma ApplyDueActivates(m: Contracts, now: int, key: StorageKey)
    requires Distinct(Scheduled(m, key)) && (key in m.history || DueOf(m, key, now) == [])
    ensures Activated(m, ApplyDue(m, now), now, key)
  {
    hide ApplyDue, Sorted, Due, Remaining, ActivateAll, KeyActivated, AnyDue, Distinct, DueKeys;
    ApplyDueAt(m, now, key);
    ApplyDueLeaves(m, now, key);
    DueKeysAre(m, now, key);
    ActivatedKey(History(m, key), ActiveOf(m, key), Scheduled(m, key), now, DueOf(m, key, now), RemainingOf(m, key, now));
  }

  lemma ScheduleDistinct(cfg: ContractConfig, m: Contracts, key: StorageKey)
    requires WellFormed(cfg, m)
    ensures Distinct(Scheduled(m, key))
  {
    assert KeyOk(cfg, History(m, key), ActiveOf(m, key), Scheduled(m, key));
  }

  lemma ApplyDueLeaves(m: Contracts, now: int, key: StorageKey)
    ensures var m' := ApplyDue(m, now);
      && m'.rollbacks == m.rollbacks
      && (key in m'.meta ==> if key in DueKeys(m, now) then m'.meta[key] == now else key in m.meta && m'.meta[key] == m.meta[key])
  {
    hide DueOf, RemainingOf, ActivateAll;
  }

  lemma DueKeysAre(m: Contracts, now: int, key: StorageKey)
    requires Distinct(Scheduled(m, key))
    ensures key in DueKeys(m, now) <==> AnyDue(Scheduled(m, key), now)
  {
    DueIs(Scheduled(m, key), now);
    hide Sorted, Due, Remaining, LastDue;
    if DueOf(m, key, now) != [] { assert DueOf(m, key, now)[0] in DueOf(m, key, now); }
    if key !in m.scheduled { assert Scheduled(m, key) == []; }
  }

  lemma NotActivated(m: Contracts, now: int, key: StorageKey)
    requires DueOf(m, key, now) == [] && Distinct(Scheduled(m, key))
    ensures Activated(m, m, now, key)
  {
    hide Sorted, Due, Remaining;
    DueIs(Scheduled(m, key), now);
    assert !AnyDue(Scheduled(m, key), now);
  }

  lemma NoDueKeys(m: Contracts, now: int, key: StorageKey)
    requires DueKeys(m, now) == {}
    ensures DueOf(m, key, now) == []
  {
    if key in m.scheduled { assert key !in DueKeys(m, now); } else { NothingDue(now); }
  }

  lemma ActivatedKey(h: seq<Version>, active: Option<Contract>, s: seq<Version>, now: int, due: seq<Version>, rest: seq<Version>)
    requires Distinct(s) && due == Due(Sorted(s), now) && rest == Remaining(Sorted(s), now)
    ensures KeyActivated(h, active, s, now, ActivateAll(h, due, now), if due == [] then active else Some(due[|due| - 1].contract), rest)
  {
    hide Sorted, Due, Remaining, ActivateAll, Distinct, LastDue, KeyActivated;
    DueIs(s, now);
    if due == [] { NothingActivated(h, now); NoneActivated(h, active, s, now, rest); } else { SomeActivated(h, active, s, now, due, rest); }
  }

  lemma NoneActivated(h: seq<Version>, active: Option<Contract>, s: seq<Version>, now: int, rest: seq<Version>)
    requires forall x :: !(x in s && x.activationAt <= now)
    requires forall x :: x in rest <==> x in s && x.activationAt > now
    ensures KeyActivated(h, active, s, now, h, active, rest)
  {
  }

  lemma SomeActivated(h: seq<Version>, active: Option<Contract>, s: seq<Version>, now: int, due: seq<Version>, rest: seq<Version>)
    requires due != [] && LastDue(s, now, due[|due| - 1]) && forall x :: x in due <==> x in s && x.activationAt <= now
    requires forall x :: x in rest <==> x in s && x.activationAt > now
    ensures KeyActivated(h, active, s, now, ActivateAll(h, due, now), Some(due[|due| - 1].contract), rest)
  {
    ActivatedEntries(h, s, due, now);
    assert AnyDue(s, now) by { assert due[|due| - 1] in s; }
    hide ActivateAll, HistoryAfter, LastDue, AnyDue;
  }

  lemma ActivatedEntries(h: seq<Version>, s: seq<Version>, due: seq<Version>, now: int)
    requires due != [] && forall x :: x in due <==> x in s && x.activationAt <= now
    ensures HistoryAfter(s, now, due[|due| - 1], h, ActivateAll(h, due, now))
  {
    hide ActivateAll;
    if h != [] { ActivatedStatus(h, due, now, 0); } else { ActivatedNone(due, now); }
    forall i | 0 <= i < |h| ensures EntryAfter(s, now, due[|due| - 1], h[i], ActivateAll(h, due, now)[i]) {
      ActivatedStatus(h, due, now, i);
      DueHolds(s, now, due, h[i].version);
      hide Holds, IsDue;
    }
  }

  lemma {:induction false} ActivatedNone(items: seq<Version>, now: int)
    ensures ActivateAll([], items, now) == []
  {
    if items != [] { ActivatedNone(items[..|items| - 1], now); }
  }

  lemma DueHolds(s: seq<Version>, now: int, due: seq<Version>, version: int)
    requires forall x :: x in due <==> x in s && x.activationAt <= now
    ensures Holds(due, version) <==> IsDue(s, now, version)
  {
    if Holds(due, version) { var n :| 0 <= n < |due| && due[n].version == version; assert due[n] in due; }
    if IsDue(s, now, version) {
      var u :| u in s && u.activationAt <= now && u.version == version;
      var n :| 0 <= n < |due| && due[n] == u;
    }
  }
}
