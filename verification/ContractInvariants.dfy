/** Every snapshot a kernel may commit is well formed, however stale the maps it started from. */
module ContractInvariants {
  import opened Outcomes
  import opened ContractSpec
  import opened ContractOrder

  // ----- One key -----

  /** Versions count from one. */
  ghost predicate Numbered(h: seq<Version>) {
    forall i :: 0 <= i < |h| ==> h[i].version == i + 1
  }

  ghost predicate Hashed(cfg: ContractConfig, h: seq<Version>) {
    forall i :: 0 <= i < |h| ==> h[i].hash == cfg.hash(h[i].contract)
  }

  ghost predicate OneActive(h: seq<Version>) {
    forall i, j :: 0 <= i < |h| && 0 <= j < |h| && h[i].status == ActiveVersion && h[j].status == ActiveVersion ==> i == j
  }

  /** The enforced contract is the content of the active entry; there is one exactly if there is the other. */
  ghost predicate ActiveOk(h: seq<Version>, active: Option<Contract>) {
    && OneActive(h)
    && (active.Some? <==> exists i :: 0 <= i < |h| && h[i].status == ActiveVersion)
    && (forall i :: 0 <= i < |h| && h[i].status == ActiveVersion ==> active == Some(h[i].contract))
  }

  /** The schedule holds the entries still to come, each once. */
  ghost predicate ScheduleOk(h: seq<Version>, scheduled: seq<Version>) {
    && Distinct(scheduled)
    && (forall x :: x in scheduled <==> x in h && x.status == ScheduledVersion)
  }

  function ActiveOf(m: Contracts, key: StorageKey): Option<Contract> {
    if key in m.active then Some(m.active[key]) else None
  }

  ghost predicate KeyOk(cfg: ContractConfig, h: seq<Version>, active: Option<Contract>, scheduled: seq<Version>) {
    Numbered(h) && Hashed(cfg, h) && ActiveOk(h, active) && ScheduleOk(h, scheduled)
  }

  ghost predicate WellFormed(cfg: ContractConfig, m: Contracts) {
    && (forall key :: KeyOk(cfg, History(m, key), ActiveOf(m, key), Scheduled(m, key)))
    && m.meta.Keys == m.active.Keys
  }

  // ----- Effects on one key -----

  lemma SetActiveOk(cfg: ContractConfig, h: seq<Version>, version: int, at: int)
    requires Numbered(h) && Hashed(cfg, h) && 1 <= version <= |h|
    ensures Numbered(SetActive(h, version, at)) && Hashed(cfg, SetActive(h, version, at))
    ensures ActiveOk(SetActive(h, version, at), Some(h[version - 1].contract))
  {
    var h' := SetActive(h, version, at);
    assert h'[version - 1].status == ActiveVersion;
  }

  /** A version that becomes active leaves the schedule, the others stay as they are. */
  lemma ActivationTakesOff(h: seq<Version>, scheduled: seq<Version>, version: int, at: int, rest: seq<Version>)
    requires Numbered(h) && ScheduleOk(h, scheduled) && Distinct(rest)
    requires forall x :: x in rest <==> x in scheduled && x.version != version
    ensures ScheduleOk(SetActive(h, version, at), rest)
  {
    var h' := SetActive(h, version, at);
    forall x ensures x in rest <==> x in h' && x.status == ScheduledVersion {
      if x in rest {
        var i :| 0 <= i < |h| && h[i] == x;
        assert h'[i] == x;
      }
      if x in h' && x.status == ScheduledVersion {
        var i :| 0 <= i < |h'| && h'[i] == x;
        assert h[i] == x;
      }
    }
  }

  lemma AppendNumbered(cfg: ContractConfig, h: seq<Version>, v: Version)
    requires Numbered(h) && Hashed(cfg, h) && v.version == NextVersion(h) && v.hash == cfg.hash(v.contract)
    ensures Numbered(h + [v]) && Hashed(cfg, h + [v]) && v.version == |h| + 1
  {
  }

  /** A new version that is active at once. */
  lemma AdoptKeyOk(cfg: ContractConfig, h: seq<Version>, active: Option<Contract>, scheduled: seq<Version>, v: Version, now: int)
    requires KeyOk(cfg, h, active, scheduled) && v.version == NextVersion(h) && v.hash == cfg.hash(v.contract) && v.status == ActiveVersion
    ensures KeyOk(cfg, SetActive(h + [v], v.version, now), Some(v.contract), scheduled)
  {
    AppendNumbered(cfg, h, v);
    SetActiveOk(cfg, h + [v], v.version, now);
    assert ScheduleOk(h + [v], scheduled) by { hide Numbered, Hashed, ActiveOk; }
    forall x | x in scheduled ensures x.version != v.version {
      var i :| 0 <= i < |h| && h[i] == x;
    }
    ActivationTakesOff(h + [v], scheduled, v.version, now, scheduled);
  }

  /** A new version to come. */
  lemma ScheduleKeyOk(cfg: ContractConfig, h: seq<Version>, active: Option<Contract>, scheduled: seq<Version>, v: Version)
    requires KeyOk(cfg, h, active, scheduled) && v.version == NextVersion(h) && v.hash == cfg.hash(v.contract) && v.status == ScheduledVersion
    ensures KeyOk(cfg, h + [v], active, scheduled + [v])
  {
    AppendNumbered(cfg, h, v);
    var h' := h + [v];
    assert ActiveOk(h', active) by {
      if active.Some? { var i :| 0 <= i < |h| && h[i].status == ActiveVersion; assert h'[i].status == ActiveVersion; }
    }
    assert Distinct(scheduled + [v]) by {
      forall i | 0 <= i < |scheduled| ensures scheduled[i].version != v.version {
        assert scheduled[i] in h;
        var j :| 0 <= j < |h| && h[j] == scheduled[i];
      }
    }
  }

  // ----- Publish and rollback -----

  lemma AdoptKeeps(cfg: ContractConfig, m: Contracts, key: StorageKey, v: Version, now: int)
    requires WellFormed(cfg, m) && v.version == NextVersion(History(m, key)) && v.hash == cfg.hash(v.contract) && v.status == ActiveVersion
    ensures WellFormed(cfg, Adopt(m, key, v, now))
  {
    var m' := Adopt(m, key, v, now);
    AdoptKeyOk(cfg, History(m, key), ActiveOf(m, key), Scheduled(m, key), v, now);
    hide KeyOk;
    forall x ensures KeyOk(cfg, History(m', x), ActiveOf(m', x), Scheduled(m', x)) {
      assert KeyOk(cfg, History(m, x), ActiveOf(m, x), Scheduled(m, x));
    }
  }

  lemma ScheduleKeeps(cfg: ContractConfig, m: Contracts, key: StorageKey, v: Version)
    requires WellFormed(cfg, m) && v.version == NextVersion(History(m, key)) && v.hash == cfg.hash(v.contract) && v.status == ScheduledVersion
    ensures WellFormed(cfg, Schedule(m, key, v))
  {
    var m' := Schedule(m, key, v);
    ScheduleKeyOk(cfg, History(m, key), ActiveOf(m, key), Scheduled(m, key), v);
    hide KeyOk;
    forall x ensures KeyOk(cfg, History(m', x), ActiveOf(m', x), Scheduled(m', x)) {
      assert KeyOk(cfg, History(m, x), ActiveOf(m, x), Scheduled(m, x));
    }
  }

  lemma PublishKeeps(cfg: ContractConfig, m: Contracts, req: PublishRequest, now: int)
    requires WellFormed(cfg, m) && Publish(cfg, m, req, now).Ok?
    ensures WellFormed(cfg, Publish(cfg, m, req, now).value)
  {
    hide WellFormed, Schedule, Adopt, RequestError, CompatibilityError;
    var key, v := KeyOf(req.scope, req.risk, req.phase), PublishedVersion(cfg, m, req, now);
    if v.activationAt > now { ScheduleKeeps(cfg, m, key, v); } else { AdoptKeeps(cfg, m, key, v, now); }
  }

  lemma RollbackKeeps(cfg: ContractConfig, m: Contracts, req: RollbackRequest, now: int)
    requires WellFormed(cfg, m) && Rollback(cfg, m, req, now).Ok?
    ensures WellFormed(cfg, Rollback(cfg, m, req, now).value)
  {
    hide RollbackTarget;
    var key := KeyOf(req.scope, req.risk, req.phase);
    var h := History(m, key);
    var t := RollbackTarget(h, req.targetVersion).value;
    var v := Version(NextVersion(h), t.contract, cfg.hash(t.contract), ActiveVersion, now, "rollback:" + req.reason, req.actor, now);
    AdoptKeeps(cfg, m, key, v, now);
    var a, b := Adopt(m, key, v, now), Rollback(cfg, m, req, now).value;
    SameThree(cfg, a, b);
  }

  lemma SameThree(cfg: ContractConfig, a: Contracts, b: Contracts)
    requires WellFormed(cfg, a) && b == a.(rollbacks := b.rollbacks)
    ensures WellFormed(cfg, b)
  {
    hide KeyOk;
    forall x ensures KeyOk(cfg, History(b, x), ActiveOf(b, x), Scheduled(b, x)) {
      assert KeyOk(cfg, History(a, x), ActiveOf(a, x), Scheduled(a, x));
    }
  }

  // ----- Activation of due versions -----

  /** The schedule after the first items of an ordered schedule are activated. */
  lemma {:induction false} ActivateAllOk(cfg: ContractConfig, h: seq<Version>, active: Option<Contract>, items: seq<Version>, rest: seq<Version>, now: int)
    requires KeyOk(cfg, h, active, items + rest)
    ensures KeyOk(cfg, ActivateAll(h, items, now), if items == [] then active else Some(items[|items| - 1].contract), rest)
  {
    if items == [] {
      assert items + rest == rest;
    } else {
      var init, last := items[..|items| - 1], items[|items| - 1];
      assert items + rest == init + ([last] + rest);
      ActivateAllOk(cfg, h, active, init, [last] + rest, now);
      ActivateFirst(cfg, ActivateAll(h, init, now), if init == [] then active else Some(init[|init| - 1].contract), last, rest, now);
    }
  }

  lemma ActivateFirst(cfg: ContractConfig, h: seq<Version>, active: Option<Contract>, v: Version, rest: seq<Version>, now: int)
    requires KeyOk(cfg, h, active, [v] + rest)
    ensures KeyOk(cfg, SetActive(h, v.version, now), Some(v.contract), rest)
  {
    var all := [v] + rest;
    assert v in all;
    assert v in h && v.status == ScheduledVersion;
    var i :| 0 <= i < |h| && h[i] == v;
    SetActiveOk(cfg, h, v.version, now);
    forall x ensures x in rest <==> x in all && x.version != v.version {
      if x in rest { var j :| 0 <= j < |rest| && rest[j] == x; assert all[j + 1] == x && all[0] == v; }
    }
    assert Distinct(rest) by { forall j, k | 0 <= j < k < |rest| ensures rest[j].version != rest[k].version { assert all[j + 1] == rest[j] && all[k + 1] == rest[k]; } }
    ActivationTakesOff(h, all, v.version, now, rest);
  }

  lemma SortedScheduleOk(h: seq<Version>, scheduled: seq<Version>)
    requires ScheduleOk(h, scheduled)
    ensures ScheduleOk(h, Sorted(scheduled)) && Ordered(Sorted(scheduled))
  {
    SortedOrders(scheduled);
    SortedKeeps(scheduled);
    SortedDistinct(scheduled);
  }

  lemma {:induction false} InsertDistinct(s: seq<Version>, v: Version)
    requires Distinct(s) && Lacks(s, v.version)
    ensures Distinct(InsertVersion(s, v))
  {
    if s != [] && !Earlier(s[|s| - 1], v) {
      var init, last := s[..|s| - 1], s[|s| - 1];
      InsertDistinct(init, v);
      InsertKeeps(init, v);
      forall i | 0 <= i < |s| ensures InsertVersion(init, v)[i].version != last.version {
        assert InsertVersion(init, v)[i] in InsertVersion(init, v);
      }
    }
  }

  lemma {:induction false} SortedDistinct(s: seq<Version>)
    requires Distinct(s)
    ensures Distinct(Sorted(s))
  {
    if s != [] {
      var init, last := s[..|s| - 1], s[|s| - 1];
      SortedDistinct(init);
      SortedKeeps(init);
      forall i | 0 <= i < |Sorted(init)| ensures Sorted(init)[i].version != last.version {
        assert Sorted(init)[i] in init;
      }
      InsertDistinct(Sorted(init), last);
    }
  }

  lemma DueKeyOk(cfg: ContractConfig, h: seq<Version>, active: Option<Contract>, scheduled: seq<Version>, now: int)
    requires KeyOk(cfg, h, active, scheduled)
    ensures var (due, rest) := (Due(Sorted(scheduled), now), Remaining(Sorted(scheduled), now));
      KeyOk(cfg, ActivateAll(h, due, now), if due == [] then active else Some(due[|due| - 1].contract), rest)
  {
    hide Numbered, Hashed, ActiveOk, ScheduleOk, Sorted, Due, Remaining, ActivateAll;
    SortedScheduleOk(h, scheduled);
    SplitsOrdered(Sorted(scheduled), now);
    ActivateAllOk(cfg, h, active, Due(Sorted(scheduled), now), Remaining(Sorted(scheduled), now), now);
  }

  lemma ApplyDueAt(m: Contracts, now: int, key: StorageKey)
    requires key in m.history || DueOf(m, key, now) == []
    ensures var m' := ApplyDue(m, now);
      && History(m', key) == ActivateAll(History(m, key), DueOf(m, key, now), now)
      && ActiveOf(m', key) == (if DueOf(m, key, now) == [] then ActiveOf(m, key) else Some(DueOf(m, key, now)[|DueOf(m, key, now)| - 1].contract))
      && Scheduled(m', key) == RemainingOf(m, key, now)
  {
    hide ActivateAll, Sorted, Due, Remaining;
    if key !in m.scheduled { NothingDue(now); }
    if DueOf(m, key, now) == [] { NothingActivated(History(m, key), now); }
  }

  lemma NothingDue(now: int)
    ensures Due(Sorted([]), now) == [] && Remaining(Sorted([]), now) == []
  {
  }

  lemma NothingActivated(h: seq<Version>, now: int)
    ensures ActivateAll(h, [], now) == h
  {
  }

  lemma DueHasHistory(cfg: ContractConfig, m: Contracts, now: int, key: StorageKey)
    requires WellFormed(cfg, m)
    ensures key in m.history || DueOf(m, key, now) == []
  {
    assert KeyOk(cfg, History(m, key), ActiveOf(m, key), Scheduled(m, key));
    hide Sorted, Due, Numbered, Hashed, ActiveOk;
    if key !in m.history {
      assert forall x :: x !in Scheduled(m, key);
      NothingDue(now);
    }
  }

  lemma SchedulerKeeps(cfg: ContractConfig, m: Contracts, now: int)
    requires WellFormed(cfg, m)
    ensures WellFormed(cfg, ApplyDue(m, now)) && WellFormed(cfg, RunScheduler(m, now))
  {
    hide KeyOk, DueOf, RemainingOf;
    var m' := ApplyDue(m, now);
    assert m'.meta.Keys == m'.active.Keys;
    forall x ensures KeyOk(cfg, History(m', x), ActiveOf(m', x), Scheduled(m', x)) {
      SchedulerKeyOk(cfg, m, now, x);
    }
  }

  lemma SchedulerKeyOk(cfg: ContractConfig, m: Contracts, now: int, x: StorageKey)
    requires WellFormed(cfg, m)
    ensures var m' := ApplyDue(m, now); KeyOk(cfg, History(m', x), ActiveOf(m', x), Scheduled(m', x))
  {
    DueHasHistory(cfg, m, now, x);
    hide KeyOk, ApplyDue, Sorted, Due, Remaining, ActivateAll;
    assert KeyOk(cfg, History(m, x), ActiveOf(m, x), Scheduled(m, x));
    DueKeyOk(cfg, History(m, x), ActiveOf(m, x), Scheduled(m, x), now);
    ApplyDueAt(m, now, x);
  }
}
