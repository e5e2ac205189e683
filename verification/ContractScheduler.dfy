/** The scheduler run twice is the scheduler run once, and no scheduled version is lost or activated twice. */
module ContractScheduler {
  import opened Outcomes
  import opened Totals
  import opened ContractSpec
  import opened ContractOrder
  import opened ContractInvariants

  // ----- Histories that differ only in activation times -----

  ghost predicate SameStatuses(h: seq<Version>, h': seq<Version>) {
    |h| == |h'| && forall i :: 0 <= i < |h| ==> h[i].(activationAt := 0) == h'[i].(activationAt := 0)
  }

  lemma {:induction false} ActivateConcat(h: seq<Version>, a: seq<Version>, b: seq<Version>, now: int)
    ensures ActivateAll(h, a + b, now) == ActivateAll(ActivateAll(h, a, now), b, now)
  {
    if b == [] {
      assert a + b == a;
    } else {
      ActivateConcat(h, a, b[..|b| - 1], now);
      assert (a + b)[..|a + b| - 1] == a + b[..|b| - 1];
    }
  }

  lemma {:induction false} ActivateSame(h: seq<Version>, h': seq<Version>, items: seq<Version>, t: int, t': int)
    requires SameStatuses(h, h')
    ensures SameStatuses(ActivateAll(h, items, t), ActivateAll(h', items, t'))
  {
    if items != [] {
      ActivateSame(h, h', items[..|items| - 1], t, t');
      SetActiveSame(ActivateAll(h, items[..|items| - 1], t), ActivateAll(h', items[..|items| - 1], t'), items[|items| - 1].version, t, t');
    }
  }

  lemma SetActiveSame(h: seq<Version>, h': seq<Version>, version: int, t: int, t': int)
    requires SameStatuses(h, h')
    ensures SameStatuses(SetActive(h, version, t), SetActive(h', version, t'))
  {
    forall i | 0 <= i < |h| ensures Marked(h[i], version, t).(activationAt := 0) == Marked(h'[i], version, t').(activationAt := 0) {
      assert h[i].(activationAt := 0) == h'[i].(activationAt := 0);
    }
  }

  // ----- Confluence -----

  /** One key, scheduled list in any order: two activations compose. */
  lemma TwoRuns(h: seq<Version>, s: seq<Version>, t1: int, t2: int)
    requires Ordered(s) && t1 <= t2
    ensures Due(s, t2) == Due(s, t1) + Due(Remaining(s, t1), t2)
    ensures Remaining(s, t2) == Remaining(Remaining(s, t1), t2)
    ensures SameStatuses(ActivateAll(ActivateAll(h, Due(s, t1), t1), Due(Remaining(s, t1), t2), t2), ActivateAll(h, Due(s, t2), t2))
  {
    hide Due, Remaining, ActivateAll;
    DueInSteps(s, t1, t2);
    ActivateConcat(h, Due(s, t1), Due(Remaining(s, t1), t2), t2);
    ActivateSame(h, h, Due(s, t1), t1, t2);
    ActivateSame(ActivateAll(h, Due(s, t1), t1), ActivateAll(h, Due(s, t1), t2), Due(Remaining(s, t1), t2), t2, t2);
  }

  /** The scheduled list of a key after an activation is in order already. */
  lemma RestIsSorted(cfg: ContractConfig, m: Contracts, now: int, key: StorageKey)
    requires WellFormed(cfg, m)
    ensures Ordered(Sorted(Scheduled(m, key))) && Sorted(RemainingOf(m, key, now)) == RemainingOf(m, key, now)
    ensures Ordered(RemainingOf(m, key, now))
  {
    assert KeyOk(cfg, History(m, key), ActiveOf(m, key), Scheduled(m, key));
    hide Sorted, Remaining, Numbered, Hashed, ActiveOk;
    SortedScheduleOk(History(m, key), Scheduled(m, key));
    RemainingOrdered(Sorted(Scheduled(m, key)), now);
    OrderedSorts(RemainingOf(m, key, now));
  }

  /** What a key looks like after the scheduler ran and found something due, for this key or another. */
  ghost predicate KeyAfter(m: Contracts, m': Contracts, now: int, key: StorageKey) {
    && History(m', key) == ActivateAll(History(m, key), DueOf(m, key, now), now)
    && ActiveOf(m', key) == (if DueOf(m, key, now) == [] then ActiveOf(m, key) else Some(DueOf(m, key, now)[|DueOf(m, key, now)| - 1].contract))
    && Scheduled(m', key) == RemainingOf(m, key, now)
  }

  lemma ApplyDueKey(cfg: ContractConfig, m: Contracts, now: int, key: StorageKey)
    requires WellFormed(cfg, m)
    ensures KeyAfter(m, ApplyDue(m, now), now, key)
  {
    hide WellFormed, ApplyDue, DueOf, RemainingOf, ActivateAll;
    DueHasHistory(cfg, m, now, key);
    ApplyDueAt(m, now, key);
  }

  lemma NotDue(m: Contracts, now: int, key: StorageKey)
    requires key !in DueKeys(m, now)
    ensures DueOf(m, key, now) == []
  {
    if key !in m.scheduled { NothingDue(now); }
  }

  /** A second run, whether or not it finds something due. */
  lemma SecondRunKey(cfg: ContractConfig, m: Contracts, t1: int, t2: int, key: StorageKey)
    requires WellFormed(cfg, m)
    ensures KeyAfter(ApplyDue(m, t1), RunScheduler(ApplyDue(m, t1), t2), t2, key)
  {
    SchedulerKeeps(cfg, m, t1);
    var m1 := ApplyDue(m, t1);
    hide WellFormed, ApplyDue;
    if DueKeys(m1, t2) != {} {
      ApplyDueKey(cfg, m1, t2, key);
    } else {
      hide DueKeys, Sorted, Due, Remaining, ActivateAll;
      assert DueOf(m1, key, t2) == [] by { NotDue(m1, t2, key); }
      ApplyDueKey(cfg, m, t1, key);
      RestIsSorted(cfg, m, t1, key);
      SplitsOrdered(Scheduled(m1, key), t2);
      NothingActivated(History(m1, key), t2);
    }
  }

  lemma ConfluenceKey(cfg: ContractConfig, m: Contracts, t1: int, t2: int, key: StorageKey)
    requires WellFormed(cfg, m) && t1 <= t2
    ensures var (a, b) := (RunScheduler(ApplyDue(m, t1), t2), ApplyDue(m, t2));
      && ActiveOf(a, key) == ActiveOf(b, key)
      && Scheduled(a, key) == Scheduled(b, key)
      && SameStatuses(History(a, key), History(b, key))
  {
    var m1, a, b := ApplyDue(m, t1), RunScheduler(ApplyDue(m, t1), t2), ApplyDue(m, t2);
    ApplyDueKey(cfg, m, t1, key);
    ApplyDueKey(cfg, m, t2, key);
    SecondRunKey(cfg, m, t1, t2, key);
    RestIsSorted(cfg, m, t1, key);
    var s := Sorted(Scheduled(m, key));
    TwoRuns(History(m, key), s, t1, t2);
    hide WellFormed, ApplyDue, RunScheduler, Sorted, Due, Remaining, ActivateAll, SameStatuses;
    assert DueOf(m1, key, t2) == Due(Remaining(s, t1), t2);
  }

  lemma SameByKey(a: Contracts, b: Contracts)
    requires forall key :: ActiveOf(a, key) == ActiveOf(b, key)
    ensures a.active == b.active
  {
    forall key ensures key in a.active <==> key in b.active { assert ActiveOf(a, key) == ActiveOf(b, key); }
    forall key | key in a.active ensures a.active[key] == b.active[key] { assert ActiveOf(a, key) == ActiveOf(b, key); }
  }

  ghost predicate NoEmptyLists(m: Contracts) {
    forall key :: key in m.scheduled ==> m.scheduled[key] != []
  }

  lemma SameSchedules(a: Contracts, b: Contracts)
    requires NoEmptyLists(a) && NoEmptyLists(b) && forall key :: Scheduled(a, key) == Scheduled(b, key)
    ensures a.scheduled == b.scheduled
  {
    forall key ensures key in a.scheduled <==> key in b.scheduled { assert Scheduled(a, key) == Scheduled(b, key); }
    forall key | key in a.scheduled ensures a.scheduled[key] == b.scheduled[key] { assert Scheduled(a, key) == Scheduled(b, key); }
  }

  lemma ApplyDueLists(m: Contracts, now: int)
    ensures NoEmptyLists(ApplyDue(m, now)) && ApplyDue(m, now).history.Keys == m.history.Keys
  {
    hide DueOf, RemainingOf, ActivateAll;
  }

  lemma MoreDueLater(m: Contracts, t1: int, t2: int)
    requires t1 <= t2
    ensures DueKeys(m, t1) <= DueKeys(m, t2)
  {
    hide Due, Sorted;
    forall key | key in DueKeys(m, t1) ensures key in DueKeys(m, t2) {
      SplitMembers(Sorted(Scheduled(m, key)), t1);
      SplitMembers(Sorted(Scheduled(m, key)), t2);
      assert DueOf(m, key, t1)[0] in DueOf(m, key, t1);
      assert DueOf(m, key, t1)[0] in DueOf(m, key, t2);
    }
  }

  /**
   * Confluence: running the scheduler at t1 and then at a later t2 gives the same enforced contracts, the same schedules
   * and the same statuses as running it once at t2.
   */
  lemma SchedulerConfluence(cfg: ContractConfig, m: Contracts, t1: int, t2: int)
    requires WellFormed(cfg, m) && t1 <= t2
    ensures var (a, b) := (RunScheduler(RunScheduler(m, t1), t2), RunScheduler(m, t2));
      && a.active == b.active && a.scheduled == b.scheduled && a.rollbacks == b.rollbacks
      && a.history.Keys == b.history.Keys
      && forall key :: key in a.history ==> SameStatuses(a.history[key], b.history[key])
  {
    var a, b := RunScheduler(RunScheduler(m, t1), t2), RunScheduler(m, t2);
    if DueKeys(m, t1) == {} {
      assert forall key :: key in a.history ==> SameStatuses(a.history[key], a.history[key]);
    } else {
      MoreDueLater(m, t1, t2);
      var m1 := ApplyDue(m, t1);
      assert a == RunScheduler(m1, t2) && b == ApplyDue(m, t2);
      assert a.rollbacks == b.rollbacks;
      ApplyDueLists(m, t1);
      ApplyDueLists(m, t2);
      ApplyDueLists(m1, t2);
      assert NoEmptyLists(a) && a.history.Keys == b.history.Keys;
      hide WellFormed, ApplyDue, RunScheduler, DueKeys, SameStatuses, NoEmptyLists;
      forall key ensures ActiveOf(a, key) == ActiveOf(b, key) && Scheduled(a, key) == Scheduled(b, key) && SameStatuses(History(a, key), History(b, key)) {
        ConfluenceKey(cfg, m, t1, t2, key);
      }
      SameByKey(a, b);
      SameSchedules(a, b);
      forall key | key in a.history ensures SameStatuses(a.history[key], b.history[key]) {
        assert SameStatuses(History(a, key), History(b, key));
      }
    }
  }

  // ----- A second run at the same time -----

  lemma NoneDueOfRest(s: seq<Version>, now: int)
    ensures Due(Sorted(Remaining(s, now)), now) == []
  {
    hide Due, Sorted, Remaining;
    SplitMembers(s, now);
    SortedKeeps(Remaining(s, now));
    NoneDue(Sorted(Remaining(s, now)), now);
  }

  lemma ScheduledAfter(m: Contracts, now: int, key: StorageKey)
    requires key in ApplyDue(m, now).scheduled
    ensures key in m.scheduled && ApplyDue(m, now).scheduled[key] == Remaining(Sorted(Scheduled(m, key)), now)
  {
    hide Due, Sorted, Remaining, ActivateAll, DueKeys;
  }

  lemma NothingDueAfter(m: Contracts, now: int)
    ensures DueKeys(ApplyDue(m, now), now) == {}
  {
    hide ApplyDue, Due, Sorted, Remaining;
    forall key | key in ApplyDue(m, now).scheduled ensures DueOf(ApplyDue(m, now), key, now) == [] {
      ScheduledAfter(m, now, key);
      NoneDueOfRest(Sorted(Scheduled(m, key)), now);
    }
  }

  lemma SchedulerIdempotent(m: Contracts, now: int)
    ensures RunScheduler(RunScheduler(m, now), now) == RunScheduler(m, now)
  {
    NothingDueAfter(m, now);
    hide ApplyDue, DueKeys;
  }

  // ----- Conservation -----

  function RemainingLengths(m: Contracts, now: int): StorageKey -> nat {
    key => |RemainingOf(m, key, now)|
  }

  lemma LengthsSplit(m: Contracts, now: int, key: StorageKey)
    ensures |Scheduled(m, key)| == |DueOf(m, key, now)| + |RemainingOf(m, key, now)|
  {
    hide Due, Sorted, Remaining;
    SortedKeeps(Scheduled(m, key));
    SplitMembers(Sorted(Scheduled(m, key)), now);
  }

  lemma RemainingStays(m: Contracts, now: int, key: StorageKey)
    requires key in m.scheduled
    ensures var m1 := ApplyDue(m, now);
      |RemainingOf(m, key, now)| == if key in m1.scheduled then |Scheduled(m1, key)| else 0
  {
    hide DueKeys, DueOf, RemainingOf, ActivateAll;
  }

  lemma RemainingKeys(m: Contracts, now: int)
    ensures ApplyDue(m, now).scheduled.Keys <= m.scheduled.Keys
  {
    hide DueKeys, DueOf, RemainingOf, ActivateAll;
  }

  /** Each scheduled version is activated or still scheduled, and counted once. */
  lemma SchedulerConserves(m: Contracts, now: int)
    ensures DueCount(m, now) + PendingCount(RunScheduler(m, now)) == PendingCount(m)
  {
    hide ApplyDue, DueOf, RemainingOf, Sum;
    var keys := m.scheduled.Keys;
    forall key ensures ScheduledLengths(m)(key) == DueLengths(m, now)(key) + RemainingLengths(m, now)(key) {
      LengthsSplit(m, now, key);
    }
    SumSplits(keys, ScheduledLengths(m), DueLengths(m, now), RemainingLengths(m, now));
    if DueKeys(m, now) == {} {
      forall key | key in keys ensures DueLengths(m, now)(key) == 0 { NotDue(m, now, key); }
      SumZero(keys, DueLengths(m, now));
    } else {
      var m1 := ApplyDue(m, now);
      RemainingKeys(m, now);
      forall key | key in keys ensures RemainingLengths(m, now)(key) == if key in m1.scheduled then ScheduledLengths(m1)(key) else 0 {
        RemainingStays(m, now, key);
      }
      SumSkips(keys, m1.scheduled.Keys, RemainingLengths(m, now), ScheduledLengths(m1));
    }
  }
}
