/**
 * The contract control plane and its store as they are written: statuses rewritten in place, scheduled versions sorted and
 * filtered in place, candidates edited key by key and committed as a whole.
 */
module ContractKernel {
  import opened Outcomes
  import InPlace
  import opened Totals
  import opened ContractSpec
  import opened ContractReplication
  import ContractScheduler

  // ----- In-place work on version lists -----

  /** The slot at `i` is where `v` goes: everything right of it was moved up by one. */
  lemma {:induction false} InsertAt(s: seq<Version>, v: Version, i: nat)
    requires i <= |s| && (i == 0 || Earlier(s[i - 1], v)) && forall n :: i <= n < |s| ==> !Earlier(s[n], v)
    ensures InsertVersion(s, v) == s[..i] + [v] + s[i..]
  {
    hide Earlier;
    if i < |s| {
      InsertAt(s[..|s| - 1], v, i);
      assert s[..|s| - 1][..i] == s[..i];
      assert s[..|s| - 1][i..] + [s[|s| - 1]] == s[i..];
    } else {
      assert s[..i] == s && s[i..] == [];
    }
  }

  method SetFeatureSignalContractActiveVersion(h: array<Version>, version: int, at: int)
    modifies h
    ensures h[..] == SetActive(old(h[..]), version, at)
  {
    for i := 0 to h.Length
      invariant forall n :: 0 <= n < i ==> h[n] == Marked(old(h[n]), version, at)
      invariant forall n :: i <= n < h.Length ==> h[n] == old(h[n])
    {
      if h[i].version == version {
        h[i] := h[i].(status := ActiveVersion, activationAt := at);
      } else if h[i].status == ActiveVersion {
        h[i] := h[i].(status := SupersededVersion);
      }
    }
  }

  /** Where the entry at `i` belongs among those before it. */
  method PlaceFor(a: array<Version>, i: nat) returns (j: nat)
    requires i < a.Length
    ensures j <= i && (j == 0 || Earlier(a[j - 1], a[i])) && forall n :: j <= n < i ==> !Earlier(a[n], a[i])
  {
    hide Earlier;
    j := i;
    while j > 0 && !Earlier(a[j - 1], a[i])
      invariant 0 <= j <= i && forall n :: j <= n < i ==> !Earlier(a[n], a[i])
    {
      j := j - 1;
    }
  }

  method InsertInPlace(a: array<Version>, i: nat)
    requires i < a.Length
    modifies a
    ensures a[..i + 1] == InsertVersion(old(a[..i]), old(a[i])) && a[i + 1..] == old(a[i + 1..])
  {
    hide InsertVersion, Earlier;
    ghost var s := a[..i];
    var j := PlaceFor(a, i);
    InsertAt(s, a[i], j);
    assert s[..j] == a[..j] && s[j..] == a[j..i];
    InPlace.MoveDown(a, j, i);
  }

  method SortScheduled(a: array<Version>)
    modifies a
    ensures a[..] == Sorted(old(a[..]))
  {
    ghost var was := a[..];
    for i := 0 to a.Length
      invariant a[..i] == Sorted(was[..i]) && a[i..] == was[i..]
    {
      assert a[i] == was[i] && a[i + 1..] == was[i + 1..];
      InsertInPlace(a, i);
      assert was[..i + 1][..i] == was[..i];
    }
    assert a[..a.Length] == a[..] && was[..a.Length] == was;
  }

  /** The versions not due are packed at the front, in the same array; those due are handed out in order. */
  method FilterDue(a: array<Version>, now: int) returns (kept: nat, due: seq<Version>)
    modifies a
    ensures kept <= a.Length && a[..kept] == Remaining(old(a[..]), now) && due == Due(old(a[..]), now)
  {
    ghost var was := a[..];
    kept, due := 0, [];
    for i := 0 to a.Length
      invariant kept <= i && forall n :: i <= n < a.Length ==> a[n] == was[n]
      invariant a[..kept] == Remaining(was[..i], now) && due == Due(was[..i], now)
    {
      var item := a[i];
      assert was[..i + 1][..i] == was[..i] && item == was[i];
      if item.activationAt > now {
        a[kept] := item;
        assert a[..kept + 1] == Remaining(was[..i], now) + [item];
        kept := kept + 1;
      } else {
        due := due + [item];
      }
    }
    assert was[..a.Length] == was;
  }

  method Activate(h: seq<Version>, due: seq<Version>, now: int) returns (h': seq<Version>)
    ensures h' == ActivateAll(h, due, now)
  {
    h' := h;
    for i := 0 to |due|
      invariant h' == ActivateAll(h, due[..i], now)
    {
      var a := new Version[|h'|](n requires 0 <= n < |h'| => h'[n]);
      assert a[..] == h';
      SetFeatureSignalContractActiveVersion(a, due[i].version, now);
      h' := a[..];
      assert due[..i + 1][..i] == due[..i];
    }
    assert due[..|due|] == due;
  }

  method SplitScheduled(scheduled: seq<Version>, now: int) returns (rest: seq<Version>, due: seq<Version>)
    ensures rest == Remaining(Sorted(scheduled), now) && due == Due(Sorted(scheduled), now)
  {
    var a := new Version[|scheduled|](n requires 0 <= n < |scheduled| => scheduled[n]);
    assert a[..] == scheduled;
    SortScheduled(a);
    var kept: nat;
    kept, due := FilterDue(a, now);
    rest := a[..kept];
  }

  // ----- Activation of due versions, key by key -----

  /** The enforced contracts when the due versions of some keys have become active. */
  function ActiveWith(m: Contracts, now: int, due: set<StorageKey>): map<StorageKey, Contract>
    requires forall key :: key in due ==> DueOf(m, key, now) != []
  {
    map key | key in m.active.Keys + due ::
      if key in due then DueOf(m, key, now)[|DueOf(m, key, now)| - 1].contract else m.active[key]
  }

  lemma ActiveWithMore(m: Contracts, now: int, due: set<StorageKey>, key: StorageKey)
    requires (forall x :: x in due ==> DueOf(m, x, now) != []) && key !in due
    ensures DueOf(m, key, now) != [] ==>
      ActiveWith(m, now, due + {key}) == ActiveWith(m, now, due)[key := DueOf(m, key, now)[|DueOf(m, key, now)| - 1].contract]
  {
    hide DueOf;
  }

  /** The snapshot when the listed keys have been visited. */
  function Visited(m: Contracts, now: int, keys: set<StorageKey>): Contracts {
    var due := DueKeys(m, now) * keys;
    m.(active := ActiveWith(m, now, due),
       meta := map key | key in m.meta.Keys + due :: if key in due then now else m.meta[key],
       history := map key | key in m.history :: if key in keys then ActivateAll(m.history[key], DueOf(m, key, now), now) else m.history[key],
       scheduled := map key | key in m.scheduled && (key in keys ==> RemainingOf(m, key, now) != []) ::
         if key in keys then RemainingOf(m, key, now) else m.scheduled[key])
  }

  lemma VisitedNone(m: Contracts, now: int)
    ensures Visited(m, now, {}) == m
  {
    hide DueOf, RemainingOf, ActivateAll;
  }

  lemma VisitedAll(m: Contracts, now: int)
    ensures Visited(m, now, m.scheduled.Keys) == ApplyDue(m, now)
  {
    hide RemainingOf, DueOf, ActivateAll;
    assert DueKeys(m, now) * m.scheduled.Keys == DueKeys(m, now);
    forall key | key in m.history && key !in m.scheduled ensures ActivateAll(m.history[key], DueOf(m, key, now), now) == m.history[key] {
      NothingToActivate(m, now, key);
    }
  }

  lemma NothingToActivate(m: Contracts, now: int, key: StorageKey)
    requires key !in m.scheduled
    ensures ActivateAll(History(m, key), DueOf(m, key, now), now) == History(m, key)
  {
  }

  lemma VisitedActive(m: Contracts, now: int, keys: set<StorageKey>, key: StorageKey)
    requires key in m.scheduled && key !in keys
    ensures var c, due := Visited(m, now, keys), DueOf(m, key, now);
      Visited(m, now, keys + {key}).active == (if due == [] then c.active else c.active[key := due[|due| - 1].contract])
  {
    hide DueOf, RemainingOf, ActivateAll;
    var due := DueOf(m, key, now);
    var visited := DueKeys(m, now) * keys;
    assert DueKeys(m, now) * (keys + {key}) == visited + if due == [] then {} else {key};
    assert key !in visited;
    hide DueKeys;
    ActiveWithMore(m, now, visited, key);
  }

  lemma VisitedMeta(m: Contracts, now: int, keys: set<StorageKey>, key: StorageKey)
    requires key in m.scheduled && key !in keys
    ensures var c, due := Visited(m, now, keys), DueOf(m, key, now);
      Visited(m, now, keys + {key}).meta == (if due == [] then c.meta else c.meta[key := now])
  {
    hide DueOf, RemainingOf, ActivateAll;
    var due := DueOf(m, key, now);
    assert DueKeys(m, now) * (keys + {key}) == DueKeys(m, now) * keys + if due == [] then {} else {key};
  }

  lemma VisitedHistory(m: Contracts, now: int, keys: set<StorageKey>, key: StorageKey)
    requires key in m.scheduled && key !in keys
    ensures var c := Visited(m, now, keys);
      Visited(m, now, keys + {key}).history
      == (if key in c.history then c.history[key := ActivateAll(c.history[key], DueOf(m, key, now), now)] else c.history)
  {
    hide DueOf, RemainingOf, ActivateAll, DueKeys;
  }

  lemma VisitedSchedule(m: Contracts, now: int, keys: set<StorageKey>, key: StorageKey)
    requires key in m.scheduled && key !in keys
    ensures var c, rest := Visited(m, now, keys), RemainingOf(m, key, now);
      Visited(m, now, keys + {key}).scheduled == (if rest == [] then c.scheduled - {key} else c.scheduled[key := rest])
  {
    hide DueOf, RemainingOf, ActivateAll, DueKeys;
  }

  /** Activates what is due in a candidate, and counts it. */
  method ApplyDueFeatureSignalContracts(m: Contracts, now: int) returns (c: Contracts, activated: nat)
    ensures c == ApplyDue(m, now) && activated == DueCount(m, now)
  {
    hide ApplyDue, Visited, DueOf, RemainingOf, ActivateAll, Sum;
    VisitedNone(m, now);
    c, activated := m, 0;
    var todo := m.scheduled.Keys;
    assert m.scheduled.Keys - todo == {};
    while todo != {}
      invariant todo <= m.scheduled.Keys
      invariant c == Visited(m, now, m.scheduled.Keys - todo)
      invariant activated + Sum(todo, DueLengths(m, now)) == DueCount(m, now)
    {
      var key :| key in todo;
      SumTake(todo, DueLengths(m, now), key);
      var visited := m.scheduled.Keys - todo;
      VisitedActive(m, now, visited, key);
      VisitedMeta(m, now, visited, key);
      VisitedHistory(m, now, visited, key);
      VisitedSchedule(m, now, visited, key);
      VisitedRollbacks(m, now, visited, key);
      assert m.scheduled.Keys - (todo - {key}) == visited + {key};
      todo := todo - {key};
      c, activated := VisitKey(m, now, key, c, activated);
    }
    assert m.scheduled.Keys - todo == m.scheduled.Keys;
    assert Sum(todo, DueLengths(m, now)) == 0 by { SumZero(todo, DueLengths(m, now)); }
    VisitedAll(m, now);
  }

  lemma VisitedRollbacks(m: Contracts, now: int, keys: set<StorageKey>, key: StorageKey)
    ensures Visited(m, now, keys + {key}).rollbacks == Visited(m, now, keys).rollbacks
  {
    hide DueOf, RemainingOf, ActivateAll, DueKeys;
  }

  method VisitKey(m: Contracts, now: int, key: StorageKey, c: Contracts, activated: nat) returns (c': Contracts, activated': nat)
    requires key in m.scheduled
    ensures var due, rest := DueOf(m, key, now), RemainingOf(m, key, now);
      && c' == c.(active := if due == [] then c.active else c.active[key := due[|due| - 1].contract],
                  meta := if due == [] then c.meta else c.meta[key := now],
                  history := if key in c.history then c.history[key := ActivateAll(c.history[key], due, now)] else c.history,
                  scheduled := if rest == [] then c.scheduled - {key} else c.scheduled[key := rest])
      && activated' == activated + |due|
  {
    hide Sorted, Due, Remaining, ActivateAll;
    var rest, due := SplitScheduled(m.scheduled[key], now);
    c', activated' := c, activated + |due|;
    if due != [] {
      c' := c'.(active := c'.active[key := due[|due| - 1].contract], meta := c'.meta[key := now]);
    }
    if key in c.history {
      var h := Activate(c.history[key], due, now);
      c' := c'.(history := c'.history[key := h]);
    }
    c' := c'.(scheduled := if rest == [] then c'.scheduled - {key} else c'.scheduled[key := rest]);
  }

  method CountScheduled(m: Contracts) returns (n: nat)
    ensures n == PendingCount(m)
  {
    hide Sum;
    n := 0;
    var todo := m.scheduled.Keys;
    while todo != {}
      invariant todo <= m.scheduled.Keys
      invariant n + Sum(todo, ScheduledLengths(m)) == PendingCount(m)
    {
      var key :| key in todo;
      SumTake(todo, ScheduledLengths(m), key);
      n := n + |m.scheduled[key]|;
      todo := todo - {key};
    }
    SumZero(todo, ScheduledLengths(m));
  }

  // ----- Checks of a publish request -----

  method RemovesFields(was: seq<string>, next: seq<string>) returns (r: bool)
    ensures r == Removes(was, next)
  {
    for i := 0 to |was|
      invariant forall n :: 0 <= n < i ==> was[n] in next
    {
      if was[i] !in next { return true; }
    }
    return false;
  }

  method HasUnsupportedField(fields: seq<string>) returns (r: bool)
    ensures r == exists f :: f in fields && f !in FIELDS
  {
    for i := 0 to |fields|
      invariant forall n :: 0 <= n < i ==> fields[n] in FIELDS
    {
      if fields[i] !in FIELDS { return true; }
    }
    return false;
  }

  method CheckRequest(req: PublishRequest) returns (e: Option<ContractError>)
    ensures e == RequestError(req)
  {
    if req.risk == "" { return Some(RiskRequired); }
    if req.risk !in RISKS { return Some(RiskInvalid); }
    if req.phase != "" && req.phase !in PHASES { return Some(PhaseInvalid); }
    if req.contract.required == [] { return Some(FieldsRequired); }
    var unsupported := HasUnsupportedField(req.contract.required);
    if unsupported { return Some(FieldsInvalid); }
    if req.contract.maxFreshness < 0 { return Some(FreshnessInvalid); }
    if req.contract.maxDrift < 0.0 { return Some(DriftInvalid); }
    if req.reason == "" { return Some(ReasonRequired); }
    return None;
  }

  method FindTarget(h: seq<Version>, version: int) returns (target: Option<Version>)
    ensures target == FindVersion(h, version)
  {
    var i := 0;
    while i < |h|
      invariant 0 <= i <= |h| && FindVersion(h, version) == FindVersion(h[i..], version)
    {
      if h[i].version == version { return Some(h[i]); }
      i := i + 1;
    }
    assert h[i..] == [];
    return None;
  }

  // ----- The store -----

  class Store {
    const buffer: nat
    var snapshot: Snapshot
    var watchers: map<nat, Channel>
    var nextWatchId: nat

    /** A buffer that is not positive becomes 16. */
    constructor (watchBuffer: int, seed: Snapshot)
      ensures buffer > 0 && (watchBuffer > 0 ==> buffer == watchBuffer)
      ensures snapshot == (if seed.revision > 0 then seed else EMPTY) && watchers == map[] && nextWatchId == 0
    {
      buffer := if watchBuffer <= 0 then 16 else watchBuffer;
      snapshot := if seed.revision > 0 then seed else EMPTY;
      watchers, nextWatchId := map[], 0;
    }

    method GetSnapshot(ok: bool) returns (s: Option<Snapshot>)
      ensures s == if ok then Some(snapshot) else None
    {
      return if ok then Some(snapshot) else None;
    }

    /**
     * The new snapshot is pushed to every channel. Where the first try fails the oldest item is dropped and the push tried
     * once more; the other end of the channel may move in between, for the watchers in `raced`.
     */
    method PutSnapshot(s: Snapshot, ok: bool, raced: set<nat>) returns (committed: Option<Snapshot>)
      modifies `snapshot, `watchers
      ensures !ok ==> committed.None? && snapshot == old(snapshot) && watchers == old(watchers)
      ensures ok ==> committed == Some(snapshot) && snapshot == Stored(old(snapshot), s)
      ensures ok ==> watchers == map w | w in old(watchers) :: Pushed(old(watchers)[w], buffer, w in raced, snapshot)
    {
      if !ok { return None; }
      var next := s;
      if next.revision <= snapshot.revision { next := next.(revision := snapshot.revision + 1); }
      snapshot := next;
      var todo := watchers.Keys;
      while todo != {}
        invariant todo <= watchers.Keys == old(watchers).Keys && snapshot == next
        invariant forall w :: w in watchers ==>
          watchers[w] == if w in todo then old(watchers)[w] else Pushed(old(watchers)[w], buffer, w in raced, next)
      {
        var w :| w in todo;
        todo := todo - {w};
        var ch := Push(watchers[w], next, w in raced);
        watchers := watchers[w := ch];
      }
      assert watchers == map w | w in old(watchers) :: Pushed(old(watchers)[w], buffer, w in raced, next);
      return Some(snapshot);
    }

    method Push(was: Channel, s: Snapshot, raced: bool) returns (ch: Channel)
      ensures ch == Pushed(was, buffer, raced, s)
    {
      ch := was;
      if ch.queue == [] || (|ch.queue| < buffer && (!raced || ch.unsent.Some?)) {
        ch := ch.(queue := ch.queue + [s], lost := false);
      } else {
        ch := ch.(queue := ch.queue[1..]);
        if raced && ch.unsent.Some? {
          ch := Channel(ch.queue + [ch.unsent.value], None, true);
        } else {
          ch := ch.(queue := ch.queue + [s], lost := false);
        }
      }
    }

    /** A new channel, with the snapshot that is to be sent to it first, if the store holds one. */
    method Watch(ok: bool) returns (id: Option<nat>)
      modifies `watchers, `nextWatchId
      ensures !ok ==> id.None? && watchers == old(watchers) && nextWatchId == old(nextWatchId)
      ensures ok ==> id == Some(old(nextWatchId)) && nextWatchId == old(nextWatchId) + 1
      ensures ok ==> watchers == old(watchers)[old(nextWatchId) := Channel([], if snapshot.revision > 0 then Some(snapshot) else None, false)]
    {
      if !ok { return None; }
      id := Some(nextWatchId);
      var initial := if snapshot.revision > 0 then Some(snapshot) else None;
      watchers, nextWatchId := watchers[nextWatchId := Channel([], initial, false)], nextWatchId + 1;
    }
  }

  // ----- The control plane of one kernel -----

  /** What a cache holds when the watcher has looked at a snapshot, if one came. */
  function Taken(m: Contracts, version: nat, s: Option<Snapshot>): Snapshot {
    if s.Some? && s.value.revision > version then s.value else Snapshot(version, m)
  }

  class ControlPlane {
    const cfg: ContractConfig
    const store: Store
    var active: map<StorageKey, Contract>
    var meta: map<StorageKey, int>
    var history: map<StorageKey, seq<Version>>
    var rollbacks: map<StorageKey, seq<RollbackRecord>>
    var scheduled: map<StorageKey, seq<Version>>
    var storeVersion: nat

    function Maps(): Contracts
      reads this
    {
      Contracts(active, meta, history, rollbacks, scheduled)
    }

    /** Boot: take the store's snapshot, or else commit the maps built from the configuration. */
    constructor (cfg: ContractConfig, store: Store, bootstrap: map<StorageKey, Contract>, now: int, getOk: bool, putOk: bool, raced: set<nat>)
      modifies store
      ensures this.cfg == cfg && this.store == store
      ensures if getOk && old(store.snapshot).revision > 0 then
                Maps() == old(store.snapshot).contracts && storeVersion == old(store.snapshot).revision && store.snapshot == old(store.snapshot)
              else if putOk then
                && store.snapshot == Stored(old(store.snapshot), Snapshot(1, BootMaps(cfg, bootstrap, now)))
                && Maps() == store.snapshot.contracts && storeVersion == store.snapshot.revision
              else Maps() == BootMaps(cfg, bootstrap, now) && storeVersion == 1 && store.snapshot == old(store.snapshot)
    {
      this.cfg, this.store := cfg, store;
      var boot := BootMaps(cfg, bootstrap, now);
      active, meta, history, rollbacks, scheduled := boot.active, boot.meta, boot.history, boot.rollbacks, boot.scheduled;
      storeVersion := 1;
      new;
      var snap := store.GetSnapshot(getOk);
      if snap.Some? && snap.value.revision > 0 {
        ApplySnapshot(snap.value);
      } else {
        var ok := Commit(Snapshot(storeVersion, Maps()), putOk, raced);
      }
    }

    method ApplySnapshot(s: Snapshot)
      modifies this
      ensures Maps() == s.contracts && storeVersion == if s.revision > 0 then s.revision else old(storeVersion)
    {
      active, meta, history, rollbacks, scheduled :=
        s.contracts.active, s.contracts.meta, s.contracts.history, s.contracts.rollbacks, s.contracts.scheduled;
      if s.revision > 0 { storeVersion := s.revision; }
    }

    /** The store decides the revision; only what it took is applied here. */
    method Commit(s: Snapshot, putOk: bool, raced: set<nat>) returns (ok: bool)
      modifies this, store
      ensures ok == putOk
      ensures !ok ==> Maps() == old(Maps()) && storeVersion == old(storeVersion) && store.snapshot == old(store.snapshot) && store.watchers == old(store.watchers)
      ensures ok ==> Maps() == s.contracts && storeVersion == store.snapshot.revision
      ensures ok ==> store.snapshot == Stored(old(store.snapshot), if s.revision == 0 then s.(revision := old(storeVersion) + 1) else s)
      ensures ok ==> store.watchers == map w | w in old(store.watchers) :: Pushed(old(store.watchers)[w], store.buffer, w in raced, store.snapshot)
    {
      var snap := s;
      if snap.revision == 0 { snap := snap.(revision := storeVersion + 1); }
      var committed := store.PutSnapshot(snap, putOk, raced);
      if committed.None? { return false; }
      ApplySnapshot(committed.value);
      return true;
    }

    method Sync(getOk: bool)
      modifies this
      ensures if getOk && store.snapshot.revision > 0 then Maps() == store.snapshot.contracts && storeVersion == store.snapshot.revision
              else Maps() == old(Maps()) && storeVersion == old(storeVersion)
    {
      var snap := store.GetSnapshot(getOk);
      if snap.None? || snap.value.revision == 0 { return; }
      ApplySnapshot(snap.value);
    }

    /** The watcher loop looks at one snapshot: an older one than the cache holds is passed over. */
    method TakeWatched(s: Snapshot)
      modifies this
      ensures if s.revision > old(storeVersion) then Maps() == s.contracts && storeVersion == s.revision
              else Maps() == old(Maps()) && storeVersion == old(storeVersion)
    {
      if s.revision > storeVersion { ApplySnapshot(s); }
    }

    method CheckCompatibility(req: PublishRequest) returns (e: Option<ContractError>)
      ensures e == CompatibilityError(cfg, Maps(), req)
    {
      var key := KeyOf(req.scope, req.risk, req.phase);
      if key !in active || req.allowBreaking { return None; }
      var removed := RemovesFields(active[key].required, req.contract.required);
      if removed { return Some(BreakingChange); }
      if SchemaBreaks(cfg, active[key].schema, req.contract.schema) { return Some(SchemaBreakingChange); }
      return None;
    }

    /**
     * The request is checked against the cache before the lock is taken and again under it; in between the watcher may
     * bring a snapshot. A dry run stops after the first check and tells the version that would be next.
     */
    method PublishFeatureSignalContract(req: PublishRequest, dryRun: bool, meanwhile: Option<Snapshot>, now: int, putOk: bool, raced: set<nat>)
      returns (resp: Result<int, ContractError>)
      modifies this, store
      ensures var first := Publish(cfg, old(Maps()), req, now);
        first.Err? || dryRun ==>
          && resp == (if first.Err? then Err(first.error) else Ok(NextVersion(History(old(Maps()), KeyOf(req.scope, req.risk, req.phase)))))
          && Maps() == old(Maps()) && storeVersion == old(storeVersion) && store.snapshot == old(store.snapshot)
      ensures var (c, m) := (Taken(old(Maps()), old(storeVersion), meanwhile), Publish(cfg, Taken(old(Maps()), old(storeVersion), meanwhile).contracts, req, now));
        Publish(cfg, old(Maps()), req, now).Ok? && !dryRun ==>
          if m.Ok? && putOk then
            && resp == Ok(NextVersion(History(c.contracts, KeyOf(req.scope, req.risk, req.phase))))
            && Maps() == m.value && storeVersion == store.snapshot.revision
            && store.snapshot == Stored(old(store.snapshot), Snapshot(c.revision + 1, m.value))
          else
            && resp == Err(if m.Ok? then StoreSyncFailed else m.error)
            && Maps() == c.contracts && storeVersion == c.revision && store.snapshot == old(store.snapshot)
    {
      hide RequestError, CompatibilityError;
      var invalid := CheckRequest(req);
      if invalid.Some? { return Err(invalid.value); }
      var incompatible := CheckCompatibility(req);
      if incompatible.Some? { return Err(incompatible.value); }
      if dryRun { return Ok(NextVersion(History(Maps(), KeyOf(req.scope, req.risk, req.phase)))); }
      if meanwhile.Some? { TakeWatched(meanwhile.value); }
      incompatible := CheckCompatibility(req);
      if incompatible.Some? { return Err(incompatible.value); }
      var key, candidate := KeyOf(req.scope, req.risk, req.phase), Maps();
      var at := if req.activateAt == 0 then now else req.activateAt;
      var v := Version(NextVersion(History(candidate, key)), req.contract, cfg.hash(req.contract),
                       if at > now then ScheduledVersion else ActiveVersion, at, req.reason, req.actor, now);
      if at > now {
        candidate := candidate.(scheduled := candidate.scheduled[key := Scheduled(candidate, key) + [v]]);
        candidate := candidate.(history := candidate.history[key := History(candidate, key) + [v]]);
      } else {
        candidate := AdoptVersion(candidate, key, v, now);
      }
      var ok := Commit(Snapshot(storeVersion + 1, candidate), putOk, raced);
      if !ok { return Err(StoreSyncFailed); }
      return Ok(v.version);
    }

    method AdoptVersion(m: Contracts, key: StorageKey, v: Version, now: int) returns (c: Contracts)
      ensures c == Adopt(m, key, v, now)
    {
      c := m.(active := m.active[key := v.contract], meta := m.meta[key := now]);
      var h := History(m, key) + [v];
      var a := new Version[|h|](n requires 0 <= n < |h| => h[n]);
      assert a[..] == h;
      SetFeatureSignalContractActiveVersion(a, v.version, now);
      c := c.(history := c.history[key := a[..]]);
    }

    method RollbackFeatureSignalContract(req: RollbackRequest, now: int, putOk: bool, raced: set<nat>)
      returns (resp: Result<RollbackRecord, ContractError>)
      modifies this, store
      ensures var m := Rollback(cfg, old(Maps()), req, now);
        if m.Ok? && putOk then
          && resp.Ok? && Rollbacks(Maps(), KeyOf(req.scope, req.risk, req.phase)) == Rollbacks(old(Maps()), KeyOf(req.scope, req.risk, req.phase)) + [resp.value]
          && Maps() == m.value && storeVersion == store.snapshot.revision
          && store.snapshot == Stored(old(store.snapshot), Snapshot(old(storeVersion) + 1, m.value))
        else
          && resp == Err(if m.Ok? then StoreSyncFailed else m.error)
          && Maps() == old(Maps()) && storeVersion == old(storeVersion) && store.snapshot == old(store.snapshot)
    {
      if req.risk == "" { return Err(RiskRequired); }
      if req.phase != "" && req.phase !in PHASES { return Err(PhaseInvalid); }
      if req.reason == "" { return Err(ReasonRequired); }
      var key, candidate := KeyOf(req.scope, req.risk, req.phase), Maps();
      var h := History(candidate, key);
      if h == [] { return Err(HistoryNotFound); }
      var current := h[|h| - 1];
      var target := current;
      if req.targetVersion > 0 {
        var found := FindTarget(h, req.targetVersion);
        if found.None? { return Err(TargetNotFound); }
        target := found.value;
      } else {
        if |h| < 2 { return Err(NoPreviousVersion); }
        target := h[|h| - 2];
      }
      var v := Version(current.version + 1, target.contract, cfg.hash(target.contract), ActiveVersion, now, "rollback:" + req.reason, req.actor, now);
      candidate := AdoptVersion(candidate, key, v, now);
      var record := RollbackRecord(current.version, target.version, current.contract.required, target.contract.required,
                                   current.hash, target.hash, req.reason, req.actor, now);
      candidate := candidate.(rollbacks := candidate.rollbacks[key := Rollbacks(candidate, key) + [record]]);
      var ok := Commit(Snapshot(storeVersion + 1, candidate), putOk, raced);
      if !ok { return Err(StoreSyncFailed); }
      return Ok(record);
    }

    /** Activated and pending as the scheduler reports them. */
    method RunFeatureSignalContractScheduler(now: int, putOk: bool, raced: set<nat>) returns (activated: nat, pending: nat)
      modifies this, store
      ensures Maps() == if putOk then RunScheduler(old(Maps()), now) else old(Maps())
      ensures activated == if putOk then DueCount(old(Maps()), now) else 0
      ensures pending == PendingCount(Maps())
      ensures activated + pending == PendingCount(old(Maps()))
      ensures DueKeys(old(Maps()), now) == {} || !putOk ==> storeVersion == old(storeVersion) && store.snapshot == old(store.snapshot)
      ensures DueKeys(old(Maps()), now) != {} && putOk ==>
        store.snapshot == Stored(old(store.snapshot), Snapshot(old(storeVersion) + 1, Maps())) && storeVersion == store.snapshot.revision
    {
      ghost var m := Maps();
      DueCountZero(m, now);
      ContractScheduler.SchedulerConserves(m, now);
      hide ApplyDue, DueKeys, DueCount, PendingCount;
      var pendingBefore := CountScheduled(Maps());
      var candidate, n := ApplyDueFeatureSignalContracts(Maps(), now);
      if n == 0 { return 0, pendingBefore; }
      var ok := Commit(Snapshot(storeVersion + 1, candidate), putOk, raced);
      if !ok { return 0, pendingBefore; }
      pending := CountScheduled(Maps());
      return n, pending;
    }
  }

  /** Something is counted as due exactly if some key has something due. */
  lemma DueCountZero(m: Contracts, now: int)
    ensures DueCount(m, now) == 0 <==> DueKeys(m, now) == {}
  {
    hide DueOf, Sum;
    if DueKeys(m, now) == {} {
      forall key | key in m.scheduled ensures DueLengths(m, now)(key) == 0 { assert key !in DueKeys(m, now); }
      SumZero(m.scheduled.Keys, DueLengths(m, now));
    } else {
      var key :| key in DueKeys(m, now);
      SumTake(m.scheduled.Keys, DueLengths(m, now), key);
    }
  }
}
