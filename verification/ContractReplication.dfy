/**
 * Kernels that share one contract store. Each keeps a cache of the five maps, commits whole snapshots built from it, and
 * may watch the store through a bounded channel that drops its oldest item when full. Steps of different kernels,
 * deliveries and failures interleave freely.
 */
module ContractReplication {
  import opened Outcomes
  import opened ContractSpec
  import opened ContractInvariants

  datatype Snapshot = Snapshot(revision: nat, contracts: Contracts)

  /**
   * A watcher's channel, and the initial snapshot until it is sent; that send waits outside the store's lock. `lost` is
   * history: the newest snapshot did not get into the channel, and the kernel has not taken it from the store since.
   */
  datatype Channel = Channel(queue: seq<Snapshot>, unsent: Option<Snapshot>, lost: bool)

  /** A watch: its channel, and the snapshot taken from the channel but not looked at yet. */
  datatype Watch = Watch(channel: Channel, hand: Option<Snapshot>)

  /** `detached` is history: the kernel reached no store when it booted and has applied no snapshot since. */
  datatype Replica = Replica(contracts: Contracts, version: nat, watch: Option<Watch>, detached: bool)

  /** `committed` is history: the contracts committed at each revision. */
  datatype Cluster = Cluster(store: Snapshot, buffer: nat, replicas: seq<Replica>, committed: map<nat, Contracts>)

  datatype Edit = PublishEdit(publish: PublishRequest) | RollbackEdit(rollback: RollbackRequest) | SchedulerEdit

  /** `raced` names the watchers whose channel is used at its other end while a put is pushing to it. */
  datatype ClusterOp =
    | Boot(bootstrap: map<StorageKey, Contract>, now: int, getOk: bool, putOk: bool, raced: set<nat>)
    | Commit(i: nat, edit: Edit, now: int, putOk: bool, raced: set<nat>)
    | Sync(i: nat, getOk: bool)
    | StartWatch(i: nat)
    | SendInitial(i: nat)
    | Receive(i: nat)
    | ApplyReceived(i: nat)
    | StopWatch(i: nat)

  // ----- Steps -----

  /** The history a kernel boots with notes only the required fields of each configured contract. */
  function BootMaps(cfg: ContractConfig, bootstrap: map<StorageKey, Contract>, now: int): Contracts {
    Contracts(bootstrap, map key | key in bootstrap :: now,
              map key | key in bootstrap ::
                [Version(1, Contract(bootstrap[key].required, "", [], 0, 0.0), cfg.hash(bootstrap[key]), ActiveVersion, now,
                         "bootstrap_default", "system", now)],
              map[], map[])
  }

  /** The candidate an edit builds from a kernel's cache, if it is to be committed. */
  function Candidate(cfg: ContractConfig, m: Contracts, edit: Edit, now: int): Option<Contracts> {
    match edit
    case PublishEdit(req) => if Publish(cfg, m, req, now).Ok? then Some(Publish(cfg, m, req, now).value) else None
    case RollbackEdit(req) => if Rollback(cfg, m, req, now).Ok? then Some(Rollback(cfg, m, req, now).value) else None
    case SchedulerEdit => if DueKeys(m, now) == {} then None else Some(ApplyDue(m, now))
  }

  /**
   * A push to a channel. If it is full its oldest item goes; but where the initial snapshot waits to be sent it may take
   * the freed slot, and then the new snapshot is lost. Otherwise the consumer may have taken an item first, and then one
   * more goes than had to.
   */
  function Pushed(ch: Channel, buffer: nat, raced: bool, s: Snapshot): Channel {
    if ch.queue == [] then ch.(queue := [s], lost := false)
    else if ch.unsent.Some? && raced && |ch.queue| >= buffer then
      Channel(ch.queue[1..] + [ch.unsent.value], None, true)
    else if |ch.queue| >= buffer || (raced && ch.unsent.None?) then ch.(queue := ch.queue[1..] + [s], lost := false)
    else ch.(queue := ch.queue + [s], lost := false)
  }

  function Notified(r: Replica, buffer: nat, raced: bool, s: Snapshot): Replica {
    if r.watch.None? then r
    else r.(watch := Some(r.watch.value.(channel := Pushed(r.watch.value.channel, buffer, raced, s))))
  }

  function NotifyAll(c: Cluster, raced: set<nat>, s: Snapshot): (rs: seq<Replica>)
    ensures |rs| == |c.replicas| && forall i :: 0 <= i < |rs| ==> rs[i] == Notified(c.replicas[i], c.buffer, i in raced, s)
  {
    seq(|c.replicas|, i requires 0 <= i < |c.replicas| => Notified(c.replicas[i], c.buffer, i in raced, s))
  }

  /** What a put stores: the snapshot, under a revision past the current one. */
  function Stored(current: Snapshot, s: Snapshot): Snapshot {
    s.(revision := if s.revision <= current.revision then current.revision + 1 else s.revision)
  }

  /** A snapshot is stored under a new revision and pushed to every watcher. */
  function Put(c: Cluster, s: Snapshot, raced: set<nat>): Cluster {
    var next := Stored(c.store, s);
    c.(store := next, replicas := NotifyAll(c, raced, next), committed := c.committed[next.revision := next.contracts])
  }

  function Applied(r: Replica, s: Snapshot): Replica {
    r.(contracts := s.contracts, version := if s.revision > 0 then s.revision else r.version, detached := false)
  }

  /** The store's own snapshot is applied: nothing newer can have been lost. */
  function Caught(r: Replica, s: Snapshot): Replica {
    var r1 := Applied(r, s);
    if r.watch.None? then r1 else r1.(watch := Some(r.watch.value.(channel := r.watch.value.channel.(lost := false))))
  }

  function SetReplica(c: Cluster, i: nat, r: Replica): Cluster
    requires i < |c.replicas|
  {
    c.(replicas := c.replicas[i := r])
  }

  function BootStep(c: Cluster, defaults: Contracts, getOk: bool, putOk: bool, raced: set<nat>): Cluster {
    var booted := Replica(defaults, 1, None, true);
    if getOk && c.store.revision > 0 then c.(replicas := c.replicas + [Applied(booted, c.store)])
    else if putOk then
      var c1 := Put(c, Snapshot(1, defaults), raced);
      c1.(replicas := c1.replicas + [Applied(booted, c1.store)])
    else c.(replicas := c.replicas + [booted])
  }

  function CommitStep(cfg: ContractConfig, c: Cluster, i: nat, edit: Edit, now: int, putOk: bool, raced: set<nat>): Cluster
    requires i < |c.replicas|
  {
    var candidate := Candidate(cfg, c.replicas[i].contracts, edit, now);
    if candidate.None? || !putOk then c
    else
      var c1 := Put(c, Snapshot(c.replicas[i].version + 1, candidate.value), raced);
      SetReplica(c1, i, Caught(c1.replicas[i], c1.store))
  }

  /** The consumer starts only when the initial snapshot is sent, and that waits for room. */
  function WatchStep(c: Cluster, op: ClusterOp): Cluster
    requires !op.Boot? && op.i < |c.replicas|
  {
    var r := c.replicas[op.i];
    match (op, r.watch)
    case (StartWatch(i), None) =>
      SetReplica(c, i, r.(watch := Some(Watch(Channel([], if c.store.revision > 0 then Some(c.store) else None, false), None))))
    case (SendInitial(i), Some(w)) =>
      if w.channel.unsent.Some? && |w.channel.queue| < c.buffer then
        SetReplica(c, i, r.(watch := Some(w.(channel := w.channel.(queue := w.channel.queue + [w.channel.unsent.value], unsent := None)))))
      else c
    case (Receive(i), Some(w)) =>
      if w.channel.unsent.None? && w.hand.None? && w.channel.queue != [] then
        SetReplica(c, i, r.(watch := Some(Watch(w.channel.(queue := w.channel.queue[1..]), Some(w.channel.queue[0])))))
      else c
    case (ApplyReceived(i), Some(w)) =>
      if w.hand.None? then c
      else
        var r1 := r.(watch := Some(w.(hand := None)));
        SetReplica(c, i, if w.hand.value.revision > r.version then Applied(r1, w.hand.value) else r1)
    case (StopWatch(i), Some(w)) => SetReplica(c, i, r.(watch := None))
    case _ => c
  }

  function Step(cfg: ContractConfig, c: Cluster, op: ClusterOp): Cluster {
    if op.Boot? then BootStep(c, BootMaps(cfg, op.bootstrap, op.now), op.getOk, op.putOk, op.raced)
    else if op.i >= |c.replicas| then c
    else match op
      case Commit(i, edit, now, putOk, raced) => CommitStep(cfg, c, i, edit, now, putOk, raced)
      case Sync(i, getOk) =>
        if getOk && c.store.revision > 0 then SetReplica(c, i, Caught(c.replicas[i], c.store)) else c
      case _ => WatchStep(c, op)
  }

  /** A store with room for some snapshots in each channel, empty or seeded. */
  function Start(buffer: nat, seed: Snapshot): Cluster {
    Cluster(seed, buffer, [], if seed.revision > 0 then map[seed.revision := seed.contracts] else map[])
  }

  function After(cfg: ContractConfig, start: Cluster, ops: seq<ClusterOp>): Cluster {
    if ops == [] then start else Step(cfg, After(cfg, start, ops[..|ops| - 1]), ops[|ops| - 1])
  }

  lemma NextStep(cfg: ContractConfig, c0: Cluster, ops: seq<ClusterOp>, op: ClusterOp)
    ensures After(cfg, c0, ops + [op]) == Step(cfg, After(cfg, c0, ops), op)
  {
    hide Step;
    assert (ops + [op])[..|ops|] == ops;
  }

  // ----- What every step keeps -----

  ghost predicate Genuine(c: Cluster, s: Snapshot) {
    s.revision in c.committed && c.committed[s.revision] == s.contracts
  }

  ghost predicate StoreOk(c: Cluster) {
    && c.buffer > 0
    && (c.store.revision > 0 ==> Genuine(c, c.store))
    && (forall n :: n in c.committed ==> 0 < n <= c.store.revision)
  }

  /** A kernel's maps are those committed at its version, unless it has never reached the store. */
  ghost predicate CacheOk(c: Cluster, r: Replica) {
    r.version >= 1 && if r.detached then r.version == 1 else Genuine(c, Snapshot(r.version, r.contracts))
  }

  ghost predicate Newest(c: Cluster, s: Snapshot) {
    s.revision == c.store.revision
  }

  /** Everything on its way was committed. */
  ghost predicate QueueOk(c: Cluster, w: Watch) {
    && |w.channel.queue| <= c.buffer
    && (forall n :: 0 <= n < |w.channel.queue| ==> Genuine(c, w.channel.queue[n]))
    && (w.channel.unsent.Some? ==> Genuine(c, w.channel.unsent.value))
    && (w.hand.Some? ==> Genuine(c, w.hand.value))
  }

  /** The newest snapshot is on its way. */
  ghost predicate OnItsWay(c: Cluster, w: Watch) {
    || (exists n :: 0 <= n < |w.channel.queue| && Newest(c, w.channel.queue[n]))
    || (w.channel.unsent.Some? && Newest(c, w.channel.unsent.value))
    || (w.hand.Some? && Newest(c, w.hand.value))
  }

  /** A lost snapshot is neither applied nor on its way; one that is not lost is applied or on its way. */
  ghost predicate WatchOk(c: Cluster, r: Replica, w: Watch) {
    && QueueOk(c, w)
    && if w.channel.lost then r.version < c.store.revision && !OnItsWay(c, w) else r.version >= c.store.revision || OnItsWay(c, w)
  }

  ghost predicate ReplicaOk(c: Cluster, r: Replica) {
    CacheOk(c, r) && (r.watch.Some? ==> WatchOk(c, r, r.watch.value))
  }

  ghost predicate ClusterOk(c: Cluster) {
    StoreOk(c) && forall i :: 0 <= i < |c.replicas| ==> ReplicaOk(c, c.replicas[i])
  }

  /** What a put does to the store: a later revision, and what was committed before stays. */
  ghost predicate Extends(c: Cluster, c': Cluster) {
    && c'.buffer == c.buffer && Genuine(c', c'.store) && c'.store.revision > c.store.revision
    && forall n :: n in c.committed ==> n in c'.committed && c'.committed[n] == c.committed[n]
  }

  lemma PushedQueueOk(c: Cluster, c': Cluster, w: Watch, raced: bool)
    requires StoreOk(c) && QueueOk(c, w) && Extends(c, c')
    ensures QueueOk(c', w.(channel := Pushed(w.channel, c.buffer, raced, c'.store)))
  {
    var q, q' := w.channel.queue, Pushed(w.channel, c.buffer, raced, c'.store).queue;
    forall n | 0 <= n < |q'| ensures Genuine(c', q'[n]) {
      if n < |q'| - 1 { assert q'[n] == q[n] || q'[n] == q[n + 1]; }
    }
  }

  lemma PushedWay(c: Cluster, c': Cluster, w: Watch, raced: bool)
    requires StoreOk(c) && QueueOk(c, w) && Extends(c, c')
    ensures var ch := Pushed(w.channel, c.buffer, raced, c'.store);
      OnItsWay(c', w.(channel := ch)) == !ch.lost
    ensures var ch := Pushed(w.channel, c.buffer, raced, c'.store); ch.lost ==> w.channel.unsent.Some?
  {
    var ch := Pushed(w.channel, c.buffer, raced, c'.store);
    var q, q' := w.channel.queue, ch.queue;
    if ch.lost {
      forall n | 0 <= n < |q'| ensures !Newest(c', q'[n]) {
        if n < |q'| - 1 { assert q'[n] == q[n + 1]; }
      }
    } else {
      assert Newest(c', q'[|q'| - 1]);
    }
  }

  lemma NotifiedOk(c: Cluster, c': Cluster, r: Replica, raced: bool)
    requires StoreOk(c) && ReplicaOk(c, r) && Extends(c, c')
    ensures ReplicaOk(c', Notified(r, c.buffer, raced, c'.store))
  {
    if r.watch.Some? {
      var w := r.watch.value;
      PushedQueueOk(c, c', w, raced);
      PushedWay(c, c', w, raced);
      if w.channel.unsent.Some? { assert c.store.revision >= 1; }
      hide Pushed, QueueOk, OnItsWay;
    }
  }

  lemma PutOk(c: Cluster, s: Snapshot, raced: set<nat>)
    requires ClusterOk(c)
    ensures var c' := Put(c, s, raced);
      && ClusterOk(c') && Extends(c, c') && c'.store.contracts == s.contracts
      && c'.store.revision >= s.revision && |c'.replicas| == |c.replicas|
  {
    hide ReplicaOk;
    var c' := Put(c, s, raced);
    assert c'.store.revision !in c.committed;
    forall i | 0 <= i < |c'.replicas| ensures ReplicaOk(c', c'.replicas[i]) {
      NotifiedOk(c, c', c.replicas[i], i in raced);
    }
  }

  lemma CaughtOk(c: Cluster, r: Replica)
    requires StoreOk(c) && ReplicaOk(c, r) && c.store.revision > 0
    ensures ReplicaOk(c, Caught(r, c.store))
  {
  }

  lemma SameStore(c: Cluster, c': Cluster, r: Replica)
    requires ReplicaOk(c, r) && c'.store == c.store && c'.buffer == c.buffer && c'.committed == c.committed
    ensures ReplicaOk(c', r)
  {
    if r.watch.Some? {
      var w := r.watch.value;
      assert OnItsWay(c', w) == OnItsWay(c, w) by {
        forall n | 0 <= n < |w.channel.queue| ensures Newest(c', w.channel.queue[n]) == Newest(c, w.channel.queue[n]) { }
      }
    }
  }

  lemma SetReplicaOk(c: Cluster, i: nat, r: Replica)
    requires ClusterOk(c) && i < |c.replicas| && ReplicaOk(c, r)
    ensures ClusterOk(SetReplica(c, i, r))
  {
    hide ReplicaOk;
    var c' := SetReplica(c, i, r);
    forall j | 0 <= j < |c'.replicas| ensures ReplicaOk(c', c'.replicas[j]) {
      assert ReplicaOk(c, c'.replicas[j]);
      SameStore(c, c', c'.replicas[j]);
    }
  }

  lemma AddReplicaOk(c: Cluster, r: Replica)
    requires ClusterOk(c) && ReplicaOk(c, r)
    ensures ClusterOk(c.(replicas := c.replicas + [r]))
  {
    hide ReplicaOk;
    var c' := c.(replicas := c.replicas + [r]);
    forall j | 0 <= j < |c'.replicas| ensures ReplicaOk(c', c'.replicas[j]) {
      assert ReplicaOk(c, c'.replicas[j]);
      SameStore(c, c', c'.replicas[j]);
    }
  }

  lemma BootOk(c: Cluster, defaults: Contracts, getOk: bool, putOk: bool, raced: set<nat>)
    requires ClusterOk(c)
    ensures ClusterOk(BootStep(c, defaults, getOk, putOk, raced))
  {
    hide Put;
    var booted := Replica(defaults, 1, None, true);
    if getOk && c.store.revision > 0 {
      AddReplicaOk(c, Applied(booted, c.store));
    } else if putOk {
      var c1 := Put(c, Snapshot(1, defaults), raced);
      PutOk(c, Snapshot(1, defaults), raced);
      AddReplicaOk(c1, Applied(booted, c1.store));
    } else {
      AddReplicaOk(c, booted);
    }
  }

  lemma CommitOk(cfg: ContractConfig, c: Cluster, i: nat, edit: Edit, now: int, putOk: bool, raced: set<nat>)
    requires ClusterOk(c) && i < |c.replicas|
    ensures ClusterOk(CommitStep(cfg, c, i, edit, now, putOk, raced))
  {
    hide Put, Candidate, ReplicaOk;
    var candidate := Candidate(cfg, c.replicas[i].contracts, edit, now);
    if candidate.Some? && putOk {
      var s := Snapshot(c.replicas[i].version + 1, candidate.value);
      PutOk(c, s, raced);
      var c1 := Put(c, s, raced);
      CaughtOk(c1, c1.replicas[i]);
      SetReplicaOk(c1, i, Caught(c1.replicas[i], c1.store));
    }
  }

  lemma StartWatchOk(c: Cluster, i: nat)
    requires ClusterOk(c) && i < |c.replicas|
    ensures ClusterOk(WatchStep(c, StartWatch(i)))
  {
    var r := c.replicas[i];
    assert ReplicaOk(c, r);
    if r.watch.None? {
      SetReplicaOk(c, i, r.(watch := Some(Watch(Channel([], if c.store.revision > 0 then Some(c.store) else None, false), None))));
    }
  }

  lemma SendInitialOk(c: Cluster, i: nat)
    requires ClusterOk(c) && i < |c.replicas|
    ensures ClusterOk(WatchStep(c, SendInitial(i)))
  {
    var r := c.replicas[i];
    assert ReplicaOk(c, r);
    if r.watch.Some? && r.watch.value.channel.unsent.Some? && |r.watch.value.channel.queue| < c.buffer {
      var w := r.watch.value;
      var w' := w.(channel := w.channel.(queue := w.channel.queue + [w.channel.unsent.value], unsent := None));
      assert OnItsWay(c, w') == OnItsWay(c, w) by { SentWay(c, w); }
      SetReplicaOk(c, i, r.(watch := Some(w')));
    }
  }

  /** Sending the initial snapshot only moves it. */
  lemma SentWay(c: Cluster, w: Watch)
    requires w.channel.unsent.Some?
    ensures OnItsWay(c, w.(channel := w.channel.(queue := w.channel.queue + [w.channel.unsent.value], unsent := None))) == OnItsWay(c, w)
  {
    var q := w.channel.queue;
    var q' := q + [w.channel.unsent.value];
    assert q'[|q|] == w.channel.unsent.value;
    assert forall n :: 0 <= n < |q| ==> q'[n] == q[n];
    if n :| 0 <= n < |q| && Newest(c, q[n]) { assert Newest(c, q'[n]); }
    if n :| 0 <= n < |q'| && Newest(c, q'[n]) { assert n < |q| ==> Newest(c, q[n]); }
  }

  /** Receiving only moves a snapshot from the front of the queue to the hand. */
  lemma ReceivedWay(c: Cluster, w: Watch)
    requires w.channel.queue != [] && w.hand.None?
    ensures OnItsWay(c, Watch(w.channel.(queue := w.channel.queue[1..]), Some(w.channel.queue[0]))) == OnItsWay(c, w)
  {
    var q := w.channel.queue;
    var q' := q[1..];
    assert forall n :: 0 <= n < |q'| ==> q'[n] == q[n + 1];
    if n :| 0 <= n < |q| && Newest(c, q[n]) { assert n > 0 ==> Newest(c, q'[n - 1]); }
    if n :| 0 <= n < |q'| && Newest(c, q'[n]) { assert Newest(c, q[n + 1]); }
  }

  lemma ReceiveOk(c: Cluster, i: nat)
    requires ClusterOk(c) && i < |c.replicas|
    ensures ClusterOk(WatchStep(c, Receive(i)))
  {
    var r := c.replicas[i];
    assert ReplicaOk(c, r);
    if r.watch.Some? && r.watch.value.channel.unsent.None? && r.watch.value.hand.None? && r.watch.value.channel.queue != [] {
      var w := r.watch.value;
      ReceivedWay(c, w);
      hide OnItsWay;
      SetReplicaOk(c, i, r.(watch := Some(Watch(w.channel.(queue := w.channel.queue[1..]), Some(w.channel.queue[0])))));
    }
  }

  lemma ApplyReceivedOk(c: Cluster, i: nat)
    requires ClusterOk(c) && i < |c.replicas|
    ensures ClusterOk(WatchStep(c, ApplyReceived(i)))
  {
    var r := c.replicas[i];
    assert ReplicaOk(c, r);
    if r.watch.Some? && r.watch.value.hand.Some? {
      var w, s := r.watch.value, r.watch.value.hand.value;
      var w' := w.(hand := None);
      var r1 := r.(watch := Some(w'));
      var r2 := if s.revision > r.version then Applied(r1, s) else r1;
      assert s.revision <= c.store.revision;
      assert OnItsWay(c, w) ==> OnItsWay(c, w') || Newest(c, s);
      assert OnItsWay(c, w') ==> OnItsWay(c, w);
      SetReplicaOk(c, i, r2);
    }
  }

  lemma StopWatchOk(c: Cluster, i: nat)
    requires ClusterOk(c) && i < |c.replicas|
    ensures ClusterOk(WatchStep(c, StopWatch(i)))
  {
    var r := c.replicas[i];
    assert ReplicaOk(c, r);
    if r.watch.Some? { SetReplicaOk(c, i, r.(watch := None)); }
  }

  lemma SyncOk(c: Cluster, i: nat)
    requires ClusterOk(c) && i < |c.replicas| && c.store.revision > 0
    ensures ClusterOk(SetReplica(c, i, Caught(c.replicas[i], c.store)))
  {
    hide ReplicaOk;
    CaughtOk(c, c.replicas[i]);
    SetReplicaOk(c, i, Caught(c.replicas[i], c.store));
  }

  lemma StepOk(cfg: ContractConfig, c: Cluster, op: ClusterOp)
    requires ClusterOk(c)
    ensures ClusterOk(Step(cfg, c, op))
  {
    hide ClusterOk, WatchStep, BootStep, CommitStep, BootMaps;
    if op.Boot? {
      BootOk(c, BootMaps(cfg, op.bootstrap, op.now), op.getOk, op.putOk, op.raced);
    } else if op.i < |c.replicas| {
      match op
      case Commit(i, edit, now, putOk, raced) => CommitOk(cfg, c, i, edit, now, putOk, raced);
      case Sync(i, getOk) => if getOk && c.store.revision > 0 { SyncOk(c, i); }
      case StartWatch(i) => StartWatchOk(c, i);
      case SendInitial(i) => SendInitialOk(c, i);
      case Receive(i) => ReceiveOk(c, i);
      case ApplyReceived(i) => ApplyReceivedOk(c, i);
      case StopWatch(i) => StopWatchOk(c, i);
    }
  }

  lemma {:induction false} ReachableOk(cfg: ContractConfig, buffer: nat, seed: Snapshot, ops: seq<ClusterOp>)
    requires buffer > 0
    ensures ClusterOk(After(cfg, Start(buffer, seed), ops))
  {
    if ops != [] {
      ReachableOk(cfg, buffer, seed, ops[..|ops| - 1]);
      hide ClusterOk, Step;
      StepOk(cfg, After(cfg, Start(buffer, seed), ops[..|ops| - 1]), ops[|ops| - 1]);
    }
  }

  // ----- What the steps that store do -----

  /** What is stored has the maps given, under the revision given or the next one after the store's, whichever is later. */
  lemma StoredIs(current: Snapshot, s: Snapshot)
    ensures var next := Stored(current, s);
      && next.contracts == s.contracts
      && next.revision == if s.revision > current.revision + 1 then s.revision else current.revision + 1
  {
  }

  /** What a publish, a rollback or the scheduler makes of a cache, if there is anything to commit. */
  ghost predicate Edits(cfg: ContractConfig, m: Contracts, edit: Edit, now: int, m': Contracts) {
    match edit
    case PublishEdit(req) => Publish(cfg, m, req, now) == Ok(m')
    case RollbackEdit(req) => Rollback(cfg, m, req, now) == Ok(m')
    case SchedulerEdit => (exists key :: key in m.scheduled && DueOf(m, key, now) != []) && RunScheduler(m, now) == m'
  }

  /**
   * An edit that goes through is in the store and in the kernel's cache under one new revision, and every other kernel's
   * cache is as it was; one that is refused, or whose put fails, changes nothing.
   */
  lemma CommitDoes(cfg: ContractConfig, c: Cluster, i: nat, edit: Edit, now: int, putOk: bool, raced: set<nat>)
    requires i < |c.replicas|
    ensures var (c', r) := (Step(cfg, c, Commit(i, edit, now, putOk, raced)), c.replicas[i]);
      if putOk && exists m' :: Edits(cfg, r.contracts, edit, now, m') then
        && Edits(cfg, r.contracts, edit, now, c'.store.contracts)
        && c'.store.revision > c.store.revision && c'.store.revision > r.version
        && |c'.replicas| == |c.replicas| && c'.replicas[i].contracts == c'.store.contracts && c'.replicas[i].version == c'.store.revision
        && forall j :: 0 <= j < |c.replicas| && j != i ==>
             c'.replicas[j].contracts == c.replicas[j].contracts && c'.replicas[j].version == c.replicas[j].version
      else c' == c
  {
    hide Candidate, Edits, Pushed;
    var m := c.replicas[i].contracts;
    forall m' ensures Edits(cfg, m, edit, now, m') <==> Candidate(cfg, m, edit, now) == Some(m') { CandidateIff(cfg, m, edit, now, m'); }
  }

  lemma CandidateIff(cfg: ContractConfig, m: Contracts, edit: Edit, now: int, m': Contracts)
    ensures Edits(cfg, m, edit, now, m') <==> Candidate(cfg, m, edit, now) == Some(m')
  {
    hide Publish, Rollback, ApplyDue, DueOf;
    if key :| key in m.scheduled && DueOf(m, key, now) != [] { assert key in DueKeys(m, now); }
    if DueKeys(m, now) != {} { var key :| key in DueKeys(m, now); assert key in m.scheduled && DueOf(m, key, now) != []; }
  }

  /** A kernel boots from a store that has something, else fills it, else starts detached with its own maps at version 1. */
  lemma BootDoes(cfg: ContractConfig, c: Cluster, bootstrap: map<StorageKey, Contract>, now: int, getOk: bool, putOk: bool, raced: set<nat>)
    ensures var (c', m) := (Step(cfg, c, Boot(bootstrap, now, getOk, putOk, raced)), BootMaps(cfg, bootstrap, now));
      && |c'.replicas| == |c.replicas| + 1
      && var r := c'.replicas[|c.replicas|];
      && r.watch.None?
      && if getOk && c.store.revision > 0 then c'.store == c.store && r.contracts == c.store.contracts && r.version == c.store.revision && !r.detached
         else if putOk then
           && c'.store.contracts == m && c'.store.revision == c.store.revision + 1
           && r.contracts == m && r.version == c'.store.revision && !r.detached
         else c'.store == c.store && r.contracts == m && r.version == 1 && r.detached
  {
    hide BootMaps, Pushed;
  }

  /** The maps of a boot: each configured contract is enforced, as version 1 of a history that notes its required fields. */
  lemma BootMapsAre(cfg: ContractConfig, bootstrap: map<StorageKey, Contract>, now: int, key: StorageKey)
    ensures var m := BootMaps(cfg, bootstrap, now);
      && ActiveOf(m, key) == (if key in bootstrap then Some(bootstrap[key]) else None) && (key in m.meta <==> key in bootstrap)
      && |History(m, key)| == (if key in bootstrap then 1 else 0) && Scheduled(m, key) == [] && Rollbacks(m, key) == []
      && (key in bootstrap ==>
            var v := History(m, key)[0];
            && v.version == 1 && v.status == ActiveVersion && v.activationAt == m.meta[key] == now
            && v.hash == cfg.hash(bootstrap[key]) && v.contract.required == bootstrap[key].required && Plain(v.contract))
  {
  }

  // ----- Agreement -----

  /**
   * Agreement: a kernel that has reached the store holds exactly the maps committed at its version, which is a revision of
   * the store. The version passes the store's revision only in a kernel that reached no store while that is still empty.
   */
  lemma CachesAgree(cfg: ContractConfig, buffer: nat, seed: Snapshot, ops: seq<ClusterOp>, i: nat)
    requires buffer > 0 && i < |After(cfg, Start(buffer, seed), ops).replicas|
    ensures var (c, r) := (After(cfg, Start(buffer, seed), ops), After(cfg, Start(buffer, seed), ops).replicas[i]);
      && (!r.detached ==> r.version in c.committed && r.contracts == c.committed[r.version] && r.version <= c.store.revision)
      && (r.version > c.store.revision <==> r.detached && c.store.revision == 0)
  {
    ReachableOk(cfg, buffer, seed, ops);
    var c := After(cfg, Start(buffer, seed), ops);
    hide After, WatchOk;
    assert ReplicaOk(c, c.replicas[i]);
  }

  /** From one cluster to a later one nothing committed is forgotten or changed, and kernel `i` does not fall back. */
  ghost predicate Forward(c: Cluster, c': Cluster, i: nat) {
    && i < |c.replicas| && i < |c'.replicas|
    && c.replicas[i].version <= c'.replicas[i].version
    && (!c.replicas[i].detached ==> !c'.replicas[i].detached)
    && (c'.replicas[i].detached ==> c'.replicas[i].contracts == c.replicas[i].contracts)
    && Kept(c, c')
  }

  ghost predicate Kept(c: Cluster, c': Cluster) {
    && c.store.revision <= c'.store.revision
    && forall n :: n in c.committed ==> n in c'.committed && c'.committed[n] == c.committed[n]
  }

  lemma PutForward(c: Cluster, s: Snapshot, raced: set<nat>, i: nat)
    requires ClusterOk(c) && i < |c.replicas|
    ensures Forward(c, Put(c, s, raced), i) && Put(c, s, raced).store.revision > c.store.revision && Put(c, s, raced).store.revision >= s.revision
  {
    hide Pushed, ReplicaOk;
  }

  lemma BootForward(c: Cluster, defaults: Contracts, getOk: bool, putOk: bool, raced: set<nat>, i: nat)
    requires ClusterOk(c) && i < |c.replicas|
    ensures Forward(c, BootStep(c, defaults, getOk, putOk, raced), i)
  {
    hide ReplicaOk, Put;
    PutForward(c, Snapshot(1, defaults), raced, i);
  }

  lemma CommitForward(cfg: ContractConfig, c: Cluster, at: nat, edit: Edit, now: int, putOk: bool, raced: set<nat>, i: nat)
    requires ClusterOk(c) && i < |c.replicas| && at < |c.replicas|
    ensures Forward(c, CommitStep(cfg, c, at, edit, now, putOk, raced), i)
  {
    hide ReplicaOk, Candidate, Put;
    var candidate := Candidate(cfg, c.replicas[at].contracts, edit, now);
    if candidate.Some? {
      PutForward(c, Snapshot(c.replicas[at].version + 1, candidate.value), raced, i);
      PutForward(c, Snapshot(c.replicas[at].version + 1, candidate.value), raced, at);
    }
  }

  lemma SetForward(c: Cluster, at: nat, r: Replica, i: nat)
    requires at < |c.replicas| && i < |c.replicas| && r.version >= c.replicas[at].version && (c.replicas[at].detached || !r.detached)
    requires r.detached ==> r.contracts == c.replicas[at].contracts
    ensures Forward(c, SetReplica(c, at, r), i)
  {
  }

  lemma WatchForward(c: Cluster, op: ClusterOp, i: nat)
    requires ClusterOk(c) && i < |c.replicas| && !op.Boot? && op.i < |c.replicas|
    ensures Forward(c, WatchStep(c, op), i)
  {
    hide ReplicaOk, StoreOk;
  }

  /** A step never takes a kernel's version back nor touches what was committed, and a failed put changes nothing at all. */
  lemma StepsForward(cfg: ContractConfig, c: Cluster, op: ClusterOp, i: nat)
    requires ClusterOk(c) && i < |c.replicas|
    ensures Forward(c, Step(cfg, c, op), i)
    ensures op.Commit? && !op.putOk ==> Step(cfg, c, op) == c
  {
    hide WatchStep, BootStep, BootMaps, Candidate, Put, WatchOk;
    assert Forward(c, c, i);
    if op.Boot? {
      BootForward(c, BootMaps(cfg, op.bootstrap, op.now), op.getOk, op.putOk, op.raced, i);
    } else if op.i < |c.replicas| {
      assert ReplicaOk(c, c.replicas[op.i]);
      match op
      case Commit(at, edit, now, putOk, raced) => CommitForward(cfg, c, at, edit, now, putOk, raced, i);
      case Sync(at, getOk) => if getOk && c.store.revision > 0 { SetForward(c, at, Caught(c.replicas[at], c.store), i); }
      case _ => WatchForward(c, op, i);
    }
  }

  // ----- Convergence -----

  /** Operation `n` is the boot of kernel `i`. */
  ghost predicate BootOf(cfg: ContractConfig, start: Cluster, ops: seq<ClusterOp>, n: nat, i: nat) {
    n < |ops| && ops[n].Boot? && |After(cfg, start, ops[..n]).replicas| == i
  }

  lemma StepSize(cfg: ContractConfig, c: Cluster, op: ClusterOp)
    ensures |Step(cfg, c, op).replicas| == |c.replicas| + if op.Boot? then 1 else 0
  {
    hide BootMaps, Candidate, Pushed;
  }

  lemma BootedMaps(cfg: ContractConfig, c: Cluster, op: ClusterOp)
    requires op.Boot?
    ensures var c' := Step(cfg, c, op);
      |c'.replicas| == |c.replicas| + 1 &&
      (c'.replicas[|c.replicas|].detached ==> c'.replicas[|c.replicas|].contracts == BootMaps(cfg, op.bootstrap, op.now))
  {
    hide BootMaps, Pushed;
  }

  /** Each kernel was booted at one point, and as long as it is detached it holds the maps it booted with. */
  lemma {:induction false} DetachedHoldsBoot(cfg: ContractConfig, buffer: nat, seed: Snapshot, ops: seq<ClusterOp>, i: nat) returns (n: nat)
    requires buffer > 0 && i < |After(cfg, Start(buffer, seed), ops).replicas|
    ensures BootOf(cfg, Start(buffer, seed), ops, n, i)
    ensures var r := After(cfg, Start(buffer, seed), ops).replicas[i];
      r.detached ==> r.contracts == BootMaps(cfg, ops[n].bootstrap, ops[n].now)
  {
    var start, init, op := Start(buffer, seed), ops[..|ops| - 1], ops[|ops| - 1];
    var c := After(cfg, start, init);
    assert After(cfg, start, ops) == Step(cfg, c, op);
    hide After, Step, BootMaps, ClusterOk;
    StepSize(cfg, c, op);
    if i < |c.replicas| {
      n := DetachedHoldsBoot(cfg, buffer, seed, init, i);
      assert init[..n] == ops[..n];
      ReachableOk(cfg, buffer, seed, init);
      StepsForward(cfg, c, op, i);
    } else {
      n := |init|;
      assert ops[..n] == init;
      BootedMaps(cfg, c, op);
    }
  }

  ghost predicate Drained(r: Replica) {
    r.watch.Some? && r.watch.value.channel.queue == [] && r.watch.value.channel.unsent.None? && r.watch.value.hand.None?
  }

  /**
   * Convergence, exactly. A watching kernel with nothing left to receive is at the store's revision if and only if the
   * newest snapshot was not lost to a waiting initial send. It then holds the latest maps, unless it reached no store at
   * boot and so takes revision 1 for the maps it booted with; those it holds if and only if they happen to be the same.
   */
  lemma DrainedHoldsLatest(cfg: ContractConfig, buffer: nat, seed: Snapshot, ops: seq<ClusterOp>, i: nat) returns (n: nat)
    requires buffer > 0 && i < |After(cfg, Start(buffer, seed), ops).replicas|
    requires Drained(After(cfg, Start(buffer, seed), ops).replicas[i]) && After(cfg, Start(buffer, seed), ops).store.revision > 0
    ensures BootOf(cfg, Start(buffer, seed), ops, n, i)
    ensures var (c, r) := (After(cfg, Start(buffer, seed), ops), After(cfg, Start(buffer, seed), ops).replicas[i]);
      && (r.version == c.store.revision <==> !r.watch.value.channel.lost)
      && (Snapshot(r.version, r.contracts) == c.store <==>
            && !r.watch.value.channel.lost
            && (!r.detached || c.store.revision > 1 || BootMaps(cfg, ops[n].bootstrap, ops[n].now) == c.store.contracts))
  {
    n := DetachedHoldsBoot(cfg, buffer, seed, ops, i);
    ReachableOk(cfg, buffer, seed, ops);
    var c := After(cfg, Start(buffer, seed), ops);
    hide After, BootMaps;
    assert ReplicaOk(c, c.replicas[i]);
  }

  // ----- Two histories that end behind -----

  const EMPTY := Snapshot(0, NO_CONTRACTS)

  ghost predicate Leads(cfg: ContractConfig, c: Cluster, op: ClusterOp, c': Cluster) {
    Step(cfg, c, op) == c'
  }

  lemma {:induction false} Chain(cfg: ContractConfig, start: Cluster, ops: seq<ClusterOp>, path: seq<Cluster>)
    requires |path| == |ops| + 1 && path[0] == start
    requires forall n :: 0 <= n < |ops| ==> Leads(cfg, path[n], ops[n], path[n + 1])
    ensures After(cfg, start, ops) == path[|ops|]
  {
    hide Step;
    if ops != [] { Chain(cfg, start, ops[..|ops| - 1], path[..|ops|]); }
  }

  /** The cluster with another watch for kernel 0. */
  function WithWatch(c: Cluster, w: Watch): Cluster
    requires c.replicas != []
  {
    SetReplica(c, 0, c.replicas[0].(watch := Some(w)))
  }

  /** Kernel 0, the only one that watches, takes the one snapshot waiting and finds it no newer than what it has. */
  lemma TakesAndSkips(cfg: ContractConfig, c: Cluster, s: Snapshot, lost: bool)
    requires c.replicas != [] && c.replicas[0].watch == Some(Watch(Channel([s], None, lost), None)) && s.revision <= c.replicas[0].version
    ensures Leads(cfg, c, Receive(0), WithWatch(c, Watch(Channel([], None, lost), Some(s))))
    ensures Leads(cfg, WithWatch(c, Watch(Channel([], None, lost), Some(s))), ApplyReceived(0), WithWatch(c, Watch(Channel([], None, lost), None)))
  {
    hide BootStep, CommitStep;
    assert [s][1..] == [];
  }

  /** What a boot that puts makes of a cluster in which kernel 0 alone watches. */
  function BootPut(c: Cluster, ch: Channel, m: Contracts, raced: bool): Cluster
    requires c.replicas != []
  {
    var s := Stored(c.store, Snapshot(1, m));
    var c1 := WithWatch(c, Watch(Pushed(ch, c.buffer, raced, s), None));
    Cluster(s, c.buffer, c1.replicas + [Replica(m, s.revision, None, false)], c.committed[s.revision := m])
  }

  lemma BootPuts(cfg: ContractConfig, c: Cluster, op: ClusterOp, ch: Channel)
    requires op.Boot? && op.putOk && !(op.getOk && c.store.revision > 0)
    requires c.replicas != [] && c.replicas[0].watch == Some(Watch(ch, None)) && forall i :: 0 < i < |c.replicas| ==> c.replicas[i].watch.None?
    ensures Leads(cfg, c, op, BootPut(c, ch, BootMaps(cfg, op.bootstrap, op.now), 0 in op.raced))
  {
    hide BootMaps, Pushed;
    var m := BootMaps(cfg, op.bootstrap, op.now);
    var s := Stored(c.store, Snapshot(1, m));
    assert NotifyAll(c, op.raced, s) == WithWatch(c, Watch(Pushed(ch, c.buffer, 0 in op.raced, s), None)).replicas;
  }

  /** The first kernel of a cluster, with or without a store in reach. */
  function First(m: Contracts, reached: bool): Cluster {
    Cluster(if reached then Snapshot(1, m) else EMPTY, 1, [Replica(m, 1, None, !reached)], if reached then map[1 := m] else map[])
  }

  function FirstChannel(m: Contracts, reached: bool): Channel {
    Channel([], if reached then Some(Snapshot(1, m)) else None, false)
  }

  lemma FirstBoots(cfg: ContractConfig, bootstrap: map<StorageKey, Contract>, now: int, reached: bool)
    ensures var m := BootMaps(cfg, bootstrap, now);
      && Leads(cfg, Start(1, EMPTY), Boot(bootstrap, now, reached, reached, {}), First(m, reached))
      && Leads(cfg, First(m, reached), StartWatch(0), WithWatch(First(m, reached), Watch(FirstChannel(m, reached), None)))
  {
    hide BootMaps, Pushed;
  }

  /**
   * A kernel that boots without reaching the store, and so calls its own maps version 1, watches the revision 1 of another
   * kernel go by: it ends drained and at the store's revision, with the store's maps only if both booted with the same.
   */
  lemma DetachedMissesRevisionOne(cfg: ContractConfig, own: map<StorageKey, Contract>, other: map<StorageKey, Contract>, now: int)
    returns (ops: seq<ClusterOp>)
    ensures var c := After(cfg, Start(1, EMPTY), ops);
      && |c.replicas| == 2 && Drained(c.replicas[0]) && c.replicas[0].version == c.store.revision == 1
      && (c.replicas[0].contracts == c.store.contracts <==> own == other)
  {
    ops := [Boot(own, now, false, false, {}), StartWatch(0), Boot(other, now, true, true, {}), Receive(0), ApplyReceived(0)];
    var m, m' := BootMaps(cfg, own, now), BootMaps(cfg, other, now);
    assert m.active == own && m'.active == other;
    hide BootMaps, After;
    FirstBoots(cfg, own, now, false);
    hide Step;
    var c0, c1, ch := Start(1, EMPTY), First(m, false), FirstChannel(m, false);
    var c2 := WithWatch(c1, Watch(ch, None));
    var c3 := BootPut(c2, ch, m', false);
    BootPuts(cfg, c2, ops[2], ch);
    TakesAndSkips(cfg, c3, Snapshot(1, m'), false);
    Chain(cfg, c0, ops, [c0, c1, c2, c3, WithWatch(c3, Watch(ch, Some(Snapshot(1, m')))), WithWatch(c3, Watch(ch, None))]);
  }

  /**
   * A kernel's initial snapshot waits for the channel that the second put has filled; the third put drops the second to
   * make room, the initial snapshot takes the slot and the third is lost. The kernel ends drained, two revisions behind.
   */
  lemma LostPushLeavesBehind(cfg: ContractConfig, bootstrap: map<StorageKey, Contract>, now: int) returns (ops: seq<ClusterOp>)
    ensures var c := After(cfg, Start(1, EMPTY), ops);
      && |c.replicas| == 3 && Drained(c.replicas[0]) && c.replicas[0].version == 1 && c.store.revision == 3
      && !c.replicas[0].detached && c.replicas[0].watch.value.channel.lost
  {
    ops := [Boot(bootstrap, now, true, true, {}), StartWatch(0), Boot(bootstrap, now, false, true, {}),
            Boot(bootstrap, now, false, true, {0}), Receive(0), ApplyReceived(0)];
    var m := BootMaps(cfg, bootstrap, now);
    hide BootMaps, After;
    FirstBoots(cfg, bootstrap, now, true);
    hide Step;
    var s1, s2, ch := Snapshot(1, m), Snapshot(2, m), FirstChannel(m, true);
    var c0, c1 := Start(1, EMPTY), First(m, true);
    var c2 := WithWatch(c1, Watch(ch, None));
    var c3, ch3 := BootPut(c2, ch, m, false), Channel([s2], Some(s1), false);
    BootPuts(cfg, c2, ops[2], ch);
    var c4, ch5 := BootPut(c3, ch3, m, true), Channel([], None, true);
    BootPuts(cfg, c3, ops[3], ch3);
    assert [s2][1..] + [s1] == [s1];
    TakesAndSkips(cfg, c4, s1, true);
    Chain(cfg, c0, ops, [c0, c1, c2, c3, c4, WithWatch(c4, Watch(ch5, Some(s1))), WithWatch(c4, Watch(ch5, None))]);
  }

  // ----- Well-formedness -----

  /** A contract that requires fields and no more: the history of a boot tells the whole of it. */
  predicate Plain(c: Contract) {
    c.schema == "" && c.producers == [] && c.maxFreshness == 0 && c.maxDrift == 0.0
  }

  ghost predicate AllPlain(bootstrap: map<StorageKey, Contract>) {
    forall key :: key in bootstrap ==> Plain(bootstrap[key])
  }

  lemma BootKeyOk(cfg: ContractConfig, bootstrap: map<StorageKey, Contract>, now: int, key: StorageKey)
    ensures var m := BootMaps(cfg, bootstrap, now);
      KeyOk(cfg, History(m, key), ActiveOf(m, key), Scheduled(m, key)) <==> (key in bootstrap ==> Plain(bootstrap[key]))
  {
    var m := BootMaps(cfg, bootstrap, now);
    if key in bootstrap {
      assert History(m, key)[0].status == ActiveVersion;
      if Plain(bootstrap[key]) { assert History(m, key)[0].contract == bootstrap[key]; }
    }
  }

  /** The maps a kernel boots with are well formed if and only if the configured contracts only require fields. */
  lemma BootWellFormed(cfg: ContractConfig, bootstrap: map<StorageKey, Contract>, now: int)
    ensures WellFormed(cfg, BootMaps(cfg, bootstrap, now)) <==> AllPlain(bootstrap)
  {
    forall key { BootKeyOk(cfg, bootstrap, now, key); }
    hide KeyOk, Plain;
    var m := BootMaps(cfg, bootstrap, now);
    assert m.meta.Keys == m.active.Keys;
    if WellFormed(cfg, m) {
      forall key | key in bootstrap ensures Plain(bootstrap[key]) {
        assert KeyOk(cfg, History(m, key), ActiveOf(m, key), Scheduled(m, key));
      }
    }
  }

  lemma CandidateOk(cfg: ContractConfig, m: Contracts, edit: Edit, now: int)
    requires WellFormed(cfg, m) && Candidate(cfg, m, edit, now).Some?
    ensures WellFormed(cfg, Candidate(cfg, m, edit, now).value)
  {
    hide WellFormed, Publish, Rollback, ApplyDue, DueKeys;
    match edit
    case PublishEdit(req) => PublishKeeps(cfg, m, req, now);
    case RollbackEdit(req) => RollbackKeeps(cfg, m, req, now);
    case SchedulerEdit => SchedulerKeeps(cfg, m, now);
  }

  ghost predicate CommitsOk(cfg: ContractConfig, c: Cluster) {
    forall n :: n in c.committed ==> WellFormed(cfg, c.committed[n])
  }

  /** Every snapshot committed and every cache is well formed. */
  ghost predicate AllWellFormed(cfg: ContractConfig, c: Cluster) {
    CommitsOk(cfg, c) && forall i :: 0 <= i < |c.replicas| ==> WellFormed(cfg, c.replicas[i].contracts)
  }

  /** A kernel boots with its configured contracts if it cannot read the store or finds it empty. */
  predicate UsesDefaults(c: Cluster, op: ClusterOp) {
    op.Boot? && !(op.getOk && c.store.revision > 0)
  }

  lemma StepCommits(cfg: ContractConfig, c: Cluster, op: ClusterOp)
    requires AllWellFormed(cfg, c) && (UsesDefaults(c, op) ==> AllPlain(op.bootstrap))
    ensures CommitsOk(cfg, Step(cfg, c, op))
  {
    hide WellFormed, Candidate, BootMaps, Pushed;
    if op.Boot? {
      BootWellFormed(cfg, op.bootstrap, op.now);
    } else if op.Commit? && op.i < |c.replicas| && op.putOk {
      var m := c.replicas[op.i].contracts;
      if Candidate(cfg, m, op.edit, op.now).Some? { CandidateOk(cfg, m, op.edit, op.now); }
    }
  }

  lemma StepWellFormed(cfg: ContractConfig, c: Cluster, op: ClusterOp)
    requires ClusterOk(c) && AllWellFormed(cfg, c) && (UsesDefaults(c, op) ==> AllPlain(op.bootstrap))
    ensures AllWellFormed(cfg, Step(cfg, c, op))
  {
    StepOk(cfg, c, op);
    StepCommits(cfg, c, op);
    StepSize(cfg, c, op);
    hide Step, WellFormed, StoreOk, WatchOk, AllPlain, BootMaps;
    var c' := Step(cfg, c, op);
    forall i | 0 <= i < |c'.replicas| ensures WellFormed(cfg, c'.replicas[i].contracts) {
      assert ReplicaOk(c', c'.replicas[i]);
      if c'.replicas[i].detached {
        if i < |c.replicas| {
          StepsForward(cfg, c, op, i);
        } else {
          BootedMaps(cfg, c, op);
          BootWellFormed(cfg, op.bootstrap, op.now);
        }
      }
    }
  }

  /** The seed is well formed, and so is every set of configured contracts a kernel boots with. */
  ghost predicate SoundStart(cfg: ContractConfig, start: Cluster, ops: seq<ClusterOp>) {
    && (start.store.revision > 0 ==> WellFormed(cfg, start.store.contracts))
    && forall n :: 0 <= n < |ops| && UsesDefaults(After(cfg, start, ops[..n]), ops[n]) ==> AllPlain(ops[n].bootstrap)
  }

  lemma SoundCut(cfg: ContractConfig, start: Cluster, ops: seq<ClusterOp>, n: nat)
    requires n <= |ops| && SoundStart(cfg, start, ops)
    ensures SoundStart(cfg, start, ops[..n])
  {
    hide After, UsesDefaults, AllPlain, WellFormed;
    assert forall k :: 0 <= k < n ==> ops[..n][..k] == ops[..k] && ops[..n][k] == ops[k];
  }

  lemma {:induction false} SoundStays(cfg: ContractConfig, buffer: nat, seed: Snapshot, ops: seq<ClusterOp>)
    requires buffer > 0 && SoundStart(cfg, Start(buffer, seed), ops)
    ensures AllWellFormed(cfg, After(cfg, Start(buffer, seed), ops))
  {
    hide WellFormed;
    if ops != [] {
      var init := ops[..|ops| - 1];
      var c := After(cfg, Start(buffer, seed), init);
      SoundCut(cfg, Start(buffer, seed), ops, |init|);
      SoundStays(cfg, buffer, seed, init);
      ReachableOk(cfg, buffer, seed, init);
      hide Step, AllPlain, ClusterOk;
      StepWellFormed(cfg, c, ops[|ops| - 1]);
    }
  }

  /**
   * Exactly when nothing malformed is ever committed or held, however stale the cache an edit starts from: when the seed
   * is well formed and every kernel that boots with its configured contracts was configured with plain ones.
   */
  lemma CommittedWellFormed(cfg: ContractConfig, buffer: nat, seed: Snapshot, ops: seq<ClusterOp>)
    requires buffer > 0
    ensures (forall n :: 0 <= n <= |ops| ==> AllWellFormed(cfg, After(cfg, Start(buffer, seed), ops[..n])))
            <==> SoundStart(cfg, Start(buffer, seed), ops)
  {
    var start := Start(buffer, seed);
    hide WellFormed, Step, AllPlain;
    if SoundStart(cfg, start, ops) {
      forall n | 0 <= n <= |ops| ensures AllWellFormed(cfg, After(cfg, start, ops[..n])) {
        SoundCut(cfg, start, ops, n);
        SoundStays(cfg, buffer, seed, ops[..n]);
      }
    }
    if forall n :: 0 <= n <= |ops| ==> AllWellFormed(cfg, After(cfg, start, ops[..n])) {
      assert After(cfg, start, ops[..0]) == start;
      assert seed.revision > 0 ==> start.committed[seed.revision] == seed.contracts;
      forall n | 0 <= n < |ops| && UsesDefaults(After(cfg, start, ops[..n]), ops[n]) ensures AllPlain(ops[n].bootstrap) {
        BootShows(cfg, start, ops, n);
      }
    }
  }

  lemma BootShows(cfg: ContractConfig, start: Cluster, ops: seq<ClusterOp>, n: nat)
    requires n < |ops| && UsesDefaults(After(cfg, start, ops[..n]), ops[n])
    requires AllWellFormed(cfg, After(cfg, start, ops[..n + 1]))
    ensures AllPlain(ops[n].bootstrap)
  {
    hide WellFormed, After, BootMaps, Pushed, AllPlain, CommitsOk;
    var c := After(cfg, start, ops[..n]);
    assert ops[..n + 1] == ops[..n] + [ops[n]];
    NextStep(cfg, start, ops[..n], ops[n]);
    BootWellFormed(cfg, ops[n].bootstrap, ops[n].now);
    var c' := Step(cfg, c, ops[n]);
    assert c'.replicas[|c.replicas|].contracts == BootMaps(cfg, ops[n].bootstrap, ops[n].now);
  }
}
