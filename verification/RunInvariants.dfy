/** What every operation of the run kernel keeps, proved operation by operation from two facts: a step was appended, or a gate failed. */
module RunInvariants {
  import opened RunTypes
  import opened RunSpec

  // ----- One run and its log -----

  /** Entry `i` carries the digest of its content, and its content names the digest before it. */
  ghost predicate Linked(cfg: Config, log: seq<Step>, i: nat)
    requires i < |log|
  {
    log[i].hash == cfg.stepHash(log[i].content) && log[i].content.prev == HashAt(log, i)
  }

  ghost predicate Chained(cfg: Config, log: seq<Step>) {
    forall i: nat | i < |log| :: Linked(cfg, log, i)
  }

  ghost predicate Ascending(log: seq<Step>) {
    && (forall i :: 0 <= i < |log| ==> log[i].seqId > 0)
    && (forall i, j :: 0 <= i < j < |log| ==> log[i].seqId < log[j].seqId)
  }

  /** The digest that stands for the first `n` entries: blank for none, else that of the last of them. */
  function HashAt(log: seq<Step>, n: nat): string
    requires n <= |log|
  {
    if n == 0 then "" else log[n - 1].hash
  }

  function LastSeq(log: seq<Step>): int {
    if log == [] then 0 else log[|log| - 1].seqId
  }

  /** Away from FAILED and SAFEGUARD_HOLD the root is the head of the chain; in those two it may lag, on an earlier prefix. */
  ghost predicate RootOk(v: RunView, log: seq<Step>) {
    && (v.state != Failed && v.state != SafeguardHold ==> v.root == v.lastHash)
    && 0 <= v.rootVersion <= |log|
    && (v.root != v.lastHash ==> v.rootVersion < |log|)
    && exists n: nat | n <= |log| :: v.root == HashAt(log, n)
  }

  ghost predicate RunOk(cfg: Config, id: string, r: Run, log: seq<Step>) {
    && r.view.runId == id
    && Chained(cfg, log)
    && Ascending(log)
    && r.view.version == 1 + |log|
    && r.view.lastHash == HashAt(log, |log|)
    && r.view.seqId == LastSeq(log)
    && RootOk(r.view, log)
  }

  // ----- The whole kernel -----

  ghost predicate RunsOk(cfg: Config, k: Kernel) {
    && (forall id :: id in k.runs ==> RunOk(cfg, id, k.runs[id], Log(k, id)))
    && k.logs.Keys <= k.runs.Keys
  }

  ghost predicate Named(cfg: Config, id: string, upTo: nat) {
    exists f, n: nat :: n <= upTo && id == cfg.runName(f, n)
  }

  ghost predicate NamesOk(cfg: Config, k: Kernel) {
    forall id :: id in k.runs ==> Named(cfg, id, k.runSeq)
  }

  ghost predicate Live(k: Kernel, id: string) {
    id in k.runs && !IsTerminal(k.runs[id].view.state)
  }

  /** The park step that issued the token is in the run's log. */
  ghost predicate Issued(log: seq<Step>, t: Token) {
    exists s :: s in log && s.seqId == t.seqId && s.stepId == t.stepId && s.content.SyntheticContent? && s.content.tag == ParkStep
  }

  /** A token at the run's current sequence number is unconsumed and fits the state the run is parked in. */
  ghost predicate TokenOk(k: Kernel, t: Token) {
    && t in k.conts
    && Live(k, t.runId)
    && t.seqId <= k.runs[t.runId].view.seqId
    && Issued(Log(k, t.runId), t)
    && (t.seqId == k.runs[t.runId].view.seqId ==>
          !k.conts[t].status.Consumed? && TokenMatchesState(t.typ, k.runs[t.runId].view.state))
  }

  ghost predicate TokensOk(k: Kernel) {
    && (forall t :: t in k.conts ==> TokenOk(k, t))
    && (forall t, t' :: t in k.conts && t' in k.conts && t.runId == t'.runId && t.seqId == t'.seqId ==> t == t')
  }

  /** A cached response tells of the log entry two below its state version. */
  ghost predicate Recorded(log: seq<Step>, i: IdemKey, resp: AdvanceResponse) {
    var n := resp.version - 2;
    && 0 <= n < |log|
    && log[n].content.NormalContent?
    && log[n].stepId == i.stepId
    && log[n].hash == resp.stepHash
    && log[n].seqId == resp.seqId
  }

  ghost predicate IdemOk(k: Kernel) {
    forall i :: i in k.idem ==>
      && k.idem[i].runId == i.runId
      && Live(k, i.runId)
      && Recorded(Log(k, i.runId), i, k.idem[i].response)
  }

  ghost predicate CreateOk(cfg: Config, k: Kernel, c: CreateKey, e: CreateEntry) {
    && Live(k, e.runId)
    && e.runId in k.born
    && c == CreateKey(k.born[e.runId].tenant, k.born[e.runId].requestId)
    && e.fingerprint == cfg.fingerprint(k.born[e.runId])
    && e.response == CreateResponse(e.runId, k.runs[e.runId].view.snapshotHash,
                                    k.born[e.runId].snapshot.contextPolicyHash, k.runs[e.runId].view.createdAt)
  }

  ghost predicate CreatesOk(cfg: Config, k: Kernel) {
    forall c :: c in k.creates ==> CreateOk(cfg, k, c, k.creates[c])
  }

  ghost predicate CachesOk(cfg: Config, k: Kernel) {
    TokensOk(k) && IdemOk(k) && CreatesOk(cfg, k)
  }

  ghost predicate Inv(cfg: Config, k: Kernel) {
    RunsOk(cfg, k) && NamesOk(cfg, k) && CachesOk(cfg, k)
  }

  // ----- One run -----

  /** The fields the invariant speaks of. */
  ghost predicate SameCore(v: RunView, w: RunView) {
    && v.runId == w.runId && v.state == w.state && v.version == w.version && v.lastHash == w.lastHash
    && v.root == w.root && v.rootVersion == w.rootVersion && v.seqId == w.seqId
    && v.snapshotHash == w.snapshotHash && v.createdAt == w.createdAt && v.tenant == w.tenant
  }

  ghost predicate Follows(cfg: Config, r: Run, s: Step) {
    s.content.prev == r.view.lastHash && s.hash == cfg.stepHash(s.content) && s.seqId > r.view.seqId
  }

  lemma HoldRunOk(cfg: Config, id: string, r: Run, log: seq<Step>, now: int)
    requires RunOk(cfg, id, r, log)
    ensures RunOk(cfg, id, Hold(r, now), log)
    ensures Hold(r, now).view.root == Hold(r, now).view.lastHash || r.view.lastHash == ""
  {
    assert r.view.lastHash == HashAt(log, |log|);
  }

  lemma ChainedSnoc(cfg: Config, log: seq<Step>, s: Step)
    requires Chained(cfg, log) && s.hash == cfg.stepHash(s.content) && s.content.prev == HashAt(log, |log|)
    ensures Chained(cfg, log + [s])
  {
    var log' := log + [s];
    forall i: nat | i < |log'| ensures Linked(cfg, log', i) {
      if i < |log| { assert Linked(cfg, log, i); }
    }
  }

  /** The root after an append: the new head if the new state anchors, else where it was. */
  lemma RootSnoc(v: RunView, log: seq<Step>, s: Step, next: RunState, w: RunView)
    requires RootOk(v, log) && s.hash != ""
    requires w.state == next && w.lastHash == s.hash
    requires if RootOf(next) == NoRoot then w.root == v.root && w.rootVersion == v.rootVersion
             else w.root == s.hash && w.rootVersion == if s.hash != v.root then v.rootVersion + 1 else v.rootVersion
    ensures RootOk(w, log + [s])
  {
    var log' := log + [s];
    if RootOf(next) == NoRoot {
      var n: nat :| n <= |log| && v.root == HashAt(log, n);
      assert w.root == HashAt(log', n);
    } else {
      assert w.root == HashAt(log', |log'|);
    }
  }

  lemma ExtendRunOk(cfg: Config, id: string, r: Run, log: seq<Step>, s: Step, next: RunState, r': Run)
    requires RunOk(cfg, id, r, log) && Follows(cfg, r, s) && s.hash != ""
    requires SameCore(r'.view, Extend(r, s, next).view)
    ensures RunOk(cfg, id, r', log + [s])
  {
    ChainedSnoc(cfg, log, s);
    RootSnoc(r.view, log, s, next, r'.view);
  }

  // ----- One cache entry, carried from a kernel `k` to a kernel `k'` -----

  ghost predicate IdemEntryOk(k: Kernel, i: IdemKey, e: IdemEntry) {
    e.runId == i.runId && Live(k, i.runId) && Recorded(Log(k, i.runId), i, e.response)
  }

  /** The run is live in both, its log has only grown, and what identifies it is the same. */
  ghost predicate Grown(k: Kernel, k': Kernel, id: string) {
    && Live(k, id) && Live(k', id)
    && Log(k, id) <= Log(k', id)
    && k.runs[id].view.seqId <= k'.runs[id].view.seqId
    && k.runs[id].view.snapshotHash == k'.runs[id].view.snapshotHash
    && k.runs[id].view.createdAt == k'.runs[id].view.createdAt
  }

  /** If the token sits at the run's sequence number now, it did before, and the run is in the same state. */
  ghost predicate Stands(k: Kernel, k': Kernel, t: Token)
    requires t.runId in k.runs && t.runId in k'.runs
  {
    t.seqId == k'.runs[t.runId].view.seqId ==>
      t.seqId == k.runs[t.runId].view.seqId && k.runs[t.runId].view.state == k'.runs[t.runId].view.state
  }

  lemma TokenStays(k: Kernel, k': Kernel, t: Token)
    requires TokenOk(k, t) && Grown(k, k', t.runId) && Stands(k, k', t)
    requires t in k'.conts && (k'.conts[t].status.Consumed? ==> k.conts[t].status.Consumed?)
    ensures TokenOk(k', t)
  {
    var p :| p in Log(k, t.runId) && p.seqId == t.seqId && p.stepId == t.stepId && p.content.SyntheticContent? && p.content.tag == ParkStep;
    assert p in Log(k', t.runId);
  }

  lemma IdemStays(k: Kernel, k': Kernel, i: IdemKey, e: IdemEntry)
    requires IdemEntryOk(k, i, e) && Grown(k, k', i.runId)
    ensures IdemEntryOk(k', i, e)
  {
  }

  lemma CreateStays(cfg: Config, k: Kernel, k': Kernel, c: CreateKey, e: CreateEntry)
    requires CreateOk(cfg, k, c, e) && Grown(k, k', e.runId)
    requires e.runId in k'.born && k'.born[e.runId] == k.born[e.runId]
    ensures CreateOk(cfg, k', c, e)
  {
  }

  /**
   * Every operation is of this shape: the entries that remain are entries that were there, of runs that are live
   * still and have only grown, so they are sound still.
   */
  lemma CachesStay(cfg: Config, k: Kernel, k': Kernel)
    requires CachesOk(cfg, k)
    requires k'.conts.Keys <= k.conts.Keys && k'.idem.Keys <= k.idem.Keys && k'.creates.Keys <= k.creates.Keys
    requires k'.born == k.born
    requires forall t :: t in k'.conts ==>
      Grown(k, k', t.runId) && Stands(k, k', t) && (k'.conts[t].status.Consumed? ==> k.conts[t].status.Consumed?)
    requires forall i :: i in k'.idem ==> Grown(k, k', i.runId) && k'.idem[i].(lastAccess := 0) == k.idem[i].(lastAccess := 0)
    requires forall c :: c in k'.creates ==> Grown(k, k', k.creates[c].runId) && k'.creates[c].(lastAccess := 0) == k.creates[c].(lastAccess := 0)
    ensures CachesOk(cfg, k')
  {
    forall t | t in k'.conts ensures TokenOk(k', t) { TokenStays(k, k', t); }
    forall i | i in k'.idem ensures IdemEntryOk(k', i, k'.idem[i]) { IdemStays(k, k', i, k.idem[i]); }
    forall c | c in k'.creates ensures CreateOk(cfg, k', c, k'.creates[c]) { CreateStays(cfg, k, k', c, k.creates[c]); }
  }

  // ----- Effects on the kernel -----

  lemma SetRunCaches(cfg: Config, k: Kernel, id: string, r: Run)
    requires CachesOk(cfg, k) && Live(k, id) && !IsTerminal(r.view.state)
    requires r.view.seqId == k.runs[id].view.seqId
    requires r.view.snapshotHash == k.runs[id].view.snapshotHash && r.view.createdAt == k.runs[id].view.createdAt
    requires r.view.state == k.runs[id].view.state || (k.runs[id].view.state != Parked && k.runs[id].view.state != AwaitingApproval)
    ensures CachesOk(cfg, SetRun(k, id, r))
  {
    var k' := SetRun(k, id, r);
    forall t | t in k'.conts ensures Grown(k, k', t.runId) && Stands(k, k', t) { assert TokenOk(k, t); }
    forall i | i in k'.idem ensures Grown(k, k', i.runId) { }
    forall c | c in k'.creates ensures Grown(k, k', k.creates[c].runId) { assert CreateOk(cfg, k, c, k.creates[c]); }
    CachesStay(cfg, k, k');
  }

  lemma SetRunRuns(cfg: Config, k: Kernel, id: string, r: Run)
    requires RunsOk(cfg, k) && NamesOk(cfg, k) && id in k.runs && RunOk(cfg, id, r, Log(k, id))
    ensures RunsOk(cfg, SetRun(k, id, r)) && NamesOk(cfg, SetRun(k, id, r))
  {
    hide RunOk;
  }

  lemma CoreRunOk(cfg: Config, id: string, r: Run, r': Run, log: seq<Step>)
    requires RunOk(cfg, id, r, log) && SameCore(r.view, r'.view)
    ensures RunOk(cfg, id, r', log)
  {
  }

  /** Only fields outside the invariant of a live run change. */
  lemma SetRunKeeps(cfg: Config, k: Kernel, id: string, r: Run)
    requires Inv(cfg, k) && Live(k, id) && SameCore(k.runs[id].view, r.view)
    ensures Inv(cfg, SetRun(k, id, r))
  {
    CoreRunOk(cfg, id, k.runs[id], r, Log(k, id));
    SetRunRuns(cfg, k, id, r);
    SetRunCaches(cfg, k, id, r);
  }

  lemma HoldFields(r: Run, now: int)
    ensures var v := Hold(r, now).view;
      && v.state == SafeguardHold && v.seqId == r.view.seqId && v.tenant == r.view.tenant
      && v.snapshotHash == r.view.snapshotHash && v.createdAt == r.view.createdAt
  {
  }

  /** A gate failure on a run that is neither terminal nor parked leaves the invariant intact. */
  lemma HoldKeeps(cfg: Config, k: Kernel, id: string, r: Run, now: int)
    requires Inv(cfg, k) && Live(k, id)
    requires k.runs[id].view.state != Parked && k.runs[id].view.state != AwaitingApproval
    requires SameCore(k.runs[id].view, r.view)
    ensures Inv(cfg, SetRun(k, id, Hold(r, now)))
  {
    var held := Hold(r, now);
    assert RunOk(cfg, id, held, Log(k, id)) by {
      CoreRunOk(cfg, id, k.runs[id], r, Log(k, id));
      HoldRunOk(cfg, id, r, Log(k, id), now);
    }
    HoldFields(r, now);
    SetRunRuns(cfg, k, id, held);
    SetRunCaches(cfg, k, id, held);
  }

  lemma PutGrown(k: Kernel, id: string, r: Run, s: Step, x: string)
    requires Live(k, id) && Live(k, x) && r.view.seqId >= k.runs[id].view.seqId
    requires r.view.snapshotHash == k.runs[id].view.snapshotHash && r.view.createdAt == k.runs[id].view.createdAt
    requires x != id || !IsTerminal(r.view.state)
    ensures Grown(k, Put(k, id, r, s), x)
  {
  }

  /** No cache entry is of run `id`. */
  ghost predicate Uncached(k: Kernel, id: string) {
    && (forall t :: t in k.conts ==> t.runId != id)
    && (forall i :: i in k.idem ==> i.runId != id)
    && (forall c :: c in k.creates ==> k.creates[c].runId != id)
  }

  lemma PutCaches(cfg: Config, k: Kernel, id: string, r: Run, s: Step)
    requires CachesOk(cfg, k) && Live(k, id) && s.seqId > k.runs[id].view.seqId && r.view.seqId == s.seqId
    requires r.view.snapshotHash == k.runs[id].view.snapshotHash && r.view.createdAt == k.runs[id].view.createdAt
    requires IsTerminal(r.view.state) ==> Uncached(k, id)
    ensures CachesOk(cfg, Put(k, id, r, s))
  {
    var k' := Put(k, id, r, s);
    forall t | t in k'.conts ensures Grown(k, k', t.runId) && Stands(k, k', t) { assert TokenOk(k, t); PutGrown(k, id, r, s, t.runId); }
    forall i | i in k'.idem ensures Grown(k, k', i.runId) { PutGrown(k, id, r, s, i.runId); }
    forall c | c in k'.creates ensures Grown(k, k', k.creates[c].runId) { PutGrown(k, id, r, s, k.creates[c].runId); }
    CachesStay(cfg, k, k');
  }

  /** The runs and logs are as they were; cache entries are removed, aged or touched. */
  ghost predicate Thinned(k: Kernel, k': Kernel) {
    && k'.runs == k.runs && k'.logs == k.logs && k'.born == k.born
    && k'.conts.Keys <= k.conts.Keys && k'.idem.Keys <= k.idem.Keys && k'.creates.Keys <= k.creates.Keys
    && (forall t :: t in k'.conts ==> k'.conts[t].status.Consumed? ==> k.conts[t].status.Consumed?)
    && (forall i :: i in k'.idem ==> k'.idem[i].runId == k.idem[i].runId && k'.idem[i].response == k.idem[i].response)
    && (forall c :: c in k'.creates ==> k'.creates[c].(lastAccess := 0) == k.creates[c].(lastAccess := 0))
  }

  lemma ThinnedKeeps(cfg: Config, k: Kernel, k': Kernel)
    requires CachesOk(cfg, k) && Thinned(k, k')
    ensures CachesOk(cfg, k')
  {
    hide Issued, Recorded;
    assert forall id :: Log(k', id) == Log(k, id);
    forall t | t in k'.conts ensures TokenOk(k', t) { assert TokenOk(k, t); }
    forall c | c in k'.creates ensures CreateOk(cfg, k', c, k'.creates[c]) { assert CreateOk(cfg, k, c, k.creates[c]); }
  }

  lemma DropStays(cfg: Config, k: Kernel, ids: set<string>)
    requires CachesOk(cfg, k)
    ensures CachesOk(cfg, DropCaches(k, ids))
  {
    DropThins(k, ids);
    ThinnedKeeps(cfg, k, DropCaches(k, ids));
  }

  lemma DropThins(k: Kernel, ids: set<string>)
    ensures Thinned(k, DropCaches(k, ids))
  {
  }

  lemma DropUncaches(k: Kernel, id: string)
    requires forall i :: i in k.idem ==> k.idem[i].runId == i.runId
    ensures Uncached(DropCaches(k, {id}), id)
  {
  }

  lemma PutRuns(cfg: Config, k: Kernel, id: string, r: Run, s: Step)
    requires RunsOk(cfg, k) && NamesOk(cfg, k) && id in k.runs && RunOk(cfg, id, r, Log(k, id) + [s])
    ensures RunsOk(cfg, Put(k, id, r, s)) && NamesOk(cfg, Put(k, id, r, s))
  {
    hide RunOk;
    var k' := Put(k, id, r, s);
    assert Log(k', id) == Log(k, id) + [s];
    forall x | x in k'.runs && x != id ensures RunOk(cfg, x, k'.runs[x], Log(k', x)) {
      assert x in k.runs && Log(k', x) == Log(k, x);
    }
  }

  lemma DropRuns(cfg: Config, k: Kernel, ids: set<string>)
    requires RunsOk(cfg, k) && NamesOk(cfg, k)
    ensures RunsOk(cfg, DropCaches(k, ids)) && NamesOk(cfg, DropCaches(k, ids))
  {
    hide RunOk;
    var k' := DropCaches(k, ids);
    assert forall x :: x in k'.runs ==> Log(k', x) == Log(k, x);
  }

  /** A step was appended to a live run: the invariant holds after it, once the caches of a run that became terminal are dropped. */
  lemma AppendKeeps(cfg: Config, k: Kernel, id: string, r: Run, s: Step, next: RunState)
    requires Inv(cfg, k) && Live(k, id) && Follows(cfg, k.runs[id], s) && s.hash != ""
    requires SameCore(r.view, Extend(k.runs[id], s, next).view)
    ensures !IsTerminal(next) ==> Inv(cfg, Put(k, id, r, s))
    ensures IsTerminal(next) ==> Inv(cfg, DropCaches(Put(k, id, r, s), {id}))
  {
    AppendRuns(cfg, k, id, r, s, next);
    ExtendFields(k.runs[id], s, next);
    if IsTerminal(next) {
      DropStays(cfg, k, {id});
      DropUncaches(k, id);
      PutCaches(cfg, DropCaches(k, {id}), id, r, s);
      DropRuns(cfg, Put(k, id, r, s), {id});
      assert DropCaches(Put(k, id, r, s), {id}) == Put(DropCaches(k, {id}), id, r, s);
    } else {
      PutCaches(cfg, k, id, r, s);
    }
  }

  lemma AppendRuns(cfg: Config, k: Kernel, id: string, r: Run, s: Step, next: RunState)
    requires RunsOk(cfg, k) && NamesOk(cfg, k) && id in k.runs && Follows(cfg, k.runs[id], s) && s.hash != ""
    requires SameCore(r.view, Extend(k.runs[id], s, next).view)
    ensures RunsOk(cfg, Put(k, id, r, s)) && NamesOk(cfg, Put(k, id, r, s))
  {
    assert RunOk(cfg, id, r, Log(k, id) + [s]) by { ExtendRunOk(cfg, id, k.runs[id], Log(k, id), s, next, r); }
    PutRuns(cfg, k, id, r, s);
  }

  lemma ExtendFields(r: Run, s: Step, next: RunState)
    ensures var v := Extend(r, s, next).view;
      && v.state == next && v.seqId == s.seqId && v.lastHash == s.hash && v.version == r.view.version + 1
      && v.snapshotHash == r.view.snapshotHash && v.createdAt == r.view.createdAt && v.tenant == r.view.tenant
  {
  }
}
