/** The run kernel over whole histories: what holds after any sequence of operations, and what one history forbids later on. */
module RunHistory {
  import opened Outcomes
  import opened RunTypes
  import opened RunSpec
  import opened RunInvariants
  import opened RunPreservation

  /** An operation with its inputs. A sweep is its visits to single runs followed by maintenance. */
  datatype Op =
    | CreateOp(now: int, create: CreateRequest, fingerprintOk: bool, snapshotOk: bool)
    | AdvanceOp(now: int, id: string, advance: AdvanceRequest, port: PortAnswers, hashOk: bool)
    | ParkOp(now: int, id: string, park: ParkRequest, hashOk: bool)
    | ResumeOp(now: int, id: string, resume: ResumeRequest, hashOk: bool)
    | AbortOp(now: int, id: string, reason: string, hashOk: bool)
    | FlagOp(id: string, security: bool, resource: bool)
    | VisitOp(sweeper: Sweeper, now: int, id: string, hashOk: bool)
    | MaintainOp(now: int)

  function Apply(cfg: Config, k: Kernel, op: Op): Kernel {
    match op
    case CreateOp(now, req, fOk, sOk) => Create(cfg, k, now, req, fOk, sOk).0
    case AdvanceOp(now, id, req, port, ok) => Advance(cfg, k, now, id, req, port, ok).0
    case ParkOp(now, id, req, ok) => Park(cfg, k, now, id, req, ok).0
    case ResumeOp(now, id, req, ok) => Resume(cfg, k, now, id, req, ok).0
    case AbortOp(now, id, reason, ok) => Abort(cfg, k, now, id, reason, ok).0
    case FlagOp(id, security, resource) => FlagRisk(k, id, security, resource)
    case VisitOp(w, now, id, ok) => SweepOne(cfg, w, k, now, id, ok)
    case MaintainOp(now) => Maintenance(cfg, k, now)
  }

  function ApplyAll(cfg: Config, k: Kernel, ops: seq<Op>): Kernel {
    if ops == [] then k else Apply(cfg, ApplyAll(cfg, k, ops[..|ops| - 1]), ops[|ops| - 1])
  }

  function After(cfg: Config, ops: seq<Op>): Kernel {
    ApplyAll(cfg, EMPTY_KERNEL, ops)
  }

  function Visits(w: Sweeper, now: int, order: seq<string>, failing: set<string>): seq<Op> {
    seq(|order|, i requires 0 <= i < |order| => VisitOp(w, now, order[i], order[i] !in failing))
  }

  /** A sweep is the history of its visits and the maintenance after them. */
  lemma SweepIsHistory(cfg: Config, w: Sweeper, k: Kernel, now: int, order: seq<string>, failing: set<string>)
    ensures Sweep(cfg, w, k, now, order, failing)
         == ApplyAll(cfg, k, Visits(w, now, FirstBatch(cfg, order), failing) + [MaintainOp(now)])
  {
    hide SweepOne, Maintenance;
    var visits := Visits(w, now, FirstBatch(cfg, order), failing);
    VisitsAreSweep(cfg, w, k, now, FirstBatch(cfg, order), failing);
    assert (visits + [MaintainOp(now)])[..|visits|] == visits;
  }

  lemma {:induction false} VisitsAreSweep(cfg: Config, w: Sweeper, k: Kernel, now: int, order: seq<string>, failing: set<string>)
    ensures ApplyAll(cfg, k, Visits(w, now, order, failing)) == SweepEach(cfg, w, k, now, order, failing)
  {
    hide SweepOne, Maintenance;
    if order != [] {
      var init := order[..|order| - 1];
      VisitsAreSweep(cfg, w, k, now, init, failing);
      assert Visits(w, now, order, failing)[..|order| - 1] == Visits(w, now, init, failing);
    }
  }

  // ----- Every reachable state -----

  lemma ApplyKeeps(cfg: Config, k: Kernel, op: Op)
    requires ValidConfig(cfg) && Inv(cfg, k)
    ensures Inv(cfg, Apply(cfg, k, op))
  {
    hide Inv, Create, Advance, Park, Resume, Abort, FlagRisk, TtlOne, ZombieOne, Maintenance;
    match op
    case CreateOp(now, req, fOk, sOk) => CreateKeeps(cfg, k, now, req, fOk, sOk);
    case AdvanceOp(now, id, req, port, ok) => AdvanceKeeps(cfg, k, now, id, req, port, ok);
    case ParkOp(now, id, req, ok) => ParkKeeps(cfg, k, now, id, req, ok);
    case ResumeOp(now, id, req, ok) => ResumeKeeps(cfg, k, now, id, req, ok);
    case AbortOp(now, id, reason, ok) => AbortKeeps(cfg, k, now, id, reason, ok);
    case FlagOp(id, security, resource) => FlagRiskKeeps(cfg, k, id, security, resource);
    case VisitOp(w, now, id, ok) => TtlOneKeeps(cfg, k, now, id, ok); ZombieOneKeeps(cfg, k, now, id, ok);
    case MaintainOp(now) => MaintenanceKeeps(cfg, k, now);
  }

  lemma {:induction false} ReachableInv(cfg: Config, ops: seq<Op>)
    requires ValidConfig(cfg)
    ensures Inv(cfg, After(cfg, ops))
  {
    if ops != [] {
      ReachableInv(cfg, ops[..|ops| - 1]);
      hide Inv, Apply;
      ApplyKeeps(cfg, After(cfg, ops[..|ops| - 1]), ops[|ops| - 1]);
    }
  }

  /** The log of every run is a hash chain from the blank hash to the run's last step hash, and its length is the state version less one. */
  lemma LogIsChain(cfg: Config, ops: seq<Op>, id: string)
    requires ValidConfig(cfg) && id in After(cfg, ops).runs
    ensures var v, log := After(cfg, ops).runs[id].view, Log(After(cfg, ops), id);
      && Chained(cfg, log) && Ascending(log)
      && v.lastHash == HashAt(log, |log|) && v.seqId == LastSeq(log) && v.version == 1 + |log|
  {
    ReachableInv(cfg, ops);
    var k := After(cfg, ops);
    hide CachesOk, NamesOk, After;
    assert RunOk(cfg, id, k.runs[id], Log(k, id));
  }

  // ----- The integrity root -----

  ghost predicate Injective(cfg: Config) {
    forall c, c' :: cfg.stepHash(c) == cfg.stepHash(c') ==> c == c'
  }

  /** Equal digests stand for equally many steps with equal contents. */
  lemma {:induction false} DigestBinds(cfg: Config, log: seq<Step>, log': seq<Step>, n: nat, n': nat)
    requires ValidConfig(cfg) && Injective(cfg) && Chained(cfg, log) && Chained(cfg, log') && n <= |log| && n' <= |log'|
    requires HashAt(log, n) == HashAt(log', n')
    ensures n == n' && forall i :: 0 <= i < n ==> log[i].content == log'[i].content
  {
    if n > 0 { assert Linked(cfg, log, n - 1); }
    if n' > 0 { assert Linked(cfg, log', n' - 1); }
    if n > 0 && n' > 0 {
      DigestBinds(cfg, log, log', n - 1, n' - 1);
    }
  }

  /** The prefix of a run's log that its integrity root stands for: all of it except in FAILED and SAFEGUARD_HOLD. */
  lemma RootStandsFor(cfg: Config, ops: seq<Op>, id: string) returns (n: nat)
    requires ValidConfig(cfg) && id in After(cfg, ops).runs
    ensures var v, log := After(cfg, ops).runs[id].view, Log(After(cfg, ops), id);
      && n <= |log| && v.root == HashAt(log, n) && 0 <= v.rootVersion <= |log|
      && (v.state != Failed && v.state != SafeguardHold ==> n == |log| && v.root == v.lastHash)
  {
    ReachableInv(cfg, ops);
    var k := After(cfg, ops);
    hide CachesOk, NamesOk, After;
    assert RunOk(cfg, id, k.runs[id], Log(k, id));
    if k.runs[id].view.root == HashAt(Log(k, id), |Log(k, id)|) {
      n := |Log(k, id)|;
    } else {
      n :| n <= |Log(k, id)| && k.runs[id].view.root == HashAt(Log(k, id), n);
    }
  }

  /** Two runs, of any histories, with the same integrity root have logged the same contents under it. */
  lemma EqualRootsEqualContents(cfg: Config, ops: seq<Op>, id: string, ops': seq<Op>, id': string) returns (n: nat)
    requires ValidConfig(cfg) && Injective(cfg) && id in After(cfg, ops).runs && id' in After(cfg, ops').runs
    requires After(cfg, ops).runs[id].view.root == After(cfg, ops').runs[id'].view.root
    ensures var (v, log) := (After(cfg, ops).runs[id].view, Log(After(cfg, ops), id));
      var (v', log') := (After(cfg, ops').runs[id'].view, Log(After(cfg, ops'), id'));
      && n <= |log| && n <= |log'| && v.root == HashAt(log, n)
      && (forall i :: 0 <= i < n ==> log[i].content == log'[i].content)
      && (v.state != Failed && v.state != SafeguardHold && v'.state != Failed && v'.state != SafeguardHold ==> n == |log| == |log'|)
  {
    n := RootStandsFor(cfg, ops, id);
    var n' := RootStandsFor(cfg, ops', id');
    ReachableInv(cfg, ops);
    ReachableInv(cfg, ops');
    var k, k' := After(cfg, ops), After(cfg, ops');
    hide CachesOk, NamesOk, After;
    assert RunOk(cfg, id, k.runs[id], Log(k, id)) && RunOk(cfg, id', k'.runs[id'], Log(k', id'));
    hide RunsOk, RunOk;
    DigestBinds(cfg, Log(k, id), Log(k', id'), n, n');
  }

  // ----- What one operation does to one run -----

  ghost predicate Rests(r: Run, r': Run) {
    SameCore(r.view, r'.view) && (IsTerminal(r.view.state) ==> r.view == r'.view)
  }

  ghost predicate GoesToHold(r: Run, r': Run) {
    && !IsTerminal(r.view.state) && r.view.state != Parked && r.view.state != AwaitingApproval
    && r'.view.state == SafeguardHold && r'.view.seqId == r.view.seqId && r'.view.tenant == r.view.tenant
  }

  predicate Forced(s: RunState) {
    s == Aborted || s == ForceAbort || s == ForceReviewRequired
  }

  /** One step is appended to a run that is not terminal, and the state moves as the table allows or to a forced end or review. */
  ghost predicate Moves(r: Run, log: seq<Step>, r': Run, log': seq<Step>) {
    && !IsTerminal(r.view.state)
    && (AllowedTransition(r.view.state, r'.view.state) || Forced(r'.view.state))
    && |log'| == |log| + 1 && log <= log'
    && r'.view.seqId > r.view.seqId && r'.view.seqId == LastSeq(log')
    && r'.view.tenant == r.view.tenant
  }

  ghost predicate Evolves(r: Run, log: seq<Step>, r': Run, log': seq<Step>) {
    || (Rests(r, r') && log' == log)
    || (GoesToHold(r, r') && log' == log)
    || Moves(r, log, r', log')
  }

  ghost predicate EvolvesIn(k: Kernel, k': Kernel, id: string) {
    id in k.runs && (id in k'.runs ==> Evolves(k.runs[id], Log(k, id), k'.runs[id], Log(k', id)))
  }

  lemma UntouchedEvolves(k: Kernel, k': Kernel, id: string)
    requires id in k.runs && (id in k'.runs ==> k'.runs[id].view == k.runs[id].view && Log(k', id) == Log(k, id))
    ensures EvolvesIn(k, k', id)
  {
  }

  lemma SetRunEvolves(k: Kernel, at: string, r: Run, id: string)
    requires id in k.runs && at in k.runs && (Rests(k.runs[at], r) || GoesToHold(k.runs[at], r))
    ensures EvolvesIn(k, SetRun(k, at, r), id)
  {
    assert Log(SetRun(k, at, r), id) == Log(k, id);
  }

  lemma PutEvolves(k: Kernel, at: string, r: Run, s: Step, k': Kernel, id: string)
    requires id in k.runs && Live(k, at) && r.view.seqId == s.seqId > k.runs[at].view.seqId && r.view.tenant == k.runs[at].view.tenant
    requires AllowedTransition(k.runs[at].view.state, r.view.state) || Forced(r.view.state)
    requires k'.runs == Put(k, at, r, s).runs && k'.logs == Put(k, at, r, s).logs
    ensures EvolvesIn(k, k', id)
  {
    assert Log(k', at) == Log(k, at) + [s];
    assert id != at ==> Log(k', id) == Log(k, id);
  }

  lemma CreateEvolves(cfg: Config, k: Kernel, now: int, req: CreateRequest, fOk: bool, sOk: bool, id: string)
    requires ValidConfig(cfg) && Inv(cfg, k) && id in k.runs
    ensures EvolvesIn(k, Create(cfg, k, now, req, fOk, sOk).0, id)
  {
    hide CachesOk;
    CreateShape(cfg, k, now, req, fOk, sOk);
    if req.risk.Some? { FreshName(cfg, k, cfg.fingerprint(Normalise(req))); }
    hide RunsOk, NamesOk, Create;
    UntouchedEvolves(k, Create(cfg, k, now, req, fOk, sOk).0, id);
  }

  lemma AdvanceEvolves(cfg: Config, k: Kernel, now: int, at: string, req: AdvanceRequest, port: PortAnswers, hashOk: bool, id: string)
    requires id in k.runs
    ensures EvolvesIn(k, Advance(cfg, k, now, at, req, port, hashOk).0, id)
  {
    hide EvolvesIn;
    var (k', resp) := Advance(cfg, k, now, at, req, port, hashOk);
    if Live(k, at) && k.runs[at].view.state != Parked && k.runs[at].view.state != AwaitingApproval {
      var r := k.runs[at];
      SetRunEvolves(k, at, Hold(r, now), id);
      UntouchedEvolves(k, k, id);
      if Key(at, req) in k.idem {
        UntouchedEvolves(k, k', id);
      } else if port.ref.Some? && req.incomingSeq > r.view.seqId {
        AdvanceGatedEvolves(cfg, k, now, at, req, port.ref.value, hashOk, id);
      }
    } else {
      UntouchedEvolves(k, k', id);
    }
  }

  lemma AdvanceGatedEvolves(cfg: Config, k: Kernel, now: int, at: string, req: AdvanceRequest, ref: DecisionReference, hashOk: bool, id: string)
    requires id in k.runs && Live(k, at) && req.incomingSeq > k.runs[at].view.seqId
    requires k.runs[at].view.state != Parked && k.runs[at].view.state != AwaitingApproval
    ensures EvolvesIn(k, AdvanceGated(cfg, k, now, at, req, ref, hashOk).0, id)
  {
    hide EvolvesIn;
    var r := k.runs[at];
    var r1 := r.(view := r.view.(tags := EnforceAll(req, ref, r.view.tags).0));
    SetRunEvolves(k, at, Hold(r1, now), id);
    SetRunEvolves(k, at, r1, id);
    if Target(req.next).Some? && AllowedTransition(r.view.state, Target(req.next).value) {
      var next := Target(req.next).value;
      ExtendFields(r1, AdvanceStep(cfg, r1, now, req), next);
      PutEvolves(k, at, AdvancedRun(cfg, r1, now, req, next), AdvanceStep(cfg, r1, now, req),
                 AdvanceAppend(cfg, k, now, at, r1, req, next), id);
    }
  }

  lemma ParkEvolves(cfg: Config, k: Kernel, now: int, at: string, req: ParkRequest, hashOk: bool, id: string)
    requires id in k.runs
    ensures EvolvesIn(k, Park(cfg, k, now, at, req, hashOk).0, id)
  {
    hide EvolvesIn;
    var (k', resp) := Park(cfg, k, now, at, req, hashOk);
    if resp.Ok? {
      var r, t := k.runs[at], TokenTypeOf(req.tokenType).value;
      var s := SyntheticStep(cfg, r, req.stepId, req.incomingSeq, ParkStep, req.reason, TokenName(t), now);
      ExtendFields(r, s, ParkState(t));
      PutEvolves(k, at, ParkedRun(cfg, r, now, req, t), s, k', id);
    } else {
      UntouchedEvolves(k, k', id);
    }
  }

  lemma ResumeEvolves(cfg: Config, k: Kernel, now: int, at: string, req: ResumeRequest, hashOk: bool, id: string)
    requires id in k.runs
    ensures EvolvesIn(k, Resume(cfg, k, now, at, req, hashOk).0, id)
  {
    hide EvolvesIn;
    var (k', resp) := Resume(cfg, k, now, at, req, hashOk);
    if resp.Ok? {
      var r, t := k.runs[at], req.token.value;
      var s := SyntheticStep(cfg, r, t.stepId, req.incomingSeq, ResumeStep, req.reason, req.receiptRef, now);
      ExtendFields(r, s, Running);
      PutEvolves(k, at, ResumedRun(cfg, r, now, t, req), s, k', id);
    } else {
      UntouchedEvolves(k, k', id);
    }
  }

  lemma CloseEvolves(cfg: Config, k: Kernel, at: string, tag: Synthetic, input: string, output: string, next: RunState,
                     reason: string, source: string, progress: bool, now: int, id: string)
    requires id in k.runs && Live(k, at) && Forced(next)
    ensures EvolvesIn(k, Close(cfg, k, at, tag, input, output, next, reason, source, progress, now), id)
  {
    hide EvolvesIn, AllowedTransition;
    var s := ClosingStep(cfg, k.runs[at], tag, input, output, now);
    ExtendFields(k.runs[at], s, next);
    PutEvolves(k, at, ClosedRun(k.runs[at], s, next, reason, source, progress), s,
               Close(cfg, k, at, tag, input, output, next, reason, source, progress, now), id);
  }

  lemma VisitEvolves(cfg: Config, w: Sweeper, k: Kernel, now: int, at: string, hashOk: bool, id: string)
    requires id in k.runs
    ensures EvolvesIn(k, SweepOne(cfg, w, k, now, at, hashOk), id)
  {
    hide EvolvesIn;
    if Live(k, at) {
      var r := k.runs[at];
      var r1 := r.(noProgressScans := r.noProgressScans + 1);
      SetRunEvolves(k, at, r.(noProgressScans := 0), id);
      SetRunEvolves(k, at, r1, id);
      UntouchedEvolves(k, k, id);
      CloseEvolves(cfg, k, at, TtlAbort, "ttl_breach_risk", "", ForceAbort, "ttl_breach_risk", "ttl_sweeper", false, now, id);
      CloseEvolves(cfg, k, at, TtlReview, "ttl_breach", "", ForceReviewRequired, "ttl_breach", "ttl_sweeper", false, now, id);
      var next := if AtRisk(r) then ForceAbort else ForceReviewRequired;
      RecountedEvolves(k, at, r1, Close(cfg, SetRun(k, at, r1), at, ZombieSweep, "no_progress", "", next, "no_progress", "zombie_sweeper", false, now), id) by {
        CloseEvolves(cfg, SetRun(k, at, r1), at, ZombieSweep, "no_progress", "", next, "no_progress", "zombie_sweeper", false, now, id);
      }
    } else {
      UntouchedEvolves(k, k, id);
    }
  }

  lemma RecountedEvolves(k: Kernel, at: string, r: Run, k': Kernel, id: string)
    requires id in k.runs && at in k.runs && r.view == k.runs[at].view && EvolvesIn(SetRun(k, at, r), k', id)
    ensures EvolvesIn(k, k', id)
  {
    assert Log(SetRun(k, at, r), id) == Log(k, id);
  }

  lemma ApplyEvolves(cfg: Config, k: Kernel, op: Op, id: string)
    requires ValidConfig(cfg) && Inv(cfg, k) && id in k.runs
    ensures EvolvesIn(k, Apply(cfg, k, op), id)
  {
    hide Inv, EvolvesIn, Create, Advance, Park, Resume, Abort, SweepOne;
    match op
    case CreateOp(now, req, fOk, sOk) => CreateEvolves(cfg, k, now, req, fOk, sOk, id);
    case AdvanceOp(now, at, req, port, ok) => AdvanceEvolves(cfg, k, now, at, req, port, ok, id);
    case ParkOp(now, at, req, ok) => ParkEvolves(cfg, k, now, at, req, ok, id);
    case ResumeOp(now, at, req, ok) => ResumeEvolves(cfg, k, now, at, req, ok, id);
    case AbortOp(now, at, reason, ok) => AbortEvolves(cfg, k, now, at, reason, ok, id);
    case FlagOp(at, security, resource) =>
      UntouchedEvolves(k, FlagRisk(k, at, security, resource), id);
    case VisitOp(w, now, at, ok) => VisitEvolves(cfg, w, k, now, at, ok, id);
    case MaintainOp(now) =>
      UntouchedEvolves(k, Maintenance(cfg, k, now), id);
  }

  lemma AbortEvolves(cfg: Config, k: Kernel, now: int, at: string, reason: string, hashOk: bool, id: string)
    requires id in k.runs
    ensures EvolvesIn(k, Abort(cfg, k, now, at, reason, hashOk).0, id)
  {
    hide EvolvesIn;
    UntouchedEvolves(k, k, id);
    if Live(k, at) {
      CloseEvolves(cfg, k, at, AbortStep, reason, "aborted", Aborted,
                   if reason == "" then "manual_abort" else reason, "abort_api", true, now, id);
    }
  }

  // ----- One run over the rest of a history -----

  predicate Quarantined(s: RunState) {
    s == SafeguardHold || s == ForceReviewRequired
  }

  /** A quarantined run and what it can end as. */
  predicate QuarantinedOrEnded(s: RunState) {
    Quarantined(s) || s == ForceAbort || s == Aborted
  }

  /** A later state of a run: the log only grew, a quarantine was not left, and a terminal run's view is untouched. */
  ghost predicate Later(r: Run, log: seq<Step>, r': Run, log': seq<Step>) {
    && log <= log'
    && r.view.seqId <= r'.view.seqId
    && (QuarantinedOrEnded(r.view.state) ==> QuarantinedOrEnded(r'.view.state))
    && r'.view.tenant == r.view.tenant
    && (IsTerminal(r.view.state) ==> r'.view == r.view)
  }

  lemma EvolvesIsLater(r: Run, log: seq<Step>, r': Run, log': seq<Step>)
    requires Evolves(r, log, r', log')
    ensures Later(r, log, r', log')
  {
  }

  ghost predicate NoNewRuns(k: Kernel, k': Kernel) {
    k'.runs.Keys <= k.runs.Keys && k'.runSeq == k.runSeq
  }

  lemma SetRunNoNewRuns(k: Kernel, id: string, r: Run)
    requires id in k.runs
    ensures NoNewRuns(k, SetRun(k, id, r))
  {
  }

  lemma AdvanceNoNewRuns(cfg: Config, k: Kernel, now: int, id: string, req: AdvanceRequest, port: PortAnswers, ok: bool)
    ensures NoNewRuns(k, Advance(cfg, k, now, id, req, port, ok).0)
  {
    if id in k.runs {
      if port.ref.Some? { AdvanceGatedNoNewRuns(cfg, k, now, id, req, port.ref.value, ok); }
      SetRunNoNewRuns(k, id, Hold(k.runs[id], now));
    }
    hide AdvanceGated, Hold, SetRun;
  }

  lemma AdvanceGatedNoNewRuns(cfg: Config, k: Kernel, now: int, id: string, req: AdvanceRequest, ref: DecisionReference, ok: bool)
    requires id in k.runs
    ensures NoNewRuns(k, AdvanceGated(cfg, k, now, id, req, ref, ok).0)
  {
    var r := k.runs[id];
    var r1 := r.(view := r.view.(tags := EnforceAll(req, ref, r.view.tags).0));
    SetRunNoNewRuns(k, id, r1);
    SetRunNoNewRuns(k, id, Hold(r1, now));
    if Target(req.next).Some? {
      assert NoNewRuns(k, AdvanceAppend(cfg, k, now, id, r1, req, Target(req.next).value)) by { hide AdvancedRun, AdvanceStep; }
    }
    hide NoNewRuns, SetRun, Hold, AdvanceAppend, EnforceAll, AdvancedRun;
  }

  lemma ParkNoNewRuns(cfg: Config, k: Kernel, now: int, id: string, req: ParkRequest, ok: bool)
    ensures NoNewRuns(k, Park(cfg, k, now, id, req, ok).0)
  {
    hide ParkedRun, SyntheticStep, AllowedTransition;
  }

  lemma ResumeNoNewRuns(cfg: Config, k: Kernel, now: int, id: string, req: ResumeRequest, ok: bool)
    ensures NoNewRuns(k, Resume(cfg, k, now, id, req, ok).0)
  {
    hide ResumedRun, SyntheticStep;
  }

  lemma VisitNoNewRuns(cfg: Config, w: Sweeper, k: Kernel, now: int, id: string, ok: bool)
    ensures NoNewRuns(k, SweepOne(cfg, w, k, now, id, ok))
  {
    hide Close, TtlDue;
    if id in k.runs {
      var r := k.runs[id];
      CloseNoNewRuns(cfg, k, id, TtlAbort, "ttl_breach_risk", "", ForceAbort, "ttl_breach_risk", "ttl_sweeper", false, now);
      CloseNoNewRuns(cfg, k, id, TtlReview, "ttl_breach", "", ForceReviewRequired, "ttl_breach", "ttl_sweeper", false, now);
      CloseNoNewRuns(cfg, SetRun(k, id, r.(noProgressScans := r.noProgressScans + 1)), id, ZombieSweep, "no_progress", "",
                     if AtRisk(r) then ForceAbort else ForceReviewRequired, "no_progress", "zombie_sweeper", false, now);
    }
  }

  lemma CloseNoNewRuns(cfg: Config, k: Kernel, id: string, tag: Synthetic, input: string, output: string, next: RunState,
                       reason: string, source: string, progress: bool, now: int)
    requires id in k.runs
    ensures NoNewRuns(k, Close(cfg, k, id, tag, input, output, next, reason, source, progress, now))
  {
    hide ClosedRun, ClosingStep;
  }

  lemma AbortNoNewRuns(cfg: Config, k: Kernel, now: int, id: string, reason: string, ok: bool)
    ensures NoNewRuns(k, Abort(cfg, k, now, id, reason, ok).0)
  {
    hide ClosedRun, ClosingStep;
  }

  /** A run that an operation adds has a name not used before. */
  lemma ApplyNames(cfg: Config, k: Kernel, op: Op)
    requires ValidConfig(cfg)
    ensures Apply(cfg, k, op).runSeq >= k.runSeq
    ensures forall x :: x in Apply(cfg, k, op).runs && x !in k.runs ==> !Named(cfg, x, k.runSeq)
  {
    hide Advance, Park, Resume, Abort, SweepOne, Create;
    match op
    case CreateOp(now, req, fOk, sOk) => CreateShape(cfg, k, now, req, fOk, sOk);
    case AdvanceOp(now, id, req, port, ok) => AdvanceNoNewRuns(cfg, k, now, id, req, port, ok);
    case ParkOp(now, id, req, ok) => ParkNoNewRuns(cfg, k, now, id, req, ok);
    case ResumeOp(now, id, req, ok) => ResumeNoNewRuns(cfg, k, now, id, req, ok);
    case AbortOp(now, id, reason, ok) => AbortNoNewRuns(cfg, k, now, id, reason, ok);
    case VisitOp(w, now, id, ok) => VisitNoNewRuns(cfg, w, k, now, id, ok);
    case _ =>
  }

  lemma GoneStaysGone(cfg: Config, k: Kernel, op: Op, id: string)
    requires ValidConfig(cfg) && Named(cfg, id, k.runSeq) && id !in k.runs
    ensures Named(cfg, id, Apply(cfg, k, op).runSeq) && id !in Apply(cfg, k, op).runs
  {
    hide Apply;
    ApplyNames(cfg, k, op);
    var f, n: nat :| n <= k.runSeq && id == cfg.runName(f, n);
    assert n <= Apply(cfg, k, op).runSeq;
  }

  ghost predicate LaterIn(cfg: Config, k: Kernel, k': Kernel, id: string) {
    && id in k.runs
    && Named(cfg, id, k'.runSeq)
    && (id in k'.runs ==> Later(k.runs[id], Log(k, id), k'.runs[id], Log(k', id)))
  }

  lemma LaterStep(cfg: Config, k: Kernel, mid: Kernel, op: Op, id: string)
    requires ValidConfig(cfg) && Inv(cfg, mid) && LaterIn(cfg, k, mid, id)
    ensures LaterIn(cfg, k, Apply(cfg, mid, op), id)
  {
    hide Inv, Apply;
    if id in mid.runs {
      ApplyEvolves(cfg, mid, op, id);
      ApplyNames(cfg, mid, op);
      var k' := Apply(cfg, mid, op);
      if id in k'.runs { EvolvesIsLater(mid.runs[id], Log(mid, id), k'.runs[id], Log(k', id)); }
      var f, n: nat :| n <= mid.runSeq && id == cfg.runName(f, n);
      assert n <= k'.runSeq;
    } else {
      GoneStaysGone(cfg, mid, op, id);
    }
  }

  /**
   * Over the rest of any history a run's log only grows, a quarantined run never runs again, and a terminal run's view
   * does not change until the run is deleted; a deleted run does not come back.
   */
  lemma {:induction false} RunLater(cfg: Config, ops: seq<Op>, more: seq<Op>, id: string)
    requires ValidConfig(cfg) && id in After(cfg, ops).runs
    ensures LaterIn(cfg, After(cfg, ops), After(cfg, ops + more), id)
  {
    if more == [] {
      assert ops + more == ops;
      ReachableInv(cfg, ops);
      hide RunsOk, CachesOk, After;
    } else {
      var init := more[..|more| - 1];
      RunLater(cfg, ops, init, id);
      ReachableInv(cfg, ops + init);
      assert (ops + more)[..|ops + more| - 1] == ops + init;
      hide Inv, Apply, LaterIn;
      LaterStep(cfg, After(cfg, ops), After(cfg, ops + init), more[|more| - 1], id);
    }
  }

  lemma QuarantineHolds(cfg: Config, ops: seq<Op>, more: seq<Op>, id: string)
    requires ValidConfig(cfg) && id in After(cfg, ops).runs && Quarantined(After(cfg, ops).runs[id].view.state)
    ensures id in After(cfg, ops + more).runs ==>
      After(cfg, ops + more).runs[id].view.state in {SafeguardHold, ForceReviewRequired, ForceAbort, Aborted}
  {
    hide After;
    RunLater(cfg, ops, more, id);
  }

  lemma TerminalIsFinal(cfg: Config, ops: seq<Op>, more: seq<Op>, id: string)
    requires ValidConfig(cfg) && id in After(cfg, ops).runs
    requires After(cfg, ops).runs[id].view.state in {Completed, Failed, ForceAbort, Aborted}
    ensures id in After(cfg, ops + more).runs ==>
      After(cfg, ops + more).runs[id].view == After(cfg, ops).runs[id].view
  {
    hide After;
    RunLater(cfg, ops, more, id);
  }

  // ----- Continuation tokens -----

  /** At most one token of a run sits at the run's sequence number, and it fits the state the run is parked in. */
  lemma OneCurrentToken(cfg: Config, k: Kernel, t: Token, t': Token)
    requires Inv(cfg, k) && t in k.conts && t' in k.conts && t.runId == t'.runId
    requires t.seqId == t'.seqId == k.runs[t.runId].view.seqId
    ensures t == t' && !k.conts[t].status.Consumed?
    ensures k.runs[t.runId].view.state == if t.typ == ApprovalToken then AwaitingApproval else Parked
  {
    hide RunsOk, NamesOk, IdemOk, CreatesOk;
    assert TokenOk(k, t);
  }

  /** The state and type checks that follow the sequence check never refuse a resume. */
  lemma LateChecksIdle(cfg: Config, k: Kernel, now: int, id: string, req: ResumeRequest)
    requires Inv(cfg, k)
    ensures ResumeError(k, now, id, req) != Some(NotResumable)
    ensures ResumeError(k, now, id, req) != Some(ContinuationTypeMismatch)
  {
    hide RunsOk, NamesOk, IdemOk, CreatesOk;
    if req.token.Some? && req.token.value in k.conts {
      assert TokenOk(k, req.token.value);
    }
  }

  lemma CurrentIsLast(log: seq<Step>, t: Token)
    requires Issued(log, t) && Ascending(log) && t.seqId == LastSeq(log)
    ensures log != []
    ensures var s := log[|log| - 1]; s.seqId == t.seqId && s.stepId == t.stepId && s.content.SyntheticContent? && s.content.tag == ParkStep
  {
  }

  /** Only the token of the latest park resumes: the run's last log entry is the park step that issued it. */
  lemma ResumesLatestPark(cfg: Config, k: Kernel, now: int, id: string, req: ResumeRequest)
    requires Inv(cfg, k) && ResumeError(k, now, id, req).None?
    ensures Log(k, id) != []
    ensures var s := Log(k, id)[|Log(k, id)| - 1];
      && s.seqId == req.token.value.seqId && s.stepId == req.token.value.stepId
      && s.content.SyntheticContent? && s.content.tag == ParkStep
  {
    hide NamesOk, IdemOk, CreatesOk, Chained, RootOk, Issued, Ascending;
    assert TokenOk(k, req.token.value) && RunOk(cfg, id, k.runs[id], Log(k, id));
    CurrentIsLast(Log(k, id), req.token.value);
  }

  ghost predicate Accepted(cfg: Config, k: Kernel, op: Op, t: Token) {
    op.ResumeOp? && op.resume.token == Some(t) && Resume(cfg, k, op.now, op.id, op.resume, op.hashOk).1.Ok?
  }

  /** The run the token was for is past it, or gone for good. */
  ghost predicate Spent(cfg: Config, k: Kernel, t: Token) {
    Named(cfg, t.runId, k.runSeq) && (t.runId in k.runs ==> t.seqId < k.runs[t.runId].view.seqId)
  }

  lemma AcceptSpends(cfg: Config, k: Kernel, op: Op, t: Token)
    requires ValidConfig(cfg) && Inv(cfg, k) && Accepted(cfg, k, op, t)
    ensures Spent(cfg, Apply(cfg, k, op), t) && !Spent(cfg, k, t)
  {
    hide RunsOk, CachesOk;
    assert Named(cfg, t.runId, k.runSeq);
    ResumeNoNewRuns(cfg, k, op.now, op.id, op.resume, op.hashOk);
    var r := k.runs[op.id];
    ExtendFields(r, SyntheticStep(cfg, r, t.stepId, op.resume.incomingSeq, ResumeStep, op.resume.reason, op.resume.receiptRef, op.now), Running);
  }

  lemma AfterOne(cfg: Config, ops: seq<Op>, i: nat)
    requires i < |ops|
    ensures After(cfg, ops[..i + 1]) == Apply(cfg, After(cfg, ops[..i]), ops[i])
  {
    hide Apply;
    assert ops[..i + 1][..i] == ops[..i];
  }

  /** A token resumes its run at most once in any history. */
  lemma ResumesOnce(cfg: Config, ops: seq<Op>, i: nat, j: nat, t: Token)
    requires ValidConfig(cfg) && i < j < |ops| && Accepted(cfg, After(cfg, ops[..i]), ops[i], t)
    ensures !Accepted(cfg, After(cfg, ops[..j]), ops[j], t)
  {
    hide Accepted, Spent, Inv, Apply, After;
    AfterOne(cfg, ops, i);
    ReachableInv(cfg, ops[..i]);
    ReachableInv(cfg, ops[..j]);
    AcceptSpends(cfg, After(cfg, ops[..i]), ops[i], t);
    SpentStays(cfg, ops[..i + 1], ops[i + 1..j], t);
    assert ops[..i + 1] + ops[i + 1..j] == ops[..j];
    if Accepted(cfg, After(cfg, ops[..j]), ops[j], t) {
      AcceptSpends(cfg, After(cfg, ops[..j]), ops[j], t);
    }
  }

  lemma SpentStep(cfg: Config, k: Kernel, op: Op, t: Token)
    requires ValidConfig(cfg) && Inv(cfg, k) && Spent(cfg, k, t)
    ensures Spent(cfg, Apply(cfg, k, op), t)
  {
    hide Inv, Apply;
    if t.runId in k.runs {
      assert LaterIn(cfg, k, k, t.runId);
      LaterStep(cfg, k, k, op, t.runId);
    } else {
      GoneStaysGone(cfg, k, op, t.runId);
    }
  }

  lemma {:induction false} SpentStays(cfg: Config, ops: seq<Op>, more: seq<Op>, t: Token)
    requires ValidConfig(cfg) && Spent(cfg, After(cfg, ops), t)
    ensures Spent(cfg, After(cfg, ops + more), t)
  {
    if more == [] {
      assert ops + more == ops;
    } else {
      var init := more[..|more| - 1];
      SpentStays(cfg, ops, init, t);
      ReachableInv(cfg, ops + init);
      assert (ops + more)[..|ops + more| - 1] == ops + init;
      hide Inv, Apply, Spent;
      SpentStep(cfg, After(cfg, ops + init), more[|more| - 1], t);
    }
  }

  // ----- Caches and replay -----

  /** After any history every continuation, idempotency and create-request entry is of a run that exists and has not ended. */
  lemma CachesNameLiveRuns(cfg: Config, ops: seq<Op>)
    requires ValidConfig(cfg)
    ensures var k := After(cfg, ops);
      && (forall t :: t in k.conts ==> Live(k, t.runId))
      && (forall i :: i in k.idem ==> k.idem[i].runId == i.runId && Live(k, i.runId))
      && (forall c :: c in k.creates ==> Live(k, k.creates[c].runId))
  {
    ReachableInv(cfg, ops);
    var k := After(cfg, ops);
    hide After, RunsOk, NamesOk, Issued, Recorded;
    forall t | t in k.conts ensures Live(k, t.runId) { assert TokenOk(k, t); }
    forall c | c in k.creates ensures Live(k, k.creates[c].runId) { assert CreateOk(cfg, k, c, k.creates[c]); }
  }

  /** A repeated advance is answered from the log: the answer is that of the entry it wrote, and nothing is appended. */
  lemma ReplayAppendsNothing(cfg: Config, k: Kernel, now: int, id: string, req: AdvanceRequest, port: PortAnswers, hashOk: bool)
    requires Inv(cfg, k) && Key(id, req) in k.idem
    ensures var (k', resp) := Advance(cfg, k, now, id, req, port, hashOk);
      && k'.runs == k.runs && k'.logs == k.logs && k'.conts == k.conts
      && (resp.Ok? ==>
            var n := resp.value.version - 2;
            && 0 <= n < |Log(k, id)|
            && Log(k, id)[n].stepId == req.stepId && Log(k, id)[n].content.NormalContent?
            && Log(k, id)[n].hash == resp.value.stepHash && Log(k, id)[n].seqId == resp.value.seqId)
  {
    hide RunsOk, NamesOk, TokensOk, CreatesOk;
    assert Recorded(Log(k, id), Key(id, req), k.idem[Key(id, req)].response);
  }

  /** A create answered from the cache answers the very request, normalised, that made the run. */
  lemma ReuseAnswersSameRequest(cfg: Config, k: Kernel, now: int, req: CreateRequest, fOk: bool, sOk: bool)
    requires Inv(cfg, k) && (forall c, c' :: cfg.fingerprint(c) == cfg.fingerprint(c') ==> c == c')
    requires Create(cfg, k, now, req, fOk, sOk).1.Ok?
    requires req.risk.Some? && CreateKey(req.tenant, req.requestId) in k.creates
    ensures var id := Create(cfg, k, now, req, fOk, sOk).1.value.runId;
      && id in k.born && k.born[id] == Normalise(req)
      && id in k.runs && k.runs[id].view.snapshotHash == Create(cfg, k, now, req, fOk, sOk).1.value.snapshotHash
  {
    hide RunsOk, NamesOk, TokensOk, IdemOk;
    var key := CreateKey(req.tenant, req.requestId);
    assert CreateOk(cfg, k, key, k.creates[key]);
  }
}
