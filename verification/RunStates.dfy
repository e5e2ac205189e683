/** Where a run can go from each state, what gets it out of a park, and what its root and anchors say, over whole histories. */
module RunStates {
  import opened RunTypes
  import opened RunSpec
  import opened RunInvariants
  import opened RunHistory
  import opened Checks
  import opened AdvanceRules
  import opened RunRules

  // ----- States -----

  /** All states one operation can take a run to, by the state it is in. */
  function Successors(s: RunState): set<RunState> {
    match s
    case Running => {Running, Parked, AwaitingApproval, Reconciling, Completed, Failed, SafeguardHold, ForceReviewRequired, ForceAbort, Aborted}
    case Reconciling => {Reconciling, Running, Completed, Failed, SafeguardHold, ForceReviewRequired, ForceAbort, Aborted}
    case Parked => {Parked, Running, ForceReviewRequired, ForceAbort, Aborted}
    case AwaitingApproval => {AwaitingApproval, Running, ForceReviewRequired, ForceAbort, Aborted}
    case SafeguardHold => {SafeguardHold, ForceReviewRequired, ForceAbort, Aborted}
    case ForceReviewRequired => {ForceReviewRequired, SafeguardHold, ForceAbort, Aborted}
    case Completed => {Completed}
    case Failed => {Failed}
    case ForceAbort => {ForceAbort}
    case Aborted => {Aborted}
  }

  lemma EvolvesToSuccessor(k: Kernel, k': Kernel, id: string)
    requires EvolvesIn(k, k', id) && id in k'.runs
    ensures k'.runs[id].view.state in Successors(k.runs[id].view.state)
  {
    hide Log, LastSeq;
  }

  /** After any history, the next operation takes a run only to a successor of its state. */
  lemma StatesMove(cfg: Config, ops: seq<Op>, op: Op, id: string)
    requires ValidConfig(cfg) && id in After(cfg, ops).runs && id in Apply(cfg, After(cfg, ops), op).runs
    ensures Apply(cfg, After(cfg, ops), op).runs[id].view.state in Successors(After(cfg, ops).runs[id].view.state)
  {
    hide After, Apply, Inv, EvolvesIn, Successors, ValidConfig;
    ReachableInv(cfg, ops);
    ApplyEvolves(cfg, After(cfg, ops), op, id);
    EvolvesToSuccessor(After(cfg, ops), Apply(cfg, After(cfg, ops), op), id);
  }

  // ----- Getting out of a park -----

  predicate Waiting(s: RunState) {
    s == Parked || s == AwaitingApproval
  }

  ghost predicate SameState(k: Kernel, k': Kernel, id: string) {
    id in k.runs && (id in k'.runs ==> k'.runs[id].view.state == k.runs[id].view.state)
  }

  lemma CreateLeaves(cfg: Config, k: Kernel, now: int, req: CreateRequest, fOk: bool, sOk: bool, id: string)
    requires ValidConfig(cfg) && Inv(cfg, k) && id in k.runs
    ensures SameState(k, Create(cfg, k, now, req, fOk, sOk).0, id)
  {
    hide Create, Inv, ValidConfig, Reports, AllPass, NewlyCreated, CreateChecks;
    CreateDoes(cfg, k, now, req, fOk, sOk);
  }

  lemma AdvanceLeaves(cfg: Config, k: Kernel, now: int, at: string, req: AdvanceRequest, port: PortAnswers, hashOk: bool, id: string)
    requires Inv(cfg, k) && id in k.runs && Waiting(k.runs[id].view.state)
    ensures SameState(k, Advance(cfg, k, now, at, req, port, hashOk).0, id)
  {
    if Replays(k, at, req) {
      ReplayDoes(cfg, k, now, at, req, port, hashOk);
    } else {
      AdvanceIff(cfg, k, now, at, req, port, hashOk);
    }
    hide Advance, Inv, GateOpen, DutiesMet, Loggable, Advanced, Tagged, Log;
  }

  lemma ParkLeaves(cfg: Config, k: Kernel, now: int, at: string, req: ParkRequest, hashOk: bool, id: string)
    requires id in k.runs && Waiting(k.runs[id].view.state)
    ensures SameState(k, Park(cfg, k, now, at, req, hashOk).0, id)
  {
    ParkDoes(cfg, k, now, at, req, hashOk);
    if at in k.runs && AllPass(ParkChecks(k, at, req, hashOk)) { assert ParkChecks(k, at, req, hashOk)[4].0; }
    hide Park, AllPass, Reports, Log, TypeOf;
  }

  /** The token that resumes a run is one of that run, at its number, of the type its park is for. */
  ghost predicate Unparks(k: Kernel, op: Op, id: string)
    requires id in k.runs
  {
    && op.ResumeOp? && op.id == id && op.resume.token.Some?
    && op.resume.token.value.runId == id && op.resume.token.value.seqId == k.runs[id].view.seqId
    && (op.resume.token.value.typ == ApprovalToken <==> k.runs[id].view.state == AwaitingApproval)
  }

  lemma ResumeLeaves(cfg: Config, k: Kernel, op: Op, id: string)
    requires op.ResumeOp? && Inv(cfg, k) && id in k.runs && Waiting(k.runs[id].view.state)
    ensures var k' := Resume(cfg, k, op.now, op.id, op.resume, op.hashOk).0;
      SameState(k, k', id) || (id in k'.runs && k'.runs[id].view.state == Running && Unparks(k, op, id))
  {
    hide Inv, Resume, Resumes, AllPass, Reports, ResumeChecks;
    ResumeDoes(cfg, k, op.now, op.id, op.resume, op.hashOk);
    var (k', resp) := Resume(cfg, k, op.now, op.id, op.resume, op.hashOk);
    if op.id in k.runs && op.resume.token.Some? && op.resume.token.value in k.conts && AllPass(ResumeChecks(k, op.now, op.id, op.resume, op.hashOk)) {
      ResumesState(cfg, k, k', op.now, op.id, op.resume.token.value, op.resume, resp.value, id);
      CurrentPasses(k, op.now, op.id, op.resume, op.hashOk);
      OneCurrentToken(cfg, k, op.resume.token.value, op.resume.token.value);
    }
  }

  lemma ResumesState(cfg: Config, k: Kernel, k': Kernel, now: int, at: string, t: Token, req: ResumeRequest, resp: ResumeResponse, id: string)
    requires at in k.runs && t in k.conts && Resumes(cfg, k, k', now, at, t, req, resp) && id in k.runs
    ensures id in k'.runs && if id == at then k'.runs[id].view.state == Running else k'.runs[id] == k.runs[id]
  {
    hide Log;
  }

  lemma CurrentPasses(k: Kernel, now: int, id: string, req: ResumeRequest, hashOk: bool)
    requires id in k.runs && req.token.Some? && req.token.value in k.conts && AllPass(ResumeChecks(k, now, id, req, hashOk))
    ensures req.token.value.runId == id && req.token.value.seqId == k.runs[id].view.seqId
  {
    assert ResumeChecks(k, now, id, req, hashOk)[0].0 && ResumeChecks(k, now, id, req, hashOk)[5].0;
  }

  lemma ClosesState(cfg: Config, k: Kernel, k': Kernel, now: int, at: string, tag: Synthetic, input: string, output: string, next: RunState,
                    reason: string, source: string, id: string)
    requires at in k.runs && Closes(cfg, k, k', now, at, tag, input, output, next, reason, source) && id in k.runs
    ensures id in k'.runs && if id == at then k'.runs[id].view.state == next else k'.runs[id] == k.runs[id]
  {
    hide Log, Uncached;
  }

  lemma AbortLeaves(cfg: Config, k: Kernel, now: int, at: string, reason: string, hashOk: bool, id: string)
    requires Inv(cfg, k) && id in k.runs
    ensures var k' := Abort(cfg, k, now, at, reason, hashOk).0;
      SameState(k, k', id) || (id in k'.runs && at == id && k'.runs[id].view.state == Aborted)
  {
    assert CachesOk(cfg, k);
    hide Inv, Abort, Closes;
    AbortDoes(cfg, k, now, at, reason, hashOk);
    var k' := Abort(cfg, k, now, at, reason, hashOk).0;
    if at in k.runs && k' != k {
      ClosesState(cfg, k, k', now, at, AbortStep, reason, "aborted", Aborted, if reason == "" then "manual_abort" else reason, "abort_api", id);
    }
  }

  lemma VisitLeaves(cfg: Config, w: Sweeper, k: Kernel, now: int, at: string, hashOk: bool, id: string)
    requires Inv(cfg, k) && id in k.runs
    ensures var k' := SweepOne(cfg, w, k, now, at, hashOk);
      SameState(k, k', id) || (id in k'.runs && at == id && k'.runs[id].view.state in {ForceReviewRequired, ForceAbort})
  {
    if w.Ttl? { TtlLeaves(cfg, k, now, at, hashOk, id); } else { ZombieLeaves(cfg, k, now, at, hashOk, id); }
    hide TtlOne, ZombieOne, Inv;
  }

  lemma TtlLeaves(cfg: Config, k: Kernel, now: int, at: string, hashOk: bool, id: string)
    requires Inv(cfg, k) && id in k.runs
    ensures var k' := TtlOne(cfg, k, now, at, hashOk);
      SameState(k, k', id) || (id in k'.runs && at == id && k'.runs[id].view.state in {ForceReviewRequired, ForceAbort})
  {
    assert CachesOk(cfg, k);
    hide Inv, TtlOne, Closes;
    TtlDoes(cfg, k, now, at, hashOk);
    var k' := TtlOne(cfg, k, now, at, hashOk);
    if at in k.runs && k' != k {
      if Risky(k.runs[at]) {
        ClosesState(cfg, k, k', now, at, TtlAbort, "ttl_breach_risk", "", ForceAbort, "ttl_breach_risk", "ttl_sweeper", id);
      } else {
        ClosesState(cfg, k, k', now, at, TtlReview, "ttl_breach", "", ForceReviewRequired, "ttl_breach", "ttl_sweeper", id);
      }
    }
  }

  lemma ZombieLeaves(cfg: Config, k: Kernel, now: int, at: string, hashOk: bool, id: string)
    requires Inv(cfg, k) && id in k.runs
    ensures var k' := ZombieOne(cfg, k, now, at, hashOk);
      SameState(k, k', id) || (id in k'.runs && at == id && k'.runs[id].view.state in {ForceReviewRequired, ForceAbort})
  {
    assert CachesOk(cfg, k);
    hide Inv, ZombieOne, Closes;
    ZombieDoes(cfg, k, now, at, hashOk);
    var k' := ZombieOne(cfg, k, now, at, hashOk);
    if at in k.runs && k.runs[at].view.state !in {Completed, Failed, ForceAbort, Aborted} {
      CountedSame(cfg, k, now, at, id);
      hide Counted, Idle, Risky;
      if Idle(cfg, k.runs[at], now) && k.runs[at].noProgressScans >= 1 && hashOk {
        ClosesState(cfg, Counted(cfg, k, now, at), k', now, at, ZombieSweep, "no_progress", "", if Risky(k.runs[at]) then ForceAbort else ForceReviewRequired,
                    "no_progress", "zombie_sweeper", id);
      }
    }
  }

  lemma CountedSame(cfg: Config, k: Kernel, now: int, at: string, id: string)
    requires at in k.runs && id in k.runs
    ensures at in Counted(cfg, k, now, at).runs && id in Counted(cfg, k, now, at).runs
    ensures Counted(cfg, k, now, at).runs[id].view == k.runs[id].view
  {
  }

  lemma FlagLeaves(k: Kernel, at: string, security: bool, resource: bool, id: string)
    requires id in k.runs
    ensures SameState(k, FlagRisk(k, at, security, resource), id)
  {
  }

  lemma MaintenanceLeaves(cfg: Config, k: Kernel, now: int, id: string)
    requires id in k.runs
    ensures SameState(k, Maintenance(cfg, k, now), id)
  {
    MaintainedRuns(cfg, k, now);
    hide Maintenance;
  }

  /** The run is parked as it was, or this operation is one that gets it out. */
  ghost predicate StaysOrLeaves(k: Kernel, k': Kernel, op: Op, id: string)
    requires id in k.runs
  {
    id in k'.runs && k'.runs[id].view.state != k.runs[id].view.state ==>
      || (k'.runs[id].view.state == Running && Unparks(k, op, id))
      || (k'.runs[id].view.state == Aborted && op.AbortOp? && op.id == id)
      || (k'.runs[id].view.state in {ForceReviewRequired, ForceAbort} && op.VisitOp? && op.id == id)
  }

  lemma SameStays(k: Kernel, k': Kernel, op: Op, id: string)
    requires SameState(k, k', id)
    ensures StaysOrLeaves(k, k', op, id)
  {
  }

  lemma OutStays(cfg: Config, k: Kernel, op: Op, id: string)
    requires Inv(cfg, k) && id in k.runs && Waiting(k.runs[id].view.state) && (op.ResumeOp? || op.AbortOp? || op.VisitOp?)
    ensures StaysOrLeaves(k, Apply(cfg, k, op), op, id)
  {
    hide Inv, Resume, Abort, SweepOne, Unparks, Waiting;
    match op
    case ResumeOp(now, at, req, ok) => ResumeLeaves(cfg, k, op, id);
    case AbortOp(now, at, reason, ok) => AbortLeaves(cfg, k, now, at, reason, ok, id);
    case VisitOp(w, now, at, ok) => VisitLeaves(cfg, w, k, now, at, ok, id);
  }

  lemma InStays(cfg: Config, k: Kernel, op: Op, id: string)
    requires ValidConfig(cfg) && Inv(cfg, k) && id in k.runs && Waiting(k.runs[id].view.state) && !op.ResumeOp? && !op.AbortOp? && !op.VisitOp?
    ensures SameState(k, Apply(cfg, k, op), id)
  {
    hide Inv, Create, Advance, Park, FlagRisk, Maintenance, Waiting, ValidConfig, SameState;
    match op
    case CreateOp(now, req, fOk, sOk) => CreateLeaves(cfg, k, now, req, fOk, sOk, id);
    case AdvanceOp(now, at, req, port, ok) => AdvanceLeaves(cfg, k, now, at, req, port, ok, id);
    case ParkOp(now, at, req, ok) => ParkLeaves(cfg, k, now, at, req, ok, id);
    case FlagOp(at, security, resource) => FlagLeaves(k, at, security, resource, id);
    case MaintainOp(now) => MaintenanceLeaves(cfg, k, now, id);
  }

  /**
   * A parked run stays as it is parked until its own current token resumes it, it is aborted, or a sweep closes it; no
   * advance, and no other token, gets it out.
   */
  lemma ParkedUntilResumed(cfg: Config, ops: seq<Op>, op: Op, id: string)
    requires ValidConfig(cfg) && id in After(cfg, ops).runs && Waiting(After(cfg, ops).runs[id].view.state)
    ensures StaysOrLeaves(After(cfg, ops), Apply(cfg, After(cfg, ops), op), op, id)
  {
    hide *;
    ReachableInv(cfg, ops);
    var k := After(cfg, ops);
    if op.ResumeOp? || op.AbortOp? || op.VisitOp? {
      OutStays(cfg, k, op, id);
    } else {
      InStays(cfg, k, op, id);
      SameStays(k, Apply(cfg, k, op), op, id);
    }
  }

  // ----- Roots and anchors -----

  /** What the root of a run in this state is the root of. */
  function RootTypeFor(s: RunState): RootType {
    match s
    case Completed => CompletedRoot
    case Reconciling => ReconciledRoot
    case ForceReviewRequired => ReviewHoldRoot
    case Aborted => AbortedRoot
    case ForceAbort => AbortedRoot
    case _ => PartialRoot
  }

  function AnchorFor(a: Anchors, t: RootType): string {
    match t
    case NoRoot => ""
    case CompletedRoot => a.completed
    case PartialRoot => a.partialRoot
    case ReconciledRoot => a.reconciled
    case ReviewHoldRoot => a.reviewHold
    case AbortedRoot => a.aborted
  }

  /** The root is typed exactly if there is one, it is the anchor of its type, and away from FAILED and SAFEGUARD_HOLD the type is that of the state. */
  ghost predicate Rooted(v: RunView) {
    && (v.root == "" <==> v.rootType == NoRoot)
    && (v.root != "" ==> AnchorFor(v.anchors, v.rootType) == v.root)
    && (v.root != "" && v.state != Failed && v.state != SafeguardHold ==> v.rootType == RootTypeFor(v.state))
  }

  ghost predicate RootsOk(k: Kernel) {
    forall id :: id in k.runs ==> Rooted(k.runs[id].view)
  }

  lemma HoldRooted(r: Run, now: int)
    requires Rooted(r.view)
    ensures Rooted(Hold(r, now).view)
  {
  }

  lemma ExtendRooted(r: Run, s: Step, next: RunState)
    requires Rooted(r.view) && s.hash != ""
    ensures Rooted(Extend(r, s, next).view)
  {
  }

  /** Nothing that the root's type and anchor depend on changed since. */
  lemma SameRooted(v: RunView, w: RunView)
    requires Rooted(v) && w.state == v.state && w.root == v.root && w.rootType == v.rootType && w.anchors == v.anchors
    ensures Rooted(w)
  {
  }

  lemma OneRooted(k: Kernel, k': Kernel, id: string, r: Run)
    requires RootsOk(k) && Rooted(r.view) && k'.runs == k.runs[id := r]
    ensures RootsOk(k')
  {
    hide Rooted;
  }

  lemma AdvanceRooted(cfg: Config, k: Kernel, now: int, id: string, req: AdvanceRequest, port: PortAnswers, hashOk: bool)
    requires ValidConfig(cfg) && RootsOk(k)
    ensures RootsOk(Advance(cfg, k, now, id, req, port, hashOk).0)
  {
    if id in k.runs {
      var k' := Advance(cfg, k, now, id, req, port, hashOk).0;
      assert Rooted(k.runs[id].view);
      HoldRooted(k.runs[id], now);
      if port.ref.Some? { GatedRooted(cfg, k, now, id, req, port.ref.value, hashOk); }
      OneRooted(k, SetRun(k, id, Hold(k.runs[id], now)), id, Hold(k.runs[id], now));
      hide AdvanceGated, GateError, Hold, Rooted, IsTerminal, ValidConfig;
    }
  }

  lemma GatedRooted(cfg: Config, k: Kernel, now: int, id: string, req: AdvanceRequest, ref: DecisionReference, hashOk: bool)
    requires ValidConfig(cfg) && RootsOk(k) && id in k.runs
    ensures RootsOk(AdvanceGated(cfg, k, now, id, req, ref, hashOk).0)
  {
    var r := k.runs[id];
    var r1 := r.(view := r.view.(tags := EnforceAll(req, ref, r.view.tags).0));
    assert Rooted(r.view);
    hide Rooted, RootsOk, EnforceAll, Hold, AdvanceAppend, AdvancedRun, AllowedTransition, Target, ValidConfig;
    SameRooted(r.view, r1.view);
    HoldRooted(r1, now);
    OneRooted(k, SetRun(k, id, r1), id, r1);
    OneRooted(k, SetRun(k, id, Hold(r1, now)), id, Hold(r1, now));
    if Target(req.next).Some? { AppendRooted(cfg, k, now, id, r1, req, Target(req.next).value); }
  }

  lemma AdvancedRooted(cfg: Config, r: Run, now: int, req: AdvanceRequest, next: RunState)
    requires ValidConfig(cfg) && Rooted(r.view)
    ensures Rooted(AdvancedRun(cfg, r, now, req, next).view)
  {
    ExtendRooted(r, AdvanceStep(cfg, r, now, req), next);
    hide Extend, ValidConfig;
  }

  lemma AppendRooted(cfg: Config, k: Kernel, now: int, id: string, r: Run, req: AdvanceRequest, next: RunState)
    requires ValidConfig(cfg) && RootsOk(k) && id in k.runs && Rooted(r.view)
    ensures RootsOk(AdvanceAppend(cfg, k, now, id, r, req, next))
  {
    AdvancedRooted(cfg, r, now, req, next);
    hide Rooted, AdvancedRun, ValidConfig, RootsOk;
    OneRooted(k, AdvanceAppend(cfg, k, now, id, r, req, next), id, AdvancedRun(cfg, r, now, req, next));
  }

  lemma ClosedRooted(cfg: Config, r: Run, tag: Synthetic, input: string, output: string, next: RunState, reason: string, source: string, progress: bool, now: int)
    requires ValidConfig(cfg) && Rooted(r.view)
    ensures Rooted(ClosedRun(r, ClosingStep(cfg, r, tag, input, output, now), next, reason, source, progress).view)
  {
    ExtendRooted(r, ClosingStep(cfg, r, tag, input, output, now), next);
    hide Extend, ValidConfig;
  }

  lemma CloseRooted(cfg: Config, k: Kernel, id: string, tag: Synthetic, input: string, output: string, next: RunState,
                    reason: string, source: string, progress: bool, now: int)
    requires ValidConfig(cfg) && RootsOk(k) && id in k.runs
    ensures RootsOk(Close(cfg, k, id, tag, input, output, next, reason, source, progress, now))
  {
    var r' := ClosedRun(k.runs[id], ClosingStep(cfg, k.runs[id], tag, input, output, now), next, reason, source, progress);
    ClosedRooted(cfg, k.runs[id], tag, input, output, next, reason, source, progress, now);
    hide Rooted, ClosedRun, ClosingStep, ValidConfig, RootsOk;
    OneRooted(k, Close(cfg, k, id, tag, input, output, next, reason, source, progress, now), id, r');
  }

  lemma ParkRooted(cfg: Config, k: Kernel, now: int, id: string, req: ParkRequest, hashOk: bool)
    requires ValidConfig(cfg) && RootsOk(k)
    ensures RootsOk(Park(cfg, k, now, id, req, hashOk).0)
  {
    if Park(cfg, k, now, id, req, hashOk).1.Ok? {
      var (r, t) := (k.runs[id], TokenTypeOf(req.tokenType).value);
      var s := SyntheticStep(cfg, r, req.stepId, req.incomingSeq, ParkStep, req.reason, TokenName(t), now);
      ExtendRooted(r, s, ParkState(t));
      SameRooted(Extend(r, s, ParkState(t)).view, ParkedRun(cfg, r, now, req, t).view) by { hide Extend; }
      OneRooted(k, Park(cfg, k, now, id, req, hashOk).0, id, ParkedRun(cfg, r, now, req, t)) by { hide ParkedRun, Rooted; }
    }
  }

  lemma ResumeRooted(cfg: Config, k: Kernel, now: int, id: string, req: ResumeRequest, hashOk: bool)
    requires ValidConfig(cfg) && RootsOk(k)
    ensures RootsOk(Resume(cfg, k, now, id, req, hashOk).0)
  {
    if Resume(cfg, k, now, id, req, hashOk).1.Ok? {
      var (r, t) := (k.runs[id], req.token.value);
      var s := SyntheticStep(cfg, r, t.stepId, req.incomingSeq, ResumeStep, req.reason, req.receiptRef, now);
      ExtendRooted(r, s, Running);
      SameRooted(Extend(r, s, Running).view, ResumedRun(cfg, r, now, t, req).view) by { hide Extend; }
      OneRooted(k, Resume(cfg, k, now, id, req, hashOk).0, id, ResumedRun(cfg, r, now, t, req)) by { hide ResumedRun, Rooted; }
    }
  }

  lemma VisitRooted(cfg: Config, w: Sweeper, k: Kernel, now: int, id: string, hashOk: bool)
    requires ValidConfig(cfg) && RootsOk(k)
    ensures RootsOk(SweepOne(cfg, w, k, now, id, hashOk))
  {
    hide Close, TtlDue, AtRisk, IsTerminal, ValidConfig, Rooted;
    if id in k.runs {
      var r := k.runs[id];
      assert Rooted(r.view);
      hide RootsOk;
      CloseRooted(cfg, k, id, TtlAbort, "ttl_breach_risk", "", ForceAbort, "ttl_breach_risk", "ttl_sweeper", false, now);
      CloseRooted(cfg, k, id, TtlReview, "ttl_breach", "", ForceReviewRequired, "ttl_breach", "ttl_sweeper", false, now);
      var r1 := r.(noProgressScans := r.noProgressScans + 1);
      OneRooted(k, SetRun(k, id, r.(noProgressScans := 0)), id, r.(noProgressScans := 0));
      OneRooted(k, SetRun(k, id, r1), id, r1);
      CloseRooted(cfg, SetRun(k, id, r1), id, ZombieSweep, "no_progress", "", if AtRisk(r) then ForceAbort else ForceReviewRequired,
                  "no_progress", "zombie_sweeper", false, now);
    }
  }

  lemma AbortRooted(cfg: Config, k: Kernel, now: int, id: string, reason: string, hashOk: bool)
    requires ValidConfig(cfg) && RootsOk(k)
    ensures RootsOk(Abort(cfg, k, now, id, reason, hashOk).0)
  {
    if id in k.runs {
      CloseRooted(cfg, k, id, AbortStep, reason, "aborted", Aborted, if reason == "" then "manual_abort" else reason, "abort_api", true, now);
    }
    hide RootsOk, Close, IsTerminal, ValidConfig;
  }

  lemma CreateRooted(cfg: Config, k: Kernel, now: int, req: CreateRequest, fOk: bool, sOk: bool)
    requires RootsOk(k)
    ensures RootsOk(Create(cfg, k, now, req, fOk, sOk).0)
  {
    if req.risk.Some? {
      var c := Normalise(req);
      var id := cfg.runName(cfg.fingerprint(c), k.runSeq + 1);
      OneRooted(k, Admit(cfg, k, now, c), id, NewRun(cfg, id, c, now));
    }
    hide Admit;
  }

  lemma ApplyRooted(cfg: Config, k: Kernel, op: Op)
    requires ValidConfig(cfg) && RootsOk(k)
    ensures RootsOk(Apply(cfg, k, op))
  {
    hide Create, Advance, Park, Resume, Abort, SweepOne, Maintenance, ValidConfig;
    match op
    case CreateOp(now, req, fOk, sOk) => CreateRooted(cfg, k, now, req, fOk, sOk); hide RootsOk;
    case AdvanceOp(now, at, req, port, ok) => AdvanceRooted(cfg, k, now, at, req, port, ok); hide RootsOk;
    case ParkOp(now, at, req, ok) => ParkRooted(cfg, k, now, at, req, ok); hide RootsOk;
    case ResumeOp(now, at, req, ok) => ResumeRooted(cfg, k, now, at, req, ok); hide RootsOk;
    case AbortOp(now, at, reason, ok) => AbortRooted(cfg, k, now, at, reason, ok); hide RootsOk;
    case FlagOp(at, security, resource) => hide Rooted;
    case VisitOp(w, now, at, ok) => VisitRooted(cfg, w, k, now, at, ok); hide RootsOk;
    case MaintainOp(now) => MaintainedRuns(cfg, k, now); hide Rooted, RunKept;
  }

  /** After any history the root of every run is typed by its state and anchored under that type. */
  lemma {:induction false} RootsAnchored(cfg: Config, ops: seq<Op>, id: string)
    requires ValidConfig(cfg) && id in After(cfg, ops).runs
    ensures Rooted(After(cfg, ops).runs[id].view)
  {
    ReachableRooted(cfg, ops);
    hide After, Rooted;
  }

  lemma {:induction false} ReachableRooted(cfg: Config, ops: seq<Op>)
    requires ValidConfig(cfg)
    ensures RootsOk(After(cfg, ops))
  {
    if ops != [] {
      ReachableRooted(cfg, ops[..|ops| - 1]);
      hide Apply, RootsOk, ValidConfig;
      ApplyRooted(cfg, After(cfg, ops[..|ops| - 1]), ops[|ops| - 1]);
    }
  }
}
