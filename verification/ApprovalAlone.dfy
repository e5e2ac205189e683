/** A decision on an approval case with nothing interleaved: it unlocks its run exactly when the case, the entry and a current token allow it. */
module ApprovalAlone {
  import opened Outcomes
  import opened RunTypes
  import RunSpec
  import RunInvariants
  import RunHistory
  import opened DecisionSpec
  import DecisionRules
  import opened JointSystem

  /** The clock readings of one call: the decision kernel's, and the run kernel's in its search and in its resume. */
  datatype Clocks = Clocks(decision: int, search: int, resume: int)

  /** The unlock of a case's run after a search that answered `found`. */
  function Dispatch(cfg: Setup, k: RunSpec.Kernel, c: ApprovalCase, caseId: nat, resume: int, found: Option<Token>, hashOk: bool)
    : (RunSpec.Kernel, bool)
  {
    if found.None? || c.runId !in k.runs then (k, false)
    else
      var v := k.runs[c.runId].view;
      var (k', resp) := RunSpec.Resume(cfg.run, k, resume, c.runId,
                                       UnlockRequest(cfg, Resuming(c, found.value, v.seqId, v.snapshotHash), caseId), hashOk);
      (k', resp.Ok? && c.runId in k'.runs)
  }

  /** The whole call: both kernels after it, and how it ended. */
  function Decide(cfg: Setup, k: RunSpec.Kernel, d: Decisions, caseId: nat, approve: bool, at: Clocks, found: Option<Token>, hashOk: bool)
    : (RunSpec.Kernel, Decisions, Stage)
  {
    var (d1, copy) := ResolveCase(d, caseId, approve, at.decision);
    if copy.None? then (k, d1, Refused)
    else
      var c := copy.value;
      var d2 := ApplyOutcome(d1, c, at.decision);
      if !approve then (k, d2, Settled(c))
      else if !OutcomeApplies(d1, c) then (k, Guard(d2, c, at.decision), Guarded(c))
      else
        var (k', ok) := Dispatch(cfg, k, c, caseId, at.resume, found, hashOk);
        if ok then (k', d2, Dispatched(c, found.value)) else (k', Guard(d2, c, at.decision), Guarded(c))
  }

  /** The answers a search may give to this call. */
  ghost predicate FoundFor(k: RunSpec.Kernel, d: Decisions, caseId: nat, search: int, found: Option<Token>) {
    caseId in d.cases ==> RunSpec.Found(k, search, d.cases[caseId].runId, d.cases[caseId].stepId, Some(ApprovalToken), found)
  }

  // ----- When it dispatches -----

  /** The case waits for a verdict and its decision's entry for the same run and step is still pending. */
  predicate Decidable(d: Decisions, caseId: nat) {
    && caseId in d.cases && d.cases[caseId].status == Awaiting
    && d.cases[caseId].decisionId in d.pending
    && var p := d.pending[d.cases[caseId].decisionId];
    p.status == Pending && p.runId == d.cases[caseId].runId && p.stepId == d.cases[caseId].stepId
  }

  /** An approval token for this run and step, unexpired, issued by the park the run still stands in. */
  ghost predicate CurrentToken(k: RunSpec.Kernel, now: int, runId: string, stepId: string, t: Token) {
    && t in k.conts && t.runId == runId && t.typ == ApprovalToken && (stepId == "" || t.stepId == stepId)
    && k.conts[t].status == Active && now <= k.conts[t].expiresAt
    && runId in k.runs && t.seqId == k.runs[runId].view.seqId
  }

  /** The run is parked for approval under a token the call can use. */
  ghost predicate Unlockable(k: RunSpec.Kernel, now: int, runId: string, stepId: string) {
    runId != "" && exists t :: t in k.conts && CurrentToken(k, now, runId, stepId, t)
  }

  /** The search finds the current token if there is one. */
  lemma SearchFindsCurrent(cfg: RunSpec.Config, k: RunSpec.Kernel, search: int, resume: int, runId: string, stepId: string, found: Option<Token>)
    requires RunInvariants.Inv(cfg, k) && search <= resume && RunSpec.Found(k, search, runId, stepId, Some(ApprovalToken), found)
    ensures Unlockable(k, resume, runId, stepId) <==> found.Some? && CurrentToken(k, resume, runId, stepId, found.value)
  {
    hide RunInvariants.RunsOk, RunInvariants.NamesOk, RunInvariants.IdemOk, RunInvariants.CreatesOk;
    if Unlockable(k, resume, runId, stepId) {
      var t :| t in k.conts && CurrentToken(k, resume, runId, stepId, t);
      assert RunSpec.Usable(k, search, runId, stepId, Some(ApprovalToken), t);
      assert RunInvariants.TokenOk(k, found.value);
    }
  }

  /** A token found is that of a live run, and it resumes the run exactly if it is current and the step hashes. */
  lemma UnlockIff(cfg: RunSpec.Config, k: RunSpec.Kernel, search: int, resume: int, runId: string, stepId: string, t: Token, req: ResumeRequest, hashOk: bool)
    requires RunInvariants.Inv(cfg, k) && search <= resume && RunSpec.Usable(k, search, runId, stepId, Some(ApprovalToken), t)
    requires req.token == Some(t)
    requires runId in k.runs ==>
      req.incomingSeq == k.runs[runId].view.seqId + 1 && req.expectedSnapshot == k.runs[runId].view.snapshotHash
    ensures runId in k.runs
    ensures RunSpec.Resume(cfg, k, resume, runId, req, hashOk).1.Ok? <==> CurrentToken(k, resume, runId, stepId, t) && hashOk
  {
    hide RunInvariants.Inv, RunSpec.Resume, TokenMatchesState;
    RunHistory.LateChecksIdle(cfg, k, resume, runId, req);
    FoundIsLive(cfg, k, t);
    ResumesUnlessError(cfg, k, resume, runId, req, hashOk);
  }

  lemma ResumesUnlessError(cfg: RunSpec.Config, k: RunSpec.Kernel, now: int, runId: string, req: ResumeRequest, hashOk: bool)
    ensures RunSpec.Resume(cfg, k, now, runId, req, hashOk).1.Ok? <==> RunSpec.ResumeError(k, now, runId, req).None? && hashOk
  {
    hide RunSpec.ResumeWith;
  }

  lemma FoundIsLive(cfg: RunSpec.Config, k: RunSpec.Kernel, t: Token)
    requires RunInvariants.Inv(cfg, k) && t in k.conts
    ensures t.runId in k.runs
  {
    hide RunInvariants.RunsOk, RunInvariants.NamesOk, RunInvariants.IdemOk, RunInvariants.CreatesOk;
    assert RunInvariants.TokenOk(k, t);
  }

  /** What a successful resume leaves behind. */
  lemma ResumeRuns(cfg: RunSpec.Config, k: RunSpec.Kernel, now: int, runId: string, req: ResumeRequest, hashOk: bool)
    requires RunSpec.Resume(cfg, k, now, runId, req, hashOk).1.Ok?
    ensures var k' := RunSpec.Resume(cfg, k, now, runId, req, hashOk).0;
      && runId in k.runs && runId in k'.runs && k'.runs[runId].view.state == Running
      && |RunSpec.Log(k', runId)| == |RunSpec.Log(k, runId)| + 1
      && req.token.Some? && req.token.value in k'.conts && k'.conts[req.token.value].status == Consumed(now)
  {
    var r, t := k.runs[runId], req.token.value;
    RunInvariants.ExtendFields(r, RunSpec.SyntheticStep(cfg, r, t.stepId, req.incomingSeq, ResumeStep, req.reason, req.receiptRef, now), Running);
  }

  lemma DispatchIff(cfg: Setup, k: RunSpec.Kernel, c: ApprovalCase, caseId: nat, search: int, resume: int, found: Option<Token>, hashOk: bool)
    requires RunInvariants.Inv(cfg.run, k) && search <= resume && RunSpec.Found(k, search, c.runId, c.stepId, Some(ApprovalToken), found)
    ensures Dispatch(cfg, k, c, caseId, resume, found, hashOk).1 <==> Unlockable(k, resume, c.runId, c.stepId) && hashOk
    ensures var (k', ok) := Dispatch(cfg, k, c, caseId, resume, found, hashOk);
      ok ==>
        && c.runId in k.runs && c.runId in k'.runs && k'.runs[c.runId].view.state == Running
        && |RunSpec.Log(k', c.runId)| == |RunSpec.Log(k, c.runId)| + 1
        && found.value in k'.conts && k'.conts[found.value].status == Consumed(resume)
  {
    SearchFindsCurrent(cfg.run, k, search, resume, c.runId, c.stepId, found);
    hide Unlockable, CurrentToken, RunSpec.Resume, RunInvariants.Inv;
    if found.Some? && c.runId in k.runs {
      var v := k.runs[c.runId].view;
      var req := UnlockRequest(cfg, Resuming(c, found.value, v.seqId, v.snapshotHash), caseId);
      UnlockIff(cfg.run, k, search, resume, c.runId, c.stepId, found.value, req, hashOk);
      if RunSpec.Resume(cfg.run, k, resume, c.runId, req, hashOk).1.Ok? {
        ResumeRuns(cfg.run, k, resume, c.runId, req, hashOk);
      }
    }
  }

  lemma GuardTakesBack(d: Decisions, c: ApprovalCase, now: int)
    ensures var d' := Guard(d, c, now);
      c.decisionId in d'.pending && ForCase(d'.pending[c.decisionId], c) ==> d'.pending[c.decisionId].status != Confirmed
  {
  }

  /**
   * The converse of closure. Uninterrupted, an approve call dispatches exactly if the case awaits a verdict, the entry of
   * the same run and step is pending, the run is parked for approval under an unexpired token, and the step hashes; then
   * the run is RUNNING, one step longer, and the entry is confirmed. Otherwise the case's entry is not confirmed.
   */
  lemma ApproveIff(cfg: Setup, k: RunSpec.Kernel, d: Decisions, caseId: nat, at: Clocks, found: Option<Token>, hashOk: bool)
    requires RunInvariants.Inv(cfg.run, k) && at.search <= at.resume && FoundFor(k, d, caseId, at.search, found)
    ensures var (k', d', end) := Decide(cfg, k, d, caseId, true, at, found, hashOk);
      && (end.Dispatched? <==>
            Decidable(d, caseId) && hashOk && Unlockable(k, at.resume, d.cases[caseId].runId, d.cases[caseId].stepId))
      && (end.Dispatched? ==>
            var c := d.cases[caseId];
            && c.runId in k.runs && c.runId in k'.runs && k'.runs[c.runId].view.state == Running
            && |RunSpec.Log(k', c.runId)| == |RunSpec.Log(k, c.runId)| + 1
            && end.token in k'.conts && k'.conts[end.token].status.Consumed?
            && c.decisionId in d'.pending && d'.pending[c.decisionId].status == Confirmed)
      && (end.Guarded? ==>
            var c := end.outcome;
            c.decisionId in d'.pending && ForCase(d'.pending[c.decisionId], c) ==> d'.pending[c.decisionId].status != Confirmed)
      && (end.Refused? <==> caseId !in d.cases || d.cases[caseId].status != Awaiting)
  {
    hide RunInvariants.Inv, Unlockable, CurrentToken, Dispatch, RunSpec.Found;
    if caseId in d.cases && d.cases[caseId].status == Awaiting {
      var c := d.cases[caseId].(status := Approved, resolvedAt := at.decision);
      DispatchIff(cfg, k, c, caseId, at.search, at.resume, found, hashOk);
      var d1 := ResolveCase(d, caseId, true, at.decision).0;
      GuardTakesBack(ApplyOutcome(d1, c, at.decision), c, at.decision);
    }
    hide Guard;
  }

  /**
   * A deny call never touches the run kernel. It is refused exactly if the case does not await a verdict; otherwise the
   * case is denied, and the entry of its decision is closed if it was pending for the same run and step, else left alone.
   */
  lemma DenyIff(cfg: Setup, k: RunSpec.Kernel, d: Decisions, caseId: nat, at: Clocks, found: Option<Token>, hashOk: bool)
    ensures var (k', d', end) := Decide(cfg, k, d, caseId, false, at, found, hashOk);
      && k' == k
      && (end.Refused? <==> caseId !in d.cases || d.cases[caseId].status != Awaiting)
      && (end.Refused? ==> d' == d)
      && (!end.Refused? ==> end.Settled? && d'.cases == d.cases[caseId := d.cases[caseId].(status := Denied, resolvedAt := at.decision)])
      && (Decidable(d, caseId) ==>
            var id := d.cases[caseId].decisionId;
            d'.pending == d.pending[id := d.pending[id].(status := Closed, updatedAt := at.decision)])
      && (!Decidable(d, caseId) ==> d'.pending == d.pending)
  {
    DecisionRules.ResolveDoes(d, caseId, false, at.decision);
    var (d1, copy) := ResolveCase(d, caseId, false, at.decision);
    if copy.Some? { DecisionRules.OutcomeDoes(d1, copy.value, at.decision); }
    hide ResolveCase, ApplyOutcome;
  }

  // ----- The call as a history of the joint system -----

  ghost function TakeAll(cfg: Setup, s: System, ops: seq<SysOp>): System {
    if ops == [] then s else Take(cfg, TakeAll(cfg, s, ops[..|ops| - 1]), ops[|ops| - 1])
  }

  function DecisionsAfter(s: System, call: Call, clock: int): Decisions {
    match call.stage
    case Resolving => ResolveCase(s.d, call.caseId, call.approve, clock).0
    case Applying(c) => ApplyOutcome(s.d, c, clock)
    case Guarding(c) => Guard(s.d, c, clock)
    case _ => s.d
  }

  ghost function KernelAfter(cfg: Setup, s: System, call: Call, clock: int, hashOk: bool): RunSpec.Kernel {
    if call.stage.Resuming? then
      RunSpec.Resume(cfg.run, s.k, clock, call.stage.outcome.runId, UnlockRequest(cfg, call.stage, call.caseId), hashOk).0
    else s.k
  }

  /** One step of call `n` while no advance holds the run lock. */
  lemma MoveTakes(cfg: Setup, s: System, n: nat, clock: int, found: Option<Token>, hashOk: bool)
    requires n < |s.calls| && s.flight.None?
    ensures Take(cfg, s, CallStep(n, clock, found, hashOk))
         == System(KernelAfter(cfg, s, s.calls[n], clock, hashOk), DecisionsAfter(s, s.calls[n], clock), None,
                   s.calls[n := s.calls[n].(stage := NextStage(cfg, s, s.calls[n], clock, found, hashOk))])
  {
    hide RunSpec.Resume, NextStage, ResolveCase, ApplyOutcome, Guard;
  }

  /** The system with its last call at another stage, and these kernels. */
  function At(s: System, k: RunSpec.Kernel, d: Decisions, caseId: nat, approve: bool, stage: Stage): System {
    System(k, d, None, s.calls + [Call(caseId, approve, stage)])
  }

  /** One more step of the last call, from a stage that is not over. */
  lemma MoveOn(cfg: Setup, s: System, ops: seq<SysOp>, k: RunSpec.Kernel, d: Decisions, caseId: nat, approve: bool, stage: Stage,
               clock: int, found: Option<Token>, hashOk: bool) returns (more: seq<SysOp>)
    requires TakeAll(cfg, s, ops) == At(s, k, d, caseId, approve, stage)
    ensures var now := At(s, k, d, caseId, approve, stage);
      && TakeAll(cfg, s, more) == At(s, KernelAfter(cfg, now, now.calls[|s.calls|], clock, hashOk), DecisionsAfter(now, now.calls[|s.calls|], clock),
                                     caseId, approve, NextStage(cfg, now, now.calls[|s.calls|], clock, found, hashOk))
      && more == ops + [CallStep(|s.calls|, clock, found, hashOk)]
  {
    var op := CallStep(|s.calls|, clock, found, hashOk);
    more := ops + [op];
    assert more[..|more| - 1] == ops;
    var now := At(s, k, d, caseId, approve, stage);
    hide Take, KernelAfter, DecisionsAfter, NextStage;
    assert TakeAll(cfg, s, more) == Take(cfg, now, op);
    MoveTakes(cfg, now, |s.calls|, clock, found, hashOk);
    var next := NextStage(cfg, now, now.calls[|s.calls|], clock, found, hashOk);
    assert now.calls[|s.calls| := now.calls[|s.calls|].(stage := next)] == s.calls + [Call(caseId, approve, next)];
  }

  /** The dispatch and the guard, from the signal on. */
  lemma DispatchIsHistory(cfg: Setup, s: System, ops: seq<SysOp>, d: Decisions, caseId: nat, c: ApprovalCase, at: Clocks,
                          found: Option<Token>, hashOk: bool) returns (more: seq<SysOp>)
    requires TakeAll(cfg, s, ops) == At(s, s.k, d, caseId, true, Finding(c))
    requires RunSpec.Found(s.k, at.search, c.runId, c.stepId, Some(ApprovalToken), found)
    ensures var (k', ok) := Dispatch(cfg, s.k, c, caseId, at.resume, found, hashOk);
      TakeAll(cfg, s, more) == At(s, k', if ok then d else Guard(d, c, at.decision), caseId, true, if ok then Dispatched(c, found.value) else Guarded(c))
  {
    hide TakeAll, RunSpec.Resume, RunSpec.Found, Guard;
    more := MoveOn(cfg, s, ops, s.k, d, caseId, true, Finding(c), at.search, found, hashOk);
    var k := s.k;
    if found.Some? {
      more := MoveOn(cfg, s, more, k, d, caseId, true, Viewing(c, found.value), at.search, found, hashOk);
      if c.runId in k.runs {
        var st := Resuming(c, found.value, k.runs[c.runId].view.seqId, k.runs[c.runId].view.snapshotHash);
        more := MoveOn(cfg, s, more, k, d, caseId, true, st, at.resume, found, hashOk);
        k := RunSpec.Resume(cfg.run, s.k, at.resume, c.runId, UnlockRequest(cfg, st, caseId), hashOk).0;
        if RunSpec.Resume(cfg.run, s.k, at.resume, c.runId, UnlockRequest(cfg, st, caseId), hashOk).1.Ok? {
          more := MoveOn(cfg, s, more, k, d, caseId, true, Checking(c, found.value), at.resume, found, hashOk);
        }
      }
    }
    if !Dispatch(cfg, s.k, c, caseId, at.resume, found, hashOk).1 {
      more := MoveOn(cfg, s, more, k, d, caseId, true, Guarding(c), at.decision, found, hashOk);
    }
  }

  /** The sequential call is one history of the joint system: its steps taken one after the other. */
  lemma DecideIsHistory(cfg: Setup, s: System, caseId: nat, approve: bool, at: Clocks, found: Option<Token>, hashOk: bool) returns (ops: seq<SysOp>)
    requires s.flight.None? && FoundFor(s.k, s.d, caseId, at.search, found)
    ensures var (k', d', end) := Decide(cfg, s.k, s.d, caseId, approve, at, found, hashOk);
      TakeAll(cfg, s, ops) == At(s, k', d', caseId, approve, end)
  {
    ops := [StartCall(caseId, approve)];
    StartTakes(cfg, s, caseId, approve);
    hide TakeAll, RunSpec.Found, Guard, Dispatch, RunSpec.Resume;
    ops := MoveOn(cfg, s, ops, s.k, s.d, caseId, approve, Resolving, at.decision, found, hashOk);
    var (d1, copy) := ResolveCase(s.d, caseId, approve, at.decision);
    if copy.Some? {
      var c := copy.value;
      ops := MoveOn(cfg, s, ops, s.k, d1, caseId, approve, Applying(c), at.decision, found, hashOk);
      var d2 := ApplyOutcome(d1, c, at.decision);
      if approve && !OutcomeApplies(d1, c) {
        ops := MoveOn(cfg, s, ops, s.k, d2, caseId, approve, Guarding(c), at.decision, found, hashOk);
      } else if approve {
        ops := DispatchIsHistory(cfg, s, ops, d2, caseId, c, at, found, hashOk);
      }
    }
  }

  lemma StartTakes(cfg: Setup, s: System, caseId: nat, approve: bool)
    requires s.flight.None?
    ensures TakeAll(cfg, s, [StartCall(caseId, approve)]) == At(s, s.k, s.d, caseId, approve, Resolving)
  {
    var ops := [StartCall(caseId, approve)];
    assert ops[..0] == [] && TakeAll(cfg, s, []) == s;
    assert TakeAll(cfg, s, ops) == Take(cfg, s, ops[0]);
  }
}
