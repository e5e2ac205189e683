/**
 * The run kernel and the decision kernel joined by their two ports. Every region that runs under one lock is a step of
 * its own, so an advance is five steps (it holds the run lock across three separate reads of the decision kernel) and an
 * approval call is up to seven, and any steps interleave.
 */
module JointSystem {
  import opened Outcomes
  import opened RunTypes
  import RunSpec
  import RunInvariants
  import RunHistory
  import opened DecisionSpec
  import PendingLifecycle

  /** An advance that holds the run lock: what it has read so far, in order. */
  datatype Flight = Flight(
    id: string, req: AdvanceRequest,
    ref: Option<Option<DecisionReference>>, confirmed: Option<bool>, receiptOk: Option<bool>)

  /** Where a call that decides an approval case stands. */
  datatype Stage =
    | Resolving
    | Applying(outcome: ApprovalCase)
    | Finding(outcome: ApprovalCase)
    | Viewing(outcome: ApprovalCase, token: Token)
    | Resuming(outcome: ApprovalCase, token: Token, seqId: int, snapshot: string)
    | Checking(outcome: ApprovalCase, token: Token)
    | Guarding(outcome: ApprovalCase)
    | Dispatched(outcome: ApprovalCase, token: Token)
    | Guarded(outcome: ApprovalCase)
    | Settled(outcome: ApprovalCase)
    | Refused

  datatype Call = Call(caseId: nat, approve: bool, stage: Stage)

  datatype System = System(k: RunSpec.Kernel, d: Decisions, flight: Option<Flight>, calls: seq<Call>)

  datatype Setup = Setup(run: RunSpec.Config, decision: Settings, caseName: nat -> string)

  const START := System(RunSpec.EMPTY_KERNEL, NO_DECISIONS, None, [])

  /**
   * A step. `RunStep` and `DecisionStep` are all operations of the two kernels outside the two protocols. In `CallStep`,
   * `found` is what the search for a continuation answers, if the call is there.
   */
  datatype SysOp =
    | RunStep(run: RunHistory.Op)
    | DecisionStep(decision: PendingLifecycle.DecisionOp)
    | BeginAdvance(id: string, req: AdvanceRequest)
    | ReadReference
    | ReadConfirmation
    | ReadReceipt(clock: int)
    | FinishAdvance(clock: int, hashOk: bool)
    | StartCall(caseId: nat, approve: bool)
    | CallStep(n: nat, clock: int, found: Option<Token>, hashOk: bool)

  // ----- The advance -----

  ghost function Confirmation(d: Decisions, f: Flight): bool {
    f.ref.Some? && f.ref.value.Some? &&
    ConfirmedFor(d, f.req.decisionId, f.id, f.req.stepId, f.ref.value.value.attempt, f.ref.value.value.phase)
  }

  function TenantOf(k: RunSpec.Kernel, id: string): string {
    if id in k.runs then k.runs[id].view.tenant else ""
  }

  function Receipt(d: Decisions, clock: int, tenant: string, f: Flight): bool {
    ReceiptOk(d, clock, f.id, f.req.stepId, tenant, f.req.ticketId, f.req.used, f.req.receiptAt)
  }

  ghost function FlightStep(s: System, op: SysOp): Option<Flight> {
    match (op, s.flight)
    case (BeginAdvance(id, req), None) => Some(Flight(id, req, None, None, None))
    case (ReadReference, Some(f)) =>
      if f.ref.None? then Some(f.(ref := Some(GetReference(s.d, f.req.decisionId)))) else s.flight
    case (ReadConfirmation, Some(f)) =>
      if f.ref.Some? && f.confirmed.None? then Some(f.(confirmed := Some(Confirmation(s.d, f)))) else s.flight
    case (ReadReceipt(clock), Some(f)) =>
      if f.confirmed.Some? && f.receiptOk.None? then Some(f.(receiptOk := Some(Receipt(s.d, clock, TenantOf(s.k, f.id), f)))) else s.flight
    case (FinishAdvance(_, _), Some(f)) => if f.receiptOk.Some? && f.ref.Some? && f.confirmed.Some? then None else s.flight
    case _ => s.flight
  }

  // ----- The approval call -----

  /** A call that waits for the run lock does not move while an advance holds it. */
  predicate NeedsRunLock(stage: Stage) {
    stage.Finding? || stage.Viewing? || stage.Resuming? || stage.Checking?
  }

  predicate Moving(s: System, op: SysOp) {
    op.CallStep? && op.n < |s.calls| && (NeedsRunLock(s.calls[op.n].stage) ==> s.flight.None?)
  }

  function UnlockRequest(cfg: Setup, stage: Stage, caseId: nat): ResumeRequest
    requires stage.Resuming?
  {
    ResumeRequest(Some(stage.token), "approval_approved", "decision://approval_unlock/" + cfg.caseName(caseId), stage.seqId + 1, stage.snapshot)
  }

  ghost predicate SearchAnswers(s: System, clock: int, c: ApprovalCase, found: Option<Token>) {
    RunSpec.Found(s.k, clock, c.runId, c.stepId, Some(ApprovalToken), found)
  }

  ghost function NextStage(cfg: Setup, s: System, call: Call, clock: int, found: Option<Token>, hashOk: bool): Stage {
    match call.stage
    case Resolving =>
      var c := ResolveCase(s.d, call.caseId, call.approve, clock).1;
      if c.Some? then Applying(c.value) else Refused
    case Applying(c) =>
      if c.status != Approved then Settled(c) else if OutcomeApplies(s.d, c) then Finding(c) else Guarding(c)
    case Finding(c) =>
      if !SearchAnswers(s, clock, c, found) then call.stage
      else if found.Some? then Viewing(c, found.value) else Guarding(c)
    case Viewing(c, t) =>
      if c.runId in s.k.runs then Resuming(c, t, s.k.runs[c.runId].view.seqId, s.k.runs[c.runId].view.snapshotHash) else Guarding(c)
    case Resuming(c, t, _, _) =>
      if RunSpec.Resume(cfg.run, s.k, clock, c.runId, UnlockRequest(cfg, call.stage, call.caseId), hashOk).1.Ok? then Checking(c, t) else Guarding(c)
    case Checking(c, t) =>
      if c.runId in s.k.runs then Dispatched(c, t) else Guarding(c)
    case Guarding(c) => Guarded(c)
    case _ => call.stage
  }

  ghost function CallsStep(cfg: Setup, s: System, op: SysOp): seq<Call> {
    if op.StartCall? then s.calls + [Call(op.caseId, op.approve, Resolving)]
    else if Moving(s, op) then
      s.calls[op.n := s.calls[op.n].(stage := NextStage(cfg, s, s.calls[op.n], op.clock, op.found, op.hashOk))]
    else s.calls
  }

  // ----- The system -----

  /** What the step does to the run kernel, if anything; nothing but its own end touches it while an advance holds the lock. */
  function RunEffect(cfg: Setup, s: System, op: SysOp): Option<RunHistory.Op> {
    if op.RunStep? && s.flight.None? && !op.run.AdvanceOp? then Some(op.run)
    else if op.FinishAdvance? && s.flight.Some? then
      var f := s.flight.value;
      if f.ref.Some? && f.confirmed.Some? && f.receiptOk.Some? then
        Some(RunHistory.AdvanceOp(op.clock, f.id, f.req, PortAnswers(f.ref.value, f.confirmed.value, f.receiptOk.value), op.hashOk))
      else None
    else if Moving(s, op) && s.calls[op.n].stage.Resuming? then
      var stage := s.calls[op.n].stage;
      Some(RunHistory.ResumeOp(op.clock, stage.outcome.runId, UnlockRequest(cfg, stage, s.calls[op.n].caseId), op.hashOk))
    else None
  }

  function DecisionEffect(s: System, op: SysOp): Option<PendingLifecycle.DecisionOp> {
    if op.DecisionStep? then Some(op.decision)
    else if Moving(s, op) then
      var call := s.calls[op.n];
      match call.stage
      case Resolving => Some(PendingLifecycle.ResolveOp(call.caseId, call.approve, op.clock))
      case Applying(c) => Some(PendingLifecycle.OutcomeOp(c, op.clock))
      case Guarding(c) => Some(PendingLifecycle.GuardOp(c, op.clock))
      case _ => None
    else None
  }

  ghost function Take(cfg: Setup, s: System, op: SysOp): System {
    var run, decision := RunEffect(cfg, s, op), DecisionEffect(s, op);
    System(
      if run.Some? then RunHistory.Apply(cfg.run, s.k, run.value) else s.k,
      if decision.Some? then PendingLifecycle.Apply(cfg.decision, s.d, decision.value) else s.d,
      FlightStep(s, op),
      CallsStep(cfg, s, op))
  }

  ghost function After(cfg: Setup, ops: seq<SysOp>): System {
    if ops == [] then START else Take(cfg, After(cfg, ops[..|ops| - 1]), ops[|ops| - 1])
  }

  // ----- Each kernel by itself -----

  ghost function RunPart(cfg: Setup, ops: seq<SysOp>): seq<RunHistory.Op> {
    if ops == [] then [] else
      var init := ops[..|ops| - 1];
      var e := RunEffect(cfg, After(cfg, init), ops[|ops| - 1]);
      RunPart(cfg, init) + if e.Some? then [e.value] else []
  }

  ghost function DecisionPart(cfg: Setup, ops: seq<SysOp>): seq<PendingLifecycle.DecisionOp> {
    if ops == [] then [] else
      var init := ops[..|ops| - 1];
      var e := DecisionEffect(After(cfg, init), ops[|ops| - 1]);
      DecisionPart(cfg, init) + if e.Some? then [e.value] else []
  }

  /** Seen from either kernel, any run of the joint system is one of its own histories. */
  lemma {:induction false} KernelHistories(cfg: Setup, ops: seq<SysOp>)
    ensures After(cfg, ops).k == RunHistory.After(cfg.run, RunPart(cfg, ops))
    ensures After(cfg, ops).d == PendingLifecycle.After(cfg.decision, DecisionPart(cfg, ops))
  {
    hide RunEffect, DecisionEffect, FlightStep, CallsStep, RunHistory.Apply, PendingLifecycle.Apply;
    if ops != [] {
      var init, op := ops[..|ops| - 1], ops[|ops| - 1];
      KernelHistories(cfg, init);
      var s := After(cfg, init);
      if RunEffect(cfg, s, op).Some? {
        assert RunPart(cfg, ops)[..|RunPart(cfg, ops)| - 1] == RunPart(cfg, init);
      } else {
        assert RunPart(cfg, ops) == RunPart(cfg, init);
      }
      if DecisionEffect(s, op).Some? {
        assert DecisionPart(cfg, ops)[..|DecisionPart(cfg, ops)| - 1] == DecisionPart(cfg, init);
      } else {
        assert DecisionPart(cfg, ops) == DecisionPart(cfg, init);
      }
    }
  }

  lemma JointInv(cfg: Setup, ops: seq<SysOp>)
    requires RunSpec.ValidConfig(cfg.run)
    ensures RunInvariants.Inv(cfg.run, After(cfg, ops).k)
    ensures PendingLifecycle.Inv(After(cfg, ops).d)
  {
    hide *;
    KernelHistories(cfg, ops);
    RunHistory.ReachableInv(cfg.run, RunPart(cfg, ops));
    PendingLifecycle.ReachableInv(cfg.decision, DecisionPart(cfg, ops));
  }

  /** A longer history, one step at a time. */
  lemma AfterStep(cfg: Setup, ops: seq<SysOp>, i: nat)
    requires i < |ops|
    ensures After(cfg, ops[..i + 1]) == Take(cfg, After(cfg, ops[..i]), ops[i])
  {
    hide Take;
    assert ops[..i + 1][..i] == ops[..i];
  }
}
