/** Where the confirmations that the execution gate reads come from, over every interleaving. */
module Confirmations {
  import opened RunTypes
  import RunSpec
  import RunHistory
  import opened DecisionSpec
  import PendingLifecycle
  import opened DecisionRules
  import opened JointSystem
  import opened ApprovalProtocol
  import ExecutionGate

  /**
   * The step confirms the entry of decision `id`: a report of success, the outcome of a case that was approved, or the
   * call of someone who approves the case.
   */
  ghost predicate ConfirmsNow(s: System, op: SysOp, id: string) {
    && HasEntry(s.d, id, Pending)
    && (|| (op.DecisionStep? && op.decision.ConfirmOp? && op.decision.confirm.success && op.decision.confirm.decisionId == id
            && ConfirmMatches(op.decision.confirm, s.d.pending[id]))
        || (op.DecisionStep? && op.decision.OutcomeOp? && op.decision.outcome.status == Approved && op.decision.outcome.decisionId == id
            && Concerns(s.d, op.decision.outcome))
        || (op.CallStep? && op.n < |s.calls| && s.calls[op.n].approve && s.calls[op.n].stage.Applying?
            && s.calls[op.n].stage.outcome.status == Approved && s.calls[op.n].stage.outcome.decisionId == id
            && Concerns(s.d, s.calls[op.n].stage.outcome)))
  }

  lemma ConfirmedTakes(cfg: Setup, s: System, op: SysOp, id: string)
    requires PendingLifecycle.Inv(s.d) && HasEntry(Take(cfg, s, op).d, id, Confirmed)
    requires op.CallStep? && op.n < |s.calls| ==> StageOk(s.calls[op.n])
    ensures HasEntry(s.d, id, Confirmed) || ConfirmsNow(s, op, id)
  {
    hide RunEffect, FlightStep, CallsStep, RunHistory.Apply, PendingLifecycle.Apply, PendingLifecycle.Inv, ConfirmMatches, Concerns, HasEntry;
    var e := DecisionEffect(s, op);
    if e.Some? { ConfirmedStep(cfg.decision, s.d, e.value, id); }
  }

  /** An entry that is confirmed was confirmed by one step of the history; no step on a denied or timed-out case is one. */
  lemma {:induction false} EveryConfirmation(cfg: Setup, ops: seq<SysOp>, id: string) returns (n: nat)
    requires RunSpec.ValidConfig(cfg.run) && HasEntry(After(cfg, ops).d, id, Confirmed)
    ensures n < |ops| && ConfirmsNow(After(cfg, ops[..n]), ops[n], id)
  {
    var init, op := ops[..|ops| - 1], ops[|ops| - 1];
    var s := After(cfg, init);
    assert After(cfg, ops) == Take(cfg, s, op);
    hide After, Take, PendingLifecycle.Inv, ConfirmsNow, HasEntry, StageOk, RunSpec.ValidConfig;
    JointInv(cfg, init);
    if op.CallStep? && op.n < |s.calls| { CallOk(cfg, init, op.n); }
    ConfirmedTakes(cfg, s, op, id);
    if ConfirmsNow(s, op, id) {
      n := |init|;
    } else {
      n := EveryConfirmation(cfg, init, id);
      assert ops[..n] == init[..n];
    }
  }

  /**
   * The confirmation read before a step was logged was made by one earlier step: someone reported success for that run and
   * step, or its case was approved. No step is ever logged on the strength of a denied or timed-out case.
   */
  lemma EveryStepConfirmed(cfg: Setup, ops: seq<SysOp>, id: string, n: nat) returns (w: ExecutionGate.Witness, m: nat)
    requires RunSpec.ValidConfig(cfg.run) && id in After(cfg, ops).k.runs
    requires n < |RunSpec.Log(After(cfg, ops).k, id)| && RunSpec.Log(After(cfg, ops).k, id)[n].content.NormalContent?
    ensures ExecutionGate.Passed(cfg, ops, id, After(cfg, ops).k.runs[id].view.tenant, RunSpec.Log(After(cfg, ops).k, id)[n], w)
    ensures m < w.at.confirmation && ConfirmsNow(After(cfg, ops[..m]), ops[m], w.req.decisionId)
  {
    w := ExecutionGate.EveryStepPassed(cfg, ops, id, n);
    hide After, ExecutionGate.DecisionGood, ExecutionGate.TicketGood, ConfirmsNow, RunSpec.ValidConfig;
    m := EveryConfirmation(cfg, ops[..w.at.confirmation], w.req.decisionId);
    assert ops[..w.at.confirmation][..m] == ops[..m];
  }

  /** A side effect is let through only on a decision that some operation stored to allow, or to require approval, and that some step confirmed. */
  lemma SideEffectsConfirmed(cfg: Setup, ops: seq<SysOp>, id: string) returns (n: nat, m: nat)
    requires RunSpec.ValidConfig(cfg.run) && SideEffectAllowed(After(cfg, ops).d, id)
    ensures n < |ops| && ConfirmsNow(After(cfg, ops[..n]), ops[n], id)
    ensures m < |ops| && ops[m].DecisionStep? && (ops[m].decision.EvaluateOp? || ops[m].decision.RecordOp?) && ops[m].decision.id == id
    ensures ops[m].decision.stored.value in {Allow, RequireApproval}
  {
    SideEffectIff(After(cfg, ops).d, id);
    hide After, ConfirmsNow, RunSpec.ValidConfig;
    n := EveryConfirmation(cfg, ops, id);
    m := ExecutionGate.StoredBy(cfg, ops, id);
  }
}
