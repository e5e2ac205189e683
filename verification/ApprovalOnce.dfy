/** However approval calls interleave, a case is decided by one of them at most, and a token unlocks a run for one at most. */
module ApprovalOnce {
  import opened Outcomes
  import opened RunTypes
  import RunSpec
  import RunInvariants
  import RunHistory
  import opened DecisionSpec
  import PendingLifecycle
  import opened JointSystem
  import opened ApprovalProtocol

  // ----- One call decides a case -----

  /** The call has got its verdict in. */
  predicate Decided(call: Call) {
    !call.stage.Resolving? && !call.stage.Refused?
  }

  lemma ClosedTakes(cfg: Setup, s: System, op: SysOp, c: nat)
    requires PendingLifecycle.CaseClosed(s.d, c)
    ensures PendingLifecycle.CaseClosed(Take(cfg, s, op).d, c)
  {
    hide RunEffect, FlightStep, CallsStep, RunHistory.Apply, PendingLifecycle.Apply, PendingLifecycle.CaseClosed;
    var e := DecisionEffect(s, op);
    if e.Some? { PendingLifecycle.ClosedStays(cfg.decision, s.d, e.value, c); }
  }

  /** A call leaves Resolving with a verdict only if its case was awaiting one, and that closes the case. */
  lemma DecidesOpen(cfg: Setup, s: System, op: SysOp)
    requires Moving(s, op) && s.calls[op.n].stage.Resolving? && PendingLifecycle.CasesOk(s.d)
    requires Decided(s.calls[op.n].(stage := NextStage(cfg, s, s.calls[op.n], op.clock, op.found, op.hashOk)))
    ensures !PendingLifecycle.CaseClosed(s.d, s.calls[op.n].caseId)
    ensures PendingLifecycle.CaseClosed(Take(cfg, s, op).d, s.calls[op.n].caseId)
  {
    hide RunEffect, FlightStep, CallsStep, RunHistory.Apply;
  }

  lemma Undecided(cfg: Setup, s: System, call: Call, clock: int, found: Option<Token>, hashOk: bool)
    requires !Decided(call) && Decided(call.(stage := NextStage(cfg, s, call, clock, found, hashOk)))
    ensures call.stage.Resolving?
  {
  }

  lemma {:induction false} DecidedCloses(cfg: Setup, ops: seq<SysOp>, n: nat)
    requires n < |After(cfg, ops).calls| && Decided(After(cfg, ops).calls[n]) && RunSpec.ValidConfig(cfg.run)
    ensures PendingLifecycle.CaseClosed(After(cfg, ops).d, After(cfg, ops).calls[n].caseId)
  {
    var init, op := ops[..|ops| - 1], ops[|ops| - 1];
    var s := After(cfg, init);
    assert After(cfg, ops) == Take(cfg, s, op);
    CallMoves(cfg, s, op, n);
    JointInv(cfg, init);
    hide After, Take, NextStage, PendingLifecycle.CaseClosed, PendingLifecycle.TicketsOk, PendingLifecycle.CasesOk, RunInvariants.Inv;
    if Decided(s.calls[n]) {
      DecidedCloses(cfg, init, n);
      ClosedTakes(cfg, s, op, s.calls[n].caseId);
    } else {
      Undecided(cfg, s, s.calls[n], op.clock, op.found, op.hashOk);
      DecidesOpen(cfg, s, op);
    }
  }

  /** Of two calls on one case at most one gets its verdict in, whatever interleaves. */
  lemma {:induction false} OneVerdictPerCase(cfg: Setup, ops: seq<SysOp>, n: nat, m: nat)
    requires RunSpec.ValidConfig(cfg.run) && n != m && n < |After(cfg, ops).calls| && m < |After(cfg, ops).calls|
    requires After(cfg, ops).calls[n].caseId == After(cfg, ops).calls[m].caseId
    ensures !Decided(After(cfg, ops).calls[n]) || !Decided(After(cfg, ops).calls[m])
  {
    var init, op := ops[..|ops| - 1], ops[|ops| - 1];
    var s := After(cfg, init);
    assert After(cfg, ops) == Take(cfg, s, op);
    CallMoves(cfg, s, op, n);
    CallMoves(cfg, s, op, m);
    JointInv(cfg, init);
    hide After, Take, NextStage, PendingLifecycle.CaseClosed, PendingLifecycle.TicketsOk, PendingLifecycle.CasesOk, RunInvariants.Inv;
    if n < |s.calls| && m < |s.calls| && Decided(After(cfg, ops).calls[n]) && Decided(After(cfg, ops).calls[m]) {
      OneVerdictPerCase(cfg, init, n, m);
      var (mover, other) := if Decided(s.calls[n]) then (m, n) else (n, m);
      assert Moving(s, op) && op.n == mover;
      DecidedCloses(cfg, init, other);
      Undecided(cfg, s, s.calls[mover], op.clock, op.found, op.hashOk);
      DecidesOpen(cfg, s, op);
    }
  }

  // ----- One call uses a token -----

  lemma SpentTakes(cfg: Setup, s: System, op: SysOp, t: Token)
    requires RunSpec.ValidConfig(cfg.run) && RunInvariants.Inv(cfg.run, s.k) && RunHistory.Spent(cfg.run, s.k, t)
    ensures RunHistory.Spent(cfg.run, Take(cfg, s, op).k, t)
  {
    hide DecisionEffect, FlightStep, CallsStep, RunHistory.Apply, PendingLifecycle.Apply, RunInvariants.Inv, RunHistory.Spent;
    var e := RunEffect(cfg, s, op);
    if e.Some? { RunHistory.SpentStep(cfg.run, s.k, e.value, t); }
  }

  lemma {:induction false} SpentOverHistory(cfg: Setup, ops: seq<SysOp>, i: nat, j: nat, t: Token)
    requires RunSpec.ValidConfig(cfg.run) && i <= j <= |ops| && RunHistory.Spent(cfg.run, After(cfg, ops[..i]).k, t)
    ensures RunHistory.Spent(cfg.run, After(cfg, ops[..j]).k, t)
  {
    hide After, Take, RunInvariants.Inv, RunHistory.Spent;
    if i < j {
      SpentOverHistory(cfg, ops, i, j - 1, t);
      AfterStep(cfg, ops, j - 1);
      JointInv(cfg, ops[..j - 1]);
      SpentTakes(cfg, After(cfg, ops[..j - 1]), ops[j - 1], t);
    }
  }

  lemma ResumeSpends(cfg: Setup, k: RunSpec.Kernel, now: int, id: string, req: ResumeRequest, hashOk: bool, t: Token)
    requires RunSpec.ValidConfig(cfg.run) && RunInvariants.Inv(cfg.run, k)
    requires req.token == Some(t) && RunSpec.Resume(cfg.run, k, now, id, req, hashOk).1.Ok?
    ensures !RunHistory.Spent(cfg.run, k, t) && RunHistory.Spent(cfg.run, RunSpec.Resume(cfg.run, k, now, id, req, hashOk).0, t)
  {
    hide RunSpec.Resume, RunInvariants.Inv, RunHistory.Spent;
    hide RunSpec.Create, RunSpec.Advance, RunSpec.Park, RunSpec.Abort, RunSpec.SweepOne, RunSpec.Maintenance, RunSpec.FlagRisk, RunSpec.ValidConfig;
    RunHistory.AcceptSpends(cfg.run, k, RunHistory.ResumeOp(now, id, req, hashOk), t);
  }

  lemma ResumedSpends(cfg: Setup, ops: seq<SysOp>, i: nat, n: nat, c: ApprovalCase, t: Token)
    requires RunSpec.ValidConfig(cfg.run) && ResumedAt(cfg, ops, i, n, c, t)
    ensures !RunHistory.Spent(cfg.run, After(cfg, ops[..i]).k, t) && RunHistory.Spent(cfg.run, After(cfg, ops[..i + 1]).k, t)
  {
    hide After, RunSpec.Resume, RunInvariants.Inv, RunHistory.Spent, RunSpec.ValidConfig;
    JointInv(cfg, ops[..i]);
    var k := After(cfg, ops[..i]).k;
    var req: ResumeRequest, hashOk :|
      req.token == Some(t) && RunSpec.Resume(cfg.run, k, ops[i].clock, c.runId, req, hashOk).1.Ok?
      && After(cfg, ops[..i + 1]).k == RunSpec.Resume(cfg.run, k, ops[i].clock, c.runId, req, hashOk).0;
    ResumeSpends(cfg, k, ops[i].clock, c.runId, req, hashOk, t);
  }

  /** No token unlocks a run for two calls, on whatever cases. */
  lemma OneCallPerToken(cfg: Setup, ops: seq<SysOp>, n: nat, m: nat)
    requires RunSpec.ValidConfig(cfg.run) && n != m && n < |After(cfg, ops).calls| && m < |After(cfg, ops).calls|
    requires After(cfg, ops).calls[n].stage.Dispatched? && After(cfg, ops).calls[m].stage.Dispatched?
    ensures After(cfg, ops).calls[n].stage.token != After(cfg, ops).calls[m].stage.token
  {
    var i := DispatchedResumed(cfg, ops, n);
    var j := DispatchedResumed(cfg, ops, m);
    hide After, RunHistory.Spent, RunSpec.Resume;
    var a, b := After(cfg, ops).calls[n].stage, After(cfg, ops).calls[m].stage;
    assert i != j;
    ResumedSpends(cfg, ops, i, n, a.outcome, a.token);
    ResumedSpends(cfg, ops, j, m, b.outcome, b.token);
    if a.token == b.token {
      if i < j { SpentOverHistory(cfg, ops, i + 1, j, a.token); } else { SpentOverHistory(cfg, ops, j + 1, i, a.token); }
    }
  }
}
