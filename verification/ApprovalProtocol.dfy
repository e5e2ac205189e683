/**
 * Approval across the two kernels: an approve call that ends has unlocked its run or left its decision unconfirmed,
 * whatever interleaved, and alone it unlocks exactly when it can.
 */
module ApprovalProtocol {
  import opened Outcomes
  import opened RunTypes
  import RunSpec
  import RunHistory
  import opened DecisionSpec
  import PendingLifecycle
  import opened JointSystem

  // ----- One call along a history -----

  /** The token is one for approving this case. */
  predicate TokenFor(c: ApprovalCase, t: Token) {
    t.typ == ApprovalToken && t.runId == c.runId && (c.stepId == "" || t.stepId == c.stepId)
  }

  /** What a stage says of itself: the copy carries the verdict, and the token is one for the case. */
  ghost predicate StageOk(call: Call) {
    match call.stage
    case Resolving => true
    case Refused => true
    case Applying(c) => c.status == if call.approve then Approved else Denied
    case Settled(c) => c.status == Denied && !call.approve
    case Finding(c) => c.status == Approved
    case Guarding(c) => c.status == Approved
    case Guarded(c) => c.status == Approved
    case Viewing(c, t) => c.status == Approved && TokenFor(c, t)
    case Resuming(c, t, _, _) => c.status == Approved && TokenFor(c, t)
    case Checking(c, t) => c.status == Approved && TokenFor(c, t)
    case Dispatched(c, t) => c.status == Approved && TokenFor(c, t)
  }

  lemma NextStageOk(cfg: Setup, s: System, call: Call, clock: int, found: Option<Token>, hashOk: bool)
    requires StageOk(call)
    ensures StageOk(call.(stage := NextStage(cfg, s, call, clock, found, hashOk)))
  {
    hide RunSpec.Resume, OutcomeApplies;
  }

  /** A step leaves every call where it is, but for the one it moves. */
  lemma CallMoves(cfg: Setup, s: System, op: SysOp, n: nat)
    requires n < |Take(cfg, s, op).calls|
    ensures var call := Take(cfg, s, op).calls[n];
      if n < |s.calls| then
        if Moving(s, op) && op.n == n then
          call == s.calls[n].(stage := NextStage(cfg, s, s.calls[n], op.clock, op.found, op.hashOk))
        else call == s.calls[n]
      else op.StartCall? && call == Call(op.caseId, op.approve, Resolving)
  {
    hide NextStage, RunEffect, DecisionEffect, FlightStep;
  }

  lemma {:induction false} CallOk(cfg: Setup, ops: seq<SysOp>, n: nat)
    requires n < |After(cfg, ops).calls|
    ensures StageOk(After(cfg, ops).calls[n])
  {
    var init, op := ops[..|ops| - 1], ops[|ops| - 1];
    var s := After(cfg, init);
    assert After(cfg, ops) == Take(cfg, s, op);
    CallMoves(cfg, s, op, n);
    hide After, Take, NextStage, StageOk;
    if n < |s.calls| {
      CallOk(cfg, init, n);
      if Moving(s, op) && op.n == n { NextStageOk(cfg, s, s.calls[n], op.clock, op.found, op.hashOk); }
    } else {
      FreshCallOk(op);
    }
  }

  lemma FreshCallOk(op: SysOp)
    requires op.StartCall?
    ensures StageOk(Call(op.caseId, op.approve, Resolving))
  {
  }

  // ----- How a call ends -----

  /** Step `i` was ResumeRun of the case's run with this token, and it succeeded. */
  ghost predicate ResumedAt(cfg: Setup, ops: seq<SysOp>, i: nat, n: nat, c: ApprovalCase, t: Token) {
    && i < |ops|
    && var s := After(cfg, ops[..i]);
    && s.flight.None? && ops[i].CallStep? && ops[i].n == n
    && exists req: ResumeRequest, hashOk ::
         req.token == Some(t) && RunSpec.Resume(cfg.run, s.k, ops[i].clock, c.runId, req, hashOk).1.Ok?
         && After(cfg, ops[..i + 1]).k == RunSpec.Resume(cfg.run, s.k, ops[i].clock, c.runId, req, hashOk).0
  }

  /** Step `i` was the guard of call `n`, and after it the decision's entry for the case's run and step is not confirmed. */
  ghost predicate GuardedAt(cfg: Setup, ops: seq<SysOp>, i: nat, n: nat, c: ApprovalCase) {
    && i < |ops|
    && ops[i].CallStep? && ops[i].n == n && n < |After(cfg, ops[..i]).calls| && After(cfg, ops[..i]).calls[n].stage == Guarding(c)
    && Unconfirmed(After(cfg, ops[..i + 1]).d, c)
  }

  predicate Unconfirmed(d: Decisions, c: ApprovalCase) {
    c.decisionId in d.pending && ForCase(d.pending[c.decisionId], c) ==> d.pending[c.decisionId].status != Confirmed
  }

  lemma GuardUnconfirms(cfg: Setup, s: System, op: SysOp, c: ApprovalCase)
    requires Moving(s, op) && s.calls[op.n].stage == Guarding(c)
    ensures Unconfirmed(Take(cfg, s, op).d, c)
  {
    hide RunEffect, FlightStep, CallsStep, RunHistory.Apply;
  }

  lemma ResumeResumes(cfg: Setup, s: System, op: SysOp)
    requires Moving(s, op) && s.calls[op.n].stage.Resuming?
    ensures var stage := s.calls[op.n].stage;
      && s.flight.None?
      && Take(cfg, s, op).k == RunSpec.Resume(cfg.run, s.k, op.clock, stage.outcome.runId, UnlockRequest(cfg, stage, s.calls[op.n].caseId), op.hashOk).0
  {
    hide RunSpec.Resume, FlightStep, CallsStep, PendingLifecycle.Apply;
  }

  /** How a call came to be past its resume, or past its guard. */
  lemma EndOrigin(cfg: Setup, s: System, op: SysOp, n: nat)
    requires n < |Take(cfg, s, op).calls|
    ensures var st := Take(cfg, s, op).calls[n].stage;
      && (st.Checking? || st.Dispatched? ==>
            && n < |s.calls|
            && var was := s.calls[n].stage;
            && (was.Checking? || was.Dispatched? || (was.Resuming? && ResumesNow(cfg, s, op, n)))
            && was.outcome == st.outcome && was.token == st.token)
      && (st.Guarded? ==>
            && n < |s.calls|
            && (s.calls[n].stage == st || (s.calls[n].stage == Guarding(st.outcome) && Moving(s, op) && op.n == n)))
  {
    hide RunSpec.Resume, Take, OutcomeApplies, ResolveCase, SearchAnswers;
    CallMoves(cfg, s, op, n);
  }

  ghost predicate ResumesNow(cfg: Setup, s: System, op: SysOp, n: nat) {
    && Moving(s, op) && op.n == n && s.calls[n].stage.Resuming?
    && RunSpec.Resume(cfg.run, s.k, op.clock, s.calls[n].stage.outcome.runId,
                      UnlockRequest(cfg, s.calls[n].stage, s.calls[n].caseId), op.hashOk).1.Ok?
  }

  lemma {:induction false} DispatchedResumed(cfg: Setup, ops: seq<SysOp>, n: nat) returns (i: nat)
    requires n < |After(cfg, ops).calls|
    requires After(cfg, ops).calls[n].stage.Checking? || After(cfg, ops).calls[n].stage.Dispatched?
    ensures ResumedAt(cfg, ops, i, n, After(cfg, ops).calls[n].stage.outcome, After(cfg, ops).calls[n].stage.token)
  {
    var init, op := ops[..|ops| - 1], ops[|ops| - 1];
    var s := After(cfg, init);
    assert After(cfg, ops) == Take(cfg, s, op);
    hide After, Take, RunSpec.Resume, ResumedAt;
    EndOrigin(cfg, s, op, n);
    assert ops == init + [op];
    if s.calls[n].stage.Resuming? {
      i := |init|;
      ResumeIsResumed(cfg, init, op, n);
    } else {
      i := DispatchedResumed(cfg, init, n);
      ResumedLonger(cfg, init, op, i, n, s.calls[n].stage.outcome, s.calls[n].stage.token);
    }
  }

  lemma ResumeIsResumed(cfg: Setup, ops: seq<SysOp>, op: SysOp, n: nat)
    requires ResumesNow(cfg, After(cfg, ops), op, n)
    ensures ResumedAt(cfg, ops + [op], |ops|, n, After(cfg, ops).calls[n].stage.outcome, After(cfg, ops).calls[n].stage.token)
  {
    var all := ops + [op];
    assert all[..|ops|] == ops && all[..|ops| + 1] == all && all[|ops|] == op && all[..|all| - 1] == ops;
    var s := After(cfg, ops);
    assert After(cfg, all) == Take(cfg, s, op);
    hide After, Take, RunSpec.Resume;
    ResumeResumes(cfg, s, op);
    var req := UnlockRequest(cfg, s.calls[n].stage, s.calls[n].caseId);
    assert req.token == Some(s.calls[n].stage.token);
  }

  lemma ResumedLonger(cfg: Setup, ops: seq<SysOp>, op: SysOp, i: nat, n: nat, c: ApprovalCase, t: Token)
    requires ResumedAt(cfg, ops, i, n, c, t)
    ensures ResumedAt(cfg, ops + [op], i, n, c, t)
  {
    hide After, RunSpec.Resume;
    assert (ops + [op])[..i] == ops[..i] && (ops + [op])[..i + 1] == ops[..i + 1];
  }

  lemma {:induction false} GuardedUnconfirmed(cfg: Setup, ops: seq<SysOp>, n: nat) returns (i: nat)
    requires n < |After(cfg, ops).calls| && After(cfg, ops).calls[n].stage.Guarded?
    ensures GuardedAt(cfg, ops, i, n, After(cfg, ops).calls[n].stage.outcome)
  {
    var init, op := ops[..|ops| - 1], ops[|ops| - 1];
    var s := After(cfg, init);
    assert After(cfg, ops) == Take(cfg, s, op);
    hide After, Take, Unconfirmed;
    EndOrigin(cfg, s, op, n);
    if s.calls[n].stage.Guarding? {
      i := |init|;
      GuardUnconfirms(cfg, s, op, s.calls[n].stage.outcome);
      assert ops[..i] == init && ops[..i + 1] == ops;
    } else {
      i := GuardedUnconfirmed(cfg, init, n);
      assert ops[..i] == init[..i] && ops[..i + 1] == init[..i + 1];
    }
  }

  /**
   * Approval closure. In any interleaving an approve call that has ended either was refused, or resumed the run of its case
   * with an approval token for its step, or ended with a guard after which the entry for that run and step is not confirmed.
   */
  lemma ApprovalCloses(cfg: Setup, ops: seq<SysOp>, n: nat) returns (i: nat)
    requires n < |After(cfg, ops).calls| && After(cfg, ops).calls[n].approve
    requires var st := After(cfg, ops).calls[n].stage; st.Dispatched? || st.Guarded? || st.Settled?
    ensures var st := After(cfg, ops).calls[n].stage;
      && st.outcome.status == Approved
      && (|| (st.Dispatched? && TokenFor(st.outcome, st.token) && ResumedAt(cfg, ops, i, n, st.outcome, st.token))
          || (st.Guarded? && GuardedAt(cfg, ops, i, n, st.outcome)))
  {
    CallOk(cfg, ops, n);
    hide After, ResumedAt, GuardedAt;
    if After(cfg, ops).calls[n].stage.Dispatched? {
      i := DispatchedResumed(cfg, ops, n);
    } else {
      i := GuardedUnconfirmed(cfg, ops, n);
    }
  }

  // ----- After a failed unlock -----

  ghost predicate Present(cfg: Setup, ops: seq<SysOp>, i: nat, j: nat, id: string)
    requires i <= j <= |ops|
  {
    forall m {:trigger After(cfg, ops[..m])} :: i <= m <= j ==> id in After(cfg, ops[..m]).d.pending
  }

  /** What an entry's status may become, its owner being the same. */
  ghost predicate EntryFrom(d: Decisions, d': Decisions, id: string) {
    && id in d.pending && id in d'.pending
    && PendingLifecycle.StatusLater(d.pending[id].status, d'.pending[id].status)
    && d'.pending[id].runId == d.pending[id].runId && d'.pending[id].stepId == d.pending[id].stepId
  }

  lemma EntryTakes(cfg: Setup, s: System, op: SysOp, id: string)
    requires PendingLifecycle.Inv(s.d) && id in s.d.pending && id in Take(cfg, s, op).d.pending
    ensures EntryFrom(s.d, Take(cfg, s, op).d, id)
  {
    hide RunEffect, FlightStep, CallsStep, RunHistory.Apply, PendingLifecycle.Apply, PendingLifecycle.TicketsOk, PendingLifecycle.CasesOk;
    if DecisionEffect(s, op).Some? {
      PendingLifecycle.EntryStep(cfg.decision, s.d, DecisionEffect(s, op).value, id);
    }
  }

  lemma {:induction false} EntryOverHistory(cfg: Setup, ops: seq<SysOp>, i: nat, j: nat, id: string)
    requires RunSpec.ValidConfig(cfg.run) && i <= j <= |ops| && Present(cfg, ops, i, j, id)
    ensures EntryFrom(After(cfg, ops[..i]).d, After(cfg, ops[..j]).d, id)
  {
    hide After, Take;
    assert id in After(cfg, ops[..i]).d.pending && id in After(cfg, ops[..j]).d.pending;
    if i < j {
      EntryOverHistory(cfg, ops, i, j - 1, id);
      AfterStep(cfg, ops, j - 1);
      JointInv(cfg, ops[..j - 1]);
      hide PendingLifecycle.Inv;
      EntryTakes(cfg, After(cfg, ops[..j - 1]), ops[j - 1], id);
    }
  }

  /** How far a call has come. */
  function Rank(st: Stage): nat {
    match st
    case Resolving => 0
    case Applying(_) => 1
    case Finding(_) => 2
    case Viewing(_, _) => 3
    case Resuming(_, _, _, _) => 4
    case Checking(_, _) => 5
    case Guarding(_) => 6
    case _ => 7
  }

  /** A later stage of a call: no step back, and the copy of the case taken at the start. */
  ghost predicate StageLater(a: Stage, b: Stage) {
    Rank(a) <= Rank(b) && (0 < Rank(a) && !a.Refused? ==> !b.Refused? && b.outcome == a.outcome)
  }

  lemma StageTakes(cfg: Setup, s: System, op: SysOp, n: nat)
    requires n < |s.calls|
    ensures n < |Take(cfg, s, op).calls| && StageLater(s.calls[n].stage, Take(cfg, s, op).calls[n].stage)
  {
    hide RunSpec.Resume, OutcomeApplies, ResolveCase, SearchAnswers, RunHistory.Apply, PendingLifecycle.Apply, RunEffect, DecisionEffect, FlightStep;
  }

  lemma {:induction false} StageOverHistory(cfg: Setup, ops: seq<SysOp>, i: nat, j: nat, n: nat)
    requires i <= j <= |ops| && n < |After(cfg, ops[..i]).calls|
    ensures n < |After(cfg, ops[..j]).calls|
    ensures StageLater(After(cfg, ops[..i]).calls[n].stage, After(cfg, ops[..j]).calls[n].stage)
  {
    hide After, Take;
    if i < j {
      StageOverHistory(cfg, ops, i, j - 1, n);
      AfterStep(cfg, ops, j - 1);
      StageTakes(cfg, After(cfg, ops[..j - 1]), ops[j - 1], n);
    }
  }

  /** Step `a` is where call `n` confirmed the entry of its case. */
  ghost predicate ConfirmsAt(cfg: Setup, ops: seq<SysOp>, a: nat, n: nat, c: ApprovalCase) {
    && a < |ops| && ops[a].CallStep? && ops[a].n == n
    && var s := After(cfg, ops[..a]);
    n < |s.calls| && s.calls[n].stage == Applying(c) && c.status == Approved && OutcomeApplies(s.d, c)
  }

  lemma ConfirmTakes(cfg: Setup, s: System, op: SysOp, c: ApprovalCase)
    requires op.CallStep? && op.n < |s.calls| && s.calls[op.n].stage == Applying(c) && c.status == Approved && OutcomeApplies(s.d, c)
    ensures var d' := Take(cfg, s, op).d;
      c.decisionId in d'.pending && d'.pending[c.decisionId].status == Confirmed && ForCase(d'.pending[c.decisionId], c)
  {
    hide RunEffect, FlightStep, CallsStep, RunHistory.Apply;
  }

  /**
   * A call that confirmed an entry and then failed to unlock the run leaves it in safeguard hold, and there it stays as
   * long as it is kept: no later step confirms it again.
   */
  lemma FailedUnlockHolds(cfg: Setup, ops: seq<SysOp>, a: nat, n: nat, c: ApprovalCase)
    requires RunSpec.ValidConfig(cfg.run) && ConfirmsAt(cfg, ops, a, n, c)
    requires n < |After(cfg, ops).calls| && After(cfg, ops).calls[n].stage.Guarded?
    requires Present(cfg, ops, a + 1, |ops|, c.decisionId)
    ensures After(cfg, ops).calls[n].stage.outcome == c
    ensures c.decisionId in After(cfg, ops).d.pending && After(cfg, ops).d.pending[c.decisionId].status == Held
  {
    hide After, Take;
    assert ops[..|ops|] == ops;
    AfterStep(cfg, ops, a);
    ConfirmTakes(cfg, After(cfg, ops[..a]), ops[a], c);
    StageOverHistory(cfg, ops, a, |ops|, n);
    var g := GuardedUnconfirmed(cfg, ops, n);
    if g < a { StageOverHistory(cfg, ops, g, a, n); }
    assert a < g;
    EntryOverHistory(cfg, ops, a + 1, g + 1, c.decisionId);
    EntryOverHistory(cfg, ops, g + 1, |ops|, c.decisionId);
  }
}
