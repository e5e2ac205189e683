/** Which operation confirms a decision, and what each region of the decision kernel does, told from its inputs. */
module DecisionRules {
  import opened Outcomes
  import opened RunTypes
  import opened DecisionSpec
  import opened PendingLifecycle
  import opened Checks

  // ----- What each operation does to an entry -----

  predicate HasEntry(d: Decisions, id: string, status: PendingStatus) {
    id in d.pending && d.pending[id].status == status
  }

  /** The entry of the case's decision is for the case's run and step. */
  predicate Concerns(d: Decisions, c: ApprovalCase) {
    c.decisionId in d.pending && d.pending[c.decisionId].runId == c.runId && d.pending[c.decisionId].stepId == c.stepId
  }

  /** Only the status and the time of the entry are new, and no other record is. */
  ghost predicate OnlyStatus(d: Decisions, d': Decisions, id: string, status: PendingStatus, now: int) {
    && id in d.pending
    && d' == d.(pending := d.pending[id := d.pending[id].(status := status, updatedAt := now)])
  }

  /**
   * The outcome of a case reaches the pending entry for its run and step, and no other: approved it confirms it, denied,
   * auto-denied or failed closed it closes it, queued for review it holds it.
   */
  lemma OutcomeDoes(d: Decisions, c: ApprovalCase, now: int)
    ensures var d' := ApplyOutcome(d, c, now);
      if c.status == Awaiting || !Concerns(d, c) || !HasEntry(d, c.decisionId, Pending) then d' == d
      else OnlyStatus(d, d', c.decisionId,
                      if c.status == Approved then Confirmed else if c.status == ForceReviewQueue then Held else Closed, now)
  {
  }

  /** An awaiting case takes the verdict and nothing else changes; any other is refused. */
  lemma ResolveDoes(d: Decisions, caseId: nat, approve: bool, now: int)
    ensures var (d', c) := ResolveCase(d, caseId, approve, now);
      if caseId in d.cases && d.cases[caseId].status == Awaiting then
        && c == Some(d.cases[caseId].(status := if approve then Approved else Denied, resolvedAt := now))
        && d' == d.(cases := d.cases[caseId := c.value])
      else c.None? && d' == d
  {
  }

  /** A case past its time is denied at low risk, queued for review at medium, and failed closed otherwise. */
  lemma TimeoutDoes(d: Decisions, now: int)
    ensures var d' := TimeOutCases(d, now);
      && d' == d.(cases := d'.cases) && d'.cases.Keys == d.cases.Keys
      && forall c :: c in d.cases ==>
           d'.cases[c] ==
             if d.cases[c].status == Awaiting && d.cases[c].hardTimeout <= now then
               d.cases[c].(resolvedAt := now,
                           status := if d.cases[c].risk == Some(Low) then AutoDenied else if d.cases[c].risk == Some(Medium) then ForceReviewQueue else FailClosed)
             else d.cases[c]
  {
  }

  lemma OpenCaseDoes(cfg: Settings, d: Decisions, runId: string, stepId: string, decisionId: string, risk: Option<Risk>, now: int)
    requires CasesOk(d)
    ensures var d' := OpenCase(cfg, d, runId, stepId, decisionId, risk, now);
      && d'.caseSeq !in d.cases && d'.caseSeq == d.caseSeq + 1 && d' == d.(cases := d'.cases, caseSeq := d'.caseSeq)
      && d'.cases == d.cases[d'.caseSeq := d'.cases[d'.caseSeq]]
      && var c := d'.cases[d'.caseSeq];
      && c.runId == runId && c.stepId == stepId && c.decisionId == decisionId && c.risk == risk && c.status == Awaiting && c.createdAt == now
      && c.hardTimeout == now + (if cfg.hardTimeout(risk) > 0 then cfg.hardTimeout(risk) else 1800)
  {
  }

  lemma GuardDoes(d: Decisions, c: ApprovalCase, now: int)
    ensures var d' := Guard(d, c, now);
      if Concerns(d, c) && HasEntry(d, c.decisionId, Confirmed) then OnlyStatus(d, d', c.decisionId, Held, now) else d' == d
  {
  }

  /** The request names the owner of the entry, by name or through its attempt and phase. */
  predicate Owns(r: ConfirmRequest, p: PendingEntry) {
    p.owner.None? || r.owner == p.owner
    || (r.owner.None? && (r.attempt > 0 || r.phase != NoPhase) && p.owner == Some(OwnerKey(r.runId, r.stepId, r.attempt, r.phase)))
  }

  predicate ConfirmMatches(r: ConfirmRequest, p: PendingEntry) {
    && r.runId == p.runId && r.stepId == p.stepId && Owns(r, p)
    && (r.attempt <= 0 || p.attempt <= 0 || r.attempt == p.attempt)
    && (r.phase == NoPhase || p.phase == NoPhase || r.phase == p.phase)
  }

  /** A confirmation that matches a pending entry confirms it if it reports success and touches it if not; nothing else has an effect. */
  lemma ConfirmDoes(d: Decisions, r: ConfirmRequest, now: int)
    ensures var d' := Confirm(d, r, now);
      if HasEntry(d, r.decisionId, Pending) && ConfirmMatches(r, d.pending[r.decisionId]) then
        OnlyStatus(d, d', r.decisionId, if r.success then Confirmed else Pending, now)
      else d' == d
  {
  }

  /** The owner a request names, or spells out by attempt or phase. */
  predicate NamesOwner(r: ConfirmRequest) {
    r.owner.Some? || r.attempt > 0 || r.phase != NoPhase
  }

  function ConfirmChecks(p: PendingEntry, r: ConfirmRequest): seq<(bool, ConfirmReason)> {
    [(r.runId == p.runId && r.stepId == p.stepId, ConfirmMismatch),
     (p.owner.None? || NamesOwner(r), OwnerRequired),
     (Owns(r, p), OwnerMismatch),
     (r.attempt <= 0 || p.attempt <= 0 || r.attempt == p.attempt, AttemptMismatch),
     (r.phase == NoPhase || p.phase == NoPhase || r.phase == p.phase, ConfirmPhaseMismatch),
     (p.status == Pending || (p.status == Confirmed && r.success), StatusImmutable),
     (r.success, AdvanceFailed)]
  }

  /** The reason answered is that of the first check that fails; repeating a confirmation fails none. */
  lemma ConfirmReports(d: Decisions, r: ConfirmRequest)
    ensures var why := ConfirmRefusal(d, r);
      if r.decisionId !in d.pending then why == ConfirmNotFound
      else
        var checks := ConfirmChecks(d.pending[r.decisionId], r);
        if AllPass(checks) then why == NoReason else Reports(checks, Some(why))
  {
    if r.decisionId in d.pending {
      var checks := ConfirmChecks(d.pending[r.decisionId], r);
      hide Reports, AllPass;
      if !checks[0].0 { FirstFails(checks, 0); }
      else if !checks[1].0 { FirstFails(checks, 1); }
      else if !checks[2].0 { FirstFails(checks, 2); }
      else if !checks[3].0 { FirstFails(checks, 3); }
      else if !checks[4].0 { FirstFails(checks, 4); }
      else if !checks[5].0 { FirstFails(checks, 5); }
      else if !checks[6].0 { FirstFails(checks, 6); }
      else { SevenPass(checks); }
    }
  }

  lemma TerminalizeDoes(d: Decisions, id: string, target: PendingStatus, now: int)
    ensures var d' := Terminalize(d, id, target, now);
      if HasEntry(d, id, Pending) && target in {Held, Escalated, Closed} then OnlyStatus(d, d', id, target, now) else d' == d
  {
  }

  /** An entry idle beyond the limit is repaired: it counts, the third time it is held, and no other entry is touched. */
  lemma RepairDoes(cfg: Settings, d: Decisions, now: int)
    requires Inv(d)
    ensures var d' := Repair(cfg, d, now);
      && d' == d.(pending := d'.pending) && d'.pending.Keys == d.pending.Keys
      && forall id :: id in d.pending ==>
           d'.pending[id] ==
             if d.pending[id].status == Pending && now - d.pending[id].updatedAt > cfg.pendingTTL then
               d.pending[id].(updatedAt := now, repairs := d.pending[id].repairs + 1, status := if d.pending[id].repairs == 2 then Held else Pending)
             else d.pending[id]
  {
    forall id | id in d.pending ensures EntryOk(d.pending[id]) { }
  }

  /**
   * An evaluation stores its decision. If that may execute or waits for someone, a new pending entry is opened under its
   * owner, or the owner's pending entry is refreshed; an entry that has left pending, or of another owner, is left alone.
   */
  lemma EvaluateDoes(d: Decisions, id: string, s: StoredDecision, now: int)
    requires Inv(d)
    ensures var d' := Evaluate(d, id, s, now);
      && d' == d.(decisions := d.decisions[id := s], pending := d'.pending)
      && var owner := OwnerKey(s.runId, s.stepId, s.attempt, s.phase);
      if s.value !in {Allow, RequireApproval, ReviewRequired, ForceReview} then d'.pending == d.pending
      else if id !in d.pending then
        d'.pending == d.pending[id := PendingEntry(s.runId, s.stepId, s.attempt, s.phase, Some(owner), now, now, 0, Pending)]
      else if d.pending[id].status == Pending && d.pending[id].owner == Some(owner) then
        d'.pending == d.pending[id := d.pending[id].(updatedAt := now)]
      else d'.pending == d.pending
  {
    if id in d.pending { assert EntryOk(d.pending[id]); }
  }

  // ----- Tickets -----

  /** A ticket is for what was asked, and given if and only if no amount is above what the quota shows for it. */
  lemma AdmitDoes(cfg: Settings, d: Decisions, t: string, runId: string, stepId: string, tenant: string, requested: map<string, real>, quota: map<string, real>, now: int)
    ensures var d' := Admit(cfg, d, t, runId, stepId, tenant, requested, quota, now);
      if forall r :: r in requested ==> requested[r] <= (if r in quota then quota[r] else 0.0) then
        && t in d'.tickets && d'.tickets == d.tickets[t := d'.tickets[t]]
        && d'.tickets[t].runId == runId && d'.tickets[t].stepId == stepId && d'.tickets[t].tenant == tenant
        && d'.tickets[t].allowed == requested && d'.tickets[t].expiresAt == now + cfg.ticketTTL
        && d' == d.(tickets := d'.tickets, quotas := d.quotas[t := quota])
      else d' == d
  {
  }

  /** A receipt is good if and only if its ticket is of this run, step and tenant, in time, and allows every amount used. */
  lemma ReceiptIff(d: Decisions, now: int, runId: string, stepId: string, tenant: string, t: string, used: map<string, real>, at: int)
    ensures ReceiptOk(d, now, runId, stepId, tenant, t, used, at) <==>
      && t != "" && t in d.tickets && used != map[] && runId != "" && stepId != "" && tenant != ""
      && d.tickets[t].runId == runId && d.tickets[t].stepId == stepId && d.tickets[t].tenant == tenant
      && (if at == 0 then now else at) <= d.tickets[t].expiresAt
      && forall r :: r in used ==> used[r] <= if r in d.tickets[t].allowed then d.tickets[t].allowed[r] else 0.0
  {
  }

  // ----- What the run kernel reads -----

  /** In a reachable state a confirmation holds for exactly the four fields of a confirmed entry, named by attempt or phase. */
  lemma ConfirmedIff(d: Decisions, id: string, runId: string, stepId: string, attempt: int, phase: Phase)
    requires Inv(d)
    ensures ConfirmedFor(d, id, runId, stepId, attempt, phase) <==>
      && HasEntry(d, id, Confirmed) && (attempt > 0 || phase != NoPhase)
      && d.pending[id].runId == runId && d.pending[id].stepId == stepId && d.pending[id].attempt == attempt && d.pending[id].phase == phase
  {
    if id in d.pending { assert EntryOk(d.pending[id]); }
  }

  /** A reference is valid and stable as noted, or by its hash where nothing is noted; that of a fallback never is. */
  lemma ReferenceDoes(id: string, s: StoredDecision)
    ensures var ref := Reference(id, s);
      && ref.decisionId == id && ref.runId == s.runId && ref.stepId == s.stepId && ref.attempt == s.attempt && ref.phase == s.phase
      && ref.decision == s.value && ref.obligations == s.obligations && ref.hash == s.hash
      && (ref.hashValid <==> !s.isFallback && (if s.refKind.Some? then s.refValid else s.hash != "" && !("err_" <= s.hash)))
      && (ref.hashKind == Fallback <==> s.isFallback || s.refKind == Some(Fallback))
      && (ref.hashKind == Stable <==> !s.isFallback && (if s.refKind.Some? then s.refKind.value == Stable else s.hash != "" && !("err_" <= s.hash)))
  {
  }

  /** The strict gate is no wider than the one an advance meets, and unlike that one it takes no blank value. */
  lemma SideEffectIff(d: Decisions, id: string)
    ensures SideEffectAllowed(d, id) <==>
      && HasEntry(d, id, Confirmed) && id in d.decisions && d.decisions[id].value in {Allow, RequireApproval}
      && d.decisions[id].refKind == Some(Stable) && d.decisions[id].hash != "" && !("err_" <= d.decisions[id].hash)
      && Reference(id, d.decisions[id]).hashValid && Reference(id, d.decisions[id]).hashKind == Stable
  {
  }

  // ----- Cleanup -----

  /** What the three cleanups keep: entries still pending and cases still awaiting always, anything else within its time. */
  lemma CleanupKeeps(cfg: Settings, d: Decisions, now: int)
    ensures var d' := CleanPending(cfg, d, now);
      && d' == d.(pending := d'.pending, decisions := d'.decisions)
      && (forall id :: id in d'.pending <==> id in d.pending && (d.pending[id].status == Pending || now - d.pending[id].updatedAt <= cfg.pendingRetention))
      && (forall id :: id in d'.pending ==> d'.pending[id] == d.pending[id])
      && (forall id :: id in d'.decisions <==> id in d.decisions && now - d.decisions[id].createdAt <= cfg.decisionRetention)
      && (forall id :: id in d'.decisions ==> d'.decisions[id] == d.decisions[id])
    ensures var d' := CleanTickets(cfg, d, now);
      && d' == d.(tickets := d'.tickets)
      && (forall t :: t in d'.tickets <==> t in d.tickets && now - d.tickets[t].expiresAt <= cfg.ticketRetention)
      && (forall t :: t in d'.tickets ==> d'.tickets[t] == d.tickets[t])
    ensures var d' := CleanCases(cfg, d, now);
      && d' == d.(cases := d'.cases)
      && (forall c :: c in d'.cases <==> c in d.cases && (d.cases[c].status == Awaiting || now - d.cases[c].hardTimeout <= cfg.approvalRetention))
      && (forall c :: c in d'.cases ==> d'.cases[c] == d.cases[c])
  {
  }

  // ----- Where a confirmation comes from -----

  /** The operation confirms the entry: a matching report of success, or the outcome of an approved case for its run and step. */
  ghost predicate Confirms(d: Decisions, op: DecisionOp, id: string) {
    && HasEntry(d, id, Pending)
    && (|| (op.ConfirmOp? && op.confirm.success && op.confirm.decisionId == id && ConfirmMatches(op.confirm, d.pending[id]))
        || (op.OutcomeOp? && op.outcome.status == Approved && op.outcome.decisionId == id && Concerns(d, op.outcome)))
  }

  lemma ConfirmedStep(cfg: Settings, d: Decisions, op: DecisionOp, id: string)
    requires Inv(d) && HasEntry(Apply(cfg, d, op), id, Confirmed)
    ensures HasEntry(d, id, Confirmed) || Confirms(d, op, id)
  {
    match op
    case EvaluateOp(x, s, now) => EvaluateDoes(d, x, s, now); hide Evaluate;
    case ConfirmOp(r, now) => ConfirmDoes(d, r, now); hide Confirm;
    case TerminalizeOp(x, target, now) => TerminalizeDoes(d, x, target, now); hide Terminalize;
    case RepairOp(now) => RepairDoes(cfg, d, now); hide Repair;
    case ResolveOp(c, approve, now) => ResolveDoes(d, c, approve, now); hide ResolveCase;
    case OutcomeOp(c, now) => OutcomeDoes(d, c, now); hide ApplyOutcome;
    case GuardOp(c, now) => GuardDoes(d, c, now); hide Guard;
    case CleanPendingOp(now) => CleanupKeeps(cfg, d, now); hide CleanPending;
    case _ =>
  }

  lemma NoneConfirmed(id: string)
    ensures !HasEntry(NO_DECISIONS, id, Confirmed)
  {
  }

  /**
   * An entry that is confirmed was confirmed by one operation of the history, a report of success or an approved outcome,
   * and has been since; so no denied, queued or timed-out case ever confirms a decision.
   */
  lemma {:induction false} ConfirmedBy(cfg: Settings, ops: seq<DecisionOp>, id: string) returns (n: nat)
    requires HasEntry(After(cfg, ops), id, Confirmed)
    ensures n < |ops| && Confirms(After(cfg, ops[..n]), ops[n], id)
    ensures forall m {:trigger After(cfg, ops[..m])} :: n < m <= |ops| ==> HasEntry(After(cfg, ops[..m]), id, Confirmed)
  {
    hide Apply, Inv, Confirms, HasEntry;
    NoneConfirmed(id);
    assert ops != [];
    var init, op := ops[..|ops| - 1], ops[|ops| - 1];
    assert After(cfg, ops) == Apply(cfg, After(cfg, init), op);
    hide After;
    ReachableInv(cfg, init);
    ConfirmedStep(cfg, After(cfg, init), op, id);
    assert ops[..|ops|] == ops;
    if Confirms(After(cfg, init), op, id) {
      n := |init|;
    } else {
      n := ConfirmedBy(cfg, init, id);
      assert forall m :: 0 <= m <= |init| ==> ops[..m] == init[..m];
    }
  }
}
