/**
 * The decision kernel's pending, approval and ticket methods as they are written: records changed in place, loops over
 * the maps. Each is proved to do what its function in DecisionSpec says.
 */
module DecisionKernel {
  import opened Outcomes
  import opened RunTypes
  import opened DecisionSpec

  /** The outcomes of several cases reach their entries one after the other. */
  function ApplyOutcomes(d: Decisions, cases: seq<ApprovalCase>, now: int): Decisions {
    if cases == [] then d else ApplyOutcome(ApplyOutcomes(d, cases[..|cases| - 1], now), cases[|cases| - 1], now)
  }

  /** `cases` lists, each once and in some order, the cases a sweep at `now` times out, as it leaves them. */
  ghost predicate TimedOutCases(d: Decisions, now: int, ids: seq<nat>, cases: seq<ApprovalCase>) {
    && |ids| == |cases|
    && (forall i, j :: 0 <= i < j < |ids| ==> ids[i] != ids[j])
    && (forall c :: c in ids <==> c in d.cases && TimedOut(d.cases[c], now))
    && (forall i :: 0 <= i < |ids| ==> ids[i] in d.cases && cases[i] == TimeOutCase(d.cases[ids[i]], now))
  }

  /** The cases when all but those in `todo` have been looked at, and the copies taken of those that were due. */
  ghost predicate Visited(was: map<nat, ApprovalCase>, cases: map<nat, ApprovalCase>, now: int, todo: set<nat>, ids: seq<nat>, timedOut: seq<ApprovalCase>) {
    && cases.Keys == was.Keys
    && (forall c :: c in cases ==> cases[c] == if c in todo then was[c] else TimeOutCase(was[c], now))
    && |ids| == |timedOut|
    && (forall i, j :: 0 <= i < j < |ids| ==> ids[i] != ids[j])
    && (forall c :: c in ids <==> c in cases && c !in todo && TimedOut(was[c], now))
    && (forall i :: 0 <= i < |ids| ==> ids[i] in was && timedOut[i] == TimeOutCase(was[ids[i]], now))
  }

  lemma VisitedNone(cases: map<nat, ApprovalCase>, now: int)
    ensures Visited(cases, cases, now, cases.Keys, [], [])
  {
  }

  lemma VisitedOne(was: map<nat, ApprovalCase>, cases: map<nat, ApprovalCase>, now: int, todo: set<nat>, ids: seq<nat>, timedOut: seq<ApprovalCase>, id: nat)
    requires Visited(was, cases, now, todo, ids, timedOut) && id in todo && todo <= cases.Keys
    ensures id in was && cases[id] == was[id]
    ensures if TimedOut(was[id], now) then
              var c := TimeOutCase(was[id], now);
              Visited(was, cases[id := c], now, todo - {id}, ids + [id], timedOut + [c])
            else Visited(was, cases, now, todo - {id}, ids, timedOut)
  {
    hide TimeoutStatus;
    assert id !in ids;
  }

  lemma VisitedAll(d: Decisions, cases: map<nat, ApprovalCase>, now: int, ids: seq<nat>, timedOut: seq<ApprovalCase>)
    requires Visited(d.cases, cases, now, {}, ids, timedOut)
    ensures d.(cases := cases) == TimeOutCases(d, now) && TimedOutCases(d, now, ids, timedOut)
  {
    hide TimeoutStatus;
  }

  class Service {
    const cfg: Settings
    var pending: map<string, PendingEntry>
    var approvals: map<nat, ApprovalCase>
    var decisions: map<string, StoredDecision>
    var tickets: map<string, Ticket>
    var idSeq: nat
    ghost var quotas: map<string, map<string, real>>

    /** The maps as one value. */
    ghost function Now(): Decisions
      reads this
    {
      Decisions(pending, approvals, decisions, tickets, quotas, idSeq)
    }

    constructor (cfg: Settings)
      ensures this.cfg == cfg && Now() == NO_DECISIONS
    {
      this.cfg := cfg;
      pending, approvals, decisions, tickets, idSeq, quotas := map[], map[], map[], map[], 0, map[];
    }

    // ----- Pending decisions -----

    method CreatePendingDecision(id: string, runId: string, stepId: string, attempt: int, phase: Phase, now: int)
      modifies `pending
      ensures Now() == CreatePending(old(Now()), id, runId, stepId, attempt, phase, now)
    {
      var owner := OwnerKey(runId, stepId, attempt, phase);
      if id in pending {
        var p := pending[id];
        if p.owner.Some? && p.owner.value != owner { return; }
        if p.status == Pending {
          p := p.(updatedAt := now);
          if p.runId == "" { p := p.(runId := runId); }
          if p.stepId == "" { p := p.(stepId := stepId); }
          if p.attempt == 0 { p := p.(attempt := attempt); }
          if p.phase == NoPhase { p := p.(phase := phase); }
          if p.owner.None? { p := p.(owner := Some(owner)); }
          pending := pending[id := p];
        }
        return;
      }
      pending := pending[id := PendingEntry(runId, stepId, attempt, phase, Some(owner), now, now, 0, Pending)];
    }

    /** The answer's status is that of the entry after the call. */
    method ConfirmRunAdvance(req: ConfirmRequest, now: int) returns (status: Option<PendingStatus>, reason: ConfirmReason)
      modifies `pending
      ensures Now() == Confirm(old(Now()), req, now)
      ensures reason == ConfirmRefusal(old(Now()), req)
      ensures status == if req.decisionId in pending then Some(pending[req.decisionId].status) else None
    {
      if req.decisionId !in pending { return None, ConfirmNotFound; }
      var p := pending[req.decisionId];
      if p.runId != req.runId || p.stepId != req.stepId { return Some(p.status), ConfirmMismatch; }
      var owner := req.owner;
      if owner.None? && (req.attempt > 0 || req.phase != NoPhase) {
        owner := Some(OwnerKey(req.runId, req.stepId, req.attempt, req.phase));
      }
      if p.owner.Some? {
        if owner.None? { return Some(p.status), OwnerRequired; }
        if owner.value != p.owner.value { return Some(p.status), OwnerMismatch; }
      }
      if p.attempt > 0 && req.attempt > 0 && p.attempt != req.attempt { return Some(p.status), AttemptMismatch; }
      if p.phase != NoPhase && req.phase != NoPhase && p.phase != req.phase { return Some(p.status), ConfirmPhaseMismatch; }
      if p.status != Pending {
        if req.success && p.status == Confirmed { return Some(p.status), NoReason; }
        return Some(p.status), StatusImmutable;
      }
      if req.success {
        p := p.(status := Confirmed, updatedAt := now);
        pending := pending[req.decisionId := p];
        return Some(p.status), NoReason;
      }
      p := p.(updatedAt := now);
      pending := pending[req.decisionId := p];
      return Some(p.status), AdvanceFailed;
    }

    method TerminalizePendingDecision(id: string, target: PendingStatus, now: int) returns (status: Option<PendingStatus>)
      modifies `pending
      ensures Now() == Terminalize(old(Now()), id, target, now)
      ensures status == if id in pending then Some(pending[id].status) else None
    {
      if id !in pending { return None; }
      var p := pending[id];
      if target == Pending || target == Confirmed { return Some(p.status); }
      if p.status == target || p.status != Pending { return Some(p.status); }
      p := p.(status := target, updatedAt := now);
      pending := pending[id := p];
      return Some(p.status);
    }

    method RepairPendingDecisions(now: int)
      modifies `pending
      ensures Now() == Repair(cfg, old(Now()), now)
    {
      var todo := pending.Keys;
      while todo != {}
        invariant pending.Keys == old(pending).Keys && todo <= pending.Keys
        invariant forall id :: id in pending ==>
          pending[id] == if id in todo then old(pending)[id] else RepairEntry(cfg, old(pending)[id], now)
      {
        var id :| id in todo;
        todo := todo - {id};
        var p := pending[id];
        if p.status == Pending && now - p.updatedAt > cfg.pendingTTL {
          p := p.(repairs := p.repairs + 1, updatedAt := now);
          if p.repairs == 1 || p.repairs == 2 {
          } else if p.repairs == 3 {
            p := p.(status := Held);
          } else {
            p := p.(status := Escalated);
          }
          pending := pending[id := p];
        }
      }
    }

    method IsDecisionConfirmedWithOwner(id: string, runId: string, stepId: string, attempt: int, phase: Phase) returns (ok: bool)
      ensures ok == ConfirmedFor(Now(), id, runId, stepId, attempt, phase)
    {
      if id !in pending { return false; }
      var p := pending[id];
      if p.runId != runId || p.stepId != stepId { return false; }
      if p.status != Confirmed { return false; }
      if p.attempt > 0 && attempt > 0 && p.attempt != attempt { return false; }
      if p.phase != NoPhase && phase != NoPhase && p.phase != phase { return false; }
      if p.owner.Some? {
        if attempt <= 0 && phase == NoPhase { return false; }
        if OwnerKey(runId, stepId, attempt, phase) != p.owner.value { return false; }
      }
      return true;
    }

    /** What the run kernel is told of a stored decision: a fallback hash is never valid, whatever was noted of it. */
    method GetDecisionReference(id: string) returns (ref: Option<DecisionReference>)
      ensures ref == GetReference(Now(), id)
    {
      if id !in decisions { return None; }
      var d := decisions[id];
      var kind, valid := d.refKind, d.refValid;
      if d.isFallback { kind, valid := Some(Fallback), false; }
      if kind.None? {
        if d.hash != "" && !IsErrorHash(d.hash) {
          kind, valid := Some(Stable), true;
        } else {
          kind, valid := Some(ErrorKind), false;
        }
      }
      return Some(DecisionReference(id, d.runId, d.stepId, d.attempt, d.phase, d.value, d.obligations, d.hash, valid, kind.value));
    }

    method CanExecuteSideEffect(id: string) returns (ok: bool)
      ensures ok == SideEffectAllowed(Now(), id)
    {
      if id !in pending { return false; }
      if pending[id].status != Confirmed { return false; }
      if id !in decisions { return false; }
      var d := decisions[id];
      var kind, valid := d.refKind, d.refValid;
      if d.isFallback { kind, valid := Some(Fallback), false; }
      if !valid || kind != Some(Stable) || d.hash == "" || IsErrorHash(d.hash) { return false; }
      return d.value == Allow || d.value == RequireApproval;
    }

    // ----- Approval cases -----

    method CreateApprovalCase(runId: string, stepId: string, decisionId: string, risk: Option<Risk>, now: int) returns (caseId: nat)
      modifies `approvals, `idSeq
      ensures Now() == OpenCase(cfg, old(Now()), runId, stepId, decisionId, risk, now) && caseId == idSeq
    {
      var timeout := cfg.hardTimeout(risk);
      if timeout <= 0 { timeout := DEFAULT_HARD_TIMEOUT; }
      idSeq := idSeq + 1;
      caseId := idSeq;
      approvals := approvals[caseId := ApprovalCase(runId, stepId, decisionId, risk, Awaiting, now, 0, now + timeout)];
    }

    /** The first region of a decision on a case. */
    method ResolveApprovalCase(caseId: nat, approve: bool, now: int) returns (copy: Option<ApprovalCase>)
      modifies `approvals
      ensures (Now(), copy) == ResolveCase(old(Now()), caseId, approve, now)
    {
      if caseId !in approvals { return None; }
      var c := approvals[caseId];
      if c.status != Awaiting { return None; }
      c := c.(status := if approve then Approved else Denied);
      c := c.(resolvedAt := now);
      approvals := approvals[caseId := c];
      return Some(c);
    }

    /** The second region; `signal` says whether the run is to be unlocked. */
    method ApplyApprovalOutcomeToPending(c: ApprovalCase, now: int) returns (signal: bool)
      modifies `pending
      ensures Now() == ApplyOutcome(old(Now()), c, now) && signal == OutcomeApplies(old(Now()), c)
    {
      var target := OutcomeStatus(c.status);
      if target.None? || c.decisionId !in pending { return false; }
      var p := pending[c.decisionId];
      if p.runId != c.runId || p.stepId != c.stepId { return false; }
      if p.status != Pending { return false; }
      p := p.(status := target.value, updatedAt := now);
      pending := pending[c.decisionId := p];
      return true;
    }

    /** The last region, after an approval that did not unlock the run. */
    method EnforceApprovalUnlockFailureGuard(c: ApprovalCase, now: int)
      modifies `pending
      ensures Now() == Guard(old(Now()), c, now)
    {
      if c.decisionId !in pending { return; }
      var p := pending[c.decisionId];
      if p.runId != c.runId || p.stepId != c.stepId { return; }
      if p.status != Confirmed { return; }
      pending := pending[c.decisionId := p.(status := Held, updatedAt := now)];
    }

    method CloseByRisk(c: ApprovalCase, now: int) returns (closed: ApprovalCase)
      requires TimedOut(c, now)
      ensures closed == TimeOutCase(c, now)
    {
      closed := c;
      match c.risk {
        case Some(Low) => closed := closed.(status := AutoDenied);
        case Some(Medium) => closed := closed.(status := ForceReviewQueue);
        case _ => closed := closed.(status := FailClosed);
      }
      closed := closed.(resolvedAt := now);
    }

    /** The locked half of the timeout sweep: due cases are resolved by their risk and copied out. */
    method TimeOutApprovalCases(now: int) returns (ghost ids: seq<nat>, timedOut: seq<ApprovalCase>)
      modifies `approvals
      ensures Now() == TimeOutCases(old(Now()), now)
      ensures TimedOutCases(old(Now()), now, ids, timedOut)
    {
      hide TimeoutStatus, Visited;
      ids, timedOut := [], [];
      var todo := approvals.Keys;
      VisitedNone(approvals, now);
      while todo != {}
        invariant todo <= approvals.Keys && Visited(old(approvals), approvals, now, todo, ids, timedOut)
      {
        var id :| id in todo;
        VisitedOne(old(approvals), approvals, now, todo, ids, timedOut, id);
        todo := todo - {id};
        var c := approvals[id];
        if c.status == Awaiting && now >= c.hardTimeout {
          c := CloseByRisk(c, now);
          approvals := approvals[id := c];
          timedOut, ids := timedOut + [c], ids + [id];
        }
      }
      VisitedAll(old(Now()), approvals, now, ids, timedOut);
    }

    /** The timeout sweep: a timed-out case is never approved, so no run is to be resumed and no guard runs. */
    method SweepApprovalHardTimeouts(now: int) returns (ghost ids: seq<nat>, timedOut: seq<ApprovalCase>)
      modifies `approvals, `pending
      ensures TimedOutCases(old(Now()), now, ids, timedOut)
      ensures Now() == ApplyOutcomes(TimeOutCases(old(Now()), now), timedOut, now)
      ensures forall i :: 0 <= i < |timedOut| ==> timedOut[i].status != Approved
    {
      ids, timedOut := TimeOutApprovalCases(now);
      ghost var d := Now();
      for i := 0 to |timedOut|
        invariant Now() == ApplyOutcomes(d, timedOut[..i], now)
      {
        var signal := ApplyApprovalOutcomeToPending(timedOut[i], now);
        assert timedOut[..i + 1][..i] == timedOut[..i];
      }
      assert timedOut[..|timedOut|] == timedOut;
    }

    // ----- Tickets -----

    method ExceedsQuota(requested: map<string, real>, quota: map<string, real>) returns (r: bool)
      ensures r == QuotaExceeded(requested, quota)
    {
      var todo := requested.Keys;
      while todo != {}
        invariant todo <= requested.Keys
        invariant forall k :: k in requested && k !in todo ==> requested[k] <= Amount(quota, k)
      {
        var k :| k in todo;
        todo := todo - {k};
        var left := if k in quota then quota[k] else 0.0;
        if requested[k] > left { return true; }
      }
      return false;
    }

    method AdmitSchedule(ticketId: string, runId: string, stepId: string, tenant: string,
                         requested: map<string, real>, quota: map<string, real>, now: int) returns (admitted: bool)
      modifies `tickets, `quotas
      ensures Now() == Admit(cfg, old(Now()), ticketId, runId, stepId, tenant, requested, quota, now)
      ensures admitted == !QuotaExceeded(requested, quota)
    {
      var exceeded := ExceedsQuota(requested, quota);
      if exceeded { return false; }
      tickets := tickets[ticketId := Ticket(runId, stepId, tenant, requested, now + cfg.ticketTTL)];
      quotas := quotas[ticketId := quota];
      return true;
    }

    method ValidateExecutionReceiptForRun(now: int, runId: string, stepId: string, tenant: string, ticketId: string,
                                          used: map<string, real>, receivedAt: int) returns (ok: bool)
      ensures ok == ReceiptOk(Now(), now, runId, stepId, tenant, ticketId, used, receivedAt)
    {
      if ticketId == "" { return false; }
      if used == map[] { return false; }
      var at := if receivedAt == 0 then now else receivedAt;
      if ticketId !in tickets { return false; }
      var t := tickets[ticketId];
      if at > t.expiresAt { return false; }
      if runId == "" || stepId == "" || tenant == "" { return false; }
      if runId != t.runId || stepId != t.stepId || tenant != t.tenant { return false; }
      var todo := used.Keys;
      while todo != {}
        invariant todo <= used.Keys
        invariant forall k :: k in used && k !in todo ==> used[k] <= Amount(t.allowed, k)
      {
        var k :| k in todo;
        todo := todo - {k};
        var limit := if k in t.allowed then t.allowed[k] else 0.0;
        if used[k] > limit { return false; }
      }
      return true;
    }

    // ----- Cleanup -----

    method CleanupExpired(now: int)
      modifies `pending, `decisions, `tickets, `approvals
      ensures Now() == CleanCases(cfg, CleanTickets(cfg, CleanPending(cfg, old(Now()), now), now), now)
    {
      CleanupPending(now);
      CleanupDecisions(now);
      CleanupTickets(now);
      CleanupApprovals(now);
    }

    method CleanupPending(now: int)
      modifies `pending
      ensures pending == CleanPending(cfg, old(Now()), now).pending
    {
      var todo := pending.Keys;
      while todo != {}
        invariant todo <= pending.Keys <= old(pending).Keys
        invariant forall id :: id in old(pending) ==>
          (id in pending <==> id in todo || old(pending)[id].status == Pending || now <= old(pending)[id].updatedAt + cfg.pendingRetention)
        invariant forall id :: id in pending ==> pending[id] == old(pending)[id]
      {
        var id :| id in todo;
        todo := todo - {id};
        if pending[id].status != Pending && now > pending[id].updatedAt + cfg.pendingRetention { pending := pending - {id}; }
      }
    }

    method CleanupDecisions(now: int)
      modifies `decisions
      ensures decisions == CleanPending(cfg, old(Now()), now).decisions
    {
      var todo := decisions.Keys;
      while todo != {}
        invariant todo <= decisions.Keys <= old(decisions).Keys
        invariant forall id :: id in old(decisions) ==>
          (id in decisions <==> id in todo || now <= old(decisions)[id].createdAt + cfg.decisionRetention)
        invariant forall id :: id in decisions ==> decisions[id] == old(decisions)[id]
      {
        var id :| id in todo;
        todo := todo - {id};
        if now > decisions[id].createdAt + cfg.decisionRetention { decisions := decisions - {id}; }
      }
    }

    method CleanupTickets(now: int)
      modifies `tickets
      ensures Now() == CleanTickets(cfg, old(Now()), now)
    {
      var todo := tickets.Keys;
      while todo != {}
        invariant todo <= tickets.Keys <= old(tickets).Keys
        invariant forall id :: id in old(tickets) ==>
          (id in tickets <==> id in todo || now <= old(tickets)[id].expiresAt + cfg.ticketRetention)
        invariant forall id :: id in tickets ==> tickets[id] == old(tickets)[id]
      {
        var id :| id in todo;
        todo := todo - {id};
        if now > tickets[id].expiresAt + cfg.ticketRetention { tickets := tickets - {id}; }
      }
      assert tickets == CleanTickets(cfg, old(Now()), now).tickets;
    }

    method CleanupApprovals(now: int)
      modifies `approvals
      ensures Now() == CleanCases(cfg, old(Now()), now)
    {
      var todo := approvals.Keys;
      while todo != {}
        invariant todo <= approvals.Keys <= old(approvals).Keys
        invariant forall c :: c in old(approvals) ==>
          (c in approvals <==> c in todo || old(approvals)[c].status == Awaiting || now <= old(approvals)[c].hardTimeout + cfg.approvalRetention)
        invariant forall c :: c in approvals ==> approvals[c] == old(approvals)[c]
      {
        var c :| c in todo;
        todo := todo - {c};
        if approvals[c].status != Awaiting && now > approvals[c].hardTimeout + cfg.approvalRetention { approvals := approvals - {c}; }
      }
      assert approvals == CleanCases(cfg, old(Now()), now).cases;
    }
  }
}
