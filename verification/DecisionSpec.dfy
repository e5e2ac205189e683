/**
 * The decision kernel's pending, approval and ticket records, and one function for each region of its methods that runs
 * under a lock. Case ids are the sequence numbers they end in; owner keys are the tuples they join.
 */
module DecisionSpec {
  import opened Outcomes
  import opened RunTypes

  datatype PendingStatus = Pending | Confirmed | Held | Escalated | Closed

  datatype OwnerKey = OwnerKey(runId: string, stepId: string, attempt: int, phase: Phase)

  datatype PendingEntry = PendingEntry(
    runId: string, stepId: string, attempt: int, phase: Phase, owner: Option<OwnerKey>,
    createdAt: int, updatedAt: int, repairs: int, status: PendingStatus)

  datatype CaseStatus = Awaiting | Approved | Denied | AutoDenied | ForceReviewQueue | FailClosed

  datatype ApprovalCase = ApprovalCase(
    runId: string, stepId: string, decisionId: string, risk: Option<Risk>, status: CaseStatus,
    createdAt: int, resolvedAt: int, hardTimeout: int)

  datatype Ticket = Ticket(runId: string, stepId: string, tenant: string, allowed: map<string, real>, expiresAt: int)

  datatype StoredDecision = StoredDecision(
    runId: string, stepId: string, attempt: int, phase: Phase, value: DecisionValue, obligations: seq<Obligation>,
    hash: string, isFallback: bool, refValid: bool, refKind: Option<HashKind>, createdAt: int)

  datatype Settings = Settings(
    pendingTTL: int, pendingRetention: int, decisionRetention: int, ticketTTL: int, ticketRetention: int, approvalRetention: int,
    hardTimeout: Option<Risk> -> int)

  /** `quotas` is history: the quota each ticket's admission was shown. */
  datatype Decisions = Decisions(
    pending: map<string, PendingEntry>,
    cases: map<nat, ApprovalCase>,
    decisions: map<string, StoredDecision>,
    tickets: map<string, Ticket>,
    quotas: map<string, map<string, real>>,
    caseSeq: nat)

  /** Thirty minutes, in seconds. */
  const DEFAULT_HARD_TIMEOUT := 1800

  const NO_DECISIONS := Decisions(map[], map[], map[], map[], map[], 0)

  function SetPending(d: Decisions, id: string, p: PendingEntry): Decisions {
    d.(pending := d.pending[id := p])
  }

  // ----- Evaluation and the pending entry -----

  predicate OpensPending(v: DecisionValue) {
    v == Allow || v == RequireApproval || v == ReviewRequired || v == ForceReview
  }

  function NewEntry(runId: string, stepId: string, attempt: int, phase: Phase, now: int): PendingEntry {
    PendingEntry(runId, stepId, attempt, phase, Some(OwnerKey(runId, stepId, attempt, phase)), now, now, 0, Pending)
  }

  /** A duplicate evaluation refreshes a pending entry and fills what it left blank. */
  function Refresh(p: PendingEntry, runId: string, stepId: string, attempt: int, phase: Phase, now: int): PendingEntry {
    p.(updatedAt := now,
       runId := if p.runId == "" then runId else p.runId,
       stepId := if p.stepId == "" then stepId else p.stepId,
       attempt := if p.attempt == 0 then attempt else p.attempt,
       phase := if p.phase == NoPhase then phase else p.phase,
       owner := if p.owner.None? then Some(OwnerKey(runId, stepId, attempt, phase)) else p.owner)
  }

  function CreatePending(d: Decisions, id: string, runId: string, stepId: string, attempt: int, phase: Phase, now: int): Decisions {
    if id !in d.pending then SetPending(d, id, NewEntry(runId, stepId, attempt, phase, now))
    else
      var p := d.pending[id];
      if p.owner.Some? && p.owner.value != OwnerKey(runId, stepId, attempt, phase) then d
      else if p.status != Pending then d
      else SetPending(d, id, Refresh(p, runId, stepId, attempt, phase, now))
  }

  /** A runtime evaluation stores its decision over the previous one and opens a pending entry if it may execute. */
  function Evaluate(d: Decisions, id: string, s: StoredDecision, now: int): Decisions {
    var d1 := d.(decisions := d.decisions[id := s]);
    if OpensPending(s.value) then CreatePending(d1, id, s.runId, s.stepId, s.attempt, s.phase, now) else d1
  }

  datatype ConfirmRequest = ConfirmRequest(
    decisionId: string, runId: string, stepId: string, attempt: int, phase: Phase, owner: Option<OwnerKey>, success: bool)

  datatype ConfirmReason = ConfirmNotFound | ConfirmMismatch | OwnerRequired | OwnerMismatch | AttemptMismatch | ConfirmPhaseMismatch
                         | StatusImmutable | AdvanceFailed | NoReason

  /** The owner a confirmation claims: the one it names, else the one its attempt or phase spells out. */
  function ClaimedOwner(r: ConfirmRequest): Option<OwnerKey> {
    if r.owner.Some? then r.owner
    else if r.attempt > 0 || r.phase != NoPhase then Some(OwnerKey(r.runId, r.stepId, r.attempt, r.phase))
    else None
  }

  function ConfirmRefusal(d: Decisions, r: ConfirmRequest): ConfirmReason {
    if r.decisionId !in d.pending then ConfirmNotFound
    else
      var p := d.pending[r.decisionId];
      if p.runId != r.runId || p.stepId != r.stepId then ConfirmMismatch
      else if p.owner.Some? && ClaimedOwner(r).None? then OwnerRequired
      else if p.owner.Some? && ClaimedOwner(r) != p.owner then OwnerMismatch
      else if p.attempt > 0 && r.attempt > 0 && p.attempt != r.attempt then AttemptMismatch
      else if p.phase != NoPhase && r.phase != NoPhase && p.phase != r.phase then ConfirmPhaseMismatch
      else if p.status == Confirmed && r.success then NoReason
      else if p.status != Pending then StatusImmutable
      else if r.success then NoReason
      else AdvanceFailed
  }

  function Confirm(d: Decisions, r: ConfirmRequest, now: int): Decisions {
    var why := ConfirmRefusal(d, r);
    if why != NoReason && why != AdvanceFailed then d
    else if d.pending[r.decisionId].status != Pending then d
    else SetPending(d, r.decisionId,
                    d.pending[r.decisionId].(updatedAt := now, status := if r.success then Confirmed else Pending))
  }

  function Terminalize(d: Decisions, id: string, target: PendingStatus, now: int): Decisions {
    if id !in d.pending || target == Pending || target == Confirmed then d
    else if d.pending[id].status != Pending then d
    else SetPending(d, id, d.pending[id].(status := target, updatedAt := now))
  }

  // ----- Repair -----

  predicate RepairDue(cfg: Settings, p: PendingEntry, now: int) {
    p.status == Pending && now - p.updatedAt > cfg.pendingTTL
  }

  /** One repair: nudge, compare, hold, and for more than three attempts escalate. */
  function Repaired(p: PendingEntry, now: int): PendingEntry {
    var q := p.(repairs := p.repairs + 1, updatedAt := now);
    if q.repairs == 1 || q.repairs == 2 then q
    else if q.repairs == 3 then q.(status := Held)
    else q.(status := Escalated)
  }

  function RepairEntry(cfg: Settings, p: PendingEntry, now: int): PendingEntry {
    if RepairDue(cfg, p, now) then Repaired(p, now) else p
  }

  function Repair(cfg: Settings, d: Decisions, now: int): Decisions {
    d.(pending := map id | id in d.pending :: RepairEntry(cfg, d.pending[id], now))
  }

  // ----- Approval cases -----

  function OpenCase(cfg: Settings, d: Decisions, runId: string, stepId: string, decisionId: string, risk: Option<Risk>, now: int): Decisions {
    var timeout := if cfg.hardTimeout(risk) <= 0 then DEFAULT_HARD_TIMEOUT else cfg.hardTimeout(risk);
    d.(caseSeq := d.caseSeq + 1,
       cases := d.cases[d.caseSeq + 1 := ApprovalCase(runId, stepId, decisionId, risk, Awaiting, now, 0, now + timeout)])
  }

  /** The case is resolved, once, and the caller takes a copy of it. */
  function ResolveCase(d: Decisions, caseId: nat, approve: bool, now: int): (Decisions, Option<ApprovalCase>) {
    if caseId !in d.cases || d.cases[caseId].status != Awaiting then (d, None)
    else
      var c := d.cases[caseId].(status := if approve then Approved else Denied, resolvedAt := now);
      (d.(cases := d.cases[caseId := c]), Some(c))
  }

  function TimeoutStatus(risk: Option<Risk>): CaseStatus {
    match risk
    case Some(Low) => AutoDenied
    case Some(Medium) => ForceReviewQueue
    case _ => FailClosed
  }

  predicate TimedOut(c: ApprovalCase, now: int) {
    c.status == Awaiting && now >= c.hardTimeout
  }

  function TimeOutCase(c: ApprovalCase, now: int): ApprovalCase {
    if TimedOut(c, now) then c.(status := TimeoutStatus(c.risk), resolvedAt := now) else c
  }

  function TimeOutCases(d: Decisions, now: int): Decisions {
    d.(cases := map c | c in d.cases :: TimeOutCase(d.cases[c], now))
  }

  function OutcomeStatus(s: CaseStatus): Option<PendingStatus> {
    match s
    case Approved => Some(Confirmed)
    case ForceReviewQueue => Some(Held)
    case Denied => Some(Closed)
    case AutoDenied => Some(Closed)
    case FailClosed => Some(Closed)
    case Awaiting => None
  }

  predicate ForCase(p: PendingEntry, c: ApprovalCase) {
    p.runId == c.runId && p.stepId == c.stepId
  }

  /** The outcome of a case reaches its pending entry only while that is pending; then the run is to be unlocked. */
  predicate OutcomeApplies(d: Decisions, c: ApprovalCase) {
    && OutcomeStatus(c.status).Some?
    && c.decisionId in d.pending
    && ForCase(d.pending[c.decisionId], c)
    && d.pending[c.decisionId].status == Pending
  }

  function ApplyOutcome(d: Decisions, c: ApprovalCase, now: int): Decisions {
    if !OutcomeApplies(d, c) then d
    else SetPending(d, c.decisionId, d.pending[c.decisionId].(status := OutcomeStatus(c.status).value, updatedAt := now))
  }

  /** An approval that did not unlock its run takes the confirmation back. */
  function Guard(d: Decisions, c: ApprovalCase, now: int): Decisions {
    if c.decisionId !in d.pending then d
    else
      var p := d.pending[c.decisionId];
      if !ForCase(p, c) || p.status != Confirmed then d
      else SetPending(d, c.decisionId, p.(status := Held, updatedAt := now))
  }

  // ----- Tickets and receipts -----

  function Amount(m: map<string, real>, k: string): real {
    if k in m then m[k] else 0.0
  }

  predicate QuotaExceeded(requested: map<string, real>, quota: map<string, real>) {
    exists k :: k in requested && requested[k] > Amount(quota, k)
  }

  /** A ticket for the requested resources, unless they exceed the quota shown. */
  function Admit(cfg: Settings, d: Decisions, ticketId: string, runId: string, stepId: string, tenant: string,
                 requested: map<string, real>, quota: map<string, real>, now: int): Decisions
  {
    if QuotaExceeded(requested, quota) then d
    else d.(tickets := d.tickets[ticketId := Ticket(runId, stepId, tenant, requested, now + cfg.ticketTTL)],
            quotas := d.quotas[ticketId := quota])
  }

  predicate ReceiptCovered(t: Ticket, runId: string, stepId: string, tenant: string, used: map<string, real>, at: int) {
    && at <= t.expiresAt
    && runId != "" && stepId != "" && tenant != ""
    && runId == t.runId && stepId == t.stepId && tenant == t.tenant
    && forall k :: k in used ==> used[k] <= Amount(t.allowed, k)
  }

  /** The gate a run asks: a ticket is named, some use is reported, and the ticket covers it. */
  predicate ReceiptOk(d: Decisions, now: int, runId: string, stepId: string, tenant: string, ticketId: string, used: map<string, real>, at: int) {
    && ticketId != "" && used != map[]
    && ticketId in d.tickets
    && ReceiptCovered(d.tickets[ticketId], runId, stepId, tenant, used, if at == 0 then now else at)
  }

  // ----- What the run kernel reads -----

  predicate IsErrorHash(h: string) {
    "err_" <= h
  }

  function Reference(id: string, s: StoredDecision): DecisionReference {
    var stable := s.hash != "" && !IsErrorHash(s.hash);
    var (valid, kind) :=
      if s.isFallback then (false, Fallback)
      else if s.refKind.Some? then (s.refValid, s.refKind.value)
      else if stable then (true, Stable)
      else (false, ErrorKind);
    DecisionReference(id, s.runId, s.stepId, s.attempt, s.phase, s.value, s.obligations, s.hash, valid, kind)
  }

  function GetReference(d: Decisions, id: string): Option<DecisionReference> {
    if id in d.decisions then Some(Reference(id, d.decisions[id])) else None
  }

  predicate ConfirmedFor(d: Decisions, id: string, runId: string, stepId: string, attempt: int, phase: Phase) {
    && id in d.pending
    && var p := d.pending[id];
    && p.runId == runId && p.stepId == stepId
    && p.status == Confirmed
    && (p.attempt > 0 && attempt > 0 ==> p.attempt == attempt)
    && (p.phase != NoPhase && phase != NoPhase ==> p.phase == phase)
    && (p.owner.Some? ==> (attempt > 0 || phase != NoPhase) && OwnerKey(runId, stepId, attempt, phase) == p.owner.value)
  }

  /** The strict gate of the execution paths: a confirmed entry and a decision to allow, under a stable hash noted with it. */
  predicate SideEffectAllowed(d: Decisions, id: string) {
    && id in d.pending && d.pending[id].status == Confirmed
    && id in d.decisions
    && var s := d.decisions[id];
    && !s.isFallback && s.refValid && s.refKind == Some(Stable) && s.hash != "" && !IsErrorHash(s.hash)
    && (s.value == Allow || s.value == RequireApproval)
  }

  // ----- Cleanup -----

  function CleanPending(cfg: Settings, d: Decisions, now: int): Decisions {
    d.(pending := map id | id in d.pending && (d.pending[id].status == Pending || now <= d.pending[id].updatedAt + cfg.pendingRetention) :: d.pending[id],
       decisions := map id | id in d.decisions && now <= d.decisions[id].createdAt + cfg.decisionRetention :: d.decisions[id])
  }

  function CleanTickets(cfg: Settings, d: Decisions, now: int): Decisions {
    d.(tickets := map id | id in d.tickets && now <= d.tickets[id].expiresAt + cfg.ticketRetention :: d.tickets[id])
  }

  function CleanCases(cfg: Settings, d: Decisions, now: int): Decisions {
    d.(cases := map c | c in d.cases && (d.cases[c].status == Awaiting || now <= d.cases[c].hardTimeout + cfg.approvalRetention) :: d.cases[c])
  }
}
