/** The life of a pending decision over any interleaving of the operations that touch it. */
module PendingLifecycle {
  import opened Outcomes
  import opened RunTypes
  import opened DecisionSpec

  /** A locked region with its inputs; cleanup has three, one for each lock. */
  datatype DecisionOp =
    | EvaluateOp(id: string, stored: StoredDecision, now: int)
    | RecordOp(id: string, stored: StoredDecision)
    | ConfirmOp(confirm: ConfirmRequest, now: int)
    | TerminalizeOp(id: string, target: PendingStatus, now: int)
    | RepairOp(now: int)
    | OpenCaseOp(runId: string, stepId: string, decisionId: string, risk: Option<Risk>, now: int)
    | ResolveOp(caseId: nat, approve: bool, now: int)
    | TimeoutOp(now: int)
    | OutcomeOp(outcome: ApprovalCase, now: int)
    | GuardOp(outcome: ApprovalCase, now: int)
    | AdmitOp(ticketId: string, runId: string, stepId: string, tenant: string, requested: map<string, real>, quota: map<string, real>, now: int)
    | CleanPendingOp(now: int)
    | CleanTicketsOp(now: int)
    | CleanCasesOp(now: int)

  function Apply(cfg: Settings, d: Decisions, op: DecisionOp): Decisions {
    match op
    case EvaluateOp(id, s, now) => Evaluate(d, id, s, now)
    case RecordOp(id, s) => d.(decisions := d.decisions[id := s])
    case ConfirmOp(r, now) => Confirm(d, r, now)
    case TerminalizeOp(id, target, now) => Terminalize(d, id, target, now)
    case RepairOp(now) => Repair(cfg, d, now)
    case OpenCaseOp(run, step, decision, risk, now) => OpenCase(cfg, d, run, step, decision, risk, now)
    case ResolveOp(c, approve, now) => ResolveCase(d, c, approve, now).0
    case TimeoutOp(now) => TimeOutCases(d, now)
    case OutcomeOp(c, now) => ApplyOutcome(d, c, now)
    case GuardOp(c, now) => Guard(d, c, now)
    case AdmitOp(t, run, step, tenant, requested, quota, now) => Admit(cfg, d, t, run, step, tenant, requested, quota, now)
    case CleanPendingOp(now) => CleanPending(cfg, d, now)
    case CleanTicketsOp(now) => CleanTickets(cfg, d, now)
    case CleanCasesOp(now) => CleanCases(cfg, d, now)
  }

  function After(cfg: Settings, ops: seq<DecisionOp>): Decisions {
    if ops == [] then NO_DECISIONS else Apply(cfg, After(cfg, ops[..|ops| - 1]), ops[|ops| - 1])
  }

  // ----- Every reachable entry -----

  /** A pending entry was repaired at most twice, any entry at most thrice, and its owner is its own four fields. */
  ghost predicate EntryOk(p: PendingEntry) {
    && 0 <= p.repairs <= 3
    && (p.status == Pending ==> p.repairs <= 2)
    && p.owner == Some(OwnerKey(p.runId, p.stepId, p.attempt, p.phase))
  }

  /** A ticket's allowance fits the quota its admission was shown. */
  ghost predicate TicketOk(d: Decisions, t: string) {
    && t in d.tickets && t in d.quotas
    && forall k :: k in d.tickets[t].allowed ==> d.tickets[t].allowed[k] <= Amount(d.quotas[t], k)
  }

  ghost predicate TicketsOk(d: Decisions) {
    forall t :: t in d.tickets ==> TicketOk(d, t)
  }

  ghost predicate CasesOk(d: Decisions) {
    forall c :: c in d.cases ==> c <= d.caseSeq
  }

  ghost predicate Inv(d: Decisions) {
    (forall id :: id in d.pending ==> EntryOk(d.pending[id])) && TicketsOk(d) && CasesOk(d)
  }

  lemma ApplyKeeps(cfg: Settings, d: Decisions, op: DecisionOp)
    requires Inv(d)
    ensures Inv(Apply(cfg, d, op))
  {
    TicketsKept(cfg, d, op);
    CasesKept(cfg, d, op);
    hide TicketsOk, CasesOk, EntryOk, Apply;
    var d' := Apply(cfg, d, op);
    forall id | id in d'.pending ensures EntryOk(d'.pending[id]) {
      if id in d.pending { EntryStep(cfg, d, op, id); } else { NewEntryOk(cfg, d, op, id); }
    }
  }

  lemma TicketsKept(cfg: Settings, d: Decisions, op: DecisionOp)
    requires TicketsOk(d)
    ensures TicketsOk(Apply(cfg, d, op))
  {
    var d' := Apply(cfg, d, op);
    if op.AdmitOp? || op.CleanTicketsOp? {
      forall t | t in d'.tickets ensures TicketOk(d', t) {
        if t in d.tickets { assert TicketOk(d, t); }
      }
    } else {
      NoTicketTouched(cfg, d, op);
      hide Apply;
      forall t | t in d'.tickets ensures TicketOk(d', t) { assert TicketOk(d, t); }
    }
  }

  lemma NoTicketTouched(cfg: Settings, d: Decisions, op: DecisionOp)
    requires !op.AdmitOp? && !op.CleanTicketsOp?
    ensures Apply(cfg, d, op).tickets == d.tickets && Apply(cfg, d, op).quotas == d.quotas
  {
    hide ConfirmRefusal, OutcomeApplies, ForCase, TimeOutCase, RepairEntry, OpensPending, Refresh, NewEntry;
  }

  /** A stored decision is only ever stored, replaced or deleted. */
  lemma StoredFrom(cfg: Settings, d: Decisions, op: DecisionOp, id: string)
    requires id in Apply(cfg, d, op).decisions
    ensures var stored := Apply(cfg, d, op).decisions[id];
      || ((op.EvaluateOp? || op.RecordOp?) && op.id == id && op.stored == stored)
      || (id in d.decisions && d.decisions[id] == stored)
  {
    hide ConfirmRefusal, OutcomeApplies, ForCase, TimeOutCase, RepairEntry, OpensPending, Refresh, NewEntry, QuotaExceeded;
  }

  lemma CasesKept(cfg: Settings, d: Decisions, op: DecisionOp)
    requires CasesOk(d)
    ensures CasesOk(Apply(cfg, d, op))
  {
    hide ConfirmRefusal, OutcomeApplies, ForCase, TimeOutCase, RepairEntry;
  }

  /** The case has been opened and is no longer awaiting a verdict; it may have been deleted since. */
  ghost predicate CaseClosed(d: Decisions, c: nat) {
    c <= d.caseSeq && (c in d.cases ==> d.cases[c].status != Awaiting)
  }

  /** A case is never opened again. */
  lemma ClosedStays(cfg: Settings, d: Decisions, op: DecisionOp, c: nat)
    requires CaseClosed(d, c)
    ensures CaseClosed(Apply(cfg, d, op), c)
  {
    hide ConfirmRefusal, OutcomeApplies, ForCase, RepairEntry, OpensPending, Refresh, NewEntry, QuotaExceeded;
  }

  /** Only an evaluation adds an entry, a pending one that was never repaired. */
  lemma NewEntryOk(cfg: Settings, d: Decisions, op: DecisionOp, id: string)
    requires id !in d.pending && id in Apply(cfg, d, op).pending
    ensures EntryOk(Apply(cfg, d, op).pending[id])
  {
    hide ClaimedOwner, ForCase, RepairEntry;
  }

  /** Where a status may go: out of pending anywhere, out of confirmed only to safeguard hold, nowhere else. */
  predicate StatusLater(a: PendingStatus, b: PendingStatus) {
    a == b || a == Pending || (a == Confirmed && b == Held)
  }

  ghost predicate EntryLater(p: PendingEntry, q: PendingEntry) {
    EntryOk(q) && StatusLater(p.status, q.status) && p.repairs <= q.repairs && q.owner == p.owner
  }

  ghost predicate LaterIn(p: PendingEntry, d: Decisions, id: string) {
    id in d.pending ==> EntryLater(p, d.pending[id])
  }

  lemma EvaluateStep(d: Decisions, at: string, s: StoredDecision, now: int, id: string)
    requires id in d.pending && EntryOk(d.pending[id])
    ensures LaterIn(d.pending[id], Evaluate(d, at, s, now), id)
  {
  }

  lemma ConfirmStep(d: Decisions, r: ConfirmRequest, now: int, id: string)
    requires id in d.pending && EntryOk(d.pending[id])
    ensures LaterIn(d.pending[id], Confirm(d, r, now), id)
  {
    hide ClaimedOwner;
  }

  lemma EntryStep(cfg: Settings, d: Decisions, op: DecisionOp, id: string)
    requires id in d.pending && EntryOk(d.pending[id])
    ensures LaterIn(d.pending[id], Apply(cfg, d, op), id)
  {
    hide Evaluate, Confirm;
    if op.EvaluateOp? { EvaluateStep(d, op.id, op.stored, op.now, id); }
    if op.ConfirmOp? { ConfirmStep(d, op.confirm, op.now, id); }
    hide ForCase, Admit, OpenCase, TimeOutCases, CleanTickets, CleanCases;
  }

  lemma {:induction false} ReachableInv(cfg: Settings, ops: seq<DecisionOp>)
    ensures Inv(After(cfg, ops))
  {
    if ops != [] {
      ReachableInv(cfg, ops[..|ops| - 1]);
      hide Apply, Inv;
      ApplyKeeps(cfg, After(cfg, ops[..|ops| - 1]), ops[|ops| - 1]);
    }
  }

  /** The escalation branch of the repair is dead: a reachable pending entry is nudged, compared or held. */
  lemma RepairNeverEscalates(cfg: Settings, ops: seq<DecisionOp>, id: string, now: int)
    requires id in After(cfg, ops).pending && After(cfg, ops).pending[id].status == Pending
    ensures RepairEntry(cfg, After(cfg, ops).pending[id], now).status != Escalated
    ensures RepairEntry(cfg, After(cfg, ops).pending[id], now).repairs <= 3
  {
    ReachableInv(cfg, ops);
    hide After;
    assert EntryOk(After(cfg, ops).pending[id]);
  }

  // ----- One entry over a history -----

  /** The entry is there from the state after `i` operations to the state after `j`. */
  ghost predicate Present(cfg: Settings, ops: seq<DecisionOp>, i: nat, j: nat, id: string)
    requires i <= j <= |ops|
  {
    forall n {:trigger After(cfg, ops[..n])} :: i <= n <= j ==> id in After(cfg, ops[..n]).pending
  }

  lemma {:induction false} StatusOverHistory(cfg: Settings, ops: seq<DecisionOp>, i: nat, j: nat, id: string)
    requires i <= j <= |ops| && Present(cfg, ops, i, j, id)
    ensures StatusLater(After(cfg, ops[..i]).pending[id].status, After(cfg, ops[..j]).pending[id].status)
    ensures After(cfg, ops[..i]).pending[id].repairs <= After(cfg, ops[..j]).pending[id].repairs <= 3
    ensures After(cfg, ops[..i]).pending[id].owner == After(cfg, ops[..j]).pending[id].owner
  {
    hide Apply;
    ReachableInv(cfg, ops[..i]);
    if i < j {
      StatusOverHistory(cfg, ops, i, j - 1, id);
      ReachableInv(cfg, ops[..j - 1]);
      assert ops[..j][..j - 1] == ops[..j - 1];
      EntryStep(cfg, After(cfg, ops[..j - 1]), ops[j - 1], id);
    }
  }

  ghost predicate RepairedAt(cfg: Settings, ops: seq<DecisionOp>, n: nat, id: string)
    requires n < |ops|
  {
    var d := After(cfg, ops[..n]);
    ops[n].RepairOp? && id in d.pending && RepairDue(cfg, d.pending[id], ops[n].now)
  }

  /** How often the repair touched the entry from operation `i` up to operation `j`. */
  ghost function Repairs(cfg: Settings, ops: seq<DecisionOp>, i: nat, j: nat, id: string): nat
    requires i <= j <= |ops|
  {
    if i == j then 0 else Repairs(cfg, ops, i, j - 1, id) + if RepairedAt(cfg, ops, j - 1, id) then 1 else 0
  }

  lemma RepairCounts(cfg: Settings, d: Decisions, op: DecisionOp, id: string)
    requires id in d.pending && id in Apply(cfg, d, op).pending
    ensures Apply(cfg, d, op).pending[id].repairs
         == d.pending[id].repairs + if op.RepairOp? && RepairDue(cfg, d.pending[id], op.now) then 1 else 0
  {
    hide ClaimedOwner, ForCase, OutcomeStatus, TimeOutCase, QuotaExceeded, OpensPending;
  }

  lemma AfterOne(cfg: Settings, ops: seq<DecisionOp>, i: nat)
    requires i < |ops|
    ensures After(cfg, ops[..i + 1]) == Apply(cfg, After(cfg, ops[..i]), ops[i])
  {
    hide Apply;
    assert ops[..i + 1][..i] == ops[..i];
  }

  lemma {:induction false} RepairsCounted(cfg: Settings, ops: seq<DecisionOp>, i: nat, j: nat, id: string)
    requires i <= j <= |ops| && Present(cfg, ops, i, j, id)
    ensures After(cfg, ops[..j]).pending[id].repairs == After(cfg, ops[..i]).pending[id].repairs + Repairs(cfg, ops, i, j, id)
  {
    hide Apply, After, RepairDue;
    if i < j {
      RepairsCounted(cfg, ops, i, j - 1, id);
      AfterOne(cfg, ops, j - 1);
      RepairCounts(cfg, After(cfg, ops[..j - 1]), ops[j - 1], id);
    }
  }

  /** The repair touches an entry at most three times as long as it is kept. */
  lemma RepairedThrice(cfg: Settings, ops: seq<DecisionOp>, i: nat, j: nat, id: string)
    requires i <= j <= |ops| && Present(cfg, ops, i, j, id)
    ensures Repairs(cfg, ops, i, j, id) <= 3
  {
    hide Apply, After, Repairs;
    RepairsCounted(cfg, ops, i, j, id);
    ReachableInv(cfg, ops[..i]);
    ReachableInv(cfg, ops[..j]);
    assert EntryOk(After(cfg, ops[..i]).pending[id]) && EntryOk(After(cfg, ops[..j]).pending[id]);
  }

  ghost predicate LeavesPending(cfg: Settings, ops: seq<DecisionOp>, i: nat, id: string)
    requires i < |ops|
  {
    && id in After(cfg, ops[..i]).pending && After(cfg, ops[..i]).pending[id].status == Pending
    && id in After(cfg, ops[..i + 1]).pending && After(cfg, ops[..i + 1]).pending[id].status != Pending
  }

  /** Between cleanups an entry leaves pending_decision at most once, and what it became changes only from confirmed to safeguard hold. */
  lemma LeavesOnce(cfg: Settings, ops: seq<DecisionOp>, i: nat, j: nat, id: string)
    requires i < j < |ops| && Present(cfg, ops, i, j, id) && LeavesPending(cfg, ops, i, id)
    ensures !LeavesPending(cfg, ops, j, id)
    ensures var (a, b) := (After(cfg, ops[..i + 1]).pending[id].status, After(cfg, ops[..j]).pending[id].status);
      b == a || (a == Confirmed && b == Held)
  {
    hide Apply, After;
    StatusOverHistory(cfg, ops, i + 1, j, id);
  }

  /** A confirmation is for the run, step, attempt and phase of the entry itself. */
  lemma ConfirmedIsExact(d: Decisions, id: string, runId: string, stepId: string, attempt: int, phase: Phase)
    requires Inv(d) && ConfirmedFor(d, id, runId, stepId, attempt, phase)
    ensures var p := d.pending[id];
      p.status == Confirmed && p.runId == runId && p.stepId == stepId && p.attempt == attempt && p.phase == phase
  {
    assert EntryOk(d.pending[id]);
  }
}
