/** Every normal step in every log passed the decision, confirmation and receipt checks, whatever ran in between. */
module ExecutionGate {
  import opened Outcomes
  import opened RunTypes
  import opened RunSpec
  import RunInvariants
  import RunHistory
  import opened AdvanceRules
  import Decisions = DecisionSpec
  import PendingLifecycle
  import opened JointSystem

  // ----- Only an advance that passes its gate logs a normal step -----

  /** Every normal step of `log'` is in `log`, at the same place. */
  ghost predicate NoNewNormal(log: seq<Step>, log': seq<Step>) {
    forall n :: 0 <= n < |log'| && log'[n].content.NormalContent? ==> n < |log| && log[n] == log'[n]
  }

  lemma PutSynthetic(k: Kernel, id: string, r: Run, s: Step, k': Kernel, x: string)
    requires s.content.SyntheticContent? && k'.logs == Put(k, id, r, s).logs
    ensures NoNewNormal(Log(k, x), Log(k', x))
  {
  }

  lemma CloseSynthetic(cfg: Config, k: Kernel, id: string, tag: Synthetic, input: string, output: string, next: RunState,
                       reason: string, source: string, progress: bool, now: int, x: string)
    requires id in k.runs
    ensures NoNewNormal(Log(k, x), Log(Close(cfg, k, id, tag, input, output, next, reason, source, progress, now), x))
  {
    var s := ClosingStep(cfg, k.runs[id], tag, input, output, now);
    PutSynthetic(k, id, ClosedRun(k.runs[id], s, next, reason, source, progress), s,
                 Close(cfg, k, id, tag, input, output, next, reason, source, progress, now), x);
  }

  lemma SameLog(k: Kernel, k': Kernel, x: string)
    requires k'.logs == k.logs
    ensures NoNewNormal(Log(k, x), Log(k', x))
  {
  }

  lemma VisitSynthetic(cfg: Config, w: Sweeper, k: Kernel, now: int, id: string, ok: bool, x: string)
    ensures NoNewNormal(Log(k, x), Log(SweepOne(cfg, w, k, now, id, ok), x))
  {
    hide NoNewNormal, TtlDue, Close;
    SameLog(k, k, x);
    if id in k.runs {
      var r := k.runs[id];
      CloseSynthetic(cfg, k, id, TtlAbort, "ttl_breach_risk", "", ForceAbort, "ttl_breach_risk", "ttl_sweeper", false, now, x);
      CloseSynthetic(cfg, k, id, TtlReview, "ttl_breach", "", ForceReviewRequired, "ttl_breach", "ttl_sweeper", false, now, x);
      SameLog(k, SetRun(k, id, r.(noProgressScans := 0)), x);
      var k1 := SetRun(k, id, r.(noProgressScans := r.noProgressScans + 1));
      SameLog(k, k1, x);
      assert Log(k1, x) == Log(k, x);
      CloseSynthetic(cfg, k1, id, ZombieSweep, "no_progress", "", if AtRisk(r) then ForceAbort else ForceReviewRequired,
                     "no_progress", "zombie_sweeper", false, now, x);
    }
  }

  lemma AbortSynthetic(cfg: Config, k: Kernel, now: int, id: string, reason: string, ok: bool, x: string)
    ensures NoNewNormal(Log(k, x), Log(Abort(cfg, k, now, id, reason, ok).0, x))
  {
    hide NoNewNormal, Close;
    SameLog(k, k, x);
    if id in k.runs {
      CloseSynthetic(cfg, k, id, AbortStep, reason, "aborted", Aborted,
                     if reason == "" then "manual_abort" else reason, "abort_api", true, now, x);
    }
  }

  lemma ParkSynthetic(cfg: Config, k: Kernel, now: int, id: string, req: ParkRequest, ok: bool, x: string)
    ensures NoNewNormal(Log(k, x), Log(Park(cfg, k, now, id, req, ok).0, x))
  {
    hide NoNewNormal, ParkedRun;
    var (k', resp) := Park(cfg, k, now, id, req, ok);
    if resp.Ok? {
      var t := TokenTypeOf(req.tokenType).value;
      PutSynthetic(k, id, ParkedRun(cfg, k.runs[id], now, req, t),
                   SyntheticStep(cfg, k.runs[id], req.stepId, req.incomingSeq, ParkStep, req.reason, TokenName(t), now), k', x);
    } else {
      SameLog(k, k', x);
    }
  }

  lemma ResumeSynthetic(cfg: Config, k: Kernel, now: int, id: string, req: ResumeRequest, ok: bool, x: string)
    ensures NoNewNormal(Log(k, x), Log(Resume(cfg, k, now, id, req, ok).0, x))
  {
    hide NoNewNormal, ResumedRun;
    var (k', resp) := Resume(cfg, k, now, id, req, ok);
    if resp.Ok? {
      var t := req.token.value;
      PutSynthetic(k, id, ResumedRun(cfg, k.runs[id], now, t, req),
                   SyntheticStep(cfg, k.runs[id], t.stepId, req.incomingSeq, ResumeStep, req.reason, req.receiptRef, now), k', x);
    } else {
      SameLog(k, k', x);
    }
  }

  lemma CreateSynthetic(cfg: Config, k: Kernel, now: int, req: CreateRequest, fingerprintOk: bool, snapshotOk: bool, x: string)
    ensures NoNewNormal(Log(k, x), Log(Create(cfg, k, now, req, fingerprintOk, snapshotOk).0, x))
  {
    SameLog(k, Create(cfg, k, now, req, fingerprintOk, snapshotOk).0, x);
  }

  lemma MaintenanceSynthetic(cfg: Config, k: Kernel, now: int, x: string)
    ensures NoNewNormal(Log(k, x), Log(Maintenance(cfg, k, now), x))
  {
    var k' := Maintenance(cfg, k, now);
    assert Log(k', x) == Log(k, x) || Log(k', x) == [];
  }

  lemma OnlyAdvanceLogs(cfg: Config, k: Kernel, op: RunHistory.Op, x: string)
    requires !op.AdvanceOp?
    ensures NoNewNormal(Log(k, x), Log(RunHistory.Apply(cfg, k, op), x))
  {
    hide Create, Park, Resume, Abort, SweepOne, Maintenance, NoNewNormal;
    var k' := RunHistory.Apply(cfg, k, op);
    match op
    case CreateOp(now, req, fOk, sOk) => CreateSynthetic(cfg, k, now, req, fOk, sOk, x);
    case ParkOp(now, id, req, ok) => ParkSynthetic(cfg, k, now, id, req, ok, x);
    case ResumeOp(now, id, req, ok) => ResumeSynthetic(cfg, k, now, id, req, ok, x);
    case AbortOp(now, id, reason, ok) => AbortSynthetic(cfg, k, now, id, reason, ok, x);
    case FlagOp(id, security, resource) => SameLog(k, k', x);
    case VisitOp(w, now, id, ok) => VisitSynthetic(cfg, w, k, now, id, ok, x);
    case MaintainOp(now) => MaintenanceSynthetic(cfg, k, now, x);
  }

  /** The advance of run `id` was let through its gate and its obligations, and logged `s`. */
  ghost predicate LetThrough(id: string, req: AdvanceRequest, port: PortAnswers, tags: map<TagKey, string>, s: Step) {
    && GateError(id, req, port).None?
    && EnforceAll(req, port.ref.value, tags).1.None?
    && s.stepId == req.stepId && s.seqId == req.incomingSeq
    && s.content.NormalContent? && s.content.decisionHash == req.decisionHash
    && req.decisionId != "" && req.decisionHash != ""
  }

  /** The only step an advance may log on run `x`. */
  ghost predicate Logs(cfg: Config, k: Kernel, k': Kernel, now: int, id: string, req: AdvanceRequest, port: PortAnswers, x: string) {
    || Log(k', x) == Log(k, x)
    || (&& x == id && id in k.runs
        && Log(k', x) == Log(k, x) + [AdvanceStep(cfg, k.runs[id], now, req)]
        && LetThrough(id, req, port, k.runs[id].view.tags, AdvanceStep(cfg, k.runs[id], now, req)))
  }

  lemma SetRunLogs(cfg: Config, k: Kernel, r: Run, now: int, id: string, req: AdvanceRequest, port: PortAnswers, x: string)
    ensures Logs(cfg, k, SetRun(k, id, r), now, id, req, port, x)
  {
    assert Log(SetRun(k, id, r), x) == Log(k, x);
  }

  lemma AppendLogs(cfg: Config, k: Kernel, r: Run, next: RunState, now: int, id: string, req: AdvanceRequest, port: PortAnswers, x: string)
    requires id in k.runs && GateError(id, req, port).None? && EnforceAll(req, port.ref.value, k.runs[id].view.tags).1.None?
    requires req.decisionId != "" && req.decisionHash != "" && r.view.lastHash == k.runs[id].view.lastHash
    ensures Logs(cfg, k, AdvanceAppend(cfg, k, now, id, r, req, next), now, id, req, port, x)
  {
    hide GateError, EnforceAll, AdvancedRun;
    assert AdvanceStep(cfg, r, now, req) == AdvanceStep(cfg, k.runs[id], now, req);
    var k' := AdvanceAppend(cfg, k, now, id, r, req, next);
    assert k'.logs == k.logs[id := Log(k, id) + [AdvanceStep(cfg, r, now, req)]];
  }

  lemma AdvanceGatedLogs(cfg: Config, k: Kernel, now: int, id: string, req: AdvanceRequest, port: PortAnswers, ok: bool, x: string)
    requires id in k.runs && GateError(id, req, port).None? && req.decisionId != "" && req.decisionHash != ""
    ensures Logs(cfg, k, AdvanceGated(cfg, k, now, id, req, port.ref.value, ok).0, now, id, req, port, x)
  {
    hide Logs, Hold, GateError, EnforceAll, AllowedTransition, AdvanceAppend;
    assert port.ref.Some? by { GateHasReference(id, req, port); }
    var r := k.runs[id];
    var r1 := r.(view := r.view.(tags := EnforceAll(req, port.ref.value, r.view.tags).0));
    SetRunLogs(cfg, k, r1, now, id, req, port, x);
    SetRunLogs(cfg, k, Hold(r1, now), now, id, req, port, x);
    if EnforceAll(req, port.ref.value, r.view.tags).1.None? && Target(req.next).Some? {
      AppendLogs(cfg, k, r1, Target(req.next).value, now, id, req, port, x);
    }
  }

  lemma GateHasReference(id: string, req: AdvanceRequest, port: PortAnswers)
    requires GateError(id, req, port).None?
    ensures port.ref.Some?
  {
  }

  lemma AdvanceLogs(cfg: Config, k: Kernel, now: int, id: string, req: AdvanceRequest, port: PortAnswers, ok: bool, x: string)
    ensures Logs(cfg, k, Advance(cfg, k, now, id, req, port, ok).0, now, id, req, port, x)
  {
    hide Hold, GateError, AdvanceGated, LetThrough;
    if id in k.runs {
      SetRunLogs(cfg, k, Hold(k.runs[id], now), now, id, req, port, x);
      if GateError(id, req, port).None? && req.decisionId != "" && req.decisionHash != "" {
        GateHasReference(id, req, port);
        AdvanceGatedLogs(cfg, k, now, id, req, port, ok, x);
      }
    }
  }

  // ----- What an advance in flight has read, and when -----

  /** The states in which the three reads were made, as lengths of the history before them. */
  datatype Reads = Reads(reference: nat, confirmation: nat, receipt: nat)

  ghost predicate ReferenceRead(cfg: Setup, ops: seq<SysOp>, f: Flight, at: Reads) {
    at.reference < |ops| && f.ref == Some(Decisions.GetReference(After(cfg, ops[..at.reference]).d, f.req.decisionId))
  }

  ghost predicate ConfirmationRead(cfg: Setup, ops: seq<SysOp>, f: Flight, at: Reads) {
    at.reference <= at.confirmation < |ops| && f.confirmed == Some(Confirmation(After(cfg, ops[..at.confirmation]).d, f))
  }

  ghost predicate ReceiptRead(cfg: Setup, ops: seq<SysOp>, f: Flight, at: Reads, tenant: string) {
    && at.confirmation <= at.receipt < |ops| && ops[at.receipt].ReadReceipt?
    && f.receiptOk == Some(Receipt(After(cfg, ops[..at.receipt]).d, ops[at.receipt].clock, tenant, f))
  }

  ghost predicate HasRead(cfg: Setup, ops: seq<SysOp>, f: Flight, at: Reads, tenant: string) {
    && (f.ref.Some? ==> ReferenceRead(cfg, ops, f, at))
    && (f.confirmed.Some? ==> f.ref.Some? && ConfirmationRead(cfg, ops, f, at))
    && (f.receiptOk.Some? ==> f.confirmed.Some? && ReceiptRead(cfg, ops, f, at, tenant))
  }

  lemma HasReadLonger(cfg: Setup, ops: seq<SysOp>, op: SysOp, f: Flight, at: Reads, tenant: string)
    requires HasRead(cfg, ops, f, at, tenant)
    ensures HasRead(cfg, ops + [op], f, at, tenant)
  {
    hide After, Confirmation, Receipt;
    assert forall i :: 0 <= i <= |ops| ==> (ops + [op])[..i] == ops[..i];
  }

  /** While an advance is in flight the run kernel stands still. */
  lemma FlightHoldsLock(cfg: Setup, s: System, op: SysOp)
    requires s.flight.Some? && FlightStep(s, op).Some?
    ensures Take(cfg, s, op).k == s.k
    ensures FlightStep(s, op).value.id == s.flight.value.id && FlightStep(s, op).value.req == s.flight.value.req
  {
    hide RunHistory.Apply, PendingLifecycle.Apply, CallsStep, Confirmation, Receipt, Decisions.GetReference;
  }

  lemma {:induction false} FlightReads(cfg: Setup, ops: seq<SysOp>) returns (at: Reads)
    requires After(cfg, ops).flight.Some?
    ensures HasRead(cfg, ops, After(cfg, ops).flight.value, at, TenantOf(After(cfg, ops).k, After(cfg, ops).flight.value.id))
  {
    var init, op := ops[..|ops| - 1], ops[|ops| - 1];
    assert ops == init + [op];
    var s := After(cfg, init);
    assert FlightStep(s, op) == After(cfg, ops).flight;
    if s.flight.None? {
      at := Reads(0, 0, 0);
      assert FlightStep(s, op).value.ref.None?;
    } else {
      at := FlightReads(cfg, init);
      FlightHoldsLock(cfg, s, op);
      at := ReadsStep(cfg, init, op, at);
    }
  }

  lemma ReadsStep(cfg: Setup, ops: seq<SysOp>, op: SysOp, at0: Reads) returns (at: Reads)
    requires var s := After(cfg, ops);
      s.flight.Some? && FlightStep(s, op).Some? && HasRead(cfg, ops, s.flight.value, at0, TenantOf(s.k, s.flight.value.id))
    ensures var s := After(cfg, ops);
      HasRead(cfg, ops + [op], FlightStep(s, op).value, at, TenantOf(s.k, s.flight.value.id))
  {
    hide After, Decisions.GetReference, Decisions.ConfirmedFor, Decisions.ReceiptOk, Take;
    var s := After(cfg, ops);
    var f, tenant := s.flight.value, TenantOf(s.k, s.flight.value.id);
    HasReadLonger(cfg, ops, op, f, at0, tenant);
    assert (ops + [op])[..|ops|] == ops;
    at := at0;
    if op.ReadReference? && f.ref.None? { at := at0.(reference := |ops|); }
    if op.ReadConfirmation? && f.ref.Some? && f.confirmed.None? { at := at0.(confirmation := |ops|); }
    if op.ReadReceipt? && f.confirmed.Some? && f.receiptOk.None? { at := at0.(receipt := |ops|); }
  }

  // ----- The theorem -----

  /** The advance behind a logged step: its request, the reference it read, its three reads and its end. */
  datatype Witness = Witness(req: AdvanceRequest, ref: DecisionReference, at: Reads, end: nat)

  /**
   * The stored decision was executable, bound to nothing else, its hash is stable and the one logged, and the request met
   * every obligation it carries.
   */
  ghost predicate DecisionGood(d: Decisions.Decisions, id: string, s: Step, req: AdvanceRequest, ref: DecisionReference) {
    && req.decisionId in d.decisions
    && var stored := d.decisions[req.decisionId];
    && ref.attempt == stored.attempt && ref.phase == stored.phase
    && !stored.isFallback && (if stored.refKind.Some? then stored.refValid && stored.refKind.value == Stable else !("err_" <= stored.hash))
    && s.content.NormalContent? && stored.hash == s.content.decisionHash && stored.hash != ""
    && stored.value in {NoValue, Allow, RequireApproval}
    && (stored.runId == "" || stored.runId == id) && (stored.stepId == "" || stored.stepId == s.stepId)
    && (forall o :: o in stored.obligations ==> DutyMet(req, stored.phase, o))
  }

  /** The pending entry was confirmed for exactly this run, step, attempt and phase. */
  ghost predicate EntryGood(d: Decisions.Decisions, id: string, s: Step, req: AdvanceRequest, ref: DecisionReference) {
    && req.decisionId in d.pending
    && var p := d.pending[req.decisionId];
    p.status == Decisions.Confirmed && p.runId == id && p.stepId == s.stepId && p.attempt == ref.attempt && p.phase == ref.phase
  }

  /** A ticket bound to this run, step and tenant covered the use reported, within the quota its admission was shown, in time. */
  ghost predicate TicketGood(d: Decisions.Decisions, clock: int, tenant: string, id: string, s: Step, req: AdvanceRequest) {
    && req.ticketId in d.tickets && req.ticketId in d.quotas && req.used != map[]
    && var (t, quota) := (d.tickets[req.ticketId], d.quotas[req.ticketId]);
    && t.runId == id && t.stepId == s.stepId && t.tenant == tenant
    && (if req.receiptAt == 0 then clock else req.receiptAt) <= t.expiresAt
    && (forall r :: r in req.used ==>
          if r in t.allowed then req.used[r] <= t.allowed[r] <= Decisions.Amount(quota, r) else req.used[r] <= 0.0)
  }

  ghost predicate Passed(cfg: Setup, ops: seq<SysOp>, id: string, tenant: string, s: Step, w: Witness) {
    && w.at.reference <= w.at.confirmation <= w.at.receipt < w.end < |ops|
    && ops[w.at.receipt].ReadReceipt?
    && w.req.stepId == s.stepId && w.req.incomingSeq == s.seqId
    && DecisionGood(After(cfg, ops[..w.at.reference]).d, id, s, w.req, w.ref)
    && EntryGood(After(cfg, ops[..w.at.confirmation]).d, id, s, w.req, w.ref)
    && TicketGood(After(cfg, ops[..w.at.receipt]).d, ops[w.at.receipt].clock, tenant, id, s, w.req)
  }

  lemma PassedLonger(cfg: Setup, ops: seq<SysOp>, op: SysOp, id: string, tenant: string, s: Step, w: Witness)
    requires Passed(cfg, ops, id, tenant, s, w)
    ensures Passed(cfg, ops + [op], id, tenant, s, w)
  {
    hide After, DecisionGood, EntryGood, TicketGood;
    assert forall i :: 0 <= i <= |ops| ==> (ops + [op])[..i] == ops[..i];
  }

  lemma ReferenceIsGood(d: Decisions.Decisions, id: string, s: Step, req: AdvanceRequest, port: PortAnswers, tags: map<TagKey, string>)
    requires port.ref == Decisions.GetReference(d, req.decisionId) && LetThrough(id, req, port, tags, s)
    ensures port.ref.Some? && DecisionGood(d, id, s, req, port.ref.value)
  {
    hide DutyMet, EnforceAll;
    DutiesIff(req, port.ref.value, tags);
  }

  lemma EntryIsGood(d: Decisions.Decisions, id: string, s: Step, f: Flight, port: PortAnswers, tags: map<TagKey, string>)
    requires PendingLifecycle.Inv(d) && LetThrough(id, f.req, port, tags, s) && f.id == id
    requires f.ref == Some(port.ref) && port.confirmed == Confirmation(d, f)
    ensures port.ref.Some? && EntryGood(d, id, s, f.req, port.ref.value)
  {
    hide EnforceAll, PendingLifecycle.Inv;
    var ref := port.ref.value;
    PendingLifecycle.ConfirmedIsExact(d, f.req.decisionId, id, f.req.stepId, ref.attempt, ref.phase);
  }

  lemma TicketIsGood(d: Decisions.Decisions, clock: int, tenant: string, id: string, s: Step, f: Flight, port: PortAnswers, tags: map<TagKey, string>)
    requires PendingLifecycle.Inv(d) && LetThrough(id, f.req, port, tags, s) && f.id == id
    requires port.receiptOk == Receipt(d, clock, tenant, f)
    ensures TicketGood(d, clock, tenant, id, s, f.req)
  {
    hide EnforceAll, PendingLifecycle.EntryOk, PendingLifecycle.CasesOk;
    assert PendingLifecycle.TicketOk(d, f.req.ticketId);
  }

  /** The step that ends the history is an advance that logged `s`; its three reads are what the claim asks for. */
  lemma FinishPasses(cfg: Setup, ops: seq<SysOp>, op: SysOp, f: Flight, port: PortAnswers, tags: map<TagKey, string>, s: Step, tenant: string)
    returns (w: Witness)
    requires ValidConfig(cfg.run) && After(cfg, ops).flight == Some(f)
    requires f.ref == Some(port.ref) && f.confirmed == Some(port.confirmed) && f.receiptOk == Some(port.receiptOk)
    requires LetThrough(f.id, f.req, port, tags, s) && tenant == TenantOf(After(cfg, ops).k, f.id)
    ensures Passed(cfg, ops + [op], f.id, tenant, s, w)
  {
    var at := FlightReads(cfg, ops);
    hide After, LetThrough, Confirmation, Receipt, DecisionGood, EntryGood, TicketGood, Decisions.GetReference;
    assert forall i :: 0 <= i <= |ops| ==> (ops + [op])[..i] == ops[..i];
    ReferenceIsGood(After(cfg, ops[..at.reference]).d, f.id, s, f.req, port, tags);
    assert EntryGood(After(cfg, ops[..at.confirmation]).d, f.id, s, f.req, port.ref.value) by {
      JointInv(cfg, ops[..at.confirmation]);
      EntryIsGood(After(cfg, ops[..at.confirmation]).d, f.id, s, f, port, tags);
    }
    assert TicketGood(After(cfg, ops[..at.receipt]).d, ops[at.receipt].clock, tenant, f.id, s, f.req) by {
      JointInv(cfg, ops[..at.receipt]);
      TicketIsGood(After(cfg, ops[..at.receipt]).d, ops[at.receipt].clock, tenant, f.id, s, f, port, tags);
    }
    LetThroughFields(f.id, f.req, port, tags, s);
    w := Witness(f.req, port.ref.value, at, |ops|);
  }

  lemma LetThroughFields(id: string, req: AdvanceRequest, port: PortAnswers, tags: map<TagKey, string>, s: Step)
    requires LetThrough(id, req, port, tags, s)
    ensures s.stepId == req.stepId && s.seqId == req.incomingSeq
  {
    hide GateError, EnforceAll;
  }

  /**
   * In any run of the joint system, each normal step of each log was logged by an advance that had read, in this order,
   * a stored decision, a confirmed entry and a ticket that all speak for it.
   */
  lemma {:induction false} EveryStepPassed(cfg: Setup, ops: seq<SysOp>, id: string, n: nat) returns (w: Witness)
    requires ValidConfig(cfg.run) && id in After(cfg, ops).k.runs
    requires n < |Log(After(cfg, ops).k, id)| && Log(After(cfg, ops).k, id)[n].content.NormalContent?
    ensures Passed(cfg, ops, id, After(cfg, ops).k.runs[id].view.tenant, Log(After(cfg, ops).k, id)[n], w)
  {
    var init, op := ops[..|ops| - 1], ops[|ops| - 1];
    assert ops == init + [op];
    var before, now := After(cfg, init), After(cfg, ops);
    var s := Log(now.k, id)[n];
    JointInv(cfg, init);
    assert now == Take(cfg, before, op);
    StepOrigin(cfg, before, op, id, n);
    hide After, Take, RunInvariants.Inv, Passed;
    if n < |Log(before.k, id)| && Log(before.k, id)[n] == s {
      w := EveryStepPassed(cfg, init, id, n);
      PassedLonger(cfg, init, op, id, now.k.runs[id].view.tenant, s, w);
    } else {
      var f := before.flight.value;
      var port := PortAnswers(f.ref.value, f.confirmed.value, f.receiptOk.value);
      w := FinishPasses(cfg, init, op, f, port, before.k.runs[id].view.tags, s, now.k.runs[id].view.tenant);
    }
  }

  /** A normal step of a log after one step of the system was there before, or an advance just logged it. */
  lemma StepOrigin(cfg: Setup, before: System, op: SysOp, id: string, n: nat)
    requires ValidConfig(cfg.run) && RunInvariants.Inv(cfg.run, before.k)
    requires var k' := Take(cfg, before, op).k;
      id in k'.runs && n < |Log(k', id)| && Log(k', id)[n].content.NormalContent?
    ensures var k' := Take(cfg, before, op).k;
      && id in before.k.runs && k'.runs[id].view.tenant == before.k.runs[id].view.tenant
      && (|| (n < |Log(before.k, id)| && Log(before.k, id)[n] == Log(k', id)[n])
          || (&& before.flight.Some?
              && var f := before.flight.value;
              && f.id == id && f.ref.Some? && f.confirmed.Some? && f.receiptOk.Some?
              && LetThrough(id, f.req, PortAnswers(f.ref.value, f.confirmed.value, f.receiptOk.value),
                            before.k.runs[id].view.tags, Log(k', id)[n])))
  {
    hide RunInvariants.RunOk, RunInvariants.NamesOk, RunInvariants.CachesOk, LetThrough, DecisionEffect, FlightStep, CallsStep, RunHistory.Apply, PendingLifecycle.Apply;
    hide RunHistory.EvolvesIn;
    var e := RunEffect(cfg, before, op);
    var k' := Take(cfg, before, op).k;
    if e.Some? {
      if !e.value.AdvanceOp? {
        OnlyAdvanceLogs(cfg.run, before.k, e.value, id);
      } else {
        assert k' == Advance(cfg.run, before.k, e.value.now, e.value.id, e.value.advance, e.value.port, e.value.hashOk).0 by { ApplyIsAdvance(cfg.run, before.k, e.value); }
        AdvanceLogs(cfg.run, before.k, e.value.now, e.value.id, e.value.advance, e.value.port, e.value.hashOk, id);
        hide Advance;
      }
      assert id in before.k.runs;
      RunHistory.ApplyEvolves(cfg.run, before.k, e.value, id);
      TenantStays(before.k, k', id);
    }
  }

  lemma ApplyIsAdvance(cfg: Config, k: Kernel, op: RunHistory.Op)
    requires op.AdvanceOp?
    ensures RunHistory.Apply(cfg, k, op) == Advance(cfg, k, op.now, op.id, op.advance, op.port, op.hashOk).0
  {
    hide Advance, Create, Park, Resume, Abort, SweepOne, Maintenance, FlagRisk;
  }

  lemma TenantStays(k: Kernel, k': Kernel, id: string)
    requires RunHistory.EvolvesIn(k, k', id) && id in k'.runs
    ensures k'.runs[id].view.tenant == k.runs[id].view.tenant
  {
    hide RunInvariants.LastSeq, AllowedTransition;
  }

  // ----- The decision behind a step -----

  /** The operation stores this decision under this id. */
  ghost predicate Stores(op: SysOp, id: string, stored: Decisions.StoredDecision) {
    && op.DecisionStep?
    && (op.decision.EvaluateOp? || op.decision.RecordOp?)
    && op.decision.id == id && op.decision.stored == stored
  }

  /** An operation that stores a decision stores a value with it. */
  ghost predicate StoresValue(op: SysOp) {
    op.DecisionStep? && (op.decision.EvaluateOp? || op.decision.RecordOp?) ==> op.decision.stored.value != NoValue
  }

  lemma StoredOrigin(cfg: Setup, s: System, op: SysOp, id: string)
    requires id in Take(cfg, s, op).d.decisions
    ensures var stored := Take(cfg, s, op).d.decisions[id];
      Stores(op, id, stored) || (id in s.d.decisions && s.d.decisions[id] == stored)
  {
    hide RunEffect, FlightStep, CallsStep, RunHistory.Apply, PendingLifecycle.Apply;
    var e := DecisionEffect(s, op);
    if e.Some? { PendingLifecycle.StoredFrom(cfg.decision, s.d, e.value, id); }
  }

  /** Every stored decision was stored by an operation of the history. */
  lemma {:induction false} StoredBy(cfg: Setup, ops: seq<SysOp>, id: string) returns (n: nat)
    requires id in After(cfg, ops).d.decisions
    ensures n < |ops| && Stores(ops[n], id, After(cfg, ops).d.decisions[id])
  {
    var init, op := ops[..|ops| - 1], ops[|ops| - 1];
    var s := After(cfg, init);
    assert After(cfg, ops) == Take(cfg, s, op);
    StoredOrigin(cfg, s, op, id);
    hide Take, Stores;
    if Stores(op, id, After(cfg, ops).d.decisions[id]) {
      n := |init|;
    } else {
      n := StoredBy(cfg, init, id);
    }
  }

  /**
   * The decision read before a step was logged goes back to one operation that stored it; it was to allow, or to require an
   * approval, if and only if that operation stored a value. So it was whenever no operation stores a blank one.
   */
  lemma EveryStepAllowed(cfg: Setup, ops: seq<SysOp>, id: string, n: nat) returns (w: Witness, m: nat)
    requires ValidConfig(cfg.run) && id in After(cfg, ops).k.runs
    requires n < |Log(After(cfg, ops).k, id)| && Log(After(cfg, ops).k, id)[n].content.NormalContent?
    ensures Passed(cfg, ops, id, After(cfg, ops).k.runs[id].view.tenant, Log(After(cfg, ops).k, id)[n], w)
    ensures m < w.at.reference && Stores(ops[m], w.req.decisionId, After(cfg, ops[..w.at.reference]).d.decisions[w.req.decisionId])
    ensures var value := After(cfg, ops[..w.at.reference]).d.decisions[w.req.decisionId].value;
      value in {Allow, RequireApproval} <==> StoresValue(ops[m])
    ensures (forall i :: 0 <= i < |ops| ==> StoresValue(ops[i])) ==>
      After(cfg, ops[..w.at.reference]).d.decisions[w.req.decisionId].value in {Allow, RequireApproval}
  {
    w := EveryStepPassed(cfg, ops, id, n);
    hide After, EntryGood, TicketGood, DutyMet;
    m := StoredBy(cfg, ops[..w.at.reference], w.req.decisionId);
  }
}
