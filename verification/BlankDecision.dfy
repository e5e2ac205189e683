/**
 * What the execution gate would let through if a decision were ever stored without a value: a history in which a confirmed
 * decision is overwritten by a blank one and the step is logged under it.
 */
module BlankDecision {
  import opened Outcomes
  import opened RunTypes
  import opened RunSpec
  import RunHistory
  import Decisions = DecisionSpec
  import PendingLifecycle
  import opened JointSystem

  ghost predicate Leads(cfg: Setup, s: System, op: SysOp, s': System) {
    Take(cfg, s, op) == s'
  }

  lemma OneMore(cfg: Setup, ops: seq<SysOp>, s: System, op: SysOp, s': System)
    requires After(cfg, ops) == s && Leads(cfg, s, op, s')
    ensures After(cfg, ops + [op]) == s'
  {
    hide Take;
    assert (ops + [op])[..|ops|] == ops;
  }

  const CONTENT := CreateContent("r", "tenant", "w", "v", Low, "", SnapshotInput("", "", "", "", "p"))

  const CREATE := CreateRequest("r", "tenant", "w", "v", Some(Low), "", SnapshotInput("", "", "", "", "p"))

  const ADVANCE := AdvanceRequest(1, "s", "v", "k", "d", "h", None, "t", map["cpu" := 0.0], 0, {}, 1, "in", "out", DefaultState)

  function Stored(id: string, value: DecisionValue): Decisions.StoredDecision {
    Decisions.StoredDecision(id, "s", 1, PreTool, value, [], "h", false, true, None, 0)
  }

  function Entry(id: string, status: Decisions.PendingStatus): Decisions.PendingEntry {
    Decisions.NewEntry(id, "s", 1, PreTool, 0).(status := status)
  }

  function Writing(id: string, value: DecisionValue, status: Decisions.PendingStatus): Decisions.Decisions {
    Decisions.NO_DECISIONS.(pending := map["d" := Entry(id, status)], decisions := map["d" := Stored(id, value)])
  }

  /** The decision kernel when the blank is stored and the ticket admitted. */
  function Admitted(id: string): Decisions.Decisions {
    Writing(id, NoValue, Decisions.Confirmed).(
      tickets := map["t" := Decisions.Ticket(id, "s", "tenant", map[], 0)], quotas := map["t" := map[]])
  }

  /** One run, nothing in flight, no calls. */
  function With(cfg: Setup, d: Decisions.Decisions): System {
    System(Admit(cfg.run, EMPTY_KERNEL, 0, CONTENT), d, None, [])
  }

  function Name(cfg: Setup): string {
    cfg.run.runName(cfg.run.fingerprint(CONTENT), 1)
  }

  function CreateRun(): SysOp {
    RunStep(RunHistory.CreateOp(0, CREATE, true, true))
  }

  function Decide(id: string, value: DecisionValue): SysOp {
    DecisionStep(PendingLifecycle.EvaluateOp("d", Stored(id, value), 0))
  }

  function ConfirmIt(id: string): SysOp {
    DecisionStep(PendingLifecycle.ConfirmOp(Decisions.ConfirmRequest("d", id, "s", 1, PreTool, None, true), 0))
  }

  function AdmitTicket(cfg: Setup, id: string): SysOp {
    DecisionStep(PendingLifecycle.AdmitOp("t", id, "s", "tenant", map[], map[], -cfg.decision.ticketTTL))
  }

  lemma Creates(cfg: Setup)
    ensures Leads(cfg, START, CreateRun(), With(cfg, Decisions.NO_DECISIONS))
  {
  }

  lemma Writes(cfg: Setup, id: string)
    ensures Leads(cfg, With(cfg, Decisions.NO_DECISIONS), Decide(id, Allow),
                  With(cfg, Writing(id, Allow, Decisions.Pending)))
    ensures Leads(cfg, With(cfg, Writing(id, Allow, Decisions.Pending)), ConfirmIt(id),
                  With(cfg, Writing(id, Allow, Decisions.Confirmed)))
    ensures Leads(cfg, With(cfg, Writing(id, Allow, Decisions.Confirmed)), Decide(id, NoValue),
                  With(cfg, Writing(id, NoValue, Decisions.Confirmed)))
  {
    hide Admit, RunHistory.Apply;
  }

  lemma Admits(cfg: Setup, id: string)
    ensures Leads(cfg, With(cfg, Writing(id, NoValue, Decisions.Confirmed)), AdmitTicket(cfg, id),
                  With(cfg, Admitted(id)))
  {
    hide Admit, RunHistory.Apply;
  }

  function InFlight(cfg: Setup, ref: Option<Option<DecisionReference>>, confirmed: Option<bool>, receiptOk: Option<bool>): System {
    With(cfg, Admitted(Name(cfg))).(flight := Some(Flight(Name(cfg), ADVANCE, ref, confirmed, receiptOk)))
  }

  function Answer(cfg: Setup): DecisionReference {
    Decisions.Reference("d", Stored(Name(cfg), NoValue))
  }

  lemma ReadsReference(cfg: Setup)
    ensures Leads(cfg, With(cfg, Admitted(Name(cfg))), BeginAdvance(Name(cfg), ADVANCE), InFlight(cfg, None, None, None))
    ensures Leads(cfg, InFlight(cfg, None, None, None), ReadReference, InFlight(cfg, Some(Some(Answer(cfg))), None, None))
  {
    hide RunHistory.Apply, PendingLifecycle.Apply, Admit, Decisions.Reference;
  }

  lemma ReadsConfirmation(cfg: Setup)
    ensures Leads(cfg, InFlight(cfg, Some(Some(Answer(cfg))), None, None), ReadConfirmation, InFlight(cfg, Some(Some(Answer(cfg))), Some(true), None))
  {
    hide RunHistory.Apply, PendingLifecycle.Apply, Admit;
  }

  lemma ReadsReceipt(cfg: Setup)
    requires Name(cfg) != ""
    ensures Leads(cfg, InFlight(cfg, Some(Some(Answer(cfg))), Some(true), None), ReadReceipt(0),
                  InFlight(cfg, Some(Some(Answer(cfg))), Some(true), Some(true)))
  {
    var s := InFlight(cfg, Some(Some(Answer(cfg))), Some(true), None);
    assert TenantOf(s.k, Name(cfg)) == "tenant";
    hide RunHistory.Apply, PendingLifecycle.Apply, Admit, Answer;
    assert ADVANCE.used != map[] by { assert "cpu" in ADVANCE.used; }
    assert Receipt(s.d, 0, "tenant", s.flight.value);
  }

  lemma ReadsBlank(cfg: Setup)
    ensures var s := InFlight(cfg, None, None, None);
      s.flight.Some? && s.flight.value.req.decisionId in s.d.decisions && s.d.decisions[s.flight.value.req.decisionId].value == NoValue
  {
    hide Admit;
  }

  lemma AdvanceLogsOne(cfg: Setup, port: PortAnswers)
    requires port.ref == Some(Answer(cfg)) && GateError(Name(cfg), ADVANCE, port).None?
    ensures var k := Advance(cfg.run, Admit(cfg.run, EMPTY_KERNEL, 0, CONTENT), 0, Name(cfg), ADVANCE, port, true).0;
      Name(cfg) in k.runs && |Log(k, Name(cfg))| == 1 && Log(k, Name(cfg))[0].content.NormalContent?
  {
    hide GateError;
  }

  lemma Finishes(cfg: Setup)
    ensures var s := InFlight(cfg, Some(Some(Answer(cfg))), Some(true), Some(true));
      Leads(cfg, s, FinishAdvance(0, true), Take(cfg, s, FinishAdvance(0, true)))
    ensures var s := Take(cfg, InFlight(cfg, Some(Some(Answer(cfg))), Some(true), Some(true)), FinishAdvance(0, true));
      Name(cfg) in s.k.runs && |Log(s.k, Name(cfg))| == 1 && Log(s.k, Name(cfg))[0].content.NormalContent?
  {
    var s := InFlight(cfg, Some(Some(Answer(cfg))), Some(true), Some(true));
    var port := PortAnswers(Some(Answer(cfg)), true, true);
    assert GateError(Name(cfg), ADVANCE, port).None?;
    AdvanceLogsOne(cfg, port);
    hide PendingLifecycle.Apply, Admit, Answer, Advance, Log;
  }

  lemma Kinds(cfg: Setup, id: string)
    ensures After(cfg, []) == START && CreateRun().RunStep? && AdmitTicket(cfg, id).DecisionStep? && ConfirmIt(id).DecisionStep?
    ensures forall value :: Decide(id, value).DecisionStep?
  {
  }

  /** The run exists, its decision is confirmed and then blank, and its ticket is admitted. */
  lemma Prepared(cfg: Setup) returns (ops: seq<SysOp>)
    ensures After(cfg, ops) == With(cfg, Admitted(Name(cfg)))
    ensures forall i :: 0 <= i < |ops| ==> !ops[i].ReadReference?
  {
    hide *;
    var id := Name(cfg);
    Kinds(cfg, id);
    Creates(cfg);
    Writes(cfg, id);
    Admits(cfg, id);
    OneMore(cfg, [], START, CreateRun(), With(cfg, Decisions.NO_DECISIONS));
    ops := [] + [CreateRun()];
    OneMore(cfg, ops, With(cfg, Decisions.NO_DECISIONS), Decide(id, Allow), With(cfg, Writing(id, Allow, Decisions.Pending)));
    ops := ops + [Decide(id, Allow)];
    OneMore(cfg, ops, With(cfg, Writing(id, Allow, Decisions.Pending)), ConfirmIt(id), With(cfg, Writing(id, Allow, Decisions.Confirmed)));
    ops := ops + [ConfirmIt(id)];
    OneMore(cfg, ops, With(cfg, Writing(id, Allow, Decisions.Confirmed)), Decide(id, NoValue), With(cfg, Writing(id, NoValue, Decisions.Confirmed)));
    ops := ops + [Decide(id, NoValue)];
    OneMore(cfg, ops, With(cfg, Writing(id, NoValue, Decisions.Confirmed)), AdmitTicket(cfg, id), With(cfg, Admitted(id)));
    ops := ops + [AdmitTicket(cfg, id)];
  }

  /**
   * With a non-blank run name: the only advance of a history reads a decision without a value, and its step is logged.
   */
  lemma BlankGetsLogged(cfg: Setup) returns (ops: seq<SysOp>, at: nat)
    requires Name(cfg) != ""
    ensures at < |ops| && ops[at] == ReadReference && (forall i :: 0 <= i < |ops| && ops[i].ReadReference? ==> i == at)
    ensures var s := After(cfg, ops[..at]);
      && s.flight.Some? && s.flight.value.req.decisionId in s.d.decisions
      && s.d.decisions[s.flight.value.req.decisionId].value == NoValue
    ensures var k := After(cfg, ops).k;
      Name(cfg) in k.runs && |Log(k, Name(cfg))| == 1 && Log(k, Name(cfg))[0].content.NormalContent?
  {
    ops := Prepared(cfg);
    hide *;
    ReadsReference(cfg);
    ReadsConfirmation(cfg);
    ReadsReceipt(cfg);
    ReadsBlank(cfg);
    Finishes(cfg);
    var ref, yes := Some(Some(Answer(cfg))), Some(true);
    OneMore(cfg, ops, With(cfg, Admitted(Name(cfg))), BeginAdvance(Name(cfg), ADVANCE), InFlight(cfg, None, None, None));
    ops := ops + [BeginAdvance(Name(cfg), ADVANCE)];
    at := |ops|;
    var before := ops;
    OneMore(cfg, ops, InFlight(cfg, None, None, None), ReadReference, InFlight(cfg, ref, None, None));
    ops := ops + [ReadReference];
    OneMore(cfg, ops, InFlight(cfg, ref, None, None), ReadConfirmation, InFlight(cfg, ref, yes, None));
    ops := ops + [ReadConfirmation];
    OneMore(cfg, ops, InFlight(cfg, ref, yes, None), ReadReceipt(0), InFlight(cfg, ref, yes, yes));
    ops := ops + [ReadReceipt(0)];
    OneMore(cfg, ops, InFlight(cfg, ref, yes, yes), FinishAdvance(0, true), Take(cfg, InFlight(cfg, ref, yes, yes), FinishAdvance(0, true)));
    ops := ops + [FinishAdvance(0, true)];
    assert ops[..at] == before;
  }
}
