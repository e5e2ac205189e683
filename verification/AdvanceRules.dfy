/**
 * When an advance logs its step and what it then leaves behind, told from the run, the request and the answers of the
 * decision kernel.
 */
module AdvanceRules {
  import opened Outcomes
  import opened RunTypes
  import opened RunSpec
  import opened RunInvariants
  import RunHistory
  import opened Checks

  // ----- Obligations -----

  /** A pre-tool decision, or one without a phase, takes pre-context and pre-tool duties; a pre-context one its own only. */
  predicate PhaseFits(decision: Phase, duty: Phase) {
    || (decision in {NoPhase, PreTool} && duty in {NoPhase, PreContext, PreTool})
    || (decision == PreContext && duty in {NoPhase, PreContext})
  }

  /** The request does what the obligation of a decision of that phase asks. */
  predicate DutyMet(req: AdvanceRequest, phase: Phase, o: Obligation) {
    o.duty == BlankDuty ||
    (&& PhaseFits(phase, o.phase)
     && o.duty != DenyExecution && o.duty != Unsupported
     && (o.duty.LimitParam? ==>
           && o.duty.limit.Some? && o.duty.target != UnknownTarget
           && (o.duty.target == MaxInputLen ==> |req.inputHash| <= o.duty.limit.value)
           && (o.duty.target == MaxOutputLen ==> |req.outputHash| <= o.duty.limit.value)
           && (o.duty.target == MaxSeq ==> req.incomingSeq <= o.duty.limit.value))
     && (o.duty.RequireTemplate? ==> o.duty.template == "" || o.duty.template in req.templates))
  }

  lemma DutyMetIff(req: AdvanceRequest, phase: Phase, o: Obligation)
    ensures DutyError(req, PhaseOr(phase, PreTool), o).None? <==> DutyMet(req, phase, o)
  {
  }

  predicate DutiesMet(req: AdvanceRequest, ref: DecisionReference) {
    forall i :: 0 <= i < |ref.obligations| ==> DutyMet(req, ref.phase, ref.obligations[i])
  }

  lemma {:induction false} EnforceIff(req: AdvanceRequest, phase: Phase, os: seq<Obligation>, i: nat, tags: map<TagKey, string>)
    requires i <= |os|
    ensures Enforce(req, PhaseOr(phase, PreTool), os, i, tags).1.None? <==> forall j :: i <= j < |os| ==> DutyMet(req, phase, os[j])
    decreases |os| - i
  {
    hide DutyError, DutyMet;
    if i < |os| {
      DutyMetIff(req, phase, os[i]);
      match os[i].duty
      case AttachTag(t, v) => EnforceIff(req, phase, os, i + 1, tags[(if t == "" then PositionalTag(i) else NamedTag(t)) := v]);
      case _ => EnforceIff(req, phase, os, i + 1, tags);
    }
  }

  /** An advance passes its obligations if and only if the request meets every one of them. */
  lemma DutiesIff(req: AdvanceRequest, ref: DecisionReference, tags: map<TagKey, string>)
    ensures EnforceAll(req, ref, tags).1.None? <==> DutiesMet(req, ref)
  {
    hide Enforce, DutyMet;
    EnforceIff(req, ref.phase, ref.obligations, 0, tags);
  }

  /** The tag obligation `i` attaches, if it attaches one; a tag without a name is named by its place. */
  function TagAt(os: seq<Obligation>, i: nat): Option<TagKey>
    requires i < |os|
  {
    if !os[i].duty.AttachTag? then None else Some(if os[i].duty.tag == "" then PositionalTag(i) else NamedTag(os[i].duty.tag))
  }

  /** What the last of the first `n` obligations that attach the tag gives it. */
  function LastValue(os: seq<Obligation>, n: nat, t: TagKey): Option<string>
    requires n <= |os|
  {
    if n == 0 then None
    else if TagAt(os, n - 1) == Some(t) then Some(os[n - 1].duty.value)
    else LastValue(os, n - 1, t)
  }

  function ValueOf(tags: map<TagKey, string>, t: TagKey): Option<string> {
    if t in tags then Some(tags[t]) else None
  }

  /** Each tag is what the first `n` obligations made it, and the others are as they were. */
  ghost predicate Tagged(os: seq<Obligation>, n: nat, tags: map<TagKey, string>, tags': map<TagKey, string>)
    requires n <= |os|
  {
    forall t :: ValueOf(tags', t) == if LastValue(os, n, t).Some? then LastValue(os, n, t) else ValueOf(tags, t)
  }

  lemma {:induction false} EnforceTags(req: AdvanceRequest, phase: Phase, os: seq<Obligation>, i: nat, tags0: map<TagKey, string>, tags: map<TagKey, string>)
    requires i <= |os| && Tagged(os, i, tags0, tags) && Enforce(req, phase, os, i, tags).1.None?
    ensures Tagged(os, |os|, tags0, Enforce(req, phase, os, i, tags).0)
    decreases |os| - i
  {
    hide DutyError;
    if i < |os| {
      var tags1 := if TagAt(os, i).Some? then tags[TagAt(os, i).value := os[i].duty.value] else tags;
      assert Enforce(req, phase, os, i, tags) == Enforce(req, phase, os, i + 1, tags1);
      hide Enforce;
      forall t ensures ValueOf(tags1, t) == if LastValue(os, i + 1, t).Some? then LastValue(os, i + 1, t) else ValueOf(tags0, t) {
        assert ValueOf(tags, t) == if LastValue(os, i, t).Some? then LastValue(os, i, t) else ValueOf(tags0, t);
      }
      EnforceTags(req, phase, os, i + 1, tags0, tags1);
    }
  }

  // ----- The gate -----

  /** The decision read speaks for this run, step and request, is confirmed and paid for. */
  ghost predicate GateOpen(id: string, req: AdvanceRequest, port: PortAnswers) {
    && port.ref.Some? && port.confirmed && port.receiptOk
    && var ref := port.ref.value;
    && ref.hashValid && ref.hashKind == Stable && ref.hash == req.decisionHash
    && ref.runId in {"", id} && ref.stepId in {"", req.stepId}
    && req.decisionHashKind in {None, Some(Stable)}
    && ref.decision in {NoValue, Allow, RequireApproval}
  }

  lemma GateIff(id: string, req: AdvanceRequest, port: PortAnswers)
    ensures GateError(id, req, port).None? <==> GateOpen(id, req, port)
  {
  }

  // ----- The advance -----

  /** The states an advance can leave, and where it can lead from each. */
  predicate Reaches(from: RunState, next: RunState) {
    match from
    case Running => true
    case Reconciling => next in {Reconciling, Running, Completed, Failed, ForceReviewRequired, ForceAbort}
    case SafeguardHold => next in {SafeguardHold, ForceReviewRequired, ForceAbort, Aborted}
    case ForceReviewRequired => next == ForceReviewRequired
    case _ => false
  }

  /** No state named means RUNNING. */
  function NextOf(next: NextState): Option<RunState> {
    if next.NamedState? then Some(next.state) else if next.DefaultState? then Some(Running) else None
  }

  /** The request is a new one for a run in a state that can advance, at the version it names. */
  ghost predicate Timely(k: Kernel, id: string, req: AdvanceRequest) {
    && id in k.runs
    && k.runs[id].view.state in {Running, Reconciling, SafeguardHold, ForceReviewRequired}
    && req.stepId != "" && req.stepVersion != "" && req.idempotencyKey != ""
    && IdemKey(id, req.stepId, req.stepVersion, req.idempotencyKey) !in k.idem
    && req.expectedVersion == k.runs[id].view.version
  }

  ghost predicate Replays(k: Kernel, id: string, req: AdvanceRequest) {
    && id in k.runs
    && k.runs[id].view.state in {Running, Reconciling, SafeguardHold, ForceReviewRequired}
    && req.stepId != "" && req.stepVersion != "" && req.idempotencyKey != ""
    && IdemKey(id, req.stepId, req.stepVersion, req.idempotencyKey) in k.idem
  }

  /** What the request asks for can be logged. */
  ghost predicate Loggable(k: Kernel, id: string, req: AdvanceRequest)
    requires id in k.runs
  {
    && NextOf(req.next).Some? && Reaches(k.runs[id].view.state, NextOf(req.next).value)
    && req.inputHash != "" && req.outputHash != ""
  }

  /** Everything an advance has to meet. */
  ghost predicate Admissible(k: Kernel, id: string, req: AdvanceRequest, port: PortAnswers, hashOk: bool) {
    && Timely(k, id, req)
    && req.incomingSeq > k.runs[id].view.seqId
    && req.decisionId != "" && req.decisionHash != ""
    && GateOpen(id, req, port) && DutiesMet(req, port.ref.value)
    && Loggable(k, id, req) && hashOk
  }

  /** Where a refusal is one of the gate, and not just an answer. */
  ghost predicate GateFails(k: Kernel, id: string, req: AdvanceRequest, port: PortAnswers, hashOk: bool) {
    && Timely(k, id, req)
    && (|| req.incomingSeq <= k.runs[id].view.seqId
        || (&& req.decisionId != "" && req.decisionHash != ""
            && (!GateOpen(id, req, port) || !DutiesMet(req, port.ref.value) || (Loggable(k, id, req) && !hashOk))))
  }

  predicate Ends(next: RunState) {
    next in {Completed, Failed, ForceAbort, Aborted}
  }

  function ContentFor(v: RunView, req: AdvanceRequest): StepContent {
    NormalContent(v.lastHash, req.decisionHash, req.inputHash, req.outputHash)
  }

  /** The root is the digest, if that is one, and its version counts its changes. */
  predicate Anchored(v: RunView, digest: string, v': RunView) {
    digest != "" ==> v'.root == digest && v'.rootVersion == v.rootVersion + if v.root == digest then 0 else 1
  }

  /** The view of a run that has advanced, but for its tags and its root. */
  ghost predicate ViewAdvanced(cfg: Config, v: RunView, now: int, req: AdvanceRequest, next: RunState, v': RunView) {
    && v'.state == next && v'.version == v.version + 1 && v'.seqId == req.incomingSeq && v'.lastHash == cfg.stepHash(ContentFor(v, req))
    && v'.activeStep == req.stepId && v'.updatedAt == v'.progressAt == now
    && v'.reason == (if Ends(next) then "advance_terminal_state" else "") && v'.source == (if Ends(next) then "advance" else "")
    && (if next in {Failed, SafeguardHold} then v'.root == v.root && v'.rootType == v.rootType && v'.anchors == v.anchors && v'.rootVersion == v.rootVersion
        else Anchored(v, v'.lastHash, v'))
    && v'.runId == v.runId && v'.tenant == v.tenant && v'.risk == v.risk && v'.createdAt == v.createdAt && v'.snapshotHash == v.snapshotHash
  }

  /** The step logged, the run after it, the answer and what is remembered of it. */
  ghost predicate Advanced(cfg: Config, k: Kernel, now: int, id: string, req: AdvanceRequest, next: RunState, k': Kernel, resp: AdvanceResponse)
    requires id in k.runs
  {
    && id in k'.runs
    && var (v, v') := (k.runs[id].view, k'.runs[id].view);
    && Log(k', id) == Log(k, id) + [Step(req.stepId, req.incomingSeq, ContentFor(v, req), cfg.stepHash(ContentFor(v, req)), now)]
    && ViewAdvanced(cfg, v, now, req, next, v') && k'.runs[id].noProgressScans == 0
    && resp == AdvanceResponse(v'.state, v'.version, v'.lastHash, v'.root, v'.rootVersion, v'.rootType, v'.seqId)
    && (if Ends(next) then Uncached(k', id)
        else k'.idem == k.idem[IdemKey(id, req.stepId, req.stepVersion, req.idempotencyKey) := IdemEntry(id, resp, now)])
  }

  /** Nothing about any other run changes, nor about runs in general. */
  ghost predicate OthersStay(k: Kernel, k': Kernel, id: string) {
    && k'.runs.Keys == k.runs.Keys && k'.runSeq == k.runSeq && k'.born == k.born
    && (forall x :: x in k.runs && x != id ==> k'.runs[x] == k.runs[x] && Log(k', x) == Log(k, x))
  }

  lemma TargetIs(next: NextState)
    ensures Target(next) == NextOf(next)
  {
  }

  lemma ReachesIff(from: RunState, next: RunState)
    requires !IsTerminal(from) && from != Parked && from != AwaitingApproval
    ensures AllowedTransition(from, next) <==> Reaches(from, next)
  {
  }

  lemma CanAdvance(s: RunState)
    ensures !IsTerminal(s) && s != Parked && s != AwaitingApproval <==> s in {Running, Reconciling, SafeguardHold, ForceReviewRequired}
  {
  }

  lemma AdvancedView(cfg: Config, r: Run, now: int, req: AdvanceRequest, next: RunState)
    ensures var r' := AdvancedRun(cfg, r, now, req, next);
      ViewAdvanced(cfg, r.view, now, req, next, r'.view) && r'.noProgressScans == 0 && r'.view.tags == r.view.tags
  {
  }

  lemma AppendDoes(cfg: Config, k: Kernel, now: int, id: string, req: AdvanceRequest, tags: map<TagKey, string>, next: RunState)
    requires id in k.runs && (Ends(next) ==> CachesOk(cfg, k))
    ensures var r1 := k.runs[id].(view := k.runs[id].view.(tags := tags));
      var k' := AdvanceAppend(cfg, k, now, id, r1, req, next);
      && Advanced(cfg, k, now, id, req, next, k', ResponseOf(AdvancedRun(cfg, r1, now, req, next).view))
      && k'.runs[id].view.tags == tags && OthersStay(k, k', id)
  {
    var r1 := k.runs[id].(view := k.runs[id].view.(tags := tags));
    AdvancedView(cfg, r1, now, req, next);
    hide AdvancedRun, CachesOk;
    var k' := AdvanceAppend(cfg, k, now, id, r1, req, next);
    assert ViewAdvanced(cfg, k.runs[id].view, now, req, next, k'.runs[id].view);
    hide ViewAdvanced;
    if Ends(next) { assert Uncached(k', id) by { AppendUncaches(cfg, k, now, id, r1, req, next); } }
  }

  lemma AppendUncaches(cfg: Config, k: Kernel, now: int, id: string, r: Run, req: AdvanceRequest, next: RunState)
    requires id in k.runs && Ends(next) && CachesOk(cfg, k)
    ensures Uncached(AdvanceAppend(cfg, k, now, id, r, req, next), id)
  {
    hide AdvancedRun, TokensOk, CreatesOk;
  }

  lemma TagsDo(req: AdvanceRequest, ref: DecisionReference, tags: map<TagKey, string>)
    requires DutiesMet(req, ref)
    ensures Tagged(ref.obligations, |ref.obligations|, tags, EnforceAll(req, ref, tags).0)
  {
    DutiesIff(req, ref, tags);
    hide Enforce, DutiesMet;
    assert Tagged(ref.obligations, 0, tags, tags);
    EnforceTags(req, PhaseOr(ref.phase, PreTool), ref.obligations, 0, tags, tags);
  }

  lemma GatedDoes(cfg: Config, k: Kernel, now: int, id: string, req: AdvanceRequest, port: PortAnswers, hashOk: bool)
    requires CachesOk(cfg, k) && Timely(k, id, req) && GateOpen(id, req, port)
    ensures var (k', resp) := AdvanceGated(cfg, k, now, id, req, port.ref.value, hashOk);
      && (DutiesMet(req, port.ref.value) && Loggable(k, id, req) && hashOk ==>
            && resp.Ok? && Advanced(cfg, k, now, id, req, NextOf(req.next).value, k', resp.value) && OthersStay(k, k', id)
            && Tagged(port.ref.value.obligations, |port.ref.value.obligations|, k.runs[id].view.tags, k'.runs[id].view.tags))
      && (!DutiesMet(req, port.ref.value) || !Loggable(k, id, req) || !hashOk ==>
            && resp.Err?
            && Refused(k, k', now, id, !DutiesMet(req, port.ref.value) || (Loggable(k, id, req) && !hashOk)))
  {
    var (r, ref) := (k.runs[id], port.ref.value);
    DutiesIff(req, ref, r.view.tags);
    TargetIs(req.next);
    CanAdvance(r.view.state);
    if NextOf(req.next).Some? { ReachesIff(r.view.state, NextOf(req.next).value); }
    var tags := EnforceAll(req, ref, r.view.tags).0;
    var r1 := r.(view := r.view.(tags := tags));
    RefusedHolds(k, now, id, r1);
    if DutiesMet(req, ref) && Loggable(k, id, req) && hashOk {
      TagsDo(req, ref, r.view.tags);
      AppendDoes(cfg, k, now, id, req, tags, NextOf(req.next).value);
    }
    hide Refused, Advanced, OthersStay, EnforceAll, DutiesMet, AdvanceAppend, AllowedTransition, Reaches, Hold, AdvancedRun, Tagged, GateOpen, CachesOk, NextOf, Target;
  }

  /** A refusal logs nothing. One of the gate moves the run to SAFEGUARD_HOLD and its root to the last hash; any other leaves all but tags. */
  ghost predicate Refused(k: Kernel, k': Kernel, now: int, id: string, held: bool)
    requires id in k.runs
  {
    && k' == k.(runs := k'.runs) && OthersStay(k, k', id)
    && var (v, v') := (k.runs[id].view, k'.runs[id].view);
    && v'.version == v.version && v'.seqId == v.seqId && v'.lastHash == v.lastHash
    && (if held then v'.state == SafeguardHold && v'.updatedAt == now && Anchored(v, v.lastHash, v') && (v.lastHash != "" ==> v'.rootType == PartialRoot)
        else v' == v.(tags := v'.tags))
  }

  lemma RefusedHolds(k: Kernel, now: int, id: string, r: Run)
    requires id in k.runs && r.view == k.runs[id].view.(tags := r.view.tags)
    ensures Refused(k, SetRun(k, id, Hold(r, now)), now, id, true) && Refused(k, SetRun(k, id, r), now, id, false) && Refused(k, k, now, id, false)
  {
    SetRunOthers(k, id, Hold(r, now));
    SetRunOthers(k, id, r);
    assert k.runs[id := k.runs[id]] == k.runs;
    SetRunOthers(k, id, k.runs[id]);
    hide OthersStay;
  }

  lemma SetRunOthers(k: Kernel, id: string, r: Run)
    requires id in k.runs
    ensures OthersStay(k, SetRun(k, id, r), id)
  {
  }

  /** The order of the checks, up to the obligations. */
  lemma AdvanceCases(cfg: Config, k: Kernel, now: int, id: string, req: AdvanceRequest, port: PortAnswers, hashOk: bool)
    requires id in k.runs && !Replays(k, id, req)
    ensures var (k', resp) := Advance(cfg, k, now, id, req, port, hashOk);
      if !Timely(k, id, req) then k' == k && resp.Err?
      else if req.incomingSeq <= k.runs[id].view.seqId then k' == SetRun(k, id, Hold(k.runs[id], now)) && resp.Err?
      else if req.decisionId == "" || req.decisionHash == "" then k' == k && resp.Err?
      else if !GateOpen(id, req, port) then k' == SetRun(k, id, Hold(k.runs[id], now)) && resp.Err?
      else (k', resp) == AdvanceGated(cfg, k, now, id, req, port.ref.value, hashOk)
  {
    CanAdvance(k.runs[id].view.state);
    GateIff(id, req, port);
    assert GateOpen(id, req, port) ==> port.ref.Some?;
    hide AdvanceGated, GateError, GateOpen, Hold, IsTerminal;
  }

  /**
   * An advance that is no replay answers with success if and only if it is admissible, and then it logged its step and
   * left the run as it should be; otherwise it logged nothing, and held the run if and only if it was the gate that failed.
   */
  lemma AdvanceIff(cfg: Config, k: Kernel, now: int, id: string, req: AdvanceRequest, port: PortAnswers, hashOk: bool)
    requires CachesOk(cfg, k) && !Replays(k, id, req)
    ensures var (k', resp) := Advance(cfg, k, now, id, req, port, hashOk);
      && (resp.Ok? <==> Admissible(k, id, req, port, hashOk))
      && (resp.Ok? ==>
            && Advanced(cfg, k, now, id, req, NextOf(req.next).value, k', resp.value) && OthersStay(k, k', id)
            && Tagged(port.ref.value.obligations, |port.ref.value.obligations|, k.runs[id].view.tags, k'.runs[id].view.tags))
      && (resp.Err? ==> if id in k.runs then Refused(k, k', now, id, GateFails(k, id, req, port, hashOk)) else k' == k)
  {
    if id in k.runs {
      AdvanceCases(cfg, k, now, id, req, port, hashOk);
      RefusedHolds(k, now, id, k.runs[id]);
      if Timely(k, id, req) {
        assert GateOpen(id, req, port) ==> port.ref.Some?;
        assert Loggable(k, id, req) ==> NextOf(req.next).Some?;
        hide Advance, Refused, Advanced, OthersStay, AdvanceGated, GateOpen, DutiesMet, Loggable, Hold, Tagged, CachesOk, NextOf, Timely, Replays;
        if GateOpen(id, req, port) { GatedDoes(cfg, k, now, id, req, port, hashOk); }
      }
    }
  }

  /** A replayed advance is answered from the cache and changes nothing but the time of that entry's last use. */
  lemma ReplayDoes(cfg: Config, k: Kernel, now: int, id: string, req: AdvanceRequest, port: PortAnswers, hashOk: bool)
    requires Replays(k, id, req)
    ensures var key := IdemKey(id, req.stepId, req.stepVersion, req.idempotencyKey);
      Advance(cfg, k, now, id, req, port, hashOk)
      == (k.(idem := k.idem[key := k.idem[key].(lastAccess := now)]), Ok(k.idem[key].response))
  {
    CanAdvance(k.runs[id].view.state);
    hide AdvanceGated, GateError, Hold, IsTerminal;
  }

  // ----- What a refusal answers -----

  function GateChecks(id: string, req: AdvanceRequest, port: PortAnswers): seq<(bool, RunError)>
    requires port.ref.Some?
  {
    var ref := port.ref.value;
    [(port.confirmed, PendingMismatch),
     (ref.hashValid && ref.hashKind == Stable, DecisionHashInvalid),
     (ref.runId in {"", id} && ref.stepId in {"", req.stepId}, BindingMismatch),
     (req.decisionHashKind.None? || req.decisionHashKind == Some(ref.hashKind), HashKindMismatch),
     (ref.hash == req.decisionHash, DecisionHashMismatch),
     (ref.decision in {NoValue, Allow, RequireApproval}, NotExecutable),
     (port.receiptOk, ReceiptRejected)]
  }

  lemma GateReports(id: string, req: AdvanceRequest, port: PortAnswers)
    ensures if port.ref.None? then GateError(id, req, port) == Some(PendingMismatch)
            else Reports(GateChecks(id, req, port), GateError(id, req, port))
  {
    if port.ref.Some? {
      var checks := GateChecks(id, req, port);
      var n := if !checks[0].0 then 0 else if !checks[1].0 then 1 else if !checks[2].0 then 2 else if !checks[3].0 then 3
               else if !checks[4].0 then 4 else if !checks[5].0 then 5 else 6;
      assert checks[n].0 ==> GateError(id, req, port).None?;
      assert !checks[n].0 ==> GateError(id, req, port) == Some(checks[n].1);
    }
  }

  /** Why an obligation that is not met stops the advance. */
  function DutyRefusal(phase: Phase, o: Obligation): RunError {
    if !PhaseFits(phase, o.phase) then PhaseMismatch
    else match o.duty
      case DenyExecution => DutyDenied
      case LimitParam(_, _) => LimitViolated
      case RequireTemplate(_) => TemplateRequired
      case _ => UnsupportedDuty
  }

  lemma DutyReports(req: AdvanceRequest, phase: Phase, o: Obligation)
    requires !DutyMet(req, phase, o)
    ensures DutyError(req, PhaseOr(phase, PreTool), o) == Some(DutyRefusal(phase, o))
  {
  }

  lemma {:induction false} EnforceReports(req: AdvanceRequest, phase: Phase, os: seq<Obligation>, i: nat, tags: map<TagKey, string>)
    requires i <= |os|
    ensures var e := Enforce(req, PhaseOr(phase, PreTool), os, i, tags).1;
      e.Some? ==> exists j :: i <= j < |os| && !DutyMet(req, phase, os[j]) && e.value == DutyRefusal(phase, os[j])
                              && forall n :: i <= n < j ==> DutyMet(req, phase, os[n])
    decreases |os| - i
  {
    hide DutyError, DutyMet, DutyRefusal;
    if i < |os| {
      DutyMetIff(req, phase, os[i]);
      if !DutyMet(req, phase, os[i]) {
        DutyReports(req, phase, os[i]);
      } else {
        match os[i].duty
        case AttachTag(t, v) => EnforceReports(req, phase, os, i + 1, tags[(if t == "" then PositionalTag(i) else NamedTag(t)) := v]);
        case _ => EnforceReports(req, phase, os, i + 1, tags);
      }
    }
  }

  function EarlyChecks(k: Kernel, id: string, req: AdvanceRequest): seq<(bool, RunError)>
    requires id in k.runs
  {
    var v := k.runs[id].view;
    [(v.state !in {Completed, Failed, ForceAbort, Aborted}, TerminalState),
     (v.state !in {Parked, AwaitingApproval}, StateConflict),
     (req.stepId != "" && req.stepVersion != "" && req.idempotencyKey != "", InputInvalid),
     (req.expectedVersion == v.version, VersionConflict),
     (req.incomingSeq > v.seqId, MonotonicityViolation),
     (req.decisionId != "" && req.decisionHash != "", DecisionRefMissing)]
  }

  function LateChecks(k: Kernel, id: string, req: AdvanceRequest, hashOk: bool): seq<(bool, RunError)>
    requires id in k.runs
  {
    [(NextOf(req.next).Some?, InputInvalid),
     (NextOf(req.next).Some? && Reaches(k.runs[id].view.state, NextOf(req.next).value), TransitionForbidden),
     (req.inputHash != "" && req.outputHash != "", InputInvalid),
     (hashOk, HashFailed)]
  }

  /** The checks come in four groups: the request against the run, the gate, the obligations, what is to be logged. */
  lemma AdvanceReports(cfg: Config, k: Kernel, now: int, id: string, req: AdvanceRequest, port: PortAnswers, hashOk: bool)
    requires !Replays(k, id, req) && Advance(cfg, k, now, id, req, port, hashOk).1.Err?
    ensures var e := Some(Advance(cfg, k, now, id, req, port, hashOk).1.error);
      if id !in k.runs then e == Some(RunNotFound)
      else if !AllPass(EarlyChecks(k, id, req)) then Reports(EarlyChecks(k, id, req), e)
      else if !GateOpen(id, req, port) then e == GateError(id, req, port)
      else if !DutiesMet(req, port.ref.value) then e == EnforceAll(req, port.ref.value, k.runs[id].view.tags).1
      else Reports(LateChecks(k, id, req, hashOk), e)
  {
    if id in k.runs {
      EarlyReports(cfg, k, now, id, req, port, hashOk);
      if AllPass(EarlyChecks(k, id, req)) && GateOpen(id, req, port) {
        assert EarlyChecks(k, id, req)[0].0 && EarlyChecks(k, id, req)[1].0;
        CanAdvance(k.runs[id].view.state);
        GatedReports(cfg, k, now, id, req, port, hashOk);
      }
      hide Advance, AdvanceGated, LateChecks, EarlyChecks, GateOpen, DutiesMet, EnforceAll, GateError, Reports, AllPass;
    }
  }

  lemma EarlyReports(cfg: Config, k: Kernel, now: int, id: string, req: AdvanceRequest, port: PortAnswers, hashOk: bool)
    requires id in k.runs && !Replays(k, id, req)
    ensures var resp := Advance(cfg, k, now, id, req, port, hashOk).1;
      if !AllPass(EarlyChecks(k, id, req)) then resp.Err? && Reports(EarlyChecks(k, id, req), Some(resp.error))
      else if !GateOpen(id, req, port) then resp.Err? && GateError(id, req, port) == Some(resp.error)
      else resp == AdvanceGated(cfg, k, now, id, req, port.ref.value, hashOk).1
  {
    EarlyAnswer(cfg, k, now, id, req, port, hashOk);
    hide GateError, GateOpen, Advance, AdvanceGated, Reports, Replays, AllPass;
    var early := EarlyChecks(k, id, req);
    if !early[0].0 { FirstFails(early, 0); }
    else if !early[1].0 { FirstFails(early, 1); }
    else if !early[2].0 { FirstFails(early, 2); }
    else if !early[3].0 { FirstFails(early, 3); }
    else if !early[4].0 { FirstFails(early, 4); }
    else if !early[5].0 { FirstFails(early, 5); }
    else { SixPass(early); }
  }

  lemma EarlyAnswer(cfg: Config, k: Kernel, now: int, id: string, req: AdvanceRequest, port: PortAnswers, hashOk: bool)
    requires id in k.runs && !Replays(k, id, req)
    ensures var (v, resp) := (k.runs[id].view, Advance(cfg, k, now, id, req, port, hashOk).1);
      if v.state in {Completed, Failed, ForceAbort, Aborted} then resp == Err(TerminalState)
      else if v.state in {Parked, AwaitingApproval} then resp == Err(StateConflict)
      else if req.stepId == "" || req.stepVersion == "" || req.idempotencyKey == "" then resp == Err(InputInvalid)
      else if req.expectedVersion != v.version then resp == Err(VersionConflict)
      else if req.incomingSeq <= v.seqId then resp == Err(MonotonicityViolation)
      else if req.decisionId == "" || req.decisionHash == "" then resp == Err(DecisionRefMissing)
      else if !GateOpen(id, req, port) then resp.Err? && GateError(id, req, port) == Some(resp.error)
      else resp == AdvanceGated(cfg, k, now, id, req, port.ref.value, hashOk).1
  {
    GateIff(id, req, port);
    assert GateOpen(id, req, port) ==> port.ref.Some?;
    hide GateError, GateOpen, Hold, AdvanceGated;
  }

  lemma GatedReports(cfg: Config, k: Kernel, now: int, id: string, req: AdvanceRequest, port: PortAnswers, hashOk: bool)
    requires id in k.runs && k.runs[id].view.state in {Running, Reconciling, SafeguardHold, ForceReviewRequired} && port.ref.Some?
    requires AdvanceGated(cfg, k, now, id, req, port.ref.value, hashOk).1.Err?
    ensures var e := Some(AdvanceGated(cfg, k, now, id, req, port.ref.value, hashOk).1.error);
      if !DutiesMet(req, port.ref.value) then e == EnforceAll(req, port.ref.value, k.runs[id].view.tags).1
      else Reports(LateChecks(k, id, req, hashOk), e)
  {
    DutiesIff(req, port.ref.value, k.runs[id].view.tags);
    TargetIs(req.next);
    if NextOf(req.next).Some? { ReachesIff(k.runs[id].view.state, NextOf(req.next).value); }
    hide EnforceAll, DutiesMet, Hold, AdvanceAppend, Reaches, AllowedTransition, Target, NextOf, Reports, AdvancedRun;
    var late := LateChecks(k, id, req, hashOk);
    if !late[0].0 { FirstFails(late, 0); }
    else if !late[1].0 { FirstFails(late, 1); }
    else if !late[2].0 { FirstFails(late, 2); }
    else if !late[3].0 { FirstFails(late, 3); }
  }

  // ----- Versions over a history -----

  /** Operation `i` is an advance of the run that succeeded and was no replay. */
  ghost predicate Succeeds(cfg: Config, ops: seq<RunHistory.Op>, i: nat, id: string)
    requires i < |ops|
  {
    && ops[i].AdvanceOp? && ops[i].id == id
    && !Replays(RunHistory.After(cfg, ops[..i]), id, ops[i].advance)
    && Advance(cfg, RunHistory.After(cfg, ops[..i]), ops[i].now, id, ops[i].advance, ops[i].port, ops[i].hashOk).1.Ok?
  }

  lemma SucceedsAt(cfg: Config, ops: seq<RunHistory.Op>, i: nat, id: string)
    requires ValidConfig(cfg) && i < |ops| && Succeeds(cfg, ops, i, id)
    ensures var (k, k') := (RunHistory.After(cfg, ops[..i]), RunHistory.After(cfg, ops[..i + 1]));
      && ops[i].AdvanceOp? && id in k.runs && ops[i].advance.expectedVersion == k.runs[id].view.version == 1 + |Log(k, id)|
      && id in k'.runs && |Log(k', id)| == |Log(k, id)| + 1
  {
    var k := RunHistory.After(cfg, ops[..i]);
    RunHistory.ReachableInv(cfg, ops[..i]);
    RunHistory.AfterOne(cfg, ops, i);
    AdvanceIff(cfg, k, ops[i].now, id, ops[i].advance, ops[i].port, ops[i].hashOk);
    RunHistory.LogIsChain(cfg, ops[..i], id);
    hide RunHistory.After, Advance, GateOpen, DutiesMet, Loggable, ViewAdvanced, OthersStay, Tagged, ValidConfig, Chained, Ascending;
  }

  lemma LongerLater(cfg: Config, k: Kernel, k': Kernel, id: string)
    requires RunHistory.LaterIn(cfg, k, k', id) && id in k'.runs
    ensures |Log(k, id)| <= |Log(k', id)|
  {
    hide Log;
  }

  /** Optimistic concurrency: of the advances of one run that succeeded, each named a later version than those before it. */
  lemma VersionsApart(cfg: Config, ops: seq<RunHistory.Op>, i: nat, j: nat, id: string)
    requires ValidConfig(cfg) && i < j < |ops| && Succeeds(cfg, ops, i, id) && Succeeds(cfg, ops, j, id)
    ensures ops[i].AdvanceOp? && ops[j].AdvanceOp? && ops[i].advance.expectedVersion < ops[j].advance.expectedVersion
  {
    hide *;
    SucceedsAt(cfg, ops, i, id);
    SucceedsAt(cfg, ops, j, id);
    assert ops[..i + 1] + ops[i + 1..j] == ops[..j];
    RunHistory.RunLater(cfg, ops[..i + 1], ops[i + 1..j], id);
    LongerLater(cfg, RunHistory.After(cfg, ops[..i + 1]), RunHistory.After(cfg, ops[..j]), id);
  }
}
