/**
 * The run kernel's operations as functions on values: each takes the kernel's maps before the call and
 * gives the maps after it together with the answer. The class in RunKernel is proved against these.
 */
module RunSpec {
  import opened Outcomes
  import opened RunTypes

  /**
   * Hash functions and retention settings. A hash function here gives the digest of a successful call; that a
   * call fails (its input does not marshal) is an input of the operation.
   */
  datatype Config = Config(
    stepHash: StepContent -> string,
    fingerprint: CreateContent -> string,
    snapshotHash: (SnapshotInput, int) -> string,
    runName: (string, nat) -> string,
    maxLifetime: Risk -> int,
    continuationTTL: int, continuationRetention: int, idempotencyTTL: int,
    runRetention: int, createRetention: int, noProgressWindow: int, batchLimit: nat)

  /** The sequence number is the last part of a run name, so it tells names apart; a digest is never blank. */
  ghost predicate ValidConfig(cfg: Config) {
    && (forall f, f', n: nat, n': nat :: cfg.runName(f, n) == cfg.runName(f', n') ==> n == n')
    && (forall c :: cfg.stepHash(c) != "")
  }

  /** The maps of the kernel. `born` is history: the normalised request each run was created for. */
  datatype Kernel = Kernel(
    runs: map<string, Run>,
    conts: map<Token, Continuation>,
    idem: map<IdemKey, IdemEntry>,
    creates: map<CreateKey, CreateEntry>,
    logs: map<string, seq<Step>>,
    runSeq: nat,
    born: map<string, CreateContent>)

  const EMPTY_KERNEL := Kernel(map[], map[], map[], map[], map[], 0, map[])

  const NO_ANCHORS := Anchors("", "", "", "", "")

  function Log(k: Kernel, id: string): seq<Step> {
    if id in k.logs then k.logs[id] else []
  }

  // ----- Integrity root -----

  function SetAnchor(a: Anchors, t: RootType, root: string): Anchors {
    match t
    case CompletedRoot => a.(completed := root)
    case PartialRoot => a.(partialRoot := root)
    case ReconciledRoot => a.(reconciled := root)
    case ReviewHoldRoot => a.(reviewHold := root)
    case AbortedRoot => a.(aborted := root)
    case NoRoot => a
  }

  function Anchor(v: RunView, t: RootType, root: string): RunView {
    if root == "" then v else
      v.(root := root,
         rootVersion := if root != v.root then v.rootVersion + 1 else v.rootVersion,
         rootType := t,
         anchors := SetAnchor(v.anchors, t, root))
  }

  /** The root type a state anchors; FAILED and SAFEGUARD_HOLD anchor nothing. */
  function RootOf(s: RunState): RootType {
    match s
    case Running => PartialRoot
    case Parked => PartialRoot
    case AwaitingApproval => PartialRoot
    case Completed => CompletedRoot
    case Reconciling => ReconciledRoot
    case ForceReviewRequired => ReviewHoldRoot
    case ForceAbort => AbortedRoot
    case Aborted => AbortedRoot
    case Failed => NoRoot
    case SafeguardHold => NoRoot
  }

  // ----- The two ways a run changes -----

  function MakeStep(cfg: Config, stepId: string, seqId: int, content: StepContent, now: int): Step {
    Step(stepId, seqId, content, cfg.stepHash(content), now)
  }

  /** A step is appended: version, sequence number, last hash and state move together and the state's root is anchored. */
  function Extend(r: Run, s: Step, next: RunState): Run {
    var v := r.view.(state := next, version := r.view.version + 1, seqId := s.seqId, lastHash := s.hash, updatedAt := s.at);
    r.(view := if RootOf(next) == NoRoot then v else Anchor(v, RootOf(next), s.hash))
  }

  /** A gate failed: only the state and the root move; the version and the log stay. */
  function Hold(r: Run, now: int): Run {
    r.(view := Anchor(r.view.(state := SafeguardHold, updatedAt := now), PartialRoot, r.view.lastHash))
  }

  function Put(k: Kernel, id: string, r: Run, s: Step): Kernel {
    k.(runs := k.runs[id := r], logs := k.logs[id := Log(k, id) + [s]])
  }

  function DropCaches(k: Kernel, ids: set<string>): Kernel {
    k.(conts := map t | t in k.conts && t.runId !in ids :: k.conts[t],
       idem := map i | i in k.idem && k.idem[i].runId !in ids :: k.idem[i],
       creates := map c | c in k.creates && k.creates[c].runId !in ids :: k.creates[c])
  }

  // ----- Create -----

  function Normalise(req: CreateRequest): CreateContent
    requires req.risk.Some?
  {
    CreateContent(req.requestId, req.tenant, req.workflow, req.workflowVersion, req.risk.value, req.inputRef, req.snapshot)
  }

  function NewRun(cfg: Config, id: string, c: CreateContent, now: int): Run {
    Run(RunView(id, c.tenant, c.workflow, c.workflowVersion, Running, "", 1, c.risk, "", "", 0, NoRoot, "", "", map[], 0,
                now, now, now, cfg.snapshotHash(c.snapshot, now), NO_ANCHORS),
        cfg.maxLifetime(c.risk), false, false, 0)
  }

  function CreateAnswer(cfg: Config, id: string, c: CreateContent, now: int): CreateResponse {
    CreateResponse(id, cfg.snapshotHash(c.snapshot, now), c.snapshot.contextPolicyHash, now)
  }

  /** A new run under the next name, remembered for its request. */
  function Admit(cfg: Config, k: Kernel, now: int, c: CreateContent): Kernel {
    var id := cfg.runName(cfg.fingerprint(c), k.runSeq + 1);
    k.(runSeq := k.runSeq + 1,
       runs := k.runs[id := NewRun(cfg, id, c, now)],
       creates := k.creates[CreateKey(c.tenant, c.requestId) := CreateEntry(id, cfg.fingerprint(c), CreateAnswer(cfg, id, c, now), now)],
       born := k.born[id := c])
  }

  function Create(cfg: Config, k: Kernel, now: int, req: CreateRequest, fingerprintOk: bool, snapshotOk: bool)
    : (Kernel, Result<CreateResponse, RunError>)
  {
    if req.requestId == "" || req.tenant == "" || req.workflow == "" || req.workflowVersion == "" || req.risk.None? then
      (k, Err(InputInvalid))
    else if req.snapshot.contextPolicyHash == "" then (k, Err(SnapshotFreezeFailed))
    else if !fingerprintOk then (k, Err(HashFailed))
    else
      var c := Normalise(req);
      var key := CreateKey(c.tenant, c.requestId);
      if key in k.creates && k.creates[key].fingerprint != cfg.fingerprint(c) then (k, Err(CreateConflict))
      else if key in k.creates && k.creates[key].runId in k.runs then
        var e := k.creates[key].(lastAccess := now);
        (k.(creates := k.creates[key := e]), Ok(e.response))
      else if !snapshotOk then (k.(runSeq := k.runSeq + 1, creates := k.creates - {key}), Err(HashFailed))
      else (Admit(cfg, k, now, c), Ok(CreateAnswer(cfg, cfg.runName(cfg.fingerprint(c), k.runSeq + 1), c, now)))
  }

  // ----- Advance -----

  function PhaseOr(p: Phase, default: Phase): Phase {
    if p == NoPhase then default else p
  }

  predicate PhaseAllowed(run: Phase, duty: Phase) {
    match run
    case PreContext => duty == PreContext
    case PreTool => duty == PreContext || duty == PreTool
    case _ => false
  }

  predicate LimitKept(req: AdvanceRequest, target: LimitTarget, limit: Option<nat>) {
    limit.Some? &&
    match target
    case MaxInputLen => |req.inputHash| <= limit.value
    case MaxOutputLen => |req.outputHash| <= limit.value
    case MaxSeq => req.incomingSeq <= limit.value
    case UnknownTarget => false
  }

  /** Why obligation `o` stops the advance, if it does. */
  function DutyError(req: AdvanceRequest, phase: Phase, o: Obligation): Option<RunError> {
    if o.duty.BlankDuty? then None
    else if !PhaseAllowed(phase, PhaseOr(o.phase, phase)) then Some(PhaseMismatch)
    else match o.duty
      case DenyExecution => Some(DutyDenied)
      case LimitParam(target, limit) => if LimitKept(req, target, limit) then None else Some(LimitViolated)
      case RequireTemplate(t) => if t == "" || t in req.templates then None else Some(TemplateRequired)
      case Unsupported => Some(UnsupportedDuty)
      case _ => None
  }

  /** The obligations in order from `i`: tags are attached as they are met, up to the first that stops the advance. */
  function Enforce(req: AdvanceRequest, phase: Phase, os: seq<Obligation>, i: nat, tags: map<TagKey, string>)
    : (map<TagKey, string>, Option<RunError>)
    requires i <= |os|
    decreases |os| - i
  {
    if i == |os| then (tags, None)
    else
      var e := DutyError(req, phase, os[i]);
      if e.Some? then (tags, e)
      else match os[i].duty
        case AttachTag(t, v) => Enforce(req, phase, os, i + 1, tags[(if t == "" then PositionalTag(i) else NamedTag(t)) := v])
        case _ => Enforce(req, phase, os, i + 1, tags)
  }

  function EnforceAll(req: AdvanceRequest, ref: DecisionReference, tags: map<TagKey, string>): (map<TagKey, string>, Option<RunError>) {
    Enforce(req, PhaseOr(ref.phase, PreTool), ref.obligations, 0, tags)
  }

  /** The first check of the decision and its receipt that fails, before the obligations are looked at. */
  function GateError(id: string, req: AdvanceRequest, port: PortAnswers): Option<RunError> {
    if port.ref.None? then Some(PendingMismatch)
    else
      var ref := port.ref.value;
      if !port.confirmed then Some(PendingMismatch)
      else if !ref.hashValid || ref.hashKind != Stable then Some(DecisionHashInvalid)
      else if ref.runId != "" && ref.runId != id then Some(BindingMismatch)
      else if ref.stepId != "" && ref.stepId != req.stepId then Some(BindingMismatch)
      else if req.decisionHashKind.Some? && req.decisionHashKind.value != ref.hashKind then Some(HashKindMismatch)
      else if ref.hash != req.decisionHash then Some(DecisionHashMismatch)
      else if !ExecutableDecision(ref.decision) then Some(NotExecutable)
      else if !port.receiptOk then Some(ReceiptRejected)
      else None
  }

  function Target(n: NextState): Option<RunState> {
    match n
    case DefaultState => Some(Running)
    case NamedState(s) => Some(s)
    case UnknownState => None
  }

  function Key(id: string, req: AdvanceRequest): IdemKey {
    IdemKey(id, req.stepId, req.stepVersion, req.idempotencyKey)
  }

  function SetRun(k: Kernel, id: string, r: Run): Kernel {
    k.(runs := k.runs[id := r])
  }

  function AdvanceStep(cfg: Config, r: Run, now: int, req: AdvanceRequest): Step {
    MakeStep(cfg, req.stepId, req.incomingSeq,
             NormalContent(r.view.lastHash, req.decisionHash, req.inputHash, req.outputHash), now)
  }

  function AdvancedRun(cfg: Config, r: Run, now: int, req: AdvanceRequest, next: RunState): Run {
    var r1 := Extend(r, AdvanceStep(cfg, r, now, req), next);
    r1.(noProgressScans := 0,
        view := r1.view.(activeStep := req.stepId, progressAt := now,
                         reason := if IsTerminal(next) then "advance_terminal_state" else "",
                         source := if IsTerminal(next) then "advance" else ""))
  }

  function ResponseOf(v: RunView): AdvanceResponse {
    AdvanceResponse(v.state, v.version, v.lastHash, v.root, v.rootVersion, v.rootType, v.seqId)
  }

  /** The advance is let through: the step is logged, the answer cached, the caches of a finished run dropped. */
  function AdvanceAppend(cfg: Config, k: Kernel, now: int, id: string, r: Run, req: AdvanceRequest, next: RunState): Kernel {
    var r1 := AdvancedRun(cfg, r, now, req, next);
    var k1 := Put(k, id, r1, AdvanceStep(cfg, r, now, req));
    var k2 := k1.(idem := k1.idem[Key(id, req) := IdemEntry(id, ResponseOf(r1.view), now)]);
    if IsTerminal(next) then DropCaches(k2, {id}) else k2
  }

  /** The decision and receipt checks passed: obligations, target state and hashes are still to be met. */
  function AdvanceGated(cfg: Config, k: Kernel, now: int, id: string, req: AdvanceRequest, ref: DecisionReference, hashOk: bool)
    : (Kernel, Result<AdvanceResponse, RunError>)
    requires id in k.runs
  {
    var r := k.runs[id];
    var (tags, dutyError) := EnforceAll(req, ref, r.view.tags);
    var r1 := r.(view := r.view.(tags := tags));
    if dutyError.Some? then (SetRun(k, id, Hold(r1, now)), Err(dutyError.value))
    else if Target(req.next).None? then (SetRun(k, id, r1), Err(InputInvalid))
    else if !AllowedTransition(r.view.state, Target(req.next).value) then (SetRun(k, id, r1), Err(TransitionForbidden))
    else if req.inputHash == "" || req.outputHash == "" then (SetRun(k, id, r1), Err(InputInvalid))
    else if !hashOk then (SetRun(k, id, Hold(r1, now)), Err(HashFailed))
    else
      var next := Target(req.next).value;
      (AdvanceAppend(cfg, k, now, id, r1, req, next), Ok(ResponseOf(AdvancedRun(cfg, r1, now, req, next).view)))
  }

  function Advance(cfg: Config, k: Kernel, now: int, id: string, req: AdvanceRequest, port: PortAnswers, hashOk: bool)
    : (Kernel, Result<AdvanceResponse, RunError>)
  {
    if id !in k.runs then (k, Err(RunNotFound))
    else
      var r := k.runs[id];
      if IsTerminal(r.view.state) then (k, Err(TerminalState))
      else if r.view.state == Parked || r.view.state == AwaitingApproval then (k, Err(StateConflict))
      else if req.stepId == "" || req.stepVersion == "" || req.idempotencyKey == "" then (k, Err(InputInvalid))
      else if Key(id, req) in k.idem then
        var e := k.idem[Key(id, req)].(lastAccess := now);
        (k.(idem := k.idem[Key(id, req) := e]), Ok(e.response))
      else if req.expectedVersion != r.view.version then (k, Err(VersionConflict))
      else if req.incomingSeq <= r.view.seqId then (SetRun(k, id, Hold(r, now)), Err(MonotonicityViolation))
      else if req.decisionId == "" || req.decisionHash == "" then (k, Err(DecisionRefMissing))
      else if GateError(id, req, port).Some? then (SetRun(k, id, Hold(r, now)), Err(GateError(id, req, port).value))
      else AdvanceGated(cfg, k, now, id, req, port.ref.value, hashOk)
  }

  // ----- Park, resume, abort -----

  function TokenTypeOf(c: TokenChoice): Option<TokenType> {
    match c
    case DefaultToken => Some(ParkToken)
    case NamedToken(t) => Some(t)
    case UnknownToken => None
  }

  function ParkState(t: TokenType): RunState {
    if t == ApprovalToken then AwaitingApproval else Parked
  }

  function TokenName(t: TokenType): string {
    match t case ParkToken => "parked:park" case ApprovalToken => "parked:approval" case CallbackToken => "parked:callback"
  }

  function SyntheticStep(cfg: Config, r: Run, stepId: string, seqId: int, tag: Synthetic, input: string, output: string, now: int): Step {
    MakeStep(cfg, stepId, seqId, SyntheticContent(r.view.lastHash, tag, input, output), now)
  }

  /** The fields a park or a resume sets besides those of Extend. */
  function Progress(r: Run, stepId: string, now: int): Run {
    r.(noProgressScans := 0, view := r.view.(activeStep := stepId, progressAt := now, reason := "", source := ""))
  }

  function ParkedRun(cfg: Config, r: Run, now: int, req: ParkRequest, t: TokenType): Run {
    Progress(Extend(r, SyntheticStep(cfg, r, req.stepId, req.incomingSeq, ParkStep, req.reason, TokenName(t), now), ParkState(t)),
             req.stepId, now)
  }

  /** The run is parked and its token issued. */
  function ParkWith(cfg: Config, k: Kernel, now: int, id: string, req: ParkRequest, t: TokenType): (Kernel, ParkResponse)
    requires id in k.runs
  {
    var r := k.runs[id];
    var token := Token(id, req.stepId, req.incomingSeq, t, now);
    var expires := now + (if req.ttl > 0 then req.ttl else cfg.continuationTTL);
    var r1 := ParkedRun(cfg, r, now, req, t);
    var k1 := Put(k, id, r1, SyntheticStep(cfg, r, req.stepId, req.incomingSeq, ParkStep, req.reason, TokenName(t), now));
    (k1.(conts := k1.conts[token := Continuation(expires, Active)]),
     ParkResponse(r1.view.state, r1.view.version, token, expires, r1.view.anchors.partialRoot))
  }

  function Park(cfg: Config, k: Kernel, now: int, id: string, req: ParkRequest, hashOk: bool)
    : (Kernel, Result<ParkResponse, RunError>)
  {
    if id !in k.runs then (k, Err(RunNotFound))
    else
      var r := k.runs[id];
      if IsTerminal(r.view.state) then (k, Err(TerminalState))
      else if req.expectedVersion != r.view.version then (k, Err(VersionConflict))
      else if req.incomingSeq <= r.view.seqId then (k, Err(MonotonicityViolation))
      else if TokenTypeOf(req.tokenType).None? || req.stepId == "" then (k, Err(InputInvalid))
      else if !AllowedTransition(r.view.state, ParkState(TokenTypeOf(req.tokenType).value)) then (k, Err(TransitionForbidden))
      else if !hashOk then (k, Err(HashFailed))
      else
        var (k1, resp) := ParkWith(cfg, k, now, id, req, TokenTypeOf(req.tokenType).value);
        (k1, Ok(resp))
  }

  function ResumedRun(cfg: Config, r: Run, now: int, t: Token, req: ResumeRequest): Run {
    Progress(Extend(r, SyntheticStep(cfg, r, t.stepId, req.incomingSeq, ResumeStep, req.reason, req.receiptRef, now), Running),
             t.stepId, now)
  }

  /** Why the token does not resume the run now, if it does not; the hash is not computed yet. */
  function ResumeError(k: Kernel, now: int, id: string, req: ResumeRequest): Option<RunError> {
    if id !in k.runs then Some(RunNotFound)
    else if req.token.None? then Some(InputInvalid)
    else if req.token.value !in k.conts then Some(ContinuationMissing)
    else
      var r, t, c := k.runs[id], req.token.value, k.conts[req.token.value];
      if t.runId != id then Some(ContinuationRunMismatch)
      else if c.status.Consumed? then Some(ContinuationConsumed)
      else if now > c.expiresAt then Some(ContinuationExpired)
      else if req.expectedSnapshot != "" && req.expectedSnapshot != r.view.snapshotHash then Some(SnapshotMismatch)
      else if req.incomingSeq <= r.view.seqId then Some(MonotonicityViolation)
      else if t.seqId != r.view.seqId then Some(ContinuationSeqMismatch)
      else if r.view.state != Parked && r.view.state != AwaitingApproval then Some(NotResumable)
      else if !TokenMatchesState(t.typ, r.view.state) then Some(ContinuationTypeMismatch)
      else None
  }

  /** The run resumes and its token is spent. */
  function ResumeWith(cfg: Config, k: Kernel, now: int, id: string, t: Token, req: ResumeRequest): Kernel
    requires id in k.runs && t in k.conts
  {
    var r := k.runs[id];
    var k1 := Put(k, id, ResumedRun(cfg, r, now, t, req),
                  SyntheticStep(cfg, r, t.stepId, req.incomingSeq, ResumeStep, req.reason, req.receiptRef, now));
    k1.(conts := k1.conts[t := k.conts[t].(status := Consumed(now))])
  }

  function Resume(cfg: Config, k: Kernel, now: int, id: string, req: ResumeRequest, hashOk: bool)
    : (Kernel, Result<ResumeResponse, RunError>)
  {
    var e := ResumeError(k, now, id, req);
    if e == Some(ContinuationExpired) then
      var t := req.token.value;
      (k.(conts := k.conts[t := k.conts[t].(status := Expired)]), Err(ContinuationExpired))
    else if e.Some? then (k, Err(e.value))
    else if !hashOk then (k, Err(HashFailed))
    else
      var k1 := ResumeWith(cfg, k, now, id, req.token.value, req);
      (k1, Ok(ResumeResponse(k1.runs[id].view.state, k1.runs[id].view.version)))
  }

  /** A step appended by abort or a sweep, one past the current sequence number, on the active step. */
  function ClosingStep(cfg: Config, r: Run, tag: Synthetic, input: string, output: string, now: int): Step {
    SyntheticStep(cfg, r, r.view.activeStep, r.view.seqId + 1, tag, input, output, now)
  }

  function ClosedRun(r: Run, s: Step, next: RunState, reason: string, source: string, progress: bool): Run {
    var r1 := Extend(r, s, next);
    r1.(view := r1.view.(reason := reason, source := source, progressAt := if progress then s.at else r1.view.progressAt))
  }

  function Close(cfg: Config, k: Kernel, id: string, tag: Synthetic, input: string, output: string, next: RunState,
                 reason: string, source: string, progress: bool, now: int): Kernel
    requires id in k.runs
  {
    var s := ClosingStep(cfg, k.runs[id], tag, input, output, now);
    var k1 := Put(k, id, ClosedRun(k.runs[id], s, next, reason, source, progress), s);
    if IsTerminal(next) then DropCaches(k1, {id}) else k1
  }

  function Abort(cfg: Config, k: Kernel, now: int, id: string, reason: string, hashOk: bool)
    : (Kernel, Result<RunView, RunError>)
  {
    if id !in k.runs then (k, Err(RunNotFound))
    else if IsTerminal(k.runs[id].view.state) then (k, Ok(k.runs[id].view))
    else if !hashOk then (k, Err(HashFailed))
    else
      var k1 := Close(cfg, k, id, AbortStep, reason, "aborted", Aborted,
                      if reason == "" then "manual_abort" else reason, "abort_api", true, now);
      (k1, Ok(k1.runs[id].view))
  }

  function FlagRisk(k: Kernel, id: string, security: bool, resource: bool): Kernel {
    if id !in k.runs then k
    else SetRun(k, id, k.runs[id].(securityRisk := security, resourceRisk := resource))
  }

  // ----- Sweeps -----

  predicate AtRisk(r: Run) {
    r.securityRisk || r.resourceRisk
  }

  predicate TtlDue(cfg: Config, r: Run, now: int) {
    && !IsTerminal(r.view.state)
    && r.maxLifetime > 0
    && now - r.view.createdAt > r.maxLifetime
    && (now - r.view.progressAt > cfg.noProgressWindow || AtRisk(r))
  }

  function TtlOne(cfg: Config, k: Kernel, now: int, id: string, hashOk: bool): Kernel {
    if id !in k.runs || !TtlDue(cfg, k.runs[id], now) || !hashOk then k
    else if AtRisk(k.runs[id]) then
      Close(cfg, k, id, TtlAbort, "ttl_breach_risk", "", ForceAbort, "ttl_breach_risk", "ttl_sweeper", false, now)
    else
      Close(cfg, k, id, TtlReview, "ttl_breach", "", ForceReviewRequired, "ttl_breach", "ttl_sweeper", false, now)
  }

  function ZombieOne(cfg: Config, k: Kernel, now: int, id: string, hashOk: bool): Kernel {
    if id !in k.runs || IsTerminal(k.runs[id].view.state) then k
    else
      var r := k.runs[id];
      if now - r.view.progressAt <= cfg.noProgressWindow then SetRun(k, id, r.(noProgressScans := 0))
      else
        var k1 := SetRun(k, id, r.(noProgressScans := r.noProgressScans + 1));
        if r.noProgressScans + 1 < 2 || !hashOk then k1
        else Close(cfg, k1, id, ZombieSweep, "no_progress", "", if AtRisk(r) then ForceAbort else ForceReviewRequired,
                   "no_progress", "zombie_sweeper", false, now)
  }

  datatype Sweeper = Ttl | Zombie

  function SweepOne(cfg: Config, w: Sweeper, k: Kernel, now: int, id: string, hashOk: bool): Kernel {
    match w
    case Ttl => TtlOne(cfg, k, now, id, hashOk)
    case Zombie => ZombieOne(cfg, k, now, id, hashOk)
  }

  /** The sweeper applied to the listed runs in order; the runs in `failing` are those whose step does not hash. */
  function SweepEach(cfg: Config, w: Sweeper, k: Kernel, now: int, order: seq<string>, failing: set<string>): Kernel {
    if order == [] then k
    else
      var k1 := SweepEach(cfg, w, k, now, order[..|order| - 1], failing);
      var id := order[|order| - 1];
      SweepOne(cfg, w, k1, now, id, id !in failing)
  }

  /** `order` lists the run ids in ascending order, each once. */
  ghost predicate SortedKeys(order: seq<string>, keys: set<string>) {
    && (forall i, j :: 0 <= i < j < |order| ==> Before(order[i], order[j]))
    && (forall x :: x in keys <==> x in order)
  }

  function FirstBatch(cfg: Config, order: seq<string>): seq<string> {
    if |order| <= cfg.batchLimit then order else order[..cfg.batchLimit]
  }

  function Sweep(cfg: Config, w: Sweeper, k: Kernel, now: int, order: seq<string>, failing: set<string>): Kernel {
    Maintenance(cfg, SweepEach(cfg, w, k, now, FirstBatch(cfg, order), failing), now)
  }

  // ----- Maintenance -----

  function Aged(c: Continuation, now: int): Continuation {
    if c.status == Active && now > c.expiresAt then c.(status := Expired) else c
  }

  predicate KeepToken(cfg: Config, c: Continuation, now: int) {
    match Aged(c, now).status
    case Consumed(at) => now <= at + cfg.continuationRetention
    case _ => now <= c.expiresAt + cfg.continuationRetention
  }

  predicate Purged(cfg: Config, r: Run, now: int) {
    IsTerminal(r.view.state) && now > r.view.updatedAt + cfg.runRetention
  }

  /** The kernel without some runs, their logs and their cache entries. */
  function Without(k: Kernel, gone: set<string>): Kernel {
    DropCaches(k.(runs := k.runs - gone, logs := k.logs - gone), gone)
  }

  function Purge(cfg: Config, k: Kernel, now: int): Kernel {
    Without(k, set id | id in k.runs && Purged(cfg, k.runs[id], now))
  }

  function Maintenance(cfg: Config, k: Kernel, now: int): Kernel {
    var k1 := k.(conts := map t | t in k.conts && KeepToken(cfg, k.conts[t], now) :: Aged(k.conts[t], now),
                 idem := map i | i in k.idem && now <= k.idem[i].lastAccess + cfg.idempotencyTTL :: k.idem[i]);
    var k2 := Purge(cfg, k1, now);
    k2.(creates := map c | c in k2.creates && now <= k2.creates[c].lastAccess + cfg.createRetention :: k2.creates[c])
  }

  // ----- Finding a token -----

  predicate Usable(k: Kernel, now: int, id: string, stepId: string, typ: Option<TokenType>, t: Token) {
    && t in k.conts && t.runId == id
    && (stepId == "" || t.stepId == stepId)
    && (typ.None? || t.typ == typ.value)
    && k.conts[t].status == Active && now <= k.conts[t].expiresAt
  }

  predicate IssuedAfter(t: Token, u: Token) {
    t.seqId > u.seqId || (t.seqId == u.seqId && t.issuedAt > u.issuedAt)
  }

  /** What a search for a usable token may find: nothing if there is none, else one that none is issued after. */
  ghost predicate Found(k: Kernel, now: int, id: string, stepId: string, typ: Option<TokenType>, found: Option<Token>) {
    if id == "" || found.None? then
      found.None? && (id == "" || forall t :: t in k.conts ==> !Usable(k, now, id, stepId, typ, t))
    else
      && Usable(k, now, id, stepId, typ, found.value)
      && forall t :: t in k.conts && Usable(k, now, id, stepId, typ, t) ==> !IssuedAfter(t, found.value)
  }
}
