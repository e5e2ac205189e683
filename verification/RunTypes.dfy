/**
 * The run kernel's records. Identifiers are strings already trimmed, so a blank identifier is "".
 * Times and durations are integers, 0 being the zero time. States, tiers and token types are datatypes.
 */
module RunTypes {
  import opened Outcomes

  datatype RunState =
    | Running | Parked | AwaitingApproval | Reconciling | Completed | Failed
    | SafeguardHold | ForceReviewRequired | ForceAbort | Aborted

  datatype TokenType = ParkToken | ApprovalToken | CallbackToken

  datatype RootType = NoRoot | CompletedRoot | PartialRoot | ReconciledRoot | ReviewHoldRoot | AbortedRoot

  datatype Risk = Low | Medium | High | Critical

  datatype Phase = NoPhase | PreContext | PreTool | PreResume | PreRelease | OtherPhase

  datatype HashKind = Stable | Fallback | ErrorKind

  datatype DecisionValue = NoValue | Allow | RequireApproval | ReviewRequired | ForceReview | OtherValue

  datatype Synthetic = ParkStep | ResumeStep | AbortStep | TtlAbort | TtlReview | ZombieSweep

  /** What a step hash is computed from. The step id and the sequence number are not part of it. */
  datatype StepContent =
    | NormalContent(prev: string, decisionHash: string, input: string, output: string)
    | SyntheticContent(prev: string, tag: Synthetic, input: string, output: string)

  datatype Step = Step(stepId: string, seqId: int, content: StepContent, hash: string, at: int)

  datatype Anchors = Anchors(completed: string, partialRoot: string, reconciled: string, reviewHold: string, aborted: string)

  datatype TagKey = NamedTag(name: string) | PositionalTag(index: nat)

  datatype RunView = RunView(
    runId: string, tenant: string, workflow: string, workflowVersion: string,
    state: RunState, activeStep: string, version: int, risk: Risk,
    lastHash: string, root: string, rootVersion: int, rootType: RootType,
    reason: string, source: string, tags: map<TagKey, string>, seqId: int,
    createdAt: int, updatedAt: int, progressAt: int, snapshotHash: string, anchors: Anchors)

  datatype Run = Run(view: RunView, maxLifetime: int, securityRisk: bool, resourceRisk: bool, noProgressScans: int)

  /** A continuation token stands for the tuple it is hashed from. */
  datatype Token = Token(runId: string, stepId: string, seqId: int, typ: TokenType, issuedAt: int)

  datatype TokenStatus = Active | Expired | Consumed(at: int)

  datatype Continuation = Continuation(expiresAt: int, status: TokenStatus)

  datatype SnapshotInput = SnapshotInput(
    policyBundle: string, modelProfile: string, dependencyBundle: string, skillBundleHash: string, contextPolicyHash: string)

  /** A create request after normalisation: what its fingerprint is computed from. */
  datatype CreateContent = CreateContent(
    requestId: string, tenant: string, workflow: string, workflowVersion: string,
    risk: Risk, inputRef: string, snapshot: SnapshotInput)

  datatype CreateRequest = CreateRequest(
    requestId: string, tenant: string, workflow: string, workflowVersion: string,
    risk: Option<Risk>, inputRef: string, snapshot: SnapshotInput)

  datatype CreateResponse = CreateResponse(runId: string, snapshotHash: string, contextPolicyHash: string, createdAt: int)

  datatype CreateKey = CreateKey(tenant: string, requestId: string)

  datatype CreateEntry = CreateEntry(runId: string, fingerprint: string, response: CreateResponse, lastAccess: int)

  datatype IdemKey = IdemKey(runId: string, stepId: string, stepVersion: string, key: string)

  datatype AdvanceResponse = AdvanceResponse(
    newState: RunState, version: int, stepHash: string, root: string, rootVersion: int, rootType: RootType, seqId: int)

  datatype IdemEntry = IdemEntry(runId: string, response: AdvanceResponse, lastAccess: int)

  datatype LimitTarget = MaxInputLen | MaxOutputLen | MaxSeq | UnknownTarget

  /** An obligation with its type, target and value already parsed; a limit that does not parse is None. */
  datatype Duty =
    | BlankDuty | DenyExecution | LimitParam(target: LimitTarget, limit: Option<nat>)
    | AttachTag(tag: string, value: string) | RequireTemplate(template: string) | EmitAudit | Unsupported

  datatype Obligation = Obligation(duty: Duty, phase: Phase)

  datatype DecisionReference = DecisionReference(
    decisionId: string, runId: string, stepId: string, attempt: int, phase: Phase, decision: DecisionValue,
    obligations: seq<Obligation>, hash: string, hashValid: bool, hashKind: HashKind)

  datatype NextState = DefaultState | NamedState(state: RunState) | UnknownState

  datatype TokenChoice = DefaultToken | NamedToken(typ: TokenType) | UnknownToken

  datatype AdvanceRequest = AdvanceRequest(
    expectedVersion: int, stepId: string, stepVersion: string, idempotencyKey: string,
    decisionId: string, decisionHash: string, decisionHashKind: Option<HashKind>,
    ticketId: string, used: map<string, real>, receiptAt: int, templates: set<string>,
    incomingSeq: int, inputHash: string, outputHash: string, next: NextState)

  datatype ParkRequest = ParkRequest(
    expectedVersion: int, stepId: string, incomingSeq: int, tokenType: TokenChoice, reason: string, ttl: int)

  datatype ParkResponse = ParkResponse(newState: RunState, version: int, token: Token, expiresAt: int, partialRoot: string)

  datatype ResumeRequest = ResumeRequest(
    token: Option<Token>, reason: string, receiptRef: string, incomingSeq: int, expectedSnapshot: string)

  datatype ResumeResponse = ResumeResponse(newState: RunState, version: int)

  /** The answers of the decision port to the three calls of one advance; no port answers like a missing reference. */
  datatype PortAnswers = PortAnswers(ref: Option<DecisionReference>, confirmed: bool, receiptOk: bool)

  datatype RunError =
    | RunNotFound | TerminalState | StateConflict | InputInvalid | VersionConflict | MonotonicityViolation
    | DecisionRefMissing | PendingMismatch | DecisionHashInvalid | BindingMismatch | HashKindMismatch
    | DecisionHashMismatch | NotExecutable | ReceiptRejected
    | PhaseMismatch | DutyDenied | LimitViolated | TemplateRequired | UnsupportedDuty
    | TransitionForbidden | HashFailed | SnapshotFreezeFailed | CreateConflict
    | ContinuationMissing | ContinuationRunMismatch | ContinuationConsumed | ContinuationExpired
    | SnapshotMismatch | ContinuationSeqMismatch | NotResumable | ContinuationTypeMismatch

  predicate IsTerminal(s: RunState) {
    s == Completed || s == Failed || s == ForceAbort || s == Aborted
  }

  predicate AllowedTransition(from: RunState, to: RunState) {
    || from == to
    || match from
       case Running => true
       case Reconciling => to in {Running, Completed, Failed, ForceReviewRequired, ForceAbort}
       case Parked => to in {Running, ForceReviewRequired, ForceAbort}
       case AwaitingApproval => to in {Running, ForceReviewRequired, ForceAbort}
       case SafeguardHold => to in {ForceReviewRequired, ForceAbort, Aborted}
       case _ => false
  }

  predicate TokenMatchesState(t: TokenType, s: RunState) {
    match t
    case ApprovalToken => s == AwaitingApproval
    case ParkToken => s == Parked
    case CallbackToken => s == Parked
  }

  predicate ExecutableDecision(d: DecisionValue) {
    d == NoValue || d == Allow || d == RequireApproval
  }

  /** Lexicographic order on identifiers, the order in which the sweeps visit the runs. */
  predicate Before(a: string, b: string) {
    if b == "" then false
    else if a == "" then true
    else a[0] < b[0] || (a[0] == b[0] && Before(a[1..], b[1..]))
  }
}
