/** What create, park, resume, abort, the sweeps and maintenance do, told from the run and the request. */
module RunRules {
  import opened Outcomes
  import opened RunTypes
  import opened RunSpec
  import opened RunInvariants
  import opened RunPreservation
  import RunHistory
  import RunOrder
  import opened Checks
  import opened AdvanceRules

  // ----- Create -----

  function CreateChecks(req: CreateRequest, fingerprintOk: bool): seq<(bool, RunError)> {
    [(req.requestId != "" && req.tenant != "" && req.workflow != "" && req.workflowVersion != "" && req.risk.Some?, InputInvalid),
     (req.snapshot.contextPolicyHash != "", SnapshotFreezeFailed),
     (fingerprintOk, HashFailed)]
  }

  /** A run as it is created. */
  ghost predicate NewlyCreated(cfg: Config, r: Run, id: string, req: CreateRequest, now: int)
    requires req.risk.Some?
  {
    && r.view.runId == id && r.view.tenant == req.tenant && r.view.workflow == req.workflow && r.view.workflowVersion == req.workflowVersion
    && r.view.risk == req.risk.value && r.view.state == Running && r.view.version == 1 && r.view.seqId == 0
    && r.view.lastHash == r.view.root == "" && r.view.rootVersion == 0 && r.view.createdAt == r.view.updatedAt == r.view.progressAt == now
    && r.view.snapshotHash == cfg.snapshotHash(req.snapshot, now) && r.view.tags == map[]
    && r.maxLifetime == cfg.maxLifetime(req.risk.value) && !r.securityRisk && !r.resourceRisk && r.noProgressScans == 0
  }

  lemma CreateBody(cfg: Config, k: Kernel, now: int, req: CreateRequest, snapshotOk: bool)
    requires ValidConfig(cfg) && Inv(cfg, k) && AllPass(CreateChecks(req, true))
    ensures var (k', resp) := Create(cfg, k, now, req, true, snapshotOk);
      && req.risk.Some?
      && var key := CreateKey(req.tenant, req.requestId);
      var content := CreateContent(req.requestId, req.tenant, req.workflow, req.workflowVersion, req.risk.value, req.inputRef, req.snapshot);
      if key in k.creates then
        if k.creates[key].fingerprint == cfg.fingerprint(content) then
          && resp == Ok(k.creates[key].response) && k' == k.(creates := k.creates[key := k.creates[key].(lastAccess := now)])
        else resp == Err(CreateConflict) && k' == k
      else if !snapshotOk then resp == Err(HashFailed) && k' == k.(runSeq := k.runSeq + 1)
      else Creates(cfg, k, k', resp, now, req, content)
  {
    hide RunsOk, NamesOk, TokensOk, IdemOk, Admit, ValidConfig, Creates;
    assert CreateChecks(req, true)[0].0 && CreateChecks(req, true)[1].0;
    var key := CreateKey(req.tenant, req.requestId);
    if key in k.creates {
      assert CreateOk(cfg, k, key, k.creates[key]);
    } else {
      assert k.creates - {key} == k.creates;
      AdmitCreates(cfg, k, now, req);
    }
  }

  ghost predicate Creates(cfg: Config, k: Kernel, k': Kernel, resp: Result<CreateResponse, RunError>, now: int, req: CreateRequest, content: CreateContent)
    requires req.risk.Some?
  {
    && resp.Ok? && resp.value.runId !in k.runs && resp.value.runId in k'.runs
    && k'.runs == k.runs[resp.value.runId := k'.runs[resp.value.runId]]
    && NewlyCreated(cfg, k'.runs[resp.value.runId], resp.value.runId, req, now)
    && resp.value.snapshotHash == cfg.snapshotHash(req.snapshot, now) && resp.value.createdAt == now
    && resp.value.contextPolicyHash == req.snapshot.contextPolicyHash
    && k'.creates == k.creates[CreateKey(req.tenant, req.requestId) := CreateEntry(resp.value.runId, cfg.fingerprint(content), resp.value, now)]
    && k'.logs == k.logs && k'.conts == k.conts && k'.idem == k.idem && k'.runSeq == k.runSeq + 1
  }

  lemma AdmitCreates(cfg: Config, k: Kernel, now: int, req: CreateRequest)
    requires ValidConfig(cfg) && RunsOk(cfg, k) && NamesOk(cfg, k) && req.risk.Some?
    ensures var c := Normalise(req);
      Creates(cfg, k, Admit(cfg, k, now, c), Ok(CreateAnswer(cfg, cfg.runName(cfg.fingerprint(c), k.runSeq + 1), c, now)), now, req,
              CreateContent(req.requestId, req.tenant, req.workflow, req.workflowVersion, req.risk.value, req.inputRef, req.snapshot))
  {
    FreshName(cfg, k, cfg.fingerprint(Normalise(req)));
    hide RunsOk, NamesOk, ValidConfig;
  }

  /**
   * A valid create is answered from the entry of its tenant and request id if there is one, with a conflict if that was for
   * another request; otherwise a new run starts under a name never used, and the entry remembers it.
   */
  lemma CreateDoes(cfg: Config, k: Kernel, now: int, req: CreateRequest, fingerprintOk: bool, snapshotOk: bool)
    requires ValidConfig(cfg) && Inv(cfg, k)
    ensures var (k', resp) := Create(cfg, k, now, req, fingerprintOk, snapshotOk);
      if !AllPass(CreateChecks(req, fingerprintOk)) then
        k' == k && resp.Err? && Reports(CreateChecks(req, fingerprintOk), Some(resp.error))
      else
        && req.risk.Some?
        && var key := CreateKey(req.tenant, req.requestId);
        var content := CreateContent(req.requestId, req.tenant, req.workflow, req.workflowVersion, req.risk.value, req.inputRef, req.snapshot);
        if key in k.creates then
          if k.creates[key].fingerprint == cfg.fingerprint(content) then
            && resp == Ok(k.creates[key].response) && k' == k.(creates := k.creates[key := k.creates[key].(lastAccess := now)])
          else resp == Err(CreateConflict) && k' == k
        else if !snapshotOk then resp == Err(HashFailed) && k' == k.(runSeq := k.runSeq + 1)
        else Creates(cfg, k, k', resp, now, req, content)
  {
    var checks := CreateChecks(req, fingerprintOk);
    if !checks[0].0 { FirstFails(checks, 0); }
    else if !checks[1].0 { FirstFails(checks, 1); }
    else if !checks[2].0 { FirstFails(checks, 2); }
    else {
      assert AllPass(checks);
      CreateBody(cfg, k, now, req, snapshotOk);
    }
    hide Create, Reports, AllPass, Inv, Creates;
  }

  /** The same request again gets the same run, and no second one. */
  lemma CreateTwice(cfg: Config, k: Kernel, now: int, req: CreateRequest, later: int, fingerprintOk: bool, snapshotOk: bool)
    requires ValidConfig(cfg) && Inv(cfg, k) && Create(cfg, k, now, req, true, true).1.Ok? && fingerprintOk
    ensures var (k1, first) := Create(cfg, k, now, req, true, true);
      var (k2, second) := Create(cfg, k1, later, req, fingerprintOk, snapshotOk);
      second == first && k2.runs == k1.runs && k2.logs == k1.logs
  {
    var (k1, first) := Create(cfg, k, now, req, true, true);
    CreateDoes(cfg, k, now, req, true, true);
    CreateKeeps(cfg, k, now, req, true, true);
    CreateDoes(cfg, k1, later, req, fingerprintOk, snapshotOk);
    hide Create, Inv, ValidConfig, NewlyCreated;
  }

  // ----- Park -----

  function TypeOf(c: TokenChoice): Option<TokenType> {
    if c.NamedToken? then Some(c.typ) else if c.DefaultToken? then Some(ParkToken) else None
  }

  /** A run is parked for approval under an approval token and plainly under any other. */
  function ParksIn(t: TokenType): RunState {
    if t.ApprovalToken? then AwaitingApproval else Parked
  }

  function ParkChecks(k: Kernel, id: string, req: ParkRequest, hashOk: bool): seq<(bool, RunError)>
    requires id in k.runs
  {
    var v := k.runs[id].view;
    [(v.state !in {Completed, Failed, ForceAbort, Aborted}, TerminalState),
     (req.expectedVersion == v.version, VersionConflict),
     (req.incomingSeq > v.seqId, MonotonicityViolation),
     (TypeOf(req.tokenType).Some? && req.stepId != "", InputInvalid),
     (TypeOf(req.tokenType).Some? && (v.state == Running || v.state == ParksIn(TypeOf(req.tokenType).value)), TransitionForbidden),
     (hashOk, HashFailed)]
  }

  /** One synthetic step is logged and the run is in `next`, with its root at the new hash. */
  ghost predicate Stepped(cfg: Config, k: Kernel, k': Kernel, id: string, stepId: string, seqId: int, tag: Synthetic, input: string,
                          output: string, next: RunState, now: int)
    requires id in k.runs
  {
    && id in k'.runs
    && var (v, v') := (k.runs[id].view, k'.runs[id].view);
    && var content := SyntheticContent(v.lastHash, tag, input, output);
    && Log(k', id) == Log(k, id) + [Step(stepId, seqId, content, cfg.stepHash(content), now)]
    && v'.state == next && v'.version == v.version + 1 && v'.seqId == seqId && v'.lastHash == cfg.stepHash(content)
    && Anchored(v, v'.lastHash, v') && v'.updatedAt == now
    && v'.tags == v.tags && v'.tenant == v.tenant && v'.createdAt == v.createdAt && v'.snapshotHash == v.snapshotHash
  }

  lemma ExtendSteps(cfg: Config, r: Run, stepId: string, seqId: int, tag: Synthetic, input: string, output: string, next: RunState, now: int)
    requires next != Failed && next != SafeguardHold
    ensures var r' := Extend(r, SyntheticStep(cfg, r, stepId, seqId, tag, input, output, now), next);
      && var (v, v', hash) := (r.view, r'.view, cfg.stepHash(SyntheticContent(r.view.lastHash, tag, input, output)));
      && v'.state == next && v'.version == v.version + 1 && v'.seqId == seqId && v'.lastHash == hash
      && Anchored(v, hash, v') && v'.updatedAt == now
      && v'.tags == v.tags && v'.tenant == v.tenant && v'.createdAt == v.createdAt && v'.snapshotHash == v.snapshotHash
      && v'.activeStep == v.activeStep && v'.progressAt == v.progressAt
  {
  }

  /** The run is parked and its one new token is active until its time is up. */
  ghost predicate Parks(cfg: Config, k: Kernel, k': Kernel, now: int, id: string, req: ParkRequest, t: TokenType, resp: ParkResponse)
    requires id in k.runs
  {
    && Stepped(cfg, k, k', id, req.stepId, req.incomingSeq, ParkStep, req.reason, TokenName(t), ParksIn(t), now)
    && k'.runs[id].view.activeStep == req.stepId && k'.runs[id].view.progressAt == now && k'.runs[id].noProgressScans == 0
    && OthersStay(k, k', id) && k'.idem == k.idem && k'.creates == k.creates
    && resp.token == Token(id, req.stepId, req.incomingSeq, t, now)
    && resp.expiresAt == now + (if req.ttl > 0 then req.ttl else cfg.continuationTTL)
    && k'.conts == k.conts[resp.token := Continuation(resp.expiresAt, Active)]
    && resp.newState == ParksIn(t) && resp.version == k'.runs[id].view.version
  }

  lemma PutOthers(k: Kernel, id: string, r: Run, s: Step, k': Kernel)
    requires id in k.runs && k'.runs == k.runs[id := r] && k'.logs == k.logs[id := Log(k, id) + [s]] && k'.runSeq == k.runSeq && k'.born == k.born
    ensures OthersStay(k, k', id) && Log(k', id) == Log(k, id) + [s]
  {
  }

  /** A park is refused with the first check that fails and changes nothing, or does all of it. */
  lemma ParkDoes(cfg: Config, k: Kernel, now: int, id: string, req: ParkRequest, hashOk: bool)
    ensures var (k', resp) := Park(cfg, k, now, id, req, hashOk);
      if id !in k.runs then k' == k && resp == Err(RunNotFound)
      else if !AllPass(ParkChecks(k, id, req, hashOk)) then k' == k && resp.Err? && Reports(ParkChecks(k, id, req, hashOk), Some(resp.error))
      else TypeOf(req.tokenType).Some? && resp.Ok? && Parks(cfg, k, k', now, id, req, TypeOf(req.tokenType).value, resp.value)
  {
    if id in k.runs {
      ParkReports(cfg, k, now, id, req, hashOk);
      hide Park, ParkWith, Reports, Parks, AllPass, ParkChecks;
      if AllPass(ParkChecks(k, id, req, hashOk)) { ParkWithDoes(cfg, k, now, id, req, TypeOf(req.tokenType).value); }
    }
  }

  lemma ParkReports(cfg: Config, k: Kernel, now: int, id: string, req: ParkRequest, hashOk: bool)
    requires id in k.runs
    ensures var (k', resp) := Park(cfg, k, now, id, req, hashOk);
      if !AllPass(ParkChecks(k, id, req, hashOk)) then k' == k && resp.Err? && Reports(ParkChecks(k, id, req, hashOk), Some(resp.error))
      else
        && TypeOf(req.tokenType).Some?
        && k' == ParkWith(cfg, k, now, id, req, TypeOf(req.tokenType).value).0
        && resp == Ok(ParkWith(cfg, k, now, id, req, TypeOf(req.tokenType).value).1)
  {
    ParkAnswer(cfg, k, now, id, req, hashOk);
    hide Park, ParkWith, Reports, AllPass, TypeOf, ParksIn;
    var checks := ParkChecks(k, id, req, hashOk);
    if !checks[0].0 { FirstFails(checks, 0); }
    else if !checks[1].0 { FirstFails(checks, 1); }
    else if !checks[2].0 { FirstFails(checks, 2); }
    else if !checks[3].0 { FirstFails(checks, 3); }
    else if !checks[4].0 { FirstFails(checks, 4); }
    else if !checks[5].0 { FirstFails(checks, 5); }
    else { SixPass(checks); }
  }

  lemma ParkAnswer(cfg: Config, k: Kernel, now: int, id: string, req: ParkRequest, hashOk: bool)
    requires id in k.runs
    ensures var (v, r, t) := (k.runs[id].view, Park(cfg, k, now, id, req, hashOk), TypeOf(req.tokenType));
      if v.state in {Completed, Failed, ForceAbort, Aborted} then r == (k, Err(TerminalState))
      else if req.expectedVersion != v.version then r == (k, Err(VersionConflict))
      else if req.incomingSeq <= v.seqId then r == (k, Err(MonotonicityViolation))
      else if t.None? || req.stepId == "" then r == (k, Err(InputInvalid))
      else if v.state != Running && v.state != ParksIn(t.value) then r == (k, Err(TransitionForbidden))
      else if !hashOk then r == (k, Err(HashFailed))
      else r.0 == ParkWith(cfg, k, now, id, req, t.value).0 && r.1 == Ok(ParkWith(cfg, k, now, id, req, t.value).1)
  {
    hide ParkWith;
  }

  lemma ParkWithDoes(cfg: Config, k: Kernel, now: int, id: string, req: ParkRequest, t: TokenType)
    requires id in k.runs
    ensures Parks(cfg, k, ParkWith(cfg, k, now, id, req, t).0, now, id, req, t, ParkWith(cfg, k, now, id, req, t).1)
  {
    ExtendSteps(cfg, k.runs[id], req.stepId, req.incomingSeq, ParkStep, req.reason, TokenName(t), ParksIn(t), now);
    hide Extend;
    var k' := ParkWith(cfg, k, now, id, req, t).0;
    PutOthers(k, id, k'.runs[id], SyntheticStep(cfg, k.runs[id], req.stepId, req.incomingSeq, ParkStep, req.reason, TokenName(t), now), k');
    hide OthersStay;
  }

  // ----- Resume -----

  function ResumeChecks(k: Kernel, now: int, id: string, req: ResumeRequest, hashOk: bool): seq<(bool, RunError)>
    requires id in k.runs && req.token.Some? && req.token.value in k.conts
  {
    var (v, t, c) := (k.runs[id].view, req.token.value, k.conts[req.token.value]);
    [(t.runId == id, ContinuationRunMismatch),
     (!c.status.Consumed?, ContinuationConsumed),
     (now <= c.expiresAt, ContinuationExpired),
     (req.expectedSnapshot in {"", v.snapshotHash}, SnapshotMismatch),
     (req.incomingSeq > v.seqId, MonotonicityViolation),
     (t.seqId == v.seqId, ContinuationSeqMismatch),
     (hashOk, HashFailed)]
  }

  /** The run is RUNNING again and its token is spent. */
  ghost predicate Resumes(cfg: Config, k: Kernel, k': Kernel, now: int, id: string, t: Token, req: ResumeRequest, resp: ResumeResponse)
    requires id in k.runs && t in k.conts
  {
    && Stepped(cfg, k, k', id, t.stepId, req.incomingSeq, ResumeStep, req.reason, req.receiptRef, Running, now)
    && k'.runs[id].view.activeStep == t.stepId && k'.runs[id].view.progressAt == now && k'.runs[id].noProgressScans == 0
    && OthersStay(k, k', id) && k'.idem == k.idem && k'.creates == k.creates
    && k'.conts == k.conts[t := k.conts[t].(status := Consumed(now))]
    && resp == ResumeResponse(Running, k'.runs[id].view.version)
  }

  /**
   * In a reachable state a token resumes its run if and only if it is of that run, unspent, in time, at the run's current
   * number and asked for under the right snapshot and a later number; the state then fits by itself. A refusal changes
   * nothing, but for marking a token found expired.
   */
  lemma ResumeDoes(cfg: Config, k: Kernel, now: int, id: string, req: ResumeRequest, hashOk: bool)
    requires Inv(cfg, k)
    ensures var (k', resp) := Resume(cfg, k, now, id, req, hashOk);
      if id !in k.runs then k' == k && resp == Err(RunNotFound)
      else if req.token.None? then k' == k && resp == Err(InputInvalid)
      else if req.token.value !in k.conts then k' == k && resp == Err(ContinuationMissing)
      else if !AllPass(ResumeChecks(k, now, id, req, hashOk)) then
        && resp.Err? && Reports(ResumeChecks(k, now, id, req, hashOk), Some(resp.error))
        && k' == (if resp.error == ContinuationExpired then k.(conts := k.conts[req.token.value := k.conts[req.token.value].(status := Expired)]) else k)
      else resp.Ok? && Resumes(cfg, k, k', now, id, req.token.value, req, resp.value)
  {
    RunHistory.LateChecksIdle(cfg, k, now, id, req);
    if id in k.runs && req.token.Some? && req.token.value in k.conts {
      ResumeReports(cfg, k, now, id, req, hashOk);
      ResumeWithDoes(cfg, k, now, id, req.token.value, req);
      hide Resume, ResumeWith, ResumeError, ResumeChecks, Reports, AllPass, Resumes, Inv;
    } else {
      hide ResumeWith, Inv;
    }
  }

  lemma ResumeReports(cfg: Config, k: Kernel, now: int, id: string, req: ResumeRequest, hashOk: bool)
    requires id in k.runs && req.token.Some? && req.token.value in k.conts
    requires ResumeError(k, now, id, req) != Some(NotResumable) && ResumeError(k, now, id, req) != Some(ContinuationTypeMismatch)
    ensures var (k', resp) := Resume(cfg, k, now, id, req, hashOk);
      if !AllPass(ResumeChecks(k, now, id, req, hashOk)) then
        && resp.Err? && Reports(ResumeChecks(k, now, id, req, hashOk), Some(resp.error))
        && k' == (if resp.error == ContinuationExpired then k.(conts := k.conts[req.token.value := k.conts[req.token.value].(status := Expired)]) else k)
      else
        && var w := ResumeWith(cfg, k, now, id, req.token.value, req);
        id in w.runs && k' == w && resp == Ok(ResumeResponse(w.runs[id].view.state, w.runs[id].view.version))
  {
    hide ResumeWith, Reports, AllPass, TokenMatchesState;
    assert id in ResumeWith(cfg, k, now, id, req.token.value, req).runs by { ResumeWithDoes(cfg, k, now, id, req.token.value, req); }
    var checks := ResumeChecks(k, now, id, req, hashOk);
    if !checks[0].0 { FirstFails(checks, 0); }
    else if !checks[1].0 { FirstFails(checks, 1); }
    else if !checks[2].0 { FirstFails(checks, 2); }
    else if !checks[3].0 { FirstFails(checks, 3); }
    else if !checks[4].0 { FirstFails(checks, 4); }
    else if !checks[5].0 { FirstFails(checks, 5); }
    else if !checks[6].0 { FirstFails(checks, 6); }
    else { SevenPass(checks); }
  }

  lemma ResumeWithDoes(cfg: Config, k: Kernel, now: int, id: string, t: Token, req: ResumeRequest)
    requires id in k.runs && t in k.conts
    ensures var k' := ResumeWith(cfg, k, now, id, t, req);
      id in k'.runs && Resumes(cfg, k, k', now, id, t, req, ResumeResponse(k'.runs[id].view.state, k'.runs[id].view.version))
  {
    ExtendSteps(cfg, k.runs[id], t.stepId, req.incomingSeq, ResumeStep, req.reason, req.receiptRef, Running, now);
    hide Extend;
    var k' := ResumeWith(cfg, k, now, id, t, req);
    PutOthers(k, id, k'.runs[id], SyntheticStep(cfg, k.runs[id], t.stepId, req.incomingSeq, ResumeStep, req.reason, req.receiptRef, now), k');
    hide OthersStay;
  }

  // ----- Abort and the sweeps -----

  /** The run is closed by a step one past its number, and if it ended nothing is cached for it any more. */
  ghost predicate Closes(cfg: Config, k: Kernel, k': Kernel, now: int, id: string, tag: Synthetic, input: string, output: string, next: RunState,
                         reason: string, source: string)
    requires id in k.runs
  {
    && Stepped(cfg, k, k', id, k.runs[id].view.activeStep, k.runs[id].view.seqId + 1, tag, input, output, next, now)
    && k'.runs[id].view.reason == reason && k'.runs[id].view.source == source
    && OthersStay(k, k', id)
    && (if Ends(next) then Uncached(k', id) else k'.conts == k.conts && k'.idem == k.idem && k'.creates == k.creates)
  }

  lemma CloseDoes(cfg: Config, k: Kernel, id: string, tag: Synthetic, input: string, output: string, next: RunState,
                  reason: string, source: string, progress: bool, now: int)
    requires id in k.runs && CachesOk(cfg, k) && next != Failed && next != SafeguardHold
    ensures var k' := Close(cfg, k, id, tag, input, output, next, reason, source, progress, now);
      && Closes(cfg, k, k', now, id, tag, input, output, next, reason, source)
      && k'.runs[id].view.progressAt == if progress then now else k.runs[id].view.progressAt
  {
    hide CachesOk;
    if Ends(next) { CloseUncaches(cfg, k, id, tag, input, output, next, reason, source, progress, now); }
    hide Uncached;
    var k' := Close(cfg, k, id, tag, input, output, next, reason, source, progress, now);
    var r', s := ClosedRun(k.runs[id], ClosingStep(cfg, k.runs[id], tag, input, output, now), next, reason, source, progress),
                 ClosingStep(cfg, k.runs[id], tag, input, output, now);
    assert k'.runs == k.runs[id := r'] && k'.logs == k.logs[id := Log(k, id) + [s]] && k'.runSeq == k.runSeq && k'.born == k.born;
    assert !Ends(next) ==> k'.conts == k.conts && k'.idem == k.idem && k'.creates == k.creates;
    PutOthers(k, id, r', s, k');
    hide Close, OthersStay;
    ExtendSteps(cfg, k.runs[id], k.runs[id].view.activeStep, k.runs[id].view.seqId + 1, tag, input, output, next, now);
    hide Extend;
  }

  lemma CloseUncaches(cfg: Config, k: Kernel, id: string, tag: Synthetic, input: string, output: string, next: RunState,
                      reason: string, source: string, progress: bool, now: int)
    requires id in k.runs && Ends(next) && CachesOk(cfg, k)
    ensures Uncached(Close(cfg, k, id, tag, input, output, next, reason, source, progress, now), id)
  {
    hide ClosedRun, TokensOk, CreatesOk;
  }

  lemma AbortDoes(cfg: Config, k: Kernel, now: int, id: string, reason: string, hashOk: bool)
    requires CachesOk(cfg, k)
    ensures var (k', resp) := Abort(cfg, k, now, id, reason, hashOk);
      if id !in k.runs then k' == k && resp == Err(RunNotFound)
      else if k.runs[id].view.state in {Completed, Failed, ForceAbort, Aborted} then k' == k && resp == Ok(k.runs[id].view)
      else if !hashOk then k' == k && resp == Err(HashFailed)
      else
        && Closes(cfg, k, k', now, id, AbortStep, reason, "aborted", Aborted, if reason == "" then "manual_abort" else reason, "abort_api")
        && k'.runs[id].view.progressAt == now && resp == Ok(k'.runs[id].view)
  {
    if id in k.runs {
      CloseDoes(cfg, k, id, AbortStep, reason, "aborted", Aborted, if reason == "" then "manual_abort" else reason, "abort_api", true, now);
    }
    hide Close, Closes, CachesOk;
  }

  predicate Risky(r: Run) {
    r.securityRisk || r.resourceRisk
  }

  /** A live run past its lifetime that made no progress within the window, or that is at risk. */
  predicate Overdue(cfg: Config, r: Run, now: int) {
    && r.view.state !in {Completed, Failed, ForceAbort, Aborted}
    && r.maxLifetime > 0 && now - r.view.createdAt > r.maxLifetime
    && (Risky(r) || now - r.view.progressAt > cfg.noProgressWindow)
  }

  /** The lifetime sweep aborts an overdue run at risk, puts another overdue run to review, and leaves every other alone. */
  lemma TtlDoes(cfg: Config, k: Kernel, now: int, id: string, hashOk: bool)
    requires CachesOk(cfg, k)
    ensures var k' := TtlOne(cfg, k, now, id, hashOk);
      if id !in k.runs || !Overdue(cfg, k.runs[id], now) || !hashOk then k' == k
      else if Risky(k.runs[id]) then Closes(cfg, k, k', now, id, TtlAbort, "ttl_breach_risk", "", ForceAbort, "ttl_breach_risk", "ttl_sweeper")
      else Closes(cfg, k, k', now, id, TtlReview, "ttl_breach", "", ForceReviewRequired, "ttl_breach", "ttl_sweeper")
  {
    if id in k.runs {
      CloseDoes(cfg, k, id, TtlAbort, "ttl_breach_risk", "", ForceAbort, "ttl_breach_risk", "ttl_sweeper", false, now);
      CloseDoes(cfg, k, id, TtlReview, "ttl_breach", "", ForceReviewRequired, "ttl_breach", "ttl_sweeper", false, now);
    }
    hide Close, Closes, CachesOk;
  }

  predicate Idle(cfg: Config, r: Run, now: int) {
    now - r.view.progressAt > cfg.noProgressWindow
  }

  /** One more idle scan of the run is counted, or none any more. */
  function Counted(cfg: Config, k: Kernel, now: int, id: string): Kernel
    requires id in k.runs
  {
    k.(runs := k.runs[id := k.runs[id].(noProgressScans := if Idle(cfg, k.runs[id], now) then k.runs[id].noProgressScans + 1 else 0)])
  }

  /** The no-progress sweep counts idle scans of a live run from its last progress; the second one closes it, by its risk. */
  lemma ZombieDoes(cfg: Config, k: Kernel, now: int, id: string, hashOk: bool)
    requires CachesOk(cfg, k)
    ensures var k' := ZombieOne(cfg, k, now, id, hashOk);
      if id !in k.runs || k.runs[id].view.state in {Completed, Failed, ForceAbort, Aborted} then k' == k
      else
        var r := k.runs[id];
        if !Idle(cfg, r, now) || r.noProgressScans < 1 || !hashOk then k' == Counted(cfg, k, now, id)
        else Closes(cfg, Counted(cfg, k, now, id), k', now, id, ZombieSweep, "no_progress", "", if Risky(r) then ForceAbort else ForceReviewRequired,
                    "no_progress", "zombie_sweeper")
  {
    if id in k.runs && !IsTerminal(k.runs[id].view.state) {
      var r := k.runs[id];
      var k1 := SetRun(k, id, r.(noProgressScans := r.noProgressScans + 1));
      SetRunCaches(cfg, k, id, r.(noProgressScans := r.noProgressScans + 1));
      CloseDoes(cfg, k1, id, ZombieSweep, "no_progress", "", if Risky(r) then ForceAbort else ForceReviewRequired,
                "no_progress", "zombie_sweeper", false, now);
    }
    hide Close, Closes, CachesOk;
  }

  lemma FlagDoes(k: Kernel, id: string, security: bool, resource: bool)
    ensures var k' := FlagRisk(k, id, security, resource);
      && k' == k.(runs := k'.runs) && OthersStay(k, k', id)
      && (id in k.runs ==> k'.runs[id].view == k.runs[id].view && k'.runs[id].securityRisk == security && k'.runs[id].resourceRisk == resource)
  {
  }

  /** A sweep visits the first ids in order, as many as its batch holds. */
  lemma BatchIs(cfg: Config, order: seq<string>)
    ensures FirstBatch(cfg, order) <= order
    ensures |FirstBatch(cfg, order)| == if |order| < cfg.batchLimit then |order| else cfg.batchLimit
  {
  }

  /** There is one ascending order of a set of ids, and each id is in it once. */
  lemma {:induction false} SortedUnique(a: seq<string>, b: seq<string>, keys: set<string>)
    requires SortedKeys(a, keys) && SortedKeys(b, keys)
    ensures a == b
  {
    if a == [] {
      if b != [] { HasOne(b); }
    } else {
      assert a[0] in keys && a[0] in b;
      assert b[0] in keys && b[0] in a;
      var i :| 0 <= i < |a| && a[i] == b[0];
      var j :| 0 <= j < |b| && b[j] == a[0];
      if i > 0 && j > 0 { RunOrder.BeforeNotBoth(a[0], a[i]); }
      SortedTail(a, keys);
      SortedTail(b, keys);
      SortedUnique(a[1..], b[1..], keys - {a[0]});
      assert a == [a[0]] + a[1..] && b == [b[0]] + b[1..];
    }
  }

  lemma HasOne(a: seq<string>)
    requires a != []
    ensures exists x :: x in a
  {
    assert a[0] in a;
  }

  lemma SortedTail(a: seq<string>, keys: set<string>)
    requires SortedKeys(a, keys) && a != []
    ensures SortedKeys(a[1..], keys - {a[0]})
  {
    var t := a[1..];
    forall i | 0 <= i < |t| ensures t[i] != a[0] && t[i] in a { RunOrder.BeforeIrreflexive(a[0]); assert Before(a[0], a[i + 1]); }
    forall x | x in keys - {a[0]} ensures x in t {
      var i :| 0 <= i < |a| && a[i] == x;
      assert t[i - 1] == x;
    }
  }

  // ----- Maintenance -----

  /** A terminal run that was last touched longer ago than runs are kept. */
  predicate Lapsed(cfg: Config, r: Run, now: int) {
    r.view.state in {Completed, Failed, ForceAbort, Aborted} && now - r.view.updatedAt > cfg.runRetention
  }

  /** When the time that a token is kept for begins: when it was spent, else when it expires. */
  function KeptFrom(c: Continuation): int {
    match c.status case Consumed(at) => at case _ => c.expiresAt
  }

  ghost predicate RunKept(cfg: Config, k: Kernel, now: int, id: string) {
    id in k.runs && !Lapsed(cfg, k.runs[id], now)
  }

  ghost predicate TokensMaintained(cfg: Config, k: Kernel, k': Kernel, now: int) {
    && (forall t :: t in k'.conts <==> t in k.conts && now - KeptFrom(k.conts[t]) <= cfg.continuationRetention)
    && (forall t :: t in k'.conts ==>
          k'.conts[t].expiresAt == k.conts[t].expiresAt
          && k'.conts[t].status == if k.conts[t].status == Active && now > k.conts[t].expiresAt then Expired else k.conts[t].status)
  }

  ghost predicate AnswersMaintained(cfg: Config, k: Kernel, k': Kernel, now: int) {
    && (forall i :: i in k'.idem <==> i in k.idem && now - k.idem[i].lastAccess <= cfg.idempotencyTTL)
    && (forall i :: i in k'.idem ==> k'.idem[i] == k.idem[i])
    && (forall c :: c in k'.creates <==> c in k.creates && now - k.creates[c].lastAccess <= cfg.createRetention)
    && (forall c :: c in k'.creates ==> k'.creates[c] == k.creates[c])
  }

  ghost predicate RunsMaintained(cfg: Config, k: Kernel, k': Kernel, now: int) {
    && (forall id :: id in k'.runs <==> RunKept(cfg, k, now, id))
    && (forall id :: id in k'.runs ==> k'.runs[id] == k.runs[id] && Log(k', id) == Log(k, id))
    && k'.runSeq == k.runSeq
  }

  /** Exactly what maintenance keeps, and that the rest is as it was but for active tokens that have expired. */
  lemma MaintenanceDoes(cfg: Config, k: Kernel, now: int)
    requires Inv(cfg, k)
    ensures var k' := Maintenance(cfg, k, now);
      RunsMaintained(cfg, k, k', now) && TokensMaintained(cfg, k, k', now) && AnswersMaintained(cfg, k, k', now)
  {
    hide RunsOk, NamesOk, CachesOk, Maintenance, RunsMaintained, TokensMaintained, AnswersMaintained;
    MaintainedRuns(cfg, k, now);
    MaintainedTokens(cfg, k, now);
    MaintainedAnswers(cfg, k, now);
  }

  lemma MaintainedRuns(cfg: Config, k: Kernel, now: int)
    ensures RunsMaintained(cfg, k, Maintenance(cfg, k, now), now)
  {
  }

  lemma MaintainedTokens(cfg: Config, k: Kernel, now: int)
    requires CachesOk(cfg, k)
    ensures TokensMaintained(cfg, k, Maintenance(cfg, k, now), now)
  {
    hide CachesOk, Maintenance;
    MaintainedConts(cfg, k, now);
    TokensAreLive(cfg, k);
  }

  lemma TokensAreLive(cfg: Config, k: Kernel)
    requires CachesOk(cfg, k)
    ensures forall t :: t in k.conts ==> t.runId in k.runs && !IsTerminal(k.runs[t.runId].view.state)
  {
    hide Issued, IdemOk, CreatesOk, TokenMatchesState, IsTerminal;
    forall t | t in k.conts ensures Live(k, t.runId) { assert TokenOk(k, t); }
  }

  lemma MaintainedConts(cfg: Config, k: Kernel, now: int)
    ensures var k' := Maintenance(cfg, k, now);
      && (forall t :: t in k'.conts <==>
            t in k.conts && KeepToken(cfg, k.conts[t], now) && !(t.runId in k.runs && Purged(cfg, k.runs[t.runId], now)))
      && (forall t :: t in k'.conts ==> k'.conts[t] == RunSpec.Aged(k.conts[t], now))
  {
    hide KeepToken, Purged, RunSpec.Aged;
  }

  lemma MaintainedAnswers(cfg: Config, k: Kernel, now: int)
    requires CachesOk(cfg, k)
    ensures AnswersMaintained(cfg, k, Maintenance(cfg, k, now), now)
  {
    hide CachesOk, KeepToken;
    AnswersAreLive(cfg, k);
  }

  lemma AnswersAreLive(cfg: Config, k: Kernel)
    requires CachesOk(cfg, k)
    ensures forall i :: i in k.idem ==> k.idem[i].runId in k.runs && !IsTerminal(k.runs[k.idem[i].runId].view.state)
    ensures forall c :: c in k.creates ==> k.creates[c].runId in k.runs && !IsTerminal(k.runs[k.creates[c].runId].view.state)
  {
    hide TokensOk, Recorded, IsTerminal;
    forall c | c in k.creates ensures Live(k, k.creates[c].runId) { assert CreateOk(cfg, k, c, k.creates[c]); }
  }

  // ----- Finding a token -----

  /** The token is one of the run, for the step and of the type asked for, active and in time. */
  predicate Serves(k: Kernel, now: int, id: string, stepId: string, typ: Option<TokenType>, t: Token) {
    && t in k.conts && t.runId == id && (stepId != "" ==> t.stepId == stepId) && (typ.Some? ==> t.typ == typ.value)
    && k.conts[t].status == Active && k.conts[t].expiresAt >= now
  }

  /** A search finds a token that serves exactly if there is one, and then the one with the latest number and, at the same number, the latest issue. */
  lemma FoundIff(k: Kernel, now: int, id: string, stepId: string, typ: Option<TokenType>, found: Option<Token>)
    ensures Found(k, now, id, stepId, typ, found) <==>
      if found.None? then id == "" || forall t :: t in k.conts ==> !Serves(k, now, id, stepId, typ, t)
      else
        && id != "" && Serves(k, now, id, stepId, typ, found.value)
        && forall t :: t in k.conts && Serves(k, now, id, stepId, typ, t) ==>
             t.seqId < found.value.seqId || (t.seqId == found.value.seqId && t.issuedAt <= found.value.issuedAt)
  {
    assert forall t :: t in k.conts ==> (Usable(k, now, id, stepId, typ, t) <==> Serves(k, now, id, stepId, typ, t));
  }
}
