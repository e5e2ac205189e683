/**
 * The run kernel as it is written: maps and run records updated step by step, early returns on each failed check,
 * loops over the maps in the cleanups and the sweeps. Each method is proved to do what its function in RunSpec says.
 */
module RunKernel {
  import opened Outcomes
  import opened RunTypes
  import opened RunSpec
  import opened RunOrder

  /** Writing the tags back before the step is appended makes no difference to the outcome. */
  lemma AppendOver(cfg: Config, k: RunSpec.Kernel, r: Run, now: int, id: string, req: AdvanceRequest, next: RunState)
    ensures AdvanceAppend(cfg, SetRun(k, id, r), now, id, r, req, next) == AdvanceAppend(cfg, k, now, id, r, req, next)
  {
    hide AdvancedRun;
    var s, r1 := AdvanceStep(cfg, r, now, req), AdvancedRun(cfg, r, now, req, next);
    assert Put(SetRun(k, id, r), id, r1, s) == Put(k, id, r1, s);
  }

  function WithProgress(r: Run, now: int, req: AdvanceRequest, next: RunState): Run {
    r.(noProgressScans := 0,
       view := r.view.(activeStep := req.stepId, progressAt := now,
                       reason := if IsTerminal(next) then "advance_terminal_state" else "",
                       source := if IsTerminal(next) then "advance" else ""))
  }

  lemma ProgressedIs(cfg: Config, r: Run, now: int, req: AdvanceRequest, next: RunState)
    ensures AdvancedRun(cfg, r, now, req, next) == WithProgress(Extend(r, AdvanceStep(cfg, r, now, req), next), now, req, next)
  {
    hide Extend;
  }

  lemma WithoutNone(k: RunSpec.Kernel)
    ensures Without(k, {}) == k
  {
    assert k.runs - {} == k.runs && k.logs - {} == k.logs;
  }

  lemma WithoutRuns(k: RunSpec.Kernel, gone: set<string>)
    ensures Without(k, gone).runs == k.runs - gone
  {
  }

  lemma WithoutOneMore(k: RunSpec.Kernel, gone: set<string>, id: string)
    ensures var w := Without(k, gone);
      DropCaches(w.(runs := w.runs - {id}, logs := w.logs - {id}), {id}) == Without(k, gone + {id})
  {
    var w := Without(k, gone);
    assert k.runs - gone - {id} == k.runs - (gone + {id});
    assert k.logs - gone - {id} == k.logs - (gone + {id});
    var k0 := k.(runs := k.runs - gone, logs := k.logs - gone);
    DropTwice(k0, gone, id);
    DropElsewhere(DropCaches(k0, gone), k.runs - (gone + {id}), k.logs - (gone + {id}), {id});
    DropElsewhere(k0, k.runs - (gone + {id}), k.logs - (gone + {id}), gone + {id});
    hide DropCaches;
  }

  lemma DropTwice(k: RunSpec.Kernel, gone: set<string>, id: string)
    ensures DropCaches(DropCaches(k, gone), {id}) == DropCaches(k, gone + {id})
  {
  }

  lemma DropElsewhere(k: RunSpec.Kernel, runs: map<string, Run>, logs: map<string, seq<Step>>, gone: set<string>)
    ensures DropCaches(k.(runs := runs, logs := logs), gone) == DropCaches(k, gone).(runs := runs, logs := logs)
  {
  }

  /** The runs to purge apart from those still to be looked at. */
  function PurgedBut(cfg: Config, k: RunSpec.Kernel, now: int, ids: set<string>): set<string> {
    set x | x in k.runs && x !in ids && Purged(cfg, k.runs[x], now)
  }

  lemma PurgedNone(cfg: Config, k: RunSpec.Kernel, now: int)
    ensures PurgedBut(cfg, k, now, k.runs.Keys) == {}
  {
  }

  lemma PurgedOne(cfg: Config, k: RunSpec.Kernel, now: int, ids: set<string>, id: string)
    requires id in ids && id in k.runs
    ensures id !in PurgedBut(cfg, k, now, ids)
    ensures PurgedBut(cfg, k, now, ids - {id}) == PurgedBut(cfg, k, now, ids) + if Purged(cfg, k.runs[id], now) then {id} else {}
  {
    hide Purged;
  }

  lemma PurgedAll(cfg: Config, k: RunSpec.Kernel, now: int)
    ensures Without(k, PurgedBut(cfg, k, now, {})) == Purge(cfg, k, now)
  {
    hide Purged, Without;
    assert PurgedBut(cfg, k, now, {}) == set id | id in k.runs && Purged(cfg, k.runs[id], now);
  }

  class Kernel {
    const cfg: Config
    var runs: map<string, Run>
    var continuations: map<Token, Continuation>
    var idempotency: map<IdemKey, IdemEntry>
    var createRuns: map<CreateKey, CreateEntry>
    var stepIntegrity: map<string, seq<Step>>
    var runSeq: nat
    ghost var born: map<string, CreateContent>

    /** The maps as one value. */
    ghost function Now(): RunSpec.Kernel
      reads this
    {
      RunSpec.Kernel(runs, continuations, idempotency, createRuns, stepIntegrity, runSeq, born)
    }

    constructor (cfg: Config)
      ensures this.cfg == cfg && Now() == EMPTY_KERNEL
    {
      this.cfg := cfg;
      runs, continuations, idempotency, createRuns, stepIntegrity, runSeq, born := map[], map[], map[], map[], map[], 0, map[];
    }

    method CreateRun(now: int, req: CreateRequest, fingerprintOk: bool, snapshotOk: bool) returns (resp: Result<CreateResponse, RunError>)
      modifies this
      ensures (Now(), resp) == Create(cfg, old(Now()), now, req, fingerprintOk, snapshotOk)
    {
      if req.requestId == "" || req.tenant == "" || req.workflow == "" || req.workflowVersion == "" {
        return Err(InputInvalid);
      }
      if req.risk.None? { return Err(InputInvalid); }
      if req.snapshot.contextPolicyHash == "" { return Err(SnapshotFreezeFailed); }
      if !fingerprintOk { return Err(HashFailed); }
      var content := CreateContent(req.requestId, req.tenant, req.workflow, req.workflowVersion, req.risk.value, req.inputRef, req.snapshot);
      var fp := cfg.fingerprint(content);
      var key := CreateKey(req.tenant, req.requestId);
      if key in createRuns {
        var existing := createRuns[key];
        if existing.fingerprint != fp { return Err(CreateConflict); }
        if existing.runId in runs {
          existing := existing.(lastAccess := now);
          createRuns := createRuns[key := existing];
          return Ok(existing.response);
        }
        createRuns := createRuns - {key};
      }
      runSeq := runSeq + 1;
      var id := cfg.runName(fp, runSeq);
      if !snapshotOk {
        assert createRuns == old(createRuns) - {key};
        return Err(HashFailed);
      }
      var snapshotHash := cfg.snapshotHash(req.snapshot, now);
      var view := RunView(id, req.tenant, req.workflow, req.workflowVersion, Running, "", 1, req.risk.value, "", "", 0, NoRoot, "", "",
                          map[], 0, now, now, now, snapshotHash, NO_ANCHORS);
      runs := runs[id := Run(view, cfg.maxLifetime(req.risk.value), false, false, 0)];
      var answer := CreateResponse(id, snapshotHash, req.snapshot.contextPolicyHash, now);
      createRuns := createRuns[key := CreateEntry(id, fp, answer, now)];
      born := born[id := content];
      assert createRuns == old(createRuns)[key := createRuns[key]];
      return Ok(answer);
    }

    /** The one place where a run's integrity root changes. */
    method AnchorRoot(id: string, t: RootType, root: string)
      requires id in runs
      modifies this`runs
      ensures runs == old(runs)[id := old(runs)[id].(view := Anchor(old(runs)[id].view, t, root))]
    {
      if root == "" { return; }
      var v := runs[id].view;
      if root != v.root {
        v := v.(root := root, rootVersion := v.rootVersion + 1);
      }
      v := v.(rootType := t, anchors := SetAnchor(v.anchors, t, root));
      runs := runs[id := runs[id].(view := v)];
    }

    /** The run is quarantined because a gate failed. */
    method HoldRun(id: string, now: int)
      requires id in runs
      modifies this`runs
      ensures runs == old(runs)[id := Hold(old(runs)[id], now)]
    {
      var r := runs[id];
      runs := runs[id := r.(view := r.view.(state := SafeguardHold, updatedAt := now))];
      AnchorRoot(id, PartialRoot, r.view.lastHash);
    }

    /** The state, version, sequence number and last hash move with a step already logged. */
    method MoveRun(id: string, s: Step, next: RunState)
      requires id in runs
      modifies this`runs
      ensures runs == old(runs)[id := Extend(old(runs)[id], s, next)]
    {
      var r := runs[id];
      var v := r.view.(state := next, version := r.view.version + 1);
      v := v.(seqId := s.seqId, lastHash := s.hash, updatedAt := s.at);
      runs := runs[id := r.(view := v)];
      match next
      case Failed =>
      case SafeguardHold =>
      case _ => AnchorRoot(id, RootOf(next), s.hash);
    }

    method LogStep(id: string, s: Step)
      modifies this`stepIntegrity
      ensures stepIntegrity == old(stepIntegrity)[id := Log(old(Now()), id) + [s]]
    {
      var log := if id in stepIntegrity then stepIntegrity[id] else [];
      stepIntegrity := stepIntegrity[id := log + [s]];
    }

    /** The obligations of the decision, in order: tags are attached until one stops the advance. */
    method EnforceObligations(req: AdvanceRequest, ref: DecisionReference, tags: map<TagKey, string>)
      returns (out: map<TagKey, string>, error: Option<RunError>)
      ensures (out, error) == EnforceAll(req, ref, tags)
    {
      out := tags;
      var phase := PhaseOr(ref.phase, PreTool);
      var i := 0;
      while i < |ref.obligations|
        invariant 0 <= i <= |ref.obligations|
        invariant Enforce(req, phase, ref.obligations, i, out) == EnforceAll(req, ref, tags)
      {
        var o := ref.obligations[i];
        var e := DutyError(req, phase, o);
        if e.Some? { return out, e; }
        if o.duty.AttachTag? {
          out := out[(if o.duty.tag == "" then PositionalTag(i) else NamedTag(o.duty.tag)) := o.duty.value];
        }
        i := i + 1;
      }
      return out, None;
    }

    method CleanupIdempotencyForRun(id: string)
      modifies this`idempotency
      ensures idempotency == map i | i in old(idempotency) && old(idempotency)[i].runId != id :: old(idempotency)[i]
    {
      var keys := idempotency.Keys;
      while keys != {}
        invariant keys <= old(idempotency).Keys
        invariant idempotency == map i | i in old(idempotency) && (i in keys || old(idempotency)[i].runId != id) :: old(idempotency)[i]
        decreases |keys|
      {
        var i :| i in keys;
        if idempotency[i].runId == id { idempotency := idempotency - {i}; }
        keys := keys - {i};
      }
    }

    method CleanupContinuationsForRun(id: string)
      modifies this`continuations
      ensures continuations == map t | t in old(continuations) && t.runId != id :: old(continuations)[t]
    {
      var tokens := continuations.Keys;
      while tokens != {}
        invariant tokens <= old(continuations).Keys
        invariant continuations == map t | t in old(continuations) && (t in tokens || t.runId != id) :: old(continuations)[t]
        decreases |tokens|
      {
        var t :| t in tokens;
        if t.runId == id { continuations := continuations - {t}; }
        tokens := tokens - {t};
      }
    }

    method CleanupCreateRunsForRun(id: string)
      modifies this`createRuns
      ensures createRuns == map c | c in old(createRuns) && old(createRuns)[c].runId != id :: old(createRuns)[c]
    {
      var creates := createRuns.Keys;
      while creates != {}
        invariant creates <= old(createRuns).Keys
        invariant createRuns == map c | c in old(createRuns) && (c in creates || old(createRuns)[c].runId != id) :: old(createRuns)[c]
        decreases |creates|
      {
        var c :| c in creates;
        if createRuns[c].runId == id { createRuns := createRuns - {c}; }
        creates := creates - {c};
      }
    }

    /** Every cache entry of the run goes. */
    method CleanupRunScopedCaches(id: string)
      modifies this`continuations, this`idempotency, this`createRuns
      ensures Now() == DropCaches(old(Now()), {id})
    {
      CleanupIdempotencyForRun(id);
      CleanupContinuationsForRun(id);
      CleanupCreateRunsForRun(id);
    }

    method AdvanceRun(now: int, id: string, req: AdvanceRequest, port: PortAnswers, hashOk: bool)
      returns (resp: Result<AdvanceResponse, RunError>)
      modifies this
      ensures (Now(), resp) == Advance(cfg, old(Now()), now, id, req, port, hashOk)
    {
      if id !in runs { return Err(RunNotFound); }
      var state := runs[id].view.state;
      if IsTerminal(state) { return Err(TerminalState); }
      if state == Parked || state == AwaitingApproval { return Err(StateConflict); }
      if req.stepId == "" || req.stepVersion == "" || req.idempotencyKey == "" { return Err(InputInvalid); }
      var key := IdemKey(id, req.stepId, req.stepVersion, req.idempotencyKey);
      if key in idempotency {
        var cached := idempotency[key].(lastAccess := now);
        idempotency := idempotency[key := cached];
        return Ok(cached.response);
      }
      if req.expectedVersion != runs[id].view.version { return Err(VersionConflict); }
      if req.incomingSeq <= runs[id].view.seqId { HoldRun(id, now); return Err(MonotonicityViolation); }
      if req.decisionId == "" || req.decisionHash == "" { return Err(DecisionRefMissing); }
      var gate := CheckGate(id, req, port);
      if gate.Some? { HoldRun(id, now); return Err(gate.value); }
      resp := AdvanceChecked(now, id, req, port.ref.value, hashOk);
    }

    /** The decision, its confirmation, its hash, its binding and the execution receipt, in the order they are checked. */
    method CheckGate(id: string, req: AdvanceRequest, port: PortAnswers) returns (error: Option<RunError>)
      ensures error == GateError(id, req, port)
      ensures error.None? ==> port.ref.Some?
    {
      if port.ref.None? { return Some(PendingMismatch); }
      var ref := port.ref.value;
      if !port.confirmed { return Some(PendingMismatch); }
      if !ref.hashValid || ref.hashKind != Stable { return Some(DecisionHashInvalid); }
      if ref.runId != "" && ref.runId != id { return Some(BindingMismatch); }
      if ref.stepId != "" && ref.stepId != req.stepId { return Some(BindingMismatch); }
      if req.decisionHashKind.Some? && req.decisionHashKind.value != ref.hashKind { return Some(HashKindMismatch); }
      if ref.hash != req.decisionHash { return Some(DecisionHashMismatch); }
      if !ExecutableDecision(ref.decision) { return Some(NotExecutable); }
      if !port.receiptOk { return Some(ReceiptRejected); }
      return None;
    }

    method AdvanceChecked(now: int, id: string, req: AdvanceRequest, ref: DecisionReference, hashOk: bool)
      returns (resp: Result<AdvanceResponse, RunError>)
      requires id in runs
      modifies this
      ensures (Now(), resp) == AdvanceGated(cfg, old(Now()), now, id, req, ref, hashOk)
    {
      var r := runs[id];
      var tags, dutyError := EnforceObligations(req, ref, r.view.tags);
      runs := runs[id := r.(view := r.view.(tags := tags))];
      if dutyError.Some? {
        HoldRun(id, now);
        assert runs == old(runs)[id := runs[id]];
        return Err(dutyError.value);
      }
      var next := Target(req.next);
      if next.None? { return Err(InputInvalid); }
      if !AllowedTransition(r.view.state, next.value) { return Err(TransitionForbidden); }
      if req.inputHash == "" || req.outputHash == "" { return Err(InputInvalid); }
      if !hashOk {
        HoldRun(id, now);
        assert runs == old(runs)[id := runs[id]];
        return Err(HashFailed);
      }
      label tagged:
      var answer := AppendAdvance(now, id, req, next.value);
      AppendOver(cfg, old(Now()), old@tagged(runs)[id], now, id, req, next.value);
      return Ok(answer);
    }

    /** What an advance notes in the run besides the step. */
    method Progressed(moved: Run, now: int, req: AdvanceRequest, next: RunState) returns (r: Run)
      ensures r == WithProgress(moved, now, req, next)
    {
      r := moved.(noProgressScans := 0, view := moved.view.(activeStep := req.stepId, progressAt := now, reason := "", source := ""));
      if IsTerminal(next) {
        r := r.(view := r.view.(reason := "advance_terminal_state", source := "advance"));
      }
    }

    method AppendAdvance(now: int, id: string, req: AdvanceRequest, next: RunState) returns (resp: AdvanceResponse)
      requires id in runs
      modifies this
      ensures Now() == AdvanceAppend(cfg, old(Now()), now, id, old(runs)[id], req, next)
      ensures resp == ResponseOf(AdvancedRun(cfg, old(runs)[id], now, req, next).view)
    {
      hide Extend, RootOf, AdvancedRun;
      var content := NormalContent(runs[id].view.lastHash, req.decisionHash, req.inputHash, req.outputHash);
      var s := Step(req.stepId, req.incomingSeq, content, cfg.stepHash(content), now);
      LogStep(id, s);
      MoveRun(id, s, next);
      var r := Progressed(runs[id], now, req, next);
      ProgressedIs(cfg, old(runs)[id], now, req, next);
      runs := runs[id := r];
      assert runs == old(runs)[id := r];
      var v := r.view;
      resp := AdvanceResponse(v.state, v.version, v.lastHash, v.root, v.rootVersion, v.rootType, v.seqId);
      idempotency := idempotency[Key(id, req) := IdemEntry(id, resp, now)];
      if IsTerminal(next) { CleanupRunScopedCaches(id); }
    }

    method ParkRun(now: int, id: string, req: ParkRequest, hashOk: bool) returns (resp: Result<ParkResponse, RunError>)
      modifies this
      ensures (Now(), resp) == Park(cfg, old(Now()), now, id, req, hashOk)
    {
      if id !in runs { return Err(RunNotFound); }
      if IsTerminal(runs[id].view.state) { return Err(TerminalState); }
      if req.expectedVersion != runs[id].view.version { return Err(VersionConflict); }
      if req.incomingSeq <= runs[id].view.seqId { return Err(MonotonicityViolation); }
      var choice := TokenTypeOf(req.tokenType);
      if choice.None? || req.stepId == "" { return Err(InputInvalid); }
      if !AllowedTransition(runs[id].view.state, ParkState(choice.value)) { return Err(TransitionForbidden); }
      if !hashOk { return Err(HashFailed); }
      var answer := IssueToken(now, id, req, choice.value);
      return Ok(answer);
    }

    method IssueToken(now: int, id: string, req: ParkRequest, typ: TokenType) returns (resp: ParkResponse)
      requires id in runs
      modifies this
      ensures (Now(), resp) == ParkWith(cfg, old(Now()), now, id, req, typ)
    {
      var token := Token(id, req.stepId, req.incomingSeq, typ, now);
      var ttl := cfg.continuationTTL;
      if req.ttl > 0 { ttl := req.ttl; }
      var s := AppendSynthetic(now, id, req.stepId, req.incomingSeq, ParkStep, req.reason, TokenName(typ));
      continuations := continuations[token := Continuation(now + ttl, Active)];
      MoveRun(id, s, ParkState(typ));
      NoteProgress(id, req.stepId, now);
      assert runs == old(runs)[id := ParkedRun(cfg, old(runs)[id], now, req, typ)];
      hide ParkedRun;
      var v := runs[id].view;
      resp := ParkResponse(v.state, v.version, token, now + ttl, v.anchors.partialRoot);
    }

    /** A step of the kernel's own is hashed onto the chain and logged. */
    method AppendSynthetic(now: int, id: string, stepId: string, seqId: int, tag: Synthetic, input: string, output: string)
      returns (s: Step)
      requires id in runs
      modifies this`stepIntegrity
      ensures s == SyntheticStep(cfg, runs[id], stepId, seqId, tag, input, output, now)
      ensures stepIntegrity == old(stepIntegrity)[id := Log(old(Now()), id) + [s]]
    {
      var content := SyntheticContent(runs[id].view.lastHash, tag, input, output);
      s := Step(stepId, seqId, content, cfg.stepHash(content), now);
      LogStep(id, s);
    }

    method NoteProgress(id: string, stepId: string, now: int)
      requires id in runs
      modifies this`runs
      ensures runs == old(runs)[id := Progress(old(runs)[id], stepId, now)]
    {
      var r := runs[id];
      runs := runs[id := r.(noProgressScans := 0, view := r.view.(activeStep := stepId, progressAt := now, reason := "", source := ""))];
    }

    method ResumeRun(now: int, id: string, req: ResumeRequest, hashOk: bool) returns (resp: Result<ResumeResponse, RunError>)
      modifies this
      ensures (Now(), resp) == Resume(cfg, old(Now()), now, id, req, hashOk)
    {
      if id !in runs { return Err(RunNotFound); }
      if req.token.None? { return Err(InputInvalid); }
      var t := req.token.value;
      if t !in continuations { return Err(ContinuationMissing); }
      var c := continuations[t];
      if t.runId != id { return Err(ContinuationRunMismatch); }
      if c.status.Consumed? { return Err(ContinuationConsumed); }
      if now > c.expiresAt {
        continuations := continuations[t := c.(status := Expired)];
        return Err(ContinuationExpired);
      }
      var v := runs[id].view;
      if req.expectedSnapshot != "" && req.expectedSnapshot != v.snapshotHash { return Err(SnapshotMismatch); }
      if req.incomingSeq <= v.seqId { return Err(MonotonicityViolation); }
      if t.seqId != v.seqId { return Err(ContinuationSeqMismatch); }
      if v.state != Parked && v.state != AwaitingApproval { return Err(NotResumable); }
      if !TokenMatchesState(t.typ, v.state) { return Err(ContinuationTypeMismatch); }
      if !hashOk { return Err(HashFailed); }
      SpendToken(now, id, t, req);
      return Ok(ResumeResponse(runs[id].view.state, runs[id].view.version));
    }

    method SpendToken(now: int, id: string, t: Token, req: ResumeRequest)
      requires id in runs && t in continuations
      modifies this
      ensures Now() == ResumeWith(cfg, old(Now()), now, id, t, req)
    {
      var s := AppendSynthetic(now, id, t.stepId, req.incomingSeq, ResumeStep, req.reason, req.receiptRef);
      MoveRun(id, s, Running);
      NoteProgress(id, t.stepId, now);
      assert runs == old(runs)[id := ResumedRun(cfg, old(runs)[id], now, t, req)];
      continuations := continuations[t := continuations[t].(status := Consumed(now))];
    }

    method CloseRun(id: string, tag: Synthetic, input: string, output: string, next: RunState,
                    reason: string, source: string, progress: bool, now: int)
      requires id in runs
      modifies this
      ensures Now() == Close(cfg, old(Now()), id, tag, input, output, next, reason, source, progress, now)
    {
      var s := AppendSynthetic(now, id, runs[id].view.activeStep, runs[id].view.seqId + 1, tag, input, output);
      EndRun(id, s, next, reason, source, progress);
      hide ClosedRun;
      if IsTerminal(next) { CleanupRunScopedCaches(id); }
    }

    method EndRun(id: string, s: Step, next: RunState, reason: string, source: string, progress: bool)
      requires id in runs
      modifies this`runs
      ensures runs == old(runs)[id := ClosedRun(old(runs)[id], s, next, reason, source, progress)]
    {
      MoveRun(id, s, next);
      hide Extend;
      var v := runs[id].view.(reason := reason, source := source);
      if progress { v := v.(progressAt := s.at); }
      runs := runs[id := runs[id].(view := v)];
    }

    method AbortRun(now: int, id: string, reason: string, hashOk: bool) returns (resp: Result<RunView, RunError>)
      modifies this
      ensures (Now(), resp) == Abort(cfg, old(Now()), now, id, reason, hashOk)
    {
      if id !in runs { return Err(RunNotFound); }
      if IsTerminal(runs[id].view.state) { return Ok(runs[id].view); }
      if !hashOk { return Err(HashFailed); }
      CloseRun(id, AbortStep, reason, "aborted", Aborted, if reason == "" then "manual_abort" else reason, "abort_api", true, now);
      return Ok(runs[id].view);
    }

    method GetRun(id: string) returns (resp: Result<RunView, RunError>)
      ensures resp == if id in runs then Ok(runs[id].view) else Err(RunNotFound)
    {
      if id !in runs { return Err(RunNotFound); }
      return Ok(runs[id].view);
    }

    /** Of the usable tokens for the run, step and type, one that no other is issued after. */
    method FindActiveContinuation(now: int, id: string, stepId: string, typ: Option<TokenType>) returns (found: Option<Token>)
      ensures Found(Now(), now, id, stepId, typ, found)
    {
      if id == "" { return None; }
      found := None;
      var tokens := continuations.Keys;
      while tokens != {}
        invariant tokens <= continuations.Keys
        invariant found.Some? ==> Usable(Now(), now, id, stepId, typ, found.value)
        invariant forall t :: t in continuations && t !in tokens && Usable(Now(), now, id, stepId, typ, t) ==>
          found.Some? && !IssuedAfter(t, found.value)
        decreases |tokens|
      {
        var t :| t in tokens;
        tokens := tokens - {t};
        if t.runId == id && (stepId == "" || t.stepId == stepId) && (typ.None? || t.typ == typ.value) {
          var c := continuations[t];
          if c.status == Active && now <= c.expiresAt {
            if found.None? || t.seqId > found.value.seqId || (t.seqId == found.value.seqId && t.issuedAt > found.value.issuedAt) {
              found := Some(t);
            }
          }
        }
      }
    }

    method FlagRunRisk(id: string, security: bool, resource: bool) returns (ok: bool)
      modifies this
      ensures Now() == FlagRisk(old(Now()), id, security, resource) && ok == (id in old(runs))
    {
      if id !in runs { return false; }
      runs := runs[id := runs[id].(securityRisk := security, resourceRisk := resource)];
      return true;
    }

    /** The run ids in ascending order. */
    method SortedRuns() returns (order: seq<string>)
      ensures SortedKeys(order, runs.Keys)
    {
      order := [];
      var rest := runs.Keys;
      while rest != {}
        invariant forall x :: x in runs.Keys <==> x in rest || x in order
        invariant forall i, x :: 0 <= i < |order| && x in rest ==> Before(order[i], x)
        invariant forall i, j :: 0 <= i < j < |order| ==> Before(order[i], order[j])
        decreases |rest|
      {
        ghost var first := HasFirst(rest);
        var id :| id in rest && forall x :: x in rest && x != id ==> Before(id, x);
        order := order + [id];
        rest := rest - {id};
      }
    }

    method VisitTTL(now: int, id: string, hashOk: bool)
      modifies this
      ensures Now() == TtlOne(cfg, old(Now()), now, id, hashOk)
    {
      if id !in runs { return; }
      var r := runs[id];
      if IsTerminal(r.view.state) { return; }
      if r.maxLifetime <= 0 { return; }
      if now - r.view.createdAt <= r.maxLifetime { return; }
      if now - r.view.progressAt <= cfg.noProgressWindow && !r.securityRisk && !r.resourceRisk { return; }
      if !hashOk { return; }
      if r.securityRisk || r.resourceRisk {
        CloseRun(id, TtlAbort, "ttl_breach_risk", "", ForceAbort, "ttl_breach_risk", "ttl_sweeper", false, now);
      } else {
        CloseRun(id, TtlReview, "ttl_breach", "", ForceReviewRequired, "ttl_breach", "ttl_sweeper", false, now);
      }
    }

    method VisitZombie(now: int, id: string, hashOk: bool)
      modifies this
      ensures Now() == ZombieOne(cfg, old(Now()), now, id, hashOk)
    {
      if id !in runs { return; }
      var r := runs[id];
      if IsTerminal(r.view.state) { return; }
      if now - r.view.progressAt <= cfg.noProgressWindow {
        runs := runs[id := r.(noProgressScans := 0)];
        return;
      }
      runs := runs[id := r.(noProgressScans := r.noProgressScans + 1)];
      if runs[id].noProgressScans < 2 || !hashOk { return; }
      var next := ForceReviewRequired;
      if r.securityRisk || r.resourceRisk { next := ForceAbort; }
      CloseRun(id, ZombieSweep, "no_progress", "", next, "no_progress", "zombie_sweeper", false, now);
    }

    /** One sweep: the runs in ascending order up to the batch limit, then maintenance. */
    method Sweep(w: Sweeper, now: int, failing: set<string>) returns (ghost order: seq<string>)
      modifies this
      ensures SortedKeys(order, old(runs).Keys)
      ensures Now() == RunSpec.Sweep(cfg, w, old(Now()), now, order, failing)
    {
      var ids := SortedRuns();
      order := ids;
      var scanned := 0;
      var batch := FirstBatch(cfg, ids);
      hide TtlOne, ZombieOne;
      while scanned < |ids| && scanned < cfg.batchLimit
        invariant 0 <= scanned <= |batch|
        invariant Now() == SweepEach(cfg, w, old(Now()), now, batch[..scanned], failing)
      {
        assert batch[..scanned + 1][..scanned] == batch[..scanned];
        match w {
          case Ttl => VisitTTL(now, ids[scanned], ids[scanned] !in failing);
          case Zombie => VisitZombie(now, ids[scanned], ids[scanned] !in failing);
        }
        scanned := scanned + 1;
      }
      assert batch[..scanned] == batch;
      MaintenanceSweep(now);
    }

    method CleanupContinuations(now: int)
      modifies this`continuations
      ensures continuations == map t | t in old(continuations) && KeepToken(cfg, old(continuations)[t], now) :: Aged(old(continuations)[t], now)
    {
      var kept: map<Token, Continuation> := map[];
      var tokens := continuations.Keys;
      while tokens != {}
        invariant tokens <= continuations.Keys
        invariant kept == map t | t in old(continuations) && t !in tokens && KeepToken(cfg, old(continuations)[t], now) :: Aged(old(continuations)[t], now)
        invariant continuations == old(continuations)
        decreases |tokens|
      {
        var t :| t in tokens;
        var c := continuations[t];
        if c.status == Active && now > c.expiresAt { c := c.(status := Expired); }
        var due := match c.status case Consumed(at) => at case _ => c.expiresAt;
        if now <= due + cfg.continuationRetention { kept := kept[t := c]; }
        tokens := tokens - {t};
      }
      continuations := kept;
    }

    method CleanupIdempotency(now: int)
      modifies this`idempotency
      ensures idempotency == map i | i in old(idempotency) && now <= old(idempotency)[i].lastAccess + cfg.idempotencyTTL :: old(idempotency)[i]
    {
      var keys := idempotency.Keys;
      while keys != {}
        invariant keys <= old(idempotency).Keys
        invariant idempotency == map i | i in old(idempotency) && (i in keys || now <= old(idempotency)[i].lastAccess + cfg.idempotencyTTL) :: old(idempotency)[i]
        decreases |keys|
      {
        var i :| i in keys;
        if now > idempotency[i].lastAccess + cfg.idempotencyTTL { idempotency := idempotency - {i}; }
        keys := keys - {i};
      }
    }

    method CleanupCreateRuns(now: int)
      modifies this`createRuns
      ensures createRuns == map c | c in old(createRuns) && now <= old(createRuns)[c].lastAccess + cfg.createRetention :: old(createRuns)[c]
    {
      var keys := createRuns.Keys;
      while keys != {}
        invariant keys <= old(createRuns).Keys
        invariant createRuns == map c | c in old(createRuns) && (c in keys || now <= old(createRuns)[c].lastAccess + cfg.createRetention) :: old(createRuns)[c]
        decreases |keys|
      {
        var c :| c in keys;
        if now > createRuns[c].lastAccess + cfg.createRetention { createRuns := createRuns - {c}; }
        keys := keys - {c};
      }
    }

    method PurgeRun(id: string)
      modifies this
      ensures Now() == DropCaches(old(Now()).(runs := old(runs) - {id}, logs := old(stepIntegrity) - {id}), {id})
    {
      runs := runs - {id};
      stepIntegrity := stepIntegrity - {id};
      CleanupRunScopedCaches(id);
    }

    method IsPurgeable(id: string, now: int) returns (due: bool)
      requires id in runs
      ensures due == Purged(cfg, runs[id], now)
    {
      return IsTerminal(runs[id].view.state) && now > runs[id].view.updatedAt + cfg.runRetention;
    }

    /** The runs to purge are deleted one by one, each with its log and its cache entries. */
    method CleanupTerminalRuns(now: int)
      modifies this
      ensures Now() == Purge(cfg, old(Now()), now)
    {
      ghost var k := Now();
      WithoutNone(k);
      var ids := runs.Keys;
      PurgedNone(cfg, k, now);
      hide Without, DropCaches, Purged, PurgedBut;
      while ids != {}
        invariant ids <= k.runs.Keys
        invariant Now() == Without(k, PurgedBut(cfg, k, now, ids))
        decreases |ids|
      {
        var id :| id in ids;
        WithoutRuns(k, PurgedBut(cfg, k, now, ids));
        PurgedOne(cfg, k, now, ids, id);
        var due := IsPurgeable(id, now);
        if due {
          PurgeRun(id);
          WithoutOneMore(k, PurgedBut(cfg, k, now, ids), id);
        }
        ids := ids - {id};
      }
      PurgedAll(cfg, k, now);
    }

    method MaintenanceSweep(now: int)
      modifies this
      ensures Now() == Maintenance(cfg, old(Now()), now)
    {
      CleanupContinuations(now);
      CleanupIdempotency(now);
      CleanupTerminalRuns(now);
      CleanupCreateRuns(now);
    }
  }
}
