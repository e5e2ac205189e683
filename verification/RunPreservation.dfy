/** Each operation of the run kernel keeps the invariant. */
module RunPreservation {
  import opened RunTypes
  import opened RunSpec
  import opened RunInvariants

  // ----- Create -----

  lemma NewRunOk(cfg: Config, id: string, c: CreateContent, now: int)
    ensures RunOk(cfg, id, NewRun(cfg, id, c, now), [])
  {
    assert NewRun(cfg, id, c, now).view.root == HashAt([], 0);
  }

  /** A name with the next sequence number names no run and has no log. */
  lemma FreshName(cfg: Config, k: Kernel, f: string)
    requires ValidConfig(cfg) && RunsOk(cfg, k) && NamesOk(cfg, k)
    ensures cfg.runName(f, k.runSeq + 1) !in k.runs && cfg.runName(f, k.runSeq + 1) !in k.logs
  {
    var id := cfg.runName(f, k.runSeq + 1);
    assert !Named(cfg, id, k.runSeq);
  }

  lemma AdmitRuns(cfg: Config, k: Kernel, now: int, c: CreateContent)
    requires ValidConfig(cfg) && RunsOk(cfg, k) && NamesOk(cfg, k)
    ensures RunsOk(cfg, Admit(cfg, k, now, c)) && NamesOk(cfg, Admit(cfg, k, now, c))
  {
    hide ValidConfig, RunOk;
    var k' := Admit(cfg, k, now, c);
    var id := cfg.runName(cfg.fingerprint(c), k.runSeq + 1);
    FreshName(cfg, k, cfg.fingerprint(c));
    NewRunOk(cfg, id, c, now);
    forall x | x in k'.runs ensures RunOk(cfg, x, k'.runs[x], Log(k', x)) && Named(cfg, x, k'.runSeq) {
      if x != id {
        assert RunOk(cfg, x, k.runs[x], Log(k, x)) && Named(cfg, x, k.runSeq);
        var f, n: nat :| n <= k.runSeq && x == cfg.runName(f, n);
        assert n <= k'.runSeq;
      }
    }
  }

  lemma AdmitTokens(cfg: Config, k: Kernel, now: int, c: CreateContent)
    requires TokensOk(k) && IdemOk(k) && cfg.runName(cfg.fingerprint(c), k.runSeq + 1) !in k.runs
    ensures TokensOk(Admit(cfg, k, now, c)) && IdemOk(Admit(cfg, k, now, c))
  {
    hide Issued, Recorded, TokenMatchesState;
    var k' := Admit(cfg, k, now, c);
    assert forall x :: Log(k', x) == Log(k, x);
    forall t | t in k'.conts ensures TokenOk(k', t) { assert TokenOk(k, t); }
  }

  lemma AdmitCaches(cfg: Config, k: Kernel, now: int, c: CreateContent)
    requires CachesOk(cfg, k) && cfg.runName(cfg.fingerprint(c), k.runSeq + 1) !in k.runs
    ensures CachesOk(cfg, Admit(cfg, k, now, c))
  {
    AdmitTokens(cfg, k, now, c);
    hide TokensOk, IdemOk;
    var k' := Admit(cfg, k, now, c);
    forall x | x in k'.creates ensures CreateOk(cfg, k', x, k'.creates[x]) {
      if x != CreateKey(c.tenant, c.requestId) { assert CreateOk(cfg, k, x, k.creates[x]); }
    }
  }

  lemma SameRuns(cfg: Config, k: Kernel, k': Kernel)
    requires RunsOk(cfg, k) && NamesOk(cfg, k)
    requires k'.runs == k.runs && k'.logs == k.logs && k'.runSeq >= k.runSeq
    ensures RunsOk(cfg, k') && NamesOk(cfg, k')
  {
    hide RunOk;
    assert forall x :: x in k'.runs ==> Log(k', x) == Log(k, x);
    forall x | x in k'.runs ensures Named(cfg, x, k'.runSeq) {
      var f, n: nat :| n <= k.runSeq && x == cfg.runName(f, n);
      assert n <= k'.runSeq;
    }
  }

  lemma ThinKeeps(cfg: Config, k: Kernel, k': Kernel)
    requires Inv(cfg, k) && k'.runSeq >= k.runSeq && Thinned(k, k')
    ensures Inv(cfg, k')
  {
    ThinnedKeeps(cfg, k, k');
    SameRuns(cfg, k, k');
  }

  /** A create admits a new run, or touches, or removes, nothing but create entries. */
  lemma CreateShape(cfg: Config, k: Kernel, now: int, req: CreateRequest, fingerprintOk: bool, snapshotOk: bool)
    ensures var k' := Create(cfg, k, now, req, fingerprintOk, snapshotOk).0;
      || (Thinned(k, k') && k'.runSeq >= k.runSeq)
      || (req.risk.Some? && k' == Admit(cfg, k, now, Normalise(req)))
  {
  }

  lemma CreateKeeps(cfg: Config, k: Kernel, now: int, req: CreateRequest, fingerprintOk: bool, snapshotOk: bool)
    requires ValidConfig(cfg) && Inv(cfg, k)
    ensures Inv(cfg, Create(cfg, k, now, req, fingerprintOk, snapshotOk).0)
  {
    hide RunsOk, NamesOk, CachesOk;
    CreateShape(cfg, k, now, req, fingerprintOk, snapshotOk);
    var k' := Create(cfg, k, now, req, fingerprintOk, snapshotOk).0;
    if Thinned(k, k') && k'.runSeq >= k.runSeq {
      ThinKeeps(cfg, k, k');
    } else {
      FreshName(cfg, k, cfg.fingerprint(Normalise(req)));
      AdmitRuns(cfg, k, now, Normalise(req));
      AdmitCaches(cfg, k, now, Normalise(req));
    }
  }

  // ----- Advance -----

  lemma AddIdemCaches(cfg: Config, k: Kernel, i: IdemKey, e: IdemEntry)
    requires CachesOk(cfg, k) && IdemEntryOk(k, i, e)
    ensures CachesOk(cfg, k.(idem := k.idem[i := e]))
  {
    hide Issued, Recorded;
    var k' := k.(idem := k.idem[i := e]);
    assert forall x :: Log(k', x) == Log(k, x);
    forall t | t in k'.conts ensures TokenOk(k', t) { assert TokenOk(k, t); }
    forall c | c in k'.creates ensures CreateOk(cfg, k', c, k'.creates[c]) { assert CreateOk(cfg, k, c, k.creates[c]); }
  }

  lemma AddIdemKeeps(cfg: Config, k: Kernel, i: IdemKey, e: IdemEntry)
    requires Inv(cfg, k) && IdemEntryOk(k, i, e)
    ensures Inv(cfg, k.(idem := k.idem[i := e]))
  {
    AddIdemCaches(cfg, k, i, e);
    SameRuns(cfg, k, k.(idem := k.idem[i := e]));
  }

  lemma VersionCounts(cfg: Config, k: Kernel, id: string)
    requires RunsOk(cfg, k) && id in k.runs
    ensures k.runs[id].view.version == 1 + |Log(k, id)|
  {
  }

  lemma TokenBounds(cfg: Config, k: Kernel, t: Token)
    requires CachesOk(cfg, k) && t in k.conts
    ensures Live(k, t.runId) && t.seqId <= k.runs[t.runId].view.seqId
    ensures t.seqId == k.runs[t.runId].view.seqId ==> TokenMatchesState(t.typ, k.runs[t.runId].view.state)
  {
    assert TokenOk(k, t);
  }

  /** The cached answer of an advance tells of the step it appended. */
  lemma AnswerRecorded(cfg: Config, k: Kernel, now: int, id: string, r: Run, req: AdvanceRequest, next: RunState)
    requires id in k.runs && r.view.version == 1 + |Log(k, id)| && !IsTerminal(next)
    ensures var r1 := AdvancedRun(cfg, r, now, req, next);
      IdemEntryOk(Put(k, id, r1, AdvanceStep(cfg, r, now, req)), Key(id, req), IdemEntry(id, ResponseOf(r1.view), now))
  {
    ExtendFields(r, AdvanceStep(cfg, r, now, req), next);
    var k1 := Put(k, id, AdvancedRun(cfg, r, now, req, next), AdvanceStep(cfg, r, now, req));
    assert Log(k1, id) == Log(k, id) + [AdvanceStep(cfg, r, now, req)];
  }

  lemma DropForgets(k: Kernel, i: IdemKey, e: IdemEntry)
    requires i in k.idem ==> k.idem[i].runId == e.runId
    ensures DropCaches(k.(idem := k.idem[i := e]), {e.runId}) == DropCaches(k, {e.runId})
  {
  }

  lemma CachedUnderKey(cfg: Config, k: Kernel, i: IdemKey)
    requires CachesOk(cfg, k) && i in k.idem
    ensures k.idem[i].runId == i.runId
  {
  }

  lemma AdvanceAppendKeeps(cfg: Config, k: Kernel, now: int, id: string, r: Run, req: AdvanceRequest, next: RunState)
    requires ValidConfig(cfg) && Inv(cfg, k) && Live(k, id) && SameCore(k.runs[id].view, r.view)
    requires req.incomingSeq > k.runs[id].view.seqId
    ensures Inv(cfg, AdvanceAppend(cfg, k, now, id, r, req, next))
  {
    hide RunsOk, NamesOk, CachesOk;
    var r1, s := AdvancedRun(cfg, r, now, req, next), AdvanceStep(cfg, r, now, req);
    var k1 := Put(k, id, r1, s);
    var e := IdemEntry(id, ResponseOf(r1.view), now);
    ExtendCore(k.runs[id], r, s, next);
    AppendKeeps(cfg, k, id, r1, s, next);
    if IsTerminal(next) {
      if Key(id, req) in k.idem { CachedUnderKey(cfg, k, Key(id, req)); }
      DropForgets(k1, Key(id, req), e);
    } else {
      VersionCounts(cfg, k, id);
      AnswerRecorded(cfg, k, now, id, r, req, next);
      hide IdemEntryOk;
      AddIdemKeeps(cfg, k1, Key(id, req), e);
    }
  }

  lemma ExtendCore(r: Run, r': Run, s: Step, next: RunState)
    requires SameCore(r.view, r'.view)
    ensures SameCore(Extend(r', s, next).view, Extend(r, s, next).view)
  {
  }

  lemma AdvanceGatedKeeps(cfg: Config, k: Kernel, now: int, id: string, req: AdvanceRequest, ref: DecisionReference, hashOk: bool)
    requires ValidConfig(cfg) && Inv(cfg, k) && Live(k, id) && req.incomingSeq > k.runs[id].view.seqId
    requires k.runs[id].view.state != Parked && k.runs[id].view.state != AwaitingApproval
    ensures Inv(cfg, AdvanceGated(cfg, k, now, id, req, ref, hashOk).0)
  {
    hide RunsOk, NamesOk, CachesOk;
    var r := k.runs[id];
    var r1 := r.(view := r.view.(tags := EnforceAll(req, ref, r.view.tags).0));
    HoldKeeps(cfg, k, id, r1, now);
    SetRunKeeps(cfg, k, id, r1);
    if Target(req.next).Some? {
      AdvanceAppendKeeps(cfg, k, now, id, r1, req, Target(req.next).value);
    }
  }

  lemma AdvanceKeeps(cfg: Config, k: Kernel, now: int, id: string, req: AdvanceRequest, port: PortAnswers, hashOk: bool)
    requires ValidConfig(cfg) && Inv(cfg, k)
    ensures Inv(cfg, Advance(cfg, k, now, id, req, port, hashOk).0)
  {
    hide RunsOk, NamesOk, CachesOk;
    var (k', resp) := Advance(cfg, k, now, id, req, port, hashOk);
    if Live(k, id) && k.runs[id].view.state != Parked && k.runs[id].view.state != AwaitingApproval {
      HoldKeeps(cfg, k, id, k.runs[id], now);
      if Key(id, req) in k.idem {
        ThinKeeps(cfg, k, k.(idem := k.idem[Key(id, req) := k.idem[Key(id, req)].(lastAccess := now)]));
      } else if req.incomingSeq > k.runs[id].view.seqId && port.ref.Some? {
        AdvanceGatedKeeps(cfg, k, now, id, req, port.ref.value, hashOk);
      }
    }
  }

  // ----- Park and resume -----

  lemma IssueCaches(cfg: Config, k: Kernel, t: Token, c: Continuation)
    requires CachesOk(cfg, k) && Live(k, t.runId) && !c.status.Consumed? && Issued(Log(k, t.runId), t)
    requires t.seqId == k.runs[t.runId].view.seqId && TokenMatchesState(t.typ, k.runs[t.runId].view.state)
    requires forall t' :: t' in k.conts && t'.runId == t.runId ==> t'.seqId < t.seqId
    ensures CachesOk(cfg, k.(conts := k.conts[t := c]))
  {
    hide Issued, Recorded;
    var k' := k.(conts := k.conts[t := c]);
    assert forall x :: Log(k', x) == Log(k, x);
    forall t' | t' in k'.conts ensures TokenOk(k', t') { if t' != t { assert TokenOk(k, t'); } }
    forall x | x in k'.creates ensures CreateOk(cfg, k', x, k'.creates[x]) { assert CreateOk(cfg, k, x, k.creates[x]); }
  }

  lemma ParkWithKeeps(cfg: Config, k: Kernel, now: int, id: string, req: ParkRequest, t: TokenType)
    requires ValidConfig(cfg) && Inv(cfg, k) && Live(k, id) && req.incomingSeq > k.runs[id].view.seqId
    ensures Inv(cfg, ParkWith(cfg, k, now, id, req, t).0)
  {
    hide RunsOk, NamesOk, CachesOk;
    var r := k.runs[id];
    var s := SyntheticStep(cfg, r, req.stepId, req.incomingSeq, ParkStep, req.reason, TokenName(t), now);
    var r1 := ParkedRun(cfg, r, now, req, t);
    var k1 := Put(k, id, r1, s);
    ExtendFields(r, s, ParkState(t));
    AppendKeeps(cfg, k, id, r1, s, ParkState(t));
    var token := Token(id, req.stepId, req.incomingSeq, t, now);
    var k' := ParkWith(cfg, k, now, id, req, t).0;
    assert s in Log(k1, id);
    forall t' | t' in k1.conts && t'.runId == id ensures t'.seqId < token.seqId { TokenBounds(cfg, k, t'); }
    IssueCaches(cfg, k1, token, k'.conts[token]);
    SameRuns(cfg, k1, k');
  }

  lemma ParkKeeps(cfg: Config, k: Kernel, now: int, id: string, req: ParkRequest, hashOk: bool)
    requires ValidConfig(cfg) && Inv(cfg, k)
    ensures Inv(cfg, Park(cfg, k, now, id, req, hashOk).0)
  {
    hide RunsOk, NamesOk, CachesOk;
    if Live(k, id) && req.incomingSeq > k.runs[id].view.seqId && TokenTypeOf(req.tokenType).Some? {
      ParkWithKeeps(cfg, k, now, id, req, TokenTypeOf(req.tokenType).value);
    }
  }

  /** A token the run has gone past may be marked in any way. */
  lemma SpendCaches(cfg: Config, k: Kernel, t: Token, c: Continuation)
    requires CachesOk(cfg, k) && t in k.conts && t.runId in k.runs && t.seqId < k.runs[t.runId].view.seqId
    ensures CachesOk(cfg, k.(conts := k.conts[t := c]))
  {
    hide Issued, Recorded;
    var k' := k.(conts := k.conts[t := c]);
    assert forall x :: Log(k', x) == Log(k, x);
    forall t' | t' in k'.conts ensures TokenOk(k', t') { assert TokenOk(k, t'); }
    forall x | x in k'.creates ensures CreateOk(cfg, k', x, k'.creates[x]) { assert CreateOk(cfg, k, x, k.creates[x]); }
  }

  lemma ResumeWithKeeps(cfg: Config, k: Kernel, now: int, id: string, t: Token, req: ResumeRequest)
    requires ValidConfig(cfg) && Inv(cfg, k) && t in k.conts && t.runId == id && req.incomingSeq > t.seqId
    requires id in k.runs && t.seqId == k.runs[id].view.seqId
    ensures Inv(cfg, ResumeWith(cfg, k, now, id, t, req))
  {
    hide RunsOk, NamesOk, CachesOk;
    TokenBounds(cfg, k, t);
    var r := k.runs[id];
    var s := SyntheticStep(cfg, r, t.stepId, req.incomingSeq, ResumeStep, req.reason, req.receiptRef, now);
    var r1 := ResumedRun(cfg, r, now, t, req);
    var k1 := Put(k, id, r1, s);
    var k' := ResumeWith(cfg, k, now, id, t, req);
    ExtendFields(r, s, Running);
    AppendKeeps(cfg, k, id, r1, s, Running);
    SpendCaches(cfg, k1, t, k'.conts[t]);
    SameRuns(cfg, k1, k');
  }

  lemma ResumeKeeps(cfg: Config, k: Kernel, now: int, id: string, req: ResumeRequest, hashOk: bool)
    requires ValidConfig(cfg) && Inv(cfg, k)
    ensures Inv(cfg, Resume(cfg, k, now, id, req, hashOk).0)
  {
    hide RunsOk, NamesOk, CachesOk;
    var e := ResumeError(k, now, id, req);
    if e.None? {
      ResumeWithKeeps(cfg, k, now, id, req.token.value, req);
    } else if e.value == ContinuationExpired {
      var t := req.token.value;
      ThinKeeps(cfg, k, k.(conts := k.conts[t := k.conts[t].(status := Expired)]));
    }
  }

  // ----- Abort and sweeps -----

  lemma CloseKeeps(cfg: Config, k: Kernel, id: string, tag: Synthetic, input: string, output: string, next: RunState,
                   reason: string, source: string, progress: bool, now: int)
    requires ValidConfig(cfg) && Inv(cfg, k) && Live(k, id)
    ensures Inv(cfg, Close(cfg, k, id, tag, input, output, next, reason, source, progress, now))
  {
    hide RunsOk, NamesOk, CachesOk;
    var s := ClosingStep(cfg, k.runs[id], tag, input, output, now);
    AppendKeeps(cfg, k, id, ClosedRun(k.runs[id], s, next, reason, source, progress), s, next);
  }

  lemma AbortKeeps(cfg: Config, k: Kernel, now: int, id: string, reason: string, hashOk: bool)
    requires ValidConfig(cfg) && Inv(cfg, k)
    ensures Inv(cfg, Abort(cfg, k, now, id, reason, hashOk).0)
  {
    hide RunsOk, NamesOk, CachesOk;
    if Live(k, id) {
      CloseKeeps(cfg, k, id, AbortStep, reason, "aborted", Aborted,
                 if reason == "" then "manual_abort" else reason, "abort_api", true, now);
    }
  }

  /** The view of a run stays; the counters beside it may change. */
  lemma RecountKeeps(cfg: Config, k: Kernel, id: string, r: Run)
    requires Inv(cfg, k) && id in k.runs && r.view == k.runs[id].view
    ensures Inv(cfg, SetRun(k, id, r))
  {
    SetRunRuns(cfg, k, id, r);
    RecountCaches(cfg, k, id, r);
  }

  lemma RecountCaches(cfg: Config, k: Kernel, id: string, r: Run)
    requires CachesOk(cfg, k) && id in k.runs && r.view == k.runs[id].view
    ensures CachesOk(cfg, SetRun(k, id, r))
  {
    hide Issued, Recorded;
    var k' := SetRun(k, id, r);
    assert forall x :: Log(k', x) == Log(k, x);
    forall t | t in k'.conts ensures TokenOk(k', t) { assert TokenOk(k, t); }
    forall c | c in k'.creates ensures CreateOk(cfg, k', c, k'.creates[c]) { assert CreateOk(cfg, k, c, k.creates[c]); }
  }

  lemma FlagRiskKeeps(cfg: Config, k: Kernel, id: string, security: bool, resource: bool)
    requires Inv(cfg, k)
    ensures Inv(cfg, FlagRisk(k, id, security, resource))
  {
    hide RunsOk, NamesOk, CachesOk;
    if id in k.runs { RecountKeeps(cfg, k, id, k.runs[id].(securityRisk := security, resourceRisk := resource)); }
  }

  lemma TtlOneKeeps(cfg: Config, k: Kernel, now: int, id: string, hashOk: bool)
    requires ValidConfig(cfg) && Inv(cfg, k)
    ensures Inv(cfg, TtlOne(cfg, k, now, id, hashOk))
  {
    hide RunsOk, NamesOk, CachesOk;
    if id in k.runs && TtlDue(cfg, k.runs[id], now) {
      CloseKeeps(cfg, k, id, TtlAbort, "ttl_breach_risk", "", ForceAbort, "ttl_breach_risk", "ttl_sweeper", false, now);
      CloseKeeps(cfg, k, id, TtlReview, "ttl_breach", "", ForceReviewRequired, "ttl_breach", "ttl_sweeper", false, now);
    }
  }

  lemma ZombieOneKeeps(cfg: Config, k: Kernel, now: int, id: string, hashOk: bool)
    requires ValidConfig(cfg) && Inv(cfg, k)
    ensures Inv(cfg, ZombieOne(cfg, k, now, id, hashOk))
  {
    hide RunsOk, NamesOk, CachesOk;
    if Live(k, id) {
      var r := k.runs[id];
      RecountKeeps(cfg, k, id, r.(noProgressScans := 0));
      RecountKeeps(cfg, k, id, r.(noProgressScans := r.noProgressScans + 1));
      var k1 := SetRun(k, id, r.(noProgressScans := r.noProgressScans + 1));
      CloseKeeps(cfg, k1, id, ZombieSweep, "no_progress", "", if AtRisk(r) then ForceAbort else ForceReviewRequired,
                 "no_progress", "zombie_sweeper", false, now);
    }
  }

  // ----- Maintenance -----

  lemma PurgeRuns(cfg: Config, k: Kernel, gone: set<string>)
    requires RunsOk(cfg, k) && NamesOk(cfg, k)
    ensures var k' := Without(k, gone); RunsOk(cfg, k') && NamesOk(cfg, k')
  {
    hide RunOk;
    var k' := Without(k, gone);
    assert forall x :: x in k'.runs ==> x in k.runs && Log(k', x) == Log(k, x);
  }

  lemma PurgeCaches(cfg: Config, k: Kernel, gone: set<string>)
    requires CachesOk(cfg, k)
    ensures CachesOk(cfg, Without(k, gone))
  {
    hide Issued, Recorded;
    var k' := Without(k, gone);
    forall t | t in k'.conts ensures Grown(k, k', t.runId) && Stands(k, k', t) { assert TokenOk(k, t); SurvivorGrown(k, gone, t.runId); }
    forall i | i in k'.idem ensures Grown(k, k', i.runId) { SurvivorGrown(k, gone, i.runId); }
    forall c | c in k'.creates ensures Grown(k, k', k.creates[c].runId) { assert CreateOk(cfg, k, c, k.creates[c]); SurvivorGrown(k, gone, k.creates[c].runId); }
    hide TokensOk, IdemOk, CreatesOk, Grown, Stands;
    CachesStay(cfg, k, k');
  }

  lemma SurvivorGrown(k: Kernel, gone: set<string>, id: string)
    requires Live(k, id) && id !in gone
    ensures Grown(k, Without(k, gone), id) && Without(k, gone).runs[id] == k.runs[id]
  {
    assert Log(Without(k, gone), id) == Log(k, id);
  }

  lemma MaintenanceKeeps(cfg: Config, k: Kernel, now: int)
    requires Inv(cfg, k)
    ensures Inv(cfg, Maintenance(cfg, k, now))
  {
    hide RunsOk, NamesOk, CachesOk;
    var k1 := k.(conts := map t | t in k.conts && KeepToken(cfg, k.conts[t], now) :: Aged(k.conts[t], now),
                 idem := map i | i in k.idem && now <= k.idem[i].lastAccess + cfg.idempotencyTTL :: k.idem[i]);
    ThinKeeps(cfg, k, k1);
    var gone := set id | id in k1.runs && Purged(cfg, k1.runs[id], now);
    PurgeRuns(cfg, k1, gone);
    PurgeCaches(cfg, k1, gone);
    ThinKeeps(cfg, Purge(cfg, k1, now), Maintenance(cfg, k, now));
  }
}
