/** Deciding an approval case as it is written: the regions of the decision kernel around a dispatch through the run port. */
module ApprovalService {
  import opened Outcomes
  import opened RunTypes
  import RunSpec
  import RunKernel
  import opened DecisionSpec
  import DecisionKernel
  import opened JointSystem
  import opened ApprovalAlone

  class Approvals {
    const service: DecisionKernel.Service
    const runs: RunKernel.Kernel
    const caseName: nat -> string

    constructor (service: DecisionKernel.Service, runs: RunKernel.Kernel, caseName: nat -> string)
      ensures this.service == service && this.runs == runs && this.caseName == caseName
    {
      this.service, this.runs, this.caseName := service, runs, caseName;
    }

    ghost function Cfg(): Setup {
      Setup(runs.cfg, service.cfg, caseName)
    }

    /** The last gate before a side effect: the decision, the state of the run and the receipt, in that order. */
    method CanExecuteSideEffectFinal(decisionId: string, runId: string, stepId: string, tenant: string, ticketId: string,
                                     used: map<string, real>, at: int, now: int) returns (ok: bool)
      ensures ok <==>
        && SideEffectAllowed(service.Now(), decisionId)
        && runId in runs.Now().runs && runs.Now().runs[runId].view.state == Running
        && ReceiptOk(service.Now(), now, runId, stepId, tenant, ticketId, used, at)
    {
      var executable := service.CanExecuteSideEffect(decisionId);
      if !executable { return false; }
      var view := runs.GetRun(runId);
      if view.Err? { return false; }
      if view.value.state != Running { return false; }
      ok := service.ValidateExecutionReceiptForRun(now, runId, stepId, tenant, ticketId, used, at);
    }

    /** The run port's answer to an approved outcome: find the token, look at the run, resume it, look again. */
    method DispatchApprovalRunUnlock(c: ApprovalCase, caseId: nat, search: int, resume: int, hashOk: bool)
      returns (dispatched: bool, found: Option<Token>)
      modifies runs
      ensures RunSpec.Found(old(runs.Now()), search, c.runId, c.stepId, Some(ApprovalToken), found)
      ensures (runs.Now(), dispatched) == Dispatch(Cfg(), old(runs.Now()), c, caseId, resume, found, hashOk)
    {
      hide RunSpec.Resume, RunSpec.Found;
      found := runs.FindActiveContinuation(search, c.runId, c.stepId, Some(ApprovalToken));
      if found.None? { return false, found; }
      var view := runs.GetRun(c.runId);
      if view.Err? { return false, found; }
      var resumed := runs.ResumeRun(resume, c.runId,
        ResumeRequest(found, "approval_approved", "decision://approval_unlock/" + caseName(caseId), view.value.seqId + 1, view.value.snapshotHash), hashOk);
      if resumed.Err? { return false, found; }
      var updated := runs.GetRun(c.runId);
      return updated.Ok?, found;
    }

    /** `found` is what the search answered, if the call came to it: an approval of a case that could be decided. */
    method DecideApprovalCase(caseId: nat, approve: bool, at: Clocks, hashOk: bool) returns (dispatched: bool, found: Option<Token>)
      modifies service, runs
      ensures approve && Decidable(old(service.Now()), caseId) ==> FoundFor(old(runs.Now()), old(service.Now()), caseId, at.search, found)
      ensures var (k', d', end) := Decide(Cfg(), old(runs.Now()), old(service.Now()), caseId, approve, at, found, hashOk);
        runs.Now() == k' && service.Now() == d' && dispatched == end.Dispatched?
    {
      hide RunSpec.Found, Dispatch, Guard;
      dispatched, found := false, None;
      var copy := service.ResolveApprovalCase(caseId, approve, at.decision);
      if copy.None? { return; }
      var c := copy.value;
      var signal := service.ApplyApprovalOutcomeToPending(c, at.decision);
      if signal && approve {
        dispatched, found := DispatchApprovalRunUnlock(c, caseId, at.search, at.resume, hashOk);
      }
      if c.status == Approved && !dispatched {
        service.EnforceApprovalUnlockFailureGuard(c, at.decision);
      }
    }
  }
}
