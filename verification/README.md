# Verified models of the run, decision, contract and evidence kernels

This project models the control plane of an agent platform in Dafny: the run kernel and its step log, the decision
kernel's pending and approval protocol, the two ports that join them, the versioned feature signal contracts and their
replicated store, and the evidence kernel. `dafny verify dfyconfig.toml` checks all of it.

## How it is laid out

Each kernel has the same four layers.

* A **specification** of functions on values: `RunSpec`, `DecisionSpec`, `ContractSpec`, `EvidenceSpec`. An operation takes
  the maps before the call and gives the maps after it and the answer.
* A **class** that does the work as the program does it, with fields, early returns and loops over maps and arrays:
  `RunKernel.Kernel`, `DecisionKernel.Service`, `ApprovalService.Approvals`, `ContractKernel.Store` and
  `ContractKernel.ControlPlane`, `EvidenceKernel.Kernel`. Each method is proved against its function.
* **Rules** that say when each operation goes through, what it answers and what it leaves behind, in terms of the request and
  the state: `AdvanceRules`, `RunRules`, `DecisionRules`, `ContractRules`,
  `EvidenceRules`.
* **Theorems** over every sequence of operations, and where two kernels or several replicas are involved over every
  interleaving of their locked regions.

| area | files |
|---|---|
| run kernel | `RunTypes`, `RunSpec`, `RunInvariants`, `RunPreservation`, `RunHistory`, `AdvanceRules`, `RunRules`, `RunStates`, `RunOrder`, `RunKernel` |
| decision kernel | `DecisionSpec`, `PendingLifecycle`, `DecisionRules`, `DecisionKernel` |
| both kernels together | `JointSystem`, `ExecutionGate`, `Confirmations`, `BlankDecision`, `ApprovalProtocol`, `ApprovalOnce`, `ApprovalAlone`, `ApprovalService` |
| contracts | `ContractSpec`, `ContractOrder`, `ContractInvariants`, `ContractRules`, `ContractScheduler`, `ContractReplication`, `ContractKernel`, `ContractResolution` |
| obligations | `ObligationPlan` |
| evidence | `EvidenceSpec`, `EvidenceInvariants`, `EvidenceHistory`, `EvidenceRules`, `EvidenceRetention`, `EvidenceBudget`, `EvidenceGraph`, `EvidenceKernel` |
| shared | `Outcomes`, `Checks`, `Totals`, `InPlace` |

## Reading the model

* A hash function is a field of the configuration. That a digest is never blank is assumed; that the hash is injective is
  an assumption only of the theorems that say so. Where a call can fail to hash, that is an input of the operation.
* Strings are trimmed and case-folded, keys joined with `|` are tuples, times are integers with 0 for the zero time (one
  unit is a second), int64 counters are `int`, resources are `real`.
* Clock readings, the outcome of store calls and what a search through an unordered map meets first are inputs or are left
  open, so that the theorems hold for all of them.
* `born`, `quotas`, `committed`, `detached` and `lost` are history: no operation's result depends on them.
* In the joint system a step is one locked region. An advance holds the run lock across three separate reads of the
  decision kernel; an approve call is up to seven regions; `RunStep` and `DecisionStep` are everything else.

## What the code does that its descriptions do not say

* The gate takes an empty decision value for executable (`internal/run/kernel.go:1368-1379`), but no writer of the decision
  kernel stores one: an evaluation sets a value on every path (`internal/decision/service.go:459-775`,
  `internal/decision/service.go:2212-2215`), and so do admissions (`internal/decision/service.go:896-984`) and releases
  (`internal/decision/service.go:1124-1220`). A blank could only come from a response that does not marshal
  (`internal/decision/service.go:3410-3421`) or from a policy rule whose decision is nothing but spaces.
  `ExecutionGate.EveryStepAllowed` says what this comes to.
* An advance refused for its target state, transition or hashes may already have attached tags to the run
  (`internal/run/kernel.go:1149-1249`).
* An advance can park a run without issuing a token (`internal/run/kernel.go:413-466`); so only runs with a current token
  are unlockable, which is the condition in `ApprovalAlone.ApproveIff`.
* An approve call that finds no pending entry still runs its guard, and takes back a confirmation that another call made
  (`internal/decision/service.go:1332-1334`).
* A kernel boots at store version 1 before it has reached a store (`internal/decision/service.go:294`), so one that reaches
  none can be past an empty store's revision, and takes revision 1 of the store for its own.
* A watch sends its initial snapshot outside the store's lock, waiting for room (`internal/decision/contract_store.go:107-116`).
  If that send is waiting when a put drops an item of the full channel, it takes the slot, and the retry loses the new
  snapshot (`internal/decision/contract_store.go:80-95`): `ContractReplication.LostPushLeavesBehind`.
* A duplicate is looked for among hot events only, and a dropped event still opens an empty record of its run
  (`internal/evidence/kernel.go:230`, `internal/evidence/kernel.go:1324`).
* Deletion on request drops the payload fields that the decision graph reads (`internal/evidence/kernel.go:942`).

## Model

| member | source | states |
|---|---|---|
| `RunKernel.Kernel.CreateRun` | internal/run/kernel.go:114-242 | Answers, errors and all maps are those of a create: a reused request is answered from its entry, a changed one conflicts, a failed snapshot hash drops the entry and uses up the number, a new run starts RUNNING at version 1 under a new name. |
| `RunKernel.Kernel.AdvanceRun` | internal/run/kernel.go:244-512 | Every early return, gate failure and success leaves exactly the state and answer of the advance: replay, version and order checks, the gate, obligations, transition, hashes, append. |
| `RunKernel.Kernel.CheckGate` | internal/run/kernel.go:282-404 | The first failing check of reference, confirmation, hash, binding, kind, value and receipt, in that order. |
| `RunKernel.Kernel.EnforceObligations` | internal/run/kernel.go:1149-1249 | The loop attaches tags up to the first obligation that stops the advance, and reports that one; without one it has met them all. |
| `RunKernel.Kernel.AppendAdvance` | internal/run/kernel.go:428-512 | The step is chained, version, sequence number, hash and root move together, the answer is cached, and a finished run loses its caches. |
| `RunKernel.Kernel.ParkRun` | internal/run/kernel.go:514-626 | A park appends one synthetic step, moves to PARKED or AWAITING_APPROVAL by token type and issues one token at the new sequence number, or changes nothing. |
| `RunKernel.Kernel.ResumeRun` | internal/run/kernel.go:628-703 | A resume consumes its token and appends one step to RUNNING; an expired token is only marked; any other refusal changes nothing. |
| `RunKernel.Kernel.AbortRun` | internal/run/kernel.go:705-740 | A live run gets one closing step and is ABORTED without caches; a terminal run is returned as it is. |
| `RunKernel.Kernel.FindActiveContinuation` | internal/run/kernel.go:752-793 | Of the active, unexpired tokens for the run, step and type it finds one that no other is issued after, and nothing only if there is none. |
| `RunKernel.Kernel.FlagRunRisk` | internal/run/kernel.go:830-840 | Sets the two risk flags of an existing run and nothing else. |
| `RunKernel.Kernel.VisitTTL` | internal/run/kernel.go:847-903 | What the lifetime sweep does to one run: overdue and at risk it is force-aborted, overdue without progress it is put to review. |
| `RunKernel.Kernel.VisitZombie` | internal/run/kernel.go:915-964 | What the no-progress sweep does to one run: the second idle scan closes it. |
| `RunKernel.Kernel.Sweep` | internal/run/kernel.go:842-968 | A sweep visits the first batch of the runs in ascending order of id, each once, and then runs maintenance. |
| `RunKernel.Kernel.SortedRuns` | internal/run/kernel.go:1504-1515 | The ids of all runs, in ascending order, each once. |
| `RunKernel.Kernel.AnchorRoot` | internal/run/kernel.go:1053-1077 | Root, version, type and anchor of a run are set for a non-blank root; the root version counts changes of the root. |
| `RunKernel.Kernel.MoveRun` | internal/run/kernel.go:1029-1044 | State, version, sequence number and last hash move together and the state anchors its root, except FAILED and SAFEGUARD_HOLD. |
| `RunKernel.Kernel.HoldRun` | internal/run/kernel.go:274-279 | A gate failure moves the state to SAFEGUARD_HOLD and the root to the last hash, and neither version nor log. |
| `RunKernel.Kernel.CloseRun` | internal/run/kernel.go:986-1020 | The closing step of an abort or a sweep, one past the current sequence number, on the active step. |
| `RunKernel.Kernel.CleanupRunScopedCaches` | internal/run/kernel.go:1540-1552 | All continuation, idempotency and create-request entries of the run go, and no others. |
| `RunKernel.Kernel.CleanupContinuations` | internal/run/kernel.go:1569-1599 | Active tokens past expiry become expired; a token goes when its consumption or expiry is older than the retention. |
| `RunKernel.Kernel.CleanupIdempotency` | internal/run/kernel.go:1601-1614 | Entries not used within the lifetime go. |
| `RunKernel.Kernel.CleanupTerminalRuns` | internal/run/kernel.go:1616-1633 | Terminal runs older than the retention go, with their logs and cache entries. |
| `RunKernel.Kernel.CleanupCreateRuns` | internal/run/kernel.go:1639-1652 | Create-request entries not used within the retention go. |
| `RunKernel.Kernel.MaintenanceSweep` | internal/run/kernel.go:1554-1567 | The four cleanups in order. |
| `RunHistory.ReachableInv` | internal/run/kernel.go:114-1659 | Over every sequence of operations: logs, caches, tokens, names and roots are consistent. |
| `RunHistory.SweepIsHistory` | internal/run/kernel.go:842-968 | A sweep is the history of its visits and the maintenance after them, so every statement over histories covers sweeps. |
| `RunHistory.LogIsChain` | internal/run/kernel.go:428-473 | After any history each log is a hash chain from the blank hash to the last step hash, with ascending sequence numbers, and the state version is one plus its length. |
| `RunHistory.RootStandsFor` | internal/run/kernel.go:1029-1077 | The root stands for a prefix of the log, all of it outside FAILED and SAFEGUARD_HOLD, and its version never exceeds the length of the log. |
| `RunHistory.DigestBinds` | internal/run/kernel.go:428-473 | With an injective hash, equal digests stand for equally many steps with equal contents. |
| `RunHistory.EqualRootsEqualContents` | internal/run/kernel.go:1053-1077 | With an injective hash, equal roots of any two runs in any two histories force equal logged contents under them. |
| `RunHistory.ApplyEvolves` | internal/run/kernel.go:1455-1481 | What any one operation does to any run: it rests, goes to SAFEGUARD_HOLD, or moves by one appended step along the table or to a forced end. |
| `RunHistory.RunLater` | internal/run/kernel.go:244-968 | Over the rest of any history a log only grows, and a deleted run does not come back. |
| `RunHistory.QuarantineHolds` | internal/run/kernel.go:254-421 | Once in SAFEGUARD_HOLD or FORCE_REVIEW_REQUIRED, a run is only ever in those two, FORCE_ABORT or ABORTED. |
| `RunHistory.TerminalIsFinal` | internal/run/kernel.go:1446-1453 | The view of a run in COMPLETED, FAILED, FORCE_ABORT or ABORTED never changes until it is deleted. |
| `RunHistory.OneCurrentToken` | internal/run/kernel.go:588-603 | At most one token of a run sits at its sequence number; it is unconsumed, and the run is in AWAITING_APPROVAL if it is an approval token and in PARKED otherwise. |
| `RunHistory.LateChecksIdle` | internal/run/kernel.go:665-669 | The state and type checks after the sequence check never refuse a resume in a reachable state. |
| `RunHistory.ResumesLatestPark` | internal/run/kernel.go:641-669 | A token that resumes was issued by the last step of the log, which is a park. |
| `RunHistory.ResumesOnce` | internal/run/kernel.go:641-690 | In any history a token resumes at most once. |
| `RunHistory.CachesNameLiveRuns` | internal/run/kernel.go:1540-1659 | After any history every cache entry is of a run that exists and is not terminal. |
| `RunHistory.ReplayAppendsNothing` | internal/run/kernel.go:264-269 | A replayed advance is answered with the log entry two below its version and appends nothing. |
| `RunHistory.ReuseAnswersSameRequest` | internal/run/kernel.go:151-175 | A reused create response answers only a request that is identical after normalisation. |
| `RunOrder.HasFirst` | internal/run/kernel.go:1504-1515 | Every non-empty set of run ids has a first one in lexicographic order, so the ascending order of the sweeps exists. |
| `RunOrder.BeforeIff` | internal/run/kernel.go:1504-1515 | One id is before another exactly if it is a proper beginning of it or has the smaller letter where they first differ. |
| `AdvanceRules.AdvanceIff` | internal/run/kernel.go:244-512 | An advance that is no replay succeeds if and only if the run is in one of four states at the version named, the sequence number is later, the gate is open, every obligation is met, the target can be reached and the hashes are there; then step, view, tags, answer and caches are spelled out. Otherwise nothing is logged, and the run is held if and only if the order, the gate, an obligation or the hashing failed. |
| `AdvanceRules.ReplayDoes` | internal/run/kernel.go:264-269 | A replay is answered from the cache and changes nothing but the time of its last use. |
| `AdvanceRules.AdvanceReports` | internal/run/kernel.go:244-427 | Which error a refused advance answers: the first failing check of the request, then of the gate, then of the obligations, then of what is to be logged. |
| `AdvanceRules.GateReports` | internal/run/kernel.go:282-404 | The gate reports the first of its seven checks that fails. |
| `AdvanceRules.DutiesIff` | internal/run/kernel.go:1149-1249 | The obligations let an advance pass if and only if the request meets each of them, spelled out by type: none denies or is unsupported, each phase is one the decision takes, limits parse and hold, templates are there. |
| `AdvanceRules.EnforceReports` | internal/run/kernel.go:1149-1249 | An advance that its obligations stop is told of the first one it does not meet. |
| `AdvanceRules.EnforceTags` | internal/run/kernel.go:1149-1249 | Each tag gets the value of the last obligation that attaches it, and no other tag changes. |
| `AdvanceRules.VersionsApart` | internal/run/kernel.go:270-273 | In any history, of the advances of one run that succeeded each named a later version than those before it. |
| `RunRules.CreateDoes` | internal/run/kernel.go:114-242 | Exactly what a create does: refused with the first failing check, answered from its entry, refused as a conflict, or a new run under an unused name with every field as requested. |
| `RunRules.CreateTwice` | internal/run/kernel.go:151-175 | The same request again gets the same run and starts no second one. |
| `RunRules.ParkDoes` | internal/run/kernel.go:514-626 | Exactly when a park is refused and with what, and otherwise the step, the state by token type, the one new token and its expiry. |
| `RunRules.ResumeDoes` | internal/run/kernel.go:628-703 | In a reachable state: exactly when a token resumes, and the step, the state and the spent token; a refusal changes nothing but an expired token. |
| `RunRules.AbortDoes` | internal/run/kernel.go:705-740 | Exactly what an abort does, by the state of the run. |
| `RunRules.TtlDoes` | internal/run/kernel.go:842-908 | The lifetime sweep aborts an overdue run that is at risk, puts another overdue run to review, and leaves every other alone. |
| `RunRules.ZombieDoes` | internal/run/kernel.go:910-968 | The no-progress sweep counts idle scans and closes a run at the second, by abort at risk and by review otherwise. |
| `RunRules.FlagDoes` | internal/run/kernel.go:830-840 | The two flags of the run are set as given, and nothing else. |
| `RunRules.BatchIs` | internal/run/kernel.go:842-850 | A sweep visits the first ids in order, as many as its batch holds. |
| `RunRules.SortedUnique` | internal/run/kernel.go:1504-1515 | There is one ascending order of the ids of the runs, so which runs a batch holds is settled. |
| `RunRules.MaintenanceDoes` | internal/run/kernel.go:1554-1659 | Exactly which runs, tokens, answers and create entries maintenance keeps, by time. |
| `RunRules.FoundIff` | internal/run/kernel.go:752-793 | A search finds a token that serves exactly if there is one, and then one with the latest number and issue. |
| `RunStates.StatesMove` | internal/run/kernel.go:1446-1481 | After any history, the states the next operation can take a run to, listed for each state. |
| `RunStates.ParkedUntilResumed` | internal/run/kernel.go:588-669 | In any history a parked run stays parked until its own current token of the fitting type resumes it, it is aborted, or a sweep closes it. |
| `RunStates.RootsAnchored` | internal/run/kernel.go:1029-1077 | After any history the root of a run is typed exactly if there is one, is the anchor of its type, and away from FAILED and SAFEGUARD_HOLD its type is that of the state. |
| `DecisionKernel.Service.CreatePendingDecision` | internal/decision/service.go:2233-2292 | A new entry, or a refresh of a pending one with the same owner; an entry of another owner or status is left alone. |
| `DecisionKernel.Service.ConfirmRunAdvance` | internal/decision/service.go:1433-1481 | The reason of the first failing check in order, the new entry, and the status answered is that of the entry after the call. |
| `DecisionKernel.Service.TerminalizePendingDecision` | internal/decision/service.go:1709-1739 | Only a pending entry takes one of the three final statuses. |
| `DecisionKernel.Service.RepairPendingDecisions` | internal/decision/service.go:1741-1795 | The loop nudges, compares, holds or escalates exactly the pending entries idle beyond the limit. |
| `DecisionKernel.Service.IsDecisionConfirmedWithOwner` | internal/decision/service.go:1845-1874 | True exactly for a confirmed entry of that run and step whose attempt, phase and owner agree. |
| `DecisionKernel.Service.GetDecisionReference` | internal/decision/service.go:1910-1950 | The reference read by the run kernel; a fallback hash is never valid. |
| `DecisionKernel.Service.CanExecuteSideEffect` | internal/decision/service.go:1642-1672 | True exactly if the strict gate lets the decision through. |
| `DecisionKernel.Service.CreateApprovalCase` | internal/decision/service.go:1244-1287 | A new awaiting case under the next number with the timeout of its risk, or the default. |
| `DecisionKernel.Service.ResolveApprovalCase` | internal/decision/service.go:1301-1318 | An awaiting case takes the verdict once and is copied out; any other is refused. |
| `DecisionKernel.Service.ApplyApprovalOutcomeToPending` | internal/decision/service.go:1516-1573 | The outcome reaches the entry of the same run and step only while that is pending, and then signals. |
| `DecisionKernel.Service.EnforceApprovalUnlockFailureGuard` | internal/decision/service.go:1615-1638 | A confirmed entry of the same run and step goes to safeguard hold; nothing else changes. |
| `DecisionKernel.Service.TimeOutApprovalCases` | internal/decision/service.go:1363-1390 | The loop resolves by risk exactly the awaiting cases past their timeout and copies out each of them once. |
| `DecisionKernel.Service.SweepApprovalHardTimeouts` | internal/decision/service.go:1363-1431 | The copied cases are applied one after the other, and none of them is approved. |
| `DecisionKernel.Service.ExceedsQuota` | internal/decision/service.go:3197-3205 | True exactly if some requested amount is above the quota for it. |
| `DecisionKernel.Service.AdmitSchedule` | internal/decision/service.go:907-1021 | A ticket for what was requested, only within the quota shown. |
| `DecisionKernel.Service.ValidateExecutionReceiptForRun` | internal/decision/service.go:1023-1101 | True exactly if the ticket exists, is unexpired at the receipt time, is bound to the run, step and tenant, and covers every amount used. |
| `DecisionKernel.Service.CleanupExpired` | internal/decision/service.go:1978-2045 | Entries, decisions, tickets and cases past their retention go; pending entries and awaiting cases never do. |
| `PendingLifecycle.ReachableInv` | internal/decision/service.go:1433-2292 | After any interleaving a pending entry was repaired at most twice, every owner key is that of its own fields, and tickets fit the quota shown. |
| `PendingLifecycle.EntryStep` | internal/decision/service.go:1433-2292 | No operation moves a status other than out of pending, or from confirmed to safeguard hold, nor changes an owner. |
| `PendingLifecycle.StatusOverHistory` | internal/decision/service.go:1433-2292 | The same over any stretch of history in which the entry is kept. |
| `PendingLifecycle.LeavesOnce` | internal/decision/service.go:1433-2292 | An entry leaves pending_decision at most once while it is kept; afterwards only confirmed to safeguard hold can occur. |
| `PendingLifecycle.RepairNeverEscalates` | internal/decision/service.go:1786-1791 | The escalation branch of the repair is unreachable. |
| `PendingLifecycle.RepairedThrice` | internal/decision/service.go:1741-1795 | The repair touches an entry at most three times while it is kept. |
| `PendingLifecycle.ConfirmedIsExact` | internal/decision/service.go:1845-1874 | In reachable states a confirmation is for exactly the run, step, attempt and phase of the entry. |
| `DecisionRules.OutcomeDoes` | internal/decision/service.go:1487-1573 | The outcome of a case reaches only the pending entry for its run and step: approved confirms it, queued for review holds it, any other outcome closes it. |
| `DecisionRules.ResolveDoes` | internal/decision/service.go:1301-1318 | An awaiting case becomes approved or denied as the call says; any other is refused. |
| `DecisionRules.TimeoutDoes` | internal/decision/service.go:1363-1390 | A case past its time is auto-denied at low risk, queued for review at medium and failed closed otherwise; no other case changes. |
| `DecisionRules.OpenCaseDoes` | internal/decision/service.go:1244-1287 | A new awaiting case under an unused number, with the timeout of its risk or thirty minutes. |
| `DecisionRules.GuardDoes` | internal/decision/service.go:1615-1638 | Only a confirmed entry for the run and step of the case goes to safeguard hold. |
| `DecisionRules.ConfirmDoes` | internal/decision/service.go:1433-1481 | A confirmation has an effect only on a pending entry that it matches by run, step, owner, attempt and phase; with success it confirms it, without it only touches it. |
| `DecisionRules.ConfirmReports` | internal/decision/service.go:1433-1481 | The reason answered is that of the first check that fails. |
| `DecisionRules.TerminalizeDoes` | internal/decision/service.go:1709-1739 | Only a pending entry moves, and only to held, escalated or closed. |
| `DecisionRules.RepairDoes` | internal/decision/service.go:1741-1795 | Exactly the pending entries idle beyond the limit count one more repair, and the third time are held. |
| `DecisionRules.EvaluateDoes` | internal/decision/service.go:2233-2352 | An evaluation stores its decision; one to allow, to require approval or to review opens a pending entry or refreshes that of the same owner, and no other does. |
| `DecisionRules.AdmitDoes` | internal/decision/service.go:907-1021 | A ticket is given if and only if no amount asked for is above the quota shown, and is for exactly those amounts. |
| `DecisionRules.ReceiptIff` | internal/decision/service.go:1023-1101 | A receipt is good if and only if its ticket is of this run, step and tenant, in time, and allows every amount used. |
| `DecisionRules.ConfirmedIff` | internal/decision/service.go:1845-1874 | In a reachable state a confirmation holds for exactly the run, step, attempt and phase of a confirmed entry. |
| `DecisionRules.ReferenceDoes` | internal/decision/service.go:1910-1950 | When a reference is valid and of what kind, by what is noted with the decision or else by its hash. |
| `DecisionRules.SideEffectIff` | internal/decision/service.go:1642-1672 | The strict gate asks for a confirmed entry and a decision to allow or to require approval, under a valid stable hash; it takes no blank value. |
| `DecisionRules.CleanupKeeps` | internal/decision/service.go:1978-2045 | Exactly what the three cleanups keep. |
| `DecisionRules.ConfirmedBy` | internal/decision/service.go:1433-1573 | An entry that is confirmed was confirmed by one operation of the history, a matching report of success or the outcome of an approved case, and has been since; so no denied or timed-out case ever confirms. |
| `JointSystem.KernelHistories` | internal/httpapi/router.go:77-206 | Seen from either kernel, any interleaving of the joint system is one of its own histories. |
| `JointSystem.JointInv` | internal/httpapi/router.go:77-206 | Both kernels keep their invariants in any interleaving. |
| `ExecutionGate.EveryStepPassed` | internal/run/kernel.go:282-404 | Each normal step of each log was logged by an advance that had read, in order, a stable decision with the logged hash and a value the gate takes, every obligation of which the request met (phase, no denial, nothing unsupported, limits, templates), an entry confirmed for the same run, step, attempt and phase, and a ticket bound to run, step and tenant that covers the use within the quota shown, in time. |
| `ExecutionGate.EveryStepAllowed` | internal/run/kernel.go:282-404 | The execution gate: the decision read before a step was logged goes back to one operation that stored it, and it was allow or require_approval if and only if that operation stored a value; so it was for every step of every history in which none stores a blank. |
| `BlankDecision.BlankGetsLogged` | internal/run/kernel.go:1368-1379 | The other half: a history whose only advance reads a decision stored without a value, under a confirmed entry, and logs its step. |
| `ExecutionGate.StoredBy` | internal/decision/service.go:2294-2352 | Every stored decision was stored by an evaluation or a record of the history. |
| `Confirmations.EveryConfirmation` | internal/decision/service.go:1289-1481 | In any interleaving a confirmed entry was confirmed by one step: a report of success, the outcome of an approved case, or a call that approves the case; a deny call never is one. |
| `Confirmations.EveryStepConfirmed` | internal/run/kernel.go:282-404 | The confirmation read before a step was logged was made by such a step earlier in the history. |
| `Confirmations.SideEffectsConfirmed` | internal/decision/service.go:1642-1672 | In any interleaving the strict gate opens only on a decision stored to allow or to require approval and confirmed by such a step. |
| `ExecutionGate.AdvanceLogs` | internal/run/kernel.go:404-466 | An advance appends its one step only if gate and obligations let it through; otherwise the logs are as they were. |
| `ExecutionGate.OnlyAdvanceLogs` | internal/run/kernel.go:986-1020 | No operation but an advance logs a normal step. |
| `ExecutionGate.FlightReads` | internal/run/kernel.go:282-404 | What an advance in flight has read are answers of the decision kernel at three points of the history, in order, while the run kernel stood still. |
| `ApprovalProtocol.ApprovalCloses` | internal/decision/service.go:1289-1361 | Approval closure: in any interleaving an approve call that ended either resumed the run of its case with an approval token for the step, or ended with a guard after which the entry for that run and step is not confirmed. |
| `ApprovalProtocol.FailedUnlockHolds` | internal/decision/service.go:1615-1638 | A call that confirmed an entry and failed to unlock leaves it in safeguard hold as long as it is kept. |
| `ApprovalProtocol.DispatchedResumed` | internal/httpapi/router.go:158-206 | A dispatched call has a step at which ResumeRun succeeded on its run. |
| `ApprovalOnce.OneVerdictPerCase` | internal/decision/service.go:1301-1318 | In any interleaving, of two calls on one case at most one gets its verdict in. |
| `ApprovalOnce.OneCallPerToken` | internal/decision/service.go:1575-1613 | In any interleaving no two dispatched calls, on whatever cases, used the same token. |
| `ApprovalOnce.DecidedCloses` | internal/decision/service.go:1301-1318 | A call that got its verdict in leaves its case closed for good, or deleted: it never awaits again. |
| `ApprovalAlone.ApproveIff` | internal/decision/service.go:1289-1361 | The converse: uninterrupted, an approve call dispatches exactly if the case awaits, the entry is pending, the run is parked for approval under an unexpired token of the step and the step hashes; then the run is RUNNING, one step longer, the token consumed and the entry confirmed. |
| `ApprovalAlone.DenyIff` | internal/decision/service.go:1289-1361 | A deny call leaves the run kernel as it was; it is refused exactly if the case does not await a verdict, and otherwise denies it and closes the entry exactly if that was pending for the same run and step. |
| `ApprovalAlone.DispatchIff` | internal/httpapi/router.go:158-206 | The dispatch succeeds exactly if the run has a usable token at its current sequence number and the step hashes. |
| `ApprovalAlone.SearchFindsCurrent` | internal/run/kernel.go:752-793 | The search finds the current token if there is one. |
| `ApprovalAlone.DecideIsHistory` | internal/decision/service.go:1289-1361 | The sequential call is one history of the joint system. |
| `ApprovalService.Approvals.DispatchApprovalRunUnlock` | internal/httpapi/router.go:158-206 | Find, look, resume, look again: the run kernel and the answer are those of the dispatch. |
| `ApprovalService.Approvals.DecideApprovalCase` | internal/decision/service.go:1289-1361 | Both kernels and the answer are those of the call: resolve, apply, dispatch, guard. |
| `ApprovalService.Approvals.CanExecuteSideEffectFinal` | internal/decision/service.go:1676-1707 | True exactly if the strict gate lets the decision through, the run is RUNNING and the receipt is good. |
| `ContractKernel.SetFeatureSignalContractActiveVersion` | internal/decision/control_plane.go:846-867 | In place, the one version becomes active and the one that was is superseded; nothing else changes. |
| `ContractKernel.SortScheduled` | internal/decision/control_plane.go:879-884 | In place, the list is in order of activation time and version. |
| `ContractKernel.FilterDue` | internal/decision/control_plane.go:885-902 | In place, what is not due is packed at the front in order; what is due is handed out in order. |
| `ContractKernel.ApplyDueFeatureSignalContracts` | internal/decision/control_plane.go:869-905 | Key by key, all due versions are activated in order and counted. |
| `ContractKernel.Store.PutSnapshot` | internal/decision/contract_store.go:62-97 | A snapshot is stored under a revision past the current one and pushed to every channel: a full one loses its oldest item for it, and where the initial snapshot waits to be sent that may take the slot and the new one is lost; a failed put changes nothing. |
| `ContractKernel.Store.Watch` | internal/decision/contract_store.go:99-126 | A new empty channel is registered, with the store's snapshot waiting to be sent to it first if there is one. |
| `ContractKernel.ControlPlane.constructor` | internal/decision/service.go:270-332 | Boot takes the store's snapshot, or commits the configured contracts, or keeps them without a store at version 1. |
| `ContractKernel.ControlPlane.Commit` | internal/decision/contract_runtime.go:80-97 | Only what the store took is applied, under the revision it gave; a failed put changes nothing. |
| `ContractKernel.ControlPlane.Sync` | internal/decision/contract_runtime.go:99-112 | The cache takes a non-empty store's snapshot. |
| `ContractKernel.ControlPlane.TakeWatched` | internal/decision/contract_runtime.go:142-157 | A watched snapshot is applied only if it is newer than the cache. |
| `ContractKernel.ControlPlane.PublishFeatureSignalContract` | internal/decision/control_plane.go:353-536 | Refusals in order, first against the cache before the lock and again under it on what the watcher may have brought since; a dry run answers the next version and changes nothing; a success appends the next version, scheduled or adopted, and commits; a failed commit changes nothing. |
| `ContractKernel.ControlPlane.RollbackFeatureSignalContract` | internal/decision/control_plane.go:606-734 | The target is found or refused; its content becomes the next, active version and is recorded. |
| `ContractKernel.ControlPlane.RunFeatureSignalContractScheduler` | internal/decision/control_plane.go:937-1010 | Reported activated plus pending is what was pending before; the maps are those of the scheduler, or unchanged if the commit fails. |
| `ContractInvariants.PublishKeeps` | internal/decision/control_plane.go:448-515 | A publish on well-formed maps gives well-formed maps: versions 1..n, at most one active, Active present exactly with it and equal to it, Scheduled exactly the scheduled entries. |
| `ContractInvariants.RollbackKeeps` | internal/decision/control_plane.go:629-717 | The same for a rollback. |
| `ContractInvariants.SchedulerKeeps` | internal/decision/control_plane.go:869-905 | The same for the scheduler. |
| `ContractRules.PublishDoes` | internal/decision/control_plane.go:353-536 | On well-formed maps: refused with the first failing check, and without leave to break only if every field required before and the schema major are kept; otherwise the next version of its key, active with the former one superseded or scheduled, and no other key changes. |
| `ContractRules.RollbackDoes` | internal/decision/control_plane.go:606-734 | On well-formed maps: refused with the first failing check; otherwise the content of the version named, or of the one before the latest, is the next and active version, the record names both versions, and no other key changes. |
| `ContractRules.SchedulerDoes` | internal/decision/control_plane.go:869-1010 | On well-formed maps: exactly what is not due stays scheduled; the contract enforced is that of the due version latest in time and number, the other due versions and the one that was are superseded, and a key with nothing due is unchanged. |
| `ContractOrder.SortIsUnique` | internal/decision/control_plane.go:879-884 | There is one arrangement in activation order, however it is sorted. |
| `ContractOrder.DueInSteps` | internal/decision/control_plane.go:885-902 | What is due later is what was due earlier followed by what is due of the rest. |
| `ContractScheduler.SchedulerConfluence` | internal/decision/control_plane.go:869-905 | Running at t1 and then at a later t2 gives the same Active contracts, Scheduled lists and statuses as running once at t2. |
| `ContractScheduler.SchedulerIdempotent` | internal/decision/control_plane.go:937-965 | A second run at the same time changes nothing. |
| `ContractScheduler.SchedulerConserves` | internal/decision/control_plane.go:937-1010 | Due plus still scheduled is what was scheduled. |
| `ContractReplication.CommittedWellFormed` | internal/decision/control_plane.go:353-905 | At every point of a history every snapshot committed and every cache is well formed, however stale the caches edited, if and only if the seed is and every kernel that boots with its configured contracts was configured with plain ones. |
| `ContractReplication.CachesAgree` | internal/decision/contract_runtime.go:28-97 | A kernel that reached the store holds exactly the maps committed at its version, which is at most the store's revision; the version is past it exactly in a kernel without a store while that is empty. |
| `ContractReplication.StepsForward` | internal/decision/contract_runtime.go:28-112 | No step takes a version back or changes what was committed, and a failed put changes nothing. |
| `ContractReplication.StoredIs` | internal/decision/contract_store.go:69-78 | What is stored is what was given, under the later of its revision and the next one. |
| `ContractReplication.CommitDoes` | internal/decision/contract_runtime.go:80-97 | An edit that goes through is in the store and in the kernel's cache under one new revision past both, and no other cache changes; one that is refused, or whose put fails, changes nothing. |
| `ContractReplication.BootDoes` | internal/decision/service.go:270-332 | A kernel boots from a store that has something, else fills it, else starts with its own maps at version 1. |
| `ContractReplication.BootMapsAre` | internal/decision/service.go:270-318 | Each configured contract is enforced, as version 1 of a history that notes its required fields and the hash of all of it. |
| `ContractReplication.DrainedHoldsLatest` | internal/decision/contract_runtime.go:114-159 | A watching kernel that drained its channel is at the store's revision if and only if the newest snapshot was not lost behind a waiting initial send, and then holds the store's maps if and only if it is not detached, or the revision is past 1, or the maps it booted with are those of revision 1. |
| `ContractReplication.DetachedHoldsBoot` | internal/decision/service.go:270-332 | Each kernel goes back to one boot of the history, and holds the maps of that boot as long as it has reached no store. |
| `ContractReplication.LostPushLeavesBehind` | internal/decision/contract_store.go:80-95 | A history in which a put drops an item, the waiting initial snapshot takes the slot, and the kernel ends drained two revisions behind. |
| `ContractReplication.DetachedMissesRevisionOne` | internal/decision/service.go:290-328 | For any two configurations, a history in which a kernel that reached no store at boot takes the store's revision 1 for its own: it ends drained and at that revision with the store's maps only if both configurations are the same. |
| `ContractReplication.BootWellFormed` | internal/decision/service.go:299-318 | Boot maps are well formed exactly if every configured contract says nothing but its required fields. |
| `ContractResolution.ResolveFeatureSignalContract` | internal/decision/service.go:2674-2744 | The first contract with required fields in scope-then-key order; the path is exactly the keys tried; without one, the default contract under no hash. |
| `ContractResolution.ResolvesMostSpecific` | internal/decision/service.go:2645-2744 | Of all keys for the request with a contract to enforce, the one found goes before every other: by a narrower scope, then by naming the risk, then by naming the phase; without one, the default contract is enforced. |
| `ContractResolution.ScopesInOrder` | internal/decision/service.go:2645-2672 | The four scopes from project to global, each once: exactly the candidates, the request's own first. |
| `ContractResolution.LatestActiveVersion` | internal/decision/control_plane.go:915-923 | The latest active entry of a history. |
| `ContractResolution.ReportIsTrue` | internal/decision/service.go:2687-2717 | On well-formed maps, version, hash and schema reported are those of the contract enforced. |
| `ContractResolution.PinIff` | internal/decision/service.go:518-544 | A request passes exactly if it names no pin, or a contract was found whose hash is the pin. |
| `ContractResolution.PinFixesContract` | internal/decision/service.go:518-544 | With an injective hash one pin stands for one contract, on any kernels at any versions. |
| `ContractResolution.PinHoldsInCluster` | internal/decision/service.go:518-544 | A pin that passes on any two kernels of any two clusters, at any points of their histories and for any two requests, holds both to one contract, and that has the pinned hash. |
| `ObligationPlan.BuildObligationPlan` | internal/decision/service.go:3051-3168 | One obligation for each type and target that occurs, the strictest of the last pre-tool item and all later ones; one trace for each input saying what became of it and what it met; one conflict of the right kind for each rejection. |
| `ObligationPlan.PlanNeverWeakens` | internal/decision/service.go:3051-3168 | Each planned obligation is at least as strict as every later item of its type and target and as the last pre-tool one, and is one of these, the last of the equally strict. |
| `ObligationPlan.TakeLater` | internal/decision/service.go:3072-3144 | A later item is rejected exactly if something considered before it for its key is stricter. |
| `EvidenceKernel.Kernel.constructor` | internal/evidence/kernel.go:73-106 | Settings that are not positive become 1, 30 and 180 days of retention, 2000 events, 8 MiB and a load of 0.8; then warm is raised to event and cold to warm; the rest is as given. |
| `EvidenceKernel.Kernel.IngestEvent` | internal/evidence/kernel.go:209-325 | A duplicate of a hot event changes nothing, a dropped event opens its run, any other is chained, indexed and tallied, without its payload if it is degraded; which of these is decided from budget, pressure and load. |
| `EvidenceKernel.Kernel.DecideIngestAction` | internal/evidence/kernel.go:1322-1370 | Over budget tiers 2 and 3 are dropped and the others degraded; within it what back-pressure or sampling under load rules out is dropped and the rest accepted. |
| `EvidenceBudget.BudgetHolds` | internal/evidence/kernel.go:1322-1342 | In any history of ingests, deletions and sweeps the events a run holds in full are within its budget, in number and in size. |
| `EvidenceBudget.CriticalIsKept` | internal/evidence/kernel.go:1344-1367 | Under any pressure an event of tier 0, or of tier 1 and high risk, is logged and indexed, and loses its payload if and only if its run is over budget. |
| `EvidenceKernel.Kernel.AppendIntegrity` | internal/evidence/kernel.go:1236-1271 | The event is linked to the head of its run's chain. |
| `EvidenceKernel.Kernel.VerifyIntegrity` | internal/evidence/kernel.go:803-852 | True exactly if the log in order of time and id is a chain. |
| `EvidenceKernel.Kernel.DeleteEventsByDSAR` | internal/evidence/kernel.go:902-976 | Targeted events are deleted or lose their payload, and everything derived is rebuilt. |
| `EvidenceKernel.Kernel.RebuildDerivedIndexes` | internal/evidence/kernel.go:1273-1320 | Logs sorted and chained anew, with index, heads and counters computed from them. |
| `EvidenceKernel.Kernel.RotateArchives` | internal/evidence/kernel.go:1129-1172 | Warm archives give up what is past warm, cold archives what is past cold. |
| `EvidenceKernel.Kernel.SweepRetentions` | internal/evidence/kernel.go:1068-1127 | Rotation, archiving of hot events by age, deletion of empty runs, rebuild. |
| `EvidenceRules.SoonerIff` | internal/evidence/kernel.go:803-852 | Events are in order of time and, at the same time, of their ids letter by letter. |
| `EvidenceRules.LevelIs` | internal/evidence/kernel.go:1372-1381 | The effective level is the highest of those set for all, for the source and for the tenant. |
| `EvidenceRules.DecideIff` | internal/evidence/kernel.go:1322-1370 | Exactly which events are degraded and which dropped, by room, tier, risk, level and load. |
| `EvidenceRules.IngestDoes` | internal/evidence/kernel.go:209-325 | In any history a new event that is not dropped ends its run's log, whole or without its payload, linked by number and hash to the one before; a duplicate or dropped one changes no log. |
| `EvidenceRules.DeletionErases` | internal/evidence/kernel.go:902-976 | After a deletion for a tenant no event it covers has its payload and none of low signal is left; every event of another tenant, run or prefix is there as it was but for its link; and nothing else is. |
| `EvidenceRules.CountersTell` | internal/evidence/kernel.go:1273-1320 | In any history the counters of a run are what counting its log gives. |
| `EvidenceRules.EqualHeadsEqualEvents` | internal/evidence/kernel.go:1236-1271 | With an injective hash, two runs of any two histories with the same chain head have logged the same events in the same order, as far as they are hashed. |
| `EvidenceRetention.SweepCounts` | internal/evidence/kernel.go:1068-1172 | How many copies of an event each tier of a run holds after a sweep, by its age. |
| `EvidenceInvariants.IngestOk` | internal/evidence/kernel.go:283-303 | An ingest keeps chains, counters, index and distinct ids. |
| `EvidenceInvariants.DeleteOk` | internal/evidence/kernel.go:902-976 | A deletion keeps them and leaves every log in order. |
| `EvidenceInvariants.SweepOk` | internal/evidence/kernel.go:1068-1110 | A sweep keeps them and leaves every log in order. |
| `EvidenceHistory.IndexesAgree` | internal/evidence/kernel.go:230-303 | After any history hot ids are distinct across runs, the index holds exactly the hot events, and each run's counters equal a fold over its log. |
| `EvidenceHistory.VerifiesIffReachable` | internal/evidence/kernel.go:803-852 | With an injective hash, a run passes verification exactly if its log was written in order of time and id. |
| `EvidenceHistory.RebuiltVerifies` | internal/evidence/kernel.go:1273-1320 | Right after a deletion or a sweep every run passes, whatever order its events came in. |
| `EvidenceHistory.InOrderKeepsVerifying` | internal/evidence/kernel.go:803-852 | Ingesting in order of time and id keeps a run passing. |
| `EvidenceHistory.LateEventFails` | internal/evidence/kernel.go:803-852 | One event that is logged and earlier than the last of its run makes the run fail. |
| `EvidenceRetention.SweepPathIndependent` | internal/evidence/kernel.go:1068-1172 | Sweeping at t1 and then at t2 leaves each tier of each run with the events that sweeping once at t2 leaves, as multisets. |
| `EvidenceRetention.SweepConserves` | internal/evidence/kernel.go:1068-1172 | Each event is hot, warm, cold or deleted after a sweep, exactly as often as it was there before. |
| `EvidenceRetention.TierIsAge` | internal/evidence/kernel.go:1068-1172 | After a sweep, in any history whose sweeps do not go back in time, each event's tier is that of its age. |
| `EvidenceGraph.AncestorClosure` | internal/evidence/kernel.go:1639-1652 | The stack search ends with exactly the node and its ancestors. |
| `EvidenceGraph.SelectFinalDecisionNode` | internal/evidence/kernel.go:1683-1724 | The one decision that leads to no decision, if there is exactly one. |
| `EvidenceGraph.EveryDecisionLeads` | internal/evidence/kernel.go:1683-1724 | Where causes come before what they cause, one final decision means that every decision of the run led to it. |
| `EvidenceGraph.IsHighRiskGraphComplete` | internal/evidence/kernel.go:1590-1681 | For a run that needs a graph: true exactly if there are nodes and edges, one final decision, every declared parent edge, and an ancestor of each required type seen. |

## Left out

- Outboxes, event payloads, reason texts, counters, metrics and sweep totals: outputs with no invariant behind them.
- HTTP handlers, JSON, URL and template parsing: obligations, limits, receipts and template evidence reach the model parsed.
- `EvaluateRuntime`, `EvaluateRelease`, features, organisation health and the enforcement matrix: settled branch by branch;
  an evaluation is modelled from the point where it stores its decision and opens a pending entry.
- Soft failures and decision history versions of the decision kernel, the decision logs and the ledger of the evidence
  kernel: easy members beside the rest, and the version numbers are not promised past the history cap.
- The global evidence chain: it is rebuilt in map order and verified in time order, so it is not promised after a rebuild.
- Which events of tiers 2 and 3 sampling under high load drops, and the refusal of unregistered sources and old schemas: the
  first is a function of id and tier in the configuration, the second happens before the modelled part of an ingest.
- How the decision graph's nodes and edges are kept up to date: they are inputs of the completeness check.
- A decision kernel without a run port: its approve calls end in the guard without a dispatch.
- Token ids: a token stands for the tuple it is hashed from, so truncation collisions are not modelled; nor are int64
  overflow of sequence numbers and NaN amounts.
- `ObligationPlan.BuildObligationPlan`: the final order of obligations and conflicts is left open, because the comparator
  is not a strict weak order for unknown phases.
- `ContractKernel.Store.PutSnapshot`: the time a snapshot was generated is not modelled.
- `EvidenceKernel.Kernel.RebuildDerivedIndexes`: maps are built by assignment to fields instead of update of shared records,
  so aliasing between copies of an event is not modelled.
