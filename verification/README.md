# A verified model of the universal agent runtime

The runtime plans work with an architect, asks humans to approve it, lets workers execute code on a remote backend,
judges the evidence and asks a human again before it calls a run completed. This project models the parts of it in
which mistakes would be hard to see, and proves what they keep. Everything is Dafny 4.11;
`dafny verify dfyconfig.toml` checks the whole project. Nothing here was executed against the runtime: the claims are
theorems about the model.

## How the model is laid out

* **Contracts, Ordering, Text, Wrappers** – states and transition table, the shared records, Python's `sorted` and
  string order, the string tests.
* **SessionStore, SessionManager, SessionOperations** – the session record, each manager operation as `Apply`, compare-and-swap saving,
  and any number of managers reading and writing one repository in any order. The classes perform the same operations
  on a mutable store.
* **Leases, LeaseRefinement, LeaseLifecycle, LeaseServices** – execution leases as an append-only log and as a table, and
  the life of one lease over every history of calls.
* **RemoteStore, RemoteAnswers** – the remote authority: its two-key store and any number of handler threads.
* **Execution, ExecutionInvariant, ExecutionSteps, ExecutionTheorems, ExecutionReplay, ExecutionProgress, ExecutionRecovery** – the two joined. A state holds the sessions, the
  lease table, the remote rows and the processes; a step is one SQL statement, one repository read or save, or one
  gateway call. Every step may fail before or after its effect, and a process may crash between any two steps.
* **Approvals, RestartTransparency, ApprovalAnswers, LateFailures, ApprovalEngine** – gates and decisions, and rebuilding the engine from sessions.
* **Authorization, AuthorizationTheorems, AuthorizationNeeds, AuthorizationHistories, AuthorizationService** – tool authorization, the
  orchestrator's loop over the workers of a batch, and the gateway's admission check.
* **Workflow, WorkflowSafety, WorkflowScripts, WorkflowTheorems, WorkflowTermination, WorkflowEffects, WorkflowCoverage,
  WorkflowStalls, WorkflowFinalStalls, WorkflowInterleaving, WorkflowFreshness, WorkflowExamples, WorkflowOverlap,
  WorkflowAttribution, WorkflowOverlapRuns, WorkflowOverlapLimits, WorkflowProgress, Coordinator, Orchestrator** –
  one run under its coordinator, orchestrator, revision and recovery services. Each command is the *script* of session
  operations that its code performs; a crash is a script of which only a prefix is carried out. `resume_recovery` is
  the commands `Recover`, `RecoverFailure`, `BeginSupervision`, `RequestRevision` and `Supervise` in the order its code
  takes them, and `execute_run` is `OpenToolGate`, `Pause`, `BeginSupervision` and `Supervise` with its results and worker
  outputs recorded by `Other`; the model also allows other orders. A script is carried out without other components in
  between, except in WorkflowInterleaving, where they act inside `record_supervisor_result`, and in WorkflowOverlap and
  the three modules after it, where any number of clients carry out any commands operation by operation on whatever the
  record has become. WorkflowFreshness, WorkflowExamples and WorkflowOverlapRuns hold the concrete runs. The classes of Coordinator and Orchestrator perform the
  scripts step by step.
* **Graph, Scheduler, SchedulerInput** and **Tools, ToolRegistry** – the level-by-level scheduler and the greedy capability resolver.
* **Supervisor, SupervisorEvidence** – the QA verdict and the evidence it lists.
* **JsonDocument, JsonCodec, JsonRoundTrip, JsonFormat, JsonRepository, JsonSoundness** – the JSON form of a session, with all its fields.

SessionOperations, LeaseLifecycle, RemoteAnswers, ExecutionProgress, ExecutionRecovery, ApprovalAnswers, AuthorizationNeeds,
SchedulerInput, SupervisorEvidence, WorkflowProgress, JsonFormat and JsonSoundness say what the operations answer and store in
terms of the fields and the calls alone, without the functions that the model computes with.

The model keeps only the parts of a metadata dictionary that some service reads back (`Note`, `GateContext`).
SHA-256 is an injective constructor, so two digests are equal when what they digest is equal.

## What turned out not to hold

* **A plan can be executed that nobody approved.** A decision is checked for being recorded, not for answering the newest
  gate, nor a gate of the right kind: any recorded APPROVE starts the plan on record (`AnyApprovalExecutes`). There is a
  run that executes a second plan on the approval of the first while the second plan's own gate is open
  (`ApprovalsNeedNotBeFresh`), and one that does so on the approval of a FINAL gate (`FinalApprovalStartsAPlan`). Also,
  `build_architecture` checks the state before it asks the architect and stores the plan afterwards without checking
  again: a second build that was asked meanwhile stores its plan in a run that already executes the approved one
  (`LateBuildReplacesThePlan`). The exact condition, however commands overlap and wherever processes stop: the newest
  ARCHITECTURE gate shows the plan on record exactly when the plan stored last is the plan of the gate opened last
  (`PlanOnRecordIsTheShownOne`), so a plan that is stored late keeps this exactly when that gate shows it
  (`PlanStaysShownExactly`). While it holds, the started plan is the one the approved gate showed exactly when that gate
  is the newest ARCHITECTURE gate or shows what that one shows; while it does not, an approval of the newest gate starts
  another plan (`OverlappingApproval`). The client that applies the approval can be slow itself: every EXECUTING run was
  started by a recorded APPROVE or by a resumption after an approved tool gate, and the condition is the one at the moment
  of the start (`StartedPlan`). A slow client that resumes after a tool gate starts even a plan whose gate nobody ever
  answered (`LateResumptionStartsAPlan`). When commands do not overlap, the newest gate shows the plan on record in
  every state after the architecture as long as no process stops between entering a waiting state and opening its gate
  (`EveryOrderlyRunIsCovered`, `ExecutedPlanIsTheApprovedOne`); a process that does stop there leaves a plan that no
  gate shows (`StoppedBuildLeavesAPlanUnshown`).
* **A run can complete on evidence nobody approved.** The decision is again only checked for being recorded, of a FINAL
  gate (`ApprovalsNeedNotBeFresh`), and evidence that is noted late replaces the evidence the gate shows
  (`LateNoteReplacesTheEvidence`). The exact condition, however commands overlap and wherever processes stop: a final result
  carries the evidence that was noted last when its client decided. If the newest FINAL gate showed that evidence at that
  moment, the client's gate shows it exactly when it was that gate or shows the same; if it did not, the newest gate shows
  other evidence (`CompletedEvidence`; `OverlappingCompletion` for a completion that nobody interrupts,
  `CompletionCoversTheNewestGate` when no commands overlap). The condition cannot be read off the record at the end: a run
  can complete on evidence that no gate shows although the newest evidence is the approved newest gate's
  (`ANoteHidesTheCompletedEvidence`).
* **A completed run need not carry the newest evidence.** `apply_final_decision` reads the hash and stores the result
  later; evidence noted in between is newer than the result (`NoteInterruptsACompletion`). The result is bound to the
  newest evidence exactly when the evidence noted last at the end is the one noted last when the client decided
  (`CompletedEvidence`); when commands do not overlap it always is (`CompletedMeansApproved`).
* **A run can complete with a failure on record when its FINAL gate was opened.** Results persisted while
  `record_supervisor_result` is between its snapshot and its gate are not judged (`MissedFailureIsReachable`). A failure is
  on record at the opening exactly when some call in between adds a result of this run that is not a success, under an
  execution id that neither the record nor an earlier call has (`ResultsAfterTheSnapshotAreNotJudged`). Without
  interleaving it cannot happen (`CompletedMeansApproved`).
* **A run can wait forever.** Each state that waits for a human can be left exactly under a condition on the record, and
  there are reachable runs that do not meet it:
  WAITING_ARCHITECT_APPROVAL when some gate of the run was approved or rejected, or is open and allows it
  (`WaitingEndsExactly`), so answering the first architecture gate with MODIFY, which it offers and the coordinator
  cannot apply, strands the run (`ModificationStalls`), and so does a process that stops in the first
  `build_architecture` between the transition and the gate (`FirstBuildCanStall`);
  WORKER_WAITING_HUMAN when a revision is left or an open tool gate of the configured backend can be approved
  (`PausingEndsExactly`), so a denial at the revision limit strands the run (`DenialStallsAReachableRun`);
  WAITING_FINAL_APPROVAL when a revision is left or some FINAL gate was rejected or approved, or is open and allows it
  (`FinalWaitEndsExactly`), so CLARIFY at the limit strands the run (`ClarificationStallsAReachableRun`).
  SUPERVISING with a failed result is left exactly when a revision is left, because the verdict is then always REVISE
  (`FailedSupervisionEndsExactly`, `FailureStallsAReachableRun`); such a run is never FAILED, only a rejection ends it
  (`OnlyRejectionEndsIt`).
* **The coordinator's revision limit does not bind recovery**, which asks a revision service of its own
  (`RecoveryPassesTheLimit`); when commands do not overlap, revisions and state changes are bounded by the larger of the
  two limits (`RevisionsAreNumbered`, `StateChangesAreBounded`).
* **Neither limit binds clients in processes of their own**: k of them that are slow between moving the run back and noting
  the revision leave k revisions, all numbered 1, and at least k state changes, for every k (`LimitsDoNotBindSlowClients`).
  What overlapping commands keep is that no number passes the larger limit or its position (`NumbersStayInRange`).
* **The approval engine cannot always be rebuilt.** After saves that committed and raised all the same, rebuilding succeeds
  exactly when no gate id occurs in two sessions (`RebuildAfterLateFailures`); two come to share one exactly when a
  request is stored under the id of another run's gate, which the engine did not learn of (`IdsStayApartExactly`,
  `NoIdIsReused`, `ALostRequestCanPreventRebuilding`).
* **The lease log and the lease table disagree on unknown runs**, and only there: they raise different errors, and the
  table can find nothing where the log raises (`LogRefinesTable`).
* **An idempotency key does not always identify its work.** Work shares its key with other work exactly when one of its
  fields, the code included, holds the separator U+001F; a separator in one of the first four fields always makes it share
  the key of work without one there, and among work without one there the key identifies (`KeyIsSharedExactly`,
  `KeyMaterialIsInjective`). A client can cause it: a language is only required not to be blank.
* **The order of the results can decide between FAIL and REVISE**: some reordering changes the verdict exactly when
  everything succeeded, the references are distinct, each worker's own result is there under the id it names, and under
  one of these ids there is also a result that is not the worker's own (`OrderDecidesExactly`,
  `AnswerDependsOnOrderExactly`, `TheSupervisorAnswersByOrder`). PASS never depends on order (`PassIgnoresOrder`). Session records list no id twice, so
  the verdict that `record_supervisor_result` recomputes does not depend on order either (`StoredVerdictIgnoresOrder`).
* **A JSON document is read back exactly when every gate in it is valid**, which writing does not check
  (`ReadingIsTheInverseOfWriting`, `AStoredSessionCanBeUnreadable`). The session manager validates gates, so only a caller
  that creates or saves a record itself can store such a document.
* **A rejected tool gate does not stop a worker whose network gate is approved**: the request that needs the network
  has a gate of its own, and that gate decides (`ReadyExactly`); there is a history in which the backend is then called
  (`RejectedToolRunsOverTheNetwork`).

## Model

| member | source | states |
|---|---|---|
| SessionStore.CompareAndSwapIsSerializable | app/session/repository.py:257-293 | For any number of managers and any interleaving of reads, saves and abandoned saves, each stored record is the serial application of its committed operations, its revision counts them, its messages, results and decisions are exactly the committed appends in order, and identifiers stay unique. |
| SessionStore.WriteIsAtomicOrRejected | app/session/repository.py:257-293 | A save either changes nothing or acts atomically on the record stored at that moment, whatever was read in between. |
| SessionStore.EveryRunIsSerialized | app/session/repository.py:243-293 | Serialization is kept by every step from any serialized system, and the log of commits of a run only grows. |
| SessionStore.NoCommittedAppendIsLost | app/session/manager.py:64-143 | After the committed operations of a run, messages, results and decisions are the appended ones: none lost, doubled or reordered. |
| SessionStore.SerialIsWellFormed | app/session/manager.py:99-205 | Execution ids, decisions per gate and gate ids stay unique in every stored record, and every entry belongs to the record's run. |
| SessionStore.ApplyKeepsWellFormed | app/session/manager.py:55-235 | One committed operation keeps that, only extends messages, results, decisions and artifacts, and never leaves a terminal state. |
| SessionStore.ReturnedResultIsStored | app/session/manager.py:116-143 | When add_execution_result returns, the result bound to the run is in the stored record, whoever put it there. |
| SessionManagers.SqliteSessionRepository.SaveRecord | app/session/repository.py:257-293 | Saves and bumps the revision exactly when the stored revision is the one the record carries; otherwise not-found or conflict, and nothing changes. |
| SessionManagers.SqliteSessionRepository.Create | app/session/repository.py:223-241 | Inserts a new session exactly when the run is unknown and touches no other. |
| SessionManagers.SessionManager.TransitionTo | app/session/manager.py:55-62 | Performs exactly the transition operation on the stored session or raises its error and changes nothing; which transitions there are is WorkflowProgress.TransitionsAreEntries. |
| SessionManagers.SessionManager.AddHumanDecision | app/session/manager.py:99-114 | Appends the decision, does nothing when it is already there, refuses another decision for the gate or another run. |
| SessionManagers.SessionManager.AddExecutionResult | app/session/manager.py:116-143 | Appends the result bound to the run, does nothing for an equal one, refuses a conflicting one. |
| SessionManagers.SessionManager.AddApprovalGate | app/session/manager.py:145-155 | Appends the gate unless its id is taken or it belongs to another run. |
| SessionManagers.SessionManager.ResolveApprovalGate | app/session/manager.py:157-187 | Replaces an open gate by the resolved one and appends its decision in one save, or changes nothing. |
| SessionManagers.SessionManager.CancelApprovalGate | app/session/manager.py:189-205 | Replaces an open gate by the cancelled one, or changes nothing. |
| SessionOperations.OperationIsExact | app/session/manager.py:55-235 | On every well-formed record each operation is refused exactly for its reason, and otherwise leaves exactly the stated record or found it there already: a transition only along the table, a decision, result or gate only under a new id or an equal entry, entries only of their own run. |
| SessionOperations.ReturnedCallIsStored | app/session/manager.py:55-235 | In every state of any number of managers, a call that returns has changed the record stored at that moment just so and its revision counts one more, or found it done and saved nothing. |
| Leases.KeyMaterialIsInjective | app/execution/lease.py:67-71 | Among work whose first four fields hold no separator, different work has different key material, whatever the code holds. |
| Leases.KeyIsSharedExactly | app/execution/lease.py:67-71 | Work shares its key material with other work exactly when one of its fields, the code included, holds a separator; with one in the first four fields it shares the material of work whose first four fields hold none. |
| Leases.SeparatorInAFieldCollides | app/execution/lease.py:67-71 | Two different units of work with the same key material whose languages and codes a client may send. |
| LeaseRefinement.LogRefinesTable | app/execution/lease.py:73-216 | Over every history of reserve, complete and get, the log form and the table form answer each call alike exactly when its run is known then, and stay related. |
| LeaseRefinement.LogServiceRefinesTableService | app/execution/lease.py:73-216 | The same over every history from an empty database and an empty session store. |
| LeaseRefinement.CallRefines | app/execution/lease.py:112-160 | The same for one call from related states. |
| LeaseRefinement.FoldListsTheTable | app/execution/reconciliation_batch.py:89-105 | Folding a run's audit log yields exactly the table's leases of that run, each once, ordered by worker, task and key. |
| LeaseRefinement.ListingIsUnique | app/execution/reconciliation_batch.py:89-105 | That list is determined by the rows alone, so the interleaving of different keys does not matter. |
| LeaseRefinement.ListingIsOrdered | app/execution/reconciliation_batch.py:89-105 | The listing goes up by worker, then task, then key, each in the order of their first differing character. |
| LeaseLifecycle.LeaseIsWhatWasCalled | app/execution/lease.py:73-210 | Over every history of calls, table and log hold under its key and its id exactly the lease that its first reservation asked for: running until the first completion of its id, and completed at that time from then on. |
| LeaseLifecycle.FirstReservations | app/execution/lease.py:73-160 | A reservation is incomplete exactly when an identifier is blank; before the run exists nothing is stored; the first one in an existing run is granted a running lease with its own fields. |
| LeaseLifecycle.LaterReservations | app/execution/lease.py:95-145 | Every later valid reservation of that run and key changes nothing in either form: it raises the already-active error until the lease was completed, and answers the completed lease afterwards. |
| LeaseLifecycle.OneRunningLease | app/execution/lease.py:95-145 | However often a key is reserved, at most one reservation of it is granted a running lease. |
| LeaseLifecycle.TableCompletes | app/execution/lease.py:169-210 | A completion that the table answers leaves the lease completed, with every other field but its time as it was, found under its key; no other row changes, and answering a completed one changes nothing. |
| LeaseLifecycle.LogCompletes | app/execution/lease.py:169-210 | The same for the log, whose scans find the completed lease under its key and its id. |
| LeaseLifecycle.CompletionIsAnsweredExactly | app/execution/lease.py:169-210 | A completion is answered exactly when a reservation of the run minted a lease with that id. |
| LeaseLifecycle.UnknownLeaseIsRefused | app/execution/lease.py:169-210 | A lease id that none minted is unknown to both forms, and nothing is stored. |
| LeaseLifecycle.LookingUp | app/execution/lease.py:212-216 | Asking for a key tells its lease as the calls made it, or that it has none. |
| LeaseServices.LogLeaseService.Reserve | app/execution/lease.py:73-110 | The log-backed service answers and appends exactly as the log specification does, whose answers are LeaseLifecycle's. |
| LeaseServices.LogLeaseService.Complete | app/execution/lease.py:169-210 | Likewise for completion; LogCompletes says that it completes the lease. |
| LeaseServices.LogLeaseService.FindLease | app/execution/lease.py:299-308 | The backward scan finds the newest lease message of the key. |
| LeaseServices.LogLeaseService.Latest | app/execution/reconciliation_batch.py:89-105 | The loop over the messages yields the sorted fold of the log. |
| LeaseServices.SqliteLeaseService.Reserve | app/execution/lease.py:112-160 | Inserts a row for a new key and audits it; if the audit cannot be stored the row is gone again; an existing row is returned when completed and refused while running, as LaterReservations says of every history. |
| LeaseServices.SqliteLeaseService.Complete | app/execution/lease.py:169-210 | Completes exactly the row with that run and lease id, once; TableCompletes says what that makes of it. |
| RemoteStore.ClassifyIgnoresRowOrder | app/execution/colab_service.py:89-122 | What reserve answers does not depend on the order in which the conflicting rows come back, and the "invalid record" answer is unreachable. |
| RemoteStore.PartialIdentityIsRefused | app/execution/colab_service.py:89-122 | One branch of the classification: a request that shares only part of a stored identity is a conflict. |
| RemoteStore.RemoteExecutesAtMostOnce | app/execution/colab_service.py:305-318 | Under every interleaving of handler threads and their deaths no execution id and no idempotency key is executed twice, and equal requests get equal replies. |
| RemoteStore.ExecutionStore.Reserve | app/execution/colab_service.py:89-122 | Inserts a row exactly for a request that shares no key with a stored one, and otherwise answers what the table says about the identical request. |
| RemoteStore.ExecutionStore.Complete | app/execution/colab_service.py:124-131 | Writes the result exactly when the row is still in progress. |
| RemoteStore.ExecutionStore.Get | app/execution/colab_service.py:133-147 | Returns a committed result only under both its keys. |
| RemoteAnswers.RequestIsAnsweredExactly | app/execution/colab_service.py:89-122 | A request is accepted exactly when no row has its execution id or key, told the result or to wait exactly by its own row, and conflicts otherwise. |
| RemoteAnswers.LookUpTellsTheStore | app/execution/colab_service.py:133-147 | In every reachable state a lookup finds exactly the result committed under both keys, mismatches exactly when the execution id belongs to another key, and is absent otherwise. |
| RemoteAnswers.AnsweredIsFound | app/execution/colab_service.py:133-147 | Every answered request finds its result under its keys from then on. |
| RemoteAnswers.HandlerAnswers | app/execution/colab_service.py:305-318 | A handler that nothing disturbs executes a new request once, stores and replies its result; it replies the stored result to a request that has one; to any other it replies none and changes nothing. |
| ExecutionTheorems.GatewayIsCalledAtMostOnce | app/workers/runtime.py:195-261 | Over every interleaving of workers, recoveries, other managers, remote threads, storage errors and crashes, the gateway is called at most once per run and idempotency key. |
| ExecutionTheorems.RemoteRunsAtMostOnce | app/execution/colab_service.py:305-318 | In the same joint runs the remote authority executes the code at most once per key and per execution id. |
| ExecutionTheorems.RemoteActsOnCalls | app/execution/colab_service.py:305-318 | Whatever the remote authority has run or stored carries the execution id, key, fingerprint and run of a work that some worker called the gateway for. |
| ExecutionTheorems.CompletedLeaseHasEvidence | app/execution/lease.py:169-210 | A completed lease has exactly one persisted result with its execution id in its run. |
| ExecutionTheorems.ReturnedResultIsTheEvidence | app/workers/runtime.py:234-261 | The "no persisted result" error is unreachable, and what a worker returns, freshly or by replay, is the one persisted result of its lease. |
| ExecutionReplay.ReturnedLeaseIsCompleted | app/workers/runtime.py:195-261 | Over every history the lease a worker returns under, by execution or replay, is in the table and completed, and the one persisted result with its execution id is what the worker returns. |
| ExecutionProgress.UndisturbedWorkerReturns | app/workers/runtime.py:195-261 | From any reachable state a worker with a free key and new ids that nothing disturbs calls the gateway once, stores the result it gets, whatever the remote threads do meanwhile, and returns it under its lease, which is then completed; both notes are in the session and no other row changes. |
| ExecutionProgress.NextWorkerReplays | app/workers/runtime.py:234-261 | From any reachable state a worker that asks for a completed key returns the one persisted result of that lease without calling the gateway or changing anything. |
| ExecutionProgress.BusyKeyIsRefused | app/execution/lease.py:136-145 | From any reachable state a worker that asks for a running key stops, and nothing changes. |
| ExecutionProgress.OneExecutionServesTwoWorkers | app/workers/runtime.py:195-261 | From nothing: a worker's code is executed remotely and its result returned; a second worker with the same key returns that result, on one gateway call and one remote execution. |
| ExecutionProgress.ReservingIsReserve | app/execution/lease.py:112-160 | The protocol's insert and the look at a taken key are the lease table's reserve: same table, and the worker goes on, replays or stops exactly as reserve grants, answers the completed lease or raises. |
| ExecutionProgress.UndoingIsAuditFailed | app/execution/lease.py:146-160 | Undoing a reservation whose audit failed leaves the table that reserve leaves when it raises that error. |
| ExecutionProgress.CompletingIsComplete | app/execution/lease.py:169-210 | The protocol's select and update are the lease table's complete: same table, same lease answered, same error. |
| ExecutionTheorems.StoredEvidenceIsAuthoritative | app/execution/reconciliation.py:88-146 | Evidence a recovery stores is what the remote store committed for that execution id and key, with only a missing run and worker filled in. |
| ExecutionTheorems.SuccessWasCommitted | app/execution/reconciliation.py:88-146 | Every persisted success was committed by the remote store. |
| ExecutionTheorems.ReconcilingTouchesNoLease | app/execution/reconciliation.py:88-146 | One kind of step: recovery writes no lease and makes no gateway call. |
| ExecutionTheorems.ConclusionIsStable | app/execution/reconciliation.py:55-86 | Once a recovery has concluded on evidence, every later inspection of the key, in any continuation, reaches the same conclusion from local evidence. |
| ExecutionRecovery.RecoveryConcludes | app/execution/reconciliation.py:55-146 | From any reachable state an undisturbed recovery of a key concludes: no lease exactly without a row; else on the session's result of the row's execution; else on the remote authority's committed result, which it stores filled with the row's run and worker; else that there is none. Rows, calls and remote store stay as they were. |
| ExecutionTheorems.EveryCallIsListed | app/execution/reconciliation_batch.py:89-105 | Every key the gateway was ever called for is in the fold of its run's audit log, crashes included. |
| RestartTransparency.RestartIsTransparent | app/approval/service.py:38-73 | After any calls, whichever of them the database refused before storing anything, rebuilding the engine never raises, gives the same gates, histories and per-run order, and the rebuilt engine answers and stores everything later as the lost one would have. |
| RestartTransparency.RestartCompletesALateFailure | app/approval/service.py:38-116 | After one save that committed and raised all the same, a restart before any further call completes the call: the rebuilt engine is the one the call would have left, and differs from the lost one exactly when the call would have changed it. |
| RestartTransparency.RebuildSucceedsExactly | app/approval/service.py:38-73 | From settled sessions rebuilding succeeds exactly when no gate id occurs in two of them and raises the duplicate-gate error otherwise; the rebuilt engine mirrors the sessions. |
| LateFailures.RebuildAfterLateFailures | app/approval/service.py:38-209 | The same after any calls of a live engine of which any fail before their save or after it. |
| LateFailures.IdsStayApartExactly | app/approval/service.py:75-116 | One call, late or not, makes two sessions share a gate id exactly when it requests a valid gate for a known run under an id that neither the engine nor that run's session knows but another run's gate has, and the database answers. |
| LateFailures.NoIdIsReused | app/approval/service.py:75-116 | An engine in step with its sessions never does so. |
| LateFailures.ALostRequestCanPreventRebuilding | app/approval/service.py:38-116 | A history in which a request fails late, its id is requested for another run, and rebuilding raises the duplicate-gate error. |
| RestartTransparency.EveryGateIsSettled | app/approval/service.py:147-209 | In every state a gate has exactly one decision if it is resolved and none otherwise. |
| RestartTransparency.SameStoreSameEngine | app/approval/service.py:38-209 | The sessions determine the engine up to how gates of different runs interleave. |
| RestartTransparency.CallKeepsMirrored | app/approval/service.py:75-209 | Every call keeps the engine's gates and histories equal to the stored ones. |
| RestartTransparency.ConfirmChangesNothing | app/runtime/service.py:145-145 | The coordinator's add_decision of a validated decision changes nothing, because the engine has stored it. |
| RestartTransparency.OpKeepsSettled | app/session/manager.py:145-205 | Each gate operation keeps, per record: gates valid, a decision exactly for resolved gates, a gate for every decision. |
| ApprovalAnswers.RequestIsExact | app/approval/service.py:75-116 | A gate is opened exactly when its run exists, its texts are not blank, it offers decisions, none twice, its id is new and the database answers; engine and session then hold it open without decisions, and otherwise nothing changes. |
| ApprovalAnswers.AnswerIsExact | app/approval/service.py:147-193 | A decision is accepted exactly for an open gate that offers it, by a named actor at some time, when the database answers; the gate is then resolved at that time and engine and session record run, decision, actor and feedback, trimmed; each refusal has its own exact condition and changes nothing. |
| ApprovalAnswers.CancellationIsExact | app/approval/service.py:195-209 | A cancellation is accepted exactly for an open gate when the database answers, and only that gate changes. |
| ApprovalAnswers.HydrationIsExact | app/approval/service.py:38-73 | From any sessions, whoever wrote them, rebuilding succeeds exactly when every gate is valid, of its session's run and has just the decisions its status needs, and no id occurs twice; the engine then holds all gates in stored order. |
| ApprovalEngines.HumanApprovalEngine.Rebuild | app/approval/service.py:38-73 | The nested loops restore exactly the gates and histories of the sessions, or stop at the first invalid one with its error. |
| ApprovalEngines.HumanApprovalEngine.RequestGate | app/approval/service.py:75-116 | Opens and stores a valid new gate, or changes neither the dictionaries nor the session. |
| ApprovalEngines.HumanApprovalEngine.ResolveGate | app/approval/service.py:147-193 | Resolves an open gate with an allowed decision, recording it in memory and in the session together, or changes neither. |
| ApprovalEngines.HumanApprovalEngine.CancelGate | app/approval/service.py:195-209 | Cancels an open gate in memory and in the session, or changes neither. |
| AuthorizationTheorems.EveryBackendCallIsApproved | app/orchestration/service.py:136-250 | For every state of the approval engine and every batch: a worker reaches the backend exactly when the configured backend is reachable and, if its tools are risky or its plan needs the network, the newest matching TOOL_RISK gate (run, worker, tool set, capabilities, backend, network flag) is approved; a recorded Gate A approval stands; a turned-down gate gives a denied result. Which tools are risky is NobodySkipsTheHuman. |
| AuthorizationNeeds.NobodySkipsTheHuman | app/orchestration/service.py:136-250 | After every history of approval calls and for every batch: when the gateway calls the backend for a worker of which some resolved tool is of high risk or requires approval, or that needs the network, the newest TOOL_RISK gate that asks for exactly those tools, of that run, worker, backend, network flag and capabilities, is resolved with a recorded APPROVE. |
| AuthorizationNeeds.GrantsWithoutAGateExactly | app/tools/authorization.py:82-162 | A valid request is granted without a gate exactly when no resolved tool is of high risk or requires approval and no network is needed; any other answer names a gate that asks for exactly those tools. |
| AuthorizationNeeds.RequestIsJudged | app/tools/authorization.py:82-106 | A request is invalid exactly when its run, worker, backend or one of the items it names is blank, and unresolvable exactly when a tool or capability it needs is missing; nothing changes then. |
| AuthorizationNeeds.VerdictIsForItsGate | app/tools/authorization.py:164-204 | A verdict is applied only to an open TOOL_RISK gate of its run, worker, backend and network scope that offers it, and the grant says just that. |
| AuthorizationNeeds.ForeignVerdictIsRefused | app/tools/authorization.py:164-204 | A gate of another kind, run, worker, backend or network scope refuses the verdict, and nothing changes. |
| AuthorizationNeeds.GatewayAnswersExactly | app/execution/service.py:66-180 | The backend is called exactly for an authorized grant of that run, worker (or any worker) and configured backend, with the network if needed, and a registered available backend; otherwise the answer is an error out of scope, DENIED or UNAVAILABLE, each exactly. |
| AuthorizationNeeds.BackendEndings | app/execution/service.py:100-146 | A timeout gives a TIMEOUT result and a raise an ERROR result; a returned result is passed on exactly when it is of the execution, the backend, and no other run or worker. |
| AuthorizationNeeds.TurnIsShown | app/orchestration/service.py:136-217 | A worker is passed over exactly when the session shows its success; a waiting or failed one is shown so afterwards. |
| AuthorizationNeeds.BatchKeepsOrder | app/orchestration/service.py:136-280 | The executable and the waiting workers of a batch keep the order of the batch, so the first waiting one pauses the run. |
| AuthorizationTheorems.GateAIsFoundExactly | app/orchestration/service.py:450-463 | Gate A is found exactly when some resolved ARCHITECTURE gate of the run has a recorded APPROVE. |
| AuthorizationTheorems.WorkerTurn | app/orchestration/service.py:141-217 | A worker becomes executable only with a grant that says what the newest matching gate says about what its plan needs, and with its tool gate decided. |
| AuthorizationTheorems.ReadyExactly | app/orchestration/service.py:141-217 | With valid requirements a worker becomes executable exactly when its risky tools' gate and its network gate, as needed, are decided either way; its grant then says what the network gate says. |
| AuthorizationHistories.RejectedToolRunsOverTheNetwork | app/orchestration/service.py:141-217 | A history in which the tool gate was rejected and the network gate approved: the worker is executable with an authorized grant and the gateway calls the backend. |
| AuthorizationTheorems.AdmissionIsExact | app/execution/service.py:66-101 | For a grant that says what its gate says, the gateway's branches admit exactly an authorized grant in scope and deny exactly a turned-down one. |
| AuthorizationTheorems.DeniedIsAResult | app/execution/service.py:102-180 | The gateway's results carry the request's ids, are DENIED for an unauthorized grant, and are successes only when the backend returned one. |
| AuthorizationTheorems.AuthorizeOpensOnePerKey | app/tools/authorization.py:107-162 | One request opens no second gate for the same worker, tools, capabilities, backend and network flag. |
| AuthorizationHistories.NoRequestHasTwoGates | app/tools/authorization.py:107-162 | After every history of requests, answers, cancellations, other gates and refused saves in which tool gates are opened by the authorization service, no request is matched by two gates. |
| AuthorizationTheorems.AnsweredRequestIsDecided | app/tools/authorization.py:164-204 | After the human answered the newest gate of a request, asking again opens nothing and grants or denies as the human said, with the very grant that resolving returned. |
| AuthorizationTheorems.AuthorizeKeeps | app/tools/authorization.py:107-162 | Asking for one worker leaves every other request's decided or open gate and every Gate A approval as it was. |
| AuthorizationServices.ToolAuthorizationService.RequestAuthorization | app/tools/authorization.py:82-162 | Resolves the requirements exactly and answers, opens or reuses a gate as specified; names no gate exactly when no resolved tool is of high risk or requires approval and no network is needed. |
| AuthorizationServices.ToolAuthorizationService.FindMatchingGate | app/tools/authorization.py:206-225 | The backward loop finds the newest gate that matches on every part of the key. |
| AuthorizationServices.ToolAuthorizationService.ResolveGate | app/tools/authorization.py:164-204 | Refuses a gate of another run, worker, kind, backend or network scope; otherwise records the decision and returns the grant. |
| AuthorizationServices.IntegratedOrchestrator.AuthorizeWorkers | app/orchestration/service.py:141-217 | The loop over a batch produces exactly the executable and pending workers of the specification, in order, noting waiting and failed workers in the session, and aborts where the source raises. |
| WorkflowTheorems.CompletedMeansApproved | app/runtime/service.py:166-272 | When commands do not overlap, in every reachable state, wherever processes stopped, COMPLETED implies a resolved FINAL gate with APPROVE as its single decision, a final result bound to the newest recorded PASS evidence, and that the supervisor passes on the record that gate was opened on, so every result it held succeeded; CompletedEvidence says what holds when they overlap. |
| WorkflowTheorems.FailureRulesOutCompletion | app/runtime/service.py:166-223 | Once a failing result is persisted and the run is not already waiting for its final approval, no FINAL gate is opened and the run never completes, whatever commands follow one another later; AFailureIsMissed is what happens when they overlap. |
| WorkflowTheorems.OnlyRejectionEndsIt | app/runtime/service.py:304-335 | Such a run reaches neither COMPLETED nor FAILED, so only a rejection ends it. |
| WorkflowTheorems.StoredVerdictIgnoresOrder | app/runtime/service.py:181-195 | On every reachable record the recomputed verdict is the same for every order in which outputs and results are handed over. |
| WorkflowTheorems.TerminalIsForever | app/core/states.py:71-74 | A terminal state absorbs every later command. |
| WorkflowProgress.TransitionsAreEntries | app/core/states.py:31-74 | The transition table told from its targets: which states each state is entered from; FAILED from every state but the terminal ones, which lead nowhere. |
| WorkflowProgress.EveryCommandGoesThrough | app/runtime/service.py:79-336 | From every reachable record, wherever processes stopped before, every command with new gate ids is carried out to its last operation, none refused, and ends in the state its code names for what it read. |
| WorkflowProgress.FailedVerdictFailsTheRun | app/orchestration/service.py:306-320 | Over every reachable run in SUPERVISING: the verdict FAIL leads to FAILED, PASS to WAITING_FINAL_APPROVAL, REVISE back to the architect exactly while a revision is left. |
| WorkflowProgress.BuildAsksForThePlan | app/runtime/service.py:81-134 | A build stores its plan and adds one open ARCHITECTURE gate that shows it and offers all four decisions. |
| WorkflowProgress.PassAsksForTheEvidence | app/runtime/service.py:166-223 | A passing supervision notes its evidence and adds one open FINAL gate that shows its hash and offers all four decisions. |
| WorkflowProgress.VerdictIsNoted | app/orchestration/service.py:303-309 | A supervision that notes its verdict notes first the one it then acts on. |
| WorkflowProgress.ToolGateIsAskedOnce | app/tools/authorization.py:107-162 | During a run a tool gate is opened exactly when none matches the worker's request, and names worker, tools, capabilities, backend and network flag. |
| WorkflowProgress.RecoveryLeavesANote | app/recovery/resume.py:55-195 | Recovery takes a run out of REVISION, notes itself on every run that is under way and leaves any other as it is. |
| WorkflowTheorems.RevisionsAreNumbered | app/revision/service.py:43-121 | When commands do not overlap, the revisions on record are numbered 1 to n without a gap and n never exceeds the larger of the coordinator's and recovery's limits, crashes included. |
| WorkflowTheorems.ModifiedArchitectureStays | app/runtime/service.py:150-159 | Applying MODIFY or CLARIFY to an architecture gate leaves the run as it is, wherever the process stops. |
| WorkflowScripts.EveryRunKeepsInv | app/runtime/service.py:79-336 | The invariant behind these results holds after every prefix of every script of every run. |
| WorkflowTermination.StateChangesAreBounded | app/orchestration/service.py:102-383 | With a fixed registry, plans of at most W workers, commands that neither crash nor overlap and R the larger of the coordinator's and recovery's revision limits, a run changes its state at most (4W + 8)(R + 1) times, however many commands are given. |
| WorkflowTermination.CommandPays | app/revision/service.py:43-99 | Each command's state changes are paid for by the drop of a measure of revisions left, open and unopened tool gates and the state. |
| WorkflowFreshness.ApprovalsNeedNotBeFresh | app/runtime/service.py:136-165 | A run that executes a plan whose gate is open and completes on evidence no approved gate showed; when this happens is exact in WorkflowCoverage. |
| WorkflowFreshness.FinalApprovalStartsAPlan | app/runtime/service.py:136-147 | A run in which the recorded approval of a FINAL gate starts a plan whose own ARCHITECTURE gate is open. |
| WorkflowFreshness.ModificationStalls | app/runtime/service.py:136-164 | A run whose first architecture gate is answered MODIFY: applying the decision changes nothing and no later commands or crashes take it out of WAITING_ARCHITECT_APPROVAL. |
| WorkflowCoverage.EveryOrderlyRunIsCovered | app/runtime/service.py:122-223 | When commands do not overlap, after any whose new gates have fresh ids, stopped anywhere but between a transition and its gate: the newest ARCHITECTURE gate shows the plan on record in every state after the architecture, and the newest FINAL gate shows the newest evidence in WAITING_FINAL_APPROVAL. |
| WorkflowCoverage.AnyApprovalExecutes | app/runtime/service.py:136-147 | In WAITING_ARCHITECT_APPROVAL an APPROVE starts the plan on record exactly when it is recorded, whatever kind of gate it answered. |
| WorkflowCoverage.ExecutedPlanIsTheApprovedOne | app/runtime/service.py:136-147 | In every such run, which no build overtakes, the plan a recorded APPROVE starts is the one its gate showed exactly when that gate is the newest ARCHITECTURE gate or shows what that gate shows. |
| WorkflowCoverage.CompletionCoversExactly | app/runtime/service.py:225-272 | In every state with the invariant, crashes included, the final evidence is what the approved gate showed exactly when that gate's hash is the newest recorded one. |
| WorkflowCoverage.CompletionCoversTheNewestGate | app/runtime/service.py:225-272 | In every such run, in which no evidence is noted late, the final evidence is what the approved gate showed exactly when that gate is the newest FINAL gate or shows what that gate shows. |
| WorkflowCoverage.StoppedBuildLeavesAPlanUnshown | app/runtime/service.py:122-134 | A process that stops between the transition and the gate leaves WAITING_ARCHITECT_APPROVAL with a plan that no gate shows, which any recorded APPROVE then starts. |
| WorkflowOverlap.TheLogDecides | app/runtime/service.py:81-223 | With any clients carrying out any commands operation by operation, interleaved anyhow and stopped anywhere: the plan on record is the one stored last, each kind's newest gate the one opened last, and the newest evidence the one noted last. |
| WorkflowOverlap.PlanStaysShownExactly | app/runtime/service.py:122-134 | One operation keeps the newest ARCHITECTURE gate showing the plan on record; a late plan does exactly when that gate shows it, a late gate exactly when it shows the plan on record. |
| WorkflowOverlap.PlanOnRecordIsTheShownOne | app/runtime/service.py:122-147 | In every state of every such run the newest ARCHITECTURE gate shows the plan on record exactly when the last stored plan is the last opened gate's, and then a gate shows it exactly when it shows what the newest one does. |
| WorkflowOverlap.OverlappingApproval | app/runtime/service.py:136-147 | In every such run a recorded APPROVE whose application nobody interrupts starts the plan stored last; unless overtaken it is the approved gate's exactly when that gate is the newest ARCHITECTURE gate or shows the same, and when overtaken an approval of the newest gate starts another plan. |
| WorkflowOverlap.OverlappingCompletion | app/runtime/service.py:225-272 | In every such run a completion that nobody interrupts carries the evidence noted last, with the same exact condition for the newest FINAL gate; CompletedEvidence covers the interrupted ones. |
| WorkflowAttribution.CompletedEvidence | app/runtime/service.py:225-272 | In every state of every such run a final result, which every COMPLETED run has, carries the evidence noted last when the client that stored it decided on a recorded APPROVE of a FINAL gate. Unless overtaken then, it is what that gate shows exactly when the gate was the newest FINAL gate then or shows the same; when overtaken, the newest gate shows other evidence. It is bound to the newest evidence exactly when the evidence noted last is still the same. |
| WorkflowAttribution.StartedPlan | app/runtime/service.py:136-147 | In every such run EXECUTING was last entered on a recorded APPROVE or by a resumption after a tool gate that was approved, however late; the former started the plan stored last by then, with the same exact condition for the newest ARCHITECTURE gate at that point. |
| WorkflowOverlapRuns.LateBuildReplacesThePlan | app/runtime/service.py:81-134 | A run in which a second build stores its plan while the approved one is executed and raises afterwards: nobody stopped, the approved gate is the newest, and no gate shows the executed plan. |
| WorkflowOverlapRuns.LateNoteReplacesTheEvidence | app/runtime/service.py:166-272 | A run that completes, under the newest FINAL gate, on evidence that was noted after that gate was approved and that no gate shows. |
| WorkflowOverlapRuns.NoteInterruptsACompletion | app/runtime/service.py:239-260 | A run in which other evidence is noted between the completing client's read of the hash and its result: it is COMPLETED and not bound to the newest evidence. |
| WorkflowOverlapRuns.ANoteHidesTheCompletedEvidence | app/runtime/service.py:239-260 | A run that completes on evidence no gate shows, while at the end the evidence noted last is what the newest FINAL gate, the approved one, shows. |
| WorkflowOverlapRuns.LateResumptionStartsAPlan | app/orchestration/service.py:351-383 | A run in which a slow resumption after an approved tool gate starts a plan whose own gate is open and was never decided; nobody stopped. |
| WorkflowOverlapLimits.NumbersStayInRange | app/revision/service.py:43-99 | In every such run each revision's number is at least 1 and at most the larger limit and its position in the record. |
| WorkflowOverlapLimits.LimitsDoNotBindSlowClients | app/revision/service.py:62-98 | For every k a run in which k slow clients leave k revisions, all numbered 1, whatever the limits, and at least k state changes; nobody stopped. |
| WorkflowStalls.WaitingEndsExactly | app/recovery/resume.py:87-99 | WAITING_ARCHITECT_APPROVAL can be left, by any commands stopped anywhere, exactly when some gate of the run was approved or rejected, or is open and allows it. |
| WorkflowStalls.StoppedFirstBuildStalls | app/runtime/service.py:122-134 | After a process stopped in the first build between the transition and the gate, the run stays in WAITING_ARCHITECT_APPROVAL whatever happens. |
| WorkflowStalls.PausingEndsExactly | app/orchestration/service.py:329-383 | WORKER_WAITING_HUMAN can be left exactly when a revision is left or an open tool gate of the configured backend allows APPROVE. |
| WorkflowStalls.DenialAtTheLimitStalls | app/orchestration/service.py:374-381 | At the revision limit, denying the only approvable tool gate leaves the run in WORKER_WAITING_HUMAN forever; DenialStallsAReachableRun shows such a run. |
| WorkflowFinalStalls.FinalWaitEndsExactly | app/runtime/service.py:225-272 | WAITING_FINAL_APPROVAL can be left exactly when a revision is left or some FINAL gate was rejected or approved, or is open and allows it; an approval counts only with evidence on record. |
| WorkflowFinalStalls.FailedSupervisionEndsExactly | app/orchestration/service.py:291-320 | With a failure on record SUPERVISING can be left exactly when a revision is left. |
| WorkflowExamples.FirstBuildCanStall | app/runtime/service.py:122-134 | From nothing: the first build stops between the transition and the gate, and the run waits forever. |
| WorkflowExamples.DenialStallsAReachableRun | app/orchestration/service.py:374-381 | A reachable run that has used its only revision; its open tool gate is denied and it is paused forever. |
| WorkflowExamples.ClarificationStallsAReachableRun | app/runtime/service.py:225-272 | A reachable run that has used its only revision; its FINAL gate is answered with CLARIFY and it waits forever. |
| WorkflowExamples.FailureStallsAReachableRun | app/orchestration/service.py:291-320 | A reachable run that has used its only revision and holds a failed result is supervised forever. |
| WorkflowExamples.RecoveryPassesTheLimit | app/recovery/resume.py:130-150 | A reachable run at the coordinator's limit that recovery revises once more. |
| WorkflowInterleaving.ResultsAfterTheSnapshotAreNotJudged | app/runtime/service.py:181-223 | With other components' calls anywhere between the snapshot and the gate, the gate opens and its approval completes the run; a failure is on record at the opening exactly when some call adds a result of this run that is not a success, under an execution id that neither the record nor an earlier call has. |
| WorkflowInterleaving.FailuresAreTheCalls | app/session/manager.py:116-143 | After any calls of other components all results on record are successes exactly when they were and no call persists a failure. |
| WorkflowInterleaving.AFailureIsMissed | app/runtime/service.py:181-223 | One failure persisted right after the snapshot: the run completes and the record its gate was opened on holds the failure; MissedFailureIsReachable shows such a run. |
| WorkflowExamples.MissedFailureIsReachable | app/runtime/service.py:181-223 | A reachable run in which this happens. |
| Coordinators.RevisionService.RequestRevision | app/revision/service.py:27-99 | Performs exactly the revision script on the stored session, succeeding exactly when the state and the limit allow it, with the next attempt number. |
| Coordinators.RevisionService.ListRevisions | app/revision/service.py:101-121 | The loop over the messages yields the recorded attempts in order. |
| Coordinators.RuntimeCoordinator.BuildArchitecture | app/runtime/service.py:122-134 | Stores the plan, moves the run to its approval state and opens its ARCHITECTURE gate, exactly as the script does; returns without an error exactly from ARCHITECTING with a valid gate; engine and sessions stay in step. |
| Orchestrators.RunOrchestrator.ResumeAfterToolGate | app/orchestration/service.py:329-383 | Up to the `execute_run` it then calls: resolves the gate, notes the worker and either returns to EXECUTING or records a revision, exactly as the script does; the run is resumed exactly for an APPROVE by a named actor of an open gate of that run, worker and backend from WORKER_WAITING_HUMAN; anything that does not belong changes nothing. |
| Coordinators.RuntimeCoordinator.ApplyArchitectureDecision | app/runtime/service.py:136-164 | Performs exactly the decision's script; returns without an error exactly for a recorded APPROVE or REJECT in WAITING_ARCHITECT_APPROVAL, and then the run is EXECUTING or REJECTED; engine and sessions stay in step. |
| Coordinators.RuntimeCoordinator.ApplyFinalDecision | app/runtime/service.py:225-272 | Performs exactly the decision's script on the stored session; returns without an error exactly for a recorded decision of a FINAL gate in WAITING_FINAL_APPROVAL that rejects, approves with bound evidence or asks for a revision that is left; engine and sessions stay in step. |
| Coordinators.RuntimeCoordinator.RecordSupervisorResult | app/runtime/service.py:166-223 | Records the evidence and opens the FINAL gate exactly when the given PASS equals the independently recomputed one in SUPERVISING, and reports whether the gate was valid; otherwise changes nothing. |
| Coordinators.RuntimeCoordinator.RecordedSupervisorHash | app/runtime/service.py:366-381 | The backward loop returns the newest PASS evidence hash of the run, or raises when it does not match its payload. |
| Coordinators.RecordedInBoth | app/runtime/service.py:383-396 | A decision is recorded in the approval engine exactly when it is recorded in the session. |
| Scheduler.PlanBatches | app/workers/service.py:46-118 | Reports the first input error, in the order no workers, too many, a worker of another run, unknown dependencies, an invalid task, a task of an unknown worker; otherwise raises the cycle error exactly for a cyclic dependency graph and returns the levels of an acyclic one. |
| SchedulerInput.InputErrorsAreExact | app/workers/service.py:46-78 | Told from the lists: each input error is raised exactly when its condition holds and none before it does, counting the last worker of an id and more ids than allowed; of the tasks the first that is incomplete or names no worker decides. |
| Scheduler.TasksKeepTheirOrder | app/workers/service.py:107-117 | The tasks of a worker are dispatched in the order in which they were given. |
| Scheduler.BatchesAreLevels | app/workers/service.py:79-117 | A worker is in batch i exactly when its longest dependency chain has i edges, repeated entries included. |
| Scheduler.NoScheduleIsShorter | app/workers/service.py:79-117 | No schedule that respects the dependencies has fewer batches. |
| Scheduler.NothingIsLostOrRepeated | app/workers/service.py:107-117 | Every worker is in exactly one batch and every task is dispatched exactly once. |
| Scheduler.BuildDependents | app/workers/service.py:79-83 | The dependents lists hold each worker once per entry in its dependency list. |
| Tools.GreedyBound | app/tools/service.py:114-126 | If k candidates cover the n missing capabilities, at most k times the n-th harmonic number of tools is added. |
| Tools.BestTakesItsShare | app/tools/service.py:114-126 | Each iteration with r capabilities missing covers at least r / k of them. |
| Tools.EveryPickHelps | app/tools/service.py:114-126 | Added tools are candidates, never repeated, and each covers something no earlier one covered. |
| Tools.LeftIsUnprovidable | app/tools/service.py:114-126 | What the greedy loop leaves uncovered is exactly what no candidate provides. |
| Tools.EachPickIsTheLargest | app/tools/service.py:114-126 | Each added tool covers the most of what the earlier ones left, of all candidates not added yet, and among equals it has the greatest id. |
| Tools.RegisteredToolsAreSound | app/tools/service.py:50-58 | A registered tool of high risk requires approval, sits at its own id and provides registered capabilities, each named once. |
| ToolRegistries.ResolutionIsExact | app/tools/service.py:96-135 | A resolution is valid exactly when every requested tool is usable and every requested capability is provided by a usable tool. |
| ToolRegistries.ResolvedAreDistinct | app/tools/service.py:96-135 | Resolved tools are registered under their own ids, usable and never repeated. |
| ToolRegistries.ResolutionIsTold | app/tools/service.py:96-135 | The whole answer told from registry and request: requested items once each; missing tools are exactly the requested ones that are absent or unavailable; missing capabilities exactly the requested ones that are unknown or that no resolved tool provides; resolved are the requested tools that can serve and, only if every requested capability is known, others that provide one; all in order. |
| ToolRegistries.AddedToolsAreFew | app/tools/service.py:104-126 | The bound on added tools for a whole resolution, counting the capabilities the explicit tools leave open. |
| ToolRegistries.ToolRegistry.ValidateRequirements | app/tools/service.py:96-135 | The method computes exactly that resolution on every registry a history of registrations can reach. |
| ToolRegistries.ToolRegistry.RegisterTool | app/tools/service.py:50-58 | Registers a valid new tool whose capabilities are registered, keeping the registry invariant; otherwise the error and no change. |
| ToolRegistries.ToolRegistry.UnregisterCapability | app/tools/service.py:30-37 | Removes a capability exactly when no tool requires it. |
| Supervisor.VerdictIsExact | app/supervisor/service.py:24-188 | PASS exactly when criteria and outputs are given, worker and execution ids are distinct, all results are successes of this run, all workers succeeded and the references are an injection onto results those workers own; FAIL exactly when no worker or result is at fault, references judged by the first result with their id, but the evidence is inconsistent. |
| Supervisor.PassIgnoresOrder | app/supervisor/service.py:24-188 | PASS is invariant under reordering outputs and results. |
| Supervisor.VerdictIgnoresOrder | app/supervisor/service.py:24-188 | No verdict depends on order when no execution id is listed twice. |
| Supervisor.OrderDecidesExactly | app/supervisor/service.py:95-119 | Some reordering of outputs and results changes the verdict exactly when everything succeeded, references are distinct, every worker's own result of the run is there under the id it names, and under such an id there is also a result that is not its worker's own; FAIL and REVISE are then both reached. |
| Supervisor.AnswerDependsOnOrderExactly | app/supervisor/service.py:24-188 | On valid evidence evaluate answers every order, and some order gets another status exactly then. |
| Supervisor.TheSupervisorAnswersByOrder | app/supervisor/service.py:110-119 | Valid evidence that evaluate answers with FAIL in one order and with REVISE in the other. |
| Supervisor.OrderDecidesBetweenFailAndRevise | app/supervisor/service.py:110-116 | One shape of such evidence: two results under one id, one of them the worker's own. |
| Supervisor.EvaluateEvidence | app/supervisor/service.py:24-188 | The method with its loops computes the verdict, every blocking issue in order and the evidence, which EvidenceIsExact and BlockingIsComplete tell from the outputs and results. |
| SupervisorEvidence.EvidenceIsExact | app/supervisor/service.py:24-188 | Told position by position from outputs and results: an output without an execution that some result has is missing evidence; one that repeats an earlier successful output's execution, or whose first result is of another run or not a success, is mismatched; one whose first result is good and another worker's is unattributed; likewise failed workers, results of other runs, failed results and repeated ids. Each list is sorted and complete, and evidence is judged exactly when it is valid. |
| SupervisorEvidence.BlockingIsComplete | app/supervisor/service.py:40-140 | Each blocking issue is there exactly when its list is not empty, and carries that list; the shared-evidence issues name exactly the executions named again. |
| SupervisorEvidence.BlockingIsInOrder | app/supervisor/service.py:40-140 | The issues come in the order of the checks, one of each kind but for shared evidence. |
| SupervisorEvidence.SuccessIsOneOfThreeWords | app/supervisor/service.py:70-99 | A worker succeeded exactly when its status is success, completed or ok, in whatever case. |
| Supervisor.NothingRepeated | app/supervisor/service.py:48-66 | The list of repeated ids is empty exactly when the ids are distinct. |
| JsonRoundTrip.ReadingIsTheInverseOfWriting | app/session/json_repository.py:100-201 | A sound record is written, and what was written is read back, field for field with the revision reset to 0, exactly when every gate in it is valid. |
| JsonRoundTrip.AnInvalidGateIsWrittenUnread | app/session/json_repository.py:100-201 | Adding an invalid gate to any sound record gives a record that is written and cannot be read back. |
| JsonRoundTrip.AStoredSessionCanBeUnreadable | app/session/json_repository.py:100-201 | A new session with a gate that allows no decision is written and cannot be read back. |
| JsonRoundTrip.OtherRunsAreRefused | app/session/json_repository.py:151-152 | One branch of reading: a document is refused under another run's name. |
| JsonRoundTrip.DocumentsAreInjective | app/session/json_repository.py:102-102 | Records with the same document differ at most in their revisions. |
| JsonRoundTrip.GateRoundTrip | app/session/json_repository.py:214-233 | A gate is read back exactly when it is valid. |
| JsonRoundTrip.PlanRoundTrip | app/session/json_repository.py:236-257 | A plan is read back field for field. |
| JsonFormat.DocumentIsReadExactly | app/session/json_repository.py:131-270 | A document is read as a record exactly when its schema version is 1 or 2 and it says that record under the literal keys of the format, each required key present and each absent one standing for its default, and the record is sound, its gates valid, and of the expected run. |
| JsonFormat.WrittenDocument | app/session/json_repository.py:100-129 | What is written has schema version 2, carries the revision and says its record under those keys exactly when every gate is valid. |
| JsonSoundness.WrittenExactly | app/session/json_repository.py:100-129 | Told from the fields: a record is written exactly when its run is named, every entry is of that run and complete, its plan has one to four workers that depend only on each other, and its evidence hash is 64 hexadecimal digits or absent. |
| JsonSoundness.NamesOfFiles | app/session/json_repository.py:95-98 | A run has a file exactly when its name is not blank and holds no slash, backslash, line break or zero. |
| JsonRepositories.JsonFileSessionRepository.Get | app/session/json_repository.py:50-61 | Returns the record last written for the run with its revision reset, or reports it corrupt when one of its gates is invalid. |
| JsonRepositories.JsonFileSessionRepository.Save | app/session/json_repository.py:63-69 | Replaces the document of a known run by the new record's, or changes nothing. |

## Left out

- HTTP serving and clients, subprocesses, Docker, artifact files: an execution is an arbitrary result bound to its request, and a message to the remote authority may arrive any number of times or never.
- LLM and CrewAI adapters, intake, identity, configuration, logging, user interface: plans and worker plans arrive as arbitrary values; the intake's messages are not part of a run's script.
- app/execution/policy.py: it depends on Python's `ast` library.
- HMAC proofs of grants: a grant minted by the services is taken to verify, so the "proof is invalid" errors do not occur in the model.
- SQLite, pickle, JSON text syntax, file replacement: statements are atomic, unique constraints hold, codecs are inverse.
- Session deletion: re-creating a deleted run would reset its revision counter.
- The in-memory repository: it hands out the stored object itself, which compare-and-swap does not protect.
- Contract validation of fields that no modelled branch reads; each modelled check is named in the contract that uses it. The manager's own `validate()` calls are made by its modelled callers.
- Execution: the runtime is configured with the remote backend "colab"; a local result is never a success, so local Docker successes are not modelled. The reconciliation answer BACKEND_UNAVAILABLE, a branch without effect, is not modelled either.
- Run-wide reconciliation's `pending` and `terminal` views: filters over the per-key inspections.
- Liveness of human decisions, wall-clock times, thread-pool timing.
- SessionManagers.SessionManager.Add: appends the message without the checks that role and content are not blank.
- Supervisor.EvaluateEvidence: summaries, score, recommended action and the wording of issues are derived from the status and are left out; statuses are lower-cased for ASCII letters only, and an execution id that is not a string counts as missing.
- RestartTransparency.RestartIsTransparent: a refused save has stored nothing; LateFailures treats saves that commit and raise, and says of the live engine until its restart only that its sessions stay settled. Identifiers and times that the engine would generate come with the calls; deep copies are not modelled because gates are values.
- RestartTransparency.RestartCompletesALateFailure: covers one late failure followed by a restart; LateFailures covers any number with calls in between.
- Orchestrators.RunOrchestrator.ResumeAfterToolGate: ends where the code calls `execute_run` again, which is the commands OpenToolGate, Pause, BeginSupervision and Supervise.
- Authorization.AuthorizeBatch: the store is taken to answer during one batch; a worker is resolved against a registry that does not change within it.
- WorkflowTermination.StateChangesAreBounded: a crash inside `request_revision` moves the run back without recording a revision, and so, for a while, does a slow client; the bound is for commands that neither crash nor overlap.
- Workflow.Script: a command's operations are contiguous except in WorkflowInterleaving, WorkflowOverlap and the modules after it; failures and waiting are stated for commands that do not overlap. All that a command reads, such as the state, the decision and then the hash, it reads in one step. Clients are processes of their own, so the lock that one revision service holds is not modelled. The end of `execute_run` and recovery's `resume` are scripts on values and have no method of their own.
- WorkerRuntimeAdapter._execute_one and `reconcile_backend`: modelled as steps of a transition system, not as methods, because their interleaving is the point.
- Coordinators.RuntimeCoordinator.RecordSupervisorResult: the new gate's id is taken to be fresh, as `uuid4` makes it.
- JsonCodec.Read: a document whose lists are given as strings or whose dictionaries are given as pairs is refused, where Python's constructors would convert it; `int(hash, 16)` is modelled as hexadecimal digits only; floating-point numbers do not occur.
- Leases.KeyMaterial: the SHA-256 of the material is identified with the material.
