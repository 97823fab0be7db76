/**
 The contracts shared by every component: workflow states, execution evidence,
 human gates, leases and the session record that one run owns.
 */
module Contracts {
  import opened Wrappers

  // ----- app/core/states.py -----

  datatype WorkflowState =
    | Idle | Intake | Architecting | WaitingArchitectApproval | Executing | WorkerWaitingHuman
    | Supervising | WaitingFinalApproval | Revision | Completed | Rejected | Failed

  function AllowedTargets(s: WorkflowState): set<WorkflowState> {
    match s
    case Idle => {Intake, Failed}
    case Intake => {Architecting, Failed}
    case Architecting => {WaitingArchitectApproval, Failed}
    case WaitingArchitectApproval => {Architecting, Executing, Rejected, Failed}
    case Executing => {Executing, WorkerWaitingHuman, Supervising, Failed}
    case WorkerWaitingHuman => {Executing, Revision, Failed}
    case Supervising => {WaitingFinalApproval, Revision, Failed}
    case WaitingFinalApproval => {Revision, Completed, Rejected, Failed}
    case Revision => {Architecting, Executing, Supervising, Failed}
    case Completed => {}
    case Rejected => {}
    case Failed => {}
  }

  predicate Terminal(s: WorkflowState) { s in {Completed, Rejected, Failed} }

  // ----- app/core/contracts.py -----

  datatype ExecutionStatus = Success | Error | Timeout | Denied | Unavailable

  datatype ExecutionResult = ExecutionResult(
    executionId: string,
    status: ExecutionStatus,
    output: string,
    backend: string,
    runId: Option<string>,
    workerId: Option<string>)

  datatype DecisionType = Approve | Modify | Reject | Clarify

  datatype HumanDecision = HumanDecision(
    gateId: string, runId: string, decision: DecisionType, feedback: string, timestamp: string, actor: string)

  datatype WorkerSpec = WorkerSpec(workerId: string, requiredTools: seq<string>, dependencies: seq<string>)

  datatype ArchitecturePlan = ArchitecturePlan(
    objective: string, acceptanceCriteria: seq<string>, requiredCapabilities: seq<string>, workers: seq<WorkerSpec>)

  // A SHA-256 digest, modelled as an injective constructor over what it digests.
  datatype Digest = Sha256(payload: QaResult)

  datatype FinalResult = FinalResult(runId: string, summary: string, evidenceHash: Option<Digest>)

  // ----- app/approval/models.py -----

  datatype GateStatus = Open | Resolved | Cancelled

  // The part of a gate's context dictionary that some service reads back.
  datatype GateContext =
    | NoContext
    | PlanContext(plan: ArchitecturePlan)
    | QaContext(evidenceHash: Digest)
    | ToolContext(workerId: string, tools: seq<string>, capabilities: seq<string>, backendId: string, needsNetwork: bool)

  datatype ApprovalGate = ApprovalGate(
    gateId: string, runId: string, kind: string, title: string, prompt: string, context: GateContext,
    allowed: seq<DecisionType>, status: GateStatus, createdAt: string, resolvedAt: Option<string>)

  // ----- app/supervisor/models.py -----

  datatype QaStatus = Pass | Revise | Fail

  datatype QaResult = QaResult(
    runId: string, status: QaStatus, blocking: seq<QaIssue>, findings: nat, evidence: QaEvidence)

  // One constructor per blocking message of the supervisor.
  datatype QaIssue =
    | CrossRunEvidence(executionIds: seq<string>)
    | DuplicateExecutions(executionIds: seq<string>)
    | DuplicateWorkers
    | NoWorkerOutputs
    | WorkersNotSuccessful(workerIds: seq<string>)
    | ExecutionsNotSuccessful(count: nat)
    | SharedEvidence(executionId: string)
    | MissingEvidence(workerIds: seq<string>)
    | MismatchedEvidence(workerIds: seq<string>)
    | UnattributedEvidence(workerIds: seq<string>)

  datatype QaEvidence = QaEvidence(
    workers: nat, executions: nat, criteria: nat,
    failedWorkers: seq<string>, failedExecutions: nat,
    crossRun: seq<string>, duplicates: seq<string>,
    missing: seq<string>, mismatched: seq<string>, unattributed: seq<string>)

  // ----- app/execution/lease.py -----

  datatype LeaseStatus = Running | Done

  datatype Lease = Lease(
    leaseId: string, runId: string, workerId: string, taskId: string,
    key: string, executionId: string, status: LeaseStatus, timestamp: string)

  // ----- app/session/models.py -----

  // A message's metadata dictionary: one constructor per "phase" that some service reads back.
  datatype Note =
    | NoNote
    | LeaseNote(lease: Lease)
    | RevisionNote(attempt: nat)
    | QaNote(qa: QaResult, evidenceHash: Option<Digest>)

  datatype Message = Message(role: string, content: string, note: Note)

  // `execution` is output["execution"]["execution_id"] when the output dictionary has one.
  datatype WorkerOutput = WorkerOutput(workerId: string, runId: string, status: string, execution: Option<string>)

  datatype SessionRecord = SessionRecord(
    runId: string,
    state: WorkflowState,
    messages: seq<Message>,
    artifacts: seq<string>,
    decisions: seq<HumanDecision>,
    results: seq<ExecutionResult>,
    outputs: map<string, WorkerOutput>,
    gates: seq<ApprovalGate>,
    plan: Option<ArchitecturePlan>,
    final: Option<FinalResult>,
    revision: nat)

  function NewSession(runId: string): SessionRecord {
    SessionRecord(runId, Idle, [], [], [], [], map[], [], None, None, 0)
  }
}
