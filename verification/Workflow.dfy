/**
 One run under its coordinator, orchestrator, revision service and recovery service: each command is the
 script of session operations its code performs, and a crash is a script that stops early.
 */
module Workflow {
  import opened Wrappers
  import opened Contracts
  import opened Text
  import opened SessionStore
  import opened Approvals
  import opened Supervisor
  import opened Authorization

  // ----- Configuration that a run does not change -----

  /** The revision limits of the coordinator and of recovery, the execution backend, and what the registry resolves for a worker. */
  datatype Config = Config(
    maxRevisions: nat, recoveryRevisions: nat, backendId: string, riskyTools: (seq<string>, seq<string>) -> seq<string>)

  // Recovery has a revision service of its own, with a limit of its own.
  function Most(cfg: Config): nat { if cfg.maxRevisions < cfg.recoveryRevisions then cfg.recoveryRevisions else cfg.maxRevisions }

  // ----- A run: its record, and for every FINAL gate the record it was opened on -----

  datatype RunState = RunState(rec: SessionRecord, openings: map<string, SessionRecord>)

  function NewRun(runId: string): RunState { RunState(NewSession(runId), map[]) }

  // One manager call: None when it raises.
  function PerformOp(run: RunState, op: Op): Option<RunState> {
    match Apply(run.rec, op)
    case Refused(_) => None
    case Unchanged => Some(run)
    case Commit(rec) =>
      var saved := rec.(revision := run.rec.revision + 1);
      Some(RunState(saved, if op.AddGate? && op.gate.kind == "FINAL" then run.openings[op.gate.gateId := run.rec] else run.openings))
  }

  function Perform(run: RunState, ops: seq<Op>): RunState
    decreases |ops|
  {
    if ops == [] then run
    else
      match PerformOp(run, ops[0])
      case None => run
      case Some(run') => Perform(run', ops[1..])
  }

  lemma NoMoreOps(run: RunState)
    ensures Perform(run, []) == run
  {
  }

  lemma OneOp(run: RunState, op: Op)
    requires PerformOp(run, op).Some?
    ensures Perform(run, [op]) == PerformOp(run, op).value
  {
    assert [op][1..] == [];
    hide PerformOp;
    assert Perform(run, [op]) == Perform(PerformOp(run, op).value, []);
  }

  lemma ManyOps(run: RunState, op: Op, rest: seq<Op>)
    requires PerformOp(run, op).Some?
    ensures Perform(run, [op] + rest) == Perform(PerformOp(run, op).value, rest)
  {
    hide PerformOp;
    assert ([op] + rest)[1..] == rest;
  }

  // ----- app/revision/service.py -----

  function Revisions(messages: seq<Message>): seq<nat> {
    if messages == [] then []
    else
      Revisions(messages[..|messages| - 1]) +
      (match messages[|messages| - 1].note case RevisionNote(n) => [n] case _ => [])
  }

  predicate Revisable(s: WorkflowState) { s in {Revision, Supervising, WaitingFinalApproval, WorkerWaitingHuman} }

  function RevisionMessage(attempt: nat): Message {
    Message("system", "Revision requested", RevisionNote(attempt))
  }

  // request_revision from a given state with a given number of revisions on record.
  function RevisionScript(limit: nat, state: WorkflowState, count: nat): seq<Op> {
    if !Revisable(state) || count >= limit then []
    else
      (if state == Revision then [] else [Transition(Revision)])
      + [Transition(Architecting), AddMessage(RevisionMessage(count + 1))]
  }

  // ----- app/runtime/service.py -----

  function ArchitectureGate(runId: string, gateId: string, plan: ArchitecturePlan, now: string): ApprovalGate {
    ApprovalGate(gateId, runId, "ARCHITECTURE", "Approve architecture plan", "Review the proposed architecture.",
                 PlanContext(plan), [Approve, Modify, Reject, Clarify], Open, now, None)
  }

  function FinalGate(runId: string, gateId: string, evidence: Digest, now: string): ApprovalGate {
    ApprovalGate(gateId, runId, "FINAL", "Approve final result", "Human approval is required.",
                 QaContext(evidence), [Approve, Modify, Reject, Clarify], Open, now, None)
  }

  // approvals.request_gate, which raises on an invalid gate.
  function GateRequest(g: ApprovalGate): seq<Op> { if ValidGate(g) then [AddGate(g)] else [] }

  // _validate_recorded_decision against the record, which holds the engine's gates and decisions.
  predicate IsRecordedIn(rec: SessionRecord, d: HumanDecision) {
    && ValidDecision(d) && d.runId == rec.runId
    && Find(rec.gates, d.gateId).Some?
    && Find(rec.gates, d.gateId).value.status == Resolved
    && FindDecision(rec.decisions, d.gateId) == Some(d)
  }

  datatype HashError = HashMismatch

  // _recorded_supervisor_hash: the newest PASS evidence on record.
  function RecordedHash(messages: seq<Message>, runId: string): Result<Option<Digest>, HashError> {
    if messages == [] then Ok(None)
    else
      match messages[|messages| - 1].note
      case QaNote(qa, Some(h)) =>
        if qa.runId != runId || qa.status != Pass then RecordedHash(messages[..|messages| - 1], runId)
        else if h != Sha256(qa) then Err(HashMismatch)
        else Ok(Some(h))
      case _ => RecordedHash(messages[..|messages| - 1], runId)
  }

  predicate ValidFinal(f: FinalResult) { !Blank(f.runId) && !Blank(f.summary) }

  function CompletionScript(rec: SessionRecord, d: HumanDecision, final: Option<FinalResult>): seq<Op> {
    match RecordedHash(rec.messages, rec.runId)
    case Err(_) => []
    case Ok(None) => []
    case Ok(Some(h)) =>
      var summary := if d.feedback == "" then "Final result approved by human." else d.feedback;
      var result := if final.Some? then final.value else FinalResult(rec.runId, summary, Some(h));
      if !ValidFinal(result) || result.runId != rec.runId || result.evidenceHash != Some(h) then []
      else [SetFinal(result), Transition(Completed)]
  }

  // Every worker output once, in the order the dictionary holds them.
  ghost predicate Enumerates(order: seq<string>, outputs: map<string, WorkerOutput>) {
    (forall w :: w in order <==> w in outputs) && (forall i, j :: 0 <= i < j < |order| ==> order[i] != order[j])
  }

  function OutputsIn(order: seq<string>, outputs: map<string, WorkerOutput>): seq<WorkerOutput>
    requires forall w :: w in order ==> w in outputs
  {
    seq(|order|, i requires 0 <= i < |order| => outputs[order[i]])
  }

  function EvidenceOf(rec: SessionRecord, order: seq<string>): SupervisorInput
    requires rec.plan.Some? && forall w :: w in order ==> w in rec.outputs
  {
    SupervisorInput(rec.runId, rec.plan.value.objective, rec.plan.value.acceptanceCriteria, OutputsIn(order, rec.outputs), rec.results)
  }

  // What follows a verdict reached in SUPERVISING: record_supervisor_result, record_revision or FAILED.
  function VerdictScript(cfg: Config, rec: SessionRecord, qa: QaResult, gateId: string, now: string): seq<Op> {
    match qa.status
    case Pass =>
      [AddMessage(Message("supervisor", "pass", QaNote(qa, Some(Sha256(qa))))), Transition(WaitingFinalApproval)]
      + GateRequest(FinalGate(rec.runId, gateId, Sha256(qa), now))
    case Revise => RevisionScript(cfg.maxRevisions, Supervising, |Revisions(rec.messages)|)
    case Fail => [Transition(Failed)]
  }

  // ----- app/orchestration/service.py -----

  // What execute_run asks the tool authorization for: worker i of the plan, with or without the network.
  function PlanRequest(cfg: Config, rec: SessionRecord, i: nat, network: bool): ToolRequest
    requires rec.plan.Some? && i < |rec.plan.value.workers|
  {
    var worker := rec.plan.value.workers[i];
    ToolRequest(rec.runId, worker.workerId, worker.requiredTools, rec.plan.value.requiredCapabilities, cfg.backendId, network)
  }

  function PlanRisk(cfg: Config, rec: SessionRecord, i: nat): seq<string>
    requires rec.plan.Some? && i < |rec.plan.value.workers|
  {
    cfg.riskyTools(rec.plan.value.workers[i].requiredTools, rec.plan.value.requiredCapabilities)
  }

  /** What a client, a human or a recovering process asks for. Identifiers, times and agents' answers come with it. */
  datatype Command =
    | Start
    | BeginArchitecture
    | Build(plan: ArchitecturePlan, newGate: string, now: string)
    | Answer(gateId: string, decision: DecisionType, feedback: string, actor: string, now: string)
    | Withdraw(gateId: string)
    | ArchitectureDecision(recorded: HumanDecision)
    | FinalDecision(recorded: HumanDecision, final: Option<FinalResult>)
    | RequestRevision
    | OpenToolGate(worker: nat, network: bool, newGate: string, now: string)
    | Pause(gateId: string)
    | ResumeTool(verdict: ToolVerdict)
    | BeginSupervision
    | Supervise(order: seq<string>, newGate: string, now: string, noted: bool)
    | Recover
    | RecoverFailure
    | Other(op: Op)

  function AnswerScript(rec: SessionRecord, gateId: string, decision: DecisionType, feedback: string, actor: string, now: string): seq<Op> {
    match Find(rec.gates, gateId)
    case None => []
    case Some(g) =>
      var resolved := AsResolved(g, now);
      var record := Recorded(g, decision, feedback, actor, now);
      if Blank(actor) || g.status != Open || decision !in g.allowed || !ValidGate(resolved) || !ValidDecision(record) then []
      else [ResolveGate(resolved, record)]
  }

  // resume_after_tool_gate up to the point where it runs execute_run again.
  function ResumeScript(cfg: Config, rec: SessionRecord, t: ToolVerdict): seq<Op> {
    match Find(rec.gates, t.gateId)
    case None => []
    case Some(g) =>
      if rec.state != WorkerWaitingHuman || !BelongsTo(g, t) || g.context.backendId != cfg.backendId then []
      else
        var answered := AnswerScript(rec, t.gateId, t.decision, t.feedback, t.actor, t.timestamp);
        if answered == [] then []
        else
          answered
          + [SetOutput(WorkerOutput(t.workerId, rec.runId, if t.decision == Approve then "approved" else "denied", None))]
          + (if t.decision == Approve then [Transition(Executing)]
             else RevisionScript(cfg.maxRevisions, WorkerWaitingHuman, |Revisions(rec.messages)|))
  }

  // What other components do to the record at any time.
  predicate Unrelated(op: Op) {
    || op.AddResult? || op.SetOutput? || op.AddArtifact?
    || (op.AddMessage? && (op.message.note.NoNote? || op.message.note.LeaseNote?))
  }

  const AUDIT: Op := AddMessage(Message("system", "Recovery action accepted", NoNote))

  // Recovery found that an execution failed: it supervises and asks its own revision service for a revision.
  function FailureScript(cfg: Config, count: nat): seq<Op> {
    var revision := RevisionScript(cfg.recoveryRevisions, Supervising, count);
    [Transition(Supervising)] + (if revision == [] then [] else revision + [AUDIT])
  }

  ghost function Script(cfg: Config, rec: SessionRecord, cmd: Command): seq<Op> {
    match cmd
    case Start => if rec.state == Idle then [Transition(Intake)] else []
    case BeginArchitecture => if rec.state == Intake then [Transition(Architecting)] else []
    case Build(plan, gateId, now) =>
      if rec.state != Architecting then []
      else [SetPlan(plan), Transition(WaitingArchitectApproval)] + GateRequest(ArchitectureGate(rec.runId, gateId, plan, now))
    case Answer(gateId, decision, feedback, actor, now) => AnswerScript(rec, gateId, decision, feedback, actor, now)
    case Withdraw(gateId) =>
      (match Find(rec.gates, gateId)
       case None => []
       case Some(g) => if g.status == Open then [CancelGate(g.(status := Cancelled))] else [])
    case ArchitectureDecision(d) =>
      if rec.state != WaitingArchitectApproval || !IsRecordedIn(rec, d) then []
      else
        [AddDecision(d)]
        + (match d.decision
           case Approve => [Transition(Executing)]
           case Reject => [Transition(Rejected)]
           case _ => RevisionScript(cfg.maxRevisions, WaitingArchitectApproval, |Revisions(rec.messages)|))
    case FinalDecision(d, final) =>
      if rec.state != WaitingFinalApproval || !IsRecordedIn(rec, d) || Find(rec.gates, d.gateId).value.kind != "FINAL" then []
      else
        [AddDecision(d)]
        + (match d.decision
           case Approve => CompletionScript(rec, d, final)
           case Modify => RevisionScript(cfg.maxRevisions, WaitingFinalApproval, |Revisions(rec.messages)|)
           case Reject => [Transition(Rejected)]
           case Clarify => [])
    case RequestRevision => RevisionScript(cfg.maxRevisions, rec.state, |Revisions(rec.messages)|)
    case OpenToolGate(i, network, gateId, now) =>
      if rec.state != Executing || rec.plan.None? || i >= |rec.plan.value.workers| then []
      else
        var req := PlanRequest(cfg, rec, i, network);
        var risky := PlanRisk(cfg, rec, i);
        if Matching(rec.gates, req, risky).Some? then [] else GateRequest(ToolGate(req, risky, gateId, now))
    case Pause(gateId) =>
      (match Find(rec.gates, gateId)
       case None => []
       case Some(g) =>
         if rec.state != Executing || g.kind != "TOOL_RISK" || g.status == Resolved then []
         else [AddMessage(Message("system", "paused", NoNote)), Transition(WorkerWaitingHuman)])
    case ResumeTool(t) => ResumeScript(cfg, rec, t)
    case BeginSupervision => if rec.state == Executing then [Transition(Supervising)] else []
    case Supervise(order, gateId, now, noted) =>
      if rec.state != Supervising || rec.plan.None? || !Enumerates(order, rec.outputs) then []
      else
        (match Evaluate(EvidenceOf(rec, order))
         case Err(_) => []
         case Ok(qa) =>
           (if noted then [AddMessage(Message("supervisor", "verdict", QaNote(qa, None)))] else [])
           + VerdictScript(cfg, rec, qa, gateId, now))
    case Recover =>
      if rec.state == Revision then [Transition(Architecting), AUDIT]
      else if rec.state in {Idle, Intake, Completed, Rejected, Failed} then []
      else [AUDIT]
    case RecoverFailure => if rec.state == Executing then FailureScript(cfg, |Revisions(rec.messages)|) else []
    case Other(op) => if Unrelated(op) then [op] else []
  }

  // ----- Runs -----

  /** A command and how many of its operations are carried out before the process stops. */
  datatype Stride = Stride(cmd: Command, length: nat)

  ghost function Proceed(cfg: Config, run: RunState, s: Stride): RunState {
    var ops := Script(cfg, run.rec, s.cmd);
    Perform(run, ops[..if s.length <= |ops| then s.length else |ops|])
  }

  ghost function ProceedAll(cfg: Config, run: RunState, strides: seq<Stride>): RunState {
    if strides == [] then run else Proceed(cfg, ProceedAll(cfg, run, strides[..|strides| - 1]), strides[|strides| - 1])
  }

  // A command carried out to its end, or to the first manager call that raises.
  ghost function Carry(cfg: Config, run: RunState, cmd: Command): RunState { Perform(run, Script(cfg, run.rec, cmd)) }

  ghost function CarryAll(cfg: Config, run: RunState, cmds: seq<Command>): RunState {
    if cmds == [] then run else Carry(cfg, CarryAll(cfg, run, cmds[..|cmds| - 1]), cmds[|cmds| - 1])
  }
}
