/** The JSON document of a session record: every stored field, its encoding, its decoding and the integrity check. */
module JsonDocuments {
  import opened Wrappers
  import opened Contracts
  import opened Text

  datatype Json =
    | JNull
    | JBool(flag: bool)
    | JInt(number: int)
    | JStr(text: string)
    | JArr(items: seq<Json>)
    | JObj(fields: map<string, Json>)

  type Dict = map<string, Json>

  // ----- The stored entities, with all their fields -----

  datatype Artifact = Artifact(artifactId: string, name: string, mimeType: Option<string>, uri: Option<string>)

  datatype StoredMessage = StoredMessage(
    messageId: string, runId: string, role: string, content: string, timestamp: string, metadata: Dict)

  datatype StoredResult = StoredResult(
    executionId: string, status: ExecutionStatus, exitCode: Option<int>, stdout: string, stderr: string, durationMs: int,
    artifacts: seq<Artifact>, backend: string, runId: Option<string>, workerId: Option<string>)

  datatype StoredOutput = StoredOutput(workerId: string, runId: string, status: string, output: Json, timestamp: string)

  datatype StoredGate = StoredGate(
    gateId: string, runId: string, kind: string, title: string, prompt: string, context: Dict,
    allowed: seq<DecisionType>, status: GateStatus, createdAt: string, resolvedAt: Option<string>)

  datatype StoredWorker = StoredWorker(
    workerId: string, role: string, mission: string, deliverables: seq<string>, tools: seq<string>,
    dependencies: seq<string>, mayAskHuman: bool)

  datatype StoredPlan = StoredPlan(
    planId: string, objective: string, assumptions: seq<string>, constraints: seq<string>, criteria: seq<string>,
    risks: seq<string>, capabilities: seq<string>, workers: seq<StoredWorker>)

  datatype StoredFinal = StoredFinal(
    runId: string, status: string, summary: string, deliverables: seq<Dict>, tests: seq<Dict>, issues: seq<string>,
    nextAction: string, evidenceHash: Option<string>)

  datatype Context = Context(runId: string, state: WorkflowState, createdAt: int, updatedAt: int, metadata: Dict)

  datatype StoredSession = StoredSession(
    context: Context, messages: seq<StoredMessage>, artifacts: seq<Artifact>, decisions: seq<HumanDecision>,
    results: seq<StoredResult>, outputs: map<string, StoredOutput>, gates: seq<StoredGate>,
    plan: Option<StoredPlan>, final: Option<StoredFinal>, revision: nat)

  /** datetime.isoformat and datetime.fromisoformat; what uuid4 and the clock give to a message that lacks them. */
  datatype Env = Env(format: int -> string, parse: string -> Option<int>, freshId: string, now: string)

  ghost predicate InverseClock(env: Env) { forall t :: env.parse(env.format(t)) == Some(t) }

  // ----- Enumerations -----

  function StateName(s: WorkflowState): string {
    match s
    case Idle => "IDLE"
    case Intake => "INTAKE"
    case Architecting => "ARCHITECTING"
    case WaitingArchitectApproval => "WAITING_ARCHITECT_APPROVAL"
    case Executing => "EXECUTING"
    case WorkerWaitingHuman => "WORKER_WAITING_HUMAN"
    case Supervising => "SUPERVISING"
    case WaitingFinalApproval => "WAITING_FINAL_APPROVAL"
    case Revision => "REVISION"
    case Completed => "COMPLETED"
    case Rejected => "REJECTED"
    case Failed => "FAILED"
  }

  function StateOf(name: string): Option<WorkflowState> {
    if name == "IDLE" then Some(Idle)
    else if name == "INTAKE" then Some(Intake)
    else if name == "ARCHITECTING" then Some(Architecting)
    else if name == "WAITING_ARCHITECT_APPROVAL" then Some(WaitingArchitectApproval)
    else if name == "EXECUTING" then Some(Executing)
    else if name == "WORKER_WAITING_HUMAN" then Some(WorkerWaitingHuman)
    else if name == "SUPERVISING" then Some(Supervising)
    else if name == "WAITING_FINAL_APPROVAL" then Some(WaitingFinalApproval)
    else if name == "REVISION" then Some(Revision)
    else if name == "COMPLETED" then Some(Completed)
    else if name == "REJECTED" then Some(Rejected)
    else if name == "FAILED" then Some(Failed)
    else None
  }

  function ResultStatusName(s: ExecutionStatus): string {
    match s
    case Success => "success"
    case Error => "error"
    case Timeout => "timeout"
    case Denied => "denied"
    case Unavailable => "unavailable"
  }

  function ResultStatusOf(name: string): Option<ExecutionStatus> {
    if name == "success" then Some(Success)
    else if name == "error" then Some(Error)
    else if name == "timeout" then Some(Timeout)
    else if name == "denied" then Some(Denied)
    else if name == "unavailable" then Some(Unavailable)
    else None
  }

  function DecisionName(d: DecisionType): string {
    match d case Approve => "approve" case Modify => "modify" case Reject => "reject" case Clarify => "clarify"
  }

  function DecisionOf(name: string): Option<DecisionType> {
    if name == "approve" then Some(Approve)
    else if name == "modify" then Some(Modify)
    else if name == "reject" then Some(Reject)
    else if name == "clarify" then Some(Clarify)
    else None
  }

  function GateStatusName(s: GateStatus): string {
    match s case Open => "open" case Resolved => "resolved" case Cancelled => "cancelled"
  }

  function GateStatusOf(name: string): Option<GateStatus> {
    if name == "open" then Some(Open)
    else if name == "resolved" then Some(Resolved)
    else if name == "cancelled" then Some(Cancelled)
    else None
  }

  // ----- Encoding: to_dict and _json_safe -----

  function Each<T>(xs: seq<T>, f: T -> Json): seq<Json> { seq(|xs|, i requires 0 <= i < |xs| => f(xs[i])) }

  function ToText(x: string): Json { JStr(x) }

  function ToObject(x: Dict): Json { JObj(x) }

  function DecisionText(d: DecisionType): Json { JStr(DecisionName(d)) }

  function Strings(xs: seq<string>): Json { JArr(Each(xs, ToText)) }

  function Objects(xs: seq<Dict>): Json { JArr(Each(xs, ToObject)) }

  function OrNull(x: Option<string>): Json { match x case None => JNull case Some(s) => JStr(s) }

  function EncodeArtifact(a: Artifact): Json {
    JObj(map["artifact_id" := JStr(a.artifactId), "name" := JStr(a.name), "mime_type" := OrNull(a.mimeType), "uri" := OrNull(a.uri)])
  }

  function EncodeMessage(m: StoredMessage): Json {
    JObj(map["message_id" := JStr(m.messageId), "run_id" := JStr(m.runId), "role" := JStr(m.role),
             "content" := JStr(m.content), "timestamp" := JStr(m.timestamp), "metadata" := JObj(m.metadata)])
  }

  function EncodeDecision(d: HumanDecision): Json {
    JObj(map["gate_id" := JStr(d.gateId), "run_id" := JStr(d.runId), "decision" := JStr(DecisionName(d.decision)),
             "feedback" := JStr(d.feedback), "timestamp" := JStr(d.timestamp), "actor" := JStr(d.actor)])
  }

  function EncodeResult(r: StoredResult): Json {
    JObj(map["execution_id" := JStr(r.executionId), "status" := JStr(ResultStatusName(r.status)),
             "exit_code" := match r.exitCode { case None => JNull case Some(n) => JInt(n) },
             "stdout" := JStr(r.stdout), "stderr" := JStr(r.stderr), "duration_ms" := JInt(r.durationMs),
             "artifacts" := JArr(Each(r.artifacts, EncodeArtifact)), "backend" := JStr(r.backend),
             "run_id" := OrNull(r.runId), "worker_id" := OrNull(r.workerId)])
  }

  function EncodeOutput(o: StoredOutput): Json {
    JObj(map["worker_id" := JStr(o.workerId), "run_id" := JStr(o.runId), "status" := JStr(o.status),
             "output" := o.output, "timestamp" := JStr(o.timestamp)])
  }

  function EncodeGate(g: StoredGate): Json {
    JObj(map["gate_id" := JStr(g.gateId), "run_id" := JStr(g.runId), "kind" := JStr(g.kind), "title" := JStr(g.title),
             "prompt" := JStr(g.prompt), "context" := JObj(g.context),
             "allowed_decisions" := JArr(Each(g.allowed, DecisionText)),
             "status" := JStr(GateStatusName(g.status)), "created_at" := JStr(g.createdAt), "resolved_at" := OrNull(g.resolvedAt)])
  }

  function EncodeWorker(w: StoredWorker): Json {
    JObj(map["worker_id" := JStr(w.workerId), "role" := JStr(w.role), "mission" := JStr(w.mission),
             "deliverables" := Strings(w.deliverables), "required_tools" := Strings(w.tools),
             "dependencies" := Strings(w.dependencies), "can_request_human_input" := JBool(w.mayAskHuman)])
  }

  function EncodePlan(p: StoredPlan): Json {
    JObj(map["plan_id" := JStr(p.planId), "objective" := JStr(p.objective), "assumptions" := Strings(p.assumptions),
             "constraints" := Strings(p.constraints), "acceptance_criteria" := Strings(p.criteria), "risks" := Strings(p.risks),
             "required_capabilities" := Strings(p.capabilities), "workers" := JArr(Each(p.workers, EncodeWorker))])
  }

  function EncodeFinal(f: StoredFinal): Json {
    JObj(map["run_id" := JStr(f.runId), "status" := JStr(f.status), "summary" := JStr(f.summary),
             "deliverables" := Objects(f.deliverables), "tests" := Objects(f.tests), "issues" := Strings(f.issues),
             "recommended_next_action" := JStr(f.nextAction), "supervisor_evidence_hash" := OrNull(f.evidenceHash)])
  }

  function EncodeContext(env: Env, c: Context): Json {
    JObj(map["run_id" := JStr(c.runId), "state" := JStr(StateName(c.state)), "created_at" := JStr(env.format(c.createdAt)),
             "updated_at" := JStr(env.format(c.updatedAt)), "metadata" := JObj(c.metadata)])
  }

  function EncodeSession(env: Env, r: StoredSession): Json {
    JObj(map["context" := EncodeContext(env, r.context),
             "messages" := JArr(Each(r.messages, EncodeMessage)),
             "artifacts" := JArr(Each(r.artifacts, EncodeArtifact)),
             "decisions" := JArr(Each(r.decisions, EncodeDecision)),
             "execution_results" := JArr(Each(r.results, EncodeResult)),
             "worker_outputs" := JObj(map w | w in r.outputs :: EncodeOutput(r.outputs[w])),
             "approval_gates" := JArr(Each(r.gates, EncodeGate)),
             "architecture_plan" := match r.plan { case None => JNull case Some(p) => EncodePlan(p) },
             "final_result" := match r.final { case None => JNull case Some(f) => EncodeFinal(f) },
             "revision" := JInt(r.revision)])
  }

  // ----- Integrity: validate_session_record_integrity and the contracts it calls -----

  predicate FilledOr(x: Option<string>) { x.Some? ==> !Blank(x.value) }

  predicate Filled(xs: seq<string>) { forall i :: 0 <= i < |xs| ==> !Blank(xs[i]) }

  predicate SoundArtifact(a: Artifact) { !Blank(a.artifactId) && !Blank(a.name) && FilledOr(a.mimeType) && FilledOr(a.uri) }

  predicate SoundMessage(m: StoredMessage, runId: string) {
    m.runId == runId && !Blank(m.role) && !Blank(m.content) && !Blank(m.timestamp)
  }

  predicate SoundDecision(d: HumanDecision, runId: string) {
    d.runId == runId && !Blank(d.gateId) && !Blank(d.runId) && !Blank(d.timestamp) && !Blank(d.actor)
  }

  predicate SoundResult(r: StoredResult) {
    && !Blank(r.executionId) && FilledOr(r.runId) && FilledOr(r.workerId) && r.durationMs >= 0 && !Blank(r.backend)
    && (forall i :: 0 <= i < |r.artifacts| ==> SoundArtifact(r.artifacts[i]))
  }

  predicate SoundOutput(key: string, o: StoredOutput, runId: string) {
    !Blank(key) && o.workerId == key && o.runId == runId && !Blank(o.status) && !Blank(o.timestamp)
  }

  predicate SoundWorker(w: StoredWorker) {
    && !Blank(w.workerId) && !Blank(w.role) && !Blank(w.mission)
    && Filled(w.deliverables) && Filled(w.tools) && Filled(w.dependencies)
    && w.workerId !in w.dependencies
  }

  const MAX_WORKERS := 4

  predicate SoundPlan(p: StoredPlan) {
    && !Blank(p.planId) && !Blank(p.objective)
    && Filled(p.assumptions) && Filled(p.constraints) && Filled(p.criteria) && Filled(p.risks) && Filled(p.capabilities)
    && 0 < |p.workers| <= MAX_WORKERS
    && (forall i, j :: 0 <= i < j < |p.workers| ==> p.workers[i].workerId != p.workers[j].workerId)
    && (forall i :: 0 <= i < |p.workers| ==> SoundWorker(p.workers[i]))
    && (forall i, d :: 0 <= i < |p.workers| && d in p.workers[i].dependencies ==> Employs(p, d))
  }

  predicate Employs(p: StoredPlan, workerId: string) {
    exists k :: 0 <= k < |p.workers| && p.workers[k].workerId == workerId
  }

  predicate Hexadecimal(s: string) {
    forall i :: 0 <= i < |s| ==> '0' <= s[i] <= '9' || 'a' <= s[i] <= 'f' || 'A' <= s[i] <= 'F'
  }

  predicate SoundFinal(f: StoredFinal, runId: string) {
    && f.runId == runId && !Blank(f.runId) && !Blank(f.status) && !Blank(f.summary) && Filled(f.issues)
    && (f.evidenceHash.Some? ==> |f.evidenceHash.value| == 64 && Hexadecimal(f.evidenceHash.value))
  }

  predicate Sound(r: StoredSession) {
    var runId := r.context.runId;
    && !Blank(runId)
    && (forall i :: 0 <= i < |r.messages| ==> SoundMessage(r.messages[i], runId))
    && (forall i :: 0 <= i < |r.artifacts| ==> SoundArtifact(r.artifacts[i]))
    && (forall i :: 0 <= i < |r.decisions| ==> SoundDecision(r.decisions[i], runId))
    && (forall i :: 0 <= i < |r.results| ==> SoundResult(r.results[i]))
    && (forall w :: w in r.outputs ==> SoundOutput(w, r.outputs[w], runId))
    && (r.plan.Some? ==> SoundPlan(r.plan.value))
    && (r.final.Some? ==> SoundFinal(r.final.value, runId))
  }

  // ApprovalGate.validate, which writing does not call and reading does.
  predicate SoundGate(g: StoredGate) {
    && !Blank(g.gateId) && !Blank(g.runId) && !Blank(g.kind) && !Blank(g.title) && !Blank(g.prompt) && !Blank(g.createdAt)
    && g.allowed != []
    && (forall i, j :: 0 <= i < j < |g.allowed| ==> g.allowed[i] != g.allowed[j])
    && (g.status == Resolved ==> g.resolvedAt.Some? && g.resolvedAt.value != "")
    && (g.status != Resolved ==> g.resolvedAt.None?)
  }
}
