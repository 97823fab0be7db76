/** Reading a session document back: _from_dict and its helpers. */
module JsonCodec {
  import opened Wrappers
  import opened Contracts
  import opened JsonDocuments

  /** What decoding yields: a value, or the error it raises. */
  datatype Decoded<+T> = Raised | Got(value: T)
  {
    predicate IsFailure() { Raised? }

    function PropagateFailure<U>(): Decoded<U>
      requires IsFailure()
    {
      Raised
    }

    function Extract(): T
      requires !IsFailure()
    {
      value
    }
  }

  // ----- Values -----

  function AsString(j: Json): Decoded<string> { if j.JStr? then Got(j.text) else Raised }

  function AsInt(j: Json): Decoded<int> { if j.JInt? then Got(j.number) else Raised }

  function AsBool(j: Json): Decoded<bool> { if j.JBool? then Got(j.flag) else Raised }

  function AsDict(j: Json): Decoded<Dict> { if j.JObj? then Got(j.fields) else Raised }

  function AsList(j: Json): Decoded<seq<Json>> { if j.JArr? then Got(j.items) else Raised }

  function AsOptionalString(j: Json): Decoded<Option<string>> {
    if j.JNull? then Got(None) else if j.JStr? then Got(Some(j.text)) else Raised
  }

  function AsOptionalInt(j: Json): Decoded<Option<int>> {
    if j.JNull? then Got(None) else if j.JInt? then Got(Some(j.number)) else Raised
  }

  predicate Truthy(j: Json) {
    match j
    case JNull => false
    case JBool(b) => b
    case JInt(n) => n != 0
    case JStr(s) => s != ""
    case JArr(items) => items != []
    case JObj(fields) => fields != map[]
  }

  // raw[key]
  function Field(d: Dict, key: string): Decoded<Json> { if key in d then Got(d[key]) else Raised }

  // raw.get(key, otherwise)
  function FieldOr(d: Dict, key: string, otherwise: Json): Json { if key in d then d[key] else otherwise }

  function All<T>(items: seq<Json>, f: Json -> Decoded<T>): Decoded<seq<T>> {
    if items == [] then Got([])
    else
      var before :- All(items[..|items| - 1], f);
      var last :- f(items[|items| - 1]);
      Got(before + [last])
  }

  function ListOf<T>(j: Json, f: Json -> Decoded<T>): Decoded<seq<T>> {
    var items :- AsList(j);
    All(items, f)
  }

  function Named<T>(j: Json, f: string -> Option<T>): Decoded<T> {
    var name :- AsString(j);
    match f(name) case None => Raised case Some(x) => Got(x)
  }

  predicate OnlyKeys(d: Dict, keys: set<string>) { d.Keys <= keys }

  const NOTHING: Json := JArr([])

  // ----- Entities -----

  function DecodeArtifact(j: Json): Decoded<Artifact> {
    var d :- AsDict(j);
    if !OnlyKeys(d, {"artifact_id", "name", "mime_type", "uri"}) then Raised
    else
      var artifactId :- Field(d, "artifact_id");
      var name :- Field(d, "name");
      var id :- AsString(artifactId);
      var text :- AsString(name);
      var mimeType :- AsOptionalString(FieldOr(d, "mime_type", JNull));
      var uri :- AsOptionalString(FieldOr(d, "uri", JNull));
      Got(Artifact(id, text, mimeType, uri))
  }

  // SessionMessage(**item): absent fields take their defaults, unknown ones raise.
  function DecodeMessage(env: Env, j: Json): Decoded<StoredMessage> {
    var d :- AsDict(j);
    if !OnlyKeys(d, {"message_id", "run_id", "role", "content", "timestamp", "metadata"}) then Raised
    else
      var messageId :- AsString(FieldOr(d, "message_id", JStr(env.freshId)));
      var runId :- AsString(FieldOr(d, "run_id", JStr("")));
      var role :- AsString(FieldOr(d, "role", JStr("user")));
      var content :- AsString(FieldOr(d, "content", JStr("")));
      var timestamp :- AsString(FieldOr(d, "timestamp", JStr(env.now)));
      var metadata :- AsDict(FieldOr(d, "metadata", JObj(map[])));
      Got(StoredMessage(messageId, runId, role, content, timestamp, metadata))
  }

  function DecodeDecision(j: Json): Decoded<HumanDecision> {
    var d :- AsDict(j);
    var gate :- Field(d, "gate_id");
    var run :- Field(d, "run_id");
    var kind :- Field(d, "decision");
    var said :- Field(d, "feedback");
    var at :- Field(d, "timestamp");
    var gateId :- AsString(gate);
    var runId :- AsString(run);
    var decision :- Named(kind, DecisionOf);
    var feedback :- AsString(said);
    var timestamp :- AsString(at);
    var actor :- AsString(FieldOr(d, "actor", JStr("human")));
    Got(HumanDecision(gateId, runId, decision, feedback, timestamp, actor))
  }

  function DecodeResult(j: Json): Decoded<StoredResult> {
    var d :- AsDict(j);
    var id :- Field(d, "execution_id");
    var status :- Field(d, "status");
    var out :- Field(d, "stdout");
    var err :- Field(d, "stderr");
    var took :- Field(d, "duration_ms");
    var executionId :- AsString(id);
    var state :- Named(status, ResultStatusOf);
    var exitCode :- AsOptionalInt(FieldOr(d, "exit_code", JNull));
    var stdout :- AsString(out);
    var stderr :- AsString(err);
    var durationMs :- AsInt(took);
    var artifacts :- ListOf(FieldOr(d, "artifacts", NOTHING), DecodeArtifact);
    var backend :- AsString(FieldOr(d, "backend", JStr("unknown")));
    var runId :- AsOptionalString(FieldOr(d, "run_id", JNull));
    var workerId :- AsOptionalString(FieldOr(d, "worker_id", JNull));
    Got(StoredResult(executionId, state, exitCode, stdout, stderr, durationMs, artifacts, backend, runId, workerId))
  }

  function DecodeOutput(env: Env, j: Json): Decoded<StoredOutput> {
    var d :- AsDict(j);
    if !OnlyKeys(d, {"worker_id", "run_id", "status", "output", "timestamp"}) then Raised
    else
      var worker :- Field(d, "worker_id");
      var run :- Field(d, "run_id");
      var state :- Field(d, "status");
      var workerId :- AsString(worker);
      var runId :- AsString(run);
      var status :- AsString(state);
      var timestamp :- AsString(FieldOr(d, "timestamp", JStr(env.now)));
      Got(StoredOutput(workerId, runId, status, FieldOr(d, "output", JNull), timestamp))
  }

  function DecodeDecisionType(j: Json): Decoded<DecisionType> { Named(j, DecisionOf) }

  function MessageDecoder(env: Env): Json -> Decoded<StoredMessage> { (j: Json) => DecodeMessage(env, j) }

  // _approval_gate_from_dict, which validates the gate it builds.
  function DecodeGate(j: Json): Decoded<StoredGate> {
    var d :- AsDict(j);
    var id :- Field(d, "gate_id");
    var run :- Field(d, "run_id");
    var what :- Field(d, "kind");
    var head :- Field(d, "title");
    var text :- Field(d, "prompt");
    var at :- Field(d, "created_at");
    var gateId :- AsString(id);
    var runId :- AsString(run);
    var kind :- AsString(what);
    var title :- AsString(head);
    var prompt :- AsString(text);
    var context :- AsDict(FieldOr(d, "context", JObj(map[])));
    var allowed :- ListOf(FieldOr(d, "allowed_decisions", NOTHING), DecodeDecisionType);
    var status :- Named(FieldOr(d, "status", JStr("open")), GateStatusOf);
    var createdAt :- AsString(at);
    var resolvedAt :- AsOptionalString(FieldOr(d, "resolved_at", JNull));
    var g := StoredGate(gateId, runId, kind, title, prompt, context, allowed, status, createdAt, resolvedAt);
    if SoundGate(g) then Got(g) else Raised
  }

  function DecodeWorker(j: Json): Decoded<StoredWorker> {
    var d :- AsDict(j);
    var id :- Field(d, "worker_id");
    var what :- Field(d, "role");
    var aim :- Field(d, "mission");
    var workerId :- AsString(id);
    var role :- AsString(what);
    var mission :- AsString(aim);
    var deliverables :- ListOf(FieldOr(d, "deliverables", NOTHING), AsString);
    var tools :- ListOf(FieldOr(d, "required_tools", NOTHING), AsString);
    var dependencies :- ListOf(FieldOr(d, "dependencies", NOTHING), AsString);
    var mayAskHuman :- AsBool(FieldOr(d, "can_request_human_input", JBool(true)));
    Got(StoredWorker(workerId, role, mission, deliverables, tools, dependencies, mayAskHuman))
  }

  function DecodePlan(j: Json): Decoded<StoredPlan> {
    var d :- AsDict(j);
    var id :- Field(d, "plan_id");
    var aim :- Field(d, "objective");
    var planId :- AsString(id);
    var objective :- AsString(aim);
    var assumptions :- ListOf(FieldOr(d, "assumptions", NOTHING), AsString);
    var constraints :- ListOf(FieldOr(d, "constraints", NOTHING), AsString);
    var criteria :- ListOf(FieldOr(d, "acceptance_criteria", NOTHING), AsString);
    var risks :- ListOf(FieldOr(d, "risks", NOTHING), AsString);
    var capabilities :- ListOf(FieldOr(d, "required_capabilities", NOTHING), AsString);
    var workers :- ListOf(FieldOr(d, "workers", NOTHING), DecodeWorker);
    Got(StoredPlan(planId, objective, assumptions, constraints, criteria, risks, capabilities, workers))
  }

  function DecodeFinal(j: Json): Decoded<StoredFinal> {
    var d :- AsDict(j);
    var run :- Field(d, "run_id");
    var state :- Field(d, "status");
    var text :- Field(d, "summary");
    var runId :- AsString(run);
    var status :- AsString(state);
    var summary :- AsString(text);
    var deliverables :- ListOf(FieldOr(d, "deliverables", NOTHING), AsDict);
    var tests :- ListOf(FieldOr(d, "tests", NOTHING), AsDict);
    var issues :- ListOf(FieldOr(d, "issues", NOTHING), AsString);
    var nextAction :- AsString(FieldOr(d, "recommended_next_action", JStr("")));
    var evidenceHash :- AsOptionalString(FieldOr(d, "supervisor_evidence_hash", JNull));
    Got(StoredFinal(runId, status, summary, deliverables, tests, issues, nextAction, evidenceHash))
  }

  function DecodeContext(env: Env, j: Json): Decoded<Context> {
    var d :- AsDict(j);
    var run :- Field(d, "run_id");
    var state :- Field(d, "state");
    var created :- Field(d, "created_at");
    var updated :- Field(d, "updated_at");
    var runId :- AsString(run);
    var current :- Named(state, StateOf);
    var createdAt :- Named(created, env.parse);
    var updatedAt :- Named(updated, env.parse);
    var metadata :- AsDict(FieldOr(d, "metadata", JObj(map[])));
    Got(Context(runId, current, createdAt, updatedAt, metadata))
  }

  function DecodeOutputs(env: Env, j: Json): Decoded<map<string, StoredOutput>> {
    var d :- AsDict(j);
    if forall w :: w in d ==> DecodeOutput(env, d[w]).Got?
    then Got(map w | w in d :: DecodeOutput(env, d[w]).value)
    else Raised
  }

  function DecodeIfTruthy<T>(j: Json, f: Json -> Decoded<T>): Decoded<Option<T>> {
    if !Truthy(j) then Got(None)
    else
      var x :- f(j);
      Got(Some(x))
  }

  function DecodeRecord(env: Env, j: Json, expectedRunId: Option<string>): Decoded<StoredSession> {
    var d :- AsDict(j);
    var raw :- Field(d, "context");
    var context :- DecodeContext(env, raw);
    if expectedRunId.Some? && context.runId != expectedRunId.value then Raised
    else
      var messages :- ListOf(FieldOr(d, "messages", NOTHING), MessageDecoder(env));
      var artifacts :- ListOf(FieldOr(d, "artifacts", NOTHING), DecodeArtifact);
      var decisions :- ListOf(FieldOr(d, "decisions", NOTHING), DecodeDecision);
      var results :- ListOf(FieldOr(d, "execution_results", NOTHING), DecodeResult);
      var outputs :- DecodeOutputs(env, FieldOr(d, "worker_outputs", JObj(map[])));
      var plan :- DecodeIfTruthy(FieldOr(d, "architecture_plan", JNull), DecodePlan);
      var final :- DecodeIfTruthy(FieldOr(d, "final_result", JNull), DecodeFinal);
      var gates :- ListOf(FieldOr(d, "approval_gates", NOTHING), DecodeGate);
      var r := StoredSession(context, messages, artifacts, decisions, results, outputs, gates, plan, final, 0);
      if Sound(r) then Got(r) else Raised
  }

  const SCHEMA_VERSION := 2

  // The document a record is stored as; None when its integrity check raises.
  function Write(env: Env, r: StoredSession): Option<Json> {
    if Sound(r) then Some(JObj(map["schema_version" := JInt(SCHEMA_VERSION), "record" := EncodeSession(env, r)])) else None
  }

  function Read(env: Env, j: Json, expectedRunId: Option<string>): Decoded<StoredSession> {
    var d :- AsDict(j);
    var version := FieldOr(d, "schema_version", JNull);
    if version != JInt(1) && version != JInt(SCHEMA_VERSION) then Raised
    else if !FieldOr(d, "record", JNull).JObj? then Raised
    else DecodeRecord(env, FieldOr(d, "record", JNull), expectedRunId)
  }
}
