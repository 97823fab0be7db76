/** What a session document says: which keys it needs, which it may leave out, and what each stands for. */
module JsonFormat {
  import opened Wrappers
  import opened Contracts
  import opened JsonDocuments
  import opened JsonCodec
  import opened JsonRoundTrip

  // ----- A key that a document must have, and one that may be absent for a default -----

  ghost predicate Says(d: Dict, key: string, j: Json) { key in d && d[key] == j }

  ghost predicate SaysOr(d: Dict, key: string, j: Json, isDefault: bool) { if key in d then d[key] == j else isDefault }

  ghost predicate HasText(d: Dict, key: string, s: string) { Says(d, key, JStr(s)) }

  ghost predicate TextOrNull(d: Dict, key: string, s: Option<string>) {
    SaysOr(d, key, if s.Some? then JStr(s.value) else JNull, s.None?)
  }

  // A list of texts, by default empty.
  ghost predicate Texts(d: Dict, key: string, xs: seq<string>) {
    if key in d then d[key].JArr? && |d[key].items| == |xs| && forall i :: 0 <= i < |xs| ==> d[key].items[i] == JStr(xs[i]) else xs == []
  }

  ghost predicate Objs(d: Dict, key: string, xs: seq<Dict>) {
    if key in d then d[key].JArr? && |d[key].items| == |xs| && forall i :: 0 <= i < |xs| ==> d[key].items[i] == JObj(xs[i]) else xs == []
  }

  ghost predicate List<T(!new)>(d: Dict, key: string, xs: seq<T>, stands: (Json, T) -> bool) {
    if key in d then d[key].JArr? && |d[key].items| == |xs| && forall i :: 0 <= i < |xs| ==> stands(d[key].items[i], xs[i]) else xs == []
  }

  lemma {:induction false} AllAre<T(!new)>(items: seq<Json>, f: Json -> Decoded<T>, xs: seq<T>)
    ensures All(items, f) == Got(xs) <==> |items| == |xs| && forall i :: 0 <= i < |xs| ==> f(items[i]) == Got(xs[i])
  {
    if items != [] && xs != [] {
      var n, m := |items| - 1, |xs| - 1;
      AllAre(items[..n], f, xs[..m]);
      assert xs == xs[..m] + [xs[m]];
      if All(items, f) == Got(xs) {
        assert All(items[..n], f).value == xs[..m];
      }
    } else if items != [] && All(items, f).Got? {
      assert All(items, f).value != [];
    }
  }

  lemma ListIsRead<T(!new)>(d: Dict, key: string, f: Json -> Decoded<T>, xs: seq<T>)
    ensures ListOf(FieldOr(d, key, NOTHING), f) == Got(xs) <==> List(d, key, xs, (j, x) => f(j) == Got(x))
  {
    var j := FieldOr(d, key, NOTHING);
    if j.JArr? { AllAre(j.items, f, xs); }
  }

  lemma TextsAreRead(d: Dict, key: string, xs: seq<string>)
    ensures ListOf(FieldOr(d, key, NOTHING), AsString) == Got(xs) <==> Texts(d, key, xs)
  {
    ListIsRead(d, key, AsString, xs);
    assert forall j, x :: AsString(j) == Got(x) <==> j == JStr(x);
  }

  lemma ObjsAreRead(d: Dict, key: string, xs: seq<Dict>)
    ensures ListOf(FieldOr(d, key, NOTHING), AsDict) == Got(xs) <==> Objs(d, key, xs)
  {
    ListIsRead(d, key, AsDict, xs);
    assert forall j, x :: AsDict(j) == Got(x) <==> j == JObj(x);
  }

  // ----- The words of the enumerations -----

  lemma StateWords(word: string, s: WorkflowState)
    ensures StateOf(word) == Some(s) <==> word == StateName(s)
  {
  }

  lemma ResultWords(word: string, r: ExecutionStatus)
    ensures ResultStatusOf(word) == Some(r) <==> word == ResultStatusName(r)
  {
  }

  lemma DecisionWords(word: string, d: DecisionType)
    ensures DecisionOf(word) == Some(d) <==> word == DecisionName(d)
  {
  }

  lemma GateWords(word: string, g: GateStatus)
    ensures GateStatusOf(word) == Some(g) <==> word == GateStatusName(g)
  {
  }

  // The words that stand in every stored document.
  lemma WordsAreFixed()
    ensures DecisionName(Approve) == "approve" && DecisionName(Modify) == "modify"
    ensures DecisionName(Reject) == "reject" && DecisionName(Clarify) == "clarify"
    ensures GateStatusName(Open) == "open" && GateStatusName(Resolved) == "resolved" && GateStatusName(GateStatus.Cancelled) == "cancelled"
    ensures ResultStatusName(Success) == "success" && ResultStatusName(Error) == "error" && ResultStatusName(Timeout) == "timeout"
    ensures ResultStatusName(Denied) == "denied" && ResultStatusName(Unavailable) == "unavailable"
    ensures StateName(Idle) == "IDLE" && StateName(Intake) == "INTAKE" && StateName(Architecting) == "ARCHITECTING"
    ensures StateName(WaitingArchitectApproval) == "WAITING_ARCHITECT_APPROVAL" && StateName(Executing) == "EXECUTING"
    ensures StateName(WorkerWaitingHuman) == "WORKER_WAITING_HUMAN" && StateName(Supervising) == "SUPERVISING"
    ensures StateName(WaitingFinalApproval) == "WAITING_FINAL_APPROVAL" && StateName(Revision) == "REVISION"
    ensures StateName(Completed) == "COMPLETED" && StateName(Rejected) == "REJECTED" && StateName(Failed) == "FAILED"
  {
  }

  // ----- Entities -----

  ghost predicate SaysArtifact(j: Json, a: Artifact) {
    && j.JObj? && j.fields.Keys <= {"artifact_id", "name", "mime_type", "uri"}
    && HasText(j.fields, "artifact_id", a.artifactId) && HasText(j.fields, "name", a.name)
    && TextOrNull(j.fields, "mime_type", a.mimeType) && TextOrNull(j.fields, "uri", a.uri)
  }

  lemma ArtifactIsRead(j: Json, a: Artifact)
    ensures DecodeArtifact(j) == Got(a) <==> SaysArtifact(j, a)
  {
  }

  // A message may leave out anything.
  ghost predicate SaysMessage(env: Env, j: Json, m: StoredMessage) {
    && j.JObj? && j.fields.Keys <= {"message_id", "run_id", "role", "content", "timestamp", "metadata"}
    && SaysOr(j.fields, "message_id", JStr(m.messageId), m.messageId == env.freshId)
    && SaysOr(j.fields, "run_id", JStr(m.runId), m.runId == "")
    && SaysOr(j.fields, "role", JStr(m.role), m.role == "user")
    && SaysOr(j.fields, "content", JStr(m.content), m.content == "")
    && SaysOr(j.fields, "timestamp", JStr(m.timestamp), m.timestamp == env.now)
    && SaysOr(j.fields, "metadata", JObj(m.metadata), m.metadata == map[])
  }

  lemma MessageIsRead(env: Env, j: Json, m: StoredMessage)
    ensures DecodeMessage(env, j) == Got(m) <==> SaysMessage(env, j, m)
  {
  }

  ghost predicate SaysDecision(j: Json, d: HumanDecision) {
    && j.JObj?
    && HasText(j.fields, "gate_id", d.gateId) && HasText(j.fields, "run_id", d.runId) && HasText(j.fields, "decision", DecisionName(d.decision))
    && HasText(j.fields, "feedback", d.feedback) && HasText(j.fields, "timestamp", d.timestamp)
    && SaysOr(j.fields, "actor", JStr(d.actor), d.actor == "human")
  }

  lemma DecisionIsRead(j: Json, d: HumanDecision)
    ensures DecodeDecision(j) == Got(d) <==> SaysDecision(j, d)
  {
    hide DecisionOf, DecisionName;
    if j.JObj? && "decision" in j.fields && j.fields["decision"].JStr? { DecisionWords(j.fields["decision"].text, d.decision); }
  }

  ghost predicate SaysResult(j: Json, r: StoredResult) {
    && j.JObj?
    && HasText(j.fields, "execution_id", r.executionId) && HasText(j.fields, "status", ResultStatusName(r.status))
    && HasText(j.fields, "stdout", r.stdout) && HasText(j.fields, "stderr", r.stderr) && Says(j.fields, "duration_ms", JInt(r.durationMs))
    && SaysOr(j.fields, "exit_code", if r.exitCode.Some? then JInt(r.exitCode.value) else JNull, r.exitCode.None?)
    && List(j.fields, "artifacts", r.artifacts, SaysArtifact)
    && SaysOr(j.fields, "backend", JStr(r.backend), r.backend == "unknown")
    && TextOrNull(j.fields, "run_id", r.runId) && TextOrNull(j.fields, "worker_id", r.workerId)
  }

  lemma ResultIsRead(j: Json, r: StoredResult)
    ensures DecodeResult(j) == Got(r) <==> SaysResult(j, r)
  {
    hide ResultStatusOf, ResultStatusName, DecodeArtifact, SaysArtifact, ListOf;
    if j.JObj? {
      if "status" in j.fields && j.fields["status"].JStr? { ResultWords(j.fields["status"].text, r.status); }
      ListIsRead(j.fields, "artifacts", DecodeArtifact, r.artifacts);
      forall k, a ensures DecodeArtifact(k) == Got(a) <==> SaysArtifact(k, a) { ArtifactIsRead(k, a); }
    }
  }

  ghost predicate SaysOutput(env: Env, j: Json, o: StoredOutput) {
    && j.JObj? && j.fields.Keys <= {"worker_id", "run_id", "status", "output", "timestamp"}
    && HasText(j.fields, "worker_id", o.workerId) && HasText(j.fields, "run_id", o.runId) && HasText(j.fields, "status", o.status)
    && SaysOr(j.fields, "output", o.output, o.output == JNull)
    && SaysOr(j.fields, "timestamp", JStr(o.timestamp), o.timestamp == env.now)
  }

  lemma OutputIsRead(env: Env, j: Json, o: StoredOutput)
    ensures DecodeOutput(env, j) == Got(o) <==> SaysOutput(env, j, o)
  {
  }

  // A gate without a status is open, and only a valid gate is read.
  ghost predicate SaysGate(j: Json, g: StoredGate) {
    && j.JObj?
    && HasText(j.fields, "gate_id", g.gateId) && HasText(j.fields, "run_id", g.runId) && HasText(j.fields, "kind", g.kind)
    && HasText(j.fields, "title", g.title) && HasText(j.fields, "prompt", g.prompt) && HasText(j.fields, "created_at", g.createdAt)
    && SaysOr(j.fields, "context", JObj(g.context), g.context == map[])
    && List(j.fields, "allowed_decisions", g.allowed, (k, d) => k == JStr(DecisionName(d)))
    && SaysOr(j.fields, "status", JStr(GateStatusName(g.status)), g.status == Open)
    && TextOrNull(j.fields, "resolved_at", g.resolvedAt)
    && SoundGate(g)
  }

  lemma AllowedIsRead(d: Dict, allowed: seq<DecisionType>)
    ensures ListOf(FieldOr(d, "allowed_decisions", NOTHING), DecodeDecisionType) == Got(allowed)
      <==> List(d, "allowed_decisions", allowed, (k, t) => k == JStr(DecisionName(t)))
  {
    hide DecisionOf, DecisionName, ListOf;
    ListIsRead(d, "allowed_decisions", DecodeDecisionType, allowed);
    forall k, t ensures DecodeDecisionType(k) == Got(t) <==> k == JStr(DecisionName(t)) {
      if k.JStr? { DecisionWords(k.text, t); }
    }
  }

  lemma StatusIsRead(d: Dict, s: GateStatus)
    ensures Named(FieldOr(d, "status", JStr("open")), GateStatusOf) == Got(s)
      <==> SaysOr(d, "status", JStr(GateStatusName(s)), s == Open)
  {
    hide GateStatusOf, GateStatusName;
    var j := FieldOr(d, "status", JStr("open"));
    if j.JStr? { GateWords(j.text, s); }
    GateWords("open", s);
    WordsAreFixed();
  }

  lemma GateIsRead(j: Json, g: StoredGate)
    ensures DecodeGate(j) == Got(g) <==> SaysGate(j, g)
  {
    hide Named, List, ListOf, SoundGate;
    if j.JObj? {
      AllowedIsRead(j.fields, g.allowed);
      StatusIsRead(j.fields, g.status);
      assert SaysGate(j, g) ==> Named(FieldOr(j.fields, "status", JStr("open")), GateStatusOf) == Got(g.status);
    }
  }

  ghost predicate SaysWorker(j: Json, w: StoredWorker) {
    && j.JObj?
    && HasText(j.fields, "worker_id", w.workerId) && HasText(j.fields, "role", w.role) && HasText(j.fields, "mission", w.mission)
    && Texts(j.fields, "deliverables", w.deliverables) && Texts(j.fields, "required_tools", w.tools)
    && Texts(j.fields, "dependencies", w.dependencies)
    && SaysOr(j.fields, "can_request_human_input", JBool(w.mayAskHuman), w.mayAskHuman)
  }

  lemma WorkerIsRead(j: Json, w: StoredWorker)
    ensures DecodeWorker(j) == Got(w) <==> SaysWorker(j, w)
  {
    hide ListOf, Texts;
    if j.JObj? {
      TextsAreRead(j.fields, "deliverables", w.deliverables);
      TextsAreRead(j.fields, "required_tools", w.tools);
      TextsAreRead(j.fields, "dependencies", w.dependencies);
    }
  }

  ghost predicate SaysPlan(j: Json, p: StoredPlan) {
    && j.JObj?
    && HasText(j.fields, "plan_id", p.planId) && HasText(j.fields, "objective", p.objective)
    && Texts(j.fields, "assumptions", p.assumptions) && Texts(j.fields, "constraints", p.constraints)
    && Texts(j.fields, "acceptance_criteria", p.criteria) && Texts(j.fields, "risks", p.risks)
    && Texts(j.fields, "required_capabilities", p.capabilities)
    && List(j.fields, "workers", p.workers, SaysWorker)
  }

  lemma WorkersAreRead(d: Dict, ws: seq<StoredWorker>)
    ensures ListOf(FieldOr(d, "workers", NOTHING), DecodeWorker) == Got(ws) <==> List(d, "workers", ws, SaysWorker)
  {
    hide ListOf, DecodeWorker, SaysWorker;
    ListIsRead(d, "workers", DecodeWorker, ws);
    forall k, w ensures DecodeWorker(k) == Got(w) <==> SaysWorker(k, w) { WorkerIsRead(k, w); }
  }

  lemma PlanIsRead(j: Json, p: StoredPlan)
    ensures DecodePlan(j) == Got(p) <==> SaysPlan(j, p)
  {
    hide ListOf, Texts, List, DecodeWorker, SaysWorker;
    if j.JObj? {
      TextsAreRead(j.fields, "assumptions", p.assumptions);
      TextsAreRead(j.fields, "constraints", p.constraints);
      TextsAreRead(j.fields, "acceptance_criteria", p.criteria);
      TextsAreRead(j.fields, "risks", p.risks);
      TextsAreRead(j.fields, "required_capabilities", p.capabilities);
      WorkersAreRead(j.fields, p.workers);
    }
  }

  ghost predicate SaysFinal(j: Json, f: StoredFinal) {
    && j.JObj?
    && HasText(j.fields, "run_id", f.runId) && HasText(j.fields, "status", f.status) && HasText(j.fields, "summary", f.summary)
    && Objs(j.fields, "deliverables", f.deliverables) && Objs(j.fields, "tests", f.tests) && Texts(j.fields, "issues", f.issues)
    && SaysOr(j.fields, "recommended_next_action", JStr(f.nextAction), f.nextAction == "")
    && TextOrNull(j.fields, "supervisor_evidence_hash", f.evidenceHash)
  }

  lemma FinalIsRead(j: Json, f: StoredFinal)
    ensures DecodeFinal(j) == Got(f) <==> SaysFinal(j, f)
  {
    hide ListOf, Texts, Objs;
    if j.JObj? {
      ObjsAreRead(j.fields, "deliverables", f.deliverables);
      ObjsAreRead(j.fields, "tests", f.tests);
      TextsAreRead(j.fields, "issues", f.issues);
    }
  }

  ghost predicate SaysTime(env: Env, d: Dict, key: string, t: int) { key in d && d[key].JStr? && env.parse(d[key].text) == Some(t) }

  ghost predicate SaysContext(env: Env, j: Json, c: Context) {
    && j.JObj?
    && HasText(j.fields, "run_id", c.runId) && HasText(j.fields, "state", StateName(c.state))
    && SaysTime(env, j.fields, "created_at", c.createdAt) && SaysTime(env, j.fields, "updated_at", c.updatedAt)
    && SaysOr(j.fields, "metadata", JObj(c.metadata), c.metadata == map[])
  }

  lemma ContextIsRead(env: Env, j: Json, c: Context)
    ensures DecodeContext(env, j) == Got(c) <==> SaysContext(env, j, c)
  {
    hide StateOf, StateName;
    if j.JObj? && "state" in j.fields && j.fields["state"].JStr? { StateWords(j.fields["state"].text, c.state); }
  }

  // The outputs of the workers, under the same keys.
  ghost predicate SaysOutputs(env: Env, d: Dict, outputs: map<string, StoredOutput>) {
    if "worker_outputs" in d then
      var j := d["worker_outputs"];
      j.JObj? && j.fields.Keys == outputs.Keys && forall w :: w in outputs ==> SaysOutput(env, j.fields[w], outputs[w])
    else outputs == map[]
  }

  lemma OutputsAreRead(env: Env, d: Dict, outputs: map<string, StoredOutput>)
    ensures DecodeOutputs(env, FieldOr(d, "worker_outputs", JObj(map[]))) == Got(outputs) <==> SaysOutputs(env, d, outputs)
  {
    hide DecodeOutput, SaysOutput;
    var j := FieldOr(d, "worker_outputs", JObj(map[]));
    forall k, o ensures DecodeOutput(env, k) == Got(o) <==> SaysOutput(env, k, o) { OutputIsRead(env, k, o); }
    if j.JObj? && SaysOutputs(env, d, outputs) {
      forall w | w in j.fields ensures DecodeOutput(env, j.fields[w]) == Got(outputs[w]) { assert w in j.fields.Keys; }
      assert DecodeOutputs(env, j).value == outputs;
    }
  }

  // A plan or a final result may be absent, null or empty.
  ghost predicate SaysNothing(d: Dict, key: string) {
    key in d ==> d[key] in {JNull, JBool(false), JInt(0), JStr(""), JArr([]), JObj(map[])}
  }

  ghost predicate SaysPlanOrNone(d: Dict, p: Option<StoredPlan>) {
    match p
    case None => SaysNothing(d, "architecture_plan")
    case Some(q) => !SaysNothing(d, "architecture_plan") && SaysPlan(d["architecture_plan"], q)
  }

  lemma PlanOrNoneIsRead(d: Dict, p: Option<StoredPlan>)
    ensures DecodeIfTruthy(FieldOr(d, "architecture_plan", JNull), DecodePlan) == Got(p) <==> SaysPlanOrNone(d, p)
  {
    hide DecodePlan, SaysPlan;
    if p.Some? && "architecture_plan" in d { PlanIsRead(d["architecture_plan"], p.value); }
  }

  ghost predicate SaysFinalOrNone(d: Dict, f: Option<StoredFinal>) {
    match f
    case None => SaysNothing(d, "final_result")
    case Some(g) => !SaysNothing(d, "final_result") && SaysFinal(d["final_result"], g)
  }

  lemma FinalOrNoneIsRead(d: Dict, f: Option<StoredFinal>)
    ensures DecodeIfTruthy(FieldOr(d, "final_result", JNull), DecodeFinal) == Got(f) <==> SaysFinalOrNone(d, f)
  {
    hide DecodeFinal, SaysFinal;
    if f.Some? && "final_result" in d { FinalIsRead(d["final_result"], f.value); }
  }

  // The lists of a record, each under its own key.
  ghost predicate SaysLists(env: Env, d: Dict, r: StoredSession) {
    && List(d, "messages", r.messages, (j, m) => SaysMessage(env, j, m))
    && List(d, "artifacts", r.artifacts, SaysArtifact)
    && List(d, "decisions", r.decisions, SaysDecision)
    && List(d, "execution_results", r.results, SaysResult)
    && List(d, "approval_gates", r.gates, SaysGate)
  }

  lemma MessagesAreRead(env: Env, d: Dict, xs: seq<StoredMessage>)
    ensures ListOf(FieldOr(d, "messages", NOTHING), MessageDecoder(env)) == Got(xs)
      <==> List(d, "messages", xs, (j, m) => SaysMessage(env, j, m))
  {
    hide ListOf, DecodeMessage, SaysMessage;
    ListIsRead(d, "messages", MessageDecoder(env), xs);
    forall j, m ensures MessageDecoder(env)(j) == Got(m) <==> SaysMessage(env, j, m) { MessageIsRead(env, j, m); }
  }

  lemma ArtifactsAreRead(d: Dict, xs: seq<Artifact>)
    ensures ListOf(FieldOr(d, "artifacts", NOTHING), DecodeArtifact) == Got(xs) <==> List(d, "artifacts", xs, SaysArtifact)
  {
    hide ListOf, DecodeArtifact, SaysArtifact;
    ListIsRead(d, "artifacts", DecodeArtifact, xs);
    forall j, a ensures DecodeArtifact(j) == Got(a) <==> SaysArtifact(j, a) { ArtifactIsRead(j, a); }
  }

  lemma DecisionsAreRead(d: Dict, xs: seq<HumanDecision>)
    ensures ListOf(FieldOr(d, "decisions", NOTHING), DecodeDecision) == Got(xs) <==> List(d, "decisions", xs, SaysDecision)
  {
    hide ListOf, DecodeDecision, SaysDecision;
    ListIsRead(d, "decisions", DecodeDecision, xs);
    forall j, x ensures DecodeDecision(j) == Got(x) <==> SaysDecision(j, x) { DecisionIsRead(j, x); }
  }

  lemma ResultsAreRead(d: Dict, xs: seq<StoredResult>)
    ensures ListOf(FieldOr(d, "execution_results", NOTHING), DecodeResult) == Got(xs) <==> List(d, "execution_results", xs, SaysResult)
  {
    hide ListOf, DecodeResult, SaysResult;
    ListIsRead(d, "execution_results", DecodeResult, xs);
    forall j, x ensures DecodeResult(j) == Got(x) <==> SaysResult(j, x) { ResultIsRead(j, x); }
  }

  lemma GatesAreRead(d: Dict, xs: seq<StoredGate>)
    ensures ListOf(FieldOr(d, "approval_gates", NOTHING), DecodeGate) == Got(xs) <==> List(d, "approval_gates", xs, SaysGate)
  {
    hide ListOf, DecodeGate, SaysGate;
    ListIsRead(d, "approval_gates", DecodeGate, xs);
    forall j, x ensures DecodeGate(j) == Got(x) <==> SaysGate(j, x) { GateIsRead(j, x); }
  }

  // Everything a record document says; the stored revision is not read.
  ghost predicate SaysRecord(env: Env, d: Dict, r: StoredSession) {
    && "context" in d && SaysContext(env, d["context"], r.context)
    && SaysLists(env, d, r) && SaysOutputs(env, d, r.outputs)
    && SaysPlanOrNone(d, r.plan) && SaysFinalOrNone(d, r.final)
    && r.revision == 0 && Sound(r)
  }

  lemma RecordIsRead(env: Env, d: Dict, expected: Option<string>, r: StoredSession)
    ensures DecodeRecord(env, JObj(d), expected) == Got(r)
      <==> SaysRecord(env, d, r) && (expected.Some? ==> r.context.runId == expected.value)
  {
    hide ListOf, List, Sound, DecodeOutputs, SaysOutputs, DecodeIfTruthy, SaysPlanOrNone, SaysFinalOrNone, DecodeContext, SaysContext;
    if "context" in d { ContextIsRead(env, d["context"], r.context); }
    MessagesAreRead(env, d, r.messages);
    ArtifactsAreRead(d, r.artifacts);
    DecisionsAreRead(d, r.decisions);
    ResultsAreRead(d, r.results);
    GatesAreRead(d, r.gates);
    OutputsAreRead(env, d, r.outputs);
    PlanOrNoneIsRead(d, r.plan);
    FinalOrNoneIsRead(d, r.final);
  }

  /**
   A document is read as a record exactly when it has a known schema version and says that record under the keys of the stored
   format, a key that may be absent standing for its default, and the record is sound and of the run that was asked for.
   */
  lemma DocumentIsReadExactly(env: Env, j: Json, expected: Option<string>, r: StoredSession)
    ensures Read(env, j, expected) == Got(r) <==>
      && j.JObj? && (Says(j.fields, "schema_version", JInt(1)) || Says(j.fields, "schema_version", JInt(2)))
      && "record" in j.fields && j.fields["record"].JObj? && SaysRecord(env, j.fields["record"].fields, r)
      && (expected.Some? ==> r.context.runId == expected.value)
  {
    hide DecodeRecord, SaysRecord;
    if j.JObj? && "record" in j.fields && j.fields["record"].JObj? { RecordIsRead(env, j.fields["record"].fields, expected, r); }
  }

  lemma RevisionIsWritten(env: Env, r: StoredSession)
    ensures EncodeSession(env, r).JObj? && Says(EncodeSession(env, r).fields, "revision", JInt(r.revision))
  {
    hide Each, EncodeContext, EncodePlan, EncodeFinal, EncodeOutput;
  }

  // What is written has the current version, carries the revision, and says its record exactly when every gate of it is valid.
  lemma WrittenDocument(env: Env, r: StoredSession)
    requires InverseClock(env) && Write(env, r).Some?
    ensures var j := Write(env, r).value;
      && j.JObj? && j.fields.Keys == {"schema_version", "record"} && j.fields["schema_version"] == JInt(2)
      && j.fields["record"].JObj? && Says(j.fields["record"].fields, "revision", JInt(r.revision))
      && (SaysRecord(env, j.fields["record"].fields, r.(revision := 0)) <==> forall i :: 0 <= i < |r.gates| ==> SoundGate(r.gates[i]))
  {
    hide SaysRecord, SoundGate, Sound, EncodeSession, Read;
    RevisionIsWritten(env, r);
    ReadingIsTheInverseOfWriting(env, r);
    DocumentIsReadExactly(env, Write(env, r).value, Some(r.context.runId), r.(revision := 0));
  }
}
