/**
 Who may reach a backend: tool authorization over the approval engine, the orchestrator's
 choice of a grant for each worker, and the admission check of the execution gateway.
 */
module Authorization {
  import opened Wrappers
  import opened Contracts
  import opened Ordering
  import opened Text
  import opened SessionStore
  import opened Approvals
  import opened Tools

  // ----- app/tools/authorization.py -----

  datatype ToolRequest = ToolRequest(
    runId: string, workerId: string, tools: seq<string>, capabilities: seq<string>, backendId: string, needsNetwork: bool)

  /** ExecutionAuthorization without its proofs. */
  datatype Grant = Grant(
    authorized: bool, reason: string, gateId: Option<string>,
    runId: string, workerId: string, backendId: string, networkAllowed: bool)

  datatype ToolDecision = ToolDecision(resolved: seq<Tool>, gateId: Option<string>, grant: Option<Grant>)

  datatype AuthorizationError = InvalidRequest | Unresolvable | NoRecordedDecision | ApprovalFailed(error: ApprovalError)

  datatype AuthorizationReply = AuthorizationReply(world: World, answer: Result<ToolDecision, AuthorizationError>)

  predicate ValidRequest(req: ToolRequest) {
    && !Blank(req.runId) && !Blank(req.workerId) && !Blank(req.backendId)
    && (forall i :: 0 <= i < |req.tools| ==> !Blank(req.tools[i]))
    && (forall i :: 0 <= i < |req.capabilities| ==> !Blank(req.capabilities[i]))
  }

  predicate IsRisky(t: Tool) { t.riskLevel == High || t.requiresApproval }

  function ToolIds(tools: seq<Tool>): seq<string> { seq(|tools|, i requires 0 <= i < |tools| => tools[i].toolId) }

  function RiskyIds(resolved: seq<Tool>): seq<string> { SortStrings(ToolIds(Keep(resolved, IsRisky))) }

  predicate Matches(g: ApprovalGate, req: ToolRequest, risky: seq<string>) {
    && g.runId == req.runId && g.kind == "TOOL_RISK" && g.context.ToolContext?
    && g.context.workerId == req.workerId
    && SortStrings(g.context.tools) == risky
    && SortStrings(g.context.capabilities) == SortStrings(req.capabilities)
    && g.context.backendId == req.backendId
    && g.context.needsNetwork == req.needsNetwork
  }

  // The newest gate that matches the request.
  function Matching(gates: seq<ApprovalGate>, req: ToolRequest, risky: seq<string>): (r: Option<ApprovalGate>)
    ensures r.Some? ==> r.value in gates && Matches(r.value, req, risky)
    ensures r.None? ==> forall g :: g in gates ==> !Matches(g, req, risky)
  {
    if gates == [] then None
    else
      var last := gates[|gates| - 1];
      if Matches(last, req, risky) then Some(last)
      else
        assert gates == gates[..|gates| - 1] + [last];
        Matching(gates[..|gates| - 1], req, risky)
  }

  function ToolGate(req: ToolRequest, risky: seq<string>, gateId: string, now: string): ApprovalGate {
    ApprovalGate(gateId, req.runId, "TOOL_RISK", "Approve sensitive tool execution",
                 "A requested tool or network " + "access requires human approval " + "before execution.",
                 ToolContext(req.workerId, risky, req.capabilities, req.backendId, req.needsNetwork),
                 [Approve, Reject], Open, now, None)
  }

  function Unrestricted(req: ToolRequest): Grant {
    Grant(true, "resolved tools require no human approval", None, req.runId, req.workerId, req.backendId, false)
  }

  function Decided(req: ToolRequest, gateId: string, approved: bool, network: bool): Grant {
    Grant(approved, if approved then "human approved execution" else "human rejected execution",
          Some(gateId), req.runId, req.workerId, req.backendId, network && approved)
  }

  function Authorize(w: World, v: Validation, req: ToolRequest, gateId: string, now: string): AuthorizationReply {
    var risky := RiskyIds(v.resolved);
    if !ValidRequest(req) then AuthorizationReply(w, Err(InvalidRequest))
    else if !v.IsValid() then AuthorizationReply(w, Err(Unresolvable))
    else if risky == [] && !req.needsNetwork then
      AuthorizationReply(w, Ok(ToolDecision(v.resolved, None, Some(Unrestricted(req)))))
    else
      match Matching(w.engine.gates, req, risky)
      case Some(g) =>
        if g.status != Resolved then AuthorizationReply(w, Ok(ToolDecision(v.resolved, Some(g.gateId), None)))
        else
          (match Decision(w.engine, g.gateId)
           case None => AuthorizationReply(w, Err(NoRecordedDecision))
           case Some(d) =>
             AuthorizationReply(w, Ok(ToolDecision(v.resolved, Some(g.gateId),
                                                   Some(Decided(req, g.gateId, d.decision == Approve, req.needsNetwork))))))
      case None =>
        var reply := RequestGate(w, ToolGate(req, risky, gateId, now), true);
        match reply.error
        case Some(e) => AuthorizationReply(reply.world, Err(ApprovalFailed(e)))
        case None => AuthorizationReply(reply.world, Ok(ToolDecision(v.resolved, Some(gateId), None)))
  }

  datatype ResolutionError = NotThisRequest | OtherBackend | OtherNetwork | Unresolved(error: ApprovalError)

  datatype ResolutionReply = ResolutionReply(world: World, answer: Result<Grant, ResolutionError>)

  /** What a human decides about one worker's gate, as the orchestrator passes it on. */
  datatype ToolVerdict = ToolVerdict(
    gateId: string, decision: DecisionType, runId: string, workerId: string, feedback: string, actor: string,
    backendId: string, needsNetwork: bool, timestamp: string)

  predicate BelongsTo(g: ApprovalGate, t: ToolVerdict) {
    g.runId == t.runId && g.kind == "TOOL_RISK" && g.context.ToolContext? && g.context.workerId == t.workerId
  }

  // ToolAuthorizationService.resolve_gate.
  function ResolveToolGate(w: World, t: ToolVerdict): ResolutionReply {
    match Find(w.engine.gates, t.gateId)
    case None => ResolutionReply(w, Err(Unresolved(UnknownGateId)))
    case Some(g) =>
      if !BelongsTo(g, t) then ResolutionReply(w, Err(NotThisRequest))
      else if g.context.backendId != t.backendId then ResolutionReply(w, Err(OtherBackend))
      else if g.context.needsNetwork != t.needsNetwork then ResolutionReply(w, Err(OtherNetwork))
      else
        var reply := ResolveOpenGate(w, t.gateId, t.decision, t.feedback, t.actor, t.timestamp, true);
        match reply.error
        case Some(e) => ResolutionReply(reply.world, Err(Unresolved(e)))
        case None =>
          var req := ToolRequest(t.runId, t.workerId, [], [], g.context.backendId, g.context.needsNetwork);
          ResolutionReply(reply.world, Ok(Decided(req, t.gateId, t.decision == Approve, g.context.needsNetwork)))
  }

  // ----- app/orchestration/service.py: one worker of a batch -----

  datatype Plan = Plan(runId: string, backendId: string, capabilities: seq<string>, gateA: string)

  /** A worker, what its agent plans to need (None when the agent raises), and the ids its new gates would get. */
  datatype Item = Item(spec: WorkerSpec, v: Validation, needsNetwork: Option<bool>, toolGate: string, networkGate: string, now: string)

  datatype Choice = Skipped | Waiting(gateId: string) | Ready(grant: Grant) | WorkerError | Aborted

  datatype Turn = Turn(world: World, choice: Choice)

  function RequestOf(p: Plan, item: Item, needsNetwork: bool): ToolRequest {
    ToolRequest(p.runId, item.spec.workerId, item.spec.requiredTools, p.capabilities, p.backendId, needsNetwork)
  }

  function GateAGrant(p: Plan, workerId: string): Grant {
    Grant(true, "worker execution authorized by Gate A", Some(p.gateA), p.runId, workerId, p.backendId, false)
  }

  function AuthorizeTools(w: World, p: Plan, item: Item): AuthorizationReply {
    if item.spec.requiredTools == [] && p.capabilities == []
    then AuthorizationReply(w, Ok(ToolDecision([], None, None)))
    else Authorize(w, item.v, RequestOf(p, item, false), item.toolGate, item.now)
  }

  // set_worker_output, which raises when the session refuses it.
  function Noted(w: World, p: Plan, item: Item, status: string, choice: Choice): Turn {
    match Persist(w.store, p.runId, SetOutput(WorkerOutput(item.spec.workerId, p.runId, status, None)), true)
    case None => Turn(w, Aborted)
    case Some(store) => Turn(w.(store := store), choice)
  }

  predicate AlreadyDone(w: World, p: Plan, workerId: string) {
    && p.runId in w.store && workerId in w.store[p.runId].outputs
    && w.store[p.runId].outputs[workerId].status == "success"
  }

  function FirstGrant(p: Plan, item: Item, d: ToolDecision): Grant {
    if d.grant.Some? then d.grant.value else GateAGrant(p, item.spec.workerId)
  }

  // The agent's plan needs a network that the grant does not cover.
  function AuthorizeNetwork(w: World, p: Plan, item: Item, grant: Grant): Turn {
    var network := Authorize(w, item.v, RequestOf(p, item, true), item.networkGate, item.now);
    match network.answer
    case Err(_) => Noted(network.world, p, item, "error", WorkerError)
    case Ok(n) =>
      if n.gateId.Some? && n.grant.None? then Noted(network.world, p, item, "waiting_human", Waiting(n.gateId.value))
      else Turn(network.world, Ready(if n.grant.Some? then n.grant.value else grant))
  }

  function AskAgent(w: World, p: Plan, item: Item, grant: Grant): Turn {
    match item.needsNetwork
    case None => Noted(w, p, item, "error", WorkerError)
    case Some(needsNetwork) =>
      if needsNetwork && !grant.networkAllowed then AuthorizeNetwork(w, p, item, grant) else Turn(w, Ready(grant))
  }

  function AuthorizeWorker(w: World, p: Plan, item: Item): Turn {
    if AlreadyDone(w, p, item.spec.workerId) then Turn(w, Skipped)
    else
      var tools := AuthorizeTools(w, p, item);
      match tools.answer
      case Err(_) => Turn(tools.world, Aborted)
      case Ok(d) =>
        if d.gateId.Some? && d.grant.None? then Noted(tools.world, p, item, "waiting_human", Waiting(d.gateId.value))
        else AskAgent(tools.world, p, item, FirstGrant(p, item, d))
  }

  // _find_gate_a over the first n decisions, newest first.
  function FindGateA(e: Engine, decisions: seq<HumanDecision>, runId: string): Option<string> {
    if decisions == [] then None
    else
      var d := decisions[|decisions| - 1];
      if d.decision == Approve && IsApprovedArchitecture(e, d.gateId, runId) then Some(d.gateId)
      else FindGateA(e, decisions[..|decisions| - 1], runId)
  }

  predicate IsApprovedArchitecture(e: Engine, gateId: string, runId: string) {
    && Find(e.gates, gateId).Some?
    && Find(e.gates, gateId).value.runId == runId
    && Find(e.gates, gateId).value.kind == "ARCHITECTURE"
    && Find(e.gates, gateId).value.status == Resolved
  }

  // ----- The workers of one batch, in order -----

  datatype Batch = Batch(world: World, executable: seq<(Item, Grant)>, pending: seq<(Item, string)>, aborted: bool)

  function Took(b: Batch, item: Item, turn: Turn): Batch {
    match turn.choice
    case Skipped => b.(world := turn.world)
    case WorkerError => b.(world := turn.world)
    case Waiting(gateId) => b.(world := turn.world, pending := b.pending + [(item, gateId)])
    case Ready(grant) => b.(world := turn.world, executable := b.executable + [(item, grant)])
    case Aborted => b.(world := turn.world, aborted := true)
  }

  function AuthorizeBatch(w: World, p: Plan, items: seq<Item>): Batch {
    if items == [] then Batch(w, [], [], false)
    else
      var b := AuthorizeBatch(w, p, items[..|items| - 1]);
      if b.aborted then b else Took(b, items[|items| - 1], AuthorizeWorker(b.world, p, items[|items| - 1]))
  }

  // ----- app/execution/service.py: admission and result binding -----

  datatype Settings = Settings(backend: string, registered: set<string>, available: set<string>)

  datatype ExecutionRequest = ExecutionRequest(executionId: string, runId: string, workerId: string, needsNetwork: bool)

  datatype Admission = NotAdmitted | DeniedResult(reason: string) | NoBackend | CallBackend

  function Admit(s: Settings, grant: Grant, request: ExecutionRequest): Admission {
    if !grant.authorized then DeniedResult(grant.reason)
    else if grant.runId != request.runId || (grant.workerId != request.workerId && grant.workerId != "*") then NotAdmitted
    else if grant.backendId != s.backend then NotAdmitted
    else if request.needsNetwork && !grant.networkAllowed then DeniedResult("network access is not authorized")
    else if s.backend !in s.registered || s.backend !in s.available then NoBackend
    else CallBackend
  }

  /** What the backend does when it is called. */
  datatype BackendAnswer = Returned(result: ExecutionResult) | TimedOut(message: string) | Raised(message: string)

  function BoundTo(s: Settings, request: ExecutionRequest, status: ExecutionStatus, output: string): ExecutionResult {
    ExecutionResult(request.executionId, status, output, s.backend, Some(request.runId), Some(request.workerId))
  }

  // ExecutionGateway.execute; None when it raises.
  function Execute(s: Settings, grant: Grant, request: ExecutionRequest, answer: BackendAnswer): Option<ExecutionResult> {
    match Admit(s, grant, request)
    case NotAdmitted => None
    case DeniedResult(reason) => Some(BoundTo(s.(backend := grant.backendId), request, Denied, reason))
    case NoBackend => Some(BoundTo(s, request, Unavailable, s.backend))
    case CallBackend =>
      match answer
      case TimedOut(message) => Some(BoundTo(s, request, Timeout, message))
      case Raised(message) => Some(BoundTo(s, request, Error, message))
      case Returned(r) =>
        if r.executionId != request.executionId then None
        else if r.runId.Some? && r.runId.value != request.runId then None
        else if r.workerId.Some? && r.workerId.value != request.workerId then None
        else if r.backend != s.backend then None
        else Some(r.(runId := Some(request.runId), workerId := Some(request.workerId)))
  }
}
