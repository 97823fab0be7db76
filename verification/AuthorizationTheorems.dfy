/** No backend call without the approvals it needs. */
module AuthorizationTheorems {
  import opened Wrappers
  import opened Contracts
  import opened Ordering
  import opened Text
  import opened SessionStore
  import opened Approvals
  import opened RestartTransparency
  import opened Tools
  import opened ToolRegistries
  import opened Authorization

  // What the newest matching gate says.
  datatype Standing = NoGate | Undecided | Approved | Turned

  function StandingOf(e: Engine, req: ToolRequest, risky: seq<string>): Standing {
    match Matching(e.gates, req, risky)
    case None => NoGate
    case Some(g) =>
      if g.status != Resolved then Undecided
      else if Decision(e, g.gateId).Some? && Decision(e, g.gateId).value.decision == Approve then Approved
      else Turned
  }

  predicate Sensitive(risky: seq<string>, needsNetwork: bool) { risky != [] || needsNetwork }

  lemma ResolvedHasDecision(w: World, g: ApprovalGate)
    requires Mirrored(w) && g in w.engine.gates && g.status == Resolved
    ensures Decision(w.engine, g.gateId).Some?
  {
    KnownGate(w, g);
    hide Mirrored, ValidGate;
  }

  // The grant says exactly what the newest matching gate says.
  ghost predicate GrantFits(e: Engine, req: ToolRequest, risky: seq<string>, grant: Grant) {
    && grant.runId == req.runId && grant.workerId == req.workerId && grant.backendId == req.backendId
    && grant.authorized == (!Sensitive(risky, req.needsNetwork) || StandingOf(e, req, risky) == Approved)
    && grant.networkAllowed == (req.needsNetwork && grant.authorized)
    && (Sensitive(risky, req.needsNetwork) ==> StandingOf(e, req, risky) in {Approved, Turned})
  }

  // Without a grant, the newest matching gate is undecided; it may just have been opened.
  ghost predicate Waits(e: Engine, req: ToolRequest, risky: seq<string>) {
    Sensitive(risky, req.needsNetwork) && StandingOf(e, req, risky) in {NoGate, Undecided}
  }

  lemma AuthorizeAnswers(w: World, v: Validation, req: ToolRequest, gateId: string, now: string)
    requires Mirrored(w)
    ensures var r := Authorize(w, v, req, gateId, now);
      var risky := RiskyIds(v.resolved);
      && Mirrored(r.world)
      && (r.answer.Ok? ==> ValidRequest(req) && v.IsValid())
      && (r.answer.Ok? && r.answer.value.grant.None? ==> r.answer.value.gateId.Some? && Waits(w.engine, req, risky))
      && (r.answer.Ok? && r.answer.value.grant.Some? ==>
            r.world == w && GrantFits(w.engine, req, risky, r.answer.value.grant.value))
  {
    var risky := RiskyIds(v.resolved);
    hide Mirrored, ValidRequest, RequestGate, RiskyIds, Decision, Matches;
    RequestKeepsMirrored(w, ToolGate(req, risky, gateId, now), true);
    var m := Matching(w.engine.gates, req, risky);
    if m.Some? && m.value.status == Resolved { ResolvedHasDecision(w, m.value); }
  }

  // ----- One worker -----

  ghost predicate ResolvedBy(item: Item, p: Plan, tools: Registered, capabilities: set<string>) {
    RegistryOk(tools, capabilities) && Resolution(item.v, tools, capabilities, item.spec.requiredTools, p.capabilities, true)
  }

  lemma NothingAskedNothingRisky(item: Item, p: Plan, tools: Registered, capabilities: set<string>)
    requires ResolvedBy(item, p, tools, capabilities) && item.spec.requiredTools == [] && p.capabilities == []
    ensures RiskyIds(item.v.resolved) == []
  {
    assert Distinct([]) == [];
    assert Explicit(tools, [], true) == [];
    assert ResolvedIds(tools, capabilities, [], [], true) == [];
    assert SortStrings([]) == [];
    assert item.v.resolved == [];
  }

  ghost predicate OnlyNoted(w: World, turn: Turn, choice: Choice) {
    Mirrored(turn.world) && turn.world.engine == w.engine && turn.choice in {choice, Aborted}
  }

  lemma NotedTurns(w: World, p: Plan, item: Item)
    requires Mirrored(w)
    ensures forall status, choice :: OnlyNoted(w, Noted(w, p, item, status, choice), choice)
  {
    forall status, choice ensures OnlyNoted(w, Noted(w, p, item, status, choice), choice) {
      hide Mirrored, Persist;
      ElsewhereKeepsMirrored(w, p.runId, SetOutput(WorkerOutput(item.spec.workerId, p.runId, status, None)));
    }
  }

  lemma ToolsStage(w: World, p: Plan, item: Item, tools: Registered, capabilities: set<string>)
    requires Mirrored(w) && ResolvedBy(item, p, tools, capabilities)
    ensures var r := AuthorizeTools(w, p, item);
      && Mirrored(r.world)
      && (r.answer.Ok? ==>
            if r.answer.value.gateId.Some? && r.answer.value.grant.None?
            then Waits(w.engine, RequestOf(p, item, false), RiskyIds(item.v.resolved))
            else r.world == w && GrantFits(w.engine, RequestOf(p, item, false), RiskyIds(item.v.resolved), FirstGrant(p, item, r.answer.value)))
  {
    if item.spec.requiredTools == [] && p.capabilities == [] {
      NothingAskedNothingRisky(item, p, tools, capabilities);
    } else {
      AuthorizeAnswers(w, item.v, RequestOf(p, item, false), item.toolGate, item.now);
    }
    hide Mirrored, Authorize, RiskyIds, StandingOf, ResolvedBy;
  }

  lemma NetworkStage(w: World, p: Plan, item: Item, grant: Grant)
    requires Mirrored(w)
    ensures var turn := AuthorizeNetwork(w, p, item, grant);
      && Mirrored(turn.world)
      && (turn.choice.Ready? ==>
            turn.world == w && GrantFits(w.engine, RequestOf(p, item, true), RiskyIds(item.v.resolved), turn.choice.grant))
  {
    hide Mirrored, Authorize, RiskyIds, Noted, Waits, GrantFits, ValidRequest;
    var network := Authorize(w, item.v, RequestOf(p, item, true), item.networkGate, item.now);
    AuthorizeAnswers(w, item.v, RequestOf(p, item, true), item.networkGate, item.now);
    NotedTurns(network.world, p, item);
  }

  lemma NoNetworkYet(e: Engine, req: ToolRequest, risky: seq<string>, grant: Grant)
    requires GrantFits(e, req, risky, grant) && !req.needsNetwork
    ensures !grant.networkAllowed
    ensures risky != [] ==> StandingOf(e, req, risky) in {Approved, Turned}
  {
    hide StandingOf;
  }

  lemma AgentStage(w: World, p: Plan, item: Item, grant: Grant)
    requires Mirrored(w) && GrantFits(w.engine, RequestOf(p, item, false), RiskyIds(item.v.resolved), grant)
    ensures var turn := AskAgent(w, p, item, grant);
      && Mirrored(turn.world)
      && (turn.choice.Ready? ==>
            && turn.world == w && item.needsNetwork.Some?
            && GrantFits(w.engine, RequestOf(p, item, item.needsNetwork.value), RiskyIds(item.v.resolved), turn.choice.grant))
  {
    hide Mirrored, AuthorizeNetwork, RiskyIds, Noted, GrantFits;
    NotedTurns(w, p, item);
    NetworkStage(w, p, item, grant);
    NoNetworkYet(w.engine, RequestOf(p, item, false), RiskyIds(item.v.resolved), grant);
  }

  // The orchestrator's choice for a worker: ready only with a grant that says what the newest
  // matching gate says about what the worker's plan needs.
  lemma WorkerTurn(w: World, p: Plan, item: Item, tools: Registered, capabilities: set<string>)
    requires Mirrored(w) && ResolvedBy(item, p, tools, capabilities)
    ensures var turn := AuthorizeWorker(w, p, item);
      var risky := RiskyIds(item.v.resolved);
      && Mirrored(turn.world)
      && (turn.choice.Ready? ==>
            && turn.world == w && item.needsNetwork.Some?
            && GrantFits(w.engine, RequestOf(p, item, item.needsNetwork.value), risky, turn.choice.grant)
            && (risky != [] ==> StandingOf(w.engine, RequestOf(p, item, false), risky) in {Approved, Turned}))
  {
    hide Mirrored, AuthorizeTools, RiskyIds, StandingOf, ResolvedBy, Noted, Waits, AskAgent, GrantFits, AlreadyDone, FirstGrant;
    ToolsStage(w, p, item, tools, capabilities);
    var first := AuthorizeTools(w, p, item);
    NotedTurns(first.world, p, item);
    if first.answer.Ok? && !(first.answer.value.gateId.Some? && first.answer.value.grant.None?) {
      AgentStage(first.world, p, item, FirstGrant(p, item, first.answer.value));
      NoNetworkYet(w.engine, RequestOf(p, item, false), RiskyIds(item.v.resolved), FirstGrant(p, item, first.answer.value));
    }
  }

  // A valid request is answered with a grant exactly when it does not have to wait for a human.
  lemma AuthorizeDecides(w: World, v: Validation, req: ToolRequest, gateId: string, now: string)
    requires Mirrored(w) && ValidRequest(req) && v.IsValid()
    ensures var r := Authorize(w, v, req, gateId, now);
      (r.answer.Ok? && r.answer.value.grant.Some?) <==> !Waits(w.engine, req, RiskyIds(v.resolved))
  {
    hide Mirrored, ValidRequest, RequestGate, RiskyIds, Decision, Matches, ToolGate, Matching;
    var m := Matching(w.engine.gates, req, RiskyIds(v.resolved));
    if m.Some? && m.value.status == Resolved { ResolvedHasDecision(w, m.value); }
  }

  lemma ToolsDecide(w: World, p: Plan, item: Item, tools: Registered, capabilities: set<string>)
    requires Mirrored(w) && ResolvedBy(item, p, tools, capabilities)
    requires ValidRequest(RequestOf(p, item, false)) && item.v.IsValid()
    ensures var r := AuthorizeTools(w, p, item);
      (r.answer.Ok? && !(r.answer.value.gateId.Some? && r.answer.value.grant.None?))
      <==> !Waits(w.engine, RequestOf(p, item, false), RiskyIds(item.v.resolved))
  {
    hide Mirrored, Authorize, RiskyIds, StandingOf, ResolvedBy, ValidRequest;
    if item.spec.requiredTools == [] && p.capabilities == [] {
      NothingAskedNothingRisky(item, p, tools, capabilities);
    } else {
      AuthorizeDecides(w, item.v, RequestOf(p, item, false), item.toolGate, item.now);
      AuthorizeAnswers(w, item.v, RequestOf(p, item, false), item.toolGate, item.now);
    }
  }

  lemma NetworkDecides(w: World, p: Plan, item: Item, grant: Grant)
    requires Mirrored(w) && ValidRequest(RequestOf(p, item, true)) && item.v.IsValid()
    ensures AuthorizeNetwork(w, p, item, grant).choice.Ready? <==> !Waits(w.engine, RequestOf(p, item, true), RiskyIds(item.v.resolved))
  {
    hide Mirrored, Authorize, RiskyIds, Noted, Waits, GrantFits, ValidRequest;
    AuthorizeDecides(w, item.v, RequestOf(p, item, true), item.networkGate, item.now);
    AuthorizeAnswers(w, item.v, RequestOf(p, item, true), item.networkGate, item.now);
    NotedTurns(Authorize(w, item.v, RequestOf(p, item, true), item.networkGate, item.now).world, p, item);
  }

  lemma AskedTwice(w: World, p: Plan, item: Item, grant: Grant)
    requires Mirrored(w) && ValidRequest(RequestOf(p, item, true)) && item.v.IsValid()
    requires item.needsNetwork.Some? && !grant.networkAllowed
    ensures AskAgent(w, p, item, grant).choice.Ready? <==>
      (item.needsNetwork.value ==> !Waits(w.engine, RequestOf(p, item, true), RiskyIds(item.v.resolved)))
  {
    hide Mirrored, AuthorizeNetwork, RiskyIds, Noted, Waits, ValidRequest;
    if item.needsNetwork.value { NetworkDecides(w, p, item, grant); }
  }

  // A worker whose agent answered becomes executable exactly when the tool gate it needs and the network gate it needs
  // are decided, either way: which way the network gate was decided then settles what the gateway does, so a turned-down
  // tool gate does not stop a worker whose network gate is approved.
  lemma ReadyExactly(w: World, p: Plan, item: Item, tools: Registered, capabilities: set<string>)
    requires Mirrored(w) && ResolvedBy(item, p, tools, capabilities) && !AlreadyDone(w, p, item.spec.workerId)
    requires item.needsNetwork.Some? && ValidRequest(RequestOf(p, item, false)) && item.v.IsValid()
    ensures var risky := RiskyIds(item.v.resolved);
      var n := item.needsNetwork.value;
      var turn := AuthorizeWorker(w, p, item);
      && (turn.choice.Ready? <==>
            && (risky != [] ==> StandingOf(w.engine, RequestOf(p, item, false), risky) in {Approved, Turned})
            && (n ==> StandingOf(w.engine, RequestOf(p, item, true), risky) in {Approved, Turned}))
      && (turn.choice.Ready? && n ==>
            turn.choice.grant.authorized == (StandingOf(w.engine, RequestOf(p, item, true), risky) == Approved))
  {
    hide Mirrored, AuthorizeTools, RiskyIds, StandingOf, ResolvedBy, Noted, AskAgent, AlreadyDone, FirstGrant, ValidRequest;
    assert ValidRequest(RequestOf(p, item, true)) by { SameValidity(p, item); }
    ToolsDecide(w, p, item, tools, capabilities);
    ToolsStage(w, p, item, tools, capabilities);
    WorkerTurn(w, p, item, tools, capabilities);
    var first := AuthorizeTools(w, p, item);
    NotedTurns(first.world, p, item);
    if first.answer.Ok? && !(first.answer.value.gateId.Some? && first.answer.value.grant.None?) {
      NoNetworkYet(w.engine, RequestOf(p, item, false), RiskyIds(item.v.resolved), FirstGrant(p, item, first.answer.value));
      AskedTwice(w, p, item, FirstGrant(p, item, first.answer.value));
    }
  }

  lemma SameValidity(p: Plan, item: Item)
    ensures ValidRequest(RequestOf(p, item, true)) <==> ValidRequest(RequestOf(p, item, false))
  {
    hide Blank;
  }

  // ----- What a later request leaves as it was -----

  lemma SortedOnce(s: seq<string>)
    ensures SortStrings(SortStrings(s)) == SortStrings(s)
  {
    SortElements(StringLe, s);
    SortStringsCanonical(SortStrings(s), s);
  }

  // A gate opened for one request matches no request that already had a gate.
  lemma NewGateMatchesNoOther(gates: seq<ApprovalGate>, mine: ToolRequest, v: Validation, gateId: string, now: string, req: ToolRequest, risky: seq<string>)
    requires Matching(gates, mine, RiskyIds(v.resolved)).None? && Matching(gates, req, risky).Some?
    ensures !Matches(ToolGate(mine, RiskyIds(v.resolved), gateId, now), req, risky)
  {
    hide Matching, SortStrings;
    SortedOnce(ToolIds(Keep(v.resolved, IsRisky)));
    var g := Matching(gates, req, risky).value;
    assert !Matches(g, mine, RiskyIds(v.resolved));
  }

  lemma MatchingAppended(gates: seq<ApprovalGate>, g: ApprovalGate, req: ToolRequest, risky: seq<string>)
    requires !Matches(g, req, risky)
    ensures Matching(gates + [g], req, risky) == Matching(gates, req, risky)
  {
    assert (gates + [g])[..|gates|] == gates;
  }

  lemma RequestOnlyAsks(w: World, gate: ApprovalGate)
    requires gate.status == Open && gate.resolvedAt == None
    ensures RequestGate(w, gate, true).world.engine == w.engine
      || (GateIndex(w.engine.gates, gate.gateId).None?
          && RequestGate(w, gate, true).world.engine == Engine(w.engine.gates + [gate], w.engine.decisions[gate.gateId := []]))
  {
    hide ValidGate;
  }

  lemma StandingStays(w: World, v: Validation, mine: ToolRequest, gateId: string, now: string, req: ToolRequest, risky: seq<string>)
    requires StandingOf(w.engine, req, risky) != NoGate
    ensures StandingOf(Authorize(w, v, mine, gateId, now).world.engine, req, risky) == StandingOf(w.engine, req, risky)
  {
    hide RequestGate, Matches, RiskyIds, ValidRequest, Matching;
    var gate := ToolGate(mine, RiskyIds(v.resolved), gateId, now);
    RequestOnlyAsks(w, gate);
    if Matching(w.engine.gates, mine, RiskyIds(v.resolved)).None? && GateIndex(w.engine.gates, gateId).None? {
      NewGateMatchesNoOther(w.engine.gates, mine, v, gateId, now, req, risky);
      MatchingAppended(w.engine.gates, gate, req, risky);
      OldGateKeepsItsName(w.engine.gates, Matching(w.engine.gates, req, risky).value, gate);
    }
  }

  // No request is matched by two gates.
  ghost predicate OnePerKey(gates: seq<ApprovalGate>) {
    forall i, j, req, risky :: 0 <= i < j < |gates| && Matches(gates[i], req, risky) ==> !Matches(gates[j], req, risky)
  }

  // Asking again never opens a second gate for the same worker, tools, capabilities, backend and network flag.
  lemma AuthorizeOpensOnePerKey(w: World, v: Validation, mine: ToolRequest, gateId: string, now: string)
    requires OnePerKey(w.engine.gates)
    ensures OnePerKey(Authorize(w, v, mine, gateId, now).world.engine.gates)
  {
    hide RequestGate, Matches, RiskyIds, ValidRequest, GateIndex;
    var gates := w.engine.gates;
    var risky := RiskyIds(v.resolved);
    var gate := ToolGate(mine, risky, gateId, now);
    RequestOnlyAsks(w, gate);
    if Matching(gates, mine, risky).None? {
      forall i, req, r | 0 <= i < |gates| && Matches(gates[i], req, r) ensures !Matches(gate, req, r) {
        NewGateMatchesNoOther(gates, mine, v, gateId, now, req, r);
      }
    }
  }

  // Gate A: a resolved ARCHITECTURE gate of the run with a recorded APPROVE.
  ghost predicate GateAStands(e: Engine, gateId: string, runId: string) {
    && IsApprovedArchitecture(e, gateId, runId)
    && Decision(e, gateId).Some? && Decision(e, gateId).value.decision == Approve
    && Decision(e, gateId).value.runId == runId
  }

  lemma GateAStays(w: World, v: Validation, mine: ToolRequest, gateId: string, now: string, id: string, runId: string)
    requires GateAStands(w.engine, id, runId)
    ensures GateAStands(Authorize(w, v, mine, gateId, now).world.engine, id, runId)
  {
    hide RequestGate, Matches, RiskyIds, ValidRequest, Matching, GateIndex;
    var gate := ToolGate(mine, RiskyIds(v.resolved), gateId, now);
    RequestOnlyAsks(w, gate);
    FindAppended(w.engine.gates, gate, id);
    if GateIndex(w.engine.gates, gateId).None? { NotFound(w.engine.gates, id, gateId); }
  }

  lemma NotFound(gates: seq<ApprovalGate>, id: string, other: string)
    requires Find(gates, id).Some? && GateIndex(gates, other).None?
    ensures id != other
  {
  }

  // Whatever was decided or asked stays so.
  ghost predicate Keeps(e: Engine, e': Engine) {
    && (forall req, risky :: StandingOf(e, req, risky) != NoGate ==> StandingOf(e', req, risky) == StandingOf(e, req, risky))
    && (forall id, runId :: GateAStands(e, id, runId) ==> GateAStands(e', id, runId))
  }

  lemma KeepsTransitive(a: Engine, b: Engine, c: Engine)
    requires Keeps(a, b) && Keeps(b, c)
    ensures Keeps(a, c)
  {
    hide StandingOf, GateAStands;
  }

  lemma AuthorizeKeeps(w: World, v: Validation, req: ToolRequest, gateId: string, now: string)
    ensures Keeps(w.engine, Authorize(w, v, req, gateId, now).world.engine)
  {
    hide StandingOf, GateAStands, Authorize;
    var e' := Authorize(w, v, req, gateId, now).world.engine;
    forall q, risky | StandingOf(w.engine, q, risky) != NoGate ensures StandingOf(e', q, risky) == StandingOf(w.engine, q, risky) {
      StandingStays(w, v, req, gateId, now, q, risky);
    }
    forall id, runId | GateAStands(w.engine, id, runId) ensures GateAStands(e', id, runId) {
      GateAStays(w, v, req, gateId, now, id, runId);
    }
  }

  lemma NothingChanged(e: Engine)
    ensures Keeps(e, e)
  {
    hide StandingOf, GateAStands;
  }

  lemma NotedEngine(w: World, p: Plan, item: Item)
    ensures forall status, choice :: Noted(w, p, item, status, choice).world.engine == w.engine
  {
    hide Persist;
  }

  lemma AgentKeeps(w: World, p: Plan, item: Item, grant: Grant)
    ensures Keeps(w.engine, AskAgent(w, p, item, grant).world.engine)
  {
    hide Keeps, Authorize, Noted;
    var network := Authorize(w, item.v, RequestOf(p, item, true), item.networkGate, item.now).world;
    AuthorizeKeeps(w, item.v, RequestOf(p, item, true), item.networkGate, item.now);
    NothingChanged(w.engine);
    NotedEngine(w, p, item);
    NotedEngine(network, p, item);
  }

  lemma WorkerKeeps(w: World, p: Plan, item: Item)
    ensures Keeps(w.engine, AuthorizeWorker(w, p, item).world.engine)
  {
    hide Keeps, Authorize, Noted, AskAgent, AlreadyDone;
    AuthorizeKeeps(w, item.v, RequestOf(p, item, false), item.toolGate, item.now);
    NothingChanged(w.engine);
    var first := AuthorizeTools(w, p, item);
    NotedEngine(first.world, p, item);
    if first.answer.Ok? {
      var grant := FirstGrant(p, item, first.answer.value);
      AgentKeeps(first.world, p, item, grant);
      KeepsTransitive(w.engine, first.world.engine, AskAgent(first.world, p, item, grant).world.engine);
    }
  }

  // ----- The gateway -----

  // What has to be approved before a worker's request may reach the backend.
  ghost predicate IsApproved(e: Engine, p: Plan, item: Item) {
    && item.needsNetwork.Some?
    && GateAStands(e, p.gateA, p.runId)
    && (Sensitive(RiskyIds(item.v.resolved), item.needsNetwork.value) ==>
          StandingOf(e, RequestOf(p, item, item.needsNetwork.value), RiskyIds(item.v.resolved)) == Approved)
  }

  function ExecutionOf(p: Plan, item: Item, executionId: string): ExecutionRequest
    requires item.needsNetwork.Some?
  {
    ExecutionRequest(executionId, p.runId, item.spec.workerId, item.needsNetwork.value)
  }

  predicate Reachable(s: Settings, p: Plan) { s.backend == p.backendId && s.backend in s.registered && s.backend in s.available }

  // The gateway calls the backend for a grant exactly when the newest matching gate is approved, where one is needed;
  // when that gate was turned down it answers with a denied result of this execution.
  lemma AdmissionIsExact(e: Engine, s: Settings, p: Plan, item: Item, grant: Grant, executionId: string)
    requires item.needsNetwork.Some?
    requires GrantFits(e, RequestOf(p, item, item.needsNetwork.value), RiskyIds(item.v.resolved), grant)
    ensures var n := item.needsNetwork.value;
      var risky := RiskyIds(item.v.resolved);
      var standing := StandingOf(e, RequestOf(p, item, n), risky);
      var admission := Admit(s, grant, ExecutionOf(p, item, executionId));
      && (admission == CallBackend <==> Reachable(s, p) && (Sensitive(risky, n) ==> standing == Approved))
      && (admission.DeniedResult? <==> Sensitive(risky, n) && standing == Turned)
  {
    hide StandingOf, RiskyIds;
  }

  // A grant that is not authorized gives a denied result bound to the execution, whatever the backend would do.
  lemma DeniedIsAResult(s: Settings, grant: Grant, request: ExecutionRequest, answer: BackendAnswer)
    ensures Admit(s, grant, request).DeniedResult? ==>
      && Execute(s, grant, request, answer).Some?
      && Execute(s, grant, request, answer).value.status == Denied
    ensures Execute(s, grant, request, answer).Some? ==>
      && Execute(s, grant, request, answer).value.executionId == request.executionId
      && Execute(s, grant, request, answer).value.runId == Some(request.runId)
      && Execute(s, grant, request, answer).value.workerId == Some(request.workerId)
    ensures Execute(s, grant, request, answer).Some? && Execute(s, grant, request, answer).value.status == Success
      ==> Admit(s, grant, request) == CallBackend && answer.Returned? && answer.result.status == Success
  {
  }

  // ----- Gate A -----

  lemma TheOneDecision(w: World, g: ApprovalGate, d: HumanDecision)
    requires Mirrored(w) && g in w.engine.gates && g.status == Resolved
    requires d.gateId == g.gateId && d in w.store[g.runId].decisions
    ensures Decision(w.engine, g.gateId) == Some(d)
  {
    hide Mirrored, ValidGate, UniqueGates, GatesOf, DecisionsOf, GateIndex, Settled;
    KnownGate(w, g);
    DecisionsOfMembers(w.store[g.runId].decisions, d.gateId);
    assert d in w.engine.decisions[g.gateId];
  }

  lemma GateHasRun(w: World, g: ApprovalGate)
    requires Mirrored(w) && g in w.engine.gates
    ensures g.runId in w.store
  {
    KnownGate(w, g);
  }

  lemma ApprovedArchitectureStands(w: World, d: HumanDecision, runId: string)
    requires Mirrored(w) && runId in w.store && d in w.store[runId].decisions
    requires d.decision == Approve && IsApprovedArchitecture(w.engine, d.gateId, runId)
    ensures GateAStands(w.engine, d.gateId, runId)
  {
    hide Mirrored, Decision, GateIndex;
    var g := Find(w.engine.gates, d.gateId).value;
    GateHasRun(w, g);
    TheOneDecision(w, g, d);
    DecisionIsOfItsRun(w, runId, d);
  }

  lemma DecisionIsOfItsRun(w: World, runId: string, d: HumanDecision)
    requires Mirrored(w) && runId in w.store && d in w.store[runId].decisions
    ensures d.runId == runId
  {
    hide GatesSettled, DecisionsSettled, UniqueGates, UniqueDecisions, UniqueResults, GatesOf;
    assert RunMirrored(w.engine.gates, w.store[runId], runId);
  }

  lemma {:induction false} FoundGateAStands(w: World, n: nat, runId: string)
    requires Mirrored(w) && runId in w.store && n <= |w.store[runId].decisions|
    ensures var found := FindGateA(w.engine, w.store[runId].decisions[..n], runId);
      && (found.Some? ==> GateAStands(w.engine, found.value, runId))
      && (found.None? ==> forall i :: 0 <= i < n && w.store[runId].decisions[i].decision == Approve
                           ==> !IsApprovedArchitecture(w.engine, w.store[runId].decisions[i].gateId, runId))
  {
    hide Mirrored, GateAStands, IsApprovedArchitecture;
    if n > 0 {
      FoundGateAStands(w, n - 1, runId);
      var decisions := w.store[runId].decisions;
      assert decisions[..n][..n - 1] == decisions[..n - 1];
      var d := decisions[n - 1];
      if d.decision == Approve && IsApprovedArchitecture(w.engine, d.gateId, runId) { ApprovedArchitectureStands(w, d, runId); }
    }
  }

  // execute_run finds a Gate A exactly when some resolved ARCHITECTURE gate of the run has a recorded APPROVE.
  lemma GateAIsFoundExactly(w: World, runId: string)
    requires Mirrored(w) && runId in w.store
    ensures var found := FindGateA(w.engine, w.store[runId].decisions, runId);
      && (found.Some? ==> GateAStands(w.engine, found.value, runId))
      && (found.Some? <==> exists id :: GateAStands(w.engine, id, runId))
  {
    var decisions := w.store[runId].decisions;
    assert decisions[..|decisions|] == decisions;
    FoundGateAStands(w, |decisions|, runId);
    var found := FindGateA(w.engine, decisions, runId);
    if found.None? {
      forall id ensures !GateAStands(w.engine, id, runId) {
        if GateAStands(w.engine, id, runId) { StandingDecisionIsStored(w, id, runId); }
      }
    }
  }

  lemma StandingDecisionIsStored(w: World, id: string, runId: string)
    requires Mirrored(w) && GateAStands(w.engine, id, runId) && runId in w.store
    ensures exists i :: 0 <= i < |w.store[runId].decisions| && w.store[runId].decisions[i].decision == Approve
                        && w.store[runId].decisions[i].gateId == id
  {
    KnownGate(w, Find(w.engine.gates, id).value);
    DecisionsOfMembers(w.store[runId].decisions, id);
    var d := Decision(w.engine, id).value;
    assert d in w.engine.decisions[id];
    assert d in w.store[runId].decisions;
  }

  // ----- The batch -----

  ghost predicate AllResolved(items: seq<Item>, p: Plan, tools: Registered, capabilities: set<string>) {
    forall i :: 0 <= i < |items| ==> ResolvedBy(items[i], p, tools, capabilities)
  }

  ghost predicate GrantStillFits(e: Engine, p: Plan, item: Item, grant: Grant) {
    && item.needsNetwork.Some?
    && GrantFits(e, RequestOf(p, item, item.needsNetwork.value), RiskyIds(item.v.resolved), grant)
  }

  lemma GrantKeepsFitting(e: Engine, e': Engine, p: Plan, item: Item, grant: Grant)
    requires Keeps(e, e') && GrantStillFits(e, p, item, grant)
    ensures GrantStillFits(e', p, item, grant)
  {
    hide StandingOf, RiskyIds, GateAStands;
  }

  lemma {:induction false} BatchGrantsFit(w: World, p: Plan, items: seq<Item>, tools: Registered, capabilities: set<string>)
    requires Mirrored(w) && AllResolved(items, p, tools, capabilities)
    ensures var b := AuthorizeBatch(w, p, items);
      && Mirrored(b.world) && Keeps(w.engine, b.world.engine)
      && (forall k :: 0 <= k < |b.executable| ==> GrantStillFits(b.world.engine, p, b.executable[k].0, b.executable[k].1))
  {
    if items == [] {
      NothingChanged(w.engine);
    } else {
      hide Mirrored, Keeps, GrantStillFits, AuthorizeWorker, ResolvedBy;
      var before := AuthorizeBatch(w, p, items[..|items| - 1]);
      BatchGrantsFit(w, p, items[..|items| - 1], tools, capabilities);
      var item := items[|items| - 1];
      if !before.aborted { OneMoreFits(before, p, item, tools, capabilities, w.engine); }
    }
  }

  lemma OneMoreFits(before: Batch, p: Plan, item: Item, tools: Registered, capabilities: set<string>, e: Engine)
    requires Mirrored(before.world) && Keeps(e, before.world.engine) && ResolvedBy(item, p, tools, capabilities)
    requires forall k :: 0 <= k < |before.executable| ==> GrantStillFits(before.world.engine, p, before.executable[k].0, before.executable[k].1)
    ensures var b := Took(before, item, AuthorizeWorker(before.world, p, item));
      && Mirrored(b.world) && Keeps(e, b.world.engine)
      && (forall k :: 0 <= k < |b.executable| ==> GrantStillFits(b.world.engine, p, b.executable[k].0, b.executable[k].1))
  {
    hide Mirrored, Keeps, AuthorizeWorker, ResolvedBy, GrantFits, RiskyIds, StandingOf;
    var turn := AuthorizeWorker(before.world, p, item);
    WorkerTurn(before.world, p, item, tools, capabilities);
    WorkerKeeps(before.world, p, item);
    KeepsTransitive(e, before.world.engine, turn.world.engine);
    forall k | 0 <= k < |before.executable| ensures GrantStillFits(turn.world.engine, p, before.executable[k].0, before.executable[k].1) {
      GrantKeepsFitting(before.world.engine, turn.world.engine, p, before.executable[k].0, before.executable[k].1);
    }
  }

  /**
   Every backend call that execute_run reaches, on any state the approval engine can be in: a worker of a batch
   reaches the backend only after a recorded APPROVE of a resolved ARCHITECTURE gate of the run and, when its
   resolved tools are risky or its plan needs the network, with an APPROVE on the newest TOOL_RISK gate for that
   run, worker, tool set, capabilities, backend and network flag; when that gate was turned down the worker gets
   a denied result. This still holds after the gates that the rest of the batch opened.
   */
  lemma EveryBackendCallIsApproved(
      calls: seq<Call>, p: Plan, items: seq<Item>, tools: Registered, capabilities: set<string>, s: Settings, k: nat, executionId: string)
    requires AllResolved(items, p, tools, capabilities)
    requires p.runId in DoAll(NOTHING_YET, calls).store
    requires FindGateA(DoAll(NOTHING_YET, calls).engine, DoAll(NOTHING_YET, calls).store[p.runId].decisions, p.runId) == Some(p.gateA)
    requires k < |AuthorizeBatch(DoAll(NOTHING_YET, calls), p, items).executable|
    ensures var b := AuthorizeBatch(DoAll(NOTHING_YET, calls), p, items);
      var (item, grant) := b.executable[k];
      && item.needsNetwork.Some?
      && var n := item.needsNetwork.value;
         var risky := RiskyIds(item.v.resolved);
         var standing := StandingOf(b.world.engine, RequestOf(p, item, n), risky);
         var admission := Admit(s, grant, ExecutionOf(p, item, executionId));
         && (admission == CallBackend ==> IsApproved(b.world.engine, p, item))
         && (admission == CallBackend <==> Reachable(s, p) && (Sensitive(risky, n) ==> standing == Approved))
         && (admission.DeniedResult? <==> Sensitive(risky, n) && standing == Turned)
  {
    hide Mirrored, DoAll, AuthorizeBatch, AllResolved, FindGateA, Admit, StandingOf, RiskyIds, GrantFits, GateAStands;
    var w := DoAll(NOTHING_YET, calls);
    NothingYetIsMirrored(calls);
    GateAIsFoundExactly(w, p.runId);
    BatchGrantsFit(w, p, items, tools, capabilities);
    var b := AuthorizeBatch(w, p, items);
    var (item, grant) := b.executable[k];
    assert GrantStillFits(b.world.engine, p, item, grant);
    AdmissionIsExact(b.world.engine, s, p, item, grant, executionId);
  }

  lemma NothingYetIsMirrored(calls: seq<Call>)
    ensures Mirrored(NOTHING_YET) && Mirrored(DoAll(NOTHING_YET, calls))
  {
    EveryCallKeepsMirrored(NOTHING_YET, calls);
  }

  // ----- The human's answer -----

  lemma UniqueBefore(gates: seq<ApprovalGate>, i: nat)
    requires i < |gates| - 1 && UniqueGates(gates)
    ensures UniqueGates(gates[..|gates| - 1]) && gates[i].gateId != gates[|gates| - 1].gateId
  {
  }

  lemma {:induction false} MatchingReplaced(gates: seq<ApprovalGate>, i: nat, g: ApprovalGate, req: ToolRequest, risky: seq<string>)
    requires i < |gates| && UniqueGates(gates) && Matching(gates, req, risky) == Some(gates[i])
    requires Matches(g, req, risky)
    ensures Matching(gates[i := g], req, risky) == Some(g)
  {
    hide Matches, UniqueGates;
    if i < |gates| - 1 {
      UniqueBefore(gates, i);
      MatchingReplaced(gates[..|gates| - 1], i, g, req, risky);
      assert gates[i := g][..|gates| - 1] == gates[..|gates| - 1][i := g];
    }
  }

  // After the human has answered the newest gate of a request, asking again opens no gate: it grants or denies as the
  // human said, under that gate.
  lemma AnsweredRequestIsDecided(w: World, t: ToolVerdict, v: Validation, req: ToolRequest, gateId: string, now: string)
    requires Mirrored(w) && ValidRequest(req) && v.IsValid() && Sensitive(RiskyIds(v.resolved), req.needsNetwork)
    requires Matching(w.engine.gates, req, RiskyIds(v.resolved)).Some?
    requires Matching(w.engine.gates, req, RiskyIds(v.resolved)).value.gateId == t.gateId
    requires ResolveToolGate(w, t).answer.Ok?
    ensures var w' := ResolveToolGate(w, t).world;
      var again := Authorize(w', v, req, gateId, now);
      && again.world == w' && again.answer.Ok? && again.answer.value.gateId == Some(t.gateId)
      && again.answer.value.grant == Some(Decided(req, t.gateId, t.decision == Approve, req.needsNetwork))
      && ResolveToolGate(w, t).answer.value == again.answer.value.grant.value
  {
    hide Mirrored, ResolveToolGate, Authorize, Matches, RiskyIds, ValidRequest, Matching, Decision, Find;
    var risky := RiskyIds(v.resolved);
    AnsweredGate(w, t, req, risky);
    AnswerIsDecided(w, t, req, risky);
    DecidedGateAnswers(ResolveToolGate(w, t).world, v, req, gateId, now);
  }

  lemma DecidedGateAnswers(w: World, v: Validation, req: ToolRequest, gateId: string, now: string)
    requires ValidRequest(req) && v.IsValid() && Sensitive(RiskyIds(v.resolved), req.needsNetwork)
    requires var m := Matching(w.engine.gates, req, RiskyIds(v.resolved));
      m.Some? && m.value.status == Resolved && Decision(w.engine, m.value.gateId).Some?
    ensures var g := Matching(w.engine.gates, req, RiskyIds(v.resolved)).value;
      Authorize(w, v, req, gateId, now) ==
      AuthorizationReply(w, Ok(ToolDecision(v.resolved, Some(g.gateId),
        Some(Decided(req, g.gateId, Decision(w.engine, g.gateId).value.decision == Approve, req.needsNetwork)))))
  {
    hide ValidRequest, RiskyIds, Matching, Matches, Decision, RequestGate;
  }

  lemma AnswerIsDecided(w: World, t: ToolVerdict, req: ToolRequest, risky: seq<string>)
    requires ResolveToolGate(w, t).answer.Ok?
    requires Matching(w.engine.gates, req, risky).Some? && Find(w.engine.gates, t.gateId) == Matching(w.engine.gates, req, risky)
    ensures ResolveToolGate(w, t).answer.value == Decided(req, t.gateId, t.decision == Approve, req.needsNetwork)
  {
    hide Matching, Find, ResolveOpenGate;
    assert Matches(Matching(w.engine.gates, req, risky).value, req, risky);
  }

  lemma AnsweredGate(w: World, t: ToolVerdict, req: ToolRequest, risky: seq<string>)
    requires Mirrored(w) && ResolveToolGate(w, t).answer.Ok?
    requires Matching(w.engine.gates, req, risky).Some? && Matching(w.engine.gates, req, risky).value.gateId == t.gateId
    ensures var w' := ResolveToolGate(w, t).world;
      var g := Matching(w.engine.gates, req, risky).value;
      var m := Matching(w'.engine.gates, req, risky);
      && Find(w.engine.gates, t.gateId) == Some(g)
      && m == Some(AsResolved(g, t.timestamp))
      && Decision(w'.engine, t.gateId).Some? && Decision(w'.engine, t.gateId).value.decision == t.decision
  {
    hide Mirrored, ResolveOpenGate, Matches, ValidGate, ValidDecision, GateIndex, Persist, Strip, Matching, UniqueGates;
    var g := Matching(w.engine.gates, req, risky).value;
    KnownGate(w, g);
    UniqueEngineGates(w);
    FindMember(w.engine.gates, g);
    ResolveFacts(w, t.gateId, t.decision, t.feedback, t.actor, t.timestamp, true);
    ResolvingChangesTheWorld(w, t);
    var i := GateIndex(w.engine.gates, t.gateId).value;
    SameContext(g, AsResolved(g, t.timestamp), req, risky);
    MatchingReplaced(w.engine.gates, i, AsResolved(g, t.timestamp), req, risky);
  }

  lemma UniqueEngineGates(w: World)
    requires Mirrored(w)
    ensures UniqueGates(w.engine.gates)
  {
  }

  lemma SameContext(g: ApprovalGate, h: ApprovalGate, req: ToolRequest, risky: seq<string>)
    requires Matches(g, req, risky) && h.context == g.context && h.runId == g.runId && h.kind == g.kind
    ensures Matches(h, req, risky)
  {
  }

  lemma ResolvingChangesTheWorld(w: World, t: ToolVerdict)
    requires ResolveToolGate(w, t).answer.Ok?
    ensures ResolveOpenGate(w, t.gateId, t.decision, t.feedback, t.actor, t.timestamp, true).world != w
    ensures ResolveToolGate(w, t).world == ResolveOpenGate(w, t.gateId, t.decision, t.feedback, t.actor, t.timestamp, true).world
  {
    hide ValidGate, ValidDecision, Persist, Strip;
  }
}
