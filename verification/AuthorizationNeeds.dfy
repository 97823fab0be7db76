/** Which tools need a human, told from the tools themselves, and that nobody reaches the backend without having been asked for them. */
module AuthorizationNeeds {
  import opened Wrappers
  import opened Contracts
  import opened Ordering
  import opened Text
  import opened SessionStore
  import opened Approvals
  import opened RestartTransparency
  import opened Tools
  import opened ToolRegistries
  import opened Authorization
  import opened AuthorizationTheorems

  // ----- What a gate asks for -----

  // The gate asks a human for exactly the tools among these that are of high risk or require approval.
  ghost predicate AsksFor(g: ApprovalGate, req: ToolRequest, resolved: seq<Tool>) {
    && g.kind == "TOOL_RISK" && g.runId == req.runId && g.context.ToolContext?
    && g.context.workerId == req.workerId && g.context.backendId == req.backendId && g.context.needsNetwork == req.needsNetwork
    && multiset(g.context.capabilities) == multiset(req.capabilities)
    && NoDuplicates(g.context.tools)
    && (forall id :: id in g.context.tools <==> exists t :: t in resolved && (t.riskLevel == High || t.requiresApproval) && t.toolId == id)
  }

  ghost predicate DistinctTools(resolved: seq<Tool>) {
    forall i, j :: 0 <= i < j < |resolved| ==> resolved[i].toolId != resolved[j].toolId
  }

  lemma {:induction false} KeptIds(resolved: seq<Tool>, p: Tool -> bool)
    ensures forall id :: id in ToolIds(Keep(resolved, p)) <==> exists t :: t in resolved && p(t) && t.toolId == id
  {
    if resolved != [] {
      var before, last := resolved[..|resolved| - 1], resolved[|resolved| - 1];
      KeptIds(before, p);
      OneMoreKept(before, last, p);
      assert resolved == before + [last];
    }
  }

  lemma OneMoreKept(before: seq<Tool>, last: Tool, p: Tool -> bool)
    ensures ToolIds(Keep(before + [last], p)) == ToolIds(Keep(before, p)) + (if p(last) then [last.toolId] else [])
  {
    assert (before + [last])[..|before|] == before;
  }

  lemma {:induction false} KeptIdsAreDistinct(resolved: seq<Tool>, p: Tool -> bool)
    requires DistinctTools(resolved)
    ensures NoDuplicates(ToolIds(Keep(resolved, p)))
  {
    if resolved != [] {
      var before, last := resolved[..|resolved| - 1], resolved[|resolved| - 1];
      assert DistinctTools(before);
      KeptIdsAreDistinct(before, p);
      OneMoreKept(before, last, p);
      assert resolved == before + [last];
      forall t | t in before ensures t.toolId != last.toolId {
        var i :| 0 <= i < |before| && before[i] == t;
        assert resolved[i] == t;
      }
      KeptIds(before, p);
      hide ToolIds, Keep;
      assert last.toolId !in ToolIds(Keep(before, p));
      if p(last) { assert ToolIds(Keep(resolved, p)) == ToolIds(Keep(before, p)) + [last.toolId]; }
    } else {
      assert ToolIds(Keep(resolved, p)) == [];
    }
  }

  lemma RiskyAre(resolved: seq<Tool>)
    ensures forall id :: id in RiskyIds(resolved) <==> exists t :: t in resolved && (t.riskLevel == High || t.requiresApproval) && t.toolId == id
    ensures DistinctTools(resolved) ==> NoDuplicates(RiskyIds(resolved))
    ensures RiskyIds(resolved) == [] <==> forall t :: t in resolved ==> t.riskLevel != High && !t.requiresApproval
  {
    var ids := ToolIds(Keep(resolved, IsRisky));
    KeptIds(resolved, IsRisky);
    SortElements(StringLe, ids);
    if DistinctTools(resolved) {
      KeptIdsAreDistinct(resolved, IsRisky);
      SortKeepsNoDuplicates(StringLe, ids);
    }
    forall id ensures id in RiskyIds(resolved) <==> id in ids {
      assert id in RiskyIds(resolved) <==> id in multiset(RiskyIds(resolved));
      assert id in ids <==> id in multiset(ids);
    }
    if RiskyIds(resolved) == [] {
      forall t | t in resolved ensures t.riskLevel != High && !t.requiresApproval { assert t.toolId !in RiskyIds(resolved); }
    } else {
      assert RiskyIds(resolved)[0] in RiskyIds(resolved);
    }
  }

  lemma SortedAlike(s: seq<string>, t: seq<string>)
    ensures SortStrings(s) == SortStrings(t) <==> multiset(s) == multiset(t)
  {
    SortElements(StringLe, s);
    SortElements(StringLe, t);
    if multiset(s) == multiset(t) { SortStringsCanonical(s, t); }
  }

  lemma SortedOfRisky(resolved: seq<Tool>, tools: seq<string>)
    requires DistinctTools(resolved)
    ensures SortStrings(tools) == RiskyIds(resolved) <==>
      NoDuplicates(tools) && forall id :: id in tools <==> exists t :: t in resolved && (t.riskLevel == High || t.requiresApproval) && t.toolId == id
  {
    RiskyAre(resolved);
    var risky := RiskyIds(resolved);
    SortedOnce(ToolIds(Keep(resolved, IsRisky)));
    SortedAlike(tools, risky);
    hide SortStrings, RiskyIds;
    assert SortStrings(risky) == risky by { RiskyIsSorted(resolved); }
    if SortStrings(tools) == risky {
      PermutationKeepsNoDuplicates(risky, tools);
    } else if NoDuplicates(tools) && forall id :: id in tools <==> id in risky {
      SameElementsSameMultiset(tools, risky);
    }
  }

  lemma RiskyIsSorted(resolved: seq<Tool>)
    ensures SortStrings(RiskyIds(resolved)) == RiskyIds(resolved)
  {
    SortedOnce(ToolIds(Keep(resolved, IsRisky)));
  }

  // The authorization service looks for exactly such a gate.
  lemma MatchingIsAsking(g: ApprovalGate, req: ToolRequest, resolved: seq<Tool>)
    requires DistinctTools(resolved)
    ensures Matches(g, req, RiskyIds(resolved)) <==> AsksFor(g, req, resolved)
  {
    hide SortStrings, RiskyIds, NoDuplicates;
    if g.context.ToolContext? {
      SortedOfRisky(resolved, g.context.tools);
      SortedAlike(g.context.capabilities, req.capabilities);
    }
  }

  lemma {:induction false} MatchingIsNewest(gates: seq<ApprovalGate>, req: ToolRequest, risky: seq<string>) returns (i: nat)
    requires Matching(gates, req, risky).Some?
    ensures i < |gates| && gates[i] == Matching(gates, req, risky).value && Matches(gates[i], req, risky)
    ensures forall j :: i < j < |gates| ==> !Matches(gates[j], req, risky)
  {
    hide Matches;
    if Matches(gates[|gates| - 1], req, risky) {
      i := |gates| - 1;
    } else {
      i := MatchingIsNewest(gates[..|gates| - 1], req, risky);
    }
  }

  // ----- Asking -----

  /**
   A valid request is granted without a gate exactly when no resolved tool is of high risk or requires approval and no
   network is needed. Any other answer names a gate that asks a human for exactly those tools.
   */
  lemma GrantsWithoutAGateExactly(w: World, v: Validation, req: ToolRequest, gateId: string, now: string)
    requires ValidRequest(req) && v.IsValid() && DistinctTools(v.resolved)
    ensures var r := Authorize(w, v, req, gateId, now);
      && (r.answer.Ok? && r.answer.value.gateId.None? <==>
            !req.needsNetwork && forall t :: t in v.resolved ==> t.riskLevel != High && !t.requiresApproval)
      && (r.answer.Ok? && r.answer.value.gateId.None? ==>
            r.world == w && r.answer.value.grant.Some? && r.answer.value.grant.value.authorized && !r.answer.value.grant.value.networkAllowed)
      && (r.answer.Ok? && r.answer.value.gateId.Some? ==>
            exists g :: g in r.world.engine.gates && Some(g.gateId) == r.answer.value.gateId && AsksFor(g, req, v.resolved))
  {
    hide ValidRequest, RiskyIds, RequestGate, Decision, Matches, AsksFor, DistinctTools;
    RiskyAre(v.resolved);
    var risky := RiskyIds(v.resolved);
    var r := Authorize(w, v, req, gateId, now);
    if r.answer.Ok? && r.answer.value.gateId.Some? {
      var m := Matching(w.engine.gates, req, risky);
      var g := if m.Some? then m.value else ToolGate(req, risky, gateId, now);
      if m.None? { RequestedIsThere(w, g); OwnGateMatches(req, v.resolved, gateId, now); }
      MatchingIsAsking(g, req, v.resolved);
      assert g in r.world.engine.gates;
    }
  }

  /** A request is turned down as invalid exactly when it names something blank, and as unresolvable exactly when something it needs is missing. */
  lemma RequestIsJudged(w: World, v: Validation, req: ToolRequest, gateId: string, now: string)
    ensures var answer := Authorize(w, v, req, gateId, now).answer;
      var isBlank := Blank(req.runId) || Blank(req.workerId) || Blank(req.backendId) || exists s :: (s in req.tools || s in req.capabilities) && Blank(s);
      && (answer == Err(InvalidRequest) <==> isBlank)
      && (answer == Err(Unresolvable) <==> !isBlank && (v.missingTools != [] || v.missingCapabilities != []))
      && (answer.Err? && answer.error in {InvalidRequest, Unresolvable} ==> Authorize(w, v, req, gateId, now).world == w)
  {
    hide Blank, RiskyIds, Matching, RequestGate, Decision;
    assert ValidRequest(req) <==>
      !Blank(req.runId) && !Blank(req.workerId) && !Blank(req.backendId) && forall s :: s in req.tools || s in req.capabilities ==> !Blank(s);
  }

  lemma RequestedIsThere(w: World, gate: ApprovalGate)
    requires gate.status == Open && gate.resolvedAt == None
    ensures RequestGate(w, gate, true).error.None? ==> gate in RequestGate(w, gate, true).world.engine.gates
  {
    hide ValidGate, Persist;
  }

  lemma OwnGateMatches(req: ToolRequest, resolved: seq<Tool>, gateId: string, now: string)
    ensures Matches(ToolGate(req, RiskyIds(resolved), gateId, now), req, RiskyIds(resolved))
  {
    hide SortStrings, RiskyIds;
    RiskyIsSorted(resolved);
  }

  lemma ResolvedToolsAreDistinct(item: Item, p: Plan, tools: Registered, capabilities: set<string>)
    requires ResolvedBy(item, p, tools, capabilities)
    ensures DistinctTools(item.v.resolved)
  {
    hide Resolution, RegistryOk;
    ResolvedAreDistinct(item.v, tools, capabilities, item.spec.requiredTools, p.capabilities, true);
  }

  // ----- Reaching the backend -----

  // The newest gate that asks for the worker's tools was answered with APPROVE, and the session has the decision.
  ghost predicate HumanApproved(w: World, req: ToolRequest, resolved: seq<Tool>) {
    exists i :: 0 <= i < |w.engine.gates|
      && AsksFor(w.engine.gates[i], req, resolved) && (forall j :: i < j < |w.engine.gates| ==> !AsksFor(w.engine.gates[j], req, resolved))
      && w.engine.gates[i].status == Resolved
      && req.runId in w.store && exists d :: d in w.store[req.runId].decisions && d.gateId == w.engine.gates[i].gateId && d.decision == Approve
  }

  lemma ApprovedStanding(w: World, req: ToolRequest, resolved: seq<Tool>)
    requires Mirrored(w) && DistinctTools(resolved) && StandingOf(w.engine, req, RiskyIds(resolved)) == Approved
    ensures HumanApproved(w, req, resolved)
  {
    hide Mirrored, RiskyIds, Matches, AsksFor, Decision, DistinctTools;
    var risky := RiskyIds(resolved);
    var i := MatchingIsNewest(w.engine.gates, req, risky);
    var gates := w.engine.gates;
    MatchingIsAsking(gates[i], req, resolved);
    forall j | i < j < |gates| ensures !AsksFor(gates[j], req, resolved) { MatchingIsAsking(gates[j], req, resolved); }
    AskingIsOfTheRun(gates[i], req, resolved);
    var d := ApprovalIsStored(w, gates[i]);
  }

  lemma AskingIsOfTheRun(g: ApprovalGate, req: ToolRequest, resolved: seq<Tool>)
    requires AsksFor(g, req, resolved)
    ensures g.runId == req.runId
  {
  }

  lemma ApprovalIsStored(w: World, g: ApprovalGate) returns (d: HumanDecision)
    requires Mirrored(w) && g in w.engine.gates && Decision(w.engine, g.gateId).Some?
    ensures d == Decision(w.engine, g.gateId).value && g.runId in w.store && d in w.store[g.runId].decisions && d.gateId == g.gateId
  {
    hide ValidGate, Settled, GatesOf, GateIndex;
    KnownGate(w, g);
    d := Decision(w.engine, g.gateId).value;
    DecisionsOfMembers(w.store[g.runId].decisions, g.gateId);
    assert d in w.engine.decisions[g.gateId];
  }

  /**
   Whenever the gateway calls the backend for a worker of a batch of which some resolved tool is of high risk or requires
   approval, or whose plan needs the network, a human was asked for exactly those tools and said APPROVE last.
   */
  lemma NobodySkipsTheHuman(
      calls: seq<Call>, p: Plan, items: seq<Item>, tools: Registered, capabilities: set<string>, s: Settings, k: nat, executionId: string)
    requires AllResolved(items, p, tools, capabilities)
    requires p.runId in DoAll(NOTHING_YET, calls).store
    requires FindGateA(DoAll(NOTHING_YET, calls).engine, DoAll(NOTHING_YET, calls).store[p.runId].decisions, p.runId) == Some(p.gateA)
    requires k < |AuthorizeBatch(DoAll(NOTHING_YET, calls), p, items).executable|
    ensures var b := AuthorizeBatch(DoAll(NOTHING_YET, calls), p, items);
      var (item, grant) := b.executable[k];
      && item.needsNetwork.Some?
      && (Admit(s, grant, ExecutionRequest(executionId, p.runId, item.spec.workerId, item.needsNetwork.value)) == CallBackend
          && (item.needsNetwork.value || exists t :: t in item.v.resolved && (t.riskLevel == High || t.requiresApproval)) ==>
            HumanApproved(b.world, ToolRequest(p.runId, item.spec.workerId, item.spec.requiredTools, p.capabilities, p.backendId, item.needsNetwork.value),
                          item.v.resolved))
  {
    hide Mirrored, DoAll, AuthorizeBatch, FindGateA, Admit, StandingOf, RiskyIds, GrantFits, GateAStands, IsApproved, HumanApproved, ResolvedBy;
    var w := DoAll(NOTHING_YET, calls);
    EveryBackendCallIsApproved(calls, p, items, tools, capabilities, s, k, executionId);
    NothingYetIsMirrored(calls);
    BatchGrantsFit(w, p, items, tools, capabilities);
    var b := AuthorizeBatch(w, p, items);
    var (item, grant) := b.executable[k];
    RiskyAre(item.v.resolved);
    ExecutableIsAnItem(w, p, items, k);
    ResolvedToolsAreDistinct(item, p, tools, capabilities);
    var req := RequestOf(p, item, item.needsNetwork.value);
    if StandingOf(b.world.engine, req, RiskyIds(item.v.resolved)) == Approved { ApprovedStanding(b.world, req, item.v.resolved); }
  }

  lemma {:induction false} ExecutableIsAnItem(w: World, p: Plan, items: seq<Item>, k: nat)
    requires k < |AuthorizeBatch(w, p, items).executable|
    ensures AuthorizeBatch(w, p, items).executable[k].0 in items
  {
    hide AuthorizeWorker;
    var before := AuthorizeBatch(w, p, items[..|items| - 1]);
    if k < |before.executable| { ExecutableIsAnItem(w, p, items[..|items| - 1], k); }
  }

  // The grant is for this run, this worker or any, and the configured backend.
  ghost predicate InScope(s: Settings, grant: Grant, request: ExecutionRequest) {
    grant.runId == request.runId && grant.workerId in {request.workerId, "*"} && grant.backendId == s.backend
  }

  /**
   Whom the gateway lets through to the backend, and what everyone else gets: an error for a grant of another run, worker or
   backend, a denied result without an authorization or without the network that is needed, an unavailable one without backend.
   */
  lemma GatewayAnswersExactly(s: Settings, grant: Grant, request: ExecutionRequest, answer: BackendAnswer)
    ensures var admission := Admit(s, grant, request);
      var r := Execute(s, grant, request, answer);
      var covered := grant.authorized && InScope(s, grant, request) && (request.needsNetwork ==> grant.networkAllowed);
      && (admission == CallBackend <==> covered && s.backend in s.registered && s.backend in s.available)
      && (grant.authorized && !InScope(s, grant, request) ==> r.None?)
      && (!grant.authorized || (InScope(s, grant, request) && request.needsNetwork && !grant.networkAllowed) ==> r.Some? && r.value.status == Denied)
      && (covered && (s.backend !in s.registered || s.backend !in s.available) ==>
            r.Some? && r.value.status == Unavailable && r.value.backend == s.backend)
      && (r.Some? ==>
            r.value.executionId == request.executionId && r.value.runId == Some(request.runId) && r.value.workerId == Some(request.workerId))
  {
  }

  // ----- What the session shows of a worker's turn -----

  ghost predicate Shows(w: World, p: Plan, workerId: string, status: string) {
    p.runId in w.store && workerId in w.store[p.runId].outputs && w.store[p.runId].outputs[workerId].status == status
  }

  lemma NotedIsShown(w: World, p: Plan, item: Item, status: string, choice: Choice)
    requires choice != Aborted
    ensures var turn := Noted(w, p, item, status, choice);
      && turn.choice in {choice, Aborted} && (turn.choice == choice ==> Shows(turn.world, p, item.spec.workerId, status))
  {
  }

  lemma AgentIsShown(w: World, p: Plan, item: Item, grant: Grant)
    ensures var turn := AskAgent(w, p, item, grant);
      && !turn.choice.Skipped?
      && (turn.choice.Waiting? ==> Shows(turn.world, p, item.spec.workerId, "waiting_human"))
      && (turn.choice.WorkerError? ==> Shows(turn.world, p, item.spec.workerId, "error"))
      && (item.needsNetwork.None? ==> turn.choice in {WorkerError, Aborted})
  {
    hide Noted, Authorize, Shows;
    var network := Authorize(w, item.v, RequestOf(p, item, true), item.networkGate, item.now);
    NotedIsShown(w, p, item, "error", WorkerError);
    NotedIsShown(network.world, p, item, "error", WorkerError);
    if network.answer.Ok? && network.answer.value.gateId.Some? {
      NotedIsShown(network.world, p, item, "waiting_human", Waiting(network.answer.value.gateId.value));
    }
  }

  /** A worker is passed over exactly when its success is on record; one that waits or fails is shown so in the session. */
  lemma TurnIsShown(w: World, p: Plan, item: Item)
    ensures var turn := AuthorizeWorker(w, p, item);
      && (turn.choice.Skipped? <==> Shows(w, p, item.spec.workerId, "success"))
      && (turn.choice.Skipped? ==> turn.world == w)
      && (turn.choice.Waiting? ==> Shows(turn.world, p, item.spec.workerId, "waiting_human"))
      && (turn.choice.WorkerError? ==> Shows(turn.world, p, item.spec.workerId, "error"))
  {
    hide Noted, AuthorizeTools, AskAgent, FirstGrant;
    var tools := AuthorizeTools(w, p, item);
    if tools.answer.Ok? {
      AgentIsShown(tools.world, p, item, FirstGrant(p, item, tools.answer.value));
      if tools.answer.value.gateId.Some? {
        NotedIsShown(tools.world, p, item, "waiting_human", Waiting(tools.answer.value.gateId.value));
      }
    }
  }

  /** The executable and the waiting workers of a batch come in the order of the batch, so the first to wait is the one that pauses the run. */
  lemma {:induction false} BatchKeepsOrder(w: World, p: Plan, items: seq<Item>) returns (runs: seq<nat>, waits: seq<nat>)
    ensures var b := AuthorizeBatch(w, p, items);
      && |runs| == |b.executable| && (forall k :: 0 <= k < |runs| ==> runs[k] < |items| && b.executable[k].0 == items[runs[k]])
      && |waits| == |b.pending| && (forall k :: 0 <= k < |waits| ==> waits[k] < |items| && b.pending[k].0 == items[waits[k]])
      && (forall k, l :: 0 <= k < l < |runs| ==> runs[k] < runs[l]) && (forall k, l :: 0 <= k < l < |waits| ==> waits[k] < waits[l])
  {
    hide AuthorizeWorker;
    runs, waits := [], [];
    if items != [] {
      var n := |items| - 1;
      runs, waits := BatchKeepsOrder(w, p, items[..n]);
      var before, b := AuthorizeBatch(w, p, items[..n]), AuthorizeBatch(w, p, items);
      if |b.executable| > |before.executable| { runs := runs + [n]; }
      if |b.pending| > |before.pending| { waits := waits + [n]; }
    }
  }

  // ----- Answering -----

  /** A verdict is applied only to an open TOOL_RISK gate of that run, worker, backend and network scope, and grants just what it says. */
  lemma VerdictIsForItsGate(w: World, t: ToolVerdict)
    requires Mirrored(w) && ResolveToolGate(w, t).answer.Ok?
    ensures var grant := ResolveToolGate(w, t).answer.value;
      && (exists g :: g in w.engine.gates && g.gateId == t.gateId && g.kind == "TOOL_RISK" && g.runId == t.runId && g.status == Open
            && g.context.ToolContext? && g.context.workerId == t.workerId && g.context.backendId == t.backendId
            && g.context.needsNetwork == t.needsNetwork && t.decision in g.allowed)
      && grant.authorized == (t.decision == Approve) && grant.networkAllowed == (t.needsNetwork && t.decision == Approve)
      && grant.runId == t.runId && grant.workerId == t.workerId && grant.backendId == t.backendId && grant.gateId == Some(t.gateId)
      && !Blank(t.actor)
  {
    hide Mirrored, ValidGate, ValidDecision, Persist, Strip, Blank;
    assert Find(w.engine.gates, t.gateId).value in w.engine.gates;
  }

  /** What stops a verdict, and that it then changes nothing. */
  lemma ForeignVerdictIsRefused(w: World, t: ToolVerdict, g: ApprovalGate)
    requires Find(w.engine.gates, t.gateId) == Some(g)
    requires g.kind != "TOOL_RISK" || g.runId != t.runId || !g.context.ToolContext? || g.context.workerId != t.workerId
      || g.context.backendId != t.backendId || g.context.needsNetwork != t.needsNetwork
    ensures ResolveToolGate(w, t).world == w && ResolveToolGate(w, t).answer.Err?
  {
    hide ResolveOpenGate;
  }

  // ----- What the backend does -----

  /** What the gateway answers for each way the backend can end, once it was called. */
  lemma BackendEndings(s: Settings, grant: Grant, request: ExecutionRequest, answer: BackendAnswer)
    requires Admit(s, grant, request) == CallBackend
    ensures var r := Execute(s, grant, request, answer);
      match answer
      case TimedOut(message) => r.Some? && r.value.status == Timeout && r.value.output == message && r.value.backend == s.backend
      case Raised(message) => r.Some? && r.value.status == Error && r.value.output == message && r.value.backend == s.backend
      case Returned(result) =>
        && (r.Some? <==>
              result.executionId == request.executionId && result.backend == s.backend
              && result.runId in {None, Some(request.runId)} && result.workerId in {None, Some(request.workerId)})
        && (r.Some? ==> r.value.status == result.status && r.value.output == result.output)
  {
  }
}
