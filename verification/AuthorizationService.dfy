/** ToolAuthorizationService and the orchestrator's loop over the workers of a batch, as they change the approval engine. */
module AuthorizationServices {
  import opened Wrappers
  import opened Contracts
  import opened Ordering
  import opened Approvals
  import opened ApprovalEngines
  import opened Tools
  import opened ToolRegistries
  import opened Authorization
  import opened AuthorizationTheorems
  import opened AuthorizationNeeds

  class ToolAuthorizationService {
    const registry: ToolRegistry
    const approvals: HumanApprovalEngine

    ghost predicate Valid()
      reads registry, approvals, approvals.sessions.repository
    {
      registry.Valid() && approvals.Valid()
    }

    constructor (registry: ToolRegistry, approvals: HumanApprovalEngine)
      ensures this.registry == registry && this.approvals == approvals
    {
      this.registry, this.approvals := registry, approvals;
    }

    method FindMatchingGate(req: ToolRequest, risky: seq<string>) returns (gate: Option<ApprovalGate>)
      ensures gate == Matching(approvals.gates, req, risky)
    {
      hide Matches;
      var i := |approvals.gates|;
      assert approvals.gates[..i] == approvals.gates;
      while i > 0
        invariant 0 <= i <= |approvals.gates|
        invariant Matching(approvals.gates, req, risky) == Matching(approvals.gates[..i], req, risky)
      {
        assert approvals.gates[..i][..i - 1] == approvals.gates[..i - 1];
        i := i - 1;
        if Matches(approvals.gates[i], req, risky) { return Some(approvals.gates[i]); }
      }
      gate := None;
    }

    method RequestAuthorization(req: ToolRequest, gateId: string, now: string)
      returns (answer: Result<ToolDecision, AuthorizationError>, v: Validation)
      requires Valid()
      modifies approvals, approvals.sessions.repository
      ensures Valid()
      ensures Resolution(v, registry.tools, registry.capabilities.Keys, req.tools, req.capabilities, true)
      ensures AuthorizationReply(approvals.Abstract(), answer) == Authorize(old(approvals.Abstract()), v, req, gateId, now)
      ensures answer.Ok? ==>
        (answer.value.gateId.None? <==> !req.needsNetwork && forall t :: t in v.resolved ==> t.riskLevel != High && !t.requiresApproval)
    {
      hide ValidRequest, Resolution, RiskyIds, Approvals.RequestGate;
      v := registry.ValidateRequirements(req.tools, req.capabilities, true);
      if !ValidRequest(req) { return Err(InvalidRequest), v; }
      if !v.IsValid() { return Err(Unresolvable), v; }
      RiskyAre(v.resolved);
      var risky := RiskyIds(v.resolved);
      if risky == [] && !req.needsNetwork {
        return Ok(ToolDecision(v.resolved, None, Some(Unrestricted(req)))), v;
      }
      var matching := FindMatchingGate(req, risky);
      if matching.Some? && matching.value.status == Resolved {
        var gateId := matching.value.gateId;
        var recorded := approvals.GetDecision(gateId);
        if recorded.None? { return Err(NoRecordedDecision), v; }
        var grant := Decided(req, gateId, recorded.value.decision == Approve, req.needsNetwork);
        return Ok(ToolDecision(v.resolved, Some(gateId), Some(grant))), v;
      }
      if matching.Some? { return Ok(ToolDecision(v.resolved, Some(matching.value.gateId), None)), v; }
      var error := approvals.RequestGate(ToolGate(req, risky, gateId, now), true);
      if error.Some? { return Err(ApprovalFailed(error.value)), v; }
      answer := Ok(ToolDecision(v.resolved, Some(gateId), None));
    }

    method ResolveGate(t: ToolVerdict) returns (answer: Result<Grant, ResolutionError>)
      requires Valid()
      modifies approvals, approvals.sessions.repository
      ensures Valid()
      ensures ResolutionReply(approvals.Abstract(), answer) == ResolveToolGate(old(approvals.Abstract()), t)
    {
      hide ResolveOpenGate;
      var known := approvals.Known(t.gateId);
      if known.None? { return Err(Unresolved(UnknownGateId)); }
      var g := approvals.gates[known.value];
      if !BelongsTo(g, t) { return Err(NotThisRequest); }
      if g.context.backendId != t.backendId { return Err(OtherBackend); }
      if g.context.needsNetwork != t.needsNetwork { return Err(OtherNetwork); }
      var error := approvals.ResolveGate(t.gateId, t.decision, t.feedback, t.actor, t.timestamp, true);
      if error.Some? { return Err(Unresolved(error.value)); }
      var req := ToolRequest(t.runId, t.workerId, [], [], g.context.backendId, g.context.needsNetwork);
      answer := Ok(Decided(req, t.gateId, t.decision == Approve, g.context.needsNetwork));
    }
  }

  lemma ResolutionIsUnique(v: Validation, u: Validation, tools: Registered, capabilities: set<string>, requiredTools: seq<string>, requiredCapabilities: seq<string>)
    requires Resolution(v, tools, capabilities, requiredTools, requiredCapabilities, true)
    requires Resolution(u, tools, capabilities, requiredTools, requiredCapabilities, true)
    ensures v == u
  {
    hide SortStrings, Missing, Unmet, Union, ResolvedIds, Distinct;
    assert v.resolved == u.resolved;
  }

  const NOTHING_ASKED: Validation := Validation([], [], [], [], [])

  lemma NothingAskedResolves(tools: Registered, capabilities: set<string>)
    ensures Resolution(NOTHING_ASKED, tools, capabilities, [], [], true)
  {
    assert Distinct([]) == [] && SortStrings([]) == [];
    assert Explicit(tools, [], true) == [] && Missing(tools, [], true) == [];
    assert ResolvedIds(tools, capabilities, [], [], true) == [];
  }

  /** The part of execute_run that decides, worker by worker, who may run and who waits. */
  class IntegratedOrchestrator {
    const tools: ToolAuthorizationService

    constructor (tools: ToolAuthorizationService)
      ensures this.tools == tools
    {
      this.tools := tools;
    }

    // _mark_waiting_for_gate and _set_worker_error.
    method Note(p: Plan, item: Item, status: string, choice: Choice) returns (r: Choice)
      requires tools.Valid()
      modifies tools.approvals.sessions.repository
      ensures tools.Valid()
      ensures Turn(tools.approvals.Abstract(), r) == Noted(old(tools.approvals.Abstract()), p, item, status, choice)
    {
      var output := WorkerOutput(item.spec.workerId, p.runId, status, None);
      var error := tools.approvals.sessions.SetWorkerOutput(p.runId, output);
      r := if error.Some? then Aborted else choice;
    }

    method IsDone(p: Plan, workerId: string) returns (done: bool)
      ensures done == AlreadyDone(tools.approvals.Abstract(), p, workerId)
    {
      var found := tools.approvals.sessions.repository.Get(p.runId);
      done := found.Ok? && workerId in found.value.outputs && found.value.outputs[workerId].status == "success";
    }

    method AuthorizeTheNetwork(p: Plan, item: Item, grant: Grant) returns (choice: Choice)
      requires tools.Valid() && ResolvedBy(item, p, tools.registry.tools, tools.registry.capabilities.Keys)
      modifies tools.approvals, tools.approvals.sessions.repository
      ensures tools.Valid()
      ensures Turn(tools.approvals.Abstract(), choice) == AuthorizeNetwork(old(tools.approvals.Abstract()), p, item, grant)
    {
      hide Resolution, Authorize, Noted;
      var answer, v := tools.RequestAuthorization(RequestOf(p, item, true), item.networkGate, item.now);
      ResolutionIsUnique(v, item.v, tools.registry.tools, tools.registry.capabilities.Keys, item.spec.requiredTools, p.capabilities);
      if answer.Err? {
        choice := Note(p, item, "error", WorkerError);
        return;
      }
      var decision := answer.value;
      if decision.gateId.Some? && decision.grant.None? {
        choice := Note(p, item, "waiting_human", Waiting(decision.gateId.value));
        return;
      }
      choice := Ready(if decision.grant.Some? then decision.grant.value else grant);
    }

    method AuthorizeOne(p: Plan, spec: WorkerSpec, needsNetwork: Option<bool>, toolGate: string, networkGate: string, now: string)
      returns (item: Item, choice: Choice)
      requires tools.Valid()
      modifies tools.approvals, tools.approvals.sessions.repository
      ensures tools.Valid()
      ensures ResolvedBy(item, p, tools.registry.tools, tools.registry.capabilities.Keys)
      ensures item == Item(spec, item.v, needsNetwork, toolGate, networkGate, now)
      ensures Turn(tools.approvals.Abstract(), choice) == AuthorizeWorker(old(tools.approvals.Abstract()), p, item)
    {
      hide Resolution, Authorize, Noted, AuthorizeNetwork;
      item := Item(spec, NOTHING_ASKED, needsNetwork, toolGate, networkGate, now);
      var done := IsDone(p, spec.workerId);
      if done {
        var v := tools.registry.ValidateRequirements(spec.requiredTools, p.capabilities, true);
        return item.(v := v), Skipped;
      }
      var decision := ToolDecision([], None, None);
      if spec.requiredTools == [] && p.capabilities == [] {
        NothingAskedResolves(tools.registry.tools, tools.registry.capabilities.Keys);
      } else {
        var answer, v := tools.RequestAuthorization(RequestOf(p, item, false), toolGate, now);
        item := item.(v := v);
        if answer.Err? { return item, Aborted; }
        decision := answer.value;
      }
      if decision.gateId.Some? && decision.grant.None? {
        choice := Note(p, item, "waiting_human", Waiting(decision.gateId.value));
        return;
      }
      var grant := FirstGrant(p, item, decision);
      if needsNetwork.None? {
        choice := Note(p, item, "error", WorkerError);
      } else if needsNetwork.value && !grant.networkAllowed {
        choice := AuthorizeTheNetwork(p, item, grant);
      } else {
        choice := Ready(grant);
      }
    }

    // The first loop of execute_run over one batch. The agent's answers and the fresh gate ids come with the workers.
    method AuthorizeWorkers(p: Plan, workers: seq<WorkerSpec>, agent: seq<Option<bool>>, toolGates: seq<string>, networkGates: seq<string>, now: string)
      returns (executable: seq<(Item, Grant)>, pending: seq<(Item, string)>, aborted: bool, items: seq<Item>)
      requires tools.Valid()
      requires |agent| == |toolGates| == |networkGates| == |workers|
      modifies tools.approvals, tools.approvals.sessions.repository
      ensures tools.Valid()
      ensures |items| <= |workers| && (!aborted ==> |items| == |workers|)
      ensures forall i :: 0 <= i < |items| ==> items[i] == Item(workers[i], items[i].v, agent[i], toolGates[i], networkGates[i], now)
      ensures AllResolved(items, p, tools.registry.tools, tools.registry.capabilities.Keys)
      ensures Batch(tools.approvals.Abstract(), executable, pending, aborted) == AuthorizeBatch(old(tools.approvals.Abstract()), p, items)
    {
      hide AuthorizeWorker, ResolvedBy;
      executable, pending, aborted, items := [], [], false, [];
      for i := 0 to |workers|
        invariant tools.Valid() && !aborted && |items| == i
        invariant forall k :: 0 <= k < i ==> items[k] == Item(workers[k], items[k].v, agent[k], toolGates[k], networkGates[k], now)
        invariant AllResolved(items, p, tools.registry.tools, tools.registry.capabilities.Keys)
        invariant Batch(tools.approvals.Abstract(), executable, pending, false) == AuthorizeBatch(old(tools.approvals.Abstract()), p, items)
      {
        var item, choice := AuthorizeOne(p, workers[i], agent[i], toolGates[i], networkGates[i], now);
        ghost var before := items;
        items := items + [item];
        assert items[..|items| - 1] == before;
        match choice {
          case Skipped =>
          case WorkerError =>
          case Waiting(gateId) => pending := pending + [(item, gateId)];
          case Ready(grant) => executable := executable + [(item, grant)];
          case Aborted => aborted := true; return;
        }
      }
    }
  }
}
