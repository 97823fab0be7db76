/** IntegratedOrchestrator.resume_after_tool_gate as an object's method, up to the point where it runs execute_run again. */
module Orchestrators {
  import opened Wrappers
  import opened Contracts
  import opened Text
  import opened SessionStore
  import opened Approvals
  import opened RestartTransparency
  import opened Authorization
  import opened AuthorizationServices
  import opened Workflow
  import opened WorkflowStalls
  import opened Coordinators

  // What follows a script that has not raised.
  lemma {:induction false} PerformAppended(run: RunState, ops: seq<Op>, rest: seq<Op>)
    requires Succeeds(run, ops)
    ensures Perform(run, ops + rest) == Perform(Perform(run, ops), rest)
    decreases |ops|
  {
    hide PerformOp;
    if ops == [] {
      assert ops + rest == rest;
    } else {
      assert (ops + rest)[0] == ops[0] && (ops + rest)[1..] == ops[1..] + rest;
      PerformAppended(PerformOp(run, ops[0]).value, ops[1..], rest);
    }
  }

  lemma AfterAppended(store: Store, runId: string, ops: seq<Op>, rest: seq<Op>)
    requires runId in store && Succeeds(RunState(store[runId], map[]), ops)
    ensures After(store, runId, ops + rest) == After(After(store, runId, ops), runId, rest)
  {
    hide Perform, Succeeds;
    var run := Perform(RunState(store[runId], map[]), ops);
    PerformAppended(RunState(store[runId], map[]), ops, rest);
    ScriptIgnoresOpenings(run.rec, run.openings, map[], rest);
  }

  lemma OnePerformed(store: Store, runId: string, op: Op)
    requires runId in store
    ensures After(store, runId, [op]) == match Persist(store, runId, op, true) case Some(s) => s case None => store
    ensures Succeeds(RunState(store[runId], map[]), [op]) <==> Persist(store, runId, op, true).Some?
  {
    hide Apply;
    var run := RunState(store[runId], map[]);
    RecOnly(run, op);
    assert [op][1..] == [];
    assert Perform(run, [op]) == match PerformOp(run, op) case Some(r) => Perform(r, []) case None => run;
    assert store[runId := store[runId]] == store;
  }

  // Resolving the gate in the engine does to its session what the first operation of the resume script does.
  lemma ResolvingPerforms(w: World, t: ToolVerdict)
    requires Mirrored(w) && t.runId in w.store
    requires Find(w.engine.gates, t.gateId).Some? && BelongsTo(Find(w.engine.gates, t.gateId).value, t)
    requires Find(w.engine.gates, t.gateId).value.context.backendId == t.backendId
    requires Find(w.engine.gates, t.gateId).value.context.needsNetwork == t.needsNetwork
    ensures var script := AnswerScript(w.store[t.runId], t.gateId, t.decision, t.feedback, t.actor, t.timestamp);
      var r := ResolveToolGate(w, t);
      && Mirrored(r.world)
      && r.world.store == After(w.store, t.runId, script)
      && (r.answer.Ok? <==> script != [] && Succeeds(RunState(w.store[t.runId], map[]), script))
      && (r.answer.Ok? ==> r.answer.value.authorized == (t.decision == Approve))
  {
    hide Mirrored, ValidGate, ValidDecision, GateIndex, Persist, Strip, Blank, Perform, Succeeds;
    var g := Find(w.engine.gates, t.gateId).value;
    FoundInRecord(w, g);
    KnownId(w, t.gateId);
    ResolveKeepsMirrored(w, t.gateId, t.decision, t.feedback, t.actor, t.timestamp, true);
    NothingPerformed(w.store, t.runId);
    OnePerformed(w.store, t.runId, ResolveGate(AsResolved(g, t.timestamp), Recorded(g, t.decision, t.feedback, t.actor, t.timestamp)));
  }

  lemma UnknownEverywhere(w: World, runId: string, gateId: string)
    requires Mirrored(w) && runId in w.store && Find(w.engine.gates, gateId).None?
    ensures Find(w.store[runId].gates, gateId).None?
  {
    hide Mirrored;
    if Find(w.store[runId].gates, gateId).Some? { FoundInEngine(w, runId, gateId); }
  }

  // A gate that does not belong to the request does not belong to it in the session either.
  lemma ForeignEverywhere(w: World, t: ToolVerdict)
    requires Mirrored(w) && t.runId in w.store && Find(w.engine.gates, t.gateId).Some?
    ensures Find(w.store[t.runId].gates, t.gateId).Some? ==>
      Find(w.store[t.runId].gates, t.gateId) == Find(w.engine.gates, t.gateId)
    ensures BelongsTo(Find(w.engine.gates, t.gateId).value, t) ==> Find(w.store[t.runId].gates, t.gateId).Some?
  {
    hide Mirrored;
    if Find(w.store[t.runId].gates, t.gateId).Some? { FoundInEngine(w, t.runId, t.gateId); }
    FoundInRecord(w, Find(w.engine.gates, t.gateId).value);
  }

  lemma OutputCommits(run: RunState, done: seq<Op>, o: WorkerOutput)
    requires Succeeds(run, done) && Perform(run, done).rec.runId == o.runId
    ensures Succeeds(run, done + [SetOutput(o)])
    ensures Perform(run, done + [SetOutput(o)]).rec.state == Perform(run, done).rec.state
    ensures Perform(run, done + [SetOutput(o)]).rec.messages == Perform(run, done).rec.messages
  {
    OneMore(run, done, SetOutput(o));
  }

  lemma AnswerKeepsState(run: RunState, gateId: string, decision: DecisionType, feedback: string, actor: string, now: string)
    ensures var script := AnswerScript(run.rec, gateId, decision, feedback, actor, now);
      var rec := Perform(run, script).rec;
      rec.runId == run.rec.runId && rec.state == run.rec.state && rec.messages == run.rec.messages
  {
    hide ValidGate, ValidDecision, GateIndex, Strip, Blank, Find;
    var script := AnswerScript(run.rec, gateId, decision, feedback, actor, now);
    if script != [] {
      assert script[1..] == [];
      assert Perform(run, script) == match PerformOp(run, script[0]) case Some(r) => Perform(r, []) case None => run;
    }
  }

  lemma ResumingSucceeds(run: RunState, done: seq<Op>, o: WorkerOutput)
    requires Succeeds(run, done) && Perform(run, done).rec.runId == o.runId && Perform(run, done).rec.state == WorkerWaitingHuman
    ensures Succeeds(run, (done + [SetOutput(o)]) + [Transition(Executing)])
  {
    OutputCommits(run, done, o);
    OneMore(run, done + [SetOutput(o)], Transition(Executing));
  }

  // An answer that the engine may give is stored: an open gate of a mirrored session has no decision yet.
  lemma AnswerSucceeds(rec: SessionRecord, t: ToolVerdict)
    requires Settled(rec)
    ensures var script := AnswerScript(rec, t.gateId, t.decision, t.feedback, t.actor, t.timestamp);
      script != [] ==> Succeeds(RunState(rec, map[]), script)
  {
    hide ValidGate, ValidDecision, Blank, Strip, GateIndex, DecisionsOf, UniqueResults, UniqueDecisions, UniqueGates, GatesSettled, DecisionsSettled;
    var script := AnswerScript(rec, t.gateId, t.decision, t.feedback, t.actor, t.timestamp);
    if script != [] {
      OpenGateHasNoDecision(rec, Find(rec.gates, t.gateId).value);
      assert script[1..] == [];
      assert PerformOp(RunState(rec, map[]), script[0]).Some?;
      assert Succeeds(PerformOp(RunState(rec, map[]), script[0]).value, []);
    }
  }

  lemma SettledSession(w: World, runId: string)
    requires Mirrored(w) && runId in w.store
    ensures Settled(w.store[runId])
  {
    assert RunMirrored(w.engine.gates, w.store[runId], runId);
  }

  class RunOrchestrator {
    const coordinator: RuntimeCoordinator
    const tools: ToolAuthorizationService
    // settings.execution_backend
    const backendId: string

    ghost predicate Valid()
      reads coordinator.approvals, coordinator.sessions.repository, coordinator.approvals.sessions.repository
      reads tools.registry, tools.approvals, tools.approvals.sessions.repository
    {
      coordinator.Valid() && tools.Valid() && tools.approvals == coordinator.approvals
    }

    constructor (coordinator: RuntimeCoordinator, tools: ToolAuthorizationService, backendId: string)
      ensures this.coordinator == coordinator && this.tools == tools && this.backendId == backendId
    {
      this.coordinator, this.tools, this.backendId := coordinator, tools, backendId;
    }

    method ResumeAfterToolGate(
        runId: string, gateId: string, decision: DecisionType, workerId: string, feedback: string, actor: string, now: string, ghost cfg: Config)
      returns (resumes: bool)
      requires Valid() && cfg.maxRevisions == coordinator.revisions.maxRevisions && cfg.backendId == backendId
      modifies coordinator.sessions.repository, coordinator.approvals
      ensures coordinator.Valid()
      ensures runId !in old(coordinator.sessions.repository.rows) ==>
        !resumes && coordinator.sessions.repository.rows == old(coordinator.sessions.repository.rows)
      ensures runId in old(coordinator.sessions.repository.rows) ==>
        var rec := old(coordinator.sessions.repository.rows)[runId];
        var t := ToolVerdict(gateId, decision, runId, workerId, feedback, actor, backendId, false, now);
        && coordinator.sessions.repository.rows == After(old(coordinator.sessions.repository.rows), runId, ResumeScript(cfg, rec, t))
        && (resumes ==> decision == Approve && coordinator.sessions.repository.rows[runId].state == Executing)
        && (resumes <==> decision == Approve && ResumeScript(cfg, rec, t) != [])
    {
      hide Perform, PerformOp, Succeeds, Mirrored, GateIndex, AnswerScript, RevisionScript, Revisions, ResolveToolGate;
      ghost var w := coordinator.approvals.Abstract();
      var found := coordinator.sessions.repository.Get(runId);
      if found.Err? { return false; }
      ghost var before := coordinator.sessions.repository.rows;
      var record := found.value;
      RunIdOf(w, runId);
      NothingPerformed(before, runId);
      if record.state != WorkerWaitingHuman { return false; }
      var known := coordinator.approvals.Known(gateId);
      if known.None? { UnknownEverywhere(w, runId, gateId); return false; }
      var gate := coordinator.approvals.gates[known.value];
      var needsNetwork := gate.context.ToolContext? && gate.context.needsNetwork;
      var t := ToolVerdict(gateId, decision, runId, workerId, feedback, actor, backendId, needsNetwork, now);
      ForeignEverywhere(w, t);
      var answer := tools.ResolveGate(t);
      ghost var resolved := coordinator.approvals.Abstract();
      if !BelongsTo(gate, t) || gate.context.backendId != backendId {
        RefusedBelow(w, t);
        return false;
      }
      ResolvingPerforms(w, t);
      SettledSession(w, runId);
      AnswerSucceeds(record, t);
      ghost var script := AnswerScript(record, gateId, decision, feedback, actor, now);
      if answer.Err? {
        StopsThere(cfg, before, record, t);
        return false;
      }
      resumes := Continue(record, t, before, script, cfg);
    }

    // What follows once the gate is resolved.
    method Continue(record: SessionRecord, t: ToolVerdict, ghost before: Store, ghost script: seq<Op>, ghost cfg: Config) returns (resumes: bool)
      requires Valid() && cfg.maxRevisions == coordinator.revisions.maxRevisions
      requires t.runId in before && record == before[t.runId] && record.runId == t.runId && record.state == WorkerWaitingHuman
      requires script == AnswerScript(record, t.gateId, t.decision, t.feedback, t.actor, t.timestamp)
      requires coordinator.sessions.repository.rows == After(before, t.runId, script) && Succeeds(RunState(record, map[]), script)
      modifies coordinator.sessions.repository
      ensures coordinator.Valid()
      ensures coordinator.sessions.repository.rows == After(before, t.runId, script
        + [SetOutput(WorkerOutput(t.workerId, record.runId, if t.decision == Approve then "approved" else "denied", None))]
        + (if t.decision == Approve then [Transition(Executing)] else RevisionScript(cfg.maxRevisions, WorkerWaitingHuman, |Revisions(record.messages)|)))
      ensures resumes ==> t.decision == Approve && coordinator.sessions.repository.rows[t.runId].state == Executing
      ensures resumes <==> t.decision == Approve
    {
      hide Perform, PerformOp, Succeeds, Mirrored, AnswerScript, RevisionScript, Revisions;
      ghost var w := coordinator.approvals.Abstract();
      ghost var run := RunState(record, map[]);
      AnswerKeepsState(run, t.gateId, t.decision, t.feedback, t.actor, t.timestamp);
      var output := WorkerOutput(t.workerId, t.runId, if t.decision == Approve then "approved" else "denied", None);
      var refused := coordinator.sessions.SetWorkerOutput(t.runId, output);
      CallPerforms(before, w.store, coordinator.sessions.repository.rows, t.runId, script, SetOutput(output), refused);
      PerformedKeepsMirrored(w, coordinator.sessions.repository.rows, t.runId, SetOutput(output), refused);
      OutputCommits(run, script, output);
      ResumingSucceeds(run, script, output);
      ghost var done := script + [SetOutput(output)];
      ghost var middle := coordinator.sessions.repository.rows;
      if t.decision == Approve {
        refused := coordinator.sessions.TransitionTo(t.runId, Executing);
        CallPerforms(before, middle, coordinator.sessions.repository.rows, t.runId, done, Transition(Executing), refused);
        PerformedKeepsMirrored(w.(store := middle), coordinator.sessions.repository.rows, t.runId, Transition(Executing), refused);
        return refused.None?;
      }
      var revised := coordinator.revisions.RequestRevision(t.runId, cfg);
      AfterAppended(before, t.runId, done, RevisionScript(cfg.maxRevisions, WorkerWaitingHuman, |Revisions(record.messages)|));
      RevisionKeepsMirrored(w.(store := middle), t.runId, cfg, WorkerWaitingHuman, |Revisions(record.messages)|);
      resumes := false;
    }
  }

  lemma RefusedBelow(w: World, t: ToolVerdict)
    requires Find(w.engine.gates, t.gateId).Some?
    requires !BelongsTo(Find(w.engine.gates, t.gateId).value, t) || Find(w.engine.gates, t.gateId).value.context.backendId != t.backendId
    ensures ResolveToolGate(w, t).world == w
  {
    hide ResolveOpenGate;
  }

  // A resolution that raises leaves nothing more to perform.
  lemma StopsThere(cfg: Config, before: Store, rec: SessionRecord, t: ToolVerdict)
    requires t.runId in before && before[t.runId] == rec && rec.state == WorkerWaitingHuman
    requires Find(rec.gates, t.gateId).Some? && BelongsTo(Find(rec.gates, t.gateId).value, t)
    requires Find(rec.gates, t.gateId).value.context.backendId == cfg.backendId
    requires var script := AnswerScript(rec, t.gateId, t.decision, t.feedback, t.actor, t.timestamp);
      script == [] || !Succeeds(RunState(rec, map[]), script)
    ensures var script := AnswerScript(rec, t.gateId, t.decision, t.feedback, t.actor, t.timestamp);
      After(before, t.runId, ResumeScript(cfg, rec, t)) == After(before, t.runId, script)
  {
    hide Perform, PerformOp, Succeeds, AnswerScript, RevisionScript, Revisions, GateIndex;
    var script := AnswerScript(rec, t.gateId, t.decision, t.feedback, t.actor, t.timestamp);
    if script != [] {
      var rest := [SetOutput(WorkerOutput(t.workerId, rec.runId, if t.decision == Approve then "approved" else "denied", None))]
        + (if t.decision == Approve then [Transition(Executing)] else RevisionScript(cfg.maxRevisions, WorkerWaitingHuman, |Revisions(rec.messages)|));
      NothingMore(RunState(rec, map[]), script, rest);
      assert ResumeScript(cfg, rec, t) == script + rest;
    }
  }
}
