/** RevisionService and RuntimeCoordinator as objects: each method performs the script of its command. */
module Coordinators {
  import opened Wrappers
  import opened Contracts
  import opened SessionStore
  import opened SessionManagers
  import opened Approvals
  import opened ApprovalEngines
  import opened RestartTransparency
  import opened Supervisor
  import opened Workflow
  import opened WorkflowScripts

  // The store after the operations of a script were performed on one of its sessions.
  function After(store: Store, runId: string, ops: seq<Op>): Store
    requires runId in store
  {
    store[runId := Perform(RunState(store[runId], map[]), ops).rec]
  }

  lemma {:induction false} ScriptIgnoresOpenings(rec: SessionRecord, a: map<string, SessionRecord>, b: map<string, SessionRecord>, ops: seq<Op>)
    ensures Perform(RunState(rec, a), ops).rec == Perform(RunState(rec, b), ops).rec
    decreases |ops|
  {
    if ops != [] {
      hide Apply;
      match PerformOp(RunState(rec, a), ops[0]) {
        case None =>
        case Some(run) => ScriptIgnoresOpenings(run.rec, run.openings, PerformOp(RunState(rec, b), ops[0]).value.openings, ops[1..]);
      }
    }
  }

  // One more manager call at the end of a script that has not raised so far.
  lemma {:induction false} OneMore(run: RunState, ops: seq<Op>, op: Op)
    requires Succeeds(run, ops)
    ensures Perform(run, ops + [op]) == match PerformOp(Perform(run, ops), op) case Some(r) => r case None => Perform(run, ops)
    ensures Succeeds(run, ops + [op]) <==> PerformOp(Perform(run, ops), op).Some?
    decreases |ops|
  {
    hide PerformOp;
    if ops == [] {
      assert [] + [op] == [op] && [op][1..] == [];
    } else {
      assert (ops + [op])[0] == ops[0] && (ops + [op])[1..] == ops[1..] + [op];
      OneMore(PerformOp(run, ops[0]).value, ops[1..], op);
    }
  }

  // No operation of the script raises.
  predicate Succeeds(run: RunState, ops: seq<Op>)
    decreases |ops|
  {
    ops == [] || (PerformOp(run, ops[0]).Some? && Succeeds(PerformOp(run, ops[0]).value, ops[1..]))
  }

  // A script that has raised performs nothing more.
  lemma {:induction false} NothingMore(run: RunState, ops: seq<Op>, rest: seq<Op>)
    requires !Succeeds(run, ops)
    ensures Perform(run, ops + rest) == Perform(run, ops)
    ensures !Succeeds(run, ops + rest)
    decreases |ops|
  {
    hide PerformOp;
    assert (ops + rest)[0] == ops[0] && (ops + rest)[1..] == ops[1..] + rest;
    if PerformOp(run, ops[0]).Some? { NothingMore(PerformOp(run, ops[0]).value, ops[1..], rest); }
  }

  // What a manager call does to a store in which some operations of a script have been performed.
  lemma CallPerforms(before: Store, store: Store, store': Store, runId: string, ops: seq<Op>, op: Op, error: Option<OpError>)
    requires runId in before && store == After(before, runId, ops) && Succeeds(RunState(before[runId], map[]), ops)
    requires runId in store && Performed(store, store', runId, op, error)
    ensures store' == After(before, runId, ops + [op])
    ensures error == None <==> Succeeds(RunState(before[runId], map[]), ops + [op])
  {
    hide Apply;
    var run := RunState(before[runId], map[]);
    OneMore(run, ops, op);
    RecOnly(Perform(run, ops), op);
  }

  lemma RecOnly(run: RunState, op: Op)
    ensures PerformOp(run, op).Some? <==> !Apply(run.rec, op).Refused?
    ensures Apply(run.rec, op).Commit? ==> PerformOp(run, op).value.rec == Apply(run.rec, op).record.(revision := run.rec.revision + 1)
    ensures Apply(run.rec, op).Unchanged? ==> PerformOp(run, op) == Some(run)
  {
    hide Apply;
  }

  datatype RevisionError = WrongState | LimitReached | UnknownRun | StorageError

  class RevisionService {
    const sessions: SessionManager
    const maxRevisions: nat

    constructor (sessions: SessionManager, maxRevisions: nat)
      ensures this.sessions == sessions && this.maxRevisions == maxRevisions
    {
      this.sessions, this.maxRevisions := sessions, maxRevisions;
    }

    // list_revisions, and the count in request_revision.
    method ListRevisions(messages: seq<Message>) returns (revisions: seq<nat>)
      ensures revisions == Revisions(messages)
    {
      revisions := [];
      for i := 0 to |messages|
        invariant revisions == Revisions(messages[..i])
      {
        assert messages[..i + 1][..i] == messages[..i];
        match messages[i].note {
          case RevisionNote(n) => revisions := revisions + [n];
          case _ =>
        }
      }
      assert messages[..|messages|] == messages;
    }

    method RequestRevision(runId: string, ghost cfg: Config) returns (r: Result<nat, RevisionError>)
      requires sessions.repository.Valid() && cfg.maxRevisions == maxRevisions
      modifies sessions.repository
      ensures sessions.repository.Valid()
      ensures runId !in old(sessions.repository.rows) ==> r.Err? && sessions.repository.rows == old(sessions.repository.rows)
      ensures runId in old(sessions.repository.rows) ==>
        var rec := old(sessions.repository.rows)[runId];
        var script := RevisionScript(cfg.maxRevisions, rec.state, |Revisions(rec.messages)|);
        && sessions.repository.rows == After(old(sessions.repository.rows), runId, script)
        && (r.Ok? <==> script != [])
        && (r.Ok? ==> r.value == |Revisions(rec.messages)| + 1)
    {
      hide Perform, Revisions, PerformOp, Succeeds;
      var found := sessions.repository.Get(runId);
      if found.Err? { return Err(UnknownRun); }
      var record := found.value;
      ghost var before := sessions.repository.rows;
      ghost var run := RunState(record, map[]);
      NothingPerformed(before, runId);
      if !Revisable(record.state) { return Err(WrongState); }
      var revisions := ListRevisions(record.messages);
      if |revisions| >= maxRevisions { return Err(LimitReached); }
      ghost var done: seq<Op> := [];
      if record.state != Revision {
        var error := sessions.TransitionTo(runId, Revision);
        CallPerforms(before, before, sessions.repository.rows, runId, [], Transition(Revision), error);
        done := [Transition(Revision)];
        assert [] + [Transition(Revision)] == done;
        EntersRevision(run);
      }
      ghost var middle := sessions.repository.rows;
      var error := sessions.TransitionTo(runId, Architecting);
      CallPerforms(before, middle, sessions.repository.rows, runId, done, Transition(Architecting), error);
      LeavesRevision(run, done);
      middle := sessions.repository.rows;
      error := sessions.Add(runId, RevisionMessage(|revisions| + 1));
      CallPerforms(before, middle, sessions.repository.rows, runId, done + [Transition(Architecting)], AddMessage(RevisionMessage(|revisions| + 1)), error);
      assert (done + [Transition(Architecting)]) + [AddMessage(RevisionMessage(|revisions| + 1))]
          == RevisionScript(cfg.maxRevisions, record.state, |revisions|);
      r := Ok(|revisions| + 1);
    }
  }

  lemma NothingPerformed(store: Store, runId: string)
    requires runId in store
    ensures After(store, runId, []) == store && Succeeds(RunState(store[runId], map[]), [])
  {
  }

  lemma EntersRevision(run: RunState)
    requires Revisable(run.rec.state) && run.rec.state != Revision
    ensures Succeeds(run, [Transition(Revision)]) && Perform(run, [Transition(Revision)]).rec.state == Revision
  {
    assert [Transition(Revision)][1..] == [];
  }

  lemma LeavesRevision(run: RunState, done: seq<Op>)
    requires Succeeds(run, done) && Perform(run, done).rec.state == Revision
    ensures Succeeds(run, done + [Transition(Architecting)])
  {
    OneMore(run, done, Transition(Architecting));
  }

  // The engine and the record agree on which decisions are recorded.
  lemma RecordedInBoth(w: World, d: HumanDecision)
    requires Mirrored(w)
    ensures IsRecorded(w.engine, d) <==> d.runId in w.store && IsRecordedIn(w.store[d.runId], d)
  {
    hide ValidDecision, Mirrored, Find, Decision, FindDecision;
    if IsRecorded(w.engine, d) {
      RecordedIsStored(w, d);
      FoundInRecord(w, Find(w.engine.gates, d.gateId).value);
    }
    if d.runId in w.store && IsRecordedIn(w.store[d.runId], d) {
      FoundInEngine(w, d.runId, d.gateId);
      StoredIsDecided(w, Find(w.engine.gates, d.gateId).value, d);
    }
  }

  lemma FoundInRecord(w: World, g: ApprovalGate)
    requires Mirrored(w) && g in w.engine.gates
    ensures g.runId in w.store && Find(w.store[g.runId].gates, g.gateId) == Some(g)
  {
    KnownGate(w, g);
    FindMember(w.store[g.runId].gates, g);
    hide ValidGate, Mirrored;
  }

  lemma FoundInEngine(w: World, runId: string, gateId: string)
    requires Mirrored(w) && runId in w.store && Find(w.store[runId].gates, gateId).Some?
    ensures Find(w.engine.gates, gateId) == Find(w.store[runId].gates, gateId)
    ensures Find(w.engine.gates, gateId).value.runId == runId
  {
    hide ValidGate, Settled;
    var g := Find(w.store[runId].gates, gateId).value;
    assert RunMirrored(w.engine.gates, w.store[runId], runId);
    GatesOfMembers(w.engine.gates, runId);
    FindMember(w.engine.gates, g);
  }

  lemma StoredIsDecided(w: World, g: ApprovalGate, d: HumanDecision)
    requires Mirrored(w) && g in w.engine.gates && g.status == Resolved && g.gateId == d.gateId
    requires g.runId in w.store && FindDecision(w.store[g.runId].decisions, d.gateId) == Some(d)
    ensures Decision(w.engine, d.gateId) == Some(d)
  {
    hide ValidGate, Mirrored, DecisionsOf;
    KnownGate(w, g);
    DecisionsOfMembers(w.store[g.runId].decisions, d.gateId);
    assert d in w.engine.decisions[g.gateId];
  }

  datatype CoordinatorError = BadState | NotRecordedDecision | WrongGate | NoEvidence | EvidenceMismatch | Unbound | Unsupported | NotStored

  class RuntimeCoordinator {
    const sessions: SessionManager
    const approvals: HumanApprovalEngine
    const revisions: RevisionService

    ghost predicate Valid()
      reads approvals, sessions.repository, approvals.sessions.repository
    {
      && approvals.sessions == sessions && revisions.sessions == sessions
      && sessions.repository.Valid() && approvals.Valid() && Mirrored(approvals.Abstract())
    }

    constructor (sessions: SessionManager, approvals: HumanApprovalEngine, revisions: RevisionService)
      ensures this.sessions == sessions && this.approvals == approvals && this.revisions == revisions
    {
      this.sessions, this.approvals, this.revisions := sessions, approvals, revisions;
    }

    // _validate_recorded_decision.
    method ValidateRecordedDecision(d: HumanDecision) returns (ok: bool)
      requires Valid()
      ensures ok <==> d.runId in sessions.repository.rows && IsRecordedIn(sessions.repository.rows[d.runId], d)
    {
      hide ValidDecision, Mirrored, GateIndex;
      RecordedInBoth(approvals.Abstract(), d);
      if !ValidDecision(d) { return false; }
      var known := approvals.Known(d.gateId);
      if known.None? { return false; }
      var g := approvals.gates[known.value];
      if g.runId != d.runId || g.status != Resolved { return false; }
      var recorded := approvals.GetDecision(d.gateId);
      ok := recorded == Some(d);
    }

    // _recorded_supervisor_hash.
    method RecordedSupervisorHash(messages: seq<Message>, runId: string) returns (r: Result<Option<Digest>, HashError>)
      ensures r == RecordedHash(messages, runId)
    {
      var i := |messages|;
      assert messages[..i] == messages;
      while i > 0
        invariant 0 <= i <= |messages|
        invariant RecordedHash(messages, runId) == RecordedHash(messages[..i], runId)
      {
        assert messages[..i][..i - 1] == messages[..i - 1];
        i := i - 1;
        match messages[i].note {
          case QaNote(qa, Some(h)) =>
            if qa.runId == runId && qa.status == Pass {
              if h != Sha256(qa) { return Err(HashMismatch); }
              return Ok(Some(h));
            }
          case _ =>
        }
      }
      r := Ok(None);
    }

    method ApplyArchitectureDecision(d: HumanDecision, ghost cfg: Config) returns (error: Option<CoordinatorError>)
      requires Valid() && cfg.maxRevisions == revisions.maxRevisions
      modifies sessions.repository
      ensures Valid()
      ensures d.runId !in old(sessions.repository.rows) ==> error.Some? && sessions.repository.rows == old(sessions.repository.rows)
      ensures d.runId in old(sessions.repository.rows) ==>
        var rec := old(sessions.repository.rows)[d.runId];
        && sessions.repository.rows == After(old(sessions.repository.rows), d.runId, Script(cfg, rec, ArchitectureDecision(d)))
        && (error == None ==> sessions.repository.rows[d.runId].state in {Executing, Rejected})
        && (error == None <==> rec.state == WaitingArchitectApproval && IsRecordedIn(rec, d) && d.decision in {Approve, Reject})
    {
      hide Perform, PerformOp, Succeeds, IsRecordedIn, Mirrored, Revisions, Apply, Script, RevisionScript;
      var found := sessions.repository.Get(d.runId);
      if found.Err? { return Some(BadState); }
      ghost var before := sessions.repository.rows;
      ghost var w := approvals.Abstract();
      NothingPerformed(before, d.runId);
      ArchitectureScript(cfg, found.value, d);
      if found.value.state != WaitingArchitectApproval { return Some(BadState); }
      var ok := ValidateRecordedDecision(d);
      if !ok { return Some(NotRecordedDecision); }
      var refused := sessions.AddHumanDecision(d.runId, d);
      ConfirmedOnly(before, sessions.repository.rows, d, refused);
      match d.decision {
        case Approve =>
          refused := sessions.TransitionTo(d.runId, Executing);
          ThenMoves(before, sessions.repository.rows, d, Executing, refused);
          PerformedKeepsMirrored(w, sessions.repository.rows, d.runId, Transition(Executing), refused);
        case Reject =>
          refused := sessions.TransitionTo(d.runId, Rejected);
          ThenMoves(before, sessions.repository.rows, d, Rejected, refused);
          PerformedKeepsMirrored(w, sessions.repository.rows, d.runId, Transition(Rejected), refused);
        case _ =>
          var r := revisions.RequestRevision(d.runId, cfg);
          RevisionKeepsMirrored(w, d.runId, cfg, WaitingArchitectApproval, |Revisions(found.value.messages)|);
          return Some(Unsupported);
      }
      error := if refused.Some? then Some(NotStored) else None;
    }

    // build_architecture in ARCHITECTING, once the architect has returned a plan.
    method BuildArchitecture(runId: string, plan: ArchitecturePlan, gateId: string, now: string, ghost cfg: Config)
      returns (error: Option<CoordinatorError>)
      requires Valid() && Find(approvals.gates, gateId).None?
      modifies sessions.repository, approvals
      ensures Valid()
      ensures runId !in old(sessions.repository.rows) ==> error.Some? && sessions.repository.rows == old(sessions.repository.rows)
      ensures runId in old(sessions.repository.rows) ==>
        var rec := old(sessions.repository.rows)[runId];
        && sessions.repository.rows == After(old(sessions.repository.rows), runId, Script(cfg, rec, Build(plan, gateId, now)))
        && (error == None <==> rec.state == Architecting && ValidGate(ArchitectureGate(runId, gateId, plan, now)))
    {
      hide Perform, PerformOp, Succeeds, Mirrored, GateIndex, ValidGate;
      var found := sessions.repository.Get(runId);
      if found.Err? { return Some(BadState); }
      ghost var before := sessions.repository.rows;
      ghost var w := approvals.Abstract();
      NothingPerformed(before, runId);
      if found.value.state != Architecting { return Some(BadState); }
      RunIdOf(w, runId);
      var refused := sessions.SetArchitecturePlan(runId, plan);
      CallPerforms(before, before, sessions.repository.rows, runId, [], SetPlan(plan), refused);
      PerformedKeepsMirrored(w, sessions.repository.rows, runId, SetPlan(plan), refused);
      ghost var done := [SetPlan(plan)];
      assert [] + done == done;
      MayAwaitArchitect(RunState(found.value, map[]), plan);
      ghost var middle := sessions.repository.rows;
      refused := sessions.TransitionTo(runId, WaitingArchitectApproval);
      CallPerforms(before, middle, sessions.repository.rows, runId, done, Transition(WaitingArchitectApproval), refused);
      PerformedKeepsMirrored(w.(store := middle), sessions.repository.rows, runId, Transition(WaitingArchitectApproval), refused);
      done := done + [Transition(WaitingArchitectApproval)];
      error := OpenGate(runId, ArchitectureGate(runId, gateId, plan, now), before, done);
      assert done + GateRequest(ArchitectureGate(runId, gateId, plan, now)) == Script(cfg, found.value, Build(plan, gateId, now));
    }

    // approvals.request_gate at the end of a script.
    method OpenGate(runId: string, gate: ApprovalGate, ghost before: Store, ghost done: seq<Op>) returns (error: Option<CoordinatorError>)
      requires Valid() && Find(approvals.gates, gate.gateId).None?
      requires gate.runId == runId && gate.status == Open && gate.resolvedAt == None
      requires runId in before && sessions.repository.rows == After(before, runId, done) && Succeeds(RunState(before[runId], map[]), done)
      modifies sessions.repository, approvals
      ensures Valid()
      ensures sessions.repository.rows == After(before, runId, done + GateRequest(gate))
      ensures error == None <==> ValidGate(gate)
    {
      hide Perform, PerformOp, Succeeds, Mirrored, GateIndex, ValidGate;
      ghost var middle := sessions.repository.rows;
      ghost var w := approvals.Abstract();
      RequestSucceeds(w, gate);
      var failed := approvals.RequestGate(gate, true);
      RequestKeepsMirrored(w, gate, true);
      if ValidGate(gate) {
        RequestPerforms(w, gate);
        CallPerforms(before, middle, sessions.repository.rows, runId, done, AddGate(gate), GateError(middle, gate));
      } else {
        InvalidIsRefused(w, gate);
        assert done + [] == done;
      }
      error := if failed.Some? then Some(NotStored) else None;
    }

    method RecordSupervisorResult(qa: QaResult, order: seq<string>, gateId: string, now: string, ghost cfg: Config)
      returns (error: Option<CoordinatorError>)
      requires Valid() && Find(approvals.gates, gateId).None?
      requires qa.runId in sessions.repository.rows ==> Enumerates(order, sessions.repository.rows[qa.runId].outputs)
      modifies sessions.repository, approvals
      ensures Valid()
      ensures qa.runId !in old(sessions.repository.rows) ==> error.Some? && sessions.repository.rows == old(sessions.repository.rows)
      ensures qa.runId in old(sessions.repository.rows) ==>
        var rec := old(sessions.repository.rows)[qa.runId];
        if qa.status == Pass && rec.state == Supervising && rec.plan.Some? && Evaluate(EvidenceOf(rec, order)) == Ok(qa)
        then sessions.repository.rows == After(old(sessions.repository.rows), qa.runId, VerdictScript(cfg, rec, qa, gateId, now))
             && (error == None <==> ValidGate(FinalGate(qa.runId, gateId, Sha256(qa), now)))
        else error.Some? && sessions.repository.rows == old(sessions.repository.rows)
    {
      hide Perform, PerformOp, Succeeds, Mirrored, Evaluate, GateIndex, Enumerates, ValidGate;
      if qa.status != Pass { return Some(NoEvidence); }
      var found := sessions.repository.Get(qa.runId);
      if found.Err? { return Some(BadState); }
      var record := found.value;
      if record.state != Supervising { return Some(BadState); }
      if record.plan.None? { return Some(NoEvidence); }
      EnumeratesOnlyOutputs(order, record.outputs);
      var recomputed := EvaluateEvidence(EvidenceOf(record, order));
      if recomputed.Err? { return Some(EvidenceMismatch); }
      if recomputed.value != qa { return Some(EvidenceMismatch); }

      ghost var before := sessions.repository.rows;
      ghost var w := approvals.Abstract();
      NothingPerformed(before, qa.runId);
      RunIdOf(w, qa.runId);
      var note := Message("supervisor", "pass", QaNote(qa, Some(Sha256(qa))));
      var refused := sessions.Add(qa.runId, note);
      CallPerforms(before, before, sessions.repository.rows, qa.runId, [], AddMessage(note), refused);
      PerformedKeepsMirrored(w, sessions.repository.rows, qa.runId, AddMessage(note), refused);
      ghost var done := [AddMessage(note)];
      ghost var middle := sessions.repository.rows;
      assert [] + done == done;
      MayAwaitApproval(RunState(record, map[]), note);
      refused := sessions.TransitionTo(qa.runId, WaitingFinalApproval);
      CallPerforms(before, middle, sessions.repository.rows, qa.runId, done, Transition(WaitingFinalApproval), refused);
      PerformedKeepsMirrored(w.(store := middle), sessions.repository.rows, qa.runId, Transition(WaitingFinalApproval), refused);
      done := done + [Transition(WaitingFinalApproval)];
      middle := sessions.repository.rows;
      assert approvals.Abstract() == w.(store := middle);
      var gate := FinalGate(qa.runId, gateId, Sha256(qa), now);
      error := OpenGate(qa.runId, gate, before, done);
      assert done + GateRequest(gate) == VerdictScript(cfg, record, qa, gateId, now);
    }

    // The APPROVE branch of apply_final_decision.
    method Finalize(record: SessionRecord, d: HumanDecision, final: Option<FinalResult>) returns (error: Option<CoordinatorError>)
      requires Valid() && d.runId in sessions.repository.rows && record == sessions.repository.rows[d.runId] && record.runId == d.runId
      requires After(sessions.repository.rows, d.runId, [AddDecision(d)]) == sessions.repository.rows
      requires Succeeds(RunState(record, map[]), [AddDecision(d)])
      modifies sessions.repository
      ensures Valid()
      ensures sessions.repository.rows ==
        After(old(sessions.repository.rows), d.runId, [AddDecision(d)] + CompletionScript(record, d, final))
      ensures error == None <==>
        CompletionScript(record, d, final) != [] && Succeeds(RunState(record, map[]), [AddDecision(d)] + CompletionScript(record, d, final))
    {
      hide Perform, PerformOp, Succeeds, Mirrored, RecordedHash, ValidFinal;
      ghost var before := sessions.repository.rows;
      ghost var w := approvals.Abstract();
      ghost var done := [AddDecision(d)];
      assert done + [] == done;
      var hash := RecordedSupervisorHash(record.messages, d.runId);
      if hash.Err? { return Some(EvidenceMismatch); }
      if hash.value.None? { return Some(NoEvidence); }
      var summary := if d.feedback == "" then "Final result approved by human." else d.feedback;
      var result := if final.Some? then final.value else FinalResult(d.runId, summary, Some(hash.value.value));
      if !ValidFinal(result) { return Some(Unsupported); }
      if result.runId != d.runId { return Some(Unbound); }
      if result.evidenceHash != Some(hash.value.value) { return Some(Unbound); }
      var refused := sessions.SetFinalResult(d.runId, result);
      CallPerforms(before, before, sessions.repository.rows, d.runId, done, SetFinal(result), refused);
      ghost var middle := sessions.repository.rows;
      PerformedKeepsMirrored(w, middle, d.runId, SetFinal(result), refused);
      SettingSucceeds(RunState(record, map[]), done, result);
      refused := sessions.TransitionTo(d.runId, Completed);
      CallPerforms(before, middle, sessions.repository.rows, d.runId, done + [SetFinal(result)], Transition(Completed), refused);
      PerformedKeepsMirrored(w.(store := middle), sessions.repository.rows, d.runId, Transition(Completed), refused);
      assert (done + [SetFinal(result)]) + [Transition(Completed)] == done + [SetFinal(result), Transition(Completed)];
      error := if refused.Some? then Some(NotStored) else None;
    }

    method ApplyFinalDecision(d: HumanDecision, final: Option<FinalResult>, ghost cfg: Config) returns (error: Option<CoordinatorError>)
      requires Valid() && cfg.maxRevisions == revisions.maxRevisions
      modifies sessions.repository
      ensures Valid()
      ensures d.runId !in old(sessions.repository.rows) ==> error.Some? && sessions.repository.rows == old(sessions.repository.rows)
      ensures d.runId in old(sessions.repository.rows) ==>
        var rec := old(sessions.repository.rows)[d.runId];
        && sessions.repository.rows == After(old(sessions.repository.rows), d.runId, Script(cfg, rec, FinalDecision(d, final)))
        && (error == None <==> FinalDecisionApplies(cfg, rec, d, final))
    {
      hide Perform, PerformOp, Succeeds, IsRecordedIn, Mirrored, RecordedHash, ValidFinal, Revisions, GateIndex, Apply, CompletionScript;
      var found := sessions.repository.Get(d.runId);
      if found.Err? { return Some(BadState); }
      ghost var before := sessions.repository.rows;
      ghost var w := approvals.Abstract();
      var record := found.value;
      NothingPerformed(before, d.runId);
      if record.state != WaitingFinalApproval { return Some(BadState); }
      var ok := ValidateRecordedDecision(d);
      if !ok { return Some(NotRecordedDecision); }
      RecordedIsFound(w, d);
      var known := approvals.Known(d.gateId);
      if approvals.gates[known.value].kind != "FINAL" { return Some(WrongGate); }
      var refused := sessions.AddHumanDecision(d.runId, d);
      ConfirmedOnly(before, sessions.repository.rows, d, refused);
      ghost var done := [AddDecision(d)];
      match d.decision {
        case Approve =>
          CompletionSucceeds(RunState(record, map[]), d, final);
          error := Finalize(record, d, final);
          return;
        case Modify =>
          var r := revisions.RequestRevision(d.runId, cfg);
          ThenRevises(cfg, before, d, record.state);
          RevisionKeepsMirrored(w, d.runId, cfg, record.state, |Revisions(record.messages)|);
          return if r.Err? then Some(Unsupported) else None;
        case Reject =>
          refused := sessions.TransitionTo(d.runId, Rejected);
          ThenMoves(before, sessions.repository.rows, d, Rejected, refused);
          PerformedKeepsMirrored(w, sessions.repository.rows, d.runId, Transition(Rejected), refused);
        case Clarify =>
          return Some(Unsupported);
      }
      error := if refused.Some? then Some(NotStored) else None;
    }
  }

  // When apply_final_decision returns.
  predicate FinalDecisionApplies(cfg: Config, rec: SessionRecord, d: HumanDecision, final: Option<FinalResult>) {
    && rec.state == WaitingFinalApproval && IsRecordedIn(rec, d) && Find(rec.gates, d.gateId).value.kind == "FINAL"
    && match d.decision
       case Approve => CompletionScript(rec, d, final) != []
       case Modify => |Revisions(rec.messages)| < cfg.maxRevisions
       case Reject => true
       case Clarify => false
  }

  lemma CompletionSucceeds(run: RunState, d: HumanDecision, final: Option<FinalResult>)
    requires run.rec.state == WaitingFinalApproval && IsRecordedIn(run.rec, d)
    ensures CompletionScript(run.rec, d, final) != [] ==> Succeeds(run, [AddDecision(d)] + CompletionScript(run.rec, d, final))
  {
    hide IsRecordedIn, RecordedHash, ValidFinal, PerformOp;
    var script := CompletionScript(run.rec, d, final);
    if script != [] {
      ConfirmingChangesNothing(run, d);
      SetFinalResult(run, script[0].final);
      var run' := PerformOp(run, script[0]).value;
      TransitionSucceeds(run', Completed);
      assert ([AddDecision(d)] + script)[1..] == script && script[1..] == [Transition(Completed)];
      assert [Transition(Completed)][1..] == [];
      assert Succeeds(PerformOp(run', Transition(Completed)).value, []);
      assert Succeeds(run', [Transition(Completed)]);
      assert Succeeds(run, script);
    }
  }

  lemma TransitionSucceeds(run: RunState, target: WorkflowState)
    requires target in AllowedTargets(run.rec.state)
    ensures PerformOp(run, Transition(target)).Some?
  {
  }

  // add_decision of a recorded decision changes nothing.
  lemma ConfirmedOnly(before: Store, after: Store, d: HumanDecision, error: Option<OpError>)
    requires d.runId in before && before[d.runId].runId == d.runId && IsRecordedIn(before[d.runId], d)
    requires SessionManagers.Performed(before, after, d.runId, AddDecision(d), error)
    ensures after == before && error == None
    ensures After(before, d.runId, [AddDecision(d)]) == before && Succeeds(RunState(before[d.runId], map[]), [AddDecision(d)])
    ensures After(before, d.runId, [AddDecision(d)] + []) == before
  {
    hide Find, ValidDecision;
    var run := RunState(before[d.runId], map[]);
    assert PerformOp(run, AddDecision(d)) == Some(run);
    OneOp(run, AddDecision(d));
    assert [AddDecision(d)][1..] == [] && [AddDecision(d)] + [] == [AddDecision(d)];
    assert before[d.runId := before[d.runId]] == before;
  }

  lemma ArchitectureScript(cfg: Config, rec: SessionRecord, d: HumanDecision)
    ensures Script(cfg, rec, ArchitectureDecision(d)) ==
      if rec.state != WaitingArchitectApproval || !IsRecordedIn(rec, d) then []
      else [AddDecision(d)] + (if d.decision == Approve then [Transition(Executing)] else if d.decision == Reject then [Transition(Rejected)] else [])
    ensures rec.state == WaitingArchitectApproval ==> RevisionScript(cfg.maxRevisions, rec.state, |Revisions(rec.messages)|) == []
  {
    hide IsRecordedIn, Revisions;
  }

  lemma ThenMoves(before: Store, after: Store, d: HumanDecision, target: WorkflowState, error: Option<OpError>)
    requires d.runId in before && After(before, d.runId, [AddDecision(d)]) == before && Succeeds(RunState(before[d.runId], map[]), [AddDecision(d)])
    requires SessionManagers.Performed(before, after, d.runId, Transition(target), error)
    ensures after == After(before, d.runId, [AddDecision(d)] + [Transition(target)])
    ensures error == None ==> after[d.runId].state == target
    ensures error == None <==> target in AllowedTargets(before[d.runId].state)
  {
    CallPerforms(before, before, after, d.runId, [AddDecision(d)], Transition(target), error);
    hide Perform, Succeeds;
  }

  lemma RecordedIsFound(w: World, d: HumanDecision)
    requires Mirrored(w) && d.runId in w.store && IsRecordedIn(w.store[d.runId], d)
    ensures w.store[d.runId].runId == d.runId
    ensures GateIndex(w.engine.gates, d.gateId).Some?
    ensures Find(w.store[d.runId].gates, d.gateId) == Some(w.engine.gates[GateIndex(w.engine.gates, d.gateId).value])
  {
    hide ValidDecision, Mirrored, FindDecision;
    FoundInEngine(w, d.runId, d.gateId);
  }

  lemma SettingSucceeds(run: RunState, done: seq<Op>, result: FinalResult)
    requires Succeeds(run, done) && Perform(run, done).rec.runId == result.runId
    ensures Succeeds(run, done + [SetFinal(result)])
  {
    OneMore(run, done, SetFinal(result));
  }

  lemma PerformedKeepsMirrored(w: World, after: Store, runId: string, op: Op, error: Option<OpError>)
    requires Mirrored(w) && !TouchesGates(op) && SessionManagers.Performed(w.store, after, runId, op, error)
    ensures Mirrored(w.(store := after))
  {
    hide Mirrored, Apply;
    ElsewhereKeepsMirrored(w, runId, op);
    assert Do(w, Elsewhere(runId, op)).world == w.(store := after);
  }

  lemma ThenRevises(cfg: Config, before: Store, d: HumanDecision, state: WorkflowState)
    requires d.runId in before && before[d.runId].runId == d.runId && IsRecordedIn(before[d.runId], d) && before[d.runId].state == state
    ensures var script := RevisionScript(cfg.maxRevisions, state, |Revisions(before[d.runId].messages)|);
      After(before, d.runId, [AddDecision(d)] + script) == After(before, d.runId, script)
  {
    hide Revisions, Find, ValidDecision;
    var run := RunState(before[d.runId], map[]);
    assert PerformOp(run, AddDecision(d)) == Some(run);
    ManyOps(run, AddDecision(d), RevisionScript(cfg.maxRevisions, state, |Revisions(before[d.runId].messages)|));
  }

  lemma {:induction false} AfterKeepsMirrored(w: World, runId: string, openings: map<string, SessionRecord>, ops: seq<Op>)
    requires Mirrored(w) && runId in w.store && forall op :: op in ops ==> !TouchesGates(op)
    ensures Mirrored(w.(store := w.store[runId := Perform(RunState(w.store[runId], openings), ops).rec]))
    decreases |ops|
  {
    hide Mirrored, Apply;
    assert w.store[runId := w.store[runId]] == w.store;
    if ops != [] {
      var run := RunState(w.store[runId], openings);
      RecOnly(run, ops[0]);
      match PerformOp(run, ops[0]) {
        case None =>
        case Some(run') =>
          var store := w.store[runId := run'.rec];
          PerformedKeepsMirrored(w, store, runId, ops[0], None);
          AfterKeepsMirrored(w.(store := store), runId, run'.openings, ops[1..]);
          assert store[runId := Perform(run', ops[1..]).rec] == w.store[runId := Perform(run', ops[1..]).rec];
      }
    }
  }

  lemma RevisionKeepsMirrored(w: World, runId: string, cfg: Config, state: WorkflowState, count: nat)
    requires Mirrored(w) && runId in w.store
    ensures Mirrored(w.(store := After(w.store, runId, RevisionScript(cfg.maxRevisions, state, count))))
  {
    hide Mirrored, Perform;
    AfterKeepsMirrored(w, runId, map[], RevisionScript(cfg.maxRevisions, state, count));
  }

  lemma RunIdOf(w: World, runId: string)
    requires Mirrored(w) && runId in w.store
    ensures w.store[runId].runId == runId
  {
    assert RunMirrored(w.engine.gates, w.store[runId], runId);
  }

  lemma MayAwaitApproval(run: RunState, note: Message)
    requires run.rec.state == Supervising
    ensures Succeeds(run, [AddMessage(note)]) && Succeeds(run, [AddMessage(note)] + [Transition(WaitingFinalApproval)])
  {
    assert [AddMessage(note)][1..] == [];
    OneMore(run, [AddMessage(note)], Transition(WaitingFinalApproval));
  }

  function GateError(store: Store, g: ApprovalGate): Option<OpError>
    requires g.runId in store
  {
    match Apply(store[g.runId], AddGate(g)) case Refused(e) => Some(e) case _ => None
  }

  // request_gate of a valid gate with a fresh id does to its session what add_approval_gate does.
  lemma RequestPerforms(w: World, g: ApprovalGate)
    requires ValidGate(g) && g.status == Open && Find(w.engine.gates, g.gateId).None? && g.runId in w.store
    ensures SessionManagers.Performed(w.store, RequestGate(w, g, true).world.store, g.runId, AddGate(g), GateError(w.store, g))
  {
    assert AsOpen(g) == g;
    hide ValidGate, Apply;
  }

  // The engine knows every gate of the session, so a gate it does not know is new there as well.
  lemma RequestSucceeds(w: World, g: ApprovalGate)
    requires Mirrored(w) && g.status == Open && g.resolvedAt == None && Find(w.engine.gates, g.gateId).None? && g.runId in w.store
    ensures RequestGate(w, g, true).error == None <==> ValidGate(g)
  {
    hide ValidGate, Mirrored, Find;
    RunIdOf(w, g.runId);
    if Find(w.store[g.runId].gates, g.gateId).Some? { FoundInEngine(w, g.runId, g.gateId); }
    NewToTheSession(w.store, g);
    assert AsOpen(g) == g;
  }

  lemma NewToTheSession(store: Store, g: ApprovalGate)
    requires g.runId in store && store[g.runId].runId == g.runId && Find(store[g.runId].gates, g.gateId).None?
    ensures Persist(store, g.runId, AddGate(g), true).Some?
  {
    hide GateIndex;
  }

  lemma InvalidIsRefused(w: World, g: ApprovalGate)
    requires !ValidGate(g) && g.status == Open && g.resolvedAt == None
    ensures RequestGate(w, g, true).world == w
  {
    assert AsOpen(g) == g;
  }

  lemma MayAwaitArchitect(run: RunState, plan: ArchitecturePlan)
    requires run.rec.state == Architecting
    ensures Succeeds(run, [SetPlan(plan)]) && Succeeds(run, [SetPlan(plan)] + [Transition(WaitingArchitectApproval)])
  {
    assert [SetPlan(plan)][1..] == [];
    OneMore(run, [SetPlan(plan)], Transition(WaitingArchitectApproval));
  }
}
