/** Every command that its reads admit goes through to its last operation and leaves the run in the state its code names. */
module WorkflowProgress {
  import opened Wrappers
  import opened Contracts
  import opened Text
  import opened SessionStore
  import opened Approvals
  import opened RestartTransparency
  import opened Supervisor
  import opened Authorization
  import opened Workflow
  import opened WorkflowSafety
  import opened WorkflowScripts
  import opened WorkflowEffects
  import opened WorkflowTheorems

  // ----- The transition table -----

  // The same table, told from where a state is entered.
  function EnteredFrom(target: WorkflowState): set<WorkflowState> {
    match target
    case Idle => {}
    case Intake => {Idle}
    case Architecting => {Intake, WaitingArchitectApproval, Revision}
    case WaitingArchitectApproval => {Architecting}
    case Executing => {WaitingArchitectApproval, Executing, WorkerWaitingHuman, Revision}
    case WorkerWaitingHuman => {Executing}
    case Supervising => {Executing, Revision}
    case WaitingFinalApproval => {Supervising}
    case Revision => {WorkerWaitingHuman, Supervising, WaitingFinalApproval}
    case Completed => {WaitingFinalApproval}
    case Rejected => {WaitingArchitectApproval, WaitingFinalApproval}
    case Failed => {Idle, Intake, Architecting, WaitingArchitectApproval, Executing, WorkerWaitingHuman, Supervising, WaitingFinalApproval, Revision}
  }

  /** A state leads to another exactly when the other is entered from it; FAILED is entered from every state but the terminal ones, which lead nowhere. */
  lemma TransitionsAreEntries(s: WorkflowState, target: WorkflowState)
    ensures target in AllowedTargets(s) <==> s in EnteredFrom(target)
    ensures Failed in AllowedTargets(s) <==> s !in {Completed, Rejected, Failed}
    ensures AllowedTargets(s) == {} <==> s in {Completed, Rejected, Failed}
  {
  }

  // ----- Going through -----

  // No operation raises.
  ghost predicate GoesThrough(run: RunState, ops: seq<Op>)
    decreases |ops|
  {
    ops == [] || (PerformOp(run, ops[0]).Some? && GoesThrough(PerformOp(run, ops[0]).value, ops[1..]))
  }

  // No operation raises, and the run ends in this state.
  ghost predicate Ends(run: RunState, ops: seq<Op>, state: WorkflowState) {
    GoesThrough(run, ops) && Perform(run, ops).rec.state == state
  }

  lemma NothingToDo(run: RunState)
    ensures Ends(run, [], run.rec.state)
  {
  }

  lemma FirstOf(run: RunState, op: Op, rest: seq<Op>, state: WorkflowState)
    requires PerformOp(run, op).Some? && Ends(PerformOp(run, op).value, rest, state)
    ensures Ends(run, [op] + rest, state)
  {
    hide PerformOp;
    assert ([op] + rest)[1..] == rest;
  }

  lemma Alone(run: RunState, op: Op, state: WorkflowState)
    requires PerformOp(run, op).Some? && PerformOp(run, op).value.rec.state == state
    ensures Ends(run, [op], state)
  {
    hide PerformOp, Ends;
    NothingToDo(PerformOp(run, op).value);
    FirstOf(run, op, [], state);
    assert [op] + [] == [op];
  }

  // An operation that leaves the state as it is.
  lemma Stays(run: RunState, op: Op)
    requires Apply(run.rec, op).Commit? && !op.Transition?
    ensures PerformOp(run, op).Some? && PerformOp(run, op).value.rec.state == run.rec.state
  {
    hide Apply;
    CommittedOp(run, op);
    AppliedState(run.rec, op);
  }

  lemma MovesTo(run: RunState, target: WorkflowState)
    requires target in AllowedTargets(run.rec.state)
    ensures Ends(run, [Transition(target)], target)
  {
    hide Ends;
    Moved(run, target);
    Alone(run, Transition(target), target);
  }

  lemma MoveThen(run: RunState, target: WorkflowState, rest: seq<Op>, state: WorkflowState)
    requires target in AllowedTargets(run.rec.state)
    requires forall run': RunState :: run'.rec == run.rec.(state := target, revision := run.rec.revision + 1) ==> Ends(run', rest, state)
    ensures Ends(run, [Transition(target)] + rest, state)
  {
    hide Ends, PerformOp;
    Moved(run, target);
    FirstOf(run, Transition(target), rest, state);
  }

  lemma NoteThen(run: RunState, m: Message, rest: seq<Op>, state: WorkflowState)
    requires forall run': RunState :: run'.rec == run.rec.(messages := run.rec.messages + [m], revision := run.rec.revision + 1) ==> Ends(run', rest, state)
    ensures Ends(run, [AddMessage(m)] + rest, state)
  {
    hide Ends, PerformOp;
    AddedMessage(run, m);
    FirstOf(run, AddMessage(m), rest, state);
  }

  lemma Noted(run: RunState, m: Message)
    ensures Ends(run, [AddMessage(m)], run.rec.state)
  {
    hide Ends, PerformOp;
    AddedMessage(run, m);
    Alone(run, AddMessage(m), run.rec.state);
  }

  // ----- Revisions -----

  // Where a revision leads: back to the architect if one is left.
  function AfterRevision(limit: nat, rec: SessionRecord): WorkflowState {
    if rec.state in {Revision, Supervising, WaitingFinalApproval, WorkerWaitingHuman} && |Revisions(rec.messages)| < limit then Architecting else rec.state
  }

  lemma BackToTheArchitect(run: RunState, m: Message)
    requires run.rec.state == Revision
    ensures Ends(run, [Transition(Architecting), AddMessage(m)], Architecting)
  {
    hide Ends, PerformOp;
    forall run': RunState | run'.rec == run.rec.(state := Architecting, revision := run.rec.revision + 1)
      ensures Ends(run', [AddMessage(m)], Architecting)
    {
      Noted(run', m);
    }
    MoveThen(run, Architecting, [AddMessage(m)], Architecting);
    assert [Transition(Architecting), AddMessage(m)] == [Transition(Architecting)] + [AddMessage(m)];
  }

  lemma Revises(run: RunState, limit: nat)
    ensures Ends(run, RevisionScript(limit, run.rec.state, |Revisions(run.rec.messages)|), AfterRevision(limit, run.rec))
  {
    hide Ends, PerformOp, Revisions;
    var count := |Revisions(run.rec.messages)|;
    var m := RevisionMessage(count + 1);
    var back := [Transition(Architecting), AddMessage(m)];
    NothingToDo(run);
    if Revisable(run.rec.state) && count < limit {
      if run.rec.state == Revision {
        BackToTheArchitect(run, m);
        assert [] + back == back;
      } else {
        forall run': RunState | run'.rec == run.rec.(state := Revision, revision := run.rec.revision + 1) ensures Ends(run', back, Architecting) {
          BackToTheArchitect(run', m);
        }
        MoveThen(run, Revision, back, Architecting);
      }
    }
  }

  // ----- Gates -----

  lemma OpensOrNot(run: RunState, g: ApprovalGate)
    requires g.runId == run.rec.runId && GateIndex(run.rec.gates, g.gateId).None?
    ensures Ends(run, GateRequest(g), run.rec.state)
  {
    hide Ends, PerformOp, ValidGate, GateIndex;
    NothingToDo(run);
    Opened(run, g);
    Alone(run, AddGate(g), run.rec.state);
  }

  lemma BuildGoesThrough(cfg: Config, run: RunState, plan: ArchitecturePlan, gateId: string, now: string)
    requires run.rec.state == Architecting && GateIndex(run.rec.gates, gateId).None?
    ensures Ends(run, Script(cfg, run.rec, Build(plan, gateId, now)), WaitingArchitectApproval)
  {
    hide Ends, PerformOp, GateIndex, GateRequest;
    var gate := ArchitectureGate(run.rec.runId, gateId, plan, now);
    Planned(run, plan);
    var run1 := PerformOp(run, SetPlan(plan)).value;
    forall run': RunState | run'.rec == run1.rec.(state := WaitingArchitectApproval, revision := run1.rec.revision + 1)
      ensures Ends(run', GateRequest(gate), WaitingArchitectApproval)
    {
      OpensOrNot(run', gate);
    }
    MoveThen(run1, WaitingArchitectApproval, GateRequest(gate), WaitingArchitectApproval);
    FirstOf(run, SetPlan(plan), [Transition(WaitingArchitectApproval)] + GateRequest(gate), WaitingArchitectApproval);
    assert Script(cfg, run.rec, Build(plan, gateId, now)) == [SetPlan(plan)] + ([Transition(WaitingArchitectApproval)] + GateRequest(gate));
  }

  // An open gate has no decision, so answering it is stored.
  lemma OpenIsUndecided(rec: SessionRecord, id: string)
    requires Settled(rec) && Find(rec.gates, id).Some? && Find(rec.gates, id).value.status == Open
    ensures FindDecision(rec.decisions, id).None?
  {
    hide WellFormed, DecisionsSettled, ValidGate, GateIndex;
    var g := Find(rec.gates, id).value;
    DecisionsOfMembers(rec.decisions, id);
    assert g in rec.gates && Coupled(g, DecisionsOf(rec.decisions, g.gateId));
  }

  // Answering a gate changes gates and decisions alone.
  ghost predicate OnlyAnswers(rec: SessionRecord, rec': SessionRecord) {
    rec' == rec.(gates := rec'.gates, decisions := rec'.decisions, revision := rec'.revision)
  }

  lemma AnswerGoesThrough(run: RunState, gateId: string, decision: DecisionType, feedback: string, actor: string, now: string)
    requires Settled(run.rec)
    ensures Ends(run, AnswerScript(run.rec, gateId, decision, feedback, actor, now), run.rec.state)
    ensures var ops := AnswerScript(run.rec, gateId, decision, feedback, actor, now);
      ops == [] || (ops == [ops[0]] && PerformOp(run, ops[0]).Some? && OnlyAnswers(run.rec, PerformOp(run, ops[0]).value.rec))
  {
    hide Ends, Settled, Blank, Strip, ValidGate, ValidDecision, FindDecision;
    NothingToDo(run);
    var ops := AnswerScript(run.rec, gateId, decision, feedback, actor, now);
    if ops != [] {
      OpenIsUndecided(run.rec, gateId);
      var g := Find(run.rec.gates, gateId).value;
      GateIsOfItsRun(run.rec, g);
      Stays(run, ops[0]);
      Alone(run, ops[0], run.rec.state);
    }
  }

  lemma WithdrawGoesThrough(cfg: Config, run: RunState, gateId: string)
    requires Settled(run.rec)
    ensures Ends(run, Script(cfg, run.rec, Withdraw(gateId)), run.rec.state)
  {
    hide Ends, Settled, FindDecision;
    NothingToDo(run);
    if Find(run.rec.gates, gateId).Some? {
      var g := Find(run.rec.gates, gateId).value;
      GateIsOfItsRun(run.rec, g);
      if g.status == Open {
        Stays(run, CancelGate(g.(status := Cancelled)));
        Alone(run, CancelGate(g.(status := Cancelled)), run.rec.state);
      }
    }
  }

  lemma ToolGateGoesThrough(cfg: Config, run: RunState, i: nat, network: bool, gateId: string, now: string)
    requires GateIndex(run.rec.gates, gateId).None?
    ensures Ends(run, Script(cfg, run.rec, OpenToolGate(i, network, gateId, now)), run.rec.state)
  {
    hide Ends, PerformOp, GateIndex, GateRequest, Matching, PlanRisk;
    NothingToDo(run);
    if run.rec.state == Executing && run.rec.plan.Some? && i < |run.rec.plan.value.workers| {
      OpensOrNot(run, ToolGate(PlanRequest(cfg, run.rec, i, network), PlanRisk(cfg, run.rec, i), gateId, now));
    }
  }

  // ----- Decisions -----

  // Where a decision on the architecture leads.
  function AfterArchitecture(rec: SessionRecord, d: HumanDecision): WorkflowState {
    if rec.state == WaitingArchitectApproval && IsRecordedIn(rec, d) && d.decision == Approve then Executing
    else if rec.state == WaitingArchitectApproval && IsRecordedIn(rec, d) && d.decision == Reject then Rejected
    else rec.state
  }

  lemma ConfirmThen(run: RunState, d: HumanDecision, rest: seq<Op>, state: WorkflowState)
    requires IsRecordedIn(run.rec, d) && Ends(run, rest, state)
    ensures Ends(run, [AddDecision(d)] + rest, state)
  {
    hide Ends, PerformOp, IsRecordedIn;
    ConfirmingChangesNothing(run, d);
    FirstOf(run, AddDecision(d), rest, state);
  }

  lemma ArchitectureGoesThrough(cfg: Config, run: RunState, d: HumanDecision)
    ensures Ends(run, Script(cfg, run.rec, ArchitectureDecision(d)), AfterArchitecture(run.rec, d))
  {
    hide Ends, PerformOp, IsRecordedIn, Revisions;
    NothingToDo(run);
    if run.rec.state == WaitingArchitectApproval && IsRecordedIn(run.rec, d) {
      if d.decision == Approve {
        MovesTo(run, Executing);
        ConfirmThen(run, d, [Transition(Executing)], Executing);
      } else if d.decision == Reject {
        MovesTo(run, Rejected);
        ConfirmThen(run, d, [Transition(Rejected)], Rejected);
      } else {
        ConfirmThen(run, d, [], run.rec.state);
      }
    }
  }

  // A final result that may be stored on this evidence: the default one, or one bound to it.
  predicate Acceptable(rec: SessionRecord, d: HumanDecision, final: Option<FinalResult>, h: Digest) {
    match final
    case None => !Blank(rec.runId) && (d.feedback == "" || !Blank(d.feedback))
    case Some(f) => f.runId == rec.runId && f.evidenceHash == Some(h) && !Blank(f.runId) && !Blank(f.summary)
  }

  // Where a final decision leads.
  function AfterFinal(cfg: Config, rec: SessionRecord, d: HumanDecision, final: Option<FinalResult>): WorkflowState {
    if rec.state != WaitingFinalApproval || !IsRecordedIn(rec, d) || Find(rec.gates, d.gateId).value.kind != "FINAL" then rec.state
    else
      match d.decision
      case Approve =>
        (match RecordedHash(rec.messages, rec.runId)
         case Ok(Some(h)) => if Acceptable(rec, d, final, h) then Completed else rec.state
         case _ => rec.state)
      case Modify => AfterRevision(cfg.maxRevisions, rec)
      case Reject => Rejected
      case Clarify => rec.state
  }

  lemma CompletionIsAcceptable(rec: SessionRecord, d: HumanDecision, final: Option<FinalResult>)
    ensures match RecordedHash(rec.messages, rec.runId)
      case Ok(Some(h)) =>
        if Acceptable(rec, d, final, h)
        then exists f: FinalResult :: f.runId == rec.runId && CompletionScript(rec, d, final) == [SetFinal(f), Transition(Completed)]
        else CompletionScript(rec, d, final) == []
      case _ => CompletionScript(rec, d, final) == []
  {
    hide RecordedHash, Blank;
    NotBlank("Final result approved by human.");
    if RecordedHash(rec.messages, rec.runId).Ok? && RecordedHash(rec.messages, rec.runId).value.Some? {
      var h := RecordedHash(rec.messages, rec.runId).value.value;
      var summary := if d.feedback == "" then "Final result approved by human." else d.feedback;
      var f := if final.Some? then final.value else FinalResult(rec.runId, summary, Some(h));
      if Acceptable(rec, d, final, h) { assert CompletionScript(rec, d, final) == [SetFinal(f), Transition(Completed)]; }
    }
  }

  lemma CompletionGoesThrough(run: RunState, d: HumanDecision, final: Option<FinalResult>)
    requires run.rec.state == WaitingFinalApproval
    ensures Ends(run, CompletionScript(run.rec, d, final), if CompletionScript(run.rec, d, final) == [] then WaitingFinalApproval else Completed)
  {
    hide Ends, PerformOp, RecordedHash, Acceptable, CompletionScript;
    NothingToDo(run);
    CompletionIsAcceptable(run.rec, d, final);
    if CompletionScript(run.rec, d, final) != [] {
      var f: FinalResult :| f.runId == run.rec.runId && CompletionScript(run.rec, d, final) == [SetFinal(f), Transition(Completed)];
      SetFinalResult(run, f);
      MovesTo(PerformOp(run, SetFinal(f)).value, Completed);
      FirstOf(run, SetFinal(f), [Transition(Completed)], Completed);
      assert [SetFinal(f), Transition(Completed)] == [SetFinal(f)] + [Transition(Completed)];
    }
  }

  lemma FinalGoesThrough(cfg: Config, run: RunState, d: HumanDecision, final: Option<FinalResult>)
    ensures Ends(run, Script(cfg, run.rec, FinalDecision(d, final)), AfterFinal(cfg, run.rec, d, final))
  {
    hide Ends, PerformOp, IsRecordedIn, Revisions, RevisionScript, CompletionScript, RecordedHash, Acceptable, Find, AfterRevision;
    NothingToDo(run);
    if run.rec.state == WaitingFinalApproval && IsRecordedIn(run.rec, d) {
      RecordedGate(run.rec, d);
      if Find(run.rec.gates, d.gateId).value.kind == "FINAL" {
        match d.decision {
          case Approve =>
            CompletionIsAcceptable(run.rec, d, final);
            CompletionGoesThrough(run, d, final);
            ConfirmThen(run, d, CompletionScript(run.rec, d, final), if CompletionScript(run.rec, d, final) == [] then WaitingFinalApproval else Completed);
          case Modify =>
            Revises(run, cfg.maxRevisions);
            ConfirmThen(run, d, RevisionScript(cfg.maxRevisions, WaitingFinalApproval, |Revisions(run.rec.messages)|), AfterRevision(cfg.maxRevisions, run.rec));
          case Reject =>
            MovesTo(run, Rejected);
            ConfirmThen(run, d, [Transition(Rejected)], Rejected);
          case Clarify => ConfirmThen(run, d, [], run.rec.state);
        }
      }
    }
  }

  // ----- Tool gates and pauses -----

  function AfterPause(rec: SessionRecord, gateId: string): WorkflowState {
    if rec.state == Executing && Find(rec.gates, gateId).Some? && Find(rec.gates, gateId).value.kind == "TOOL_RISK"
      && Find(rec.gates, gateId).value.status != Resolved
    then WorkerWaitingHuman else rec.state
  }

  lemma PauseGoesThrough(cfg: Config, run: RunState, gateId: string)
    ensures Ends(run, Script(cfg, run.rec, Pause(gateId)), AfterPause(run.rec, gateId))
  {
    hide Ends, PerformOp, Find;
    NothingToDo(run);
    var m := Message("system", "paused", NoNote);
    forall run': RunState | run.rec.state == Executing && run'.rec == run.rec.(messages := run.rec.messages + [m], revision := run.rec.revision + 1)
      ensures Ends(run', [Transition(WorkerWaitingHuman)], WorkerWaitingHuman)
    {
      MovesTo(run', WorkerWaitingHuman);
    }
    if run.rec.state == Executing {
      NoteThen(run, m, [Transition(WorkerWaitingHuman)], WorkerWaitingHuman);
      assert [AddMessage(m), Transition(WorkerWaitingHuman)] == [AddMessage(m)] + [Transition(WorkerWaitingHuman)];
    }
  }

  // A verdict that the waiting run accepts.
  predicate AcceptsVerdict(cfg: Config, rec: SessionRecord, t: ToolVerdict) {
    && rec.state == WorkerWaitingHuman && Find(rec.gates, t.gateId).Some?
    && BelongsTo(Find(rec.gates, t.gateId).value, t) && Find(rec.gates, t.gateId).value.context.backendId == cfg.backendId
    && AnswerScript(rec, t.gateId, t.decision, t.feedback, t.actor, t.timestamp) != []
  }

  function AfterVerdict(cfg: Config, rec: SessionRecord, t: ToolVerdict): WorkflowState {
    if !AcceptsVerdict(cfg, rec, t) then rec.state
    else if t.decision == Approve then Executing
    else AfterRevision(cfg.maxRevisions, rec)
  }

  lemma AfterTheOutput(cfg: Config, run: RunState, approved: bool)
    requires run.rec.state == WorkerWaitingHuman
    ensures Ends(run, if approved then [Transition(Executing)] else RevisionScript(cfg.maxRevisions, WorkerWaitingHuman, |Revisions(run.rec.messages)|),
                 if approved then Executing else AfterRevision(cfg.maxRevisions, run.rec))
  {
    hide Ends, RevisionScript, Revisions, AfterRevision;
    if approved { MovesTo(run, Executing); } else { Revises(run, cfg.maxRevisions); }
  }

  lemma OutputThen(run: RunState, o: WorkerOutput, rest: seq<Op>, state: WorkflowState)
    requires o.runId == run.rec.runId
    requires forall run': RunState :: run'.rec == run.rec.(outputs := run.rec.outputs[o.workerId := o], revision := run.rec.revision + 1) ==> Ends(run', rest, state)
    ensures Ends(run, [SetOutput(o)] + rest, state)
  {
    hide Ends, PerformOp;
    OutputIsStored(run, o);
    FirstOf(run, SetOutput(o), rest, state);
  }

  lemma OutputIsStored(run: RunState, o: WorkerOutput)
    requires o.runId == run.rec.runId
    ensures PerformOp(run, SetOutput(o)).Some?
    ensures PerformOp(run, SetOutput(o)).value.rec == run.rec.(outputs := run.rec.outputs[o.workerId := o], revision := run.rec.revision + 1)
  {
  }

  lemma ResumeGoesThrough(cfg: Config, run: RunState, t: ToolVerdict)
    requires Settled(run.rec)
    ensures Ends(run, Script(cfg, run.rec, ResumeTool(t)), AfterVerdict(cfg, run.rec, t))
  {
    hide Ends, PerformOp, Settled, AnswerScript, RevisionScript, Revisions, Find, BelongsTo, AfterRevision;
    NothingToDo(run);
    AnswerGoesThrough(run, t.gateId, t.decision, t.feedback, t.actor, t.timestamp);
    if AcceptsVerdict(cfg, run.rec, t) {
      var answered := AnswerScript(run.rec, t.gateId, t.decision, t.feedback, t.actor, t.timestamp);
      var run1 := PerformOp(run, answered[0]).value;
      var o := WorkerOutput(t.workerId, run.rec.runId, if t.decision == Approve then "approved" else "denied", None);
      var rest := if t.decision == Approve then [Transition(Executing)] else RevisionScript(cfg.maxRevisions, WorkerWaitingHuman, |Revisions(run.rec.messages)|);
      var goal := AfterVerdict(cfg, run.rec, t);
      forall run': RunState | run'.rec == run1.rec.(outputs := run1.rec.outputs[o.workerId := o], revision := run1.rec.revision + 1) ensures Ends(run', rest, goal) {
        SameRevisions(cfg.maxRevisions, run.rec, run'.rec);
        AfterTheOutput(cfg, run', t.decision == Approve);
      }
      OutputThen(run1, o, rest, goal);
      FirstOf(run, answered[0], [SetOutput(o)] + rest, goal);
      assert Script(cfg, run.rec, ResumeTool(t)) == [answered[0]] + ([SetOutput(o)] + rest);
    }
  }

  lemma SameRevisions(limit: nat, rec: SessionRecord, rec': SessionRecord)
    requires rec'.messages == rec.messages && rec'.state == rec.state
    ensures AfterRevision(limit, rec) == AfterRevision(limit, rec')
  {
    hide Revisions;
  }

  // ----- Supervision -----

  // Where a verdict leads.
  function AfterVerdictOf(cfg: Config, rec: SessionRecord, status: QaStatus): WorkflowState {
    match status
    case Pass => WaitingFinalApproval
    case Revise => AfterRevision(cfg.maxRevisions, rec)
    case Fail => Failed
  }

  ghost function AfterSupervision(cfg: Config, rec: SessionRecord, order: seq<string>): WorkflowState {
    if rec.state == Supervising && rec.plan.Some? && Enumerates(order, rec.outputs) then
      EnumeratesOnlyOutputs(order, rec.outputs);
      match Evaluate(EvidenceOf(rec, order))
      case Err(_) => rec.state
      case Ok(qa) => AfterVerdictOf(cfg, rec, qa.status)
    else rec.state
  }

  lemma PassGoesThrough(run: RunState, qa: QaResult, gateId: string, now: string)
    requires run.rec.state == Supervising && GateIndex(run.rec.gates, gateId).None?
    ensures Ends(run, [AddMessage(PassNote(qa)), Transition(WaitingFinalApproval)] + GateRequest(FinalGate(run.rec.runId, gateId, Sha256(qa), now)), WaitingFinalApproval)
  {
    hide Ends, PerformOp, GateIndex, GateRequest;
    var gate := FinalGate(run.rec.runId, gateId, Sha256(qa), now);
    var rest := [Transition(WaitingFinalApproval)] + GateRequest(gate);
    forall run1: RunState | run1.rec == run.rec.(messages := run.rec.messages + [PassNote(qa)], revision := run.rec.revision + 1)
      ensures Ends(run1, rest, WaitingFinalApproval)
    {
      forall run2: RunState | run2.rec == run1.rec.(state := WaitingFinalApproval, revision := run1.rec.revision + 1)
        ensures Ends(run2, GateRequest(gate), WaitingFinalApproval)
      {
        OpensOrNot(run2, gate);
      }
      MoveThen(run1, WaitingFinalApproval, GateRequest(gate), WaitingFinalApproval);
    }
    NoteThen(run, PassNote(qa), rest, WaitingFinalApproval);
    assert [AddMessage(PassNote(qa))] + rest == [AddMessage(PassNote(qa)), Transition(WaitingFinalApproval)] + GateRequest(gate);
  }

  lemma VerdictGoesThrough(cfg: Config, run: RunState, qa: QaResult, gateId: string, now: string)
    requires run.rec.state == Supervising && GateIndex(run.rec.gates, gateId).None?
    ensures Ends(run, VerdictScript(cfg, run.rec, qa, gateId, now), AfterVerdictOf(cfg, run.rec, qa.status))
  {
    hide Ends, PerformOp, GateIndex, GateRequest, RevisionScript, Revisions, AfterRevision;
    match qa.status {
      case Pass => PassGoesThrough(run, qa, gateId, now);
      case Revise => Revises(run, cfg.maxRevisions);
      case Fail => MovesTo(run, Failed);
    }
  }

  lemma SuperviseGoesThrough(cfg: Config, run: RunState, order: seq<string>, gateId: string, now: string, noted: bool)
    requires GateIndex(run.rec.gates, gateId).None?
    ensures Ends(run, Script(cfg, run.rec, Supervise(order, gateId, now, noted)), AfterSupervision(cfg, run.rec, order))
  {
    hide Ends, PerformOp, GateIndex, VerdictScript, AfterVerdictOf, Evaluate, EvidenceOf, Enumerates;
    NothingToDo(run);
    if run.rec.state == Supervising && run.rec.plan.Some? && Enumerates(order, run.rec.outputs) {
      EnumeratesOnlyOutputs(order, run.rec.outputs);
      if Evaluate(EvidenceOf(run.rec, order)).Ok? {
        var qa := Evaluate(EvidenceOf(run.rec, order)).value;
        var verdict := VerdictScript(cfg, run.rec, qa, gateId, now);
        var m := Message("supervisor", "verdict", QaNote(qa, None));
        VerdictGoesThrough(cfg, run, qa, gateId, now);
        forall run': RunState | run'.rec == run.rec.(messages := run.rec.messages + [m], revision := run.rec.revision + 1)
          ensures Ends(run', verdict, AfterVerdictOf(cfg, run.rec, qa.status))
        {
          VerdictIgnoresNote(cfg, run.rec, qa, gateId, now, m, run.rec.revision + 1);
          RevisionIgnoresNote(cfg, run.rec, run'.rec, m, qa.status);
          VerdictGoesThrough(cfg, run', qa, gateId, now);
        }
        NoteThen(run, m, verdict, AfterVerdictOf(cfg, run.rec, qa.status));
        assert [] + verdict == verdict;
      }
    }
  }

  lemma RevisionIgnoresNote(cfg: Config, rec: SessionRecord, rec': SessionRecord, m: Message, status: QaStatus)
    requires rec'.state == rec.state && rec'.messages == rec.messages + [m] && !m.note.RevisionNote?
    ensures AfterVerdictOf(cfg, rec, status) == AfterVerdictOf(cfg, rec', status)
  {
    RevisionsAppended(rec.messages, m);
    hide Revisions;
  }

  // ----- Recovery -----

  lemma FailureGoesThrough(cfg: Config, run: RunState)
    requires run.rec.state == Executing
    ensures Ends(run, FailureScript(cfg, |Revisions(run.rec.messages)|), if |Revisions(run.rec.messages)| < cfg.recoveryRevisions then Architecting else Supervising)
  {
    hide Ends, PerformOp, Revisions;
    var count := |Revisions(run.rec.messages)|;
    if count < cfg.recoveryRevisions {
      var m := RevisionMessage(count + 1);
      var rest := [Transition(Architecting), AddMessage(m), AUDIT];
      forall run1: RunState | run1.rec == run.rec.(state := Supervising, revision := run.rec.revision + 1)
        ensures Ends(run1, [Transition(Revision)] + rest, Architecting)
      {
        forall run2: RunState | run2.rec == run1.rec.(state := Revision, revision := run1.rec.revision + 1) ensures Ends(run2, rest, Architecting) {
          RevisedAndAudited(run2, m);
        }
        MoveThen(run1, Revision, rest, Architecting);
      }
      MoveThen(run, Supervising, [Transition(Revision)] + rest, Architecting);
      assert FailureScript(cfg, count) == [Transition(Supervising)] + ([Transition(Revision)] + rest);
    } else {
      MovesTo(run, Supervising);
      assert FailureScript(cfg, count) == [Transition(Supervising)];
    }
  }

  lemma RevisedAndAudited(run: RunState, m: Message)
    requires run.rec.state == Revision
    ensures Ends(run, [Transition(Architecting), AddMessage(m), AUDIT], Architecting)
  {
    hide Ends, PerformOp;
    forall run1: RunState | run1.rec == run.rec.(state := Architecting, revision := run.rec.revision + 1)
      ensures Ends(run1, [AddMessage(m)] + [AUDIT], Architecting)
    {
      forall run2: RunState | run2.rec == run1.rec.(messages := run1.rec.messages + [m], revision := run1.rec.revision + 1) ensures Ends(run2, [AUDIT], Architecting) {
        Noted(run2, AUDIT.message);
      }
      NoteThen(run1, m, [AUDIT], Architecting);
    }
    MoveThen(run, Architecting, [AddMessage(m)] + [AUDIT], Architecting);
    assert [Transition(Architecting), AddMessage(m), AUDIT] == [Transition(Architecting)] + ([AddMessage(m)] + [AUDIT]);
  }

  lemma RecoverGoesThrough(cfg: Config, run: RunState)
    ensures Ends(run, Script(cfg, run.rec, Recover), if run.rec.state == Revision then Architecting else run.rec.state)
  {
    hide Ends, PerformOp;
    NothingToDo(run);
    Noted(run, AUDIT.message);
    if run.rec.state == Revision { BackToTheArchitect(run, AUDIT.message); }
  }

  // ----- Every command -----

  // New gates get ids that no gate of the run has; an operation of another component is one that the manager accepts.
  ghost predicate Fresh(rec: SessionRecord, cmd: Command) {
    match cmd
    case Build(_, id, _) => GateIndex(rec.gates, id).None?
    case OpenToolGate(_, _, id, _) => GateIndex(rec.gates, id).None?
    case Supervise(_, id, _, _) => GateIndex(rec.gates, id).None?
    case Other(op) => !Apply(rec, op).Refused?
    case _ => true
  }

  /** The state that a command's code names, for every state and every input it may find. */
  ghost function Goal(cfg: Config, rec: SessionRecord, cmd: Command): WorkflowState {
    match cmd
    case Start => if rec.state == Idle then Intake else rec.state
    case BeginArchitecture => if rec.state == Intake then Architecting else rec.state
    case Build(_, _, _) => if rec.state == Architecting then WaitingArchitectApproval else rec.state
    case Answer(_, _, _, _, _) => rec.state
    case Withdraw(_) => rec.state
    case ArchitectureDecision(d) => AfterArchitecture(rec, d)
    case FinalDecision(d, final) => AfterFinal(cfg, rec, d, final)
    case RequestRevision => AfterRevision(cfg.maxRevisions, rec)
    case OpenToolGate(_, _, _, _) => rec.state
    case Pause(id) => AfterPause(rec, id)
    case ResumeTool(t) => AfterVerdict(cfg, rec, t)
    case BeginSupervision => if rec.state == Executing then Supervising else rec.state
    case Supervise(order, _, _, _) => AfterSupervision(cfg, rec, order)
    case Recover => if rec.state == Revision then Architecting else rec.state
    case RecoverFailure =>
      if rec.state != Executing then rec.state else if |Revisions(rec.messages)| < cfg.recoveryRevisions then Architecting else Supervising
    case Other(_) => rec.state
  }

  lemma SimpleGoesThrough(cfg: Config, run: RunState, cmd: Command)
    requires cmd.Start? || cmd.BeginArchitecture? || cmd.BeginSupervision? || cmd.RequestRevision? || cmd.RecoverFailure?
    ensures Ends(run, Script(cfg, run.rec, cmd), Goal(cfg, run.rec, cmd))
  {
    hide Ends, RevisionScript, FailureScript, Revisions, AfterRevision;
    NothingToDo(run);
    match cmd {
      case Start => if run.rec.state == Idle { MovesTo(run, Intake); }
      case BeginArchitecture => if run.rec.state == Intake { MovesTo(run, Architecting); }
      case BeginSupervision => if run.rec.state == Executing { MovesTo(run, Supervising); }
      case RequestRevision => Revises(run, cfg.maxRevisions);
      case RecoverFailure => if run.rec.state == Executing { FailureGoesThrough(cfg, run); }
    }
  }

  lemma OtherGoesThrough(run: RunState, op: Op)
    requires Unrelated(op) && !Apply(run.rec, op).Refused?
    ensures Ends(run, [op], run.rec.state)
  {
    hide Ends, Apply;
    if Apply(run.rec, op).Commit? { Stays(run, op); }
    Alone(run, op, run.rec.state);
  }

  lemma CommandGoesThrough(cfg: Config, run: RunState, cmd: Command)
    requires Settled(run.rec) && Fresh(run.rec, cmd)
    ensures Ends(run, Script(cfg, run.rec, cmd), Goal(cfg, run.rec, cmd))
  {
    hide Ends, Settled, AnswerScript, ResumeScript, RevisionScript, FailureScript, Revisions, GateIndex, Apply,
         AfterArchitecture, AfterFinal, AfterRevision, AfterPause, AfterVerdict, AfterSupervision;
    NothingToDo(run);
    match cmd {
      case Build(plan, id, now) => if run.rec.state == Architecting { BuildGoesThrough(cfg, run, plan, id, now); }
      case Answer(id, decision, feedback, actor, now) => AnswerGoesThrough(run, id, decision, feedback, actor, now);
      case Withdraw(id) => WithdrawGoesThrough(cfg, run, id);
      case ArchitectureDecision(d) => ArchitectureGoesThrough(cfg, run, d);
      case FinalDecision(d, final) => FinalGoesThrough(cfg, run, d, final);
      case OpenToolGate(i, network, id, now) => ToolGateGoesThrough(cfg, run, i, network, id, now);
      case Pause(id) => PauseGoesThrough(cfg, run, id);
      case ResumeTool(t) => ResumeGoesThrough(cfg, run, t);
      case Supervise(order, id, now, noted) => SuperviseGoesThrough(cfg, run, order, id, now, noted);
      case Recover => RecoverGoesThrough(cfg, run);
      case Other(op) => if Unrelated(op) { OtherGoesThrough(run, op); }
      case _ => SimpleGoesThrough(cfg, run, cmd);
    }
  }

  /**
   From every reachable record, wherever processes stopped before: every command, with new gate ids, is carried out to its
   last operation, none of which the manager refuses, and the run is then in the state that the command's code names.
   */
  lemma EveryCommandGoesThrough(cfg: Config, runId: string, strides: seq<Stride>, cmd: Command)
    requires Fresh(ProceedAll(cfg, NewRun(runId), strides).rec, cmd)
    ensures var run := ProceedAll(cfg, NewRun(runId), strides);
      GoesThrough(run, Script(cfg, run.rec, cmd)) && Carry(cfg, run, cmd).rec.state == Goal(cfg, run.rec, cmd)
  {
    hide ProceedAll, Script, Goal, Fresh, Perform, GoesThrough, SoundNotes, Numbered, FinalGatesOpened, Finished, Settled;
    var run := ProceedAll(cfg, NewRun(runId), strides);
    EveryRunKeepsInv(cfg, runId, strides);
    CommandGoesThrough(cfg, run, cmd);
  }

  /** A supervision whose verdict is FAIL leaves every reachable run FAILED; REVISE sends it back while a revision is left. */
  lemma FailedVerdictFailsTheRun(cfg: Config, runId: string, strides: seq<Stride>, order: seq<string>, gateId: string, now: string, noted: bool)
    requires var rec := ProceedAll(cfg, NewRun(runId), strides).rec;
      && rec.state == Supervising && rec.plan.Some? && Enumerates(order, rec.outputs) && GateIndex(rec.gates, gateId).None?
      && (forall w :: w in order ==> w in rec.outputs) && Evaluate(EvidenceOf(rec, order)).Ok?
    ensures var run := ProceedAll(cfg, NewRun(runId), strides);
      var status := Evaluate(EvidenceOf(run.rec, order)).value.status;
      var after := Carry(cfg, run, Supervise(order, gateId, now, noted)).rec.state;
      && (status == Fail ==> after == Failed) && (status == Pass ==> after == WaitingFinalApproval)
      && (status == Revise ==> after == if |Revisions(run.rec.messages)| < cfg.maxRevisions then Architecting else Supervising)
  {
    hide ProceedAll, Carry, Evaluate, EvidenceOf, Enumerates, GateIndex, GoesThrough, Revisions;
    EveryCommandGoesThrough(cfg, runId, strides, Supervise(order, gateId, now, noted));
  }

  // ----- What the gates offer -----

  // The gate asks for one of these decisions.
  ghost predicate Offers(g: ApprovalGate, decisions: set<DecisionType>) { g.status == Open && forall x :: x in g.allowed <==> x in decisions }

  /** A build stores its plan and opens one gate that shows it and offers all four decisions. */
  lemma BuildAsksForThePlan(cfg: Config, run: RunState, plan: ArchitecturePlan, gateId: string, now: string)
    requires run.rec.state == Architecting && GateIndex(run.rec.gates, gateId).None?
    requires !Blank(gateId) && !Blank(run.rec.runId) && !Blank(now)
    ensures var rec := Carry(cfg, run, Build(plan, gateId, now)).rec;
      && rec.plan == Some(plan) && |rec.gates| == |run.rec.gates| + 1 && rec.gates[..|run.rec.gates|] == run.rec.gates
      && var g := rec.gates[|run.rec.gates|];
         && g.gateId == gateId && g.runId == run.rec.runId && g.kind == "ARCHITECTURE" && g.context == PlanContext(plan)
         && Offers(g, {Approve, Modify, Reject, Clarify})
  {
    hide Carry, Blank, GateIndex;
    Built(cfg, run, plan, gateId, now);
  }

  /** A supervision that passes notes its evidence and opens one gate that shows it and offers all four decisions. */
  lemma PassAsksForTheEvidence(cfg: Config, run: RunState, order: seq<string>, gateId: string, now: string)
    requires run.rec.state == Supervising && run.rec.plan.Some? && Enumerates(order, run.rec.outputs)
    requires Evaluate(EvidenceOf(run.rec, order)).Ok? && Evaluate(EvidenceOf(run.rec, order)).value.status == Pass
    requires GateIndex(run.rec.gates, gateId).None? && !Blank(gateId) && !Blank(run.rec.runId) && !Blank(now)
    ensures var rec := Carry(cfg, run, Supervise(order, gateId, now, false)).rec;
      var qa := Evaluate(EvidenceOf(run.rec, order)).value;
      && |rec.gates| == |run.rec.gates| + 1 && rec.gates[..|run.rec.gates|] == run.rec.gates
      && |rec.messages| == |run.rec.messages| + 1 && rec.messages[|run.rec.messages|].note == QaNote(qa, Some(Sha256(qa)))
      && var g := rec.gates[|run.rec.gates|];
         && g.gateId == gateId && g.runId == run.rec.runId && g.kind == "FINAL" && g.context == QaContext(Sha256(qa))
         && Offers(g, {Approve, Modify, Reject, Clarify})
  {
    hide Carry, Blank, GateIndex, Evaluate, EvidenceOf, Enumerates;
    SupervisionPassed(cfg, run, order, gateId, now);
  }

  // ----- What is left on record -----

  /** Recovery takes a run out of REVISION, leaves a note on every run that is under way, and does nothing to any other. */
  lemma RecoveryLeavesANote(cfg: Config, run: RunState)
    ensures var rec := Carry(cfg, run, Recover).rec;
      if run.rec.state in {Idle, Intake, Completed, Rejected, Failed} then rec == run.rec
      else
        && rec.state == (if run.rec.state == Revision then Architecting else run.rec.state)
        && |rec.messages| == |run.rec.messages| + 1 && rec.messages[..|run.rec.messages|] == run.rec.messages
        && rec.messages[|run.rec.messages|].role == "system" && rec.messages[|run.rec.messages|].note == NoNote
        && rec == run.rec.(state := rec.state, messages := rec.messages, revision := rec.revision)
  {
    hide PerformOp;
    AddedMessage(run, AUDIT.message);
    OneOp(run, AUDIT);
    NoMoreOps(run);
    if run.rec.state == Revision {
      Moved(run, Architecting);
      var run1 := PerformOp(run, Transition(Architecting)).value;
      ManyOps(run, Transition(Architecting), [AUDIT]);
      assert [Transition(Architecting)] + [AUDIT] == [Transition(Architecting), AUDIT];
      AddedMessage(run1, AUDIT.message);
      OneOp(run1, AUDIT);
    }
  }

  lemma {:induction false} MessagesOnlyGrow(run: RunState, ops: seq<Op>)
    ensures run.rec.messages <= Perform(run, ops).rec.messages
    decreases |ops|
  {
    hide Apply;
    if ops != [] && PerformOp(run, ops[0]).Some? {
      if Apply(run.rec, ops[0]).Commit? { ListsGrow(run.rec, ops[0]); }
      MessagesOnlyGrow(PerformOp(run, ops[0]).value, ops[1..]);
    }
  }

  lemma ListsGrow(rec: SessionRecord, op: Op)
    requires Apply(rec, op).Commit?
    ensures rec.messages <= Apply(rec, op).record.messages
  {
  }

  /** A supervision that notes its verdict notes the one it acts on, before anything else. */
  lemma VerdictIsNoted(cfg: Config, run: RunState, order: seq<string>, gateId: string, now: string)
    requires run.rec.state == Supervising && run.rec.plan.Some? && Enumerates(order, run.rec.outputs)
    requires Evaluate(EvidenceOf(run.rec, order)).Ok?
    ensures var messages := Carry(cfg, run, Supervise(order, gateId, now, true)).rec.messages;
      && |run.rec.messages| < |messages| && messages[|run.rec.messages|].role == "supervisor"
      && messages[|run.rec.messages|].note == QaNote(Evaluate(EvidenceOf(run.rec, order)).value, None)
  {
    hide PerformOp, Perform, Evaluate, EvidenceOf, Enumerates, VerdictScript;
    EnumeratesOnlyOutputs(order, run.rec.outputs);
    var qa := Evaluate(EvidenceOf(run.rec, order)).value;
    var m := Message("supervisor", "verdict", QaNote(qa, None));
    var rest := VerdictScript(cfg, run.rec, qa, gateId, now);
    AddedMessage(run, m);
    ManyOps(run, AddMessage(m), rest);
    MessagesOnlyGrow(PerformOp(run, AddMessage(m)).value, rest);
  }

  /** A tool gate is opened for a worker of the running plan exactly when no gate matches its request, and names what it asks for. */
  lemma ToolGateIsAskedOnce(cfg: Config, run: RunState, i: nat, network: bool, gateId: string, now: string)
    requires run.rec.state == Executing && run.rec.plan.Some? && i < |run.rec.plan.value.workers|
    requires GateIndex(run.rec.gates, gateId).None? && !Blank(gateId) && !Blank(run.rec.runId) && !Blank(now)
    ensures var plan := run.rec.plan.value;
      var worker := plan.workers[i];
      var risky := cfg.riskyTools(worker.requiredTools, plan.requiredCapabilities);
      var req := ToolRequest(run.rec.runId, worker.workerId, worker.requiredTools, plan.requiredCapabilities, cfg.backendId, network);
      var gates := Carry(cfg, run, OpenToolGate(i, network, gateId, now)).rec.gates;
      if exists g :: g in run.rec.gates && Matches(g, req, risky) then gates == run.rec.gates
      else
        && |gates| == |run.rec.gates| + 1 && gates[..|run.rec.gates|] == run.rec.gates
        && var g := gates[|run.rec.gates|];
           && g.gateId == gateId && g.runId == run.rec.runId && g.kind == "TOOL_RISK" && Offers(g, {Approve, Reject})
           && g.context == ToolContext(worker.workerId, risky, plan.requiredCapabilities, cfg.backendId, network)
  {
    hide PerformOp, Perform, Carry, Blank, Matches, GateIndex;
    ToolGateIsAdded(cfg, run, i, network, gateId, now);
  }

  lemma ToolGateIsAdded(cfg: Config, run: RunState, i: nat, network: bool, gateId: string, now: string)
    requires run.rec.state == Executing && run.rec.plan.Some? && i < |run.rec.plan.value.workers|
    requires GateIndex(run.rec.gates, gateId).None? && !Blank(gateId) && !Blank(run.rec.runId) && !Blank(now)
    ensures var req := PlanRequest(cfg, run.rec, i, network);
      var risky := PlanRisk(cfg, run.rec, i);
      Carry(cfg, run, OpenToolGate(i, network, gateId, now)).rec.gates ==
      run.rec.gates + if Matching(run.rec.gates, req, risky).Some? then [] else [ToolGate(req, risky, gateId, now)]
  {
    hide PerformOp, Blank, Matches, GateIndex, ValidGate, Matching;
    var req := PlanRequest(cfg, run.rec, i, network);
    var risky := PlanRisk(cfg, run.rec, i);
    NoMoreOps(run);
    if Matching(run.rec.gates, req, risky).None? {
      var g := ToolGate(req, risky, gateId, now);
      ToolGateIsValid(req, risky, gateId, now);
      Opened(run, g);
      OneOp(run, AddGate(g));
    }
  }

  lemma ToolGateIsValid(req: ToolRequest, risky: seq<string>, gateId: string, now: string)
    requires !Blank(gateId) && !Blank(req.runId) && !Blank(now)
    ensures ValidGate(ToolGate(req, risky, gateId, now))
  {
    var g := ToolGate(req, risky, gateId, now);
    NotBlank("TOOL_RISK");
    NotBlank(g.title);
    NotBlank(g.prompt);
  }
}
