/** Runs that wait for a human who can never answer: exactly when two of the waiting states can be left. */
module WorkflowStalls {
  import opened Wrappers
  import opened Contracts
  import opened Text
  import opened SessionStore
  import opened Approvals
  import opened RestartTransparency
  import opened Authorization
  import opened Workflow
  import opened WorkflowSafety
  import opened WorkflowScripts
  import opened WorkflowEffects
  import opened WorkflowCoverage

  predicate Decisive(d: DecisionType) { d == Approve || d == Reject }

  // Somebody approved or rejected a gate of the run, or still can.
  ghost predicate Answerable(rec: SessionRecord) {
    || (exists d :: d in rec.decisions && Decisive(d.decision))
    || (exists g :: g in rec.gates && CanBeDecided(g))
  }

  predicate CanBeDecided(g: ApprovalGate) { g.status == Open && (Approve in g.allowed || Reject in g.allowed) }

  // ----- Nothing but a decision moves such a run -----

  predicate Idling(op: Op) {
    match op
    case Transition(_) => false
    case AddGate(_) => false
    case ResolveGate(_, d) => !Decisive(d.decision)
    case _ => true
  }

  lemma DecisionsAfter(cfg: Config, run: RunState, op: Op)
    requires Permitted(cfg, run, op) && Idling(op) && Apply(run.rec, op).Commit?
    requires forall d :: d in run.rec.decisions ==> !Decisive(d.decision)
    ensures forall d :: d in Apply(run.rec, op).record.decisions ==> !Decisive(d.decision)
  {
    hide Apply, SameGate, PermittedGate, PermittedMessage, PassedOn, Finished, ValidGate, ValidDecision, Decisive;
    ApplyAppends(run.rec, op);
    if op.AddDecision? { KnownDecisionIsNotAdded(run.rec, op.decision); }
  }

  lemma GatesAfter(cfg: Config, run: RunState, op: Op)
    requires Settled(run.rec) && Permitted(cfg, run, op) && Idling(op) && Apply(run.rec, op).Commit?
    requires forall g :: g in run.rec.gates ==> !CanBeDecided(g)
    ensures forall g :: g in Apply(run.rec, op).record.gates ==> !CanBeDecided(g)
  {
    hide Apply, Settled, SameGate, PermittedMessage, PassedOn, Finished, ValidGate, ValidDecision, GateIndex, UniqueGates;
    if op.ResolveGate? || op.CancelGate? {
      OpenGateIndex(run.rec, op);
    } else {
      UntouchedGates(run.rec, op);
    }
  }

  lemma IdlingKeepsWaiting(cfg: Config, run: RunState, op: Op)
    requires Settled(run.rec) && Permitted(cfg, run, op) && Idling(op) && Apply(run.rec, op).Commit? && !Answerable(run.rec)
    ensures !Answerable(PerformOp(run, op).value.rec)
    ensures PerformOp(run, op).value.rec.state == run.rec.state
  {
    hide Apply, Settled, Permitted, PerformOp, CanBeDecided, Decisive;
    CommittedOp(run, op);
    AppliedState(run.rec, op);
    DecisionsAfter(cfg, run, op);
    GatesAfter(cfg, run, op);
  }

  lemma {:induction false} PerformKeepsWaiting(cfg: Config, run: RunState, ops: seq<Op>, k: nat)
    requires Inv(cfg, run) && AllPermitted(cfg, run, ops) && k <= |ops| && !Answerable(run.rec)
    requires forall op :: op in ops ==> Idling(op)
    ensures !Answerable(Perform(run, ops[..k]).rec) && Perform(run, ops[..k]).rec.state == run.rec.state
    decreases k
  {
    hide Inv, Permitted, PerformOp, Apply, Idling, Answerable;
    if k > 0 {
      assert ops[..k][0] == ops[0] && ops[..k][1..] == ops[1..][..k - 1];
      if Apply(run.rec, ops[0]).Commit? {
        SettledRun(cfg, run);
        OpKeepsInv(cfg, run, ops[0]);
        IdlingKeepsWaiting(cfg, run, ops[0]);
      } else {
        NotCommitted(run, ops[0]);
      }
      match PerformOp(run, ops[0]) {
        case None =>
        case Some(run') => PerformKeepsWaiting(cfg, run', ops[1..], k - 1);
      }
    }
  }

  lemma AnswerIdles(rec: SessionRecord, gateId: string, decision: DecisionType, feedback: string, actor: string, now: string)
    requires !Answerable(rec)
    ensures forall op :: op in AnswerScript(rec, gateId, decision, feedback, actor, now) ==> Idling(op)
  {
    hide ValidGate, ValidDecision, Blank, Strip, GateIndex;
    if AnswerScript(rec, gateId, decision, feedback, actor, now) != [] {
      var g := Find(rec.gates, gateId).value;
      assert g in rec.gates && !CanBeDecided(g);
    }
  }

  lemma DecisionIdles(cfg: Config, rec: SessionRecord, d: HumanDecision)
    requires !Answerable(rec)
    ensures forall op :: op in Script(cfg, rec, ArchitectureDecision(d)) ==> Idling(op)
  {
    hide IsRecordedIn, Revisions;
    if IsRecordedIn(rec, d) { RecordedGate(rec, d); }
  }

  lemma WaitingScriptIdles(cfg: Config, rec: SessionRecord, cmd: Command)
    requires rec.state == WaitingArchitectApproval && !Answerable(rec)
    ensures forall op :: op in Script(cfg, rec, cmd) ==> Idling(op)
  {
    hide Answerable, AnswerScript, Find;
    match cmd {
      case Answer(gateId, decision, feedback, actor, now) => AnswerIdles(rec, gateId, decision, feedback, actor, now);
      case ArchitectureDecision(d) => DecisionIdles(cfg, rec, d);
      case _ =>
    }
  }

  lemma {:induction false} WaitsForever(cfg: Config, run: RunState, strides: seq<Stride>)
    requires Inv(cfg, run) && run.rec.state == WaitingArchitectApproval && !Answerable(run.rec)
    ensures var run' := ProceedAll(cfg, run, strides);
      Inv(cfg, run') && run'.rec.state == WaitingArchitectApproval && !Answerable(run'.rec)
  {
    hide Inv, Answerable, Script, Perform, AllPermitted, Idling;
    if strides != [] {
      var before := ProceedAll(cfg, run, strides[..|strides| - 1]);
      var s := strides[|strides| - 1];
      WaitsForever(cfg, run, strides[..|strides| - 1]);
      StepKeepsInv(cfg, before, s);
      ScriptIsPermitted(cfg, before, s.cmd);
      WaitingScriptIdles(cfg, before.rec, s.cmd);
      var ops := Script(cfg, before.rec, s.cmd);
      PerformKeepsWaiting(cfg, before, ops, if s.length <= |ops| then s.length else |ops|);
    }
  }

  // ----- A decision moves it -----

  lemma DecisionIsRecorded(rec: SessionRecord, d: HumanDecision)
    requires Settled(rec) && d in rec.decisions
    ensures IsRecordedIn(rec, d)
  {
    hide ValidGate, ValidDecision, GateIndex, DecisionsOf, UniqueResults;
    var g := Find(rec.gates, d.gateId).value;
    DecisionsOfMembers(rec.decisions, d.gateId);
    assert Coupled(g, DecisionsOf(rec.decisions, g.gateId));
    assert d in DecisionsOf(rec.decisions, d.gateId);
    assert DecisionsOf(rec.decisions, d.gateId) == [d];
    TheOnlyDecision(rec.decisions, d.gateId, d);
  }

  lemma DecisionMoves(cfg: Config, run: RunState, d: HumanDecision)
    requires Settled(run.rec) && d in run.rec.decisions && Decisive(d.decision) && run.rec.state == WaitingArchitectApproval
    ensures Proceed(cfg, run, Stride(ArchitectureDecision(d), 2)).rec.state != WaitingArchitectApproval
  {
    hide Settled, IsRecordedIn, PerformOp;
    DecisionIsRecorded(run.rec, d);
    var target := if d.decision == Approve then Executing else Rejected;
    ConfirmingChangesNothing(run, d);
    Moved(run, target);
    ManyOps(run, AddDecision(d), [Transition(target)]);
    OneOp(run, Transition(target));
    var ops := Script(cfg, run.rec, ArchitectureDecision(d));
    assert ops == [AddDecision(d)] + [Transition(target)];
    assert ops[..2] == ops;
  }

  lemma OpenGateHasNoDecision(rec: SessionRecord, g: ApprovalGate)
    requires Settled(rec) && g in rec.gates && g.status == Open
    ensures FindDecision(rec.decisions, g.gateId).None?
  {
    hide ValidGate, ValidDecision, GateIndex, WellFormed, DecisionsOf;
    DecisionsOfMembers(rec.decisions, g.gateId);
    assert Coupled(g, DecisionsOf(rec.decisions, g.gateId));
    forall d | d in rec.decisions ensures d.gateId != g.gateId {
      assert d in DecisionsOf(rec.decisions, g.gateId) <==> d.gateId == g.gateId;
    }
  }

  lemma OpenGateFacts(rec: SessionRecord, g: ApprovalGate)
    requires Settled(rec) && g in rec.gates
    ensures ValidGate(g) && g.runId == rec.runId && Find(rec.gates, g.gateId) == Some(g)
  {
    hide ValidGate, ValidDecision, GateIndex, DecisionsOf, UniqueResults, UniqueDecisions;
    FindMember(rec.gates, g);
  }

  lemma Resolving(run: RunState, g: ApprovalGate, d: HumanDecision)
    requires Find(run.rec.gates, g.gateId) == Some(g) && g.status == Open && g.runId == d.runId == run.rec.runId && d.gateId == g.gateId
    requires FindDecision(run.rec.decisions, g.gateId).None?
    ensures var op := ResolveGate(AsResolved(g, "t"), d);
      && PerformOp(run, op).Some?
      && PerformOp(run, op).value.rec.state == run.rec.state && d in PerformOp(run, op).value.rec.decisions
      && PerformOp(run, op).value.rec.messages == run.rec.messages && PerformOp(run, op).value.rec.runId == run.rec.runId
      && AsResolved(g, "t") in PerformOp(run, op).value.rec.gates
  {
    hide GateIndex, FindDecision;
    var i := GateIndex(run.rec.gates, g.gateId).value;
    assert run.rec.gates[i := AsResolved(g, "t")][i] == AsResolved(g, "t");
  }

  lemma OpenGateIsAnswered(cfg: Config, run: RunState, g: ApprovalGate, decision: DecisionType)
    requires Settled(run.rec) && g in run.rec.gates && g.status == Open && decision in g.allowed
    ensures var run' := Proceed(cfg, run, Stride(Answer(g.gateId, decision, "", "human", "t"), 1));
      && run'.rec.state == run.rec.state && run'.rec.messages == run.rec.messages && run'.rec.runId == run.rec.runId
      && Said(g.gateId, run.rec.runId, decision, "t") in run'.rec.decisions && AsResolved(g, "t") in run'.rec.gates
  {
    hide Settled, PerformOp, AnswerScript, ValidGate, Blank, Strip, Find, FindDecision;
    OpenGateFacts(run.rec, g);
    OpenGateHasNoDecision(run.rec, g);
    StripHuman();
    NotBlank("t");
    StaysValid(g, "t");
    AnswerIsOneOp(run.rec, g, decision, "t");
    var op := ResolveGate(AsResolved(g, "t"), Said(g.gateId, run.rec.runId, decision, "t"));
    Resolving(run, g, Said(g.gateId, run.rec.runId, decision, "t"));
    OneOp(run, op);
    assert [op][..1] == [op];
  }

  lemma TwoStrides(cfg: Config, run: RunState, s: Stride, t: Stride)
    ensures ProceedAll(cfg, run, [s]) == Proceed(cfg, run, s)
    ensures ProceedAll(cfg, run, [s, t]) == Proceed(cfg, Proceed(cfg, run, s), t)
  {
    hide Proceed;
    assert [s, t][..1] == [s] && [s][..0] == [];
    assert ProceedAll(cfg, run, []) == run;
  }

  lemma SomebodyDecides(cfg: Config, run: RunState) returns (strides: seq<Stride>)
    requires Inv(cfg, run) && run.rec.state == WaitingArchitectApproval && Answerable(run.rec)
    ensures ProceedAll(cfg, run, strides).rec.state != WaitingArchitectApproval
  {
    hide Inv, Settled, Proceed, ProceedAll;
    SettledRun(cfg, run);
    if d :| d in run.rec.decisions && Decisive(d.decision) {
      strides := [Stride(ArchitectureDecision(d), 2)];
      DecisionMoves(cfg, run, d);
      TwoStrides(cfg, run, strides[0], strides[0]);
    } else {
      var g :| g in run.rec.gates && CanBeDecided(g);
      var decision := if Approve in g.allowed then Approve else Reject;
      var d := Said(g.gateId, run.rec.runId, decision, "t");
      strides := [Stride(Answer(g.gateId, decision, "", "human", "t"), 1), Stride(ArchitectureDecision(d), 2)];
      OpenGateIsAnswered(cfg, run, g, decision);
      StepKeepsInv(cfg, run, strides[0]);
      SettledRun(cfg, Proceed(cfg, run, strides[0]));
      DecisionMoves(cfg, Proceed(cfg, run, strides[0]), d);
      TwoStrides(cfg, run, strides[0], strides[1]);
    }
  }

  /**
   A run that waits for its architecture approval can ever leave that state exactly when some gate of the run has been
   approved or rejected, or is open and allows it. No command opens another gate for it: recovery only notes that it waits.
   */
  lemma WaitingEndsExactly(cfg: Config, run: RunState)
    requires Inv(cfg, run) && run.rec.state == WaitingArchitectApproval
    ensures (exists strides :: ProceedAll(cfg, run, strides).rec.state != WaitingArchitectApproval) <==> Answerable(run.rec)
  {
    hide Inv, Answerable, ProceedAll;
    if Answerable(run.rec) {
      var strides := SomebodyDecides(cfg, run);
    } else {
      forall strides ensures ProceedAll(cfg, run, strides).rec.state == WaitingArchitectApproval { WaitsForever(cfg, run, strides); }
    }
  }

  lemma NoGatesNoDecisions(rec: SessionRecord)
    requires Settled(rec) && rec.gates == []
    ensures !Answerable(rec)
  {
    hide ValidDecision, WellFormed, GatesSettled;
    assert forall id :: GateIndex(rec.gates, id) == None;
  }

  /** A process that stops in the first build_architecture, after the transition and before the gate, leaves the run there forever. */
  lemma StoppedFirstBuildStalls(cfg: Config, runId: string, before: seq<Stride>, plan: ArchitecturePlan, gateId: string, now: string, after: seq<Stride>)
    requires var rec := ProceedAll(cfg, NewRun(runId), before).rec;
      rec.state == Architecting && rec.gates == []
    ensures var stopped := Proceed(cfg, ProceedAll(cfg, NewRun(runId), before), Stride(Build(plan, gateId, now), 2));
      ProceedAll(cfg, stopped, after).rec.state == WaitingArchitectApproval
  {
    hide Inv, Answerable, ProceedAll, Proceed, Settled;
    var run := ProceedAll(cfg, NewRun(runId), before);
    EveryRunKeepsInv(cfg, runId, before);
    StepKeepsInv(cfg, run, Stride(Build(plan, gateId, now), 2));
    StoppedBeforeTheGate(cfg, run, plan, gateId, now);
    var stopped := Proceed(cfg, run, Stride(Build(plan, gateId, now), 2));
    SettledRun(cfg, stopped);
    NoGatesNoDecisions(stopped.rec);
    WaitsForever(cfg, stopped, after);
  }

  // ----- Waiting for a tool approval -----

  predicate CanBeApproved(cfg: Config, g: ApprovalGate) {
    g.status == Open && g.kind == "TOOL_RISK" && g.context.ToolContext? && g.context.backendId == cfg.backendId && Approve in g.allowed
  }

  // Another revision is allowed, or some open tool gate of the configured backend can be approved.
  ghost predicate Resumable(cfg: Config, rec: SessionRecord) {
    |Revisions(rec.messages)| < cfg.maxRevisions || exists g :: g in rec.gates && CanBeApproved(cfg, g)
  }

  predicate Pausing(op: Op) {
    match op
    case Transition(_) => false
    case AddGate(_) => false
    case AddMessage(m) => !m.note.RevisionNote?
    case _ => true
  }

  lemma PausingKeepsGates(cfg: Config, run: RunState, op: Op)
    requires Settled(run.rec) && Permitted(cfg, run, op) && Pausing(op) && Apply(run.rec, op).Commit?
    requires forall g :: g in run.rec.gates ==> !CanBeApproved(cfg, g)
    ensures forall g :: g in Apply(run.rec, op).record.gates ==> !CanBeApproved(cfg, g)
  {
    hide Apply, Settled, SameGate, PermittedMessage, PassedOn, Finished, ValidGate, ValidDecision, GateIndex, UniqueGates;
    if op.ResolveGate? || op.CancelGate? {
      OpenGateIndex(run.rec, op);
    } else {
      UntouchedGates(run.rec, op);
    }
  }

  lemma PausingKeepsPaused(cfg: Config, run: RunState, op: Op)
    requires Settled(run.rec) && Permitted(cfg, run, op) && Pausing(op) && Apply(run.rec, op).Commit? && !Resumable(cfg, run.rec)
    ensures !Resumable(cfg, PerformOp(run, op).value.rec)
    ensures PerformOp(run, op).value.rec.state == run.rec.state
  {
    hide Apply, Settled, Permitted, PerformOp, CanBeApproved, Revisions;
    CommittedOp(run, op);
    AppliedState(run.rec, op);
    AppliedMessages(run.rec, op);
    if op.AddMessage? { RevisionsAppended(run.rec.messages, op.message); }
    PausingKeepsGates(cfg, run, op);
  }

  lemma {:induction false} PerformKeepsPaused(cfg: Config, run: RunState, ops: seq<Op>, k: nat)
    requires Inv(cfg, run) && AllPermitted(cfg, run, ops) && k <= |ops| && !Resumable(cfg, run.rec)
    requires forall op :: op in ops ==> Pausing(op)
    ensures !Resumable(cfg, Perform(run, ops[..k]).rec) && Perform(run, ops[..k]).rec.state == run.rec.state
    decreases k
  {
    hide Inv, Permitted, PerformOp, Apply, Pausing, Resumable;
    if k > 0 {
      assert ops[..k][0] == ops[0] && ops[..k][1..] == ops[1..][..k - 1];
      if Apply(run.rec, ops[0]).Commit? {
        SettledRun(cfg, run);
        OpKeepsInv(cfg, run, ops[0]);
        PausingKeepsPaused(cfg, run, ops[0]);
      } else {
        NotCommitted(run, ops[0]);
      }
      match PerformOp(run, ops[0]) {
        case None =>
        case Some(run') => PerformKeepsPaused(cfg, run', ops[1..], k - 1);
      }
    }
  }

  lemma AnswerPauses(rec: SessionRecord, gateId: string, decision: DecisionType, feedback: string, actor: string, now: string)
    ensures forall op :: op in AnswerScript(rec, gateId, decision, feedback, actor, now) ==> Pausing(op)
    ensures AnswerScript(rec, gateId, decision, feedback, actor, now) != [] ==>
      Find(rec.gates, gateId).Some? && Find(rec.gates, gateId).value.status == Open && decision in Find(rec.gates, gateId).value.allowed
  {
    hide ValidGate, ValidDecision, Blank, Strip, GateIndex;
  }

  lemma ResumePauses(cfg: Config, rec: SessionRecord, t: ToolVerdict)
    requires !Resumable(cfg, rec)
    ensures forall op :: op in ResumeScript(cfg, rec, t) ==> Pausing(op)
  {
    hide AnswerScript, Revisions, GateIndex;
    AnswerPauses(rec, t.gateId, t.decision, t.feedback, t.actor, t.timestamp);
    if ResumeScript(cfg, rec, t) != [] {
      var g := Find(rec.gates, t.gateId).value;
      assert g in rec.gates && !CanBeApproved(cfg, g);
    }
  }

  lemma PausedScriptPauses(cfg: Config, rec: SessionRecord, cmd: Command)
    requires rec.state == WorkerWaitingHuman && !Resumable(cfg, rec)
    ensures forall op :: op in Script(cfg, rec, cmd) ==> Pausing(op)
  {
    hide Resumable, AnswerScript, ResumeScript, Find, Revisions;
    assert |Revisions(rec.messages)| >= cfg.maxRevisions by { NoRevisionLeft(cfg, rec); }
    match cmd {
      case Answer(gateId, decision, feedback, actor, now) => AnswerPauses(rec, gateId, decision, feedback, actor, now);
      case ResumeTool(t) => ResumePauses(cfg, rec, t);
      case _ =>
    }
  }

  lemma NoRevisionLeft(cfg: Config, rec: SessionRecord)
    requires !Resumable(cfg, rec)
    ensures |Revisions(rec.messages)| >= cfg.maxRevisions
  {
  }

  lemma {:induction false} PausedForever(cfg: Config, run: RunState, strides: seq<Stride>)
    requires Inv(cfg, run) && run.rec.state == WorkerWaitingHuman && !Resumable(cfg, run.rec)
    ensures var run' := ProceedAll(cfg, run, strides);
      Inv(cfg, run') && run'.rec.state == WorkerWaitingHuman && !Resumable(cfg, run'.rec)
  {
    hide Inv, Resumable, Script, Perform, AllPermitted, Pausing;
    if strides != [] {
      var before := ProceedAll(cfg, run, strides[..|strides| - 1]);
      var s := strides[|strides| - 1];
      PausedForever(cfg, run, strides[..|strides| - 1]);
      StepKeepsInv(cfg, before, s);
      ScriptIsPermitted(cfg, before, s.cmd);
      PausedScriptPauses(cfg, before.rec, s.cmd);
      var ops := Script(cfg, before.rec, s.cmd);
      PerformKeepsPaused(cfg, before, ops, if s.length <= |ops| then s.length else |ops|);
    }
  }

  lemma ResumeIsThreeOps(cfg: Config, rec: SessionRecord, g: ApprovalGate, t: ToolVerdict)
    requires rec.state == WorkerWaitingHuman && Find(rec.gates, t.gateId) == Some(g) && BelongsTo(g, t) && g.context.backendId == cfg.backendId
    requires t.decision == Approve && t.feedback == "" && t.actor == "human" && t.timestamp == "t" && t.gateId == g.gateId
    requires AnswerScript(rec, g.gateId, Approve, "", "human", "t") == [ResolveGate(AsResolved(g, "t"), Said(g.gateId, rec.runId, Approve, "t"))]
    ensures ResumeScript(cfg, rec, t) == [ResolveGate(AsResolved(g, "t"), Said(g.gateId, rec.runId, Approve, "t"))]
      + ([SetOutput(WorkerOutput(t.workerId, rec.runId, "approved", None))] + [Transition(Executing)])
  {
    hide AnswerScript, Find, AsResolved, Said;
  }

  lemma OutputIsSet(run: RunState, o: WorkerOutput)
    requires o.runId == run.rec.runId
    ensures PerformOp(run, SetOutput(o)).Some? && PerformOp(run, SetOutput(o)).value.rec.state == run.rec.state
  {
  }

  lemma ApprovalResumes(cfg: Config, run: RunState, g: ApprovalGate, t: ToolVerdict)
    requires Settled(run.rec) && g in run.rec.gates && CanBeApproved(cfg, g) && run.rec.state == WorkerWaitingHuman
    requires t == ToolVerdict(g.gateId, Approve, run.rec.runId, g.context.workerId, "", "human", cfg.backendId, false, "t")
    ensures Proceed(cfg, run, Stride(ResumeTool(t), 3)).rec.state == Executing
  {
    hide Settled, PerformOp, AnswerScript, ResumeScript, ValidGate, Blank, Strip, Find, FindDecision;
    OpenGateFacts(run.rec, g);
    OpenGateHasNoDecision(run.rec, g);
    StripHuman();
    NotBlank("t");
    StaysValid(g, "t");
    AnswerIsOneOp(run.rec, g, Approve, "t");
    ResumeIsThreeOps(cfg, run.rec, g, t);
    var answer := ResolveGate(AsResolved(g, "t"), Said(g.gateId, run.rec.runId, Approve, "t"));
    var output := WorkerOutput(t.workerId, run.rec.runId, "approved", None);
    Resolving(run, g, Said(g.gateId, run.rec.runId, Approve, "t"));
    var run1 := PerformOp(run, answer).value;
    ResolvingKeepsRunId(run, answer);
    OutputIsSet(run1, output);
    var run2 := PerformOp(run1, SetOutput(output)).value;
    Moved(run2, Executing);
    OneOp(run2, Transition(Executing));
    ManyOps(run1, SetOutput(output), [Transition(Executing)]);
    ManyOps(run, answer, [SetOutput(output)] + [Transition(Executing)]);
    var ops := ResumeScript(cfg, run.rec, t);
    assert ops[..3] == ops;
  }

  lemma ResolvingKeepsRunId(run: RunState, op: Op)
    requires op.ResolveGate? && PerformOp(run, op).Some?
    ensures PerformOp(run, op).value.rec.runId == run.rec.runId
  {
    hide GateIndex, FindDecision;
  }

  lemma RevisionLeaves(cfg: Config, run: RunState)
    requires Revisable(run.rec.state) && run.rec.state != Revision && |Revisions(run.rec.messages)| < cfg.maxRevisions
    ensures Proceed(cfg, run, Stride(RequestRevision, 3)).rec.state == Architecting
  {
    hide Revisions, Perform;
    Revised(cfg, run);
    var ops := Script(cfg, run.rec, RequestRevision);
    assert ops[..3] == ops;
  }

  lemma SomebodyResumes(cfg: Config, run: RunState) returns (strides: seq<Stride>)
    requires Inv(cfg, run) && run.rec.state == WorkerWaitingHuman && Resumable(cfg, run.rec)
    ensures ProceedAll(cfg, run, strides).rec.state != WorkerWaitingHuman
  {
    hide Inv, Settled, Proceed, ProceedAll, Revisions;
    SettledRun(cfg, run);
    if |Revisions(run.rec.messages)| < cfg.maxRevisions {
      strides := [Stride(RequestRevision, 3)];
      RevisionLeaves(cfg, run);
    } else {
      var g :| g in run.rec.gates && CanBeApproved(cfg, g);
      var t := ToolVerdict(g.gateId, Approve, run.rec.runId, g.context.workerId, "", "human", cfg.backendId, false, "t");
      strides := [Stride(ResumeTool(t), 3)];
      ApprovalResumes(cfg, run, g, t);
    }
    TwoStrides(cfg, run, strides[0], strides[0]);
  }

  /**
   A run that waits for a tool approval can ever leave that state exactly when its revision limit is not reached or some
   open tool gate of the configured backend allows APPROVE.
   */
  lemma PausingEndsExactly(cfg: Config, run: RunState)
    requires Inv(cfg, run) && run.rec.state == WorkerWaitingHuman
    ensures (exists strides :: ProceedAll(cfg, run, strides).rec.state != WorkerWaitingHuman) <==> Resumable(cfg, run.rec)
  {
    hide Inv, Resumable, ProceedAll;
    if Resumable(cfg, run.rec) {
      var strides := SomebodyResumes(cfg, run);
    } else {
      forall strides ensures ProceedAll(cfg, run, strides).rec.state == WorkerWaitingHuman { PausedForever(cfg, run, strides); }
    }
  }

  // ----- A denial at the revision limit -----

  lemma DenialIsPausing(cfg: Config, rec: SessionRecord, t: ToolVerdict)
    requires |Revisions(rec.messages)| >= cfg.maxRevisions && t.decision != Approve
    ensures forall op :: op in ResumeScript(cfg, rec, t) ==> Pausing(op)
  {
    hide AnswerScript, Revisions, GateIndex;
    AnswerPauses(rec, t.gateId, t.decision, t.feedback, t.actor, t.timestamp);
  }

  lemma FirstOpCloses(cfg: Config, run: RunState, t: ToolVerdict)
    requires Settled(run.rec) && ResumeScript(cfg, run.rec, t) != []
    requires forall g :: g in run.rec.gates && CanBeApproved(cfg, g) ==> g.gateId == t.gateId
    ensures var op := ResumeScript(cfg, run.rec, t)[0];
      && PerformOp(run, op).Some?
      && (forall g :: g in PerformOp(run, op).value.rec.gates ==> !CanBeApproved(cfg, g))
      && PerformOp(run, op).value.rec.state == run.rec.state && PerformOp(run, op).value.rec.messages == run.rec.messages
  {
    hide Settled, ValidGate, ValidDecision, Blank, Strip, GateIndex, FindDecision, Revisions, RevisionScript;
    var g := Find(run.rec.gates, t.gateId).value;
    OpenGateFacts(run.rec, g);
    OpenGateHasNoDecision(run.rec, g);
    var op := ResumeScript(cfg, run.rec, t)[0];
    assert op.ResolveGate? && op.gate.gateId == g.gateId && op.gate.status == Resolved;
    OneOfEachId(run.rec);
    UniqueIndex(run.rec, g);
  }

  lemma OneOfEachId(rec: SessionRecord)
    requires Settled(rec)
    ensures UniqueGates(rec.gates)
  {
    hide UniqueGates, GatesSettled, DecisionsSettled;
  }

  lemma UniqueIndex(rec: SessionRecord, g: ApprovalGate)
    requires UniqueGates(rec.gates) && g in rec.gates
    ensures GateIndex(rec.gates, g.gateId).Some? && rec.gates[GateIndex(rec.gates, g.gateId).value] == g
    ensures forall h :: h in rec.gates && h.gateId == g.gateId ==> h == g
  {
  }

  /**
   Once the revision limit is reached, denying the only tool gate that could still be approved is recorded, no revision
   follows, and the run stays in WORKER_WAITING_HUMAN whatever happens later.
   */
  lemma DenialAtTheLimitStalls(cfg: Config, run: RunState, t: ToolVerdict, strides: seq<Stride>)
    requires Inv(cfg, run) && run.rec.state == WorkerWaitingHuman && |Revisions(run.rec.messages)| >= cfg.maxRevisions
    requires t.decision != Approve && ResumeScript(cfg, run.rec, t) != []
    requires forall g :: g in run.rec.gates && CanBeApproved(cfg, g) ==> g.gateId == t.gateId
    ensures ProceedAll(cfg, Carry(cfg, run, ResumeTool(t)), strides).rec.state == WorkerWaitingHuman
  {
    hide Inv, Settled, ProceedAll, Permitted, PerformOp, ResumeScript, Revisions, AllPermitted, CanBeApproved;
    var ops := ResumeScript(cfg, run.rec, t);
    SettledRun(cfg, run);
    FirstOpCloses(cfg, run, t);
    ResumeIsPermitted(cfg, run, t);
    DenialIsPausing(cfg, run.rec, t);
    var run1 := PerformOp(run, ops[0]).value;
    FirstStepKeepsInv(cfg, run, ops);
    PerformKeepsPaused(cfg, run1, ops[1..], |ops| - 1);
    assert ops[1..][..|ops| - 1] == ops[1..];
    CarryKeepsInv(cfg, run, ResumeTool(t));
    PausedForever(cfg, Carry(cfg, run, ResumeTool(t)), strides);
  }

  lemma FirstStepKeepsInv(cfg: Config, run: RunState, ops: seq<Op>)
    requires Inv(cfg, run) && ops != [] && AllPermitted(cfg, run, ops) && PerformOp(run, ops[0]).Some?
    ensures Inv(cfg, PerformOp(run, ops[0]).value) && AllPermitted(cfg, PerformOp(run, ops[0]).value, ops[1..])
  {
    hide Inv, Permitted, PerformOp, Apply;
    if Apply(run.rec, ops[0]).Commit? { OpKeepsInv(cfg, run, ops[0]); } else { NotCommitted(run, ops[0]); }
  }
}
