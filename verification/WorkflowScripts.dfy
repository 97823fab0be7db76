/** Every script of operations is permitted, so every run keeps the invariant. */
module WorkflowScripts {
  import opened Wrappers
  import opened Contracts
  import opened Text
  import opened SessionStore
  import opened Approvals
  import opened RestartTransparency
  import opened Supervisor
  import opened Authorization
  import opened Workflow
  import opened WorkflowSafety

  lemma {:induction false} PerformKeepsInv(cfg: Config, run: RunState, ops: seq<Op>, k: nat)
    requires Inv(cfg, run) && AllPermitted(cfg, run, ops) && k <= |ops|
    ensures Inv(cfg, Perform(run, ops[..k]))
    decreases k
  {
    hide Inv, Permitted, PerformOp, Apply;
    if k > 0 {
      if Apply(run.rec, ops[0]).Commit? { OpKeepsInv(cfg, run, ops[0]); } else { NotCommitted(run, ops[0]); }
      assert ops[..k][0] == ops[0] && ops[..k][1..] == ops[1..][..k - 1];
      match PerformOp(run, ops[0]) {
        case None =>
        case Some(run') => PerformKeepsInv(cfg, run', ops[1..], k - 1);
      }
    }
  }

  // ----- Putting scripts together -----

  lemma Then(cfg: Config, run: RunState, op: Op, rest: seq<Op>)
    requires Permitted(cfg, run, op)
    requires PerformOp(run, op).Some? ==> AllPermitted(cfg, PerformOp(run, op).value, rest)
    ensures AllPermitted(cfg, run, [op] + rest)
  {
    hide Permitted, PerformOp;
    assert ([op] + rest)[1..] == rest;
  }

  lemma Only(cfg: Config, run: RunState, op: Op)
    requires Permitted(cfg, run, op)
    ensures AllPermitted(cfg, run, [op])
  {
    hide Permitted, PerformOp;
    Then(cfg, run, op, []);
    assert [op] + [] == [op];
  }

  // The operations that every state permits.
  predicate Plain(op: Op) {
    match op
    case Transition(target) => target !in {WaitingFinalApproval, Completed}
    case AddMessage(m) => !(m.note.QaNote? && m.note.evidenceHash.Some?) && !m.note.RevisionNote?
    case AddArtifact(_) => true
    case AddResult(_) => true
    case SetPlan(_) => true
    case SetOutput(_) => true
    case AddGate(g) => ValidGate(g) && g.status == Open && g.kind != "FINAL"
    case _ => false
  }

  lemma PlainIsPermitted(cfg: Config, run: RunState, op: Op)
    requires Plain(op)
    ensures Permitted(cfg, run, op)
  {
    hide ValidGate, PassedOn, Finished, RecordedHash;
  }

  lemma {:induction false} AllPlain(cfg: Config, run: RunState, ops: seq<Op>)
    requires forall op :: op in ops ==> Plain(op)
    ensures AllPermitted(cfg, run, ops)
    decreases |ops|
  {
    hide Permitted, PerformOp, Plain;
    if ops != [] {
      PlainIsPermitted(cfg, run, ops[0]);
      if PerformOp(run, ops[0]).Some? { AllPlain(cfg, PerformOp(run, ops[0]).value, ops[1..]); }
    }
  }

  // ----- Revisions -----

  lemma TransitionKeepsMessages(run: RunState, target: WorkflowState)
    requires PerformOp(run, Transition(target)).Some?
    ensures PerformOp(run, Transition(target)).value.rec.messages == run.rec.messages
    ensures PerformOp(run, Transition(target)).value.rec.state == target
  {
  }

  lemma RevisionIsPermitted(cfg: Config, run: RunState, limit: nat, state: WorkflowState)
    requires limit <= Most(cfg)
    ensures AllPermitted(cfg, run, RevisionScript(limit, state, |Revisions(run.rec.messages)|))
  {
    hide Permitted, PerformOp, AllPermitted, Revisions;
    var n := |Revisions(run.rec.messages)|;
    var script := RevisionScript(limit, state, n);
    if script == [] {
      AllPlain(cfg, run, []);
    } else if state == Revision {
      ArchitectingIsPermitted(cfg, run);
      assert script == [Transition(Architecting), AddMessage(RevisionMessage(n + 1))];
    } else {
      PlainIsPermitted(cfg, run, Transition(Revision));
      if PerformOp(run, Transition(Revision)).Some? {
        TransitionKeepsMessages(run, Revision);
        ArchitectingIsPermitted(cfg, PerformOp(run, Transition(Revision)).value);
      }
      Then(cfg, run, Transition(Revision), [Transition(Architecting), AddMessage(RevisionMessage(n + 1))]);
      assert script == [Transition(Revision)] + [Transition(Architecting), AddMessage(RevisionMessage(n + 1))];
    }
  }

  lemma ArchitectingIsPermitted(cfg: Config, run: RunState)
    requires |Revisions(run.rec.messages)| < Most(cfg)
    ensures AllPermitted(cfg, run, [Transition(Architecting), AddMessage(RevisionMessage(|Revisions(run.rec.messages)| + 1))])
  {
    hide PerformOp, AllPermitted, Revisions, PassedOn, Finished;
    var m := AddMessage(RevisionMessage(|Revisions(run.rec.messages)| + 1));
    PlainIsPermitted(cfg, run, Transition(Architecting));
    if PerformOp(run, Transition(Architecting)).Some? {
      TransitionKeepsMessages(run, Architecting);
      Only(cfg, PerformOp(run, Transition(Architecting)).value, m);
    }
    Then(cfg, run, Transition(Architecting), [m]);
    assert [Transition(Architecting), m] == [Transition(Architecting)] + [m];
  }

  lemma {:induction false} ThenPlain(cfg: Config, run: RunState, ops: seq<Op>, op: Op)
    requires AllPermitted(cfg, run, ops) && Plain(op)
    ensures AllPermitted(cfg, run, ops + [op])
    decreases |ops|
  {
    hide Permitted, PerformOp, Plain;
    if ops == [] {
      PlainIsPermitted(cfg, run, op);
      Only(cfg, run, op);
      assert ops + [op] == [op];
    } else {
      assert (ops + [op])[0] == ops[0] && (ops + [op])[1..] == ops[1..] + [op];
      if PerformOp(run, ops[0]).Some? { ThenPlain(cfg, PerformOp(run, ops[0]).value, ops[1..], op); }
    }
  }

  lemma FailureIsPermitted(cfg: Config, run: RunState)
    ensures AllPermitted(cfg, run, FailureScript(cfg, |Revisions(run.rec.messages)|))
  {
    hide Permitted, PerformOp, AllPermitted, Revisions, RevisionScript;
    PlainIsPermitted(cfg, run, Transition(Supervising));
    var revision := RevisionScript(cfg.recoveryRevisions, Supervising, |Revisions(run.rec.messages)|);
    var rest := if revision == [] then [] else revision + [AUDIT];
    if PerformOp(run, Transition(Supervising)).Some? {
      TransitionKeepsMessages(run, Supervising);
      var run1 := PerformOp(run, Transition(Supervising)).value;
      AllPlain(cfg, run1, []);
      RevisionIsPermitted(cfg, run1, cfg.recoveryRevisions, Supervising);
      ThenPlain(cfg, run1, revision, AUDIT);
    }
    Then(cfg, run, Transition(Supervising), rest);
  }

  // ----- Decisions -----

  lemma RecordedIsKnown(rec: SessionRecord, d: HumanDecision)
    requires IsRecordedIn(rec, d)
    ensures d in rec.decisions
  {
  }

  lemma ConfirmingChangesNothing(run: RunState, d: HumanDecision)
    requires IsRecordedIn(run.rec, d)
    ensures PerformOp(run, AddDecision(d)) == Some(run)
  {
    hide ValidDecision, Find;
  }

  lemma DecisionScript(cfg: Config, run: RunState, d: HumanDecision, rest: seq<Op>)
    requires IsRecordedIn(run.rec, d) && AllPermitted(cfg, run, rest)
    ensures AllPermitted(cfg, run, [AddDecision(d)] + rest)
  {
    hide IsRecordedIn, AllPermitted, PerformOp;
    RecordedIsKnown(run.rec, d);
    ConfirmingChangesNothing(run, d);
    Then(cfg, run, AddDecision(d), rest);
  }

  lemma ArchitectureIsPermitted(cfg: Config, run: RunState, d: HumanDecision)
    ensures AllPermitted(cfg, run, Script(cfg, run.rec, ArchitectureDecision(d)))
  {
    hide IsRecordedIn, AllPermitted, PerformOp, Permitted, Revisions;
    AllPlain(cfg, run, []);
    AllPlain(cfg, run, [Transition(Executing)]);
    AllPlain(cfg, run, [Transition(Rejected)]);
    if IsRecordedIn(run.rec, d) {
      DecisionScript(cfg, run, d, []);
      DecisionScript(cfg, run, d, [Transition(Executing)]);
      DecisionScript(cfg, run, d, [Transition(Rejected)]);
    }
  }

  lemma SetFinalResult(run: RunState, f: FinalResult)
    requires f.runId == run.rec.runId
    ensures PerformOp(run, SetFinal(f)).Some?
    ensures PerformOp(run, SetFinal(f)).value.rec == run.rec.(final := Some(f), revision := run.rec.revision + 1)
  {
  }

  lemma CompletionIsPermitted(cfg: Config, run: RunState, d: HumanDecision, final: Option<FinalResult>)
    requires run.rec.state == WaitingFinalApproval && ApprovedFinal(run.rec, d)
    ensures AllPermitted(cfg, run, CompletionScript(run.rec, d, final))
  {
    hide AllPermitted, PerformOp, RecordedHash, ApprovedFinal, PassedOn, ValidFinal;
    var script := CompletionScript(run.rec, d, final);
    if script == [] {
      AllPlain(cfg, run, []);
    } else {
      var f := script[0].final;
      SetFinalResult(run, f);
      var run' := PerformOp(run, SetFinal(f)).value;
      ApprovedIgnoresFinal(run.rec, run'.rec, d);
      Only(cfg, run', Transition(Completed));
      Then(cfg, run, SetFinal(f), [Transition(Completed)]);
      assert script == [SetFinal(f)] + [Transition(Completed)];
    }
  }

  lemma ApprovedIgnoresFinal(rec: SessionRecord, rec': SessionRecord, d: HumanDecision)
    requires ApprovedFinal(rec, d) && rec'.gates == rec.gates && rec'.decisions == rec.decisions
    ensures ApprovedFinal(rec', d)
  {
  }

  lemma FinalIsPermitted(cfg: Config, run: RunState, d: HumanDecision, final: Option<FinalResult>)
    ensures AllPermitted(cfg, run, Script(cfg, run.rec, FinalDecision(d, final)))
  {
    hide IsRecordedIn, AllPermitted, PerformOp, Permitted, Revisions, CompletionScript, RevisionScript, Find;
    AllPlain(cfg, run, []);
    if run.rec.state == WaitingFinalApproval && IsRecordedIn(run.rec, d) {
      RecordedGate(run.rec, d);
      if Find(run.rec.gates, d.gateId).value.kind == "FINAL" {
        match d.decision {
          case Approve =>
            CompletionIsPermitted(cfg, run, d, final);
            DecisionScript(cfg, run, d, CompletionScript(run.rec, d, final));
          case Modify =>
            RevisionIsPermitted(cfg, run, cfg.maxRevisions, WaitingFinalApproval);
            DecisionScript(cfg, run, d, RevisionScript(cfg.maxRevisions, WaitingFinalApproval, |Revisions(run.rec.messages)|));
          case Reject =>
            AllPlain(cfg, run, [Transition(Rejected)]);
            DecisionScript(cfg, run, d, [Transition(Rejected)]);
          case Clarify =>
            DecisionScript(cfg, run, d, []);
        }
      }
    }
  }

  lemma RecordedGate(rec: SessionRecord, d: HumanDecision)
    requires IsRecordedIn(rec, d)
    ensures d in rec.decisions && Find(rec.gates, d.gateId).Some? && Find(rec.gates, d.gateId).value.status == Resolved
  {
  }

  // ----- Gates -----

  lemma AnswerIsPermitted(cfg: Config, run: RunState, gateId: string, decision: DecisionType, feedback: string, actor: string, now: string)
    requires var script := AnswerScript(run.rec, gateId, decision, feedback, actor, now);
      script != []
    ensures var script := AnswerScript(run.rec, gateId, decision, feedback, actor, now);
      script == [script[0]] && script[0].ResolveGate? && Permitted(cfg, run, script[0])
  {
    hide ValidGate, ValidDecision, PassedOn, Finished, Strip, Blank, GateIndex;
  }

  lemma WithdrawIsPermitted(cfg: Config, run: RunState, gateId: string)
    requires Settled(run.rec)
    ensures AllPermitted(cfg, run, Script(cfg, run.rec, Withdraw(gateId)))
  {
    hide AllPermitted, PerformOp, WellFormed, DecisionsSettled, GateIndex, PassedOn, Finished, DecisionsOf;
    AllPlain(cfg, run, []);
    if Find(run.rec.gates, gateId).Some? {
      var g := Find(run.rec.gates, gateId).value;
      if g.status == Open {
        StillValid(g);
        hide ValidGate;
        Only(cfg, run, CancelGate(g.(status := Cancelled)));
      }
    }
  }

  lemma BuildIsPermitted(cfg: Config, run: RunState, plan: ArchitecturePlan, gateId: string, now: string)
    ensures AllPermitted(cfg, run, Script(cfg, run.rec, Build(plan, gateId, now)))
  {
    hide AllPermitted, ValidGate;
    AllPlain(cfg, run, Script(cfg, run.rec, Build(plan, gateId, now)));
  }

  lemma ToolGateIsPlain(req: ToolRequest, risky: seq<string>, gateId: string, now: string)
    ensures forall op :: op in GateRequest(ToolGate(req, risky, gateId, now)) ==> Plain(op)
  {
    hide ValidGate;
  }

  lemma OpenIsPermitted(cfg: Config, run: RunState, i: nat, network: bool, gateId: string, now: string)
    ensures AllPermitted(cfg, run, Script(cfg, run.rec, OpenToolGate(i, network, gateId, now)))
  {
    hide AllPermitted, Matching, PlanRisk, PlanRequest, Plain, GateRequest, ToolGate;
    AllPlain(cfg, run, []);
    if run.rec.state == Executing && run.rec.plan.Some? && i < |run.rec.plan.value.workers| {
      var req, risky := PlanRequest(cfg, run.rec, i, network), PlanRisk(cfg, run.rec, i);
      ToolGateIsPlain(req, risky, gateId, now);
      AllPlain(cfg, run, GateRequest(ToolGate(req, risky, gateId, now)));
    }
  }

  lemma PauseIsPermitted(cfg: Config, run: RunState, gateId: string)
    ensures AllPermitted(cfg, run, Script(cfg, run.rec, Pause(gateId)))
  {
    hide AllPermitted, Find;
    AllPlain(cfg, run, Script(cfg, run.rec, Pause(gateId)));
  }

  lemma ResolvingKeepsMessages(run: RunState, op: Op)
    requires (op.ResolveGate? || op.SetOutput?) && PerformOp(run, op).Some?
    ensures PerformOp(run, op).value.rec.messages == run.rec.messages
    ensures PerformOp(run, op).value.rec.state == run.rec.state
  {
  }

  lemma ResumeIsPermitted(cfg: Config, run: RunState, t: ToolVerdict)
    ensures AllPermitted(cfg, run, ResumeScript(cfg, run.rec, t))
  {
    hide AllPermitted, PerformOp, Permitted, AnswerScript, RevisionScript, Revisions, Find;
    AllPlain(cfg, run, []);
    var script := ResumeScript(cfg, run.rec, t);
    if script != [] {
      var answered := AnswerScript(run.rec, t.gateId, t.decision, t.feedback, t.actor, t.timestamp);
      AnswerIsPermitted(cfg, run, t.gateId, t.decision, t.feedback, t.actor, t.timestamp);
      var output := SetOutput(WorkerOutput(t.workerId, run.rec.runId, if t.decision == Approve then "approved" else "denied", None));
      var rest := if t.decision == Approve then [Transition(Executing)]
        else RevisionScript(cfg.maxRevisions, WorkerWaitingHuman, |Revisions(run.rec.messages)|);
      assert script == [answered[0]] + ([output] + rest);
      if PerformOp(run, answered[0]).Some? {
        ResolvingKeepsMessages(run, answered[0]);
        OutputThen(cfg, PerformOp(run, answered[0]).value, output, t.decision == Approve, rest);
      }
      Then(cfg, run, answered[0], [output] + rest);
    }
  }

  lemma OutputThen(cfg: Config, run: RunState, output: Op, approved: bool, rest: seq<Op>)
    requires output.SetOutput?
    requires rest == if approved then [Transition(Executing)] else RevisionScript(cfg.maxRevisions, WorkerWaitingHuman, |Revisions(run.rec.messages)|)
    ensures AllPermitted(cfg, run, [output] + rest)
  {
    hide AllPermitted, PerformOp, Permitted, RevisionScript, Revisions;
    PlainIsPermitted(cfg, run, output);
    if PerformOp(run, output).Some? {
      var run' := PerformOp(run, output).value;
      ResolvingKeepsMessages(run, output);
      AllPlain(cfg, run', [Transition(Executing)]);
      RevisionIsPermitted(cfg, run', cfg.maxRevisions, WorkerWaitingHuman);
    }
    Then(cfg, run, output, rest);
  }

  // ----- Supervision -----

  lemma AddedMessage(run: RunState, m: Message)
    ensures PerformOp(run, AddMessage(m)) ==
      Some(RunState(run.rec.(messages := run.rec.messages + [m], revision := run.rec.revision + 1), run.openings))
  {
  }

  lemma PassedIgnoresMessages(rec: SessionRecord, rec': SessionRecord)
    requires PassedOn(rec)
    requires rec'.runId == rec.runId && rec'.plan == rec.plan && rec'.outputs == rec.outputs && rec'.results == rec.results
    ensures PassedOn(rec')
  {
    hide Passes;
    var order :| Enumerates(order, rec.outputs) && Passes(EvidenceOf(rec, order));
    SameEvidence(rec, rec', order);
  }

  lemma SameEvidence(rec: SessionRecord, rec': SessionRecord, order: seq<string>)
    requires Enumerates(order, rec.outputs) && rec.plan.Some?
    requires rec'.runId == rec.runId && rec'.plan == rec.plan && rec'.outputs == rec.outputs && rec'.results == rec.results
    ensures EvidenceOf(rec', order) == EvidenceOf(rec, order)
  {
  }

  lemma PassIsPassed(rec: SessionRecord, order: seq<string>)
    requires rec.plan.Some? && Enumerates(order, rec.outputs) && Evaluate(EvidenceOf(rec, order)).Ok?
    ensures Evaluate(EvidenceOf(rec, order)).value.runId == rec.runId
    ensures Evaluate(EvidenceOf(rec, order)).value.status == Pass ==> PassedOn(rec)
  {
    VerdictIsExact(EvidenceOf(rec, order));
    hide Passes, Verdict, ValidInput, Blocking;
  }

  lemma Supervised(run: RunState)
    requires PerformOp(run, Transition(WaitingFinalApproval)).Some?
    ensures var rec := PerformOp(run, Transition(WaitingFinalApproval)).value.rec;
      rec == run.rec.(state := WaitingFinalApproval, revision := run.rec.revision + 1)
  {
  }

  lemma GateThen(cfg: Config, run: RunState, g: ApprovalGate)
    requires g.status == Open && PassedOn(run.rec) && g.context.QaContext?
    requires RecordedHash(run.rec.messages, run.rec.runId) == Ok(Some(g.context.evidenceHash))
    ensures AllPermitted(cfg, run, GateRequest(g))
  {
    hide AllPermitted, PassedOn, RecordedHash, ValidGate;
    AllPlain(cfg, run, []);
    if ValidGate(g) { Only(cfg, run, AddGate(g)); }
  }

  lemma PassIsPermitted(cfg: Config, run: RunState, qa: QaResult, gateId: string, now: string)
    requires run.rec.state == Supervising && PassedOn(run.rec) && qa.status == Pass && qa.runId == run.rec.runId
    ensures AllPermitted(cfg, run, VerdictScript(cfg, run.rec, qa, gateId, now))
  {
    hide AllPermitted, PerformOp, PassedOn, RecordedHash, GateRequest, Finished;
    var note := Message("supervisor", "pass", QaNote(qa, Some(Sha256(qa))));
    var gate := FinalGate(run.rec.runId, gateId, Sha256(qa), now);
    AddedMessage(run, note);
    HashAppended(run.rec.messages, note, run.rec.runId);
    var run1 := PerformOp(run, AddMessage(note)).value;
    PassedIgnoresMessages(run.rec, run1.rec);
    if PerformOp(run1, Transition(WaitingFinalApproval)).Some? {
      var run2 := PerformOp(run1, Transition(WaitingFinalApproval)).value;
      Supervised(run1);
      PassedIgnoresMessages(run1.rec, run2.rec);
      GateThen(cfg, run2, gate);
    }
    Then(cfg, run1, Transition(WaitingFinalApproval), GateRequest(gate));
    Then(cfg, run, AddMessage(note), [Transition(WaitingFinalApproval)] + GateRequest(gate));
    assert VerdictScript(cfg, run.rec, qa, gateId, now) == [AddMessage(note)] + ([Transition(WaitingFinalApproval)] + GateRequest(gate));
  }

  lemma VerdictIsPermitted(cfg: Config, run: RunState, qa: QaResult, gateId: string, now: string)
    requires run.rec.state == Supervising && qa.runId == run.rec.runId && (qa.status == Pass ==> PassedOn(run.rec))
    ensures AllPermitted(cfg, run, VerdictScript(cfg, run.rec, qa, gateId, now))
  {
    hide AllPermitted, PassedOn, RevisionScript, Revisions, GateRequest;
    match qa.status {
      case Pass => PassIsPermitted(cfg, run, qa, gateId, now);
      case Revise => RevisionIsPermitted(cfg, run, cfg.maxRevisions, Supervising);
      case Fail => AllPlain(cfg, run, [Transition(Failed)]);
    }
  }

  lemma VerdictIgnoresNote(cfg: Config, rec: SessionRecord, qa: QaResult, gateId: string, now: string, m: Message, revision: nat)
    requires !m.note.RevisionNote?
    ensures VerdictScript(cfg, rec.(messages := rec.messages + [m], revision := revision), qa, gateId, now) == VerdictScript(cfg, rec, qa, gateId, now)
  {
    RevisionsAppended(rec.messages, m);
    hide Revisions;
  }

  lemma SuperviseIsPermitted(cfg: Config, run: RunState, order: seq<string>, gateId: string, now: string, noted: bool)
    ensures AllPermitted(cfg, run, Script(cfg, run.rec, Supervise(order, gateId, now, noted)))
  {
    hide AllPermitted, PassedOn, VerdictScript, Evaluate, Enumerates, EvidenceOf, PerformOp, Permitted;
    AllPlain(cfg, run, []);
    if run.rec.state == Supervising && run.rec.plan.Some? && Enumerates(order, run.rec.outputs) {
      EnumeratesOnlyOutputs(order, run.rec.outputs);
      var verdict := Evaluate(EvidenceOf(run.rec, order));
      if verdict.Ok? {
        var qa := verdict.value;
        PassIsPassed(run.rec, order);
        VerdictIsPermitted(cfg, run, qa, gateId, now);
        if noted { NotedVerdict(cfg, run, qa, gateId, now); }
        else { assert [] + VerdictScript(cfg, run.rec, qa, gateId, now) == VerdictScript(cfg, run.rec, qa, gateId, now); }
      }
    }
  }

  lemma EnumeratesOnlyOutputs(order: seq<string>, outputs: map<string, WorkerOutput>)
    requires Enumerates(order, outputs)
    ensures forall w :: w in order ==> w in outputs
  {
  }

  lemma NotedVerdict(cfg: Config, run: RunState, qa: QaResult, gateId: string, now: string)
    requires run.rec.state == Supervising && qa.runId == run.rec.runId && (qa.status == Pass ==> PassedOn(run.rec))
    ensures AllPermitted(cfg, run,
      [AddMessage(Message("supervisor", "verdict", QaNote(qa, None)))] + VerdictScript(cfg, run.rec, qa, gateId, now))
  {
    hide AllPermitted, PassedOn, VerdictScript, PerformOp, Permitted;
    var note := Message("supervisor", "verdict", QaNote(qa, None));
    AddedMessage(run, note);
    var run' := PerformOp(run, AddMessage(note)).value;
    if qa.status == Pass { PassedIgnoresMessages(run.rec, run'.rec); }
    VerdictIsPermitted(cfg, run', qa, gateId, now);
    VerdictIgnoresNote(cfg, run.rec, qa, gateId, now, note, run.rec.revision + 1);
    PlainIsPermitted(cfg, run, AddMessage(note));
    Then(cfg, run, AddMessage(note), VerdictScript(cfg, run.rec, qa, gateId, now));
  }

  // ----- All commands -----

  lemma SimpleIsPermitted(cfg: Config, run: RunState, cmd: Command)
    requires cmd.Start? || cmd.BeginArchitecture? || cmd.BeginSupervision? || cmd.Recover? || cmd.Other?
    ensures AllPermitted(cfg, run, Script(cfg, run.rec, cmd))
  {
    hide AllPermitted;
    AllPlain(cfg, run, Script(cfg, run.rec, cmd));
  }

  lemma ScriptIsPermitted(cfg: Config, run: RunState, cmd: Command)
    requires Inv(cfg, run)
    ensures AllPermitted(cfg, run, Script(cfg, run.rec, cmd))
  {
    hide AllPermitted, AnswerScript, ResumeScript, RevisionScript, FailureScript, Permitted, SoundNotes, Numbered, FinalGatesOpened, Finished, Settled;
    match cmd {
      case Answer(gateId, decision, feedback, actor, now) =>
        if AnswerScript(run.rec, gateId, decision, feedback, actor, now) == [] { AllPlain(cfg, run, []); }
        else {
          AnswerIsPermitted(cfg, run, gateId, decision, feedback, actor, now);
          Only(cfg, run, AnswerScript(run.rec, gateId, decision, feedback, actor, now)[0]);
        }
      case Withdraw(gateId) => WithdrawIsPermitted(cfg, run, gateId);
      case Build(plan, gateId, now) => BuildIsPermitted(cfg, run, plan, gateId, now);
      case ArchitectureDecision(d) => ArchitectureIsPermitted(cfg, run, d);
      case FinalDecision(d, final) => FinalIsPermitted(cfg, run, d, final);
      case RequestRevision => RevisionIsPermitted(cfg, run, cfg.maxRevisions, run.rec.state);
      case OpenToolGate(i, network, gateId, now) => OpenIsPermitted(cfg, run, i, network, gateId, now);
      case Pause(gateId) => PauseIsPermitted(cfg, run, gateId);
      case ResumeTool(t) => ResumeIsPermitted(cfg, run, t);
      case RecoverFailure => if run.rec.state == Executing { FailureIsPermitted(cfg, run); } else { AllPlain(cfg, run, []); }
      case Supervise(order, gateId, now, noted) => SuperviseIsPermitted(cfg, run, order, gateId, now, noted);
      case _ => SimpleIsPermitted(cfg, run, cmd);
    }
  }

  lemma StepKeepsInv(cfg: Config, run: RunState, s: Stride)
    requires Inv(cfg, run)
    ensures Inv(cfg, Proceed(cfg, run, s))
  {
    hide Inv, Script, AllPermitted, Perform;
    ScriptIsPermitted(cfg, run, s.cmd);
    var ops := Script(cfg, run.rec, s.cmd);
    PerformKeepsInv(cfg, run, ops, if s.length <= |ops| then s.length else |ops|);
  }

  // Every state of every run keeps the invariant, wherever its processes stopped.
  lemma {:induction false} EveryRunKeepsInv(cfg: Config, runId: string, strides: seq<Stride>)
    ensures Inv(cfg, ProceedAll(cfg, NewRun(runId), strides))
  {
    if strides != [] {
      hide Inv, Proceed;
      EveryRunKeepsInv(cfg, runId, strides[..|strides| - 1]);
      StepKeepsInv(cfg, ProceedAll(cfg, NewRun(runId), strides[..|strides| - 1]), strides[|strides| - 1]);
    }
  }
}
