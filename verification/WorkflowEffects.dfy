/** What the commands do to the record when nothing refuses them. */
module WorkflowEffects {
  import opened Wrappers
  import opened Contracts
  import opened Text
  import opened SessionStore
  import opened Approvals
  import opened Supervisor
  import opened Workflow
  import opened WorkflowSafety
  import opened WorkflowScripts

  lemma NotBlank(s: string)
    requires s != [] && !Whitespace(s[0])
    ensures !Blank(s)
  {
  }

  function PassNote(qa: QaResult): Message { Message("supervisor", "pass", QaNote(qa, Some(Sha256(qa)))) }

  lemma Moved(run: RunState, target: WorkflowState)
    requires target in AllowedTargets(run.rec.state)
    ensures PerformOp(run, Transition(target)) == Some(run.(rec := run.rec.(state := target, revision := run.rec.revision + 1)))
  {
  }

  lemma Opened(run: RunState, g: ApprovalGate)
    requires g.runId == run.rec.runId && GateIndex(run.rec.gates, g.gateId).None?
    ensures PerformOp(run, AddGate(g)).Some?
    ensures PerformOp(run, AddGate(g)).value.rec == run.rec.(gates := run.rec.gates + [g], revision := run.rec.revision + 1)
  {
  }

  lemma Built(cfg: Config, run: RunState, plan: ArchitecturePlan, gateId: string, now: string)
    requires run.rec.state == Architecting && GateIndex(run.rec.gates, gateId).None?
    requires !Blank(gateId) && !Blank(run.rec.runId) && !Blank(now)
    ensures Carry(cfg, run, Build(plan, gateId, now)).rec ==
      run.rec.(plan := Some(plan), state := WaitingArchitectApproval,
               gates := run.rec.gates + [ArchitectureGate(run.rec.runId, gateId, plan, now)], revision := run.rec.revision + 3)
  {
    hide Blank, GateIndex, PerformOp;
    var gate := ArchitectureGate(run.rec.runId, gateId, plan, now);
    ArchitectureGateIsValid(run.rec.runId, gateId, plan, now);
    Planned(run, plan);
    var run1 := PerformOp(run, SetPlan(plan)).value;
    Moved(run1, WaitingArchitectApproval);
    var run2 := PerformOp(run1, Transition(WaitingArchitectApproval)).value;
    Opened(run2, gate);
    OneOp(run2, AddGate(gate));
    ManyOps(run1, Transition(WaitingArchitectApproval), [AddGate(gate)]);
    ManyOps(run, SetPlan(plan), [Transition(WaitingArchitectApproval)] + [AddGate(gate)]);
    assert Script(cfg, run.rec, Build(plan, gateId, now)) == [SetPlan(plan)] + ([Transition(WaitingArchitectApproval)] + [AddGate(gate)]);
  }

  lemma Planned(run: RunState, plan: ArchitecturePlan)
    ensures PerformOp(run, SetPlan(plan)) == Some(run.(rec := run.rec.(plan := Some(plan), revision := run.rec.revision + 1)))
  {
  }

  lemma ArchitectureGateIsValid(runId: string, gateId: string, plan: ArchitecturePlan, now: string)
    requires !Blank(gateId) && !Blank(runId) && !Blank(now)
    ensures ValidGate(ArchitectureGate(runId, gateId, plan, now))
  {
    NotBlank("ARCHITECTURE");
    NotBlank("Approve architecture plan");
    NotBlank("Review the proposed architecture.");
  }

  lemma FinalGateIsValid(runId: string, gateId: string, evidence: Digest, now: string)
    requires !Blank(gateId) && !Blank(runId) && !Blank(now)
    ensures ValidGate(FinalGate(runId, gateId, evidence, now))
  {
    NotBlank("FINAL");
    NotBlank("Approve final result");
    NotBlank("Human approval is required.");
  }

  function Said(gateId: string, runId: string, decision: DecisionType, now: string): HumanDecision {
    HumanDecision(gateId, runId, decision, "", now, "human")
  }

  lemma StripHuman()
    ensures Strip("human") == "human" && Strip("") == "" && !Blank("human")
  {
    NotBlank("human");
    assert StripLeft("human") == "human";
    assert StripRight("human") == "human";
  }

  // Answering an open gate that is last in the record.
  lemma Answered(cfg: Config, run: RunState, gates: seq<ApprovalGate>, g: ApprovalGate, decision: DecisionType, now: string)
    requires run.rec.gates == gates + [g] && GateIndex(gates, g.gateId).None?
    requires ValidGate(g) && g.status == Open && decision in g.allowed && g.runId == run.rec.runId && !Blank(now) && now != ""
    requires FindDecision(run.rec.decisions, g.gateId).None?
    ensures Carry(cfg, run, Answer(g.gateId, decision, "", "human", now)).rec ==
      run.rec.(gates := gates + [AsResolved(g, now)], decisions := run.rec.decisions + [Said(g.gateId, run.rec.runId, decision, now)],
               revision := run.rec.revision + 1)
  {
    hide FindDecision, GateIndex, Strip, Blank;
    StripHuman();
    LastGate(gates, g);
    StaysValid(g, now);
    var op := ResolveGate(AsResolved(g, now), Said(g.gateId, run.rec.runId, decision, now));
    AnswerIsOneOp(run.rec, g, decision, now);
    ResolvedLast(run, gates, g, decision, now);
    OneOp(run, op);
  }

  lemma {:induction false} LastIndex(gates: seq<ApprovalGate>, g: ApprovalGate)
    requires GateIndex(gates, g.gateId).None?
    ensures GateIndex(gates + [g], g.gateId) == Some(|gates|)
  {
    if gates != [] {
      assert (gates + [g])[1..] == gates[1..] + [g];
      LastIndex(gates[1..], g);
    }
  }

  lemma LastGate(gates: seq<ApprovalGate>, g: ApprovalGate)
    requires GateIndex(gates, g.gateId).None?
    ensures GateIndex(gates + [g], g.gateId) == Some(|gates|) && Find(gates + [g], g.gateId) == Some(g)
  {
    LastIndex(gates, g);
    hide GateIndex;
  }

  lemma StaysValid(g: ApprovalGate, now: string)
    requires ValidGate(g) && now != ""
    ensures ValidGate(AsResolved(g, now))
  {
  }

  lemma AnswerIsOneOp(rec: SessionRecord, g: ApprovalGate, decision: DecisionType, now: string)
    requires Find(rec.gates, g.gateId) == Some(g) && g.status == Open && decision in g.allowed && g.runId == rec.runId
    requires ValidGate(g) && ValidGate(AsResolved(g, now)) && !Blank(now) && !Blank("human") && Strip("human") == "human" && Strip("") == ""
    ensures AnswerScript(rec, g.gateId, decision, "", "human", now) ==
      [ResolveGate(AsResolved(g, now), Said(g.gateId, rec.runId, decision, now))]
  {
    hide Find, Strip, Blank;
    assert !Blank(g.gateId) && !Blank(g.runId) by { ValidGateNames(g); }
    hide ValidGate;
  }

  lemma ValidGateNames(g: ApprovalGate)
    requires ValidGate(g)
    ensures !Blank(g.gateId) && !Blank(g.runId)
  {
  }

  lemma ResolvedLast(run: RunState, gates: seq<ApprovalGate>, g: ApprovalGate, decision: DecisionType, now: string)
    requires run.rec.gates == gates + [g] && GateIndex(run.rec.gates, g.gateId) == Some(|gates|)
    requires g.status == Open && g.runId == run.rec.runId && FindDecision(run.rec.decisions, g.gateId).None?
    ensures var op := ResolveGate(AsResolved(g, now), Said(g.gateId, run.rec.runId, decision, now));
      && PerformOp(run, op).Some?
      && PerformOp(run, op).value.rec ==
         run.rec.(gates := gates + [AsResolved(g, now)], decisions := run.rec.decisions + [Said(g.gateId, run.rec.runId, decision, now)],
                  revision := run.rec.revision + 1)
  {
    hide GateIndex, FindDecision;
    assert run.rec.gates[|gates| := AsResolved(g, now)] == gates + [AsResolved(g, now)];
  }

  // Applying an architecture decision, of whichever gate.
  lemma Approved(cfg: Config, run: RunState, d: HumanDecision)
    requires run.rec.state == WaitingArchitectApproval && IsRecordedIn(run.rec, d) && d.decision == Approve
    ensures Carry(cfg, run, ArchitectureDecision(d)).rec == run.rec.(state := Executing, revision := run.rec.revision + 1)
  {
    hide IsRecordedIn, PerformOp;
    ConfirmingChangesNothing(run, d);
    Moved(run, Executing);
    ManyOps(run, AddDecision(d), [Transition(Executing)]);
    OneOp(run, Transition(Executing));
  }

  lemma Simple(cfg: Config, run: RunState, cmd: Command, target: WorkflowState)
    requires || (cmd == Start && run.rec.state == Idle && target == Intake)
             || (cmd == BeginArchitecture && run.rec.state == Intake && target == Architecting)
             || (cmd == BeginSupervision && run.rec.state == Executing && target == Supervising)
    ensures Carry(cfg, run, cmd).rec == run.rec.(state := target, revision := run.rec.revision + 1)
  {
    hide PerformOp;
    Moved(run, target);
    OneOp(run, Transition(target));
  }

  lemma Revised(cfg: Config, run: RunState)
    requires Revisable(run.rec.state) && run.rec.state != Revision && |Revisions(run.rec.messages)| < cfg.maxRevisions
    ensures Carry(cfg, run, RequestRevision).rec ==
      run.rec.(state := Architecting, messages := run.rec.messages + [RevisionMessage(|Revisions(run.rec.messages)| + 1)],
               revision := run.rec.revision + 3)
  {
    hide PerformOp, Revisions;
    var m := RevisionMessage(|Revisions(run.rec.messages)| + 1);
    Moved(run, Revision);
    var run1 := PerformOp(run, Transition(Revision)).value;
    Moved(run1, Architecting);
    var run2 := PerformOp(run1, Transition(Architecting)).value;
    AddedMessage(run2, m);
    OneOp(run2, AddMessage(m));
    ManyOps(run1, Transition(Architecting), [AddMessage(m)]);
    ManyOps(run, Transition(Revision), [Transition(Architecting)] + [AddMessage(m)]);
    assert Script(cfg, run.rec, RequestRevision) == [Transition(Revision)] + ([Transition(Architecting)] + [AddMessage(m)]);
  }

  // Recovery asks its own revision service, whatever the coordinator's limit is.
  lemma FailureRecovered(cfg: Config, run: RunState)
    requires run.rec.state == Executing && |Revisions(run.rec.messages)| < cfg.recoveryRevisions
    ensures var rec := Carry(cfg, run, RecoverFailure).rec;
      && rec.state == Architecting
      && Revisions(rec.messages) == Revisions(run.rec.messages) + [|Revisions(run.rec.messages)| + 1]
  {
    hide PerformOp, Revisions;
    var n := |Revisions(run.rec.messages)|;
    var m := RevisionMessage(n + 1);
    Moved(run, Supervising);
    var run1 := PerformOp(run, Transition(Supervising)).value;
    Moved(run1, Revision);
    var run2 := PerformOp(run1, Transition(Revision)).value;
    Moved(run2, Architecting);
    var run3 := PerformOp(run2, Transition(Architecting)).value;
    AddedMessage(run3, m);
    var run4 := PerformOp(run3, AddMessage(m)).value;
    AddedMessage(run4, AUDIT.message);
    RevisionsAppended(run.rec.messages, m);
    RevisionsAppended(run4.rec.messages, AUDIT.message);
    OneOp(run4, AUDIT);
    ManyOps(run3, AddMessage(m), [AUDIT]);
    ManyOps(run2, Transition(Architecting), [AddMessage(m)] + [AUDIT]);
    ManyOps(run1, Transition(Revision), [Transition(Architecting)] + ([AddMessage(m)] + [AUDIT]));
    ManyOps(run, Transition(Supervising), [Transition(Revision)] + ([Transition(Architecting)] + ([AddMessage(m)] + [AUDIT])));
    assert Script(cfg, run.rec, RecoverFailure) ==
      [Transition(Supervising)] + ([Transition(Revision)] + ([Transition(Architecting)] + ([AddMessage(m)] + [AUDIT])));
  }

  lemma ResultAdded(cfg: Config, run: RunState, r: ExecutionResult)
    requires r.runId == Some(run.rec.runId) && FindResult(run.rec.results, r.executionId).None?
    ensures Carry(cfg, run, Other(AddResult(r))).rec == run.rec.(results := run.rec.results + [r], revision := run.rec.revision + 1)
  {
    hide FindResult;
    OneOp(run, AddResult(r));
  }

  lemma OutputSet(cfg: Config, run: RunState, o: WorkerOutput)
    requires o.runId == run.rec.runId
    ensures Carry(cfg, run, Other(SetOutput(o))).rec ==
      run.rec.(outputs := run.rec.outputs[o.workerId := o], revision := run.rec.revision + 1)
  {
    OneOp(run, SetOutput(o));
  }

  // Recording a verdict that passes.
  lemma PassRecorded(cfg: Config, run: RunState, qa: QaResult, gateId: string, now: string)
    requires run.rec.state == Supervising && qa.status == Pass
    requires GateIndex(run.rec.gates, gateId).None? && !Blank(gateId) && !Blank(run.rec.runId) && !Blank(now)
    ensures Perform(run, VerdictScript(cfg, run.rec, qa, gateId, now)).rec ==
      run.rec.(messages := run.rec.messages + [PassNote(qa)], state := WaitingFinalApproval,
               gates := run.rec.gates + [FinalGate(run.rec.runId, gateId, Sha256(qa), now)], revision := run.rec.revision + 3)
  {
    hide PerformOp, Blank, GateIndex, ValidGate;
    var gate := FinalGate(run.rec.runId, gateId, Sha256(qa), now);
    FinalGateIsValid(run.rec.runId, gateId, Sha256(qa), now);
    AddedMessage(run, PassNote(qa));
    var run1 := PerformOp(run, AddMessage(PassNote(qa))).value;
    Moved(run1, WaitingFinalApproval);
    var run2 := PerformOp(run1, Transition(WaitingFinalApproval)).value;
    Opened(run2, gate);
    OneOp(run2, AddGate(gate));
    ManyOps(run1, Transition(WaitingFinalApproval), [AddGate(gate)]);
    ManyOps(run, AddMessage(PassNote(qa)), [Transition(WaitingFinalApproval)] + [AddGate(gate)]);
    assert VerdictScript(cfg, run.rec, qa, gateId, now) == [AddMessage(PassNote(qa))] + ([Transition(WaitingFinalApproval)] + [AddGate(gate)]);
  }

  // A supervision that passes.
  lemma SupervisionPassed(cfg: Config, run: RunState, order: seq<string>, gateId: string, now: string)
    requires run.rec.state == Supervising && run.rec.plan.Some? && Enumerates(order, run.rec.outputs)
    requires Evaluate(EvidenceOf(run.rec, order)).Ok? && Evaluate(EvidenceOf(run.rec, order)).value.status == Pass
    requires GateIndex(run.rec.gates, gateId).None? && !Blank(gateId) && !Blank(run.rec.runId) && !Blank(now)
    ensures var qa := Evaluate(EvidenceOf(run.rec, order)).value;
      Carry(cfg, run, Supervise(order, gateId, now, false)).rec ==
      run.rec.(messages := run.rec.messages + [PassNote(qa)], state := WaitingFinalApproval,
               gates := run.rec.gates + [FinalGate(run.rec.runId, gateId, Sha256(qa), now)], revision := run.rec.revision + 3)
  {
    hide PerformOp, Perform, Evaluate, EvidenceOf, Blank, GateIndex, VerdictScript, Enumerates;
    EnumeratesOnlyOutputs(order, run.rec.outputs);
    var qa := Evaluate(EvidenceOf(run.rec, order)).value;
    PassRecorded(cfg, run, qa, gateId, now);
    assert [] + VerdictScript(cfg, run.rec, qa, gateId, now) == VerdictScript(cfg, run.rec, qa, gateId, now);
  }

  // Applying an APPROVE of a FINAL gate, of whichever one.
  lemma Completes(cfg: Config, run: RunState, d: HumanDecision, h: Digest)
    requires run.rec.state == WaitingFinalApproval && IsRecordedIn(run.rec, d) && d.decision == Approve && d.feedback == ""
    requires Find(run.rec.gates, d.gateId).value.kind == "FINAL"
    requires RecordedHash(run.rec.messages, run.rec.runId) == Ok(Some(h)) && !Blank(run.rec.runId)
    ensures var rec := Carry(cfg, run, FinalDecision(d, None)).rec;
      rec.state == Completed && rec.gates == run.rec.gates && rec.decisions == run.rec.decisions
      && rec.final.Some? && rec.final.value.evidenceHash == Some(h)
  {
    hide PerformOp, IsRecordedIn, RecordedHash, Find, Blank;
    NotBlank("Final result approved by human.");
    var f := FinalResult(run.rec.runId, "Final result approved by human.", Some(h));
    ConfirmingChangesNothing(run, d);
    SetFinalResult(run, f);
    var run1 := PerformOp(run, SetFinal(f)).value;
    Moved(run1, Completed);
    OneOp(run1, Transition(Completed));
    ManyOps(run, SetFinal(f), [Transition(Completed)]);
    ManyOps(run, AddDecision(d), [SetFinal(f)] + [Transition(Completed)]);
    assert Script(cfg, run.rec, FinalDecision(d, None)) == [AddDecision(d)] + ([SetFinal(f)] + [Transition(Completed)]);
  }
}
