/** Reachable runs in which what the other modules show can go wrong does go wrong. */
module WorkflowExamples {
  import opened Wrappers
  import opened Contracts
  import opened Text
  import opened SessionStore
  import opened Approvals
  import opened Supervisor
  import opened Authorization
  import opened Workflow
  import opened WorkflowSafety
  import opened WorkflowScripts
  import opened WorkflowTheorems
  import opened WorkflowEffects
  import opened WorkflowStalls
  import opened WorkflowFinalStalls
  import opened WorkflowInterleaving
  import opened WorkflowFreshness

  ghost predicate Reachable(cfg: Config, run: RunState) { exists strides :: ProceedAll(cfg, NewRun("run"), strides) == run }

  lemma NewRunIsReachable(cfg: Config)
    ensures Reachable(cfg, NewRun("run"))
  {
    assert ProceedAll(cfg, NewRun("run"), []) == NewRun("run");
  }

  lemma ReachesNext(cfg: Config, run: RunState, s: Stride)
    requires Reachable(cfg, run)
    ensures Reachable(cfg, Proceed(cfg, run, s))
  {
    hide Proceed;
    var strides :| ProceedAll(cfg, NewRun("run"), strides) == run;
    assert (strides + [s])[..|strides|] == strides;
    assert ProceedAll(cfg, NewRun("run"), strides + [s]) == Proceed(cfg, run, s);
  }

  lemma Reaches(cfg: Config, run: RunState, cmd: Command)
    requires Reachable(cfg, run)
    ensures Reachable(cfg, Carry(cfg, run, cmd))
  {
    hide Script, Perform, Reachable;
    var ops := Script(cfg, run.rec, cmd);
    assert ops[..|ops|] == ops;
    ReachesNext(cfg, run, Stride(cmd, |ops|));
  }

  lemma ReachableKeepsInv(cfg: Config, run: RunState)
    requires Reachable(cfg, run)
    ensures Inv(cfg, run)
  {
    hide Inv, ProceedAll;
    var strides :| ProceedAll(cfg, NewRun("run"), strides) == run;
    EveryRunKeepsInv(cfg, "run", strides);
  }

  lemma FirstPlanIsReachable(cfg: Config)
    ensures Reachable(cfg, FirstPlanRuns(cfg))
  {
    hide Carry, Reachable;
    NewRunIsReachable(cfg);
    var r0 := NewRun("run");
    Reaches(cfg, r0, Start);
    var r1 := Carry(cfg, r0, Start);
    Reaches(cfg, r1, BeginArchitecture);
    var r2 := Carry(cfg, r1, BeginArchitecture);
    Reaches(cfg, r2, Build(PLAN_1, "a", "t"));
    var r3 := Carry(cfg, r2, Build(PLAN_1, "a", "t"));
    Reaches(cfg, r3, Answer("a", Approve, "", "human", "t"));
    Reaches(cfg, Carry(cfg, r3, Answer("a", Approve, "", "human", "t")), ArchitectureDecision(Said("a", "run", Approve, "t")));
  }

  lemma FirstWorkIsReachable(cfg: Config)
    ensures Reachable(cfg, FirstWorkDone(cfg))
  {
    hide Carry, Reachable, FirstPlanRuns;
    FirstPlanIsReachable(cfg);
    Reaches(cfg, FirstPlanRuns(cfg), Other(AddResult(RESULT_1)));
    var r1 := Carry(cfg, FirstPlanRuns(cfg), Other(AddResult(RESULT_1)));
    Reaches(cfg, r1, Other(SetOutput(OUTPUT)));
    Reaches(cfg, Carry(cfg, r1, Other(SetOutput(OUTPUT))), BeginSupervision);
  }

  // ----- A failure that is missed -----

  const FAILURE: ExecutionResult := ExecutionResult("9", Error, "", "b", Some("run"), Some("w"))

  lemma FailureIsNew(results: seq<ExecutionResult>)
    requires results == [RESULT_1]
    ensures FindResult(results, FAILURE.executionId).None?
  {
    assert results[0].executionId == "1" && results[1..] == [];
  }

  /** A reachable run that passes; a failure stored right after the snapshot is on record when its gate opens, and the run completes. */
  lemma MissedFailureIsReachable(cfg: Config)
    ensures var run := FirstWorkDone(cfg);
      var waiting := RecordedAround(run, Qa(PLAN_1, [RESULT_1]), "f", "t", [AddResult(FAILURE)], [], []);
      && Reachable(cfg, run) && run.rec.state == Supervising
      && ApprovedAround(cfg, waiting, "f", "t").rec.state == Completed
      && "f" in waiting.openings && FAILURE in waiting.openings["f"].results
  {
    hide Reachable, Inv, FirstWorkDone, RecordedAround, ApprovedAround, Qa, Evaluate, EvidenceOf, Enumerates, Blank, FindResult;
    Names();
    FirstWorkIsReachable(cfg);
    ReachableKeepsInv(cfg, FirstWorkDone(cfg));
    FirstWorkIsDone(cfg);
    var run := FirstWorkDone(cfg);
    EvidencePasses(PLAN_1, [RESULT_1]);
    EvidenceIsInput(run.rec, PLAN_1, [RESULT_1]);
    QaIs(PLAN_1, [RESULT_1]);
    FailureIsNew(run.rec.results);
    FinalGateIsNew(run.rec.gates);
    AFailureIsMissed(cfg, run, ["w"], "f", "t", FAILURE);
  }

  lemma FinalGateIsNew(gates: seq<ApprovalGate>)
    requires gates == [ResolvedArchitecture()]
    ensures GateIndex(gates, "f").None?
  {
    assert gates[0].gateId == "a" && gates[1..] == [];
  }

  // ----- A first build that stops before its gate -----

  const TWO_STARTS: seq<Stride> := [Stride(Start, 1), Stride(BeginArchitecture, 1)]

  lemma StartedRun(cfg: Config)
    ensures ProceedAll(cfg, NewRun("run"), TWO_STARTS).rec.state == Architecting && ProceedAll(cfg, NewRun("run"), TWO_STARTS).rec.gates == []
  {
    hide Carry, Proceed, ProceedAll;
    var r0 := NewRun("run");
    Simple(cfg, r0, Start, Intake);
    var r1 := Carry(cfg, r0, Start);
    Simple(cfg, r1, BeginArchitecture, Architecting);
    OneStepScript(cfg, r0, Start);
    OneStepScript(cfg, r1, BeginArchitecture);
    TwoStrides(cfg, r0, TWO_STARTS[0], TWO_STARTS[1]);
  }

  lemma OneStepScript(cfg: Config, run: RunState, cmd: Command)
    requires cmd == Start || cmd == BeginArchitecture
    ensures Proceed(cfg, run, Stride(cmd, 1)) == Carry(cfg, run, cmd)
  {
    WholeScript(cfg, run, cmd, 1);
  }

  /** From nothing: the run is started, its first build stops before the gate, and it waits there forever. */
  lemma FirstBuildCanStall(cfg: Config, plan: ArchitecturePlan, gateId: string, now: string, after: seq<Stride>)
    ensures var stopped := Proceed(cfg, ProceedAll(cfg, NewRun("run"), TWO_STARTS), Stride(Build(plan, gateId, now), 2));
      ProceedAll(cfg, stopped, after).rec.state == WaitingArchitectApproval
  {
    hide Proceed, ProceedAll;
    StartedRun(cfg);
    StoppedFirstBuildStalls(cfg, "run", TWO_STARTS, plan, gateId, now, after);
  }

  // ----- A run that has used its only revision -----

  ghost function SecondBuilt(cfg: Config): RunState {
    Carry(cfg, Carry(cfg, Carry(cfg, FirstPlanRuns(cfg), BeginSupervision), RequestRevision), Build(PLAN_2, "b", "t"))
  }

  ghost function RevisedRuns(cfg: Config): RunState {
    Carry(cfg, Carry(cfg, SecondBuilt(cfg), Answer("b", Approve, "", "human", "t")), ArchitectureDecision(Said("b", "run", Approve, "t")))
  }

  function ResolvedSecond(): ApprovalGate { AsResolved(ArchitectureGate("run", "b", PLAN_2, "t"), "t") }

  lemma SecondIsBuilt(cfg: Config)
    requires cfg.maxRevisions == 1
    ensures Reachable(cfg, SecondBuilt(cfg))
    ensures var rec := SecondBuilt(cfg).rec;
      && rec.runId == "run" && rec.state == WaitingArchitectApproval && rec.plan == Some(PLAN_2)
      && rec.gates == [ResolvedArchitecture()] + [ArchitectureGate("run", "b", PLAN_2, "t")] && rec.decisions == [Said("a", "run", Approve, "t")]
      && rec.messages == [RevisionMessage(1)] && rec.results == [] && rec.outputs == map[]
  {
    hide Carry, Reachable, FirstPlanRuns, Blank;
    Names();
    FirstPlanIsReachable(cfg);
    FirstPlanIsRunning(cfg);
    var r0 := FirstPlanRuns(cfg);
    Simple(cfg, r0, BeginSupervision, Supervising);
    Reaches(cfg, r0, BeginSupervision);
    var r1 := Carry(cfg, r0, BeginSupervision);
    assert Revisions(r1.rec.messages) == [];
    Revised(cfg, r1);
    Reaches(cfg, r1, RequestRevision);
    var r2 := Carry(cfg, r1, RequestRevision);
    SecondGateIsNew(r2.rec.gates);
    Built(cfg, r2, PLAN_2, "b", "t");
    Reaches(cfg, r2, Build(PLAN_2, "b", "t"));
  }

  lemma SecondGateIsNew(gates: seq<ApprovalGate>)
    requires gates == [ResolvedArchitecture()]
    ensures GateIndex(gates, "b").None?
  {
    assert gates[0].gateId == "a" && gates[1..] == [];
  }

  lemma NoSecondDecision()
    ensures FindDecision([Said("a", "run", Approve, "t")], "b").None?
  {
    assert [Said("a", "run", Approve, "t")][1..] == [];
  }

  lemma RevisedIsRunning(cfg: Config)
    requires cfg.maxRevisions == 1
    ensures Reachable(cfg, RevisedRuns(cfg))
    ensures var rec := RevisedRuns(cfg).rec;
      && rec.runId == "run" && rec.state == Executing && rec.plan == Some(PLAN_2)
      && rec.gates == [ResolvedArchitecture(), ResolvedSecond()]
      && rec.decisions == [Said("a", "run", Approve, "t"), Said("b", "run", Approve, "t")]
      && rec.messages == [RevisionMessage(1)] && rec.results == [] && rec.outputs == map[]
  {
    hide Carry, Reachable, SecondBuilt, Blank, ValidGate, IsRecordedIn, GateIndex, FindDecision, Find;
    Names();
    SecondIsBuilt(cfg);
    var r0 := SecondBuilt(cfg);
    var gate := ArchitectureGate("run", "b", PLAN_2, "t");
    SecondGateIsNew([ResolvedArchitecture()]);
    NoSecondDecision();
    ArchitectureGateIsValid("run", "b", PLAN_2, "t");
    Answered(cfg, r0, [ResolvedArchitecture()], gate, Approve, "t");
    Reaches(cfg, r0, Answer("b", Approve, "", "human", "t"));
    var r1 := Carry(cfg, r0, Answer("b", Approve, "", "human", "t"));
    AnsweredIsRecorded(r1.rec, [ResolvedArchitecture()], [Said("a", "run", Approve, "t")], gate, "t");
    Approved(cfg, r1, Said("b", "run", Approve, "t"));
    Reaches(cfg, r1, ArchitectureDecision(Said("b", "run", Approve, "t")));
  }

  lemma OneRevision(messages: seq<Message>)
    requires messages == [RevisionMessage(1)]
    ensures Revisions(messages) == [1]
  {
    assert messages[..0] == [];
    assert Revisions(messages[..0]) == [];
  }

  // ----- A denial at the limit -----

  lemma ToolGateIsValid(req: ToolRequest, risky: seq<string>)
    requires req.runId == "run"
    ensures ValidGate(ToolGate(req, risky, "h", "t"))
  {
    var g := ToolGate(req, risky, "h", "t");
    NotBlank("h"); NotBlank("run"); NotBlank("t");
    assert g.kind[0] == 'T' && g.title[0] == 'A' && g.prompt[0] == 'A';
  }

  lemma NoToolGateYet(gates: seq<ApprovalGate>, req: ToolRequest, risky: seq<string>)
    requires gates == [ResolvedArchitecture(), ResolvedSecond()]
    ensures Matching(gates, req, risky).None? && GateIndex(gates, "h").None?
  {
    assert gates[0].kind == gates[1].kind == "ARCHITECTURE" && gates[0].gateId == "a" && gates[1].gateId == "b";
    assert forall g :: g in gates ==> !Matches(g, req, risky);
  }

  function NetworkGate(cfg: Config, rec: SessionRecord): ApprovalGate
    requires rec.plan == Some(PLAN_2)
  {
    ToolGate(PlanRequest(cfg, rec, 0, true), PlanRisk(cfg, rec, 0), "h", "t")
  }

  ghost function Paused(cfg: Config): RunState {
    Carry(cfg, Carry(cfg, RevisedRuns(cfg), OpenToolGate(0, true, "h", "t")), Pause("h"))
  }

  lemma ToolGateOpened(cfg: Config, run: RunState)
    requires run.rec.runId == "run" && run.rec.state == Executing && run.rec.plan == Some(PLAN_2)
    requires run.rec.gates == [ResolvedArchitecture(), ResolvedSecond()]
    ensures Carry(cfg, run, OpenToolGate(0, true, "h", "t")).rec ==
      run.rec.(gates := run.rec.gates + [NetworkGate(cfg, run.rec)], revision := run.rec.revision + 1)
  {
    hide ValidGate, Matching, PlanRisk, GateIndex, PerformOp;
    var req, risky := PlanRequest(cfg, run.rec, 0, true), PlanRisk(cfg, run.rec, 0);
    NoToolGateYet(run.rec.gates, req, risky);
    ToolGateIsValid(req, risky);
    Opened(run, NetworkGate(cfg, run.rec));
    OneOp(run, AddGate(NetworkGate(cfg, run.rec)));
  }

  lemma RunPaused(cfg: Config, run: RunState, gates: seq<ApprovalGate>, g: ApprovalGate)
    requires run.rec.state == Executing && run.rec.gates == gates + [g] && GateIndex(gates, g.gateId).None?
    requires g.kind == "TOOL_RISK" && g.status == Open
    ensures Carry(cfg, run, Pause(g.gateId)).rec ==
      run.rec.(messages := run.rec.messages + [Message("system", "paused", NoNote)], state := WorkerWaitingHuman, revision := run.rec.revision + 2)
  {
    hide PerformOp, GateIndex, Find;
    LastGate(gates, g);
    var note := Message("system", "paused", NoNote);
    AddedMessage(run, note);
    var run1 := PerformOp(run, AddMessage(note)).value;
    Moved(run1, WorkerWaitingHuman);
    OneOp(run1, Transition(WorkerWaitingHuman));
    ManyOps(run, AddMessage(note), [Transition(WorkerWaitingHuman)]);
    assert Script(cfg, run.rec, Pause(g.gateId)) == [AddMessage(note)] + [Transition(WorkerWaitingHuman)];
  }

  lemma RunIsPaused(cfg: Config)
    requires cfg.maxRevisions == 1
    ensures Reachable(cfg, Paused(cfg))
    ensures var rec := Paused(cfg).rec;
      && rec.runId == "run" && rec.state == WorkerWaitingHuman && RevisedRuns(cfg).rec.plan == Some(PLAN_2)
      && rec.gates == [ResolvedArchitecture(), ResolvedSecond()] + [NetworkGate(cfg, RevisedRuns(cfg).rec)]
      && rec.messages == [RevisionMessage(1)] + [Message("system", "paused", NoNote)]
  {
    hide Carry, Reachable, RevisedRuns, GateIndex, Matching, PlanRisk, PlanRequest;
    RevisedIsRunning(cfg);
    var r0 := RevisedRuns(cfg);
    ToolGateOpened(cfg, r0);
    Reaches(cfg, r0, OpenToolGate(0, true, "h", "t"));
    var r1 := Carry(cfg, r0, OpenToolGate(0, true, "h", "t"));
    NoToolGateYet(r0.rec.gates, PlanRequest(cfg, r0.rec, 0, true), PlanRisk(cfg, r0.rec, 0));
    RunPaused(cfg, r1, r0.rec.gates, NetworkGate(cfg, r0.rec));
    Reaches(cfg, r1, Pause("h"));
  }

  function Denial(cfg: Config): ToolVerdict { ToolVerdict("h", Reject, "run", "w", "", "human", cfg.backendId, true, "t") }

  lemma DenialIsAnswered(cfg: Config, rec: SessionRecord, gates: seq<ApprovalGate>, g: ApprovalGate)
    requires rec.runId == "run" && rec.state == WorkerWaitingHuman && rec.gates == gates + [g] && GateIndex(gates, "h").None?
    requires g.gateId == "h" && g.runId == "run" && g.kind == "TOOL_RISK" && g.status == Open && g.allowed == [Approve, Reject] && ValidGate(g)
    requires g.context.ToolContext? && g.context.workerId == "w" && g.context.backendId == cfg.backendId
    ensures ResumeScript(cfg, rec, Denial(cfg)) != []
  {
    hide ValidGate, Blank, Strip, GateIndex, Find, RevisionScript, Revisions;
    LastGate(gates, g);
    StripHuman();
    NotBlank("t");
    StaysValid(g, "t");
    AnswerIsOneOp(rec, g, Reject, "t");
  }

  lemma OnlyTheNetworkGate(cfg: Config, gates: seq<ApprovalGate>, g: ApprovalGate)
    requires g.gateId == "h"
    ensures forall x :: x in [ResolvedArchitecture(), ResolvedSecond()] + [g] && CanBeApproved(cfg, x) ==> x.gateId == "h"
  {
    assert !CanBeApproved(cfg, ResolvedArchitecture()) && !CanBeApproved(cfg, ResolvedSecond());
  }

  lemma TwoMessages(messages: seq<Message>)
    requires messages == [RevisionMessage(1)] + [Message("system", "paused", NoNote)]
    ensures Revisions(messages) == [1]
  {
    OneRevision([RevisionMessage(1)]);
    RevisionsAppended([RevisionMessage(1)], Message("system", "paused", NoNote));
    hide Revisions;
  }

  /** A reachable run that has used its only revision; its one open tool gate is denied, and it is paused forever. */
  lemma DenialStallsAReachableRun(cfg: Config, strides: seq<Stride>)
    requires cfg.maxRevisions == 1
    ensures var run := Paused(cfg);
      && Reachable(cfg, run) && run.rec.state == WorkerWaitingHuman
      && ResumeScript(cfg, run.rec, Denial(cfg)) != []
      && ProceedAll(cfg, Carry(cfg, run, ResumeTool(Denial(cfg))), strides).rec.state == WorkerWaitingHuman
  {
    hide Carry, Reachable, Inv, Paused, RevisedRuns, ProceedAll, ResumeScript, GateIndex, CanBeApproved, ValidGate, PlanRisk, Matching;
    RunIsPaused(cfg);
    var run := Paused(cfg);
    var before := RevisedRuns(cfg);
    RevisedIsRunning(cfg);
    ReachableKeepsInv(cfg, run);
    NoToolGateYet([ResolvedArchitecture(), ResolvedSecond()], PlanRequest(cfg, before.rec, 0, true), PlanRisk(cfg, before.rec, 0));
    ToolGateIsValid(PlanRequest(cfg, before.rec, 0, true), PlanRisk(cfg, before.rec, 0));
    DenialIsAnswered(cfg, run.rec, [ResolvedArchitecture(), ResolvedSecond()], NetworkGate(cfg, before.rec));
    OnlyTheNetworkGate(cfg, run.rec.gates, NetworkGate(cfg, before.rec));
    TwoMessages(run.rec.messages);
    DenialAtTheLimitStalls(cfg, run, Denial(cfg), strides);
  }

  // ----- A final gate that is answered with CLARIFY at the limit -----

  ghost function Clarified(cfg: Config): RunState {
    var worked := Carry(cfg, Carry(cfg, RevisedRuns(cfg), Other(AddResult(RESULT_1))), Other(SetOutput(OUTPUT)));
    var waiting := Carry(cfg, Carry(cfg, worked, BeginSupervision), Supervise(["w"], "f", "t", false));
    Carry(cfg, waiting, Answer("f", Clarify, "", "human", "t"))
  }

  function ShownFinal(evidence: Digest): ApprovalGate { FinalGate("run", "f", evidence, "t") }

  lemma NoFinalGateYet()
    ensures GateIndex([ResolvedArchitecture(), ResolvedSecond()], "f").None?
    ensures FindDecision([Said("a", "run", Approve, "t"), Said("b", "run", Approve, "t")], "f").None?
  {
    assert ResolvedArchitecture().gateId == "a" && ResolvedSecond().gateId == "b";
  }

  lemma FinalIsClarified(cfg: Config)
    requires cfg.maxRevisions == 1
    ensures Reachable(cfg, Clarified(cfg))
    ensures var rec := Clarified(cfg).rec;
      var qa := Qa(PLAN_2, [RESULT_1]);
      && rec.runId == "run" && rec.state == WaitingFinalApproval
      && rec.gates == [ResolvedArchitecture(), ResolvedSecond()] + [AsResolved(ShownFinal(Sha256(qa)), "t")]
      && rec.decisions == [Said("a", "run", Approve, "t"), Said("b", "run", Approve, "t")] + [Said("f", "run", Clarify, "t")]
      && rec.messages == [RevisionMessage(1)] + [PassNote(qa)]
  {
    hide Carry, Reachable, RevisedRuns, Blank, ValidGate, Evaluate, EvidenceOf, Enumerates, Qa, GateIndex, FindDecision, FindResult;
    Names();
    RevisedIsRunning(cfg);
    var r0 := RevisedRuns(cfg);
    NothingFound();
    ResultAdded(cfg, r0, RESULT_1);
    Reaches(cfg, r0, Other(AddResult(RESULT_1)));
    var r1 := Carry(cfg, r0, Other(AddResult(RESULT_1)));
    OutputSet(cfg, r1, OUTPUT);
    Reaches(cfg, r1, Other(SetOutput(OUTPUT)));
    var r2 := Carry(cfg, r1, Other(SetOutput(OUTPUT)));
    Simple(cfg, r2, BeginSupervision, Supervising);
    Reaches(cfg, r2, BeginSupervision);
    var r3 := Carry(cfg, r2, BeginSupervision);
    assert r3.rec.results == [RESULT_1] && r3.rec.outputs == map["w" := OUTPUT];
    EvidencePasses(PLAN_2, [RESULT_1]);
    EvidenceIsInput(r3.rec, PLAN_2, [RESULT_1]);
    QaIs(PLAN_2, [RESULT_1]);
    NoFinalGateYet();
    SupervisionPassed(cfg, r3, ["w"], "f", "t");
    Reaches(cfg, r3, Supervise(["w"], "f", "t", false));
    var r4 := Carry(cfg, r3, Supervise(["w"], "f", "t", false));
    var gate := ShownFinal(Sha256(Qa(PLAN_2, [RESULT_1])));
    FinalGateIsValid("run", "f", Sha256(Qa(PLAN_2, [RESULT_1])), "t");
    Answered(cfg, r4, [ResolvedArchitecture(), ResolvedSecond()], gate, Clarify, "t");
    Reaches(cfg, r4, Answer("f", Clarify, "", "human", "t"));
  }

  lemma NothingFound()
    ensures FindResult([], "1").None?
  {
  }

  lemma OnlyClarified(rec: SessionRecord, evidence: Digest)
    requires rec.gates == [ResolvedArchitecture(), ResolvedSecond()] + [AsResolved(ShownFinal(evidence), "t")]
    requires rec.decisions == [Said("a", "run", Approve, "t"), Said("b", "run", Approve, "t")] + [Said("f", "run", Clarify, "t")]
    ensures forall g :: g in rec.gates ==> !CanConclude(rec, g)
  {
    hide HasEvidence;
    forall g | g in rec.gates ensures !CanConclude(rec, g) {
      assert g == ResolvedArchitecture() || g == ResolvedSecond() || g == AsResolved(ShownFinal(evidence), "t");
      if g.kind == "FINAL" {
        assert g.gateId == "f";
        forall d | d in rec.decisions && d.gateId == "f" ensures d.decision == Clarify {}
      }
    }
  }

  lemma NotedMessages(qa: QaResult)
    ensures Revisions([RevisionMessage(1)] + [PassNote(qa)]) == [1]
  {
    OneRevision([RevisionMessage(1)]);
    RevisionsAppended([RevisionMessage(1)], PassNote(qa));
    hide Revisions;
  }

  /** A reachable run that has used its only revision; its FINAL gate is answered with CLARIFY, and it waits forever. */
  lemma ClarificationStallsAReachableRun(cfg: Config, strides: seq<Stride>)
    requires cfg.maxRevisions == 1
    ensures Reachable(cfg, Clarified(cfg)) && Clarified(cfg).rec.state == WaitingFinalApproval
    ensures ProceedAll(cfg, Clarified(cfg), strides).rec.state == WaitingFinalApproval
  {
    hide Reachable, Inv, Clarified, ProceedAll, CanConclude, Revisions, Qa, ResolvedArchitecture, ResolvedSecond, ShownFinal;
    FinalIsClarified(cfg);
    ReachableKeepsInv(cfg, Clarified(cfg));
    OnlyClarified(Clarified(cfg).rec, Sha256(Qa(PLAN_2, [RESULT_1])));
    NotedMessages(Qa(PLAN_2, [RESULT_1]));
    UnfinishedForever(cfg, Clarified(cfg), strides);
  }

  // ----- A failure at the limit -----

  ghost function FailedSupervision(cfg: Config): RunState {
    Carry(cfg, Carry(cfg, RevisedRuns(cfg), Other(AddResult(FAILURE))), BeginSupervision)
  }

  lemma FailureIsDoomed(rec: SessionRecord)
    requires rec.results == [FAILURE] && rec.state == Supervising
    ensures Doomed(rec)
  {
    assert rec.results[0] in rec.results;
  }

  lemma NoFailureYet()
    ensures FindResult([], FAILURE.executionId).None?
  {
  }

  /** A reachable run that has used its only revision; an execution failed, and it is supervised forever. */
  lemma FailureStallsAReachableRun(cfg: Config, strides: seq<Stride>)
    requires cfg.maxRevisions == 1
    ensures Reachable(cfg, FailedSupervision(cfg)) && FailedSupervision(cfg).rec.state == Supervising
    ensures ProceedAll(cfg, FailedSupervision(cfg), strides).rec.state == Supervising
  {
    hide Carry, Reachable, Inv, RevisedRuns, ProceedAll, Doomed, Revisions, FindResult;
    RevisedIsRunning(cfg);
    var r0 := RevisedRuns(cfg);
    NoFailureYet();
    ResultAdded(cfg, r0, FAILURE);
    Reaches(cfg, r0, Other(AddResult(FAILURE)));
    var r1 := Carry(cfg, r0, Other(AddResult(FAILURE)));
    Simple(cfg, r1, BeginSupervision, Supervising);
    Reaches(cfg, r1, BeginSupervision);
    var run := FailedSupervision(cfg);
    assert run.rec.results == [FAILURE];
    FailureIsDoomed(run.rec);
    ReachableKeepsInv(cfg, run);
    OneRevision(run.rec.messages);
    SupervisedForever(cfg, run, strides);
  }

  /** Past the coordinator's limit, recovery still revises a reachable run when its own limit allows it. */
  lemma RecoveryPassesTheLimit(cfg: Config)
    requires cfg.maxRevisions == 1 && cfg.recoveryRevisions > 1
    ensures var run := RevisedRuns(cfg);
      && Reachable(cfg, run) && |Revisions(run.rec.messages)| == cfg.maxRevisions
      && Carry(cfg, run, RecoverFailure).rec.state == Architecting
      && |Revisions(Carry(cfg, run, RecoverFailure).rec.messages)| == cfg.maxRevisions + 1
  {
    hide Carry, Reachable, RevisedRuns, Revisions;
    RevisedIsRunning(cfg);
    OneRevision(RevisedRuns(cfg).rec.messages);
    FailureRecovered(cfg, RevisedRuns(cfg));
  }
}
