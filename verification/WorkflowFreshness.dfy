/** Runs in which an approval covers another plan or other evidence than it showed, and one that waits for good. */
module WorkflowFreshness {
  import opened Wrappers
  import opened Contracts
  import opened Text
  import opened SessionStore
  import opened Approvals
  import opened Supervisor
  import opened Workflow
  import opened WorkflowSafety
  import opened WorkflowScripts
  import opened WorkflowTheorems
  import opened WorkflowEffects
  import opened WorkflowCoverage
  import opened WorkflowStalls

  // ----- A run in which neither the executed plan nor the final evidence is what a human approved -----

  const PLAN_1: ArchitecturePlan := ArchitecturePlan("first", ["criterion"], [], [WorkerSpec("w", [], [])])
  const PLAN_2: ArchitecturePlan := ArchitecturePlan("second", ["criterion"], [], [WorkerSpec("w", [], [])])
  const RESULT_1: ExecutionResult := ExecutionResult("1", Success, "", "b", Some("run"), Some("w"))
  const RESULT_2: ExecutionResult := ExecutionResult("2", Success, "", "b", Some("run"), Some("w"))
  const OUTPUT: WorkerOutput := WorkerOutput("w", "run", "ok", Some("1"))

  // The first plan is approved and executed, its evidence passes, and the FINAL gate "f" is answered with APPROVE.
  ghost function FirstPlanRuns(cfg: Config): RunState {
    var started := Carry(cfg, Carry(cfg, NewRun("run"), Start), BeginArchitecture);
    var answered := Carry(cfg, Carry(cfg, started, Build(PLAN_1, "a", "t")), Answer("a", Approve, "", "human", "t"));
    Carry(cfg, answered, ArchitectureDecision(Said("a", "run", Approve, "t")))
  }

  ghost function FirstWorkDone(cfg: Config): RunState {
    var worked := Carry(cfg, Carry(cfg, FirstPlanRuns(cfg), Other(AddResult(RESULT_1))), Other(SetOutput(OUTPUT)));
    Carry(cfg, worked, BeginSupervision)
  }

  ghost function FinalAnswered(cfg: Config): RunState {
    Carry(cfg, Carry(cfg, FirstWorkDone(cfg), Supervise(["w"], "f", "t", false)), Answer("f", Approve, "", "human", "t"))
  }

  // Before the answer is applied a revision is recorded and a second plan is built.
  ghost function SecondPlanBuilt(cfg: Config): RunState {
    Carry(cfg, Carry(cfg, FinalAnswered(cfg), RequestRevision), Build(PLAN_2, "b", "t"))
  }

  // The approval of "a" is applied again, to the second plan.
  ghost function SecondPlanRuns(cfg: Config): RunState {
    Carry(cfg, SecondPlanBuilt(cfg), ArchitectureDecision(Said("a", "run", Approve, "t")))
  }

  // More evidence is recorded and passes; then the answer of the first FINAL gate is applied.
  ghost function OlderAnswerApplied(cfg: Config): RunState {
    var worked := Carry(cfg, SecondPlanRuns(cfg), Other(AddResult(RESULT_2)));
    var waiting := Carry(cfg, Carry(cfg, worked, BeginSupervision), Supervise(["w"], "g", "t", false));
    Carry(cfg, waiting, FinalDecision(Said("f", "run", Approve, "t"), None))
  }

  lemma Names()
    ensures !Blank("run") && !Blank("t") && !Blank("a") && !Blank("b") && !Blank("f") && !Blank("g") && !Blank("w")
    ensures !Blank("1") && !Blank("2") && !Blank("first") && !Blank("second") && !Blank("criterion") && !Blank("human")
  {
    NotBlank("run"); NotBlank("t"); NotBlank("a"); NotBlank("b"); NotBlank("f"); NotBlank("g"); NotBlank("w");
    NotBlank("1"); NotBlank("2"); NotBlank("first"); NotBlank("second"); NotBlank("criterion"); NotBlank("human");
  }

  function InputOf(plan: ArchitecturePlan, results: seq<ExecutionResult>): SupervisorInput {
    SupervisorInput("run", plan.objective, plan.acceptanceCriteria, [OUTPUT], results)
  }

  lemma OutputSucceeds()
    ensures Successful(OUTPUT)
  {
    assert Lower("ok") == "ok";
  }

  lemma Valid(plan: ArchitecturePlan, results: seq<ExecutionResult>)
    requires plan == PLAN_1 || plan == PLAN_2
    requires results == [RESULT_1] || results == [RESULT_1, RESULT_2]
    ensures ValidInput(InputOf(plan, results))
  {
    Names();
    hide Blank;
  }

  lemma EvidencePasses(plan: ArchitecturePlan, results: seq<ExecutionResult>)
    requires plan == PLAN_1 || plan == PLAN_2
    requires results == [RESULT_1] || results == [RESULT_1, RESULT_2]
    ensures Evaluate(InputOf(plan, results)).Ok?
    ensures var qa := Evaluate(InputOf(plan, results)).value;
      qa.status == Pass && qa.runId == "run" && qa.evidence.executions == |results|
  {
    hide ValidInput, Successful, Verdict, Blocking, Unsuccessful, Failures, Supervisor.CrossRun, Repeated, ScanAll;
    var d := InputOf(plan, results);
    Valid(plan, results);
    OutputSucceeds();
    assert RESULT_1 in results;
    assert Owns(results, OUTPUT);
    assert Passes(d);
    VerdictIsExact(d);
  }

  ghost function Qa(plan: ArchitecturePlan, results: seq<ExecutionResult>): QaResult
    requires plan == PLAN_1 || plan == PLAN_2
    requires results == [RESULT_1] || results == [RESULT_1, RESULT_2]
  {
    EvidencePasses(plan, results);
    Evaluate(InputOf(plan, results)).value
  }

  function ResolvedArchitecture(): ApprovalGate { AsResolved(ArchitectureGate("run", "a", PLAN_1, "t"), "t") }

  lemma ArchitectureIsRecorded(rec: SessionRecord, gates: seq<ApprovalGate>, decisions: seq<HumanDecision>)
    requires rec.runId == "run"
    requires rec.gates == [ResolvedArchitecture()] + gates && rec.decisions == [Said("a", "run", Approve, "t")] + decisions
    ensures IsRecordedIn(rec, Said("a", "run", Approve, "t"))
  {
    Names();
    hide Blank;
    assert rec.gates[0] == ResolvedArchitecture() && rec.decisions[0] == Said("a", "run", Approve, "t");
  }

  lemma FirstPlanIsRunning(cfg: Config)
    ensures var rec := FirstPlanRuns(cfg).rec;
      && rec.runId == "run" && rec.state == Executing && rec.plan == Some(PLAN_1)
      && rec.gates == [ResolvedArchitecture()] && rec.decisions == [Said("a", "run", Approve, "t")]
      && rec.messages == [] && rec.results == [] && rec.outputs == map[]
  {
    hide Carry, Blank, ValidGate, IsRecordedIn;
    Names();
    var r0 := NewRun("run");
    Simple(cfg, r0, Start, Intake);
    var r1 := Carry(cfg, r0, Start);
    Simple(cfg, r1, BeginArchitecture, Architecting);
    var r2 := Carry(cfg, r1, BeginArchitecture);
    Built(cfg, r2, PLAN_1, "a", "t");
    var r3 := Carry(cfg, r2, Build(PLAN_1, "a", "t"));
    var gate := ArchitectureGate("run", "a", PLAN_1, "t");
    ArchitectureGateIsValid("run", "a", PLAN_1, "t");
    assert r3.rec.gates == [] + [gate];
    Answered(cfg, r3, [], gate, Approve, "t");
    var r4 := Carry(cfg, r3, Answer("a", Approve, "", "human", "t"));
    assert r4.rec.gates == [ResolvedArchitecture()] + [] && r4.rec.decisions == [Said("a", "run", Approve, "t")] + [];
    ArchitectureIsRecorded(r4.rec, [], []);
    Approved(cfg, r4, Said("a", "run", Approve, "t"));
  }

  lemma EvidenceIsInput(rec: SessionRecord, plan: ArchitecturePlan, results: seq<ExecutionResult>)
    requires rec.runId == "run" && rec.plan == Some(plan) && rec.results == results && rec.outputs == map["w" := OUTPUT]
    ensures Enumerates(["w"], rec.outputs)
    ensures EvidenceOf(rec, ["w"]) == InputOf(plan, results)
  {
    assert OutputsIn(["w"], rec.outputs) == [OUTPUT];
  }

  lemma FirstWorkIsDone(cfg: Config)
    ensures var rec := FirstWorkDone(cfg).rec;
      && rec.runId == "run" && rec.state == Supervising && rec.plan == Some(PLAN_1)
      && rec.gates == [ResolvedArchitecture()] && rec.decisions == [Said("a", "run", Approve, "t")]
      && rec.messages == [] && rec.results == [RESULT_1] && rec.outputs == map["w" := OUTPUT]
  {
    hide Carry, FirstPlanRuns, ResolvedArchitecture;
    FirstPlanIsRunning(cfg);
    var r0 := FirstPlanRuns(cfg);
    ResultAdded(cfg, r0, RESULT_1);
    var r1 := Carry(cfg, r0, Other(AddResult(RESULT_1)));
    OutputSet(cfg, r1, OUTPUT);
    var r2 := Carry(cfg, r1, Other(SetOutput(OUTPUT)));
    Simple(cfg, r2, BeginSupervision, Supervising);
  }

  lemma FirstFinalIsAnswered(cfg: Config)
    ensures var rec := FinalAnswered(cfg).rec;
      var qa := Qa(PLAN_1, [RESULT_1]);
      && rec.runId == "run" && rec.state == WaitingFinalApproval && rec.plan == Some(PLAN_1)
      && rec.gates == [ResolvedArchitecture(), AsResolved(FinalGate("run", "f", Sha256(qa), "t"), "t")]
      && rec.decisions == [Said("a", "run", Approve, "t"), Said("f", "run", Approve, "t")]
      && rec.messages == [PassNote(qa)] && rec.results == [RESULT_1] && rec.outputs == map["w" := OUTPUT]
  {
    hide Carry, Blank, ValidGate, FirstWorkDone, Evaluate, Enumerates, EvidenceOf;
    Names();
    FirstWorkIsDone(cfg);
    var r3 := FirstWorkDone(cfg);
    EvidencePasses(PLAN_1, [RESULT_1]);
    EvidenceIsInput(r3.rec, PLAN_1, [RESULT_1]);
    SupervisionPassed(cfg, r3, ["w"], "f", "t");
    var r4 := Carry(cfg, r3, Supervise(["w"], "f", "t", false));
    var qa := Qa(PLAN_1, [RESULT_1]);
    var gate := FinalGate("run", "f", Sha256(qa), "t");
    FinalGateIsValid("run", "f", Sha256(qa), "t");
    assert r4.rec.gates == [ResolvedArchitecture()] + [gate];
    Answered(cfg, r4, [ResolvedArchitecture()], gate, Approve, "t");
  }

  // The gates of the two stages.
  ghost function SecondGates(): seq<ApprovalGate> {
    [ResolvedArchitecture(), AsResolved(FinalGate("run", "f", Sha256(Qa(PLAN_1, [RESULT_1])), "t"), "t"), ArchitectureGate("run", "b", PLAN_2, "t")]
  }

  lemma SecondPlanIsBuilt(cfg: Config)
    requires cfg.maxRevisions >= 1
    ensures var rec := SecondPlanBuilt(cfg).rec;
      && rec.runId == "run" && rec.state == WaitingArchitectApproval && rec.plan == Some(PLAN_2)
      && rec.gates == SecondGates() && rec.decisions == [Said("a", "run", Approve, "t"), Said("f", "run", Approve, "t")]
      && rec.messages == [PassNote(Qa(PLAN_1, [RESULT_1])), RevisionMessage(1)]
      && rec.results == [RESULT_1] && rec.outputs == map["w" := OUTPUT]
  {
    hide Carry, Blank, ValidGate, FinalAnswered, IsRecordedIn, Qa;
    Names();
    FirstFinalIsAnswered(cfg);
    var r0 := FinalAnswered(cfg);
    assert Revisions(r0.rec.messages) == [];
    Revised(cfg, r0);
    var r1 := Carry(cfg, r0, RequestRevision);
    Built(cfg, r1, PLAN_2, "b", "t");
  }

  lemma SecondPlanIsRunning(cfg: Config)
    requires cfg.maxRevisions >= 1
    ensures SecondPlanRuns(cfg).rec == SecondPlanBuilt(cfg).rec.(state := Executing, revision := SecondPlanBuilt(cfg).rec.revision + 1)
  {
    hide Carry, IsRecordedIn, Qa, SecondPlanBuilt;
    SecondPlanIsBuilt(cfg);
    var built := SecondPlanBuilt(cfg);
    assert SecondGates()[0] == ResolvedArchitecture();
    ArchitectureIsRecorded(built.rec, built.rec.gates[1..], built.rec.decisions[1..]);
    Approved(cfg, built, Said("a", "run", Approve, "t"));
  }

  lemma FinalIsRecorded(rec: SessionRecord, qa: QaResult)
    requires rec.runId == "run" && |rec.gates| >= 2 && |rec.decisions| >= 2
    requires rec.gates[0] == ResolvedArchitecture() && rec.gates[1] == AsResolved(FinalGate("run", "f", Sha256(qa), "t"), "t")
    requires rec.decisions[0] == Said("a", "run", Approve, "t") && rec.decisions[1] == Said("f", "run", Approve, "t")
    ensures IsRecordedIn(rec, Said("f", "run", Approve, "t"))
    ensures Find(rec.gates, "f") == Some(rec.gates[1])
  {
    Names();
    hide Blank;
    assert rec.gates[0].gateId == "a" && rec.gates[1].gateId == "f";
    assert rec.decisions[1..][0] == rec.decisions[1] && rec.gates[1..][0] == rec.gates[1];
    assert GateIndex(rec.gates[1..], "f") == Some(0);
    assert FindDecision(rec.decisions[1..], "f") == Some(rec.decisions[1]);
  }

  lemma OlderAnswerCompletes(cfg: Config)
    requires cfg.maxRevisions >= 1
    ensures var done := OlderAnswerApplied(cfg).rec;
      var qa := Qa(PLAN_2, [RESULT_1, RESULT_2]);
      && done.state == Completed && done.final.Some? && done.final.value.evidenceHash == Some(Sha256(qa))
      && done.gates == SecondGates() + [FinalGate("run", "g", Sha256(qa), "t")]
  {
    hide Carry, Blank, ValidGate, SecondPlanRuns, IsRecordedIn, Evaluate, Enumerates, EvidenceOf, RecordedHash, Find, Qa;
    Names();
    SecondPlanIsBuilt(cfg);
    SecondPlanIsRunning(cfg);
    var r0 := SecondPlanRuns(cfg);
    ResultAdded(cfg, r0, RESULT_2);
    var r1 := Carry(cfg, r0, Other(AddResult(RESULT_2)));
    Simple(cfg, r1, BeginSupervision, Supervising);
    var r2 := Carry(cfg, r1, BeginSupervision);
    var results := [RESULT_1, RESULT_2];
    assert r2.rec.results == results;
    EvidencePasses(PLAN_2, results);
    EvidenceIsInput(r2.rec, PLAN_2, results);
    QaIs(PLAN_2, results);
    SecondGatesLack("g");
    SupervisionPassed(cfg, r2, ["w"], "g", "t");
    var r3 := Carry(cfg, r2, Supervise(["w"], "g", "t", false));
    var qa2 := Qa(PLAN_2, results);
    FinalIsRecorded(r3.rec, Qa(PLAN_1, [RESULT_1]));
    HashAppended(r2.rec.messages, PassNote(qa2), "run");
    Completes(cfg, r3, Said("f", "run", Approve, "t"), Sha256(qa2));
  }

  lemma SecondGatesLack(id: string)
    requires id == "g"
    ensures GateIndex(SecondGates(), id).None?
  {
    hide Qa;
    var gates := SecondGates();
    assert gates[0].gateId == "a" && gates[1].gateId == "f" && gates[2].gateId == "b";
  }

  lemma QaIs(plan: ArchitecturePlan, results: seq<ExecutionResult>)
    requires plan == PLAN_1 || plan == PLAN_2
    requires results == [RESULT_1] || results == [RESULT_1, RESULT_2]
    ensures Evaluate(InputOf(plan, results)).Ok? && Qa(plan, results) == Evaluate(InputOf(plan, results)).value
    ensures Qa(plan, results).evidence.executions == |results|
  {
    EvidencePasses(plan, results);
    hide Evaluate;
  }

  /**
   With at least one revision allowed there is a run in which the second plan is executed while its own ARCHITECTURE
   gate "b" is still open, and which completes on evidence that no human was shown: the gate "g" opened for that
   evidence is still open, and the approved gate "f" shows other evidence.
   */
  lemma ApprovalsNeedNotBeFresh(cfg: Config)
    requires cfg.maxRevisions >= 1
    ensures var second := SecondPlanRuns(cfg).rec;
      && second.state == Executing && second.plan == Some(PLAN_2)
      && ArchitectureGate("run", "b", PLAN_2, "t") in second.gates
      && (forall g :: g in second.gates && g.kind == "ARCHITECTURE" && g.status == Resolved ==> g.context == PlanContext(PLAN_1))
    ensures var done := OlderAnswerApplied(cfg).rec;
      && done.state == Completed && done.final.Some? && done.final.value.evidenceHash.Some?
      && (forall g :: g in done.gates && g.kind == "FINAL" && g.status == Resolved ==>
            g.context.QaContext? && g.context.evidenceHash != done.final.value.evidenceHash.value)
      && (exists g :: g in done.gates && g.kind == "FINAL" && g.status == Open
            && g.context == QaContext(done.final.value.evidenceHash.value))
  {
    hide SecondPlanRuns, SecondPlanBuilt, OlderAnswerApplied, Qa, ArchitectureGate, FinalGate, AsResolved;
    SecondPlanIsBuilt(cfg);
    SecondPlanIsRunning(cfg);
    OlderAnswerCompletes(cfg);
    OnlyTheFirstPlan();
    OnlyTheFirstEvidence();
  }

  lemma OnlyTheFirstPlan()
    ensures ArchitectureGate("run", "b", PLAN_2, "t") in SecondGates()
    ensures forall g :: g in SecondGates() && g.kind == "ARCHITECTURE" && g.status == Resolved ==> g.context == PlanContext(PLAN_1)
  {
    hide Qa;
    var gates := SecondGates();
    assert gates[2] == ArchitectureGate("run", "b", PLAN_2, "t");
    forall g | g in gates && g.kind == "ARCHITECTURE" && g.status == Resolved ensures g.context == PlanContext(PLAN_1) {
      var i :| 0 <= i < |gates| && gates[i] == g;
      assert gates[1].kind == "FINAL" && gates[2].status == Open;
      assert i == 0;
    }
  }

  lemma OneResolvedFinal(gates: seq<ApprovalGate>, h1: Digest, h2: Digest)
    requires |gates| == 4 && gates[0].kind == gates[2].kind == "ARCHITECTURE" && gates[1].kind == gates[3].kind == "FINAL"
    requires gates[1].context == QaContext(h1) && gates[3].status == Open && h1 != h2
    ensures forall g :: g in gates && g.kind == "FINAL" && g.status == Resolved ==> g.context.QaContext? && g.context.evidenceHash != h2
  {
    forall g | g in gates && g.kind == "FINAL" && g.status == Resolved ensures g.context.QaContext? && g.context.evidenceHash != h2 {
      var i :| 0 <= i < |gates| && gates[i] == g;
      assert i == 1;
    }
  }

  lemma OnlyTheFirstEvidence()
    ensures var h := Sha256(Qa(PLAN_2, [RESULT_1, RESULT_2]));
      var last := FinalGate("run", "g", h, "t");
      && (forall g :: g in SecondGates() + [last] && g.kind == "FINAL" && g.status == Resolved ==>
            g.context.QaContext? && g.context.evidenceHash != h)
      && last in SecondGates() + [last] && last.kind == "FINAL" && last.status == Open && last.context == QaContext(h)
  {
    hide Qa;
    QaIs(PLAN_1, [RESULT_1]);
    QaIs(PLAN_2, [RESULT_1, RESULT_2]);
    var q1, q2 := Qa(PLAN_1, [RESULT_1]), Qa(PLAN_2, [RESULT_1, RESULT_2]);
    assert Sha256(q1).payload.evidence.executions != Sha256(q2).payload.evidence.executions;
    ShownGates(Sha256(q1), Sha256(q2));
  }

  lemma ShownGates(h1: Digest, h2: Digest)
    requires h1 != h2
    ensures var last := FinalGate("run", "g", h2, "t");
      var gates := [ResolvedArchitecture(), AsResolved(FinalGate("run", "f", h1, "t"), "t"), ArchitectureGate("run", "b", PLAN_2, "t")] + [last];
      && (forall g :: g in gates && g.kind == "FINAL" && g.status == Resolved ==> g.context.QaContext? && g.context.evidenceHash != h2)
      && last in gates && last.kind == "FINAL" && last.status == Open && last.context == QaContext(h2)
  {
    var last := FinalGate("run", "g", h2, "t");
    var gates := [ResolvedArchitecture(), AsResolved(FinalGate("run", "f", h1, "t"), "t"), ArchitectureGate("run", "b", PLAN_2, "t")] + [last];
    assert gates[3] == last;
    OneResolvedFinal(gates, h1, h2);
  }

  // ----- A gate of another kind starts a plan -----

  /** The approval of the FINAL gate "f" starts the second plan, which only the open gate "b" shows. */
  lemma FinalApprovalStartsAPlan(cfg: Config)
    requires cfg.maxRevisions >= 1
    ensures var built := SecondPlanBuilt(cfg);
      var d := Said("f", "run", Approve, "t");
      var executing := Carry(cfg, built, ArchitectureDecision(d)).rec;
      && built.rec.state == WaitingArchitectApproval && IsRecordedIn(built.rec, d)
      && Find(built.rec.gates, "f").Some? && Find(built.rec.gates, "f").value.kind == "FINAL"
      && executing.state == Executing && executing.plan == Some(PLAN_2)
      && Newest(executing.gates, "ARCHITECTURE") == Some(ArchitectureGate("run", "b", PLAN_2, "t"))
  {
    hide Carry, SecondPlanBuilt, Qa, IsRecordedIn, Find;
    SecondPlanIsBuilt(cfg);
    var built := SecondPlanBuilt(cfg);
    FinalIsRecorded(built.rec, Qa(PLAN_1, [RESULT_1]));
    AnyApprovalExecutes(cfg, built, Said("f", "run", Approve, "t"));
  }

  // ----- A plan that a human asked to modify -----

  ghost function FirstPlanModified(cfg: Config): RunState {
    var started := Carry(cfg, Carry(cfg, NewRun("run"), Start), BeginArchitecture);
    Carry(cfg, Carry(cfg, started, Build(PLAN_1, "a", "t")), Answer("a", Modify, "", "human", "t"))
  }

  lemma ModificationIsRecorded(cfg: Config)
    ensures var run := FirstPlanModified(cfg);
      && run.rec.state == WaitingArchitectApproval && run.rec.gates == [ResolvedArchitecture()]
      && run.rec.decisions == [Said("a", "run", Modify, "t")] && run.rec.runId == "run"
      && IsRecordedIn(run.rec, Said("a", "run", Modify, "t"))
      && Inv(cfg, run)
  {
    hide Carry, Blank, ValidGate, IsRecordedIn, Inv;
    Names();
    var r0 := NewRun("run");
    EveryRunKeepsInv(cfg, "run", []);
    Simple(cfg, r0, Start, Intake);
    CarryKeepsInv(cfg, r0, Start);
    var r1 := Carry(cfg, r0, Start);
    Simple(cfg, r1, BeginArchitecture, Architecting);
    CarryKeepsInv(cfg, r1, BeginArchitecture);
    var r2 := Carry(cfg, r1, BeginArchitecture);
    Built(cfg, r2, PLAN_1, "a", "t");
    CarryKeepsInv(cfg, r2, Build(PLAN_1, "a", "t"));
    var r3 := Carry(cfg, r2, Build(PLAN_1, "a", "t"));
    var gate := ArchitectureGate("run", "a", PLAN_1, "t");
    ArchitectureGateIsValid("run", "a", PLAN_1, "t");
    assert r3.rec.gates == [] + [gate];
    Answered(cfg, r3, [], gate, Modify, "t");
    CarryKeepsInv(cfg, r3, Answer("a", Modify, "", "human", "t"));
    DecisionOfTheOnlyGate(Carry(cfg, r3, Answer("a", Modify, "", "human", "t")).rec);
  }

  lemma DecisionOfTheOnlyGate(rec: SessionRecord)
    requires rec.runId == "run" && rec.gates == [ResolvedArchitecture()] && rec.decisions == [Said("a", "run", Modify, "t")]
    ensures IsRecordedIn(rec, Said("a", "run", Modify, "t"))
  {
    Names();
    hide Blank;
    assert rec.gates[0] == ResolvedArchitecture() && rec.decisions[0] == Said("a", "run", Modify, "t");
  }

  /** Answered with MODIFY, the first architecture gate leaves the run waiting for its approval whatever happens later. */
  lemma ModificationStalls(cfg: Config, strides: seq<Stride>)
    ensures var run := FirstPlanModified(cfg);
      && run.rec.state == WaitingArchitectApproval && IsRecordedIn(run.rec, Said("a", "run", Modify, "t"))
      && Proceed(cfg, run, Stride(ArchitectureDecision(Said("a", "run", Modify, "t")), 2)) == run
      && ProceedAll(cfg, run, strides).rec.state == WaitingArchitectApproval
  {
    hide FirstPlanModified, IsRecordedIn, Inv, Proceed, ProceedAll, ResolvedArchitecture;
    ModificationIsRecorded(cfg);
    var run := FirstPlanModified(cfg);
    ModifiedArchitectureStays(cfg, run, Said("a", "run", Modify, "t"), 2);
    assert ResolvedArchitecture().status == Resolved by { OnlyGateIsResolved(); }
    assert !Answerable(run.rec);
    WaitsForever(cfg, run, strides);
  }

  lemma OnlyGateIsResolved()
    ensures ResolvedArchitecture().status == Resolved
  {
  }
}
