/** Runs in which overlapping commands start a plan or complete on evidence that nobody approved. */
module WorkflowOverlapRuns {
  import opened Wrappers
  import opened Contracts
  import opened Text
  import opened SessionStore
  import opened Approvals
  import opened Supervisor
  import opened Authorization
  import opened Workflow
  import opened WorkflowSafety
  import opened WorkflowScripts
  import opened WorkflowEffects
  import opened WorkflowCoverage
  import opened WorkflowFreshness
  import opened WorkflowOverlap
  import opened WorkflowExamples

  // ----- A client that is alone for a while -----

  lemma {:induction false} TakeConcat(cfg: Config, s: Shared, a: seq<Move>, b: seq<Move>)
    ensures TakeAll(cfg, s, a + b) == TakeAll(cfg, TakeAll(cfg, s, a), b)
    decreases |a|
  {
    hide Take;
    if a == [] {
      assert a + b == b;
    } else {
      assert (a + b)[0] == a[0] && (a + b)[1..] == a[1..] + b;
      TakeConcat(cfg, Take(cfg, s, a[0]), a[1..], b);
    }
  }

  lemma OneMove(cfg: Config, s: Shared, m: Move)
    ensures TakeAll(cfg, s, [m]) == Take(cfg, s, m)
  {
    hide Take;
    assert [m][1..] == [];
    assert TakeAll(cfg, Take(cfg, s, m), []) == Take(cfg, s, m);
  }

  // Every other client still has to do what it had to.
  ghost predicate OthersWait(s: Shared, s': Shared, c: nat) {
    forall e :: e != c ==> (e in s'.pending <==> e in s.pending) && (e in s.pending ==> s'.pending[e] == s.pending[e])
  }

  lemma {:induction false} Finishes(cfg: Config, s: Shared, c: nat) returns (moves: seq<Move>)
    requires c in s.pending
    ensures var s' := TakeAll(cfg, s, moves);
      s'.run == Perform(s.run, s.pending[c]) && OthersWait(s, s', c) && c in s'.pending && s'.pending[c] == []
    decreases |s.pending[c]|
  {
    hide PerformOp, Apply;
    if s.pending[c] == [] {
      moves := [];
    } else {
      var next := Take(cfg, s, Operate(c));
      moves := Finishes(cfg, next, c);
      TakeConcat(cfg, s, [Operate(c)], moves);
      OneMove(cfg, s, Operate(c));
      moves := [Operate(c)] + moves;
    }
  }

  // A command carried out without being interrupted.
  lemma Alone(cfg: Config, s: Shared, c: nat, cmd: Command) returns (moves: seq<Move>, s': Shared)
    ensures s' == TakeAll(cfg, s, moves) && s'.run == Carry(cfg, s.run, cmd) && OthersWait(s, s', c) && c in s'.pending && s'.pending[c] == []
  {
    hide Perform, Script;
    var checked := Take(cfg, s, Check(c, cmd));
    moves := Finishes(cfg, checked, c);
    TakeConcat(cfg, s, [Check(c, cmd)], moves);
    OneMove(cfg, s, Check(c, cmd));
    moves := [Check(c, cmd)] + moves;
    s' := TakeAll(cfg, s, moves);
  }

  // The same after other moves.
  lemma ThenAlone(cfg: Config, from: Shared, before: seq<Move>, s: Shared, c: nat, cmd: Command) returns (moves: seq<Move>, s': Shared)
    requires s == TakeAll(cfg, from, before)
    ensures s' == TakeAll(cfg, from, moves) && s'.run == Carry(cfg, s.run, cmd) && OthersWait(s, s', c) && c in s'.pending && s'.pending[c] == []
  {
    hide TakeAll, Carry;
    moves, s' := Alone(cfg, s, c, cmd);
    TakeConcat(cfg, from, before, moves);
    moves := before + moves;
  }

  lemma ThenMove(cfg: Config, from: Shared, before: seq<Move>, s: Shared, m: Move) returns (moves: seq<Move>, s': Shared)
    requires s == TakeAll(cfg, from, before)
    ensures s' == TakeAll(cfg, from, moves) && s' == Take(cfg, s, m)
  {
    hide TakeAll, Take;
    TakeConcat(cfg, from, before, [m]);
    OneMove(cfg, s, m);
    moves, s' := before + [m], Take(cfg, s, m);
  }

  // ----- A build that is late -----

  ghost function IsArchitecting(cfg: Config): RunState { Carry(cfg, Carry(cfg, NewRun("run"), Start), BeginArchitecture) }

  lemma ArchitectingFacts(cfg: Config)
    ensures IsArchitecting(cfg).rec.state == Architecting && IsArchitecting(cfg).rec.runId == "run"
  {
    hide Carry;
    Simple(cfg, NewRun("run"), Start, Intake);
    Simple(cfg, Carry(cfg, NewRun("run"), Start), BeginArchitecture, Architecting);
  }

  // Client 1 finds the run ARCHITECTING and asks its architect; meanwhile client 0 builds, and its plan is approved and started.
  lemma OtherPlanIsStarted(cfg: Config) returns (moves: seq<Move>, s: Shared, late: seq<Op>)
    ensures s == TakeAll(cfg, Begin("run"), moves) && s.run == FirstPlanRuns(cfg)
    ensures 1 in s.pending && s.pending[1] == [SetPlan(PLAN_2)] + late && late != [] && late[0] == Transition(WaitingArchitectApproval)
    ensures forall c :: c in s.pending && c != 1 ==> s.pending[c] == []
  {
    hide TakeAll, Carry;
    moves, s := [], Begin("run");
    assert TakeAll(cfg, s, []) == s by { NothingTaken(cfg, s); }
    moves, s := ThenAlone(cfg, Begin("run"), moves, s, 0, Start);
    moves, s := ThenAlone(cfg, Begin("run"), moves, s, 0, BeginArchitecture);
    assert s.run == IsArchitecting(cfg);
    ArchitectingFacts(cfg);
    late := LateScript(cfg, s.run.rec);
    moves, s := ThenMove(cfg, Begin("run"), moves, s, Check(1, Build(PLAN_2, "b", "t")));
    moves, s := ThenAlone(cfg, Begin("run"), moves, s, 0, Build(PLAN_1, "a", "t"));
    moves, s := ThenAlone(cfg, Begin("run"), moves, s, 0, Answer("a", Approve, "", "human", "t"));
    moves, s := ThenAlone(cfg, Begin("run"), moves, s, 0, ArchitectureDecision(Said("a", "run", Approve, "t")));
  }

  lemma NothingTaken(cfg: Config, s: Shared)
    ensures TakeAll(cfg, s, []) == s
  {
  }

  lemma LateScript(cfg: Config, rec: SessionRecord) returns (late: seq<Op>)
    requires rec.state == Architecting
    ensures Script(cfg, rec, Build(PLAN_2, "b", "t")) == [SetPlan(PLAN_2)] + late && late != [] && late[0] == Transition(WaitingArchitectApproval)
  {
    hide ValidGate;
    late := [Transition(WaitingArchitectApproval)] + GateRequest(ArchitectureGate(rec.runId, "b", PLAN_2, "t"));
  }

  lemma TransitionIsLate(run: RunState)
    requires run.rec.state == Executing
    ensures PerformOp(run, Transition(WaitingArchitectApproval)).None?
  {
  }

  lemma LatePlanIsStored(run: RunState, plan: ArchitecturePlan)
    ensures Apply(run.rec, SetPlan(plan)).Commit?
  {
  }

  /**
   The second build stores its plan in a run that already executes the approved one, and raises afterwards. Nobody
   stopped, the approved gate is the newest ARCHITECTURE gate, and the run executes a plan that no gate shows.
   */
  lemma LateBuildReplacesThePlan(cfg: Config) returns (moves: seq<Move>)
    ensures var s := TakeAll(cfg, Begin("run"), moves);
      && s.run.rec.state == Executing && s.run.rec.plan == Some(PLAN_2)
      && s.run.rec.gates == [ResolvedArchitecture()] && s.run.rec.decisions == [Said("a", "run", Approve, "t")]
      && Newest(s.run.rec.gates, "ARCHITECTURE") == Some(ResolvedArchitecture())
      && ResolvedArchitecture().context == PlanContext(PLAN_1)
      && (forall c :: c in s.pending ==> s.pending[c] == [])
  {
    hide TakeAll, FirstPlanRuns, PerformOp, Apply;
    var s, late;
    moves, s, late := OtherPlanIsStarted(cfg);
    FirstPlanIsRunning(cfg);
    Planned(s.run, PLAN_2);
    LatePlanIsStored(s.run, PLAN_2);
    assert ([SetPlan(PLAN_2)] + late)[1..] == late;
    moves, s := ThenMove(cfg, Begin("run"), moves, s, Operate(1));
    assert s.pending[1] == late;
    TransitionIsLate(s.run);
    moves, s := ThenMove(cfg, Begin("run"), moves, s, Operate(1));
  }

  // ----- Evidence that is noted late -----

  // The later evidence passes, and its gate is approved.
  lemma LaterEvidenceIsApproved(cfg: Config, run: RunState)
    requires run.rec.runId == "run" && run.rec.state == Supervising && run.rec.plan == Some(PLAN_1)
    requires run.rec.gates == [ResolvedArchitecture()] && run.rec.decisions == [Said("a", "run", Approve, "t")]
    requires run.rec.messages == [] && run.rec.results == [RESULT_1, RESULT_2] && run.rec.outputs == map["w" := OUTPUT]
    ensures var rec := Carry(cfg, Carry(cfg, run, Supervise(["w"], "g", "t", false)), Answer("g", Approve, "", "human", "t")).rec;
      var qa := Qa(PLAN_1, [RESULT_1, RESULT_2]);
      && rec.runId == "run" && rec.state == WaitingFinalApproval
      && rec.gates == [ResolvedArchitecture(), AsResolved(FinalGate("run", "g", Sha256(qa), "t"), "t")]
      && rec.decisions == [Said("a", "run", Approve, "t"), Said("g", "run", Approve, "t")]
      && rec.messages == [PassNote(qa)]
  {
    hide Carry, Qa, Evaluate, EvidenceOf, Enumerates, Blank, ValidGate;
    Names();
    var results := [RESULT_1, RESULT_2];
    EvidencePasses(PLAN_1, results);
    EvidenceIsInput(run.rec, PLAN_1, results);
    QaIs(PLAN_1, results);
    SupervisionPassed(cfg, run, ["w"], "g", "t");
    var gate := FinalGate("run", "g", Sha256(Qa(PLAN_1, results)), "t");
    FinalGateIsValid("run", "g", Sha256(Qa(PLAN_1, results)), "t");
    var waiting := Carry(cfg, run, Supervise(["w"], "g", "t", false));
    assert waiting.rec.gates == [ResolvedArchitecture()] + [gate];
    Answered(cfg, waiting, [ResolvedArchitecture()], gate, Approve, "t");
  }

  // Three clients supervise, client 1 on earlier evidence than clients 0 and 3; the gate of the later evidence is approved.
  lemma ThreeSupervise(cfg: Config) returns (moves: seq<Move>, s: Shared)
    ensures s == TakeAll(cfg, Begin("run"), moves) && ApprovedLater(s.run.rec) && s.run.rec.messages == [PassNote(Later())]
    ensures Notes(s, 1, Earlier()) && Notes(s, 3, Later())
  {
    hide TakeAll, Carry, Qa, Script, ResolvedArchitecture, FinalGate, AsResolved, Said, PassNote, FirstWorkDone, Enumerates;
    moves, s := FirstWorkReached(cfg);
    FirstWorkIsDone(cfg);
    var late := LateNote(cfg, s.run.rec, [RESULT_1], "f");
    moves, s := ThenMove(cfg, Begin("run"), moves, s, Check(1, Supervise(["w"], "f", "t", false)));
    NotesFirst(s, 1, Earlier(), late);
    SecondResultIsNew();
    ResultAdded(cfg, s.run, RESULT_2);
    moves, s := ThenAlone(cfg, Begin("run"), moves, s, 0, Other(AddResult(RESULT_2)));
    assert s.run.rec.results == [RESULT_1, RESULT_2];
    LaterEvidenceIsApproved(cfg, s.run);
    late := LateNote(cfg, s.run.rec, [RESULT_1, RESULT_2], "h");
    moves, s := ThenMove(cfg, Begin("run"), moves, s, Check(3, Supervise(["w"], "h", "t", false)));
    NotesFirst(s, 3, Later(), late);
    moves, s := ThenAlone(cfg, Begin("run"), moves, s, 0, Supervise(["w"], "g", "t", false));
    moves, s := ThenAlone(cfg, Begin("run"), moves, s, 0, Answer("g", Approve, "", "human", "t"));
  }

  ghost function Earlier(): QaResult { Qa(PLAN_1, [RESULT_1]) }

  ghost function Later(): QaResult { Qa(PLAN_1, [RESULT_1, RESULT_2]) }

  // The run waits for its final approval, and the one FINAL gate, which shows the later evidence, was approved.
  ghost predicate ApprovedLater(rec: SessionRecord) {
    && rec.runId == "run" && rec.state == WaitingFinalApproval
    && rec.gates == [ResolvedArchitecture(), AsResolved(FinalGate("run", "g", Sha256(Later()), "t"), "t")]
    && rec.decisions == [Said("a", "run", Approve, "t"), Said("g", "run", Approve, "t")]
  }

  // The client is about to note the evidence.
  ghost predicate Notes(s: Shared, c: nat, qa: QaResult) {
    c in s.pending && s.pending[c] != [] && s.pending[c][0] == AddMessage(PassNote(qa))
  }

  lemma NotesFirst(s: Shared, c: nat, qa: QaResult, late: seq<Op>)
    requires c in s.pending && s.pending[c] == [AddMessage(PassNote(qa))] + late
    ensures Notes(s, c, qa)
  {
  }

  // The evidence is noted late.
  lemma ThenNote(cfg: Config, from: Shared, before: seq<Move>, s: Shared, c: nat, qa: QaResult) returns (moves: seq<Move>, s': Shared)
    requires s == TakeAll(cfg, from, before) && Notes(s, c, qa)
    ensures s' == TakeAll(cfg, from, moves) && OthersWait(s, s', c)
    ensures s'.run.rec == s.run.rec.(messages := s.run.rec.messages + [PassNote(qa)], revision := s.run.rec.revision + 1)
  {
    hide TakeAll, PerformOp, Apply, PassNote;
    AddedMessage(s.run, PassNote(qa));
    NoteCommits(s.run, PassNote(qa));
    moves, s' := ThenMove(cfg, from, before, s, Operate(c));
  }

  lemma SecondResultIsNew()
    ensures FindResult([RESULT_1], RESULT_2.executionId).None?
  {
    assert [RESULT_1][1..] == [];
  }

  lemma FirstPlanReached(cfg: Config) returns (moves: seq<Move>, s: Shared)
    ensures s == TakeAll(cfg, Begin("run"), moves) && s.run == FirstPlanRuns(cfg)
    ensures forall c :: c in s.pending ==> s.pending[c] == []
  {
    hide TakeAll, Carry;
    moves, s := [], Begin("run");
    NothingTaken(cfg, s);
    moves, s := ThenAlone(cfg, Begin("run"), moves, s, 0, Start);
    moves, s := ThenAlone(cfg, Begin("run"), moves, s, 0, BeginArchitecture);
    moves, s := ThenAlone(cfg, Begin("run"), moves, s, 0, Build(PLAN_1, "a", "t"));
    moves, s := ThenAlone(cfg, Begin("run"), moves, s, 0, Answer("a", Approve, "", "human", "t"));
    moves, s := ThenAlone(cfg, Begin("run"), moves, s, 0, ArchitectureDecision(Said("a", "run", Approve, "t")));
  }

  lemma FirstWorkReached(cfg: Config) returns (moves: seq<Move>, s: Shared)
    ensures s == TakeAll(cfg, Begin("run"), moves) && s.run == FirstWorkDone(cfg)
  {
    hide TakeAll, Carry, FirstPlanRuns;
    moves, s := FirstPlanReached(cfg);
    moves, s := ThenAlone(cfg, Begin("run"), moves, s, 0, Other(AddResult(RESULT_1)));
    moves, s := ThenAlone(cfg, Begin("run"), moves, s, 0, Other(SetOutput(OUTPUT)));
    moves, s := ThenAlone(cfg, Begin("run"), moves, s, 0, BeginSupervision);
  }

  lemma LateNote(cfg: Config, rec: SessionRecord, results: seq<ExecutionResult>, gateId: string) returns (late: seq<Op>)
    requires rec.runId == "run" && rec.state == Supervising && rec.plan == Some(PLAN_1) && rec.outputs == map["w" := OUTPUT]
    requires rec.results == results && (results == [RESULT_1] || results == [RESULT_1, RESULT_2]) && (gateId == "f" || gateId == "h")
    ensures Script(cfg, rec, Supervise(["w"], gateId, "t", false)) == [AddMessage(PassNote(Qa(PLAN_1, results)))] + late
  {
    hide Qa, Evaluate, EvidenceOf, Enumerates, Blank;
    Names();
    NotBlank("h");
    EvidencePasses(PLAN_1, results);
    EvidenceIsInput(rec, PLAN_1, results);
    QaIs(PLAN_1, results);
    var qa := Qa(PLAN_1, results);
    PassScript(cfg, rec, qa, gateId, "t");
    late := [Transition(WaitingFinalApproval), AddGate(FinalGate("run", gateId, Sha256(qa), "t"))];
  }

  lemma NoteCommits(run: RunState, m: Message)
    ensures Apply(run.rec, AddMessage(m)).Commit?
  {
  }

  lemma GateIsRecorded(rec: SessionRecord)
    requires ApprovedLater(rec)
    ensures IsRecordedIn(rec, Said("g", "run", Approve, "t"))
    ensures Find(rec.gates, "g") == Some(rec.gates[1]) && rec.gates[1].kind == "FINAL" && rec.gates[1].context == QaContext(Sha256(Later()))
    ensures Newest(rec.gates, "FINAL") == Some(rec.gates[1])
  {
    hide Blank, Qa;
    Names();
    assert rec.gates[0].gateId == "a" && rec.gates[1].gateId == "g";
    assert rec.decisions[1..][0] == rec.decisions[1] && rec.gates[1..][0] == rec.gates[1];
    assert GateIndex(rec.gates[1..], "g") == Some(0);
    assert FindDecision(rec.decisions[1..], "g") == Some(rec.decisions[1]);
  }

  // No gate shows the earlier evidence.
  lemma EarlierIsUnshown(rec: SessionRecord)
    requires ApprovedLater(rec)
    ensures forall g :: g in rec.gates ==> g.context != QaContext(Sha256(Earlier()))
  {
    hide Qa;
    EvidenceDiffers();
    DifferentEvidence(Earlier(), Later());
  }

  lemma LastNote(messages: seq<Message>, qa: QaResult)
    requires qa.runId == "run" && qa.status == Pass
    ensures RecordedHash(messages + [PassNote(qa)], "run") == Ok(Some(Sha256(qa)))
  {
    HashAppended(messages, PassNote(qa), "run");
    hide RecordedHash;
  }

  /**
   The earlier evidence is noted after the gate for the later evidence was approved: the run completes on the earlier
   evidence, which no gate shows, although the approved gate is the newest FINAL gate.
   */
  lemma LateNoteReplacesTheEvidence(cfg: Config) returns (moves: seq<Move>)
    ensures var s := TakeAll(cfg, Begin("run"), moves);
      var d := Said("g", "run", Approve, "t");
      var done := Carry(cfg, s.run, FinalDecision(d, None)).rec;
      && s.run.rec.state == WaitingFinalApproval && IsRecordedIn(s.run.rec, d)
      && Find(s.run.rec.gates, "g").Some? && Find(s.run.rec.gates, "g") == Newest(s.run.rec.gates, "FINAL")
      && done.state == Completed && done.final.Some? && done.final.value.evidenceHash == Some(Sha256(Qa(PLAN_1, [RESULT_1])))
      && (forall g :: g in done.gates ==> g.context != QaContext(Sha256(Qa(PLAN_1, [RESULT_1]))))
  {
    hide TakeAll, Carry, Qa, IsRecordedIn, Find, Newest, Blank, PassNote, RecordedHash;
    Names();
    var s;
    moves, s := ThreeSupervise(cfg);
    moves, s := ThenNote(cfg, Begin("run"), moves, s, 1, Earlier());
    GateIsRecorded(s.run.rec);
    EarlierIsUnshown(s.run.rec);
    EvidenceDiffers();
    LastNote([PassNote(Later())], Earlier());
    Completes(cfg, s.run, Said("g", "run", Approve, "t"), Sha256(Earlier()));
  }

  // ----- A completion that is interrupted -----

  function Approval(h: Digest): FinalResult { FinalResult("run", "Final result approved by human.", Some(h)) }

  // The client is about to complete the run on this evidence.
  ghost predicate Completing(s: Shared, c: nat, h: Digest) {
    c in s.pending && s.pending[c] == [AddDecision(Said("g", "run", Approve, "t")), SetFinal(Approval(h)), Transition(Completed)]
  }

  // Client 2 reads the record and decides.
  lemma ThenDecide(cfg: Config, from: Shared, before: seq<Move>, s: Shared, h: Digest) returns (moves: seq<Move>, s': Shared)
    requires s == TakeAll(cfg, from, before) && ApprovedLater(s.run.rec) && RecordedHash(s.run.rec.messages, "run") == Ok(Some(h))
    ensures s' == TakeAll(cfg, from, moves) && s'.run == s.run && OthersWait(s, s', 2) && Completing(s', 2, h)
  {
    hide TakeAll, Qa, IsRecordedIn, Find, Newest, Blank, RecordedHash;
    Names();
    NotBlank("Final result approved by human.");
    GateIsRecorded(s.run.rec);
    moves, s' := ThenMove(cfg, from, before, s, Check(2, FinalDecision(Said("g", "run", Approve, "t"), None)));
  }

  // It carries out what it decided on whatever the messages have become.
  lemma ThenComplete(cfg: Config, from: Shared, before: seq<Move>, s: Shared, h: Digest) returns (moves: seq<Move>, s': Shared)
    requires s == TakeAll(cfg, from, before) && ApprovedLater(s.run.rec) && Completing(s, 2, h)
    ensures s' == TakeAll(cfg, from, moves)
    ensures s'.run.rec == s.run.rec.(final := Some(Approval(h)), state := Completed, revision := s.run.rec.revision + 2)
  {
    hide TakeAll, Qa, IsRecordedIn, Find, PerformOp;
    var more := Finishes(cfg, s, 2);
    TakeConcat(cfg, from, before, more);
    moves, s' := before + more, TakeAll(cfg, s, more);
    var d := Said("g", "run", Approve, "t");
    GateIsRecorded(s.run.rec);
    ConfirmingChangesNothing(s.run, d);
    SetFinalResult(s.run, Approval(h));
    var run1 := PerformOp(s.run, SetFinal(Approval(h))).value;
    Moved(run1, Completed);
    OneOp(run1, Transition(Completed));
    ManyOps(s.run, SetFinal(Approval(h)), [Transition(Completed)]);
    ManyOps(s.run, AddDecision(d), [SetFinal(Approval(h))] + [Transition(Completed)]);
    assert s.pending[2] == [AddDecision(d)] + ([SetFinal(Approval(h))] + [Transition(Completed)]);
  }

  /**
   Other evidence is noted between the completing client's read and its result: the run completes on the evidence its
   gate shows, and that is no longer the evidence noted last.
   */
  lemma NoteInterruptsACompletion(cfg: Config) returns (moves: seq<Move>)
    ensures var s := TakeAll(cfg, Begin("run"), moves);
      && s.run.rec.state == Completed && s.run.rec.final.Some? && s.run.rec.final.value.evidenceHash == Some(Sha256(Later()))
      && LastEvidence(s.log) == Some(Sha256(Earlier())) && Earlier() != Later() && !BoundToEvidence(s.run.rec)
  {
    hide TakeAll, Qa, PassNote, RecordedHash, LastEvidence, LastPlan, LastShown, UniqueGates, Shown;
    var s;
    moves, s := ThreeSupervise(cfg);
    EvidenceDiffers();
    LastNote([], Later());
    assert [] + [PassNote(Later())] == [PassNote(Later())];
    moves, s := ThenDecide(cfg, Begin("run"), moves, s, Sha256(Later()));
    moves, s := ThenNote(cfg, Begin("run"), moves, s, 1, Earlier());
    LastNote([PassNote(Later())], Earlier());
    moves, s := ThenComplete(cfg, Begin("run"), moves, s, Sha256(Later()));
    TheLogDecides(cfg, "run", moves);
  }

  /**
   The evidence of the newest FINAL gate is noted again before the result is stored: at the end nothing overtakes it and
   that gate is the approved one, and yet the run completed on evidence that no gate shows.
   */
  lemma ANoteHidesTheCompletedEvidence(cfg: Config) returns (moves: seq<Move>)
    ensures var s := TakeAll(cfg, Begin("run"), moves);
      && s.run.rec.state == Completed && s.run.rec.final.Some? && s.run.rec.final.value.evidenceHash == Some(Sha256(Earlier()))
      && (forall g :: g in s.run.rec.gates ==> g.context != QaContext(Sha256(Earlier())))
      && !EvidenceOvertaken(s.log) && IsRecordedIn(s.run.rec, Said("g", "run", Approve, "t"))
      && Find(s.run.rec.gates, "g").Some? && Find(s.run.rec.gates, "g") == Newest(s.run.rec.gates, "FINAL")
  {
    hide TakeAll, Qa, PassNote, RecordedHash, LastEvidence, LastPlan, LastShown, UniqueGates, Find, IsRecordedIn, Newest;
    var s;
    moves, s := ThreeSupervise(cfg);
    EvidenceDiffers();
    moves, s := ThenNote(cfg, Begin("run"), moves, s, 1, Earlier());
    LastNote([PassNote(Later())], Earlier());
    moves, s := ThenDecide(cfg, Begin("run"), moves, s, Sha256(Earlier()));
    moves, s := ThenNote(cfg, Begin("run"), moves, s, 3, Later());
    LastNote([PassNote(Later())] + [PassNote(Earlier())], Later());
    GateIsRecorded(s.run.rec);
    EarlierIsUnshown(s.run.rec);
    var waiting := s.run.rec;
    moves, s := ThenComplete(cfg, Begin("run"), moves, s, Sha256(Earlier()));
    StaysRecorded(waiting, s.run.rec, Said("g", "run", Approve, "t"));
    TheLogDecides(cfg, "run", moves);
  }

  lemma StaysRecorded(rec: SessionRecord, rec': SessionRecord, d: HumanDecision)
    requires IsRecordedIn(rec, d) && rec'.runId == rec.runId && rec'.gates == rec.gates && rec'.decisions == rec.decisions
    ensures IsRecordedIn(rec', d)
  {
  }

  lemma EvidenceDiffers()
    ensures Earlier().runId == Later().runId == "run" && Earlier().status == Later().status == Pass
    ensures Earlier().evidence.executions != Later().evidence.executions
  {
    hide Evaluate;
    EvidencePasses(PLAN_1, [RESULT_1]);
    EvidencePasses(PLAN_1, [RESULT_1, RESULT_2]);
  }

  lemma DifferentEvidence(a: QaResult, b: QaResult)
    requires a.evidence.executions != b.evidence.executions
    ensures QaContext(Sha256(a)) != QaContext(Sha256(b)) && ResolvedArchitecture().context != QaContext(Sha256(a))
  {
    assert Sha256(a).payload != Sha256(b).payload;
  }

  // ----- A resumption that is late -----

  function NetworkRequest(cfg: Config): ToolRequest { ToolRequest("run", "w", [], [], cfg.backendId, true) }

  function RiskOfPlan(cfg: Config): seq<string> { cfg.riskyTools([], []) }

  function NetworkGateOf(cfg: Config): ApprovalGate { ToolGate(NetworkRequest(cfg), RiskOfPlan(cfg), "h", "t") }

  function ToolApproval(cfg: Config): ToolVerdict { ToolVerdict("h", Approve, "run", "w", "", "human", cfg.backendId, true, "t") }

  const RESUMED: WorkerOutput := WorkerOutput("w", "run", "approved", None)

  ghost predicate IsPaused(cfg: Config, rec: SessionRecord) {
    && rec.runId == "run" && rec.state == WorkerWaitingHuman && rec.gates == [ResolvedArchitecture()] + [NetworkGateOf(cfg)]
    && rec.decisions == [Said("a", "run", Approve, "t")] && rec.messages == [Message("system", "paused", NoNote)]
  }

  lemma NoNetworkGateYet(cfg: Config)
    ensures Matching([ResolvedArchitecture()], NetworkRequest(cfg), RiskOfPlan(cfg)).None?
    ensures GateIndex([ResolvedArchitecture()], "h").None?
  {
    var gates := [ResolvedArchitecture()];
    assert gates[0].kind == "ARCHITECTURE" && gates[0].gateId == "a" && gates[1..] == [];
    assert forall g :: g in gates ==> !Matches(g, NetworkRequest(cfg), RiskOfPlan(cfg));
  }

  lemma NetworkGateOpened(cfg: Config, run: RunState)
    requires run.rec.runId == "run" && run.rec.state == Executing && run.rec.plan == Some(PLAN_1) && run.rec.gates == [ResolvedArchitecture()]
    ensures Carry(cfg, run, OpenToolGate(0, true, "h", "t")).rec ==
      run.rec.(gates := run.rec.gates + [NetworkGateOf(cfg)], revision := run.rec.revision + 1)
  {
    hide ValidGate, Matching, GateIndex, PerformOp;
    NoNetworkGateYet(cfg);
    ToolGateIsValid(NetworkRequest(cfg), RiskOfPlan(cfg));
    Opened(run, NetworkGateOf(cfg));
    OneOp(run, AddGate(NetworkGateOf(cfg)));
    assert PlanRequest(cfg, run.rec, 0, true) == NetworkRequest(cfg) && PlanRisk(cfg, run.rec, 0) == RiskOfPlan(cfg);
  }

  lemma PausedIsReached(cfg: Config) returns (moves: seq<Move>, s: Shared)
    ensures s == TakeAll(cfg, Begin("run"), moves) && IsPaused(cfg, s.run.rec)
    ensures forall c :: c in s.pending ==> s.pending[c] == []
  {
    hide TakeAll, Carry, FirstPlanRuns, GateIndex, Matching;
    moves, s := FirstPlanReached(cfg);
    FirstPlanIsRunning(cfg);
    NetworkGateOpened(cfg, s.run);
    moves, s := ThenAlone(cfg, Begin("run"), moves, s, 0, OpenToolGate(0, true, "h", "t"));
    NoNetworkGateYet(cfg);
    RunPaused(cfg, s.run, [ResolvedArchitecture()], NetworkGateOf(cfg));
    moves, s := ThenAlone(cfg, Begin("run"), moves, s, 0, Pause("h"));
  }

  lemma ResumptionScript(cfg: Config, rec: SessionRecord)
    requires IsPaused(cfg, rec)
    ensures Script(cfg, rec, ResumeTool(ToolApproval(cfg))) ==
      [ResolveGate(AsResolved(NetworkGateOf(cfg), "t"), Said("h", "run", Approve, "t")), SetOutput(RESUMED), Transition(Executing)]
  {
    hide ValidGate, Blank, Strip, GateIndex, Find, Revisions;
    var g := NetworkGateOf(cfg);
    Names();
    NoNetworkGateYet(cfg);
    LastGate([ResolvedArchitecture()], g);
    StripHuman();
    ToolGateIsValid(NetworkRequest(cfg), RiskOfPlan(cfg));
    StaysValid(g, "t");
    AnswerIsOneOp(rec, g, Approve, "t");
  }

  lemma ToolGateResolved(cfg: Config, run: RunState)
    requires IsPaused(cfg, run.rec)
    ensures var op := ResolveGate(AsResolved(NetworkGateOf(cfg), "t"), Said("h", "run", Approve, "t"));
      && Apply(run.rec, op).Commit? && PerformOp(run, op).Some?
      && PerformOp(run, op).value.rec.runId == "run" && PerformOp(run, op).value.rec.state == WorkerWaitingHuman
      && PerformOp(run, op).value.rec.gates == [ResolvedArchitecture()] + [AsResolved(NetworkGateOf(cfg), "t")]
      && PerformOp(run, op).value.rec.decisions == [Said("a", "run", Approve, "t")] + [Said("h", "run", Approve, "t")]
      && PerformOp(run, op).value.rec.messages == run.rec.messages
  {
    hide GateIndex;
    NoNetworkGateYet(cfg);
    LastIndex([ResolvedArchitecture()], NetworkGateOf(cfg));
    assert [Said("a", "run", Approve, "t")][1..] == [];
    assert FindDecision(run.rec.decisions, "h").None?;
    hide FindDecision;
    ResolvedLast(run, [ResolvedArchitecture()], NetworkGateOf(cfg), Approve, "t");
  }

  lemma NoRevisionsYet(messages: seq<Message>)
    requires messages == [Message("system", "paused", NoNote)]
    ensures Revisions(messages) == []
  {
    assert messages[..0] == [];
    assert Revisions(messages[..0]) == [];
  }

  lemma NoSecondGateYet(cfg: Config)
    ensures GateIndex([ResolvedArchitecture()] + [AsResolved(NetworkGateOf(cfg), "t")], "b").None?
  {
    var gates := [ResolvedArchitecture()] + [AsResolved(NetworkGateOf(cfg), "t")];
    assert gates[0].gateId == "a" && gates[1].gateId == "h" && gates[1..][1..] == [];
  }

  function ThreeGates(cfg: Config): seq<ApprovalGate> {
    [ResolvedArchitecture()] + [AsResolved(NetworkGateOf(cfg), "t")] + [ArchitectureGate("run", "b", PLAN_2, "t")]
  }

  // Client 1 answers the tool gate; meanwhile client 0 records a revision and builds another plan.
  lemma OtherPlanWaits(cfg: Config) returns (moves: seq<Move>, s: Shared)
    requires cfg.maxRevisions >= 1
    ensures s == TakeAll(cfg, Begin("run"), moves) && s.run.rec.runId == "run" && s.run.rec.state == WaitingArchitectApproval
    ensures s.run.rec.plan == Some(PLAN_2) && s.run.rec.gates == ThreeGates(cfg)
    ensures s.run.rec.decisions == [Said("a", "run", Approve, "t")] + [Said("h", "run", Approve, "t")]
    ensures 1 in s.pending && s.pending[1] == [SetOutput(RESUMED), Transition(Executing)]
    ensures forall c :: c in s.pending && c != 1 ==> s.pending[c] == []
  {
    hide TakeAll, Carry, Blank, GateIndex, PerformOp, Apply, Script, ToolGate, ArchitectureGate, Said, Revisions;
    Names();
    moves, s := PausedIsReached(cfg);
    ResumptionScript(cfg, s.run.rec);
    ToolGateResolved(cfg, s.run);
    moves, s := ThenMove(cfg, Begin("run"), moves, s, Check(1, ResumeTool(ToolApproval(cfg))));
    moves, s := ThenMove(cfg, Begin("run"), moves, s, Operate(1));
    NoRevisionsYet(s.run.rec.messages);
    Revised(cfg, s.run);
    moves, s := ThenAlone(cfg, Begin("run"), moves, s, 0, RequestRevision);
    NoSecondGateYet(cfg);
    Built(cfg, s.run, PLAN_2, "b", "t");
    moves, s := ThenAlone(cfg, Begin("run"), moves, s, 0, Build(PLAN_2, "b", "t"));
  }

  lemma ResumptionIsFinished(run: RunState)
    requires run.rec.runId == "run" && run.rec.state == WaitingArchitectApproval
    ensures var rec := Perform(run, [SetOutput(RESUMED), Transition(Executing)]).rec;
      rec.state == Executing && rec.plan == run.rec.plan && rec.gates == run.rec.gates && rec.decisions == run.rec.decisions
  {
    hide PerformOp;
    var run1 := OutputStored(run);
    Moved(run1, Executing);
    OneOp(run1, Transition(Executing));
    ManyOps(run, SetOutput(RESUMED), [Transition(Executing)]);
    assert [SetOutput(RESUMED), Transition(Executing)] == [SetOutput(RESUMED)] + [Transition(Executing)];
  }

  lemma OutputStored(run: RunState) returns (run': RunState)
    requires run.rec.runId == "run"
    ensures PerformOp(run, SetOutput(RESUMED)) == Some(run')
    ensures run'.rec == run.rec.(outputs := run.rec.outputs["w" := RESUMED], revision := run.rec.revision + 1)
  {
    run' := PerformOp(run, SetOutput(RESUMED)).value;
  }

  /**
   The client that resumes after an approved tool gate is slow: it moves the run from waiting for the approval of another
   plan to EXECUTING. Nobody stopped, the gate of that plan is open, and no human ever decided on it.
   */
  lemma LateResumptionStartsAPlan(cfg: Config) returns (moves: seq<Move>)
    requires cfg.maxRevisions >= 1
    ensures var s := TakeAll(cfg, Begin("run"), moves);
      && s.run.rec.state == Executing && s.run.rec.plan == Some(PLAN_2)
      && Newest(s.run.rec.gates, "ARCHITECTURE") == Some(ArchitectureGate("run", "b", PLAN_2, "t"))
      && ArchitectureGate("run", "b", PLAN_2, "t").status == Open
      && s.run.rec.decisions == [Said("a", "run", Approve, "t")] + [Said("h", "run", Approve, "t")]
      && (forall c :: c in s.pending ==> s.pending[c] == [])
  {
    hide TakeAll, Perform, ToolGate, Said;
    var s;
    moves, s := OtherPlanWaits(cfg);
    ResumptionIsFinished(s.run);
    var more := Finishes(cfg, s, 1);
    TakeConcat(cfg, Begin("run"), moves, more);
    moves := moves + more;
  }
}
