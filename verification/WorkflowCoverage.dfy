/**
 Exactly which plan and which evidence an approval covers. As long as no process stops between the transition into a
 waiting state and the opening of its gate, the newest ARCHITECTURE gate shows the plan on record and the newest FINAL
 gate the newest passing evidence.
 */
module WorkflowCoverage {
  import opened Wrappers
  import opened Contracts
  import opened Text
  import opened SessionStore
  import opened Approvals
  import opened RestartTransparency
  import opened Supervisor
  import opened Authorization
  import opened Workflow
  import opened WorkflowSafety
  import opened WorkflowScripts
  import opened WorkflowEffects

  // ----- The gate of a kind that was opened last -----

  function Newest(gates: seq<ApprovalGate>, kind: string): (g: Option<ApprovalGate>)
    ensures g.Some? ==> g.value in gates && g.value.kind == kind
    ensures g.None? ==> forall x :: x in gates ==> x.kind != kind
  {
    if gates == [] then None
    else if gates[|gates| - 1].kind == kind then Some(gates[|gates| - 1])
    else Newest(gates[..|gates| - 1], kind)
  }

  // What that gate shows the human.
  function Shown(gates: seq<ApprovalGate>, kind: string): Option<GateContext> {
    match Newest(gates, kind) case None => None case Some(g) => Some(g.context)
  }

  lemma ShownAppended(gates: seq<ApprovalGate>, g: ApprovalGate, kind: string)
    ensures Shown(gates + [g], kind) == if g.kind == kind then Some(g.context) else Shown(gates, kind)
  {
    assert (gates + [g])[..|gates|] == gates;
  }

  lemma {:induction false} ShownReplaced(gates: seq<ApprovalGate>, i: nat, g: ApprovalGate, kind: string)
    requires i < |gates| && gates[i].kind == g.kind && gates[i].context == g.context
    ensures Shown(gates[i := g], kind) == Shown(gates, kind)
  {
    var n := |gates| - 1;
    if i == n {
      assert gates[i := g][..n] == gates[..n];
    } else {
      assert gates[i := g][..n] == gates[..n][i := g];
      ShownReplaced(gates[..n], i, g, kind);
    }
  }

  // ----- The invariant -----

  // The states a run reaches only with a plan on which a human was asked to decide.
  predicate PlanStands(s: WorkflowState) { s !in {Idle, Intake, Architecting, Failed} }

  ghost predicate ShowsPlan(rec: SessionRecord) {
    rec.plan.Some? && Shown(rec.gates, "ARCHITECTURE") == Some(PlanContext(rec.plan.value))
  }

  ghost predicate ShowsEvidence(rec: SessionRecord) {
    var hash := RecordedHash(rec.messages, rec.runId);
    hash.Ok? && hash.value.Some? && Shown(rec.gates, "FINAL") == Some(QaContext(hash.value.value))
  }

  ghost predicate Covered(rec: SessionRecord) {
    && (PlanStands(rec.state) ==> ShowsPlan(rec))
    && (rec.state == WaitingFinalApproval ==> ShowsEvidence(rec))
  }

  // The operations that neither show anything nor need anything to be shown.
  predicate Quiet(op: Op) {
    match op
    case Transition(target) => target !in {WaitingArchitectApproval, WaitingFinalApproval}
    case AddGate(g) => g.kind !in {"ARCHITECTURE", "FINAL"}
    case SetPlan(_) => false
    case _ => true
  }

  lemma QuietKeepsShown(cfg: Config, run: RunState, op: Op, kind: string)
    requires Settled(run.rec) && Permitted(cfg, run, op) && Quiet(op) && Apply(run.rec, op).Commit?
    requires kind in {"ARCHITECTURE", "FINAL"}
    ensures Shown(Apply(run.rec, op).record.gates, kind) == Shown(run.rec.gates, kind)
  {
    hide Settled, Shown, GateOp, UniqueGates, GateIndex, PassedOn, Finished, PermittedMessage, PermittedGate;
    if op.AddGate? {
      AddedGate(run.rec, op.gate);
      ShownAppended(run.rec.gates, op.gate, kind);
    } else if op.ResolveGate? || op.CancelGate? {
      OpenGateIndex(run.rec, op);
      ShownReplaced(run.rec.gates, GateIndex(run.rec.gates, op.gate.gateId).value, op.gate, kind);
    } else {
      UntouchedGates(run.rec, op);
    }
  }

  // Evidence is recorded only while the run is being supervised.
  lemma QuietKeepsHash(cfg: Config, run: RunState, op: Op)
    requires Permitted(cfg, run, op) && Quiet(op) && Apply(run.rec, op).Commit? && run.rec.state == WaitingFinalApproval
    ensures RecordedHash(Apply(run.rec, op).record.messages, run.rec.runId) == RecordedHash(run.rec.messages, run.rec.runId)
  {
    hide Apply, RecordedHash, GateOp, SameGate, PermittedGate, PassedOn, Finished, SoundNote;
    AppliedMessages(run.rec, op);
    if op.AddMessage? { HashAppended(run.rec.messages, op.message, run.rec.runId); }
  }

  lemma QuietTransition(run: RunState, op: Op)
    requires Quiet(op) && Apply(run.rec, op).Commit?
    ensures PlanStands(Apply(run.rec, op).record.state) ==> PlanStands(run.rec.state)
    ensures Apply(run.rec, op).record.state == WaitingFinalApproval ==> run.rec.state == WaitingFinalApproval
    ensures Apply(run.rec, op).record.plan == run.rec.plan
  {
    hide Apply;
    AppliedState(run.rec, op);
  }

  lemma QuietKeepsCovered(cfg: Config, run: RunState, op: Op)
    requires Settled(run.rec) && Permitted(cfg, run, op) && Quiet(op) && Apply(run.rec, op).Commit? && Covered(run.rec)
    ensures Covered(PerformOp(run, op).value.rec)
  {
    hide Apply, Settled, Shown, Permitted, RecordedHash, PerformOp, Quiet, PlanStands;
    CommittedOp(run, op);
    QuietTransition(run, op);
    AppliedMessages(run.rec, op);
    if run.rec.state == WaitingFinalApproval { QuietKeepsHash(cfg, run, op); }
    QuietKeepsShown(cfg, run, op, "ARCHITECTURE");
    QuietKeepsShown(cfg, run, op, "FINAL");
  }

  lemma {:induction false} PerformKeepsCovered(cfg: Config, run: RunState, ops: seq<Op>, k: nat)
    requires Inv(cfg, run) && AllPermitted(cfg, run, ops) && Covered(run.rec)
    requires k <= |ops| && forall op :: op in ops[..k] ==> Quiet(op)
    ensures Covered(Perform(run, ops[..k]).rec)
    decreases k
  {
    hide Inv, Permitted, PerformOp, Apply, Quiet, Covered;
    if k > 0 {
      assert ops[..k][0] == ops[0] && ops[..k][1..] == ops[1..][..k - 1];
      assert ops[0] in ops[..k];
      if Apply(run.rec, ops[0]).Commit? {
        SettledRun(cfg, run);
        OpKeepsInv(cfg, run, ops[0]);
        QuietKeepsCovered(cfg, run, ops[0]);
      } else {
        NotCommitted(run, ops[0]);
      }
      match PerformOp(run, ops[0]) {
        case None =>
        case Some(run') => PerformKeepsCovered(cfg, run', ops[1..], k - 1);
      }
    }
  }

  lemma SettledRun(cfg: Config, run: RunState)
    requires Inv(cfg, run)
    ensures Settled(run.rec)
  {
  }

  // ----- Which commands are quiet -----

  lemma RevisionIsQuiet(limit: nat, state: WorkflowState, count: nat)
    ensures forall op :: op in RevisionScript(limit, state, count) ==> Quiet(op)
  {
  }

  lemma AnswerIsQuiet(rec: SessionRecord, gateId: string, decision: DecisionType, feedback: string, actor: string, now: string)
    ensures forall op :: op in AnswerScript(rec, gateId, decision, feedback, actor, now) ==> Quiet(op)
  {
    hide ValidGate, ValidDecision, Find, Blank, Strip;
  }

  lemma CompletionIsQuiet(rec: SessionRecord, d: HumanDecision, final: Option<FinalResult>)
    ensures forall op :: op in CompletionScript(rec, d, final) ==> Quiet(op)
  {
    hide RecordedHash, ValidFinal;
  }

  lemma DecisionIsQuiet(cfg: Config, rec: SessionRecord, cmd: Command)
    requires cmd.ArchitectureDecision? || cmd.FinalDecision?
    ensures forall op :: op in Script(cfg, rec, cmd) ==> Quiet(op)
  {
    hide IsRecordedIn, CompletionScript, RevisionScript, Revisions, Find;
    RevisionIsQuiet(cfg.maxRevisions, WaitingArchitectApproval, |Revisions(rec.messages)|);
    RevisionIsQuiet(cfg.maxRevisions, WaitingFinalApproval, |Revisions(rec.messages)|);
    if cmd.FinalDecision? { CompletionIsQuiet(rec, cmd.recorded, cmd.final); }
  }

  lemma ToolGateIsQuiet(cfg: Config, rec: SessionRecord, i: nat, network: bool, gateId: string, now: string)
    ensures forall op :: op in Script(cfg, rec, OpenToolGate(i, network, gateId, now)) ==> Quiet(op)
  {
    hide Matching, PlanRisk, PlanRequest, ValidGate;
  }

  lemma ResumeIsQuiet(cfg: Config, rec: SessionRecord, t: ToolVerdict)
    ensures forall op :: op in ResumeScript(cfg, rec, t) ==> Quiet(op)
  {
    hide AnswerScript, RevisionScript, Revisions, Find, BelongsTo;
    AnswerIsQuiet(rec, t.gateId, t.decision, t.feedback, t.actor, t.timestamp);
    RevisionIsQuiet(cfg.maxRevisions, WorkerWaitingHuman, |Revisions(rec.messages)|);
  }

  lemma OtherCommandsAreQuiet(cfg: Config, rec: SessionRecord, cmd: Command)
    requires !cmd.Build? && !cmd.Supervise?
    ensures forall op :: op in Script(cfg, rec, cmd) ==> Quiet(op)
  {
    hide AnswerScript, ResumeScript, RevisionScript, Find;
    match cmd {
      case Answer(gateId, decision, feedback, actor, now) => AnswerIsQuiet(rec, gateId, decision, feedback, actor, now);
      case ArchitectureDecision(_) => DecisionIsQuiet(cfg, rec, cmd);
      case FinalDecision(_, _) => DecisionIsQuiet(cfg, rec, cmd);
      case RequestRevision => RevisionIsQuiet(cfg.maxRevisions, rec.state, |Revisions(rec.messages)|);
      case OpenToolGate(i, network, gateId, now) => ToolGateIsQuiet(cfg, rec, i, network, gateId, now);
      case ResumeTool(t) => ResumeIsQuiet(cfg, rec, t);
      case RecoverFailure => RevisionIsQuiet(cfg.recoveryRevisions, Supervising, |Revisions(rec.messages)|);
      case _ =>
    }
  }

  // ----- New gates have ids of their own, as random ids do, and no process stops just before opening one -----

  ghost predicate FreshFor(rec: SessionRecord, cmd: Command) {
    match cmd
    case Build(_, gateId, now) => !Blank(gateId) && !Blank(now) && GateIndex(rec.gates, gateId).None?
    case Supervise(_, gateId, now, _) => !Blank(gateId) && !Blank(now) && GateIndex(rec.gates, gateId).None?
    case _ => true
  }

  // The script is left after its transition and before its gate.
  predicate StopsBeforeItsGate(ops: seq<Op>, length: nat) { 0 < length < |ops| && ops[length].AddGate? }

  ghost predicate Orderly(cfg: Config, run: RunState, s: Stride) {
    FreshFor(run.rec, s.cmd) && !StopsBeforeItsGate(Script(cfg, run.rec, s.cmd), s.length)
  }

  ghost predicate AllOrderly(cfg: Config, run: RunState, strides: seq<Stride>) {
    strides == [] ||
    (AllOrderly(cfg, run, strides[..|strides| - 1]) && Orderly(cfg, ProceedAll(cfg, run, strides[..|strides| - 1]), strides[|strides| - 1]))
  }

  function Taken(ops: seq<Op>, length: nat): nat { if length <= |ops| then length else |ops| }

  lemma BuildKeepsCovered(cfg: Config, run: RunState, plan: ArchitecturePlan, gateId: string, now: string, length: nat)
    requires Inv(cfg, run) && Covered(run.rec) && Orderly(cfg, run, Stride(Build(plan, gateId, now), length)) && !Blank(run.rec.runId)
    ensures Covered(Proceed(cfg, run, Stride(Build(plan, gateId, now), length)).rec)
  {
    hide Inv, Perform, RecordedHash, Blank, GateIndex, Shown, ValidGate, PerformOp;
    var ops := Script(cfg, run.rec, Build(plan, gateId, now));
    var taken := ops[..Taken(ops, length)];
    NoMoreOps(run);
    if run.rec.state != Architecting || length == 0 {
      assert taken == [];
    } else if length == 1 {
      Planned(run, plan);
      OneOp(run, SetPlan(plan));
      assert taken == [SetPlan(plan)];
    } else {
      ArchitectureGateIsValid(run.rec.runId, gateId, plan, now);
      assert |ops| == 3 && ops[2].AddGate?;
      assert taken == ops;
      Built(cfg, run, plan, gateId, now);
      ShownAppended(run.rec.gates, ArchitectureGate(run.rec.runId, gateId, plan, now), "ARCHITECTURE");
    }
  }

  lemma PassKeepsCovered(cfg: Config, run: RunState, qa: QaResult, gateId: string, now: string)
    requires Covered(run.rec) && run.rec.state == Supervising && qa.status == Pass && qa.runId == run.rec.runId
    requires GateIndex(run.rec.gates, gateId).None? && !Blank(gateId) && !Blank(run.rec.runId) && !Blank(now)
    ensures Covered(Perform(run, VerdictScript(cfg, run.rec, qa, gateId, now)).rec)
  {
    hide Perform, RecordedHash, Blank, GateIndex, Shown, VerdictScript;
    PassRecorded(cfg, run, qa, gateId, now);
    var gate := FinalGate(run.rec.runId, gateId, Sha256(qa), now);
    ShownAppended(run.rec.gates, gate, "ARCHITECTURE");
    ShownAppended(run.rec.gates, gate, "FINAL");
    HashAppended(run.rec.messages, PassNote(qa), run.rec.runId);
  }

  lemma PassScript(cfg: Config, rec: SessionRecord, qa: QaResult, gateId: string, now: string)
    requires qa.status == Pass && !Blank(gateId) && !Blank(rec.runId) && !Blank(now)
    ensures VerdictScript(cfg, rec, qa, gateId, now) ==
      [AddMessage(PassNote(qa)), Transition(WaitingFinalApproval), AddGate(FinalGate(rec.runId, gateId, Sha256(qa), now))]
  {
    hide Blank, ValidGate;
    FinalGateIsValid(rec.runId, gateId, Sha256(qa), now);
  }

  lemma VerdictKeepsCovered(cfg: Config, run: RunState, qa: QaResult, gateId: string, now: string, length: nat)
    requires Inv(cfg, run) && Covered(run.rec) && run.rec.state == Supervising && qa.runId == run.rec.runId
    requires qa.status == Pass ==> PassedOn(run.rec)
    requires GateIndex(run.rec.gates, gateId).None? && !Blank(gateId) && !Blank(run.rec.runId) && !Blank(now)
    requires !StopsBeforeItsGate(VerdictScript(cfg, run.rec, qa, gateId, now), length)
    ensures var ops := VerdictScript(cfg, run.rec, qa, gateId, now);
      Covered(Perform(run, ops[..Taken(ops, length)]).rec)
  {
    hide Inv, Covered, Perform, Blank, GateIndex, AllPermitted, PassedOn, Revisions, RevisionScript;
    var ops := VerdictScript(cfg, run.rec, qa, gateId, now);
    VerdictIsPermitted(cfg, run, qa, gateId, now);
    if qa.status == Pass {
      PassScript(cfg, run.rec, qa, gateId, now);
      if length >= 3 {
        PassKeepsCovered(cfg, run, qa, gateId, now);
        assert ops[..3] == ops;
      } else {
        assert length < 2;
        PerformKeepsCovered(cfg, run, ops, length);
      }
    } else {
      RevisionIsQuiet(cfg.maxRevisions, Supervising, |Revisions(run.rec.messages)|);
      PerformKeepsCovered(cfg, run, ops, Taken(ops, length));
    }
  }

  // The verdict's own message, which a caller of the supervisor may have recorded first.
  lemma NotedKeepsCovered(cfg: Config, run: RunState, qa: QaResult, gateId: string, now: string, length: nat)
    requires Inv(cfg, run) && Covered(run.rec) && run.rec.state == Supervising && qa.runId == run.rec.runId
    requires qa.status == Pass ==> PassedOn(run.rec)
    requires GateIndex(run.rec.gates, gateId).None? && !Blank(gateId) && !Blank(run.rec.runId) && !Blank(now)
    requires length > 0 && !StopsBeforeItsGate(VerdictScript(cfg, run.rec, qa, gateId, now), length - 1)
    ensures var ops := VerdictScript(cfg, run.rec, qa, gateId, now);
      Covered(Perform(run, [AddMessage(Message("supervisor", "verdict", QaNote(qa, None)))] + ops[..Taken(ops, length - 1)]).rec)
  {
    hide Inv, Covered, Perform, Blank, GateIndex, PassedOn, VerdictScript, PerformOp, Settled, Permitted;
    var note := Message("supervisor", "verdict", QaNote(qa, None));
    AddedMessage(run, note);
    var run' := PerformOp(run, AddMessage(note)).value;
    PlainIsPermitted(cfg, run, AddMessage(note));
    SettledRun(cfg, run);
    OpKeepsInv(cfg, run, AddMessage(note));
    QuietKeepsCovered(cfg, run, AddMessage(note));
    if qa.status == Pass { PassedIgnoresMessages(run.rec, run'.rec); }
    VerdictIgnoresNote(cfg, run.rec, qa, gateId, now, note, run.rec.revision + 1);
    VerdictKeepsCovered(cfg, run', qa, gateId, now, length - 1);
    var ops := VerdictScript(cfg, run.rec, qa, gateId, now);
    ManyOps(run, AddMessage(note), ops[..Taken(ops, length - 1)]);
  }

  // Leaving out the note in front.
  lemma WithoutTheNote(note: Op, ops: seq<Op>, length: nat)
    requires length > 0
    ensures ([note] + ops)[..Taken([note] + ops, length)] == [note] + ops[..Taken(ops, length - 1)]
    ensures StopsBeforeItsGate(ops, length - 1) ==> StopsBeforeItsGate([note] + ops, length)
  {
  }

  lemma SuperviseKeepsCovered(cfg: Config, run: RunState, order: seq<string>, gateId: string, now: string, noted: bool, length: nat)
    requires Inv(cfg, run) && Covered(run.rec) && !Blank(run.rec.runId)
    requires Orderly(cfg, run, Stride(Supervise(order, gateId, now, noted), length))
    ensures Covered(Proceed(cfg, run, Stride(Supervise(order, gateId, now, noted), length)).rec)
  {
    hide Inv, Covered, Perform, Blank, GateIndex, PassedOn, VerdictScript, Evaluate, EvidenceOf, Enumerates, StopsBeforeItsGate;
    NoMoreOps(run);
    if run.rec.state == Supervising && run.rec.plan.Some? && Enumerates(order, run.rec.outputs) && length > 0 {
      EnumeratesOnlyOutputs(order, run.rec.outputs);
      var verdict := Evaluate(EvidenceOf(run.rec, order));
      if verdict.Ok? {
        var ops := VerdictScript(cfg, run.rec, verdict.value, gateId, now);
        PassIsPassed(run.rec, order);
        if noted {
          WithoutTheNote(AddMessage(Message("supervisor", "verdict", QaNote(verdict.value, None))), ops, length);
          NotedKeepsCovered(cfg, run, verdict.value, gateId, now, length);
        } else {
          assert [] + ops == ops;
          VerdictKeepsCovered(cfg, run, verdict.value, gateId, now, length);
        }
      }
    }
  }

  lemma CommandKeepsCovered(cfg: Config, run: RunState, s: Stride)
    requires Inv(cfg, run) && Covered(run.rec) && Orderly(cfg, run, s) && !Blank(run.rec.runId)
    ensures Covered(Proceed(cfg, run, s).rec)
  {
    hide Inv, Covered, Perform, Blank, Script, AllPermitted, FreshFor, Quiet, Orderly;
    match s.cmd {
      case Build(plan, gateId, now) => BuildKeepsCovered(cfg, run, plan, gateId, now, s.length);
      case Supervise(order, gateId, now, noted) => SuperviseKeepsCovered(cfg, run, order, gateId, now, noted, s.length);
      case _ =>
        ScriptIsPermitted(cfg, run, s.cmd);
        OtherCommandsAreQuiet(cfg, run.rec, s.cmd);
        var ops := Script(cfg, run.rec, s.cmd);
        PerformKeepsCovered(cfg, run, ops, Taken(ops, s.length));
    }
  }

  lemma {:induction false} PerformKeepsRunId(run: RunState, ops: seq<Op>)
    ensures Perform(run, ops).rec.runId == run.rec.runId
    decreases |ops|
  {
    hide Apply;
    if ops != [] {
      if Apply(run.rec, ops[0]).Commit? { AppliedMessages(run.rec, ops[0]); }
      match PerformOp(run, ops[0]) {
        case None =>
        case Some(run') => PerformKeepsRunId(run', ops[1..]);
      }
    }
  }

  lemma CarryKeepsInv(cfg: Config, run: RunState, cmd: Command)
    requires Inv(cfg, run)
    ensures Inv(cfg, Carry(cfg, run, cmd))
  {
    hide Inv, Script, AllPermitted, Perform;
    ScriptIsPermitted(cfg, run, cmd);
    var ops := Script(cfg, run.rec, cmd);
    PerformKeepsInv(cfg, run, ops, |ops|);
    assert ops[..|ops|] == ops;
  }

  lemma ProceedKeepsRunId(cfg: Config, run: RunState, s: Stride)
    ensures Proceed(cfg, run, s).rec.runId == run.rec.runId
  {
    hide Script, Perform;
    var ops := Script(cfg, run.rec, s.cmd);
    PerformKeepsRunId(run, ops[..if s.length <= |ops| then s.length else |ops|]);
  }

  /**
   After any such steps: in every state that follows the architecture the newest ARCHITECTURE gate shows the plan on
   record, and in WAITING_FINAL_APPROVAL the newest FINAL gate shows the newest passing evidence on record.
   */
  lemma {:induction false} EveryOrderlyRunIsCovered(cfg: Config, runId: string, strides: seq<Stride>)
    requires !Blank(runId) && AllOrderly(cfg, NewRun(runId), strides)
    ensures var run := ProceedAll(cfg, NewRun(runId), strides);
      Covered(run.rec) && Inv(cfg, run) && run.rec.runId == runId
  {
    if strides == [] {
      EveryRunKeepsInv(cfg, runId, []);
    } else {
      hide Inv, Covered, Proceed, Orderly, Blank;
      var before := ProceedAll(cfg, NewRun(runId), strides[..|strides| - 1]);
      EveryOrderlyRunIsCovered(cfg, runId, strides[..|strides| - 1]);
      CommandKeepsCovered(cfg, before, strides[|strides| - 1]);
      StepKeepsInv(cfg, before, strides[|strides| - 1]);
      ProceedKeepsRunId(cfg, before, strides[|strides| - 1]);
    }
  }

  // ----- Exactly when the executed plan is the approved one -----

  // A recorded APPROVE starts the execution of the plan on record, whatever kind of gate it answered.
  lemma AnyApprovalExecutes(cfg: Config, run: RunState, d: HumanDecision)
    requires run.rec.state == WaitingArchitectApproval && d.decision == Approve
    ensures Carry(cfg, run, ArchitectureDecision(d)).rec ==
      if IsRecordedIn(run.rec, d) then run.rec.(state := Executing, revision := run.rec.revision + 1) else run.rec
  {
    hide IsRecordedIn, Perform;
    if IsRecordedIn(run.rec, d) { Approved(cfg, run, d); } else { NoMoreOps(run); }
  }

  /**
   In every such run the plan that a recorded APPROVE starts is the plan its gate showed exactly when that gate is the
   newest ARCHITECTURE gate or shows what that gate shows.
   */
  lemma ExecutedPlanIsTheApprovedOne(cfg: Config, runId: string, strides: seq<Stride>, d: HumanDecision)
    requires !Blank(runId) && AllOrderly(cfg, NewRun(runId), strides) && d.decision == Approve
    requires var rec := ProceedAll(cfg, NewRun(runId), strides).rec;
      rec.state == WaitingArchitectApproval && IsRecordedIn(rec, d)
    ensures var run := ProceedAll(cfg, NewRun(runId), strides);
      var executing := Carry(cfg, run, ArchitectureDecision(d)).rec;
      var gate := Find(run.rec.gates, d.gateId).value;
      var newest := Newest(run.rec.gates, "ARCHITECTURE");
      && executing.state == Executing && executing.plan.Some? && newest.Some?
      && (gate.context == PlanContext(executing.plan.value) <==> gate == newest.value || gate.context == newest.value.context)
  {
    hide IsRecordedIn, ProceedAll, Carry, AllOrderly, Inv, RecordedHash, Blank, Newest, Find;
    EveryOrderlyRunIsCovered(cfg, runId, strides);
    AnyApprovalExecutes(cfg, ProceedAll(cfg, NewRun(runId), strides), d);
  }

  // ----- Exactly what a completion covers -----

  // The evidence in the final result is what the approved gate showed exactly when that gate's hash is the newest on record.
  lemma CompletionCoversExactly(cfg: Config, run: RunState, d: HumanDecision, final: Option<FinalResult>)
    requires Inv(cfg, run) && run.rec.state == WaitingFinalApproval && d.decision == Approve
    requires Carry(cfg, run, FinalDecision(d, final)).rec.state == Completed
    ensures Find(run.rec.gates, d.gateId).Some? && Find(run.rec.gates, d.gateId).value.context.QaContext?
    ensures var shown := Find(run.rec.gates, d.gateId).value.context.evidenceHash;
      var result := Carry(cfg, run, FinalDecision(d, final)).rec.final;
      && result.Some?
      && (result.value.evidenceHash == Some(shown) <==> RecordedHash(run.rec.messages, run.rec.runId) == Ok(Some(shown)))
  {
    hide Settled, SoundNotes, Numbered, PassedOn, RecordedHash, IsRecordedIn, PerformOp, Perform, ValidFinal, Revisions;
    var ops := Script(cfg, run.rec, FinalDecision(d, final));
    NoMoreOps(run);
    assert ops != [];
    RecordedGate(run.rec, d);
    var g := Find(run.rec.gates, d.gateId).value;
    assert WellOpened(run, g);
    ConfirmingChangesNothing(run, d);
    var rest := CompletionScript(run.rec, d, final);
    ManyOps(run, AddDecision(d), rest);
    if rest != [] {
      SetFinalResult(run, rest[0].final);
      var run1 := PerformOp(run, rest[0]).value;
      Moved(run1, Completed);
      OneOp(run1, Transition(Completed));
      ManyOps(run, rest[0], [Transition(Completed)]);
      assert rest == [rest[0]] + [Transition(Completed)];
    }
  }

  /**
   In every such run the evidence in the final result is what the approved gate showed exactly when that gate is the
   newest FINAL gate or shows what that gate shows.
   */
  lemma CompletionCoversTheNewestGate(cfg: Config, runId: string, strides: seq<Stride>, d: HumanDecision, final: Option<FinalResult>)
    requires !Blank(runId) && AllOrderly(cfg, NewRun(runId), strides) && d.decision == Approve
    requires ProceedAll(cfg, NewRun(runId), strides).rec.state == WaitingFinalApproval
    requires Carry(cfg, ProceedAll(cfg, NewRun(runId), strides), FinalDecision(d, final)).rec.state == Completed
    ensures var run := ProceedAll(cfg, NewRun(runId), strides);
      var result := Carry(cfg, run, FinalDecision(d, final)).rec.final;
      var gate := Find(run.rec.gates, d.gateId);
      var newest := Newest(run.rec.gates, "FINAL");
      && gate.Some? && gate.value.context.QaContext? && result.Some? && newest.Some?
      && (result.value.evidenceHash == Some(gate.value.context.evidenceHash) <==>
          gate.value == newest.value || gate.value.context == newest.value.context)
  {
    hide ProceedAll, Carry, AllOrderly, Inv, RecordedHash, Blank, Newest, Find;
    EveryOrderlyRunIsCovered(cfg, runId, strides);
    CompletionCoversExactly(cfg, ProceedAll(cfg, NewRun(runId), strides), d, final);
  }

  // ----- What a process that stops between the transition and the gate leaves -----

  lemma StoppedBeforeTheGate(cfg: Config, run: RunState, plan: ArchitecturePlan, gateId: string, now: string)
    requires run.rec.state == Architecting
    ensures Proceed(cfg, run, Stride(Build(plan, gateId, now), 2)).rec ==
      run.rec.(plan := Some(plan), state := WaitingArchitectApproval, revision := run.rec.revision + 2)
  {
    hide PerformOp, GateRequest;
    var ops := Script(cfg, run.rec, Build(plan, gateId, now));
    assert ops[..2] == [SetPlan(plan), Transition(WaitingArchitectApproval)];
    Planned(run, plan);
    var run1 := PerformOp(run, SetPlan(plan)).value;
    Moved(run1, WaitingArchitectApproval);
    OneOp(run1, Transition(WaitingArchitectApproval));
    ManyOps(run, SetPlan(plan), [Transition(WaitingArchitectApproval)]);
    assert ops[..2] == [SetPlan(plan)] + [Transition(WaitingArchitectApproval)];
  }

  /**
   A process that stops there leaves the run waiting for the approval of a plan that no gate shows, unless an earlier
   gate happened to show it; any recorded APPROVE then starts that plan.
   */
  lemma StoppedBuildLeavesAPlanUnshown(cfg: Config, run: RunState, plan: ArchitecturePlan, gateId: string, now: string, d: HumanDecision)
    requires run.rec.state == Architecting && forall g :: g in run.rec.gates ==> g.context != PlanContext(plan)
    ensures var stopped := Proceed(cfg, run, Stride(Build(plan, gateId, now), 2));
      && stopped.rec.state == WaitingArchitectApproval && stopped.rec.plan == Some(plan)
      && (forall g :: g in stopped.rec.gates ==> g.context != PlanContext(plan))
      && (IsRecordedIn(run.rec, d) && d.decision == Approve ==>
            var executing := Carry(cfg, stopped, ArchitectureDecision(d)).rec;
            executing.state == Executing && executing.plan == Some(plan))
  {
    hide Proceed, Carry;
    StoppedBeforeTheGate(cfg, run, plan, gateId, now);
    var stopped := Proceed(cfg, run, Stride(Build(plan, gateId, now), 2));
    if d.decision == Approve { AnyApprovalExecutes(cfg, stopped, d); }
  }
}
