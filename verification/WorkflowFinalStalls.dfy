/** Exactly when a run can leave WAITING_FINAL_APPROVAL, and SUPERVISING with a failure on record. */
module WorkflowFinalStalls {
  import opened Wrappers
  import opened Contracts
  import opened Text
  import opened SessionStore
  import opened Approvals
  import opened RestartTransparency
  import opened Supervisor
  import opened Workflow
  import opened WorkflowSafety
  import opened WorkflowScripts
  import opened WorkflowTheorems
  import opened WorkflowEffects
  import opened WorkflowCoverage
  import opened WorkflowStalls

  // Passing evidence is on record for a result to be bound to.
  ghost predicate HasEvidence(rec: SessionRecord) {
    RecordedHash(rec.messages, rec.runId).Ok? && RecordedHash(rec.messages, rec.runId).value.Some?
  }

  // A decision that ends the wait when it answers a FINAL gate, apart from the revision limit.
  ghost predicate Concludes(rec: SessionRecord, d: DecisionType) { d == Reject || (d == Approve && HasEvidence(rec)) }

  // The FINAL gate was answered so, or still can be.
  ghost predicate CanConclude(rec: SessionRecord, g: ApprovalGate) {
    && g.kind == "FINAL"
    && (|| (g.status == Open && exists d :: d in g.allowed && Concludes(rec, d))
        || (exists d :: d in rec.decisions && d.gateId == g.gateId && Concludes(rec, d.decision)))
  }

  ghost predicate Finishable(cfg: Config, rec: SessionRecord) {
    |Revisions(rec.messages)| < cfg.maxRevisions || exists g :: g in rec.gates && CanConclude(rec, g)
  }

  // ----- Nothing else moves such a run -----

  // Operations that decide nothing and touch no gate but to close it.
  predicate Calm(op: Op) {
    match op
    case Transition(_) => false
    case AddGate(_) => false
    case ResolveGate(_, _) => false
    case AddMessage(m) => !m.note.RevisionNote?
    case _ => true
  }

  ghost predicate AllCalm(ops: seq<Op>) { forall op :: op in ops ==> Calm(op) }

  ghost predicate SameWait(rec: SessionRecord, rec': SessionRecord) {
    && rec'.state == rec.state && |Revisions(rec'.messages)| == |Revisions(rec.messages)| && HasEvidence(rec') == HasEvidence(rec)
  }

  lemma CalmKeepsWait(cfg: Config, run: RunState, op: Op)
    requires run.rec.state == WaitingFinalApproval && Permitted(cfg, run, op) && (Calm(op) || op.ResolveGate?) && Apply(run.rec, op).Commit?
    ensures SameWait(run.rec, PerformOp(run, op).value.rec)
  {
    hide Apply, PerformOp, Revisions, RecordedHash, GateOp, SameGate, PermittedGate, PassedOn, Finished, SoundNote;
    CommittedOp(run, op);
    AppliedState(run.rec, op);
    AppliedMessages(run.rec, op);
    if op.AddMessage? {
      RevisionsAppended(run.rec.messages, op.message);
      HashAppended(run.rec.messages, op.message, run.rec.runId);
    }
  }

  // Where a gate of the new record comes from.
  lemma GateAfter(cfg: Config, run: RunState, op: Op, g: ApprovalGate)
    requires Settled(run.rec) && Permitted(cfg, run, op) && !op.AddGate? && Apply(run.rec, op).Commit? && g in Apply(run.rec, op).record.gates
    ensures g in run.rec.gates || ((op.ResolveGate? || op.CancelGate?) && g == op.gate)
    ensures (op.ResolveGate? || op.CancelGate?) && g == op.gate ==>
      exists h :: h in run.rec.gates && h.gateId == g.gateId && h.kind == g.kind
  {
    hide Apply, Settled, GateOp, UniqueGates, GateIndex, ValidGate, PassedOn, Finished, PermittedMessage;
    if op.ResolveGate? || op.CancelGate? {
      OpenGateIndex(run.rec, op);
      var h := Find(run.rec.gates, op.gate.gateId).value;
      assert h in run.rec.gates;
    } else {
      UntouchedGates(run.rec, op);
    }
  }

  lemma ClosedIsNotOpen(cfg: Config, run: RunState, op: Op)
    requires Permitted(cfg, run, op) && (op.ResolveGate? || op.CancelGate?)
    ensures op.gate.status != Open
  {
    hide ValidGate, ValidDecision, SameGate;
  }

  lemma DecisionAfter(cfg: Config, run: RunState, op: Op, d: HumanDecision)
    requires Permitted(cfg, run, op) && Apply(run.rec, op).Commit? && d in Apply(run.rec, op).record.decisions
    ensures d in run.rec.decisions || (op.ResolveGate? && d == op.decision && d.gateId == op.gate.gateId)
  {
    hide Apply, SameGate, PermittedGate, PermittedMessage, PassedOn, Finished, ValidGate, ValidDecision;
    ApplyAppends(run.rec, op);
    if op.AddDecision? { KnownDecisionIsNotAdded(run.rec, op.decision); }
  }

  // The answer, if the operation is one, concludes nothing.
  ghost predicate Vain(rec: SessionRecord, op: Op) {
    op.ResolveGate? ==> (op.gate.kind == "FINAL" ==> !Concludes(rec, op.decision.decision))
  }

  lemma StillInconclusive(cfg: Config, run: RunState, op: Op, g: ApprovalGate)
    requires Settled(run.rec) && run.rec.state == WaitingFinalApproval && Permitted(cfg, run, op) && (Calm(op) || op.ResolveGate?)
    requires Apply(run.rec, op).Commit? && Vain(run.rec, op)
    requires forall h :: h in run.rec.gates ==> !CanConclude(run.rec, h)
    requires g in Apply(run.rec, op).record.gates
    ensures !CanConclude(PerformOp(run, op).value.rec, g)
  {
    hide Apply, PerformOp, Settled, Permitted, HasEvidence, Revisions, Calm;
    CalmKeepsWait(cfg, run, op);
    CommittedOp(run, op);
    var rec' := PerformOp(run, op).value.rec;
    NotAGate(op);
    GateAfter(cfg, run, op, g);
    var closing := op.ResolveGate? || op.CancelGate?;
    if closing { ClosedIsNotOpen(cfg, run, op); }
    var h := if closing && g == op.gate then KnownAs(run.rec, g) else g;
    assert !CanConclude(run.rec, h);
    if g.kind == "FINAL" {
      forall d | d in rec'.decisions && d.gateId == g.gateId ensures !Concludes(rec', d.decision) {
        DecisionAfter(cfg, run, op, d);
        if d !in run.rec.decisions { SameKind(cfg, run, op, g); }
      }
    }
  }

  lemma NotAGate(op: Op)
    requires Calm(op) || op.ResolveGate?
    ensures !op.AddGate?
  {
  }

  ghost function KnownAs(rec: SessionRecord, g: ApprovalGate): (h: ApprovalGate)
    requires exists h :: h in rec.gates && h.gateId == g.gateId && h.kind == g.kind
    ensures h in rec.gates && h.gateId == g.gateId && h.kind == g.kind
  {
    var h :| h in rec.gates && h.gateId == g.gateId && h.kind == g.kind;
    h
  }

  // Gate ids are unique, so a gate with the id of the answered one is of its kind.
  lemma SameKind(cfg: Config, run: RunState, op: Op, g: ApprovalGate)
    requires Settled(run.rec) && Permitted(cfg, run, op) && op.ResolveGate? && Apply(run.rec, op).Commit?
    requires g in Apply(run.rec, op).record.gates && g.gateId == op.gate.gateId
    ensures g.kind == op.gate.kind
  {
    hide Apply, Settled, GateOp, GateIndex, ValidGate, ValidDecision, UniqueGates;
    OpenGateIndex(run.rec, op);
    if g != op.gate {
      OneOfEachId(run.rec);
      UniqueIndex(run.rec, g);
    }
  }

  lemma OpKeepsUnfinishable(cfg: Config, run: RunState, op: Op)
    requires Settled(run.rec) && run.rec.state == WaitingFinalApproval && Permitted(cfg, run, op) && (Calm(op) || op.ResolveGate?)
    requires Apply(run.rec, op).Commit? && Vain(run.rec, op) && !Finishable(cfg, run.rec)
    ensures !Finishable(cfg, PerformOp(run, op).value.rec) && PerformOp(run, op).value.rec.state == WaitingFinalApproval
  {
    hide Apply, PerformOp, Settled, Permitted, CanConclude, HasEvidence, Revisions, Calm, Vain;
    CalmKeepsWait(cfg, run, op);
    CommittedOp(run, op);
    forall g | g in PerformOp(run, op).value.rec.gates ensures !CanConclude(PerformOp(run, op).value.rec, g) {
      StillInconclusive(cfg, run, op, g);
    }
  }

  lemma {:induction false} PerformKeepsUnfinishable(cfg: Config, run: RunState, ops: seq<Op>, k: nat)
    requires Inv(cfg, run) && AllPermitted(cfg, run, ops) && k <= |ops| && run.rec.state == WaitingFinalApproval && !Finishable(cfg, run.rec)
    requires AllCalm(ops)
    ensures !Finishable(cfg, Perform(run, ops[..k]).rec) && Perform(run, ops[..k]).rec.state == WaitingFinalApproval
    decreases k
  {
    hide Inv, Permitted, PerformOp, Apply, Calm, Finishable;
    if k > 0 {
      assert ops[..k][0] == ops[0] && ops[..k][1..] == ops[1..][..k - 1];
      assert ops[0] in ops;
      if Apply(run.rec, ops[0]).Commit? {
        SettledRun(cfg, run);
        OpKeepsInv(cfg, run, ops[0]);
        CalmIsVain(run.rec, ops[0]);
        OpKeepsUnfinishable(cfg, run, ops[0]);
      } else {
        NotCommitted(run, ops[0]);
      }
      match PerformOp(run, ops[0]) {
        case None =>
        case Some(run') => PerformKeepsUnfinishable(cfg, run', ops[1..], k - 1);
      }
    }
  }

  lemma CalmIsVain(rec: SessionRecord, op: Op)
    requires Calm(op)
    ensures Vain(rec, op)
  {
    hide HasEvidence;
  }

  // ----- The scripts of such a run -----

  lemma AnswerIsVain(rec: SessionRecord, gateId: string, decision: DecisionType, feedback: string, actor: string, now: string)
    requires forall g :: g in rec.gates ==> !CanConclude(rec, g)
    ensures var ops := AnswerScript(rec, gateId, decision, feedback, actor, now);
      ops == [] || (ops == [ops[0]] && ops[0].ResolveGate? && Vain(rec, ops[0]))
  {
    hide ValidGate, ValidDecision, Blank, Strip, GateIndex, HasEvidence;
    if AnswerScript(rec, gateId, decision, feedback, actor, now) != [] {
      var g := Find(rec.gates, gateId).value;
      assert g in rec.gates && !CanConclude(rec, g);
    }
  }

  lemma FinalDecisionIsCalm(cfg: Config, rec: SessionRecord, d: HumanDecision, final: Option<FinalResult>)
    requires !Finishable(cfg, rec)
    ensures AllCalm(Script(cfg, rec, FinalDecision(d, final)))
  {
    hide IsRecordedIn, RecordedHash, ValidFinal, Revisions, GateIndex;
    if Script(cfg, rec, FinalDecision(d, final)) != [] {
      RecordedGate(rec, d);
      var g := Find(rec.gates, d.gateId).value;
      assert g in rec.gates && !CanConclude(rec, g);
    }
  }

  lemma OthersAreCalm(cfg: Config, rec: SessionRecord, cmd: Command)
    requires rec.state == WaitingFinalApproval && !cmd.Answer? && !cmd.FinalDecision? && |Revisions(rec.messages)| >= cfg.maxRevisions
    ensures AllCalm(Script(cfg, rec, cmd))
  {
    hide Find, Revisions;
  }

  lemma LimitReached(cfg: Config, rec: SessionRecord)
    requires !Finishable(cfg, rec)
    ensures |Revisions(rec.messages)| >= cfg.maxRevisions
    ensures forall g :: g in rec.gates ==> !CanConclude(rec, g)
  {
    hide CanConclude, Revisions;
  }

  lemma StepKeepsUnfinishable(cfg: Config, run: RunState, s: Stride)
    requires Inv(cfg, run) && run.rec.state == WaitingFinalApproval && !Finishable(cfg, run.rec)
    ensures !Finishable(cfg, Proceed(cfg, run, s).rec) && Proceed(cfg, run, s).rec.state == WaitingFinalApproval
  {
    hide Inv, Finishable, Script, Perform, AllPermitted, AllCalm, AnswerScript, Vain, CanConclude, Revisions, PerformOp;
    ScriptIsPermitted(cfg, run, s.cmd);
    LimitReached(cfg, run.rec);
    var ops := Script(cfg, run.rec, s.cmd);
    var k := Taken(ops, s.length);
    match s.cmd {
      case Answer(gateId, decision, feedback, actor, now) =>
        AnswerIsVain(run.rec, gateId, decision, feedback, actor, now);
        AnswerScriptIs(cfg, run.rec, gateId, decision, feedback, actor, now);
        VainStep(cfg, run, ops, k);
      case FinalDecision(d, final) =>
        FinalDecisionIsCalm(cfg, run.rec, d, final);
        PerformKeepsUnfinishable(cfg, run, ops, k);
      case _ =>
        OthersAreCalm(cfg, run.rec, s.cmd);
        PerformKeepsUnfinishable(cfg, run, ops, k);
    }
  }

  lemma AnswerScriptIs(cfg: Config, rec: SessionRecord, gateId: string, decision: DecisionType, feedback: string, actor: string, now: string)
    ensures Script(cfg, rec, Answer(gateId, decision, feedback, actor, now)) == AnswerScript(rec, gateId, decision, feedback, actor, now)
  {
    hide AnswerScript;
  }

  lemma VainStep(cfg: Config, run: RunState, ops: seq<Op>, k: nat)
    requires Inv(cfg, run) && AllPermitted(cfg, run, ops) && k <= |ops| && run.rec.state == WaitingFinalApproval && !Finishable(cfg, run.rec)
    requires ops == [] || (ops == [ops[0]] && ops[0].ResolveGate? && Vain(run.rec, ops[0]))
    ensures !Finishable(cfg, Perform(run, ops[..k]).rec) && Perform(run, ops[..k]).rec.state == WaitingFinalApproval
  {
    hide Inv, Permitted, PerformOp, Apply, Finishable, Vain;
    NoMoreOps(run);
    if k == 0 {
      assert ops[..k] == [];
    } else {
      assert ops[..k] == [ops[0]] && [ops[0]][1..] == [];
      if Apply(run.rec, ops[0]).Commit? {
        SettledRun(cfg, run);
        OpKeepsUnfinishable(cfg, run, ops[0]);
        CommittedOp(run, ops[0]);
        OneOp(run, ops[0]);
      } else {
        NotCommitted(run, ops[0]);
        if PerformOp(run, ops[0]).Some? { OneOp(run, ops[0]); }
      }
    }
  }

  lemma {:induction false} UnfinishedForever(cfg: Config, run: RunState, strides: seq<Stride>)
    requires Inv(cfg, run) && run.rec.state == WaitingFinalApproval && !Finishable(cfg, run.rec)
    ensures var run' := ProceedAll(cfg, run, strides);
      Inv(cfg, run') && run'.rec.state == WaitingFinalApproval && !Finishable(cfg, run'.rec)
  {
    hide Inv, Finishable, Proceed;
    if strides != [] {
      var before := ProceedAll(cfg, run, strides[..|strides| - 1]);
      UnfinishedForever(cfg, run, strides[..|strides| - 1]);
      StepKeepsInv(cfg, before, strides[|strides| - 1]);
      StepKeepsUnfinishable(cfg, before, strides[|strides| - 1]);
    }
  }

  // ----- What moves it -----

  lemma WholeScript(cfg: Config, run: RunState, cmd: Command, length: nat)
    requires length >= |Script(cfg, run.rec, cmd)|
    ensures Proceed(cfg, run, Stride(cmd, length)) == Perform(run, Script(cfg, run.rec, cmd))
  {
    hide Script, Perform;
    var ops := Script(cfg, run.rec, cmd);
    assert ops[..|ops|] == ops;
  }

  lemma RejectionLeaves(cfg: Config, run: RunState, d: HumanDecision)
    requires run.rec.state == WaitingFinalApproval && IsRecordedIn(run.rec, d) && d.decision == Reject
    requires Find(run.rec.gates, d.gateId).value.kind == "FINAL"
    ensures Proceed(cfg, run, Stride(FinalDecision(d, None), 3)).rec.state == Rejected
  {
    hide IsRecordedIn, PerformOp, Find;
    ConfirmingChangesNothing(run, d);
    Moved(run, Rejected);
    OneOp(run, Transition(Rejected));
    ManyOps(run, AddDecision(d), [Transition(Rejected)]);
    assert Script(cfg, run.rec, FinalDecision(d, None)) == [AddDecision(d)] + [Transition(Rejected)];
    WholeScript(cfg, run, FinalDecision(d, None), 3);
  }

  lemma ApprovalLeaves(cfg: Config, run: RunState, d: HumanDecision) returns (final: Option<FinalResult>)
    requires run.rec.state == WaitingFinalApproval && IsRecordedIn(run.rec, d) && d.decision == Approve
    requires Find(run.rec.gates, d.gateId).value.kind == "FINAL" && HasEvidence(run.rec) && !Blank(run.rec.runId)
    ensures Proceed(cfg, run, Stride(FinalDecision(d, final), 3)).rec.state == Completed
  {
    hide IsRecordedIn, PerformOp, Find, RecordedHash, Blank;
    var f := FinalResult(run.rec.runId, "ok", RecordedHash(run.rec.messages, run.rec.runId).value);
    final := Some(f);
    NotBlank("ok");
    ConfirmingChangesNothing(run, d);
    SetFinalResult(run, f);
    var run1 := PerformOp(run, SetFinal(f)).value;
    Moved(run1, Completed);
    OneOp(run1, Transition(Completed));
    ManyOps(run, SetFinal(f), [Transition(Completed)]);
    ManyOps(run, AddDecision(d), [SetFinal(f)] + [Transition(Completed)]);
    assert Script(cfg, run.rec, FinalDecision(d, final)) == [AddDecision(d)] + ([SetFinal(f)] + [Transition(Completed)]);
    WholeScript(cfg, run, FinalDecision(d, final), 3);
  }

  lemma ConclusionLeaves(cfg: Config, run: RunState, g: ApprovalGate, d: HumanDecision) returns (s: Stride)
    requires Settled(run.rec) && run.rec.state == WaitingFinalApproval
    requires g in run.rec.gates && g.kind == "FINAL" && d in run.rec.decisions && d.gateId == g.gateId && Concludes(run.rec, d.decision)
    ensures Proceed(cfg, run, s).rec.state != WaitingFinalApproval
  {
    hide Settled, Proceed, IsRecordedIn, HasEvidence, Find, Blank, ValidGate;
    OpenGateFacts(run.rec, g);
    ValidGateNames(g);
    DecisionIsRecorded(run.rec, d);
    if d.decision == Reject {
      s := Stride(FinalDecision(d, None), 3);
      RejectionLeaves(cfg, run, d);
    } else {
      var final := ApprovalLeaves(cfg, run, d);
      s := Stride(FinalDecision(d, final), 3);
    }
  }

  lemma SameEvidenceOnRecord(rec: SessionRecord, rec': SessionRecord)
    requires rec'.messages == rec.messages && rec'.runId == rec.runId
    ensures HasEvidence(rec') == HasEvidence(rec)
  {
  }

  lemma SomebodyConcludes(cfg: Config, run: RunState) returns (strides: seq<Stride>)
    requires Inv(cfg, run) && run.rec.state == WaitingFinalApproval && Finishable(cfg, run.rec)
    ensures ProceedAll(cfg, run, strides).rec.state != WaitingFinalApproval
  {
    hide Inv, Settled, Proceed, ProceedAll, Revisions, HasEvidence;
    SettledRun(cfg, run);
    if |Revisions(run.rec.messages)| < cfg.maxRevisions {
      strides := [Stride(RequestRevision, 3)];
      RevisionLeaves(cfg, run);
      TwoStrides(cfg, run, strides[0], strides[0]);
    } else {
      var g :| g in run.rec.gates && CanConclude(run.rec, g);
      if d :| d in run.rec.decisions && d.gateId == g.gateId && Concludes(run.rec, d.decision) {
        var s := ConclusionLeaves(cfg, run, g, d);
        strides := [s];
        TwoStrides(cfg, run, s, s);
      } else {
        var decision :| decision in g.allowed && Concludes(run.rec, decision);
        var answer := Stride(Answer(g.gateId, decision, "", "human", "t"), 1);
        OpenGateIsAnswered(cfg, run, g, decision);
        StepKeepsInv(cfg, run, answer);
        var answered := Proceed(cfg, run, answer);
        SettledRun(cfg, answered);
        SameEvidenceOnRecord(run.rec, answered.rec);
        var s := ConclusionLeaves(cfg, answered, AsResolved(g, "t"), Said(g.gateId, run.rec.runId, decision, "t"));
        strides := [answer, s];
        TwoStrides(cfg, run, answer, s);
      }
    }
  }

  /**
   A run that waits for its final approval can ever leave that state exactly when its revision limit is not reached or
   some FINAL gate was rejected or approved, or is open and allows it; an approval counts only with evidence on record.
   */
  lemma FinalWaitEndsExactly(cfg: Config, run: RunState)
    requires Inv(cfg, run) && run.rec.state == WaitingFinalApproval
    ensures (exists strides :: ProceedAll(cfg, run, strides).rec.state != WaitingFinalApproval) <==> Finishable(cfg, run.rec)
  {
    hide Inv, Finishable, ProceedAll;
    if Finishable(cfg, run.rec) {
      var strides := SomebodyConcludes(cfg, run);
    } else {
      forall strides ensures ProceedAll(cfg, run, strides).rec.state == WaitingFinalApproval { UnfinishedForever(cfg, run, strides); }
    }
  }

  // ----- Supervising with a failure on record -----

  // Without a revision left, nothing is done to the state.
  ghost predicate StaysPut(ops: seq<Op>) {
    forall op :: op in ops ==> !op.Transition? && !(op.AddMessage? && op.message.note.RevisionNote?)
  }

  lemma DoomedStaysPut(cfg: Config, rec: SessionRecord, cmd: Command)
    requires Doomed(rec) && rec.state == Supervising && |Revisions(rec.messages)| >= cfg.maxRevisions
    ensures StaysPut(Script(cfg, rec, cmd))
  {
    hide Doomed, AnswerScript, Find, Revisions, Evaluate, EvidenceOf, Enumerates;
    match cmd {
      case Supervise(order, gateId, now, noted) =>
        if rec.plan.Some? && Enumerates(order, rec.outputs) {
          EnumeratesOnlyOutputs(order, rec.outputs);
          if Evaluate(EvidenceOf(rec, order)).Ok? { DoomedVerdict(rec, order); }
        }
      case Answer(gateId, decision, feedback, actor, now) => AnswerPauses(rec, gateId, decision, feedback, actor, now);
      case _ =>
    }
  }

  lemma {:induction false} PerformStaysPut(run: RunState, ops: seq<Op>, k: nat)
    requires StaysPut(ops) && k <= |ops|
    ensures Perform(run, ops[..k]).rec.state == run.rec.state
    ensures |Revisions(Perform(run, ops[..k]).rec.messages)| == |Revisions(run.rec.messages)|
    decreases k
  {
    hide Apply, Revisions;
    if k > 0 {
      assert ops[..k][0] == ops[0] && ops[..k][1..] == ops[1..][..k - 1];
      assert ops[0] in ops;
      if Apply(run.rec, ops[0]).Commit? {
        AppliedState(run.rec, ops[0]);
        AppliedMessages(run.rec, ops[0]);
        if ops[0].AddMessage? { RevisionsAppended(run.rec.messages, ops[0].message); }
      }
      match PerformOp(run, ops[0]) {
        case None =>
        case Some(run') => PerformStaysPut(run', ops[1..], k - 1);
      }
    }
  }

  lemma {:induction false} SupervisedForever(cfg: Config, run: RunState, strides: seq<Stride>)
    requires Inv(cfg, run) && Doomed(run.rec) && run.rec.state == Supervising && |Revisions(run.rec.messages)| >= cfg.maxRevisions
    ensures var rec := ProceedAll(cfg, run, strides).rec;
      rec.state == Supervising && |Revisions(rec.messages)| == |Revisions(run.rec.messages)|
  {
    hide Inv, Doomed, Script, Perform, StaysPut, Revisions;
    if strides != [] {
      var before := ProceedAll(cfg, run, strides[..|strides| - 1]);
      var s := strides[|strides| - 1];
      SupervisedForever(cfg, run, strides[..|strides| - 1]);
      FailureRulesOutCompletion(cfg, run, strides[..|strides| - 1]);
      DoomedStaysPut(cfg, before.rec, s.cmd);
      var ops := Script(cfg, before.rec, s.cmd);
      PerformStaysPut(before, ops, if s.length <= |ops| then s.length else |ops|);
    }
  }

  /** With a failure on record a run can leave SUPERVISING exactly when its revision limit is not reached. */
  lemma FailedSupervisionEndsExactly(cfg: Config, run: RunState)
    requires Inv(cfg, run) && Doomed(run.rec) && run.rec.state == Supervising
    ensures (exists strides :: ProceedAll(cfg, run, strides).rec.state != Supervising) <==> |Revisions(run.rec.messages)| < cfg.maxRevisions
  {
    hide Inv, Doomed, ProceedAll, Proceed, Revisions;
    if |Revisions(run.rec.messages)| < cfg.maxRevisions {
      var s := Stride(RequestRevision, 3);
      RevisionLeaves(cfg, run);
      TwoStrides(cfg, run, s, s);
    } else {
      forall strides ensures ProceedAll(cfg, run, strides).rec.state == Supervising { SupervisedForever(cfg, run, strides); }
    }
  }
}
