/** What the runs of the workflow guarantee. */
module WorkflowTheorems {
  import opened Contracts
  import opened Text
  import opened SessionStore
  import opened Approvals
  import opened RestartTransparency
  import opened Supervisor
  import opened Authorization
  import opened Workflow
  import opened WorkflowSafety
  import opened WorkflowScripts

  // ----- Completion -----

  ghost predicate AllSuccess(results: seq<ExecutionResult>) { forall r :: r in results ==> r.status == Success }

  // The run was completed under FINAL gate g by its single decision d.
  ghost predicate CompletedUnder(run: RunState, g: ApprovalGate, d: HumanDecision) {
    && g in run.rec.gates && g.kind == "FINAL" && g.status == Resolved && g.runId == run.rec.runId
    && DecisionsOf(run.rec.decisions, g.gateId) == [d] && d.decision == Approve
    && g.gateId in run.openings
    && var at := run.openings[g.gateId];
       at.results <= run.rec.results && AllSuccess(at.results) && PassedOn(at)
  }

  lemma PassedMeansSuccess(rec: SessionRecord)
    requires PassedOn(rec)
    ensures AllSuccess(rec.results)
  {
    var order :| Enumerates(order, rec.outputs) && Passes(EvidenceOf(rec, order));
    hide Successful, Owns;
    assert AllSuccessful(EvidenceOf(rec, order));
  }

  lemma ApprovalIsSingle(rec: SessionRecord, d: HumanDecision)
    requires Settled(rec) && ApprovedFinal(rec, d)
    ensures DecisionsOf(rec.decisions, d.gateId) == [d]
  {
    hide WellFormed, DecisionsSettled, ValidGate, GateIndex, DecisionsOf;
    var g := Find(rec.gates, d.gateId).value;
    DecisionsOfMembers(rec.decisions, d.gateId);
    assert Coupled(g, DecisionsOf(rec.decisions, g.gateId));
    assert d in DecisionsOf(rec.decisions, d.gateId);
  }

  lemma GateIsOfItsRun(rec: SessionRecord, g: ApprovalGate)
    requires Settled(rec) && g in rec.gates
    ensures g.runId == rec.runId
  {
    hide GatesSettled, DecisionsSettled, UniqueGates, UniqueDecisions, UniqueResults;
  }

  /**
   COMPLETED, in any state any run can reach, wherever its processes stopped: some FINAL gate of the run is resolved
   with APPROVE as its single decision; the final result carries the newest recorded PASS evidence; and on the record
   on which that gate was opened the supervisor passes, so every execution result it held was a success.
   */
  lemma CompletedMeansApproved(cfg: Config, runId: string, strides: seq<Stride>)
    requires ProceedAll(cfg, NewRun(runId), strides).rec.state == Completed
    ensures var run := ProceedAll(cfg, NewRun(runId), strides);
      && BoundToEvidence(run.rec)
      && exists g, d :: CompletedUnder(run, g, d)
  {
    hide ProceedAll, Settled, SoundNotes, Numbered, PassedOn, RecordedHash, BoundToEvidence, Find, DecisionsOf;
    var run := ProceedAll(cfg, NewRun(runId), strides);
    EveryRunKeepsInv(cfg, runId, strides);
    var d :| ApprovedFinal(run.rec, d);
    var g := Find(run.rec.gates, d.gateId).value;
    FoundGate(run.rec, d.gateId);
    assert WellOpened(run, g);
    ApprovalIsSingle(run.rec, d);
    GateIsOfItsRun(run.rec, g);
    PassedMeansSuccess(run.openings[g.gateId]);
    assert CompletedUnder(run, g, d);
  }

  lemma FoundGate(rec: SessionRecord, gateId: string)
    requires Find(rec.gates, gateId).Some?
    ensures Find(rec.gates, gateId).value in rec.gates && Find(rec.gates, gateId).value.gateId == gateId
  {
  }

  // ----- The verdict on a stored record -----

  lemma SettledResultsAreUnique(rec: SessionRecord)
    requires Settled(rec)
    ensures UniqueResults(rec.results)
  {
    hide UniqueResults, UniqueDecisions, UniqueGates, GatesSettled, DecisionsSettled;
  }

  // No stored record lists an execution id twice, so the order in which its evidence is handed over never matters.
  lemma StoredVerdictIgnoresOrder(cfg: Config, runId: string, strides: seq<Stride>, order: seq<string>, e: SupervisorInput)
    requires var rec := ProceedAll(cfg, NewRun(runId), strides).rec;
      rec.plan.Some? && Enumerates(order, rec.outputs) && Reordered(EvidenceOf(rec, order), e)
    ensures Verdict(e) == Verdict(EvidenceOf(ProceedAll(cfg, NewRun(runId), strides).rec, order))
  {
    hide ProceedAll, Settled, Verdict, Reordered, UniqueResults, Inv;
    var run := ProceedAll(cfg, NewRun(runId), strides);
    EveryRunKeepsInv(cfg, runId, strides);
    SettledOf(cfg, run);
    SettledResultsAreUnique(run.rec);
    VerdictIgnoresOrder(EvidenceOf(run.rec, order), e);
  }

  // ----- A persisted failure -----

  // A failing result is on record and the run is not already waiting for its final approval.
  ghost predicate Doomed(rec: SessionRecord) {
    !AllSuccess(rec.results) && rec.state != WaitingFinalApproval && rec.state != Completed
  }

  ghost predicate FinalGateOf(gates: seq<ApprovalGate>, id: string) { exists g :: g in gates && g.kind == "FINAL" && g.gateId == id }

  lemma OpKeepsDoomed(cfg: Config, run: RunState, op: Op)
    requires Settled(run.rec) && Doomed(run.rec) && Permitted(cfg, run, op) && Apply(run.rec, op).Commit?
    ensures Doomed(PerformOp(run, op).value.rec)
    ensures forall id :: FinalGateOf(PerformOp(run, op).value.rec.gates, id) ==> FinalGateOf(run.rec.gates, id)
  {
    hide Apply, Settled, GateOp, SameGate, PassedOn, Finished, PerformOp, RecordedHash, PermittedMessage;
    CommittedOp(run, op);
    AppliedResults(run.rec, op);
    AppliedState(run.rec, op);
    if PassedOn(run.rec) { PassedMeansSuccess(run.rec); }
    var r :| r in run.rec.results && r.status != Success;
    assert r in PerformOp(run, op).value.rec.results;
    forall id | FinalGateOf(PerformOp(run, op).value.rec.gates, id) ensures FinalGateOf(run.rec.gates, id) {
      var g :| g in PerformOp(run, op).value.rec.gates && g.kind == "FINAL" && g.gateId == id;
      FinalGatesAfter(cfg, run, op, g);
    }
  }

  lemma {:induction false} PerformKeepsDoomed(cfg: Config, run: RunState, ops: seq<Op>, k: nat)
    requires Inv(cfg, run) && AllPermitted(cfg, run, ops) && k <= |ops| && Doomed(run.rec)
    ensures Doomed(Perform(run, ops[..k]).rec)
    ensures forall id :: FinalGateOf(Perform(run, ops[..k]).rec.gates, id) ==> FinalGateOf(run.rec.gates, id)
    decreases k
  {
    hide Inv, Permitted, PerformOp, Apply, Doomed, FinalGateOf;
    if k > 0 {
      if Apply(run.rec, ops[0]).Commit? {
        SettledOf(cfg, run);
        OpKeepsInv(cfg, run, ops[0]);
        OpKeepsDoomed(cfg, run, ops[0]);
      } else {
        NotCommitted(run, ops[0]);
      }
      assert ops[..k][0] == ops[0] && ops[..k][1..] == ops[1..][..k - 1];
      match PerformOp(run, ops[0]) {
        case None =>
        case Some(run') => PerformKeepsDoomed(cfg, run', ops[1..], k - 1);
      }
    }
  }

  lemma SettledOf(cfg: Config, run: RunState)
    requires Inv(cfg, run)
    ensures Settled(run.rec)
  {
  }

  /**
   One persisted failure rules out completion: from then on no FINAL gate is opened, WAITING_FINAL_APPROVAL is not
   entered and the run never completes, whatever is revised, retried or recovered.
   */
  lemma {:induction false} FailureRulesOutCompletion(cfg: Config, run: RunState, strides: seq<Stride>)
    requires Inv(cfg, run) && Doomed(run.rec)
    ensures var run' := ProceedAll(cfg, run, strides);
      && Inv(cfg, run') && Doomed(run'.rec)
      && forall id :: FinalGateOf(run'.rec.gates, id) ==> FinalGateOf(run.rec.gates, id)
  {
    hide Inv, Doomed, FinalGateOf, Script, Perform, AllPermitted;
    if strides != [] {
      var before := ProceedAll(cfg, run, strides[..|strides| - 1]);
      var s := strides[|strides| - 1];
      FailureRulesOutCompletion(cfg, run, strides[..|strides| - 1]);
      StepKeepsInv(cfg, before, s);
      ScriptIsPermitted(cfg, before, s.cmd);
      var ops := Script(cfg, before.rec, s.cmd);
      PerformKeepsDoomed(cfg, before, ops, if s.length <= |ops| then s.length else |ops|);
    }
  }

  // A failing result leaves the supervisor no verdict but REVISE.
  lemma DoomedVerdict(rec: SessionRecord, order: seq<string>)
    requires Doomed(rec) && rec.plan.Some? && Enumerates(order, rec.outputs) && Evaluate(EvidenceOf(rec, order)).Ok?
    ensures Evaluate(EvidenceOf(rec, order)).value.status == Revise
  {
    hide Verdict, Blocking, Evidence, ValidInput, Consistent, GoodReference, Successful;
    var d := EvidenceOf(rec, order);
    VerdictIsExact(d);
    var r :| r in rec.results && r.status != Success;
    assert r in d.results;
    assert !AllSuccessful(d);
  }

  ghost predicate NeverFails(ops: seq<Op>) { Transition(Failed) !in ops }

  lemma DoomedSupervision(cfg: Config, rec: SessionRecord, order: seq<string>, gateId: string, now: string, noted: bool)
    requires Doomed(rec)
    ensures NeverFails(Script(cfg, rec, Supervise(order, gateId, now, noted)))
  {
    hide Evaluate, EvidenceOf, Enumerates, Doomed, Revisions;
    if rec.state == Supervising && rec.plan.Some? && Enumerates(order, rec.outputs) {
      EnumeratesOnlyOutputs(order, rec.outputs);
      if Evaluate(EvidenceOf(rec, order)).Ok? { DoomedVerdict(rec, order); }
    }
  }

  lemma AnswerNeverFails(cfg: Config, rec: SessionRecord, t: ToolVerdict)
    ensures NeverFails(AnswerScript(rec, t.gateId, t.decision, t.feedback, t.actor, t.timestamp)) && NeverFails(ResumeScript(cfg, rec, t))
  {
    hide ValidGate, ValidDecision, Blank, Strip, Find, Revisions, BelongsTo;
  }

  lemma DecisionNeverFails(cfg: Config, rec: SessionRecord, cmd: Command)
    requires cmd.ArchitectureDecision? || cmd.FinalDecision?
    ensures NeverFails(Script(cfg, rec, cmd))
  {
    hide IsRecordedIn, RecordedHash, ValidFinal, Find, Revisions;
  }

  lemma DoomedScript(cfg: Config, rec: SessionRecord, cmd: Command)
    requires Doomed(rec)
    ensures NeverFails(Script(cfg, rec, cmd))
  {
    hide Doomed, AnswerScript, ResumeScript, ValidGate, Find, Matching, PlanRisk, PlanRequest, Revisions, ToolGate, ArchitectureGate;
    match cmd {
      case Supervise(order, gateId, now, noted) => DoomedSupervision(cfg, rec, order, gateId, now, noted);
      case Answer(gateId, decision, feedback, actor, now) =>
        AnswerNeverFails(cfg, rec, ToolVerdict(gateId, decision, rec.runId, "", feedback, actor, "", false, now));
      case ResumeTool(t) => AnswerNeverFails(cfg, rec, t);
      case ArchitectureDecision(_) => DecisionNeverFails(cfg, rec, cmd);
      case FinalDecision(_, _) => DecisionNeverFails(cfg, rec, cmd);
      case _ =>
    }
  }

  lemma {:induction false} PerformNeverFails(run: RunState, ops: seq<Op>, k: nat)
    requires NeverFails(ops) && k <= |ops| && run.rec.state != Failed
    ensures Perform(run, ops[..k]).rec.state != Failed
    decreases k
  {
    hide Apply;
    if k > 0 {
      assert ops[..k][0] == ops[0] && ops[..k][1..] == ops[1..][..k - 1];
      assert ops[0] in ops;
      if Apply(run.rec, ops[0]).Commit? { AppliedState(run.rec, ops[0]); }
      match PerformOp(run, ops[0]) {
        case None =>
        case Some(run') => PerformNeverFails(run', ops[1..], k - 1);
      }
    }
  }

  /**
   A persisted failure rules out the verdict FAIL as well: neither COMPLETED nor FAILED is ever reached, so only a
   human's rejection can end the run.
   */
  lemma {:induction false} OnlyRejectionEndsIt(cfg: Config, run: RunState, strides: seq<Stride>)
    requires Inv(cfg, run) && Doomed(run.rec) && run.rec.state != Failed
    ensures var rec := ProceedAll(cfg, run, strides).rec;
      rec.state != Completed && rec.state != Failed && (Terminal(rec.state) ==> rec.state == Rejected)
  {
    hide Inv, Script, Perform, AllPermitted, NeverFails, AllSuccess;
    FailureRulesOutCompletion(cfg, run, strides);
    if strides != [] {
      var before := ProceedAll(cfg, run, strides[..|strides| - 1]);
      var s := strides[|strides| - 1];
      OnlyRejectionEndsIt(cfg, run, strides[..|strides| - 1]);
      FailureRulesOutCompletion(cfg, run, strides[..|strides| - 1]);
      DoomedScript(cfg, before.rec, s.cmd);
      var ops := Script(cfg, before.rec, s.cmd);
      PerformNeverFails(before, ops, if s.length <= |ops| then s.length else |ops|);
    }
  }

  // ----- Terminal states -----

  lemma {:induction false} PerformKeepsTerminal(run: RunState, ops: seq<Op>)
    requires Terminal(run.rec.state)
    ensures Perform(run, ops).rec.state == run.rec.state
    decreases |ops|
  {
    if ops != [] {
      hide Apply;
      if Apply(run.rec, ops[0]).Commit? { AppliedState(run.rec, ops[0]); }
      match PerformOp(run, ops[0]) {
        case None =>
        case Some(run') => PerformKeepsTerminal(run', ops[1..]);
      }
    }
  }

  lemma {:induction false} TerminalIsForever(cfg: Config, run: RunState, strides: seq<Stride>)
    requires Terminal(run.rec.state)
    ensures ProceedAll(cfg, run, strides).rec.state == run.rec.state
  {
    if strides != [] {
      hide Script, Perform;
      var before := ProceedAll(cfg, run, strides[..|strides| - 1]);
      var s := strides[|strides| - 1];
      TerminalIsForever(cfg, run, strides[..|strides| - 1]);
      var ops := Script(cfg, before.rec, s.cmd);
      PerformKeepsTerminal(before, ops[..if s.length <= |ops| then s.length else |ops|]);
    }
  }

  // ----- Revisions -----

  // The revisions on record are numbered 1 to n without a gap, n is at most the larger limit, and a process may stop anywhere.
  lemma RevisionsAreNumbered(cfg: Config, runId: string, strides: seq<Stride>)
    ensures var revisions := Revisions(ProceedAll(cfg, NewRun(runId), strides).rec.messages);
      (|revisions| <= cfg.maxRevisions || |revisions| <= cfg.recoveryRevisions) && forall i :: 0 <= i < |revisions| ==> revisions[i] == i + 1
  {
    hide ProceedAll, Revisions, Settled, SoundNotes, FinalGatesOpened, Finished;
    EveryRunKeepsInv(cfg, runId, strides);
  }

  // MODIFY and CLARIFY on an architecture gate can be recorded but never applied: the run stays as it is.
  lemma ModifiedArchitectureStays(cfg: Config, run: RunState, d: HumanDecision, length: nat)
    requires d.decision == Modify || d.decision == Clarify
    ensures Proceed(cfg, run, Stride(ArchitectureDecision(d), length)) == run
  {
    hide IsRecordedIn, Revisions;
    var ops := Script(cfg, run.rec, ArchitectureDecision(d));
    if ops != [] {
      ConfirmingChangesNothing(run, d);
      assert ops == [AddDecision(d)];
      if length > 0 {
        var taken := ops[..if length <= |ops| then length else |ops|];
        assert taken == [AddDecision(d)];
        assert Perform(run, taken) == Perform(run, taken[1..]);
      }
    }
  }
}
