/** What other components persist while record_supervisor_result is between its snapshot and its gate. */
module WorkflowInterleaving {
  import opened Wrappers
  import opened Contracts
  import opened Text
  import opened SessionStore
  import opened Approvals
  import opened RestartTransparency
  import opened Supervisor
  import opened Workflow
  import opened WorkflowSafety
  import opened WorkflowScripts
  import opened WorkflowTheorems
  import opened WorkflowEffects

  // Calls of other components, some of which may raise.
  function Meanwhile(run: RunState, ops: seq<Op>): RunState
    decreases |ops|
  {
    if ops == [] then run
    else Meanwhile(match PerformOp(run, ops[0]) case None => run case Some(run') => run', ops[1..])
  }

  // Nothing a human or the workflow decides is touched, and results are only appended.
  ghost predicate Undisturbed(a: RunState, b: RunState) {
    && b.rec.runId == a.rec.runId && b.rec.state == a.rec.state && b.rec.gates == a.rec.gates
    && b.rec.decisions == a.rec.decisions && b.rec.plan == a.rec.plan && b.rec.final == a.rec.final
    && a.rec.results <= b.rec.results && b.openings == a.openings
    && RecordedHash(b.rec.messages, b.rec.runId) == RecordedHash(a.rec.messages, a.rec.runId)
  }

  lemma UnrelatedDisturbsNothing(run: RunState, op: Op)
    requires Unrelated(op) && Apply(run.rec, op).Commit?
    ensures Undisturbed(run, PerformOp(run, op).value)
  {
    hide Apply, RecordedHash, PerformOp;
    CommittedOp(run, op);
    AppliedState(run.rec, op);
    AppliedMessages(run.rec, op);
    AppliedResults(run.rec, op);
    UntouchedGates(run.rec, op);
    if op.AddMessage? { HashAppended(run.rec.messages, op.message, run.rec.runId); }
  }

  lemma UndisturbedTwice(a: RunState, b: RunState, c: RunState)
    requires Undisturbed(a, b) && Undisturbed(b, c)
    ensures Undisturbed(a, c)
  {
    hide RecordedHash;
  }

  lemma {:induction false} MeanwhileDisturbsNothing(run: RunState, ops: seq<Op>)
    requires forall op :: op in ops ==> Unrelated(op)
    ensures Undisturbed(run, Meanwhile(run, ops))
    decreases |ops|
  {
    if ops != [] {
      hide Apply, Undisturbed, RecordedHash, Unrelated;
      assert Undisturbed(run, run) by { Unchanged(run); }
      if Apply(run.rec, ops[0]).Commit? { UnrelatedDisturbsNothing(run, ops[0]); } else { NotCommitted(run, ops[0]); }
      var next := match PerformOp(run, ops[0]) case None => run case Some(run') => run';
      MeanwhileDisturbsNothing(next, ops[1..]);
      UndisturbedTwice(run, next, Meanwhile(run, ops));
    } else {
      Unchanged(run);
    }
  }

  lemma Unchanged(run: RunState)
    ensures Undisturbed(run, run)
  {
    hide RecordedHash;
  }

  // record_supervisor_result with other calls after its snapshot, after its message and after its transition.
  ghost function RecordedAround(run: RunState, qa: QaResult, gateId: string, now: string, a: seq<Op>, b: seq<Op>, c: seq<Op>): RunState {
    var noted := Perform(Meanwhile(run, a), [AddMessage(PassNote(qa))]);
    var waiting := Perform(Meanwhile(noted, b), [Transition(WaitingFinalApproval)]);
    Perform(Meanwhile(waiting, c), [AddGate(FinalGate(run.rec.runId, gateId, Sha256(qa), now))])
  }

  ghost predicate GateOpened(run: RunState, run': RunState, qa: QaResult, gateId: string, now: string) {
    && run'.rec.state == WaitingFinalApproval && run'.rec.runId == run.rec.runId
    && run'.rec.gates == run.rec.gates + [FinalGate(run.rec.runId, gateId, Sha256(qa), now)]
    && run'.rec.decisions == run.rec.decisions && run.rec.results <= run'.rec.results
    && RecordedHash(run'.rec.messages, run'.rec.runId) == Ok(Some(Sha256(qa)))
    && gateId in run'.openings && run'.openings[gateId].results == run'.rec.results
  }

  lemma OpenedFinalGate(run: RunState, g: ApprovalGate)
    requires g.kind == "FINAL" && g.runId == run.rec.runId && GateIndex(run.rec.gates, g.gateId).None?
    ensures PerformOp(run, AddGate(g)).Some?
    ensures PerformOp(run, AddGate(g)).value ==
      RunState(run.rec.(gates := run.rec.gates + [g], revision := run.rec.revision + 1), run.openings[g.gateId := run.rec])
  {
  }

  lemma AroundOpensTheGate(run: RunState, qa: QaResult, gateId: string, now: string, a: seq<Op>, b: seq<Op>, c: seq<Op>)
    requires run.rec.state == Supervising && qa.status == Pass && qa.runId == run.rec.runId
    requires GateIndex(run.rec.gates, gateId).None? && forall op :: op in a + b + c ==> Unrelated(op)
    ensures GateOpened(run, RecordedAround(run, qa, gateId, now, a, b, c), qa, gateId, now)
  {
    hide Apply, PerformOp, RecordedHash, GateIndex, Unrelated, Meanwhile;
    var before := Meanwhile(run, a);
    assert forall op :: op in a ==> op in a + b + c;
    MeanwhileDisturbsNothing(run, a);
    AddedMessage(before, PassNote(qa));
    OneOp(before, AddMessage(PassNote(qa)));
    HashAppended(before.rec.messages, PassNote(qa), run.rec.runId);
    var noted := Perform(before, [AddMessage(PassNote(qa))]);
    MeanwhileDisturbsNothing(noted, b);
    var still := Meanwhile(noted, b);
    Moved(still, WaitingFinalApproval);
    OneOp(still, Transition(WaitingFinalApproval));
    var waiting := Perform(still, [Transition(WaitingFinalApproval)]);
    assert forall op :: op in c ==> op in a + b + c;
    MeanwhileDisturbsNothing(waiting, c);
    var last := Meanwhile(waiting, c);
    var gate := FinalGate(run.rec.runId, gateId, Sha256(qa), now);
    OpenedFinalGate(last, gate);
    OneOp(last, AddGate(gate));
  }

  lemma NoDecisionYet(rec: SessionRecord, gateId: string)
    requires Settled(rec) && GateIndex(rec.gates, gateId).None?
    ensures FindDecision(rec.decisions, gateId).None?
  {
    hide ValidDecision, GatesSettled, WellFormed, GateIndex;
  }

  lemma AnsweredIsRecorded(rec: SessionRecord, gates: seq<ApprovalGate>, decisions: seq<HumanDecision>, g: ApprovalGate, now: string)
    requires rec.gates == gates + [AsResolved(g, now)] && GateIndex(gates, g.gateId).None? && g.runId == rec.runId
    requires rec.decisions == decisions + [Said(g.gateId, rec.runId, Approve, now)] && FindDecision(decisions, g.gateId).None?
    requires !Blank(g.gateId) && !Blank(rec.runId) && !Blank(now)
    ensures IsRecordedIn(rec, Said(g.gateId, rec.runId, Approve, now))
    ensures Find(rec.gates, g.gateId) == Some(AsResolved(g, now))
  {
    hide Blank, GateIndex, FindDecision, Strip;
    StripHuman();
    LastGate(gates, AsResolved(g, now));
    LastDecision(decisions, Said(g.gateId, rec.runId, Approve, now));
  }

  lemma {:induction false} LastDecision(decisions: seq<HumanDecision>, d: HumanDecision)
    requires FindDecision(decisions, d.gateId).None?
    ensures FindDecision(decisions + [d], d.gateId) == Some(d)
  {
    if decisions != [] {
      assert (decisions + [d])[1..] == decisions[1..] + [d];
      LastDecision(decisions[1..], d);
    }
  }

  // The human approves the gate and the decision is applied.
  ghost function ApprovedAround(cfg: Config, run: RunState, gateId: string, now: string): RunState {
    Carry(cfg, Carry(cfg, run, Answer(gateId, Approve, "", "human", now)), FinalDecision(Said(gateId, run.rec.runId, Approve, now), None))
  }

  lemma ApprovalCompletes(cfg: Config, run: RunState, waiting: RunState, qa: QaResult, gateId: string, now: string)
    requires Settled(run.rec) && GateIndex(run.rec.gates, gateId).None? && GateOpened(run, waiting, qa, gateId, now)
    requires !Blank(gateId) && !Blank(run.rec.runId) && !Blank(now) && now != ""
    ensures ApprovedAround(cfg, waiting, gateId, now).rec.state == Completed
  {
    hide Carry, Settled, GateIndex, FindDecision, Blank, ValidGate, RecordedHash, IsRecordedIn, Find;
    var gate := FinalGate(run.rec.runId, gateId, Sha256(qa), now);
    FinalGateIsValid(run.rec.runId, gateId, Sha256(qa), now);
    NoDecisionYet(run.rec, gateId);
    Answered(cfg, waiting, run.rec.gates, gate, Approve, now);
    var answered := Carry(cfg, waiting, Answer(gateId, Approve, "", "human", now));
    AnsweredIsRecorded(answered.rec, run.rec.gates, run.rec.decisions, gate, now);
    Completes(cfg, answered, Said(gateId, run.rec.runId, Approve, now), Sha256(qa));
  }

  // ----- Which calls leave a failure on record -----

  predicate OfRun(r: ExecutionResult, runId: string) { r.runId.None? || r.runId.value == runId }

  predicate Adds(op: Op, runId: string, executionId: string) {
    op.AddResult? && OfRun(op.result, runId) && op.result.executionId == executionId
  }

  // The i-th call persists a failure: its result is not a success, its id is not on record and no earlier call used it.
  ghost predicate PersistsFailure(runId: string, results: seq<ExecutionResult>, ops: seq<Op>, i: nat)
    requires i < |ops|
  {
    && ops[i].AddResult? && ops[i].result.status != Success && OfRun(ops[i].result, runId)
    && FindResult(results, ops[i].result.executionId).None?
    && forall j :: 0 <= j < i ==> !Adds(ops[j], runId, ops[i].result.executionId)
  }

  ghost predicate SomeFailure(runId: string, results: seq<ExecutionResult>, ops: seq<Op>) {
    exists i :: 0 <= i < |ops| && PersistsFailure(runId, results, ops, i)
  }

  // The results on record after the calls.
  function ResultsAfter(runId: string, results: seq<ExecutionResult>, ops: seq<Op>): seq<ExecutionResult> {
    if ops == [] then results
    else
      var before := ResultsAfter(runId, results, ops[..|ops| - 1]);
      var op := ops[|ops| - 1];
      if op.AddResult? && OfRun(op.result, runId) && FindResult(before, op.result.executionId).None?
      then before + [Bound(runId, op.result)] else before
  }

  lemma {:induction false} FoundAppended(results: seq<ExecutionResult>, r: ExecutionResult, id: string)
    ensures FindResult(results + [r], id).None? <==> FindResult(results, id).None? && r.executionId != id
  {
    if results == [] {
      assert results + [r] == [r] && [r][1..] == [];
    } else {
      assert (results + [r])[1..] == results[1..] + [r];
      FoundAppended(results[1..], r, id);
    }
  }

  // An id is on record afterwards exactly when it was, or some call added it.
  lemma {:induction false} IdsAfter(runId: string, results: seq<ExecutionResult>, ops: seq<Op>, id: string)
    ensures FindResult(ResultsAfter(runId, results, ops), id).None? <==>
      FindResult(results, id).None? && forall j :: 0 <= j < |ops| ==> !Adds(ops[j], runId, id)
  {
    if ops != [] {
      hide FindResult;
      var before, op := ops[..|ops| - 1], ops[|ops| - 1];
      IdsAfter(runId, results, before, id);
      assert forall j :: 0 <= j < |before| ==> before[j] == ops[j];
      if op.AddResult? && OfRun(op.result, runId) {
        IdsAfter(runId, results, before, op.result.executionId);
        FoundAppended(ResultsAfter(runId, results, before), Bound(runId, op.result), id);
      }
    }
  }

  lemma OneMoreCall(runId: string, results: seq<ExecutionResult>, before: seq<Op>, op: Op)
    ensures SomeFailure(runId, results, before + [op]) <==>
      SomeFailure(runId, results, before) || PersistsFailure(runId, results, before + [op], |before|)
  {
    hide FindResult;
    var ops := before + [op];
    forall i | 0 <= i < |before| ensures PersistsFailure(runId, results, ops, i) <==> PersistsFailure(runId, results, before, i) {
      assert forall j :: 0 <= j <= i ==> ops[j] == before[j];
    }
  }

  lemma SuccessAppended(results: seq<ExecutionResult>, r: ExecutionResult)
    ensures AllSuccess(results + [r]) <==> AllSuccess(results) && r.status == Success
  {
    assert r in results + [r] && forall x :: x in results ==> x in results + [r];
  }

  lemma {:induction false} FailuresAreTheCalls(runId: string, results: seq<ExecutionResult>, ops: seq<Op>)
    ensures AllSuccess(ResultsAfter(runId, results, ops)) <==> AllSuccess(results) && !SomeFailure(runId, results, ops)
  {
    if ops != [] {
      hide FindResult, SomeFailure, AllSuccess;
      var before, op := ops[..|ops| - 1], ops[|ops| - 1];
      assert ops == before + [op];
      FailuresAreTheCalls(runId, results, before);
      OneMoreCall(runId, results, before, op);
      if op.AddResult? && OfRun(op.result, runId) {
        IdsAfter(runId, results, before, op.result.executionId);
        SuccessAppended(ResultsAfter(runId, results, before), Bound(runId, op.result));
      }
    }
  }

  lemma ResultOfOneCall(run: RunState, op: Op, results: seq<ExecutionResult>)
    requires Unrelated(op) && results == run.rec.results
    ensures var next := match PerformOp(run, op) case None => run case Some(run') => run';
      next.rec.runId == run.rec.runId && next.rec.results == ResultsAfter(run.rec.runId, results, [op])
  {
    hide FindResult;
    assert [op][..0] == [];
    assert ResultsAfter(run.rec.runId, results, []) == results;
  }

  lemma {:induction false} ResultsAfterMore(runId: string, results: seq<ExecutionResult>, a: seq<Op>, b: seq<Op>)
    ensures ResultsAfter(runId, results, a + b) == ResultsAfter(runId, ResultsAfter(runId, results, a), b)
  {
    if b == [] {
      assert a + b == a;
    } else {
      assert (a + b)[..|a + b| - 1] == a + b[..|b| - 1];
      ResultsAfterMore(runId, results, a, b[..|b| - 1]);
    }
  }

  lemma {:induction false} MeanwhileResults(run: RunState, ops: seq<Op>)
    requires forall op :: op in ops ==> Unrelated(op)
    ensures Meanwhile(run, ops).rec.results == ResultsAfter(run.rec.runId, run.rec.results, ops)
    decreases |ops|
  {
    hide PerformOp, Unrelated;
    if ops != [] {
      var next := match PerformOp(run, ops[0]) case None => run case Some(run') => run';
      ResultOfOneCall(run, ops[0], run.rec.results);
      MeanwhileResults(next, ops[1..]);
      ResultsAfterMore(run.rec.runId, run.rec.results, [ops[0]], ops[1..]);
      assert [ops[0]] + ops[1..] == ops;
    }
  }

  // The results on record when the gate opens are those of the three windows together.
  lemma ResultsAround(run: RunState, qa: QaResult, gateId: string, now: string, a: seq<Op>, b: seq<Op>, c: seq<Op>)
    requires run.rec.state == Supervising && qa.status == Pass && qa.runId == run.rec.runId
    requires GateIndex(run.rec.gates, gateId).None? && forall op :: op in a + b + c ==> Unrelated(op)
    ensures RecordedAround(run, qa, gateId, now, a, b, c).rec.results == ResultsAfter(run.rec.runId, run.rec.results, a + b + c)
  {
    hide Apply, PerformOp, RecordedHash, GateIndex, Unrelated, Meanwhile, ResultsAfter;
    assert forall op :: op in a ==> op in a + b + c;
    assert forall op :: op in c ==> op in a + b + c;
    MeanwhileDisturbsNothing(run, a);
    MeanwhileResults(run, a);
    var before := Meanwhile(run, a);
    AddedMessage(before, PassNote(qa));
    OneOp(before, AddMessage(PassNote(qa)));
    var noted := Perform(before, [AddMessage(PassNote(qa))]);
    MeanwhileDisturbsNothing(noted, b);
    MeanwhileResults(noted, b);
    var still := Meanwhile(noted, b);
    Moved(still, WaitingFinalApproval);
    OneOp(still, Transition(WaitingFinalApproval));
    var waiting := Perform(still, [Transition(WaitingFinalApproval)]);
    MeanwhileDisturbsNothing(waiting, c);
    MeanwhileResults(waiting, c);
    var last := Meanwhile(waiting, c);
    OpenedFinalGate(last, FinalGate(run.rec.runId, gateId, Sha256(qa), now));
    OneOp(last, AddGate(FinalGate(run.rec.runId, gateId, Sha256(qa), now)));
    ResultsAfterMore(run.rec.runId, run.rec.results, a, b);
    ResultsAfterMore(run.rec.runId, run.rec.results, a + b, c);
  }

  /**
   Other components may persist results while a PASS is being recorded. The gate opens and its approval completes the
   run all the same. A failure is on record when the gate opens exactly when some call in the three windows between the
   snapshot and the gate adds a result of this run that is not a success, under an execution id that neither the record
   nor an earlier call has.
   */
  lemma ResultsAfterTheSnapshotAreNotJudged(
      cfg: Config, run: RunState, order: seq<string>, gateId: string, now: string, a: seq<Op>, b: seq<Op>, c: seq<Op>)
    requires Inv(cfg, run) && run.rec.state == Supervising && run.rec.plan.Some? && Enumerates(order, run.rec.outputs)
    requires Evaluate(EvidenceOf(run.rec, order)).Ok? && Evaluate(EvidenceOf(run.rec, order)).value.status == Pass
    requires GateIndex(run.rec.gates, gateId).None? && !Blank(gateId) && !Blank(run.rec.runId) && !Blank(now)
    requires forall op :: op in a + b + c ==> Unrelated(op)
    ensures var qa := Evaluate(EvidenceOf(run.rec, order)).value;
      var waiting := RecordedAround(run, qa, gateId, now, a, b, c);
      && GateOpened(run, waiting, qa, gateId, now)
      && ApprovedAround(cfg, waiting, gateId, now).rec.state == Completed
      && (AllSuccess(waiting.openings[gateId].results) <==> !SomeFailure(run.rec.runId, run.rec.results, a + b + c))
  {
    hide Inv, Settled, Evaluate, EvidenceOf, Enumerates, RecordedAround, ApprovedAround, Blank, GateIndex, Unrelated, RecordedHash, PassedOn, AllSuccess,
      SomeFailure, ResultsAfter;
    EnumeratesOnlyOutputs(order, run.rec.outputs);
    var qa := Evaluate(EvidenceOf(run.rec, order)).value;
    PassIsPassed(run.rec, order);
    PassedMeansSuccess(run.rec);
    SettledOf(cfg, run);
    AroundOpensTheGate(run, qa, gateId, now, a, b, c);
    var waiting := RecordedAround(run, qa, gateId, now, a, b, c);
    NotEmpty(now);
    ApprovalCompletes(cfg, run, waiting, qa, gateId, now);
    ResultsAround(run, qa, gateId, now, a, b, c);
    FailuresAreTheCalls(run.rec.runId, run.rec.results, a + b + c);
  }

  lemma NotEmpty(s: string)
    requires !Blank(s)
    ensures s != ""
  {
  }

  lemma OneMeanwhile(run: RunState, op: Op)
    requires PerformOp(run, op).Some?
    ensures Meanwhile(run, [op]) == PerformOp(run, op).value
  {
    hide PerformOp;
    assert [op][1..] == [];
    assert Meanwhile(PerformOp(run, op).value, []) == PerformOp(run, op).value;
  }

  lemma NewResult(run: RunState, r: ExecutionResult)
    requires r.runId == Some(run.rec.runId) && FindResult(run.rec.results, r.executionId).None?
    ensures PerformOp(run, AddResult(r)).Some? && r in PerformOp(run, AddResult(r)).value.rec.results
  {
    hide FindResult;
  }

  // One failure persisted right after the snapshot: the run completes with it.
  lemma AFailureIsMissed(cfg: Config, run: RunState, order: seq<string>, gateId: string, now: string, r: ExecutionResult)
    requires Inv(cfg, run) && run.rec.state == Supervising && run.rec.plan.Some? && Enumerates(order, run.rec.outputs)
    requires Evaluate(EvidenceOf(run.rec, order)).Ok? && Evaluate(EvidenceOf(run.rec, order)).value.status == Pass
    requires GateIndex(run.rec.gates, gateId).None? && !Blank(gateId) && !Blank(run.rec.runId) && !Blank(now)
    requires r.runId == Some(run.rec.runId) && r.status != Success && FindResult(run.rec.results, r.executionId).None?
    ensures var qa := Evaluate(EvidenceOf(run.rec, order)).value;
      var waiting := RecordedAround(run, qa, gateId, now, [AddResult(r)], [], []);
      && ApprovedAround(cfg, waiting, gateId, now).rec.state == Completed
      && gateId in waiting.openings && r in waiting.openings[gateId].results
  {
    hide Inv, Evaluate, EvidenceOf, Enumerates, Blank, GateIndex, ApprovedAround, FindResult, RecordedHash;
    EnumeratesOnlyOutputs(order, run.rec.outputs);
    var qa := Evaluate(EvidenceOf(run.rec, order)).value;
    ResultsAfterTheSnapshotAreNotJudged(cfg, run, order, gateId, now, [AddResult(r)], [], []);
    NewResult(run, r);
    OneMeanwhile(run, AddResult(r));
    PassIsPassed(run.rec, order);
    ResultStays(run, qa, gateId, now, r);
  }

  lemma ResultStays(run: RunState, qa: QaResult, gateId: string, now: string, r: ExecutionResult)
    requires run.rec.state == Supervising && qa.status == Pass && qa.runId == run.rec.runId && GateIndex(run.rec.gates, gateId).None?
    requires r in Meanwhile(run, [AddResult(r)]).rec.results
    ensures r in RecordedAround(run, qa, gateId, now, [AddResult(r)], [], []).rec.results
  {
    hide GateIndex, RecordedHash, Apply, PerformOp;
    MeanwhileDisturbsNothing(run, [AddResult(r)]);
    var before := Meanwhile(run, [AddResult(r)]);
    AddedMessage(before, PassNote(qa));
    OneOp(before, AddMessage(PassNote(qa)));
    var noted := Perform(before, [AddMessage(PassNote(qa))]);
    Moved(noted, WaitingFinalApproval);
    OneOp(noted, Transition(WaitingFinalApproval));
    var last := Perform(noted, [Transition(WaitingFinalApproval)]);
    OpenedFinalGate(last, FinalGate(run.rec.runId, gateId, Sha256(qa), now));
    OneOp(last, AddGate(FinalGate(run.rec.runId, gateId, Sha256(qa), now)));
  }
}
