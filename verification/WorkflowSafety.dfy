/** What every run keeps, wherever its processes stop: completion, evidence, revisions. */
module WorkflowSafety {
  import opened Wrappers
  import opened Contracts
  import opened SessionStore
  import opened Approvals
  import opened RestartTransparency
  import opened Supervisor
  import opened Workflow

  // ----- The invariant -----

  // The supervisor passes this record.
  ghost predicate PassedOn(rec: SessionRecord) {
    rec.plan.Some? && exists order :: Enumerates(order, rec.outputs) && Passes(EvidenceOf(rec, order))
  }

  ghost predicate SoundNote(m: Message, runId: string) {
    match m.note
    case QaNote(qa, Some(h)) => h == Sha256(qa) && qa.status == Pass && qa.runId == runId
    case _ => true
  }

  ghost predicate SoundNotes(messages: seq<Message>, runId: string) {
    forall m :: m in messages ==> SoundNote(m, runId)
  }

  // Revisions are numbered 1, 2, ... up to the larger limit.
  ghost predicate Numbered(cfg: Config, messages: seq<Message>) {
    var revisions := Revisions(messages);
    |revisions| <= Most(cfg) && forall i :: 0 <= i < |revisions| ==> revisions[i] == i + 1
  }

  // A FINAL gate was opened on a record that the supervisor passes, for that record's evidence.
  ghost predicate WellOpened(run: RunState, g: ApprovalGate) {
    && g.gateId in run.openings
    && var at := run.openings[g.gateId];
       && at.results <= run.rec.results
       && PassedOn(at)
       && g.context.QaContext?
       && RecordedHash(at.messages, at.runId) == Ok(Some(g.context.evidenceHash))
  }

  ghost predicate FinalGatesOpened(run: RunState) {
    forall g :: g in run.rec.gates && g.kind == "FINAL" ==> WellOpened(run, g)
  }

  ghost predicate ApprovedFinal(rec: SessionRecord, d: HumanDecision) {
    && d in rec.decisions && d.decision == Approve
    && Find(rec.gates, d.gateId).Some?
    && Find(rec.gates, d.gateId).value.kind == "FINAL"
    && Find(rec.gates, d.gateId).value.status == Resolved
  }

  ghost predicate BoundToEvidence(rec: SessionRecord) {
    && rec.final.Some? && rec.final.value.evidenceHash.Some?
    && RecordedHash(rec.messages, rec.runId) == Ok(rec.final.value.evidenceHash)
  }

  ghost predicate Finished(rec: SessionRecord) {
    BoundToEvidence(rec) && exists d :: ApprovedFinal(rec, d)
  }

  ghost predicate Inv(cfg: Config, run: RunState) {
    && Settled(run.rec)
    && SoundNotes(run.rec.messages, run.rec.runId)
    && Numbered(cfg, run.rec.messages)
    && FinalGatesOpened(run)
    && (run.rec.state == Completed ==> Finished(run.rec))
  }

  // ----- When the code performs an operation -----

  ghost predicate PermittedMessage(cfg: Config, rec: SessionRecord, m: Message) {
    match m.note
    case QaNote(qa, Some(h)) => SoundNote(m, rec.runId) && rec.state == Supervising
    case RevisionNote(n) => n == |Revisions(rec.messages)| + 1 && n <= Most(cfg)
    case _ => true
  }

  ghost predicate PermittedGate(rec: SessionRecord, g: ApprovalGate) {
    && ValidGate(g) && g.status == Open
    && (g.kind == "FINAL" ==>
          PassedOn(rec) && g.context.QaContext? && RecordedHash(rec.messages, rec.runId) == Ok(Some(g.context.evidenceHash)))
  }

  // A gate is replaced by itself with another status.
  ghost predicate SameGate(rec: SessionRecord, g: ApprovalGate) {
    && Find(rec.gates, g.gateId).Some?
    && Find(rec.gates, g.gateId).value.kind == g.kind && Find(rec.gates, g.gateId).value.context == g.context
  }

  ghost predicate Permitted(cfg: Config, run: RunState, op: Op) {
    && GateOp(run.rec, op)
    && match op
       case Transition(target) =>
         (target == WaitingFinalApproval ==> PassedOn(run.rec)) && (target == Completed ==> Finished(run.rec))
       case AddMessage(m) => PermittedMessage(cfg, run.rec, m)
       case AddGate(g) => PermittedGate(run.rec, g)
       case ResolveGate(g, _) => SameGate(run.rec, g)
       case CancelGate(g) => SameGate(run.rec, g)
       case SetFinal(_) => run.rec.state == WaitingFinalApproval
       case _ => true
  }

  ghost predicate AllPermitted(cfg: Config, run: RunState, ops: seq<Op>)
    decreases |ops|
  {
    ops != [] ==>
      && Permitted(cfg, run, ops[0])
      && (PerformOp(run, ops[0]).Some? ==> AllPermitted(cfg, PerformOp(run, ops[0]).value, ops[1..]))
  }

  // ----- Each operation keeps the invariant -----

  lemma RevisionsAppended(messages: seq<Message>, m: Message)
    ensures Revisions(messages + [m]) == Revisions(messages) + (match m.note case RevisionNote(n) => [n] case _ => [])
  {
    assert (messages + [m])[..|messages|] == messages;
  }

  lemma HashAppended(messages: seq<Message>, m: Message, runId: string)
    ensures !(m.note.QaNote? && m.note.evidenceHash.Some?) ==> RecordedHash(messages + [m], runId) == RecordedHash(messages, runId)
    ensures SoundNote(m, runId) && m.note.QaNote? && m.note.evidenceHash.Some? ==>
      RecordedHash(messages + [m], runId) == Ok(Some(m.note.evidenceHash.value))
  {
    assert (messages + [m])[..|messages|] == messages;
  }

  lemma FindReplaced(gates: seq<ApprovalGate>, i: nat, g: ApprovalGate, id: string)
    requires UniqueGates(gates) && i < |gates| && gates[i].gateId == g.gateId
    ensures Find(gates[i := g], id) == if id == g.gateId then Some(g) else Find(gates, id)
  {
    IndexIsUnique(gates, i);
    var gates' := gates[i := g];
    assert forall k :: 0 <= k < |gates| ==> gates'[k].gateId == gates[k].gateId;
    SameIndex(gates, gates', id);
  }

  lemma {:induction false} SameIndex(a: seq<ApprovalGate>, b: seq<ApprovalGate>, id: string)
    requires |a| == |b| && forall k :: 0 <= k < |a| ==> a[k].gateId == b[k].gateId
    ensures GateIndex(a, id) == GateIndex(b, id)
  {
    if a != [] && a[0].gateId != id { SameIndex(a[1..], b[1..], id); }
  }

  lemma OpenGateIndex(rec: SessionRecord, op: Op)
    requires op.ResolveGate? || op.CancelGate?
    requires Settled(rec) && Apply(rec, op).Commit?
    ensures GateIndex(rec.gates, op.gate.gateId).Some? && UniqueGates(rec.gates)
    ensures var i := GateIndex(rec.gates, op.gate.gateId).value;
      rec.gates[i].status == Open && Apply(rec, op).record.gates == rec.gates[i := op.gate]
  {
    hide UniqueResults, UniqueDecisions, GatesSettled, DecisionsSettled, FindDecision, FindResult;
  }

  // A resolved gate and its decision stay.
  lemma ApprovalStays(cfg: Config, run: RunState, op: Op, d: HumanDecision)
    requires Settled(run.rec) && Permitted(cfg, run, op) && Apply(run.rec, op).Commit? && ApprovedFinal(run.rec, d)
    ensures ApprovedFinal(Apply(run.rec, op).record, d)
  {
    hide Settled, UniqueGates, GateIndex, Permitted, ValidGate, ValidDecision;
    DecisionStays(run.rec, op, d);
    if op.AddGate? {
      FindAppended(run.rec.gates, op.gate, d.gateId);
    } else if op.ResolveGate? || op.CancelGate? {
      OpenGateIndex(run.rec, op);
      FindReplaced(run.rec.gates, GateIndex(run.rec.gates, op.gate.gateId).value, op.gate, d.gateId);
    } else {
      UntouchedGates(run.rec, op);
    }
  }

  lemma DecisionStays(rec: SessionRecord, op: Op, d: HumanDecision)
    requires Apply(rec, op).Commit? && d in rec.decisions
    ensures d in Apply(rec, op).record.decisions
  {
    ApplyAppends(rec, op);
  }

  lemma CommittedOp(run: RunState, op: Op)
    requires Apply(run.rec, op).Commit?
    ensures PerformOp(run, op).Some?
    ensures PerformOp(run, op).value.rec == Apply(run.rec, op).record.(revision := run.rec.revision + 1)
    ensures PerformOp(run, op).value.openings ==
      if op.AddGate? && op.gate.kind == "FINAL" then run.openings[op.gate.gateId := run.rec] else run.openings
  {
    hide Apply;
  }

  lemma NotCommitted(run: RunState, op: Op)
    requires !Apply(run.rec, op).Commit?
    ensures PerformOp(run, op) == None || PerformOp(run, op) == Some(run)
  {
    hide Apply;
  }

  lemma AppliedMessages(rec: SessionRecord, op: Op)
    requires Apply(rec, op).Commit?
    ensures Apply(rec, op).record.messages == if op.AddMessage? then rec.messages + [op.message] else rec.messages
    ensures Apply(rec, op).record.runId == rec.runId
  {
  }

  lemma AppliedResults(rec: SessionRecord, op: Op)
    requires Apply(rec, op).Commit?
    ensures rec.results <= Apply(rec, op).record.results
  {
    hide FindResult, FindDecision, GateIndex;
  }

  lemma AppliedState(rec: SessionRecord, op: Op)
    requires Apply(rec, op).Commit?
    ensures Apply(rec, op).record.state == if op.Transition? then op.target else rec.state
    ensures op.Transition? ==> op.target in AllowedTargets(rec.state)
    ensures Apply(rec, op).record.final == if op.SetFinal? then Some(op.final) else rec.final
    ensures Apply(rec, op).record.plan == if op.SetPlan? then Some(op.plan) else rec.plan
  {
  }

  lemma KeepsSoundNotes(cfg: Config, run: RunState, op: Op)
    requires SoundNotes(run.rec.messages, run.rec.runId) && Permitted(cfg, run, op) && Apply(run.rec, op).Commit?
    ensures SoundNotes(Apply(run.rec, op).record.messages, run.rec.runId)
  {
    hide Apply, GateOp, SameGate, PermittedGate, PassedOn, Finished;
    AppliedMessages(run.rec, op);
  }

  lemma KeepsNumbered(cfg: Config, run: RunState, op: Op)
    requires Numbered(cfg, run.rec.messages) && Permitted(cfg, run, op) && Apply(run.rec, op).Commit?
    ensures Numbered(cfg, Apply(run.rec, op).record.messages)
  {
    hide Apply, GateOp, SameGate, PermittedGate, PassedOn, Finished, Revisions;
    AppliedMessages(run.rec, op);
    if op.AddMessage? { RevisionsAppended(run.rec.messages, op.message); }
  }

  lemma FinalGatesAfter(cfg: Config, run: RunState, op: Op, g: ApprovalGate)
    requires Settled(run.rec) && Permitted(cfg, run, op) && Apply(run.rec, op).Commit?
    requires g in Apply(run.rec, op).record.gates && g.kind == "FINAL"
    ensures (op.AddGate? && g == op.gate)
      || (exists h :: h in run.rec.gates && h.kind == "FINAL" && h.gateId == g.gateId && h.context == g.context)
  {
    hide Apply, Settled, GateOp, UniqueGates, GateIndex, ValidGate, PassedOn, Finished, PermittedMessage;
    if op.AddGate? {
      AddedGate(run.rec, op.gate);
      if g != op.gate { assert g in run.rec.gates; }
    } else if op.ResolveGate? || op.CancelGate? {
      OpenGateIndex(run.rec, op);
      var i := GateIndex(run.rec.gates, op.gate.gateId).value;
      if g == op.gate {
        var h := Find(run.rec.gates, op.gate.gateId).value;
        assert h in run.rec.gates;
      } else {
        assert g in run.rec.gates;
      }
    } else {
      UntouchedGates(run.rec, op);
      assert g in run.rec.gates;
    }
  }

  lemma NewGateIsNew(rec: SessionRecord, g: ApprovalGate, h: ApprovalGate)
    requires Apply(rec, AddGate(g)).Commit? && h in rec.gates
    ensures h.gateId != g.gateId
  {
  }

  lemma KeepsFinalGates(cfg: Config, run: RunState, op: Op)
    requires Settled(run.rec) && FinalGatesOpened(run) && Permitted(cfg, run, op) && Apply(run.rec, op).Commit?
    ensures FinalGatesOpened(PerformOp(run, op).value)
  {
    hide Apply, Settled, GateOp, UniqueGates, GateIndex, ValidGate, PassedOn, Finished, PermittedMessage, PerformOp, RecordedHash, SameGate;
    CommittedOp(run, op);
    AppliedResults(run.rec, op);
    var run' := PerformOp(run, op).value;
    forall g | g in run'.rec.gates && g.kind == "FINAL" ensures WellOpened(run', g) {
      FinalGatesAfter(cfg, run, op, g);
      if op.AddGate? && g == op.gate {
        assert PermittedGate(run.rec, g);
      } else {
        var h :| h in run.rec.gates && h.kind == "FINAL" && h.gateId == g.gateId && h.context == g.context;
        assert WellOpened(run, h);
        if op.AddGate? { NewGateIsNew(run.rec, op.gate, h); }
      }
    }
  }

  lemma KeepsBound(cfg: Config, run: RunState, op: Op)
    requires BoundToEvidence(run.rec) && Permitted(cfg, run, op) && Apply(run.rec, op).Commit? && run.rec.state == Completed
    ensures BoundToEvidence(Apply(run.rec, op).record)
  {
    hide Apply, GateOp, SameGate, PermittedGate, PassedOn, Finished, RecordedHash;
    AppliedMessages(run.rec, op);
    AppliedState(run.rec, op);
    if op.AddMessage? { HashAppended(run.rec.messages, op.message, run.rec.runId); }
  }

  lemma KeepsFinished(cfg: Config, run: RunState, op: Op)
    requires Settled(run.rec) && Finished(run.rec) && Permitted(cfg, run, op) && Apply(run.rec, op).Commit?
    requires run.rec.state == Completed || op == Transition(Completed)
    ensures Finished(Apply(run.rec, op).record)
  {
    hide Apply, Settled, Permitted, ApprovedFinal, BoundToEvidence;
    var d :| ApprovedFinal(run.rec, d);
    ApprovalStays(cfg, run, op, d);
    if run.rec.state == Completed { KeepsBound(cfg, run, op); } else { CompletingChangesTheState(run.rec); }
  }

  lemma CompletingChangesTheState(rec: SessionRecord)
    requires Apply(rec, Transition(Completed)).Commit?
    ensures BoundToEvidence(Apply(rec, Transition(Completed)).record) == BoundToEvidence(rec)
  {
    hide RecordedHash;
  }

  lemma OpKeepsInv(cfg: Config, run: RunState, op: Op)
    requires Inv(cfg, run) && Permitted(cfg, run, op) && Apply(run.rec, op).Commit?
    ensures Inv(cfg, PerformOp(run, op).value)
  {
    hide Apply, Settled, SoundNotes, Numbered, FinalGatesOpened, Finished, GateOp, SameGate, PermittedGate, PermittedMessage, PassedOn, PerformOp;
    OpKeepsSettled(run.rec, op);
    SettledIgnoresRevision(Apply(run.rec, op).record, run.rec.revision + 1);
    KeepsSoundNotes(cfg, run, op);
    KeepsNumbered(cfg, run, op);
    KeepsFinalGates(cfg, run, op);
    CommittedOp(run, op);
    AppliedState(run.rec, op);
    AppliedMessages(run.rec, op);
    if op == Transition(Completed) || run.rec.state == Completed {
      if !op.Transition? || op == Transition(Completed) {
        KeepsFinished(cfg, run, op);
        FinishedIgnoresRevision(Apply(run.rec, op).record, run.rec.revision + 1);
      }
    }
  }

  lemma FinishedIgnoresRevision(rec: SessionRecord, revision: nat)
    requires Finished(rec)
    ensures Finished(rec.(revision := revision))
  {
    hide RecordedHash;
    var d :| ApprovedFinal(rec, d);
    assert ApprovedFinal(rec.(revision := revision), d);
  }
}
