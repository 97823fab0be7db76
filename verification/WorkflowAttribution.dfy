/**
 Which decision a plan is executed under and which one a result completes under, when commands overlap: the client that
 carried it out decided earlier, on a record that may have changed since.
 */
module WorkflowAttribution {
  import opened Wrappers
  import opened Contracts
  import opened Text
  import opened SessionStore
  import opened Approvals
  import opened RestartTransparency
  import opened Supervisor
  import opened Authorization
  import opened Workflow
  import opened WorkflowSafety
  import opened WorkflowCoverage
  import opened WorkflowOverlap

  // ----- What was decided stays decided -----

  ghost predicate Approves(rec: SessionRecord, d: HumanDecision) { IsRecordedIn(rec, d) && d.decision == Approve }

  lemma {:induction false} FoundStays(decisions: seq<HumanDecision>, d: HumanDecision, id: string)
    requires FindDecision(decisions, id).Some?
    ensures FindDecision(decisions + [d], id) == FindDecision(decisions, id)
  {
    assert (decisions + [d])[1..] == decisions[1..] + [d];
    if decisions[0].gateId != id { FoundStays(decisions[1..], d, id); }
  }

  // A closing operation finds the gate open.
  lemma ClosedGateWasOpen(rec: SessionRecord, op: Op)
    requires (op.ResolveGate? || op.CancelGate?) && Apply(rec, op).Commit?
    ensures Find(rec.gates, op.gate.gateId).Some? && Find(rec.gates, op.gate.gateId).value.status == Open
  {
    hide FindDecision;
  }

  lemma ResolvedGateStays(rec: SessionRecord, op: Op, id: string)
    requires UniqueGates(rec.gates) && Sane(rec, op) && Apply(rec, op).Commit?
    requires Find(rec.gates, id).Some? && Find(rec.gates, id).value.status == Resolved
    ensures Find(Apply(rec, op).record.gates, id) == Find(rec.gates, id)
  {
    hide Apply, GateIndex, SoundNote, UniqueGates, Find, SameGate;
    if op.AddGate? {
      AddedGate(rec, op.gate);
      FindAppended(rec.gates, op.gate, id);
    } else if op.ResolveGate? || op.CancelGate? {
      ClosedGate(rec, op);
      ClosedGateWasOpen(rec, op);
      FindReplaced(rec.gates, GateIndex(rec.gates, op.gate.gateId).value, op.gate, id);
    } else {
      UntouchedGates(rec, op);
    }
  }

  lemma DecisionIsKept(rec: SessionRecord, op: Op, id: string)
    requires Apply(rec, op).Commit? && FindDecision(rec.decisions, id).Some?
    ensures FindDecision(Apply(rec, op).record.decisions, id) == FindDecision(rec.decisions, id)
  {
    hide Apply, FindDecision;
    ApplyAppends(rec, op);
    if op.AddDecision? || op.ResolveGate? { FoundStays(rec.decisions, op.decision, id); }
    else { assert rec.decisions + [] == rec.decisions; }
  }

  lemma ApprovalStays(rec: SessionRecord, op: Op, d: HumanDecision, revision: nat)
    requires UniqueGates(rec.gates) && Sane(rec, op) && Apply(rec, op).Commit? && Approves(rec, d)
    ensures Approves(Apply(rec, op).record.(revision := revision), d)
    ensures Find(Apply(rec, op).record.gates, d.gateId) == Find(rec.gates, d.gateId)
  {
    hide Apply, FindDecision, Find, UniqueGates, Sane, ValidDecision;
    ResolvedGateStays(rec, op, d.gateId);
    DecisionIsKept(rec, op, d.gateId);
    AppliedMessages(rec, op);
  }

  // ----- What a client that decided is about to do -----

  // The final result carries the evidence noted last when its client decided, on a recorded APPROVE of a FINAL gate.
  ghost predicate Binds(rec: SessionRecord, log: seq<Op>, choice: Decided, f: FinalResult) {
    && choice.cmd.FinalDecision? && choice.at <= |log| && Approves(rec, choice.cmd.recorded)
    && Find(rec.gates, choice.cmd.recorded.gateId).value.kind == "FINAL"
    && LastEvidence(log[..choice.at]).Some? && f.evidenceHash == LastEvidence(log[..choice.at])
  }

  // The tool gate was answered with APPROVE.
  ghost predicate ApprovedTool(rec: SessionRecord, id: string) {
    && Find(rec.gates, id).Some? && Find(rec.gates, id).value.kind == "TOOL_RISK" && Find(rec.gates, id).value.status == Resolved
    && FindDecision(rec.decisions, id).Some? && FindDecision(rec.decisions, id).value.decision == Approve
  }

  // What moves a run to EXECUTING: a recorded APPROVE, and a tool gate that was approved.
  ghost predicate Starts(rec: SessionRecord, cmd: Command) {
    match cmd
    case ArchitectureDecision(d) => Approves(rec, d)
    case ResumeTool(t) => ApprovedTool(rec, t.gateId)
    case _ => false
  }

  ghost predicate Does(rec: SessionRecord, log: seq<Op>, choice: Decided, op: Op) {
    && (op.SetFinal? ==> Binds(rec, log, choice, op.final))
    && (op == Transition(Executing) ==>
          choice.cmd.ResumeTool? || (choice.cmd.ArchitectureDecision? && Approves(rec, choice.cmd.recorded) && rec.plan.Some?))
  }

  // A client that is about to complete the run has stored a final result, or finds one.
  ghost predicate Concluding(rec: SessionRecord, ops: seq<Op>) {
    forall i :: 0 <= i < |ops| && ops[i] == Transition(Completed) ==> rec.final.Some? || StoresBefore(ops, i)
  }

  ghost predicate StoresBefore(ops: seq<Op>, i: nat)
    requires i <= |ops|
  {
    exists j :: 0 <= j < i && ops[j].SetFinal?
  }

  // A client that is about to resume has approved its tool gate, or finds it approved.
  predicate Unlocks(op: Op, id: string) {
    && op.ResolveGate? && op.gate.gateId == id && op.gate.kind == "TOOL_RISK" && op.decision.decision == Approve
  }

  ghost predicate UnlocksBefore(ops: seq<Op>, i: nat, id: string)
    requires i <= |ops|
  {
    exists j :: 0 <= j < i && Unlocks(ops[j], id)
  }

  ghost predicate Resuming(rec: SessionRecord, cmd: Command, ops: seq<Op>) {
    cmd.ResumeTool? ==>
      forall i :: 0 <= i < |ops| && ops[i] == Transition(Executing) ==>
        ApprovedTool(rec, cmd.verdict.gateId) || UnlocksBefore(ops, i, cmd.verdict.gateId)
  }

  ghost predicate Carries(rec: SessionRecord, log: seq<Op>, choice: Decided, ops: seq<Op>) {
    choice.at <= |log| && (forall op :: op in ops ==> Does(rec, log, choice, op)) && Concluding(rec, ops) && Resuming(rec, choice.cmd, ops)
  }

  // Every opened gate is still there and shows what it showed.
  ghost predicate GatesKept(rec: SessionRecord, log: seq<Op>) { forall op :: op in log && op.AddGate? ==> SameGate(rec, op.gate) }

  // The run was moved to EXECUTING at this point of the log and not again since.
  predicate LastEntry(log: seq<Op>, n: nat) {
    n < |log| && log[n] == Transition(Executing) && forall k :: n < k < |log| ==> log[k] != Transition(Executing)
  }

  ghost predicate WellStarted(rec: SessionRecord, log: seq<Op>, started: Option<Started>) {
    && (rec.state == Executing ==> started.Some?)
    && (started.Some? ==>
          && LastEntry(log, started.value.at) && Starts(rec, started.value.choice.cmd)
          && (started.value.choice.cmd.ArchitectureDecision? ==> LastPlan(log[..started.value.at]).Some?))
  }

  ghost predicate WellBound(rec: SessionRecord, log: seq<Op>, bound: Option<Decided>) {
    && (rec.final.Some? ==> bound.Some? && Binds(rec, log, bound.value, rec.final.value))
    && (rec.state == Completed ==> rec.final.Some?)
  }

  ghost predicate Attributed(s: Shared) {
    && GatesKept(s.run.rec, s.log) && WellStarted(s.run.rec, s.log, s.started) && WellBound(s.run.rec, s.log, s.bound)
    && forall c :: c in s.pending ==> c in s.decided && Carries(s.run.rec, s.log, s.decided[c], s.pending[c])
  }

  lemma SamePrefix(log: seq<Op>, op: Op, n: nat)
    requires n <= |log|
    ensures (log + [op])[..n] == log[..n]
  {
  }

  lemma BindsStays(rec: SessionRecord, log: seq<Op>, op: Op, choice: Decided, f: FinalResult, revision: nat)
    requires UniqueGates(rec.gates) && Sane(rec, op) && Apply(rec, op).Commit? && Binds(rec, log, choice, f)
    ensures Binds(Apply(rec, op).record.(revision := revision), log + [op], choice, f)
  {
    hide Apply, UniqueGates, Sane, Approves, LastEvidence, Find;
    ApprovalStays(rec, op, choice.cmd.recorded, revision);
    SamePrefix(log, op, choice.at);
  }

  lemma StartsStays(rec: SessionRecord, op: Op, cmd: Command, revision: nat)
    requires UniqueGates(rec.gates) && Sane(rec, op) && Apply(rec, op).Commit? && Starts(rec, cmd)
    ensures Starts(Apply(rec, op).record.(revision := revision), cmd)
  {
    hide Apply, UniqueGates, Sane, Approves, ApprovedTool;
    if cmd.ArchitectureDecision? { ApprovalStays(rec, op, cmd.recorded, revision); }
    if cmd.ResumeTool? { ApprovedToolStays(rec, op, cmd.verdict.gateId, revision); }
  }

  lemma ApprovedToolStays(rec: SessionRecord, op: Op, id: string, revision: nat)
    requires UniqueGates(rec.gates) && Sane(rec, op) && Apply(rec, op).Commit? && ApprovedTool(rec, id)
    ensures ApprovedTool(Apply(rec, op).record.(revision := revision), id)
  {
    hide Apply, FindDecision, Find, UniqueGates, Sane;
    ResolvedGateStays(rec, op, id);
    DecisionIsKept(rec, op, id);
  }

  lemma UnlockingApproves(rec: SessionRecord, op: Op, id: string, revision: nat)
    requires UniqueGates(rec.gates) && Unlocks(op, id) && Sane(rec, op) && Apply(rec, op).Commit?
    ensures ApprovedTool(Apply(rec, op).record.(revision := revision), id)
  {
    ClosedGate(rec, op);
    var i := GateIndex(rec.gates, id).value;
    FindReplaced(rec.gates, i, op.gate, id);
    ResolvingRecords(rec, op);
    hide GateIndex, FindDecision, Apply;
  }

  lemma ResolvingRecords(rec: SessionRecord, op: Op)
    requires op.ResolveGate? && Apply(rec, op).Commit?
    ensures FindDecision(Apply(rec, op).record.decisions, op.gate.gateId) == Some(op.decision) && op.gate.status == Resolved
  {
    hide GateIndex;
    LastDecisionIsFound(rec.decisions, op.decision);
  }

  lemma {:induction false} LastDecisionIsFound(decisions: seq<HumanDecision>, d: HumanDecision)
    requires FindDecision(decisions, d.gateId).None?
    ensures FindDecision(decisions + [d], d.gateId) == Some(d)
  {
    if decisions != [] {
      assert (decisions + [d])[1..] == decisions[1..] + [d];
      LastDecisionIsFound(decisions[1..], d);
    }
  }

  lemma DoesStays(rec: SessionRecord, log: seq<Op>, op: Op, choice: Decided, other: Op, revision: nat)
    requires UniqueGates(rec.gates) && Sane(rec, op) && Apply(rec, op).Commit? && Does(rec, log, choice, other)
    ensures Does(Apply(rec, op).record.(revision := revision), log + [op], choice, other)
  {
    hide Apply, UniqueGates, Sane, Approves, Binds;
    AppliedState(rec, op);
    if other.SetFinal? { BindsStays(rec, log, op, choice, other.final, revision); }
    if other == Transition(Executing) && choice.cmd.ArchitectureDecision? { ApprovalStays(rec, op, choice.cmd.recorded, revision); }
  }

  lemma CarriesStays(rec: SessionRecord, log: seq<Op>, op: Op, choice: Decided, ops: seq<Op>, revision: nat)
    requires UniqueGates(rec.gates) && Sane(rec, op) && Apply(rec, op).Commit? && Carries(rec, log, choice, ops)
    ensures Carries(Apply(rec, op).record.(revision := revision), log + [op], choice, ops)
  {
    hide Apply, UniqueGates, Sane, Does, ApprovedTool, UnlocksBefore;
    AppliedState(rec, op);
    if choice.cmd.ResumeTool? && ApprovedTool(rec, choice.cmd.verdict.gateId) { ApprovedToolStays(rec, op, choice.cmd.verdict.gateId, revision); }
    forall other | other in ops ensures Does(Apply(rec, op).record.(revision := revision), log + [op], choice, other) {
      DoesStays(rec, log, op, choice, other, revision);
    }
  }

  // The rest of a script, once its first operation was carried out.
  lemma RestConcludes(rec: SessionRecord, ops: seq<Op>)
    requires ops != [] && Concluding(rec, ops) && (ops[0].SetFinal? ==> rec.final.Some?)
    ensures Concluding(rec, ops[1..])
  {
    hide StoresBefore;
    forall i | 0 <= i < |ops| - 1 && ops[1..][i] == Transition(Completed) ensures rec.final.Some? || StoresBefore(ops[1..], i) {
      assert ops[i + 1] == Transition(Completed);
      if rec.final.None? { StoredLater(ops, i + 1); }
    }
  }

  lemma StoredLater(ops: seq<Op>, i: nat)
    requires 0 < i <= |ops| && StoresBefore(ops, i) && !ops[0].SetFinal?
    ensures StoresBefore(ops[1..], i - 1)
  {
    var j :| 0 <= j < i && ops[j].SetFinal?;
    assert ops[1..][j - 1] == ops[j];
  }

  lemma RestResumes(rec: SessionRecord, cmd: Command, ops: seq<Op>)
    requires ops != [] && Resuming(rec, cmd, ops)
    requires cmd.ResumeTool? && Unlocks(ops[0], cmd.verdict.gateId) ==> ApprovedTool(rec, cmd.verdict.gateId)
    ensures Resuming(rec, cmd, ops[1..])
  {
    hide UnlocksBefore, ApprovedTool;
    if cmd.ResumeTool? {
      var id := cmd.verdict.gateId;
      forall i | 0 <= i < |ops| - 1 && ops[1..][i] == Transition(Executing) ensures ApprovedTool(rec, id) || UnlocksBefore(ops[1..], i, id) {
        assert ops[i + 1] == Transition(Executing);
        if !ApprovedTool(rec, id) { UnlocksLater(ops, i + 1, id); }
      }
    }
  }

  lemma UnlocksLater(ops: seq<Op>, i: nat, id: string)
    requires 0 < i <= |ops| && UnlocksBefore(ops, i, id) && !Unlocks(ops[0], id)
    ensures UnlocksBefore(ops[1..], i - 1, id)
  {
    var j :| 0 <= j < i && Unlocks(ops[j], id);
    assert ops[1..][j - 1] == ops[j];
  }

  lemma RestCarries(rec: SessionRecord, log: seq<Op>, choice: Decided, ops: seq<Op>)
    requires ops != [] && Carries(rec, log, choice, ops) && (ops[0].SetFinal? ==> rec.final.Some?)
    requires choice.cmd.ResumeTool? && Unlocks(ops[0], choice.cmd.verdict.gateId) ==> ApprovedTool(rec, choice.cmd.verdict.gateId)
    ensures Carries(rec, log, choice, ops[1..])
  {
    hide Does, Concluding, Resuming, ApprovedTool;
    RestConcludes(rec, ops);
    RestResumes(rec, choice.cmd, ops);
  }

  lemma NothingCarried(rec: SessionRecord, log: seq<Op>, choice: Decided)
    requires choice.at <= |log|
    ensures Carries(rec, log, choice, [])
  {
  }

  lemma GatesStayKept(rec: SessionRecord, log: seq<Op>, op: Op, revision: nat)
    requires UniqueGates(rec.gates) && Sane(rec, op) && Apply(rec, op).Commit? && GatesKept(rec, log)
    ensures GatesKept(Apply(rec, op).record.(revision := revision), log + [op])
  {
    hide Apply, UniqueGates, Sane, SameGate;
    forall other | other in log + [op] && other.AddGate? ensures SameGate(Apply(rec, op).record.(revision := revision), other.gate) {
      if other in log { SameGateStays(rec, op, other.gate); } else { AddedIsKept(rec, op.gate); }
      SameGateIgnoresRevision(Apply(rec, op).record, other.gate, revision);
    }
  }

  lemma AddedIsKept(rec: SessionRecord, g: ApprovalGate)
    requires Apply(rec, AddGate(g)).Commit?
    ensures SameGate(Apply(rec, AddGate(g)).record, g)
  {
    hide GateIndex;
    NewGateId(rec, g);
    LastIsFound(rec.gates, g);
  }

  lemma {:induction false} LastIsFound(gates: seq<ApprovalGate>, g: ApprovalGate)
    requires GateIndex(gates, g.gateId).None?
    ensures GateIndex(gates + [g], g.gateId) == Some(|gates|)
  {
    if gates != [] {
      assert (gates + [g])[1..] == gates[1..] + [g];
      LastIsFound(gates[1..], g);
    }
  }

  lemma SameGateIgnoresRevision(rec: SessionRecord, g: ApprovalGate, revision: nat)
    requires SameGate(rec, g)
    ensures SameGate(rec.(revision := revision), g)
  {
  }

  // ----- One operation of one client -----

  lemma StartedStays(rec: SessionRecord, log: seq<Op>, op: Op, started: Option<Started>, revision: nat)
    requires UniqueGates(rec.gates) && Sane(rec, op) && Apply(rec, op).Commit? && WellStarted(rec, log, started) && op != Transition(Executing)
    ensures WellStarted(Apply(rec, op).record.(revision := revision), log + [op], started)
  {
    hide Apply, UniqueGates, Sane, Starts, LastPlan;
    AppliedState(rec, op);
    if started.Some? {
      StartsStays(rec, op, started.value.choice.cmd, revision);
      SamePrefix(log, op, started.value.at);
    }
  }

  lemma NewlyStarted(rec: SessionRecord, log: seq<Op>, choice: Decided, revision: nat)
    requires UniqueGates(rec.gates) && rec.plan == LastPlan(log) && Apply(rec, Transition(Executing)).Commit?
    requires Starts(rec, choice.cmd) && (choice.cmd.ArchitectureDecision? ==> rec.plan.Some?)
    ensures WellStarted(Apply(rec, Transition(Executing)).record.(revision := revision), log + [Transition(Executing)], Some(Started(choice, |log|)))
  {
    hide Apply, UniqueGates, Starts, LastPlan;
    StartsStays(rec, Transition(Executing), choice.cmd, revision);
    SamePrefix(log, Transition(Executing), |log|);
    assert log[..|log|] == log;
  }

  lemma BoundStays(rec: SessionRecord, log: seq<Op>, op: Op, choice: Decided, bound: Option<Decided>, ops: seq<Op>, revision: nat)
    requires UniqueGates(rec.gates) && Sane(rec, op) && Apply(rec, op).Commit? && WellBound(rec, log, bound)
    requires ops != [] && ops[0] == op && Carries(rec, log, choice, ops)
    ensures WellBound(Apply(rec, op).record.(revision := revision), log + [op], if op.SetFinal? then Some(choice) else bound)
  {
    hide Apply, UniqueGates, Sane, Binds;
    AppliedState(rec, op);
    assert Does(rec, log, choice, op);
    if op.SetFinal? {
      BindsStays(rec, log, op, choice, op.final, revision);
    } else if rec.final.Some? {
      BindsStays(rec, log, op, bound.value, rec.final.value, revision);
    }
  }

  lemma RefusedAtOnce(run: RunState, op: Op)
    requires (op.SetFinal? || op.ResolveGate?) && !Apply(run.rec, op).Commit?
    ensures PerformOp(run, op).None?
  {
  }

  lemma StoredParts(s': Shared, s: Shared, c: nat, op: Op)
    requires c in s.decided
    ensures var t := Stored(s', s, c, op);
      && t.run == s'.run && t.pending == s'.pending && t.log == s'.log && t.decided == s'.decided
      && t.started == (if op == Transition(Executing) then Some(Started(s.decided[c], |s.log|)) else s'.started)
      && t.bound == (if op.SetFinal? then Some(s.decided[c]) else s'.bound)
  {
  }

  lemma CommitKeepsAttributed(cfg: Config, s: Shared, c: nat)
    requires Coherent(s) && Attributed(s) && c in s.pending && s.pending[c] != [] && Apply(s.run.rec, s.pending[c][0]).Commit?
    ensures Attributed(Take(cfg, s, Operate(c)))
  {
    hide Apply, PerformOp, Logged, Fits, Carries, GatesKept, WellStarted, WellBound, Stored, LastPlan, Does, ApprovedTool, Starts, Sane, UniqueGates;
    var ops := s.pending[c];
    var op, choice, revision := ops[0], s.decided[c], s.run.rec.revision + 1;
    var rec := s.run.rec;
    CommittedOp(s.run, op);
    UniqueWhenLogged(rec, s.log);
    FirstIsSane(rec, ops);
    var s' := Take(cfg, s, Operate(c));
    StoredParts(s.(run := PerformOp(s.run, op).value, pending := s.pending[c := ops[1..]], log := s.log + [op]), s, c, op);
    GatesStayKept(rec, s.log, op, revision);
    if op == Transition(Executing) {
      FirstStarts(rec, s.log, choice, ops);
      PlanIsLogged(rec, s.log);
      NewlyStarted(rec, s.log, choice, revision);
    } else {
      StartedStays(rec, s.log, op, s.started, revision);
    }
    BoundStays(rec, s.log, op, choice, s.bound, ops, revision);
    CarriesStays(rec, s.log, op, choice, ops, revision);
    AppliedState(rec, op);
    if choice.cmd.ResumeTool? && Unlocks(op, choice.cmd.verdict.gateId) { UnlockingApproves(rec, op, choice.cmd.verdict.gateId, revision); }
    RestCarries(s'.run.rec, s'.log, choice, ops);
    forall d | d in s'.pending && d != c ensures d in s'.decided && Carries(s'.run.rec, s'.log, s'.decided[d], s'.pending[d]) {
      CarriesStays(rec, s.log, op, s.decided[d], s.pending[d], revision);
    }
  }

  lemma FirstStarts(rec: SessionRecord, log: seq<Op>, choice: Decided, ops: seq<Op>)
    requires ops != [] && ops[0] == Transition(Executing) && Carries(rec, log, choice, ops)
    ensures Starts(rec, choice.cmd) && (choice.cmd.ArchitectureDecision? ==> rec.plan.Some?)
  {
    hide Approves, ApprovedTool, Concluding;
    assert Does(rec, log, choice, ops[0]);
  }

  lemma PlanIsLogged(rec: SessionRecord, log: seq<Op>)
    requires Logged(rec, log)
    ensures rec.plan == LastPlan(log)
  {
    hide LastPlan;
  }

  lemma OperateKeepsAttributed(cfg: Config, s: Shared, c: nat)
    requires Coherent(s) && Attributed(s)
    ensures Attributed(Take(cfg, s, Operate(c)))
  {
    hide Apply, PerformOp, Coherent, Carries, GatesKept, WellStarted, WellBound, Stored;
    if c in s.pending && s.pending[c] != [] {
      var ops := s.pending[c];
      if Apply(s.run.rec, ops[0]).Commit? {
        CommitKeepsAttributed(cfg, s, c);
      } else {
        NotCommitted(s.run, ops[0]);
        DecidedEarlier(s.run.rec, s.log, s.decided[c], ops);
        NothingCarried(s.run.rec, s.log, s.decided[c]);
        if ops[0].SetFinal? || ops[0].ResolveGate? { RefusedAtOnce(s.run, ops[0]); } else { RestCarries(s.run.rec, s.log, s.decided[c], ops); }
      }
    }
  }

  lemma DecidedEarlier(rec: SessionRecord, log: seq<Op>, choice: Decided, ops: seq<Op>)
    requires Carries(rec, log, choice, ops)
    ensures choice.at <= |log|
  {
    hide Does, Concluding;
  }

  // ----- What a client decides -----

  // Operations that neither start or complete the run nor store a result.
  predicate Inconclusive(op: Op) { !op.SetFinal? && op != Transition(Completed) && op != Transition(Executing) }

  lemma InconclusiveCarries(rec: SessionRecord, log: seq<Op>, choice: Decided, ops: seq<Op>)
    requires choice.at <= |log| && forall op :: op in ops ==> Inconclusive(op)
    ensures Carries(rec, log, choice, ops)
  {
    hide Binds, Approves, ApprovedTool, UnlocksBefore;
    forall i | 0 <= i < |ops| ensures ops[i] != Transition(Completed) && ops[i] != Transition(Executing) { assert Inconclusive(ops[i]); }
    forall op | op in ops ensures Does(rec, log, choice, op) { assert Inconclusive(op); }
  }

  lemma OthersAreInconclusive(cfg: Config, rec: SessionRecord, cmd: Command)
    requires !cmd.ArchitectureDecision? && !cmd.FinalDecision? && !cmd.Supervise? && !cmd.ResumeTool? && !cmd.Answer?
    ensures forall op :: op in Script(cfg, rec, cmd) ==> Inconclusive(op)
  {
    hide Find, Revisions, ValidGate, Matching, PlanRisk, PlanRequest;
  }

  lemma AnswersAreInconclusive(cfg: Config, rec: SessionRecord, cmd: Command)
    requires cmd.Answer?
    ensures forall op :: op in Script(cfg, rec, cmd) ==> Inconclusive(op)
  {
    hide ValidGate, ValidDecision, Blank, Strip, Find;
  }

  lemma SupervisionIsInconclusive(cfg: Config, rec: SessionRecord, cmd: Command)
    requires cmd.Supervise?
    ensures forall op :: op in Script(cfg, rec, cmd) ==> Inconclusive(op)
  {
    hide Evaluate, EvidenceOf, Enumerates, ValidGate, Revisions;
  }

  lemma ResumeCarries(cfg: Config, rec: SessionRecord, log: seq<Op>, t: ToolVerdict)
    ensures Carries(rec, log, Decided(ResumeTool(t), |log|), Script(cfg, rec, ResumeTool(t)))
  {
    hide ValidGate, ValidDecision, Blank, Strip, GateIndex, Revisions, Binds, ApprovedTool;
    var ops := Script(cfg, rec, ResumeTool(t));
    forall i | 0 <= i < |ops| ensures ops[i] != Transition(Completed) && !ops[i].SetFinal? {}
    if Transition(Executing) in ops {
      GateHasItsId(rec.gates, t.gateId);
      assert Unlocks(ops[0], t.gateId);
      forall i | 0 <= i < |ops| && ops[i] == Transition(Executing) ensures UnlocksBefore(ops, i, t.gateId) {}
    }
  }

  lemma GateHasItsId(gates: seq<ApprovalGate>, id: string)
    requires Find(gates, id).Some?
    ensures Find(gates, id).value.gateId == id
  {
  }

  lemma ArchitectureCarries(cfg: Config, rec: SessionRecord, log: seq<Op>, d: HumanDecision)
    requires Logged(rec, log)
    ensures Carries(rec, log, Decided(ArchitectureDecision(d), |log|), Script(cfg, rec, ArchitectureDecision(d)))
  {
    hide IsRecordedIn, Revisions, Shown, LastShown, LastPlan, RecordedHash, UniqueGates, Binds;
    var ops := Script(cfg, rec, ArchitectureDecision(d));
    forall i | 0 <= i < |ops| ensures ops[i] != Transition(Completed) && !ops[i].SetFinal? {}
  }

  lemma FinalCarries(cfg: Config, rec: SessionRecord, log: seq<Op>, d: HumanDecision, final: Option<FinalResult>)
    requires Logged(rec, log)
    ensures Carries(rec, log, Decided(FinalDecision(d, final), |log|), Script(cfg, rec, FinalDecision(d, final)))
  {
    hide IsRecordedIn, Revisions, Shown, LastShown, LastPlan, LastEvidence, RecordedHash, UniqueGates, ValidFinal;
    assert log[..|log|] == log;
    var ops := Script(cfg, rec, FinalDecision(d, final));
    if ops != [] && d.decision == Approve && CompletionScript(rec, d, final) != [] {
      assert ops == [AddDecision(d), CompletionScript(rec, d, final)[0], Transition(Completed)];
      assert ops[1].SetFinal?;
    }
  }

  lemma ScriptCarries(cfg: Config, rec: SessionRecord, log: seq<Op>, cmd: Command)
    requires Logged(rec, log)
    ensures Carries(rec, log, Decided(cmd, |log|), Script(cfg, rec, cmd))
  {
    hide Logged, Carries, Script, Inconclusive;
    match cmd {
      case ArchitectureDecision(d) => ArchitectureCarries(cfg, rec, log, d);
      case FinalDecision(d, final) => FinalCarries(cfg, rec, log, d, final);
      case Supervise(_, _, _, _) =>
        SupervisionIsInconclusive(cfg, rec, cmd);
        InconclusiveCarries(rec, log, Decided(cmd, |log|), Script(cfg, rec, cmd));
      case ResumeTool(t) => ResumeCarries(cfg, rec, log, t);
      case Answer(_, _, _, _, _) =>
        AnswersAreInconclusive(cfg, rec, cmd);
        InconclusiveCarries(rec, log, Decided(cmd, |log|), Script(cfg, rec, cmd));
      case _ =>
        OthersAreInconclusive(cfg, rec, cmd);
        InconclusiveCarries(rec, log, Decided(cmd, |log|), Script(cfg, rec, cmd));
    }
  }

  lemma MoveKeepsAttributed(cfg: Config, s: Shared, m: Move)
    requires Coherent(s) && Attributed(s)
    ensures Attributed(Take(cfg, s, m))
  {
    hide Logged, Fits, Script, PerformOp, Apply, Carries, GatesKept, WellStarted, WellBound, Stored;
    match m {
      case Check(c, cmd) => ScriptCarries(cfg, s.run.rec, s.log, cmd);
      case Operate(c) => OperateKeepsAttributed(cfg, s, c);
    }
  }

  lemma {:induction false} MovesKeepAttributed(cfg: Config, s: Shared, moves: seq<Move>)
    requires Coherent(s) && Attributed(s)
    ensures Attributed(TakeAll(cfg, s, moves))
    decreases |moves|
  {
    hide Coherent, Attributed, Take;
    if moves != [] {
      MoveKeepsCoherent(cfg, s, moves[0]);
      MoveKeepsAttributed(cfg, s, moves[0]);
      MovesKeepAttributed(cfg, Take(cfg, s, moves[0]), moves[1..]);
    }
  }

  lemma EveryRunIsAttributed(cfg: Config, runId: string, moves: seq<Move>)
    ensures var s := TakeAll(cfg, Begin(runId), moves);
      Attributed(s) && Logged(s.run.rec, s.log)
  {
    hide TakeAll, Attributed, Logged;
    assert Attributed(Begin(runId)) && Coherent(Begin(runId)) by { NothingAttributed(runId); }
    MovesKeepAttributed(cfg, Begin(runId), moves);
    TheLogDecides(cfg, runId, moves);
  }

  lemma NothingAttributed(runId: string)
    ensures Attributed(Begin(runId)) && Coherent(Begin(runId))
  {
  }

  // ----- What the gate of a decision showed at a point of the log -----

  // The gate of a kind that was opened last.
  function LastOpened(log: seq<Op>, kind: string): Option<ApprovalGate> {
    if log == [] then None
    else
      var last := log[|log| - 1];
      if last.AddGate? && last.gate.kind == kind then Some(last.gate) else LastOpened(log[..|log| - 1], kind)
  }

  lemma {:induction false} LastOpenedIsShown(log: seq<Op>, kind: string)
    ensures LastShown(log, kind) == match LastOpened(log, kind) case None => None case Some(g) => Some(g.context)
    ensures LastOpened(log, kind).Some? ==> AddGate(LastOpened(log, kind).value) in log
  {
    if log != [] {
      var before := log[..|log| - 1];
      assert log == before + [log[|log| - 1]];
      LastOpenedIsShown(before, kind);
    }
  }

  // At a point of the log, the gate was the one of its kind that was opened last, or showed what that one shows.
  predicate AsNewest(log: seq<Op>, n: nat, kind: string, g: ApprovalGate)
    requires n <= |log|
  {
    && LastOpened(log[..n], kind).Some?
    && (LastOpened(log[..n], kind).value.gateId == g.gateId || LastOpened(log[..n], kind).value.context == g.context)
  }

  lemma ShowsExactly(rec: SessionRecord, log: seq<Op>, n: nat, kind: string, id: string, wanted: GateContext)
    requires GatesKept(rec, log) && n <= |log| && Find(rec.gates, id).Some?
    ensures var g := Find(rec.gates, id).value;
      && (LastShown(log[..n], kind) == Some(wanted) ==> (g.context == wanted <==> AsNewest(log, n, kind, g)))
      && (LastShown(log[..n], kind) != Some(wanted) && AsNewest(log, n, kind, g) ==> g.context != wanted)
  {
    hide Find;
    LastOpenedIsShown(log[..n], kind);
    var newest := LastOpened(log[..n], kind);
    if newest.Some? {
      assert AddGate(newest.value) in log;
      assert SameGate(rec, AddGate(newest.value).gate);
    }
  }

  // ----- The theorems -----

  /**
   In every state of every run whose commands overlap and stop anyhow: a final result on record, and so every COMPLETED
   run's, carries the evidence noted last when the client that stored it decided, on a recorded APPROVE of a FINAL gate.
   Unless that evidence was overtaken then, it is what the gate shows exactly when the gate was the newest FINAL gate at
   that point or shows the same; if it was, the newest gate shows other evidence. The result is bound to the newest
   evidence exactly when none was noted since, or the same again.
   */
  lemma CompletedEvidence(cfg: Config, runId: string, moves: seq<Move>)
    requires TakeAll(cfg, Begin(runId), moves).run.rec.final.Some? || TakeAll(cfg, Begin(runId), moves).run.rec.state == Completed
    ensures var s := TakeAll(cfg, Begin(runId), moves);
      var rec := s.run.rec;
      && rec.final.Some? && s.bound.Some? && s.bound.value.cmd.FinalDecision? && s.bound.value.at <= |s.log|
      && var d := s.bound.value.cmd.recorded;
         var n := s.bound.value.at;
         var evidence := LastEvidence(s.log[..n]);
         && evidence.Some? && rec.final.value.evidenceHash == evidence
         && IsRecordedIn(rec, d) && d.decision == Approve && Find(rec.gates, d.gateId).value.kind == "FINAL"
         && var gate := Find(rec.gates, d.gateId).value;
            && (!EvidenceOvertaken(s.log[..n]) ==> (gate.context == QaContext(evidence.value) <==> AsNewest(s.log, n, "FINAL", gate)))
            && (EvidenceOvertaken(s.log[..n]) && AsNewest(s.log, n, "FINAL", gate) ==> gate.context != QaContext(evidence.value))
            && (BoundToEvidence(rec) <==> LastEvidence(s.log) == evidence)
  {
    hide TakeAll, GatesKept, WellStarted, Carries, LastPlan, LastShown, LastEvidence, RecordedHash, Find, UniqueGates, AsNewest, Shown,
         FindDecision, ValidDecision;
    EveryRunIsAttributed(cfg, runId, moves);
    var s := TakeAll(cfg, Begin(runId), moves);
    var choice := s.bound.value;
    ShowsExactly(s.run.rec, s.log, choice.at, "FINAL", choice.cmd.recorded.gateId, QaContext(LastEvidence(s.log[..choice.at]).value));
  }

  /**
   The same for the plan: every EXECUTING run was started by a recorded APPROVE or by a resumption after a tool gate that
   was approved. However late its client was, the former started the plan stored last by then; unless that plan was
   overtaken, it is what the decision's gate shows exactly when the gate was the newest ARCHITECTURE gate then or shows the
   same, and if it was overtaken, the newest gate shows another plan.
   */
  lemma StartedPlan(cfg: Config, runId: string, moves: seq<Move>)
    requires TakeAll(cfg, Begin(runId), moves).started.Some? || TakeAll(cfg, Begin(runId), moves).run.rec.state == Executing
    ensures var s := TakeAll(cfg, Begin(runId), moves);
      && s.started.Some? && LastEntry(s.log, s.started.value.at)
      && match s.started.value.choice.cmd
         case ResumeTool(t) => ApprovedTool(s.run.rec, t.gateId)
         case ArchitectureDecision(d) =>
           && var n := s.started.value.at;
           && LastPlan(s.log[..n]).Some? && IsRecordedIn(s.run.rec, d) && d.decision == Approve
           && var gate := Find(s.run.rec.gates, d.gateId).value;
           && var plan := PlanContext(LastPlan(s.log[..n]).value);
           && (!Overtaken(s.log[..n]) ==> (gate.context == plan <==> AsNewest(s.log, n, "ARCHITECTURE", gate)))
           && (Overtaken(s.log[..n]) && AsNewest(s.log, n, "ARCHITECTURE", gate) ==> gate.context != plan)
         case _ => false
  {
    hide TakeAll, GatesKept, WellBound, Carries, LastPlan, LastShown, LastEvidence, RecordedHash, Find, UniqueGates, AsNewest, Shown,
         FindDecision, ValidDecision;
    EveryRunIsAttributed(cfg, runId, moves);
    var s := TakeAll(cfg, Begin(runId), moves);
    var cmd, n := s.started.value.choice.cmd, s.started.value.at;
    if cmd.ArchitectureDecision? {
      ShowsExactly(s.run.rec, s.log, n, "ARCHITECTURE", cmd.recorded.gateId, PlanContext(LastPlan(s.log[..n]).value));
    }
  }
}
