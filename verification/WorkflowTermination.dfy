/** Without crashes every run changes its state a bounded number of times. */
module WorkflowTermination {
  import opened Wrappers
  import opened Contracts
  import opened Ordering
  import opened Text
  import opened SessionStore
  import opened Approvals
  import opened RestartTransparency
  import opened Authorization
  import opened Supervisor
  import opened Workflow
  import opened WorkflowSafety
  import opened WorkflowScripts

  // ----- The measure -----

  function Rank(width: nat, s: WorkflowState): nat {
    match s
    case Idle => 4 * width + 8
    case Intake => 4 * width + 7
    case Revision => 4 * width + 7
    case Architecting => 4 * width + 6
    case WaitingArchitectApproval => 5
    case Executing => 4
    case WorkerWaitingHuman => 3
    case Supervising => 2
    case WaitingFinalApproval => 1
    case _ => 0
  }

  // States in which the plan's workers may still open gates.
  predicate Planned(s: WorkflowState) { s in {WaitingArchitectApproval, Executing, WorkerWaitingHuman} }

  function OpenTools(gates: seq<ApprovalGate>): nat {
    if gates == [] then 0
    else
      var last := gates[|gates| - 1];
      OpenTools(gates[..|gates| - 1]) + (if last.kind == "TOOL_RISK" && last.status == Open then 1 else 0)
  }

  predicate Slot(cfg: Config, rec: SessionRecord, i: nat, network: bool)
    requires rec.plan.Some? && i < |rec.plan.value.workers|
  {
    Matching(rec.gates, PlanRequest(cfg, rec, i, network), PlanRisk(cfg, rec, i)).None?
  }

  function Count(b: bool): nat { if b then 1 else 0 }

  // The gates that the first k workers of the plan have not asked for yet.
  function Unopened(cfg: Config, rec: SessionRecord, k: nat): (n: nat)
    requires rec.plan.Some? && k <= |rec.plan.value.workers|
    ensures n <= 2 * k
  {
    if k == 0 then 0 else Unopened(cfg, rec, k - 1) + Count(Slot(cfg, rec, k - 1, false)) + Count(Slot(cfg, rec, k - 1, true))
  }

  function Slots(cfg: Config, rec: SessionRecord): nat {
    if Planned(rec.state) && rec.plan.Some? then Unopened(cfg, rec, |rec.plan.value.workers|) else 0
  }

  function Left(cfg: Config, rec: SessionRecord): nat {
    if |Revisions(rec.messages)| <= Most(cfg) then Most(cfg) - |Revisions(rec.messages)| else 0
  }

  function Measure(cfg: Config, width: nat, rec: SessionRecord): nat {
    (4 * width + 8) * Left(cfg, rec) + 2 * OpenTools(rec.gates) + 2 * Slots(cfg, rec) + Rank(width, rec.state)
  }

  predicate PlanFits(width: nat, rec: SessionRecord) { rec.plan.Some? ==> |rec.plan.value.workers| <= width }

  // How many state changes the operations make.
  function Changes(run: RunState, ops: seq<Op>): nat
    decreases |ops|
  {
    if ops == [] then 0
    else
      match PerformOp(run, ops[0])
      case None => 0
      case Some(run') => (if ops[0].Transition? then 1 else 0) + Changes(run', ops[1..])
  }

  // ----- What an operation does to the parts of the measure -----

  lemma OpenToolsAppended(gates: seq<ApprovalGate>, g: ApprovalGate)
    ensures OpenTools(gates + [g]) == OpenTools(gates) + Count(g.kind == "TOOL_RISK" && g.status == Open)
  {
    assert (gates + [g])[..|gates|] == gates;
  }

  lemma {:induction false} OpenToolsReplaced(gates: seq<ApprovalGate>, i: nat, g: ApprovalGate)
    requires i < |gates| && gates[i].kind == g.kind && gates[i].status == Open && g.status != Open
    ensures OpenTools(gates[i := g]) + Count(g.kind == "TOOL_RISK") == OpenTools(gates)
  {
    var before := gates[..|gates| - 1];
    if i == |gates| - 1 {
      assert gates[i := g][..|gates| - 1] == before;
    } else {
      OpenToolsReplaced(before, i, g);
      assert gates[i := g][..|gates| - 1] == before[i := g];
    }
  }

  lemma MatchingIsStable(gates: seq<ApprovalGate>, gates': seq<ApprovalGate>, req: ToolRequest, risky: seq<string>)
    requires |gates| <= |gates'|
    requires forall i :: 0 <= i < |gates| && Matches(gates[i], req, risky) ==> Matches(gates'[i], req, risky)
    ensures Matching(gates, req, risky).Some? ==> Matching(gates', req, risky).Some?
  {
    hide Matches;
    var m := Matching(gates, req, risky);
    if m.Some? {
      var i :| 0 <= i < |gates| && gates[i] == m.value;
      assert gates'[i] in gates' && Matches(gates'[i], req, risky);
    }
  }

  // Same plan and run, and every gate still matches what it matched.
  ghost predicate SlotsKept(rec: SessionRecord, rec': SessionRecord) {
    && rec'.plan == rec.plan && rec'.runId == rec.runId && |rec.gates| <= |rec'.gates|
    && forall i, req, risky :: 0 <= i < |rec.gates| && Matches(rec.gates[i], req, risky) ==> Matches(rec'.gates[i], req, risky)
  }

  lemma SlotStays(cfg: Config, rec: SessionRecord, rec': SessionRecord, i: nat, network: bool)
    requires SlotsKept(rec, rec') && rec.plan.Some? && i < |rec.plan.value.workers|
    ensures Slot(cfg, rec', i, network) ==> Slot(cfg, rec, i, network)
  {
    hide Matches, Matching;
    MatchingIsStable(rec.gates, rec'.gates, PlanRequest(cfg, rec, i, network), PlanRisk(cfg, rec, i));
  }

  lemma {:induction false} UnopenedStays(cfg: Config, rec: SessionRecord, rec': SessionRecord, k: nat)
    requires SlotsKept(rec, rec') && rec.plan.Some? && k <= |rec.plan.value.workers|
    ensures Unopened(cfg, rec', k) <= Unopened(cfg, rec, k)
  {
    hide SlotsKept, Slot;
    KeptPlan(rec, rec');
    if k > 0 {
      UnopenedStays(cfg, rec, rec', k - 1);
      SlotStays(cfg, rec, rec', k - 1, false);
      SlotStays(cfg, rec, rec', k - 1, true);
    }
  }

  lemma KeptPlan(rec: SessionRecord, rec': SessionRecord)
    requires SlotsKept(rec, rec')
    ensures rec'.plan == rec.plan
  {
  }

  // Opening the gate of a free slot uses the slot up.
  lemma {:induction false} SlotIsUsed(cfg: Config, rec: SessionRecord, rec': SessionRecord, k: nat, i: nat, network: bool)
    requires SlotsKept(rec, rec') && rec.plan.Some? && i < k <= |rec.plan.value.workers|
    requires Slot(cfg, rec, i, network) && rec'.plan == rec.plan && !Slot(cfg, rec', i, network)
    ensures Unopened(cfg, rec', k) + 1 <= Unopened(cfg, rec, k)
  {
    hide SlotsKept, Slot;
    SlotStays(cfg, rec, rec', k - 1, false);
    SlotStays(cfg, rec, rec', k - 1, true);
    if i < k - 1 { SlotIsUsed(cfg, rec, rec', k - 1, i, network); } else { UnopenedStays(cfg, rec, rec', k - 1); }
  }

  // ----- What an operation costs -----

  lemma SameSlots(cfg: Config, rec: SessionRecord, rec': SessionRecord)
    requires rec'.plan == rec.plan && rec'.runId == rec.runId && rec'.gates == rec.gates && Planned(rec'.state) == Planned(rec.state)
    ensures Slots(cfg, rec') == Slots(cfg, rec)
  {
    if rec.plan.Some? {
      assert SlotsKept(rec, rec') && SlotsKept(rec', rec);
      hide SlotsKept, Slot;
      UnopenedStays(cfg, rec, rec', |rec.plan.value.workers|);
      UnopenedStays(cfg, rec', rec, |rec.plan.value.workers|);
    }
  }

  // Operations that leave the measure as it is.
  predicate Idling(op: Op) {
    op.AddResult? || op.SetOutput? || op.AddArtifact? || op.SetFinal? || op.AddDecision? || (op.AddMessage? && !op.message.note.RevisionNote?)
  }

  lemma IdlingFacts(run: RunState, op: Op)
    requires Idling(op) && PerformOp(run, op).Some?
    ensures var rec, rec' := run.rec, PerformOp(run, op).value.rec;
      && rec'.plan == rec.plan && rec'.runId == rec.runId && rec'.gates == rec.gates && rec'.state == rec.state
      && rec'.messages == if op.AddMessage? then rec.messages + [op.message] else rec.messages
  {
    hide FindResult, FindDecision;
  }

  lemma IdlingIsFree(cfg: Config, width: nat, run: RunState, op: Op)
    requires Idling(op) && PerformOp(run, op).Some?
    ensures var rec, rec' := run.rec, PerformOp(run, op).value.rec;
      && Measure(cfg, width, rec') == Measure(cfg, width, rec)
      && |Revisions(rec'.messages)| == |Revisions(rec.messages)|
      && rec'.state == rec.state && rec'.plan == rec.plan && rec'.gates == rec.gates && rec'.runId == rec.runId
  {
    hide PerformOp, Slots, Revisions;
    IdlingFacts(run, op);
    SameSlots(cfg, run.rec, PerformOp(run, op).value.rec);
    if op.AddMessage? { RevisionsAppended(run.rec.messages, op.message); }
  }

  lemma TransitionFacts(run: RunState, target: WorkflowState)
    requires PerformOp(run, Transition(target)).Some?
    ensures target in AllowedTargets(run.rec.state)
    ensures PerformOp(run, Transition(target)).value.rec == run.rec.(state := target, revision := run.rec.revision + 1)
  {
  }

  lemma DownhillCosts(cfg: Config, width: nat, run: RunState, target: WorkflowState)
    requires PerformOp(run, Transition(target)).Some? && PlanFits(width, run.rec)
    requires Rank(width, target) < Rank(width, run.rec.state) && (run.rec.state == Revision ==> target == Architecting)
    ensures Measure(cfg, width, PerformOp(run, Transition(target)).value.rec) + 1 <= Measure(cfg, width, run.rec)
  {
    hide PerformOp, Unopened, Revisions, OpenTools;
    TransitionFacts(run, target);
    var rec, rec' := run.rec, PerformOp(run, Transition(target)).value.rec;
    assert Left(cfg, rec') == Left(cfg, rec) && OpenTools(rec'.gates) == OpenTools(rec.gates);
    if Planned(target) && !Planned(rec.state) {
      assert rec.state == Architecting && target == WaitingArchitectApproval;
      assert Slots(cfg, rec) == 0 && Slots(cfg, rec') <= 2 * width;
    } else if Planned(target) == Planned(rec.state) {
      SameSlots(cfg, rec, rec');
    }
    hide Slots, Left;
  }

  lemma PlanningIsFree(cfg: Config, width: nat, run: RunState, plan: ArchitecturePlan)
    requires run.rec.state == Architecting
    ensures PerformOp(run, SetPlan(plan)).Some?
    ensures var rec' := PerformOp(run, SetPlan(plan)).value.rec;
      rec' == run.rec.(plan := Some(plan), revision := run.rec.revision + 1) && Measure(cfg, width, rec') == Measure(cfg, width, run.rec)
  {
    hide Revisions, OpenTools, Unopened;
  }

  lemma AddedGateFacts(run: RunState, g: ApprovalGate)
    requires PerformOp(run, AddGate(g)).Some?
    ensures PerformOp(run, AddGate(g)).value.rec == run.rec.(gates := run.rec.gates + [g], revision := run.rec.revision + 1)
    ensures SlotsKept(run.rec, PerformOp(run, AddGate(g)).value.rec)
  {
    hide GateIndex, Matches;
  }

  lemma FewerSlots(cfg: Config, rec: SessionRecord, rec': SessionRecord)
    requires SlotsKept(rec, rec') && rec'.state == rec.state
    ensures Slots(cfg, rec') <= Slots(cfg, rec)
  {
    hide SlotsKept, Slot;
    KeptPlan(rec, rec');
    if rec.plan.Some? { UnopenedStays(cfg, rec, rec', |rec.plan.value.workers|); }
  }

  lemma OtherGateIsFree(cfg: Config, width: nat, run: RunState, g: ApprovalGate)
    requires PerformOp(run, AddGate(g)).Some? && g.kind != "TOOL_RISK"
    ensures Measure(cfg, width, PerformOp(run, AddGate(g)).value.rec) <= Measure(cfg, width, run.rec)
  {
    hide PerformOp, Slots, Revisions, OpenTools, SlotsKept;
    AddedGateFacts(run, g);
    OpenToolsAppended(run.rec.gates, g);
    FewerSlots(cfg, run.rec, PerformOp(run, AddGate(g)).value.rec);
  }

  lemma ToolGateFillsItsSlot(cfg: Config, rec: SessionRecord, rec': SessionRecord, i: nat, network: bool, gateId: string, now: string)
    requires rec.plan.Some? && i < |rec.plan.value.workers|
    requires PlanRisk(cfg, rec, i) == SortStrings(PlanRisk(cfg, rec, i))
    requires rec'.plan == rec.plan && rec'.runId == rec.runId
    requires ToolGate(PlanRequest(cfg, rec, i, network), PlanRisk(cfg, rec, i), gateId, now) in rec'.gates
    ensures !Slot(cfg, rec', i, network)
  {
    var g := ToolGate(PlanRequest(cfg, rec, i, network), PlanRisk(cfg, rec, i), gateId, now);
    assert Matches(g, PlanRequest(cfg, rec', i, network), PlanRisk(cfg, rec', i));
  }

  lemma ToolGateIsPaid(cfg: Config, width: nat, run: RunState, i: nat, network: bool, gateId: string, now: string)
    requires run.rec.plan.Some? && i < |run.rec.plan.value.workers| && run.rec.state == Executing
    requires PlanRisk(cfg, run.rec, i) == SortStrings(PlanRisk(cfg, run.rec, i)) && Slot(cfg, run.rec, i, network)
    requires PerformOp(run, AddGate(ToolGate(PlanRequest(cfg, run.rec, i, network), PlanRisk(cfg, run.rec, i), gateId, now))).Some?
    ensures var g := ToolGate(PlanRequest(cfg, run.rec, i, network), PlanRisk(cfg, run.rec, i), gateId, now);
      Measure(cfg, width, PerformOp(run, AddGate(g)).value.rec) <= Measure(cfg, width, run.rec)
  {
    hide PerformOp, Unopened, Revisions, OpenTools, SlotsKept, Slot, PlanRisk, PlanRequest, SortStrings;
    var g := ToolGate(PlanRequest(cfg, run.rec, i, network), PlanRisk(cfg, run.rec, i), gateId, now);
    AddedGateFacts(run, g);
    OpenToolsAppended(run.rec.gates, g);
    var rec' := PerformOp(run, AddGate(g)).value.rec;
    ToolGateFillsItsSlot(cfg, run.rec, rec', i, network, gateId, now);
    SlotIsUsed(cfg, run.rec, rec', |run.rec.plan.value.workers|, i, network);
  }

  lemma ClosedGateFacts(run: RunState, op: Op)
    requires op.ResolveGate? || op.CancelGate?
    requires Settled(run.rec) && SameGate(run.rec, op.gate) && op.gate.status != Open && PerformOp(run, op).Some?
    ensures GateIndex(run.rec.gates, op.gate.gateId).Some?
    ensures var rec' := PerformOp(run, op).value.rec;
      var i := GateIndex(run.rec.gates, op.gate.gateId).value;
      && run.rec.gates[i].status == Open && run.rec.gates[i].kind == op.gate.kind && run.rec.gates[i].context == op.gate.context
      && rec'.gates == run.rec.gates[i := op.gate] && rec'.state == run.rec.state && rec'.plan == run.rec.plan
      && rec'.runId == run.rec.runId && rec'.messages == run.rec.messages && op.gate.runId == run.rec.runId
  {
    hide Settled, FindDecision;
  }

  lemma ClosingPays(cfg: Config, width: nat, run: RunState, op: Op)
    requires op.ResolveGate? || op.CancelGate?
    requires Settled(run.rec) && SameGate(run.rec, op.gate) && op.gate.status != Open && PerformOp(run, op).Some?
    ensures Measure(cfg, width, PerformOp(run, op).value.rec) + 2 * Count(op.gate.kind == "TOOL_RISK") <= Measure(cfg, width, run.rec)
  {
    hide PerformOp, Slots, Revisions, OpenTools, Settled, GateIndex, SameGate;
    ClosedGateFacts(run, op);
    var rec' := PerformOp(run, op).value.rec;
    var i := GateIndex(run.rec.gates, op.gate.gateId).value;
    OpenToolsReplaced(run.rec.gates, i, op.gate);
    GateOfRun(run.rec, i);
    ReplacedKeepsSlots(run.rec, rec', i, op.gate);
    FewerSlots(cfg, run.rec, rec');
  }

  lemma GateOfRun(rec: SessionRecord, i: nat)
    requires Settled(rec) && i < |rec.gates|
    ensures rec.gates[i].runId == rec.runId
  {
    hide GatesSettled, DecisionsSettled, UniqueGates, UniqueDecisions, UniqueResults;
  }

  lemma ReplacedKeepsSlots(rec: SessionRecord, rec': SessionRecord, i: nat, g: ApprovalGate)
    requires i < |rec.gates| && rec'.gates == rec.gates[i := g] && rec'.plan == rec.plan && rec'.runId == rec.runId
    requires rec.gates[i].kind == g.kind && rec.gates[i].context == g.context && rec.gates[i].runId == g.runId
    ensures SlotsKept(rec, rec')
  {
  }

  // ----- What a script costs -----

  // The state changes of a script are paid for by the measure, with `debt` left over from earlier operations.
  ghost predicate Pays(cfg: Config, width: nat, run: RunState, ops: seq<Op>, debt: nat) {
    Measure(cfg, width, Perform(run, ops).rec) + Changes(run, ops) <= Measure(cfg, width, run.rec) + debt
  }

  lemma NothingIsFree(cfg: Config, width: nat, run: RunState, debt: nat)
    ensures Pays(cfg, width, run, [], debt)
  {
    hide Measure;
  }

  // An operation that raises ends the script.
  lemma RaisingIsFree(cfg: Config, width: nat, run: RunState, op: Op, rest: seq<Op>, debt: nat)
    requires PerformOp(run, op).None?
    ensures Pays(cfg, width, run, [op] + rest, debt)
  {
    hide Measure, PerformOp;
  }

  lemma PayThen(cfg: Config, width: nat, run: RunState, op: Op, rest: seq<Op>, debt: nat, debt': nat)
    requires PerformOp(run, op).Some?
    requires Measure(cfg, width, PerformOp(run, op).value.rec) + Count(op.Transition?) + debt' <= Measure(cfg, width, run.rec) + debt
    requires Pays(cfg, width, PerformOp(run, op).value, rest, debt')
    ensures Pays(cfg, width, run, [op] + rest, debt)
  {
    hide Measure, PerformOp;
    assert ([op] + rest)[1..] == rest;
  }

  lemma IdlingThen(cfg: Config, width: nat, run: RunState, op: Op, rest: seq<Op>, debt: nat)
    requires Idling(op)
    requires PerformOp(run, op).Some? ==> Pays(cfg, width, PerformOp(run, op).value, rest, debt)
    ensures Pays(cfg, width, run, [op] + rest, debt)
  {
    hide Measure, PerformOp, Pays, Revisions;
    if PerformOp(run, op).Some? {
      IdlingIsFree(cfg, width, run, op);
      PayThen(cfg, width, run, op, rest, debt, debt);
    } else {
      RaisingIsFree(cfg, width, run, op, rest, debt);
    }
  }

  lemma DownhillThen(cfg: Config, width: nat, run: RunState, target: WorkflowState, rest: seq<Op>)
    requires PlanFits(width, run.rec) && Rank(width, target) < Rank(width, run.rec.state)
    requires run.rec.state == Revision ==> target == Architecting
    requires PerformOp(run, Transition(target)).Some? ==> Pays(cfg, width, PerformOp(run, Transition(target)).value, rest, 0)
    ensures Pays(cfg, width, run, [Transition(target)] + rest, 0)
  {
    hide Measure, PerformOp, Pays, Rank;
    if PerformOp(run, Transition(target)).Some? {
      DownhillCosts(cfg, width, run, target);
      PayThen(cfg, width, run, Transition(target), rest, 0, 0);
    } else {
      RaisingIsFree(cfg, width, run, Transition(target), rest, 0);
    }
  }

  lemma Downhill(cfg: Config, width: nat, run: RunState, target: WorkflowState)
    requires PlanFits(width, run.rec) && Rank(width, target) < Rank(width, run.rec.state)
    requires run.rec.state == Revision ==> target == Architecting
    ensures Pays(cfg, width, run, [Transition(target)], 0)
  {
    hide Measure, PerformOp, Pays, Rank;
    if PerformOp(run, Transition(target)).Some? { NothingIsFree(cfg, width, PerformOp(run, Transition(target)).value, 0); }
    DownhillThen(cfg, width, run, target, []);
    assert [Transition(target)] + [] == [Transition(target)];
  }

  lemma OtherGatePays(cfg: Config, width: nat, run: RunState, g: ApprovalGate)
    requires g.kind != "TOOL_RISK"
    ensures Pays(cfg, width, run, GateRequest(g), 0)
  {
    hide Measure, PerformOp, Pays, ValidGate;
    NothingIsFree(cfg, width, run, 0);
    if ValidGate(g) {
      assert [AddGate(g)] + [] == [AddGate(g)];
      if PerformOp(run, AddGate(g)).Some? {
        OtherGateIsFree(cfg, width, run, g);
        NothingIsFree(cfg, width, PerformOp(run, AddGate(g)).value, 0);
        PayThen(cfg, width, run, AddGate(g), [], 0, 0);
      } else {
        RaisingIsFree(cfg, width, run, AddGate(g), [], 0);
      }
    }
  }

  // ----- Revisions -----

  lemma RevisionCommits(cfg: Config, run: RunState)
    requires run.rec.state == Revision
    ensures var n := |Revisions(run.rec.messages)|;
      var m := RevisionMessage(n + 1);
      var ops := [Transition(Architecting), AddMessage(m)];
      && Perform(run, ops).rec == run.rec.(state := Architecting, messages := run.rec.messages + [m], revision := run.rec.revision + 2)
      && Changes(run, ops) == 1
  {
    hide Revisions, PerformOp, Perform, Changes;
    var m := RevisionMessage(|Revisions(run.rec.messages)| + 1);
    LeavingRevision(run);
    var run1 := PerformOp(run, Transition(Architecting)).value;
    AddedMessage(run1, m);
    var run2 := PerformOp(run1, AddMessage(m)).value;
    OneMoreChange(run, run1, Transition(Architecting), [AddMessage(m)]);
    OneMoreChange(run1, run2, AddMessage(m), []);
    NoMoreChange(run2);
    assert [Transition(Architecting)] + [AddMessage(m)] == [Transition(Architecting), AddMessage(m)];
    assert [AddMessage(m)] + [] == [AddMessage(m)];
  }

  lemma NoMoreChange(run: RunState)
    ensures Perform(run, []) == run && Changes(run, []) == 0
  {
  }

  lemma LeavingRevision(run: RunState)
    requires run.rec.state == Revision
    ensures PerformOp(run, Transition(Architecting)).Some?
    ensures PerformOp(run, Transition(Architecting)).value.rec == run.rec.(state := Architecting, revision := run.rec.revision + 1)
  {
  }

  lemma EnteringRevision(run: RunState)
    requires Revisable(run.rec.state) && run.rec.state != Revision
    ensures PerformOp(run, Transition(Revision)).Some?
    ensures PerformOp(run, Transition(Revision)).value.rec == run.rec.(state := Revision, revision := run.rec.revision + 1)
  {
  }

  lemma RevisionMeasure(cfg: Config, width: nat, rec: SessionRecord, rec': SessionRecord, n: nat)
    requires Revisable(rec.state) && n == |Revisions(rec.messages)| < Most(cfg)
    requires rec'.state == Architecting && rec'.gates == rec.gates && rec'.messages == rec.messages + [RevisionMessage(n + 1)]
    ensures Measure(cfg, width, rec') + 2 <= Measure(cfg, width, rec)
  {
    hide Revisions, OpenTools, Unopened;
    RevisionsAppended(rec.messages, RevisionMessage(n + 1));
    OneLess(width, Most(cfg) - n);
  }

  lemma OneLess(width: nat, k: nat)
    requires k > 0
    ensures (4 * width + 8) * k == (4 * width + 8) * (k - 1) + 4 * width + 8
  {
  }

  lemma RevisionPays(cfg: Config, width: nat, run: RunState, limit: nat, state: WorkflowState)
    requires run.rec.state == state && limit <= Most(cfg)
    ensures Pays(cfg, width, run, RevisionScript(limit, state, |Revisions(run.rec.messages)|), 0)
  {
    hide PerformOp, Measure, Revisions, Perform, Changes, Pays;
    var n := |Revisions(run.rec.messages)|;
    var script := RevisionScript(limit, state, n);
    var ops := [Transition(Architecting), AddMessage(RevisionMessage(n + 1))];
    if script == [] {
      NothingIsFree(cfg, width, run, 0);
    } else if state == Revision {
      assert script == ops;
      RevisionCommits(cfg, run);
      RevisionMeasure(cfg, width, run.rec, Perform(run, ops).rec, n);
      PaysDirectly(cfg, width, run, ops);
    } else {
      EnteringRevision(run);
      var run1 := PerformOp(run, Transition(Revision)).value;
      RevisionCommits(cfg, run1);
      RevisionMeasure(cfg, width, run.rec, Perform(run1, ops).rec, n);
      assert script == [Transition(Revision)] + ops;
      OneMoreChange(run, run1, Transition(Revision), ops);
      PaysDirectly(cfg, width, run, script);
    }
  }

  lemma PaysDirectly(cfg: Config, width: nat, run: RunState, ops: seq<Op>)
    requires Measure(cfg, width, Perform(run, ops).rec) + Changes(run, ops) <= Measure(cfg, width, run.rec)
    ensures Pays(cfg, width, run, ops, 0)
  {
    hide Measure;
  }

  lemma OneMoreChange(run: RunState, run': RunState, op: Op, rest: seq<Op>)
    requires PerformOp(run, op) == Some(run')
    ensures Perform(run, [op] + rest) == Perform(run', rest)
    ensures Changes(run, [op] + rest) == Count(op.Transition?) + Changes(run', rest)
  {
    hide PerformOp;
    assert ([op] + rest)[1..] == rest;
  }

  // ----- What a command costs -----

  lemma IdlingThenDownhill(cfg: Config, width: nat, run: RunState, op: Op, target: WorkflowState)
    requires Idling(op) && PlanFits(width, run.rec) && Rank(width, target) < Rank(width, run.rec.state) && run.rec.state != Revision
    ensures Pays(cfg, width, run, [op, Transition(target)], 0)
  {
    hide Pays, Rank, PerformOp, Measure, Revisions;
    if PerformOp(run, op).Some? {
      IdlingIsFree(cfg, width, run, op);
      Downhill(cfg, width, PerformOp(run, op).value, target);
    }
    IdlingThen(cfg, width, run, op, [Transition(target)], 0);
    assert [op] + [Transition(target)] == [op, Transition(target)];
  }

  lemma IdlingOnly(cfg: Config, width: nat, run: RunState, op: Op)
    requires Idling(op)
    ensures Pays(cfg, width, run, [op], 0)
  {
    hide Pays, PerformOp;
    if PerformOp(run, op).Some? { NothingIsFree(cfg, width, PerformOp(run, op).value, 0); }
    IdlingThen(cfg, width, run, op, [], 0);
    assert [op] + [] == [op];
  }

  lemma BuildPays(cfg: Config, width: nat, run: RunState, plan: ArchitecturePlan, gateId: string, now: string)
    requires |plan.workers| <= width
    ensures Pays(cfg, width, run, Script(cfg, run.rec, Build(plan, gateId, now)), 0)
  {
    hide Pays, PerformOp, Measure, GateRequest, ArchitectureGate;
    NothingIsFree(cfg, width, run, 0);
    if run.rec.state == Architecting {
      var gate := ArchitectureGate(run.rec.runId, gateId, plan, now);
      IsArchitecture(run.rec.runId, gateId, plan, now);
      PlanningIsFree(cfg, width, run, plan);
      var run1 := PerformOp(run, SetPlan(plan)).value;
      if PerformOp(run1, Transition(WaitingArchitectApproval)).Some? {
        OtherGatePays(cfg, width, PerformOp(run1, Transition(WaitingArchitectApproval)).value, gate);
      }
      DownhillThen(cfg, width, run1, WaitingArchitectApproval, GateRequest(gate));
      PayThen(cfg, width, run, SetPlan(plan), [Transition(WaitingArchitectApproval)] + GateRequest(gate), 0, 0);
      assert [SetPlan(plan), Transition(WaitingArchitectApproval)] + GateRequest(gate)
          == [SetPlan(plan)] + ([Transition(WaitingArchitectApproval)] + GateRequest(gate));
    }
  }

  lemma IsArchitecture(runId: string, gateId: string, plan: ArchitecturePlan, now: string)
    ensures ArchitectureGate(runId, gateId, plan, now).kind != "TOOL_RISK"
  {
  }

  lemma AnswerFacts(rec: SessionRecord, gateId: string, decision: DecisionType, feedback: string, actor: string, now: string)
    requires AnswerScript(rec, gateId, decision, feedback, actor, now) != []
    ensures var script := AnswerScript(rec, gateId, decision, feedback, actor, now);
      && script == [script[0]] && script[0].ResolveGate? && script[0].gate.gateId == gateId
      && SameGate(rec, script[0].gate) && script[0].gate.status != Open
  {
    hide ValidGate, ValidDecision, Strip, Blank, GateIndex;
  }

  lemma ClosingThen(cfg: Config, width: nat, run: RunState, op: Op, rest: seq<Op>, debt: nat)
    requires op.ResolveGate? || op.CancelGate?
    requires Settled(run.rec) && SameGate(run.rec, op.gate) && op.gate.status != Open
    requires debt <= 2 * Count(op.gate.kind == "TOOL_RISK")
    requires PerformOp(run, op).Some? ==> Pays(cfg, width, PerformOp(run, op).value, rest, debt)
    ensures Pays(cfg, width, run, [op] + rest, 0)
  {
    hide Pays, PerformOp, Measure, Settled, SameGate;
    if PerformOp(run, op).Some? {
      ClosingPays(cfg, width, run, op);
      PayThen(cfg, width, run, op, rest, 0, debt);
    } else {
      RaisingIsFree(cfg, width, run, op, rest, 0);
    }
  }

  lemma ClosingOnly(cfg: Config, width: nat, run: RunState, op: Op)
    requires op.ResolveGate? || op.CancelGate?
    requires Settled(run.rec) && SameGate(run.rec, op.gate) && op.gate.status != Open
    ensures Pays(cfg, width, run, [op], 0)
  {
    hide Pays, PerformOp, Settled, SameGate;
    if PerformOp(run, op).Some? { NothingIsFree(cfg, width, PerformOp(run, op).value, 0); }
    ClosingThen(cfg, width, run, op, [], 0);
    assert [op] + [] == [op];
  }

  lemma GatesPay(cfg: Config, width: nat, run: RunState, cmd: Command)
    requires Settled(run.rec) && (cmd.Answer? || cmd.Withdraw?)
    ensures Pays(cfg, width, run, Script(cfg, run.rec, cmd), 0)
  {
    hide Pays, Settled, AnswerScript, GateIndex;
    NothingIsFree(cfg, width, run, 0);
    match cmd {
      case Answer(gateId, decision, feedback, actor, now) =>
        var script := AnswerScript(run.rec, gateId, decision, feedback, actor, now);
        if script != [] {
          AnswerFacts(run.rec, gateId, decision, feedback, actor, now);
          ClosingOnly(cfg, width, run, script[0]);
        }
      case Withdraw(gateId) =>
        if Find(run.rec.gates, gateId).Some? && Find(run.rec.gates, gateId).value.status == Open {
          ClosingOnly(cfg, width, run, CancelGate(Find(run.rec.gates, gateId).value.(status := Cancelled)));
        }
    }
  }

  lemma ArchitecturePays(cfg: Config, width: nat, run: RunState, d: HumanDecision)
    requires PlanFits(width, run.rec)
    ensures Pays(cfg, width, run, Script(cfg, run.rec, ArchitectureDecision(d)), 0)
  {
    hide Pays, IsRecordedIn, Revisions;
    NothingIsFree(cfg, width, run, 0);
    if run.rec.state == WaitingArchitectApproval && IsRecordedIn(run.rec, d) {
      IdlingThenDownhill(cfg, width, run, AddDecision(d), Executing);
      IdlingThenDownhill(cfg, width, run, AddDecision(d), Rejected);
      IdlingOnly(cfg, width, run, AddDecision(d));
      assert [AddDecision(d)] + [Transition(Executing)] == [AddDecision(d), Transition(Executing)];
      assert [AddDecision(d)] + [Transition(Rejected)] == [AddDecision(d), Transition(Rejected)];
      assert [AddDecision(d)] + [] == [AddDecision(d)];
    }
  }

  lemma CompletionPays(cfg: Config, width: nat, run: RunState, d: HumanDecision, final: Option<FinalResult>)
    requires run.rec.state == WaitingFinalApproval && PlanFits(width, run.rec)
    ensures Pays(cfg, width, run, CompletionScript(run.rec, d, final), 0)
  {
    hide Pays, RecordedHash, ValidFinal;
    var script := CompletionScript(run.rec, d, final);
    NothingIsFree(cfg, width, run, 0);
    if script != [] { IdlingThenDownhill(cfg, width, run, script[0], Completed); }
  }

  lemma FinalPays(cfg: Config, width: nat, run: RunState, d: HumanDecision, final: Option<FinalResult>)
    requires PlanFits(width, run.rec)
    ensures Pays(cfg, width, run, Script(cfg, run.rec, FinalDecision(d, final)), 0)
  {
    hide Pays, IsRecordedIn, Revisions, CompletionScript, RevisionScript, PerformOp, Find, PlanFits;
    NothingIsFree(cfg, width, run, 0);
    if run.rec.state == WaitingFinalApproval && IsRecordedIn(run.rec, d) {
      RecordedGate(run.rec, d);
      ConfirmingChangesNothing(run, d);
      match d.decision {
        case Approve =>
          CompletionPays(cfg, width, run, d, final);
          IdlingThen(cfg, width, run, AddDecision(d), CompletionScript(run.rec, d, final), 0);
        case Modify =>
          RevisionPays(cfg, width, run, cfg.maxRevisions, WaitingFinalApproval);
          IdlingThen(cfg, width, run, AddDecision(d), RevisionScript(cfg.maxRevisions, WaitingFinalApproval, |Revisions(run.rec.messages)|), 0);
        case Reject =>
          Downhill(cfg, width, run, Rejected);
          IdlingThen(cfg, width, run, AddDecision(d), [Transition(Rejected)], 0);
        case Clarify =>
          IdlingThen(cfg, width, run, AddDecision(d), [], 0);
      }
    }
  }

  ghost predicate SortedRisk(cfg: Config) {
    forall tools, capabilities :: cfg.riskyTools(tools, capabilities) == SortStrings(cfg.riskyTools(tools, capabilities))
  }

  lemma ToolPays(cfg: Config, width: nat, run: RunState, i: nat, network: bool, gateId: string, now: string)
    requires SortedRisk(cfg)
    ensures Pays(cfg, width, run, Script(cfg, run.rec, OpenToolGate(i, network, gateId, now)), 0)
  {
    hide Pays, PerformOp, Measure, ValidGate, Matching, SortStrings, ToolGate, PlanRequest;
    NothingIsFree(cfg, width, run, 0);
    if run.rec.state == Executing && run.rec.plan.Some? && i < |run.rec.plan.value.workers| && Slot(cfg, run.rec, i, network) {
      var g := ToolGate(PlanRequest(cfg, run.rec, i, network), PlanRisk(cfg, run.rec, i), gateId, now);
      assert [AddGate(g)] + [] == [AddGate(g)];
      if PerformOp(run, AddGate(g)).Some? {
        ToolGateIsPaid(cfg, width, run, i, network, gateId, now);
        NothingIsFree(cfg, width, PerformOp(run, AddGate(g)).value, 0);
        PayThen(cfg, width, run, AddGate(g), [], 0, 0);
      } else {
        RaisingIsFree(cfg, width, run, AddGate(g), [], 0);
      }
    }
  }

  lemma MoreDebt(cfg: Config, width: nat, run: RunState, ops: seq<Op>, debt: nat)
    requires Pays(cfg, width, run, ops, 0)
    ensures Pays(cfg, width, run, ops, debt)
  {
    hide Measure, Perform, Changes;
  }

  // Going back to EXECUTING is paid for by the gate that was closed.
  lemma Reexecuting(cfg: Config, width: nat, run: RunState)
    requires run.rec.state == WorkerWaitingHuman
    ensures Pays(cfg, width, run, [Transition(Executing)], 2)
  {
    hide Unopened, Revisions, OpenTools, Pays, PerformOp, Perform, Changes;
    assert [Transition(Executing)] + [] == [Transition(Executing)];
    if PerformOp(run, Transition(Executing)).Some? {
      TransitionFacts(run, Executing);
      var run1 := PerformOp(run, Transition(Executing)).value;
      SameSlots(cfg, run.rec, run1.rec);
      NothingIsFree(cfg, width, run1, 0);
      PayThen(cfg, width, run, Transition(Executing), [], 2, 0);
    } else {
      RaisingIsFree(cfg, width, run, Transition(Executing), [], 2);
    }
  }

  lemma OutputThenPays(cfg: Config, width: nat, run: RunState, output: Op, approved: bool)
    requires output.SetOutput? && run.rec.state == WorkerWaitingHuman
    ensures Pays(cfg, width, run,
      [output] + (if approved then [Transition(Executing)] else RevisionScript(cfg.maxRevisions, WorkerWaitingHuman, |Revisions(run.rec.messages)|)), 2)
  {
    hide PerformOp, Pays, Revisions, RevisionScript, Measure;
    var rest := if approved then [Transition(Executing)] else RevisionScript(cfg.maxRevisions, WorkerWaitingHuman, |Revisions(run.rec.messages)|);
    if PerformOp(run, output).Some? {
      IdlingIsFree(cfg, width, run, output);
      var run1 := PerformOp(run, output).value;
      Reexecuting(cfg, width, run1);
      RevisionPays(cfg, width, run1, cfg.maxRevisions, WorkerWaitingHuman);
      MoreDebt(cfg, width, run1, RevisionScript(cfg.maxRevisions, WorkerWaitingHuman, |Revisions(run.rec.messages)|), 2);
    }
    IdlingThen(cfg, width, run, output, rest, 2);
  }

  lemma ResumePays(cfg: Config, width: nat, run: RunState, t: ToolVerdict)
    requires Settled(run.rec)
    ensures Pays(cfg, width, run, ResumeScript(cfg, run.rec, t), 0)
  {
    hide PerformOp, Pays, Settled, AnswerScript, RevisionScript, Revisions, Find, SameGate;
    NothingIsFree(cfg, width, run, 0);
    var script := ResumeScript(cfg, run.rec, t);
    if script != [] {
      var answered := AnswerScript(run.rec, t.gateId, t.decision, t.feedback, t.actor, t.timestamp);
      AnswerFacts(run.rec, t.gateId, t.decision, t.feedback, t.actor, t.timestamp);
      AnsweredIsTool(run.rec, answered[0].gate, t);
      var approved := t.decision == Approve;
      var output := SetOutput(WorkerOutput(t.workerId, run.rec.runId, if approved then "approved" else "denied", None));
      var rest := if approved then [Transition(Executing)] else RevisionScript(cfg.maxRevisions, WorkerWaitingHuman, |Revisions(run.rec.messages)|);
      assert script == [answered[0]] + ([output] + rest);
      if PerformOp(run, answered[0]).Some? {
        ResolvingKeepsMessages(run, answered[0]);
        OutputThenPays(cfg, width, PerformOp(run, answered[0]).value, output, approved);
      }
      ClosingThen(cfg, width, run, answered[0], [output] + rest, 2);
    }
  }

  lemma AnsweredIsTool(rec: SessionRecord, g: ApprovalGate, t: ToolVerdict)
    requires SameGate(rec, g) && g.gateId == t.gateId && BelongsTo(Find(rec.gates, t.gateId).value, t)
    ensures g.kind == "TOOL_RISK"
  {
  }

  lemma VerdictPays(cfg: Config, width: nat, run: RunState, qa: QaResult, gateId: string, now: string)
    requires run.rec.state == Supervising && PlanFits(width, run.rec)
    ensures Pays(cfg, width, run, VerdictScript(cfg, run.rec, qa, gateId, now), 0)
  {
    hide PerformOp, Pays, Revisions, RevisionScript, GateRequest, Measure, PlanFits;
    match qa.status {
      case Pass =>
        var note := Message("supervisor", "pass", QaNote(qa, Some(Sha256(qa))));
        var gate := FinalGate(run.rec.runId, gateId, Sha256(qa), now);
        AddedMessage(run, note);
        var run1 := PerformOp(run, AddMessage(note)).value;
        if PerformOp(run1, Transition(WaitingFinalApproval)).Some? {
          OtherGatePays(cfg, width, PerformOp(run1, Transition(WaitingFinalApproval)).value, gate);
        }
        SamePlanFits(width, run.rec, run1.rec);
        DownhillThen(cfg, width, run1, WaitingFinalApproval, GateRequest(gate));
        IdlingThen(cfg, width, run, AddMessage(note), [Transition(WaitingFinalApproval)] + GateRequest(gate), 0);
        assert VerdictScript(cfg, run.rec, qa, gateId, now) == [AddMessage(note)] + ([Transition(WaitingFinalApproval)] + GateRequest(gate));
      case Revise => RevisionPays(cfg, width, run, cfg.maxRevisions, Supervising);
      case Fail => Downhill(cfg, width, run, Failed);
    }
  }

  lemma SamePlanFits(width: nat, rec: SessionRecord, rec': SessionRecord)
    requires PlanFits(width, rec) && rec'.plan == rec.plan
    ensures PlanFits(width, rec')
  {
  }

  lemma SupervisePays(cfg: Config, width: nat, run: RunState, cmd: Command)
    requires PlanFits(width, run.rec) && cmd.Supervise?
    ensures Pays(cfg, width, run, Script(cfg, run.rec, cmd), 0)
  {
    hide PerformOp, Pays, VerdictScript, Evaluate, EvidenceOf, Measure, PlanFits;
    var Supervise(order, gateId, now, noted) := cmd;
    NothingIsFree(cfg, width, run, 0);
    if run.rec.state == Supervising && run.rec.plan.Some? && Enumerates(order, run.rec.outputs) {
      var verdict := Evaluate(EvidenceOf(run.rec, order));
      if verdict.Ok? {
        var qa := verdict.value;
        VerdictPays(cfg, width, run, qa, gateId, now);
        var note := Message("supervisor", "verdict", QaNote(qa, None));
        AddedMessage(run, note);
        var run1 := PerformOp(run, AddMessage(note)).value;
        SamePlanFits(width, run.rec, run1.rec);
        VerdictPays(cfg, width, run1, qa, gateId, now);
        VerdictIgnoresNote(cfg, run.rec, qa, gateId, now, note, run.rec.revision + 1);
        IdlingThen(cfg, width, run, AddMessage(note), VerdictScript(cfg, run.rec, qa, gateId, now), 0);
        assert [] + VerdictScript(cfg, run.rec, qa, gateId, now) == VerdictScript(cfg, run.rec, qa, gateId, now);
      }
    }
  }

  lemma SimplePays(cfg: Config, width: nat, run: RunState, cmd: Command)
    requires PlanFits(width, run.rec)
    requires cmd.Start? || cmd.BeginArchitecture? || cmd.BeginSupervision? || cmd.Pause? || cmd.Recover? || cmd.Other?
    ensures Pays(cfg, width, run, Script(cfg, run.rec, cmd), 0)
  {
    hide Pays, Find, PerformOp, Measure;
    NothingIsFree(cfg, width, run, 0);
    match cmd {
      case Start => if run.rec.state == Idle { Downhill(cfg, width, run, Intake); }
      case BeginArchitecture => if run.rec.state == Intake { Downhill(cfg, width, run, Architecting); }
      case BeginSupervision => if run.rec.state == Executing { Downhill(cfg, width, run, Supervising); }
      case Pause(_) =>
        if run.rec.state == Executing {
          IdlingThenDownhill(cfg, width, run, AddMessage(Message("system", "paused", NoNote)), WorkerWaitingHuman);
        }
      case Recover =>
        IdlingOnly(cfg, width, run, AUDIT);
        if run.rec.state == Revision {
          if PerformOp(run, Transition(Architecting)).Some? { IdlingOnly(cfg, width, PerformOp(run, Transition(Architecting)).value, AUDIT); }
          DownhillThen(cfg, width, run, Architecting, [AUDIT]);
          assert [Transition(Architecting)] + [AUDIT] == [Transition(Architecting), AUDIT];
        }
      case Other(op) => if Unrelated(op) { IdlingOnly(cfg, width, run, op); }
    }
  }

  lemma {:induction false} ChangesOfMore(run: RunState, ops: seq<Op>, op: Op)
    requires Idling(op)
    ensures Changes(run, ops + [op]) == Changes(run, ops)
    ensures Perform(run, ops + [op]) == Perform(run, ops) || (exists r :: PerformOp(Perform(run, ops), op) == Some(r) && Perform(run, ops + [op]) == r)
    decreases |ops|
  {
    hide PerformOp, Idling;
    if ops == [] {
      assert ops + [op] == [op] && [op][1..] == [];
      IdlingIsNoTransition(op);
      if PerformOp(run, op).Some? { NoMoreChange(PerformOp(run, op).value); }
    } else {
      assert (ops + [op])[0] == ops[0] && (ops + [op])[1..] == ops[1..] + [op];
      if PerformOp(run, ops[0]).Some? { ChangesOfMore(PerformOp(run, ops[0]).value, ops[1..], op); }
    }
  }

  lemma IdlingIsNoTransition(op: Op)
    requires Idling(op)
    ensures !op.Transition?
  {
  }

  // An idling operation at the end of a script costs nothing.
  lemma IdlingAfter(cfg: Config, width: nat, run: RunState, ops: seq<Op>, op: Op, debt: nat)
    requires Pays(cfg, width, run, ops, debt) && Idling(op)
    ensures Pays(cfg, width, run, ops + [op], debt)
  {
    hide Measure, PerformOp, Perform, Changes, Idling, Revisions;
    ChangesOfMore(run, ops, op);
    var before := Perform(run, ops);
    if Perform(run, ops + [op]) != before { IdlingIsFree(cfg, width, before, op); }
  }

  lemma FailurePays(cfg: Config, width: nat, run: RunState)
    requires PlanFits(width, run.rec) && run.rec.state == Executing
    ensures Pays(cfg, width, run, FailureScript(cfg, |Revisions(run.rec.messages)|), 0)
  {
    hide Pays, PerformOp, Measure, PlanFits, Revisions, RevisionScript;
    var revision := RevisionScript(cfg.recoveryRevisions, Supervising, |Revisions(run.rec.messages)|);
    var rest := if revision == [] then [] else revision + [AUDIT];
    if PerformOp(run, Transition(Supervising)).Some? {
      TransitionFacts(run, Supervising);
      var run1 := PerformOp(run, Transition(Supervising)).value;
      NothingIsFree(cfg, width, run1, 0);
      RevisionPays(cfg, width, run1, cfg.recoveryRevisions, Supervising);
      IdlingAfter(cfg, width, run1, revision, AUDIT, 0);
    }
    DownhillThen(cfg, width, run, Supervising, rest);
  }

  // Plans have at most `width` workers.
  predicate Narrow(width: nat, cmd: Command) { cmd.Build? ==> |cmd.plan.workers| <= width }

  lemma CommandPays(cfg: Config, width: nat, run: RunState, cmd: Command)
    requires Settled(run.rec) && PlanFits(width, run.rec) && Narrow(width, cmd) && SortedRisk(cfg)
    ensures Pays(cfg, width, run, Script(cfg, run.rec, cmd), 0)
  {
    hide Settled, PlanFits, SortedRisk, Pays, AnswerScript, ResumeScript, RevisionScript, FailureScript;
    match cmd {
      case Build(plan, gateId, now) => BuildPays(cfg, width, run, plan, gateId, now);
      case Answer(_, _, _, _, _) => GatesPay(cfg, width, run, cmd);
      case Withdraw(_) => GatesPay(cfg, width, run, cmd);
      case ArchitectureDecision(d) => ArchitecturePays(cfg, width, run, d);
      case FinalDecision(d, final) => FinalPays(cfg, width, run, d, final);
      case RequestRevision => RevisionPays(cfg, width, run, cfg.maxRevisions, run.rec.state);
      case OpenToolGate(i, network, gateId, now) => ToolPays(cfg, width, run, i, network, gateId, now);
      case ResumeTool(t) => ResumePays(cfg, width, run, t);
      case Supervise(_, _, _, _) => SupervisePays(cfg, width, run, cmd);
      case RecoverFailure =>
        NothingIsFree(cfg, width, run, 0);
        if run.rec.state == Executing { FailurePays(cfg, width, run); }
      case _ => SimplePays(cfg, width, run, cmd);
    }
  }

  // ----- Whole runs -----

  lemma {:induction false} PlanStaysFitting(cfg: Config, width: nat, run: RunState, ops: seq<Op>)
    requires PlanFits(width, run.rec) && forall op :: op in ops && op.SetPlan? ==> |op.plan.workers| <= width
    ensures PlanFits(width, Perform(run, ops).rec)
    decreases |ops|
  {
    if ops != [] {
      hide Apply;
      if Apply(run.rec, ops[0]).Commit? { AppliedState(run.rec, ops[0]); }
      match PerformOp(run, ops[0]) {
        case None =>
        case Some(run') => PlanStaysFitting(cfg, width, run', ops[1..]);
      }
    }
  }

  // None of these operations plans.
  ghost predicate PlansNothing(ops: seq<Op>) { forall op :: op in ops ==> !op.SetPlan? }

  lemma PartsPlanNothing(limit: nat, state: WorkflowState, count: nat, g: ApprovalGate)
    ensures PlansNothing(RevisionScript(limit, state, count)) && PlansNothing(GateRequest(g))
  {
    hide ValidGate;
  }

  lemma VerdictPlansNothing(cfg: Config, rec: SessionRecord, qa: QaResult, gateId: string, now: string)
    ensures PlansNothing(VerdictScript(cfg, rec, qa, gateId, now))
  {
    hide RevisionScript, GateRequest, Revisions;
    PartsPlanNothing(cfg.maxRevisions, Supervising, |Revisions(rec.messages)|, FinalGate(rec.runId, gateId, Sha256(qa), now));
  }

  lemma DecisionPlansNothing(cfg: Config, rec: SessionRecord, cmd: Command)
    requires cmd.ArchitectureDecision? || cmd.FinalDecision? || cmd.RequestRevision?
    ensures PlansNothing(Script(cfg, rec, cmd))
  {
    hide RevisionScript, IsRecordedIn, Revisions, RecordedHash, ValidFinal, Find;
    var g := ArchitectureGate("", "", ArchitecturePlan("", [], [], []), "");
    PartsPlanNothing(cfg.maxRevisions, WaitingArchitectApproval, |Revisions(rec.messages)|, g);
    PartsPlanNothing(cfg.maxRevisions, WaitingFinalApproval, |Revisions(rec.messages)|, g);
    PartsPlanNothing(cfg.maxRevisions, rec.state, |Revisions(rec.messages)|, g);
  }

  lemma ResumePlansNothing(cfg: Config, rec: SessionRecord, t: ToolVerdict)
    ensures PlansNothing(ResumeScript(cfg, rec, t))
  {
    hide RevisionScript, ValidGate, ValidDecision, Revisions, Find, Strip, Blank;
    PartsPlanNothing(cfg.maxRevisions, WorkerWaitingHuman, |Revisions(rec.messages)|, ArchitectureGate("", "", ArchitecturePlan("", [], [], []), ""));
  }

  lemma PlansOfScript(cfg: Config, width: nat, rec: SessionRecord, cmd: Command)
    requires Narrow(width, cmd)
    ensures forall op :: op in Script(cfg, rec, cmd) && op.SetPlan? ==> |op.plan.workers| <= width
  {
    hide RevisionScript, GateRequest, VerdictScript, ResumeScript, CompletionScript, ValidGate, ValidDecision, IsRecordedIn, Matching,
      Evaluate, EvidenceOf, Enumerates, Find, Strip, Blank, PlanRequest, PlanRisk, ToolGate, ArchitectureGate, Revisions;
    match cmd {
      case Build(plan, gateId, now) => PartsPlanNothing(cfg.maxRevisions, rec.state, 0, ArchitectureGate(rec.runId, gateId, plan, now));
      case OpenToolGate(i, network, gateId, now) =>
        if rec.plan.Some? && i < |rec.plan.value.workers| {
          PartsPlanNothing(cfg.maxRevisions, rec.state, 0, ToolGate(PlanRequest(cfg, rec, i, network), PlanRisk(cfg, rec, i), gateId, now));
        }
      case Supervise(order, gateId, now, _) => SupervisionPlansNothing(cfg, rec, order, gateId, now);
      case ResumeTool(t) => ResumePlansNothing(cfg, rec, t);
      case ArchitectureDecision(_) => DecisionPlansNothing(cfg, rec, cmd);
      case FinalDecision(_, _) => DecisionPlansNothing(cfg, rec, cmd);
      case RequestRevision => DecisionPlansNothing(cfg, rec, cmd);
      case RecoverFailure =>
        PartsPlanNothing(cfg.recoveryRevisions, Supervising, |Revisions(rec.messages)|, ArchitectureGate("", "", ArchitecturePlan("", [], [], []), ""));
      case _ =>
    }
  }

  lemma SupervisionPlansNothing(cfg: Config, rec: SessionRecord, order: seq<string>, gateId: string, now: string)
    ensures forall qa :: PlansNothing(VerdictScript(cfg, rec, qa, gateId, now))
  {
    hide VerdictScript, PlansNothing;
    forall qa ensures PlansNothing(VerdictScript(cfg, rec, qa, gateId, now)) { VerdictPlansNothing(cfg, rec, qa, gateId, now); }
  }

  // The state changes of a whole run.
  ghost function TotalChanges(cfg: Config, run: RunState, cmds: seq<Command>): nat {
    if cmds == [] then 0
    else
      var before := CarryAll(cfg, run, cmds[..|cmds| - 1]);
      TotalChanges(cfg, run, cmds[..|cmds| - 1]) + Changes(before, Script(cfg, before.rec, cmds[|cmds| - 1]))
  }

  lemma AllOfIt(cfg: Config, run: RunState, cmd: Command)
    ensures Carry(cfg, run, cmd) == Proceed(cfg, run, Stride(cmd, |Script(cfg, run.rec, cmd)|))
  {
    hide Script, Perform;
    var ops := Script(cfg, run.rec, cmd);
    assert ops[..|ops|] == ops;
  }

  lemma {:induction false} EveryRunPays(cfg: Config, width: nat, runId: string, cmds: seq<Command>)
    requires SortedRisk(cfg) && forall cmd :: cmd in cmds ==> Narrow(width, cmd)
    ensures var run := CarryAll(cfg, NewRun(runId), cmds);
      && Inv(cfg, run) && PlanFits(width, run.rec)
      && Measure(cfg, width, run.rec) + TotalChanges(cfg, NewRun(runId), cmds) <= Measure(cfg, width, NewSession(runId))
  {
    if cmds == [] {
      EveryRunKeepsInv(cfg, runId, []);
    } else {
      hide Inv, Measure, Script, Perform, Changes, PlanFits, SortedRisk, Narrow, Settled;
      var cmd := cmds[|cmds| - 1];
      EveryRunPays(cfg, width, runId, cmds[..|cmds| - 1]);
      var before := CarryAll(cfg, NewRun(runId), cmds[..|cmds| - 1]);
      AllOfIt(cfg, before, cmd);
      StepKeepsInv(cfg, before, Stride(cmd, |Script(cfg, before.rec, cmd)|));
      SettledRecord(cfg, before);
      CommandPays(cfg, width, before, cmd);
      PlansOfScript(cfg, width, before.rec, cmd);
      PlanStaysFitting(cfg, width, before, Script(cfg, before.rec, cmd));
    }
  }

  lemma SettledRecord(cfg: Config, run: RunState)
    requires Inv(cfg, run)
    ensures Settled(run.rec)
  {
  }

  /**
   Whole-run termination. With a fixed registry, plans of at most `width` workers and no crash, the commands of
   clients, humans and recovery change the state of a run at most (4 width + 8)(R + 1) times, R being the larger
   of the two revision limits, however many commands there are.
   */
  lemma StateChangesAreBounded(cfg: Config, width: nat, runId: string, cmds: seq<Command>)
    requires SortedRisk(cfg) && forall cmd :: cmd in cmds ==> Narrow(width, cmd)
    ensures var most := if cfg.maxRevisions < cfg.recoveryRevisions then cfg.recoveryRevisions else cfg.maxRevisions;
      TotalChanges(cfg, NewRun(runId), cmds) <= (4 * width + 8) * (most + 1)
  {
    hide TotalChanges, CarryAll, Measure, Narrow;
    EveryRunPays(cfg, width, runId, cmds);
    InitialMeasure(cfg, width, runId);
    OneLess(width, Most(cfg) + 1);
  }

  lemma InitialMeasure(cfg: Config, width: nat, runId: string)
    ensures Measure(cfg, width, NewSession(runId)) == (4 * width + 8) * Most(cfg) + 4 * width + 8
  {
  }
}
