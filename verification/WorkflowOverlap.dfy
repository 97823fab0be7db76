/**
 Commands that overlap. A client decides on the record it reads and carries out its operations one by one on whatever
 the record has become by then; between any two of them other clients act, and a client may stop at any point.
 */
module WorkflowOverlap {
  import opened Wrappers
  import opened Contracts
  import opened Text
  import opened SessionStore
  import opened Approvals
  import opened RestartTransparency
  import opened Supervisor
  import opened Authorization
  import opened Workflow
  import opened WorkflowSafety
  import opened WorkflowScripts
  import opened WorkflowEffects
  import opened WorkflowCoverage

  /** A command, and how many operations were stored when its client read the record and decided what to do. */
  datatype Decided = Decided(cmd: Command, at: nat)

  /** The command that moved the run to EXECUTING, and how many operations were stored before it did. */
  datatype Started = Started(choice: Decided, at: nat)

  /**
   The run, what each client still has to do, and the operations that were stored; what each client decided, which
   command last moved the run to EXECUTING, and which one stored the final result that is on record.
   */
  datatype Shared = Shared(
    run: RunState, pending: map<nat, seq<Op>>, log: seq<Op>,
    decided: map<nat, Decided>, started: Option<Started>, bound: Option<Decided>)

  datatype Move =
    | Check(client: nat, cmd: Command)
    | Operate(client: nat)

  function Begin(runId: string): Shared { Shared(NewRun(runId), map[], [], map[], None, None) }

  // Who is remembered for an operation that client c stored.
  function Stored(s': Shared, s: Shared, c: nat, op: Op): Shared {
    if c !in s.decided then s'
    else if op == Transition(Executing) then s'.(started := Some(Started(s.decided[c], |s.log|)))
    else if op.SetFinal? then s'.(bound := Some(s.decided[c]))
    else s'
  }

  ghost function Take(cfg: Config, s: Shared, m: Move): Shared {
    match m
    case Check(c, cmd) => s.(pending := s.pending[c := Script(cfg, s.run.rec, cmd)], decided := s.decided[c := Decided(cmd, |s.log|)])
    case Operate(c) =>
      if c !in s.pending || s.pending[c] == [] then s
      else
        var op := s.pending[c][0];
        match PerformOp(s.run, op)
        case None => s.(pending := s.pending[c := []])
        case Some(run) =>
          var s' := s.(run := run, pending := s.pending[c := s.pending[c][1..]]);
          if Apply(s.run.rec, op).Commit? then Stored(s'.(log := s.log + [op]), s, c, op) else s'
  }

  ghost function TakeAll(cfg: Config, s: Shared, moves: seq<Move>): Shared
    decreases |moves|
  {
    if moves == [] then s else TakeAll(cfg, Take(cfg, s, moves[0]), moves[1..])
  }

  // ----- What the stored operations say -----

  // The plan that was stored last.
  function LastPlan(log: seq<Op>): Option<ArchitecturePlan> {
    if log == [] then None
    else match log[|log| - 1] case SetPlan(p) => Some(p) case _ => LastPlan(log[..|log| - 1])
  }

  // What the gate of a kind shows that was opened last.
  function LastShown(log: seq<Op>, kind: string): Option<GateContext> {
    if log == [] then None
    else
      var last := log[|log| - 1];
      if last.AddGate? && last.gate.kind == kind then Some(last.gate.context) else LastShown(log[..|log| - 1], kind)
  }

  predicate NotesEvidence(op: Op) { op.AddMessage? && op.message.note.QaNote? && op.message.note.evidenceHash.Some? }

  // The passing evidence that was noted last.
  function LastEvidence(log: seq<Op>): Option<Digest> {
    if log == [] then None
    else
      var last := log[|log| - 1];
      if NotesEvidence(last) then last.message.note.evidenceHash else LastEvidence(log[..|log| - 1])
  }

  lemma Logging(log: seq<Op>, op: Op)
    ensures LastPlan(log + [op]) == if op.SetPlan? then Some(op.plan) else LastPlan(log)
    ensures forall kind :: LastShown(log + [op], kind) == if op.AddGate? && op.gate.kind == kind then Some(op.gate.context) else LastShown(log, kind)
    ensures LastEvidence(log + [op]) == if NotesEvidence(op) then op.message.note.evidenceHash else LastEvidence(log)
  {
    assert (log + [op])[..|log|] == log;
  }

  // ----- What every move keeps -----

  // The operation still means what it meant on the record it was decided on.
  ghost predicate Sane(rec: SessionRecord, op: Op) {
    match op
    case ResolveGate(g, _) => SameGate(rec, g)
    case CancelGate(g) => SameGate(rec, g)
    case AddMessage(m) => SoundNote(m, rec.runId)
    case _ => true
  }

  // A client that is about to wait for the approval of a plan has stored one.
  ghost predicate Prepared(rec: SessionRecord, ops: seq<Op>) {
    forall i :: 0 <= i < |ops| && ops[i] == Transition(WaitingArchitectApproval) ==> rec.plan.Some? || exists j :: 0 <= j < i && ops[j].SetPlan?
  }

  ghost predicate Fits(rec: SessionRecord, ops: seq<Op>) {
    (forall op :: op in ops ==> Sane(rec, op)) && Prepared(rec, ops)
  }

  ghost predicate Logged(rec: SessionRecord, log: seq<Op>) {
    && UniqueGates(rec.gates)
    && rec.plan == LastPlan(log)
    && (forall kind :: Shown(rec.gates, kind) == LastShown(log, kind))
    && RecordedHash(rec.messages, rec.runId) == Ok(LastEvidence(log))
    && (rec.state == WaitingArchitectApproval ==> rec.plan.Some?)
  }

  ghost predicate Coherent(s: Shared) {
    Logged(s.run.rec, s.log) && forall c :: c in s.pending ==> Fits(s.run.rec, s.pending[c])
  }

  lemma ClosedGate(rec: SessionRecord, op: Op)
    requires (op.ResolveGate? || op.CancelGate?) && SameGate(rec, op.gate) && Apply(rec, op).Commit?
    ensures GateIndex(rec.gates, op.gate.gateId).Some?
    ensures var i := GateIndex(rec.gates, op.gate.gateId).value;
      && rec.gates[i].kind == op.gate.kind && rec.gates[i].context == op.gate.context
      && Apply(rec, op).record.gates == rec.gates[i := op.gate]
  {
    hide FindDecision;
  }

  lemma ShownAfter(rec: SessionRecord, op: Op, kind: string)
    requires Sane(rec, op) && Apply(rec, op).Commit?
    ensures Shown(Apply(rec, op).record.gates, kind) ==
      if op.AddGate? && op.gate.kind == kind then Some(op.gate.context) else Shown(rec.gates, kind)
  {
    hide Apply, Shown, GateIndex, SoundNote, SameGate;
    if op.AddGate? {
      AddedGate(rec, op.gate);
      ShownAppended(rec.gates, op.gate, kind);
    } else if op.ResolveGate? || op.CancelGate? {
      ClosedGate(rec, op);
      ShownReplaced(rec.gates, GateIndex(rec.gates, op.gate.gateId).value, op.gate, kind);
    } else {
      UntouchedGates(rec, op);
    }
  }

  lemma HashAfter(rec: SessionRecord, op: Op)
    requires Sane(rec, op) && Apply(rec, op).Commit?
    ensures RecordedHash(Apply(rec, op).record.messages, rec.runId) ==
      if NotesEvidence(op) then Ok(Some(op.message.note.evidenceHash.value)) else RecordedHash(rec.messages, rec.runId)
  {
    hide Apply, RecordedHash, SameGate;
    AppliedMessages(rec, op);
    if op.AddMessage? { HashAppended(rec.messages, op.message, rec.runId); }
  }

  lemma GatesStayUnique(rec: SessionRecord, op: Op)
    requires UniqueGates(rec.gates) && Sane(rec, op) && Apply(rec, op).Commit?
    ensures UniqueGates(Apply(rec, op).record.gates)
  {
    hide Apply, GateIndex, SoundNote, SameGate, UniqueGates;
    if op.AddGate? {
      NewGateId(rec, op.gate);
      AddedGate(rec, op.gate);
      AppendedGateIsUnique(rec.gates, op.gate);
    } else if op.ResolveGate? || op.CancelGate? {
      ClosedGate(rec, op);
      ReplacedIsUnique(rec.gates, GateIndex(rec.gates, op.gate.gateId).value, op.gate);
    } else {
      UntouchedGates(rec, op);
    }
  }

  lemma NewGateId(rec: SessionRecord, g: ApprovalGate)
    requires Apply(rec, AddGate(g)).Commit?
    ensures GateIndex(rec.gates, g.gateId).None?
  {
  }

  // Gates are never removed, renamed or shown otherwise, so a decided operation keeps its meaning.
  lemma SaneStays(rec: SessionRecord, op: Op, other: Op)
    requires UniqueGates(rec.gates) && Sane(rec, op) && Apply(rec, op).Commit? && Sane(rec, other)
    ensures Sane(Apply(rec, op).record, other)
  {
    hide Apply, GateIndex, SoundNote, UniqueGates;
    AppliedMessages(rec, op);
    if other.ResolveGate? || other.CancelGate? { SameGateStays(rec, op, other.gate); }
  }

  lemma SameGateStays(rec: SessionRecord, op: Op, g: ApprovalGate)
    requires UniqueGates(rec.gates) && Sane(rec, op) && Apply(rec, op).Commit? && SameGate(rec, g)
    ensures SameGate(Apply(rec, op).record, g)
  {
    hide Apply, GateIndex, SoundNote, UniqueGates, Find;
    if op.AddGate? {
      AddedGate(rec, op.gate);
      FindAppended(rec.gates, op.gate, g.gateId);
    } else if op.ResolveGate? || op.CancelGate? {
      ClosedGate(rec, op);
      FindReplaced(rec.gates, GateIndex(rec.gates, op.gate.gateId).value, op.gate, g.gateId);
    } else {
      UntouchedGates(rec, op);
    }
  }

  lemma FitsStays(rec: SessionRecord, op: Op, ops: seq<Op>, revision: nat)
    requires UniqueGates(rec.gates) && Sane(rec, op) && Apply(rec, op).Commit? && Fits(rec, ops)
    ensures Fits(Apply(rec, op).record.(revision := revision), ops)
  {
    hide Apply, Sane, UniqueGates;
    AppliedState(rec, op);
    forall other | other in ops ensures Sane(Apply(rec, op).record.(revision := revision), other) {
      SaneStays(rec, op, other);
      SaneIgnoresRevision(Apply(rec, op).record, other, revision);
    }
  }

  lemma SaneIgnoresRevision(rec: SessionRecord, op: Op, revision: nat)
    requires Sane(rec, op)
    ensures Sane(rec.(revision := revision), op)
  {
    hide GateIndex, SoundNote;
  }

  lemma LoggedAfter(rec: SessionRecord, log: seq<Op>, ops: seq<Op>, revision: nat)
    requires Logged(rec, log) && ops != [] && Fits(rec, ops) && Apply(rec, ops[0]).Commit?
    ensures Logged(Apply(rec, ops[0]).record.(revision := revision), log + [ops[0]])
  {
    hide Apply, Sane, UniqueGates, Shown, RecordedHash, LastPlan, LastShown, LastEvidence;
    var op := ops[0];
    Logging(log, op);
    AppliedState(rec, op);
    AppliedMessages(rec, op);
    GatesStayUnique(rec, op);
    HashAfter(rec, op);
    forall kind ensures Shown(Apply(rec, op).record.gates, kind) == LastShown(log + [op], kind) { ShownAfter(rec, op, kind); }
  }

  // The rest of a script whose first operation was carried out.
  lemma RestFits(rec: SessionRecord, ops: seq<Op>, revision: nat)
    requires UniqueGates(rec.gates) && ops != [] && Fits(rec, ops) && Apply(rec, ops[0]).Commit?
    ensures Fits(Apply(rec, ops[0]).record.(revision := revision), ops[1..])
  {
    hide Apply, Sane, UniqueGates;
    FitsStays(rec, ops[0], ops, revision);
    AppliedState(rec, ops[0]);
    var rec' := Apply(rec, ops[0]).record.(revision := revision);
    forall i | 0 <= i < |ops| - 1 && ops[1..][i] == Transition(WaitingArchitectApproval)
      ensures rec'.plan.Some? || exists j :: 0 <= j < i && ops[1..][j].SetPlan?
    {
      assert ops[i + 1] == Transition(WaitingArchitectApproval);
      if rec'.plan.None? {
        var j :| 0 <= j < i + 1 && ops[j].SetPlan?;
        assert ops[1..][j - 1] == ops[j];
      }
    }
  }

  lemma RestFitsUnchanged(rec: SessionRecord, ops: seq<Op>)
    requires ops != [] && Fits(rec, ops) && !ops[0].SetPlan?
    ensures Fits(rec, ops[1..])
  {
    hide Sane;
    forall i | 0 <= i < |ops| - 1 && ops[1..][i] == Transition(WaitingArchitectApproval)
      ensures rec.plan.Some? || exists j :: 0 <= j < i && ops[1..][j].SetPlan?
    {
      assert ops[i + 1] == Transition(WaitingArchitectApproval);
      if rec.plan.None? {
        var j :| 0 <= j < i + 1 && ops[j].SetPlan?;
        assert ops[1..][j - 1] == ops[j];
      }
    }
  }

  lemma StoringAlwaysCommits(rec: SessionRecord, op: Op)
    requires op.SetPlan?
    ensures Apply(rec, op).Commit?
  {
  }

  lemma OperateKeepsCoherent(cfg: Config, s: Shared, c: nat)
    requires Coherent(s)
    ensures Coherent(Take(cfg, s, Operate(c)))
  {
    hide Logged, Fits, Apply, PerformOp;
    var s' := Take(cfg, s, Operate(c));
    if c in s.pending && s.pending[c] != [] {
      var ops := s.pending[c];
      NoOpsFit(s.run.rec);
      if Apply(s.run.rec, ops[0]).Commit? {
        CommittedOp(s.run, ops[0]);
        var revision := s.run.rec.revision + 1;
        UniqueWhenLogged(s.run.rec, s.log);
        LoggedAfter(s.run.rec, s.log, ops, revision);
        RestFits(s.run.rec, ops, revision);
        forall d | d in s'.pending && d != c ensures Fits(s'.run.rec, s'.pending[d]) {
          FirstIsSane(s.run.rec, ops);
          FitsStays(s.run.rec, ops[0], s.pending[d], revision);
        }
      } else {
        NotCommitted(s.run, ops[0]);
        if ops[0].SetPlan? { StoringAlwaysCommits(s.run.rec, ops[0]); } else { RestFitsUnchanged(s.run.rec, ops); }
      }
    }
  }

  lemma FirstIsSane(rec: SessionRecord, ops: seq<Op>)
    requires ops != [] && Fits(rec, ops)
    ensures Sane(rec, ops[0])
  {
    hide Sane;
  }

  lemma NoOpsFit(rec: SessionRecord)
    ensures Fits(rec, [])
  {
  }

  lemma UniqueWhenLogged(rec: SessionRecord, log: seq<Op>)
    requires Logged(rec, log)
    ensures UniqueGates(rec.gates)
  {
    hide UniqueGates;
  }

  // ----- What a client decides on the record it reads -----

  // Operations that mean the same on every record.
  predicate Timeless(op: Op) {
    match op
    case ResolveGate(_, _) => false
    case CancelGate(_) => false
    case AddMessage(m) => !NotesEvidence(op)
    case Transition(target) => target != WaitingArchitectApproval
    case _ => true
  }

  lemma TimelessFit(rec: SessionRecord, ops: seq<Op>)
    requires forall op :: op in ops ==> Timeless(op)
    ensures Fits(rec, ops)
  {
    hide SameGate;
    forall i | 0 <= i < |ops| ensures ops[i] != Transition(WaitingArchitectApproval) { assert Timeless(ops[i]); }
    forall op | op in ops ensures Sane(rec, op) { assert Timeless(op); }
  }

  lemma RevisionIsTimeless(limit: nat, state: WorkflowState, count: nat)
    ensures forall op :: op in RevisionScript(limit, state, count) ==> Timeless(op)
  {
  }

  lemma FirstThenTimeless(rec: SessionRecord, op: Op, rest: seq<Op>)
    requires Sane(rec, op) && op != Transition(WaitingArchitectApproval) && forall other :: other in rest ==> Timeless(other)
    ensures Fits(rec, [op] + rest)
  {
    hide SameGate;
    var ops := [op] + rest;
    forall i | 0 <= i < |ops| ensures ops[i] != Transition(WaitingArchitectApproval) {
      if i > 0 { assert ops[i] == rest[i - 1] && Timeless(rest[i - 1]); }
    }
    forall other | other in ops ensures Sane(rec, other) {
      if other != op {
        assert other in rest;
        assert Timeless(other);
      }
    }
  }

  lemma AnswerFits(rec: SessionRecord, gateId: string, decision: DecisionType, feedback: string, actor: string, now: string, rest: seq<Op>)
    requires forall other :: other in rest ==> Timeless(other)
    ensures Fits(rec, AnswerScript(rec, gateId, decision, feedback, actor, now) + rest)
  {
    hide ValidGate, ValidDecision, Blank, Strip, GateIndex, Fits;
    var script := AnswerScript(rec, gateId, decision, feedback, actor, now);
    TimelessFit(rec, rest);
    if script == [] {
      assert script + rest == rest;
    } else {
      FirstThenTimeless(rec, script[0], rest);
      assert script == [script[0]];
    }
  }

  lemma ResumeFits(cfg: Config, rec: SessionRecord, t: ToolVerdict)
    ensures Fits(rec, ResumeScript(cfg, rec, t))
  {
    hide AnswerScript, RevisionScript, Revisions, Find, BelongsTo, Fits;
    NoOpsFit(rec);
    var script := ResumeScript(cfg, rec, t);
    if script != [] {
      var answered := AnswerScript(rec, t.gateId, t.decision, t.feedback, t.actor, t.timestamp);
      RevisionIsTimeless(cfg.maxRevisions, WorkerWaitingHuman, |Revisions(rec.messages)|);
      var rest := [SetOutput(WorkerOutput(t.workerId, rec.runId, if t.decision == Approve then "approved" else "denied", None))]
        + (if t.decision == Approve then [Transition(Executing)]
           else RevisionScript(cfg.maxRevisions, WorkerWaitingHuman, |Revisions(rec.messages)|));
      AnswerFits(rec, t.gateId, t.decision, t.feedback, t.actor, t.timestamp, rest);
      assert script == answered + rest;
    }
  }

  lemma BuildFits(cfg: Config, rec: SessionRecord, plan: ArchitecturePlan, gateId: string, now: string)
    ensures Fits(rec, Script(cfg, rec, Build(plan, gateId, now)))
  {
    hide ValidGate;
    var ops := Script(cfg, rec, Build(plan, gateId, now));
    if ops != [] { assert ops[0].SetPlan? && ops[1] == Transition(WaitingArchitectApproval); }
  }

  lemma VerdictFits(cfg: Config, rec: SessionRecord, qa: QaResult, gateId: string, now: string)
    requires qa.runId == rec.runId
    ensures forall op :: op in VerdictScript(cfg, rec, qa, gateId, now) ==> Sane(rec, op) && op != Transition(WaitingArchitectApproval)
  {
    hide Revisions, ValidGate, RevisionScript;
    RevisionIsTimeless(cfg.maxRevisions, Supervising, |Revisions(rec.messages)|);
  }

  lemma SuperviseFits(cfg: Config, rec: SessionRecord, order: seq<string>, gateId: string, now: string, noted: bool)
    ensures Fits(rec, Script(cfg, rec, Supervise(order, gateId, now, noted)))
  {
    hide VerdictScript, Evaluate, EvidenceOf, Enumerates, Sane;
    NoOpsFit(rec);
    if rec.state == Supervising && rec.plan.Some? && Enumerates(order, rec.outputs) {
      EnumeratesOnlyOutputs(order, rec.outputs);
      var verdict := Evaluate(EvidenceOf(rec, order));
      if verdict.Ok? {
        PassIsPassed(rec, order);
        VerdictFits(cfg, rec, verdict.value, gateId, now);
        NoteIsSane(rec, verdict.value);
      }
    }
  }

  lemma NoteIsSane(rec: SessionRecord, qa: QaResult)
    ensures Sane(rec, AddMessage(Message("supervisor", "verdict", QaNote(qa, None))))
  {
  }

  lemma WithdrawFits(cfg: Config, rec: SessionRecord, gateId: string)
    ensures Fits(rec, Script(cfg, rec, Withdraw(gateId)))
  {
    hide GateIndex;
  }

  lemma DecisionIsTimeless(cfg: Config, rec: SessionRecord, cmd: Command)
    requires cmd.ArchitectureDecision? || cmd.FinalDecision?
    ensures forall op :: op in Script(cfg, rec, cmd) ==> Timeless(op)
  {
    hide IsRecordedIn, RevisionScript, Revisions, Find, RecordedHash, ValidFinal;
    RevisionIsTimeless(cfg.maxRevisions, WaitingArchitectApproval, |Revisions(rec.messages)|);
    RevisionIsTimeless(cfg.maxRevisions, WaitingFinalApproval, |Revisions(rec.messages)|);
  }

  lemma OthersAreTimeless(cfg: Config, rec: SessionRecord, cmd: Command)
    requires cmd.Start? || cmd.BeginArchitecture? || cmd.RequestRevision? || cmd.OpenToolGate? || cmd.Pause? || cmd.BeginSupervision?
      || cmd.Recover? || cmd.RecoverFailure? || cmd.Other?
    ensures forall op :: op in Script(cfg, rec, cmd) ==> Timeless(op)
  {
    hide RevisionScript, Revisions, Find, Matching, PlanRisk, PlanRequest, ValidGate;
    RevisionIsTimeless(cfg.maxRevisions, rec.state, |Revisions(rec.messages)|);
    RevisionIsTimeless(cfg.recoveryRevisions, Supervising, |Revisions(rec.messages)|);
  }

  lemma ScriptFits(cfg: Config, rec: SessionRecord, cmd: Command)
    ensures Fits(rec, Script(cfg, rec, cmd))
  {
    hide Fits, AnswerScript, ResumeScript, RevisionScript, Timeless;
    match cmd {
      case Build(plan, gateId, now) => BuildFits(cfg, rec, plan, gateId, now);
      case Answer(gateId, decision, feedback, actor, now) =>
        AnswerFits(rec, gateId, decision, feedback, actor, now, []);
        assert AnswerScript(rec, gateId, decision, feedback, actor, now) + [] == AnswerScript(rec, gateId, decision, feedback, actor, now);
      case Withdraw(gateId) => WithdrawFits(cfg, rec, gateId);
      case ResumeTool(t) => ResumeFits(cfg, rec, t);
      case Supervise(order, gateId, now, noted) => SuperviseFits(cfg, rec, order, gateId, now, noted);
      case ArchitectureDecision(_) =>
        DecisionIsTimeless(cfg, rec, cmd);
        TimelessFit(rec, Script(cfg, rec, cmd));
      case FinalDecision(_, _) =>
        DecisionIsTimeless(cfg, rec, cmd);
        TimelessFit(rec, Script(cfg, rec, cmd));
      case _ =>
        OthersAreTimeless(cfg, rec, cmd);
        TimelessFit(rec, Script(cfg, rec, cmd));
    }
  }

  lemma MoveKeepsCoherent(cfg: Config, s: Shared, m: Move)
    requires Coherent(s)
    ensures Coherent(Take(cfg, s, m))
  {
    hide Logged, Fits, Script, PerformOp, Apply;
    match m {
      case Check(c, cmd) => ScriptFits(cfg, s.run.rec, cmd);
      case Operate(c) => OperateKeepsCoherent(cfg, s, c);
    }
  }

  lemma {:induction false} MovesKeepCoherent(cfg: Config, s: Shared, moves: seq<Move>)
    requires Coherent(s)
    ensures Coherent(TakeAll(cfg, s, moves))
    decreases |moves|
  {
    hide Coherent, Take;
    if moves != [] {
      MoveKeepsCoherent(cfg, s, moves[0]);
      MovesKeepCoherent(cfg, Take(cfg, s, moves[0]), moves[1..]);
    }
  }

  /**
   However commands overlap and wherever clients stop: the plan on record is the one stored last, every kind's newest
   gate is the one opened last, and the newest passing evidence is the one noted last.
   */
  lemma TheLogDecides(cfg: Config, runId: string, moves: seq<Move>)
    ensures var s := TakeAll(cfg, Begin(runId), moves);
      Logged(s.run.rec, s.log)
  {
    hide Fits, TakeAll;
    assert Coherent(Begin(runId));
    MovesKeepCoherent(cfg, Begin(runId), moves);
  }

  // ----- Exactly when the newest gate shows the plan on record -----

  // One stored operation: a late plan keeps the property exactly when the newest gate shows that plan.
  lemma PlanStaysShownExactly(rec: SessionRecord, op: Op)
    requires Sane(rec, op) && Apply(rec, op).Commit?
    ensures ShowsPlan(Apply(rec, op).record) <==>
      match op
      case SetPlan(p) => Shown(rec.gates, "ARCHITECTURE") == Some(PlanContext(p))
      case AddGate(g) => if g.kind == "ARCHITECTURE" then rec.plan.Some? && g.context == PlanContext(rec.plan.value) else ShowsPlan(rec)
      case _ => ShowsPlan(rec)
  {
    hide Apply, Shown, Sane;
    ShownAfter(rec, op, "ARCHITECTURE");
    AppliedState(rec, op);
  }

  // Another plan was stored after the newest ARCHITECTURE gate's, or no such gate was opened.
  predicate Overtaken(log: seq<Op>) {
    LastPlan(log).None? || LastShown(log, "ARCHITECTURE") != Some(PlanContext(LastPlan(log).value))
  }

  /**
   Whatever overlaps: a recorded APPROVE starts the plan that was stored last. If that plan is the one of the newest
   ARCHITECTURE gate, it is what the approved gate showed exactly when that gate is the newest one or shows the same;
   if it is not, an approval of the newest gate, or of one that shows the same, starts a plan its gate did not show.
   */
  lemma OverlappingApproval(cfg: Config, runId: string, moves: seq<Move>, d: HumanDecision)
    requires var rec := TakeAll(cfg, Begin(runId), moves).run.rec;
      rec.state == WaitingArchitectApproval && IsRecordedIn(rec, d)
    requires d.decision == Approve
    ensures var s := TakeAll(cfg, Begin(runId), moves);
      var executing := Carry(cfg, s.run, ArchitectureDecision(d)).rec;
      var gate := Find(s.run.rec.gates, d.gateId).value;
      var newest := Newest(s.run.rec.gates, "ARCHITECTURE");
      && executing.state == Executing && executing.plan.Some? && executing.plan == LastPlan(s.log)
      && (Overtaken(s.log) <==> !ShowsPlan(s.run.rec))
      && (!Overtaken(s.log) ==>
            newest.Some?
            && (gate.context == PlanContext(executing.plan.value) <==> gate == newest.value || gate.context == newest.value.context))
      && (Overtaken(s.log) && newest.Some? && gate.context == newest.value.context ==> gate.context != PlanContext(executing.plan.value))
  {
    hide TakeAll, Carry, IsRecordedIn, LastPlan, LastShown, LastEvidence, RecordedHash, Newest, Find, UniqueGates;
    TheLogDecides(cfg, runId, moves);
    AnyApprovalExecutes(cfg, TakeAll(cfg, Begin(runId), moves).run, d);
  }

  /**
   In every state, EXECUTING included: the newest ARCHITECTURE gate shows the plan on record exactly when that plan was
   not stored after it, and then any gate shows the plan on record exactly when it shows what the newest one shows.
   */
  lemma PlanOnRecordIsTheShownOne(cfg: Config, runId: string, moves: seq<Move>, g: ApprovalGate)
    ensures var s := TakeAll(cfg, Begin(runId), moves);
      var newest := Newest(s.run.rec.gates, "ARCHITECTURE");
      && s.run.rec.plan == LastPlan(s.log)
      && (ShowsPlan(s.run.rec) <==> !Overtaken(s.log))
      && (!Overtaken(s.log) ==> newest.Some? && (g.context == PlanContext(s.run.rec.plan.value) <==> g.context == newest.value.context))
      && (Overtaken(s.log) && newest.Some? && g.context == newest.value.context && s.run.rec.plan.Some? ==>
            g.context != PlanContext(s.run.rec.plan.value))
  {
    hide TakeAll, LastPlan, LastShown, LastEvidence, RecordedHash, Newest, UniqueGates;
    TheLogDecides(cfg, runId, moves);
  }

  // ----- The same for the final evidence -----

  lemma CompletionUsesTheNewest(cfg: Config, run: RunState, d: HumanDecision, final: Option<FinalResult>)
    requires run.rec.state == WaitingFinalApproval && d.decision == Approve
    requires Carry(cfg, run, FinalDecision(d, final)).rec.state == Completed
    ensures Find(run.rec.gates, d.gateId).Some?
    ensures var result := Carry(cfg, run, FinalDecision(d, final)).rec.final;
      var hash := RecordedHash(run.rec.messages, run.rec.runId);
      hash.Ok? && hash.value.Some? && result.Some? && result.value.evidenceHash == hash.value
  {
    hide RecordedHash, IsRecordedIn, PerformOp, Perform, ValidFinal, Revisions;
    NoMoreOps(run);
    assert Script(cfg, run.rec, FinalDecision(d, final)) != [];
    RecordedGate(run.rec, d);
    ConfirmingChangesNothing(run, d);
    var rest := CompletionScript(run.rec, d, final);
    ManyOps(run, AddDecision(d), rest);
    if rest != [] {
      SetFinalResult(run, rest[0].final);
      var run1 := PerformOp(run, rest[0]).value;
      Moved(run1, Completed);
      OneOp(run1, Transition(Completed));
      ManyOps(run, rest[0], [Transition(Completed)]);
      assert rest == [rest[0]] + [Transition(Completed)];
    }
  }

  predicate EvidenceOvertaken(log: seq<Op>) {
    LastEvidence(log).None? || LastShown(log, "FINAL") != Some(QaContext(LastEvidence(log).value))
  }

  /** Whatever overlaps: a run completes on the evidence noted last, and the same holds of its newest FINAL gate. */
  lemma OverlappingCompletion(cfg: Config, runId: string, moves: seq<Move>, d: HumanDecision, final: Option<FinalResult>)
    requires TakeAll(cfg, Begin(runId), moves).run.rec.state == WaitingFinalApproval && d.decision == Approve
    requires Carry(cfg, TakeAll(cfg, Begin(runId), moves).run, FinalDecision(d, final)).rec.state == Completed
    ensures var s := TakeAll(cfg, Begin(runId), moves);
      var result := Carry(cfg, s.run, FinalDecision(d, final)).rec.final;
      var gate := Find(s.run.rec.gates, d.gateId);
      var newest := Newest(s.run.rec.gates, "FINAL");
      && gate.Some? && LastEvidence(s.log).Some? && result.Some? && result.value.evidenceHash == LastEvidence(s.log)
      && var completed := QaContext(LastEvidence(s.log).value);
         && (!EvidenceOvertaken(s.log) ==>
               newest.Some? && (gate.value.context == completed <==> gate.value == newest.value || gate.value.context == newest.value.context))
         && (EvidenceOvertaken(s.log) && newest.Some? && gate.value.context == newest.value.context ==> gate.value.context != completed)
  {
    hide TakeAll, Carry, LastPlan, LastShown, LastEvidence, RecordedHash, Newest, Find, UniqueGates;
    TheLogDecides(cfg, runId, moves);
    CompletionUsesTheNewest(cfg, TakeAll(cfg, Begin(runId), moves).run, d, final);
  }
}
