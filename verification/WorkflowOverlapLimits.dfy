/** What overlapping commands keep of the numbering of revisions and of the limits, and what they do not. */
module WorkflowOverlapLimits {
  import opened Wrappers
  import opened Contracts
  import opened Text
  import opened SessionStore
  import opened Approvals
  import opened Supervisor
  import opened Authorization
  import opened Workflow
  import opened WorkflowSafety
  import opened WorkflowScripts
  import opened WorkflowEffects
  import opened WorkflowFreshness
  import opened WorkflowOverlap
  import opened WorkflowOverlapRuns

  // ----- What every run keeps -----

  // A revision that is about to be noted has a number that was free when its client counted.
  predicate Numbers(cfg: Config, count: nat, op: Op) {
    op.AddMessage? && op.message.note.RevisionNote? ==> 1 <= op.message.note.attempt <= Most(cfg) && op.message.note.attempt <= count + 1
  }

  ghost predicate Numbering(cfg: Config, s: Shared) {
    && (var revisions := Revisions(s.run.rec.messages);
        forall i :: 0 <= i < |revisions| ==> 1 <= revisions[i] <= i + 1 && revisions[i] <= Most(cfg))
    && forall c, op :: c in s.pending && op in s.pending[c] ==> Numbers(cfg, |Revisions(s.run.rec.messages)|, op)
  }

  lemma SuperviseNumbers(cfg: Config, rec: SessionRecord, cmd: Command)
    requires cmd.Supervise?
    ensures forall op :: op in Script(cfg, rec, cmd) ==> Numbers(cfg, |Revisions(rec.messages)|, op)
  {
    hide ValidGate, Revisions, Evaluate, EvidenceOf, Enumerates;
  }

  lemma AnswerNumbers(cfg: Config, rec: SessionRecord, cmd: Command)
    requires cmd.Answer? || cmd.ResumeTool?
    ensures forall op :: op in Script(cfg, rec, cmd) ==> Numbers(cfg, |Revisions(rec.messages)|, op)
  {
    hide ValidGate, ValidDecision, Blank, Strip, Find, Revisions, BelongsTo;
  }

  lemma DecisionNumbers(cfg: Config, rec: SessionRecord, cmd: Command)
    requires cmd.ArchitectureDecision? || cmd.FinalDecision?
    ensures forall op :: op in Script(cfg, rec, cmd) ==> Numbers(cfg, |Revisions(rec.messages)|, op)
  {
    hide IsRecordedIn, Find, Revisions, RecordedHash, ValidFinal;
  }

  lemma OtherNumbers(cfg: Config, rec: SessionRecord, cmd: Command)
    requires !cmd.Supervise? && !cmd.Answer? && !cmd.ResumeTool? && !cmd.ArchitectureDecision? && !cmd.FinalDecision?
    ensures forall op :: op in Script(cfg, rec, cmd) ==> Numbers(cfg, |Revisions(rec.messages)|, op)
  {
    hide ValidGate, Find, Revisions, Matching, PlanRisk, PlanRequest;
  }

  lemma ScriptNumbers(cfg: Config, rec: SessionRecord, cmd: Command)
    ensures forall op :: op in Script(cfg, rec, cmd) ==> Numbers(cfg, |Revisions(rec.messages)|, op)
  {
    hide Script, Numbers, Revisions;
    match cmd {
      case Supervise(_, _, _, _) => SuperviseNumbers(cfg, rec, cmd);
      case Answer(_, _, _, _, _) => AnswerNumbers(cfg, rec, cmd);
      case ResumeTool(_) => AnswerNumbers(cfg, rec, cmd);
      case ArchitectureDecision(_) => DecisionNumbers(cfg, rec, cmd);
      case FinalDecision(_, _) => DecisionNumbers(cfg, rec, cmd);
      case _ => OtherNumbers(cfg, rec, cmd);
    }
  }

  lemma RevisionsAfter(run: RunState, op: Op)
    requires Apply(run.rec, op).Commit?
    ensures PerformOp(run, op).Some?
    ensures Revisions(PerformOp(run, op).value.rec.messages) ==
      Revisions(run.rec.messages) + (if op.AddMessage? && op.message.note.RevisionNote? then [op.message.note.attempt] else [])
  {
    hide Apply, Revisions;
    CommittedOp(run, op);
    AppliedMessages(run.rec, op);
    if op.AddMessage? { RevisionsAppended(run.rec.messages, op.message); }
  }

  lemma OperateKeepsNumbering(cfg: Config, s: Shared, c: nat)
    requires Numbering(cfg, s)
    ensures Numbering(cfg, Take(cfg, s, Operate(c)))
  {
    hide PerformOp, Apply, Revisions, Stored;
    if c in s.pending && s.pending[c] != [] {
      var op := s.pending[c][0];
      assert Numbers(cfg, |Revisions(s.run.rec.messages)|, op);
      if Apply(s.run.rec, op).Commit? {
        RevisionsAfter(s.run, op);
        StoredKeepsTheRest(s.(run := PerformOp(s.run, op).value, pending := s.pending[c := s.pending[c][1..]], log := s.log + [op]), s, c, op);
        var s' := Take(cfg, s, Operate(c));
        forall d, other | d in s'.pending && other in s'.pending[d] ensures Numbers(cfg, |Revisions(s'.run.rec.messages)|, other) {
          assert other in s.pending[d];
          assert Numbers(cfg, |Revisions(s.run.rec.messages)|, other);
        }
      } else {
        NotCommitted(s.run, op);
      }
    }
  }

  lemma StoredKeepsTheRest(s': Shared, s: Shared, c: nat, op: Op)
    ensures Stored(s', s, c, op).run == s'.run && Stored(s', s, c, op).pending == s'.pending
  {
  }

  lemma MoveKeepsNumbering(cfg: Config, s: Shared, m: Move)
    requires Numbering(cfg, s)
    ensures Numbering(cfg, Take(cfg, s, m))
  {
    hide PerformOp, Apply, Revisions, Stored, Script;
    match m {
      case Check(c, cmd) => ScriptNumbers(cfg, s.run.rec, cmd);
      case Operate(c) => OperateKeepsNumbering(cfg, s, c);
    }
  }

  lemma {:induction false} MovesKeepNumbering(cfg: Config, s: Shared, moves: seq<Move>)
    requires Numbering(cfg, s)
    ensures Numbering(cfg, TakeAll(cfg, s, moves))
    decreases |moves|
  {
    hide Numbering, Take;
    if moves != [] {
      MoveKeepsNumbering(cfg, s, moves[0]);
      MovesKeepNumbering(cfg, Take(cfg, s, moves[0]), moves[1..]);
    }
  }

  /**
   However commands overlap and wherever clients stop: no revision is numbered past the larger limit, nor past its
   position in the record.
   */
  lemma NumbersStayInRange(cfg: Config, runId: string, moves: seq<Move>)
    ensures var revisions := Revisions(TakeAll(cfg, Begin(runId), moves).run.rec.messages);
      forall i :: 0 <= i < |revisions| ==> 1 <= revisions[i] <= i + 1 && (revisions[i] <= cfg.maxRevisions || revisions[i] <= cfg.recoveryRevisions)
  {
    hide TakeAll, Revisions;
    assert Revisions(NewRun(runId).rec.messages) == [] by { NothingRevised(); }
    MovesKeepNumbering(cfg, Begin(runId), moves);
  }

  lemma NothingRevised()
    ensures Revisions([]) == []
  {
  }

  // ----- What they do not keep -----

  // How often the moves change the state of the run.
  ghost function Changed(cfg: Config, s: Shared, moves: seq<Move>): nat
    decreases |moves|
  {
    if moves == [] then 0
    else
      var next := Take(cfg, s, moves[0]);
      (if next.run.rec.state != s.run.rec.state then 1 else 0) + Changed(cfg, next, moves[1..])
  }

  lemma {:induction false} ChangedConcat(cfg: Config, s: Shared, a: seq<Move>, b: seq<Move>)
    ensures Changed(cfg, s, a + b) == Changed(cfg, s, a) + Changed(cfg, TakeAll(cfg, s, a), b)
    decreases |a|
  {
    hide Take;
    if a == [] {
      assert a + b == b;
    } else {
      assert (a + b)[0] == a[0] && (a + b)[1..] == a[1..] + b;
      ChangedConcat(cfg, Take(cfg, s, a[0]), a[1..], b);
    }
  }

  lemma {:induction false} ChangedAtAll(cfg: Config, s: Shared, moves: seq<Move>)
    requires TakeAll(cfg, s, moves).run.rec.state != s.run.rec.state
    ensures Changed(cfg, s, moves) >= 1
    decreases |moves|
  {
    hide Take;
    if moves != [] && Take(cfg, s, moves[0]).run.rec.state == s.run.rec.state { ChangedAtAll(cfg, Take(cfg, s, moves[0]), moves[1..]); }
  }

  const NOTE: Op := AddMessage(RevisionMessage(1))

  // The first plan's approval has started a plan, and clients 1 to k have each moved the run back without having noted it yet.
  ghost predicate Slow(s: Shared, k: nat) {
    && s.run.rec.runId == "run" && s.run.rec.state == Executing && s.run.rec.messages == []
    && s.run.rec.gates != [] && s.run.rec.gates[0] == ResolvedArchitecture() && s.run.rec.decisions == [Said("a", "run", Approve, "t")]
    && (forall g :: g in s.run.rec.gates ==> |g.gateId| <= k + 1)
    && (forall c :: c in s.pending && s.pending[c] != [] ==> 1 <= c <= k)
    && (forall c :: 1 <= c <= k ==> c in s.pending && s.pending[c] == [NOTE])
  }

  function FreshId(k: nat): string { seq(k + 2, _ => 'b') }

  lemma {:induction false} NoGateOfThatLength(gates: seq<ApprovalGate>, id: string)
    requires forall g :: g in gates ==> |g.gateId| < |id|
    ensures GateIndex(gates, id).None?
  {
    if gates != [] { NoGateOfThatLength(gates[1..], id); }
  }

  // Client c decides on a revision and moves the run back.
  lemma MovedBack(cfg: Config, s: Shared, c: nat) returns (moves: seq<Move>, s': Shared)
    requires cfg.maxRevisions >= 1 && s.run.rec.state == Supervising && s.run.rec.messages == []
    ensures s' == TakeAll(cfg, s, moves) && OthersWait(s, s', c) && c in s'.pending && s'.pending[c] == [NOTE]
    ensures s'.run.rec == s.run.rec.(state := Architecting, revision := s.run.rec.revision + 2)
  {
    hide TakeAll, PerformOp;
    NothingTaken(cfg, s);
    NothingRevised();
    moves, s' := ThenMove(cfg, s, [], s, Check(c, RequestRevision));
    assert s'.pending[c] == [Transition(Revision), Transition(Architecting), NOTE];
    Moved(s'.run, Revision);
    moves, s' := ThenMove(cfg, s, moves, s', Operate(c));
    Moved(s'.run, Architecting);
    moves, s' := ThenMove(cfg, s, moves, s', Operate(c));
  }

  // Another plan is built and started on the approval of the first one.
  lemma StartsAgain(cfg: Config, s: Shared, id: string) returns (moves: seq<Move>, s': Shared)
    requires s.run.rec.runId == "run" && s.run.rec.state == Architecting && s.run.rec.decisions == [Said("a", "run", Approve, "t")]
    requires s.run.rec.gates != [] && s.run.rec.gates[0] == ResolvedArchitecture() && GateIndex(s.run.rec.gates, id).None? && !Blank(id)
    ensures s' == TakeAll(cfg, s, moves) && OthersWait(s, s', 0) && 0 in s'.pending && s'.pending[0] == []
    ensures s'.run.rec == s.run.rec.(state := Executing, plan := Some(PLAN_2), gates := s.run.rec.gates + [ArchitectureGate("run", id, PLAN_2, "t")],
                                     revision := s.run.rec.revision + 4)
  {
    hide TakeAll, Carry, Blank, GateIndex, IsRecordedIn, ResolvedArchitecture, ArchitectureGate;
    Names();
    NothingTaken(cfg, s);
    Built(cfg, s.run, PLAN_2, id, "t");
    moves, s' := ThenAlone(cfg, s, [], s, 0, Build(PLAN_2, id, "t"));
    assert s'.run.rec.gates == [ResolvedArchitecture()] + s'.run.rec.gates[1..];
    assert s'.run.rec.decisions == [Said("a", "run", Approve, "t")] + [];
    ArchitectureIsRecorded(s'.run.rec, s'.run.rec.gates[1..], []);
    Approved(cfg, s'.run, Said("a", "run", Approve, "t"));
    moves, s' := ThenAlone(cfg, s, moves, s', 0, ArchitectureDecision(Said("a", "run", Approve, "t")));
  }

  lemma FreshIdIsFresh(gates: seq<ApprovalGate>, k: nat)
    requires forall g :: g in gates ==> |g.gateId| <= k + 1
    ensures GateIndex(gates, FreshId(k)).None? && !Blank(FreshId(k))
    ensures forall g :: g in gates + [ArchitectureGate("run", FreshId(k), PLAN_2, "t")] ==> |g.gateId| <= k + 2
  {
    hide GateIndex, Blank;
    NotBlank(FreshId(k));
    NoGateOfThatLength(gates, FreshId(k));
  }

  // Client k + 1 has moved the run back and is slow to note it; another plan was started meanwhile.
  lemma OneMore(s: Shared, t: Shared, k: nat)
    requires Slow(s, k) && 0 in t.pending && t.pending[0] == [] && k + 1 in t.pending && t.pending[k + 1] == [NOTE]
    requires forall e :: e != 0 && e != k + 1 ==> (e in t.pending <==> e in s.pending) && (e in s.pending ==> t.pending[e] == s.pending[e])
    requires t.run.rec == s.run.rec.(plan := t.run.rec.plan, gates := t.run.rec.gates, revision := t.run.rec.revision)
    requires t.run.rec.gates == s.run.rec.gates + [ArchitectureGate("run", FreshId(k), PLAN_2, "t")]
    ensures Slow(t, k + 1)
  {
    hide ResolvedArchitecture, ArchitectureGate, Said;
    FreshIdIsFresh(s.run.rec.gates, k);
  }

  lemma OneMoreIsSlow(cfg: Config, s: Shared, k: nat) returns (moves: seq<Move>)
    requires cfg.maxRevisions >= 1 && Slow(s, k)
    ensures Slow(TakeAll(cfg, s, moves), k + 1) && Changed(cfg, s, moves) >= 1
  {
    hide TakeAll, Carry, Changed, ResolvedArchitecture, ArchitectureGate, Said;
    NothingTaken(cfg, s);
    var supervising, t, before, more;
    before, supervising := ThenAlone(cfg, s, [], s, 0, BeginSupervision);
    Simple(cfg, s.run, BeginSupervision, Supervising);
    ChangedAtAll(cfg, s, before);
    more, t := AnotherStarts(cfg, supervising, k);
    ChangedConcat(cfg, s, before, more);
    TakeConcat(cfg, s, before, more);
    moves := before + more;
    OneMore(s, t, k);
  }

  lemma AnotherStarts(cfg: Config, s: Shared, k: nat) returns (moves: seq<Move>, s': Shared)
    requires cfg.maxRevisions >= 1 && s.run.rec.state == Supervising && s.run.rec.messages == []
    requires s.run.rec.runId == "run" && s.run.rec.decisions == [Said("a", "run", Approve, "t")]
    requires s.run.rec.gates != [] && s.run.rec.gates[0] == ResolvedArchitecture() && forall g :: g in s.run.rec.gates ==> |g.gateId| <= k + 1
    ensures s' == TakeAll(cfg, s, moves)
    ensures 0 in s'.pending && s'.pending[0] == [] && k + 1 in s'.pending && s'.pending[k + 1] == [NOTE]
    ensures forall e :: e != 0 && e != k + 1 ==> (e in s'.pending <==> e in s.pending) && (e in s.pending ==> s'.pending[e] == s.pending[e])
    ensures s'.run.rec == s.run.rec.(state := Executing, plan := s'.run.rec.plan, gates := s'.run.rec.gates, revision := s'.run.rec.revision)
    ensures s'.run.rec.gates == s.run.rec.gates + [ArchitectureGate("run", FreshId(k), PLAN_2, "t")]
  {
    hide TakeAll, GateIndex, Blank, ResolvedArchitecture, ArchitectureGate, Said;
    var back, more;
    moves, back := MovedBack(cfg, s, k + 1);
    FreshIdIsFresh(back.run.rec.gates, k);
    more, s' := StartsAgain(cfg, back, FreshId(k));
    TakeConcat(cfg, s, moves, more);
    moves := moves + more;
  }

  lemma {:induction false} ManyAreSlow(cfg: Config, k: nat) returns (moves: seq<Move>)
    requires cfg.maxRevisions >= 1
    ensures Slow(TakeAll(cfg, Begin("run"), moves), k) && Changed(cfg, Begin("run"), moves) >= k
  {
    hide Slow, TakeAll, Changed;
    if k == 0 {
      var s;
      moves, s := FirstPlanReached(cfg);
      FirstPlanIsSlow(cfg, s);
    } else {
      moves := ManyAreSlow(cfg, k - 1);
      var more := OneMoreIsSlow(cfg, TakeAll(cfg, Begin("run"), moves), k - 1);
      ChangedConcat(cfg, Begin("run"), moves, more);
      TakeConcat(cfg, Begin("run"), moves, more);
      moves := moves + more;
    }
  }

  lemma FirstPlanIsSlow(cfg: Config, s: Shared)
    requires s.run == FirstPlanRuns(cfg) && forall c :: c in s.pending ==> s.pending[c] == []
    ensures Slow(s, 0)
  {
    hide FirstPlanRuns;
    FirstPlanIsRunning(cfg);
  }

  // ----- The slow clients go on -----

  function Ones(n: nat): seq<nat> { seq(n, _ => 1) }

  // Clients 1 to k note their revisions.
  lemma {:induction false} NotesArrive(cfg: Config, s: Shared, j: nat, k: nat) returns (moves: seq<Move>)
    requires j <= k && Revisions(s.run.rec.messages) == Ones(j)
    requires forall c :: c in s.pending && s.pending[c] != [] ==> j < c <= k
    requires forall c :: j < c <= k ==> c in s.pending && s.pending[c] == [NOTE]
    ensures var s' := TakeAll(cfg, s, moves);
      Revisions(s'.run.rec.messages) == Ones(k) && forall c :: c in s'.pending ==> s'.pending[c] == []
    decreases k - j
  {
    hide TakeAll, PerformOp, Apply, Revisions;
    NothingTaken(cfg, s);
    if j == k {
      moves := [];
    } else {
      AddedMessage(s.run, RevisionMessage(1));
      NoteCommits(s.run, RevisionMessage(1));
      RevisionsAppended(s.run.rec.messages, RevisionMessage(1));
      var t;
      moves, t := ThenMove(cfg, s, [], s, Operate(j + 1));
      assert Ones(j) + [1] == Ones(j + 1);
      var more := NotesArrive(cfg, t, j + 1, k);
      TakeConcat(cfg, s, moves, more);
      moves := moves + more;
    }
  }

  /**
   For every k: k clients, each in a process of its own, are slow between moving the run back and noting the revision.
   Nobody stops, every revision is numbered 1, there are k of them whatever the limits are, and the state of the run
   has changed at least k times.
   */
  lemma LimitsDoNotBindSlowClients(cfg: Config, k: nat) returns (moves: seq<Move>)
    requires cfg.maxRevisions >= 1
    ensures var s := TakeAll(cfg, Begin("run"), moves);
      && Revisions(s.run.rec.messages) == Ones(k) && Changed(cfg, Begin("run"), moves) >= k
      && (forall c :: c in s.pending ==> s.pending[c] == [])
  {
    hide TakeAll, Changed, Revisions;
    moves := ManyAreSlow(cfg, k);
    var s := TakeAll(cfg, Begin("run"), moves);
    NothingRevised();
    assert Revisions(s.run.rec.messages) == Ones(0);
    var more := NotesArrive(cfg, s, 0, k);
    ChangedConcat(cfg, Begin("run"), moves, more);
    TakeConcat(cfg, Begin("run"), moves, more);
    moves := moves + more;
  }
}
