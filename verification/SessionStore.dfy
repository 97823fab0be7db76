/**
 Durable session records: the manager's read-modify-save operations over a
 repository that saves by compare-and-swap on a revision number.
 */
module SessionStore {
  import opened Wrappers
  import opened Contracts

  // ----- app/session/manager.py: what each operation does to the record it read -----

  datatype Op =
    | Transition(target: WorkflowState)
    | AddMessage(message: Message)
    | AddArtifact(artifact: string)
    | AddDecision(decision: HumanDecision)
    | AddResult(result: ExecutionResult)
    | AddGate(gate: ApprovalGate)
    | ResolveGate(gate: ApprovalGate, decision: HumanDecision)
    | CancelGate(gate: ApprovalGate)
    | SetPlan(plan: ArchitecturePlan)
    | SetOutput(output: WorkerOutput)
    | SetFinal(final: FinalResult)

  datatype OpError = IllegalTransition | CrossRun | AlreadyExists | Conflicting | UnknownGate | GateNotOpen | NotFound | RevisionConflict

  // Commit saves the new record, Unchanged returns without saving, Refused raises before saving.
  datatype Outcome = Commit(record: SessionRecord) | Unchanged | Refused(error: OpError)

  function GateIndex(gates: seq<ApprovalGate>, gateId: string): (i: Option<nat>)
    ensures i.Some? ==> i.value < |gates| && gates[i.value].gateId == gateId
    ensures i.Some? ==> forall k :: 0 <= k < i.value ==> gates[k].gateId != gateId
    ensures i.None? ==> forall k :: 0 <= k < |gates| ==> gates[k].gateId != gateId
  {
    if gates == [] then None
    else if gates[0].gateId == gateId then Some(0)
    else match GateIndex(gates[1..], gateId) case None => None case Some(i) => Some(i + 1)
  }

  function FindResult(results: seq<ExecutionResult>, executionId: string): (r: Option<ExecutionResult>)
    ensures r.Some? ==> r.value in results && r.value.executionId == executionId
    ensures r.None? ==> forall x :: x in results ==> x.executionId != executionId
  {
    if results == [] then None
    else if results[0].executionId == executionId then Some(results[0])
    else FindResult(results[1..], executionId)
  }

  function FindDecision(decisions: seq<HumanDecision>, gateId: string): (r: Option<HumanDecision>)
    ensures r.Some? ==> r.value in decisions && r.value.gateId == gateId
    ensures r.None? ==> forall x :: x in decisions ==> x.gateId != gateId
  {
    if decisions == [] then None
    else if decisions[0].gateId == gateId then Some(decisions[0])
    else FindDecision(decisions[1..], gateId)
  }

  // A result without a run is rebuilt with the target run; the rebuilt value has no worker.
  function Bound(runId: string, r: ExecutionResult): ExecutionResult {
    if r.runId.None? then r.(runId := Some(runId), workerId := None) else r
  }

  function Apply(rec: SessionRecord, op: Op): Outcome {
    match op
    case Transition(target) =>
      if target in AllowedTargets(rec.state) then Commit(rec.(state := target)) else Refused(IllegalTransition)
    case AddMessage(m) => Commit(rec.(messages := rec.messages + [m]))
    case AddArtifact(a) =>
      if a in rec.artifacts then Refused(AlreadyExists) else Commit(rec.(artifacts := rec.artifacts + [a]))
    case AddDecision(d) =>
      if d.runId != rec.runId then Refused(CrossRun)
      else (match FindDecision(rec.decisions, d.gateId)
            case Some(existing) => if existing == d then Unchanged else Refused(AlreadyExists)
            case None => Commit(rec.(decisions := rec.decisions + [d])))
    case AddResult(r) =>
      if r.runId.Some? && r.runId.value != rec.runId then Refused(CrossRun)
      else (match FindResult(rec.results, r.executionId)
            case Some(existing) => if existing == Bound(rec.runId, r) then Unchanged else Refused(Conflicting)
            case None => Commit(rec.(results := rec.results + [Bound(rec.runId, r)])))
    case AddGate(g) =>
      if g.runId != rec.runId then Refused(CrossRun)
      else if GateIndex(rec.gates, g.gateId).Some? then Refused(AlreadyExists)
      else Commit(rec.(gates := rec.gates + [g]))
    case ResolveGate(g, d) =>
      if g.runId != rec.runId || d.runId != rec.runId || d.gateId != g.gateId || g.status != Resolved then Refused(CrossRun)
      else (match GateIndex(rec.gates, g.gateId)
            case None => Refused(UnknownGate)
            case Some(i) =>
              if rec.gates[i].status != Open then Refused(GateNotOpen)
              else if FindDecision(rec.decisions, d.gateId).Some? then Refused(AlreadyExists)
              else Commit(rec.(gates := rec.gates[i := g], decisions := rec.decisions + [d])))
    case CancelGate(g) =>
      if g.runId != rec.runId || g.status != Cancelled then Refused(CrossRun)
      else (match GateIndex(rec.gates, g.gateId)
            case None => Refused(UnknownGate)
            case Some(i) =>
              if rec.gates[i].status != Open then Refused(GateNotOpen) else Commit(rec.(gates := rec.gates[i := g])))
    case SetPlan(p) => Commit(rec.(plan := Some(p)))
    case SetOutput(o) =>
      if o.runId != rec.runId then Refused(CrossRun) else Commit(rec.(outputs := rec.outputs[o.workerId := o]))
    case SetFinal(f) =>
      if f.runId != rec.runId then Refused(CrossRun) else Commit(rec.(final := Some(f)))
  }

  // ----- app/session/repository.py: compare-and-swap -----

  type Store = map<string, SessionRecord>

  // UPDATE ... WHERE run_id = ? AND revision = ?
  function Save(store: Store, rec: SessionRecord): Result<Store, OpError> {
    if rec.runId !in store then Err(NotFound)
    else if store[rec.runId].revision != rec.revision then Err(RevisionConflict)
    else Ok(store[rec.runId := rec.(revision := rec.revision + 1)])
  }

  // ----- Any number of managers over one repository -----

  // What a manager holds between repository.get and repository.save.
  datatype Client = Client(copy: SessionRecord, op: Op)

  datatype Action =
    | Create(runId: string)
    | Read(client: nat, runId: string, op: Op)
    | Write(client: nat)
    | Abandon(client: nat)

  // `log` records, per run, the operations whose save succeeded.
  datatype System = System(store: Store, clients: map<nat, Client>, log: map<string, seq<Op>>)

  const EMPTY: System := System(map[], map[], map[])

  function Step(s: System, a: Action): System {
    match a
    case Create(runId) =>
      if runId in s.store then s
      else s.(store := s.store[runId := NewSession(runId)], log := s.log[runId := []])
    case Read(c, runId, op) =>
      if runId !in s.store then s else s.(clients := s.clients[c := Client(s.store[runId], op)])
    case Abandon(c) => s.(clients := s.clients - {c})
    case Write(c) =>
      if c !in s.clients then s
      else
        var s' := s.(clients := s.clients - {c});
        var Client(copy, op) := s.clients[c];
        match Apply(copy, op)
        case Unchanged => s'
        case Refused(_) => s'
        case Commit(rec) =>
          match Save(s.store, rec)
          case Err(_) => s'
          case Ok(store) =>
            if copy.runId in s.log
            then s'.(store := store, log := s.log[copy.runId := s.log[copy.runId] + [op]])
            else s'
  }

  // What the client's manager call raises when its write is carried out now; None when it returns.
  function WriteError(s: System, c: nat): Option<OpError>
    requires c in s.clients
  {
    match Apply(s.clients[c].copy, s.clients[c].op)
    case Unchanged => None
    case Refused(e) => Some(e)
    case Commit(rec) => match Save(s.store, rec) case Ok(_) => None case Err(e) => Some(e)
  }

  function Run(s: System, acts: seq<Action>): System
    decreases |acts|
  {
    if acts == [] then s else Run(Step(s, acts[0]), acts[1..])
  }

  // One manager, one at a time: each operation applied to the record the previous one saved.
  function Serial(runId: string, ops: seq<Op>): Option<SessionRecord>
    decreases |ops|
  {
    if ops == [] then Some(NewSession(runId))
    else
      match Serial(runId, ops[..|ops| - 1])
      case None => None
      case Some(rec) =>
        match Apply(rec, ops[|ops| - 1])
        case Commit(rec') => Some(rec'.(revision := rec.revision + 1))
        case _ => None
  }

  ghost predicate CopyIsAPrefix(s: System, copy: SessionRecord) {
    && copy.runId in s.store && copy.runId in s.log
    && copy.revision <= |s.log[copy.runId]|
    && Serial(copy.runId, s.log[copy.runId][..copy.revision]) == Some(copy)
  }

  ghost predicate Serialized(s: System) {
    && s.store.Keys == s.log.Keys
    && (forall r :: r in s.store ==>
          && s.store[r].runId == r
          && s.store[r].revision == |s.log[r]|
          && Serial(r, s.log[r]) == Some(s.store[r]))
    && (forall c :: c in s.clients ==> CopyIsAPrefix(s, s.clients[c].copy))
  }

  lemma ApplyKeepsIdentity(rec: SessionRecord, op: Op)
    ensures Apply(rec, op).Commit? ==>
      Apply(rec, op).record.runId == rec.runId && Apply(rec, op).record.revision == rec.revision
  {}

  lemma SerialAppend(runId: string, ops: seq<Op>, op: Op, rec: SessionRecord)
    requires Serial(runId, ops) == Some(rec) && Apply(rec, op).Commit?
    ensures Serial(runId, ops + [op]) == Some(Apply(rec, op).record.(revision := rec.revision + 1))
  {
    assert (ops + [op])[..|ops|] == ops;
  }

  // A successful save found the record that the client had read.
  lemma SuccessfulSaveFoundTheCopy(s: System, copy: SessionRecord, op: Op)
    requires Serialized(s) && CopyIsAPrefix(s, copy)
    requires Apply(copy, op).Commit? && Save(s.store, Apply(copy, op).record).Ok?
    ensures copy.runId in s.store && copy == s.store[copy.runId]
  {
    ApplyKeepsIdentity(copy, op);
    assert s.log[copy.runId][..copy.revision] == s.log[copy.runId];
  }

  lemma CommitKeepsSerialized(s: System, s': System, copy: SessionRecord, op: Op)
    requires Serialized(s) && copy.runId in s.store && copy == s.store[copy.runId]
    requires Apply(copy, op).Commit?
    requires s'.store == s.store[copy.runId := Apply(copy, op).record.(revision := copy.revision + 1)]
    requires s'.log == s.log[copy.runId := s.log[copy.runId] + [op]]
    requires forall d :: d in s'.clients ==> d in s.clients && s'.clients[d] == s.clients[d]
    ensures Serialized(s')
  {
    ApplyKeepsIdentity(copy, op);
    SerialAppend(copy.runId, s.log[copy.runId], op, copy);
    forall d | d in s'.clients ensures CopyIsAPrefix(s', s'.clients[d].copy) {
      var other := s.clients[d].copy;
      assert CopyIsAPrefix(s, other);
      assert s'.log[other.runId][..other.revision] == s.log[other.runId][..other.revision];
    }
  }

  lemma WriteKeepsSerialized(s: System, c: nat)
    requires Serialized(s) && c in s.clients
    ensures Serialized(Step(s, Write(c)))
    ensures forall r :: r in s.log ==> r in Step(s, Write(c)).log && s.log[r] <= Step(s, Write(c)).log[r]
  {
    WriteIsAtomicOrRejected(s, c);
    var s' := Step(s, Write(c));
    var Client(copy, op) := s.clients[c];
    if s'.log != s.log { CommitKeepsSerialized(s, s', copy, op); }
    else if s'.store == s.store {
      forall d | d in s'.clients ensures CopyIsAPrefix(s', s'.clients[d].copy) { assert CopyIsAPrefix(s, s.clients[d].copy); }
    }
  }

  lemma OthersKeepTheirCopies(s: System, s': System, copy: SessionRecord)
    requires CopyIsAPrefix(s, copy) && (forall r :: r in s.log ==> r in s'.log && s'.log[r] == s.log[r]) && s.store.Keys <= s'.store.Keys
    ensures CopyIsAPrefix(s', copy)
  {
    hide Serial;
  }

  lemma EmptyIsSerial(runId: string)
    ensures Serial(runId, []) == Some(NewSession(runId))
  {
  }

  lemma CreateKeepsSerialized(s: System, runId: string)
    requires Serialized(s)
    ensures Serialized(Step(s, Create(runId)))
  {
    hide CopyIsAPrefix, Apply, Serial;
    var s' := Step(s, Create(runId));
    EmptyIsSerial(runId);
    forall d | d in s'.clients ensures CopyIsAPrefix(s', s'.clients[d].copy) { OthersKeepTheirCopies(s, s', s.clients[d].copy); }
  }

  lemma ReadKeepsSerialized(s: System, c: nat, runId: string, op: Op)
    requires Serialized(s)
    ensures Serialized(Step(s, Read(c, runId, op)))
  {
    hide Serial, Apply;
    var s' := Step(s, Read(c, runId, op));
    if runId in s.store { assert s.log[runId][..s.store[runId].revision] == s.log[runId]; }
    forall d | d in s'.clients ensures CopyIsAPrefix(s', s'.clients[d].copy) {
      if d in s.clients && s'.clients[d] == s.clients[d] { OthersKeepTheirCopies(s, s', s.clients[d].copy); }
    }
  }

  lemma AbandonKeepsSerialized(s: System, c: nat)
    requires Serialized(s)
    ensures Serialized(Step(s, Abandon(c)))
  {
    hide CopyIsAPrefix, Apply, Serial;
    var s' := Step(s, Abandon(c));
    forall d | d in s'.clients ensures CopyIsAPrefix(s', s'.clients[d].copy) { OthersKeepTheirCopies(s, s', s.clients[d].copy); }
  }

  lemma StepKeepsSerialized(s: System, a: Action)
    requires Serialized(s)
    ensures Serialized(Step(s, a))
    ensures forall r :: r in s.log ==> r in Step(s, a).log && s.log[r] <= Step(s, a).log[r]
  {
    hide Apply, Serial, CopyIsAPrefix, Save;
    match a {
      case Create(runId) => CreateKeepsSerialized(s, runId);
      case Read(c, runId, op) => ReadKeepsSerialized(s, c, runId, op);
      case Abandon(c) => AbandonKeepsSerialized(s, c);
      case Write(c) => if c in s.clients { WriteKeepsSerialized(s, c); }
    }
  }

  // Compare-and-swap saves are serializable: in every run of any number of managers,
  // each stored record is the serial application of the committed operations in revision order.
  lemma {:induction false} EveryRunIsSerialized(s: System, acts: seq<Action>)
    requires Serialized(s)
    ensures Serialized(Run(s, acts))
    ensures forall r :: r in s.log ==> r in Run(s, acts).log && s.log[r] <= Run(s, acts).log[r]
    decreases |acts|
  {
    if acts != [] {
      StepKeepsSerialized(s, acts[0]);
      EveryRunIsSerialized(Step(s, acts[0]), acts[1..]);
    }
  }

  // A write that is rejected leaves the store and the commit log as they were; one that succeeds
  // acts atomically on the record stored at that moment, whatever was read in between.
  lemma WriteIsAtomicOrRejected(s: System, c: nat)
    requires Serialized(s) && c in s.clients
    ensures var s' := Step(s, Write(c));
      var Client(copy, op) := s.clients[c];
      var r := copy.runId;
      && s'.clients == s.clients - {c}
      && (|| (s'.store == s.store && s'.log == s.log)
          || (&& r in s.store
              && copy == s.store[r]
              && Apply(s.store[r], op).Commit?
              && s'.store == s.store[r := Apply(s.store[r], op).record.(revision := s.store[r].revision + 1)]
              && s'.log == s.log[r := s.log[r] + [op]]))
  {
    var Client(copy, op) := s.clients[c];
    ApplyKeepsIdentity(copy, op);
    assert CopyIsAPrefix(s, copy);
    if Apply(copy, op).Commit? && Save(s.store, Apply(copy, op).record).Ok? {
      SuccessfulSaveFoundTheCopy(s, copy, op);
    }
  }

  function AppendedMessages(ops: seq<Op>): seq<Message> {
    if ops == [] then [] else
      AppendedMessages(ops[..|ops| - 1]) + (match ops[|ops| - 1] case AddMessage(m) => [m] case _ => [])
  }

  function AppendedResults(runId: string, ops: seq<Op>): seq<ExecutionResult> {
    if ops == [] then [] else
      AppendedResults(runId, ops[..|ops| - 1]) +
      (match ops[|ops| - 1] case AddResult(r) => [Bound(runId, r)] case _ => [])
  }

  // The decision an operation appends, if it appends one.
  function AppendedDecisions(ops: seq<Op>): seq<HumanDecision> {
    if ops == [] then [] else
      AppendedDecisions(ops[..|ops| - 1]) +
      (match ops[|ops| - 1] case AddDecision(d) => [d] case ResolveGate(_, d) => [d] case _ => [])
  }

  lemma ApplyAppends(rec: SessionRecord, op: Op)
    requires Apply(rec, op).Commit?
    ensures var rec' := Apply(rec, op).record;
      && rec'.messages == rec.messages + (match op case AddMessage(m) => [m] case _ => [])
      && rec'.results == rec.results + (match op case AddResult(r) => [Bound(rec.runId, r)] case _ => [])
      && rec'.decisions == rec.decisions + (match op case AddDecision(d) => [d] case ResolveGate(_, d) => [d] case _ => [])
  {}

  // No committed append is lost, duplicated or reordered.
  lemma {:induction false} NoCommittedAppendIsLost(runId: string, ops: seq<Op>)
    requires Serial(runId, ops).Some?
    ensures var rec := Serial(runId, ops).value;
      && rec.runId == runId
      && rec.revision == |ops|
      && rec.messages == AppendedMessages(ops)
      && rec.results == AppendedResults(runId, ops)
      && rec.decisions == AppendedDecisions(ops)
  {
    if ops != [] {
      var before := ops[..|ops| - 1];
      var rec := Serial(runId, before).value;
      NoCommittedAppendIsLost(runId, before);
      ApplyKeepsIdentity(rec, ops[|ops| - 1]);
      ApplyAppends(rec, ops[|ops| - 1]);
    }
  }

  ghost predicate UniqueResults(results: seq<ExecutionResult>) {
    forall i, j :: 0 <= i < j < |results| ==> results[i].executionId != results[j].executionId
  }

  ghost predicate UniqueDecisions(decisions: seq<HumanDecision>) {
    forall i, j :: 0 <= i < j < |decisions| ==> decisions[i].gateId != decisions[j].gateId
  }

  ghost predicate UniqueGates(gates: seq<ApprovalGate>) {
    forall i, j :: 0 <= i < j < |gates| ==> gates[i].gateId != gates[j].gateId
  }

  // What every committed operation keeps of a record, and what it can never take away.
  ghost predicate WellFormed(rec: SessionRecord) {
    && UniqueResults(rec.results) && UniqueDecisions(rec.decisions) && UniqueGates(rec.gates)
    && (forall r :: r in rec.results ==> r.runId == Some(rec.runId))
    && (forall d :: d in rec.decisions ==> d.runId == rec.runId)
    && (forall g :: g in rec.gates ==> g.runId == rec.runId)
    && (forall w :: w in rec.outputs ==> rec.outputs[w].workerId == w && rec.outputs[w].runId == rec.runId)
  }

  ghost predicate Extends(a: SessionRecord, b: SessionRecord) {
    && a.runId == b.runId
    && a.messages <= b.messages && a.results <= b.results && a.decisions <= b.decisions
    && a.artifacts <= b.artifacts
    && (Terminal(a.state) ==> b.state == a.state)
  }

  lemma ApplyKeepsUnique(rec: SessionRecord, op: Op)
    requires WellFormed(rec) && Apply(rec, op).Commit?
    ensures var rec' := Apply(rec, op).record;
      UniqueResults(rec'.results) && UniqueDecisions(rec'.decisions) && UniqueGates(rec'.gates)
  {
    hide FindResult, FindDecision;
  }

  lemma ApplyKeepsWellFormed(rec: SessionRecord, op: Op)
    requires WellFormed(rec) && Apply(rec, op).Commit?
    ensures WellFormed(Apply(rec, op).record)
    ensures Extends(rec, Apply(rec, op).record)
  {
    ApplyKeepsUnique(rec, op);
    hide FindResult, FindDecision, GateIndex, UniqueResults, UniqueDecisions, UniqueGates;
  }

  // Evidence, decisions and gates stay unique per identifier in every stored record of every run.
  lemma {:induction false} SerialIsWellFormed(runId: string, ops: seq<Op>)
    requires Serial(runId, ops).Some?
    ensures WellFormed(Serial(runId, ops).value)
  {
    if ops != [] {
      var before := ops[..|ops| - 1];
      SerialIsWellFormed(runId, before);
      ApplyKeepsWellFormed(Serial(runId, before).value, ops[|ops| - 1]);
    }
  }

  // Whatever the managers do, every stored record is the serial application of its committed
  // operations: its revision counts them, and no committed append is missing from it.
  lemma CompareAndSwapIsSerializable(acts: seq<Action>, runId: string)
    requires runId in Run(EMPTY, acts).store
    ensures var s := Run(EMPTY, acts);
      && runId in s.log
      && Serial(runId, s.log[runId]) == Some(s.store[runId])
      && s.store[runId].revision == |s.log[runId]|
      && s.store[runId].messages == AppendedMessages(s.log[runId])
      && s.store[runId].results == AppendedResults(runId, s.log[runId])
      && s.store[runId].decisions == AppendedDecisions(s.log[runId])
      && WellFormed(s.store[runId])
  {
    EveryRunIsSerialized(EMPTY, acts);
    NoCommittedAppendIsLost(runId, Run(EMPTY, acts).log[runId]);
    SerialIsWellFormed(runId, Run(EMPTY, acts).log[runId]);
  }

  lemma {:induction false} AppendedResultsGrow(runId: string, ops: seq<Op>, k: nat)
    requires k <= |ops|
    ensures AppendedResults(runId, ops[..k]) <= AppendedResults(runId, ops)
  {
    if k == |ops| {
      assert ops[..k] == ops;
    } else {
      var before := ops[..|ops| - 1];
      AppendedResultsGrow(runId, before, k);
      assert before[..k] == ops[..k];
    }
  }

  lemma CopyHoldsNoOtherEvidence(s: System, copy: SessionRecord)
    requires Serialized(s) && CopyIsAPrefix(s, copy)
    ensures copy.results <= s.store[copy.runId].results
  {
    var ops := s.log[copy.runId];
    NoCommittedAppendIsLost(copy.runId, ops);
    NoCommittedAppendIsLost(copy.runId, ops[..copy.revision]);
    AppendedResultsGrow(copy.runId, ops, copy.revision);
  }

  // When add_execution_result returns, the evidence is stored, whether by this call or an earlier one.
  lemma ReturnedResultIsStored(s: System, c: nat)
    requires Serialized(s) && c in s.clients && s.clients[c].op.AddResult? && WriteError(s, c) == None
    ensures var runId := s.clients[c].copy.runId;
      && runId in Step(s, Write(c)).store
      && Bound(runId, s.clients[c].op.result) in Step(s, Write(c)).store[runId].results
  {
    var Client(copy, op) := s.clients[c];
    assert CopyIsAPrefix(s, copy);
    if Apply(copy, op).Unchanged? {
      CopyHoldsNoOtherEvidence(s, copy);
      assert Bound(copy.runId, op.result) in copy.results;
    }
  }

  lemma ReturnedMessageIsStored(s: System, c: nat)
    requires Serialized(s) && c in s.clients && s.clients[c].op.AddMessage? && WriteError(s, c) == None
    ensures var runId := s.clients[c].copy.runId;
      && runId in Step(s, Write(c)).store
      && s.clients[c].op.message in Step(s, Write(c)).store[runId].messages
  {
    assert CopyIsAPrefix(s, s.clients[c].copy);
  }
}
