/** The repository and manager objects: each method performs one operation of SessionStore. */
module SessionManagers {
  import opened Wrappers
  import opened Contracts
  import opened SessionStore

  class SqliteSessionRepository {
    var rows: Store

    ghost predicate Valid()
      reads this
    {
      forall r :: r in rows ==> rows[r].runId == r
    }

    constructor ()
      ensures Valid() && rows == map[]
    {
      rows := map[];
    }

    method Create(runId: string) returns (created: bool)
      requires Valid()
      modifies this
      ensures Valid()
      ensures created == (runId !in old(rows))
      ensures rows == if created then old(rows)[runId := NewSession(runId)] else old(rows)
    {
      created := runId !in rows;
      if created { rows := rows[runId := NewSession(runId)]; }
    }

    method Get(runId: string) returns (r: Result<SessionRecord, OpError>)
      ensures r == if runId in rows then Ok(rows[runId]) else Err(NotFound)
    {
      r := if runId in rows then Ok(rows[runId]) else Err(NotFound);
    }

    method SaveRecord(rec: SessionRecord) returns (r: Result<SessionRecord, OpError>)
      requires Valid()
      modifies this
      ensures Valid()
      ensures match Save(old(rows), rec)
        case Ok(store) => rows == store && r == Ok(rec.(revision := rec.revision + 1))
        case Err(e) => rows == old(rows) && r == Err(e)
    {
      var updated := 0;
      if rec.runId in rows && rows[rec.runId].revision == rec.revision {
        rows := rows[rec.runId := rec.(revision := rec.revision + 1)];
        updated := 1;
      }
      if updated != 1 {
        if rec.runId !in rows { return Err(NotFound); }
        return Err(RevisionConflict);
      }
      r := Ok(rec.(revision := rec.revision + 1));
    }
  }

  function ErrorOf<T>(r: Result<T, OpError>): Option<OpError> {
    match r case Ok(_) => None case Err(e) => Some(e)
  }

  // What one manager call may do to the stored sessions, and what it then answers.
  ghost predicate Performed(before: Store, after: Store, runId: string, op: Op, error: Option<OpError>) {
    if runId !in before then after == before && error == Some(NotFound)
    else
      match Apply(before[runId], op)
      case Commit(rec) => after == before[runId := rec.(revision := before[runId].revision + 1)] && error == None
      case Unchanged => after == before && error == None
      case Refused(e) => after == before && error == Some(e)
  }

  class SessionManager {
    const repository: SqliteSessionRepository

    constructor (repository: SqliteSessionRepository)
      ensures this.repository == repository
    {
      this.repository := repository;
    }

    method TransitionTo(runId: string, target: WorkflowState) returns (error: Option<OpError>)
      requires repository.Valid()
      modifies repository
      ensures repository.Valid()
      ensures Performed(old(repository.rows), repository.rows, runId, Transition(target), error)
    {
      var found := repository.Get(runId);
      if found.Err? { return Some(found.error); }
      var record := found.value;
      if target !in AllowedTargets(record.state) { return Some(IllegalTransition); }
      var saved := repository.SaveRecord(record.(state := target));
      error := ErrorOf(saved);
    }

    method Add(runId: string, message: Message) returns (error: Option<OpError>)
      requires repository.Valid()
      modifies repository
      ensures repository.Valid()
      ensures Performed(old(repository.rows), repository.rows, runId, AddMessage(message), error)
    {
      var found := repository.Get(runId);
      if found.Err? { return Some(found.error); }
      var record := found.value;
      var saved := repository.SaveRecord(record.(messages := record.messages + [message]));
      error := ErrorOf(saved);
    }

    method FirstDecision(record: SessionRecord, gateId: string) returns (existing: Option<HumanDecision>)
      ensures existing == FindDecision(record.decisions, gateId)
    {
      var i := 0;
      while i < |record.decisions|
        invariant 0 <= i <= |record.decisions|
        invariant FindDecision(record.decisions, gateId) == FindDecision(record.decisions[i..], gateId)
      {
        if record.decisions[i].gateId == gateId { return Some(record.decisions[i]); }
        i := i + 1;
      }
      existing := None;
    }

    method FirstResult(record: SessionRecord, executionId: string) returns (existing: Option<ExecutionResult>)
      ensures existing == FindResult(record.results, executionId)
    {
      var i := 0;
      while i < |record.results|
        invariant 0 <= i <= |record.results|
        invariant FindResult(record.results, executionId) == FindResult(record.results[i..], executionId)
      {
        if record.results[i].executionId == executionId { return Some(record.results[i]); }
        i := i + 1;
      }
      existing := None;
    }

    method AddHumanDecision(runId: string, decision: HumanDecision) returns (error: Option<OpError>)
      requires repository.Valid()
      modifies repository
      ensures repository.Valid()
      ensures runId in old(repository.rows) || decision.runId == runId ==>
        Performed(old(repository.rows), repository.rows, runId, AddDecision(decision), error)
      ensures decision.runId != runId ==> error.Some? && repository.rows == old(repository.rows)
    {
      if decision.runId != runId { return Some(CrossRun); }
      var found := repository.Get(runId);
      if found.Err? { return Some(found.error); }
      var record := found.value;
      var existing := FirstDecision(record, decision.gateId);
      if existing.Some? { return if existing.value == decision then None else Some(AlreadyExists); }
      var saved := repository.SaveRecord(record.(decisions := record.decisions + [decision]));
      error := ErrorOf(saved);
    }

    method AddExecutionResult(runId: string, result: ExecutionResult) returns (error: Option<OpError>)
      requires repository.Valid()
      modifies repository
      ensures repository.Valid()
      ensures runId in old(repository.rows) || (result.runId.Some? ==> result.runId.value == runId) ==>
        Performed(old(repository.rows), repository.rows, runId, AddResult(result), error)
      ensures result.runId.Some? && result.runId.value != runId ==> error.Some? && repository.rows == old(repository.rows)
    {
      if result.runId.Some? && result.runId.value != runId { return Some(CrossRun); }
      var bound := Bound(runId, result);
      var found := repository.Get(runId);
      if found.Err? { return Some(found.error); }
      var record := found.value;
      var existing := FirstResult(record, bound.executionId);
      if existing.Some? { return if existing.value == bound then None else Some(Conflicting); }
      var saved := repository.SaveRecord(record.(results := record.results + [bound]));
      error := ErrorOf(saved);
    }

    method FindGateIndex(record: SessionRecord, gateId: string) returns (index: Option<nat>)
      ensures index == GateIndex(record.gates, gateId)
    {
      var i := 0;
      while i < |record.gates|
        invariant 0 <= i <= |record.gates|
        invariant forall k :: 0 <= k < i ==> record.gates[k].gateId != gateId
      {
        if record.gates[i].gateId == gateId {
          return Some(i);
        }
        i := i + 1;
      }
      index := None;
    }

    method AddApprovalGate(runId: string, gate: ApprovalGate) returns (error: Option<OpError>)
      requires repository.Valid()
      modifies repository
      ensures repository.Valid()
      ensures runId in old(repository.rows) ==>
        Performed(old(repository.rows), repository.rows, runId, AddGate(gate), error)
      ensures runId !in old(repository.rows) ==> error.Some? && repository.rows == old(repository.rows)
    {
      if gate.runId != runId { return Some(CrossRun); }
      var found := repository.Get(runId);
      if found.Err? { return Some(found.error); }
      var record := found.value;
      var index := FindGateIndex(record, gate.gateId);
      if index.Some? { return Some(AlreadyExists); }
      var saved := repository.SaveRecord(record.(gates := record.gates + [gate]));
      error := ErrorOf(saved);
    }

    method CancelApprovalGate(runId: string, gate: ApprovalGate) returns (error: Option<OpError>)
      requires repository.Valid()
      modifies repository
      ensures repository.Valid()
      ensures runId in old(repository.rows) ==>
        Performed(old(repository.rows), repository.rows, runId, CancelGate(gate), error)
      ensures runId !in old(repository.rows) ==> error.Some? && repository.rows == old(repository.rows)
    {
      if gate.runId != runId || gate.status != Cancelled { return Some(CrossRun); }
      var found := repository.Get(runId);
      if found.Err? { return Some(found.error); }
      var record := found.value;
      var index := FindGateIndex(record, gate.gateId);
      if index.None? { return Some(UnknownGate); }
      if record.gates[index.value].status != Open { return Some(GateNotOpen); }
      var saved := repository.SaveRecord(record.(gates := record.gates[index.value := gate]));
      error := ErrorOf(saved);
    }

    method SetWorkerOutput(runId: string, output: WorkerOutput) returns (error: Option<OpError>)
      requires repository.Valid()
      modifies repository
      ensures repository.Valid()
      ensures runId in old(repository.rows) ==>
        Performed(old(repository.rows), repository.rows, runId, SetOutput(output), error)
      ensures runId !in old(repository.rows) ==> error.Some? && repository.rows == old(repository.rows)
    {
      if output.runId != runId { return Some(CrossRun); }
      var found := repository.Get(runId);
      if found.Err? { return Some(found.error); }
      var record := found.value;
      var saved := repository.SaveRecord(record.(outputs := record.outputs[output.workerId := output]));
      error := ErrorOf(saved);
    }

    method SetFinalResult(runId: string, result: FinalResult) returns (error: Option<OpError>)
      requires repository.Valid()
      modifies repository
      ensures repository.Valid()
      ensures runId in old(repository.rows) ==>
        Performed(old(repository.rows), repository.rows, runId, SetFinal(result), error)
      ensures runId !in old(repository.rows) ==> error.Some? && repository.rows == old(repository.rows)
    {
      if result.runId != runId { return Some(CrossRun); }
      var found := repository.Get(runId);
      if found.Err? { return Some(found.error); }
      var record := found.value;
      var saved := repository.SaveRecord(record.(final := Some(result)));
      error := ErrorOf(saved);
    }

    method SetArchitecturePlan(runId: string, plan: ArchitecturePlan) returns (error: Option<OpError>)
      requires repository.Valid()
      modifies repository
      ensures repository.Valid()
      ensures Performed(old(repository.rows), repository.rows, runId, SetPlan(plan), error)
    {
      var found := repository.Get(runId);
      if found.Err? { return Some(found.error); }
      var record := found.value;
      var saved := repository.SaveRecord(record.(plan := Some(plan)));
      error := ErrorOf(saved);
    }

    method ResolveApprovalGate(runId: string, gate: ApprovalGate, decision: HumanDecision) returns (error: Option<OpError>)
      requires repository.Valid()
      modifies repository
      ensures repository.Valid()
      ensures runId in old(repository.rows) ==>
        Performed(old(repository.rows), repository.rows, runId, ResolveGate(gate, decision), error)
      ensures runId !in old(repository.rows) ==> error.Some? && repository.rows == old(repository.rows)
    {
      if gate.runId != runId || decision.runId != runId || decision.gateId != gate.gateId || gate.status != Resolved {
        return Some(CrossRun);
      }
      var found := repository.Get(runId);
      if found.Err? { return Some(found.error); }
      var record := found.value;
      var index := FindGateIndex(record, gate.gateId);
      if index.None? { return Some(UnknownGate); }
      if record.gates[index.value].status != Open { return Some(GateNotOpen); }
      var existing := FirstDecision(record, decision.gateId);
      if existing.Some? { return Some(AlreadyExists); }
      var saved := repository.SaveRecord(
        record.(gates := record.gates[index.value := gate], decisions := record.decisions + [decision]));
      error := ErrorOf(saved);
    }
  }
}
