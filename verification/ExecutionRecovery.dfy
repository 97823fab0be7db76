/** What an undisturbed recovery concludes about a key, told from the lease table, the session and the remote store. */
module ExecutionRecovery {
  import opened Wrappers
  import opened Contracts
  import opened SessionStore
  import opened Leases
  import opened RemoteStore
  import opened Execution
  import opened ExecutionInvariant
  import opened ExecutionSteps
  import opened ExecutionTheorems
  import opened ExecutionProgress

  // ----- The steps of a recovery that nothing disturbs -----

  ghost predicate CanRecover(s: State, p: nat, runId: string) { p !in s.procs && p !in s.db.clients && runId in s.db.store }

  lemma Snapshots(s: State, p: nat, runId: string, key: string, c: Choice)
    requires CanRecover(s, p, runId) && Serialized(s.db) && c.fault == Never
    ensures var s0 := Happen(s, StartRecovery(p, runId, key));
      && At(s0, p, Looking(runId, key)) && p in s0.procs
      && Progress(s0, p, c) == Enter(s, p, Inspecting(runId, key, s.db.store[runId]))
  {
    hide Serialized;
  }

  lemma Inspects(s: State, p: nat, runId: string, key: string, copy: SessionRecord, c: Choice)
    requires p in s.procs && s.procs[p] == Inspecting(runId, key, copy) && c.fault == Never
    ensures var row := Lookup(s.table, runId, key);
      && (row.None? ==> Progress(s, p, c) == Enter(s, p, Concluded(runId, key, NoLease)))
      && (row.Some? && Inspect(copy, row).Concludes? ==> Progress(s, p, c) == Enter(s, p, Concluded(runId, key, Inspect(copy, row).conclusion)))
      && (row.Some? && (forall x :: x in copy.results ==> x.executionId != row.value.executionId) ==>
            Progress(s, p, c) == Enter(s, p, Asking(runId, key, row.value)))
  {
    var row := Lookup(s.table, runId, key);
    if row.Some? { LastIsNone(copy.results, row.value.executionId); }
  }

  lemma {:induction false} LastIsNone(results: seq<ExecutionResult>, id: string)
    ensures FindLastResult(results, id).None? <==> forall x :: x in results ==> x.executionId != id
  {
    if results != [] {
      LastIsNone(results[..|results| - 1], id);
      assert results == results[..|results| - 1] + [results[|results| - 1]];
    }
  }

  // The remote authority's result for this execution, if it has committed one.
  ghost function RemoteResult(s: State, executionId: string): Option<ExecutionResult> {
    if executionId in s.remote.rows then s.remote.rows[executionId].result else None
  }

  // In a reachable state the remote row of a lease's execution is for the lease's key and run.
  lemma RemoteIsForTheLease(s: State, l: Lease)
    requires RemoteFromCalls(s) && CallsOk(s) && Originated(s, l) && l.executionId in s.remote.rows
    ensures var row := s.remote.rows[l.executionId];
      && row.request.key == l.key && (row.status == RowStatus.Finished <==> row.result.Some?)
      && (row.result.Some? ==>
            var r := row.result.value;
            r.executionId == l.executionId && r.runId == Some(l.runId) && r.workerId == None && r.backend == "colab")
  {
    var row := s.remote.rows[l.executionId];
    assert SentFor(s, row.request);
    var i :| 0 <= i < |s.calls| && Sent(s.calls[i].work) == row.request;
    assert s.calls[i] in s.calls;
  }

  lemma Asks(s: State, p: nat, l: Lease, c: Choice)
    requires p in s.procs && s.procs[p] == Asking(l.runId, l.key, l) && c.fault == Never
    requires RemoteFromCalls(s) && CallsOk(s) && Originated(s, l)
    ensures Progress(s, p, c) == Enter(s, p,
      match RemoteResult(s, l.executionId)
      case None => Concluded(l.runId, l.key, NoResult)
      case Some(r) => Storing(l.runId, l.key, l, r.(runId := Some(l.runId), workerId := Some(l.workerId))))
  {
    hide RemoteFromCalls, CallsOk, Originated;
    if l.executionId in s.remote.rows { RemoteIsForTheLease(s, l); }
  }

  lemma EvidenceIsSaved(s: State, p: nat, l: Lease, r: ExecutionResult, c: Choice)
    requires p in s.procs && s.procs[p] == Storing(l.runId, l.key, l, r) && c.fault == Never && l.runId in s.db.store
    requires var t := Enter(Reading(s, p, l.runId, AddResult(r)), p, EvidenceSaving(l.runId, l.key, l, r));
      p in t.db.clients && WriteError(t.db, p) == None
    ensures var s' := Progress(Progress(s, p, c), p, c);
      var saved := Saves(s, p, l.runId, AddResult(r), EvidenceSaving(l.runId, l.key, l, r), Concluded(l.runId, l.key, Terminal(r)));
      s' == saved.(stored := s.stored + [Stored(l.runId, l.key, l, r)])
  {
    hide Step, WriteError;
  }

  lemma Stores(s: State, p: nat, l: Lease, r: ExecutionResult, c: Choice)
    requires At(s, p, Storing(l.runId, l.key, l, r)) && c.fault == Never && l.runId in s.db.store && r.runId == Some(l.runId)
    requires forall x :: x in s.db.store[l.runId].results ==> x.executionId != r.executionId
    ensures var s' := Progress(Progress(s, p, c), p, c);
      && p in s'.procs && s'.procs[p] == Concluded(l.runId, l.key, Terminal(r)) && Appended(s, s', l.runId, [], [r])
      && s'.table == s.table && s'.calls == s.calls && s'.remote == s.remote && s'.stored == s.stored + [Stored(l.runId, l.key, l, r)]
  {
    hide Serialized, Reading, Writing, WriteError, FindResult, Progress, Saves;
    RecordOfItsRun(s.db, l.runId);
    ResultCommits(s.db.store[l.runId], r);
    SavesOnce(s, p, l.runId, AddResult(r), EvidenceSaving(l.runId, l.key, l, r), Concluded(l.runId, l.key, Terminal(r)));
    EvidenceIsSaved(s, p, l, r, c);
  }

  // ----- What it concludes -----

  // After these steps the process has concluded this, and apart from new results of the run nothing has changed.
  ghost predicate HasConcluded(s: State, s': State, p: nat, runId: string, key: string, conclusion: Conclusion, results: seq<ExecutionResult>) {
    && p in s'.procs && s'.procs[p] == Concluded(runId, key, conclusion)
    && s'.table == s.table && s'.calls == s.calls && s'.remote == s.remote && Appended(s, s', runId, [], results)
  }

  lemma MovedParts(s: State, p: nat, ph: Phase, l: Lease)
    requires RemoteFromCalls(s) && CallsOk(s) && Originated(s, l)
    ensures RemoteFromCalls(Enter(s, p, ph)) && CallsOk(Enter(s, p, ph)) && Originated(Enter(s, p, ph), l)
  {
    hide RemoteOk, HasBlankField;
    var s' := Enter(s, p, ph);
    forall q | SentFor(s, q) ensures SentFor(s', q) {
      var i :| 0 <= i < |s.calls| && Sent(s.calls[i].work) == q;
      assert Sent(s'.calls[i].work) == q;
    }
  }

  lemma AsksAlike(s: State, p: nat, l: Lease, c: Choice)
    requires RemoteFromCalls(s) && CallsOk(s) && Originated(s, l) && c.fault == Never
    ensures Progress(Enter(s, p, Asking(l.runId, l.key, l)), p, c) == Enter(s, p,
      match RemoteResult(s, l.executionId)
      case None => Concluded(l.runId, l.key, NoResult)
      case Some(r) => Storing(l.runId, l.key, l, r.(runId := Some(l.runId), workerId := Some(l.workerId))))
  {
    hide RemoteFromCalls, CallsOk, Originated, Progress;
    var s' := Enter(s, p, Asking(l.runId, l.key, l));
    MovedParts(s, p, Asking(l.runId, l.key, l), l);
    Asks(s', p, l, c);
    assert forall ph :: Enter(s', p, ph) == Enter(s, p, ph);
  }

  lemma RemoteHasItsId(s: State, l: Lease)
    requires RemoteFromCalls(s) && CallsOk(s) && Originated(s, l) && RemoteResult(s, l.executionId).Some?
    ensures RemoteResult(s, l.executionId).value.executionId == l.executionId
  {
    hide RemoteFromCalls, CallsOk, Originated;
    RemoteIsForTheLease(s, l);
  }

  // Without persisted evidence, two steps take the recovery to the question for the remote authority.
  lemma ComesToAsk(s: State, p: nat, l: Lease, c: Choice, n: nat)
    requires Serialized(s.db) && CanRecover(s, p, l.runId) && c.fault == Never && n >= 2
    requires Slot(l.runId, l.key) in s.table && s.table[Slot(l.runId, l.key)] == l
    requires forall x :: x in s.db.store[l.runId].results ==> x.executionId != l.executionId
    ensures Goes(Happen(s, StartRecovery(p, l.runId, l.key)), p, c, n) == Goes(Enter(s, p, Asking(l.runId, l.key, l)), p, c, n - 2)
  {
    hide Happen, Goes, Progress, Serialized, Inspect;
    var copy := s.db.store[l.runId];
    Snapshots(s, p, l.runId, l.key, c);
    var s1 := Enter(s, p, Inspecting(l.runId, l.key, copy));
    Inspects(s1, p, l.runId, l.key, copy, c);
    assert Enter(s1, p, Asking(l.runId, l.key, l)) == Enter(s, p, Asking(l.runId, l.key, l));
    TwoSteps(Happen(s, StartRecovery(p, l.runId, l.key)), p, c, n);
  }

  lemma RemoteHasNone(s: State, p: nat, l: Lease, c: Choice)
    requires RemoteFromCalls(s) && CallsOk(s) && Originated(s, l) && c.fault == Never && RemoteResult(s, l.executionId).None?
    requires l.runId in s.db.store
    ensures HasConcluded(s, Goes(Enter(s, p, Asking(l.runId, l.key, l)), p, c, 1), p, l.runId, l.key, NoResult, [])
  {
    hide Goes, Progress, RemoteFromCalls, CallsOk, Originated, RemoteResult;
    AsksAlike(s, p, l, c);
    var s2 := Enter(s, p, Asking(l.runId, l.key, l));
    OneStep(s2, p, c, 1);
    NoStep(Progress(s2, p, c), p, c);
  }

  lemma RemoteHasOne(s: State, p: nat, l: Lease, c: Choice)
    requires RemoteFromCalls(s) && CallsOk(s) && Originated(s, l) && c.fault == Never && RemoteResult(s, l.executionId).Some?
    requires Serialized(s.db) && l.runId in s.db.store && forall x :: x in s.db.store[l.runId].results ==> x.executionId != l.executionId
    ensures var evidence := RemoteResult(s, l.executionId).value.(runId := Some(l.runId), workerId := Some(l.workerId));
      HasConcluded(s, Goes(Enter(s, p, Asking(l.runId, l.key, l)), p, c, 3), p, l.runId, l.key, Terminal(evidence), [evidence])
  {
    hide Goes, Progress, RemoteFromCalls, CallsOk, Originated, RemoteResult, Serialized;
    AsksAlike(s, p, l, c);
    RemoteHasItsId(s, l);
    var evidence := RemoteResult(s, l.executionId).value.(runId := Some(l.runId), workerId := Some(l.workerId));
    var s2 := Enter(s, p, Asking(l.runId, l.key, l));
    var s3 := Enter(s, p, Storing(l.runId, l.key, l, evidence));
    Stores(s3, p, l, evidence, c);
    OneStep(s2, p, c, 3);
    StillThere(s3, p, c);
    TwoSteps(s3, p, c, 2);
    NoStep(Progress(Progress(s3, p, c), p, c), p, c);
  }

  // A lease without persisted evidence leaves it to the remote authority.
  lemma RemoteDecides(s: State, p: nat, l: Lease, c: Choice)
    requires Inv(s) && CanRecover(s, p, l.runId) && c.fault == Never
    requires Slot(l.runId, l.key) in s.table && s.table[Slot(l.runId, l.key)] == l
    requires forall x :: x in s.db.store[l.runId].results ==> x.executionId != l.executionId
    ensures var start := Happen(s, StartRecovery(p, l.runId, l.key));
      match RemoteResult(s, l.executionId)
      case None => HasConcluded(s, Goes(start, p, c, 3), p, l.runId, l.key, NoResult, [])
      case Some(r) =>
        var evidence := r.(runId := Some(l.runId), workerId := Some(l.workerId));
        HasConcluded(s, Goes(start, p, c, 5), p, l.runId, l.key, Terminal(evidence), [evidence])
  {
    hide Inv, Happen, Goes, Progress, Serialized, RemoteFromCalls, CallsOk, RowsKept, DbOk, WorksOk, Originated, HasConcluded, RemoteResult;
    SharedParts(s);
    SessionsAreSerialized(s);
    RowIsOriginal(s, l);
    if RemoteResult(s, l.executionId).None? {
      ComesToAsk(s, p, l, c, 3);
      RemoteHasNone(s, p, l, c);
    } else {
      ComesToAsk(s, p, l, c, 5);
      RemoteHasOne(s, p, l, c);
    }
  }

  lemma RowIsOriginal(s: State, l: Lease)
    requires RowsKept(s) && Slot(l.runId, l.key) in s.table && s.table[Slot(l.runId, l.key)] == l
    ensures Originated(s, l)
  {
    hide Originated, TableOk;
    assert RowOk(s, s.table[Slot(l.runId, l.key)]);
  }

  // What the inspection concludes is concluded after two steps.
  lemma ConcludesAtOnce(s: State, p: nat, runId: string, key: string, conclusion: Conclusion, c: Choice)
    requires Serialized(s.db) && CanRecover(s, p, runId) && c.fault == Never
    requires Inspect(s.db.store[runId], Lookup(s.table, runId, key)) == Inspection.Concludes(conclusion)
    ensures HasConcluded(s, Goes(Happen(s, StartRecovery(p, runId, key)), p, c, 2), p, runId, key, conclusion, [])
  {
    hide Happen, Goes, Progress, Serialized;
    var copy := s.db.store[runId];
    Snapshots(s, p, runId, key, c);
    var s1 := Enter(s, p, Inspecting(runId, key, copy));
    Inspects(s1, p, runId, key, copy, c);
    TwoSteps(Happen(s, StartRecovery(p, runId, key)), p, c, 2);
    NoStep(Progress(s1, p, c), p, c);
  }

  // A lease with persisted evidence is concluded on it, whatever its status.
  lemma EvidenceDecides(s: State, p: nat, l: Lease, r: ExecutionResult, c: Choice)
    requires Inv(s) && CanRecover(s, p, l.runId) && c.fault == Never
    requires Slot(l.runId, l.key) in s.table && s.table[Slot(l.runId, l.key)] == l
    requires r in s.db.store[l.runId].results && r.executionId == l.executionId
    ensures HasConcluded(s, Goes(Happen(s, StartRecovery(p, l.runId, l.key)), p, c, 2), p, l.runId, l.key, Terminal(r), [])
  {
    hide Inv, Happen, Goes, Serialized, RemoteFromCalls, CallsOk, RowsKept, DbOk, WorksOk, Inspect, HasConcluded;
    SharedParts(s);
    SessionsAreSerialized(s);
    RowAtItsSlot(s, Slot(l.runId, l.key));
    HeldEvidenceDecides(s, l.runId, l.key, r);
    ConcludesAtOnce(s, p, l.runId, l.key, Terminal(r), c);
  }

  lemma NothingToRecover(s: State, p: nat, runId: string, key: string, c: Choice)
    requires Inv(s) && CanRecover(s, p, runId) && c.fault == Never && Slot(runId, key) !in s.table
    ensures HasConcluded(s, Goes(Happen(s, StartRecovery(p, runId, key)), p, c, 2), p, runId, key, NoLease, [])
  {
    hide Inv, Happen, Goes, Serialized, HasConcluded;
    SessionsAreSerialized(s);
    ConcludesAtOnce(s, p, runId, key, NoLease, c);
  }

  /**
   From any reachable state an undisturbed recovery of a key concludes. It finds no lease exactly when the key has no row. On
   a row it concludes on the result that the session has under the row's execution; failing that, on the result that the
   remote authority has committed, which is then stored with the row's run and worker; and failing that, that there is none.
   */
  lemma RecoveryConcludes(es: seq<Execution.Event>, p: nat, runId: string, key: string, c: Choice)
    requires CanRecover(History(START, es), p, runId) && c.fault == Never
    ensures var s := History(START, es);
      var start := Happen(s, StartRecovery(p, runId, key));
      if Slot(runId, key) !in s.table then HasConcluded(s, Goes(start, p, c, 2), p, runId, key, NoLease, [])
      else
        var l := s.table[Slot(runId, key)];
        && (forall r :: r in s.db.store[runId].results && r.executionId == l.executionId ==>
              HasConcluded(s, Goes(start, p, c, 2), p, runId, key, Terminal(r), []))
        && ((forall r :: r in s.db.store[runId].results ==> r.executionId != l.executionId) ==>
              match RemoteResult(s, l.executionId)
              case None => HasConcluded(s, Goes(start, p, c, 3), p, runId, key, NoResult, [])
              case Some(r) =>
                var evidence := r.(runId := Some(runId), workerId := Some(l.workerId));
                HasConcluded(s, Goes(start, p, c, 5), p, runId, key, Terminal(evidence), [evidence]))
  {
    hide Inv, Happen, Goes, History, HasConcluded, RemoteResult;
    var s := History(START, es);
    ReachableIsOk(es);
    if Slot(runId, key) !in s.table {
      NothingToRecover(s, p, runId, key, c);
    } else {
      var l := s.table[Slot(runId, key)];
      SlotIsItsOwn(s, Slot(runId, key));
      forall r | r in s.db.store[runId].results && r.executionId == l.executionId
        ensures HasConcluded(s, Goes(Happen(s, StartRecovery(p, runId, key)), p, c, 2), p, runId, key, Terminal(r), [])
      {
        EvidenceDecides(s, p, l, r, c);
      }
      if forall r :: r in s.db.store[runId].results ==> r.executionId != l.executionId { RemoteDecides(s, p, l, c); }
    }
  }

  lemma SlotIsItsOwn(s: State, k: Slot)
    requires Inv(s) && k in s.table
    ensures s.table[k].runId == k.runId && s.table[k].key == k.key
  {
    hide WorksOk, DbOk, CallsOk, RemoteFromCalls, OwnersDiffer, PhaseOk, StoredOk;
  }
}
