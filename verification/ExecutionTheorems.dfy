/** Whole histories of the execution protocol. */
module ExecutionTheorems {
  import opened Contracts
  import opened SessionStore
  import opened Leases
  import LeaseRefinement
  import opened RemoteStore
  import opened Execution
  import opened ExecutionInvariant
  import opened ExecutionSteps

  lemma ProgressKeepsInv(s: State, p: nat, c: Choice)
    requires Inv(s) && p in s.procs
    ensures Inv(Progress(s, p, c))
  {
    hide Inv;
    match s.procs[p] {
      case Inserting(_) => InsertingKeepsInv(s, p, c);
      case Clashed(_) => ClashedKeepsInv(s, p, c);
      case Auditing(_, _) => AuditingKeepsInv(s, p, c);
      case AuditSaving(_, _) => AuditSavingKeepsInv(s, p, c);
      case Undoing(_, _) => UndoingKeepsInv(s, p, c);
      case Granted(_, _) => GrantedKeepsInv(s, p, c);
      case Awaiting(_, _) => AwaitingKeepsInv(s, p, c);
      case Persisting(_, _, _) => PersistingKeepsInv(s, p, c);
      case ResultSaving(_, _, _) => ResultSavingKeepsInv(s, p, c);
      case Selecting(_, _, _) => SelectingKeepsInv(s, p, c);
      case Updating(_, _, _) => UpdatingKeepsInv(s, p, c);
      case Rechecking(_, _, _) => RecheckingKeepsInv(s, p, c);
      case Noting(_, _, _, _) => NotingKeepsInv(s, p, c);
      case NoteSaving(_, _, _, _) => NoteSavingKeepsInv(s, p, c);
      case Replaying(_, _) => ReplayingKeepsInv(s, p, c);
      case Looking(_, _) => LookingKeepsInv(s, p, c);
      case Inspecting(_, _, _) => InspectingKeepsInv(s, p, c);
      case Asking(_, _, _) => AskingKeepsInv(s, p, c);
      case Storing(_, _, _, _) => StoringKeepsInv(s, p, c);
      case EvidenceSaving(_, _, _, _) => EvidenceSavingKeepsInv(s, p, c);
      case Returned(_, _, _) =>
      case Orphaned(_, _) =>
      case Concluded(_, _, _) =>
      case Stopped =>
    }
  }

  lemma RemoteStaysFromCalls(s: State, t: RemoteStore.Event)
    requires RemoteFromCalls(s) && (t.Arrive? ==> SentFor(s, t.request))
    ensures RemoteFromCalls(s.(remote := Next(s.remote, t)))
    ensures Later(s, s.(remote := Next(s.remote, t)))
  {
    var s' := s.(remote := Next(s.remote, t));
    NextKeepsRemoteOk(s.remote, t);
    hide RemoteOk, Next, Arrived, SentFor, RowsOk;
    LaterFacts(s, s');
    ArrivalsAreSent(s, s', t);
  }

  lemma ArrivalsAreSent(s: State, s': State, t: RemoteStore.Event)
    requires RemoteFromCalls(s) && (t.Arrive? ==> SentFor(s, t.request))
    requires s' == s.(remote := Next(s.remote, t))
    ensures forall e :: e in s'.remote.rows ==> SentFor(s', s'.remote.rows[e].request)
    ensures forall h :: h in s'.remote.handlers ==> SentFor(s', s'.remote.handlers[h].request)
  {
    hide RemoteOk, Next;
    forall q | Arrived(s'.remote, q) ensures SentFor(s', q) { NothingElseArrives(s.remote, t, q); }
    assert forall e :: e in s'.remote.rows ==> Arrived(s'.remote, s'.remote.rows[e].request);
    assert forall h :: h in s'.remote.handlers ==> Arrived(s'.remote, s'.remote.handlers[h].request);
  }

  lemma ThreadKeepsInv(s: State, t: RemoteStore.Event)
    requires Inv(s) && (t.Arrive? ==> SentFor(s, t.request))
    ensures Inv(s.(remote := Next(s.remote, t)))
  {
    hide DbOk, RowsKept, CallsOk, RemoteFromCalls, StoredOk, PhaseOk, Next, Later;
    var s' := s.(remote := Next(s.remote, t));
    RemoteStaysFromCalls(s, t);
    LaterKeepsDb(s, s');
    LaterKeepsRows(s, s');
    LaterKeepsCalls(s, s');
    LaterKeepsStored(s, s');
    forall q | q in s'.procs ensures PhaseOk(s', q, s'.procs[q]) { PhaseSurvives(s, s', q, s'.procs[q]); }
  }

  lemma WorkKeepsInv(s: State, w: Work)
    requires Inv(s) && w.request.executionId !in s.works
    ensures Inv(s.(works := s.works[w.request.executionId := w]))
  {
    hide DbOk, RowsKept, CallsOk, RemoteFromCalls, StoredOk, PhaseOk;
    var s' := s.(works := s.works[w.request.executionId := w]);
    LaterKeepsDb(s, s');
    LaterKeepsRows(s, s');
    LaterKeepsCalls(s, s');
    LaterKeepsRemote(s, s');
    LaterKeepsStored(s, s');
    forall q | q in s'.procs ensures PhaseOk(s', q, s'.procs[q]) { PhaseSurvives(s, s', q, s'.procs[q]); }
  }

  lemma StartsOk(s: State, p: nat, w: Work, runId: string, key: string)
    ensures Known(s, w) ==> PhaseOk(s, p, Inserting(w))
    ensures PhaseOk(s, p, Looking(runId, key))
  {}

  lemma ForgetKeepsInv(s: State, p: nat)
    requires Inv(s)
    ensures Inv(s.(procs := s.procs - {p}))
  {
    hide DbOk, RowsKept, CallsOk, RemoteFromCalls, StoredOk, PhaseOk;
    var s' := s.(procs := s.procs - {p});
    LaterKeepsDb(s, s');
    LaterKeepsRows(s, s');
    LaterKeepsCalls(s, s');
    LaterKeepsRemote(s, s');
    LaterKeepsStored(s, s');
    forall q | q in s'.procs ensures PhaseOk(s', q, s'.procs[q]) { PhaseSurvives(s, s', q, s'.procs[q]); }
  }

  lemma AdvanceKeepsInv(s: State, e: Execution.Event)
    requires Inv(s)
    ensures Inv(Happen(s, e))
  {
    hide Inv, PhaseOk, Step, Next, Progress;
    match e {
      case Manager(a) => if ForeignAction(s.procs, a) { DbKeepsInv(s, a); }
      case Thread(t) => if t.Arrive? ==> SentFor(s, t.request) { ThreadKeepsInv(s, t); }
      case StartWorker(p, w) =>
        if p !in s.procs && p !in s.db.clients && w.request.executionId !in s.works {
          WorkKeepsInv(s, w);
          StartsOk(s.(works := s.works[w.request.executionId := w]), p, w, "", "");
          EnterKeepsInv(s.(works := s.works[w.request.executionId := w]), p, Inserting(w));
        }
      case StartRecovery(p, runId, key) =>
        if p !in s.procs && p !in s.db.clients {
          StartsOk(s, p, Work(Request("", "", "", "", ""), ""), runId, key);
          EnterKeepsInv(s, p, Looking(runId, key));
        }
      case Crash(p) =>
        if p in s.procs { DbKeepsInv(s, Abandon(p)); ForgetKeepsInv(s.(db := Step(s.db, Abandon(p))), p); }
      case Go(p, c) => if p in s.procs { ProgressKeepsInv(s, p, c); }
    }
  }

  lemma {:induction false} EveryHistoryKeepsInv(s: State, es: seq<Execution.Event>)
    requires Inv(s)
    ensures Inv(History(s, es))
    decreases |es|
  {
    hide Inv, Happen;
    if es != [] {
      AdvanceKeepsInv(s, es[0]);
      EveryHistoryKeepsInv(Happen(s, es[0]), es[1..]);
    }
  }

  lemma StartIsOk()
    ensures Inv(START)
  {}

  lemma ReachableIsOk(es: seq<Execution.Event>)
    ensures Inv(History(START, es))
  {
    StartIsOk();
    EveryHistoryKeepsInv(START, es);
  }

  // ----- At most once -----

  // Over every interleaving of workers, crashes, storage errors, recoveries, other managers and
  // remote threads, the gateway is called at most once per run and idempotency key.
  lemma GatewayIsCalledAtMostOnce(es: seq<Execution.Event>, i: nat, j: nat)
    requires i < j < |History(START, es).calls|
    ensures var calls := History(START, es).calls;
      (calls[i].work.request.runId, calls[i].work.request.key) != (calls[j].work.request.runId, calls[j].work.request.key)
  {
    ReachableIsOk(es);
    var s := History(START, es);
    hide DbOk, RowsKept, RemoteFromCalls, StoredOk, PhaseOk;
    assert s.calls[i] in s.calls && s.calls[j] in s.calls;
    assert RowHeld(s, s.calls[i].lease) && RowHeld(s, s.calls[j].lease);
  }

  // And the remote authority runs the code at most once for each such key.
  lemma RemoteRunsAtMostOnce(es: seq<Execution.Event>, i: nat, j: nat)
    requires i < j < |History(START, es).remote.runs|
    ensures var s := History(START, es);
      && s.remote.runs[i].key != s.remote.runs[j].key
      && s.remote.runs[i].executionId != s.remote.runs[j].executionId
  {
    ReachableIsOk(es);
  }

  /** Whatever the remote authority has run or stored is what some gateway call sent: that work's execution, key, fingerprint and run. */
  lemma RemoteActsOnCalls(es: seq<Execution.Event>, q: RemoteRequest)
    requires var s := History(START, es); q in s.remote.runs || exists id :: id in s.remote.rows && s.remote.rows[id].request == q
    ensures exists c ::
      && c in History(START, es).calls && c.work.request.executionId == q.executionId
      && c.work.request.key == q.key && c.work.fingerprint == q.fingerprint && c.work.request.runId == q.runId
  {
    ReachableIsOk(es);
    var s := History(START, es);
    assert SentFor(s, q);
    var i :| 0 <= i < |s.calls| && Sent(s.calls[i].work) == q;
    assert s.calls[i] in s.calls;
  }

  // ----- Completed leases and replays -----

  ghost predicate OnlyResult(results: seq<ExecutionResult>, r: ExecutionResult) {
    && r in results
    && (forall x :: x in results && x.executionId == r.executionId ==> x == r)
    && (forall i, j :: 0 <= i < j < |results| ==> results[i].executionId != results[j].executionId)
  }

  lemma HeldIsOnly(s: State, runId: string, r: ExecutionResult)
    requires DbOk(s) && HoldsResult(s, runId, r)
    ensures OnlyResult(s.db.store[runId].results, r)
  {
    SerialIsWellFormed(runId, s.db.log[runId]);
  }

  // A completed lease has exactly one persisted result with its execution id in its run.
  lemma CompletedLeaseHasEvidence(es: seq<Execution.Event>, k: Slot)
    requires k in History(START, es).table && History(START, es).table[k].status == LeaseStatus.Done
    ensures var s := History(START, es);
      k.runId in s.db.store &&
      exists r :: OnlyResult(s.db.store[k.runId].results, r) && r.executionId == s.table[k].executionId
  {
    ReachableIsOk(es);
    var s := History(START, es);
    hide CallsOk, RemoteFromCalls, StoredOk, PhaseOk;
    assert RowOk(s, s.table[k]);
    var found := FindResult(s.db.store[k.runId].results, s.table[k].executionId);
    hide DbOk;
    HeldIsOnly(s, k.runId, found.value);
  }

  // No worker ever meets a completed lease without evidence, and whatever a worker returns,
  // after executing or by replay, is the one persisted result of the lease it returns under.
  lemma ReturnedResultIsTheEvidence(es: seq<Execution.Event>, p: nat)
    requires p in History(START, es).procs
    ensures var s := History(START, es);
      && !s.procs[p].Orphaned?
      && (s.procs[p].Returned? ==>
            var l := s.procs[p].under;
            && l.runId == s.procs[p].work.request.runId && l.key == s.procs[p].work.request.key
            && s.procs[p].result.executionId == l.executionId
            && l.runId in s.db.store && OnlyResult(s.db.store[l.runId].results, s.procs[p].result))
  {
    hide Inv, RowsKept, CallsOk, RemoteFromCalls, StoredOk, DbOk, OnlyResult, History, PhaseOk;
    ReachableIsOk(es);
    var s := History(START, es);
    Parts(s, p);
    ReturnFacts(s, p, s.procs[p]);
    if s.procs[p].Returned? { HeldIsOnly(s, s.procs[p].under.runId, s.procs[p].result); }
  }

  lemma ReturnFacts(s: State, p: nat, ph: Phase)
    requires PhaseOk(s, p, ph)
    ensures !ph.Orphaned?
    ensures ph.Returned? ==>
      && ph.under.runId == ph.work.request.runId && ph.under.key == ph.work.request.key
      && ph.result.executionId == ph.under.executionId && HoldsResult(s, ph.under.runId, ph.result)
    ensures ph.Concluded? && ph.conclusion.Terminal? ==>
      && HoldsResult(s, ph.runId, ph.conclusion.result) && ph.conclusion.result.executionId in s.works
      && s.works[ph.conclusion.result.executionId].request.key == ph.key
  {}

  // ----- Reconciled evidence -----

  // What reconcile_backend stores is what the remote authority committed for that execution id
  // and key, with only the missing run and worker filled in.
  lemma StoredEvidenceIsAuthoritative(es: seq<Execution.Event>, e: Stored)
    requires e in History(START, es).stored
    ensures var s := History(START, es);
      && e.found.executionId in s.remote.rows
      && s.remote.rows[e.found.executionId].request.key == e.key
      && s.remote.rows[e.found.executionId].result.Some?
      && e.result == Filled(s.remote.rows[e.found.executionId].result.value, e.runId, e.found.workerId)
      && HoldsResult(s, e.runId, e.result)
  {
    ReachableIsOk(es);
    var s := History(START, es);
    hide DbOk, RowsKept, PhaseOk;
    assert StoredOk(s, e);
    assert SentFor(s, s.remote.rows[e.found.executionId].request);
    var i :| 0 <= i < |s.calls| && Sent(s.calls[i].work) == s.remote.rows[e.found.executionId].request;
    assert s.calls[i] in s.calls;
  }

  // Every persisted success, whether a worker or a recovery stored it, was committed remotely.
  lemma SuccessWasCommitted(es: seq<Execution.Event>, runId: string, r: ExecutionResult)
    requires HoldsResult(History(START, es), runId, r) && r.status == Success
    ensures Committed(History(START, es), r)
  {
    ReachableIsOk(es);
    hide RowsKept, CallsOk, RemoteFromCalls, StoredOk, PhaseOk;
    ResultIsGenuine(History(START, es), runId, r);
  }

  // Reconciliation never creates or changes a lease and never calls the gateway.
  lemma ReconcilingTouchesNoLease(s: State, p: nat, c: Choice)
    requires p in s.procs && Execution.Reconciling(s.procs[p])
    ensures Happen(s, Go(p, c)).table == s.table && Happen(s, Go(p, c)).calls == s.calls
    ensures Happen(s, Go(p, c)).issued == s.issued && Happen(s, Go(p, c)).remote == s.remote
  {
    hide Inspect, LookUp, Step, WriteError;
  }

  // ----- Nothing is forgotten -----

  // What one event can do to the shared state, besides the lease table.
  ghost predicate Evolves(s: State, s': State) {
    && (s'.db == s.db || exists a :: s'.db == Step(s.db, a))
    && (s'.remote == s.remote || exists t :: s'.remote == Next(s.remote, t))
    && s.issued <= s'.issued && s.calls <= s'.calls
    && (forall e :: e in s.works ==> e in s'.works && s'.works[e] == s.works[e])
  }

  // The read, if any, with which a process in this phase starts its next session operation.
  function ReadOf(p: nat, ph: Phase): SessionStore.Action {
    match ph
    case Auditing(_, l) => Read(p, l.runId, AddMessage(Audit(l)))
    case Persisting(_, l, r) => Read(p, l.runId, AddResult(r))
    case Noting(_, l, done, _) => Read(p, l.runId, AddMessage(Audit(done)))
    case Storing(runId, _, _, r) => Read(p, runId, AddResult(r))
    case _ => Abandon(p)
  }

  ghost predicate ProgressesTo(s: State, p: nat, c: Choice, s': State)
    requires p in s.procs
  {
    && s'.db in {s.db, Step(s.db, Write(p)), Step(s.db, ReadOf(p, s.procs[p]))}
    && s'.remote == s.remote && s'.works == s.works
    && s'.issued in {s.issued, s.issued + {c.leaseId}}
    && s'.calls == if s.procs[p].Granted? then s.calls + [GatewayCall(s.procs[p].work, s.procs[p].lease)] else s.calls
  }

  lemma ReserveStepEvolves(s: State, p: nat, c: Choice)
    requires p in s.procs && Execution.Reserving(s.procs[p])
    ensures ProgressesTo(s, p, c, ReserveStep(s, p, c))
  {
    hide Step, Next, WriteError, RowOf, Inspect, LookUp, Admissible, Filled, HasBlankField, Lookup, Audit, NewLease;
  }

  lemma ExecuteStepEvolves(s: State, p: nat, c: Choice)
    requires p in s.procs
    ensures ProgressesTo(s, p, c, ExecuteStep(s, p, c))
  {
    hide Step, Next, WriteError, RowOf, Inspect, LookUp, Admissible, Filled, HasBlankField, Lookup, Audit, NewLease;
  }

  lemma CompleteStepEvolves(s: State, p: nat, c: Choice)
    requires p in s.procs && Execution.Completing(s.procs[p])
    ensures ProgressesTo(s, p, c, CompleteStep(s, p, c))
  {
    hide Step, Next, WriteError, RowOf, Inspect, LookUp, Admissible, Filled, HasBlankField, Lookup, Audit, NewLease;
  }

  lemma ReconcileStepEvolves(s: State, p: nat, c: Choice)
    requires p in s.procs && Execution.Reconciling(s.procs[p])
    ensures ProgressesTo(s, p, c, ReconcileStep(s, p, c))
  {
    hide Step, Next, WriteError, RowOf, Inspect, LookUp, Admissible, Filled, HasBlankField, Lookup, Audit, NewLease;
  }

  lemma ProgressEvolves(s: State, p: nat, c: Choice)
    requires p in s.procs
    ensures ProgressesTo(s, p, c, Progress(s, p, c))
    ensures Evolves(s, Progress(s, p, c))
  {
    hide Step, Next, ReserveStep, CompleteStep, ReconcileStep, ExecuteStep;
    var ph := s.procs[p];
    if Execution.Reserving(ph) { ReserveStepEvolves(s, p, c); }
    else if Execution.Completing(ph) { CompleteStepEvolves(s, p, c); }
    else if Execution.Reconciling(ph) { ReconcileStepEvolves(s, p, c); }
    else { ExecuteStepEvolves(s, p, c); }
    assert ProgressesTo(s, p, c, Progress(s, p, c));
  }

  lemma EvolvingIsLater(s: State, s': State)
    requires Evolves(s, s') && Serialized(s.db) && RemoteOk(s.remote)
    ensures Later(s, s')
  {
    hide Step, Next, Serialized, RemoteOk;
    if s'.db != s.db {
      var a :| s'.db == Step(s.db, a);
      DbStepGrows(s, a);
    }
    if s'.remote != s.remote {
      var t :| s'.remote == Next(s.remote, t);
      NextKeepsRemoteOk(s.remote, t);
    }
  }

  lemma HappeningIsLater(s: State, e: Execution.Event)
    requires Serialized(s.db) && RemoteOk(s.remote)
    ensures Later(s, Happen(s, e))
  {
    hide Step, Next, Serialized, RemoteOk, Later, Progress;
    if e.Go? && e.proc in s.procs { ProgressEvolves(s, e.proc, e.choice); }
    EvolvingIsLater(s, Happen(s, e));
  }

  lemma LaterIsTransitive(a: State, b: State, c: State)
    requires Later(a, b) && Later(b, c)
    ensures Later(a, c)
  {}

  lemma {:induction false} HistoryIsLater(s: State, es: seq<Execution.Event>)
    requires Inv(s)
    ensures Later(s, History(s, es)) && Inv(History(s, es))
    decreases |es|
  {
    if es != [] {
      assert Serialized(s.db) && RemoteOk(s.remote);
      hide Inv, Happen, Later;
      HappeningIsLater(s, es[0]);
      AdvanceKeepsInv(s, es[0]);
      HistoryIsLater(Happen(s, es[0]), es[1..]);
      LaterIsTransitive(s, Happen(s, es[0]), History(s, es));
    } else {
      hide Inv;
    }
  }

  // The evidence held for a key is what any inspection of that key concludes.
  lemma HeldEvidenceDecides(s: State, runId: string, key: string, r: ExecutionResult)
    requires WorksOk(s) && DbOk(s) && RowsKept(s) && CallsOk(s)
    requires HoldsResult(s, runId, r) && r.executionId in s.works && s.works[r.executionId].request.key == key
    ensures Inspect(s.db.store[runId], Lookup(s.table, runId, key)) == Concludes(Conclusion.Terminal(r))
  {
    ResultIsGenuine(s, runId, r);
    var i :| 0 <= i < |s.calls| && s.calls[i].work.request.executionId == r.executionId;
    var c := s.calls[i];
    assert c in s.calls;
    assert RowHeld(s, c.lease) && Slot(runId, key) == SlotOf(c.lease);
    RowAtItsSlot(s, SlotOf(c.lease));
    FoundLastIsThere(s.db.store[runId].results, r.executionId);
    HeldIsOnly(s, runId, r);
  }

  // Once a recovery has concluded on evidence, every later inspection of that key in any
  // continuation gives the same conclusion from local evidence, without asking the backend.
  lemma ConclusionIsStable(es: seq<Execution.Event>, p: nat, later: seq<Execution.Event>)
    requires var s := History(START, es); p in s.procs && s.procs[p].Concluded? && s.procs[p].conclusion.Terminal?
    ensures var s := History(START, es);
      var s' := History(s, later);
      var ph := s.procs[p];
      ph.runId in s'.db.store && Inspect(s'.db.store[ph.runId], Lookup(s'.table, ph.runId, ph.key)) == Concludes(ph.conclusion)
  {
    hide Inv, PhaseOk, WorksOk, StoredOk, DbOk, RowsKept, CallsOk, RemoteFromCalls, Inspect, History, Later;
    ReachableIsOk(es);
    var s := History(START, es);
    var s' := History(s, later);
    var ph := s.procs[p];
    Parts(s, p);
    ReturnFacts(s, p, ph);
    HistoryIsLater(s, later);
    SharedParts(s');
    LaterWorks(s, s');
    LaterFacts(s, s');
    HeldEvidenceDecides(s', ph.runId, ph.key, ph.conclusion.result);
  }

  lemma SharedParts(s: State)
    requires Inv(s)
    ensures WorksOk(s) && DbOk(s) && RowsKept(s) && CallsOk(s) && RemoteFromCalls(s)
  {
    hide WorksOk, DbOk, RowsKept, CallsOk, RemoteFromCalls, StoredOk, PhaseOk, OwnersDiffer;
  }

  lemma LaterWorks(s: State, s': State)
    requires Later(s, s')
    ensures forall e :: e in s.works ==> e in s'.works && s'.works[e] == s.works[e]
  {}

  // ----- No executed call escapes run-wide reconciliation -----

  lemma {:induction false} NotedKeyIsFound(messages: seq<Message>, runId: string, m: Message, key: string)
    requires m in messages && NotesKey(m, key)
    ensures Find(messages, runId, key).Some?
  {
    var last := messages[|messages| - 1];
    if !NotesKey(last, key) {
      assert m in messages[..|messages| - 1];
      NotedKeyIsFound(messages[..|messages| - 1], runId, m, key);
    }
  }

  // Even after crashes, the fold of a run's audit log lists every key that was ever executed.
  lemma EveryCallIsListed(es: seq<Execution.Event>, c: GatewayCall)
    requires c in History(START, es).calls
    ensures var s := History(START, es);
      var runId := c.work.request.runId;
      runId in s.db.store &&
      exists l :: l in Fold(s.db.store[runId].messages, runId) && l.key == c.work.request.key
  {
    ReachableIsOk(es);
    var s := History(START, es);
    hide DbOk, RowsKept, RemoteFromCalls, StoredOk, PhaseOk;
    assert Audited(s, c.lease);
    var runId, key := c.work.request.runId, c.work.request.key;
    var messages := s.db.store[runId].messages;
    NotedKeyIsFound(messages, runId, Audit(c.lease), key);
    LeaseRefinement.FindMatchesKey(messages, runId);
    LeaseRefinement.FoldIsFind(messages, runId);
    assert Find(messages, runId, key).value in Fold(messages, runId);
  }
}
