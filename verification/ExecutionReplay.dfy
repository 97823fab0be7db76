/**
 What a worker that nothing disturbs achieves: it calls the gateway once, persists the result, completes its lease and
 returns; and whoever asks for the same key later returns that result without calling the gateway.
 */
module ExecutionReplay {
  import opened Wrappers
  import opened Contracts
  import opened Text
  import opened SessionStore
  import opened Leases
  import opened LeaseLifecycle
  import opened Execution
  import opened ExecutionInvariant
  import opened ExecutionSteps
  import opened ExecutionTheorems

  // ----- A completed row stays -----

  lemma ReservingKeepsCompleted(s: State, p: nat, c: Choice, k: Slot)
    requires Inv(s) && p in s.procs && Reserving(s.procs[p]) && k in s.table && s.table[k].status == LeaseStatus.Done
    ensures var t := ReserveStep(s, p, c).table; k in t && t[k] == s.table[k]
  {
    hide WorksOk, DbOk, RowsKept, CallsOk, RemoteFromCalls, StoredOk, PhaseOk, RowOk, HasBlankField, Step, WriteError;
    if s.procs[p].Undoing? {
      Parts(s, p);
      RowAtItsSlot(s, k);
      CompletedIsNotUndone(s, p, s.table[k]);
    }
  }

  lemma CompletingKeepsCompleted(s: State, p: nat, c: Choice, k: Slot)
    requires Inv(s) && p in s.procs && Completing(s.procs[p]) && k in s.table && s.table[k].status == LeaseStatus.Done
    ensures var t := CompleteStep(s, p, c).table; k in t && t[k] == s.table[k]
  {
    hide WorksOk, DbOk, CallsOk, RemoteFromCalls, StoredOk, PhaseOk, RowOk, Step, WriteError;
    Parts(s, p);
  }

  lemma CompletedRowStays(s: State, e: Execution.Event, k: Slot)
    requires Inv(s) && k in s.table && s.table[k].status == LeaseStatus.Done
    ensures k in Happen(s, e).table && Happen(s, e).table[k] == s.table[k]
  {
    hide Inv, ReserveStep, CompleteStep, Step;
    if e.Go? && e.proc in s.procs {
      var ph := s.procs[e.proc];
      if Reserving(ph) { ReservingKeepsCompleted(s, e.proc, e.choice, k); }
      else if Completing(ph) { CompletingKeepsCompleted(s, e.proc, e.choice, k); }
    }
  }

  // ----- Whoever returns does so under a completed lease -----

  ghost predicate IsCompleted(s: State, l: Lease) { RowHeld(s, l) && s.table[SlotOf(l)].status == LeaseStatus.Done }

  // The lease whose completion the process relies on.
  function Relied(ph: Phase): Option<Lease> {
    match ph
    case Noting(_, l, _, _) => Some(l)
    case NoteSaving(_, l, _, _) => Some(l)
    case Returned(_, l, _) => Some(l)
    case Replaying(_, l) => Some(l)
    case _ => None
  }

  ghost predicate CreditedAt(s: State, p: nat) {
    p in s.procs && Relied(s.procs[p]).Some? ==> IsCompleted(s, Relied(s.procs[p]).value)
  }

  ghost predicate Credited(s: State) { forall p :: p in s.procs ==> CreditedAt(s, p) }

  // A step of one process leaves the others where they were.
  ghost predicate OnlyMoves(s: State, s': State, p: nat) {
    p in s'.procs && s'.procs == s.procs[p := s'.procs[p]]
  }

  lemma ReservingMoves(s: State, p: nat, c: Choice)
    requires p in s.procs
    ensures OnlyMoves(s, ReserveStep(s, p, c), p)
  {
    hide Step, WriteError, HasBlankField, Lookup, Audit, NewLease;
  }

  lemma ExecutingMoves(s: State, p: nat, c: Choice)
    requires p in s.procs
    ensures OnlyMoves(s, ExecuteStep(s, p, c), p)
  {
    hide Step, WriteError, FindResult, Admissible, Filled, Sent;
  }

  lemma CompletingMoves(s: State, p: nat, c: Choice)
    requires p in s.procs
    ensures OnlyMoves(s, CompleteStep(s, p, c), p)
  {
    hide Step, WriteError, RowOf, Audit, Leases.Finished;
  }

  lemma ReconcilingMoves(s: State, p: nat, c: Choice)
    requires p in s.procs
    ensures OnlyMoves(s, ReconcileStep(s, p, c), p)
  {
    hide Step, WriteError, Inspect, RemoteStore.LookUp, Admissible, Filled;
  }

  lemma ProgressMoves(s: State, p: nat, c: Choice)
    requires p in s.procs
    ensures OnlyMoves(s, Progress(s, p, c), p)
  {
    hide ReserveStep, ExecuteStep, CompleteStep, ReconcileStep, OnlyMoves;
    ReservingMoves(s, p, c);
    ExecutingMoves(s, p, c);
    CompletingMoves(s, p, c);
    ReconcilingMoves(s, p, c);
  }

  lemma OnlyItsOwnProcess(s: State, e: Execution.Event, q: nat)
    requires q in Happen(s, e).procs && !(e.Go? && e.proc == q)
    ensures (q in s.procs && Happen(s, e).procs[q] == s.procs[q]) || Happen(s, e).procs[q].Inserting? || Happen(s, e).procs[q].Looking?
  {
    hide Step, Progress;
    if e.Go? && e.proc in s.procs { ProgressMoves(s, e.proc, e.choice); }
  }

  lemma CompletingIsCredited(s: State, p: nat, c: Choice)
    requires Inv(s) && p in s.procs && Completing(s.procs[p])
    requires CreditedAt(s, p)
    ensures CreditedAt(CompleteStep(s, p, c), p)
  {
    hide Inv, WorksOk, DbOk, RowsKept, CallsOk, RemoteFromCalls, PhaseOk, CompleteStep, CalledWith, ExecutionInvariant.Done, RowOf, IsCompleted;
    var ph := s.procs[p];
    if ph.Selecting? || ph.Updating? || ph.Rechecking? {
      OwnRowOfAFinisher(s, p);
      if ph.Updating? { UpdatingIsCredited(s, p, c); } else { LookingIsCredited(s, p, c); }
    } else {
      NotingIsCredited(s, p, c);
    }
  }

  lemma OwnRowOfAFinisher(s: State, p: nat)
    requires Inv(s) && p in s.procs && (s.procs[p].Selecting? || s.procs[p].Updating? || s.procs[p].Rechecking?)
    ensures var l := s.procs[p].lease;
      && RowHeld(s, l) && RowOf(s.table, l.runId, l.leaseId) == Some(s.table[SlotOf(l)]) && SlotOf(s.table[SlotOf(l)]) == SlotOf(l)
  {
    hide Inv, WorksOk, DbOk, RowsKept, CallsOk, RemoteFromCalls, PhaseOk, CalledWith, ExecutionInvariant.Done, RowOf, Minted, Originated, Called, CalledFor;
    Parts(s, p);
    EvidencedFacts(s, p, s.procs[p]);
    CallFacts(s, s.procs[p].work, s.procs[p].lease);
    OwnRowIsFound(s, s.procs[p].lease);
  }

  lemma UpdatingIsCredited(s: State, p: nat, c: Choice)
    requires p in s.procs && s.procs[p].Updating? && RowHeld(s, s.procs[p].lease)
    requires RowOf(s.table, s.procs[p].lease.runId, s.procs[p].lease.leaseId) == Some(s.table[SlotOf(s.procs[p].lease)])
    requires SlotOf(s.table[SlotOf(s.procs[p].lease)]) == SlotOf(s.procs[p].lease)
    ensures CreditedAt(CompleteStep(s, p, c), p)
  {
    hide RowOf;
  }

  lemma LookingIsCredited(s: State, p: nat, c: Choice)
    requires p in s.procs && (s.procs[p].Selecting? || s.procs[p].Rechecking?) && RowHeld(s, s.procs[p].lease)
    requires RowOf(s.table, s.procs[p].lease.runId, s.procs[p].lease.leaseId) == Some(s.table[SlotOf(s.procs[p].lease)])
    ensures CreditedAt(CompleteStep(s, p, c), p)
  {
    hide RowOf;
  }

  lemma NotingIsCredited(s: State, p: nat, c: Choice)
    requires p in s.procs && (s.procs[p].Noting? || s.procs[p].NoteSaving?) && IsCompleted(s, s.procs[p].lease)
    ensures CreditedAt(CompleteStep(s, p, c), p)
  {
    hide Step, WriteError;
  }

  lemma ReservingIsCredited(s: State, p: nat, c: Choice)
    requires Inv(s) && p in s.procs && Reserving(s.procs[p])
    ensures CreditedAt(ReserveStep(s, p, c), p)
  {
    hide WorksOk, DbOk, CallsOk, RemoteFromCalls, StoredOk, PhaseOk, RowOk, RowOf, Step, WriteError, HasBlankField;
    Parts(s, p);
  }

  lemma ExecutingIsCredited(s: State, p: nat, c: Choice)
    requires p in s.procs && !Completing(s.procs[p]) && CreditedAt(s, p)
    ensures CreditedAt(ExecuteStep(s, p, c), p)
  {
    hide Step, WriteError, FindResult, Admissible, Filled, Sent;
  }

  lemma ReconcilingIsCredited(s: State, p: nat, c: Choice)
    requires p in s.procs && Execution.Reconciling(s.procs[p])
    ensures CreditedAt(ReconcileStep(s, p, c), p)
  {
    hide Step, WriteError, Inspect, RemoteStore.LookUp, Admissible, Filled;
  }

  lemma ProgressIsCredited(s: State, p: nat, c: Choice)
    requires Inv(s) && Credited(s) && p in s.procs
    ensures CreditedAt(Progress(s, p, c), p)
  {
    hide Inv, ReserveStep, CompleteStep, ExecuteStep, ReconcileStep, IsCompleted;
    var ph := s.procs[p];
    if Reserving(ph) { ReservingIsCredited(s, p, c); }
    else if Completing(ph) { CompletingIsCredited(s, p, c); }
    else if Execution.Reconciling(ph) { ReconcilingIsCredited(s, p, c); }
    else { ExecutingIsCredited(s, p, c); }
  }

  lemma HappeningKeepsCredited(s: State, e: Execution.Event)
    requires Inv(s) && Credited(s)
    ensures Credited(Happen(s, e))
  {
    hide Inv, Happen, Progress;
    var s' := Happen(s, e);
    forall q | q in s'.procs ensures CreditedAt(s', q) {
      if e.Go? && e.proc == q {
        GoProgresses(s, q, e.choice);
        ProgressIsCredited(s, q, e.choice);
      } else {
        OnlyItsOwnProcess(s, e, q);
        if Relied(s'.procs[q]).Some? {
          assert CreditedAt(s, q);
          CompletedRowStays(s, e, SlotOf(Relied(s'.procs[q]).value));
        }
      }
    }
  }

  lemma GoProgresses(s: State, p: nat, c: Choice)
    requires p in Happen(s, Go(p, c)).procs
    ensures p in s.procs && Happen(s, Go(p, c)) == Progress(s, p, c)
  {
    hide Progress;
  }

  lemma {:induction false} EveryHistoryIsCredited(s: State, es: seq<Execution.Event>)
    requires Inv(s) && Credited(s)
    ensures Credited(History(s, es))
    decreases |es|
  {
    hide Inv, Happen, Credited;
    if es != [] {
      AdvanceKeepsInv(s, es[0]);
      HappeningKeepsCredited(s, es[0]);
      EveryHistoryIsCredited(Happen(s, es[0]), es[1..]);
    }
  }

  /**
   Over every history: the lease a worker returns under, whether it executed or replays, is in the table, completed, and
   the one persisted result with its execution id is what the worker returns.
   */
  lemma ReturnedLeaseIsCompleted(es: seq<Execution.Event>, p: nat)
    requires p in History(START, es).procs && History(START, es).procs[p].Returned?
    ensures var s := History(START, es);
      var Returned(w, l, r) := s.procs[p];
      var k := Slot(w.request.runId, w.request.key);
      && k in s.table && s.table[k].status == LeaseStatus.Done && s.table[k].leaseId == l.leaseId
      && s.table[k].executionId == r.executionId
      && k.runId in s.db.store && OnlyResult(s.db.store[k.runId].results, r)
  {
    hide Inv, History, OnlyResult;
    StartIsOk();
    assert Credited(START);
    EveryHistoryIsCredited(START, es);
    assert CreditedAt(History(START, es), p);
    ReturnedResultIsTheEvidence(es, p);
  }
}
