/** Every event of the execution protocol keeps its invariant. */
module ExecutionSteps {
  import opened Wrappers
  import opened Contracts
  import opened SessionStore
  import opened Leases
  import opened RemoteStore
  import opened Execution
  import opened ExecutionInvariant

  // ----- Using the invariant without unfolding it -----

  lemma Parts(s: State, p: nat)
    requires Inv(s) && p in s.procs
    ensures WorksOk(s) && DbOk(s) && RowsKept(s) && CallsOk(s) && RemoteFromCalls(s) && PhaseOk(s, p, s.procs[p])
  {
    hide WorksOk, DbOk, RowsKept, CallsOk, RemoteFromCalls, StoredOk, PhaseOk, OwnersDiffer;
  }

  // A step by which a process changes phase under the lease it already has, or under none.
  lemma MoveKeepsInv(s: State, p: nat, ph: Phase)
    requires Inv(s) && p in s.procs && PhaseOk(s, p, ph)
    requires Own(ph).Some? ==> Own(s.procs[p]) == Own(ph)
    ensures Inv(Enter(s, p, ph))
  {
    hide DbOk, RowsKept, CallsOk, RemoteFromCalls, StoredOk, PhaseOk;
    EnterKeepsInv(s, p, ph);
  }

  lemma StopIsOk(s: State, p: nat)
    ensures PhaseOk(s, p, Stopped)
  {}

  lemma StopKeepsInv(s: State, p: nat)
    requires Inv(s) && p in s.procs
    ensures Inv(Enter(s, p, Stopped))
  {
    hide Inv, PhaseOk;
    StopIsOk(s, p);
    MoveKeepsInv(s, p, Stopped);
  }

  // After a session step the process keeps the facts of its phase.
  lemma SerializedDb(s: State)
    requires DbOk(s)
    ensures Serialized(s.db)
  {
    hide Serialized, Genuine;
  }

  lemma ReadKeepsInv(s: State, p: nat, runId: string, op: Op)
    requires Inv(s) && p in s.procs && !Saving(s.procs[p])
    requires op.AddResult? ==> Genuine(s, runId, op.result)
    ensures var s1 := Reading(s, p, runId, op);
      Inv(s1) && s1.procs == s.procs && PhaseOk(s1, p, s1.procs[p]) && (runId in s.db.store ==> ClientIs(s1, p, runId, op))
  {
    hide Inv, DbOk, RowsKept, CallsOk, RemoteFromCalls, StoredOk, PhaseOk, Apply, Serialized, Genuine;
    Parts(s, p);
    SerializedDb(s);
    if runId in s.db.store { RunOfRecord(s.db, runId); }
    DbKeepsInv(s, Read(p, runId, op));
    Parts(Reading(s, p, runId, op), p);
  }

  lemma WriteKeepsInv(s: State, p: nat)
    requires Inv(s) && p in s.procs
    ensures var s1 := Writing(s, p);
      Inv(s1) && s1.procs == s.procs && PhaseOk(s1, p, s1.procs[p]) && p !in s1.db.clients && Later(s, s1)
  {
    Parts(s, p);
    hide Inv, RowsKept, CallsOk, RemoteFromCalls, StoredOk, PhaseOk, Apply, Save;
    DbKeepsInv(s, Write(p));
    DbStepGrows(s, Write(p));
    Parts(Writing(s, p), p);
  }

  // ----- Reserving -----

  lemma OwnedLeasesAreIssued(s: State, q: nat)
    requires q in s.procs && PhaseOk(s, q, s.procs[q]) && CallsOk(s) && Own(s.procs[q]).Some?
    ensures Own(s.procs[q]).value.leaseId in s.issued
  {}

  lemma CalledLeasesAreIssued(s: State, leaseId: string)
    requires CallsOk(s) && Called(s, leaseId)
    ensures leaseId in s.issued
  {
    var i :| 0 <= i < |s.calls| && s.calls[i].lease.leaseId == leaseId;
    assert s.calls[i] in s.calls;
  }

  lemma FreshIsAuditable(s: State, p: nat, w: Work, l: Lease)
    requires Known(s, w) && !HasBlankField(w.request) && l == NewLease(w.request, l.leaseId, l.timestamp) && !Called(s, l.leaseId)
    ensures PhaseOk(s.(table := s.table[SlotOf(l) := l], issued := s.issued + {l.leaseId}), p, Auditing(w, l))
  {}

  lemma FreshLeaseKeepsInv(s: State, p: nat, w: Work, l: Lease)
    requires Inv(s) && p in s.procs && Known(s, w) && WorksOk(s) && !HasBlankField(w.request)
    requires l == NewLease(w.request, l.leaseId, l.timestamp) && SlotOf(l) !in s.table && l.leaseId !in s.issued
    ensures Inv(Enter(s.(table := s.table[SlotOf(l) := l], issued := s.issued + {l.leaseId}), p, Auditing(w, l)))
  {
    hide Inv, DbOk, RowsKept, CallsOk, RemoteFromCalls, StoredOk, PhaseOk;
    var s1 := s.(table := s.table[SlotOf(l) := l], issued := s.issued + {l.leaseId});
    InsertKeepsInv(s, l);
    Parts(s, p);
    if Called(s, l.leaseId) { CalledLeasesAreIssued(s, l.leaseId); }
    forall q | q in s1.procs && q != p && Own(s1.procs[q]).Some? ensures Own(s1.procs[q]).value.leaseId != l.leaseId {
      Parts(s, q);
      OwnedLeasesAreIssued(s, q);
    }
    FreshIsAuditable(s, p, w, l);
    EnterKeepsInv(s1, p, Auditing(w, l));
  }

  lemma InsertingIsKnown(s: State, p: nat, w: Work)
    requires PhaseOk(s, p, Inserting(w))
    ensures Known(s, w) && PhaseOk(s, p, Clashed(w))
  {}

  lemma InsertingKeepsInv(s: State, p: nat, c: Choice)
    requires Inv(s) && p in s.procs && s.procs[p].Inserting?
    ensures Inv(Progress(s, p, c))
  {
    hide Inv, WorksOk, DbOk, RowsKept, CallsOk, RemoteFromCalls, StoredOk, PhaseOk, HasBlankField;
    var w := s.procs[p].work;
    Parts(s, p);
    InsertingIsKnown(s, p, w);
    if c.fault != Never || HasBlankField(w.request) { StopKeepsInv(s, p); }
    else if Slot(w.request.runId, w.request.key) in s.table { MoveKeepsInv(s, p, Clashed(w)); }
    else if c.leaseId !in s.issued { FreshLeaseKeepsInv(s, p, w, NewLease(w.request, c.leaseId, c.now)); }
  }

  lemma RowAtItsSlot(s: State, k: Slot)
    requires RowsKept(s) && k in s.table
    ensures SlotOf(s.table[k]) == k && RowIs(s, s.table[k]) && RowOk(s, s.table[k])
  {}

  lemma CompletedIsReplayable(s: State, p: nat, w: Work, row: Lease)
    requires RowIs(s, row) && row.status == LeaseStatus.Done && SlotOf(row) == Slot(w.request.runId, w.request.key)
    ensures PhaseOk(s, p, Replaying(w, row))
  {}

  lemma ClashedKeepsInv(s: State, p: nat, c: Choice)
    requires Inv(s) && p in s.procs && s.procs[p].Clashed?
    ensures Inv(Progress(s, p, c))
  {
    hide Inv, WorksOk, DbOk, CallsOk, RemoteFromCalls, StoredOk, RowsKept, PhaseOk, RowOk;
    var w := s.procs[p].work;
    var found := Lookup(s.table, w.request.runId, w.request.key);
    Parts(s, p);
    if c.fault == Never && found.Some? && found.value.status == LeaseStatus.Done {
      RowAtItsSlot(s, Slot(w.request.runId, w.request.key));
      CompletedIsReplayable(s, p, w, found.value);
      MoveKeepsInv(s, p, Replaying(w, found.value));
    } else { StopKeepsInv(s, p); }
  }

  // ----- Auditing the reservation -----

  lemma AuditingMoves(s: State, p: nat, w: Work, l: Lease)
    requires PhaseOk(s, p, Auditing(w, l))
    ensures PhaseOk(s, p, Undoing(w, l))
    ensures ClientIs(s, p, l.runId, AddMessage(Audit(l))) ==> PhaseOk(s, p, AuditSaving(w, l))
  {}

  lemma AuditingKeepsInv(s: State, p: nat, c: Choice)
    requires Inv(s) && p in s.procs && s.procs[p].Auditing?
    ensures Inv(Progress(s, p, c))
  {
    hide Inv, WorksOk, DbOk, RowsKept, CallsOk, RemoteFromCalls, StoredOk, PhaseOk, Reading;
    var w, l := s.procs[p].work, s.procs[p].lease;
    Parts(s, p);
    AuditingMoves(s, p, w, l);
    if c.fault != Never || l.runId !in s.db.store { MoveKeepsInv(s, p, Undoing(w, l)); }
    else {
      ReadKeepsInv(s, p, l.runId, AddMessage(Audit(l)));
      AuditingMoves(Reading(s, p, l.runId, AddMessage(Audit(l))), p, w, l);
      MoveKeepsInv(Reading(s, p, l.runId, AddMessage(Audit(l))), p, AuditSaving(w, l));
    }
  }

  lemma AuditSavingMoves(s: State, p: nat, w: Work, l: Lease)
    requires PhaseOk(s, p, AuditSaving(w, l))
    ensures PhaseOk(s, p, Undoing(w, l)) && ClientIs(s, p, l.runId, AddMessage(Audit(l)))
    ensures Audited(s, l) ==> PhaseOk(s, p, Granted(w, l))
  {}

  lemma SavedAuditIsThere(s: State, p: nat, l: Lease)
    requires DbOk(s) && p in s.db.clients && ClientIs(s, p, l.runId, AddMessage(Audit(l))) && WriteError(s.db, p) == None
    ensures Audited(Writing(s, p), l)
  {
    hide Apply, Save, Serialized;
    ReturnedMessageIsStored(s.db, p);
  }

  lemma AuditSavingKeepsInv(s: State, p: nat, c: Choice)
    requires Inv(s) && p in s.procs && s.procs[p].AuditSaving?
    ensures Inv(Progress(s, p, c))
  {
    hide Inv, WorksOk, DbOk, RowsKept, CallsOk, RemoteFromCalls, StoredOk, PhaseOk, Writing, WriteError, Later, Audited;
    var w, l := s.procs[p].work, s.procs[p].lease;
    Parts(s, p);
    AuditSavingMoves(s, p, w, l);
    if p !in s.db.clients || c.fault == Before { MoveKeepsInv(s, p, Undoing(w, l)); }
    else {
      WriteKeepsInv(s, p);
      AuditSavingMoves(Writing(s, p), p, w, l);
      if WriteError(s.db, p) == None { SavedAuditIsThere(s, p, l); }
      MoveKeepsInv(Writing(s, p), p, if WriteError(s.db, p) == None && c.fault == Never then Granted(w, l) else Undoing(w, l));
    }
  }

  lemma UndoingKeepsInv(s: State, p: nat, c: Choice)
    requires Inv(s) && p in s.procs && s.procs[p].Undoing?
    ensures Inv(Progress(s, p, c))
  {
    hide Inv;
    if c.fault == Before { StopKeepsInv(s, p); }
    else {
      DeleteKeepsInv(s, p);
      StopKeepsInv(s.(table := Without(s.table, s.procs[p].lease.leaseId)), p);
    }
  }

  // ----- Calling the gateway -----

  lemma NewCallKeepsCalls(s: State, w: Work, l: Lease)
    requires CallsOk(s) && Minted(s, w, l) && RowIs(s, l) && !Called(s, l.leaseId) && Audited(s, l)
    ensures CallsOk(s.(calls := s.calls + [GatewayCall(w, l)]))
  {
    LaterFacts(s, s.(calls := s.calls + [GatewayCall(w, l)]));
  }

  lemma CallKeepsInv(s: State, w: Work, l: Lease)
    requires Inv(s) && Minted(s, w, l) && RowIs(s, l) && !Called(s, l.leaseId) && Audited(s, l)
    requires forall q :: q in s.procs && Own(s.procs[q]).Some? ==> Own(s.procs[q]).value.leaseId != l.leaseId
    ensures Inv(s.(calls := s.calls + [GatewayCall(w, l)]))
  {
    hide DbOk, RowsKept, CallsOk, RemoteFromCalls, StoredOk, PhaseOk;
    var s' := s.(calls := s.calls + [GatewayCall(w, l)]);
    NewCallKeepsCalls(s, w, l);
    LaterKeepsDb(s, s');
    LaterKeepsRows(s, s');
    LaterKeepsRemote(s, s');
    LaterKeepsStored(s, s');
    forall q | q in s'.procs ensures PhaseOk(s', q, s'.procs[q]) {
      if Own(s.procs[q]).Some? && Called(s', Own(s.procs[q]).value.leaseId) {
        var i :| 0 <= i < |s'.calls| && s'.calls[i].lease.leaseId == Own(s.procs[q]).value.leaseId;
        assert s.calls[i] == s'.calls[i];
      }
      PhaseSurvives(s, s', q, s'.procs[q]);
    }
  }

  lemma OthersOwnOtherLeases(s: State, p: nat, l: Lease)
    requires Inv(s) && p in s.procs && Own(s.procs[p]) == Some(l)
    ensures forall q :: q in s.procs && q != p && Own(s.procs[q]).Some? ==> Own(s.procs[q]).value.leaseId != l.leaseId
  {
    hide DbOk, RowsKept, CallsOk, RemoteFromCalls, StoredOk, PhaseOk;
  }

  lemma GrantedFacts(s: State, p: nat, w: Work, l: Lease)
    requires PhaseOk(s, p, Granted(w, l))
    ensures var s0 := Enter(s, p, Stopped);
      Minted(s0, w, l) && RowIs(s0, l) && !Called(s0, l.leaseId) && Audited(s0, l)
  {
    LaterFacts(s, Enter(s, p, Stopped));
  }

  lemma CallerAwaits(s: State, p: nat, w: Work, l: Lease)
    requires GatewayCall(w, l) in s.calls
    ensures PhaseOk(s, p, Awaiting(w, l))
  {}

  lemma GrantedKeepsInv(s: State, p: nat, c: Choice)
    requires Inv(s) && p in s.procs && s.procs[p].Granted?
    ensures Inv(Progress(s, p, c))
  {
    hide Inv, WorksOk, DbOk, RowsKept, CallsOk, RemoteFromCalls, StoredOk, PhaseOk, Minted, RowIs, Called, Audited;
    var w, l := s.procs[p].work, s.procs[p].lease;
    Parts(s, p);
    GrantedFacts(s, p, w, l);
    OthersOwnOtherLeases(s, p, l);
    StopKeepsInv(s, p);
    var s0 := Enter(s, p, Stopped);
    CallKeepsInv(s0, w, l);
    var s1 := s0.(calls := s0.calls + [GatewayCall(w, l)]);
    CallerAwaits(s1, p, w, l);
    EnterKeepsInv(s1, p, Awaiting(w, l));
    assert Enter(s1, p, Awaiting(w, l)).procs == s.procs[p := Awaiting(w, l)];
  }

  // What a process knows about the call it made.
  lemma CallFacts(s: State, w: Work, l: Lease)
    requires CallsOk(s) && CalledWith(s, w, l)
    ensures Minted(s, w, l) && RowHeld(s, l) && Originated(s, l) && Called(s, l.leaseId) && CalledFor(s, l.executionId)
    ensures l.runId == w.request.runId && l.key == w.request.key && l.executionId == w.request.executionId && l.workerId == w.request.workerId
  {
    var i :| 0 <= i < |s.calls| && s.calls[i] == GatewayCall(w, l);
    assert s.calls[i].work.request.executionId == l.executionId;
  }

  // A reply to this worker's request is what the remote store has committed for its execution id.
  lemma ReplyIsCommitted(s: State, w: Work, l: Lease, r: ExecutionResult)
    requires CallsOk(s) && RemoteFromCalls(s) && CalledWith(s, w, l) && Answered(Sent(w), r) in s.remote.replies
    ensures var filled := Filled(r, w.request.runId, w.request.workerId);
      Genuine(s, l.runId, filled) && filled.executionId == l.executionId
  {
    CallFacts(s, w, l);
    assert SameIdentity(s.remote.rows[w.request.executionId].request, Sent(w));
  }

  lemma AwaitingLocally(s: State, p: nat, w: Work, l: Lease, status: ExecutionStatus, output: string)
    requires CallsOk(s) && PhaseOk(s, p, Awaiting(w, l)) && status != Success
    ensures PhaseOk(s, p, Persisting(w, l,
      ExecutionResult(w.request.executionId, status, output, "colab", Some(w.request.runId), Some(w.request.workerId))))
  {
    CallFacts(s, w, l);
  }

  lemma AwaitingRemotely(s: State, p: nat, w: Work, l: Lease, r: ExecutionResult)
    requires CallsOk(s) && RemoteFromCalls(s) && PhaseOk(s, p, Awaiting(w, l)) && Answered(Sent(w), r) in s.remote.replies
    ensures PhaseOk(s, p, Persisting(w, l, Filled(r, w.request.runId, w.request.workerId)))
  {
    ReplyIsCommitted(s, w, l, r);
  }

  lemma AwaitingKeepsInv(s: State, p: nat, c: Choice)
    requires Inv(s) && p in s.procs && s.procs[p].Awaiting?
    ensures Inv(Progress(s, p, c))
  {
    hide Inv, WorksOk, DbOk, RowsKept, CallsOk, RemoteFromCalls, StoredOk, PhaseOk, Filled, Admissible;
    var w, l := s.procs[p].work, s.procs[p].lease;
    Parts(s, p);
    match c.outcome {
      case GatewayError => StopKeepsInv(s, p);
      case Local(status, output) =>
        if status != Success {
          AwaitingLocally(s, p, w, l, status, output);
          MoveKeepsInv(s, p, Persisting(w, l,
            ExecutionResult(w.request.executionId, status, output, "colab", Some(w.request.runId), Some(w.request.workerId))));
        }
      case Remotely(r) =>
        if Answered(Sent(w), r) in s.remote.replies {
          if !Admissible(r, w.request.executionId, w.request.runId, w.request.workerId) { StopKeepsInv(s, p); }
          else {
            AwaitingRemotely(s, p, w, l, r);
            MoveKeepsInv(s, p, Persisting(w, l, Filled(r, w.request.runId, w.request.workerId)));
          }
        }
    }
  }

  // ----- Persisting the result and completing the lease -----

  lemma PersistingMoves(s: State, p: nat, w: Work, l: Lease, r: ExecutionResult)
    requires PhaseOk(s, p, Persisting(w, l, r))
    ensures Genuine(s, l.runId, r)
    ensures ClientIs(s, p, l.runId, AddResult(r)) ==> PhaseOk(s, p, ResultSaving(w, l, r))
  {}

  lemma PersistingKeepsInv(s: State, p: nat, c: Choice)
    requires Inv(s) && p in s.procs && s.procs[p].Persisting?
    ensures Inv(Progress(s, p, c))
  {
    hide Inv, WorksOk, DbOk, RowsKept, CallsOk, RemoteFromCalls, StoredOk, PhaseOk, Reading, Genuine;
    var w, l, r := s.procs[p].work, s.procs[p].lease, s.procs[p].result;
    Parts(s, p);
    PersistingMoves(s, p, w, l, r);
    if c.fault != Never || l.runId !in s.db.store { StopKeepsInv(s, p); }
    else {
      ReadKeepsInv(s, p, l.runId, AddResult(r));
      PersistingMoves(Reading(s, p, l.runId, AddResult(r)), p, w, l, r);
      MoveKeepsInv(Reading(s, p, l.runId, AddResult(r)), p, ResultSaving(w, l, r));
    }
  }

  lemma ResultSavingMoves(s: State, p: nat, w: Work, l: Lease, r: ExecutionResult)
    requires PhaseOk(s, p, ResultSaving(w, l, r))
    ensures ClientIs(s, p, l.runId, AddResult(r)) && r.runId == Some(l.runId)
    ensures HoldsResult(s, l.runId, r) ==> PhaseOk(s, p, Selecting(w, l, r))
  {}

  lemma SavedResultIsThere(s: State, p: nat, runId: string, r: ExecutionResult)
    requires DbOk(s) && p in s.db.clients && ClientIs(s, p, runId, AddResult(r)) && r.runId.Some? && WriteError(s.db, p) == None
    ensures HoldsResult(Writing(s, p), runId, r)
  {
    hide Apply, Save, Serialized;
    ReturnedResultIsStored(s.db, p);
  }

  lemma ResultSavingKeepsInv(s: State, p: nat, c: Choice)
    requires Inv(s) && p in s.procs && s.procs[p].ResultSaving?
    ensures Inv(Progress(s, p, c))
  {
    hide Inv, WorksOk, DbOk, RowsKept, CallsOk, RemoteFromCalls, StoredOk, PhaseOk, Writing, WriteError, Later, HoldsResult;
    var w, l, r := s.procs[p].work, s.procs[p].lease, s.procs[p].result;
    Parts(s, p);
    ResultSavingMoves(s, p, w, l, r);
    if p !in s.db.clients || c.fault == Before { StopKeepsInv(s, p); }
    else {
      WriteKeepsInv(s, p);
      if WriteError(s.db, p) == None && c.fault == Never {
        SavedResultIsThere(s, p, l.runId, r);
        ResultSavingMoves(Writing(s, p), p, w, l, r);
        MoveKeepsInv(Writing(s, p), p, Selecting(w, l, r));
      } else { StopKeepsInv(Writing(s, p), p); }
    }
  }

  // The row that SELECT or UPDATE finds by lease id is the caller's own.
  lemma OwnRowIsFound(s: State, l: Lease)
    requires RowsKept(s) && RowHeld(s, l)
    ensures RowOf(s.table, l.runId, l.leaseId) == Some(s.table[SlotOf(l)])
    ensures RowIs(s, s.table[SlotOf(l)]) && s.table[SlotOf(l)].executionId == l.executionId && s.table[SlotOf(l)].leaseId == l.leaseId
    ensures s.table[SlotOf(l)].runId == l.runId && s.table[SlotOf(l)].key == l.key
  {
    RowIsUnique(s.table, SlotOf(l));
  }

  // A worker whose evidence is stored may finish, recheck, note or return.
  lemma EvidencedMoves(s: State, p: nat, w: Work, l: Lease, r: ExecutionResult, done: Lease)
    requires CallsOk(s) && CalledWith(s, w, l) && ExecutionInvariant.Done(s, l, r)
    ensures PhaseOk(s, p, Updating(w, l, r)) && PhaseOk(s, p, Rechecking(w, l, r)) && PhaseOk(s, p, Returned(w, l, r))
    ensures PhaseOk(s, p, Noting(w, l, done, r))
    ensures ClientIs(s, p, l.runId, AddMessage(Audit(done))) ==> PhaseOk(s, p, NoteSaving(w, l, done, r))
    ensures RowHeld(s, l)
  {
    CallFacts(s, w, l);
  }

  lemma EvidencedFacts(s: State, p: nat, ph: Phase)
    requires PhaseOk(s, p, ph) && (ph.Selecting? || ph.Updating? || ph.Rechecking? || ph.Noting? || ph.NoteSaving?)
    ensures CalledWith(s, ph.work, ph.lease) && ExecutionInvariant.Done(s, ph.lease, ph.result)
  {}

  lemma SelectingKeepsInv(s: State, p: nat, c: Choice)
    requires Inv(s) && p in s.procs && s.procs[p].Selecting?
    ensures Inv(Progress(s, p, c))
  {
    hide Inv, WorksOk, DbOk, RowsKept, CallsOk, RemoteFromCalls, StoredOk, PhaseOk, ExecutionInvariant.Done, CalledWith;
    var w, l, r := s.procs[p].work, s.procs[p].lease, s.procs[p].result;
    Parts(s, p);
    EvidencedFacts(s, p, s.procs[p]);
    EvidencedMoves(s, p, w, l, r, l);
    if c.fault != Never { StopKeepsInv(s, p); }
    else {
      OwnRowIsFound(s, l);
      MoveKeepsInv(s, p, if s.table[SlotOf(l)].status == LeaseStatus.Done then Returned(w, l, r) else Updating(w, l, r));
    }
  }

  lemma EvidenceOutlivesCompletion(s: State, w: Work, l: Lease, r: ExecutionResult, row: Lease, now: string)
    requires CalledWith(s, w, l) && ExecutionInvariant.Done(s, l, r)
    ensures var s1 := s.(table := s.table[SlotOf(row) := Leases.Finished(row, now)]);
      CalledWith(s1, w, l) && ExecutionInvariant.Done(s1, l, r)
  {}

  lemma UpdatingKeepsInv(s: State, p: nat, c: Choice)
    requires Inv(s) && p in s.procs && s.procs[p].Updating?
    ensures Inv(Progress(s, p, c))
  {
    hide Inv, WorksOk, DbOk, RowsKept, CallsOk, RemoteFromCalls, StoredOk, PhaseOk, ExecutionInvariant.Done, CalledWith;
    var w, l, r := s.procs[p].work, s.procs[p].lease, s.procs[p].result;
    Parts(s, p);
    EvidencedFacts(s, p, s.procs[p]);
    EvidencedMoves(s, p, w, l, r, l);
    if c.fault == Before { StopKeepsInv(s, p); }
    else {
      OwnRowIsFound(s, l);
      var row := s.table[SlotOf(l)];
      if row.status == Running {
        var done := Leases.Finished(row, c.now);
        var s1 := s.(table := s.table[SlotOf(row) := done]);
        FinishKeepsInv(s, p, row, c.now);
        EvidenceOutlivesCompletion(s, w, l, r, row, c.now);
        Parts(s1, p);
        EvidencedMoves(s1, p, w, l, r, done);
        StopIsOk(s1, p);
        MoveKeepsInv(s1, p, if c.fault == Never then Noting(w, l, done, r) else Stopped);
      } else {
        MoveKeepsInv(s, p, Rechecking(w, l, r));
      }
    }
  }

  lemma RecheckingKeepsInv(s: State, p: nat, c: Choice)
    requires Inv(s) && p in s.procs && s.procs[p].Rechecking?
    ensures Inv(Progress(s, p, c))
  {
    hide Inv, WorksOk, DbOk, RowsKept, CallsOk, RemoteFromCalls, StoredOk, PhaseOk, ExecutionInvariant.Done, CalledWith;
    var w, l, r := s.procs[p].work, s.procs[p].lease, s.procs[p].result;
    Parts(s, p);
    EvidencedFacts(s, p, s.procs[p]);
    EvidencedMoves(s, p, w, l, r, l);
    OwnRowIsFound(s, l);
    StopIsOk(s, p);
    MoveKeepsInv(s, p, if c.fault == Never && s.table[SlotOf(l)].status == LeaseStatus.Done then Returned(w, l, r) else Stopped);
  }

  lemma NotingKeepsInv(s: State, p: nat, c: Choice)
    requires Inv(s) && p in s.procs && s.procs[p].Noting?
    ensures Inv(Progress(s, p, c))
  {
    hide Inv, WorksOk, DbOk, RowsKept, CallsOk, RemoteFromCalls, StoredOk, PhaseOk, ExecutionInvariant.Done, CalledWith, Reading;
    var w, l, done, r := s.procs[p].work, s.procs[p].lease, s.procs[p].done, s.procs[p].result;
    if c.fault != Never || l.runId !in s.db.store { StopKeepsInv(s, p); }
    else {
      ReadKeepsInv(s, p, l.runId, AddMessage(Audit(done)));
      var s1 := Reading(s, p, l.runId, AddMessage(Audit(done)));
      Parts(s1, p);
      EvidencedFacts(s1, p, s1.procs[p]);
      EvidencedMoves(s1, p, w, l, r, done);
      MoveKeepsInv(s1, p, NoteSaving(w, l, done, r));
    }
  }

  lemma NoteSavingKeepsInv(s: State, p: nat, c: Choice)
    requires Inv(s) && p in s.procs && s.procs[p].NoteSaving?
    ensures Inv(Progress(s, p, c))
  {
    hide Inv, WorksOk, DbOk, RowsKept, CallsOk, RemoteFromCalls, StoredOk, PhaseOk, ExecutionInvariant.Done, CalledWith, Writing, WriteError, Later;
    var w, l, r := s.procs[p].work, s.procs[p].lease, s.procs[p].result;
    if p !in s.db.clients || c.fault == Before { StopKeepsInv(s, p); }
    else {
      WriteKeepsInv(s, p);
      var s1 := Writing(s, p);
      Parts(s1, p);
      EvidencedFacts(s1, p, s1.procs[p]);
      EvidencedMoves(s1, p, w, l, r, l);
      StopIsOk(s1, p);
      MoveKeepsInv(s1, p, if WriteError(s.db, p) == None && c.fault == Never then Returned(w, l, r) else Stopped);
    }
  }

  // The replay branch always finds the evidence of the completed lease.
  lemma ReplayFindsEvidence(s: State, p: nat, w: Work, prior: Lease)
    requires RowsKept(s) && PhaseOk(s, p, Replaying(w, prior))
    ensures prior.runId == w.request.runId && prior.runId in s.db.store
    ensures FindResult(s.db.store[prior.runId].results, prior.executionId).Some?
    ensures PhaseOk(s, p, Returned(w, prior, FindResult(s.db.store[prior.runId].results, prior.executionId).value))
  {
    assert RowOk(s, s.table[SlotOf(prior)]);
  }

  lemma ReplayingKeepsInv(s: State, p: nat, c: Choice)
    requires Inv(s) && p in s.procs && s.procs[p].Replaying?
    ensures Inv(Progress(s, p, c))
  {
    hide Inv, WorksOk, DbOk, RowsKept, CallsOk, RemoteFromCalls, StoredOk, PhaseOk;
    var w, prior := s.procs[p].work, s.procs[p].prior;
    Parts(s, p);
    if c.fault != Never || w.request.runId !in s.db.store { StopKeepsInv(s, p); }
    else {
      ReplayFindsEvidence(s, p, w, prior);
      MoveKeepsInv(s, p, Returned(w, prior, FindResult(s.db.store[prior.runId].results, prior.executionId).value));
    }
  }

  // ----- Reconciling -----

  lemma {:induction false} FoundLastIsThere(results: seq<ExecutionResult>, executionId: string)
    ensures match FindLastResult(results, executionId)
      case Some(r) => r in results && r.executionId == executionId
      case None => forall x :: x in results ==> x.executionId != executionId
  {
    if results != [] { FoundLastIsThere(results[..|results| - 1], executionId); }
  }

  lemma ResultIsGenuine(s: State, runId: string, r: ExecutionResult)
    requires DbOk(s) && HoldsResult(s, runId, r)
    ensures Genuine(s, runId, r)
  {}

  lemma SnapshotIsOk(s: State, p: nat, runId: string, key: string)
    requires DbOk(s) && runId in s.db.store
    ensures PhaseOk(s, p, Inspecting(runId, key, s.db.store[runId]))
  {}

  lemma LookingKeepsInv(s: State, p: nat, c: Choice)
    requires Inv(s) && p in s.procs && s.procs[p].Looking?
    ensures Inv(Progress(s, p, c))
  {
    hide Inv, WorksOk, DbOk, RowsKept, CallsOk, RemoteFromCalls, StoredOk, PhaseOk;
    var runId, key := s.procs[p].runId, s.procs[p].key;
    Parts(s, p);
    if c.fault != Never || runId !in s.db.store { StopKeepsInv(s, p); }
    else {
      SnapshotIsOk(s, p, runId, key);
      MoveKeepsInv(s, p, Inspecting(runId, key, s.db.store[runId]));
    }
  }

  lemma InspectionIsOk(s: State, p: nat, runId: string, key: string, copy: SessionRecord)
    requires DbOk(s) && RowsKept(s) && PhaseOk(s, p, Inspecting(runId, key, copy))
    ensures match Inspect(copy, Lookup(s.table, runId, key))
      case Concludes(conclusion) => PhaseOk(s, p, Concluded(runId, key, conclusion))
      case MustAsk(l) => PhaseOk(s, p, Asking(runId, key, l))
      case CrossEvidence => true
  {
    hide DbOk, RowsKept, Serialized, FindLastResult, FindResult;
    if Slot(runId, key) in s.table {
      RowAtItsSlot(s, Slot(runId, key));
      var row := s.table[Slot(runId, key)];
      FoundLastIsThere(copy.results, row.executionId);
      var r := FindLastResult(copy.results, row.executionId);
      if r.Some? { ResultIsGenuine(s, runId, r.value); }
    }
  }

  lemma InspectingKeepsInv(s: State, p: nat, c: Choice)
    requires Inv(s) && p in s.procs && s.procs[p].Inspecting?
    ensures Inv(Progress(s, p, c))
  {
    hide Inv, WorksOk, DbOk, RowsKept, CallsOk, RemoteFromCalls, StoredOk, PhaseOk, Inspect, Lookup;
    var runId, key, copy := s.procs[p].runId, s.procs[p].key, s.procs[p].copy;
    Parts(s, p);
    InspectionIsOk(s, p, runId, key, copy);
    if c.fault != Never { StopKeepsInv(s, p); }
    else {
      match Inspect(copy, Lookup(s.table, runId, key)) {
        case Concludes(conclusion) => MoveKeepsInv(s, p, Concluded(runId, key, conclusion));
        case MustAsk(l) => MoveKeepsInv(s, p, Asking(runId, key, l));
        case CrossEvidence => StopKeepsInv(s, p);
      }
    }
  }

  // What the authority answers about a lease is committed evidence of a call made under it.
  lemma AuthorityWasSent(s: State, executionId: string)
    requires RemoteFromCalls(s) && executionId in s.remote.rows
    ensures exists i :: 0 <= i < |s.calls| && Sent(s.calls[i].work) == s.remote.rows[executionId].request
  {
    assert SentFor(s, s.remote.rows[executionId].request);
  }

  lemma AuthorityIsCommitted(s: State, runId: string, key: string, l: Lease, r: ExecutionResult)
    requires WorksOk(s) && CallsOk(s) && RemoteFromCalls(s) && Originated(s, l) && l.runId == runId && l.key == key
    requires LookUp(s.remote.rows, l.executionId, key) == Evidence(r) && Admissible(r, l.executionId, runId, l.workerId)
    ensures var filled := Filled(r, runId, l.workerId);
      Genuine(s, runId, filled) && Committed(s, filled) && filled.executionId == l.executionId
  {
    hide WorksOk, RowHeld, Audited, Called, SentFor;
    AuthorityWasSent(s, l.executionId);
    var i :| 0 <= i < |s.calls| && Sent(s.calls[i].work) == s.remote.rows[l.executionId].request;
    assert s.calls[i].work.request.executionId == l.executionId;
  }

  lemma AskingIsOk(s: State, p: nat, runId: string, key: string, l: Lease, r: ExecutionResult)
    requires WorksOk(s) && CallsOk(s) && RemoteFromCalls(s) && PhaseOk(s, p, Asking(runId, key, l))
    requires LookUp(s.remote.rows, l.executionId, key) == Evidence(r) && Admissible(r, l.executionId, runId, l.workerId)
    ensures PhaseOk(s, p, Storing(runId, key, l, Filled(r, runId, l.workerId)))
  {
    AuthorityIsCommitted(s, runId, key, l, r);
  }

  lemma NoResultIsOk(s: State, p: nat, runId: string, key: string)
    ensures PhaseOk(s, p, Concluded(runId, key, NoResult))
  {}

  lemma AskingKeepsInv(s: State, p: nat, c: Choice)
    requires Inv(s) && p in s.procs && s.procs[p].Asking?
    ensures Inv(Progress(s, p, c))
  {
    hide Inv, WorksOk, DbOk, RowsKept, CallsOk, RemoteFromCalls, StoredOk, PhaseOk, LookUp, Filled, Admissible;
    var runId, key, l := s.procs[p].runId, s.procs[p].key, s.procs[p].found;
    Parts(s, p);
    if c.fault != Never { StopKeepsInv(s, p); }
    else {
      match LookUp(s.remote.rows, l.executionId, key) {
        case Mismatch => StopKeepsInv(s, p);
        case Absent => NoResultIsOk(s, p, runId, key); MoveKeepsInv(s, p, Concluded(runId, key, NoResult));
        case Evidence(r) =>
          if Admissible(r, l.executionId, runId, l.workerId) {
            AskingIsOk(s, p, runId, key, l, r);
            MoveKeepsInv(s, p, Storing(runId, key, l, Filled(r, runId, l.workerId)));
          } else { StopKeepsInv(s, p); }
      }
    }
  }

  lemma StoringMoves(s: State, p: nat, runId: string, key: string, l: Lease, r: ExecutionResult)
    requires PhaseOk(s, p, Storing(runId, key, l, r))
    ensures Genuine(s, runId, r)
    ensures ClientIs(s, p, runId, AddResult(r)) ==> PhaseOk(s, p, EvidenceSaving(runId, key, l, r))
  {}

  lemma StoringKeepsInv(s: State, p: nat, c: Choice)
    requires Inv(s) && p in s.procs && s.procs[p].Storing?
    ensures Inv(Progress(s, p, c))
  {
    hide Inv, WorksOk, DbOk, RowsKept, CallsOk, RemoteFromCalls, StoredOk, PhaseOk, Reading, Genuine;
    var runId, key, l, r := s.procs[p].runId, s.procs[p].key, s.procs[p].found, s.procs[p].result;
    Parts(s, p);
    StoringMoves(s, p, runId, key, l, r);
    if c.fault != Never || runId !in s.db.store { StopKeepsInv(s, p); }
    else {
      ReadKeepsInv(s, p, runId, AddResult(r));
      StoringMoves(Reading(s, p, runId, AddResult(r)), p, runId, key, l, r);
      MoveKeepsInv(Reading(s, p, runId, AddResult(r)), p, EvidenceSaving(runId, key, l, r));
    }
  }

  lemma StoredSurvives(s: State, s': State, e: Stored)
    requires StoredOk(s, e) && Later(s, s')
    ensures StoredOk(s', e)
  {
    LaterFacts(s, s');
  }

  lemma StoreKeepsInv(s: State, e: Stored)
    requires Inv(s) && StoredOk(s, e)
    ensures Inv(s.(stored := s.stored + [e]))
  {
    hide DbOk, RowsKept, CallsOk, RemoteFromCalls, PhaseOk, StoredOk;
    var s' := s.(stored := s.stored + [e]);
    LaterKeepsDb(s, s');
    LaterKeepsRows(s, s');
    LaterKeepsCalls(s, s');
    LaterKeepsRemote(s, s');
    forall x | x in s'.stored ensures StoredOk(s', x) { StoredSurvives(s, s', x); }
    forall q | q in s'.procs ensures PhaseOk(s', q, s'.procs[q]) { PhaseSurvives(s, s', q, s'.procs[q]); }
  }

  lemma EvidenceSavingMoves(s: State, p: nat, runId: string, key: string, l: Lease, r: ExecutionResult)
    requires PhaseOk(s, p, EvidenceSaving(runId, key, l, r))
    ensures ClientIs(s, p, runId, AddResult(r)) && r.runId == Some(runId)
    ensures HoldsResult(s, runId, r) ==> StoredOk(s, Stored(runId, key, l, r)) && PhaseOk(s, p, Concluded(runId, key, Conclusion.Terminal(r)))
  {}

  lemma ConcludedSurvives(s: State, p: nat, ph: Phase, e: Stored)
    requires PhaseOk(s, p, ph) && ph.Concluded?
    ensures PhaseOk(s.(stored := s.stored + [e]), p, ph)
  {
    PhaseSurvives(s, s.(stored := s.stored + [e]), p, ph);
  }

  lemma EvidenceSavingKeepsInv(s: State, p: nat, c: Choice)
    requires Inv(s) && p in s.procs && s.procs[p].EvidenceSaving?
    ensures Inv(Progress(s, p, c))
  {
    hide Inv, WorksOk, DbOk, RowsKept, CallsOk, RemoteFromCalls, StoredOk, PhaseOk, Writing, WriteError, Later, HoldsResult;
    var runId, key, l, r := s.procs[p].runId, s.procs[p].key, s.procs[p].found, s.procs[p].result;
    Parts(s, p);
    EvidenceSavingMoves(s, p, runId, key, l, r);
    if p !in s.db.clients || c.fault == Before { StopKeepsInv(s, p); }
    else {
      WriteKeepsInv(s, p);
      var s1 := Writing(s, p);
      if WriteError(s.db, p) != None { StopKeepsInv(s1, p); }
      else {
        SavedResultIsThere(s, p, runId, r);
        EvidenceSavingMoves(s1, p, runId, key, l, r);
        var e := Stored(runId, key, l, r);
        StoreKeepsInv(s1, e);
        var s2 := s1.(stored := s1.stored + [e]);
        assert s1.stored == s.stored by { WritingKeepsStored(s, p); }
        ConcludedSurvives(s1, p, Concluded(runId, key, Conclusion.Terminal(r)), e);
        StopIsOk(s2, p);
        MoveKeepsInv(s2, p, if c.fault == Never then Concluded(runId, key, Conclusion.Terminal(r)) else Stopped);
      }
    }
  }

  lemma WritingKeepsStored(s: State, p: nat)
    ensures Writing(s, p).stored == s.stored
  {}
}
