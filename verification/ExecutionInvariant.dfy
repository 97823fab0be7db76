/** What every step of the execution protocol keeps. */
module ExecutionInvariant {
  import opened Wrappers
  import opened Contracts
  import opened SessionStore
  import opened Leases
  import opened RemoteStore
  import opened Execution

  // ----- Facts that later states cannot take back -----

  ghost predicate Known(s: State, w: Work) {
    w.request.executionId in s.works && s.works[w.request.executionId] == w
  }

  // The lease was minted for this unit of work.
  ghost predicate Minted(s: State, w: Work, l: Lease) {
    Known(s, w) && !HasBlankField(w.request) && l.leaseId in s.issued && l == NewLease(w.request, l.leaseId, l.timestamp)
  }

  ghost predicate CalledWith(s: State, w: Work, l: Lease) { GatewayCall(w, l) in s.calls }

  ghost predicate SentFor(s: State, q: RemoteRequest) {
    exists i :: 0 <= i < |s.calls| && Sent(s.calls[i].work) == q
  }

  ghost predicate CalledFor(s: State, executionId: string) {
    exists i :: 0 <= i < |s.calls| && s.calls[i].work.request.executionId == executionId
  }

  ghost predicate Audited(s: State, l: Lease) {
    l.runId in s.db.store && Audit(l) in s.db.store[l.runId].messages
  }

  ghost predicate HoldsResult(s: State, runId: string, r: ExecutionResult) {
    runId in s.db.store && r in s.db.store[runId].results
  }

  // The remote store has committed this very result, up to the run and worker it was filled with.
  ghost predicate Committed(s: State, r: ExecutionResult) {
    && r.executionId in s.remote.rows && r.executionId in s.works
    && s.remote.rows[r.executionId].result.Some?
    && r == Filled(s.remote.rows[r.executionId].result.value, s.works[r.executionId].request.runId, s.works[r.executionId].request.workerId)
  }

  // Evidence belongs to a call that was made in this run, and a success was committed remotely.
  ghost predicate Genuine(s: State, runId: string, r: ExecutionResult) {
    && r.executionId in s.works && s.works[r.executionId].request.runId == runId
    && r.runId == Some(runId) && r.workerId == Some(s.works[r.executionId].request.workerId)
    && CalledFor(s, r.executionId)
    && (r.status == Success ==> Committed(s, r))
  }

  // The identity of a lease is that of the work its execution id was given to.
  ghost predicate Originated(s: State, l: Lease) {
    && l.executionId in s.works
    && var q := s.works[l.executionId].request;
       l.runId == q.runId && l.workerId == q.workerId && l.taskId == q.taskId && l.key == q.key
  }

  ghost predicate Later(s: State, s': State) {
    && (forall e :: e in s.works ==> e in s'.works && s'.works[e] == s.works[e])
    && s.issued <= s'.issued
    && s.calls <= s'.calls
    && Grows(s.remote, s'.remote)
    && (forall r :: r in s.db.store ==>
          && r in s'.db.store
          && s.db.store[r].messages <= s'.db.store[r].messages
          && s.db.store[r].results <= s'.db.store[r].results)
  }

  // ----- Facts that only the owner of a lease changes -----

  function SlotOf(l: Lease): Slot { Slot(l.runId, l.key) }

  ghost predicate RowIs(s: State, l: Lease) { SlotOf(l) in s.table && s.table[SlotOf(l)] == l }

  ghost predicate RowHeld(s: State, l: Lease) {
    SlotOf(l) in s.table && s.table[SlotOf(l)].leaseId == l.leaseId && s.table[SlotOf(l)].executionId == l.executionId
  }

  ghost predicate Called(s: State, leaseId: string) {
    exists i :: 0 <= i < |s.calls| && s.calls[i].lease.leaseId == leaseId
  }

  // The lease that a worker inserted and still works under.
  function Own(ph: Phase): Option<Lease> {
    match ph
    case Auditing(_, l) => Some(l)
    case AuditSaving(_, l) => Some(l)
    case Undoing(_, l) => Some(l)
    case Granted(_, l) => Some(l)
    case Awaiting(_, l) => Some(l)
    case Persisting(_, l, _) => Some(l)
    case ResultSaving(_, l, _) => Some(l)
    case Selecting(_, l, _) => Some(l)
    case Updating(_, l, _) => Some(l)
    case Rechecking(_, l, _) => Some(l)
    case Noting(_, l, _, _) => Some(l)
    case NoteSaving(_, l, _, _) => Some(l)
    case _ => None
  }

  predicate NeedsRow(ph: Phase) { ph.Auditing? || ph.AuditSaving? || ph.Granted? }

  predicate Saving(ph: Phase) { ph.AuditSaving? || ph.ResultSaving? || ph.NoteSaving? || ph.EvidenceSaving? }

  ghost predicate ClientIs(s: State, p: nat, runId: string, op: Op) {
    p in s.db.clients ==> s.db.clients[p].copy.runId == runId && s.db.clients[p].op == op
  }

  ghost predicate Done(s: State, l: Lease, r: ExecutionResult) {
    HoldsResult(s, l.runId, r) && r.executionId == l.executionId
  }

  ghost predicate PhaseOk(s: State, p: nat, ph: Phase) {
    match ph
    case Inserting(w) => Known(s, w)
    case Clashed(w) => Known(s, w)
    case Auditing(w, l) => Minted(s, w, l) && RowIs(s, l) && !Called(s, l.leaseId)
    case AuditSaving(w, l) =>
      Minted(s, w, l) && RowIs(s, l) && !Called(s, l.leaseId) && ClientIs(s, p, l.runId, AddMessage(Audit(l)))
    case Undoing(w, l) => Minted(s, w, l) && !Called(s, l.leaseId)
    case Granted(w, l) => Minted(s, w, l) && RowIs(s, l) && !Called(s, l.leaseId) && Audited(s, l)
    case Awaiting(w, l) => CalledWith(s, w, l)
    case Persisting(w, l, r) => CalledWith(s, w, l) && Genuine(s, l.runId, r) && r.executionId == l.executionId
    case ResultSaving(w, l, r) =>
      CalledWith(s, w, l) && Genuine(s, l.runId, r) && r.executionId == l.executionId && ClientIs(s, p, l.runId, AddResult(r))
    case Selecting(w, l, r) => CalledWith(s, w, l) && Done(s, l, r)
    case Updating(w, l, r) => CalledWith(s, w, l) && Done(s, l, r)
    case Rechecking(w, l, r) => CalledWith(s, w, l) && Done(s, l, r)
    case Noting(w, l, _, r) => CalledWith(s, w, l) && Done(s, l, r)
    case NoteSaving(w, l, done, r) => CalledWith(s, w, l) && Done(s, l, r) && ClientIs(s, p, l.runId, AddMessage(Audit(done)))
    case Replaying(w, prior) => RowIs(s, prior) && prior.status == LeaseStatus.Done && prior.runId == w.request.runId && prior.key == w.request.key
    case Returned(w, l, r) => Done(s, l, r) && l.runId == w.request.runId && l.key == w.request.key && Originated(s, l)
    case Orphaned(_, _) => false
    case Looking(_, _) => true
    case Inspecting(runId, _, copy) =>
      runId in s.db.store && copy.runId == runId && copy.results <= s.db.store[runId].results
    case Asking(runId, key, l) => l.runId == runId && l.key == key && Originated(s, l)
    case Storing(runId, key, l, r) =>
      l.runId == runId && l.key == key && Originated(s, l) && r.executionId == l.executionId && Genuine(s, runId, r) && Committed(s, r)
    case EvidenceSaving(runId, key, l, r) =>
      && l.runId == runId && l.key == key && Originated(s, l) && r.executionId == l.executionId && Genuine(s, runId, r) && Committed(s, r)
      && ClientIs(s, p, runId, AddResult(r))
    case Concluded(runId, key, conclusion) =>
      conclusion.Terminal? ==>
        HoldsResult(s, runId, conclusion.result) && Genuine(s, runId, conclusion.result) && s.works[conclusion.result.executionId].request.key == key
    case Stopped => true
  }

  // ----- The invariant -----

  ghost predicate DbOk(s: State) {
    && Serialized(s.db)
    && (forall r, x :: r in s.db.store && x in s.db.store[r].results ==> Genuine(s, r, x))
    && (forall c :: c in s.db.clients && s.db.clients[c].op.AddResult? ==>
          Genuine(s, s.db.clients[c].copy.runId, s.db.clients[c].op.result))
  }

  // A completed row always has its evidence, and only a called lease completes.
  ghost predicate RowOk(s: State, row: Lease) {
    && row.leaseId in s.issued && Originated(s, row)
    && (row.status == LeaseStatus.Done ==>
          Called(s, row.leaseId) && row.runId in s.db.store && FindResult(s.db.store[row.runId].results, row.executionId).Some?)
  }

  ghost predicate RowsKept(s: State) {
    TableOk(s.table) && forall k :: k in s.table ==> RowOk(s, s.table[k])
  }

  ghost predicate CallsOk(s: State) {
    && (forall c :: c in s.calls ==> Minted(s, c.work, c.lease) && RowHeld(s, c.lease) && Audited(s, c.lease))
    && (forall i, j :: 0 <= i < j < |s.calls| ==> s.calls[i].lease.leaseId != s.calls[j].lease.leaseId)
  }

  ghost predicate RemoteFromCalls(s: State) {
    && RemoteOk(s.remote)
    && (forall e :: e in s.remote.rows ==> SentFor(s, s.remote.rows[e].request))
    && (forall h :: h in s.remote.handlers ==> SentFor(s, s.remote.handlers[h].request))
  }

  ghost predicate OwnersDiffer(s: State) {
    forall p, q :: p in s.procs && q in s.procs && p != q && Own(s.procs[p]).Some? && Own(s.procs[q]).Some? ==>
      Own(s.procs[p]).value.leaseId != Own(s.procs[q]).value.leaseId
  }

  ghost predicate StoredOk(s: State, e: Stored) {
    && HoldsResult(s, e.runId, e.result) && Committed(s, e.result)
    && e.found.executionId == e.result.executionId && Originated(s, e.found)
    && e.found.runId == e.runId && e.found.key == e.key
  }

  ghost predicate WorksOk(s: State) {
    forall e :: e in s.works ==> s.works[e].request.executionId == e
  }

  ghost predicate Inv(s: State) {
    && WorksOk(s) && DbOk(s) && RowsKept(s) && CallsOk(s) && RemoteFromCalls(s) && OwnersDiffer(s)
    && (forall p :: p in s.procs ==> PhaseOk(s, p, s.procs[p]))
    && (forall e :: e in s.stored ==> StoredOk(s, e))
  }

  // ----- Monotonicity -----

  lemma LaterFacts(s: State, s': State)
    requires Later(s, s')
    ensures forall w :: Known(s, w) ==> Known(s', w)
    ensures forall w, l :: Minted(s, w, l) ==> Minted(s', w, l)
    ensures forall w, l :: CalledWith(s, w, l) ==> CalledWith(s', w, l)
    ensures forall q :: SentFor(s, q) ==> SentFor(s', q)
    ensures forall e :: CalledFor(s, e) ==> CalledFor(s', e)
    ensures forall id :: Called(s, id) ==> Called(s', id)
    ensures forall l :: Audited(s, l) ==> Audited(s', l)
    ensures forall r, x :: HoldsResult(s, r, x) ==> HoldsResult(s', r, x)
    ensures forall r :: Committed(s, r) ==> Committed(s', r)
    ensures forall l :: Originated(s, l) ==> Originated(s', l)
  {
    forall e | CalledFor(s, e) ensures CalledFor(s', e) {
      var i :| 0 <= i < |s.calls| && s.calls[i].work.request.executionId == e;
      assert s'.calls[i] == s.calls[i];
    }
    forall q | SentFor(s, q) ensures SentFor(s', q) {
      var i :| 0 <= i < |s.calls| && Sent(s.calls[i].work) == q;
      assert s'.calls[i] == s.calls[i];
    }
    forall id | Called(s, id) ensures Called(s', id) {
      var i :| 0 <= i < |s.calls| && s.calls[i].lease.leaseId == id;
      assert s'.calls[i] == s.calls[i];
    }
  }

  lemma LaterGenuine(s: State, s': State)
    requires Later(s, s')
    ensures forall r, x :: Genuine(s, r, x) ==> Genuine(s', r, x)
  {
    LaterFacts(s, s');
  }

  lemma {:induction false} FoundStaysFound(a: seq<ExecutionResult>, b: seq<ExecutionResult>, id: string)
    requires a <= b && FindResult(a, id).Some?
    ensures FindResult(b, id) == FindResult(a, id)
  {
    if a[0].executionId != id { FoundStaysFound(a[1..], b[1..], id); }
  }

  // A process's own facts survive every step that leaves its lease, its client and completed rows alone.
  lemma PhaseSurvives(s: State, s': State, p: nat, ph: Phase)
    requires PhaseOk(s, p, ph) && Later(s, s')
    requires NeedsRow(ph) ==> (RowIs(s, ph.lease) ==> RowIs(s', ph.lease))
    requires Own(ph).Some? ==> (Called(s', Own(ph).value.leaseId) ==> Called(s, Own(ph).value.leaseId))
    requires ph.Replaying? ==> (RowIs(s, ph.prior) ==> RowIs(s', ph.prior))
    requires Saving(ph) && p in s'.db.clients ==> p in s.db.clients && s'.db.clients[p] == s.db.clients[p]
    ensures PhaseOk(s', p, ph)
  {
    LaterFacts(s, s');
    LaterGenuine(s, s');
  }

  // ----- One lemma per kind of change -----

  lemma LaterKeepsDb(s: State, s': State)
    requires DbOk(s) && Later(s, s') && s'.db == s.db
    ensures DbOk(s')
  {
    LaterGenuine(s, s');
  }

  lemma LaterKeepsRows(s: State, s': State)
    requires RowsKept(s) && Later(s, s') && s'.table == s.table
    ensures RowsKept(s')
  {
    forall k | k in s'.table ensures RowOk(s', s'.table[k]) { RowSurvives(s, s', s.table[k]); }
  }

  lemma RowSurvives(s: State, s': State, row: Lease)
    requires RowOk(s, row) && Later(s, s')
    ensures RowOk(s', row)
  {
    LaterFacts(s, s');
    if row.status == LeaseStatus.Done {
      FoundStaysFound(s.db.store[row.runId].results, s'.db.store[row.runId].results, row.executionId);
    }
  }

  lemma LaterKeepsCalls(s: State, s': State)
    requires CallsOk(s) && Later(s, s') && s'.calls == s.calls
    requires forall c :: c in s.calls && RowHeld(s, c.lease) ==> RowHeld(s', c.lease)
    ensures CallsOk(s')
  {
    LaterFacts(s, s');
  }

  lemma LaterKeepsRemote(s: State, s': State)
    requires RemoteFromCalls(s) && Later(s, s') && s'.remote == s.remote
    ensures RemoteFromCalls(s')
  {
    LaterFacts(s, s');
  }

  lemma LaterKeepsStored(s: State, s': State)
    requires (forall e :: e in s.stored ==> StoredOk(s, e)) && Later(s, s') && s'.stored == s.stored
    ensures forall e :: e in s'.stored ==> StoredOk(s', e)
  {
    LaterFacts(s, s');
  }

  // A process moves on without touching anything shared.
  lemma EnterKeepsInv(s: State, p: nat, ph: Phase)
    requires Inv(s) && PhaseOk(s, p, ph)
    requires Own(ph).Some? ==>
      forall q :: q in s.procs && q != p && Own(s.procs[q]).Some? ==> Own(s.procs[q]).value.leaseId != Own(ph).value.leaseId
    ensures Inv(Enter(s, p, ph))
  {
    hide DbOk, RowsKept, CallsOk, RemoteFromCalls, StoredOk, PhaseOk, Own;
    var s' := Enter(s, p, ph);
    LaterKeepsDb(s, s');
    LaterKeepsRows(s, s');
    LaterKeepsCalls(s, s');
    LaterKeepsRemote(s, s');
    LaterKeepsStored(s, s');
    forall q | q in s'.procs ensures PhaseOk(s', q, s'.procs[q]) {
      PhaseSurvives(s, s', q, s'.procs[q]);
    }
  }

  // An operation that the protocol lets this client carry out.
  ghost predicate ActionOk(s: State, a: SessionStore.Action) {
    match a
    case Read(c, runId, op) =>
      && (op.AddResult? ==> Genuine(s, runId, op.result))
      && (c in s.procs ==> !Saving(s.procs[c]))
    case _ => true
  }

  lemma DbStepGrows(s: State, a: SessionStore.Action)
    requires Serialized(s.db)
    ensures Serialized(Step(s.db, a))
    ensures Later(s, s.(db := Step(s.db, a)))
  {
    hide Apply, Serialized, Save;
    StepKeepsSerialized(s.db, a);
    if a.Write? && a.client in s.db.clients {
      WriteIsAtomicOrRejected(s.db, a.client);
      var Client(copy, op) := s.db.clients[a.client];
      if Step(s.db, a).store != s.db.store { ApplyAppends(copy, op); }
    }
  }

  lemma WrittenResultIsGenuine(s: State, c: nat)
    requires DbOk(s) && c in s.db.clients
    ensures forall r, x :: r in Step(s.db, Write(c)).store && x in Step(s.db, Write(c)).store[r].results ==> Genuine(s, r, x)
  {
    hide Apply, Serialized, Save;
    WriteIsAtomicOrRejected(s.db, c);
    var db' := Step(s.db, Write(c));
    var Client(copy, op) := s.db.clients[c];
    if db'.store != s.db.store {
      ApplyAppends(copy, op);
      forall r, x | r in db'.store && x in db'.store[r].results ensures Genuine(s, r, x) {
        if !(r in s.db.store && x in s.db.store[r].results) { assert r == copy.runId && op.AddResult? && x == Bound(r, op.result); }
      }
    }
  }

  lemma DbStepKeepsDbOk(s: State, a: SessionStore.Action)
    requires DbOk(s) && ActionOk(s, a)
    ensures DbOk(s.(db := Step(s.db, a)))
  {
    hide Apply, Serialized, Genuine, Save;
    var s' := s.(db := Step(s.db, a));
    DbStepGrows(s, a);
    LaterGenuine(s, s');
    if a.Write? && a.client in s.db.clients { WrittenResultIsGenuine(s, a.client); }
    forall c | c in s'.db.clients && s'.db.clients[c].op.AddResult?
      ensures Genuine(s', s'.db.clients[c].copy.runId, s'.db.clients[c].op.result)
    {
      if a.Read? && a.client == c && a.runId in s.db.store { assert s.db.store[a.runId].runId == a.runId by { RunOfRecord(s.db, a.runId); } }
      else { ClientsOfOthers(s.db, a, c); }
    }
  }

  lemma RunOfRecord(db: System, runId: string)
    requires Serialized(db) && runId in db.store
    ensures db.store[runId].runId == runId
  {}

  lemma ClientsOfOthers(db: System, a: SessionStore.Action, c: nat)
    requires c in Step(db, a).clients && !(a.Read? && a.client == c && a.runId in db.store)
    ensures c in db.clients && Step(db, a).clients[c] == db.clients[c]
  {
    hide Apply, Save;
  }

  lemma DbKeepsInv(s: State, a: SessionStore.Action)
    requires Inv(s) && ActionOk(s, a)
    ensures Inv(s.(db := Step(s.db, a)))
  {
    hide RowsKept, CallsOk, RemoteFromCalls, StoredOk, PhaseOk, Own, Step, Serialized, Genuine, Later;
    var s' := s.(db := Step(s.db, a));
    DbStepGrows(s, a);
    DbStepKeepsDbOk(s, a);
    hide DbOk;
    LaterKeepsRows(s, s');
    LaterKeepsCalls(s, s');
    LaterKeepsRemote(s, s');
    LaterKeepsStored(s, s');
    forall q | q in s'.procs ensures PhaseOk(s', q, s'.procs[q]) {
      if Saving(s'.procs[q]) && q in s'.db.clients { ClientsOfOthers(s.db, a, q); }
      PhaseSurvives(s, s', q, s'.procs[q]);
    }
  }

  // INSERT of a fresh lease into a free slot.
  lemma InsertKeepsRows(s: State, l: Lease)
    requires RowsKept(s) && SlotOf(l) !in s.table && l.leaseId !in s.issued && Originated(s, l) && l.status == Running
    ensures RowsKept(s.(table := s.table[SlotOf(l) := l], issued := s.issued + {l.leaseId}))
  {
    var s' := s.(table := s.table[SlotOf(l) := l], issued := s.issued + {l.leaseId});
    NewTableIsOk(s, l);
    NewRowIsOk(s, s', l);
    hide RowOk, TableOk, Originated, Called, Later;
    forall k | k in s'.table ensures RowOk(s', s'.table[k]) {
      if k != SlotOf(l) { SurvivesInsert(s, s', s.table[k]); }
    }
  }

  lemma NewTableIsOk(s: State, l: Lease)
    requires RowsKept(s) && SlotOf(l) !in s.table && l.leaseId !in s.issued
    ensures TableOk(s.table[SlotOf(l) := l])
  {
    hide Originated, Called, FindResult;
    assert forall k :: k in s.table ==> RowOk(s, s.table[k]);
  }

  lemma NewRowIsOk(s: State, s': State, l: Lease)
    requires Originated(s, l) && l.status == Running && s'.works == s.works && l.leaseId in s'.issued
    ensures RowOk(s', l)
  {
    hide Called, FindResult;
  }

  lemma SurvivesInsert(s: State, s': State, row: Lease)
    requires RowOk(s, row)
    requires exists t, i :: s' == s.(table := t, issued := s.issued + {i})
    ensures RowOk(s', row)
  {
    hide FindResult;
  }

  lemma InsertKeepsInv(s: State, l: Lease)
    requires Inv(s) && SlotOf(l) !in s.table && l.leaseId !in s.issued && Originated(s, l) && l.status == Running
    ensures Inv(s.(table := s.table[SlotOf(l) := l], issued := s.issued + {l.leaseId}))
  {
    hide DbOk, RowsKept, CallsOk, RemoteFromCalls, StoredOk, PhaseOk, Own;
    var s' := s.(table := s.table[SlotOf(l) := l], issued := s.issued + {l.leaseId});
    LaterKeepsDb(s, s');
    InsertKeepsRows(s, l);
    LaterKeepsCalls(s, s');
    LaterKeepsRemote(s, s');
    LaterKeepsStored(s, s');
    forall q | q in s'.procs ensures PhaseOk(s', q, s'.procs[q]) { PhaseSurvives(s, s', q, s'.procs[q]); }
  }

  function Without(t: Table, leaseId: string): Table { map k | k in t && t[k].leaseId != leaseId :: t[k] }

  // A lease that has been called is nobody's to undo, and a completed one has been called.
  lemma UndoneIsUncalled(s: State, p: nat, c: GatewayCall)
    requires Inv(s) && p in s.procs && s.procs[p].Undoing? && c in s.calls
    ensures c.lease.leaseId != s.procs[p].lease.leaseId
  {
    assert PhaseOk(s, p, s.procs[p]);
    var i :| 0 <= i < |s.calls| && s.calls[i] == c;
  }

  lemma CompletedIsNotUndone(s: State, p: nat, row: Lease)
    requires Inv(s) && p in s.procs && s.procs[p].Undoing? && RowIs(s, row) && row.status == LeaseStatus.Done
    ensures row.leaseId != s.procs[p].lease.leaseId
  {
    assert PhaseOk(s, p, s.procs[p]);
    assert RowOk(s, s.table[SlotOf(row)]);
  }

  lemma ReplayedIsCompleted(s: State, q: nat, ph: Phase)
    requires PhaseOk(s, q, ph) && ph.Replaying?
    ensures RowIs(s, ph.prior) && ph.prior.status == LeaseStatus.Done
  {}

  lemma DeleteKeepsPhase(s: State, p: nat, q: nat)
    requires Inv(s) && p in s.procs && s.procs[p].Undoing? && q in s.procs
    ensures PhaseOk(s.(table := Without(s.table, s.procs[p].lease.leaseId)), q, s.procs[q])
  {
    hide DbOk, RowsKept, CallsOk, RemoteFromCalls, StoredOk, PhaseOk;
    var ph := s.procs[q];
    var s' := s.(table := Without(s.table, s.procs[p].lease.leaseId));
    if ph.Replaying? { ReplayedIsCompleted(s, q, ph); CompletedIsNotUndone(s, p, ph.prior); }
    PhaseSurvives(s, s', q, ph);
  }

  // DELETE of an uncalled lease by its owner, who is undoing it.
  lemma DeleteKeepsInv(s: State, p: nat)
    requires Inv(s) && p in s.procs && s.procs[p].Undoing?
    ensures Inv(s.(table := Without(s.table, s.procs[p].lease.leaseId)))
  {
    hide DbOk, CallsOk, RemoteFromCalls, StoredOk, RowOk, PhaseOk;
    var l := s.procs[p].lease;
    var s' := s.(table := Without(s.table, l.leaseId));
    forall q | q in s'.procs ensures PhaseOk(s', q, s'.procs[q]) { DeleteKeepsPhase(s, p, q); }
    LaterKeepsDb(s, s');
    forall k | k in s'.table ensures RowOk(s', s'.table[k]) { RowSurvives(s, s', s.table[k]); }
    forall c | c in s.calls && RowHeld(s, c.lease) ensures RowHeld(s', c.lease) { UndoneIsUncalled(s, p, c); }
    LaterKeepsCalls(s, s');
    LaterKeepsRemote(s, s');
    LaterKeepsStored(s, s');
  }

  // UPDATE of a called lease to COMPLETED by its owner, whose evidence is stored.
  lemma FinishKeepsRows(s: State, row: Lease, now: string)
    requires RowsKept(s) && RowIs(s, row) && Called(s, row.leaseId)
    requires row.runId in s.db.store && FindResult(s.db.store[row.runId].results, row.executionId).Some?
    ensures RowsKept(s.(table := s.table[SlotOf(row) := Leases.Finished(row, now)]))
  {
    hide Called, Originated, FindResult;
    var done := Leases.Finished(row, now);
    var s' := s.(table := s.table[SlotOf(row) := done]);
    LaterFacts(s, s');
    assert RowOk(s, row);
    assert RowOk(s', done) by { CompletedRowIsOk(s, s', row, now); }
    forall k | k in s'.table && k != SlotOf(row) ensures RowOk(s', s'.table[k]) {
      assert RowOk(s, s.table[k]);
      RowSurvives(s, s', s.table[k]);
    }
  }

  lemma CompletedRowIsOk(s: State, s': State, row: Lease, now: string)
    requires RowOk(s, row) && Called(s', row.leaseId) && s'.issued == s.issued && s'.works == s.works && s'.db == s.db
    requires row.runId in s.db.store && FindResult(s.db.store[row.runId].results, row.executionId).Some?
    ensures RowOk(s', Leases.Finished(row, now))
  {
    hide Called, FindResult;
  }

  // What lets the owner of `row` complete it.
  ghost predicate Finishes(s: State, p: nat, row: Lease) {
    && p in s.procs && s.procs[p].Updating? && RowIs(s, row) && row.status == Running
    && row.leaseId == s.procs[p].lease.leaseId && row.executionId == s.procs[p].lease.executionId && row.runId == s.procs[p].lease.runId
  }

  lemma FinishKeepsPhase(s: State, p: nat, row: Lease, now: string, q: nat)
    requires Inv(s) && Finishes(s, p, row) && q in s.procs
    ensures PhaseOk(s.(table := s.table[SlotOf(row) := Leases.Finished(row, now)]), q, s.procs[q])
  {
    hide DbOk, RowsKept, CallsOk, RemoteFromCalls, StoredOk, PhaseOk;
    var s' := s.(table := s.table[SlotOf(row) := Leases.Finished(row, now)]);
    if s.procs[q].Replaying? { ReplayedIsCompleted(s, q, s.procs[q]); }
    PhaseSurvives(s, s', q, s.procs[q]);
  }

  lemma StoredEvidenceIsFound(s: State, p: nat, ph: Phase)
    requires PhaseOk(s, p, ph) && ph.Updating?
    ensures Called(s, ph.lease.leaseId)
    ensures ph.lease.runId in s.db.store && FindResult(s.db.store[ph.lease.runId].results, ph.lease.executionId).Some?
  {
    var i :| 0 <= i < |s.calls| && s.calls[i] == GatewayCall(ph.work, ph.lease);
  }

  lemma FinisherHasEvidence(s: State, p: nat, row: Lease)
    requires Inv(s) && Finishes(s, p, row)
    ensures Called(s, row.leaseId)
    ensures row.runId in s.db.store && FindResult(s.db.store[row.runId].results, row.executionId).Some?
  {
    hide DbOk, RowsKept, CallsOk, RemoteFromCalls, StoredOk, PhaseOk, OwnersDiffer, Called;
    StoredEvidenceIsFound(s, p, s.procs[p]);
  }

  lemma FinishKeepsInv(s: State, p: nat, row: Lease, now: string)
    requires Inv(s) && Finishes(s, p, row)
    ensures Inv(s.(table := s.table[SlotOf(row) := Leases.Finished(row, now)]))
  {
    hide DbOk, RowsKept, CallsOk, RemoteFromCalls, StoredOk, PhaseOk;
    var s' := s.(table := s.table[SlotOf(row) := Leases.Finished(row, now)]);
    FinisherHasEvidence(s, p, row);
    FinishKeepsRows(s, row, now);
    forall q | q in s'.procs ensures PhaseOk(s', q, s'.procs[q]) { FinishKeepsPhase(s, p, row, now, q); }
    LaterKeepsDb(s, s');
    LaterKeepsCalls(s, s');
    LaterKeepsRemote(s, s');
    LaterKeepsStored(s, s');
  }
}
