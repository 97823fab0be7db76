/** What an undisturbed worker achieves, and that the protocol's steps on the lease table are the calls of the lease service. */
module ExecutionProgress {
  import opened Wrappers
  import opened Contracts
  import opened Text
  import opened SessionStore
  import opened Leases
  import opened LeaseLifecycle
  import opened RemoteStore
  import opened Execution
  import opened ExecutionInvariant
  import opened ExecutionSteps
  import opened ExecutionTheorems
  import opened ExecutionReplay

  // ----- One manager call that nobody interrupts -----

  lemma ReadThenWrite(s: State, p: nat, runId: string, op: Op)
    requires Serialized(s.db) && runId in s.db.store && Apply(s.db.store[runId], op).Commit?
    ensures var s1 := Reading(s, p, runId, op);
      && p in s1.db.clients && s1.db.clients[p] == Client(s.db.store[runId], op) && s1.db.store == s.db.store
      && WriteError(s1.db, p) == None
      && Writing(s1, p).db.store == s.db.store[runId := Apply(s.db.store[runId], op).record.(revision := s.db.store[runId].revision + 1)]
      && Serialized(Writing(s1, p).db)
  {
    hide Serialized, Apply;
    StepKeepsSerialized(s.db, Read(p, runId, op));
    StepKeepsSerialized(Step(s.db, Read(p, runId, op)), Write(p));
    RecordOfItsRun(s.db, runId);
    ApplyKeepsIdentity(s.db.store[runId], op);
  }

  lemma RecordOfItsRun(db: System, runId: string)
    requires Serialized(db) && runId in db.store
    ensures db.store[runId].runId == runId && runId in db.log
  {
  }

  // ----- The steps of a worker that nothing disturbs -----

  // The process in this phase, in a state like s but for its sessions, its table, its calls and its processes.
  ghost predicate At(s: State, p: nat, ph: Phase) { p in s.procs && s.procs[p] == ph && Serialized(s.db) }

  lemma Inserts(s: State, p: nat, w: Work, c: Choice)
    requires At(s, p, Inserting(w)) && c.fault == Never && !HasBlankField(w.request)
    requires Slot(w.request.runId, w.request.key) !in s.table && c.leaseId !in s.issued
    ensures var s' := Progress(s, p, c);
      s'.procs[p].Auditing? && s'.procs[p].work == w && Reserved(w.request, c.leaseId, c.now, s'.procs[p].lease)
      && At(s', p, s'.procs[p]) && s'.db == s.db && s'.calls == s.calls && s'.remote == s.remote
      && s'.table == s.table[Slot(w.request.runId, w.request.key) := s'.procs[p].lease]
  {
    hide Serialized, HasBlankField;
  }

  // The session of the run has these messages and results more.
  ghost predicate Appended(s: State, s': State, runId: string, messages: seq<Message>, results: seq<ExecutionResult>) {
    && runId in s.db.store && runId in s'.db.store
    && s'.db.store[runId].messages == s.db.store[runId].messages + messages
    && s'.db.store[runId].results == s.db.store[runId].results + results
  }

  // A process that reads for one manager call and saves it.
  ghost function Saves(s: State, p: nat, runId: string, op: Op, before: Phase, after: Phase): State {
    Enter(Writing(Enter(Reading(s, p, runId, op), p, before), p), p, after)
  }

  lemma SavesOnce(s: State, p: nat, runId: string, op: Op, before: Phase, after: Phase)
    requires Serialized(s.db) && runId in s.db.store && Apply(s.db.store[runId], op).Commit?
    ensures var t := Enter(Reading(s, p, runId, op), p, before);
      var s' := Saves(s, p, runId, op, before, after);
      && p in t.db.clients && WriteError(t.db, p) == None && t.db.clients[p] == Client(s.db.store[runId], op)
      && At(s', p, after) && s'.table == s.table && s'.calls == s.calls && s'.issued == s.issued && s'.works == s.works && s'.remote == s.remote
      && (forall q :: q != p ==> (q in s'.procs <==> q in s.procs) && (q in s.procs ==> s'.procs[q] == s.procs[q]))
      && runId in s'.db.store && s'.db.store.Keys == s.db.store.Keys
      && s'.db.store[runId] == Apply(s.db.store[runId], op).record.(revision := s.db.store[runId].revision + 1)
  {
    hide Serialized, Apply, WriteError, Step;
    ReadThenWrite(s, p, runId, op);
  }

  lemma AuditIsSaved(s: State, p: nat, w: Work, l: Lease, c: Choice)
    requires p in s.procs && s.procs[p] == Auditing(w, l) && c.fault == Never && l.runId in s.db.store
    requires var t := Enter(Reading(s, p, l.runId, AddMessage(Audit(l))), p, AuditSaving(w, l));
      p in t.db.clients && WriteError(t.db, p) == None
    ensures Progress(Progress(s, p, c), p, c) == Saves(s, p, l.runId, AddMessage(Audit(l)), AuditSaving(w, l), Granted(w, l))
  {
    hide Reading, Writing, WriteError;
  }

  // Noting a lease, at its reservation and at its completion, is one manager call.
  lemma Audits(s: State, p: nat, w: Work, l: Lease, c: Choice)
    requires At(s, p, Auditing(w, l)) && c.fault == Never && l.runId in s.db.store
    ensures var s' := Progress(Progress(s, p, c), p, c);
      At(s', p, Granted(w, l)) && s'.table == s.table && s'.calls == s.calls && s'.remote == s.remote
      && Appended(s, s', l.runId, [Audit(l)], [])
  {
    hide Serialized, Reading, Writing, WriteError, Audit, Progress, Saves;
    NotingCommits(s.db.store[l.runId], Audit(l));
    SavesOnce(s, p, l.runId, AddMessage(Audit(l)), AuditSaving(w, l), Granted(w, l));
    AuditIsSaved(s, p, w, l, c);
  }

  lemma NotingCommits(rec: SessionRecord, m: Message)
    ensures Apply(rec, AddMessage(m)) == Commit(rec.(messages := rec.messages + [m]))
  {
  }

  lemma ResultCommits(rec: SessionRecord, r: ExecutionResult)
    requires r.runId == Some(rec.runId) && FindResult(rec.results, r.executionId).None?
    ensures Apply(rec, AddResult(r)) == Commit(rec.(results := rec.results + [r]))
  {
  }

  // What the gateway answers for this outcome: a local result that is not a success, or what the remote authority replied.
  ghost predicate IsOutcome(s: State, w: Work, outcome: Execution.Outcome, r: ExecutionResult) {
    match outcome
    case GatewayError => false
    case Local(status, output) =>
      status != Success && r == ExecutionResult(w.request.executionId, status, output, "colab", Some(w.request.runId), Some(w.request.workerId))
    case Remotely(answer) =>
      && Answered(Sent(w), answer) in s.remote.replies && Admissible(answer, w.request.executionId, w.request.runId, w.request.workerId)
      && r == Filled(answer, w.request.runId, w.request.workerId)
  }

  lemma CallsTheGateway(s: State, p: nat, w: Work, l: Lease, c: Choice)
    requires At(s, p, Granted(w, l))
    ensures var s' := Progress(s, p, c);
      At(s', p, Awaiting(w, l)) && s'.db == s.db && s'.table == s.table && s'.remote == s.remote && s'.calls == s.calls + [GatewayCall(w, l)]
  {
    hide Serialized;
  }

  lemma GetsItsResult(s: State, p: nat, w: Work, l: Lease, c: Choice, r: ExecutionResult)
    requires At(s, p, Awaiting(w, l)) && IsOutcome(s, w, c.outcome, r)
    ensures var s' := Progress(s, p, c);
      At(s', p, Persisting(w, l, r)) && s'.db == s.db && s'.table == s.table && s'.calls == s.calls
  {
    hide Serialized, Admissible, Filled, Sent;
  }

  lemma ResultIsSaved(s: State, p: nat, w: Work, l: Lease, c: Choice, r: ExecutionResult)
    requires p in s.procs && s.procs[p] == Persisting(w, l, r) && c.fault == Never && l.runId in s.db.store
    requires var t := Enter(Reading(s, p, l.runId, AddResult(r)), p, ResultSaving(w, l, r));
      p in t.db.clients && WriteError(t.db, p) == None
    ensures Progress(Progress(s, p, c), p, c) == Saves(s, p, l.runId, AddResult(r), ResultSaving(w, l, r), Selecting(w, l, r))
  {
    hide Reading, Writing, WriteError;
  }

  lemma Persists(s: State, p: nat, w: Work, l: Lease, c: Choice, r: ExecutionResult)
    requires At(s, p, Persisting(w, l, r)) && c.fault == Never && l.runId in s.db.store
    requires r.runId == Some(l.runId) && FindResult(s.db.store[l.runId].results, r.executionId).None?
    ensures var s' := Progress(Progress(s, p, c), p, c);
      At(s', p, Selecting(w, l, r)) && s'.table == s.table && s'.calls == s.calls && Appended(s, s', l.runId, [], [r])
  {
    hide Serialized, Reading, Writing, WriteError, FindResult, Progress, Saves;
    RecordOfItsRun(s.db, l.runId);
    ResultCommits(s.db.store[l.runId], r);
    SavesOnce(s, p, l.runId, AddResult(r), ResultSaving(w, l, r), Selecting(w, l, r));
    ResultIsSaved(s, p, w, l, c, r);
  }

  lemma Finishes(s: State, p: nat, w: Work, l: Lease, c: Choice, r: ExecutionResult)
    requires At(s, p, Selecting(w, l, r)) && c.fault == Never && TableOk(s.table)
    requires Slot(l.runId, l.key) in s.table && s.table[Slot(l.runId, l.key)] == l && l.status == Running
    ensures var s' := Progress(Progress(s, p, c), p, c);
      s'.procs[p].Noting? && At(s', p, Noting(w, l, s'.procs[p].done, r)) && IsDone(l, c.now, s'.procs[p].done)
      && s'.table == s.table[Slot(l.runId, l.key) := s'.procs[p].done] && s'.calls == s.calls && s'.db == s.db
  {
    hide Serialized, RowOf;
    RowIsUnique(s.table, Slot(l.runId, l.key));
  }

  lemma NoteIsSaved(s: State, p: nat, w: Work, l: Lease, done: Lease, c: Choice, r: ExecutionResult)
    requires p in s.procs && s.procs[p] == Noting(w, l, done, r) && c.fault == Never && l.runId in s.db.store
    requires var t := Enter(Reading(s, p, l.runId, AddMessage(Audit(done))), p, NoteSaving(w, l, done, r));
      p in t.db.clients && WriteError(t.db, p) == None
    ensures Progress(Progress(s, p, c), p, c) == Saves(s, p, l.runId, AddMessage(Audit(done)), NoteSaving(w, l, done, r), Returned(w, l, r))
  {
    hide Reading, Writing, WriteError;
  }

  lemma NotesCompletion(s: State, p: nat, w: Work, l: Lease, done: Lease, c: Choice, r: ExecutionResult)
    requires At(s, p, Noting(w, l, done, r)) && c.fault == Never && l.runId in s.db.store
    ensures var s' := Progress(Progress(s, p, c), p, c);
      At(s', p, Returned(w, l, r)) && s'.table == s.table && s'.calls == s.calls && Appended(s, s', l.runId, [Audit(done)], [])
  {
    hide Serialized, Reading, Writing, WriteError, Audit, Progress, Saves;
    NotingCommits(s.db.store[l.runId], Audit(done));
    SavesOnce(s, p, l.runId, AddMessage(Audit(done)), NoteSaving(w, l, done, r), Returned(w, l, r));
    NoteIsSaved(s, p, w, l, done, c, r);
  }

  // ----- Steps as events -----

  // The process takes n steps.
  ghost function Goes(s: State, p: nat, c: Choice, n: nat): State { History(s, seq(n, _ => Go(p, c))) }

  lemma NoStep(s: State, p: nat, c: Choice)
    ensures Goes(s, p, c, 0) == s
  {
    hide Happen;
  }

  lemma OneStep(s: State, p: nat, c: Choice, n: nat)
    requires n > 0 && p in s.procs
    ensures Goes(s, p, c, n) == Goes(Progress(s, p, c), p, c, n - 1)
  {
    hide Progress;
    assert seq(n, _ => Go(p, c))[1..] == seq(n - 1, _ => Go(p, c));
  }

  lemma TwoSteps(s: State, p: nat, c: Choice, n: nat)
    requires n > 1 && p in s.procs && p in Progress(s, p, c).procs
    ensures Goes(s, p, c, n) == Goes(Progress(Progress(s, p, c), p, c), p, c, n - 2)
  {
    hide Progress, Goes;
    OneStep(s, p, c, n);
    OneStep(Progress(s, p, c), p, c, n - 1);
  }

  lemma StillThere(s: State, p: nat, c: Choice)
    requires p in s.procs
    ensures p in Progress(s, p, c).procs
  {
    hide Progress;
    ProgressMoves(s, p, c);
  }

  // The remote authority's threads work meanwhile.
  ghost function Meanwhile(s: State, threads: seq<RemoteStore.Event>): State
    decreases |threads|
  {
    History(s, seq(|threads|, i requires 0 <= i < |threads| => Thread(threads[i])))
  }

  lemma {:induction false} ThreadsOnlyTouchTheRemote(s: State, threads: seq<RemoteStore.Event>)
    ensures Meanwhile(s, threads) == s.(remote := Meanwhile(s, threads).remote)
    decreases |threads|
  {
    if threads != [] {
      var events := seq(|threads|, i requires 0 <= i < |threads| => Thread(threads[i]));
      assert events[1..] == seq(|threads[1..]|, i requires 0 <= i < |threads[1..]| => Thread(threads[1..][i]));
      OneThread(s, threads[0]);
      ThreadsOnlyTouchTheRemote(Happen(s, Thread(threads[0])), threads[1..]);
    }
  }

  lemma OneThread(s: State, t: RemoteStore.Event)
    ensures Happen(s, Thread(t)) == s.(remote := Happen(s, Thread(t)).remote)
  {
    hide RemoteStore.Next;
  }

  // ----- The undisturbed worker -----

  // A worker may start under this process number, for work nobody has started.
  ghost predicate CanStart(s: State, p: nat, w: Work) {
    p !in s.procs && p !in s.db.clients && w.request.executionId !in s.works && w.request.runId in s.db.store
    && !Blank(w.request.runId) && !Blank(w.request.workerId) && !Blank(w.request.taskId) && !Blank(w.request.key) && !Blank(w.request.executionId)
  }

  lemma Starts(s: State, p: nat, w: Work)
    requires CanStart(s, p, w) && Serialized(s.db)
    ensures var s' := Happen(s, StartWorker(p, w));
      At(s', p, Inserting(w)) && s' == s.(procs := s'.procs, works := s'.works) && !HasBlankField(w.request)
  {
    hide Serialized, Blank;
  }

  // The worker has reserved the key and called the gateway.
  ghost predicate HasCalled(s: State, s': State, p: nat, w: Work, c: Choice) {
    && p in s'.procs && s'.procs[p].Awaiting? && s'.procs[p].work == w && Reserved(w.request, c.leaseId, c.now, s'.procs[p].lease)
    && At(s', p, s'.procs[p]) && s'.calls == s.calls + [GatewayCall(w, s'.procs[p].lease)] && s'.remote == s.remote
    && s'.table == s.table[Slot(w.request.runId, w.request.key) := s'.procs[p].lease]
    && Appended(s, s', w.request.runId, [Audit(s'.procs[p].lease)], [])
  }

  lemma CallsOnce(s: State, p: nat, w: Work, c: Choice)
    requires CanStart(s, p, w) && Serialized(s.db) && c.fault == Never
    requires Slot(w.request.runId, w.request.key) !in s.table && c.leaseId !in s.issued
    ensures HasCalled(s, Goes(Happen(s, StartWorker(p, w)), p, c, 4), p, w, c)
  {
    hide Serialized, Progress, Goes, Blank, HasBlankField, Audit, Happen;
    Starts(s, p, w);
    var s0 := Happen(s, StartWorker(p, w));
    Inserts(s0, p, w, c);
    OneStep(s0, p, c, 4);
    var s1 := Progress(s0, p, c);
    var l := s1.procs[p].lease;
    Audits(s1, p, w, l, c);
    StillThere(s1, p, c);
    TwoSteps(s1, p, c, 3);
    var s3 := Progress(Progress(s1, p, c), p, c);
    CallsTheGateway(s3, p, w, l, c);
    OneStep(s3, p, c, 1);
    NoStep(Progress(s3, p, c), p, c);
  }

  // The worker has returned: its one result is stored and its lease completed, each with a note.
  ghost predicate HasReturned(s: State, s': State, p: nat, w: Work, c: Choice, r: ExecutionResult) {
    && p in s'.procs && s'.procs[p].Returned? && s'.procs[p].work == w && s'.procs[p].result == r
    && var l := s'.procs[p].under;
       var k := Slot(w.request.runId, w.request.key);
    && Reserved(w.request, c.leaseId, c.now, l) && s'.calls == s.calls + [GatewayCall(w, l)]
    && k in s'.table && IsDone(l, c.now, s'.table[k]) && s'.table == s.table[k := s'.table[k]]
    && Appended(s, s', w.request.runId, [Audit(l), Audit(s'.table[k])], [r])
  }

  lemma StoresItsResult(s: State, p: nat, w: Work, l: Lease, c: Choice, r: ExecutionResult) returns (s': State)
    requires At(s, p, Awaiting(w, l)) && IsOutcome(s, w, c.outcome, r) && c.fault == Never
    requires l.runId == w.request.runId && l.runId in s.db.store && FindResult(s.db.store[l.runId].results, w.request.executionId).None?
    ensures Goes(s, p, c, 7) == Goes(s', p, c, 4)
    ensures At(s', p, Selecting(w, l, r)) && s'.calls == s.calls && s'.table == s.table && Appended(s, s', l.runId, [], [r])
  {
    hide Serialized, Progress, Goes, FindResult, IsOutcome;
    OutcomeIsForTheRequest(s, w, c.outcome, r);
    GetsItsResult(s, p, w, l, c, r);
    OneStep(s, p, c, 7);
    var s1 := Progress(s, p, c);
    Persists(s1, p, w, l, c, r);
    StillThere(s1, p, c);
    TwoSteps(s1, p, c, 6);
    s' := Progress(Progress(s1, p, c), p, c);
  }

  lemma Concludes(s: State, p: nat, w: Work, l: Lease, c: Choice, r: ExecutionResult)
    requires At(s, p, Awaiting(w, l)) && IsOutcome(s, w, c.outcome, r) && c.fault == Never && TableOk(s.table)
    requires Slot(l.runId, l.key) in s.table && s.table[Slot(l.runId, l.key)] == l && l.status == Running
    requires l.runId == w.request.runId && l.runId in s.db.store && FindResult(s.db.store[l.runId].results, w.request.executionId).None?
    ensures var s' := Goes(s, p, c, 7);
      var k := Slot(l.runId, l.key);
      && At(s', p, Returned(w, l, r)) && s'.calls == s.calls && k in s'.table && IsDone(l, c.now, s'.table[k])
      && s'.table == s.table[k := s'.table[k]] && Appended(s, s', l.runId, [Audit(s'.table[k])], [r])
  {
    hide Serialized, Progress, Goes, Audit, TableOk, FindResult, IsOutcome, IsDone;
    var s3 := StoresItsResult(s, p, w, l, c, r);
    Finishes(s3, p, w, l, c, r);
    StillThere(s3, p, c);
    TwoSteps(s3, p, c, 4);
    var s5 := Progress(Progress(s3, p, c), p, c);
    NotesCompletion(s5, p, w, l, s5.procs[p].done, c, r);
    StillThere(s5, p, c);
    TwoSteps(s5, p, c, 2);
    NoStep(Progress(Progress(s5, p, c), p, c), p, c);
  }

  lemma OutcomeIsForTheRequest(s: State, w: Work, outcome: Execution.Outcome, r: ExecutionResult)
    requires IsOutcome(s, w, outcome, r)
    ensures r.executionId == w.request.executionId && r.runId == Some(w.request.runId)
  {
    hide Sent;
  }

  // No result can be stored under an execution id that no work has.
  lemma NewIdHasNoResult(s: State, runId: string, executionId: string)
    requires Inv(s) && runId in s.db.store && executionId !in s.works
    ensures FindResult(s.db.store[runId].results, executionId).None?
  {
    hide WorksOk, RowsKept, CallsOk, RemoteFromCalls, StoredOk, PhaseOk, Serialized, OwnersDiffer;
    assert forall x :: x in s.db.store[runId].results ==> Genuine(s, runId, x) && x.executionId != executionId;
  }

  /**
   From any reachable state: a worker with a free key, new identifiers and no disturbance reserves, calls the gateway once,
   waits while the remote authority's threads do anything, stores the result it then gets and returns it under its lease,
   which is completed; the session holds one result and the two notes more, and no other row changes.
   */
  lemma UndisturbedWorkerReturns(es: seq<Execution.Event>, p: nat, w: Work, c: Choice, threads: seq<RemoteStore.Event>, r: ExecutionResult)
    requires var s := History(START, es);
      CanStart(s, p, w) && c.fault == Never && Slot(w.request.runId, w.request.key) !in s.table && c.leaseId !in s.issued
    requires IsOutcome(Meanwhile(Goes(Happen(History(START, es), StartWorker(p, w)), p, c, 4), threads), w, c.outcome, r)
    ensures HasReturned(History(START, es), Goes(Meanwhile(Goes(Happen(History(START, es), StartWorker(p, w)), p, c, 4), threads), p, c, 7), p, w, c, r)
  {
    hide Inv, Happen, Goes, Meanwhile, History, CanStart, IsOutcome, Serialized, Audit;
    var s := History(START, es);
    ReachableIsOk(es);
    SessionsAreSerialized(s);
    CallsOnce(s, p, w, c);
    var called := Goes(Happen(s, StartWorker(p, w)), p, c, 4);
    var asked := Meanwhile(called, threads);
    ThreadsOnlyTouchTheRemote(called, threads);
    var l := called.procs[p].lease;
    NewIdIsNew(s, p, w);
    ResultsAreAsBefore(s, called, w.request.runId, Audit(l));
    NewRowFits(s, l);
    Concludes(asked, p, w, l, c, r);
  }

  lemma SessionsAreSerialized(s: State)
    requires Inv(s)
    ensures Serialized(s.db) && TableOk(s.table) && forall k :: k in s.table ==> s.table[k].leaseId in s.issued
  {
    hide WorksOk, CallsOk, RemoteFromCalls, StoredOk, PhaseOk, Serialized, TableOk, OwnersDiffer, Genuine, Originated, Called;
    forall k | k in s.table ensures s.table[k].leaseId in s.issued { assert RowOk(s, s.table[k]); }
  }

  lemma NewIdIsNew(s: State, p: nat, w: Work)
    requires Inv(s) && CanStart(s, p, w)
    ensures w.request.runId in s.db.store && FindResult(s.db.store[w.request.runId].results, w.request.executionId).None?
  {
    hide Inv, Blank, FindResult;
    NewIdHasNoResult(s, w.request.runId, w.request.executionId);
  }

  lemma ResultsAreAsBefore(s: State, s': State, runId: string, m: Message)
    requires Appended(s, s', runId, [m], [])
    ensures s'.db.store[runId].results == s.db.store[runId].results
  {
  }

  lemma NewRowFits(s: State, l: Lease)
    requires TableOk(s.table) && Slot(l.runId, l.key) !in s.table && forall k :: k in s.table ==> s.table[k].leaseId != l.leaseId
    ensures TableOk(s.table[Slot(l.runId, l.key) := l])
  {
  }

  // ----- The next worker with the same key -----

  lemma ClashesAndLooks(s: State, p: nat, w: Work, c: Choice)
    requires At(s, p, Inserting(w)) && c.fault == Never && !HasBlankField(w.request) && Slot(w.request.runId, w.request.key) in s.table
    ensures var row := s.table[Slot(w.request.runId, w.request.key)];
      var s' := Progress(Progress(s, p, c), p, c);
      At(s', p, if row.status == Running then Stopped else Replaying(w, row)) && s' == s.(procs := s'.procs)
  {
    hide Serialized, HasBlankField;
  }

  lemma Replays(s: State, p: nat, w: Work, row: Lease, c: Choice, r: ExecutionResult)
    requires At(s, p, Replaying(w, row)) && c.fault == Never && w.request.runId in s.db.store
    requires FindResult(s.db.store[w.request.runId].results, row.executionId) == Some(r)
    ensures var s' := Progress(s, p, c);
      At(s', p, Returned(w, row, r)) && s' == s.(procs := s'.procs)
  {
    hide Serialized;
  }

  /**
   From any reachable state: a worker that asks for a key whose lease was completed returns the one persisted result of that
   lease, under that lease, and changes neither table nor sessions nor calls the gateway.
   */
  lemma NextWorkerReplays(es: seq<Execution.Event>, p: nat, w: Work, c: Choice)
    requires var s := History(START, es);
      CanStart(s, p, w) && c.fault == Never && Slot(w.request.runId, w.request.key) in s.table
    requires History(START, es).table[Slot(w.request.runId, w.request.key)].status == LeaseStatus.Done
    ensures var s := History(START, es);
      var row := s.table[Slot(w.request.runId, w.request.key)];
      var s' := Goes(Happen(s, StartWorker(p, w)), p, c, 3);
      && p in s'.procs && s'.procs[p].Returned? && s'.procs[p].work == w && s'.procs[p].under == row
      && s'.procs[p].result.executionId == row.executionId && OnlyResult(s.db.store[w.request.runId].results, s'.procs[p].result)
      && s'.table == s.table && s'.db == s.db && s'.calls == s.calls
  {
    hide Inv, Happen, Goes, History, CanStart, Serialized, OnlyResult, RowsKept, DbOk, CallsOk, Progress, TableOk;
    var s := History(START, es);
    ReachableIsOk(es);
    SharedParts(s);
    SessionsAreSerialized(s);
    Starts(s, p, w);
    var s0 := Happen(s, StartWorker(p, w));
    ClashesAndLooks(s0, p, w, c);
    StillThere(s0, p, c);
    TwoSteps(s0, p, c, 3);
    var s2 := Progress(Progress(s0, p, c), p, c);
    var row := s.table[Slot(w.request.runId, w.request.key)];
    var r := EvidenceOfTheRow(s, Slot(w.request.runId, w.request.key));
    Replays(s2, p, w, row, c, r);
    OneStep(s2, p, c, 1);
    NoStep(Progress(s2, p, c), p, c);
  }

  lemma EvidenceOfTheRow(s: State, k: Slot) returns (r: ExecutionResult)
    requires RowsKept(s) && DbOk(s) && k in s.table && s.table[k].status == LeaseStatus.Done
    ensures k.runId in s.db.store && FindResult(s.db.store[k.runId].results, s.table[k].executionId) == Some(r)
    ensures r.executionId == s.table[k].executionId && OnlyResult(s.db.store[k.runId].results, r)
  {
    hide DbOk, OnlyResult, Originated, Called;
    RowAtItsSlot(s, k);
    r := FindResult(s.db.store[k.runId].results, s.table[k].executionId).value;
    HeldIsOnly(s, k.runId, r);
  }

  /** From any reachable state: a worker that asks for a key whose lease is running stops, and nothing changes. */
  lemma BusyKeyIsRefused(es: seq<Execution.Event>, p: nat, w: Work, c: Choice)
    requires var s := History(START, es);
      CanStart(s, p, w) && c.fault == Never && Slot(w.request.runId, w.request.key) in s.table
    requires History(START, es).table[Slot(w.request.runId, w.request.key)].status == Running
    ensures var s := History(START, es);
      var s' := Goes(Happen(s, StartWorker(p, w)), p, c, 2);
      && p in s'.procs && s'.procs[p] == Stopped && s'.table == s.table && s'.db == s.db && s'.calls == s.calls
  {
    hide Inv, Happen, Goes, History, CanStart, Serialized, Progress, TableOk;
    var s := History(START, es);
    ReachableIsOk(es);
    SessionsAreSerialized(s);
    Starts(s, p, w);
    var s0 := Happen(s, StartWorker(p, w));
    ClashesAndLooks(s0, p, w, c);
    StillThere(s0, p, c);
    TwoSteps(s0, p, c, 2);
    NoStep(Progress(Progress(s0, p, c), p, c), p, c);
  }

  // ----- Two workers, one execution -----

  lemma {:induction false} HistoryConcat(s: State, a: seq<Execution.Event>, b: seq<Execution.Event>)
    ensures History(s, a + b) == History(History(s, a), b)
    decreases |a|
  {
    hide Happen;
    if a == [] {
      assert a + b == b;
    } else {
      assert (a + b)[0] == a[0] && (a + b)[1..] == a[1..] + b;
      HistoryConcat(Happen(s, a[0]), a[1..], b);
    }
  }

  lemma OneEvent(s: State, e: Execution.Event)
    ensures History(s, [e]) == Happen(s, e)
  {
    hide Happen;
    assert [e][1..] == [];
    assert History(Happen(s, e), []) == Happen(s, e);
  }

  // The remote authority takes the request, runs it and answers.
  function Served(q: RemoteRequest, r: ExecutionResult): seq<RemoteStore.Event> {
    [Arrive(0, q), Advance(0, r), Advance(0, r), Advance(0, r)]
  }

  lemma IdleRemoteServes(q: RemoteRequest, r: ExecutionResult)
    requires ResultFor(q, r)
    ensures RemoteStore.After(IDLE, Served(q, r)).replies == [Answered(q, r)] && RemoteStore.After(IDLE, Served(q, r)).runs == [q]
  {
    var s1 := RemoteStore.Next(IDLE, Arrive(0, q));
    var s2 := RemoteStore.Next(s1, Advance(0, r));
    var s3 := RemoteStore.Next(s2, Advance(0, r));
    var s4 := RemoteStore.Next(s3, Advance(0, r));
    assert s4.replies == [Answered(q, r)] && s4.runs == [q];
    hide RemoteStore.Next;
    var events := Served(q, r);
    assert events[1..] == [Advance(0, r), Advance(0, r), Advance(0, r)] && events[1..][1..] == [Advance(0, r), Advance(0, r)]
      && events[1..][1..][1..] == [Advance(0, r)] && events[1..][1..][1..][1..] == [];
    assert RemoteStore.After(s4, []) == s4;
    assert RemoteStore.After(s3, [Advance(0, r)]) == RemoteStore.After(s4, []);
    assert RemoteStore.After(s2, events[1..][1..]) == RemoteStore.After(s3, events[1..][1..][1..]);
    assert RemoteStore.After(s1, events[1..]) == RemoteStore.After(s2, events[1..][1..]);
  }

  // Threads whose requests some worker sent act on the remote store as they would without the workers.
  lemma {:induction false} RemoteActsAlone(s: State, threads: seq<RemoteStore.Event>)
    requires forall t :: t in threads && t.Arrive? ==> SentFor(s, t.request)
    ensures Meanwhile(s, threads).remote == RemoteStore.After(s.remote, threads)
    decreases |threads|
  {
    hide RemoteStore.Next;
    if threads != [] {
      var events := seq(|threads|, i requires 0 <= i < |threads| => Thread(threads[i]));
      assert events[1..] == seq(|threads[1..]|, i requires 0 <= i < |threads[1..]| => Thread(threads[1..][i]));
      OneThread(s, threads[0]);
      var next := Happen(s, Thread(threads[0]));
      assert threads[0] in threads;
      assert next.remote == RemoteStore.Next(s.remote, threads[0]);
      RemoteActsAlone(next, threads[1..]);
    }
  }

  // Nothing of another process appears: neither the process nor its session client nor its work.
  ghost predicate OnlyOf(s: State, s': State, p: nat) {
    && (forall q :: q != p && q in s'.procs ==> q in s.procs) && (forall q :: q != p && q in s'.db.clients ==> q in s.db.clients)
    && s'.works == s.works && s'.remote == s.remote
  }

  lemma StepIsOnlyOf(s: State, p: nat, c: Choice)
    requires p in s.procs
    ensures OnlyOf(s, Progress(s, p, c), p)
  {
    hide Progress, Step, Evolves;
    ProgressMoves(s, p, c);
    ProgressEvolves(s, p, c);
    SessionStepIsOnlyOf(s.db, p, Write(p));
    SessionStepIsOnlyOf(s.db, p, ReadOf(p, s.procs[p]));
  }

  lemma SessionStepIsOnlyOf(db: System, p: nat, a: SessionStore.Action)
    requires a.Write? || a.Read? || a.Abandon?
    requires a.client == p
    ensures forall q :: q != p && q in Step(db, a).clients ==> q in db.clients
  {
    hide Apply, Save;
  }

  lemma {:induction false} GoesIsOnlyOf(s: State, p: nat, c: Choice, n: nat)
    requires p in s.procs
    ensures OnlyOf(s, Goes(s, p, c, n), p)
    decreases n
  {
    hide Progress, Goes;
    if n == 0 {
      NoStep(s, p, c);
    } else {
      OneStep(s, p, c, n);
      StepIsOnlyOf(s, p, c);
      StillThere(s, p, c);
      GoesIsOnlyOf(Progress(s, p, c), p, c, n - 1);
    }
  }

  // The first worker of a new run, which the remote authority serves.
  function FirstWorker(w: Work, c: Choice, r: ExecutionResult): seq<Execution.Event> {
    var threads := Served(Sent(w), r);
    [Manager(Create(w.request.runId))]
    + ([StartWorker(0, w)] + seq(4, _ => Go(0, c)) + seq(|threads|, i requires 0 <= i < |threads| => Thread(threads[i])) + seq(7, _ => Go(0, c)))
  }

  lemma CreatesTheRun(runId: string)
    ensures var s := History(START, [Manager(Create(runId))]);
      s == START.(db := Step(EMPTY, Create(runId))) && s.db.store == map[runId := NewSession(runId)] && s.db.clients == map[]
  {
    OneEvent(START, Manager(Create(runId)));
  }

  lemma FirstWorkerIs(w: Work, c: Choice, r: ExecutionResult)
    ensures var s := History(START, [Manager(Create(w.request.runId))]);
      History(START, FirstWorker(w, c, r)) == Goes(Meanwhile(Goes(Happen(s, StartWorker(0, w)), 0, c, 4), Served(Sent(w), r)), 0, c, 7)
  {
    hide Happen;
    var threads := Served(Sent(w), r);
    var s := History(START, [Manager(Create(w.request.runId))]);
    var a, b := [StartWorker(0, w)], seq(4, _ => Go(0, c));
    var d, e := seq(|threads|, i requires 0 <= i < |threads| => Thread(threads[i])), seq(7, _ => Go(0, c));
    HistoryConcat(START, [Manager(Create(w.request.runId))], a + b + d + e);
    HistoryConcat(s, a + b + d, e);
    HistoryConcat(s, a + b, d);
    HistoryConcat(s, a, b);
    OneEvent(s, StartWorker(0, w));
  }

  lemma FieldsAreThere(v: Work, w: Work)
    requires v.request.runId == w.request.runId && v.request.key == w.request.key
    requires forall f :: f in [v.request.runId, v.request.key, v.request.workerId, v.request.taskId, v.request.executionId] ==> !Blank(f)
    requires forall f :: f in [w.request.workerId, w.request.taskId, w.request.executionId] ==> !Blank(f)
    ensures !Blank(v.request.runId) && !Blank(v.request.workerId) && !Blank(v.request.taskId) && !Blank(v.request.key) && !Blank(v.request.executionId)
    ensures !Blank(w.request.workerId) && !Blank(w.request.taskId) && !Blank(w.request.executionId)
  {
    hide Blank;
    var fields := [v.request.runId, v.request.key, v.request.workerId, v.request.taskId, v.request.executionId];
    var others := [w.request.workerId, w.request.taskId, w.request.executionId];
    assert fields[0] == v.request.runId && fields[1] == v.request.key && fields[2] == v.request.workerId && fields[3] == v.request.taskId;
    assert fields[4] == v.request.executionId;
    assert others[0] == w.request.workerId && others[1] == w.request.taskId && others[2] == w.request.executionId;
  }

  lemma EmptyIsSerialized(runId: string)
    ensures Serialized(Step(EMPTY, Create(runId)))
  {
    CreateKeepsSerialized(EMPTY, runId);
  }

  lemma ServedOutcome(before: State, called: State, v: Work, c: Choice, r: ExecutionResult)
    requires HasCalled(before, called, 0, v, c) && before.remote == IDLE
    requires c.outcome == Remotely(r) && ResultFor(Sent(v), r)
    ensures var asked := Meanwhile(called, Served(Sent(v), r));
      IsOutcome(asked, v, c.outcome, Filled(r, v.request.runId, v.request.workerId)) && asked.remote.runs == [Sent(v)]
  {
    hide Meanwhile, RemoteStore.After;
    IdleRemoteServes(Sent(v), r);
    var i := |before.calls|;
    assert Sent(called.calls[i].work) == Sent(v);
    assert SentFor(called, Sent(v));
    RemoteActsAlone(called, Served(Sent(v), r));
  }

  lemma NextCanStart(before: State, s: State, v: Work, w: Work, c: Choice, threads: seq<RemoteStore.Event>)
    requires before.procs == map[] && before.db.clients == map[] && before.works == map[] && CanStart(before, 0, v) && Serialized(before.db)
    requires var called := Goes(Happen(before, StartWorker(0, v)), 0, c, 4);
      0 in called.procs && s == Goes(Meanwhile(called, threads), 0, c, 7)
    requires v.request.runId == w.request.runId && v.request.executionId != w.request.executionId && v.request.runId in s.db.store
    requires !Blank(w.request.runId) && !Blank(w.request.workerId) && !Blank(w.request.taskId) && !Blank(w.request.key) && !Blank(w.request.executionId)
    ensures CanStart(s, 1, w) && s.remote == Meanwhile(Goes(Happen(before, StartWorker(0, v)), 0, c, 4), threads).remote
  {
    hide Happen, Goes, Meanwhile, Blank, Serialized, HasBlankField;
    Starts(before, 0, v);
    var started := Happen(before, StartWorker(0, v));
    StartedWorks(before, v);
    GoesIsOnlyOf(started, 0, c, 4);
    var called := Goes(started, 0, c, 4);
    ThreadsOnlyTouchTheRemote(called, threads);
    GoesIsOnlyOf(Meanwhile(called, threads), 0, c, 7);
    OnlyTheFirst(before, started);
  }

  lemma SameEvidence(results: seq<ExecutionResult>, a: ExecutionResult, b: ExecutionResult)
    requires a in results && OnlyResult(results, b) && a.executionId == b.executionId
    ensures a == b
  {
  }

  lemma RemoteIsAsBefore(s: State, w: Work, c: Choice)
    requires CanStart(s, 1, w)
    ensures Goes(Happen(s, StartWorker(1, w)), 1, c, 3).remote == s.remote
  {
    hide Goes, Blank;
    GoesIsOnlyOf(Happen(s, StartWorker(1, w)), 1, c, 3);
  }

  lemma StartedWorks(before: State, v: Work)
    requires CanStart(before, 0, v)
    ensures Happen(before, StartWorker(0, v)).works == before.works[v.request.executionId := v]
    ensures Happen(before, StartWorker(0, v)).procs == before.procs[0 := Inserting(v)]
  {
    hide Blank;
  }

  lemma OnlyTheFirst(before: State, started: State)
    requires before.procs == map[] && before.db.clients == map[] && started.db == before.db
    ensures 1 !in started.db.clients
  {
  }

  /**
   From nothing: a worker of a new run has its code executed remotely and returns the result; the next worker with the same
   key returns that very result. The gateway was called once and the code was executed once.
   */
  lemma OneExecutionServesTwoWorkers(v: Work, w: Work, c: Choice, r: ExecutionResult)
    requires v.request.runId == w.request.runId && v.request.key == w.request.key && v.request.executionId != w.request.executionId
    requires forall f :: f in [v.request.runId, v.request.key, v.request.workerId, v.request.taskId, v.request.executionId] ==> !Blank(f)
    requires forall f :: f in [w.request.workerId, w.request.taskId, w.request.executionId] ==> !Blank(f)
    requires c.fault == Never && c.outcome == Remotely(r) && ResultFor(Sent(v), r)
    ensures var s := History(START, FirstWorker(v, c, r));
      var s' := Goes(Happen(s, StartWorker(1, w)), 1, c, 3);
      && 0 in s.procs && s.procs[0].Returned? && s.procs[0].result == r.(workerId := Some(v.request.workerId))
      && 1 in s'.procs && s'.procs[1].Returned? && s'.procs[1].result == s.procs[0].result
      && |s'.calls| == 1 && s'.remote.runs == [Sent(v)]
  {
    hide Happen, Goes, Meanwhile, History, Blank, FirstWorker, Served, OnlyResult;
    var before := History(START, [Manager(Create(v.request.runId))]);
    CreatesTheRun(v.request.runId);
    FieldsAreThere(v, w);
    var called := Goes(Happen(before, StartWorker(0, v)), 0, c, 4);
    EmptyIsSerialized(v.request.runId);
    CallsOnce(before, 0, v, c);
    var asked := Meanwhile(called, Served(Sent(v), r));
    ServedOutcome(before, called, v, c, r);
    UndisturbedWorkerReturns([Manager(Create(v.request.runId))], 0, v, c, Served(Sent(v), r), Filled(r, v.request.runId, v.request.workerId));
    FirstWorkerIs(v, c, r);
    var s := History(START, FirstWorker(v, c, r));
    NextCanStart(before, s, v, w, c, Served(Sent(v), r));
    NextWorkerReplays(FirstWorker(v, c, r), 1, w, c);
    var started := Happen(s, StartWorker(1, w));
    RemoteIsAsBefore(s, w, c);
    SameEvidence(s.db.store[v.request.runId].results, s.procs[0].result, Goes(started, 1, c, 3).procs[1].result);
  }

  // ----- The steps on the lease table are the calls of the lease service -----

  /**
   Inserting, and looking at the row when the key is taken, answer as the service's reserve does: the worker goes on under
   the new lease, replays the completed one, or stops, exactly when reserve grants, answers the completed lease, or raises.
   */
  lemma ReservingIsReserve(s: State, p: nat, c: Choice, logs: Logs)
    requires p in s.procs && s.procs[p].Inserting? && c.fault == Never && c.leaseId !in s.issued
    requires s.procs[p].work.request.runId in logs
    ensures var w := s.procs[p].work;
      var (t, answer) := TableCall(TableState(s.table, logs), Call.Reserve(w.request, c.leaseId, c.now));
      var s1 := Progress(s, p, c);
      && s1.table == t.table
      && (s1.procs[p] == Stopped <==> answer == Raised(EmptyIdentifier))
      && (s1.procs[p].Auditing? <==> answer.Leased? && t.table != s.table)
      && (s1.procs[p].Auditing? ==> s1.procs[p] == Auditing(w, answer.lease))
      && (s1.procs[p].Clashed? ==>
            var s2 := Progress(s1, p, c);
            && s2.table == t.table
            && (s2.procs[p] == Stopped <==> answer == Raised(AlreadyActive))
            && (s2.procs[p].Replaying? <==> answer.Leased?)
            && (s2.procs[p].Replaying? ==> s2.procs[p] == Replaying(w, answer.lease)))
  {
    hide HasBlankField;
  }

  /** A reservation whose audit fails leaves the table as the service's reserve does when the note cannot be stored. */
  lemma UndoingIsAuditFailed(s: State, p: nat, c: Choice, logs: Logs, undo: Choice)
    requires p in s.procs && s.procs[p].Inserting? && c.fault == Never && c.leaseId !in s.issued && TableOk(s.table)
    requires s.procs[p].work.request.runId !in logs && undo.fault != Before
    requires forall k :: k in s.table ==> s.table[k].leaseId in s.issued
    requires Progress(s, p, c).procs[p].Auditing?
    ensures var w := s.procs[p].work;
      var (t, answer) := TableCall(TableState(s.table, logs), Call.Reserve(w.request, c.leaseId, c.now));
      var s1 := Progress(s, p, c);
      && answer == Raised(AuditFailed)
      && Progress(Enter(s1, p, Undoing(w, s1.procs[p].lease)), p, undo).table == t.table == s.table
  {
    hide HasBlankField;
  }

  /** Completing answers and writes as the service's complete does. */
  lemma CompletingIsComplete(s: State, p: nat, c: Choice, logs: Logs)
    requires p in s.procs && (s.procs[p].Selecting? || s.procs[p].Updating?) && c.fault == Never && TableOk(s.table)
    requires s.procs[p].lease.runId in logs
    ensures var ph := s.procs[p];
      var (t, answer) := TableCall(TableState(s.table, logs), Call.Complete(ph.lease.runId, ph.lease.leaseId, c.now));
      var s' := Progress(s, p, c);
      && (ph.Selecting? ==>
            && s'.table == s.table
            && (s'.procs[p] == Stopped <==> answer == Raised(UnknownLease))
            && (s'.procs[p] == Returned(ph.work, ph.lease, ph.result) <==> answer.Leased? && t.table == s.table && t.logs == logs)
            && (s'.procs[p] == Updating(ph.work, ph.lease, ph.result) <==> answer.Leased? && t.logs != logs))
      && (ph.Updating? ==>
            && s'.table == t.table
            && (s'.procs[p].Noting? <==> answer.Leased? && t.logs != logs)
            && (s'.procs[p].Noting? ==> s'.procs[p] == Noting(ph.work, ph.lease, answer.lease, ph.result)))
  {
    var ph := s.procs[p];
    var found := RowOf(s.table, ph.lease.runId, ph.lease.leaseId);
    if found.Some? {
      var k :| IsRow(s.table, k, ph.lease.runId, ph.lease.leaseId) && found.value == s.table[k];
      LongerLog(logs, ph.lease.runId, Audit(Leases.Finished(found.value, c.now)));
    }
  }

  lemma LongerLog(logs: Logs, runId: string, m: Message)
    requires runId in logs
    ensures Append(logs, runId, m) != logs
  {
    assert |Append(logs, runId, m)[runId]| == |logs[runId]| + 1;
  }
}
