/**
 The life of one lease over every history of calls, told from the calls alone: which reservation mints it, what every
 later call answers while it runs, and what it is once it was completed. The table and the log tell the same story.
 */
module LeaseLifecycle {
  import opened Wrappers
  import opened Contracts
  import opened Text
  import opened Leases
  import opened LeaseRefinement

  // ----- Histories from an empty database -----

  // The two forms before the n-th call.
  ghost function TableAt(calls: seq<Call>, n: nat): TableState
    requires n <= |calls|
  {
    if n == 0 then TableState(map[], map[]) else TableCall(TableAt(calls, n - 1), calls[n - 1]).0
  }

  function LogAt(calls: seq<Call>, n: nat): Logs
    requires n <= |calls|
  {
    if n == 0 then map[] else LogCall(LogAt(calls, n - 1), calls[n - 1]).0
  }

  ghost function TableAnswer(calls: seq<Call>, n: nat): Answer
    requires n < |calls|
  {
    TableCall(TableAt(calls, n), calls[n]).1
  }

  function LogAnswer(calls: seq<Call>, n: nat): Answer
    requires n < |calls|
  {
    LogCall(LogAt(calls, n), calls[n]).1
  }

  // No lease id is handed out twice.
  ghost predicate DistinctLeases(calls: seq<Call>) {
    forall i, j :: 0 <= i < j < |calls| && calls[i].Reserve? && calls[j].Reserve? ==> calls[i].leaseId != calls[j].leaseId
  }

  ghost predicate Created(calls: seq<Call>, n: nat, runId: string)
    requires n <= |calls|
  {
    exists i :: 0 <= i < n && calls[i] == CreateRun(runId)
  }

  // A reservation of this key whose identifiers are all there.
  ghost predicate Asks(c: Call, runId: string, key: string) {
    && c.Reserve? && c.request.runId == runId && c.request.key == key
    && !Blank(runId) && !Blank(key) && !Blank(c.request.workerId) && !Blank(c.request.taskId) && !Blank(c.request.executionId)
  }

  // The first reservation of the key in a run that exists.
  ghost predicate Mints(calls: seq<Call>, i: nat, runId: string, key: string) {
    && i < |calls| && Asks(calls[i], runId, key) && Created(calls, i, runId)
    && forall k :: 0 <= k < i && Asks(calls[k], runId, key) ==> !Created(calls, k, runId)
  }

  ghost predicate Ends(c: Call, runId: string, leaseId: string) { c.Complete? && c.runId == runId && c.leaseId == leaseId }

  ghost predicate Ended(calls: seq<Call>, i: nat, n: nat, runId: string, leaseId: string)
    requires n <= |calls|
  {
    exists k :: i < k < n && Ends(calls[k], runId, leaseId)
  }

  // What the lease that call i minted is before call n: as reserved, and completed from its first completion on.
  ghost predicate Tells(calls: seq<Call>, i: nat, n: nat, l: Lease)
    requires i < n <= |calls| && calls[i].Reserve?
  {
    var Reserve(q, leaseId, now) := calls[i];
    && l.leaseId == leaseId && l.runId == q.runId && l.workerId == q.workerId && l.taskId == q.taskId
    && l.key == q.key && l.executionId == q.executionId
    && (if Ended(calls, i, n, q.runId, leaseId)
        then
          l.status == Done
          && exists k :: i < k < n && Ends(calls[k], q.runId, leaseId) && !Ended(calls, i, k, q.runId, leaseId) && l.timestamp == calls[k].now
        else l.status == Running && l.timestamp == now)
  }

  // ----- The two forms stay related -----

  ghost function Issued(calls: seq<Call>, n: nat): set<string>
    requires n <= |calls|
  {
    set i | 0 <= i < n && calls[i].Reserve? :: calls[i].leaseId
  }

  lemma {:induction false} AtRelated(calls: seq<Call>, n: nat)
    requires DistinctLeases(calls) && n <= |calls|
    ensures Related(TableAt(calls, n), LogAt(calls, n), Issued(calls, n))
  {
    if n == 0 {
      EmptyIsRelated();
    } else {
      hide Related, TableCall, LogCall;
      AtRelated(calls, n - 1);
      assert FreshLease(calls[n - 1], Issued(calls, n - 1));
      CallRefines(TableAt(calls, n - 1), LogAt(calls, n - 1), Issued(calls, n - 1), calls[n - 1]);
      assert Issued(calls, n) == Issued(calls, n - 1) + IssuedBy(calls[n - 1]);
    }
  }

  lemma OneMoreCall(calls: seq<Call>, n: nat, runId: string)
    requires n < |calls|
    ensures Created(calls, n + 1, runId) <==> Created(calls, n, runId) || calls[n] == CreateRun(runId)
  {
  }

  lemma LogCallKnows(logs: Logs, c: Call, runId: string)
    ensures runId in LogCall(logs, c).0 <==> runId in logs || c == CreateRun(runId)
  {
    hide Find, FindByLease, HasBlankField;
  }

  lemma {:induction false} SessionsAreTheCreated(calls: seq<Call>, n: nat, runId: string)
    requires n <= |calls|
    ensures runId in LogAt(calls, n) <==> Created(calls, n, runId)
  {
    if n > 0 {
      hide LogCall, Created;
      SessionsAreTheCreated(calls, n - 1, runId);
      OneMoreCall(calls, n - 1, runId);
      LogCallKnows(LogAt(calls, n - 1), calls[n - 1], runId);
    } else {
      assert !Created(calls, 0, runId);
    }
  }

  // ----- One call -----

  // The row that a valid reservation of a free key leaves.
  ghost predicate Reserved(q: Request, leaseId: string, now: string, l: Lease) {
    && l.leaseId == leaseId && l.runId == q.runId && l.workerId == q.workerId && l.taskId == q.taskId
    && l.key == q.key && l.executionId == q.executionId && l.status == Running && l.timestamp == now
  }

  // The same lease, completed at this time.
  ghost predicate IsDone(before: Lease, now: string, l: Lease) {
    && l.leaseId == before.leaseId && l.runId == before.runId && l.workerId == before.workerId && l.taskId == before.taskId
    && l.key == before.key && l.executionId == before.executionId && l.status == Done && l.timestamp == now
  }

  lemma FreeKey(s: TableState, c: Call, runId: string, key: string)
    requires TableOk(s.table) && Lookup(s.table, runId, key).None?
    ensures var l := Lookup(TableCall(s, c).0.table, runId, key);
      if Asks(c, runId, key) && runId in s.logs then l.Some? && Reserved(c.request, c.leaseId, c.now, l.value) && TableCall(s, c).1 == Leased(l.value)
      else l.None?
  {
  }

  lemma HeldKey(s: TableState, c: Call, runId: string, key: string)
    requires TableOk(s.table) && Lookup(s.table, runId, key).Some? && runId in s.logs
    ensures var before := Lookup(s.table, runId, key).value;
      var l := Lookup(TableCall(s, c).0.table, runId, key);
      && l.Some?
      && (if Ends(c, runId, before.leaseId) && before.status == Running then IsDone(before, c.now, l.value) else l.value == before)
  {
    RowIsUnique(s.table, Slot(runId, key));
  }

  // ----- Every history -----

  // Before its reservation a key has no lease.
  lemma {:induction false} NoLeaseYet(calls: seq<Call>, n: nat, runId: string, key: string)
    requires DistinctLeases(calls) && n <= |calls| && forall k :: 0 <= k < n && Asks(calls[k], runId, key) ==> !Created(calls, k, runId)
    ensures Lookup(TableAt(calls, n).table, runId, key).None?
  {
    if n > 0 {
      hide TableCall, LogCall, Created, Asks;
      NoLeaseYet(calls, n - 1, runId, key);
      AtRelated(calls, n - 1);
      SessionsAreTheCreated(calls, n - 1, runId);
      FreeKey(TableAt(calls, n - 1), calls[n - 1], runId, key);
    }
  }

  lemma TellsTheReservation(calls: seq<Call>, i: nat, l: Lease)
    requires i < |calls| && calls[i].Reserve? && Reserved(calls[i].request, calls[i].leaseId, calls[i].now, l)
    ensures Tells(calls, i, i + 1, l)
  {
  }

  lemma TellsOneMore(calls: seq<Call>, i: nat, n: nat, before: Lease, l: Lease)
    requires i < n < |calls| && calls[i].Reserve? && Tells(calls, i, n, before)
    requires if Ends(calls[n], calls[i].request.runId, before.leaseId) && before.status == Running then IsDone(before, calls[n].now, l) else l == before
    ensures Tells(calls, i, n + 1, l)
  {
    var runId, leaseId := calls[i].request.runId, calls[i].leaseId;
    if Ended(calls, i, n, runId, leaseId) {
      var k :| i < k < n && Ends(calls[k], runId, leaseId) && !Ended(calls, i, k, runId, leaseId) && before.timestamp == calls[k].now;
      assert Ended(calls, i, n + 1, runId, leaseId);
    } else if Ends(calls[n], runId, leaseId) {
      assert Ended(calls, i, n + 1, runId, leaseId);
    }
  }

  lemma {:induction false} TableTells(calls: seq<Call>, i: nat, n: nat, runId: string, key: string)
    requires DistinctLeases(calls) && Mints(calls, i, runId, key) && i < n <= |calls|
    ensures Lookup(TableAt(calls, n).table, runId, key).Some? && Tells(calls, i, n, Lookup(TableAt(calls, n).table, runId, key).value)
  {
    hide TableCall, LogCall, Tells, Created;
    AtRelated(calls, n - 1);
    SessionsAreTheCreated(calls, n - 1, runId);
    if n == i + 1 {
      NoLeaseYet(calls, i, runId, key);
      FreeKey(TableAt(calls, i), calls[i], runId, key);
      TellsTheReservation(calls, i, Lookup(TableAt(calls, n).table, runId, key).value);
    } else {
      TableTells(calls, i, n - 1, runId, key);
      CreatedStays(calls, i, n - 1, runId);
      HeldKey(TableAt(calls, n - 1), calls[n - 1], runId, key);
      TellsOneMore(calls, i, n - 1, Lookup(TableAt(calls, n - 1).table, runId, key).value, Lookup(TableAt(calls, n).table, runId, key).value);
    }
  }

  lemma CreatedStays(calls: seq<Call>, i: nat, n: nat, runId: string)
    requires i <= n <= |calls| && Created(calls, i, runId)
    ensures Created(calls, n, runId)
  {
  }

  /**
   After the reservation that minted it, table and log hold the lease under its key and under its id, with the fields of
   that reservation, running until the first completion of its id and completed at that time from then on.
   */
  lemma LeaseIsWhatWasCalled(calls: seq<Call>, i: nat, n: nat, runId: string, key: string) returns (l: Lease)
    requires DistinctLeases(calls) && Mints(calls, i, runId, key) && i < n <= |calls|
    ensures Tells(calls, i, n, l) && runId in LogAt(calls, n)
    ensures Lookup(TableAt(calls, n).table, runId, key) == Some(l) && RowOf(TableAt(calls, n).table, runId, l.leaseId) == Some(l)
    ensures Find(LogAt(calls, n)[runId], runId, key) == Some(l) && FindByLease(LogAt(calls, n)[runId], runId, l.leaseId) == Some(l)
  {
    hide TableAt, LogAt, Tells, Created, RowOf, Find, FindByLease;
    TableTells(calls, i, n, runId, key);
    l := Lookup(TableAt(calls, n).table, runId, key).value;
    AtRelated(calls, n);
    CreatedStays(calls, i, n, runId);
    SessionsAreTheCreated(calls, n, runId);
    RowIsUnique(TableAt(calls, n).table, Slot(runId, key));
  }

  lemma MintHasKey(calls: seq<Call>, i: nat, runId: string, key: string)
    requires Mints(calls, i, runId, key)
    ensures calls[i].Reserve? && calls[i].request.runId == runId && calls[i].request.key == key
  {
  }

  lemma TellsItsId(calls: seq<Call>, i: nat, n: nat, l: Lease)
    requires i < n <= |calls| && calls[i].Reserve? && Tells(calls, i, n, l)
    ensures l.leaseId == calls[i].leaseId && l.runId == calls[i].request.runId
  {
  }

  lemma TellsTheKey(calls: seq<Call>, i: nat, n: nat, l: Lease)
    requires i < n <= |calls| && calls[i].Reserve? && Tells(calls, i, n, l)
    ensures l.key == calls[i].request.key
  {
  }

  lemma TellsStatus(calls: seq<Call>, i: nat, n: nat, l: Lease)
    requires i < n <= |calls| && calls[i].Reserve? && Tells(calls, i, n, l)
    ensures l.status == if Ended(calls, i, n, calls[i].request.runId, calls[i].leaseId) then Done else Running
  {
  }

  // ----- What every call answers -----

  lemma TableReserves(s: TableState, c: Call, runId: string, key: string)
    requires Asks(c, runId, key)
    ensures Lookup(s.table, runId, key).Some? ==>
      var l := Lookup(s.table, runId, key).value;
      TableCall(s, c) == (s, if l.status == Running then Raised(AlreadyActive) else Leased(l))
    ensures Lookup(s.table, runId, key).None? && runId !in s.logs ==> TableCall(s, c) == (s, Raised(AuditFailed))
  {
  }

  lemma LogReserves(logs: Logs, c: Call, runId: string, key: string)
    requires Asks(c, runId, key)
    ensures runId !in logs ==> LogCall(logs, c) == (logs, Raised(SessionMissing))
    ensures runId in logs && Find(logs[runId], runId, key).Some? ==>
      var l := Find(logs[runId], runId, key).value;
      LogCall(logs, c) == (logs, if l.status == Running then Raised(AlreadyActive) else Leased(l))
    ensures runId in logs && Find(logs[runId], runId, key).None? ==>
      LogCall(logs, c).1.Leased? && Reserved(c.request, c.leaseId, c.now, LogCall(logs, c).1.lease)
  {
    hide Find;
  }

  /**
   Every later valid reservation of a minted key changes nothing, in both forms: while the lease runs it raises, and once
   the lease was completed it answers the completed lease.
   */
  lemma LaterReservations(calls: seq<Call>, i: nat, j: nat, runId: string, key: string)
    requires DistinctLeases(calls) && Mints(calls, i, runId, key) && i < j < |calls| && Asks(calls[j], runId, key)
    ensures TableAt(calls, j + 1) == TableAt(calls, j) && LogAt(calls, j + 1) == LogAt(calls, j)
    ensures TableAnswer(calls, j) == LogAnswer(calls, j)
    ensures if Ended(calls, i, j, runId, calls[i].leaseId)
      then TableAnswer(calls, j).Leased? && TableAnswer(calls, j).lease.status == Done && Tells(calls, i, j, TableAnswer(calls, j).lease)
      else TableAnswer(calls, j) == Raised(AlreadyActive)
  {
    hide TableCall, LogCall, Asks, RowOf, Find, FindByLease, Mints, Tells, Ended;
    AtNext(calls, j);
    MintHasKey(calls, i, runId, key);
    var l := LeaseIsWhatWasCalled(calls, i, j, runId, key);
    TellsStatus(calls, i, j, l);
    TableReserves(TableAt(calls, j), calls[j], runId, key);
    LogReserves(LogAt(calls, j), calls[j], runId, key);
  }

  /**
   The first reservation is granted a running lease with its own fields; before the run exists none is, and nothing is
   stored; and a reservation is turned down as incomplete exactly when one of its identifiers is blank.
   */
  lemma FirstReservations(calls: seq<Call>, j: nat)
    requires DistinctLeases(calls) && j < |calls| && calls[j].Reserve?
    ensures var Reserve(q, leaseId, now) := calls[j];
      && (Mints(calls, j, q.runId, q.key) ==>
            TableAnswer(calls, j) == LogAnswer(calls, j) && TableAnswer(calls, j).Leased? && Reserved(q, leaseId, now, TableAnswer(calls, j).lease))
      && (Asks(calls[j], q.runId, q.key) && !Created(calls, j, q.runId) ==>
            && TableAnswer(calls, j) == Raised(AuditFailed) && LogAnswer(calls, j) == Raised(SessionMissing)
            && TableAt(calls, j + 1) == TableAt(calls, j) && LogAt(calls, j + 1) == LogAt(calls, j))
      && (TableAnswer(calls, j) == Raised(EmptyIdentifier) <==> exists f :: f in [q.runId, q.workerId, q.taskId, q.key, q.executionId] && Blank(f))
      && (LogAnswer(calls, j) == Raised(EmptyIdentifier) <==> exists f :: f in [q.runId, q.workerId, q.taskId, q.key, q.executionId] && Blank(f))
  {
    hide Find, Blank, TableAt, LogAt, RowOf;
    var q := calls[j].request;
    AtRelated(calls, j);
    SessionsAreTheCreated(calls, j, q.runId);
    if Mints(calls, j, q.runId, q.key) || !Created(calls, j, q.runId) { FirstOfItsKey(calls, j, q); }
    EmptyFields(q);
    AtNext(calls, j);
    AgreeOnSlot(TableAt(calls, j), LogAt(calls, j), Issued(calls, j), q.runId, q.key);
  }

  lemma EmptyFields(q: Request)
    ensures HasBlankField(q) <==> exists f :: f in [q.runId, q.workerId, q.taskId, q.key, q.executionId] && Blank(f)
  {
    hide Blank;
    var fields := [q.runId, q.workerId, q.taskId, q.key, q.executionId];
    assert fields[0] == q.runId && fields[1] == q.workerId && fields[2] == q.taskId && fields[3] == q.key && fields[4] == q.executionId;
  }

  lemma AtNext(calls: seq<Call>, j: nat)
    requires j < |calls|
    ensures TableAt(calls, j + 1) == TableCall(TableAt(calls, j), calls[j]).0 && LogAt(calls, j + 1) == LogCall(LogAt(calls, j), calls[j]).0
  {
    hide TableCall, LogCall;
  }

  lemma AgreeOnSlot(s: TableState, logs: Logs, issued: set<string>, runId: string, key: string)
    requires Related(s, logs, issued)
    ensures runId in logs ==> Find(logs[runId], runId, key) == Lookup(s.table, runId, key)
  {
    hide Find, FindByLease, RowOf, TableOk;
  }

  lemma FirstOfItsKey(calls: seq<Call>, j: nat, q: Request)
    requires DistinctLeases(calls) && j < |calls| && (Mints(calls, j, q.runId, q.key) || !Created(calls, j, q.runId))
    ensures Lookup(TableAt(calls, j).table, q.runId, q.key).None?
  {
    hide TableAt, Asks;
    NoLeaseYet(calls, j, q.runId, q.key);
  }

  /** However often a key is reserved, at most one reservation of it is granted a running lease. */
  lemma OneRunningLease(calls: seq<Call>, i: nat, j: nat)
    requires DistinctLeases(calls) && i < j < |calls| && calls[i].Reserve? && calls[j].Reserve?
    requires calls[i].request.runId == calls[j].request.runId && calls[i].request.key == calls[j].request.key
    ensures !(TableAnswer(calls, i).Leased? && TableAnswer(calls, i).lease.status == Running
              && TableAnswer(calls, j).Leased? && TableAnswer(calls, j).lease.status == Running)
    ensures !(LogAnswer(calls, i).Leased? && LogAnswer(calls, i).lease.status == Running
              && LogAnswer(calls, j).Leased? && LogAnswer(calls, j).lease.status == Running)
  {
    hide TableAt, LogAt, TableCall, LogCall, Created, Tells;
    var q := calls[i].request;
    GrantedIsAsked(calls, i);
    GrantedIsAsked(calls, j);
    if Asks(calls[i], q.runId, q.key) && Created(calls, i, q.runId) && Asks(calls[j], q.runId, q.key) {
      var m := FirstMint(calls, i, q.runId, q.key);
      LaterReservations(calls, m, j, q.runId, q.key);
    }
  }

  lemma GrantedIsAsked(calls: seq<Call>, i: nat)
    requires DistinctLeases(calls) && i < |calls| && calls[i].Reserve?
    ensures var q := calls[i].request;
      TableAnswer(calls, i).Leased? || LogAnswer(calls, i).Leased? ==> Asks(calls[i], q.runId, q.key) && Created(calls, i, q.runId)
  {
    hide TableAt, LogAt, RowOf, Find, Blank;
    var q := calls[i].request;
    AtRelated(calls, i);
    SessionsAreTheCreated(calls, i, q.runId);
    AgreeOnSlot(TableAt(calls, i), LogAt(calls, i), Issued(calls, i), q.runId, q.key);
  }

  lemma {:induction false} FirstMint(calls: seq<Call>, i: nat, runId: string, key: string) returns (m: nat)
    requires i < |calls| && Asks(calls[i], runId, key) && Created(calls, i, runId)
    ensures m <= i && Mints(calls, m, runId, key)
  {
    hide Asks, Created;
    if forall k :: 0 <= k < i && Asks(calls[k], runId, key) ==> !Created(calls, k, runId) {
      m := i;
    } else {
      var k :| 0 <= k < i && Asks(calls[k], runId, key) && Created(calls, k, runId);
      m := FirstMint(calls, k, runId, key);
    }
  }

  /** Asking for a key tells its lease, or that it has none. */
  lemma LookingUp(calls: seq<Call>, j: nat)
    requires DistinctLeases(calls) && j < |calls| && calls[j].Get? && Created(calls, j, calls[j].runId)
    ensures TableAnswer(calls, j) == LogAnswer(calls, j) && TableAnswer(calls, j).Looked?
    ensures var Get(runId, key) := calls[j];
      && (forall i: nat :: i < j && Mints(calls, i, runId, key) ==>
            TableAnswer(calls, j).found.Some? && Tells(calls, i, j, TableAnswer(calls, j).found.value))
      && ((forall i: nat :: i < j ==> !Mints(calls, i, runId, key)) ==> TableAnswer(calls, j).found.None?)
  {
    hide TableAt, LogAt, RowOf, Find, FindByLease, Blank, Tells, Created;
    var Get(runId, key) := calls[j];
    AtRelated(calls, j);
    SessionsAreTheCreated(calls, j, runId);
    AgreeOnSlot(TableAt(calls, j), LogAt(calls, j), Issued(calls, j), runId, key);
    forall i: nat | i < j && Mints(calls, i, runId, key)
      ensures TableAnswer(calls, j).found.Some? && Tells(calls, i, j, TableAnswer(calls, j).found.value)
    {
      var l := LeaseIsWhatWasCalled(calls, i, j, runId, key);
    }
    if forall i: nat :: i < j ==> !Mints(calls, i, runId, key) {
      forall k | 0 <= k < j && Asks(calls[k], runId, key) ensures !Created(calls, k, runId) {
        if Created(calls, k, runId) { var m := FirstMint(calls, k, runId, key); }
      }
      NoLeaseYet(calls, j, runId, key);
    }
  }

  // ----- Completing -----

  // The lease is completed: the one that was found, with its own fields, under the time it first had or now.
  ghost predicate Completes(found: Lease, now: string, l: Lease) {
    if found.status == Done then l == found else IsDone(found, now, l)
  }

  /** When the table answers a completion, the lease is completed, nothing else of it changes, and no other row does. */
  lemma TableCompletes(s: TableState, runId: string, leaseId: string, now: string)
    requires TableOk(s.table) && TableCall(s, Complete(runId, leaseId, now)).1.Leased?
    ensures var (s', answer) := TableCall(s, Complete(runId, leaseId, now));
      var found := RowOf(s.table, runId, leaseId);
      && found.Some? && answer.lease.status == Done && Completes(found.value, now, answer.lease)
      && Lookup(s'.table, runId, answer.lease.key) == Some(answer.lease) && RowOf(s'.table, runId, leaseId) == Some(answer.lease)
      && (forall k :: k != Slot(runId, answer.lease.key) ==> (k in s'.table <==> k in s.table) && (k in s.table ==> s'.table[k] == s.table[k]))
      && (if found.value.status == Done then s'.logs == s.logs
          else runId in s.logs && s'.logs == s.logs[runId := s.logs[runId] + [Message("system", leaseId, LeaseNote(answer.lease))]])
  {
    var found := RowOf(s.table, runId, leaseId).value;
    var k :| IsRow(s.table, k, runId, leaseId) && s.table[k] == found;
    var s' := TableCall(s, Complete(runId, leaseId, now)).0;
    RowIsUnique(s'.table, k);
  }

  /** The same for the log, which finds the completed lease under its key and its id from then on. */
  lemma LogCompletes(s: TableState, logs: Logs, issued: set<string>, runId: string, leaseId: string, now: string)
    requires Related(s, logs, issued) && LogCall(logs, Complete(runId, leaseId, now)).1.Leased?
    ensures var (logs', answer) := LogCall(logs, Complete(runId, leaseId, now));
      && runId in logs && runId in logs'
      && var found := FindByLease(logs[runId], runId, leaseId);
         && found.Some? && answer.lease.status == Done && Completes(found.value, now, answer.lease)
         && Find(logs'[runId], runId, answer.lease.key) == Some(answer.lease) && FindByLease(logs'[runId], runId, leaseId) == Some(answer.lease)
         && (if found.value.status == Done then logs' == logs
             else logs' == logs[runId := logs[runId] + [Message("system", leaseId, LeaseNote(answer.lease))]])
  {
    hide Related, TableCall, TableOk, RowOf;
    CallRefines(s, logs, issued, Complete(runId, leaseId, now));
    RelatedIsOk(s, logs, issued);
    TableCompletes(s, runId, leaseId, now);
    var answer := LogCall(logs, Complete(runId, leaseId, now)).1;
    RelatedFinds(s, logs, issued, runId, answer.lease.key, leaseId);
    RelatedFinds(TableCall(s, Complete(runId, leaseId, now)).0, LogCall(logs, Complete(runId, leaseId, now)).0,
                 issued + IssuedBy(Complete(runId, leaseId, now)), runId, answer.lease.key, leaseId);
    RelatedLogs(s, logs, issued);
    RelatedLogs(TableCall(s, Complete(runId, leaseId, now)).0, LogCall(logs, Complete(runId, leaseId, now)).0,
                issued + IssuedBy(Complete(runId, leaseId, now)));
  }

  lemma RelatedIsOk(s: TableState, logs: Logs, issued: set<string>)
    requires Related(s, logs, issued)
    ensures TableOk(s.table)
  {
    hide TableOk, SameRows;
  }

  lemma RelatedLogs(s: TableState, logs: Logs, issued: set<string>)
    requires Related(s, logs, issued)
    ensures s.logs == logs
  {
    hide TableOk, SameRows;
  }

  lemma RelatedFinds(s: TableState, logs: Logs, issued: set<string>, runId: string, key: string, leaseId: string)
    requires Related(s, logs, issued)
    ensures runId in logs ==>
      Find(logs[runId], runId, key) == Lookup(s.table, runId, key) && FindByLease(logs[runId], runId, leaseId) == RowOf(s.table, runId, leaseId)
  {
    hide TableOk, Find, FindByLease, RowOf;
  }

  /** A completion is answered exactly when the run has minted a lease with that id; otherwise the lease is unknown. */
  lemma CompletionIsAnsweredExactly(calls: seq<Call>, i: nat, j: nat, runId: string, key: string)
    requires DistinctLeases(calls) && Mints(calls, i, runId, key) && i < j < |calls| && Ends(calls[j], runId, calls[i].leaseId)
    ensures TableAnswer(calls, j) == LogAnswer(calls, j) && TableAnswer(calls, j).Leased?
    ensures TableAnswer(calls, j).lease.status == Done && Tells(calls, i, j + 1, TableAnswer(calls, j).lease)
  {
    hide RowOf, Find, FindByLease, TableAt, LogAt, Tells, Mints;
    MintHasKey(calls, i, runId, key);
    var l := LeaseIsWhatWasCalled(calls, i, j, runId, key);
    var l' := LeaseIsWhatWasCalled(calls, i, j + 1, runId, key);
    AtNext(calls, j);
    AtRelated(calls, j);
    TellsItsId(calls, i, j, l);
    TellsTheKey(calls, i, j, l);
    TellsStatus(calls, i, j + 1, l');
    RelatedLogs(TableAt(calls, j), LogAt(calls, j), Issued(calls, j));
  }

  /** A lease id that no reservation of the run minted is unknown to both forms, and nothing is stored. */
  lemma UnknownLeaseIsRefused(calls: seq<Call>, j: nat)
    requires DistinctLeases(calls) && j < |calls| && calls[j].Complete? && Created(calls, j, calls[j].runId)
    requires forall i: nat :: i < j && calls[i].Reserve? && calls[i].leaseId == calls[j].leaseId ==> !Mints(calls, i, calls[j].runId, calls[i].request.key)
    ensures TableAnswer(calls, j) == LogAnswer(calls, j) == Raised(UnknownLease)
    ensures TableAt(calls, j + 1) == TableAt(calls, j) && LogAt(calls, j + 1) == LogAt(calls, j)
  {
    hide TableAt, LogAt, Find, FindByLease, Mints, Created;
    var runId, leaseId := calls[j].runId, calls[j].leaseId;
    AtRelated(calls, j);
    AtNext(calls, j);
    SessionsAreTheCreated(calls, j, runId);
    RelatedIsOk(TableAt(calls, j), LogAt(calls, j), Issued(calls, j));
    RelatedFinds(TableAt(calls, j), LogAt(calls, j), Issued(calls, j), runId, "", leaseId);
    if k :| IsRow(TableAt(calls, j).table, k, runId, leaseId) {
      var i := RowWasMinted(calls, j, runId, k.key);
    }
  }

  lemma RowWasMinted(calls: seq<Call>, j: nat, runId: string, key: string) returns (i: nat)
    requires DistinctLeases(calls) && j <= |calls| && Lookup(TableAt(calls, j).table, runId, key).Some?
    ensures i < j && Mints(calls, i, runId, key) && calls[i].Reserve? && calls[i].request.key == key
    ensures calls[i].leaseId == Lookup(TableAt(calls, j).table, runId, key).value.leaseId
  {
    hide TableAt, LogAt, Find, FindByLease, Created, Asks, RowOf;
    if forall k :: 0 <= k < j && Asks(calls[k], runId, key) ==> !Created(calls, k, runId) {
      NoLeaseYet(calls, j, runId, key);
    }
    var k :| 0 <= k < j && Asks(calls[k], runId, key) && Created(calls, k, runId);
    i := FirstMint(calls, k, runId, key);
    MintHasKey(calls, i, runId, key);
    var l := LeaseIsWhatWasCalled(calls, i, j, runId, key);
    TellsItsId(calls, i, j, l);
  }
}
