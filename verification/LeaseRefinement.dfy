/**
 The reversed log scan and the lease table give the same answers, and the fold
 of the audit log yields exactly the table's leases.
 */
module LeaseRefinement {
  import opened Wrappers
  import opened Contracts
  import opened Ordering
  import opened Text
  import opened Leases

  // Scanning the log of a run gives the table's rows of that run, by key and by lease id.
  ghost predicate SameRows(t: Table, runId: string, messages: seq<Message>) {
    && (forall key :: Find(messages, runId, key) == Lookup(t, runId, key))
    && (forall id :: FindByLease(messages, runId, id) == RowOf(t, runId, id))
    && (forall m :: m in messages && m.note.LeaseNote? ==> !Blank(m.note.lease.key))
  }

  // `issued` holds the lease ids handed out so far.
  ghost predicate Related(s: TableState, logs: Logs, issued: set<string>) {
    && s.logs == logs
    && TableOk(s.table)
    && (forall k :: k in s.table ==> k.runId in logs && s.table[k].leaseId in issued)
    && (forall r :: r in logs ==> SameRows(s.table, r, logs[r]))
  }

  ghost predicate FreshLease(c: Call, issued: set<string>) {
    c.Reserve? ==> c.leaseId !in issued
  }

  function IssuedBy(c: Call): set<string> { if c.Reserve? then {c.leaseId} else {} }

  // The two forms raise different errors for an unknown run, and only there.
  predicate SessionKnown(c: Call, logs: Logs) {
    match c
    case Reserve(q, _, _) => HasBlankField(q) || q.runId in logs
    case Complete(runId, _, _) => runId in logs
    case Get(runId, _) => runId in logs
    case _ => true
  }

  lemma AppendOther(t: Table, runId: string, messages: seq<Message>, m: Message)
    requires SameRows(t, runId, messages) && !m.note.LeaseNote?
    ensures SameRows(t, runId, messages + [m])
  {
    assert (messages + [m])[..|messages|] == messages;
  }

  // Writing a row and appending its audit message keeps the two in step.
  lemma AppendAudit(t: Table, runId: string, messages: seq<Message>, l: Lease)
    requires SameRows(t, runId, messages) && TableOk(t)
    requires l.runId == runId && !Blank(l.key)
    requires forall k :: k in t && t[k].leaseId == l.leaseId ==> k == Slot(runId, l.key)
    requires Slot(runId, l.key) in t ==> t[Slot(runId, l.key)].leaseId == l.leaseId
    ensures TableOk(t[Slot(runId, l.key) := l])
    ensures SameRows(t[Slot(runId, l.key) := l], runId, messages + [Audit(l)])
  {
    var k0 := Slot(runId, l.key);
    var t' := t[k0 := l];
    var log := messages + [Audit(l)];
    assert log[..|messages|] == messages;
    assert FromNote(runId, l) == l;
    RowIsUnique(t', k0);
    forall key ensures Find(log, runId, key) == Lookup(t', runId, key) {
      assert Find(messages, runId, key) == Lookup(t, runId, key);
    }
    forall id ensures FindByLease(log, runId, id) == RowOf(t', runId, id) {
      if id != l.leaseId {
        assert FindByLease(messages, runId, id) == RowOf(t, runId, id);
        forall k ensures IsRow(t, k, runId, id) <==> IsRow(t', k, runId, id) {}
        if k :| IsRow(t, k, runId, id) { RowIsUnique(t, k); RowIsUnique(t', k); }
      }
    }
  }

  lemma OtherRunUnaffected(t: Table, runId: string, messages: seq<Message>, l: Lease)
    requires SameRows(t, runId, messages) && TableOk(t) && TableOk(t[Slot(l.runId, l.key) := l]) && runId != l.runId
    ensures SameRows(t[Slot(l.runId, l.key) := l], runId, messages)
  {
    var t' := t[Slot(l.runId, l.key) := l];
    forall id ensures RowOf(t, runId, id) == RowOf(t', runId, id) {
      forall k ensures IsRow(t, k, runId, id) <==> IsRow(t', k, runId, id) {}
      if k :| IsRow(t, k, runId, id) { RowIsUnique(t, k); RowIsUnique(t', k); }
    }
  }

  lemma WriteRow(s: TableState, logs: Logs, issued: set<string>, issued': set<string>, l: Lease)
    requires Related(s, logs, issued) && issued <= issued' && l.leaseId in issued'
    requires l.runId in logs && !Blank(l.key)
    requires forall k :: k in s.table && s.table[k].leaseId == l.leaseId ==> k == Slot(l.runId, l.key)
    requires Slot(l.runId, l.key) in s.table ==> s.table[Slot(l.runId, l.key)].leaseId == l.leaseId
    ensures var logs' := Append(logs, l.runId, Audit(l));
      Related(TableState(s.table[Slot(l.runId, l.key) := l], logs'), logs', issued')
  {
    AppendAudit(s.table, l.runId, logs[l.runId], l);
    forall r | r in logs && r != l.runId ensures SameRows(s.table[Slot(l.runId, l.key) := l], r, logs[r]) {
      OtherRunUnaffected(s.table, r, logs[r], l);
    }
  }

  lemma FoundRowIsInTable(t: Table, runId: string, messages: seq<Message>, leaseId: string) returns (k: Slot)
    requires SameRows(t, runId, messages) && TableOk(t) && FindByLease(messages, runId, leaseId).Some?
    ensures k in t && k.runId == runId && t[k].leaseId == leaseId && k == Slot(runId, t[k].key)
    ensures FindByLease(messages, runId, leaseId).value == t[k]
  {
    assert RowOf(t, runId, leaseId).Some?;
    k :| IsRow(t, k, runId, leaseId) && RowOf(t, runId, leaseId).value == t[k];
  }

  lemma KeyOfARowIsNotBlank(t: Table, runId: string, messages: seq<Message>, key: string)
    requires SameRows(t, runId, messages) && Lookup(t, runId, key).Some?
    ensures !Blank(key)
  {
    FoundKeyIsNoted(messages, runId, key);
  }

  lemma {:induction false} FoundKeyIsNoted(messages: seq<Message>, runId: string, key: string)
    requires Find(messages, runId, key).Some?
    ensures exists m :: m in messages && NotesKey(m, key)
  {
    var last := messages[|messages| - 1];
    if !NotesKey(last, key) { FoundKeyIsNoted(messages[..|messages| - 1], runId, key); }
    else { assert last in messages; }
  }

  // One call: the states stay related, and the answers differ only on an unknown run.
  lemma CallRefines(s: TableState, logs: Logs, issued: set<string>, c: Call)
    requires Related(s, logs, issued) && FreshLease(c, issued)
    ensures Related(TableCall(s, c).0, LogCall(logs, c).0, issued + IssuedBy(c))
    ensures TableCall(s, c).1 == LogCall(logs, c).1 <==> SessionKnown(c, logs)
  {
    match c {
      case CreateRun(runId) =>
        if runId !in logs {
          forall id ensures RowOf(s.table, runId, id) == None {}
        }
      case Chat(runId, m) =>
        if runId in logs && !m.note.LeaseNote? { AppendOther(s.table, runId, logs[runId], m); }
      case Reserve(q, leaseId, now) =>
        if !HasBlankField(q) && q.runId in logs && Lookup(s.table, q.runId, q.key).None? {
          WriteRow(s, logs, issued, issued + {leaseId}, NewLease(q, leaseId, now));
        }
      case Complete(runId, leaseId, now) =>
        if runId in logs {
          if FindByLease(logs[runId], runId, leaseId).Some? {
            var k := FoundRowIsInTable(s.table, runId, logs[runId], leaseId);
            KeyOfARowIsNotBlank(s.table, runId, logs[runId], k.key);
            if s.table[k].status != Done { WriteRow(s, logs, issued, issued, Finished(s.table[k], now)); }
          }
        } else {
          assert RowOf(s.table, runId, leaseId).None?;
        }
      case Get(runId, key) =>
    }
  }

  // ----- Whole histories -----

  ghost predicate FreshLeases(calls: seq<Call>, issued: set<string>)
    decreases |calls|
  {
    calls == [] || (FreshLease(calls[0], issued) && FreshLeases(calls[1..], issued + IssuedBy(calls[0])))
  }

  ghost function TableAnswers(s: TableState, calls: seq<Call>): (TableState, seq<Answer>)
    decreases |calls|
  {
    if calls == [] then (s, [])
    else
      var (s', a) := TableCall(s, calls[0]);
      var (s'', rest) := TableAnswers(s', calls[1..]);
      (s'', [a] + rest)
  }

  function LogAnswers(logs: Logs, calls: seq<Call>): (Logs, seq<Answer>)
    decreases |calls|
  {
    if calls == [] then (logs, [])
    else
      var (logs', a) := LogCall(logs, calls[0]);
      var (logs'', rest) := LogAnswers(logs', calls[1..]);
      (logs'', [a] + rest)
  }

  function LogsBefore(logs: Logs, calls: seq<Call>, i: nat): Logs
    requires i <= |calls|
    decreases i
  {
    if i == 0 then logs else LogsBefore(LogCall(logs, calls[0]).0, calls[1..], i - 1)
  }

  // Over every history, table and log answer the i-th call alike exactly when its run is known then.
  lemma {:induction false} LogRefinesTable(s: TableState, logs: Logs, issued: set<string>, calls: seq<Call>) returns (issued': set<string>)
    requires Related(s, logs, issued) && FreshLeases(calls, issued)
    ensures Related(TableAnswers(s, calls).0, LogAnswers(logs, calls).0, issued')
    ensures |TableAnswers(s, calls).1| == |LogAnswers(logs, calls).1| == |calls|
    ensures forall i :: 0 <= i < |calls| ==>
      (TableAnswers(s, calls).1[i] == LogAnswers(logs, calls).1[i] <==> SessionKnown(calls[i], LogsBefore(logs, calls, i)))
    decreases |calls|
  {
    issued' := issued;
    if calls != [] {
      CallRefines(s, logs, issued, calls[0]);
      issued' := LogRefinesTable(TableCall(s, calls[0]).0, LogCall(logs, calls[0]).0, issued + IssuedBy(calls[0]), calls[1..]);
      forall i | 0 < i < |calls|
        ensures TableAnswers(s, calls).1[i] == LogAnswers(logs, calls).1[i] <==> SessionKnown(calls[i], LogsBefore(logs, calls, i))
      {
        assert TableAnswers(s, calls).1[i] == TableAnswers(TableCall(s, calls[0]).0, calls[1..]).1[i - 1];
        assert LogAnswers(logs, calls).1[i] == LogAnswers(LogCall(logs, calls[0]).0, calls[1..]).1[i - 1];
        assert calls[i] == calls[1..][i - 1];
      }
    }
  }

  lemma EmptyIsRelated()
    ensures Related(TableState(map[], map[]), map[], {})
  {}

  // From an empty database and an empty session store: the whole life of a lease service.
  lemma LogServiceRefinesTableService(calls: seq<Call>)
    requires FreshLeases(calls, {})
    ensures |TableAnswers(TableState(map[], map[]), calls).1| == |LogAnswers(map[], calls).1| == |calls|
    ensures forall i :: 0 <= i < |calls| ==>
      (TableAnswers(TableState(map[], map[]), calls).1[i] == LogAnswers(map[], calls).1[i]
       <==> SessionKnown(calls[i], LogsBefore(map[], calls, i)))
  {
    EmptyIsRelated();
    var _ := LogRefinesTable(TableState(map[], map[]), map[], {}, calls);
  }

  // ----- The fold -----

  ghost predicate DistinctKeys(ls: seq<Lease>) {
    forall i, j :: 0 <= i < j < |ls| ==> ls[i].key != ls[j].key
  }

  lemma {:induction false} UpsertReplaces(latest: seq<Lease>, l: Lease)
    requires DistinctKeys(latest)
    ensures DistinctKeys(Upsert(latest, l))
    ensures forall x :: x in Upsert(latest, l) <==> x == l || (x in latest && x.key != l.key)
  {
    if latest != [] {
      assert latest == [latest[0]] + latest[1..];
      if latest[0].key == l.key {
        forall x | x in latest[1..] ensures x.key != l.key {}
      } else {
        UpsertReplaces(latest[1..], l);
        var rest := Upsert(latest[1..], l);
        forall x | x in rest ensures x.key != latest[0].key {
          if x in latest[1..] { var j :| 0 <= j < |latest| - 1 && latest[1..][j] == x; assert latest[j + 1] == x; }
        }
        forall i, j | 0 <= i < j < |rest| + 1 ensures ([latest[0]] + rest)[i].key != ([latest[0]] + rest)[j].key {
          assert rest[j - 1] in rest;
        }
      }
    }
  }

  lemma {:induction false} FoldIsFind(messages: seq<Message>, runId: string)
    ensures DistinctKeys(Fold(messages, runId))
    ensures forall x :: x in Fold(messages, runId) <==> !Blank(x.key) && Find(messages, runId, x.key) == Some(x)
  {
    if messages != [] {
      var last := messages[|messages| - 1];
      FoldIsFind(messages[..|messages| - 1], runId);
      if last.note.LeaseNote? && !Blank(last.note.lease.key) {
        UpsertReplaces(Fold(messages[..|messages| - 1], runId), FromNote(runId, last.note.lease));
        FindMatchesKey(messages, runId);
      }
    }
  }

  lemma {:induction false} FindMatchesKey(messages: seq<Message>, runId: string)
    ensures forall key :: Find(messages, runId, key).Some? ==> Find(messages, runId, key).value.key == key
  {
    if messages != [] { FindMatchesKey(messages[..|messages| - 1], runId); }
  }

  lemma LeaseOrderIsTotal()
    ensures TotalOrder(LeaseLe)
  {
    StringLeIsTotalOrder();
    forall a, b, c | LeaseLe(a, b) && LeaseLe(b, c) ensures LeaseLe(a, c) {
      StringLeTotal(a.workerId, b.workerId); StringLeTotal(a.taskId, b.taskId);
      StringLeTotal(b.workerId, c.workerId); StringLeTotal(b.taskId, c.taskId);
      StringLeTotal(a.workerId, c.workerId); StringLeTotal(a.taskId, c.taskId);
    }
  }

  /** The listing goes up by worker; the leases of one worker by task; those of one worker and task by key. */
  lemma ListingIsOrdered(messages: seq<Message>, runId: string, i: nat, j: nat)
    requires i < j < |LatestLeases(messages, runId)|
    ensures var a, b := LatestLeases(messages, runId)[i], LatestLeases(messages, runId)[j];
      && Precedes(a.workerId, b.workerId)
      && (a.workerId == b.workerId ==> Precedes(a.taskId, b.taskId))
      && (a.workerId == b.workerId && a.taskId == b.taskId ==> Precedes(a.key, b.key))
  {
    hide Precedes, StringLe, Fold, Sort;
    LeaseOrderIsTotal();
    SortSorted(LeaseLe, Fold(messages, runId));
    var a, b := LatestLeases(messages, runId)[i], LatestLeases(messages, runId)[j];
    assert LeaseLe(a, b);
    StringLeTotal(a.workerId, b.workerId);
    StringLeTotal(a.taskId, b.taskId);
    StringLeIsLexicographic(a.workerId, b.workerId);
    StringLeIsLexicographic(a.taskId, b.taskId);
    StringLeIsLexicographic(a.key, b.key);
  }

  // The rows of one run, each once, ordered by worker, task and key.
  ghost predicate ListsRows(ls: seq<Lease>, t: Table, runId: string) {
    && NoDuplicates(ls) && SortedBy(LeaseLe, ls)
    && forall l :: l in ls <==> Lookup(t, runId, l.key) == Some(l)
  }

  // Folding the audit log of a run yields exactly the table's leases of that run.
  lemma FoldListsTheTable(s: TableState, logs: Logs, issued: set<string>, runId: string)
    requires Related(s, logs, issued) && runId in logs
    ensures ListsRows(LatestLeases(logs[runId], runId), s.table, runId)
  {
    var folded := Fold(logs[runId], runId);
    FoldIsFind(logs[runId], runId);
    SortKeepsNoDuplicates(LeaseLe, folded);
    LeaseOrderIsTotal();
    SortSorted(LeaseLe, folded);
    forall l ensures l in folded <==> Lookup(s.table, runId, l.key) == Some(l) {
      assert Find(logs[runId], runId, l.key) == Lookup(s.table, runId, l.key);
      if Lookup(s.table, runId, l.key) == Some(l) { KeyOfARowIsNotBlank(s.table, runId, logs[runId], l.key); }
    }
  }

  // That list depends on the rows alone, so not on how the messages of different keys interleave.
  lemma ListingIsUnique(a: seq<Lease>, b: seq<Lease>, t: Table, runId: string)
    requires ListsRows(a, t, runId) && ListsRows(b, t, runId)
    ensures a == b
  {
    forall x ensures x in a <==> x in b {}
    SameElementsSameMultiset(a, b);
    LeaseOrderIsTotal();
    forall x, y | x in a && y in a && LeaseLe(x, y) && LeaseLe(y, x) ensures x == y {
      StringLeTotal(x.workerId, y.workerId);
      StringLeTotal(x.taskId, y.taskId);
      StringLeTotal(x.key, y.key);
    }
    SortedUnique(LeaseLe, a, b);
  }
}
