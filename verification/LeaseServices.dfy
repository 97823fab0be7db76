/** The two lease services as objects; each method performs one call of Leases. */
module LeaseServices {
  import opened Wrappers
  import opened Contracts
  import opened Ordering
  import opened Text
  import opened Leases

  // Leases kept as messages and looked up by scanning a session backwards.
  class LogLeaseService {
    var logs: Logs

    constructor ()
      ensures logs == map[]
    {
      logs := map[];
    }

    method FindLease(runId: string, key: string) returns (found: Option<Lease>)
      requires runId in logs
      ensures found == Find(logs[runId], runId, key)
    {
      var messages := logs[runId];
      var i := |messages|;
      assert messages[..i] == messages;
      while i > 0
        invariant 0 <= i <= |messages|
        invariant Find(messages, runId, key) == Find(messages[..i], runId, key)
      {
        i := i - 1;
        assert messages[..i + 1][..i] == messages[..i];
        if !NotesKey(messages[i], key) { continue; }
        return Some(FromNote(runId, messages[i].note.lease));
      }
      found := None;
    }

    method FindLeaseById(runId: string, leaseId: string) returns (found: Option<Lease>)
      requires runId in logs
      ensures found == FindByLease(logs[runId], runId, leaseId)
    {
      var messages := logs[runId];
      var i := |messages|;
      assert messages[..i] == messages;
      while i > 0
        invariant 0 <= i <= |messages|
        invariant FindByLease(messages, runId, leaseId) == FindByLease(messages[..i], runId, leaseId)
      {
        i := i - 1;
        assert messages[..i + 1][..i] == messages[..i];
        if !NotesLease(messages[i], leaseId) { continue; }
        return Some(FromNote(runId, messages[i].note.lease));
      }
      found := None;
    }

    method Reserve(q: Request, leaseId: string, now: string) returns (answer: Answer)
      modifies this
      ensures (logs, answer) == LogCall(old(logs), Call.Reserve(q, leaseId, now))
    {
      if HasBlankField(q) { return Raised(EmptyIdentifier); }
      if q.runId !in logs { return Raised(SessionMissing); }
      var existing := FindLease(q.runId, q.key);
      if existing.Some? {
        return if existing.value.status == Done then Leased(existing.value) else Raised(AlreadyActive);
      }
      var lease := NewLease(q, leaseId, now);
      logs := Append(logs, q.runId, Audit(lease));
      answer := Leased(lease);
    }

    method Complete(runId: string, leaseId: string, now: string) returns (answer: Answer)
      modifies this
      ensures (logs, answer) == LogCall(old(logs), Call.Complete(runId, leaseId, now))
    {
      if runId !in logs { return Raised(SessionMissing); }
      var current := FindLeaseById(runId, leaseId);
      if current.None? { return Raised(UnknownLease); }
      if current.value.status == Done { return Leased(current.value); }
      var completed := Finished(current.value, now);
      logs := Append(logs, runId, Audit(completed));
      answer := Leased(completed);
    }

    method Get(runId: string, key: string) returns (answer: Answer)
      ensures (logs, answer) == LogCall(logs, Call.Get(runId, key))
    {
      if runId !in logs { return Raised(SessionMissing); }
      var found := FindLease(runId, key);
      answer := Looked(found);
    }

    // RunExecutionReconciliationService._latest_leases
    method Latest(runId: string) returns (leases: seq<Lease>)
      requires runId in logs
      ensures leases == LatestLeases(logs[runId], runId)
    {
      var messages := logs[runId];
      var latest: seq<Lease> := [];
      for i := 0 to |messages|
        invariant latest == Fold(messages[..i], runId)
      {
        assert messages[..i + 1][..i] == messages[..i];
        var note := messages[i].note;
        if !note.LeaseNote? { continue; }
        if Blank(note.lease.key) { continue; }
        latest := Upsert(latest, FromNote(runId, note.lease));
      }
      assert messages[..|messages|] == messages;
      leases := Sort(LeaseLe, latest);
    }
  }

  // Leases kept as rows; the unique constraint decides who reserves.
  class SqliteLeaseService {
    var table: Table
    var logs: Logs

    constructor ()
      ensures table == map[] && logs == map[]
    {
      table, logs := map[], map[];
    }

    method SelectByLease(runId: string, leaseId: string) returns (row: Option<Lease>)
      requires TableOk(table)
      ensures row == RowOf(table, runId, leaseId)
    {
      var slots := table.Keys;
      while slots != {}
        invariant slots <= table.Keys
        invariant forall k :: IsRow(table, k, runId, leaseId) ==> k in slots
        decreases slots
      {
        var k :| k in slots;
        if k.runId == runId && table[k].leaseId == leaseId {
          RowIsUnique(table, k);
          return Some(table[k]);
        }
        slots := slots - {k};
      }
      row := None;
    }

    method DeleteByLease(leaseId: string)
      requires TableOk(table)
      modifies this`table
      ensures TableOk(table)
      ensures table == map k | k in old(table) && old(table)[k].leaseId != leaseId :: old(table)[k]
    {
      table := map k | k in table && table[k].leaseId != leaseId :: table[k];
    }

    // A session that is not there makes add_message raise.
    method AuditLease(l: Lease) returns (audited: bool)
      modifies this`logs
      ensures audited == (l.runId in old(logs))
      ensures logs == if audited then Append(old(logs), l.runId, Audit(l)) else old(logs)
    {
      audited := l.runId in logs;
      if audited { logs := Append(logs, l.runId, Audit(l)); }
    }

    method Reserve(q: Request, leaseId: string, now: string) returns (answer: Answer)
      requires TableOk(table) && forall k :: k in table ==> table[k].leaseId != leaseId
      modifies this
      ensures TableOk(table)
      ensures (TableState(table, logs), answer) == TableCall(old(TableState(table, logs)), Call.Reserve(q, leaseId, now))
    {
      if HasBlankField(q) { return Raised(EmptyIdentifier); }
      var lease := NewLease(q, leaseId, now);
      if Slot(q.runId, q.key) in table {
        var existing := table[Slot(q.runId, q.key)];
        return if existing.status == Done then Leased(existing) else Raised(AlreadyActive);
      }
      table := table[Slot(q.runId, q.key) := lease];
      var audited := AuditLease(lease);
      if !audited {
        DeleteByLease(leaseId);
        assert table == old(table);
        return Raised(AuditFailed);
      }
      answer := Leased(lease);
    }

    method Complete(runId: string, leaseId: string, now: string) returns (answer: Answer)
      requires TableOk(table)
      modifies this
      ensures TableOk(table)
      ensures (TableState(table, logs), answer) == TableCall(old(TableState(table, logs)), Call.Complete(runId, leaseId, now))
    {
      var current := SelectByLease(runId, leaseId);
      if current.None? { return Raised(UnknownLease); }
      if current.value.status == Done { return Leased(current.value); }
      var completed := Finished(current.value, now);
      table := table[Slot(runId, completed.key) := completed];
      var audited := AuditLease(completed);
      if !audited { return Raised(SessionMissing); }
      answer := Leased(completed);
    }

    method Get(runId: string, key: string) returns (answer: Answer)
      ensures (TableState(table, logs), answer) == TableCall(TableState(table, logs), Call.Get(runId, key))
    {
      answer := Looked(if Slot(runId, key) in table then Some(table[Slot(runId, key)]) else None);
    }
  }
}
