/**
 Execution leases: an SQLite table with UNIQUE(run_id, idempotency_key), or an
 append-only message log that is scanned backwards.  The two are specified here
 call by call; LeaseRefinement shows that they answer alike.
 */
module Leases {
  import opened Wrappers
  import opened Contracts
  import opened Ordering
  import opened Text

  datatype Request = Request(runId: string, workerId: string, taskId: string, key: string, executionId: string)

  datatype LeaseError = EmptyIdentifier | AlreadyActive | UnknownLease | AuditFailed | SessionMissing

  predicate HasBlankField(r: Request) {
    Blank(r.runId) || Blank(r.workerId) || Blank(r.taskId) || Blank(r.key) || Blank(r.executionId)
  }

  function NewLease(r: Request, leaseId: string, now: string): Lease {
    Lease(leaseId, r.runId, r.workerId, r.taskId, r.key, r.executionId, Running, now)
  }

  function Finished(l: Lease, now: string): Lease { l.(status := Done, timestamp := now) }

  // The audit message written for a reservation or a completion.
  function Audit(l: Lease): Message { Message("system", l.leaseId, LeaseNote(l)) }

  // The messages of each session.
  type Logs = map<string, seq<Message>>

  function Append(logs: Logs, runId: string, m: Message): Logs
    requires runId in logs
  {
    logs[runId := logs[runId] + [m]]
  }

  // ----- The log: reversed scans -----

  function FromNote(runId: string, l: Lease): Lease { l.(runId := runId) }

  predicate NotesKey(m: Message, key: string) { m.note.LeaseNote? && m.note.lease.key == key }

  predicate NotesLease(m: Message, leaseId: string) { m.note.LeaseNote? && m.note.lease.leaseId == leaseId }

  function Find(messages: seq<Message>, runId: string, key: string): Option<Lease> {
    if messages == [] then None
    else
      var last := messages[|messages| - 1];
      if NotesKey(last, key) then Some(FromNote(runId, last.note.lease))
      else Find(messages[..|messages| - 1], runId, key)
  }

  function FindByLease(messages: seq<Message>, runId: string, leaseId: string): Option<Lease> {
    if messages == [] then None
    else
      var last := messages[|messages| - 1];
      if NotesLease(last, leaseId) then Some(FromNote(runId, last.note.lease))
      else FindByLease(messages[..|messages| - 1], runId, leaseId)
  }

  // ----- The table -----

  datatype Slot = Slot(runId: string, key: string)

  // Keyed by the UNIQUE(run_id, idempotency_key) constraint.
  type Table = map<Slot, Lease>

  function Lookup(t: Table, runId: string, key: string): Option<Lease> {
    if Slot(runId, key) in t then Some(t[Slot(runId, key)]) else None
  }

  ghost predicate IsRow(t: Table, k: Slot, runId: string, leaseId: string) {
    k in t && k.runId == runId && t[k].leaseId == leaseId
  }

  // SELECT ... WHERE run_id = ? AND lease_id = ?
  ghost function RowOf(t: Table, runId: string, leaseId: string): (r: Option<Lease>)
    ensures r.Some? ==> exists k :: IsRow(t, k, runId, leaseId) && r.value == t[k]
    ensures r.None? ==> forall k :: !IsRow(t, k, runId, leaseId)
  {
    if exists k :: IsRow(t, k, runId, leaseId) then
      var k :| IsRow(t, k, runId, leaseId);
      Some(t[k])
    else None
  }

  // lease_id is the primary key, and every row sits at its own run and key.
  ghost predicate TableOk(t: Table) {
    && (forall k :: k in t ==> t[k].runId == k.runId && t[k].key == k.key)
    && (forall k, l :: k in t && l in t && t[k].leaseId == t[l].leaseId ==> k == l)
  }

  lemma RowIsUnique(t: Table, k: Slot)
    requires TableOk(t) && k in t
    ensures RowOf(t, k.runId, t[k].leaseId) == Some(t[k])
  {
    assert IsRow(t, k, k.runId, t[k].leaseId);
  }

  // ----- One service instance, call by call -----

  datatype Call =
    | CreateRun(runId: string)
    | Chat(runId: string, message: Message)
    | Reserve(request: Request, leaseId: string, now: string)
    | Complete(runId: string, leaseId: string, now: string)
    | Get(runId: string, key: string)

  datatype Answer = Nothing | Leased(lease: Lease) | Looked(found: Option<Lease>) | Raised(error: LeaseError)

  function Sessions(logs: Logs, c: Call): Logs {
    match c
    case CreateRun(runId) => if runId in logs then logs else logs[runId := []]
    case Chat(runId, m) => if runId in logs && !m.note.LeaseNote? then Append(logs, runId, m) else logs
    case _ => logs
  }

  function LogCall(logs: Logs, c: Call): (Logs, Answer) {
    match c
    case Reserve(q, leaseId, now) =>
      if HasBlankField(q) then (logs, Raised(EmptyIdentifier))
      else if q.runId !in logs then (logs, Raised(SessionMissing))
      else
        (match Find(logs[q.runId], q.runId, q.key)
         case Some(existing) => (logs, if existing.status == Done then Leased(existing) else Raised(AlreadyActive))
         case None =>
           var lease := NewLease(q, leaseId, now);
           (Append(logs, q.runId, Audit(lease)), Leased(lease)))
    case Complete(runId, leaseId, now) =>
      if runId !in logs then (logs, Raised(SessionMissing))
      else
        (match FindByLease(logs[runId], runId, leaseId)
         case None => (logs, Raised(UnknownLease))
         case Some(current) =>
           if current.status == Done then (logs, Leased(current))
           else (Append(logs, runId, Audit(Finished(current, now))), Leased(Finished(current, now))))
    case Get(runId, key) =>
      if runId !in logs then (logs, Raised(SessionMissing)) else (logs, Looked(Find(logs[runId], runId, key)))
    case _ => (Sessions(logs, c), Nothing)
  }

  datatype TableState = TableState(table: Table, logs: Logs)

  ghost function TableCall(s: TableState, c: Call): (TableState, Answer) {
    match c
    case Reserve(q, leaseId, now) =>
      if HasBlankField(q) then (s, Raised(EmptyIdentifier))
      else
        (match Lookup(s.table, q.runId, q.key)
         case Some(existing) => (s, if existing.status == Done then Leased(existing) else Raised(AlreadyActive))
         case None =>
           var lease := NewLease(q, leaseId, now);
           // A reservation whose audit message cannot be stored is deleted again.
           if q.runId !in s.logs then (s, Raised(AuditFailed))
           else (TableState(s.table[Slot(q.runId, q.key) := lease], Append(s.logs, q.runId, Audit(lease))), Leased(lease)))
    case Complete(runId, leaseId, now) =>
      (match RowOf(s.table, runId, leaseId)
       case None => (s, Raised(UnknownLease))
       case Some(current) =>
         if current.status == Done then (s, Leased(current))
         else
           var finished := Finished(current, now);
           var table := s.table[Slot(runId, current.key) := finished];
           if runId !in s.logs then (s.(table := table), Raised(SessionMissing))
           else (TableState(table, Append(s.logs, runId, Audit(finished))), Leased(finished)))
    case Get(runId, key) => (s, Looked(Lookup(s.table, runId, key)))
    case _ => (s.(logs := Sessions(s.logs, c)), Nothing)
  }

  // ----- The audit log folded into one lease per key (reconciliation_batch.py) -----

  predicate LeaseLe(a: Lease, b: Lease) {
    if a.workerId != b.workerId then StringLe(a.workerId, b.workerId)
    else if a.taskId != b.taskId then StringLe(a.taskId, b.taskId)
    else StringLe(a.key, b.key)
  }

  // Setting a key of a dictionary that remembers insertion order.
  function Upsert(latest: seq<Lease>, l: Lease): seq<Lease> {
    if latest == [] then [l]
    else if latest[0].key == l.key then [l] + latest[1..]
    else [latest[0]] + Upsert(latest[1..], l)
  }

  function Fold(messages: seq<Message>, runId: string): seq<Lease> {
    if messages == [] then []
    else
      var last := messages[|messages| - 1];
      var before := Fold(messages[..|messages| - 1], runId);
      if last.note.LeaseNote? && !Blank(last.note.lease.key)
      then Upsert(before, FromNote(runId, last.note.lease)) else before
  }

  function LatestLeases(messages: seq<Message>, runId: string): seq<Lease> {
    Sort(LeaseLe, Fold(messages, runId))
  }

  // ----- The identity of a unit of work -----

  const SEPARATOR: char := 31 as char

  // The material that is hashed into an idempotency key.
  function KeyMaterial(runId: string, workerId: string, taskId: string, language: string, code: string): string {
    runId + [SEPARATOR] + workerId + [SEPARATOR] + taskId + [SEPARATOR] + language + [SEPARATOR] + code
  }

  function FirstSeparator(s: string): nat {
    if s == [] || s[0] == SEPARATOR then 0 else 1 + FirstSeparator(s[1..])
  }

  lemma {:induction false} FirstSeparatorEndsTheField(a: string, rest: string)
    requires SEPARATOR !in a
    ensures FirstSeparator(a + [SEPARATOR] + rest) == |a|
  {
    if a != [] {
      FirstSeparatorEndsTheField(a[1..], rest);
      assert (a + [SEPARATOR] + rest)[1..] == a[1..] + [SEPARATOR] + rest;
    }
  }

  lemma FieldIsRecovered(a: string, rest: string, b: string, rest': string)
    requires SEPARATOR !in a && SEPARATOR !in b
    requires a + [SEPARATOR] + rest == b + [SEPARATOR] + rest'
    ensures a == b && rest == rest'
  {
    var s := a + [SEPARATOR] + rest;
    FirstSeparatorEndsTheField(a, rest);
    FirstSeparatorEndsTheField(b, rest');
    assert s[..|a|] == a && s[..|b|] == b;
    assert s[|a| + 1..] == rest && s[|b| + 1..] == rest';
  }

  // Different work never shares a key, provided the first four fields hold no separator.
  lemma KeyMaterialIsInjective(r: string, w: string, t: string, l: string, c: string, r': string, w': string, t': string, l': string, c': string)
    requires forall f :: f in {r, w, t, l, r', w', t', l'} ==> SEPARATOR !in f
    requires KeyMaterial(r, w, t, l, c) == KeyMaterial(r', w', t', l', c')
    ensures (r, w, t, l, c) == (r', w', t', l', c')
  {
    var s := [SEPARATOR];
    assert KeyMaterial(r, w, t, l, c) == r + s + (w + s + (t + s + (l + s + c)));
    assert KeyMaterial(r', w', t', l', c') == r' + s + (w' + s + (t' + s + (l' + s + c')));
    FieldIsRecovered(r, w + s + (t + s + (l + s + c)), r', w' + s + (t' + s + (l' + s + c')));
    FieldIsRecovered(w, t + s + (l + s + c), w', t' + s + (l' + s + c'));
    FieldIsRecovered(t, l + s + c, t', l' + s + c');
    FieldIsRecovered(l, c, l', c');
  }

  // ----- Exactly when a key identifies its work -----

  /** What an idempotency key is made of. */
  datatype WorkUnit = WorkUnit(runId: string, workerId: string, taskId: string, language: string, code: string)

  function MaterialOf(w: WorkUnit): string { KeyMaterial(w.runId, w.workerId, w.taskId, w.language, w.code) }

  // The separators stand only between the fields and in the code.
  predicate Clean(w: WorkUnit) {
    SEPARATOR !in w.runId && SEPARATOR !in w.workerId && SEPARATOR !in w.taskId && SEPARATOR !in w.language
  }

  function Separators(s: string): nat {
    if s == [] then 0 else (if s[0] == SEPARATOR then 1 else 0) + Separators(s[1..])
  }

  lemma {:induction false} SeparatorsAdd(a: string, b: string)
    ensures Separators(a + b) == Separators(a) + Separators(b)
  {
    if a == [] {
      assert a + b == b;
    } else {
      SeparatorsAdd(a[1..], b);
      assert (a + b)[1..] == a[1..] + b;
    }
  }

  lemma {:induction false} NoSeparators(s: string)
    ensures Separators(s) == 0 <==> SEPARATOR !in s
  {
    if s != [] { NoSeparators(s[1..]); }
  }

  // Everything before the first separator, and everything after it.
  lemma {:induction false} SplitAtFirst(s: string) returns (field: string, rest: string)
    requires Separators(s) > 0
    ensures s == field + [SEPARATOR] + rest && SEPARATOR !in field && Separators(rest) == Separators(s) - 1
  {
    if s[0] == SEPARATOR {
      field, rest := [], s[1..];
    } else {
      field, rest := SplitAtFirst(s[1..]);
      field := [s[0]] + field;
    }
  }

  lemma SeparatorsOfMaterial(w: WorkUnit)
    ensures Separators(MaterialOf(w)) ==
      4 + Separators(w.runId) + Separators(w.workerId) + Separators(w.taskId) + Separators(w.language) + Separators(w.code)
  {
    var s := [SEPARATOR];
    assert s[1..] == [];
    SeparatorsAdd(w.runId, s);
    SeparatorsAdd(w.runId + s, w.workerId);
    SeparatorsAdd(w.runId + s + w.workerId, s);
    SeparatorsAdd(w.runId + s + w.workerId + s, w.taskId);
    SeparatorsAdd(w.runId + s + w.workerId + s + w.taskId, s);
    SeparatorsAdd(w.runId + s + w.workerId + s + w.taskId + s, w.language);
    SeparatorsAdd(w.runId + s + w.workerId + s + w.taskId + s + w.language, s);
    SeparatorsAdd(w.runId + s + w.workerId + s + w.taskId + s + w.language + s, w.code);
  }

  // Reading any material at its first four separators gives clean work with that very material.
  lemma SharesWithCleanWork(w: WorkUnit) returns (c: WorkUnit)
    ensures Clean(c) && MaterialOf(c) == MaterialOf(w)
  {
    SeparatorsOfMaterial(w);
    var run, rest1 := SplitAtFirst(MaterialOf(w));
    var worker, rest2 := SplitAtFirst(rest1);
    var task, rest3 := SplitAtFirst(rest2);
    var language, code := SplitAtFirst(rest3);
    c := WorkUnit(run, worker, task, language, code);
    hide Separators;
    Reassociated(c);
  }

  lemma Reassociated(c: WorkUnit)
    ensures var s := [SEPARATOR];
      MaterialOf(c) == c.runId + s + (c.workerId + s + (c.taskId + s + (c.language + s + c.code)))
  {
  }

  // Clean work whose code holds a separator shares its key as well: every field moves up by one.
  lemma SharesWithMovedWork(w: WorkUnit) returns (v: WorkUnit)
    requires SEPARATOR in w.code
    ensures v != w && MaterialOf(v) == MaterialOf(w)
  {
    NoSeparators(w.code);
    var before, after := SplitAtFirst(w.code);
    v := WorkUnit(w.runId + [SEPARATOR] + w.workerId, w.taskId, w.language, before, after);
    assert |v.runId| > |w.runId|;
    hide Separators;
    var s := [SEPARATOR];
    assert MaterialOf(v) == w.runId + s + w.workerId + s + w.taskId + s + w.language + s + (before + s + after);
  }

  // Clean work with the same key is the same work, whatever its code holds.
  lemma CleanWorkIsIdentified(v: WorkUnit, w: WorkUnit)
    requires Clean(v) && Clean(w)
    ensures MaterialOf(v) == MaterialOf(w) <==> v == w
  {
    if MaterialOf(v) == MaterialOf(w) {
      KeyMaterialIsInjective(v.runId, v.workerId, v.taskId, v.language, v.code, w.runId, w.workerId, w.taskId, w.language, w.code);
    }
  }

  /**
   The work that shares its key with other work: exactly the work with a separator in some field. A separator in one
   of the first four fields always makes it share its key with clean work.
   */
  lemma KeyIsSharedExactly(w: WorkUnit)
    ensures (exists v :: v != w && MaterialOf(v) == MaterialOf(w)) <==> !(Clean(w) && SEPARATOR !in w.code)
    ensures !Clean(w) ==> exists c :: Clean(c) && c != w && MaterialOf(c) == MaterialOf(w)
  {
    if !Clean(w) {
      var c := SharesWithCleanWork(w);
      assert c != w;
    } else if SEPARATOR in w.code {
      var v := SharesWithMovedWork(w);
    } else {
      forall v | MaterialOf(v) == MaterialOf(w) ensures v == w {
        SameSeparators(v, w);
        CleanWorkIsIdentified(v, w);
      }
    }
  }

  lemma SameSeparators(v: WorkUnit, w: WorkUnit)
    requires Clean(w) && SEPARATOR !in w.code && MaterialOf(v) == MaterialOf(w)
    ensures Clean(v)
  {
    SeparatorsOfMaterial(v);
    SeparatorsOfMaterial(w);
    NoSeparators(w.runId); NoSeparators(w.workerId); NoSeparators(w.taskId); NoSeparators(w.language); NoSeparators(w.code);
    NoSeparators(v.runId); NoSeparators(v.workerId); NoSeparators(v.taskId); NoSeparators(v.language);
    hide Separators, MaterialOf;
  }

  // A client can send such work: a language is only required not to be blank.
  lemma SeparatorInAFieldCollides()
    ensures KeyMaterial("r", "w", "t", "l", "a" + [SEPARATOR] + "b") == KeyMaterial("r", "w", "t", "l" + [SEPARATOR] + "a", "b")
    ensures !Blank("l" + [SEPARATOR] + "a") && !Blank("a" + [SEPARATOR] + "b") && !Blank("b")
  {
    assert !Whitespace('l') && !Whitespace('a') && !Whitespace('b');
    assert ("l" + [SEPARATOR] + "a")[0] == 'l' && ("a" + [SEPARATOR] + "b")[0] == 'a' && "b"[0] == 'b';
  }
}
