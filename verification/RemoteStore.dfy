/**
 The remote execution authority: an SQLite store with two unique identities per
 execution, and the handler threads that reserve, run and complete against it.
 */
module RemoteStore {
  import opened Wrappers
  import opened Contracts

  datatype RemoteRequest = RemoteRequest(executionId: string, key: string, fingerprint: string, runId: string)

  datatype RowStatus = InProgress | Finished

  datatype Row = Row(request: RemoteRequest, status: RowStatus, result: Option<ExecutionResult>)

  // Keyed by the primary key execution_id; idempotency_key is UNIQUE as well.
  type Rows = map<string, Row>

  datatype Reply = Accepted | Existing(result: ExecutionResult) | Conflict | Busy | InvalidRecord

  ghost predicate RowsOk(rows: Rows) {
    && (forall id :: id in rows ==> rows[id].request.executionId == id)
    && (forall id, other :: id in rows && other in rows && rows[id].request.key == rows[other].request.key ==> id == other)
    && (forall id :: id in rows ==>
          (rows[id].status == Finished <==> rows[id].result.Some?)
          && (rows[id].result.Some? ==> ResultFor(rows[id].request, rows[id].result.value)))
  }

  // What _execute_reserved returns: bound to the request's execution and run, without a worker.
  predicate ResultFor(q: RemoteRequest, r: ExecutionResult) {
    r.executionId == q.executionId && r.runId == Some(q.runId) && r.workerId == None && r.backend == "colab"
  }

  predicate Shares(row: Row, q: RemoteRequest) {
    row.request.executionId == q.executionId || row.request.key == q.key
  }

  predicate SameIdentity(a: RemoteRequest, b: RemoteRequest) {
    a.executionId == b.executionId && a.key == b.key && a.fingerprint == b.fingerprint
  }

  ghost predicate Clashes(rows: Rows, q: RemoteRequest) {
    exists id :: id in rows && Shares(rows[id], q)
  }

  // The loop over the rows that the SELECT returned, in whatever order it returned them.
  function Classify(found: seq<Row>, q: RemoteRequest): Reply {
    if found == [] then InvalidRecord
    else if !SameIdentity(found[0].request, q) then Conflict
    else if found[0].status == InProgress then Busy
    else if found[0].result.Some? then Existing(found[0].result.value)
    else Classify(found[1..], q)
  }

  // What reserve answers, stated on the table: only an identical request is ever let through.
  ghost function Verdict(rows: Rows, q: RemoteRequest): Reply {
    if !Clashes(rows, q) then Accepted
    else if q.executionId !in rows || !SameIdentity(rows[q.executionId].request, q) then Conflict
    else if rows[q.executionId].status == InProgress then Busy
    else if rows[q.executionId].result.Some? then Existing(rows[q.executionId].result.value)
    else InvalidRecord
  }

  ghost predicate Selects(rows: Rows, q: RemoteRequest, found: seq<Row>) {
    && (forall i :: 0 <= i < |found| ==> Shares(found[i], q) && found[i].request.executionId in rows && rows[found[i].request.executionId] == found[i])
    && (forall id :: id in rows && Shares(rows[id], q) ==> rows[id] in found)
  }

  // The answer does not depend on the order of the selected rows.
  lemma ClassifyIgnoresRowOrder(rows: Rows, q: RemoteRequest, found: seq<Row>)
    requires RowsOk(rows) && Clashes(rows, q) && Selects(rows, q, found)
    ensures Classify(found, q) == Verdict(rows, q)
    ensures Classify(found, q) != InvalidRecord
  {
    var id :| id in rows && Shares(rows[id], q);
    assert rows[id] in found;
    assert found[0].request.executionId in rows && rows[found[0].request.executionId] == found[0];
    if SameIdentity(found[0].request, q) { assert rows[q.executionId] == found[0]; }
  }

  lemma {:induction false} ClassifyRefuses(found: seq<Row>, q: RemoteRequest)
    ensures Classify(found, q) != Accepted
  {
    if found != [] { ClassifyRefuses(found[1..], q); }
  }

  // A request that shares only part of a stored identity is refused.
  lemma PartialIdentityIsRefused(rows: Rows, q: RemoteRequest, id: string)
    requires RowsOk(rows) && id in rows && Shares(rows[id], q) && !SameIdentity(rows[id].request, q)
    ensures Verdict(rows, q) == Conflict
  {}

  function WithResult(rows: Rows, executionId: string, r: ExecutionResult): Rows
    requires executionId in rows
  {
    rows[executionId := rows[executionId].(status := Finished, result := Some(r))]
  }

  datatype RemoteAnswer = Absent | Mismatch | Evidence(result: ExecutionResult)

  function LookUp(rows: Rows, executionId: string, key: string): RemoteAnswer {
    if executionId !in rows then Absent
    else if rows[executionId].request.key != key then Mismatch
    else if rows[executionId].status != Finished then Absent
    else match rows[executionId].result case None => Absent case Some(r) => Evidence(r)
  }

  class ExecutionStore {
    var rows: Rows

    constructor ()
      ensures RowsOk(rows) && rows == map[]
    {
      rows := map[];
    }

    // SELECT ... WHERE execution_id = ? OR idempotency_key = ?
    method Select(q: RemoteRequest) returns (found: seq<Row>)
      requires RowsOk(rows)
      ensures Selects(rows, q, found)
    {
      found := [];
      var ids := rows.Keys;
      while ids != {}
        invariant ids <= rows.Keys
        invariant forall i :: 0 <= i < |found| ==> Shares(found[i], q) && found[i].request.executionId in rows && rows[found[i].request.executionId] == found[i]
        invariant forall id :: id in rows && id !in ids && Shares(rows[id], q) ==> rows[id] in found
        decreases ids
      {
        var id :| id in ids;
        if Shares(rows[id], q) { found := found + [rows[id]]; }
        ids := ids - {id};
      }
    }

    // The loop over the conflicting rows.
    method Answer(found: seq<Row>, q: RemoteRequest) returns (reply: Reply)
      ensures reply == Classify(found, q)
    {
      for i := 0 to |found|
        invariant Classify(found[i..], q) == Classify(found, q)
      {
        var row := found[i];
        if !SameIdentity(row.request, q) { return Conflict; }
        if row.status == InProgress { return Busy; }
        if row.result.Some? { return Existing(row.result.value); }
      }
      reply := InvalidRecord;
    }

    method Reserve(q: RemoteRequest) returns (reply: Reply)
      requires RowsOk(rows)
      modifies this
      ensures RowsOk(rows)
      ensures reply == Verdict(old(rows), q) && reply != InvalidRecord
      ensures rows == if reply == Accepted then old(rows)[q.executionId := Row(q, InProgress, None)] else old(rows)
    {
      var found := Select(q);
      if found == [] {
        rows := rows[q.executionId := Row(q, InProgress, None)];
        return Accepted;
      }
      assert Clashes(rows, q) by { assert found[0].request.executionId in rows; }
      hide Clashes;
      ClassifyIgnoresRowOrder(rows, q, found);
      reply := Answer(found, q);
      ClassifyRefuses(found, q);
    }

    method Complete(executionId: string, result: ExecutionResult) returns (written: bool)
      requires RowsOk(rows)
      requires executionId in rows ==> ResultFor(rows[executionId].request, result)
      modifies this
      ensures RowsOk(rows)
      ensures written == (executionId in old(rows) && old(rows)[executionId].status == InProgress)
      ensures rows == if written then WithResult(old(rows), executionId, result) else old(rows)
    {
      written := executionId in rows && rows[executionId].status == InProgress;
      if written { rows := WithResult(rows, executionId, result); }
    }

    method Get(executionId: string, key: string) returns (found: RemoteAnswer)
      ensures found == LookUp(rows, executionId, key)
    {
      if executionId !in rows { return Absent; }
      var row := rows[executionId];
      if row.request.key != key { return Mismatch; }
      if row.status != Finished || row.result.None? { return Absent; }
      found := Evidence(row.result.value);
    }
  }

  // ----- Any number of handler threads -----

  datatype Handler =
    | Reserving(request: RemoteRequest)
    | InHand(request: RemoteRequest)
    | Completing(request: RemoteRequest, result: ExecutionResult)

  datatype Answered = Answered(request: RemoteRequest, result: ExecutionResult)

  // `runs` records every start of _execute_reserved, `replies` every successful response.
  datatype Remote = Remote(rows: Rows, handlers: map<nat, Handler>, runs: seq<RemoteRequest>, replies: seq<Answered>)

  const IDLE: Remote := Remote(map[], map[], [], [])

  datatype Event =
    | Arrive(handler: nat, request: RemoteRequest)
    | Advance(handler: nat, result: ExecutionResult)
    | Die(handler: nat)

  ghost function Next(s: Remote, e: Event): Remote {
    match e
    case Arrive(h, q) => if h in s.handlers then s else s.(handlers := s.handlers[h := Reserving(q)])
    case Die(h) => s.(handlers := s.handlers - {h})
    case Advance(h, r) =>
      if h !in s.handlers then s
      else
        match s.handlers[h]
        case Reserving(q) =>
          (match Verdict(s.rows, q)
           case Accepted => s.(rows := s.rows[q.executionId := Row(q, InProgress, None)], handlers := s.handlers[h := InHand(q)])
           case Existing(stored) => s.(handlers := s.handlers - {h}, replies := s.replies + [Answered(q, stored)])
           case _ => s.(handlers := s.handlers - {h}))
        case InHand(q) =>
          // The result is whatever the program, its time limit or the policy makes of it.
          if ResultFor(q, r) then s.(runs := s.runs + [q], handlers := s.handlers[h := Completing(q, r)]) else s
        case Completing(q, result) =>
          if q.executionId in s.rows && s.rows[q.executionId].status == InProgress
          then s.(rows := WithResult(s.rows, q.executionId, result), handlers := s.handlers - {h}, replies := s.replies + [Answered(q, result)])
          else s.(handlers := s.handlers - {h})
  }

  predicate Holds(handler: Handler) { !handler.Reserving? }

  ghost predicate HandlerOk(s: Remote, handler: Handler) {
    Holds(handler) ==>
      && handler.request.executionId in s.rows
      && s.rows[handler.request.executionId] == Row(handler.request, InProgress, None)
      && (handler.InHand? ==> forall i :: 0 <= i < |s.runs| ==> s.runs[i].executionId != handler.request.executionId)
      && (handler.Completing? ==> ResultFor(handler.request, handler.result))
  }

  ghost predicate RemoteOk(s: Remote) {
    && RowsOk(s.rows)
    && (forall h :: h in s.handlers ==> HandlerOk(s, s.handlers[h]))
    && (forall h, g :: h in s.handlers && g in s.handlers && h != g && Holds(s.handlers[h]) && Holds(s.handlers[g]) ==>
          s.handlers[h].request.executionId != s.handlers[g].request.executionId)
    && (forall i :: 0 <= i < |s.runs| ==> s.runs[i].executionId in s.rows && s.rows[s.runs[i].executionId].request == s.runs[i])
    && (forall i, j :: 0 <= i < j < |s.runs| ==> s.runs[i].executionId != s.runs[j].executionId)
    && (forall a :: a in s.replies ==>
          && a.request.executionId in s.rows
          && SameIdentity(s.rows[a.request.executionId].request, a.request)
          && s.rows[a.request.executionId].result == Some(a.result))
  }

  // What later remote states can never take back.
  ghost predicate Grows(s: Remote, s': Remote) {
    && s.runs <= s'.runs && s.replies <= s'.replies
    && (forall id :: id in s.rows ==>
          && id in s'.rows && s'.rows[id].request == s.rows[id].request
          && (s.rows[id].result.Some? ==> s'.rows[id] == s.rows[id]))
  }

  lemma ReservationKeepsRemoteOk(s: Remote, h: nat, r: ExecutionResult)
    requires RemoteOk(s) && h in s.handlers && s.handlers[h].Reserving?
    ensures RemoteOk(Next(s, Advance(h, r))) && Grows(s, Next(s, Advance(h, r)))
  {
    var q := s.handlers[h].request;
    var s' := Next(s, Advance(h, r));
    if Verdict(s.rows, q) == Accepted {
      assert forall id :: id in s.rows ==> !Shares(s.rows[id], q);
      assert RowsOk(s'.rows);
      forall g | g in s'.handlers ensures HandlerOk(s', s'.handlers[g]) {
        if g == h {} else { assert HandlerOk(s, s.handlers[g]); }
      }
    } else {
      assert s'.rows == s.rows && s'.runs == s.runs;
      forall g | g in s'.handlers ensures HandlerOk(s', s'.handlers[g]) { assert HandlerOk(s, s.handlers[g]); }
    }
  }

  lemma RunKeepsRemoteOk(s: Remote, h: nat, r: ExecutionResult)
    requires RemoteOk(s) && h in s.handlers && s.handlers[h].InHand?
    ensures RemoteOk(Next(s, Advance(h, r))) && Grows(s, Next(s, Advance(h, r)))
  {
    var s' := Next(s, Advance(h, r));
    assert HandlerOk(s, s.handlers[h]);
    forall g | g in s'.handlers ensures HandlerOk(s', s'.handlers[g]) { assert HandlerOk(s, s.handlers[g]); }
  }

  lemma CompletionKeepsRemoteOk(s: Remote, h: nat, r: ExecutionResult)
    requires RemoteOk(s) && h in s.handlers && s.handlers[h].Completing?
    ensures RemoteOk(Next(s, Advance(h, r))) && Grows(s, Next(s, Advance(h, r)))
  {
    var s' := Next(s, Advance(h, r));
    assert HandlerOk(s, s.handlers[h]);
    forall g | g in s'.handlers ensures HandlerOk(s', s'.handlers[g]) { assert HandlerOk(s, s.handlers[g]); }
  }

  lemma NextKeepsRemoteOk(s: Remote, e: Event)
    requires RemoteOk(s)
    ensures RemoteOk(Next(s, e)) && Grows(s, Next(s, e))
  {
    match e {
      case Arrive(h, q) =>
      case Die(h) =>
      case Advance(h, r) =>
        if h in s.handlers {
          match s.handlers[h] {
            case Reserving(_) => ReservationKeepsRemoteOk(s, h, r);
            case InHand(_) => RunKeepsRemoteOk(s, h, r);
            case Completing(_, _) => CompletionKeepsRemoteOk(s, h, r);
          }
        }
    }
  }

  // Every row and every handler stands for a request that arrived.
  ghost predicate Arrived(s: Remote, q: RemoteRequest) {
    (exists id :: id in s.rows && s.rows[id].request == q) || (exists h :: h in s.handlers && s.handlers[h].request == q)
  }

  lemma NothingElseArrives(s: Remote, e: Event, q: RemoteRequest)
    requires Arrived(Next(s, e), q)
    ensures Arrived(s, q) || (e.Arrive? && e.request == q)
  {
    hide Verdict, ResultFor;
    var s' := Next(s, e);
    if id :| id in s'.rows && s'.rows[id].request == q {
      if !(id in s.rows && s.rows[id].request == q) { assert e.Advance? && s.handlers[e.handler].request == q; }
    } else {
      var h :| h in s'.handlers && s'.handlers[h].request == q;
    }
  }

  ghost function After(s: Remote, es: seq<Event>): Remote
    decreases |es|
  {
    if es == [] then s else After(Next(s, es[0]), es[1..])
  }

  lemma {:induction false} EveryRemoteRunIsOk(s: Remote, es: seq<Event>)
    requires RemoteOk(s)
    ensures RemoteOk(After(s, es)) && Grows(s, After(s, es))
    decreases |es|
  {
    if es != [] {
      NextKeepsRemoteOk(s, es[0]);
      EveryRemoteRunIsOk(Next(s, es[0]), es[1..]);
    }
  }

  // Under every interleaving of handler threads and their deaths, no execution id and no
  // idempotency key is ever executed twice, and equal requests get equal results.
  lemma RemoteExecutesAtMostOnce(es: seq<Event>)
    ensures var s := After(IDLE, es);
      && (forall i, j :: 0 <= i < j < |s.runs| ==> s.runs[i].executionId != s.runs[j].executionId && s.runs[i].key != s.runs[j].key)
      && (forall a, b :: a in s.replies && b in s.replies && SameIdentity(a.request, b.request) ==> a.result == b.result)
  {
    EveryRemoteRunIsOk(IDLE, es);
  }
}
