/** What the remote authority answers to a request and to a lookup, told from the rows it holds. */
module RemoteAnswers {
  import opened Wrappers
  import opened Contracts
  import opened RemoteStore

  // The row of the very same request.
  ghost predicate IsOwn(row: Row, q: RemoteRequest) {
    row.request.executionId == q.executionId && row.request.key == q.key && row.request.fingerprint == q.fingerprint
  }

  /**
   A request is accepted exactly when no row has its execution id or its key; it is told the result exactly when its own row
   has one, to wait exactly when its own row is still being worked on, and otherwise it conflicts with another request.
   */
  lemma RequestIsAnsweredExactly(rows: Rows, q: RemoteRequest)
    requires RowsOk(rows)
    ensures Verdict(rows, q) == Accepted <==> forall id :: id in rows ==> rows[id].request.executionId != q.executionId && rows[id].request.key != q.key
    ensures forall r :: Verdict(rows, q) == Existing(r) <==> exists id :: id in rows && IsOwn(rows[id], q) && rows[id].result == Some(r)
    ensures Verdict(rows, q) == Busy <==> exists id :: id in rows && IsOwn(rows[id], q) && rows[id].status == InProgress
    ensures Verdict(rows, q) == Conflict <==>
      && (exists id :: id in rows && (rows[id].request.executionId == q.executionId || rows[id].request.key == q.key))
      && forall id :: id in rows ==> !IsOwn(rows[id], q)
    ensures Verdict(rows, q) != InvalidRecord
  {
    if q.executionId in rows { assert Shares(rows[q.executionId], q); }
    forall r ensures Verdict(rows, q) == Existing(r) <==> exists id :: id in rows && IsOwn(rows[id], q) && rows[id].result == Some(r) {
      if Verdict(rows, q) == Existing(r) { assert IsOwn(rows[q.executionId], q); }
    }
    if Verdict(rows, q) == Busy { assert IsOwn(rows[q.executionId], q); }
  }

  /**
   In every state of every run of the handler threads: a lookup finds exactly the result that was committed under both keys,
   mismatches exactly when the execution id belongs to another key, and otherwise finds nothing yet.
   */
  lemma LookUpTellsTheStore(es: seq<Event>, executionId: string, key: string)
    ensures var rows := After(IDLE, es).rows;
      && (forall r :: LookUp(rows, executionId, key) == Evidence(r) <==>
            exists id :: id in rows && rows[id].request.executionId == executionId && rows[id].request.key == key && rows[id].result == Some(r))
      && (LookUp(rows, executionId, key) == Mismatch <==>
            exists id :: id in rows && rows[id].request.executionId == executionId && rows[id].request.key != key)
      && (LookUp(rows, executionId, key) == Absent <==>
            forall id :: id in rows && rows[id].request.executionId == executionId ==> rows[id].request.key == key && rows[id].result.None?)
  {
    EveryRemoteRunIsOk(IDLE, es);
    LookUpIsExact(After(IDLE, es).rows, executionId, key);
  }

  lemma LookUpIsExact(rows: Rows, executionId: string, key: string)
    requires RowsOk(rows)
    ensures forall r :: LookUp(rows, executionId, key) == Evidence(r) <==>
      exists id :: id in rows && rows[id].request.executionId == executionId && rows[id].request.key == key && rows[id].result == Some(r)
    ensures (LookUp(rows, executionId, key) == Mismatch <==>
      exists id :: id in rows && rows[id].request.executionId == executionId && rows[id].request.key != key)
    ensures LookUp(rows, executionId, key) == Absent <==>
      forall id :: id in rows && rows[id].request.executionId == executionId ==> rows[id].request.key == key && rows[id].result.None?
  {
  }

  /** Every answered request finds its result under its two keys from then on, and a mismatch under any other key. */
  lemma AnsweredIsFound(es: seq<Event>, a: Answered, key: string)
    requires a in After(IDLE, es).replies
    ensures LookUp(After(IDLE, es).rows, a.request.executionId, key) == if key == a.request.key then Evidence(a.result) else Mismatch
  {
    EveryRemoteRunIsOk(IDLE, es);
  }

  // ----- A handler that nothing disturbs -----

  // The handler h takes the request and goes on until it has answered; r is what the execution yields, if there is one.
  ghost function Handled(s: Remote, h: nat, q: RemoteRequest, r: ExecutionResult): Remote {
    Next(Next(Next(Next(s, Arrive(h, q)), Advance(h, r)), Advance(h, r)), Advance(h, r))
  }

  lemma HandledAlone(s: Remote, h: nat, q: RemoteRequest, r: ExecutionResult)
    requires h !in s.handlers && ResultFor(q, r)
    ensures var t := Handled(s, h, q, r);
      && t.handlers == s.handlers
      && (match Verdict(s.rows, q)
          case Accepted =>
            t.runs == s.runs + [q] && t.replies == s.replies + [Answered(q, r)] && t.rows == s.rows[q.executionId := Row(q, RowStatus.Finished, Some(r))]
          case Existing(x) => t.runs == s.runs && t.replies == s.replies + [Answered(q, x)] && t.rows == s.rows
          case _ => t.runs == s.runs && t.replies == s.replies && t.rows == s.rows)
  {
    hide Verdict;
    var s1 := Next(s, Arrive(h, q));
    assert s1.handlers - {h} == s.handlers;
    var s2 := Next(s1, Advance(h, r));
    if Verdict(s.rows, q) == Accepted {
      var s3 := Next(s2, Advance(h, r));
      assert s3 == s.(rows := s2.rows, runs := s.runs + [q], handlers := s.handlers[h := Completing(q, r)]);
      assert s3.handlers - {h} == s.handlers;
    } else {
      assert s2.handlers == s.handlers;
    }
  }

  /**
   A handler that nothing disturbs executes a new request once, stores and replies its result; it replies the stored result to a
   request that has one; and to any other it replies none and changes nothing.
   */
  lemma HandlerAnswers(s: Remote, h: nat, q: RemoteRequest, r: ExecutionResult)
    requires RemoteOk(s) && h !in s.handlers && ResultFor(q, r)
    ensures var t := Handled(s, h, q, r);
      var isNew := forall id :: id in s.rows ==> s.rows[id].request.executionId != q.executionId && s.rows[id].request.key != q.key;
      && (isNew ==>
            && t.runs == s.runs + [q] && t.replies == s.replies + [Answered(q, r)]
            && t.rows == s.rows[q.executionId := Row(q, RowStatus.Finished, Some(r))])
      && (!isNew ==> t.runs == s.runs && t.rows == s.rows)
      && (forall id :: id in s.rows && IsOwn(s.rows[id], q) && s.rows[id].result.Some? ==>
            t.replies == s.replies + [Answered(q, s.rows[id].result.value)])
      && (!isNew && (forall id :: id in s.rows && IsOwn(s.rows[id], q) ==> s.rows[id].result.None?) ==> t.replies == s.replies)
  {
    hide Handled, Verdict, ResultFor;
    RequestIsAnsweredExactly(s.rows, q);
    HandledAlone(s, h, q, r);
    forall id | id in s.rows && IsOwn(s.rows[id], q) && s.rows[id].result.Some?
      ensures Verdict(s.rows, q) == Existing(s.rows[id].result.value)
    {
    }
  }
}
