/** What each session operation does to the record it is applied to, when it is refused, and what a returning call leaves stored. */
module SessionOperations {
  import opened Wrappers
  import opened Contracts
  import opened SessionStore

  // ----- What is stored -----

  // The result as the run stores it: one without a run becomes the run's, and loses its worker.
  ghost predicate StoredAs(x: ExecutionResult, r: ExecutionResult, runId: string) {
    && x.executionId == r.executionId && x.status == r.status && x.output == r.output && x.backend == r.backend
    && x.runId == Some(runId) && x.workerId == (if r.runId.Some? then r.workerId else None)
  }

  // The record an operation leaves, told from the record it found.
  ghost predicate Leaves(rec: SessionRecord, op: Op, rec': SessionRecord) {
    match op
    case Transition(target) => rec' == rec.(state := target)
    case AddMessage(m) => rec' == rec.(messages := rec.messages + [m])
    case AddArtifact(a) => rec' == rec.(artifacts := rec.artifacts + [a])
    case AddDecision(d) => rec' == if d in rec.decisions then rec else rec.(decisions := rec.decisions + [d])
    case AddResult(r) =>
      exists x :: StoredAs(x, r, rec.runId) && rec' == if x in rec.results then rec else rec.(results := rec.results + [x])
    case AddGate(g) => rec' == rec.(gates := rec.gates + [g])
    case ResolveGate(g, d) => ReplacesOpenGate(rec, g, rec'.gates) && rec' == rec.(gates := rec'.gates, decisions := rec.decisions + [d])
    case CancelGate(g) => ReplacesOpenGate(rec, g, rec'.gates) && rec' == rec.(gates := rec'.gates)
    case SetPlan(p) => rec' == rec.(plan := Some(p))
    case SetOutput(o) => rec' == rec.(outputs := rec'.outputs) && o.workerId in rec'.outputs && rec'.outputs == rec.outputs[o.workerId := o]
    case SetFinal(f) => rec' == rec.(final := Some(f))
  }

  // The open gate with that id has been replaced, and no other gate.
  ghost predicate ReplacesOpenGate(rec: SessionRecord, g: ApprovalGate, gates: seq<ApprovalGate>) {
    && |gates| == |rec.gates|
    && exists i :: 0 <= i < |gates| && rec.gates[i].gateId == g.gateId && rec.gates[i].status == Open && gates == rec.gates[i := g]
  }

  // Why an operation is refused.
  ghost predicate IsRefused(rec: SessionRecord, op: Op) {
    match op
    case Transition(target) => target !in AllowedTargets(rec.state)
    case AddMessage(_) => false
    case AddArtifact(a) => a in rec.artifacts
    case AddDecision(d) => d.runId != rec.runId || exists x :: x in rec.decisions && x.gateId == d.gateId && x != d
    case AddResult(r) =>
      || (r.runId.Some? && r.runId != Some(rec.runId))
      || exists x :: x in rec.results && x.executionId == r.executionId && !StoredAs(x, r, rec.runId)
    case AddGate(g) => g.runId != rec.runId || exists x :: x in rec.gates && x.gateId == g.gateId
    case ResolveGate(g, d) =>
      || g.runId != rec.runId || d.runId != rec.runId || d.gateId != g.gateId || g.status != Resolved
      || !(exists x :: x in rec.gates && x.gateId == g.gateId && x.status == Open)
      || exists x :: x in rec.decisions && x.gateId == g.gateId
    case CancelGate(g) =>
      || g.runId != rec.runId || g.status != Cancelled || !(exists x :: x in rec.gates && x.gateId == g.gateId && x.status == Open)
    case SetPlan(_) => false
    case SetOutput(o) => o.runId != rec.runId
    case SetFinal(f) => f.runId != rec.runId
  }

  lemma OneGatePerId(rec: SessionRecord, id: string)
    requires UniqueGates(rec.gates)
    ensures forall x :: x in rec.gates && x.gateId == id ==> GateIndex(rec.gates, id).Some? && rec.gates[GateIndex(rec.gates, id).value] == x
  {
    forall x | x in rec.gates && x.gateId == id ensures GateIndex(rec.gates, id).Some? && rec.gates[GateIndex(rec.gates, id).value] == x {
      var k :| 0 <= k < |rec.gates| && rec.gates[k] == x;
    }
  }

  lemma OneDecisionPerGate(rec: SessionRecord, id: string)
    requires UniqueDecisions(rec.decisions)
    ensures forall x :: x in rec.decisions && x.gateId == id ==> FindDecision(rec.decisions, id) == Some(x)
  {
    hide FindDecision;
    forall x | x in rec.decisions && x.gateId == id ensures FindDecision(rec.decisions, id) == Some(x) {
      var k :| 0 <= k < |rec.decisions| && rec.decisions[k] == x;
      var l :| 0 <= l < |rec.decisions| && rec.decisions[l] == FindDecision(rec.decisions, id).value;
    }
  }

  lemma OneResultPerId(rec: SessionRecord, id: string)
    requires UniqueResults(rec.results)
    ensures forall x :: x in rec.results && x.executionId == id ==> FindResult(rec.results, id) == Some(x)
  {
    hide FindResult;
    forall x | x in rec.results && x.executionId == id ensures FindResult(rec.results, id) == Some(x) {
      var k :| 0 <= k < |rec.results| && rec.results[k] == x;
      var l :| 0 <= l < |rec.results| && rec.results[l] == FindResult(rec.results, id).value;
    }
  }

  lemma DecisionIsExact(rec: SessionRecord, op: Op)
    requires WellFormed(rec) && op.AddDecision?
    ensures Apply(rec, op).Refused? <==> IsRefused(rec, op)
    ensures Apply(rec, op).Commit? ==> Leaves(rec, op, Apply(rec, op).record)
    ensures Apply(rec, op).Unchanged? ==> Leaves(rec, op, rec)
  {
    OneDecisionPerGate(rec, op.decision.gateId);
    hide FindDecision, WellFormed;
  }

  lemma ResultIsExact(rec: SessionRecord, op: Op)
    requires WellFormed(rec) && op.AddResult?
    ensures Apply(rec, op).Refused? <==> IsRefused(rec, op)
    ensures Apply(rec, op).Commit? ==> Leaves(rec, op, Apply(rec, op).record)
    ensures Apply(rec, op).Unchanged? ==> Leaves(rec, op, rec)
  {
    OneResultPerId(rec, op.result.executionId);
    hide FindResult, WellFormed;
    var x := Bound(rec.runId, op.result);
    assert x.executionId == op.result.executionId;
  }

  lemma GateIsExact(rec: SessionRecord, op: Op)
    requires WellFormed(rec) && (op.AddGate? || op.ResolveGate? || op.CancelGate?)
    ensures Apply(rec, op).Refused? <==> IsRefused(rec, op)
    ensures Apply(rec, op).Commit? ==> Leaves(rec, op, Apply(rec, op).record)
    ensures !Apply(rec, op).Unchanged?
  {
    OneGatePerId(rec, op.gate.gateId);
    hide FindDecision, GateIndex, WellFormed;
  }

  /**
   An operation is refused exactly for the reason given, and otherwise leaves exactly the record given; it returns without
   saving when that is the record it found. Identifiers stay unique in every stored record, so this covers all of them.
   */
  lemma OperationIsExact(rec: SessionRecord, op: Op)
    requires WellFormed(rec)
    ensures Apply(rec, op).Refused? <==> IsRefused(rec, op)
    ensures Apply(rec, op).Commit? ==> Leaves(rec, op, Apply(rec, op).record)
    ensures Apply(rec, op).Unchanged? ==> Leaves(rec, op, rec)
  {
    hide WellFormed, IsRefused, Leaves;
    if op.AddDecision? { DecisionIsExact(rec, op); }
    else if op.AddResult? { ResultIsExact(rec, op); }
    else if op.AddGate? || op.ResolveGate? || op.CancelGate? { GateIsExact(rec, op); }
    else { SimpleIsExact(rec, op); }
  }

  lemma SimpleIsExact(rec: SessionRecord, op: Op)
    requires op.Transition? || op.AddMessage? || op.AddArtifact? || op.SetPlan? || op.SetOutput? || op.SetFinal?
    ensures Apply(rec, op).Refused? <==> IsRefused(rec, op)
    ensures Apply(rec, op).Commit? ==> Leaves(rec, op, Apply(rec, op).record)
    ensures !Apply(rec, op).Unchanged?
  {
  }

  // ----- Any number of managers -----

  /**
   When a manager call returns, in any state of any run of any number of managers, what it asked for is stored: the record
   that was stored before has been changed just as the operation says and its revision counts one more, or the call found
   it done already and nothing was saved.
   */
  lemma ReturnedCallIsStored(acts: seq<Action>, c: nat)
    requires c in Run(EMPTY, acts).clients && WriteError(Run(EMPTY, acts), c) == None
    ensures var s := Run(EMPTY, acts);
      var Client(copy, op) := s.clients[c];
      var s' := Step(s, Write(c));
      && copy.runId in s.store && copy.runId in s'.store && !IsRefused(copy, op)
      && (forall r :: r != copy.runId ==> (r in s'.store <==> r in s.store) && (r in s.store ==> s'.store[r] == s.store[r]))
      && (|| (s'.store[copy.runId] == s.store[copy.runId] && Leaves(copy, op, copy))
          || (s.store[copy.runId] == copy && s'.store[copy.runId].revision == copy.revision + 1
              && Leaves(copy, op, s'.store[copy.runId].(revision := copy.revision))))
  {
    hide Apply, Leaves, IsRefused, WellFormed, Serial, Save;
    var s := Run(EMPTY, acts);
    var Client(copy, op) := s.clients[c];
    EveryRunIsSerialized(EMPTY, acts);
    WriteIsAtomicOrRejected(s, c);
    CopyIsWellFormed(s, copy);
    OperationIsExact(copy, op);
    ApplyKeepsIdentity(copy, op);
    ReturnedMeansSaved(s, c);
  }

  lemma CopyIsWellFormed(s: System, copy: SessionRecord)
    requires Serialized(s) && CopyIsAPrefix(s, copy)
    ensures WellFormed(copy) && copy.runId in s.store
  {
    SerialIsWellFormed(copy.runId, s.log[copy.runId][..copy.revision]);
  }

  lemma ReturnedMeansSaved(s: System, c: nat)
    requires Serialized(s) && c in s.clients && WriteError(s, c) == None
    ensures var Client(copy, op) := s.clients[c];
      var s' := Step(s, Write(c));
      && !Apply(copy, op).Refused?
      && (Apply(copy, op).Unchanged? ==> s'.store == s.store)
      && (Apply(copy, op).Commit? ==>
            copy.runId in s.store && s.store[copy.runId] == copy
            && s'.store == s.store[copy.runId := Apply(copy, op).record.(revision := copy.revision + 1)])
  {
    hide Apply, Serial;
    var Client(copy, op) := s.clients[c];
    ApplyKeepsIdentity(copy, op);
    assert CopyIsAPrefix(s, copy);
    if Apply(copy, op).Commit? { SuccessfulSaveFoundTheCopy(s, copy, op); }
  }
}
