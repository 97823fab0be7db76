/** Saves that commit and raise all the same: the live engine falls behind its sessions until it is rebuilt. */
module LateFailures {
  import opened Wrappers
  import opened Contracts
  import opened Text
  import opened SessionStore
  import opened Approvals
  import opened RestartTransparency

  /** A call of the engine; `late` when its save commits and the manager raises afterwards. */
  datatype Attempt = Attempt(call: Call, late: bool)

  // After a late failure the sessions are those of the returning call and the engine is as it was.
  function Try(w: World, a: Attempt): World {
    if a.late then World(w.engine, Do(w, a.call).world.store) else Do(w, a.call).world
  }

  function TryAll(w: World, attempts: seq<Attempt>): World {
    if attempts == [] then w else Try(TryAll(w, attempts[..|attempts| - 1]), attempts[|attempts| - 1])
  }

  // ----- What an engine that may be behind still satisfies -----

  ghost predicate IsStored(store: Store, d: HumanDecision) { d.runId in store && d in store[d.runId].decisions }

  // Its gates are valid, and the decisions it has recorded are stored.
  ghost predicate Grounded(w: World) {
    && SettledStore(w.store)
    && (forall g :: g in w.engine.gates ==> ValidGate(g))
    && (forall id, d :: id in w.engine.decisions && d in w.engine.decisions[id] ==> IsStored(w.store, d))
  }

  // A store in which one session went through an operation of the engine, or nothing changed.
  ghost predicate Moved(before: Store, after: Store, runId: string, op: Op) {
    after == before || (runId in before && GateOp(before[runId], op) && Persist(before, runId, op, true) == Some(after))
  }

  lemma MovedStaysSettled(before: Store, after: Store, runId: string, op: Op)
    requires SettledStore(before) && Moved(before, after, runId, op)
    ensures SettledStore(after)
  {
    hide Settled, GateOp, Persist;
    if after != before { Persisted(before, runId, op, true); }
  }

  lemma MovedKeepsDecisions(before: Store, after: Store, runId: string, op: Op, d: HumanDecision)
    requires SettledStore(before) && Moved(before, after, runId, op) && IsStored(before, d)
    ensures IsStored(after, d)
  {
    hide Settled, GateOp, Apply;
    if after != before && Apply(before[runId], op).Commit? { ApplyAppends(before[runId], op); }
  }

  lemma PersistedWhen(store: Store, runId: string, op: Op, stored: bool)
    requires Persist(store, runId, op, stored).Some?
    ensures stored && runId in store && Persist(store, runId, op, true) == Persist(store, runId, op, stored)
  {
  }

  lemma RequestMoves(w: World, gate: ApprovalGate, stored: bool)
    ensures Moved(w.store, RequestGate(w, gate, stored).world.store, gate.runId, AddGate(AsOpen(gate)))
    ensures var w' := RequestGate(w, gate, stored).world;
      w'.engine == w.engine || (ValidGate(AsOpen(gate)) && w'.engine == Engine(w.engine.gates + [AsOpen(gate)], w.engine.decisions[gate.gateId := []]))
  {
    hide ValidGate, Persist, GateIndex;
    if Persist(w.store, gate.runId, AddGate(AsOpen(gate)), stored).Some? { PersistedWhen(w.store, gate.runId, AddGate(AsOpen(gate)), stored); }
  }

  lemma ResolveMoves(w: World, id: string, decision: DecisionType, feedback: string, actor: string, timestamp: string, stored: bool)
    requires GateIndex(w.engine.gates, id).Some?
    ensures var g := w.engine.gates[GateIndex(w.engine.gates, id).value];
      var op := ResolveGate(AsResolved(g, timestamp), Recorded(g, decision, feedback, actor, timestamp));
      var w' := ResolveOpenGate(w, id, decision, feedback, actor, timestamp, stored).world;
      && Moved(w.store, w'.store, g.runId, op)
      && (w'.engine == w.engine
          || (&& ValidGate(op.gate) && id in w.engine.decisions && Persist(w.store, g.runId, op, true) == Some(w'.store)
              && w'.engine == Engine(w.engine.gates[GateIndex(w.engine.gates, id).value := op.gate],
                                     w.engine.decisions[id := w.engine.decisions[id] + [op.decision]])))
  {
    hide ValidGate, ValidDecision, Persist, GateIndex, Strip, Blank;
    var g := w.engine.gates[GateIndex(w.engine.gates, id).value];
    var op := ResolveGate(AsResolved(g, timestamp), Recorded(g, decision, feedback, actor, timestamp));
    if Persist(w.store, g.runId, op, stored).Some? { PersistedWhen(w.store, g.runId, op, stored); }
  }

  lemma CancelMoves(w: World, id: string, stored: bool)
    requires Grounded(w) && GateIndex(w.engine.gates, id).Some?
    ensures var g := w.engine.gates[GateIndex(w.engine.gates, id).value];
      var closed := g.(status := Cancelled);
      var w' := CancelOpenGate(w, id, stored).world;
      && Moved(w.store, w'.store, g.runId, CancelGate(closed))
      && (w'.engine == w.engine
          || (ValidGate(closed) && w'.engine == w.engine.(gates := w.engine.gates[GateIndex(w.engine.gates, id).value := closed])))
  {
    hide Persist, GateIndex, SettledStore;
    var g := w.engine.gates[GateIndex(w.engine.gates, id).value];
    if g.status == Open { StillValid(g); }
    hide ValidGate;
    if Persist(w.store, g.runId, CancelGate(g.(status := Cancelled)), stored).Some? {
      PersistedWhen(w.store, g.runId, CancelGate(g.(status := Cancelled)), stored);
    }
  }

  lemma LastDecision(e: Engine, id: string)
    requires Decision(e, id).Some?
    ensures id in e.decisions && Decision(e, id).value in e.decisions[id]
  {
  }

  lemma ConfirmMoves(w: World, d: HumanDecision, stored: bool)
    requires Grounded(w)
    ensures Moved(w.store, Do(w, Confirm(d, stored)).world.store, d.runId, AddDecision(d))
    ensures Do(w, Confirm(d, stored)).world.engine == w.engine
  {
    hide Persist, SettledStore, ValidDecision, GateIndex;
    if IsRecorded(w.engine, d) {
      LastDecision(w.engine, d.gateId);
      assert IsStored(w.store, d);
      if Persist(w.store, d.runId, AddDecision(d), stored).Some? { PersistedWhen(w.store, d.runId, AddDecision(d), stored); }
    }
  }

  lemma ElsewhereMoves(w: World, runId: string, op: Op)
    ensures Moved(w.store, Do(w, Elsewhere(runId, op)).world.store, runId, op)
    ensures Do(w, Elsewhere(runId, op)).world.engine == w.engine
  {
    hide Apply;
  }

  // The store after a call: one session went through one operation, or a new run was added.
  ghost predicate StoreMoves(w: World, call: Call) {
    var store := Do(w, call).world.store;
    || (exists runId, op :: Moved(w.store, store, runId, op))
    || (call.CreateRun? && call.runId !in w.store && store == w.store[call.runId := NewSession(call.runId)])
  }

  lemma CallMoves(w: World, call: Call)
    requires Grounded(w)
    ensures StoreMoves(w, call)
  {
    hide Grounded, Moved, RequestGate, ResolveOpenGate, CancelOpenGate, IsRecorded, Persist, TouchesGates;
    match call {
      case CreateRun(runId) => if runId in w.store { assert Moved(w.store, w.store, runId, AddArtifact("")) by { NothingMoves(w.store, runId); } }
      case Request(g, stored) => RequestMoves(w, g, stored);
      case Resolve(id, d, feedback, actor, timestamp, stored) =>
        if GateIndex(w.engine.gates, id).Some? { ResolveMoves(w, id, d, feedback, actor, timestamp, stored); }
        else { UnknownIsRefused(w, id, d, feedback, actor, timestamp, stored); NothingMoves(w.store, id); }
      case Cancel(id, stored) =>
        if GateIndex(w.engine.gates, id).Some? { CancelMoves(w, id, stored); }
        else { UnknownIsNotCancelled(w, id, stored); NothingMoves(w.store, id); }
      case Confirm(d, stored) => ConfirmMoves(w, d, stored);
      case Elsewhere(runId, op) => ElsewhereMoves(w, runId, op);
    }
  }

  lemma NothingMoves(store: Store, runId: string)
    ensures Moved(store, store, runId, AddArtifact(""))
  {
  }

  lemma UnknownIsNotCancelled(w: World, id: string, stored: bool)
    requires GateIndex(w.engine.gates, id).None?
    ensures CancelOpenGate(w, id, stored).world == w
  {
  }

  lemma NewSessionIsSettled(store: Store, runId: string)
    requires SettledStore(store) && runId !in store
    ensures SettledStore(store[runId := NewSession(runId)])
  {
  }

  lemma StoreStaysSettled(w: World, call: Call)
    requires Grounded(w)
    ensures SettledStore(Do(w, call).world.store)
    ensures forall d :: IsStored(w.store, d) ==> IsStored(Do(w, call).world.store, d)
  {
    hide Moved, SettledStore, IsStored, Do;
    CallMoves(w, call);
    var store := Do(w, call).world.store;
    if exists runId, op :: Moved(w.store, store, runId, op) {
      var runId, op :| Moved(w.store, store, runId, op);
      MovedStaysSettled(w.store, store, runId, op);
      forall d | IsStored(w.store, d) ensures IsStored(store, d) { MovedKeepsDecisions(w.store, store, runId, op, d); }
    } else {
      NewSessionIsSettled(w.store, call.runId);
      forall d | IsStored(w.store, d) ensures IsStored(store, d) { NewSessionKeepsDecisions(w.store, call.runId, d); }
    }
  }

  lemma NewSessionKeepsDecisions(store: Store, runId: string, d: HumanDecision)
    requires IsStored(store, d) && runId !in store
    ensures IsStored(store[runId := NewSession(runId)], d)
  {
  }

  // The engine after a call that returns holds valid gates and stored decisions.
  lemma EngineStaysGrounded(w: World, call: Call)
    requires Grounded(w)
    ensures Grounded(Do(w, call).world)
  {
    hide SettledStore, ValidGate, Persist, RequestGate, ResolveOpenGate, CancelOpenGate, IsRecorded, GateIndex, IsStored;
    StoreStaysSettled(w, call);
    match call {
      case Request(g, stored) => RequestMoves(w, g, stored);
      case Resolve(id, d, feedback, actor, timestamp, stored) =>
        if GateIndex(w.engine.gates, id).Some? {
          ResolveMoves(w, id, d, feedback, actor, timestamp, stored);
          var w' := ResolveOpenGate(w, id, d, feedback, actor, timestamp, stored).world;
          var g := w.engine.gates[GateIndex(w.engine.gates, id).value];
          if w'.engine != w.engine { ResolvedIsStored(w.store, w'.store, AsResolved(g, timestamp), Recorded(g, d, feedback, actor, timestamp)); }
        } else { UnknownIsRefused(w, id, d, feedback, actor, timestamp, stored); }
      case Cancel(id, stored) =>
        if GateIndex(w.engine.gates, id).Some? { CancelMoves(w, id, stored); } else { UnknownIsNotCancelled(w, id, stored); }
      case _ =>
    }
  }

  lemma ResolvedIsStored(before: Store, after: Store, g: ApprovalGate, d: HumanDecision)
    requires Persist(before, g.runId, ResolveGate(g, d), true) == Some(after) && d.runId == g.runId && SettledStore(before)
    ensures IsStored(after, d)
  {
    hide GateIndex, Settled;
  }

  lemma AttemptKeepsGrounded(w: World, a: Attempt)
    requires Grounded(w)
    ensures Grounded(Try(w, a))
  {
    hide SettledStore, ValidGate, Do, IsStored;
    StoreStaysSettled(w, a.call);
    EngineStaysGrounded(w, a.call);
  }

  lemma {:induction false} AttemptsKeepGrounded(attempts: seq<Attempt>)
    ensures Grounded(TryAll(NOTHING_YET, attempts))
  {
    hide Try;
    if attempts != [] {
      hide Grounded;
      AttemptsKeepGrounded(attempts[..|attempts| - 1]);
      AttemptKeepsGrounded(TryAll(NOTHING_YET, attempts[..|attempts| - 1]), attempts[|attempts| - 1]);
    }
  }

  /**
   After any calls of which any may fail early or late, rebuilding the engine succeeds exactly when no gate id occurs in
   two sessions, and raises the duplicate-gate error otherwise. What it rebuilds mirrors the sessions again.
   */
  lemma RebuildAfterLateFailures(attempts: seq<Attempt>, order: seq<string>)
    requires Lists(order, TryAll(NOTHING_YET, attempts).store)
    ensures var store := TryAll(NOTHING_YET, attempts).store;
      && (forall r :: r in order ==> r in store)
      && var rebuilt := Hydrate(Sessions(order, store), |order|);
         && (rebuilt.Ok? <==> IdsApart(store))
         && (rebuilt.Ok? ==> Mirrored(World(rebuilt.value, store)))
         && (rebuilt.Err? ==> rebuilt.error == DuplicateGate)
  {
    hide TryAll, Lists, Hydrate, Sessions, IdsApart, Mirrored, SettledStore;
    AttemptsKeepGrounded(attempts);
    RebuildSucceedsExactly(TryAll(NOTHING_YET, attempts).store, order);
  }

  // ----- Which call makes two sessions share a gate id -----

  ghost predicate HasId(store: Store, runId: string, id: string) { runId in store && exists g :: g in store[runId].gates && g.gateId == id }

  lemma ApartById(store: Store)
    ensures IdsApart(store) <==> forall r, q, id :: HasId(store, r, id) && HasId(store, q, id) ==> r == q
  {
    if forall r, q, id :: HasId(store, r, id) && HasId(store, q, id) ==> r == q {
      forall r, q, g, h | r in store && q in store && g in store[r].gates && h in store[q].gates && g.gateId == h.gateId ensures r == q {
        assert HasId(store, r, g.gateId) && HasId(store, q, g.gateId);
      }
    }
  }

  lemma ReplacedIds(gates: seq<ApprovalGate>, i: nat, g: ApprovalGate, id: string)
    requires i < |gates| && gates[i].gateId == g.gateId
    ensures (exists x :: x in gates[i := g] && x.gateId == id) <==> (exists x :: x in gates && x.gateId == id)
  {
    var gates' := gates[i := g];
    if x :| x in gates && x.gateId == id {
      var k :| 0 <= k < |gates| && gates[k] == x;
      assert gates'[k] in gates' && gates'[k].gateId == id;
    }
    if x :| x in gates' && x.gateId == id {
      var k :| 0 <= k < |gates| && gates'[k] == x;
      assert gates[k] in gates && gates[k].gateId == id;
    }
  }

  lemma AppliedIds(rec: SessionRecord, op: Op, id: string)
    requires Apply(rec, op).Commit?
    ensures (exists x :: x in Apply(rec, op).record.gates && x.gateId == id) <==>
      (exists x :: x in rec.gates && x.gateId == id) || (op.AddGate? && op.gate.gateId == id)
  {
    hide Apply;
    if op.AddGate? {
      AddedGate(rec, op.gate);
      assert op.gate in rec.gates + [op.gate] && forall x :: x in rec.gates ==> x in rec.gates + [op.gate];
    } else if op.ResolveGate? {
      ResolvedGate(rec, op.gate, op.decision);
      ReplacedIds(rec.gates, GateIndex(rec.gates, op.gate.gateId).value, op.gate, id);
    } else if op.CancelGate? {
      CancelledGate(rec, op.gate);
      ReplacedIds(rec.gates, GateIndex(rec.gates, op.gate.gateId).value, op.gate, id);
    } else {
      UntouchedGates(rec, op);
    }
  }

  // Which ids the sessions have after one of them went through an operation.
  lemma MovedIds(before: Store, after: Store, runId: string, op: Op)
    requires Persist(before, runId, op, true) == Some(after) && runId in before
    ensures forall r, id :: HasId(after, r, id) <==>
      HasId(before, r, id) || (op.AddGate? && r == runId && id == op.gate.gateId && Apply(before[runId], op).Commit?)
  {
    hide Apply;
    forall r, id ensures HasId(after, r, id) <==>
      HasId(before, r, id) || (op.AddGate? && r == runId && id == op.gate.gateId && Apply(before[runId], op).Commit?)
    {
      if Apply(before[runId], op).Commit? { AppliedIds(before[runId], op, id); }
    }
  }

  // The request is stored although another run has a gate with its id, which the live engine does not know.
  ghost predicate ReusesAnId(w: World, call: Call) {
    && call.Request? && IsAccepted(w, call.gate, call.stored)
    && exists q :: q != call.gate.runId && HasId(w.store, q, call.gate.gateId)
  }

  // The request is valid, neither the engine nor the run's session knows its id, and the database answers.
  ghost predicate IsAccepted(w: World, gate: ApprovalGate, stored: bool) {
    && stored && ValidGate(AsOpen(gate)) && gate.runId in w.store
    && (forall g :: g in w.engine.gates ==> g.gateId != gate.gateId)
    && !HasId(w.store, gate.runId, gate.gateId)
  }

  lemma {:induction false} FoundById(gates: seq<ApprovalGate>, id: string)
    ensures GateIndex(gates, id).None? <==> forall g :: g in gates ==> g.gateId != id
  {
    if gates != [] {
      FoundById(gates[1..], id);
      assert gates == [gates[0]] + gates[1..];
    }
  }

  lemma AcceptedExactly(w: World, gate: ApprovalGate, stored: bool)
    requires SettledStore(w.store)
    ensures RequestGate(w, gate, stored).error == None <==> IsAccepted(w, gate, stored)
  {
    hide ValidGate, Settled, GateIndex;
    FoundById(w.engine.gates, gate.gateId);
    if gate.runId in w.store { FoundById(w.store[gate.runId].gates, gate.gateId); }
  }

  lemma RequestIds(w: World, gate: ApprovalGate, stored: bool)
    ensures var reply := RequestGate(w, gate, stored);
      forall r, id :: HasId(reply.world.store, r, id) <==>
        HasId(w.store, r, id) || (reply.error == None && r == gate.runId && id == gate.gateId)
  {
    hide ValidGate, GateIndex, HasId, Apply;
    var op := AddGate(AsOpen(gate));
    var reply := RequestGate(w, gate, stored);
    if reply.error == None {
      PersistedWhen(w.store, gate.runId, op, stored);
      MovedIds(w.store, reply.world.store, gate.runId, op);
      AddingCommits(w.store, gate.runId, AsOpen(gate));
    }
  }

  lemma AddingCommits(store: Store, runId: string, g: ApprovalGate)
    requires Persist(store, runId, AddGate(g), true).Some?
    ensures Apply(store[runId], AddGate(g)).Commit?
  {
  }

  // Every other call leaves the ids as they are.
  lemma OtherCallsKeepIds(w: World, call: Call)
    requires Grounded(w) && !call.Request?
    ensures forall r, id :: HasId(Do(w, call).world.store, r, id) <==> HasId(w.store, r, id)
  {
    hide Grounded, RequestGate, ResolveOpenGate, CancelOpenGate, IsRecorded, Persist, TouchesGates, GateOp, HasId;
    match call {
      case CreateRun(runId) => if runId !in w.store { NewSessionHasNoIds(w.store, runId); }
      case Resolve(id, d, feedback, actor, timestamp, stored) =>
        if GateIndex(w.engine.gates, id).Some? {
          ResolveMoves(w, id, d, feedback, actor, timestamp, stored);
          var g := w.engine.gates[GateIndex(w.engine.gates, id).value];
          StayedIds(w.store, Do(w, call).world.store, g.runId, ResolveGate(AsResolved(g, timestamp), Recorded(g, d, feedback, actor, timestamp)));
        } else { UnknownIsRefused(w, id, d, feedback, actor, timestamp, stored); }
      case Cancel(id, stored) =>
        if GateIndex(w.engine.gates, id).Some? {
          CancelMoves(w, id, stored);
          var g := w.engine.gates[GateIndex(w.engine.gates, id).value];
          StayedIds(w.store, Do(w, call).world.store, g.runId, CancelGate(g.(status := Cancelled)));
        } else { UnknownIsNotCancelled(w, id, stored); }
      case Confirm(d, stored) =>
        ConfirmMoves(w, d, stored);
        StayedIds(w.store, Do(w, call).world.store, d.runId, AddDecision(d));
      case Elsewhere(runId, op) =>
        ElsewhereMoves(w, runId, op);
        if !TouchesGates(op) {
          NoGateIsAdded(op);
          StayedIds(w.store, Do(w, call).world.store, runId, op);
        }
    }
  }

  lemma NoGateIsAdded(op: Op)
    requires !TouchesGates(op)
    ensures !op.AddGate?
  {
  }

  lemma StayedIds(before: Store, after: Store, runId: string, op: Op)
    requires Moved(before, after, runId, op) && !op.AddGate?
    ensures forall r, id :: HasId(after, r, id) <==> HasId(before, r, id)
  {
    hide HasId, GateOp, Persist, Apply;
    if after != before { MovedIds(before, after, runId, op); }
  }

  lemma NewSessionHasNoIds(store: Store, runId: string)
    requires runId !in store
    ensures forall r, id :: HasId(store[runId := NewSession(runId)], r, id) <==> HasId(store, r, id)
  {
  }

  /** One call, late or not, makes two sessions share a gate id exactly when it stores a request under the id of another run's gate. */
  lemma IdsStayApartExactly(w: World, a: Attempt)
    requires Grounded(w) && IdsApart(w.store)
    ensures IdsApart(Try(w, a).store) <==> !ReusesAnId(w, a.call)
  {
    hide Grounded, HasId, IdsApart, Do, IsAccepted;
    ApartById(w.store);
    ApartById(Try(w, a).store);
    if a.call.Request? {
      SettledSessions(w);
      DoIsRequest(w, a.call.gate, a.call.stored);
      AcceptedExactly(w, a.call.gate, a.call.stored);
      RequestIds(w, a.call.gate, a.call.stored);
      if ReusesAnId(w, a.call) {
        var q :| q != a.call.gate.runId && HasId(w.store, q, a.call.gate.gateId);
        assert HasId(Try(w, a).store, q, a.call.gate.gateId) && HasId(Try(w, a).store, a.call.gate.runId, a.call.gate.gateId);
      }
    } else {
      OtherCallsKeepIds(w, a.call);
    }
  }

  lemma SettledSessions(w: World)
    requires Grounded(w)
    ensures SettledStore(w.store)
  {
    hide SettledStore;
  }

  lemma DoIsRequest(w: World, gate: ApprovalGate, stored: bool)
    ensures Do(w, Request(gate, stored)) == RequestGate(w, gate, stored)
  {
    hide RequestGate;
  }

  // While nothing failed late, the engine knows every id, so no call reuses one.
  lemma NoIdIsReused(w: World, call: Call)
    requires Mirrored(w)
    ensures !ReusesAnId(w, call)
  {
    hide Mirrored, HasId, IdsApart, Do;
    MirroredSessions(w);
    CallKeepsMirrored(w, call);
    MirroredSessions(Do(w, call).world);
    MirroredIsGrounded(w);
    IdsStayApartExactly(w, Attempt(call, false));
  }

  lemma MirroredIsGrounded(w: World)
    requires Mirrored(w)
    ensures Grounded(w)
  {
    hide Settled, GateIndex, GatesOf, ValidGate;
    MirroredSessions(w);
    forall g | g in w.engine.gates ensures ValidGate(g) { KnownGate(w, g); }
    forall id, d | id in w.engine.decisions && d in w.engine.decisions[id] ensures IsStored(w.store, d) {
      var g := w.engine.gates[GateIndex(w.engine.gates, id).value];
      KnownGate(w, g);
      DecisionsOfMembers(w.store[g.runId].decisions, id);
      StoredUnderItsRun(w.store, g.runId, d);
    }
  }

  lemma StoredUnderItsRun(store: Store, runId: string, d: HumanDecision)
    requires SettledStore(store) && runId in store && d in store[runId].decisions
    ensures IsStored(store, d)
  {
    hide GatesSettled, DecisionsSettled, UniqueDecisions, UniqueGates, UniqueResults;
  }

  // ----- A rebuild that fails -----

  const GATE: ApprovalGate := ApprovalGate("g", "r", "k", "t", "p", NoContext, [Approve], Open, "n", None)

  const LOST_REQUEST: seq<Attempt> := [
    Attempt(CreateRun("r"), false), Attempt(CreateRun("q"), false), Attempt(Request(GATE, true), true)]

  lemma GateIsValid()
    ensures ValidGate(GATE) && ValidGate(GATE.(runId := "q"))
  {
    assert "g"[0] == 'g' && "r"[0] == 'r' && "k"[0] == 'k' && "t"[0] == 't' && "p"[0] == 'p' && "n"[0] == 'n' && "q"[0] == 'q';
  }

  lemma AfterTheLostRequest()
    ensures var w := TryAll(NOTHING_YET, LOST_REQUEST);
      w.engine == NO_GATES && w.store == map["r" := NewSession("r").(gates := [GATE], revision := 1), "q" := NewSession("q")]
  {
    GateIsValid();
    hide ValidGate;
    assert AsOpen(GATE) == GATE;
    var a, b, c := Attempt(CreateRun("r"), false), Attempt(CreateRun("q"), false), Attempt(Request(GATE, true), true);
    OneMoreAttempt([], a);
    OneMoreAttempt([a], b);
    OneMoreAttempt([a, b], c);
    assert [] + [a] == [a] && [a] + [b] == [a, b] && [a, b] + [c] == LOST_REQUEST;
    assert TryAll(NOTHING_YET, []) == NOTHING_YET;
    var w2 := TryAll(NOTHING_YET, [a, b]);
    assert w2 == World(NO_GATES, map["r" := NewSession("r"), "q" := NewSession("q")]);
    assert [] + [GATE] == [GATE];
    assert w2.store["r" := NewSession("r").(gates := [GATE], revision := 1)]
      == map["r" := NewSession("r").(gates := [GATE], revision := 1), "q" := NewSession("q")];
  }

  /** A request fails late; its id is requested for another run and stored; the engine can no longer be rebuilt. */
  lemma ALostRequestCanPreventRebuilding()
    ensures var w := TryAll(NOTHING_YET, LOST_REQUEST + [Attempt(Request(GATE.(runId := "q"), true), false)]);
      && Lists(["r", "q"], w.store) && (forall r :: r in ["r", "q"] ==> r in w.store)
      && Hydrate(Sessions(["r", "q"], w.store), 2) == Err(DuplicateGate)
  {
    hide TryAll, Hydrate, Sessions, IdsApart, Mirrored, HasId, ValidGate, Grounded, IsAccepted, RequestGate;
    var before := TryAll(NOTHING_YET, LOST_REQUEST);
    var last := Attempt(Request(GATE.(runId := "q"), true), false);
    AfterTheLostRequest();
    OneMoreAttempt(LOST_REQUEST, last);
    AttemptsKeepGrounded(LOST_REQUEST);
    SecondRequest(before);
    SettledSessions(before);
    DoIsRequest(before, GATE.(runId := "q"), true);
    AcceptedExactly(before, GATE.(runId := "q"), true);
    IdsOfBoth(before.store);
    IdsStayApartExactly(before, last);
    RebuildAfterLateFailures(LOST_REQUEST + [last], ["r", "q"]);
  }

  lemma OneMoreAttempt(attempts: seq<Attempt>, a: Attempt)
    ensures TryAll(NOTHING_YET, attempts + [a]) == Try(TryAll(NOTHING_YET, attempts), a)
  {
    hide Try;
    assert (attempts + [a])[..|attempts|] == attempts;
  }

  lemma SecondRequest(w: World)
    requires w.engine == NO_GATES && w.store == map["r" := NewSession("r").(gates := [GATE], revision := 1), "q" := NewSession("q")]
    ensures Do(w, Request(GATE.(runId := "q"), true)).error == None
    ensures Lists(["r", "q"], Do(w, Request(GATE.(runId := "q"), true)).world.store)
  {
    GateIsValid();
    hide ValidGate;
    assert AsOpen(GATE.(runId := "q")) == GATE.(runId := "q");
  }

  lemma IdsOfBoth(store: Store)
    requires store == map["r" := NewSession("r").(gates := [GATE], revision := 1), "q" := NewSession("q")]
    ensures HasId(store, "r", "g") && IdsApart(store)
  {
    assert store["r"].gates[0] == GATE && "r" != "q";
    assert GATE in store["r"].gates && store["q"].gates == [];
  }
}
