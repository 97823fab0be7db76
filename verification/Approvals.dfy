/**
 The gates and decisions a durable approval engine holds, the calls that change them,
 and the rebuilding of an engine from the stored sessions.
 */
module Approvals {
  import opened Wrappers
  import opened Contracts
  import opened Text
  import opened SessionStore

  datatype ApprovalError =
    | InvalidGate | GateExists | UnknownGateId | NotOpen | NotAllowed | EmptyActor | NotPersisted
    | ForeignGate | DuplicateGate | ForeignDecision | InvalidDecision
    | OpenWithDecision | ResolvedWithoutOneDecision | CancelledWithDecision | NotRecorded

  // ----- app/approval/models.py -----

  predicate ValidGate(g: ApprovalGate) {
    && !Blank(g.gateId) && !Blank(g.runId) && !Blank(g.kind)
    && !Blank(g.title) && !Blank(g.prompt) && !Blank(g.createdAt)
    && g.allowed != []
    && (forall i, j :: 0 <= i < j < |g.allowed| ==> g.allowed[i] != g.allowed[j])
    && (g.status == Resolved ==> g.resolvedAt.Some? && g.resolvedAt.value != "")
    && (g.status != Resolved ==> g.resolvedAt.None?)
  }

  predicate ValidDecision(d: HumanDecision) {
    !Blank(d.gateId) && !Blank(d.runId) && !Blank(d.timestamp) && !Blank(d.actor)
  }

  // ----- The engine's dictionaries: gates in the order they were first stored -----

  datatype Engine = Engine(gates: seq<ApprovalGate>, decisions: map<string, seq<HumanDecision>>)

  const NO_GATES: Engine := Engine([], map[])

  function GatesOf(gates: seq<ApprovalGate>, runId: string): seq<ApprovalGate> {
    if gates == [] then []
    else
      var last := gates[|gates| - 1];
      GatesOf(gates[..|gates| - 1], runId) + (if last.runId == runId then [last] else [])
  }

  function DecisionsOf(decisions: seq<HumanDecision>, gateId: string): seq<HumanDecision> {
    if decisions == [] then []
    else
      var last := decisions[|decisions| - 1];
      DecisionsOf(decisions[..|decisions| - 1], gateId) + (if last.gateId == gateId then [last] else [])
  }

  function Find(gates: seq<ApprovalGate>, gateId: string): (r: Option<ApprovalGate>)
    ensures r.Some? ==> r.value in gates && r.value.gateId == gateId
  {
    match GateIndex(gates, gateId) case None => None case Some(i) => Some(gates[i])
  }

  // ----- Rebuilding the engine from the sessions -----

  function CheckHistory(history: seq<HumanDecision>, runId: string): Option<ApprovalError> {
    if history == [] then None
    else
      match CheckHistory(history[..|history| - 1], runId)
      case Some(e) => Some(e)
      case None =>
        var d := history[|history| - 1];
        if d.runId != runId then Some(ForeignDecision) else if !ValidDecision(d) then Some(InvalidDecision) else None
  }

  function Restore(e: Engine, rec: SessionRecord, g: ApprovalGate): Result<Engine, ApprovalError> {
    var history := DecisionsOf(rec.decisions, g.gateId);
    if !ValidGate(g) then Err(InvalidGate)
    else if g.runId != rec.runId then Err(ForeignGate)
    else if Find(e.gates, g.gateId).Some? then Err(DuplicateGate)
    else if CheckHistory(history, g.runId).Some? then Err(CheckHistory(history, g.runId).value)
    else if g.status == Open && history != [] then Err(OpenWithDecision)
    else if g.status == Resolved && |history| != 1 then Err(ResolvedWithoutOneDecision)
    else if g.status == Cancelled && history != [] then Err(CancelledWithDecision)
    else Ok(Engine(e.gates + [g], e.decisions[g.gateId := history]))
  }

  function RestoreSession(e: Engine, rec: SessionRecord, n: nat): Result<Engine, ApprovalError>
    requires n <= |rec.gates|
  {
    if n == 0 then Ok(e)
    else
      match RestoreSession(e, rec, n - 1)
      case Err(x) => Err(x)
      case Ok(e') => Restore(e', rec, rec.gates[n - 1])
  }

  // _hydrate over the first n sessions.
  function Hydrate(sessions: seq<SessionRecord>, n: nat): Result<Engine, ApprovalError>
    requires n <= |sessions|
  {
    if n == 0 then Ok(NO_GATES)
    else
      match Hydrate(sessions, n - 1)
      case Err(x) => Err(x)
      case Ok(e) => RestoreSession(e, sessions[n - 1], |sessions[n - 1].gates|)
  }

  // ----- The calls -----

  datatype World = World(engine: Engine, store: Store)

  datatype Reply = Reply(world: World, error: Option<ApprovalError>)

  /** `stored` says whether the database answers the call; when it does not, the manager raises and nothing is stored. */
  datatype Call =
    | CreateRun(runId: string)
    | Request(gate: ApprovalGate, stored: bool)
    | Resolve(gateId: string, decision: DecisionType, feedback: string, actor: string, timestamp: string, stored: bool)
    | Cancel(gateId: string, stored: bool)
    | Confirm(recorded: HumanDecision, stored: bool)
    | Elsewhere(runId: string, op: Op)

  // The session manager's read-modify-save; None when it raises.
  function Persist(store: Store, runId: string, op: Op, stored: bool): Option<Store> {
    if !stored || runId !in store then None
    else
      match Apply(store[runId], op)
      case Commit(rec) => Some(store[runId := rec.(revision := store[runId].revision + 1)])
      case Unchanged => Some(store)
      case Refused(_) => None
  }

  function AsOpen(g: ApprovalGate): ApprovalGate { g.(status := Open, resolvedAt := None) }

  function RequestGate(w: World, gate: ApprovalGate, stored: bool): Reply {
    var g := AsOpen(gate);
    if !ValidGate(g) then Reply(w, Some(InvalidGate))
    else if Find(w.engine.gates, g.gateId).Some? then Reply(w, Some(GateExists))
    else
      match Persist(w.store, g.runId, AddGate(g), stored)
      case None => Reply(w, Some(NotPersisted))
      case Some(store) =>
        Reply(World(Engine(w.engine.gates + [g], w.engine.decisions[g.gateId := []]), store), None)
  }

  function Recorded(g: ApprovalGate, decision: DecisionType, feedback: string, actor: string, timestamp: string): HumanDecision {
    HumanDecision(g.gateId, g.runId, decision, Strip(feedback), timestamp, Strip(actor))
  }

  function AsResolved(g: ApprovalGate, timestamp: string): ApprovalGate {
    g.(status := Resolved, resolvedAt := Some(timestamp))
  }

  function ResolveOpenGate(w: World, gateId: string, decision: DecisionType, feedback: string, actor: string, timestamp: string, stored: bool): Reply
  {
    if Blank(actor) then Reply(w, Some(EmptyActor))
    else
      match GateIndex(w.engine.gates, gateId)
      case None => Reply(w, Some(UnknownGateId))
      case Some(i) =>
        var g := w.engine.gates[i];
        if g.status != Open then Reply(w, Some(NotOpen))
        else if decision !in g.allowed then Reply(w, Some(NotAllowed))
        else
          var record := Recorded(g, decision, feedback, actor, timestamp);
          var resolved := AsResolved(g, timestamp);
          if !ValidGate(resolved) || !ValidDecision(record) then Reply(w, Some(NotPersisted))
          else
            match Persist(w.store, g.runId, ResolveGate(resolved, record), stored)
            case None => Reply(w, Some(NotPersisted))
            case Some(store) =>
              if gateId in w.engine.decisions then
                Reply(World(Engine(w.engine.gates[i := resolved],
                                   w.engine.decisions[gateId := w.engine.decisions[gateId] + [record]]), store), None)
              else Reply(w, Some(UnknownGateId))
  }

  function CancelOpenGate(w: World, gateId: string, stored: bool): Reply {
    match GateIndex(w.engine.gates, gateId)
    case None => Reply(w, Some(UnknownGateId))
    case Some(i) =>
      var g := w.engine.gates[i];
      if g.status != Open then Reply(w, Some(NotOpen))
      else
        match Persist(w.store, g.runId, CancelGate(g.(status := Cancelled)), stored)
        case None => Reply(w, Some(NotPersisted))
        case Some(store) => Reply(World(w.engine.(gates := w.engine.gates[i := g.(status := Cancelled)]), store), None)
  }

  // get_decision: the last entry of the history.
  function Decision(e: Engine, gateId: string): Option<HumanDecision> {
    if gateId !in e.decisions || e.decisions[gateId] == [] then None
    else Some(e.decisions[gateId][|e.decisions[gateId]| - 1])
  }

  // The coordinator's _validate_recorded_decision.
  predicate IsRecorded(e: Engine, d: HumanDecision) {
    && ValidDecision(d)
    && Find(e.gates, d.gateId).Some?
    && Find(e.gates, d.gateId).value.runId == d.runId
    && Find(e.gates, d.gateId).value.status == Resolved
    && Decision(e, d.gateId) == Some(d)
  }

  predicate TouchesGates(op: Op) { op.AddDecision? || op.AddGate? || op.ResolveGate? || op.CancelGate? }

  function Do(w: World, call: Call): Reply {
    match call
    case CreateRun(runId) =>
      Reply(if runId in w.store then w else w.(store := w.store[runId := NewSession(runId)]), None)
    case Request(g, stored) => RequestGate(w, g, stored)
    case Resolve(id, d, feedback, actor, timestamp, stored) => ResolveOpenGate(w, id, d, feedback, actor, timestamp, stored)
    case Cancel(id, stored) => CancelOpenGate(w, id, stored)
    case Confirm(d, stored) =>
      if !IsRecorded(w.engine, d) then Reply(w, Some(NotRecorded))
      else
        (match Persist(w.store, d.runId, AddDecision(d), stored)
         case None => Reply(w, Some(NotPersisted))
         case Some(store) => Reply(w.(store := store), None))
    case Elsewhere(runId, op) =>
      if TouchesGates(op) then Reply(w, None)
      else
        match Persist(w.store, runId, op, true)
        case None => Reply(w, Some(NotPersisted))
        case Some(store) => Reply(w.(store := store), None)
  }

  function DoAll(w: World, calls: seq<Call>): World {
    if calls == [] then w else Do(DoAll(w, calls[..|calls| - 1]), calls[|calls| - 1]).world
  }
}
