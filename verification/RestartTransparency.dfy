/** What every sequence of approval calls keeps, and why a restarted engine is the engine that was lost. */
module RestartTransparency {
  import opened Wrappers
  import opened Contracts
  import opened Text
  import opened SessionStore
  import opened Approvals

  // ----- Filtering by run and by gate -----

  lemma {:induction false} GatesOfMembers(gates: seq<ApprovalGate>, runId: string)
    ensures forall g :: g in GatesOf(gates, runId) <==> g in gates && g.runId == runId
    ensures UniqueGates(gates) ==> UniqueGates(GatesOf(gates, runId))
  {
    if gates != [] {
      var before := gates[..|gates| - 1];
      GatesOfMembers(before, runId);
      assert gates == before + [gates[|gates| - 1]];
    }
  }

  lemma GatesOfAppended(gates: seq<ApprovalGate>, g: ApprovalGate, runId: string)
    ensures GatesOf(gates + [g], runId) == GatesOf(gates, runId) + (if g.runId == runId then [g] else [])
  {
    assert (gates + [g])[..|gates|] == gates;
  }

  lemma {:induction false} GatesOfOne(gates: seq<ApprovalGate>, runId: string)
    requires forall g :: g in gates ==> g.runId == runId
    ensures GatesOf(gates, runId) == gates
  {
    if gates != [] {
      GatesOfOne(gates[..|gates| - 1], runId);
      assert gates == gates[..|gates| - 1] + [gates[|gates| - 1]];
    }
  }

  lemma {:induction false} GatesOfNone(gates: seq<ApprovalGate>, runId: string)
    requires forall g :: g in gates ==> g.runId != runId
    ensures GatesOf(gates, runId) == []
  {
    if gates != [] { GatesOfNone(gates[..|gates| - 1], runId); }
  }

  lemma {:induction false} GatesOfConcat(a: seq<ApprovalGate>, b: seq<ApprovalGate>, runId: string)
    ensures GatesOf(a + b, runId) == GatesOf(a, runId) + GatesOf(b, runId)
  {
    if b == [] {
      assert a + b == a;
    } else {
      var last := b[|b| - 1];
      GatesOfConcat(a, b[..|b| - 1], runId);
      assert a + b == (a + b[..|b| - 1]) + [last];
      GatesOfAppended(a + b[..|b| - 1], last, runId);
    }
  }

  // The position of a gate among the gates of its run.
  function Position(gates: seq<ApprovalGate>, i: nat): nat
    requires i < |gates|
  {
    |GatesOf(gates[..i], gates[i].runId)|
  }

  // Replacing a gate in the engine replaces it in the list of its run, and in no other.
  lemma {:induction false} GatesOfReplaced(gates: seq<ApprovalGate>, i: nat, g: ApprovalGate, runId: string)
    requires i < |gates| && g.runId == gates[i].runId
    ensures var k := Position(gates, i);
      if runId == g.runId
      then k < |GatesOf(gates, runId)| && GatesOf(gates, runId)[k] == gates[i] && GatesOf(gates[i := g], runId) == GatesOf(gates, runId)[k := g]
      else GatesOf(gates[i := g], runId) == GatesOf(gates, runId)
  {
    var after := gates[i + 1..];
    assert gates == (gates[..i] + [gates[i]]) + after;
    assert gates[i := g] == (gates[..i] + [g]) + after;
    GatesOfConcat(gates[..i] + [gates[i]], after, runId);
    GatesOfConcat(gates[..i] + [g], after, runId);
    GatesOfAppended(gates[..i], gates[i], runId);
    GatesOfAppended(gates[..i], g, runId);
  }

  lemma IndexIsUnique(gates: seq<ApprovalGate>, i: nat)
    requires UniqueGates(gates) && i < |gates|
    ensures GateIndex(gates, gates[i].gateId) == Some(i)
  {
  }

  lemma FindMember(gates: seq<ApprovalGate>, g: ApprovalGate)
    requires UniqueGates(gates) && g in gates
    ensures Find(gates, g.gateId) == Some(g)
  {
    var i :| 0 <= i < |gates| && gates[i] == g;
    IndexIsUnique(gates, i);
  }

  lemma FindAppended(gates: seq<ApprovalGate>, g: ApprovalGate, id: string)
    requires Find(gates, id).Some?
    ensures Find(gates + [g], id) == Find(gates, id)
  {
    var i := GateIndex(gates, id).value;
    assert (gates + [g])[i] == gates[i];
    assert forall k :: 0 <= k < i ==> (gates + [g])[k] == gates[k];
  }

  lemma DecisionsOfAppended(decisions: seq<HumanDecision>, d: HumanDecision, gateId: string)
    ensures DecisionsOf(decisions + [d], gateId) == DecisionsOf(decisions, gateId) + (if d.gateId == gateId then [d] else [])
  {
    assert (decisions + [d])[..|decisions|] == decisions;
  }

  lemma {:induction false} DecisionsOfMembers(decisions: seq<HumanDecision>, gateId: string)
    ensures forall d :: d in DecisionsOf(decisions, gateId) <==> d in decisions && d.gateId == gateId
  {
    if decisions != [] {
      var before := decisions[..|decisions| - 1];
      DecisionsOfMembers(before, gateId);
      assert decisions == before + [decisions[|decisions| - 1]];
    }
  }

  lemma {:induction false} NoDecisions(decisions: seq<HumanDecision>, gateId: string)
    requires forall d :: d in decisions ==> d.gateId != gateId
    ensures DecisionsOf(decisions, gateId) == []
  {
    if decisions != [] { NoDecisions(decisions[..|decisions| - 1], gateId); }
  }

  lemma TheOnlyDecision(decisions: seq<HumanDecision>, gateId: string, d: HumanDecision)
    requires DecisionsOf(decisions, gateId) == [d]
    ensures FindDecision(decisions, gateId) == Some(d)
  {
    DecisionsOfMembers(decisions, gateId);
    assert d in DecisionsOf(decisions, gateId);
    var found := FindDecision(decisions, gateId);
    assert found.value in DecisionsOf(decisions, gateId);
  }

  // ----- The invariant of one session record -----

  ghost predicate Coupled(g: ApprovalGate, history: seq<HumanDecision>) {
    if g.status == Resolved then |history| == 1 else history == []
  }

  ghost predicate GatesSettled(gates: seq<ApprovalGate>, decisions: seq<HumanDecision>) {
    forall g :: g in gates ==> ValidGate(g) && Coupled(g, DecisionsOf(decisions, g.gateId))
  }

  ghost predicate DecisionsSettled(gates: seq<ApprovalGate>, decisions: seq<HumanDecision>) {
    forall d :: d in decisions ==> ValidDecision(d) && GateIndex(gates, d.gateId).Some?
  }

  // Gates are valid, a gate has a decision exactly when it is resolved, and every decision has its gate.
  ghost predicate Settled(rec: SessionRecord) {
    WellFormed(rec) && GatesSettled(rec.gates, rec.decisions) && DecisionsSettled(rec.gates, rec.decisions)
  }

  // The operations that the approval engine sends to a session, as it sends them.
  ghost predicate GateOp(rec: SessionRecord, op: Op) {
    match op
    case AddGate(g) => ValidGate(g) && g.status == Open
    case ResolveGate(g, d) => ValidGate(g) && g.status == Resolved && ValidDecision(d) && d.gateId == g.gateId
    case CancelGate(g) => ValidGate(g) && g.status == Cancelled
    case AddDecision(d) => d in rec.decisions
    case _ => true
  }

  lemma NewGateIsSettled(gates: seq<ApprovalGate>, decisions: seq<HumanDecision>, g: ApprovalGate)
    requires GatesSettled(gates, decisions) && DecisionsSettled(gates, decisions)
    requires ValidGate(g) && g.status == Open && GateIndex(gates, g.gateId).None?
    ensures GatesSettled(gates + [g], decisions) && DecisionsSettled(gates + [g], decisions)
  {
    hide ValidGate, ValidDecision;
    forall d | d in decisions ensures d.gateId != g.gateId && GateIndex(gates + [g], d.gateId).Some? {
      var i := GateIndex(gates, d.gateId).value;
      assert (gates + [g])[i] == gates[i];
    }
    NoDecisions(decisions, g.gateId);
  }

  lemma ReplacedMembers(gates: seq<ApprovalGate>, i: nat, g: ApprovalGate)
    requires UniqueGates(gates) && i < |gates| && gates[i].gateId == g.gateId
    ensures forall x :: x in gates[i := g] <==> x == g || (x in gates && x.gateId != g.gateId)
    ensures forall id :: GateIndex(gates[i := g], id).Some? <==> GateIndex(gates, id).Some?
  {
    var gates' := gates[i := g];
    forall x | x in gates && x.gateId != g.gateId ensures x in gates' {
      var k :| 0 <= k < |gates| && gates[k] == x;
      assert gates'[k] == x;
    }
    assert gates'[i] == g;
    forall id | GateIndex(gates, id).Some? ensures GateIndex(gates', id).Some? {
      assert gates'[GateIndex(gates, id).value].gateId == id;
    }
    forall id | GateIndex(gates', id).Some? ensures GateIndex(gates, id).Some? {
      assert gates[GateIndex(gates', id).value].gateId == id;
    }
  }

  lemma DecidedGateIsSettled(gates: seq<ApprovalGate>, decisions: seq<HumanDecision>, i: nat, g: ApprovalGate, d: HumanDecision)
    requires UniqueGates(gates) && GatesSettled(gates, decisions) && DecisionsSettled(gates, decisions)
    requires i < |gates| && gates[i].gateId == g.gateId == d.gateId
    requires ValidGate(g) && g.status == Resolved && ValidDecision(d) && FindDecision(decisions, g.gateId).None?
    ensures GatesSettled(gates[i := g], decisions + [d]) && DecisionsSettled(gates[i := g], decisions + [d])
  {
    hide ValidGate, ValidDecision, UniqueGates, GateIndex, FindDecision, DecisionsOf;
    ReplacedMembers(gates, i, g);
    NoDecisions(decisions, g.gateId);
    IndexExists(gates, i);
    forall x | x in gates[i := g] ensures ValidGate(x) && Coupled(x, DecisionsOf(decisions + [d], x.gateId)) {
      DecisionsOfAppended(decisions, d, x.gateId);
    }
  }

  lemma IndexExists(gates: seq<ApprovalGate>, i: nat)
    requires i < |gates|
    ensures GateIndex(gates, gates[i].gateId).Some?
  {
  }

  lemma CancelledGateIsSettled(gates: seq<ApprovalGate>, decisions: seq<HumanDecision>, i: nat, g: ApprovalGate)
    requires UniqueGates(gates) && GatesSettled(gates, decisions) && DecisionsSettled(gates, decisions)
    requires i < |gates| && gates[i].gateId == g.gateId && gates[i].status == Open
    requires ValidGate(g) && g.status == Cancelled
    ensures GatesSettled(gates[i := g], decisions) && DecisionsSettled(gates[i := g], decisions)
  {
    hide ValidGate, ValidDecision, UniqueGates, GateIndex, DecisionsOf;
    ReplacedMembers(gates, i, g);
    assert gates[i] in gates;
  }

  lemma UntouchedGates(rec: SessionRecord, op: Op)
    requires !op.AddGate? && !op.ResolveGate? && !op.CancelGate? && Apply(rec, op).Commit?
    ensures Apply(rec, op).record.gates == rec.gates
    ensures !op.AddDecision? ==> Apply(rec, op).record.decisions == rec.decisions
  {
  }

  lemma UniqueGatesOf(rec: SessionRecord)
    requires WellFormed(rec)
    ensures UniqueGates(rec.gates)
  {
  }

  lemma KnownDecisionIsNotAdded(rec: SessionRecord, d: HumanDecision)
    requires d in rec.decisions
    ensures !Apply(rec, AddDecision(d)).Commit?
  {
  }

  lemma ResolveKeepsSettled(rec: SessionRecord, g: ApprovalGate, d: HumanDecision)
    requires WellFormed(rec) && GatesSettled(rec.gates, rec.decisions) && DecisionsSettled(rec.gates, rec.decisions)
    requires GateOp(rec, ResolveGate(g, d)) && Apply(rec, ResolveGate(g, d)).Commit?
    ensures var rec' := Apply(rec, ResolveGate(g, d)).record;
      GatesSettled(rec'.gates, rec'.decisions) && DecisionsSettled(rec'.gates, rec'.decisions)
  {
    UniqueGatesOf(rec);
    hide WellFormed, ValidGate, ValidDecision, GatesSettled, DecisionsSettled, UniqueGates;
    DecidedGateIsSettled(rec.gates, rec.decisions, GateIndex(rec.gates, g.gateId).value, g, d);
  }

  lemma OpKeepsSettled(rec: SessionRecord, op: Op)
    requires Settled(rec) && GateOp(rec, op) && Apply(rec, op).Commit?
    ensures Settled(Apply(rec, op).record)
  {
    hide WellFormed, ValidGate, ValidDecision, GatesSettled, DecisionsSettled, UniqueGates, UniqueResults, UniqueDecisions, FindResult, FindDecision;
    ApplyKeepsWellFormed(rec, op);
    UniqueGatesOf(rec);
    if op.AddGate? {
      NewGateIsSettled(rec.gates, rec.decisions, op.gate);
    } else if op.ResolveGate? {
      ResolveKeepsSettled(rec, op.gate, op.decision);
    } else if op.CancelGate? {
      CancelledGateIsSettled(rec.gates, rec.decisions, GateIndex(rec.gates, op.gate.gateId).value, op.gate);
    } else {
      if op.AddDecision? { KnownDecisionIsNotAdded(rec, op.decision); }
      UntouchedGates(rec, op);
    }
  }

  // ----- The invariant of the engine over its sessions -----

  ghost predicate RunMirrored(gates: seq<ApprovalGate>, rec: SessionRecord, runId: string) {
    rec.runId == runId && Settled(rec) && GatesOf(gates, runId) == rec.gates
  }

  ghost predicate GateMirrored(w: World, g: ApprovalGate) {
    && g.runId in w.store && g.gateId in w.engine.decisions
    && w.engine.decisions[g.gateId] == DecisionsOf(w.store[g.runId].decisions, g.gateId)
  }

  // Per run the engine holds exactly the stored gates in their stored order, and per gate its stored decisions.
  ghost predicate Mirrored(w: World) {
    && UniqueGates(w.engine.gates)
    && (forall r :: r in w.store ==> RunMirrored(w.engine.gates, w.store[r], r))
    && (forall g :: g in w.engine.gates ==> GateMirrored(w, g))
    && (forall id :: id in w.engine.decisions ==> GateIndex(w.engine.gates, id).Some?)
  }

  lemma Persisted(store: Store, runId: string, op: Op, stored: bool)
    requires runId in store && Settled(store[runId]) && GateOp(store[runId], op)
    requires Persist(store, runId, op, stored).Some?
    ensures var rec := Persist(store, runId, op, stored).value[runId];
      && Persist(store, runId, op, stored).value == store[runId := rec]
      && rec.runId == store[runId].runId && Settled(rec)
  {
    hide Settled, GateOp;
    if Apply(store[runId], op).Commit? {
      OpKeepsSettled(store[runId], op);
      ApplyKeepsIdentity(store[runId], op);
      var rec := Apply(store[runId], op).record;
      SettledIgnoresRevision(rec, store[runId].revision + 1);
    }
    assert store == store[runId := store[runId]];
  }

  lemma SettledIgnoresRevision(rec: SessionRecord, revision: nat)
    requires Settled(rec)
    ensures Settled(rec.(revision := revision))
  {
    hide UniqueResults, UniqueDecisions, UniqueGates, GatesSettled, DecisionsSettled;
  }

  // A change of one session that leaves its gates and decisions alone.
  lemma OtherChangesKeepMirrored(w: World, w': World, runId: string)
    requires Mirrored(w) && w'.engine == w.engine
    requires runId in w'.store && w'.store == w.store[runId := w'.store[runId]]
    requires w'.store[runId].runId == runId && Settled(w'.store[runId])
    requires runId in w.store ==>
      w'.store[runId].gates == w.store[runId].gates && w'.store[runId].decisions == w.store[runId].decisions
    requires runId !in w.store ==> w'.store[runId].gates == []
    ensures Mirrored(w')
  {
    hide Settled, UniqueGates, GateIndex, DecisionsOf, GatesOf;
    if runId !in w.store {
      assert forall g :: g in w.engine.gates ==> GateMirrored(w, g);
      GatesOfNone(w.engine.gates, runId);
    }
    forall r | r in w'.store ensures RunMirrored(w'.engine.gates, w'.store[r], r) {
      if r in w.store { assert RunMirrored(w.engine.gates, w.store[r], r); }
    }
    forall g | g in w'.engine.gates ensures GateMirrored(w', g) { assert GateMirrored(w, g); }
  }

  lemma AppendedGateIsUnique(gates: seq<ApprovalGate>, g: ApprovalGate)
    requires UniqueGates(gates) && GateIndex(gates, g.gateId).None?
    ensures UniqueGates(gates + [g])
    ensures forall id :: GateIndex(gates + [g], id).Some? <==> GateIndex(gates, id).Some? || id == g.gateId
  {
    forall id ensures GateIndex(gates + [g], id).Some? <==> GateIndex(gates, id).Some? || id == g.gateId {
      match GateIndex(gates, id) {
        case Some(i) => assert (gates + [g])[i].gateId == id;
        case None => assert (gates + [g])[|gates|] == g;
      }
    }
  }

  lemma KnownGate(w: World, g: ApprovalGate)
    requires Mirrored(w) && g in w.engine.gates
    ensures GateMirrored(w, g) && RunMirrored(w.engine.gates, w.store[g.runId], g.runId)
    ensures UniqueGates(w.store[g.runId].gates) && g in w.store[g.runId].gates
    ensures ValidGate(g) && Coupled(g, w.engine.decisions[g.gateId])
  {
    GatesOfMembers(w.engine.gates, g.runId);
    hide ValidGate;
  }

  lemma AddedGate(rec: SessionRecord, g: ApprovalGate)
    requires Apply(rec, AddGate(g)).Commit?
    ensures Apply(rec, AddGate(g)).record.gates == rec.gates + [g]
    ensures Apply(rec, AddGate(g)).record.decisions == rec.decisions
  {
  }

  lemma AddedGateKeepsMirrored(w: World, w': World, g: ApprovalGate)
    requires Mirrored(w) && g.runId in w.store && g.runId in w'.store && GateIndex(w.engine.gates, g.gateId).None?
    requires w'.engine == Engine(w.engine.gates + [g], w.engine.decisions[g.gateId := []])
    requires w'.store == w.store[g.runId := w'.store[g.runId]]
    requires w'.store[g.runId].runId == g.runId && Settled(w'.store[g.runId]) && g.status == Open
    requires w'.store[g.runId].gates == w.store[g.runId].gates + [g]
    requires w'.store[g.runId].decisions == w.store[g.runId].decisions
    ensures Mirrored(w')
  {
    hide Settled, UniqueGates, GateIndex, DecisionsOf, GatesOf;
    AppendedGateIsUnique(w.engine.gates, g);
    NewHistoryIsEmpty(w'.store[g.runId], g);
    forall r | r in w'.store ensures RunMirrored(w'.engine.gates, w'.store[r], r) {
      assert RunMirrored(w.engine.gates, w.store[r], r);
      GatesOfAppended(w.engine.gates, g, r);
    }
    forall x | x in w'.engine.gates ensures GateMirrored(w', x) {
      if x in w.engine.gates {
        assert GateMirrored(w, x);
        OldGateKeepsItsName(w.engine.gates, x, g);
      }
    }
  }

  lemma RequestFacts(w: World, gate: ApprovalGate, stored: bool)
    ensures RequestGate(w, gate, stored).world != w ==>
      var g := AsOpen(gate);
      && ValidGate(g) && GateIndex(w.engine.gates, g.gateId).None?
      && g.runId in w.store && Apply(w.store[g.runId], AddGate(g)).Commit?
      && Persist(w.store, g.runId, AddGate(g), stored).Some?
      && RequestGate(w, gate, stored).world ==
         World(Engine(w.engine.gates + [g], w.engine.decisions[g.gateId := []]), Persist(w.store, g.runId, AddGate(g), stored).value)
  {
    hide ValidGate, GateIndex;
  }

  lemma RequestKeepsMirrored(w: World, gate: ApprovalGate, stored: bool)
    requires Mirrored(w)
    ensures Mirrored(RequestGate(w, gate, stored).world)
  {
    RequestFacts(w, gate, stored);
    var g := AsOpen(gate);
    var w' := RequestGate(w, gate, stored).world;
    if w' != w {
      hide RequestGate, Settled, ValidGate, UniqueGates, GateIndex, DecisionsOf, GatesOf, Apply;
      assert RunMirrored(w.engine.gates, w.store[g.runId], g.runId);
      Persisted(w.store, g.runId, AddGate(g), stored);
      AddedGate(w.store[g.runId], g);
      hide Mirrored;
      AddedGateKeepsMirrored(w, w', g);
    }
  }

  lemma OldGateKeepsItsName(gates: seq<ApprovalGate>, x: ApprovalGate, g: ApprovalGate)
    requires x in gates && GateIndex(gates, g.gateId).None?
    ensures x.gateId != g.gateId
  {
  }

  lemma NewHistoryIsEmpty(rec: SessionRecord, g: ApprovalGate)
    requires Settled(rec) && g in rec.gates && g.status == Open
    ensures DecisionsOf(rec.decisions, g.gateId) == []
  {
    hide ValidGate, WellFormed, DecisionsSettled;
  }

  // The engine and the session replace the same gate.
  lemma SameGateReplaced(w: World, i: nat, g: ApprovalGate)
    requires Mirrored(w) && i < |w.engine.gates|
    requires g.runId == w.engine.gates[i].runId && g.gateId == w.engine.gates[i].gateId
    ensures g.runId in w.store
    ensures var rec := w.store[g.runId];
      && GateIndex(rec.gates, g.gateId).Some?
      && GatesOf(w.engine.gates[i := g], g.runId) == rec.gates[GateIndex(rec.gates, g.gateId).value := g]
      && rec.gates[GateIndex(rec.gates, g.gateId).value] == w.engine.gates[i]
    ensures forall r :: r in w.store && r != g.runId ==> GatesOf(w.engine.gates[i := g], r) == w.store[r].gates
  {
    KnownGate(w, w.engine.gates[i]);
    var gates := w.store[g.runId].gates;
    GatesOfReplaced(w.engine.gates, i, g, g.runId);
    IndexIsUnique(gates, Position(w.engine.gates, i));
    hide Settled, UniqueGates, GateIndex, DecisionsOf, GatesOf;
    forall r | r in w.store && r != g.runId ensures GatesOf(w.engine.gates[i := g], r) == w.store[r].gates {
      GatesOfReplaced(w.engine.gates, i, g, r);
      assert RunMirrored(w.engine.gates, w.store[r], r);
    }
  }

  ghost predicate Recording(decisions: seq<HumanDecision>, gateId: string) {
    |decisions| <= 1 && forall d :: d in decisions ==> d.gateId == gateId
  }

  lemma RecordingAppended(decisions: seq<HumanDecision>, recording: seq<HumanDecision>, id: string, gateId: string)
    requires Recording(recording, id)
    ensures DecisionsOf(decisions + recording, gateId) == DecisionsOf(decisions, gateId) + (if gateId == id then recording else [])
  {
    if recording == [] {
      assert decisions + recording == decisions;
    } else {
      DecisionsOfAppended(decisions, recording[0], gateId);
      assert recording == [recording[0]];
    }
  }

  ghost predicate Replaced(w: World, w': World, i: nat, g: ApprovalGate, recording: seq<HumanDecision>) {
    && i < |w.engine.gates| && g.runId == w.engine.gates[i].runId && g.gateId == w.engine.gates[i].gateId
    && Recording(recording, g.gateId)
    && g.gateId in w.engine.decisions && g.runId in w.store && g.runId in w'.store
    && w'.engine.gates == w.engine.gates[i := g]
    && w'.engine.decisions == w.engine.decisions[g.gateId := w.engine.decisions[g.gateId] + recording]
    && w'.store == w.store[g.runId := w'.store[g.runId]]
    && w'.store[g.runId].runId == g.runId && Settled(w'.store[g.runId])
    && GateIndex(w.store[g.runId].gates, g.gateId).Some?
    && w'.store[g.runId].gates == w.store[g.runId].gates[GateIndex(w.store[g.runId].gates, g.gateId).value := g]
    && w'.store[g.runId].decisions == w.store[g.runId].decisions + recording
  }

  lemma ReplacedRuns(w: World, w': World, i: nat, g: ApprovalGate, recording: seq<HumanDecision>)
    requires Mirrored(w) && Replaced(w, w', i, g, recording)
    ensures forall r :: r in w'.store ==> RunMirrored(w'.engine.gates, w'.store[r], r)
  {
    SameGateReplaced(w, i, g);
    hide Settled, UniqueGates, GateIndex, DecisionsOf, GatesOf, Recording;
    forall r | r in w'.store ensures RunMirrored(w'.engine.gates, w'.store[r], r) {
      assert RunMirrored(w.engine.gates, w.store[r], r);
    }
  }

  lemma ReplacedGate(w: World, w': World, i: nat, g: ApprovalGate, recording: seq<HumanDecision>, x: ApprovalGate)
    requires Replaced(w, w', i, g, recording)
    requires GateMirrored(w, if x == g then w.engine.gates[i] else x) && (x == g || x.gateId != g.gateId)
    ensures GateMirrored(w', x)
  {
    hide Settled, GateIndex, DecisionsOf, Recording;
    RecordingAppended(w.store[g.runId].decisions, recording, g.gateId, x.gateId);
    var decisions := w.store[g.runId].decisions;
    if x == g {
      assert DecisionsOf(decisions + recording, g.gateId) == DecisionsOf(decisions, g.gateId) + recording;
    } else {
      assert DecisionsOf(decisions + recording, x.gateId) == DecisionsOf(decisions, x.gateId) + [];
    }
  }

  lemma ReplacedGates(w: World, w': World, i: nat, g: ApprovalGate, recording: seq<HumanDecision>, x: ApprovalGate)
    requires Mirrored(w) && Replaced(w, w', i, g, recording) && x in w'.engine.gates
    ensures GateMirrored(w', x)
  {
    hide Settled, GateIndex, DecisionsOf, GatesOf, Recording, RunMirrored;
    assert w.engine.gates[i] in w.engine.gates;
    OtherGateKeepsItsName(w.engine.gates, i, g, x);
    ReplacedGate(w, w', i, g, recording, x);
  }

  lemma OtherGateKeepsItsName(gates: seq<ApprovalGate>, i: nat, g: ApprovalGate, x: ApprovalGate)
    requires UniqueGates(gates) && i < |gates| && gates[i].gateId == g.gateId && x in gates[i := g]
    ensures x == g || (x in gates && x.gateId != g.gateId)
  {
    ReplacedMembers(gates, i, g);
  }

  lemma ReplacedKeys(w: World, w': World, i: nat, g: ApprovalGate, recording: seq<HumanDecision>, id: string)
    requires Mirrored(w) && Replaced(w, w', i, g, recording) && id in w'.engine.decisions
    ensures GateIndex(w'.engine.gates, id).Some?
  {
    hide Settled, GateIndex, DecisionsOf, GatesOf, Recording, RunMirrored, GateMirrored;
    ReplacedMembers(w.engine.gates, i, g);
    IndexExists(w.engine.gates, i);
  }

  lemma ReplacedGateKeepsMirrored(w: World, w': World, i: nat, g: ApprovalGate, recording: seq<HumanDecision>)
    requires Mirrored(w) && Replaced(w, w', i, g, recording)
    ensures Mirrored(w')
  {
    hide Settled, UniqueGates, GateIndex, DecisionsOf, GatesOf, Recording, RunMirrored, GateMirrored;
    ReplacedRuns(w, w', i, g, recording);
    ReplacedIsUnique(w.engine.gates, i, g);
    forall x | x in w'.engine.gates ensures GateMirrored(w', x) { ReplacedGates(w, w', i, g, recording, x); }
    forall id | id in w'.engine.decisions ensures GateIndex(w'.engine.gates, id).Some? {
      ReplacedKeys(w, w', i, g, recording, id);
    }
  }

  lemma ReplacedIsUnique(gates: seq<ApprovalGate>, i: nat, g: ApprovalGate)
    requires UniqueGates(gates) && i < |gates| && gates[i].gateId == g.gateId
    ensures UniqueGates(gates[i := g])
  {
  }

  lemma ResolveFacts(w: World, gateId: string, decision: DecisionType, feedback: string, actor: string, timestamp: string, stored: bool)
    requires gateId in w.engine.decisions
    ensures var r := ResolveOpenGate(w, gateId, decision, feedback, actor, timestamp, stored);
      r.world != w ==>
        && r.error == None && GateIndex(w.engine.gates, gateId).Some?
        && var i := GateIndex(w.engine.gates, gateId).value;
           var g := w.engine.gates[i];
           var record := Recorded(g, decision, feedback, actor, timestamp);
           var g' := AsResolved(g, timestamp);
           && g.status == Open && decision in g.allowed && ValidGate(g') && ValidDecision(record)
           && Persist(w.store, g.runId, ResolveGate(g', record), stored).Some?
           && r.world == World(Engine(w.engine.gates[i := g'], w.engine.decisions[gateId := w.engine.decisions[gateId] + [record]]),
                               Persist(w.store, g.runId, ResolveGate(g', record), stored).value)
  {
    hide ValidGate, ValidDecision, GateIndex, Persist;
  }

  lemma ResolvedGate(rec: SessionRecord, g: ApprovalGate, d: HumanDecision)
    requires Apply(rec, ResolveGate(g, d)).Commit?
    ensures GateIndex(rec.gates, g.gateId).Some?
    ensures Apply(rec, ResolveGate(g, d)).record.gates == rec.gates[GateIndex(rec.gates, g.gateId).value := g]
    ensures Apply(rec, ResolveGate(g, d)).record.decisions == rec.decisions + [d]
  {
  }

  lemma GateOpCommits(rec: SessionRecord, op: Op, store: Store, runId: string, stored: bool)
    requires op.AddGate? || op.ResolveGate? || op.CancelGate?
    requires runId in store && store[runId] == rec && Persist(store, runId, op, stored).Some?
    ensures Apply(rec, op).Commit?
    ensures Persist(store, runId, op, stored).value == store[runId := Apply(rec, op).record.(revision := rec.revision + 1)]
  {
  }

  lemma KnownId(w: World, gateId: string)
    requires Mirrored(w) && GateIndex(w.engine.gates, gateId).Some?
    ensures var g := w.engine.gates[GateIndex(w.engine.gates, gateId).value];
      && g.gateId == gateId && gateId in w.engine.decisions && ValidGate(g)
      && g.runId in w.store && w.store[g.runId].runId == g.runId && Settled(w.store[g.runId])
  {
    KnownGate(w, w.engine.gates[GateIndex(w.engine.gates, gateId).value]);
    hide ValidGate, Settled;
  }

  lemma ResolveKeepsMirrored(w: World, gateId: string, decision: DecisionType, feedback: string, actor: string, timestamp: string, stored: bool)
    requires Mirrored(w)
    ensures Mirrored(ResolveOpenGate(w, gateId, decision, feedback, actor, timestamp, stored).world)
  {
    hide Mirrored, ResolveOpenGate, Settled, ValidGate, ValidDecision, UniqueGates, GateIndex, DecisionsOf, GatesOf, Apply, Persist, Strip;
    if GateIndex(w.engine.gates, gateId).Some? {
      KnownId(w, gateId);
      ResolveFacts(w, gateId, decision, feedback, actor, timestamp, stored);
      var w' := ResolveOpenGate(w, gateId, decision, feedback, actor, timestamp, stored).world;
      if w' != w {
        var i := GateIndex(w.engine.gates, gateId).value;
        var g := w.engine.gates[i];
        var record := Recorded(g, decision, feedback, actor, timestamp);
        var g' := AsResolved(g, timestamp);
        GateOpCommits(w.store[g.runId], ResolveGate(g', record), w.store, g.runId, stored);
        ResolvedGate(w.store[g.runId], g', record);
        Persisted(w.store, g.runId, ResolveGate(g', record), stored);
        ReplacedGateKeepsMirrored(w, w', i, g', [record]);
      }
    } else {
      UnknownIsRefused(w, gateId, decision, feedback, actor, timestamp, stored);
    }
  }

  lemma UnknownIsRefused(w: World, gateId: string, decision: DecisionType, feedback: string, actor: string, timestamp: string, stored: bool)
    requires GateIndex(w.engine.gates, gateId).None?
    ensures ResolveOpenGate(w, gateId, decision, feedback, actor, timestamp, stored).world == w
  {
  }

  lemma CancelFacts(w: World, gateId: string, stored: bool)
    ensures var r := CancelOpenGate(w, gateId, stored);
      r.world != w ==>
        && r.error == None && GateIndex(w.engine.gates, gateId).Some?
        && var i := GateIndex(w.engine.gates, gateId).value;
           var g' := w.engine.gates[i].(status := Cancelled);
           && w.engine.gates[i].status == Open && Persist(w.store, g'.runId, CancelGate(g'), stored).Some?
           && r.world == World(w.engine.(gates := w.engine.gates[i := g']), Persist(w.store, g'.runId, CancelGate(g'), stored).value)
  {
    hide GateIndex, Persist;
  }

  lemma CancelledGate(rec: SessionRecord, g: ApprovalGate)
    requires Apply(rec, CancelGate(g)).Commit?
    ensures GateIndex(rec.gates, g.gateId).Some?
    ensures Apply(rec, CancelGate(g)).record.gates == rec.gates[GateIndex(rec.gates, g.gateId).value := g]
    ensures Apply(rec, CancelGate(g)).record.decisions == rec.decisions
  {
  }

  lemma NothingRecorded(decisions: map<string, seq<HumanDecision>>, gateId: string, stored: seq<HumanDecision>)
    requires gateId in decisions
    ensures decisions == decisions[gateId := decisions[gateId] + []]
    ensures stored == stored + []
  {
    assert decisions[gateId] + [] == decisions[gateId];
  }

  lemma StillValid(g: ApprovalGate)
    requires ValidGate(g) && g.status == Open
    ensures ValidGate(g.(status := Cancelled))
  {
  }

  lemma CancelKeepsMirrored(w: World, gateId: string, stored: bool)
    requires Mirrored(w)
    ensures Mirrored(CancelOpenGate(w, gateId, stored).world)
  {
    hide Mirrored, CancelOpenGate, Settled, ValidGate, ValidDecision, UniqueGates, GateIndex, DecisionsOf, GatesOf, Apply, Persist;
    var w' := CancelOpenGate(w, gateId, stored).world;
    CancelFacts(w, gateId, stored);
    if w' != w {
      KnownId(w, gateId);
      var i := GateIndex(w.engine.gates, gateId).value;
      var g := w.engine.gates[i];
      StillValid(g);
      var g' := g.(status := Cancelled);
      GateOpCommits(w.store[g.runId], CancelGate(g'), w.store, g.runId, stored);
      CancelledGate(w.store[g.runId], g');
      Persisted(w.store, g.runId, CancelGate(g'), stored);
      NothingRecorded(w.engine.decisions, gateId, w.store[g.runId].decisions);
      ReplacedGateKeepsMirrored(w, w', i, g', []);
    }
  }

  lemma RecordedIsStored(w: World, d: HumanDecision)
    requires Mirrored(w) && IsRecorded(w.engine, d)
    ensures d.runId in w.store && w.store[d.runId].runId == d.runId
    ensures FindDecision(w.store[d.runId].decisions, d.gateId) == Some(d)
  {
    KnownGate(w, Find(w.engine.gates, d.gateId).value);
    hide ValidDecision, ValidGate, Mirrored, GatesOf, Settled;
    TheOnlyDecision(w.store[d.runId].decisions, d.gateId, d);
  }

  lemma StoredDecisionIsUnchanged(store: Store, d: HumanDecision)
    requires d.runId in store && store[d.runId].runId == d.runId && FindDecision(store[d.runId].decisions, d.gateId) == Some(d)
    ensures Persist(store, d.runId, AddDecision(d), true) == Some(store)
  {
  }

  // The coordinator's add_decision of a validated decision finds it stored and changes nothing.
  lemma ConfirmChangesNothing(w: World, d: HumanDecision, stored: bool)
    requires Mirrored(w)
    ensures Do(w, Confirm(d, stored)).world == w
    ensures Do(w, Confirm(d, stored)).error ==
      if !IsRecorded(w.engine, d) then Some(NotRecorded) else if stored then None else Some(NotPersisted)
  {
    hide IsRecorded, Apply, Mirrored;
    if IsRecorded(w.engine, d) {
      RecordedIsStored(w, d);
      StoredDecisionIsUnchanged(w.store, d);
    }
  }

  lemma NewRunKeepsMirrored(w: World, runId: string)
    requires Mirrored(w) && runId !in w.store
    ensures Mirrored(w.(store := w.store[runId := NewSession(runId)]))
  {
    OtherChangesKeepMirrored(w, w.(store := w.store[runId := NewSession(runId)]), runId);
  }

  lemma ElsewhereKeepsMirrored(w: World, runId: string, op: Op)
    requires Mirrored(w) && !TouchesGates(op)
    ensures Mirrored(Do(w, Elsewhere(runId, op)).world)
  {
    var w' := Do(w, Elsewhere(runId, op)).world;
    if w' != w {
      assert RunMirrored(w.engine.gates, w.store[runId], runId);
      Persisted(w.store, runId, op, true);
      if Apply(w.store[runId], op).Commit? { UntouchedGates(w.store[runId], op); }
      hide Settled, Mirrored, GatesOf, Apply;
      OtherChangesKeepMirrored(w, w', runId);
    }
  }

  lemma CallKeepsMirrored(w: World, call: Call)
    requires Mirrored(w)
    ensures Mirrored(Do(w, call).world)
  {
    hide Mirrored, RequestGate, ResolveOpenGate, CancelOpenGate, Persist;
    match call {
      case CreateRun(runId) => if runId !in w.store { NewRunKeepsMirrored(w, runId); }
      case Request(g, stored) => RequestKeepsMirrored(w, g, stored);
      case Resolve(id, d, feedback, actor, timestamp, stored) => ResolveKeepsMirrored(w, id, d, feedback, actor, timestamp, stored);
      case Cancel(id, stored) => CancelKeepsMirrored(w, id, stored);
      case Confirm(d, stored) => ConfirmChangesNothing(w, d, stored);
      case Elsewhere(runId, op) => if !TouchesGates(op) { ElsewhereKeepsMirrored(w, runId, op); }
    }
  }

  const NOTHING_YET: World := World(NO_GATES, map[])

  lemma {:induction false} EveryCallKeepsMirrored(w: World, calls: seq<Call>)
    requires Mirrored(w)
    ensures Mirrored(DoAll(w, calls))
  {
    if calls != [] {
      EveryCallKeepsMirrored(w, calls[..|calls| - 1]);
      CallKeepsMirrored(DoAll(w, calls[..|calls| - 1]), calls[|calls| - 1]);
    }
  }

  // ----- Rebuilding -----

  // Each run of the store once, in whatever order the repository lists them.
  ghost predicate Lists(order: seq<string>, store: Store) {
    (forall r :: r in order <==> r in store) && (forall i, j :: 0 <= i < j < |order| ==> order[i] != order[j])
  }

  function Sessions(order: seq<string>, store: Store): (sessions: seq<SessionRecord>)
    requires forall r :: r in order ==> r in store
    ensures |sessions| == |order|
  {
    seq(|order|, i requires 0 <= i < |order| => store[order[i]])
  }

  // Every session is stored under its run and settled.
  ghost predicate SettledStore(store: Store) {
    forall r :: r in store ==> store[r].runId == r && Settled(store[r])
  }

  // No gate id occurs in two sessions.
  ghost predicate IdsApart(store: Store) {
    forall r, q, g, h :: r in store && q in store && g in store[r].gates && h in store[q].gates && g.gateId == h.gateId ==> r == q
  }

  // What the engine has restored so far, each gate with its stored history.
  ghost predicate Restored(e: Engine, store: Store) {
    && UniqueGates(e.gates)
    && (forall g :: g in e.gates ==> GateMirrored(World(e, store), g))
    && (forall id :: id in e.decisions ==> GateIndex(e.gates, id).Some?)
  }

  lemma {:induction false} HistoryIsValid(history: seq<HumanDecision>, runId: string)
    requires forall d :: d in history ==> d.runId == runId && ValidDecision(d)
    ensures CheckHistory(history, runId) == None
  {
    if history != [] {
      hide ValidDecision;
      HistoryIsValid(history[..|history| - 1], runId);
      assert history[|history| - 1] in history;
    }
  }

  lemma StoredHistoryIsValid(rec: SessionRecord, gateId: string)
    requires Settled(rec)
    ensures CheckHistory(DecisionsOf(rec.decisions, gateId), rec.runId) == None
  {
    DecisionsOfMembers(rec.decisions, gateId);
    hide ValidDecision, GatesSettled, DecisionsOf, UniqueGates, UniqueDecisions, UniqueResults;
    HistoryIsValid(DecisionsOf(rec.decisions, gateId), rec.runId);
  }

  lemma NewIdIsKnown(e: Engine, g: ApprovalGate, history: seq<HumanDecision>, id: string)
    requires (forall x :: x in e.decisions ==> GateIndex(e.gates, x).Some?) && id in e.decisions[g.gateId := history]
    ensures GateIndex(e.gates + [g], id).Some?
  {
    if id == g.gateId { assert (e.gates + [g])[|e.gates|] == g; }
    else { assert (e.gates + [g])[GateIndex(e.gates, id).value].gateId == id; }
  }

  lemma RestoredGrows(store: Store, e: Engine, runId: string, g: ApprovalGate)
    requires SettledStore(store) && Restored(e, store) && runId in store && g in store[runId].gates && GateIndex(e.gates, g.gateId).None?
    ensures Restored(Engine(e.gates + [g], e.decisions[g.gateId := DecisionsOf(store[runId].decisions, g.gateId)]), store)
  {
    hide GateIndex, UniqueGates, DecisionsOf, GatesSettled, DecisionsSettled;
    var history := DecisionsOf(store[runId].decisions, g.gateId);
    var e' := Engine(e.gates + [g], e.decisions[g.gateId := history]);
    AppendedGateIsUnique(e.gates, g);
    forall id | id in e'.decisions ensures GateIndex(e'.gates, id).Some? { NewIdIsKnown(e, g, history, id); }
    forall x | x in e'.gates ensures GateMirrored(World(e', store), x) {
      if x in e.gates { OldGateKeepsItsName(e.gates, x, g); }
    }
  }

  // Restoring one gate of a settled session fails exactly for an id that is known already.
  lemma RestoreExactly(store: Store, e: Engine, runId: string, k: nat)
    requires SettledStore(store) && runId in store && k < |store[runId].gates|
    ensures var rec := store[runId];
      var g := rec.gates[k];
      Restore(e, rec, g) ==
        if GateIndex(e.gates, g.gateId).Some? then Err(DuplicateGate)
        else Ok(Engine(e.gates + [g], e.decisions[g.gateId := DecisionsOf(rec.decisions, g.gateId)]))
  {
    var rec := store[runId];
    var g := rec.gates[k];
    StoredHistoryIsValid(rec, g.gateId);
    assert g in rec.gates;
    hide ValidGate, CheckHistory, DecisionsOf, GateIndex, UniqueGates;
  }

  lemma IndexOfConcat(a: seq<ApprovalGate>, b: seq<ApprovalGate>, id: string)
    ensures GateIndex(a + b, id).None? <==> GateIndex(a, id).None? && GateIndex(b, id).None?
  {
    if GateIndex(a + b, id).None? {
      assert forall k :: 0 <= k < |a| ==> (a + b)[k] == a[k];
      assert forall k :: 0 <= k < |b| ==> (a + b)[|a| + k] == b[k];
    }
  }

  lemma OwnIdsDiffer(rec: SessionRecord, k: nat)
    requires Settled(rec) && k < |rec.gates|
    ensures GateIndex(rec.gates[..k], rec.gates[k].gateId).None?
  {
    hide GatesSettled, DecisionsSettled;
  }

  lemma {:induction false} SessionExactly(store: Store, e: Engine, runId: string, k: nat)
    requires SettledStore(store) && Restored(e, store) && runId in store && k <= |store[runId].gates|
    ensures var rec := store[runId];
      var restored := RestoreSession(e, rec, k);
      && (restored.Ok? <==> forall i :: 0 <= i < k ==> GateIndex(e.gates, rec.gates[i].gateId).None?)
      && (restored.Ok? ==> restored.value.gates == e.gates + rec.gates[..k] && Restored(restored.value, store))
      && (restored.Err? ==> restored.error == DuplicateGate)
  {
    hide Restored, Settled, Restore, GateIndex;
    var rec := store[runId];
    if k == 0 {
      assert e.gates + rec.gates[..0] == e.gates;
    } else {
      SessionExactly(store, e, runId, k - 1);
      var before := RestoreSession(e, rec, k - 1);
      if before.Ok? {
        var g := rec.gates[k - 1];
        IndexOfConcat(e.gates, rec.gates[..k - 1], g.gateId);
        OwnIdsDiffer(rec, k - 1);
        RestoreExactly(store, before.value, runId, k - 1);
        if GateIndex(before.value.gates, g.gateId).None? { RestoredGrows(store, before.value, runId, g); }
        assert rec.gates[..k] == rec.gates[..k - 1] + [g];
      }
    }
  }

  // The gates of the first n listed runs, run by run.
  function Regrouped(order: seq<string>, store: Store, n: nat): seq<ApprovalGate>
    requires n <= |order| && forall r :: r in order ==> r in store
  {
    if n == 0 then [] else Regrouped(order, store, n - 1) + store[order[n - 1]].gates
  }

  lemma StoredGates(store: Store, r: string, runId: string)
    requires SettledStore(store) && r in store
    ensures GatesOf(store[r].gates, runId) == if runId == r then store[r].gates else []
  {
    var mine := store[r].gates;
    assert forall g :: g in mine ==> g.runId == r;
    hide SettledStore, GatesOf;
    if runId == r { GatesOfOne(mine, r); } else { GatesOfNone(mine, runId); }
  }

  lemma OneMoreListed(order: seq<string>, store: Store, n: nat)
    requires Lists(order, store) && 0 < n <= |order|
    ensures order[n - 1] in store && order[n - 1] !in order[..n - 1]
    ensures forall r :: r in order[..n] <==> r in order[..n - 1] || r == order[n - 1]
  {
    assert order[..n] == order[..n - 1] + [order[n - 1]];
  }

  lemma ListedRuns(order: seq<string>, store: Store)
    requires Lists(order, store)
    ensures forall r :: r in order ==> r in store
  {
  }

  lemma {:induction false} RegroupedByRun(store: Store, order: seq<string>, n: nat, runId: string)
    requires SettledStore(store) && Lists(order, store) && n <= |order|
    ensures GatesOf(Regrouped(order, store, n), runId) == if runId in store && runId in order[..n] then store[runId].gates else []
  {
    hide SettledStore, Lists, GatesOf;
    ListedRuns(order, store);
    if n > 0 {
      RegroupedByRun(store, order, n - 1, runId);
      OneMoreListed(order, store, n);
      StoredGates(store, order[n - 1], runId);
      GatesOfConcat(Regrouped(order, store, n - 1), store[order[n - 1]].gates, runId);
    } else {
      GatesOfNone([], runId);
    }
  }

  // The sessions before the n-th one have none of these ids.
  ghost predicate IdIsNew(store: Store, order: seq<string>, n: nat, id: string)
    requires n <= |order| && forall r :: r in order ==> r in store
  {
    forall i, g :: 0 <= i < n && g in store[order[i]].gates ==> g.gateId != id
  }

  lemma NoneAmong(gates: seq<ApprovalGate>, id: string)
    ensures GateIndex(gates, id).None? <==> forall g :: g in gates ==> g.gateId != id
  {
  }

  lemma {:induction false} RegroupedIds(store: Store, order: seq<string>, n: nat, id: string)
    requires (forall r :: r in order ==> r in store) && n <= |order|
    ensures GateIndex(Regrouped(order, store, n), id).None? <==> IdIsNew(store, order, n, id)
  {
    hide GateIndex;
    NoneAmong(Regrouped(order, store, n), id);
    if n > 0 {
      RegroupedIds(store, order, n - 1, id);
      IndexOfConcat(Regrouped(order, store, n - 1), store[order[n - 1]].gates, id);
      NoneAmong(store[order[n - 1]].gates, id);
    }
  }

  // The first n listed sessions share no gate id.
  ghost predicate ApartUpTo(store: Store, order: seq<string>, n: nat)
    requires n <= |order| && forall r :: r in order ==> r in store
  {
    forall j, g :: 0 <= j < n && g in store[order[j]].gates ==> IdIsNew(store, order, j, g.gateId)
  }

  lemma OneMoreSession(order: seq<string>, store: Store, n: nat)
    requires (forall r :: r in order ==> r in store) && 0 < n <= |order|
    ensures var r := order[n - 1];
      match Hydrate(Sessions(order, store), n - 1)
      case Ok(e) => Hydrate(Sessions(order, store), n) == RestoreSession(e, store[r], |store[r].gates|)
      case Err(_) => true
  {
    hide RestoreSession;
    assert Sessions(order, store)[n - 1] == store[order[n - 1]];
  }

  lemma {:induction false} HydrateExactly(store: Store, order: seq<string>, n: nat)
    requires SettledStore(store) && Lists(order, store) && n <= |order|
    ensures forall r :: r in order ==> r in store
    ensures var rebuilt := Hydrate(Sessions(order, store), n);
      && (rebuilt.Ok? <==> ApartUpTo(store, order, n))
      && (rebuilt.Ok? ==> rebuilt.value.gates == Regrouped(order, store, n) && Restored(rebuilt.value, store))
      && (rebuilt.Err? ==> rebuilt.error == DuplicateGate)
  {
    hide SettledStore, Restored, Lists, RestoreSession, GateIndex, IdIsNew;
    ListedRuns(order, store);
    if n == 0 {
      NothingRestored(store);
    } else {
      HydrateExactly(store, order, n - 1);
      var before := Hydrate(Sessions(order, store), n - 1);
      OneMoreSession(order, store, n);
      if before.Ok? {
        var mine := store[order[n - 1]].gates;
        SessionExactly(store, before.value, order[n - 1], |mine|);
        forall i | 0 <= i < |mine| ensures GateIndex(before.value.gates, mine[i].gateId).None? <==> IdIsNew(store, order, n - 1, mine[i].gateId) {
          RegroupedIds(store, order, n - 1, mine[i].gateId);
        }
        assert mine[..|mine|] == mine;
      }
    }
  }

  lemma NothingRestored(store: Store)
    ensures Restored(NO_GATES, store)
  {
  }

  lemma PlaceOf(store: Store, order: seq<string>, r: string) returns (i: nat)
    requires Lists(order, store) && r in store
    ensures i < |order| && order[i] == r
  {
    i :| 0 <= i < |order| && order[i] == r;
  }

  lemma ApartWhenListedApart(store: Store, order: seq<string>)
    requires Lists(order, store) && forall r :: r in order ==> r in store
    requires ApartUpTo(store, order, |order|)
    ensures IdsApart(store)
  {
    hide Lists;
    forall r, q, g, h | r in store && q in store && g in store[r].gates && h in store[q].gates && g.gateId == h.gateId ensures r == q {
      var i := PlaceOf(store, order, r);
      var j := PlaceOf(store, order, q);
      assert IdIsNew(store, order, j, h.gateId) && IdIsNew(store, order, i, g.gateId);
    }
  }

  lemma ListedApartWhenApart(store: Store, order: seq<string>)
    requires Lists(order, store) && forall r :: r in order ==> r in store
    requires IdsApart(store)
    ensures ApartUpTo(store, order, |order|)
  {
    forall j, g | 0 <= j < |order| && g in store[order[j]].gates ensures IdIsNew(store, order, j, g.gateId) {
      forall i, h | 0 <= i < j && h in store[order[i]].gates ensures h.gateId != g.gateId {
        assert order[i] != order[j] && order[i] in order && order[j] in order;
      }
    }
  }

  lemma ApartIsApart(store: Store, order: seq<string>)
    requires Lists(order, store)
    ensures forall r :: r in order ==> r in store
    ensures ApartUpTo(store, order, |order|) <==> IdsApart(store)
  {
    hide Lists, ApartUpTo, IdsApart;
    ListedRuns(order, store);
    if ApartUpTo(store, order, |order|) { ApartWhenListedApart(store, order); }
    if IdsApart(store) { ListedApartWhenApart(store, order); }
  }

  /**
   Rebuilding the engine from settled sessions succeeds exactly when no gate id occurs in two of them; otherwise it
   raises the duplicate-gate error. What it rebuilds mirrors the sessions.
   */
  lemma RebuildSucceedsExactly(store: Store, order: seq<string>)
    requires SettledStore(store) && Lists(order, store)
    ensures forall r :: r in order ==> r in store
    ensures var rebuilt := Hydrate(Sessions(order, store), |order|);
      && (rebuilt.Ok? <==> IdsApart(store))
      && (rebuilt.Ok? ==> Mirrored(World(rebuilt.value, store)))
      && (rebuilt.Err? ==> rebuilt.error == DuplicateGate)
  {
    hide Hydrate, Sessions, Regrouped, Settled, GateIndex, GatesOf, DecisionsOf, UniqueGates, ApartUpTo, IdsApart;
    HydrateExactly(store, order, |order|);
    ApartIsApart(store, order);
    var rebuilt := Hydrate(Sessions(order, store), |order|);
    if rebuilt.Ok? {
      assert order[..|order|] == order;
      forall r | r in store ensures RunMirrored(rebuilt.value.gates, store[r], r) { RegroupedByRun(store, order, |order|, r); }
    }
  }

  lemma MirroredSessions(w: World)
    requires Mirrored(w)
    ensures SettledStore(w.store) && IdsApart(w.store)
  {
    hide Settled, GatesOf, GateIndex;
    forall r | r in w.store ensures w.store[r].runId == r && Settled(w.store[r]) { assert RunMirrored(w.engine.gates, w.store[r], r); }
    forall r, q, g, h | r in w.store && q in w.store && g in w.store[r].gates && h in w.store[q].gates && g.gateId == h.gateId ensures r == q {
      assert RunMirrored(w.engine.gates, w.store[r], r) && RunMirrored(w.engine.gates, w.store[q], q);
      GatesOfMembers(w.engine.gates, r);
      GatesOfMembers(w.engine.gates, q);
      FindMember(w.engine.gates, g);
      FindMember(w.engine.gates, h);
    }
  }

  lemma RebuiltIsMirrored(w: World, order: seq<string>)
    requires Mirrored(w) && Lists(order, w.store)
    ensures forall r :: r in order ==> r in w.store
    ensures Hydrate(Sessions(order, w.store), |order|).Ok?
    ensures Mirrored(World(Hydrate(Sessions(order, w.store), |order|).value, w.store))
  {
    hide Mirrored, Hydrate, Sessions, SettledStore, IdsApart;
    MirroredSessions(w);
    RebuildSucceedsExactly(w.store, order);
  }

  // ----- One store, one engine -----

  // Engines that differ in nothing but how the gates of different runs interleave.
  ghost predicate Agree(a: Engine, b: Engine) {
    && (forall r :: GatesOf(a.gates, r) == GatesOf(b.gates, r))
    && (forall id :: Find(a.gates, id) == Find(b.gates, id))
    && a.decisions == b.decisions
  }

  lemma GatesAreTheStored(w: World, runId: string)
    requires Mirrored(w)
    ensures GatesOf(w.engine.gates, runId) == if runId in w.store then w.store[runId].gates else []
  {
    hide Settled;
    if runId in w.store {
      assert RunMirrored(w.engine.gates, w.store[runId], runId);
    } else {
      assert forall g :: g in w.engine.gates ==> GateMirrored(w, g);
      GatesOfNone(w.engine.gates, runId);
    }
  }

  lemma FoundInBoth(a: World, b: World, id: string)
    requires Mirrored(a) && Mirrored(b) && a.store == b.store && Find(a.engine.gates, id).Some?
    ensures Find(b.engine.gates, id) == Find(a.engine.gates, id)
    ensures id in a.engine.decisions && id in b.engine.decisions && a.engine.decisions[id] == b.engine.decisions[id]
  {
    var g := Find(a.engine.gates, id).value;
    GatesAreTheStored(a, g.runId);
    GatesAreTheStored(b, g.runId);
    GatesOfMembers(a.engine.gates, g.runId);
    GatesOfMembers(b.engine.gates, g.runId);
    FindMember(b.engine.gates, g);
    KnownGate(a, g);
    KnownGate(b, g);
    hide Settled, ValidGate;
  }

  // The sessions determine the engine.
  lemma SameStoreSameEngine(a: World, b: World)
    requires Mirrored(a) && Mirrored(b) && a.store == b.store
    ensures Agree(a.engine, b.engine)
  {
    forall r ensures GatesOf(a.engine.gates, r) == GatesOf(b.engine.gates, r) {
      GatesAreTheStored(a, r);
      GatesAreTheStored(b, r);
    }
    forall id ensures Find(a.engine.gates, id) == Find(b.engine.gates, id) {
      if Find(a.engine.gates, id).Some? { FoundInBoth(a, b, id); }
      else if Find(b.engine.gates, id).Some? { FoundInBoth(b, a, id); }
    }
    forall id ensures id in a.engine.decisions <==> id in b.engine.decisions {
      if id in a.engine.decisions { FoundInBoth(a, b, id); }
      if id in b.engine.decisions { FoundInBoth(b, a, id); }
    }
    forall id | id in a.engine.decisions ensures a.engine.decisions[id] == b.engine.decisions[id] { FoundInBoth(a, b, id); }
  }

  lemma SameAnswer(a: World, b: World, call: Call)
    requires Agree(a.engine, b.engine) && a.store == b.store
    ensures Do(a, call).error == Do(b, call).error && Do(a, call).world.store == Do(b, call).world.store
  {
    hide Persist, ValidGate, ValidDecision, GatesOf, GateIndex;
    match call {
      case Request(g, _) => assert Find(a.engine.gates, g.gateId) == Find(b.engine.gates, g.gateId);
      case Resolve(id, _, _, _, _, _) => assert Find(a.engine.gates, id) == Find(b.engine.gates, id);
      case Cancel(id, _) => assert Find(a.engine.gates, id) == Find(b.engine.gates, id);
      case Confirm(d, _) => assert Find(a.engine.gates, d.gateId) == Find(b.engine.gates, d.gateId);
      case _ =>
    }
  }

  // What each call of a sequence answers.
  function Answers(w: World, calls: seq<Call>): seq<Option<ApprovalError>> {
    if calls == [] then []
    else
      var before := calls[..|calls| - 1];
      Answers(w, before) + [Do(DoAll(w, before), calls[|calls| - 1]).error]
  }

  lemma {:induction false} SameAnswers(a: World, b: World, calls: seq<Call>)
    requires Mirrored(a) && Mirrored(b) && a.store == b.store
    ensures Answers(a, calls) == Answers(b, calls)
    ensures DoAll(a, calls).store == DoAll(b, calls).store
  {
    if calls != [] {
      hide Mirrored, Do, Agree;
      var before := calls[..|calls| - 1];
      SameAnswers(a, b, before);
      EveryCallKeepsMirrored(a, before);
      EveryCallKeepsMirrored(b, before);
      SameStoreSameEngine(DoAll(a, before), DoAll(b, before));
      SameAnswer(DoAll(a, before), DoAll(b, before), calls[|calls| - 1]);
    }
  }

  /**
   Restart transparency. After any sequence of calls, whichever of them the database refused before it stored anything,
   rebuilding the engine from the sessions never fails; the rebuilt engine has the same gate under every id,
   the same decision history for every gate and the same gates per run in the same order; and it
   answers every later sequence of calls, and stores what it stores, as the lost one would have.
   */
  lemma RestartIsTransparent(calls: seq<Call>, order: seq<string>, later: seq<Call>)
    requires Lists(order, DoAll(NOTHING_YET, calls).store)
    ensures var w := DoAll(NOTHING_YET, calls);
      && (forall r :: r in order ==> r in w.store)
      && Hydrate(Sessions(order, w.store), |order|).Ok?
      && var rebuilt := Hydrate(Sessions(order, w.store), |order|).value;
         && Agree(rebuilt, w.engine)
         && Answers(World(rebuilt, w.store), later) == Answers(w, later)
         && DoAll(World(rebuilt, w.store), later).store == DoAll(w, later).store
  {
    var w := DoAll(NOTHING_YET, calls);
    EveryCallKeepsMirrored(NOTHING_YET, calls);
    RebuiltIsMirrored(w, order);
    hide Mirrored, DoAll, Hydrate, Sessions, Lists, Agree, Answers;
    var rebuilt := World(Hydrate(Sessions(order, w.store), |order|).value, w.store);
    SameStoreSameEngine(rebuilt, w);
    SameAnswers(rebuilt, w, later);
  }

  lemma AgreeMeansSame(a: Engine, b: Engine, c: Engine)
    requires Agree(a, b)
    ensures Agree(a, c) <==> Agree(b, c)
  {
    hide GatesOf;
  }

  /**
   A save that commits and raises all the same leaves the sessions as the returning call would have and the engine as it
   was. A restart then completes the call: the rebuilt engine is the one the call would have left. It agrees with the
   engine that was lost exactly when the call would have changed nothing in it.
   */
  lemma RestartCompletesALateFailure(calls: seq<Call>, late: Call, order: seq<string>, later: seq<Call>)
    requires Lists(order, Do(DoAll(NOTHING_YET, calls), late).world.store)
    ensures var w := DoAll(NOTHING_YET, calls);
      var w' := Do(w, late).world;
      && (forall r :: r in order ==> r in w'.store)
      && Hydrate(Sessions(order, w'.store), |order|).Ok?
      && var rebuilt := Hydrate(Sessions(order, w'.store), |order|).value;
         && Agree(rebuilt, w'.engine)
         && Answers(World(rebuilt, w'.store), later) == Answers(w', later)
         && DoAll(World(rebuilt, w'.store), later).store == DoAll(w', later).store
         && (Agree(rebuilt, w.engine) <==> Agree(w'.engine, w.engine))
  {
    hide Mirrored, Hydrate, Sessions, Lists, Agree, Answers, Do;
    assert (calls + [late])[..|calls|] == calls;
    RestartIsTransparent(calls + [late], order, later);
    var w' := Do(DoAll(NOTHING_YET, calls), late).world;
    AgreeMeansSame(Hydrate(Sessions(order, w'.store), |order|).value, w'.engine, DoAll(NOTHING_YET, calls).engine);
  }

  // In every state of every run of calls, a gate has a decision exactly when it is resolved, and then one.
  lemma EveryGateIsSettled(calls: seq<Call>, gateId: string)
    requires Find(DoAll(NOTHING_YET, calls).engine.gates, gateId).Some?
    ensures var e := DoAll(NOTHING_YET, calls).engine;
      && gateId in e.decisions
      && |e.decisions[gateId]| == (if Find(e.gates, gateId).value.status == Resolved then 1 else 0)
  {
    EveryCallKeepsMirrored(NOTHING_YET, calls);
    KnownGate(DoAll(NOTHING_YET, calls), Find(DoAll(NOTHING_YET, calls).engine.gates, gateId).value);
    hide Mirrored, ValidGate, DoAll;
  }
}
