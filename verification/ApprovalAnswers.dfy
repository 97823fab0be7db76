/** When the approval engine accepts a request, an answer or a cancellation, what it then records, and which sessions it can be rebuilt from. */
module ApprovalAnswers {
  import opened Wrappers
  import opened Contracts
  import opened Text
  import opened SessionStore
  import opened Approvals
  import opened RestartTransparency

  // ----- Stripping -----

  // What is left of a string without the white space around it.
  ghost predicate Trimmed(s: string, t: string) {
    && (t == "" || (!Whitespace(t[0]) && !Whitespace(t[|t| - 1])))
    && exists a, b :: s == a + t + b && Blank(a) && Blank(b)
  }

  lemma BlankJoined(a: string, b: string)
    ensures Blank(a + b) <==> Blank(a) && Blank(b)
  {
    hide Whitespace;
    if Blank(a + b) {
      forall i | 0 <= i < |a| ensures Whitespace(a[i]) { assert (a + b)[i] == a[i]; }
      forall i | 0 <= i < |b| ensures Whitespace(b[i]) { assert (a + b)[|a| + i] == b[i]; }
    }
  }

  lemma BlankCharacter(c: char)
    requires Whitespace(c)
    ensures Blank([c])
  {
  }

  lemma {:induction false} LeftIsTrimmed(s: string) returns (a: string)
    ensures s == a + StripLeft(s) && Blank(a) && (StripLeft(s) == "" || !Whitespace(StripLeft(s)[0]))
  {
    hide Whitespace;
    if s != [] && Whitespace(s[0]) {
      hide Blank;
      var first, after := s[0], s[1..];
      var rest := LeftIsTrimmed(after);
      a := [first] + rest;
      BlankCharacter(first);
      BlankJoined([first], rest);
      Regrouped(first, after, rest, StripLeft(after));
      assert s == [first] + after;
    } else {
      a := "";
    }
  }

  lemma Regrouped(first: char, after: string, rest: string, stripped: string)
    requires after == rest + stripped
    ensures [first] + after == [first] + rest + stripped
  {
  }

  lemma {:induction false} RightIsTrimmed(s: string) returns (b: string)
    ensures s == StripRight(s) + b && Blank(b) && (StripRight(s) == "" || !Whitespace(StripRight(s)[|StripRight(s)| - 1]))
  {
    hide Whitespace;
    if s != [] && Whitespace(s[|s| - 1]) {
      hide Blank;
      var before, last := s[..|s| - 1], s[|s| - 1];
      var rest := RightIsTrimmed(before);
      b := rest + [last];
      BlankCharacter(last);
      BlankJoined(rest, [last]);
      assert s == before + [last];
    } else {
      b := "";
    }
  }

  lemma StripIsTrimmed(s: string)
    ensures Trimmed(s, Strip(s))
    ensures Blank(Strip(s)) <==> Blank(s)
  {
    hide Whitespace, Blank, StripLeft, StripRight;
    var a := LeftIsTrimmed(s);
    var b := RightIsTrimmed(StripLeft(s));
    var t := Strip(s);
    assert StripLeft(s) == t + b;
    assert s == a + t + b;
    BlankJoined(a + t, b);
    BlankJoined(a, t);
    if t != "" { assert t[0] == StripLeft(s)[0]; }
  }

  // ----- The calls -----

  lemma OneEngineGate(w: World, id: string)
    requires Mirrored(w)
    ensures forall g :: g in w.engine.gates && g.gateId == id ==>
      GateIndex(w.engine.gates, id).Some? && w.engine.gates[GateIndex(w.engine.gates, id).value] == g
  {
    hide RunMirrored, GateMirrored;
    forall g | g in w.engine.gates && g.gateId == id
      ensures GateIndex(w.engine.gates, id).Some? && w.engine.gates[GateIndex(w.engine.gates, id).value] == g
    {
      FindMember(w.engine.gates, g);
    }
  }

  // The session holds the engine's gate.
  lemma SessionHasGate(w: World, g: ApprovalGate)
    requires Mirrored(w) && g in w.engine.gates
    ensures ValidGate(g) && g.runId in w.store && w.store[g.runId].runId == g.runId && Settled(w.store[g.runId])
    ensures GateIndex(w.store[g.runId].gates, g.gateId).Some? && w.store[g.runId].gates[GateIndex(w.store[g.runId].gates, g.gateId).value] == g
  {
    hide GatesSettled, DecisionsSettled, UniqueResults, UniqueDecisions, ValidGate;
    KnownGate(w, g);
    GatesOfMembers(w.engine.gates, g.runId);
    UniqueGatesOf(w.store[g.runId]);
    FindMember(w.store[g.runId].gates, g);
  }

  lemma OpenHasNoDecision(rec: SessionRecord, g: ApprovalGate)
    requires Settled(rec) && g in rec.gates && g.status != Resolved
    ensures FindDecision(rec.decisions, g.gateId).None?
  {
    hide WellFormed, DecisionsSettled, ValidGate;
    DecisionsOfMembers(rec.decisions, g.gateId);
    assert Coupled(g, DecisionsOf(rec.decisions, g.gateId));
  }

  // Only this gate, this session and this history change.
  ghost predicate OnlyGate(w: World, w': World, g: ApprovalGate, g': ApprovalGate, recorded: seq<HumanDecision>) {
    && g.runId in w.store && g.runId in w'.store && g.gateId in w.engine.decisions
    && (exists i :: 0 <= i < |w.engine.gates| && w.engine.gates[i] == g && w'.engine.gates == w.engine.gates[i := g'])
    && w'.engine.decisions == w.engine.decisions[g.gateId := w.engine.decisions[g.gateId] + recorded]
    && w'.store == w.store[g.runId := w'.store[g.runId]]
    && (exists i :: 0 <= i < |w.store[g.runId].gates| && w.store[g.runId].gates[i] == g
          && w'.store[g.runId] == w.store[g.runId].(gates := w.store[g.runId].gates[i := g'], decisions := w.store[g.runId].decisions + recorded,
                                                     revision := w.store[g.runId].revision + 1))
  }

  /**
   In every state of the engine: an answer is accepted exactly when someone gives it at some time, its gate is open and
   offers the decision, and the database answers. Then the gate is resolved at that time, and engine and session record who
   decided what, with the feedback as given but for white space around it. Otherwise nothing changes.
   */
  lemma AnswerIsExact(w: World, id: string, decision: DecisionType, feedback: string, actor: string, timestamp: string, stored: bool)
    requires Mirrored(w)
    ensures var r := ResolveOpenGate(w, id, decision, feedback, actor, timestamp, stored);
      && (r.error.None? <==>
            && !Blank(actor) && !Blank(timestamp) && stored
            && exists g :: g in w.engine.gates && g.gateId == id && g.status == Open && decision in g.allowed)
      && (r.error.Some? ==> r.world == w)
      && (r.error == Some(EmptyActor) <==> Blank(actor))
      && (r.error == Some(UnknownGateId) <==> !Blank(actor) && forall g :: g in w.engine.gates ==> g.gateId != id)
      && (r.error == Some(NotOpen) <==> !Blank(actor) && exists g :: g in w.engine.gates && g.gateId == id && g.status != Open)
      && (r.error == Some(NotAllowed) <==> !Blank(actor) && exists g :: g in w.engine.gates && g.gateId == id && g.status == Open && decision !in g.allowed)
      && (r.error.None? ==>
            exists g, d: HumanDecision :: && g in w.engine.gates && g.gateId == id && g.status == Open && decision in g.allowed
              && d.gateId == id && d.runId == g.runId && d.decision == decision && d.timestamp == timestamp
              && Trimmed(feedback, d.feedback) && Trimmed(actor, d.actor)
              && OnlyGate(w, r.world, g, g.(status := Resolved, resolvedAt := Some(timestamp)), [d]))
  {
    hide Mirrored, GateIndex, Blank, Strip, ValidGate, Trimmed, OnlyGate, Persist;
    StripIsTrimmed(feedback);
    StripIsTrimmed(actor);
    OneEngineGate(w, id);
    if GateIndex(w.engine.gates, id).Some? {
      var g := w.engine.gates[GateIndex(w.engine.gates, id).value];
      assert g in w.engine.gates;
      if g.status == Open {
        AnswerIsStored(w, g, decision, feedback, actor, timestamp, stored);
      }
    }
  }

  lemma AnswerIsStored(w: World, g: ApprovalGate, decision: DecisionType, feedback: string, actor: string, timestamp: string, stored: bool)
    requires Mirrored(w) && g in w.engine.gates && g.status == Open && GateIndex(w.engine.gates, g.gateId).Some?
    requires w.engine.gates[GateIndex(w.engine.gates, g.gateId).value] == g
    requires Blank(Strip(actor)) <==> Blank(actor)
    ensures var record := Recorded(g, decision, feedback, actor, timestamp);
      var op := ResolveGate(AsResolved(g, timestamp), record);
      && g.gateId in w.engine.decisions
      && (!Blank(actor) && !Blank(timestamp) <==> ValidGate(AsResolved(g, timestamp)) && ValidDecision(record))
      && (Persist(w.store, g.runId, op, stored).Some? <==> stored)
      && (stored ==>
            OnlyGate(w, World(Engine(w.engine.gates[GateIndex(w.engine.gates, g.gateId).value := AsResolved(g, timestamp)],
                                     w.engine.decisions[g.gateId := w.engine.decisions[g.gateId] + [record]]), Persist(w.store, g.runId, op, stored).value),
                     g, g.(status := Resolved, resolvedAt := Some(timestamp)), [record]))
  {
    hide Mirrored, GateIndex, Strip, Settled, FindDecision;
    SessionHasGate(w, g);
    KnownId(w, g.gateId);
    var rec := w.store[g.runId];
    OpenHasNoDecision(rec, g);
  }

  /** A cancellation is accepted exactly when its gate is open and the database answers; then only that gate is cancelled. */
  lemma CancellationIsExact(w: World, id: string, stored: bool)
    requires Mirrored(w)
    ensures var r := CancelOpenGate(w, id, stored);
      && (r.error.None? <==> stored && exists g :: g in w.engine.gates && g.gateId == id && g.status == Open)
      && (r.error.Some? ==> r.world == w)
      && (r.error == Some(UnknownGateId) <==> forall g :: g in w.engine.gates ==> g.gateId != id)
      && (r.error == Some(NotOpen) <==> exists g :: g in w.engine.gates && g.gateId == id && g.status != Open)
      && (r.error.None? ==>
            exists g :: g in w.engine.gates && g.gateId == id && g.status == Open && OnlyGate(w, r.world, g, g.(status := Cancelled), []))
  {
    hide Mirrored, GateIndex, OnlyGate, Persist;
    OneEngineGate(w, id);
    if GateIndex(w.engine.gates, id).Some? {
      var g := w.engine.gates[GateIndex(w.engine.gates, id).value];
      assert g in w.engine.gates;
      if g.status == Open { CancellationIsStored(w, g, stored); }
    }
  }

  lemma CancellationIsStored(w: World, g: ApprovalGate, stored: bool)
    requires Mirrored(w) && g in w.engine.gates && g.status == Open && GateIndex(w.engine.gates, g.gateId).Some?
    requires w.engine.gates[GateIndex(w.engine.gates, g.gateId).value] == g
    ensures var op := CancelGate(g.(status := Cancelled));
      && (Persist(w.store, g.runId, op, stored).Some? <==> stored)
      && (stored ==>
            OnlyGate(w, World(w.engine.(gates := w.engine.gates[GateIndex(w.engine.gates, g.gateId).value := g.(status := Cancelled)]),
                              Persist(w.store, g.runId, op, stored).value), g, g.(status := Cancelled), []))
  {
    hide Mirrored, GateIndex, Settled, ValidGate;
    SessionHasGate(w, g);
    KnownId(w, g.gateId);
    NothingRecorded(w.engine.decisions, g.gateId, w.store[g.runId].decisions);
  }

  /**
   A request is accepted exactly when its run exists, its texts are there, it offers decisions, none twice, no gate has its
   id, and the database answers; then engine and session hold it as an open gate without decisions, and nothing else changes.
   */
  lemma RequestIsExact(w: World, gate: ApprovalGate, stored: bool)
    requires Mirrored(w)
    ensures var r := RequestGate(w, gate, stored);
      var g := gate.(status := Open, resolvedAt := None);
      && (r.error.None? <==>
            && stored && gate.runId in w.store
            && (forall s :: s in [gate.gateId, gate.runId, gate.kind, gate.title, gate.prompt, gate.createdAt] ==> !Blank(s))
            && gate.allowed != [] && (forall i, j :: 0 <= i < j < |gate.allowed| ==> gate.allowed[i] != gate.allowed[j])
            && forall x :: x in w.engine.gates ==> x.gateId != gate.gateId)
      && (r.error.Some? ==> r.world == w)
      && (r.error.None? ==>
            && r.world.engine == Engine(w.engine.gates + [g], w.engine.decisions[gate.gateId := []])
            && r.world.store == w.store[gate.runId :=
                 w.store[gate.runId].(gates := w.store[gate.runId].gates + [g], revision := w.store[gate.runId].revision + 1)])
  {
    hide Mirrored, GateIndex, Blank, Persist;
    var texts := [gate.gateId, gate.runId, gate.kind, gate.title, gate.prompt, gate.createdAt];
    assert texts[0] == gate.gateId && texts[1] == gate.runId && texts[2] == gate.kind && texts[3] == gate.title;
    assert texts[4] == gate.prompt && texts[5] == gate.createdAt;
    if (forall x :: x in w.engine.gates ==> x.gateId != gate.gateId) && gate.runId in w.store { RequestIsStored(w, AsOpen(gate), stored); }
    NoSession(w, AsOpen(gate), stored);
  }

  lemma NoSession(w: World, g: ApprovalGate, stored: bool)
    ensures g.runId !in w.store || !stored ==> Persist(w.store, g.runId, AddGate(g), stored).None?
  {
  }

  lemma RequestIsStored(w: World, g: ApprovalGate, stored: bool)
    requires Mirrored(w) && g.runId in w.store && forall x :: x in w.engine.gates ==> x.gateId != g.gateId
    ensures Persist(w.store, g.runId, AddGate(g), stored) ==
      if stored then Some(w.store[g.runId := w.store[g.runId].(gates := w.store[g.runId].gates + [g], revision := w.store[g.runId].revision + 1)]) else None
  {
    hide Settled, GateIndex, GateMirrored;
    assert RunMirrored(w.engine.gates, w.store[g.runId], g.runId);
    GatesOfMembers(w.engine.gates, g.runId);
  }

  // ----- Rebuilding from any sessions -----

  // Exactly one of the decisions is about this gate.
  ghost predicate OnlyAt(decisions: seq<HumanDecision>, id: string, i: nat) {
    i < |decisions| && decisions[i].gateId == id && forall j :: 0 <= j < |decisions| && j != i ==> decisions[j].gateId != id
  }

  ghost predicate Once(decisions: seq<HumanDecision>, id: string) { exists i: nat :: OnlyAt(decisions, id, i) }

  // The session says of its gate what the engine accepts: its own run's, valid, decided once if resolved and not at all otherwise.
  ghost predicate Restorable(rec: SessionRecord, g: ApprovalGate) {
    && ValidGate(g) && g.runId == rec.runId
    && (forall d :: d in rec.decisions && d.gateId == g.gateId ==> d.runId == g.runId && ValidDecision(d))
    && (if g.status == Resolved
        then Once(rec.decisions, g.gateId)
        else forall d :: d in rec.decisions ==> d.gateId != g.gateId)
  }

  lemma {:induction false} HistoryChecks(history: seq<HumanDecision>, runId: string)
    ensures CheckHistory(history, runId).None? <==> forall d :: d in history ==> d.runId == runId && ValidDecision(d)
  {
    hide ValidDecision;
    if history != [] {
      HistoryChecks(history[..|history| - 1], runId);
      assert history == history[..|history| - 1] + [history[|history| - 1]];
    }
  }

  lemma OneMoreOfAnother(before: seq<HumanDecision>, last: HumanDecision, id: string, i: nat)
    requires last.gateId != id
    ensures OnlyAt(before + [last], id, i) <==> OnlyAt(before, id, i)
  {
    var all := before + [last];
    assert all[|before|] == last && forall j :: 0 <= j < |before| ==> all[j] == before[j];
  }

  lemma OneMoreOfIt(before: seq<HumanDecision>, last: HumanDecision, id: string)
    requires last.gateId == id
    ensures forall i: nat :: OnlyAt(before + [last], id, i) <==> i == |before| && forall d :: d in before ==> d.gateId != id
  {
    var all := before + [last];
    assert all[|before|] == last && forall j :: 0 <= j < |before| ==> all[j] == before[j];
    forall i: nat ensures OnlyAt(all, id, i) <==> i == |before| && forall d :: d in before ==> d.gateId != id {
      if OnlyAt(all, id, i) {
        forall d | d in before ensures d.gateId != id { var k :| 0 <= k < |before| && before[k] == d; }
      }
    }
  }

  lemma OnceMore(before: seq<HumanDecision>, last: HumanDecision, id: string)
    ensures last.gateId == id ==> (Once(before + [last], id) <==> forall d :: d in before ==> d.gateId != id)
    ensures last.gateId != id ==> (Once(before + [last], id) <==> Once(before, id))
  {
    hide OnlyAt;
    if last.gateId == id {
      OneMoreOfIt(before, last, id);
      if forall d :: d in before ==> d.gateId != id { assert OnlyAt(before + [last], id, |before|); }
    } else {
      forall i: nat ensures OnlyAt(before + [last], id, i) <==> OnlyAt(before, id, i) { OneMoreOfAnother(before, last, id, i); }
    }
  }

  lemma NeverInNothing(id: string)
    ensures !Once([], id)
  {
  }

  lemma {:induction false} OneOfItsGate(decisions: seq<HumanDecision>, id: string)
    ensures |DecisionsOf(decisions, id)| == 1 <==> Once(decisions, id)
  {
    hide Once;
    if decisions == [] {
      NeverInNothing(id);
    } else {
      var before, last := decisions[..|decisions| - 1], decisions[|decisions| - 1];
      OneOfItsGate(before, id);
      OnceMore(before, last, id);
      NoneOfItsGate(before, id);
      assert decisions == before + [last];
    }
  }

  lemma NoneOfItsGate(decisions: seq<HumanDecision>, id: string)
    ensures DecisionsOf(decisions, id) == [] <==> forall d :: d in decisions ==> d.gateId != id
  {
    DecisionsOfMembers(decisions, id);
    hide DecisionsOf;
    if DecisionsOf(decisions, id) != [] { assert DecisionsOf(decisions, id)[0] in decisions; }
  }

  lemma RestoringIsExact(e: Engine, rec: SessionRecord, g: ApprovalGate)
    ensures Restore(e, rec, g).Ok? <==> Restorable(rec, g) && forall x :: x in e.gates ==> x.gateId != g.gateId
    ensures Restore(e, rec, g).Ok? ==>
      Restore(e, rec, g).value == Engine(e.gates + [g], e.decisions[g.gateId := DecisionsOf(rec.decisions, g.gateId)])
  {
    hide ValidGate, ValidDecision, GateIndex, Once, DecisionsOf, CheckHistory;
    var history := DecisionsOf(rec.decisions, g.gateId);
    HistoryChecks(history, g.runId);
    DecisionsOfMembers(rec.decisions, g.gateId);
    OneOfItsGate(rec.decisions, g.gateId);
    NoneOfItsGate(rec.decisions, g.gateId);
  }

  lemma {:induction false} SessionRestores(e: Engine, rec: SessionRecord, n: nat)
    requires UniqueGates(e.gates) && n <= |rec.gates|
    ensures RestoreSession(e, rec, n).Ok? <==> (forall i :: 0 <= i < n ==> Restorable(rec, rec.gates[i])) && UniqueGates(e.gates + rec.gates[..n])
    ensures RestoreSession(e, rec, n).Ok? ==> RestoreSession(e, rec, n).value.gates == e.gates + rec.gates[..n]
  {
    hide Restorable, Restore;
    if n == 0 {
      assert e.gates + rec.gates[..0] == e.gates;
    } else {
      SessionRestores(e, rec, n - 1);
      var all := e.gates + rec.gates[..n - 1];
      assert e.gates + rec.gates[..n] == all + [rec.gates[n - 1]];
      UniqueWithOneMore(all, rec.gates[n - 1]);
      if RestoreSession(e, rec, n - 1).Ok? { RestoringIsExact(RestoreSession(e, rec, n - 1).value, rec, rec.gates[n - 1]); }
    }
  }

  lemma UniqueWithOneMore(gates: seq<ApprovalGate>, g: ApprovalGate)
    ensures UniqueGates(gates + [g]) <==> UniqueGates(gates) && forall x :: x in gates ==> x.gateId != g.gateId
  {
    var all := gates + [g];
    if UniqueGates(all) {
      forall i, j | 0 <= i < j < |gates| ensures gates[i].gateId != gates[j].gateId { assert all[i].gateId != all[j].gateId; }
      forall x | x in gates ensures x.gateId != g.gateId { var i :| 0 <= i < |gates| && gates[i] == x; assert all[i].gateId != all[|gates|].gateId; }
    }
  }

  // The gates of the first n sessions, one after the other.
  function GatesIn(sessions: seq<SessionRecord>, n: nat): seq<ApprovalGate>
    requires n <= |sessions|
  {
    if n == 0 then [] else GatesIn(sessions, n - 1) + sessions[n - 1].gates
  }

  /**
   From any sessions, whoever wrote them: rebuilding succeeds exactly when every session says of its gates what the engine
   accepts and no gate id occurs twice; the engine then holds all gates in their stored order.
   */
  lemma {:induction false} HydrationIsExact(sessions: seq<SessionRecord>, n: nat)
    requires n <= |sessions|
    ensures Hydrate(sessions, n).Ok? <==>
      (forall s, i :: 0 <= s < n && 0 <= i < |sessions[s].gates| ==> Restorable(sessions[s], sessions[s].gates[i])) && UniqueGates(GatesIn(sessions, n))
    ensures Hydrate(sessions, n).Ok? ==> Hydrate(sessions, n).value.gates == GatesIn(sessions, n)
  {
    hide Restorable, RestoreSession, UniqueGates;
    if n > 0 {
      HydrationIsExact(sessions, n - 1);
      var rec := sessions[n - 1];
      assert rec.gates[..|rec.gates|] == rec.gates;
      UniquePrefix(GatesIn(sessions, n - 1), rec.gates);
      if Hydrate(sessions, n - 1).Ok? { SessionRestores(Hydrate(sessions, n - 1).value, rec, |rec.gates|); }
    } else {
      NothingIsUnique();
    }
  }

  lemma NothingIsUnique()
    ensures UniqueGates([])
  {
  }

  lemma UniquePrefix(a: seq<ApprovalGate>, b: seq<ApprovalGate>)
    ensures UniqueGates(a + b) ==> UniqueGates(a)
  {
    if UniqueGates(a + b) {
      forall i, j | 0 <= i < j < |a| ensures a[i].gateId != a[j].gateId { assert (a + b)[i] == a[i] && (a + b)[j] == a[j]; }
    }
  }
}
