/** HumanApprovalEngine: the dictionaries it changes in place, proved against the calls of Approvals. */
module ApprovalEngines {
  import opened Wrappers
  import opened Contracts
  import opened Text
  import opened SessionStore
  import opened SessionManagers
  import opened Approvals

  class HumanApprovalEngine {
    const sessions: SessionManager
    // _gates in insertion order, and _decisions.
    var gates: seq<ApprovalGate>
    var decisions: map<string, seq<HumanDecision>>

    ghost predicate Valid()
      reads this, sessions.repository
    {
      sessions.repository.Valid() && forall g :: g in gates ==> g.gateId in decisions
    }

    ghost function Abstract(): World
      reads this, sessions.repository
    {
      World(Engine(gates, decisions), sessions.repository.rows)
    }

    constructor (sessions: SessionManager)
      requires sessions.repository.Valid()
      ensures Valid() && this.sessions == sessions
      ensures Abstract() == World(NO_GATES, sessions.repository.rows)
    {
      this.sessions := sessions;
      gates := [];
      decisions := map[];
    }

    method Known(gateId: string) returns (index: Option<nat>)
      ensures index == GateIndex(gates, gateId)
    {
      var i := 0;
      while i < |gates|
        invariant 0 <= i <= |gates|
        invariant forall k :: 0 <= k < i ==> gates[k].gateId != gateId
      {
        if gates[i].gateId == gateId {
          return Some(i);
        }
        i := i + 1;
      }
      index := None;
    }

    method RestoreGate(rec: SessionRecord, g: ApprovalGate) returns (error: Option<ApprovalError>)
      requires Valid()
      modifies this
      ensures Valid()
      ensures match Restore(old(Abstract()).engine, rec, g)
        case Ok(e) => error == None && Abstract().engine == e
        case Err(x) => error == Some(x) && Abstract() == old(Abstract())
    {
      if !ValidGate(g) { return Some(InvalidGate); }
      if g.runId != rec.runId { return Some(ForeignGate); }
      var known := Known(g.gateId);
      if known.Some? { return Some(DuplicateGate); }
      hide ValidGate;
      var history: seq<HumanDecision> := [];
      for i := 0 to |rec.decisions|
        invariant history == DecisionsOf(rec.decisions[..i], g.gateId)
      {
        assert rec.decisions[..i + 1][..i] == rec.decisions[..i];
        if rec.decisions[i].gateId == g.gateId { history := history + [rec.decisions[i]]; }
      }
      assert rec.decisions[..|rec.decisions|] == rec.decisions;
      var wrong := FirstWrong(history, g.runId);
      if wrong.Some? { return wrong; }
      if g.status == Open && history != [] { return Some(OpenWithDecision); }
      if g.status == Resolved && |history| != 1 { return Some(ResolvedWithoutOneDecision); }
      if g.status == Cancelled && history != [] { return Some(CancelledWithDecision); }
      gates := gates + [g];
      decisions := decisions[g.gateId := history];
      error := None;
    }

    method FirstWrong(history: seq<HumanDecision>, runId: string) returns (wrong: Option<ApprovalError>)
      ensures wrong == CheckHistory(history, runId)
    {
      hide ValidDecision;
      for i := 0 to |history|
        invariant CheckHistory(history[..i], runId) == None
      {
        assert history[..i + 1][..i] == history[..i];
        if history[i].runId != runId || !ValidDecision(history[i]) {
          wrong := Some(if history[i].runId != runId then ForeignDecision else InvalidDecision);
          FirstErrorStays(history, runId, i + 1);
          return;
        }
      }
      assert history[..|history|] == history;
      wrong := None;
    }

    // The constructor's _hydrate: session by session, gate by gate, stopping at the first invalid one.
    method Rebuild(listed: seq<SessionRecord>) returns (error: Option<ApprovalError>)
      requires Valid() && gates == [] && decisions == map[]
      modifies this
      ensures Valid()
      ensures match Hydrate(listed, |listed|)
        case Ok(e) => error == None && Abstract().engine == e
        case Err(x) => error == Some(x)
    {
      hide Restore;
      for i := 0 to |listed|
        invariant Valid() && Hydrate(listed, i) == Ok(Abstract().engine)
      {
        var rec := listed[i];
        ghost var before := Abstract().engine;
        for k := 0 to |rec.gates|
          invariant Valid() && RestoreSession(before, rec, k) == Ok(Abstract().engine)
        {
          error := RestoreGate(rec, rec.gates[k]);
          if error.Some? {
            SessionErrorStays(before, rec, k + 1, |rec.gates|);
            HydrateErrorStays(listed, i + 1);
            return;
          }
        }
      }
      error := None;
    }

    method GetDecision(gateId: string) returns (d: Option<HumanDecision>)
      ensures d == Decision(Abstract().engine, gateId)
    {
      if gateId !in decisions { return None; }
      var history := decisions[gateId];
      d := if history == [] then None else Some(history[|history| - 1]);
    }

    method RequestGate(gate: ApprovalGate, stored: bool) returns (error: Option<ApprovalError>)
      requires Valid()
      modifies this, sessions.repository
      ensures Valid()
      ensures var reply := Approvals.RequestGate(old(Abstract()), gate, stored);
        Abstract() == reply.world && error == reply.error
    {
      hide ValidGate;
      var g := AsOpen(gate);
      if !ValidGate(g) { return Some(InvalidGate); }
      var known := Known(g.gateId);
      if known.Some? { return Some(GateExists); }
      if !stored { return Some(NotPersisted); }
      var refused := sessions.AddApprovalGate(g.runId, g);
      if refused.Some? { return Some(NotPersisted); }
      gates := gates + [g];
      decisions := decisions[g.gateId := []];
      error := None;
    }

    method ResolveGate(gateId: string, decision: DecisionType, feedback: string, actor: string, timestamp: string, stored: bool)
      returns (error: Option<ApprovalError>)
      requires Valid()
      modifies this, sessions.repository
      ensures Valid()
      ensures var reply := ResolveOpenGate(old(Abstract()), gateId, decision, feedback, actor, timestamp, stored);
        Abstract() == reply.world && error == reply.error
    {
      hide ValidGate, ValidDecision, Strip, Blank;
      if Blank(actor) { return Some(EmptyActor); }
      var known := Known(gateId);
      if known.None? { return Some(UnknownGateId); }
      var gate := gates[known.value];
      if gate.status != Open { return Some(NotOpen); }
      if decision !in gate.allowed { return Some(NotAllowed); }
      var record := Recorded(gate, decision, feedback, actor, timestamp);
      var resolved := AsResolved(gate, timestamp);
      if !ValidGate(resolved) || !ValidDecision(record) || !stored { return Some(NotPersisted); }
      var refused := sessions.ResolveApprovalGate(gate.runId, resolved, record);
      if refused.Some? { return Some(NotPersisted); }
      decisions := decisions[gateId := decisions[gateId] + [record]];
      gates := gates[known.value := resolved];
      error := None;
    }

    method CancelGate(gateId: string, stored: bool) returns (error: Option<ApprovalError>)
      requires Valid()
      modifies this, sessions.repository
      ensures Valid()
      ensures var reply := CancelOpenGate(old(Abstract()), gateId, stored);
        Abstract() == reply.world && error == reply.error
    {
      var known := Known(gateId);
      if known.None? { return Some(UnknownGateId); }
      var gate := gates[known.value];
      if gate.status != Open { return Some(NotOpen); }
      if !stored { return Some(NotPersisted); }
      var refused := sessions.CancelApprovalGate(gate.runId, gate.(status := Cancelled));
      if refused.Some? { return Some(NotPersisted); }
      gates := gates[known.value := gate.(status := Cancelled)];
      error := None;
    }
  }

  lemma {:induction false} FirstErrorStays(history: seq<HumanDecision>, runId: string, n: nat)
    requires n <= |history| && CheckHistory(history[..n], runId).Some?
    ensures CheckHistory(history, runId) == CheckHistory(history[..n], runId)
    decreases |history|
  {
    if n == |history| {
      assert history[..n] == history;
    } else {
      var before := history[..|history| - 1];
      assert before[..n] == history[..n];
      FirstErrorStays(before, runId, n);
    }
  }

  lemma {:induction false} SessionErrorStays(e: Engine, rec: SessionRecord, n: nat, m: nat)
    requires n <= m <= |rec.gates| && RestoreSession(e, rec, n).Err?
    ensures RestoreSession(e, rec, m) == RestoreSession(e, rec, n)
  {
    if n < m { SessionErrorStays(e, rec, n, m - 1); }
  }

  lemma {:induction false} HydrateFails(listed: seq<SessionRecord>, n: nat, m: nat)
    requires n <= m <= |listed| && Hydrate(listed, n).Err?
    ensures Hydrate(listed, m) == Hydrate(listed, n)
  {
    if n < m { HydrateFails(listed, n, m - 1); }
  }

  lemma HydrateErrorStays(listed: seq<SessionRecord>, n: nat)
    requires n <= |listed| && Hydrate(listed, n).Err?
    ensures Hydrate(listed, |listed|) == Hydrate(listed, n)
  {
    HydrateFails(listed, n, |listed|);
  }
}
