/** Every history of the approval engine under the tool authorization service. */
module AuthorizationHistories {
  import opened Wrappers
  import opened Contracts
  import opened Ordering
  import opened Text
  import opened SessionStore
  import opened Approvals
  import opened RestartTransparency
  import opened Tools
  import opened ToolRegistries
  import opened Authorization
  import opened AuthorizationTheorems

  // ----- No two gates for one request -----

  /** A call of the engine, a request for authorization, or the answer to one. */
  datatype Deed =
    | Called(call: Call)
    | Asked(v: Validation, request: ToolRequest, gateId: string, now: string)
    | Settled(verdict: ToolVerdict)

  // Gates for tools are opened by the authorization service only.
  predicate LeavesToolGates(d: Deed) { d.Called? && d.call.Request? ==> d.call.gate.kind != "TOOL_RISK" }

  function Act(w: World, d: Deed): World {
    match d
    case Called(call) => Do(w, call).world
    case Asked(v, request, gateId, now) => Authorize(w, v, request, gateId, now).world
    case Settled(verdict) => ResolveToolGate(w, verdict).world
  }

  function ActAll(w: World, deeds: seq<Deed>): World {
    if deeds == [] then w else Act(ActAll(w, deeds[..|deeds| - 1]), deeds[|deeds| - 1])
  }

  lemma NoGatesNoKeys()
    ensures OnePerKey([])
  {
  }

  lemma OtherGateKeepsOne(gates: seq<ApprovalGate>, g: ApprovalGate)
    requires OnePerKey(gates) && g.kind != "TOOL_RISK"
    ensures OnePerKey(gates + [g])
  {
    forall i, j, req, risky | 0 <= i < j < |gates| + 1 && Matches((gates + [g])[i], req, risky) ensures !Matches((gates + [g])[j], req, risky) {
      if j < |gates| { assert Matches(gates[i], req, risky) ==> !Matches(gates[j], req, risky); }
    }
  }

  lemma SameMatches(g: ApprovalGate, h: ApprovalGate)
    requires h.context == g.context && h.runId == g.runId && h.kind == g.kind
    ensures forall req, risky :: Matches(h, req, risky) <==> Matches(g, req, risky)
  {
  }

  lemma ReplacedGateKeepsOne(gates: seq<ApprovalGate>, i: nat, g: ApprovalGate)
    requires OnePerKey(gates) && i < |gates|
    requires g.context == gates[i].context && g.runId == gates[i].runId && g.kind == gates[i].kind
    ensures OnePerKey(gates[i := g])
  {
    hide Matches;
    SameMatches(gates[i], g);
    var gates' := gates[i := g];
    forall a, b, req, risky | 0 <= a < b < |gates'| && Matches(gates'[a], req, risky) ensures !Matches(gates'[b], req, risky) {
      assert Matches(gates[a], req, risky) ==> !Matches(gates[b], req, risky);
    }
  }

  lemma ResolvingKeepsOne(w: World, gateId: string, decision: DecisionType, feedback: string, actor: string, timestamp: string, stored: bool)
    requires Mirrored(w) && OnePerKey(w.engine.gates)
    ensures OnePerKey(ResolveOpenGate(w, gateId, decision, feedback, actor, timestamp, stored).world.engine.gates)
  {
    hide Mirrored, OnePerKey, ResolveOpenGate, ValidGate, ValidDecision, GateIndex, Persist, Strip;
    if GateIndex(w.engine.gates, gateId).Some? {
      KnownId(w, gateId);
      ResolveFacts(w, gateId, decision, feedback, actor, timestamp, stored);
      var i := GateIndex(w.engine.gates, gateId).value;
      ReplacedGateKeepsOne(w.engine.gates, i, AsResolved(w.engine.gates[i], timestamp));
    } else {
      UnknownIsRefused(w, gateId, decision, feedback, actor, timestamp, stored);
    }
  }

  lemma CancellingKeepsOne(w: World, gateId: string, stored: bool)
    requires OnePerKey(w.engine.gates)
    ensures OnePerKey(CancelOpenGate(w, gateId, stored).world.engine.gates)
  {
    hide OnePerKey, CancelOpenGate, GateIndex, Persist;
    CancelFacts(w, gateId, stored);
    if GateIndex(w.engine.gates, gateId).Some? {
      var i := GateIndex(w.engine.gates, gateId).value;
      ReplacedGateKeepsOne(w.engine.gates, i, w.engine.gates[i].(status := Cancelled));
    }
  }

  lemma RequestingKeepsOne(w: World, gate: ApprovalGate, stored: bool)
    requires OnePerKey(w.engine.gates) && gate.kind != "TOOL_RISK"
    ensures OnePerKey(RequestGate(w, gate, stored).world.engine.gates)
  {
    hide OnePerKey, ValidGate, GateIndex, Persist;
    OtherGateKeepsOne(w.engine.gates, AsOpen(gate));
  }

  lemma EngineStays(w: World, call: Call)
    requires call.CreateRun? || call.Confirm? || call.Elsewhere?
    ensures Do(w, call).world.engine == w.engine
  {
    hide IsRecorded, Persist;
  }

  lemma CallKeepsOne(w: World, call: Call)
    requires Mirrored(w) && OnePerKey(w.engine.gates) && LeavesToolGates(Called(call))
    ensures OnePerKey(Do(w, call).world.engine.gates)
  {
    hide Mirrored, OnePerKey, RequestGate, ResolveOpenGate, CancelOpenGate, Persist, IsRecorded;
    match call {
      case Request(g, stored) => RequestingKeepsOne(w, g, stored);
      case Resolve(id, d, feedback, actor, timestamp, stored) => ResolvingKeepsOne(w, id, d, feedback, actor, timestamp, stored);
      case Cancel(id, stored) => CancellingKeepsOne(w, id, stored);
      case _ => EngineStays(w, call);
    }
  }

  lemma SettlingResolves(w: World, t: ToolVerdict)
    ensures ResolveToolGate(w, t).world == w
      || ResolveToolGate(w, t).world == ResolveOpenGate(w, t.gateId, t.decision, t.feedback, t.actor, t.timestamp, true).world
  {
    hide ResolveOpenGate, Find;
  }

  lemma DeedKeepsOne(w: World, d: Deed)
    requires Mirrored(w) && OnePerKey(w.engine.gates) && LeavesToolGates(d)
    ensures Mirrored(Act(w, d)) && OnePerKey(Act(w, d).engine.gates)
  {
    hide Mirrored, OnePerKey, Do, Authorize, ResolveToolGate, ResolveOpenGate, LeavesToolGates;
    match d {
      case Called(call) =>
        CallKeepsMirrored(w, call);
        CallKeepsOne(w, call);
      case Asked(v, request, gateId, now) =>
        AuthorizeAnswers(w, v, request, gateId, now);
        AuthorizeOpensOnePerKey(w, v, request, gateId, now);
      case Settled(t) =>
        SettlingResolves(w, t);
        ResolveKeepsMirrored(w, t.gateId, t.decision, t.feedback, t.actor, t.timestamp, true);
        ResolvingKeepsOne(w, t.gateId, t.decision, t.feedback, t.actor, t.timestamp, true);
    }
  }

  /**
   After any history in which tool gates are opened by the authorization service, no request is matched by two gates,
   whatever was answered, cancelled, asked again or refused by the database.
   */
  lemma {:induction false} NoRequestHasTwoGates(deeds: seq<Deed>)
    requires forall d :: d in deeds ==> LeavesToolGates(d)
    ensures Mirrored(ActAll(NOTHING_YET, deeds)) && OnePerKey(ActAll(NOTHING_YET, deeds).engine.gates)
  {
    hide Mirrored, Act, LeavesToolGates;
    if deeds == [] {
      NothingYetIsMirrored([]);
      NoGatesNoKeys();
    } else {
      hide OnePerKey;
      NoRequestHasTwoGates(deeds[..|deeds| - 1]);
      DeedKeepsOne(ActAll(NOTHING_YET, deeds[..|deeds| - 1]), deeds[|deeds| - 1]);
    }
  }

  // ----- A worker whose tool gate was turned down and whose network gate was approved -----

  const TOOL: Tool := Tool("x", "n", "d", High, true, [], true)
  const REGISTRY: Registered := map["x" := TOOL]
  const ITEM: Item := Item(WorkerSpec("w", ["x"], []), Validation(["x"], [], [TOOL], [], []), Some(true), "g", "h", "t")
  const PLAN: Plan := Plan("r", "b", [], "a")

  function FirstGate(): ApprovalGate { ToolGate(RequestOf(PLAN, ITEM, false), ["x"], "g", "t") }

  function SecondGate(): ApprovalGate { ToolGate(RequestOf(PLAN, ITEM, true), ["x"], "h", "t") }

  function SaidOf(gateId: string, decision: DecisionType): HumanDecision { HumanDecision(gateId, "r", decision, "", "t", "human") }

  // One run whose gates and decisions the engine holds.
  function OneRun(gates: seq<ApprovalGate>, decisions: seq<HumanDecision>, revision: nat, histories: map<string, seq<HumanDecision>>): World {
    World(Engine(gates, histories), map["r" := NewSession("r").(gates := gates, decisions := decisions, revision := revision)])
  }

  lemma GateIsRequested(gates: seq<ApprovalGate>, decisions: seq<HumanDecision>, n: nat, histories: map<string, seq<HumanDecision>>, g: ApprovalGate)
    requires ValidGate(g) && g.status == Open && g.resolvedAt == None && g.runId == "r" && GateIndex(gates, g.gateId).None?
    ensures Do(OneRun(gates, decisions, n, histories), Request(g, true)).world
      == OneRun(gates + [g], decisions, n + 1, histories[g.gateId := []])
  {
    hide ValidGate, GateIndex;
    assert AsOpen(g) == g;
  }

  lemma GateIsResolved(gates: seq<ApprovalGate>, decisions: seq<HumanDecision>, n: nat, histories: map<string, seq<HumanDecision>>, g: ApprovalGate, decision: DecisionType)
    requires ValidGate(g) && g.status == Open && g.runId == "r" && decision in g.allowed && GateIndex(gates, g.gateId).None?
    requires FindDecision(decisions, g.gateId).None? && g.gateId in histories && histories[g.gateId] == []
    ensures Do(OneRun(gates + [g], decisions, n, histories), Resolve(g.gateId, decision, "", "human", "t", true)).world
      == OneRun(gates + [AsResolved(g, "t")], decisions + [SaidOf(g.gateId, decision)], n + 1, histories[g.gateId := [SaidOf(g.gateId, decision)]])
  {
    hide GateIndex, FindDecision, ValidGate, Strip, Blank;
    HumanSpeaks();
    LastIsFound(gates, g);
    ResolvedStaysValid(g);
    var w := OneRun(gates + [g], decisions, n, histories);
    assert Recorded(g, decision, "", "human", "t") == SaidOf(g.gateId, decision);
    assert (gates + [g])[|gates| := AsResolved(g, "t")] == gates + [AsResolved(g, "t")];
    assert histories[g.gateId] + [SaidOf(g.gateId, decision)] == [SaidOf(g.gateId, decision)];
  }

  lemma HumanSpeaks()
    ensures Strip("human") == "human" && Strip("") == "" && !Blank("human") && !Blank("t") && !Blank("r")
  {
    assert "human"[0] == 'h' && "t"[0] == 't' && "r"[0] == 'r';
    assert StripLeft("human") == "human";
    assert StripRight("human") == "human";
  }

  lemma {:induction false} LastIsFound(gates: seq<ApprovalGate>, g: ApprovalGate)
    requires GateIndex(gates, g.gateId).None?
    ensures GateIndex(gates + [g], g.gateId) == Some(|gates|)
  {
    if gates != [] {
      assert (gates + [g])[1..] == gates[1..] + [g];
      LastIsFound(gates[1..], g);
    }
  }

  lemma ResolvedStaysValid(g: ApprovalGate)
    requires ValidGate(g)
    ensures ValidGate(AsResolved(g, "t")) && !Blank(g.gateId)
  {
  }

  lemma GatesAreValid()
    ensures ValidGate(FirstGate()) && ValidGate(SecondGate())
  {
    assert "g"[0] == 'g' && "h"[0] == 'h' && "r"[0] == 'r' && "t"[0] == 't';
    var g := FirstGate();
    assert g.kind[0] == 'T' && g.title[0] == 'A' && g.prompt[0] == 'A';
    assert SecondGate().prompt == g.prompt;
  }

  // The tool gate is asked for and rejected, then the network gate is asked for and approved.
  const RUN_CREATED: seq<Call> := [CreateRun("r")]
  const TOOL_ASKED: seq<Call> := RUN_CREATED + [Request(FirstGate(), true)]
  const TOOL_REJECTED: seq<Call> := TOOL_ASKED + [Resolve("g", Reject, "", "human", "t", true)]
  const NETWORK_ASKED: seq<Call> := TOOL_REJECTED + [Request(SecondGate(), true)]
  const NETWORK_APPROVED: seq<Call> := NETWORK_ASKED + [Resolve("h", Approve, "", "human", "t", true)]

  lemma OneMore(w: World, calls: seq<Call>, call: Call)
    ensures DoAll(w, calls + [call]) == Do(DoAll(w, calls), call).world
  {
    hide Do;
    assert (calls + [call])[..|calls|] == calls;
  }

  lemma RunIsCreated()
    ensures DoAll(NOTHING_YET, RUN_CREATED) == OneRun([], [], 0, map[])
  {
    assert [] + [CreateRun("r")] == RUN_CREATED;
    OneMore(NOTHING_YET, [], CreateRun("r"));
    assert DoAll(NOTHING_YET, []) == NOTHING_YET;
  }

  lemma ToolIsRejected()
    ensures DoAll(NOTHING_YET, TOOL_REJECTED)
      == OneRun([AsResolved(FirstGate(), "t")], [SaidOf("g", Reject)], 2, map["g" := [SaidOf("g", Reject)]])
  {
    hide DoAll, Do, FirstGate, ValidGate;
    GatesAreValid();
    GateNames();
    RunIsCreated();
    OneMore(NOTHING_YET, RUN_CREATED, Request(FirstGate(), true));
    GateIsRequested([], [], 0, map[], FirstGate());
    assert [] + [FirstGate()] == [FirstGate()];
    OneMore(NOTHING_YET, TOOL_ASKED, Resolve("g", Reject, "", "human", "t", true));
    GateIsResolved([], [], 1, map["g" := []], FirstGate(), Reject);
    assert [] + [AsResolved(FirstGate(), "t")] == [AsResolved(FirstGate(), "t")];
    assert [] + [SaidOf("g", Reject)] == [SaidOf("g", Reject)];
  }

  lemma GateNames()
    ensures FirstGate().gateId == "g" && SecondGate().gateId == "h"
    ensures forall gate :: gate in {FirstGate(), SecondGate()} ==>
      gate.status == Open && gate.resolvedAt == None && gate.runId == "r" && gate.allowed == [Approve, Reject]
    ensures GateIndex([AsResolved(FirstGate(), "t")], "h").None?
    ensures FindDecision([SaidOf("g", Reject)], "h").None?
  {
    assert "g" != "h";
    assert AsResolved(FirstGate(), "t").gateId == "g";
  }

  lemma NetworkIsApproved()
    ensures DoAll(NOTHING_YET, NETWORK_APPROVED)
      == OneRun([AsResolved(FirstGate(), "t"), AsResolved(SecondGate(), "t")], [SaidOf("g", Reject), SaidOf("h", Approve)], 4,
                map["g" := [SaidOf("g", Reject)], "h" := [SaidOf("h", Approve)]])
  {
    hide DoAll, Do, FirstGate, SecondGate, ValidGate, GateIndex, FindDecision;
    GatesAreValid();
    GateNames();
    ToolIsRejected();
    var first := [AsResolved(FirstGate(), "t")];
    var histories := map["g" := [SaidOf("g", Reject)]];
    OneMore(NOTHING_YET, TOOL_REJECTED, Request(SecondGate(), true));
    GateIsRequested(first, [SaidOf("g", Reject)], 2, histories, SecondGate());
    OneMore(NOTHING_YET, NETWORK_ASKED, Resolve("h", Approve, "", "human", "t", true));
    GateIsResolved(first, [SaidOf("g", Reject)], 3, histories["h" := []], SecondGate(), Approve);
    assert first + [AsResolved(SecondGate(), "t")] == [AsResolved(FirstGate(), "t"), AsResolved(SecondGate(), "t")];
    assert [SaidOf("g", Reject)] + [SaidOf("h", Approve)] == [SaidOf("g", Reject), SaidOf("h", Approve)];
    assert histories["h" := []]["h" := [SaidOf("h", Approve)]] == map["g" := [SaidOf("g", Reject)], "h" := [SaidOf("h", Approve)]];
  }

  lemma ItemIsResolved()
    ensures ResolvedBy(ITEM, PLAN, REGISTRY, {}) && RiskyIds(ITEM.v.resolved) == ["x"]
    ensures ITEM.v.IsValid() && ValidRequest(RequestOf(PLAN, ITEM, false))
  {
    OneString("x");
    ToolIsValid();
    assert Explicit(REGISTRY, ["x"], true) == ["x"];
    assert Added(REGISTRY, {}, ["x"], [], true) == [];
    assert Missing(REGISTRY, ["x"], true) == [];
    assert Keep([TOOL], IsRisky) == [TOOL];
    assert ToolIds([TOOL]) == ["x"];
    assert "r"[0] == 'r' && "w"[0] == 'w' && "b"[0] == 'b' && "x"[0] == 'x';
  }

  lemma OneString(x: string)
    ensures SortStrings([x]) == [x] && Distinct([x]) == [x] && SortStrings([]) == [] && Distinct([]) == []
  {
    assert [x][1..] == [] && [x][..0] == [];
    assert Sort(StringLe, [x][1..]) == [];
  }

  lemma ToolIsValid()
    ensures RegistryOk(REGISTRY, {})
  {
    assert "x"[0] == 'x' && "n"[0] == 'n' && "d"[0] == 'd';
    assert Provides(TOOL) == {};
  }

  lemma Standings(e: Engine)
    requires e.gates == [AsResolved(FirstGate(), "t"), AsResolved(SecondGate(), "t")]
    requires e.decisions == map["g" := [SaidOf("g", Reject)], "h" := [SaidOf("h", Approve)]]
    ensures StandingOf(e, RequestOf(PLAN, ITEM, false), ["x"]) == Turned
    ensures StandingOf(e, RequestOf(PLAN, ITEM, true), ["x"]) == Approved
  {
    OneString("x");
    hide SortStrings;
    assert e.gates[..1] == [AsResolved(FirstGate(), "t")];
    assert Matches(AsResolved(FirstGate(), "t"), RequestOf(PLAN, ITEM, false), ["x"]);
    assert Matches(AsResolved(SecondGate(), "t"), RequestOf(PLAN, ITEM, true), ["x"]);
    assert !Matches(AsResolved(SecondGate(), "t"), RequestOf(PLAN, ITEM, false), ["x"]);
    assert Matching(e.gates[..1], RequestOf(PLAN, ITEM, false), ["x"]) == Some(AsResolved(FirstGate(), "t"));
  }

  /**
   A history in which the human rejected the worker's tool gate and approved its network gate: the worker is executable
   with an authorized grant, and the gateway calls the backend.
   */
  lemma RejectedToolRunsOverTheNetwork()
    ensures var w := DoAll(NOTHING_YET, NETWORK_APPROVED);
      var turn := AuthorizeWorker(w, PLAN, ITEM);
      && StandingOf(w.engine, RequestOf(PLAN, ITEM, false), RiskyIds(ITEM.v.resolved)) == Turned
      && StandingOf(w.engine, RequestOf(PLAN, ITEM, true), RiskyIds(ITEM.v.resolved)) == Approved
      && turn.choice.Ready? && turn.choice.grant.authorized
      && Admit(Settings("b", {"b"}, {"b"}), turn.choice.grant, ExecutionRequest("e", "r", "w", true)) == CallBackend
  {
    hide DoAll, Mirrored, AuthorizeWorker, StandingOf, RiskyIds, ResolvedBy, ValidRequest, FirstGate, SecondGate;
    NetworkIsApproved();
    ItemIsResolved();
    var w := DoAll(NOTHING_YET, NETWORK_APPROVED);
    NothingYetIsMirrored(NETWORK_APPROVED);
    Standings(w.engine);
    ReadyExactly(w, PLAN, ITEM, REGISTRY, {});
    WorkerTurn(w, PLAN, ITEM, REGISTRY, {});
    AdmissionIsExact(w.engine, Settings("b", {"b"}, {"b"}), PLAN, ITEM, AuthorizeWorker(w, PLAN, ITEM).choice.grant, "e");
  }
}
