/** Decoding what was encoded gives the record back. */
module JsonRoundTrip {
  import opened Wrappers
  import opened Contracts
  import opened Text
  import opened JsonDocuments
  import opened JsonCodec

  // ----- Lists -----

  lemma {:induction false} ListRoundTrip<T>(xs: seq<T>, encode: T -> Json, decode: Json -> Decoded<T>)
    requires forall i :: 0 <= i < |xs| ==> decode(encode(xs[i])) == Got(xs[i])
    ensures All(Each(xs, encode), decode) == Got(xs)
  {
    if xs == [] {
      assert Each(xs, encode) == [];
    } else {
      var before := xs[..|xs| - 1];
      ListRoundTrip(before, encode, decode);
      assert Each(xs, encode)[..|xs| - 1] == Each(before, encode);
      assert xs == before + [xs[|xs| - 1]];
    }
  }

  lemma {:induction false} ListFails<T>(items: seq<Json>, decode: Json -> Decoded<T>, i: nat)
    requires i < |items| && decode(items[i]).Raised?
    ensures All(items, decode).Raised?
  {
    if i < |items| - 1 { ListFails(items[..|items| - 1], decode, i); }
  }

  lemma StringsRoundTrip(xs: seq<string>)
    ensures ListOf(Strings(xs), AsString) == Got(xs)
  {
    ListRoundTrip(xs, ToText, AsString);
  }

  lemma ObjectsRoundTrip(xs: seq<Dict>)
    ensures ListOf(Objects(xs), AsDict) == Got(xs)
  {
    ListRoundTrip(xs, ToObject, AsDict);
  }

  // ----- Enumerations -----

  lemma NamesAreInverse(s: WorkflowState, r: ExecutionStatus, d: DecisionType, g: GateStatus)
    ensures StateOf(StateName(s)) == Some(s)
    ensures ResultStatusOf(ResultStatusName(r)) == Some(r)
    ensures DecisionOf(DecisionName(d)) == Some(d)
    ensures GateStatusOf(GateStatusName(g)) == Some(g)
  {
  }

  // ----- Entities -----

  lemma ArtifactRoundTrip(a: Artifact)
    ensures DecodeArtifact(EncodeArtifact(a)) == Got(a)
  {
  }

  lemma MessageRoundTrip(env: Env, m: StoredMessage)
    ensures DecodeMessage(env, EncodeMessage(m)) == Got(m)
  {
  }

  lemma DecisionRoundTrip(d: HumanDecision)
    ensures DecodeDecision(EncodeDecision(d)) == Got(d)
  {
    NamesAreInverse(Idle, Success, d.decision, Open);
    hide DecisionOf, DecisionName;
  }

  lemma ResultRoundTrip(r: StoredResult)
    ensures DecodeResult(EncodeResult(r)) == Got(r)
  {
    hide ResultStatusOf, ResultStatusName, DecodeArtifact, EncodeArtifact, All, Each;
    NamesAreInverse(Idle, r.status, Approve, Open);
    forall i | 0 <= i < |r.artifacts| ensures DecodeArtifact(EncodeArtifact(r.artifacts[i])) == Got(r.artifacts[i]) {
      ArtifactRoundTrip(r.artifacts[i]);
    }
    ListRoundTrip(r.artifacts, EncodeArtifact, DecodeArtifact);
  }

  lemma OutputRoundTrip(env: Env, o: StoredOutput)
    ensures DecodeOutput(env, EncodeOutput(o)) == Got(o)
  {
  }

  lemma AllowedRoundTrip(allowed: seq<DecisionType>)
    ensures ListOf(JArr(Each(allowed, DecisionText)), DecodeDecisionType) == Got(allowed)
  {
    forall i | 0 <= i < |allowed| ensures DecodeDecisionType(DecisionText(allowed[i])) == Got(allowed[i]) {
      NamesAreInverse(Idle, Success, allowed[i], Open);
    }
    ListRoundTrip(allowed, DecisionText, DecodeDecisionType);
  }

  // A gate is read back exactly when it is valid.
  lemma GateRoundTrip(g: StoredGate)
    ensures DecodeGate(EncodeGate(g)) == if SoundGate(g) then Got(g) else Raised
  {
    hide GateStatusOf, GateStatusName, SoundGate, Each, All, ListOf;
    NamesAreInverse(Idle, Success, Approve, g.status);
    AllowedRoundTrip(g.allowed);
  }

  lemma WorkerRoundTrip(w: StoredWorker)
    ensures DecodeWorker(EncodeWorker(w)) == Got(w)
  {
    hide Strings, ListOf;
    StringsRoundTrip(w.deliverables);
    StringsRoundTrip(w.tools);
    StringsRoundTrip(w.dependencies);
  }

  lemma PlanRoundTrip(p: StoredPlan)
    ensures DecodePlan(EncodePlan(p)) == Got(p)
    ensures Truthy(EncodePlan(p))
  {
    hide Strings, ListOf, Each, EncodeWorker, DecodeWorker;
    StringsRoundTrip(p.assumptions);
    StringsRoundTrip(p.constraints);
    StringsRoundTrip(p.criteria);
    StringsRoundTrip(p.risks);
    StringsRoundTrip(p.capabilities);
    WorkersRoundTrip(p.workers);
    assert "plan_id" in EncodePlan(p).fields;
  }

  lemma WorkersRoundTrip(workers: seq<StoredWorker>)
    ensures ListOf(JArr(Each(workers, EncodeWorker)), DecodeWorker) == Got(workers)
  {
    hide EncodeWorker, DecodeWorker;
    forall i | 0 <= i < |workers| ensures DecodeWorker(EncodeWorker(workers[i])) == Got(workers[i]) { WorkerRoundTrip(workers[i]); }
    ListRoundTrip(workers, EncodeWorker, DecodeWorker);
  }

  lemma FinalRoundTrip(f: StoredFinal)
    ensures DecodeFinal(EncodeFinal(f)) == Got(f)
    ensures Truthy(EncodeFinal(f))
  {
    hide Strings, Objects, ListOf;
    ObjectsRoundTrip(f.deliverables);
    ObjectsRoundTrip(f.tests);
    StringsRoundTrip(f.issues);
    assert "run_id" in EncodeFinal(f).fields;
  }

  lemma ContextRoundTrip(env: Env, c: Context)
    requires InverseClock(env)
    ensures DecodeContext(env, EncodeContext(env, c)) == Got(c)
  {
    hide StateOf, StateName;
    NamesAreInverse(c.state, Success, Approve, Open);
  }

  lemma OutputsRoundTrip(env: Env, outputs: map<string, StoredOutput>)
    ensures DecodeOutputs(env, JObj(map w | w in outputs :: EncodeOutput(outputs[w]))) == Got(outputs)
  {
    hide DecodeOutput, EncodeOutput;
    forall w | w in outputs ensures DecodeOutput(env, EncodeOutput(outputs[w])) == Got(outputs[w]) { OutputRoundTrip(env, outputs[w]); }
    var encoded := map w | w in outputs :: EncodeOutput(outputs[w]);
    assert (map w | w in encoded :: DecodeOutput(env, encoded[w]).value) == outputs;
  }

  // ----- The record -----

  ghost predicate GatesSound(r: StoredSession) { forall i :: 0 <= i < |r.gates| ==> SoundGate(r.gates[i]) }

  lemma GatesRoundTrip(gates: seq<StoredGate>)
    ensures ListOf(JArr(Each(gates, EncodeGate)), DecodeGate) ==
      if forall i :: 0 <= i < |gates| ==> SoundGate(gates[i]) then Got(gates) else Raised
  {
    hide EncodeGate, DecodeGate, SoundGate;
    forall i | 0 <= i < |gates| ensures DecodeGate(EncodeGate(gates[i])) == if SoundGate(gates[i]) then Got(gates[i]) else Raised {
      GateRoundTrip(gates[i]);
    }
    if forall i :: 0 <= i < |gates| ==> SoundGate(gates[i]) {
      ListRoundTrip(gates, EncodeGate, DecodeGate);
    } else {
      var i :| 0 <= i < |gates| && !SoundGate(gates[i]);
      ListFails(Each(gates, EncodeGate), DecodeGate, i);
    }
  }

  lemma MessagesRoundTrip(env: Env, messages: seq<StoredMessage>)
    ensures ListOf(JArr(Each(messages, EncodeMessage)), MessageDecoder(env)) == Got(messages)
  {
    hide EncodeMessage, DecodeMessage;
    forall i | 0 <= i < |messages| ensures MessageDecoder(env)(EncodeMessage(messages[i])) == Got(messages[i]) { MessageRoundTrip(env, messages[i]); }
    ListRoundTrip(messages, EncodeMessage, MessageDecoder(env));
  }

  lemma ListsRoundTrip(r: StoredSession)
    ensures ListOf(JArr(Each(r.artifacts, EncodeArtifact)), DecodeArtifact) == Got(r.artifacts)
    ensures ListOf(JArr(Each(r.decisions, EncodeDecision)), DecodeDecision) == Got(r.decisions)
    ensures ListOf(JArr(Each(r.results, EncodeResult)), DecodeResult) == Got(r.results)
  {
    hide EncodeArtifact, DecodeArtifact, EncodeDecision, DecodeDecision, EncodeResult, DecodeResult;
    forall i | 0 <= i < |r.artifacts| ensures DecodeArtifact(EncodeArtifact(r.artifacts[i])) == Got(r.artifacts[i]) { ArtifactRoundTrip(r.artifacts[i]); }
    forall i | 0 <= i < |r.decisions| ensures DecodeDecision(EncodeDecision(r.decisions[i])) == Got(r.decisions[i]) { DecisionRoundTrip(r.decisions[i]); }
    forall i | 0 <= i < |r.results| ensures DecodeResult(EncodeResult(r.results[i])) == Got(r.results[i]) { ResultRoundTrip(r.results[i]); }
    ListRoundTrip(r.artifacts, EncodeArtifact, DecodeArtifact);
    ListRoundTrip(r.decisions, EncodeDecision, DecodeDecision);
    ListRoundTrip(r.results, EncodeResult, DecodeResult);
  }

  lemma OptionalPartsRoundTrip(r: StoredSession)
    ensures DecodeIfTruthy(match r.plan { case None => JNull case Some(p) => EncodePlan(p) }, DecodePlan) == Got(r.plan)
    ensures DecodeIfTruthy(match r.final { case None => JNull case Some(f) => EncodeFinal(f) }, DecodeFinal) == Got(r.final)
  {
    hide EncodePlan, DecodePlan, EncodeFinal, DecodeFinal;
    if r.plan.Some? { PlanRoundTrip(r.plan.value); }
    if r.final.Some? { FinalRoundTrip(r.final.value); }
  }

  lemma SoundWithoutRevision(r: StoredSession)
    requires Sound(r)
    ensures Sound(r.(revision := 0))
  {
    hide Blank, SoundMessage, SoundArtifact, SoundDecision, SoundResult, SoundOutput, SoundPlan, SoundFinal;
  }

  lemma RecordRoundTrip(env: Env, r: StoredSession, expected: Option<string>)
    requires InverseClock(env) && Sound(r) && (expected.Some? ==> expected.value == r.context.runId)
    ensures DecodeRecord(env, EncodeSession(env, r), expected) == if GatesSound(r) then Got(r.(revision := 0)) else Raised
  {
    hide ListOf, Each, EncodeContext, DecodeContext, DecodeOutputs, DecodeIfTruthy, EncodePlan, EncodeFinal, Sound, MessageDecoder, SoundGate;
    ContextRoundTrip(env, r.context);
    MessagesRoundTrip(env, r.messages);
    ListsRoundTrip(r);
    OutputsRoundTrip(env, r.outputs);
    OptionalPartsRoundTrip(r);
    GatesRoundTrip(r.gates);
    SoundWithoutRevision(r);
  }

  /**
   Round trip. A record that passes the integrity check is written; what was written is read back exactly when every
   approval gate in it is valid, which writing does not check; and then the record is the one that was written, field
   for field, with its revision reset to 0.
   */
  lemma ReadingIsTheInverseOfWriting(env: Env, r: StoredSession)
    requires InverseClock(env)
    ensures Write(env, r).Some? <==> Sound(r)
    ensures Write(env, r).Some? ==>
      Read(env, Write(env, r).value, Some(r.context.runId)) == if GatesSound(r) then Got(r.(revision := 0)) else Raised
  {
    hide Sound, EncodeSession, DecodeRecord, InverseClock, GatesSound;
    if Sound(r) {
      RecordRoundTrip(env, r, Some(r.context.runId));
      EncodedIsObject(env, r);
    }
  }

  lemma EncodedIsObject(env: Env, r: StoredSession)
    ensures EncodeSession(env, r).JObj?
  {
  }

  // Adding an invalid gate to any sound record gives one that is written and cannot be read back.
  lemma AnInvalidGateIsWrittenUnread(env: Env, r: StoredSession, g: StoredGate)
    requires InverseClock(env) && Sound(r) && !SoundGate(g)
    ensures var r' := r.(gates := r.gates + [g]);
      Write(env, r').Some? && Read(env, Write(env, r').value, Some(r'.context.runId)) == Raised
  {
    hide SoundGate, Write, Read, InverseClock;
    var r' := r.(gates := r.gates + [g]);
    assert r'.gates[|r.gates|] == g;
    assert !GatesSound(r');
    SoundIgnoresGates(r, r.gates + [g]);
    ReadingIsTheInverseOfWriting(env, r');
  }

  lemma SoundIgnoresGates(r: StoredSession, gates: seq<StoredGate>)
    requires Sound(r)
    ensures Sound(r.(gates := gates))
  {
    hide Blank, SoundMessage, SoundArtifact, SoundDecision, SoundResult, SoundOutput, SoundPlan, SoundFinal;
  }

  // A new session with a gate that allows no decision: only a caller of the repository itself can store one.
  lemma AStoredSessionCanBeUnreadable(env: Env)
    requires InverseClock(env)
    ensures var gate := StoredGate("g", "r", "k", "t", "p", map[], [], Open, "n", None);
      var r := StoredSession(Context("r", Idle, 0, 0, map[]), [], [], [], [], map[], [gate], None, None, 0);
      Write(env, r).Some? && Read(env, Write(env, r).value, Some("r")) == Raised
  {
    hide Write, Read, InverseClock;
    var gate := StoredGate("g", "r", "k", "t", "p", map[], [], Open, "n", None);
    var r := StoredSession(Context("r", Idle, 0, 0, map[]), [], [], [], [], map[], [], None, None, 0);
    assert "r"[0] == 'r';
    assert Sound(r);
    assert [] + [gate] == [gate];
    AnInvalidGateIsWrittenUnread(env, r, gate);
  }

  // Under another run's name the document is refused.
  lemma OtherRunsAreRefused(env: Env, r: StoredSession, runId: string)
    requires InverseClock(env) && Sound(r) && runId != r.context.runId
    ensures Read(env, Write(env, r).value, Some(runId)) == Raised
  {
    hide EncodeContext, DecodeContext, Sound, ListOf;
    ContextRoundTrip(env, r.context);
  }

  // Two records with the same document differ at most in their revisions.
  lemma DocumentsAreInjective(env: Env, a: StoredSession, b: StoredSession)
    requires InverseClock(env) && Sound(a) && Sound(b) && GatesSound(a) && GatesSound(b)
    requires EncodeSession(env, a) == EncodeSession(env, b)
    ensures a.(revision := 0) == b.(revision := 0)
  {
    hide Sound, GatesSound, EncodeSession, DecodeRecord, InverseClock;
    RecordRoundTrip(env, a, None);
    RecordRoundTrip(env, b, None);
  }
}
