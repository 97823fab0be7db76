/** Which session records are written at all, told from their fields. */
module JsonSoundness {
  import opened Wrappers
  import opened Contracts
  import opened Text
  import opened JsonDocuments
  import opened JsonCodec
  import opened JsonRepositories

  ghost predicate NoneBlank(texts: set<string>) { forall s :: s in texts ==> !Blank(s) }

  ghost predicate IfAny(s: Option<string>) { s.Some? ==> !Blank(s.value) }

  // What a worker of a stored plan must be.
  ghost predicate WorkerIsSound(p: StoredPlan, w: StoredWorker) {
    && NoneBlank({w.workerId, w.role, w.mission})
    && (forall s :: s in w.deliverables || s in w.tools || s in w.dependencies ==> !Blank(s))
    && (forall d :: d in w.dependencies ==> d != w.workerId && exists v :: v in p.workers && v.workerId == d)
  }

  ghost predicate PlanIsSound(p: StoredPlan) {
    && NoneBlank({p.planId, p.objective}) && 1 <= |p.workers| <= 4
    && (forall s :: s in p.assumptions || s in p.constraints || s in p.criteria || s in p.risks || s in p.capabilities ==> !Blank(s))
    && (forall i, j :: 0 <= i < j < |p.workers| ==> p.workers[i].workerId != p.workers[j].workerId)
    && forall w :: w in p.workers ==> WorkerIsSound(p, w)
  }

  lemma FilledIs(xs: seq<string>)
    ensures Filled(xs) <==> forall s :: s in xs ==> !Blank(s)
  {
    hide Blank;
  }

  lemma SoundWorkerIs(p: StoredPlan, w: StoredWorker)
    ensures WorkerIsSound(p, w) <==> SoundWorker(w) && forall d :: d in w.dependencies ==> Employs(p, d)
  {
    hide Blank, Filled;
    FilledIs(w.deliverables);
    FilledIs(w.tools);
    FilledIs(w.dependencies);
    assert NoneBlank({w.workerId, w.role, w.mission}) <==> !Blank(w.workerId) && !Blank(w.role) && !Blank(w.mission);
    forall d ensures Employs(p, d) <==> exists v :: v in p.workers && v.workerId == d {
      if v :| v in p.workers && v.workerId == d {
        var k :| 0 <= k < |p.workers| && p.workers[k] == v;
        assert p.workers[k].workerId == d;
      }
    }
  }

  lemma SoundPlanIs(p: StoredPlan)
    ensures SoundPlan(p) <==> PlanIsSound(p)
  {
    hide Blank, Filled, SoundWorker, Employs, WorkerIsSound;
    FilledIs(p.assumptions);
    FilledIs(p.constraints);
    FilledIs(p.criteria);
    FilledIs(p.risks);
    FilledIs(p.capabilities);
    assert NoneBlank({p.planId, p.objective}) <==> !Blank(p.planId) && !Blank(p.objective);
    forall w ensures WorkerIsSound(p, w) <==> SoundWorker(w) && forall d :: d in w.dependencies ==> Employs(p, d) { SoundWorkerIs(p, w); }
    if SoundPlan(p) {
      forall w | w in p.workers ensures WorkerIsSound(p, w) {
        var i :| 0 <= i < |p.workers| && p.workers[i] == w;
      }
    }
  }

  ghost predicate ArtifactIsSound(a: Artifact) { NoneBlank({a.artifactId, a.name}) && IfAny(a.mimeType) && IfAny(a.uri) }

  // Everything in the record is of its run and says what it must.
  ghost predicate EntriesAreSound(r: StoredSession) {
    var run := r.context.runId;
    && (forall m :: m in r.messages ==> m.runId == run && NoneBlank({m.role, m.content, m.timestamp}))
    && (forall a :: a in r.artifacts ==> ArtifactIsSound(a))
    && (forall d :: d in r.decisions ==> d.runId == run && NoneBlank({d.gateId, d.timestamp, d.actor}))
    && (forall x :: x in r.results ==>
          && NoneBlank({x.executionId, x.backend}) && IfAny(x.runId) && IfAny(x.workerId) && x.durationMs >= 0
          && forall a :: a in x.artifacts ==> ArtifactIsSound(a))
    && (forall w :: w in r.outputs ==>
          r.outputs[w].workerId == w && r.outputs[w].runId == run && NoneBlank({w, r.outputs[w].status, r.outputs[w].timestamp}))
  }

  ghost predicate FinalIsSound(f: StoredFinal, run: string) {
    && f.runId == run && NoneBlank({f.status, f.summary}) && (forall s :: s in f.issues ==> !Blank(s))
    && (f.evidenceHash.Some? ==> |f.evidenceHash.value| == 64 && forall c :: c in f.evidenceHash.value ==> c in "0123456789abcdefABCDEF")
  }

  lemma ArtifactIs(a: Artifact)
    ensures ArtifactIsSound(a) <==> SoundArtifact(a)
  {
    hide Blank;
    assert NoneBlank({a.artifactId, a.name}) <==> !Blank(a.artifactId) && !Blank(a.name);
  }

  lemma ResultIs(x: StoredResult)
    ensures SoundResult(x) <==>
      && NoneBlank({x.executionId, x.backend}) && IfAny(x.runId) && IfAny(x.workerId) && x.durationMs >= 0
      && forall a :: a in x.artifacts ==> ArtifactIsSound(a)
  {
    hide Blank, SoundArtifact, ArtifactIsSound;
    assert NoneBlank({x.executionId, x.backend}) <==> !Blank(x.executionId) && !Blank(x.backend);
    forall a ensures ArtifactIsSound(a) <==> SoundArtifact(a) { ArtifactIs(a); }
  }

  lemma MessageIs(m: StoredMessage, run: string)
    ensures SoundMessage(m, run) <==> m.runId == run && NoneBlank({m.role, m.content, m.timestamp})
  {
    hide Blank;
    assert NoneBlank({m.role, m.content, m.timestamp}) <==> !Blank(m.role) && !Blank(m.content) && !Blank(m.timestamp);
  }

  lemma DecisionIs(d: HumanDecision, run: string)
    requires !Blank(run)
    ensures SoundDecision(d, run) <==> d.runId == run && NoneBlank({d.gateId, d.timestamp, d.actor})
  {
    hide Blank;
    assert NoneBlank({d.gateId, d.timestamp, d.actor}) <==> !Blank(d.gateId) && !Blank(d.timestamp) && !Blank(d.actor);
  }

  lemma OutputIs(w: string, o: StoredOutput, run: string)
    ensures SoundOutput(w, o, run) <==> o.workerId == w && o.runId == run && NoneBlank({w, o.status, o.timestamp})
  {
    hide Blank;
    assert NoneBlank({w, o.status, o.timestamp}) <==> !Blank(w) && !Blank(o.status) && !Blank(o.timestamp);
  }

  lemma FinalIs(f: StoredFinal, run: string)
    requires !Blank(run)
    ensures SoundFinal(f, run) <==> FinalIsSound(f, run)
  {
    hide Blank, Filled, Hexadecimal;
    FilledIs(f.issues);
    assert NoneBlank({f.status, f.summary}) <==> !Blank(f.status) && !Blank(f.summary);
    if f.evidenceHash.Some? { DigitsAre(f.evidenceHash.value); }
  }

  lemma DigitsAre(s: string)
    ensures Hexadecimal(s) <==> forall c :: c in s ==> c in "0123456789abcdefABCDEF"
  {
    if Hexadecimal(s) {
      forall c | c in s ensures c in "0123456789abcdefABCDEF" {
        var i :| 0 <= i < |s| && s[i] == c;
        DigitIs(c);
      }
    } else {
      var i :| 0 <= i < |s| && !('0' <= s[i] <= '9' || 'a' <= s[i] <= 'f' || 'A' <= s[i] <= 'F');
      DigitIs(s[i]);
      assert s[i] in s;
    }
  }

  lemma DigitIs(c: char)
    ensures c in "0123456789abcdefABCDEF" <==> '0' <= c <= '9' || 'a' <= c <= 'f' || 'A' <= c <= 'F'
  {
    var digits := "0123456789abcdefABCDEF";
    if '0' <= c <= '9' { assert digits[c as int - '0' as int] == c; }
    if 'a' <= c <= 'f' { assert digits[c as int - 'a' as int + 10] == c; }
    if 'A' <= c <= 'F' { assert digits[c as int - 'A' as int + 16] == c; }
  }

  lemma EntriesAre(r: StoredSession)
    requires !Blank(r.context.runId)
    ensures var run := r.context.runId;
      EntriesAreSound(r) <==>
      && (forall i :: 0 <= i < |r.messages| ==> SoundMessage(r.messages[i], run))
      && (forall i :: 0 <= i < |r.artifacts| ==> SoundArtifact(r.artifacts[i]))
      && (forall i :: 0 <= i < |r.decisions| ==> SoundDecision(r.decisions[i], run))
      && (forall i :: 0 <= i < |r.results| ==> SoundResult(r.results[i]))
      && (forall w :: w in r.outputs ==> SoundOutput(w, r.outputs[w], run))
  {
    hide Blank, NoneBlank, IfAny, SoundMessage, SoundArtifact, SoundDecision, SoundResult, SoundOutput, ArtifactIsSound;
    var run := r.context.runId;
    forall m ensures SoundMessage(m, run) <==> m.runId == run && NoneBlank({m.role, m.content, m.timestamp}) { MessageIs(m, run); }
    forall d ensures SoundDecision(d, run) <==> d.runId == run && NoneBlank({d.gateId, d.timestamp, d.actor}) { DecisionIs(d, run); }
    forall w, o ensures SoundOutput(w, o, run) <==> o.workerId == w && o.runId == run && NoneBlank({w, o.status, o.timestamp}) { OutputIs(w, o, run); }
    forall a ensures ArtifactIsSound(a) <==> SoundArtifact(a) { ArtifactIs(a); }
    forall x ensures SoundResult(x) <==>
      && NoneBlank({x.executionId, x.backend}) && IfAny(x.runId) && IfAny(x.workerId) && x.durationMs >= 0
      && forall a :: a in x.artifacts ==> ArtifactIsSound(a)
    {
      ResultIs(x);
    }
  }

  /**
   A record is written exactly when its run has a name, every entry of it is sound and its own run's, the plan, if any, has one
   to four workers that depend only on each other, and the final result, if any, carries a digest of 64 hexadecimal digits or none.
   */
  lemma WrittenExactly(env: Env, r: StoredSession)
    ensures Write(env, r).Some? <==>
      && !Blank(r.context.runId) && EntriesAreSound(r)
      && (r.plan.Some? ==> PlanIsSound(r.plan.value)) && (r.final.Some? ==> FinalIsSound(r.final.value, r.context.runId))
  {
    hide Blank, EntriesAreSound, PlanIsSound, FinalIsSound, SoundPlan, SoundFinal, SoundMessage, SoundArtifact, SoundDecision, SoundResult, SoundOutput,
         EncodeSession;
    if !Blank(r.context.runId) {
      EntriesAre(r);
      if r.plan.Some? { SoundPlanIs(r.plan.value); }
      if r.final.Some? { FinalIs(r.final.value, r.context.runId); }
    }
  }

  /** A run has a file exactly when its name is neither blank nor holds a separator of paths or lines or a zero. */
  lemma NamesOfFiles(runId: string)
    ensures SafeRunId(runId) <==>
      && (exists c :: c in runId && !Whitespace(c))
      && '/' !in runId && '\\' !in runId && '\0' !in runId && '\n' !in runId && '\r' !in runId
  {
    if exists c :: c in runId && !Whitespace(c) {
      var c :| c in runId && !Whitespace(c);
      var i :| 0 <= i < |runId| && runId[i] == c;
    }
  }
}
