/** SupervisorService.evaluate: the deterministic QA verdict over one run's evidence. */
module Supervisor {
  import opened Wrappers
  import opened Contracts
  import opened Ordering
  import opened Text
  import opened SessionStore

  datatype SupervisorInput = SupervisorInput(
    runId: string, objective: string, criteria: seq<string>,
    outputs: seq<WorkerOutput>, results: seq<ExecutionResult>)

  datatype SupervisorError = InvalidInput

  predicate ValidResult(r: ExecutionResult) {
    && !Blank(r.executionId) && !Blank(r.backend)
    && (r.runId.Some? ==> !Blank(r.runId.value)) && (r.workerId.Some? ==> !Blank(r.workerId.value))
  }

  predicate ValidInput(d: SupervisorInput) {
    && !Blank(d.runId) && !Blank(d.objective)
    && (forall i :: 0 <= i < |d.criteria| ==> !Blank(d.criteria[i]))
    && (forall i :: 0 <= i < |d.results| ==> ValidResult(d.results[i]))
    && (forall i :: 0 <= i < |d.outputs| ==> d.outputs[i].runId == d.runId)
  }

  function LowerChar(c: char): char {
    if 'A' <= c <= 'Z' then ((c as int) + 32) as char else c
  }

  function Lower(s: string): string { seq(|s|, i requires 0 <= i < |s| => LowerChar(s[i])) }

  predicate Successful(o: WorkerOutput) { Lower(o.status) in {"success", "completed", "ok"} }

  function ResultIds(s: seq<ExecutionResult>): seq<string> { seq(|s|, i requires 0 <= i < |s| => s[i].executionId) }

  function WorkerIds(s: seq<WorkerOutput>): seq<string> { seq(|s|, i requires 0 <= i < |s| => s[i].workerId) }

  function OtherRun(runId: string): ExecutionResult -> bool { (r: ExecutionResult) => r.runId != Some(runId) }

  function NotSuccessful(): WorkerOutput -> bool { o => !Successful(o) }

  function Failing(): ExecutionResult -> bool { (r: ExecutionResult) => r.status != Success }

  function MoreThanOnce(s: seq<string>): string -> bool { x => Count(s, x) > 1 }

  function CrossRun(d: SupervisorInput): seq<string> { ResultIds(Keep(d.results, OtherRun(d.runId))) }

  function Unsuccessful(d: SupervisorInput): seq<string> { WorkerIds(Keep(d.outputs, NotSuccessful())) }

  function Failures(d: SupervisorInput): seq<ExecutionResult> { Keep(d.results, Failing()) }

  // The items that occur more than once, sorted.
  function Repeated(s: seq<string>): seq<string> { Keep(SortStrings(Distinct(s)), MoreThanOnce(s)) }

  // ----- The loop over worker outputs -----

  datatype Scan = Scan(
    missing: seq<string>, mismatched: seq<string>, unattributed: seq<string>,
    shared: seq<QaIssue>, referenced: set<string>)

  const NOTHING_SCANNED := Scan([], [], [], [], {})

  function ScanOne(d: SupervisorInput, s: Scan, o: WorkerOutput): Scan {
    if !Successful(o) then s
    else if o.execution.None? then s.(missing := s.missing + [o.workerId])
    else
      match FindResult(d.results, o.execution.value)
      case None => s.(missing := s.missing + [o.workerId])
      case Some(r) =>
        if o.execution.value in s.referenced then
          s.(shared := s.shared + [SharedEvidence(o.execution.value)], mismatched := s.mismatched + [o.workerId])
        else
          var s' := s.(referenced := s.referenced + {o.execution.value});
          if r.runId != Some(d.runId) || r.status != Success then s'.(mismatched := s.mismatched + [o.workerId])
          else if r.workerId != Some(o.workerId) then s'.(unattributed := s.unattributed + [o.workerId])
          else s'
  }

  function ScanAll(d: SupervisorInput, outputs: seq<WorkerOutput>): Scan {
    if outputs == [] then NOTHING_SCANNED
    else ScanOne(d, ScanAll(d, outputs[..|outputs| - 1]), outputs[|outputs| - 1])
  }

  // ----- The verdict -----

  function Flag(issues: seq<QaIssue>, condition: bool, issue: QaIssue): seq<QaIssue> {
    if condition then issues + [issue] else issues
  }

  // The issues found before the worker outputs are scanned.
  function Preliminary(d: SupervisorInput): seq<QaIssue> {
    var crossRun := Flag([], CrossRun(d) != [], CrossRunEvidence(SortStrings(CrossRun(d))));
    var duplicates := Repeated(ResultIds(d.results));
    var repeated := Flag(crossRun, duplicates != [], DuplicateExecutions(duplicates));
    var workers := Flag(repeated, Repeated(WorkerIds(d.outputs)) != [], DuplicateWorkers);
    var none := Flag(workers, d.outputs == [], NoWorkerOutputs);
    var failed := Flag(none, Unsuccessful(d) != [], WorkersNotSuccessful(SortStrings(Unsuccessful(d))));
    Flag(failed, Failures(d) != [], ExecutionsNotSuccessful(|Failures(d)|))
  }

  function Blocking(d: SupervisorInput): seq<QaIssue> {
    var s := ScanAll(d, d.outputs);
    var missing := Flag(Preliminary(d) + s.shared, s.missing != [], MissingEvidence(SortStrings(s.missing)));
    var mismatched := Flag(missing, s.mismatched != [], MismatchedEvidence(SortStrings(s.mismatched)));
    Flag(mismatched, s.unattributed != [], UnattributedEvidence(SortStrings(s.unattributed)))
  }

  // A blocked verdict asks for a revision when some worker or execution is at fault.
  predicate AtFault(d: SupervisorInput) {
    var s := ScanAll(d, d.outputs);
    Unsuccessful(d) != [] || Failures(d) != [] || s.missing != [] || s.mismatched != [] || s.unattributed != []
  }

  function Verdict(d: SupervisorInput): QaStatus {
    if Blocking(d) != [] then (if AtFault(d) then Revise else Fail)
    else if d.criteria == [] then Revise
    else Pass
  }

  function Evidence(d: SupervisorInput): QaEvidence {
    var s := ScanAll(d, d.outputs);
    QaEvidence(|d.outputs|, |d.results|, |d.criteria|,
      SortStrings(Unsuccessful(d)), |Failures(d)|, SortStrings(CrossRun(d)), Repeated(ResultIds(d.results)),
      SortStrings(s.missing), SortStrings(s.mismatched), SortStrings(s.unattributed))
  }

  function Evaluate(d: SupervisorInput): Result<QaResult, SupervisorError> {
    if !ValidInput(d) then Err(InvalidInput)
    else Ok(QaResult(d.runId, Verdict(d), Blocking(d), if d.criteria == [] then 1 else 0, Evidence(d)))
  }

  method CheckTotals(d: SupervisorInput) returns (blocking: seq<QaIssue>)
    ensures blocking == Preliminary(d)
  {
    hide CrossRun, Repeated, Unsuccessful, Failures, SortStrings;
    blocking := [];
    if CrossRun(d) != [] { blocking := blocking + [CrossRunEvidence(SortStrings(CrossRun(d)))]; }
    var duplicates := Repeated(ResultIds(d.results));
    if duplicates != [] { blocking := blocking + [DuplicateExecutions(duplicates)]; }
    if Repeated(WorkerIds(d.outputs)) != [] { blocking := blocking + [DuplicateWorkers]; }
    if d.outputs == [] { blocking := blocking + [NoWorkerOutputs]; }
    if Unsuccessful(d) != [] { blocking := blocking + [WorkersNotSuccessful(SortStrings(Unsuccessful(d)))]; }
    if Failures(d) != [] { blocking := blocking + [ExecutionsNotSuccessful(|Failures(d)|)]; }
  }

  method ScanOutputs(d: SupervisorInput) returns (s: Scan)
    ensures s == ScanAll(d, d.outputs)
  {
    hide Successful, FindResult;
    var missing, mismatched, unattributed: seq<string> := [], [], [];
    var shared: seq<QaIssue> := [];
    var referenced: set<string> := {};
    for i := 0 to |d.outputs|
      invariant Scan(missing, mismatched, unattributed, shared, referenced) == ScanAll(d, d.outputs[..i])
    {
      assert d.outputs[..i + 1][..i] == d.outputs[..i];
      var o := d.outputs[i];
      if !Successful(o) { continue; }
      var result := if o.execution.None? then None else FindResult(d.results, o.execution.value);
      if result.None? { missing := missing + [o.workerId]; continue; }
      if o.execution.value in referenced {
        shared := shared + [SharedEvidence(o.execution.value)];
        mismatched := mismatched + [o.workerId];
        continue;
      }
      referenced := referenced + {o.execution.value};
      if result.value.runId != Some(d.runId) || result.value.status != Success {
        mismatched := mismatched + [o.workerId];
        continue;
      }
      if result.value.workerId != Some(o.workerId) { unattributed := unattributed + [o.workerId]; }
    }
    assert d.outputs[..|d.outputs|] == d.outputs;
    s := Scan(missing, mismatched, unattributed, shared, referenced);
  }

  method EvaluateEvidence(d: SupervisorInput) returns (r: Result<QaResult, SupervisorError>)
    ensures r == Evaluate(d)
  {
    hide ValidInput, Preliminary, ScanAll, SortStrings, Evidence, Unsuccessful, Failures;
    if !ValidInput(d) { return Err(InvalidInput); }
    var blocking := CheckTotals(d);
    var s := ScanOutputs(d);
    blocking := blocking + s.shared;
    if s.missing != [] { blocking := blocking + [MissingEvidence(SortStrings(s.missing))]; }
    if s.mismatched != [] { blocking := blocking + [MismatchedEvidence(SortStrings(s.mismatched))]; }
    if s.unattributed != [] { blocking := blocking + [UnattributedEvidence(SortStrings(s.unattributed))]; }
    var status;
    if blocking != [] {
      status := if Unsuccessful(d) != [] || Failures(d) != [] || s.missing != [] || s.mismatched != [] || s.unattributed != []
      then Revise else Fail;
    } else {
      status := if d.criteria == [] then Revise else Pass;
    }
    r := Ok(QaResult(d.runId, status, blocking, if d.criteria == [] then 1 else 0, Evidence(d)));
  }

  // ----- What the verdict means -----

  ghost predicate DistinctWorkers(outputs: seq<WorkerOutput>) {
    forall i, j :: 0 <= i < j < |outputs| ==> outputs[i].workerId != outputs[j].workerId
  }

  ghost predicate DistinctReferences(outputs: seq<WorkerOutput>) {
    forall i, j :: 0 <= i < j < |outputs| ==> outputs[i].execution != outputs[j].execution
  }

  ghost predicate OfThisRun(d: SupervisorInput) {
    forall r :: r in d.results ==> r.runId == Some(d.runId)
  }

  ghost predicate AllSuccessful(d: SupervisorInput) {
    (forall r :: r in d.results ==> r.status == Success) && (forall o :: o in d.outputs ==> Successful(o))
  }

  // The worker names a result that is its own.
  ghost predicate Owns(results: seq<ExecutionResult>, o: WorkerOutput) {
    o.execution.Some? && exists r :: r in results && r.executionId == o.execution.value && r.workerId == Some(o.workerId)
  }

  // The evidence as a whole is a set of results of this run, one output per worker.
  ghost predicate Consistent(d: SupervisorInput) {
    d.outputs != [] && DistinctWorkers(d.outputs) && UniqueResults(d.results) && OfThisRun(d)
  }

  // Everything that has to be true of the evidence of a run that passes: the references are
  // an injection of the workers into the successful results that they own.
  ghost predicate Passes(d: SupervisorInput) {
    && d.criteria != []
    && Consistent(d)
    && AllSuccessful(d)
    && (forall o :: o in d.outputs ==> Owns(d.results, o))
    && DistinctReferences(d.outputs)
  }

  // The reference of an output checks out against the first result with its id.
  predicate GoodReference(d: SupervisorInput, o: WorkerOutput) {
    o.execution.Some? &&
    match FindResult(d.results, o.execution.value)
    case None => false
    case Some(r) => r.runId == Some(d.runId) && r.status == Success && r.workerId == Some(o.workerId)
  }

  // No single worker or result is to blame.
  ghost predicate NoFault(d: SupervisorInput) {
    && AllSuccessful(d)
    && (forall o :: o in d.outputs ==> GoodReference(d, o))
    && DistinctReferences(d.outputs)
  }

  lemma {:induction false} CountOfDuplicates(s: seq<string>)
    ensures NoDuplicates(s) <==> forall x :: Count(s, x) <= 1
  {
    if s != [] {
      var before, last := s[..|s| - 1], s[|s| - 1];
      CountOfDuplicates(before);
      CountPositive(before, last);
      assert Count(s, last) == Count(before, last) + 1;
      if NoDuplicates(before) && last !in before {
        forall x ensures Count(s, x) <= 1 { CountPositive(before, x); }
      } else if NoDuplicates(before) {
        var i :| 0 <= i < |before| && before[i] == last;
        assert s[i] == s[|s| - 1];
      } else {
        var x :| Count(before, x) > 1;
        assert Count(s, x) > 1;
      }
    }
  }

  lemma {:induction false} NothingRepeated(s: seq<string>)
    ensures Repeated(s) == [] <==> NoDuplicates(s)
  {
    DistinctElements(s);
    SortKeepsNoDuplicates(StringLe, Distinct(s));
    KeepElements(SortStrings(Distinct(s)), MoreThanOnce(s));
    hide Sort, Keep, Distinct;
    var repeated := Repeated(s);
    forall x ensures x in repeated <==> Count(s, x) > 1 { CountPositive(s, x); }
    CountOfDuplicates(s);
    if repeated == [] {
      forall x ensures Count(s, x) <= 1 { assert x !in repeated; }
    } else {
      assert repeated[0] in repeated;
      assert Count(s, repeated[0]) > 1;
    }
  }

  lemma KeepsNothing<T(!new)>(s: seq<T>, p: T -> bool)
    ensures Keep(s, p) == [] <==> forall x :: x in s ==> !p(x)
  {
    KeepElements(s, p);
    if Keep(s, p) != [] { assert Keep(s, p)[0] in s; }
  }

  ghost predicate Clean(s: Scan) { s.missing == [] && s.mismatched == [] && s.unattributed == [] }

  lemma ScanOneIsClean(d: SupervisorInput, s: Scan, o: WorkerOutput)
    requires Successful(o)
    ensures Clean(ScanOne(d, s, o)) <==> Clean(s) && GoodReference(d, o) && o.execution.value !in s.referenced
    ensures Clean(ScanOne(d, s, o)) ==>
      ScanOne(d, s, o).shared == s.shared && ScanOne(d, s, o).referenced == s.referenced + {o.execution.value}
  {
  }

  ghost predicate GoodReferences(d: SupervisorInput, outputs: seq<WorkerOutput>) {
    forall o :: o in outputs ==> GoodReference(d, o)
  }

  predicate Refers(outputs: seq<WorkerOutput>, e: string) {
    exists o :: o in outputs && o.execution == Some(e)
  }

  lemma ReferencesGrow(before: seq<WorkerOutput>, last: WorkerOutput)
    requires last.execution.Some?
    ensures DistinctReferences(before + [last]) <==> DistinctReferences(before) && !Refers(before, last.execution.value)
    ensures forall e :: Refers(before + [last], e) <==> Refers(before, e) || last.execution.value == e
  {
    var all := before + [last];
    if DistinctReferences(all) {
      assert forall i :: 0 <= i < |before| ==> all[i] == before[i];
      forall o | o in before ensures o.execution != last.execution {
        var i :| 0 <= i < |before| && before[i] == o;
        assert all[i].execution != all[|before|].execution;
      }
    }
    forall e ensures Refers(all, e) <==> Refers(before, e) || last.execution.value == e {
      assert last in all && forall o :: o in before ==> o in all;
    }
  }

  lemma GoodReferencesGrow(d: SupervisorInput, before: seq<WorkerOutput>, last: WorkerOutput)
    ensures GoodReferences(d, before + [last]) <==> GoodReferences(d, before) && GoodReference(d, last)
  {
    hide GoodReference;
    assert last in before + [last] && forall o :: o in before ==> o in before + [last];
  }

  // The scan of successful outputs finds nothing exactly when every reference is good and none is shared.
  lemma {:induction false} ScanIsClean(d: SupervisorInput, outputs: seq<WorkerOutput>)
    requires forall o :: o in outputs ==> Successful(o)
    ensures Clean(ScanAll(d, outputs)) <==> GoodReferences(d, outputs) && DistinctReferences(outputs)
    ensures Clean(ScanAll(d, outputs)) ==> ScanAll(d, outputs).shared == []
    ensures Clean(ScanAll(d, outputs)) ==> forall e :: e in ScanAll(d, outputs).referenced <==> Refers(outputs, e)
  {
    if outputs != [] {
      hide Successful, GoodReferences, DistinctReferences, Refers, ScanOne, Clean;
      var before, last := outputs[..|outputs| - 1], outputs[|outputs| - 1];
      assert outputs == before + [last];
      ScanIsClean(d, before);
      ScanOneIsClean(d, ScanAll(d, before), last);
      GoodReferencesGrow(d, before, last);
      if GoodReference(d, last) { ReferencesGrow(before, last); }
    }
  }

  lemma DistinctIds(d: SupervisorInput)
    ensures NoDuplicates(ResultIds(d.results)) <==> UniqueResults(d.results)
    ensures NoDuplicates(WorkerIds(d.outputs)) <==> DistinctWorkers(d.outputs)
  {
    var rs, ws := ResultIds(d.results), WorkerIds(d.outputs);
    if NoDuplicates(rs) {
      forall i, j | 0 <= i < j < |d.results| ensures d.results[i].executionId != d.results[j].executionId {
        assert rs[i] != rs[j];
      }
    }
    if NoDuplicates(ws) {
      forall i, j | 0 <= i < j < |d.outputs| ensures d.outputs[i].workerId != d.outputs[j].workerId {
        assert ws[i] != ws[j];
      }
    }
  }

  lemma ListsAreExact(d: SupervisorInput)
    ensures Unsuccessful(d) == [] && Failures(d) == [] <==> AllSuccessful(d)
    ensures CrossRun(d) == [] <==> OfThisRun(d)
    ensures Repeated(ResultIds(d.results)) == [] <==> UniqueResults(d.results)
    ensures Repeated(WorkerIds(d.outputs)) == [] <==> DistinctWorkers(d.outputs)
  {
    KeepsNothing(d.results, Failing());
    KeepsNothing(d.outputs, NotSuccessful());
    KeepsNothing(d.results, OtherRun(d.runId));
    NothingRepeated(ResultIds(d.results));
    NothingRepeated(WorkerIds(d.outputs));
    DistinctIds(d);
    hide NoDuplicates, UniqueResults, DistinctWorkers, Successful, Keep, Repeated;
  }

  lemma FaultIsExact(d: SupervisorInput)
    ensures AtFault(d) <==> !NoFault(d)
    ensures !AtFault(d) ==> ScanAll(d, d.outputs).shared == []
  {
    ListsAreExact(d);
    hide Unsuccessful, Failures, Successful, ScanAll, GoodReference;
    if AllSuccessful(d) { ScanIsClean(d, d.outputs); }
  }

  // A verdict is blocked exactly when some worker or result is at fault or the evidence is inconsistent.
  lemma BlockingIsExact(d: SupervisorInput)
    ensures Blocking(d) == [] <==> NoFault(d) && Consistent(d)
  {
    ListsAreExact(d);
    FaultIsExact(d);
    hide Unsuccessful, Failures, CrossRun, Repeated, NoFault, ScanAll, SortStrings, OfThisRun, UniqueResults, DistinctWorkers;
  }

  // With unique execution ids, the first result with an id is the only one.
  lemma {:induction false} OwnershipIsExact(results: seq<ExecutionResult>, r: ExecutionResult)
    requires UniqueResults(results) && r in results
    ensures FindResult(results, r.executionId) == Some(r)
  {
    if results[0] != r {
      assert forall i, j :: 0 <= i < j < |results[1..]| ==> results[1..][i] == results[i + 1] && results[1..][j] == results[j + 1];
      OwnershipIsExact(results[1..], r);
      var i :| 1 <= i < |results| && results[i] == r;
    }
  }

  lemma ReferencesAreOwned(d: SupervisorInput)
    requires Consistent(d) && AllSuccessful(d)
    ensures (forall o :: o in d.outputs ==> GoodReference(d, o)) <==> (forall o :: o in d.outputs ==> Owns(d.results, o))
  {
    hide Successful;
    forall o | o in d.outputs ensures GoodReference(d, o) <==> Owns(d.results, o) {
      if Owns(d.results, o) {
        var r :| r in d.results && r.executionId == o.execution.value && r.workerId == Some(o.workerId);
        OwnershipIsExact(d.results, r);
      }
    }
  }

  // PASS is characterised without the order in which evidence is listed. FAIL is not: NoFault judges a reference by the
  // first result with its id, and OrderDecidesExactly says when that matters.
  lemma VerdictIsExact(d: SupervisorInput)
    ensures Verdict(d) == Pass <==> Passes(d)
    ensures Verdict(d) == Fail <==> NoFault(d) && !Consistent(d)
  {
    BlockingIsExact(d);
    FaultIsExact(d);
    if Consistent(d) && AllSuccessful(d) { ReferencesAreOwned(d); }
    hide Blocking, AtFault, GoodReference, Owns, Consistent, AllSuccessful, DistinctReferences;
  }

  // ----- Reordering the evidence -----

  ghost predicate Reordered(d: SupervisorInput, e: SupervisorInput) {
    && multiset(d.outputs) == multiset(e.outputs) && multiset(d.results) == multiset(e.results)
    && d.runId == e.runId && d.criteria == e.criteria && d.objective == e.objective
  }

  lemma DistinctKeysReordered<T(!new), K(!new)>(key: T -> K, a: seq<T>, b: seq<T>)
    requires multiset(a) == multiset(b)
    requires forall i, j :: 0 <= i < j < |a| ==> key(a[i]) != key(a[j])
    ensures forall i, j :: 0 <= i < j < |b| ==> key(b[i]) != key(b[j])
  {
    PermutationKeepsNoDuplicates(a, b);
    forall i, j | 0 <= i < j < |b| ensures key(b[i]) != key(b[j]) {
      assert b[i] in a && b[j] in a && b[i] != b[j];
      var k :| 0 <= k < |a| && a[k] == b[i];
      var l :| 0 <= l < |a| && a[l] == b[j];
      if k < l { assert key(a[k]) != key(a[l]); } else { assert key(a[l]) != key(a[k]); }
    }
  }

  lemma SameItems<T>(a: seq<T>, b: seq<T>)
    requires multiset(a) == multiset(b)
    ensures forall x :: x in a <==> x in b
    ensures |a| == |b|
  {
    forall x ensures x in a <==> x in b { assert x in multiset(a) <==> x in multiset(b); }
    assert |a| == |multiset(a)| == |multiset(b)| == |b|;
  }

  lemma ConsistentReordered(d: SupervisorInput, e: SupervisorInput)
    requires Reordered(d, e) && Consistent(d)
    ensures Consistent(e)
  {
    SameItems(d.outputs, e.outputs);
    SameItems(d.results, e.results);
    DistinctKeysReordered((o: WorkerOutput) => o.workerId, d.outputs, e.outputs);
    DistinctKeysReordered((r: ExecutionResult) => r.executionId, d.results, e.results);
  }

  lemma AllSuccessfulReordered(d: SupervisorInput, e: SupervisorInput)
    requires Reordered(d, e) && AllSuccessful(d)
    ensures AllSuccessful(e)
  {
    hide Successful;
    SameItems(d.outputs, e.outputs);
    SameItems(d.results, e.results);
  }

  lemma DistinctReferencesReordered(d: SupervisorInput, e: SupervisorInput)
    requires Reordered(d, e) && DistinctReferences(d.outputs)
    ensures DistinctReferences(e.outputs)
  {
    DistinctKeysReordered((o: WorkerOutput) => o.execution, d.outputs, e.outputs);
  }

  lemma OwnsReordered(d: SupervisorInput, e: SupervisorInput, o: WorkerOutput)
    requires Reordered(d, e) && Owns(d.results, o)
    ensures Owns(e.results, o)
  {
    SameItems(d.results, e.results);
  }

  lemma PassesReordered(d: SupervisorInput, e: SupervisorInput)
    requires Reordered(d, e) && Passes(d)
    ensures Passes(e)
  {
    ConsistentReordered(d, e);
    AllSuccessfulReordered(d, e);
    DistinctReferencesReordered(d, e);
    SameItems(d.outputs, e.outputs);
    forall o | o in e.outputs ensures Owns(e.results, o) { OwnsReordered(d, e, o); }
  }

  // PASS never depends on the order of the outputs or of the results.
  lemma PassIgnoresOrder(d: SupervisorInput, e: SupervisorInput)
    requires Reordered(d, e)
    ensures Verdict(d) == Pass <==> Verdict(e) == Pass
  {
    VerdictIsExact(d);
    VerdictIsExact(e);
    hide Verdict, Passes;
    if Passes(d) { PassesReordered(d, e); }
    if Passes(e) { PassesReordered(e, d); }
  }

  lemma NoFaultReordered(d: SupervisorInput, e: SupervisorInput)
    requires Reordered(d, e) && UniqueResults(d.results) && NoFault(d)
    ensures NoFault(e)
  {
    AllSuccessfulReordered(d, e);
    DistinctReferencesReordered(d, e);
    SameItems(d.outputs, e.outputs);
    SameItems(d.results, e.results);
    DistinctKeysReordered((r: ExecutionResult) => r.executionId, d.results, e.results);
    hide Successful;
    forall o | o in e.outputs ensures GoodReference(e, o) {
      assert GoodReference(d, o);
      OwnershipIsExact(e.results, FindResult(d.results, o.execution.value).value);
    }
  }

  // Neither does any other verdict, as long as no execution id is listed twice.
  lemma VerdictIgnoresOrder(d: SupervisorInput, e: SupervisorInput)
    requires Reordered(d, e) && UniqueResults(d.results)
    ensures Verdict(d) == Verdict(e)
  {
    DistinctKeysReordered((r: ExecutionResult) => r.executionId, d.results, e.results);
    PassIgnoresOrder(d, e);
    VerdictIsExact(d);
    VerdictIsExact(e);
    hide Verdict, Passes, NoFault, Consistent;
    if Consistent(d) { ConsistentReordered(d, e); }
    if Consistent(e) { ConsistentReordered(e, d); }
    if NoFault(d) { NoFaultReordered(d, e); }
    if NoFault(e) { NoFaultReordered(e, d); }
  }

  // ----- Exactly when the order decides -----

  // The worker's own result of this run, under the id the worker names.
  predicate IsOwn(d: SupervisorInput, o: WorkerOutput, r: ExecutionResult) {
    o.execution == Some(r.executionId) && r.workerId == Some(o.workerId) && r.runId == Some(d.runId)
  }

  ghost predicate HasOwn(d: SupervisorInput, o: WorkerOutput) { exists r :: r in d.results && IsOwn(d, o, r) }

  // Under that id there is also a result of another worker or another run.
  ghost predicate HasForeign(d: SupervisorInput, o: WorkerOutput) {
    exists r :: r in d.results && o.execution == Some(r.executionId) && !IsOwn(d, o, r)
  }

  /** The evidence on which the order of the results decides. */
  ghost predicate OrderMatters(d: SupervisorInput) {
    && AllSuccessful(d) && DistinctReferences(d.outputs)
    && (forall o :: o in d.outputs ==> HasOwn(d, o))
    && (exists o :: o in d.outputs && HasForeign(d, o))
  }

  lemma OrderMattersReordered(d: SupervisorInput, e: SupervisorInput)
    requires Reordered(d, e) && OrderMatters(d)
    ensures OrderMatters(e)
  {
    AllSuccessfulReordered(d, e);
    DistinctReferencesReordered(d, e);
    SameItems(d.outputs, e.outputs);
    SameItems(d.results, e.results);
    hide AllSuccessful, DistinctReferences;
    forall o | o in e.outputs ensures HasOwn(e, o) {
      var r :| r in d.results && IsOwn(d, o, r);
      assert r in e.results && IsOwn(e, o, r);
    }
    var o :| o in d.outputs && HasForeign(d, o);
    var r :| r in d.results && o.execution == Some(r.executionId) && !IsOwn(d, o, r);
    assert r in e.results && !IsOwn(e, o, r);
    assert HasForeign(e, o);
  }

  // A reference is good when the first result with its id is the worker's own success.
  lemma GoodReferenceIsOwn(d: SupervisorInput, o: WorkerOutput)
    requires AllSuccessful(d)
    ensures GoodReference(d, o) <==>
      o.execution.Some? && FindResult(d.results, o.execution.value).Some? && IsOwn(d, o, FindResult(d.results, o.execution.value).value)
  {
    hide Successful;
  }

  lemma FailMeans(d: SupervisorInput)
    requires Verdict(d) == Fail
    ensures NoFault(d) && !Consistent(d)
  {
    VerdictIsExact(d);
    hide Verdict, NoFault, Consistent, Passes;
  }

  lemma ReviseMeans(d: SupervisorInput)
    requires Verdict(d) == Revise && !Consistent(d) && AllSuccessful(d) && DistinctReferences(d.outputs)
    ensures exists o :: o in d.outputs && !GoodReference(d, o)
  {
    VerdictIsExact(d);
    hide Verdict, Passes, Consistent, AllSuccessful, DistinctReferences, GoodReference;
  }

  lemma GoodMeansOwn(d: SupervisorInput)
    requires NoFault(d)
    ensures forall o :: o in d.outputs ==> HasOwn(d, o)
  {
    hide GoodReference, DistinctReferences, AllSuccessful, IsOwn;
    forall o | o in d.outputs ensures HasOwn(d, o) { GoodReferenceIsOwn(d, o); }
  }

  lemma BadMeansForeign(d: SupervisorInput, o: WorkerOutput)
    requires AllSuccessful(d) && !GoodReference(d, o) && HasOwn(d, o)
    ensures HasForeign(d, o)
  {
    hide GoodReference, AllSuccessful;
    GoodReferenceIsOwn(d, o);
  }

  lemma FailAgainstRevise(d: SupervisorInput, e: SupervisorInput)
    requires Reordered(d, e) && Verdict(d) == Fail && Verdict(e) == Revise
    ensures OrderMatters(e)
  {
    hide Verdict, Consistent, AllSuccessful, DistinctReferences, GoodReference, HasForeign, HasOwn;
    FailMeans(d);
    if Consistent(e) { ConsistentReordered(e, d); }
    AllSuccessfulReordered(d, e);
    DistinctReferencesReordered(d, e);
    ReviseMeans(e);
    GoodMeansOwn(d);
    SameItems(d.outputs, e.outputs);
    forall o | o in e.outputs ensures HasOwn(e, o) { HasOwnReordered(d, e, o); }
    var o :| o in e.outputs && !GoodReference(e, o);
    BadMeansForeign(e, o);
  }

  lemma HasOwnReordered(d: SupervisorInput, e: SupervisorInput, o: WorkerOutput)
    requires Reordered(d, e) && HasOwn(d, o)
    ensures HasOwn(e, o)
  {
    SameItems(d.results, e.results);
  }

  // Moving the results that some worker owns to the front.
  predicate Owned(d: SupervisorInput, r: ExecutionResult) { exists o :: o in d.outputs && IsOwn(d, o, r) }

  lemma {:induction false} Partitioned<T(!new)>(s: seq<T>, p: T -> bool, q: T -> bool)
    requires forall x :: q(x) <==> !p(x)
    ensures multiset(Keep(s, p)) + multiset(Keep(s, q)) == multiset(s)
  {
    hide Keep;
    if s == [] {
      KeepNone(p);
      KeepNone(q);
    } else {
      var before, last := s[..|s| - 1], s[|s| - 1];
      Partitioned(before, p, q);
      KeepLast(s, p);
      KeepLast(s, q);
      assert s == before + [last];
      if p(last) {
        assert multiset(Keep(s, p)) == multiset(Keep(before, p)) + multiset{last};
      } else {
        assert multiset(Keep(s, q)) == multiset(Keep(before, q)) + multiset{last};
      }
    }
  }

  lemma KeepNone<T>(p: T -> bool)
    ensures Keep([], p) == []
  {
  }

  lemma KeepLast<T>(s: seq<T>, p: T -> bool)
    requires s != []
    ensures Keep(s, p) == Keep(s[..|s| - 1], p) + (if p(s[|s| - 1]) then [s[|s| - 1]] else [])
  {
  }

  lemma {:induction false} FoundInFront(a: seq<ExecutionResult>, b: seq<ExecutionResult>, id: string)
    requires FindResult(a, id).Some?
    ensures FindResult(a + b, id) == FindResult(a, id)
  {
    assert (a + b)[1..] == a[1..] + b;
    if a[0].executionId != id { FoundInFront(a[1..], b, id); }
  }

  lemma OwnInFront(d: SupervisorInput) returns (e: SupervisorInput)
    requires OrderMatters(d)
    ensures Reordered(d, e) && Verdict(e) == Fail
  {
    hide Keep, Successful, GoodReference, Owned, HasForeign, IsOwn, Verdict, Consistent;
    var owned := (r: ExecutionResult) => Owned(d, r);
    var rest := (r: ExecutionResult) => !Owned(d, r);
    Partitioned(d.results, owned, rest);
    assert multiset(Keep(d.results, owned) + Keep(d.results, rest)) == multiset(d.results);
    e := d.(results := Keep(d.results, owned) + Keep(d.results, rest));
    OrderMattersReordered(d, e);
    forall o | o in d.outputs ensures GoodReference(e, o) { OwnIsFoundFirst(d, o, Keep(d.results, owned), Keep(d.results, rest)); }
    ForeignIsRepeated(e);
    FailIf(e);
  }

  lemma FailIf(d: SupervisorInput)
    requires NoFault(d) && !Consistent(d)
    ensures Verdict(d) == Fail
  {
    VerdictIsExact(d);
    hide Verdict, NoFault, Consistent, Passes;
  }

  lemma OwnIsFoundFirst(d: SupervisorInput, o: WorkerOutput, front: seq<ExecutionResult>, back: seq<ExecutionResult>)
    requires front == Keep(d.results, (r: ExecutionResult) => Owned(d, r))
    requires o in d.outputs && HasOwn(d, o) && DistinctReferences(d.outputs)
    requires AllSuccessful(d.(results := front + back))
    ensures GoodReference(d.(results := front + back), o)
  {
    hide AllSuccessful, DistinctReferences, GoodReference;
    KeepElements(d.results, (r: ExecutionResult) => Owned(d, r));
    hide Keep;
    var r :| r in d.results && IsOwn(d, o, r);
    assert Owned(d, r);
    FoundInFront(front, back, r.executionId);
    OnlyItsOwner(d, o, FindResult(front, r.executionId).value);
    GoodReferenceIsOwn(d.(results := front + back), o);
  }

  // With distinct references, a result that some worker owns is owned by every worker that names its id.
  lemma OnlyItsOwner(d: SupervisorInput, o: WorkerOutput, r: ExecutionResult)
    requires DistinctReferences(d.outputs) && o in d.outputs && Owned(d, r) && o.execution == Some(r.executionId)
    ensures IsOwn(d, o, r)
  {
    var p :| p in d.outputs && IsOwn(d, p, r);
    SameReference(d.outputs, o, p);
  }

  lemma SameReference(outputs: seq<WorkerOutput>, o: WorkerOutput, p: WorkerOutput)
    requires DistinctReferences(outputs) && o in outputs && p in outputs && o.execution == p.execution
    ensures o == p
  {
    var i :| 0 <= i < |outputs| && outputs[i] == o;
    var j :| 0 <= j < |outputs| && outputs[j] == p;
    assert i == j;
  }

  lemma ForeignIsRepeated(d: SupervisorInput)
    requires OrderMatters(d)
    ensures !Consistent(d)
  {
    hide AllSuccessful, DistinctReferences;
    var o :| o in d.outputs && HasForeign(d, o);
    var foreign :| foreign in d.results && o.execution == Some(foreign.executionId) && !IsOwn(d, o, foreign);
    var own :| own in d.results && IsOwn(d, o, own);
    if UniqueResults(d.results) {
      OwnershipIsExact(d.results, own);
      OwnershipIsExact(d.results, foreign);
    }
  }

  lemma ForeignInFront(d: SupervisorInput) returns (e: SupervisorInput)
    requires OrderMatters(d)
    ensures Reordered(d, e) && Verdict(e) == Revise
  {
    hide AllSuccessful, DistinctReferences, GoodReference, IsOwn, Verdict, Consistent, HasOwn;
    var o :| o in d.outputs && HasForeign(d, o);
    var foreign :| foreign in d.results && o.execution == Some(foreign.executionId) && !IsOwn(d, o, foreign);
    var i :| 0 <= i < |d.results| && d.results[i] == foreign;
    e := d.(results := [foreign] + (d.results[..i] + d.results[i + 1..]));
    MovedToFront(d.results, i);
    OrderMattersReordered(d, e);
    ForeignIsFoundFirst(d, o, foreign, d.results[..i] + d.results[i + 1..]);
    ForeignIsRepeated(e);
    ReviseIf(e, o);
  }

  lemma ForeignIsFoundFirst(d: SupervisorInput, o: WorkerOutput, foreign: ExecutionResult, back: seq<ExecutionResult>)
    requires o.execution == Some(foreign.executionId) && !IsOwn(d, o, foreign)
    requires AllSuccessful(d.(results := [foreign] + back))
    ensures !GoodReference(d.(results := [foreign] + back), o)
  {
    hide AllSuccessful, GoodReference;
    assert FindResult([foreign], foreign.executionId) == Some(foreign);
    FoundInFront([foreign], back, foreign.executionId);
    GoodReferenceIsOwn(d.(results := [foreign] + back), o);
  }

  lemma ReviseIf(d: SupervisorInput, o: WorkerOutput)
    requires o in d.outputs && !GoodReference(d, o) && !Consistent(d)
    ensures Verdict(d) == Revise
  {
    VerdictIsExact(d);
    hide Verdict, Consistent, GoodReference, AllSuccessful, DistinctReferences, Owns;
  }

  lemma MovedToFront<T>(s: seq<T>, i: nat)
    requires i < |s|
    ensures multiset([s[i]] + (s[..i] + s[i + 1..])) == multiset(s)
  {
    assert s == s[..i] + ([s[i]] + s[i + 1..]);
  }

  /**
   Some reordering of the evidence changes the verdict exactly when everything succeeded, the references are distinct,
   every worker's own result of this run is there under the id it names, and some worker also names a result that is
   not its own. The verdict then changes between FAIL and REVISE.
   */
  lemma OrderDecidesExactly(d: SupervisorInput)
    ensures (exists e :: Reordered(d, e) && Verdict(e) != Verdict(d)) <==> OrderMatters(d)
    ensures OrderMatters(d) ==>
      (exists e :: Reordered(d, e) && Verdict(e) == Fail) && (exists e :: Reordered(d, e) && Verdict(e) == Revise)
  {
    hide Verdict, OrderMatters, Reordered;
    if OrderMatters(d) {
      var own := OwnInFront(d);
      var foreign := ForeignInFront(d);
      assert Verdict(own) != Verdict(foreign);
    } else {
      forall e | Reordered(d, e) ensures Verdict(e) == Verdict(d) { OrderDoesNotMatter(d, e); }
    }
  }

  lemma OrderDoesNotMatter(d: SupervisorInput, e: SupervisorInput)
    requires Reordered(d, e) && !OrderMatters(d)
    ensures Verdict(e) == Verdict(d)
  {
    hide Verdict, OrderMatters;
    PassIgnoresOrder(d, e);
    if Verdict(d) == Fail && Verdict(e) == Revise {
      FailAgainstRevise(d, e);
      OrderMattersReordered(e, d);
    }
    if Verdict(d) == Revise && Verdict(e) == Fail { FailAgainstRevise(e, d); }
  }

  lemma OwnOutputSucceeds(d: SupervisorInput)
    requires |d.outputs| == 1 && d.outputs[0].status == "ok"
    ensures forall o :: o in d.outputs ==> Successful(o)
  {
    assert Lower("ok") == "ok";
  }

  lemma FirstResultDecides(d: SupervisorInput, r: ExecutionResult, other: ExecutionResult)
    requires d.results == [r, other] && r.executionId == other.executionId
    ensures FindResult(d.results, r.executionId) == Some(r)
    ensures !Consistent(d)
  {
    assert d.results[0].executionId == d.results[1].executionId;
  }

  // One shape of such evidence.
  lemma OrderDecidesBetweenFailAndRevise(d: SupervisorInput, own: ExecutionResult, other: ExecutionResult)
    requires d.outputs == [WorkerOutput("worker", d.runId, "ok", Some(own.executionId))]
    requires own.executionId == other.executionId && own.status == other.status == Success
    requires own.workerId == Some("worker") && other.workerId != Some("worker")
    requires own.runId == other.runId == Some(d.runId)
    ensures Verdict(d.(results := [own, other])) == Fail
    ensures Verdict(d.(results := [other, own])) == Revise
  {
    var first, second := d.(results := [own, other]), d.(results := [other, own]);
    VerdictIsExact(first);
    VerdictIsExact(second);
    hide Verdict, Successful;
    OwnOutputSucceeds(d);
    FirstResultDecides(first, own, other);
    FirstResultDecides(second, other, own);
    var o := d.outputs[0];
    assert GoodReference(first, o) && !GoodReference(second, o);
    hide GoodReference, FindResult, Consistent, Owns;
    assert NoFault(first);
    assert o in second.outputs;
    assert !NoFault(second) && !Passes(second);
  }

  // Reordering valid evidence leaves it valid, so the supervisor answers on every order of it.
  lemma ValidReordered(d: SupervisorInput, e: SupervisorInput)
    requires Reordered(d, e) && ValidInput(d)
    ensures ValidInput(e)
  {
    hide Blank, ValidResult;
    SameItems(d.outputs, e.outputs);
    SameItems(d.results, e.results);
    forall i | 0 <= i < |e.results| ensures ValidResult(e.results[i]) {
      assert e.results[i] in d.results;
    }
    forall i | 0 <= i < |e.outputs| ensures e.outputs[i].runId == e.runId {
      assert e.outputs[i] in d.outputs;
    }
  }

  // On valid evidence the supervisor answers every order, and its answer depends on the order exactly then.
  lemma AnswerDependsOnOrderExactly(d: SupervisorInput)
    requires ValidInput(d)
    ensures forall e :: Reordered(d, e) ==> Evaluate(e).Ok?
    ensures Evaluate(d).Ok?
    ensures (exists e :: Reordered(d, e) && Evaluate(e).Ok? && Evaluate(e).value.status != Evaluate(d).value.status) <==> OrderMatters(d)
  {
    hide Verdict, OrderMatters, Reordered, ValidInput, Evaluate;
    EvaluatedIsTheVerdict(d);
    OrderDecidesExactly(d);
    forall e | Reordered(d, e) ensures Evaluate(e).Ok? && Evaluate(e).value.status == Verdict(e) {
      ValidReordered(d, e);
      EvaluatedIsTheVerdict(e);
    }
  }

  const OWN: ExecutionResult := ExecutionResult("e", Success, "", "b", Some("r"), Some("worker"))
  const FOREIGN: ExecutionResult := ExecutionResult("e", Success, "", "b", Some("r"), Some("v"))

  function Listed(results: seq<ExecutionResult>): SupervisorInput {
    SupervisorInput("r", "o", ["c"], [WorkerOutput("worker", "r", "ok", Some("e"))], results)
  }

  lemma ListedIsValid(results: seq<ExecutionResult>)
    requires results == [OWN, FOREIGN] || results == [FOREIGN, OWN]
    ensures ValidInput(Listed(results))
  {
    assert !Blank("r") && !Blank("o") && !Blank("c") && !Blank("e") && !Blank("b") && !Blank("worker") && !Blank("v") by {
      assert "r"[0] == 'r' && "o"[0] == 'o' && "c"[0] == 'c' && "e"[0] == 'e' && "b"[0] == 'b' && "worker"[0] == 'w' && "v"[0] == 'v';
    }
    hide Blank;
  }

  lemma EvaluatedIsTheVerdict(d: SupervisorInput)
    requires ValidInput(d)
    ensures Evaluate(d).Ok? && Evaluate(d).value.status == Verdict(d)
  {
    hide Verdict, ValidInput, Blocking, Evidence;
  }

  // Valid evidence on which the supervisor answers FAIL in one order and REVISE in the other.
  lemma TheSupervisorAnswersByOrder()
    ensures Reordered(Listed([OWN, FOREIGN]), Listed([FOREIGN, OWN]))
    ensures Evaluate(Listed([OWN, FOREIGN])).Ok? && Evaluate(Listed([OWN, FOREIGN])).value.status == Fail
    ensures Evaluate(Listed([FOREIGN, OWN])).Ok? && Evaluate(Listed([FOREIGN, OWN])).value.status == Revise
  {
    hide Verdict, ValidInput, Evaluate;
    ListedIsValid([OWN, FOREIGN]);
    ListedIsValid([FOREIGN, OWN]);
    EvaluatedIsTheVerdict(Listed([OWN, FOREIGN]));
    EvaluatedIsTheVerdict(Listed([FOREIGN, OWN]));
    assert multiset([OWN, FOREIGN]) == multiset([FOREIGN, OWN]);
    OrderDecidesBetweenFailAndRevise(Listed([]), OWN, FOREIGN);
  }
}
