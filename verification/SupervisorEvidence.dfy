/** What the supervisor reports: every list of its evidence and every blocking issue, told from the outputs and results alone. */
module SupervisorEvidence {
  import opened Wrappers
  import opened Contracts
  import opened Ordering
  import opened Text
  import opened SessionStore
  import opened Supervisor

  // ----- What is wrong with one worker's output -----

  ghost predicate HasResult(d: SupervisorInput, e: string) { exists r :: r in d.results && r.executionId == e }

  // The first result with this id.
  ghost predicate IsFirst(d: SupervisorInput, e: string, k: nat) {
    k < |d.results| && d.results[k].executionId == e && forall m :: 0 <= m < k ==> d.results[m].executionId != e
  }

  // A success that names an execution of which there is a result.
  ghost predicate Founded(d: SupervisorInput, i: nat) {
    i < |d.outputs| && Successful(d.outputs[i]) && d.outputs[i].execution.Some? && HasResult(d, d.outputs[i].execution.value)
  }

  // A success that names none, or one that no result has.
  ghost predicate Unfounded(d: SupervisorInput, i: nat) {
    && i < |d.outputs| && Successful(d.outputs[i])
    && (d.outputs[i].execution.None? || !HasResult(d, d.outputs[i].execution.value))
  }

  // An earlier success names the same execution.
  ghost predicate Repeats(d: SupervisorInput, i: nat) {
    Founded(d, i) && exists j :: 0 <= j < i && Successful(d.outputs[j]) && d.outputs[j].execution == d.outputs[i].execution
  }

  // The first result with the id it names is of another run or not a success.
  ghost predicate IsBad(d: SupervisorInput, i: nat) {
    Founded(d, i) && exists k: nat :: IsFirst(d, d.outputs[i].execution.value, k) && (d.results[k].runId != Some(d.runId) || d.results[k].status != Success)
  }

  ghost predicate Mismatches(d: SupervisorInput, i: nat) { Repeats(d, i) || IsBad(d, i) }

  // The first result with the id it names is good, but another worker's.
  ghost predicate IsForeign(d: SupervisorInput, i: nat) {
    && Founded(d, i) && !Mismatches(d, i)
    && exists k: nat :: IsFirst(d, d.outputs[i].execution.value, k) && d.results[k].workerId != Some(d.outputs[i].workerId)
  }

  lemma {:induction false} FirstIsFound(results: seq<ExecutionResult>, e: string, k: nat)
    requires k < |results| && results[k].executionId == e && forall m :: 0 <= m < k ==> results[m].executionId != e
    ensures FindResult(results, e) == Some(results[k])
  {
    if k > 0 { FirstIsFound(results[1..], e, k - 1); }
  }

  lemma {:induction false} FoundIsFirst(results: seq<ExecutionResult>, e: string) returns (k: nat)
    requires FindResult(results, e).Some?
    ensures k < |results| && results[k].executionId == e && forall m :: 0 <= m < k ==> results[m].executionId != e
  {
    if results[0].executionId == e {
      k := 0;
    } else {
      k := FoundIsFirst(results[1..], e);
      k := k + 1;
    }
  }

  lemma FindingIsFirst(d: SupervisorInput, e: string)
    ensures FindResult(d.results, e).Some? <==> HasResult(d, e)
    ensures forall k: nat :: IsFirst(d, e, k) ==> FindResult(d.results, e) == Some(d.results[k])
    ensures HasResult(d, e) ==> exists k: nat :: IsFirst(d, e, k)
  {
    forall k: nat | IsFirst(d, e, k) ensures FindResult(d.results, e) == Some(d.results[k]) { FirstIsFound(d.results, e, k); }
    if FindResult(d.results, e).Some? { var k := FoundIsFirst(d.results, e); }
  }

  // ----- The scan, position by position -----

  // The keys at the first n positions that satisfy p, in order.
  ghost function Those(keys: seq<string>, n: nat, p: nat -> bool): seq<string>
    requires n <= |keys|
  {
    if n == 0 then [] else Those(keys, n - 1, p) + (if p(n - 1) then [keys[n - 1]] else [])
  }

  ghost function Positions(keys: seq<string>, n: nat, p: nat -> bool, x: string): set<nat>
    requires n <= |keys|
  {
    set i: nat | i < n && p(i) && keys[i] == x
  }

  lemma PositionsGrow(keys: seq<string>, n: nat, p: nat -> bool, x: string)
    requires n < |keys|
    ensures |Positions(keys, n + 1, p, x)| == |Positions(keys, n, p, x)| + (if p(n) && keys[n] == x then 1 else 0)
  {
    if p(n) && keys[n] == x {
      assert Positions(keys, n + 1, p, x) == Positions(keys, n, p, x) + {n};
    } else {
      assert Positions(keys, n + 1, p, x) == Positions(keys, n, p, x);
    }
  }

  lemma {:induction false} ThoseCount(keys: seq<string>, n: nat, p: nat -> bool, x: string)
    requires n <= |keys|
    ensures multiset(Those(keys, n, p))[x] == |Positions(keys, n, p, x)|
  {
    hide Positions;
    if n > 0 {
      ThoseCount(keys, n - 1, p, x);
      PositionsGrow(keys, n - 1, p, x);
      OneMoreThose(keys, n - 1, p, x);
    } else {
      NoPositions(keys, p, x);
    }
  }

  lemma NoPositions(keys: seq<string>, p: nat -> bool, x: string)
    ensures Positions(keys, 0, p, x) == {}
  {
  }

  lemma OneMoreThose(keys: seq<string>, n: nat, p: nat -> bool, x: string)
    requires n < |keys|
    ensures multiset(Those(keys, n + 1, p))[x] == multiset(Those(keys, n, p))[x] + if p(n) && keys[n] == x then 1 else 0
  {
    var before := Those(keys, n, p);
    hide Those;
    assert Those(keys, n + 1, p) == before + (if p(n) then [keys[n]] else []) by { ThoseGrow(keys, n, p); }
  }

  lemma ThoseGrow(keys: seq<string>, n: nat, p: nat -> bool)
    requires n < |keys|
    ensures Those(keys, n + 1, p) == Those(keys, n, p) + (if p(n) then [keys[n]] else [])
  {
  }

  // The sorted list holds each key as often as positions with it satisfy p.
  ghost predicate Lists(ids: seq<string>, keys: seq<string>, p: nat -> bool) {
    SortedBy(StringLe, ids) && forall x :: multiset(ids)[x] == |Positions(keys, |keys|, p, x)|
  }

  lemma SortedThose(keys: seq<string>, p: nat -> bool)
    ensures Lists(SortStrings(Those(keys, |keys|, p)), keys, p)
  {
    var those := Those(keys, |keys|, p);
    StringLeIsTotalOrder();
    SortSorted(StringLe, those);
    SortElements(StringLe, those);
    forall x ensures multiset(SortStrings(those))[x] == |Positions(keys, |keys|, p, x)| { ThoseCount(keys, |keys|, p, x); }
  }

  ghost function SharedThose(d: SupervisorInput, n: nat): seq<QaIssue>
    requires n <= |d.outputs|
  {
    if n == 0 then []
    else SharedThose(d, n - 1) + (if Repeats(d, n - 1) then [SharedEvidence(d.outputs[n - 1].execution.value)] else [])
  }

  ghost predicate ScanIs(d: SupervisorInput, n: nat, s: Scan)
    requires n <= |d.outputs|
  {
    var keys := WorkerIds(d.outputs);
    && s.missing == Those(keys, n, (i: nat) => Unfounded(d, i))
    && s.mismatched == Those(keys, n, (i: nat) => Mismatches(d, i))
    && s.unattributed == Those(keys, n, (i: nat) => IsForeign(d, i))
    && s.shared == SharedThose(d, n)
    && (forall e :: e in s.referenced <==> HasResult(d, e) && exists j :: 0 <= j < n && Successful(d.outputs[j]) && d.outputs[j].execution == Some(e))
  }

  lemma {:induction false} ScanIsExact(d: SupervisorInput, n: nat)
    requires n <= |d.outputs|
    ensures ScanIs(d, n, ScanAll(d, d.outputs[..n]))
  {
    if n > 0 {
      hide ScanIs, ScanOne;
      ScanIsExact(d, n - 1);
      assert d.outputs[..n][..n - 1] == d.outputs[..n - 1];
      ScanOneIsExact(d, n - 1, ScanAll(d, d.outputs[..n - 1]));
    }
  }

  // What the next output adds to the scan.
  lemma ScanOneIs(d: SupervisorInput, n: nat, s: Scan)
    requires n < |d.outputs|
    requires forall e :: e in s.referenced <==> HasResult(d, e) && exists j :: 0 <= j < n && Successful(d.outputs[j]) && d.outputs[j].execution == Some(e)
    ensures var s' := ScanOne(d, s, d.outputs[n]);
      var id := [d.outputs[n].workerId];
      && s'.missing == s.missing + (if Unfounded(d, n) then id else [])
      && s'.mismatched == s.mismatched + (if Mismatches(d, n) then id else [])
      && s'.unattributed == s.unattributed + (if IsForeign(d, n) then id else [])
      && s'.shared == s.shared + (if Repeats(d, n) then [SharedEvidence(d.outputs[n].execution.value)] else [])
      && s'.referenced == s.referenced + (if Founded(d, n) then {d.outputs[n].execution.value} else {})
  {
    hide Successful, FindResult, HasResult, IsFirst;
    var o := d.outputs[n];
    if Successful(o) && o.execution.Some? { FindingIsFirst(d, o.execution.value); }
  }

  lemma ReferencedGrows(d: SupervisorInput, n: nat, before: set<string>)
    requires n < |d.outputs|
    requires forall e :: e in before <==> HasResult(d, e) && exists j :: 0 <= j < n && Successful(d.outputs[j]) && d.outputs[j].execution == Some(e)
    ensures forall e :: e in before + (if Founded(d, n) then {d.outputs[n].execution.value} else {}) <==>
      HasResult(d, e) && exists j :: 0 <= j < n + 1 && Successful(d.outputs[j]) && d.outputs[j].execution == Some(e)
  {
    hide Successful, HasResult;
  }

  lemma ScanOneIsExact(d: SupervisorInput, n: nat, s: Scan)
    requires n < |d.outputs| && ScanIs(d, n, s)
    ensures ScanIs(d, n + 1, ScanOne(d, s, d.outputs[n]))
  {
    hide ScanOne, Successful, HasResult, Unfounded, Mismatches, IsForeign, Repeats, Founded;
    ScanOneIs(d, n, s);
    ReferencedGrows(d, n, s.referenced);
  }

  // ----- The lists over all outputs and all results -----

  lemma {:induction false} KeptWorkers(outputs: seq<WorkerOutput>, keep: WorkerOutput -> bool, p: nat -> bool, n: nat)
    requires n <= |outputs| && forall i: nat :: i < |outputs| ==> p(i) == keep(outputs[i])
    ensures WorkerIds(Keep(outputs[..n], keep)) == Those(WorkerIds(outputs), n, p)
  {
    if n > 0 {
      KeptWorkers(outputs, keep, p, n - 1);
      assert outputs[..n][..n - 1] == outputs[..n - 1];
      var before := Keep(outputs[..n - 1], keep);
      assert WorkerIds(before + [outputs[n - 1]]) == WorkerIds(before) + [outputs[n - 1].workerId];
    }
  }

  lemma {:induction false} KeptResults(results: seq<ExecutionResult>, keep: ExecutionResult -> bool, p: nat -> bool, n: nat)
    requires n <= |results| && forall i: nat :: i < |results| ==> p(i) == keep(results[i])
    ensures ResultIds(Keep(results[..n], keep)) == Those(ResultIds(results), n, p)
  {
    if n > 0 {
      KeptResults(results, keep, p, n - 1);
      assert results[..n][..n - 1] == results[..n - 1];
      var before := Keep(results[..n - 1], keep);
      assert ResultIds(before + [results[n - 1]]) == ResultIds(before) + [results[n - 1].executionId];
    }
  }

  ghost function PositionsOf(n: nat, p: nat -> bool): set<nat> { set i: nat | i < n && p(i) }

  lemma {:induction false} KeptCount(results: seq<ExecutionResult>, keep: ExecutionResult -> bool, p: nat -> bool, n: nat)
    requires n <= |results| && forall i: nat :: i < |results| ==> p(i) == keep(results[i])
    ensures |Keep(results[..n], keep)| == |PositionsOf(n, p)|
  {
    if n > 0 {
      KeptCount(results, keep, p, n - 1);
      assert results[..n][..n - 1] == results[..n - 1];
      assert PositionsOf(n, p) == PositionsOf(n - 1, p) + (if p(n - 1) then {n - 1} else {});
    } else {
      assert PositionsOf(n, p) == {};
    }
  }

  // Whether the output at a position is not a success, and whether the result there is of another run or failed.
  ghost predicate IsUnsuccessful(d: SupervisorInput, i: nat) { i < |d.outputs| && !Successful(d.outputs[i]) }

  ghost predicate IsOfAnotherRun(d: SupervisorInput, i: nat) { i < |d.results| && d.results[i].runId != Some(d.runId) }

  ghost predicate IsFailure(d: SupervisorInput, i: nat) { i < |d.results| && d.results[i].status != Success }

  lemma UnsuccessfulAre(d: SupervisorInput)
    ensures Lists(SortStrings(Unsuccessful(d)), WorkerIds(d.outputs), (i: nat) => IsUnsuccessful(d, i))
  {
    var p := (i: nat) => IsUnsuccessful(d, i);
    assert d.outputs[..|d.outputs|] == d.outputs;
    KeptWorkers(d.outputs, NotSuccessful(), p, |d.outputs|);
    SortedThose(WorkerIds(d.outputs), p);
    hide Lists, SortStrings;
  }

  lemma CrossRunAre(d: SupervisorInput)
    ensures Lists(SortStrings(Supervisor.CrossRun(d)), ResultIds(d.results), (i: nat) => IsOfAnotherRun(d, i))
  {
    var p := (i: nat) => IsOfAnotherRun(d, i);
    assert d.results[..|d.results|] == d.results;
    KeptResults(d.results, OtherRun(d.runId), p, |d.results|);
    SortedThose(ResultIds(d.results), p);
    hide Lists, SortStrings;
  }

  lemma FailuresAre(d: SupervisorInput)
    ensures |Failures(d)| == |PositionsOf(|d.results|, (i: nat) => IsFailure(d, i))|
  {
    assert d.results[..|d.results|] == d.results;
    KeptCount(d.results, Failing(), (i: nat) => IsFailure(d, i), |d.results|);
  }

  ghost predicate Twice(s: seq<string>, x: string) { exists i, j :: 0 <= i < j < |s| && s[i] == x && s[j] == x }

  lemma {:induction false} CountIsPositions(s: seq<string>, x: string)
    ensures Count(s, x) > 1 <==> Twice(s, x)
  {
    if s != [] {
      var before := s[..|s| - 1];
      CountIsPositions(before, x);
      CountPositive(before, x);
      if s[|s| - 1] == x && x in before {
        var i :| 0 <= i < |before| && before[i] == x;
        assert s[i] == x && s[|s| - 1] == x;
      }
      if i, j :| 0 <= i < j < |s| && s[i] == x && s[j] == x { assert before[i] == x; }
    }
  }

  lemma RepeatedAre(s: seq<string>)
    ensures SortedBy(StringLe, Repeated(s)) && NoDuplicates(Repeated(s))
    ensures forall x :: x in Repeated(s) <==> Twice(s, x)
  {
    var sorted := SortStrings(Distinct(s));
    DistinctElements(s);
    StringLeIsTotalOrder();
    SortSorted(StringLe, Distinct(s));
    SortKeepsNoDuplicates(StringLe, Distinct(s));
    KeepElements(sorted, MoreThanOnce(s));
    KeptStaysSorted(sorted, MoreThanOnce(s));
    forall x ensures x in Repeated(s) <==> Twice(s, x) {
      CountIsPositions(s, x);
      CountPositive(s, x);
    }
  }

  lemma {:induction false} KeptStaysSorted(s: seq<string>, p: string -> bool)
    requires SortedBy(StringLe, s)
    ensures SortedBy(StringLe, Keep(s, p))
  {
    if s != [] {
      KeptStaysSorted(s[..|s| - 1], p);
      KeepElements(s[..|s| - 1], p);
      hide StringLe;
      var kept := Keep(s[..|s| - 1], p);
      forall k | 0 <= k < |kept| ensures StringLe(kept[k], s[|s| - 1]) {
        var before := s[..|s| - 1];
        assert kept[k] in before;
        var i :| 0 <= i < |before| && before[i] == kept[k];
        assert s[i] == kept[k];
      }
    }
  }

  // ----- The report -----

  ghost predicate IsMalformed(r: ExecutionResult) {
    Blank(r.executionId) || Blank(r.backend) || (exists x :: r.runId == Some(x) && Blank(x)) || exists x :: r.workerId == Some(x) && Blank(x)
  }

  /**
   Evidence is judged unless an identifier, the objective or a criterion is blank or an output is of another run; and what
   the answer counts and lists is told position by position. Each list is sorted and holds an id as often as it is at fault.
   */
  lemma EvidenceIsExact(d: SupervisorInput)
    ensures Evaluate(d).Err? <==>
      || Blank(d.runId) || Blank(d.objective) || (exists c :: c in d.criteria && Blank(c)) || (exists o :: o in d.outputs && o.runId != d.runId)
      || exists r :: r in d.results && IsMalformed(r)
    ensures Evaluate(d).Ok? ==>
      var q := Evaluate(d).value;
      var e := q.evidence;
      && q.runId == d.runId && e.workers == |d.outputs| && e.executions == |d.results| && e.criteria == |d.criteria|
      && q.findings == (if d.criteria == [] then 1 else 0)
      && Lists(e.failedWorkers, WorkerIds(d.outputs), (i: nat) => IsUnsuccessful(d, i))
      && e.failedExecutions == |PositionsOf(|d.results|, (i: nat) => IsFailure(d, i))|
      && Lists(e.crossRun, ResultIds(d.results), (i: nat) => IsOfAnotherRun(d, i))
      && SortedBy(StringLe, e.duplicates) && NoDuplicates(e.duplicates)
      && (forall x :: x in e.duplicates <==> exists i, j :: 0 <= i < j < |d.results| && d.results[i].executionId == x && d.results[j].executionId == x)
      && Lists(e.missing, WorkerIds(d.outputs), (i: nat) => Unfounded(d, i))
      && Lists(e.mismatched, WorkerIds(d.outputs), (i: nat) => Mismatches(d, i))
      && Lists(e.unattributed, WorkerIds(d.outputs), (i: nat) => IsForeign(d, i))
  {
    hide Lists, PositionsOf, SortStrings, Verdict, Blocking, Blank, NoDuplicates, Unsuccessful, Failures, Supervisor.CrossRun, Repeated, ScanAll, ScanIs;
    InvalidExactly(d);
    UnsuccessfulAre(d);
    CrossRunAre(d);
    FailuresAre(d);
    DuplicatesAre(d);
    ScannedAre(d);
  }

  lemma DuplicatesAre(d: SupervisorInput)
    ensures var ids := Repeated(ResultIds(d.results));
      && SortedBy(StringLe, ids) && NoDuplicates(ids)
      && (forall x :: x in ids <==> exists i, j :: 0 <= i < j < |d.results| && d.results[i].executionId == x && d.results[j].executionId == x)
  {
    RepeatedAre(ResultIds(d.results));
    hide Repeated;
    var ids := ResultIds(d.results);
    forall x ensures Twice(ids, x) <==>
      exists i, j :: 0 <= i < j < |d.results| && d.results[i].executionId == x && d.results[j].executionId == x
    {
      if i, j :| 0 <= i < j < |d.results| && d.results[i].executionId == x && d.results[j].executionId == x { assert ids[i] == x && ids[j] == x; }
    }
  }

  lemma ScannedAre(d: SupervisorInput)
    ensures var s := ScanAll(d, d.outputs);
      && Lists(SortStrings(s.missing), WorkerIds(d.outputs), (i: nat) => Unfounded(d, i))
      && Lists(SortStrings(s.mismatched), WorkerIds(d.outputs), (i: nat) => Mismatches(d, i))
      && Lists(SortStrings(s.unattributed), WorkerIds(d.outputs), (i: nat) => IsForeign(d, i))
  {
    hide ScanAll, Lists, SortStrings, Those, Unfounded, Mismatches, IsForeign;
    ScanIsExact(d, |d.outputs|);
    assert d.outputs[..|d.outputs|] == d.outputs;
    SortedThose(WorkerIds(d.outputs), (i: nat) => Unfounded(d, i));
    SortedThose(WorkerIds(d.outputs), (i: nat) => Mismatches(d, i));
    SortedThose(WorkerIds(d.outputs), (i: nat) => IsForeign(d, i));
  }

  lemma InvalidExactly(d: SupervisorInput)
    ensures ValidInput(d) <==>
      !(|| Blank(d.runId) || Blank(d.objective) || (exists c :: c in d.criteria && Blank(c)) || (exists o :: o in d.outputs && o.runId != d.runId)
        || exists r :: r in d.results && IsMalformed(r))
  {
    hide Blank, ValidResult, IsMalformed;
    forall r ensures IsMalformed(r) <==> !ValidResult(r) { MalformedIsInvalid(r); }
    if ValidInput(d) {
      forall r | r in d.results ensures ValidResult(r) { var i :| 0 <= i < |d.results| && d.results[i] == r; }
    }
  }

  lemma MalformedIsInvalid(r: ExecutionResult)
    ensures IsMalformed(r) <==> !ValidResult(r)
  {
    hide Blank;
    if r.runId.Some? { assert r.runId == Some(r.runId.value); }
    if r.workerId.Some? { assert r.workerId == Some(r.workerId.value); }
  }

  // ----- The blocking issues -----

  lemma FlagAdds(issues: seq<QaIssue>, condition: bool, issue: QaIssue)
    ensures forall x :: x in Flag(issues, condition, issue) <==> x in issues || (condition && x == issue)
  {
  }

  lemma {:induction false} SharedAre(d: SupervisorInput, n: nat)
    requires n <= |d.outputs|
    ensures forall x :: x in SharedThose(d, n) <==> exists i :: 0 <= i < n && Repeats(d, i) && x == SharedEvidence(d.outputs[i].execution.value)
  {
    hide Repeats;
    if n > 0 { SharedAre(d, n - 1); }
  }

  lemma PreliminaryAre(d: SupervisorInput)
    ensures forall x :: x in Preliminary(d) <==>
      || (Supervisor.CrossRun(d) != [] && x == CrossRunEvidence(SortStrings(Supervisor.CrossRun(d))))
      || (Repeated(ResultIds(d.results)) != [] && x == DuplicateExecutions(Repeated(ResultIds(d.results))))
      || (Repeated(WorkerIds(d.outputs)) != [] && x == DuplicateWorkers)
      || (d.outputs == [] && x == NoWorkerOutputs)
      || (Unsuccessful(d) != [] && x == WorkersNotSuccessful(SortStrings(Unsuccessful(d))))
      || (Failures(d) != [] && x == ExecutionsNotSuccessful(|Failures(d)|))
  {
    hide Supervisor.CrossRun, Repeated, Unsuccessful, Failures, SortStrings, ResultIds, WorkerIds;
  }

  lemma SortedIsSome(s: seq<string>)
    ensures SortStrings(s) == [] <==> s == []
  {
    SortElements(StringLe, s);
  }

  lemma BlockingAre(d: SupervisorInput)
    ensures var s := ScanAll(d, d.outputs);
      forall x :: x in Blocking(d) <==>
        || x in Preliminary(d) || x in s.shared
        || (s.missing != [] && x == MissingEvidence(SortStrings(s.missing)))
        || (s.mismatched != [] && x == MismatchedEvidence(SortStrings(s.mismatched)))
        || (s.unattributed != [] && x == UnattributedEvidence(SortStrings(s.unattributed)))
  {
    hide SortStrings, Preliminary, ScanAll, Flag;
    var s := ScanAll(d, d.outputs);
    var missing := Flag(Preliminary(d) + s.shared, s.missing != [], MissingEvidence(SortStrings(s.missing)));
    var mismatched := Flag(missing, s.mismatched != [], MismatchedEvidence(SortStrings(s.mismatched)));
    FlagAdds(Preliminary(d) + s.shared, s.missing != [], MissingEvidence(SortStrings(s.missing)));
    FlagAdds(missing, s.mismatched != [], MismatchedEvidence(SortStrings(s.mismatched)));
    FlagAdds(mismatched, s.unattributed != [], UnattributedEvidence(SortStrings(s.unattributed)));
  }

  lemma PreliminaryIsComplete(d: SupervisorInput)
    requires Evaluate(d).Ok?
    ensures var q := Evaluate(d).value;
      var e := q.evidence;
      && (forall ids :: CrossRunEvidence(ids) in q.blocking <==> ids == e.crossRun && ids != [])
      && (forall ids :: DuplicateExecutions(ids) in q.blocking <==> ids == e.duplicates && ids != [])
      && (DuplicateWorkers in q.blocking <==> exists i, j :: 0 <= i < j < |d.outputs| && d.outputs[i].workerId == d.outputs[j].workerId)
      && (NoWorkerOutputs in q.blocking <==> d.outputs == [])
      && (forall ids :: WorkersNotSuccessful(ids) in q.blocking <==> ids == e.failedWorkers && ids != [])
      && (forall n :: ExecutionsNotSuccessful(n) in q.blocking <==> n == e.failedExecutions && n > 0)
  {
    hide Supervisor.CrossRun, Repeated, Unsuccessful, Failures, SortStrings, ResultIds, WorkerIds, Preliminary, ScanAll, Verdict, ValidInput, Repeats, Blocking;
    BlockingAre(d);
    PreliminaryAre(d);
    SharedKind(d);
    SortedIsSome(Supervisor.CrossRun(d));
    SortedIsSome(Unsuccessful(d));
    WorkersRepeat(d);
  }

  lemma ScannedIsComplete(d: SupervisorInput)
    requires Evaluate(d).Ok?
    ensures var q := Evaluate(d).value;
      var e := q.evidence;
      && (forall x :: SharedEvidence(x) in q.blocking <==> exists i :: 0 <= i < |d.outputs| && Repeats(d, i) && d.outputs[i].execution == Some(x))
      && (forall ids :: MissingEvidence(ids) in q.blocking <==> ids == e.missing && ids != [])
      && (forall ids :: MismatchedEvidence(ids) in q.blocking <==> ids == e.mismatched && ids != [])
      && (forall ids :: UnattributedEvidence(ids) in q.blocking <==> ids == e.unattributed && ids != [])
  {
    hide Supervisor.CrossRun, Repeated, Unsuccessful, Failures, SortStrings, ResultIds, WorkerIds, Preliminary, ScanAll, Verdict, ValidInput, Repeats, Blocking;
    BlockingAre(d);
    PreliminaryKind(d);
    SharedKind(d);
    SharedIssues(d);
    var s := ScanAll(d, d.outputs);
    SortedIsSome(s.missing);
    SortedIsSome(s.mismatched);
    SortedIsSome(s.unattributed);
  }

  lemma SharedKind(d: SupervisorInput)
    ensures forall x :: x in ScanAll(d, d.outputs).shared ==> x.SharedEvidence?
  {
    hide ScanAll, Repeats;
    SharedIssues(d);
  }

  lemma PreliminaryKind(d: SupervisorInput)
    ensures forall x :: x in Preliminary(d) ==> !x.SharedEvidence? && !x.MissingEvidence? && !x.MismatchedEvidence? && !x.UnattributedEvidence?
  {
    hide Preliminary, Supervisor.CrossRun, Repeated, Unsuccessful, Failures, SortStrings, ResultIds, WorkerIds;
    PreliminaryAre(d);
  }

  /** Each blocking issue is there exactly when its condition holds, with the ids that the evidence lists. */
  lemma BlockingIsComplete(d: SupervisorInput)
    requires Evaluate(d).Ok?
    ensures var q := Evaluate(d).value;
      var e := q.evidence;
      && (forall ids :: CrossRunEvidence(ids) in q.blocking <==> ids == e.crossRun && ids != [])
      && (forall ids :: DuplicateExecutions(ids) in q.blocking <==> ids == e.duplicates && ids != [])
      && (DuplicateWorkers in q.blocking <==> exists i, j :: 0 <= i < j < |d.outputs| && d.outputs[i].workerId == d.outputs[j].workerId)
      && (NoWorkerOutputs in q.blocking <==> d.outputs == [])
      && (forall ids :: WorkersNotSuccessful(ids) in q.blocking <==> ids == e.failedWorkers && ids != [])
      && (forall n :: ExecutionsNotSuccessful(n) in q.blocking <==> n == e.failedExecutions && n > 0)
      && (forall x :: SharedEvidence(x) in q.blocking <==> exists i :: 0 <= i < |d.outputs| && Repeats(d, i) && d.outputs[i].execution == Some(x))
      && (forall ids :: MissingEvidence(ids) in q.blocking <==> ids == e.missing && ids != [])
      && (forall ids :: MismatchedEvidence(ids) in q.blocking <==> ids == e.mismatched && ids != [])
      && (forall ids :: UnattributedEvidence(ids) in q.blocking <==> ids == e.unattributed && ids != [])
  {
    hide Evaluate, Repeats;
    PreliminaryIsComplete(d);
    ScannedIsComplete(d);
  }

  lemma SharedIssues(d: SupervisorInput)
    ensures forall x :: x in ScanAll(d, d.outputs).shared <==> exists i :: 0 <= i < |d.outputs| && Repeats(d, i) && x == SharedEvidence(d.outputs[i].execution.value)
    ensures forall i :: 0 <= i < |d.outputs| && Repeats(d, i) ==> d.outputs[i].execution.Some?
  {
    hide ScanAll, Those, Unfounded, Mismatches, IsForeign, HasResult, Successful;
    ScanIsExact(d, |d.outputs|);
    assert d.outputs[..|d.outputs|] == d.outputs;
    SharedAre(d, |d.outputs|);
  }

  lemma WorkersRepeat(d: SupervisorInput)
    ensures Repeated(WorkerIds(d.outputs)) != [] <==> exists i, j :: 0 <= i < j < |d.outputs| && d.outputs[i].workerId == d.outputs[j].workerId
  {
    NothingRepeated(WorkerIds(d.outputs));
    hide Repeated;
    var ids := WorkerIds(d.outputs);
    if i, j :| 0 <= i < j < |d.outputs| && d.outputs[i].workerId == d.outputs[j].workerId { assert ids[i] == ids[j]; }
  }

  // The order in which issues are reported.
  function Rank(x: QaIssue): nat {
    match x
    case CrossRunEvidence(_) => 0
    case DuplicateExecutions(_) => 1
    case DuplicateWorkers => 2
    case NoWorkerOutputs => 3
    case WorkersNotSuccessful(_) => 4
    case ExecutionsNotSuccessful(_) => 5
    case SharedEvidence(_) => 6
    case MissingEvidence(_) => 7
    case MismatchedEvidence(_) => 8
    case UnattributedEvidence(_) => 9
  }

  ghost predicate InOrder(issues: seq<QaIssue>) {
    forall i, j :: 0 <= i < j < |issues| ==> Rank(issues[i]) < Rank(issues[j]) || (issues[i].SharedEvidence? && issues[j].SharedEvidence?)
  }

  lemma FlagKeepsOrder(issues: seq<QaIssue>, condition: bool, issue: QaIssue)
    requires InOrder(issues) && forall x :: x in issues ==> Rank(x) < Rank(issue)
    ensures InOrder(Flag(issues, condition, issue)) && forall x :: x in Flag(issues, condition, issue) ==> Rank(x) <= Rank(issue)
  {
  }

  lemma SharedInOrder(issues: seq<QaIssue>, shared: seq<QaIssue>)
    requires InOrder(issues) && (forall x :: x in issues ==> Rank(x) < 6) && forall x :: x in shared ==> x.SharedEvidence?
    ensures InOrder(issues + shared) && forall x :: x in issues + shared ==> Rank(x) <= 6
  {
    var all := issues + shared;
    forall i, j | 0 <= i < j < |all| ensures Rank(all[i]) < Rank(all[j]) || (all[i].SharedEvidence? && all[j].SharedEvidence?) {
      if i >= |issues| { assert all[i] in shared && all[j] in shared; }
      else if j >= |issues| { assert all[i] in issues && all[j] in shared; }
    }
  }

  lemma PreliminaryInOrder(d: SupervisorInput)
    ensures InOrder(Preliminary(d)) && forall x :: x in Preliminary(d) ==> Rank(x) < 6
  {
    hide Supervisor.CrossRun, Repeated, Unsuccessful, Failures, SortStrings, ResultIds, WorkerIds, Flag, InOrder;
    NothingInOrder();
    FlagKeepsOrder([], Supervisor.CrossRun(d) != [], CrossRunEvidence(SortStrings(Supervisor.CrossRun(d))));
    var crossRun := Flag([], Supervisor.CrossRun(d) != [], CrossRunEvidence(SortStrings(Supervisor.CrossRun(d))));
    var duplicates := Repeated(ResultIds(d.results));
    FlagKeepsOrder(crossRun, duplicates != [], DuplicateExecutions(duplicates));
    var repeated := Flag(crossRun, duplicates != [], DuplicateExecutions(duplicates));
    FlagKeepsOrder(repeated, Repeated(WorkerIds(d.outputs)) != [], DuplicateWorkers);
    var workers := Flag(repeated, Repeated(WorkerIds(d.outputs)) != [], DuplicateWorkers);
    FlagKeepsOrder(workers, d.outputs == [], NoWorkerOutputs);
    var none := Flag(workers, d.outputs == [], NoWorkerOutputs);
    FlagKeepsOrder(none, Unsuccessful(d) != [], WorkersNotSuccessful(SortStrings(Unsuccessful(d))));
    var failed := Flag(none, Unsuccessful(d) != [], WorkersNotSuccessful(SortStrings(Unsuccessful(d))));
    FlagKeepsOrder(failed, Failures(d) != [], ExecutionsNotSuccessful(|Failures(d)|));
  }

  lemma NothingInOrder()
    ensures InOrder([])
  {
  }

  /** The issues come in a fixed order, one of each kind but for the executions that several workers share. */
  lemma BlockingIsInOrder(d: SupervisorInput)
    ensures InOrder(Blocking(d))
  {
    hide Preliminary, ScanAll, SortStrings, Flag, InOrder;
    var s := ScanAll(d, d.outputs);
    PreliminaryInOrder(d);
    SharedIssues(d);
    SharedInOrder(Preliminary(d), s.shared);
    var missing := Flag(Preliminary(d) + s.shared, s.missing != [], MissingEvidence(SortStrings(s.missing)));
    var mismatched := Flag(missing, s.mismatched != [], MismatchedEvidence(SortStrings(s.mismatched)));
    FlagKeepsOrder(Preliminary(d) + s.shared, s.missing != [], MissingEvidence(SortStrings(s.missing)));
    FlagKeepsOrder(missing, s.mismatched != [], MismatchedEvidence(SortStrings(s.mismatched)));
    FlagKeepsOrder(mismatched, s.unattributed != [], UnattributedEvidence(SortStrings(s.unattributed)));
  }

  // ----- What counts as success -----

  /** A worker succeeded exactly when its status is one of three words, in whatever case. */
  lemma SuccessIsOneOfThreeWords(o: WorkerOutput)
    ensures Successful(o) <==>
      (exists word :: && word in ["success", "completed", "ok"] && |word| == |o.status|
                      && forall i :: 0 <= i < |word| ==> o.status[i] == word[i] || o.status[i] as int + 32 == word[i] as int)
  {
    var words := ["success", "completed", "ok"];
    assert words[0] == "success" && words[1] == "completed" && words[2] == "ok";
    forall word | word in words
      ensures Lower(o.status) == word <==>
        |word| == |o.status| && forall i :: 0 <= i < |word| ==> o.status[i] == word[i] || o.status[i] as int + 32 == word[i] as int
    {
      assert forall i :: 0 <= i < |word| ==> 'a' <= word[i] <= 'z';
      LowerIs(o.status, word);
    }
  }

  lemma LowerIs(s: string, word: string)
    requires forall i :: 0 <= i < |word| ==> 'a' <= word[i] <= 'z'
    ensures Lower(s) == word <==> |word| == |s| && forall i :: 0 <= i < |word| ==> s[i] == word[i] || s[i] as int + 32 == word[i] as int
  {
    if Lower(s) == word {
      forall i | 0 <= i < |word| ensures s[i] == word[i] || s[i] as int + 32 == word[i] as int { assert Lower(s)[i] == word[i]; }
    }
  }
}
