/** WorkerDispatcher.plan_batches: level-by-level dispatch of a worker dependency graph. */
module Scheduler {
  import opened Wrappers
  import opened Ordering
  import opened Text
  import opened Graph

  datatype Worker = Worker(workerId: string, runId: string, dependencies: seq<string>)

  datatype Task = Task(taskId: string, workerId: string, description: string, expectedOutput: string, requiredTools: seq<string>)

  datatype Batch = Batch(workers: seq<string>, tasks: seq<Task>, sequence: nat)

  datatype DispatchError = NoWorkers | TooManyWorkers | CrossRun | UnknownDependency | InvalidTask | UnknownTaskWorker | DependencyCycle

  predicate ValidTask(t: Task) {
    && !Blank(t.taskId) && !Blank(t.workerId) && !Blank(t.description) && !Blank(t.expectedOutput)
    && forall i :: 0 <= i < |t.requiredTools| ==> !Blank(t.requiredTools[i])
  }

  // ----- workers_by_id: the last worker of an id, at the place of the first -----

  function IdsInOrder(workers: seq<Worker>): seq<string> {
    if workers == [] then []
    else
      var before := IdsInOrder(workers[..|workers| - 1]);
      var id := workers[|workers| - 1].workerId;
      if id in before then before else before + [id]
  }

  function ById(workers: seq<Worker>): map<string, Worker> {
    if workers == [] then map[]
    else
      var last := workers[|workers| - 1];
      ById(workers[..|workers| - 1])[last.workerId := last]
  }

  function DepsOf(byId: map<string, Worker>): Deps { map w | w in byId :: byId[w].dependencies }

  lemma {:induction false} IdsAreKeys(workers: seq<Worker>)
    ensures NoDuplicates(IdsInOrder(workers))
    ensures forall w :: w in IdsInOrder(workers) <==> w in ById(workers)
    ensures forall w :: w in ById(workers) ==> ById(workers)[w].workerId == w
  {
    if workers != [] { IdsAreKeys(workers[..|workers| - 1]); }
  }

  // ----- Counting the dependencies that are still open -----

  ghost function Open(s: seq<string>, done: set<string>): nat {
    if s == [] then 0 else Open(s[..|s| - 1], done) + (if s[|s| - 1] in done then 0 else 1)
  }

  lemma {:induction false} CountGrows(s: seq<string>, j: nat, x: string)
    requires j <= |s|
    ensures Count(s[..j], x) <= Count(s, x)
  {
    if j < |s| {
      CountGrows(s[..|s| - 1], j, x);
      assert s[..|s| - 1][..j] == s[..j];
    } else {
      assert s[..j] == s;
    }
  }

  lemma {:induction false} OpenZero(s: seq<string>, done: set<string>)
    ensures Open(s, done) == 0 <==> forall d :: d in s ==> d in done
  {
    if s != [] {
      OpenZero(s[..|s| - 1], done);
      assert s == s[..|s| - 1] + [s[|s| - 1]];
    }
  }

  lemma {:induction false} OpenDrops(s: seq<string>, done: set<string>, v: string)
    requires v !in done
    ensures Open(s, done + {v}) == Open(s, done) - Count(s, v)
    ensures Count(s, v) <= Open(s, done)
  {
    if s != [] { OpenDrops(s[..|s| - 1], done, v); }
  }

  lemma {:induction false} OpenInitially(s: seq<string>)
    ensures Open(s, {}) == |s|
  {
    if s != [] { OpenInitially(s[..|s| - 1]); }
  }

  // ----- Tasks of a batch -----

  function TasksOf(tasks: seq<Task>, w: string): seq<Task> {
    if tasks == [] then []
    else
      var before := TasksOf(tasks[..|tasks| - 1], w);
      if tasks[|tasks| - 1].workerId == w then before + [tasks[|tasks| - 1]] else before
  }

  function TasksFor(ids: seq<string>, tasks: seq<Task>): seq<Task> {
    if ids == [] then [] else TasksFor(ids[..|ids| - 1], tasks) + TasksOf(tasks, ids[|ids| - 1])
  }

  // A batch lists the tasks worker by worker, and those of a worker as they were given.
  lemma {:induction false} TasksKeepTheirOrder(a: seq<Task>, b: seq<Task>, w: string)
    ensures TasksOf(a + b, w) == TasksOf(a, w) + TasksOf(b, w)
    ensures |b| == 1 ==> TasksOf(b, w) == if b[0].workerId == w then b else []
  {
    if b == [] {
      assert a + b == a;
    } else {
      var n := |b| - 1;
      TasksKeepTheirOrder(a, b[..n], w);
      assert (a + b)[..|a + b| - 1] == a + b[..n];
    }
  }

  // ----- What plan_batches promises -----

  function FirstTaskError(tasks: seq<Task>, byId: map<string, Worker>): Option<DispatchError> {
    if tasks == [] then None
    else if !ValidTask(tasks[0]) then Some(InvalidTask)
    else if tasks[0].workerId !in byId then Some(UnknownTaskWorker)
    else FirstTaskError(tasks[1..], byId)
  }

  // Every check made before the graph is walked, in order.
  function InputError(runId: string, workers: seq<Worker>, tasks: seq<Task>, maxWorkers: nat): Option<DispatchError> {
    var byId := ById(workers);
    if byId == map[] then Some(NoWorkers)
    else if |byId| > maxWorkers then Some(TooManyWorkers)
    else if exists w :: w in byId && byId[w].runId != runId then Some(CrossRun)
    else if exists w :: w in byId && exists i :: 0 <= i < |byId[w].dependencies| && byId[w].dependencies[i] !in byId then Some(UnknownDependency)
    else FirstTaskError(tasks, byId)
  }

  ghost predicate BatchOk(b: Batch, level: map<string, nat>, tasks: seq<Task>, i: nat) {
    && b.sequence == i
    && b.workers != []
    && NoDuplicates(b.workers)
    && (forall w :: w in b.workers <==> w in level && level[w] == i)
    && b.tasks == TasksFor(b.workers, tasks)
  }

  ghost predicate FirstIsSorted(ids: seq<string>) { SortedBy(StringLe, ids) }

  ghost predicate BatchesOk(batches: seq<Batch>, level: map<string, nat>, tasks: seq<Task>) {
    forall i :: 0 <= i < |batches| ==> BatchOk(batches[i], level, tasks, i)
  }

  // The batches are the levels of the graph; the first is in sorted order.
  ghost predicate Planned(batches: seq<Batch>, g: Deps, level: map<string, nat>, tasks: seq<Task>) {
    && Levelled(g, level)
    && BatchesOk(batches, level, tasks)
    && (forall w :: w in level ==> level[w] < |batches|)
    && (batches != [] ==> FirstIsSorted(batches[0].workers))
  }

  ghost predicate IsPlan(batches: seq<Batch>, g: Deps, tasks: seq<Task>) {
    exists level :: Planned(batches, g, level, tasks)
  }

  // ----- The loops -----

  function Repeat(x: string, n: nat): seq<string> { if n == 0 then [] else Repeat(x, n - 1) + [x] }

  // dependents[v]: each worker once per entry of v in its dependency list, workers in order.
  function Dependents(order: seq<string>, g: Deps, v: string): seq<string>
    requires forall w :: w in order ==> w in g
  {
    if order == [] then []
    else
      var w := order[|order| - 1];
      Dependents(order[..|order| - 1], g, v) + Repeat(w, Count(g[w], v))
  }

  lemma {:induction false} CountRepeat(s: seq<string>, w: string, n: nat, x: string)
    ensures Count(s + Repeat(w, n), x) == Count(s, x) + (if x == w then n else 0)
  {
    if n > 0 {
      CountRepeat(s, w, n - 1, x);
      var t := s + Repeat(w, n);
      assert t[..|t| - 1] == s + Repeat(w, n - 1);
    } else {
      assert s + Repeat(w, n) == s;
    }
  }

  lemma {:induction false} DependentsCount(order: seq<string>, g: Deps, v: string, x: string)
    requires NoDuplicates(order) && forall w :: w in order ==> w in g
    ensures Count(Dependents(order, g, v), x) == if x in order then Count(g[x], v) else 0
  {
    if order != [] {
      var w := order[|order| - 1];
      var before := order[..|order| - 1];
      DependentsCount(before, g, v, x);
      CountRepeat(Dependents(before, g, v), w, Count(g[w], v), x);
      assert order == before + [w];
    }
  }

  // The same list while the first j dependencies of w are being entered.
  function Entered(earlier: seq<string>, g: Deps, w: string, j: nat, v: string): seq<string>
    requires (forall x :: x in earlier ==> x in g) && w in g && j <= |g[w]|
  {
    Dependents(earlier, g, v) + Repeat(w, Count(g[w][..j], v))
  }

  lemma EnterOne(earlier: seq<string>, g: Deps, w: string, j: nat, v: string)
    requires (forall x :: x in earlier ==> x in g) && w in g && j < |g[w]|
    ensures Entered(earlier, g, w, j + 1, v) == Entered(earlier, g, w, j, v) + (if g[w][j] == v then [w] else [])
  {
    assert g[w][..j + 1][..j] == g[w][..j];
  }

  lemma EnterAll(earlier: seq<string>, g: Deps, w: string, v: string)
    requires (forall x :: x in earlier ==> x in g) && w in g
    ensures Entered(earlier, g, w, 0, v) == Dependents(earlier, g, v)
    ensures Entered(earlier, g, w, |g[w]|, v) == Dependents(earlier + [w], g, v)
  {
    assert g[w][..|g[w]|] == g[w];
    assert (earlier + [w])[..|earlier|] == earlier;
  }

  method BuildDependents(order: seq<string>, g: Deps) returns (dependents: map<string, seq<string>>)
    requires (forall w :: w in order ==> w in g) && Closed(g)
    ensures dependents.Keys == g.Keys
    ensures forall v :: v in g ==> dependents[v] == Dependents(order, g, v)
  {
    dependents := map w | w in g :: [];
    for i := 0 to |order|
      invariant dependents.Keys == g.Keys
      invariant forall v :: v in g ==> dependents[v] == Dependents(order[..i], g, v)
    {
      hide Entered, Dependents;
      var w := order[i];
      assert order[..i] + [w] == order[..i + 1];
      forall v | v in g ensures Entered(order[..i], g, w, 0, v) == Dependents(order[..i], g, v) { EnterAll(order[..i], g, w, v); }
      for j := 0 to |g[w]|
        invariant dependents.Keys == g.Keys
        invariant forall v :: v in g ==> dependents[v] == Entered(order[..i], g, w, j, v)
      {
        var d := g[w][j];
        forall v | v in g
          ensures Entered(order[..i], g, w, j + 1, v) == Entered(order[..i], g, w, j, v) + (if d == v then [w] else [])
        {
          EnterOne(order[..i], g, w, j, v);
        }
        dependents := dependents[d := dependents[d] + [w]];
      }
      forall v | v in g ensures dependents[v] == Dependents(order[..i + 1], g, v) { EnterAll(order[..i], g, w, v); }
    }
    assert order[..|order|] == order;
  }

  // Who is ready: not dispatched, not in the current batch, and waiting for nobody.
  ghost predicate ReadyIs(ready: seq<string>, g: Deps, indegree: map<string, int>, taken: set<string>) {
    && indegree.Keys == g.Keys
    && NoDuplicates(ready)
    && forall w :: w in ready <==> w in g && w !in taken && indegree[w] == 0
  }

  ghost predicate IndegreeIs(indegree: map<string, int>, g: Deps, done: set<string>) {
    indegree.Keys == g.Keys && forall w :: w in g ==> indegree[w] == Open(g[w], done)
  }

  // One decrement makes a worker ready exactly when it was its last open dependency.
  lemma DecrementKeepsReady(ready: seq<string>, g: Deps, indegree: map<string, int>, taken: set<string>, x: string)
    requires ReadyIs(ready, g, indegree, taken) && x in g && x !in taken && indegree[x] > 0
    ensures var indegree' := indegree[x := indegree[x] - 1];
      ReadyIs(if indegree'[x] == 0 then ready + [x] else ready, g, indegree', taken)
  {}

  // The dependents list of v holds each worker once per entry of v in its dependency list.
  ghost predicate Counts(list: seq<string>, g: Deps, v: string) {
    forall x :: Count(list, x) == if x in g then Count(g[x], v) else 0
  }

  // Dispatching v: one decrement per entry of its dependents list.
  method Release(v: string, dependents: seq<string>, g: Deps, indegree: map<string, int>, ready: seq<string>,
      ghost done: set<string>, ghost taken: set<string>)
    returns (indegree': map<string, int>, ready': seq<string>)
    requires IndegreeIs(indegree, g, done) && ReadyIs(ready, g, indegree, taken)
    requires v !in done
    requires forall x :: x in taken && x in g ==> v !in g[x]
    requires Counts(dependents, g, v)
    ensures IndegreeIs(indegree', g, done + {v}) && ReadyIs(ready', g, indegree', taken)
    ensures forall x :: x in ready' ==> x in ready || (x in g && v in g[x])
  {
    indegree', ready' := indegree, ready;
    for j := 0 to |dependents|
      invariant indegree'.Keys == g.Keys
      invariant forall x :: x in g ==> indegree'[x] == Open(g[x], done) - Count(dependents[..j], x)
      invariant ReadyIs(ready', g, indegree', taken)
      invariant forall x :: x in ready' ==> x in ready || (x in g && v in g[x])
    {
      hide ReadyIs;
      var x := dependents[j];
      assert dependents[..j + 1][..j] == dependents[..j];
      CountGrows(dependents, j + 1, x);
      OpenDrops(g[x], done, v);
      CountPositive(g[x], v);
      DecrementKeepsReady(ready', g, indegree', taken, x);
      indegree' := indegree'[x := indegree'[x] - 1];
      if indegree'[x] == 0 { ready' := ready' + [x]; }
    }
    assert dependents[..|dependents|] == dependents;
    forall x | x in g ensures indegree'[x] == Open(g[x], done + {v}) { OpenDrops(g[x], done, v); }
  }

  // ----- Round by round -----

  function AsSet(s: seq<string>): set<string> { set x | x in s }

  // The batches so far are the complete lower levels of the graph.
  ghost predicate Walked(g: Deps, level: map<string, nat>, rounds: nat) {
    && level.Keys <= g.Keys
    && forall w :: w in level ==> LevelOf(g, level, w) && level[w] < rounds
  }

  // Whoever is ready waits only for dispatched workers, one of them in the last batch.
  ghost predicate NextUp(g: Deps, level: map<string, nat>, rounds: nat, ready: seq<string>) {
    forall w :: w in ready ==>
      && w in g && w !in level
      && (forall d :: d in g[w] ==> d in level)
      && (rounds > 0 ==> exists d :: d in g[w] && d in level && level[d] == rounds - 1)
  }

  ghost function Raised(level: map<string, nat>, ready: seq<string>, rounds: nat): map<string, nat> {
    map w | w in level.Keys + AsSet(ready) :: if w in level then level[w] else rounds
  }

  lemma RoundKeepsWalked(g: Deps, level: map<string, nat>, rounds: nat, ready: seq<string>)
    requires Walked(g, level, rounds) && NextUp(g, level, rounds, ready)
    ensures Walked(g, Raised(level, ready, rounds), rounds + 1)
  {
    var level' := Raised(level, ready, rounds);
    forall w | w in level' ensures LevelOf(g, level', w) {
      if w in level {
        assert LevelOf(g, level, w);
        if level[w] > 0 {
          var d :| d in g[w] && d in level && level[d] == level[w] - 1;
          assert level'[d] == level[d];
        }
      } else if rounds > 0 {
        var d :| d in g[w] && d in level && level[d] == rounds - 1;
        assert level'[d] == level[d];
      }
    }
  }

  lemma RoundKeepsBatches(g: Deps, batches: seq<Batch>, level: map<string, nat>, tasks: seq<Task>, ready: seq<string>, next: Batch)
    requires BatchesOk(batches, level, tasks)
    requires Walked(g, level, |batches|) && NextUp(g, level, |batches|, ready)
    requires ready != [] && NoDuplicates(ready)
    requires next == Batch(ready, TasksFor(ready, tasks), |batches|)
    ensures BatchesOk(batches + [next], Raised(level, ready, |batches|), tasks)
  {
    var level' := Raised(level, ready, |batches|);
    forall i | 0 <= i < |batches + [next]| ensures BatchOk((batches + [next])[i], level', tasks, i) {
      if i < |batches| {
        var b := batches[i];
        assert BatchOk(b, level, tasks, i);
        forall w ensures w in b.workers <==> w in level' && level'[w] == i {}
      }
    }
  }

  // Nobody in a dispatched or current batch waits for a worker of the current batch.
  lemma TakenWaitForNobody(g: Deps, level: map<string, nat>, rounds: nat, current: seq<string>, v: string)
    requires Walked(g, level, rounds) && NextUp(g, level, rounds, current) && v in current
    ensures forall x :: x in level.Keys + AsSet(current) && x in g ==> v !in g[x]
  {
    forall x | x in level.Keys + AsSet(current) && x in g ensures v !in g[x] {
      if x in level { assert LevelOf(g, level, x); }
    }
  }

  // The workers that one round releases are the next ones up.
  lemma ReleasedAreNextUp(g: Deps, level: map<string, nat>, rounds: nat, current: seq<string>, indegree: map<string, int>, ready: seq<string>)
    requires Closed(g) && Walked(g, level, rounds) && NextUp(g, level, rounds, current)
    requires IndegreeIs(indegree, g, level.Keys + AsSet(current)) && ReadyIs(ready, g, indegree, level.Keys + AsSet(current))
    requires forall x :: x in ready ==> ReleasedBy(g, current, x)
    ensures NextUp(g, Raised(level, current, rounds), rounds + 1, ready)
  {
    var level' := Raised(level, current, rounds);
    forall w | w in ready
      ensures (forall d :: d in g[w] ==> d in level') && exists d :: d in g[w] && d in level' && level'[d] == rounds
    {
      OpenZero(g[w], level.Keys + AsSet(current));
      var v :| v in current && v in g[w];
      assert level'[v] == rounds;
    }
  }

  ghost predicate ReleasedBy(g: Deps, current: seq<string>, x: string) {
    x in g && exists v :: v in current && v in g[x]
  }

  // At the start of a round the workers without open dependencies are exactly those being dispatched.
  lemma NobodyElseIsReady(g: Deps, indegree: map<string, int>, taken: set<string>, current: seq<string>)
    requires ReadyIs(current, g, indegree, taken)
    ensures ReadyIs([], g, indegree, taken + AsSet(current))
  {}

  lemma CurrentIsNew(g: Deps, level: map<string, nat>, rounds: nat, current: seq<string>, k: nat)
    requires NextUp(g, level, rounds, current) && NoDuplicates(current) && k < |current|
    ensures current[k] in g && current[k] !in level.Keys + AsSet(current[..k])
    ensures level.Keys + AsSet(current[..k + 1]) == level.Keys + AsSet(current[..k]) + {current[k]}
  {
    assert current[..k + 1] == current[..k] + [current[k]];
  }

  ghost predicate DependentsAre(dependents: map<string, seq<string>>, g: Deps) {
    dependents.Keys == g.Keys && forall v :: v in g ==> Counts(dependents[v], g, v)
  }

  lemma DependentsOfOne(order: seq<string>, g: Deps, v: string)
    requires NoDuplicates(order) && (forall w :: w in order <==> w in g)
    ensures Counts(Dependents(order, g, v), g, v)
  {
    forall x ensures Count(Dependents(order, g, v), x) == if x in g then Count(g[x], v) else 0 {
      DependentsCount(order, g, v, x);
    }
  }

  lemma DependentsAreCounted(order: seq<string>, g: Deps, dependents: map<string, seq<string>>)
    requires NoDuplicates(order) && (forall w :: w in order <==> w in g)
    requires dependents.Keys == g.Keys && forall v :: v in g ==> dependents[v] == Dependents(order, g, v)
    ensures DependentsAre(dependents, g)
  {
    hide Counts;
    forall v | v in g ensures Counts(dependents[v], g, v) { DependentsOfOne(order, g, v); }
  }

  method DispatchRound(current: seq<string>, dependents: map<string, seq<string>>, g: Deps, indegree: map<string,
      int>, ghost level: map<string, nat>, ghost rounds: nat)
    returns (indegree': map<string, int>, ready: seq<string>)
    requires Closed(g) && Walked(g, level, rounds) && NextUp(g, level, rounds, current) && NoDuplicates(current)
    requires IndegreeIs(indegree, g, level.Keys) && ReadyIs(current, g, indegree, level.Keys)
    requires DependentsAre(dependents, g)
    ensures IndegreeIs(indegree', g, level.Keys + AsSet(current))
    ensures ReadyIs(ready, g, indegree', level.Keys + AsSet(current))
    ensures NextUp(g, Raised(level, current, rounds), rounds + 1, ready)
  {
    hide Closed, Walked, NextUp, NoDuplicates, IndegreeIs, ReadyIs, Count, Raised;
    indegree', ready := indegree, [];
    ghost var taken := level.Keys + AsSet(current);
    NobodyElseIsReady(g, indegree, level.Keys, current);
    assert level.Keys + AsSet(current[..0]) == level.Keys;
    for k := 0 to |current|
      invariant IndegreeIs(indegree', g, level.Keys + AsSet(current[..k]))
      invariant ReadyIs(ready, g, indegree', taken)
      invariant forall x :: x in ready ==> ReleasedBy(g, current, x)
    {
      var v := current[k];
      TakenWaitForNobody(g, level, rounds, current, v);
      CurrentIsNew(g, level, rounds, current, k);
      indegree', ready := Release(v, dependents[v], g, indegree', ready, level.Keys + AsSet(current[..k]), taken);
    }
    assert current[..|current|] == current;
    ReleasedAreNextUp(g, level, rounds, current, indegree', ready);
  }

  // When nobody is ready, either everybody has been dispatched or the rest wait for each other.
  lemma RestIsStuck(g: Deps, level: map<string, nat>, indegree: map<string, int>)
    requires Closed(g) && level.Keys < g.Keys
    requires IndegreeIs(indegree, g, level.Keys) && ReadyIs([], g, indegree, level.Keys)
    ensures Cyclic(g)
  {
    var rest := g.Keys - level.Keys;
    forall w | w in rest ensures WaitsIn(g, rest, w) {
      OpenZero(g[w], level.Keys);
      assert w !in [];
      var d :| d in g[w] && d !in level.Keys;
      assert d in rest;
    }
    var w :| w in g.Keys && w !in level.Keys;
    assert w in rest;
    StuckIsCyclic(g, rest);
  }

  // What holds between rounds.
  ghost predicate Between(g: Deps, level: map<string, nat>, indegree: map<string, int>, ready: seq<string>, batches: seq<Batch>, tasks: seq<Task>) {
    && Walked(g, level, |batches|)
    && IndegreeIs(indegree, g, level.Keys) && ReadyIs(ready, g, indegree, level.Keys)
    && NextUp(g, level, |batches|, ready)
    && BatchesOk(batches, level, tasks)
    && FirstIsSorted(if batches == [] then ready else batches[0].workers)
  }

  lemma RootsAreFirst(order: seq<string>, g: Deps, indegree: map<string, int>, tasks: seq<Task>, level: map<string, nat>)
    requires NoDuplicates(order) && (forall w :: w in order <==> w in g)
    requires indegree == (map w | w in g :: |g[w]|) && level == map[]
    ensures Between(g, level, indegree, SortStrings(Filter(order, indegree)), [], tasks)
  {
    var roots := Filter(order, indegree);
    var ready := SortStrings(roots);
    SortKeepsNoDuplicates(StringLe, roots);
    StringLeIsTotalOrder();
    SortSorted(StringLe, roots);
    hide StringLe, TotalOrder, SortStrings, Sort, Filter;
    assert SortedBy(StringLe, ready);
    forall w | w in g ensures indegree[w] == Open(g[w], level.Keys) { OpenInitially(g[w]); assert level.Keys == {}; }
    assert IndegreeIs(indegree, g, level.Keys);
    assert ReadyIs(ready, g, indegree, level.Keys);
    forall w | w in ready ensures g[w] == [] {}
    assert NextUp(g, level, 0, ready);
  }

  lemma RoundIsDone(g: Deps, level: map<string, nat>, indegree: map<string, int>, current: seq<string>,
      batches: seq<Batch>, tasks: seq<Task>, indegree': map<string, int>, ready: seq<string>)
    requires Between(g, level, indegree, current, batches, tasks) && current != []
    requires IndegreeIs(indegree', g, level.Keys + AsSet(current)) && ReadyIs(ready, g, indegree', level.Keys + AsSet(current))
    requires NextUp(g, Raised(level, current, |batches|), |batches| + 1, ready)
    ensures Between(g, Raised(level, current, |batches|), indegree', ready,
                    batches + [Batch(current, TasksFor(current, tasks), |batches|)], tasks)
  {
    hide Walked, FirstIsSorted, BatchesOk, IndegreeIs, ReadyIs, NextUp, NoDuplicates, TasksFor, Raised, AsSet;
    RoundFacts(g, level, indegree, current, batches, tasks);
    RoundKeepsWalked(g, level, |batches|, current);
    RoundKeepsBatches(g, batches, level, tasks, current, Batch(current, TasksFor(current, tasks), |batches|));
  }

  lemma RoundFacts(g: Deps, level: map<string, nat>, indegree: map<string, int>, current: seq<string>, batches: seq<Batch>, tasks: seq<Task>)
    requires Between(g, level, indegree, current, batches, tasks) && current != []
    ensures Walked(g, level, |batches|) && NextUp(g, level, |batches|, current) && NoDuplicates(current)
    ensures IndegreeIs(indegree, g, level.Keys) && ReadyIs(current, g, indegree, level.Keys)
    ensures (forall w :: w in current ==> w in g) && current[0] in g.Keys - level.Keys && level.Keys + AsSet(current) <= g.Keys
    ensures Raised(level, current, |batches|).Keys == level.Keys + AsSet(current)
  {
    assert current[0] in current;
    hide FirstIsSorted, BatchesOk, IndegreeIs;
  }

  lemma WalkIsOver(g: Deps, level: map<string, nat>, indegree: map<string, int>, batches: seq<Batch>, tasks: seq<Task>)
    requires Closed(g) && Between(g, level, indegree, [], batches, tasks)
    ensures |level.Keys| == |g.Keys| <==> !Cyclic(g)
    ensures |level.Keys| == |g.Keys| ==> IsPlan(batches, g, tasks)
  {
    assert |g.Keys - level.Keys| == |g.Keys| - |level.Keys|;
    if level.Keys == g.Keys {
      LevelledIsAcyclic(g, level);
      assert Planned(batches, g, level, tasks);
    } else {
      RestIsStuck(g, level, indegree);
      assert g.Keys - level.Keys != {};
    }
  }

  ghost predicate Grouped(taskMap: map<string, seq<Task>>, g: Deps, tasks: seq<Task>) {
    forall w :: w in g ==> w in taskMap && taskMap[w] == TasksOf(tasks, w)
  }

  // current_tasks: the tasks of each worker of the batch, in the order they were given.
  method CollectTasks(current: seq<string>, taskMap: map<string, seq<Task>>, ghost g: Deps, ghost tasks: seq<Task>) returns (collected: seq<Task>)
    requires Grouped(taskMap, g, tasks) && forall w :: w in current ==> w in g
    ensures collected == TasksFor(current, tasks)
  {
    collected := [];
    for i := 0 to |current|
      invariant collected == TasksFor(current[..i], tasks)
    {
      assert current[..i + 1][..i] == current[..i];
      assert current[i] in current;
      collected := collected + taskMap[current[i]];
    }
    assert current[..|current|] == current;
  }

  method Walk(order: seq<string>, g: Deps, tasks: seq<Task>, taskMap: map<string, seq<Task>>) returns (batches: seq<Batch>, complete: bool)
    requires Closed(g) && NoDuplicates(order) && (forall w :: w in order <==> w in g)
    requires Grouped(taskMap, g, tasks)
    ensures complete <==> !Cyclic(g)
    ensures complete ==> IsPlan(batches, g, tasks)
  {
    hide Grouped, DependentsAre, Dependents, Planned, Cyclic, Closed, SortStrings, Filter, Between, IndegreeIs, ReadyIs, NextUp, Walked, NoDuplicates, TasksFor, Raised, IsPlan;
    var indegree: map<string, int> := map w | w in g :: |g[w]|;
    var dependents := BuildDependents(order, g);
    DependentsAreCounted(order, g, dependents);
    var ready := SortStrings(Filter(order, indegree));
    ghost var level: map<string, nat> := map[];
    RootsAreFirst(order, g, indegree, tasks, level);
    batches := [];
    var dispatched: set<string> := {};
    while ready != []
      invariant Between(g, level, indegree, ready, batches, tasks) && dispatched == level.Keys
      decreases g.Keys - dispatched
    {
      var current := ready;
      RoundFacts(g, level, indegree, current, batches, tasks);
      ghost var before := indegree;
      var collected := CollectTasks(current, taskMap, g, tasks);
      indegree, ready := DispatchRound(current, dependents, g, indegree, level, |batches|);
      RoundIsDone(g, level, before, current, batches, tasks, indegree, ready);
      level := Raised(level, current, |batches|);
      batches := batches + [Batch(current, collected, |batches|)];
      dispatched := dispatched + AsSet(current);
    }
    WalkIsOver(g, level, indegree, batches, tasks);
    complete := |dispatched| == |g|;
  }

  function Filter(order: seq<string>, indegree: map<string, int>): (roots: seq<string>)
    ensures forall w :: w in roots <==> w in order && w in indegree && indegree[w] == 0
    ensures NoDuplicates(order) ==> NoDuplicates(roots)
  {
    if order == [] then []
    else
      var last := order[|order| - 1];
      var before := Filter(order[..|order| - 1], indegree);
      if last in indegree && indegree[last] == 0 then before + [last] else before
  }

  // ----- The whole method -----

  method IndexWorkers(workers: seq<Worker>) returns (order: seq<string>, byId: map<string, Worker>)
    ensures order == IdsInOrder(workers) && byId == ById(workers)
  {
    order, byId := [], map[];
    for i := 0 to |workers|
      invariant order == IdsInOrder(workers[..i]) && byId == ById(workers[..i])
    {
      assert workers[..i + 1][..i] == workers[..i];
      var id := workers[i].workerId;
      if id !in order { order := order + [id]; }
      byId := byId[id := workers[i]];
    }
    assert workers[..|workers|] == workers;
  }

  // The first worker that fails a test, in insertion order.
  method AnyWorker(order: seq<string>, byId: map<string, Worker>, runId: string) returns (crossRun: bool, unknown: bool)
    requires forall w :: w in order <==> w in byId
    ensures crossRun <==> exists w :: w in byId && byId[w].runId != runId
    ensures unknown <==> exists w :: w in byId && exists i :: 0 <= i < |byId[w].dependencies| && byId[w].dependencies[i] !in byId
  {
    crossRun, unknown := false, false;
    for k := 0 to |order|
      invariant crossRun <==> exists w :: w in order[..k] && byId[w].runId != runId
      invariant unknown <==> exists w :: w in order[..k] && exists i :: 0 <= i < |byId[w].dependencies| && byId[w].dependencies[i] !in byId
    {
      var w := order[k];
      assert order[..k + 1] == order[..k] + [w];
      if byId[w].runId != runId { crossRun := true; }
      if exists i :: 0 <= i < |byId[w].dependencies| && byId[w].dependencies[i] !in byId { unknown := true; }
    }
    assert order[..|order|] == order;
  }

  method GroupTasks(tasks: seq<Task>, byId: map<string, Worker>) returns (error: Option<DispatchError>, taskMap: map<string, seq<Task>>)
    ensures error == FirstTaskError(tasks, byId)
    ensures error.None? ==> Grouped(taskMap, DepsOf(byId), tasks)
  {
    taskMap := map w | w in byId :: [];
    for i := 0 to |tasks|
      invariant FirstTaskError(tasks, byId) == FirstTaskError(tasks[i..], byId)
      invariant taskMap.Keys == byId.Keys
      invariant forall w :: w in byId ==> taskMap[w] == TasksOf(tasks[..i], w)
    {
      var t := tasks[i];
      assert tasks[..i + 1][..i] == tasks[..i];
      if !ValidTask(t) { return Some(InvalidTask), taskMap; }
      if t.workerId !in byId { return Some(UnknownTaskWorker), taskMap; }
      taskMap := taskMap[t.workerId := taskMap[t.workerId] + [t]];
    }
    assert tasks[..|tasks|] == tasks;
    error := None;
  }

  // The cycle error is raised exactly for a cyclic graph, and otherwise the batches are its levels.
  method PlanBatches(runId: string, workers: seq<Worker>, tasks: seq<Task>, maxWorkers: nat) returns (r: Result<seq<Batch>, DispatchError>)
    ensures InputError(runId, workers, tasks, maxWorkers).Some? ==> r == Err(InputError(runId, workers, tasks, maxWorkers).value)
    ensures InputError(runId, workers, tasks, maxWorkers).None? ==>
      && Closed(DepsOf(ById(workers)))
      && (r == Err(DependencyCycle) <==> Cyclic(DepsOf(ById(workers))))
      && (r.Err? ==> r.error == DependencyCycle)
      && (r.Ok? ==> IsPlan(r.value, DepsOf(ById(workers)), tasks))
  {
    hide Cyclic, IsPlan;
    var order, byId := IndexWorkers(workers);
    IdsAreKeys(workers);
    if byId == map[] { return Err(NoWorkers); }
    if |byId| > maxWorkers { return Err(TooManyWorkers); }
    var crossRun, unknown := AnyWorker(order, byId, runId);
    if crossRun { return Err(CrossRun); }
    if unknown { return Err(UnknownDependency); }
    var error, taskMap := GroupTasks(tasks, byId);
    if error.Some? { return Err(error.value); }
    var batches, complete := Walk(order, DepsOf(byId), tasks, taskMap);
    r := if complete then Ok(batches) else Err(DependencyCycle);
  }

  // ----- Conservation -----

  function AllWorkers(batches: seq<Batch>): seq<string> {
    if batches == [] then [] else AllWorkers(batches[..|batches| - 1]) + batches[|batches| - 1].workers
  }

  function AllTasks(batches: seq<Batch>): seq<Task> {
    if batches == [] then [] else AllTasks(batches[..|batches| - 1]) + batches[|batches| - 1].tasks
  }

  lemma {:induction false} TasksForAppends(a: seq<string>, b: seq<string>, tasks: seq<Task>)
    ensures TasksFor(a + b, tasks) == TasksFor(a, tasks) + TasksFor(b, tasks)
  {
    if b == [] {
      assert a + b == a;
    } else {
      TasksForAppends(a, b[..|b| - 1], tasks);
      assert (a + b)[..|a + b| - 1] == a + b[..|b| - 1];
    }
  }

  lemma {:induction false} TasksOfIsAFilter(tasks: seq<Task>, w: string, t: Task)
    ensures multiset(TasksOf(tasks, w))[t] == if t.workerId == w then multiset(tasks)[t] else 0
  {
    if tasks != [] {
      TasksOfIsAFilter(tasks[..|tasks| - 1], w, t);
      assert tasks == tasks[..|tasks| - 1] + [tasks[|tasks| - 1]];
    }
  }

  lemma {:induction false} TasksForCounts(ids: seq<string>, tasks: seq<Task>, t: Task)
    requires NoDuplicates(ids)
    ensures multiset(TasksFor(ids, tasks))[t] == if t.workerId in ids then multiset(tasks)[t] else 0
  {
    if ids != [] {
      TasksForCounts(ids[..|ids| - 1], tasks, t);
      TasksOfIsAFilter(tasks, ids[|ids| - 1], t);
      assert ids == ids[..|ids| - 1] + [ids[|ids| - 1]];
    }
  }

  lemma ConcatenationHasNoDuplicates(a: seq<string>, b: seq<string>)
    requires NoDuplicates(a) && NoDuplicates(b) && forall x :: x in a ==> x !in b
    ensures NoDuplicates(a + b)
  {
    var s := a + b;
    forall i, j | 0 <= i < j < |s| ensures s[i] != s[j] {
      if i < |a| <= j { assert s[i] in a && s[j] in b; }
    }
  }

  lemma {:induction false} BatchesPartition(batches: seq<Batch>, level: map<string, nat>, tasks: seq<Task>)
    requires BatchesOk(batches, level, tasks)
    ensures NoDuplicates(AllWorkers(batches))
    ensures forall w :: w in AllWorkers(batches) <==> w in level && level[w] < |batches|
    ensures AllTasks(batches) == TasksFor(AllWorkers(batches), tasks)
  {
    if batches != [] {
      var before := batches[..|batches| - 1];
      var last := batches[|batches| - 1];
      forall i | 0 <= i < |before| ensures BatchOk(before[i], level, tasks, i) { assert before[i] == batches[i]; }
      BatchesPartition(before, level, tasks);
      assert BatchOk(last, level, tasks, |before|);
      ConcatenationHasNoDuplicates(AllWorkers(before), last.workers);
      TasksForAppends(AllWorkers(before), last.workers, tasks);
    }
  }

  lemma EveryoneHasALevel(g: Deps, level: map<string, nat>)
    requires Levelled(g, level)
    ensures level.Keys == g.Keys
  {
  }

  // Every worker is in exactly one batch and every task is dispatched exactly once.
  lemma NothingIsLostOrRepeated(batches: seq<Batch>, g: Deps, tasks: seq<Task>)
    requires IsPlan(batches, g, tasks) && forall t :: t in tasks ==> t.workerId in g
    ensures NoDuplicates(AllWorkers(batches)) && (forall w :: w in AllWorkers(batches) <==> w in g)
    ensures multiset(AllTasks(batches)) == multiset(tasks)
  {
    hide Levelled, BatchesOk, FirstIsSorted, NoDuplicates, TasksFor;
    var level :| Planned(batches, g, level, tasks);
    EveryoneHasALevel(g, level);
    BatchesPartition(batches, level, tasks);
    forall t ensures multiset(AllTasks(batches))[t] == multiset(tasks)[t] {
      TasksForCounts(AllWorkers(batches), tasks, t);
      if t.workerId !in g { assert t !in multiset(tasks); }
    }
  }

  // A worker is in batch i exactly when its longest dependency chain has i edges, and no
  // schedule that respects the dependencies has fewer batches.
  lemma BatchesAreLevels(batches: seq<Batch>, g: Deps, tasks: seq<Task>, w: string, i: nat)
    requires IsPlan(batches, g, tasks) && w in g && i < |batches|
    ensures w in batches[i].workers <==> HasChain(g, w, i) && forall j :: j > i ==> !HasChain(g, w, j)
  {
    var level :| Planned(batches, g, level, tasks);
    assert BatchOk(batches[i], level, tasks, i);
    LevelIsLongestChain(g, level, w, i);
  }

  lemma NoScheduleIsShorter(batches: seq<Batch>, g: Deps, tasks: seq<Task>, schedule: map<string, nat>, rounds: nat)
    requires IsPlan(batches, g, tasks) && schedule.Keys == g.Keys
    requires forall v, d :: v in g && d in g[v] ==> d in schedule && schedule[d] < schedule[v]
    requires forall w :: w in schedule ==> schedule[w] < rounds
    ensures |batches| <= rounds
  {
    if batches != [] {
      var level :| Planned(batches, g, level, tasks);
      var last := |batches| - 1;
      assert BatchOk(batches[last], level, tasks, last);
      var w := batches[last].workers[0];
      assert w in batches[last].workers;
      LevelsAreMinimal(g, level, schedule, w);
    }
  }
}
