/** Which workers and tasks are turned down before the graph is walked, and why, told from the lists that were given. */
module SchedulerInput {
  import opened Wrappers
  import opened Text
  import opened Scheduler

  // The worker at this position is the last with its id, and so the one that counts.
  ghost predicate Counted(workers: seq<Worker>, i: nat) {
    i < |workers| && forall j :: i < j < |workers| ==> workers[j].workerId != workers[i].workerId
  }

  function Ids(workers: seq<Worker>): set<string> { set w | w in workers :: w.workerId }

  lemma {:induction false} KeysAre(workers: seq<Worker>)
    ensures ById(workers).Keys == Ids(workers)
  {
    if workers != [] {
      var before, last := workers[..|workers| - 1], workers[|workers| - 1];
      KeysAre(before);
      assert workers == before + [last];
      assert Ids(workers) == Ids(before) + {last.workerId};
    }
  }

  lemma {:induction false} CountedIsIndexed(workers: seq<Worker>, i: nat)
    requires Counted(workers, i)
    ensures workers[i].workerId in ById(workers) && ById(workers)[workers[i].workerId] == workers[i]
  {
    var n := |workers| - 1;
    if i < n {
      assert workers[n].workerId != workers[i].workerId;
      CountedIsIndexed(workers[..n], i);
    }
  }

  lemma {:induction false} IndexedIsCounted(workers: seq<Worker>, id: string) returns (i: nat)
    requires id in ById(workers)
    ensures Counted(workers, i) && workers[i] == ById(workers)[id] && workers[i].workerId == id
  {
    var n := |workers| - 1;
    i := n;
    if workers[n].workerId != id {
      i := IndexedIsCounted(workers[..n], id);
      assert forall j :: i < j < n ==> workers[..n][j] == workers[j];
    }
  }

  // The task at this position has a blank text.
  ghost predicate Incomplete(t: Task) {
    || (exists s :: s in [t.taskId, t.workerId, t.description, t.expectedOutput] && Blank(s)) || exists s :: s in t.requiredTools && Blank(s)
  }

  lemma ValidIsComplete(t: Task)
    ensures ValidTask(t) <==> !Incomplete(t)
  {
    hide Blank;
    var texts := [t.taskId, t.workerId, t.description, t.expectedOutput];
    assert texts[0] == t.taskId && texts[1] == t.workerId && texts[2] == t.description && texts[3] == t.expectedOutput;
    if exists i :: 0 <= i < |t.requiredTools| && Blank(t.requiredTools[i]) {
      var i :| 0 <= i < |t.requiredTools| && Blank(t.requiredTools[i]);
      assert t.requiredTools[i] in t.requiredTools;
    }
  }

  // The first task that is incomplete or names no worker.
  ghost predicate FirstBad(tasks: seq<Task>, ids: set<string>, k: nat) {
    && k < |tasks| && (Incomplete(tasks[k]) || tasks[k].workerId !in ids)
    && forall j :: 0 <= j < k ==> !Incomplete(tasks[j]) && tasks[j].workerId in ids
  }

  lemma {:induction false} TaskErrorIsTheFirst(tasks: seq<Task>, byId: map<string, Worker>)
    ensures FirstTaskError(tasks, byId).None? <==> forall t :: t in tasks ==> !Incomplete(t) && t.workerId in byId
    ensures FirstTaskError(tasks, byId) in {None, Some(InvalidTask), Some(UnknownTaskWorker)}
    ensures forall k: nat :: FirstBad(tasks, byId.Keys, k) ==>
      FirstTaskError(tasks, byId) == if Incomplete(tasks[k]) then Some(InvalidTask) else Some(UnknownTaskWorker)
  {
    if tasks != [] {
      hide Incomplete, ValidTask;
      ValidIsComplete(tasks[0]);
      TaskErrorIsTheFirst(tasks[1..], byId);
      assert tasks == [tasks[0]] + tasks[1..];
      forall k: nat | FirstBad(tasks, byId.Keys, k)
        ensures FirstTaskError(tasks, byId) == if Incomplete(tasks[k]) then Some(InvalidTask) else Some(UnknownTaskWorker)
      {
        if k > 0 {
          assert !Incomplete(tasks[0]) && tasks[0].workerId in byId;
          assert forall j :: 0 <= j < k - 1 ==> tasks[1..][j] == tasks[j + 1];
          assert FirstBad(tasks[1..], byId.Keys, k - 1);
        }
      }
    }
  }

  // Some worker that counts is of another run, or depends on an id that no worker has.
  ghost predicate SomeOfAnotherRun(runId: string, workers: seq<Worker>) { exists i: nat :: Counted(workers, i) && workers[i].runId != runId }

  ghost predicate SomeDangling(workers: seq<Worker>) {
    exists i: nat, d :: Counted(workers, i) && d in workers[i].dependencies && forall w :: w in workers ==> w.workerId != d
  }

  /**
   Each input error is raised exactly when its condition holds and none before it: no workers, more ids than allowed, a worker
   of another run, a dependency on nobody, a task that is incomplete or of nobody, whichever comes first in the list.
   */
  lemma InputErrorsAreExact(runId: string, workers: seq<Worker>, tasks: seq<Task>, maxWorkers: nat)
    ensures var e := InputError(runId, workers, tasks, maxWorkers);
      var admitted := workers != [] && |Ids(workers)| <= maxWorkers && !SomeOfAnotherRun(runId, workers) && !SomeDangling(workers);
      && (e == Some(NoWorkers) <==> workers == [])
      && (e == Some(TooManyWorkers) <==> workers != [] && |Ids(workers)| > maxWorkers)
      && (e == Some(CrossRun) <==> workers != [] && |Ids(workers)| <= maxWorkers && SomeOfAnotherRun(runId, workers))
      && (e == Some(UnknownDependency) <==>
            workers != [] && |Ids(workers)| <= maxWorkers && !SomeOfAnotherRun(runId, workers) && SomeDangling(workers))
      && (e.None? <==> admitted && forall t :: t in tasks ==> !Incomplete(t) && t.workerId in Ids(workers))
      && (forall k: nat :: admitted && FirstBad(tasks, Ids(workers), k) ==>
            e == if Incomplete(tasks[k]) then Some(InvalidTask) else Some(UnknownTaskWorker))
      && e != Some(DependencyCycle)
  {
    hide Incomplete, FirstTaskError, SomeOfAnotherRun, SomeDangling;
    KeysAre(workers);
    var byId := ById(workers);
    TaskErrorIsTheFirst(tasks, byId);
    assert byId == map[] <==> workers == [] by { EmptyIndex(workers); }
    assert |byId| == |Ids(workers)| by { assert |byId| == |byId.Keys|; }
    OtherRunIndexed(runId, workers);
    DanglingIndexed(workers);
  }

  lemma EmptyIndex(workers: seq<Worker>)
    ensures ById(workers) == map[] <==> workers == []
  {
    if workers != [] { assert workers[|workers| - 1].workerId in ById(workers); }
  }

  lemma OtherRunIndexed(runId: string, workers: seq<Worker>)
    ensures SomeOfAnotherRun(runId, workers) <==> exists w :: w in ById(workers) && ById(workers)[w].runId != runId
  {
    if w :| w in ById(workers) && ById(workers)[w].runId != runId {
      var i := IndexedIsCounted(workers, w);
    }
    if i: nat :| Counted(workers, i) && workers[i].runId != runId {
      CountedIsIndexed(workers, i);
    }
  }

  lemma NobodyIsUnindexed(workers: seq<Worker>, d: string)
    ensures (forall w :: w in workers ==> w.workerId != d) <==> d !in ById(workers)
  {
    KeysAre(workers);
    assert forall w :: w in workers ==> w.workerId in Ids(workers);
  }

  lemma DanglingIndexed(workers: seq<Worker>)
    ensures SomeDangling(workers) <==>
      exists w :: w in ById(workers) && exists i :: 0 <= i < |ById(workers)[w].dependencies| && ById(workers)[w].dependencies[i] !in ById(workers)
  {
    hide ById;
    var byId := ById(workers);
    if w :| w in byId && exists i :: 0 <= i < |byId[w].dependencies| && byId[w].dependencies[i] !in byId {
      var i :| 0 <= i < |byId[w].dependencies| && byId[w].dependencies[i] !in byId;
      var k := IndexedIsCounted(workers, w);
      NobodyIsUnindexed(workers, byId[w].dependencies[i]);
      assert byId[w].dependencies[i] in workers[k].dependencies;
    }
    if k: nat, d :| Counted(workers, k) && d in workers[k].dependencies && forall w :: w in workers ==> w.workerId != d {
      CountedIsIndexed(workers, k);
      NobodyIsUnindexed(workers, d);
      var i :| 0 <= i < |workers[k].dependencies| && workers[k].dependencies[i] == d;
      assert byId[workers[k].workerId].dependencies[i] == d;
    }
  }
}
