/** Worker dependency graphs: chains, cycles and levels. */
module Graph {

  // Each worker's dependency list, repetitions included.
  type Deps = map<string, seq<string>>

  // Every dependency is a worker.
  ghost predicate Closed(g: Deps) {
    forall w, d :: w in g && d in g[w] ==> d in g
  }

  // c[0] depends on c[1], which depends on c[2], and so on.
  ghost predicate Chain(g: Deps, c: seq<string>) {
    && |c| > 0
    && (forall i :: 0 <= i < |c| ==> c[i] in g)
    && (forall i :: 0 <= i < |c| - 1 ==> c[i + 1] in g[c[i]])
  }

  ghost predicate ChainFrom(g: Deps, w: string, edges: nat, c: seq<string>) {
    Chain(g, c) && c[0] == w && |c| == edges + 1
  }

  ghost predicate HasChain(g: Deps, w: string, edges: nat) {
    exists c :: ChainFrom(g, w, edges, c)
  }

  ghost predicate IsCycle(g: Deps, c: seq<string>) {
    Chain(g, c) && |c| >= 2 && c[0] == c[|c| - 1]
  }

  ghost predicate Cyclic(g: Deps) {
    exists c :: IsCycle(g, c)
  }

  // Dependencies sit on strictly earlier levels, and one of them on the level just before.
  ghost predicate LevelOf(g: Deps, level: map<string, nat>, w: string)
    requires w in g && w in level
  {
    && (forall d :: d in g[w] ==> d in level && level[d] < level[w])
    && (level[w] > 0 ==> exists d :: d in g[w] && d in level && level[d] == level[w] - 1)
  }

  ghost predicate Levelled(g: Deps, level: map<string, nat>) {
    level.Keys == g.Keys && forall w :: w in g ==> LevelOf(g, level, w)
  }

  lemma {:induction false} ChainsDescend(g: Deps, level: map<string, nat>, c: seq<string>)
    requires Levelled(g, level) && Chain(g, c)
    ensures level[c[0]] >= level[c[|c| - 1]] + |c| - 1
  {
    if |c| > 1 { ChainsDescend(g, level, c[1..]); }
  }

  lemma {:induction false} LevelHasAChain(g: Deps, level: map<string, nat>, w: string)
    requires Levelled(g, level) && w in g
    ensures HasChain(g, w, level[w])
    decreases level[w]
  {
    if level[w] == 0 {
      assert ChainFrom(g, w, 0, [w]);
    } else {
      assert LevelOf(g, level, w);
      var d :| d in g[w] && d in level && level[d] == level[w] - 1;
      LevelHasAChain(g, level, d);
      var c :| ChainFrom(g, d, level[d], c);
      assert ChainFrom(g, w, level[w], [w] + c);
    }
  }

  // A worker is on level i exactly when its longest dependency chain has i edges.
  lemma LevelIsLongestChain(g: Deps, level: map<string, nat>, w: string, i: nat)
    requires Levelled(g, level) && w in g
    ensures level[w] == i <==> HasChain(g, w, i) && (forall j :: j > i ==> !HasChain(g, w, j))
  {
    LevelHasAChain(g, level, w);
    forall j: nat | HasChain(g, w, j) ensures j <= level[w] {
      var c :| ChainFrom(g, w, j, c);
      ChainsDescend(g, level, c);
    }
  }

  // No schedule that respects the dependencies puts a worker on an earlier level.
  lemma {:induction false} LevelsAreMinimal(g: Deps, level: map<string, nat>, schedule: map<string, nat>, w: string)
    requires Levelled(g, level) && w in g && schedule.Keys == g.Keys
    requires forall v, d :: v in g && d in g[v] ==> d in schedule && schedule[d] < schedule[v]
    ensures level[w] <= schedule[w]
    decreases level[w]
  {
    assert LevelOf(g, level, w);
    if level[w] > 0 {
      var d :| d in g[w] && d in level && level[d] == level[w] - 1;
      LevelsAreMinimal(g, level, schedule, d);
    }
  }

  lemma LevelledIsAcyclic(g: Deps, level: map<string, nat>)
    requires Levelled(g, level)
    ensures !Cyclic(g)
  {
    if c :| IsCycle(g, c) { ChainsDescend(g, level, c); }
  }

  // ----- A set in which everybody waits for somebody contains a cycle -----

  ghost predicate WaitsIn(g: Deps, u: set<string>, w: string) {
    w in g && exists d :: d in u && d in g[w]
  }

  ghost predicate Stuck(g: Deps, u: set<string>) {
    u != {} && forall w :: w in u ==> WaitsIn(g, u, w)
  }

  lemma ChainExtends(g: Deps, c: seq<string>, d: string)
    requires Chain(g, c) && d in g && d in g[c[|c| - 1]]
    ensures Chain(g, c + [d])
  {}

  lemma {:induction false} StuckHasLongChains(g: Deps, u: set<string>, n: nat) returns (c: seq<string>)
    requires Stuck(g, u)
    ensures Chain(g, c) && |c| == n + 1 && forall i :: 0 <= i < |c| ==> c[i] in u
  {
    if n == 0 {
      var w :| w in u;
      assert WaitsIn(g, u, w);
      c := [w];
    } else {
      var b := StuckHasLongChains(g, u, n - 1);
      var last := b[|b| - 1];
      assert WaitsIn(g, u, last);
      var d :| d in u && d in g[last];
      assert WaitsIn(g, u, d);
      ChainExtends(g, b, d);
      c := b + [d];
    }
  }

  lemma {:induction false} Pigeonhole(s: seq<string>, u: set<string>)
    requires forall i :: 0 <= i < |s| ==> s[i] in u
    requires forall i, j :: 0 <= i < j < |s| ==> s[i] != s[j]
    ensures |s| <= |u|
  {
    if s != [] { Pigeonhole(s[1..], u - {s[0]}); }
  }

  lemma RepetitionIsACycle(g: Deps, c: seq<string>, i: nat, j: nat)
    requires Chain(g, c) && i < j < |c| && c[i] == c[j]
    ensures Cyclic(g)
  {
    assert IsCycle(g, c[i..j + 1]);
  }

  lemma StuckIsCyclic(g: Deps, u: set<string>)
    requires Stuck(g, u)
    ensures Cyclic(g)
  {
    var c := StuckHasLongChains(g, u, |u|);
    hide Stuck, Cyclic, Chain;
    if forall i, j :: 0 <= i < j < |c| ==> c[i] != c[j] {
      Pigeonhole(c, u);
    } else {
      var i, j :| 0 <= i < j < |c| && c[i] == c[j];
      RepetitionIsACycle(g, c, i, j);
    }
  }
}
