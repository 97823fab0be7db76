/** ToolRegistry: registration invariants and the greedy resolution of capability requirements. */
module Tools {
  import opened Ordering
  import opened Text

  datatype RiskLevel = Low | Medium | High

  datatype Capability = Capability(capabilityId: string, name: string, description: string)

  datatype Tool = Tool(
    toolId: string, name: string, description: string, riskLevel: RiskLevel,
    requiresApproval: bool, capabilities: seq<string>, available: bool)

  datatype RegistryError = InvalidCapability | InvalidTool | AlreadyRegistered | UnknownIdentifier | StillRequired | UnregisteredCapabilities

  datatype Validation = Validation(
    requestedTools: seq<string>, requestedCapabilities: seq<string>,
    resolved: seq<Tool>, missingTools: seq<string>, missingCapabilities: seq<string>)
  {
    predicate IsValid() { missingTools == [] && missingCapabilities == [] }
  }

  type Registered = map<string, Tool>

  function Provides(t: Tool): set<string> { set c | c in t.capabilities }

  predicate ValidCapability(c: Capability) { !Blank(c.capabilityId) && !Blank(c.name) && !Blank(c.description) }

  predicate ValidTool(t: Tool) {
    && !Blank(t.toolId) && !Blank(t.name) && !Blank(t.description)
    && NoRepeats(t.capabilities)
    && (forall i :: 0 <= i < |t.capabilities| ==> !Blank(t.capabilities[i]))
    && (t.riskLevel == High ==> t.requiresApproval)
  }

  predicate NoRepeats(s: seq<string>) { forall i, j :: 0 <= i < j < |s| ==> s[i] != s[j] }

  // What every history of registrations keeps.
  ghost predicate RegistryOk(tools: Registered, capabilities: set<string>) {
    forall id :: id in tools ==> tools[id].toolId == id && ValidTool(tools[id]) && Provides(tools[id]) <= capabilities
  }

  /** A registered tool of high risk needs a human, carries its own id, and provides known capabilities, each named once. */
  lemma RegisteredToolsAreSound(tools: Registered, capabilities: set<string>, id: string)
    requires RegistryOk(tools, capabilities) && id in tools
    ensures var t := tools[id];
      && t.toolId == id && !Blank(id) && !Blank(t.name) && !Blank(t.description) && (t.riskLevel == High ==> t.requiresApproval)
      && NoDuplicates(t.capabilities) && forall c :: c in t.capabilities ==> c in capabilities && !Blank(c)
  {
    var t := tools[id];
    assert ValidTool(t);
    hide Blank;
    forall c | c in t.capabilities ensures c in capabilities { assert c in Provides(t); }
  }

  // ----- The greedy choice -----

  function Gain(tools: Registered, remaining: set<string>, id: string): nat
    requires id in tools
  {
    |remaining * Provides(tools[id])|
  }

  // Tools are compared by what they cover of the remaining capabilities, and by id when they cover equally many.
  predicate AtLeastAsGood(tools: Registered, remaining: set<string>, a: string, b: string)
    requires a in tools && b in tools
  {
    Gain(tools, remaining, a) > Gain(tools, remaining, b) || (Gain(tools, remaining, a) == Gain(tools, remaining, b) && StringLe(b, a))
  }

  ghost predicate IsBest(tools: Registered, pool: set<string>, remaining: set<string>, id: string)
    requires pool <= tools.Keys
  {
    id in pool && forall x :: x in pool ==> AtLeastAsGood(tools, remaining, id, x)
  }

  lemma BestOfTwo(tools: Registered, remaining: set<string>, a: string, b: string, c: string)
    requires a in tools && b in tools && c in tools
    ensures AtLeastAsGood(tools, remaining, a, b) || AtLeastAsGood(tools, remaining, b, a)
    ensures AtLeastAsGood(tools, remaining, a, b) && AtLeastAsGood(tools, remaining, b, c) ==> AtLeastAsGood(tools, remaining, a, c)
    ensures AtLeastAsGood(tools, remaining, a, b) && AtLeastAsGood(tools, remaining, b, a) ==> a == b
    ensures AtLeastAsGood(tools, remaining, a, a)
  {
    StringLeTotal(a, b);
    StringLeTotal(a, a);
    if StringLe(c, b) && StringLe(b, a) { StringLeTransitive(c, b, a); }
  }

  lemma {:induction false} BestExists(tools: Registered, pool: set<string>, remaining: set<string>)
    requires pool != {} && pool <= tools.Keys
    ensures exists best :: IsBest(tools, pool, remaining, best)
    decreases pool
  {
    var x :| x in pool;
    BestOfTwo(tools, remaining, x, x, x);
    if pool == {x} {
      assert IsBest(tools, pool, remaining, x);
    } else {
      BestExists(tools, pool - {x}, remaining);
      var b :| IsBest(tools, pool - {x}, remaining, b);
      BestOfTwo(tools, remaining, x, b, b);
      var best := if AtLeastAsGood(tools, remaining, b, x) then b else x;
      forall y | y in pool ensures AtLeastAsGood(tools, remaining, best, y) {
        if y != x { BestOfTwo(tools, remaining, x, b, y); }
      }
      assert IsBest(tools, pool, remaining, best);
    }
  }

  lemma BestIsUnique(tools: Registered, pool: set<string>, remaining: set<string>, a: string, b: string)
    requires pool <= tools.Keys && IsBest(tools, pool, remaining, a) && IsBest(tools, pool, remaining, b)
    ensures a == b
  {
    BestOfTwo(tools, remaining, a, b, b);
  }

  ghost function Best(tools: Registered, pool: set<string>, remaining: set<string>): (best: string)
    requires pool != {} && pool <= tools.Keys
    ensures IsBest(tools, pool, remaining, best)
  {
    BestExists(tools, pool, remaining);
    var b :| IsBest(tools, pool, remaining, b);
    b
  }

  // The loop: candidates still in the pool, capabilities still uncovered.
  ghost predicate Stops(tools: Registered, pool: set<string>, remaining: set<string>)
    requires pool <= tools.Keys
  {
    remaining == {} || pool == {} || Gain(tools, remaining, Best(tools, pool, remaining)) == 0
  }

  ghost function Picks(tools: Registered, pool: set<string>, remaining: set<string>): seq<string>
    requires pool <= tools.Keys
    decreases |pool|
  {
    if Stops(tools, pool, remaining) then []
    else
      var b := Best(tools, pool, remaining);
      [b] + Picks(tools, pool - {b}, remaining - Provides(tools[b]))
  }

  ghost function Left(tools: Registered, pool: set<string>, remaining: set<string>): set<string>
    requires pool <= tools.Keys
    decreases |pool|
  {
    if Stops(tools, pool, remaining) then remaining
    else
      var b := Best(tools, pool, remaining);
      Left(tools, pool - {b}, remaining - Provides(tools[b]))
  }

  ghost predicate Providable(tools: Registered, pool: set<string>, c: string) {
    exists id :: id in pool && id in tools && c in Provides(tools[id])
  }

  // Greedy resolution is complete: what it leaves uncovered no candidate provides.
  lemma {:induction false} LeftIsUnprovidable(tools: Registered, pool: set<string>, remaining: set<string>, c: string)
    requires pool <= tools.Keys
    ensures c in Left(tools, pool, remaining) <==> c in remaining && !Providable(tools, pool, c)
    decreases |pool|
  {
    if Stops(tools, pool, remaining) {
      if c in remaining && pool != {} {
        var b := Best(tools, pool, remaining);
        forall id | id in pool ensures c !in Provides(tools[id]) {
          assert AtLeastAsGood(tools, remaining, b, id);
          assert remaining * Provides(tools[id]) == {};
          assert c !in remaining * Provides(tools[id]);
        }
      }
    } else {
      var b := Best(tools, pool, remaining);
      LeftIsUnprovidable(tools, pool - {b}, remaining - Provides(tools[b]), c);
    }
  }

  // The required capabilities that no pick provides.
  ghost function StillMissing(tools: Registered, remaining: set<string>, picks: seq<string>): set<string> {
    set c | c in remaining && forall p :: p in picks && p in tools ==> c !in tools[p].capabilities
  }

  // How many of these capabilities a tool provides.
  ghost function Covered(tools: Registered, wanted: set<string>, id: string): nat
    requires id in tools
  {
    |set c | c in wanted && c in tools[id].capabilities|
  }

  // Of all the candidates the best provides the most, and among equals it has the greatest id.
  lemma BestIsLargest(tools: Registered, pool: set<string>, remaining: set<string>, x: string)
    requires pool <= tools.Keys && x in pool
    ensures var b := Best(tools, pool, remaining);
      && b in pool && Covered(tools, remaining, x) <= Covered(tools, remaining, b)
      && (Covered(tools, remaining, x) == Covered(tools, remaining, b) ==> Precedes(x, b))
  {
    hide StringLe, Precedes;
    var b := Best(tools, pool, remaining);
    forall id | id in tools ensures Gain(tools, remaining, id) == Covered(tools, remaining, id) {
      assert remaining * Provides(tools[id]) == set c | c in remaining && c in tools[id].capabilities;
    }
    StringLeIsLexicographic(x, b);
    assert AtLeastAsGood(tools, remaining, b, x);
  }

  /** Each pick provides the most of what the earlier ones left, of all candidates not yet picked; the greatest id breaks a tie. */
  lemma {:induction false} EachPickIsTheLargest(tools: Registered, pool: set<string>, remaining: set<string>, i: nat, x: string)
    requires pool <= tools.Keys && i < |Picks(tools, pool, remaining)| && x in pool && x !in Picks(tools, pool, remaining)[..i]
    ensures var picks := Picks(tools, pool, remaining);
      var left := StillMissing(tools, remaining, picks[..i]);
      && picks[i] in tools && Covered(tools, left, x) <= Covered(tools, left, picks[i])
      && (Covered(tools, left, x) == Covered(tools, left, picks[i]) ==> Precedes(x, picks[i]))
    decreases i
  {
    hide Precedes, IsBest, Covered, Gain;
    var picks := Picks(tools, pool, remaining);
    var b := Best(tools, pool, remaining);
    BestIsCandidate(tools, pool, remaining, b);
    if i == 0 {
      assert StillMissing(tools, remaining, picks[..0]) == remaining;
      BestIsLargest(tools, pool, remaining, x);
    } else {
      var rest := Picks(tools, pool - {b}, remaining - Provides(tools[b]));
      assert picks[..i] == [b] + rest[..i - 1];
      assert x != b && x !in rest[..i - 1];
      EachPickIsTheLargest(tools, pool - {b}, remaining - Provides(tools[b]), i - 1, x);
      StillMissingAfterFirst(tools, remaining, b, rest[..i - 1]);
    }
  }

  lemma StillMissingAfterFirst(tools: Registered, remaining: set<string>, b: string, rest: seq<string>)
    requires b in tools
    ensures StillMissing(tools, remaining, [b] + rest) == StillMissing(tools, remaining - Provides(tools[b]), rest)
  {
  }

  // The i-th pick provides a missing capability that no earlier pick provides.
  ghost predicate Helps(tools: Registered, remaining: set<string>, picks: seq<string>, i: nat) {
    && i < |picks| && (forall j :: 0 <= j <= i ==> picks[j] in tools)
    && exists c :: c in remaining && c in Provides(tools[picks[i]]) && forall j :: 0 <= j < i ==> c !in Provides(tools[picks[j]])
  }

  lemma FirstPickHelps(tools: Registered, remaining: set<string>, b: string, rest: seq<string>)
    requires b in tools && Gain(tools, remaining, b) > 0
    ensures Helps(tools, remaining, [b] + rest, 0)
  {
    var c :| c in remaining * Provides(tools[b]);
  }

  lemma LaterPickHelps(tools: Registered, remaining: set<string>, b: string, rest: seq<string>, i: nat)
    requires b in tools && Helps(tools, remaining - Provides(tools[b]), rest, i)
    ensures Helps(tools, remaining, [b] + rest, i + 1)
  {
    var picks := [b] + rest;
    assert forall j :: 0 < j < |picks| ==> picks[j] == rest[j - 1];
    var c :| c in remaining - Provides(tools[b]) && c in Provides(tools[rest[i]]) && forall j :: 0 <= j < i ==> c !in Provides(tools[rest[j]]);
    assert c in Provides(tools[picks[i + 1]]);
  }

  // Every added tool is a candidate, none is added twice, and each covers something still uncovered.
  lemma {:induction false} EveryPickHelps(tools: Registered, pool: set<string>, remaining: set<string>)
    requires pool <= tools.Keys
    ensures var picks := Picks(tools, pool, remaining);
      && NoDuplicates(picks)
      && (forall id :: id in picks ==> id in pool)
      && (forall i :: 0 <= i < |picks| ==> Helps(tools, remaining, picks, i))
    decreases |pool|
  {
    hide Helps, IsBest, Gain;
    if !Stops(tools, pool, remaining) {
      var b := Best(tools, pool, remaining);
      BestIsCandidate(tools, pool, remaining, b);
      var left := remaining - Provides(tools[b]);
      var rest := Picks(tools, pool - {b}, left);
      EveryPickHelps(tools, pool - {b}, left);
      forall i | 0 <= i < |[b] + rest| ensures Helps(tools, remaining, [b] + rest, i) {
        if i == 0 { FirstPickHelps(tools, remaining, b, rest); } else { LaterPickHelps(tools, remaining, b, rest, i - 1); }
      }
    }
  }

  lemma BestIsCandidate(tools: Registered, pool: set<string>, remaining: set<string>, b: string)
    requires pool <= tools.Keys && IsBest(tools, pool, remaining, b)
    ensures b in pool
  {}

  // ----- The approximation bound -----

  ghost function Harmonic(n: nat): real { if n == 0 then 0.0 else Harmonic(n - 1) + 1.0 / n as real }

  ghost predicate Covers(tools: Registered, cover: set<string>, remaining: set<string>) {
    cover <= tools.Keys && forall c :: c in remaining ==> Providable(tools, cover, c)
  }

  lemma CoverWithout(tools: Registered, cover: set<string>, remaining: set<string>, t: string)
    requires Covers(tools, cover, remaining) && t in tools
    ensures Covers(tools, cover - {t}, remaining - Provides(tools[t]))
  {
    forall c | c in remaining - Provides(tools[t]) ensures Providable(tools, cover - {t}, c) {
      assert Providable(tools, cover, c);
      var id :| id in cover && id in tools && c in Provides(tools[id]);
      assert id in cover - {t};
    }
  }

  lemma GainShrinks(tools: Registered, remaining: set<string>, rest: set<string>, id: string)
    requires id in tools && rest <= remaining
    ensures Gain(tools, rest, id) <= Gain(tools, remaining, id)
  {
    SubsetSize(rest * Provides(tools[id]), remaining * Provides(tools[id]));
  }

  lemma SplitOff(tools: Registered, remaining: set<string>, t: string)
    requires t in tools
    ensures |remaining| == Gain(tools, remaining, t) + |remaining - Provides(tools[t])|
  {
    assert remaining == (remaining * Provides(tools[t])) + (remaining - Provides(tools[t]));
  }

  // If k tools cover r capabilities, one of them covers at least r / k of these.
  lemma {:induction false} CoverShares(tools: Registered, cover: set<string>, remaining: set<string>, g: nat)
    requires Covers(tools, cover, remaining)
    requires forall id :: id in cover ==> Gain(tools, remaining, id) <= g
    ensures |remaining| <= |cover| * g
    decreases |cover|
  {
    if cover == {} {
      assert forall c :: !Providable(tools, cover, c);
    } else {
      hide Covers, Gain;
      var t :| t in cover;
      assert t in tools by { CoverIsRegistered(tools, cover, remaining); }
      var rest := remaining - Provides(tools[t]);
      CoverWithout(tools, cover, remaining, t);
      CoverIsRegistered(tools, cover, remaining);
      forall id | id in cover - {t} ensures Gain(tools, rest, id) <= g { GainShrinks(tools, remaining, rest, id); }
      CoverShares(tools, cover - {t}, rest, g);
      SplitOff(tools, remaining, t);
      OneMoreShare(|cover - {t}|, |cover|, g);
    }
  }

  lemma OneMoreShare(k: nat, k': nat, g: nat)
    requires k' == k + 1
    ensures k' * g == k * g + g
  {}

  lemma CoverIsRegistered(tools: Registered, cover: set<string>, remaining: set<string>)
    requires Covers(tools, cover, remaining)
    ensures cover <= tools.Keys
  {}

  lemma {:induction false} SubsetSize(a: set<string>, b: set<string>)
    requires a <= b
    ensures |a| <= |b|
  {
    assert |b| == |a| + |b - a|;
  }

  lemma {:induction false} HarmonicGap(r: nat, g: nat)
    requires g <= r && r > 0
    ensures Harmonic(r) - Harmonic(r - g) >= g as real / r as real
    decreases g
  {
    if g > 0 {
      HarmonicGap(r, g - 1);
      assert 1.0 / (r - g + 1) as real >= 1.0 / r as real;
      assert (g - 1) as real / r as real + 1.0 / r as real == g as real / r as real;
    }
  }

  lemma OnePickPaysForItself(k: nat, r: nat, g: nat)
    requires 0 < g <= r <= k * g
    ensures 1.0 <= k as real * (Harmonic(r) - Harmonic(r - g))
  {
    HarmonicGap(r, g);
    var gap := Harmonic(r) - Harmonic(r - g);
    assert (k * g) as real == k as real * g as real;
    assert k as real * (g as real / r as real) == (k as real * g as real) / r as real;
    assert (k as real * g as real) / r as real >= 1.0;
    ScaleUp(k as real, g as real / r as real, gap);
  }

  lemma ScaleUp(k: real, a: real, b: real)
    requires k >= 0.0 && a <= b
    ensures k * a <= k * b
  {}

  // Tools outside the pool no longer help, so the cover still works through the pool.
  ghost predicate CoverInPool(tools: Registered, pool: set<string>, cover: set<string>, remaining: set<string>)
    requires pool <= tools.Keys
  {
    Covers(tools, cover, remaining) && forall id :: id in cover && id !in pool ==> remaining * Provides(tools[id]) == {}
  }

  // g is at least the k-th part of r.
  ghost predicate Share(r: nat, k: nat, g: nat) { r <= k * g }

  // A step with r capabilities to go removes at least r / k of them.
  lemma BestTakesItsShare(tools: Registered, pool: set<string>, cover: set<string>, remaining: set<string>)
    requires pool <= tools.Keys && CoverInPool(tools, pool, cover, remaining) && !Stops(tools, pool, remaining)
    ensures Share(|remaining|, |cover|, Gain(tools, remaining, Best(tools, pool, remaining)))
  {
    var b := Best(tools, pool, remaining);
    forall id | id in cover ensures Gain(tools, remaining, id) <= Gain(tools, remaining, b) {
      if id in pool { assert AtLeastAsGood(tools, remaining, b, id); }
    }
    CoverShares(tools, cover, remaining, Gain(tools, remaining, b));
  }

  lemma CoverSurvivesAPick(tools: Registered, pool: set<string>, cover: set<string>, remaining: set<string>, b: string)
    requires pool <= tools.Keys && CoverInPool(tools, pool, cover, remaining) && b in pool
    ensures CoverInPool(tools, pool - {b}, cover, remaining - Provides(tools[b]))
  {
    var rest := remaining - Provides(tools[b]);
    forall c | c in rest ensures Providable(tools, cover, c) { assert Providable(tools, cover, c); }
    forall id | id in cover && id !in pool - {b} ensures rest * Provides(tools[id]) == {} {
      if id != b { assert remaining * Provides(tools[id]) == {}; assert rest * Provides(tools[id]) <= remaining * Provides(tools[id]); }
    }
  }

  // k times the n-th harmonic number.
  ghost function Budget(k: nat, n: nat): real { k as real * Harmonic(n) }

  lemma OnePickWithinBudget(k: nat, r: nat, g: nat, rest: nat, picks: nat)
    requires 0 < g <= r && Share(r, k, g) && rest == r - g && picks as real <= Budget(k, rest)
    ensures (1 + picks) as real <= Budget(k, r)
  {
    OnePickPaysForItself(k, r, g);
    assert k as real * (Harmonic(r) - Harmonic(rest)) == Budget(k, r) - Budget(k, rest);
  }

  lemma NothingWithinBudget(k: nat, n: nat)
    ensures 0.0 <= Budget(k, n)
  {
    HarmonicIsNonNegative(n);
  }

  // If k candidates cover the n capabilities still missing, at most k times the n-th harmonic
  // number of tools is added.
  lemma {:induction false} GreedyBound(tools: Registered, pool: set<string>, cover: set<string>, remaining: set<string>)
    requires pool <= tools.Keys && CoverInPool(tools, pool, cover, remaining)
    ensures |Picks(tools, pool, remaining)| as real <= Budget(|cover|, |remaining|)
    decreases |pool|
  {
    hide CoverInPool, Harmonic, Gain, Budget, Share;
    NothingWithinBudget(|cover|, |remaining|);
    if !Stops(tools, pool, remaining) {
      var b := Best(tools, pool, remaining);
      var rest := remaining - Provides(tools[b]);
      BestTakesItsShare(tools, pool, cover, remaining);
      CoverSurvivesAPick(tools, pool, cover, remaining, b);
      GreedyBound(tools, pool - {b}, cover, rest);
      SplitOff(tools, remaining, b);
      OnePickWithinBudget(|cover|, |remaining|, Gain(tools, remaining, b), |rest|, |Picks(tools, pool - {b}, rest)|);
    }
  }

  lemma {:induction false} HarmonicIsNonNegative(n: nat)
    ensures Harmonic(n) >= 0.0
  {
    if n > 0 { HarmonicIsNonNegative(n - 1); }
  }
}
