/** The registry object: registration history and ToolRegistry.validate_requirements. */
module ToolRegistries {
  import opened Wrappers
  import opened Ordering
  import opened Tools

  predicate Usable(tools: Registered, id: string, availableOnly: bool) {
    id in tools && (!availableOnly || tools[id].available)
  }

  function Candidates(tools: Registered, availableOnly: bool): set<string> {
    set id | id in tools && Usable(tools, id, availableOnly)
  }

  function Explicit(tools: Registered, ids: seq<string>, availableOnly: bool): seq<string> {
    Keep(ids, id => Usable(tools, id, availableOnly))
  }

  function Missing(tools: Registered, ids: seq<string>, availableOnly: bool): seq<string> {
    Keep(ids, id => !Usable(tools, id, availableOnly))
  }

  function Elements(s: seq<string>): set<string> { set x | x in s }

  function Union(tools: Registered, ids: seq<string>): set<string> {
    set id, c | id in ids && id in tools && c in tools[id].capabilities :: c
  }

  // The tools that the loop adds to the explicitly requested ones.
  ghost function Added(tools: Registered, capabilities: set<string>, explicit: seq<string>,
      requested: seq<string>, availableOnly: bool): seq<string> {
    if requested != [] && Elements(requested) <= capabilities
    then Picks(tools, Candidates(tools, availableOnly) - Elements(explicit), Elements(requested) - Union(tools, explicit))
    else []
  }

  ghost function ResolvedIds(tools: Registered, capabilities: set<string>, ids: seq<string>,
      requested: seq<string>, availableOnly: bool): seq<string> {
    var explicit := Explicit(tools, ids, availableOnly);
    explicit + Added(tools, capabilities, explicit, requested, availableOnly)
  }

  ghost predicate AreTools(listed: seq<Tool>, ids: seq<string>, tools: Registered) {
    |listed| == |ids| && forall i :: 0 <= i < |ids| ==> ids[i] in tools && listed[i] == tools[ids[i]]
  }

  predicate Uncovered(c: string, capabilities: set<string>, covered: set<string>) { c !in capabilities || c !in covered }

  function Unmet(requested: seq<string>, capabilities: set<string>, covered: set<string>): seq<string> {
    Keep(requested, c => Uncovered(c, capabilities, covered))
  }

  ghost predicate Resolution(v: Validation, tools: Registered, capabilities: set<string>,
      requiredTools: seq<string>, requiredCapabilities: seq<string>, availableOnly: bool) {
    var ids := Distinct(requiredTools);
    var requested := Distinct(requiredCapabilities);
    var resolved := ResolvedIds(tools, capabilities, ids, requested, availableOnly);
    && v.requestedTools == ids && v.requestedCapabilities == requested
    && AreTools(v.resolved, SortStrings(resolved), tools)
    && v.missingTools == SortStrings(Missing(tools, ids, availableOnly))
    && v.missingCapabilities == SortStrings(Unmet(requested, capabilities, Union(tools, resolved)))
  }

  // ----- What a resolution guarantees -----

  lemma ExplicitAreUsable(tools: Registered, ids: seq<string>, availableOnly: bool)
    ensures forall id :: id in Explicit(tools, ids, availableOnly) <==> id in ids && Usable(tools, id, availableOnly)
    ensures forall id :: id in Missing(tools, ids, availableOnly) <==> id in ids && !Usable(tools, id, availableOnly)
    ensures NoDuplicates(ids) ==> NoDuplicates(Explicit(tools, ids, availableOnly))
  {
    KeepElements(ids, id => Usable(tools, id, availableOnly));
    KeepElements(ids, id => !Usable(tools, id, availableOnly));
  }

  lemma {:induction false} LeftIsUncovered(tools: Registered, pool: set<string>, remaining: set<string>, c: string)
    requires pool <= tools.Keys
    ensures c in Left(tools, pool, remaining) <==> c in remaining && forall id :: id in Picks(tools, pool, remaining) ==> id in tools && c !in Provides(tools[id])
    decreases |pool|
  {
    if !Stops(tools, pool, remaining) {
      var b := Best(tools, pool, remaining);
      LeftIsUncovered(tools, pool - {b}, remaining - Provides(tools[b]), c);
      EveryPickHelps(tools, pool - {b}, remaining - Provides(tools[b]));
    }
  }

  lemma AddedAreUsable(tools: Registered, capabilities: set<string>, explicit: seq<string>, requested: seq<string>, availableOnly: bool)
    ensures forall id :: id in Added(tools, capabilities, explicit, requested, availableOnly) ==> Usable(tools, id, availableOnly) && id !in explicit
    ensures NoDuplicates(Added(tools, capabilities, explicit, requested, availableOnly))
  {
    EveryPickHelps(tools, Candidates(tools, availableOnly) - Elements(explicit), Elements(requested) - Union(tools, explicit));
  }

  // A requested capability that some candidate provides is covered by an explicit or an added tool.
  lemma ProvidableIsCovered(tools: Registered, capabilities: set<string>, explicit: seq<string>,
      requested: seq<string>, availableOnly: bool, c: string)
    requires c in requested && Elements(requested) <= capabilities && Providable(tools, Candidates(tools, availableOnly), c)
    ensures c in Union(tools, explicit + Added(tools, capabilities, explicit, requested, availableOnly))
  {
    var pool := Candidates(tools, availableOnly) - Elements(explicit);
    var remaining := Elements(requested) - Union(tools, explicit);
    var added := Added(tools, capabilities, explicit, requested, availableOnly);
    var id :| id in Candidates(tools, availableOnly) && id in tools && c in Provides(tools[id]);
    if c in Union(tools, explicit) {
      var e :| e in explicit && e in tools && c in tools[e].capabilities;
      assert e in explicit + added;
    } else {
      assert id in pool && c in remaining && Providable(tools, pool, c);
      LeftIsUnprovidable(tools, pool, remaining, c);
      LeftIsUncovered(tools, pool, remaining, c);
      EveryPickHelps(tools, pool, remaining);
      var p :| p in added && c in Provides(tools[p]);
      assert p in explicit + added;
    }
  }

  lemma CoveredIsProvidable(tools: Registered, ids: seq<string>, availableOnly: bool, c: string)
    requires (forall id :: id in ids ==> Usable(tools, id, availableOnly)) && c in Union(tools, ids)
    ensures Providable(tools, Candidates(tools, availableOnly), c)
  {
    var id :| id in ids && id in tools && c in tools[id].capabilities;
    assert id in Candidates(tools, availableOnly) && c in Provides(tools[id]);
  }

  lemma SortedIsEmpty(s: seq<string>)
    ensures SortStrings(s) == [] <==> forall x :: x !in s
  {
    SortElements(StringLe, s);
    if s != [] { assert s[0] in s; }
  }

  lemma ResolvedAreUsable(tools: Registered, capabilities: set<string>, ids: seq<string>, requested: seq<string>, availableOnly: bool)
    requires NoDuplicates(ids)
    ensures forall id :: id in ResolvedIds(tools, capabilities, ids, requested, availableOnly) ==> Usable(tools, id, availableOnly)
    ensures NoDuplicates(ResolvedIds(tools, capabilities, ids, requested, availableOnly))
  {
    var explicit := Explicit(tools, ids, availableOnly);
    var added := Added(tools, capabilities, explicit, requested, availableOnly);
    ExplicitAreUsable(tools, ids, availableOnly);
    AddedAreUsable(tools, capabilities, explicit, requested, availableOnly);
    hide Added, Explicit;
    var resolved := explicit + added;
    forall i, j | 0 <= i < j < |resolved| ensures resolved[i] != resolved[j] {
      if i < |explicit| <= j { assert resolved[i] in explicit && resolved[j] in added; }
    }
  }

  lemma ToolsMissing(tools: Registered, requiredTools: seq<string>, availableOnly: bool)
    ensures SortStrings(Missing(tools, Distinct(requiredTools), availableOnly)) == [] <==>
      forall id :: id in requiredTools ==> Usable(tools, id, availableOnly)
  {
    DistinctElements(requiredTools);
    ExplicitAreUsable(tools, Distinct(requiredTools), availableOnly);
    SortedIsEmpty(Missing(tools, Distinct(requiredTools), availableOnly));
  }

  lemma CapabilitiesMissing(tools: Registered, capabilities: set<string>, ids: seq<string>, requested: seq<string>, availableOnly: bool)
    requires RegistryOk(tools, capabilities) && NoDuplicates(ids)
    ensures SortStrings(Unmet(requested, capabilities, Union(tools, ResolvedIds(tools, capabilities, ids, requested, availableOnly)))) == [] <==>
      forall c :: c in requested ==> Providable(tools, Candidates(tools, availableOnly), c)
  {
    var resolved := ResolvedIds(tools, capabilities, ids, requested, availableOnly);
    var covered := Union(tools, resolved);
    var candidates := Candidates(tools, availableOnly);
    ResolvedAreUsable(tools, capabilities, ids, requested, availableOnly);
    SortedIsEmpty(Unmet(requested, capabilities, covered));
    KeepElements(requested, c => Uncovered(c, capabilities, covered));
    assert forall c :: c in Unmet(requested, capabilities, covered) <==> c in requested && Uncovered(c, capabilities, covered);
    forall c | c in requested && !Uncovered(c, capabilities, covered) ensures Providable(tools, candidates, c) {
      CoveredIsProvidable(tools, resolved, availableOnly, c);
    }
    forall c | c in requested && Providable(tools, candidates, c) ensures c in capabilities {}
    if forall c :: c in requested ==> Providable(tools, candidates, c) {
      forall c | c in requested ensures !Uncovered(c, capabilities, covered) {
        ProvidableIsCovered(tools, capabilities, Explicit(tools, ids, availableOnly), requested, availableOnly, c);
      }
    }
  }

  // The resolution is valid exactly when every requested tool is usable and every requested
  // capability is provided by some usable tool.
  lemma ResolutionIsExact(v: Validation, tools: Registered, capabilities: set<string>, requiredTools: seq<string>,
      requiredCapabilities: seq<string>, availableOnly: bool)
    requires RegistryOk(tools, capabilities)
    requires Resolution(v, tools, capabilities, requiredTools, requiredCapabilities, availableOnly)
    ensures v.IsValid() <==>
      && (forall id :: id in requiredTools ==> Usable(tools, id, availableOnly))
      && (forall c :: c in requiredCapabilities ==> Providable(tools, Candidates(tools, availableOnly), c))
  {
    DistinctElements(requiredTools);
    DistinctElements(requiredCapabilities);
    hide SortStrings, Missing, Unmet, Union, ResolvedIds, Providable, Usable, Candidates, RegistryOk, AreTools;
    ToolsMissing(tools, requiredTools, availableOnly);
    CapabilitiesMissing(tools, capabilities, Distinct(requiredTools), Distinct(requiredCapabilities), availableOnly);
  }

  // Resolved tools are usable, registered under their own ids, and never repeated.
  lemma ResolvedAreDistinct(v: Validation, tools: Registered, capabilities: set<string>,
      requiredTools: seq<string>, requiredCapabilities: seq<string>, availableOnly: bool)
    requires RegistryOk(tools, capabilities)
    requires Resolution(v, tools, capabilities, requiredTools, requiredCapabilities, availableOnly)
    ensures forall i, j :: 0 <= i < j < |v.resolved| ==> v.resolved[i].toolId != v.resolved[j].toolId
    ensures forall i :: 0 <= i < |v.resolved| ==> Usable(tools, v.resolved[i].toolId, availableOnly) && tools[v.resolved[i].toolId] == v.resolved[i]
  {
    DistinctElements(requiredTools);
    var resolved := ResolvedIds(tools, capabilities, Distinct(requiredTools), Distinct(requiredCapabilities), availableOnly);
    ResolvedAreUsable(tools, capabilities, Distinct(requiredTools), Distinct(requiredCapabilities), availableOnly);
    SortKeepsNoDuplicates(StringLe, resolved);
    hide ResolvedIds;
    var ids := SortStrings(resolved);
    forall i | 0 <= i < |v.resolved| ensures v.resolved[i].toolId == ids[i] && Usable(tools, ids[i], availableOnly) {
      assert ids[i] in ids;
    }
  }

  // The list holds exactly the items with the property, each once, in order.
  ghost predicate ListsOnce(s: seq<string>, p: string -> bool) {
    && NoDuplicates(s) && (forall x :: x in s <==> p(x))
    && forall i, j :: 0 <= i < j < |s| ==> Precedes(s[i], s[j])
  }

  lemma SortedOnceEach(s: seq<string>, p: string -> bool)
    requires NoDuplicates(s) && forall x :: x in s <==> p(x)
    ensures ListsOnce(SortStrings(s), p)
  {
    hide Precedes, StringLe;
    SortKeepsNoDuplicates(StringLe, s);
    StringLeIsTotalOrder();
    SortSorted(StringLe, s);
    var t := SortStrings(s);
    forall i, j | 0 <= i < j < |t| ensures Precedes(t[i], t[j]) { StringLeIsLexicographic(t[i], t[j]); }
  }

  // The tool is registered and, where that matters, available.
  ghost predicate CanServe(tools: Registered, id: string, availableOnly: bool) {
    id in tools && (availableOnly ==> tools[id].available)
  }

  lemma MissingAreTold(tools: Registered, requiredTools: seq<string>, availableOnly: bool)
    ensures ListsOnce(SortStrings(Missing(tools, Distinct(requiredTools), availableOnly)),
                      id => id in requiredTools && !CanServe(tools, id, availableOnly))
  {
    hide ListsOnce;
    DistinctElements(requiredTools);
    ExplicitAreUsable(tools, Distinct(requiredTools), availableOnly);
    KeepElements(Distinct(requiredTools), id => !Usable(tools, id, availableOnly));
    SortedOnceEach(Missing(tools, Distinct(requiredTools), availableOnly), id => id in requiredTools && !CanServe(tools, id, availableOnly));
  }

  lemma UnmetAreTold(tools: Registered, capabilities: set<string>, resolved: seq<string>, requiredCapabilities: seq<string>)
    ensures ListsOnce(SortStrings(Unmet(Distinct(requiredCapabilities), capabilities, Union(tools, resolved))),
                      c => c in requiredCapabilities && (c !in capabilities || forall id :: id in resolved && id in tools ==> c !in tools[id].capabilities))
  {
    hide ListsOnce;
    var covered := Union(tools, resolved);
    DistinctElements(requiredCapabilities);
    KeepElements(Distinct(requiredCapabilities), c => Uncovered(c, capabilities, covered));
    SortedOnceEach(Unmet(Distinct(requiredCapabilities), capabilities, covered),
                   c => c in requiredCapabilities && (c !in capabilities || forall id :: id in resolved && id in tools ==> c !in tools[id].capabilities));
  }

  // Beside the requested tools that can serve there are only tools that can serve and provide a requested capability,
  // and those only when every requested capability is known.
  lemma ResolvedIdsAreTold(tools: Registered, capabilities: set<string>, requiredTools: seq<string>, requiredCapabilities: seq<string>, availableOnly: bool, id: string)
    requires RegistryOk(tools, capabilities)
    ensures var resolved := ResolvedIds(tools, capabilities, Distinct(requiredTools), Distinct(requiredCapabilities), availableOnly);
      && (id in requiredTools ==> (id in resolved <==> CanServe(tools, id, availableOnly)))
      && (id !in requiredTools && id in resolved ==>
            && CanServe(tools, id, availableOnly)
            && (forall c :: c in requiredCapabilities ==> c in capabilities)
            && exists c :: c in requiredCapabilities && c in tools[id].capabilities)
  {
    DistinctElements(requiredTools);
    DistinctElements(requiredCapabilities);
    var ids, requested := Distinct(requiredTools), Distinct(requiredCapabilities);
    ExplicitAreUsable(tools, ids, availableOnly);
    ResolvedAreUsable(tools, capabilities, ids, requested, availableOnly);
    var explicit := Explicit(tools, ids, availableOnly);
    var pool, remaining := Candidates(tools, availableOnly) - Elements(explicit), Elements(requested) - Union(tools, explicit);
    var added := Added(tools, capabilities, explicit, requested, availableOnly);
    if id !in requiredTools && id in explicit + added {
      hide Explicit, Picks, Candidates, Union;
      assert id in added && id in Picks(tools, pool, remaining);
      EveryPickHelps(tools, pool, remaining);
      var i :| 0 <= i < |Picks(tools, pool, remaining)| && Picks(tools, pool, remaining)[i] == id;
      assert Helps(tools, remaining, Picks(tools, pool, remaining), i);
      assert forall c :: c in requiredCapabilities ==> c in Elements(requested);
    }
  }

  lemma ListsAlike(s: seq<string>, p: string -> bool, q: string -> bool)
    requires ListsOnce(s, p) && forall x :: p(x) == q(x)
    ensures ListsOnce(s, q)
  {
    hide Precedes;
  }

  lemma ResolvedAreTold(listed: seq<Tool>, tools: Registered, capabilities: set<string>, resolved: seq<string>)
    requires RegistryOk(tools, capabilities) && NoDuplicates(resolved) && AreTools(listed, SortStrings(resolved), tools)
    ensures forall i, j :: 0 <= i < j < |listed| ==> Precedes(listed[i].toolId, listed[j].toolId)
    ensures forall t :: t in listed <==> t.toolId in resolved && t.toolId in tools && tools[t.toolId] == t
    ensures forall id :: id in resolved ==> id in tools && tools[id] in listed
  {
    hide Precedes, SortStrings, ListsOnce;
    var ids := SortStrings(resolved);
    SortedOnceEach(resolved, id => id in resolved);
    ListedOnce(ids, id => id in resolved);
    assert forall i :: 0 <= i < |ids| ==> listed[i].toolId == ids[i];
    forall id | id in resolved ensures id in tools && tools[id] in listed {
      var i :| 0 <= i < |ids| && ids[i] == id;
    }
    forall t | t in listed ensures t.toolId in resolved && t.toolId in tools && tools[t.toolId] == t {
      var i :| 0 <= i < |listed| && listed[i] == t;
      assert ids[i] in ids;
    }
  }

  lemma ListedOnce(s: seq<string>, p: string -> bool)
    requires ListsOnce(s, p)
    ensures (forall x :: x in s <==> p(x)) && forall i, j :: 0 <= i < j < |s| ==> Precedes(s[i], s[j])
  {
    hide Precedes;
  }

  /**
   Everything a resolution answers, told from the registry and the request: what was asked for, each item once; the tools that
   are not there or not available; the capabilities that are unknown or that no resolved tool provides; and the resolved tools,
   which are the requested ones that can serve and, only if every requested capability is known, others that provide one.
   Each list is in order.
   */
  lemma ResolutionIsTold(v: Validation, tools: Registered, capabilities: set<string>, requiredTools: seq<string>,
      requiredCapabilities: seq<string>, availableOnly: bool)
    requires RegistryOk(tools, capabilities)
    requires Resolution(v, tools, capabilities, requiredTools, requiredCapabilities, availableOnly)
    ensures NoDuplicates(v.requestedTools) && forall x :: x in v.requestedTools <==> x in requiredTools
    ensures NoDuplicates(v.requestedCapabilities) && forall x :: x in v.requestedCapabilities <==> x in requiredCapabilities
    ensures ListsOnce(v.missingTools, id => id in requiredTools && !CanServe(tools, id, availableOnly))
    ensures ListsOnce(v.missingCapabilities,
      c => c in requiredCapabilities && (c !in capabilities || forall t :: t in v.resolved ==> c !in t.capabilities))
    ensures forall i, j :: 0 <= i < j < |v.resolved| ==> Precedes(v.resolved[i].toolId, v.resolved[j].toolId)
    ensures forall id :: id in requiredTools && CanServe(tools, id, availableOnly) ==> tools[id] in v.resolved
    ensures forall t :: t in v.resolved ==>
      && CanServe(tools, t.toolId, availableOnly) && tools[t.toolId] == t
      && (t.toolId in requiredTools
          || ((forall c :: c in requiredCapabilities ==> c in capabilities) && exists c :: c in requiredCapabilities && c in t.capabilities))
  {
    DistinctElements(requiredTools);
    DistinctElements(requiredCapabilities);
    var resolved := ResolvedIds(tools, capabilities, Distinct(requiredTools), Distinct(requiredCapabilities), availableOnly);
    hide ListsOnce, Precedes, SortStrings, ResolvedIds, Missing, Unmet, Union, Distinct, RegistryOk;
    MissingAreTold(tools, requiredTools, availableOnly);
    UnmetAreTold(tools, capabilities, resolved, requiredCapabilities);
    ResolvedAreUsable(tools, capabilities, Distinct(requiredTools), Distinct(requiredCapabilities), availableOnly);
    hide AreTools, Usable, NoDuplicates;
    ResolvedAreTold(v.resolved, tools, capabilities, resolved);
    var p := (c: string) =>
      c in requiredCapabilities && (c !in capabilities || forall id :: id in resolved && id in tools ==> c !in tools[id].capabilities);
    var q := (c: string) => c in requiredCapabilities && (c !in capabilities || forall t :: t in v.resolved ==> c !in t.capabilities);
    forall c ensures p(c) == q(c) { NothingElseProvides(v.resolved, tools, resolved, c); }
    ListsAlike(v.missingCapabilities, p, q);
    forall id ensures
      && (id in requiredTools ==> (id in resolved <==> CanServe(tools, id, availableOnly)))
      && (id !in requiredTools && id in resolved ==>
            && CanServe(tools, id, availableOnly)
            && (forall c :: c in requiredCapabilities ==> c in capabilities)
            && exists c :: c in requiredCapabilities && c in tools[id].capabilities)
    {
      ResolvedIdsAreTold(tools, capabilities, requiredTools, requiredCapabilities, availableOnly, id);
    }
    hide CanServe;
  }

  lemma NothingElseProvides(listed: seq<Tool>, tools: Registered, resolved: seq<string>, c: string)
    requires forall t :: t in listed <==> t.toolId in resolved && t.toolId in tools && tools[t.toolId] == t
    requires forall id :: id in resolved ==> id in tools && tools[id] in listed
    ensures (forall id :: id in resolved && id in tools ==> c !in tools[id].capabilities) <==> (forall t :: t in listed ==> c !in t.capabilities)
  {
  }

  // If k usable tools cover the n requested capabilities that the explicit tools leave open,
  // the loop adds at most k times the n-th harmonic number of tools.
  lemma AddedToolsAreFew(tools: Registered, capabilities: set<string>, explicit: seq<string>,
      requested: seq<string>, availableOnly: bool, cover: set<string>)
    requires cover <= Candidates(tools, availableOnly)
    requires Covers(tools, cover, Elements(requested) - Union(tools, explicit))
    ensures |Added(tools, capabilities, explicit, requested, availableOnly)| as real
      <= Budget(|cover|, |Elements(requested) - Union(tools, explicit)|)
  {
    var pool := Candidates(tools, availableOnly) - Elements(explicit);
    var remaining := Elements(requested) - Union(tools, explicit);
    forall id | id in cover && id !in pool ensures remaining * Provides(tools[id]) == {} {
      forall c | c in Provides(tools[id]) ensures c in Union(tools, explicit) { assert id in explicit; }
    }
    assert CoverInPool(tools, pool, cover, remaining);
    hide CoverInPool, Covers, Budget, Picks;
    GreedyBound(tools, pool, cover, remaining);
    NothingWithinBudget(|cover|, |remaining|);
  }

  // ----- The object -----

  class ToolRegistry {
    var capabilities: map<string, Capability>
    var tools: Registered

    ghost predicate Valid()
      reads this
    {
      RegistryOk(tools, capabilities.Keys)
    }

    constructor ()
      ensures Valid() && capabilities == map[] && tools == map[]
    {
      capabilities, tools := map[], map[];
    }

    method RegisterCapability(c: Capability) returns (error: Option<RegistryError>)
      requires Valid()
      modifies this`capabilities
      ensures Valid()
      ensures error == (if !ValidCapability(c) then Some(InvalidCapability)
                        else if c.capabilityId in old(capabilities) then Some(AlreadyRegistered) else None)
      ensures capabilities == if error.None? then old(capabilities)[c.capabilityId := c] else old(capabilities)
    {
      if !ValidCapability(c) { return Some(InvalidCapability); }
      if c.capabilityId in capabilities { return Some(AlreadyRegistered); }
      capabilities := capabilities[c.capabilityId := c];
      error := None;
    }

    method UnregisterCapability(id: string) returns (error: Option<RegistryError>)
      requires Valid()
      modifies this`capabilities
      ensures Valid()
      ensures error == (if id !in old(capabilities) then Some(UnknownIdentifier)
                        else if exists t :: t in tools && id in Provides(tools[t]) then Some(StillRequired) else None)
      ensures capabilities == if error.None? then old(capabilities) - {id} else old(capabilities)
    {
      if id !in capabilities { return Some(UnknownIdentifier); }
      if exists t :: t in tools && id in Provides(tools[t]) { return Some(StillRequired); }
      capabilities := capabilities - {id};
      error := None;
    }

    method RegisterTool(t: Tool) returns (error: Option<RegistryError>)
      requires Valid()
      modifies this`tools
      ensures Valid()
      ensures error == (if !ValidTool(t) then Some(InvalidTool)
                        else if t.toolId in old(tools) then Some(AlreadyRegistered)
                        else if !(Provides(t) <= capabilities.Keys) then Some(UnregisteredCapabilities) else None)
      ensures tools == if error.None? then old(tools)[t.toolId := t] else old(tools)
    {
      if !ValidTool(t) { return Some(InvalidTool); }
      if t.toolId in tools { return Some(AlreadyRegistered); }
      if !(Provides(t) <= capabilities.Keys) { return Some(UnregisteredCapabilities); }
      tools := tools[t.toolId := t];
      error := None;
    }

    method UnregisterTool(id: string) returns (error: Option<RegistryError>)
      requires Valid()
      modifies this`tools
      ensures Valid()
      ensures error == if id in old(tools) then None else Some(UnknownIdentifier)
      ensures tools == if error.None? then old(tools) - {id} else old(tools)
    {
      if id !in tools { return Some(UnknownIdentifier); }
      tools := tools - {id};
      error := None;
    }

    // max(candidates not yet resolved, key=...)
    method FindBest(pool: set<string>, remaining: set<string>) returns (best: string)
      requires pool != {} && pool <= tools.Keys
      ensures best == Best(tools, pool, remaining)
    {
      best :| best in pool;
      var rest := pool - {best};
      BestOfTwo(tools, remaining, best, best, best);
      while rest != {}
        invariant rest <= pool && best in pool
        invariant forall x :: x in pool && x !in rest ==> AtLeastAsGood(tools, remaining, best, x)
        decreases rest
      {
        hide AtLeastAsGood;
        var x :| x in rest;
        ghost var was := best;
        BestOfTwo(tools, remaining, best, x, x);
        BestOfTwo(tools, remaining, x, x, x);
        if !AtLeastAsGood(tools, remaining, best, x) { best := x; }
        forall y | y in pool && y !in rest ensures AtLeastAsGood(tools, remaining, best, y) { BestOfTwo(tools, remaining, best, was, y); }
        rest := rest - {x};
      }
      BestIsUnique(tools, pool, remaining, best, Best(tools, pool, remaining));
    }

    // while not requested <= covered: add the best remaining candidate
    method Cover(explicit: seq<string>, requested: set<string>, availableOnly: bool) returns (resolved: seq<string>)
      ensures resolved == explicit + Picks(tools, Candidates(tools, availableOnly) - Elements(explicit), requested - Union(tools, explicit))
    {
      resolved := explicit;
      var covered := Union(tools, explicit);
      var pool := Candidates(tools, availableOnly) - Elements(explicit);
      ghost var all := Picks(tools, pool, requested - covered);
      while !(requested <= covered)
        invariant pool <= tools.Keys
        invariant explicit + all == resolved + Picks(tools, pool, requested - covered)
        decreases pool
      {
        var remaining := requested - covered;
        if pool == {} { return; }
        var best := FindBest(pool, remaining);
        if remaining * Provides(tools[best]) == {} { return; }
        resolved := resolved + [best];
        assert requested - (covered + Provides(tools[best])) == remaining - Provides(tools[best]);
        covered := covered + Provides(tools[best]);
        pool := pool - {best};
      }
    }

    method SplitRequested(ids: seq<string>, availableOnly: bool) returns (explicit: seq<string>, missing: seq<string>)
      ensures explicit == Explicit(tools, ids, availableOnly) && missing == Missing(tools, ids, availableOnly)
    {
      explicit, missing := [], [];
      for i := 0 to |ids|
        invariant explicit == Explicit(tools, ids[..i], availableOnly) && missing == Missing(tools, ids[..i], availableOnly)
      {
        assert ids[..i + 1][..i] == ids[..i];
        if Usable(tools, ids[i], availableOnly) { explicit := explicit + [ids[i]]; } else { missing := missing + [ids[i]]; }
      }
      assert ids[..|ids|] == ids;
    }

    // The resolved tools, sorted by their ids.
    method ListTools(ids: seq<string>) returns (listed: seq<Tool>)
      requires forall id :: id in ids ==> id in tools
      ensures AreTools(listed, SortStrings(ids), tools)
    {
      SortElements(StringLe, ids);
      var sorted := SortStrings(ids);
      listed := [];
      for i := 0 to |sorted|
        invariant |listed| == i && forall k :: 0 <= k < i ==> sorted[k] in tools && listed[k] == tools[sorted[k]]
      {
        assert sorted[i] in multiset(sorted);
        listed := listed + [tools[sorted[i]]];
      }
    }

    method ValidateRequirements(requiredTools: seq<string>, requiredCapabilities: seq<string>, availableOnly: bool) returns (v: Validation)
      requires Valid()
      ensures Resolution(v, tools, capabilities.Keys, requiredTools, requiredCapabilities, availableOnly)
    {
      hide AreTools, SortStrings, Missing, Unmet, Explicit, Picks, Candidates;
      var ids := Distinct(requiredTools);
      var requested := Distinct(requiredCapabilities);
      DistinctElements(requiredTools);
      var explicit, missing := SplitRequested(ids, availableOnly);
      var resolved := explicit;
      if requested != [] && Elements(requested) <= capabilities.Keys {
        resolved := Cover(explicit, Elements(requested), availableOnly);
      }
      assert resolved == ResolvedIds(tools, capabilities.Keys, ids, requested, availableOnly);
      ResolvedAreUsable(tools, capabilities.Keys, ids, requested, availableOnly);
      var listed := ListTools(resolved);
      v := Validation(ids, requested, listed, SortStrings(missing),
                      SortStrings(Unmet(requested, capabilities.Keys, Union(tools, resolved))));
    }
  }
}
