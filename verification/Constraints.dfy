/** Finite constraint models, partial pruning, and their decomposition into components (residual/cic.py). */
module Constraints {
  import opened Basics
  import opened Elimination
  import opened Components

  datatype Sum = Sum(keys: seq<Name>, equals: int)

  datatype Model = Model(
    domains: map<Name, seq<int>>,
    different: seq<(Name, Name)>,
    lessThan: seq<(Name, Name)>,
    sums: seq<Sum>)

  type Assignment = map<Name, int>

  // ---------------------------------------------------------------- validate_model

  predicate Within(v: int, bound: int) {
    -bound <= v <= bound
  }

  predicate ValidDomain(d: seq<int>) {
    1 <= |d| <= 64 && Distinct(d) && forall v :: v in d ==> Within(v, 1_000_000)
  }

  predicate ValidPairs(m: Model, pairs: seq<(Name, Name)>) {
    forall r :: r in pairs ==> r.0 in m.domains && r.1 in m.domains
  }

  predicate ValidSum(m: Model, rule: Sum) {
    && 1 <= |rule.keys| <= 32 && Distinct(rule.keys) && Within(rule.equals, 32_000_000)
    && forall k :: k in rule.keys ==> k in m.domains
  }

  predicate ValidModel(m: Model) {
    && 1 <= |m.domains| <= 32
    && (forall k :: k in m.domains ==> ValidDomain(m.domains[k]))
    && |m.different| + |m.lessThan| + |m.sums| <= 128
    && ValidPairs(m, m.different) && ValidPairs(m, m.lessThan)
    && (forall r :: r in m.sums ==> ValidSum(m, r))
  }

  // ---------------------------------------------------------------- assignment_valid, the reference meaning

  function At(w: Assignment, k: Name): int {
    if k in w then w[k] else 0
  }

  function Total(w: Assignment, keys: seq<Name>): int {
    if keys == [] then 0 else At(w, keys[0]) + Total(w, keys[1..])
  }

  predicate InDomains(m: Model, w: Assignment) {
    forall k :: k in w ==> k in m.domains && w[k] in m.domains[k]
  }

  /** `study_tasks.assignment_valid`: the independent check of a complete assignment. */
  predicate Satisfies(m: Model, w: Assignment) {
    && w.Keys == m.domains.Keys
    && InDomains(m, w)
    && (forall r :: r in m.different ==> At(w, r.0) != At(w, r.1))
    && (forall r :: r in m.lessThan ==> At(w, r.0) < At(w, r.1))
    && (forall r :: r in m.sums ==> Total(w, r.keys) == r.equals)
  }

  // ---------------------------------------------------------------- consistent

  function Smallest(d: seq<int>): int {
    if d == [] then 0 else if |d| == 1 then d[0] else
      var rest := Smallest(d[1..]);
      if d[0] < rest then d[0] else rest
  }

  function Largest(d: seq<int>): int {
    if d == [] then 0 else if |d| == 1 then d[0] else
      var rest := Largest(d[1..]);
      if d[0] > rest then d[0] else rest
  }

  lemma {:induction false} DomainBounds(d: seq<int>, v: int)
    requires v in d
    ensures Smallest(d) <= v <= Largest(d)
  {
    if v in d[1..] {
      DomainBounds(d[1..], v);
    } else if |d| > 1 {
      DomainBounds(d[1..], d[1]);
    }
  }

  function Lowest(m: Model, w: Assignment, k: Name): int {
    if k in w then w[k] else if k in m.domains then Smallest(m.domains[k]) else 0
  }

  function Highest(m: Model, w: Assignment, k: Name): int {
    if k in w then w[k] else if k in m.domains then Largest(m.domains[k]) else 0
  }

  function LowTotal(m: Model, w: Assignment, keys: seq<Name>): int {
    if keys == [] then 0 else Lowest(m, w, keys[0]) + LowTotal(m, w, keys[1..])
  }

  function HighTotal(m: Model, w: Assignment, keys: seq<Name>): int {
    if keys == [] then 0 else Highest(m, w, keys[0]) + HighTotal(m, w, keys[1..])
  }

  /** `consistent`: pruning of partial assignments, and the exact check when `complete` is asked for. */
  predicate Consistent(m: Model, w: Assignment, complete: bool) {
    && w.Keys <= m.domains.Keys
    && (complete ==> w.Keys == m.domains.Keys)
    && InDomains(m, w)
    && (forall r :: r in m.different ==> !(r.0 in w && r.1 in w && w[r.0] == w[r.1]))
    && (forall r :: r in m.lessThan ==> !(r.0 in w && r.1 in w && w[r.0] >= w[r.1]))
    && (forall r :: r in m.sums ==> LowTotal(m, w, r.keys) <= r.equals <= HighTotal(m, w, r.keys))
  }

  /** `w` agrees with the partial assignment `v`. */
  predicate Extends(w: Assignment, v: Assignment) {
    v.Keys <= w.Keys && forall k :: k in v ==> w[k] == v[k]
  }

  lemma {:induction false} TotalBounds(m: Model, v: Assignment, w: Assignment, keys: seq<Name>)
    requires Extends(w, v) && InDomains(m, w)
    requires forall k :: k in keys ==> k in w
    ensures LowTotal(m, v, keys) <= Total(w, keys) <= HighTotal(m, v, keys)
  {
    if keys != [] {
      assert keys[0] in keys;
      DomainBounds(m.domains[keys[0]], w[keys[0]]);
      TotalBounds(m, v, w, keys[1..]);
    }
  }

  lemma {:induction false} TotalExact(m: Model, w: Assignment, keys: seq<Name>)
    requires forall k :: k in keys ==> k in w
    ensures LowTotal(m, w, keys) == Total(w, keys) == HighTotal(m, w, keys)
  {
    if keys != [] {
      assert keys[0] in keys;
      TotalExact(m, w, keys[1..]);
    }
  }

  /** Pruning is sound: whatever can be completed to a valid assignment is kept. */
  lemma PruningIsSound(m: Model, v: Assignment, w: Assignment)
    requires ValidModel(m) && Extends(w, v) && Satisfies(m, w)
    ensures Consistent(m, v, false)
  {
    forall r | r in m.sums ensures LowTotal(m, v, r.keys) <= r.equals <= HighTotal(m, v, r.keys) {
      assert ValidSum(m, r);
      TotalBounds(m, v, w, r.keys);
    }
  }

  /** On complete assignments the check is exact, whether or not completeness was asked for. */
  lemma CompleteCheckIsExact(m: Model, w: Assignment, complete: bool)
    requires ValidModel(m) && w.Keys == m.domains.Keys
    ensures Consistent(m, w, complete) <==> Satisfies(m, w)
  {
    forall r | r in m.sums ensures LowTotal(m, w, r.keys) == Total(w, r.keys) == HighTotal(m, w, r.keys) {
      assert ValidSum(m, r);
      TotalExact(m, w, r.keys);
    }
  }

  // ---------------------------------------------------------------- what pruning keeps

  lemma {:induction false} BoundsAttained(d: seq<int>)
    requires d != []
    ensures Smallest(d) in d && Largest(d) in d
  {
    if |d| > 1 {
      BoundsAttained(d[1..]);
    }
  }

  /** A value from its domain for every variable, agreeing with the partial assignment `v`. */
  ghost predicate Completion(m: Model, v: Assignment, w: Assignment) {
    Extends(w, v) && w.Keys == m.domains.Keys && InDomains(m, w)
  }

  /** The variables of a sum that are not assigned yet can bring its total down to `equals`, and up to it. */
  ghost predicate Reachable(m: Model, v: Assignment, rule: Sum) {
    && (exists w :: Completion(m, v, w) && Total(w, rule.keys) <= rule.equals)
    && (exists w :: Completion(m, v, w) && Total(w, rule.keys) >= rule.equals)
  }

  /** No constraint rules the partial assignment out on its own. */
  ghost predicate Tenable(m: Model, v: Assignment) {
    && (forall r :: r in m.different && r.0 in v && r.1 in v ==> v[r.0] != v[r.1])
    && (forall r :: r in m.lessThan && r.0 in v && r.1 in v ==> v[r.0] < v[r.1])
    && (forall r :: r in m.sums ==> Reachable(m, v, r))
  }

  function LowCompletion(m: Model, v: Assignment): Assignment {
    map k | k in m.domains :: Lowest(m, v, k)
  }

  function HighCompletion(m: Model, v: Assignment): Assignment {
    map k | k in m.domains :: Highest(m, v, k)
  }

  lemma ExtremesComplete(m: Model, v: Assignment)
    requires ValidModel(m) && InDomains(m, v)
    ensures Completion(m, v, LowCompletion(m, v)) && Completion(m, v, HighCompletion(m, v))
  {
    forall k | k in m.domains
      ensures Lowest(m, v, k) in m.domains[k] && Highest(m, v, k) in m.domains[k]
    {
      BoundsAttained(m.domains[k]);
    }
  }

  lemma {:induction false} ExtremeTotals(m: Model, v: Assignment, keys: seq<Name>)
    requires forall k :: k in keys ==> k in m.domains
    ensures Total(LowCompletion(m, v), keys) == LowTotal(m, v, keys)
    ensures Total(HighCompletion(m, v), keys) == HighTotal(m, v, keys)
  {
    if keys != [] {
      assert keys[0] in keys;
      ExtremeTotals(m, v, keys[1..]);
    }
  }

  lemma SumIsExact(m: Model, v: Assignment, rule: Sum)
    requires ValidModel(m) && InDomains(m, v) && ValidSum(m, rule)
    ensures Reachable(m, v, rule) <==> LowTotal(m, v, rule.keys) <= rule.equals <= HighTotal(m, v, rule.keys)
  {
    ExtremesComplete(m, v);
    ExtremeTotals(m, v, rule.keys);
    forall w | Completion(m, v, w)
      ensures LowTotal(m, v, rule.keys) <= Total(w, rule.keys) <= HighTotal(m, v, rule.keys)
    {
      TotalBounds(m, v, w, rule.keys);
    }
  }

  /**
   * Pruning is exact for single constraints: a partial assignment is kept if and only if it is within the domains,
   * every pair with both ends assigned holds, and every sum can still be brought down and up to what it must equal.
   */
  lemma PruningIsExact(m: Model, v: Assignment)
    requires ValidModel(m)
    ensures Consistent(m, v, false) <==> InDomains(m, v) && Tenable(m, v)
  {
    if InDomains(m, v) {
      forall r | r in m.sums
        ensures Reachable(m, v, r) <==> LowTotal(m, v, r.keys) <= r.equals <= HighTotal(m, v, r.keys)
      {
        SumIsExact(m, v, r);
      }
    }
  }

  // ---------------------------------------------------------------- interaction_graph

  function PairScopes(pairs: seq<(Name, Name)>): seq<seq<Name>> {
    if pairs == [] then [] else [[pairs[0].0, pairs[0].1]] + PairScopes(pairs[1..])
  }

  function SumScopes(sums: seq<Sum>): seq<seq<Name>> {
    if sums == [] then [] else [sums[0].keys] + SumScopes(sums[1..])
  }

  function Scopes(m: Model): seq<seq<Name>> {
    PairScopes(m.different) + PairScopes(m.lessThan) + SumScopes(m.sums)
  }

  lemma {:induction false} PairScopesSpec(pairs: seq<(Name, Name)>)
    ensures forall r :: r in pairs ==> [r.0, r.1] in PairScopes(pairs)
    ensures forall s :: s in PairScopes(pairs) ==> exists r :: r in pairs && s == [r.0, r.1]
  {
    if pairs != [] {
      PairScopesSpec(pairs[1..]);
      assert pairs[0] in pairs;
    }
  }

  lemma {:induction false} SumScopesSpec(sums: seq<Sum>)
    ensures forall r :: r in sums ==> r.keys in SumScopes(sums)
    ensures forall s :: s in SumScopes(sums) ==> exists r :: r in sums && s == r.keys
  {
    if sums != [] {
      SumScopesSpec(sums[1..]);
      assert sums[0] in sums;
    }
  }

  lemma ScopesSpec(m: Model)
    ensures forall r :: r in m.different || r in m.lessThan ==> [r.0, r.1] in Scopes(m)
    ensures forall r :: r in m.sums ==> r.keys in Scopes(m)
    ensures ValidModel(m) ==> forall s, k :: s in Scopes(m) && k in s ==> k in m.domains
  {
    PairScopesSpec(m.different);
    PairScopesSpec(m.lessThan);
    SumScopesSpec(m.sums);
    if ValidModel(m) {
      forall s, k | s in Scopes(m) && k in s ensures k in m.domains {
        if s in SumScopes(m.sums) {
          var r :| r in m.sums && s == r.keys;
          assert ValidSum(m, r);
        }
      }
    }
  }

  ghost predicate SameScope(scopes: seq<seq<Name>>, a: Name, b: Name) {
    exists s :: s in scopes && a in s && b in s
  }

  /** Two variables are joined exactly when some constraint mentions both. */
  ghost predicate IsInteraction(m: Model, g: Graph) {
    && g.Keys == m.domains.Keys
    && JoinsScopes(g, Scopes(m))
  }

  method InteractionGraph(m: Model) returns (r: Result<Graph>)
    ensures r.Ok? <==> ValidModel(m)
    ensures r.Ok? ==> IsInteraction(m, r.value) && Supported(r.value)
  {
    if !ValidModel(m) {
      return Err;
    }
    var work := new Working(map k | k in m.domains :: {});
    var scopes := Scopes(m);
    ScopesSpec(m);
    for i := 0 to |scopes|
      invariant work.adj.Keys == m.domains.Keys
      invariant JoinsScopes(work.adj, scopes[..i])
    {
      ScopeInside(m, scopes[i]);
      ScopeJoined(work.adj, scopes, i);
      work.AddEdges(Combinations(Sorted(ToSet(scopes[i]))));
    }
    assert scopes[..|scopes|] == scopes;
    InteractionIsUndirected(m, work.adj);
    r := Ok(work.adj);
  }

  ghost predicate JoinsScopes(g: Graph, scopes: seq<seq<Name>>) {
    forall a, b :: Edge(g, a, b) <==> a != b && SameScope(scopes, a, b)
  }

  lemma InteractionIsUndirected(m: Model, g: Graph)
    requires ValidModel(m) && IsInteraction(m, g)
    ensures Supported(g)
  {
    ScopesSpec(m);
    forall u, v | u in g && v in g[u] ensures u != v && v in g && u in g[v] {
      assert Edge(g, u, v);
      assert SameScope(Scopes(m), v, u);
      assert Edge(g, v, u);
    }
  }

  lemma ScopeInside(m: Model, scope: seq<Name>)
    requires forall k :: k in scope ==> k in m.domains
    ensures forall e :: e in Combinations(Sorted(ToSet(scope))) ==> e.0 in m.domains && e.1 in m.domains
  {
    SortedSpec(ToSet(scope));
    forall e | e in Combinations(Sorted(ToSet(scope))) ensures e.0 in m.domains && e.1 in m.domains {
      CombinationsSpec(Sorted(ToSet(scope)), e);
    }
  }

  lemma ScopeJoined(g: Graph, scopes: seq<seq<Name>>, i: nat)
    requires i < |scopes| && JoinsScopes(g, scopes[..i])
    requires forall e :: e in Combinations(Sorted(ToSet(scopes[i]))) ==> e.0 in g && e.1 in g
    requires forall k :: k in scopes[i] ==> k in g
    ensures JoinsScopes(JoinAll(g, Combinations(Sorted(ToSet(scopes[i])))), scopes[..i + 1])
  {
    var h := JoinAll(g, Combinations(Sorted(ToSet(scopes[i]))));
    forall a, b ensures Edge(h, a, b) <==> a != b && SameScope(scopes[..i + 1], a, b) {
      ScopeJoinedAt(g, scopes, i, a, b);
    }
  }

  lemma ScopeJoinedAt(g: Graph, scopes: seq<seq<Name>>, i: nat, a: Name, b: Name)
    requires i < |scopes| && JoinsScopes(g, scopes[..i])
    requires forall e :: e in Combinations(Sorted(ToSet(scopes[i]))) ==> e.0 in g && e.1 in g
    requires forall k :: k in scopes[i] ==> k in g
    ensures Edge(JoinAll(g, Combinations(Sorted(ToSet(scopes[i])))), a, b) <==>
      a != b && SameScope(scopes[..i + 1], a, b)
  {
    var ns := Sorted(ToSet(scopes[i]));
    SortedSpec(ToSet(scopes[i]));
    CombinationsSpec(ns, (a, b));
    CombinationsSpec(ns, (b, a));
    assert Edge(g, a, b) <==> a != b && SameScope(scopes[..i], a, b);
    if a in g {
      JoinAllAt(g, Combinations(ns), a, b);
    }
    SameScopeSnoc(scopes, i, a, b);
  }

  lemma SameScopeSnoc(scopes: seq<seq<Name>>, i: nat, a: Name, b: Name)
    requires i < |scopes|
    ensures SameScope(scopes[..i + 1], a, b) <==> SameScope(scopes[..i], a, b) || (a in scopes[i] && b in scopes[i])
  {
    assert scopes[..i + 1] == scopes[..i] + [scopes[i]];
  }

  // ---------------------------------------------------------------- _restricted

  function PairsWithin(pairs: seq<(Name, Name)>, members: set<Name>): (r: seq<(Name, Name)>)
    ensures forall e :: e in r <==> e in pairs && e.0 in members
    ensures |r| <= |pairs|
  {
    if pairs == [] then [] else
      (if pairs[0].0 in members then [pairs[0]] else []) + PairsWithin(pairs[1..], members)
  }

  function SumsWithin(sums: seq<Sum>, members: set<Name>): (r: seq<Sum>)
    ensures forall s :: s in r <==> s in sums && s.keys != [] && s.keys[0] in members
    ensures |r| <= |sums|
  {
    if sums == [] then [] else
      (if sums[0].keys != [] && sums[0].keys[0] in members then [sums[0]] else []) + SumsWithin(sums[1..], members)
  }

  /** `_restricted`: a constraint goes with its first variable. */
  function Restricted(m: Model, members: set<Name>): Model {
    Model(map k | k in m.domains && k in members :: m.domains[k],
          PairsWithin(m.different, members), PairsWithin(m.lessThan, members), SumsWithin(m.sums, members))
  }

  function Project(w: Assignment, members: set<Name>): Assignment {
    map k | k in w && k in members :: w[k]
  }

  // ---------------------------------------------------------------- decomposition is lossless

  /** No constraint crosses the boundary of `members`. */
  ghost predicate Separates(m: Model, members: set<Name>) {
    forall s, a, b :: s in Scopes(m) && a in s && b in s && a in members ==> b in members
  }

  lemma ComponentSeparates(m: Model, g: Graph, group: seq<Name>)
    requires IsInteraction(m, g) && IsComponent(g, group)
    ensures Separates(m, ToSet(group))
  {
    forall s, a, b | s in Scopes(m) && a in s && b in s && a in ToSet(group) ensures b in ToSet(group) {
      if a != b {
        assert SameScope(Scopes(m), a, b);
        ReachesSelf(g, a);
        ReachesStep(g, a, a, b);
      }
    }
  }

  /** Restricting to a separated, nonempty set of variables gives a model that validates again. */
  lemma RestrictedIsValid(m: Model, members: set<Name>)
    requires ValidModel(m) && Separates(m, members) && members <= m.domains.Keys && members != {}
    ensures ValidModel(Restricted(m, members))
    ensures Restricted(m, members).domains.Keys == members
  {
    var sub := Restricted(m, members);
    assert sub.domains.Keys == members;
    SubsetSize(sub.domains.Keys, m.domains.Keys);
    assert sub.domains != map[] by {
      var k :| k in members;
      assert k in sub.domains;
    }
    ScopesSpec(m);
    PairsStayInside(m, members, sub.different);
    PairsStayInside(m, members, sub.lessThan);
    forall r | r in sub.sums ensures ValidSum(sub, r) {
      assert ValidSum(m, r) && r.keys in Scopes(m) && r.keys[0] in r.keys;
    }
  }

  lemma PairsStayInside(m: Model, members: set<Name>, pairs: seq<(Name, Name)>)
    requires Separates(m, members)
    requires forall r :: r in pairs ==> [r.0, r.1] in Scopes(m) && r.0 in members
    ensures forall r :: r in pairs ==> r.1 in members
  {
    forall r | r in pairs ensures r.1 in members {
      assert r.0 in [r.0, r.1] && r.1 in [r.0, r.1];
    }
  }

  lemma {:induction false} TotalProjects(w: Assignment, members: set<Name>, keys: seq<Name>)
    requires forall k :: k in keys ==> k in members
    ensures Total(Project(w, members), keys) == Total(w, keys)
  {
    if keys != [] {
      assert keys[0] in keys;
      TotalProjects(w, members, keys[1..]);
    }
  }

  /** The part of `Satisfies` that a set of variables answers for. */
  ghost predicate SatisfiedOn(m: Model, members: set<Name>, w: Assignment) {
    && (forall k :: k in members && k in w ==> k in m.domains && w[k] in m.domains[k])
    && (forall r :: r in m.different && r.0 in members ==> At(w, r.0) != At(w, r.1))
    && (forall r :: r in m.lessThan && r.0 in members ==> At(w, r.0) < At(w, r.1))
    && (forall r :: r in m.sums && r.keys != [] && r.keys[0] in members ==> Total(w, r.keys) == r.equals)
  }

  lemma SubmodelMeaning(m: Model, members: set<Name>, w: Assignment)
    requires ValidModel(m) && Separates(m, members) && members <= m.domains.Keys && w.Keys == m.domains.Keys
    ensures Satisfies(Restricted(m, members), Project(w, members)) <==> SatisfiedOn(m, members, w)
  {
    var sub, part := Restricted(m, members), Project(w, members);
    assert part.Keys == members == sub.domains.Keys;
    ScopesSpec(m);
    PairsStayInside(m, members, sub.different);
    PairsStayInside(m, members, sub.lessThan);
    assert forall k :: k in members ==> At(part, k) == At(w, k);
    SumsProject(m, members, w);
  }

  lemma SumsProject(m: Model, members: set<Name>, w: Assignment)
    requires ValidModel(m) && Separates(m, members) && members <= m.domains.Keys && w.Keys == m.domains.Keys
    ensures forall r :: r in Restricted(m, members).sums ==> Total(Project(w, members), r.keys) == Total(w, r.keys)
  {
    ScopesSpec(m);
    forall r | r in Restricted(m, members).sums
      ensures Total(Project(w, members), r.keys) == Total(w, r.keys)
    {
      assert r.keys in Scopes(m) && r.keys[0] in r.keys;
      TotalProjects(w, members, r.keys);
    }
  }

  lemma ComponentFacts(m: Model, g: Graph, group: seq<Name>)
    requires ValidModel(m) && IsInteraction(m, g) && IsComponent(g, group)
    ensures Separates(m, ToSet(group)) && ToSet(group) <= m.domains.Keys
    ensures ValidModel(Restricted(m, ToSet(group))) && Restricted(m, ToSet(group)).domains.Keys == ToSet(group)
  {
    assert group[0] in ToSet(group);
    ComponentSeparates(m, g, group);
    RestrictedIsValid(m, ToSet(group));
  }

  predicate PartSatisfied(m: Model, group: seq<Name>, w: Assignment) {
    Satisfies(Restricted(m, ToSet(group)), Project(w, ToSet(group)))
  }

  lemma PartMeaning(m: Model, g: Graph, group: seq<Name>, w: Assignment)
    requires ValidModel(m) && IsInteraction(m, g) && IsComponent(g, group) && w.Keys == m.domains.Keys
    ensures PartSatisfied(m, group, w) <==> SatisfiedOn(m, ToSet(group), w)
  {
    ComponentFacts(m, g, group);
    SubmodelMeaning(m, ToSet(group), w);
  }

  lemma WholeMakesPart(m: Model, members: set<Name>, w: Assignment)
    requires Satisfies(m, w)
    ensures SatisfiedOn(m, members, w)
  {
  }

  /** An assignment satisfies the model exactly when each component's part satisfies its submodel. */
  lemma DecompositionIsLossless(m: Model, g: Graph, groups: seq<seq<Name>>, w: Assignment)
    requires ValidModel(m) && IsInteraction(m, g) && IsComponents(g, groups) && w.Keys == m.domains.Keys
    ensures Satisfies(m, w) <==> forall i :: 0 <= i < |groups| ==> PartSatisfied(m, groups[i], w)
  {
    forall i | 0 <= i < |groups| ensures PartSatisfied(m, groups[i], w) <==> SatisfiedOn(m, ToSet(groups[i]), w) {
      PartMeaning(m, g, groups[i], w);
    }
    if Satisfies(m, w) {
      forall i | 0 <= i < |groups| ensures PartSatisfied(m, groups[i], w) {
        WholeMakesPart(m, ToSet(groups[i]), w);
      }
    } else if forall i :: 0 <= i < |groups| ==> PartSatisfied(m, groups[i], w) {
      PartsMakeWhole(m, groups, w);
    }
  }

  lemma PartsMakeWhole(m: Model, groups: seq<seq<Name>>, w: Assignment)
    requires ValidModel(m) && w.Keys == m.domains.Keys
    requires forall k :: k in m.domains ==> exists i :: 0 <= i < |groups| && k in groups[i]
    requires forall i :: 0 <= i < |groups| ==> SatisfiedOn(m, ToSet(groups[i]), w)
    ensures Satisfies(m, w)
  {
    forall r | r in m.sums ensures Total(w, r.keys) == r.equals {
      assert ValidSum(m, r) && r.keys[0] in r.keys;
      var i :| 0 <= i < |groups| && r.keys[0] in groups[i];
      assert SatisfiedOn(m, ToSet(groups[i]), w);
    }
    forall k | k in m.domains
      ensures w[k] in m.domains[k]
      ensures forall r :: r in m.different && r.0 == k ==> At(w, r.0) != At(w, r.1)
      ensures forall r :: r in m.lessThan && r.0 == k ==> At(w, r.0) < At(w, r.1)
    {
      var i :| 0 <= i < |groups| && k in groups[i];
      assert SatisfiedOn(m, ToSet(groups[i]), w);
    }
  }
}
