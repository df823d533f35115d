/** Building the compiled task: grouping, ordering, feasibility and the quotient (residual/cic.py, `prepare`). */
module Compiler {
  import opened Basics
  import opened Dag
  import opened Elimination
  import opened Certificates
  import opened Components
  import opened Constraints
  import opened Search
  import opened Tasks
  import opened Grouping
  import opened Meaning

  // ---------------------------------------------------------------- ordering the members of a group

  /** Each of the first `k` listed nodes comes after whatever it depends on inside `nodes`. */
  ghost predicate InOrder(t: Task, nodes: set<Name>, ordered: seq<Name>) {
    forall i, d :: 0 <= i < |ordered| && DependsOn(t, ordered[i], d) && d in nodes ==> d in ordered[..i]
  }

  lemma {:induction false} LowestRank(rank: map<Name, nat>, s: set<Name>) returns (low: Name)
    requires s != {} && s <= rank.Keys
    ensures low in s && forall n :: n in s ==> rank[low] <= rank[n]
  {
    low :| low in s;
    if s != {low} {
      var rest := s - {low};
      assert s == rest + {low};
      var other := LowestRank(rank, rest);
      if rank[other] < rank[low] {
        low := other;
      }
    }
  }

  predicate ReadyIn(t: Task, nodes: set<Name>, done: set<Name>, n: Name) {
    n in t.obligations && forall d :: d in t.obligations[n].dependsOn && d in nodes ==> d in done
  }

  /** An acyclic task always leaves some member ready, so ordering a group terminates. */
  lemma SomeoneIsReady(t: Task, nodes: set<Name>, done: set<Name>) returns (n: Name)
    requires Accepted(t) && nodes <= t.obligations.Keys && done < nodes
    ensures n in nodes - done && ReadyIn(t, nodes, done, n)
  {
    var rank := RankOf(Deps(t));
    var left :| left in nodes && left !in done;
    assert left in nodes - done;
    n := LowestRank(rank, nodes - done);
    forall d | d in t.obligations[n].dependsOn && d in nodes ensures d in done {
      assert d in Deps(t)[n] && rank[d] < rank[n];
      assert d !in nodes - done;
    }
  }

  lemma OrderExtends(t: Task, nodes: set<Name>, ordered: seq<Name>, ready: seq<Name>)
    requires InOrder(t, nodes, ordered)
    requires forall n :: n in ready ==> ReadyIn(t, nodes, ToSet(ordered), n)
    ensures InOrder(t, nodes, ordered + ready)
  {
    var more := ordered + ready;
    forall i, d | 0 <= i < |more| && DependsOn(t, more[i], d) && d in nodes ensures d in more[..i] {
      if i < |ordered| {
        assert more[i] == ordered[i] && more[..i] == ordered[..i];
      } else {
        assert more[i] == ready[i - |ordered|] && more[i] in ready;
        assert d in ToSet(ordered);
        assert more[..i] == ordered + ready[..i - |ordered|];
      }
    }
  }

  /** The members of a group in dependency order, round by round. */
  method OrderMembers(t: Task, nodes: seq<Name>) returns (ordered: seq<Name>)
    requires Accepted(t) && ToSet(nodes) <= t.obligations.Keys
    ensures Distinct(ordered) && ToSet(ordered) == ToSet(nodes)
    ensures InOrder(t, ToSet(nodes), ordered)
  {
    var members := ToSet(nodes);
    var remaining := Select(t.order, members, true);
    assert ToSet(remaining) == members by {
      assert forall n :: n in t.order <==> n in ToSet(t.order);
    }
    ordered := [];
    while remaining != []
      invariant Distinct(ordered) && Distinct(remaining)
      invariant ToSet(ordered) !! ToSet(remaining) && ToSet(ordered) + ToSet(remaining) == members
      invariant InOrder(t, members, ordered)
      decreases |remaining|
    {
      var ready := set n | n in remaining && ReadyIn(t, members, ToSet(ordered), n);
      assert remaining[0] in ToSet(remaining);
      ghost var someone := SomeoneIsReady(t, members, ToSet(ordered));
      assert someone in ready;
      ordered, remaining := NextRound(t, members, ordered, remaining, ready);
    }
  }

  method NextRound(t: Task, members: set<Name>, ordered: seq<Name>, remaining: seq<Name>, ready: set<Name>)
    returns (ordered': seq<Name>, remaining': seq<Name>)
    requires Distinct(ordered) && Distinct(remaining)
    requires ToSet(ordered) !! ToSet(remaining) && ToSet(ordered) + ToSet(remaining) == members
    requires InOrder(t, members, ordered)
    requires ready <= ToSet(remaining) && ready != {} && forall n :: n in ready ==>
      ReadyIn(t, members, ToSet(ordered), n)
    ensures Distinct(ordered') && Distinct(remaining')
    ensures ToSet(ordered') !! ToSet(remaining') && ToSet(ordered') + ToSet(remaining') == members
    ensures InOrder(t, members, ordered')
    ensures |remaining'| < |remaining|
  {
    var round := Select(remaining, ready, true);
    OrderExtends(t, members, ordered, round);
    RoundMoves(ordered, remaining, ready);
    ordered', remaining' := ordered + round, Select(remaining, ready, false);
  }

  lemma RoundMoves(ordered: seq<Name>, remaining: seq<Name>, ready: set<Name>)
    requires Distinct(ordered) && Distinct(remaining) && ToSet(ordered) !! ToSet(remaining)
    requires ready <= ToSet(remaining) && ready != {}
    ensures var more, rest := ordered + Select(remaining, ready, true), Select(remaining, ready, false);
      && Distinct(more) && ToSet(more) == ToSet(ordered) + ready
      && ToSet(rest) == ToSet(remaining) - ready && |rest| < |remaining|
  {
    var round, rest := Select(remaining, ready, true), Select(remaining, ready, false);
    forall i, j | 0 <= i < |ordered| && 0 <= j < |round| ensures ordered[i] != round[j] {
      assert ordered[i] in ToSet(ordered) && round[j] in round;
      assert round[j] in ToSet(remaining);
    }
    assert ToSet(round) == ready;
    DistinctSize(remaining);
    DistinctSize(rest);
    assert ToSet(remaining) == ToSet(rest) + ready;
  }

  // ---------------------------------------------------------------- the plan

  /** How a group is named: a digest of its members. */
  type Naming = seq<Name> -> Name

  ghost predicate Collisionless(naming: Naming) {
    forall a, b :: naming(a) == naming(b) ==> a == b
  }

  /** Every obligation is in exactly one of the member lists. */
  ghost predicate Partition(t: Task, members: seq<seq<Name>>) {
    && (forall k :: 0 <= k < |members| ==> members[k] != [] && ToSet(members[k]) <= t.obligations.Keys)
    && (forall n :: n in t.obligations ==> exists k :: 0 <= k < |members| && n in members[k])
    && (forall i, j, n :: 0 <= i < j < |members| && n in members[i] ==> n !in members[j])
  }

  function IndexOf(members: seq<seq<Name>>, n: Name, from: nat): (k: nat)
    requires from <= |members|
    ensures from <= k <= |members| && (k < |members| ==> n in members[k])
    ensures forall i :: from <= i < k ==> n !in members[i]
    decreases |members| - from
  {
    if from == |members| || n in members[from] then from else IndexOf(members, n, from + 1)
  }

  /**
   * What grouping is made of: the member lists, each also in dependency order, the first `parts` of them carrying the
   * model.
   */
  datatype Draft = Draft(
    naming: Naming, members: seq<seq<Name>>, ordered: seq<seq<Name>>, model: Model, parts: nat)

  ghost predicate Drafted(t: Task, f: Draft) {
    && Partition(t, f.members) && |f.ordered| == |f.members| && f.parts <= |f.members| && Collisionless(f.naming)
    && (forall k :: 0 <= k < |f.members| ==> DraftedGroup(t, f, k))
  }

  ghost predicate DraftedGroup(t: Task, f: Draft, k: nat)
    requires k < |f.members| && k < |f.ordered|
  {
    && Distinct(f.ordered[k]) && ToSet(f.ordered[k]) == ToSet(f.members[k])
    && InOrder(t, ToSet(f.members[k]), f.ordered[k])
    && (k < f.parts ==>
        && ValidModel(Restricted(f.model, ToSet(f.members[k])))
        && Restricted(f.model, ToSet(f.members[k])).domains.Keys == ToSet(f.members[k]))
  }

  function GroupAt(f: Draft, k: nat): Group
    requires k < |f.members| && k < |f.ordered|
  {
    Group(f.naming(f.members[k]), f.ordered[k],
      if k < f.parts then Some(Restricted(f.model, ToSet(f.members[k]))) else None)
  }

  function GroupsUpTo(f: Draft, k: nat): map<Name, Group> {
    if k == 0 || k > |f.members| || k > |f.ordered| then map[]
    else GroupsUpTo(f, k - 1)[f.naming(f.members[k - 1]) := GroupAt(f, k - 1)]
  }

  function Names(f: Draft): (r: seq<Name>)
    ensures |r| == |f.members| && forall k :: 0 <= k < |r| ==> r[k] == f.naming(f.members[k])
  {
    seq(|f.members|, k requires 0 <= k < |f.members| => f.naming(f.members[k]))
  }

  function Owners(t: Task, f: Draft): map<Name, Name> {
    map n | n in t.obligations && IndexOf(f.members, n, 0) < |f.members| ::
      f.naming(f.members[IndexOf(f.members, n, 0)])
  }

  function PlanOf(t: Task, reg: Registry, f: Draft, hash: Hash): Plan {
    Plan(t, reg, GroupsUpTo(f, |f.members|), Names(f), Owners(t, f), hash)
  }

  lemma MembersDiffer(t: Task, f: Draft, i: nat, j: nat)
    requires Partition(t, f.members) && Collisionless(f.naming) && i < |f.members| && j < |f.members| && i != j
    ensures f.naming(f.members[i]) != f.naming(f.members[j])
  {
    var lo, hi := if i < j then i else j, if i < j then j else i;
    assert f.members[lo][0] in f.members[lo];
    assert f.members[lo][0] !in f.members[hi];
  }

  lemma {:induction false} GroupFound(t: Task, f: Draft, k: nat, i: nat)
    requires Partition(t, f.members) && Collisionless(f.naming) && |f.ordered| == |f.members| && i < k <= |f.members|
    ensures f.naming(f.members[i]) in GroupsUpTo(f, k)
    ensures GroupsUpTo(f, k)[f.naming(f.members[i])] == GroupAt(f, i)
  {
    if i < k - 1 {
      GroupFound(t, f, k - 1, i);
      MembersDiffer(t, f, i, k - 1);
    }
  }

  lemma {:induction false} GroupNames(f: Draft, k: nat, name: Name)
    requires k <= |f.members| && |f.ordered| == |f.members|
    ensures name in GroupsUpTo(f, k) ==> exists i :: 0 <= i < k && name == f.naming(f.members[i])
  {
    if k > 0 {
      GroupNames(f, k - 1, name);
    }
  }

  lemma OwnerOf(t: Task, f: Draft, n: Name, k: nat)
    requires Partition(t, f.members) && k < |f.members| && n in f.members[k] && n in t.obligations
    ensures n in Owners(t, f) && Owners(t, f)[n] == f.naming(f.members[k])
  {
    var i := IndexOf(f.members, n, 0);
    assert i <= k && n in f.members[i];
  }

  lemma PlannedGroup(t: Task, reg: Registry, f: Draft, hash: Hash, k: nat)
    requires Drafted(t, f) && k < |f.members|
    ensures WellFormedGroup(PlanOf(t, reg, f, hash), f.naming(f.members[k]), GroupAt(f, k))
  {
    var p, g := PlanOf(t, reg, f, hash), GroupAt(f, k);
    assert DraftedGroup(t, f, k);
    var first := f.members[k][0];
    assert first in ToSet(f.members[k]);
    forall n | n in g.ordered ensures n in t.obligations && n in p.owner && p.owner[n] == g.id {
      assert n in ToSet(g.ordered);
      OwnerOf(t, f, n, k);
    }
    forall i, d | 0 <= i < |g.ordered| && DependsOn(t, g.ordered[i], d) && d in g.ordered ensures d in g.ordered[..i] {
      assert d in ToSet(g.ordered);
    }
  }

  lemma PlannedOwner(t: Task, reg: Registry, f: Draft, hash: Hash, n: Name)
    requires Drafted(t, f) && n in t.obligations
    ensures var p := PlanOf(t, reg, f, hash);
      n in p.owner && p.owner[n] in p.groups && n in p.groups[p.owner[n]].ordered
  {
    var k :| 0 <= k < |f.members| && n in f.members[k];
    OwnerOf(t, f, n, k);
    GroupFound(t, f, |f.members|, k);
    assert DraftedGroup(t, f, k);
    assert n in ToSet(f.members[k]);
  }

  lemma PlannedNames(t: Task, f: Draft)
    requires Drafted(t, f)
    ensures Distinct(Names(f)) && ToSet(Names(f)) == GroupsUpTo(f, |f.members|).Keys
  {
    forall i, j | 0 <= i < j < |f.members| ensures Names(f)[i] != Names(f)[j] {
      MembersDiffer(t, f, i, j);
    }
    forall name ensures name in ToSet(Names(f)) <==> name in GroupsUpTo(f, |f.members|) {
      GroupNames(f, |f.members|, name);
      if name in Names(f) {
        var i :| 0 <= i < |f.members| && Names(f)[i] == name;
        GroupFound(t, f, |f.members|, i);
      }
      if i :| 0 <= i < |f.members| && name == f.naming(f.members[i]) {
        assert Names(f)[i] == name;
      }
    }
  }

  /** The name of a group is not taken; a solver is registered under it only if every member has one. */
  predicate FreshName(t: Task, reg: Registry, name: Name, members: seq<Name>) {
    && name !in t.obligations && name !in reg.checks
    && ((forall n :: n in members && n in t.obligations ==> t.obligations[n].solver.Some?) ==> name !in reg.solvers)
  }

  /** None of the generated names is taken. */
  predicate FreshNames(t: Task, reg: Registry, f: Draft) {
    forall k :: 0 <= k < |f.members| ==> FreshName(t, reg, f.naming(f.members[k]), f.members[k])
  }

  lemma PlannedGroups(t: Task, reg: Registry, f: Draft, hash: Hash)
    requires Drafted(t, f)
    ensures var p := PlanOf(t, reg, f, hash); forall g :: g in p.groups ==> WellFormedGroup(p, g, p.groups[g])
  {
    var p := PlanOf(t, reg, f, hash);
    forall g | g in p.groups ensures WellFormedGroup(p, g, p.groups[g]) {
      GroupNames(f, |f.members|, g);
      var k :| 0 <= k < |f.members| && g == f.naming(f.members[k]);
      GroupFound(t, f, |f.members|, k);
      PlannedGroup(t, reg, f, hash, k);
    }
  }

  lemma PlannedOwners(t: Task, reg: Registry, f: Draft, hash: Hash)
    requires Drafted(t, f)
    ensures var p := PlanOf(t, reg, f, hash);
      && p.owner.Keys == t.obligations.Keys
      && forall n :: n in p.owner ==> p.owner[n] in p.groups && n in p.groups[p.owner[n]].ordered
  {
    forall n | n in t.obligations
      ensures var p := PlanOf(t, reg, f, hash);
        n in p.owner && p.owner[n] in p.groups && n in p.groups[p.owner[n]].ordered
    {
      PlannedOwner(t, reg, f, hash, n);
    }
  }

  lemma PlannedFresh(t: Task, reg: Registry, f: Draft)
    requires Drafted(t, f) && FreshNames(t, reg, f)
    ensures GroupsUpTo(f, |f.members|).Keys !! reg.checks.Keys
  {
    forall g | g in GroupsUpTo(f, |f.members|) ensures g !in reg.checks {
      GroupNames(f, |f.members|, g);
    }
  }

  lemma PlanIsWellPlanned(t: Task, reg: Registry, f: Draft, hash: Hash)
    requires Accepted(t) && Registered(t, reg) && Drafted(t, f) && FreshNames(t, reg, f)
    ensures WellPlanned(PlanOf(t, reg, f, hash))
  {
    PlannedNames(t, f);
    PlannedFresh(t, reg, f);
    PlannedGroups(t, reg, f, hash);
    PlannedOwners(t, reg, f, hash);
    SomeGroup(t, f);
  }

  lemma SomeGroup(t: Task, f: Draft)
    requires Accepted(t) && Drafted(t, f)
    ensures Names(f) != []
  {
    assert t.order[0] in ToSet(t.order);
    assert t.order[0] in t.obligations;
  }

  // ---------------------------------------------------------------- prepare

  datatype Prepared = Prepared(
    plan: Plan,
    graph: Graph,
    comps: seq<seq<Name>>,
    certificate: Option<Certificate>,
    blocked: set<Name>,
    searchNodes: nat)

  /** What is demanded of a task before any grouping: a valid model over obligations that all declare it as evidence. */
  predicate StructureSupported(t: Task, reg: Registry, model: Option<Model>) {
    && Registered(t, reg) && t.structure.Some? && model.Some? && ValidModel(model.value)
    && forall n :: n in model.value.domains ==>
        n in t.obligations && t.structure.value in t.obligations[n].evidence
  }

  function Singletons(s: seq<Name>): (r: seq<seq<Name>>)
    ensures |r| == |s| && forall k :: 0 <= k < |s| ==> r[k] == [s[k]]
  {
    seq(|s|, k requires 0 <= k < |s| => [s[k]])
  }

  /** The components followed by one group for each obligation outside the model. */
  function AllMembers(t: Task, g: Graph, comps: seq<seq<Name>>): seq<seq<Name>> {
    comps + Singletons(Select(t.order, g.Keys, false))
  }

  lemma MembersPartition(t: Task, g: Graph, comps: seq<seq<Name>>)
    requires WellFormed(t) && IsComponents(g, comps) && g.Keys <= t.obligations.Keys
    ensures Partition(t, AllMembers(t, g, comps))
  {
    var others := Select(t.order, g.Keys, false);
    var members := AllMembers(t, g, comps);
    assert forall n :: n in t.obligations <==> n in t.order by {
      assert forall n :: n in t.order <==> n in ToSet(t.order);
    }
    forall k | 0 <= k < |members| ensures members[k] != [] && ToSet(members[k]) <= t.obligations.Keys {
      MemberList(t, g, comps, k);
    }
    forall n | n in t.obligations ensures exists k :: 0 <= k < |members| && n in members[k] {
      if n in g {
        var k :| 0 <= k < |comps| && n in comps[k];
        assert members[k] == comps[k];
      } else {
        assert n in others;
        var k :| 0 <= k < |others| && others[k] == n;
        assert members[|comps| + k] == [n];
      }
    }
    forall i, j, n | 0 <= i < j < |members| && n in members[i] ensures n !in members[j] {
      MembersDisjoint(t, g, comps, i, j, n);
    }
  }

  lemma MemberList(t: Task, g: Graph, comps: seq<seq<Name>>, k: nat)
    requires WellFormed(t) && IsComponents(g, comps) && g.Keys <= t.obligations.Keys && k < |AllMembers(t, g, comps)|
    ensures AllMembers(t, g, comps)[k] != [] && ToSet(AllMembers(t, g, comps)[k]) <= t.obligations.Keys
  {
    if k < |comps| {
      assert AllMembers(t, g, comps)[k] == comps[k];
      assert IsComponent(g, comps[k]);
    } else {
      var others := Select(t.order, g.Keys, false);
      assert AllMembers(t, g, comps)[k] == [others[k - |comps|]];
      assert others[k - |comps|] in others;
      assert others[k - |comps|] in ToSet(t.order);
    }
  }

  lemma MembersDisjoint(t: Task, g: Graph, comps: seq<seq<Name>>, i: nat, j: nat, n: Name)
    requires WellFormed(t) && IsComponents(g, comps) && i < j < |AllMembers(t, g, comps)|
    requires n in AllMembers(t, g, comps)[i]
    ensures n !in AllMembers(t, g, comps)[j]
  {
    var others, members := Select(t.order, g.Keys, false), AllMembers(t, g, comps);
    if j < |comps| {
      assert members[i] == comps[i] && members[j] == comps[j];
    } else {
      assert members[j] == [others[j - |comps|]] && others[j - |comps|] in others;
      if i < |comps| {
        assert members[i] == comps[i] && IsComponent(g, comps[i]) && n in ToSet(comps[i]);
      } else {
        assert members[i] == [others[i - |comps|]];
      }
    }
  }

  /** Orders every group. */
  method OrderAll(t: Task, members: seq<seq<Name>>) returns (ordered: seq<seq<Name>>)
    requires Accepted(t) && Partition(t, members)
    ensures |ordered| == |members|
    ensures forall k :: 0 <= k < |members| ==> OrdersGroup(t, members[k], ordered[k])
  {
    ordered := [];
    for k := 0 to |members|
      invariant |ordered| == k && forall i :: 0 <= i < k ==> OrdersGroup(t, members[i], ordered[i])
    {
      var one := OrderMembers(t, members[k]);
      ordered := ordered + [one];
    }
  }

  ghost predicate OrdersGroup(t: Task, nodes: seq<Name>, ordered: seq<Name>) {
    Distinct(ordered) && ToSet(ordered) == ToSet(nodes) && InOrder(t, ToSet(nodes), ordered)
  }

  lemma DraftIsDrafted(t: Task, m: Model, g: Graph, comps: seq<seq<Name>>, f: Draft)
    requires WellFormed(t) && ValidModel(m) && IsInteraction(m, g) && IsComponents(g, comps)
    requires m.domains.Keys <= t.obligations.Keys && Collisionless(f.naming)
    requires f.members == AllMembers(t, g, comps) && f.model == m && f.parts == |comps|
    requires |f.ordered| == |f.members|
    requires forall k :: 0 <= k < |f.members| ==> OrdersGroup(t, f.members[k], f.ordered[k])
    ensures Drafted(t, f)
  {
    MembersPartition(t, g, comps);
    forall k | 0 <= k < |f.members| ensures DraftedGroup(t, f, k) {
      assert OrdersGroup(t, f.members[k], f.ordered[k]);
      if k < |comps| {
        assert f.members[k] == comps[k];
        ComponentFacts(m, g, comps[k]);
      }
    }
  }

  lemma PlanCarriesPart(t: Task, reg: Registry, f: Draft, hash: Hash, i: nat)
    requires Drafted(t, f) && i < f.parts
    ensures CarriesPart(PlanOf(t, reg, f, hash), f.model, f.members[i], Names(f)[i])
  {
    GroupFound(t, f, |f.members|, i);
    assert DraftedGroup(t, f, i);
  }

  lemma PlanModelsNamed(t: Task, reg: Registry, f: Draft, hash: Hash, h: Name)
    requires Drafted(t, f) && h in GroupsUpTo(f, |f.members|) && GroupsUpTo(f, |f.members|)[h].model.Some?
    ensures h in Names(f)[..f.parts]
  {
    GroupNames(f, |f.members|, h);
    var i :| 0 <= i < |f.members| && h == f.naming(f.members[i]);
    GroupFound(t, f, |f.members|, i);
    assert Names(f)[..f.parts][i] == h;
  }

  lemma PartsCarried(t: Task, reg: Registry, f: Draft, hash: Hash)
    requires Drafted(t, f)
    ensures forall i :: 0 <= i < f.parts ==>
      CarriesPart(PlanOf(t, reg, f, hash), f.model, f.members[i], NamesOfParts(f)[i])
  {
    forall i | 0 <= i < f.parts
      ensures CarriesPart(PlanOf(t, reg, f, hash), f.model, f.members[i], NamesOfParts(f)[i])
    {
      PlanCarriesPart(t, reg, f, hash, i);
    }
  }

  lemma ModelsNamed(t: Task, reg: Registry, f: Draft, hash: Hash)
    requires Drafted(t, f)
    ensures var p := PlanOf(t, reg, f, hash);
      forall h :: h in p.groups && p.groups[h].model.Some? ==> h in NamesOfParts(f)
  {
    forall h | h in GroupsUpTo(f, |f.members|) && GroupsUpTo(f, |f.members|)[h].model.Some?
      ensures h in NamesOfParts(f)
    {
      PlanModelsNamed(t, reg, f, hash, h);
    }
  }

  lemma PlanCarriesModel(t: Task, reg: Registry, g: Graph, comps: seq<seq<Name>>, f: Draft, hash: Hash)
    requires Drafted(t, f) && ValidModel(f.model) && IsInteraction(f.model, g) && IsComponents(g, comps)
    requires |comps| == f.parts && forall i :: 0 <= i < |comps| ==> f.members[i] == comps[i]
    requires f.model.domains.Keys <= t.obligations.Keys
    ensures CarriesModel(PlanOf(t, reg, f, hash), f.model, g, comps, NamesOfParts(f))
  {
    PartsCarried(t, reg, f, hash);
    ModelsNamed(t, reg, f, hash);
  }

  function NamesOfParts(f: Draft): (r: seq<Name>)
    ensures f.parts <= |f.members| ==> |r| == f.parts
  {
    if f.parts <= |f.members| then Names(f)[..f.parts] else []
  }

  lemma CompiledObligations(p: Plan, g: Name)
    requires WellPlanned(p) && g in p.groups
    ensures WellFormedObligation(CompiledTask(p), g, CompiledTask(p).obligations[g])
  {
    assert WellFormedGroup(p, g, p.groups[g]);
    CompiledObligationWellFormed(p, p.groups[g]);
  }

  lemma AllCompiledObligations(p: Plan)
    requires WellPlanned(p)
    ensures forall g :: g in p.groups ==> WellFormedObligation(CompiledTask(p), g, CompiledTask(p).obligations[g])
  {
    forall g | g in p.groups ensures WellFormedObligation(CompiledTask(p), g, CompiledTask(p).obligations[g]) {
      CompiledObligations(p, g);
    }
  }

  lemma CompiledShape(p: Plan)
    requires p.order != [] && Distinct(p.order) && ToSet(p.order) == p.groups.Keys
    requires forall a :: a in p.task.artifacts ==> p.task.artifacts[a].lines != []
    requires forall g :: g in p.groups ==> WellFormedObligation(CompiledTask(p), g, CompiledTask(p).obligations[g])
    ensures WellFormed(CompiledTask(p))
  {
    assert CompiledTask(p).obligations.Keys == p.groups.Keys;
  }

  lemma CompiledWellFormed(p: Plan)
    requires WellPlanned(p)
    ensures WellFormed(CompiledTask(p))
  {
    AllCompiledObligations(p);
    CompiledShape(p);
  }

  lemma CompiledObligationWellFormed(p: Plan, g: Group)
    requires WellPlanned(p)
    ensures WellFormedObligation(CompiledTask(p), g.id, GroupObligation(p, g))
  {
    SortedSpec(GroupEvidence(p, g));
    SortedSpec(ExternalDeps(p, g));
    forall a | a in GroupEvidence(p, g) ensures a in p.task.artifacts {
      var n :| n in g.ordered && n in p.task.obligations && a in p.task.obligations[n].evidence;
      assert WellFormedObligation(p.task, n, p.task.obligations[n]);
      assert a in ToSet(p.task.obligations[n].evidence);
    }
    forall h | h in ExternalDeps(p, g) ensures h in p.groups {
      var n, d :| n in g.ordered && CrossesTo(p, g, n, d) && p.owner[d] == h;
    }
  }

  /** One group is blocked only if its part of the model has no solution. */
  ghost predicate RightlyBlocked(p: Plan, name: Name) {
    && name in p.groups && p.groups[name].model.Some? && ValidModel(p.groups[name].model.value)
    && forall w :: !Satisfies(p.groups[name].model.value, w)
  }

  /** The members of a group, in the order in which the certificate eliminates them. */
  lemma GroupOrdering(g: Graph, ordering: seq<Name>, group: seq<Name>)
    requires Permutation(g, ordering) && ToSet(group) <= g.Keys
    ensures var order := Select(ordering, ToSet(group), true);
      Distinct(order) && ToSet(order) == ToSet(group) && |order| == |ToSet(group)|
  {
    PermutationIsDistinct(g, ordering);
    var order := Select(ordering, ToSet(group), true);
    assert forall n :: n in ordering <==> n in ToSet(ordering);
    assert ToSet(order) == ToSet(group);
    DistinctSize(order);
  }

  /** What the search of one component comes to within a budget. */
  function PartDecision(m: Model, group: seq<Name>, ordering: seq<Name>, limit: nat): SearchResult {
    Decision(Restricted(m, ToSet(group)), Select(ordering, ToSet(group), true), limit)
  }

  /** What deciding one component takes. */
  function PartNodes(m: Model, group: seq<Name>, ordering: seq<Name>): nat {
    NodesNeeded(Restricted(m, ToSet(group)), Select(ordering, ToSet(group), true))
  }

  /** What is left of the budget after the first `k` components. */
  function Left(m: Model, comps: seq<seq<Name>>, ordering: seq<Name>, limit: nat, k: nat): (left: nat)
    requires k <= |comps|
    ensures left <= limit
  {
    if k == 0 then limit else
      var before := Left(m, comps, ordering, limit, k - 1);
      before - PartDecision(m, comps[k - 1], ordering, before).nodes
  }

  /** Within its share of the budget, component `k` is found to have no solution. */
  predicate Refuted(m: Model, comps: seq<seq<Name>>, ordering: seq<Name>, limit: nat, k: nat)
    requires k < |comps|
  {
    PartDecision(m, comps[k], ordering, Left(m, comps, ordering, limit, k)).status.Unsat?
  }

  function Sum(costs: seq<nat>): nat {
    if costs == [] then 0 else Sum(costs[..|costs| - 1]) + costs[|costs| - 1]
  }

  lemma {:induction false} SumOfPart(costs: seq<nat>, k: nat)
    requires k < |costs|
    ensures Sum(costs[..k]) + costs[k] <= Sum(costs)
  {
    var front := costs[..|costs| - 1];
    if k < |front| {
      SumOfPart(front, k);
      assert front[..k] == costs[..k];
    }
  }

  /** What deciding each component takes. */
  function Costs(m: Model, comps: seq<seq<Name>>, ordering: seq<Name>): seq<nat> {
    seq(|comps|, i requires 0 <= i < |comps| => PartNodes(m, comps[i], ordering))
  }

  /** A search with enough budget uses just what it takes. */
  lemma EnoughForPart(m: Model, group: seq<Name>, ordering: seq<Name>, limit: nat)
    requires PartNodes(m, group, ordering) <= limit
    ensures PartDecision(m, group, ordering, limit).nodes == PartNodes(m, group, ordering)
  {
  }

  lemma {:induction false} EnoughIsLeft(m: Model, comps: seq<seq<Name>>, ordering: seq<Name>, limit: nat, k: nat)
    requires k <= |comps| && Sum(Costs(m, comps, ordering)[..k]) <= limit
    ensures Left(m, comps, ordering, limit, k) == limit - Sum(Costs(m, comps, ordering)[..k])
  {
    if k > 0 {
      var costs := Costs(m, comps, ordering);
      assert costs[..k][..k - 1] == costs[..k - 1] && costs[..k][k - 1] == PartNodes(m, comps[k - 1], ordering);
      EnoughIsLeft(m, comps, ordering, limit, k - 1);
      EnoughForPart(m, comps[k - 1], ordering, Left(m, comps, ordering, limit, k - 1));
    }
  }

  lemma ShareSuffices(m: Model, comps: seq<seq<Name>>, ordering: seq<Name>, limit: nat, k: nat)
    requires k < |comps| && Sum(Costs(m, comps, ordering)) <= limit
    ensures PartNodes(m, comps[k], ordering) <= Left(m, comps, ordering, limit, k)
  {
    SumOfPart(Costs(m, comps, ordering), k);
    EnoughIsLeft(m, comps, ordering, limit, k);
  }

  /** With enough budget, the search of a component decides whether it has a solution. */
  lemma PartIsDecided(m: Model, g: Graph, group: seq<Name>, ordering: seq<Name>, limit: nat)
    requires ValidModel(m) && IsInteraction(m, g) && IsComponent(g, group) && Permutation(g, ordering)
    requires PartNodes(m, group, ordering) <= limit
    ensures PartDecision(m, group, ordering, limit).status.Unsat? <==>
      forall w :: !Satisfies(Restricted(m, ToSet(group)), w)
  {
    ComponentFacts(m, g, group);
    GroupOrdering(g, ordering, group);
    FeasibilityIsExact(Restricted(m, ToSet(group)), Select(ordering, ToSet(group), true), limit);
  }

  /** With a budget that covers all components, exactly those without a solution are refuted. */
  lemma BlockingIsComplete(m: Model, g: Graph, comps: seq<seq<Name>>, ordering: seq<Name>, limit: nat, k: nat)
    requires ValidModel(m) && IsInteraction(m, g) && Permutation(g, ordering)
    requires k < |comps| && IsComponent(g, comps[k]) && Sum(Costs(m, comps, ordering)) <= limit
    ensures Refuted(m, comps, ordering, limit, k) <==> forall w :: !Satisfies(Restricted(m, ToSet(comps[k])), w)
  {
    ShareSuffices(m, comps, ordering, limit, k);
    PartIsDecided(m, g, comps[k], ordering, Left(m, comps, ordering, limit, k));
  }

  /** What the record of a preparation says about certificate and searches; only the `cic` mode makes them. */
  ghost predicate Analysed(m: Model, g: Graph, comps: seq<seq<Name>>, names: seq<Name>, cic: bool, limit: nat,
      certificate: Option<Certificate>, blocked: set<Name>, nodes: nat) {
    && |names| == |comps|
    && (certificate.Some? <==> cic)
    && (!cic ==> blocked == {} && nodes == 0)
    && (cic ==>
          && VerifyCertificate(g, certificate.value) && Greedy(g, certificate.value.ordering)
          && nodes == limit - Left(m, comps, certificate.value.ordering, limit, |comps|)
          && blocked == BlockedNames(m, comps, names, certificate.value.ordering, limit, |comps|))
  }

  /** The names of the refuted ones among the first `k` components. */
  ghost function BlockedNames(m: Model, comps: seq<seq<Name>>, names: seq<Name>, ordering: seq<Name>, limit: nat,
      k: nat): set<Name>
    requires k <= |comps| == |names|
  {
    if k == 0 then {} else
      BlockedNames(m, comps, names, ordering, limit, k - 1)
      + if Refuted(m, comps, ordering, limit, k - 1) then {names[k - 1]} else {}
  }

  /** Searches one component with what is left of the budget. */
  method SearchGroup(m: Model, g: Graph, group: seq<Name>, ordering: seq<Name>, limit: nat)
    returns (r: SearchResult)
    requires ValidModel(m) && IsInteraction(m, g) && IsComponent(g, group) && Permutation(g, ordering)
    requires limit <= MAX_NODES
    ensures r == PartDecision(m, group, ordering, limit)
    ensures r.nodes <= limit && ValidModel(Restricted(m, ToSet(group)))
    ensures r.status.Unsat? ==> forall w :: !Satisfies(Restricted(m, ToSet(group)), w)
  {
    ComponentFacts(m, g, group);
    GroupOrdering(g, ordering, group);
    var sub := Restricted(m, ToSet(group));
    var order := Select(ordering, ToSet(group), true);
    var found := Feasibility(sub, order, limit);
    FeasibilityIsExact(sub, order, limit);
    r := found.value;
  }

  lemma BlockedRightly(p: Plan, m: Model, comp: seq<Name>, name: Name)
    requires CarriesPart(p, m, comp, name) && ValidModel(Restricted(m, ToSet(comp)))
    requires forall w :: !Satisfies(Restricted(m, ToSet(comp)), w)
    ensures RightlyBlocked(p, name)
  {
  }

  lemma RefutedRightly(p: Plan, m: Model, g: Graph, comp: seq<Name>, name: Name, ordering: seq<Name>, limit: nat)
    requires ValidModel(m) && IsInteraction(m, g) && IsComponent(g, comp) && Permutation(g, ordering)
    requires CarriesPart(p, m, comp, name)
    requires PartDecision(m, comp, ordering, limit).status.Unsat?
    ensures RightlyBlocked(p, name)
  {
    ComponentFacts(m, g, comp);
    GroupOrdering(g, ordering, comp);
    FeasibilityIsExact(Restricted(m, ToSet(comp)), Select(ordering, ToSet(comp), true), limit);
    BlockedRightly(p, m, comp, name);
  }

  lemma {:induction false} BlockedHasIndex(m: Model, comps: seq<seq<Name>>, names: seq<Name>, ordering: seq<Name>,
      limit: nat, k: nat, h: Name)
    returns (i: nat)
    requires k <= |comps| == |names| && h in BlockedNames(m, comps, names, ordering, limit, k)
    ensures i < k && names[i] == h && Refuted(m, comps, ordering, limit, i)
  {
    if h in BlockedNames(m, comps, names, ordering, limit, k - 1) {
      i := BlockedHasIndex(m, comps, names, ordering, limit, k - 1, h);
    } else {
      i := k - 1;
    }
  }

  lemma BlockedIsRefuted(p: Plan, m: Model, g: Graph, comps: seq<seq<Name>>, names: seq<Name>, ordering: seq<Name>,
      limit: nat, h: Name)
    requires CarriesModel(p, m, g, comps, names) && Permutation(g, ordering)
    requires h in BlockedNames(m, comps, names, ordering, limit, |comps|)
    ensures RightlyBlocked(p, h)
  {
    var i := BlockedHasIndex(m, comps, names, ordering, limit, |comps|, h);
    assert CarriesPart(p, m, comps[i], names[i]);
    RefutedRightly(p, m, g, comps[i], names[i], ordering, Left(m, comps, ordering, limit, i));
  }

  /** Searches every component in turn; the groups together never use more than the limit. */
  method SearchAll(p: Plan, m: Model, g: Graph, comps: seq<seq<Name>>, names: seq<Name>, ordering: seq<Name>,
      limit: nat)
    returns (blocked: set<Name>, nodes: nat)
    requires CarriesModel(p, m, g, comps, names) && Permutation(g, ordering) && limit <= MAX_NODES
    ensures nodes == limit - Left(m, comps, ordering, limit, |comps|)
    ensures blocked == BlockedNames(m, comps, names, ordering, limit, |comps|)
    ensures forall h :: h in blocked ==> RightlyBlocked(p, h)
  {
    blocked, nodes := SearchEach(m, g, comps, names, ordering, limit);
    forall h | h in blocked
      ensures RightlyBlocked(p, h)
    {
      BlockedIsRefuted(p, m, g, comps, names, ordering, limit, h);
    }
  }

  method SearchEach(m: Model, g: Graph, comps: seq<seq<Name>>, names: seq<Name>, ordering: seq<Name>, limit: nat)
    returns (blocked: set<Name>, nodes: nat)
    requires ValidModel(m) && IsInteraction(m, g) && Permutation(g, ordering) && limit <= MAX_NODES
    requires |names| == |comps|
    requires forall i :: 0 <= i < |comps| ==> IsComponent(g, comps[i])
    ensures nodes == limit - Left(m, comps, ordering, limit, |comps|)
    ensures blocked == BlockedNames(m, comps, names, ordering, limit, |comps|)
  {
    blocked, nodes := {}, 0;
    for k := 0 to |comps|
      invariant nodes == limit - Left(m, comps, ordering, limit, k)
      invariant blocked == BlockedNames(m, comps, names, ordering, limit, k)
    {
      blocked, nodes := SearchNext(m, g, comps, names, ordering, limit, k, blocked, nodes);
    }
  }

  method SearchNext(m: Model, g: Graph, comps: seq<seq<Name>>, names: seq<Name>, ordering: seq<Name>, limit: nat,
      k: nat, blocked: set<Name>, nodes: nat)
    returns (blocked': set<Name>, nodes': nat)
    requires ValidModel(m) && IsInteraction(m, g) && Permutation(g, ordering) && limit <= MAX_NODES
    requires k < |comps| == |names| && IsComponent(g, comps[k])
    requires nodes == limit - Left(m, comps, ordering, limit, k)
    requires blocked == BlockedNames(m, comps, names, ordering, limit, k)
    ensures nodes' == limit - Left(m, comps, ordering, limit, k + 1)
    ensures blocked' == BlockedNames(m, comps, names, ordering, limit, k + 1)
  {
    var r := SearchGroup(m, g, comps[k], ordering, limit - nodes);
    nodes' := nodes + r.nodes;
    blocked' := if r.status.Unsat? then blocked + {names[k]} else blocked;
  }

  /**
   * The compiled task, the model it carries, and a search within the limit that blocks only groups without a solution.
   */
  ghost predicate IsPreparation(p: Plan, m: Model, names: seq<Name>, limit: nat, r: Prepared) {
    && r.plan == p && WellPlanned(p) && Accepted(CompiledTask(p))
    && CarriesModel(p, m, r.graph, r.comps, names)
    && r.searchNodes <= limit
    && forall h :: h in r.blocked ==> RightlyBlocked(p, h)
  }

  /** What `prepare` comes to: no model to compile, a compiled task, or an error. */
  datatype Preparation = Unchanged | Compiled(prepared: Prepared) | Rejected

  function CompiledTo(r: Preparation): Result<Prepared> {
    if r.Compiled? then Ok(r.prepared) else Err
  }

  /**
   * `prepare`: a task without a structural model is passed through; one with a model is compiled exactly when the
   * structure is supported, the generated names are free and the quotient is acyclic.
   */
  method Prepare(t: Task, reg: Registry, model: Option<Model>, hash: Hash, cic: bool, limit: nat, naming: Naming)
    returns (r: Preparation, ghost graph: Graph, ghost comps: seq<seq<Name>>, ghost draft: Draft)
    requires Accepted(t) && limit <= MAX_NODES && Collisionless(naming)
    ensures r.Unchanged? <==> t.structure.None?
    ensures r.Compiled? ==> StructureSupported(t, reg, model)
    ensures StructureSupported(t, reg, model) ==>
      && IsGrouping(t, model.value, naming, graph, comps, draft)
      && PrepareMeans(t, reg, hash, cic, limit, graph, comps, draft, CompiledTo(r))
  {
    graph, comps, draft := map[], [], Draft(naming, [], [], Model(map[], [], [], []), 0);
    if t.structure.None? {
      return Unchanged, graph, comps, draft;
    }
    var compiled := Err;
    if StructureSupported(t, reg, model) {
      compiled, graph, comps, draft := PrepareSupported(t, reg, model.value, hash, cic, limit, naming);
    }
    r := if compiled.Ok? then Compiled(compiled.value) else Rejected;
  }

  /**
   * What grouping a task by a model comes to: the components of the interaction graph by their least members, then
   * every obligation outside the model on its own in the order of the task, each group with its generated name.
   */
  ghost predicate IsGrouping(t: Task, m: Model, naming: Naming, g: Graph, comps: seq<seq<Name>>, f: Draft) {
    && IsInteraction(m, g) && IsComponents(g, comps) && ByLeast(comps)
    && f.naming == naming && f.model == m && f.parts == |comps| && f.members == AllMembers(t, g, comps)
    && Drafted(t, f)
  }

  /**
   * A supported task is compiled exactly when the group names are new and the quotient is acyclic, and then the
   * result is a preparation.
   */
  ghost predicate PrepareMeans(t: Task, reg: Registry, hash: Hash, cic: bool, limit: nat,
      g: Graph, comps: seq<seq<Name>>, f: Draft, r: Result<Prepared>) {
    && (r.Ok? <==> FreshNames(t, reg, f) && !Cyclic(Quotient(t, reg, f, hash)))
    && (r.Ok? ==> IsPreparation(PlanOf(t, reg, f, hash), f.model, NamesOfParts(f), limit, r.value))
    && (r.Ok? ==> r.value.graph == g && r.value.comps == comps)
    && (r.Ok? ==> AnalysedAs(f.model, NamesOfParts(f), cic, limit, r.value))
  }

  ghost predicate AnalysedAs(m: Model, names: seq<Name>, cic: bool, limit: nat, r: Prepared) {
    Analysed(m, r.graph, r.comps, names, cic, limit, r.certificate, r.blocked, r.searchNodes)
  }

  function Quotient(t: Task, reg: Registry, f: Draft, hash: Hash): Relation {
    Deps(CompiledTask(PlanOf(t, reg, f, hash)))
  }

  method PrepareSupported(t: Task, reg: Registry, m: Model, hash: Hash, cic: bool, limit: nat, naming: Naming)
    returns (r: Result<Prepared>, graph: Graph, comps: seq<seq<Name>>, f: Draft)
    requires Accepted(t) && limit <= MAX_NODES && Collisionless(naming) && StructureSupported(t, reg, Some(m))
    ensures IsGrouping(t, m, naming, graph, comps, f)
    ensures PrepareMeans(t, reg, hash, cic, limit, graph, comps, f, r)
  {
    graph, comps, f := Grouped(t, m, naming);
    if !FreshNames(t, reg, f) {
      r := Err;
    } else {
      r := FinishDraft(t, reg, graph, comps, f, hash, cic, limit);
    }
  }

  /** Everything grouping has established about a draft. */
  ghost predicate ReadyDraft(t: Task, reg: Registry, g: Graph, comps: seq<seq<Name>>, f: Draft) {
    && Accepted(t) && Registered(t, reg) && Drafted(t, f) && FreshNames(t, reg, f)
    && ValidModel(f.model) && IsInteraction(f.model, g) && IsComponents(g, comps)
    && |comps| == f.parts && (forall i :: 0 <= i < |comps| ==> f.members[i] == comps[i])
    && f.model.domains.Keys <= t.obligations.Keys
  }

  lemma DraftIsReady(t: Task, reg: Registry, g: Graph, comps: seq<seq<Name>>, f: Draft, hash: Hash)
    requires ReadyDraft(t, reg, g, comps, f)
    ensures WellPlanned(PlanOf(t, reg, f, hash))
    ensures CarriesModel(PlanOf(t, reg, f, hash), f.model, g, comps, NamesOfParts(f))
  {
    PlanIsWellPlanned(t, reg, f, hash);
    PlanCarriesModel(t, reg, g, comps, f, hash);
  }

  method FinishDraft(
      t: Task, reg: Registry, g: Graph, comps: seq<seq<Name>>, f: Draft, hash: Hash, cic: bool, limit: nat)
    returns (r: Result<Prepared>)
    requires ReadyDraft(t, reg, g, comps, f) && Supported(g) && limit <= MAX_NODES
    ensures r.Ok? <==> !Cyclic(Quotient(t, reg, f, hash))
    ensures r.Ok? ==> IsPreparation(PlanOf(t, reg, f, hash), f.model, NamesOfParts(f), limit, r.value)
    ensures r.Ok? ==> AnalysedAs(f.model, NamesOfParts(f), cic, limit, r.value)
    ensures r.Ok? ==> r.value.graph == g && r.value.comps == comps
  {
    var p := PlanOf(t, reg, f, hash);
    var c := SearchedDraft(t, reg, g, comps, f, hash, cic, limit);
    DraftCompiles(t, reg, g, comps, f, hash);
    var compiled := NewTask(CompiledTask(p));
    if compiled.Ok? {
      DraftIsPreparation(t, reg, g, comps, f, hash, limit, c);
      return Ok(c);
    }
    r := Err;
  }

  lemma DraftCompiles(t: Task, reg: Registry, g: Graph, comps: seq<seq<Name>>, f: Draft, hash: Hash)
    requires ReadyDraft(t, reg, g, comps, f)
    ensures WellFormed(CompiledTask(PlanOf(t, reg, f, hash)))
  {
    DraftIsReady(t, reg, g, comps, f, hash);
    CompiledWellFormed(PlanOf(t, reg, f, hash));
  }

  lemma DraftIsPreparation(t: Task, reg: Registry, g: Graph, comps: seq<seq<Name>>, f: Draft, hash: Hash, limit: nat,
      c: Prepared)
    requires ReadyDraft(t, reg, g, comps, f) && Accepted(CompiledTask(PlanOf(t, reg, f, hash)))
    requires Measured(PlanOf(t, reg, f, hash), limit, c) && c.graph == g && c.comps == comps
    ensures IsPreparation(PlanOf(t, reg, f, hash), f.model, NamesOfParts(f), limit, c)
  {
    DraftIsReady(t, reg, g, comps, f, hash);
  }

  /** The record of a preparation keeps to the limit and blocks only groups without a solution. */
  ghost predicate Measured(p: Plan, limit: nat, r: Prepared) {
    r.plan == p && r.searchNodes <= limit && forall h :: h in r.blocked ==> RightlyBlocked(p, h)
  }

  method SearchedDraft(t: Task, reg: Registry, g: Graph, comps: seq<seq<Name>>, f: Draft, hash: Hash, cic: bool,
      limit: nat)
    returns (c: Prepared)
    requires ReadyDraft(t, reg, g, comps, f) && Supported(g) && limit <= MAX_NODES
    ensures Measured(PlanOf(t, reg, f, hash), limit, c) && c.graph == g && c.comps == comps
    ensures AnalysedAs(f.model, NamesOfParts(f), cic, limit, c)
  {
    DraftIsReady(t, reg, g, comps, f, hash);
    c := Searched(PlanOf(t, reg, f, hash), f.model, g, comps, NamesOfParts(f), cic, limit);
  }

  /** The interaction graph, its components, and the draft of all groups. */
  method Grouped(t: Task, m: Model, naming: Naming) returns (graph: Graph, comps: seq<seq<Name>>, f: Draft)
    requires Accepted(t) && ValidModel(m) && m.domains.Keys <= t.obligations.Keys && Collisionless(naming)
    ensures Supported(graph) && IsGrouping(t, m, naming, graph, comps, f)
  {
    var built := InteractionGraph(m);
    graph := built.value;
    comps := ConnectedComponents(graph);
    var members := AllMembers(t, graph, comps);
    MembersPartition(t, graph, comps);
    var ordered := OrderAll(t, members);
    f := Draft(naming, members, ordered, m, |comps|);
    DraftIsDrafted(t, m, graph, comps, f);
  }

  /** The certificate and the searches, which only the `cic` mode makes. */
  method Searched(p: Plan, m: Model, g: Graph, comps: seq<seq<Name>>, names: seq<Name>, cic: bool, limit: nat)
    returns (c: Prepared)
    requires CarriesModel(p, m, g, comps, names) && Supported(g) && limit <= MAX_NODES
    ensures Measured(p, limit, c) && c.graph == g && c.comps == comps
    ensures AnalysedAs(m, names, cic, limit, c)
  {
    c := Prepared(p, g, comps, None, {}, 0);
    if cic {
      var found := MinFill(g);
      var blocked, nodes := SearchAll(p, m, g, comps, names, found.value.ordering, limit);
      c := Prepared(p, g, comps, Some(found.value), blocked, nodes);
    }
  }

  // ---------------------------------------------------------------- the model is evidence

  /** Every group that carries a part of the model declares the artifact that holds the model. */
  lemma ModelIsEvidence(p: Plan, m: Model, g: Graph, comps: seq<seq<Name>>, names: seq<Name>, i: nat)
    requires StructureSupported(p.task, p.registry, Some(m)) && CarriesModel(p, m, g, comps, names) && i < |comps|
    ensures p.task.structure.value in GroupObligation(p, p.groups[names[i]]).evidence
  {
    var comp, group := comps[i], p.groups[names[i]];
    assert CarriesPart(p, m, comp, names[i]);
    var n := comp[0];
    assert n in ToSet(comp) && n in group.ordered && n in m.domains;
    CompiledEvidence(p, group, n, p.task.structure.value);
  }
}
