/** What whole runs guarantee: results, reruns over a warm cache, and runs over a compiled task (residual/engine.py). */
module Results {
  import opened Basics
  import opened Dag
  import opened Elimination
  import opened Constraints
  import opened Tasks
  import opened Receipts
  import opened Bookkeeping
  import opened WarmRuns
  import opened Packets
  import opened Engine
  import opened Grouping
  import opened Meaning
  import opened Solving
  import opened Compiler
  import opened Provenance
  import Search

  // ---------------------------------------------------------------- the result of a run

  datatype Reason = DependencyBlocked(missing: set<Name>) | FailedWith(code: string) | NoCandidate

  function Missing(t: Task, accepted: map<Name, Json>, n: Name): set<Name> {
    if n in t.obligations then set d | d in t.obligations[n].dependsOn && d !in accepted else {}
  }

  function ReasonFor(t: Task, accepted: map<Name, Json>, failures: map<Name, string>, n: Name): Reason {
    if Missing(t, accepted, n) != {} then DependencyBlocked(Missing(t, accepted, n))
    else if n in failures then FailedWith(failures[n]) else NoCandidate
  }

  /** The unresolved obligations, each with its reason, in a pass over the task. */
  method Unresolved(h: Harness) returns (unresolved: map<Name, Reason>)
    requires h.ValidBooks()
    ensures unresolved.Keys == h.t.obligations.Keys - h.accepted.Keys
    ensures forall n :: n in unresolved ==> unresolved[n] == ReasonFor(h.t, h.accepted, h.failures, n)
  {
    unresolved := map[];
    var order := h.t.order;
    for i := 0 to |order|
      invariant unresolved.Keys == ToSet(order[..i]) - h.accepted.Keys
      invariant forall n :: n in unresolved ==> unresolved[n] == ReasonFor(h.t, h.accepted, h.failures, n)
    {
      TakeSnoc(order, i);
      if order[i] !in h.accepted {
        unresolved := unresolved[order[i] := ReasonFor(h.t, h.accepted, h.failures, order[i])];
      }
    }
    assert order[..|order|] == order;
  }

  /**
   * Every obligation is either accepted or unresolved; a dependency-blocked one depends, possibly
   * through others, on one that is unresolved although all its own dependencies were accepted.
   */
  lemma BlockedHasACause(t: Task, accepted: map<Name, Json>, failures: map<Name, string>, n: Name)
    returns (p: seq<Name>)
    requires Tasks.Accepted(t) && n in t.obligations && n !in accepted
    ensures Walk(Deps(t), p) && p[0] == n
    ensures var a := p[|p| - 1];
      a in t.obligations && a !in accepted && !ReasonFor(t, accepted, failures, a).DependencyBlocked?
  {
    p := BlockedByAFailure(t, accepted, n);
  }

  // ---------------------------------------------------------------- running again

  /** Everything that one run decides about an earlier one's accepted obligation. */
  ghost predicate Repeated(first: Harness, second: Harness, n: Name)
    reads first, second
  {
    SameAt(first.Bk(), second.Bk(), n) && Appearances(second.calls, n) == 0 && n !in second.solved
  }

  const NO_BOOKS := Books(map[], map[], map[])

  /** What a run is given besides its task: limits, mode and providers. */
  datatype Setting = Setting(limits: Limits, mode: Mode, local: Option<Provider>, expert: Option<Provider>)

  /** One run with a cache, over whatever an earlier run left in it. */
  method RunTask(t: Task, reg: Registry, cache: Cache, s: Setting, grouped: bool, blocked: set<Name>,
      ghost prior: Books)
    returns (h: Harness)
    requires Tasks.Accepted(t) && Registered(t, reg) && Kept(t, reg, prior) && Stocked(t, reg, prior, cache.rows)
    requires blocked <= t.obligations.Keys && blocked !! prior.accepted.Keys
    modifies cache
    ensures fresh(h) && h.Valid() && h.t == t && h.reg == reg && h.cache == cache && h.caching
    ensures h.AtFixpoint() && h.accepted.Keys !! h.blocked && h.blocked == blocked
    ensures Kept(t, reg, h.Bk()) && Stocked(t, reg, h.Bk(), cache.rows)
    ensures forall n :: n in prior.accepted ==>
      SameAt(prior, h.Bk(), n) && Appearances(h.calls, n) == 0 && n !in h.solved
  {
    h := new Harness(t, reg, s.limits, s.mode, s.local, s.expert, cache, true, grouped, blocked, prior);
    var tried := h.Run();
    h.Parts();
    h.Pages();
  }

  /**
   * Two runs of one task over one cache, plain or compiled, whatever the cache held at first, whatever the providers
   * answer in either run, and even with different limits, modes and providers the second time.
   */
  method RunTwice(t: Task, reg: Registry, cache: Cache, s: Setting, s': Setting, grouped: bool, blocked: set<Name>)
    returns (first: Harness, second: Harness)
    requires Tasks.Accepted(t) && Registered(t, reg) && blocked <= t.obligations.Keys
    modifies cache
    ensures Kept(t, reg, first.Bk()) && Kept(t, reg, second.Bk()) && second.Valid()
    ensures first.t == second.t == t && first.reg == second.reg == reg
    ensures forall n :: n in first.accepted ==> Repeated(first, second, n)
  {
    NothingAcceptedYet(t, reg);
    first := RunTask(t, reg, cache, s, grouped, blocked, NO_BOOKS);
    second := RunTask(t, reg, cache, s', grouped, blocked, first.Bk());
    forall n | n in first.accepted ensures Repeated(first, second, n) {
      assert SameAt(first.Bk(), second.Bk(), n);
    }
  }

  // ---------------------------------------------------------------- runs over a compiled task

  lemma RunFamilyIsClosed(p: Plan, b: Books)
    requires WellPlanned(p) && Kept(CompiledTask(p), CompiledRegistry(p), b)
    ensures ClosedFamily(p, b.accepted) && EveryGroupPasses(p, b.accepted)
  {
    forall g | g in b.accepted
      ensures g in p.groups && ExternalDeps(p, p.groups[g]) <= b.accepted.Keys
      ensures Passes(CompiledTask(p), CompiledRegistry(p), b.accepted, g)
    {
      assert KeptAt(CompiledTask(p), CompiledRegistry(p), b, g);
      AcceptedGroup(p, b, g);
    }
  }

  lemma AcceptedGroup(p: Plan, b: Books, g: Name)
    requires KeptAt(CompiledTask(p), CompiledRegistry(p), b, g)
    ensures g in p.groups && ExternalDeps(p, p.groups[g]) <= b.accepted.Keys
    ensures Passes(CompiledTask(p), CompiledRegistry(p), b.accepted, g)
  {
    SortedSpec(ExternalDeps(p, p.groups[g]));
  }

  /**
   * Whatever a run over the compiled task accepts, partial or complete, flattens to values that pass
   * every original check of the members in its original dependency context.
   */
  lemma CompiledRunIsSound(p: Plan, b: Books)
    requires WellPlanned(p) && Kept(CompiledTask(p), CompiledRegistry(p), b)
    ensures EveryMemberPasses(p, b.accepted) && EveryGroupFits(p, b.accepted)
  {
    RunFamilyIsClosed(p, b);
    GroupsPassMembersPass(p, b.accepted);
  }

  /** When every group was accepted, the flattened values also satisfy the whole structural model. */
  lemma CompleteRunSatisfiesModel(p: Plan, m: Model, g: Graph, comps: seq<seq<Name>>, names: seq<Name>, b: Books)
    requires WellPlanned(p) && CarriesModel(p, m, g, comps, names)
    requires Kept(CompiledTask(p), CompiledRegistry(p), b) && b.accepted.Keys == p.groups.Keys
    ensures EveryMemberPasses(p, b.accepted) && ModelHolds(m, Flat(p.owner, b.accepted))
  {
    RunFamilyIsClosed(p, b);
    PreparePreservesMeaning(p, m, g, comps, names, b.accepted);
  }

  /** A group that preparation blocked is in no run's books, so a rerun may leave it out from the start. */
  lemma BlockedIsNeverAccepted(p: Plan, h: Name, b: Books)
    requires WellPlanned(p) && Kept(CompiledTask(p), CompiledRegistry(p), b) && RightlyBlocked(p, h)
    ensures h !in b.accepted
  {
    if h in b.accepted {
      assert KeptAt(CompiledTask(p), CompiledRegistry(p), b, h);
      assert WellFormedGroup(p, h, p.groups[h]);
      CompiledCheck(p, h, b.accepted);
      BlockedGroupRejects(p, p.groups[h], b.accepted[h],
        ContextOf(CompiledTask(p), GroupObligation(p, p.groups[h]), b.accepted));
      assert false;
    }
  }

  lemma GroupIsRegistered(p: Plan, g: Name)
    requires g in p.groups && p.groups[g].id == g
    ensures var o, reg := GroupObligation(p, p.groups[g]), CompiledRegistry(p);
      o.check in reg.checks && (o.solver.Some? ==> o.solver.value in reg.solvers)
  {
  }

  lemma RegistryKeys(p: Plan)
    requires p.registry.editions.Keys == p.registry.checks.Keys
    ensures CompiledRegistry(p).editions.Keys == CompiledRegistry(p).checks.Keys
  {
    assert CompiledRegistry(p).editions.Keys == p.registry.editions.Keys + p.groups.Keys;
    assert CompiledRegistry(p).checks.Keys == p.registry.checks.Keys + p.groups.Keys;
  }

  lemma CompiledIsRegistered(p: Plan)
    requires WellPlanned(p)
    ensures Registered(CompiledTask(p), CompiledRegistry(p))
  {
    RegistryKeys(p);
    forall g | g in p.groups
      ensures var o, reg := GroupObligation(p, p.groups[g]), CompiledRegistry(p);
        o.check in reg.checks && (o.solver.Some? ==> o.solver.value in reg.solvers)
    {
      assert WellFormedGroup(p, g, p.groups[g]);
      GroupIsRegistered(p, g);
    }
  }

  /** The values accepted in a run supply every group whose dependencies are all accepted. */
  lemma AcceptedSupplies(p: Plan, b: Books, name: Name)
    requires WellPlanned(p) && Kept(CompiledTask(p), CompiledRegistry(p), b) && name in p.groups
    requires ExternalDeps(p, p.groups[name]) <= b.accepted.Keys
    ensures Supplied(p, p.groups[name], b.accepted)
  {
    RunFamilyIsClosed(p, b);
    GroupsPassMembersPass(p, b.accepted);
    forall h | h in ExternalDeps(p, p.groups[name])
      ensures h in p.groups && Shaped(p.groups[h], b.accepted[h])
    {
      assert GroupFits(p, b.accepted, h);
    }
  }

  /** Whether a value passes its check does not depend on whether it is among the values already. */
  lemma PassingIsVerdict(t: Task, reg: Registry, b: Books, n: Name, v: Json)
    requires n in t.obligations && n !in t.obligations[n].dependsOn && Passes(t, reg, b.accepted[n := v], n)
    ensures t.obligations[n].check in reg.checks && VerdictOn(t, reg, b, n, v).Pass?
  {
    var o := t.obligations[n];
    assert ContextOf(t, o, b.accepted[n := v]).dependencies == ContextOf(t, o, b.accepted).dependencies;
  }

  lemma OwnIsNoDependency(p: Plan, name: Name)
    requires WellPlanned(p) && name in p.groups
    ensures name in CompiledTask(p).obligations && name !in CompiledTask(p).obligations[name].dependsOn
  {
    assert WellFormedGroup(p, name, p.groups[name]);
    SortedSpec(ExternalDeps(p, p.groups[name]));
  }

  /** The check of a group passes on a value that holds of its members, in whatever books supply it. */
  lemma HoldingPasses(p: Plan, b: Books, name: Name, v: Json)
    requires WellPlanned(p) && name in p.groups && Supplied(p, p.groups[name], b.accepted)
    requires GroupHolds(p, p.groups[name], v, Flat(p.owner, b.accepted[name := v]))
    ensures var t, reg := CompiledTask(p), CompiledRegistry(p);
      name in t.obligations && t.obligations[name].check in reg.checks && VerdictOn(t, reg, b, name, v).Pass?
  {
    SuppliedWith(p, name, b.accepted, v);
    GroupMeaning(p, name, b.accepted[name := v]);
    OwnIsNoDependency(p, name);
    PassingIsVerdict(CompiledTask(p), CompiledRegistry(p), b, name, v);
  }

  lemma SuppliedWith(p: Plan, name: Name, family: map<Name, Json>, v: Json)
    requires WellPlanned(p) && name in p.groups && Supplied(p, p.groups[name], family)
    ensures Supplied(p, p.groups[name], family[name := v])
  {
    assert WellFormedGroup(p, name, p.groups[name]);
    OwnIsNotOutside(p, p.groups[name], family, v);
  }

  lemma GroupHasPassingSolution(p: Plan, b: Books, name: Name, v: Json)
    requires WellPlanned(p) && Kept(CompiledTask(p), CompiledRegistry(p), b) && name in p.groups
    requires ExternalDeps(p, p.groups[name]) <= b.accepted.Keys && MembersSolve(p, name, b.accepted, v)
    requires GroupHolds(p, p.groups[name], v, Flat(p.owner, b.accepted[name := v]))
    ensures var t, reg := CompiledTask(p), CompiledRegistry(p);
      name in t.obligations && t.obligations[name].check in reg.checks && PassingSolution(t, reg, b, name)
  {
    AcceptedSupplies(p, b, name);
    GroupSolution(p, name, b.accepted, v);
    HoldingPasses(p, b, name, v);
  }

  lemma DependenciesAreExternal(p: Plan, name: Name)
    requires name in p.groups
    ensures var t := CompiledTask(p);
      name in t.obligations && forall d :: d in t.obligations[name].dependsOn <==> d in ExternalDeps(p, p.groups[name])
  {
    SortedSpec(ExternalDeps(p, p.groups[name]));
  }

  /**
   * Where solvers are enabled, a group that can be tried is accepted when what the members' own solvers compute passes
   * every member's own check and fits the model.
   */
  lemma SolvableGroupIsAccepted(p: Plan, h: Harness, name: Name, v: Json)
    requires WellPlanned(p) && h.Valid() && h.t == CompiledTask(p) && h.reg == CompiledRegistry(p)
    requires h.AtFixpoint() && h.Solving()
    requires name in p.groups && name !in h.blocked && ExternalDeps(p, p.groups[name]) <= h.accepted.Keys
    requires MembersSolve(p, name, h.accepted, v)
    requires GroupHolds(p, p.groups[name], v, Flat(p.owner, h.accepted[name := v]))
    ensures name in h.accepted
  {
    h.Parts();
    h.Pages();
    GroupHasPassingSolution(p, h.Bk(), name, v);
    DependenciesAreExternal(p, name);
  }

  /**
   * What a structural run may claim: every accepted member passes its original check in its original context, no
   * blocked group is accepted, and a complete run satisfies the whole model.
   */
  ghost predicate RunSound(r: Prepared, m: Model, accepted: map<Name, Json>) {
    && EveryMemberPasses(r.plan, accepted) && accepted.Keys !! r.blocked
    && (accepted.Keys == r.plan.groups.Keys ==> ModelHolds(m, Flat(r.plan.owner, accepted)))
  }

  /** The compiled task can be run, and every run over it is sound. */
  ghost predicate Runnable(r: Prepared, m: Model) {
    && Tasks.Accepted(CompiledTask(r.plan)) && Registered(CompiledTask(r.plan), CompiledRegistry(r.plan))
    && r.blocked <= CompiledTask(r.plan).obligations.Keys
    && AlwaysSound(r, m)
  }

  ghost predicate AlwaysSound(r: Prepared, m: Model) {
    forall b {:trigger Kept(CompiledTask(r.plan), CompiledRegistry(r.plan), b)} ::
      Kept(CompiledTask(r.plan), CompiledRegistry(r.plan), b) ==> RunSound(r, m, b.accepted)
  }

  /** What preparation returns can be run, and whatever a run over it accepts is sound. */
  lemma PreparedIsRunnable(r: Prepared, m: Model, names: seq<Name>, limit: nat)
    requires IsPreparation(r.plan, m, names, limit, r)
    ensures Runnable(r, m)
  {
    CompiledIsRegistered(r.plan);
    BlockedInside(r, m, names, limit);
    forall b | Kept(CompiledTask(r.plan), CompiledRegistry(r.plan), b)
      ensures RunSound(r, m, b.accepted)
    {
      RunMeans(r, m, names, limit, b);
    }
  }

  lemma BlockedInside(r: Prepared, m: Model, names: seq<Name>, limit: nat)
    requires IsPreparation(r.plan, m, names, limit, r)
    ensures r.blocked <= CompiledTask(r.plan).obligations.Keys
  {
    assert forall h :: h in r.blocked ==> RightlyBlocked(r.plan, h);
  }

  /** A run over a compiled task, with the blocked groups left out. */
  method RunPrepared(r: Prepared, ghost m: Model, cache: Cache, s: Setting) returns (h: Harness)
    requires Runnable(r, m)
    modifies cache
    ensures h.Valid() && h.t == CompiledTask(r.plan) && h.AtFixpoint()
    ensures RunSound(r, m, h.accepted)
  {
    NothingAcceptedYet(CompiledTask(r.plan), CompiledRegistry(r.plan));
    h := RunTask(CompiledTask(r.plan), CompiledRegistry(r.plan), cache, s, true, r.blocked, NO_BOOKS);
    assert Kept(CompiledTask(r.plan), CompiledRegistry(r.plan), h.Bk());
  }

  /** A compiled task is run again from the cache like any other: nothing that was accepted is asked for twice. */
  method RunPreparedTwice(r: Prepared, ghost m: Model, cache: Cache, s: Setting, s': Setting)
    returns (first: Harness, second: Harness)
    requires Runnable(r, m)
    modifies cache
    ensures second.Valid() && first.t == second.t == CompiledTask(r.plan)
    ensures forall g :: g in first.accepted ==> Repeated(first, second, g)
    ensures RunSound(r, m, first.accepted) && RunSound(r, m, second.accepted)
  {
    first, second := RunTwice(CompiledTask(r.plan), CompiledRegistry(r.plan), cache, s, s', true, r.blocked);
    assert Kept(CompiledTask(r.plan), CompiledRegistry(r.plan), first.Bk());
    assert Kept(CompiledTask(r.plan), CompiledRegistry(r.plan), second.Bk());
  }

  /** Preparation succeeds exactly when the names are new and the quotient is acyclic. */
  ghost predicate Prepares(t: Task, reg: Registry, m: Model, naming: Naming, hash: Hash,
      graph: Graph, comps: seq<seq<Name>>, draft: Draft, ok: bool) {
    && IsGrouping(t, m, naming, graph, comps, draft)
    && (ok <==> FreshNames(t, reg, draft) && !Cyclic(Quotient(t, reg, draft, hash)))
  }

  /**
   * A run in a structural mode: the task is prepared, and then the compiled task is run, or the task itself if it has
   * no structural model. There is no run when a model cannot be compiled or a check or solver is not registered.
   */
  method RunStructural(t: Task, reg: Registry, model: Option<Model>, hash: Hash, cic: bool, limit: nat, naming: Naming,
      cache: Cache, s: Setting)
    returns (r: Preparation, h: Option<Harness>,
      ghost graph: Graph, ghost comps: seq<seq<Name>>, ghost draft: Draft)
    requires Tasks.Accepted(t) && limit <= Search.MAX_NODES && Collisionless(naming)
    modifies cache
    ensures r.Unchanged? <==> t.structure.None?
    ensures r.Compiled? ==> StructureSupported(t, reg, model)
    ensures StructureSupported(t, reg, model) ==>
      Prepares(t, reg, model.value, naming, hash, graph, comps, draft, r.Compiled?)
    ensures h.Some? <==> r.Compiled? || (r.Unchanged? && Registered(t, reg))
    ensures h.Some? ==> h.value.Valid() && h.value.AtFixpoint()
    ensures h.Some? && r.Unchanged? ==> h.value.t == t && h.value.reg == reg
    ensures r.Compiled? ==> RunSound(r.prepared, model.value, h.value.accepted)
  {
    r, graph, comps, draft := PrepareToRun(t, reg, model, hash, cic, limit, naming);
    h := None;
    if r.Compiled? {
      var run := RunPrepared(r.prepared, model.value, cache, s);
      h := Some(run);
    } else if r.Unchanged? && Registered(t, reg) {
      NothingAcceptedYet(t, reg);
      var run := RunTask(t, reg, cache, s, false, {}, NO_BOOKS);
      h := Some(run);
    }
  }

  method PrepareToRun(t: Task, reg: Registry, model: Option<Model>, hash: Hash, cic: bool, limit: nat, naming: Naming)
    returns (r: Preparation, ghost graph: Graph, ghost comps: seq<seq<Name>>, ghost draft: Draft)
    requires Tasks.Accepted(t) && limit <= Search.MAX_NODES && Collisionless(naming)
    ensures r.Unchanged? <==> t.structure.None?
    ensures r.Compiled? ==> StructureSupported(t, reg, model) && Runnable(r.prepared, model.value)
    ensures StructureSupported(t, reg, model) ==>
      Prepares(t, reg, model.value, naming, hash, graph, comps, draft, r.Compiled?)
  {
    r, graph, comps, draft := Prepare(t, reg, model, hash, cic, limit, naming);
    if r.Compiled? {
      PreparedIsRunnable(r.prepared, draft.model, NamesOfParts(draft), limit);
    }
  }

  lemma RunMeans(r: Prepared, m: Model, names: seq<Name>, limit: nat, b: Books)
    requires IsPreparation(r.plan, m, names, limit, r) && Kept(CompiledTask(r.plan), CompiledRegistry(r.plan), b)
    ensures RunSound(r, m, b.accepted)
  {
    CompiledRunIsSound(r.plan, b);
    NoneBlocked(r, m, names, limit, b);
    if b.accepted.Keys == r.plan.groups.Keys {
      CompleteRunSatisfiesModel(r.plan, m, r.graph, r.comps, names, b);
    }
  }

  lemma NoneBlocked(r: Prepared, m: Model, names: seq<Name>, limit: nat, b: Books)
    requires IsPreparation(r.plan, m, names, limit, r) && Kept(CompiledTask(r.plan), CompiledRegistry(r.plan), b)
    ensures b.accepted.Keys !! r.blocked
  {
    forall h | h in r.blocked ensures h !in b.accepted {
      BlockedIsNeverAccepted(r.plan, h, b);
    }
  }
}
