/** What the solver of a compiled group computes, and when a group may leave the host (residual/cic.py, `prepare`). */
module Solving {
  import opened Basics
  import opened Dag
  import opened Tasks
  import opened Grouping
  import opened Meaning

  // ---------------------------------------------------------------- the loop over the members

  /** Member `j`, given the members before it, is solved with the value it has in `fields`. */
  predicate StepSolves(p: Plan, g: Group, outside: map<Name, Json>, fields: map<Name, Json>, j: nat)
    requires j < |g.ordered|
  {
    && g.ordered[j] in fields
    && SolveMember(p, g, outside, j, Staged(g, fields, j)) == Some(fields[g.ordered[j]])
  }

  predicate SolvedFrom(p: Plan, g: Group, outside: map<Name, Json>, i: nat, staged: map<Name, Json>, v: Json)
    requires i <= |g.ordered|
  {
    && Shaped(g, v) && Staged(g, v.fields, i) == staged
    && forall j :: i <= j < |g.ordered| ==> StepSolves(p, g, outside, v.fields, j)
  }

  lemma StagedSnoc(g: Group, fields: map<Name, Json>, i: nat)
    requires i < |g.ordered| && g.ordered[i] in fields
    ensures Staged(g, fields, i + 1) == Staged(g, fields, i)[g.ordered[i] := fields[g.ordered[i]]]
  {
    assert g.ordered[..i + 1] == g.ordered[..i] + [g.ordered[i]];
  }

  lemma StagedIs(g: Group, staged: map<Name, Json>, fields: map<Name, Json>, i: nat, v: Json)
    requires i < |g.ordered| && Distinct(g.ordered) && g.ordered[i] in fields && staged.Keys == ToSet(g.ordered[..i])
    ensures Staged(g, fields, i + 1) == staged[g.ordered[i] := v] <==>
      Staged(g, fields, i) == staged && fields[g.ordered[i]] == v
  {
    StagedSnoc(g, fields, i);
    var n, s := g.ordered[i], Staged(g, fields, i);
    assert n !in g.ordered[..i];
    if s[n := fields[n]] == staged[n := v] {
      assert s == s[n := fields[n]] - {n} == staged[n := v] - {n} == staged;
      assert s[n := fields[n]][n] == staged[n := v][n];
    }
  }

  /** Solving from member `i` on is solving that member, and then the others with its value at hand. */
  lemma SolvedFromStep(p: Plan, g: Group, outside: map<Name, Json>, i: nat, staged: map<Name, Json>, v: Json)
    requires i < |g.ordered| && Distinct(g.ordered) && staged.Keys == ToSet(g.ordered[..i])
    ensures SolvedFrom(p, g, outside, i, staged, v) <==>
      var x := SolveMember(p, g, outside, i, staged);
      x.Some? && SolvedFrom(p, g, outside, i + 1, staged[g.ordered[i] := x.value], v)
  {
    var x := SolveMember(p, g, outside, i, staged);
    if Shaped(g, v) {
      assert g.ordered[i] in ToSet(g.ordered);
      assert SolvedFrom(p, g, outside, i, staged, v) ==> StepSolves(p, g, outside, v.fields, i);
      if x.Some? {
        StagedIs(g, staged, v.fields, i, x.value);
      }
    }
  }

  /** The solver loop from member `i` on returns a value exactly when the value solves every member from there on. */
  lemma {:induction false} SolveMeaning(p: Plan, g: Group, ctx: Context, i: nat, staged: map<Name, Json>, v: Json)
    requires i <= |g.ordered| && Distinct(g.ordered) && staged.Keys == ToSet(g.ordered[..i])
    ensures SolveMembers(p, g, ctx, i, staged) == Some(v) <==> SolvedFrom(p, g, ctx.dependencies, i, staged, v)
    decreases |g.ordered| - i
  {
    if i == |g.ordered| {
      SolvedAtEnd(p, g, ctx.dependencies, staged, v);
    } else {
      SolvedFromStep(p, g, ctx.dependencies, i, staged, v);
      var x := SolveMember(p, g, ctx.dependencies, i, staged);
      if x.Some? {
        TakeSnoc(g.ordered, i);
        SolveMeaning(p, g, ctx, i + 1, staged[g.ordered[i] := x.value], v);
      }
    }
  }

  lemma SolvedAtEnd(p: Plan, g: Group, outside: map<Name, Json>, staged: map<Name, Json>, v: Json)
    requires staged.Keys == ToSet(g.ordered[..|g.ordered|])
    ensures SolvedFrom(p, g, outside, |g.ordered|, staged, v) <==> v == Object(staged)
  {
    assert g.ordered[..|g.ordered|] == g.ordered;
    if Shaped(g, v) {
      assert Staged(g, v.fields, |g.ordered|) == v.fields;
    }
  }

  // ---------------------------------------------------------------- a group's solution

  /** Each member has the value that its own solver computes over the flattened values, these included. */
  ghost predicate MembersSolve(p: Plan, name: Name, family: map<Name, Json>, v: Json)
    requires name in p.groups
  {
    && Shaped(p.groups[name], v)
    && forall j :: 0 <= j < |p.groups[name].ordered| ==> MemberSolves(p, family[name := v], p.groups[name].ordered[j])
  }

  ghost predicate MemberSolves(p: Plan, family: map<Name, Json>, n: Name) {
    var flat := Flat(p.owner, family);
    n in flat && SolvedBy(p.task, p.registry, flat, n) == Some(flat[n])
  }

  lemma MemberSolvesIff(p: Plan, name: Name, family: map<Name, Json>, v: Json, j: nat)
    requires WellPlanned(p) && name in p.groups && j < |p.groups[name].ordered| && Shaped(p.groups[name], v)
    requires Supplied(p, p.groups[name], family)
    ensures StepSolves(p, p.groups[name], Outside(p, p.groups[name], family), v.fields, j) <==>
      MemberSolves(p, family[name := v], p.groups[name].ordered[j])
  {
    var g, with := p.groups[name], family[name := v];
    var n := g.ordered[j];
    assert WellFormedGroup(p, name, g);
    assert n in g.ordered && n in ToSet(g.ordered);
    OwnIsNotOutside(p, g, family, v);
    MemberContext(p, name, v.fields, with, j);
  }

  /** No group depends on itself, so that its own value is not among those it is given. */
  lemma OwnIsNotOutside(p: Plan, g: Group, family: map<Name, Json>, v: Json)
    ensures Outside(p, g, family[g.id := v]) == Outside(p, g, family)
    ensures Supplied(p, g, family) ==> Supplied(p, g, family[g.id := v])
  {
  }

  ghost predicate StepsAgree(p: Plan, g: Group, outside: map<Name, Json>, fields: map<Name, Json>,
      family: map<Name, Json>) {
    forall j :: 0 <= j < |g.ordered| ==>
      (StepSolves(p, g, outside, fields, j) <==> MemberSolves(p, family, g.ordered[j]))
  }

  lemma AllStepsAgree(p: Plan, name: Name, family: map<Name, Json>, v: Json)
    requires WellPlanned(p) && name in p.groups && Supplied(p, p.groups[name], family) && Shaped(p.groups[name], v)
    ensures StepsAgree(p, p.groups[name], Outside(p, p.groups[name], family), v.fields, family[name := v])
  {
    forall j | 0 <= j < |p.groups[name].ordered|
      ensures StepSolves(p, p.groups[name], Outside(p, p.groups[name], family), v.fields, j) <==>
        MemberSolves(p, family[name := v], p.groups[name].ordered[j])
    {
      MemberSolvesIff(p, name, family, v, j);
    }
  }

  lemma SolvedIffMembersSolve(p: Plan, name: Name, outside: map<Name, Json>, family: map<Name, Json>, v: Json)
    requires name in p.groups
    requires Shaped(p.groups[name], v) ==> StepsAgree(p, p.groups[name], outside, v.fields, family[name := v])
    ensures SolvedFrom(p, p.groups[name], outside, 0, map[], v) <==> MembersSolve(p, name, family, v)
  {
    if Shaped(p.groups[name], v) {
      assert Staged(p.groups[name], v.fields, 0) == map[];
    }
  }

  lemma GroupSolutionIs(p: Plan, name: Name, family: map<Name, Json>, v: Json, ctx: Context)
    requires WellPlanned(p) && name in p.groups && Supplied(p, p.groups[name], family)
    requires ctx.dependencies == Outside(p, p.groups[name], family)
    ensures SolveMembers(p, p.groups[name], ctx, 0, map[]) == Some(v) <==> MembersSolve(p, name, family, v)
  {
    assert WellFormedGroup(p, name, p.groups[name]);
    SolveMeaning(p, p.groups[name], ctx, 0, map[], v);
    if Shaped(p.groups[name], v) {
      AllStepsAgree(p, name, family, v);
    }
    SolvedIffMembersSolve(p, name, ctx.dependencies, family, v);
  }

  /**
   * What the compiled solver of a group computes when the groups it depends on have their values: `v` if and only if
   * `v` has a value for every member that is what the member's own solver computes over the flattened values.
   */
  lemma GroupSolution(p: Plan, name: Name, family: map<Name, Json>, v: Json)
    requires WellPlanned(p) && name in p.groups && Supplied(p, p.groups[name], family)
    ensures SolvedBy(CompiledTask(p), CompiledRegistry(p), family, name) == Some(v) <==>
      MembersSolve(p, name, family, v)
  {
    assert p.groups[name].id == name by {
      assert WellFormedGroup(p, name, p.groups[name]);
    }
    var ctx := ContextOf(CompiledTask(p), GroupObligation(p, p.groups[name]), family);
    CompiledContext(p, p.groups[name], family);
    GroupSolutionIs(p, name, family, v, ctx);
    CompiledSolver(p, name, family);
    if !AllSolvable(p, p.groups[name]) {
      NoneIfUnsolvable(p, name, family, v);
    }
  }

  /** The compiled solver is the loop over the members, where each of them has a solver. */
  lemma CompiledSolver(p: Plan, name: Name, family: map<Name, Json>)
    requires name in p.groups && p.groups[name].id == name
    ensures SolvedBy(CompiledTask(p), CompiledRegistry(p), family, name) ==
      if AllSolvable(p, p.groups[name]) then
        var ctx := ContextOf(CompiledTask(p), GroupObligation(p, p.groups[name]), family);
        SolveMembers(p, p.groups[name], ctx, 0, map[])
      else None
  {
    var g := p.groups[name];
    assert CompiledTask(p).obligations[name] == GroupObligation(p, g);
    if AllSolvable(p, g) {
      var ctx := ContextOf(CompiledTask(p), GroupObligation(p, g), family);
      assert CompiledRegistry(p).solvers[name](ctx) == SolveMembers(p, g, ctx, 0, map[]);
    }
  }

  lemma NoneIfUnsolvable(p: Plan, name: Name, family: map<Name, Json>, v: Json)
    requires name in p.groups && !AllSolvable(p, p.groups[name])
    ensures !MembersSolve(p, name, family, v)
  {
    var n :| n in p.groups[name].ordered && n in p.task.obligations && p.task.obligations[n].solver.None?;
    var j :| 0 <= j < |p.groups[name].ordered| && p.groups[name].ordered[j] == n;
    assert !MemberSolves(p, family[name := v], p.groups[name].ordered[j]);
  }

  // ---------------------------------------------------------------- what a compiled group is bound to

  lemma {:induction false} ContractsListed(p: Plan, ns: seq<Name>)
    requires forall n :: n in ns ==> n in p.task.obligations
    ensures |MemberContracts(p, ns)| == |ns|
    ensures forall i :: 0 <= i < |ns| ==> MemberContracts(p, ns)[i] == p.task.obligations[ns[i]]
  {
    if ns != [] {
      assert ns[0] in ns;
      ContractsListed(p, ns[1..]);
    }
  }

  /** Two groups have the same members in the same order with the same contracts, and the same model if any. */
  ghost predicate SameContracts(p: Plan, g: Group, p': Plan, g': Group) {
    && p.modelHash == p'.modelHash && |g.ordered| == |g'.ordered|
    && forall i :: 0 <= i < |g.ordered| ==>
        && g.ordered[i] in p.task.obligations && g'.ordered[i] in p'.task.obligations
        && p.task.obligations[g.ordered[i]] == p'.task.obligations[g'.ordered[i]]
  }

  /** Every check that a member uses has the same edition and the same identity, if any, in both registries. */
  ghost predicate SameVerifiers(p: Plan, g: Group, p': Plan, g': Group) {
    MemberChecks(p, g) == MemberChecks(p', g') && forall c :: c in MemberChecks(p, g) ==>
      && EditionAt(p.registry, c) == EditionAt(p'.registry, c)
      && IdentityAt(p.registry, c) == IdentityAt(p'.registry, c)
  }

  function EditionAt(reg: Registry, c: Name): Option<Hash> {
    if c in reg.editions then Some(reg.editions[c]) else None
  }

  function IdentityAt(reg: Registry, c: Name): Option<Identity> {
    if c in reg.identities then Some(reg.identities[c]) else None
  }

  predicate MembersDeclared(p: Plan, g: Group) {
    forall n :: n in g.ordered ==> n in p.task.obligations
  }

  /** The contract of a compiled group says everything about the contracts of its members. */
  lemma GroupContractSaysAll(p: Plan, g: Group, p': Plan, g': Group)
    requires MembersDeclared(p, g) && MembersDeclared(p', g') && GroupObligation(p, g) == GroupObligation(p', g')
    ensures SameContracts(p, g, p', g')
  {
    ContractsListed(p, g.ordered);
    ContractsListed(p', g'.ordered);
    assert GroupObligation(p, g).parameters == GroupObligation(p', g').parameters;
    forall i | 0 <= i < |g.ordered|
      ensures g.ordered[i] in p.task.obligations && g'.ordered[i] in p'.task.obligations
    {
      assert g.ordered[i] in g.ordered && g'.ordered[i] in g'.ordered;
    }
  }

  /** The revision of a compiled check says everything about the checks of the members. */
  lemma GroupRevisionSaysAll(p: Plan, g: Group, p': Plan, g': Group)
    requires GroupEdition(p, g) == GroupEdition(p', g') && MemberChecks(p, g) == MemberChecks(p', g')
    ensures SameVerifiers(p, g, p', g')
  {
    var e, e' := GroupEdition(p, g), GroupEdition(p', g');
    forall c | c in MemberChecks(p, g)
      ensures EditionAt(p.registry, c) == EditionAt(p'.registry, c)
      ensures IdentityAt(p.registry, c) == IdentityAt(p'.registry, c)
    {
      assert c in e.editions <==> c in p.registry.editions;
      assert c in e'.editions <==> c in p'.registry.editions;
      assert c in e.identities <==> c in p.registry.identities;
      assert c in e'.identities <==> c in p'.registry.identities;
    }
  }

  lemma SameContractsSameChecks(p: Plan, g: Group, p': Plan, g': Group)
    requires SameContracts(p, g, p', g')
    ensures MemberChecks(p, g) == MemberChecks(p', g')
  {
    forall c | c in MemberChecks(p, g)
      ensures c in MemberChecks(p', g')
    {
      var n :| n in g.ordered && n in p.task.obligations && p.task.obligations[n].check == c;
      var i :| 0 <= i < |g.ordered| && g.ordered[i] == n;
      assert g'.ordered[i] in g'.ordered;
    }
    forall c | c in MemberChecks(p', g')
      ensures c in MemberChecks(p, g)
    {
      var n :| n in g'.ordered && n in p'.task.obligations && p'.task.obligations[n].check == c;
      var i :| 0 <= i < |g'.ordered| && g'.ordered[i] == n;
      assert g.ordered[i] in g.ordered;
    }
  }

  /**
   * A cached value of a compiled group is bound to everything it was checked by: equal contract and equal revision mean
   * the same members with the same contracts, the same model, and the same checks.
   */
  lemma GroupIsBound(p: Plan, g: Group, p': Plan, g': Group)
    requires MembersDeclared(p, g) && MembersDeclared(p', g')
    requires GroupObligation(p, g) == GroupObligation(p', g') && GroupEdition(p, g) == GroupEdition(p', g')
    ensures SameContracts(p, g, p', g') && SameVerifiers(p, g, p', g')
  {
    GroupContractSaysAll(p, g, p', g');
    SameContractsSameChecks(p, g, p', g');
    GroupRevisionSaysAll(p, g, p', g');
  }

  ghost predicate AllIdentified(p: Plan, g: Group) {
    forall n :: IsMember(p, g, n) ==> p.task.obligations[n].check in p.registry.identities
  }

  ghost predicate JudgedBy(p: Plan, n: Name) {
    && n in p.task.obligations && p.task.obligations[n].check in p.registry.identities
    && p.registry.identities[p.task.obligations[n].check].kind.Judge?
  }

  /** A compiled check has an identity exactly when the checks of all members do, and is a judge when one of them is. */
  lemma GroupVerifier(p: Plan, g: Group)
    ensures MemberChecks(p, g) <= p.registry.identities.Keys <==> AllIdentified(p, g)
    ensures GroupIdentity(p, g).revision == GroupEdition(p, g) && !GroupIdentity(p, g).kind.Mechanical?
    ensures GroupIdentity(p, g).kind.Judge? <==> exists n :: IsMember(p, g, n) && JudgedBy(p, n)
  {
    forall n | IsMember(p, g, n)
      ensures p.task.obligations[n].check in MemberChecks(p, g)
    {
    }
    forall c | c in MemberChecks(p, g)
      ensures exists n :: IsMember(p, g, n) && p.task.obligations[n].check == c
    {
      var n :| n in g.ordered && n in p.task.obligations && p.task.obligations[n].check == c;
      assert IsMember(p, g, n);
    }
  }

  /** The compiled registry has that check, edition and identity under the name of the group. */
  lemma GroupRegistration(p: Plan, name: Name)
    requires name in p.groups && name !in p.registry.identities
    ensures var reg, g := CompiledRegistry(p), p.groups[name];
      && name in reg.editions && reg.editions[name] == GroupEdition(p, g)
      && (name in reg.identities <==> AllIdentified(p, g))
      && (AllIdentified(p, g) ==> reg.identities[name] == GroupIdentity(p, g))
  {
    GroupVerifier(p, p.groups[name]);
  }
}
