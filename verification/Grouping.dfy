/** The compiled form of a task: one atomically checked obligation for each group (residual/cic.py, `prepare`). */
module Grouping {
  import opened Basics
  import opened Constraints
  import opened Tasks

  /** A group: its members in the order in which they are checked, and its share of the model if it has one. */
  datatype Group = Group(id: Name, ordered: seq<Name>, model: Option<Model>)

  /** A task with its registry, the groups by name and in order, the owner of each obligation, and the model digest. */
  datatype Plan = Plan(
    task: Task,
    registry: Registry,
    groups: map<Name, Group>,
    order: seq<Name>,
    owner: map<Name, Name>,
    modelHash: Hash)

  // ---------------------------------------------------------------- well-formed plans

  predicate DependsOn(t: Task, n: Name, d: Name) {
    n in t.obligations && d in t.obligations[n].dependsOn
  }

  /** Within a group, every member comes after the members it depends on. */
  predicate Topological(p: Plan, g: Group) {
    forall i, d :: 0 <= i < |g.ordered| && DependsOn(p.task, g.ordered[i], d) && d in g.ordered ==> d in g.ordered[..i]
  }

  predicate WellFormedGroup(p: Plan, name: Name, g: Group) {
    && g.id == name && g.ordered != [] && Distinct(g.ordered)
    && (forall n :: n in g.ordered ==> n in p.task.obligations && n in p.owner && p.owner[n] == name)
    && Topological(p, g)
    && (g.model.Some? ==> ValidModel(g.model.value) && g.model.value.domains.Keys == ToSet(g.ordered))
  }

  /** Every obligation belongs to exactly one group. */
  ghost predicate WellPlanned(p: Plan) {
    && Accepted(p.task) && Registered(p.task, p.registry)
    && Distinct(p.order) && ToSet(p.order) == p.groups.Keys && p.order != []
    && p.groups.Keys !! p.registry.checks.Keys
    && (forall g :: g in p.groups ==> WellFormedGroup(p, g, p.groups[g]))
    && p.owner.Keys == p.task.obligations.Keys
    && (forall n :: n in p.owner ==> p.owner[n] in p.groups && n in p.groups[p.owner[n]].ordered)
  }

  // ---------------------------------------------------------------- the compiled task

  predicate CrossesTo(p: Plan, g: Group, n: Name, d: Name) {
    n in g.ordered && DependsOn(p.task, n, d) && d in p.owner && p.owner[d] != g.id
  }

  /** The groups that own what members of `g` depend on outside `g`. */
  function ExternalDeps(p: Plan, g: Group): set<Name> {
    set n, d | n in g.ordered && n in p.task.obligations && d in p.task.obligations[n].dependsOn
      && CrossesTo(p, g, n, d) :: p.owner[d]
  }

  function GroupEvidence(p: Plan, g: Group): set<Name> {
    set n, a | n in g.ordered && n in p.task.obligations && a in p.task.obligations[n].evidence :: a
  }

  predicate AllCloud(p: Plan, g: Group) {
    forall n :: n in g.ordered && n in p.task.obligations ==> p.task.obligations[n].cloud
  }

  predicate AllSolvable(p: Plan, g: Group) {
    forall n :: n in g.ordered && n in p.task.obligations ==> p.task.obligations[n].solver.Some?
  }

  function MemberContracts(p: Plan, ns: seq<Name>): seq<Obligation> {
    if ns == [] then [] else
      (if ns[0] in p.task.obligations then [p.task.obligations[ns[0]]] else []) + MemberContracts(p, ns[1..])
  }

  function GroupObligation(p: Plan, g: Group): Obligation {
    Obligation(g.id, "Return one JSON object mapping each of these member IDs to its answer.", g.id,
      Sorted(GroupEvidence(p, g)), Sorted(ExternalDeps(p, g)),
      Members(MemberContracts(p, g.ordered), p.modelHash),
      if AllSolvable(p, g) then Some(g.id) else None, AllCloud(p, g))
  }

  function CompiledTask(p: Plan): Task {
    Task(p.task.id, p.task.goal, p.task.artifacts, p.order,
      map g | g in p.groups :: GroupObligation(p, p.groups[g]), None)
  }

  // ---------------------------------------------------------------- the compiled checks

  function Fields(v: Json): map<Name, Json> {
    if v.Object? then v.fields else map[]
  }

  predicate Shaped(g: Group, v: Json) {
    v.Object? && v.fields.Keys == ToSet(g.ordered)
  }

  function Ints(fields: map<Name, Json>): Assignment {
    map n | n in fields && fields[n].Int? :: fields[n].i
  }

  predicate AllInts(fields: map<Name, Json>) {
    forall n :: n in fields ==> fields[n].Int?
  }

  /** The structural half of a group's check. */
  predicate FitsModel(g: Group, fields: map<Name, Json>) {
    g.model.Some? ==> AllInts(fields) && Consistent(g.model.value, Ints(fields), true)
  }

  /** The members already checked, with their values. */
  function Staged(g: Group, fields: map<Name, Json>, i: nat): map<Name, Json>
    requires i <= |g.ordered|
  {
    map n | n in g.ordered[..i] && n in fields :: fields[n]
  }

  /** An original dependency: from the group itself if staged, otherwise out of the owning group's value. */
  function Lookup(owner: map<Name, Name>, staged: map<Name, Json>, outside: map<Name, Json>, d: Name): Option<Json> {
    if d in staged then Some(staged[d])
    else if d in owner && owner[d] in outside && d in Fields(outside[owner[d]]) then Some(Fields(outside[owner[d]])[d])
    else None
  }

  function Found(
      owner: map<Name, Name>, o: Obligation, staged: map<Name, Json>, outside: map<Name, Json>): map<Name, Json> {
    map d | d in o.dependsOn && Lookup(owner, staged, outside, d).Some? :: Lookup(owner, staged, outside, d).value
  }

  /** The context an original check is given; nothing when a lookup raises. */
  function OriginalContext(
      t: Task, owner: map<Name, Name>, o: Obligation, staged: map<Name, Json>, outside: map<Name, Json>)
    : Option<Context>
  {
    if forall d :: d in o.dependsOn ==> Lookup(owner, staged, outside, d).Some? then
      Some(Context(o, EvidenceOf(t, o), Found(owner, o, staged, outside)))
    else None
  }

  function CheckMember(p: Plan, g: Group, fields: map<Name, Json>, ctx: Context, i: nat): Verdict
    requires i < |g.ordered|
  {
    var n := g.ordered[i];
    if n !in p.task.obligations || n !in fields || p.task.obligations[n].check !in p.registry.checks then
      Unknown("verifier_error")
    else
      var o := p.task.obligations[n];
      match OriginalContext(p.task, p.owner, o, Staged(g, fields, i), ctx.dependencies)
      case None => Unknown("verifier_error")
      case Some(c) => p.registry.checks[o.check](fields[n], c)
  }

  /** Runs the original checks from member `i` on, stopping at the first that does not pass. */
  function CheckMembers(p: Plan, g: Group, fields: map<Name, Json>, ctx: Context, i: nat): Verdict
    requires i <= |g.ordered|
    decreases |g.ordered| - i
  {
    if i == |g.ordered| then Pass else
      var verdict := CheckMember(p, g, fields, ctx, i);
      if verdict.Pass? then CheckMembers(p, g, fields, ctx, i + 1) else verdict
  }

  function GroupCheck(p: Plan, g: Group, v: Json, ctx: Context): Verdict {
    if !Shaped(g, v) then Fail("structural_incomplete_group")
    else if !FitsModel(g, v.fields) then Fail("structural_constraint_failed")
    else CheckMembers(p, g, v.fields, ctx, 0)
  }

  function SolveMember(p: Plan, g: Group, outside: map<Name, Json>, i: nat, staged: map<Name, Json>): Option<Json>
    requires i < |g.ordered|
  {
    var n := g.ordered[i];
    if n !in p.task.obligations || p.task.obligations[n].solver.None?
      || p.task.obligations[n].solver.value !in p.registry.solvers then None
    else
      match OriginalContext(p.task, p.owner, p.task.obligations[n], staged, outside)
      case None => None
      case Some(c) => p.registry.solvers[p.task.obligations[n].solver.value](c)
  }

  /** Solves the members in order; nothing when one of them raises. */
  function SolveMembers(p: Plan, g: Group, ctx: Context, i: nat, staged: map<Name, Json>): Option<Json>
    requires i <= |g.ordered|
    decreases |g.ordered| - i
  {
    if i == |g.ordered| then Some(Object(staged)) else
      match SolveMember(p, g, ctx.dependencies, i, staged)
      case None => None
      case Some(v) => SolveMembers(p, g, ctx, i + 1, staged[g.ordered[i] := v])
  }

  function MemberChecks(p: Plan, g: Group): set<Name> {
    set n | n in g.ordered && n in p.task.obligations :: p.task.obligations[n].check
  }

  /** The revision of a group's check binds the revisions and identities of all its member checks. */
  function GroupEdition(p: Plan, g: Group): Hash {
    CompiledRevision(
      map c | c in MemberChecks(p, g) && c in p.registry.editions :: p.registry.editions[c],
      map c | c in MemberChecks(p, g) && c in p.registry.identities :: p.registry.identities[c])
  }

  function GroupIdentity(p: Plan, g: Group): Identity {
    Identity(GroupEdition(p, g),
      if exists c :: c in MemberChecks(p, g) && c in p.registry.identities && p.registry.identities[c].kind.Judge?
      then Judge else Structural)
  }

  function CompiledRegistry(p: Plan): Registry {
    Registry(
      p.registry.checks + map g | g in p.groups :: ((v: Json, ctx: Context) => GroupCheck(p, p.groups[g], v, ctx)),
      p.registry.editions + map g | g in p.groups :: GroupEdition(p, p.groups[g]),
      p.registry.identities +
        map g | g in p.groups && MemberChecks(p, p.groups[g]) <= p.registry.identities.Keys ::
          GroupIdentity(p, p.groups[g]),
      p.registry.solvers +
        map g | g in p.groups && AllSolvable(p, p.groups[g]) ::
          ((ctx: Context) => SolveMembers(p, p.groups[g], ctx, 0, map[])))
  }

  // ---------------------------------------------------------------- what a family of group values means

  /** The values of the original obligations inside a family of group values. */
  function Flat(owner: map<Name, Name>, family: map<Name, Json>): map<Name, Json> {
    map n | n in owner && owner[n] in family && n in Fields(family[owner[n]]) :: Fields(family[owner[n]])[n]
  }

  lemma {:induction false} AllMembersPass(p: Plan, g: Group, fields: map<Name, Json>, ctx: Context, i: nat)
    requires i <= |g.ordered|
    ensures CheckMembers(p, g, fields, ctx, i).Pass? <==>
      forall j :: i <= j < |g.ordered| ==> CheckMember(p, g, fields, ctx, j).Pass?
    decreases |g.ordered| - i
  {
    if i < |g.ordered| {
      AllMembersPass(p, g, fields, ctx, i + 1);
    }
  }

  /** The group values that the check of `g` sees. */
  function Outside(p: Plan, g: Group, family: map<Name, Json>): map<Name, Json> {
    map h | h in ExternalDeps(p, g) && h in family :: family[h]
  }

  lemma CompiledContext(p: Plan, g: Group, family: map<Name, Json>)
    ensures ContextOf(CompiledTask(p), GroupObligation(p, g), family).dependencies == Outside(p, g, family)
  {
    SortedSpec(ExternalDeps(p, g));
  }

  /**
   * A dependency of a member is either staged before it or owned by a group that the compiled obligation depends on.
   */
  lemma MemberDependency(p: Plan, name: Name, i: nat, d: Name)
    requires WellPlanned(p) && name in p.groups && i < |p.groups[name].ordered|
    requires DependsOn(p.task, p.groups[name].ordered[i], d)
    ensures d in p.owner && p.owner[d] in p.groups && d in p.groups[p.owner[d]].ordered
    ensures p.owner[d] == name ==> d in p.groups[name].ordered[..i]
    ensures p.owner[d] != name ==> p.owner[d] in ExternalDeps(p, p.groups[name]) && d !in p.groups[name].ordered
  {
    var g := p.groups[name];
    var n := g.ordered[i];
    assert WellFormedGroup(p, name, g);
    assert n in g.ordered;
    assert WellFormedObligation(p.task, n, p.task.obligations[n]);
    assert d in ToSet(p.task.obligations[n].dependsOn);
    if p.owner[d] != name {
      assert CrossesTo(p, g, n, d);
    }
  }

  /** The groups that `g` depends on have values of the right shape. */
  ghost predicate Supplied(p: Plan, g: Group, family: map<Name, Json>) {
    forall h :: h in ExternalDeps(p, g) ==> h in family && h in p.groups && Shaped(p.groups[h], family[h])
  }

  /** Each dependency of a member is found with exactly its flattened value. */
  lemma DependencyFound(
      p: Plan, g: Group, fields: map<Name, Json>, family: map<Name, Json>, i: nat, d: Name)
    requires g.id in family && family[g.id] == Object(fields) && fields.Keys == ToSet(g.ordered)
    requires Supplied(p, g, family) && i < |g.ordered|
    requires d in p.owner && p.owner[d] in p.groups && d in p.groups[p.owner[d]].ordered
    requires p.owner[d] == g.id ==> d in g.ordered[..i]
    requires p.owner[d] != g.id ==> p.owner[d] in ExternalDeps(p, g) && d !in g.ordered
    ensures d in Flat(p.owner, family)
    ensures Lookup(p.owner, Staged(g, fields, i), Outside(p, g, family), d) == Some(Flat(p.owner, family)[d])
  {
    if p.owner[d] == g.id {
      assert d in g.ordered;
      assert d in ToSet(g.ordered);
    } else {
      assert d in ToSet(p.groups[p.owner[d]].ordered);
    }
  }

  lemma MemberContext(p: Plan, name: Name, fields: map<Name, Json>, family: map<Name, Json>, i: nat)
    requires WellPlanned(p) && name in p.groups && i < |p.groups[name].ordered|
    requires name in family && family[name] == Object(fields) && fields.Keys == ToSet(p.groups[name].ordered)
    requires Supplied(p, p.groups[name], family)
    requires p.groups[name].ordered[i] in p.task.obligations
    ensures OriginalContext(p.task, p.owner, p.task.obligations[p.groups[name].ordered[i]],
        Staged(p.groups[name], fields, i), Outside(p, p.groups[name], family))
      == Some(ContextOf(p.task, p.task.obligations[p.groups[name].ordered[i]], Flat(p.owner, family)))
  {
    var g := p.groups[name];
    var o := p.task.obligations[g.ordered[i]];
    assert g.id == name by { assert WellFormedGroup(p, name, g); }
    forall d | d in o.dependsOn
      ensures d in Flat(p.owner, family)
      ensures Lookup(p.owner, Staged(g, fields, i), Outside(p, g, family), d) == Some(Flat(p.owner, family)[d])
    {
      MemberDependency(p, name, i, d);
      DependencyFound(p, g, fields, family, i, d);
    }
    SameContext(p.task, p.owner, o, Staged(g, fields, i), Outside(p, g, family), Flat(p.owner, family));
  }

  lemma SameContext(t: Task, owner: map<Name, Name>, o: Obligation,
      staged: map<Name, Json>, outside: map<Name, Json>, flat: map<Name, Json>)
    requires forall d :: d in o.dependsOn ==> d in flat && Lookup(owner, staged, outside, d) == Some(flat[d])
    ensures OriginalContext(t, owner, o, staged, outside) == Some(ContextOf(t, o, flat))
  {
    assert Found(owner, o, staged, outside) == ContextOf(t, o, flat).dependencies;
  }
}
