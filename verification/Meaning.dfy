/** Compilation preserves meaning and privacy (residual/cic.py, `prepare`). */
module Meaning {
  import opened Basics
  import opened Dag
  import opened Elimination
  import opened Components
  import opened Constraints
  import opened Tasks
  import opened Grouping

  // ---------------------------------------------------------------- one group

  lemma MemberPasses(p: Plan, name: Name, fields: map<Name, Json>, family: map<Name, Json>, ctx: Context, i: nat)
    requires WellPlanned(p) && name in p.groups && i < |p.groups[name].ordered|
    requires name in family && family[name] == Object(fields) && fields.Keys == ToSet(p.groups[name].ordered)
    requires Supplied(p, p.groups[name], family)
    requires ctx.dependencies == Outside(p, p.groups[name], family)
    ensures CheckMember(p, p.groups[name], fields, ctx, i).Pass?
      <==> Passes(p.task, p.registry, Flat(p.owner, family), p.groups[name].ordered[i])
  {
    var n := p.groups[name].ordered[i];
    assert WellFormedGroup(p, name, p.groups[name]);
    assert n in p.groups[name].ordered;
    assert n in ToSet(p.groups[name].ordered);
    MemberContext(p, name, fields, family, i);
  }

  /** What the check of one group asserts about the flattened values. */
  ghost predicate GroupHolds(p: Plan, g: Group, v: Json, flat: map<Name, Json>) {
    && Shaped(g, v) && FitsModel(g, Fields(v))
    && forall i :: 0 <= i < |g.ordered| ==> Passes(p.task, p.registry, flat, g.ordered[i])
  }

  ghost predicate MembersAgree(p: Plan, g: Group, fields: map<Name, Json>, flat: map<Name, Json>, ctx: Context) {
    forall i :: 0 <= i < |g.ordered| ==>
      (CheckMember(p, g, fields, ctx, i).Pass? <==> Passes(p.task, p.registry, flat, g.ordered[i]))
  }

  lemma AllMembersAgree(p: Plan, name: Name, fields: map<Name, Json>, family: map<Name, Json>, ctx: Context)
    requires WellPlanned(p) && name in p.groups
    requires name in family && family[name] == Object(fields) && fields.Keys == ToSet(p.groups[name].ordered)
    requires Supplied(p, p.groups[name], family)
    requires ctx.dependencies == Outside(p, p.groups[name], family)
    ensures MembersAgree(p, p.groups[name], fields, Flat(p.owner, family), ctx)
  {
    forall i | 0 <= i < |p.groups[name].ordered|
      ensures CheckMember(p, p.groups[name], fields, ctx, i).Pass?
        <==> Passes(p.task, p.registry, Flat(p.owner, family), p.groups[name].ordered[i])
    {
      MemberPasses(p, name, fields, family, ctx, i);
    }
  }

  lemma GroupCheckMeaning(p: Plan, g: Group, v: Json, flat: map<Name, Json>, ctx: Context)
    requires Shaped(g, v) ==> MembersAgree(p, g, v.fields, flat, ctx)
    ensures GroupCheck(p, g, v, ctx).Pass? <==> GroupHolds(p, g, v, flat)
  {
    if Shaped(g, v) {
      AllMembersPass(p, g, v.fields, ctx, 0);
    }
  }

  lemma CompiledCheck(p: Plan, name: Name, family: map<Name, Json>)
    requires name in p.groups && name in family && p.groups[name].id == name
    ensures Passes(CompiledTask(p), CompiledRegistry(p), family, name) <==>
      GroupCheck(p, p.groups[name], family[name],
        ContextOf(CompiledTask(p), GroupObligation(p, p.groups[name]), family)).Pass?
  {
    assert CompiledTask(p).obligations[name] == GroupObligation(p, p.groups[name]);
    var ctx := ContextOf(CompiledTask(p), GroupObligation(p, p.groups[name]), family);
    assert CompiledRegistry(p).checks[name](family[name], ctx) == GroupCheck(p, p.groups[name], family[name], ctx);
  }

  lemma PassingIsShaped(p: Plan, name: Name, family: map<Name, Json>)
    requires name in p.groups && name in family && p.groups[name].id == name
    requires Passes(CompiledTask(p), CompiledRegistry(p), family, name)
    ensures Shaped(p.groups[name], family[name])
  {
    CompiledCheck(p, name, family);
  }

  lemma GroupMeaning(p: Plan, name: Name, family: map<Name, Json>)
    requires WellPlanned(p) && name in p.groups && name in family && Supplied(p, p.groups[name], family)
    ensures Passes(CompiledTask(p), CompiledRegistry(p), family, name)
      <==> GroupHolds(p, p.groups[name], family[name], Flat(p.owner, family))
  {
    assert WellFormedGroup(p, name, p.groups[name]);
    CompiledCheck(p, name, family);
    CompiledContext(p, p.groups[name], family);
    var ctx := ContextOf(CompiledTask(p), GroupObligation(p, p.groups[name]), family);
    if Shaped(p.groups[name], family[name]) {
      AllMembersAgree(p, name, family[name].fields, family, ctx);
    }
    GroupCheckMeaning(p, p.groups[name], family[name], Flat(p.owner, family), ctx);
  }

  // ---------------------------------------------------------------- families of group values

  /** A family that has a value for every group some group in it depends on, as the values accepted in a run do. */
  ghost predicate ClosedFamily(p: Plan, family: map<Name, Json>) {
    && family.Keys <= p.groups.Keys
    && forall g :: g in family ==> ExternalDeps(p, p.groups[g]) <= family.Keys
  }

  ghost predicate EveryGroupPasses(p: Plan, family: map<Name, Json>) {
    forall g :: g in family ==> Passes(CompiledTask(p), CompiledRegistry(p), family, g)
  }

  predicate GroupShaped(p: Plan, family: map<Name, Json>, g: Name) {
    g in p.groups && g in family && Shaped(p.groups[g], family[g])
  }

  /** A group's value is complete and fits the group's part of the model. */
  predicate GroupFits(p: Plan, family: map<Name, Json>, g: Name) {
    GroupShaped(p, family, g) && FitsModel(p.groups[g], Fields(family[g]))
  }

  ghost predicate EveryGroupShaped(p: Plan, family: map<Name, Json>) {
    forall g :: g in family ==> GroupShaped(p, family, g)
  }

  ghost predicate EveryGroupFits(p: Plan, family: map<Name, Json>) {
    forall g :: g in family ==> GroupFits(p, family, g)
  }

  /** Every original obligation whose group has a value passes its own check in its own context. */
  ghost predicate EveryMemberPasses(p: Plan, family: map<Name, Json>) {
    forall n :: n in p.owner && p.owner[n] in family ==> Passes(p.task, p.registry, Flat(p.owner, family), n)
  }

  lemma FamilySupplies(p: Plan, family: map<Name, Json>, name: Name)
    requires ClosedFamily(p, family) && name in family
    requires EveryGroupShaped(p, family)
    ensures Supplied(p, p.groups[name], family)
  {
  }

  lemma GroupsPassMembersPass(p: Plan, family: map<Name, Json>)
    requires WellPlanned(p) && ClosedFamily(p, family) && EveryGroupPasses(p, family)
    ensures EveryGroupFits(p, family) && EveryMemberPasses(p, family)
  {
    forall g | g in family ensures GroupShaped(p, family, g) {
      assert WellFormedGroup(p, g, p.groups[g]);
      PassingIsShaped(p, g, family);
    }
    forall g | g in family ensures GroupHolds(p, p.groups[g], family[g], Flat(p.owner, family)) {
      FamilySupplies(p, family, g);
      GroupMeaning(p, g, family);
    }
    forall n | n in p.owner && p.owner[n] in family ensures Passes(p.task, p.registry, Flat(p.owner, family), n) {
      var g := p.owner[n];
      assert GroupHolds(p, p.groups[g], family[g], Flat(p.owner, family));
      var i :| 0 <= i < |p.groups[g].ordered| && p.groups[g].ordered[i] == n;
    }
  }

  lemma MembersPassGroupsPass(p: Plan, family: map<Name, Json>)
    requires WellPlanned(p) && ClosedFamily(p, family) && EveryGroupFits(p, family) && EveryMemberPasses(p, family)
    ensures EveryGroupPasses(p, family)
  {
    forall g | g in family ensures GroupShaped(p, family, g) {
      assert GroupFits(p, family, g);
    }
    forall g | g in family ensures Passes(CompiledTask(p), CompiledRegistry(p), family, g) {
      assert GroupFits(p, family, g);
      FamilySupplies(p, family, g);
      GroupMeaning(p, g, family);
      forall i | 0 <= i < |p.groups[g].ordered|
        ensures Passes(p.task, p.registry, Flat(p.owner, family), p.groups[g].ordered[i])
      {
        assert WellFormedGroup(p, g, p.groups[g]);
        assert p.groups[g].ordered[i] in p.groups[g].ordered;
      }
    }
  }

  /**
   * A dependency-closed family of group values passes the compiled checks exactly when its values
   * are complete, fit the model parts, and flatten to values that pass every original check in the
   * original dependency contexts.
   */
  lemma FamilyMeaning(p: Plan, family: map<Name, Json>)
    requires WellPlanned(p) && ClosedFamily(p, family)
    ensures EveryGroupPasses(p, family) <==> EveryGroupFits(p, family) && EveryMemberPasses(p, family)
  {
    if EveryGroupPasses(p, family) {
      GroupsPassMembersPass(p, family);
    } else if EveryGroupFits(p, family) && EveryMemberPasses(p, family) {
      MembersPassGroupsPass(p, family);
    }
  }

  // ---------------------------------------------------------------- the whole structural model

  function On(values: map<Name, Json>, keys: set<Name>): map<Name, Json> {
    map n | n in values && n in keys :: values[n]
  }

  /** The structural model holds of JSON values: all of them integers, and valid for the independent checker. */
  predicate ModelHolds(m: Model, values: map<Name, Json>) {
    AllInts(On(values, m.domains.Keys)) && Satisfies(m, Ints(On(values, m.domains.Keys)))
  }

  /** The groups named in `names` carry the components of the model, and no other group carries a model. */
  ghost predicate CarriesModel(p: Plan, m: Model, g: Graph, comps: seq<seq<Name>>, names: seq<Name>) {
    && ValidModel(m) && IsInteraction(m, g) && IsComponents(g, comps) && |names| == |comps|
    && m.domains.Keys <= p.task.obligations.Keys
    && (forall i :: 0 <= i < |comps| ==> CarriesPart(p, m, comps[i], names[i]))
    && (forall h :: h in p.groups && p.groups[h].model.Some? ==> h in names)
  }

  ghost predicate CarriesPart(p: Plan, m: Model, comp: seq<Name>, name: Name) {
    && name in p.groups && ToSet(p.groups[name].ordered) == ToSet(comp)
    && p.groups[name].model == Some(Restricted(m, ToSet(comp)))
  }

  /** The members of a group are owned by it. */
  predicate Owns(p: Plan, name: Name) {
    name in p.groups && forall n :: n in ToSet(p.groups[name].ordered) ==> n in p.owner && p.owner[n] == name
  }

  lemma GroupsOwn(p: Plan, name: Name)
    requires WellPlanned(p) && name in p.groups
    ensures Owns(p, name)
  {
    assert WellFormedGroup(p, name, p.groups[name]);
  }

  lemma FieldsAreFlat(p: Plan, family: map<Name, Json>, name: Name)
    requires Owns(p, name) && GroupShaped(p, family, name)
    ensures Fields(family[name]) == On(Flat(p.owner, family), ToSet(p.groups[name].ordered))
  {
  }

  /** One group's structural check, in terms of the flattened values of the whole model. */
  lemma PartFits(p: Plan, m: Model, comp: seq<Name>, name: Name, family: map<Name, Json>)
    requires CarriesPart(p, m, comp, name) && Owns(p, name) && ToSet(comp) <= m.domains.Keys
    requires ValidModel(Restricted(m, ToSet(comp))) && Restricted(m, ToSet(comp)).domains.Keys == ToSet(comp)
    requires GroupShaped(p, family, name)
    ensures GroupFits(p, family, name) <==> FlatPartFits(m, comp, Flat(p.owner, family))
  {
    FieldsAreFlat(p, family, name);
    FlatPart(m, ToSet(comp), Flat(p.owner, family));
    var fields := Fields(family[name]);
    if AllInts(fields) {
      assert Ints(fields).Keys == ToSet(comp);
      CompleteCheckIsExact(Restricted(m, ToSet(comp)), Ints(fields), true);
    }
  }

  lemma FlatPart(m: Model, part: set<Name>, flat: map<Name, Json>)
    requires part <= m.domains.Keys
    ensures Ints(On(flat, part)) == Project(Ints(On(flat, m.domains.Keys)), part)
  {
  }

  /** One component's values are integers and satisfy its submodel. */
  predicate FlatPartFits(m: Model, comp: seq<Name>, flat: map<Name, Json>) {
    AllInts(On(flat, ToSet(comp))) && PartSatisfied(m, comp, Ints(On(flat, m.domains.Keys)))
  }

  ghost predicate EveryPartFits(m: Model, comps: seq<seq<Name>>, flat: map<Name, Json>) {
    forall i :: 0 <= i < |comps| ==> FlatPartFits(m, comps[i], flat)
  }

  /** The parts fit together exactly when the whole model holds. */
  lemma PartsFitModelHolds(m: Model, g: Graph, comps: seq<seq<Name>>, flat: map<Name, Json>)
    requires ValidModel(m) && IsInteraction(m, g) && IsComponents(g, comps) && m.domains.Keys <= flat.Keys
    ensures EveryPartFits(m, comps, flat) <==> ModelHolds(m, flat)
  {
    IntegersByPart(m, comps, flat);
    var whole := On(flat, m.domains.Keys);
    if AllInts(whole) {
      LosslessOn(m, g, comps, flat);
    }
  }

  lemma LosslessOn(m: Model, g: Graph, comps: seq<seq<Name>>, flat: map<Name, Json>)
    requires ValidModel(m) && IsInteraction(m, g) && IsComponents(g, comps) && m.domains.Keys <= flat.Keys
    requires AllInts(On(flat, m.domains.Keys))
    ensures Satisfies(m, Ints(On(flat, m.domains.Keys)))
      <==> forall i :: 0 <= i < |comps| ==> PartSatisfied(m, comps[i], Ints(On(flat, m.domains.Keys)))
  {
    assert Ints(On(flat, m.domains.Keys)).Keys == m.domains.Keys;
    DecompositionIsLossless(m, g, comps, Ints(On(flat, m.domains.Keys)));
  }

  lemma IntegersByPart(m: Model, comps: seq<seq<Name>>, flat: map<Name, Json>)
    requires forall n :: n in m.domains ==> exists i :: 0 <= i < |comps| && n in comps[i]
    requires forall i :: 0 <= i < |comps| ==> ToSet(comps[i]) <= m.domains.Keys
    ensures AllInts(On(flat, m.domains.Keys)) <==> forall i :: 0 <= i < |comps| ==> AllInts(On(flat, ToSet(comps[i])))
  {
    if forall i :: 0 <= i < |comps| ==> AllInts(On(flat, ToSet(comps[i]))) {
      forall n | n in On(flat, m.domains.Keys) ensures flat[n].Int? {
        var i :| 0 <= i < |comps| && n in comps[i];
        assert n in On(flat, ToSet(comps[i]));
      }
    }
    if AllInts(On(flat, m.domains.Keys)) {
      forall i, n | 0 <= i < |comps| && n in On(flat, ToSet(comps[i])) ensures flat[n].Int? {
        assert n in On(flat, m.domains.Keys);
      }
    }
  }

  lemma AllPartsFit(p: Plan, m: Model, g: Graph, comp: seq<Name>, name: Name, family: map<Name, Json>)
    requires ValidModel(m) && IsInteraction(m, g) && IsComponent(g, comp)
    requires CarriesPart(p, m, comp, name) && Owns(p, name) && GroupShaped(p, family, name)
    ensures GroupFits(p, family, name) <==> FlatPartFits(m, comp, Flat(p.owner, family))
  {
    ComponentFacts(m, g, comp);
    PartFits(p, m, comp, name, family);
  }

  /** Only the groups that carry a part of the model constrain it. */
  lemma GroupsFitByPart(p: Plan, names: seq<Name>, family: map<Name, Json>)
    requires forall h :: h in p.groups && p.groups[h].model.Some? ==> h in names
    requires EveryGroupShaped(p, family) && forall i :: 0 <= i < |names| ==> names[i] in family
    ensures EveryGroupFits(p, family) <==> NamedGroupsFit(p, family, names)
  {
    if NamedGroupsFit(p, family, names) {
      forall h | h in family ensures GroupFits(p, family, h) {
        assert GroupShaped(p, family, h);
        if p.groups[h].model.Some? {
          var i :| 0 <= i < |names| && names[i] == h;
        }
      }
    }
  }

  lemma FlatCovers(p: Plan, family: map<Name, Json>)
    requires WellPlanned(p) && family.Keys == p.groups.Keys && EveryGroupShaped(p, family)
    ensures p.owner.Keys <= Flat(p.owner, family).Keys
  {
    forall n | n in p.owner ensures n in Flat(p.owner, family) {
      assert GroupShaped(p, family, p.owner[n]);
      FlatHas(p, family, n);
    }
  }

  lemma FlatHas(p: Plan, family: map<Name, Json>, n: Name)
    requires n in p.owner && GroupShaped(p, family, p.owner[n]) && n in p.groups[p.owner[n]].ordered
    ensures n in Flat(p.owner, family)
  {
    assert n in ToSet(p.groups[p.owner[n]].ordered);
  }

  lemma PartFitsAt(
      p: Plan, m: Model, g: Graph, comps: seq<seq<Name>>, names: seq<Name>, family: map<Name, Json>, i: nat)
    requires CarriesModel(p, m, g, comps, names) && i < |comps|
    requires Owns(p, names[i]) && GroupShaped(p, family, names[i])
    ensures GroupFits(p, family, names[i]) <==> FlatPartFits(m, comps[i], Flat(p.owner, family))
  {
    assert CarriesPart(p, m, comps[i], names[i]);
    AllPartsFit(p, m, g, comps[i], names[i], family);
  }

  ghost predicate NamedGroupsFit(p: Plan, family: map<Name, Json>, names: seq<Name>) {
    forall i :: 0 <= i < |names| ==> GroupFits(p, family, names[i])
  }

  lemma PartsFit(p: Plan, m: Model, g: Graph, comps: seq<seq<Name>>, names: seq<Name>, family: map<Name, Json>)
    requires CarriesModel(p, m, g, comps, names)
    requires forall i :: 0 <= i < |names| ==> Owns(p, names[i]) && GroupShaped(p, family, names[i])
    ensures NamedGroupsFit(p, family, names) <==> EveryPartFits(m, comps, Flat(p.owner, family))
  {
    if NamedGroupsFit(p, family, names) {
      NamedFitPartsFit(p, m, g, comps, names, family);
    }
    if EveryPartFits(m, comps, Flat(p.owner, family)) {
      PartsFitNamedFit(p, m, g, comps, names, family);
    }
  }

  lemma NamedFitPartsFit(p: Plan, m: Model, g: Graph, comps: seq<seq<Name>>, names: seq<Name>, family: map<Name, Json>)
    requires CarriesModel(p, m, g, comps, names) && NamedGroupsFit(p, family, names)
    requires forall i :: 0 <= i < |names| ==> Owns(p, names[i]) && GroupShaped(p, family, names[i])
    ensures EveryPartFits(m, comps, Flat(p.owner, family))
  {
    forall i | 0 <= i < |comps| ensures FlatPartFits(m, comps[i], Flat(p.owner, family)) {
      PartFitsAt(p, m, g, comps, names, family, i);
    }
  }

  lemma PartsFitNamedFit(p: Plan, m: Model, g: Graph, comps: seq<seq<Name>>, names: seq<Name>, family: map<Name, Json>)
    requires CarriesModel(p, m, g, comps, names) && EveryPartFits(m, comps, Flat(p.owner, family))
    requires forall i :: 0 <= i < |names| ==> Owns(p, names[i]) && GroupShaped(p, family, names[i])
    ensures NamedGroupsFit(p, family, names)
  {
    forall i | 0 <= i < |names| ensures GroupFits(p, family, names[i]) {
      PartFitsAt(p, m, g, comps, names, family, i);
    }
  }

  lemma FitsIffModelHolds(p: Plan, m: Model, g: Graph, comps: seq<seq<Name>>, names: seq<Name>, family: map<Name, Json>)
    requires CarriesModel(p, m, g, comps, names) && EveryGroupShaped(p, family) && family.Keys == p.groups.Keys
    requires forall h :: h in p.groups ==> Owns(p, h)
    requires m.domains.Keys <= Flat(p.owner, family).Keys
    ensures EveryGroupFits(p, family) <==> ModelHolds(m, Flat(p.owner, family))
  {
    forall i | 0 <= i < |names| ensures names[i] in family && Owns(p, names[i]) && GroupShaped(p, family, names[i]) {
      assert CarriesPart(p, m, comps[i], names[i]);
    }
    PartsFit(p, m, g, comps, names, family);
    PartsFitModelHolds(m, g, comps, Flat(p.owner, family));
    GroupsFitByPart(p, names, family);
  }

  lemma FitsMeansModelHolds(
      p: Plan, m: Model, g: Graph, comps: seq<seq<Name>>, names: seq<Name>, family: map<Name, Json>)
    requires WellPlanned(p) && CarriesModel(p, m, g, comps, names) && family.Keys == p.groups.Keys
    ensures EveryGroupFits(p, family) <==> EveryGroupShaped(p, family) && ModelHolds(m, Flat(p.owner, family))
  {
    if EveryGroupFits(p, family) {
      forall h | h in family ensures GroupShaped(p, family, h) {
        assert GroupFits(p, family, h);
      }
    }
    if EveryGroupShaped(p, family) {
      forall h | h in p.groups ensures Owns(p, h) {
        GroupsOwn(p, h);
      }
      FlatCovers(p, family);
      FitsIffModelHolds(p, m, g, comps, names, family);
    }
  }

  lemma FullFamilyIsClosed(p: Plan, family: map<Name, Json>)
    requires WellPlanned(p) && family.Keys == p.groups.Keys
    ensures ClosedFamily(p, family)
  {
    forall g, h | g in family && h in ExternalDeps(p, p.groups[g]) ensures h in family {
      var n, d :| n in p.groups[g].ordered && CrossesTo(p, p.groups[g], n, d) && p.owner[d] == h;
    }
  }

  /**
   * Compilation preserves meaning: values for all groups pass every compiled check if and only if
   * they are complete and their flattening passes every original check in its original dependency
   * context and satisfies the whole structural model.
   */
  lemma PreparePreservesMeaning(
      p: Plan, m: Model, g: Graph, comps: seq<seq<Name>>, names: seq<Name>, family: map<Name, Json>)
    requires WellPlanned(p) && CarriesModel(p, m, g, comps, names) && family.Keys == p.groups.Keys
    ensures EveryGroupPasses(p, family) <==>
      && EveryGroupShaped(p, family)
      && EveryMemberPasses(p, family)
      && ModelHolds(m, Flat(p.owner, family))
  {
    FullFamilyIsClosed(p, family);
    FamilyMeaning(p, family);
    FitsMeansModelHolds(p, m, g, comps, names, family);
  }

  /** A group whose part of the model has no solution rejects every value, in every context. */
  lemma BlockedGroupRejects(p: Plan, g: Group, v: Json, ctx: Context)
    requires g.model.Some? && ValidModel(g.model.value) && forall w :: !Satisfies(g.model.value, w)
    ensures !GroupCheck(p, g, v, ctx).Pass?
  {
    if Shaped(g, v) && FitsModel(g, v.fields) {
      CompleteCheckIsExact(g.model.value, Ints(v.fields), true);
    }
  }

  // ---------------------------------------------------------------- privacy

  lemma CompiledEvidence(p: Plan, g: Group, n: Name, a: Name)
    requires n in g.ordered && n in p.task.obligations && a in p.task.obligations[n].evidence
    ensures a in GroupObligation(p, g).evidence
  {
    SortedSpec(GroupEvidence(p, g));
  }

  lemma CompiledDependency(p: Plan, g: Group, n: Name, d: Name)
    requires CrossesTo(p, g, n, d)
    ensures p.owner[d] in GroupObligation(p, g).dependsOn
  {
    assert p.owner[d] in ExternalDeps(p, g);
    SortedSpec(ExternalDeps(p, g));
  }

  /** Compilation never makes anything exportable: if a group may leave the host, each of its members might have. */
  lemma {:induction false} CompiledPrivacy(p: Plan, n: Name)
    requires WellPlanned(p) && Accepted(CompiledTask(p)) && n in p.task.obligations
    requires CloudAllowed(CompiledTask(p), p.owner[n])
    ensures CloudAllowed(p.task, n)
    decreases RankOf(Deps(p.task))[n]
  {
    var g, o := p.groups[p.owner[n]], p.task.obligations[n];
    var c := CompiledTask(p).obligations[p.owner[n]];
    assert WellFormedGroup(p, p.owner[n], g) && n in g.ordered;
    assert o.cloud;
    forall a | a in o.evidence ensures a in p.task.artifacts && p.task.artifacts[a].cloud {
      CompiledEvidence(p, g, n, a);
      assert a in c.evidence;
    }
    forall d | d in o.dependsOn ensures d in p.task.obligations && CloudAllowed(p.task, d) {
      assert WellFormedObligation(p.task, n, o) && d in ToSet(o.dependsOn) && d in Deps(p.task)[n];
      if p.owner[d] != p.owner[n] {
        assert CrossesTo(p, g, n, d);
        CompiledDependency(p, g, n, d);
        assert p.owner[d] in c.dependsOn;
      }
      CompiledPrivacy(p, d);
    }
  }

  predicate IsMember(p: Plan, g: Group, n: Name) {
    n in g.ordered && n in p.task.obligations
  }

  /** An obligation declares everything that the members of a group do, and permission only if all of them give it. */
  ghost predicate Declares(p: Plan, g: Group, c: Obligation) {
    && (c.cloud <==> forall n :: IsMember(p, g, n) ==> p.task.obligations[n].cloud)
    && (forall a :: a in c.evidence <==> exists n :: IsMember(p, g, n) && a in p.task.obligations[n].evidence)
    && (forall h :: h in c.dependsOn <==> exists n, d :: CrossesTo(p, g, n, d) && p.owner[d] == h)
    && (c.solver.Some? <==> forall n :: IsMember(p, g, n) ==> p.task.obligations[n].solver.Some?)
  }

  lemma GroupDeclares(p: Plan, g: Group)
    ensures Declares(p, g, GroupObligation(p, g))
  {
    SortedSpec(GroupEvidence(p, g));
    SortedSpec(ExternalDeps(p, g));
    forall n | n in g.ordered && n in p.task.obligations
      ensures IsMember(p, g, n)
    {
    }
    forall h, n, d | CrossesTo(p, g, n, d) && p.owner[d] == h
      ensures h in GroupObligation(p, g).dependsOn
    {
      CompiledDependency(p, g, n, d);
    }
  }

  ghost predicate MembersPublic(p: Plan, h: Name)
    requires Accepted(p.task)
  {
    h in p.groups ==> forall n :: IsMember(p, p.groups[h], n) ==> CloudAllowed(p.task, n)
  }

  /** Every member of the group and of every group that it depends on, directly or not, may leave the host. */
  ghost predicate ConeIsPublic(p: Plan, deps: Relation, name: Name)
    requires Accepted(p.task)
  {
    forall h :: Below(deps, name, h) ==> MembersPublic(p, h)
  }

  /** A group may leave the host if and only if all its members and those of all groups below it may. */
  lemma PrivacyIsExact(p: Plan, name: Name)
    requires WellPlanned(p) && Accepted(CompiledTask(p)) && name in p.groups
    ensures CloudAllowed(CompiledTask(p), name) <==> ConeIsPublic(p, Deps(CompiledTask(p)), name)
  {
    var deps := Deps(CompiledTask(p));
    if CloudAllowed(CompiledTask(p), name) {
      forall h | Below(deps, name, h)
        ensures MembersPublic(p, h)
      {
        var q :| Walk(deps, q) && q[0] == name && q[|q| - 1] == h;
        CloudAllowedIsInherited(CompiledTask(p), q);
        AllowedGroupIsPublic(p, h);
      }
    }
    if ConeIsPublic(p, deps, name) {
      PublicConeIsAllowed(p, name);
    }
  }

  lemma AllowedGroupIsPublic(p: Plan, h: Name)
    requires WellPlanned(p) && Accepted(CompiledTask(p)) && h in p.groups && CloudAllowed(CompiledTask(p), h)
    ensures MembersPublic(p, h)
  {
    forall n | IsMember(p, p.groups[h], n)
      ensures CloudAllowed(p.task, n)
    {
      assert WellFormedGroup(p, h, p.groups[h]);
      CompiledPrivacy(p, n);
    }
  }

  lemma PublicConeIsAllowed(p: Plan, name: Name)
    requires WellPlanned(p) && Accepted(CompiledTask(p)) && name in p.groups
    requires ConeIsPublic(p, Deps(CompiledTask(p)), name)
    ensures CloudAllowed(CompiledTask(p), name)
  {
    DepsClosed(CompiledTask(p));
    forall h | Below(Deps(CompiledTask(p)), name, h)
      ensures PublicAt(CompiledTask(p), h)
    {
      BelowInside(Deps(CompiledTask(p)), name, h);
      OwnMembersPublic(p, h);
    }
    CloudAllowedMeaning(CompiledTask(p), name);
  }

  lemma OwnMembersPublic(p: Plan, name: Name)
    requires Accepted(p.task) && name in p.groups && MembersPublic(p, name)
    ensures var c := GroupObligation(p, p.groups[name]); c.cloud && PublicEvidence(p.task, c)
  {
    GroupDeclares(p, p.groups[name]);
  }
}
