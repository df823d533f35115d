/** Tasks, contexts and registries (residual/core.py), with the hashed records that refer to them. */
module Tasks {
  import opened Basics
  import opened Dag

  // ---------------------------------------------------------------- values and digests

  /**
   * A JSON value. `Entry` and `Members` are the two object shapes the host itself writes; `Other` is everything else.
   */
  datatype Json =
    | Int(i: int)
    | Text(s: string)
    | Object(fields: map<Name, Json>)
    | Entry(value: Json, receipt: Envelope)
    | Members(members: seq<Obligation>, model: Hash)
    | Other(tag: nat)

  datatype Obligation = Obligation(
    id: Name,
    instruction: string,
    check: Name,
    evidence: seq<Name>,
    dependsOn: seq<Name>,
    parameters: Json,
    solver: Option<Name>,
    cloud: bool)

  datatype CheckKind = Mechanical | Structural | Judge

  datatype Identity = Identity(revision: Hash, kind: CheckKind)

  /** SHA-256 without collisions: one constructor for each record that is ever digested. */
  datatype Hash =
    | TextHash(lines: seq<string>)
    | ValueHash(value: Json)
    | ContractHash(contract: Obligation)
    | GoalHash(task: Name, goal: string)
    | RevisionHash(identity: Hash, edition: Hash, kind: CheckKind)
    | CompiledRevision(editions: map<Name, Hash>, identities: map<Name, Identity>)
    | BindingHash(binding: Binding)
    | KeyHash(key: KeyFields)
    | StationHash(schema: Schema, payload: Payload)
    | RunReceiptHash(receipt: RunReceipt)
    | OpaqueHash(text: nat)

  /** What a cached value without a verifier identity is bound to. */
  datatype Binding = Binding(
    task: Name,
    goal: string,
    obligation: Obligation,
    edition: Hash,
    evidence: map<Name, Hash>,
    dependencies: map<Name, Hash>)

  /** What a cached value with a verifier identity is bound to. */
  datatype KeyFields = KeyFields(
    project: Name,
    task: Name,
    goal: Hash,
    contract: Hash,
    verifier: Name,
    revision: Hash,
    kind: CheckKind,
    artifacts: map<Name, Hash>,
    parents: seq<Reference>)

  datatype Reference = Reference(task: Name, receipt: Hash)

  datatype RunReceipt = RunReceipt(binding: Hash, value: Hash, verifier: Name, edition: Hash)

  datatype Schema = V1 | V2 | OtherSchema(tag: nat)

  datatype CheckResult = Passed | Failed | Undecided | Skipped

  datatype WireVerdict = Known(result: CheckResult) | Unrecognised(text: string)

  /** The payload object of a receipt as it is written; `BadPayload` is one with other fields than these. */
  datatype Payload =
    | Payload(
        task: Name,
        cacheKey: Hash,
        value: Hash,
        verifier: Name,
        revision: Hash,
        verdict: WireVerdict,
        parents: seq<Reference>,
        engineName: Option<string>,
        engineVersion: Option<string>)
    | BadPayload(tag: nat)

  datatype Envelope = Envelope(schema: Schema, algorithm: string, hash: Hash, payload: Payload)

  // ---------------------------------------------------------------- tasks

  datatype Artifact = Artifact(lines: seq<string>, cloud: bool)

  /** A task: its obligations by name, and the order in which they were declared. */
  datatype Task = Task(
    id: Name,
    goal: string,
    artifacts: map<Name, Artifact>,
    order: seq<Name>,
    obligations: map<Name, Obligation>,
    structure: Option<Name>)

  function Deps(t: Task): Relation {
    map n | n in t.obligations :: ToSet(t.obligations[n].dependsOn)
  }

  /** Everything the constructor checks except acyclicity. */
  predicate WellFormed(t: Task) {
    && t.order != [] && Distinct(t.order) && ToSet(t.order) == t.obligations.Keys
    && (forall n {:trigger WellFormedObligation(t, n, t.obligations[n])} ::
          n in t.obligations ==> WellFormedObligation(t, n, t.obligations[n]))
    && (forall a :: a in t.artifacts ==> t.artifacts[a].lines != [])
    && (t.structure.Some? ==> t.structure.value in t.artifacts)
  }

  predicate WellFormedObligation(t: Task, n: Name, o: Obligation) {
    && o.id == n && Distinct(o.evidence) && Distinct(o.dependsOn)
    && ToSet(o.evidence) <= t.artifacts.Keys && ToSet(o.dependsOn) <= t.obligations.Keys
  }

  ghost predicate Accepted(t: Task) {
    WellFormed(t) && Ranked(Deps(t))
  }

  lemma DepsClosed(t: Task)
    requires WellFormed(t)
    ensures Closed(Deps(t))
  {
    forall n | n in Deps(t) ensures Deps(t)[n] <= Deps(t).Keys {
      assert WellFormedObligation(t, n, t.obligations[n]);
    }
  }

  /** Task construction succeeds exactly on well-formed declarations without a dependency cycle. */
  method NewTask(t: Task) returns (r: Result<Task>)
    ensures r == if WellFormed(t) && !Cyclic(Deps(t)) then Ok(t) else Err
    ensures r.Ok? <==> Accepted(t)
  {
    if !WellFormed(t) {
      return Err;
    }
    DepsClosed(t);
    var ok := Resolve(Deps(t));
    r := if ok then Ok(t) else Err;
  }

  // ---------------------------------------------------------------- privacy

  predicate PublicEvidence(t: Task, o: Obligation) {
    forall a :: a in o.evidence ==> a in t.artifacts && t.artifacts[a].cloud
  }

  /** An obligation may leave the host when it, its evidence and everything it depends on may. */
  predicate CloudAllowed(t: Task, n: Name)
    requires Accepted(t) && n in t.obligations
    decreases RankOf(Deps(t))[n]
  {
    var o := t.obligations[n];
    && o.cloud && PublicEvidence(t, o)
    && forall d :: d in o.dependsOn ==>
        (assert WellFormedObligation(t, n, o) && d in ToSet(o.dependsOn) && d in Deps(t)[n]; CloudAllowed(t, d))
  }

  /** Whatever is reached along dependencies from an exportable obligation is exportable. */
  lemma {:induction false} CloudAllowedIsInherited(t: Task, p: seq<Name>)
    requires Accepted(t) && Walk(Deps(t), p) && CloudAllowed(t, p[0])
    ensures p[|p| - 1] in t.obligations && CloudAllowed(t, p[|p| - 1])
  {
    if |p| > 1 {
      var front := p[..|p| - 1];
      assert Walk(Deps(t), front);
      CloudAllowedIsInherited(t, front);
      var last := front[|front| - 1];
      assert p[|p| - 2 + 1] in Deps(t)[last];
      assert WellFormedObligation(t, last, t.obligations[last]);
    }
  }

  /** Nothing about this one obligation is private. */
  predicate PublicAt(t: Task, n: Name) {
    n in t.obligations && t.obligations[n].cloud && PublicEvidence(t, t.obligations[n])
  }

  /** An obligation may leave the host if and only if nothing is private about it or anything it depends on. */
  lemma CloudAllowedMeaning(t: Task, n: Name)
    requires Accepted(t) && n in t.obligations
    ensures CloudAllowed(t, n) <==> forall d :: Below(Deps(t), n, d) ==> PublicAt(t, d)
  {
    if CloudAllowed(t, n) {
      forall d | Below(Deps(t), n, d)
        ensures PublicAt(t, d)
      {
        var q :| Walk(Deps(t), q) && q[0] == n && q[|q| - 1] == d;
        CloudAllowedIsInherited(t, q);
      }
    }
    if forall d :: Below(Deps(t), n, d) ==> PublicAt(t, d) {
      PublicBelowIsAllowed(t, n);
    }
  }

  lemma {:induction false} PublicBelowIsAllowed(t: Task, n: Name)
    requires Accepted(t) && n in t.obligations && forall d :: Below(Deps(t), n, d) ==> PublicAt(t, d)
    ensures CloudAllowed(t, n)
    decreases RankOf(Deps(t))[n]
  {
    var o := t.obligations[n];
    assert Walk(Deps(t), [n]);
    assert Below(Deps(t), n, n) by {
      assert [n][0] == n && [n][|[n]| - 1] == n;
    }
    assert WellFormedObligation(t, n, o);
    forall d | d in o.dependsOn
      ensures d in t.obligations && CloudAllowed(t, d)
    {
      assert d in ToSet(o.dependsOn) && d in Deps(t)[n];
      forall e | Below(Deps(t), d, e)
        ensures PublicAt(t, e)
      {
        BelowStep(Deps(t), n, d, e);
      }
      PublicBelowIsAllowed(t, d);
    }
  }

  // ---------------------------------------------------------------- contexts and registries

  /** What a plugin can see: its obligation, its declared evidence and its declared dependencies. */
  datatype Context = Context(obligation: Obligation, evidence: map<Name, seq<string>>, dependencies: map<Name, Json>)

  function EvidenceOf(t: Task, o: Obligation): map<Name, seq<string>> {
    map a | a in o.evidence && a in t.artifacts :: t.artifacts[a].lines
  }

  function ContextOf(t: Task, o: Obligation, values: map<Name, Json>): Context {
    Context(o, EvidenceOf(t, o), map d | d in o.dependsOn && d in values :: values[d])
  }

  /** A plugin sees nothing but what its obligation declares: whatever else differs, its context is the same. */
  lemma ContextIsScoped(t: Task, t': Task, o: Obligation, values: map<Name, Json>, values': map<Name, Json>)
    requires forall a :: a in o.evidence ==>
      (a in t.artifacts <==> a in t'.artifacts)
      && (a in t.artifacts ==> t.artifacts[a].lines == t'.artifacts[a].lines)
    requires forall d :: d in o.dependsOn ==>
      (d in values <==> d in values') && (d in values ==> values[d] == values'[d])
    ensures ContextOf(t, o, values) == ContextOf(t', o, values')
    ensures forall a :: a in o.evidence && a in t.artifacts ==>
      a in ContextOf(t, o, values).evidence && ContextOf(t, o, values).evidence[a] == t.artifacts[a].lines
    ensures forall d :: d in o.dependsOn && d in values ==>
      d in ContextOf(t, o, values).dependencies && ContextOf(t, o, values).dependencies[d] == values[d]
  {
    assert EvidenceOf(t, o) == EvidenceOf(t', o);
    assert ContextOf(t, o, values).dependencies == ContextOf(t', o, values').dependencies;
  }

  /** A plugin that raises, or returns something else than a verdict, yields `Unknown`. */
  datatype Verdict = Pass | Fail(code: string) | Unknown(code: string)

  type Check = (Json, Context) -> Verdict

  /** A solver yields nothing when it raises. */
  type Solver = Context -> Option<Json>

  datatype Registry = Registry(
    checks: map<Name, Check>,
    editions: map<Name, Hash>,
    identities: map<Name, Identity>,
    solvers: map<Name, Solver>)

  predicate Registered(t: Task, reg: Registry) {
    && reg.editions.Keys == reg.checks.Keys
    && forall n :: n in t.obligations ==>
        && t.obligations[n].check in reg.checks
        && (t.obligations[n].solver.Some? ==> t.obligations[n].solver.value in reg.solvers)
  }

  /** The check of obligation `n` passes on `values[n]`, seen in the context those values give it. */
  ghost predicate Passes(t: Task, reg: Registry, values: map<Name, Json>, n: Name) {
    && n in t.obligations && n in values && t.obligations[n].check in reg.checks
    && reg.checks[t.obligations[n].check](values[n], ContextOf(t, t.obligations[n], values)).Pass?
  }

  /** What the solver of `n` computes in the context that the values give it, if it has one that does not raise. */
  function SolvedBy(t: Task, reg: Registry, values: map<Name, Json>, n: Name): Option<Json> {
    if n in t.obligations && t.obligations[n].solver.Some? && t.obligations[n].solver.value in reg.solvers
    then reg.solvers[t.obligations[n].solver.value](ContextOf(t, t.obligations[n], values)) else None
  }
}
