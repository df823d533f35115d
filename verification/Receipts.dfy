/** Station receipts: their wire form, and graphs of them (residual/receipts.py). */
module Receipts {
  import opened Basics
  import opened Dag
  import opened Tasks

  // ---------------------------------------------------------------- parent references

  /** References in increasing order of task, hence at most one to each task. */
  predicate Canonical(refs: seq<Reference>) {
    forall i, j :: 0 <= i < j < |refs| ==> refs[i].task < refs[j].task
  }

  predicate DistinctTasks(refs: seq<Reference>) {
    forall i, j :: 0 <= i < j < |refs| ==> refs[i].task != refs[j].task
  }

  function AsMap(refs: seq<Reference>): map<Name, Hash> {
    if refs == [] then map[] else AsMap(refs[..|refs| - 1])[refs[|refs| - 1].task := refs[|refs| - 1].receipt]
  }

  function References(m: map<Name, Hash>, ids: seq<Name>): seq<Reference> {
    if ids == [] then [] else
      (if ids[0] in m then [Reference(ids[0], m[ids[0]])] else []) + References(m, ids[1..])
  }

  /** The references of a map, sorted. */
  function SortedReferences(m: map<Name, Hash>): seq<Reference> {
    References(m, Sorted(m.Keys))
  }

  lemma {:induction false} ReferencesSpec(m: map<Name, Hash>, ids: seq<Name>)
    requires Increasing(ids) && forall n :: n in ids ==> n in m
    ensures |References(m, ids)| == |ids|
    ensures forall i :: 0 <= i < |ids| ==> References(m, ids)[i] == Reference(ids[i], m[ids[i]])
  {
    if ids != [] {
      assert ids[0] in ids;
      ReferencesSpec(m, ids[1..]);
    }
  }

  lemma SortedReferencesSpec(m: map<Name, Hash>)
    ensures Canonical(SortedReferences(m))
    ensures forall r :: r in SortedReferences(m) <==> r.task in m && m[r.task] == r.receipt
  {
    SortedSpec(m.Keys);
    ReferencesSpec(m, Sorted(m.Keys));
    forall r: Reference | r.task in m && m[r.task] == r.receipt ensures r in SortedReferences(m) {
      var i :| 0 <= i < |Sorted(m.Keys)| && Sorted(m.Keys)[i] == r.task;
      assert SortedReferences(m)[i] == r;
    }
  }

  lemma {:induction false} AsMapSpec(refs: seq<Reference>)
    requires DistinctTasks(refs)
    ensures forall r :: r in refs <==> r.task in AsMap(refs) && AsMap(refs)[r.task] == r.receipt
  {
    if refs != [] {
      var front, last := refs[..|refs| - 1], refs[|refs| - 1];
      AsMapSpec(front);
      assert refs == front + [last];
      assert forall t :: t in AsMap(front) ==> Reference(t, AsMap(front)[t]) in front;
      assert forall r :: r in front ==> r.task != last.task;
    }
  }

  predicate RefBefore(a: Reference, b: Reference) {
    a.task < b.task
  }

  /** A list of references is canonical exactly when sorting it changes nothing. */
  lemma CanonicalIsSorted(refs: seq<Reference>)
    requires DistinctTasks(refs)
    ensures Canonical(refs) <==> SortedReferences(AsMap(refs)) == refs
  {
    SortedReferencesSpec(AsMap(refs));
    AsMapSpec(refs);
    if Canonical(refs) {
      AscendingUnique(RefBefore, SortedReferences(AsMap(refs)), refs);
    }
  }

  // ---------------------------------------------------------------- receipts and envelopes

  datatype StationReceipt = Station(
    task: Name,
    cacheKey: Hash,
    value: Hash,
    verifier: Name,
    revision: Hash,
    verdict: CheckResult,
    parents: seq<Reference>,
    engineName: string,
    engineVersion: string,
    schema: Schema)

  const UNKNOWN := "unknown"
  const ALGORITHM := "sha256"

  /** What the constructor guarantees; the older schema is only ever given to receipts without an engine. */
  predicate Constructible(r: StationReceipt) {
    && !r.verdict.Skipped? && !Blank(r.engineName) && !Blank(r.engineVersion)
    && Canonical(r.parents) && (forall p :: p in r.parents ==> p.task != r.task)
    && (r.schema.V2? || (r.schema.V1? && r.engineName == UNKNOWN && r.engineVersion == UNKNOWN))
  }

  /** The constructor: sorts the parents, and rejects duplicates, self-references and skipped checks. */
  function Construct(task: Name, cacheKey: Hash, value: Hash, verifier: Name, revision: Hash, verdict: WireVerdict,
      parents: seq<Reference>, engineName: string, engineVersion: string, schema: Schema): Result<StationReceipt> {
    if Blank(engineName) || Blank(engineVersion) || verdict.Unrecognised? || verdict.result.Skipped?
      || !DistinctTasks(parents) || (exists p :: p in parents && p.task == task) then Err
    else Ok(Station(task, cacheKey, value, verifier, revision, verdict.result,
      SortedReferences(AsMap(parents)), engineName, engineVersion, schema))
  }

  function PayloadOf(r: StationReceipt): Payload {
    Payload(r.task, r.cacheKey, r.value, r.verifier, r.revision, Known(r.verdict), r.parents,
      if r.schema.V2? then Some(r.engineName) else None,
      if r.schema.V2? then Some(r.engineVersion) else None)
  }

  function ReceiptHash(r: StationReceipt): Hash {
    StationHash(r.schema, PayloadOf(r))
  }

  function ToDict(r: StationReceipt): Envelope {
    Envelope(r.schema, ALGORITHM, ReceiptHash(r), PayloadOf(r))
  }

  /** The fields present are the ones the schema calls for. */
  predicate ExpectedFields(schema: Schema, p: Payload) {
    p.Payload? && (schema.V2? ==> p.engineName.Some? && p.engineVersion.Some?)
    && (schema.V1? ==> p.engineName.None? && p.engineVersion.None?)
  }

  function FromDict(e: Envelope): Result<StationReceipt> {
    if e.schema.OtherSchema? || e.algorithm != ALGORITHM || !ExpectedFields(e.schema, e.payload)
      || StationHash(e.schema, e.payload) != e.hash then Err
    else
      var p := e.payload;
      match Construct(p.task, p.cacheKey, p.value, p.verifier, p.revision, p.verdict, p.parents,
        if e.schema.V2? then p.engineName.value else UNKNOWN,
        if e.schema.V2? then p.engineVersion.value else UNKNOWN, e.schema)
      case Err => Err
      case Ok(r) => if PayloadOf(r) != p || ReceiptHash(r) != e.hash then Err else Ok(r)
  }

  /** Reading back what was written gives the receipt again, under either schema. */
  lemma WriteThenRead(r: StationReceipt)
    requires Constructible(r)
    ensures FromDict(ToDict(r)) == Ok(r)
  {
    CanonicalIsSorted(r.parents);
    assert !Blank(UNKNOWN) by {
      assert UNKNOWN[0] in UNKNOWN;
    }
  }

  /** Writing out what was read gives the envelope again, and only constructible receipts are ever read. */
  lemma ReadThenWrite(e: Envelope)
    requires FromDict(e).Ok?
    ensures ToDict(FromDict(e).value) == e && Constructible(FromDict(e).value)
  {
    CanonicalIsSorted(e.payload.parents);
  }

  /** `matches`: integrity and context only. */
  predicate Matches(r: StationReceipt, value: Json, cacheKey: Hash, verifier: Name, revision: Hash,
      parents: seq<Reference>) {
    && r.verdict.Passed? && r.value == ValueHash(value) && r.cacheKey == cacheKey
    && r.verifier == verifier && r.revision == revision && r.parents == parents
  }

  // ---------------------------------------------------------------- receipt graphs

  type Declared = map<Name, seq<Name>>

  function HashesOf(receipts: map<Name, StationReceipt>, deps: seq<Name>): map<Name, Hash> {
    map d | d in deps && d in receipts :: ReceiptHash(receipts[d])
  }

  function ParentsIn(receipts: map<Name, StationReceipt>, deps: seq<Name>): seq<Reference> {
    SortedReferences(HashesOf(receipts, deps))
  }

  predicate ValidNode(receipts: map<Name, StationReceipt>, declared: Declared, n: Name) {
    && n in receipts && n in declared && receipts[n].task == n
    && Distinct(declared[n]) && (forall d :: d in declared[n] ==> d in receipts)
    && receipts[n].parents == ParentsIn(receipts, declared[n])
  }

  function RelationOf(declared: Declared): Relation {
    map n | n in declared :: ToSet(declared[n])
  }

  predicate ValidNodes(receipts: map<Name, StationReceipt>, declared: Declared) {
    receipts.Keys == declared.Keys && forall n :: n in receipts ==> ValidNode(receipts, declared, n)
  }

  /** `validate_receipt_graph`: every node binds exactly its declared parents, and the declarations are acyclic. */
  method ValidateReceiptGraph(receipts: map<Name, StationReceipt>, declared: Declared) returns (ok: bool)
    ensures ok <==> ValidNodes(receipts, declared) && !Cyclic(RelationOf(declared))
  {
    if !ValidNodes(receipts, declared) {
      return false;
    }
    assert Closed(RelationOf(declared)) by {
      forall n | n in RelationOf(declared) ensures RelationOf(declared)[n] <= declared.Keys {
        assert ValidNode(receipts, declared, n);
      }
    }
    ok := Resolve(RelationOf(declared));
  }

  /** A parent's hash is part of the child's. */
  lemma ParentHashIsSmaller(receipts: map<Name, StationReceipt>, declared: Declared, n: Name, d: Name)
    requires ValidNode(receipts, declared, n) && d in declared[n]
    ensures ReceiptHash(receipts[d]) < ReceiptHash(receipts[n])
  {
    var hashes := HashesOf(receipts, declared[n]);
    SortedReferencesSpec(hashes);
    var r := Reference(d, ReceiptHash(receipts[d]));
    assert d in hashes && hashes[d] == ReceiptHash(receipts[d]);
    assert r in receipts[n].parents;
    var p := PayloadOf(receipts[n]);
    assert r in p.parents;
    assert r.receipt < ReceiptHash(receipts[n]);
  }

  /** Along every edge the receipt's hash falls. */
  ghost predicate Falls(receipts: map<Name, StationReceipt>, deps: Relation) {
    forall n, d :: n in deps && d in deps[n] ==> FallsAt(receipts, n, d)
  }

  ghost predicate FallsAt(receipts: map<Name, StationReceipt>, n: Name, d: Name) {
    n in receipts && d in receipts && ReceiptHash(receipts[d]) < ReceiptHash(receipts[n])
  }

  lemma BoundReceiptsFall(receipts: map<Name, StationReceipt>, declared: Declared)
    requires ValidNodes(receipts, declared)
    ensures Falls(receipts, RelationOf(declared))
  {
    forall n, d | n in RelationOf(declared) && d in RelationOf(declared)[n]
      ensures FallsAt(receipts, n, d)
    {
      assert ValidNode(receipts, declared, n);
      ParentHashIsSmaller(receipts, declared, n, d);
    }
  }

  lemma {:induction false} HashFallsAlongWalk(receipts: map<Name, StationReceipt>, deps: Relation, p: seq<Name>)
    requires Falls(receipts, deps) && Walk(deps, p) && |p| >= 2
    ensures FallsAt(receipts, p[0], p[|p| - 1])
  {
    var front, last := p[..|p| - 1], p[|p| - 2];
    assert p[|p| - 2 + 1] in deps[last];
    assert FallsAt(receipts, last, p[|p| - 1]);
    if |p| > 2 {
      assert Walk(deps, front);
      HashFallsAlongWalk(receipts, deps, front);
    }
  }

  /** Since hashes do not collide, binding the exact parents already excludes a cycle: the last check never fires. */
  lemma BoundGraphsAreAcyclic(receipts: map<Name, StationReceipt>, declared: Declared)
    requires ValidNodes(receipts, declared)
    ensures !Cyclic(RelationOf(declared))
  {
    BoundReceiptsFall(receipts, declared);
    if p :| Walk(RelationOf(declared), p) && |p| >= 2 && p[0] == p[|p| - 1] {
      HashFallsAlongWalk(receipts, RelationOf(declared), p);
      assert false;
    }
  }
}
