/** What the receipts of a run prove about everything they depend on (residual/engine.py, residual/receipts.py). */
module Provenance {
  import opened Basics
  import opened Dag
  import opened Tasks
  import opened Receipts
  import opened Bookkeeping

  datatype Run = Run(task: Task, registry: Registry, books: Books)

  /** The books of the run are kept, over a well-formed task. */
  ghost predicate Sound(r: Run) {
    WellFormed(r.task) && Kept(r.task, r.registry, r.books)
  }

  /** Both runs accepted `n`, and one of its two receipts has the same hash in both. */
  ghost predicate Linked(a: Run, b: Run, n: Name) {
    && n in a.books.accepted && n in b.books.accepted && n in a.books.receipts && n in b.books.receipts
    && (|| RunReceiptHash(a.books.receipts[n]) == RunReceiptHash(b.books.receipts[n])
        || (&& n in a.books.station && n in b.books.station
            && ReceiptHash(a.books.station[n]) == ReceiptHash(b.books.station[n])))
  }

  /** Goal, contract, evidence, verifier revision and identity, and accepted value of `n` are the same in both runs. */
  ghost predicate SameRecord(a: Run, b: Run, n: Name) {
    && n in a.task.obligations && n in b.task.obligations && n in a.books.accepted && n in b.books.accepted
    && a.task.id == b.task.id && a.task.goal == b.task.goal
    && a.task.obligations[n] == b.task.obligations[n]
    && EvidenceOf(a.task, a.task.obligations[n]) == EvidenceOf(b.task, b.task.obligations[n])
    && EditionOf(a.registry, a.task.obligations[n]) == EditionOf(b.registry, b.task.obligations[n])
    && IdentityOf(a.registry, a.task.obligations[n], a.books.station)
       == IdentityOf(b.registry, b.task.obligations[n], b.books.station)
    && a.books.accepted[n] == b.books.accepted[n]
  }

  lemma SameEvidence(a: Task, b: Task, o: Obligation)
    requires EvidenceHashes(a, o) == EvidenceHashes(b, o)
    ensures EvidenceOf(a, o) == EvidenceOf(b, o)
  {
    forall x | x in o.evidence
      ensures (x in a.artifacts) == (x in b.artifacts)
      ensures (x in a.artifacts ==> a.artifacts[x].lines == b.artifacts[x].lines)
    {
      assert x in EvidenceHashes(a, o) <==> x in EvidenceHashes(b, o);
      assert x in EvidenceHashes(a, o) ==> EvidenceHashes(a, o)[x] == EvidenceHashes(b, o)[x];
    }
  }

  /** Equal parent lists bind equal parent hashes. */
  lemma SameParents(a: map<Name, StationReceipt>, b: map<Name, StationReceipt>, deps: seq<Name>, d: Name)
    requires ParentsIn(a, deps) == ParentsIn(b, deps) && d in deps && d in a
    ensures d in b && ReceiptHash(a[d]) == ReceiptHash(b[d])
  {
    SortedReferencesSpec(HashesOf(a, deps));
    SortedReferencesSpec(HashesOf(b, deps));
    assert d in HashesOf(a, deps);
    assert Reference(d, ReceiptHash(a[d])) in ParentsIn(a, deps);
  }

  lemma LinkedSameKey(a: Run, b: Run, n: Name)
    requires Sound(a) && Sound(b) && Linked(a, b, n)
    ensures n in a.task.obligations && n in b.task.obligations
    ensures CacheKey(a.task, a.registry, a.task.obligations[n], a.books)
      == CacheKey(b.task, b.registry, b.task.obligations[n], b.books)
    ensures a.books.accepted[n] == b.books.accepted[n]
  {
    assert KeptAt(a.task, a.registry, a.books, n);
    assert KeptAt(b.task, b.registry, b.books, n);
  }

  lemma LinkedSameRecord(a: Run, b: Run, n: Name)
    requires Sound(a) && Sound(b) && Linked(a, b, n)
    ensures SameRecord(a, b, n)
  {
    LinkedSameKey(a, b, n);
    KeySaysAll(a.task, a.registry, a.task.obligations[n], a.books, b.task, b.registry, b.task.obligations[n], b.books);
    SameEvidence(a.task, b.task, a.task.obligations[n]);
  }

  lemma LinkedParent(a: Run, b: Run, n: Name, d: Name)
    requires Sound(a) && Sound(b) && Linked(a, b, n) && n in a.task.obligations && d in a.task.obligations[n].dependsOn
    ensures Linked(a, b, d)
  {
    LinkedSameKey(a, b, n);
    var o := a.task.obligations[n];
    KeySaysAll(a.task, a.registry, o, a.books, b.task, b.registry, b.task.obligations[n], b.books);
    assert KeptAt(a.task, a.registry, a.books, n) && KeptAt(b.task, b.registry, b.books, n);
    if IdentityOf(a.registry, o, a.books.station).Some? {
      SameParents(a.books.station, b.books.station, o.dependsOn, d);
    } else {
      assert d in DependencyHashes(o, a.books.receipts);
      assert DependencyHashes(o, a.books.receipts)[d] == DependencyHashes(o, b.books.receipts)[d];
    }
  }

  /**
   * Equal receipt hashes imply equal ancestor cones: whatever is reached along dependencies in one
   * run is reached in the other, with the same contract, evidence, verifier revision and identity, and value.
   */
  lemma {:induction false} EqualReceiptsEqualCones(a: Run, b: Run, p: seq<Name>)
    requires Sound(a) && Sound(b) && Walk(Deps(a.task), p) && Linked(a, b, p[0])
    ensures Walk(Deps(b.task), p)
    ensures Linked(a, b, p[|p| - 1]) && SameRecord(a, b, p[|p| - 1])
  {
    if |p| == 1 {
      LinkedSameRecord(a, b, p[0]);
    } else {
      var front := p[..|p| - 1];
      assert Walk(Deps(a.task), front);
      EqualReceiptsEqualCones(a, b, front);
      var last, d := p[|p| - 2], p[|p| - 1];
      assert p[|p| - 2 + 1] in Deps(a.task)[last];
      LinkedParent(a, b, last, d);
      LinkedSameRecord(a, b, d);
      assert d in Deps(b.task)[last];
      forall i | 0 <= i < |p| - 1 ensures p[i] in Deps(b.task) && p[i + 1] in Deps(b.task)[p[i]] {
        if i < |p| - 2 {
          assert front[i] == p[i] && front[i + 1] == p[i + 1];
        }
      }
    }
  }

  /** The dependency declarations of the obligations that have a station receipt. */
  function DeclaredBy(r: Run): Declared {
    map n | n in r.books.station && n in r.task.obligations :: r.task.obligations[n].dependsOn
  }

  /** The station receipts that a run issues always form a valid receipt graph. */
  lemma IssuedGraphIsValid(r: Run)
    requires Sound(r)
    ensures ValidNodes(r.books.station, DeclaredBy(r)) && !Cyclic(RelationOf(DeclaredBy(r)))
  {
    forall n | n in r.books.station ensures ValidNode(r.books.station, DeclaredBy(r), n) {
      assert KeptAt(r.task, r.registry, r.books, n);
      assert WellFormedObligation(r.task, n, r.task.obligations[n]);
    }
    assert DeclaredBy(r).Keys == r.books.station.Keys by {
      forall n | n in r.books.station ensures n in r.task.obligations {
        assert KeptAt(r.task, r.registry, r.books, n);
      }
    }
    BoundGraphsAreAcyclic(r.books.station, DeclaredBy(r));
  }

  /**
   * What the receipts of an accepted obligation say: its own key, the digest of the accepted value, and its check with
   * its edition; a station receipt also that the check passed, and the receipts of exactly what it depends on.
   */
  lemma ReceiptsSay(r: Run, n: Name)
    requires Sound(r) && n in r.books.accepted
    ensures n in r.task.obligations && n in r.books.receipts
    ensures var o, receipt := r.task.obligations[n], r.books.receipts[n];
      && receipt.binding == CacheKey(r.task, r.registry, o, r.books) && receipt.value == ValueHash(r.books.accepted[n])
      && receipt.verifier == o.check && receipt.edition == EditionOf(r.registry, o)
    ensures n in r.books.station ==>
      var o, station := r.task.obligations[n], r.books.station[n];
      && station.task == n && station.verdict.Passed? && station.value == ValueHash(r.books.accepted[n])
      && station.cacheKey == CacheKey(r.task, r.registry, o, r.books) && station.verifier == o.check
      && forall p :: p in station.parents <==>
          p.task in o.dependsOn && p.task in r.books.station && p.receipt == ReceiptHash(r.books.station[p.task])
  {
    assert KeptAt(r.task, r.registry, r.books, n);
    assert WellFormedObligation(r.task, n, r.task.obligations[n]);
    SortedReferencesSpec(HashesOf(r.books.station, r.task.obligations[n].dependsOn));
  }

  // ---------------------------------------------------------------- who gets a station receipt

  /** The check of the obligation has an identity. */
  predicate Identified(r: Run, n: Name) {
    n in r.task.obligations && r.task.obligations[n].check in r.registry.identities
  }

  lemma StationStep(r: Run, n: Name)
    requires Sound(r) && n in r.books.accepted
    ensures n in r.task.obligations
    ensures n in r.books.station <==>
      Identified(r, n) && forall d :: d in r.task.obligations[n].dependsOn ==> d in r.books.station
  {
    assert KeptAt(r.task, r.registry, r.books, n);
  }

  lemma {:induction false} StationAlongWalk(r: Run, q: seq<Name>)
    requires Sound(r) && Walk(Deps(r.task), q) && q[0] in r.books.station
    ensures q[|q| - 1] in r.books.station
  {
    if |q| > 1 {
      assert Walk(Deps(r.task), q[..|q| - 1]);
      StationAlongWalk(r, q[..|q| - 1]);
      StationStep(r, q[|q| - 2]);
      assert q[|q| - 2 + 1] in Deps(r.task)[q[|q| - 2]];
    }
  }

  /**
   * An accepted obligation gets a station receipt if and only if the checks of all that it depends on, and its own,
   * have an identity.
   */
  lemma StationIffIdentified(r: Run, n: Name)
    requires Sound(r) && Tasks.Accepted(r.task) && n in r.books.accepted
    ensures n in r.books.station <==> forall d :: Below(Deps(r.task), n, d) ==> Identified(r, d)
  {
    if n in r.books.station {
      forall d | Below(Deps(r.task), n, d)
        ensures Identified(r, d)
      {
        var q :| Walk(Deps(r.task), q) && q[0] == n && q[|q| - 1] == d;
        StationAlongWalk(r, q);
        StationStep(r, d);
      }
    }
    if forall d :: Below(Deps(r.task), n, d) ==> Identified(r, d) {
      StationStep(r, n);
      IdentifiedGetsStation(r, n);
    }
  }

  lemma {:induction false} IdentifiedGetsStation(r: Run, n: Name)
    requires Sound(r) && Tasks.Accepted(r.task) && n in r.books.accepted && n in r.task.obligations
    requires forall d :: Below(Deps(r.task), n, d) ==> Identified(r, d)
    ensures n in r.books.station
    decreases RankOf(Deps(r.task))[n]
  {
    StationStep(r, n);
    assert Walk(Deps(r.task), [n]) && [n][|[n]| - 1] == n;
    assert Below(Deps(r.task), n, n);
    assert KeptAt(r.task, r.registry, r.books, n) && WellFormedObligation(r.task, n, r.task.obligations[n]);
    forall d | d in r.task.obligations[n].dependsOn
      ensures d in r.books.station
    {
      assert d in ToSet(r.task.obligations[n].dependsOn) && d in Deps(r.task)[n];
      forall e | Below(Deps(r.task), d, e)
        ensures Identified(r, e)
      {
        BelowStep(Deps(r.task), n, d, e);
      }
      IdentifiedGetsStation(r, d);
    }
  }

  // ---------------------------------------------------------------- what is left unresolved

  /** Not accepted although everything it depends on was. */
  predicate Failed(t: Task, accepted: map<Name, Json>, n: Name) {
    n in t.obligations && n !in accepted && forall d :: d in t.obligations[n].dependsOn ==> d in accepted
  }

  /** Whatever is unresolved was held up, possibly through others, by an obligation that failed on its own account. */
  lemma {:induction false} BlockedByAFailure(t: Task, accepted: map<Name, Json>, n: Name) returns (p: seq<Name>)
    requires Tasks.Accepted(t) && n in t.obligations && n !in accepted
    ensures Walk(Deps(t), p) && p[0] == n && Failed(t, accepted, p[|p| - 1])
    decreases RankOf(Deps(t))[n]
  {
    if Failed(t, accepted, n) {
      p := [n];
    } else {
      var d :| d in t.obligations[n].dependsOn && d !in accepted;
      assert WellFormedObligation(t, n, t.obligations[n]) && d in ToSet(t.obligations[n].dependsOn);
      assert d in Deps(t)[n];
      var q := BlockedByAFailure(t, accepted, d);
      p := [n] + q;
      forall i | 0 <= i < |p| - 1 ensures p[i] in Deps(t) && p[i + 1] in Deps(t)[p[i]] {
        if i > 0 {
          assert p[i] == q[i - 1] && p[i + 1] == q[i - 1 + 1];
        }
      }
    }
  }
}
