/** Dependency relations: the layer-by-layer resolution used to reject cyclic tasks and receipt graphs. */
module Dag {
  import opened Basics

  /** Each node with the set of nodes it depends on. */
  type Relation = map<Name, set<Name>>

  predicate Closed(deps: Relation) {
    forall n :: n in deps ==> deps[n] <= deps.Keys
  }

  /** A list of nodes each of which depends on the next one. */
  ghost predicate Walk(deps: Relation, p: seq<Name>) {
    && |p| >= 1 && p[0] in deps
    && forall i :: 0 <= i < |p| - 1 ==> p[i] in deps && p[i + 1] in deps[p[i]]
  }

  ghost predicate Cyclic(deps: Relation) {
    exists p :: Walk(deps, p) && |p| >= 2 && p[0] == p[|p| - 1]
  }

  /** A rank that falls along every dependency. */
  ghost predicate Ranks(deps: Relation, rank: map<Name, nat>) {
    && rank.Keys == deps.Keys
    && forall n, d :: n in deps && d in deps[n] ==> d in rank && rank[d] < rank[n]
  }

  ghost predicate Ranked(deps: Relation) {
    exists rank :: Ranks(deps, rank)
  }

  /** Some rank of a relation that has one; recursion along dependencies decreases it. */
  ghost function RankOf(deps: Relation): (rank: map<Name, nat>)
    requires Ranked(deps)
    ensures Ranks(deps, rank)
  {
    var rank :| Ranks(deps, rank);
    rank
  }

  lemma {:induction false} RankFallsAlongWalk(deps: Relation, rank: map<Name, nat>, p: seq<Name>)
    requires Ranks(deps, rank) && Walk(deps, p)
    ensures p[|p| - 1] in rank && rank[p[|p| - 1]] + |p| - 1 <= rank[p[0]]
  {
    if |p| > 1 {
      var front := p[..|p| - 1];
      assert Walk(deps, front);
      RankFallsAlongWalk(deps, rank, front);
      assert p[|p| - 2 + 1] in deps[p[|p| - 2]];
    }
  }

  /** From a node of a set in which every node has a dependency, one can walk any distance. */
  lemma {:induction false} LongWalk(deps: Relation, stuck: set<Name>, length: nat) returns (p: seq<Name>)
    requires stuck != {} && stuck <= deps.Keys
    requires forall n :: n in stuck ==> deps[n] * stuck != {}
    ensures Walk(deps, p) && |p| == length + 1 && ToSet(p) <= stuck
  {
    if length == 0 {
      var n :| n in stuck;
      p := [n];
    } else {
      var q := LongWalk(deps, stuck, length - 1);
      var last := q[|q| - 1];
      assert last in ToSet(q);
      var d :| d in deps[last] * stuck;
      p := q + [d];
      ToSetSnoc(q, d);
    }
  }

  /** A nonempty set in which nothing is ready contains a cycle. */
  lemma StuckIsCyclic(deps: Relation, stuck: set<Name>)
    requires stuck != {} && stuck <= deps.Keys
    requires forall n :: n in stuck ==> deps[n] * stuck != {}
    ensures Cyclic(deps)
  {
    var p := LongWalk(deps, stuck, |stuck|);
    SubsetSize(ToSet(p), stuck);
    if Distinct(p) {
      DistinctSize(p);
      assert false;
    }
    var i, j :| 0 <= i < j < |p| && p[i] == p[j];
    PartOfWalk(deps, p, i, j);
  }

  lemma PartOfWalk(deps: Relation, p: seq<Name>, i: nat, j: nat)
    requires Walk(deps, p) && i < j < |p| && p[i] == p[j]
    ensures Cyclic(deps)
  {
    var cycle := p[i..j + 1];
    assert forall k :: 0 <= k < |cycle| ==> cycle[k] == p[i + k];
    assert p[i] in deps && p[i + 1] in deps[p[i]];
    assert Walk(deps, cycle) && cycle[0] == cycle[|cycle| - 1];
  }

  /** When nothing outside `resolved` is ready, what is left contains a cycle. */
  lemma NothingReadyIsCyclic(deps: Relation, resolved: set<Name>)
    requires Closed(deps) && resolved < deps.Keys
    requires forall n :: n in deps && deps[n] <= resolved ==> n in resolved
    ensures Cyclic(deps)
  {
    var stuck := deps.Keys - resolved;
    forall n | n in stuck ensures deps[n] * stuck != {} {
      var d :| d in deps[n] && d !in resolved;
      assert d in deps[n] * stuck;
    }
    StuckIsCyclic(deps, stuck);
  }

  lemma NoCycleWhenRanked(deps: Relation)
    ensures Ranked(deps) ==> !Cyclic(deps)
  {
    if Ranked(deps) && Cyclic(deps) {
      var p :| Walk(deps, p) && |p| >= 2 && p[0] == p[|p| - 1];
      RankFallsAlongWalk(deps, RankOf(deps), p);
      assert false;
    }
  }

  lemma FullSubset<T>(a: set<T>, b: set<T>)
    requires a <= b && |a| >= |b|
    ensures a == b
  {
    assert b == a + (b - a);
    assert |b - a| == 0;
  }

  /** `rank` records, for every resolved node, the round in which it was resolved. */
  ghost predicate Layered(deps: Relation, rank: map<Name, nat>, rounds: nat) {
    && rank.Keys <= deps.Keys
    && forall n :: n in rank ==> rank[n] < rounds && forall d :: d in deps[n] ==> d in rank && rank[d] < rank[n]
  }

  /** The resolution loop: it succeeds exactly on the relations without a cycle, which are the ranked ones. */
  method Resolve(deps: Relation) returns (ok: bool)
    requires Closed(deps)
    ensures ok <==> !Cyclic(deps)
    ensures ok <==> Ranked(deps)
  {
    NoCycleWhenRanked(deps);
    var resolved: set<Name> := {};
    ghost var rank: map<Name, nat> := map[];
    ghost var rounds := 0;
    while |resolved| < |deps|
      invariant rank.Keys == resolved && resolved <= deps.Keys && Layered(deps, rank, rounds)
      decreases |deps| - |resolved|
    {
      var ready := set n | n in deps && deps[n] <= resolved;
      if ready - resolved == {} {
        assert resolved != deps.Keys;
        NothingReadyIsCyclic(deps, resolved);
        return false;
      }
      rank := map n | n in resolved + ready :: if n in resolved then rank[n] else rounds;
      rounds := rounds + 1;
      SubsetSize(resolved + ready, deps.Keys);
      assert resolved + ready == resolved + (ready - resolved);
      resolved := resolved + ready;
    }
    FullSubset(resolved, deps.Keys);
    assert Ranks(deps, rank);
    return true;
  }

  /** Some walk along the dependencies leads from one obligation to the other. */
  ghost predicate Below(deps: Relation, a: Name, b: Name) {
    exists q :: Walk(deps, q) && q[0] == a && q[|q| - 1] == b
  }

  lemma BelowStep(deps: Relation, a: Name, b: Name, c: Name)
    requires a in deps && b in deps[a] && Below(deps, b, c)
    ensures Below(deps, a, c)
  {
    var q :| Walk(deps, q) && q[0] == b && q[|q| - 1] == c;
    var longer := [a] + q;
    assert Walk(deps, longer) && longer[|longer| - 1] == c;
  }

  lemma BelowInside(deps: Relation, a: Name, b: Name)
    requires Closed(deps) && Below(deps, a, b)
    ensures b in deps
  {
    var q :| Walk(deps, q) && q[0] == a && q[|q| - 1] == b;
    if |q| > 1 {
      assert q[|q| - 2 + 1] in deps[q[|q| - 2]];
    }
  }
}
