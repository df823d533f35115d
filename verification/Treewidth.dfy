/** What an elimination certificate proves about the original graph. */
module Treewidth {
  import opened Basics
  import opened Elimination
  import opened Routes

  // ---------------------------------------------------------------- paths through eliminated vertices

  /** A path of `g` from `u` to `w`, along an edge at least, whose inner vertices all lie in `inner`. */
  ghost predicate PathThrough(g: Graph, inner: set<Name>, u: Name, w: Name, p: seq<Name>) {
    && Route(g, u, w, p) && |p| >= 2
    && forall i :: 0 < i < |p| - 1 ==> p[i] in inner
  }

  ghost predicate Linked(g: Graph, inner: set<Name>, u: Name, w: Name) {
    exists p :: PathThrough(g, inner, u, w, p)
  }

  lemma LinkedEdge(g: Graph, inner: set<Name>, u: Name, w: Name)
    requires Edge(g, u, w)
    ensures Linked(g, inner, u, w)
  {
    assert PathThrough(g, inner, u, w, [u, w]);
  }

  lemma LinkedGrows(g: Graph, inner: set<Name>, more: set<Name>, u: Name, w: Name)
    requires Linked(g, inner, u, w) && inner <= more
    ensures Linked(g, more, u, w)
  {
    var p :| PathThrough(g, inner, u, w, p);
    assert PathThrough(g, more, u, w, p);
  }

  lemma LinkedJoins(g: Graph, inner: set<Name>, u: Name, v: Name, w: Name)
    requires Linked(g, inner, u, v) && Linked(g, inner, v, w)
    ensures Linked(g, inner + {v}, u, w)
  {
    var p :| PathThrough(g, inner, u, v, p);
    var q :| PathThrough(g, inner, v, w, q);
    RouteJoins(g, u, v, w, p, q);
    assert PathThrough(g, inner + {v}, u, w, p + q[1..]);
  }

  /** A path either avoids `v`, or gives a path up to its first visit and one from its last visit. */
  lemma LinkedSplits(g: Graph, inner: set<Name>, u: Name, v: Name, w: Name)
    requires Linked(g, inner + {v}, u, w)
    ensures Linked(g, inner, u, w) || (Linked(g, inner, u, v) && Linked(g, inner, v, w))
  {
    var p :| PathThrough(g, inner + {v}, u, w, p);
    var first := 1;
    while first < |p| - 1 && p[first] != v
      invariant 1 <= first <= |p| - 1
      invariant forall i :: 0 < i < first ==> p[i] in inner
    {
      first := first + 1;
    }
    if first == |p| - 1 {
      assert PathThrough(g, inner, u, w, p);
    } else {
      var last := |p| - 2;
      while p[last] != v
        invariant first <= last <= |p| - 2
        invariant forall i :: last < i < |p| - 1 ==> p[i] in inner
        decreases last
      {
        last := last - 1;
      }
      assert PathThrough(g, inner, u, v, p[..first + 1]);
      assert PathThrough(g, inner, v, w, p[last..]);
    }
  }

  /**
   * The fill-path theorem: two vertices that are both left are adjacent after `k` eliminations
   * exactly when the original graph joins them by a path through eliminated vertices only.
   */
  lemma {:induction false} FillPath(g: Graph, order: seq<Name>, k: nat, u: Name, w: Name)
    requires Undirected(g) && Distinct(order) && ToSet(order) <= g.Keys && k <= |order| && u != w
    requires u in Remaining(g, order, k) && w in Remaining(g, order, k)
    ensures Edge(Remaining(g, order, k), u, w) <==> Linked(g, ToSet(order[..k]), u, w)
  {
    if k == 0 {
      assert ToSet(order[..k]) == {};
      FillPathStart(g, u, w);
    } else {
      var h, v, gone := Remaining(g, order, k - 1), order[k - 1], ToSet(order[..k - 1]);
      TakeSnoc(order, k - 1);
      NextRemains(g, order, k - 1);
      RemainingSpec(g, order, k - 1);
      FillPath(g, order, k - 1, u, w);
      FillPath(g, order, k - 1, u, v);
      FillPath(g, order, k - 1, v, w);
      if Linked(g, gone + {v}, u, w) {
        LinkedSplits(g, gone, u, v, w);
      }
      if Edge(h, u, v) && Edge(h, v, w) {
        LinkedJoins(g, gone, u, v, w);
      }
      if Linked(g, gone, u, w) {
        LinkedGrows(g, gone, gone + {v}, u, w);
      }
    }
  }

  lemma FillPathStart(g: Graph, u: Name, w: Name)
    ensures Edge(g, u, w) <==> Linked(g, {}, u, w)
  {
    if Edge(g, u, w) {
      LinkedEdge(g, {}, u, w);
    }
    if p :| PathThrough(g, {}, u, w, p) {
      if |p| == 2 {
        assert Edge(g, p[0], p[0 + 1]);
      } else {
        var inside := p[1];
        assert inside !in {};
      }
    }
  }

  // ---------------------------------------------------------------- the certificate as a tree decomposition

  function Bag(step: Step): set<Name> {
    {step.node} + ToSet(step.neighbors)
  }

  lemma StepFacts(g: Graph, order: seq<Name>, i: nat)
    requires i < |order|
    ensures Steps(g, order)[i].node == order[i]
    ensures ToSet(Steps(g, order)[i].neighbors) == Adj(Remaining(g, order, i), order[i])
  {
    RecordedAt(g, order, |order|, i);
    SortedSpec(Adj(Remaining(g, order, i), order[i]));
  }

  /** What is still there after `i` eliminations is exactly what the order lists from `i` on. */
  lemma LeftOver(g: Graph, order: seq<Name>, i: nat, w: Name)
    requires Permutation(g, order) && i <= |order|
    ensures w in Remaining(g, order, i) <==> exists j :: i <= j < |order| && order[j] == w
  {
    PermutationIsDistinct(g, order);
    RemainingSpec(g, order, i);
    assert forall h :: 0 <= h < i ==> order[h] == order[..i][h];
    assert w in g <==> w in ToSet(order);
  }

  /** The neighbors recorded at step `i`, in terms of the original graph alone. */
  lemma NeighborSpec(g: Graph, order: seq<Name>, i: nat, w: Name)
    requires Undirected(g) && Permutation(g, order) && i < |order|
    ensures w in Steps(g, order)[i].neighbors <==>
      w != order[i] && w in Remaining(g, order, i) && Linked(g, ToSet(order[..i]), order[i], w)
  {
    PermutationIsDistinct(g, order);
    StepFacts(g, order, i);
    assert w in Steps(g, order)[i].neighbors <==> w in ToSet(Steps(g, order)[i].neighbors);
    RemainingSpec(g, order, i);
    NextRemains(g, order, i);
    if w != order[i] && w in Remaining(g, order, i) {
      FillPath(g, order, i, order[i], w);
    }
  }

  /** The first step from `j` on that eliminates a vertex of `targets`; the number of steps if there is none. */
  function NextAmong(steps: seq<Step>, targets: set<Name>, j: nat): (k: nat)
    requires j <= |steps|
    ensures j <= k <= |steps|
    ensures k < |steps| ==> steps[k].node in targets
    ensures forall i :: j <= i < k ==> steps[i].node !in targets
    decreases |steps| - j
  {
    if j == |steps| || steps[j].node in targets then j else NextAmong(steps, targets, j + 1)
  }

  /** The parent of a bag: the bag of whichever recorded neighbor is eliminated next. */
  function Parent(steps: seq<Step>, i: nat): (k: nat)
    requires i < |steps|
    ensures i < k <= |steps|
  {
    NextAmong(steps, ToSet(steps[i].neighbors), i + 1)
  }

  /** Going up from bag `i`, every bag contains `v` until the bag of `v` itself is reached. */
  ghost predicate Climbs(steps: seq<Step>, i: nat, v: Name)
    decreases |steps| - i
  {
    && i < |steps| && v in Bag(steps[i])
    && (v == steps[i].node || Climbs(steps, Parent(steps, i), v))
  }

  /** The neighbors of step `i` all lie in the bag of the one that is eliminated next. */
  lemma NeighborsInParent(g: Graph, order: seq<Name>, i: nat, v: Name)
    requires Undirected(g) && Permutation(g, order) && i < |order|
    requires v in Steps(g, order)[i].neighbors
    ensures Parent(Steps(g, order), i) < |order| && v in Bag(Steps(g, order)[Parent(Steps(g, order), i)])
  {
    var steps, k := Steps(g, order), Parent(Steps(g, order), i);
    NeighborSpec(g, order, i, v);
    LeftOver(g, order, i, v);
    var j :| i <= j < |order| && order[j] == v;
    StepFacts(g, order, j);
    assert v in ToSet(steps[i].neighbors);
    assert k <= j;
    StepFacts(g, order, k);
    var u := order[k];
    assert u in steps[i].neighbors;
    NeighborSpec(g, order, i, u);
    if u != v {
      MutualNeighbors(g, order, i, k, v);
    }
  }

  /** Two neighbors of step `i` are joined from then on, so the later one is recorded at the earlier one. */
  lemma MutualNeighbors(g: Graph, order: seq<Name>, i: nat, k: nat, v: Name)
    requires Undirected(g) && Permutation(g, order) && i < k < |order| && v != order[k]
    requires order[k] in Steps(g, order)[i].neighbors && v in Steps(g, order)[i].neighbors
    requires exists j :: k <= j < |order| && order[j] == v
    ensures v in Steps(g, order)[k].neighbors
  {
    var u, x, gone := order[k], order[i], ToSet(order[..i]);
    NeighborSpec(g, order, i, u);
    NeighborSpec(g, order, i, v);
    LinkedReverses(g, gone, x, u);
    LinkedJoins(g, gone, u, x, v);
    assert order[..k][i] == x;
    assert gone + {x} <= ToSet(order[..k]) by {
      forall y | y in order[..i] ensures y in order[..k] {
        var h :| 0 <= h < i && order[..i][h] == y;
        assert order[..k][h] == y;
      }
    }
    LinkedGrows(g, gone + {x}, ToSet(order[..k]), u, v);
    LeftOver(g, order, k, v);
    NeighborSpec(g, order, k, v);
  }

  lemma LinkedReverses(g: Graph, inner: set<Name>, u: Name, w: Name)
    requires Undirected(g) && Linked(g, inner, u, w)
    ensures Linked(g, inner, w, u)
  {
    var p :| PathThrough(g, inner, u, w, p);
    RouteReverses(g, u, w, p);
    assert PathThrough(g, inner, w, u, Backwards(p));
  }

  lemma {:induction false} BagsClimb(g: Graph, order: seq<Name>, i: nat, v: Name)
    requires Undirected(g) && Permutation(g, order) && i < |order|
    requires v in Bag(Steps(g, order)[i])
    ensures Climbs(Steps(g, order), i, v)
    decreases |order| - i
  {
    var steps := Steps(g, order);
    if v != steps[i].node {
      NeighborsInParent(g, order, i, v);
      BagsClimb(g, order, Parent(steps, i), v);
    }
  }

  /** Every edge lies in the bag of whichever end is eliminated first. */
  lemma EdgeInBag(g: Graph, order: seq<Name>, u: Name, v: Name) returns (i: nat)
    requires Undirected(g) && Permutation(g, order) && Edge(g, u, v)
    ensures i < |order| && u in Bag(Steps(g, order)[i]) && v in Bag(Steps(g, order)[i])
  {
    assert u in ToSet(order) && v in ToSet(order);
    var a :| 0 <= a < |order| && order[a] == u;
    var b :| 0 <= b < |order| && order[b] == v;
    if a < b {
      i := a;
      LinkedEdge(g, ToSet(order[..a]), u, v);
      LeftOver(g, order, a, v);
      NeighborSpec(g, order, a, v);
    } else {
      i := b;
      LinkedEdge(g, ToSet(order[..b]), v, u);
      LeftOver(g, order, b, u);
      NeighborSpec(g, order, b, u);
    }
    StepFacts(g, order, i);
  }

  ghost predicate CoversVertices(g: Graph, steps: seq<Step>) {
    forall u :: u in g ==> exists i :: 0 <= i < |steps| && u in Bag(steps[i])
  }

  ghost predicate CoversEdges(g: Graph, steps: seq<Step>) {
    forall u, v :: Edge(g, u, v) ==> exists i :: 0 <= i < |steps| && u in Bag(steps[i]) && v in Bag(steps[i])
  }

  /** All bags that contain a vertex are connected through the one bag at which that vertex is eliminated. */
  ghost predicate Connected(steps: seq<Step>) {
    && (forall i, v :: 0 <= i < |steps| && v in Bag(steps[i]) ==> Climbs(steps, i, v))
    && (forall i, j :: 0 <= i < j < |steps| ==> steps[i].node != steps[j].node)
  }

  lemma EdgesCovered(g: Graph, order: seq<Name>)
    requires Undirected(g) && Permutation(g, order)
    ensures CoversEdges(g, Steps(g, order))
  {
    var steps := Steps(g, order);
    forall u, v | Edge(g, u, v)
      ensures exists i :: 0 <= i < |steps| && u in Bag(steps[i]) && v in Bag(steps[i])
    {
      var i := EdgeInBag(g, order, u, v);
    }
  }

  lemma BagsConnected(g: Graph, order: seq<Name>)
    requires Undirected(g) && Permutation(g, order)
    ensures Connected(Steps(g, order))
  {
    var steps := Steps(g, order);
    forall i, v | 0 <= i < |steps| && v in Bag(steps[i]) ensures Climbs(steps, i, v) {
      BagsClimb(g, order, i, v);
    }
    PermutationIsDistinct(g, order);
    forall i, j | 0 <= i < j < |steps| ensures steps[i].node != steps[j].node {
      StepFacts(g, order, i);
      StepFacts(g, order, j);
    }
  }

  /**
   * The bags, each hung below the bag of the recorded neighbor eliminated next, form a tree
   * decomposition of the graph for every permutation of its vertices.
   */
  lemma TreeDecomposition(g: Graph, order: seq<Name>)
    requires Undirected(g) && Permutation(g, order)
    ensures CoversVertices(g, Steps(g, order))
    ensures CoversEdges(g, Steps(g, order))
    ensures Connected(Steps(g, order))
  {
    var steps := Steps(g, order);
    forall u | u in g ensures exists i :: 0 <= i < |steps| && u in Bag(steps[i]) {
      assert u in ToSet(order);
      var i :| 0 <= i < |order| && order[i] == u;
      StepFacts(g, order, i);
      assert u in Bag(steps[i]);
    }
    EdgesCovered(g, order);
    BagsConnected(g, order);
  }

  /** The recorded width is the width of that decomposition: the largest bag size less one. */
  lemma DecompositionWidth(g: Graph, order: seq<Name>)
    requires Undirected(g) && Permutation(g, order) && order != []
    ensures forall i :: 0 <= i < |order| ==> |Bag(Steps(g, order)[i])| <= CertificateOf(g, order).width + 1
    ensures exists i :: 0 <= i < |order| && |Bag(Steps(g, order)[i])| == CertificateOf(g, order).width + 1
  {
    var steps := Steps(g, order);
    forall i | 0 <= i < |order| ensures |Bag(steps[i])| == |steps[i].neighbors| + 1 {
      BagSize(g, order, i);
    }
    var i :| 0 <= i < |steps| && |steps[i].neighbors| == Width(steps);
    assert |Bag(steps[i])| == CertificateOf(g, order).width + 1;
  }

  lemma BagSize(g: Graph, order: seq<Name>, i: nat)
    requires Undirected(g) && Permutation(g, order) && i < |order|
    ensures |Bag(Steps(g, order)[i])| == |Steps(g, order)[i].neighbors| + 1
  {
    StepFacts(g, order, i);
    RecordedAt(g, order, |order|, i);
    SortedSpec(Adj(Remaining(g, order, i), order[i]));
    RemainingSpec(g, order, i);
    var around := Adj(Remaining(g, order, i), order[i]);
    assert order[i] !in around;
  }
}
