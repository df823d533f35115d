/** Vertex elimination and its replayable treewidth certificate (residual/cic.py). */
module Elimination {
  import opened Basics

  type Graph = map<Name, set<Name>>

  predicate Undirected(g: Graph) {
    forall u :: u in g ==> u !in g[u] && g[u] <= g.Keys && forall v :: v in g[u] ==> u in g[v]
  }

  const MAX_VERTICES := 32

  /** What the copying constructor accepts; anything else raises. */
  predicate Supported(g: Graph) {
    |g| <= MAX_VERTICES && Undirected(g)
  }

  datatype Step = Step(node: Name, neighbors: seq<Name>, fill: seq<(Name, Name)>)

  datatype Certificate = Certificate(ordering: seq<Name>, width: nat, steps: seq<Step>)

  // ---------------------------------------------------------------- one elimination

  function Adj(g: Graph, v: Name): set<Name> {
    if v in g then g[v] else {}
  }

  /** The graph left when `v` is removed and its neighbors are joined to each other. */
  function Eliminated(g: Graph, v: Name): Graph {
    map u | u in g && u != v :: if u in Adj(g, v) then g[u] + Adj(g, v) - {u, v} else g[u]
  }

  lemma EliminatedUndirected(g: Graph, v: Name)
    requires Undirected(g)
    ensures Undirected(Eliminated(g, v))
  {
  }

  /** All two-element selections, in order. */
  function Combinations(s: seq<Name>): seq<(Name, Name)> {
    if s == [] then [] else
      seq(|s| - 1, i requires 0 <= i < |s| - 1 => (s[0], s[i + 1])) + Combinations(s[1..])
  }

  lemma {:induction false} CombinationsSpec(s: seq<Name>, e: (Name, Name))
    requires Increasing(s)
    ensures e in Combinations(s) <==> e.0 in s && e.1 in s && e.0 < e.1
  {
    if s != [] {
      var first := seq(|s| - 1, i requires 0 <= i < |s| - 1 => (s[0], s[i + 1]));
      CombinationsSpec(s[1..], e);
      if e.0 == s[0] && e.1 in s[1..] {
        var i :| 0 <= i < |s[1..]| && s[1..][i] == e.1;
        assert first[i] == e;
      }
    }
  }

  predicate Edge(g: Graph, a: Name, b: Name) {
    b in Adj(g, a)
  }

  /** The pairs that are not edges yet, in order. */
  function Missing(g: Graph, pairs: seq<(Name, Name)>): seq<(Name, Name)> {
    if pairs == [] then [] else
      (if Edge(g, pairs[0].0, pairs[0].1) then [] else [pairs[0]]) + Missing(g, pairs[1..])
  }

  lemma {:induction false} MissingSpec(g: Graph, pairs: seq<(Name, Name)>, e: (Name, Name))
    ensures e in Missing(g, pairs) <==> e in pairs && !Edge(g, e.0, e.1)
  {
    if pairs != [] {
      MissingSpec(g, pairs[1..], e);
    }
  }

  /** The new edges among the neighbors of `v`. */
  function Fill(g: Graph, v: Name): seq<(Name, Name)> {
    Missing(g, Combinations(Sorted(Adj(g, v))))
  }

  lemma FillSpec(g: Graph, v: Name, e: (Name, Name))
    ensures e in Fill(g, v) <==> e.0 in Adj(g, v) && e.1 in Adj(g, v) && e.0 < e.1 && !Edge(g, e.0, e.1)
  {
    SortedSpec(Adj(g, v));
    CombinationsSpec(Sorted(Adj(g, v)), e);
    MissingSpec(g, Combinations(Sorted(Adj(g, v))), e);
  }

  function StepOf(g: Graph, v: Name): Step {
    Step(v, Sorted(Adj(g, v)), Fill(g, v))
  }

  /** Adds each end of an edge to the other's neighbors, one after the other. */
  function Join(g: Graph, e: (Name, Name)): (h: Graph)
    requires e.0 in g && e.1 in g
    ensures h.Keys == g.Keys
  {
    var half := g[e.0 := g[e.0] + {e.1}];
    half[e.1 := half[e.1] + {e.0}]
  }

  function JoinAll(g: Graph, fill: seq<(Name, Name)>): (h: Graph)
    requires forall e :: e in fill ==> e.0 in g && e.1 in g
    ensures h.Keys == g.Keys
  {
    if fill == [] then g else Join(JoinAll(g, fill[..|fill| - 1]), fill[|fill| - 1])
  }

  lemma {:induction false} JoinAllAt(g: Graph, fill: seq<(Name, Name)>, u: Name, w: Name)
    requires u in g && forall e :: e in fill ==> e.0 in g && e.1 in g
    ensures w in JoinAll(g, fill)[u] <==> w in g[u] || (u, w) in fill || (w, u) in fill
  {
    if fill != [] {
      var front, e := fill[..|fill| - 1], fill[|fill| - 1];
      JoinAllAt(g, front, u, w);
      assert forall x :: x in fill <==> x in front || x == e;
    }
  }

  function Detached(g: Graph, node: Name, neighbors: set<Name>): Graph {
    map u | u in g :: if u in neighbors then g[u] - {node} else g[u]
  }

  /** Joining the neighbors, detaching the vertex and deleting it is elimination. */
  lemma EditsEliminate(g: Graph, v: Name)
    requires Undirected(g) && v in g
    requires forall e :: e in Fill(g, v) ==> e.0 in g && e.1 in g
    ensures Detached(JoinAll(g, Fill(g, v)), v, g[v]) - {v} == Eliminated(g, v)
  {
    forall u | u in g && u != v
      ensures Detached(JoinAll(g, Fill(g, v)), v, g[v])[u] == Eliminated(g, v)[u]
    {
      EditsEliminateRow(g, v, u);
    }
  }

  lemma EditsEliminateRow(g: Graph, v: Name, u: Name)
    requires Undirected(g) && v in g && u in g && u != v
    requires forall e :: e in Fill(g, v) ==> e.0 in g && e.1 in g
    ensures Detached(JoinAll(g, Fill(g, v)), v, g[v])[u] == Eliminated(g, v)[u]
  {
    forall w ensures w in Detached(JoinAll(g, Fill(g, v)), v, g[v])[u] <==> w in Eliminated(g, v)[u] {
      EditsEliminateAt(g, v, u, w);
    }
  }

  lemma EditsEliminateAt(g: Graph, v: Name, u: Name, w: Name)
    requires Undirected(g) && v in g && u in g && u != v
    requires forall e :: e in Fill(g, v) ==> e.0 in g && e.1 in g
    ensures w in Detached(JoinAll(g, Fill(g, v)), v, g[v])[u] <==> w in Eliminated(g, v)[u]
  {
    JoinAllAt(g, Fill(g, v), u, w);
    FillSpec(g, v, (u, w));
    FillSpec(g, v, (w, u));
  }

  lemma FillInside(g: Graph, v: Name)
    requires Undirected(g) && v in g
    ensures forall e :: e in Fill(g, v) ==> e.0 in g && e.1 in g
  {
    forall e | e in Fill(g, v) ensures e.0 in g && e.1 in g {
      FillSpec(g, v, e);
    }
  }

  /** A graph under elimination, updated in place. */
  class Working {
    var adj: Graph

    constructor (g: Graph)
      ensures adj == g
    {
      adj := g;
    }

    method AddEdges(fill: seq<(Name, Name)>)
      requires forall e :: e in fill ==> e.0 in adj && e.1 in adj
      modifies this
      ensures adj == JoinAll(old(adj), fill)
    {
      ghost var g := adj;
      for k := 0 to |fill|
        invariant adj == JoinAll(g, fill[..k])
      {
        assert fill[..k + 1][..k] == fill[..k];
        adj := Join(adj, fill[k]);
      }
      assert fill[..|fill|] == fill;
    }

    method Detach(node: Name, neighbors: seq<Name>)
      requires forall n :: n in neighbors ==> n in adj
      modifies this
      ensures adj == Detached(old(adj), node, ToSet(neighbors))
    {
      ghost var g := adj;
      for k := 0 to |neighbors|
        invariant adj.Keys == g.Keys
        invariant forall u :: u in g ==> adj[u] == if u in ToSet(neighbors[..k]) then g[u] - {node} else g[u]
      {
        TakeSnoc(neighbors, k);
        adj := adj[neighbors[k] := adj[neighbors[k]] - {node}];
      }
      assert neighbors[..|neighbors|] == neighbors;
    }

    /** Removes `node`, joining its neighbors, and reports the step. */
    method Eliminate(node: Name) returns (step: Step)
      requires Undirected(adj) && node in adj
      modifies this
      ensures adj == Eliminated(old(adj), node)
      ensures step == StepOf(old(adj), node)
    {
      ghost var g := adj;
      var neighbors := Sorted(adj[node]);
      var fill := Fill(adj, node);
      FillInside(adj, node);
      SortedSpec(adj[node]);
      AddEdges(fill);
      Detach(node, neighbors);
      EditsEliminate(g, node);
      adj := adj - {node};
      step := Step(node, neighbors, fill);
    }
  }

  // ---------------------------------------------------------------- a whole elimination

  predicate Permutation(g: Graph, order: seq<Name>) {
    |order| == |g| && ToSet(order) == g.Keys
  }

  lemma PermutationIsDistinct(g: Graph, order: seq<Name>)
    requires Permutation(g, order)
    ensures Distinct(order)
  {
    FullSizeIsDistinct(order);
  }

  /** The graph left after the first `k` vertices of the order. */
  function Remaining(g: Graph, order: seq<Name>, k: nat): Graph
    requires k <= |order|
  {
    if k == 0 then g else Eliminated(Remaining(g, order, k - 1), order[k - 1])
  }

  lemma {:induction false} RemainingSpec(g: Graph, order: seq<Name>, k: nat)
    requires k <= |order|
    ensures Remaining(g, order, k).Keys == g.Keys - ToSet(order[..k])
    ensures Undirected(g) ==> Undirected(Remaining(g, order, k))
  {
    if k > 0 {
      RemainingSpec(g, order, k - 1);
      TakeSnoc(order, k - 1);
      if Undirected(g) {
        EliminatedUndirected(Remaining(g, order, k - 1), order[k - 1]);
      }
    }
  }

  lemma NextRemains(g: Graph, order: seq<Name>, k: nat)
    requires Distinct(order) && ToSet(order) <= g.Keys && k < |order|
    ensures order[k] in Remaining(g, order, k)
  {
    RemainingSpec(g, order, k);
    assert order[k] in ToSet(order) && order[k] !in ToSet(order[..k]);
  }

  /** What is recorded while the first `k` vertices of the order are eliminated one after the other. */
  function Recorded(g: Graph, order: seq<Name>, k: nat): (steps: seq<Step>)
    requires k <= |order|
    ensures |steps| == k
  {
    if k == 0 then [] else
      Recorded(g, order, k - 1) + [StepOf(Remaining(g, order, k - 1), order[k - 1])]
  }

  function Steps(g: Graph, order: seq<Name>): (steps: seq<Step>)
    ensures |steps| == |order|
  {
    Recorded(g, order, |order|)
  }

  lemma {:induction false} RecordedAt(g: Graph, order: seq<Name>, k: nat, i: nat)
    requires i < k <= |order|
    ensures Recorded(g, order, k)[i] == StepOf(Remaining(g, order, i), order[i])
  {
    if i < k - 1 {
      RecordedAt(g, order, k - 1, i);
    }
  }

  /** The largest number of neighbors in a step, zero when there is none. */
  function Width(steps: seq<Step>): (w: nat)
    ensures forall k :: 0 <= k < |steps| ==> |steps[k].neighbors| <= w
    ensures steps != [] ==> exists k :: 0 <= k < |steps| && |steps[k].neighbors| == w
    ensures steps == [] ==> w == 0
  {
    if steps == [] then 0 else
      var last := |steps[|steps| - 1].neighbors|;
      var front := steps[..|steps| - 1];
      var w := Width(front);
      assert forall k :: 0 <= k < |front| ==> steps[k] == front[k];
      if w < last || front == [] then last else
        var k :| 0 <= k < |front| && |front[k].neighbors| == w;
        assert |steps[k].neighbors| == w;
        w
  }

  /** `elimination_certificate`: the steps of an exact permutation, and an error for anything else. */
  method EliminationCertificate(g: Graph, order: seq<Name>) returns (r: Result<Certificate>)
    ensures r == if Supported(g) && Permutation(g, order) then Ok(CertificateOf(g, order)) else Err
  {
    if !Supported(g) || !Permutation(g, order) {
      return Err;
    }
    PermutationIsDistinct(g, order);
    var steps := Replay(g, order);
    r := Ok(Certificate(order, Width(steps), steps));
  }

  method Replay(g: Graph, order: seq<Name>) returns (steps: seq<Step>)
    requires Undirected(g) && Distinct(order) && ToSet(order) <= g.Keys
    ensures steps == Steps(g, order)
  {
    var work := new Working(g);
    steps := [];
    for k := 0 to |order|
      invariant work.adj == Remaining(g, order, k)
      invariant steps == Recorded(g, order, k)
    {
      RemainingSpec(g, order, k);
      NextRemains(g, order, k);
      var step := work.Eliminate(order[k]);
      steps := steps + [step];
    }
  }

  function CertificateOf(g: Graph, order: seq<Name>): Certificate {
    var steps := Steps(g, order);
    Certificate(order, Width(steps), steps)
  }
}
