/** Greedy minimum-fill elimination, and certificate checking by replay. */
module Certificates {
  import opened Basics
  import opened Elimination
  import opened Treewidth

  // ---------------------------------------------------------------- verify_certificate

  /** A certificate is accepted when replaying its ordering gives it back. */
  function VerifyCertificate(g: Graph, c: Certificate): bool {
    Supported(g) && Permutation(g, c.ordering) && c == CertificateOf(g, c.ordering)
  }

  predicate Before(a: Name, b: Name) {
    a < b
  }

  predicate LexBefore(a: (Name, Name), b: (Name, Name)) {
    a.0 < b.0 || (a.0 == b.0 && a.1 < b.1)
  }

  lemma {:induction false} CombinationsAscend(s: seq<Name>)
    requires Increasing(s)
    ensures Ascending(LexBefore, Combinations(s))
  {
    if s != [] {
      var rest := Combinations(s[1..]);
      CombinationsAscend(s[1..]);
      forall e | e in rest ensures s[0] < e.0 {
        CombinationsSpec(s[1..], e);
      }
    }
  }

  lemma {:induction false} MissingAscends(g: Graph, pairs: seq<(Name, Name)>)
    requires Ascending(LexBefore, pairs)
    ensures Ascending(LexBefore, Missing(g, pairs))
  {
    if pairs != [] {
      MissingAscends(g, pairs[1..]);
      forall e | e in Missing(g, pairs[1..]) ensures LexBefore(pairs[0], e) {
        MissingSpec(g, pairs[1..], e);
      }
    }
  }

  /**
   * What step `i` of a certificate says, without replaying anything: the later vertices that the
   * original graph joins to `order[i]` through earlier ones, and the pairs of those not yet so joined.
   */
  ghost predicate StepMeans(g: Graph, order: seq<Name>, i: nat, step: Step)
    requires i < |order|
  {
    && step.node == order[i]
    && Ascending(Before, step.neighbors)
    && Ascending(LexBefore, step.fill)
    && (forall w :: w in step.neighbors <==> w in order[i + 1..] && Linked(g, ToSet(order[..i]), order[i], w))
    && (forall e :: e in step.fill <==>
        e.0 in step.neighbors && e.1 in step.neighbors && e.0 < e.1 && !Linked(g, ToSet(order[..i]), e.0, e.1))
  }

  lemma LaterVertices(g: Graph, order: seq<Name>, i: nat, w: Name)
    requires Permutation(g, order) && i < |order|
    ensures w in order[i + 1..] <==> w != order[i] && w in Remaining(g, order, i)
  {
    PermutationIsDistinct(g, order);
    LeftOver(g, order, i, w);
    if w in order[i + 1..] {
      var h :| 0 <= h < |order[i + 1..]| && order[i + 1..][h] == w;
      assert order[i + 1 + h] == w;
    }
    if j :| i <= j < |order| && order[j] == w && j != i {
      assert order[i + 1..][j - i - 1] == w;
    }
  }

  lemma StepHasMeaning(g: Graph, order: seq<Name>, i: nat)
    requires Undirected(g) && Permutation(g, order) && i < |order|
    ensures StepMeans(g, order, i, Steps(g, order)[i])
  {
    var h, step := Remaining(g, order, i), Steps(g, order)[i];
    PermutationIsDistinct(g, order);
    StepFacts(g, order, i);
    RecordedAt(g, order, |order|, i);
    SortedSpec(Adj(h, order[i]));
    CombinationsAscend(step.neighbors);
    MissingAscends(h, Combinations(step.neighbors));
    forall w ensures w in step.neighbors <==> w in order[i + 1..] && Linked(g, ToSet(order[..i]), order[i], w) {
      NeighborSpec(g, order, i, w);
      LaterVertices(g, order, i, w);
    }
    forall e ensures e in step.fill <==>
      e.0 in step.neighbors && e.1 in step.neighbors && e.0 < e.1 && !Linked(g, ToSet(order[..i]), e.0, e.1)
    {
      FillSpec(h, order[i], e);
      if e.0 in step.neighbors && e.1 in step.neighbors && e.0 < e.1 {
        NeighborSpec(g, order, i, e.0);
        NeighborSpec(g, order, i, e.1);
        FillPath(g, order, i, e.0, e.1);
      }
    }
  }

  lemma MeaningDeterminesStep(g: Graph, order: seq<Name>, i: nat, a: Step, b: Step)
    requires i < |order| && StepMeans(g, order, i, a) && StepMeans(g, order, i, b)
    ensures a == b
  {
    AscendingUnique(Before, a.neighbors, b.neighbors);
    AscendingUnique(LexBefore, a.fill, b.fill);
  }

  /** Acceptance by replay is a statement about paths of the original graph alone. */
  lemma VerifyMeaning(g: Graph, c: Certificate)
    ensures VerifyCertificate(g, c) <==>
      && Supported(g) && Permutation(g, c.ordering)
      && |c.steps| == |c.ordering|
      && (forall i :: 0 <= i < |c.steps| ==> StepMeans(g, c.ordering, i, c.steps[i]))
      && c.width == Width(c.steps)
  {
    if Supported(g) && Permutation(g, c.ordering) {
      var steps := Steps(g, c.ordering);
      forall i | 0 <= i < |steps| ensures StepMeans(g, c.ordering, i, steps[i]) {
        StepHasMeaning(g, c.ordering, i);
      }
      if |c.steps| == |steps| && forall i :: 0 <= i < |steps| ==> StepMeans(g, c.ordering, i, c.steps[i]) {
        forall i | 0 <= i < |steps| ensures c.steps[i] == steps[i] {
          MeaningDeterminesStep(g, c.ordering, i, c.steps[i], steps[i]);
        }
        assert c.steps == steps;
      }
    }
  }

  // ---------------------------------------------------------------- min_fill

  /** The score tuple: new edges, then degree, then name. */
  predicate NoWorse(g: Graph, u: Name, v: Name) {
    var a, b := |Fill(g, u)|, |Fill(g, v)|;
    a < b || (a == b && (|Adj(g, u)| < |Adj(g, v)| || (|Adj(g, u)| == |Adj(g, v)| && u <= v)))
  }

  predicate IsBest(g: Graph, among: set<Name>, u: Name) {
    u in among && forall v :: v in among ==> NoWorse(g, u, v)
  }

  lemma {:induction false} BestExists(g: Graph, among: set<Name>)
    requires among != {}
    ensures exists u :: IsBest(g, among, u)
  {
    var x :| x in among;
    var rest := among - {x};
    assert among == rest + {x};
    if rest == {} {
      assert IsBest(g, among, x);
    } else {
      BestExists(g, rest);
      var u :| IsBest(g, rest, u);
      assert IsBest(g, among, if NoWorse(g, x, u) then x else u);
    }
  }

  ghost predicate BestAt(g: Graph, order: seq<Name>, i: nat)
    requires i < |order|
  {
    IsBest(Remaining(g, order, i), Remaining(g, order, i).Keys, order[i])
  }

  /** Each vertex of the order is a best one of those left when it is taken. */
  ghost predicate Greedy(g: Graph, order: seq<Name>) {
    forall i :: 0 <= i < |order| ==> BestAt(g, order, i)
  }

  lemma {:induction false} RemainingPrefix(g: Graph, order: seq<Name>, more: seq<Name>, k: nat)
    requires k <= |order| && order <= more
    ensures Remaining(g, order, k) == Remaining(g, more, k)
  {
    if k > 0 {
      RemainingPrefix(g, order, more, k - 1);
    }
  }

  lemma GreedySnoc(g: Graph, order: seq<Name>, u: Name)
    requires Greedy(g, order)
    requires IsBest(Remaining(g, order, |order|), Remaining(g, order, |order|).Keys, u)
    ensures Greedy(g, order + [u])
  {
    var more := order + [u];
    forall i | 0 <= i < |more| ensures BestAt(g, more, i) {
      RemainingPrefix(g, order, more, i);
      if i < |order| {
        assert BestAt(g, order, i);
      }
    }
  }

  lemma OrderGrows(g: Graph, order: seq<Name>, u: Name)
    requires Undirected(g) && Distinct(order) && ToSet(order) <= g.Keys && u in Remaining(g, order, |order|)
    ensures Distinct(order + [u]) && ToSet(order + [u]) <= g.Keys && |order| < |g|
    ensures Remaining(g, order + [u], |order| + 1) == Eliminated(Remaining(g, order, |order|), u)
  {
    RemainingSpec(g, order, |order|);
    assert order[..|order|] == order;
    ToSetSnoc(order, u);
    DistinctSize(order + [u]);
    SubsetSize(ToSet(order + [u]), g.Keys);
    RemainingPrefix(g, order, order + [u], |order|);
  }

  lemma NothingLeft(g: Graph, order: seq<Name>)
    requires Distinct(order) && ToSet(order) <= g.Keys && Remaining(g, order, |order|) == map[]
    ensures Permutation(g, order)
  {
    RemainingSpec(g, order, |order|);
    assert order[..|order|] == order;
    assert ToSet(order) == g.Keys;
    DistinctSize(order);
  }

  /** Greedy elimination always ends with a certificate that checking accepts. */
  method MinFill(g: Graph) returns (r: Result<Certificate>)
    ensures r.Ok? <==> Supported(g)
    ensures r.Ok? ==> VerifyCertificate(g, r.value) && Greedy(g, r.value.ordering)
  {
    if !Supported(g) {
      return Err;
    }
    var order := GreedyOrder(g);
    r := EliminationCertificate(g, order);
  }

  method GreedyOrder(g: Graph) returns (order: seq<Name>)
    requires Undirected(g)
    ensures Permutation(g, order) && Greedy(g, order)
  {
    var work := new Working(g);
    order := [];
    while work.adj != map[]
      invariant work.adj == Remaining(g, order, |order|)
      invariant Distinct(order) && ToSet(order) <= g.Keys && Greedy(g, order)
      decreases |g| - |order|
    {
      BestExists(work.adj, work.adj.Keys);
      var node :| IsBest(work.adj, work.adj.Keys, node);
      GreedySnoc(g, order, node);
      OrderGrows(g, order, node);
      RemainingSpec(g, order, |order|);
      var step := work.Eliminate(node);
      order := order + [node];
    }
    NothingLeft(g, order);
  }
}
