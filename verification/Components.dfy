/** Connected components by worklist (residual/cic.py). */
module Components {
  import opened Basics
  import opened Elimination
  import opened Routes

  ghost predicate Reaches(g: Graph, u: Name, v: Name) {
    exists p :: Route(g, u, v, p)
  }

  ghost predicate ClosedUnder(g: Graph, s: set<Name>) {
    forall n :: n in s ==> Adj(g, n) <= s
  }

  lemma ReachesSelf(g: Graph, u: Name)
    ensures Reaches(g, u, u)
  {
    assert Route(g, u, u, [u]);
  }

  lemma ReachesStep(g: Graph, u: Name, v: Name, w: Name)
    requires Reaches(g, u, v) && Edge(g, v, w)
    ensures Reaches(g, u, w)
  {
    var p :| Route(g, u, v, p);
    assert Route(g, u, w, p + [w]);
  }

  lemma {:induction false} RouteStaysInside(g: Graph, s: set<Name>, u: Name, v: Name, p: seq<Name>)
    requires ClosedUnder(g, s) && u in s && Route(g, u, v, p)
    ensures v in s
    decreases |p|
  {
    if |p| > 1 {
      var front := p[..|p| - 1];
      assert Route(g, u, front[|front| - 1], front);
      RouteStaysInside(g, s, u, front[|front| - 1], front);
      assert Edge(g, p[|p| - 2], p[|p| - 2 + 1]);
    }
  }

  lemma ReachesBack(g: Graph, u: Name, v: Name)
    requires Undirected(g) && Reaches(g, u, v)
    ensures Reaches(g, v, u)
  {
    var p :| Route(g, u, v, p);
    RouteReverses(g, u, v, p);
  }

  lemma ReachesOn(g: Graph, u: Name, v: Name, w: Name)
    requires Reaches(g, u, v) && Reaches(g, v, w)
    ensures Reaches(g, u, w)
  {
    var p :| Route(g, u, v, p);
    var q :| Route(g, v, w, q);
    RouteJoins(g, u, v, w, p, q);
  }

  /** What the inner worklist knows: `found` is done with, `open` is still to be looked at. */
  ghost predicate Exploring(g: Graph, start: Name, found: set<Name>, open: set<Name>) {
    && found + open <= g.Keys && start in found + open
    && (forall v :: v in found + open ==> Reaches(g, start, v))
    && (forall n :: n in found ==> Adj(g, n) <= found + open)
  }

  lemma ExploringStep(g: Graph, start: Name, found: set<Name>, open: set<Name>, node: Name)
    requires Undirected(g) && Exploring(g, start, found, open + {node}) && node !in found
    ensures Exploring(g, start, found + {node}, open + (g[node] - (found + {node})))
    ensures |g.Keys - (found + {node})| < |g.Keys - found|
  {
    var more := g[node] - (found + {node});
    forall v | v in more ensures Reaches(g, start, v) {
      assert node in found + (open + {node});
      ReachesStep(g, start, node, v);
    }
    assert g.Keys - found == (g.Keys - (found + {node})) + {node};
  }

  lemma ExploringPop(g: Graph, start: Name, found: set<Name>, popped: seq<Name>, node: Name)
    requires Undirected(g) && Exploring(g, start, found, ToSet(popped + [node]))
    ensures node in g
    ensures node in found ==> Exploring(g, start, found, ToSet(popped))
    ensures node !in found ==>
      && Exploring(g, start, found + {node}, ToSet(popped + Sorted(g[node] - (found + {node}))))
      && |g.Keys - (found + {node})| < |g.Keys - found|
  {
    ToSetSnoc(popped, node);
    assert node in found + (ToSet(popped) + {node});
    if node in found {
      assert found + ToSet(popped) == found + (ToSet(popped) + {node});
    } else {
      ExploringStep(g, start, found, ToSet(popped), node);
      PushAll(popped, g[node] - (found + {node}));
    }
  }

  lemma PushAll(popped: seq<Name>, more: set<Name>)
    ensures ToSet(popped + Sorted(more)) == ToSet(popped) + more
  {
    SortedSpec(more);
  }

  lemma ExploringDone(g: Graph, start: Name, found: set<Name>)
    requires Exploring(g, start, found, ToSet([]))
    ensures found <= g.Keys
    ensures forall v :: v in found <==> Reaches(g, start, v)
  {
    assert found + ToSet([]) == found;
    forall v | Reaches(g, start, v) ensures v in found {
      var p :| Route(g, start, v, p);
      RouteStaysInside(g, found, start, v, p);
    }
  }

  /** The inner worklist: everything reachable from one vertex. */
  method Explore(g: Graph, start: Name) returns (found: set<Name>)
    requires Undirected(g) && start in g
    ensures found <= g.Keys
    ensures forall v :: v in found <==> Reaches(g, start, v)
  {
    var pending := [start];
    found := {};
    ReachesSelf(g, start);
    while pending != []
      invariant Exploring(g, start, found, ToSet(pending))
      decreases |g.Keys - found|, |pending|
    {
      var node := pending[|pending| - 1];
      assert pending == pending[..|pending| - 1] + [node];
      pending := pending[..|pending| - 1];
      ExploringPop(g, start, found, pending, node);
      if node !in found {
        found := found + {node};
        pending := pending + Sorted(g[node] - found);
      }
    }
    ExploringDone(g, start, found);
  }

  /** Sorted lists that are exactly the connected components, each once. */
  ghost predicate IsComponents(g: Graph, groups: seq<seq<Name>>) {
    && (forall i :: 0 <= i < |groups| ==> IsComponent(g, groups[i]))
    && (forall u :: u in g ==> exists i :: 0 <= i < |groups| && u in groups[i])
    && (forall i, j, u :: 0 <= i < j < |groups| && u in groups[i] ==> u !in groups[j])
  }

  ghost predicate IsComponent(g: Graph, group: seq<Name>) {
    && group != [] && Increasing(group) && ToSet(group) <= g.Keys
    && forall u, v :: u in group ==> (v in group <==> Reaches(g, u, v))
  }

  lemma FoundIsComponent(g: Graph, start: Name, found: set<Name>)
    requires Undirected(g) && start in g && found <= g.Keys
    requires forall v :: v in found <==> Reaches(g, start, v)
    ensures IsComponent(g, Sorted(found))
  {
    SortedSpec(found);
    ReachesSelf(g, start);
    forall u, v | u in found ensures v in found <==> Reaches(g, u, v) {
      ReachesBack(g, start, u);
      if v in found {
        ReachesOn(g, u, start, v);
      }
      if Reaches(g, u, v) {
        ReachesOn(g, start, u, v);
      }
    }
  }

  /** What the outer loop has taken out and what it has left. */
  ghost predicate Partial(g: Graph, groups: seq<seq<Name>>, remaining: set<Name>) {
    && remaining <= g.Keys && ClosedUnder(g, remaining)
    && (forall i :: 0 <= i < |groups| ==> IsComponent(g, groups[i]) && ToSet(groups[i]) !! remaining)
    && (forall u :: u in g && u !in remaining ==> exists i :: 0 <= i < |groups| && u in groups[i])
    && (forall i, j, u :: 0 <= i < j < |groups| && u in groups[i] ==> u !in groups[j])
  }

  lemma FoundStaysInside(g: Graph, remaining: set<Name>, start: Name, found: set<Name>)
    requires Undirected(g) && remaining <= g.Keys && ClosedUnder(g, remaining) && start in remaining
    requires forall v :: v in found <==> Reaches(g, start, v)
    ensures found <= remaining && ClosedUnder(g, remaining - found)
  {
    forall v | v in found ensures v in remaining {
      var p :| Route(g, start, v, p);
      RouteStaysInside(g, remaining, start, v, p);
    }
    forall n, v | n in remaining - found && v in Adj(g, n) ensures v in remaining - found {
      if v in found {
        ReachesStep(g, start, v, n);
      }
    }
  }

  lemma PartialGrows(g: Graph, groups: seq<seq<Name>>, remaining: set<Name>, start: Name, found: set<Name>)
    requires Undirected(g) && Partial(g, groups, remaining) && start in remaining && found <= g.Keys
    requires forall v :: v in found <==> Reaches(g, start, v)
    ensures Partial(g, groups + [Sorted(found)], remaining - found)
    ensures start in found && found <= remaining
  {
    var more := groups + [Sorted(found)];
    ReachesSelf(g, start);
    SortedSpec(found);
    FoundIsComponent(g, start, found);
    FoundStaysInside(g, remaining, start, found);
    forall u | u in g && u !in remaining - found ensures exists i :: 0 <= i < |more| && u in more[i] {
      if u in found {
        assert u in more[|groups|];
      } else {
        var i :| 0 <= i < |groups| && u in groups[i];
        assert u in more[i];
      }
    }
    forall i, j, u | 0 <= i < j < |more| && u in more[i] ensures u !in more[j] {
      if j == |groups| {
        assert u in ToSet(groups[i]);
      }
    }
  }

  /** Groups are listed by their least members. */
  ghost predicate ByLeast(groups: seq<seq<Name>>) {
    && (forall i :: 0 <= i < |groups| ==> groups[i] != [])
    && (forall i, j :: 0 <= i < j < |groups| ==> groups[i][0] < groups[j][0])
  }

  /** Everything that remains comes after the least members so far. */
  ghost predicate Beyond(groups: seq<seq<Name>>, remaining: set<Name>) {
    ByLeast(groups) && forall i, v :: 0 <= i < |groups| && v in remaining ==> groups[i][0] < v
  }

  lemma BeyondGrows(groups: seq<seq<Name>>, remaining: set<Name>, start: Name, found: set<Name>)
    requires Beyond(groups, remaining) && start in found && found <= remaining
    requires forall v :: v in remaining ==> start <= v
    ensures Beyond(groups + [Sorted(found)], remaining - found)
  {
    SortedSpec(found);
    var least := Sorted(found)[0];
    assert least in found && start in Sorted(found);
    assert least == start;
  }

  method ConnectedComponents(g: Graph) returns (groups: seq<seq<Name>>)
    requires Undirected(g)
    ensures IsComponents(g, groups) && ByLeast(groups)
  {
    var remaining := g.Keys;
    groups := [];
    while remaining != {}
      invariant Partial(g, groups, remaining) && Beyond(groups, remaining)
      decreases remaining
    {
      var start := Least(remaining);
      var found := Explore(g, start);
      PartialGrows(g, groups, remaining, start, found);
      BeyondGrows(groups, remaining, start, found);
      remaining := remaining - found;
      groups := groups + [Sorted(found)];
    }
  }
}
