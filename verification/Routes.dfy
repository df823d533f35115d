/** Routes along the edges of a graph. */
module Routes {
  import opened Basics
  import opened Elimination

  /** A route of `g` from `u` to `v`; a single vertex is a route. */
  ghost predicate Route(g: Graph, u: Name, v: Name, p: seq<Name>) {
    && |p| >= 1 && p[0] == u && p[|p| - 1] == v
    && forall i :: 0 <= i < |p| - 1 ==> Edge(g, p[i], p[i + 1])
  }

  function Backwards(p: seq<Name>): seq<Name> {
    seq(|p|, i requires 0 <= i < |p| => p[|p| - 1 - i])
  }

  lemma RouteReverses(g: Graph, u: Name, v: Name, p: seq<Name>)
    requires Undirected(g) && Route(g, u, v, p)
    ensures Route(g, v, u, Backwards(p))
  {
    var q := Backwards(p);
    forall i | 0 <= i < |q| - 1 ensures Edge(g, q[i], q[i + 1]) {
      assert Edge(g, p[|p| - 2 - i], p[|p| - 2 - i + 1]);
    }
  }

  lemma RouteJoins(g: Graph, u: Name, v: Name, w: Name, p: seq<Name>, q: seq<Name>)
    requires Route(g, u, v, p) && Route(g, v, w, q)
    ensures Route(g, u, w, p + q[1..])
  {
    var r := p + q[1..];
    forall i | 0 <= i < |r| - 1 ensures Edge(g, r[i], r[i + 1]) {
      if i < |p| - 1 {
        assert r[i] == p[i] && r[i + 1] == p[i + 1];
      } else {
        assert r[i] == q[i - (|p| - 1)] && r[i + 1] == q[i - (|p| - 1) + 1];
      }
    }
  }
}
