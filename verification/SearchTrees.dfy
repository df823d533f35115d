/** What the search visits and finds, in terms of the tree of partial assignments alone (residual/cic.py). */
module SearchTrees {
  import opened Basics
  import opened Constraints
  import opened Search

  // ---------------------------------------------------------------- paths

  /** A node of the tree: for each of the first variables the position of a value in its domain. */
  type Path = seq<nat>

  predicate InTree(m: Model, order: seq<Name>, p: Path) {
    |p| <= |order| && forall i :: 0 <= i < |p| ==> p[i] < |Choices(m, order, i)|
  }

  /** The partial assignment at a node. */
  function Assigned(m: Model, order: seq<Name>, p: Path): Assignment
    requires InTree(m, order, p)
  {
    if p == [] then map[] else
      var i := |p| - 1;
      Assigned(m, order, p[..i])[order[i] := Choices(m, order, i)[p[i]]]
  }

  /** `p` branches off before `q` does: at the first position where they differ it takes the earlier value. */
  ghost predicate Before(p: Path, q: Path) {
    exists i :: 0 <= i < |p| && i < |q| && p[..i] == q[..i] && p[i] < q[i]
  }

  /** A leaf at which the model is satisfied. */
  ghost predicate Solves(m: Model, order: seq<Name>, q: Path) {
    InTree(m, order, q) && |q| == |order| && Satisfies(m, Assigned(m, order, q))
  }

  /** Every node strictly above `p`, but for the root, is tenable. */
  ghost predicate Open(m: Model, order: seq<Name>, p: Path)
    requires InTree(m, order, p)
  {
    forall j :: 0 < j < |p| ==> Tenable(m, Assigned(m, order, p[..j]))
  }

  /**
   * A node that backtracking in domain order comes to: nothing above is ruled out, and no solution branches off before.
   */
  ghost predicate Visited(m: Model, order: seq<Name>, p: Path) {
    && InTree(m, order, p) && p != [] && Open(m, order, p)
    && forall q :: Solves(m, order, q) ==> !Before(q, p)
  }

  /** The first solution in the order of the domains. */
  ghost predicate First(m: Model, order: seq<Name>, q: Path) {
    Solves(m, order, q) && forall r :: Solves(m, order, r) ==> !Before(r, q)
  }

  /** The tree of a model: every variable comes once. */
  predicate Ordering(m: Model, order: seq<Name>) {
    Distinct(order) && ToSet(order) == m.domains.Keys
  }

  lemma {:induction false} AssignedSpec(m: Model, order: seq<Name>, p: Path)
    requires Ordering(m, order) && InTree(m, order, p)
    ensures Assigned(m, order, p).Keys == ToSet(order[..|p|]) && InDomains(m, Assigned(m, order, p))
  {
    if p != [] {
      var i := |p| - 1;
      AssignedSpec(m, order, p[..i]);
      TakeSnoc(order, i);
      assert order[i] in ToSet(order);
    }
  }

  /** Going down the tree only adds to the assignment. */
  lemma {:induction false} AssignedExtends(m: Model, order: seq<Name>, p: Path, q: Path)
    requires Ordering(m, order) && InTree(m, order, q) && p <= q
    ensures InTree(m, order, p) && Extends(Assigned(m, order, q), Assigned(m, order, p))
  {
    if |p| < |q| {
      var i := |q| - 1;
      AssignedExtends(m, order, p, q[..i]);
      AssignedSpec(m, order, q[..i]);
      assert order[i] !in order[..i];
    } else {
      assert p == q;
    }
  }

  /** Below the root, the search goes on from a node exactly when it is tenable. */
  lemma KeptIffTenable(m: Model, order: seq<Name>, p: Path)
    requires ValidModel(m) && Ordering(m, order) && InTree(m, order, p)
    ensures Prune(m)(Assigned(m, order, p)) <==> Tenable(m, Assigned(m, order, p))
  {
    AssignedSpec(m, order, p);
    PruningIsExact(m, Assigned(m, order, p));
  }

  /** Above a solution everything is tenable. */
  lemma AboveASolution(m: Model, order: seq<Name>, p: Path, q: Path)
    requires ValidModel(m) && Ordering(m, order) && Solves(m, order, q) && p <= q
    ensures InTree(m, order, p) && Tenable(m, Assigned(m, order, p))
  {
    AssignedExtends(m, order, p, q);
    PruningIsSound(m, Assigned(m, order, p), Assigned(m, order, q));
    PruningIsExact(m, Assigned(m, order, p));
  }

  /** A tenable leaf is a solution. */
  lemma TenableLeafSolves(m: Model, order: seq<Name>, p: Path)
    requires ValidModel(m) && Ordering(m, order) && InTree(m, order, p) && |p| == |order|
    requires Tenable(m, Assigned(m, order, p))
    ensures Solves(m, order, p)
  {
    AssignedSpec(m, order, p);
    assert order[..|p|] == order;
    PruningIsExact(m, Assigned(m, order, p));
    CompleteCheckIsExact(m, Assigned(m, order, p), false);
  }

  // ---------------------------------------------------------------- one step of the search

  /** The search without a limit, from a node on. */
  function Searched(m: Model, order: seq<Name>, p: Path, c: nat): Walk
    requires InTree(m, order, p) && c <= |Choices(m, order, |p|)|
  {
    Unlimited(m, Prune(m), order, Assigned(m, order, p), |p|, c)
  }

  /** A node that is being expanded: the search has come to it and has tried its first `c` branches. */
  ghost predicate Expanding(m: Model, order: seq<Name>, p: Path, c: nat) {
    && ValidModel(m) && Ordering(m, order) && InTree(m, order, p) && c <= |Choices(m, order, |p|)|
    && Open(m, order, p) && (p != [] ==> Tenable(m, Assigned(m, order, p)))
  }

  /** The search by branch `c` of a node, in terms of the searches of the child and of the rest. */
  ghost predicate Branches(whole: Walk, kept: bool, below: Walk, rest: Walk) {
    whole ==
      if !kept then Walk(rest.answer, 1 + rest.nodes)
      else if below.answer.Some? then Walk(below.answer, 1 + below.nodes)
      else Walk(rest.answer, 1 + below.nodes + rest.nodes)
  }

  lemma UnlimitedBranch(m: Model, keep: Pruning, order: seq<Name>, w: Assignment, depth: nat, c: nat, w': Assignment)
    requires depth < |order| && c < |Choices(m, order, depth)| && w' == w[order[depth] := Choices(m, order, depth)[c]]
    ensures Branches(Unlimited(m, keep, order, w, depth, c), keep(w'),
              Unlimited(m, keep, order, w', depth + 1, 0), Unlimited(m, keep, order, w, depth, c + 1))
  {
  }

  lemma ChildInTree(m: Model, order: seq<Name>, p: Path, c: nat)
    requires InTree(m, order, p) && |p| < |order| && c < |Choices(m, order, |p|)|
    ensures InTree(m, order, p + [c])
    ensures Assigned(m, order, p + [c]) == Assigned(m, order, p)[order[|p|] := Choices(m, order, |p|)[c]]
  {
    assert (p + [c])[..|p|] == p;
  }

  lemma SearchedStep(m: Model, order: seq<Name>, p: Path, c: nat)
    requires Expanding(m, order, p, c) && |p| < |order| && c < |Choices(m, order, |p|)|
    ensures InTree(m, order, p + [c])
    ensures Branches(Searched(m, order, p, c), Tenable(m, Assigned(m, order, p + [c])),
              Searched(m, order, p + [c], 0), Searched(m, order, p, c + 1))
  {
    ChildInTree(m, order, p, c);
    KeptIffTenable(m, order, p + [c]);
    UnlimitedBranch(m, Prune(m), order, Assigned(m, order, p), |p|, c, Assigned(m, order, p + [c]));
  }

  lemma ChildExpands(m: Model, order: seq<Name>, p: Path, c: nat)
    requires Expanding(m, order, p, c) && |p| < |order| && c < |Choices(m, order, |p|)|
    requires InTree(m, order, p + [c]) && Tenable(m, Assigned(m, order, p + [c]))
    ensures Expanding(m, order, p + [c], 0)
  {
    var child := p + [c];
    forall j | 0 < j < |child|
      ensures Tenable(m, Assigned(m, order, child[..j]))
    {
      assert child[..j] == p[..j];
      assert j == |p| ==> p[..j] == p;
    }
  }

  // ---------------------------------------------------------------- the answer is the first solution

  /** A solution below a node, by one of its branches from `c` on. */
  ghost predicate Under(m: Model, order: seq<Name>, p: Path, c: nat, q: Path) {
    Solves(m, order, q) && p <= q && (|p| < |q| ==> q[|p|] >= c)
  }

  ghost predicate FirstUnder(m: Model, order: seq<Name>, p: Path, c: nat, q: Path) {
    Under(m, order, p, c, q) && forall r :: Under(m, order, p, c, r) ==> !Before(r, q)
  }

  /** Below a common node the next branch decides which path comes first. */
  lemma BranchDecides(p: Path, q: Path, r: Path)
    requires p <= q && p <= r && |p| < |q| && |p| < |r|
    ensures q[|p|] < r[|p|] ==> Before(q, r)
    ensures q[|p|] > r[|p|] ==> !Before(q, r)
  {
    assert q[..|p|] == r[..|p|];
    if Before(q, r) {
      var i :| 0 <= i < |q| && i < |r| && q[..i] == r[..i] && q[i] < r[i];
      if i > |p| {
        assert q[..i][|p|] == r[..i][|p|];
      }
    }
  }

  /** A solution by branch `c` is a solution below the child. */
  lemma UnderChild(m: Model, order: seq<Name>, p: Path, c: nat, q: Path)
    requires |p| < |order|
    ensures Under(m, order, p, c, q) <==> Under(m, order, p + [c], 0, q) || Under(m, order, p, c + 1, q)
  {
    if Under(m, order, p, c, q) && q[|p|] == c {
      assert q[..|p| + 1] == p + [c];
    }
  }

  lemma FirstByChild(m: Model, order: seq<Name>, p: Path, c: nat, q: Path)
    requires |p| < |order| && FirstUnder(m, order, p + [c], 0, q)
    ensures FirstUnder(m, order, p, c, q)
  {
    UnderChild(m, order, p, c, q);
    forall r | Under(m, order, p, c, r)
      ensures !Before(r, q)
    {
      UnderChild(m, order, p, c, r);
      if !Under(m, order, p + [c], 0, r) {
        assert q[|p|] == (p + [c])[|p|];
        BranchDecides(p, r, q);
      }
    }
  }

  lemma FirstByRest(m: Model, order: seq<Name>, p: Path, c: nat, q: Path)
    requires |p| < |order| && FirstUnder(m, order, p, c + 1, q)
    requires forall r :: !Under(m, order, p + [c], 0, r)
    ensures FirstUnder(m, order, p, c, q)
  {
    forall r
      ensures Under(m, order, p, c, r) <==> Under(m, order, p, c + 1, r)
    {
      UnderChild(m, order, p, c, r);
    }
  }

  lemma NoneUnder(m: Model, order: seq<Name>, p: Path, c: nat)
    requires Expanding(m, order, p, c) && |p| < |order| && c < |Choices(m, order, |p|)|
    requires InTree(m, order, p + [c]) && !Tenable(m, Assigned(m, order, p + [c]))
    ensures forall r :: !Under(m, order, p + [c], 0, r)
  {
    forall r
      ensures !Under(m, order, p + [c], 0, r)
    {
      if Under(m, order, p + [c], 0, r) {
        AboveASolution(m, order, p + [c], r);
        assert false;
      }
    }
  }

  /** The answer of the search from a node on: the first solution below it, or there is none. */
  ghost predicate Answers(m: Model, order: seq<Name>, p: Path, c: nat, a: Option<Assignment>, q: Path) {
    if a.Some? then FirstUnder(m, order, p, c, q) && Assigned(m, order, q) == a.value
    else forall r :: !Under(m, order, p, c, r)
  }

  lemma {:induction false} AnswerIsFirst(m: Model, order: seq<Name>, p: Path, c: nat) returns (q: Path)
    requires Expanding(m, order, p, c)
    ensures Answers(m, order, p, c, Searched(m, order, p, c).answer, q)
    decreases |order| - |p|, |Choices(m, order, |p|)| - c
  {
    q := p;
    if |p| == |order| {
      AnswerAtLeaf(m, order, p, c);
    } else if c < |Choices(m, order, |p|)| {
      SearchedStep(m, order, p, c);
      var child := p + [c];
      var found := false;
      if Tenable(m, Assigned(m, order, child)) {
        ChildExpands(m, order, p, c);
        q := AnswerIsFirst(m, order, child, 0);
        found := Searched(m, order, child, 0).answer.Some?;
      } else {
        NoneUnder(m, order, p, c);
      }
      if found {
        FirstByChild(m, order, p, c, q);
      } else {
        q := AnswerByRest(m, order, p, c);
      }
    } else {
      AnswerAtEnd(m, order, p, c);
    }
  }

  lemma {:induction false} AnswerByRest(m: Model, order: seq<Name>, p: Path, c: nat) returns (q: Path)
    requires Expanding(m, order, p, c) && |p| < |order| && c < |Choices(m, order, |p|)|
    requires forall r :: !Under(m, order, p + [c], 0, r)
    ensures Answers(m, order, p, c, Searched(m, order, p, c + 1).answer, q)
    decreases |order| - |p|, |Choices(m, order, |p|)| - c, 0
  {
    q := AnswerIsFirst(m, order, p, c + 1);
    if Searched(m, order, p, c + 1).answer.Some? {
      FirstByRest(m, order, p, c, q);
    } else {
      forall r
        ensures !Under(m, order, p, c, r)
      {
        UnderChild(m, order, p, c, r);
      }
    }
  }

  lemma AnswerAtLeaf(m: Model, order: seq<Name>, p: Path, c: nat)
    requires Expanding(m, order, p, c) && |p| == |order|
    ensures Answers(m, order, p, c, Searched(m, order, p, c).answer, p)
  {
    assert |m.domains.Keys| > 0 && ToSet(order) != {};
    TenableLeafSolves(m, order, p);
    forall r | Under(m, order, p, c, r)
      ensures !Before(r, p)
    {
      assert r == p;
    }
  }

  lemma AnswerAtEnd(m: Model, order: seq<Name>, p: Path, c: nat)
    requires Expanding(m, order, p, c) && |p| < |order| && c == |Choices(m, order, |p|)|
    ensures Answers(m, order, p, c, Searched(m, order, p, c).answer, p)
  {
  }

  // ---------------------------------------------------------------- the nodes visited

  /** A node below `p`, by one of its branches from `c` on, that the search from there comes to. */
  ghost predicate VisitedUnder(m: Model, order: seq<Name>, p: Path, c: nat, v: Path) {
    && InTree(m, order, v) && p <= v && |p| < |v| && v[|p|] >= c && Open(m, order, v)
    && forall q :: Under(m, order, p, c, q) ==> !Before(q, v)
  }

  lemma ChildIsVisited(m: Model, order: seq<Name>, p: Path, c: nat)
    requires Expanding(m, order, p, c) && |p| < |order| && c < |Choices(m, order, |p|)|
    ensures VisitedUnder(m, order, p, c, p + [c])
  {
    var child := p + [c];
    forall j | 0 < j < |child|
      ensures Tenable(m, Assigned(m, order, child[..j]))
    {
      assert child[..j] == p[..j];
      assert j == |p| ==> p[..j] == p;
    }
    forall q | Under(m, order, p, c, q)
      ensures !Before(q, child)
    {
      ChildComesFirst(m, order, p, c, q);
    }
  }

  lemma ChildComesFirst(m: Model, order: seq<Name>, p: Path, c: nat, q: Path)
    requires |p| < |order| && Under(m, order, p, c, q)
    ensures !Before(q, p + [c])
  {
    assert forall i :: 0 <= i < |p| ==> q[i] == (p + [c])[i];
  }

  /** Strictly below the child, what is visited is what is visited from the child. */
  lemma BelowChild(m: Model, order: seq<Name>, p: Path, c: nat, v: Path)
    requires |p| < |order| && p + [c] <= v && |v| > |p| + 1
    ensures VisitedUnder(m, order, p, c, v) <==> VisitedUnder(m, order, p + [c], 0, v)
  {
    var child := p + [c];
    assert p <= v && v[|p|] == child[|p|] == c;
    forall q | Under(m, order, p, c, q) && !Under(m, order, child, 0, q)
      ensures !Before(q, v)
    {
      UnderChild(m, order, p, c, q);
      BranchDecides(p, q, v);
    }
    forall q | Under(m, order, child, 0, q)
      ensures Under(m, order, p, c, q)
    {
      UnderChild(m, order, p, c, q);
    }
  }

  /** Beyond branch `c` the search goes on exactly when there is no solution by it. */
  lemma BeyondChild(m: Model, order: seq<Name>, p: Path, c: nat, v: Path)
    requires |p| < |order| && p <= v && |p| < |v| && v[|p|] > c
    ensures VisitedUnder(m, order, p, c, v) <==>
      VisitedUnder(m, order, p, c + 1, v) && forall q :: !Under(m, order, p + [c], 0, q)
  {
    forall q
      ensures Under(m, order, p, c, q) <==> Under(m, order, p + [c], 0, q) || Under(m, order, p, c + 1, q)
    {
      UnderChild(m, order, p, c, q);
    }
    forall q | Under(m, order, p + [c], 0, q)
      ensures Before(q, v)
    {
      assert q[|p|] == (p + [c])[|p|];
      BranchDecides(p, q, v);
    }
  }

  /** Nothing is visited below a child that is ruled out. */
  lemma RuledOut(m: Model, order: seq<Name>, p: Path, c: nat, v: Path)
    requires InTree(m, order, p + [c]) && !Tenable(m, Assigned(m, order, p + [c])) && p + [c] <= v && |v| > |p| + 1
    ensures !VisitedUnder(m, order, p, c, v)
  {
    assert v[..|p| + 1] == p + [c];
  }

  /** Exactly the visited nodes, each once. */
  ghost predicate Lists(m: Model, order: seq<Name>, p: Path, c: nat, trail: seq<Path>) {
    Distinct(trail) && forall v {:trigger v in trail} :: v in trail <==> VisitedUnder(m, order, p, c, v)
  }

  ghost predicate ListsBeyond(m: Model, order: seq<Name>, p: Path, c: nat, trail: seq<Path>) {
    && Distinct(trail)
    && forall v {:trigger v in trail} :: v in trail <==> VisitedUnder(m, order, p, c, v) && v[|p|] > c
  }

  ghost predicate ListsBelow(m: Model, order: seq<Name>, p: Path, c: nat, trail: seq<Path>) {
    && Distinct(trail)
    && forall v {:trigger v in trail} ::
        v in trail <==> VisitedUnder(m, order, p, c, v) && p + [c] <= v && |v| > |p| + 1
  }

  lemma TrailHas(m: Model, order: seq<Name>, p: Path, c: nat, below: seq<Path>, beyond: seq<Path>, v: Path)
    requires VisitedUnder(m, order, p, c, p + [c])
    requires ListsBelow(m, order, p, c, below) && ListsBeyond(m, order, p, c, beyond)
    ensures v == p + [c] || v in below || v in beyond <==> VisitedUnder(m, order, p, c, v)
  {
    if VisitedUnder(m, order, p, c, v) && v[|p|] == c {
      assert v[..|p| + 1] == p + [c];
      assert |v| == |p| + 1 ==> v == p + [c];
    }
  }

  lemma DistinctJoin<T>(a: seq<T>, b: seq<T>)
    requires Distinct(a) && Distinct(b) && forall y :: y in a ==> y !in b
    ensures Distinct(a + b)
  {
    forall i, j | 0 <= i < j < |a + b|
      ensures (a + b)[i] != (a + b)[j]
    {
      if i < |a| <= j {
        assert a[i] in a && b[j - |a|] in b;
      }
    }
  }

  /** The child, what is below it, and what is beyond it make up the whole. */
  lemma TrailsJoin(m: Model, order: seq<Name>, p: Path, c: nat, below: seq<Path>, beyond: seq<Path>)
    requires Expanding(m, order, p, c) && |p| < |order| && c < |Choices(m, order, |p|)|
    requires ListsBelow(m, order, p, c, below) && ListsBeyond(m, order, p, c, beyond)
    ensures Lists(m, order, p, c, [p + [c]] + below + beyond)
  {
    ChildIsVisited(m, order, p, c);
    assert (p + [c])[|p|] == c;
    forall v | v in below
      ensures v !in beyond
    {
      assert v[|p|] == (p + [c])[|p|];
    }
    DistinctJoin([p + [c]], below);
    DistinctJoin([p + [c]] + below, beyond);
    forall v
      ensures v in [p + [c]] + below + beyond <==> VisitedUnder(m, order, p, c, v)
    {
      TrailHas(m, order, p, c, below, beyond, v);
    }
  }

  lemma {:induction false} TrailOf(m: Model, order: seq<Name>, p: Path, c: nat) returns (trail: seq<Path>)
    requires Expanding(m, order, p, c)
    ensures Lists(m, order, p, c, trail) && |trail| == Searched(m, order, p, c).nodes
    decreases |order| - |p|, |Choices(m, order, |p|)| - c
  {
    trail := [];
    if |p| < |order| && c < |Choices(m, order, |p|)| {
      SearchedStep(m, order, p, c);
      var below := TrailBelow(m, order, p, c);
      var beyond := TrailBeyond(m, order, p, c);
      TrailsJoin(m, order, p, c, below, beyond);
      trail := [p + [c]] + below + beyond;
    }
  }

  lemma {:induction false} TrailBelow(m: Model, order: seq<Name>, p: Path, c: nat) returns (trail: seq<Path>)
    requires Expanding(m, order, p, c) && |p| < |order| && c < |Choices(m, order, |p|)| && InTree(m, order, p + [c])
    ensures ListsBelow(m, order, p, c, trail)
    ensures |trail| ==
      if Tenable(m, Assigned(m, order, p + [c])) then Searched(m, order, p + [c], 0).nodes else 0
    decreases |order| - |p|, |Choices(m, order, |p|)| - c, 0
  {
    var child := p + [c];
    trail := [];
    if Tenable(m, Assigned(m, order, child)) {
      ChildExpands(m, order, p, c);
      trail := TrailOf(m, order, child, 0);
      forall v | p + [c] <= v && |v| > |p| + 1
        ensures VisitedUnder(m, order, p, c, v) <==> VisitedUnder(m, order, child, 0, v)
      {
        BelowChild(m, order, p, c, v);
      }
    } else {
      forall v | p + [c] <= v && |v| > |p| + 1
        ensures !VisitedUnder(m, order, p, c, v)
      {
        RuledOut(m, order, p, c, v);
      }
    }
  }

  /** There is a solution by branch `c` exactly when the search of the child finds one. */
  lemma FoundByChild(m: Model, order: seq<Name>, p: Path, c: nat)
    requires Expanding(m, order, p, c) && |p| < |order| && c < |Choices(m, order, |p|)| && InTree(m, order, p + [c])
    ensures (exists q :: Under(m, order, p + [c], 0, q)) <==>
      Tenable(m, Assigned(m, order, p + [c])) && Searched(m, order, p + [c], 0).answer.Some?
  {
    if Tenable(m, Assigned(m, order, p + [c])) {
      ChildExpands(m, order, p, c);
      var q := AnswerIsFirst(m, order, p + [c], 0);
    } else {
      NoneUnder(m, order, p, c);
    }
  }

  lemma {:induction false} TrailBeyond(m: Model, order: seq<Name>, p: Path, c: nat) returns (trail: seq<Path>)
    requires Expanding(m, order, p, c) && |p| < |order| && c < |Choices(m, order, |p|)| && InTree(m, order, p + [c])
    ensures ListsBeyond(m, order, p, c, trail)
    ensures |trail| ==
      if Tenable(m, Assigned(m, order, p + [c])) && Searched(m, order, p + [c], 0).answer.Some? then 0
      else Searched(m, order, p, c + 1).nodes
    decreases |order| - |p|, |Choices(m, order, |p|)| - c, 0
  {
    FoundByChild(m, order, p, c);
    trail := [];
    if forall q :: !Under(m, order, p + [c], 0, q) {
      trail := TrailOf(m, order, p, c + 1);
    }
    forall v | p <= v && |p| < |v| && v[|p|] > c
      ensures VisitedUnder(m, order, p, c, v) <==>
        VisitedUnder(m, order, p, c + 1, v) && forall q :: !Under(m, order, p + [c], 0, q)
    {
      BeyondChild(m, order, p, c, v);
    }
  }

  // ---------------------------------------------------------------- the decision

  /** The first solution of the whole tree assigns this. */
  ghost predicate IsFirstSolution(m: Model, order: seq<Name>, w: Assignment) {
    exists q :: First(m, order, q) && Assigned(m, order, q) == w
  }

  /**
   * What `feasibility` decides, without a word about how it searches. Let the trail be the nodes that backtracking in
   * domain order comes to before the first solution. Then UNKNOWN means that the budget is smaller than the trail, and
   * otherwise the answer is the first solution, or there is none; as many nodes are counted as the trail has, or the
   * budget.
   */
  lemma DecisionMeaning(m: Model, ordering: seq<Name>, limit: nat) returns (trail: seq<Path>)
    requires ValidModel(m) && Distinct(ordering) && ToSet(ordering) == m.domains.Keys
    ensures Distinct(trail) && forall v {:trigger v in trail} :: v in trail <==> Visited(m, Reversed(ordering), v)
    ensures var r, order := Decision(m, ordering, limit), Reversed(ordering);
      && (r.status.Unknown? <==> limit < |trail|)
      && r.nodes == (if limit < |trail| then limit else |trail|)
      && (r.status.Sat? <==> r.assignment.Some?)
      && (r.assignment.Some? ==> IsFirstSolution(m, order, r.assignment.value))
      && (r.status.Unsat? ==> forall q :: !Solves(m, order, q))
  {
    var order := Reversed(ordering);
    ReversedCovers(ordering);
    trail := TrailOf(m, order, [], 0);
    var q := AnswerIsFirst(m, order, [], 0);
    FromTheRoot(m, order);
  }

  lemma FromTheRoot(m: Model, order: seq<Name>)
    ensures forall q {:trigger Solves(m, order, q)} {:trigger Under(m, order, [], 0, q)} ::
      Under(m, order, [], 0, q) <==> Solves(m, order, q)
    ensures forall v {:trigger Visited(m, order, v)} {:trigger VisitedUnder(m, order, [], 0, v)} ::
      VisitedUnder(m, order, [], 0, v) <==> Visited(m, order, v)
  {
    forall q
      ensures Under(m, order, [], 0, q) <==> Solves(m, order, q)
    {
    }
  }
}
