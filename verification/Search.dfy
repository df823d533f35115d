/** The budgeted backtracking search over a finite model (residual/cic.py). */
module Search {
  import opened Basics
  import opened Elimination
  import opened Constraints

  /** What an unlimited search from a position finds, and how many nodes it visits. */
  datatype Walk = Walk(answer: Option<Assignment>, nodes: nat)

  /** The state in which a limited search stops. */
  datatype Stop = Stop(answer: Option<Assignment>, nodes: nat, exhausted: bool)

  function Choices(m: Model, order: seq<Name>, depth: nat): seq<int> {
    if depth < |order| && order[depth] in m.domains then m.domains[order[depth]] else []
  }

  type Pruning = Assignment -> bool

  /** The pruning the search uses. */
  function Prune(m: Model): Pruning {
    w => Consistent(m, w, false)
  }

  // ---------------------------------------------------------------- the search without a limit

  /** Tries the values of variable `depth` from position `c` on, below the partial assignment `w`. */
  function Unlimited(m: Model, keep: Pruning, order: seq<Name>, w: Assignment, depth: nat, c: nat): Walk
    requires depth <= |order| && c <= |Choices(m, order, depth)|
    decreases |order| - depth, |Choices(m, order, depth)| - c
  {
    if depth == |order| then Walk(Some(w), 0)
    else if c == |Choices(m, order, depth)| then Walk(None, 0)
    else
      var w' := w[order[depth] := Choices(m, order, depth)[c]];
      if keep(w') then
        var below := Unlimited(m, keep, order, w', depth + 1, 0);
        if below.answer.Some? then Walk(below.answer, 1 + below.nodes) else
          var rest := Unlimited(m, keep, order, w, depth, c + 1);
          Walk(rest.answer, 1 + below.nodes + rest.nodes)
      else
        var rest := Unlimited(m, keep, order, w, depth, c + 1);
        Walk(rest.answer, 1 + rest.nodes)
  }

  /** The variables up to `depth` are assigned, and the partial assignment survived pruning. */
  ghost predicate Position(m: Model, order: seq<Name>, w: Assignment, depth: nat) {
    && depth <= |order| && Distinct(order) && ToSet(order) == m.domains.Keys
    && w.Keys == ToSet(order[..depth])
    && (depth > 0 ==> Consistent(m, w, false))
  }

  /** `w` can be completed using one of the values from position `c` on for the next variable. */
  ghost predicate Completes(m: Model, order: seq<Name>, w: Assignment, depth: nat, c: nat, full: Assignment)
    requires depth <= |order| && c <= |Choices(m, order, depth)|
  {
    && Extends(full, w) && Satisfies(m, full)
    && (depth < |order| ==> At(full, order[depth]) in Choices(m, order, depth)[c..])
  }

  lemma NextPosition(m: Model, order: seq<Name>, w: Assignment, depth: nat, v: int)
    requires Position(m, order, w, depth) && depth < |order| && Consistent(m, w[order[depth] := v], false)
    ensures Position(m, order, w[order[depth] := v], depth + 1)
  {
    TakeSnoc(order, depth);
  }

  /** A value that is pruned, or under which nothing is found, completes to nothing. */
  lemma BranchClosed(m: Model, order: seq<Name>, w: Assignment, depth: nat, c: nat, full: Assignment)
    requires ValidModel(m) && Position(m, order, w, depth) && depth < |order| && c < |Choices(m, order, depth)|
    requires Completes(m, order, w, depth, c, full) && !Completes(m, order, w, depth, c + 1, full)
    ensures var w' := w[order[depth] := Choices(m, order, depth)[c]];
      Extends(full, w') && Consistent(m, w', false) && Completes(m, order, w', depth + 1, 0, full)
  {
    var key, choices := order[depth], Choices(m, order, depth);
    var w' := w[key := choices[c]];
    assert choices[c..] == [choices[c]] + choices[c + 1..];
    assert key in ToSet(order);
    assert full[key] == choices[c];
    PruningIsSound(m, w', full);
    if depth + 1 < |order| {
      assert order[depth + 1] in ToSet(order);
      assert Choices(m, order, depth + 1)[0..] == Choices(m, order, depth + 1);
    }
  }

  /** The unlimited search answers with a valid completion, or there is none. */
  lemma {:induction false} UnlimitedIsExact(m: Model, order: seq<Name>, w: Assignment, depth: nat, c: nat)
    requires ValidModel(m) && Position(m, order, w, depth) && c <= |Choices(m, order, depth)|
    ensures Unlimited(m, Prune(m), order, w, depth, c).answer.Some? ==>
      Satisfies(m, Unlimited(m, Prune(m), order, w, depth, c).answer.value)
    ensures Unlimited(m, Prune(m), order, w, depth, c).answer.None? ==>
      forall full :: !Completes(m, order, w, depth, c, full)
    decreases |order| - depth, |Choices(m, order, depth)| - c
  {
    if depth == |order| {
      assert order[..depth] == order;
      assert w.Keys == m.domains.Keys;
      assert depth > 0;
      CompleteCheckIsExact(m, w, false);
    } else if c < |Choices(m, order, depth)| {
      UnlimitedStep(m, order, w, depth, c);
    } else {
      assert Choices(m, order, depth)[c..] == [];
    }
  }

  lemma {:induction false} UnlimitedStep(m: Model, order: seq<Name>, w: Assignment, depth: nat, c: nat)
    requires ValidModel(m) && Position(m, order, w, depth) && depth < |order| && c < |Choices(m, order, depth)|
    ensures Unlimited(m, Prune(m), order, w, depth, c).answer.Some? ==>
      Satisfies(m, Unlimited(m, Prune(m), order, w, depth, c).answer.value)
    ensures Unlimited(m, Prune(m), order, w, depth, c).answer.None? ==>
      forall full :: !Completes(m, order, w, depth, c, full)
    decreases |order| - depth, |Choices(m, order, depth)| - c, 0
  {
    var w' := w[order[depth] := Choices(m, order, depth)[c]];
    UnlimitedIsExact(m, order, w, depth, c + 1);
    if Consistent(m, w', false) {
      NextPosition(m, order, w, depth, Choices(m, order, depth)[c]);
      UnlimitedIsExact(m, order, w', depth + 1, 0);
    }
    if Unlimited(m, Prune(m), order, w, depth, c).answer.None? {
      forall full ensures !Completes(m, order, w, depth, c, full) {
        if Completes(m, order, w, depth, c, full) {
          BranchClosed(m, order, w, depth, c, full);
          assert false;
        }
      }
    }
  }

  // ---------------------------------------------------------------- the search with a limit

  /** What the limited search does, as a function of the nodes already used. */
  function Limited(
      m: Model, keep: Pruning, order: seq<Name>, w: Assignment, depth: nat, c: nat, used: nat, limit: nat): Stop
    requires depth <= |order| && c <= |Choices(m, order, depth)|
    decreases |order| - depth, |Choices(m, order, depth)| - c
  {
    if depth == |order| then Stop(Some(w), used, false)
    else if c == |Choices(m, order, depth)| then Stop(None, used, false)
    else if used >= limit then Stop(None, used, true)
    else
      var w' := w[order[depth] := Choices(m, order, depth)[c]];
      if keep(w') then
        var below := Limited(m, keep, order, w', depth + 1, 0, used + 1, limit);
        if below.answer.Some? || below.exhausted then below
        else Limited(m, keep, order, w, depth, c + 1, below.nodes, limit)
      else
        Limited(m, keep, order, w, depth, c + 1, used + 1, limit)
  }

  /** The limited search is the unlimited one, cut off exactly when that one needs more than is left. */
  lemma {:induction false} LimitedRefinesUnlimited(
      m: Model, keep: Pruning, order: seq<Name>, w: Assignment, depth: nat, c: nat, used: nat, limit: nat)
    requires depth <= |order| && c <= |Choices(m, order, depth)| && used <= limit
    ensures var all := Unlimited(m, keep, order, w, depth, c);
      Limited(m, keep, order, w, depth, c, used, limit) ==
        if used + all.nodes <= limit then Stop(all.answer, used + all.nodes, false) else Stop(None, limit, true)
    decreases |order| - depth, |Choices(m, order, depth)| - c
  {
    if depth < |order| && c < |Choices(m, order, depth)| && used < limit {
      var w' := w[order[depth] := Choices(m, order, depth)[c]];
      if keep(w') {
        LimitedRefinesUnlimited(m, keep, order, w', depth + 1, 0, used + 1, limit);
        var below := Unlimited(m, keep, order, w', depth + 1, 0);
        if used + 1 + below.nodes <= limit && below.answer.None? {
          LimitedRefinesUnlimited(m, keep, order, w, depth, c + 1, used + 1 + below.nodes, limit);
        }
      } else {
        LimitedRefinesUnlimited(m, keep, order, w, depth, c + 1, used + 1, limit);
      }
    }
  }

  /** The mutable state of one search. */
  class Searcher {
    const m: Model
    const keep: Pruning
    const order: seq<Name>
    const limit: nat
    var nodes: nat
    var exhausted: bool
    var values: Assignment

    constructor (m: Model, keep: Pruning, order: seq<Name>, limit: nat)
      ensures this.m == m && this.keep == keep && this.order == order && this.limit == limit
      ensures nodes == 0 && !exhausted && values == map[]
    {
      this.m, this.keep, this.order, this.limit := m, keep, order, limit;
      nodes, exhausted, values := 0, false, map[];
    }

    method Run(depth: nat) returns (answer: Option<Assignment>)
      requires depth <= |order| && !exhausted
      requires forall i :: depth <= i < |order| ==> order[i] !in values && order[i] in m.domains
      requires Distinct(order)
      modifies this
      ensures Stop(answer, nodes, exhausted) == Limited(m, keep, order, old(values), depth, 0, old(nodes), limit)
      ensures answer.None? && !exhausted ==> values == old(values)
      decreases |order| - depth
    {
      if depth == |order| {
        return Some(values);
      }
      var key := order[depth];
      var choices := m.domains[key];
      ghost var start := values;
      for c := 0 to |choices|
        invariant !exhausted && Keyed(start, key, values)
        invariant Limited(m, keep, order, start, depth, 0, old(nodes), limit)
          == Limited(m, keep, order, start, depth, c, nodes, limit)
      {
        if nodes >= limit {
          exhausted := true;
          return None;
        }
        nodes := nodes + 1;
        values := values[key := choices[c]];
        assert values == start[key := choices[c]];
        if keep(values) {
          var result := Run(depth + 1);
          if result.Some? {
            return result;
          }
          if exhausted {
            return None;
          }
        }
      }
      values := values - {key};
      assert values == start;
      return None;
    }
  }

  /** `w` is `start`, up to a value for `key`. */
  ghost predicate Keyed(start: Assignment, key: Name, w: Assignment) {
    key !in start && w - {key} == start
  }

  // ---------------------------------------------------------------- feasibility

  datatype Status = Sat | Unsat | Unknown

  datatype SearchResult = SearchResult(status: Status, assignment: Option<Assignment>, nodes: nat)

  const MAX_NODES := 1_000_000

  function Reversed(s: seq<Name>): (r: seq<Name>)
    ensures |r| == |s| && forall i :: 0 <= i < |s| ==> r[i] == s[|s| - 1 - i]
  {
    seq(|s|, i requires 0 <= i < |s| => s[|s| - 1 - i])
  }

  lemma ReversedCovers(s: seq<Name>)
    requires Distinct(s)
    ensures Distinct(Reversed(s)) && ToSet(Reversed(s)) == ToSet(s)
  {
    var r := Reversed(s);
    forall x | x in s ensures x in r {
      var i :| 0 <= i < |s| && s[i] == x;
      assert r[|s| - 1 - i] == x;
    }
  }

  /** The nodes that deciding a model takes along an ordering. */
  function NodesNeeded(m: Model, ordering: seq<Name>): nat {
    Unlimited(m, Prune(m), Reversed(ordering), map[], 0, 0).nodes
  }

  /** `feasibility`, on every model, ordering and budget. */
  method Feasibility(m: Model, ordering: seq<Name>, limit: int) returns (r: Result<SearchResult>)
    ensures r.Ok? <==>
      ValidModel(m) && |ordering| == |m.domains| && ToSet(ordering) == m.domains.Keys && 0 <= limit <= MAX_NODES
    ensures r.Ok? ==> r.value == Decision(m, ordering, limit)
  {
    var graph := InteractionGraph(m);
    if graph.Err? {
      return Err;
    }
    var certificate := EliminationCertificate(graph.value, ordering);
    if certificate.Err? || limit < 0 || limit > MAX_NODES {
      return Err;
    }
    PermutationIsDistinct(graph.value, ordering);
    var found := Decide(m, ordering, limit);
    r := Ok(found);
  }

  /** The search proper, from the last eliminated variable to the first. */
  method Decide(m: Model, ordering: seq<Name>, limit: nat) returns (r: SearchResult)
    requires Distinct(ordering) && ToSet(ordering) == m.domains.Keys
    ensures r == Decision(m, ordering, limit)
  {
    ReversedCovers(ordering);
    var order := Reversed(ordering);
    forall i | 0 <= i < |order| ensures order[i] in m.domains {
      assert order[i] in ToSet(order);
    }
    var searcher := new Searcher(m, Prune(m), order, limit);
    var answer := searcher.Run(0);
    LimitedRefinesUnlimited(m, Prune(m), order, map[], 0, 0, 0, limit);
    var status := if answer.Some? then Sat else if searcher.exhausted then Unknown else Unsat;
    r := SearchResult(status, answer, searcher.nodes);
  }

  function Decision(m: Model, ordering: seq<Name>, limit: nat): SearchResult {
    var all := Unlimited(m, Prune(m), Reversed(ordering), map[], 0, 0);
    if limit < all.nodes then SearchResult(Unknown, None, limit)
    else SearchResult(if all.answer.Some? then Sat else Unsat, all.answer, all.nodes)
  }

  /** Every valid assignment completes the empty one. */
  lemma StartCompletes(m: Model, order: seq<Name>, w: Assignment)
    requires ToSet(order) == m.domains.Keys
    ensures Satisfies(m, w) ==> Completes(m, order, map[], 0, 0, w)
  {
    if |order| > 0 {
      assert order[0] in ToSet(order);
      assert Choices(m, order, 0)[0..] == Choices(m, order, 0);
    }
  }

  /**
   * The search is exact: an answer is a valid assignment, UNSAT means there is none, and UNKNOWN
   * is returned exactly when the budget is below what deciding takes, with the whole budget spent.
   */
  lemma FeasibilityIsExact(m: Model, ordering: seq<Name>, limit: nat)
    requires ValidModel(m) && Distinct(ordering) && ToSet(ordering) == m.domains.Keys
    ensures var r := Decision(m, ordering, limit);
      && (r.status.Sat? <==> r.assignment.Some?)
      && (r.assignment.Some? ==> Satisfies(m, r.assignment.value))
      && (r.status.Unsat? ==> forall w :: !Satisfies(m, w))
      && (r.status.Unknown? <==> limit < NodesNeeded(m, ordering))
      && (r.status.Unknown? ==> r.nodes == limit)
      && r.nodes <= limit
  {
    var order := Reversed(ordering);
    ReversedCovers(ordering);
    UnlimitedIsExact(m, order, map[], 0, 0);
    if Decision(m, ordering, limit).status.Unsat? {
      forall w ensures !Satisfies(m, w) {
        assert !Completes(m, order, map[], 0, 0, w);
        StartCompletes(m, order, w);
      }
    }
  }

  /** Raising the budget never changes a decided answer, nor the nodes it took. */
  lemma DecidedIsStable(m: Model, ordering: seq<Name>, limit: nat, more: nat)
    requires limit <= more && !Decision(m, ordering, limit).status.Unknown?
    ensures Decision(m, ordering, more) == Decision(m, ordering, limit)
  {
  }
}
