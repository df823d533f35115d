/** Line intervals and their merging (residual/engine.py, `_merge`). */
module Intervals {

  /** The lines `start` to `end`, both included. */
  datatype Span = Span(start: nat, end: nat)

  predicate Proper(spans: seq<Span>) {
    forall i :: 0 <= i < |spans| ==> spans[i].start <= spans[i].end
  }

  predicate Covers(spans: seq<Span>, x: int) {
    exists i :: 0 <= i < |spans| && spans[i].start <= x <= spans[i].end
  }

  /** Sorted, disjoint, not even adjacent. */
  predicate Normal(spans: seq<Span>) {
    && Proper(spans)
    && forall i, j :: 0 <= i < j < |spans| ==> spans[i].end + 1 < spans[j].start
  }

  ghost predicate SameCover(a: seq<Span>, b: seq<Span>) {
    forall x :: Covers(a, x) <==> Covers(b, x)
  }

  // ---------------------------------------------------------------- uniqueness

  lemma CoversTail(s: seq<Span>, x: int)
    requires s != []
    ensures Covers(s, x) <==> s[0].start <= x <= s[0].end || Covers(s[1..], x)
  {
    if Covers(s[1..], x) {
      var i :| 0 <= i < |s[1..]| && s[1..][i].start <= x <= s[1..][i].end;
      assert s[i + 1].start <= x <= s[i + 1].end;
    }
    if Covers(s, x) && !(s[0].start <= x <= s[0].end) {
      var i :| 0 <= i < |s| && s[i].start <= x <= s[i].end;
      assert s[1..][i - 1] == s[i];
    }
  }

  /** The first interval of a normal form runs from the first covered line up to the first gap. */
  lemma FirstInterval(s: seq<Span>)
    requires Normal(s) && s != []
    ensures Covers(s, s[0].start) && Covers(s, s[0].end) && !Covers(s, s[0].end + 1)
    ensures forall x :: Covers(s, x) ==> s[0].start <= x
    ensures forall x :: s[0].start <= x <= s[0].end ==> Covers(s, x)
  {
  }

  lemma SameFirst(a: seq<Span>, b: seq<Span>)
    requires Normal(a) && Normal(b) && a != [] && b != [] && SameCover(a, b)
    ensures a[0] == b[0]
  {
    FirstInterval(a);
    FirstInterval(b);
    assert a[0].start == b[0].start;
    assert !Covers(b, a[0].end + 1) && !Covers(a, b[0].end + 1);
  }

  /** A set of lines has exactly one normal form. */
  lemma {:induction false} NormalFormIsUnique(a: seq<Span>, b: seq<Span>)
    requires Normal(a) && Normal(b) && SameCover(a, b)
    ensures a == b
    decreases |a|
  {
    if a == [] {
      assert !Covers(a, if b == [] then 0 else b[0].start);
      assert b != [] ==> Covers(b, b[0].start);
    } else {
      assert Covers(a, a[0].start);
      assert b != [];
      SameFirst(a, b);
      forall x ensures Covers(a[1..], x) <==> Covers(b[1..], x) {
        CoversTail(a, x);
        CoversTail(b, x);
        TailBeyond(a, x);
        TailBeyond(b, x);
      }
      NormalFormIsUnique(a[1..], b[1..]);
    }
  }

  lemma TailBeyond(s: seq<Span>, x: int)
    requires Normal(s) && s != []
    ensures Covers(s[1..], x) ==> s[0].end < x
  {
  }

  // ---------------------------------------------------------------- sorting

  /** Intervals compare by start, then by end. */
  predicate Leq(a: Span, b: Span) {
    a.start < b.start || (a.start == b.start && a.end <= b.end)
  }

  predicate SortedSpans(s: seq<Span>) {
    forall i, j :: 0 <= i < j < |s| ==> Leq(s[i], s[j])
  }

  function Insert(s: Span, rest: seq<Span>): seq<Span> {
    if rest == [] || Leq(s, rest[0]) then [s] + rest else [rest[0]] + Insert(s, rest[1..])
  }

  function SortSpans(s: seq<Span>): seq<Span> {
    if s == [] then [] else Insert(s[0], SortSpans(s[1..]))
  }

  lemma {:induction false} InsertSpec(s: Span, rest: seq<Span>)
    requires SortedSpans(rest)
    ensures SortedSpans(Insert(s, rest))
    ensures forall y :: y in Insert(s, rest) <==> y == s || y in rest
  {
    if rest != [] && !Leq(s, rest[0]) {
      InsertSpec(s, rest[1..]);
      var tail := Insert(s, rest[1..]);
      assert forall y :: y in tail ==> Leq(rest[0], y);
      assert forall y :: y in rest <==> y == rest[0] || y in rest[1..];
    }
  }

  lemma {:induction false} SortSpansSpec(s: seq<Span>)
    ensures SortedSpans(SortSpans(s))
    ensures forall y :: y in SortSpans(s) <==> y in s
  {
    if s != [] {
      SortSpansSpec(s[1..]);
      InsertSpec(s[0], SortSpans(s[1..]));
    }
  }

  // ---------------------------------------------------------------- merging

  lemma CoversSnoc(s: seq<Span>, t: Span, x: int)
    ensures Covers(s + [t], x) <==> Covers(s, x) || t.start <= x <= t.end
  {
    if Covers(s, x) {
      var i :| 0 <= i < |s| && s[i].start <= x <= s[i].end;
      assert (s + [t])[i] == s[i];
    }
    assert (s + [t])[|s|] == t;
  }

  /** Absorbs the next interval into the last one when it starts inside or right after it; appends it otherwise. */
  function MergeOne(merged: seq<Span>, next: Span): seq<Span> {
    if merged != [] && next.start <= merged[|merged| - 1].end + 1 then
      var last := merged[|merged| - 1];
      merged[..|merged| - 1] + [Span(last.start, if next.end > last.end then next.end else last.end)]
    else merged + [next]
  }

  /** Normal so far, covering `done`, and starting nowhere after `next` does. */
  ghost predicate Merging(merged: seq<Span>, done: seq<Span>, next: Span) {
    Normal(merged) && SameCover(merged, done) && forall i :: 0 <= i < |merged| ==> merged[i].start <= next.start
  }

  lemma MergeStep(merged: seq<Span>, done: seq<Span>, next: Span)
    requires Merging(merged, done, next) && next.start <= next.end
    ensures Merging(MergeOne(merged, next), done + [next], next)
  {
    forall x ensures Covers(MergeOne(merged, next), x) <==> Covers(done + [next], x) {
      CoversSnoc(done, next, x);
      MergeCovers(merged, next, x);
    }
  }

  lemma MergeCovers(merged: seq<Span>, next: Span, x: int)
    requires Normal(merged) && next.start <= next.end
    requires forall i :: 0 <= i < |merged| ==> merged[i].start <= next.start
    ensures Covers(MergeOne(merged, next), x) <==> Covers(merged, x) || next.start <= x <= next.end
  {
    if merged != [] && next.start <= merged[|merged| - 1].end + 1 {
      var front, last := merged[..|merged| - 1], merged[|merged| - 1];
      assert merged == front + [last];
      CoversSnoc(front, last, x);
      CoversSnoc(front, Span(last.start, if next.end > last.end then next.end else last.end), x);
    } else {
      CoversSnoc(merged, next, x);
    }
  }

  /** `_merge` computes the normal form of whatever lines its intervals cover. */
  method Merge(spans: seq<Span>) returns (merged: seq<Span>)
    requires Proper(spans)
    ensures Normal(merged) && SameCover(merged, spans)
  {
    var sorted := SortSpans(spans);
    SortSpansSpec(spans);
    SameElementsSameCover(sorted, spans);
    merged := [];
    for k := 0 to |sorted|
      invariant Normal(merged) && SameCover(merged, sorted[..k])
      invariant k < |sorted| ==> Merging(merged, sorted[..k], sorted[k])
    {
      var next := sorted[k];
      assert next in spans;
      MergeStep(merged, sorted[..k], next);
      assert sorted[..k + 1] == sorted[..k] + [next];
      if merged != [] && next.start <= merged[|merged| - 1].end + 1 {
        var last := merged[|merged| - 1];
        merged := merged[..|merged| - 1] + [Span(last.start, if next.end > last.end then next.end else last.end)];
      } else {
        merged := merged + [next];
      }
      assert k + 1 < |sorted| ==> Leq(next, sorted[k + 1]);
    }
    assert sorted[..|sorted|] == sorted;
  }

  lemma SameElementsSameCover(a: seq<Span>, b: seq<Span>)
    requires forall y :: y in a <==> y in b
    ensures SameCover(a, b)
  {
    forall x ensures Covers(a, x) <==> Covers(b, x) {
      if Covers(a, x) {
        var i :| 0 <= i < |a| && a[i].start <= x <= a[i].end;
        assert a[i] in b;
      }
      if Covers(b, x) {
        var i :| 0 <= i < |b| && b[i].start <= x <= b[i].end;
        assert b[i] in a;
      }
    }
  }

  /** Merging a request into earlier grants changes nothing exactly when every requested line was granted already. */
  lemma AlreadySupplied(granted: seq<Span>, request: Span, merged: seq<Span>)
    requires Normal(granted) && Normal(merged) && request.start <= request.end
    requires SameCover(merged, granted + [request])
    ensures merged == granted <==> forall x :: request.start <= x <= request.end ==> Covers(granted, x)
  {
    forall x ensures Covers(merged, x) <==> Covers(granted, x) || request.start <= x <= request.end {
      CoversSnoc(granted, request, x);
    }
    if forall x :: request.start <= x <= request.end ==> Covers(granted, x) {
      assert SameCover(merged, granted);
      NormalFormIsUnique(merged, granted);
    }
  }
}
