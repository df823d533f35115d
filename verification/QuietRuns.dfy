/** With the standard brakes and nothing to object to, a run ends with the first candidate that meets the goal. */
module QuietRuns {
  import opened Basics
  import opened Goals
  import opened Brakes
  import opened Loop

  // ---------------------------------------------------------------- what the worker's tools did

  ghost function PrintsOf(observations: seq<Observation>): seq<Fingerprint> {
    Fingerprints(ToolEvents(observations))
  }

  lemma PrintsOfLast(observations: seq<Observation>)
    requires observations != []
    ensures var n := |observations| - 1;
      PrintsOf(observations) == PrintsOf(observations[..n])
        + if observations[n].kind == TOOL_INVOKED then [FingerprintOf(observations[n])] else []
  {
    var n := |observations| - 1;
    var front := ToolEvents(observations[..n]);
    if observations[n].kind == TOOL_INVOKED {
      assert (front + [Tool(observations[n])])[..|front|] == front;
    } else {
      assert ToolEvents(observations) == front;
    }
  }

  /** The fingerprints of all tool invocations in passes 1 to `n`. */
  ghost function Prints(u: Setup, n: nat): seq<Fingerprint> {
    if n == 0 then [] else
      Prints(u, n - 1) + if u.harness(n).observations.Some? then PrintsOf(u.harness(n).observations.value) else []
  }

  /** The same tool invocation `times` times in a row, anywhere. */
  ghost predicate Stalls(prints: seq<Fingerprint>, times: nat) {
    exists i :: 0 <= i && i + times <= |prints| && Constant(prints, i, times)
  }

  ghost predicate Constant(prints: seq<Fingerprint>, i: nat, times: nat)
    requires i + times <= |prints|
  {
    forall j :: i <= j < i + times ==> prints[j] == prints[i]
  }

  lemma NoStallNoTail(prints: seq<Fingerprint>, part: seq<Fingerprint>, times: nat)
    requires part <= prints && !Stalls(prints, times) && times > 0
    ensures Tail(part) < times
  {
    TailIsConstant(part);
    if Tail(part) >= times {
      assert Constant(prints, |part| - times, times);
      assert false;
    }
  }

  lemma {:induction false} PrintsGrow(u: Setup, n: nat, m: nat)
    requires n <= m
    ensures Prints(u, n) <= Prints(u, m)
    decreases m
  {
    if n < m {
      PrintsGrow(u, n, m - 1);
    }
  }

  lemma {:induction false} SpentGrows(u: Setup, n: nat, m: nat)
    requires n <= m && Spent(u, m).Some?
    ensures Spent(u, n).Some? && Spent(u, n).value <= Spent(u, m).value
    decreases m
  {
    if n < m {
      SpentGrows(u, n, m - 1);
    }
  }

  // ---------------------------------------------------------------- the condition

  /** The clock stays within one time budget from `low` on. */
  ghost predicate InTime(u: Setup, low: real) {
    forall i :: low <= u.tape(i) < low + u.goal.wallClock
  }

  /** Nothing about the run but its candidates can stop it. */
  ghost predicate Quiet(u: Setup, threshold: nat, low: real) {
    && ValidGoal(u.goal) && threshold >= 2
    && !u.extensionsFailed
    && InTime(u, low)
    && (forall n :: 1 <= n <= u.goal.maxPasses ==> WellFormed(u.harness(n)) && u.harness(n).halt == None)
    && Spent(u, u.goal.maxPasses).Some? && Spent(u, u.goal.maxPasses).value < u.goal.tokenBudget
    && !Stalls(Prints(u, u.goal.maxPasses), threshold)
  }

  // ---------------------------------------------------------------- the standard brakes along a quiet run

  /** The standard brakes after `n` passes, `tokens` tokens and the given tool invocations. */
  ghost predicate Standing(s: State, threshold: nat, n: nat, prints: seq<Fingerprint>, low: real) {
    && |s.brakes| == 4 && s.tokens.Some?
    && s.brakes[0] == MaxIteration(n)
    && s.brakes[1].Budget? && s.brakes[1].tokens == s.tokens.value
    && (s.brakes[1].start.Some? ==> s.brakes[1].start.value >= low)
    && s.brakes[2].NoProgress? && s.brakes[2].threshold == threshold
    && s.brakes[2].streak == Tail(prints)
    && s.brakes[2].last == (if prints == [] then None else Some(prints[|prints| - 1]))
    && s.brakes[3].Completion?
  }

  ghost predicate Became(u: Setup, b: BrakeState, e: Event, b': BrakeState) {
    exists t :: b' == Updated(b, u.goal, u.tape, t, e).brake
  }

  /** The brakes after an event, one by one; only the clock readings differ from feeding them separately. */
  lemma {:induction false} FedEach(u: Setup, s: State, e: Event, k: nat, i: nat)
    requires i < k <= |s.brakes|
    ensures Became(u, s.brakes[i], e, Fed(u, s, e, k).brakes[i])
  {
    if i < k - 1 {
      FedEach(u, s, e, k - 1, i);
    } else {
      FedLeaves(u, s, e, i);
      var p := Fed(u, s, e, i);
      assert p.brakes[i..][0] == s.brakes[i..][0];
      assert Fed(u, s, e, k).brakes[i] == Updated(s.brakes[i], u.goal, u.tape, p.ticks, e).brake;
    }
  }

  /** Whatever the clock says, the brake does not answer the event with the action. */
  ghost predicate Accepts(u: Setup, b: BrakeState, e: Event, action: Action) {
    forall t :: Updated(b, u.goal, u.tape, t, e).trip.Some? ==>
      Updated(b, u.goal, u.tape, t, e).trip.value.action != action
  }

  lemma {:induction false} FedStaysClear(u: Setup, s: State, e: Event, k: nat, action: Action)
    requires k <= |s.brakes| && !HasAction(s.trips, action)
    requires forall i :: 0 <= i < k ==> Accepts(u, s.brakes[i], e, action)
    ensures !HasAction(Fed(u, s, e, k).trips, action)
  {
    if k > 0 {
      FedStaysClear(u, s, e, k - 1, action);
      FedLeaves(u, s, e, k - 1);
      var p := Fed(u, s, e, k - 1);
      assert p.brakes[k - 1..][0] == s.brakes[k - 1..][0];
      assert Accepts(u, s.brakes[k - 1], e, action);
    }
  }

  ghost function After(prints: seq<Fingerprint>, e: Event): seq<Fingerprint> {
    if e.Tool? then prints + [FingerprintOf(e.observation)] else prints
  }

  lemma FeedStands(u: Setup, s: State, threshold: nat, n: nat, prints: seq<Fingerprint>, e: Event, low: real)
    requires InTime(u, low)
    requires Standing(s, threshold, n, prints, low)
    ensures Standing(Feed(u, s, e).(tokens := Some(s.tokens.value + if e.Response? then e.used else 0)), threshold,
              n + if e.PassComplete? then 1 else 0, After(prints, e), low)
  {
    var r := Feed(u, s, e);
    FeedLeaves(u, s, e);
    FedEach(u, s, e, 4, 0);
    PassesStand(u, s.brakes[0], e, r.brakes[0]);
    FedEach(u, s, e, 4, 1);
    TokensStand(u, s.brakes[1], e, r.brakes[1], low);
    FedEach(u, s, e, 4, 2);
    ProgressStands(u, s.brakes[2], prints, e, r.brakes[2]);
    FedEach(u, s, e, 4, 3);
    CompletionStands(u, s.brakes[3], e, r.brakes[3]);
  }

  lemma PassesStand(u: Setup, b: BrakeState, e: Event, b': BrakeState)
    requires b.MaxIteration? && Became(u, b, e, b')
    ensures b' == MaxIteration(b.count + if e.PassComplete? then 1 else 0)
  {
  }

  lemma TokensStand(u: Setup, b: BrakeState, e: Event, b': BrakeState, low: real)
    requires b.Budget? && Became(u, b, e, b') && InTime(u, low) && (b.start.Some? ==> b.start.value >= low)
    ensures b'.Budget? && b'.tokens == b.tokens + if e.Response? then e.used else 0
    ensures b'.start.Some? ==> b'.start.value >= low
  {
  }

  lemma ProgressStands(u: Setup, b: BrakeState, prints: seq<Fingerprint>, e: Event, b': BrakeState)
    requires b.NoProgress? && Became(u, b, e, b')
    requires b.streak == Tail(prints) && b.last == if prints == [] then None else Some(prints[|prints| - 1])
    ensures b'.NoProgress? && b'.threshold == b.threshold && b'.streak == Tail(After(prints, e))
    ensures var after := After(prints, e);
      b'.last == if after == [] then None else Some(after[|after| - 1])
  {
    if e.Tool? {
      TailAfter(prints, FingerprintOf(e.observation));
    }
  }

  lemma CompletionStands(u: Setup, b: BrakeState, e: Event, b': BrakeState)
    requires b.Completion? && Became(u, b, e, b')
    ensures b'.Completion?
  {
  }

  /** The event gives none of the standard brakes a reason to answer with the action. */
  ghost predicate Unremarkable(u: Setup, s: State, threshold: nat, n: nat, prints: seq<Fingerprint>, e: Event,
      low: real, action: Action)
    requires s.tokens.Some?
  {
    && action != Continue
    && InTime(u, low)
    && (e.Response? ==> s.tokens.value + e.used < u.goal.tokenBudget)
    && (e.Tool? ==> Tail(After(prints, e)) < threshold)
    && (e.PassComplete? ==> n + 1 < u.goal.maxPasses || e.overall || action == Abort)
  }

  lemma FeedStaysClear(u: Setup, s: State, threshold: nat, n: nat, prints: seq<Fingerprint>, e: Event, low: real,
      action: Action)
    requires Standing(s, threshold, n, prints, low) && !HasAction(s.trips, action)
    requires Unremarkable(u, s, threshold, n, prints, e, low, action)
    ensures !HasAction(Feed(u, s, e).trips, action)
  {
    if e.Tool? {
      TailAfter(prints, FingerprintOf(e.observation));
    }
    assert Accepts(u, s.brakes[1], e, action);
    FedStaysClear(u, s, e, 4, action);
  }

  // ---------------------------------------------------------------- a quiet pass

  /** A state along a quiet run that an action has not been called for. */
  ghost predicate Clear(s: State, threshold: nat, n: nat, prints: seq<Fingerprint>, low: real, action: Action) {
    Standing(s, threshold, n, prints, low) && !HasAction(s.trips, action) && action != Continue
  }

  lemma QuietResponse(u: Setup, s: State, threshold: nat, n: nat, prints: seq<Fingerprint>, used: nat, low: real,
      action: Action)
    requires InTime(u, low) && Clear(s, threshold, n, prints, low, action)
    requires s.tokens.value + used < u.goal.tokenBudget
    ensures Clear(Feed(u, s, Response(used)).(tokens := Some(s.tokens.value + used)), threshold, n, prints, low, action)
  {
    FeedStands(u, s, threshold, n, prints, Response(used), low);
    FeedStaysClear(u, s, threshold, n, prints, Response(used), low, action);
  }

  lemma QuietCharge(u: Setup, s: State, threshold: nat, n: nat, prints: seq<Fingerprint>, used: nat, low: real,
      action: Action)
    requires InTime(u, low) && Clear(s, threshold, n, prints, low, action)
    requires s.tokens.value + used < u.goal.tokenBudget
    ensures Clear(Charged(u, s, Some(used)), threshold, n, prints, low, action)
    ensures Charged(u, s, Some(used)).tokens == Some(s.tokens.value + used)
  {
    QuietResponse(u, s, threshold, n, prints, used, low, action);
    FeedIgnoresTokens(u, s, Some(s.tokens.value + used), Response(used), |s.brakes|);
  }

  lemma {:induction false} FeedIgnoresTokens(u: Setup, s: State, tokens: Option<nat>, e: Event, k: nat)
    requires k <= |s.brakes|
    ensures Fed(u, s.(tokens := tokens), e, k) == Fed(u, s, e, k).(tokens := tokens)
  {
    if k > 0 {
      FeedIgnoresTokens(u, s, tokens, e, k - 1);
    }
  }

  lemma {:induction false} QuietObservations(u: Setup, s: State, threshold: nat, n: nat, prints: seq<Fingerprint>,
      observations: seq<Observation>, all: seq<Fingerprint>, low: real, action: Action)
    requires Clear(s, threshold, n, prints, low, action)
    requires InTime(u, low)
    requires prints + PrintsOf(observations) <= all && !Stalls(all, threshold) && threshold > 0
    ensures Clear(Observed(u, s, observations), threshold, n, prints + PrintsOf(observations), low, action)
    ensures Observed(u, s, observations).tokens == s.tokens
  {
    if observations == [] {
      assert prints + [] == prints;
    } else {
      var k := |observations| - 1;
      var front := PrintsOf(observations[..k]);
      PrintsOfLast(observations);
      assert prints + PrintsOf(observations) ==
        (prints + front) + if observations[k].kind == TOOL_INVOKED then [FingerprintOf(observations[k])] else [];
      QuietObservations(u, s, threshold, n, prints, observations[..k], all, low, action);
      if observations[k].kind == TOOL_INVOKED {
        var p, e := Observed(u, s, observations[..k]), Tool(observations[k]);
        NoStallNoTail(all, After(prints + front, e), threshold);
        FeedStands(u, p, threshold, n, prints + front, e, low);
        FeedStaysClear(u, p, threshold, n, prints + front, e, low, action);
        FeedLeaves(u, p, e);
      } else {
        assert prints + PrintsOf(observations) == prints + front;
      }
    }
  }

  /**
   * After a quiet pass nothing has aborted the run, and nothing escalates it unless it was the last and did not
   * succeed.
   */
  lemma QuietPass(u: Setup, s: State, threshold: nat, n: nat, start: nat, low: real, action: Action)
    requires Quiet(u, threshold, low) && 0 < n <= u.goal.maxPasses
    requires Clear(s, threshold, n - 1, Prints(u, n - 1), low, action) && s.tokens == Spent(u, n - 1)
    requires !HasAction(s.trips, Abort)
    requires action == Abort || n < u.goal.maxPasses || Met(u, n)
    ensures Clear(Passed(u, s, u.tape(start), n), threshold, n, Prints(u, n), low, action)
  {
    QuietActing(u, s, threshold, n, start, low, action);
    QuietActing(u, s, threshold, n, start, low, Abort);
    var a := Acted(u, s, u.tape(start), u.harness(n));
    QuietJudging(u, a, threshold, n - 1, Prints(u, n), CandidateOf(u, n), low, action);
    var b := Judged(u, a, CandidateOf(u, n));
    QuietClock(u, b, start, low);
    QuietClosing(u, Ticked(b), threshold, n, Prints(u, n), low, action);
  }

  lemma QuietActing(u: Setup, s: State, threshold: nat, n: nat, start: nat, low: real, action: Action)
    requires Quiet(u, threshold, low) && 0 < n <= u.goal.maxPasses
    requires Clear(s, threshold, n - 1, Prints(u, n - 1), low, action) && s.tokens == Spent(u, n - 1)
    ensures Clear(Acted(u, s, u.tape(start), u.harness(n)), threshold, n - 1, Prints(u, n), low, action)
  {
    var reply := u.harness(n);
    SpentGrows(u, n, u.goal.maxPasses);
    PrintsGrow(u, n, u.goal.maxPasses);
    QuietCharge(u, s, threshold, n - 1, Prints(u, n - 1), reply.used.value, low, action);
    var a := Charged(u, s, reply.used);
    QuietObservations(u, a, threshold, n - 1, Prints(u, n - 1), reply.observations.value,
      Prints(u, u.goal.maxPasses), low, action);
  }

  lemma QuietJudging(u: Setup, a: State, threshold: nat, n: nat, prints: seq<Fingerprint>, candidate: Json, low: real,
      action: Action)
    requires InTime(u, low)
    requires Clear(a, threshold, n, prints, low, action) && !HasAction(a.trips, Abort)
    ensures Clear(Judged(u, a, candidate), threshold, n, prints, low, action)
    ensures Judged(u, a, candidate).report == Some(ReportOf(u.evaluators, u.goal.criteria, candidate))
  {
    var r := ReportOf(u.evaluators, u.goal.criteria, candidate);
    var b := a.(report := Some(r));
    FeedStands(u, b, threshold, n, prints, Verified(r), low);
    FeedStaysClear(u, b, threshold, n, prints, Verified(r), low, action);
    FeedLeaves(u, b, Verified(r));
  }

  lemma QuietClock(u: Setup, a: State, start: nat, low: real)
    requires InTime(u, low)
    ensures ClockChecked(u, a, u.tape(start)) == Ticked(a)
  {
    assert u.tape(a.ticks) < low + u.goal.wallClock && low <= u.tape(start);
  }

  lemma QuietClosing(u: Setup, a: State, threshold: nat, n: nat, prints: seq<Fingerprint>, low: real, action: Action)
    requires InTime(u, low) && n > 0
    requires Clear(a, threshold, n - 1, prints, low, action)
    requires action == Abort || n < u.goal.maxPasses || Passing(a)
    ensures Clear(Closed(u, a, n), threshold, n, prints, low, action)
  {
    var e := PassComplete(n, Passing(a));
    FeedStands(u, a, threshold, n - 1, prints, e, low);
    FeedStaysClear(u, a, threshold, n - 1, prints, e, low, action);
    FeedLeaves(u, a, e);
    var r := Feed(u, a, e);
    assert action == Abort ==> !HasAction(Recorded(r.trips, Trip(MaxIterationName, MaxPassesReached, Escalate)), Abort);
  }

  // ---------------------------------------------------------------- the theorem

  /** The run ended with the first candidate that meets the goal, or was escalated after the last pass met none. */
  ghost predicate EndsWithFirst(u: Setup, r: Ending) {
    && r.Ended? && r.passes > 0
    && (forall k :: 1 <= k < r.passes ==> !Met(u, k))
    && (if Met(u, r.passes) then r.outcome == Success else r.outcome == Escalated && r.passes == u.goal.maxPasses)
  }

  ghost function Onward(u: Setup, after: State, start: real, n: nat): Ending {
    match Verdict(after)
    case Some(outcome) => Ended(outcome, n, after)
    case None => From(u, after.(trips := []), start, n + 1)
  }

  lemma QuietStep(u: Setup, s: State, n: nat, start: nat, low: real) returns (after: State)
    requires 0 < n <= u.goal.maxPasses && InTime(u, low) && s.trips == [] && WellFormed(u.harness(n))
    ensures after == Passed(u, Ticked(s), u.tape(start), n)
    ensures From(u, s, u.tape(start), n) == Onward(u, after, u.tape(start), n)
  {
    QuietClock(u, s, start, low);
    after := Passed(u, Ticked(s), u.tape(start), n);
  }

  /** After a quiet pass the run goes on unless it has succeeded or this was the last pass. */
  lemma QuietVerdict(u: Setup, s: State, threshold: nat, n: nat, start: nat, low: real)
    requires Quiet(u, threshold, low) && 0 < n <= u.goal.maxPasses
    requires Standing(s, threshold, n - 1, Prints(u, n - 1), low) && s.trips == [] && s.tokens == Spent(u, n - 1)
    ensures var after := Passed(u, s, u.tape(start), n);
      && Standing(after, threshold, n, Prints(u, n), low)
      && !HasAction(after.trips, Abort)
      && (n < u.goal.maxPasses || Met(u, n) ==> !HasAction(after.trips, Escalate))
  {
    QuietPass(u, s, threshold, n, start, low, Abort);
    if n < u.goal.maxPasses || Met(u, n) {
      QuietPass(u, s, threshold, n, start, low, Escalate);
    }
  }

  lemma QuietTurn(u: Setup, s: State, threshold: nat, n: nat, start: nat, low: real) returns (after: State)
    requires Quiet(u, threshold, low) && 0 < n <= u.goal.maxPasses
    requires Standing(s, threshold, n - 1, Prints(u, n - 1), low) && s.trips == [] && Underway(u, s, n - 1)
    ensures From(u, s, u.tape(start), n) == Onward(u, after, u.tape(start), n)
    ensures PassMeans(u, s.tokens, n, after)
    ensures Standing(after, threshold, n, Prints(u, n), low) && !HasAction(after.trips, Abort)
    ensures n < u.goal.maxPasses || Met(u, n) ==> !HasAction(after.trips, Escalate)
  {
    var s' := Ticked(s);
    assert Agree(s', n - 1);
    assert Standing(s', threshold, n - 1, Prints(u, n - 1), low);
    after := QuietStep(u, s, n, start, low);
    PassMeaning(u, s', u.tape(start), n);
    QuietVerdict(u, s', threshold, n, start, low);
  }

  lemma {:induction false} QuietFrom(u: Setup, s: State, threshold: nat, n: nat, start: nat, low: real)
    requires Quiet(u, threshold, low) && 0 < n <= u.goal.maxPasses
    requires Standing(s, threshold, n - 1, Prints(u, n - 1), low) && s.trips == [] && Underway(u, s, n - 1)
    ensures EndsWithFirst(u, From(u, s, u.tape(start), n))
    decreases u.goal.maxPasses - n
  {
    var after := QuietTurn(u, s, threshold, n, start, low);
    QuietOnward(u, s, threshold, n, start, low, after);
  }

  lemma {:induction false} QuietOnward(u: Setup, s: State, threshold: nat, n: nat, start: nat, low: real, after: State)
    requires Quiet(u, threshold, low) && 0 < n <= u.goal.maxPasses && Underway(u, s, n - 1)
    requires PassMeans(u, s.tokens, n, after)
    requires Standing(after, threshold, n, Prints(u, n), low) && !HasAction(after.trips, Abort)
    requires n < u.goal.maxPasses || Met(u, n) ==> !HasAction(after.trips, Escalate)
    ensures EndsWithFirst(u, Onward(u, after, u.tape(start), n))
    decreases u.goal.maxPasses - n, 0
  {
    if Verdict(after).None? {
      assert WellFormed(u.harness(n));
      Advance(u, s, n, after);
      QuietFrom(u, after.(trips := []), threshold, n + 1, start, low);
    } else {
      QuietEnd(u, s, n, after);
    }
  }

  lemma QuietEnd(u: Setup, s: State, n: nat, after: State)
    requires 0 < n <= u.goal.maxPasses && Underway(u, s, n - 1) && PassMeans(u, s.tokens, n, after)
    requires Verdict(after).Some?
    requires !HasAction(after.trips, Abort) && (n < u.goal.maxPasses || Met(u, n) ==> !HasAction(after.trips, Escalate))
    ensures EndsWithFirst(u, Ended(Verdict(after).value, n, after))
  {
    forall k | 1 <= k < n
      ensures !Met(u, k)
    {
      assert Undecisive(u, k);
    }
  }

  lemma QuietRunEndsWithFirst(u: Setup, threshold: nat, ticks: nat, low: real)
    requires Quiet(u, threshold, low)
    ensures EndsWithFirst(u, Run(u, Standard(threshold), ticks))
  {
    var brakes := Standard(threshold);
    var s := Armed(brakes, ticks);
    assert s.brakes == brakes;
    QuietOpening(u, s, threshold, low);
    OpenedAgrees(u, brakes, ticks);
    QuietFrom(u, Opened(u, brakes, ticks), threshold, 1, ticks, low);
  }

  lemma QuietOpening(u: Setup, s: State, threshold: nat, low: real)
    requires Quiet(u, threshold, low) && s.brakes == Standard(threshold) && s.trips == [] && s.tokens == Some(0)
    ensures Standing(Feed(u, s, RunOpened), threshold, 0, [], low) && Feed(u, s, RunOpened).trips == []
  {
    FeedStands(u, s, threshold, 0, [], RunOpened, low);
    FeedLeaves(u, s, RunOpened);
    var a := Fed(u, s, RunOpened, 1);
    var b := Fed(u, s, RunOpened, 2);
    var c := Fed(u, s, RunOpened, 3);
    assert a.trips == [] && b.trips == [] && c.trips == [];
  }
}
