/** What a run feeds to its brakes, when it looks at the clock, and what it makes of both (residual/loop.py). */
module Accounts {
  import opened Basics
  import opened Goals
  import opened Brakes
  import opened Loop

  // ---------------------------------------------------------------- what is kept of brakes and clock

  /** Every brake remembers exactly what has been fed. */
  ghost predicate Attentive(s: State) {
    forall i :: 0 <= i < |s.brakes| ==> Remembers(s.brakes[i], s.events)
  }

  /** What a brake calls for, short of going on, is on record. */
  ghost predicate HeededAt(g: Goal, b: BrakeState, events: seq<Event>, trips: seq<Trip>)
    requires events != []
  {
    Demand(b, g, events).Some? && Demand(b, g, events).value != Continue ==>
      HasAction(trips, Demand(b, g, events).value)
  }

  /** Whatever any brake has called for at any event is on record. */
  ghost predicate Heeded(g: Goal, s: State) {
    forall i, k :: 0 <= i < |s.brakes| && 0 < k <= |s.events| ==> HeededAt(g, s.brakes[i], s.events[..k], s.trips)
  }

  /** When the controller has found the time used up, an abort is on record. */
  ghost predicate Prompt(u: Setup, start: real, s: State) {
    forall i :: 0 <= i < |s.checks| && u.tape(s.checks[i]) - start >= u.goal.wallClock ==> HasAction(s.trips, Abort)
  }

  ghost predicate Faithful(u: Setup, start: real, s: State) {
    Attentive(s) && Heeded(u.goal, s) && Prompt(u, start, s)
  }

  /** More trips, and nothing else that matters. */
  ghost predicate MoreTrips(s: State, r: State) {
    r.brakes == s.brakes && r.events == s.events && r.checks == s.checks && s.trips <= r.trips
  }

  lemma MoreTripsStayFaithful(u: Setup, start: real, s: State, r: State)
    requires Faithful(u, start, s) && MoreTrips(s, r)
    ensures Faithful(u, start, r)
  {
    HasGrows(s.trips, r.trips, BudgetName, Abort);
    HasGrows(s.trips, r.trips, BudgetName, Escalate);
    forall i, k | 0 <= i < |r.brakes| && 0 < k <= |r.events|
      ensures HeededAt(u.goal, r.brakes[i], r.events[..k], r.trips)
    {
      assert HeededAt(u.goal, s.brakes[i], s.events[..k], s.trips);
    }
  }

  lemma ForcedIsFaithful(u: Setup, start: real, s: State, t: Trip)
    requires Faithful(u, start, s)
    ensures Faithful(u, start, Forced(s, t))
  {
    RecordedHas(s.trips, t);
    MoreTripsStayFaithful(u, start, s, Forced(s, t));
  }

  // ---------------------------------------------------------------- one event

  /** What feeding an event does for one brake: it remembers it, and what the event calls for is on record. */
  ghost predicate Fed1(u: Setup, s: State, e: Event, r: State, i: nat)
    requires i < |s.brakes| && i < |r.brakes|
  {
    && Remembers(r.brakes[i], s.events + [e]) && SameBrake(s.brakes[i], r.brakes[i])
    && (var demand := Demand(s.brakes[i], u.goal, s.events + [e]);
        demand.Some? ==> HasAction(r.trips, demand.value))
  }

  lemma {:induction false} FedIsHeeded(u: Setup, s: State, e: Event, k: nat)
    requires k <= |s.brakes| && Attentive(s)
    ensures forall i :: 0 <= i < k ==> Fed1(u, s, e, Fed(u, s, e, k), i)
  {
    if k > 0 {
      FedIsHeeded(u, s, e, k - 1);
      FedLeaves(u, s, e, k - 1);
      var p, r := Fed(u, s, e, k - 1), Fed(u, s, e, k);
      assert p.brakes[k - 1..][0] == s.brakes[k - 1..][0];
      DemandIsMet(s.brakes[k - 1], u.goal, u.tape, p.ticks, s.events, e);
      UpdatedRemembers(s.brakes[k - 1], u.goal, u.tape, p.ticks, s.events, e);
      var step := Updated(s.brakes[k - 1], u.goal, u.tape, p.ticks, e);
      if step.trip.Some? {
        RecordedHas(p.trips, step.trip.value);
      }
      forall i | 0 <= i < k - 1
        ensures Fed1(u, s, e, r, i)
      {
        assert Fed1(u, s, e, p, i) && r.brakes[i] == p.brakes[i];
        HasGrows(p.trips, r.trips, BudgetName, Abort);
        HasGrows(p.trips, r.trips, BudgetName, Escalate);
        HasGrows(p.trips, r.trips, BudgetName, Continue);
      }
    }
  }

  lemma SameBrakeSameDemand(b: BrakeState, b': BrakeState, g: Goal, events: seq<Event>)
    requires SameBrake(b, b') && events != []
    ensures Demand(b, g, events) == Demand(b', g, events)
  {
  }

  lemma FeedIsFaithful(u: Setup, start: real, s: State, e: Event)
    requires Faithful(u, start, s)
    ensures Faithful(u, start, Feed(u, s, e))
  {
    FedIsHeeded(u, s, e, |s.brakes|);
    FeedLeaves(u, s, e);
    var r := Feed(u, s, e);
    HasGrows(s.trips, r.trips, BudgetName, Abort);
    HasGrows(s.trips, r.trips, BudgetName, Escalate);
    forall i | 0 <= i < |r.brakes|
      ensures Remembers(r.brakes[i], r.events)
    {
      assert Fed1(u, s, e, Fed(u, s, e, |s.brakes|), i);
    }
    forall i, k | 0 <= i < |r.brakes| && 0 < k <= |r.events|
      ensures HeededAt(u.goal, r.brakes[i], r.events[..k], r.trips)
    {
      FeedIsHeededAt(u, start, s, e, i, k);
    }
  }

  lemma FeedIsHeededAt(u: Setup, start: real, s: State, e: Event, i: nat, k: nat)
    requires Faithful(u, start, s) && i < |s.brakes| && 0 < k <= |s.events| + 1
    requires Fed1(u, s, e, Fed(u, s, e, |s.brakes|), i) && s.trips <= Feed(u, s, e).trips
    ensures var r := Feed(u, s, e);
      k <= |r.events| && i < |r.brakes| && HeededAt(u.goal, r.brakes[i], r.events[..k], r.trips)
  {
    var r := Feed(u, s, e);
    FedLeaves(u, s, e, |s.brakes|);
    SameBrakeSameDemand(s.brakes[i], r.brakes[i], u.goal, r.events[..k]);
    if k <= |s.events| {
      assert r.events[..k] == s.events[..k];
      assert HeededAt(u.goal, s.brakes[i], s.events[..k], s.trips);
      HasGrows(s.trips, r.trips, BudgetName, Abort);
      HasGrows(s.trips, r.trips, BudgetName, Escalate);
    } else {
      assert r.events[..k] == s.events + [e];
    }
  }

  lemma ClockIsFaithful(u: Setup, start: real, s: State)
    requires Faithful(u, start, s)
    ensures var r := ClockChecked(u, s, start);
      && Faithful(u, start, r) && r.events == s.events && r.checks == s.checks + [s.ticks] && s.trips <= r.trips
      && (u.tape(s.ticks) - start >= u.goal.wallClock ==> HasAction(r.trips, Abort))
  {
    var r := ClockChecked(u, s, start);
    RecordedHas(s.trips, Trip(BudgetName, WallClockExhausted, Abort));
    MoreTripsStayFaithful(u, start, s, s.(trips := r.trips));
    forall i, k | 0 <= i < |r.brakes| && 0 < k <= |r.events|
      ensures HeededAt(u.goal, r.brakes[i], r.events[..k], r.trips)
    {
      assert HeededAt(u.goal, s.(trips := r.trips).brakes[i], s.(trips := r.trips).events[..k], r.trips);
    }
  }

  // ---------------------------------------------------------------- one pass

  ghost function Usage(reply: Reply): seq<Event> {
    if reply.used.Some? && reply.used.value >= 0 then [Response(reply.used.value)] else []
  }

  ghost function Observations(reply: Reply): seq<Event> {
    if reply.observations.Some? then ToolEvents(reply.observations.value) else []
  }

  ghost function Judgement(u: Setup, n: nat): Report {
    ReportOf(u.evaluators, u.goal.criteria, CandidateOf(u, n))
  }

  /** What pass `n` feeds to the brakes, in terms of the worker's reply. */
  ghost function PassEvents(u: Setup, n: nat, judged: bool): seq<Event> {
    Usage(u.harness(n)) + Observations(u.harness(n)) + (if judged then [Verified(Judgement(u, n))] else [])
      + [PassComplete(n, judged && Judgement(u, n).overall)]
  }

  lemma ChargedIsFaithful(u: Setup, start: real, s: State, reply: Reply)
    requires Faithful(u, start, s) && s.tokens.Some?
    ensures var r := Charged(u, s, reply.used);
      && Faithful(u, start, r) && r.events == s.events + Usage(reply) && r.checks == s.checks
      && (r.tokens.None? || r.tokens.value >= u.goal.tokenBudget ==> HasAction(r.trips, Abort))
  {
    if reply.used.None? || reply.used.value < 0 {
      var s' := s.(tokens := None);
      MoreTripsStayFaithful(u, start, s, s');
      ForcedIsFaithful(u, start, s', Trip(BudgetName, UsageUnknown, Abort));
      RecordedHas(s'.trips, Trip(BudgetName, UsageUnknown, Abort));
    } else {
      var total := s.tokens.value + reply.used.value;
      var s' := s.(tokens := Some(total));
      MoreTripsStayFaithful(u, start, s, s');
      FeedIsFaithful(u, start, s', Response(reply.used.value));
      FeedLeaves(u, s', Response(reply.used.value));
      var fed := Feed(u, s', Response(reply.used.value));
      ForcedIsFaithful(u, start, fed, Trip(BudgetName, TokenBudgetExhausted, Abort));
      RecordedHas(fed.trips, Trip(BudgetName, TokenBudgetExhausted, Abort));
    }
  }

  lemma {:induction false} ObservedIsFaithful(u: Setup, start: real, s: State, observations: seq<Observation>)
    requires Faithful(u, start, s)
    ensures var r := Observed(u, s, observations);
      && Faithful(u, start, r) && r.events == s.events + ToolEvents(observations) && r.checks == s.checks
      && r.tokens == s.tokens && s.trips <= r.trips
  {
    if observations != [] {
      var n := |observations| - 1;
      ObservedIsFaithful(u, start, s, observations[..n]);
      var p := Observed(u, s, observations[..n]);
      FeedIsFaithful(u, start, p, Tool(observations[n]));
      FeedLeaves(u, p, Tool(observations[n]));
    }
  }

  /** The pass up to the verification: its events, and the reading of the clock that may forbid verifying. */
  lemma ActedIsFaithful(u: Setup, start: real, s: State, reply: Reply)
    requires Faithful(u, start, s) && s.tokens.Some? && WellFormed(reply)
    ensures var r := Acted(u, s, start, reply);
      && Faithful(u, start, r) && r.events == s.events + Usage(reply) + Observations(reply)
      && |r.checks| == |s.checks| + 1 && r.checks[..|s.checks|] == s.checks
      && (r.tokens.None? || r.tokens.value >= u.goal.tokenBudget ==> HasAction(r.trips, Abort))
      && (u.tape(r.checks[|s.checks|]) - start >= u.goal.wallClock ==> HasAction(r.trips, Abort))
  {
    ChargedIsFaithful(u, start, s, reply);
    var a := Charged(u, s, reply.used);
    ObservedIsFaithful(u, start, a, reply.observations.value);
    var b := Observed(u, a, reply.observations.value);
    var c := Stopped(b, reply.halt);
    if reply.halt.Some? {
      ForcedIsFaithful(u, start, b, Trip(Dispatch, Halted(reply.halt.value), Escalate));
      RecordedHas(b.trips, Trip(Dispatch, Halted(reply.halt.value), Escalate));
    }
    ClockIsFaithful(u, start, c);
    HasGrows(a.trips, Acted(u, s, start, reply).trips, BudgetName, Abort);
  }

  lemma JudgedIsFaithful(u: Setup, start: real, s: State, candidate: Json)
    requires Faithful(u, start, s)
    ensures var r, report := Judged(u, s, candidate), ReportOf(u.evaluators, u.goal.criteria, candidate);
      && Faithful(u, start, r) && r.checks == s.checks && r.tokens == s.tokens
      && (HasAction(s.trips, Abort) ==> r.report.None? && r.events == s.events)
      && (!HasAction(s.trips, Abort) ==> r.report == Some(report) && r.events == s.events + [Verified(report)])
  {
    if HasAction(s.trips, Abort) {
      MoreTripsStayFaithful(u, start, s, s.(report := None));
    } else {
      var report := ReportOf(u.evaluators, u.goal.criteria, candidate);
      var s' := s.(report := Some(report));
      MoreTripsStayFaithful(u, start, s, s');
      FeedIsFaithful(u, start, s', Verified(report));
      FeedLeaves(u, s', Verified(report));
    }
  }

  lemma ClosedIsFaithful(u: Setup, start: real, s: State, n: nat)
    requires Faithful(u, start, s)
    ensures var r := Closed(u, s, n);
      && Faithful(u, start, r) && r.events == s.events + [PassComplete(n, Passing(s))] && r.checks == s.checks
      && r.report == s.report && r.tokens == s.tokens
  {
    var e := PassComplete(n, Passing(s));
    FeedIsFaithful(u, start, s, e);
    FeedLeaves(u, s, e);
    ForcedIsFaithful(u, start, Feed(u, s, e), Trip(MaxIterationName, MaxPassesReached, Escalate));
    RecordedHas(Feed(u, s, e).trips, Trip(MaxIterationName, MaxPassesReached, Escalate));
  }

  /** What pass `n` feeds to the brakes before it closes. */
  ghost function OpenEvents(u: Setup, n: nat, judged: bool): seq<Event> {
    Usage(u.harness(n)) + Observations(u.harness(n)) + if judged then [Verified(Judgement(u, n))] else []
  }

  /** A candidate is verified by its criteria, and not at all once the tokens or the time are used up. */
  ghost predicate Sparing(u: Setup, start: real, n: nat, r: State, check: nat) {
    && (r.report.Some? ==> r.report.value == Judgement(u, n))
    && (r.tokens.None? || r.tokens.value >= u.goal.tokenBudget ==> r.report.None?)
    && (check < |r.checks| && u.tape(r.checks[check]) - start >= u.goal.wallClock ==> r.report.None?)
  }

  ghost predicate KeptOpen(u: Setup, start: real, s: State, n: nat, r: State) {
    && Faithful(u, start, r) && r.events == s.events + OpenEvents(u, n, r.report.Some?)
    && |r.checks| == |s.checks| + 2 && r.checks[..|s.checks|] == s.checks
    && Sparing(u, start, n, r, |s.checks|)
  }

  /** What is kept over pass `n`. */
  ghost predicate PassKept(u: Setup, start: real, s: State, n: nat, r: State) {
    && Faithful(u, start, r) && r.events == s.events + PassEvents(u, n, r.report.Some?)
    && |r.checks| == |s.checks| + 2 && r.checks[..|s.checks|] == s.checks
    && Sparing(u, start, n, r, |s.checks|)
  }

  lemma OpenPassIsFaithful(u: Setup, start: real, s: State, n: nat)
    requires Faithful(u, start, s) && s.tokens.Some? && WellFormed(u.harness(n))
    ensures var judged := Judged(u, Acted(u, s, start, u.harness(n)), CandidateOf(u, n));
      KeptOpen(u, start, s, n, ClockChecked(u, judged, start))
  {
    var reply := u.harness(n);
    ActedIsFaithful(u, start, s, reply);
    var a := Acted(u, s, start, reply);
    JudgedIsFaithful(u, start, a, CandidateOf(u, n));
    var b := Judged(u, a, CandidateOf(u, n));
    ClockIsFaithful(u, start, b);
    var c := ClockChecked(u, b, start);
    assert c.report == b.report && c.tokens == b.tokens;
    assert c.checks[..|a.checks|] == a.checks;
  }

  lemma PassIsFaithful(u: Setup, start: real, s: State, n: nat)
    requires Faithful(u, start, s) && s.tokens.Some? && WellFormed(u.harness(n))
    ensures PassKept(u, start, s, n, Passed(u, s, start, n))
  {
    OpenPassIsFaithful(u, start, s, n);
    var c := ClockChecked(u, Judged(u, Acted(u, s, start, u.harness(n)), CandidateOf(u, n)), start);
    ClosedIsFaithful(u, start, c, n);
    PassCloses(u, start, s, n, c, Closed(u, c, n));
  }

  lemma PassCloses(u: Setup, start: real, s: State, n: nat, c: State, r: State)
    requires KeptOpen(u, start, s, n, c) && Faithful(u, start, r)
    requires r.events == c.events + [PassComplete(n, Passing(c))] && r.checks == c.checks
    requires r.report == c.report && r.tokens == c.tokens
    ensures PassKept(u, start, s, n, r)
  {
  }

  // ---------------------------------------------------------------- whole runs

  /** Everything that passes 1 to `n` feed to the brakes; only the candidate of the last one may go unjudged. */
  ghost function History(u: Setup, n: nat, judged: bool): seq<Event> {
    if n == 0 then [RunOpened] else History(u, n - 1, true) + PassEvents(u, n, judged)
  }

  /** What holds when pass `n + 1` is about to start. */
  ghost predicate Ongoing(u: Setup, start: real, s: State, n: nat) {
    && Faithful(u, start, s) && s.tokens.Some? && (s.report.Some? <==> n > 0)
    && s.events == History(u, n, true) && |s.checks| == 3 * n
    && (n > 0 ==> Sparing(u, start, n, s, 3 * n - 2))
  }

  /**
   * What every ending has on record: the brakes were fed exactly what the worker's replies and the verdicts on them
   * call for, in order; whatever they called for, and any time the clock was found to be up, is among the trips; and
   * the clock was looked at three times for every pass.
   */
  ghost predicate Documented(u: Setup, start: real, r: Ending) {
    r.Ended? ==>
      && Faithful(u, start, r.last)
      && r.last.events == History(u, r.passes, r.last.report.Some?)
      && 3 * r.passes <= |r.last.checks| <= 3 * r.passes + 1
      && (r.passes > 0 ==> Sparing(u, start, r.passes, r.last, 3 * r.passes - 2))
  }

  /** What is on record after pass `n`. */
  ghost predicate AfterPass(u: Setup, start: real, r: State, n: nat) {
    && n > 0 && Faithful(u, start, r) && r.events == History(u, n, r.report.Some?)
    && |r.checks| == 3 * n && Sparing(u, start, n, r, 3 * n - 2)
  }

  lemma PassIsOnRecord(u: Setup, start: real, s: State, n: nat, r: State)
    requires n > 0 && s.events == History(u, n - 1, true) && |s.checks| == 3 * n - 2 && PassKept(u, start, s, n, r)
    ensures AfterPass(u, start, r, n)
  {
  }

  /** A pass that decides nothing has nothing on record against it. */
  lemma UndecidedGoesOn(u: Setup, start: real, n: nat, after: State)
    requires AfterPass(u, start, after, n) && Verdict(after).None? && after.tokens.Some? && after.report.Some?
    ensures Ongoing(u, start, after.(trips := []), n)
  {
    var r := after.(trips := []);
    forall i, k | 0 <= i < |r.brakes| && 0 < k <= |r.events|
      ensures HeededAt(u.goal, r.brakes[i], r.events[..k], r.trips)
    {
      assert HeededAt(u.goal, after.brakes[i], after.events[..k], after.trips);
    }
  }

  lemma {:induction false} FromIsDocumented(u: Setup, start: real, s: State, n: nat)
    requires 0 < n <= u.goal.maxPasses && Ongoing(u, start, s, n - 1) && Underway(u, s, n - 1)
    ensures Documented(u, start, From(u, s, start, n))
    decreases u.goal.maxPasses - n
  {
    if s.trips == [] {
      ClockIsFaithful(u, start, s);
      ClockLater(u, s, start, n - 1);
      var s' := ClockChecked(u, s, start);
      if s'.trips == [] && WellFormed(u.harness(n)) {
        PassIsFaithful(u, start, s', n);
        PassIsOnRecord(u, start, s', n, Passed(u, s', start, n));
        PassMeaning(u, s', start, n);
        TurnIsDocumented(u, start, s, n, Passed(u, s', start, n));
      }
    }
  }

  lemma {:induction false} TurnIsDocumented(u: Setup, start: real, s: State, n: nat, after: State)
    requires 0 < n <= u.goal.maxPasses && Underway(u, s, n - 1) && WellFormed(u.harness(n))
    requires AfterPass(u, start, after, n) && PassMeans(u, s.tokens, n, after)
    ensures match Verdict(after)
      case Some(outcome) => Documented(u, start, Ended(outcome, n, after))
      case None => n < u.goal.maxPasses && Documented(u, start, From(u, after.(trips := []), start, n + 1))
    decreases u.goal.maxPasses - n, 0
  {
    if Verdict(after).None? {
      UndecidedGoesOn(u, start, n, after);
      Advance(u, s, n, after);
      FromIsDocumented(u, start, after.(trips := []), n + 1);
    }
  }

  lemma OpenedIsFaithful(u: Setup, brakes: seq<BrakeState>, ticks: nat, start: real)
    ensures Ongoing(u, start, Opened(u, brakes, ticks), 0)
  {
    var s := Armed(brakes, ticks);
    assert Faithful(u, start, s);
    ForcedIsFaithful(u, start, s, Trip(Extensions, ExtensionsFailed, Abort));
    var s' := if u.extensionsFailed then Forced(s, Trip(Extensions, ExtensionsFailed, Abort)) else s;
    FeedIsFaithful(u, start, s', RunOpened);
    FeedLeaves(u, s', RunOpened);
  }

  /** Any run, with any brakes, any worker and any clock, has it all on record. */
  lemma RunIsDocumented(u: Setup, brakes: seq<BrakeState>, ticks: nat)
    requires ValidGoal(u.goal)
    ensures Documented(u, u.tape(ticks), Run(u, brakes, ticks))
  {
    OpenedIsFaithful(u, brakes, ticks, u.tape(ticks));
    OpenedAgrees(u, brakes, ticks);
    var s := Opened(u, brakes, ticks);
    if !HasAction(s.trips, Abort) {
      FromIsDocumented(u, u.tape(ticks), s, 1);
    }
  }
}
