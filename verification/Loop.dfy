/** Bounded gather-act-verify passes under brakes (residual/loop.py). */
module Loop {
  import opened Basics
  import opened Goals
  import opened Brakes
  import Tasks

  /** What one pass of the worker returns; `None` stands for a missing or ill-typed field. */
  datatype Reply = Reply(candidate: Option<Json>, used: Option<int>, observations: Option<seq<Observation>>,
      halt: Option<Halt>)

  datatype Outcome = Success | Escalated | Aborted

  /** What surrounds a run: the goal, the evaluators, the clock, the worker and the outcome of loading extensions. */
  datatype Setup = Setup(goal: Goal, evaluators: Evaluators, tape: nat -> real, harness: nat -> Reply,
      extensionsFailed: bool)

  /**
   * Everything a run changes. As history, `events` is what the brakes were fed, and `checks` are the clock readings at
   * which the controller itself looked at the time.
   */
  datatype State = State(brakes: seq<BrakeState>, trips: seq<Trip>, ticks: nat, tokens: Option<nat>,
      report: Option<Report>, events: seq<Event>, checks: seq<nat>)

  /** A run ends with an outcome, is abandoned with an error, or leaves the loop without a decision. */
  datatype Ending = Ended(outcome: Outcome, passes: nat, last: State) | Abandoned | Overrun

  const MAX_OBSERVATIONS := 10000

  predicate WellFormed(r: Reply) {
    && r.candidate.Some?
    && r.observations.Some? && |r.observations.value| <= MAX_OBSERVATIONS
    && r.halt != Some(UnknownHalt)
  }

  // ---------------------------------------------------------------- the steps of a pass

  predicate Has(trips: seq<Trip>, brake: BrakeName, action: Action) {
    exists i :: 0 <= i < |trips| && trips[i].brake == brake && trips[i].action == action
  }

  predicate HasAction(trips: seq<Trip>, action: Action) {
    exists i :: 0 <= i < |trips| && trips[i].action == action
  }

  function Recorded(trips: seq<Trip>, t: Trip): seq<Trip> {
    if Has(trips, t.brake, t.action) then trips else trips + [t]
  }

  function Forced(s: State, t: Trip): State {
    s.(trips := Recorded(s.trips, t))
  }

  /** The first `k` brakes have seen the event. */
  function Fed(u: Setup, s: State, e: Event, k: nat): (r: State)
    requires k <= |s.brakes|
    ensures |r.brakes| == |s.brakes|
    decreases k
  {
    if k == 0 then s else
      var p := Fed(u, s, e, k - 1);
      var step := Updated(p.brakes[k - 1], u.goal, u.tape, p.ticks, e);
      p.(brakes := p.brakes[k - 1 := step.brake], ticks := step.ticks,
         trips := if step.trip.Some? then Recorded(p.trips, step.trip.value) else p.trips)
  }

  function Feed(u: Setup, s: State, e: Event): State {
    Fed(u, s, e, |s.brakes|).(events := s.events + [e])
  }

  function Ticked(s: State): State {
    s.(ticks := s.ticks + 1, checks := s.checks + [s.ticks])
  }

  function ClockChecked(u: Setup, s: State, start: real): State {
    var s' := Ticked(s);
    if u.tape(s.ticks) - start >= u.goal.wallClock then Forced(s', Trip(BudgetName, WallClockExhausted, Abort)) else s'
  }

  function Charged(u: Setup, s: State, used: Option<int>): State {
    if used.None? || used.value < 0 || s.tokens.None? then
      Forced(s.(tokens := None), Trip(BudgetName, UsageUnknown, Abort))
    else
      var total := s.tokens.value + used.value;
      var s' := Feed(u, s.(tokens := Some(total)), Response(used.value));
      if total >= u.goal.tokenBudget then Forced(s', Trip(BudgetName, TokenBudgetExhausted, Abort)) else s'
  }

  function Observed(u: Setup, s: State, observations: seq<Observation>): State {
    if observations == [] then s else
      var n := |observations| - 1;
      var p := Observed(u, s, observations[..n]);
      if observations[n].kind == TOOL_INVOKED then Feed(u, p, Tool(observations[n])) else p
  }

  function Stopped(s: State, halt: Option<Halt>): State {
    if halt.Some? then Forced(s, Trip(Dispatch, Halted(halt.value), Escalate)) else s
  }

  ghost function Judged(u: Setup, s: State, candidate: Json): State {
    if HasAction(s.trips, Abort) then s.(report := None) else
      var r := ReportOf(u.evaluators, u.goal.criteria, candidate);
      Feed(u, s.(report := Some(r)), Verified(r))
  }

  predicate Passing(s: State) {
    s.report.Some? && s.report.value.overall
  }

  function Closed(u: Setup, s: State, n: nat): State {
    var s' := Feed(u, s, PassComplete(n, Passing(s)));
    if n == u.goal.maxPasses && !Passing(s) then Forced(s', Trip(MaxIterationName, MaxPassesReached, Escalate)) else s'
  }

  /** A pass up to the point where the worker's candidate is verified. */
  function Acted(u: Setup, s: State, start: real, reply: Reply): State
    requires WellFormed(reply)
  {
    ClockChecked(u, Stopped(Observed(u, Charged(u, s, reply.used), reply.observations.value), reply.halt), start)
  }

  ghost function Passed(u: Setup, s: State, start: real, n: nat): State
    requires WellFormed(u.harness(n))
  {
    var reply := u.harness(n);
    Closed(u, ClockChecked(u, Judged(u, Acted(u, s, start, reply), reply.candidate.value), start), n)
  }

  function Decide(trips: seq<Trip>): Action {
    if HasAction(trips, Abort) then Abort else if HasAction(trips, Escalate) then Escalate else Continue
  }

  function Verdict(s: State): Option<Outcome> {
    match Decide(s.trips)
    case Abort => Some(Aborted)
    case Escalate => Some(Escalated)
    case Continue => if Passing(s) then Some(Success) else None
  }

  /** The run from pass `n` on. */
  ghost function From(u: Setup, s: State, start: real, n: nat): Ending
    requires n > 0
    decreases u.goal.maxPasses + 1 - n
  {
    if n > u.goal.maxPasses then Overrun
    else if s.trips != [] then Ended(Escalated, n - 1, s)
    else
      var s' := ClockChecked(u, s, start);
      if s'.trips != [] then Ended(Aborted, n - 1, s')
      else if !WellFormed(u.harness(n)) then Abandoned
      else
        var after := Passed(u, s', start, n);
        match Verdict(after)
        case Some(outcome) => Ended(outcome, n, after)
        case None => From(u, after.(trips := []), start, n + 1)
  }

  /** Fresh brakes and nothing on record; the clock has been read once. */
  function Armed(brakes: seq<BrakeState>, ticks: nat): State {
    var reset := seq(|brakes|, i requires 0 <= i < |brakes| => Fresh(brakes[i]));
    State(reset, [], ticks + 1, Some(0), None, [], [])
  }

  function Opened(u: Setup, brakes: seq<BrakeState>, ticks: nat): State {
    var s := Armed(brakes, ticks);
    Feed(u, if u.extensionsFailed then Forced(s, Trip(Extensions, ExtensionsFailed, Abort)) else s, RunOpened)
  }

  /** A whole run with the given brakes. */
  ghost function Run(u: Setup, brakes: seq<BrakeState>, ticks: nat): Ending {
    var s := Opened(u, brakes, ticks);
    if HasAction(s.trips, Abort) then Ended(Aborted, 0, s) else From(u, s, u.tape(ticks), 1)
  }

  // ---------------------------------------------------------------- what an event does to the brakes

  /** How the counters of a brake follow an event. */
  ghost predicate Counts(b: BrakeState, e: Event, b': BrakeState) {
    && (b.MaxIteration? <==> b'.MaxIteration?) && (b.Budget? <==> b'.Budget?)
    && (b.MaxIteration? ==> b'.count == b.count + if e.PassComplete? then 1 else 0)
    && (b.Budget? ==> b'.tokens == b.tokens + if e.Response? then e.used else 0)
  }

  lemma {:induction false} FedLeaves(u: Setup, s: State, e: Event, k: nat)
    requires k <= |s.brakes|
    ensures var r := Fed(u, s, e, k);
      && r.tokens == s.tokens && r.report == s.report && r.events == s.events && r.checks == s.checks
      && s.trips <= r.trips
      && r.brakes[k..] == s.brakes[k..]
    ensures forall i :: 0 <= i < k ==> Counts(s.brakes[i], e, Fed(u, s, e, k).brakes[i])
  {
    if k > 0 {
      FedLeaves(u, s, e, k - 1);
      var p := Fed(u, s, e, k - 1);
      assert p.brakes[k - 1..][0] == s.brakes[k - 1..][0];
      assert p.brakes[k - 1..][1..] == s.brakes[k - 1..][1..];
    }
  }

  lemma FeedLeaves(u: Setup, s: State, e: Event)
    ensures var r := Feed(u, s, e);
      && r.tokens == s.tokens && r.report == s.report && |r.brakes| == |s.brakes|
      && r.events == s.events + [e] && r.checks == s.checks
      && s.trips <= r.trips
      && forall i :: 0 <= i < |s.brakes| ==> Counts(s.brakes[i], e, r.brakes[i])
  {
    FedLeaves(u, s, e, |s.brakes|);
  }

  lemma HasGrows(trips: seq<Trip>, trips': seq<Trip>, brake: BrakeName, action: Action)
    requires trips <= trips'
    ensures Has(trips, brake, action) ==> Has(trips', brake, action)
    ensures HasAction(trips, action) ==> HasAction(trips', action)
  {
    assert forall i :: 0 <= i < |trips| ==> trips[i] == trips'[i];
  }

  lemma RecordedHas(trips: seq<Trip>, t: Trip)
    ensures Has(Recorded(trips, t), t.brake, t.action)
    ensures HasAction(Recorded(trips, t), t.action)
    ensures trips <= Recorded(trips, t)
  {
    var r := Recorded(trips, t);
    if !Has(trips, t.brake, t.action) {
      assert r[|trips|] == t;
    }
    var i :| 0 <= i < |r| && r[i].brake == t.brake && r[i].action == t.action;
  }

  /** Whatever the clock says, the brake reports this trip on the event. */
  ghost predicate Certain(b: BrakeState, u: Setup, e: Event, brake: BrakeName, action: Action) {
    forall ticks :: var t := Updated(b, u.goal, u.tape, ticks, e).trip;
      t.Some? && t.value.brake == brake && t.value.action == action
  }

  lemma {:induction false} FedReports(u: Setup, s: State, e: Event, k: nat, i: nat, brake: BrakeName, action: Action)
    requires i < k <= |s.brakes| && Certain(s.brakes[i], u, e, brake, action)
    ensures Has(Fed(u, s, e, k).trips, brake, action)
  {
    var p, r := Fed(u, s, e, k - 1), Fed(u, s, e, k);
    var step := Updated(p.brakes[k - 1], u.goal, u.tape, p.ticks, e);
    if i < k - 1 {
      FedReports(u, s, e, k - 1, i, brake, action);
      if step.trip.Some? {
        RecordedHas(p.trips, step.trip.value);
      }
      HasGrows(p.trips, r.trips, brake, action);
    } else {
      FedLeaves(u, s, e, i);
      assert p.brakes[i..][0] == s.brakes[i..][0];
      RecordedHas(p.trips, step.trip.value);
    }
  }

  // ---------------------------------------- the books of the controller and of its brakes agree

  /** Every pass-counting brake has counted `passes` passes and every budget brake as many tokens as the controller. */
  ghost predicate Agree(s: State, passes: nat) {
    forall i :: 0 <= i < |s.brakes| ==> AgreesAt(s.brakes[i], s.tokens, passes)
  }

  ghost predicate AgreesAt(b: BrakeState, tokens: Option<nat>, passes: nat) {
    && (b.MaxIteration? ==> b.count == passes)
    && (b.Budget? && tokens.Some? ==> b.tokens == tokens.value)
  }

  lemma FeedAgrees(u: Setup, s: State, e: Event, passes: nat)
    requires Agree(s, passes) && !e.Response?
    ensures Agree(Feed(u, s, e), passes + if e.PassComplete? then 1 else 0)
  {
    FeedLeaves(u, s, e);
    forall i | 0 <= i < |s.brakes|
      ensures AgreesAt(Feed(u, s, e).brakes[i], s.tokens, passes + if e.PassComplete? then 1 else 0)
    {
      assert AgreesAt(s.brakes[i], s.tokens, passes);
      assert Counts(s.brakes[i], e, Feed(u, s, e).brakes[i]);
    }
  }

  lemma ChargedAgrees(u: Setup, s: State, used: Option<int>, passes: nat)
    requires Agree(s, passes) && s.tokens.Some?
    ensures Agree(Charged(u, s, used), passes)
    ensures s.trips <= Charged(u, s, used).trips
    ensures Charged(u, s, used).tokens ==
      (if used.Some? && used.value >= 0 then Some(s.tokens.value + used.value) else None)
    ensures !HasAction(Charged(u, s, used).trips, Abort) ==>
      Charged(u, s, used).tokens.Some? && Charged(u, s, used).tokens.value < u.goal.tokenBudget
    ensures Charged(u, s, used).report == s.report
  {
    var r := Charged(u, s, used);
    if used.None? || used.value < 0 {
      RecordedHas(s.trips, Trip(BudgetName, UsageUnknown, Abort));
      forall i | 0 <= i < |r.brakes|
        ensures AgreesAt(r.brakes[i], r.tokens, passes)
      {
        assert AgreesAt(s.brakes[i], s.tokens, passes);
      }
    } else {
      var charged := s.(tokens := Some(s.tokens.value + used.value));
      var e := Response(used.value);
      var fed := Feed(u, charged, e);
      FeedLeaves(u, charged, e);
      RecordedHas(fed.trips, Trip(BudgetName, TokenBudgetExhausted, Abort));
      forall i | 0 <= i < |r.brakes|
        ensures AgreesAt(r.brakes[i], r.tokens, passes)
      {
        assert AgreesAt(s.brakes[i], s.tokens, passes);
        assert Counts(charged.brakes[i], e, fed.brakes[i]);
      }
    }
  }

  lemma {:induction false} ObservedAgrees(u: Setup, s: State, observations: seq<Observation>, passes: nat)
    requires Agree(s, passes)
    ensures var r := Observed(u, s, observations);
      Agree(r, passes) && s.trips <= r.trips && r.tokens == s.tokens && r.report == s.report
  {
    if observations != [] {
      var n := |observations| - 1;
      ObservedAgrees(u, s, observations[..n], passes);
      var p := Observed(u, s, observations[..n]);
      FeedAgrees(u, p, Tool(observations[n]), passes);
      FeedLeaves(u, p, Tool(observations[n]));
    }
  }

  /** `r` comes after `s` in a pass: trips accumulate, and the books still agree. */
  ghost predicate Later(s: State, r: State, passes: nat) {
    s.trips <= r.trips && s.tokens == r.tokens && Agree(r, passes)
  }

  lemma ForcedLater(s: State, t: Trip, passes: nat)
    requires Agree(s, passes)
    ensures Later(s, Forced(s, t), passes) && Forced(s, t).report == s.report
    ensures HasAction(Forced(s, t).trips, t.action)
  {
    RecordedHas(s.trips, t);
  }

  lemma ClockLater(u: Setup, s: State, start: real, passes: nat)
    requires Agree(s, passes)
    ensures Later(s, ClockChecked(u, s, start), passes) && ClockChecked(u, s, start).report == s.report
  {
    ForcedLater(Ticked(s), Trip(BudgetName, WallClockExhausted, Abort), passes);
  }

  lemma ActedAgrees(u: Setup, s: State, start: real, reply: Reply, passes: nat)
    requires WellFormed(reply) && Agree(s, passes) && s.tokens.Some?
    ensures var r := Acted(u, s, start, reply);
      && Agree(r, passes)
      && r.tokens ==
         (if reply.used.Some? && reply.used.value >= 0 then Some(s.tokens.value + reply.used.value) else None)
      && (!HasAction(r.trips, Abort) ==> r.tokens.Some? && r.tokens.value < u.goal.tokenBudget)
      && (reply.halt.Some? ==> HasAction(r.trips, Escalate))
  {
    var a := Charged(u, s, reply.used);
    ChargedAgrees(u, s, reply.used, passes);
    var b := Observed(u, a, reply.observations.value);
    ObservedAgrees(u, a, reply.observations.value, passes);
    var c := Stopped(b, reply.halt);
    if reply.halt.Some? {
      ForcedLater(b, Trip(Dispatch, Halted(reply.halt.value), Escalate), passes);
    }
    ClockLater(u, c, start, passes);
    HasGrows(a.trips, Acted(u, s, start, reply).trips, BudgetName, Abort);
    HasGrows(c.trips, Acted(u, s, start, reply).trips, Dispatch, Escalate);
  }

  lemma JudgedAgrees(u: Setup, s: State, candidate: Json, passes: nat)
    requires Agree(s, passes)
    ensures var r := Judged(u, s, candidate);
      && Later(s, r, passes)
      && (HasAction(r.trips, Abort) || r.report == Some(ReportOf(u.evaluators, u.goal.criteria, candidate)))
      && (Passing(r) ==> AllHold(u.evaluators, u.goal.criteria, candidate))
  {
    if !HasAction(s.trips, Abort) {
      var r := ReportOf(u.evaluators, u.goal.criteria, candidate);
      var reported := s.(report := Some(r));
      assert Agree(reported, passes);
      FeedAgrees(u, reported, Verified(r), passes);
      FeedLeaves(u, reported, Verified(r));
    }
  }

  lemma ClosedAgrees(u: Setup, s: State, n: nat)
    requires n > 0 && Agree(s, n - 1)
    ensures var r := Closed(u, s, n);
      && Later(s, r, n) && r.report == s.report
      && (n == u.goal.maxPasses && !Passing(s) ==> HasAction(r.trips, Escalate))
  {
    var e := PassComplete(n, Passing(s));
    FeedAgrees(u, s, e, n - 1);
    FeedLeaves(u, s, e);
    ForcedLater(Feed(u, s, e), Trip(MaxIterationName, MaxPassesReached, Escalate), n);
  }

  ghost function CandidateOf(u: Setup, n: nat): Json {
    if u.harness(n).candidate.Some? then u.harness(n).candidate.value else Tasks.Other(0)
  }

  /** The candidate of pass `n` meets every criterion of the goal. */
  ghost predicate Met(u: Setup, n: nat) {
    AllHold(u.evaluators, u.goal.criteria, CandidateOf(u, n))
  }

  /** What a pass leaves behind, in terms of the worker's reply only. */
  ghost predicate PassMeans(u: Setup, tokens: Option<nat>, n: nat, r: State) {
    && Agree(r, n)
    && r.tokens == (var used := u.harness(n).used;
                    if used.Some? && used.value >= 0 && tokens.Some? then Some(tokens.value + used.value) else None)
    && (!HasAction(r.trips, Abort) ==>
          && r.tokens.Some? && r.tokens.value < u.goal.tokenBudget
          && (Passing(r) <==> Met(u, n))
          && r.report == Some(ReportOf(u.evaluators, u.goal.criteria, CandidateOf(u, n))))
    && (u.harness(n).halt.Some? ==> HasAction(r.trips, Escalate))
    && (Verdict(r).None? ==> n < u.goal.maxPasses)
  }

  /** A pass up to its closing: what the tokens come to, and what the verdict rests on. */
  ghost predicate Weighed(u: Setup, tokens: Option<nat>, n: nat, r: State) {
    && r.tokens == (var used := u.harness(n).used;
                    if used.Some? && used.value >= 0 && tokens.Some? then Some(tokens.value + used.value) else None)
    && (!HasAction(r.trips, Abort) ==>
          && r.tokens.Some? && r.tokens.value < u.goal.tokenBudget
          && r.report == Some(ReportOf(u.evaluators, u.goal.criteria, CandidateOf(u, n))))
    && (u.harness(n).halt.Some? ==> HasAction(r.trips, Escalate))
  }

  lemma PassWeighed(u: Setup, s: State, start: real, n: nat) returns (r: State)
    requires 0 < n && WellFormed(u.harness(n)) && Agree(s, n - 1) && s.tokens.Some?
    ensures r == ClockChecked(u, Judged(u, Acted(u, s, start, u.harness(n)), CandidateOf(u, n)), start)
    ensures Agree(r, n - 1) && Weighed(u, s.tokens, n, r)
  {
    var reply := u.harness(n);
    var a := Acted(u, s, start, reply);
    ActedAgrees(u, s, start, reply, n - 1);
    var b := Judged(u, a, reply.candidate.value);
    JudgedAgrees(u, a, reply.candidate.value, n - 1);
    r := ClockChecked(u, b, start);
    ClockLater(u, b, start, n - 1);
    HasGrows(a.trips, r.trips, BudgetName, Abort);
    HasGrows(b.trips, r.trips, BudgetName, Abort);
    HasGrows(a.trips, r.trips, Dispatch, Escalate);
  }

  lemma PassMeaning(u: Setup, s: State, start: real, n: nat)
    requires 0 < n <= u.goal.maxPasses && WellFormed(u.harness(n)) && Agree(s, n - 1) && s.tokens.Some?
    ensures PassMeans(u, s.tokens, n, Passed(u, s, start, n))
  {
    var c := PassWeighed(u, s, start, n);
    ClosedAgrees(u, c, n);
    HasGrows(c.trips, Closed(u, c, n).trips, BudgetName, Abort);
    HasGrows(c.trips, Closed(u, c, n).trips, Dispatch, Escalate);
  }

  // ---------------------------------------------------------------- theorems about whole runs

  /** What the worker reported for passes 1 to `n`; unknown as soon as one report is unusable. */
  ghost function Spent(u: Setup, n: nat): Option<nat> {
    if n == 0 then Some(0) else
      var before, used := Spent(u, n - 1), u.harness(n).used;
      if before.Some? && used.Some? && used.value >= 0 then Some(before.value + used.value) else None
  }

  /** What holds when pass `n + 1` is about to start. */
  ghost predicate Underway(u: Setup, s: State, n: nat) {
    && Agree(s, n)
    && s.tokens.Some? && s.tokens == Spent(u, n) && s.tokens.value < u.goal.tokenBudget
    && (n > 0 ==> s.trips == [])
    && !HasAction(s.trips, Abort) && !u.extensionsFailed
    && forall k :: 1 <= k <= n ==> Undecisive(u, k)
  }

  /** A usable reply after which a run may go on. */
  ghost predicate Undecisive(u: Setup, k: nat) {
    WellFormed(u.harness(k)) && !Met(u, k) && u.harness(k).halt.None?
  }

  /** The first reply that is not usable, with nothing decided before it. */
  ghost predicate BreaksDownAt(u: Setup, n: nat) {
    && 1 <= n <= u.goal.maxPasses && !WellFormed(u.harness(n)) && !u.extensionsFailed
    && forall k :: 1 <= k < n ==> Undecisive(u, k)
  }

  /** What every ending says about the run. */
  ghost predicate Accountable(u: Setup, r: Ending) {
    && !r.Overrun?
    && (r.Abandoned? ==> exists n :: BreaksDownAt(u, n))
    && (r.Ended? ==>
          && r.passes <= u.goal.maxPasses
          && Agree(r.last, r.passes)
          && r.last.tokens == Spent(u, r.passes)
          && (forall k :: 1 <= k < r.passes ==> Undecisive(u, k))
          && (r.passes > 0 ==> WellFormed(u.harness(r.passes)))
          && (u.extensionsFailed ==> r.outcome == Aborted && r.passes == 0)
          && (r.outcome == Success <==>
                && r.passes > 0 && Met(u, r.passes)
                && !HasAction(r.last.trips, Abort) && !HasAction(r.last.trips, Escalate))
          && (r.outcome == Success ==>
                && r.last.report == Some(ReportOf(u.evaluators, u.goal.criteria, CandidateOf(u, r.passes)))
                && Passing(r.last) && u.harness(r.passes).halt.None?
                && r.last.tokens.Some? && r.last.tokens.value < u.goal.tokenBudget)
          && (r.outcome == Aborted <==> HasAction(r.last.trips, Abort))
          && (r.outcome == Escalated ==> HasAction(r.last.trips, Escalate) || (r.passes == 0 && r.last.trips != [])))
  }

  lemma Advance(u: Setup, s: State, n: nat, after: State)
    requires 0 < n && Underway(u, s, n - 1) && PassMeans(u, s.tokens, n, after) && Verdict(after).None?
    requires WellFormed(u.harness(n))
    ensures n < u.goal.maxPasses && Underway(u, after.(trips := []), n)
  {
    assert Agree(after.(trips := []), n);
    forall k | 1 <= k <= n
      ensures Undecisive(u, k)
    {
    }
  }

  lemma EndIsAccountable(u: Setup, s: State, n: nat, after: State)
    requires 0 < n <= u.goal.maxPasses && Underway(u, s, n - 1) && PassMeans(u, s.tokens, n, after)
    requires Verdict(after).Some? && WellFormed(u.harness(n))
    ensures Accountable(u, Ended(Verdict(after).value, n, after))
  {
  }

  lemma {:induction false} FromIsAccountable(u: Setup, s: State, start: real, n: nat)
    requires 0 < n <= u.goal.maxPasses && Underway(u, s, n - 1)
    ensures Accountable(u, From(u, s, start, n))
    decreases u.goal.maxPasses - n
  {
    var s' := ClockChecked(u, s, start);
    ClockLater(u, s, start, n - 1);
    assert n > 1 ==> Undecisive(u, n - 1);
    if s.trips != [] {
    } else if s'.trips != [] {
      RecordedHas([], Trip(BudgetName, WallClockExhausted, Abort));
    } else if WellFormed(u.harness(n)) {
      var after := Passed(u, s', start, n);
      PassMeaning(u, s', start, n);
      if Verdict(after).None? {
        Advance(u, s, n, after);
        FromIsAccountable(u, after.(trips := []), start, n + 1);
      } else {
        EndIsAccountable(u, s, n, after);
      }
    } else {
      assert BreaksDownAt(u, n);
    }
  }

  lemma OpenedAgrees(u: Setup, brakes: seq<BrakeState>, ticks: nat)
    ensures var s := Opened(u, brakes, ticks);
      Agree(s, 0) && s.tokens == Some(0) && s.report == None && (u.extensionsFailed ==> HasAction(s.trips, Abort))
  {
    var s := Armed(brakes, ticks);
    assert Agree(s, 0);
    ForcedLater(s, Trip(Extensions, ExtensionsFailed, Abort), 0);
    var s' := if u.extensionsFailed then Forced(s, Trip(Extensions, ExtensionsFailed, Abort)) else s;
    FeedAgrees(u, s', RunOpened, 0);
    FeedLeaves(u, s', RunOpened);
    HasGrows(s'.trips, Feed(u, s', RunOpened).trips, Extensions, Abort);
  }

  /** Any run, with any brakes, any worker and any clock, is accountable for how it ends. */
  lemma RunIsAccountable(u: Setup, brakes: seq<BrakeState>, ticks: nat)
    requires ValidGoal(u.goal)
    ensures Accountable(u, Run(u, brakes, ticks))
  {
    OpenedAgrees(u, brakes, ticks);
    var s := Opened(u, brakes, ticks);
    if !HasAction(s.trips, Abort) {
      FromIsAccountable(u, s, u.tape(ticks), 1);
    }
  }

  /**
   * A standard budget brake reports exhaustion whenever the controller does, so the controller's own trip is not new.
   */
  lemma OwnTokenCheckIsRedundant(u: Setup, s: State, used: nat, i: nat, passes: nat)
    requires Agree(s, passes) && s.tokens.Some? && i < |s.brakes| && s.brakes[i].Budget?
    ensures Charged(u, s, Some(used)) == Feed(u, s.(tokens := Some(s.tokens.value + used)), Response(used))
  {
    var charged := s.(tokens := Some(s.tokens.value + used));
    assert AgreesAt(s.brakes[i], s.tokens, passes);
    if charged.tokens.value >= u.goal.tokenBudget {
      assert Certain(charged.brakes[i], u, Response(used), BudgetName, Abort);
      FedReports(u, charged, Response(used), |charged.brakes|, i, BudgetName, Abort);
    }
  }

  /** Likewise for a standard pass-counting brake and the last pass. */
  lemma OwnPassCheckIsRedundant(u: Setup, s: State, n: nat, i: nat)
    requires n > 0 && Agree(s, n - 1) && i < |s.brakes| && s.brakes[i].MaxIteration?
    ensures Closed(u, s, n) == Feed(u, s, PassComplete(n, Passing(s)))
  {
    assert AgreesAt(s.brakes[i], s.tokens, n - 1);
    if n == u.goal.maxPasses && !Passing(s) {
      assert Certain(s.brakes[i], u, PassComplete(n, false), MaxIterationName, Escalate);
      FedReports(u, s, PassComplete(n, false), |s.brakes|, i, MaxIterationName, Escalate);
    }
  }

  // ---------------------------------------------------------------- worker observations

  /** The tool invocations among a worker's observations, as the brakes see them. */
  ghost function ToolEvents(observations: seq<Observation>): seq<Event> {
    if observations == [] then [] else
      var n := |observations| - 1;
      ToolEvents(observations[..n]) + if observations[n].kind == TOOL_INVOKED then [Tool(observations[n])] else []
  }

  function Tools(observations: seq<Observation>): seq<Observation> {
    if observations == [] then [] else
      var n := |observations| - 1;
      Tools(observations[..n]) + if observations[n].kind == TOOL_INVOKED then [observations[n]] else []
  }

  lemma {:induction false} OnlyToolsAreObserved(u: Setup, s: State, observations: seq<Observation>)
    ensures Observed(u, s, observations) == Observed(u, s, Tools(observations))
  {
    if observations != [] {
      var n := |observations| - 1;
      OnlyToolsAreObserved(u, s, observations[..n]);
      if observations[n].kind == TOOL_INVOKED {
        var tools := Tools(observations);
        assert tools[..|tools| - 1] == Tools(observations[..n]) && tools[|tools| - 1] == observations[n];
      } else {
        assert Tools(observations) == Tools(observations[..n]);
      }
    }
  }

  /** Two replies that differ only in observations other than tool invocations. */
  ghost predicate Indistinct(a: Reply, b: Reply) {
    && a.candidate == b.candidate && a.used == b.used && a.halt == b.halt
    && (WellFormed(a) <==> WellFormed(b))
    && (WellFormed(a) ==> Tools(a.observations.value) == Tools(b.observations.value))
  }

  /** The worlds of two runs differ at most in such observations. */
  ghost predicate Indistinguishable(u: Setup, v: Setup) {
    && v == u.(harness := v.harness)
    && forall n :: Indistinct(u.harness(n), v.harness(n))
  }

  lemma {:induction false} FedIsTheSame(u: Setup, v: Setup, s: State, e: Event, k: nat)
    requires Indistinguishable(u, v) && k <= |s.brakes|
    ensures Fed(u, s, e, k) == Fed(v, s, e, k)
  {
    if k > 0 {
      FedIsTheSame(u, v, s, e, k - 1);
    }
  }

  lemma {:induction false} ObservedIsTheSame(u: Setup, v: Setup, s: State, observations: seq<Observation>)
    requires Indistinguishable(u, v)
    ensures Observed(u, s, observations) == Observed(v, s, observations)
  {
    if observations != [] {
      var n := |observations| - 1;
      ObservedIsTheSame(u, v, s, observations[..n]);
      var p := Observed(u, s, observations[..n]);
      FedIsTheSame(u, v, p, Tool(observations[n]), |p.brakes|);
    }
  }

  lemma FeedIsTheSame(u: Setup, v: Setup, s: State, e: Event)
    requires Indistinguishable(u, v)
    ensures Feed(u, s, e) == Feed(v, s, e)
  {
    FedIsTheSame(u, v, s, e, |s.brakes|);
  }

  lemma ActedIsTheSame(u: Setup, v: Setup, s: State, start: real, x: Reply, y: Reply)
    requires Indistinguishable(u, v) && WellFormed(x) && Indistinct(x, y)
    ensures Acted(u, s, start, x) == Acted(v, s, start, y)
  {
    var a := Charged(u, s, x.used);
    if x.used.Some? && x.used.value >= 0 && s.tokens.Some? {
      FeedIsTheSame(u, v, s.(tokens := Some(s.tokens.value + x.used.value)), Response(x.used.value));
    }
    assert a == Charged(v, s, y.used);
    OnlyToolsAreObserved(u, a, x.observations.value);
    OnlyToolsAreObserved(v, a, y.observations.value);
    ObservedIsTheSame(u, v, a, Tools(x.observations.value));
  }

  lemma PassIsTheSame(u: Setup, v: Setup, s: State, start: real, n: nat)
    requires Indistinguishable(u, v) && WellFormed(u.harness(n)) && WellFormed(v.harness(n))
    ensures Passed(u, s, start, n) == Passed(v, s, start, n)
  {
    var x, y := u.harness(n), v.harness(n);
    ActedIsTheSame(u, v, s, start, x, y);
    var a := Acted(u, s, start, x);
    var r := ReportOf(u.evaluators, u.goal.criteria, x.candidate.value);
    FeedIsTheSame(u, v, a.(report := Some(r)), Verified(r));
    var c := ClockChecked(u, Judged(u, a, x.candidate.value), start);
    FeedIsTheSame(u, v, c, PassComplete(n, Passing(c)));
  }

  lemma {:induction false} FromIsTheSame(u: Setup, v: Setup, s: State, start: real, n: nat)
    requires Indistinguishable(u, v) && n > 0
    ensures From(u, s, start, n) == From(v, s, start, n)
    decreases u.goal.maxPasses + 1 - n
  {
    if n <= u.goal.maxPasses {
      var s' := ClockChecked(u, s, start);
      assert Indistinct(u.harness(n), v.harness(n));
      if s.trips == [] && s'.trips == [] && WellFormed(u.harness(n)) {
        PassIsTheSame(u, v, s', start, n);
        var after := Passed(u, s', start, n);
        FromIsTheSame(u, v, after.(trips := []), start, n + 1);
      }
    }
  }

  /** Worker observations other than tool invocations change nothing about a run, under any brakes. */
  lemma ObservationsCannotSteer(u: Setup, v: Setup, brakes: seq<BrakeState>, ticks: nat)
    requires Indistinguishable(u, v)
    ensures Run(u, brakes, ticks) == Run(v, brakes, ticks)
  {
    var s := Armed(brakes, ticks);
    var s' := if u.extensionsFailed then Forced(s, Trip(Extensions, ExtensionsFailed, Abort)) else s;
    FedIsTheSame(u, v, s', RunOpened, |s'.brakes|);
    FromIsTheSame(u, v, Opened(u, brakes, ticks), u.tape(ticks), 1);
  }
}
