/** The controller that runs the passes (residual/loop.py). */
module Controllers {
  import opened Basics
  import opened Goals
  import opened Brakes
  import opened Loop
  import opened Accounts

  datatype Turn = Finished(outcome: Outcome, passes: nat) | Failed | Undecided

  class Controller {
    const setup: Setup
    const brakes: seq<Brake>
    const clock: Clock
    var trips: seq<Trip>
    var tokens: Option<nat>
    var report: Option<Report>
    /** The clock readings at which the controller itself has looked at the time. */
    ghost var checks: seq<nat>

    ghost predicate Valid() {
      clock.tape == setup.tape && Distinct(brakes)
    }

    /** The fields of the controller, its brakes and its clock hold the given state. */
    ghost predicate Shows(s: State)
      reads this, brakes, clock
    {
      && trips == s.trips && tokens == s.tokens && report == s.report && clock.ticks == s.ticks && checks == s.checks
      && |brakes| == |s.brakes|
      && forall i :: 0 <= i < |brakes| ==> brakes[i].state == s.brakes[i] && brakes[i].seen == s.events
    }

    constructor (setup: Setup, brakes: seq<Brake>, clock: Clock)
      requires clock.tape == setup.tape && Distinct(brakes)
      ensures Valid() && this.setup == setup && this.brakes == brakes && this.clock == clock
    {
      this.setup := setup;
      this.brakes := brakes;
      this.clock := clock;
      trips, tokens, report, checks := [], Some(0), None, [];
    }

    method Record(t: Trip)
      modifies this`trips
      ensures trips == Recorded(old(trips), t)
    {
      if !Has(trips, t.brake, t.action) {
        trips := trips + [t];
      }
    }

    /** The first `k` brakes have seen the event. */
    ghost predicate FedUpTo(s: State, e: Event, k: nat)
      requires k <= |s.brakes|
      reads this, brakes, clock
    {
      var r := Fed(setup, s, e, k);
      && trips == r.trips && tokens == r.tokens && report == r.report && clock.ticks == r.ticks && checks == r.checks
      && |brakes| == |r.brakes|
      && forall i :: 0 <= i < |brakes| ==>
          brakes[i].state == r.brakes[i] && brakes[i].seen == if i < k then s.events + [e] else s.events
    }

    method FeedAll(e: Event, ghost s: State)
      requires Valid() && Shows(s)
      modifies this`trips, clock, brakes
      ensures Shows(Feed(setup, s, e))
    {
      for k := 0 to |brakes|
        invariant |brakes| == |s.brakes| && FedUpTo(s, e, k)
      {
        var trip := brakes[k].Update(setup.goal, clock, e);
        if trip.Some? {
          Record(trip.value);
        }
      }
    }

    method CheckClock(start: real, ghost s: State)
      requires Valid() && Shows(s)
      modifies this`trips, this`checks, clock
      ensures Shows(ClockChecked(setup, s, start))
    {
      checks := checks + [clock.ticks];
      var now := clock.Read();
      if now - start >= setup.goal.wallClock {
        Record(Trip(BudgetName, WallClockExhausted, Abort));
      }
    }

    method Charge(used: Option<int>, ghost s: State)
      requires Valid() && Shows(s) && tokens.Some?
      modifies this`trips, this`tokens, clock, brakes
      ensures Shows(Charged(setup, s, used))
    {
      if used.None? || used.value < 0 {
        tokens := None;
        Record(Trip(BudgetName, UsageUnknown, Abort));
      } else {
        var total := tokens.value + used.value;
        tokens := Some(total);
        FeedAll(Response(used.value), s.(tokens := Some(total)));
        if total >= setup.goal.tokenBudget {
          Record(Trip(BudgetName, TokenBudgetExhausted, Abort));
        }
      }
    }

    method Observe(observations: seq<Observation>, ghost s: State)
      requires Valid() && Shows(s)
      modifies this`trips, clock, brakes
      ensures Shows(Observed(setup, s, observations))
    {
      assert observations[..0] == [];
      for k := 0 to |observations|
        invariant Shows(Observed(setup, s, observations[..k]))
      {
        assert observations[..k + 1][..k] == observations[..k];
        if observations[k].kind == TOOL_INVOKED {
          FeedAll(Tool(observations[k]), Observed(setup, s, observations[..k]));
        }
      }
      assert observations[..|observations|] == observations;
    }

    method Act(reply: Reply, start: real, ghost s: State)
      requires Valid() && Shows(s) && tokens.Some? && WellFormed(reply)
      modifies this`trips, this`tokens, this`checks, clock, brakes
      ensures Shows(Acted(setup, s, start, reply))
    {
      Charge(reply.used, s);
      ghost var a := Charged(setup, s, reply.used);
      Observe(reply.observations.value, a);
      ghost var b := Observed(setup, a, reply.observations.value);
      if reply.halt.Some? {
        Record(Trip(Dispatch, Halted(reply.halt.value), Escalate));
      }
      CheckClock(start, Stopped(b, reply.halt));
    }

    method Verify(candidate: Json, ghost s: State)
      requires Valid() && Shows(s)
      modifies this`trips, this`report, clock, brakes
      ensures Shows(Judged(setup, s, candidate))
    {
      if HasAction(trips, Abort) {
        report := None;
      } else {
        var r := Goals.Verify(setup.evaluators, setup.goal.criteria, candidate);
        ReportIsUnique(setup.evaluators, setup.goal.criteria, candidate, r,
          ReportOf(setup.evaluators, setup.goal.criteria, candidate));
        report := Some(r);
        FeedAll(Verified(r), s.(report := Some(r)));
      }
    }

    method Close(n: nat, ghost s: State)
      requires Valid() && Shows(s)
      modifies this`trips, clock, brakes
      ensures Shows(Closed(setup, s, n))
    {
      var overall := report.Some? && report.value.overall;
      FeedAll(PassComplete(n, overall), s);
      if n == setup.goal.maxPasses && !overall {
        Record(Trip(MaxIterationName, MaxPassesReached, Escalate));
      }
    }

    method RunPass(n: nat, start: real, ghost s: State)
      requires Valid() && Shows(s) && tokens.Some? && WellFormed(setup.harness(n))
      modifies this, clock, brakes
      ensures Shows(Passed(setup, s, start, n))
    {
      var reply := setup.harness(n);
      Act(reply, start, s);
      ghost var a := Acted(setup, s, start, reply);
      Verify(reply.candidate.value, a);
      ghost var b := Judged(setup, a, reply.candidate.value);
      CheckClock(start, b);
      Close(n, ClockChecked(setup, b, start));
    }

    /** Every brake forgets what it has seen. */
    method ResetAll(ghost states: seq<BrakeState>)
      requires Valid() && |states| == |brakes| && forall i :: 0 <= i < |brakes| ==> brakes[i].state == states[i]
      modifies brakes
      ensures forall i :: 0 <= i < |brakes| ==> brakes[i].state == Fresh(states[i]) && brakes[i].seen == []
    {
      for k := 0 to |brakes|
        invariant forall i :: 0 <= i < |brakes| ==> brakes[i].state == if i < k then Fresh(states[i]) else states[i]
        invariant forall i :: 0 <= i < k ==> brakes[i].seen == []
      {
        brakes[k].Reset();
      }
    }

    method Open(ghost states: seq<BrakeState>) returns (start: real)
      requires Valid() && |states| == |brakes| && forall i :: 0 <= i < |brakes| ==> brakes[i].state == states[i]
      modifies this, clock, brakes
      ensures start == setup.tape(old(clock.ticks))
      ensures Shows(Opened(setup, states, old(clock.ticks)))
    {
      ResetAll(states);
      start := clock.Read();
      trips, tokens, report, checks := [], Some(0), None, [];
      ghost var s := Armed(states, old(clock.ticks));
      if setup.extensionsFailed {
        Record(Trip(Extensions, ExtensionsFailed, Abort));
        s := Forced(s, Trip(Extensions, ExtensionsFailed, Abort));
      }
      FeedAll(RunOpened, s);
    }

    /** One turn of the loop: what the run comes to from pass `n` on, or the state in which pass `n + 1` takes it up. */
    method Iterate(n: nat, start: real, ghost s: State) returns (t: Turn, ghost s': State)
      requires Valid() && Shows(s) && tokens.Some? && 0 < n <= setup.goal.maxPasses && Agree(s, n - 1)
      modifies this, clock, brakes
      ensures match t
        case Finished(outcome, passes) => Shows(s') && From(setup, s, start, n) == Ended(outcome, passes, s')
        case Failed => From(setup, s, start, n) == Abandoned
        case Undecided =>
          && Shows(s') && tokens.Some? && Agree(s', n)
          && From(setup, s, start, n) == From(setup, s', start, n + 1)
    {
      s' := s;
      if trips != [] {
        return Finished(Escalated, n - 1), s';
      }
      CheckClock(start, s);
      ClockLater(setup, s, start, n - 1);
      s' := ClockChecked(setup, s, start);
      if trips != [] {
        return Finished(Aborted, n - 1), s';
      }
      if !WellFormed(setup.harness(n)) {
        return Failed, s';
      }
      RunPass(n, start, s');
      PassMeaning(setup, s', start, n);
      s' := Passed(setup, s', start, n);
      var decision := Decide(trips);
      if decision == Abort {
        return Finished(Aborted, n), s';
      } else if decision == Escalate {
        return Finished(Escalated, n), s';
      } else if report.Some? && report.value.overall {
        return Finished(Success, n), s';
      }
      trips := [];
      s' := s'.(trips := []);
      assert Agree(s', n);
      t := Undecided;
    }

    /**
     * Runs at most the goal's number of passes; `None` stands for a raised error. The loop never runs out undecided.
     */
    method RunAll(ghost states: seq<BrakeState>) returns (r: Option<(Outcome, nat)>, ghost ending: Ending)
      requires Valid() && ValidGoal(setup.goal)
      requires |states| == |brakes| && forall i :: 0 <= i < |brakes| ==> brakes[i].state == states[i]
      modifies this, clock, brakes
      ensures ending == Run(setup, states, old(clock.ticks)) && Accountable(setup, ending)
      ensures Documented(setup, setup.tape(old(clock.ticks)), ending)
      ensures r.None? <==> ending.Abandoned?
      ensures r.Some? ==> ending == Ended(r.value.0, r.value.1, ending.last) && Shows(ending.last)
    {
      RunIsAccountable(setup, states, clock.ticks);
      RunIsDocumented(setup, states, clock.ticks);
      r, ending := RunDecided(states);
    }

    method RunDecided(ghost states: seq<BrakeState>) returns (r: Option<(Outcome, nat)>, ghost ending: Ending)
      requires Valid() && !Run(setup, states, clock.ticks).Overrun?
      requires |states| == |brakes| && forall i :: 0 <= i < |brakes| ==> brakes[i].state == states[i]
      modifies this, clock, brakes
      ensures ending == Run(setup, states, old(clock.ticks))
      ensures r.None? <==> ending.Abandoned?
      ensures r.Some? ==> ending == Ended(r.value.0, r.value.1, ending.last) && Shows(ending.last)
    {
      ghost var ticks := clock.ticks;
      ending := Run(setup, states, ticks);
      var start := Open(states);
      ghost var s := Opened(setup, states, ticks);
      OpenedAgrees(setup, states, ticks);
      if HasAction(trips, Abort) {
        return Some((Aborted, 0)), ending;
      }
      for n := 1 to setup.goal.maxPasses + 1
        invariant Shows(s) && tokens.Some? && Agree(s, n - 1)
        invariant ending == From(setup, s, start, n)
      {
        var t;
        t, s := Iterate(n, start, s);
        match t {
          case Finished(outcome, passes) => return Some((outcome, passes)), ending;
          case Failed => return None, ending;
          case Undecided =>
        }
      }
      assert false;
    }
  }
}
