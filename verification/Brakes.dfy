/** The brakes that watch a bounded run (residual/brakes.py). */
module Brakes {
  import opened Basics
  import opened Goals

  datatype Action = Continue | Escalate | Abort

  /** The names under which trips are recorded. A foreign brake may use any of them. */
  datatype BrakeName =
    MaxIterationName | BudgetName | NoProgressName | CompletionName | Dispatch | Extensions | Foreign(name: Name)

  datatype TripReason =
    | PassCount(count: nat)
    | TokensUsed(tokens: nat)
    | Elapsed(seconds: real)
    | Repeated(times: nat)
    | ChecksPassed
    | UsageUnknown
    | TokenBudgetExhausted
    | WallClockExhausted
    | MaxPassesReached
    | Halted(halt: Halt)
    | ExtensionsFailed
    | ForeignReason(text: string)

  datatype Halt = Paused | NoRunnableTasks | UnknownHalt

  datatype Trip = Trip(brake: BrakeName, reason: TripReason, action: Action)

  /** An observation reported by a worker; `rest` is every field the brakes do not look at. */
  datatype Observation = Observation(kind: string, fingerprint: string, call: Json, rest: Json)

  const TOOL_INVOKED := "tool.invoked"

  /** What the controller feeds to the brakes. */
  datatype Event =
    | RunOpened
    | Response(used: nat)
    | Tool(observation: Observation)
    | Verified(report: Report)
    | PassComplete(number: nat, overall: bool)

  datatype Fingerprint = Supplied(text: string) | Computed(call: Json)

  function FingerprintOf(o: Observation): Fingerprint {
    if o.fingerprint != "" then Supplied(o.fingerprint) else Computed(o.call)
  }

  /** Two tool invocations count as the same if they were given the same fingerprint, or none and are the same call. */
  lemma FingerprintMeaning(a: Observation, b: Observation)
    ensures FingerprintOf(a) == FingerprintOf(b) <==>
      a.fingerprint == b.fingerprint && (a.fingerprint == "" ==> a.call == b.call)
  {
  }

  /**
   * The state of one brake. A foreign brake is any function of the events it has seen, which
   * covers every sequence of answers that an arbitrary brake can give.
   */
  datatype BrakeState =
    | MaxIteration(count: nat)
    | Budget(tokens: nat, start: Option<real>)
    | NoProgress(threshold: nat, last: Option<Fingerprint>, streak: nat)
    | Completion(tripped: bool)
    | Other(oracle: seq<Event> -> Option<Trip>, seen: seq<Event>)

  /** A brake after an event, what it reports, and how many clock readings have been made by then. */
  datatype Step = Step(brake: BrakeState, trip: Option<Trip>, ticks: nat)

  function Updated(b: BrakeState, g: Goal, tape: nat -> real, ticks: nat, e: Event): Step {
    match b
    case MaxIteration(count) =>
      if e.PassComplete? then
        Step(MaxIteration(count + 1),
          if count + 1 >= g.maxPasses && !e.overall
          then Some(Trip(MaxIterationName, PassCount(count + 1), Escalate)) else None,
          ticks)
      else Step(b, None, ticks)
    case Budget(tokens, start) =>
      var begun := if start.None? then Some(tape(ticks)) else start;
      var ticks' := if start.None? then ticks + 1 else ticks;
      var spent := if e.Response? then tokens + e.used else tokens;
      if e.Response? && spent >= g.tokenBudget then
        Step(Budget(spent, begun), Some(Trip(BudgetName, TokensUsed(spent), Abort)), ticks')
      else
        var elapsed := tape(ticks') - begun.value;
        Step(Budget(spent, begun),
          if elapsed >= g.wallClock then Some(Trip(BudgetName, Elapsed(elapsed), Abort)) else None,
          ticks' + 1)
    case NoProgress(threshold, last, streak) =>
      if e.Tool? then
        var f := FingerprintOf(e.observation);
        var streak' := if last == Some(f) then streak + 1 else 1;
        Step(NoProgress(threshold, Some(f), streak'),
          if streak' >= threshold then Some(Trip(NoProgressName, Repeated(streak'), Escalate)) else None,
          ticks)
      else Step(b, None, ticks)
    case Completion(tripped) =>
      if !tripped && e.Verified? && e.report.overall then
        Step(Completion(true), Some(Trip(CompletionName, ChecksPassed, Continue)), ticks)
      else Step(b, None, ticks)
    case Other(oracle, seen) =>
      Step(Other(oracle, seen + [e]), oracle(seen + [e]), ticks)
  }

  function Fresh(b: BrakeState): BrakeState {
    match b
    case MaxIteration(_) => MaxIteration(0)
    case Budget(_, _) => Budget(0, None)
    case NoProgress(threshold, _, _) => NoProgress(threshold, None, 0)
    case Completion(_) => Completion(false)
    case Other(oracle, _) => Other(oracle, [])
  }

  /** The monotonic clock: its readings are whatever the tape holds. */
  class Clock {
    const tape: nat -> real
    var ticks: nat

    constructor (tape: nat -> real)
      ensures this.tape == tape && ticks == 0
    {
      this.tape := tape;
      ticks := 0;
    }

    method Read() returns (t: real)
      modifies this
      ensures t == tape(old(ticks)) && ticks == old(ticks) + 1
    {
      t := tape(ticks);
      ticks := ticks + 1;
    }
  }

  class Brake {
    var state: BrakeState
    /** The events since the last reset. */
    ghost var seen: seq<Event>

    constructor (state: BrakeState)
      ensures this.state == Fresh(state) && Remembers(this.state, [])
    {
      this.state := Fresh(state);
      seen := [];
    }

    /** A reset leaves a brake that has seen nothing. */
    method Reset()
      modifies this
      ensures state == Fresh(old(state)) && seen == [] && Remembers(state, seen)
    {
      state := match state
        case MaxIteration(_) => MaxIteration(0)
        case Budget(_, _) => Budget(0, None)
        case NoProgress(threshold, _, _) => NoProgress(threshold, None, 0)
        case Completion(_) => Completion(false)
        case Other(oracle, _) => Other(oracle, []);
      seen := [];
    }

    /**
     * A brake that remembers all events since its reset goes on doing so, and reports a trip when they call for one.
     */
    method Update(g: Goal, clock: Clock, e: Event) returns (trip: Option<Trip>)
      modifies this, clock
      ensures Step(state, trip, clock.ticks) == Updated(old(state), g, clock.tape, old(clock.ticks), e)
      ensures seen == old(seen) + [e]
      ensures Remembers(old(state), old(seen)) ==>
        Remembers(state, seen) && CalledFor(state, g, seen, Reading(clock.tape, clock.ticks), trip)
    {
      trip := None;
      if Remembers(state, seen) {
        UpdatedRemembers(state, g, clock.tape, clock.ticks, seen, e);
      }
      seen := seen + [e];
      match state {
        case MaxIteration(count) =>
          if e.PassComplete? {
            state := MaxIteration(count + 1);
            if count + 1 >= g.maxPasses && !e.overall {
              trip := Some(Trip(MaxIterationName, PassCount(count + 1), Escalate));
            }
          }
        case Budget(_, _) =>
          trip := Charge(g, clock, e);
        case NoProgress(threshold, last, streak) =>
          if e.Tool? {
            var f := FingerprintOf(e.observation);
            var streak' := 1;
            if last == Some(f) {
              streak' := streak + 1;
            }
            state := NoProgress(threshold, Some(f), streak');
            if streak' >= threshold {
              trip := Some(Trip(NoProgressName, Repeated(streak'), Escalate));
            }
          }
        case Completion(tripped) =>
          if !tripped && e.Verified? && e.report.overall {
            state := Completion(true);
            trip := Some(Trip(CompletionName, ChecksPassed, Continue));
          }
        case Other(oracle, events) =>
          state := Other(oracle, events + [e]);
          trip := oracle(events + [e]);
      }
    }

    method Charge(g: Goal, clock: Clock, e: Event) returns (trip: Option<Trip>)
      requires state.Budget?
      modifies this`state, clock
      ensures Step(state, trip, clock.ticks) == Updated(old(state), g, clock.tape, old(clock.ticks), e)
    {
      trip := None;
      if state.start.None? {
        var t := clock.Read();
        state := state.(start := Some(t));
      }
      if e.Response? {
        state := state.(tokens := state.tokens + e.used);
        if state.tokens >= g.tokenBudget {
          return Some(Trip(BudgetName, TokensUsed(state.tokens), Abort));
        }
      }
      var now := clock.Read();
      if now - state.start.value >= g.wallClock {
        trip := Some(Trip(BudgetName, Elapsed(now - state.start.value), Abort));
      }
    }
  }

  /** The standard brakes of a goal. */
  function Standard(threshold: nat): seq<BrakeState> {
    [MaxIteration(0), Budget(0, None), NoProgress(threshold, None, 0), Completion(false)]
  }

  // ---------------------------------------------------------------- what the standard brakes count

  /** How often the last entry is repeated at the end of a list. */
  ghost function Tail<T(!new)>(s: seq<T>): nat {
    if s == [] then 0
    else if |s| > 1 && s[|s| - 2] == s[|s| - 1] then Tail(s[..|s| - 1]) + 1
    else 1
  }

  lemma {:induction false} TailIsConstant<T(!new)>(s: seq<T>)
    ensures Tail(s) <= |s|
    ensures forall i :: |s| - Tail(s) <= i < |s| ==> s[i] == s[|s| - 1]
    ensures 0 < Tail(s) < |s| ==> s[|s| - Tail(s) - 1] != s[|s| - 1]
    ensures s != [] ==> Tail(s) > 0
  {
    if |s| > 1 && s[|s| - 2] == s[|s| - 1] {
      TailIsConstant(s[..|s| - 1]);
    }
  }

  lemma TailAfter<T(!new)>(s: seq<T>, x: T)
    ensures Tail(s + [x]) == if s != [] && s[|s| - 1] == x then Tail(s) + 1 else 1
  {
    assert (s + [x])[..|s|] == s;
  }

  // ---------------------------------------------------------------- what a list of events comes to

  ghost function Passes(events: seq<Event>): nat {
    if events == [] then 0 else
      Passes(events[..|events| - 1]) + if events[|events| - 1].PassComplete? then 1 else 0
  }

  ghost function Tokens(events: seq<Event>): nat {
    if events == [] then 0 else
      Tokens(events[..|events| - 1]) + if events[|events| - 1].Response? then events[|events| - 1].used else 0
  }

  ghost function Fingerprints(events: seq<Event>): seq<Fingerprint> {
    if events == [] then [] else
      var e := events[|events| - 1];
      Fingerprints(events[..|events| - 1]) + if e.Tool? then [FingerprintOf(e.observation)] else []
  }

  ghost predicate PassingReport(e: Event) {
    e.Verified? && e.report.overall
  }

  ghost predicate Completed(events: seq<Event>) {
    exists i :: 0 <= i < |events| && PassingReport(events[i])
  }

  /** The state of a brake says exactly this of the events since its reset. */
  ghost predicate Remembers(b: BrakeState, events: seq<Event>) {
    match b
    case MaxIteration(count) => count == Passes(events)
    case Budget(tokens, _) => tokens == Tokens(events)
    case NoProgress(_, last, streak) =>
      var prints := Fingerprints(events);
      streak == Tail(prints) && last == if prints == [] then None else Some(prints[|prints| - 1])
    case Completion(tripped) => tripped <==> Completed(events)
    case Other(_, seen) => seen == events
  }

  /** The clock reading before the given one. */
  function Reading(tape: nat -> real, ticks: nat): real {
    tape(if ticks > 0 then ticks - 1 else 0)
  }

  /** When a brake trips on the last of the events, the clock having been read as `now`. */
  ghost predicate CalledFor(b: BrakeState, g: Goal, events: seq<Event>, now: real, trip: Option<Trip>)
    requires events != []
  {
    var e, before := events[|events| - 1], events[..|events| - 1];
    match b
    case MaxIteration(_) =>
      trip ==
        if e.PassComplete? && !e.overall && Passes(events) >= g.maxPasses
        then Some(Trip(MaxIterationName, PassCount(Passes(events)), Escalate)) else None
    case Budget(_, start) =>
      trip ==
        if e.Response? && Tokens(events) >= g.tokenBudget then Some(Trip(BudgetName, TokensUsed(Tokens(events)), Abort))
        else if start.Some? && now - start.value >= g.wallClock then
          Some(Trip(BudgetName, Elapsed(now - start.value), Abort))
        else None
    case NoProgress(threshold, _, _) =>
      trip ==
        if e.Tool? && Tail(Fingerprints(events)) >= threshold
        then Some(Trip(NoProgressName, Repeated(Tail(Fingerprints(events))), Escalate)) else None
    case Completion(_) =>
      trip ==
        if PassingReport(e) && !Completed(before) then Some(Trip(CompletionName, ChecksPassed, Continue)) else None
    case Other(oracle, _) => trip == oracle(events)
  }

  /** The action that the last of the events calls for, whatever the clock says. */
  ghost function Demand(b: BrakeState, g: Goal, events: seq<Event>): Option<Action>
    requires events != []
  {
    var e := events[|events| - 1];
    match b
    case MaxIteration(_) =>
      if e.PassComplete? && !e.overall && Passes(events) >= g.maxPasses then Some(Escalate) else None
    case Budget(_, _) => if e.Response? && Tokens(events) >= g.tokenBudget then Some(Abort) else None
    case NoProgress(threshold, _, _) =>
      if e.Tool? && Tail(Fingerprints(events)) >= threshold then Some(Escalate) else None
    case Completion(_) => None
    case Other(oracle, _) => if oracle(events).Some? then Some(oracle(events).value.action) else None
  }

  /** One brake is a later state of the other: the same settings, whatever has been counted. */
  ghost predicate SameBrake(b: BrakeState, b': BrakeState) {
    match b
    case MaxIteration(_) => b'.MaxIteration?
    case Budget(_, _) => b'.Budget?
    case NoProgress(threshold, _, _) => b'.NoProgress? && b'.threshold == threshold
    case Completion(_) => b'.Completion?
    case Other(oracle, _) => b'.Other? && b'.oracle == oracle
  }

  /** What the events call for is reported. */
  lemma DemandIsMet(b: BrakeState, g: Goal, tape: nat -> real, ticks: nat, events: seq<Event>, e: Event)
    requires Remembers(b, events)
    ensures var step, demand := Updated(b, g, tape, ticks, e), Demand(b, g, events + [e]);
      SameBrake(b, step.brake) && (demand.Some? ==> step.trip.Some? && step.trip.value.action == demand.value)
  {
    UpdatedRemembers(b, g, tape, ticks, events, e);
  }

  lemma UpdatedRemembers(b: BrakeState, g: Goal, tape: nat -> real, ticks: nat, events: seq<Event>, e: Event)
    requires Remembers(b, events)
    ensures var step := Updated(b, g, tape, ticks, e);
      && Remembers(step.brake, events + [e])
      && CalledFor(step.brake, g, events + [e], Reading(tape, step.ticks), step.trip)
  {
    assert (events + [e])[..|events|] == events;
    assert !e.Tool? ==> Fingerprints(events + [e]) == Fingerprints(events);
    if b.NoProgress? && e.Tool? {
      TailAfter(Fingerprints(events), FingerprintOf(e.observation));
    }
    if b.Completion? {
      CompletedSnoc(events, e);
    }
  }

  lemma CompletedSnoc(events: seq<Event>, e: Event)
    ensures Completed(events + [e]) <==> Completed(events) || PassingReport(e)
  {
    if Completed(events) {
      var i :| 0 <= i < |events| && PassingReport(events[i]);
      assert PassingReport((events + [e])[i]);
    }
    if PassingReport(e) {
      assert PassingReport((events + [e])[|events|]);
    }
  }
}
