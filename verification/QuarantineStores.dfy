/** The quarantine store and the provider that goes through it (residual/quarantine.py, residual/integration.py). */
module QuarantineStores {
  import opened Basics
  import opened Quarantine

  /** What an executor comes to. */
  datatype Outcome = Returned(value: Json) | Threw(error: Name)

  function ErrorOf(o: Outcome): Option<Name> {
    if o.Threw? then Some(o.error) else None
  }

  ghost predicate About(step: Step, h: HeldAction) {
    !step.Charge? && step.held == h
  }

  // ---------------------------------------------------------------- what other threads cannot change

  /** The store holds the same about `h`. */
  ghost predicate SameFor(s: State, s': State, h: HeldAction) {
    && Owned(s, h) && Owned(s', h) && s.entries[h.id] == s'.entries[h.id]
    && (h.id in s.denying <==> h.id in s'.denying)
    && (h.id in s.verdicts <==> h.id in s'.verdicts)
    && (h.id in s.verdicts ==> s.verdicts[h.id] == s'.verdicts[h.id])
  }

  lemma StepLeaves(limits: Limits, s: State, step: Step, h: HeldAction)
    requires Consistency(s) && Owned(s, h) && !About(step, h)
    ensures SameFor(s, Next(limits, s, step), h)
  {
    assert Consistent(s, h.id);
    if !step.Charge? && step.held.id == h.id {
      assert !Owned(s, step.held);
    }
  }

  lemma {:induction false} OthersLeave(limits: Limits, trace: seq<Step>, others: seq<Step>, h: HeldAction)
    requires Owned(After(limits, trace), h)
    requires forall i :: 0 <= i < |others| ==> !About(others[i], h)
    ensures SameFor(After(limits, trace), After(limits, trace + others), h)
  {
    if others == [] {
      assert trace + others == trace;
    } else {
      var n := |others| - 1;
      OthersLeave(limits, trace, others[..n], h);
      assert (trace + others)[..|trace + others| - 1] == trace + others[..n];
      AlwaysConsistent(limits, trace + others[..n]);
      StepLeaves(limits, After(limits, trace + others[..n]), others[n], h);
    }
  }

  /** Nothing but the end of its own release takes a hold out of execution. */
  lemma {:induction false} ExecutionIsExclusive(limits: Limits, trace: seq<Step>, others: seq<Step>, h: HeldAction)
    requires In(After(limits, trace), h, Executing)
    requires forall i :: 0 <= i < |others| ==> !(others[i].Finish? && others[i].held == h)
    ensures SameFor(After(limits, trace), After(limits, trace + others), h)
  {
    if others == [] {
      assert trace + others == trace;
    } else {
      var n := |others| - 1;
      ExecutionIsExclusive(limits, trace, others[..n], h);
      assert (trace + others)[..|trace + others| - 1] == trace + others[..n];
      AlwaysConsistent(limits, trace + others[..n]);
      var s := After(limits, trace + others[..n]);
      assert Consistent(s, h.id);
      if !About(others[n], h) {
        StepLeaves(limits, s, others[n], h);
      }
    }
  }

  /** Nothing but its own second critical section changes a hold whose denial is decided and not yet logged. */
  lemma {:induction false} DenialIsExclusive(limits: Limits, trace: seq<Step>, others: seq<Step>, h: HeldAction)
    requires In(After(limits, trace), h, Denied) && h.id in After(limits, trace).denying
    requires forall i :: 0 <= i < |others| ==> !(others[i].LogDenial? && others[i].held == h)
    ensures SameFor(After(limits, trace), After(limits, trace + others), h)
  {
    if others == [] {
      assert trace + others == trace;
    } else {
      var n := |others| - 1;
      DenialIsExclusive(limits, trace, others[..n], h);
      assert (trace + others)[..|trace + others| - 1] == trace + others[..n];
      AlwaysConsistent(limits, trace + others[..n]);
      DenialStays(limits, After(limits, trace + others[..n]), others[n], h);
    }
  }

  lemma DenialStays(limits: Limits, s: State, step: Step, h: HeldAction)
    requires Consistency(s) && In(s, h, Denied) && h.id in s.denying && !(step.LogDenial? && step.held == h)
    ensures SameFor(s, Next(limits, s, step), h)
  {
    assert Consistent(s, h.id);
    if !About(step, h) {
      StepLeaves(limits, s, step, h);
    }
  }

  lemma AskedSnoc(limits: Limits, counts: map<Name, nat>, policies: seq<Policy>, i: nat)
    requires i < |policies|
    ensures var before := AskAll(limits, counts, policies[..i]);
      var (answer, counts') := Ask(limits, before.counts, policies[i]);
      AskAll(limits, counts, policies[..i + 1]) == Asked(before.answers + [answer], counts')
  {
    assert policies[..i + 1][..i] == policies[..i];
  }

  lemma DenialsSnoc(answers: seq<Answer>, a: Answer)
    ensures Denials(answers + [a]) == Denials(answers) + if a == Allows then [] else [Denial(|answers|, ReasonOf(a))]
  {
    assert (answers + [a])[..|answers|] == answers;
  }

  // ---------------------------------------------------------------- the store

  class QuarantineStore {
    const limits: Limits
    var counter: nat
    var holds: map<nat, Entry>
    var log: seq<Record>
    /** The counters of the budget policies, which live outside the store. */
    var counts: map<Name, nat>
    ghost var started: seq<nat>
    ghost var verdicts: map<nat, Verdict>
    /** The denials whose threads are between their two critical sections. */
    var denying: set<nat>
    /** The critical sections so far, of all threads. */
    ghost var trace: seq<Step>

    ghost function View(): State
      reads this
    {
      State(counter, holds, log, counts, started, verdicts, denying)
    }

    ghost predicate Valid()
      reads this
    {
      View() == After(limits, trace)
    }

    /** The last critical section was this one. */
    twostate predicate Did(new step: Step)
      reads this
    {
      Valid() && trace == old(trace) + [step] && View() == Next(limits, old(View()), step)
    }

    lemma AfterOne(step: Step)
      requires Valid()
      ensures After(limits, trace + [step]) == Next(limits, View(), step)
    {
      assert (trace + [step])[..|trace|] == trace;
    }

    constructor (limits: Limits)
      ensures Valid() && trace == [] && this.limits == limits
    {
      this.limits := limits;
      counter, holds, log, counts := 0, map[], [], map[];
      started, verdicts, denying, trace := [], map[], {}, [];
    }

    method Insert(h: HeldAction)
      requires Valid()
      modifies this
      ensures Did(Step.Hold(h))
    {
      AfterOne(Step.Hold(h));
      if h.id == counter + 1 {
        counter := counter + 1;
        holds := holds[h.id := Entry(h, Held, None)];
        log := log + [HeldRecord(h.id, h.action)];
      }
      trace := trace + [Step.Hold(h)];
    }

    method Hold(action: Action) returns (h: HeldAction)
      requires Valid()
      modifies this
      ensures fresh(h) && h.action == action
      ensures Did(Step.Hold(h)) && In(View(), h, Held)
    {
      h := new HeldAction(counter + 1, action);
      Insert(h);
    }

    predicate Entered(h: HeldAction)
      reads this
    {
      h.id in holds && holds[h.id].held == h
    }

    method AskOne(p: Policy) returns (answer: Answer)
      modifies this`counts
      ensures (answer, counts) == Ask(limits, old(counts), p)
    {
      match p {
        case Budget(b) =>
          counts := counts[b := Count(counts, b) + 1];
          if counts[b] > limits(b) {
            answer := Refuses("action budget exhausted");
          } else {
            answer := Allows;
          }
        case Host(_, reply) =>
          answer := reply;
      }
    }

    method AskPolicies(policies: seq<Policy>) returns (denials: seq<Denial>, ghost answers: seq<Answer>)
      modifies this`counts
      ensures Asked(answers, counts) == AskAll(limits, old(counts), policies)
      ensures denials == Denials(answers)
    {
      denials, answers := [], [];
      for i := 0 to |policies|
        invariant |answers| == i
        invariant Asked(answers, counts) == AskAll(limits, old(counts), policies[..i])
        invariant denials == Denials(answers)
      {
        AskedSnoc(limits, old(counts), policies, i);
        var answer := AskOne(policies[i]);
        if answer != Allows {
          denials := denials + [Denial(i, ReasonOf(answer))];
        }
        DenialsSnoc(answers, answer);
        answers := answers + [answer];
      }
      assert policies[..|policies|] == policies;
    }

    /** The decision of the first evaluation, however often it is asked for; `Err` on a consumed or foreign hold. */
    method Evaluate(h: HeldAction, policies: seq<Policy>) returns (r: Result<Decision>)
      requires Valid()
      modifies this
      ensures Did(Step.Evaluate(h, policies))
      ensures r.Ok? <==> old(In(View(), h, Held)) || old(In(View(), h, Evaluated))
      ensures r.Ok? ==> Owned(View(), h) && holds[h.id].decision == Some(r.value)
    {
      AfterOne(Step.Evaluate(h, policies));
      AlwaysConsistent(limits, trace);
      assert Consistent(View(), h.id);
      ghost var before := View();
      trace := trace + [Step.Evaluate(h, policies)];
      if !Entered(h) || holds[h.id].phase !in {Held, Evaluated} {
        return Err;
      }
      if holds[h.id].decision.Some? {
        return Ok(holds[h.id].decision.value);
      }
      var denials; ghost var answers;
      denials, answers := AskPolicies(policies);
      var decision := if denials == [] then Allow else Decision.Deny;
      holds := holds[h.id := Entry(h, Evaluated, Some(decision))];
      log := log + [EvaluatedRecord(h.id, decision, denials)];
      verdicts := verdicts[h.id := Verdict(policies, answers)];
      r := Ok(decision);
    }

    /** The first critical section of a release: it consumes the hold before any host code runs. */
    method BeginRelease(h: HeldAction) returns (ok: bool)
      requires Valid()
      modifies this
      ensures Did(Step.Start(h))
      ensures ok <==> old(In(View(), h, Evaluated)) && old(holds[h.id].decision == Some(Allow))
    {
      AfterOne(Step.Start(h));
      trace := trace + [Step.Start(h)];
      ok := Entered(h) && holds[h.id].phase == Evaluated && holds[h.id].decision == Some(Allow);
      if ok {
        holds := holds[h.id := holds[h.id].(phase := Executing)];
        started := started + [h.id];
      }
    }

    /** The second critical section of a release. */
    method EndRelease(h: HeldAction, error: Option<Name>)
      requires Valid() && In(View(), h, Executing)
      modifies this
      ensures Did(Step.Finish(h, error))
    {
      AfterOne(Step.Finish(h, error));
      trace := trace + [Step.Finish(h, error)];
      holds := holds[h.id := holds[h.id].(phase := Executed)];
      log := log + [ExecutedRecord(h.id, error)];
    }

    /** The first critical section of a denial. */
    method BeginDeny(h: HeldAction) returns (ok: bool)
      requires Valid()
      modifies this
      ensures Did(Step.Refuse(h))
      ensures ok <==> old(In(View(), h, Evaluated)) && old(holds[h.id].decision == Some(Decision.Deny))
    {
      AfterOne(Step.Refuse(h));
      trace := trace + [Step.Refuse(h)];
      ok := Entered(h) && holds[h.id].phase == Evaluated && holds[h.id].decision == Some(Decision.Deny);
      if ok {
        holds := holds[h.id := holds[h.id].(phase := Denied)];
        denying := denying + {h.id};
      }
    }

    /** The second critical section of a denial. */
    method EndDeny(h: HeldAction, reason: string)
      requires Valid() && Owned(View(), h) && h.id in denying
      modifies this
      ensures Did(Step.LogDenial(h, reason))
    {
      AfterOne(Step.LogDenial(h, reason));
      trace := trace + [Step.LogDenial(h, reason)];
      log := log + [DeniedRecord(h.id, reason)];
      denying := denying - {h.id};
    }

    // -------------------------------------------------------------- whole calls, with other threads in between

    /** A critical section of another thread. */
    method Perform(step: Step)
      requires Valid()
      modifies this
      ensures Did(step)
    {
      match step {
        case Hold(h) => Insert(h);
        case Evaluate(h, policies) => var _ := Evaluate(h, policies);
        case Start(h) => var _ := BeginRelease(h);
        case Finish(h, error) =>
          if Entered(h) && holds[h.id].phase == Executing {
            EndRelease(h, error);
          } else {
            AfterOne(step);
            trace := trace + [step];
          }
        case Refuse(h) => var _ := BeginDeny(h);
        case LogDenial(h, reason) =>
          AfterOne(step);
          trace := trace + [step];
          if Entered(h) && h.id in denying {
            log := log + [DeniedRecord(h.id, reason)];
            denying := denying - {h.id};
          }
        case Charge(b) =>
          AfterOne(step);
          trace := trace + [step];
          var _ := AskOne(Budget(b));
      }
    }

    /** Whatever other threads do before this one gets the lock again. */
    method Interleave(others: seq<Step>)
      requires Valid()
      modifies this
      ensures Valid() && trace == old(trace) + others
    {
      for i := 0 to |others|
        invariant Valid() && trace == old(trace) + others[..i]
      {
        Perform(others[i]);
      }
    }

    /** The same, when the others leave `h` alone. */
    method InterleaveAround(others: seq<Step>, h: HeldAction)
      requires Valid() && Owned(View(), h)
      requires forall i :: 0 <= i < |others| ==> !About(others[i], h)
      modifies this
      ensures Valid() && trace == old(trace) + others && SameFor(old(View()), View(), h)
    {
      OthersLeave(limits, trace, others, h);
      Interleave(others);
    }

    /**
     * A release, while other threads do anything but end it. The executor is called once when the hold was
     * evaluated to ALLOW and not consumed, and not at all otherwise.
     */
    method Release(h: HeldAction, executor: Action -> Outcome, others: seq<Step>) returns (r: Result<Outcome>)
      requires Valid()
      requires forall i :: 0 <= i < |others| ==> !(others[i].Finish? && others[i].held == h)
      modifies this
      ensures Valid()
      ensures r.Ok? <==> old(In(View(), h, Evaluated)) && old(holds[h.id].decision == Some(Allow))
      ensures r.Ok? ==> r.value == executor(h.action) && In(View(), h, Executed)
      ensures r.Ok? ==> h.id in verdicts && h.id in old(verdicts) && verdicts[h.id] == old(verdicts)[h.id]
      ensures r.Ok? ==> trace == old(trace) + [Step.Start(h)] + others + [Step.Finish(h, ErrorOf(r.value))]
      ensures r.Err? ==> trace == old(trace) + [Step.Start(h)] && View() == old(View())
    {
      Settled(this, h);
      var ok := BeginRelease(h);
      if !ok {
        return Err;
      }
      var outcome := executor(h.action);
      ExecutionIsExclusive(limits, trace, others, h);
      Interleave(others);
      EndRelease(h, ErrorOf(outcome));
      r := Ok(outcome);
    }

    /** A denial, while other threads do anything but log it. */
    method Deny(h: HeldAction, reason: string, others: seq<Step>) returns (ok: bool)
      requires Valid()
      requires forall i :: 0 <= i < |others| ==> !(others[i].LogDenial? && others[i].held == h)
      modifies this
      ensures Valid()
      ensures ok <==>
        !Blank(reason) && old(In(View(), h, Evaluated)) && old(holds[h.id].decision == Some(Decision.Deny))
      ensures ok ==> In(View(), h, Denied) && h.id !in denying
      ensures ok ==> h.id in verdicts && h.id in old(verdicts) && verdicts[h.id] == old(verdicts)[h.id]
      ensures ok ==> trace == old(trace) + [Step.Refuse(h)] + others + [Step.LogDenial(h, reason)]
      ensures !ok ==> View() == old(View())
    {
      if Blank(reason) {
        return false;
      }
      Settled(this, h);
      ok := BeginDeny(h);
      if ok {
        DenialIsExclusive(limits, trace, others, h);
        Interleave(others);
        EndDeny(h, reason);
      }
    }
  }

  // ---------------------------------------------------------------- the provider

  datatype Generated = Generated(value: Json) | ProviderFailed(error: Name) | DeniedByPolicy

  class QuarantinedProvider {
    const store: QuarantineStore
    const name: Name
    const policies: seq<Policy>

    constructor (store: QuarantineStore, name: Name, policies: seq<Policy>)
      ensures this.store == store && this.name == name && this.policies == policies
    {
      this.store := store;
      this.name := name;
      this.policies := policies;
    }

    /**
     * Every call is held, evaluated, and then either executed once or denied, whatever other threads do before each
     * of its steps. The inner provider is called exactly when every policy allowed the call.
     */
    method Generate(kind: Name, arguments: Json, agent: Name, inner: Action -> Outcome, schedule: seq<seq<Step>>)
        returns (r: Generated, h: HeldAction)
      requires store.Valid() && |schedule| == 3
      modifies store
      ensures store.Valid() && fresh(h) && old(store.trace) <= store.trace
      ensures h.id in store.verdicts && store.verdicts[h.id].policies == policies
      ensures r.DeniedByPolicy? <==> !AllAllow(store.verdicts[h.id].answers)
      ensures r.DeniedByPolicy? ==> In(store.View(), h, Denied) && h.id !in store.started
      ensures !r.DeniedByPolicy? ==> In(store.View(), h, Executed) && h.id in store.started
      ensures !r.DeniedByPolicy? ==> r == (match inner(Action(kind, name, arguments, agent))
        case Returned(value) => Generated(value)
        case Threw(error) => ProviderFailed(error))
    {
      var decision;
      h, decision := Admit(Action(kind, name, arguments, agent), schedule[0]);
      store.InterleaveAround(schedule[1], h);
      if decision == Deny {
        RefuseHeld(h, schedule[2]);
        r := DeniedByPolicy;
      } else {
        var outcome := ExecuteHeld(h, inner, schedule[2]);
        r := match outcome
          case Returned(value) => Generated(value)
          case Threw(error) => ProviderFailed(error);
      }
    }

    method RefuseHeld(h: HeldAction, others: seq<Step>)
      requires store.Valid() && In(store.View(), h, Evaluated) && store.holds[h.id].decision == Some(Deny)
      requires forall i :: 0 <= i < |others| ==> !About(others[i], h)
      modifies store
      ensures store.Valid() && old(store.trace) <= store.trace
      ensures In(store.View(), h, Denied) && h.id !in store.started
      ensures h.id in store.verdicts && h.id in old(store.verdicts) && store.verdicts[h.id] == old(store.verdicts)[h.id]
    {
      NotBlank();
      var _ := store.Deny(h, POLICY_DENIED, others);
      Settled(store, h);
    }

    method ExecuteHeld(h: HeldAction, inner: Action -> Outcome, others: seq<Step>) returns (outcome: Outcome)
      requires store.Valid() && In(store.View(), h, Evaluated) && store.holds[h.id].decision == Some(Allow)
      requires forall i :: 0 <= i < |others| ==> !About(others[i], h)
      modifies store
      ensures store.Valid() && old(store.trace) <= store.trace && outcome == inner(h.action)
      ensures In(store.View(), h, Executed) && h.id in store.started
      ensures h.id in store.verdicts && h.id in old(store.verdicts) && store.verdicts[h.id] == old(store.verdicts)[h.id]
    {
      var r := store.Release(h, inner, others);
      outcome := r.value;
      Settled(store, h);
    }

    method Admit(action: Action, others: seq<Step>) returns (h: HeldAction, decision: Decision)
      requires store.Valid()
      modifies store
      ensures store.Valid() && fresh(h) && h.action == action && old(store.trace) <= store.trace
      ensures In(store.View(), h, Evaluated) && store.holds[h.id].decision == Some(decision)
      ensures h.id in store.verdicts && store.verdicts[h.id].policies == policies
      ensures decision == Allow <==> AllAllow(store.verdicts[h.id].answers)
    {
      h := store.Hold(action);
      store.InterleaveAround(others, h);
      var r := store.Evaluate(h, policies);
      decision := r.value;
      Settled(store, h);
    }
  }

  const POLICY_DENIED := "policy_denied"

  lemma NotBlank()
    ensures !Blank(POLICY_DENIED)
  {
    assert POLICY_DENIED[0] == 'p' && 'p' in POLICY_DENIED;
  }

  lemma Settled(store: QuarantineStore, h: HeldAction)
    requires store.Valid()
    ensures Consistent(store.View(), h.id)
  {
    AlwaysConsistent(store.limits, store.trace);
  }
}
