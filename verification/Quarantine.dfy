/** The quarantine protocol as a state machine over its critical sections (residual/quarantine.py). */
module Quarantine {
  import opened Basics
  import Tasks

  type Json = Tasks.Json

  datatype Action = Action(kind: Name, name: Name, arguments: Json, agent: Name)

  /** A hold is told from a copy of it by its identity. */
  class HeldAction {
    const id: nat
    const action: Action

    constructor (id: nat, action: Action)
      ensures this.id == id && this.action == action
    {
      this.id := id;
      this.action := action;
    }
  }

  datatype Decision = Allow | Deny

  datatype Phase = Held | Evaluated | Executing | Executed | Denied

  /** How a policy answers a proposal. */
  datatype Answer = Allows | Refuses(reason: string) | Malformed | Raises

  /** A budget policy with a counter of its own, or a host policy with the answer it gives to this call. */
  datatype Policy = Budget(budget: Name) | Host(name: Name, answer: Answer)

  datatype Denial = Denial(policy: nat, reason: string)

  datatype Record =
    | HeldRecord(id: nat, action: Action)
    | EvaluatedRecord(id: nat, decision: Decision, denials: seq<Denial>)
    | ExecutedRecord(id: nat, error: Option<Name>)
    | DeniedRecord(id: nat, reason: string)

  datatype Entry = Entry(held: HeldAction, phase: Phase, decision: Option<Decision>)

  /** Which policies were consulted about a hold, and what they answered. */
  datatype Verdict = Verdict(policies: seq<Policy>, answers: seq<Answer>)

  /**
   * The store and the counters of the budget policies. `started` lists the holds whose executor was called, in order,
   * `verdicts` what the policies said, and `denying` the denials that are decided and not yet logged.
   */
  datatype State = State(
    counter: nat,
    entries: map<nat, Entry>,
    log: seq<Record>,
    counts: map<Name, nat>,
    started: seq<nat>,
    verdicts: map<nat, Verdict>,
    denying: set<nat>)

  type Limits = Name -> nat

  const INITIAL := State(0, map[], [], map[], [], map[], {})

  // ---------------------------------------------------------------- policies

  function Count(counts: map<Name, nat>, b: Name): nat {
    if b in counts then counts[b] else 0
  }

  /** The answers of a list of policies, asked in order, and the counters afterwards. */
  datatype Asked = Asked(answers: seq<Answer>, counts: map<Name, nat>)

  function Ask(limits: Limits, counts: map<Name, nat>, p: Policy): (Answer, map<Name, nat>) {
    match p
    case Budget(b) =>
      var n := Count(counts, b) + 1;
      (if n > limits(b) then Refuses("action budget exhausted") else Allows, counts[b := n])
    case Host(_, answer) => (answer, counts)
  }

  function AskAll(limits: Limits, counts: map<Name, nat>, policies: seq<Policy>): (r: Asked)
    ensures |r.answers| == |policies|
  {
    if policies == [] then Asked([], counts) else
      var before := AskAll(limits, counts, policies[..|policies| - 1]);
      var (answer, counts') := Ask(limits, before.counts, policies[|policies| - 1]);
      Asked(before.answers + [answer], counts')
  }

  function ReasonOf(a: Answer): string {
    match a
    case Allows => ""
    case Refuses(reason) => if |reason| <= 1000 then reason else reason[..1000]
    case Malformed => "invalid_policy_result"
    case Raises => "policy_error"
  }

  function Denials(answers: seq<Answer>): seq<Denial> {
    if answers == [] then [] else
      var n := |answers| - 1;
      Denials(answers[..n]) + if answers[n] == Allows then [] else [Denial(n, ReasonOf(answers[n]))]
  }

  predicate AllAllow(answers: seq<Answer>) {
    forall i :: 0 <= i < |answers| ==> answers[i] == Allows
  }

  /** No denial is recorded exactly when every policy allowed. */
  lemma {:induction false} NoDenialMeansAllowed(answers: seq<Answer>)
    ensures Denials(answers) == [] <==> AllAllow(answers)
  {
    if answers != [] {
      var n := |answers| - 1;
      NoDenialMeansAllowed(answers[..n]);
      assert answers == answers[..n] + [answers[n]];
    }
  }

  /** The denials are those of the policies that did not allow, each with its reason, in the order of the policies. */
  lemma {:induction false} DenialsMeaning(answers: seq<Answer>)
    ensures forall d :: d in Denials(answers) <==>
      d.policy < |answers| && answers[d.policy] != Allows && d.reason == ReasonOf(answers[d.policy])
    ensures forall i, j :: 0 <= i < j < |Denials(answers)| ==> Denials(answers)[i].policy < Denials(answers)[j].policy
  {
    if answers != [] {
      var n := |answers| - 1;
      DenialsMeaning(answers[..n]);
      assert forall d :: d in Denials(answers[..n]) ==> d.policy < n && answers[..n][d.policy] == answers[d.policy];
      assert forall i :: 0 <= i < |Denials(answers[..n])| ==> Denials(answers[..n])[i] in Denials(answers[..n]);
    }
  }

  /** How often a budget is in a list of policies. */
  function Times(policies: seq<Policy>, b: Name): nat {
    if policies == [] then 0 else
      var n := |policies| - 1;
      Times(policies[..n], b) + if policies[n] == Budget(b) then 1 else 0
  }

  /**
   * Every policy in the list is asked once: a budget allows if and only if it has been asked less often than its limit
   * before, a host policy answers as it does, and a counter grows by one for each time its budget is asked.
   */
  lemma {:induction false} AskedExactly(limits: Limits, counts: map<Name, nat>, policies: seq<Policy>, b: Name)
    ensures var r := AskAll(limits, counts, policies);
      && Count(r.counts, b) == Count(counts, b) + Times(policies, b)
      && (forall i :: 0 <= i < |policies| && policies[i].Host? ==> r.answers[i] == policies[i].answer)
      && (forall i :: 0 <= i < |policies| && policies[i] == Budget(b) ==>
            (r.answers[i] == Allows <==> Count(counts, b) + Times(policies[..i], b) < limits(b)))
  {
    if policies != [] {
      var n := |policies| - 1;
      AskedExactly(limits, counts, policies[..n], b);
      assert forall i :: 0 <= i < n ==> policies[..n][i] == policies[i] && policies[..n][..i] == policies[..i];
    }
  }

  // ---------------------------------------------------------------- critical sections

  datatype Step =
    | Hold(held: HeldAction)
    | Evaluate(held: HeldAction, policies: seq<Policy>)
    | Start(held: HeldAction)
    | Finish(held: HeldAction, error: Option<Name>)
    | Refuse(held: HeldAction)
    | LogDenial(held: HeldAction, reason: string)
    | Charge(budget: Name)

  predicate Owned(s: State, h: HeldAction) {
    h.id in s.entries && s.entries[h.id].held == h
  }

  predicate In(s: State, h: HeldAction, phase: Phase) {
    Owned(s, h) && s.entries[h.id].phase == phase
  }

  /** One critical section of one thread. A call that is refused changes nothing. */
  function Next(limits: Limits, s: State, step: Step): State {
    match step
    case Hold(h) =>
      if h.id == s.counter + 1 then
        s.(counter := s.counter + 1,
           entries := s.entries[h.id := Entry(h, Held, None)],
           log := s.log + [HeldRecord(h.id, h.action)])
      else s
    case Evaluate(h, policies) =>
      if In(s, h, Held) then
        var asked := AskAll(limits, s.counts, policies);
        var denials := Denials(asked.answers);
        var decision := if denials == [] then Allow else Deny;
        s.(entries := s.entries[h.id := Entry(h, Evaluated, Some(decision))],
           log := s.log + [EvaluatedRecord(h.id, decision, denials)],
           counts := asked.counts,
           verdicts := s.verdicts[h.id := Verdict(policies, asked.answers)])
      else s
    case Start(h) =>
      if In(s, h, Evaluated) && s.entries[h.id].decision == Some(Allow) then
        s.(entries := s.entries[h.id := s.entries[h.id].(phase := Executing)], started := s.started + [h.id])
      else s
    case Finish(h, error) =>
      if In(s, h, Executing) then
        s.(entries := s.entries[h.id := s.entries[h.id].(phase := Executed)],
           log := s.log + [ExecutedRecord(h.id, error)])
      else s
    case Refuse(h) =>
      if In(s, h, Evaluated) && s.entries[h.id].decision == Some(Deny) then
        s.(entries := s.entries[h.id := s.entries[h.id].(phase := Denied)], denying := s.denying + {h.id})
      else s
    case LogDenial(h, reason) =>
      if Owned(s, h) && h.id in s.denying then
        s.(log := s.log + [DeniedRecord(h.id, reason)], denying := s.denying - {h.id})
      else s
    case Charge(b) => s.(counts := Ask(limits, s.counts, Budget(b)).1)
  }

  /** The store after the critical sections of any number of threads, in the order in which they got the lock. */
  function After(limits: Limits, steps: seq<Step>): State {
    if steps == [] then INITIAL else Next(limits, After(limits, steps[..|steps| - 1]), steps[|steps| - 1])
  }

  // ---------------------------------------------------------------- what every interleaving keeps

  /** The part of the log that is about one hold. */
  function Story(log: seq<Record>, id: nat): seq<Record> {
    if log == [] then [] else
      var n := |log| - 1;
      Story(log[..n], id) + if log[n].id == id then [log[n]] else []
  }

  lemma StorySnoc(log: seq<Record>, r: Record, id: nat)
    ensures Story(log + [r], id) == Story(log, id) + if r.id == id then [r] else []
  {
    assert (log + [r])[..|log|] == log;
  }

  /** A story ends where the phase of the hold says. */
  ghost predicate Tells(story: seq<Record>, e: Entry, denying: bool) {
    && (e.phase == Held <==> e.decision.None?)
    && (e.phase in {Executing, Executed} ==> e.decision == Some(Allow))
    && (e.phase == Denied ==> e.decision == Some(Deny))
    && (denying ==> e.phase == Denied)
    && |story| == Length(e.phase, denying)
    && story[0] == HeldRecord(e.held.id, e.held.action)
    && (|story| > 1 ==> story[1].EvaluatedRecord? && Some(story[1].decision) == e.decision)
    && (|story| > 2 ==> if e.phase == Executed then story[2].ExecutedRecord? else story[2].DeniedRecord?)
  }

  function Length(phase: Phase, denying: bool): nat {
    match phase
    case Held => 1
    case Evaluated => 2
    case Executing => 2
    case Executed => 3
    case Denied => if denying then 2 else 3
  }

  /** What the store knows about one hold. */
  ghost predicate Consistent(s: State, id: nat) {
    if id in s.entries then
      var e := s.entries[id];
      && e.held.id == id && 0 < id <= s.counter
      && Tells(Story(s.log, id), e, id in s.denying)
      && (id in s.started <==> e.phase in {Executing, Executed})
      && (id in s.verdicts <==> e.phase != Held)
      && (id in s.verdicts ==>
            && (e.decision == Some(Allow) <==> AllAllow(s.verdicts[id].answers))
            && Story(s.log, id)[1] == EvaluatedRecord(id, e.decision.value, Denials(s.verdicts[id].answers)))
    else
      Story(s.log, id) == [] && id !in s.started && id !in s.verdicts && id !in s.denying
  }

  ghost predicate Consistency(s: State) {
    && (forall id {:trigger Consistent(s, id)} :: Consistent(s, id))
    && Distinct(s.started)
  }

  lemma HoldKeepsOne(limits: Limits, s: State, h: HeldAction, id: nat)
    requires Consistent(s, id) && Consistent(s, h.id)
    ensures Consistent(Next(limits, s, Hold(h)), id)
  {
    StorySnoc(s.log, HeldRecord(h.id, h.action), id);
  }

  lemma VerdictKeepsOne(s: State, h: HeldAction, v: Verdict, denials: seq<Denial>, decision: Decision,
      counts: map<Name, nat>, id: nat)
    requires Consistent(s, id) && In(s, h, Held) && (decision == Allow <==> AllAllow(v.answers))
    requires denials == Denials(v.answers)
    ensures Consistent(
              s.(entries := s.entries[h.id := Entry(h, Evaluated, Some(decision))],
                 log := s.log + [EvaluatedRecord(h.id, decision, denials)],
                 counts := counts,
                 verdicts := s.verdicts[h.id := v]),
              id)
  {
    StorySnoc(s.log, EvaluatedRecord(h.id, decision, denials), id);
  }

  lemma EvaluationKeepsOne(limits: Limits, s: State, h: HeldAction, policies: seq<Policy>, id: nat)
    requires Consistent(s, id)
    ensures Consistent(Next(limits, s, Evaluate(h, policies)), id)
  {
    if In(s, h, Held) {
      var asked := AskAll(limits, s.counts, policies);
      var denials := Denials(asked.answers);
      NoDenialMeansAllowed(asked.answers);
      var decision := if denials == [] then Allow else Deny;
      VerdictKeepsOne(s, h, Verdict(policies, asked.answers), denials, decision, asked.counts, id);
    }
  }

  lemma FinishKeepsOne(limits: Limits, s: State, h: HeldAction, error: Option<Name>, id: nat)
    requires Consistent(s, id)
    ensures Consistent(Next(limits, s, Finish(h, error)), id)
  {
    StorySnoc(s.log, ExecutedRecord(h.id, error), id);
  }

  lemma DenialKeepsOne(limits: Limits, s: State, h: HeldAction, reason: string, id: nat)
    requires Consistent(s, id)
    ensures Consistent(Next(limits, s, LogDenial(h, reason)), id)
  {
    StorySnoc(s.log, DeniedRecord(h.id, reason), id);
  }

  lemma StepKeepsOne(limits: Limits, s: State, step: Step, id: nat)
    requires Consistent(s, id) && (step.Hold? ==> Consistent(s, step.held.id))
    ensures Consistent(Next(limits, s, step), id)
  {
    match step
    case Hold(h) => HoldKeepsOne(limits, s, h, id);
    case Evaluate(h, policies) => EvaluationKeepsOne(limits, s, h, policies, id);
    case Finish(h, error) => FinishKeepsOne(limits, s, h, error, id);
    case LogDenial(h, reason) => DenialKeepsOne(limits, s, h, reason, id);
    case _ =>
  }

  lemma StepKeepsConsistency(limits: Limits, s: State, step: Step)
    requires Consistency(s)
    ensures Consistency(Next(limits, s, step))
  {
    forall id {:trigger Consistent(Next(limits, s, step), id)}
      ensures Consistent(Next(limits, s, step), id)
    {
      assert Consistent(s, id);
      if step.Hold? {
        assert Consistent(s, step.held.id);
      }
      StepKeepsOne(limits, s, step, id);
    }
    if step.Start? {
      assert Consistent(s, step.held.id);
    }
  }

  lemma {:induction false} AlwaysConsistent(limits: Limits, steps: seq<Step>)
    ensures Consistency(After(limits, steps))
  {
    if steps == [] {
      assert forall id {:trigger Consistent(INITIAL, id)} :: Consistent(INITIAL, id);
    } else {
      AlwaysConsistent(limits, steps[..|steps| - 1]);
      StepKeepsConsistency(limits, After(limits, steps[..|steps| - 1]), steps[|steps| - 1]);
    }
  }

  // ---------------------------------------------------------------- budgets

  ghost predicate GrantedBy(v: Verdict, b: Name) {
    Budget(b) in v.policies && AllAllow(v.answers)
  }

  /** The holds that were allowed by a list of policies with budget `b` in it. */
  ghost function Granted(s: State, b: Name): set<nat> {
    set id | id in s.verdicts && GrantedBy(s.verdicts[id], b)
  }

  ghost predicate InBudget(limits: Limits, s: State, b: Name) {
    |Granted(s, b)| <= Count(s.counts, b) && |Granted(s, b)| <= limits(b)
  }

  /** Asking never lowers a counter, and an allowed list with the budget in it has used a slot below the limit. */
  lemma {:induction false} AskingCounts(limits: Limits, counts: map<Name, nat>, policies: seq<Policy>, b: Name)
    ensures var r := AskAll(limits, counts, policies);
      && Count(counts, b) <= Count(r.counts, b)
      && (Budget(b) in policies && AllAllow(r.answers) ==> Count(counts, b) < Count(r.counts, b) <= limits(b))
  {
    if policies != [] {
      var n := |policies| - 1;
      var before, r := AskAll(limits, counts, policies[..n]), AskAll(limits, counts, policies);
      AskingCounts(limits, counts, policies[..n], b);
      assert policies == policies[..n] + [policies[n]];
      assert r.answers[..n] == before.answers;
      assert AllAllow(r.answers) ==> AllAllow(before.answers) && r.answers[n] == Allows;
    }
  }

  lemma EvaluationKeepsBudget(limits: Limits, s: State, h: HeldAction, policies: seq<Policy>, b: Name)
    requires Consistent(s, h.id) && In(s, h, Held) && InBudget(limits, s, b)
    ensures InBudget(limits, Next(limits, s, Evaluate(h, policies)), b)
  {
    var s' := Next(limits, s, Evaluate(h, policies));
    AskingCounts(limits, s.counts, policies, b);
    assert s'.verdicts == s.verdicts[h.id := s'.verdicts[h.id]] && h.id !in s.verdicts;
    if GrantedBy(s'.verdicts[h.id], b) {
      assert Granted(s', b) == Granted(s, b) + {h.id};
    } else {
      assert Granted(s', b) == Granted(s, b);
    }
  }

  lemma StepKeepsBudget(limits: Limits, s: State, step: Step, b: Name)
    requires Consistency(s) && InBudget(limits, s, b)
    ensures InBudget(limits, Next(limits, s, step), b)
  {
    if step.Evaluate? && In(s, step.held, Held) {
      assert Consistent(s, step.held.id);
      EvaluationKeepsBudget(limits, s, step.held, step.policies, b);
    } else {
      var s' := Next(limits, s, step);
      assert s'.verdicts == s.verdicts;
      assert Granted(s', b) == Granted(s, b);
    }
  }

  lemma {:induction false} AlwaysInBudget(limits: Limits, steps: seq<Step>, b: Name)
    ensures InBudget(limits, After(limits, steps), b)
  {
    if steps == [] {
      assert Granted(INITIAL, b) == {};
    } else {
      AlwaysInBudget(limits, steps[..|steps| - 1], b);
      AlwaysConsistent(limits, steps[..|steps| - 1]);
      StepKeepsBudget(limits, After(limits, steps[..|steps| - 1]), steps[|steps| - 1], b);
    }
  }

  // ---------------------------------------------------------------- theorems over all interleavings

  /** The holds that were executed although budget `b` was consulted. */
  ghost function Executions(s: State, b: Name): set<nat> {
    set id | id in s.started && id in s.verdicts && Budget(b) in s.verdicts[id].policies
  }

  /** An executor runs at most once for a hold, and only after every policy that was asked about the hold allowed it. */
  lemma ExecutedOnceAndAllowed(limits: Limits, steps: seq<Step>, id: nat)
    ensures var s := After(limits, steps);
      && Distinct(s.started)
      && (id in s.started ==> id in s.verdicts && AllAllow(s.verdicts[id].answers))
  {
    AlwaysConsistent(limits, steps);
    assert Consistent(After(limits, steps), id);
  }

  /** The log of a hold is a prefix of held, evaluated, and then executed after ALLOW or denied after DENY. */
  lemma LogOrder(limits: Limits, steps: seq<Step>, id: nat)
    ensures var story := Story(After(limits, steps).log, id);
      && |story| <= 3
      && (|story| > 0 ==> story[0].HeldRecord?)
      && (|story| > 1 ==>
            && story[1].EvaluatedRecord? && id in After(limits, steps).verdicts
            && story[1].denials == Denials(After(limits, steps).verdicts[id].answers))
      && (|story| > 2 ==> if story[1].decision == Allow then story[2].ExecutedRecord? else story[2].DeniedRecord?)
      && (|story| > 2 && story[2].ExecutedRecord? ==> id in After(limits, steps).started)
  {
    AlwaysConsistent(limits, steps);
    assert Consistent(After(limits, steps), id);
  }

  /**
   * However many threads share a budget policy, at most its limit of actions that it was asked about is ever executed.
   */
  lemma BudgetBoundsExecutions(limits: Limits, steps: seq<Step>, b: Name)
    ensures |Executions(After(limits, steps), b)| <= limits(b)
  {
    var s := After(limits, steps);
    AlwaysInBudget(limits, steps, b);
    AlwaysConsistent(limits, steps);
    forall id | id in Executions(s, b)
      ensures id in Granted(s, b)
    {
      assert Consistent(s, id);
    }
    SubsetSize(Executions(s, b), Granted(s, b));
  }

  lemma StepAppends(limits: Limits, s: State, step: Step)
    ensures s.log <= Next(limits, s, step).log
  {
  }

  /** The log only grows. */
  lemma {:induction false} LogIsAppendOnly(limits: Limits, steps: seq<Step>, more: seq<Step>)
    ensures After(limits, steps).log <= After(limits, steps + more).log
  {
    if more == [] {
      assert steps + more == steps;
    } else {
      var front := more[..|more| - 1];
      LogIsAppendOnly(limits, steps, front);
      assert (steps + more)[..|steps + more| - 1] == steps + front;
      StepAppends(limits, After(limits, steps + front), more[|more| - 1]);
    }
  }

  /** How often a budget has been asked in a run: once for each time it is in a list that was evaluated, or charged. */
  ghost function Consultations(limits: Limits, steps: seq<Step>, b: Name): nat {
    if steps == [] then 0 else
      var front, last := steps[..|steps| - 1], steps[|steps| - 1];
      Consultations(limits, front, b) +
        match last
        case Evaluate(h, policies) => if In(After(limits, front), h, Held) then Times(policies, b) else 0
        case Charge(c) => if c == b then 1 else 0
        case _ => 0
  }

  lemma {:induction false} CountsAreConsultations(limits: Limits, steps: seq<Step>, b: Name)
    ensures Count(After(limits, steps).counts, b) == Consultations(limits, steps, b)
  {
    if steps != [] {
      var front, last := steps[..|steps| - 1], steps[|steps| - 1];
      CountsAreConsultations(limits, front, b);
      if last.Evaluate? {
        AskedExactly(limits, After(limits, front).counts, last.policies, b);
      }
    }
  }

  /**
   * In every interleaving a budget allows a proposal if and only if it has been asked less often than its limit before,
   * whether or not those proposals were allowed in the end.
   */
  lemma BudgetIsExact(limits: Limits, steps: seq<Step>, h: HeldAction, policies: seq<Policy>, b: Name, i: nat)
    requires In(After(limits, steps), h, Held) && i < |policies| && policies[i] == Budget(b)
    ensures var s := After(limits, steps + [Evaluate(h, policies)]);
      && h.id in s.verdicts && |s.verdicts[h.id].answers| == |policies|
      && (s.verdicts[h.id].answers[i] == Allows <==>
            Consultations(limits, steps, b) + Times(policies[..i], b) < limits(b))
  {
    assert (steps + [Evaluate(h, policies)])[..|steps|] == steps;
    CountsAreConsultations(limits, steps, b);
    AskedExactly(limits, After(limits, steps).counts, policies, b);
  }
}
