/** Which request a reply answers, over whole runs of the grant protocol (demo/vm/provider-session.js). */
module GrantReplies {
  import opened Basics
  import opened Grants
  import opened GrantProtocol

  // ---------------------------------------------------------------- stale requests

  /** The request and the message carry this mission and this identifier. */
  predicate Stale(w: World, k: nat, mission: Name, id: Id) {
    || (exists i :: 0 <= i < |w.down| && StaleAsk(w.down[i], k, mission, id))
    || (w.provider.job.Some? && StaleJob(w.provider.job.value, k, mission, id))
    || (exists i :: 0 <= i < |w.up| && StaleUp(w.up[i], k, mission, id))
  }

  predicate StaleAsk(m: Down, k: nat, mission: Name, id: Id) {
    m.Ask? && m.mission == mission && m.id == id && m.infer != k
  }

  predicate StaleJob(j: Job, k: nat, mission: Name, id: Id) {
    j.mission == mission && j.id == id && j.infer != k
  }

  predicate StaleUp(m: Up, k: nat, mission: Name, id: Id) {
    m.mission == mission && m.id == id && m.infer != k
  }

  /** Every reply that resolved call `k` answers its own request. */
  ghost predicate Own(calls: seq<Call>, k: nat)
    requires k < |calls|
  {
    forall a :: a in calls[k].answers && a.Replied? ==> a.infer == k
  }

  /** While call `k` waits, nothing under way can be taken for the reply to it but its own. */
  ghost predicate Safe(w: World, k: nat) {
    && (k < |w.host.calls| ==> Own(w.host.calls, k))
    && (k in w.host.timers ==>
          var id := w.host.timers[k];
          id in w.host.pending && w.host.pending[id].infer == k ==> !Stale(w, k, w.host.pending[id].mission, id))
  }

  // ---------------------------------------------------------------- nothing stale, nothing wrong

  lemma HostStepIsSafe(w: World, step: Step, k: nat)
    requires WorldOk(w) && Safe(w, k) && k < |w.host.calls| && (step.Begin? || step.Infer?)
    ensures Safe(Next(w, step), k)
  {
    assert CallOk(w.host, k);
    if k in w.host.timers {
      assert WaitingOk(w.host, w.host.timers[k]);
    }
  }

  lemma EndIsSafe(w: World, k: nat)
    requires WorldOk(w) && Safe(w, k) && k < |w.host.calls|
    ensures Safe(Next(w, End), k)
  {
  }

  lemma ExpireIsSafe(w: World, j: nat, k: nat)
    requires WorldOk(w) && Safe(w, k) && k < |w.host.calls|
    ensures Safe(Next(w, Expire(j)), k)
  {
    assert CallOk(w.host, k) && CallOk(w.host, j);
  }

  lemma HearIsSafe(w: World, oversize: bool, k: nat)
    requires WorldOk(w) && Safe(w, k) && k < |w.host.calls|
    ensures Safe(Next(w, Hear(oversize)), k)
  {
    if w.up != [] {
      var m := w.up[0];
      assert CallOk(w.host, k) && WaitingOk(w.host, m.id);
    }
  }

  lemma ProviderStepIsSafe(w: World, step: Step, k: nat)
    requires Safe(w, k) && (step.Take? || step.Select? || step.Finish?)
    ensures Safe(Next(w, step), k)
  {
  }

  lemma StepIsSafe(w: World, step: Step, k: nat)
    requires WorldOk(w) && Safe(w, k) && k < |w.host.calls|
    ensures Safe(Next(w, step), k)
  {
    match step
    case End => EndIsSafe(w, k);
    case Expire(j) => ExpireIsSafe(w, j, k);
    case Hear(oversize) => HearIsSafe(w, oversize, k);
    case Begin(_, _) => HostStepIsSafe(w, step, k);
    case Infer(_, _, _) => HostStepIsSafe(w, step, k);
    case _ => ProviderStepIsSafe(w, step, k);
  }

  lemma {:induction false} StaysSafe(steps: seq<Step>, more: seq<Step>, k: nat)
    requires k < |After(steps).host.calls| && Safe(After(steps), k)
    ensures k < |After(steps + more).host.calls| && Safe(After(steps + more), k)
  {
    if more == [] {
      assert steps + more == steps;
    } else {
      var n := |more| - 1;
      StaysSafe(steps, more[..n], k);
      assert (steps + more)[..|steps + more| - 1] == steps + more[..n];
      var w := After(steps + more[..n]);
      AlwaysOk(steps + more[..n]);
      StepIsSafe(w, more[n], k);
      CallsGrow(w, more[n]);
    }
  }

  lemma CallsGrow(w: World, step: Step)
    ensures |w.host.calls| <= |Next(w, step).host.calls|
  {
  }

  // ---------------------------------------------------------------- something stale, something wrong

  /** Call `k` waits for a reply to this request. */
  ghost predicate Waits(h: Host, k: nat, mission: Name, id: Id) {
    k < |h.calls| && k in h.timers && h.timers[k] == id && id in h.pending && h.pending[id] == Waiting(k, mission)
  }

  predicate Carries(m: Up, mission: Name, id: Id) {
    m.mission == mission && m.id == id
  }

  predicate Asks(m: Down, mission: Name, id: Id) {
    m.Ask? && m.mission == mission && m.id == id
  }

  /** A reply to another request has resolved call `k`. */
  ghost predicate Wrong(w: World, k: nat) {
    k < |w.host.calls| && !Own(w.host.calls, k)
  }

  /** Responses to other requests leave a call waiting. */
  lemma HearKeepsWaiting(w: World, k: nat, mission: Name, id: Id)
    requires WorldOk(w) && Waits(w.host, k, mission, id) && w.up != [] && !Carries(w.up[0], mission, id)
    ensures Waits(Next(w, Hear(false)).host, k, mission, id)
  {
    assert WaitingOk(w.host, w.up[0].id);
  }

  lemma StaleUpHeard(w: World, k: nat, mission: Name, id: Id)
    requires Waits(w.host, k, mission, id) && w.up != [] && StaleUp(w.up[0], k, mission, id)
    ensures Wrong(Next(w, Hear(false)), k)
  {
    var m, calls := w.up[0], Next(w, Hear(false)).host.calls;
    assert calls[k].answers == w.host.calls[k].answers + [Replied(m.ok, m.infer, m.gen)];
    assert Replied(m.ok, m.infer, m.gen) in calls[k].answers;
  }

  /** The first response with this mission and identifier is heard; it answers another request. */
  lemma {:induction false} StaleUpAnswers(w: World, k: nat, mission: Name, id: Id, i: nat) returns (w': World)
    requires WorldOk(w) && Waits(w.host, k, mission, id) && i < |w.up| && StaleUp(w.up[i], k, mission, id)
    requires forall j :: 0 <= j < i ==> !Carries(w.up[j], mission, id)
    ensures Leads(w, w') && Wrong(w', k)
    decreases i
  {
    var next := Next(w, Hear(false));
    LeadsStep(w, Hear(false));
    if i == 0 {
      StaleUpHeard(w, k, mission, id);
      w' := next;
    } else {
      HearKeepsWaiting(w, k, mission, id);
      StepKeeps(w, Hear(false));
      w' := StaleUpAnswers(next, k, mission, id, i - 1);
      LeadsOn(w, next, w');
    }
  }

  /** Nothing that waits to be heard carries this mission and identifier. */
  ghost predicate NoneHeard(w: World, mission: Name, id: Id) {
    forall j :: 0 <= j < |w.up| ==> !Carries(w.up[j], mission, id)
  }

  /** The job's model call fails, and its reply is heard. */
  lemma FailedJobAnswers(w: World, k: nat, mission: Name, id: Id) returns (w': World)
    requires WorldOk(w) && Waits(w.host, k, mission, id) && NoneHeard(w, mission, id)
    requires w.provider.job.Some? && w.provider.job.value.dispatched && StaleJob(w.provider.job.value, k, mission, id)
    ensures Leads(w, w') && Wrong(w', k)
  {
    var next := Next(w, Finish(Error));
    LeadsStep(w, Finish(Error));
    StepKeeps(w, Finish(Error));
    w' := StaleUpAnswers(next, k, mission, id, |w.up|);
    LeadsOn(w, next, w');
  }

  lemma StaleJobAnswers(w: World, k: nat, mission: Name, id: Id) returns (w': World)
    requires WorldOk(w) && Waits(w.host, k, mission, id) && NoneHeard(w, mission, id)
    requires w.provider.job.Some? && StaleJob(w.provider.job.value, k, mission, id)
    ensures Leads(w, w') && Wrong(w', k)
  {
    if w.provider.job.value.dispatched {
      w' := FailedJobAnswers(w, k, mission, id);
    } else {
      var next := Next(w, Select(true));
      LeadsStep(w, Select(true));
      StepKeeps(w, Select(true));
      w' := FailedJobAnswers(next, k, mission, id);
      LeadsOn(w, next, w');
    }
  }

  /** The provider, signed out, refuses every request up to the first with this mission and identifier, and that one. */
  lemma {:induction false} StaleAskAnswers(w: World, k: nat, mission: Name, id: Id, i: nat) returns (w': World)
    requires WorldOk(w) && Waits(w.host, k, mission, id) && NoneHeard(w, mission, id)
    requires i < |w.down| && StaleAsk(w.down[i], k, mission, id)
    requires forall j :: 0 <= j < i ==> !Asks(w.down[j], mission, id)
    ensures Leads(w, w') && Wrong(w', k)
    decreases i
  {
    var step := Take(false, false, false);
    var next := Next(w, step);
    LeadsStep(w, step);
    StepKeeps(w, step);
    if i == 0 {
      w' := StaleUpAnswers(next, k, mission, id, |w.up|);
    } else {
      assert !Asks(w.down[0], mission, id);
      w' := StaleAskAnswers(next, k, mission, id, i - 1);
    }
    LeadsOn(w, next, w');
  }

  /** A call that has just been registered: nothing but its own request, sent last, belongs to it. */
  ghost predicate JustSent(w: World, k: nat, mission: Name, id: Id) {
    && Waits(w.host, k, mission, id) && w.down != []
    && (forall m :: m in w.up ==> m.infer != k)
    && (w.provider.job.Some? ==> w.provider.job.value.infer != k)
    && (forall j :: 0 <= j < |w.down| - 1 && w.down[j].Ask? ==> w.down[j].infer != k)
    && (var last := w.down[|w.down| - 1]; last.Ask? && last.infer == k)
  }

  lemma FirstUp(up: seq<Up>, mission: Name, id: Id, n: nat) returns (i: nat)
    requires n < |up| && Carries(up[n], mission, id)
    ensures i <= n && Carries(up[i], mission, id) && forall j :: 0 <= j < i ==> !Carries(up[j], mission, id)
  {
    i := 0;
    while !Carries(up[i], mission, id)
      invariant i <= n && forall j :: 0 <= j < i ==> !Carries(up[j], mission, id)
      decreases n - i
    {
      i := i + 1;
    }
  }

  lemma FirstAsk(down: seq<Down>, mission: Name, id: Id, n: nat) returns (i: nat)
    requires n < |down| && Asks(down[n], mission, id)
    ensures i <= n && Asks(down[i], mission, id) && forall j :: 0 <= j < i ==> !Asks(down[j], mission, id)
  {
    i := 0;
    while !Asks(down[i], mission, id)
      invariant i <= n && forall j :: 0 <= j < i ==> !Asks(down[j], mission, id)
      decreases n - i
    {
      i := i + 1;
    }
  }

  lemma StaleAnswers(w: World, k: nat, mission: Name, id: Id) returns (w': World)
    requires WorldOk(w) && JustSent(w, k, mission, id) && Stale(w, k, mission, id)
    ensures Leads(w, w') && Wrong(w', k)
  {
    if n :| 0 <= n < |w.up| && Carries(w.up[n], mission, id) {
      var i := FirstUp(w.up, mission, id, n);
      assert w.up[i] in w.up;
      w' := StaleUpAnswers(w, k, mission, id, i);
    } else if w.provider.job.Some? && StaleJob(w.provider.job.value, k, mission, id) {
      w' := StaleJobAnswers(w, k, mission, id);
    } else {
      var n :| 0 <= n < |w.down| && StaleAsk(w.down[n], k, mission, id);
      var i := FirstAsk(w.down, mission, id, n);
      w' := StaleAskAnswers(w, k, mission, id, i);
    }
  }

  // ---------------------------------------------------------------- the exact condition

  /** Something under way carries this mission and this identifier. */
  predicate UnderWay(w: World, mission: Name, id: Id) {
    || (exists i :: 0 <= i < |w.down| && w.down[i].Ask? && w.down[i].mission == mission && w.down[i].id == id)
    || (w.provider.job.Some? && w.provider.job.value.mission == mission && w.provider.job.value.id == id)
    || (exists i :: 0 <= i < |w.up| && w.up[i].mission == mission && w.up[i].id == id)
  }

  /** The call is registered and its request sent. */
  predicate Registers(w: World, ready: bool, mission: Name, r: Request) {
    Inferred(w.host, ready, mission, r).messages != []
  }

  /** However the run goes on, every reply that resolves call `k` answers its own request. */
  ghost predicate AlwaysOwn(steps: seq<Step>, k: nat) {
    forall more :: k < |After(steps + more).host.calls| ==> Own(After(steps + more).host.calls, k)
  }

  lemma Registered(steps: seq<Step>, ready: bool, mission: Name, r: Request)
    requires Registers(After(steps), ready, mission, r)
    ensures var w, w' := After(steps), After(steps + [Infer(ready, mission, r)]);
      var k := |w.host.calls|;
      && JustSent(w', k, mission, r.id) && w'.host.calls[k].answers == []
      && (Stale(w', k, mission, r.id) <==> UnderWay(w, mission, r.id))
  {
    AfterSnoc(steps, Infer(ready, mission, r));
    AlwaysMatched(steps);
    var w, w' := After(steps), After(steps + [Infer(ready, mission, r)]);
    var k := |w.host.calls|;
    forall i | 0 <= i < |w.down|
      ensures StaleAsk(w'.down[i], k, mission, r.id) <==>
        w.down[i].Ask? && w.down[i].mission == mission && w.down[i].id == r.id
    {
      assert w.down[i] in w.down;
    }
    forall i | 0 <= i < |w.up|
      ensures StaleUp(w'.up[i], k, mission, r.id) <==> w.up[i].mission == mission && w.up[i].id == r.id
    {
      assert w.up[i] in w.up;
    }
    assert w'.down == w.down + [w'.down[|w.down|]] && !StaleAsk(w'.down[|w.down|], k, mission, r.id);
    assert w'.up == w.up && w'.provider == w.provider;
  }

  /**
   * When a call is registered, no reply to another request can ever resolve it if and only if nothing under way at that
   * moment, neither a request nor a job nor a response, carries its mission and identifier.
   */
  lemma OwnReply(steps: seq<Step>, ready: bool, mission: Name, r: Request)
    requires Registers(After(steps), ready, mission, r)
    ensures AlwaysOwn(steps + [Infer(ready, mission, r)], |After(steps).host.calls|) <==>
      !UnderWay(After(steps), mission, r.id)
  {
    var here, k := steps + [Infer(ready, mission, r)], |After(steps).host.calls|;
    Registered(steps, ready, mission, r);
    if UnderWay(After(steps), mission, r.id) {
      AlwaysOk(here);
      var w := StaleAnswers(After(here), k, mission, r.id);
      var more := GoOn(here, w);
      assert !Own(After(here + more).host.calls, k);
    } else {
      forall more
        ensures k < |After(here + more).host.calls| ==> Own(After(here + more).host.calls, k)
      {
        StaysSafe(here, more, k);
      }
    }
  }

  // ---------------------------------------------------------------- missions that are not resumed

  /** What is under way names the mission of its grant, and under the current grant an identifier that has been used. */
  ghost predicate Placed(w: World, gen: nat, mission: Name, id: Id) {
    && gen < |w.terms| && w.terms[gen].mission == mission
    && (w.host.grant.Some? && w.host.grant.value.gen == gen ==> id in w.host.grant.value.seen)
  }

  ghost predicate AllPlaced(w: World) {
    && (forall m :: m in w.down && m.Ask? ==> Placed(w, m.gen, m.mission, m.id))
    && (forall m :: m in w.up ==> Placed(w, m.gen, m.mission, m.id))
    && (w.provider.job.Some? ==>
          var j := w.provider.job.value;
          Placed(w, j.gen, j.mission, j.id))
  }

  lemma HostStepPlaces(w: World, step: Step)
    requires WorldOk(w) && AllPlaced(w) && !step.Take? && !step.Select? && !step.Finish?
    ensures AllPlaced(Next(w, step))
  {
    var w' := Next(w, step);
    assert forall gen, mission, id :: Placed(w, gen, mission, id) ==> Placed(w', gen, mission, id);
  }

  lemma ProviderStepPlaces(w: World, step: Step)
    requires AllPlaced(w) && (step.Take? || step.Select? || step.Finish?)
    ensures AllPlaced(Next(w, step))
  {
    var w' := Next(w, step);
    assert forall gen, mission, id :: Placed(w, gen, mission, id) ==> Placed(w', gen, mission, id);
    if step.Take? && w.down != [] {
      assert w.down[0] in w.down;
      assert forall m :: m in w'.down ==> m in w.down;
    }
  }

  lemma {:induction false} AlwaysPlaced(steps: seq<Step>)
    ensures AllPlaced(After(steps))
  {
    if steps != [] {
      var front, last := steps[..|steps| - 1], steps[|steps| - 1];
      AlwaysPlaced(front);
      AlwaysOk(front);
      if last.Take? || last.Select? || last.Finish? {
        ProviderStepPlaces(After(front), last);
      } else {
        HostStepPlaces(After(front), last);
      }
    }
  }

  /** No mission is granted twice. */
  ghost predicate NotResumed(terms: seq<Terms>) {
    forall i, j :: 0 <= i < j < |terms| ==> terms[i].mission != terms[j].mission
  }

  lemma NotResumedNothingUnderWay(steps: seq<Step>, ready: bool, mission: Name, r: Request)
    requires NotResumed(After(steps).terms) && Registers(After(steps), ready, mission, r)
    ensures !UnderWay(After(steps), mission, r.id)
  {
    AlwaysPlaced(steps);
    AlwaysOk(steps);
    var w := After(steps);
    forall i | 0 <= i < |w.down| && w.down[i].Ask? && w.down[i].mission == mission
      ensures w.down[i].id != r.id
    {
      assert w.down[i] in w.down;
    }
    forall i | 0 <= i < |w.up| && w.up[i].mission == mission
      ensures w.up[i].id != r.id
    {
      assert w.up[i] in w.up;
    }
  }

  lemma {:induction false} NotResumedSafe(steps: seq<Step>, k: nat)
    requires NotResumed(After(steps).terms)
    ensures Safe(After(steps), k)
  {
    if steps != [] {
      var front, last := steps[..|steps| - 1], steps[|steps| - 1];
      var w, w' := After(front), After(steps);
      assert steps == front + [last];
      assert w.terms <= w'.terms;
      NotResumedSafe(front, k);
      AlwaysOk(front);
      if k < |w.host.calls| {
        StepIsSafe(w, last, k);
      } else {
        NewCallIsSafe(front, last, k);
      }
    }
  }

  lemma NewCallIsSafe(steps: seq<Step>, last: Step, k: nat)
    requires NotResumed(After(steps).terms) && |After(steps).host.calls| <= k
    ensures Safe(After(steps + [last]), k)
  {
    AfterSnoc(steps, last);
    AlwaysOk(steps + [last]);
    var w, w' := After(steps), After(steps + [last]);
    if k < |w'.host.calls| {
      if Registers(w, last.ready, last.mission, last.request) {
        NotResumedNothingUnderWay(steps, last.ready, last.mission, last.request);
        Registered(steps, last.ready, last.mission, last.request);
      }
    }
    assert CallOk(w'.host, k);
  }

  /** In a run in which no mission is granted twice, every reply answers the request of the call that it resolves. */
  lemma OwnReplies(steps: seq<Step>, k: nat)
    requires NotResumed(After(steps).terms) && k < |After(steps).host.calls|
    ensures Own(After(steps).host.calls, k)
  {
    NotResumedSafe(steps, k);
  }

  // ---------------------------------------------------------------- a run in which a reply answers another request

  lemma FirstExchange(t: Terms, r: Request) returns (steps: seq<Step>)
    requires t == Terms(1, 1, 2) && r == Request(7, 2, true)
    ensures After(steps) == World(
      Host(1, Some(HostGrant(0, t, 1, {7})), map[7 := Waiting(0, 1)], map[0 := 7], [Call(7, [])]),
      Provider(Some(ProviderGrant(0, t, 1, {7})), Some(Job(0, 0, 0, 1, 7, false)), [], []),
      [], [], [t], {(0, 7)}, 1, Some(0))
  {
    steps := [];
    AfterSnoc(steps, Begin(true, t));
    steps := steps + [Begin(true, t)];
    AfterSnoc(steps, Infer(true, 1, r));
    steps := steps + [Infer(true, 1, r)];
    assert After(steps).down == [Grant(0, t), Ask(0, 0, 1, 7, 2)] && After(steps).terms == [t];
    var h := After(steps).host;
    assert h.grant.value.seen == {7} && h.pending == map[7 := Waiting(0, 1)];
    assert h.timers == map[0 := 7] && h.calls == [Call(7, [])];
    AfterSnoc(steps, Take(true, false, false));
    steps := steps + [Take(true, false, false)];
    assert After(steps).down == [Ask(0, 0, 1, 7, 2)];
    AfterSnoc(steps, Take(true, false, false));
    steps := steps + [Take(true, false, false)];
    assert After(steps).down == [] && After(steps).up == [];
    assert {} + {7} == {7};
  }

  lemma LateReply(t: Terms, r: Request) returns (steps: seq<Step>)
    requires t == Terms(1, 1, 2) && r == Request(7, 2, true)
    ensures var w := After(steps);
      && w.host == Host(1, None, map[], map[], [Call(7, [Cancelled])])
      && w.up == [Response(0, 0, 1, 7, true)]
  {
    steps := FirstExchange(t, r);
    AfterSnoc(steps, Select(true));
    steps := steps + [Select(true)];
    AfterSnoc(steps, Finish(Good));
    steps := steps + [Finish(Good)];
    var h := After(steps).host;
    assert h.pending[7].infer == 0 && Awaited(h, 0);
    assert [] + [Cancelled] == [Cancelled];
    assert CancelledAll(h)[0] == Call(7, [Cancelled]);
    assert CancelledAll(h) == [Call(7, [Cancelled])] && RunningOn(h) == map[];
    AfterSnoc(steps, End);
    steps := steps + [End];
  }

  /** When a later grant of the same mission reuses an identifier, a late reply answers the wrong call. */
  lemma ReusedIdentifier() returns (steps: seq<Step>)
    ensures |After(steps).host.calls| == 2 && After(steps).host.calls[1].answers == [Replied(true, 0, 0)]
  {
    var t, r := Terms(1, 1, 2), Request(7, 2, true);
    steps := LateReply(t, r);
    AfterSnoc(steps, Begin(true, t));
    steps := steps + [Begin(true, t)];
    AfterSnoc(steps, Infer(true, 1, r));
    steps := steps + [Infer(true, 1, r)];
    AfterSnoc(steps, Hear(false));
    steps := steps + [Hear(false)];
  }
}
