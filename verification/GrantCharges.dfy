/** What a grant that replaces another does to requests and waiting calls (demo/vm/provider-session.js, provider.js). */
module GrantCharges {
  import opened Basics
  import opened Grants
  import opened GrantProtocol

  /** The provider cannot tell requests made under one of them from requests made under the other. */
  predicate Alike(a: Terms, b: Terms) {
    a.mission == b.mission && a.model == b.model
  }

  /** The grant has room for a request made under these terms. */
  predicate Admits(g: Option<ProviderGrant>, terms: Terms) {
    g.Some? && Alike(g.value.terms, terms) && g.value.used < g.value.terms.calls
  }

  /** Whether the provider may hold such a grant once a message has arrived, if it was so before. */
  predicate Held(m: Down, held: bool, terms: Terms) {
    match m
    case Grant(_, t) => held || Alike(t, terms)
    case Ask(_, _, _, _, _) => held
    case Revoke => false
  }

  predicate MayAdmit(down: seq<Down>, held: bool, terms: Terms) {
    if down == [] then held else MayAdmit(down[1..], Held(down[0], held, terms), terms)
  }

  /** When everything under way has arrived, the provider may hold a grant that admits requests of these terms. */
  predicate Rival(w: World, terms: Terms) {
    MayAdmit(w.down, Admits(w.provider.grant, terms), terms)
  }

  // ---------------------------------------------------------------- no rival, no wrong charge

  /** No rival of grant `n` can be in place when it arrives. */
  predicate Clear(down: seq<Down>, held: bool, n: nat, terms: Terms) {
    if down == [] then true
    else if down[0].Grant? && down[0].gen == n then !held
    else Clear(down[1..], Held(down[0], held, terms), n, terms)
  }

  lemma {:induction false} NoRivalIsClear(down: seq<Down>, held: bool, n: nat, terms: Terms)
    requires !MayAdmit(down, held, terms) && forall i :: 0 <= i < |down| && down[i].Grant? ==> down[i].gen != n
    ensures Clear(down + [Grant(n, terms)], held, n, terms)
    decreases |down|
  {
    if down != [] {
      assert (down + [Grant(n, terms)])[1..] == down[1..] + [Grant(n, terms)];
      NoRivalIsClear(down[1..], Held(down[0], held, terms), n, terms);
    }
  }

  lemma {:induction false} ClearLonger(down: seq<Down>, held: bool, n: nat, terms: Terms, m: Down)
    requires Clear(down, held, n, terms) && !(m.Grant? && m.gen == n)
    ensures Clear(down + [m], held, n, terms)
    decreases |down|
  {
    if down != [] && !(down[0].Grant? && down[0].gen == n) {
      assert (down + [m])[1..] == down[1..] + [m];
      ClearLonger(down[1..], Held(down[0], held, terms), n, terms, m);
    }
  }

  lemma {:induction false} ClearWithLess(down: seq<Down>, held: bool, less: bool, n: nat, terms: Terms)
    requires Clear(down, held, n, terms) && (less ==> held)
    ensures Clear(down, less, n, terms)
    decreases |down|
  {
    if down != [] && !(down[0].Grant? && down[0].gen == n) {
      ClearWithLess(down[1..], Held(down[0], held, terms), Held(down[0], less, terms), n, terms);
    }
  }

  /** Whatever was made under grant `n` is charged to it, and nothing else can come to be in its place. */
  ghost predicate Separate(w: World, n: nat, terms: Terms) {
    && n < |w.terms| && w.terms[n] == terms
    && (w.arrived <= n ==> Clear(w.down, Admits(w.provider.grant, terms), n, terms))
    && (w.arrived > n && w.provider.grant.Some? && w.provider.grant.value.gen < n ==> !Admits(w.provider.grant, terms))
    && (forall i :: 0 <= i < |w.down| && w.down[i].Ask? && w.down[i].gen == n ==>
          w.down[i].mission == terms.mission && w.down[i].model == terms.model)
    && (w.provider.job.Some? && w.provider.job.value.gen == n ==> w.provider.job.value.under == n)
    && (forall d :: d in w.provider.dispatches && d.gen == n ==> d.under == n)
  }

  lemma HostStepSeparates(w: World, step: Step, n: nat, terms: Terms)
    requires WorldOk(w) && Separate(w, n, terms) && !step.Take? && !step.Select? && !step.Finish?
    ensures Separate(Next(w, step), n, terms)
  {
    var w' := Next(w, step);
    if w'.down != w.down {
      var m := w'.down[|w.down|];
      assert w'.down == w.down + [m];
      if w.arrived <= n {
        ClearLonger(w.down, Admits(w.provider.grant, terms), n, terms, m);
      }
    }
  }

  lemma TakeSeparates(w: World, step: Step, n: nat, terms: Terms)
    requires WorldOk(w) && Separate(w, n, terms) && step.Take?
    ensures Separate(Next(w, step), n, terms)
  {
    var w' := Next(w, step);
    if w.down != [] && w'.arrived <= n {
      var held := Held(w.down[0], Admits(w.provider.grant, terms), terms);
      ClearWithLess(w'.down, held, Admits(w'.provider.grant, terms), n, terms);
    }
  }

  lemma WorkSeparates(w: World, step: Step, n: nat, terms: Terms)
    requires Separate(w, n, terms) && (step.Select? || step.Finish?)
    ensures Separate(Next(w, step), n, terms)
  {
  }

  lemma {:induction false} StaysSeparate(steps: seq<Step>, more: seq<Step>, n: nat, terms: Terms)
    requires Separate(After(steps), n, terms)
    ensures Separate(After(steps + more), n, terms)
  {
    if more == [] {
      assert steps + more == steps;
    } else {
      var k := |more| - 1;
      StaysSeparate(steps, more[..k], n, terms);
      assert (steps + more)[..|steps + more| - 1] == steps + more[..k];
      var w := After(steps + more[..k]);
      AlwaysOk(steps + more[..k]);
      match more[k]
      case Take(_, _, _) => TakeSeparates(w, more[k], n, terms);
      case Select(_) => WorkSeparates(w, more[k], n, terms);
      case Finish(_) => WorkSeparates(w, more[k], n, terms);
      case _ => HostStepSeparates(w, more[k], n, terms);
    }
  }

  lemma {:induction false} GrantsAreKnown(down: seq<Down>, live: Option<nat>, arrived: nat, host: Option<nat>,
      terms: seq<Terms>)
    requires Orderly(down, live, arrived, host, terms)
    ensures forall i :: 0 <= i < |down| && down[i].Grant? ==> down[i].gen < |terms|
    decreases |down|
  {
    if down != [] {
      var m := down[0];
      GrantsAreKnown(down[1..], if m.Grant? then Some(m.gen) else if m.Revoke? then None else live,
        if m.Grant? then arrived + 1 else arrived, host, terms);
      assert forall i :: 1 <= i < |down| ==> down[i] == down[1..][i - 1];
    }
  }

  /** A grant that has just been begun: nothing was made under it. */
  lemma BegunIsNew(steps: seq<Step>, terms: Terms)
    requires ValidTerms(terms)
    ensures var w, w', n := After(steps), After(steps + [Begin(true, terms)]), |After(steps).terms|;
      && w'.down == w.down + [Grant(n, terms)] && w'.provider == w.provider && w'.terms == w.terms + [terms]
      && w'.host.grant == Some(HostGrant(n, terms, 0, {})) && w'.arrived == w.arrived <= n
      && (forall i :: 0 <= i < |w.down| ==>
            (w.down[i].Grant? ==> w.down[i].gen < n) && (w.down[i].Ask? ==> w.down[i].gen < n))
      && (w.provider.job.Some? ==> w.provider.job.value.gen < n)
      && (w.provider.grant.Some? ==> w.provider.grant.value.gen < n)
      && (forall d :: d in w.provider.dispatches ==> d.gen < n)
  {
    var w, n := After(steps), |After(steps).terms|;
    AfterSnoc(steps, Begin(true, terms));
    AlwaysOk(steps);
    AlwaysFlows(steps);
    GrantsAreKnown(w.down, w.live, w.arrived, HostLive(w.host), w.terms);
    forall u | u in w.asked
      ensures u.0 < n
    {
      assert AskedOk(w, u.0) && u.1 in AskedIn(w.asked, u.0);
    }
  }

  lemma NoRivalSeparates(steps: seq<Step>, terms: Terms)
    requires ValidTerms(terms) && !Rival(After(steps), terms)
    ensures Separate(After(steps + [Begin(true, terms)]), |After(steps).terms|, terms)
  {
    BegunIsNew(steps, terms);
    var w := After(steps);
    NoRivalIsClear(w.down, Admits(w.provider.grant, terms), |w.terms|, terms);
  }

  // ---------------------------------------------------------------- a rival, a wrong charge

  /** Grant `n` is the last message under way, and the provider is idle. */
  ghost predicate Awaiting(w: World, n: nat, terms: Terms) {
    && w.down != [] && w.down[|w.down| - 1] == Grant(n, terms) && w.provider.job.None?
    && (forall i :: 0 <= i < |w.down| - 1 && w.down[i].Grant? ==> w.down[i].gen < n)
    && (w.provider.grant.Some? ==> w.provider.grant.value.gen < n)
    && MayAdmit(w.down[..|w.down| - 1], Admits(w.provider.grant, terms), terms)
  }

  /** Everything has arrived, and the provider holds a rival of grant `n`. */
  ghost predicate Taken(w: World, n: nat, terms: Terms) {
    && w.down == [] && w.provider.job.None?
    && Admits(w.provider.grant, terms) && w.provider.grant.value.gen < n
  }

  /** Whether the provider need not take the next message for a rival to stay or come. */
  ghost predicate MayPass(w: World, terms: Terms)
    requires w.down != []
  {
    || |w.down| == 1
    || MayAdmit(w.down[1..|w.down| - 1], Admits(w.provider.grant, terms) && !w.down[0].Revoke?, terms)
  }

  /** One message arrives, the provider being signed in only if it must take the grant in it. */
  lemma ArriveOne(w: World, n: nat, terms: Terms, step: Step)
    requires WorldOk(w) && Awaiting(w, n, terms) && step == Take(!MayPass(w, terms), false, false)
    ensures var w' := Next(w, step);
      && w'.host == w.host && w'.down == w.down[1..]
      && if |w.down| == 1 then Taken(w', n, terms) else Awaiting(w', n, terms)
  {
    var w' := Next(w, step);
    if |w.down| > 1 {
      assert w.down[..|w.down| - 1][1..] == w.down[1..|w.down| - 1] == w'.down[..|w'.down| - 1];
    }
  }

  lemma {:induction false} ArriveAll(w: World, n: nat, terms: Terms) returns (w': World)
    requires WorldOk(w) && Awaiting(w, n, terms)
    ensures Leads(w, w') && Taken(w', n, terms) && w'.host == w.host
    decreases |w.down|
  {
    var step := Take(!MayPass(w, terms), false, false);
    var next := Next(w, step);
    LeadsStep(w, step);
    ArriveOne(w, n, terms, step);
    if |w.down| == 1 {
      w' := next;
    } else {
      StepKeeps(w, step);
      w' := ArriveAll(next, n, terms);
      LeadsOn(w, next, w');
    }
  }

  /** The provider has no job any more; nothing else is different. */
  ghost predicate Idle(w: World, w': World) {
    && WorldOk(w') && w'.provider.job.None?
    && w'.provider.grant == w.provider.grant && w'.host == w.host && w'.down == w.down
  }

  /** The job at work ends, whatever else is under way. */
  lemma {:induction false} EndJob(w: World) returns (w': World)
    requires WorldOk(w)
    ensures Leads(w, w') && Idle(w, w')
    decreases w.provider.job.Some? && !w.provider.job.value.dispatched
  {
    if w.provider.job.None? {
      assert Then(w, []) == w;
      w' := w;
    } else if w.provider.job.value.dispatched {
      w' := Next(w, Finish(Error));
      LeadsStep(w, Finish(Error));
      StepKeeps(w, Finish(Error));
    } else {
      var next := Next(w, Select(true));
      LeadsStep(w, Select(true));
      StepKeeps(w, Select(true));
      w' := EndJob(next);
      LeadsOn(w, next, w');
    }
  }

  /** An identifier that is not in a set. */
  lemma NewId(s: set<Id>) returns (id: Id)
    ensures id !in s
  {
    if s == {} {
      id := 0;
    } else {
      var all := Sorted(s);
      SortedSpec(s);
      id := all[|all| - 1] + 1;
      assert forall x :: x in s ==> x in all;
    }
  }

  /** A model call for a request made under grant `n` was charged to another. */
  ghost predicate Mischarged(w: World, n: nat) {
    exists d :: d in w.provider.dispatches && d.gen == n && d.under != n
  }

  /** A request made under grant `n` is charged to the rival that the provider holds. */
  lemma Mischarge(w: World, n: nat, terms: Terms) returns (w': World)
    requires Taken(w, n, terms) && w.host.grant == Some(HostGrant(n, terms, 0, {})) && ValidTerms(terms)
    ensures Leads(w, w') && Mischarged(w', n)
  {
    var id := NewId(w.provider.grant.value.seen);
    var infer := Infer(true, terms.mission, Request(id, terms.model, true));
    LeadsStep(w, infer);
    var asked := Next(w, infer);
    assert asked.down == [Ask(n, |w.host.calls|, terms.mission, id, terms.model)];
    LeadsNext(w, asked, Take(true, false, false));
    var taken := Next(asked, Take(true, false, false));
    LeadsNext(w, taken, Select(true));
    w' := Next(taken, Select(true));
    var ds := w'.provider.dispatches;
    assert ds[|ds| - 1] in ds;
  }

  lemma RivalMischarges(steps: seq<Step>, terms: Terms) returns (w: World)
    requires ValidTerms(terms) && Rival(After(steps), terms)
    ensures Leads(After(steps + [Begin(true, terms)]), w) && Mischarged(w, |After(steps).terms|)
  {
    var n := |After(steps).terms|;
    BegunIsNew(steps, terms);
    var here := After(steps + [Begin(true, terms)]);
    AlwaysOk(steps + [Begin(true, terms)]);
    var idle := EndJob(here);
    assert idle.down[..|idle.down| - 1] == After(steps).down;
    var arrived := ArriveAll(idle, n, terms);
    w := Mischarge(arrived, n, terms);
    LeadsOn(here, idle, arrived);
    LeadsOn(here, arrived, w);
  }

  // ---------------------------------------------------------------- the exact condition

  /** However the run goes on, the model calls for requests made under grant `n` are charged to it. */
  ghost predicate AlwaysCharged(steps: seq<Step>, n: nat) {
    forall more :: !Mischarged(After(steps + more), n)
  }

  /**
   * When a grant is begun, the requests made under it can only ever be charged to it if and only if no other grant with
   * its mission and model can be in place at the provider, with a call left, when it arrives there.
   */
  lemma OwnCharge(steps: seq<Step>, terms: Terms)
    requires ValidTerms(terms)
    ensures AlwaysCharged(steps + [Begin(true, terms)], |After(steps).terms|) <==> !Rival(After(steps), terms)
  {
    var here, n := steps + [Begin(true, terms)], |After(steps).terms|;
    if Rival(After(steps), terms) {
      var w := RivalMischarges(steps, terms);
      var more := GoOn(here, w);
      assert Mischarged(After(here + more), n);
    } else {
      NoRivalSeparates(steps, terms);
      forall more
        ensures !Mischarged(After(here + more), n)
      {
        StaysSeparate(here, more, n, terms);
      }
    }
  }

  /** A run in which a request is charged to a grant that had been replaced when it was made. */
  lemma ReplacedGrant() returns (steps: seq<Step>)
    ensures Mischarged(After(steps), 1)
  {
    var t := Terms(1, 1, 2);
    var first := [Begin(true, t)];
    AfterSnoc([], Begin(true, t));
    assert [] + first == first && After(first).down == [Grant(0, t)] && After(first).terms == [t];
    assert MayAdmit(After(first).down[1..], true, t);
    var w := RivalMischarges(first, t);
    var more := GoOn(first + [Begin(true, t)], w);
    steps := first + [Begin(true, t)] + more;
  }

  // ---------------------------------------------------------------- runs that end a grant before they begin another

  /** Every grant is begun when there is none. */
  ghost predicate OneByOne(steps: seq<Step>) {
    forall i: nat {:trigger BeginsAlone(steps, i)} :: BeginsAlone(steps, i)
  }

  ghost predicate BeginsAlone(steps: seq<Step>, i: nat) {
    i < |steps| && Starts(steps[i]) ==> After(steps[..i]).host.grant.None?
  }

  predicate Starts(step: Step) {
    step.Begin? && step.ready && ValidTerms(step.terms)
  }

  /** After the end of a grant nothing is left at the provider once everything has arrived. */
  lemma {:induction false} NoneMayAdmit(down: seq<Down>, live: Option<nat>, arrived: nat, all: seq<Terms>, held: bool,
      terms: Terms)
    requires Orderly(down, live, arrived, None, all) && (held ==> live.Some?)
    ensures !MayAdmit(down, held, terms)
    decreases |down|
  {
    if down != [] {
      var m := down[0];
      NoneMayAdmit(down[1..], if m.Grant? then Some(m.gen) else if m.Revoke? then None else live,
        if m.Grant? then arrived + 1 else arrived, all, Held(m, held, terms), terms);
    }
  }

  lemma {:induction false} BegunSomewhere(steps: seq<Step>, n: nat) returns (i: nat)
    requires n < |After(steps).terms|
    ensures i < |steps| && Starts(steps[i]) && |After(steps[..i]).terms| == n
  {
    var k := |steps| - 1;
    if n < |After(steps[..k]).terms| {
      i := BegunSomewhere(steps[..k], n);
      assert steps[..k][..i] == steps[..i];
    } else {
      i := k;
    }
  }

  lemma NoRivalAfterEnd(steps: seq<Step>, terms: Terms)
    requires After(steps).host.grant.None?
    ensures !Rival(After(steps), terms)
  {
    AlwaysOk(steps);
    var w := After(steps);
    NoneMayAdmit(w.down, w.live, w.arrived, w.terms, Admits(w.provider.grant, terms), terms);
  }

  lemma NothingMadeYet(steps: seq<Step>, n: nat)
    requires n >= |After(steps).terms|
    ensures !Mischarged(After(steps), n)
  {
    AlwaysFlows(steps);
    forall d | d in After(steps).provider.dispatches
      ensures d.gen < n
    {
      assert AskedOk(After(steps), d.gen) && d.id in AskedIn(After(steps).asked, d.gen);
    }
  }

  lemma ChargedFromThere(steps: seq<Step>, i: nat)
    requires i < |steps| && Starts(steps[i]) && After(steps[..i]).host.grant.None?
    ensures !Mischarged(After(steps), |After(steps[..i]).terms|)
  {
    var front, terms, rest := steps[..i], steps[i].terms, steps[i + 1..];
    NoRivalAfterEnd(front, terms);
    OwnCharge(front, terms);
    assert !Mischarged(After(front + [Begin(true, terms)] + rest), |After(front).terms|);
    assert front + [Begin(true, terms)] + rest == steps;
  }

  /** In such a run every model call is charged to the grant that its request was made under. */
  lemma OwnCharges(steps: seq<Step>, n: nat)
    requires OneByOne(steps)
    ensures !Mischarged(After(steps), n)
  {
    if n < |After(steps).terms| {
      var i := BegunSomewhere(steps, n);
      assert BeginsAlone(steps, i);
      ChargedFromThere(steps, i);
    } else {
      NothingMadeYet(steps, n);
    }
  }

  // ---------------------------------------------------------------- calls that drop off the table

  /** Every call with a timer is on the table of waiting calls. */
  ghost predicate AllOnTable(h: Host) {
    && (forall id :: id in h.pending ==> h.grant.Some? && id in h.grant.value.seen)
    && (forall k :: k in h.timers ==> h.timers[k] in h.pending && h.pending[h.timers[k]].infer == k)
  }

  lemma StepKeepsTable(w: World, step: Step)
    requires WorldOk(w) && AllOnTable(w.host) && (Starts(step) ==> w.host.grant.None?)
    ensures AllOnTable(Next(w, step).host)
  {
    var h, h' := w.host, Next(w, step).host;
    forall k | k in h.timers
      ensures Awaited(h, k) && CallOk(h, k)
    {
      assert h.pending[h.timers[k]].infer == k;
    }
    if step.Hear? && w.up != [] {
      assert WaitingOk(h, w.up[0].id);
    }
  }

  lemma {:induction false} AlwaysOnTable(steps: seq<Step>)
    requires OneByOne(steps)
    ensures AllOnTable(After(steps).host)
  {
    if steps != [] {
      var n := |steps| - 1;
      var front := steps[..n];
      forall i: nat {:trigger BeginsAlone(front, i)}
        ensures BeginsAlone(front, i)
      {
        assert BeginsAlone(steps, i) && (i < n ==> front[..i] == steps[..i]);
      }
      assert BeginsAlone(steps, n);
      AlwaysOnTable(front);
      AlwaysOk(front);
      StepKeepsTable(After(front), steps[n]);
    }
  }

  /** In such a run, ending the grant answers every call. */
  lemma EndAnswersEveryone(steps: seq<Step>)
    requires OneByOne(steps)
    ensures AllAnswered(After(steps + [End]).host)
  {
    AlwaysOnTable(steps);
    AlwaysOk(steps);
    AfterSnoc(steps, End);
    var h := After(steps).host;
    forall k | 0 <= k < |h.calls|
      ensures |CancelledAll(h)[k].answers| == 1
    {
      assert CallOk(h, k);
      AwaitedIsTimed(h, k);
    }
  }

  lemma BeginThenAsk(w: World, t: Terms, r: Request)
    requires t == Terms(1, 1, 2) && r == Request(7, 2, true)
    ensures var h, h', k := w.host, Next(Next(w, Begin(true, t)), Infer(true, 1, r)).host, |w.host.calls|;
      && h'.pending == h.pending[7 := Waiting(k, 1)] && h'.calls == h.calls + [Call(7, [])]
  {
  }

  /** A call under a grant with one call, after whatever went before. */
  lemma AskOnce(steps: seq<Step>, t: Terms, r: Request) returns (more: seq<Step>)
    requires t == Terms(1, 1, 2) && r == Request(7, 2, true)
    ensures var h, h', k := After(steps).host, After(steps + more).host, |After(steps).host.calls|;
      && h'.pending == h.pending[7 := Waiting(k, 1)] && h'.calls == h.calls + [Call(7, [])]
  {
    BeginThenAsk(After(steps), t, r);
    var begin, infer := Begin(true, t), Infer(true, 1, r);
    AfterSnoc(steps, begin);
    AfterSnoc(steps + [begin], infer);
    more := [begin] + [infer];
    assert steps + more == steps + [begin] + [infer];
  }

  /** A run in which the end of a grant leaves a call unanswered: a second grant has reused its identifier. */
  lemma LeftWaiting() returns (steps: seq<Step>)
    ensures !AllAnswered(After(steps + [End]).host)
  {
    var t, r := Terms(1, 1, 2), Request(7, 2, true);
    var first := AskOnce([], t, r);
    assert [] + first == first;
    var second := AskOnce(first, t, r);
    steps := first + second;
    AfterSnoc(steps, End);
    var h := After(steps).host;
    assert h.calls == [Call(7, []), Call(7, [])] && h.pending == map[7 := Waiting(1, 1)];
    assert !Awaited(h, 0);
    assert CancelledAll(h)[0] == Call(7, []);
  }
}
