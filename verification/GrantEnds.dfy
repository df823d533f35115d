/** The two ends of the grant protocol as they are programmed (demo/vm/provider-session.js, demo/vm/provider.js). */
module GrantEnds {
  import opened Basics
  import opened Grants
  import opened GrantProtocol

  /** No call but `k` has changed. */
  predicate OnlyCall(before: seq<Call>, after: seq<Call>, k: nat) {
    |before| == |after| && forall j :: 0 <= j < |before| && j != k ==> after[j] == before[j]
  }

  /** The host's end. Messages to the provider wait in `sent`. */
  class ProviderSession {
    var gens: nat
    var grant: Option<HostGrant>
    var pending: map<Id, Waiting>
    var timers: map<nat, Id>
    var calls: seq<Call>
    var sent: seq<Down>
    /** How many requests were sent under the current grant. */
    ghost var asked: nat

    ghost function View(): Host
      reads this
    {
      Host(gens, grant, pending, timers, calls)
    }

    /** Every call waits, unanswered and timed, or is answered once; no more was asked than the grant authorises. */
    ghost predicate Valid()
      reads this
    {
      HostOk(View()) && (grant.Some? ==> asked == grant.value.used <= grant.value.terms.calls)
    }

    constructor ()
      ensures Valid() && View() == NEW_HOST && sent == []
    {
      gens, grant, pending, timers, calls, sent, asked := 0, None, map[], map[], [], [], 0;
      new;
      NewHostOk();
    }

    /** Throws when there is no connection or the budget is invalid, and otherwise replaces whatever grant there was. */
    method Begin(ready: bool, terms: Terms) returns (ok: bool)
      requires Valid()
      modifies this
      ensures Valid() && View() == Begun(old(View()), ready, terms).host
      ensures sent == old(sent) + Begun(old(View()), ready, terms).messages
      ensures ok <==> ready && ValidTerms(terms)
      ensures calls == old(calls) && (ok ==> asked == 0) && (!ok ==> View() == old(View()) && sent == old(sent))
    {
      BegunOk(View(), ready, terms);
      ok := ready && 1 <= terms.calls <= 3;
      if ok {
        grant := Some(HostGrant(gens, terms, 0, {}));
        sent := sent + [Grant(gens, terms)];
        gens := gens + 1;
        asked := 0;
      }
    }

    /** The call may be registered: it is within a grant of its mission and model, and its identifier is new to it. */
    predicate Admissible(ready: bool, mission: Name, r: Request)
      reads this
    {
      && ready && grant.Some? && grant.value.terms.mission == mission
      && r.valid && r.model == grant.value.terms.model && r.id !in grant.value.seen
      && grant.value.used < grant.value.terms.calls
    }

    /**
     * A call is refused at once, or its request is sent and it waits for a response, its timer or the end of the grant.
     */
    method Infer(ready: bool, mission: Name, r: Request) returns (registered: bool)
      requires Valid()
      modifies this
      ensures Valid() && View() == Inferred(old(View()), ready, mission, r).host
      ensures sent == old(sent) + Inferred(old(View()), ready, mission, r).messages
      ensures registered <==> old(Admissible(ready, mission, r))
      ensures |calls| == |old(calls)| + 1 && calls[..|old(calls)|] == old(calls)
      ensures |old(calls)| in timers <==> registered
      ensures |calls[|old(calls)|].answers| == if registered then 0 else 1
      ensures |sent| == |old(sent)| + if registered then 1 else 0
    {
      InferredOk(View(), ready, mission, r);
      assert CallOk(View(), |calls|);
      registered := false;
      if !ready || grant.None? || grant.value.terms.mission != mission {
        calls := calls + [Call(r.id, [Disconnected])];
        return;
      }
      var g := grant.value;
      if !r.valid || r.model != g.terms.model || r.id in g.seen || g.used >= g.terms.calls {
        calls := calls + [Call(r.id, [Exhausted])];
        return;
      }
      grant := Some(g.(used := g.used + 1, seen := g.seen + {r.id}));
      timers := timers[|calls| := r.id];
      pending := pending[r.id := Waiting(|calls|, mission)];
      sent := sent + [Ask(g.gen, |calls|, mission, r.id, r.model)];
      calls := calls + [Call(r.id, [])];
      asked := asked + 1;
      registered := true;
    }

    /**
     * Every call on the table of waiting calls is cancelled, each exactly once, and no other call changes: one that has
     * dropped off the table goes on waiting for its timer.
     */
    method End()
      requires Valid()
      modifies this
      ensures Valid() && View() == EndedGrant(old(View())).host && sent == old(sent) + [Revoke]
      ensures grant.None? && pending == map[] && |calls| == |old(calls)|
      ensures forall k :: 0 <= k < |calls| ==>
        if old(Awaited(View(), k)) then calls[k].answers == [Cancelled] && k !in timers else calls[k] == old(calls)[k]
      ensures AllAnswered(View()) <==> |old(pending)| == |old(timers)|
    {
      EndedOk(View());
      EndAnswersAll(View());
      EndsCalls(View());
      CancelWaiting();
      grant, pending := None, map[];
      sent := sent + [Revoke];
    }

    /** The calls on the table are cancelled one by one, and their timers stopped. */
    method CancelWaiting()
      requires HostOk(View())
      modifies this`calls, this`timers
      ensures calls == old(CancelledAll(View())) && timers == old(RunningOn(View()))
    {
      ghost var before := View();
      var rest := pending.Keys;
      while rest != {}
        invariant rest <= before.pending.Keys && |calls| == |before.calls|
        invariant forall k :: k in timers <==> k in before.timers && !Cleared(before, rest, k)
        invariant forall k :: k in timers ==> timers[k] == before.timers[k]
        invariant forall k :: 0 <= k < |calls| ==> calls[k] == Halfway(before, rest, k)
        decreases |rest|
      {
        var id :| id in rest;
        ClearedStep(before, rest, id);
        timers := timers - {pending[id].infer};
        calls := Resolved(calls, pending[id].infer, Cancelled);
        rest := rest - {id};
      }
      assert forall k: nat :: Cleared(before, {}, k) <==> Awaited(before, k);
      assert calls == CancelledAll(before) && timers == RunningOn(before);
    }

    /** A response answers the call that waits for its identifier and mission, and changes no other. */
    method Receive(m: Up)
      requires Valid()
      modifies this
      ensures Valid() && View() == Received(old(View()), m) && sent == old(sent)
      ensures
        if m.id in old(pending) && old(pending)[m.id].mission == m.mission then
          var k := old(pending)[m.id].infer;
          && OnlyCall(old(calls), calls, k) && k < |calls| && k in old(timers) && k !in timers
          && calls[k].answers == [Replied(m.ok, m.infer, m.gen)]
        else View() == old(View())
    {
      ReceivedOk(View(), m);
      if m.id in pending && pending[m.id].mission == m.mission {
        var k := pending[m.id].infer;
        assert WaitingOk(View(), m.id) && CallOk(View(), k);
        timers := timers - {k};
        pending := pending - {m.id};
        calls := Resolved(calls, k, Replied(m.ok, m.infer, m.gen));
      }
    }

    /** A timer answers its own call and changes no other. */
    method FireTimer(k: nat)
      requires Valid() && k in timers
      modifies this
      ensures Valid() && View() == Expired(old(View()), k) && sent == old(sent)
      ensures OnlyCall(old(calls), calls, k) && k < |calls| && k !in timers && calls[k].answers == [TimedOut]
    {
      ExpiredOk(View(), k);
      assert CallOk(View(), k);
      pending := pending - {timers[k]};
      timers := timers - {k};
      calls := Resolved(calls, k, TimedOut);
    }
  }

  lemma NewHostOk()
    ensures HostOk(NEW_HOST)
  {
    assert forall id {:trigger WaitingOk(NEW_HOST, id)} :: WaitingOk(NEW_HOST, id);
    assert forall k {:trigger CallOk(NEW_HOST, k)} :: CallOk(NEW_HOST, k);
  }

  /** While a grant is being ended, call `k` has been cancelled: it is on the table, and not among `rest`. */
  ghost predicate Cleared(h: Host, rest: set<Id>, k: nat) {
    exists id :: id in h.pending && id !in rest && h.pending[id].infer == k
  }

  ghost function Halfway(h: Host, rest: set<Id>, k: nat): Call
    requires k < |h.calls|
  {
    if Cleared(h, rest, k) then h.calls[k].(answers := h.calls[k].answers + [Cancelled]) else h.calls[k]
  }

  lemma ClearedStep(h: Host, rest: set<Id>, id: Id)
    requires HostOk(h) && id in rest && id in h.pending
    ensures forall k: nat :: Cleared(h, rest - {id}, k) <==> k == h.pending[id].infer || Cleared(h, rest, k)
    ensures !Cleared(h, rest, h.pending[id].infer) && h.pending[id].infer < |h.calls|
  {
    assert WaitingOk(h, id) && CallOk(h, h.pending[id].infer);
    forall other | other in h.pending && other != id
      ensures h.pending[other].infer != h.pending[id].infer
    {
      assert WaitingOk(h, other);
    }
    assert id in h.pending && id !in rest - {id} && h.pending[id].infer == h.pending[id].infer;
    forall k: nat
      ensures Cleared(h, rest - {id}, k) <==> k == h.pending[id].infer || Cleared(h, rest, k)
    {
    }
  }

  /** What ending a grant does to each call. */
  lemma EndsCalls(h: Host)
    requires HostOk(h)
    ensures var h' := EndedGrant(h).host;
      forall k :: 0 <= k < |h.calls| ==>
        if Awaited(h, k) then h'.calls[k].answers == [Cancelled] && k !in h'.timers else h'.calls[k] == h.calls[k]
  {
    forall k | 0 <= k < |h.calls| && Awaited(h, k)
      ensures h.calls[k].answers == []
    {
      AwaitedIsTimed(h, k);
      assert CallOk(h, k);
    }
  }

  /** The provider's end. Messages to the host wait in `sent`. */
  class ProviderPanel {
    var grant: Option<ProviderGrant>
    var job: Option<Job>
    var sent: seq<Up>
    ghost var dispatches: seq<Dispatch>
    ghost var notes: seq<Note>

    ghost function View(): Provider
      reads this
    {
      Provider(grant, job, dispatches, notes)
    }

    /** Requests are admitted once each, and no more of them than the grant authorises. */
    ghost predicate Valid()
      reads this
    {
      grant.Some? ==> ValidTerms(grant.value.terms) && grant.value.used == |grant.value.seen| <= grant.value.terms.calls
    }

    constructor ()
      ensures Valid() && View() == NEW_PROVIDER && sent == []
    {
      grant, job, sent := None, None, [];
      dispatches, notes := [], [];
    }

    /** The request may be put to work: signed in, idle, in time, and within the grant. */
    predicate Admissible(m: Down, signedIn: bool, late: bool, oversize: bool)
      requires m.Ask?
      reads this
    {
      && !oversize && signedIn && job.None? && !late && grant.Some?
      && grant.value.terms.mission == m.mission && grant.value.terms.model == m.model
      && grant.value.used < grant.value.terms.calls && m.id !in grant.value.seen
    }

    /**
     * A revocation takes the grant away, a grant is taken only when idle and signed in, and a request is put to work
     * exactly when it may be; every other request of acceptable size is answered at once, and not with success.
     */
    method Receive(m: Down, signedIn: bool, late: bool, oversize: bool)
      requires Valid()
      modifies this
      ensures Valid() && View() == Took(old(View()), m, signedIn, late, oversize).provider
      ensures sent == old(sent) + Took(old(View()), m, signedIn, late, oversize).messages
      ensures m.Revoke? ==> grant.None? && job == old(job) && sent == old(sent)
      ensures m.Grant? ==>
        && job == old(job) && sent == old(sent)
        && grant ==
           if ValidTerms(m.terms) && job.None? && signedIn
           then Some(ProviderGrant(m.gen, m.terms, 0, {})) else old(grant)
      ensures m.Ask? ==>
        if old(Admissible(m, signedIn, late, oversize)) then
          && job == Some(Job(old(grant).value.gen, m.gen, m.infer, m.mission, m.id, false))
          && grant.value.seen == old(grant).value.seen + {m.id} && sent == old(sent)
        else
          && grant == old(grant) && job == old(job)
          && sent == old(sent) + if oversize then [] else [Response(m.infer, m.gen, m.mission, m.id, false)]
    {
      if m.Revoke? {
        notes := notes + if grant.Some? then [Revoked(grant.value.gen)] else [];
        grant := None;
        return;
      }
      if m.Grant? {
        if 1 <= m.terms.calls <= 3 && job.None? && signedIn {
          grant := Some(ProviderGrant(m.gen, m.terms, 0, {}));
        }
        return;
      }
      if oversize {
        return;
      }
      if !signedIn || grant.None? || grant.value.terms.mission != m.mission || grant.value.terms.model != m.model {
        sent := sent + [Response(m.infer, m.gen, m.mission, m.id, false)];
        return;
      }
      var g := grant.value;
      if job.Some? || late || g.used >= g.terms.calls || m.id in g.seen {
        sent := sent + [Response(m.infer, m.gen, m.mission, m.id, false)];
        return;
      }
      grant := Some(g.(used := g.used + 1, seen := g.seen + {m.id}));
      job := Some(Job(g.gen, m.gen, m.infer, m.mission, m.id, false));
    }

    /** Resumes after the model lookup: the model is called once, or the request is refused. */
    method Dispatch(available: bool)
      requires Valid() && job.Some? && !job.value.dispatched
      modifies this
      ensures Valid() && View() == Selected(old(View()), available).provider && grant == old(grant)
      ensures sent == old(sent) + Selected(old(View()), available).messages
      ensures |dispatches| == |old(dispatches)| + if available then 1 else 0
      ensures if available then job.Some? && sent == old(sent) else job.None? && |sent| == |old(sent)| + 1
    {
      var j := job.value;
      if available {
        job := Some(j.(dispatched := true));
        dispatches := dispatches + [Grants.Dispatch(j.under, j.gen, j.id)];
      } else {
        sent := sent + [Respond(j, false)];
        job := None;
      }
    }

    /** Resumes after the model call: one reply, with success exactly for a good result under an unchanged grant. */
    method Complete(outcome: Outcome)
      requires Valid() && job.Some? && job.value.dispatched
      modifies this
      ensures Valid() && View() == Finished(old(View()), outcome).provider
      ensures job.None? && grant == old(grant) && dispatches == old(dispatches)
      ensures |sent| == |old(sent)| + 1 && sent[..|old(sent)|] == old(sent)
      ensures sent[|old(sent)|].id == old(job).value.id && sent[|old(sent)|].infer == old(job).value.infer
      ensures sent[|old(sent)|].ok <==> outcome == Good && grant.Some? && grant.value.gen == old(job).value.under
      ensures sent == old(sent) + Finished(old(View()), outcome).messages
    {
      var j := job.value;
      job := None;
      if outcome == Error || grant.None? || grant.value.gen != j.under || outcome != Good {
        sent := sent + [Respond(j, false)];
        return;
      }
      sent := sent + [Respond(j, true)];
      notes := notes + [Succeeded(j.under, j.id)];
    }
  }

  // ---------------------------------------------------------------- both ends together

  /** Both ends and the channels between them; whatever steps are performed, the classes run the protocol. */
  class Bridge {
    const session: ProviderSession
    const panel: ProviderPanel
    ghost var terms: seq<Terms>
    ghost var asked: set<(nat, Id)>
    ghost var arrived: nat
    ghost var live: Option<nat>
    ghost var trace: seq<Step>

    ghost function View(): World
      reads this, session, panel
    {
      World(session.View(), panel.View(), session.sent, panel.sent, terms, asked, arrived, live)
    }

    ghost predicate Valid()
      reads this, session, panel
    {
      View() == After(trace) && session.Valid() && panel.Valid()
    }

    constructor ()
      ensures Valid() && trace == [] && fresh(session) && fresh(panel)
    {
      session := new ProviderSession();
      panel := new ProviderPanel();
      terms, asked, arrived, live, trace := [], {}, 0, None, [];
    }

    lemma AfterOne(step: Step)
      requires Valid()
      ensures After(trace + [step]) == Next(View(), step)
    {
      assert (trace + [step])[..|trace|] == trace;
    }

    /** Any step of the protocol, performed by the two ends. */
    method Perform(step: Step)
      requires Valid()
      modifies this, session, panel
      ensures Valid() && trace == old(trace) + [step]
    {
      match step
      case Begin(ready, t) => PerformBegin(ready, t);
      case Hear(oversize) => PerformHear(oversize);
      case Take(signedIn, late, oversize) => PerformTake(signedIn, late, oversize);
      case Select(available) => PerformSelect(available);
      case Finish(outcome) => PerformFinish(outcome);
      case _ => PerformHost(step);
    }

    method PerformBegin(ready: bool, t: Terms)
      requires Valid()
      modifies this, session
      ensures Valid() && trace == old(trace) + [Begin(ready, t)]
    {
      AfterOne(Begin(ready, t));
      trace := trace + [Begin(ready, t)];
      var ok := session.Begin(ready, t);
      terms := terms + if ok then [t] else [];
    }

    method PerformHost(step: Step)
      requires Valid() && (step.Infer? || step.End? || step.Expire?)
      modifies this, session
      ensures Valid() && trace == old(trace) + [step]
    {
      AfterOne(step);
      trace := trace + [step];
      match step {
        case Infer(ready, mission, r) =>
          var registered := session.Infer(ready, mission, r);
          if registered {
            asked := asked + {(session.grant.value.gen, r.id)};
          }
        case End => session.End();
        case Expire(k) =>
          if k in session.timers {
            session.FireTimer(k);
          }
      }
    }

    method PerformHear(oversize: bool)
      requires Valid()
      modifies this, session, panel
      ensures Valid() && trace == old(trace) + [Hear(oversize)]
    {
      AfterOne(Hear(oversize));
      trace := trace + [Hear(oversize)];
      if panel.sent != [] {
        var m := panel.sent[0];
        panel.sent := panel.sent[1..];
        if !oversize {
          session.Receive(m);
        }
      }
    }

    method PerformTake(signedIn: bool, late: bool, oversize: bool)
      requires Valid()
      modifies this, session, panel
      ensures Valid() && trace == old(trace) + [Take(signedIn, late, oversize)]
    {
      AfterOne(Take(signedIn, late, oversize));
      trace := trace + [Take(signedIn, late, oversize)];
      if session.sent != [] {
        var m := session.sent[0];
        session.sent := session.sent[1..];
        arrived := if m.Grant? then arrived + 1 else arrived;
        live := if m.Grant? then Some(m.gen) else if m.Revoke? then None else live;
        panel.Receive(m, signedIn, late, oversize);
      }
    }

    method PerformSelect(available: bool)
      requires Valid()
      modifies this, panel
      ensures Valid() && trace == old(trace) + [Select(available)]
    {
      AfterOne(Select(available));
      trace := trace + [Select(available)];
      if panel.job.Some? && !panel.job.value.dispatched {
        panel.Dispatch(available);
      }
    }

    method PerformFinish(outcome: Outcome)
      requires Valid()
      modifies this, panel
      ensures Valid() && trace == old(trace) + [Finish(outcome)]
    {
      AfterOne(Finish(outcome));
      trace := trace + [Finish(outcome)];
      if panel.job.Some? && panel.job.value.dispatched {
        panel.Complete(outcome);
      }
    }
  }
}
