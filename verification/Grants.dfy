/** The two ends of the provider grant protocol (demo/vm/provider-session.js, demo/vm/provider.js), each on its own. */
module Grants {
  import opened Basics

  type Id = Name

  /** What a mission is authorised to do: at most `calls` model calls with one model. */
  datatype Terms = Terms(mission: Name, calls: int, model: Name)

  predicate ValidTerms(t: Terms) {
    1 <= t.calls <= 3
  }

  /** What the host sends. Generations and inference numbers are not on the wire: they name grants and calls. */
  datatype Down = Grant(gen: nat, terms: Terms) | Ask(gen: nat, infer: nat, mission: Name, id: Id, model: Name) | Revoke

  /** What the provider answers. */
  datatype Up = Response(infer: nat, gen: nat, mission: Name, id: Id, ok: bool)

  // ---------------------------------------------------------------- the host

  datatype Answer = Disconnected | Exhausted | Cancelled | TimedOut | Replied(ok: bool, infer: nat, gen: nat)

  /** One call of `infer`, with every answer its promise was ever resolved with. */
  datatype Call = Call(id: Id, answers: seq<Answer>)

  datatype HostGrant = HostGrant(gen: nat, terms: Terms, used: nat, seen: set<Id>)

  datatype Waiting = Waiting(infer: nat, mission: Name)

  datatype Request = Request(id: Id, model: Name, valid: bool)

  /** `timers` maps a call whose timer is running to the request it will give up. */
  datatype Host = Host(gens: nat, grant: Option<HostGrant>, pending: map<Id, Waiting>, timers: map<nat, Id>,
      calls: seq<Call>)

  datatype Sent = Sent(host: Host, messages: seq<Down>)

  const NEW_HOST := Host(0, None, map[], map[], [])

  function Resolved(calls: seq<Call>, k: nat, a: Answer): seq<Call> {
    if k < |calls| then calls[k := calls[k].(answers := calls[k].answers + [a])] else calls
  }

  /** A new grant, in the place of any that there was; the calls that wait go on waiting. */
  function Begun(h: Host, ready: bool, terms: Terms): Sent {
    if !ready || !ValidTerms(terms) then Sent(h, [])
    else Sent(h.(gens := h.gens + 1, grant := Some(HostGrant(h.gens, terms, 0, {}))), [Grant(h.gens, terms)])
  }

  function Inferred(h: Host, ready: bool, mission: Name, r: Request): Sent {
    var k := |h.calls|;
    if !ready || h.grant.None? || h.grant.value.terms.mission != mission then
      Sent(h.(calls := h.calls + [Call(r.id, [Disconnected])]), [])
    else
      var g := h.grant.value;
      if !r.valid || r.model != g.terms.model || r.id in g.seen || g.used >= g.terms.calls then
        Sent(h.(calls := h.calls + [Call(r.id, [Exhausted])]), [])
      else
        Sent(h.(grant := Some(g.(used := g.used + 1, seen := g.seen + {r.id})),
                pending := h.pending[r.id := Waiting(k, mission)],
                timers := h.timers[k := r.id],
                calls := h.calls + [Call(r.id, [])]),
             [Ask(g.gen, k, mission, r.id, r.model)])
  }

  ghost predicate Awaited(h: Host, k: nat) {
    exists id :: id in h.pending && h.pending[id].infer == k
  }

  ghost function CancelledAll(h: Host): seq<Call> {
    seq(|h.calls|, k requires 0 <= k < |h.calls| =>
      if Awaited(h, k) then h.calls[k].(answers := h.calls[k].answers + [Cancelled]) else h.calls[k])
  }

  /** Only the timers of calls that are on the table of waiting calls are stopped. */
  ghost function RunningOn(h: Host): map<nat, Id> {
    map k | k in h.timers && !Awaited(h, k) :: h.timers[k]
  }

  ghost function EndedGrant(h: Host): Sent {
    Sent(h.(grant := None, pending := map[], timers := RunningOn(h), calls := CancelledAll(h)), [Revoke])
  }

  function Received(h: Host, m: Up): Host {
    if m.id in h.pending && h.pending[m.id].mission == m.mission then
      var k := h.pending[m.id].infer;
      h.(pending := h.pending - {m.id}, timers := h.timers - {k},
         calls := Resolved(h.calls, k, Replied(m.ok, m.infer, m.gen)))
    else h
  }

  /** The timer of call `k` fires. */
  function Expired(h: Host, k: nat): Host {
    if k in h.timers then
      h.(pending := h.pending - {h.timers[k]}, timers := h.timers - {k}, calls := Resolved(h.calls, k, TimedOut))
    else h
  }

  // ---------------------------------------------------------------- what the host keeps

  ghost predicate WaitingOk(h: Host, id: Id) {
    id in h.pending ==> h.pending[id].infer in h.timers && h.timers[h.pending[id].infer] == id
  }

  /** A call is timed and unanswered, or answered once. */
  ghost predicate CallOk(h: Host, k: nat) {
    && (k in h.timers ==> k < |h.calls| && h.calls[k].id == h.timers[k])
    && (k < |h.calls| ==> |h.calls[k].answers| == if k in h.timers then 0 else 1)
  }

  ghost predicate HostOk(h: Host) {
    && (forall id {:trigger WaitingOk(h, id)} :: WaitingOk(h, id))
    && (forall k {:trigger CallOk(h, k)} :: CallOk(h, k))
    && (h.grant.Some? ==> var g := h.grant.value;
          g.gen + 1 == h.gens && ValidTerms(g.terms) && g.used == |g.seen| <= g.terms.calls)
  }

  lemma BegunOk(h: Host, ready: bool, terms: Terms)
    requires HostOk(h)
    ensures HostOk(Begun(h, ready, terms).host)
  {
    var h' := Begun(h, ready, terms).host;
    forall id {:trigger WaitingOk(h', id)}
      ensures WaitingOk(h', id)
    {
      assert WaitingOk(h, id);
    }
    forall k {:trigger CallOk(h', k)}
      ensures CallOk(h', k)
    {
      assert CallOk(h, k);
    }
  }

  lemma InferredOk(h: Host, ready: bool, mission: Name, r: Request)
    requires HostOk(h)
    ensures HostOk(Inferred(h, ready, mission, r).host)
  {
    var h' := Inferred(h, ready, mission, r).host;
    assert WaitingOk(h, r.id) && CallOk(h, |h.calls|);
    forall id {:trigger WaitingOk(h', id)}
      ensures WaitingOk(h', id)
    {
      assert WaitingOk(h, id);
      if id in h.pending {
        assert CallOk(h, h.pending[id].infer);
      }
    }
    forall k {:trigger CallOk(h', k)}
      ensures CallOk(h', k)
    {
      assert CallOk(h, k);
    }
  }

  lemma EndedOk(h: Host)
    requires HostOk(h)
    ensures HostOk(EndedGrant(h).host)
  {
    var h' := EndedGrant(h).host;
    forall k {:trigger CallOk(h', k)}
      ensures CallOk(h', k)
    {
      AwaitedIsTimed(h, k);
      assert CallOk(h, k);
    }
  }

  lemma AwaitedIsTimed(h: Host, k: nat)
    requires HostOk(h)
    ensures Awaited(h, k) ==> k in h.timers
    ensures Awaited(h, k) <==> k in h.timers && h.timers[k] in h.pending && h.pending[h.timers[k]].infer == k
  {
    if Awaited(h, k) {
      var id :| id in h.pending && h.pending[id].infer == k;
      assert WaitingOk(h, id);
    }
  }

  /** Call `k` gets its answer, and no call waits for its identifier any more. */
  lemma AnsweredOk(h: Host, k: nat, a: Answer)
    requires HostOk(h) && k in h.timers
    ensures HostOk(h.(pending := h.pending - {h.timers[k]}, timers := h.timers - {k}, calls := Resolved(h.calls, k, a)))
  {
    var h' := h.(pending := h.pending - {h.timers[k]}, timers := h.timers - {k}, calls := Resolved(h.calls, k, a));
    assert CallOk(h, k);
    forall i {:trigger WaitingOk(h', i)}
      ensures WaitingOk(h', i)
    {
      assert WaitingOk(h, i);
    }
    forall j {:trigger CallOk(h', j)}
      ensures CallOk(h', j)
    {
      assert CallOk(h, j);
    }
  }

  lemma ReceivedOk(h: Host, m: Up)
    requires HostOk(h)
    ensures HostOk(Received(h, m))
  {
    if m.id in h.pending {
      assert WaitingOk(h, m.id);
      AnsweredOk(h, h.pending[m.id].infer, Replied(m.ok, m.infer, m.gen));
    }
  }

  lemma ExpiredOk(h: Host, k: nat)
    requires HostOk(h)
    ensures HostOk(Expired(h, k)) && k !in Expired(h, k).timers
  {
    if k in h.timers {
      AnsweredOk(h, k, TimedOut);
    }
  }

  /** Every call has its answer. */
  ghost predicate AllAnswered(h: Host) {
    forall k :: 0 <= k < |h.calls| ==> |h.calls[k].answers| == 1
  }

  /** The calls that the table of waiting calls knows of. */
  ghost function OnTable(h: Host, ids: set<Id>): set<nat>
    requires ids <= h.pending.Keys
  {
    set id | id in ids :: h.pending[id].infer
  }

  lemma {:induction false} TableSize(h: Host, ids: set<Id>)
    requires HostOk(h) && ids <= h.pending.Keys
    ensures |OnTable(h, ids)| == |ids| && OnTable(h, ids) <= h.timers.Keys
    decreases ids
  {
    if id :| id in ids {
      var rest := ids - {id};
      TableSize(h, rest);
      assert WaitingOk(h, id);
      assert OnTable(h, ids) == OnTable(h, rest) + {h.pending[id].infer};
      forall other | other in rest
        ensures h.pending[other].infer != h.pending[id].infer
      {
        assert WaitingOk(h, other);
      }
    }
  }

  /**
   * Ending a grant leaves no call unanswered if and only if as many calls are on the table as have a timer running; a
   * call drops off the table when another with its identifier is put there.
   */
  lemma EndAnswersAll(h: Host)
    requires HostOk(h)
    ensures AllAnswered(EndedGrant(h).host) <==> |h.pending| == |h.timers|
  {
    var known := OnTable(h, h.pending.Keys);
    TableSize(h, h.pending.Keys);
    var rest := h.timers.Keys - known;
    assert h.timers.Keys == known + rest && |h.timers| == |known| + |rest| && |h.pending| == |known|;
    forall k | 0 <= k < |h.calls|
      ensures |EndedGrant(h).host.calls[k].answers| == if k in rest then 0 else 1
    {
      AwaitedIsTimed(h, k);
      assert CallOk(h, k);
    }
    if k :| k in rest {
      assert CallOk(h, k);
      assert |EndedGrant(h).host.calls[k].answers| == 0;
    }
  }

  // ---------------------------------------------------------------- the provider

  datatype ProviderGrant = ProviderGrant(gen: nat, terms: Terms, used: nat, seen: set<Id>)

  /** The one request at work: admitted under grant `under`, and dispatched to the model or not yet. */
  datatype Job = Job(under: nat, gen: nat, infer: nat, mission: Name, id: Id, dispatched: bool)

  /** A model call charged to grant `under`, for a request made under grant `gen`. */
  datatype Dispatch = Dispatch(under: nat, gen: nat, id: Id)

  datatype Note = Revoked(gen: nat) | Succeeded(gen: nat, id: Id)

  /** `job` is the busy flag with what it stands for; `dispatches` and `notes` are history. */
  datatype Provider = Provider(grant: Option<ProviderGrant>, job: Option<Job>, dispatches: seq<Dispatch>,
      notes: seq<Note>)

  datatype Reply = Reply(provider: Provider, messages: seq<Up>)

  const NEW_PROVIDER := Provider(None, None, [], [])

  /** How a model call comes out. */
  datatype Outcome = Error | Malformed | TooLarge | Good

  function Answered(m: Down, ok: bool): seq<Up>
    requires m.Ask?
  {
    [Response(m.infer, m.gen, m.mission, m.id, ok)]
  }

  /** A message arrives. A request over the wire limit is ignored. */
  function Took(p: Provider, m: Down, signedIn: bool, late: bool, oversize: bool): Reply {
    match m
    case Revoke =>
      Reply(p.(grant := None, notes := p.notes + if p.grant.Some? then [Revoked(p.grant.value.gen)] else []), [])
    case Grant(gen, terms) =>
      if ValidTerms(terms) && p.job.None? && signedIn
      then Reply(p.(grant := Some(ProviderGrant(gen, terms, 0, {}))), [])
      else Reply(p, [])
    case Ask(gen, infer, mission, id, model) =>
      if oversize then Reply(p, [])
      else if !signedIn || p.grant.None?
        || p.grant.value.terms.mission != mission || p.grant.value.terms.model != model then
        Reply(p, Answered(m, false))
      else
        var g := p.grant.value;
        if p.job.Some? || late || g.used >= g.terms.calls || id in g.seen then Reply(p, Answered(m, false))
        else
          Reply(p.(grant := Some(g.(used := g.used + 1, seen := g.seen + {id})),
                   job := Some(Job(g.gen, gen, infer, mission, id, false))), [])
  }

  function Respond(j: Job, ok: bool): Up {
    Response(j.infer, j.gen, j.mission, j.id, ok)
  }

  /** The model is looked up; then the request is dispatched, or refused when there is no such model. */
  function Selected(p: Provider, available: bool): Reply {
    if p.job.None? || p.job.value.dispatched then Reply(p, [])
    else
      var j := p.job.value;
      if available then
        Reply(p.(job := Some(j.(dispatched := true)),
                 dispatches := p.dispatches + [Dispatch(j.under, j.gen, j.id)]), [])
      else Reply(p.(job := None), [Respond(j, false)])
  }

  /** The model call returns. It succeeds only under the grant it was admitted under. */
  function Finished(p: Provider, o: Outcome): Reply {
    if p.job.None? || !p.job.value.dispatched then Reply(p, [])
    else
      var j := p.job.value;
      var ok := o == Good && p.grant.Some? && p.grant.value.gen == j.under;
      Reply(p.(job := None, notes := p.notes + if ok then [Succeeded(j.under, j.id)] else []), [Respond(j, ok)])
  }
}
