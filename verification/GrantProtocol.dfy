/** Host and provider joined by two first-in-first-out channels (demo/vm/provider-session.js, demo/vm/provider.js). */
module GrantProtocol {
  import opened Basics
  import opened Grants

  /**
   * Both ends and what is under way between them. As history, `terms` lists what each generation was granted, `asked`
   * holds the requests sent, `arrived` counts the grants that reached the provider and `live` is the last of them
   * unless a revocation has followed it.
   */
  datatype World = World(
    host: Host, provider: Provider,
    down: seq<Down>, up: seq<Up>,
    terms: seq<Terms>, asked: set<(nat, Id)>, arrived: nat, live: Option<nat>)

  const START := World(NEW_HOST, NEW_PROVIDER, [], [], [], {}, 0, None)

  /** What can happen next. Clocks, sign-in, liveness and the model's answers are whatever they are. */
  datatype Step =
    | Begin(ready: bool, terms: Terms)
    | Infer(ready: bool, mission: Name, request: Request)
    | End
    | Hear(oversize: bool)
    | Expire(infer: nat)
    | Take(signedIn: bool, late: bool, oversize: bool)
    | Select(available: bool)
    | Finish(outcome: Outcome)

  ghost function Next(w: World, step: Step): World {
    match step
    case Begin(ready, terms) =>
      var s := Begun(w.host, ready, terms);
      w.(host := s.host, down := w.down + s.messages, terms := w.terms + if s.messages == [] then [] else [terms])
    case Infer(ready, mission, request) =>
      var s := Inferred(w.host, ready, mission, request);
      w.(host := s.host, down := w.down + s.messages,
         asked := if s.messages == [] then w.asked else w.asked + {(w.host.grant.value.gen, request.id)})
    case End =>
      var s := EndedGrant(w.host);
      w.(host := s.host, down := w.down + s.messages)
    case Hear(oversize) =>
      if w.up == [] then w
      else w.(host := if oversize then w.host else Received(w.host, w.up[0]), up := w.up[1..])
    case Expire(k) => w.(host := Expired(w.host, k))
    case Take(signedIn, late, oversize) =>
      if w.down == [] then w else
        var m := w.down[0];
        var r := Took(w.provider, m, signedIn, late, oversize);
        w.(provider := r.provider, down := w.down[1..], up := w.up + r.messages,
           arrived := if m.Grant? then w.arrived + 1 else w.arrived,
           live := if m.Grant? then Some(m.gen) else if m.Revoke? then None else w.live)
    case Select(available) =>
      var r := Selected(w.provider, available);
      w.(provider := r.provider, up := w.up + r.messages)
    case Finish(outcome) =>
      var r := Finished(w.provider, outcome);
      w.(provider := r.provider, up := w.up + r.messages)
  }

  ghost function After(steps: seq<Step>): World {
    if steps == [] then START else Next(After(steps[..|steps| - 1]), steps[|steps| - 1])
  }

  lemma AfterSnoc(steps: seq<Step>, step: Step)
    ensures After(steps + [step]) == Next(After(steps), step)
  {
    assert (steps + [step])[..|steps|] == steps;
  }

  // ---------------------------------------------------------------- the order of messages

  ghost function HostLive(h: Host): Option<nat> {
    if h.grant.Some? then Some(h.grant.value.gen) else None
  }

  /**
   * What is under way to the provider, from the generation the provider has been told of to the one the host is in:
   * grants come in order, and every request follows the grant it was made under before any other grant or revocation.
   */
  ghost predicate Orderly(down: seq<Down>, live: Option<nat>, arrived: nat, host: Option<nat>, terms: seq<Terms>) {
    if down == [] then live == host && arrived == |terms|
    else match down[0]
      case Grant(gen, t) =>
        && gen == arrived < |terms| && terms[gen] == t
        && Orderly(down[1..], Some(gen), arrived + 1, host, terms)
      case Ask(gen, _, _, _, _) => live == Some(gen) && Orderly(down[1..], live, arrived, host, terms)
      case Revoke => Orderly(down[1..], None, arrived, host, terms)
  }

  lemma {:induction false} RevokeInOrder(down: seq<Down>, live: Option<nat>, arrived: nat, host: Option<nat>,
      terms: seq<Terms>)
    requires Orderly(down, live, arrived, host, terms)
    ensures Orderly(down + [Revoke], live, arrived, None, terms)
    decreases |down|
  {
    if down != [] {
      assert (down + [Revoke])[1..] == down[1..] + [Revoke];
      var m := down[0];
      RevokeInOrder(down[1..], if m.Grant? then Some(m.gen) else if m.Revoke? then None else live,
        if m.Grant? then arrived + 1 else arrived, host, terms);
    }
  }

  lemma {:induction false} AskInOrder(down: seq<Down>, live: Option<nat>, arrived: nat, gen: nat, terms: seq<Terms>,
      ask: Down)
    requires Orderly(down, live, arrived, Some(gen), terms) && ask.Ask? && ask.gen == gen
    ensures Orderly(down + [ask], live, arrived, Some(gen), terms)
    decreases |down|
  {
    if down != [] {
      assert (down + [ask])[1..] == down[1..] + [ask];
      var m := down[0];
      AskInOrder(down[1..], if m.Grant? then Some(m.gen) else if m.Revoke? then None else live,
        if m.Grant? then arrived + 1 else arrived, gen, terms, ask);
    }
  }

  lemma {:induction false} GrantInOrder(down: seq<Down>, live: Option<nat>, arrived: nat, host: Option<nat>,
      terms: seq<Terms>, t: Terms)
    requires Orderly(down, live, arrived, host, terms)
    ensures Orderly(down + [Grant(|terms|, t)], live, arrived, Some(|terms|), terms + [t])
    decreases |down|
  {
    var grant := Grant(|terms|, t);
    if down == [] {
      assert (down + [grant])[1..] == [];
    } else {
      assert (down + [grant])[1..] == down[1..] + [grant];
      var m := down[0];
      GrantInOrder(down[1..], if m.Grant? then Some(m.gen) else if m.Revoke? then None else live,
        if m.Grant? then arrived + 1 else arrived, host, terms, t);
    }
  }

  // ---------------------------------------------------------------- what the provider keeps

  /** The identifiers of requests that have been or may yet be dispatched under a grant. */
  ghost function Used(p: Provider, g: nat): set<Id> {
    (set d | d in p.dispatches && d.under == g :: d.id)
    + if p.job.Some? && p.job.value.under == g && !p.job.value.dispatched then {p.job.value.id} else {}
  }

  /** The provider holds the last grant that arrived, or an earlier one that no revocation has followed. */
  ghost predicate GrantOk(p: Provider, terms: seq<Terms>, live: Option<nat>) {
    p.grant.Some? ==>
      var g := p.grant.value;
      && live.Some? && g.gen <= live.value && g.gen < |terms| && g.terms == terms[g.gen]
      && g.used == |g.seen| <= g.terms.calls && Used(p, g.gen) <= g.seen
  }

  ghost predicate JobOk(p: Provider, arrived: nat) {
    p.job.Some? ==>
      var j := p.job.value;
      && j.under < arrived
      && (!j.dispatched ==> forall d :: d in p.dispatches ==> d.under != j.under || d.id != j.id)
  }

  ghost predicate DispatchesOk(p: Provider, arrived: nat) {
    && (forall i, j :: 0 <= i < j < |p.dispatches| ==>
          p.dispatches[i].under != p.dispatches[j].under || p.dispatches[i].id != p.dispatches[j].id)
    && forall d :: d in p.dispatches ==> d.under < arrived
  }

  ghost predicate UseOk(p: Provider, terms: seq<Terms>, g: nat) {
    g < |terms| ==> |Used(p, g)| <= terms[g].calls
  }

  /** No grant has a success after its revocation. */
  ghost predicate NotesOk(notes: seq<Note>) {
    forall i, j :: 0 <= i < j < |notes| && notes[i].Revoked? && notes[j].Succeeded? ==> notes[i].gen != notes[j].gen
  }

  ghost predicate RevokedOk(p: Provider, arrived: nat) {
    && NotesOk(p.notes)
    && forall n :: n in p.notes && n.Revoked? ==> n.gen < arrived && (p.grant.Some? ==> p.grant.value.gen != n.gen)
  }

  ghost predicate ProviderOk(p: Provider, terms: seq<Terms>, arrived: nat, live: Option<nat>) {
    && GrantOk(p, terms, live) && JobOk(p, arrived) && DispatchesOk(p, arrived) && RevokedOk(p, arrived)
    && (forall g {:trigger UseOk(p, terms, g)} :: UseOk(p, terms, g))
    && (live.Some? ==> live.value < arrived) && arrived <= |terms|
    && forall g :: 0 <= g < |terms| ==> ValidTerms(terms[g])
  }

  /** The same requests count as used in both states, under every grant. */
  ghost predicate SameUse(p: Provider, p': Provider) {
    forall g {:trigger Used(p', g)} :: Used(p', g) <= Used(p, g)
  }

  lemma UseShrinks(p: Provider, p': Provider, terms: seq<Terms>)
    requires SameUse(p, p') && forall g {:trigger UseOk(p, terms, g)} :: UseOk(p, terms, g)
    ensures forall g {:trigger UseOk(p', terms, g)} :: UseOk(p', terms, g)
  {
    forall g {:trigger UseOk(p', terms, g)}
      ensures UseOk(p', terms, g)
    {
      assert UseOk(p, terms, g);
      SubsetSize(Used(p', g), Used(p, g));
    }
  }

  /** A grant arrives that is not known yet. */
  lemma GrantTaken(p: Provider, terms: seq<Terms>, arrived: nat, live: Option<nat>, signedIn: bool, late: bool,
      oversize: bool)
    requires ProviderOk(p, terms, arrived, live) && arrived < |terms|
    ensures ProviderOk(Took(p, Grant(arrived, terms[arrived]), signedIn, late, oversize).provider,
              terms, arrived + 1, Some(arrived))
  {
    var p' := Took(p, Grant(arrived, terms[arrived]), signedIn, late, oversize).provider;
    assert SameUse(p, p');
    UseShrinks(p, p', terms);
    assert p.job.None? ==> Used(p', arrived) == {};
  }

  lemma RevokeTaken(p: Provider, terms: seq<Terms>, arrived: nat, live: Option<nat>, signedIn: bool, late: bool,
      oversize: bool)
    requires ProviderOk(p, terms, arrived, live)
    ensures ProviderOk(Took(p, Revoke, signedIn, late, oversize).provider, terms, arrived, None)
  {
    var p' := Took(p, Revoke, signedIn, late, oversize).provider;
    assert SameUse(p, p');
    UseShrinks(p, p', terms);
  }

  lemma AskTaken(p: Provider, terms: seq<Terms>, arrived: nat, m: Down, signedIn: bool, late: bool, oversize: bool)
    requires m.Ask? && ProviderOk(p, terms, arrived, Some(m.gen))
    ensures ProviderOk(Took(p, m, signedIn, late, oversize).provider, terms, arrived, Some(m.gen))
  {
    var p' := Took(p, m, signedIn, late, oversize).provider;
    if p' != p {
      var g := p.grant.value;
      forall h {:trigger UseOk(p', terms, h)}
        ensures UseOk(p', terms, h)
      {
        assert UseOk(p, terms, h);
        if h == g.gen {
          assert Used(p', h) <= g.seen + {m.id};
          SubsetSize(Used(p', h), g.seen + {m.id});
        } else {
          assert Used(p', h) == Used(p, h);
        }
      }
      assert Used(p', g.gen) <= g.seen + {m.id};
    }
  }

  lemma SelectedOk(p: Provider, terms: seq<Terms>, arrived: nat, live: Option<nat>, available: bool)
    requires ProviderOk(p, terms, arrived, live)
    ensures ProviderOk(Selected(p, available).provider, terms, arrived, live)
  {
    var p' := Selected(p, available).provider;
    assert SameUse(p, p');
    UseShrinks(p, p', terms);
  }

  lemma FinishedOk(p: Provider, terms: seq<Terms>, arrived: nat, live: Option<nat>, outcome: Outcome)
    requires ProviderOk(p, terms, arrived, live)
    ensures ProviderOk(Finished(p, outcome).provider, terms, arrived, live)
  {
    var p' := Finished(p, outcome).provider;
    assert SameUse(p, p');
    UseShrinks(p, p', terms);
  }

  // ---------------------------------------------------------------- what every run keeps

  ghost predicate WorldOk(w: World) {
    && HostOk(w.host)
    && |w.terms| == w.host.gens && (w.host.grant.Some? ==> w.host.grant.value.terms == w.terms[w.host.grant.value.gen])
    && Orderly(w.down, w.live, w.arrived, HostLive(w.host), w.terms)
    && ProviderOk(w.provider, w.terms, w.arrived, w.live)
  }

  /** New terms for a generation that nobody has used change nothing for the provider. */
  lemma MoreTerms(p: Provider, terms: seq<Terms>, arrived: nat, live: Option<nat>, t: Terms)
    requires ProviderOk(p, terms, arrived, live) && ValidTerms(t)
    ensures ProviderOk(p, terms + [t], arrived, live)
  {
    forall g {:trigger UseOk(p, terms + [t], g)}
      ensures UseOk(p, terms + [t], g)
    {
      assert UseOk(p, terms, g);
      if g == |terms| {
        assert Used(p, g) == {};
      }
    }
  }

  lemma BeginKeeps(w: World, ready: bool, terms: Terms)
    requires WorldOk(w)
    ensures WorldOk(Next(w, Begin(ready, terms)))
  {
    BegunOk(w.host, ready, terms);
    if ready && ValidTerms(terms) {
      GrantInOrder(w.down, w.live, w.arrived, HostLive(w.host), w.terms, terms);
      MoreTerms(w.provider, w.terms, w.arrived, w.live, terms);
    } else {
      assert w.down + [] == w.down && w.terms + [] == w.terms;
    }
  }

  lemma InferKeeps(w: World, ready: bool, mission: Name, r: Request)
    requires WorldOk(w)
    ensures WorldOk(Next(w, Infer(ready, mission, r)))
  {
    InferredOk(w.host, ready, mission, r);
    var s := Inferred(w.host, ready, mission, r);
    if s.messages == [] {
      assert w.down + [] == w.down;
    } else {
      AskInOrder(w.down, w.live, w.arrived, w.host.grant.value.gen, w.terms, s.messages[0]);
    }
  }

  lemma EndKeeps(w: World)
    requires WorldOk(w)
    ensures WorldOk(Next(w, End))
  {
    EndedOk(w.host);
    RevokeInOrder(w.down, w.live, w.arrived, HostLive(w.host), w.terms);
  }

  lemma TakeKeeps(w: World, signedIn: bool, late: bool, oversize: bool)
    requires WorldOk(w)
    ensures WorldOk(Next(w, Take(signedIn, late, oversize)))
  {
    if w.down != [] {
      var m := w.down[0];
      match m
      case Grant(gen, t) => GrantTaken(w.provider, w.terms, w.arrived, w.live, signedIn, late, oversize);
      case Ask(_, _, _, _, _) => AskTaken(w.provider, w.terms, w.arrived, m, signedIn, late, oversize);
      case Revoke => RevokeTaken(w.provider, w.terms, w.arrived, w.live, signedIn, late, oversize);
    }
  }

  lemma HearKeeps(w: World, oversize: bool)
    requires WorldOk(w)
    ensures WorldOk(Next(w, Hear(oversize)))
  {
    if w.up != [] {
      ReceivedOk(w.host, w.up[0]);
    }
  }

  lemma StepKeeps(w: World, step: Step)
    requires WorldOk(w)
    ensures WorldOk(Next(w, step))
  {
    match step
    case Begin(ready, terms) => BeginKeeps(w, ready, terms);
    case Infer(ready, mission, r) => InferKeeps(w, ready, mission, r);
    case End => EndKeeps(w);
    case Hear(oversize) => HearKeeps(w, oversize);
    case Expire(k) => ExpiredOk(w.host, k);
    case Take(signedIn, late, oversize) => TakeKeeps(w, signedIn, late, oversize);
    case Select(available) => SelectedOk(w.provider, w.terms, w.arrived, w.live, available);
    case Finish(outcome) => FinishedOk(w.provider, w.terms, w.arrived, w.live, outcome);
  }

  lemma StartOk()
    ensures WorldOk(START)
  {
    forall g {:trigger UseOk(NEW_PROVIDER, [], g)}
      ensures UseOk(NEW_PROVIDER, [], g)
    {
    }
    assert forall id {:trigger WaitingOk(NEW_HOST, id)} :: WaitingOk(NEW_HOST, id);
    assert forall k {:trigger CallOk(NEW_HOST, k)} :: CallOk(NEW_HOST, k);
  }

  lemma {:induction false} AlwaysOk(steps: seq<Step>)
    ensures WorldOk(After(steps))
  {
    if steps == [] {
      StartOk();
    } else {
      AlwaysOk(steps[..|steps| - 1]);
      StepKeeps(After(steps[..|steps| - 1]), steps[|steps| - 1]);
    }
  }

  // ---------------------------------------------------------------- requests are used up

  /** The identifiers of the requests made under a grant. */
  ghost function AskedIn(asked: set<(nat, Id)>, gen: nat): set<Id> {
    set u | u in asked && u.0 == gen :: u.1
  }

  /** What was asked under a grant is within its calls. */
  ghost predicate AskedOk(w: World, gen: nat) {
    && (gen < |w.terms| ==> |AskedIn(w.asked, gen)| <= w.terms[gen].calls)
    && (gen >= |w.terms| ==> AskedIn(w.asked, gen) == {})
    && (HostLive(w.host) == Some(gen) ==> AskedIn(w.asked, gen) <= w.host.grant.value.seen)
  }

  /** The provider has not put this request to work. */
  ghost predicate Unused(p: Provider, gen: nat, id: Id) {
    && (p.job.Some? ==> p.job.value.gen != gen || p.job.value.id != id)
    && forall d :: d in p.dispatches ==> d.gen != gen || d.id != id
  }

  ghost predicate DownFlows(down: seq<Down>, p: Provider, asked: set<(nat, Id)>) {
    && (forall i :: 0 <= i < |down| && down[i].Ask? ==>
          (down[i].gen, down[i].id) in asked && Unused(p, down[i].gen, down[i].id))
    && (forall i, j :: 0 <= i < j < |down| && down[i].Ask? && down[j].Ask? ==>
          down[i].gen != down[j].gen || down[i].id != down[j].id)
  }

  ghost predicate WorkFlows(p: Provider, asked: set<(nat, Id)>) {
    && (p.job.Some? ==>
          var j := p.job.value;
          && (j.gen, j.id) in asked
          && (!j.dispatched ==> forall d :: d in p.dispatches ==> d.gen != j.gen || d.id != j.id))
    && (forall d :: d in p.dispatches ==> (d.gen, d.id) in asked)
    && (forall i, j :: 0 <= i < j < |p.dispatches| ==>
          p.dispatches[i].gen != p.dispatches[j].gen || p.dispatches[i].id != p.dispatches[j].id)
  }

  /** Every request made is under way, at work or dispatched at most once. */
  ghost predicate Flows(w: World) {
    && DownFlows(w.down, w.provider, w.asked) && WorkFlows(w.provider, w.asked)
    && forall gen {:trigger AskedOk(w, gen)} :: AskedOk(w, gen)
  }

  lemma BeginFlows(w: World, ready: bool, terms: Terms)
    requires WorldOk(w) && Flows(w)
    ensures Flows(Next(w, Begin(ready, terms)))
  {
    var w' := Next(w, Begin(ready, terms));
    forall gen {:trigger AskedOk(w', gen)}
      ensures AskedOk(w', gen)
    {
      assert AskedOk(w, gen);
    }
  }

  lemma InferFlows(w: World, ready: bool, mission: Name, r: Request)
    requires WorldOk(w) && Flows(w)
    ensures Flows(Next(w, Infer(ready, mission, r)))
  {
    var w' := Next(w, Infer(ready, mission, r));
    if Inferred(w.host, ready, mission, r).messages != [] {
      var g := w.host.grant.value;
      assert AskedOk(w, g.gen);
      assert forall id :: (g.gen, id) in w.asked ==> id in AskedIn(w.asked, g.gen);
      assert (g.gen, r.id) !in w.asked;
    }
    forall gen {:trigger AskedOk(w', gen)}
      ensures AskedOk(w', gen)
    {
      AskedGrows(w, ready, mission, r, gen);
    }
  }

  lemma AskedGrows(w: World, ready: bool, mission: Name, r: Request, gen: nat)
    requires WorldOk(w) && AskedOk(w, gen)
    ensures AskedOk(Next(w, Infer(ready, mission, r)), gen)
  {
    var w' := Next(w, Infer(ready, mission, r));
    if Inferred(w.host, ready, mission, r).messages != [] {
      if gen == w.host.grant.value.gen {
        assert AskedIn(w'.asked, gen) == AskedIn(w.asked, gen) + {r.id};
        SubsetSize(AskedIn(w'.asked, gen), w'.host.grant.value.seen);
      } else {
        assert AskedIn(w'.asked, gen) == AskedIn(w.asked, gen);
      }
    }
  }

  lemma OtherHostStepFlows(w: World, step: Step)
    requires WorldOk(w) && Flows(w) && (step.End? || step.Hear? || step.Expire?)
    ensures Flows(Next(w, step))
  {
    var w' := Next(w, step);
    forall gen {:trigger AskedOk(w', gen)}
      ensures AskedOk(w', gen)
    {
      assert AskedOk(w, gen);
    }
  }

  lemma ProviderStepFlows(w: World, step: Step)
    requires Flows(w) && (step.Take? || step.Select? || step.Finish?)
    ensures Flows(Next(w, step))
  {
    var w' := Next(w, step);
    assert DownFlows(w'.down, w'.provider, w'.asked);
    assert WorkFlows(w'.provider, w'.asked);
    forall gen {:trigger AskedOk(w', gen)}
      ensures AskedOk(w', gen)
    {
      assert AskedOk(w, gen);
    }
  }

  lemma {:induction false} AlwaysFlows(steps: seq<Step>)
    ensures Flows(After(steps))
  {
    if steps == [] {
      assert forall gen {:trigger AskedOk(START, gen)} :: AskedOk(START, gen);
    } else {
      var front, last := steps[..|steps| - 1], steps[|steps| - 1];
      AlwaysFlows(front);
      AlwaysOk(front);
      match last
      case Begin(ready, terms) => BeginFlows(After(front), ready, terms);
      case Infer(ready, mission, r) => InferFlows(After(front), ready, mission, r);
      case End => OtherHostStepFlows(After(front), last);
      case Hear(_) => OtherHostStepFlows(After(front), last);
      case Expire(_) => OtherHostStepFlows(After(front), last);
      case _ => ProviderStepFlows(After(front), last);
    }
  }

  // ---------------------------------------------------------------- how a run may go on

  ghost function Then(w: World, more: seq<Step>): World {
    if more == [] then w else Next(Then(w, more[..|more| - 1]), more[|more| - 1])
  }

  /** From one state a run may come to the other. */
  ghost predicate Leads(w: World, w': World) {
    exists more :: Then(w, more) == w'
  }

  lemma LeadsNext(w: World, a: World, step: Step)
    requires Leads(w, a)
    ensures Leads(w, Next(a, step))
  {
    var more :| Then(w, more) == a;
    assert (more + [step])[..|more|] == more;
    assert Then(w, more + [step]) == Next(a, step);
  }

  lemma LeadsStep(w: World, step: Step)
    ensures Leads(w, Next(w, step))
  {
    assert Then(w, []) == w;
    LeadsNext(w, w, step);
  }

  lemma {:induction false} ThenThen(w: World, a: seq<Step>, b: seq<Step>)
    ensures Then(w, a + b) == Then(Then(w, a), b)
  {
    if b == [] {
      assert a + b == a;
    } else {
      ThenThen(w, a, b[..|b| - 1]);
      assert (a + b)[..|a + b| - 1] == a + b[..|b| - 1];
    }
  }

  lemma LeadsOn(w: World, a: World, b: World)
    requires Leads(w, a) && Leads(a, b)
    ensures Leads(w, b)
  {
    var one :| Then(w, one) == a;
    var two :| Then(a, two) == b;
    ThenThen(w, one, two);
  }

  lemma {:induction false} AfterThen(steps: seq<Step>, more: seq<Step>)
    ensures After(steps + more) == Then(After(steps), more)
  {
    if more == [] {
      assert steps + more == steps;
    } else {
      AfterThen(steps, more[..|more| - 1]);
      assert (steps + more)[..|steps + more| - 1] == steps + more[..|more| - 1];
    }
  }

  lemma GoOn(steps: seq<Step>, w: World) returns (more: seq<Step>)
    requires Leads(After(steps), w)
    ensures After(steps + more) == w
  {
    more :| Then(After(steps), more) == w;
    AfterThen(steps, more);
  }

  // ---------------------------------------------------------------- theorems

  /** How many of the model calls are of this kind. */
  ghost function Count(dispatches: seq<Dispatch>, kind: Dispatch -> bool): nat {
    if dispatches == [] then 0 else
      var n := |dispatches| - 1;
      Count(dispatches[..n], kind) + if kind(dispatches[n]) then 1 else 0
  }

  /** Model calls for requests made under a grant. */
  ghost function MadeUnder(gen: nat): Dispatch -> bool {
    (d: Dispatch) => d.gen == gen
  }

  /** Model calls that the provider has charged to a grant. */
  ghost function ChargedTo(gen: nat): Dispatch -> bool {
    (d: Dispatch) => d.under == gen
  }

  lemma {:induction false} CountIsBounded(dispatches: seq<Dispatch>, kind: Dispatch -> bool, ids: set<Id>)
    requires forall i, j :: 0 <= i < j < |dispatches| && kind(dispatches[i]) && kind(dispatches[j]) ==>
      dispatches[i].id != dispatches[j].id
    requires forall i :: 0 <= i < |dispatches| && kind(dispatches[i]) ==> dispatches[i].id in ids
    ensures Count(dispatches, kind) <= |ids|
  {
    if dispatches != [] {
      var n := |dispatches| - 1;
      CountIsBounded(dispatches[..n], kind, if kind(dispatches[n]) then ids - {dispatches[n].id} else ids);
    }
  }

  /**
   * In every run, the model is called at most as often as a grant authorises, both for the requests made under it and
   * for those charged to it.
   */
  lemma CallsAreAuthorised(steps: seq<Step>, gen: nat)
    requires gen < |After(steps).terms|
    ensures Count(After(steps).provider.dispatches, MadeUnder(gen)) <= After(steps).terms[gen].calls
    ensures Count(After(steps).provider.dispatches, ChargedTo(gen)) <= After(steps).terms[gen].calls
  {
    AlwaysOk(steps);
    AlwaysFlows(steps);
    var w := After(steps);
    assert UseOk(w.provider, w.terms, gen) && AskedOk(w, gen);
    CountIsBounded(w.provider.dispatches, ChargedTo(gen), Used(w.provider, gen));
    CountIsBounded(w.provider.dispatches, MadeUnder(gen), AskedIn(w.asked, gen));
  }

  /** An identifier is dispatched at most once for one grant, whether made under it or charged to it. */
  lemma DispatchedOnce(steps: seq<Step>)
    ensures var d := After(steps).provider.dispatches;
      forall i, j :: 0 <= i < j < |d| && d[i].id == d[j].id ==> d[i].gen != d[j].gen && d[i].under != d[j].under
  {
    AlwaysOk(steps);
    AlwaysFlows(steps);
  }

  /** No success is reported for a grant after its revocation. */
  lemma NoSuccessAfterRevocation(steps: seq<Step>)
    ensures NotesOk(After(steps).provider.notes)
  {
    AlwaysOk(steps);
  }

  /** A call of `infer` is answered once, or not answered yet and its timer is running. */
  lemma AnsweredAtMostOnce(steps: seq<Step>, k: nat)
    requires k < |After(steps).host.calls|
    ensures var h := After(steps).host;
      |h.calls[k].answers| == (if k in h.timers then 0 else 1)
  {
    AlwaysOk(steps);
    assert CallOk(After(steps).host, k);
  }

  lemma NoTimersAllAnswered(steps: seq<Step>)
    requires After(steps).host.timers == map[]
    ensures AllAnswered(After(steps).host)
  {
    forall k | 0 <= k < |After(steps).host.calls|
      ensures |After(steps).host.calls[k].answers| == 1
    {
      AnsweredAtMostOnce(steps, k);
    }
  }

  lemma TimerFires(steps: seq<Step>, k: nat)
    requires k in After(steps).host.timers
    ensures var h, h' := After(steps).host, After(steps + [Expire(k)]).host;
      |h'.calls| == |h.calls| && |h'.timers| < |h.timers|
  {
    assert (steps + [Expire(k)])[..|steps|] == steps;
    var h := After(steps).host;
    assert h.timers.Keys == Expired(h, k).timers.Keys + {k};
  }

  /** From any point of a run, the timers that are running are enough to answer every call. */
  lemma {:induction false} TimersAnswerAll(steps: seq<Step>) returns (more: seq<Step>)
    ensures forall i :: 0 <= i < |more| ==> more[i].Expire?
    ensures |After(steps + more).host.calls| == |After(steps).host.calls|
    ensures AllAnswered(After(steps + more).host)
    decreases |After(steps).host.timers|
  {
    if After(steps).host.timers == map[] {
      more := [];
      assert steps + more == steps;
      NoTimersAllAnswered(steps);
    } else {
      var k :| k in After(steps).host.timers;
      TimerFires(steps, k);
      var rest := TimersAnswerAll(steps + [Expire(k)]);
      more := [Expire(k)] + rest;
      assert steps + more == steps + [Expire(k)] + rest;
    }
  }

  // ---------------------------------------------------------------- whose reply it is

  ghost predicate Names(calls: seq<Call>, infer: nat, id: Id) {
    infer < |calls| && calls[infer].id == id
  }

  /** An answer that came from the provider was given to a request with the same identifier. */
  ghost predicate AnswersMatch(calls: seq<Call>, k: nat)
    requires k < |calls|
  {
    forall a :: a in calls[k].answers && a.Replied? ==> Names(calls, a.infer, calls[k].id)
  }

  /** Everything under way names the call it belongs to. */
  ghost predicate Matched(w: World) {
    && (forall m :: m in w.down && m.Ask? ==> Names(w.host.calls, m.infer, m.id))
    && (forall m :: m in w.up ==> Names(w.host.calls, m.infer, m.id))
    && (w.provider.job.Some? ==> Names(w.host.calls, w.provider.job.value.infer, w.provider.job.value.id))
    && (forall id :: id in w.host.pending ==> Names(w.host.calls, w.host.pending[id].infer, id))
    && (forall k :: 0 <= k < |w.host.calls| ==> AnswersMatch(w.host.calls, k))
  }

  ghost predicate SameNames(calls: seq<Call>, calls': seq<Call>) {
    |calls| <= |calls'| && forall k :: 0 <= k < |calls| ==> calls[k].id == calls'[k].id
  }

  lemma HostStepKeepsMatch(w: World, step: Step)
    requires Matched(w) && (step.Begin? || step.Infer? || step.Expire?)
    ensures Matched(Next(w, step))
  {
    var w' := Next(w, step);
    assert SameNames(w.host.calls, w'.host.calls);
    forall k | 0 <= k < |w'.host.calls|
      ensures AnswersMatch(w'.host.calls, k)
    {
      if k < |w.host.calls| {
        assert AnswersMatch(w.host.calls, k);
      }
    }
  }

  lemma EndKeepsMatch(w: World)
    requires Matched(w)
    ensures Matched(Next(w, End))
  {
    var w' := Next(w, End);
    assert SameNames(w.host.calls, w'.host.calls);
    forall k | 0 <= k < |w'.host.calls|
      ensures AnswersMatch(w'.host.calls, k)
    {
      assert AnswersMatch(w.host.calls, k);
    }
  }

  lemma HearKeepsMatch(w: World, oversize: bool)
    requires WorldOk(w) && Matched(w)
    ensures Matched(Next(w, Hear(oversize)))
  {
    var w' := Next(w, Hear(oversize));
    assert SameNames(w.host.calls, w'.host.calls);
    forall k | 0 <= k < |w'.host.calls|
      ensures AnswersMatch(w'.host.calls, k)
    {
      assert AnswersMatch(w.host.calls, k);
    }
  }

  lemma ProviderStepKeepsMatch(w: World, step: Step)
    requires Matched(w) && (step.Take? || step.Select? || step.Finish?)
    ensures Matched(Next(w, step))
  {
    var w' := Next(w, step);
    assert w'.host == w.host;
    assert forall m :: m in w'.down ==> m in w.down;
    if step.Take? && w.down != [] && w.down[0].Ask? {
      assert w.down[0] in w.down;
    }
  }

  lemma {:induction false} AlwaysMatched(steps: seq<Step>)
    ensures Matched(After(steps))
  {
    if steps != [] {
      var front, last := steps[..|steps| - 1], steps[|steps| - 1];
      AlwaysMatched(front);
      AlwaysOk(front);
      if last.Hear? {
        HearKeepsMatch(After(front), last.oversize);
      } else if last.Take? || last.Select? || last.Finish? {
        ProviderStepKeepsMatch(After(front), last);
      } else if last.End? {
        EndKeepsMatch(After(front));
      } else {
        HostStepKeepsMatch(After(front), last);
      }
    }
  }
}
