/** What a run owes to an obligation that it does not accept: that its providers were asked (residual/engine.py). */
module Service {
  import opened Basics
  import opened Tasks
  import opened Packets

  /** A request that was not made because a limit forbade it. */
  datatype Refusal = Refusal(provider: Provider, role: Role, ids: seq<Name>, size: nat)

  /** The calls made, what came back for each, and the requests that were not made. */
  datatype Traffic = Traffic(calls: seq<Call>, answers: seq<Reply>, refused: seq<Refusal>)

  /** In how many call records of a role an obligation appears. */
  function RoleAppearances(calls: seq<Call>, n: Name, role: Role): nat {
    if calls == [] then 0 else
      var last := calls[|calls| - 1];
      RoleAppearances(calls[..|calls| - 1], n, role) + if last.role == role && n in last.ids then 1 else 0
  }

  /** The documented object, with neither an update nor a request in it. */
  predicate Abstains(a: Reply) {
    a.Answer? && !a.truncated && a.body.Some? && a.body.value.updates == [] && a.body.value.requests == []
  }

  /** Asked for the obligation in this role, the provider abstained. */
  ghost predicate Declined(tr: Traffic, n: Name, role: Role) {
    exists i :: 0 <= i < |tr.calls| && DeclinedAt(tr, n, role, i)
  }

  ghost predicate DeclinedAt(tr: Traffic, n: Name, role: Role, i: nat) {
    && i < |tr.calls| && i < |tr.answers|
    && tr.calls[i].role == role && n in tr.calls[i].ids && Abstains(tr.answers[i])
  }

  /** A request for the obligation in this role met a limit. */
  ghost predicate Limited(tr: Traffic, n: Name, role: Role) {
    exists i :: 0 <= i < |tr.refused| && tr.refused[i].role == role && n in tr.refused[i].ids
  }

  /** Why a provider need not be asked again: the obligation must not reach it, a limit was met, or it abstained. */
  ghost predicate Excused(t: Task, provider: Provider, tr: Traffic, n: Name, role: Role)
    requires Tasks.Accepted(t)
  {
    || (provider.placement.Remote? && n in t.obligations && !CloudAllowed(t, n))
    || Limited(tr, n, role)
    || Declined(tr, n, role)
  }

  /** The provider was asked for the obligation `rounds` times, or need not be asked again. */
  ghost predicate ServedUpTo(t: Task, provider: Provider, tr: Traffic, n: Name, role: Role, rounds: nat)
    requires Tasks.Accepted(t)
  {
    RoleAppearances(tr.calls, n, role) >= rounds || Excused(t, provider, tr, n, role)
  }

  ghost predicate AllServed(t: Task, provider: Provider, tr: Traffic, accepted: map<Name, Json>, ready: seq<Name>,
      role: Role, rounds: nat)
    requires Tasks.Accepted(t)
  {
    forall n {:trigger ServedUpTo(t, provider, tr, n, role, rounds)} ::
      n in ready && n !in accepted ==> ServedUpTo(t, provider, tr, n, role, rounds)
  }

  ghost predicate AllExcused(t: Task, provider: Provider, tr: Traffic, accepted: map<Name, Json>, ready: seq<Name>,
      role: Role)
    requires Tasks.Accepted(t)
  {
    forall n {:trigger Excused(t, provider, tr, n, role)} ::
      n in ready && n !in accepted ==> Excused(t, provider, tr, n, role)
  }

  lemma NothingToAsk(t: Task, provider: Provider, tr: Traffic, accepted: map<Name, Json>, ready: seq<Name>, role: Role)
    requires Tasks.Accepted(t)
    requires forall n :: n in ready && n !in accepted ==>
      provider.placement.Remote? && n in t.obligations && !CloudAllowed(t, n)
    ensures AllExcused(t, provider, tr, accepted, ready, role)
  {
  }

  /** What is served in two parts is served as a whole. */
  lemma ServedBoth(t: Task, provider: Provider, tr: Traffic, accepted: map<Name, Json>,
      one: seq<Name>, other: seq<Name>, ready: seq<Name>, role: Role, rounds: nat)
    requires Tasks.Accepted(t) && forall n :: n in ready ==> n in one || n in other
    requires AllServed(t, provider, tr, accepted, one, role, rounds)
    requires AllServed(t, provider, tr, accepted, other, role, rounds)
    ensures AllServed(t, provider, tr, accepted, ready, role, rounds)
  {
  }

  // ---------------------------------------------------------------- traffic only grows

  /** `b` has everything of `a`; errors may have been noted on calls, and calls under way have come back. */
  ghost predicate Later(a: Traffic, b: Traffic) {
    && |a.calls| <= |b.calls| && |a.answers| <= |b.answers| && a.refused <= b.refused
    && (forall i :: 0 <= i < |a.calls| ==> b.calls[i].role == a.calls[i].role && b.calls[i].ids == a.calls[i].ids)
    && (forall i :: 0 <= i < |a.answers| && Abstains(a.answers[i]) ==> b.answers[i] == a.answers[i])
  }

  lemma LaterTwice(a: Traffic, b: Traffic, c: Traffic)
    requires Later(a, b) && Later(b, c)
    ensures Later(a, c)
  {
  }

  lemma {:induction false} SameAppearances(a: seq<Call>, b: seq<Call>, n: Name, role: Role)
    requires |a| == |b| && forall i :: 0 <= i < |a| ==> b[i].role == a[i].role && b[i].ids == a[i].ids
    ensures RoleAppearances(a, n, role) == RoleAppearances(b, n, role)
  {
    if a != [] {
      SameAppearances(a[..|a| - 1], b[..|b| - 1], n, role);
    }
  }

  lemma {:induction false} AppearancesGrow(calls: seq<Call>, k: nat, n: Name, role: Role)
    requires k <= |calls|
    ensures RoleAppearances(calls[..k], n, role) <= RoleAppearances(calls, n, role)
  {
    if k < |calls| {
      var front := calls[..|calls| - 1];
      AppearancesGrow(front, k, n, role);
      assert front[..k] == calls[..k];
    } else {
      assert calls[..k] == calls;
    }
  }

  lemma LaterAppearances(a: Traffic, b: Traffic, n: Name, role: Role)
    requires Later(a, b)
    ensures RoleAppearances(a.calls, n, role) <= RoleAppearances(b.calls, n, role)
  {
    SameAppearances(a.calls, b.calls[..|a.calls|], n, role);
    AppearancesGrow(b.calls, |a.calls|, n, role);
  }

  lemma LaterExcused(t: Task, provider: Provider, a: Traffic, b: Traffic, n: Name, role: Role)
    requires Tasks.Accepted(t) && Later(a, b) && Excused(t, provider, a, n, role)
    ensures Excused(t, provider, b, n, role)
  {
    if Limited(a, n, role) {
      var i :| 0 <= i < |a.refused| && a.refused[i].role == role && n in a.refused[i].ids;
      assert b.refused[i] == a.refused[i];
    } else if Declined(a, n, role) {
      var i :| 0 <= i < |a.calls| && DeclinedAt(a, n, role, i);
      assert DeclinedAt(b, n, role, i);
    }
  }

  lemma LaterServed(t: Task, provider: Provider, a: Traffic, b: Traffic, n: Name, role: Role, rounds: nat)
    requires Tasks.Accepted(t) && Later(a, b) && ServedUpTo(t, provider, a, n, role, rounds)
    ensures ServedUpTo(t, provider, b, n, role, rounds)
  {
    if Excused(t, provider, a, n, role) {
      LaterExcused(t, provider, a, b, n, role);
    } else {
      LaterAppearances(a, b, n, role);
    }
  }

  lemma LaterAllServed(t: Task, provider: Provider, a: Traffic, b: Traffic,
      accepted: map<Name, Json>, more: map<Name, Json>, ready: seq<Name>, role: Role, rounds: nat)
    requires Tasks.Accepted(t) && Later(a, b) && accepted.Keys <= more.Keys
    requires AllServed(t, provider, a, accepted, ready, role, rounds)
    ensures AllServed(t, provider, b, more, ready, role, rounds)
  {
    forall n | n in ready && n !in more
      ensures ServedUpTo(t, provider, b, n, role, rounds)
    {
      assert ServedUpTo(t, provider, a, n, role, rounds);
      LaterServed(t, provider, a, b, n, role, rounds);
    }
  }

  // ---------------------------------------------------------------- how many calls, and for how many obligations

  /** All for one obligation. */
  predicate Single(ids: seq<Name>) {
    ids != [] && forall i :: 0 <= i < |ids| ==> ids[i] == ids[0]
  }

  /** At most `k` calls have been added, all in this role, and each for one obligation if they are to be single. */
  ghost predicate Batches(a: Traffic, b: Traffic, role: Role, k: nat, single: bool) {
    && |b.calls| <= |a.calls| + k
    && forall i :: |a.calls| <= i < |b.calls| ==> b.calls[i].role == role && (single ==> Single(b.calls[i].ids))
  }

  lemma BatchesJoin(a: Traffic, b: Traffic, c: Traffic, role: Role, k: nat, l: nat, single: bool)
    requires Batches(a, b, role, k, single) && Batches(b, c, role, l, single) && Later(b, c)
    ensures Batches(a, c, role, k + l, single)
  {
    forall i | |a.calls| <= i < |c.calls|
      ensures c.calls[i].role == role && (single ==> Single(c.calls[i].ids))
    {
      if i < |b.calls| {
        assert b.calls[i].role == role;
      }
    }
  }

  /** One call for part of a frontier is one batch, and single if the frontier is. */
  lemma OneBatch(a: Traffic, b: Traffic, ids: seq<Name>, role: Role, ready: seq<Name>)
    requires |b.calls| <= |a.calls| + 1
    requires |b.calls| > |a.calls| ==> b.calls[|a.calls|].ids == ids && b.calls[|a.calls|].role == role
    requires ids != [] && forall n :: n in ids ==> n in ready
    ensures Batches(a, b, role, 1, |ready| == 1)
  {
    if |ready| == 1 {
      forall i | 0 <= i < |ids|
        ensures ids[i] == ready[0]
      {
        assert ids[i] in ids;
      }
    }
  }

  /** Whatever was asked of the local provider was asked before anything was asked of the expert. */
  ghost predicate LocalFirst(a: Traffic, b: Traffic) {
    forall i, j :: |a.calls| <= i < j < |b.calls| && b.calls[i].role.ExpertRole? ==> b.calls[j].role.ExpertRole?
  }

  ghost predicate AllInRole(a: Traffic, b: Traffic, role: Role) {
    forall i :: |a.calls| <= i < |b.calls| ==> b.calls[i].role == role
  }

  lemma LocalThenExpert(a: Traffic, b: Traffic, c: Traffic)
    requires AllInRole(a, b, LocalRole) && AllInRole(b, c, ExpertRole) && Later(b, c)
    ensures LocalFirst(a, c)
  {
    forall i | |a.calls| <= i < |c.calls|
      ensures c.calls[i].role.ExpertRole? <==> i >= |b.calls|
    {
      if i < |b.calls| {
        assert b.calls[i].role == LocalRole;
      }
    }
  }

  // ---------------------------------------------------------------- all providers of a run

  /** The providers that a run serves, and how often each may be asked for an obligation. */
  datatype Crew = Crew(local: Option<Provider>, expert: Option<Provider>, localRounds: nat, expertRounds: nat)

  /** Each provider was asked for the obligation in all its rounds, or need not be asked again. */
  ghost predicate AttendedAt(t: Task, crew: Crew, tr: Traffic, n: Name)
    requires Tasks.Accepted(t)
  {
    && (crew.local.Some? ==> ServedUpTo(t, crew.local.value, tr, n, LocalRole, crew.localRounds))
    && (crew.expert.Some? ==> ServedUpTo(t, crew.expert.value, tr, n, ExpertRole, crew.expertRounds))
  }

  ghost predicate AllAttended(t: Task, crew: Crew, tr: Traffic, accepted: map<Name, Json>, tried: set<Name>)
    requires Tasks.Accepted(t)
  {
    forall n {:trigger AttendedAt(t, crew, tr, n)} :: n in tried && n !in accepted ==> AttendedAt(t, crew, tr, n)
  }

  lemma ServedIsAttended(t: Task, crew: Crew, tr: Traffic, accepted: map<Name, Json>, ready: seq<Name>)
    requires Tasks.Accepted(t)
    requires crew.local.Some? ==> AllServed(t, crew.local.value, tr, accepted, ready, LocalRole, crew.localRounds)
    requires crew.expert.Some? ==> AllServed(t, crew.expert.value, tr, accepted, ready, ExpertRole, crew.expertRounds)
    ensures AllAttended(t, crew, tr, accepted, ToSet(ready))
  {
  }

  lemma AttendedGoesOn(t: Task, crew: Crew, a: Traffic, b: Traffic, accepted: map<Name, Json>, more: map<Name, Json>,
      tried: set<Name>, ready: set<Name>, all: set<Name>)
    requires Tasks.Accepted(t) && Later(a, b) && accepted.Keys <= more.Keys && all <= tried + ready
    requires AllAttended(t, crew, a, accepted, tried) && AllAttended(t, crew, b, more, ready)
    ensures AllAttended(t, crew, b, more, all)
  {
    forall n | n in all && n !in more
      ensures AttendedAt(t, crew, b, n)
    {
      if n !in ready {
        assert AttendedAt(t, crew, a, n);
        if crew.local.Some? {
          LaterServed(t, crew.local.value, a, b, n, LocalRole, crew.localRounds);
        }
        if crew.expert.Some? {
          LaterServed(t, crew.expert.value, a, b, n, ExpertRole, crew.expertRounds);
        }
      }
    }
  }

  // ---------------------------------------------------------------- one request

  /**
   * What one request for `ids` adds: a refusal, or one call record. When it is not to be repeated, a limit was met or
   * the provider abstained.
   */
  ghost predicate Requested(a: Traffic, b: Traffic, ids: seq<Name>, role: Role, stop: bool) {
    && Later(a, b)
    && (|| (stop && forall n :: n in ids ==> Limited(b, n, role))
        || (&& |b.calls| == |a.calls| + 1 && b.calls[|a.calls|].role == role && b.calls[|a.calls|].ids == ids
            && (stop ==> forall n :: n in ids ==> Declined(b, n, role))))
  }

  lemma RequestServes(t: Task, provider: Provider, a: Traffic, b: Traffic, ids: seq<Name>, role: Role, stop: bool,
      n: Name, rounds: nat)
    requires Tasks.Accepted(t) && Requested(a, b, ids, role, stop) && n in ids
    requires ServedUpTo(t, provider, a, n, role, rounds)
    ensures ServedUpTo(t, provider, b, n, role, rounds + 1)
    ensures stop ==> Excused(t, provider, b, n, role)
  {
    if Excused(t, provider, a, n, role) {
      LaterExcused(t, provider, a, b, n, role);
    } else if !stop {
      SameAppearances(a.calls, b.calls[..|a.calls|], n, role);
    }
  }

  /**
   * One round over a frontier: everything in it that is still open was asked for, or must not reach the provider. When
   * the rounds stop, nobody in it need be asked again.
   */
  lemma RoundServes(t: Task, provider: Provider, a: Traffic, b: Traffic, accepted: map<Name, Json>,
      more: map<Name, Json>, ready: seq<Name>, ids: seq<Name>, role: Role, stop: bool, rounds: nat)
    requires Tasks.Accepted(t) && Requested(a, b, ids, role, stop) && accepted.Keys <= more.Keys
    requires forall n :: n in ready && n !in accepted && n !in ids ==>
      provider.placement.Remote? && n in t.obligations && !CloudAllowed(t, n)
    requires AllServed(t, provider, a, accepted, ready, role, rounds)
    ensures AllServed(t, provider, b, more, ready, role, rounds + 1)
    ensures stop ==> AllExcused(t, provider, b, more, ready, role)
  {
    forall n | n in ready && n !in more
      ensures ServedUpTo(t, provider, b, n, role, rounds + 1) && (stop ==> Excused(t, provider, b, n, role))
    {
      assert ServedUpTo(t, provider, a, n, role, rounds);
      if n in ids {
        RequestServes(t, provider, a, b, ids, role, stop, n, rounds);
      }
    }
  }

  /** Whoever is excused is served for any number of rounds. */
  lemma ExcusedIsServed(t: Task, provider: Provider, tr: Traffic, accepted: map<Name, Json>, ready: seq<Name>,
      role: Role, rounds: nat)
    requires Tasks.Accepted(t)
    requires AllExcused(t, provider, tr, accepted, ready, role)
    ensures AllServed(t, provider, tr, accepted, ready, role, rounds)
  {
  }

  // ---------------------------------------------------------------- proposals and refusals

  /** The value was proposed for the obligation in the documented answer to this packet. */
  ghost predicate ProposedIn(s: Sent, a: Reply, u: (Name, Json)) {
    && a.Answer? && !a.truncated && a.body.Some? && WellFormedBody(a.body.value, s.packet.ids)
    && u in a.body.value.updates
  }

  /** The value was proposed in the answer to some packet that was sent. */
  ghost predicate Proposed(sent: seq<Sent>, answers: seq<Reply>, u: (Name, Json)) {
    exists i :: 0 <= i < |sent| && i < |answers| && ProposedIn(sent[i], answers[i], u)
  }

  ghost predicate AllProposed(sent: seq<Sent>, answers: seq<Reply>, proposals: set<(Name, Json)>) {
    forall u {:trigger Proposed(sent, answers, u)} :: u in proposals ==> Proposed(sent, answers, u)
  }

  lemma ProposedLater(sent: seq<Sent>, answers: seq<Reply>, s: Sent, a: Reply, proposals: set<(Name, Json)>)
    requires |sent| == |answers| && AllProposed(sent, answers, proposals)
    ensures AllProposed(sent + [s], answers + [a], proposals)
  {
    forall u | u in proposals
      ensures Proposed(sent + [s], answers + [a], u)
    {
      assert Proposed(sent, answers, u);
      var i :| 0 <= i < |sent| && i < |answers| && ProposedIn(sent[i], answers[i], u);
      assert ProposedIn((sent + [s])[i], (answers + [a])[i], u);
    }
  }

  /** The last call comes back with an answer, and what it proposes is noted. */
  lemma AnswerProposes(sent: seq<Sent>, answers: seq<Reply>, a: Reply, proposals: set<(Name, Json)>,
      more: set<(Name, Json)>)
    requires sent != [] && |sent| == |answers| && AllProposed(sent, answers, proposals)
    requires !answers[|answers| - 1].Answer?
    requires forall u :: u in more ==> ProposedIn(sent[|sent| - 1], a, u)
    ensures AllProposed(sent, answers[|answers| - 1 := a], proposals + more)
  {
    var answers' := answers[|answers| - 1 := a];
    forall u | u in proposals + more
      ensures Proposed(sent, answers', u)
    {
      if u in more {
        assert ProposedIn(sent[|sent| - 1], answers'[|sent| - 1], u);
      } else {
        assert Proposed(sent, answers, u);
        var i :| 0 <= i < |sent| && i < |answers| && ProposedIn(sent[i], answers[i], u);
        assert ProposedIn(sent[i], answers'[i], u);
      }
    }
  }

  /** The request fits every limit. */
  predicate Fits(limits: Limits, calls: nat, remoteBytes: nat, expertCalls: nat, r: Refusal) {
    && calls < limits.maxCalls && r.size <= limits.maxRequestBytes
    && (r.role.ExpertRole? ==> expertCalls < limits.maxExpertCalls)
    && (r.provider.placement.Remote? ==> remoteBytes + r.size <= limits.maxRemoteBytes)
  }

  /** Nothing that was refused would fit now. */
  ghost predicate RightlyRefused(limits: Limits, calls: nat, remoteBytes: nat, expertCalls: nat,
      refused: seq<Refusal>) {
    forall i :: 0 <= i < |refused| ==> !Fits(limits, calls, remoteBytes, expertCalls, refused[i])
  }
}
