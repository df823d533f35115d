/** The gateway's session table and its caps (demo/cloud_gateway/server.py). */
module Sessions {
  import opened Basics

  type Token = Name

  datatype Config = Config(ttl: int, maxRequests: nat, maxTokens: nat, maxOutput: int, maxActive: nat, maxPerHour: nat)

  const HOUR := 3600

  datatype Row = Row(created: int, expires: int, requestsLeft: int, tokensLeft: int, profile: Name, revoked: bool)

  /** A reservation that was granted. */
  datatype Grant = Grant(token: Token, at: int, amount: int)

  /** What went on with a session, in order. */
  datatype Note = Reserved(grant: Grant) | Revoked(token: Token)

  /**
   * What is known of the profiles at the upstream service: those that exist there, those whose deletion has been
   * decided and not yet attempted, those whose deletion was attempted or failed, and those created by a call whose
   * reply could not be read.
   */
  datatype Profiles = Profiles(upstream: set<Name>, owed: set<Name>, attempted: set<Name>, failed: set<Name>,
      unread: set<Name>)

  /** The table, the profiles, and the history of grants and revocations. */
  datatype State = State(rows: map<Token, Row>, profiles: Profiles, notes: seq<Note>)

  const NO_PROFILES := Profiles({}, {}, {}, {}, {})

  const EMPTY := State(map[], NO_PROFILES, [])

  // ---------------------------------------------------------------- critical sections

  function Active(s: State, now: int): set<Token> {
    set t | t in s.rows && !s.rows[t].revoked && s.rows[t].expires > now
  }

  function Since(s: State, start: int): set<Token> {
    set t | t in s.rows && s.rows[t].created >= start
  }

  function Stale(s: State, now: int): set<Token> {
    set t | t in s.rows && !s.rows[t].revoked && s.rows[t].expires <= now
  }

  /**
   * How the upstream service answers a request for a profile. It may have created one although its reply is unreadable.
   */
  datatype Reply = NoProfile | Unreadable(profile: Name) | Profile(profile: Name)

  /**
   * What the upstream services and the disk do during a creation; `deleted` is how a deletion of the profile comes out.
   */
  datatype Supply = Supply(token: Token, reply: Reply, key: bool, stored: bool, deleted: bool)

  datatype Step =
    | Cleanup(now: int)
    | Create(now: int, supply: Supply)
    | Reserve(now: int, token: Token, requested: int)
    | Revoke(token: Token)
    | Delete(profile: Name, done: bool)

  /** A deletion is attempted. Its failure is swallowed. */
  function Attempted(p: Profiles, profile: Name, done: bool): Profiles {
    p.(upstream := if done then p.upstream - {profile} else p.upstream,
       owed := p.owed - {profile},
       attempted := p.attempted + {profile},
       failed := if done then p.failed else p.failed + {profile})
  }

  function Owing(p: Profiles, more: set<Name>): Profiles {
    p.(owed := p.owed + more)
  }

  function Amount(c: Config, requested: int): int {
    var least := if requested < c.maxOutput then requested else c.maxOutput;
    if least < 1 then 1 else least
  }

  predicate HasRoom(c: Config, s: State, now: int) {
    |Active(s, now)| < c.maxActive && |Since(s, now - HOUR)| < c.maxPerHour
  }

  predicate Grants(c: Config, s: State, now: int, token: Token, requested: int) {
    && token in s.rows && !s.rows[token].revoked && s.rows[token].expires > now
    && s.rows[token].requestsLeft > 0 && s.rows[token].tokensLeft >= Amount(c, requested)
  }

  function Cleaned(s: State, now: int): State {
    s.(rows := map t | t in s.rows :: if t in Stale(s, now) then s.rows[t].(revoked := true) else s.rows[t],
       profiles := Owing(s.profiles, set t | t in Stale(s, now) :: s.rows[t].profile))
  }

  /** A creation with whatever clock reading its thread made before it got the lock. */
  function Created(c: Config, s: State, now: int, u: Supply): State {
    if !HasRoom(c, s, now) then s
    else
      match u.reply
      case NoProfile => s
      case Unreadable(p) =>
        s.(profiles := s.profiles.(upstream := s.profiles.upstream + {p}, unread := s.profiles.unread + {p}))
      case Profile(p) =>
        var made := s.profiles.(upstream := s.profiles.upstream + {p});
        if !u.key || !u.stored || u.token in s.rows then s.(profiles := Attempted(made, p, u.deleted))
        else
          s.(rows := s.rows[u.token := Row(now, now + c.ttl, c.maxRequests, c.maxTokens, p, false)], profiles := made)
  }

  function AfterReserve(c: Config, s: State, now: int, token: Token, requested: int): State {
    if !Grants(c, s, now, token, requested) then s
    else
      var row, amount := s.rows[token], Amount(c, requested);
      s.(rows := s.rows[token := row.(requestsLeft := row.requestsLeft - 1, tokensLeft := row.tokensLeft - amount)],
         notes := s.notes + [Reserved(Grant(token, now, amount))])
  }

  function AfterRevoke(s: State, token: Token): State {
    if token !in s.rows then s
    else
      s.(rows := s.rows[token := s.rows[token].(revoked := true)],
         profiles := Owing(s.profiles, {s.rows[token].profile}),
         notes := s.notes + [Revoked(token)])
  }

  function Next(c: Config, s: State, step: Step): State {
    match step
    case Cleanup(now) => Cleaned(s, now)
    case Create(now, supply) => Created(c, s, now, supply)
    case Reserve(now, token, requested) => AfterReserve(c, s, now, token, requested)
    case Revoke(token) => AfterRevoke(s, token)
    case Delete(profile, done) =>
      if profile in s.profiles.owed then s.(profiles := Attempted(s.profiles, profile, done)) else s
  }

  /** The table after the critical sections of any number of threads, each with a clock reading of any age. */
  function After(c: Config, steps: seq<Step>): State {
    if steps == [] then EMPTY else Next(c, After(c, steps[..|steps| - 1]), steps[|steps| - 1])
  }

  // ---------------------------------------------------------------- caps

  /** The sessions created within the hour that starts at `start`. */
  function Within(s: State, start: int): set<Token> {
    set t | t in s.rows && start <= s.rows[t].created <= start + HOUR
  }

  /** The sessions that exist and are usable at time `at`. */
  function Usable(s: State, at: int): set<Token> {
    set t | t in s.rows && !s.rows[t].revoked && s.rows[t].created <= at < s.rows[t].expires
  }

  /** What a step does to a row that it leaves in the table: it keeps its times and is not un-revoked. */
  ghost predicate Keeps(s: State, s': State) {
    forall t :: t in s.rows ==>
      && t in s'.rows
      && s'.rows[t].created == s.rows[t].created && s'.rows[t].expires == s.rows[t].expires
      && s'.rows[t].profile == s.rows[t].profile && (s.rows[t].revoked ==> s'.rows[t].revoked)
  }

  lemma StepKeepsRows(c: Config, s: State, step: Step)
    ensures Keeps(s, Next(c, s, step))
    ensures !step.Create? ==> Next(c, s, step).rows.Keys == s.rows.Keys
  {
  }

  ghost predicate Capped(c: Config, s: State, at: int) {
    |Within(s, at)| <= c.maxPerHour && |Usable(s, at)| <= c.maxActive
  }

  lemma CreationIsCapped(c: Config, s: State, now: int, u: Supply, at: int)
    requires Capped(c, s, at)
    ensures Capped(c, Created(c, s, now, u), at)
  {
    var s' := Created(c, s, now, u);
    if s'.rows != s.rows {
      if at <= now <= at + HOUR {
        assert Within(s', at) == Within(s, at) + {u.token};
        SubsetSize(Within(s, at), Since(s, now - HOUR));
      } else {
        assert Within(s', at) == Within(s, at);
      }
      if now <= at < now + c.ttl {
        assert Usable(s', at) == Usable(s, at) + {u.token};
        SubsetSize(Usable(s, at), Active(s, now));
      } else {
        assert Usable(s', at) == Usable(s, at);
      }
    }
  }

  lemma StepIsCapped(c: Config, s: State, step: Step, at: int)
    requires Capped(c, s, at)
    ensures Capped(c, Next(c, s, step), at)
  {
    if step.Create? {
      CreationIsCapped(c, s, step.now, step.supply, at);
    } else {
      StepKeepsRows(c, s, step);
      var s' := Next(c, s, step);
      assert Within(s', at) == Within(s, at);
      SubsetSize(Usable(s', at), Usable(s, at));
    }
  }

  /**
   * Whatever the order of creations and however old their clock readings: any hour of recorded creation times holds at
   * most the hourly cap, and at any time at most the active cap of sessions is usable.
   */
  lemma {:induction false} AlwaysCapped(c: Config, steps: seq<Step>, at: int)
    ensures |Within(After(c, steps), at)| <= c.maxPerHour
    ensures |Usable(After(c, steps), at)| <= c.maxActive
  {
    if steps == [] {
      assert Within(EMPTY, at) == {} && Usable(EMPTY, at) == {};
    } else {
      AlwaysCapped(c, steps[..|steps| - 1], at);
      StepIsCapped(c, After(c, steps[..|steps| - 1]), steps[|steps| - 1], at);
    }
  }

  /**
   * The number of active sessions the gateway reports at a time no earlier than any clock reading so far is within the
   * cap.
   */
  lemma ActiveIsCapped(c: Config, steps: seq<Step>, now: int)
    requires forall t :: t in After(c, steps).rows ==> After(c, steps).rows[t].created <= now
    ensures |Active(After(c, steps), now)| <= c.maxActive
  {
    AlwaysCapped(c, steps, now);
    assert Active(After(c, steps), now) == Usable(After(c, steps), now);
  }

  // ---------------------------------------------------------------- budgets of a session

  /** The tokens granted to a session. */
  function Granted(notes: seq<Note>, token: Token): int {
    if notes == [] then 0 else
      var n := |notes| - 1;
      Granted(notes[..n], token)
      + if notes[n].Reserved? && notes[n].grant.token == token then notes[n].grant.amount else 0
  }

  /** How many reservations a session was granted. */
  function Requests(notes: seq<Note>, token: Token): nat {
    if notes == [] then 0 else
      var n := |notes| - 1;
      Requests(notes[..n], token) + if notes[n].Reserved? && notes[n].grant.token == token then 1 else 0
  }

  lemma NotesSnoc(notes: seq<Note>, note: Note, token: Token)
    ensures var mine := note.Reserved? && note.grant.token == token;
      && Granted(notes + [note], token) == Granted(notes, token) + (if mine then note.grant.amount else 0)
      && Requests(notes + [note], token) == Requests(notes, token) + if mine then 1 else 0
  {
    assert (notes + [note])[..|notes|] == notes;
  }

  ghost predicate Balanced(c: Config, s: State, token: Token) {
    if token in s.rows then
      var row := s.rows[token];
      && Granted(s.notes, token) + row.tokensLeft == c.maxTokens && row.tokensLeft >= 0
      && Requests(s.notes, token) + row.requestsLeft == c.maxRequests && row.requestsLeft >= 0
    else Granted(s.notes, token) == 0 && Requests(s.notes, token) == 0
  }

  lemma StepBalances(c: Config, s: State, step: Step, token: Token)
    requires Balanced(c, s, token)
    ensures Balanced(c, Next(c, s, step), token)
  {
    var s' := Next(c, s, step);
    if s'.notes != s.notes {
      assert s'.notes == s.notes + [s'.notes[|s.notes|]];
      NotesSnoc(s.notes, s'.notes[|s.notes|], token);
    }
  }

  /**
   * Tokens granted and tokens left always add up to the session's budget, and so do requests; neither goes negative.
   */
  lemma {:induction false} BudgetIsConserved(c: Config, steps: seq<Step>, token: Token)
    ensures Balanced(c, After(c, steps), token)
    ensures Granted(After(c, steps).notes, token) >= Requests(After(c, steps).notes, token) >= 0
  {
    if steps != [] {
      var front := steps[..|steps| - 1];
      var s, s' := After(c, front), After(c, steps);
      BudgetIsConserved(c, front, token);
      StepBalances(c, s, steps[|steps| - 1], token);
      if s'.notes != s.notes {
        assert s'.notes == s.notes + [s'.notes[|s.notes|]];
        NotesSnoc(s.notes, s'.notes[|s.notes|], token);
      }
    }
  }

  // ---------------------------------------------------------------- the end of a session

  /** Nothing is granted after a revocation, nor on a clock reading past the session's expiry. */
  ghost predicate NotesOk(s: State) {
    && (forall i :: 0 <= i < |s.notes| && s.notes[i].Reserved? ==>
          s.notes[i].grant.token in s.rows && s.notes[i].grant.at < s.rows[s.notes[i].grant.token].expires)
    && (forall i :: 0 <= i < |s.notes| && s.notes[i].Revoked? ==>
          s.notes[i].token in s.rows && s.rows[s.notes[i].token].revoked)
    && (forall i, j :: 0 <= i < j < |s.notes| && s.notes[i].Revoked? && s.notes[j].Reserved? ==>
          s.notes[j].grant.token != s.notes[i].token)
  }

  lemma {:induction false} NoGrantAfterTheEnd(c: Config, steps: seq<Step>)
    ensures NotesOk(After(c, steps))
  {
    if steps != [] {
      var front, last := steps[..|steps| - 1], steps[|steps| - 1];
      NoGrantAfterTheEnd(c, front);
      StepKeepsRows(c, After(c, front), last);
    }
  }

  /** The session is revoked, and has been granted this many tokens in all. */
  ghost predicate Closed(s: State, token: Token, total: int) {
    token in s.rows && s.rows[token].revoked && Granted(s.notes, token) == total
  }

  lemma StaysClosed(c: Config, s: State, step: Step, token: Token, total: int)
    requires Closed(s, token, total)
    ensures Closed(Next(c, s, step), token, total)
  {
    var s' := Next(c, s, step);
    StepKeepsRows(c, s, step);
    if s'.notes != s.notes {
      assert s'.notes == s.notes + [s'.notes[|s.notes|]];
      NotesSnoc(s.notes, s'.notes[|s.notes|], token);
    }
  }

  /** Once a session is revoked, by its owner or by the cleanup of expired sessions, it is granted nothing more. */
  lemma {:induction false} RevokedIsFinal(c: Config, steps: seq<Step>, more: seq<Step>, token: Token, total: int)
    requires Closed(After(c, steps), token, total)
    ensures Closed(After(c, steps + more), token, total)
  {
    if more == [] {
      assert steps + more == steps;
    } else {
      var front, last := more[..|more| - 1], more[|more| - 1];
      RevokedIsFinal(c, steps, front, token, total);
      assert (steps + more)[..|steps + more| - 1] == steps + front;
      StaysClosed(c, After(c, steps + front), last, token, total);
    }
  }

  /** Some session that is not revoked uses the profile. */
  ghost predicate InUse(s: State, profile: Name) {
    exists t :: t in s.rows && s.rows[t].profile == profile && !s.rows[t].revoked
  }

  /**
   * Every profile that exists upstream is used by a live session, or its deletion is owed or failed, or the gateway
   * never learnt of it; and for every revoked session the deletion is owed or was attempted.
   */
  ghost predicate ProfilesOk(s: State) {
    && (forall p :: p in s.profiles.upstream ==>
          p in s.profiles.owed || p in s.profiles.failed || p in s.profiles.unread || InUse(s, p))
    && (forall t :: t in s.rows && s.rows[t].revoked ==>
          s.rows[t].profile in s.profiles.owed || s.rows[t].profile in s.profiles.attempted)
  }

  lemma StaysInUse(c: Config, s: State, step: Step, p: Name)
    requires InUse(s, p)
    ensures InUse(Next(c, s, step), p) || p in Next(c, s, step).profiles.owed
  {
    var s' := Next(c, s, step);
    StepKeepsRows(c, s, step);
    var t :| t in s.rows && s.rows[t].profile == p && !s.rows[t].revoked;
    assert t in s'.rows && s'.rows[t].profile == p;
  }

  lemma StepKeepsProfiles(c: Config, s: State, step: Step)
    requires ProfilesOk(s)
    ensures ProfilesOk(Next(c, s, step))
  {
    var s' := Next(c, s, step);
    StepKeepsRows(c, s, step);
    forall p | p in s'.profiles.upstream
      ensures p in s'.profiles.owed || p in s'.profiles.failed || p in s'.profiles.unread || InUse(s', p)
    {
      if p in s.profiles.upstream && InUse(s, p) {
        StaysInUse(c, s, step, p);
      } else if p !in s.profiles.upstream && step.Create? && p !in s'.profiles.failed {
        if step.supply.reply.Profile? {
          assert s'.rows[step.supply.token].profile == p;
        }
      }
    }
  }

  /**
   * For every profile upstream the gateway has a use or knows why it is still there, except those it never learnt of.
   */
  lemma {:induction false} NoProfileIsForgotten(c: Config, steps: seq<Step>)
    ensures ProfilesOk(After(c, steps))
    ensures var s := After(c, steps);
      s.profiles.owed + s.profiles.failed + s.profiles.unread == {} ==>
        forall p :: p in s.profiles.upstream ==> InUse(s, p)
  {
    if steps != [] {
      NoProfileIsForgotten(c, steps[..|steps| - 1]);
      StepKeepsProfiles(c, After(c, steps[..|steps| - 1]), steps[|steps| - 1]);
    }
    var s := After(c, steps);
    assert s.profiles.owed + s.profiles.failed + s.profiles.unread == {} ==>
      s.profiles.owed == {} && s.profiles.failed == {} && s.profiles.unread == {} by {
      assert s.profiles.owed <= s.profiles.owed + s.profiles.failed + s.profiles.unread;
      assert s.profiles.failed <= s.profiles.owed + s.profiles.failed + s.profiles.unread;
      assert s.profiles.unread <= s.profiles.owed + s.profiles.failed + s.profiles.unread;
    }
  }

  // ---------------------------------------------------------------- the gateway

  datatype Refusal = Invalid | OverBudget

  class Gateway {
    const config: Config
    var rows: map<Token, Row>
    var profiles: Profiles
    ghost var notes: seq<Note>
    /** The critical sections so far, of all threads. */
    ghost var trace: seq<Step>

    ghost function View(): State
      reads this
    {
      State(rows, profiles, notes)
    }

    ghost predicate Valid()
      reads this
    {
      View() == After(config, trace)
    }

    constructor (config: Config)
      ensures Valid() && trace == [] && this.config == config
    {
      this.config := config;
      rows, profiles, notes, trace := map[], NO_PROFILES, [], [];
    }

    lemma AfterOne(step: Step)
      requires Valid()
      ensures After(config, trace + [step]) == Next(config, View(), step)
    {
      assert (trace + [step])[..|trace|] == trace;
    }

    /** Revokes what has expired; the deletions it owes follow when the lock has been released. */
    method CleanupExpired(now: int) returns (doomed: set<Name>)
      requires Valid()
      modifies this
      ensures Valid() && trace == old(trace) + [Cleanup(now)]
      ensures Stale(View(), now) == {} && doomed <= profiles.owed && rows.Keys == old(rows).Keys
      ensures forall t :: t in rows ==>
        rows[t] == if old(rows)[t].expires <= now then old(rows)[t].(revoked := true) else old(rows)[t]
      ensures forall t :: t in rows && rows[t].revoked && !old(rows)[t].revoked ==> rows[t].profile in doomed
    {
      AfterOne(Cleanup(now));
      trace := trace + [Cleanup(now)];
      var stale := set t | t in rows && !rows[t].revoked && rows[t].expires <= now;
      doomed := set t | t in stale :: rows[t].profile;
      profiles := Owing(profiles, doomed);
      rows := map t | t in rows :: if t in stale then rows[t].(revoked := true) else rows[t];
    }

    /** The session is issued exactly when both caps leave room and every supplier delivered. */
    method NewSession(now: int, u: Supply) returns (issuedNow: bool)
      requires Valid()
      modifies this
      ensures Valid() && trace == old(trace) + [Create(now, u)]
      ensures issuedNow <==>
        && old(|Active(View(), now)|) < config.maxActive && old(|Since(View(), now - HOUR)|) < config.maxPerHour
        && u.reply.Profile? && u.key && u.stored && u.token !in old(rows)
      ensures forall t :: t in old(rows) ==> t in rows && rows[t] == old(rows)[t]
      ensures issuedNow ==> u.token in rows && rows[u.token].created == now && rows[u.token].expires == now + config.ttl
    {
      AfterOne(Create(now, u));
      trace := trace + [Create(now, u)];
      issuedNow := false;
      var active := set t | t in rows && !rows[t].revoked && rows[t].expires > now;
      var recent := set t | t in rows && rows[t].created >= now - HOUR;
      assert active == Active(View(), now) && recent == Since(View(), now - HOUR);
      if |active| >= config.maxActive || |recent| >= config.maxPerHour {
        return;
      }
      match u.reply {
        case NoProfile => return;
        case Unreadable(p) =>
          profiles := profiles.(upstream := profiles.upstream + {p}, unread := profiles.unread + {p});
          return;
        case Profile(p) =>
          profiles := profiles.(upstream := profiles.upstream + {p});
          if !u.key || !u.stored || u.token in rows {
            profiles := Attempted(profiles, p, u.deleted);
            return;
          }
          rows := rows[u.token := Row(now, now + config.ttl, config.maxRequests, config.maxTokens, p, false)];
      }
      issuedNow := true;
    }

    /** Reserves tokens for one request, or says why not. */
    method ReserveTokens(now: int, token: Token, requested: int) returns (amount: int, refusal: Option<Refusal>)
      requires Valid()
      modifies this
      ensures Valid() && trace == old(trace) + [Reserve(now, token, requested)]
      ensures refusal.None? <==>
        && token in old(rows) && !old(rows)[token].revoked && old(rows)[token].expires > now
        && old(rows)[token].requestsLeft > 0 && old(rows)[token].tokensLeft >= amount
      ensures requested < 1 || config.maxOutput < 1 ==> amount == 1
      ensures 1 <= requested <= config.maxOutput ==> amount == requested
      ensures 1 <= config.maxOutput < requested ==> amount == config.maxOutput
      ensures refusal.None? ==>
        rows == old(rows)[token := old(rows)[token].(
          requestsLeft := old(rows)[token].requestsLeft - 1, tokensLeft := old(rows)[token].tokensLeft - amount)]
      ensures refusal.Some? ==> View() == old(View())
    {
      AfterOne(Reserve(now, token, requested));
      trace := trace + [Reserve(now, token, requested)];
      amount := Amount(config, requested);
      if token !in rows || rows[token].revoked || rows[token].expires <= now {
        return amount, Some(Invalid);
      }
      if rows[token].requestsLeft <= 0 || rows[token].tokensLeft < amount {
        return amount, Some(OverBudget);
      }
      var row := rows[token];
      rows := rows[token := row.(requestsLeft := row.requestsLeft - 1, tokensLeft := row.tokensLeft - amount)];
      notes := notes + [Reserved(Grant(token, now, amount))];
      refusal := None;
    }

    /** Revokes a session; the deletion it owes follows when the lock has been released. */
    method RevokeSession(token: Token) returns (doomed: Option<Name>)
      requires Valid()
      modifies this
      ensures Valid() && trace == old(trace) + [Revoke(token)]
      ensures doomed.Some? <==> token in old(rows)
      ensures token in rows <==> token in old(rows)
      ensures token in rows ==>
        rows[token].revoked && doomed == Some(rows[token].profile) && doomed.value in profiles.owed
      ensures token !in rows ==> View() == old(View())
    {
      AfterOne(Revoke(token));
      trace := trace + [Revoke(token)];
      doomed := None;
      if token in rows {
        doomed := Some(rows[token].profile);
        profiles := Owing(profiles, {rows[token].profile});
        rows := rows[token := rows[token].(revoked := true)];
        notes := notes + [Revoked(token)];
      }
    }

    /** Attempts a deletion that is owed; whether it works is up to the upstream service. */
    method DeleteProfile(profile: Name, done: bool)
      requires Valid()
      modifies this
      ensures Valid() && trace == old(trace) + [Delete(profile, done)] && rows == old(rows)
      ensures profile in old(profiles.owed) ==> profile in profiles.attempted && profile !in profiles.owed
      ensures profile in old(profiles.owed) ==>
        (done ==> profile !in profiles.upstream) && (!done ==> profile in profiles.failed)
    {
      AfterOne(Delete(profile, done));
      trace := trace + [Delete(profile, done)];
      if profile in profiles.owed {
        profiles := Attempted(profiles, profile, done);
      }
    }
  }
}
