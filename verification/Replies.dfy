/** What the reply of a provider does to the evidence it may see and to the reasons on record (residual/engine.py). */
module Replies {
  import opened Basics
  import opened Tasks
  import opened Intervals
  import opened Bookkeeping
  import opened Packets
  import opened Service

  // ---------------------------------------------------------------- requests for evidence

  /** In what setting requests are judged: `accepted` is what has been accepted by then. */
  datatype Desk = Desk(t: Task, limits: Limits, mode: Mode, provider: Provider, accepted: map<Name, Json>)

  /** Why a request is denied whatever has been shown before, if it is. */
  function Objection(d: Desk, r: Request): Option<string>
    requires r.obligation in d.t.obligations
  {
    if d.mode.NoPull? then Some("evidence_pull_disabled")
    else if r.artifact !in d.t.obligations[r.obligation].evidence || r.artifact !in d.t.artifacts then
      Some("undeclared_evidence")
    else if d.provider.placement.Remote? && !d.t.artifacts[r.artifact].cloud then Some("private_evidence")
    else if r.end < r.start || r.end - r.start + 1 > d.limits.maxRequestedLines then Some("evidence_window_limit")
    else if r.end > LineCount(d.t, r.artifact) then Some("evidence_window_out_of_range")
    else None
  }

  function KeyOf(d: Desk, r: Request): Key {
    Key(d.provider.name, r.obligation, r.artifact)
  }

  /** Requests as `_parse` lets them through: about obligations of the task, from one line on to another. */
  predicate InTask(t: Task, requests: seq<Request>) {
    forall i :: 0 <= i < |requests| ==>
      requests[i].obligation in t.obligations && requests[i].start >= 1 && requests[i].end >= 1
  }

  /** The request is permitted, and about an obligation that is still open. */
  predicate Effective(d: Desk, r: Request) {
    && r.obligation in d.t.obligations && r.obligation !in d.accepted
    && 1 <= r.start && 1 <= r.end && Objection(d, r).None?
  }

  /** One of the first `i` requests asks for lines under this key, and is permitted. */
  ghost predicate Touched(d: Desk, requests: seq<Request>, i: nat, k: Key) {
    exists j :: 0 <= j < i && j < |requests| && Effective(d, requests[j]) && KeyOf(d, requests[j]) == k
  }

  /** The line was shown before, or one of the first `i` requests asks for it and is permitted. */
  ghost predicate Pulled(d: Desk, w0: map<Key, seq<Span>>, requests: seq<Request>, i: nat, k: Key, x: int) {
    || Covers(WindowOf(w0, k), x)
    || exists j :: 0 <= j < i && j < |requests| && AsksFor(d, requests[j], k, x)
  }

  predicate AsksFor(d: Desk, r: Request, k: Key, x: int) {
    Effective(d, r) && KeyOf(d, r) == k && r.start <= x <= r.end
  }

  /**
   * The first `i` requests have been dealt with: every window covers exactly what it covered before and what permitted
   * requests ask for under its key, and all other windows are as they were.
   */
  ghost predicate WindowsAfter(d: Desk, w0: map<Key, seq<Span>>, w: map<Key, seq<Span>>, requests: seq<Request>,
      i: nat) {
    && (forall k, x :: Covers(WindowOf(w, k), x) <==> Pulled(d, w0, requests, i, k, x))
    && (forall k :: k in w <==> k in w0 || Touched(d, requests, i, k))
    && (forall k :: !Touched(d, requests, i, k) ==> WindowOf(w, k) == WindowOf(w0, k))
  }

  /** A span has been merged into one window. */
  ghost predicate Granted(before: map<Key, seq<Span>>, after: map<Key, seq<Span>>, key: Key, span: Span) {
    && key in after && after == before[key := after[key]]
    && SameCover(after[key], WindowOf(before, key) + [span])
  }

  /** Some line that the request asks for is not covered. */
  ghost predicate Unseen(window: seq<Span>, r: Request) {
    exists x :: r.start <= x <= r.end && !Covers(window, x)
  }

  /** What one request does to the windows. */
  ghost predicate Answered(d: Desk, w: map<Key, seq<Span>>, w': map<Key, seq<Span>>, r: Request) {
    if Effective(d, r) && Unseen(WindowOf(w, KeyOf(d, r)), r)
    then Granted(w, w', KeyOf(d, r), Span(r.start, r.end)) else w' == w
  }

  lemma PulledSnoc(d: Desk, w0: map<Key, seq<Span>>, requests: seq<Request>, i: nat, k: Key, x: int)
    requires i < |requests|
    ensures Pulled(d, w0, requests, i + 1, k, x) <==>
      || Pulled(d, w0, requests, i, k, x)
      || AsksFor(d, requests[i], k, x)
    ensures Touched(d, requests, i + 1, k) <==>
      Touched(d, requests, i, k) || (Effective(d, requests[i]) && KeyOf(d, requests[i]) == k)
  {
  }

  /** The window of one key after one more request. */
  lemma AnsweredAt(d: Desk, w: map<Key, seq<Span>>, w': map<Key, seq<Span>>, r: Request, k: Key, x: int)
    requires Answered(d, w, w', r)
    ensures Covers(WindowOf(w', k), x) <==>
      Covers(WindowOf(w, k), x) || AsksFor(d, r, k, x)
    ensures !(Effective(d, r) && KeyOf(d, r) == k) ==> WindowOf(w', k) == WindowOf(w, k) && (k in w' <==> k in w)
    ensures Effective(d, r) && KeyOf(d, r) == k ==> k in w'
  {
    if Effective(d, r) && KeyOf(d, r) == k {
      CoversSnoc(WindowOf(w, k), Span(r.start, r.end), x);
      if !Unseen(WindowOf(w, k), r) {
        assert Covers(WindowOf(w, k), r.start);
      }
    }
  }

  lemma WindowStepAt(d: Desk, w0: map<Key, seq<Span>>, w: map<Key, seq<Span>>, w': map<Key, seq<Span>>,
      requests: seq<Request>, i: nat, k: Key, x: int)
    requires i < |requests| && Answered(d, w, w', requests[i])
    requires Covers(WindowOf(w, k), x) <==> Pulled(d, w0, requests, i, k, x)
    requires k in w <==> k in w0 || Touched(d, requests, i, k)
    requires !Touched(d, requests, i, k) ==> WindowOf(w, k) == WindowOf(w0, k)
    ensures Covers(WindowOf(w', k), x) <==> Pulled(d, w0, requests, i + 1, k, x)
    ensures k in w' <==> k in w0 || Touched(d, requests, i + 1, k)
    ensures !Touched(d, requests, i + 1, k) ==> WindowOf(w', k) == WindowOf(w0, k)
  {
    PulledSnoc(d, w0, requests, i, k, x);
    AnsweredAt(d, w, w', requests[i], k, x);
  }

  lemma WindowsStep(d: Desk, w0: map<Key, seq<Span>>, w: map<Key, seq<Span>>, w': map<Key, seq<Span>>,
      requests: seq<Request>, i: nat)
    requires i < |requests| && WindowsAfter(d, w0, w, requests, i) && Answered(d, w, w', requests[i])
    ensures WindowsAfter(d, w0, w', requests, i + 1)
  {
    forall k, x
      ensures Covers(WindowOf(w', k), x) <==> Pulled(d, w0, requests, i + 1, k, x)
    {
      WindowStepAt(d, w0, w, w', requests, i, k, x);
    }
    forall k
      ensures k in w' <==> k in w0 || Touched(d, requests, i + 1, k)
      ensures !Touched(d, requests, i + 1, k) ==> WindowOf(w', k) == WindowOf(w0, k)
    {
      WindowStepAt(d, w0, w, w', requests, i, k, 0);
    }
  }

  // ---------------------------------------------------------------- reasons

  /** The same reason for everything in the list. */
  function Marked(failures: map<Name, string>, ids: seq<Name>, code: string): map<Name, string> {
    map n | n in failures.Keys + ToSet(ids) :: if n in ids then code else failures[n]
  }

  /** The reason is on record for everything in the list but what was kept, and nothing else has changed. */
  ghost predicate NotedBut(f: map<Name, string>, f': map<Name, string>, ids: seq<Name>, kept: seq<Name>, code: string) {
    forall n :: if n in ids && n !in kept then n in f' && f'[n] == code else UnchangedAt(f, f', n)
  }

  predicate UnchangedAt(f: map<Name, string>, f': map<Name, string>, n: Name) {
    (n in f' <==> n in f) && (n in f ==> f'[n] == f[n])
  }

  lemma MarkedSnoc(failures: map<Name, string>, ids: seq<Name>, i: nat, code: string)
    requires i < |ids|
    ensures Marked(failures, ids[..i + 1], code) == Marked(failures, ids[..i], code)[ids[i] := code]
  {
    TakeSnoc(ids, i);
    assert ids[..i + 1] == ids[..i] + [ids[i]];
  }

  function WithReason(failures: map<Name, string>, n: Name, code: Option<string>): map<Name, string> {
    if code.Some? then failures[n := code.value] else failures
  }

  /** The reason that request `i` leaves on record: an objection, or that all it asks for has been shown by then. */
  ghost function ReasonFor(d: Desk, w0: map<Key, seq<Span>>, requests: seq<Request>, i: nat): Option<string>
    requires i < |requests|
  {
    var r := requests[i];
    if r.obligation !in d.t.obligations || r.obligation in d.accepted then None
    else if Objection(d, r).Some? then Objection(d, r)
    else if forall x :: r.start <= x <= r.end ==> Pulled(d, w0, requests, i, KeyOf(d, r), x) then
      Some("evidence_already_supplied")
    else None
  }

  ghost function AfterRequests(d: Desk, w0: map<Key, seq<Span>>, failures: map<Name, string>, requests: seq<Request>,
      i: nat): map<Name, string>
    requires i <= |requests|
  {
    if i == 0 then failures else
      WithReason(AfterRequests(d, w0, failures, requests, i - 1), requests[i - 1].obligation,
        ReasonFor(d, w0, requests, i - 1))
  }

  /** The reason that one request leaves on record, given the window it finds. */
  ghost function ReasonNow(d: Desk, window: seq<Span>, r: Request): Option<string> {
    if r.obligation !in d.t.obligations || r.obligation in d.accepted then None
    else if Objection(d, r).Some? then Objection(d, r)
    else if !Unseen(window, r) then Some("evidence_already_supplied")
    else None
  }

  lemma ReasonIsCurrent(d: Desk, w0: map<Key, seq<Span>>, w: map<Key, seq<Span>>, requests: seq<Request>, i: nat)
    requires i < |requests| && WindowsAfter(d, w0, w, requests, i)
    ensures ReasonFor(d, w0, requests, i) == ReasonNow(d, WindowOf(w, KeyOf(d, requests[i])), requests[i])
  {
    var r := requests[i];
    forall x | r.start <= x <= r.end
      ensures Covers(WindowOf(w, KeyOf(d, r)), x) <==> Pulled(d, w0, requests, i, KeyOf(d, r), x)
    {
    }
  }

  /** What requests have an effect on. */
  datatype Matter = Evidence | Reasons

  ghost predicate DealtIn(matter: Matter, d: Desk, w0: map<Key, seq<Span>>, f0: map<Name, string>,
      requests: seq<Request>, i: nat, w: map<Key, seq<Span>>, f: map<Name, string>)
    requires i <= |requests|
  {
    match matter
    case Evidence => WindowsAfter(d, w0, w, requests, i)
    case Reasons => f == AfterRequests(d, w0, f0, requests, i)
  }

  /** The first `i` requests have been dealt with, in the windows and in the reasons on record. */
  ghost predicate Dealt(d: Desk, w0: map<Key, seq<Span>>, f0: map<Name, string>, requests: seq<Request>, i: nat,
      w: map<Key, seq<Span>>, f: map<Name, string>) {
    i <= |requests| && forall matter :: DealtIn(matter, d, w0, f0, requests, i, w, f)
  }

  lemma DealtMeans(d: Desk, w0: map<Key, seq<Span>>, f0: map<Name, string>, requests: seq<Request>, i: nat,
      w: map<Key, seq<Span>>, f: map<Name, string>)
    ensures Dealt(d, w0, f0, requests, i, w, f) <==>
      i <= |requests| && WindowsAfter(d, w0, w, requests, i) && f == AfterRequests(d, w0, f0, requests, i)
  {
    if Dealt(d, w0, f0, requests, i, w, f) {
      assert DealtIn(Evidence, d, w0, f0, requests, i, w, f) && DealtIn(Reasons, d, w0, f0, requests, i, w, f);
    }
  }

  lemma NothingAsked(d: Desk, w0: map<Key, seq<Span>>, f0: map<Name, string>, requests: seq<Request>)
    ensures Dealt(d, w0, f0, requests, 0, w0, f0)
  {
  }

  lemma DealtOneMore(d: Desk, w0: map<Key, seq<Span>>, f0: map<Name, string>, requests: seq<Request>, i: nat,
      w: map<Key, seq<Span>>, f: map<Name, string>, w': map<Key, seq<Span>>, f': map<Name, string>)
    requires i < |requests| && Dealt(d, w0, f0, requests, i, w, f) && Answered(d, w, w', requests[i])
    requires f' == WithReason(f, requests[i].obligation, ReasonNow(d, WindowOf(w, KeyOf(d, requests[i])), requests[i]))
    ensures Dealt(d, w0, f0, requests, i + 1, w', f')
  {
    DealtMeans(d, w0, f0, requests, i, w, f);
    ReasonIsCurrent(d, w0, w, requests, i);
    WindowsStep(d, w0, w, w', requests, i);
    DealtMeans(d, w0, f0, requests, i + 1, w', f');
  }

  /** What judging the first `i` proposals in the books `b` leaves on record. */
  function AfterUpdates(t: Task, reg: Registry, b: Books, failures: map<Name, string>, updates: seq<(Name, Json)>,
      i: nat): map<Name, string>
    requires i <= |updates|
  {
    if i == 0 then failures else
      var f, u := AfterUpdates(t, reg, b, failures, updates, i - 1), updates[i - 1];
      if u.0 !in t.obligations || t.obligations[u.0].check !in reg.checks then f
      else AfterVerdict(f, u.0, VerdictOn(t, reg, b, u.0, u.1))
  }

  /** A passing verdict clears the reason, any other leaves its own. */
  function AfterVerdict(failures: map<Name, string>, n: Name, v: Verdict): map<Name, string> {
    if v.Pass? then failures - {n} else failures[n := v.code]
  }

  /** What trying the cache for `n` leaves on record. */
  function AfterCache(t: Task, reg: Registry, b: Books, rows: Rows, failures: map<Name, string>, n: Name)
    : map<Name, string>
    requires n in t.obligations && t.obligations[n].check in reg.checks
  {
    var found := Offered(t, reg, t.obligations[n], b, rows);
    if found.Some? then AfterVerdict(failures, n, VerdictOn(t, reg, b, n, found.value)) else failures
  }

  /** What trying the solver of `n` leaves on record. */
  function AfterSolver(t: Task, reg: Registry, b: Books, failures: map<Name, string>, n: Name): map<Name, string>
    requires n in t.obligations && t.obligations[n].check in reg.checks
  {
    var solver, found := t.obligations[n].solver, SolvedBy(t, reg, b.accepted, n);
    if solver.None? || solver.value !in reg.solvers then failures
    else if found.None? then failures[n := "solver_error"]
    else AfterVerdict(failures, n, VerdictOn(t, reg, b, n, found.value))
  }

  /** The error code of a failed call as it is recorded: anything but a short plain code is replaced. */
  function SafeCode(code: string): (r: string)
    ensures PlainCode(r) && (PlainCode(code) ==> r == code)
  {
    if |code| <= 100 && forall i :: 0 <= i < |code| ==> IsPlain(code[i]) then code else "provider_error"
  }

  predicate IsPlain(c: char) {
    'a' <= c <= 'z' || '0' <= c <= '9' || c == '_'
  }

  /** Short, and nothing but lower-case letters, digits and underscores: nothing of a foreign message gets through. */
  ghost predicate PlainCode(code: string) {
    |code| <= 100 && forall i :: 0 <= i < |code| ==> 'a' <= code[i] <= 'z' || '0' <= code[i] <= '9' || code[i] == '_'
  }

  // ---------------------------------------------------------------- a whole reply

  /** The documented object, about what was asked for. */
  predicate Documented(reply: Reply, ids: seq<Name>) {
    reply.Answer? && !reply.truncated && reply.body.Some? && WellFormedBody(reply.body.value, ids)
  }

  /** What a documented answer does to the windows and to the reasons on record, `b` being the books before it. */
  ghost predicate BodyTaken(d: Desk, reg: Registry, b: Books, w0: map<Key, seq<Span>>, f0: map<Name, string>,
      ids: seq<Name>, body: Body, w: map<Key, seq<Span>>, f: map<Name, string>) {
    var judged := AfterUpdates(d.t, reg, b, f0, body.updates, |body.updates|);
    if body.updates == [] && body.requests == [] then w == w0 && f == Marked(judged, ids, "worker_abstained")
    else Dealt(d, w0, judged, body.requests, |body.requests|, w, f)
  }

  /** The reasons that a documented answer leaves on record. */
  ghost function ReasonsAfter(d: Desk, reg: Registry, b: Books, w0: map<Key, seq<Span>>, f0: map<Name, string>,
      ids: seq<Name>, body: Body): map<Name, string> {
    var judged := AfterUpdates(d.t, reg, b, f0, body.updates, |body.updates|);
    if body.updates == [] && body.requests == [] then Marked(judged, ids, "worker_abstained")
    else AfterRequests(d, w0, judged, body.requests, |body.requests|)
  }

  /** What a reply does in one matter; only a documented answer can show a provider more. */
  ghost predicate ReplyDid(matter: Matter, d: Desk, reg: Registry, b: Books, w0: map<Key, seq<Span>>,
      f0: map<Name, string>, ids: seq<Name>, reply: Reply, w: map<Key, seq<Span>>, f: map<Name, string>) {
    match matter
    case Evidence =>
      if Documented(reply, ids)
      then WindowsAfter(d, w0, w, reply.body.value.requests, |reply.body.value.requests|) else w == w0
    case Reasons =>
      f ==
        if Documented(reply, ids) then ReasonsAfter(d, reg, b, w0, f0, ids, reply.body.value)
        else Marked(f0, ids, if reply.Failure? then SafeCode(reply.code) else "invalid_protocol")
  }

  /** What a reply does to the windows and to the reasons on record, `b` being the books before it. */
  ghost predicate ReplyTaken(d: Desk, reg: Registry, b: Books, w0: map<Key, seq<Span>>, f0: map<Name, string>,
      ids: seq<Name>, reply: Reply, w: map<Key, seq<Span>>, f: map<Name, string>) {
    forall matter :: ReplyDid(matter, d, reg, b, w0, f0, ids, reply, w, f)
  }

  lemma BodyIsTaken(d: Desk, reg: Registry, b: Books, w0: map<Key, seq<Span>>, f0: map<Name, string>,
      ids: seq<Name>, reply: Reply, w: map<Key, seq<Span>>, f: map<Name, string>)
    requires Documented(reply, ids) && BodyTaken(d, reg, b, w0, f0, ids, reply.body.value, w, f)
    ensures ReplyTaken(d, reg, b, w0, f0, ids, reply, w, f)
  {
    var body := reply.body.value;
    var judged := AfterUpdates(d.t, reg, b, f0, body.updates, |body.updates|);
    DealtMeans(d, w0, judged, body.requests, |body.requests|, w, f);
  }
}
