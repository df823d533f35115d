/** The obligation harness: a run over a task with unreliable providers (residual/engine.py, residual/storage.py). */
module Engine {
  import opened Basics
  import opened Dag
  import opened Tasks
  import opened Receipts
  import opened Bookkeeping
  import opened WarmRuns
  import opened Sources
  import opened Service
  import opened Intervals
  import opened Packets
  import opened Replies

  /** The cache as a table of rows; a row that does not parse reads as a miss. */
  class Cache {
    var rows: Rows

    constructor ()
      ensures rows == map[]
    {
      rows := map[];
    }

    method Get(key: Hash) returns (found: Option<Json>)
      ensures found == if key in rows then rows[key] else None
    {
      found := if key in rows then rows[key] else None;
    }

    method Store(key: Hash, value: Json)
      modifies this
      ensures rows == old(rows)[key := Some(value)]
    {
      rows := rows[key := Some(value)];
    }
  }

  predicate Grows(a: map<Name, Json>, b: map<Name, Json>) {
    forall n :: n in a ==> n in b && a[n] == b[n]
  }

  /** Only obligations of `ids` have been accepted in between. */
  predicate OnlyAdds(a: map<Name, Json>, b: map<Name, Json>, ids: seq<Name>) {
    Grows(a, b) && forall n :: n in b ==> n in a || n in ids
  }

  /** Every obligation in the list exists and has all its dependencies accepted. */
  predicate Judgeable(t: Task, reg: Registry, accepted: map<Name, Json>, ready: seq<Name>) {
    Distinct(ready) && forall n :: n in ready ==> JudgeableAt(t, reg, accepted, n)
  }

  predicate JudgeableAt(t: Task, reg: Registry, accepted: map<Name, Json>, n: Name) {
    && n in t.obligations && t.obligations[n].id == n && t.obligations[n].check in reg.checks
    && forall d :: d in t.obligations[n].dependsOn ==> d in accepted
  }

  lemma JudgeableGrows(t: Task, reg: Registry, a: map<Name, Json>, b: map<Name, Json>, ready: seq<Name>)
    requires Judgeable(t, reg, a, ready) && Grows(a, b)
    ensures Judgeable(t, reg, b, ready)
  {
    forall n | n in ready ensures JudgeableAt(t, reg, b, n) {
      assert JudgeableAt(t, reg, a, n);
    }
  }

  /** What the books of a run are kept about. */
  datatype Page = OrderPage | SettledPage | SourcePage | FailurePage

  /** What the invariant of a run is about. */
  datatype Aspect = BooksAspect | BudgetAspect | WindowsAspect | TrafficAspect

  /** One run of the harness over one task. */
  class Harness {
    const t: Task
    const reg: Registry
    const limits: Limits
    const mode: Mode
    const local: Option<Provider>
    const expert: Option<Provider>
    const cache: Cache
    const caching: bool
    const grouped: bool
    const blocked: set<Name>
    /** The books of an earlier run over the same cache, empty when there was none. */
    ghost const prior: Books

    var accepted: map<Name, Json>
    var receipts: map<Name, RunReceipt>
    var station: map<Name, StationReceipt>
    var failures: map<Name, string>
    var windows: map<Key, seq<Span>>
    var calls: seq<Call>
    var remoteBytes: nat
    var expertCalls: nat
    var cacheHits: nat
    var deterministic: nat
    ghost var sent: seq<Sent>
    ghost var grants: map<Key, nat>
    ghost var solved: set<Name>
    /** The obligations for which cache and solver have been tried. */
    ghost var settled: set<Name>
    /** What came back for each call, what was not asked for because of a limit, and all that was ever proposed. */
    ghost var answers: seq<Reply>
    ghost var refused: seq<Refusal>
    ghost var proposals: Proposals
    /** The rows stored by this run, and what the cache held before it. */
    ghost var stored: map<Hash, Stored>
    ghost const rowsAtFirst: Rows

    ghost function Bk(): Books
      reads this`accepted, this`receipts, this`station
    {
      Books(accepted, receipts, station)
    }

    ghost function AtFirst(): Outset {
      Outset(caching, Solving(), rowsAtFirst)
    }

    ghost function Tr(): Traffic
      reads this`calls, this`answers, this`refused
    {
      Traffic(calls, answers, refused)
    }

    /** Solvers are used in this mode. */
    predicate Solving() {
      !mode.FullCloud? && !mode.NoSolvers?
    }

    /**
     * Values accepted are verified and receipted, failures are about others, the cache offers what was accepted, and
     * for what was tried and not accepted neither cache nor solver has a passing value, and every value accepted was
     * offered by the cache, computed by a solver or proposed by a provider.
     */
    ghost predicate ValidBooks()
      reads this`accepted, this`receipts, this`station, this`failures, this`settled, this`stored, this`proposals, cache
    {
      Tasks.Accepted(t) && Registered(t, reg) && forall p :: Entered(p)
    }

    ghost predicate Entered(p: Page)
      reads this`accepted, this`receipts, this`station, this`failures, this`settled, this`stored, this`proposals, cache
    {
      match p
      case OrderPage => InOrder(t, reg, prior, Bk(), cache.rows, caching)
      case SettledPage => AllSettled(t, reg, caching, Solving(), Bk(), cache.rows, settled)
      case SourcePage => Sourced(t, reg, AtFirst(), Bk(), cache.rows, stored, proposals)
      case FailurePage => failures.Keys <= t.obligations.Keys && failures.Keys !! accepted.Keys
    }

    lemma Pages()
      requires ValidBooks()
      ensures InOrder(t, reg, prior, Bk(), cache.rows, caching)
      ensures AllSettled(t, reg, caching, Solving(), Bk(), cache.rows, settled)
      ensures Sourced(t, reg, AtFirst(), Bk(), cache.rows, stored, proposals)
      ensures failures.Keys <= t.obligations.Keys && failures.Keys !! accepted.Keys
    {
      assert Entered(OrderPage) && Entered(SettledPage) && Entered(SourcePage) && Entered(FailurePage);
    }

    ghost predicate ValidBudget()
      reads this`calls, this`remoteBytes, this`expertCalls, this`refused
    {
      && WithinBudget(limits, calls, remoteBytes, expertCalls)
      && RightlyRefused(limits, |calls|, remoteBytes, expertCalls, refused)
    }

    ghost predicate ValidWindows()
      reads this`windows, this`grants
    {
      WindowsKept(t, windows, grants)
    }

    /** Every call is accounted for by the packet sent, and every packet is discreet. */
    ghost predicate ValidTraffic()
      reads this`calls, this`sent, this`answers, this`proposals
    {
      && Tasks.Accepted(t)
      && |sent| == |calls| == |answers| && AllProposed(sent, answers, proposals)
      && forall i :: 0 <= i < |sent| ==>
          Discreet(t, sent[i]) && sent[i].packet.ids == calls[i].ids && sent[i].provider == calls[i].provider
    }

    ghost predicate Holds(a: Aspect)
      reads this, cache
    {
      match a
      case BooksAspect => ValidBooks()
      case BudgetAspect => ValidBudget()
      case WindowsAspect => ValidWindows()
      case TrafficAspect => ValidTraffic()
    }

    /** The whole invariant, one aspect at a time. */
    ghost predicate Valid()
      reads this, cache
    {
      Tasks.Accepted(t) && Registered(t, reg) && forall a :: Holds(a)
    }

    lemma Parts()
      requires Valid()
      ensures ValidBooks() && ValidBudget() && ValidWindows() && ValidTraffic()
    {
      assert Holds(BooksAspect) && Holds(BudgetAspect) && Holds(WindowsAspect) && Holds(TrafficAspect);
    }

    lemma Whole()
      requires ValidBooks() && ValidBudget() && ValidWindows() && ValidTraffic()
      ensures Valid()
    {
    }

    /** A fresh run; `blocked` names obligations whose checks reject everything. */
    constructor (t: Task, reg: Registry, limits: Limits, mode: Mode, local: Option<Provider>, expert: Option<Provider>,
        cache: Cache, caching: bool, grouped: bool, blocked: set<Name>, ghost prior: Books)
      requires Tasks.Accepted(t) && Registered(t, reg) && Kept(t, reg, prior)
      requires if caching then Stocked(t, reg, prior, cache.rows) else prior.accepted == map[]
      requires blocked <= t.obligations.Keys
      ensures Valid() && fresh(this)
      ensures this.t == t && this.reg == reg && this.limits == limits && this.mode == mode
      ensures this.local == local && this.expert == expert && this.cache == cache && this.caching == caching
      ensures this.grouped == grouped && this.blocked == blocked && this.prior == prior && rowsAtFirst == cache.rows
      ensures accepted == map[] && failures == map[] && calls == [] && solved == {} && settled == {}
    {
      this.t, this.reg, this.limits, this.mode := t, reg, limits, mode;
      this.local, this.expert, this.cache, this.caching := local, expert, cache, caching;
      this.grouped, this.blocked, this.prior := grouped, blocked, prior;
      accepted, receipts, station, failures, windows := map[], map[], map[], map[], map[];
      calls, remoteBytes, expertCalls, cacheHits, deterministic := [], 0, 0, 0, 0;
      sent, grants, solved, settled := [], map[], {}, {};
      answers, refused, proposals, stored, rowsAtFirst := [], [], {}, map[], cache.rows;
      new;
      NothingAcceptedYet(t, reg);
      NothingSourcedYet(t, reg, AtFirst(), cache.rows);
      Whole();
    }

    // -------------------------------------------------------------- failures and acceptance

    method Fail(n: Name, code: string)
      requires ValidBooks() && n in t.obligations && n !in accepted
      modifies this`failures
      ensures ValidBooks()
      ensures failures == old(failures)[n := code]
    {
      Pages();
      failures := failures[n := code];
    }

    method FailAll(ids: seq<Name>, code: string)
      requires ValidBooks() && forall n :: n in ids ==> n in t.obligations && n !in accepted
      modifies this`failures
      ensures ValidBooks() && failures == Marked(old(failures), ids, code)
    {
      for i := 0 to |ids|
        invariant ValidBooks() && failures == Marked(old(failures), ids[..i], code)
      {
        MarkedSnoc(old(failures), ids, i, code);
        Fail(ids[i], code);
      }
      assert ids[..|ids|] == ids;
    }

    /** `_accept`: nothing enters the books without a passing verdict in the current context. */
    method TryAccept(n: Name, v: Json, fromCache: bool) returns (ok: bool)
      requires ValidBooks() && Open(t, reg, Bk(), n)
      requires fromCache ==> caching && Offered(t, reg, t.obligations[n], Bk(), cache.rows) == Some(v)
      requires n in prior.accepted ==> fromCache
      requires !fromCache ==> Comes(t, reg, AtFirst(), Bk(), proposals, n, v)
      modifies this`accepted, this`receipts, this`station, this`stored, this`failures, cache
      ensures ValidBooks()
      ensures ok <==> VerdictOn(t, reg, old(Bk()), n, v).Pass?
      ensures Bk() == if ok then Accept(t, reg, t.obligations[n], old(Bk()), v) else old(Bk())
      ensures failures == AfterVerdict(old(failures), n, VerdictOn(t, reg, old(Bk()), n, v))
      ensures !ok ==> cache.rows == old(cache.rows)
    {
      var o := t.obligations[n];
      var verdict := reg.checks[o.check](v, ContextOf(t, o, accepted));
      if !verdict.Pass? {
        Fail(n, verdict.code);
        return false;
      }
      EnterPassing(n, v, fromCache);
      return true;
    }

    method EnterPassing(n: Name, v: Json, fromCache: bool)
      requires ValidBooks() && Open(t, reg, Bk(), n) && VerdictOn(t, reg, Bk(), n, v).Pass?
      requires fromCache ==> caching && Offered(t, reg, t.obligations[n], Bk(), cache.rows) == Some(v)
      requires n in prior.accepted ==> fromCache
      requires !fromCache ==> Comes(t, reg, AtFirst(), Bk(), proposals, n, v)
      modifies this`accepted, this`receipts, this`station, this`stored, this`failures, cache
      ensures ValidBooks()
      ensures Bk() == Accept(t, reg, t.obligations[n], old(Bk()), v) && failures == old(failures) - {n}
    {
      ghost var noted := AcceptingKeeps(n, v, fromCache);
      EnterNoted(t.obligations[n], v, caching && !fromCache, noted);
    }

    /** The books, the cache and the notes about it are in order once the value has been entered. */
    ghost predicate InOrderAfter(o: Obligation, v: Json, store: bool, noted: map<Hash, Stored>)
      reads this`accepted, this`receipts, this`station, this`failures, this`settled, this`proposals, cache
    {
      var b := Accept(t, reg, o, Bk(), v);
      var rows := if store then Put(t, reg, o, Bk(), cache.rows, v) else cache.rows;
      && InOrder(t, reg, prior, b, rows, caching)
      && AllSettled(t, reg, caching, Solving(), b, rows, settled)
      && Sourced(t, reg, AtFirst(), b, rows, noted, proposals)
      && failures.Keys <= t.obligations.Keys && failures.Keys - {o.id} !! b.accepted.Keys
    }

    method EnterNoted(o: Obligation, v: Json, store: bool, ghost noted: map<Hash, Stored>)
      requires Tasks.Accepted(t) && Registered(t, reg) && InOrderAfter(o, v, store, noted)
      modifies this`accepted, this`receipts, this`station, this`stored, this`failures, cache
      ensures ValidBooks()
      ensures Bk() == Accept(t, reg, o, old(Bk()), v) && failures == old(failures) - {o.id}
    {
      Enter(o, v, store);
      stored := noted;
      Bound();
    }

    lemma Bound()
      requires Tasks.Accepted(t) && Registered(t, reg)
      requires InOrder(t, reg, prior, Bk(), cache.rows, caching)
      requires AllSettled(t, reg, caching, Solving(), Bk(), cache.rows, settled)
      requires Sourced(t, reg, AtFirst(), Bk(), cache.rows, stored, proposals)
      requires failures.Keys <= t.obligations.Keys && failures.Keys !! accepted.Keys
      ensures ValidBooks()
    {
    }

    /** What the books, the cache and the notes about it will be once a passing value has been entered is in order. */
    lemma AcceptingKeeps(n: Name, v: Json, fromCache: bool) returns (noted: map<Hash, Stored>)
      requires ValidBooks() && Open(t, reg, Bk(), n) && VerdictOn(t, reg, Bk(), n, v).Pass?
      requires fromCache ==> caching && Offered(t, reg, t.obligations[n], Bk(), cache.rows) == Some(v)
      requires n in prior.accepted ==> fromCache
      requires !fromCache ==> Comes(t, reg, AtFirst(), Bk(), proposals, n, v)
      ensures InOrderAfter(t.obligations[n], v, caching && !fromCache, noted)
    {
      Pages();
      var put := caching && !fromCache;
      var rows := if put then Put(t, reg, t.obligations[n], Bk(), cache.rows, v) else cache.rows;
      AcceptLeavesOrder(t, reg, prior, Bk(), cache.rows, caching, n, v, fromCache, rows);
      AcceptKeepsSettled(t, reg, caching, Solving(), Bk(), cache.rows, n, v, rows, settled);
      if fromCache {
        OfferedFromTheOutset(t, reg, AtFirst(), Bk(), cache.rows, stored, proposals, n);
      }
      AcceptKeepsSourced(t, reg, AtFirst(), Bk(), cache.rows, stored, proposals, n, v, put);
      noted := if put then StoredFor(t, reg, Bk(), stored, n) else stored;
    }

    /** Writes an accepted value into the books, and into the cache if asked to. */
    method Enter(o: Obligation, v: Json, store: bool)
      modifies this`accepted, this`receipts, this`station, this`failures, cache
      ensures Bk() == Accept(t, reg, o, old(Bk()), v)
      ensures failures == old(failures) - {o.id}
      ensures cache.rows == if store then Put(t, reg, o, old(Bk()), old(cache.rows), v) else old(cache.rows)
    {
      var books := Books(accepted, receipts, station);
      var next := Accept(t, reg, o, books, v);
      accepted, receipts, station := next.accepted, next.receipts, next.station;
      failures := failures - {o.id};
      if store {
        cache.Store(CacheKey(t, reg, o, books), RowFor(t, reg, o, books, v));
      }
    }

    // -------------------------------------------------------------- cache and solvers

    /** `_cached_candidate` on whatever the cache holds for `n`. */
    method Consult(n: Name) returns (found: Option<Json>)
      requires n in t.obligations
      ensures found == Offered(t, reg, t.obligations[n], Bk(), cache.rows)
    {
      var o, books := t.obligations[n], Books(accepted, receipts, station);
      var key := CacheKey(t, reg, o, books);
      var row := cache.Get(key);
      found := None;
      if row.Some? {
        match IdentityOf(reg, o, station)
        case None => found := row;
        case Some(who) => found := Candidate(o, row.value, key, who, ParentsIn(station, o.dependsOn));
      }
    }

    /**
     * Tries the cache, then the solver, for one obligation that is ready: it is accepted if either has a passing value.
     */
    method Settle(n: Name)
      requires ValidBooks() && Open(t, reg, Bk(), n) && solved !! prior.accepted.Keys
      modifies this`accepted, this`receipts, this`station, this`stored, this`failures, this`cacheHits,
        this`deterministic, this`solved, this`settled, cache
      ensures ValidBooks() && solved !! prior.accepted.Keys && settled == old(settled) + {n}
      ensures OnlyAdds(old(accepted), accepted, [n])
      ensures n in prior.accepted ==> n in accepted
      ensures n in accepted <==> old((caching && PassingOffer(t, reg, Bk(), cache.rows, n))
                                     || (Solving() && PassingSolution(t, reg, Bk(), n)))
      ensures failures == old(
        var tried := if caching then AfterCache(t, reg, Bk(), cache.rows, failures, n) else failures;
        if (caching && PassingOffer(t, reg, Bk(), cache.rows, n)) || !Solving() then tried
        else AfterSolver(t, reg, Bk(), tried, n))
    {
      var hit := false;
      if caching {
        hit := Recall(n);
      }
      if !hit {
        Unrepeated(n);
        Solve(n);
      }
      MarkSettled(n);
    }

    lemma Unrepeated(n: Name)
      requires ValidBooks()
      ensures !caching ==> n !in prior.accepted
    {
      Pages();
    }

    /** Notes that cache and solver have been tried for `n`. */
    method MarkSettled(n: Name)
      requires ValidBooks() && SettledAt(t, reg, caching, Solving(), Bk(), cache.rows, n)
      modifies this`settled
      ensures ValidBooks() && settled == old(settled) + {n}
    {
      Pages();
      settled := settled + {n};
    }

    /** Accepts what the cache offers for `n`, if it passes. */
    method Recall(n: Name) returns (hit: bool)
      requires ValidBooks() && Open(t, reg, Bk(), n) && caching
      modifies this`accepted, this`receipts, this`station, this`stored, this`failures, this`cacheHits, cache
      ensures ValidBooks() && (hit <==> n in accepted) && OnlyAdds(old(accepted), accepted, [n])
      ensures hit <==> old(PassingOffer(t, reg, Bk(), cache.rows, n))
      ensures failures == old(AfterCache(t, reg, Bk(), cache.rows, failures, n))
      ensures !hit ==> Bk() == old(Bk()) && cache.rows == old(cache.rows)
      ensures n in prior.accepted ==> hit
    {
      Pages();
      var found := Consult(n);
      if n in prior.accepted {
        WarmHit(t, reg, prior, Bk(), cache.rows, n);
      }
      hit := false;
      if found.Some? {
        hit := TryAccept(n, found.value, true);
        if hit {
          cacheHits := cacheHits + 1;
        }
      }
    }

    /** Accepts what the solver of `n` computes, if it passes. */
    method Solve(n: Name)
      requires ValidBooks() && Open(t, reg, Bk(), n) && n !in prior.accepted && solved !! prior.accepted.Keys
      modifies this`accepted, this`receipts, this`station, this`stored, this`failures, this`deterministic,
        this`solved, cache
      ensures ValidBooks() && solved !! prior.accepted.Keys
      ensures OnlyAdds(old(accepted), accepted, [n])
      ensures n in accepted <==> old(Solving() && PassingSolution(t, reg, Bk(), n))
      ensures failures == old(if Solving() then AfterSolver(t, reg, Bk(), failures, n) else failures)
      ensures n !in accepted ==> Bk() == old(Bk()) && cache.rows == old(cache.rows)
    {
      var o := t.obligations[n];
      if o.solver.Some? && o.solver.value in reg.solvers && Solving() {
        solved := solved + {n};
        var value := reg.solvers[o.solver.value](ContextOf(t, o, accepted));
        if value.None? {
          Fail(n, "solver_error");
        } else {
          var ok := TryAccept(n, value.value, false);
          if ok {
            deterministic := deterministic + 1;
          }
        }
      }
    }

    /** Every obligation in the list may be judged, or has been accepted meanwhile. */
    ghost predicate Frontier(ready: seq<Name>)
      reads this`accepted
    {
      Judgeable(t, reg, accepted, ready)
    }

    /** The local half of a round: cache and solvers, one ready obligation after the other. */
    method SettleAll(ready: seq<Name>)
      requires ValidBooks() && Frontier(ready) && solved !! prior.accepted.Keys && forall n :: n in ready ==>
        n !in accepted
      modifies this`accepted, this`receipts, this`station, this`stored, this`failures, this`cacheHits,
        this`deterministic, this`solved, this`settled, cache
      ensures ValidBooks() && Frontier(ready) && solved !! prior.accepted.Keys && settled == old(settled) + ToSet(ready)
      ensures OnlyAdds(old(accepted), accepted, ready)
      ensures forall n :: n in ready && n in prior.accepted ==> n in accepted
    {
      for i := 0 to |ready|
        invariant ValidBooks() && Frontier(ready) && solved !! prior.accepted.Keys
        invariant settled == old(settled) + ToSet(ready[..i])
        invariant OnlyAdds(old(accepted), accepted, ready[..i])
        invariant forall n :: n in ready[..i] && n in prior.accepted ==> n in accepted
      {
        TakeSnoc(ready, i);
        assert ready[i] in ready && ready[i] !in ready[..i];
        ghost var before := accepted;
        Settle(ready[i]);
        JudgeableGrows(t, reg, before, accepted, ready);
      }
      assert ready[..|ready|] == ready;
    }

    // -------------------------------------------------------------- evidence requests

    /** How the requests of a provider are judged now. */
    ghost function ThisDesk(provider: Provider): Desk
      reads this`accepted
    {
      Desk(t, limits, mode, provider, accepted)
    }

    /** `_request_evidence`: lines are granted exactly when they are permitted and not all shown already. */
    method RequestEvidence(provider: Provider, request: Request) returns (granted: bool)
      requires ValidBooks() && ValidWindows()
      requires request.obligation in t.obligations && 1 <= request.start && 1 <= request.end
      modifies this`windows, this`grants, this`failures
      ensures ValidBooks() && ValidWindows()
      ensures var d, window := ThisDesk(provider), WindowOf(old(windows), KeyOf(ThisDesk(provider), request));
        && (granted <==> Effective(d, request) && Unseen(window, request))
        && Answered(d, old(windows), windows, request)
        && failures == WithReason(old(failures), request.obligation, ReasonNow(d, window, request))
    {
      var n, a := request.obligation, request.artifact;
      if n in accepted {
        return false;
      }
      var code := "evidence_already_supplied";
      if mode.NoPull? {
        code := "evidence_pull_disabled";
      } else if a !in t.obligations[n].evidence || a !in t.artifacts {
        code := "undeclared_evidence";
      } else if provider.placement.Remote? && !t.artifacts[a].cloud {
        code := "private_evidence";
      } else if request.end < request.start || request.end - request.start + 1 > limits.maxRequestedLines {
        code := "evidence_window_limit";
      } else if request.end > |t.artifacts[a].lines| {
        code := "evidence_window_out_of_range";
      } else {
        granted := Grant(Key(provider.name, n, a), Span(request.start, request.end));
        if granted {
          return true;
        }
      }
      Fail(n, code);
      granted := false;
    }

    /** Merges a permitted span into its window, unless all of it is shown already. */
    method Grant(key: Key, span: Span) returns (granted: bool)
      requires ValidWindows() && 1 <= span.start <= span.end <= LineCount(t, key.artifact)
      modifies this`windows, this`grants
      ensures ValidWindows()
      ensures granted <==> exists x :: span.start <= x <= span.end && !Covers(WindowOf(old(windows), key), x)
      ensures if granted then Granted(old(windows), windows, key, span) else windows == old(windows)
    {
      var before := WindowOf(windows, key);
      var merged := Merge(before + [span]);
      AlreadySupplied(before, span, merged);
      if merged == before {
        return false;
      }
      ghost var lines := LineCount(t, key.artifact);
      GrantShowsMore(before, span, merged, lines);
      MergedInRange(before + [span], merged, lines);
      grants := grants[key := (if key in grants then grants[key] else 0) + 1];
      windows := windows[key := merged];
      return true;
    }

    // -------------------------------------------------------------- packets

    /** The intervals of one artifact that a seed-and-pull packet shows, merged. */
    method ShowArtifact(provider: Provider, ids: seq<Name>, a: Name) returns (spans: seq<Span>)
      requires ValidWindows() && LineCount(t, a) >= 1
      ensures Normal(spans) && InRange(spans, LineCount(t, a))
      ensures forall x :: Covers(spans, x) <==> SeededOrGranted(windows, provider.name, ids, a, Seed(a), x)
    {
      var intervals := if limits.seedLines == 0 then [] else [Span(1, Seed(a))];
      forall x ensures Covers(intervals, x) <==> 1 <= x <= Seed(a) {
        assert limits.seedLines != 0 ==> intervals[0] == Span(1, Seed(a));
      }
      for i := 0 to |ids|
        invariant Proper(intervals) && InRange(intervals, LineCount(t, a))
        invariant forall x :: Covers(intervals, x) <==> SeededOrGranted(windows, provider.name, ids[..i], a, Seed(a), x)
      {
        var more := WindowOf(windows, Key(provider.name, ids[i], a));
        forall x
          ensures Covers(intervals + more, x)
            <==> SeededOrGranted(windows, provider.name, ids[..i + 1], a, Seed(a), x)
        {
          GrantsJoin(windows, provider.name, ids, i, a, Seed(a), intervals, x);
        }
        intervals := intervals + more;
      }
      assert ids[..|ids|] == ids;
      spans := Merge(intervals);
      MergedInRange(intervals, spans, LineCount(t, a));
    }

    function Seed(a: Name): nat {
      if limits.seedLines < LineCount(t, a) then limits.seedLines else LineCount(t, a)
    }

    /** Every excerpt lies within its artifact, and the excerpts of an artifact are disjoint and not adjacent. */
    ghost predicate InBounds(p: Packet) {
      forall a :: a in p.evidence ==>
        a in t.artifacts && Normal(p.evidence[a]) && InRange(p.evidence[a], LineCount(t, a))
    }

    /** The whole context is sent. */
    predicate Full(role: Role) {
      role.ExpertRole? && (mode.FullCloud? || mode.Cascade?)
    }

    /**
     * The artifacts a packet lists: all or the declared ones, less the private ones where the packet must be public.
     */
    function Listed(ids: seq<Name>, full: bool, public: bool): set<Name> {
      set a | a in t.artifacts && (full || a in Needed(t, ids)) && (public ==> t.artifacts[a].cloud)
    }

    /**
     * The excerpts: of everything listed the whole, in full context; else of everything declared the whole, which only
     * an expert may get and only in some modes; else of everything listed exactly the seed and what was granted.
     */
    ghost predicate ShowsExactly(provider: Provider, ids: seq<Name>, role: Role, listed: set<Name>,
        evidence: map<Name, seq<Span>>)
      reads this`windows
    {
      if Full(role) then evidence.Keys == listed && AllWhole(evidence)
      else
        || (role.ExpertRole? && InlineMode(mode) && evidence.Keys == Needed(t, ids) && AllWhole(evidence))
        || (evidence.Keys == listed && forall a, x :: a in listed ==>
              (Covers(evidence[a], x) <==> SeededOrGranted(windows, provider.name, ids, a, Seed(a), x)))
    }

    ghost predicate AllWhole(evidence: map<Name, seq<Span>>) {
      forall a :: a in evidence ==> evidence[a] == [Span(1, LineCount(t, a))]
    }

    /** Everything a packet for `ids` carries. */
    ghost predicate Carries(provider: Provider, ids: seq<Name>, role: Role, p: Packet)
      requires Tasks.Accepted(t) && accepted.Keys <= t.obligations.Keys
      reads this`windows, this`accepted, this`failures
    {
      var public := provider.placement.Remote? || Exportable(t, ids);
      && p.ids == ids && p.manifest == Listed(ids, Full(role), public)
      && ShowsExactly(provider, ids, role, p.manifest, p.evidence)
      && p.dependencies == Visible(t, accepted, if Full(role) then accepted.Keys else NeededDeps(t, ids), public)
      && p.counterexamples == if mode.NoFeedback? then map[] else map n | n in ids && n in failures :: failures[n]
    }

    /** Some obligation in the list declares the artifact. */
    ghost predicate DeclaredIn(ids: seq<Name>, a: Name) {
      exists n :: n in ids && n in t.obligations && a in t.obligations[n].evidence
    }

    /** Some obligation in the list depends on the other. */
    ghost predicate DependedOnIn(ids: seq<Name>, d: Name) {
      exists n :: n in ids && n in t.obligations && d in t.obligations[n].dependsOn
    }

    /**
     * What a packet carries, item by item. An artifact is listed if it is declared, or the context is full; an accepted
     * value goes along if it is depended on, or the context is full; neither if it is private and the packet must be
     * public. The last failures go along unless feedback is off.
     */
    lemma CarriesMeans(provider: Provider, ids: seq<Name>, role: Role, p: Packet)
      requires Tasks.Accepted(t) && accepted.Keys <= t.obligations.Keys && Carries(provider, ids, role, p)
      ensures
        var public := provider.placement.Remote? || forall n :: n in ids && n in t.obligations ==> CloudAllowed(t, n);
        && (forall a :: a in p.manifest <==>
              a in t.artifacts && (Full(role) || DeclaredIn(ids, a)) && (public ==> t.artifacts[a].cloud))
        && (forall d :: d in p.dependencies <==>
              d in accepted && (Full(role) || DependedOnIn(ids, d)) && (public ==> CloudAllowed(t, d)))
        && (forall d :: d in p.dependencies ==> p.dependencies[d] == accepted[d])
      ensures forall n :: n in p.counterexamples <==> !mode.NoFeedback? && n in ids && n in failures
      ensures forall n :: n in p.counterexamples ==> p.counterexamples[n] == failures[n]
    {
    }

    method WholeArtifacts(shown: set<Name>) returns (evidence: map<Name, seq<Span>>)
      ensures evidence == map a | a in shown :: [Span(1, LineCount(t, a))]
    {
      evidence := map a | a in shown :: [Span(1, LineCount(t, a))];
    }

    method PulledArtifacts(provider: Provider, ids: seq<Name>, shown: set<Name>)
      returns (evidence: map<Name, seq<Span>>)
      requires ValidWindows() && forall a :: a in shown ==> LineCount(t, a) >= 1
      ensures evidence.Keys == shown
      ensures forall a :: a in shown ==> Normal(evidence[a]) && InRange(evidence[a], LineCount(t, a))
      ensures forall a, x :: a in shown ==>
        (Covers(evidence[a], x) <==> SeededOrGranted(windows, provider.name, ids, a, Seed(a), x))
    {
      evidence := map[];
      var todo := shown;
      while todo != {}
        invariant todo <= shown && evidence.Keys == shown - todo
        invariant forall a :: a in evidence ==> Normal(evidence[a]) && InRange(evidence[a], LineCount(t, a))
        invariant forall a, x :: a in evidence ==>
          (Covers(evidence[a], x) <==> SeededOrGranted(windows, provider.name, ids, a, Seed(a), x))
        decreases todo
      {
        var a := Least(todo);
        var spans := ShowArtifact(provider, ids, a);
        evidence := evidence[a := spans];
        todo := todo - {a};
      }
    }

    /** The excerpts shown: whole, inlined whole, or seeded and pulled. */
    method ChooseEvidence(provider: Provider, ids: seq<Name>, role: Role, listed: set<Name>)
      returns (evidence: map<Name, seq<Span>>)
      requires WellFormed(t) && ValidWindows() && listed <= t.artifacts.Keys
      ensures evidence.Keys == listed || evidence.Keys == Needed(t, ids)
      ensures forall a :: a in evidence ==> Normal(evidence[a]) && InRange(evidence[a], LineCount(t, a))
      ensures ShowsExactly(provider, ids, role, listed, evidence)
    {
      NeededInside(t, ids);
      var inline: bool := *;
      if Full(role) {
        evidence := WholeArtifacts(listed);
      } else if inline && role.ExpertRole? && InlineMode(mode) {
        evidence := WholeArtifacts(Needed(t, ids));
      } else {
        evidence := PulledArtifacts(provider, ids, listed);
      }
    }

    /** `_packet`: what is sent for a batch of obligations that are all exportable, or all private and stay local. */
    method BuildPacket(provider: Provider, ids: seq<Name>, role: Role) returns (p: Packet)
      requires Tasks.Accepted(t) && ValidWindows() && accepted.Keys <= t.obligations.Keys
      requires AllExportable(t, ids) || (provider.placement.Local? && AllPrivate(t, ids))
      ensures Discreet(t, Sent(provider, role, p)) && InBounds(p)
      ensures Carries(provider, ids, role, p)
    {
      p := AssemblePacket(provider, ids, role);
      CarriedIsDiscreet(provider, ids, role, p);
    }

    method AssemblePacket(provider: Provider, ids: seq<Name>, role: Role) returns (p: Packet)
      requires Tasks.Accepted(t) && ValidWindows() && accepted.Keys <= t.obligations.Keys
      ensures InBounds(p) && Carries(provider, ids, role, p)
    {
      var public := provider.placement.Remote? || Exportable(t, ids);
      var listed := Listed(ids, Full(role), public);
      var evidence := ChooseEvidence(provider, ids, role, listed);
      var deps := if Full(role) then accepted.Keys else NeededDeps(t, ids);
      var dependencies := Visible(t, accepted, deps, public);
      var feedback := if mode.NoFeedback? then map[] else map n | n in ids && n in failures :: failures[n];
      p := Packet(ids, listed, evidence, dependencies, feedback);
      NeededInside(t, ids);
    }

    lemma CarriedIsDiscreet(provider: Provider, ids: seq<Name>, role: Role, p: Packet)
      requires Tasks.Accepted(t) && accepted.Keys <= t.obligations.Keys && Carries(provider, ids, role, p)
      requires AllExportable(t, ids) || (provider.placement.Local? && AllPrivate(t, ids))
      ensures Discreet(t, Sent(provider, role, p))
    {
      BatchIsDiscreet(t, Sent(provider, role, p), accepted,
        if Full(role) then accepted.Keys else NeededDeps(t, ids), provider.placement.Remote? || Exportable(t, ids));
    }

    // -------------------------------------------------------------- one request to a provider

    /** The request fits every limit. */
    predicate Affordable(provider: Provider, role: Role, size: nat)
      reads this`calls, this`remoteBytes, this`expertCalls
    {
      && |calls| < limits.maxCalls && size <= limits.maxRequestBytes
      && (role.ExpertRole? ==> expertCalls < limits.maxExpertCalls)
      && (provider.placement.Remote? ==> remoteBytes + size <= limits.maxRemoteBytes)
    }

    /** Reserves a call before it is made. Until it comes back it counts as failed. */
    method Reserve(provider: Provider, role: Role, ids: seq<Name>, size: nat, packet: Packet)
      requires ValidBudget() && ValidTraffic() && Affordable(provider, role, size)
      requires packet.ids == ids && Discreet(t, Sent(provider, role, packet))
      modifies this`calls, this`remoteBytes, this`expertCalls, this`sent, this`answers
      ensures ValidBudget() && ValidTraffic()
      ensures calls == old(calls) + [Call(role, provider, ids, size, None)]
      ensures sent == old(sent) + [Sent(provider, role, packet)] && answers == old(answers) + [PENDING]
    {
      var record := Call(role, provider, ids, size, None);
      CallAdded(calls, record);
      ProposedLater(sent, answers, Sent(provider, role, packet), PENDING, proposals);
      if provider.placement.Remote? {
        remoteBytes := remoteBytes + size;
      }
      if role.ExpertRole? {
        expertCalls := expertCalls + 1;
      }
      calls := calls + [record];
      sent := sent + [Sent(provider, role, packet)];
      answers := answers + [PENDING];
    }

    /** Notes on the last call that it failed; the reservation stands. */
    method NoteError(ghost before: seq<Call>, code: string)
      requires ValidBudget() && ValidTraffic() && calls != [] && before == calls[..|calls| - 1]
      modifies this`calls
      ensures ValidBudget() && ValidTraffic()
      ensures |calls| == |before| + 1 && calls[..|before|] == before && calls[|before|].ids == old(calls)[|before|].ids
      ensures calls[|before|] == old(calls)[|before|].(error := Some(code))
    {
      var last := calls[|calls| - 1];
      assert calls == before + [last];
      ErrorRecorded(before, last, code);
      calls := calls[..|calls| - 1] + [last.(error := Some(code))];
    }

    /**
     * Judges every proposed value: it is accepted exactly when it passes. What an earlier proposal of the same reply
     * adds changes no context, and an update can never hit an accepted obligation.
     */
    method ApplyUpdates(updates: seq<(Name, Json)>, ids: seq<Name>)
      requires ValidBooks() && Frontier(ids)
      requires forall n :: n in ids ==> n !in accepted && n !in prior.accepted
      requires forall i, j :: 0 <= i < j < |updates| ==> updates[i].0 != updates[j].0
      requires forall i :: 0 <= i < |updates| ==> updates[i].0 in ids && updates[i] in proposals
      modifies this`accepted, this`receipts, this`station, this`stored, this`failures, cache
      ensures ValidBooks() && Frontier(ids) && OnlyAdds(old(accepted), accepted, ids)
      ensures JudgedUpTo(t, reg, old(Bk()), accepted, updates, |updates|)
      ensures failures == AfterUpdates(t, reg, old(Bk()), old(failures), updates, |updates|)
    {
      for i := 0 to |updates|
        invariant ValidBooks() && Frontier(ids) && OnlyAdds(old(accepted), accepted, ids)
        invariant JudgedUpTo(t, reg, old(Bk()), accepted, updates, i)
        invariant failures == AfterUpdates(t, reg, old(Bk()), old(failures), updates, i)
      {
        ghost var before := accepted;
        SameVerdict(t, reg, old(Bk()), Bk(), updates[i].0, updates[i].1);
        var ok := TryAccept(updates[i].0, updates[i].1, false);
        JudgedOneMore(t, reg, old(Bk()), before, accepted, updates, ids, i);
      }
    }

    /** Deals with the requests of a reply one after the other. */
    method ApplyRequests(provider: Provider, requests: seq<Request>)
      requires ValidBooks() && ValidWindows() && InTask(t, requests)
      modifies this`windows, this`grants, this`failures
      ensures ValidBooks() && ValidWindows()
      ensures Dealt(ThisDesk(provider), old(windows), old(failures), requests, |requests|, windows, failures)
      ensures requests == [] ==> windows == old(windows) && failures == old(failures)
    {
      ghost var d, w0, f0 := ThisDesk(provider), windows, failures;
      NothingAsked(d, w0, f0, requests);
      for i := 0 to |requests|
        invariant ValidBooks() && ValidWindows() && Dealt(d, w0, f0, requests, i, windows, failures)
        invariant i == 0 ==> windows == w0 && failures == f0
      {
        ApplyRequest(provider, requests, i, w0, f0);
      }
    }

    method ApplyRequest(provider: Provider, requests: seq<Request>, i: nat, ghost w0: map<Key, seq<Span>>,
        ghost f0: map<Name, string>)
      requires ValidBooks() && ValidWindows() && i < |requests| && InTask(t, requests)
      requires Dealt(ThisDesk(provider), w0, f0, requests, i, windows, failures)
      modifies this`windows, this`grants, this`failures
      ensures ValidBooks() && ValidWindows()
      ensures Dealt(ThisDesk(provider), w0, f0, requests, i + 1, windows, failures)
    {
      var granted := RequestEvidence(provider, requests[i]);
      DealtOneMore(ThisDesk(provider), w0, f0, requests, i, old(windows), old(failures), windows, failures);
    }

    /** Takes in whatever the provider answered. */
    method TakeIn(provider: Provider, ids: seq<Name>, reply: Reply) returns (stop: bool)
      requires ValidBooks() && ValidWindows() && Frontier(ids) && reply.Answer?
      requires forall n :: n in ids ==> n !in accepted && n !in prior.accepted
      requires Updates(reply, ids) <= proposals
      modifies this`accepted, this`receipts, this`station, this`stored, this`failures, this`windows, this`grants, cache
      ensures ValidBooks() && ValidWindows() && OnlyAdds(old(accepted), accepted, ids)
      ensures TakenIn(t, reg, old(Bk()), accepted, ids, reply) && (stop <==> Abstains(reply))
      ensures ReplyTaken(ThisDesk(provider), reg, old(Bk()), old(windows), old(failures), ids, reply, windows, failures)
    {
      if reply.truncated || reply.body.None? || !WellFormedBody(reply.body.value, ids) {
        FailAll(ids, "invalid_protocol");
        return false;
      }
      stop := TakeBody(provider, ids, reply.body.value);
      BodyIsTaken(ThisDesk(provider), reg, old(Bk()), old(windows), old(failures), ids, reply, windows, failures);
    }

    lemma RequestsInTask(ids: seq<Name>, body: Body)
      requires Frontier(ids) && WellFormedBody(body, ids)
      ensures InTask(t, body.requests)
    {
      forall i | 0 <= i < |body.requests|
        ensures body.requests[i].obligation in t.obligations
      {
        assert JudgeableAt(t, reg, accepted, body.requests[i].obligation);
      }
    }

    method TakeBody(provider: Provider, ids: seq<Name>, body: Body) returns (stop: bool)
      requires ValidBooks() && ValidWindows() && Frontier(ids) && WellFormedBody(body, ids)
      requires forall n :: n in ids ==> n !in accepted && n !in prior.accepted
      requires forall u :: u in body.updates ==> u in proposals
      modifies this`accepted, this`receipts, this`station, this`stored, this`failures, this`windows, this`grants, cache
      ensures ValidBooks() && ValidWindows() && OnlyAdds(old(accepted), accepted, ids)
      ensures JudgedUpTo(t, reg, old(Bk()), accepted, body.updates, |body.updates|)
      ensures stop <==> body.updates == [] && body.requests == []
      ensures BodyTaken(ThisDesk(provider), reg, old(Bk()), old(windows), old(failures), ids, body, windows, failures)
    {
      RequestsInTask(ids, body);
      ApplyUpdates(body.updates, ids);
      ApplyRequests(provider, body.requests);
      stop := body.updates == [] && body.requests == [];
      if stop {
        FailAll(ids, "worker_abstained");
      }
    }

    /** At most one more call record, about `ids`. */
    ghost predicate OneMoreCall(before: seq<Call>, ids: seq<Name>, role: Role)
      reads this`calls
    {
      || calls == before
      || (&& |calls| == |before| + 1 && calls[..|before|] == before
          && calls[|before|].ids == ids && calls[|before|].role == role)
    }

    /**
     * One round of `_work`: packet, reservation, an answer or a failure of any kind, and what is made of it. Either a
     * limit is met, or there is one more call for `ids` and what comes back is taken in; the rounds stop when a limit
     * was met or the provider abstained.
     */
    method Round(provider: Provider, ids: seq<Name>, role: Role) returns (stop: bool)
      requires Valid() && Frontier(ids) && forall n :: n in ids ==> n !in accepted && n !in prior.accepted
      requires AllExportable(t, ids) || (provider.placement.Local? && AllPrivate(t, ids))
      modifies this`accepted, this`receipts, this`station, this`stored, this`failures, this`windows, this`grants,
        this`calls, this`remoteBytes, this`expertCalls, this`sent, this`answers, this`refused, this`proposals, cache
      ensures Valid() && OnlyAdds(old(accepted), accepted, ids)
      ensures OneMoreCall(old(calls), ids, role)
      ensures Requested(old(Tr()), Tr(), ids, role, stop)
      ensures TookRound(old(Bk()), |old(answers)|, ids, stop)
      ensures TookEffect(provider, old(Bk()), old(windows), old(failures), |old(answers)|, ids)
    {
      ghost var books := Bk();
      var reserved := Book(provider, ids, role);
      if reserved {
        stop := AskBooked(provider, ids, role, old(Tr()), books);
      } else {
        FailSpared(ids, role, old(Tr()));
        stop := true;
      }
    }

    /**
     * What came back in the round was taken in; if nothing was asked, nothing is accepted. The rounds stop exactly when
     * nothing was asked or the provider abstained.
     */
    ghost predicate TookRound(books: Books, answered: nat, ids: seq<Name>, stop: bool)
      reads this`accepted, this`answers
    {
      && answered <= |answers| <= answered + 1
      && (|answers| == answered ==> accepted == books.accepted)
      && (|answers| == answered + 1 ==> TakenIn(t, reg, books, accepted, ids, answers[answered]))
      && (stop <==> |answers| == answered || Abstains(answers[answered]))
    }

    /** What came back has had its effect on windows and reasons; if nothing was asked, only the limit is on record. */
    ghost predicate TookEffect(provider: Provider, books: Books, w0: map<Key, seq<Span>>, f0: map<Name, string>,
        answered: nat, ids: seq<Name>)
      reads this`accepted, this`answers, this`windows, this`failures
    {
      && (|answers| == answered ==> windows == w0 && failures == Marked(f0, ids, "budget_exhausted"))
      && (|answers| > answered ==>
            ReplyTaken(ThisDesk(provider), reg, books, w0, f0, ids, answers[answered], windows, failures))
    }

    method AskBooked(provider: Provider, ids: seq<Name>, role: Role, ghost before: Traffic, ghost books: Books)
      returns (stop: bool)
      requires Valid() && Frontier(ids) && forall n :: n in ids ==> n !in accepted && n !in prior.accepted
      requires Bk() == books
      requires Added(before, Tr(), ids, role, PENDING)
      modifies this`accepted, this`receipts, this`station, this`stored, this`failures, this`windows, this`grants,
        this`calls, this`answers, this`proposals, cache
      ensures Valid() && OnlyAdds(old(accepted), accepted, ids) && OneMoreCall(before.calls, ids, role)
      ensures Requested(before, Tr(), ids, role, stop)
      ensures TookRound(books, |before.answers|, ids, stop)
      ensures TookEffect(provider, books, old(windows), old(failures), |before.answers|, ids)
    {
      ghost var reply;
      stop, reply := Ask(provider, ids, role, before);
      CameBack(before, Tr(), ids, role, stop, reply);
    }

    method FailSpared(ids: seq<Name>, role: Role, ghost before: Traffic)
      requires Valid() && Frontier(ids) && forall n :: n in ids ==> n !in accepted
      requires Spared(before, Tr(), ids, role)
      modifies this`failures
      ensures Valid() && Requested(before, Tr(), ids, role, true) && |answers| == |before.answers|
      ensures failures == Marked(old(failures), ids, "budget_exhausted")
    {
      MetALimit(before, Tr(), ids, role);
      FailOpen(ids, "budget_exhausted");
    }

    method FailOpen(ids: seq<Name>, code: string)
      requires Valid() && Frontier(ids) && forall n :: n in ids ==> n !in accepted
      modifies this`failures
      ensures Valid() && failures == Marked(old(failures), ids, code)
    {
      Parts();
      FailAll(ids, code);
      Whole();
    }

    method Book(provider: Provider, ids: seq<Name>, role: Role) returns (reserved: bool)
      requires Valid() && (AllExportable(t, ids) || (provider.placement.Local? && AllPrivate(t, ids)))
      modifies this`calls, this`remoteBytes, this`expertCalls, this`sent, this`answers, this`refused
      ensures Valid()
      ensures if reserved then Added(old(Tr()), Tr(), ids, role, PENDING) else Spared(old(Tr()), Tr(), ids, role)
    {
      Parts();
      AcceptedInside();
      var packet;
      reserved, packet := Offer(provider, ids, role);
      Whole();
    }

    /** Builds the packet and reserves the call if every limit allows it. */
    method Offer(provider: Provider, ids: seq<Name>, role: Role) returns (reserved: bool, packet: Packet)
      requires ValidBudget() && ValidWindows() && ValidTraffic() && accepted.Keys <= t.obligations.Keys
      requires AllExportable(t, ids) || (provider.placement.Local? && AllPrivate(t, ids))
      modifies this`calls, this`remoteBytes, this`expertCalls, this`sent, this`answers, this`refused
      ensures ValidBudget() && ValidTraffic()
      ensures if reserved then Added(old(Tr()), Tr(), ids, role, PENDING) else Spared(old(Tr()), Tr(), ids, role)
      ensures Carries(provider, ids, role, packet)
      ensures sent == old(sent) + if reserved then [Sent(provider, role, packet)] else []
    {
      packet := BuildPacket(provider, ids, role);
      reserved := Commit(provider, ids, role, packet);
    }

    /** Reserves the call, whatever its size on the wire, if every limit allows it. */
    method Commit(provider: Provider, ids: seq<Name>, role: Role, packet: Packet) returns (reserved: bool)
      requires ValidBudget() && ValidTraffic()
      requires packet.ids == ids && Discreet(t, Sent(provider, role, packet))
      modifies this`calls, this`remoteBytes, this`expertCalls, this`sent, this`answers, this`refused
      ensures ValidBudget() && ValidTraffic()
      ensures if reserved then Added(old(Tr()), Tr(), ids, role, PENDING) else Spared(old(Tr()), Tr(), ids, role)
      ensures sent == old(sent) + if reserved then [Sent(provider, role, packet)] else []
    {
      var size: nat := *;
      reserved := Affordable(provider, role, size);
      if reserved {
        Reserve(provider, role, ids, size, packet);
      } else {
        refused := refused + [Refusal(provider, role, ids, size)];
      }
    }

    /** The call itself: any failure, or any answer. */
    method Ask(provider: Provider, ids: seq<Name>, role: Role, ghost before: Traffic)
      returns (stop: bool, ghost reply: Reply)
      requires Valid() && Frontier(ids) && forall n :: n in ids ==> n !in accepted && n !in prior.accepted
      requires Added(before, Tr(), ids, role, PENDING)
      modifies this`accepted, this`receipts, this`station, this`stored, this`failures, this`windows, this`grants,
        this`calls, this`answers, this`proposals, cache
      ensures Valid() && OnlyAdds(old(accepted), accepted, ids)
      ensures Added(before, Tr(), ids, role, reply) && (stop <==> Abstains(reply))
      ensures TakenIn(t, reg, old(Bk()), accepted, ids, reply)
      ensures ReplyTaken(ThisDesk(provider), reg, old(Bk()), old(windows), old(failures), ids, reply, windows, failures)
    {
      var got: Reply := *;
      reply := got;
      NoteReply(ids, role, got, before);
      match got
      case Failure(code) =>
        NoteFailure(ids, role, before, got, SafeCode(code));
        stop := false;
      case Answer(_, _) =>
        stop := TakeAnswer(provider, ids, got);
    }

    /** What comes back for the last call is noted, with all that it proposes. */
    method NoteReply(ids: seq<Name>, role: Role, reply: Reply, ghost before: Traffic)
      requires Valid() && Added(before, Tr(), ids, role, PENDING)
      modifies this`answers, this`proposals
      ensures Valid() && Added(before, Tr(), ids, role, reply) && Updates(reply, ids) <= proposals
    {
      Parts();
      ReplyKeeps(ids, reply);
      Pages();
      answers := answers[|answers| - 1 := reply];
      proposals := proposals + Updates(reply, ids);
      Whole();
    }

    lemma ReplyKeeps(ids: seq<Name>, reply: Reply)
      requires ValidBooks() && ValidTraffic() && answers != [] && answers[|answers| - 1] == PENDING
      requires calls[|calls| - 1].ids == ids
      ensures AllProposed(sent, answers[|answers| - 1 := reply], proposals + Updates(reply, ids))
      ensures Sourced(t, reg, AtFirst(), Bk(), cache.rows, stored, proposals + Updates(reply, ids))
    {
      Pages();
      assert sent[|sent| - 1].packet.ids == ids;
      AnswerProposes(sent, answers, reply, proposals, Updates(reply, ids));
      ProposingKeepsSourced(t, reg, AtFirst(), Bk(), cache.rows, stored, proposals, proposals + Updates(reply, ids));
    }

    method NoteFailure(ids: seq<Name>, role: Role, ghost before: Traffic, ghost reply: Reply, code: string)
      requires Valid() && Frontier(ids) && forall n :: n in ids ==> n !in accepted
      requires Added(before, Tr(), ids, role, reply)
      modifies this`calls, this`failures
      ensures Valid() && Added(before, Tr(), ids, role, reply) && failures == Marked(old(failures), ids, code)
      ensures calls[|calls| - 1].error == Some(code)
    {
      Parts();
      NoteError(before.calls, code);
      FailAll(ids, code);
      Whole();
    }

    method TakeAnswer(provider: Provider, ids: seq<Name>, reply: Reply) returns (stop: bool)
      requires Valid() && Frontier(ids) && reply.Answer?
      requires forall n :: n in ids ==> n !in accepted && n !in prior.accepted
      requires Updates(reply, ids) <= proposals
      modifies this`accepted, this`receipts, this`station, this`stored, this`failures, this`windows, this`grants, cache
      ensures Valid() && OnlyAdds(old(accepted), accepted, ids)
      ensures TakenIn(t, reg, old(Bk()), accepted, ids, reply) && (stop <==> Abstains(reply))
      ensures ReplyTaken(ThisDesk(provider), reg, old(Bk()), old(windows), old(failures), ids, reply, windows, failures)
    {
      Parts();
      stop := TakeIn(provider, ids, reply);
      Whole();
    }

    lemma AcceptedInside()
      requires ValidBooks()
      ensures accepted.Keys <= t.obligations.Keys
    {
      Pages();
      forall n | n in accepted ensures n in t.obligations {
        assert KeptAt(t, reg, Bk(), n);
      }
    }

    // -------------------------------------------------------------- dispatching a frontier

    /** What is left to ask a provider for; private obligations are never offered to a remote one. */
    method Batch(provider: Provider, ready: seq<Name>) returns (ids: seq<Name>)
      requires Valid() && Frontier(ready)
      requires provider.placement.Local? ==> AllExportable(t, ready) || AllPrivate(t, ready)
      modifies this`failures
      ensures Valid() && Frontier(ids)
      ensures forall n :: n in ids ==> n in ready && n !in accepted
      ensures forall n :: n in ready && n !in accepted && n !in ids ==> KeptFrom(provider, n)
      ensures NotedBut(old(failures), failures, Select(ready, accepted.Keys, false), ids, "local_only")
      ensures AllExportable(t, ids) || (provider.placement.Local? && AllPrivate(t, ids))
    {
      ids := Select(ready, accepted.Keys, false);
      if provider.placement.Remote? {
        ids := KeepExportable(ids);
      }
    }

    /** The obligation must not reach the provider. */
    ghost predicate KeptFrom(provider: Provider, n: Name)
      requires Tasks.Accepted(t)
    {
      provider.placement.Remote? && n in t.obligations && !CloudAllowed(t, n)
    }

    /** The obligations that may leave the machine; the others are marked as local only. */
    method KeepExportable(ids: seq<Name>) returns (kept: seq<Name>)
      requires Valid() && Frontier(ids) && forall n :: n in ids ==> n !in accepted
      modifies this`failures
      ensures Valid() && Frontier(kept) && AllExportable(t, kept)
      ensures forall n :: n in kept ==> n in ids
      ensures forall n :: n in ids && n !in kept ==> n in t.obligations && !CloudAllowed(t, n)
      ensures NotedBut(old(failures), failures, ids, kept, "local_only")
    {
      var allowed := set n | n in ids && n in t.obligations && CloudAllowed(t, n);
      FailOpen(Select(ids, allowed, false), "local_only");
      kept := Select(ids, allowed, true);
    }

    /**
     * One round over whatever is still open of a frontier. If everything open in it was asked for `r` times before, or
     * need not be asked for again, then now `r + 1` times; and nothing need be asked for again when the rounds stop.
     */
    method WorkOnce(provider: Provider, ready: seq<Name>, role: Role, ghost r: nat) returns (stop: bool)
      requires Valid() && Frontier(ready)
      requires forall n :: n in ready && n in prior.accepted ==> n in accepted
      requires provider.placement.Local? ==> AllExportable(t, ready) || AllPrivate(t, ready)
      requires AllServed(t, provider, Tr(), accepted, ready, role, r)
      modifies this`accepted, this`receipts, this`station, this`stored, this`failures, this`windows, this`grants,
        this`calls, this`remoteBytes, this`expertCalls, this`sent, this`answers, this`refused, this`proposals, cache
      ensures Valid() && Frontier(ready) && OnlyAdds(old(accepted), accepted, ready)
      ensures CallsBounded(old(calls), calls, old(accepted), ready, 1)
      ensures Later(old(Tr()), Tr()) && AllServed(t, provider, Tr(), accepted, ready, role, r + 1)
      ensures Batches(old(Tr()), Tr(), role, 1, |ready| == 1)
      ensures stop ==> AllExcused(t, provider, Tr(), accepted, ready, role)
    {
      var ids := Batch(provider, ready);
      if ids == [] {
        NothingToAsk(t, provider, Tr(), accepted, ready, role);
        ExcusedIsServed(t, provider, Tr(), accepted, ready, role, r + 1);
        return true;
      }
      stop := RoundOver(provider, ready, ids, role, r);
    }

    /** One round over everything open in a frontier but what must not reach the provider. */
    method RoundOver(provider: Provider, ready: seq<Name>, ids: seq<Name>, role: Role, ghost r: nat)
      returns (stop: bool)
      requires Valid() && Frontier(ready) && Frontier(ids) && ids != []
      requires forall n :: n in ids ==> n in ready && n !in accepted && n !in prior.accepted
      requires forall n :: n in ready && n !in accepted && n !in ids ==> KeptFrom(provider, n)
      requires AllExportable(t, ids) || (provider.placement.Local? && AllPrivate(t, ids))
      requires AllServed(t, provider, Tr(), accepted, ready, role, r)
      modifies this`accepted, this`receipts, this`station, this`stored, this`failures, this`windows, this`grants,
        this`calls, this`remoteBytes, this`expertCalls, this`sent, this`answers, this`refused, this`proposals, cache
      ensures Valid() && Frontier(ready) && OnlyAdds(old(accepted), accepted, ready)
      ensures CallsBounded(old(calls), calls, old(accepted), ready, 1)
      ensures Later(old(Tr()), Tr()) && AllServed(t, provider, Tr(), accepted, ready, role, r + 1)
      ensures Batches(old(Tr()), Tr(), role, 1, |ready| == 1)
      ensures stop ==> AllExcused(t, provider, Tr(), accepted, ready, role)
    {
      ghost var before := accepted;
      stop := Round(provider, ids, role);
      JudgeableGrows(t, reg, before, accepted, ready);
      RoundServes(t, provider, old(Tr()), Tr(), before, accepted, ready, ids, role, stop, r);
      OneMoreAppearance(old(calls), calls, ids);
      OneBatch(old(Tr()), Tr(), ids, role, ready);
    }

    /** `_work`: up to `rounds` requests for whatever is still open, and no fewer without an excuse. */
    method Work(provider: Provider, ready: seq<Name>, role: Role, rounds: nat)
      requires Valid() && Frontier(ready)
      requires forall n :: n in ready && n in prior.accepted ==> n in accepted
      requires provider.placement.Local? ==> AllExportable(t, ready) || AllPrivate(t, ready)
      modifies this`accepted, this`receipts, this`station, this`stored, this`failures, this`windows, this`grants,
        this`calls, this`remoteBytes, this`expertCalls, this`sent, this`answers, this`refused, this`proposals, cache
      ensures Valid() && Frontier(ready) && OnlyAdds(old(accepted), accepted, ready)
      ensures CallsBounded(old(calls), calls, old(accepted), ready, rounds)
      ensures Later(old(Tr()), Tr()) && AllServed(t, provider, Tr(), accepted, ready, role, rounds)
      ensures Batches(old(Tr()), Tr(), role, rounds, |ready| == 1)
    {
      for r := 0 to rounds
        invariant Valid() && Frontier(ready) && OnlyAdds(old(accepted), accepted, ready)
        invariant CallsBounded(old(calls), calls, old(accepted), ready, r)
        invariant Later(old(Tr()), Tr()) && AllServed(t, provider, Tr(), accepted, ready, role, r)
        invariant Batches(old(Tr()), Tr(), role, r, |ready| == 1)
      {
        ghost var before, settled, tr := calls, accepted, Tr();
        var stop := WorkOnce(provider, ready, role, r);
        BoundsAdd(old(calls), before, calls, old(accepted), settled, ready, r, 1);
        LaterTwice(old(Tr()), tr, Tr());
        BatchesJoin(old(Tr()), tr, Tr(), role, r, 1, |ready| == 1);
        if stop {
          ExcusedIsServed(t, provider, Tr(), accepted, ready, role, rounds);
          return;
        }
      }
    }

    /** Each group is a boundary of its own. */
    method WorkOneByOne(provider: Provider, ready: seq<Name>, role: Role, rounds: nat)
      requires Valid() && Frontier(ready)
      requires forall n :: n in ready && n in prior.accepted ==> n in accepted
      modifies this`accepted, this`receipts, this`station, this`stored, this`failures, this`windows, this`grants,
        this`calls, this`remoteBytes, this`expertCalls, this`sent, this`answers, this`refused, this`proposals, cache
      ensures Valid() && Frontier(ready) && OnlyAdds(old(accepted), accepted, ready)
      ensures CallsBounded(old(calls), calls, old(accepted), ready, rounds)
      ensures Later(old(Tr()), Tr()) && AllServed(t, provider, Tr(), accepted, ready, role, rounds)
      ensures Batches(old(Tr()), Tr(), role, |ready| * rounds, true)
    {
      for i := 0 to |ready|
        invariant Valid() && Frontier(ready) && OnlyAdds(old(accepted), accepted, ready[..i])
        invariant CallsBounded(old(calls), calls, old(accepted), ready[..i], rounds)
        invariant Later(old(Tr()), Tr()) && AllServed(t, provider, Tr(), accepted, ready[..i], role, rounds)
        invariant Batches(old(Tr()), Tr(), role, i * rounds, true)
      {
        WorkOnNext(provider, ready, role, rounds, i, old(calls), old(accepted), old(Tr()));
      }
      assert ready[..|ready|] == ready;
    }

    method WorkOnNext(provider: Provider, ready: seq<Name>, role: Role, rounds: nat, i: nat,
        ghost calls0: seq<Call>, ghost accepted0: map<Name, Json>, ghost traffic0: Traffic)
      requires Valid() && Frontier(ready) && i < |ready|
      requires forall n :: n in ready && n in prior.accepted ==> n in accepted
      requires OnlyAdds(accepted0, accepted, ready[..i]) && CallsBounded(calls0, calls, accepted0, ready[..i], rounds)
      requires Later(traffic0, Tr()) && AllServed(t, provider, Tr(), accepted, ready[..i], role, rounds)
      requires Batches(traffic0, Tr(), role, i * rounds, true)
      modifies this`accepted, this`receipts, this`station, this`stored, this`failures, this`windows, this`grants,
        this`calls, this`remoteBytes, this`expertCalls, this`sent, this`answers, this`refused, this`proposals, cache
      ensures Valid() && Frontier(ready) && OnlyAdds(accepted0, accepted, ready[..i + 1])
      ensures CallsBounded(calls0, calls, accepted0, ready[..i + 1], rounds)
      ensures Later(traffic0, Tr()) && AllServed(t, provider, Tr(), accepted, ready[..i + 1], role, rounds)
      ensures Batches(traffic0, Tr(), role, (i + 1) * rounds, true)
    {
      assert ready[..i + 1] == ready[..i] + [ready[i]];
      ghost var before, settled, tr := calls, accepted, Tr();
      assert ready[i] in ready;
      WorkAlone(provider, ready[i], role, rounds);
      JudgeableGrows(t, reg, settled, accepted, ready);
      BoundsExtend(calls0, before, calls, accepted0, settled, ready, i, rounds);
      LaterTwice(traffic0, tr, Tr());
      BatchesJoin(traffic0, tr, Tr(), role, i * rounds, rounds, true);
      LaterAllServed(t, provider, tr, Tr(), settled, accepted, ready[..i], role, rounds);
      ServedBoth(t, provider, Tr(), accepted, ready[..i], [ready[i]], ready[..i + 1], role, rounds);
    }

    method WorkAlone(provider: Provider, n: Name, role: Role, rounds: nat)
      requires Valid() && JudgeableAt(t, reg, accepted, n) && (n in prior.accepted ==> n in accepted)
      modifies this`accepted, this`receipts, this`station, this`stored, this`failures, this`windows, this`grants,
        this`calls, this`remoteBytes, this`expertCalls, this`sent, this`answers, this`refused, this`proposals, cache
      ensures Valid() && OnlyAdds(old(accepted), accepted, [n])
      ensures CallsBounded(old(calls), calls, old(accepted), [n], rounds)
      ensures Later(old(Tr()), Tr()) && AllServed(t, provider, Tr(), accepted, [n], role, rounds)
      ensures Batches(old(Tr()), Tr(), role, rounds, true)
    {
      Work(provider, [n], role, rounds);
    }

    /**
     * `_dispatch`: a local provider never sees private and exportable obligations together. The groups of a compiled
     * task are asked for one by one, and everything else in one batch for each round.
     */
    method Dispatch(provider: Provider, ready: seq<Name>, role: Role, rounds: nat)
      requires Valid() && Frontier(ready)
      requires forall n :: n in ready && n in prior.accepted ==> n in accepted
      modifies this`accepted, this`receipts, this`station, this`stored, this`failures, this`windows, this`grants,
        this`calls, this`remoteBytes, this`expertCalls, this`sent, this`answers, this`refused, this`proposals, cache
      ensures Valid() && Frontier(ready) && OnlyAdds(old(accepted), accepted, ready)
      ensures CallsBounded(old(calls), calls, old(accepted), ready, rounds)
      ensures Later(old(Tr()), Tr()) && AllServed(t, provider, Tr(), accepted, ready, role, rounds)
      ensures Batches(old(Tr()), Tr(), role,
                if grouped then |ready| * rounds else if provider.placement.Remote? then rounds else 2 * rounds,
                grouped)
    {
      if grouped {
        WorkOneByOne(provider, ready, role, rounds);
      } else if provider.placement.Remote? {
        Work(provider, ready, role, rounds);
      } else {
        WorkSeparately(provider, ready, role, rounds);
      }
    }

    method WorkSeparately(provider: Provider, ready: seq<Name>, role: Role, rounds: nat)
      requires Valid() && Frontier(ready)
      requires forall n :: n in ready && n in prior.accepted ==> n in accepted
      modifies this`accepted, this`receipts, this`station, this`stored, this`failures, this`windows, this`grants,
        this`calls, this`remoteBytes, this`expertCalls, this`sent, this`answers, this`refused, this`proposals, cache
      ensures Valid() && Frontier(ready) && OnlyAdds(old(accepted), accepted, ready)
      ensures CallsBounded(old(calls), calls, old(accepted), ready, rounds)
      ensures Later(old(Tr()), Tr()) && AllServed(t, provider, Tr(), accepted, ready, role, rounds)
      ensures Batches(old(Tr()), Tr(), role, 2 * rounds, false)
    {
      var allowed := set n | n in ready && n in t.obligations && CloudAllowed(t, n);
      var public, private := Select(ready, allowed, true), Select(ready, allowed, false);
      assert AllExportable(t, public) && AllPrivate(t, private);
      Work(provider, public, role, rounds);
      ghost var settled, tr, before := accepted, Tr(), calls;
      Work(provider, private, role, rounds);
      BoundsSplit(old(calls), before, calls, old(accepted), settled, public, private, ready, rounds);
      LaterTwice(old(Tr()), tr, Tr());
      BatchesJoin(old(Tr()), tr, Tr(), role, rounds, rounds, false);
      LaterAllServed(t, provider, tr, Tr(), settled, accepted, public, role, rounds);
      ServedBoth(t, provider, Tr(), accepted, public, private, ready, role, rounds);
    }

    // -------------------------------------------------------------- the run

    /** Not accepted, not tried, and everything it depends on accepted. */
    function ReadySet(tried: set<Name>): set<Name>
      reads this`accepted
    {
      set n | n in t.obligations && n !in accepted && n !in tried
        && forall d :: d in t.obligations[n].dependsOn ==> d in accepted
    }

    method NextFrontier(tried: set<Name>) returns (ready: seq<Name>)
      requires Tasks.Accepted(t) && Registered(t, reg)
      ensures Frontier(ready) && ToSet(ready) == ReadySet(tried)
    {
      ready := Select(t.order, ReadySet(tried), true);
      assert forall n :: n in t.order <==> n in ToSet(t.order);
      forall n | n in ReadySet(tried) ensures t.obligations[n].id == n {
        assert WellFormedObligation(t, n, t.obligations[n]);
      }
    }

    /** One frontier: cache and solvers first, then the local provider, then the expert. */
    method ServeFrontier(ready: seq<Name>)
      requires Valid() && Frontier(ready) && solved !! prior.accepted.Keys && forall n :: n in ready ==> n !in accepted
      modifies this, cache
      ensures Valid() && solved !! prior.accepted.Keys && OnlyAdds(old(accepted), accepted, ready)
      ensures settled == old(settled) + ToSet(ready)
      ensures forall n :: n in ready && n in prior.accepted ==> n in accepted
      ensures CallsBounded(old(calls), calls, prior.accepted, ready, limits.localRounds + limits.expertRounds)
      ensures Later(old(Tr()), Tr()) && AllAttended(t, Staff(), Tr(), accepted, ToSet(ready))
      ensures LocalFirst(old(Tr()), Tr())
    {
      SettleReady(ready);
      ghost var settledNow := accepted;
      assert calls == old(calls) && Tr() == old(Tr());
      AskBoth(ready);
      AddsTwice(old(accepted), settledNow, accepted, ready);
    }

    method SettleReady(ready: seq<Name>)
      requires Valid() && Frontier(ready) && solved !! prior.accepted.Keys && forall n :: n in ready ==> n !in accepted
      modifies this`accepted, this`receipts, this`station, this`stored, this`failures, this`cacheHits,
        this`deterministic, this`solved, this`settled, cache
      ensures Valid() && Frontier(ready) && solved !! prior.accepted.Keys && settled == old(settled) + ToSet(ready)
      ensures OnlyAdds(old(accepted), accepted, ready)
      ensures forall n :: n in ready && n in prior.accepted ==> n in accepted
    {
      Parts();
      SettleAll(ready);
      Whole();
    }

    /** The providers that the mode serves. */
    function Staff(): Crew {
      Crew(if mode.FullCloud? then None else local, if mode.LocalOnly? then None else expert,
        limits.localRounds, limits.expertRounds)
    }

    method AskBoth(ready: seq<Name>)
      requires Valid() && Frontier(ready) && forall n :: n in ready && n in prior.accepted ==> n in accepted
      modifies this`accepted, this`receipts, this`station, this`stored, this`failures, this`windows, this`grants,
        this`calls, this`remoteBytes, this`expertCalls, this`sent, this`answers, this`refused, this`proposals, cache
      ensures Valid() && OnlyAdds(old(accepted), accepted, ready)
      ensures CallsBounded(old(calls), calls, prior.accepted, ready, limits.localRounds + limits.expertRounds)
      ensures Later(old(Tr()), Tr()) && AllAttended(t, Staff(), Tr(), accepted, ToSet(ready))
      ensures LocalFirst(old(Tr()), Tr())
    {
      AskLocal(ready);
      ghost var tr, settled := Tr(), accepted;
      AskExpert(ready, old(calls));
      LaterTwice(old(Tr()), tr, Tr());
      LocalThenExpert(old(Tr()), tr, Tr());
      if Staff().local.Some? {
        LaterAllServed(t, local.value, tr, Tr(), settled, accepted, ready, LocalRole, limits.localRounds);
      }
      ServedIsAttended(t, Staff(), Tr(), accepted, ready);
    }

    method AskLocal(ready: seq<Name>)
      requires Valid() && Frontier(ready) && forall n :: n in ready && n in prior.accepted ==> n in accepted
      modifies this`accepted, this`receipts, this`station, this`stored, this`failures, this`windows, this`grants,
        this`calls, this`remoteBytes, this`expertCalls, this`sent, this`answers, this`refused, this`proposals, cache
      ensures Valid() && Frontier(ready) && OnlyAdds(old(accepted), accepted, ready)
      ensures CallsBounded(old(calls), calls, prior.accepted, ready, limits.localRounds)
      ensures Later(old(Tr()), Tr()) && AllInRole(old(Tr()), Tr(), LocalRole)
      ensures Staff().local.Some? ==> AllServed(t, local.value, Tr(), accepted, ready, LocalRole, limits.localRounds)
    {
      if !mode.FullCloud? && local.Some? {
        Dispatch(local.value, ready, LocalRole, limits.localRounds);
      }
    }

    method AskExpert(ready: seq<Name>, ghost before: seq<Call>)
      requires Valid() && Frontier(ready) && forall n :: n in ready && n in prior.accepted ==> n in accepted
      requires CallsBounded(before, calls, prior.accepted, ready, limits.localRounds)
      modifies this`accepted, this`receipts, this`station, this`stored, this`failures, this`windows, this`grants,
        this`calls, this`remoteBytes, this`expertCalls, this`sent, this`answers, this`refused, this`proposals, cache
      ensures Valid() && OnlyAdds(old(accepted), accepted, ready)
      ensures CallsBounded(before, calls, prior.accepted, ready, limits.localRounds + limits.expertRounds)
      ensures Later(old(Tr()), Tr()) && AllInRole(old(Tr()), Tr(), ExpertRole)
      ensures Staff().expert.Some? ==>
        AllServed(t, expert.value, Tr(), accepted, ready, ExpertRole, limits.expertRounds)
    {
      if !mode.LocalOnly? && expert.Some? {
        Dispatch(expert.value, ready, ExpertRole, limits.expertRounds);
        BoundsAdd(before, old(calls), calls, prior.accepted, old(accepted), ready,
          limits.localRounds, limits.expertRounds);
      }
    }

    /** Everything tried has been settled and has used at most its rounds; what was blocked at first is not accepted. */
    ghost predicate Progress(tried: set<Name>)
      requires Tasks.Accepted(t)
      reads this`accepted, this`calls, this`solved, this`settled, this`answers, this`refused
    {
      && blocked <= tried <= t.obligations.Keys && solved !! prior.accepted.Keys
      && tried - blocked <= settled && accepted.Keys !! blocked
      && AllAttended(t, Staff(), Tr(), accepted, tried - blocked)
      && RoundsUsed(prior.accepted, accepted, calls, tried, limits.localRounds + limits.expertRounds)
    }

    /** Nothing more can be done for an obligation that is not accepted. */
    ghost predicate AtFixpoint()
      requires Tasks.Accepted(t)
      reads this`accepted, this`receipts, this`station, this`calls, this`answers, this`refused, cache
    {
      forall n :: n in t.obligations && n !in accepted ==>
        || n in blocked
        || (exists d :: d in t.obligations[n].dependsOn && d !in accepted)
        || (SettledAt(t, reg, caching, Solving(), Bk(), cache.rows, n) && AttendedAt(t, Staff(), Tr(), n))
    }

    /**
     * The run: serve one frontier after the other until none is left. It ends with verified books in which nothing more
     * can be tried: an obligation that is not accepted was blocked, or waits for one that is not accepted, or has
     * neither a passing value in the cache nor one from its solver and has used its rounds with every provider that may
     * serve it. Every accepted value has its source, and what an earlier run accepted is accepted again.
     */
    method Run() returns (tried: set<Name>)
      requires Valid() && accepted == map[] && calls == [] && solved == {}
      requires blocked <= t.obligations.Keys && blocked !! prior.accepted.Keys
      modifies this, cache
      ensures Valid() && Progress(tried) && AtFixpoint()
      ensures forall n :: n in accepted ==> Traced(n)
      ensures forall n :: n in prior.accepted ==> SameAt(prior, Bk(), n)
    {
      FailBlocked();
      tried := ServeAll();
      WhereFrom();
      Parts();
      EverythingRepeats(tried);
    }

    /** Serves one frontier after the other until none is left. */
    method ServeAll() returns (tried: set<Name>)
      requires Valid() && accepted == map[] && calls == [] && solved == {}
      requires blocked <= t.obligations.Keys && blocked !! prior.accepted.Keys
      modifies this, cache
      ensures Valid() && Progress(tried) && ReadySet(tried) == {}
    {
      tried := blocked;
      var ready := NextFrontier(tried);
      while ready != []
        invariant Valid() && Progress(tried) && Frontier(ready) && ToSet(ready) == ReadySet(tried)
        decreases t.obligations.Keys - tried
      {
        tried := ServeNext(tried, ready);
        ready := NextFrontier(tried);
      }
    }

    method FailBlocked()
      requires Valid() && blocked <= t.obligations.Keys && blocked !! accepted.Keys
      modifies this`failures
      ensures Valid() && failures == Marked(old(failures), Select(t.order, blocked, true), "structural_unsat")
    {
      Parts();
      FailAll(Select(t.order, blocked, true), "structural_unsat");
      Whole();
    }

    method ServeNext(tried: set<Name>, ready: seq<Name>) returns (more: set<Name>)
      requires Valid() && Progress(tried) && Frontier(ready) && ready != [] && ToSet(ready) == ReadySet(tried)
      modifies this, cache
      ensures Valid() && Progress(more) && more == tried + ToSet(ready) && tried < more
    {
      assert ready[0] in ToSet(ready);
      assert forall n :: n in ready ==> n in ToSet(ready);
      ServeFrontier(ready);
      more := tried + ToSet(ready);
      AttendedGoesOn(t, Staff(), old(Tr()), Tr(), old(accepted), accepted,
        tried - blocked, ToSet(ready), more - blocked);
      RoundsGoOn(prior.accepted, old(accepted), accepted, old(calls), calls, tried, ready,
        limits.localRounds + limits.expertRounds);
    }

    /** At the fixpoint, everything the earlier run accepted has been accepted again, with its old receipts. */
    lemma EverythingRepeats(tried: set<Name>)
      requires ValidBooks() && Progress(tried) && ReadySet(tried) == {}
      ensures AtFixpoint()
      ensures forall n :: n in prior.accepted ==> SameAt(prior, Bk(), n)
    {
      Pages();
      forall n | n in t.obligations && n !in accepted
        ensures || n in blocked
                || (exists d :: d in t.obligations[n].dependsOn && d !in accepted)
                || (SettledAt(t, reg, caching, Solving(), Bk(), cache.rows, n) && AttendedAt(t, Staff(), Tr(), n))
      {
        assert n !in ReadySet(tried);
      }
      forall n | n in prior.accepted ensures SameAt(prior, Bk(), n) {
        assert KeptAt(t, reg, prior, n);
        RepeatsAt(tried, n);
      }
    }

    /**
     * The value accepted for an obligation was offered by the cache as it was before the run, computed by the solver of
     * the obligation, or proposed for it in the documented answer to a packet that was sent.
     */
    ghost predicate Traced(n: Name)
      requires Tasks.Accepted(t) && Registered(t, reg) && n in accepted
      reads this`accepted, this`receipts, this`station, this`sent, this`answers
    {
      && n in t.obligations
      && (|| (caching && Offered(t, reg, t.obligations[n], Bk(), rowsAtFirst) == Some(accepted[n]))
          || (Solving() && Solution(t, reg, Bk(), n) == Some(accepted[n]))
          || Proposed(sent, answers, (n, accepted[n])))
    }

    lemma WhereFrom()
      requires Valid()
      ensures forall n :: n in accepted ==> Traced(n)
    {
      Parts();
      Pages();
      forall n | n in accepted ensures Traced(n) {
        assert SourcedAt(t, reg, AtFirst(), Bk(), proposals, n);
      }
    }

    lemma {:induction false} RepeatsAt(tried: set<Name>, n: Name)
      requires ValidBooks() && Progress(tried) && ReadySet(tried) == {} && n in prior.accepted && n in t.obligations
      ensures n in accepted
      decreases RankOf(Deps(t))[n]
    {
      Pages();
      assert KeptAt(t, reg, prior, n);
      forall d | d in t.obligations[n].dependsOn ensures d in accepted {
        assert WellFormedObligation(t, n, t.obligations[n]) && d in ToSet(t.obligations[n].dependsOn);
        assert d in Deps(t)[n];
        RepeatsAt(tried, d);
      }
      assert n !in ReadySet(tried);
    }
  }

  /** Growing books do not change what a check says of an obligation whose dependencies they already had. */
  lemma SameVerdict(t: Task, reg: Registry, a: Books, b: Books, n: Name, v: Json)
    requires JudgeableAt(t, reg, a.accepted, n) && Grows(a.accepted, b.accepted)
    ensures VerdictOn(t, reg, a, n, v) == VerdictOn(t, reg, b, n, v)
  {
    assert ContextOf(t, t.obligations[n], a.accepted) == ContextOf(t, t.obligations[n], b.accepted);
  }

  /** What stands for the answer to a call that has not come back. */
  const PENDING := Failure("pending")

  /** The values proposed in a reply that is the documented object. */
  ghost function Updates(reply: Reply, ids: seq<Name>): set<(Name, Json)> {
    if reply.Answer? && !reply.truncated && reply.body.Some? && WellFormedBody(reply.body.value, ids)
    then set u | u in reply.body.value.updates else {}
  }

  /** The proposals of a documented reply were judged one by one; anything else that comes back changes nothing. */
  ghost predicate TakenIn(
      t: Task, reg: Registry, b: Books, accepted: map<Name, Json>, ids: seq<Name>, reply: Reply) {
    if reply.Answer? && !reply.truncated && reply.body.Some? && WellFormedBody(reply.body.value, ids)
    then JudgedUpTo(t, reg, b, accepted, reply.body.value.updates, |reply.body.value.updates|)
    else accepted == b.accepted
  }

  /** One call for `ids` has been added to the traffic, with what came back for it. */
  ghost predicate Added(a: Traffic, b: Traffic, ids: seq<Name>, role: Role, reply: Reply) {
    && |a.calls| == |a.answers| && b.refused == a.refused && b.answers == a.answers + [reply]
    && |b.calls| == |a.calls| + 1 && b.calls[..|a.calls|] == a.calls
    && b.calls[|a.calls|].ids == ids && b.calls[|a.calls|].role == role
  }

  /** No call has been added, but a refusal. */
  ghost predicate Spared(a: Traffic, b: Traffic, ids: seq<Name>, role: Role) {
    && b.calls == a.calls && b.answers == a.answers
    && |b.refused| == |a.refused| + 1 && a.refused <= b.refused
    && b.refused[|a.refused|].ids == ids && b.refused[|a.refused|].role == role
  }

  lemma CameBack(a: Traffic, b: Traffic, ids: seq<Name>, role: Role, stop: bool, reply: Reply)
    requires Added(a, b, ids, role, reply) && (stop <==> Abstains(reply))
    ensures Requested(a, b, ids, role, stop)
  {
    if stop {
      forall n | n in ids
        ensures Declined(b, n, role)
      {
        assert DeclinedAt(b, n, role, |a.calls|);
      }
    }
  }

  lemma MetALimit(a: Traffic, b: Traffic, ids: seq<Name>, role: Role)
    requires Spared(a, b, ids, role)
    ensures Requested(a, b, ids, role, true)
  {
    assert forall n :: n in ids ==> Limited(b, n, role);
  }

  /** The proposal passes the check of its obligation in the given books. */
  ghost predicate Convincing(t: Task, reg: Registry, b: Books, update: (Name, Json)) {
    && update.0 in t.obligations && t.obligations[update.0].check in reg.checks
    && VerdictOn(t, reg, b, update.0, update.1).Pass?
  }

  /** Of the first `k` proposals exactly those that pass in the books at first are accepted, and nothing else is new. */
  ghost predicate JudgedUpTo(
      t: Task, reg: Registry, b: Books, accepted: map<Name, Json>, updates: seq<(Name, Json)>, k: nat) {
    && k <= |updates| && Grows(b.accepted, accepted)
    && (forall i :: 0 <= i < k ==> (updates[i].0 in accepted <==> Convincing(t, reg, b, updates[i])))
    && (forall i :: 0 <= i < k && updates[i].0 in accepted ==> accepted[updates[i].0] == updates[i].1)
    && (forall i :: k <= i < |updates| ==> updates[i].0 !in accepted)
    && (forall n :: n in accepted && n !in b.accepted ==> exists i :: 0 <= i < k && updates[i].0 == n)
  }

  lemma JudgedOneMore(t: Task, reg: Registry, b: Books, before: map<Name, Json>, after: map<Name, Json>,
      updates: seq<(Name, Json)>, ids: seq<Name>, k: nat)
    requires k < |updates| && JudgedUpTo(t, reg, b, before, updates, k) && JudgeableAt(t, reg, b.accepted, updates[k].0)
    requires forall i, j :: 0 <= i < j < |updates| ==> updates[i].0 != updates[j].0
    requires Judgeable(t, reg, before, ids)
    requires after ==
      if VerdictOn(t, reg, Books(before, map[], map[]), updates[k].0, updates[k].1).Pass?
      then before[updates[k].0 := updates[k].1] else before
    ensures JudgedUpTo(t, reg, b, after, updates, k + 1) && Judgeable(t, reg, after, ids)
  {
    SameVerdict(t, reg, b, Books(before, map[], map[]), updates[k].0, updates[k].1);
    JudgeableGrows(t, reg, before, after, ids);
    forall n | n in after && n !in b.accepted
      ensures exists i :: 0 <= i < k + 1 && updates[i].0 == n
    {
      if n in before {
        var i :| 0 <= i < k && updates[i].0 == n;
      } else {
        assert updates[k].0 == n;
      }
    }
  }

  /**
   * From `before` to `after`, obligations of `ready` outside `settled` appear in at most `rounds` more calls, others in
   * none.
   */
  ghost predicate CallsBounded(
      before: seq<Call>, after: seq<Call>, settled: map<Name, Json>, ready: seq<Name>, rounds: nat) {
    forall n {:trigger Appearances(after, n)} ::
      Appearances(after, n) <= Appearances(before, n) + if n in ready && n !in settled then rounds else 0
  }

  /**
   * Of what has been tried, everything an earlier run accepted is accepted again without appearing in
   * any call, and everything else appears in at most `rounds` calls.
   */
  ghost predicate RoundsUsed(
      prior: map<Name, Json>, accepted: map<Name, Json>, calls: seq<Call>, tried: set<Name>, rounds: nat) {
    && (forall n :: n in tried && n in prior ==> n in accepted)
    && (forall n {:trigger Appearances(calls, n)} ::
          Appearances(calls, n) <= if n in tried && n !in prior then rounds else 0)
  }

  lemma RoundsGoOn(prior: map<Name, Json>, before: map<Name, Json>, after: map<Name, Json>,
      calls: seq<Call>, more: seq<Call>, tried: set<Name>, ready: seq<Name>, rounds: nat)
    requires RoundsUsed(prior, before, calls, tried, rounds) && Grows(before, after)
    requires CallsBounded(calls, more, prior, ready, rounds)
    requires ToSet(ready) !! tried && forall n :: n in ready && n in prior ==> n in after
    ensures RoundsUsed(prior, after, more, tried + ToSet(ready), rounds)
  {
    forall n ensures Appearances(more, n) <= if n in tried + ToSet(ready) && n !in prior then rounds else 0 {
      assert Appearances(calls, n) <= if n in tried && n !in prior then rounds else 0;
      assert n in ready <==> n in ToSet(ready);
    }
  }

  lemma AddsTwice(a: map<Name, Json>, b: map<Name, Json>, c: map<Name, Json>, ready: seq<Name>)
    requires OnlyAdds(a, b, ready) && OnlyAdds(b, c, ready)
    ensures OnlyAdds(a, c, ready)
  {
  }

  lemma BoundsAdd(x: seq<Call>, y: seq<Call>, z: seq<Call>,
      settled: map<Name, Json>, later: map<Name, Json>, ready: seq<Name>, a: nat, b: nat)
    requires CallsBounded(x, y, settled, ready, a) && CallsBounded(y, z, later, ready, b)
    requires forall n :: n in ready && n in settled ==> n in later
    ensures CallsBounded(x, z, settled, ready, a + b)
  {
    forall n ensures Appearances(z, n) <= Appearances(x, n) + if n in ready && n !in settled then a + b else 0 {
      assert Appearances(y, n) <= Appearances(x, n) + if n in ready && n !in settled then a else 0;
    }
  }

  lemma BoundsSplit(x: seq<Call>, y: seq<Call>, z: seq<Call>, settled: map<Name, Json>, later: map<Name, Json>,
      one: seq<Name>, other: seq<Name>, ready: seq<Name>, k: nat)
    requires CallsBounded(x, y, settled, one, k) && CallsBounded(y, z, later, other, k) && Grows(settled, later)
    requires forall n :: n in one ==> n in ready && n !in other
    requires forall n :: n in other ==> n in ready
    ensures CallsBounded(x, z, settled, ready, k)
  {
    forall n ensures Appearances(z, n) <= Appearances(x, n) + if n in ready && n !in settled then k else 0 {
      assert Appearances(y, n) <= Appearances(x, n) + if n in one && n !in settled then k else 0;
    }
  }

  lemma BoundsExtend(x: seq<Call>, y: seq<Call>, z: seq<Call>,
      settled: map<Name, Json>, later: map<Name, Json>, ready: seq<Name>, i: nat, k: nat)
    requires Distinct(ready) && i < |ready| && Grows(settled, later)
    requires CallsBounded(x, y, settled, ready[..i], k) && CallsBounded(y, z, later, [ready[i]], k)
    ensures CallsBounded(x, z, settled, ready[..i + 1], k)
  {
    assert ready[..i + 1] == ready[..i] + [ready[i]];
    forall n ensures Appearances(z, n) <= Appearances(x, n) + if n in ready[..i + 1] && n !in settled then k else 0 {
      assert Appearances(y, n) <= Appearances(x, n) + if n in ready[..i] && n !in settled then k else 0;
    }
  }

  lemma OneMoreAppearance(before: seq<Call>, after: seq<Call>, ids: seq<Name>)
    requires after == before || (|after| == |before| + 1 && after[..|before|] == before && after[|before|].ids == ids)
    ensures forall n :: Appearances(after, n) <= Appearances(before, n) + if n in ids then 1 else 0
  {
    if after != before {
      assert after == before + [after[|before|]];
      CallAdded(before, after[|before|]);
    }
  }

  predicate Exportable(t: Task, ids: seq<Name>)
    requires Tasks.Accepted(t)
  {
    forall n :: n in ids && n in t.obligations ==> CloudAllowed(t, n)
  }

  /** The dependency values a packet carries; only exportable ones where it must be public. */
  function Visible(t: Task, accepted: map<Name, Json>, deps: set<Name>, public: bool): map<Name, Json>
    requires Tasks.Accepted(t) && accepted.Keys <= t.obligations.Keys
  {
    map d | d in deps && d in accepted && (public ==> CloudAllowed(t, d)) :: accepted[d]
  }

  lemma BatchIsDiscreet(t: Task, s: Sent, accepted: map<Name, Json>, deps: set<Name>, public: bool)
    requires Tasks.Accepted(t) && accepted.Keys <= t.obligations.Keys
    requires public == (s.provider.placement.Remote? || Exportable(t, s.packet.ids))
    requires AllExportable(t, s.packet.ids) || (s.provider.placement.Local? && AllPrivate(t, s.packet.ids))
    requires s.packet.manifest <= t.artifacts.Keys
    requires public ==> forall a :: a in s.packet.manifest ==> t.artifacts[a].cloud
    requires s.packet.evidence.Keys == s.packet.manifest || s.packet.evidence.Keys == Needed(t, s.packet.ids)
    requires s.packet.dependencies == Visible(t, accepted, deps, public)
    ensures Discreet(t, s)
  {
    if AllExportable(t, s.packet.ids) {
      assert public;
      NeededIsPublic(t, s.packet.ids);
    }
  }

  predicate InlineMode(mode: Mode) {
    mode.Residual? || mode.NoFeedback? || mode.NoSolvers? || mode.Grouped? || mode.Cic?
  }

  function Needed(t: Task, ids: seq<Name>): set<Name> {
    set n, a | n in ids && n in t.obligations && a in t.obligations[n].evidence :: a
  }

  function NeededDeps(t: Task, ids: seq<Name>): set<Name> {
    set n, d | n in ids && n in t.obligations && d in t.obligations[n].dependsOn :: d
  }

  lemma NeededInside(t: Task, ids: seq<Name>)
    requires WellFormed(t)
    ensures Needed(t, ids) <= t.artifacts.Keys
    ensures forall a :: a in t.artifacts ==> LineCount(t, a) >= 1
  {
    forall a | a in Needed(t, ids) ensures a in t.artifacts {
      var n :| n in ids && n in t.obligations && a in t.obligations[n].evidence;
      assert WellFormedObligation(t, n, t.obligations[n]);
      assert a in ToSet(t.obligations[n].evidence);
    }
  }

  /** The evidence of exportable obligations is public even where it is not filtered. */
  lemma NeededIsPublic(t: Task, ids: seq<Name>)
    requires Tasks.Accepted(t) && AllExportable(t, ids)
    ensures forall a :: a in Needed(t, ids) ==> a in t.artifacts && t.artifacts[a].cloud
  {
    forall a | a in Needed(t, ids) ensures a in t.artifacts && t.artifacts[a].cloud {
      var n :| n in ids && n in t.obligations && a in t.obligations[n].evidence;
      assert CloudAllowed(t, n);
    }
  }

  ghost predicate SeededOrGranted(
      windows: map<Key, seq<Span>>, provider: Name, ids: seq<Name>, a: Name, seed: nat, x: int) {
    1 <= x <= seed || exists n :: n in ids && Covers(WindowOf(windows, Key(provider, n, a)), x)
  }

  lemma CoversBoth(s: seq<Span>, u: seq<Span>, x: int)
    ensures Covers(s + u, x) <==> Covers(s, x) || Covers(u, x)
  {
    if Covers(s, x) {
      var i :| 0 <= i < |s| && s[i].start <= x <= s[i].end;
      assert (s + u)[i] == s[i];
    }
    if Covers(u, x) {
      var i :| 0 <= i < |u| && u[i].start <= x <= u[i].end;
      assert (s + u)[|s| + i] == u[i];
    }
  }

  lemma GrantsJoin(windows: map<Key, seq<Span>>, provider: Name, ids: seq<Name>, i: nat, a: Name, seed: nat,
      intervals: seq<Span>, x: int)
    requires i < |ids|
    requires Covers(intervals, x) <==> SeededOrGranted(windows, provider, ids[..i], a, seed, x)
    ensures Covers(intervals + WindowOf(windows, Key(provider, ids[i], a)), x)
      <==> SeededOrGranted(windows, provider, ids[..i + 1], a, seed, x)
  {
    CoversBoth(intervals, WindowOf(windows, Key(provider, ids[i], a)), x);
    assert ids[..i + 1] == ids[..i] + [ids[i]];
    assert forall n :: n in ids[..i + 1] <==> n in ids[..i] || n == ids[i];
  }
}

