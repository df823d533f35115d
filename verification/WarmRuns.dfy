/** Running again over the cache that an earlier run left behind (residual/engine.py). */
module WarmRuns {
  import opened Basics
  import opened Tasks
  import opened Bookkeeping

  ghost predicate SameAt(a: Books, b: Books, n: Name) {
    && n in a.accepted && n in b.accepted && a.accepted[n] == b.accepted[n]
    && n in a.receipts && n in b.receipts && a.receipts[n] == b.receipts[n]
    && (n in a.station <==> n in b.station) && (n in a.station ==> a.station[n] == b.station[n])
  }

  /** Whatever both books have accepted, they have accepted with the same value and the same receipts. */
  ghost predicate Follows(prior: Books, b: Books) {
    forall n {:trigger SameAt(prior, b, n)} :: n in prior.accepted && n in b.accepted ==> SameAt(prior, b, n)
  }

  /** The current books are a repetition in progress of the earlier ones, whose rows the cache still has. */
  ghost predicate Repeats(t: Task, reg: Registry, prior: Books, b: Books, rows: Rows) {
    Kept(t, reg, prior) && Follows(prior, b) && Stocked(t, reg, prior, rows)
  }

  lemma FollowsAgree(t: Task, reg: Registry, prior: Books, b: Books, n: Name)
    requires Kept(t, reg, prior) && Follows(prior, b) && n in prior.accepted && Open(t, reg, b, n)
    ensures AgreeOn(t.obligations[n], prior, b)
  {
    assert KeptAt(t, reg, prior, n);
    forall d | d in t.obligations[n].dependsOn ensures SameAt(prior, b, d) {
    }
  }

  /** An obligation accepted before is offered again with its old value, passes, and gets its old receipts. */
  lemma WarmHit(t: Task, reg: Registry, prior: Books, b: Books, rows: Rows, n: Name)
    requires Kept(t, reg, b) && Repeats(t, reg, prior, b, rows) && n in prior.accepted && Open(t, reg, b, n)
    ensures Offered(t, reg, t.obligations[n], b, rows) == Some(prior.accepted[n])
    ensures VerdictOn(t, reg, b, n, prior.accepted[n]).Pass?
    ensures SameAt(prior, Accept(t, reg, t.obligations[n], b, prior.accepted[n]), n)
  {
    var o := t.obligations[n];
    assert KeptAt(t, reg, prior, n);
    assert StockedAt(t, reg, prior, rows, n);
    FollowsAgree(t, reg, prior, b, n);
    AgreeSameOffer(t, reg, o, prior, b, rows);
    AgreeSameContext(t, o, prior, b);
    AgreeSameBinding(t, reg, o, prior, b);
    assert Accept(t, reg, o, b, prior.accepted[n]).receipts[n] == prior.receipts[n];
    StationKept(t, reg, prior, b, n);
  }

  lemma StationKept(t: Task, reg: Registry, prior: Books, b: Books, n: Name)
    requires KeptAt(t, reg, prior, n) && Kept(t, reg, b) && Open(t, reg, b, n) && AgreeOn(t.obligations[n], prior, b)
    ensures var c := Accept(t, reg, t.obligations[n], b, prior.accepted[n]);
      (n in prior.station <==> n in c.station) && (n in prior.station ==> prior.station[n] == c.station[n])
  {
    AgreeSameBinding(t, reg, t.obligations[n], prior, b);
  }

  /** Accepting keeps the repetition going: from the cache for old obligations, from anywhere for new ones. */
  lemma RepeatGoesOn(t: Task, reg: Registry, prior: Books, b: Books, rows: Rows, n: Name, v: Json, stored: Rows)
    requires WellFormed(t) && Kept(t, reg, b) && Repeats(t, reg, prior, b, rows) && Open(t, reg, b, n)
    requires if n in prior.accepted then v == prior.accepted[n] && stored == rows
      else stored == rows || stored == Put(t, reg, t.obligations[n], b, rows, v)
    ensures Repeats(t, reg, prior, Accept(t, reg, t.obligations[n], b, v), stored)
  {
    var c := Accept(t, reg, t.obligations[n], b, v);
    forall m | m in prior.accepted && m in c.accepted ensures SameAt(prior, c, m) {
      if m == n {
        WarmHit(t, reg, prior, b, rows, n);
      } else {
        assert SameAt(prior, b, m);
      }
    }
    if stored != rows {
      forall m | m in prior.accepted ensures StockedAt(t, reg, prior, stored, m) {
        assert StockedAt(t, reg, prior, rows, m);
        assert WellFormedObligation(t, m, t.obligations[m]) && WellFormedObligation(t, n, t.obligations[n]);
        PutElsewhere(t, reg, t.obligations[m], prior, t.obligations[n], b, rows, v);
      }
    }
  }

  /** Books that are kept, repeat the earlier ones, and are all offered by the cache when there is one. */
  ghost predicate InOrder(t: Task, reg: Registry, prior: Books, b: Books, rows: Rows, caching: bool) {
    && Kept(t, reg, b) && Repeats(t, reg, prior, b, rows)
    && (if caching then Stocked(t, reg, b, rows) else prior.accepted == map[])
  }

  /** Accepting a passing value, from the cache or with a new row in it, leaves everything in order. */
  lemma AcceptLeavesOrder(
      t: Task, reg: Registry, prior: Books, b: Books, rows: Rows, caching: bool, n: Name, v: Json,
      fromCache: bool, stored: Rows)
    requires WellFormed(t) && InOrder(t, reg, prior, b, rows, caching) && Open(t, reg, b, n)
    requires VerdictOn(t, reg, b, n, v).Pass?
    requires fromCache ==> caching && Offered(t, reg, t.obligations[n], b, rows) == Some(v)
    requires n in prior.accepted ==> fromCache
    requires stored == if caching && !fromCache then Put(t, reg, t.obligations[n], b, rows, v) else rows
    ensures InOrder(t, reg, prior, Accept(t, reg, t.obligations[n], b, v), stored, caching)
  {
    if n in prior.accepted {
      WarmHit(t, reg, prior, b, rows, n);
    }
    AcceptKeeps(t, reg, n, b, v);
    RepeatGoesOn(t, reg, prior, b, rows, n, v, stored);
    if caching {
      AcceptKeepsStock(t, reg, n, b, rows, v, stored);
    }
  }

  // ---------------------------------------------------------------- what has been tried without success

  /** The cache offers a value for `n` that passes its check. */
  ghost predicate PassingOffer(t: Task, reg: Registry, b: Books, rows: Rows, n: Name)
    requires n in t.obligations && t.obligations[n].check in reg.checks
  {
    var offer := Offered(t, reg, t.obligations[n], b, rows);
    offer.Some? && VerdictOn(t, reg, b, n, offer.value).Pass?
  }

  /** What the solver of `n` computes over the books. */
  function Solution(t: Task, reg: Registry, b: Books, n: Name): Option<Json> {
    SolvedBy(t, reg, b.accepted, n)
  }

  /** The solver of `n` computes a value that passes its check. */
  ghost predicate PassingSolution(t: Task, reg: Registry, b: Books, n: Name)
    requires n in t.obligations && t.obligations[n].check in reg.checks
  {
    Solution(t, reg, b, n).Some? && VerdictOn(t, reg, b, n, Solution(t, reg, b, n).value).Pass?
  }

  /**
   * `n` is accepted, or everything it depends on is and neither the cache nor its solver has a passing value for it.
   */
  ghost predicate SettledAt(t: Task, reg: Registry, caching: bool, solving: bool, b: Books, rows: Rows, n: Name) {
    || n in b.accepted
    || (&& Open(t, reg, b, n)
        && (caching ==> !PassingOffer(t, reg, b, rows, n))
        && (solving ==> !PassingSolution(t, reg, b, n)))
  }

  ghost predicate AllSettled(
      t: Task, reg: Registry, caching: bool, solving: bool, b: Books, rows: Rows, settled: set<Name>) {
    forall n {:trigger SettledAt(t, reg, caching, solving, b, rows, n)} ::
      n in settled ==> SettledAt(t, reg, caching, solving, b, rows, n)
  }

  /** Accepting one obligation gives no other one that was tried a new value in the cache or from its solver. */
  lemma AcceptKeepsSettledAt(t: Task, reg: Registry, caching: bool, solving: bool, b: Books, rows: Rows,
      m: Name, v: Json, stored: Rows, n: Name)
    requires Kept(t, reg, b) && Open(t, reg, b, m) && SettledAt(t, reg, caching, solving, b, rows, n)
    requires stored == rows || stored == Put(t, reg, t.obligations[m], b, rows, v)
    ensures SettledAt(t, reg, caching, solving, Accept(t, reg, t.obligations[m], b, v), stored, n)
  {
    var o, c := t.obligations[m], Accept(t, reg, t.obligations[m], b, v);
    if n !in b.accepted && n != m {
      var open := t.obligations[n];
      AcceptAgrees(t, reg, o, b, v, open);
      AgreeSameContext(t, open, b, c);
      AgreeSameOffer(t, reg, open, b, c, stored);
      if stored != rows {
        PutElsewhere(t, reg, open, b, o, b, rows, v);
      }
    }
  }

  lemma AcceptKeepsSettled(t: Task, reg: Registry, caching: bool, solving: bool, b: Books, rows: Rows,
      m: Name, v: Json, stored: Rows, settled: set<Name>)
    requires Kept(t, reg, b) && Open(t, reg, b, m) && AllSettled(t, reg, caching, solving, b, rows, settled)
    requires stored == rows || stored == Put(t, reg, t.obligations[m], b, rows, v)
    ensures AllSettled(t, reg, caching, solving, Accept(t, reg, t.obligations[m], b, v), stored, settled)
  {
    forall n | n in settled
      ensures SettledAt(t, reg, caching, solving, Accept(t, reg, t.obligations[m], b, v), stored, n)
    {
      assert SettledAt(t, reg, caching, solving, b, rows, n);
      AcceptKeepsSettledAt(t, reg, caching, solving, b, rows, m, v, stored, n);
    }
  }
}
