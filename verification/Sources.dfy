/** Where the values that a run accepts come from (residual/engine.py). */
module Sources {
  import opened Basics
  import opened Tasks
  import opened Bookkeeping
  import opened WarmRuns

  /** How a run begins: whether it uses a cache and solvers, and what the cache holds. */
  datatype Outset = Outset(caching: bool, solving: bool, rows: Rows)

  /** The values that providers have proposed so far, each for its obligation. */
  type Proposals = set<(Name, Json)>

  /** For whom, and in which books, a row was stored under a key. */
  datatype Stored = Stored(name: Name, books: Books)

  /** The value comes from the cache as it was at the outset, from the solver, or from a provider's proposal. */
  ghost predicate Comes(t: Task, reg: Registry, o: Outset, b: Books, proposals: Proposals, n: Name, v: Json) {
    && n in t.obligations
    && (|| (o.caching && Offered(t, reg, t.obligations[n], b, o.rows) == Some(v))
        || (o.solving && Solution(t, reg, b, n) == Some(v))
        || (n, v) in proposals)
  }

  ghost predicate SourcedAt(t: Task, reg: Registry, o: Outset, b: Books, proposals: Proposals, n: Name) {
    n in b.accepted && Comes(t, reg, o, b, proposals, n, b.accepted[n])
  }

  /** A row that was stored in the run belongs to an accepted obligation. */
  ghost predicate StoredAt(t: Task, reg: Registry, b: Books, stored: map<Hash, Stored>, k: Hash) {
    k in stored ==>
      && stored[k].name in t.obligations && stored[k].name in b.accepted
      && k == CacheKey(t, reg, t.obligations[stored[k].name], stored[k].books)
  }

  /** Every other row is as it was at the outset. */
  ghost predicate KeptRow(before: Rows, rows: Rows, stored: map<Hash, Stored>, k: Hash) {
    k !in stored ==> (k in rows <==> k in before) && (k in rows ==> rows[k] == before[k])
  }

  ghost predicate Sourced(t: Task, reg: Registry, o: Outset, b: Books, rows: Rows,
      stored: map<Hash, Stored>, proposals: Proposals) {
    && (forall n {:trigger SourcedAt(t, reg, o, b, proposals, n)} ::
          n in b.accepted ==> SourcedAt(t, reg, o, b, proposals, n))
    && (forall k {:trigger StoredAt(t, reg, b, stored, k)} :: StoredAt(t, reg, b, stored, k))
    && (forall k {:trigger KeptRow(o.rows, rows, stored, k)} :: KeptRow(o.rows, rows, stored, k))
  }

  lemma NothingSourcedYet(t: Task, reg: Registry, o: Outset, rows: Rows)
    requires o.rows == rows
    ensures Sourced(t, reg, o, Books(map[], map[], map[]), rows, map[], {})
  {
    forall k {:trigger StoredAt(t, reg, Books(map[], map[], map[]), map[], k)}
      ensures StoredAt(t, reg, Books(map[], map[], map[]), map[], k)
    {
    }
    forall k {:trigger KeptRow(o.rows, rows, map[], k)}
      ensures KeptRow(o.rows, rows, map[], k)
    {
    }
  }

  /** What the cache offers for an obligation that is not accepted, it has offered from the outset. */
  lemma OfferedFromTheOutset(t: Task, reg: Registry, o: Outset, b: Books, rows: Rows,
      stored: map<Hash, Stored>, proposals: Proposals, n: Name)
    requires WellFormed(t) && Sourced(t, reg, o, b, rows, stored, proposals) && n in t.obligations && n !in b.accepted
    ensures Offered(t, reg, t.obligations[n], b, rows) == Offered(t, reg, t.obligations[n], b, o.rows)
  {
    var key := CacheKey(t, reg, t.obligations[n], b);
    assert StoredAt(t, reg, b, stored, key) && KeptRow(o.rows, rows, stored, key);
    if key in stored {
      var m := stored[key].name;
      assert WellFormedObligation(t, n, t.obligations[n]) && WellFormedObligation(t, m, t.obligations[m]);
      KeysDiffer(t, reg, t.obligations[n], b, t.obligations[m], stored[key].books);
    }
  }

  /** A value keeps its source when the books grow around it. */
  lemma AcceptKeepsSource(t: Task, reg: Registry, o: Outset, b: Books, proposals: Proposals, m: Name, v: Json, n: Name)
    requires Kept(t, reg, b) && Open(t, reg, b, m)
    requires if n == m then Comes(t, reg, o, b, proposals, n, v) else SourcedAt(t, reg, o, b, proposals, n)
    ensures SourcedAt(t, reg, o, Accept(t, reg, t.obligations[m], b, v), proposals, n)
  {
    var c := Accept(t, reg, t.obligations[m], b, v);
    if n != m {
      assert KeptAt(t, reg, b, n);
    }
    AcceptAgrees(t, reg, t.obligations[m], b, v, t.obligations[n]);
    AgreeSameOffer(t, reg, t.obligations[n], b, c, o.rows);
    AgreeSameContext(t, t.obligations[n], b, c);
  }

  /** The rows stored so far, with the row of an obligation that is being accepted. */
  function StoredFor(t: Task, reg: Registry, b: Books, stored: map<Hash, Stored>, m: Name): map<Hash, Stored>
    requires m in t.obligations
  {
    stored[CacheKey(t, reg, t.obligations[m], b) := Stored(m, b)]
  }

  lemma AcceptKeepsSourced(t: Task, reg: Registry, o: Outset, b: Books, rows: Rows, stored: map<Hash, Stored>,
      proposals: Proposals, m: Name, v: Json, put: bool)
    requires Kept(t, reg, b) && Open(t, reg, b, m) && Sourced(t, reg, o, b, rows, stored, proposals)
    requires Comes(t, reg, o, b, proposals, m, v)
    ensures Sourced(t, reg, o, Accept(t, reg, t.obligations[m], b, v),
              if put then Put(t, reg, t.obligations[m], b, rows, v) else rows,
              if put then StoredFor(t, reg, b, stored, m) else stored, proposals)
  {
    var c := Accept(t, reg, t.obligations[m], b, v);
    var rows' := if put then Put(t, reg, t.obligations[m], b, rows, v) else rows;
    var stored' := if put then StoredFor(t, reg, b, stored, m) else stored;
    forall n | n in c.accepted
      ensures SourcedAt(t, reg, o, c, proposals, n)
    {
      if n != m {
        assert SourcedAt(t, reg, o, b, proposals, n);
      }
      AcceptKeepsSource(t, reg, o, b, proposals, m, v, n);
    }
    forall k {:trigger StoredAt(t, reg, c, stored', k)}
      ensures StoredAt(t, reg, c, stored', k)
    {
      assert StoredAt(t, reg, b, stored, k);
    }
    forall k {:trigger KeptRow(o.rows, rows', stored', k)}
      ensures KeptRow(o.rows, rows', stored', k)
    {
      assert KeptRow(o.rows, rows, stored, k);
    }
  }

  lemma ProposingKeepsSourced(t: Task, reg: Registry, o: Outset, b: Books, rows: Rows, stored: map<Hash, Stored>,
      proposals: Proposals, more: Proposals)
    requires Sourced(t, reg, o, b, rows, stored, proposals) && proposals <= more
    ensures Sourced(t, reg, o, b, rows, stored, more)
  {
    forall n | n in b.accepted
      ensures SourcedAt(t, reg, o, b, more, n)
    {
      assert SourcedAt(t, reg, o, b, proposals, n);
    }
  }
}
