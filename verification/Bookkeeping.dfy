/**
 * The books of a run: accepted values, receipts and cache rows, as pure records (residual/engine.py,
 * residual/storage.py).
 */
module Bookkeeping {
  import opened Basics
  import opened Tasks
  import opened Receipts

  /** What a run has accepted, with the receipts it has issued. */
  datatype Books = Books(
    accepted: map<Name, Json>,
    receipts: map<Name, RunReceipt>,
    station: map<Name, StationReceipt>)

  // ---------------------------------------------------------------- what a value is bound to

  datatype Verifier = Verifier(name: Name, revision: Hash, kind: CheckKind)

  function EditionOf(reg: Registry, o: Obligation): Hash {
    if o.check in reg.editions then reg.editions[o.check] else OpaqueHash(0)
  }

  /** `_identity`: only when the check has one and every dependency has a station receipt. */
  function IdentityOf(reg: Registry, o: Obligation, station: map<Name, StationReceipt>): Option<Verifier> {
    if o.check in reg.identities && forall d :: d in o.dependsOn ==> d in station then
      var identity := reg.identities[o.check];
      Some(Verifier(o.check, RevisionHash(identity.revision, EditionOf(reg, o), identity.kind), identity.kind))
    else None
  }

  function EvidenceHashes(t: Task, o: Obligation): map<Name, Hash> {
    map a | a in o.evidence && a in t.artifacts :: TextHash(t.artifacts[a].lines)
  }

  function DependencyHashes(o: Obligation, receipts: map<Name, RunReceipt>): map<Name, Hash> {
    map d | d in o.dependsOn && d in receipts :: RunReceiptHash(receipts[d])
  }

  /** `_cache_key`. */
  function CacheKey(t: Task, reg: Registry, o: Obligation, b: Books): Hash {
    match IdentityOf(reg, o, b.station)
    case Some(v) => KeyHash(KeyFields(t.id, o.id, GoalHash(t.id, t.goal), ContractHash(o), v.name, v.revision, v.kind,
        EvidenceHashes(t, o), ParentsIn(b.station, o.dependsOn)))
    case None =>
      BindingHash(
        Binding(t.id, t.goal, o, EditionOf(reg, o), EvidenceHashes(t, o), DependencyHashes(o, b.receipts)))
  }

  function ReceiptFor(t: Task, reg: Registry, o: Obligation, b: Books, v: Json): RunReceipt {
    RunReceipt(CacheKey(t, reg, o, b), ValueHash(v), o.check, EditionOf(reg, o))
  }

  function StationFor(t: Task, reg: Registry, o: Obligation, b: Books, who: Verifier, v: Json): StationReceipt {
    Station(o.id, CacheKey(t, reg, o, b), ValueHash(v), who.name, who.revision, Passed,
      ParentsIn(b.station, o.dependsOn), UNKNOWN, UNKNOWN, V2)
  }

  /** The books after `v` has been accepted for `o`. */
  function Accept(t: Task, reg: Registry, o: Obligation, b: Books, v: Json): Books {
    Books(b.accepted[o.id := v], b.receipts[o.id := ReceiptFor(t, reg, o, b, v)],
      match IdentityOf(reg, o, b.station)
      case Some(who) => b.station[o.id := StationFor(t, reg, o, b, who, v)]
      case None => b.station)
  }

  // ---------------------------------------------------------------- agreement on dependencies

  /** Two books say the same about everything `o` depends on. */
  ghost predicate AgreeOn(o: Obligation, a: Books, b: Books) {
    forall d :: d in o.dependsOn ==>
      && d in a.accepted && d in b.accepted && a.accepted[d] == b.accepted[d]
      && d in a.receipts && d in b.receipts && a.receipts[d] == b.receipts[d]
      && (d in a.station <==> d in b.station) && (d in a.station ==> a.station[d] == b.station[d])
  }

  lemma AgreeSameBinding(t: Task, reg: Registry, o: Obligation, a: Books, b: Books)
    requires AgreeOn(o, a, b)
    ensures IdentityOf(reg, o, a.station) == IdentityOf(reg, o, b.station)
    ensures ParentsIn(a.station, o.dependsOn) == ParentsIn(b.station, o.dependsOn)
    ensures CacheKey(t, reg, o, a) == CacheKey(t, reg, o, b)
  {
    assert HashesOf(a.station, o.dependsOn) == HashesOf(b.station, o.dependsOn);
    assert DependencyHashes(o, a.receipts) == DependencyHashes(o, b.receipts);
  }

  lemma AgreeSameContext(t: Task, o: Obligation, a: Books, b: Books)
    requires AgreeOn(o, a, b)
    ensures ContextOf(t, o, a.accepted) == ContextOf(t, o, b.accepted)
  {
    assert ContextOf(t, o, a.accepted).dependencies == ContextOf(t, o, b.accepted).dependencies;
  }

  // ---------------------------------------------------------------- invariants

  /** One accepted value: its dependencies are accepted and its own check passes against them. */
  ghost predicate VerifiedAt(t: Task, reg: Registry, b: Books, n: Name) {
    && n in t.obligations && n in b.accepted
    && (forall d :: d in t.obligations[n].dependsOn ==> d in b.accepted)
    && Passes(t, reg, b.accepted, n)
  }

  /** One accepted value: its receipts are the ones its dependencies' receipts call for. */
  ghost predicate ReceiptedAt(t: Task, reg: Registry, b: Books, n: Name) {
    && n in t.obligations && n in b.accepted && n in b.receipts
    && b.receipts[n] == ReceiptFor(t, reg, t.obligations[n], b, b.accepted[n])
    && (match IdentityOf(reg, t.obligations[n], b.station)
        case Some(who) => n in b.station && b.station[n] == StationFor(t, reg, t.obligations[n], b, who, b.accepted[n])
        case None => n !in b.station)
  }

  ghost predicate Kept(t: Task, reg: Registry, b: Books) {
    && b.receipts.Keys == b.accepted.Keys && b.station.Keys <= b.accepted.Keys
    && (forall n {:trigger KeptAt(t, reg, b, n)} :: n in b.accepted ==> KeptAt(t, reg, b, n))
  }

  ghost predicate KeptAt(t: Task, reg: Registry, b: Books, n: Name) {
    VerifiedAt(t, reg, b, n) && ReceiptedAt(t, reg, b, n)
  }

  lemma NothingAcceptedYet(t: Task, reg: Registry)
    ensures Kept(t, reg, Books(map[], map[], map[]))
  {
  }

  /** A new acceptance leaves everything that depends only on older ones as it was. */
  lemma AcceptAgrees(t: Task, reg: Registry, o: Obligation, b: Books, v: Json, older: Obligation)
    requires b.receipts.Keys == b.accepted.Keys && o.id !in b.accepted && b.station.Keys <= b.accepted.Keys
    requires forall d :: d in older.dependsOn ==> d in b.accepted
    ensures AgreeOn(older, b, Accept(t, reg, o, b, v))
  {
  }

  lemma AcceptKeepsOlder(t: Task, reg: Registry, o: Obligation, b: Books, v: Json, n: Name)
    requires Kept(t, reg, b) && o.id !in b.accepted && n in b.accepted
    ensures KeptAt(t, reg, Accept(t, reg, o, b, v), n)
  {
    assert KeptAt(t, reg, b, n);
    var c, older := Accept(t, reg, o, b, v), t.obligations[n];
    AcceptAgrees(t, reg, o, b, v, older);
    AgreeSameBinding(t, reg, older, b, c);
    AgreeSameContext(t, older, b, c);
  }

  /** The obligation may be judged now: not accepted yet, everything it depends on accepted. */
  ghost predicate Open(t: Task, reg: Registry, b: Books, n: Name) {
    && n in t.obligations && t.obligations[n].id == n && t.obligations[n].check in reg.checks && n !in b.accepted
    && forall d :: d in t.obligations[n].dependsOn ==> d in b.accepted
  }

  /** What the check of `n` says of `v`. */
  function VerdictOn(t: Task, reg: Registry, b: Books, n: Name, v: Json): Verdict
    requires n in t.obligations && t.obligations[n].check in reg.checks
  {
    reg.checks[t.obligations[n].check](v, ContextOf(t, t.obligations[n], b.accepted))
  }

  lemma AcceptKeepsNew(t: Task, reg: Registry, n: Name, b: Books, v: Json)
    requires Kept(t, reg, b) && Open(t, reg, b, n) && VerdictOn(t, reg, b, n, v).Pass?
    ensures KeptAt(t, reg, Accept(t, reg, t.obligations[n], b, v), n)
  {
    var o := t.obligations[n];
    var c := Accept(t, reg, o, b, v);
    AcceptAgrees(t, reg, o, b, v, o);
    AgreeSameBinding(t, reg, o, b, c);
    AgreeSameContext(t, o, b, c);
  }

  lemma AcceptKeepsAll(t: Task, reg: Registry, n: Name, b: Books, v: Json, c: Books)
    requires Kept(t, reg, b) && Open(t, reg, b, n) && VerdictOn(t, reg, b, n, v).Pass?
    requires c == Accept(t, reg, t.obligations[n], b, v)
    ensures forall m {:trigger KeptAt(t, reg, c, m)} :: m == n || m in b.accepted ==> KeptAt(t, reg, c, m)
  {
    forall m | m == n || m in b.accepted ensures KeptAt(t, reg, c, m) {
      AcceptKeepsAt(t, reg, n, b, v, m);
    }
  }

  /** `_accept` on a passing value keeps the books verified and receipted. */
  lemma AcceptKeeps(t: Task, reg: Registry, n: Name, b: Books, v: Json)
    requires Kept(t, reg, b) && Open(t, reg, b, n) && VerdictOn(t, reg, b, n, v).Pass?
    ensures Kept(t, reg, Accept(t, reg, t.obligations[n], b, v))
  {
    AcceptKeepsAll(t, reg, n, b, v, Accept(t, reg, t.obligations[n], b, v));
  }

  lemma AcceptKeepsAt(t: Task, reg: Registry, n: Name, b: Books, v: Json, m: Name)
    requires Kept(t, reg, b) && Open(t, reg, b, n) && VerdictOn(t, reg, b, n, v).Pass? && (m == n || m in b.accepted)
    ensures KeptAt(t, reg, Accept(t, reg, t.obligations[n], b, v), m)
  {
    if m == n {
      AcceptKeepsNew(t, reg, n, b, v);
    } else {
      AcceptKeepsOlder(t, reg, t.obligations[n], b, v, m);
    }
  }

  // ---------------------------------------------------------------- the cache

  /** Cache rows by key; a row that does not parse is `None`. */
  type Rows = map<Hash, Option<Json>>

  /** `_cached_candidate`: the value of an entry whose receipt reads back and matches this very context. */
  function Candidate(o: Obligation, entry: Json, key: Hash, who: Verifier, parents: seq<Reference>): Option<Json> {
    if !entry.Entry? then None else
      match FromDict(entry.receipt)
      case Err => None
      case Ok(r) =>
        if r.task == o.id && Matches(r, entry.value, key, who.name, who.revision, parents)
        then Some(entry.value) else None
  }

  /** The candidate the cache offers for `o`, if any. It still has to pass the check. */
  function Offered(t: Task, reg: Registry, o: Obligation, b: Books, rows: Rows): Option<Json> {
    var key := CacheKey(t, reg, o, b);
    if key !in rows || rows[key].None? then None else
      match IdentityOf(reg, o, b.station)
      case None => rows[key]
      case Some(who) => Candidate(o, rows[key].value, key, who, ParentsIn(b.station, o.dependsOn))
  }

  /** What is stored for an accepted value. */
  function RowFor(t: Task, reg: Registry, o: Obligation, b: Books, v: Json): Json {
    match IdentityOf(reg, o, b.station)
    case None => v
    case Some(who) => Entry(v, ToDict(StationFor(t, reg, o, b, who, v)))
  }

  function Put(t: Task, reg: Registry, o: Obligation, b: Books, rows: Rows, v: Json): Rows {
    rows[CacheKey(t, reg, o, b) := Some(RowFor(t, reg, o, b, v))]
  }

  lemma StationConstructible(t: Task, reg: Registry, o: Obligation, b: Books, who: Verifier, v: Json)
    requires o.id !in o.dependsOn
    ensures Constructible(StationFor(t, reg, o, b, who, v))
  {
    SortedReferencesSpec(HashesOf(b.station, o.dependsOn));
    assert UNKNOWN[0] in UNKNOWN;
  }

  /** What has been stored is what will be offered. */
  lemma StoredIsOffered(t: Task, reg: Registry, o: Obligation, b: Books, rows: Rows, v: Json)
    requires o.id !in o.dependsOn
    ensures Offered(t, reg, o, b, Put(t, reg, o, b, rows, v)) == Some(v)
  {
    match IdentityOf(reg, o, b.station)
    case None =>
    case Some(who) =>
      StationConstructible(t, reg, o, b, who, v);
      WriteThenRead(StationFor(t, reg, o, b, who, v));
  }

  /** Two receipts agree in everything but the engine that issued them and the schema they are written in. */
  predicate SameStation(r: StationReceipt, s: StationReceipt) {
    && r.task == s.task && r.cacheKey == s.cacheKey && r.value == s.value && r.verifier == s.verifier
    && r.revision == s.revision && r.verdict == s.verdict && r.parents == s.parents
  }

  /** The row is an entry for `v` whose envelope is that of a receipt that would be issued for `v` here and now. */
  ghost predicate Vouched(t: Task, reg: Registry, o: Obligation, b: Books, who: Verifier, row: Json, v: Json) {
    exists r :: row == Entry(v, ToDict(r)) && Constructible(r) && SameStation(r, StationFor(t, reg, o, b, who, v))
  }

  /**
   * What the cache offers: without an identity whatever the row of the current key holds; with one, a value if and only
   * if its row carries the receipt that would be issued for that very value in this very context, by any engine.
   */
  lemma OfferedMeaning(t: Task, reg: Registry, o: Obligation, b: Books, rows: Rows, v: Json)
    ensures Offered(t, reg, o, b, rows) == Some(v) <==>
      var key := CacheKey(t, reg, o, b);
      && key in rows && rows[key].Some?
      && match IdentityOf(reg, o, b.station)
         case None => rows[key].value == v
         case Some(who) => Vouched(t, reg, o, b, who, rows[key].value, v)
  {
    var key := CacheKey(t, reg, o, b);
    if key in rows && rows[key].Some? {
      match IdentityOf(reg, o, b.station)
      case None =>
      case Some(who) => CandidateMeaning(t, reg, o, b, who, rows[key].value, v);
    }
  }

  lemma CandidateMeaning(t: Task, reg: Registry, o: Obligation, b: Books, who: Verifier, row: Json, v: Json)
    ensures Candidate(o, row, CacheKey(t, reg, o, b), who, ParentsIn(b.station, o.dependsOn)) == Some(v) <==>
      Vouched(t, reg, o, b, who, row, v)
  {
    if row.Entry? && FromDict(row.receipt).Ok? {
      ReadThenWrite(row.receipt);
    }
    if Vouched(t, reg, o, b, who, row, v) {
      var r :| row == Entry(v, ToDict(r)) && Constructible(r) && SameStation(r, StationFor(t, reg, o, b, who, v));
      WriteThenRead(r);
    }
  }

  /** A row whose receipt was issued for anything else, be it the value, the key, the check or a parent, is a miss. */
  lemma OtherReceiptIsAMiss(t: Task, reg: Registry, o: Obligation, b: Books, rows: Rows, v: Json, r: StationReceipt)
    requires var key, who := CacheKey(t, reg, o, b), IdentityOf(reg, o, b.station);
      && key in rows && rows[key] == Some(Entry(v, ToDict(r))) && Constructible(r)
      && who.Some? && !SameStation(r, StationFor(t, reg, o, b, who.value, v))
    ensures Offered(t, reg, o, b, rows) == None
  {
    WriteThenRead(r);
  }

  /** A key says everything that an acceptance rests on: equal keys mean equal tasks, contracts, checks and parents. */
  lemma KeySaysAll(t: Task, reg: Registry, o: Obligation, b: Books, t': Task, reg': Registry, o': Obligation, b': Books)
    requires CacheKey(t, reg, o, b) == CacheKey(t', reg', o', b')
    ensures t.id == t'.id && t.goal == t'.goal && o == o' && EvidenceHashes(t, o) == EvidenceHashes(t', o')
    ensures EditionOf(reg, o) == EditionOf(reg', o')
    ensures IdentityOf(reg, o, b.station) == IdentityOf(reg', o', b'.station)
    ensures if IdentityOf(reg, o, b.station).Some?
      then ParentsIn(b.station, o.dependsOn) == ParentsIn(b'.station, o'.dependsOn)
      else DependencyHashes(o, b.receipts) == DependencyHashes(o', b'.receipts)
  {
  }

  /** Different obligations never share a key, whatever the books. */
  lemma KeysDiffer(t: Task, reg: Registry, o: Obligation, a: Books, o': Obligation, b: Books)
    requires o.id != o'.id
    ensures CacheKey(t, reg, o, a) != CacheKey(t, reg, o', b)
  {
  }

  lemma PutElsewhere(t: Task, reg: Registry, o: Obligation, a: Books, o': Obligation, b: Books, rows: Rows, v: Json)
    requires o.id != o'.id
    ensures Offered(t, reg, o, a, Put(t, reg, o', b, rows, v)) == Offered(t, reg, o, a, rows)
  {
    KeysDiffer(t, reg, o, a, o', b);
  }

  /** Books that agree on the dependencies are offered the same. */
  lemma AgreeSameOffer(t: Task, reg: Registry, o: Obligation, a: Books, b: Books, rows: Rows)
    requires AgreeOn(o, a, b)
    ensures Offered(t, reg, o, a, rows) == Offered(t, reg, o, b, rows)
  {
    AgreeSameBinding(t, reg, o, a, b);
  }

  /** The cache offers every accepted value of these books. */
  ghost predicate Stocked(t: Task, reg: Registry, b: Books, rows: Rows) {
    forall n {:trigger StockedAt(t, reg, b, rows, n)} :: n in b.accepted ==> StockedAt(t, reg, b, rows, n)
  }

  ghost predicate StockedAt(t: Task, reg: Registry, b: Books, rows: Rows, n: Name) {
    && n in t.obligations && n in b.accepted
    && Offered(t, reg, t.obligations[n], b, rows) == Some(b.accepted[n])
  }

  /** Accepting and storing a value keeps the cache stocked. */
  lemma AcceptKeepsStock(t: Task, reg: Registry, n: Name, b: Books, rows: Rows, v: Json, stored: Rows)
    requires WellFormed(t) && Kept(t, reg, b) && Stocked(t, reg, b, rows) && Open(t, reg, b, n)
    requires || stored == Put(t, reg, t.obligations[n], b, rows, v)
             || (stored == rows && Offered(t, reg, t.obligations[n], b, rows) == Some(v))
    ensures Stocked(t, reg, Accept(t, reg, t.obligations[n], b, v), stored)
  {
    var o := t.obligations[n];
    var c := Accept(t, reg, o, b, v);
    assert WellFormedObligation(t, n, o);
    forall m | m in c.accepted ensures StockedAt(t, reg, c, stored, m) {
      if m == n {
        AcceptAgrees(t, reg, o, b, v, o);
        AgreeSameOffer(t, reg, o, b, c, stored);
        if stored == Put(t, reg, o, b, rows, v) {
          StoredIsOffered(t, reg, o, b, rows, v);
        }
      } else {
        StockKeptAt(t, reg, n, b, rows, v, stored, m);
      }
    }
  }

  lemma StockKeptAt(t: Task, reg: Registry, n: Name, b: Books, rows: Rows, v: Json, stored: Rows, m: Name)
    requires WellFormed(t) && Kept(t, reg, b) && StockedAt(t, reg, b, rows, m) && m != n
    requires n in t.obligations && n !in b.accepted
    requires stored == rows || stored == Put(t, reg, t.obligations[n], b, rows, v)
    ensures StockedAt(t, reg, Accept(t, reg, t.obligations[n], b, v), stored, m)
  {
    var o, older := t.obligations[n], t.obligations[m];
    assert WellFormedObligation(t, n, o) && WellFormedObligation(t, m, older);
    assert KeptAt(t, reg, b, m);
    AcceptAgrees(t, reg, o, b, v, older);
    AgreeSameOffer(t, reg, older, b, Accept(t, reg, o, b, v), stored);
    if stored != rows {
      PutElsewhere(t, reg, older, b, o, b, rows, v);
    }
  }
}
