/** The hash-linked ledger of a run (residual/storage.py). */
module Ledgers {
  import opened Basics
  import Tasks

  type Json = Tasks.Json

  datatype Kind = RunStarted | RunFinished | Between(name: Name)

  /**
   * The data of an event, with the number of line separators that its text holds unescaped. The encoder escapes control
   * characters, but not U+0085, U+2028 and U+2029, at which the reader splits lines too.
   */
  datatype Data = Data(value: Json, separators: nat)

  datatype Payload = Payload(seqno: int, kind: Kind, time: nat, previous: Hash, data: Data)

  /** SHA-256 without collisions; `Zero` is the root of an empty ledger. */
  datatype Hash = Zero | HashOf(payload: Payload) | Unknown(text: nat)

  datatype Event = Event(payload: Payload, sha: Hash)

  /** One line of a stored ledger: text that is no event, or an event. */
  datatype Line = Unreadable | Readable(event: Event)

  function Root(events: seq<Event>): Hash {
    if events == [] then Zero else events[|events| - 1].sha
  }

  ghost predicate LinkedAt(events: seq<Event>, i: nat)
    requires i < |events|
  {
    && events[i].payload.seqno == i
    && events[i].payload.previous == Root(events[..i])
    && events[i].sha == HashOf(events[i].payload)
  }

  ghost predicate Linked(events: seq<Event>) {
    forall i :: 0 <= i < |events| ==> LinkedAt(events, i)
  }

  /** A whole run: started first, finished last. */
  predicate Complete(events: seq<Event>) {
    events != [] && events[0].payload.kind == RunStarted && events[|events| - 1].payload.kind == RunFinished
  }

  ghost predicate Reads(lines: seq<Line>, events: seq<Event>) {
    |lines| == |events| && forall i :: 0 <= i < |lines| ==> lines[i] == Readable(events[i])
  }

  /** The text of an event is one line, or is cut inside a string into pieces of which the first is no object. */
  function LinesOf(e: Event): seq<Line> {
    if e.payload.data.separators == 0 then [Readable(e)] else seq(e.payload.data.separators + 1, _ => Unreadable)
  }

  function Write(events: seq<Event>): seq<Line> {
    if events == [] then [] else Write(events[..|events| - 1]) + LinesOf(events[|events| - 1])
  }

  /** No text is cut. */
  predicate Whole(events: seq<Event>) {
    forall i :: 0 <= i < |events| ==> events[i].payload.data.separators == 0
  }

  lemma {:induction false} WholeIsRead(events: seq<Event>)
    requires Whole(events)
    ensures Reads(Write(events), events)
  {
    if events != [] {
      WholeIsRead(events[..|events| - 1]);
    }
  }

  lemma {:induction false} CutIsUnreadable(events: seq<Event>)
    requires !Whole(events)
    ensures Unreadable in Write(events)
  {
    var front, last := events[..|events| - 1], events[|events| - 1];
    if last.payload.data.separators > 0 {
      assert LinesOf(last)[0] == Unreadable;
    } else {
      assert !Whole(front);
      CutIsUnreadable(front);
    }
  }

  class Ledger {
    var events: seq<Event>
    var head: Hash

    ghost predicate Valid()
      reads this
    {
      Linked(events) && head == Root(events)
    }

    constructor ()
      ensures Valid() && events == []
    {
      events, head := [], Zero;
    }

    method Add(kind: Kind, time: nat, data: Data)
      requires Valid()
      modifies this
      ensures Valid() && |events| == |old(events)| + 1 && old(events) <= events
      ensures var p := events[|old(events)|].payload; p.kind == kind && p.time == time && p.data == data
    {
      var payload := Payload(|events|, kind, time, head, data);
      head := HashOf(payload);
      LinkedSnoc(events, Event(payload, head));
      events := events + [Event(payload, head)];
    }
  }

  lemma LinkedSnoc(events: seq<Event>, e: Event)
    requires Linked(events)
    ensures Linked(events + [e]) <==>
      (e.payload.seqno == |events| && e.payload.previous == Root(events) && e.sha == HashOf(e.payload))
  {
    var longer := events + [e];
    assert longer[..|events|] == events;
    forall i | 0 <= i < |events|
      ensures LinkedAt(longer, i)
    {
      assert LinkedAt(events, i);
      assert longer[..i] == events[..i];
    }
    assert Linked(longer) ==> LinkedAt(longer, |events|);
    assert LinkedAt(longer, |events|) ==> Linked(longer);
  }

  /** Accepts exactly the readable, linked and complete ledgers, with the expected root where one is given. */
  method VerifyLedger(lines: seq<Line>, expected: Option<Hash>)
    returns (r: Result<(nat, Hash)>, ghost events: seq<Event>)
    ensures r.Ok? ==>
      r.value.0 == |lines| && AcceptedWith(lines, events, r.value.1) && (expected.Some? ==> r.value.1 == expected.value)
    ensures r.Err? ==>
      forall es :: AcceptedWith(lines, es, Root(es)) ==> expected.Some? && Root(es) != expected.value
  {
    events := [];
    var previous, first, last := Zero, None, None;
    for index := 0 to |lines|
      invariant |events| == index && Linked(events) && previous == Root(events)
      invariant forall i :: 0 <= i < index ==> lines[i] == Readable(events[i])
      invariant first == if index == 0 then None else Some(events[0].payload.kind)
      invariant last == if index == 0 then None else Some(events[index - 1].payload.kind)
    {
      if lines[index].Unreadable? {
        return Err, events;
      }
      var event := lines[index].event;
      if event.payload.seqno != index || event.payload.previous != previous || event.sha != HashOf(event.payload) {
        forall es | Reads(lines, es)
          ensures !Linked(es)
        {
          assert es[..index] == events;
          assert !LinkedAt(es, index);
        }
        return Err, events;
      }
      LinkedSnoc(events, event);
      events := events + [event];
      previous := event.sha;
      first, last := if index == 0 then Some(event.payload.kind) else first, Some(event.payload.kind);
    }
    assert forall es :: Reads(lines, es) ==> es == events;
    if first != Some(RunStarted) || last != Some(RunFinished) {
      return Err, events;
    }
    if expected.Some? && previous != expected.value {
      return Err, events;
    }
    r := Ok((|lines|, previous));
  }

  /**
   * A ledger that was written out is accepted, with its own head as root, exactly when it is complete and no text is
   * cut.
   */
  method WriteThenVerify(ledger: Ledger) returns (r: Result<(nat, Hash)>)
    requires ledger.Valid()
    ensures r ==
      if Complete(ledger.events) && Whole(ledger.events) then Ok((|ledger.events|, ledger.head)) else Err
  {
    ghost var events;
    r, events := VerifyLedger(Write(ledger.events), Some(ledger.head));
    if Whole(ledger.events) {
      WholeIsRead(ledger.events);
      assert r.Ok? ==> events == ledger.events;
      assert Complete(ledger.events) ==> AcceptedWith(Write(ledger.events), ledger.events, Root(ledger.events));
    } else {
      CutIsUnreadable(ledger.events);
    }
  }

  /** A whole run that is rejected when it is read back, because one event's data holds a line separator. */
  method CutLedger(time: nat, value: Json) returns (ledger: Ledger, r: Result<(nat, Hash)>)
    ensures ledger.Valid() && Complete(ledger.events) && r == Err
  {
    ledger := new Ledger();
    ledger.Add(RunStarted, time, Data(value, 0));
    ledger.Add(Between(1), time, Data(value, 1));
    ledger.Add(RunFinished, time, Data(value, 0));
    assert ledger.events[1].payload.data.separators == 1;
    r := WriteThenVerify(ledger);
  }

  function Depth(h: Hash): nat {
    if h.HashOf? then 1 + Depth(h.payload.previous) else 0
  }

  lemma {:induction false} DepthIsLength(events: seq<Event>)
    requires Linked(events)
    ensures Depth(Root(events)) == |events|
  {
    if events != [] {
      var n := |events| - 1;
      assert events == events[..n] + [events[n]];
      LinkedFront(events);
      DepthIsLength(events[..n]);
      assert LinkedAt(events, n);
    }
  }

  lemma LinkedFront(events: seq<Event>)
    requires Linked(events) && events != []
    ensures Linked(events[..|events| - 1])
  {
    var front := events[..|events| - 1];
    forall i | 0 <= i < |front|
      ensures LinkedAt(front, i)
    {
      assert LinkedAt(events, i);
      assert front[..i] == events[..i];
    }
  }

  /** Two linked ledgers with the same root are the same ledger. */
  lemma {:induction false} RootFixesLedger(a: seq<Event>, b: seq<Event>)
    requires Linked(a) && Linked(b) && Root(a) == Root(b)
    ensures a == b
  {
    DepthIsLength(a);
    DepthIsLength(b);
    if a != [] {
      var n := |a| - 1;
      assert LinkedAt(a, n) && LinkedAt(b, n);
      LinkedFront(a);
      LinkedFront(b);
      RootFixesLedger(a[..n], b[..n]);
      assert a == a[..n] + [a[n]] && b == b[..n] + [b[n]];
    }
  }

  /** Verification accepts the lines, read as these events, with this root. */
  ghost predicate AcceptedWith(lines: seq<Line>, events: seq<Event>, root: Hash) {
    Reads(lines, events) && Linked(events) && Complete(events) && Root(events) == root
  }

  /** Two stored ledgers that verification accepts with the same root are equal, line by line. */
  lemma SameRootSameLedger(a: seq<Line>, b: seq<Line>, xs: seq<Event>, ys: seq<Event>, root: Hash)
    requires AcceptedWith(a, xs, root) && AcceptedWith(b, ys, root)
    ensures a == b
  {
    RootFixesLedger(xs, ys);
  }
}
