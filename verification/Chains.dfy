/** The hash chain of observations and the bus that extends it (observation_layer/core.py, observation_layer/bus.py). */
module Chains {
  import opened Basics
  import Tasks

  type Json = Tasks.Json

  /** Everything in an observation that its digest covers. */
  datatype Body = Body(id: Name, trace: Name, kind: Name, time: nat, schema: Name, prev: Digest, payload: Json)

  /** SHA-256 without collisions. */
  datatype Digest = Genesis | Sealed(body: Body) | Unknown(text: nat)

  datatype Observation = Observation(body: Body, digest: Digest)

  const SCHEMA_VERSION: Name := 110

  function Head(obs: seq<Observation>): Digest {
    if obs == [] then Genesis else obs[|obs| - 1].digest
  }

  // ---------------------------------------------------------------- verification

  /** The observation at `i` is intact, has a known kind and follows the one before it. */
  predicate LinkedAt(kinds: set<Name>, obs: seq<Observation>, i: nat)
    requires i < |obs|
  {
    && obs[i].body.schema == SCHEMA_VERSION && obs[i].body.kind in kinds
    && obs[i].digest == Sealed(obs[i].body)
    && obs[i].body.prev == Head(obs[..i])
    && obs[i].body.trace == obs[0].body.trace
  }

  ghost predicate Linked(kinds: set<Name>, obs: seq<Observation>) {
    forall i :: 0 <= i < |obs| ==> LinkedAt(kinds, obs, i)
  }

  ghost predicate DistinctIds(obs: seq<Observation>) {
    forall i, j :: 0 <= i < j < |obs| ==> obs[i].body.id != obs[j].body.id
  }

  ghost predicate Verifies(kinds: set<Name>, obs: seq<Observation>) {
    Linked(kinds, obs) && DistinctIds(obs)
  }

  method VerifyChain(kinds: set<Name>, obs: seq<Observation>, head: Option<Digest>, count: Option<nat>)
    returns (ok: bool)
    ensures ok <==> && Verifies(kinds, obs)
                    && (head.Some? ==> Head(obs) == head.value)
                    && (count.Some? ==> |obs| == count.value)
  {
    var prev, trace, seen := Genesis, None, {};
    for i := 0 to |obs|
      invariant prev == Head(obs[..i])
      invariant trace == if i == 0 then None else Some(obs[0].body.trace)
      invariant forall id :: id in seen <==> exists k :: 0 <= k < i && obs[k].body.id == id
      invariant forall k :: 0 <= k < i ==> LinkedAt(kinds, obs, k)
      invariant DistinctIds(obs[..i])
    {
      var o := obs[i];
      assert LinkedAt(kinds, obs, i) <==>
        (o.body.schema == SCHEMA_VERSION && o.body.kind in kinds && o.digest == Sealed(o.body) && o.body.prev == prev
         && (trace.None? || trace == Some(o.body.trace)));
      if o.body.schema != SCHEMA_VERSION || o.body.prev != prev || o.digest != Sealed(o.body) {
        return false;
      }
      if o.body.id in seen || (trace.Some? && trace.value != o.body.trace) {
        return false;
      }
      if o.body.kind !in kinds {
        return false;
      }
      assert obs[..i + 1] == obs[..i] + [o];
      seen, trace, prev := seen + {o.body.id}, Some(o.body.trace), o.digest;
    }
    assert obs[..|obs|] == obs;
    ok := (head.None? || prev == head.value) && (count.None? || |obs| == count.value);
  }

  // ---------------------------------------------------------------- a digest fixes everything before it

  function Depth(d: Digest): nat {
    if d.Sealed? then 1 + Depth(d.body.prev) else 0
  }

  lemma {:induction false} DepthIsPosition(kinds: set<Name>, obs: seq<Observation>, i: nat)
    requires Linked(kinds, obs) && i <= |obs|
    ensures Depth(Head(obs[..i])) == i
    ensures Head(obs[..i]).Genesis? <==> i == 0
  {
    if i > 0 {
      DepthIsPosition(kinds, obs, i - 1);
      assert LinkedAt(kinds, obs, i - 1);
    }
  }

  lemma LinkedPrefix(kinds: set<Name>, obs: seq<Observation>, n: nat)
    requires Linked(kinds, obs) && n <= |obs|
    ensures Linked(kinds, obs[..n])
  {
    forall i | 0 <= i < n
      ensures LinkedAt(kinds, obs[..n], i)
    {
      assert LinkedAt(kinds, obs, i);
      assert obs[..n][..i] == obs[..i];
    }
  }

  /** Two linked chains with the same head are the same chain, whoever wrote them. */
  lemma {:induction false} HeadFixesChain(kinds: set<Name>, a: seq<Observation>, b: seq<Observation>)
    requires Linked(kinds, a) && Linked(kinds, b) && Head(a) == Head(b)
    ensures a == b
  {
    assert a[..|a|] == a && b[..|b|] == b;
    DepthIsPosition(kinds, a, |a|);
    DepthIsPosition(kinds, b, |b|);
    if a != [] {
      var n := |a| - 1;
      assert LinkedAt(kinds, a, n) && LinkedAt(kinds, b, n);
      LinkedPrefix(kinds, a, n);
      LinkedPrefix(kinds, b, n);
      HeadFixesChain(kinds, a[..n], b[..n]);
      assert a == a[..n] + [a[n]] && b == b[..n] + [b[n]];
    }
  }

  // ---------------------------------------- what is left of a chain when a sink loses part of it

  /** Positions in increasing order. */
  ghost predicate Picks(kept: seq<nat>, n: nat) {
    && (forall i :: 0 <= i < |kept| ==> kept[i] < n)
    && (forall i, j :: 0 <= i < j < |kept| ==> kept[i] < kept[j])
  }

  ghost function Pick(chain: seq<Observation>, kept: seq<nat>): (r: seq<Observation>)
    requires Picks(kept, |chain|)
  {
    seq(|kept|, i requires 0 <= i < |kept| => chain[kept[i]])
  }

  /** Nothing but a tail is missing. */
  ghost predicate Initial(kept: seq<nat>) {
    forall i :: 0 <= i < |kept| ==> kept[i] == i
  }

  lemma {:induction false} LinkedPicksAreInitial(kinds: set<Name>, chain: seq<Observation>, kept: seq<nat>, i: nat)
    requires Linked(kinds, chain) && Picks(kept, |chain|) && Linked(kinds, Pick(chain, kept)) && i < |kept|
    ensures kept[i] == i
  {
    var left := Pick(chain, kept);
    assert LinkedAt(kinds, left, i) && LinkedAt(kinds, chain, kept[i]);
    DepthIsPosition(kinds, chain, kept[i]);
    DepthIsPosition(kinds, left, i);
  }

  /**
   * Verification accepts part of a chain exactly when only a tail is missing and no identity is repeated in what is
   * left.
   */
  lemma AcceptedIffPrefix(kinds: set<Name>, chain: seq<Observation>, kept: seq<nat>)
    requires Linked(kinds, chain) && Picks(kept, |chain|)
    ensures Verifies(kinds, Pick(chain, kept)) <==> Initial(kept) && DistinctIds(Pick(chain, kept))
    ensures Initial(kept) ==> |kept| <= |chain| && Pick(chain, kept) == chain[..|kept|]
  {
    if Linked(kinds, Pick(chain, kept)) {
      forall i | 0 <= i < |kept|
        ensures kept[i] == i
      {
        LinkedPicksAreInitial(kinds, chain, kept, i);
      }
    }
    if Initial(kept) {
      assert |kept| > 0 ==> kept[|kept| - 1] < |chain|;
      assert Pick(chain, kept) == chain[..|kept|];
      LinkedPrefix(kinds, chain, |kept|);
    }
  }

  /** With the head anchored, exactly the complete chain is accepted. */
  lemma AnchoredIffComplete(kinds: set<Name>, chain: seq<Observation>, kept: seq<nat>)
    requires Linked(kinds, chain) && Picks(kept, |chain|)
    ensures Verifies(kinds, Pick(chain, kept)) && Head(Pick(chain, kept)) == Head(chain)
            <==> |kept| == |chain| && DistinctIds(chain)
  {
    var left := Pick(chain, kept);
    AcceptedIffPrefix(kinds, chain, kept);
    if Verifies(kinds, left) && Head(left) == Head(chain) {
      HeadFixesChain(kinds, left, chain);
    }
    if |kept| == |chain| {
      forall i | 0 <= i < |kept|
        ensures kept[i] == i
      {
        FullPicks(kept, i);
      }
      assert left == chain;
    }
  }

  lemma {:induction false} FullPicks(kept: seq<nat>, i: nat)
    requires Picks(kept, |kept|) && i < |kept|
    ensures kept[i] == i
  {
    PicksAtLeast(kept, i);
    PicksAtMost(kept, |kept|, i);
  }

  lemma {:induction false} PicksAtLeast(kept: seq<nat>, i: nat)
    requires (forall i, j :: 0 <= i < j < |kept| ==> kept[i] < kept[j]) && i < |kept|
    ensures kept[i] >= i
  {
    if i > 0 {
      PicksAtLeast(kept, i - 1);
    }
  }

  lemma {:induction false} PicksAtMost(kept: seq<nat>, n: nat, i: nat)
    requires Picks(kept, n) && i < |kept|
    ensures kept[i] + (|kept| - i) <= n
    decreases |kept| - i
  {
    if i + 1 < |kept| {
      PicksAtMost(kept, n, i + 1);
    }
  }

  // ---------------------------------------------------------------- sequencer and bus

  class ObservationSequencer {
    const trace: Name
    var prev: Digest
    var count: nat

    constructor (trace: Name)
      ensures this.trace == trace && prev == Genesis && count == 0
    {
      this.trace := trace;
      prev, count := Genesis, 0;
    }

    method Draft(id: Name, kind: Name, time: nat, payload: Json) returns (o: Body)
      ensures o == Body(id, trace, kind, time, SCHEMA_VERSION, prev, payload)
    {
      o := Body(id, trace, kind, time, SCHEMA_VERSION, prev, payload);
    }

    /** Seals an observation: whatever a filter made of it, its trace and its link are the sequencer's own. */
    method Commit(o: Body) returns (sealed: Observation)
      modifies this
      ensures sealed.body == o.(trace := trace, prev := old(prev)) && sealed.digest == Sealed(sealed.body)
      ensures prev == sealed.digest && count == old(count) + 1
    {
      var body := o.(trace := trace, prev := prev);
      sealed := Observation(body, Sealed(body));
      prev := sealed.digest;
      count := count + 1;
    }
  }

  /** What a filter makes of a draft; a result that is no observation counts as an error. */
  datatype Filtered = Passed(body: Body) | Dropped | Broken

  /**
   * What can happen in one delivery besides the filter. Whether the sink stores the observation, at once or later from
   * a queue, and whether it raises are independent: a full queue drops without raising, a fan-out swallows what its
   * sinks raise, and a rotating file may raise after it has written.
   */
  datatype Faults = Faults(draft: bool, seal: bool, stores: bool, raises: bool)

  class ObservationBus {
    const kinds: set<Name>
    const sequencer: ObservationSequencer
    /** What the sink has stored. */
    var delivered: seq<Observation>
    var emitted: nat
    var dropped: nat
    var errors: nat
    /** Everything that was ever sealed, and the positions of what was stored. */
    ghost var chain: seq<Observation>
    ghost var kept: seq<nat>
    /** How often the sink raised, lost an observation without raising, and raised although it had stored one. */
    ghost var raised: nat
    ghost var silent: nat
    ghost var late: nat

    /** The chain is linked up to the sequencer's head, and the sink holds what was stored of it. */
    ghost predicate Recorded()
      reads this`chain, this`kept, this`delivered, sequencer
    {
      && Linked(kinds, chain) && Head(chain) == sequencer.prev && |chain| == sequencer.count
      && (chain != [] ==> chain[0].body.trace == sequencer.trace)
      && Picks(kept, |chain|) && delivered == Pick(chain, kept)
    }

    ghost predicate Valid()
      reads this, sequencer
    {
      && Recorded()
      && emitted + raised == |chain| && late <= raised <= errors
      && |kept| + silent == emitted + late
    }

    constructor (kinds: set<Name>, trace: Name)
      ensures Valid() && fresh(sequencer) && this.kinds == kinds && chain == []
      ensures emitted == dropped == errors == silent == late == 0
    {
      this.kinds := kinds;
      sequencer := new ObservationSequencer(trace);
      delivered, emitted, dropped, errors := [], 0, 0, 0;
      chain, kept, raised, silent, late := [], [], 0, 0, 0;
    }

    /**
     * One emission under any fault and any filter. It is counted exactly once, as emitted if and only if it was sealed
     * and the sink did not raise. What is sealed and not stored leaves its gap in the chain.
     */
    method Emit(id: Name, kind: Name, time: nat, payload: Json, filter: Body -> Filtered, faults: Faults)
        returns (r: Option<Observation>)
      requires Valid()
      requires forall b :: filter(b).Passed? ==> filter(b).body.schema == SCHEMA_VERSION && filter(b).body.kind in kinds
      modifies this, sequencer
      ensures Valid()
      ensures emitted + dropped + errors == old(emitted + dropped + errors) + 1
      ensures emitted == old(emitted) + (if r.Some? then 1 else 0)
      ensures var draft := old(Body(id, sequencer.trace, kind, time, SCHEMA_VERSION, sequencer.prev, payload));
        if faults.draft || kind !in kinds || !filter(draft).Passed? || faults.seal then
          r.None? && chain == old(chain) && delivered == old(delivered) && silent == old(silent) && late == old(late)
        else
          var o := SealedAs(filter(draft).body, sequencer.trace, old(sequencer.prev));
          && chain == old(chain) + [o]
          && delivered == old(delivered) + (if faults.stores then [o] else [])
          && r == (if faults.raises then None else Some(o))
          && silent == old(silent) + (if !faults.stores && !faults.raises then 1 else 0)
          && late == old(late) + (if faults.stores && faults.raises then 1 else 0)
    {
      if faults.draft || kind !in kinds {
        errors := errors + 1;
        return None;
      }
      var draft := sequencer.Draft(id, kind, time, payload);
      var result := filter(draft);
      match result {
        case Dropped =>
          dropped := dropped + 1;
          return None;
        case Broken =>
          errors := errors + 1;
          return None;
        case Passed(body) =>
          if faults.seal {
            errors := errors + 1;
            return None;
          }
          r := Deliver(body, faults.stores, faults.raises);
      }
    }

    /** Seals what has passed the filter, and hands it to the sink. */
    method Deliver(body: Body, stores: bool, raises: bool) returns (r: Option<Observation>)
      requires Valid() && body.schema == SCHEMA_VERSION && body.kind in kinds
      modifies this, sequencer
      ensures Valid()
      ensures emitted == old(emitted) + (if raises then 0 else 1) && errors == old(errors) + (if raises then 1 else 0)
      ensures dropped == old(dropped)
      ensures var o := SealedAs(body, sequencer.trace, old(sequencer.prev));
        && chain == old(chain) + [o]
        && delivered == old(delivered) + (if stores then [o] else [])
        && r == (if raises then None else Some(o))
      ensures silent == old(silent) + (if !stores && !raises then 1 else 0)
      ensures late == old(late) + (if stores && raises then 1 else 0)
    {
      var sealed := Record(body, stores);
      if raises {
        errors := errors + 1;
        raised := raised + 1;
        late := if stores then late + 1 else late;
        return None;
      }
      silent := if stores then silent else silent + 1;
      emitted := emitted + 1;
      r := Some(sealed);
    }

    method Record(body: Body, stores: bool) returns (sealed: Observation)
      requires Recorded() && body.schema == SCHEMA_VERSION && body.kind in kinds
      modifies this`chain, this`kept, this`delivered, sequencer
      ensures Recorded()
      ensures sealed == SealedAs(body, sequencer.trace, old(sequencer.prev)) && chain == old(chain) + [sealed]
      ensures delivered == old(delivered) + (if stores then [sealed] else [])
      ensures |kept| == |old(kept)| + (if stores then 1 else 0)
    {
      sealed := sequencer.Commit(body);
      Extend(kinds, chain, kept, sealed);
      chain := chain + [sealed];
      if stores {
        kept := kept + [|chain| - 1];
        delivered := delivered + [sealed];
      }
    }

    /** The counters say that everything was emitted exactly when everything is stored. */
    ghost predicate CountersTell()
      reads this, sequencer
    {
      emitted == sequencer.count <==> |kept| == |chain|
    }

    /**
     * What the sink holds verifies against the bus's own head exactly when the sink stored everything that was sealed
     * and no identity repeats, and without an anchor exactly when all it lost is a tail. The counters are right about
     * loss exactly when the sink never raised and lost nothing, or it raised and did lose something.
     */
    lemma LossIsDetected()
      requires Valid()
      ensures Verifies(kinds, delivered) && Head(delivered) == sequencer.prev
        <==> |kept| == |chain| && DistinctIds(chain)
      ensures Verifies(kinds, delivered) <==> Initial(kept) && DistinctIds(delivered)
      ensures CountersTell() <==> if raised == 0 then silent == 0 else silent > 0 || late < raised
    {
      AnchoredIffComplete(kinds, chain, kept);
      AcceptedIffPrefix(kinds, chain, kept);
    }
  }

  /** An emission on which the sink loses nothing and does not raise. */
  const SOUND := Faults(false, false, true, false)

  /**
   * A filter may give every observation the same identity; verification then rejects a chain from which nothing is
   * missing.
   */
  method RepeatedIdentity(kinds: set<Name>, trace: Name, kind: Name, payload: Json) returns (bus: ObservationBus)
    requires kind in kinds
    ensures bus.Valid() && bus.kinds == kinds && bus.delivered == bus.chain && bus.emitted == bus.sequencer.count == 2
    ensures !Verifies(kinds, bus.delivered)
  {
    bus := new ObservationBus(kinds, trace);
    var filter := (b: Body) => Passed(Body(0, b.trace, kind, b.time, SCHEMA_VERSION, b.prev, b.payload));
    var first := bus.Emit(1, kind, 0, payload, filter, SOUND);
    var second := bus.Emit(2, kind, 1, payload, filter, SOUND);
    assert bus.chain[0].body.id == bus.chain[1].body.id;
  }

  /**
   * A sink that drops without raising: the counters say that everything was emitted, and the anchored check rejects.
   */
  method SilentLoss(kinds: set<Name>, trace: Name, kind: Name, payload: Json) returns (bus: ObservationBus)
    requires kind in kinds
    ensures bus.Valid() && bus.kinds == kinds && bus.errors == 0 && bus.emitted == bus.sequencer.count == 1
    ensures Head(bus.delivered) != bus.sequencer.prev
  {
    bus := new ObservationBus(kinds, trace);
    var filter := (b: Body) => Passed(Body(b.id, b.trace, kind, b.time, SCHEMA_VERSION, b.prev, b.payload));
    var r := bus.Emit(1, kind, 0, payload, filter, Faults(false, false, false, false));
  }

  /**
   * A sink that stores and then raises: the counters show a loss, and the anchored check accepts all that was sealed.
   */
  method FalseAlarm(kinds: set<Name>, trace: Name, kind: Name, payload: Json) returns (bus: ObservationBus)
    requires kind in kinds
    ensures bus.Valid() && bus.kinds == kinds && bus.errors == 1 && bus.emitted < bus.sequencer.count
    ensures Verifies(kinds, bus.delivered) && Head(bus.delivered) == bus.sequencer.prev
  {
    bus := new ObservationBus(kinds, trace);
    var filter := (b: Body) => Passed(Body(b.id, b.trace, kind, b.time, SCHEMA_VERSION, b.prev, b.payload));
    var r := bus.Emit(1, kind, 0, payload, filter, Faults(false, false, true, true));
    assert |bus.kept| == 1 by {
      assert |bus.delivered| == 1;
    }
    bus.LossIsDetected();
  }

  function SealedAs(body: Body, trace: Name, prev: Digest): Observation {
    var b := body.(trace := trace, prev := prev);
    Observation(b, Sealed(b))
  }

  lemma Extend(kinds: set<Name>, chain: seq<Observation>, kept: seq<nat>, o: Observation)
    requires Linked(kinds, chain) && Picks(kept, |chain|)
    requires o.body.prev == Head(chain) && o.digest == Sealed(o.body) && o.body.schema == SCHEMA_VERSION
    requires o.body.kind in kinds
    requires chain != [] ==> o.body.trace == chain[0].body.trace
    ensures Linked(kinds, chain + [o])
    ensures Picks(kept, |chain + [o]|) && Pick(chain + [o], kept) == Pick(chain, kept)
    ensures Picks(kept + [|chain|], |chain + [o]|) && Pick(chain + [o], kept + [|chain|]) == Pick(chain, kept) + [o]
  {
    var longer := chain + [o];
    forall i | 0 <= i < |longer|
      ensures LinkedAt(kinds, longer, i)
    {
      assert longer[..i] == chain[..i];
      assert i == |chain| ==> chain[..i] == chain;
      assert i < |chain| ==> LinkedAt(kinds, chain, i);
    }
  }
}
