/** What a run sends, spends and shows: packets, call records and evidence windows (residual/engine.py). */
module Packets {
  import opened Basics
  import opened Tasks
  import opened Intervals

  datatype Placement = Local | Remote

  datatype Provider = Provider(name: Name, placement: Placement)

  datatype Role = LocalRole | ExpertRole

  datatype Mode =
    Residual | ResidualFixed | Cascade | FullCloud | LocalOnly | NoPull | NoFeedback | NoSolvers | Grouped | Cic

  datatype Limits = Limits(
    localRounds: nat,
    expertRounds: nat,
    maxCalls: nat,
    maxExpertCalls: nat,
    maxRemoteBytes: nat,
    maxRequestBytes: nat,
    maxRequestedLines: nat,
    seedLines: nat)

  // ---------------------------------------------------------------- packets

  /** A request packet; the evidence excerpts are kept by artifact. */
  datatype Packet = Packet(
    ids: seq<Name>,
    manifest: set<Name>,
    evidence: map<Name, seq<Span>>,
    dependencies: map<Name, Json>,
    counterexamples: map<Name, string>)

  datatype Sent = Sent(provider: Provider, role: Role, packet: Packet)

  /** Nothing in the packet comes from a private artifact or a private obligation. */
  ghost predicate PublicPacket(t: Task, p: Packet)
    requires Tasks.Accepted(t)
  {
    && (forall a :: a in p.manifest ==> a in t.artifacts && t.artifacts[a].cloud)
    && (forall a :: a in p.evidence ==> a in t.artifacts && t.artifacts[a].cloud)
    && (forall d :: d in p.dependencies ==> d in t.obligations && CloudAllowed(t, d))
  }

  ghost predicate AllExportable(t: Task, ids: seq<Name>)
    requires Tasks.Accepted(t)
  {
    forall n :: n in ids ==> n in t.obligations && CloudAllowed(t, n)
  }

  ghost predicate AllPrivate(t: Task, ids: seq<Name>)
    requires Tasks.Accepted(t)
  {
    forall n :: n in ids ==> n in t.obligations && !CloudAllowed(t, n)
  }

  /** A packet that goes to a remote provider, or that asks for any exportable obligation, is public. */
  ghost predicate Discreet(t: Task, s: Sent)
    requires Tasks.Accepted(t)
  {
    s.provider.placement.Remote? || !AllPrivate(t, s.packet.ids) ==>
      AllExportable(t, s.packet.ids) && PublicPacket(t, s.packet)
  }

  // ---------------------------------------------------------------- replies

  datatype Request = Request(obligation: Name, artifact: Name, start: int, end: int)

  datatype Body = Body(updates: seq<(Name, Json)>, requests: seq<Request>)

  /** What a provider does: it fails, or it answers with text that may or may not be the documented object. */
  datatype Reply = Failure(code: string) | Answer(truncated: bool, body: Option<Body>)

  /** `_parse`: the documented object, about the obligations that were asked for and nothing else. */
  predicate WellFormedBody(body: Body, ids: seq<Name>) {
    && (forall i, j :: 0 <= i < j < |body.updates| ==> body.updates[i].0 != body.updates[j].0)
    && (forall i :: 0 <= i < |body.updates| ==> body.updates[i].0 in ids)
    && |body.requests| <= 8
    && (forall i :: 0 <= i < |body.requests| ==>
        body.requests[i].obligation in ids && body.requests[i].start >= 1 && body.requests[i].end >= 1)
  }

  // ---------------------------------------------------------------- call records and budgets

  datatype Call = Call(role: Role, provider: Provider, ids: seq<Name>, bytes: nat, error: Option<string>)

  function RemoteBytes(calls: seq<Call>): nat {
    if calls == [] then 0 else
      RemoteBytes(calls[..|calls| - 1])
      + if calls[|calls| - 1].provider.placement.Remote? then calls[|calls| - 1].bytes else 0
  }

  function ExpertCalls(calls: seq<Call>): nat {
    if calls == [] then 0 else
      ExpertCalls(calls[..|calls| - 1]) + if calls[|calls| - 1].role.ExpertRole? then 1 else 0
  }

  /** In how many call records an obligation appears. */
  function Appearances(calls: seq<Call>, n: Name): nat {
    if calls == [] then 0 else
      Appearances(calls[..|calls| - 1], n) + if n in calls[|calls| - 1].ids then 1 else 0
  }

  /** The counters equal the sums over the call records, failed calls included, and all limits hold. */
  predicate WithinBudget(limits: Limits, calls: seq<Call>, remoteBytes: nat, expertCalls: nat) {
    && remoteBytes == RemoteBytes(calls) <= limits.maxRemoteBytes
    && expertCalls == ExpertCalls(calls) <= limits.maxExpertCalls
    && |calls| <= limits.maxCalls
    && forall i :: 0 <= i < |calls| ==> calls[i].bytes <= limits.maxRequestBytes
  }

  lemma CallAdded(calls: seq<Call>, c: Call)
    ensures RemoteBytes(calls + [c]) == RemoteBytes(calls) + if c.provider.placement.Remote? then c.bytes else 0
    ensures ExpertCalls(calls + [c]) == ExpertCalls(calls) + if c.role.ExpertRole? then 1 else 0
    ensures forall n :: Appearances(calls + [c], n) == Appearances(calls, n) + if n in c.ids then 1 else 0
  {
    assert (calls + [c])[..|calls|] == calls;
  }

  /** Recording an error on the last call changes no sum: nothing is ever refunded. */
  lemma ErrorRecorded(calls: seq<Call>, c: Call, code: string)
    ensures RemoteBytes(calls + [c.(error := Some(code))]) == RemoteBytes(calls + [c])
    ensures ExpertCalls(calls + [c.(error := Some(code))]) == ExpertCalls(calls + [c])
    ensures forall n :: Appearances(calls + [c.(error := Some(code))], n) == Appearances(calls + [c], n)
  {
    CallAdded(calls, c);
    CallAdded(calls, c.(error := Some(code)));
  }

  // ---------------------------------------------------------------- evidence windows

  datatype Key = Key(provider: Name, obligation: Name, artifact: Name)

  function LineCount(t: Task, a: Name): nat {
    if a in t.artifacts then |t.artifacts[a].lines| else 0
  }

  function WindowOf(windows: map<Key, seq<Span>>, k: Key): seq<Span> {
    if k in windows then windows[k] else []
  }

  predicate InRange(spans: seq<Span>, lines: nat) {
    forall i :: 0 <= i < |spans| ==> 1 <= spans[i].start && spans[i].end <= lines
  }

  /** The lines of an artifact that a window shows. */
  function Shown(spans: seq<Span>, lines: nat): set<int> {
    set x | 1 <= x <= lines && Covers(spans, x)
  }

  function AllLines(lines: nat): set<int> {
    if lines == 0 then {} else AllLines(lines - 1) + {lines}
  }

  lemma {:induction false} AllLinesSpec(lines: nat)
    ensures |AllLines(lines)| == lines && forall x :: x in AllLines(lines) <==> 1 <= x <= lines
  {
    if lines > 0 {
      AllLinesSpec(lines - 1);
    }
  }

  lemma ShownBound(spans: seq<Span>, lines: nat)
    ensures |Shown(spans, lines)| <= lines
  {
    AllLinesSpec(lines);
    SubsetSize(Shown(spans, lines), AllLines(lines));
  }

  /** Every window is a normal form within its artifact, and was granted in at most as many steps as it shows lines. */
  predicate WindowsKept(t: Task, windows: map<Key, seq<Span>>, grants: map<Key, nat>) {
    && grants.Keys == windows.Keys
    && forall k :: k in windows ==>
        && Normal(windows[k]) && InRange(windows[k], LineCount(t, k.artifact))
        && grants[k] <= |Shown(windows[k], LineCount(t, k.artifact))|
  }

  /**
   * However often a provider asks, it is granted lines of an artifact for an obligation at most as often as there are
   * lines.
   */
  lemma GrantsAreBounded(t: Task, windows: map<Key, seq<Span>>, grants: map<Key, nat>, k: Key)
    requires WindowsKept(t, windows, grants) && k in grants
    ensures grants[k] <= LineCount(t, k.artifact)
  {
    ShownBound(windows[k], LineCount(t, k.artifact));
  }

  /** A grant of lines not all shown before shows more of them. */
  lemma GrantShowsMore(before: seq<Span>, request: Span, merged: seq<Span>, lines: nat)
    requires Normal(before) && Normal(merged) && SameCover(merged, before + [request])
    requires 1 <= request.start <= request.end <= lines && merged != before
    ensures |Shown(before, lines)| < |Shown(merged, lines)|
  {
    AlreadySupplied(before, request, merged);
    var x :| request.start <= x <= request.end && !Covers(before, x);
    forall y | y in Shown(before, lines) ensures y in Shown(merged, lines) {
      CoversSnoc(before, request, y);
      assert Covers(before + [request], y);
    }
    CoversSnoc(before, request, x);
    assert Covers(before + [request], x);
    assert x in Shown(merged, lines);
    SubsetSize(Shown(before, lines) + {x}, Shown(merged, lines));
  }

  lemma MergedInRange(spans: seq<Span>, merged: seq<Span>, lines: nat)
    requires Normal(merged) && SameCover(merged, spans) && InRange(spans, lines)
    ensures InRange(merged, lines)
  {
    forall i | 0 <= i < |merged| ensures 1 <= merged[i].start && merged[i].end <= lines {
      assert Covers(merged, merged[i].start) && Covers(merged, merged[i].end);
      assert Covers(spans, merged[i].start) && Covers(spans, merged[i].end);
    }
  }
}
