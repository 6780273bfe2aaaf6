/** One forward pass through the stages, in the gateway's two ways: visiting each stage
    itself, or handing the frame to stage 1 and letting the stages call each other. */
module Routing {
  import opened Basics
  import opened Decimal
  import opened PartitionGraph
  import StageMapLoaders
  import opened StageMap
  import opened StageMapEntries
  import opened StageMapRoundTrip
  import opened Metadata

  datatype Frame = Frame(meta: seq<Pair>, bytes: seq<int>)

  /** A stage's runtime: its state, its id, the request it is handed, and its answer; no
      answer is an exception. */
  type Runtime<!S> = (S, nat, Parsed, seq<int>) -> (S, Option<Reply>)

  /** What a stage was sent, but for the chaining flag. */
  datatype Visit = Visit(stage: nat, request: Parsed, bytes: seq<int>)

  /** The stages' states afterwards, who was visited with what, and the frame returned; no
      frame is an HTTP error. */
  datatype Outcome<S> = Outcome(states: seq<S>, visits: seq<Visit>, frame: Option<Frame>)

  /** The stage that serves a URL. */
  function StageAt(a: MapArgs, url: string, from: nat): (r: Option<nat>)
    ensures r.Some? ==> from <= r.value <= a.numStages && UrlOf(a, r.value) == url
    decreases a.numStages - from
  {
    if from > a.numStages then None
    else if UrlOf(a, from) == url then Some(from)
    else StageAt(a, url, from + 1)
  }

  lemma UrlInjective(a: MapArgs, i: nat, j: nat)
    requires UrlOf(a, i) == UrlOf(a, j)
    ensures i == j
  {
    hide ToString;
    var head, tail := "http://" + (a.stagePrefix + "-"), ":8000/forward-binary";
    assert UrlOf(a, i) == head + ToString(i) + tail && UrlOf(a, j) == head + ToString(j) + tail;
    SameMiddle(head, ToString(i), ToString(j), tail);
    ToStringInjective(i, j);
  }

  lemma SameMiddle(head: string, x: string, y: string, tail: string)
    requires head + x + tail == head + y + tail
    ensures x == y
  {
    assert |x| == |y|;
    assert x == (head + x + tail)[|head|..|head| + |x|];
    assert y == (head + y + tail)[|head|..|head| + |y|];
  }

  lemma {:induction false} StageAtItsUrl(a: MapArgs, id: nat, from: nat)
    requires from <= id <= a.numStages
    ensures StageAt(a, UrlOf(a, id), from) == Some(id)
    decreases id - from
  {
    hide UrlOf;
    if from == id {
    } else {
      if UrlOf(a, from) == UrlOf(a, id) { UrlInjective(a, from, id); }
      StageAtItsUrl(a, id, from + 1);
    }
  }

  /** A stage's handler of a frame. */
  function Handle<S>(a: MapArgs, rt: Runtime<S>, nm: Numerics, states: seq<S>, id: nat, frame: Frame): (o: Outcome<S>)
    requires Counts(a) && |states| == a.numStages && 1 <= id <= a.numStages
    ensures |o.states| == a.numStages
    decreases a.numStages - id
  {
    var p := Parse(nm, frame.meta);
    var (after, reply) := rt(states[id - 1], id, p, frame.bytes);
    var next := states[id - 1 := after];
    var visit := Visit(id, p.(chaining := false), frame.bytes);
    match reply
    case None => Outcome(next, [visit], None)
    case Some(r) =>
      var output := Frame(StageMeta(nm, p, r), r.bytes);
      if p.chaining && !r.isFinal && NextUrl(a, id) != "" then
        StageAfter(a, id);
        match StageAt(a, NextUrl(a, id), 1)
        case None => Outcome(next, [visit], None)
        case Some(target) =>
          var o := Handle(a, rt, nm, next, target, output);
          Outcome(o.states, [visit] + o.visits, Merged(o.frame))
      else Outcome(next, [visit], Some(output))
  }

  lemma StageAfter(a: MapArgs, id: nat)
    requires 1 <= id <= a.numStages
    ensures NextUrl(a, id) != "" <==> id < a.numStages
    ensures NextUrl(a, id) != "" ==> StageAt(a, NextUrl(a, id), 1) == Some(id + 1)
  {
    if id < a.numStages {
      UrlIsPlain(a, id + 1);
      StageAtItsUrl(a, id + 1, 1);
    }
  }

  const CHAIN_METRICS := ["chain_metrics", "compute_ms", "rpc_wall_ms", "true_comm_ms", "transport_payload_bytes",
    "stage_count", "chain_compute_time_ms", "chain_rpc_wall_time_ms", "chain_true_comm_ms",
    "chain_transport_payload_bytes", "chain_stage_count", "chain_hops"]

  function Merged(f: Option<Frame>): Option<Frame> {
    match f case None => None case Some(d) => Some(d.(meta := MergeChainMetrics(d.meta, CHAIN_METRICS)))
  }

  predicate IsTerminalPartition(p: Partition) {
    p.nextStageUrl == "" || p.components.lmHead
  }

  /** The URL at which the gateway calls partition index; none is an exception. */
  function StageUrlForPartition(firstUrl: string, ps: seq<Partition>, index: nat): Option<string> {
    if index == 0 then Some(firstUrl)
    else if index >= |ps| || ps[index - 1].nextStageUrl == "" then None
    else Some(ps[index - 1].nextStageUrl)
  }

  /** One call from the gateway to a URL. */
  function CallUrl<S>(a: MapArgs, rt: Runtime<S>, nm: Numerics, states: seq<S>, url: Option<string>,
      frame: Frame): (o: Outcome<S>)
    requires Counts(a) && |states| == a.numStages
    ensures |o.states| == a.numStages
  {
    if url.None? then Outcome(states, [], None)
    else
      match StageAt(a, url.value, 1)
      case None => Outcome(states, [], None)
      case Some(id) => Handle(a, rt, nm, states, id, frame)
  }

  /** The gateway's loop, from partition index on. */
  function Hub<S>(a: MapArgs, rt: Runtime<S>, nm: Numerics, states: seq<S>, ps: seq<Partition>, index: nat,
      frame: Frame): (o: Outcome<S>)
    requires Counts(a) && |states| == a.numStages && index <= |ps|
    ensures |o.states| == a.numStages
    decreases |ps| - index
  {
    if index == |ps| then Outcome(states, [], None)
    else
      var o := CallUrl(a, rt, nm, states, StageUrlForPartition(UrlOf(a, 1), ps, index), frame);
      if o.frame.None? || IsTerminalPartition(ps[index]) then o
      else
        var rest := Hub(a, rt, nm, o.states, ps, index + 1, o.frame.value);
        Outcome(rest.states, o.visits + rest.visits, rest.frame)
  }

  /** The gateway's forward pass: one call to stage 1 in chain mode, its own loop otherwise. */
  method ForwardThroughPartitionGraph<S>(
    a: MapArgs, rt: Runtime<S>, nm: Numerics, states: seq<S>, ps: seq<Partition>, chaining: bool, frame: Frame)
    returns (o: Outcome<S>)
    requires Counts(a) && |states| == a.numStages
    ensures o == Forward(a, rt, nm, states, ps, chaining, frame)
  {
    hide Handle, StageAt;
    if ps == [] { return Outcome(states, [], None); }
    if chaining {
      o := CallUrl(a, rt, nm, states, Some(UrlOf(a, 1)), frame);
      return o;
    }
    var current, now, visits := frame, states, [];
    for i := 0 to |ps|
      invariant |now| == a.numStages
      invariant var rest := Hub(a, rt, nm, now, ps, i, current);
        Hub(a, rt, nm, states, ps, 0, frame) == Outcome(rest.states, visits + rest.visits, rest.frame)
    {
      var call := CallUrl(a, rt, nm, now, StageUrlForPartition(UrlOf(a, 1), ps, i), current);
      ghost var rest := Hub(a, rt, nm, now, ps, i, current);
      if call.frame.None? || IsTerminalPartition(ps[i]) {
        return Outcome(call.states, visits + call.visits, call.frame);
      }
      ghost var more := Hub(a, rt, nm, call.states, ps, i + 1, call.frame.value);
      assert visits + (call.visits + more.visits) == visits + call.visits + more.visits;
      now, visits, current := call.states, visits + call.visits, call.frame.value;
    }
    assert visits + [] == visits;
    return Outcome(now, visits, None);
  }

  function Forward<S>(
    a: MapArgs, rt: Runtime<S>, nm: Numerics, states: seq<S>, ps: seq<Partition>, chaining: bool, frame: Frame): (o: Outcome<S>)
    requires Counts(a) && |states| == a.numStages
    ensures |o.states| == a.numStages
  {
    if ps == [] then Outcome(states, [], None)
    else if chaining then CallUrl(a, rt, nm, states, Some(UrlOf(a, 1)), frame)
    else Hub(a, rt, nm, states, ps, 0, frame)
  }

  // ---- the two ways do the same ----

  ghost predicate IgnoresChaining<S(!new)>(rt: Runtime<S>) {
    forall s: S, id: nat, p: Parsed, bytes: seq<int>, on: bool :: rt(s, id, p.(chaining := on), bytes) == rt(s, id, p, bytes)
  }

  /** Frames that differ at most in the chaining flag, for any reader. */
  predicate Alike(nm: Numerics, f: Frame, g: Frame) {
    f.bytes == g.bytes && Parse(nm, f.meta).(chaining := false) == Parse(nm, g.meta).(chaining := false)
  }

  /** No stage before the last answers as the final one, along the gateway's own loop. */
  predicate NoEarlyFinal<S>(a: MapArgs, rt: Runtime<S>, nm: Numerics, states: seq<S>, id: nat, frame: Frame)
    requires Counts(a) && |states| == a.numStages && 1 <= id <= a.numStages
    decreases a.numStages - id
  {
    var p := Parse(nm, frame.meta);
    var (after, reply) := rt(states[id - 1], id, p, frame.bytes);
    id == a.numStages || reply.None?
    || (!reply.value.isFinal
        && NoEarlyFinal(a, rt, nm, states[id - 1 := after], id + 1, Frame(StageMeta(nm, p, reply.value), reply.value.bytes)))
  }

  lemma AlikeOnward(nm: Numerics, p: Parsed, q: Parsed, r: Reply)
    requires p.(chaining := false) == q.(chaining := false)
    ensures Alike(nm, Frame(StageMeta(nm, p, r), r.bytes), Frame(StageMeta(nm, q, r), r.bytes))
    ensures Parse(nm, StageMeta(nm, q, r)).chaining == q.chaining
  {
    StageMetaIsRead(nm, p, r);
    StageMetaIsRead(nm, q, r);
    hide Parse, StageMeta, First;
  }

  lemma MergedAlike(nm: Numerics, f: Frame, g: Frame)
    requires Alike(nm, f, g)
    ensures Alike(nm, f, g.(meta := MergeChainMetrics(g.meta, CHAIN_METRICS)))
  {
    MergeKeepsMeaning(nm, g.meta, CHAIN_METRICS);
    hide Parse, MergeChainMetrics;
  }

  ghost predicate SameOutcome<S(!new)>(nm: Numerics, hub: Outcome<S>, chain: Outcome<S>) {
    && hub.states == chain.states
    && hub.visits == chain.visits
    && (hub.frame.Some? <==> chain.frame.Some?)
    && (hub.frame.Some? ==> Alike(nm, hub.frame.value, chain.frame.value))
  }

  lemma ExpectedNext(a: MapArgs, i: nat)
    requires Counts(a) && i < a.numStages
    ensures |Expected(a, a.numStages)| == a.numStages
    ensures Expected(a, a.numStages)[i].nextStageUrl == NextUrl(a, i + 1)
  {}

  /** The gateway calls partition index at the URL of stage index + 1. */
  lemma UrlForIndex(a: MapArgs, index: nat)
    requires Counts(a) && index < a.numStages
    ensures StageUrlForPartition(UrlOf(a, 1), Expected(a, a.numStages), index) == Some(UrlOf(a, index + 1))
  {
    if index > 0 {
      hide Expected, UrlOf;
      ExpectedNext(a, index - 1);
      UrlIsPlain(a, index + 1);
    }
  }

  lemma TerminalIsLast(a: MapArgs, index: nat)
    requires Counts(a) && index < a.numStages
    ensures IsTerminalPartition(Expected(a, a.numStages)[index]) <==> index + 1 == a.numStages
    ensures |Expected(a, a.numStages)| == a.numStages
  {
    hide Expected, Reading, UrlOf, StageMapLoaders.DefaultPartitionId;
    ExpectedRoles(a, index);
    ExpectedNext(a, index);
    StageAfter(a, index + 1);
  }

  lemma HubCall<S(!new)>(a: MapArgs, rt: Runtime<S>, nm: Numerics, states: seq<S>, index: nat, frame: Frame)
    requires Counts(a) && |states| == a.numStages && index < a.numStages
    ensures CallUrl(a, rt, nm, states, StageUrlForPartition(UrlOf(a, 1), Expected(a, a.numStages), index), frame)
         == Handle(a, rt, nm, states, index + 1, frame)
  {
    hide Handle, Expected, UrlOf, StageAt, StageUrlForPartition;
    UrlForIndex(a, index);
    StageAtItsUrl(a, index + 1, 1);
  }

  /** What a stage does on its own with a frame. */
  function Alone<S>(a: MapArgs, rt: Runtime<S>, nm: Numerics, states: seq<S>, id: nat, frame: Frame): (o: Outcome<S>)
    requires Counts(a) && |states| == a.numStages && 1 <= id <= a.numStages
    ensures |o.states| == a.numStages
  {
    var p := Parse(nm, frame.meta);
    var (after, reply) := rt(states[id - 1], id, p, frame.bytes);
    Outcome(states[id - 1 := after], [Visit(id, p.(chaining := false), frame.bytes)],
      match reply case None => None case Some(r) => Some(Frame(StageMeta(nm, p, r), r.bytes)))
  }

  /** A stage calls the next one exactly for a flagged frame, an answer that is not final,
      and a stage that is not the last. */
  lemma HandleUnfolds<S(!new)>(a: MapArgs, rt: Runtime<S>, nm: Numerics, states: seq<S>, id: nat, frame: Frame)
    requires Counts(a) && |states| == a.numStages && 1 <= id <= a.numStages
    ensures var o := Alone(a, rt, nm, states, id, frame);
      var reply := rt(states[id - 1], id, Parse(nm, frame.meta), frame.bytes).1;
      if Parse(nm, frame.meta).chaining && reply.Some? && !reply.value.isFinal && id < a.numStages then
        var down := Handle(a, rt, nm, o.states, id + 1, o.frame.value);
        Handle(a, rt, nm, states, id, frame) == Outcome(down.states, o.visits + down.visits, Merged(down.frame))
      else Handle(a, rt, nm, states, id, frame) == o
  {
    hide Parse, StageMeta, UrlOf, NextUrl, StageAt, Merged;
    StageAfter(a, id);
  }

  /** One turn of the gateway's loop. */
  lemma HubTurn<S>(a: MapArgs, rt: Runtime<S>, nm: Numerics, states: seq<S>, ps: seq<Partition>, index: nat, frame: Frame)
    requires Counts(a) && |states| == a.numStages && index < |ps|
    ensures var o := CallUrl(a, rt, nm, states, StageUrlForPartition(UrlOf(a, 1), ps, index), frame);
      Hub(a, rt, nm, states, ps, index, frame) ==
        if o.frame.None? || IsTerminalPartition(ps[index]) then o
        else
          var rest := Hub(a, rt, nm, o.states, ps, index + 1, o.frame.value);
          Outcome(rest.states, o.visits + rest.visits, rest.frame)
  {
    hide CallUrl, StageUrlForPartition, UrlOf, IsTerminalPartition;
  }

  lemma UnflaggedIsAlone<S>(a: MapArgs, rt: Runtime<S>, nm: Numerics, states: seq<S>, id: nat, frame: Frame)
    requires Counts(a) && |states| == a.numStages && 1 <= id <= a.numStages && !Parse(nm, frame.meta).chaining
    ensures Handle(a, rt, nm, states, id, frame) == Alone(a, rt, nm, states, id, frame)
  {
    hide Parse, StageMeta, UrlOf, NextUrl, StageAt, Merged;
  }

  lemma HubUnfolds<S(!new)>(a: MapArgs, rt: Runtime<S>, nm: Numerics, states: seq<S>, id: nat, frame: Frame)
    requires Counts(a) && |states| == a.numStages && 1 <= id <= a.numStages && !Parse(nm, frame.meta).chaining
    ensures var o := Alone(a, rt, nm, states, id, frame);
      var ps := Expected(a, a.numStages);
      |ps| == a.numStages &&
      Hub(a, rt, nm, states, ps, id - 1, frame) ==
        if o.frame.None? || id == a.numStages then o
        else
          var rest := Hub(a, rt, nm, o.states, ps, id, o.frame.value);
          Outcome(rest.states, o.visits + rest.visits, rest.frame)
  {
    hide *;
    TerminalIsLast(a, id - 1);
    HubCall(a, rt, nm, states, id - 1, frame);
    UnflaggedIsAlone(a, rt, nm, states, id, frame);
    HubTurn(a, rt, nm, states, Expected(a, a.numStages), id - 1, frame);
  }

  lemma SameReply<S(!new)>(rt: Runtime<S>, nm: Numerics, state: S, id: nat, f: Frame, g: Frame)
    requires IgnoresChaining(rt) && Alike(nm, f, g)
    ensures rt(state, id, Parse(nm, f.meta), f.bytes) == rt(state, id, Parse(nm, g.meta), g.bytes)
  {
    var p, q := Parse(nm, f.meta), Parse(nm, g.meta);
    hide Parse;
    assert q == p.(chaining := false).(chaining := q.chaining);
    assert p == p.(chaining := false).(chaining := p.chaining);
  }

  lemma AloneAlike<S(!new)>(a: MapArgs, rt: Runtime<S>, nm: Numerics, states: seq<S>, id: nat, f: Frame, g: Frame)
    requires Counts(a) && |states| == a.numStages && 1 <= id <= a.numStages && IgnoresChaining(rt)
    requires Alike(nm, f, g) && !Parse(nm, f.meta).chaining && Parse(nm, g.meta).chaining
    ensures var p, q := Alone(a, rt, nm, states, id, f), Alone(a, rt, nm, states, id, g);
      && p.states == q.states && p.visits == q.visits
      && (p.frame.Some? <==> q.frame.Some?)
      && (p.frame.Some? ==> Alike(nm, p.frame.value, q.frame.value))
      && (p.frame.Some? ==> !Parse(nm, p.frame.value.meta).chaining && Parse(nm, q.frame.value.meta).chaining)
  {
    SameReply(rt, nm, states[id - 1], id, f, g);
    var p, q := Parse(nm, f.meta), Parse(nm, g.meta);
    assert f.bytes == g.bytes && p.(chaining := false) == q.(chaining := false);
    hide Parse, StageMeta, Alike, IgnoresChaining;
    var reply := rt(states[id - 1], id, p, f.bytes).1;
    if reply.Some? {
      AlikeOnward(nm, p, q, reply.value);
      AlikeOnward(nm, p, p, reply.value);
    }
  }

  lemma Composed<S(!new)>(nm: Numerics, visits: seq<Visit>, rest: Outcome<S>, down: Outcome<S>)
    requires SameOutcome(nm, rest, down)
    ensures SameOutcome(nm, Outcome(rest.states, visits + rest.visits, rest.frame),
                            Outcome(down.states, visits + down.visits, Merged(down.frame)))
  {
    if down.frame.Some? { MergedAlike(nm, rest.frame.value, down.frame.value); }
    hide Alike, MergeChainMetrics, CHAIN_METRICS;
  }

  /** From stage id on, the hub's loop and the chain visit the same stages with the same
      requests and come to the same end, as long as no stage before the last answers as
      the final one. */
  lemma {:induction false} HubIsChainFrom<S(!new)>(a: MapArgs, rt: Runtime<S>, nm: Numerics, states: seq<S>,
      id: nat, f: Frame, g: Frame)
    requires Counts(a) && |states| == a.numStages && 1 <= id <= a.numStages && IgnoresChaining(rt)
    requires Alike(nm, f, g) && !Parse(nm, f.meta).chaining && Parse(nm, g.meta).chaining
    requires NoEarlyFinal(a, rt, nm, states, id, f)
    ensures |Expected(a, a.numStages)| == a.numStages
    ensures SameOutcome(nm, Hub(a, rt, nm, states, Expected(a, a.numStages), id - 1, f), Handle(a, rt, nm, states, id, g))
    decreases a.numStages - id
  {
    hide Parse, Expected, StageMeta, Hub, Handle, Alone, Alike, NoEarlyFinal, Merged, IgnoresChaining;
    AloneAlike(a, rt, nm, states, id, f, g);
    var p, q := Alone(a, rt, nm, states, id, f), Alone(a, rt, nm, states, id, g);
    HubUnfolds(a, rt, nm, states, id, f);
    if p.frame.None? || id == a.numStages {
      assert Handle(a, rt, nm, states, id, g) == q by {
        AloneReply(a, rt, nm, states, id, g);
        HandleUnfolds(a, rt, nm, states, id, g);
      }
    } else {
      ChainGoesOn(a, rt, nm, states, id, f, g);
      HubIsChainFrom(a, rt, nm, p.states, id + 1, p.frame.value, q.frame.value);
      var down := Handle(a, rt, nm, p.states, id + 1, q.frame.value);
      var rest := Hub(a, rt, nm, p.states, Expected(a, a.numStages), id, p.frame.value);
      Composed(nm, p.visits, rest, down);
    }
  }

  lemma AloneReply<S(!new)>(a: MapArgs, rt: Runtime<S>, nm: Numerics, states: seq<S>, id: nat, g: Frame)
    requires Counts(a) && |states| == a.numStages && 1 <= id <= a.numStages
    ensures Alone(a, rt, nm, states, id, g).frame.Some? <==> rt(states[id - 1], id, Parse(nm, g.meta), g.bytes).1.Some?
  {
    hide Parse, StageMeta;
  }

  /** Without an early final answer the chain calls the next stage, and there is none
      further on. */
  lemma ChainGoesOn<S(!new)>(a: MapArgs, rt: Runtime<S>, nm: Numerics, states: seq<S>, id: nat, f: Frame, g: Frame)
    requires Counts(a) && |states| == a.numStages && 1 <= id < a.numStages && IgnoresChaining(rt)
    requires Alike(nm, f, g) && Parse(nm, g.meta).chaining
    requires NoEarlyFinal(a, rt, nm, states, id, f)
    requires Alone(a, rt, nm, states, id, f).frame.Some? && Alone(a, rt, nm, states, id, g).frame.Some?
    ensures var p, q := Alone(a, rt, nm, states, id, f), Alone(a, rt, nm, states, id, g);
      && NoEarlyFinal(a, rt, nm, p.states, id + 1, p.frame.value)
      && var down := Handle(a, rt, nm, q.states, id + 1, q.frame.value);
         Handle(a, rt, nm, states, id, g) == Outcome(down.states, q.visits + down.visits, Merged(down.frame))
  {
    SameReply(rt, nm, states[id - 1], id, f, g);
    AloneReply(a, rt, nm, states, id, g);
    AloneReply(a, rt, nm, states, id, f);
    EarlyFinalUnfolds(a, rt, nm, states, id, f);
    HandleUnfolds(a, rt, nm, states, id, g);
    hide Parse, StageMeta, Handle, Alone, Alike, NoEarlyFinal, Merged, IgnoresChaining;
  }

  lemma EarlyFinalUnfolds<S(!new)>(a: MapArgs, rt: Runtime<S>, nm: Numerics, states: seq<S>, id: nat, f: Frame)
    requires Counts(a) && |states| == a.numStages && 1 <= id < a.numStages
    ensures var o := Alone(a, rt, nm, states, id, f);
      var reply := rt(states[id - 1], id, Parse(nm, f.meta), f.bytes).1;
      NoEarlyFinal(a, rt, nm, states, id, f) <==>
        reply.None? || (!reply.value.isFinal && NoEarlyFinal(a, rt, nm, o.states, id + 1, o.frame.value))
  {
    hide Parse, StageMeta;
  }

  lemma HubVisitsSomebody<S(!new)>(a: MapArgs, rt: Runtime<S>, nm: Numerics, states: seq<S>, id: nat, f: Frame)
    requires Counts(a) && |states| == a.numStages && 1 <= id <= a.numStages && !Parse(nm, f.meta).chaining
    ensures |Expected(a, a.numStages)| == a.numStages
    ensures |Hub(a, rt, nm, states, Expected(a, a.numStages), id - 1, f).visits| >= 1
  {
    HubUnfolds(a, rt, nm, states, id, f);
    hide Hub, Expected, Parse, StageMeta;
  }

  /** A stage before the last answers as the final one: the chain ends here. */
  lemma ChainEndsHere<S(!new)>(a: MapArgs, rt: Runtime<S>, nm: Numerics, states: seq<S>, id: nat, f: Frame, g: Frame)
    requires Counts(a) && |states| == a.numStages && 1 <= id < a.numStages && IgnoresChaining(rt)
    requires Alike(nm, f, g) && !Parse(nm, f.meta).chaining && Parse(nm, g.meta).chaining
    requires var reply := rt(states[id - 1], id, Parse(nm, f.meta), f.bytes).1; reply.Some? && reply.value.isFinal
    ensures |Expected(a, a.numStages)| == a.numStages
    ensures |Handle(a, rt, nm, states, id, g).visits| < |Hub(a, rt, nm, states, Expected(a, a.numStages), id - 1, f).visits|
  {
    hide Parse, Expected, StageMeta, Hub, Handle, Alone, Alike, Merged, IgnoresChaining;
    var p, q := Alone(a, rt, nm, states, id, f), Alone(a, rt, nm, states, id, g);
    AloneAlike(a, rt, nm, states, id, f, g);
    AloneReply(a, rt, nm, states, id, f);
    HubUnfolds(a, rt, nm, states, id, f);
    HubVisitsSomebody(a, rt, nm, p.states, id + 1, p.frame.value);
    assert Handle(a, rt, nm, states, id, g) == q by {
      SameReply(rt, nm, states[id - 1], id, f, g);
      HandleUnfolds(a, rt, nm, states, id, g);
    }
  }

  /** An early final answer ends the chain, but not the gateway's own loop. */
  lemma {:induction false} EarlyFinalCutsChain<S(!new)>(a: MapArgs, rt: Runtime<S>, nm: Numerics,
      states: seq<S>, id: nat, f: Frame, g: Frame)
    requires Counts(a) && |states| == a.numStages && 1 <= id <= a.numStages && IgnoresChaining(rt)
    requires Alike(nm, f, g) && !Parse(nm, f.meta).chaining && Parse(nm, g.meta).chaining
    requires !NoEarlyFinal(a, rt, nm, states, id, f)
    ensures |Expected(a, a.numStages)| == a.numStages
    ensures |Handle(a, rt, nm, states, id, g).visits| < |Hub(a, rt, nm, states, Expected(a, a.numStages), id - 1, f).visits|
    decreases a.numStages - id
  {
    hide *;
    EarlyFinalBeforeEnd(a, rt, nm, states, id, f);
    if rt(states[id - 1], id, Parse(nm, f.meta), f.bytes).1.value.isFinal {
      ChainEndsHere(a, rt, nm, states, id, f, g);
    } else {
      var p, q := Alone(a, rt, nm, states, id, f), Alone(a, rt, nm, states, id, g);
      EarlyFinalLater(a, rt, nm, states, id, f, g);
      EarlyFinalCutsChain(a, rt, nm, p.states, id + 1, p.frame.value, q.frame.value);
      StillShorter(a, rt, nm, states, id, f, g);
    }
  }

  lemma StillShorter<S(!new)>(a: MapArgs, rt: Runtime<S>, nm: Numerics, states: seq<S>, id: nat, f: Frame, g: Frame)
    requires Counts(a) && |states| == a.numStages && 1 <= id < a.numStages && |Expected(a, a.numStages)| == a.numStages
    requires !Parse(nm, f.meta).chaining
    requires var p, q := Alone(a, rt, nm, states, id, f), Alone(a, rt, nm, states, id, g);
      && p.states == q.states && |p.visits| == |q.visits| && p.frame.Some? && q.frame.Some?
      && var down := Handle(a, rt, nm, p.states, id + 1, q.frame.value);
         Handle(a, rt, nm, states, id, g) == Outcome(down.states, q.visits + down.visits, Merged(down.frame))
         && |down.visits| < |Hub(a, rt, nm, p.states, Expected(a, a.numStages), id, p.frame.value).visits|
    ensures |Handle(a, rt, nm, states, id, g).visits| < |Hub(a, rt, nm, states, Expected(a, a.numStages), id - 1, f).visits|
  {
    HubUnfolds(a, rt, nm, states, id, f);
    hide Parse, Expected, StageMeta, Hub, Handle, Alone, Merged;
  }

  lemma EarlyFinalLater<S(!new)>(a: MapArgs, rt: Runtime<S>, nm: Numerics, states: seq<S>, id: nat, f: Frame, g: Frame)
    requires Counts(a) && |states| == a.numStages && 1 <= id < a.numStages && IgnoresChaining(rt)
    requires Alike(nm, f, g) && !Parse(nm, f.meta).chaining && Parse(nm, g.meta).chaining
    requires !NoEarlyFinal(a, rt, nm, states, id, f)
    requires var reply := rt(states[id - 1], id, Parse(nm, f.meta), f.bytes).1; reply.Some? && !reply.value.isFinal
    ensures var p, q := Alone(a, rt, nm, states, id, f), Alone(a, rt, nm, states, id, g);
      && p.frame.Some? && q.frame.Some?
      && p.states == q.states && |p.visits| == |q.visits|
      && Alike(nm, p.frame.value, q.frame.value)
      && !Parse(nm, p.frame.value.meta).chaining && Parse(nm, q.frame.value.meta).chaining
      && !NoEarlyFinal(a, rt, nm, p.states, id + 1, p.frame.value)
      && var down := Handle(a, rt, nm, p.states, id + 1, q.frame.value);
         Handle(a, rt, nm, states, id, g) == Outcome(down.states, q.visits + down.visits, Merged(down.frame))
  {
    SameReply(rt, nm, states[id - 1], id, f, g);
    AloneReply(a, rt, nm, states, id, f);
    AloneReply(a, rt, nm, states, id, g);
    AloneAlike(a, rt, nm, states, id, f, g);
    EarlyFinalUnfolds(a, rt, nm, states, id, f);
    HandleUnfolds(a, rt, nm, states, id, g);
    hide Parse, StageMeta, Handle, Alone, Alike, NoEarlyFinal, Merged, IgnoresChaining;
  }

  lemma EarlyFinalBeforeEnd<S(!new)>(a: MapArgs, rt: Runtime<S>, nm: Numerics, states: seq<S>, id: nat, f: Frame)
    requires Counts(a) && |states| == a.numStages && 1 <= id <= a.numStages
    requires !NoEarlyFinal(a, rt, nm, states, id, f)
    ensures id < a.numStages && rt(states[id - 1], id, Parse(nm, f.meta), f.bytes).1.Some?
  {
    hide Parse, StageMeta;
  }

  /** The gateway's request frame, as it prints it. */
  function RequestFrame(nm: Numerics, s: Settings, c: Call, shape: seq<int>, bytes: seq<int>): Frame {
    Frame(RequestMeta(nm, s, c, shape), bytes)
  }

  lemma RequestFramesAlike(nm: Numerics, s: Settings, c: Call, shape: seq<int>, bytes: seq<int>)
    ensures var f, g := RequestFrame(nm, s.(chaining := false), c, shape, bytes), RequestFrame(nm, s.(chaining := true), c, shape, bytes);
      Alike(nm, f, g) && !Parse(nm, f.meta).chaining && Parse(nm, g.meta).chaining
  {
    RequestMetaIsRead(nm, s.(chaining := false), c, shape);
    RequestMetaIsRead(nm, s.(chaining := true), c, shape);
    hide Parse, RequestMeta;
  }

  lemma ForwardStarts<S(!new)>(a: MapArgs, rt: Runtime<S>, nm: Numerics, states: seq<S>, f: Frame)
    requires Counts(a) && |states| == a.numStages
    ensures |Expected(a, a.numStages)| == a.numStages
    ensures Forward(a, rt, nm, states, Expected(a, a.numStages), true, f) == Handle(a, rt, nm, states, 1, f)
    ensures Forward(a, rt, nm, states, Expected(a, a.numStages), false, f)
         == Hub(a, rt, nm, states, Expected(a, a.numStages), 0, f)
  {
    ExpectedNext(a, 0);
    StageAtItsUrl(a, 1, 1);
    hide Expected, Hub, Handle, UrlOf;
  }

  /** For every printed stage map, chain mode and hub mode hand every stage the same request
      and bytes, leave every stage in the same state and return the same frame, exactly
      when no stage before the last answers as the final one. */
  lemma HubIsChain<S(!new)>(a: MapArgs, rt: Runtime<S>, nm: Numerics, states: seq<S>, s: Settings, c: Call,
      shape: seq<int>, bytes: seq<int>)
    requires Counts(a) && |states| == a.numStages && IgnoresChaining(rt)
    ensures var ps := Expected(a, a.numStages);
      var f, g := RequestFrame(nm, s.(chaining := false), c, shape, bytes), RequestFrame(nm, s.(chaining := true), c, shape, bytes);
      NoEarlyFinal(a, rt, nm, states, 1, f) <==>
        SameOutcome(nm, Forward(a, rt, nm, states, ps, false, f), Forward(a, rt, nm, states, ps, true, g))
  {
    var f, g := RequestFrame(nm, s.(chaining := false), c, shape, bytes), RequestFrame(nm, s.(chaining := true), c, shape, bytes);
    RequestFramesAlike(nm, s, c, shape, bytes);
    hide Parse, Expected, Forward, RequestFrame, Handle, Hub, Alike, NoEarlyFinal, IgnoresChaining;
    ForwardStarts(a, rt, nm, states, f);
    ForwardStarts(a, rt, nm, states, g);
    if NoEarlyFinal(a, rt, nm, states, 1, f) {
      HubIsChainFrom(a, rt, nm, states, 1, f, g);
    } else {
      EarlyFinalCutsChain(a, rt, nm, states, 1, f, g);
    }
  }

  // ---- what every stage is told ----

  /** The request as this stage should get it: the call, the mode and the controls of the
      gateway's request. */
  predicate Faithful(request: Parsed, c: Call, sampling: Sampling) {
    request.call.(nextToken := None) == c.(nextToken := None) && request.sampling == sampling
  }

  /** The backends' own metadata never names a control that the request leaves open. */
  ghost predicate QuietBackends<S(!new)>(rt: Runtime<S>, s: Settings) {
    forall state: S, id: nat, p: Parsed, bytes: seq<int> ::
      var reply := rt(state, id, p, bytes).1;
      reply.Some? ==>
        && (s.topP.Some? || First(reply.value.backend, TopP).None?)
        && (s.seed.Some? || First(reply.value.backend, Seed).None?)
  }

  lemma FaithfulOnward<S(!new)>(a: MapArgs, rt: Runtime<S>, nm: Numerics, states: seq<S>, id: nat, f: Frame,
      s: Settings, c: Call)
    requires Counts(a) && |states| == a.numStages && 1 <= id <= a.numStages
    requires Settles(nm, s) && QuietBackends(rt, s)
    requires Faithful(Parse(nm, f.meta), c, SettingsSampling(nm, s))
    ensures var o := Alone(a, rt, nm, states, id, f);
      && |o.visits| == 1 && o.visits[0].stage == id && Faithful(o.visits[0].request, c, SettingsSampling(nm, s))
      && (o.frame.Some? ==> Faithful(Parse(nm, o.frame.value.meta), c, SettingsSampling(nm, s)))
      && (o.frame.Some? ==> Parse(nm, o.frame.value.meta).chaining == Parse(nm, f.meta).chaining)
  {
    var p := Parse(nm, f.meta);
    var reply := rt(states[id - 1], id, p, f.bytes).1;
    if reply.Some? {
      StageMetaIsRead(nm, p, reply.value);
      ControlsRideAlong(nm, s, p, reply.value);
    }
    hide Parse, StageMeta, First, SettingsSampling, OnwardSampling;
  }

  /** Visits to the stages from `id` on, in order, each told the gateway's request. */
  predicate ToldInOrder(visits: seq<Visit>, id: nat, c: Call, sampling: Sampling) {
    forall i :: 0 <= i < |visits| ==> visits[i].stage == id + i && Faithful(visits[i].request, c, sampling)
  }

  lemma OneMoreTold(first: seq<Visit>, rest: seq<Visit>, id: nat, c: Call, sampling: Sampling)
    requires |first| == 1 && ToldInOrder(first, id, c, sampling) && ToldInOrder(rest, id + 1, c, sampling)
    ensures ToldInOrder(first + rest, id, c, sampling) && |first + rest| == 1 + |rest|
  {
    hide Faithful;
    forall i | 0 <= i < |first + rest|
      ensures (first + rest)[i].stage == id + i && Faithful((first + rest)[i].request, c, sampling)
    {
      assert (first + rest)[i] == if i == 0 then first[0] else rest[i - 1];
    }
  }

  lemma {:induction false} HubTells<S(!new)>(a: MapArgs, rt: Runtime<S>, nm: Numerics,
      states: seq<S>, id: nat, f: Frame, s: Settings, c: Call)
    requires Counts(a) && |states| == a.numStages && 1 <= id <= a.numStages
    requires Settles(nm, s) && QuietBackends(rt, s) && !Parse(nm, f.meta).chaining
    requires Faithful(Parse(nm, f.meta), c, SettingsSampling(nm, s))
    ensures |Expected(a, a.numStages)| == a.numStages
    ensures var o := Hub(a, rt, nm, states, Expected(a, a.numStages), id - 1, f);
      && ToldInOrder(o.visits, id, c, SettingsSampling(nm, s)) && 1 <= |o.visits| <= a.numStages + 1 - id
      && (o.frame.Some? ==> |o.visits| == a.numStages + 1 - id)
    decreases a.numStages - id
  {
    hide Parse, Expected, Hub, Handle, Alone, SettingsSampling, Faithful, QuietBackends;
    FaithfulOnward(a, rt, nm, states, id, f, s, c);
    HubUnfolds(a, rt, nm, states, id, f);
    var o := Alone(a, rt, nm, states, id, f);
    if o.frame.Some? && id < a.numStages {
      HubTells(a, rt, nm, o.states, id + 1, o.frame.value, s, c);
      var rest := Hub(a, rt, nm, o.states, Expected(a, a.numStages), id, o.frame.value);
      OneMoreTold(o.visits, rest.visits, id, c, SettingsSampling(nm, s));
    }
  }

  lemma {:induction false} ChainTells<S(!new)>(a: MapArgs, rt: Runtime<S>, nm: Numerics,
      states: seq<S>, id: nat, f: Frame, s: Settings, c: Call)
    requires Counts(a) && |states| == a.numStages && 1 <= id <= a.numStages
    requires Settles(nm, s) && QuietBackends(rt, s) && Faithful(Parse(nm, f.meta), c, SettingsSampling(nm, s))
    ensures var o := Handle(a, rt, nm, states, id, f);
      ToldInOrder(o.visits, id, c, SettingsSampling(nm, s)) && 1 <= |o.visits| <= a.numStages + 1 - id
    decreases a.numStages - id
  {
    hide Parse, Handle, Alone, SettingsSampling, Faithful, QuietBackends, Merged;
    FaithfulOnward(a, rt, nm, states, id, f, s, c);
    HandleUnfolds(a, rt, nm, states, id, f);
    AloneReply(a, rt, nm, states, id, f);
    var o := Alone(a, rt, nm, states, id, f);
    if o.frame.Some? && id < a.numStages {
      ChainTells(a, rt, nm, o.states, id + 1, o.frame.value, s, c);
      OneMoreTold(o.visits, Handle(a, rt, nm, o.states, id + 1, o.frame.value).visits, id, c, SettingsSampling(nm, s));
    }
  }

  /** In a forward pass of either mode the stages are visited in order from the first, each is
      told the gateway's request id, token index and mode, and each gets the gateway's
      sampling controls. The gateway's own loop has visited all of them when it returns a
      frame. */
  lemma EveryStageIsTold<S(!new)>(a: MapArgs, rt: Runtime<S>, nm: Numerics, states: seq<S>, s: Settings,
      c: Call, shape: seq<int>, bytes: seq<int>)
    requires Counts(a) && |states| == a.numStages && Settles(nm, s) && QuietBackends(rt, s)
    ensures var o := Forward(a, rt, nm, states, Expected(a, a.numStages), s.chaining, RequestFrame(nm, s, c, shape, bytes));
      && ToldInOrder(o.visits, 1, c, SettingsSampling(nm, s)) && 1 <= |o.visits| <= a.numStages
      && (o.frame.Some? && !s.chaining ==> |o.visits| == a.numStages)
  {
    var f := RequestFrame(nm, s, c, shape, bytes);
    RequestMetaIsRead(nm, s, c, shape);
    hide Parse, RequestMeta, Expected, Hub, Forward, Handle, QuietBackends, ToldInOrder;
    ForwardStarts(a, rt, nm, states, f);
    if s.chaining {
      ChainTells(a, rt, nm, states, 1, f, s, c);
    } else {
      HubTells(a, rt, nm, states, 1, f, s, c);
    }
  }
}
