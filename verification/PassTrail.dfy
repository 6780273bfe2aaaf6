/** What travels through the stages in a forward pass: the bytes of the tokens to the first
    stage, and each stage's own answer to the next. */
module PassTrail {
  import opened Basics
  import Frames
  import opened Metadata
  import opened StageMap
  import opened StageMapRoundTrip
  import opened Routing
  import opened NativeLoop

  /** What a stage's runtime makes of what it was sent. */
  function Reaction<S>(rt: Runtime<S>, state: S, chaining: bool, v: Visit): (S, Option<Reply>) {
    rt(state, v.stage, v.request.(chaining := chaining), v.bytes)
  }

  /** A visited stage answers, not as the final one if the stages call each other, and its
      answer is what the next stage is sent. */
  predicate HandsOn<S>(rt: Runtime<S>, nm: Numerics, state: S, chaining: bool, v: Visit, next: Visit) {
    var reply := Reaction(rt, state, chaining, v).1;
    && reply.Some? && !(chaining && reply.value.isFinal)
    && next.bytes == reply.value.bytes
    && next.request == Onward(nm, v.request.(chaining := chaining), reply.value).(chaining := false)
  }

  /** The visits go through the stages from `id` on, one after the other; the stages visited
      are left in the states their answers leave them in, the others as they were; and the
      last answer is what is returned, if there is one. */
  ghost predicate Trail<S>(rt: Runtime<S>, nm: Numerics, states: seq<S>, id: nat, chaining: bool, o: Outcome<S>) {
    && |o.states| == |states| && 1 <= id && 1 <= |o.visits| <= |states| + 1 - id
    && AllHandOn(rt, nm, states, id, chaining, o.visits)
    && Leaves(rt, states, id, chaining, o.visits, o.states)
    && Returns(rt, nm, states[id + |o.visits| - 2], chaining, o.visits[|o.visits| - 1], o.frame)
  }

  ghost predicate AllHandOn<S>(rt: Runtime<S>, nm: Numerics, states: seq<S>, id: nat, chaining: bool, visits: seq<Visit>)
    requires 1 <= id && |visits| <= |states| + 1 - id
  {
    && (forall i :: 0 <= i < |visits| ==> visits[i].stage == id + i)
    && (forall i, j :: 0 <= i < j < |visits| && j == i + 1 ==>
          HandsOn(rt, nm, states[id - 1 + i], chaining, visits[i], visits[j]))
  }

  ghost predicate Leaves<S>(rt: Runtime<S>, states: seq<S>, id: nat, chaining: bool, visits: seq<Visit>, after: seq<S>)
    requires 1 <= id && |visits| <= |states| + 1 - id && |after| == |states|
  {
    && (forall i :: 0 <= i < |visits| ==> after[id - 1 + i] == Reaction(rt, states[id - 1 + i], chaining, visits[i]).0)
    && (forall i :: 0 <= i < |states| && !(id - 1 <= i < id - 1 + |visits|) ==> after[i] == states[i])
  }

  /** A whole trail: it starts with the request p, and ends where the mode ends. The gateway's
      own loop ends at the last stage, the chain there or at the first final answer, and
      either at the first failure. */
  ghost predicate WholeTrail<S>(rt: Runtime<S>, nm: Numerics, states: seq<S>, id: nat, p: Parsed, bytes: seq<int>, o: Outcome<S>) {
    && Trail(rt, nm, states, id, p.chaining, o)
    && o.visits[0] == Visit(id, p.(chaining := false), bytes)
    && var last := Reaction(rt, states[id + |o.visits| - 2], p.chaining, o.visits[|o.visits| - 1]).1;
       last.None? || (p.chaining && last.value.isFinal) || |o.visits| == |states| + 1 - id
  }

  /** The frame returned after the last visit. */
  predicate Returns<S>(rt: Runtime<S>, nm: Numerics, state: S, chaining: bool, v: Visit, frame: Option<Frame>) {
    var reply := Reaction(rt, state, chaining, v).1;
    && (frame.Some? <==> reply.Some?)
    && (frame.Some? ==>
          && frame.value.bytes == reply.value.bytes
          && Parse(nm, frame.value.meta) == Onward(nm, v.request.(chaining := chaining), reply.value))
  }

  /** What a stage on its own does with the request p. */
  ghost predicate DoesAlone<S>(rt: Runtime<S>, nm: Numerics, states: seq<S>, id: nat, p: Parsed, bytes: seq<int>, o: Outcome<S>) {
    && 1 <= id <= |states| && |o.states| == |states|
    && var (after, reply) := rt(states[id - 1], id, p, bytes);
       && o.states == states[id - 1 := after] && o.visits == [Visit(id, p.(chaining := false), bytes)]
       && (o.frame.Some? <==> reply.Some?)
       && (o.frame.Some? ==> o.frame.value.bytes == reply.value.bytes && Parse(nm, o.frame.value.meta) == Onward(nm, p, reply.value))
  }

  lemma AloneDoes<S(!new)>(a: MapArgs, rt: Runtime<S>, nm: Numerics, states: seq<S>, id: nat, f: Frame)
    requires Counts(a) && |states| == a.numStages && 1 <= id <= a.numStages
    ensures DoesAlone(rt, nm, states, id, Parse(nm, f.meta), f.bytes, Alone(a, rt, nm, states, id, f))
  {
    var p := Parse(nm, f.meta);
    var reply := rt(states[id - 1], id, p, f.bytes).1;
    if reply.Some? { StageMetaIsRead(nm, p, reply.value); }
    hide Parse, StageMeta, Onward;
  }

  lemma AloneReacts<S(!new)>(rt: Runtime<S>, nm: Numerics, states: seq<S>, id: nat, p: Parsed, bytes: seq<int>, o: Outcome<S>)
    requires DoesAlone(rt, nm, states, id, p, bytes, o)
    ensures |o.visits| == 1 && o.visits[0] == Visit(id, p.(chaining := false), bytes)
    ensures Reaction(rt, states[id - 1], p.chaining, o.visits[0]) == rt(states[id - 1], id, p, bytes)
    ensures o.frame.Some? <==> rt(states[id - 1], id, p, bytes).1.Some?
    ensures o.frame.Some? ==> Parse(nm, o.frame.value.meta).chaining == p.chaining
    ensures 1 <= id <= |states| == |o.states| && forall i :: id <= i < |states| ==> o.states[i] == states[i]
  {
    assert p.(chaining := false).(chaining := p.chaining) == p;
    hide Parse;
  }

  lemma AloneTrail<S(!new)>(rt: Runtime<S>, nm: Numerics, states: seq<S>, id: nat, p: Parsed, bytes: seq<int>, o: Outcome<S>)
    requires DoesAlone(rt, nm, states, id, p, bytes, o)
    ensures Trail(rt, nm, states, id, p.chaining, o)
  {
    AloneReacts(rt, nm, states, id, p, bytes, o);
    assert p.(chaining := false).(chaining := p.chaining) == p;
    hide Parse, Onward, Reaction;
  }

  /** What a stage answered is what the next one is sent. */
  lemma Handed<S(!new)>(rt: Runtime<S>, nm: Numerics, states: seq<S>, id: nat, p: Parsed, bytes: seq<int>, o: Outcome<S>, next: Visit)
    requires DoesAlone(rt, nm, states, id, p, bytes, o) && o.frame.Some?
    requires !(p.chaining && rt(states[id - 1], id, p, bytes).1.value.isFinal)
    requires next.request == Parse(nm, o.frame.value.meta).(chaining := false) && next.bytes == o.frame.value.bytes
    ensures |o.visits| == 1 && HandsOn(rt, nm, states[id - 1], p.chaining, o.visits[0], next)
  {
    AloneReacts(rt, nm, states, id, p, bytes, o);
    assert p.(chaining := false).(chaining := p.chaining) == p;
    hide Parse, Onward, Reaction;
  }

  lemma HandOnCons<S(!new)>(rt: Runtime<S>, nm: Numerics, states: seq<S>, id: nat, chaining: bool, first: seq<Visit>,
                            after: seq<S>, rest: seq<Visit>)
    requires 1 <= id && |first| == 1 && 1 <= |rest| <= |states| - id && |after| == |states|
    requires AllHandOn(rt, nm, states, id, chaining, first) && AllHandOn(rt, nm, after, id + 1, chaining, rest)
    requires forall i :: id <= i < |states| ==> after[i] == states[i]
    requires HandsOn(rt, nm, states[id - 1], chaining, first[0], rest[0])
    ensures AllHandOn(rt, nm, states, id, chaining, first + rest)
  {
    hide HandsOn;
    var visits := first + rest;
    assert forall i :: 1 <= i < |visits| ==> visits[i] == rest[i - 1];
    forall i, j | 0 <= i < j < |visits| && j == i + 1
      ensures HandsOn(rt, nm, states[id - 1 + i], chaining, visits[i], visits[j])
    {
      if i > 0 { assert HandsOn(rt, nm, after[id + (i - 1)], chaining, rest[i - 1], rest[j - 1]); }
    }
  }

  lemma LeavesCons<S(!new)>(rt: Runtime<S>, states: seq<S>, id: nat, chaining: bool, first: seq<Visit>, after: seq<S>,
                            rest: seq<Visit>, end: seq<S>)
    requires 1 <= id && |first| == 1 && 1 <= |rest| <= |states| - id && |after| == |states| == |end|
    requires Leaves(rt, states, id, chaining, first, after) && Leaves(rt, after, id + 1, chaining, rest, end)
    ensures Leaves(rt, states, id, chaining, first + rest, end)
    ensures forall i :: id <= i < |states| ==> after[i] == states[i]
  {
    hide Reaction;
    var visits := first + rest;
    forall i | 0 <= i < |visits| ensures end[id - 1 + i] == Reaction(rt, states[id - 1 + i], chaining, visits[i]).0 {
      if i > 0 {
        assert visits[i] == rest[i - 1] && after[id + (i - 1)] == states[id - 1 + i];
        assert end[id + (i - 1)] == Reaction(rt, after[id + (i - 1)], chaining, rest[i - 1]).0;
      } else {
        assert end[id - 1] == after[id - 1 + 0];
      }
    }
  }

  /** One stage, and the trail of the rest behind it. */
  lemma TrailCons<S(!new)>(rt: Runtime<S>, nm: Numerics, states: seq<S>, id: nat, chaining: bool, o: Outcome<S>, rest: Outcome<S>)
    requires Trail(rt, nm, states, id, chaining, o) && |o.visits| == 1
    requires Trail(rt, nm, o.states, id + 1, chaining, rest)
    requires HandsOn(rt, nm, states[id - 1], chaining, o.visits[0], rest.visits[0])
    ensures Trail(rt, nm, states, id, chaining, Outcome(rest.states, o.visits + rest.visits, rest.frame))
  {
    hide HandsOn, Reaction, Returns, AllHandOn, Leaves;
    LeavesCons(rt, states, id, chaining, o.visits, o.states, rest.visits, rest.states);
    HandOnCons(rt, nm, states, id, chaining, o.visits, o.states, rest.visits);
    assert (o.visits + rest.visits)[|rest.visits|] == rest.visits[|rest.visits| - 1];
  }

  lemma TrailLength<S(!new)>(rt: Runtime<S>, nm: Numerics, states: seq<S>, id: nat, chaining: bool, o: Outcome<S>)
    requires Trail(rt, nm, states, id, chaining, o)
    ensures 1 <= |o.visits| <= |states| + 1 - id && |o.states| == |states|
  {}

  lemma WholeTrailUnfolds<S(!new)>(rt: Runtime<S>, nm: Numerics, states: seq<S>, id: nat, p: Parsed, bytes: seq<int>, o: Outcome<S>)
    requires WholeTrail(rt, nm, states, id, p, bytes, o)
    ensures Trail(rt, nm, states, id, p.chaining, o) && 1 <= |o.visits| <= |states| + 1 - id
    ensures o.visits[0] == Visit(id, p.(chaining := false), bytes)
  {
    hide AllHandOn, Leaves, Returns;
  }

  lemma WholeTrailCons<S(!new)>(rt: Runtime<S>, nm: Numerics, states: seq<S>, id: nat, p: Parsed, bytes: seq<int>, o: Outcome<S>,
                                q: Parsed, onBytes: seq<int>, rest: Outcome<S>, all: Outcome<S>)
    requires 1 <= id <= |states| && |o.states| == |states| && |o.visits| == 1 && q.chaining == p.chaining
    requires WholeTrail(rt, nm, o.states, id + 1, q, onBytes, rest) && forall i :: id <= i < |states| ==> o.states[i] == states[i]
    requires Trail(rt, nm, states, id, p.chaining, all) && all.visits == o.visits + rest.visits
    requires o.visits[0] == Visit(id, p.(chaining := false), bytes)
    ensures WholeTrail(rt, nm, states, id, p, bytes, all)
  {
    hide AllHandOn, Leaves, Returns, Reaction;
    assert all.visits[|all.visits| - 1] == rest.visits[|rest.visits| - 1];
    assert o.states[id + |all.visits| - 2] == states[id + |all.visits| - 2];
  }

  /** A stage's own part, and the trail that starts with what it answered. */
  lemma TrailOnward<S(!new)>(rt: Runtime<S>, nm: Numerics, states: seq<S>, id: nat, p: Parsed, bytes: seq<int>, o: Outcome<S>,
                             q: Parsed, rest: Outcome<S>)
    requires DoesAlone(rt, nm, states, id, p, bytes, o) && o.frame.Some? && q == Parse(nm, o.frame.value.meta)
    requires !(p.chaining && rt(states[id - 1], id, p, bytes).1.value.isFinal)
    requires WholeTrail(rt, nm, o.states, id + 1, q, o.frame.value.bytes, rest)
    ensures WholeTrail(rt, nm, states, id, p, bytes, Outcome(rest.states, o.visits + rest.visits, rest.frame))
  {
    hide *;
    AloneReacts(rt, nm, states, id, p, bytes, o);
    AloneTrail(rt, nm, states, id, p, bytes, o);
    WholeTrailUnfolds(rt, nm, o.states, id + 1, q, o.frame.value.bytes, rest);
    Handed(rt, nm, states, id, p, bytes, o, rest.visits[0]);
    TrailCons(rt, nm, states, id, p.chaining, o, rest);
    var all := Outcome(rest.states, o.visits + rest.visits, rest.frame);
    WholeTrailCons(rt, nm, states, id, p, bytes, o, q, o.frame.value.bytes, rest, all);
  }

  lemma TrailEnds<S(!new)>(rt: Runtime<S>, nm: Numerics, states: seq<S>, id: nat, p: Parsed, bytes: seq<int>, o: Outcome<S>)
    requires DoesAlone(rt, nm, states, id, p, bytes, o)
    requires var reply := rt(states[id - 1], id, p, bytes).1;
      reply.None? || (p.chaining && reply.value.isFinal) || id == |states|
    ensures WholeTrail(rt, nm, states, id, p, bytes, o)
  {
    hide *;
    AloneReacts(rt, nm, states, id, p, bytes, o);
    AloneTrail(rt, nm, states, id, p, bytes, o);
    OneVisitIsWhole(rt, nm, states, id, p, bytes, o);
  }

  lemma OneVisitIsWhole<S(!new)>(rt: Runtime<S>, nm: Numerics, states: seq<S>, id: nat, p: Parsed, bytes: seq<int>, o: Outcome<S>)
    requires 1 <= id <= |states| && |o.visits| == 1 && Trail(rt, nm, states, id, p.chaining, o)
    requires o.visits[0] == Visit(id, p.(chaining := false), bytes)
    requires var reply := Reaction(rt, states[id - 1], p.chaining, o.visits[0]).1;
      reply.None? || (p.chaining && reply.value.isFinal) || id == |states|
    ensures WholeTrail(rt, nm, states, id, p, bytes, o)
  {
    hide Trail, Reaction;
  }

  lemma {:induction false} HubTrail<S(!new)>(a: MapArgs, rt: Runtime<S>, nm: Numerics, states: seq<S>, id: nat, f: Frame)
    requires Counts(a) && |states| == a.numStages && 1 <= id <= a.numStages && !Parse(nm, f.meta).chaining
    ensures |Expected(a, a.numStages)| == a.numStages
    ensures WholeTrail(rt, nm, states, id, Parse(nm, f.meta), f.bytes, Hub(a, rt, nm, states, Expected(a, a.numStages), id - 1, f))
    decreases a.numStages - id
  {
    hide *;
    var p, o := Parse(nm, f.meta), Alone(a, rt, nm, states, id, f);
    AloneDoes(a, rt, nm, states, id, f);
    AloneReacts(rt, nm, states, id, p, f.bytes, o);
    HubUnfolds(a, rt, nm, states, id, f);
    if o.frame.Some? && id < a.numStages {
      HubTrail(a, rt, nm, o.states, id + 1, o.frame.value);
      var rest := Hub(a, rt, nm, o.states, Expected(a, a.numStages), id, o.frame.value);
      TrailOnward(rt, nm, states, id, p, f.bytes, o, Parse(nm, o.frame.value.meta), rest);
    } else {
      TrailEnds(rt, nm, states, id, p, f.bytes, o);
    }
  }

  lemma MergedReturns<S(!new)>(rt: Runtime<S>, nm: Numerics, state: S, chaining: bool, v: Visit, frame: Option<Frame>)
    requires Returns(rt, nm, state, chaining, v, frame)
    ensures Returns(rt, nm, state, chaining, v, Merged(frame))
  {
    if frame.Some? { MergeKeepsMeaning(nm, frame.value.meta, CHAIN_METRICS); }
    hide Parse, MergeChainMetrics, Reaction, Onward;
  }

  /** A trail with another frame behind the last answer. */
  lemma TrailWith<S(!new)>(rt: Runtime<S>, nm: Numerics, states: seq<S>, id: nat, p: Parsed, bytes: seq<int>, o: Outcome<S>,
                           frame: Option<Frame>)
    requires WholeTrail(rt, nm, states, id, p, bytes, o)
    ensures 1 <= |o.visits| <= |states| + 1 - id && 1 <= id
    ensures var state, v := states[id + |o.visits| - 2], o.visits[|o.visits| - 1];
      && Returns(rt, nm, state, p.chaining, v, o.frame)
      && (Returns(rt, nm, state, p.chaining, v, frame) ==>
            WholeTrail(rt, nm, states, id, p, bytes, Outcome(o.states, o.visits, frame)))
  {
    hide Returns, AllHandOn, Leaves, Reaction;
  }

  lemma MergedTrail<S(!new)>(rt: Runtime<S>, nm: Numerics, states: seq<S>, id: nat, p: Parsed, bytes: seq<int>, o: Outcome<S>)
    requires WholeTrail(rt, nm, states, id, p, bytes, o)
    ensures WholeTrail(rt, nm, states, id, p, bytes, Outcome(o.states, o.visits, Merged(o.frame)))
  {
    hide *;
    TrailWith(rt, nm, states, id, p, bytes, o, Merged(o.frame));
    MergedReturns(rt, nm, states[id + |o.visits| - 2], p.chaining, o.visits[|o.visits| - 1], o.frame);
  }

  lemma {:induction false} ChainTrail<S(!new)>(a: MapArgs, rt: Runtime<S>, nm: Numerics, states: seq<S>, id: nat, f: Frame)
    requires Counts(a) && |states| == a.numStages && 1 <= id <= a.numStages && Parse(nm, f.meta).chaining
    ensures WholeTrail(rt, nm, states, id, Parse(nm, f.meta), f.bytes, Handle(a, rt, nm, states, id, f))
    decreases a.numStages - id
  {
    hide *;
    var p, o := Parse(nm, f.meta), Alone(a, rt, nm, states, id, f);
    AloneDoes(a, rt, nm, states, id, f);
    AloneReacts(rt, nm, states, id, p, f.bytes, o);
    HandleUnfolds(a, rt, nm, states, id, f);
    var reply := rt(states[id - 1], id, p, f.bytes).1;
    if reply.Some? && !reply.value.isFinal && id < a.numStages {
      ChainTrail(a, rt, nm, o.states, id + 1, o.frame.value);
      var rest := Handle(a, rt, nm, o.states, id + 1, o.frame.value);
      TrailOnward(rt, nm, states, id, p, f.bytes, o, Parse(nm, o.frame.value.meta), rest);
      MergedTrail(rt, nm, states, id, p, f.bytes, Outcome(rest.states, o.visits + rest.visits, rest.frame));
    } else {
      TrailEnds(rt, nm, states, id, p, f.bytes, o);
    }
  }

  /** In a forward pass of either mode over a printed map, for stages of any kind: the first
      stage is sent the gateway's request and bytes, every stage is in turn sent what the one
      before it answered, every visited stage is left in the state of its answer, and the
      last answer is what comes back. */
  lemma EveryAnswerIsHandedOn<S(!new)>(a: MapArgs, rt: Runtime<S>, nm: Numerics, states: seq<S>, s: Settings,
      c: Call, shape: seq<int>, bytes: seq<int>)
    requires Counts(a) && |states| == a.numStages
    ensures WholeTrail(rt, nm, states, 1, Asked(nm, s, c, shape), bytes,
      Forward(a, rt, nm, states, Expected(a, a.numStages), s.chaining, RequestFrame(nm, s, c, shape, bytes)))
  {
    var f := RequestFrame(nm, s, c, shape, bytes);
    RequestMetaIsRead(nm, s, c, shape);
    FrameIs(nm, s, c, shape, bytes);
    assert Asked(nm, s, c, shape).chaining == s.chaining && a.numStages >= 1;
    hide *;
    ForwardStarts(a, rt, nm, states, f);
    if s.chaining {
      ChainTrail(a, rt, nm, states, 1, f);
    } else {
      HubTrail(a, rt, nm, states, 1, f);
    }
  }

  lemma FrameIs(nm: Numerics, s: Settings, c: Call, shape: seq<int>, bytes: seq<int>)
    ensures var f := RequestFrame(nm, s, c, shape, bytes); f.bytes == bytes && f.meta == RequestMeta(nm, s, c, shape)
  {}

  // ----- The tokens on the wire -----

  /** Eight bytes for each token, in order, that decode to it as an int64. */
  predicate Encodes(bytes: Frames.Bytes, tokens: seq<int>) {
    && |bytes| == 8 * |tokens|
    && forall i :: 0 <= i < |tokens| ==> Frames.FromLe(bytes[8 * i..8 * i + 8]) == tokens[i] % 0x1_0000_0000_0000_0000
  }

  lemma OneToken(token: int)
    ensures var b := Frames.ToLe(token % TWO_64, 8);
      |b| == 8 && Frames.FromLe(b) == token % 0x1_0000_0000_0000_0000
  {
    Frames.Powers();
    Frames.FromToLe(token % TWO_64, 8);
  }

  lemma EncodesCons(b: Frames.Bytes, token: int, bytes: Frames.Bytes, tokens: seq<int>)
    requires |b| == 8 && Frames.FromLe(b) == token % 0x1_0000_0000_0000_0000 && Encodes(bytes, tokens)
    ensures Encodes(b + bytes, [token] + tokens)
  {
    hide Frames.FromLe;
    var all := b + bytes;
    forall i | 0 <= i < |tokens| + 1
      ensures Frames.FromLe(all[8 * i..8 * i + 8]) == ([token] + tokens)[i] % 0x1_0000_0000_0000_0000
    {
      if i == 0 {
        assert all[0..8] == b;
      } else {
        assert all[8 * i..8 * i + 8] == bytes[8 * (i - 1)..8 * (i - 1) + 8];
      }
    }
  }

  /** The gateway's bytes of a list of tokens decode to the tokens, in order. */
  lemma {:induction false} TokenBytesEncode(tokens: seq<int>)
    ensures Encodes(TokenBytes(tokens), tokens)
  {
    if tokens == [] {
    } else {
      hide Encodes, Frames.ToLe, Frames.FromLe;
      OneToken(tokens[0]);
      TokenBytesEncode(tokens[1..]);
      EncodesCons(Frames.ToLe(tokens[0] % TWO_64, 8), tokens[0], TokenBytes(tokens[1..]), tokens[1..]);
      assert tokens == [tokens[0]] + tokens[1..];
    }
  }

  /** There is one such list of bytes. */
  lemma EncodesOnce(x: Frames.Bytes, y: Frames.Bytes, tokens: seq<int>)
    requires Encodes(x, tokens) && Encodes(y, tokens)
    ensures x == y
  {
    hide Frames.FromLe;
    forall k | 0 <= k < |x| ensures x[k] == y[k] {
      var i := k / 8;
      assert 8 * i <= k < 8 * i + 8 && i < |tokens|;
      var a, b := x[8 * i..8 * i + 8], y[8 * i..8 * i + 8];
      Frames.ToFromLe(a);
      Frames.ToFromLe(b);
      assert Frames.FromLe(a) == tokens[i] % 0x1_0000_0000_0000_0000 == Frames.FromLe(b) && |a| == |b|;
      assert a == b;
      assert a[k - 8 * i] == x[k] && b[k - 8 * i] == y[k];
    }
  }

  /** A step of the loop, in either mode: stage 1 is sent the request with this index, mode and
      shape and the bytes that decode to the step's tokens in order; the stages are left as
      the pass leaves them; and what counts as the next token is the returned frame's, unless
      it is negative or missing. */
  lemma StageOneIsSentTheTokens<S(!new)>(a: MapArgs, rt: Runtime<S>, nm: Numerics, s: Settings, requestId: string, w: seq<S>,
      step: NativeLoop.Step, bytes: Frames.Bytes)
    requires Counts(a) && |w| == a.numStages && Encodes(bytes, step.tokens)
    ensures var c, shape := Call(requestId, step.tokenIndex, step.mode, None), [1, |step.tokens|];
      var o := Forward(a, rt, nm, w, Expected(a, a.numStages), s.chaining, RequestFrame(nm, s, c, shape, bytes));
      && WholeTrail(rt, nm, w, 1, Asked(nm, s, c, shape), bytes, o)
      && RoutePass(a, rt, nm, s, requestId, w, step).0 == o.states
      && RoutePass(a, rt, nm, s, requestId, w, step).1 ==
           if o.frame.None? then None
           else
             var next := Parse(nm, o.frame.value.meta).call.nextToken;
             Some(if next.Some? && next.value >= 0 then next else None)
  {
    TokenBytesEncode(step.tokens);
    EncodesOnce(bytes, TokenBytes(step.tokens), step.tokens);
    var c, shape := Call(requestId, step.tokenIndex, step.mode, None), [1, |step.tokens|];
    hide Forward, Expected, RequestFrame, Parse, WholeTrail, Encodes, TokenBytes, Asked;
    EveryAnswerIsHandedOn(a, rt, nm, w, s, c, shape, bytes);
  }
}
