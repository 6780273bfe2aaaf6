/** The native gateway's generation loop: one prefill, then one token at a time. */
module NativeLoop {
  import opened Basics
  import Frames
  import opened Metadata
  import opened StageMap
  import StageMapRoundTrip
  import opened Routing

  /** What stage 1 is fed in one forward pass. */
  datatype Step = Step(tokenIndex: nat, mode: string, tokens: seq<int>)

  datatype Reason = MaxNewTokens | StopMarker | Error

  datatype Run<W> = Run(world: W, fed: seq<Step>, tokens: seq<int>, reason: Reason)

  /** A forward pass: the world afterwards and, unless it failed, the valid next token of the
      last stage's answer, if there is one. */
  type Pass<!W> = (W, Step) -> (W, Option<Option<int>>)

  predicate StopsAfter(isStop: int -> bool, minNew: int, tokens: seq<int>)
    requires tokens != []
  {
    |tokens| >= minNew && isStop(tokens[|tokens| - 1])
  }

  /** The decode loop from step i on. */
  function Decode<W>(pass: Pass<W>, isStop: int -> bool, minNew: int, steps: nat, r: Run<W>): Run<W>
    requires r.tokens != []
    decreases steps - |r.tokens|
  {
    var i := |r.tokens|;
    if i >= steps then r.(reason := MaxNewTokens)
    else
      var step := Step(i, "decode", [r.tokens[i - 1]]);
      var (world, answer) := pass(r.world, step);
      var fed := r.fed + [step];
      if answer.None? || answer.value.None? then Run(world, fed, r.tokens, Error)
      else
        var next := Run(world, fed, r.tokens + [answer.value.value], MaxNewTokens);
        if StopsAfter(isStop, minNew, next.tokens) then next.(reason := StopMarker)
        else Decode(pass, isStop, minNew, steps, next)
  }

  function NativeRun<W>(pass: Pass<W>, isStop: int -> bool, minNew: int, maxNew: int, prompt: seq<int>,
      start: W): Run<W> {
    var prefill := Step(0, "prefill", prompt);
    var (world, answer) := pass(start, prefill);
    if answer.None? then Run(world, [prefill], [], Error)
    else if maxNew <= 0 then Run(world, [prefill], [], MaxNewTokens)
    else if answer.value.None? then Run(world, [prefill], [], Error)
    else
      var first := Run(world, [prefill], [answer.value.value], MaxNewTokens);
      if StopsAfter(isStop, minNew, first.tokens) then first.(reason := StopMarker)
      else Decode(pass, isStop, minNew, maxNew, first)
  }

  method RunStubGeneration<W>(pass: Pass<W>, isStop: int -> bool, minNew: int, maxNew: int, prompt: seq<int>, start: W)
    returns (r: Run<W>)
    ensures r == NativeRun(pass, isStop, minNew, maxNew, prompt, start)
  {
    var decodeSteps := if maxNew > 0 then maxNew else 0;
    var prefill := Step(0, "prefill", prompt);
    var (world, answer) := pass(start, prefill);
    var fed, tokens: seq<int> := [prefill], [];
    if answer.None? { return Run(world, fed, tokens, Error); }
    var decodeStart := 0;
    var reason := MaxNewTokens;
    if decodeSteps > 0 {
      if answer.value.None? { return Run(world, fed, tokens, Error); }
      tokens := [answer.value.value];
      decodeStart := 1;
      if StopsAfter(isStop, minNew, tokens) {
        reason := StopMarker;
        decodeStart := decodeSteps;
      }
    }
    var i := decodeStart;
    while i < decodeSteps
      invariant decodeStart <= i <= decodeSteps
      invariant reason != Error && (reason == StopMarker ==> i == decodeSteps)
      invariant reason == MaxNewTokens ==> |tokens| == i
      invariant NativeRun(pass, isStop, minNew, maxNew, prompt, start) ==
        if reason == MaxNewTokens && tokens != [] then
          Decode(pass, isStop, minNew, decodeSteps, Run(world, fed, tokens, MaxNewTokens))
        else Run(world, fed, tokens, reason)
    {
      var step := Step(i, "decode", [tokens[i - 1]]);
      var (after, reply) := pass(world, step);
      world, fed := after, fed + [step];
      if reply.None? || reply.value.None? { return Run(world, fed, tokens, Error); }
      tokens := tokens + [reply.value.value];
      if StopsAfter(isStop, minNew, tokens) {
        return Run(world, fed, tokens, StopMarker);
      }
      i := i + 1;
    }
    r := Run(world, fed, tokens, reason);
  }

  /** The world after the steps. */
  function After<W>(pass: Pass<W>, w: W, fed: seq<Step>): W {
    if fed == [] then w else pass(After(pass, w, fed[..|fed| - 1]), fed[|fed| - 1]).0
  }

  /** The answer to step k, in the world that the steps before it left behind. */
  function Answer<W>(pass: Pass<W>, w: W, fed: seq<Step>, k: nat): Option<Option<int>>
    requires k < |fed|
  {
    pass(After(pass, w, fed[..k]), fed[k]).1
  }

  /** What holds after every turn of the loop. */
  ghost predicate FedInOrder<W>(pass: Pass<W>, prompt: seq<int>, start: W, world: W, fed: seq<Step>, tokens: seq<int>) {
    && |tokens| <= |fed| <= |tokens| + 1 && fed != []
    && fed[0] == Step(0, "prefill", prompt)
    && (forall k :: 1 <= k < |fed| ==> fed[k] == Step(k, "decode", [tokens[k - 1]]))
    && (forall k :: 0 <= k < |tokens| ==> Answer(pass, start, fed, k) == Some(Some(tokens[k])))
    && world == After(pass, start, fed)
  }

  /** The run is at most maxNew tokens long and ends at the first token that is a stop marker
      with at least minNew tokens generated, or at the limit, or at a failure. */
  ghost predicate StoppedAtFirstChance<W>(isStop: int -> bool, minNew: int, maxNew: int, r: Run<W>) {
    && |r.tokens| <= (if maxNew > 0 then maxNew else 0)
    && (forall k :: 0 <= k < |r.tokens| - 1 ==> k + 1 < minNew || !isStop(r.tokens[k]))
    && (r.reason == StopMarker <==>
          r.reason != Error && r.tokens != [] && |r.tokens| >= minNew && isStop(r.tokens[|r.tokens| - 1]))
    && (r.reason == MaxNewTokens ==> |r.tokens| == if maxNew > 0 then maxNew else 0)
    && (r.reason != Error && maxNew > 0 ==> |r.fed| == |r.tokens|)
    && (r.reason == Error ==> |r.fed| == |r.tokens| + 1)
  }

  /** A run fails exactly when its last frame fails, or brings no token when one was asked for. */
  ghost predicate FailsWithItsLastFrame<W>(pass: Pass<W>, maxNew: int, start: W, r: Run<W>)
    requires r.fed != []
  {
    r.reason == Error <==>
      var last := Answer(pass, start, r.fed, |r.fed| - 1);
      last.None? || (last.value.None? && maxNew > 0)
  }

  lemma OneMoreFed<W>(pass: Pass<W>, prompt: seq<int>, start: W, r: Run<W>, step: Step, token: Option<int>)
    requires FedInOrder(pass, prompt, start, r.world, r.fed, r.tokens) && |r.fed| == |r.tokens| > 0
    requires step == Step(|r.tokens|, "decode", [r.tokens[|r.tokens| - 1]])
    requires token.Some? ==> pass(r.world, step).1 == Some(token)
    ensures FedInOrder(pass, prompt, start, pass(r.world, step).0, r.fed + [step],
                       if token.None? then r.tokens else r.tokens + [token.value])
  {
    hide After, Answer;
    var fed := r.fed + [step];
    AfterSnoc(pass, start, r.fed, step);
    forall k | 0 <= k < |r.fed| ensures Answer(pass, start, fed, k) == Answer(pass, start, r.fed, k) {
      SameAnswer(pass, start, r.fed, step, k);
    }
  }

  lemma AfterSnoc<W>(pass: Pass<W>, w: W, fed: seq<Step>, step: Step)
    ensures After(pass, w, fed + [step]) == pass(After(pass, w, fed), step).0
    ensures Answer(pass, w, fed + [step], |fed|) == pass(After(pass, w, fed), step).1
  {
    assert (fed + [step])[..|fed|] == fed;
  }

  lemma SameAnswer<W>(pass: Pass<W>, w: W, fed: seq<Step>, step: Step, k: nat)
    requires k < |fed|
    ensures Answer(pass, w, fed + [step], k) == Answer(pass, w, fed, k)
  {
    assert (fed + [step])[..k] == fed[..k];
  }

  lemma InOrderAnswers<W>(pass: Pass<W>, prompt: seq<int>, start: W, r: Run<W>)
    requires FedInOrder(pass, prompt, start, r.world, r.fed, r.tokens) && |r.fed| == |r.tokens|
    ensures r.fed != [] && r.world == After(pass, start, r.fed)
    ensures Answer(pass, start, r.fed, |r.fed| - 1) == Some(Some(r.tokens[|r.tokens| - 1]))
  {}

  lemma {:induction false} DecodeInOrder<W>(pass: Pass<W>, isStop: int -> bool, minNew: int, steps: nat,
      prompt: seq<int>, start: W, r: Run<W>)
    requires FedInOrder(pass, prompt, start, r.world, r.fed, r.tokens) && 0 < |r.tokens| == |r.fed| <= steps
    requires r.reason == MaxNewTokens && forall k :: 0 <= k < |r.tokens| ==> k + 1 < minNew || !isStop(r.tokens[k])
    ensures var d := Decode(pass, isStop, minNew, steps, r);
      && FedInOrder(pass, prompt, start, d.world, d.fed, d.tokens) && StoppedAtFirstChance(isStop, minNew, steps, d)
      && d.fed != [] && FailsWithItsLastFrame(pass, steps, start, d)
    decreases steps - |r.tokens|
  {
    hide FedInOrder, Answer, After;
    var i := |r.tokens|;
    InOrderAnswers(pass, prompt, start, r);
    if i >= steps {
    } else {
      var step := Step(i, "decode", [r.tokens[i - 1]]);
      var (world, answer) := pass(r.world, step);
      AfterSnoc(pass, start, r.fed, step);
      if answer.None? || answer.value.None? {
        OneMoreFed(pass, prompt, start, r, step, None);
      } else {
        OneMoreFed(pass, prompt, start, r, step, answer.value);
        var next := Run(world, r.fed + [step], r.tokens + [answer.value.value], MaxNewTokens);
        assert forall k :: 0 <= k < i ==> next.tokens[k] == r.tokens[k];
        if !StopsAfter(isStop, minNew, next.tokens) {
          DecodeInOrder(pass, isStop, minNew, steps, prompt, start, next);
        }
      }
    }
  }

  /** In every run stage 1 is fed the prompt and then each generated token but the last,
      once, under its index; every token is the answer to its frame; the run ends at the
      first stop marker with enough tokens, or at the limit, or at the first failure. */
  lemma NativeRunInOrder<W>(pass: Pass<W>, isStop: int -> bool, minNew: int, maxNew: int, prompt: seq<int>, start: W)
    ensures var r := NativeRun(pass, isStop, minNew, maxNew, prompt, start);
      && FedInOrder(pass, prompt, start, r.world, r.fed, r.tokens) && StoppedAtFirstChance(isStop, minNew, maxNew, r)
      && r.fed != [] && FailsWithItsLastFrame(pass, maxNew, start, r)
  {
    var prefill := Step(0, "prefill", prompt);
    var (world, answer) := pass(start, prefill);
    assert [prefill][..0] == [];
    if answer.Some? && answer.value.Some? && maxNew > 0 {
      var first := Run(world, [prefill], [answer.value.value], MaxNewTokens);
      assert FedInOrder(pass, prompt, start, first.world, first.fed, first.tokens);
      if !StopsAfter(isStop, minNew, first.tokens) {
        DecodeInOrder(pass, isStop, minNew, maxNew, prompt, start, first);
      }
    }
  }

  // ---- hub and chain generate the same ----

  lemma {:induction false} SamePassSameDecode<W(!new)>(x: Pass<W>, y: Pass<W>, isStop: int -> bool,
      minNew: int, steps: nat, r: Run<W>)
    requires forall w: W, step: Step :: x(w, step) == y(w, step)
    requires r.tokens != []
    ensures Decode(x, isStop, minNew, steps, r) == Decode(y, isStop, minNew, steps, r)
    decreases steps - |r.tokens|
  {
    var i := |r.tokens|;
    if i >= steps {
    } else {
      var step := Step(i, "decode", [r.tokens[i - 1]]);
      var (world, answer) := x(r.world, step);
      if answer.Some? && answer.value.Some? {
        SamePassSameDecode(x, y, isStop, minNew, steps,
          Run(world, r.fed + [step], r.tokens + [answer.value.value], MaxNewTokens));
      }
    }
  }

  lemma SamePassSameRun<W(!new)>(x: Pass<W>, y: Pass<W>, isStop: int -> bool, minNew: int, maxNew: int,
      prompt: seq<int>, start: W)
    requires forall w: W, step: Step :: x(w, step) == y(w, step)
    ensures NativeRun(x, isStop, minNew, maxNew, prompt, start) == NativeRun(y, isStop, minNew, maxNew, prompt, start)
  {
    var prefill := Step(0, "prefill", prompt);
    var (world, answer) := x(start, prefill);
    if answer.Some? && answer.value.Some? && maxNew > 0 {
      SamePassSameDecode(x, y, isStop, minNew, maxNew, Run(world, [prefill], [answer.value.value], MaxNewTokens));
    }
  }

  const TWO_64 := 0x1_0000_0000_0000_0000

  /** Token ids as little-endian int64. */
  function TokenBytes(tokens: seq<int>): Frames.Bytes {
    if tokens == [] then [] else Frames.ToLe(tokens[0] % TWO_64, 8) + TokenBytes(tokens[1..])
  }

  /** The next token of a terminal answer; a negative one is as good as none. */
  function ValidToken(nm: Numerics, f: Frame): Option<int> {
    var t := Parse(nm, f.meta).call.nextToken;
    if t.Some? && t.value < 0 then None else t
  }

  /** The gateway's reading of a pass's outcome. */
  function NextOf<S>(nm: Numerics, o: Outcome<S>): (seq<S>, Option<Option<int>>) {
    (o.states, match o.frame case None => None case Some(f) => Some(ValidToken(nm, f)))
  }

  /** One forward pass through the stages of a printed map, in the mode of the settings. */
  function RoutePass<S>(a: MapArgs, rt: Runtime<S>, nm: Numerics, s: Settings, requestId: string, w: seq<S>,
      step: Step): (seq<S>, Option<Option<int>>)
    requires Counts(a)
  {
    if |w| != a.numStages then (w, None)
    else
      var frame := RequestFrame(nm, s, Call(requestId, step.tokenIndex, step.mode, None), [1, |step.tokens|], TokenBytes(step.tokens));
      NextOf(nm, Forward(a, rt, nm, w, StageMapRoundTrip.Expected(a, a.numStages), s.chaining, frame))
  }

  /** Only the last stage ever answers as the final one. */
  ghost predicate FinalOnlyAtEnd<S(!new)>(rt: Runtime<S>, last: nat) {
    forall state: S, id: nat, p: Parsed, bytes: seq<int> ::
      id < last && rt(state, id, p, bytes).1.Some? ==> !rt(state, id, p, bytes).1.value.isFinal
  }

  lemma {:induction false} NeverEarly<S(!new)>(a: MapArgs, rt: Runtime<S>, nm: Numerics, states: seq<S>,
      id: nat, f: Frame)
    requires Counts(a) && |states| == a.numStages && 1 <= id <= a.numStages && FinalOnlyAtEnd(rt, a.numStages)
    ensures NoEarlyFinal(a, rt, nm, states, id, f)
    decreases a.numStages - id
  {
    hide Parse, StageMeta;
    var p := Parse(nm, f.meta);
    var (after, reply) := rt(states[id - 1], id, p, f.bytes);
    if id < a.numStages && reply.Some? {
      NeverEarly(a, rt, nm, states[id - 1 := after], id + 1, Frame(StageMeta(nm, p, reply.value), reply.value.bytes));
    }
  }

  lemma SameToken(nm: Numerics, f: Frame, g: Frame)
    requires Alike(nm, f, g)
    ensures ValidToken(nm, f) == ValidToken(nm, g)
  {
    hide Parse;
    assert Parse(nm, f.meta).(chaining := false).call == Parse(nm, f.meta).call;
  }

  lemma SameNext<S(!new)>(nm: Numerics, hub: Outcome<S>, chain: Outcome<S>)
    requires SameOutcome(nm, hub, chain)
    ensures NextOf(nm, hub) == NextOf(nm, chain)
  {
    hide Alike, ValidToken;
    if hub.frame.Some? { SameToken(nm, hub.frame.value, chain.frame.value); }
  }

  lemma RoutePassesAgree<S(!new)>(a: MapArgs, rt: Runtime<S>, nm: Numerics, s: Settings, requestId: string,
      w: seq<S>, step: Step)
    requires Counts(a) && IgnoresChaining(rt) && FinalOnlyAtEnd(rt, a.numStages)
    ensures RoutePass(a, rt, nm, s.(chaining := false), requestId, w, step)
         == RoutePass(a, rt, nm, s.(chaining := true), requestId, w, step)
  {
    if |w| == a.numStages {
      hide Forward, NoEarlyFinal, StageMapRoundTrip.Expected, RequestFrame, TokenBytes, NextOf, SameOutcome;
      hide IgnoresChaining, FinalOnlyAtEnd;
      var c, shape, bytes := Call(requestId, step.tokenIndex, step.mode, None), [1, |step.tokens|], TokenBytes(step.tokens);
      var f := RequestFrame(nm, s.(chaining := false), c, shape, bytes);
      var g := RequestFrame(nm, s.(chaining := true), c, shape, bytes);
      NeverEarly(a, rt, nm, w, 1, f);
      HubIsChain(a, rt, nm, w, s, c, shape, bytes);
      var ps := StageMapRoundTrip.Expected(a, a.numStages);
      SameNext(nm, Forward(a, rt, nm, w, ps, false, f), Forward(a, rt, nm, w, ps, true, g));
    }
  }

  /** Over every printed stage map, chain mode and hub mode generate the same tokens, end for
      the same reason and leave the stages in the same state. */
  lemma ModesGenerateTheSame<S(!new)>(
    a: MapArgs, rt: Runtime<S>, nm: Numerics, s: Settings, requestId: string,
    isStop: int -> bool, minNew: int, maxNew: int, prompt: seq<int>, start: seq<S>)
    requires Counts(a) && IgnoresChaining(rt) && FinalOnlyAtEnd(rt, a.numStages)
    ensures
      NativeRun((w, step) => RoutePass(a, rt, nm, s.(chaining := false), requestId, w, step), isStop, minNew, maxNew, prompt, start)
        == NativeRun((w, step) => RoutePass(a, rt, nm, s.(chaining := true), requestId, w, step), isStop, minNew, maxNew, prompt, start)
  {
    hide RoutePass, NativeRun;
    forall w: seq<S>, step: Step
      ensures RoutePass(a, rt, nm, s.(chaining := false), requestId, w, step)
           == RoutePass(a, rt, nm, s.(chaining := true), requestId, w, step)
    {
      RoutePassesAgree(a, rt, nm, s, requestId, w, step);
    }
    SamePassSameRun((w, step) => RoutePass(a, rt, nm, s.(chaining := false), requestId, w, step),
                    (w, step) => RoutePass(a, rt, nm, s.(chaining := true), requestId, w, step),
                    isStop, minNew, maxNew, prompt, start);
  }
}
