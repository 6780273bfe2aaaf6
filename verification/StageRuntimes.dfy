/** The two runtimes a native stage can have, as far as the routing sees them: which of its
    three parts a llama shard runs, what it refuses, and what its answer says about being
    the last one. The arithmetic of the parts is a parameter. */
module StageRuntimes {
  import opened Basics
  import ConfigText
  import opened Metadata
  import opened StageMap
  import opened StageMapEntries
  import opened StageMapRoundTrip
  import opened Routing
  import NativeLoop

  /** What serves at a stage's URL: one of the two runtimes, a llama one with its shard or
      without, or nothing, because the process did not come up. */
  datatype Backend = Stub | Llama(loaded: bool, hidden: int) | Down

  /** What a llama part looks at. */
  datatype Job = Job(
    requestId: string, tokenIndex: int, mode: string, kvCache: bool, precision: string,
    tensor: Tensor, bytes: seq<int>)

  datatype Activation = Activation(bytes: seq<int>, tensor: Tensor)

  /** What the parts do to a stage's sessions and what they yield; nothing is an exception. */
  datatype Parts<!S> = Parts(
    source: (S, nat, Job) -> (S, Option<Activation>),
    intermediate: (S, nat, Job) -> (S, Option<Activation>),
    terminal: (S, nat, Job, Sampling) -> (S, Option<int>))

  function Product(shape: seq<int>): int {
    if shape == [] then 1 else shape[0] * Product(shape[1..])
  }

  /** `validate_tensor_byte_size` and `validate_little_endian`. */
  predicate Sized(t: Tensor, bytes: seq<int>, width: nat) {
    && (t.byteOrder == "" || t.byteOrder == "little")
    && (forall i :: 0 <= i < |t.shape| ==> t.shape[i] > 0)
    && |bytes| == Product(t.shape) * width
  }

  predicate IsTokenIds(t: Tensor, bytes: seq<int>) {
    t.dtype == "int64" && |t.shape| == 2 && Sized(t, bytes, 8)
  }

  predicate IsHiddenStates(t: Tensor, bytes: seq<int>, hidden: int) {
    && (t.dtype == "float32" || t.dtype == "float16")
    && |t.shape| == 3 && (hidden > 0 ==> t.shape[2] == hidden)
    && Sized(t, bytes, if t.dtype == "float32" then 4 else 2)
  }

  /** The keys of the metadata a llama stage adds; no reader asks for any of them. */
  const LLAMA_KEYS := [
    "model_loaded", "model_path", "architecture", "name", "n_ctx_train", "n_embd", "n_layer", "n_head", "n_head_kv",
    "n_vocab", "shard", "loaded", "format", "format_version", "partition_id", "stage_id", "layers", "owns_embedding",
    "owns_norm", "owns_lm_head", "next_partition_id", "next_stage_url", "hidden_size", "source_model", "sessions", "count"]

  function LlamaMetadata(): seq<Pair> { SkippedAll(LLAMA_KEYS) }

  function Handed(x: Option<Activation>): Option<Reply> {
    match x case None => None case Some(y) => Some(Reply(y.bytes, y.tensor, false, -1, LlamaMetadata()))
  }

  function Chosen(token: Option<int>): Option<Reply> {
    match token case None => None case Some(t) => Some(Reply([], Tensor("", [], "little"), true, t, LlamaMetadata()))
  }

  /** `LlamaPartialRuntime::forward`. A shard's roles are those of the stage's own entry in the
      stage map, which the runtime checks when it loads the shard. */
  function LlamaForward<S>(a: MapArgs, parts: Parts<S>, loaded: bool, hidden: int, state: S, id: nat, p: Parsed,
      bytes: seq<int>): (S, Option<Reply>)
    requires Counts(a) && 1 <= id <= a.numStages
  {
    var stage := Reading(a, id, "");
    var job := Job(p.call.requestId, p.call.tokenIndex, p.call.mode, p.features.kvCache, p.features.precision, p.tensor, bytes);
    if !loaded then (state, None)
    else if stage.components.embedding then
      if !IsTokenIds(p.tensor, bytes) then (state, None)
      else
        var (after, x) := parts.source(state, id, job);
        (after, Handed(x))
    else if !IsHiddenStates(p.tensor, bytes, hidden) then (state, None)
    else if stage.components.lmHead || stage.nextStageUrl == "" then
      var (after, token) := parts.terminal(state, id, job, p.sampling);
      (after, Chosen(token))
    else
      var (after, x) := parts.intermediate(state, id, job);
      (after, Handed(x))
  }

  /** `StubRuntime::forward`: an echo. */
  function StubForward(p: Parsed, bytes: seq<int>): Reply {
    Reply(bytes, p.tensor, false, if p.call.mode == "decode" then 1000 + p.call.tokenIndex else -1, [])
  }

  function RunStage<S>(a: MapArgs, backends: nat -> Backend, parts: Parts<S>, state: S, id: nat, p: Parsed,
      bytes: seq<int>): (S, Option<Reply>) {
    if !Counts(a) || id < 1 || id > a.numStages then (state, None)
    else match backends(id)
      case Stub => (state, Some(StubForward(p, bytes)))
      case Llama(loaded, hidden) => LlamaForward(a, parts, loaded, hidden, state, id, p, bytes)
      case Down => (state, None)
  }

  /** The stages of a printed map, each with its own backend. */
  function RuntimeOf<S>(a: MapArgs, backends: nat -> Backend, parts: Parts<S>): Runtime<S> {
    (state: S, id: nat, p: Parsed, bytes: seq<int>) => RunStage(a, backends, parts, state, id, p, bytes)
  }

  // ----- A stage in full -----

  /** Token ids of a batch: int64, two dimensions, eight bytes each. */
  predicate AreIds(t: Tensor, bytes: seq<int>) {
    && (t.byteOrder == "" || t.byteOrder == "little") && t.dtype == "int64"
    && |t.shape| == 2 && t.shape[0] > 0 && t.shape[1] > 0 && |bytes| == t.shape[0] * t.shape[1] * 8
  }

  /** Hidden vectors of the shard's width, or of any if it does not say: four bytes a number
      as float32 and two as float16. */
  predicate AreVectors(t: Tensor, bytes: seq<int>, hidden: int) {
    && (t.byteOrder == "" || t.byteOrder == "little")
    && |t.shape| == 3 && t.shape[0] > 0 && t.shape[1] > 0 && t.shape[2] > 0 && (hidden <= 0 || t.shape[2] == hidden)
    && ((t.dtype == "float32" && |bytes| == t.shape[0] * t.shape[1] * t.shape[2] * 4)
        || (t.dtype == "float16" && |bytes| == t.shape[0] * t.shape[1] * t.shape[2] * 2))
  }

  lemma SizesSpelled(t: Tensor, bytes: seq<int>, hidden: int)
    ensures IsTokenIds(t, bytes) <==> AreIds(t, bytes)
    ensures IsHiddenStates(t, bytes, hidden) <==> AreVectors(t, bytes, hidden)
  {
    assert "float32" != "float16" by { assert "float32"[5] != "float16"[5]; }
    if |t.shape| == 2 {
      assert Product(t.shape) == t.shape[0] * t.shape[1] by {
        assert Product(t.shape[1..][1..]) == 1 && Product(t.shape[1..]) == t.shape[1];
      }
    } else if |t.shape| == 3 {
      assert Product(t.shape) == t.shape[0] * t.shape[1] * t.shape[2] by {
        assert Product(t.shape[1..][1..][1..]) == 1 && Product(t.shape[1..][1..]) == t.shape[2];
        assert Product(t.shape[1..]) == t.shape[1] * t.shape[2];
        Associative(t.shape[0], t.shape[1], t.shape[2]);
      }
    }
  }

  lemma Associative(x: int, y: int, z: int)
    ensures x * (y * z) == x * y * z
  {}

  /** What each kind of stage does with a request. */
  lemma StageInFull<S(!new)>(a: MapArgs, backends: nat -> Backend, parts: Parts<S>, state: S, id: nat, p: Parsed, bytes: seq<int>)
    requires Counts(a) && 1 <= id <= a.numStages
    ensures var r, b := RunStage(a, backends, parts, state, id, p, bytes), backends(id);
      var job := Job(p.call.requestId, p.call.tokenIndex, p.call.mode, p.features.kvCache, p.features.precision, p.tensor, bytes);
      && (b == Down ==> r == (state, None))
      && (b == Stub ==> r == (state, Some(Reply(bytes, p.tensor, false,
                                if p.call.mode == "decode" then 1000 + p.call.tokenIndex else -1, []))))
      && (b.Llama? && !b.loaded ==> r == (state, None))
      && (b.Llama? && id == 1 && !AreIds(p.tensor, bytes) ==> r == (state, None))
      && (b.Llama? && id > 1 && !AreVectors(p.tensor, bytes, b.hidden) ==> r == (state, None))
      && (b.Llama? && b.loaded && id == 1 && AreIds(p.tensor, bytes) ==>
            r.0 == parts.source(state, id, job).0 && HandsOver(r.1, parts.source(state, id, job).1))
      && (b.Llama? && b.loaded && 1 < id < a.numStages && AreVectors(p.tensor, bytes, b.hidden) ==>
            r.0 == parts.intermediate(state, id, job).0 && HandsOver(r.1, parts.intermediate(state, id, job).1))
      && (b.Llama? && b.loaded && 1 < id == a.numStages && AreVectors(p.tensor, bytes, b.hidden) ==>
            r.0 == parts.terminal(state, id, job, p.sampling).0 && Chooses(r.1, parts.terminal(state, id, job, p.sampling).1))
  {
    RolesOf(a, id);
    SizesSpelled(p.tensor, bytes, if backends(id).Llama? then backends(id).hidden else 0);
    hide IsTokenIds, IsHiddenStates, AreIds, AreVectors, Reading, LlamaMetadata, Counts;
  }

  /** An activation goes on as it is; a token ends the pass, without an activation. */
  predicate HandsOver(reply: Option<Reply>, x: Option<Activation>) {
    && (reply.Some? <==> x.Some?)
    && (reply.Some? ==> reply.value.bytes == x.value.bytes && reply.value.tensor == x.value.tensor
                        && !reply.value.isFinal && reply.value.nextToken == -1)
  }

  predicate Chooses(reply: Option<Reply>, token: Option<int>) {
    && (reply.Some? <==> token.Some?)
    && (reply.Some? ==> reply.value.bytes == [] && reply.value.tensor == Tensor("", [], "little")
                        && reply.value.isFinal && reply.value.nextToken == token.value)
  }

  /** A map whose last stage runs a terminal part. */
  predicate HasTerminalPart(a: MapArgs, backends: nat -> Backend) {
    a.numStages >= 2 && backends(a.numStages).Llama?
  }

  lemma RolesOf(a: MapArgs, id: nat)
    requires Counts(a) && 1 <= id <= a.numStages
    ensures var stage := Reading(a, id, "");
      && (stage.components.embedding <==> id == 1)
      && (stage.components.lmHead || stage.nextStageUrl == "" <==> id == a.numStages)
  {
    StageAfter(a, id);
    hide ConfigText.Scalar, UrlOf;
  }

  lemma LlamaMetadataIsQuiet(k: Key)
    ensures First(LlamaMetadata(), k) == None
  {
    FirstOfNothing(k);
    FirstBehindSkipped(LLAMA_KEYS, [], k);
    assert LlamaMetadata() + [] == LlamaMetadata();
  }

  lemma LlamaAnswers<S(!new)>(a: MapArgs, parts: Parts<S>, loaded: bool, hidden: int, state: S, id: nat, p: Parsed,
      bytes: seq<int>, on: bool)
    requires Counts(a) && 1 <= id <= a.numStages
    ensures var (after, reply) := LlamaForward(a, parts, loaded, hidden, state, id, p, bytes);
      && LlamaForward(a, parts, loaded, hidden, state, id, p.(chaining := on), bytes) == (after, reply)
      && (reply.Some? ==> reply.value.backend == LlamaMetadata())
      && (reply.Some? ==> (reply.value.isFinal <==> id == a.numStages && id > 1))
      && (reply.Some? && !reply.value.isFinal ==> reply.value.nextToken == -1)
  {
    RolesOf(a, id);
    hide IsTokenIds, IsHiddenStates, Reading, LlamaMetadata;
  }

  /** An answer is a final one exactly when it comes from the last of at least two stages and
      that stage is a llama one; it takes nothing from the chaining flag, and adds no key
      that a reader asks for. */
  lemma FinalExactlyAtEnd<S(!new)>(a: MapArgs, backends: nat -> Backend, parts: Parts<S>, state: S, id: nat, p: Parsed,
      bytes: seq<int>, on: bool, k: Key)
    requires Counts(a)
    ensures var (after, reply) := RunStage(a, backends, parts, state, id, p, bytes);
      && RunStage(a, backends, parts, state, id, p.(chaining := on), bytes) == (after, reply)
      && (reply.Some? ==> (reply.value.isFinal <==> id == a.numStages && HasTerminalPart(a, backends)))
      && (reply.Some? && !reply.value.isFinal && p.call.mode == "prefill" ==> reply.value.nextToken == -1)
      && (reply.Some? ==> First(reply.value.backend, k).None?)
  {
    hide LlamaForward, First, LlamaMetadata;
    if 1 <= id <= a.numStages && backends(id).Llama? {
      LlamaAnswers(a, parts, backends(id).loaded, backends(id).hidden, state, id, p, bytes, on);
    }
    FirstOfNothing(k);
    LlamaMetadataIsQuiet(k);
  }

  lemma RuntimesAreTame<S(!new)>(a: MapArgs, backends: nat -> Backend, parts: Parts<S>, s: Settings)
    requires Counts(a)
    ensures var rt := RuntimeOf(a, backends, parts);
      IgnoresChaining(rt) && NativeLoop.FinalOnlyAtEnd(rt, a.numStages) && QuietBackends(rt, s)
  {
    hide RunStage, First;
    var rt := RuntimeOf(a, backends, parts);
    forall state: S, id: nat, p: Parsed, bytes: seq<int>, on: bool
      ensures rt(state, id, p.(chaining := on), bytes) == rt(state, id, p, bytes)
    {
      FinalExactlyAtEnd(a, backends, parts, state, id, p, bytes, on, TopP);
    }
    forall state: S, id: nat, p: Parsed, bytes: seq<int> | rt(state, id, p, bytes).1.Some?
      ensures var reply := rt(state, id, p, bytes).1.value;
        (id < a.numStages ==> !reply.isFinal) && First(reply.backend, TopP).None? && First(reply.backend, Seed).None?
    {
      FinalExactlyAtEnd(a, backends, parts, state, id, p, bytes, false, TopP);
      FinalExactlyAtEnd(a, backends, parts, state, id, p, bytes, false, Seed);
    }
  }

  /** With the repository's runtimes, both modes do the same on every printed map: same
      requests and bytes to every stage, same states, same frame. */
  lemma BothModesDoTheSame<S(!new)>(a: MapArgs, backends: nat -> Backend, parts: Parts<S>, nm: Numerics, states: seq<S>,
      s: Settings, c: Call, shape: seq<int>, bytes: seq<int>)
    requires Counts(a) && |states| == a.numStages
    ensures var rt, ps := RuntimeOf(a, backends, parts), Expected(a, a.numStages);
      SameOutcome(nm,
        Forward(a, rt, nm, states, ps, false, RequestFrame(nm, s.(chaining := false), c, shape, bytes)),
        Forward(a, rt, nm, states, ps, true, RequestFrame(nm, s.(chaining := true), c, shape, bytes)))
  {
    assert a.numStages >= 1;
    hide *;
    var rt := RuntimeOf(a, backends, parts);
    RuntimesAreTame(a, backends, parts, s);
    NativeLoop.NeverEarly(a, rt, nm, states, 1, RequestFrame(nm, s.(chaining := false), c, shape, bytes));
    HubIsChain(a, rt, nm, states, s, c, shape, bytes);
  }

  /** With the repository's runtimes every stage, in either mode, is told the gateway's request
      and sampling controls, and a frame comes back only after all of them were visited. */
  lemma RuntimesAreTold<S(!new)>(a: MapArgs, backends: nat -> Backend, parts: Parts<S>, nm: Numerics, states: seq<S>,
      s: Settings, c: Call, shape: seq<int>, bytes: seq<int>)
    requires Counts(a) && |states| == a.numStages && Settles(nm, s)
    ensures var o := Forward(a, RuntimeOf(a, backends, parts), nm, states, Expected(a, a.numStages), s.chaining,
                             RequestFrame(nm, s, c, shape, bytes));
      && ToldInOrder(o.visits, 1, c, SettingsSampling(nm, s)) && 1 <= |o.visits| <= a.numStages
      && (o.frame.Some? ==> |o.visits| == a.numStages)
  {
    hide RuntimeOf, Forward, Expected, RequestFrame, ToldInOrder, SettingsSampling, IgnoresChaining, QuietBackends, Alike;
    var rt := RuntimeOf(a, backends, parts);
    RuntimesAreTame(a, backends, parts, s);
    EveryStageIsTold(a, rt, nm, states, s, c, shape, bytes);
    if s.chaining {
      var hub := s.(chaining := false);
      assert s.(chaining := true) == s;
      SameControls(nm, s);
      RuntimesAreTame(a, backends, parts, hub);
      EveryStageIsTold(a, rt, nm, states, hub, c, shape, bytes);
      BothModesDoTheSame(a, backends, parts, nm, states, s, c, shape, bytes);
    }
  }

  lemma SameControls(nm: Numerics, s: Settings)
    ensures SettingsSampling(nm, s.(chaining := false)) == SettingsSampling(nm, s)
  {}

  /** With the repository's runtimes both modes generate the same tokens, end for the same
      reason and leave the stages in the same state. */
  lemma RuntimesGenerateTheSame<S(!new)>(
    a: MapArgs, backends: nat -> Backend, parts: Parts<S>, nm: Numerics, s: Settings, requestId: string,
    isStop: int -> bool, minNew: int, maxNew: int, prompt: seq<int>, start: seq<S>)
    requires Counts(a)
    ensures var rt := RuntimeOf(a, backends, parts);
      NativeLoop.NativeRun((w, step) => NativeLoop.RoutePass(a, rt, nm, s.(chaining := false), requestId, w, step),
                           isStop, minNew, maxNew, prompt, start)
      == NativeLoop.NativeRun((w, step) => NativeLoop.RoutePass(a, rt, nm, s.(chaining := true), requestId, w, step),
                              isStop, minNew, maxNew, prompt, start)
  {
    hide *;
    RuntimesAreTame(a, backends, parts, s);
    NativeLoop.ModesGenerateTheSame(a, RuntimeOf(a, backends, parts), nm, s, requestId, isStop, minNew, maxNew, prompt, start);
  }
}
