/** How a stage's process starts from its entry in a stage map, and which fleets of stages
    generate tokens. */
module StageStart {
  import opened Basics
  import ConfigText
  import Frames
  import opened Metadata
  import opened PartitionGraph
  import opened StageMap
  import opened StageMapEntries
  import opened StageMapRoundTrip
  import opened Routing
  import opened StageRuntimes
  import NativeLoop

  // ----- Starting -----

  /** The backend and the model path a process is given; "stub" and "" if it is given none. */
  datatype Options = Options(backend: string, modelPath: string)

  /** What a shard's file says of itself. */
  datatype Shard = Shard(stageId: int, components: Components, nextStageUrl: string, hidden: int)

  /** Each stage's options, and the shard in each of its files, if it can be loaded. */
  datatype Fleet = Fleet(options: nat -> Options, file: (nat, string) -> Option<Shard>)

  /** A stub gives way to the backend of the stage's own entry. */
  function BackendName(o: Options, entry: Partition): string {
    if o.backend == "stub" && entry.backend != "" then entry.backend else o.backend
  }

  predicate IsLlama(name: string) {
    name == "llama" || name == "llama-partial"
  }

  function ModelPath(o: Options, entry: Partition): string {
    if o.modelPath != "" then o.modelPath
    else if IsLlama(BackendName(o, entry)) && entry.nativePartitionFile != "" then entry.nativePartitionFile
    else entry.partitionFile
  }

  /** `validate_shard_against_stage_config`. */
  predicate Matches(shard: Shard, entry: Partition, id: int) {
    shard.stageId == id && shard.components == entry.components && shard.nextStageUrl == entry.nextStageUrl
  }

  /** What comes up: a llama runtime loads its file or throws, an unknown backend throws. */
  function StartStage(o: Options, file: string -> Option<Shard>, entry: Partition, id: int): Backend {
    if BackendName(o, entry) == "stub" then Stub
    else if !IsLlama(BackendName(o, entry)) then Down
    else
      var path := ModelPath(o, entry);
      if path == "" then Llama(false, 0)
      else match file(path)
        case None => Down
        case Some(shard) => if Matches(shard, entry, id) then Llama(true, shard.hidden) else Down
  }

  /** The same in full, for every entry: a process that is told nothing else goes by its
      entry, and a llama process comes up with the shard of its entry or, if no file is named
      at all, without one. */
  lemma StartsInFull(o: Options, file: string -> Option<Shard>, entry: Partition, id: int)
    ensures var b := StartStage(o, file, entry, id);
      var name := if o.backend != "stub" || entry.backend == "" then o.backend else entry.backend;
      var path := if o.modelPath != "" then o.modelPath
                  else if entry.nativePartitionFile != "" then entry.nativePartitionFile else entry.partitionFile;
      var fits := (s: Shard) => s.stageId == id && s.components == entry.components && s.nextStageUrl == entry.nextStageUrl;
      && (name == "stub" ==> b == Stub)
      && (name != "stub" && name != "llama" && name != "llama-partial" ==> b == Down)
      && (name == "llama" || name == "llama-partial" ==>
            b == if path == "" then Llama(false, 0)
                 else if file(path).Some? && fits(file(path).value) then Llama(true, file(path).value.hidden)
                 else Down)
  {
    assert |"stub"| == 4 && |"llama"| == 5 && |"llama-partial"| == 13;
  }

  /** The stages of a printed map, each started from the entry it reads. */
  function Started(a: MapArgs, fleet: Fleet): nat -> Backend {
    (id: nat) =>
      if Counts(a) && 1 <= id <= a.numStages then
        StartStage(fleet.options(id), path => fleet.file(id, path), Reading(a, id, ""), id)
      else Down
  }

  /** The stage was given a backend there is, and its file holds the shard of its entry: the
      same number, layers, roles and next address. */
  predicate HasShard(a: MapArgs, fleet: Fleet, id: nat)
    requires Counts(a) && 1 <= id <= a.numStages
  {
    var o := fleet.options(id);
    var path := if o.modelPath != "" then o.modelPath else ConfigText.Scalar(GgufFile(a, id));
    && (o.backend == "stub" || o.backend == "llama" || o.backend == "llama-partial")
    && fleet.file(id, path).Some?
    && var shard := fleet.file(id, path).value;
    && shard.stageId == id && shard.nextStageUrl == (if id < a.numStages then UrlOf(a, id + 1) else "")
    && shard.components.embedding == (id == 1) && shard.components.layers == Share(a.numLayers, a.numStages, id - 1)
    && shard.components.norm == shard.components.lmHead == (id == a.numStages)
  }

  lemma FileIsNamed(a: MapArgs, id: nat)
    ensures ConfigText.Scalar(GgufFile(a, id)) != ""
  {
    hide ConfigText.TrimLeft, Decimal.ToString, ModelDir;
    var g := GgufFile(a, id);
    assert g[|g| - 1] == 'f';
    TrimLeftKeepsEnd(g);
  }

  /** On a printed map every stage comes up as a llama stage with the shard of its entry, or
      not at all, and exactly when its file holds that shard: no stub, and no llama stage
      without a shard. */
  lemma StartsWithShard(a: MapArgs, fleet: Fleet, id: nat)
    requires Counts(a) && 1 <= id <= a.numStages
    ensures var b := Started(a, fleet)(id);
      && (b != Down <==> HasShard(a, fleet, id)) && (b != Down ==> b.Llama? && b.loaded)
  {
    FileIsNamed(a, id);
    hide ConfigText.Scalar, UrlOf, Share, GgufFile, PtFile;
    assert "stub" != "llama" by { assert |"stub"| != |"llama"|; }
    assert "stub" != "llama-partial" by { assert |"stub"| != |"llama-partial"|; }
  }

  // ----- Fleets that serve -----

  /** At least two stages, the first and the last of them llama ones, and every stage up, the
      llama ones with their shards. */
  predicate Serves(a: MapArgs, backends: nat -> Backend) {
    && a.numStages >= 2 && backends(1).Llama? && backends(a.numStages).Llama?
    && forall id :: 1 <= id <= a.numStages ==> Alive(backends(id))
  }

  predicate Alive(b: Backend) {
    b.Stub? || (b.Llama? && b.loaded)
  }

  /** The hidden size that the next llama stage from `id` on expects. */
  function Wanted(a: MapArgs, backends: nat -> Backend, id: nat): int
    decreases a.numStages - id
  {
    if backends(id).Llama? then backends(id).hidden
    else if id >= a.numStages then 0
    else Wanted(a, backends, id + 1)
  }

  predicate Suits(x: Option<Activation>, hidden: int) {
    x.Some? && IsHiddenStates(x.value.tensor, x.value.bytes, hidden)
  }

  /** The parts do their work: on what a stage accepts they yield what the next one accepts,
      and the last one a token. */
  ghost predicate Working<S(!new)>(a: MapArgs, backends: nat -> Backend, parts: Parts<S>) {
    && (forall state: S, id: nat, job: Job {:trigger parts.source(state, id, job)} ::
          IsTokenIds(job.tensor, job.bytes) ==> Suits(parts.source(state, id, job).1, Wanted(a, backends, id + 1)))
    && (forall state: S, id: nat, job: Job {:trigger parts.intermediate(state, id, job)} ::
          IsHiddenStates(job.tensor, job.bytes, Wanted(a, backends, id)) ==>
            Suits(parts.intermediate(state, id, job).1, Wanted(a, backends, id + 1)))
    && (forall state: S, id: nat, job: Job, s: Sampling {:trigger parts.terminal(state, id, job, s)} ::
          IsHiddenStates(job.tensor, job.bytes, Wanted(a, backends, id)) ==>
            parts.terminal(state, id, job, s).1.Some? && parts.terminal(state, id, job, s).1.value >= 0)
  }

  /** What a stage must be sent to go on. */
  predicate Welcome(a: MapArgs, backends: nat -> Backend, id: nat, p: Parsed, bytes: seq<int>) {
    if id == 1 then IsTokenIds(p.tensor, bytes) else IsHiddenStates(p.tensor, bytes, Wanted(a, backends, id))
  }

  /** In a fleet that serves, a stage that is sent what it must be sends on the same, or if it
      is the last answers with a token. */
  lemma ServingStage<S(!new)>(a: MapArgs, backends: nat -> Backend, parts: Parts<S>, state: S, id: nat, p: Parsed,
      bytes: seq<int>)
    requires Counts(a) && 1 <= id <= a.numStages && Serves(a, backends) && Working(a, backends, parts)
    requires Welcome(a, backends, id, p, bytes)
    ensures var reply := RunStage(a, backends, parts, state, id, p, bytes).1;
      && reply.Some?
      && (id == a.numStages ==> reply.value.nextToken >= 0)
      && (id < a.numStages ==>
            IsHiddenStates(OutTensor(p, reply.value), reply.value.bytes, Wanted(a, backends, id + 1)))
  {
    RolesOf(a, id);
    assert Alive(backends(id));
    hide Reading, LlamaMetadata, Sized;
  }

  /** What the next reader understands of a stage's answer. */
  lemma AloneIsRead<S(!new)>(a: MapArgs, rt: Runtime<S>, nm: Numerics, states: seq<S>, id: nat, f: Frame)
    requires Counts(a) && |states| == a.numStages && 1 <= id <= a.numStages
    requires rt(states[id - 1], id, Parse(nm, f.meta), f.bytes).1.Some?
    ensures var o, p := Alone(a, rt, nm, states, id, f), Parse(nm, f.meta);
      var reply := rt(states[id - 1], id, p, f.bytes).1.value;
      && o.frame.Some? && o.frame.value.bytes == reply.bytes
      && Parse(nm, o.frame.value.meta).tensor == OutTensor(p, reply)
      && Parse(nm, o.frame.value.meta).call == p.call.(nextToken := Some(reply.nextToken))
      && Parse(nm, o.frame.value.meta).chaining == p.chaining
  {
    var p := Parse(nm, f.meta);
    StageMetaIsRead(nm, p, rt(states[id - 1], id, p, f.bytes).1.value);
    hide Parse, StageMeta, OutTensor, OnwardSampling, First;
  }

  lemma {:induction false} ServedHub<S(!new)>(a: MapArgs, backends: nat -> Backend, parts: Parts<S>, nm: Numerics,
      states: seq<S>, id: nat, f: Frame)
    requires Counts(a) && |states| == a.numStages && 1 <= id <= a.numStages
    requires Serves(a, backends) && Working(a, backends, parts) && !Parse(nm, f.meta).chaining
    requires Welcome(a, backends, id, Parse(nm, f.meta), f.bytes)
    ensures |Expected(a, a.numStages)| == a.numStages
    ensures var o := Hub(a, RuntimeOf(a, backends, parts), nm, states, Expected(a, a.numStages), id - 1, f);
      o.frame.Some? && NativeLoop.ValidToken(nm, o.frame.value).Some?
    decreases a.numStages - id
  {
    hide Parse, Expected, Hub, RunStage, Serves, Working, IsHiddenStates, IsTokenIds, OutTensor, Wanted, Alone;
    var rt := RuntimeOf(a, backends, parts);
    HubUnfolds(a, rt, nm, states, id, f);
    ServingStage(a, backends, parts, states[id - 1], id, Parse(nm, f.meta), f.bytes);
    AloneIsRead(a, rt, nm, states, id, f);
    var o := Alone(a, rt, nm, states, id, f);
    if id < a.numStages {
      ServedHub(a, backends, parts, nm, o.states, id + 1, o.frame.value);
    }
  }

  // ----- Fleets that do not -----

  /** Without a terminal part the gateway's own loop ends a prefill without a token. */
  lemma {:induction false} PrefillYieldsNothing<S(!new)>(a: MapArgs, backends: nat -> Backend, parts: Parts<S>,
      nm: Numerics, states: seq<S>, id: nat, f: Frame)
    requires Counts(a) && |states| == a.numStages && 1 <= id <= a.numStages && !HasTerminalPart(a, backends)
    requires !Parse(nm, f.meta).chaining && Parse(nm, f.meta).call.mode == "prefill"
    ensures |Expected(a, a.numStages)| == a.numStages
    ensures var o := Hub(a, RuntimeOf(a, backends, parts), nm, states, Expected(a, a.numStages), id - 1, f);
      o.frame.Some? ==> NativeLoop.ValidToken(nm, o.frame.value).None?
    decreases a.numStages - id
  {
    hide Parse, Expected, Hub, RunStage, OutTensor, HasTerminalPart, Alone;
    var rt := RuntimeOf(a, backends, parts);
    HubUnfolds(a, rt, nm, states, id, f);
    FinalExactlyAtEnd(a, backends, parts, states[id - 1], id, Parse(nm, f.meta), f.bytes, false, TopP);
    AloneFails(a, rt, nm, states, id, f);
    if rt(states[id - 1], id, Parse(nm, f.meta), f.bytes).1.Some? {
      AloneIsRead(a, rt, nm, states, id, f);
      var o := Alone(a, rt, nm, states, id, f);
      if id < a.numStages {
        PrefillYieldsNothing(a, backends, parts, nm, o.states, id + 1, o.frame.value);
      }
    }
  }

  lemma AloneFails<S(!new)>(a: MapArgs, rt: Runtime<S>, nm: Numerics, states: seq<S>, id: nat, f: Frame)
    requires Counts(a) && |states| == a.numStages && 1 <= id <= a.numStages
    ensures Alone(a, rt, nm, states, id, f).frame.Some? <==> rt(states[id - 1], id, Parse(nm, f.meta), f.bytes).1.Some?
  {
    hide Parse, StageMeta;
  }

  /** A stage that is down, or has no shard, or is not the first and is sent token ids, and
      has a llama stage at or behind it. */
  predicate Hopeless(a: MapArgs, backends: nat -> Backend, id: nat, at: nat, p: Parsed) {
    || (id <= at <= a.numStages && !Alive(backends(at)))
    || (id > 1 && p.tensor.dtype == "int64" && p.tensor.shape != []
        && a.numStages >= 1 && backends(a.numStages).Llama?)
  }

  lemma HopelessStage<S(!new)>(a: MapArgs, backends: nat -> Backend, parts: Parts<S>, state: S, id: nat, at: nat,
      p: Parsed, bytes: seq<int>)
    requires Counts(a) && 1 <= id <= a.numStages && Hopeless(a, backends, id, at, p)
    ensures var reply := RunStage(a, backends, parts, state, id, p, bytes).1;
      reply.Some? ==>
        && id < a.numStages
        && ((id + 1 <= at <= a.numStages && !Alive(backends(at)))
            || (OutTensor(p, reply.value) == p.tensor && p.tensor.dtype == "int64" && p.tensor.shape != []
                && backends(a.numStages).Llama?))
  {
    RolesOf(a, id);
    assert "int64" != "float32" && "int64" != "float16" by { assert "int64"[0] != "float32"[0] && "int64"[0] != "float16"[0]; }
    hide Reading, LlamaMetadata, Sized, IsTokenIds;
  }

  lemma {:induction false} HopelessHub<S(!new)>(a: MapArgs, backends: nat -> Backend, parts: Parts<S>, nm: Numerics,
      states: seq<S>, id: nat, at: nat, f: Frame)
    requires Counts(a) && |states| == a.numStages && 1 <= id <= a.numStages
    requires !Parse(nm, f.meta).chaining && Hopeless(a, backends, id, at, Parse(nm, f.meta))
    ensures |Expected(a, a.numStages)| == a.numStages
    ensures Hub(a, RuntimeOf(a, backends, parts), nm, states, Expected(a, a.numStages), id - 1, f).frame.None?
    decreases a.numStages - id
  {
    hide Parse, Expected, Hub, RunStage, OutTensor, Alone, Alive;
    var rt := RuntimeOf(a, backends, parts);
    HubUnfolds(a, rt, nm, states, id, f);
    HopelessStage(a, backends, parts, states[id - 1], id, at, Parse(nm, f.meta), f.bytes);
    AloneFails(a, rt, nm, states, id, f);
    if rt(states[id - 1], id, Parse(nm, f.meta), f.bytes).1.Some? {
      AloneIsRead(a, rt, nm, states, id, f);
      var o := Alone(a, rt, nm, states, id, f);
      HopelessHub(a, backends, parts, nm, o.states, id + 1, at, o.frame.value);
    }
  }

  /** A stub at the first stage hands the token ids on. */
  lemma StubHandsOn<S(!new)>(a: MapArgs, backends: nat -> Backend, parts: Parts<S>, state: S, p: Parsed, bytes: seq<int>)
    requires Counts(a) && backends(1).Stub? && p.tensor.shape != []
    ensures var reply := RunStage(a, backends, parts, state, 1, p, bytes).1;
      reply.Some? && OutTensor(p, reply.value) == p.tensor
  {}

  /** A llama stage with the embedding takes no empty sequence. */
  lemma NothingIsRefused<S(!new)>(a: MapArgs, backends: nat -> Backend, parts: Parts<S>, state: S, p: Parsed, bytes: seq<int>)
    requires Counts(a) && backends(1).Llama? && p.tensor.shape == [1, 0]
    ensures RunStage(a, backends, parts, state, 1, p, bytes).1.None?
  {
    RolesOf(a, 1);
    assert p.tensor.shape[1] == 0;
    hide Reading, LlamaMetadata, IsHiddenStates;
  }

  /** The first frame of a generation, at the first stage. */
  lemma FailingPrefill<S(!new)>(a: MapArgs, backends: nat -> Backend, parts: Parts<S>, nm: Numerics, states: seq<S>, f: Frame,
      prompt: seq<int>)
    requires Counts(a) && |states| == a.numStages && !(Serves(a, backends) && prompt != [])
    requires !Parse(nm, f.meta).chaining && Parse(nm, f.meta).call.mode == "prefill"
    requires Parse(nm, f.meta).tensor == Tensor("int64", [1, |prompt|], "little")
    ensures |Expected(a, a.numStages)| == a.numStages
    ensures var o := Hub(a, RuntimeOf(a, backends, parts), nm, states, Expected(a, a.numStages), 0, f);
      o.frame.Some? ==> NativeLoop.ValidToken(nm, o.frame.value).None?
  {
    hide Parse, Expected, Hub, RunStage, OutTensor, Alone, Alive;
    if !HasTerminalPart(a, backends) {
      PrefillYieldsNothing(a, backends, parts, nm, states, 1, f);
    } else if at: nat :| 1 <= at <= a.numStages && !Alive(backends(at)) {
      HopelessHub(a, backends, parts, nm, states, 1, at, f);
    } else {
      var rt := RuntimeOf(a, backends, parts);
      HubUnfolds(a, rt, nm, states, 1, f);
      AloneFails(a, rt, nm, states, 1, f);
      AliveIsStubOrLlama(backends(1));
      if backends(1).Stub? {
        StubHandsOn(a, backends, parts, states[0], Parse(nm, f.meta), f.bytes);
        AloneIsRead(a, rt, nm, states, 1, f);
        var o := Alone(a, rt, nm, states, 1, f);
        HopelessHub(a, backends, parts, nm, o.states, 2, 0, o.frame.value);
      } else {
        NothingIsRefused(a, backends, parts, states[0], Parse(nm, f.meta), f.bytes);
      }
    }
  }

  lemma AliveIsStubOrLlama(b: Backend)
    requires Alive(b)
    ensures b.Stub? || b.Llama?
  {}

  /** What the gateway's own loop makes of one step's frame. */
  lemma HubPass<S(!new)>(a: MapArgs, rt: Runtime<S>, nm: Numerics, s: Settings, requestId: string, w: seq<S>,
      step: NativeLoop.Step)
    requires Counts(a) && |w| == a.numStages && IgnoresChaining(rt) && NativeLoop.FinalOnlyAtEnd(rt, a.numStages)
    ensures |Expected(a, a.numStages)| == a.numStages
    ensures var c, shape := Call(requestId, step.tokenIndex, step.mode, None), [1, |step.tokens|];
      var f := RequestFrame(nm, s.(chaining := false), c, shape, NativeLoop.TokenBytes(step.tokens));
      && NativeLoop.RoutePass(a, rt, nm, s, requestId, w, step)
         == NativeLoop.NextOf(nm, Hub(a, rt, nm, w, Expected(a, a.numStages), 0, f))
      && f.bytes == NativeLoop.TokenBytes(step.tokens) && !Parse(nm, f.meta).chaining
      && Parse(nm, f.meta).call == c && Parse(nm, f.meta).tensor == Tensor("int64", shape, "little")
  {
    hide Expected, Hub, Handle, Parse, RequestMeta, IgnoresChaining, NativeLoop.FinalOnlyAtEnd, NativeLoop.NextOf,
      SettingsSampling, NativeLoop.TokenBytes;
    var hub, c, shape := s.(chaining := false), Call(requestId, step.tokenIndex, step.mode, None), [1, |step.tokens|];
    NativeLoop.RoutePassesAgree(a, rt, nm, s, requestId, w, step);
    assert s == s.(chaining := s.chaining);
    RequestMetaIsRead(nm, hub, c, shape);
    ForwardStarts(a, rt, nm, w, RequestFrame(nm, hub, c, shape, NativeLoop.TokenBytes(step.tokens)));
  }

  lemma {:induction false} TokenBytesCount(tokens: seq<int>)
    ensures |NativeLoop.TokenBytes(tokens)| == |tokens| * 8
  {
    if tokens == [] {
    } else {
      TokenBytesCount(tokens[1..]);
    }
  }

  lemma ProductCons(n: int, shape: seq<int>)
    ensures Product([n] + shape) == n * Product(shape)
  {
    assert ([n] + shape)[1..] == shape;
  }

  /** One sequence of n positions; one position of n numbers. */
  lemma ProductOfOnes(n: int)
    ensures Product([1, n]) == n && Product([1, 1, n]) == n
  {
    ProductCons(n, []);
    ProductCons(1, [n]);
    ProductCons(1, [1, n]);
    assert [n] + [] == [n] && [1] + [n] == [1, n] && [1] + [1, n] == [1, 1, n];
  }

  lemma TokensAreTokenIds(tokens: seq<int>)
    requires tokens != []
    ensures IsTokenIds(Tensor("int64", [1, |tokens|], "little"), NativeLoop.TokenBytes(tokens))
  {
    hide NativeLoop.TokenBytes, Product;
    TokenBytesCount(tokens);
    ProductOfOnes(|tokens|);
  }

  lemma FailingPass<S(!new)>(a: MapArgs, backends: nat -> Backend, parts: Parts<S>, nm: Numerics, s: Settings,
      requestId: string, prompt: seq<int>, w: seq<S>)
    requires Counts(a) && |w| == a.numStages && !(Serves(a, backends) && prompt != [])
    ensures var step := NativeLoop.Step(0, "prefill", prompt);
      NativeLoop.RoutePass(a, RuntimeOf(a, backends, parts), nm, s, requestId, w, step).1 in {None, Some(None)}
  {
    hide RuntimeOf, Serves, Parse, RequestFrame, Hub, Expected, NativeLoop.RoutePass, NativeLoop.ValidToken, NativeLoop.TokenBytes,
      IgnoresChaining, NativeLoop.FinalOnlyAtEnd;
    var rt, step := RuntimeOf(a, backends, parts), NativeLoop.Step(0, "prefill", prompt);
    RuntimesAreTame(a, backends, parts, s);
    HubPass(a, rt, nm, s, requestId, w, step);
    FailingPrefill(a, backends, parts, nm, w,
      RequestFrame(nm, s.(chaining := false), Call(requestId, 0, "prefill", None), [1, |prompt|], NativeLoop.TokenBytes(prompt)),
      prompt);
  }

  lemma ServedPass<S(!new)>(a: MapArgs, backends: nat -> Backend, parts: Parts<S>, nm: Numerics, s: Settings,
      requestId: string, w: seq<S>, step: NativeLoop.Step)
    requires Counts(a) && |w| == a.numStages && Serves(a, backends) && Working(a, backends, parts) && step.tokens != []
    ensures var (after, answer) := NativeLoop.RoutePass(a, RuntimeOf(a, backends, parts), nm, s, requestId, w, step);
      |after| == a.numStages && answer.Some? && answer.value.Some?
  {
    hide RuntimeOf, Serves, Working, Parse, RequestFrame, Hub, Expected, NativeLoop.RoutePass, NativeLoop.ValidToken,
      NativeLoop.TokenBytes, IsTokenIds, IsHiddenStates, IgnoresChaining, NativeLoop.FinalOnlyAtEnd;
    var rt := RuntimeOf(a, backends, parts);
    RuntimesAreTame(a, backends, parts, s);
    HubPass(a, rt, nm, s, requestId, w, step);
    TokensAreTokenIds(step.tokens);
    ServedHub(a, backends, parts, nm, w, 1,
      RequestFrame(nm, s.(chaining := false), Call(requestId, step.tokenIndex, step.mode, None), [1, |step.tokens|],
                   NativeLoop.TokenBytes(step.tokens)));
  }

  // ----- Generations -----

  /** Passes that keep a world as it should be and answer it with a token never fail a run. */
  lemma {:induction false} DecodeSucceeds<W(!new)>(pass: NativeLoop.Pass<W>, good: W -> bool, isStop: int -> bool, minNew: int,
      steps: nat, r: NativeLoop.Run<W>)
    requires forall w: W, step: NativeLoop.Step {:trigger pass(w, step)} :: good(w) && step.tokens != [] ==>
      good(pass(w, step).0) && pass(w, step).1.Some? && pass(w, step).1.value.Some?
    requires good(r.world) && r.tokens != [] && r.reason != NativeLoop.Error
    ensures var d := NativeLoop.Decode(pass, isStop, minNew, steps, r);
      d.tokens != [] && d.reason != NativeLoop.Error
    decreases steps - |r.tokens|
  {
    var i := |r.tokens|;
    if i >= steps {
    } else {
      var step := NativeLoop.Step(i, "decode", [r.tokens[i - 1]]);
      var (world, answer) := pass(r.world, step);
      DecodeSucceeds(pass, good, isStop, minNew, steps,
        NativeLoop.Run(world, r.fed + [step], r.tokens + [answer.value.value], NativeLoop.MaxNewTokens));
    }
  }

  lemma RunSucceeds<W(!new)>(pass: NativeLoop.Pass<W>, good: W -> bool, isStop: int -> bool, minNew: int, maxNew: int,
      prompt: seq<int>, start: W)
    requires forall w: W, step: NativeLoop.Step {:trigger pass(w, step)} :: good(w) && step.tokens != [] ==>
      good(pass(w, step).0) && pass(w, step).1.Some? && pass(w, step).1.value.Some?
    requires good(start) && prompt != [] && maxNew > 0
    ensures var r := NativeLoop.NativeRun(pass, isStop, minNew, maxNew, prompt, start);
      r.tokens != [] && r.reason != NativeLoop.Error
  {
    var prefill := NativeLoop.Step(0, "prefill", prompt);
    var (world, answer) := pass(start, prefill);
    DecodeSucceeds(pass, good, isStop, minNew, maxNew,
      NativeLoop.Run(world, [prefill], [answer.value.value], NativeLoop.MaxNewTokens));
  }

  lemma RunFails<W(!new)>(pass: NativeLoop.Pass<W>, isStop: int -> bool, minNew: int, maxNew: int, prompt: seq<int>, start: W)
    requires maxNew > 0 && pass(start, NativeLoop.Step(0, "prefill", prompt)).1 in {None, Some(None)}
    ensures var r := NativeLoop.NativeRun(pass, isStop, minNew, maxNew, prompt, start);
      r.tokens == [] && r.reason == NativeLoop.Error
  {}

  /** A whole generation over a fleet, in the mode of the settings. */
  function RunOver<S>(a: MapArgs, backends: nat -> Backend, parts: Parts<S>, nm: Numerics, s: Settings, requestId: string,
      isStop: int -> bool, minNew: int, maxNew: int, prompt: seq<int>, start: seq<S>): NativeLoop.Run<seq<S>>
    requires Counts(a)
  {
    NativeLoop.NativeRun((w, step) => NativeLoop.RoutePass(a, RuntimeOf(a, backends, parts), nm, s, requestId, w, step),
                         isStop, minNew, maxNew, prompt, start)
  }

  /** Which generations succeed, over any mix of the repository's runtimes, in either mode: if
      the fleet serves and the prompt has a token, and the parts do their work, there are
      tokens and no failure; if the fleet does not serve or the prompt has no token, then
      whatever the parts do the generation fails without a token. */
  lemma GeneratesExactlyWhereServed<S(!new)>(a: MapArgs, backends: nat -> Backend, parts: Parts<S>, nm: Numerics, s: Settings,
      requestId: string, isStop: int -> bool, minNew: int, maxNew: int, prompt: seq<int>, start: seq<S>)
    requires Counts(a) && |start| == a.numStages && maxNew > 0
    ensures var r := RunOver(a, backends, parts, nm, s, requestId, isStop, minNew, maxNew, prompt, start);
      && (Serves(a, backends) && prompt != [] && Working(a, backends, parts) ==>
            r.tokens != [] && r.reason != NativeLoop.Error)
      && (!(Serves(a, backends) && prompt != []) ==> r.tokens == [] && r.reason == NativeLoop.Error)
  {
    hide NativeLoop.RoutePass, NativeLoop.NativeRun, RuntimeOf, Serves, Working;
    var rt := RuntimeOf(a, backends, parts);
    var pass := (w: seq<S>, step: NativeLoop.Step) => NativeLoop.RoutePass(a, rt, nm, s, requestId, w, step);
    if Serves(a, backends) && prompt != [] {
      if Working(a, backends, parts) {
        forall w: seq<S>, step: NativeLoop.Step | |w| == a.numStages && step.tokens != []
          ensures |pass(w, step).0| == a.numStages && pass(w, step).1.Some? && pass(w, step).1.value.Some?
        {
          ServedPass(a, backends, parts, nm, s, requestId, w, step);
        }
        RunSucceeds(pass, w => |w| == a.numStages, isStop, minNew, maxNew, prompt, start);
      }
    } else {
      FailingPass(a, backends, parts, nm, s, requestId, prompt, start);
      RunFails(pass, isStop, minNew, maxNew, prompt, start);
    }
  }

  // ----- There are parts that do their work -----

  function Zeros(n: nat): seq<int> {
    seq(n, _ => 0)
  }

  function ZeroStates(hidden: int): Activation {
    var h := if hidden > 0 then hidden else 1;
    Activation(Zeros(4 * h), Tensor("float32", [1, 1, h], "little"))
  }

  /** Parts that yield zeros of the size asked for, and the first token. */
  function ZeroParts<S>(a: MapArgs, backends: nat -> Backend): Parts<S> {
    Parts(
      (state: S, id: nat, job: Job) => (state, Some(ZeroStates(Wanted(a, backends, id + 1)))),
      (state: S, id: nat, job: Job) => (state, Some(ZeroStates(Wanted(a, backends, id + 1)))),
      (state: S, id: nat, job: Job, s: Sampling) => (state, Some(0)))
  }

  lemma ZeroStatesSuit(hidden: int)
    ensures Suits(Some(ZeroStates(hidden)), hidden)
  {
    hide Product;
    ProductOfOnes(if hidden > 0 then hidden else 1);
  }

  lemma ZeroPartsWork<S(!new)>(a: MapArgs, backends: nat -> Backend)
    ensures Working(a, backends, ZeroParts<S>(a, backends))
  {
    hide IsHiddenStates, IsTokenIds, ZeroStates, Wanted;
    forall hidden: int ensures Suits(Some(ZeroStates(hidden)), hidden) {
      ZeroStatesSuit(hidden);
    }
  }

  /** Some generation of the fleet yields a token. */
  ghost predicate CanGenerate<S(!new)>(a: MapArgs, backends: nat -> Backend, nm: Numerics, s: Settings, requestId: string,
      isStop: int -> bool, minNew: int, maxNew: int)
    requires Counts(a)
  {
    exists parts: Parts<S>, prompt: seq<int>, start: seq<S> :: |start| == a.numStages
      && RunOver(a, backends, parts, nm, s, requestId, isStop, minNew, maxNew, prompt, start).tokens != []
  }

  /** A fleet can generate a token exactly if it serves. */
  lemma CanGenerateExactlyIfItServes<S(!new)>(a: MapArgs, backends: nat -> Backend, nm: Numerics, s: Settings, requestId: string,
      isStop: int -> bool, minNew: int, maxNew: int, session: S)
    requires Counts(a) && maxNew > 0
    ensures CanGenerate<S>(a, backends, nm, s, requestId, isStop, minNew, maxNew) <==> Serves(a, backends)
  {
    hide RunOver, Serves, Working;
    if Serves(a, backends) {
      var parts, prompt, start := ZeroParts<S>(a, backends), [0], seq(a.numStages, _ => session);
      ZeroPartsWork<S>(a, backends);
      GeneratesExactlyWhereServed(a, backends, parts, nm, s, requestId, isStop, minNew, maxNew, prompt, start);
      assert RunOver(a, backends, parts, nm, s, requestId, isStop, minNew, maxNew, prompt, start).tokens != [];
    } else {
      forall parts: Parts<S>, prompt: seq<int>, start: seq<S> | |start| == a.numStages
        ensures RunOver(a, backends, parts, nm, s, requestId, isStop, minNew, maxNew, prompt, start).tokens == []
      {
        GeneratesExactlyWhereServed(a, backends, parts, nm, s, requestId, isStop, minNew, maxNew, prompt, start);
      }
    }
  }

  // ----- The fleets of a printed map -----

  lemma StartedServes(a: MapArgs, fleet: Fleet)
    requires Counts(a)
    ensures Serves(a, Started(a, fleet)) <==>
      a.numStages >= 2 && forall id :: 1 <= id <= a.numStages ==> HasShard(a, fleet, id)
  {
    forall id: nat | 1 <= id <= a.numStages
      ensures var b := Started(a, fleet)(id); (Alive(b) <==> HasShard(a, fleet, id)) && (Alive(b) ==> b.Llama?)
    {
      StartsWithShard(a, fleet, id);
    }
    hide HasShard, Started, Alive;
  }

  /** On every printed map a token can be generated exactly if there are at least two stages
      and every stage's process was given a backend there is and the shard of its entry. */
  lemma PrintedMapGenerates<S(!new)>(a: MapArgs, fleet: Fleet, nm: Numerics, s: Settings, requestId: string,
      isStop: int -> bool, minNew: int, maxNew: int, session: S)
    requires Counts(a) && maxNew > 0
    ensures CanGenerate<S>(a, Started(a, fleet), nm, s, requestId, isStop, minNew, maxNew) <==>
      a.numStages >= 2 && forall id :: 1 <= id <= a.numStages ==> HasShard(a, fleet, id)
  {
    hide *;
    StartedServes(a, fleet);
    CanGenerateExactlyIfItServes<S>(a, Started(a, fleet), nm, s, requestId, isStop, minNew, maxNew, session);
  }

  /** A map with one stage is printed, accepted and served, and generates nothing: whatever the
      fleet, the parts and the prompt, every generation fails without a token. */
  lemma OneStageGeneratesNothing<S(!new)>(a: MapArgs, fleet: Fleet, parts: Parts<S>, nm: Numerics, s: Settings,
      requestId: string, isStop: int -> bool, minNew: int, maxNew: int, prompt: seq<int>, start: seq<S>)
    requires Counts(a) && a.numStages == 1 && |start| == 1 && maxNew > 0
    ensures var r := RunOver(a, Started(a, fleet), parts, nm, s, requestId, isStop, minNew, maxNew, prompt, start);
      r.tokens == [] && r.reason == NativeLoop.Error
  {
    hide RunOver, Started;
    GeneratesExactlyWhereServed(a, Started(a, fleet), parts, nm, s, requestId, isStop, minNew, maxNew, prompt, start);
  }
}
