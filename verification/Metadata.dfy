/** The metadata that travels with every native frame: an ordered list of keys and values,
    read by first match of a key with a value of the asked-for kind. */
module Metadata {
  import opened Basics

  datatype Key =
    | RequestId | Rid | TokenIndex | Ti | NextTokenId | Nt | GenerationMode | Gm
    | Precision | Ap | Transport | Tm | Rebalance | Sessions | Ps | Topology
    | Level | Ml | Chaining | Nsc | Dtype | Dt | ByteOrder | Bo | Shape | Sh
    | KvCache | Kv | Temperature | TopK | TopP | Seed
    | ChainMetric(name: string)  // put in by merge_chain_metrics
    | Unread(name: string)       // anything else: no reader asks for it

  datatype Value = Text(text: string) | Whole(i: int) | Number(x: real) | Flag(on: bool) | Dims(dims: seq<int>) | Nothing

  datatype Pair = Pair(key: Key, value: Value)

  datatype Kind = IsText | IsWhole | IsNumber | IsFlag | IsDims | IsUnread

  function KindOf(k: Key): Kind {
    match k
    case TokenIndex => IsWhole case Ti => IsWhole case NextTokenId => IsWhole case Nt => IsWhole case TopK => IsWhole
    case Temperature => IsNumber case TopP => IsNumber case Seed => IsNumber
    case Sessions => IsFlag case Ps => IsFlag case Topology => IsFlag case Chaining => IsFlag case Nsc => IsFlag
    case KvCache => IsFlag case Kv => IsFlag
    case Shape => IsDims case Sh => IsDims
    case ChainMetric(_) => IsUnread case Unread(_) => IsUnread
    case _ => IsText
  }

  /** The value patterns. A number's text starts like an int's, so both match either. */
  predicate Fits(kind: Kind, v: Value) {
    match kind
    case IsText => v.Text?
    case IsWhole => v.Whole? || v.Number?
    case IsNumber => v.Whole? || v.Number?
    case IsFlag => v.Flag?
    case IsDims => v.Dims?
    case IsUnread => false
  }

  /** The pattern for the shape takes either of its two names. */
  predicate Reads(k: Key, e: Pair) {
    (e.key == k || (k == Shape && e.key == Sh)) && Fits(KindOf(k), e.value)
  }

  function First(m: seq<Pair>, k: Key): (r: Option<Value>)
    ensures r.Some? ==> Fits(KindOf(k), r.value)
  {
    if m == [] then None else if Reads(k, m[0]) then Some(m[0].value) else First(m[1..], k)
  }

  lemma FirstCons(e: Pair, m: seq<Pair>, k: Key)
    ensures First([e] + m, k) == if Reads(k, e) then Some(e.value) else First(m, k)
  {
    assert ([e] + m)[1..] == m;
  }

  /** How numbers are printed and read: what an ostream shows of a double, what to_string
      does, the int that a number's text starts with, a double cast to an integer, and an
      integer read as a double and cast back. */
  datatype Numerics = Numerics(
    shown: real -> real, fixed: real -> real, whole: real -> int, truncated: real -> int, viaDouble: int -> int)

  function AsInt(nm: Numerics, v: Value): int
    requires Fits(IsWhole, v)
  {
    if v.Whole? then v.i else nm.whole(v.x)
  }

  function AsReal(v: Value): real
    requires Fits(IsNumber, v)
  {
    if v.Whole? then v.i as real else v.x
  }

  function AsSeed(nm: Numerics, v: Value): int
    requires Fits(IsNumber, v)
  {
    if v.Whole? then nm.viaDouble(v.i) else nm.truncated(v.x)
  }

  datatype Call = Call(requestId: string, tokenIndex: int, mode: string, nextToken: Option<int>)

  datatype Tensor = Tensor(dtype: string, shape: seq<int>, byteOrder: string)

  datatype Features = Features(
    kvCache: bool, precision: string, transport: string, rebalance: string,
    sessions: bool, topology: bool, level: string)

  datatype Sampling = Sampling(temperature: Option<real>, topK: Option<int>, topP: Option<real>, seed: Option<int>)

  datatype Parsed = Parsed(call: Call, tensor: Tensor, features: Features, sampling: Sampling, chaining: bool)

  function TextOr(v: Option<Value>, default: string): string {
    if v.Some? && v.value.Text? then v.value.text else default
  }

  function FlagOr(v: Option<Value>): bool {
    v.Some? && v.value.Flag? && v.value.on
  }

  function IntOf(nm: Numerics, v: Option<Value>): Option<int> {
    if v.Some? && Fits(IsWhole, v.value) then Some(AsInt(nm, v.value)) else None
  }

  function RealOf(v: Option<Value>): Option<real> {
    if v.Some? && Fits(IsNumber, v.value) then Some(AsReal(v.value)) else None
  }

  function SeedOf(nm: Numerics, v: Option<Value>): Option<int> {
    if v.Some? && Fits(IsNumber, v.value) then Some(AsSeed(nm, v.value)) else None
  }

  function DimsOf(v: Option<Value>): seq<int> {
    if v.Some? && v.value.Dims? then v.value.dims else []
  }

  /** A long name, or its short form. */
  function Either(m: seq<Pair>, long: Key, short: Key): Option<Value> {
    if First(m, long).Some? then First(m, long) else First(m, short)
  }

  function ParseCall(nm: Numerics, m: seq<Pair>): Call {
    Call(
      TextOr(Either(m, RequestId, Rid), ""),
      match IntOf(nm, Either(m, TokenIndex, Ti)) case None => 0 case Some(i) => i,
      TextOr(Either(m, GenerationMode, Gm), "unknown"),
      IntOf(nm, Either(m, NextTokenId, Nt)))
  }

  function ParseTensor(m: seq<Pair>): Tensor {
    Tensor(TextOr(Either(m, Dtype, Dt), ""), DimsOf(First(m, Shape)), TextOr(Either(m, ByteOrder, Bo), "little"))
  }

  function ParseFeatures(m: seq<Pair>): Features {
    Features(
      FlagOr(Either(m, KvCache, Kv)),
      TextOr(Either(m, Precision, Ap), "fp32"),
      TextOr(Either(m, Transport, Tm), "binary_octet_stream"),
      TextOr(First(m, Rebalance), "baseline"),
      FlagOr(Either(m, Sessions, Ps)),
      FlagOr(First(m, Topology)),
      TextOr(Either(m, Level, Ml), "debug"))
  }

  function ParseSampling(nm: Numerics, m: seq<Pair>): Sampling {
    Sampling(RealOf(First(m, Temperature)), IntOf(nm, First(m, TopK)), RealOf(First(m, TopP)), SeedOf(nm, First(m, Seed)))
  }

  function Parse(nm: Numerics, m: seq<Pair>): Parsed {
    Parsed(ParseCall(nm, m), ParseTensor(m), ParseFeatures(m), ParseSampling(nm, m), FlagOr(Either(m, Chaining, Nsc)))
  }

  /** Parsing asks for nothing but first matches. */
  lemma SameFirstsSameParse(nm: Numerics, a: seq<Pair>, b: seq<Pair>)
    requires forall k :: First(a, k) == First(b, k)
    ensures Parse(nm, a) == Parse(nm, b)
  {
    hide First, TextOr, FlagOr, IntOf, RealOf, SeedOf, DimsOf;
  }

  /** Two names that one pattern reads. */
  predicate SameField(a: Key, b: Key) {
    if a.Shape? || a.Sh? then b.Shape? || b.Sh? else a == b && !a.Unread? && !a.ChainMetric?
  }

  /** No two entries that one pattern could read. */
  ghost predicate Unambiguous(m: seq<Pair>) {
    forall i, j :: 0 <= i < j < |m| ==> !SameField(m[i].key, m[j].key)
  }

  /** In an unambiguous list an entry is what a reader of its key finds, whatever follows. */
  lemma {:induction false} FirstIsThere(m: seq<Pair>, rest: seq<Pair>, e: Pair, k: Key)
    requires Unambiguous(m) && e in m && Reads(k, e)
    ensures First(m + rest, k) == Some(e.value)
    decreases |m|
  {
    hide First;
    var i :| 0 <= i < |m| && m[i] == e;
    assert m + rest == [m[0]] + (m[1..] + rest);
    FirstCons(m[0], m[1..] + rest, k);
    if i == 0 {
    } else {
      assert !SameField(m[0].key, m[i].key);
      assert m[1..][i - 1] == e;
      assert Unambiguous(m[1..]);
      FirstIsThere(m[1..], rest, e, k);
    }
  }

  /** A key that no entry answers is read from what follows. */
  lemma {:induction false} FirstIsLater(m: seq<Pair>, rest: seq<Pair>, k: Key)
    requires forall i :: 0 <= i < |m| ==> !Reads(k, m[i])
    ensures First(m + rest, k) == First(rest, k)
    decreases |m|
  {
    if m == [] {
      assert m + rest == rest;
    } else {
      assert m + rest == [m[0]] + (m[1..] + rest);
      FirstCons(m[0], m[1..] + rest, k);
      FirstIsLater(m[1..], rest, k);
    }
  }

  /** An entry whose value is not modelled, because no reader asks for it. */
  function Skipped(name: string): Pair { Pair(Unread(name), Nothing) }

  function SkippedAll(names: seq<string>): seq<Pair> {
    seq(|names|, i requires 0 <= i < |names| => Skipped(names[i]))
  }

  lemma FirstBehindSkipped(names: seq<string>, rest: seq<Pair>, k: Key)
    ensures First(SkippedAll(names) + rest, k) == First(rest, k)
  {
    FirstIsLater(SkippedAll(names), rest, k);
  }

  function Optional(k: Key, v: Option<Value>): seq<Pair> {
    if v.None? then [] else [Pair(k, v.value)]
  }

  lemma FirstOptional(e: Key, v: Option<Value>, m: seq<Pair>, k: Key)
    ensures First(Optional(e, v) + m, k) == if v.Some? && Reads(k, Pair(e, v.value)) then v else First(m, k)
  {
    if v.Some? { FirstCons(Pair(e, v.value), m, k); } else { assert [] + m == m; }
  }

  /** The sampling controls, in the order that both the gateway and the stages print them. */
  function Controls(temperature: Option<Value>, topK: Option<Value>, topP: Option<Value>, seed: Option<Value>,
      rest: seq<Pair>): seq<Pair> {
    Optional(Temperature, temperature) + (Optional(TopK, topK) + (Optional(TopP, topP) + (Optional(Seed, seed) + rest)))
  }

  lemma FirstControls(temperature: Option<Value>, topK: Option<Value>, topP: Option<Value>, seed: Option<Value>,
                      rest: seq<Pair>, k: Key)
    ensures First(Controls(temperature, topK, topP, seed, rest), k) ==
      if k == Temperature && temperature.Some? && Fits(IsNumber, temperature.value) then temperature
      else if k == TopK && topK.Some? && Fits(IsWhole, topK.value) then topK
      else if k == TopP && topP.Some? && Fits(IsNumber, topP.value) then topP
      else if k == Seed && seed.Some? && Fits(IsNumber, seed.value) then seed
      else First(rest, k)
  {
    hide First;
    var m3 := Optional(Seed, seed) + rest;
    var m2 := Optional(TopP, topP) + m3;
    FirstOptional(Temperature, temperature, Optional(TopK, topK) + m2, k);
    FirstOptional(TopK, topK, m2, k);
    FirstOptional(TopP, topP, m3, k);
    FirstOptional(Seed, seed, rest, k);
  }

  /** What a stage runtime answers with. */
  datatype Reply = Reply(bytes: seq<int>, tensor: Tensor, isFinal: bool, nextToken: int, backend: seq<Pair>)

  function Sampled(nm: Numerics, x: Option<real>): Option<Value> {
    match x case None => None case Some(v) => Some(Number(nm.shown(v)))
  }

  function Counted(i: Option<int>): Option<Value> {
    match i case None => None case Some(v) => Some(Whole(v))
  }

  /** The tensor's description: the runtime's own, or the request's when it gives no shape. */
  function OutTensor(p: Parsed, r: Reply): Tensor { if r.tensor.shape == [] then p.tensor else r.tensor }

  /** The entries of a stage's metadata before the sampling controls. */
  function StageEntries(p: Parsed, r: Reply): seq<Pair> {
    [Pair(RequestId, Text(p.call.requestId)),
     Pair(TokenIndex, Whole(p.call.tokenIndex)),
     Pair(GenerationMode, Text(p.call.mode)),
     Skipped("input_metadata_bytes"), Skipped("input_tensor_bytes"), Skipped("output_tensor_bytes"),
     Skipped("is_final_stage"),
     Pair(NextTokenId, Whole(r.nextToken)),
     Skipped("tensor"),
     Pair(Dtype, Text(OutTensor(p, r).dtype)),
     Pair(Shape, Dims(OutTensor(p, r).shape)),
     Pair(ByteOrder, Text(OutTensor(p, r).byteOrder)),
     Skipped("feature_flags"),
     Pair(KvCache, Flag(p.features.kvCache)),
     Pair(Chaining, Flag(p.chaining)),
     Pair(Transport, Text(p.features.transport)),
     Pair(Precision, Text(p.features.precision)),
     Pair(Sessions, Flag(p.features.sessions)),
     Pair(Level, Text(p.features.level))]
  }

  const STAGE_KEYS := ["ok", "service", "runtime", "backend", "status", "stage_id"]

  const TIME_KEYS := ["metrics", "backend", "status", "compute_time_ms", "true_comm_ms", "rpc_wall_time_ms"]
  const TENSOR_KEYS := ["input_tensor_bytes", "output_tensor_bytes", "stage_input_token_count", "stage_output_token_count"]
  const CACHE_KEYS := ["kv_cache_step_valid", "kv_cache_seq_before", "kv_cache_seq_after", "kv_cache_bytes", "kv_cache_valid"]
  const MEMORY_KEYS := ["model_load_ms", "memory_rss_mb", "memory_cgroup_current_mb", "memory_cgroup_limit_mb"]
  const SESSION_KEYS := ["memory_cgroup_percent", "model_file_size_mb", "session_count", "session_kv_cache_bytes"]
  const PROCESS_KEYS := ["process_cpu_percent", "system_cpu_percent", "process_threads", "process_context_switches"]
  const SWITCH_KEYS := ["voluntary", "involuntary", "process_io_delta", "read_bytes", "write_bytes"]
  const KERNEL_KEYS := ["read_count", "write_count", "matmul_ms", "attention_ms", "ggml_threads", "backend_metadata"]

  const METRIC_KEYS :=
    TIME_KEYS + TENSOR_KEYS + CACHE_KEYS + MEMORY_KEYS + SESSION_KEYS + PROCESS_KEYS + SWITCH_KEYS + KERNEL_KEYS

  /** What a stage prints behind them. */
  function StageTail(nm: Numerics, p: Parsed, r: Reply): seq<Pair> {
    Controls(Sampled(nm, p.sampling.temperature), Counted(p.sampling.topK),
             Sampled(nm, p.sampling.topP), Counted(p.sampling.seed), SkippedAll(METRIC_KEYS) + r.backend)
  }

  /** The metadata a stage prints. */
  function StageMeta(nm: Numerics, p: Parsed, r: Reply): seq<Pair> {
    SkippedAll(STAGE_KEYS) + (StageEntries(p, r) + StageTail(nm, p, r))
  }

  lemma StageEntriesAreDistinct(p: Parsed, r: Reply)
    ensures Unambiguous(StageEntries(p, r))
  {
    hide OutTensor;
  }

  function OrReal(x: Option<real>, shown: real -> real, backend: Option<Value>): Option<real> {
    match x case Some(v) => Some(shown(v)) case None => RealOf(backend)
  }

  function OrWhole(nm: Numerics, i: Option<int>, backend: Option<Value>): Option<int> {
    if i.Some? then i else IntOf(nm, backend)
  }

  function OrSeed(nm: Numerics, i: Option<int>, backend: Option<Value>): Option<int> {
    match i case Some(v) => Some(nm.viaDouble(v)) case None => SeedOf(nm, backend)
  }

  function OnwardSampling(nm: Numerics, s: Sampling, backend: seq<Pair>): Sampling {
    Sampling(
      OrReal(s.temperature, nm.shown, First(backend, Temperature)),
      OrWhole(nm, s.topK, First(backend, TopK)),
      OrReal(s.topP, nm.shown, First(backend, TopP)),
      OrSeed(nm, s.seed, First(backend, Seed)))
  }

  lemma ControlRead(nm: Numerics, x: Option<real>, i: Option<int>, b: Option<Value>)
    ensures RealOf(if x.Some? then Sampled(nm, x) else b) == OrReal(x, nm.shown, b)
    ensures IntOf(nm, if i.Some? then Counted(i) else b) == OrWhole(nm, i, b)
    ensures SeedOf(nm, if i.Some? then Counted(i) else b) == OrSeed(nm, i, b)
  {}

  /** What the next reader understands. Identity, mode, flags and the controls that are set
      ride along; a control that is not set can only come from the backend's own metadata. */
  function Onward(nm: Numerics, p: Parsed, r: Reply): Parsed {
    Parsed(
      p.call.(nextToken := Some(r.nextToken)),
      OutTensor(p, r),
      p.features.(rebalance := TextOr(First(r.backend, Rebalance), "baseline"),
                  topology := FlagOr(First(r.backend, Topology))),
      OnwardSampling(nm, p.sampling, r.backend),
      p.chaining)
  }

  /** The i-th entry of a stage's metadata is what a reader of its key finds. */
  lemma StageRead(nm: Numerics, p: Parsed, r: Reply, i: nat, k: Key, v: Value)
    requires i < |StageEntries(p, r)| && StageEntries(p, r)[i] == Pair(k, v) && Fits(KindOf(k), v)
    ensures First(StageMeta(nm, p, r), k) == Some(v)
  {
    hide First, StageEntries, StageTail, SkippedAll, Unambiguous, KindOf, Fits;
    StageEntriesAreDistinct(p, r);
    FirstBehindSkipped(STAGE_KEYS, StageEntries(p, r) + StageTail(nm, p, r), k);
    FirstIsThere(StageEntries(p, r), StageTail(nm, p, r), Pair(k, v), k);
  }

  lemma StageCallIsRead(nm: Numerics, p: Parsed, r: Reply)
    ensures ParseCall(nm, StageMeta(nm, p, r)) == p.call.(nextToken := Some(r.nextToken))
  {
    hide First, StageMeta, OutTensor;
    StageRead(nm, p, r, 0, RequestId, Text(p.call.requestId));
    StageRead(nm, p, r, 1, TokenIndex, Whole(p.call.tokenIndex));
    StageRead(nm, p, r, 2, GenerationMode, Text(p.call.mode));
    StageRead(nm, p, r, 7, NextTokenId, Whole(r.nextToken));
  }

  lemma StageTensorIsRead(nm: Numerics, p: Parsed, r: Reply)
    ensures ParseTensor(StageMeta(nm, p, r)) == OutTensor(p, r)
  {
    hide First, StageMeta, OutTensor;
    StageRead(nm, p, r, 9, Dtype, Text(OutTensor(p, r).dtype));
    StageRead(nm, p, r, 10, Shape, Dims(OutTensor(p, r).shape));
    StageRead(nm, p, r, 11, ByteOrder, Text(OutTensor(p, r).byteOrder));
  }

  lemma StageFlagsAreRead(nm: Numerics, p: Parsed, r: Reply)
    ensures var f := ParseFeatures(StageMeta(nm, p, r));
      f.kvCache == p.features.kvCache && f.sessions == p.features.sessions && f.topology == FlagOr(First(r.backend, Topology))
    ensures FlagOr(Either(StageMeta(nm, p, r), Chaining, Nsc)) == p.chaining
  {
    hide First, StageMeta, OutTensor, TextOr;
    StageRead(nm, p, r, 13, KvCache, Flag(p.features.kvCache));
    StageRead(nm, p, r, 14, Chaining, Flag(p.chaining));
    StageRead(nm, p, r, 17, Sessions, Flag(p.features.sessions));
    StageTailRead(nm, p, r, Topology);
  }

  lemma StageTextsAreRead(nm: Numerics, p: Parsed, r: Reply)
    ensures var f := ParseFeatures(StageMeta(nm, p, r));
      && f.transport == p.features.transport && f.precision == p.features.precision && f.level == p.features.level
      && f.rebalance == TextOr(First(r.backend, Rebalance), "baseline")
  {
    hide First, StageMeta, OutTensor, FlagOr;
    StageRead(nm, p, r, 15, Transport, Text(p.features.transport));
    StageRead(nm, p, r, 16, Precision, Text(p.features.precision));
    StageRead(nm, p, r, 18, Level, Text(p.features.level));
    StageTailRead(nm, p, r, Rebalance);
  }

  predicate IsControl(k: Key) {
    k.Temperature? || k.TopK? || k.TopP? || k.Seed?
  }

  lemma StageEntriesLack(p: Parsed, r: Reply, k: Key)
    requires IsControl(k) || k == Rebalance || k == Topology
    ensures forall i :: 0 <= i < |StageEntries(p, r)| ==> !Reads(k, StageEntries(p, r)[i])
  {
    hide OutTensor, Fits;
  }

  /** The controls that are set, and what a stage does not print itself. */
  lemma StageTailRead(nm: Numerics, p: Parsed, r: Reply, k: Key)
    requires IsControl(k) || k == Rebalance || k == Topology
    ensures First(StageMeta(nm, p, r), k) ==
      if k == Temperature && p.sampling.temperature.Some? then Sampled(nm, p.sampling.temperature)
      else if k == TopK && p.sampling.topK.Some? then Counted(p.sampling.topK)
      else if k == TopP && p.sampling.topP.Some? then Sampled(nm, p.sampling.topP)
      else if k == Seed && p.sampling.seed.Some? then Counted(p.sampling.seed)
      else First(r.backend, k)
  {
    hide First, StageEntries, Controls, SkippedAll, IsControl, KindOf;
    var s := p.sampling;
    StageEntriesLack(p, r, k);
    FirstBehindSkipped(STAGE_KEYS, StageEntries(p, r) + StageTail(nm, p, r), k);
    FirstIsLater(StageEntries(p, r), StageTail(nm, p, r), k);
    FirstControls(Sampled(nm, s.temperature), Counted(s.topK), Sampled(nm, s.topP), Counted(s.seed),
                  SkippedAll(METRIC_KEYS) + r.backend, k);
    FirstBehindSkipped(METRIC_KEYS, r.backend, k);
  }

  lemma StageSamplingIsRead(nm: Numerics, p: Parsed, r: Reply)
    ensures ParseSampling(nm, StageMeta(nm, p, r)) == OnwardSampling(nm, p.sampling, r.backend)
  {
    hide First, StageMeta, RealOf, IntOf, SeedOf, OrReal, OrWhole, OrSeed, Sampled, Counted;
    StageTailRead(nm, p, r, Temperature);
    StageTailRead(nm, p, r, TopK);
    StageTailRead(nm, p, r, TopP);
    StageTailRead(nm, p, r, Seed);
    ControlRead(nm, p.sampling.temperature, None, First(r.backend, Temperature));
    ControlRead(nm, None, p.sampling.topK, First(r.backend, TopK));
    ControlRead(nm, p.sampling.topP, None, First(r.backend, TopP));
    ControlRead(nm, None, p.sampling.seed, First(r.backend, Seed));
  }

  /** Reading what a stage printed gives exactly that. */
  lemma StageMetaIsRead(nm: Numerics, p: Parsed, r: Reply)
    ensures Parse(nm, StageMeta(nm, p, r)) == Onward(nm, p, r)
  {
    StageCallIsRead(nm, p, r);
    StageTensorIsRead(nm, p, r);
    StageFlagsAreRead(nm, p, r);
    StageTextsAreRead(nm, p, r);
    StageSamplingIsRead(nm, p, r);
    hide First, StageMeta, OutTensor, ParseCall, ParseTensor, ParseFeatures, ParseSampling, OnwardSampling;
  }

  // ---- the gateway's metadata ----

  /** What the gateway's configuration contributes to every frame. */
  datatype Settings = Settings(
    precision: string, sessions: bool, chaining: bool, level: string,
    temperature: real, topK: int, topP: Option<real>, seed: Option<int>)

  predicate IsCompact(level: string) { level == "compact" || level == "minimal" }

  function TopPText(nm: Numerics, s: Settings): Value {
    match s.topP case None => Nothing case Some(x) => Number(nm.fixed(x))
  }

  function GatewayControls(nm: Numerics, s: Settings, rest: seq<Pair>): seq<Pair> {
    Controls(Some(Number(nm.shown(s.temperature))), Some(Whole(s.topK)), Some(TopPText(nm, s)), Counted(s.seed), rest)
  }

  /** The entries of a request's metadata before the sampling controls, under long names. */
  function FullEntries(s: Settings, c: Call, shape: seq<int>): seq<Pair> {
    [Pair(RequestId, Text(c.requestId)),
     Pair(TokenIndex, Whole(c.tokenIndex)),
     Pair(GenerationMode, Text(c.mode)),
     Skipped("sequence_length"), Skipped("tensor"),
     Pair(Dtype, Text("int64")),
     Pair(Shape, Dims(shape)),
     Pair(ByteOrder, Text("little")),
     Skipped("feature_flags"),
     Pair(KvCache, Flag(true)),
     Pair(Transport, Text("binary_octet_stream")),
     Pair(Precision, Text(s.precision)),
     Pair(Sessions, Flag(s.sessions)),
     Pair(Chaining, Flag(s.chaining)),
     Pair(Level, Text(s.level)),
     Skipped("apply_chat_template"), Skipped("sampling")]
  }

  /** The same under short names. */
  function CompactEntries(s: Settings, c: Call, shape: seq<int>): seq<Pair> {
    [Pair(Rid, Text(c.requestId)),
     Pair(Ti, Whole(c.tokenIndex)),
     Pair(Gm, Text(c.mode)),
     Pair(Dt, Text("int64")),
     Pair(Sh, Dims(shape)),
     Pair(Bo, Text("little")),
     Pair(Ap, Text(s.precision)),
     Pair(Kv, Flag(true)),
     Pair(Ps, Flag(s.sessions)),
     Pair(Nsc, Flag(s.chaining))]
  }

  function RequestEntries(s: Settings, c: Call, shape: seq<int>): seq<Pair> {
    if IsCompact(s.level) then CompactEntries(s, c, shape) else FullEntries(s, c, shape)
  }

  /** The metadata of a request frame: token ids as int64, with long or short names. */
  function RequestMeta(nm: Numerics, s: Settings, c: Call, shape: seq<int>): seq<Pair> {
    RequestEntries(s, c, shape) + GatewayControls(nm, s, [Skipped(if IsCompact(s.level) then "m" else "min_new_tokens")])
  }

  function SettingsSampling(nm: Numerics, s: Settings): Sampling {
    Sampling(Some(nm.shown(s.temperature)), Some(s.topK),
      match s.topP case None => None case Some(x) => Some(nm.fixed(x)),
      match s.seed case None => None case Some(i) => Some(nm.viaDouble(i)))
  }

  /** What stage 1 understands of a request. Short names lose the metadata level, nothing
      else. */
  function Asked(nm: Numerics, s: Settings, c: Call, shape: seq<int>): Parsed {
    Parsed(
      c.(nextToken := None),
      Tensor("int64", shape, "little"),
      Features(true, s.precision, "binary_octet_stream", "baseline", s.sessions, false,
               if IsCompact(s.level) then "debug" else s.level),
      SettingsSampling(nm, s),
      s.chaining)
  }

  lemma FullEntriesAreDistinct(s: Settings, c: Call, shape: seq<int>)
    ensures Unambiguous(FullEntries(s, c, shape))
  {}

  lemma CompactEntriesAreDistinct(s: Settings, c: Call, shape: seq<int>)
    ensures Unambiguous(CompactEntries(s, c, shape))
  {}

  lemma RequestEntriesAreDistinct(s: Settings, c: Call, shape: seq<int>)
    ensures Unambiguous(RequestEntries(s, c, shape))
  {
    hide FullEntries, CompactEntries, Unambiguous;
    FullEntriesAreDistinct(s, c, shape);
    CompactEntriesAreDistinct(s, c, shape);
  }

  /** What a reader finds behind a list that does not answer its key. */
  lemma ControlsRead(nm: Numerics, s: Settings, m: seq<Pair>, name: string, k: Key)
    requires forall i :: 0 <= i < |m| ==> !Reads(k, m[i])
    ensures First(m + GatewayControls(nm, s, [Skipped(name)]), k) ==
      if k == Temperature then Some(Number(nm.shown(s.temperature)))
      else if k == TopK then Some(Whole(s.topK))
      else if k == TopP && s.topP.Some? then Some(Number(nm.fixed(s.topP.value)))
      else if k == Seed then Counted(s.seed)
      else None
  {
    hide First, Controls;
    FirstIsLater(m, GatewayControls(nm, s, [Skipped(name)]), k);
    FirstControls(Some(Number(nm.shown(s.temperature))), Some(Whole(s.topK)), Some(TopPText(nm, s)), Counted(s.seed),
                  [Skipped(name)], k);
    assert [Skipped(name)] + [] == [Skipped(name)];
    FirstCons(Skipped(name), [], k);
    FirstOfNothing(k);
  }

  lemma FirstOfNothing(k: Key)
    ensures First([], k) == None
  {}

  /** A field that a request does not have under this name. */
  predicate Missing(compact: bool, k: Key) {
    match k
    case NextTokenId => true case Nt => true case Rebalance => true case Topology => true
    case RequestId => compact case TokenIndex => compact case GenerationMode => compact
    case Dtype => compact case ByteOrder => compact case KvCache => compact case Chaining => compact
    case Transport => compact case Tm => compact case Precision => compact case Sessions => compact
    case Level => compact case Ml => compact
    case _ => false
  }

  lemma FullEntriesLack(s: Settings, c: Call, shape: seq<int>, k: Key)
    requires IsControl(k) || Missing(false, k)
    ensures forall i :: 0 <= i < |FullEntries(s, c, shape)| ==> !Reads(k, FullEntries(s, c, shape)[i])
  {
    hide Fits, KindOf;
  }

  lemma CompactEntriesLack(s: Settings, c: Call, shape: seq<int>, k: Key)
    requires IsControl(k) || Missing(true, k)
    ensures forall i :: 0 <= i < |CompactEntries(s, c, shape)| ==> !Reads(k, CompactEntries(s, c, shape)[i])
  {
    hide Fits, KindOf;
  }

  lemma RequestEntriesLack(s: Settings, c: Call, shape: seq<int>, k: Key)
    requires IsControl(k) || Missing(IsCompact(s.level), k)
    ensures forall i :: 0 <= i < |RequestEntries(s, c, shape)| ==> !Reads(k, RequestEntries(s, c, shape)[i])
  {
    hide Missing, Reads, FullEntries, CompactEntries, IsCompact, IsControl;
    if IsCompact(s.level) { CompactEntriesLack(s, c, shape, k); } else { FullEntriesLack(s, c, shape, k); }
  }

  lemma RequestTailRead(nm: Numerics, s: Settings, c: Call, shape: seq<int>, k: Key)
    requires IsControl(k) || Missing(IsCompact(s.level), k)
    ensures First(RequestMeta(nm, s, c, shape), k) ==
      if k == Temperature then Some(Number(nm.shown(s.temperature)))
      else if k == TopK then Some(Whole(s.topK))
      else if k == TopP && s.topP.Some? then Some(Number(nm.fixed(s.topP.value)))
      else if k == Seed then Counted(s.seed)
      else None
  {
    hide First, RequestEntries, IsCompact, GatewayControls, Reads, Missing, IsControl;
    RequestEntriesLack(s, c, shape, k);
    ControlsRead(nm, s, RequestEntries(s, c, shape), if IsCompact(s.level) then "m" else "min_new_tokens", k);
  }

  lemma RequestLacks(nm: Numerics, s: Settings, c: Call, shape: seq<int>, k: Key)
    requires Missing(IsCompact(s.level), k)
    ensures First(RequestMeta(nm, s, c, shape), k) == None
  {
    hide First, RequestMeta, IsCompact;
    RequestTailRead(nm, s, c, shape, k);
  }

  lemma RequestRead(nm: Numerics, s: Settings, c: Call, shape: seq<int>, e: Pair, k: Key)
    requires e in RequestEntries(s, c, shape) && Reads(k, e)
    ensures First(RequestMeta(nm, s, c, shape), k) == Some(e.value)
  {
    hide First, RequestEntries, Unambiguous, IsCompact, GatewayControls, Reads;
    RequestEntriesAreDistinct(s, c, shape);
    var last := Skipped(if IsCompact(s.level) then "m" else "min_new_tokens");
    FirstIsThere(RequestEntries(s, c, shape), GatewayControls(nm, s, [last]), e, k);
  }

  /** The i-th long entry or the j-th short one is what a reader of the field finds. */
  lemma FieldRead(nm: Numerics, s: Settings, c: Call, shape: seq<int>, i: nat, j: nat, long: Key, short: Key, v: Value)
    requires i < |FullEntries(s, c, shape)| && FullEntries(s, c, shape)[i] == Pair(long, v) && Fits(KindOf(long), v)
    requires j < |CompactEntries(s, c, shape)| && CompactEntries(s, c, shape)[j] == Pair(short, v) && Fits(KindOf(short), v)
    requires Missing(true, long)
    ensures Either(RequestMeta(nm, s, c, shape), long, short) == Some(v)
  {
    hide First, FullEntries, CompactEntries, RequestMeta, IsCompact, KindOf, Fits, Missing;
    if IsCompact(s.level) {
      RequestLacks(nm, s, c, shape, long);
      RequestRead(nm, s, c, shape, Pair(short, v), short);
    } else {
      RequestRead(nm, s, c, shape, Pair(long, v), long);
    }
  }

  lemma RequestCallIsRead(nm: Numerics, s: Settings, c: Call, shape: seq<int>)
    ensures ParseCall(nm, RequestMeta(nm, s, c, shape)) == c.(nextToken := None)
  {
    hide First, RequestMeta, IsCompact;
    RequestLacks(nm, s, c, shape, NextTokenId);
    RequestLacks(nm, s, c, shape, Nt);
    hide Missing;
    RequestNamesAreRead(nm, s, c, shape);
  }

  lemma RequestNamesAreRead(nm: Numerics, s: Settings, c: Call, shape: seq<int>)
    ensures var m := RequestMeta(nm, s, c, shape);
      && Either(m, RequestId, Rid) == Some(Text(c.requestId)) && Either(m, TokenIndex, Ti) == Some(Whole(c.tokenIndex))
      && Either(m, GenerationMode, Gm) == Some(Text(c.mode))
  {
    hide First, RequestMeta, IsCompact, Either;
    FieldRead(nm, s, c, shape, 0, 0, RequestId, Rid, Text(c.requestId));
    FieldRead(nm, s, c, shape, 1, 1, TokenIndex, Ti, Whole(c.tokenIndex));
    FieldRead(nm, s, c, shape, 2, 2, GenerationMode, Gm, Text(c.mode));
  }

  lemma RequestTensorIsRead(nm: Numerics, s: Settings, c: Call, shape: seq<int>)
    ensures ParseTensor(RequestMeta(nm, s, c, shape)) == Tensor("int64", shape, "little")
  {
    hide First, RequestMeta, IsCompact, Either;
    FieldRead(nm, s, c, shape, 5, 3, Dtype, Dt, Text("int64"));
    FieldRead(nm, s, c, shape, 7, 5, ByteOrder, Bo, Text("little"));
    RequestShapeRead(nm, s, c, shape);
  }

  lemma RequestShapeRead(nm: Numerics, s: Settings, c: Call, shape: seq<int>)
    ensures First(RequestMeta(nm, s, c, shape), Shape) == Some(Dims(shape))
  {
    hide First, RequestMeta, IsCompact;
    if IsCompact(s.level) {
      assert CompactEntries(s, c, shape)[4] == Pair(Sh, Dims(shape));
      RequestRead(nm, s, c, shape, Pair(Sh, Dims(shape)), Shape);
    } else {
      assert FullEntries(s, c, shape)[6] == Pair(Shape, Dims(shape));
      RequestRead(nm, s, c, shape, Pair(Shape, Dims(shape)), Shape);
    }
  }

  lemma RequestCacheFlagIsRead(nm: Numerics, s: Settings, c: Call, shape: seq<int>)
    ensures var f := ParseFeatures(RequestMeta(nm, s, c, shape)); f.kvCache && !f.topology
  {
    hide First, RequestMeta, IsCompact, TextOr, Either;
    FieldRead(nm, s, c, shape, 9, 7, KvCache, Kv, Flag(true));
    RequestLacks(nm, s, c, shape, Topology);
  }

  lemma RequestFlagsAreRead(nm: Numerics, s: Settings, c: Call, shape: seq<int>)
    ensures ParseFeatures(RequestMeta(nm, s, c, shape)).sessions == s.sessions
    ensures FlagOr(Either(RequestMeta(nm, s, c, shape), Chaining, Nsc)) == s.chaining
  {
    hide First, RequestMeta, IsCompact, TextOr, Either;
    FieldRead(nm, s, c, shape, 12, 8, Sessions, Ps, Flag(s.sessions));
    FieldRead(nm, s, c, shape, 13, 9, Chaining, Nsc, Flag(s.chaining));
  }

  lemma RequestTextsAreRead(nm: Numerics, s: Settings, c: Call, shape: seq<int>)
    ensures var f := ParseFeatures(RequestMeta(nm, s, c, shape));
      f.precision == s.precision && f.transport == "binary_octet_stream" && f.rebalance == "baseline"
      && f.level == if IsCompact(s.level) then "debug" else s.level
  {
    hide First, RequestMeta, IsCompact, Either;
    FieldRead(nm, s, c, shape, 11, 6, Precision, Ap, Text(s.precision));
    RequestLacks(nm, s, c, shape, Rebalance);
    OnlyLongRead(nm, s, c, shape);
  }

  /** The transport and the metadata level have no short names. */
  lemma OnlyLongRead(nm: Numerics, s: Settings, c: Call, shape: seq<int>)
    ensures Either(RequestMeta(nm, s, c, shape), Transport, Tm) ==
      if IsCompact(s.level) then None else Some(Text("binary_octet_stream"))
    ensures Either(RequestMeta(nm, s, c, shape), Level, Ml) == if IsCompact(s.level) then None else Some(Text(s.level))
  {
    hide First, RequestMeta, IsCompact;
    if IsCompact(s.level) {
      RequestLacks(nm, s, c, shape, Transport);
      RequestLacks(nm, s, c, shape, Tm);
      RequestLacks(nm, s, c, shape, Level);
      RequestLacks(nm, s, c, shape, Ml);
    } else {
      assert FullEntries(s, c, shape)[10] == Pair(Transport, Text("binary_octet_stream"));
      RequestRead(nm, s, c, shape, FullEntries(s, c, shape)[10], Transport);
      assert FullEntries(s, c, shape)[14] == Pair(Level, Text(s.level));
      RequestRead(nm, s, c, shape, FullEntries(s, c, shape)[14], Level);
    }
  }

  lemma RequestSamplingIsRead(nm: Numerics, s: Settings, c: Call, shape: seq<int>)
    ensures ParseSampling(nm, RequestMeta(nm, s, c, shape)) == SettingsSampling(nm, s)
  {
    hide First, RequestMeta, IsCompact, Missing;
    RequestTailRead(nm, s, c, shape, Temperature);
    RequestTailRead(nm, s, c, shape, TopK);
    RequestTailRead(nm, s, c, shape, TopP);
    RequestTailRead(nm, s, c, shape, Seed);
  }

  /** Reading a request's metadata gives what the gateway asked, under long and short names. */
  lemma RequestMetaIsRead(nm: Numerics, s: Settings, c: Call, shape: seq<int>)
    ensures Parse(nm, RequestMeta(nm, s, c, shape)) == Asked(nm, s, c, shape)
  {
    hide First, RequestMeta, IsCompact, SettingsSampling, ParseCall, ParseTensor, ParseSampling, Either;
    RequestCallIsRead(nm, s, c, shape);
    RequestTensorIsRead(nm, s, c, shape);
    RequestCacheFlagIsRead(nm, s, c, shape);
    RequestFlagsAreRead(nm, s, c, shape);
    RequestTextsAreRead(nm, s, c, shape);
    RequestSamplingIsRead(nm, s, c, shape);
  }

  // ---- chain metrics on the way back ----

  function WithoutChainMetrics(m: seq<Pair>): seq<Pair> {
    if m == [] then []
    else if m[0].key.ChainMetric? then WithoutChainMetrics(m[1..])
    else [m[0]] + WithoutChainMetrics(m[1..])
  }

  function MergeChainMetrics(m: seq<Pair>, metrics: seq<string>): seq<Pair> {
    WithoutChainMetrics(m) + ChainEntries(metrics)
  }

  function ChainEntries(metrics: seq<string>): seq<Pair> {
    if metrics == [] then [] else [Pair(ChainMetric(metrics[0]), Nothing)] + ChainEntries(metrics[1..])
  }

  lemma {:induction false} FirstWithout(m: seq<Pair>, tail: seq<Pair>, k: Key)
    requires First(tail, k) == None
    ensures First(WithoutChainMetrics(m) + tail, k) == First(m, k)
    decreases |m|
  {
    if m == [] {
      assert [] + tail == tail;
    } else {
      FirstWithout(m[1..], tail, k);
      if !m[0].key.ChainMetric? {
        var rest := WithoutChainMetrics(m[1..]) + tail;
        assert WithoutChainMetrics(m) + tail == [m[0]] + rest;
        FirstCons(m[0], rest, k);
      }
    }
  }

  lemma {:induction false} ChainEntriesUnread(metrics: seq<string>, k: Key)
    ensures First(ChainEntries(metrics), k) == None
    decreases |metrics|
  {
    if metrics == [] {
    } else {
      ChainEntriesUnread(metrics[1..], k);
      FirstCons(Pair(ChainMetric(metrics[0]), Nothing), ChainEntries(metrics[1..]), k);
    }
  }

  /** Merging chain metrics changes nothing that a reader of requests understands. */
  lemma MergeKeepsMeaning(nm: Numerics, m: seq<Pair>, metrics: seq<string>)
    ensures Parse(nm, MergeChainMetrics(m, metrics)) == Parse(nm, m)
  {
    forall k ensures First(MergeChainMetrics(m, metrics), k) == First(m, k) {
      ChainEntriesUnread(metrics, k);
      FirstWithout(m, ChainEntries(metrics), k);
    }
    hide First, Parse;
    SameFirstsSameParse(nm, MergeChainMetrics(m, metrics), m);
  }

  // ---- the controls along a chain ----

  /** Printing what was printed and read shows the same number again. */
  predicate Settles(nm: Numerics, s: Settings) {
    && nm.shown(nm.shown(s.temperature)) == nm.shown(s.temperature)
    && (s.topP.Some? ==> nm.shown(nm.fixed(s.topP.value)) == nm.fixed(s.topP.value))
    && (s.seed.Some? ==> nm.viaDouble(nm.viaDouble(s.seed.value)) == nm.viaDouble(s.seed.value))
  }

  /** The controls that a request carries reach the next stage unchanged. A top_p or seed
      that the request does not carry stays absent exactly when the backend's own metadata
      has none. */
  lemma ControlsRideAlong(nm: Numerics, s: Settings, p: Parsed, r: Reply)
    requires Settles(nm, s) && p.sampling == SettingsSampling(nm, s)
    ensures Onward(nm, p, r).sampling == p.sampling
       <==> && (s.topP.Some? || First(r.backend, TopP).None?)
            && (s.seed.Some? || First(r.backend, Seed).None?)
  {
    hide First;
  }
}
