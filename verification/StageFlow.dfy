/** One inference stage: what a forward request does to the stage's key/value cache
    table and to its table of remembered answers, and what it answers. */
module StageFlow {
  import opened Basics
  import opened Lru

  /** One position of an activation tensor: a token id before the embedding, a hidden
      vector after it. A tensor is the sequence of its positions. */
  datatype Row = Token(id: int) | Hidden(values: seq<real>)
  type Rows = seq<Row>

  /** `Legacy` also stands for any mode string other than "prefill" and "decode". */
  datatype Mode = Legacy | Prefill | Decode

  /** The part of a stage that the executor decides. `forward` is the stage's function on
      whole sequences; `misplaced` is what it answers when the positions it is told do not
      continue its cache, about which nothing is assumed. */
  datatype Stage = Stage(
    supportsKv: bool,
    hasLayers: bool,
    forward: Rows -> Rows,
    misplaced: (Rows, Rows, Option<int>) -> Rows)

  datatype Request = Request(
    id: string,
    tokenIndex: int,
    mode: Mode,
    position: Option<int>,
    kvEnabled: bool,
    dedupeEnabled: bool)

  /** A remembered answer's key; the tensor stands for its digest. */
  datatype Key = Key(id: string, tokenIndex: int, mode: Mode, position: Option<int>, tensor: Rows)

  /** `kv` maps a request id to the rows its cache has taken in. */
  datatype StageState = StageState(kv: Table<string, Rows>, dedupe: Table<Key, Rows>)

  ghost predicate Valid(s: StageState) {
    WellFormed(s.kv) && WellFormed(s.dedupe)
  }

  const BAD_REQUEST := 400
  const CONFLICT := 409
  const SERVER_ERROR := 500

  function KeyOf(req: Request, input: Rows): Key {
    Key(req.id, req.tokenIndex, req.mode, req.position, input)
  }

  function UsesKv(req: Request): bool {
    req.kvEnabled && req.mode != Legacy
  }

  /** A position's output depends on that position and the ones before it only. */
  ghost predicate Causal(f: Rows -> Rows) {
    && (forall s :: |f(s)| == |s|)
    && (forall s, t :: s <= t ==> f(s) <= f(t))
  }

  /** The executor on a cache that has taken in `seen`: the new rows of the whole-sequence
      answer, provided the position it is told is where the cache ends. */
  function Execute(stage: Stage, seen: Rows, input: Rows, position: Option<int>): Rows {
    var whole := stage.forward(seen + input);
    if position == Some(|seen|) && |seen| <= |whole| then whole[|seen|..]
    else stage.misplaced(seen, input, position)
  }

  /** A stage without transformer layers reports an empty cache. */
  function CacheLength(stage: Stage, seen: Rows): nat {
    if stage.hasLayers then |seen| else 0
  }

  /** `_validate_kv_cache_step`. */
  predicate StepValid(stage: Stage, req: Request, inputCount: nat, outputCount: nat, before: nat, after: nat) {
    if !UsesKv(req) || !stage.hasLayers then true
    else match req.mode
      case Decode => inputCount == 1 && outputCount == 1 && after == before + 1
      case Prefill => inputCount > 0 && outputCount == inputCount && after >= inputCount
      case Legacy => true
  }

  datatype Step = Step(output: Rows, before: nat, after: nat)

  /** `_execute_stage_forward_with_cache_policy`. */
  function RunWithCachePolicy(stage: Stage, max: nat, kv: Table<string, Rows>, req: Request, input: Rows)
    : (r: (Table<string, Rows>, Result<Step, int>))
    requires max >= 1 && WellFormed(kv)
    ensures WellFormed(r.0)
  {
    if !UsesKv(req) then (kv, Ok(Step(stage.forward(input), 0, 0)))
    else if !stage.supportsKv then (kv, Err(BAD_REQUEST))
    else if req.mode == Decode && req.id !in kv.store then (kv, Err(CONFLICT))
    else
      var ready := if req.mode == Prefill then Remove(kv, req.id) else Touch(kv, req.id);
      var held := GetOrCreate(ready, req.id, [], max);
      var seen := held.store[req.id];
      var grown := Table(held.order, held.store[req.id := seen + input]);
      (grown, Ok(Step(Execute(stage, seen, input, req.position),
                      CacheLength(stage, seen), CacheLength(stage, seen + input))))
  }

  function Checked(stage: Stage, req: Request, input: Rows, step: Step): Result<Rows, int> {
    if StepValid(stage, req, |input|, |step.output|, step.before, step.after) then Ok(step.output)
    else Err(SERVER_ERROR)
  }

  /** `_run_forward_flow` up to the hand-over to the next stage. A computed answer is
      remembered before the step check looks at it. */
  function ForwardFlow(stage: Stage, max: nat, s: StageState, req: Request, input: Rows)
    : (r: (StageState, Result<Rows, int>))
    requires max >= 1 && Valid(s)
    ensures Valid(r.0)
  {
    var key := KeyOf(req, input);
    if req.dedupeEnabled && key in s.dedupe.store then
      var output := s.dedupe.store[key];
      var kv := if UsesKv(req) then Touch(Touch(s.kv, req.id), req.id) else s.kv;
      var length := if UsesKv(req) && req.id in kv.store then CacheLength(stage, kv.store[req.id]) else 0;
      (StageState(kv, Touch(s.dedupe, key)), Checked(stage, req, input, Step(output, length, length)))
    else
      var (kv, ran) := RunWithCachePolicy(stage, max, s.kv, req, input);
      match ran
      case Err(status) => (StageState(kv, s.dedupe), Err(status))
      case Ok(step) =>
        var dedupe := if req.dedupeEnabled then Trim(Assign(s.dedupe, key, step.output), max) else s.dedupe;
        (StageState(kv, dedupe), Checked(stage, req, input, step))
  }

  // ----- What each request gets -----

  /** The key under which an answer is remembered: all parts of the request that are sent to it. */
  ghost predicate Remembered(s: StageState, req: Request, input: Rows) {
    req.dedupeEnabled && Key(req.id, req.tokenIndex, req.mode, req.position, input) in s.dedupe.store
  }

  ghost predicate Remembers(s: StageState, req: Request, input: Rows, output: Rows) {
    req.dedupeEnabled ==>
      var key := Key(req.id, req.tokenIndex, req.mode, req.position, input);
      key in s.dedupe.store && s.dedupe.store[key] == output
  }

  /** The stage without its cache, on this request. */
  predicate Cacheless(req: Request) {
    !req.kvEnabled || (req.mode != Prefill && req.mode != Decode)
  }

  /** The cache of one request after its step; of the others nothing but evictions. */
  ghost predicate Grew(before: Table<string, Rows>, after: Table<string, Rows>, id: string, rows: Rows) {
    && id in after.store && after.store[id] == rows
    && forall k :: k in after.store && k != id ==> k in before.store && after.store[k] == before.store[k]
  }

  /** A request whose answer is not remembered. Without the cache it gets the stage's function
      of its tensor. With it: 400 on a stage that has no cache and 409 for a decode without an
      entry, both of which change nothing; otherwise a prefill starts from nothing and a
      decode from its entry, which grows by the tensor, and the answer stands unless a stage
      with layers was given, or gives back, a wrong number of positions. */
  lemma ComputedAnswer(stage: Stage, max: nat, s: StageState, req: Request, input: Rows)
    requires max >= 1 && Valid(s) && !Remembered(s, req, input)
    ensures var (after, answer) := ForwardFlow(stage, max, s, req, input);
      if Cacheless(req) then
        after.kv == s.kv && answer == Ok(stage.forward(input)) && Remembers(after, req, input, stage.forward(input))
      else if !stage.supportsKv then after == s && answer == Err(400)
      else if req.mode == Decode && req.id !in s.kv.store then after == s && answer == Err(409)
      else
        var seen := if req.mode == Prefill then [] else s.kv.store[req.id];
        var whole := stage.forward(seen + input);
        var output := if req.position == Some(|seen|) && |seen| <= |whole| then whole[|seen|..]
                      else stage.misplaced(seen, input, req.position);
        var counted := |output| == |input| && (if req.mode == Decode then |input| == 1 else |input| >= 1);
        && Grew(s.kv, after.kv, req.id, seen + input) && Remembers(after, req, input, output)
        && answer == if stage.hasLayers && !counted then Err(500) else Ok(output)
  {
    hide Without, Distinct, Trim, Assign, GetOrCreate, Touch, Remove, WellFormed;
    var ran := RunWithCachePolicy(stage, max, s.kv, req, input).1;
    if ran.Ok? { NewestIsKept(s.dedupe, Key(req.id, req.tokenIndex, req.mode, req.position, input), ran.value.output, max); }
    PolicyInFull(stage, max, s.kv, req, input);
    hide RunWithCachePolicy, Grew;
  }

  lemma NewestIsKept(t: Table<Key, Rows>, key: Key, output: Rows, max: nat)
    requires max >= 1 && WellFormed(t)
    ensures var r := Trim(Assign(t, key, output), max);
      key in r.store && r.store[key] == output
  {
    var written := Assign(t, key, output);
    var kept := Trim(written, max);
    assert kept.order[|kept.order| - 1] == written.order[|written.order| - 1] == key;
    assert key in kept.order;
  }

  lemma PolicyInFull(stage: Stage, max: nat, kv: Table<string, Rows>, req: Request, input: Rows)
    requires max >= 1 && WellFormed(kv)
    ensures var (after, ran) := RunWithCachePolicy(stage, max, kv, req, input);
      if Cacheless(req) then after == kv && ran == Ok(Step(stage.forward(input), 0, 0))
      else if !stage.supportsKv then after == kv && ran == Err(400)
      else if req.mode == Decode && req.id !in kv.store then after == kv && ran == Err(409)
      else
        var seen := if req.mode == Prefill then [] else kv.store[req.id];
        && Grew(kv, after, req.id, seen + input)
        && ran == Ok(Step(Execute(stage, seen, input, req.position), CacheLength(stage, seen), CacheLength(stage, seen + input)))
  {
    var ready := if req.mode == Prefill then Remove(kv, req.id) else Touch(kv, req.id);
    hide Without, Distinct, Execute, CacheLength;
    RoomIsMade(ready, req.id, max);
    hide GetOrCreate, WellFormed;
  }

  lemma RoomIsMade(t: Table<string, Rows>, id: string, max: nat)
    requires max >= 1 && WellFormed(t)
    ensures var r := GetOrCreate(t, id, [], max);
      && id in r.store && r.store[id] == (if id in t.store then t.store[id] else [])
      && forall k :: k in r.store && k != id ==> k in t.store && r.store[k] == t.store[k]
  {
    hide Without, Distinct;
  }

  /** A request whose answer is remembered gets that answer and changes no cache. With the
      cache on, a stage with layers refuses it if it is a decode, and if it is a prefill
      whose tensor is empty, or longer than what the entry holds now, or not of the
      answer's length. */
  lemma RememberedAnswer(stage: Stage, max: nat, s: StageState, req: Request, input: Rows)
    requires max >= 1 && Valid(s) && Remembered(s, req, input)
    ensures var (after, answer) := ForwardFlow(stage, max, s, req, input);
      var output := s.dedupe.store[Key(req.id, req.tokenIndex, req.mode, req.position, input)];
      var held := if req.id in s.kv.store then |s.kv.store[req.id]| else 0;
      var refused := stage.hasLayers && !Cacheless(req)
        && (req.mode == Decode || input == [] || |output| != |input| || held < |input|);
      && after.kv.store == s.kv.store && after.dedupe.store == s.dedupe.store
      && answer == if refused then Err(500) else Ok(output)
  {
    hide Without, Distinct;
  }

  // ----- Repeated requests -----

  /** A remembered answer never grows the live cache, whatever the mode; and a repeated
      decode step is answered with an error exactly on stages that have layers. */
  lemma RepeatLeavesCacheAlone(stage: Stage, max: nat, s: StageState, req: Request, input: Rows)
    requires max >= 1 && Valid(s)
    requires req.dedupeEnabled && KeyOf(req, input) in s.dedupe.store
    ensures ForwardFlow(stage, max, s, req, input).0.kv.store == s.kv.store
    ensures req.kvEnabled && req.mode == Decode ==>
      (ForwardFlow(stage, max, s, req, input).1 == Err(SERVER_ERROR) <==> stage.hasLayers)
  {
  }

  /** A decode step that was executed and remembered cannot be repeated: the second,
      identical request changes no cache and fails on any stage with layers. */
  lemma ExecutedDecodeCannotBeRetried(stage: Stage, max: nat, s: StageState, req: Request, input: Rows)
    requires max >= 1 && Valid(s)
    requires req.dedupeEnabled && req.kvEnabled && req.mode == Decode && stage.hasLayers
    requires KeyOf(req, input) !in s.dedupe.store
    ensures var first := ForwardFlow(stage, max, s, req, input);
      first.1.Ok? ==>
        var second := ForwardFlow(stage, max, first.0, req, input);
        second.1 == Err(SERVER_ERROR) && second.0.kv.store == first.0.kv.store
  {
    var first := ForwardFlow(stage, max, s, req, input);
    if first.1.Ok? {
      assert first.0.dedupe.order[|first.0.dedupe.order| - 1] == KeyOf(req, input);
      assert KeyOf(req, input) in first.0.dedupe.order;
      RepeatLeavesCacheAlone(stage, max, first.0, req, input);
    }
  }

  /** Every remembered legacy answer is what the stage would compute. */
  ghost predicate LegacySound(stage: Stage, s: StageState) {
    forall k :: k in s.dedupe.store && k.mode == Legacy ==> s.dedupe.store[k] == stage.forward(k.tensor)
  }

  datatype Call = Call(req: Request, input: Rows)

  /** The state after a whole history of requests, from an empty stage. */
  function History(stage: Stage, max: nat, log: seq<Call>): (s: StageState)
    requires max >= 1
    ensures Valid(s)
  {
    if log == [] then StageState(Empty(), Empty())
    else
      var last := log[|log| - 1];
      ForwardFlow(stage, max, History(stage, max, log[..|log| - 1]), last.req, last.input).0
  }

  lemma {:induction false} HistoryLegacySound(stage: Stage, max: nat, log: seq<Call>)
    requires max >= 1
    ensures LegacySound(stage, History(stage, max, log))
  {
    if log == [] {
    } else {
      HistoryLegacySound(stage, max, log[..|log| - 1]);
    }
  }

  /** In any history a legacy request is answered with the stage's own function of its
      tensor, whether its answer is remembered or computed, and whether remembering is on. */
  lemma {:induction false} LegacyAnswerIgnoresDedupe(stage: Stage, max: nat, log: seq<Call>, req: Request,
      input: Rows)
    requires max >= 1 && req.mode == Legacy
    ensures ForwardFlow(stage, max, History(stage, max, log), req, input).1 == Ok(stage.forward(input))
  {
    HistoryLegacySound(stage, max, log);
  }

  // ----- When an answer is still remembered -----

  /** The remembered answer that a request looks up or leaves behind, if any. */
  function Answered(stage: Stage, max: nat, s: StageState, c: Call): seq<Key>
    requires max >= 1 && Valid(s)
  {
    var key := KeyOf(c.req, c.input);
    if c.req.dedupeEnabled
       && (key in s.dedupe.store || RunWithCachePolicy(stage, max, s.kv, c.req, c.input).1.Ok?)
    then [key] else []
  }

  /** The log of the answers used, over a whole history. */
  function AnswersUsed(stage: Stage, max: nat, log: seq<Call>): seq<Key>
    requires max >= 1
  {
    if log == [] then []
    else
      var before := log[..|log| - 1];
      AnswersUsed(stage, max, before) + Answered(stage, max, History(stage, max, before), log[|log| - 1])
  }

  lemma AnswerTracks(stage: Stage, max: nat, s: StageState, uses: seq<Key>, c: Call)
    requires max >= 1 && Valid(s) && Tracks(s.dedupe, uses, max)
    ensures Tracks(ForwardFlow(stage, max, s, c.req, c.input).0.dedupe, uses + Answered(stage, max, s, c), max)
  {
    hide Tracks, RunWithCachePolicy;
    var key := KeyOf(c.req, c.input);
    var ran := RunWithCachePolicy(stage, max, s.kv, c.req, c.input).1;
    if c.req.dedupeEnabled && key in s.dedupe.store {
      ApplyTracks(s.dedupe, Get(key), uses, max);
    } else if c.req.dedupeEnabled && ran.Ok? {
      ApplyTracks(s.dedupe, Put(key, ran.value.output), uses, max);
    } else {
      assert uses + [] == uses;
    }
  }

  lemma {:induction false} HistoryTracks(stage: Stage, max: nat, log: seq<Call>)
    requires max >= 1
    ensures Tracks(History(stage, max, log).dedupe, AnswersUsed(stage, max, log), max)
  {
    if log == [] {
      assert WellFormed(Empty<Key, Rows>());
    } else {
      hide Tracks, ForwardFlow, Answered;
      var before, last := log[..|log| - 1], log[|log| - 1];
      HistoryTracks(stage, max, before);
      AnswerTracks(stage, max, History(stage, max, before), AnswersUsed(stage, max, before), last);
    }
  }

  /** After any history a decode step leaves its cache alone exactly when its own answer was
      used with fewer than `max` other answers used since, and is then refused on a stage
      with layers; otherwise it is executed, again if need be, and its cache grows. */
  lemma DecodeGrowsUnlessRemembered(stage: Stage, max: nat, log: seq<Call>, req: Request, input: Rows)
    requires max >= 1 && stage.supportsKv && req.dedupeEnabled && req.kvEnabled && req.mode == Decode
    requires req.id in History(stage, max, log).kv.store
    ensures var s, uses, key := History(stage, max, log), AnswersUsed(stage, max, log), KeyOf(req, input);
      var (after, answer) := ForwardFlow(stage, max, s, req, input);
      var seen := s.kv.store[req.id];
      && req.id in after.kv.store
      && if key in uses && |Since(uses, key)| < max then
           after.kv.store == s.kv.store && (answer == Err(SERVER_ERROR) <==> stage.hasLayers)
         else
           && after.kv.store[req.id] == seen + input
           && answer == Checked(stage, req, input, Step(Execute(stage, seen, input, req.position),
                                CacheLength(stage, seen), CacheLength(stage, seen + input)))
  {
    hide Tracks, Since, Execute, History;
    HistoryTracks(stage, max, log);
    TracksExactly(History(stage, max, log).dedupe, AnswersUsed(stage, max, log), max, KeyOf(req, input));
    if KeyOf(req, input) in History(stage, max, log).dedupe.store {
      RepeatLeavesCacheAlone(stage, max, History(stage, max, log), req, input);
    }
  }
}
