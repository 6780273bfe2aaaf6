/** The gateway's generation loop over a pipeline of stages: one whole-sequence request
    per token, or one prefill followed by single-token decodes against the stages' caches.
    Both produce the tokens of a plain recomputation. */
module Generation {
  import opened Basics
  import opened Lru
  import opened StageFlow

  /** `pick` chooses a token from the last position, avoiding the forbidden ids. */
  datatype Model = Model(stages: seq<Stage>, pick: (Row, set<int>) -> int)

  datatype Settings = Settings(
    id: string,
    maxNew: nat,
    minNew: int,
    eos: Option<int>,
    special: set<int>,
    kvEnabled: bool,
    dedupeEnabled: bool)

  datatype Reason = MaxNewTokens | Eos

  datatype Outcome = Raised | Generated(tokens: seq<int>, reason: Reason)

  function Tokens(ids: seq<int>): Rows {
    seq(|ids|, i requires 0 <= i < |ids| => Token(ids[i]))
  }

  function Forbidden(cfg: Settings, tokenIndex: int): set<int> {
    if tokenIndex + 1 < cfg.minNew then cfg.special + (if cfg.eos.Some? then {cfg.eos.value} else {})
    else {}
  }

  predicate Stops(cfg: Settings, tokenIndex: int, token: int) {
    cfg.eos == Some(token) && tokenIndex + 1 >= cfg.minNew
  }

  // ----- The reference: recompute the whole sequence for every token -----

  function Through(stages: seq<Stage>, rows: Rows): Rows {
    if stages == [] then rows else Through(stages[1..], stages[0].forward(rows))
  }

  /** The token the whole model yields for the whole sequence; none for no sequence. */
  function NextToken(m: Model, ids: seq<int>, tokenIndex: nat, cfg: Settings): Option<int> {
    var rows := Through(m.stages, Tokens(ids));
    if rows == [] then None else Some(m.pick(rows[|rows| - 1], Forbidden(cfg, tokenIndex)))
  }

  function Reference(m: Model, ids: seq<int>, tokenIndex: nat, cfg: Settings): (r: Outcome)
    decreases cfg.maxNew - tokenIndex
  {
    if tokenIndex >= cfg.maxNew then Generated([], MaxNewTokens)
    else match NextToken(m, ids, tokenIndex, cfg)
      case None => Raised
      case Some(token) =>
        if Stops(cfg, tokenIndex, token) then Generated([token], Eos)
        else Prepend([token], Reference(m, ids + [token], tokenIndex + 1, cfg))
  }

  function Prepend(tokens: seq<int>, r: Outcome): Outcome {
    if r.Generated? then Generated(tokens + r.tokens, r.reason) else Raised
  }

  /** Token k, behind these ids, is the pick from the last row of the whole-sequence
      computation on them, told to avoid the special ids and the end token while that would
      leave fewer tokens than the minimum, and nothing afterwards. */
  ghost predicate PickedBehind(m: Model, cfg: Settings, ids: seq<int>, k: nat, token: int) {
    forall rows: Rows, avoided: set<int> :: Asks(cfg, ids, k, rows, avoided) ==> PickedFrom(m, rows, avoided, token)
  }

  /** The rows of the ids, and what is to be avoided. */
  ghost predicate Asks(cfg: Settings, ids: seq<int>, k: nat, rows: Rows, avoided: set<int>) {
    && |rows| == |ids| && (forall i :: 0 <= i < |ids| ==> rows[i] == Token(ids[i]))
    && (forall x :: x in avoided <==> k + 1 < cfg.minNew && (x in cfg.special || cfg.eos == Some(x)))
  }

  predicate PickedFrom(m: Model, rows: Rows, avoided: set<int>, token: int) {
    var whole := Through(m.stages, rows);
    whole != [] && token == m.pick(whole[|whole| - 1], avoided)
  }

  lemma RowsOfTokens(rows: Rows, ids: seq<int>)
    requires |rows| == |ids| && forall i :: 0 <= i < |ids| ==> rows[i] == Token(ids[i])
    ensures rows == Tokens(ids)
  {}

  lemma WhatIsAvoided(avoided: set<int>, cfg: Settings, k: nat)
    requires forall x :: x in avoided <==> k + 1 < cfg.minNew && (x in cfg.special || cfg.eos == Some(x))
    ensures avoided == Forbidden(cfg, k)
  {
    forall x ensures x in avoided <==> x in Forbidden(cfg, k) {
      assert cfg.eos == Some(x) <==> cfg.eos.Some? && cfg.eos.value == x;
    }
  }

  lemma NextIsPicked(m: Model, ids: seq<int>, tokenIndex: nat, cfg: Settings)
    ensures var next := NextToken(m, ids, tokenIndex, cfg);
      next.Some? ==> PickedBehind(m, cfg, ids, tokenIndex, next.value)
  {
    hide Through, Tokens, Forbidden;
    var next := NextToken(m, ids, tokenIndex, cfg);
    if next.Some? {
      forall rows: Rows, avoided: set<int> | Asks(cfg, ids, tokenIndex, rows, avoided)
        ensures PickedFrom(m, rows, avoided, next.value)
      {
        RowsOfTokens(rows, ids);
        WhatIsAvoided(avoided, cfg, tokenIndex);
      }
    }
  }

  /** From token `tokenIndex` on. */
  ghost predicate EndsRight(cfg: Settings, tokenIndex: nat, tokens: seq<int>, reason: Reason) {
    && (forall k :: 0 <= k < |tokens| - 1 ==> !(cfg.eos == Some(tokens[k]) && tokenIndex + k + 1 >= cfg.minNew))
    && (reason == Eos <==>
          tokens != [] && cfg.eos == Some(tokens[|tokens| - 1]) && tokenIndex + |tokens| >= cfg.minNew)
    && |tokens| <= cfg.maxNew - tokenIndex && (reason == MaxNewTokens ==> |tokens| == cfg.maxNew - tokenIndex)
  }

  lemma OneMoreEndsRight(cfg: Settings, tokenIndex: nat, token: int, tokens: seq<int>, reason: Reason)
    requires tokenIndex < cfg.maxNew && EndsRight(cfg, tokenIndex + 1, tokens, reason)
    requires !(cfg.eos == Some(token) && tokenIndex + 1 >= cfg.minNew)
    ensures EndsRight(cfg, tokenIndex, [token] + tokens, reason)
  {
    var all := [token] + tokens;
    forall k | 0 <= k < |all| - 1 ensures !(cfg.eos == Some(all[k]) && tokenIndex + k + 1 >= cfg.minNew) {
      if k > 0 { assert all[k] == tokens[k - 1]; }
    }
    assert tokens != [] ==> all[|all| - 1] == tokens[|tokens| - 1];
  }

  lemma {:induction false} ReferenceRuns(m: Model, ids: seq<int>, tokenIndex: nat, cfg: Settings)
    requires tokenIndex <= cfg.maxNew
    ensures var r := Reference(m, ids, tokenIndex, cfg);
      r.Generated? ==>
        && EndsRight(cfg, tokenIndex, r.tokens, r.reason)
        && forall k :: 0 <= k < |r.tokens| ==> PickedBehind(m, cfg, ids + r.tokens[..k], tokenIndex + k, r.tokens[k])
    decreases cfg.maxNew - tokenIndex
  {
    hide PickedBehind, NextToken;
    var r := Reference(m, ids, tokenIndex, cfg);
    if tokenIndex < cfg.maxNew && r.Generated? {
      var token := NextToken(m, ids, tokenIndex, cfg).value;
      NextIsPicked(m, ids, tokenIndex, cfg);
      assert r.tokens[0] == token && ids + r.tokens[..0] == ids;
      if !Stops(cfg, tokenIndex, token) {
        var rest := Reference(m, ids + [token], tokenIndex + 1, cfg);
        ReferenceRuns(m, ids + [token], tokenIndex + 1, cfg);
        OneMoreEndsRight(cfg, tokenIndex, token, rest.tokens, rest.reason);
        forall k | 1 <= k < |r.tokens| ensures PickedBehind(m, cfg, ids + r.tokens[..k], tokenIndex + k, r.tokens[k]) {
          assert ids + [token] + rest.tokens[..k - 1] == ids + r.tokens[..k];
          assert r.tokens[k] == rest.tokens[k - 1];
        }
      }
    }
  }

  /** What a generation must be: it ends at the token limit, or at the first end token that
      makes the count reach the minimum, and only then with that reason; and every token is
      the pick behind the prompt and the tokens before it. */
  ghost predicate AsAsked(m: Model, cfg: Settings, prompt: seq<int>, tokens: seq<int>, reason: Reason) {
    && (forall k :: 0 <= k < |tokens| - 1 ==> !(cfg.eos == Some(tokens[k]) && k + 1 >= cfg.minNew))
    && (reason == Eos <==> tokens != [] && cfg.eos == Some(tokens[|tokens| - 1]) && |tokens| >= cfg.minNew)
    && |tokens| <= cfg.maxNew && (reason == MaxNewTokens ==> |tokens| == cfg.maxNew)
    && forall k :: 0 <= k < |tokens| ==> PickedBehind(m, cfg, prompt + tokens[..k], k, tokens[k])
  }

  lemma ReferenceEnds(m: Model, prompt: seq<int>, cfg: Settings)
    ensures var r := Reference(m, prompt, 0, cfg);
      r.Generated? ==>
        && (forall k :: 0 <= k < |r.tokens| - 1 ==> !(cfg.eos == Some(r.tokens[k]) && k + 1 >= cfg.minNew))
        && (r.reason == Eos <==>
              r.tokens != [] && cfg.eos == Some(r.tokens[|r.tokens| - 1]) && |r.tokens| >= cfg.minNew)
        && AsAsked(m, cfg, prompt, r.tokens, r.reason)
  {
    hide PickedBehind, Reference;
    ReferenceRuns(m, prompt, 0, cfg);
  }

  // ----- Causal stages -----

  ghost predicate CausalModel(m: Model) {
    forall i :: 0 <= i < |m.stages| ==> Causal(m.stages[i].forward)
  }

  lemma {:induction false} ThroughCausal(stages: seq<Stage>, s: Rows, t: Rows)
    requires forall i :: 0 <= i < |stages| ==> Causal(stages[i].forward)
    requires s <= t
    ensures |Through(stages, s)| == |s|
    ensures Through(stages, s) <= Through(stages, t)
  {
    if stages == [] {
    } else {
      ThroughCausal(stages[1..], stages[0].forward(s), stages[0].forward(t));
    }
  }

  // ----- Interference from other requests -----

  /** What other requests may do to a stage between two requests of `id`: anything that
      keeps this id's cache entry and adds no remembered answer under this id. */
  ghost predicate Keeps(s: StageState, t: StageState, id: string) {
    && Valid(t)
    && (id in s.kv.store ==> id in t.kv.store && t.kv.store[id] == s.kv.store[id])
    && (forall k :: k in t.dedupe.store && k.id == id ==> k in s.dedupe.store)
  }

  /** `env(tokenIndex, stage, state)` is the state other requests leave behind. */
  type Interference = (nat, nat, StageState) -> StageState

  ghost predicate Gentle(env: Interference, id: string) {
    forall k, i, s {:trigger env(k, i, s)} :: Valid(s) ==> Keeps(s, env(k, i, s), id)
  }

  /** No answer is remembered for this id from token `tokenIndex` on. */
  ghost predicate Unanswered(s: StageState, id: string, tokenIndex: int) {
    forall k :: k in s.dedupe.store && k.id == id ==> k.tokenIndex < tokenIndex
  }

  /** The stage is ready for token `tokenIndex` of request `id`; in the cached mode its
      cache has taken in exactly `seen`. */
  ghost predicate Ready(s: StageState, cfg: Settings, tokenIndex: int, seen: Rows) {
    && Valid(s)
    && Unanswered(s, cfg.id, tokenIndex)
    && (cfg.kvEnabled && tokenIndex > 0 ==> cfg.id in s.kv.store && s.kv.store[cfg.id] == seen)
  }

  function RequestFor(cfg: Settings, tokenIndex: nat, length: nat): (r: Request)
    ensures r.id == cfg.id && r.tokenIndex == tokenIndex
  {
    if cfg.kvEnabled && tokenIndex > 0 then
      Request(cfg.id, tokenIndex, Decode, Some(length - 1), cfg.kvEnabled, cfg.dedupeEnabled)
    else
      Request(cfg.id, tokenIndex, if cfg.kvEnabled then Prefill else Legacy,
              if cfg.kvEnabled then Some(0) else None, cfg.kvEnabled, cfg.dedupeEnabled)
  }

  /** A request under this token's index has no remembered answer, and remembering its
      own answer leaves the next index free. */
  lemma DedupeMisses(stage: Stage, max: nat, s: StageState, cfg: Settings, tokenIndex: nat, length: nat, input: Rows)
    requires max >= 1 && Valid(s) && Unanswered(s, cfg.id, tokenIndex)
    ensures var req := RequestFor(cfg, tokenIndex, length);
      var r := ForwardFlow(stage, max, s, req, input);
      var ran := RunWithCachePolicy(stage, max, s.kv, req, input);
      && r.0.kv == ran.0 && Unanswered(r.0, cfg.id, tokenIndex + 1)
      && r.1 == if ran.1.Ok? then Checked(stage, req, input, ran.1.value) else Err(ran.1.error)
  {
    var key := KeyOf(RequestFor(cfg, tokenIndex, length), input);
    assert key !in s.dedupe.store;
  }

  lemma DecodeRuns(stage: Stage, max: nat, kv: Table<string, Rows>, req: Request, seen: Rows, whole: Rows)
    requires max >= 1 && Causal(stage.forward) && stage.supportsKv && WellFormed(kv)
    requires req.kvEnabled && req.mode == Decode && req.position == Some(|whole| - 1)
    requires whole != [] && seen == whole[..|whole| - 1]
    requires req.id in kv.store && kv.store[req.id] == seen
    ensures var r := RunWithCachePolicy(stage, max, kv, req, whole[|whole| - 1..]);
      && r.1 == Ok(Step(stage.forward(whole)[|whole| - 1..], CacheLength(stage, seen), CacheLength(stage, whole)))
      && req.id in r.0.store && r.0.store[req.id] == whole
  {
    assert seen + whole[|whole| - 1..] == whole;
  }

  lemma PrefillRuns(stage: Stage, max: nat, kv: Table<string, Rows>, req: Request, whole: Rows)
    requires max >= 1 && Causal(stage.forward) && stage.supportsKv && WellFormed(kv)
    requires req.kvEnabled && req.mode == Prefill && req.position == Some(0)
    ensures var r := RunWithCachePolicy(stage, max, kv, req, whole);
      && r.1 == Ok(Step(stage.forward(whole), 0, CacheLength(stage, whole)))
      && req.id in r.0.store && r.0.store[req.id] == whole
  {
    var nothing: Rows := [];
    assert nothing + whole == whole;
    assert stage.forward(whole)[0..] == stage.forward(whole);
  }

  /** One stage's request: whole sequence in, whole answer out, or in decode mode the last
      position in and the last position of the whole answer out. */
  lemma StageAnswers(stage: Stage, max: nat, s: StageState, cfg: Settings, tokenIndex: nat,
                     seen: Rows, whole: Rows)
    requires max >= 1 && Causal(stage.forward) && (cfg.kvEnabled ==> stage.supportsKv)
    requires Ready(s, cfg, tokenIndex, seen)
    requires whole != [] && seen == whole[..|whole| - 1]
    ensures var decode := cfg.kvEnabled && tokenIndex > 0;
      var input := if decode then whole[|whole| - 1..] else whole;
      var r := ForwardFlow(stage, max, s, RequestFor(cfg, tokenIndex, |whole|), input);
      var out := stage.forward(whole);
      && |out| == |whole|
      && r.1 == Ok(if decode then out[|whole| - 1..] else out)
      && Ready(r.0, cfg, tokenIndex + 1, whole)
  {
    var req := RequestFor(cfg, tokenIndex, |whole|);
    if cfg.kvEnabled && tokenIndex > 0 {
      DedupeMisses(stage, max, s, cfg, tokenIndex, |whole|, whole[|whole| - 1..]);
      DecodeRuns(stage, max, s.kv, req, seen, whole);
    } else {
      DedupeMisses(stage, max, s, cfg, tokenIndex, |whole|, whole);
      if cfg.kvEnabled {
        PrefillRuns(stage, max, s.kv, req, whole);
      }
    }
  }

  /** With an empty prompt the cached mode fails at the first stage with layers, and every
      stage before it answers with nothing. */
  lemma StageAnswersNothing(stage: Stage, max: nat, s: StageState, cfg: Settings)
    requires max >= 1 && Causal(stage.forward) && (cfg.kvEnabled ==> stage.supportsKv)
    requires Valid(s) && Unanswered(s, cfg.id, 0)
    ensures var r := ForwardFlow(stage, max, s, RequestFor(cfg, 0, 0), []);
      r.1.Err? || r.1 == Ok([])
  {
    var nothing: Rows := [];
    assert stage.forward(nothing) == [] && nothing + nothing == nothing;
  }

  // ----- The pipeline -----

  datatype Passed = Passed(states: seq<StageState>, output: Option<Rows>)

  /** A request handed from stage to stage; a stage's error ends it. */
  function Pass(m: Model, max: nat, states: seq<StageState>, from: nat, req: Request, input: Rows,
                env: Interference): (r: Passed)
    requires max >= 1 && |states| == |m.stages| && from <= |m.stages|
    requires forall i :: 0 <= i < |states| ==> Valid(states[i])
    requires forall k, i, s {:trigger env(k, i, s)} :: Valid(s) ==> Valid(env(k, i, s))
    requires req.tokenIndex >= 0
    ensures |r.states| == |m.stages| && forall i :: 0 <= i < |states| ==> Valid(r.states[i])
    decreases |m.stages| - from
  {
    if from == |m.stages| then Passed(states, Some(input))
    else
      var (s, answer) := ForwardFlow(m.stages[from], max, env(req.tokenIndex, from, states[from]), req, input);
      match answer
      case Err(_) => Passed(states[from := s], None)
      case Ok(output) => Pass(m, max, states[from := s], from + 1, req, output, env)
  }

  /** What travels between two stages of the whole answer `whole`: its last position in
      decode mode, all of it otherwise. */
  function Travels(cfg: Settings, tokenIndex: nat, whole: Rows): Rows {
    if cfg.kvEnabled && tokenIndex > 0 && whole != [] then whole[|whole| - 1..] else whole
  }

  /** What the first `i` stages make of the tokens. */
  function Upto(m: Model, i: nat, ids: seq<int>): Rows
    requires i <= |m.stages|
  {
    Through(m.stages[..i], Tokens(ids))
  }

  /** Every stage is ready for token `tokenIndex`, the i-th having taken in what the stages
      before it make of the tokens `ids`. */
  ghost predicate AllReady(m: Model, states: seq<StageState>, cfg: Settings, tokenIndex: int, ids: seq<int>) {
    && |states| == |m.stages|
    && forall i :: 0 <= i < |states| ==> Ready(states[i], cfg, tokenIndex, Upto(m, i, ids))
  }

  lemma ThroughSnoc(stages: seq<Stage>, i: nat, rows: Rows)
    requires i < |stages|
    ensures Through(stages[..i + 1], rows) == stages[i].forward(Through(stages[..i], rows))
    decreases i
  {
    if i > 0 {
      assert stages[..i + 1][1..] == stages[1..][..i] && stages[..i][1..] == stages[1..][..i - 1];
      ThroughSnoc(stages[1..], i - 1, stages[0].forward(rows));
    } else {
      assert stages[..1][1..] == [];
    }
  }

  lemma UptoShape(m: Model, i: nat, ids: seq<int>)
    requires CausalModel(m) && i <= |m.stages| && ids != []
    ensures |Upto(m, i, ids)| == |ids| && Upto(m, i, ids[..|ids| - 1]) == Upto(m, i, ids)[..|ids| - 1]
    ensures i < |m.stages| ==> Upto(m, i + 1, ids) == m.stages[i].forward(Upto(m, i, ids))
  {
    assert Tokens(ids[..|ids| - 1]) <= Tokens(ids);
    ThroughCausal(m.stages[..i], Tokens(ids[..|ids| - 1]), Tokens(ids));
    ThroughCausal(m.stages[..i], Tokens(ids), Tokens(ids));
    if i < |m.stages| {
      ThroughSnoc(m.stages, i, Tokens(ids));
    }
  }

  /** The i-th stage's part of a pass, after whatever other requests did to it. */
  lemma StageTurn(m: Model, max: nat, s: StageState, i: nat, cfg: Settings, tokenIndex: nat, ids: seq<int>,
                  env: Interference)
    requires max >= 1 && CausalModel(m) && Gentle(env, cfg.id) && ids != [] && i < |m.stages|
    requires cfg.kvEnabled ==> m.stages[i].supportsKv
    requires Ready(s, cfg, tokenIndex, Upto(m, i, ids[..|ids| - 1]))
    ensures Valid(env(tokenIndex, i, s))
    ensures var r := ForwardFlow(m.stages[i], max, env(tokenIndex, i, s), RequestFor(cfg, tokenIndex, |ids|),
                                 Travels(cfg, tokenIndex, Upto(m, i, ids)));
      && r.1 == Ok(Travels(cfg, tokenIndex, Upto(m, i + 1, ids)))
      && Ready(r.0, cfg, tokenIndex + 1, Upto(m, i, ids))
  {
    hide ForwardFlow, Through, Tokens;
    var t := env(tokenIndex, i, s);
    assert Keeps(s, t, cfg.id);
    UptoShape(m, i, ids);
    UptoShape(m, i + 1, ids);
    StageAnswers(m.stages[i], max, t, cfg, tokenIndex, Upto(m, i, ids[..|ids| - 1]), Upto(m, i, ids));
  }

  lemma {:induction false} PassAnswers(m: Model, max: nat, states: seq<StageState>, from: nat, cfg: Settings,
                                       tokenIndex: nat, ids: seq<int>, env: Interference)
    requires max >= 1 && CausalModel(m) && Gentle(env, cfg.id) && ids != []
    requires cfg.kvEnabled ==> forall i :: 0 <= i < |m.stages| ==> m.stages[i].supportsKv
    requires |states| == |m.stages| && from <= |m.stages|
    requires forall i :: 0 <= i < |states| ==> Valid(states[i])
    requires forall i :: 0 <= i < from ==> Ready(states[i], cfg, tokenIndex + 1, Upto(m, i, ids))
    requires forall i :: from <= i < |states| ==> Ready(states[i], cfg, tokenIndex, Upto(m, i, ids[..|ids| - 1]))
    ensures var r := Pass(m, max, states, from, RequestFor(cfg, tokenIndex, |ids|),
                          Travels(cfg, tokenIndex, Upto(m, from, ids)), env);
      && r.output == Some(Travels(cfg, tokenIndex, Upto(m, |m.stages|, ids)))
      && AllReady(m, r.states, cfg, tokenIndex + 1, ids)
    decreases |m.stages| - from
  {
    hide ForwardFlow, CausalModel, Gentle, Ready, Upto, Travels, RequestFor;
    if from == |m.stages| {
    } else {
      StageTurn(m, max, states[from], from, cfg, tokenIndex, ids, env);
      var t := ForwardFlow(m.stages[from], max, env(tokenIndex, from, states[from]),
                           RequestFor(cfg, tokenIndex, |ids|), Travels(cfg, tokenIndex, Upto(m, from, ids))).0;
      PassAnswers(m, max, states[from := t], from + 1, cfg, tokenIndex, ids, env);
    }
  }

  lemma {:induction false} PassAnswersNothing(m: Model, max: nat, states: seq<StageState>, from: nat,
                                              cfg: Settings, env: Interference)
    requires max >= 1 && CausalModel(m) && Gentle(env, cfg.id)
    requires cfg.kvEnabled ==> forall i :: 0 <= i < |m.stages| ==> m.stages[i].supportsKv
    requires |states| == |m.stages| && from <= |m.stages|
    requires forall i :: 0 <= i < |states| ==> Valid(states[i])
    requires forall i :: from <= i < |states| ==> Unanswered(states[i], cfg.id, 0)
    ensures var r := Pass(m, max, states, from, RequestFor(cfg, 0, 0), [], env);
      r.output.None? || r.output == Some([])
    decreases |m.stages| - from
  {
    if from == |m.stages| {
    } else {
      var s := env(0, from, states[from]);
      assert Keeps(states[from], s, cfg.id);
      StageAnswersNothing(m.stages[from], max, s, cfg);
      var (t, answer) := ForwardFlow(m.stages[from], max, s, RequestFor(cfg, 0, 0), []);
      if answer.Ok? {
        PassAnswersNothing(m, max, states[from := t], from + 1, cfg, env);
      }
    }
  }

  // ----- The loop -----

  /** The loop's invariant on the stages: ready for this token, the tokens but the last taken in. */
  ghost predicate LoopReady(m: Model, states: seq<StageState>, cfg: Settings, tokenIndex: nat, ids: seq<int>) {
    && |states| == |m.stages|
    && (forall i :: 0 <= i < |states| ==> Valid(states[i]) && Unanswered(states[i], cfg.id, tokenIndex))
    && (tokenIndex > 0 ==> ids != [] && AllReady(m, states, cfg, tokenIndex, ids[..|ids| - 1]))
  }

  /** What the gateway sends for this token. */
  function InputFor(cfg: Settings, tokenIndex: nat, ids: seq<int>): Rows
    requires tokenIndex > 0 ==> ids != []
  {
    if cfg.kvEnabled && tokenIndex > 0 then Tokens(ids[|ids| - 1..]) else Tokens(ids)
  }

  /** The last row of an answer; none for an error or an empty answer. */
  function LastRow(output: Option<Rows>): Option<Row> {
    if output.None? || output.value == [] then None else Some(output.value[|output.value| - 1])
  }

  /** One pass through the pipeline: the last row it yields is the whole-sequence answer's
      last row, and the stages are ready for the next token. */
  lemma LoopStep(m: Model, max: nat, states: seq<StageState>, cfg: Settings, tokenIndex: nat, ids: seq<int>,
                 env: Interference)
    requires max >= 1 && CausalModel(m) && Gentle(env, cfg.id)
    requires cfg.kvEnabled ==> forall i :: 0 <= i < |m.stages| ==> m.stages[i].supportsKv
    requires LoopReady(m, states, cfg, tokenIndex, ids)
    ensures |states| == |m.stages| && (tokenIndex > 0 ==> ids != [])
    ensures forall i :: 0 <= i < |states| ==> Valid(states[i])
    ensures forall k, i, s {:trigger env(k, i, s)} :: Valid(s) ==> Valid(env(k, i, s))
    ensures var r := Pass(m, max, states, 0, RequestFor(cfg, tokenIndex, |ids|), InputFor(cfg, tokenIndex, ids), env);
      && LastRow(r.output) == LastRow(Some(Through(m.stages, Tokens(ids))))
      && (ids != [] ==> AllReady(m, r.states, cfg, tokenIndex + 1, ids))
      && (ids == [] ==> LastRow(r.output).None?)
  {
    hide ForwardFlow, Pass, AllReady;
    if ids == [] {
      PassAnswersNothing(m, max, states, 0, cfg, env);
      assert Tokens(ids) == [];
      ThroughCausal(m.stages, [], []);
    } else {
      assert tokenIndex > 0 ==> AllReady(m, states, cfg, tokenIndex, ids[..|ids| - 1]);
      FirstPass(m, states, cfg, tokenIndex, ids);
      PassAnswers(m, max, states, 0, cfg, tokenIndex, ids, env);
      UptoShape(m, |m.stages|, ids);
      assert m.stages[..0] == [] && m.stages[..|m.stages|] == m.stages;
      assert Tokens(ids)[|ids| - 1..] == Tokens(ids[|ids| - 1..]);
    }
  }

  lemma FirstPass(m: Model, states: seq<StageState>, cfg: Settings, tokenIndex: nat, ids: seq<int>)
    requires LoopReady(m, states, cfg, tokenIndex, ids) && ids != []
    ensures forall i :: 0 <= i < |states| ==> Ready(states[i], cfg, tokenIndex, Upto(m, i, ids[..|ids| - 1]))
  {
  }

  /** Of causal stages the reference fails exactly for an empty prompt. */
  lemma {:induction false} ReferenceFails(m: Model, ids: seq<int>, tokenIndex: nat, cfg: Settings)
    requires CausalModel(m)
    ensures Reference(m, ids, tokenIndex, cfg).Raised? <==> ids == [] && tokenIndex < cfg.maxNew
    decreases cfg.maxNew - tokenIndex
  {
    hide Through, Forbidden;
    ThroughCausal(m.stages, Tokens(ids), Tokens(ids));
    hide CausalModel;
    if tokenIndex < cfg.maxNew && ids != [] {
      ReferenceFails(m, ids + [NextToken(m, ids, tokenIndex, cfg).value], tokenIndex + 1, cfg);
    }
  }

  /** One turn of the reference, behind the tokens generated before it. */
  lemma ReferenceTurn(m: Model, ids: seq<int>, before: seq<int>, tokenIndex: nat, cfg: Settings)
    requires tokenIndex <= cfg.maxNew
    ensures Prepend([], Reference(m, ids, tokenIndex, cfg)) == Reference(m, ids, tokenIndex, cfg)
    ensures var whole := Prepend(before, Reference(m, ids, tokenIndex, cfg));
      if tokenIndex == cfg.maxNew then whole == Generated(before, MaxNewTokens)
      else match NextToken(m, ids, tokenIndex, cfg)
        case None => whole == Raised
        case Some(token) =>
          if Stops(cfg, tokenIndex, token) then whole == Generated(before + [token], Eos)
          else whole == Prepend(before + [token], Reference(m, ids + [token], tokenIndex + 1, cfg))
  {
    hide Through, Forbidden;
    assert before + [] == before;
    if tokenIndex < cfg.maxNew && NextToken(m, ids, tokenIndex, cfg).Some? {
      var token := NextToken(m, ids, tokenIndex, cfg).value;
      var rest := Reference(m, ids + [token], tokenIndex + 1, cfg);
      if rest.Generated? {
        assert before + ([token] + rest.tokens) == before + [token] + rest.tokens;
      }
    }
  }

  /** The reference does not know whether caches or remembered answers are in use. */
  lemma {:induction false} ReferenceIgnoresMode(m: Model, ids: seq<int>, tokenIndex: nat, cfg: Settings,
      kv: bool, dedupe: bool)
    ensures Reference(m, ids, tokenIndex, cfg.(kvEnabled := kv, dedupeEnabled := dedupe)) == Reference(m, ids, tokenIndex, cfg)
    decreases cfg.maxNew - tokenIndex
  {
    hide Through;
    if tokenIndex < cfg.maxNew && NextToken(m, ids, tokenIndex, cfg).Some? {
      ReferenceIgnoresMode(m, ids + [NextToken(m, ids, tokenIndex, cfg).value], tokenIndex + 1, cfg, kv, dedupe);
    }
  }

  lemma ReadyForNext(m: Model, states: seq<StageState>, cfg: Settings, tokenIndex: nat, ids: seq<int>, token: int)
    requires AllReady(m, states, cfg, tokenIndex + 1, ids)
    ensures LoopReady(m, states, cfg, tokenIndex + 1, ids + [token])
  {
    assert (ids + [token])[..|ids|] == ids;
    hide Upto;
  }

  /** One turn of the loop: build the request, send it down the pipeline, pick the token. */
  method Turn(m: Model, max: nat, states: seq<StageState>, cfg: Settings, tokenIndex: nat, inputIds: seq<int>,
              env: Interference) returns (token: Option<int>, after: seq<StageState>)
    requires max >= 1 && CausalModel(m) && Gentle(env, cfg.id)
    requires cfg.kvEnabled ==> forall i :: 0 <= i < |m.stages| ==> m.stages[i].supportsKv
    requires LoopReady(m, states, cfg, tokenIndex, inputIds)
    ensures token == NextToken(m, inputIds, tokenIndex, cfg)
    ensures token.Some? ==> LoopReady(m, after, cfg, tokenIndex + 1, inputIds + [token.value])
  {
    hide ForwardFlow, Pass, CausalModel, Gentle, Through, AllReady, Tokens, Forbidden, InputFor, RequestFor;
    LoopStep(m, max, states, cfg, tokenIndex, inputIds, env);
    hide LoopReady;
    var passed := Pass(m, max, states, 0, RequestFor(cfg, tokenIndex, |inputIds|),
                       InputFor(cfg, tokenIndex, inputIds), env);
    if LastRow(passed.output).None? {
      return None, passed.states;
    }
    token := Some(m.pick(LastRow(passed.output).value, Forbidden(cfg, tokenIndex)));
    after := passed.states;
    ReadyForNext(m, after, cfg, tokenIndex, inputIds, token.value);
  }

  /** `GenerationLoop.generate`. For causal stages that keep their caches, whatever other
      requests do in between, the answer is the reference's: the same tokens and the same
      reason with and without the caches, and with and without remembered answers. */
  method Generate(m: Model, max: nat, initial: seq<StageState>, cfg: Settings, prompt: seq<int>,
                  env: Interference) returns (r: Outcome)
    requires max >= 1 && CausalModel(m) && Gentle(env, cfg.id)
    requires cfg.kvEnabled ==> forall i :: 0 <= i < |m.stages| ==> m.stages[i].supportsKv
    requires |initial| == |m.stages|
    requires forall i :: 0 <= i < |initial| ==> Valid(initial[i]) && Unanswered(initial[i], cfg.id, 0)
    ensures r == Reference(m, prompt, 0, cfg)
    ensures r.Raised? <==> prompt == [] && cfg.maxNew > 0
    ensures r.Generated? ==> AsAsked(m, cfg, prompt, r.tokens, r.reason)
  {
    ReferenceFails(m, prompt, 0, cfg);
    ReferenceEnds(m, prompt, cfg);
    hide AsAsked;
    assert LoopReady(m, initial, cfg, 0, prompt);
    hide CausalModel, Gentle, LoopReady, NextToken, Reference, Prepend;
    var inputIds := prompt;
    var generated: seq<int> := [];
    var reason := MaxNewTokens;
    var states := initial;
    ReferenceTurn(m, prompt, [], 0, cfg);
    for tokenIndex := 0 to cfg.maxNew
      invariant reason == MaxNewTokens
      invariant Prepend(generated, Reference(m, inputIds, tokenIndex, cfg)) == Reference(m, prompt, 0, cfg)
      invariant LoopReady(m, states, cfg, tokenIndex, inputIds)
    {
      ReferenceTurn(m, inputIds, generated, tokenIndex, cfg);
      var next, after := Turn(m, max, states, cfg, tokenIndex, inputIds, env);
      if next.None? {
        return Raised;
      }
      states := after;
      generated := generated + [next.value];
      inputIds := inputIds + [next.value];
      if Stops(cfg, tokenIndex, next.value) {
        reason := Eos;
        break;
      }
    }
    if reason == MaxNewTokens {
      ReferenceTurn(m, inputIds, generated, cfg.maxNew, cfg);
    }
    r := Generated(generated, reason);
  }

  /** One prefill and single-token decodes generate what whole-sequence requests generate. */
  method GenerateBothWays(m: Model, max: nat, initial: seq<StageState>, cfg: Settings, prompt: seq<int>,
                          env: Interference, other: Interference) returns (cached: Outcome, legacy: Outcome)
    requires max >= 1 && CausalModel(m) && Gentle(env, cfg.id) && Gentle(other, cfg.id)
    requires forall i :: 0 <= i < |m.stages| ==> m.stages[i].supportsKv
    requires |initial| == |m.stages|
    requires forall i :: 0 <= i < |initial| ==> Valid(initial[i]) && Unanswered(initial[i], cfg.id, 0)
    ensures cached == legacy
  {
    hide CausalModel, Gentle, Reference;
    cached := Generate(m, max, initial, cfg.(kvEnabled := true), prompt, env);
    legacy := Generate(m, max, initial, cfg.(kvEnabled := false), prompt, other);
    ReferenceIgnoresMode(m, prompt, 0, cfg, true, cfg.dedupeEnabled);
    ReferenceIgnoresMode(m, prompt, 0, cfg, false, cfg.dedupeEnabled);
  }
}
