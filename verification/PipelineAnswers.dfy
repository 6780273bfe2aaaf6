/** The pipeline with the stages' remembered answers. A stage looks an answer up before it
    enters a call, and keeps the call's answer before it is handed on, each under a lock of
    its own; so between them, too, any steps of the others may fall. In every run no request
    ever finds an answer, and a run is a run of the pipeline without them. */
module PipelineAnswers {
  import opened Basics
  import opened Lru
  import opened StageFlow
  import opened Generation
  import P = PipelineRun
  import Progress = PipelineProgress
  import Kv = KvInterleaving

  /** A computed answer that its stage has not kept yet. */
  datatype Computed = Computed(input: Rows, output: Rows)

  /** The pipeline, the stages' tables of answers, who has looked for an answer in vain, and
      whose answer is still to be kept. */
  datatype Memory = Memory(net: P.Net, answers: map<nat, Table<Key, Rows>>, asked: set<string>, unkept: map<string, Computed>)

  datatype Step =
    | Ask(id: string)
    | Keep(id: string)
    | Other(step: P.Step)

  function Answers(s: Memory, j: nat): Table<Key, Rows> {
    if j in s.answers then s.answers[j] else Empty()
  }

  /** The request as the gateway sends it for this token. */
  function RequestOf(cfg: Settings, id: string, g: P.Gate): Request {
    var t := P.TokenIndex(g);
    Request(id, t, if t == 0 then Prefill else Decode, Some(if t == 0 then 0 else |g.ids| - 1), true, cfg.dedupeEnabled)
  }

  /** What the rows of the request's own entry come to. */
  function EntryLength(stage: Stage, s: Kv.State, id: string): nat {
    if id in s.kv.store && s.kv.store[id] < |s.heap| then CacheLength(stage, s.heap[s.kv.store[id]]) else 0
  }

  /** A remembered answer is checked like a computed one, and handed on. */
  function AnswerGate(m: Model, cfg: Settings, id: string, g: P.Gate, output: Rows, length: nat): P.Gate
    requires g.stand.Entering? && g.at < |m.stages|
  {
    match Checked(m.stages[g.at], RequestOf(cfg, id, g), g.stand.rows, StageFlow.Step(output, length, length))
    case Err(_) => g.(stand := P.Ended(Raised))
    case Ok(rows) =>
      if g.at + 1 < |m.stages| then g.(at := g.at + 1, stand := P.Entering(rows)) else P.TakeToken(m, cfg, g, rows)
  }

  function DoAsk(m: Model, max: nat, cfg: Settings, s: Memory, id: string): (r: Memory)
    requires |s.net.logs| == |m.stages|
    ensures |r.net.logs| == |m.stages|
  {
    if id in s.net.gates && s.net.gates[id].stand.Entering? && s.net.gates[id].at < |m.stages| && id !in s.asked then
      var g := s.net.gates[id];
      var key := KeyOf(RequestOf(cfg, id, g), g.stand.rows);
      var table := Answers(s, g.at);
      if cfg.dedupeEnabled && key in table.store then
        var length := EntryLength(m.stages[g.at], P.StateAt(m, max, s.net.logs, g.at), id);
        var gate := AnswerGate(m, cfg, id, g, table.store[key], length);
        s.(net := P.Log(s.net, g.at, Kv.Peek(id)).(gates := s.net.gates[id := gate]),
           answers := s.answers[g.at := Touch(table, key)])
      else s.(asked := s.asked + {id})
    else s
  }

  /** The answer that a forward computes, if it is to be kept. */
  function ComputedBy(m: Model, max: nat, cfg: Settings, net: P.Net, id: string): Option<Computed>
    requires |net.logs| == |m.stages|
  {
    if cfg.dedupeEnabled && id in net.gates && net.gates[id].stand.Inside? && net.gates[id].at < |m.stages| then
      var at := net.gates[id].at;
      var k := P.StateAt(m, max, net.logs, at);
      if id in k.procs && k.procs[id].Holding? && k.procs[id].handle < |k.heap| then
        var p := k.procs[id];
        Some(Computed(p.input, Execute(m.stages[at], k.heap[p.handle], p.input, Some(p.position))))
      else None
    else None
  }

  function DoKeep(m: Model, max: nat, cfg: Settings, s: Memory, id: string): (r: Memory)
    ensures r.net == s.net
  {
    if id in s.unkept && id in s.net.gates && s.net.gates[id].stand.Inside? then
      var g := s.net.gates[id];
      var key := KeyOf(RequestOf(cfg, id, g), s.unkept[id].input);
      var table := Trim(Assign(Answers(s, g.at), key, s.unkept[id].output), max);
      s.(answers := s.answers[g.at := table], unkept := s.unkept - {id})
    else s
  }

  function DoOther(m: Model, max: nat, cfg: P.Configs, s: Memory, step: P.Step): (r: Memory)
    requires |s.net.logs| == |m.stages|
    ensures |r.net.logs| == |m.stages|
  {
    var next := P.Do(m, max, cfg, s.net, step);
    match step
    case Enter(id) => if id in s.asked then s.(net := next, asked := s.asked - {id}) else s
    case Run(id) =>
      var computed := ComputedBy(m, max, cfg(id), s.net, id);
      s.(net := next, unkept := if computed.Some? then s.unkept[id := computed.value] else s.unkept)
    case Leave(id) => if id in s.unkept then s else s.(net := next)
    case _ => s.(net := next)
  }

  function Do(m: Model, max: nat, cfg: P.Configs, s: Memory, step: Step): (r: Memory)
    requires |s.net.logs| == |m.stages|
    ensures |r.net.logs| == |m.stages|
  {
    match step
    case Ask(id) => DoAsk(m, max, cfg(id), s, id)
    case Keep(id) => DoKeep(m, max, cfg(id), s, id)
    case Other(other) => DoOther(m, max, cfg, s, other)
  }

  function Initial(m: Model): Memory {
    Memory(P.Initial(m), map[], {}, map[])
  }

  function After(m: Model, max: nat, cfg: P.Configs, steps: seq<Step>): (s: Memory)
    ensures |s.net.logs| == |m.stages|
  {
    if steps == [] then Initial(m)
    else Do(m, max, cfg, After(m, max, cfg, steps[..|steps| - 1]), steps[|steps| - 1])
  }

  // ----- No answer is ever found -----

  /** The request has its answer for this token at this stage, or at least its own entry. */
  predicate Answered(g: P.Gate, tokenIndex: int, j: nat) {
    g.stand.Ended? || tokenIndex < P.TokenIndex(g)
    || (tokenIndex == P.TokenIndex(g) && (j < g.at || (j == g.at && g.stand.Inside?)))
  }

  /** A stage only remembers what its requests are past asking for. */
  ghost predicate Past(s: Memory) {
    forall j: nat, k :: k in Answers(s, j).store ==> k.id in s.net.gates && Answered(s.net.gates[k.id], k.tokenIndex, j)
  }

  lemma AskMisses(m: Model, max: nat, cfg: Settings, s: Memory, id: string)
    requires Past(s) && |s.net.logs| == |m.stages|
    ensures DoAsk(m, max, cfg, s, id) ==
      if id in s.net.gates && s.net.gates[id].stand.Entering? && s.net.gates[id].at < |m.stages|
      then s.(asked := s.asked + {id}) else s
  {
    hide AnswerGate, EntryLength, Touch;
    if id in s.net.gates && s.net.gates[id].stand.Entering? && s.net.gates[id].at < |m.stages| {
      var g := s.net.gates[id];
      assert KeyOf(RequestOf(cfg, id, g), g.stand.rows) !in Answers(s, g.at).store;
      if id in s.asked { assert s.asked + {id} == s.asked; }
    }
  }

  lemma SameIsPast(s: Memory, t: Memory)
    requires Past(s) && t.answers == s.answers && t.net.gates == s.net.gates
    ensures Past(t)
  {
    hide Answered;
    forall j: nat, k | k in Answers(t, j).store ensures k.id in t.net.gates && Answered(t.net.gates[k.id], k.tokenIndex, j) {
      assert k in Answers(s, j).store;
    }
  }

  lemma KeepIsPast(m: Model, max: nat, cfg: Settings, s: Memory, id: string)
    requires Past(s)
    ensures Past(DoKeep(m, max, cfg, s, id))
  {
    var t := DoKeep(m, max, cfg, s, id);
    forall j: nat, k | k in Answers(t, j).store ensures k.id in t.net.gates && Answered(t.net.gates[k.id], k.tokenIndex, j) {
      assert k in Answers(s, j).store || (k.id == id && k.tokenIndex == P.TokenIndex(s.net.gates[id]) && j == s.net.gates[id].at);
    }
  }

  /** No step takes a request back. */
  lemma StaysAnswered(m: Model, max: nat, cfg: P.Configs, net: P.Net, step: P.Step, id: string, tokenIndex: int, j: nat)
    requires |net.logs| == |m.stages| && id in net.gates && Answered(net.gates[id], tokenIndex, j)
    ensures var next := P.Do(m, max, cfg, net, step); id in next.gates && Answered(next.gates[id], tokenIndex, j)
  {
    hide Kv.After, P.FirstAction, P.NewRows, Forbidden, Stops, Tokens;
  }

  lemma StepIsPast(m: Model, max: nat, cfg: P.Configs, s: Memory, step: Step)
    requires |s.net.logs| == |m.stages| && Past(s)
    ensures Past(Do(m, max, cfg, s, step))
  {
    hide P.Do, Answered, ComputedBy, DoAsk, DoKeep, Past;
    var t := Do(m, max, cfg, s, step);
    match step
    case Ask(id) =>
      AskMisses(m, max, cfg(id), s, id);
      SameIsPast(s, t);
    case Keep(id) => KeepIsPast(m, max, cfg(id), s, id);
    case Other(other) =>
      if t.net == s.net { SameIsPast(s, t); } else { NextIsPast(m, max, cfg, s, t, other); }
  }

  lemma NextIsPast(m: Model, max: nat, cfg: P.Configs, s: Memory, t: Memory, step: P.Step)
    requires |s.net.logs| == |m.stages| && Past(s) && t.answers == s.answers && t.net == P.Do(m, max, cfg, s.net, step)
    ensures Past(t)
  {
    hide P.Do, Answered;
    forall j: nat, k | k in Answers(t, j).store ensures k.id in t.net.gates && Answered(t.net.gates[k.id], k.tokenIndex, j) {
      assert k in Answers(s, j).store;
      StaysAnswered(m, max, cfg, s.net, step, k.id, k.tokenIndex, j);
    }
  }

  lemma {:induction false} RunIsPast(m: Model, max: nat, cfg: P.Configs, steps: seq<Step>)
    ensures Past(After(m, max, cfg, steps))
  {
    if steps == [] {
    } else {
      hide Past, Do;
      RunIsPast(m, max, cfg, steps[..|steps| - 1]);
      StepIsPast(m, max, cfg, After(m, max, cfg, steps[..|steps| - 1]), steps[|steps| - 1]);
    }
  }

  /** In every run, when a request is about to enter a stage, the stage remembers no answer
      under its key, nor under any key of this request for this token or a later one. */
  lemma AnswersAreNeverFound(m: Model, max: nat, cfg: P.Configs, steps: seq<Step>, id: string, key: Key)
    requires id in After(m, max, cfg, steps).net.gates && After(m, max, cfg, steps).net.gates[id].stand.Entering?
    ensures var s := After(m, max, cfg, steps);
      var g := s.net.gates[id];
      key.id == id && key.tokenIndex >= P.TokenIndex(g) ==> key !in Answers(s, g.at).store
  {
    hide After;
    RunIsPast(m, max, cfg, steps);
  }

  // ----- A run with remembered answers is a run without them -----

  /** What a step comes to without the tables of answers. */
  function Plain(s: Memory, step: Step): seq<P.Step> {
    match step
    case Other(Enter(id)) => if id in s.asked then [P.Enter(id)] else []
    case Other(Leave(id)) => if id in s.unkept then [] else [P.Leave(id)]
    case Other(other) => [other]
    case _ => []
  }

  function PlainRun(m: Model, max: nat, cfg: P.Configs, steps: seq<Step>): seq<P.Step> {
    if steps == [] then []
    else
      var before := steps[..|steps| - 1];
      PlainRun(m, max, cfg, before) + Plain(After(m, max, cfg, before), steps[|steps| - 1])
  }

  lemma StepIsPlain(m: Model, max: nat, cfg: P.Configs, s: Memory, step: Step)
    requires |s.net.logs| == |m.stages| && Past(s)
    ensures Do(m, max, cfg, s, step).net == if Plain(s, step) == [] then s.net else P.Do(m, max, cfg, s.net, Plain(s, step)[0])
    ensures |Plain(s, step)| <= 1
  {
    hide P.Do, DoAsk, Past, ComputedBy;
    if step.Ask? { AskMisses(m, max, cfg(step.id), s, step.id); }
  }

  /** Remembering answers changes nothing for anyone: in every run the stages' caches and
      the gateways are what the run without the tables makes of them. */
  lemma {:induction false} RememberingChangesNothing(m: Model, max: nat, cfg: P.Configs, steps: seq<Step>)
    ensures After(m, max, cfg, steps).net == P.After(m, max, cfg, PlainRun(m, max, cfg, steps))
  {
    if steps == [] {
    } else {
      hide P.Do, Do, Past, Plain;
      var before, last := steps[..|steps| - 1], steps[|steps| - 1];
      RememberingChangesNothing(m, max, cfg, before);
      RunIsPast(m, max, cfg, before);
      StepIsPlain(m, max, cfg, After(m, max, cfg, before), last);
      var plain := Plain(After(m, max, cfg, before), last);
      if plain == [] {
        assert PlainRun(m, max, cfg, steps) == PlainRun(m, max, cfg, before);
      } else {
        assert plain == [plain[0]];
        Progress.RunSnoc(m, max, cfg, PlainRun(m, max, cfg, before), plain[0]);
      }
    }
  }

  /** So with remembered answers, too, a request that was in time is answered as if it were
      alone and recomputed everything. */
  lemma RememberedRequestGeneratesReference(m: Model, max: nat, cfg: P.Configs, steps: seq<Step>, id: string)
    requires max >= 1 && P.GoodModel(m) && P.InTime(m, max, After(m, max, cfg, steps).net, id)
    requires id in After(m, max, cfg, steps).net.gates && After(m, max, cfg, steps).net.gates[id].stand.Ended?
    ensures var g := After(m, max, cfg, steps).net.gates[id]; g.stand.outcome == Reference(m, g.prompt, 0, cfg(id))
  {
    hide *;
    RememberingChangesNothing(m, max, cfg, steps);
    P.RequestInTimeGeneratesReference(m, max, cfg, PlainRun(m, max, cfg, steps), id);
  }

  // ----- To the end, with remembered answers -----

  /** A step with the look before it or the keeping after it. */
  function Lift(step: P.Step): seq<Step> {
    match step
    case Enter(id) => [Ask(id), Other(step)]
    case Leave(id) => [Keep(id), Other(step)]
    case _ => [Other(step)]
  }

  function LiftAll(steps: seq<P.Step>): seq<Step> {
    if steps == [] then [] else LiftAll(steps[..|steps| - 1]) + Lift(steps[|steps| - 1])
  }

  lemma RunSnoc(m: Model, max: nat, cfg: P.Configs, steps: seq<Step>, step: Step)
    ensures After(m, max, cfg, steps + [step]) == Do(m, max, cfg, After(m, max, cfg, steps), step)
  {
    hide Do;
    assert (steps + [step])[..|steps|] == steps;
  }

  lemma AskThenEnter(m: Model, max: nat, cfg: P.Configs, s: Memory, id: string)
    requires |s.net.logs| == |m.stages| && Past(s)
    ensures Do(m, max, cfg, Do(m, max, cfg, s, Ask(id)), Other(P.Enter(id))).net == P.Do(m, max, cfg, s.net, P.Enter(id))
  {
    hide DoAsk, Past, P.FirstAction;
    AskMisses(m, max, cfg(id), s, id);
  }

  lemma KeepThenLeave(m: Model, max: nat, cfg: P.Configs, s: Memory, id: string)
    requires |s.net.logs| == |m.stages|
    ensures Do(m, max, cfg, Do(m, max, cfg, s, Keep(id)), Other(P.Leave(id))).net == P.Do(m, max, cfg, s.net, P.Leave(id))
  {
    hide P.LeaveGate, Kv.After, RequestOf, Answers;
  }

  lemma OtherIsStep(m: Model, max: nat, cfg: P.Configs, s: Memory, step: P.Step)
    requires |s.net.logs| == |m.stages| && !step.Enter? && !step.Leave?
    ensures Do(m, max, cfg, s, Other(step)).net == P.Do(m, max, cfg, s.net, step)
  {
    hide P.Do, ComputedBy;
  }

  lemma Lifts(m: Model, max: nat, cfg: P.Configs, steps: seq<Step>, step: P.Step)
    ensures After(m, max, cfg, steps + Lift(step)).net == P.Do(m, max, cfg, After(m, max, cfg, steps).net, step)
  {
    hide After, Do, P.Do, Past;
    RunIsPast(m, max, cfg, steps);
    RunSnoc(m, max, cfg, steps, Lift(step)[0]);
    if step.Enter? || step.Leave? {
      assert steps + Lift(step) == (steps + [Lift(step)[0]]) + [Other(step)];
      RunSnoc(m, max, cfg, steps + [Lift(step)[0]], Other(step));
      if step.Enter? {
        AskThenEnter(m, max, cfg, After(m, max, cfg, steps), step.id);
      } else {
        KeepThenLeave(m, max, cfg, After(m, max, cfg, steps), step.id);
      }
    } else {
      OtherIsStep(m, max, cfg, After(m, max, cfg, steps), step);
    }
  }

  lemma {:induction false} LiftsAll(m: Model, max: nat, cfg: P.Configs, steps: seq<Step>, more: seq<P.Step>)
    ensures After(m, max, cfg, steps + LiftAll(more)).net == P.After(m, max, cfg, PlainRun(m, max, cfg, steps) + more)
  {
    hide After, P.After, P.Do, Lift, PlainRun;
    if more == [] {
      assert steps + LiftAll(more) == steps && PlainRun(m, max, cfg, steps) + more == PlainRun(m, max, cfg, steps);
      RememberingChangesNothing(m, max, cfg, steps);
    } else {
      var before, last := more[..|more| - 1], more[|more| - 1];
      LiftsAll(m, max, cfg, steps, before);
      assert steps + LiftAll(more) == (steps + LiftAll(before)) + Lift(last);
      Lifts(m, max, cfg, steps + LiftAll(before), last);
      assert PlainRun(m, max, cfg, steps) + more == (PlainRun(m, max, cfg, steps) + before) + [last];
      Progress.RunSnoc(m, max, cfg, PlainRun(m, max, cfg, steps) + before, last);
    }
  }

  function IdOf(step: Step): string {
    if step.Other? then step.step.id else step.id
  }

  predicate Own(steps: seq<Step>, id: string) {
    forall k :: 0 <= k < |steps| ==> IdOf(steps[k]) == id
  }

  lemma {:induction false} LiftedAreOwn(more: seq<P.Step>, id: string)
    requires Progress.Own(more, id)
    ensures Own(LiftAll(more), id)
  {
    if more == [] {
    } else {
      LiftedAreOwn(more[..|more| - 1], id);
      assert more[|more| - 1].id == id;
    }
  }

  /** The request's own steps end it, and as the reference does if it was in time and the
      stages still held its entries. */
  ghost predicate EndedBy(m: Model, max: nat, cfg: P.Configs, steps: seq<Step>, more: seq<Step>, id: string) {
    var net, end := After(m, max, cfg, steps).net, After(m, max, cfg, steps + more).net;
    && Own(more, id) && id in net.gates && id in end.gates && end.gates[id].stand.Ended?
    && (P.InTime(m, max, net, id) && Progress.Current(m, max, net, id) ==>
          end.gates[id].stand == P.Ended(Reference(m, net.gates[id].prompt, 0, cfg(id))))
  }

  /** With remembered answers, too, every request reaches its end by its own steps from
      every reachable state. */
  lemma RememberedRequestEnds(m: Model, max: nat, cfg: P.Configs, steps: seq<Step>, id: string)
    requires max >= 1 && P.GoodModel(m) && id in After(m, max, cfg, steps).net.gates
    ensures exists more :: EndedBy(m, max, cfg, steps, more, id)
  {
    hide After, P.After, P.GoodModel, P.InTime, Progress.Current, Reference, Prepend;
    var plain := PlainRun(m, max, cfg, steps);
    RememberingChangesNothing(m, max, cfg, steps);
    var more := Progress.Finish(m, max, cfg, plain, id);
    LiftsAll(m, max, cfg, steps, more);
    LiftedAreOwn(more, id);
    if P.InTime(m, max, P.After(m, max, cfg, plain), id) && Progress.Current(m, max, P.After(m, max, cfg, plain), id) {
      P.RequestInTimeGeneratesReference(m, max, cfg, plain + more, id);
    }
    assert EndedBy(m, max, cfg, steps, LiftAll(more), id);
  }
}
