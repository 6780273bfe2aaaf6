/** Many requests on a pipeline of stages at once. Every request has its own gateway loop;
    every stage runs the lock regions of `KvInterleaving`; and between any two steps of one
    request any steps of the others may fall. A request whose looks into the stages' tables
    were in time is answered as if it were alone and recomputed everything. One
    request id has one call in flight. That it can always come to its end is in
    `PipelineProgress`, the stages' remembered answers are in `PipelineAnswers`. */
module PipelineRun {
  import opened Basics
  import opened Lru
  import opened StageFlow
  import opened Generation
  import Kv = KvInterleaving

  /** Where a request stands: about to call stage `at`, in the call, or answered. */
  datatype Stand = Entering(rows: Rows) | Inside | Ended(outcome: Outcome)

  /** A gateway's loop for one request: the prompt, the prompt with the tokens so far, the
      stage it is at. */
  datatype Gate = Gate(prompt: seq<int>, ids: seq<int>, at: nat, stand: Stand)

  /** The stages, each as the actions that its locks have let through, and the gateways. */
  datatype Net = Net(logs: Logs, gates: map<string, Gate>)

  datatype Step =
    | Start(id: string, prompt: seq<int>)
    | Enter(id: string)
    | Obtain(id: string)
    | Run(id: string)
    | Leave(id: string)
    | Peek(id: string, at: nat)

  type Configs = string -> Settings

  function TokenIndex(g: Gate): int {
    |g.ids| - |g.prompt|
  }

  function Log(net: Net, j: nat, a: Kv.Action): Net
    requires j < |net.logs|
  {
    net.(logs := net.logs[j := net.logs[j] + [a]])
  }

  type Logs = seq<seq<Kv.Action>>

  function StateAt(m: Model, max: nat, logs: Logs, j: nat): Kv.State
    requires j < |m.stages| == |logs|
  {
    Kv.After(m.stages[j], max, logs[j])
  }

  function StartGate(cfg: Settings, prompt: seq<int>): Gate {
    Gate(prompt, prompt, 0, if cfg.maxNew == 0 then Ended(Generated([], MaxNewTokens)) else Entering(Tokens(prompt)))
  }

  /** The gateway's turn with the last stage's answer. */
  function TakeToken(m: Model, cfg: Settings, g: Gate, output: Rows): Gate {
    if output == [] then g.(stand := Ended(Raised))
    else
      var token := m.pick(output[|output| - 1], Forbidden(cfg, TokenIndex(g)));
      var ids := g.ids + [token];
      var made := if |g.prompt| <= |ids| then ids[|g.prompt|..] else [];
      if Stops(cfg, TokenIndex(g), token) then Gate(g.prompt, ids, g.at, Ended(Generated(made, Eos)))
      else if TokenIndex(g) + 1 >= cfg.maxNew then Gate(g.prompt, ids, g.at, Ended(Generated(made, MaxNewTokens)))
      else Gate(g.prompt, ids, 0, Entering(Tokens([token])))
  }

  /** A stage's new rows: all that it answered to a prefill, the last one to a decode. */
  function NewRows(g: Gate, answers: Rows): Rows {
    if TokenIndex(g) == 0 || answers == [] then answers else answers[|answers| - 1..]
  }

  function LeaveGate(m: Model, cfg: Settings, g: Gate, p: Kv.Proc): Gate {
    match p
    case Failed(_, _) => g.(stand := Ended(Raised))
    case Ready(done) =>
      var output := NewRows(g, done.answers);
      if g.at + 1 < |m.stages| then g.(at := g.at + 1, stand := Entering(output)) else TakeToken(m, cfg, g, output)
    case _ => g
  }

  function FirstAction(id: string, g: Gate): Option<Kv.Action>
    requires g.stand.Entering?
  {
    if TokenIndex(g) == 0 then Some(Kv.BeginPrefill(id, g.stand.rows))
    else if |g.stand.rows| == 1 then Some(Kv.BeginDecode(id, g.stand.rows[0]))
    else None
  }

  function DoEnter(m: Model, net: Net, id: string): (r: Net)
    requires |net.logs| == |m.stages|
    ensures |r.logs| == |m.stages|
  {
    if id in net.gates && net.gates[id].stand.Entering? && net.gates[id].at < |m.stages| then
      var g := net.gates[id];
      match FirstAction(id, g)
      case None => net.(gates := net.gates[id := g.(stand := Ended(Raised))])
      case Some(a) => Log(net, g.at, a).(gates := net.gates[id := g.(stand := Inside)])
    else net
  }

  function DoInside(m: Model, net: Net, a: Kv.Action): (r: Net)
    requires |net.logs| == |m.stages|
    ensures |r.logs| == |m.stages|
  {
    if a.id in net.gates && net.gates[a.id].stand.Inside? && net.gates[a.id].at < |m.stages| then
      Log(net, net.gates[a.id].at, a)
    else net
  }

  function DoLeave(m: Model, max: nat, cfg: Settings, net: Net, id: string): (r: Net)
    requires |net.logs| == |m.stages|
    ensures |r.logs| == |m.stages|
  {
    if id in net.gates && net.gates[id].stand.Inside? && net.gates[id].at < |m.stages| then
      var g := net.gates[id];
      var procs := StateAt(m, max, net.logs, g.at).procs;
      if id in procs then net.(gates := net.gates[id := LeaveGate(m, cfg, g, procs[id])]) else net
    else net
  }

  function Do(m: Model, max: nat, cfg: Configs, net: Net, step: Step): (r: Net)
    requires |net.logs| == |m.stages|
    ensures |r.logs| == |m.stages|
  {
    match step
    case Start(id, prompt) => if id in net.gates then net else net.(gates := net.gates[id := StartGate(cfg(id), prompt)])
    case Enter(id) => DoEnter(m, net, id)
    case Obtain(id) => DoInside(m, net, Kv.Obtain(id))
    case Run(id) => DoInside(m, net, Kv.Forward(id))
    case Leave(id) => DoLeave(m, max, cfg(id), net, id)
    case Peek(id, at) => if at < |m.stages| then Log(net, at, Kv.Peek(id)) else net
  }

  function Initial(m: Model): Net {
    Net(seq(|m.stages|, _ => []), map[])
  }

  /** The net after any steps of anyone. */
  function After(m: Model, max: nat, cfg: Configs, steps: seq<Step>): (net: Net)
    ensures |net.logs| == |m.stages|
  {
    if steps == [] then Initial(m)
    else Do(m, max, cfg, After(m, max, cfg, steps[..|steps| - 1]), steps[|steps| - 1])
  }

  // ----- One request at one stage -----

  /** What a request has come to at a stage: nothing yet, all that it sent taken in, or a call
      with new rows under way. */
  datatype View = Absent | Idle(sent: Rows) | Busy(sent: Rows, input: Rows) | Dead

  function ViewOfProc(p: Kv.Proc): View {
    match p
    case Ready(done) => Idle(done.sent)
    case Looked(done, _, input, _) => Busy(done.sent, input)
    case Holding(done, _, input, _, _) => Busy(done.sent, input)
    case Failed(_, _) => Dead
  }

  function ViewOf(s: Kv.State, id: string): View {
    if id in s.procs then ViewOfProc(s.procs[id]) else Absent
  }

  ghost predicate GoodStage(stage: Stage) {
    stage.hasLayers && Causal(stage.forward)
  }

  /** What one action makes of the view of a request whose looks were in time. */
  ghost predicate Turns(v: View, a: Kv.Action, id: string, w: View) {
    if a.id != id || a.Obtain? || a.Peek? then w == v
    else match a
      case BeginPrefill(_, prompt) => w == if v.Absent? then Busy([], prompt) else v
      case BeginDecode(_, row) => w == if v.Idle? then Busy(v.sent, [row]) else v
      case Forward(_) => w == v || (v.Busy? && w == if v.input == [] then Dead else Idle(v.sent + v.input))
  }

  lemma OtherTurns(stage: Stage, max: nat, s: Kv.State, a: Kv.Action, id: string)
    requires a.id != id
    ensures ViewOf(Kv.Do(stage, max, s, a), id) == ViewOf(s, id)
  {
    hide GetOrCreate, Touch, Remove, Kv.Forwarded;
  }

  lemma OwnTurns(stage: Stage, max: nat, s: Kv.State, a: Kv.Action, id: string)
    requires GoodStage(stage) && Kv.Sound(stage, s, max) && a.id == id && !a.Forward?
    requires Kv.Kept(Kv.Do(stage, max, s, a), id)
    ensures Turns(ViewOf(s, id), a, id, ViewOf(Kv.Do(stage, max, s, a), id))
  {
    hide GetOrCreate, Touch, Remove, Kv.Forwarded, Kv.ProcSound, Kv.TableSound;
  }

  lemma OwnForwardTurns(stage: Stage, max: nat, s: Kv.State, id: string)
    requires GoodStage(stage) && Kv.Sound(stage, s, max)
    requires Kv.Kept(s, id)
    ensures Turns(ViewOf(s, id), Kv.Forward(id), id, ViewOf(Kv.Do(stage, max, s, Kv.Forward(id)), id))
  {
    hide Kv.Forwarded, Kv.TableSound, Causal, Kv.DoneSound;
    if id in s.procs {
      assert Kv.ProcSound(stage, s, id);
      if s.procs[id].Holding? {
        Kv.ForwardOfHeld(stage, id, s.procs[id], s.heap[s.procs[id].handle]);
      }
    }
  }

  /** One more action, on a schedule in which the request was in time. */
  lemma ActionTurns(stage: Stage, max: nat, log: seq<Kv.Action>, a: Kv.Action, id: string)
    requires max >= 1 && GoodStage(stage) && Kv.InTime(stage, max, log + [a], id)
    ensures Kv.InTime(stage, max, log, id)
    ensures Turns(ViewOf(Kv.After(stage, max, log), id), a, id, ViewOf(Kv.After(stage, max, log + [a]), id))
  {
    hide *;
    Unfold(stage, log, a);
    Kv.InTimeSoFar(stage, max, log + [a], id);
    Kv.ScheduleSound(stage, max, log);
    Kv.KeptExactlyInTime(stage, max, log, id);
    Kv.KeptExactlyInTime(stage, max, log + [a], id);
    Kv.AfterSnoc(stage, max, log, a);
    var s := Kv.After(stage, max, log);
    if a.id != id {
      OtherTurns(stage, max, s, a, id);
      OtherIsTurn(ViewOf(s, id), a, id);
    } else if a.Forward? {
      OwnForwardTurns(stage, max, s, id);
    } else {
      OwnTurns(stage, max, s, a, id);
    }
  }

  lemma Unfold(stage: Stage, log: seq<Kv.Action>, a: Kv.Action)
    requires GoodStage(stage)
    ensures stage.hasLayers && Causal(stage.forward)
    ensures (log + [a])[..|log + [a]| - 1] == log && (log + [a])[|log + [a]| - 1] == a && log + [a] != []
  {}

  lemma OtherIsTurn(v: View, a: Kv.Action, id: string)
    requires a.id != id
    ensures Turns(v, a, id, v)
  {}

  /** An idle request has been answered the stage's function of all it sent. */
  lemma IdleAnswers(stage: Stage, max: nat, log: seq<Kv.Action>, id: string)
    requires max >= 1 && GoodStage(stage) && Kv.InTime(stage, max, log, id)
    ensures var s := Kv.After(stage, max, log);
      ViewOf(s, id).Idle? ==> s.procs[id].done.answers == stage.forward(ViewOf(s, id).sent)
  {
    hide Kv.After, Causal, Kv.InTime;
    Kv.RequestInTimeIsUndisturbed(stage, max, log, id);
  }

  // ----- One request in the pipeline -----

  /** What stage j has taken in before this token. */
  function SentBefore(m: Model, g: Gate, j: nat): Rows
    requires j <= |m.stages|
  {
    if TokenIndex(g) == 0 || g.ids == [] then [] else Upto(m, j, g.ids[..|g.ids| - 1])
  }

  /** What travels into stage j for this token. */
  function In(m: Model, g: Gate, j: nat): Rows
    requires j <= |m.stages|
  {
    NewRows(g, Upto(m, j, g.ids))
  }

  /** The view that stage j must have of the request. */
  ghost predicate Placed(m: Model, g: Gate, j: nat, v: View)
    requires j < |m.stages|
  {
    if j < g.at then v == Idle(Upto(m, j, g.ids))
    else if j == g.at && g.stand.Inside? then
      || v == Busy(SentBefore(m, g, j), In(m, g, j))
      || (v == Idle(Upto(m, j, g.ids)) && In(m, g, j) != [])
      || (v == Dead && In(m, g, j) == [])
    else v == if TokenIndex(g) == 0 then Absent else Idle(SentBefore(m, g, j))
  }

  /** The request generates what the reference does. */
  ghost predicate OnCourse(m: Model, cfg: Settings, g: Gate) {
    && g.prompt <= g.ids
    && match g.stand
       case Ended(outcome) => outcome == Reference(m, g.prompt, 0, cfg)
       case _ =>
         && TokenIndex(g) < cfg.maxNew && g.at < |m.stages|
         && Prepend(g.ids[|g.prompt|..], Reference(m, g.ids, TokenIndex(g), cfg)) == Reference(m, g.prompt, 0, cfg)
         && (g.stand.Entering? ==> g.stand.rows == In(m, g, g.at))
  }

  ghost predicate RequestOk(m: Model, max: nat, cfg: Settings, net: Net, id: string)
    requires |net.logs| == |m.stages|
  {
    if id !in net.gates then forall j :: 0 <= j < |m.stages| ==> ViewOf(StateAt(m, max, net.logs, j), id).Absent?
    else
      && OnCourse(m, cfg, net.gates[id])
      && (!net.gates[id].stand.Ended? ==>
            forall j :: 0 <= j < |m.stages| ==> Placed(m, net.gates[id], j, ViewOf(StateAt(m, max, net.logs, j), id)))
  }

  ghost predicate InTime(m: Model, max: nat, net: Net, id: string)
    requires |net.logs| == |m.stages|
  {
    forall j :: 0 <= j < |m.stages| ==> Kv.InTime(m.stages[j], max, net.logs[j], id)
  }

  ghost predicate GoodModel(m: Model) {
    m.stages != [] && forall j :: 0 <= j < |m.stages| ==> GoodStage(m.stages[j])
  }

  // The rows.

  lemma ShapeOf(m: Model, g: Gate, j: nat)
    requires GoodModel(m) && g.prompt <= g.ids && j <= |m.stages|
    ensures |Upto(m, j, g.ids)| == |g.ids|
    ensures SentBefore(m, g, j) + In(m, g, j) == Upto(m, j, g.ids)
    ensures TokenIndex(g) > 0 ==> |In(m, g, j)| == 1
    ensures In(m, g, j) == [] <==> g.ids == []
    ensures j < |m.stages| ==> Upto(m, j + 1, g.ids) == m.stages[j].forward(Upto(m, j, g.ids))
  {
    hide Through, Upto;
    if g.ids == [] {
      EmptyUpto(m, j);
      if j < |m.stages| { EmptyUpto(m, j + 1); }
    } else {
      UptoShape(m, j, g.ids);
    }
  }

  lemma EmptyUpto(m: Model, j: nat)
    requires GoodModel(m) && j <= |m.stages|
    ensures Upto(m, j, []) == [] && (j < |m.stages| ==> m.stages[j].forward([]) == [])
  {
    assert Tokens([]) == [];
    ThroughCausal(m.stages[..j], [], []);
    if j < |m.stages| { assert |m.stages[j].forward([])| == 0; }
  }

  // The other requests' steps.

  /** Steps that log nothing for this request and leave its gateway alone. */
  lemma ViewsStay(m: Model, max: nat, cfg: Settings, net: Net, next: Net, j: nat, a: Kv.Action, id: string)
    requires max >= 1 && GoodModel(m) && |net.logs| == |m.stages| && j < |m.stages|
    requires next.logs == net.logs[j := net.logs[j] + [a]] && InTime(m, max, next, id)
    requires a.id != id || a.Peek? || a.Obtain?
    requires id in net.gates <==> id in next.gates
    requires id in net.gates ==> net.gates[id] == next.gates[id]
    requires RequestOk(m, max, cfg, net, id)
    ensures RequestOk(m, max, cfg, next, id)
  {
    assert Kv.InTime(m.stages[j], max, next.logs[j], id) && GoodStage(m.stages[j]);
    ActionTurns(m.stages[j], max, net.logs[j], a, id);
    hide OnCourse, Placed, ViewOf, Kv.After, InTime, GoodStage;
    forall i | 0 <= i < |m.stages|
      ensures ViewOf(StateAt(m, max, next.logs, i), id) == ViewOf(StateAt(m, max, net.logs, i), id)
    {
    }
  }

  lemma EarlierInTime(m: Model, max: nat, net: Net, next: Net, j: nat, a: Kv.Action, id: string)
    requires max >= 1 && GoodModel(m) && |net.logs| == |m.stages| && j < |m.stages|
    requires next.logs == net.logs[j := net.logs[j] + [a]] && InTime(m, max, next, id)
    ensures InTime(m, max, net, id)
  {
    hide Turns, ViewOf, Kv.After, GoodStage, Kv.InTime;
    assert GoodStage(m.stages[j]) && Kv.InTime(m.stages[j], max, next.logs[j], id);
    ActionTurns(m.stages[j], max, net.logs[j], a, id);
    forall i | 0 <= i < |m.stages| ensures Kv.InTime(m.stages[i], max, net.logs[i], id) {
      assert Kv.InTime(m.stages[i], max, next.logs[i], id);
    }
  }

  // The request's own steps, on the view of the stage it is at.

  lemma EnterView(m: Model, g: Gate, id: string, v: View, w: View)
    requires GoodModel(m) && g.prompt <= g.ids && g.at < |m.stages|
    requires g.stand.Entering? && g.stand.rows == In(m, g, g.at) && Placed(m, g, g.at, v)
    requires FirstAction(id, g).Some? ==> Turns(v, FirstAction(id, g).value, id, w)
    ensures FirstAction(id, g).Some? && Placed(m, g.(stand := Inside), g.at, w)
  {
    ShapeOf(m, g, g.at);
    hide Upto, NewRows;
    assert SentBefore(m, g.(stand := Inside), g.at) == SentBefore(m, g, g.at);
    assert In(m, g.(stand := Inside), g.at) == In(m, g, g.at);
    if TokenIndex(g) > 0 { assert g.stand.rows == [g.stand.rows[0]]; }
  }

  lemma RunView(m: Model, g: Gate, id: string, v: View, w: View)
    requires GoodModel(m) && g.prompt <= g.ids && g.at < |m.stages|
    requires g.stand.Inside? && Placed(m, g, g.at, v) && Turns(v, Kv.Forward(id), id, w)
    ensures Placed(m, g, g.at, w)
  {
    ShapeOf(m, g, g.at);
    hide Upto, NewRows, SentBefore, In;
  }

  lemma Elsewhere(m: Model, g: Gate, stand: Stand, i: nat, v: View)
    requires i < |m.stages| && i != g.at && Placed(m, g, i, v)
    ensures Placed(m, g.(stand := stand), i, v)
  {
    assert SentBefore(m, g.(stand := stand), i) == SentBefore(m, g, i);
    hide Upto;
  }

  lemma AtStage(m: Model, max: nat, cfg: Settings, net: Net, id: string, j: nat)
    requires |net.logs| == |m.stages| && RequestOk(m, max, cfg, net, id) && j < |m.stages|
    requires id in net.gates && !net.gates[id].stand.Ended?
    ensures var g := net.gates[id];
      && OnCourse(m, cfg, g) && g.prompt <= g.ids && g.at < |m.stages|
      && (g.stand.Entering? ==> g.stand.rows == In(m, g, g.at))
      && Placed(m, g, j, ViewOf(StateAt(m, max, net.logs, j), id))
  {
    hide Placed, ViewOf, StateAt, In, Reference, Prepend;
  }

  lemma AtLog(m: Model, max: nat, net: Net, next: Net, id: string, j: nat, a: Kv.Action)
    requires max >= 1 && GoodModel(m) && |net.logs| == |m.stages| && j < |m.stages|
    requires next.logs == net.logs[j := net.logs[j] + [a]] && InTime(m, max, next, id)
    ensures Turns(ViewOf(StateAt(m, max, net.logs, j), id), a, id, ViewOf(StateAt(m, max, next.logs, j), id))
    ensures forall i :: 0 <= i < |m.stages| && i != j ==> StateAt(m, max, next.logs, i) == StateAt(m, max, net.logs, i)
  {
    assert GoodStage(m.stages[j]) && Kv.InTime(m.stages[j], max, next.logs[j], id);
    ActionTurns(m.stages[j], max, net.logs[j], a, id);
    hide Turns, ViewOf, Kv.After, Kv.InTime, GoodStage;
  }

  /** A step that logs one action at the stage the request is at. */
  lemma OwnView(m: Model, max: nat, cfg: Settings, net: Net, next: Net, a: Kv.Action, id: string)
    requires max >= 1 && GoodModel(m) && |net.logs| == |m.stages| && RequestOk(m, max, cfg, net, id)
    requires id in net.gates && !net.gates[id].stand.Ended? && net.gates[id].at < |m.stages| && a.id == id
    requires next.logs == net.logs[net.gates[id].at := net.logs[net.gates[id].at] + [a]] && InTime(m, max, next, id)
    requires if net.gates[id].stand.Entering? then FirstAction(id, net.gates[id]) == Some(a) else a == Kv.Forward(id) || a.Obtain?
    ensures var g := net.gates[id];
      Placed(m, g.(stand := Inside), g.at, ViewOf(StateAt(m, max, next.logs, g.at), id))
  {
    hide Turns, ViewOf, StateAt, InTime, GoodModel, Placed, FirstAction, RequestOk, OnCourse, In;
    var g := net.gates[id];
    AtStage(m, max, cfg, net, id, g.at);
    AtLog(m, max, net, next, id, g.at, a);
    var v, w := ViewOf(StateAt(m, max, net.logs, g.at), id), ViewOf(StateAt(m, max, next.logs, g.at), id);
    if g.stand.Entering? {
      EnterView(m, g, id, v, w);
    } else {
      assert g.(stand := Inside) == g;
      if a == Kv.Forward(id) { RunView(m, g, id, v, w); } else { LookTurns(v, a, id, w); }
    }
  }

  lemma LookTurns(v: View, a: Kv.Action, id: string, w: View)
    requires Turns(v, a, id, w) && a.Obtain?
    ensures w == v
  {}

  lemma OwnAction(m: Model, max: nat, cfg: Settings, net: Net, next: Net, a: Kv.Action, id: string)
    requires max >= 1 && GoodModel(m) && |net.logs| == |m.stages| && RequestOk(m, max, cfg, net, id)
    requires id in net.gates && !net.gates[id].stand.Ended? && net.gates[id].at < |m.stages| && a.id == id
    requires next.logs == net.logs[net.gates[id].at := net.logs[net.gates[id].at] + [a]] && InTime(m, max, next, id)
    requires id in next.gates && next.gates[id] == net.gates[id].(stand := Inside)
    requires if net.gates[id].stand.Entering? then FirstAction(id, net.gates[id]) == Some(a) else a == Kv.Forward(id) || a.Obtain?
    ensures RequestOk(m, max, cfg, next, id)
  {
    hide Turns, ViewOf, StateAt, InTime, GoodModel, Placed, FirstAction, In, Reference, Prepend;
    var g, j := net.gates[id], net.gates[id].at;
    OwnView(m, max, cfg, net, next, a, id);
    AtLog(m, max, net, next, id, j, a);
    forall i | 0 <= i < |m.stages| ensures Placed(m, next.gates[id], i, ViewOf(StateAt(m, max, next.logs, i), id)) {
      if i != j { Elsewhere(m, g, Inside, i, ViewOf(StateAt(m, max, net.logs, i), id)); }
    }
  }

  // The gateway's turn.

  lemma EmptyIsRaised(m: Model, cfg: Settings, g: Gate)
    requires GoodModel(m) && OnCourse(m, cfg, g) && !g.stand.Ended? && g.ids == []
    ensures Reference(m, g.prompt, 0, cfg) == Raised
  {
    assert Tokens([]) == [];
    ThroughCausal(m.stages, [], []);
    hide Through, Forbidden;
  }

  lemma LastStageToken(m: Model, cfg: Settings, g: Gate)
    requires GoodModel(m) && g.prompt <= g.ids && g.ids != []
    ensures In(m, g, |m.stages|) != []
    ensures var rows := In(m, g, |m.stages|);
      NextToken(m, g.ids, TokenIndex(g), cfg) == Some(m.pick(rows[|rows| - 1], Forbidden(cfg, TokenIndex(g))))
  {
    ShapeOf(m, g, |m.stages|);
    assert m.stages[..|m.stages|] == m.stages;
    hide Through, Forbidden;
  }

  /** What the gateway makes of the last stage's new rows keeps it on the reference's course. */
  lemma TokenKeepsCourse(m: Model, cfg: Settings, g: Gate)
    requires GoodModel(m) && OnCourse(m, cfg, g) && g.stand.Inside? && g.ids != []
    ensures var h := TakeToken(m, cfg, g, In(m, g, |m.stages|));
      && OnCourse(m, cfg, h)
      && (!h.stand.Ended? ==> h.at == 0 && h.prompt == g.prompt && |h.ids| == |g.ids| + 1 && h.ids[..|g.ids|] == g.ids)
  {
    hide Reference, Prepend, NextToken, Stops, Forbidden, In, GoodModel, Tokens;
    LastStageToken(m, cfg, g);
    var rows := In(m, g, |m.stages|);
    TokenTurn(m, cfg, g, m.pick(rows[|rows| - 1], Forbidden(cfg, TokenIndex(g))));
  }

  /** One token on: the reference ends with it, or goes on behind it. */
  lemma TokenTurn(m: Model, cfg: Settings, g: Gate, token: int)
    requires GoodModel(m) && OnCourse(m, cfg, g) && g.stand.Inside? && NextToken(m, g.ids, TokenIndex(g), cfg) == Some(token)
    ensures var ids, t := g.ids + [token], TokenIndex(g);
      && |g.prompt| <= |ids| && t < cfg.maxNew && g.prompt <= ids && ids[..|g.ids|] == g.ids
      && var made := ids[|g.prompt|..];
         if Stops(cfg, t, token) then Reference(m, g.prompt, 0, cfg) == Generated(made, Eos)
         else if t + 1 >= cfg.maxNew then Reference(m, g.prompt, 0, cfg) == Generated(made, MaxNewTokens)
         else OnCourse(m, cfg, Gate(g.prompt, ids, 0, Entering(Tokens([token]))))
  {
    assert m.stages != [];
    hide Reference, Prepend, NextToken, Stops, In, GoodModel, Tokens;
    var ids, before := g.ids + [token], g.ids[|g.prompt|..];
    assert ids[|g.prompt|..] == before + [token];
    ReferenceTurn(m, g.ids, before, TokenIndex(g), cfg);
    ReferenceTurn(m, ids, before + [token], TokenIndex(g) + 1, cfg);
    NextRows(m, g, token);
  }

  lemma NextRows(m: Model, g: Gate, token: int)
    requires g.prompt <= g.ids && m.stages != []
    ensures Tokens([token]) == In(m, Gate(g.prompt, g.ids + [token], 0, Entering(Tokens([token]))), 0)
  {
    assert m.stages[..0] == [];
    assert Tokens(g.ids + [token])[|g.ids|..] == Tokens([token]);
  }

  /** What the gateway finds when it looks for its answer. */
  ghost predicate Found(m: Model, g: Gate, p: Kv.Proc)
    requires g.at < |m.stages|
  {
    && Placed(m, g, g.at, ViewOfProc(p))
    && (p.Ready? ==> p.done.answers == m.stages[g.at].forward(p.done.sent))
  }

  /** A finished call hands on what travels into the next stage. */
  lemma HandedOn(m: Model, cfg: Settings, g: Gate, p: Kv.Proc)
    requires GoodModel(m) && OnCourse(m, cfg, g) && g.stand.Inside? && Found(m, g, p)
    ensures p.Ready? ==> g.ids != [] && p.done.sent == Upto(m, g.at, g.ids) && NewRows(g, p.done.answers) == In(m, g, g.at + 1)
    ensures p.Failed? ==> g.ids == []
  {
    ShapeOf(m, g, g.at);
    hide Upto, Reference, Prepend, NewRows, SentBefore;
  }

  lemma LeaveUnfolds(m: Model, cfg: Settings, g: Gate, p: Kv.Proc)
    ensures LeaveGate(m, cfg, g, p) ==
      if p.Failed? then g.(stand := Ended(Raised))
      else if !p.Ready? then g
      else if g.at + 1 < |m.stages| then g.(at := g.at + 1, stand := Entering(NewRows(g, p.done.answers)))
      else TakeToken(m, cfg, g, NewRows(g, p.done.answers))
  {
    hide TakeToken, NewRows;
  }

  lemma SameIn(m: Model, g: Gate, h: Gate)
    requires h.prompt == g.prompt && h.ids == g.ids && h.at <= |m.stages|
    ensures In(m, h, h.at) == In(m, g, h.at)
  {
    hide Upto;
  }

  lemma LeftOnCourse(m: Model, cfg: Settings, g: Gate, p: Kv.Proc)
    requires GoodModel(m) && OnCourse(m, cfg, g) && g.stand.Inside? && Found(m, g, p)
    ensures OnCourse(m, cfg, LeaveGate(m, cfg, g, p))
  {
    hide Found, TakeToken, Reference, Prepend, NewRows, Upto, GoodModel, In, LeaveGate;
    HandedOn(m, cfg, g, p);
    LeaveUnfolds(m, cfg, g, p);
    if p.Failed? {
      EmptyIsRaised(m, cfg, g);
    } else if p.Ready? && g.at + 1 == |m.stages| {
      TokenKeepsCourse(m, cfg, g);
    } else if p.Ready? {
      SameIn(m, g, LeaveGate(m, cfg, g, p));
    }
  }

  /** On to the next stage. */
  lemma PlacedOnward(m: Model, g: Gate, rows: Rows, i: nat, v: View)
    requires i < |m.stages| && g.stand.Inside? && Placed(m, g, i, v) && (i == g.at ==> v == Idle(Upto(m, i, g.ids)))
    ensures Placed(m, g.(at := g.at + 1, stand := Entering(rows)), i, v)
  {
    hide Upto, In;
    assert SentBefore(m, g.(at := g.at + 1, stand := Entering(rows)), i) == SentBefore(m, g, i);
    hide SentBefore;
  }

  /** Back to the first stage, with one more token. */
  lemma PlacedAgain(m: Model, g: Gate, h: Gate, i: nat, v: View)
    requires i < |m.stages| == g.at + 1 && g.prompt <= g.ids && g.stand.Inside?
    requires Placed(m, g, i, v) && (i == g.at ==> v == Idle(Upto(m, i, g.ids)))
    requires h.at == 0 && h.prompt == g.prompt && |h.ids| == |g.ids| + 1 && h.ids[..|g.ids|] == g.ids && h.stand.Entering?
    ensures Placed(m, h, i, v)
  {
    hide Upto, In;
    assert TokenIndex(h) > 0 && SentBefore(m, h, i) == Upto(m, i, g.ids);
    hide SentBefore;
  }

  lemma TokenEnters(m: Model, cfg: Settings, g: Gate, output: Rows)
    ensures output != [] ==> !TakeToken(m, cfg, g, output).stand.Inside?
  {
    hide Stops, Forbidden, Tokens;
  }

  lemma LeftPlaced(m: Model, cfg: Settings, g: Gate, p: Kv.Proc, i: nat, v: View)
    requires GoodModel(m) && OnCourse(m, cfg, g) && g.stand.Inside? && Found(m, g, p)
    requires i < |m.stages| && Placed(m, g, i, v) && (i == g.at ==> v == ViewOfProc(p))
    ensures var h := LeaveGate(m, cfg, g, p); !h.stand.Ended? ==> Placed(m, h, i, v)
  {
    assert g.at < |m.stages| && g.prompt <= g.ids;
    assert p.Ready? ==> ViewOfProc(p) == Idle(p.done.sent);
    hide *;
    HandedOn(m, cfg, g, p);
    LeaveUnfolds(m, cfg, g, p);
    if p.Ready? && g.at + 1 == |m.stages| {
      TokenKeepsCourse(m, cfg, g);
      LastStageToken(m, cfg, g);
      TokenEnters(m, cfg, g, In(m, g, |m.stages|));
      var h := TakeToken(m, cfg, g, In(m, g, |m.stages|));
      if !h.stand.Ended? { PlacedAgain(m, g, h, i, v); }
    } else if p.Ready? {
      PlacedOnward(m, g, NewRows(g, p.done.answers), i, v);
    }
  }

  lemma OwnLeave(m: Model, max: nat, cfg: Settings, net: Net, id: string)
    requires max >= 1 && GoodModel(m) && |net.logs| == |m.stages| && RequestOk(m, max, cfg, net, id)
    requires InTime(m, max, net, id)
    ensures RequestOk(m, max, cfg, DoLeave(m, max, cfg, net, id), id)
  {
    hide Placed, GoodModel, OnCourse, LeaveGate, Found, Kv.After, Kv.InTime, GoodStage, Upto;
    if id in net.gates && net.gates[id].stand.Inside? && net.gates[id].at < |m.stages| {
      var g := net.gates[id];
      var s := StateAt(m, max, net.logs, g.at);
      AtStage(m, max, cfg, net, id, g.at);
      if id in s.procs {
        FoundThere(m, max, net, g, id);
        LeftOnCourse(m, cfg, g, s.procs[id]);
        forall i | 0 <= i < |m.stages| && !LeaveGate(m, cfg, g, s.procs[id]).stand.Ended?
          ensures Placed(m, LeaveGate(m, cfg, g, s.procs[id]), i, ViewOf(StateAt(m, max, net.logs, i), id))
        {
          AtStage(m, max, cfg, net, id, i);
          LeftPlaced(m, cfg, g, s.procs[id], i, ViewOf(StateAt(m, max, net.logs, i), id));
        }
      }
    }
  }

  lemma FoundThere(m: Model, max: nat, net: Net, g: Gate, id: string)
    requires max >= 1 && GoodModel(m) && |net.logs| == |m.stages| && g.at < |m.stages| && InTime(m, max, net, id)
    requires id in StateAt(m, max, net.logs, g.at).procs && Placed(m, g, g.at, ViewOf(StateAt(m, max, net.logs, g.at), id))
    ensures Found(m, g, StateAt(m, max, net.logs, g.at).procs[id])
  {
    hide Placed, Kv.After, Kv.InTime;
    assert GoodStage(m.stages[g.at]) && Kv.InTime(m.stages[g.at], max, net.logs[g.at], id);
    hide GoodStage;
    IdleAnswers(m.stages[g.at], max, net.logs[g.at], id);
  }

  lemma OwnStart(m: Model, max: nat, cfg: Settings, net: Net, id: string, prompt: seq<int>)
    requires GoodModel(m) && |net.logs| == |m.stages| && RequestOk(m, max, cfg, net, id) && id !in net.gates
    ensures RequestOk(m, max, cfg, net.(gates := net.gates[id := StartGate(cfg, prompt)]), id)
  {
    hide Kv.After, ViewOf;
    var g := StartGate(cfg, prompt);
    assert prompt[|prompt|..] == [] && m.stages[..0] == [];
    ReferenceTurn(m, prompt, [], 0, cfg);
    hide Reference, Prepend, NextToken, Tokens, GoodStage;
  }

  // ----- Every step, every run -----

  /** Nothing that concerns the request has changed. */
  lemma Unconcerned(m: Model, max: nat, cfg: Settings, net: Net, next: Net, id: string)
    requires |net.logs| == |m.stages| && next.logs == net.logs
    requires id in net.gates <==> id in next.gates
    requires id in net.gates ==> net.gates[id] == next.gates[id]
    ensures InTime(m, max, net, id) <==> InTime(m, max, next, id)
    ensures RequestOk(m, max, cfg, net, id) <==> RequestOk(m, max, cfg, next, id)
  {
    hide OnCourse, Placed, ViewOf, Kv.After, Kv.InTime;
  }

  lemma StepStart(m: Model, max: nat, cfg: Configs, net: Net, q: string, prompt: seq<int>, id: string)
    requires GoodModel(m) && |net.logs| == |m.stages|
    ensures var next := Do(m, max, cfg, net, Start(q, prompt));
      && (InTime(m, max, next, id) ==> InTime(m, max, net, id))
      && (RequestOk(m, max, cfg(id), net, id) ==> RequestOk(m, max, cfg(id), next, id))
  {
    hide InTime, GoodModel, RequestOk, StartGate;
    var next := Do(m, max, cfg, net, Start(q, prompt));
    if q == id && id !in net.gates {
      InTimeOfLogs(m, max, net, next, id);
      if RequestOk(m, max, cfg(id), net, id) { OwnStart(m, max, cfg(id), net, id, prompt); }
    } else {
      Unconcerned(m, max, cfg(id), net, next, id);
    }
  }

  lemma InTimeOfLogs(m: Model, max: nat, net: Net, next: Net, id: string)
    requires |net.logs| == |m.stages| && next.logs == net.logs
    ensures InTime(m, max, net, id) <==> InTime(m, max, next, id)
  {
    hide Kv.InTime;
  }

  lemma StepLeave(m: Model, max: nat, cfg: Settings, net: Net, q: string, other: Settings, id: string)
    requires max >= 1 && GoodModel(m) && |net.logs| == |m.stages| && (q == id ==> other == cfg)
    ensures var next := DoLeave(m, max, other, net, q);
      && (InTime(m, max, next, id) ==> InTime(m, max, net, id))
      && (InTime(m, max, next, id) && RequestOk(m, max, cfg, net, id) ==> RequestOk(m, max, cfg, next, id))
  {
    hide InTime, GoodModel, RequestOk, LeaveGate, Kv.After;
    var next := DoLeave(m, max, other, net, q);
    InTimeOfLogs(m, max, net, next, id);
    if q == id {
      if InTime(m, max, net, id) && RequestOk(m, max, cfg, net, id) { OwnLeave(m, max, cfg, net, id); }
    } else {
      Unconcerned(m, max, cfg, net, next, id);
    }
  }

  /** A step that logs one action. */
  lemma StepLogged(m: Model, max: nat, cfg: Settings, net: Net, next: Net, j: nat, a: Kv.Action, id: string)
    requires max >= 1 && GoodModel(m) && |net.logs| == |m.stages| && j < |m.stages|
    requires next.logs == net.logs[j := net.logs[j] + [a]] && InTime(m, max, next, id)
    requires id in net.gates <==> id in next.gates
    requires id in net.gates && next.gates[id] != net.gates[id] ==>
      net.gates[id].stand.Entering? && next.gates[id] == net.gates[id].(stand := Inside) && FirstAction(id, net.gates[id]) == Some(a)
    requires a.id == id && !a.Peek? && !a.Obtain? ==>
      && id in net.gates && !net.gates[id].stand.Ended? && net.gates[id].at == j && next.gates[id].stand.Inside?
      && if net.gates[id].stand.Entering? then FirstAction(id, net.gates[id]) == Some(a) else a.Forward?
    ensures InTime(m, max, net, id)
    ensures RequestOk(m, max, cfg, net, id) ==> RequestOk(m, max, cfg, next, id)
  {
    hide InTime, GoodModel, RequestOk;
    EarlierInTime(m, max, net, next, j, a, id);
    if RequestOk(m, max, cfg, net, id) {
      if a.id != id || a.Peek? || a.Obtain? {
        ViewsStay(m, max, cfg, net, next, j, a, id);
      } else {
        assert a.Forward? ==> a == Kv.Forward(id);
        OwnAction(m, max, cfg, net, next, a, id);
      }
    }
  }

  lemma StepEnter(m: Model, max: nat, cfg: Settings, net: Net, q: string, id: string)
    requires max >= 1 && GoodModel(m) && |net.logs| == |m.stages| && InTime(m, max, DoEnter(m, net, q), id)
    ensures InTime(m, max, net, id)
    ensures RequestOk(m, max, cfg, net, id) ==> RequestOk(m, max, cfg, DoEnter(m, net, q), id)
  {
    hide InTime, GoodModel, RequestOk;
    var next := DoEnter(m, net, q);
    if q in net.gates && net.gates[q].stand.Entering? && net.gates[q].at < |m.stages| {
      var g := net.gates[q];
      if FirstAction(q, g).Some? {
        StepLogged(m, max, cfg, net, next, g.at, FirstAction(q, g).value, id);
      } else {
        InTimeOfLogs(m, max, net, next, id);
        if q != id {
          Unconcerned(m, max, cfg, net, next, id);
        } else if RequestOk(m, max, cfg, net, id) {
          AlwaysEnters(m, max, cfg, net, id);
          assert false;
        }
      }
    } else {
      assert next == net;
    }
  }

  lemma AlwaysEnters(m: Model, max: nat, cfg: Settings, net: Net, id: string)
    requires GoodModel(m) && |net.logs| == |m.stages| && RequestOk(m, max, cfg, net, id)
    requires id in net.gates && net.gates[id].stand.Entering?
    ensures FirstAction(id, net.gates[id]).Some?
  {
    hide GoodModel, In, Placed, Kv.After, Reference, Prepend;
    var g := net.gates[id];
    ShapeOf(m, g, g.at);
  }

  lemma StepInside(m: Model, max: nat, cfg: Settings, net: Net, a: Kv.Action, id: string)
    requires max >= 1 && GoodModel(m) && |net.logs| == |m.stages| && InTime(m, max, DoInside(m, net, a), id)
    requires a.Obtain? || a.Forward?
    ensures InTime(m, max, net, id)
    ensures RequestOk(m, max, cfg, net, id) ==> RequestOk(m, max, cfg, DoInside(m, net, a), id)
  {
    hide InTime, GoodModel, RequestOk;
    if a.id in net.gates && net.gates[a.id].stand.Inside? && net.gates[a.id].at < |m.stages| {
      StepLogged(m, max, cfg, net, DoInside(m, net, a), net.gates[a.id].at, a, id);
    }
  }

  /** A step keeps what holds of a request, its own or another's. */
  lemma StepKeeps(m: Model, max: nat, cfg: Configs, net: Net, step: Step, id: string)
    requires max >= 1 && GoodModel(m) && |net.logs| == |m.stages|
    requires InTime(m, max, Do(m, max, cfg, net, step), id)
    ensures InTime(m, max, net, id)
    ensures RequestOk(m, max, cfg(id), net, id) ==> RequestOk(m, max, cfg(id), Do(m, max, cfg, net, step), id)
  {
    hide InTime, GoodModel, RequestOk, DoEnter, DoInside, DoLeave;
    match step
    case Start(q, prompt) => StepStart(m, max, cfg, net, q, prompt, id);
    case Enter(q) => StepEnter(m, max, cfg(id), net, q, id);
    case Obtain(q) => StepInside(m, max, cfg(id), net, Kv.Obtain(q), id);
    case Run(q) => StepInside(m, max, cfg(id), net, Kv.Forward(q), id);
    case Leave(q) => StepLeave(m, max, cfg(id), net, q, cfg(q), id);
    case Peek(q, at) =>
      if at < |m.stages| {
        StepLogged(m, max, cfg(id), net, Do(m, max, cfg, net, step), at, Kv.Peek(q), id);
      }
  }

  lemma {:induction false} RunKeeps(m: Model, max: nat, cfg: Configs, steps: seq<Step>, id: string)
    requires max >= 1 && GoodModel(m) && InTime(m, max, After(m, max, cfg, steps), id)
    ensures RequestOk(m, max, cfg(id), After(m, max, cfg, steps), id)
  {
    if steps == [] {
    } else {
      hide InTime, GoodModel, RequestOk, Do;
      var before := After(m, max, cfg, steps[..|steps| - 1]);
      StepKeeps(m, max, cfg, before, steps[|steps| - 1], id);
      RunKeeps(m, max, cfg, steps[..|steps| - 1], id);
    }
  }

  /** In every run of any number of requests, in any interleaving of their steps at the
      granularity of the locks, a request whose looks were in time at every stage is
      answered with exactly the tokens and the reason of recomputing the whole sequence for
      every token; and while it runs, what it still has to generate completes them. */
  lemma RequestInTimeGeneratesReference(m: Model, max: nat, cfg: Configs, steps: seq<Step>, id: string)
    requires max >= 1 && GoodModel(m) && InTime(m, max, After(m, max, cfg, steps), id)
    requires id in After(m, max, cfg, steps).gates
    ensures var g := After(m, max, cfg, steps).gates[id];
      && g.prompt <= g.ids
      && match g.stand
         case Ended(outcome) => outcome == Reference(m, g.prompt, 0, cfg(id))
         case _ =>
           && TokenIndex(g) < cfg(id).maxNew
           && Prepend(g.ids[|g.prompt|..], Reference(m, g.ids, TokenIndex(g), cfg(id))) == Reference(m, g.prompt, 0, cfg(id))
  {
    hide InTime, GoodModel, After, Reference, Prepend, Placed, In;
    RunKeeps(m, max, cfg, steps, id);
  }

  // ----- No more requests than entries -----

  lemma ActionAdds(stage: Stage, max: nat, s: Kv.State, a: Kv.Action)
    requires max >= 1 && Kv.TableSound(s, max) && forall u :: u in s.uses ==> u in s.procs
    ensures var t := Kv.Do(stage, max, s, a);
      && (forall q :: q in s.procs ==> q in t.procs)
      && (forall q :: q in t.procs ==> q in s.procs || (q == a.id && a.BeginPrefill?))
      && (forall u :: u in t.uses ==> u in t.procs)
  {
    hide GetOrCreate, Touch, Remove, Tracks, Kv.Forwarded;
  }

  lemma {:induction false} UsesAreKnown(stage: Stage, max: nat, log: seq<Kv.Action>)
    requires max >= 1 && GoodStage(stage)
    ensures forall u :: u in Kv.After(stage, max, log).uses ==> u in Kv.After(stage, max, log).procs
  {
    if log == [] {
    } else {
      hide Kv.Do, Causal, Kv.Sound;
      var before := log[..|log| - 1];
      UsesAreKnown(stage, max, before);
      Kv.ScheduleSound(stage, max, before);
      SoundTable(stage, max, before);
      ActionAdds(stage, max, Kv.After(stage, max, before), log[|log| - 1]);
    }
  }

  lemma SoundTable(stage: Stage, max: nat, log: seq<Kv.Action>)
    requires Kv.Sound(stage, Kv.After(stage, max, log), max)
    ensures Kv.TableSound(Kv.After(stage, max, log), max)
  {
    hide Kv.After, Kv.TableSound, Kv.ProcSound;
  }

  lemma OneMoreAction(stage: Stage, max: nat, log: seq<Kv.Action>, a: Kv.Action)
    requires max >= 1 && GoodStage(stage)
    ensures var s, t := Kv.After(stage, max, log), Kv.After(stage, max, log + [a]);
      && (forall q :: q in s.procs ==> q in t.procs)
      && (forall q :: q in t.procs ==> q in s.procs || (q == a.id && a.BeginPrefill?))
  {
    hide *;
    Unfold(stage, log, a);
    UsesAreKnown(stage, max, log);
    Kv.ScheduleSound(stage, max, log);
    SoundTable(stage, max, log);
    ActionAdds(stage, max, Kv.After(stage, max, log), a);
    Kv.AfterSnoc(stage, max, log, a);
  }

  lemma {:induction false} KnownGrow(stage: Stage, max: nat, log: seq<Kv.Action>, n: nat)
    requires max >= 1 && GoodStage(stage) && n <= |log|
    ensures forall q :: q in Kv.After(stage, max, log[..n]).procs ==> q in Kv.After(stage, max, log).procs
    decreases |log|
  {
    hide Kv.After, GoodStage;
    if n == |log| {
      assert log[..n] == log;
    } else {
      var before, last := log[..|log| - 1], log[|log| - 1];
      assert before[..n] == log[..n] && before + [last] == log;
      KnownGrow(stage, max, before, n);
      OneMoreAction(stage, max, before, last);
    }
  }

  /** Stages only know requests that have a gateway. */
  ghost predicate Gated(m: Model, max: nat, net: Net)
    requires |net.logs| == |m.stages|
  {
    forall j, q :: 0 <= j < |m.stages| && q in StateAt(m, max, net.logs, j).procs ==> q in net.gates
  }

  lemma LogIsGated(m: Model, max: nat, net: Net, next: Net, j: nat, a: Kv.Action)
    requires max >= 1 && GoodModel(m) && |net.logs| == |m.stages| && j < |m.stages| && Gated(m, max, net)
    requires next.logs == net.logs[j := net.logs[j] + [a]] && net.gates.Keys <= next.gates.Keys
    requires a.BeginPrefill? ==> a.id in next.gates
    ensures Gated(m, max, next)
  {
    hide Kv.After, GoodStage;
    assert GoodStage(m.stages[j]);
    OneMoreAction(m.stages[j], max, net.logs[j], a);
    assert StateAt(m, max, next.logs, j) == Kv.After(m.stages[j], max, net.logs[j] + [a]);
    forall i, q | 0 <= i < |m.stages| && q in StateAt(m, max, next.logs, i).procs ensures q in next.gates {
      if i == j {
        assert q in StateAt(m, max, net.logs, j).procs || q == a.id;
      } else {
        assert StateAt(m, max, next.logs, i) == StateAt(m, max, net.logs, i);
      }
    }
  }

  lemma StepIsGated(m: Model, max: nat, cfg: Configs, net: Net, step: Step)
    requires max >= 1 && GoodModel(m) && |net.logs| == |m.stages| && Gated(m, max, net)
    ensures Gated(m, max, Do(m, max, cfg, net, step))
  {
    hide GoodModel, Kv.After, LeaveGate, StartGate;
    var next, id := Do(m, max, cfg, net, step), step.id;
    if step.Peek? && step.at < |m.stages| {
      LogIsGated(m, max, net, next, step.at, Kv.Peek(id));
    } else if next.logs != net.logs && id in net.gates {
      var g := net.gates[id];
      LogIsGated(m, max, net, next, g.at,
        if step.Enter? then FirstAction(id, g).value else if step.Obtain? then Kv.Obtain(id) else Kv.Forward(id));
    } else {
      assert next.logs == net.logs;
    }
  }

  lemma {:induction false} RunIsGated(m: Model, max: nat, cfg: Configs, steps: seq<Step>)
    requires max >= 1 && GoodModel(m)
    ensures Gated(m, max, After(m, max, cfg, steps))
  {
    if steps == [] {
    } else {
      hide Gated, GoodModel, Do;
      RunIsGated(m, max, cfg, steps[..|steps| - 1]);
      StepIsGated(m, max, cfg, After(m, max, cfg, steps[..|steps| - 1]), steps[|steps| - 1]);
    }
  }

  lemma FewAreInTime(stage: Stage, max: nat, log: seq<Kv.Action>, known: set<string>, id: string)
    requires max >= 1 && GoodStage(stage) && |known| <= max
    requires forall q :: q in Kv.After(stage, max, log).procs ==> q in known
    ensures Kv.InTime(stage, max, log, id)
  {
    hide Kv.After, GoodStage, Since, Causal;
    forall n | 0 <= n < |log| ensures Kv.LookupInTime(Kv.After(stage, max, log[..n]), log[n], id, max) {
      var s := Kv.After(stage, max, log[..n]);
      UsesAreKnown(stage, max, log[..n]);
      KnownGrow(stage, max, log, n);
      if id in s.procs {
        SinceWithin(s.uses, id);
        assert Since(s.uses, id) <= known - {id};
        SubsetCount(Since(s.uses, id), known - {id});
      }
    }
  }

  /** In every run with no more requests than a stage's table has entries, every request is
      answered with exactly the tokens and the reason of recomputing everything, however
      their steps interleave. */
  lemma FewRequestsGenerateReference(m: Model, max: nat, cfg: Configs, steps: seq<Step>, id: string)
    requires max >= 1 && GoodModel(m) && |After(m, max, cfg, steps).gates| <= max
    requires id in After(m, max, cfg, steps).gates && After(m, max, cfg, steps).gates[id].stand.Ended?
    ensures var g := After(m, max, cfg, steps).gates[id]; g.stand.outcome == Reference(m, g.prompt, 0, cfg(id))
  {
    hide After, Reference, Prepend, Kv.After, GoodStage, Kv.InTime;
    var net := After(m, max, cfg, steps);
    RunIsGated(m, max, cfg, steps);
    forall j | 0 <= j < |m.stages| ensures Kv.InTime(m.stages[j], max, net.logs[j], id) {
      assert forall q :: q in StateAt(m, max, net.logs, j).procs ==> q in net.gates.Keys;
      assert GoodStage(m.stages[j]);
      FewAreInTime(m.stages[j], max, net.logs[j], net.gates.Keys, id);
    }
    RequestInTimeGeneratesReference(m, max, cfg, steps, id);
  }
}
