/** That a request on the pipeline can always finish on its own: from every reachable state
    of every run its own steps take it to its end, whatever the others have done and without
    any step of theirs; and if the stages still hold its caches, to the reference's end. */
module PipelineProgress {
  import opened Basics
  import opened Lru
  import opened StageFlow
  import opened Generation
  import opened PipelineRun
  import Kv = KvInterleaving

  /** A request under way is known to the stages that it has reached. */
  ghost predicate Underway(m: Model, max: nat, cfg: Settings, net: Net, id: string)
    requires |net.logs| == |m.stages|
  {
    id in net.gates && !net.gates[id].stand.Ended? ==>
      var g := net.gates[id];
      && |g.prompt| <= |g.ids| && TokenIndex(g) < cfg.maxNew && g.at < |m.stages|
      && forall j :: 0 <= j < |m.stages| && Reached(g, j) ==> id in StateAt(m, max, net.logs, j).procs
  }

  predicate Reached(g: Gate, j: nat) {
    j < g.at || TokenIndex(g) > 0 || (j == g.at && g.stand.Inside?)
  }

  /** No stage forgets a request. */
  ghost predicate Grows(m: Model, max: nat, net: Net, next: Net)
    requires |net.logs| == |next.logs| == |m.stages|
  {
    forall j, q :: 0 <= j < |m.stages| && q in StateAt(m, max, net.logs, j).procs ==>
      q in StateAt(m, max, next.logs, j).procs
  }

  lemma LogGrows(m: Model, max: nat, net: Net, next: Net, j: nat, a: Kv.Action)
    requires max >= 1 && GoodModel(m) && |net.logs| == |m.stages| && j < |m.stages|
    requires next.logs == net.logs[j := net.logs[j] + [a]]
    ensures Grows(m, max, net, next)
    ensures StateAt(m, max, next.logs, j) == Kv.Do(m.stages[j], max, StateAt(m, max, net.logs, j), a)
  {
    hide Kv.After, GoodStage, Kv.Do;
    assert GoodStage(m.stages[j]);
    OneMoreAction(m.stages[j], max, net.logs[j], a);
    Kv.AfterSnoc(m.stages[j], max, net.logs[j], a);
  }

  /** The action that a step logs, if it logs one. */
  lemma StepLogs(m: Model, max: nat, cfg: Configs, net: Net, step: PipelineRun.Step) returns (j: nat, a: Kv.Action)
    requires |net.logs| == |m.stages|
    ensures var next := Do(m, max, cfg, net, step);
      next.logs == net.logs || (j < |m.stages| && a.id == step.id && next.logs == net.logs[j := net.logs[j] + [a]])
  {
    hide Kv.After, LeaveGate, StartGate;
    var id := step.id;
    if step.Peek? {
      j, a := step.at, Kv.Peek(id);
    } else if id in net.gates {
      j := net.gates[id].at;
      a := if step.Enter? && net.gates[id].stand.Entering? && FirstAction(id, net.gates[id]).Some?
           then FirstAction(id, net.gates[id]).value else if step.Obtain? then Kv.Obtain(id) else Kv.Forward(id);
    } else {
      j, a := 0, Kv.Peek(id);
    }
  }

  lemma StepGrows(m: Model, max: nat, cfg: Configs, net: Net, step: PipelineRun.Step)
    requires max >= 1 && GoodModel(m) && |net.logs| == |m.stages|
    ensures Grows(m, max, net, Do(m, max, cfg, net, step))
  {
    hide GoodModel, Do, Kv.After, Kv.Do;
    var j, a := StepLogs(m, max, cfg, net, step);
    if Do(m, max, cfg, net, step).logs != net.logs {
      LogGrows(m, max, net, Do(m, max, cfg, net, step), j, a);
    }
  }

  lemma OthersGate(m: Model, max: nat, cfg: Configs, net: Net, step: PipelineRun.Step, id: string)
    requires |net.logs| == |m.stages| && (step.id != id || step.Obtain? || step.Run? || step.Peek?)
    ensures id in net.gates <==> id in Do(m, max, cfg, net, step).gates
    ensures id in net.gates ==> Do(m, max, cfg, net, step).gates[id] == net.gates[id]
  {
    hide Kv.After, LeaveGate, StartGate, FirstAction;
  }

  lemma SameGateUnderway(m: Model, max: nat, cfg: Settings, net: Net, next: Net, id: string)
    requires |net.logs| == |next.logs| == |m.stages| && Grows(m, max, net, next) && Underway(m, max, cfg, net, id)
    requires id in net.gates <==> id in next.gates
    requires id in net.gates ==> next.gates[id] == net.gates[id]
    ensures Underway(m, max, cfg, next, id)
  {
    hide Kv.After, Reached;
  }

  lemma StartUnderway(m: Model, max: nat, cfg: Configs, net: Net, id: string, prompt: seq<int>)
    requires GoodModel(m) && |net.logs| == |m.stages| && Underway(m, max, cfg(id), net, id)
    ensures Underway(m, max, cfg(id), Do(m, max, cfg, net, Start(id, prompt)), id)
  {
    hide Kv.After, GoodStage;
  }

  /** What an entered call has come to. */
  lemma EnterUnderway(m: Model, max: nat, cfg: Configs, net: Net, id: string)
    requires max >= 1 && GoodModel(m) && |net.logs| == |m.stages| && Underway(m, max, cfg(id), net, id)
    ensures Underway(m, max, cfg(id), Do(m, max, cfg, net, Enter(id)), id)
  {
    hide Kv.After, GoodModel, Kv.Do;
    var next := Do(m, max, cfg, net, Enter(id));
    if id in net.gates && net.gates[id].stand.Entering? && net.gates[id].at < |m.stages| && FirstAction(id, net.gates[id]).Some? {
      var g, a := net.gates[id], FirstAction(id, net.gates[id]).value;
      LogGrows(m, max, net, next, g.at, a);
      assert next.gates[id] == g.(stand := Inside);
      if TokenIndex(g) == 0 { PrefillIsKnown(m.stages[g.at], max, StateAt(m, max, net.logs, g.at), a); }
    }
  }

  lemma PrefillIsKnown(stage: Stage, max: nat, s: Kv.State, a: Kv.Action)
    requires a.BeginPrefill?
    ensures a.id in Kv.Do(stage, max, s, a).procs
  {
    hide Remove;
  }

  lemma LeaveUnderway(m: Model, max: nat, cfg: Configs, net: Net, id: string)
    requires GoodModel(m) && |net.logs| == |m.stages| && Underway(m, max, cfg(id), net, id)
    ensures Underway(m, max, cfg(id), Do(m, max, cfg, net, Leave(id)), id)
  {
    hide Kv.After, GoodStage, NewRows, Forbidden, Stops, Tokens;
  }

  lemma StepUnderway(m: Model, max: nat, cfg: Configs, net: Net, step: PipelineRun.Step, id: string)
    requires max >= 1 && GoodModel(m) && |net.logs| == |m.stages| && Underway(m, max, cfg(id), net, id)
    ensures Underway(m, max, cfg(id), Do(m, max, cfg, net, step), id)
  {
    hide GoodModel, Underway, Do, Grows;
    if step.id != id || step.Obtain? || step.Run? || step.Peek? {
      StepGrows(m, max, cfg, net, step);
      OthersGate(m, max, cfg, net, step, id);
      SameGateUnderway(m, max, cfg(id), net, Do(m, max, cfg, net, step), id);
    } else {
      match step
      case Start(q, prompt) => StartUnderway(m, max, cfg, net, id, prompt);
      case Enter(q) => EnterUnderway(m, max, cfg, net, id);
      case Leave(q) => LeaveUnderway(m, max, cfg, net, id);
    }
  }

  lemma {:induction false} RunUnderway(m: Model, max: nat, cfg: Configs, steps: seq<PipelineRun.Step>, id: string)
    requires max >= 1 && GoodModel(m)
    ensures Underway(m, max, cfg(id), After(m, max, cfg, steps), id)
  {
    if steps == [] {
    } else {
      hide GoodModel, Underway, Do;
      RunUnderway(m, max, cfg, steps[..|steps| - 1], id);
      StepUnderway(m, max, cfg, After(m, max, cfg, steps[..|steps| - 1]), steps[|steps| - 1], id);
    }
  }

  // ----- The request's own next step -----

  /** How far a call is from its end. */
  function Phase(m: Model, max: nat, net: Net, id: string): nat
    requires |net.logs| == |m.stages| && id in net.gates
  {
    var procs := if net.gates[id].at < |m.stages| then StateAt(m, max, net.logs, net.gates[id].at).procs else map[];
    if net.gates[id].stand.Entering? then 4
    else if id !in procs || procs[id].Ready? || procs[id].Failed? then 1
    else if procs[id].Holding? then 2 else 3
  }

  function NextStep(m: Model, max: nat, net: Net, id: string): (step: PipelineRun.Step)
    requires |net.logs| == |m.stages| && id in net.gates
    ensures step.id == id && (step.Enter? || step.Obtain? || step.Run? || step.Leave?)
  {
    match Phase(m, max, net, id)
    case 4 => Enter(id)
    case 3 => Obtain(id)
    case 2 => Run(id)
    case _ => Leave(id)
  }

  /** The request has ended, or is nearer to its end: the token, the stage, the call. */
  ghost predicate Nearer(m: Model, max: nat, net: Net, next: Net, id: string)
    requires |net.logs| == |next.logs| == |m.stages| && id in net.gates && net.gates[id].at < |m.stages|
  {
    && id in next.gates
    && (next.gates[id].stand.Ended? ||
         var g, h := net.gates[id], next.gates[id];
         && h.at < |m.stages|
         && (TokenIndex(h) > TokenIndex(g)
             || (TokenIndex(h) == TokenIndex(g) && (h.at > g.at
                 || (h.at == g.at && Phase(m, max, next, id) < Phase(m, max, net, id))))))
  }

  lemma EnterNearer(m: Model, max: nat, cfg: Configs, net: Net, id: string)
    requires |net.logs| == |m.stages| && id in net.gates && net.gates[id].at < |m.stages| && net.gates[id].stand.Entering?
    ensures Nearer(m, max, net, Do(m, max, cfg, net, Enter(id)), id)
  {
    hide Kv.After, FirstAction;
  }

  lemma LookedObtains(stage: Stage, max: nat, s: Kv.State, id: string)
    requires id in s.procs && s.procs[id].Looked?
    ensures var t := Kv.Do(stage, max, s, Kv.Obtain(id)); id in t.procs && t.procs[id].Holding?
  {
    hide GetOrCreate;
  }

  lemma HeldForwards(stage: Stage, max: nat, s: Kv.State, id: string)
    requires Kv.Sound(stage, s, max) && id in s.procs && s.procs[id].Holding?
    ensures var t := Kv.Do(stage, max, s, Kv.Forward(id)); id in t.procs && (t.procs[id].Ready? || t.procs[id].Failed?)
  {
    hide Kv.TableSound, Kv.DoneSound, Execute, StepValid, CacheLength;
    assert Kv.ProcSound(stage, s, id);
  }

  lemma InsideNearer(m: Model, max: nat, cfg: Configs, net: Net, id: string)
    requires max >= 1 && GoodModel(m) && |net.logs| == |m.stages| && id in net.gates
    requires net.gates[id].at < |m.stages| && net.gates[id].stand.Inside? && Phase(m, max, net, id) in {2, 3}
    ensures Nearer(m, max, net, Do(m, max, cfg, net, NextStep(m, max, net, id)), id)
  {
    hide Kv.After, GoodStage, Kv.Do, Grows, Kv.Sound, Causal;
    var j, step := net.gates[id].at, NextStep(m, max, net, id);
    var next := Do(m, max, cfg, net, step);
    assert GoodStage(m.stages[j]);
    GoodUnfolds(m.stages[j]);
    if step.Obtain? {
      LogGrows(m, max, net, next, j, Kv.Obtain(id));
      LookedObtains(m.stages[j], max, StateAt(m, max, net.logs, j), id);
    } else {
      LogGrows(m, max, net, next, j, Kv.Forward(id));
      Kv.ScheduleSound(m.stages[j], max, net.logs[j]);
      HeldForwards(m.stages[j], max, StateAt(m, max, net.logs, j), id);
    }
  }

  lemma GoodUnfolds(stage: Stage)
    requires GoodStage(stage)
    ensures stage.hasLayers && Causal(stage.forward)
  {}

  lemma LeaveNearer(m: Model, max: nat, cfg: Configs, net: Net, id: string)
    requires m.stages != [] && |net.logs| == |m.stages| && Underway(m, max, cfg(id), net, id) && id in net.gates
    requires net.gates[id].at < |m.stages| && net.gates[id].stand.Inside? && Phase(m, max, net, id) == 1
    ensures Nearer(m, max, net, Do(m, max, cfg, net, Leave(id)), id)
  {
    hide Kv.After, NewRows, Forbidden, Stops, Tokens;
    assert Reached(net.gates[id], net.gates[id].at);
  }

  lemma StepNearer(m: Model, max: nat, cfg: Configs, net: Net, id: string)
    requires max >= 1 && GoodModel(m) && |net.logs| == |m.stages| && Underway(m, max, cfg(id), net, id)
    requires id in net.gates && !net.gates[id].stand.Ended? && net.gates[id].at < |m.stages|
    ensures Nearer(m, max, net, Do(m, max, cfg, net, NextStep(m, max, net, id)), id)
  {
    assert m.stages != [];
    hide Kv.After, GoodModel, Nearer, Do, Underway;
    if net.gates[id].stand.Entering? {
      EnterNearer(m, max, cfg, net, id);
    } else if Phase(m, max, net, id) == 1 {
      LeaveNearer(m, max, cfg, net, id);
    } else {
      InsideNearer(m, max, cfg, net, id);
    }
  }

  // ----- In time, and still in time -----

  /** Fewer than `max` other requests were used since the request's own last use, at every
      stage that has used it: the stages' tables still hold its entries. */
  ghost predicate Current(m: Model, max: nat, net: Net, id: string)
    requires |net.logs| == |m.stages|
  {
    forall j :: 0 <= j < |m.stages| ==> CurrentAt(StateAt(m, max, net.logs, j), max, id)
  }

  ghost predicate CurrentAt(s: Kv.State, max: nat, id: string) {
    id in s.uses ==> |Since(s.uses, id)| < max
  }

  lemma OwnActionCurrent(stage: Stage, max: nat, s: Kv.State, a: Kv.Action)
    requires max >= 1 && Kv.Sound(stage, s, max) && CurrentAt(s, max, a.id)
    ensures Kv.LookupInTime(s, a, a.id, max)
    ensures CurrentAt(Kv.Do(stage, max, s, a), max, a.id)
  {
    hide Kv.TableSound, Kv.DoneSound, GetOrCreate, Touch, Remove, Kv.Forwarded, Since;
    SinceAppend(s.uses, a.id, a.id);
    if a.id in s.procs { assert Kv.ProcSound(stage, s, a.id); }
  }

  lemma OwnLogInTime(stage: Stage, max: nat, log: seq<Kv.Action>, a: Kv.Action)
    requires max >= 1 && GoodStage(stage) && Kv.InTime(stage, max, log, a.id) && CurrentAt(Kv.After(stage, max, log), max, a.id)
    ensures Kv.InTime(stage, max, log + [a], a.id) && CurrentAt(Kv.After(stage, max, log + [a]), max, a.id)
  {
    hide *;
    Unfold(stage, log, a);
    Kv.ScheduleSound(stage, max, log);
    OwnActionCurrent(stage, max, Kv.After(stage, max, log), a);
    Kv.AfterSnoc(stage, max, log, a);
    Kv.InTimeSoFar(stage, max, log + [a], a.id);
  }

  lemma OwnLoggedInTime(m: Model, max: nat, net: Net, next: Net, j: nat, a: Kv.Action)
    requires max >= 1 && GoodModel(m) && |net.logs| == |m.stages| && j < |m.stages|
    requires next.logs == net.logs[j := net.logs[j] + [a]]
    requires InTime(m, max, net, a.id) && Current(m, max, net, a.id)
    ensures InTime(m, max, next, a.id) && Current(m, max, next, a.id)
  {
    hide Kv.After, GoodStage, Kv.InTime, CurrentAt;
    assert GoodStage(m.stages[j]) && CurrentAt(StateAt(m, max, net.logs, j), max, a.id);
    OwnLogInTime(m.stages[j], max, net.logs[j], a);
    forall i | 0 <= i < |m.stages| ensures CurrentAt(StateAt(m, max, next.logs, i), max, a.id) {
      assert CurrentAt(StateAt(m, max, net.logs, i), max, a.id);
    }
  }

  lemma SameLogs(m: Model, max: nat, net: Net, next: Net, id: string)
    requires |net.logs| == |m.stages| && next.logs == net.logs
    ensures InTime(m, max, net, id) == InTime(m, max, next, id) && Current(m, max, net, id) == Current(m, max, next, id)
  {
    hide Kv.After, Kv.InTime, CurrentAt;
  }

  /** A request's own steps leave it in time. */
  lemma OwnStepInTime(m: Model, max: nat, cfg: Configs, net: Net, step: PipelineRun.Step)
    requires max >= 1 && GoodModel(m) && |net.logs| == |m.stages|
    requires InTime(m, max, net, step.id) && Current(m, max, net, step.id)
    ensures var next := Do(m, max, cfg, net, step); InTime(m, max, next, step.id) && Current(m, max, next, step.id)
  {
    hide *;
    var j, a := StepLogs(m, max, cfg, net, step);
    if Do(m, max, cfg, net, step).logs == net.logs {
      SameLogs(m, max, net, Do(m, max, cfg, net, step), step.id);
    } else {
      OwnLoggedInTime(m, max, net, Do(m, max, cfg, net, step), j, a);
    }
  }

  // ----- To the end -----

  predicate Own(steps: seq<PipelineRun.Step>, id: string) {
    forall k :: 0 <= k < |steps| ==> steps[k].id == id
  }

  lemma RunSnoc(m: Model, max: nat, cfg: Configs, steps: seq<PipelineRun.Step>, step: PipelineRun.Step)
    ensures After(m, max, cfg, steps + [step]) == Do(m, max, cfg, After(m, max, cfg, steps), step)
  {
    hide Do;
    assert (steps + [step])[..|steps|] == steps;
  }

  lemma SameGates(m: Model, max: nat, cfg: Configs, net: Net, step: PipelineRun.Step)
    requires |net.logs| == |m.stages| && step.id in net.gates
    ensures Do(m, max, cfg, net, step).gates.Keys == net.gates.Keys
    ensures Do(m, max, cfg, net, step).gates[step.id].prompt == net.gates[step.id].prompt
  {
    hide Kv.After, FirstAction, NewRows, Forbidden, Stops, Tokens;
  }

  /** The request's own steps end it, add no request, and leave it in time. */
  ghost predicate EndedBy(m: Model, max: nat, cfg: Configs, steps: seq<PipelineRun.Step>, more: seq<PipelineRun.Step>,
                          id: string)
  {
    var net, end := After(m, max, cfg, steps), After(m, max, cfg, steps + more);
    && Own(more, id) && id in net.gates && end.gates.Keys == net.gates.Keys
    && end.gates[id].stand.Ended? && end.gates[id].prompt == net.gates[id].prompt
    && (InTime(m, max, net, id) && Current(m, max, net, id) ==> InTime(m, max, end, id))
  }

  /** They end it with the tokens and the reason of recomputing everything. */
  ghost predicate EndsAsReference(m: Model, max: nat, cfg: Configs, steps: seq<PipelineRun.Step>,
                                  more: seq<PipelineRun.Step>, id: string)
  {
    && EndedBy(m, max, cfg, steps, more, id)
    && After(m, max, cfg, steps + more).gates[id].stand
       == Ended(Reference(m, After(m, max, cfg, steps).gates[id].prompt, 0, cfg(id)))
  }

  lemma EndedNow(m: Model, max: nat, cfg: Configs, steps: seq<PipelineRun.Step>, id: string)
    requires id in After(m, max, cfg, steps).gates && After(m, max, cfg, steps).gates[id].stand.Ended?
    ensures EndedBy(m, max, cfg, steps, [], id)
  {
    hide After, InTime, Current;
    assert steps + [] == steps;
  }

  lemma EndedLater(m: Model, max: nat, cfg: Configs, steps: seq<PipelineRun.Step>, step: PipelineRun.Step,
                   more: seq<PipelineRun.Step>)
    requires max >= 1 && GoodModel(m) && step.id in After(m, max, cfg, steps).gates
    requires EndedBy(m, max, cfg, steps + [step], more, step.id)
    ensures EndedBy(m, max, cfg, steps, [step] + more, step.id)
  {
    hide After, InTime, Current, Do, GoodModel;
    var net := After(m, max, cfg, steps);
    assert steps + ([step] + more) == (steps + [step]) + more;
    RunSnoc(m, max, cfg, steps, step);
    SameGates(m, max, cfg, net, step);
    if InTime(m, max, net, step.id) && Current(m, max, net, step.id) {
      OwnStepInTime(m, max, cfg, net, step);
    }
  }

  lemma {:induction false} Finish(m: Model, max: nat, cfg: Configs, steps: seq<PipelineRun.Step>, id: string)
    returns (more: seq<PipelineRun.Step>)
    requires max >= 1 && GoodModel(m) && id in After(m, max, cfg, steps).gates
    ensures EndedBy(m, max, cfg, steps, more, id)
    decreases var g := After(m, max, cfg, steps).gates[id]; cfg(id).maxNew - TokenIndex(g),
              |m.stages| - After(m, max, cfg, steps).gates[id].at, Phase(m, max, After(m, max, cfg, steps), id)
  {
    hide After, GoodModel, Do, Phase, EndedBy, Reached;
    var net := After(m, max, cfg, steps);
    if net.gates[id].stand.Ended? {
      more := [];
      EndedNow(m, max, cfg, steps, id);
    } else {
      RunUnderway(m, max, cfg, steps, id);
      StepNearer(m, max, cfg, net, id);
      var step := NextStep(m, max, net, id);
      RunSnoc(m, max, cfg, steps, step);
      if After(m, max, cfg, steps + [step]).gates[id].stand.Ended? {
        more := [];
        EndedNow(m, max, cfg, steps + [step], id);
      } else {
        more := Finish(m, max, cfg, steps + [step], id);
      }
      EndedLater(m, max, cfg, steps, step, more);
      more := [step] + more;
    }
  }

  /** From every reachable state every request reaches its end by its own steps alone: no
      step of another request, and nothing that the others have done, stands in its way. */
  lemma EveryRequestEnds(m: Model, max: nat, cfg: Configs, steps: seq<PipelineRun.Step>, id: string)
    requires max >= 1 && GoodModel(m) && id in After(m, max, cfg, steps).gates
    ensures exists more :: EndedBy(m, max, cfg, steps, more, id)
  {
    hide *;
    var more := Finish(m, max, cfg, steps, id);
  }

  /** The end is the reference's if the looks so far were in time and the stages still hold
      the request's entries. */
  lemma RequestInTimeReachesReference(m: Model, max: nat, cfg: Configs, steps: seq<PipelineRun.Step>, id: string)
    requires max >= 1 && GoodModel(m) && id in After(m, max, cfg, steps).gates
    requires InTime(m, max, After(m, max, cfg, steps), id) && Current(m, max, After(m, max, cfg, steps), id)
    ensures exists more :: EndsAsReference(m, max, cfg, steps, more, id)
  {
    hide After, GoodModel, InTime, Current, Reference, Prepend;
    var more := Finish(m, max, cfg, steps, id);
    RequestInTimeGeneratesReference(m, max, cfg, steps + more, id);
    assert EndsAsReference(m, max, cfg, steps, more, id);
  }

  /** With no more requests than a table has entries, every request reaches the reference's
      end by its own steps, from every reachable state. */
  lemma FewRequestsReachReference(m: Model, max: nat, cfg: Configs, steps: seq<PipelineRun.Step>, id: string)
    requires max >= 1 && GoodModel(m) && |After(m, max, cfg, steps).gates| <= max && id in After(m, max, cfg, steps).gates
    ensures exists more :: EndsAsReference(m, max, cfg, steps, more, id)
  {
    hide After, GoodModel, InTime, Current, Reference, Prepend;
    var more := Finish(m, max, cfg, steps, id);
    assert |After(m, max, cfg, steps + more).gates| == |After(m, max, cfg, steps + more).gates.Keys|;
    FewRequestsGenerateReference(m, max, cfg, steps + more, id);
    assert EndsAsReference(m, max, cfg, steps, more, id);
  }
}
