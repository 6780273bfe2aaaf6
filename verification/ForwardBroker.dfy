/** The native stage's forward broker: a bounded queue of jobs, each with a promise, one
    worker thread, and a stop that lets the worker finish what was accepted. */
module ForwardBroker {
  import opened Basics

  // ----- The object, one method per stretch of code under its mutex -----

  datatype Admission = Accepted | Stopping | Full

  datatype Next<J> = Sleep | Exit | Take(job: J)

  class Broker<J> {
    const maxQueueSize: nat
    var queue: seq<J>
    var stopRequested: bool

    constructor (configured: int)
      ensures queue == [] && !stopRequested && maxQueueSize == if configured > 1 then configured else 1
    {
      maxQueueSize := if configured > 1 then configured else 1;
      queue := [];
      stopRequested := false;
    }

    /** `submit`'s critical section; a job that is not accepted is answered at once. */
    method Submit(job: J) returns (r: Admission)
      modifies this
      ensures r == AdmissionOf(old(queue), old(stopRequested), maxQueueSize)
      ensures r == Stopping <==> old(stopRequested)
      ensures r == Full <==> !old(stopRequested) && |old(queue)| >= maxQueueSize
      ensures r == Accepted <==> !old(stopRequested) && |old(queue)| < maxQueueSize
      ensures queue == (if r == Accepted then old(queue) + [job] else old(queue)) && stopRequested == old(stopRequested)
    {
      if stopRequested {
        return Stopping;
      }
      if |queue| >= maxQueueSize {
        return Full;
      }
      queue := queue + [job];
      r := Accepted;
    }

    /** The worker's critical section: the wait's predicate, then the front of the queue. */
    method TakeNext() returns (r: Next<J>)
      modifies this
      ensures r == NextOf(old(queue), old(stopRequested)) && stopRequested == old(stopRequested)
      ensures r == Sleep <==> old(queue) == [] && !old(stopRequested)
      ensures r == Exit <==> old(queue) == [] && old(stopRequested)
      ensures old(queue) != [] ==> r == Take(old(queue)[0])
      ensures queue == if r.Take? then old(queue)[1..] else old(queue)
    {
      if !stopRequested && queue == [] {
        return Sleep;
      }
      if stopRequested && queue == [] {
        return Exit;
      }
      r := Take(queue[0]);
      queue := queue[1..];
    }

    /** `stop`'s critical section; only the first caller goes on to notify and join. */
    method RequestStop() returns (first: bool)
      modifies this
      ensures first == !old(stopRequested) && stopRequested && queue == old(queue)
    {
      first := !stopRequested;
      stopRequested := true;
    }
  }

  function AdmissionOf<J>(queue: seq<J>, stopped: bool, limit: nat): Admission {
    if stopped then Stopping else if |queue| >= limit then Full else Accepted
  }

  function NextOf<J>(queue: seq<J>, stopped: bool): Next<J> {
    if queue != [] then Take(queue[0]) else if stopped then Exit else Sleep
  }

  // ----- Threads -----

  datatype Worker = Awake | Asleep | Running(job: nat) | Returned

  datatype Reply = Unavailable503 | TooMany429 | Handled(status: int) | Threw500

  /** `owing` are the submitters, and `stopOwing` the stopper, that have left the mutex and
      not yet notified; `replies` is every value each job's promise has been given;
      `accepted` and `answered` log the jobs in the order of those events. */
  datatype State = State(
    queue: seq<nat>,
    stopped: bool,
    worker: Worker,
    owing: set<nat>,
    stopOwing: bool,
    replies: map<nat, seq<Reply>>,
    accepted: seq<nat>,
    answered: seq<nat>)

  datatype Action =
    | Submit(job: nat)
    | Notify(job: nat)
    | Stop
    | NotifyAll
    | Check                           // the awake worker enters the mutex
    | Finish(outcome: Option<int>)    // the handler's status, or its exception
    | Spurious

  function Initial(): State {
    State([], false, Awake, {}, false, map[], [], [])
  }

  function Woken(w: Worker): Worker {
    if w == Asleep then Awake else w
  }

  function Do(limit: nat, s: State, a: Action): State {
    match a
    case Submit(j) =>
      if j in s.replies then s
      else (match AdmissionOf(s.queue, s.stopped, limit)
        case Stopping => s.(replies := s.replies[j := [Unavailable503]])
        case Full => s.(replies := s.replies[j := [TooMany429]])
        case Accepted =>
          s.(queue := s.queue + [j], owing := s.owing + {j}, replies := s.replies[j := []], accepted := s.accepted + [j]))
    case Notify(j) =>
      if j in s.owing then s.(owing := s.owing - {j}, worker := Woken(s.worker)) else s
    case Stop =>
      if s.stopped then s else s.(stopped := true, stopOwing := true)
    case NotifyAll =>
      if s.stopOwing then s.(stopOwing := false, worker := Woken(s.worker)) else s
    case Check =>
      if s.worker != Awake then s
      else (match NextOf(s.queue, s.stopped)
        case Sleep => s.(worker := Asleep)
        case Exit => s.(worker := Returned)
        case Take(j) => s.(worker := Running(j), queue := s.queue[1..]))
    case Finish(outcome) =>
      if s.worker.Running? && s.worker.job in s.replies then
        var reply := if outcome.Some? then Handled(outcome.value) else Threw500;
        var j := s.worker.job;
        s.(worker := Awake, replies := s.replies[j := s.replies[j] + [reply]], answered := s.answered + [j])
      else s
    case Spurious => s.(worker := Woken(s.worker))
  }

  function After(limit: nat, actions: seq<Action>): State {
    if actions == [] then Initial()
    else Do(limit, After(limit, actions[..|actions| - 1]), actions[|actions| - 1])
  }

  /** The accepted jobs not yet answered, oldest first. */
  function Pending(s: State): seq<nat> {
    (if s.worker.Running? then [s.worker.job] else []) + s.queue
  }

  function RepliesTo(s: State, j: nat): seq<Reply> {
    if j in s.replies then s.replies[j] else []
  }

  ghost predicate Orderly(limit: nat, s: State) {
    && |s.queue| <= limit
    && s.accepted == s.answered + Pending(s) && Distinct(s.accepted)
    && (forall j :: j in s.accepted ==> j in s.replies)
    && (forall j :: j in s.replies ==>
          if j in Pending(s) then s.replies[j] == []
          else if j in s.accepted then |s.replies[j]| == 1 && (s.replies[j][0].Handled? || s.replies[j][0].Threw500?)
          else s.replies[j] == [Unavailable503] || s.replies[j] == [TooMany429])
    && (s.worker == Returned ==> s.stopped && s.queue == [])
  }

  /** While the worker sleeps, whoever made its condition true still owes it a notify. */
  ghost predicate WakeUpComing(s: State) {
    s.worker == Asleep ==> (forall j :: j in s.queue ==> j in s.owing) && (s.stopped ==> s.stopOwing)
  }

  lemma DistinctAppend(s: seq<nat>, j: nat)
    requires Distinct(s) && j !in s
    ensures Distinct(s + [j])
  {
  }

  lemma SubmitOrderly(limit: nat, s: State, j: nat)
    requires limit >= 1 && Orderly(limit, s)
    ensures Orderly(limit, Do(limit, s, Submit(j)))
  {
    var t := Do(limit, s, Submit(j));
    if j !in s.replies {
      assert j !in s.accepted && (forall k :: k in Pending(s) ==> k in s.accepted);
      if t.accepted != s.accepted {
        assert Pending(t) == Pending(s) + [j];
        assert s.answered + (Pending(s) + [j]) == s.accepted + [j];
        DistinctAppend(s.accepted, j);
      }
    }
  }

  lemma CheckOrderly(limit: nat, s: State)
    requires limit >= 1 && Orderly(limit, s)
    ensures Orderly(limit, Do(limit, s, Check))
  {
    var t := Do(limit, s, Check);
    assert Pending(t) == Pending(s);
  }

  /** The job the worker runs is the front of what is pending, and occurs there once. */
  lemma RunningIsFront(limit: nat, s: State)
    requires Orderly(limit, s) && s.worker.Running?
    ensures s.worker.job in s.replies && s.worker.job !in s.queue && s.worker.job !in s.answered
    ensures s.accepted == s.answered + [s.worker.job] + s.queue
  {
    var j := s.worker.job;
    assert Pending(s) == [j] + s.queue && j in Pending(s);
    assert s.accepted == s.answered + [j] + s.queue;
    assert s.accepted[|s.answered|] == j;
    assert forall i :: 0 <= i < |s.queue| ==> s.accepted[|s.answered| + 1 + i] == s.queue[i];
    assert forall i :: 0 <= i < |s.answered| ==> s.accepted[i] == s.answered[i];
  }

  lemma FinishOrderly(limit: nat, s: State, outcome: Option<int>)
    requires limit >= 1 && Orderly(limit, s)
    ensures Orderly(limit, Do(limit, s, Finish(outcome)))
  {
    if s.worker.Running? {
      RunningIsFront(limit, s);
      hide Distinct;
      var j := s.worker.job;
      var t := Do(limit, s, Finish(outcome));
      assert j in Pending(s) && s.replies[j] == [];
      assert Pending(t) == s.queue;
      assert s.answered + [j] + s.queue == t.answered + Pending(t);
      assert forall k :: k in Pending(s) <==> k == j || k in Pending(t);
      assert j in s.accepted;
      hide Pending;
    }
  }

  lemma DoOrderly(limit: nat, s: State, a: Action)
    requires limit >= 1 && Orderly(limit, s)
    ensures Orderly(limit, Do(limit, s, a))
  {
    match a {
      case Submit(j) => SubmitOrderly(limit, s, j);
      case Check => CheckOrderly(limit, s);
      case Finish(outcome) => FinishOrderly(limit, s, outcome);
      case _ =>
    }
  }

  lemma DoWakeUpComing(limit: nat, s: State, a: Action)
    requires WakeUpComing(s)
    ensures WakeUpComing(Do(limit, s, a))
  {
  }

  lemma {:induction false} AfterKeeps(limit: nat, actions: seq<Action>)
    requires limit >= 1
    ensures Orderly(limit, After(limit, actions)) && WakeUpComing(After(limit, actions))
  {
    if actions == [] {
    } else {
      AfterKeeps(limit, actions[..|actions| - 1]);
      DoOrderly(limit, After(limit, actions[..|actions| - 1]), actions[|actions| - 1]);
      DoWakeUpComing(limit, After(limit, actions[..|actions| - 1]), actions[|actions| - 1]);
    }
  }

  /** In every run the queue stays within its limit; accepted jobs are answered one at a
      time in the order they were accepted; no promise is set twice, and the only promises
      not set are those of accepted jobs still pending. */
  lemma {:induction false} AnsweredOnceInOrder(limit: nat, actions: seq<Action>, j: nat)
    requires limit >= 1
    ensures var s := After(limit, actions);
      && |s.queue| <= limit
      && s.accepted == s.answered + Pending(s)
      && |RepliesTo(s, j)| <= 1
      && (j in s.replies ==> (|RepliesTo(s, j)| == 0 <==> j in Pending(s)))
  {
    AfterKeeps(limit, actions);
  }

  /** When the worker has returned, stop was requested and every job ever submitted has
      exactly one answer; the accepted ones were all handled, in order. */
  lemma NothingUnansweredOnReturn(limit: nat, actions: seq<Action>, j: nat)
    requires limit >= 1 && After(limit, actions).worker == Returned
    ensures var s := After(limit, actions);
      && s.stopped && s.answered == s.accepted
      && (j in s.replies ==> |s.replies[j]| == 1)
      && (j in s.accepted ==> j in s.replies && |s.replies[j]| == 1)
      && (j in s.accepted ==> s.replies[j][0].Handled? || s.replies[j][0].Threw500?)
  {
    AfterKeeps(limit, actions);
    assert Pending(After(limit, actions)) == [];
  }

  /** No wake-up is lost: a worker asleep over a non-empty queue or a requested stop is
      owed a notify. */
  lemma {:induction false} NoLostWakeUp(limit: nat, actions: seq<Action>)
    requires limit >= 1
    ensures var s := After(limit, actions);
      s.worker == Asleep && (s.queue != [] || s.stopped) ==> s.owing != {} || s.stopOwing
  {
    AfterKeeps(limit, actions);
    var s := After(limit, actions);
    if s.worker == Asleep && s.queue != [] {
      assert s.queue[0] in s.owing;
    }
  }

  /** The worker's own steps that empty a queue of `n` jobs and end it. */
  function Drain(n: nat, outcome: Option<int>): seq<Action> {
    if n == 0 then [Check] else [Check, Finish(outcome)] + Drain(n - 1, outcome)
  }

  function Play(limit: nat, s: State, actions: seq<Action>): State
    decreases |actions|
  {
    if |actions| == 0 then s else Play(limit, Do(limit, s, actions[0]), actions[1..])
  }

  /** A stopped worker that is awake returns after its own steps alone, whatever it finds:
      the drain on stop terminates with everything accepted answered. */
  lemma {:induction false} StopDrains(limit: nat, s: State, outcome: Option<int>)
    requires limit >= 1 && Orderly(limit, s) && s.stopped && s.worker == Awake
    ensures var t := Play(limit, s, Drain(|s.queue|, outcome));
      t.worker == Returned && t.queue == [] && t.answered == s.accepted && Orderly(limit, t)
    decreases |s.queue|
  {
    if s.queue == [] {
      assert [Check][1..] == [];
      DoOrderly(limit, s, Check);
      assert Pending(s) == [];
    } else {
      hide Orderly, Do, Play;
      var s2 := Do(limit, Do(limit, s, Check), Finish(outcome));
      DrainsOne(limit, s, outcome);
      StopDrains(limit, s2, outcome);
      PlayTwo(limit, s, Check, Finish(outcome), Drain(|s.queue| - 1, outcome));
    }
  }

  /** One job taken and answered. */
  lemma DrainsOne(limit: nat, s: State, outcome: Option<int>)
    requires limit >= 1 && Orderly(limit, s) && s.stopped && s.worker == Awake && s.queue != []
    ensures var t := Do(limit, Do(limit, s, Check), Finish(outcome));
      && Orderly(limit, t) && t.stopped && t.worker == Awake
      && |t.queue| == |s.queue| - 1 && t.accepted == s.accepted
  {
    var s1 := Do(limit, s, Check);
    DoOrderly(limit, s, Check);
    DoOrderly(limit, s1, Finish(outcome));
    RunningIsFront(limit, s1);
    hide Orderly;
  }

  lemma PlayTwo(limit: nat, s: State, a: Action, b: Action, rest: seq<Action>)
    ensures Play(limit, s, [a, b] + rest) == Play(limit, Do(limit, Do(limit, s, a), b), rest)
  {
    hide Do;
    assert ([a, b] + rest)[1..] == [b] + rest && ([b] + rest)[1..] == rest;
  }

  /** What is still to happen after a stop: the notification that a sleeping worker is owed,
      or the end of the job in hand, and then the worker's own steps. */
  function ShutDown(s: State, outcome: Option<int>): seq<Action> {
    match s.worker
    case Awake => Drain(|s.queue|, outcome)
    case Asleep => [NotifyAll] + Drain(|s.queue|, outcome)
    case Running(_) => [Finish(outcome)] + Drain(|s.queue|, outcome)
    case Returned => []
  }

  lemma PlayOne(limit: nat, s: State, a: Action, rest: seq<Action>)
    ensures Play(limit, s, [a] + rest) == Play(limit, Do(limit, s, a), rest)
  {
    hide Do;
    assert ([a] + rest)[1..] == rest;
  }

  lemma AfterOne(limit: nat, actions: seq<Action>, a: Action)
    ensures After(limit, actions + [a]) == Do(limit, After(limit, actions), a)
  {
    hide Do;
    assert (actions + [a])[..|actions|] == actions;
  }

  lemma {:induction false} AfterPlay(limit: nat, actions: seq<Action>, more: seq<Action>)
    ensures After(limit, actions + more) == Play(limit, After(limit, actions), more)
    decreases |more|
  {
    hide After, Do;
    if more == [] {
      assert actions + more == actions;
    } else {
      hide Play;
      AfterOne(limit, actions, more[0]);
      AfterPlay(limit, actions + [more[0]], more[1..]);
      PlayOne(limit, After(limit, actions), more[0], more[1..]);
      assert actions + [more[0]] + more[1..] == actions + more && more == [more[0]] + more[1..];
    }
  }

  /** The step that gets a stopped worker going. */
  lemma StopGoesOn(limit: nat, s: State, a: Action)
    requires limit >= 1 && Orderly(limit, s) && WakeUpComing(s) && s.stopped
    requires (s.worker == Asleep && a == NotifyAll) || (s.worker.Running? && a.Finish?)
    ensures var t := Do(limit, s, a);
      Orderly(limit, t) && t.stopped && t.worker == Awake && t.queue == s.queue && t.accepted == s.accepted
  {
    DoOrderly(limit, s, a);
    if s.worker.Running? { RunningIsFront(limit, s); }
    hide Orderly;
  }

  /** From every state that any run of submitters, stoppers and the worker can reach once stop
      was requested, what is still to happen answers every accepted job in order, empties the
      queue and lets the worker return, whether it was awake, asleep or in a job. */
  lemma StopReturnsFromEverywhere(limit: nat, actions: seq<Action>, outcome: Option<int>)
    requires limit >= 1 && After(limit, actions).stopped
    ensures var s := After(limit, actions);
      var t := After(limit, actions + ShutDown(s, outcome));
      t.worker == Returned && t.queue == [] && t.accepted == s.accepted && t.answered == s.accepted
  {
    var s := After(limit, actions);
    AfterKeeps(limit, actions);
    AfterPlay(limit, actions, ShutDown(s, outcome));
    hide After, Do, Play, Drain;
    match s.worker
    case Awake => StopDrainsOrderly(limit, s, outcome);
    case Asleep =>
      StopGoesOn(limit, s, NotifyAll);
      StopDrainsOrderly(limit, Do(limit, s, NotifyAll), outcome);
      PlayOne(limit, s, NotifyAll, Drain(|s.queue|, outcome));
    case Running(_) =>
      StopGoesOn(limit, s, Finish(outcome));
      StopDrainsOrderly(limit, Do(limit, s, Finish(outcome)), outcome);
      PlayOne(limit, s, Finish(outcome), Drain(|s.queue|, outcome));
    case Returned => PlayNothing(limit, s);
  }

  lemma PlayNothing(limit: nat, s: State)
    requires Orderly(limit, s) && s.worker == Returned
    ensures Play(limit, s, []) == s && s.queue == [] && s.answered == s.accepted
  {
    assert Pending(s) == [];
  }

  lemma StopDrainsOrderly(limit: nat, s: State, outcome: Option<int>)
    requires limit >= 1 && Orderly(limit, s) && s.stopped && s.worker == Awake
    ensures var t := Play(limit, s, Drain(|s.queue|, outcome));
      t.worker == Returned && t.queue == [] && t.accepted == s.accepted && t.answered == s.accepted
  {
    StopDrains(limit, s, outcome);
    var t := Play(limit, s, Drain(|s.queue|, outcome));
    assert Pending(t) == [];
    hide Play;
  }

  // ----- What each job is told -----

  /** What a new job is told, in every run: it is accepted, and told nothing yet, exactly if
      there was no stop and the queue was shorter than its limit; it is answered 429 exactly
      if there was no stop and the queue was not; and 503 exactly after a stop. */
  lemma NewJobIsTold(limit: nat, actions: seq<Action>, j: nat)
    requires limit >= 1 && j !in After(limit, actions).replies
    ensures var s, t := After(limit, actions), After(limit, actions + [Submit(j)]);
      && (j in t.accepted <==> !s.stopped && |s.queue| < limit)
      && (RepliesTo(t, j) == [] <==> !s.stopped && |s.queue| < limit)
      && (RepliesTo(t, j) == [TooMany429] <==> !s.stopped && |s.queue| >= limit)
      && (RepliesTo(t, j) == [Unavailable503] <==> s.stopped)
      && t.accepted == s.accepted + (if j in t.accepted then [j] else [])
      && t.queue == s.queue + (if j in t.accepted then [j] else [])
  {
    AfterKeeps(limit, actions);
    AfterOne(limit, actions, Submit(j));
    var s := After(limit, actions);
    assert j !in s.accepted;
    hide After, Distinct, Pending;
  }

  lemma StopStep(limit: nat, s: State, a: Action)
    ensures Do(limit, s, a).stopped == (s.stopped || a == Stop)
    ensures Do(limit, s, a).stopOwing ==> s.stopOwing || a == Stop
  {
    hide AdmissionOf, NextOf, Woken;
  }

  /** A stop is remembered from the first request for it on. */
  lemma {:induction false} StopIsRemembered(limit: nat, actions: seq<Action>)
    ensures After(limit, actions).stopped <==> Stop in actions
    ensures After(limit, actions).stopOwing ==> Stop in actions
  {
    if actions != [] {
      hide *;
      var init, last := actions[..|actions| - 1], actions[|actions| - 1];
      StopIsRemembered(limit, init);
      assert actions == init + [last];
      AfterOne(limit, init, last);
      StopStep(limit, After(limit, init), last);
    }
  }

  /** Each notification is owed once: by who was accepted, and by who asked for the stop first. */
  lemma NotificationsAreOwedOnce(limit: nat, actions: seq<Action>, j: nat)
    ensures var s := After(limit, actions);
      && j !in After(limit, actions + [Notify(j)]).owing && !After(limit, actions + [NotifyAll]).stopOwing
      && (After(limit, actions + [Stop]).stopOwing <==> !s.stopped || s.stopOwing)
      && (j !in s.replies ==> (After(limit, actions + [Submit(j)]).owing
            == if !s.stopped && |s.queue| < limit then s.owing + {j} else s.owing))
  {
    AfterOne(limit, actions, Notify(j));
    AfterOne(limit, actions, NotifyAll);
    AfterOne(limit, actions, Stop);
    AfterOne(limit, actions, Submit(j));
    hide After;
  }

  /** The job has been answered so. */
  predicate IsTold(s: State, j: nat, replies: seq<Reply>) {
    j in s.answered && j in s.replies && s.replies[j] == replies
  }

  lemma ReplyStays(limit: nat, s: State, a: Action, j: nat, replies: seq<Reply>)
    requires limit >= 1 && Orderly(limit, s) && IsTold(s, j, replies)
    ensures IsTold(Do(limit, s, a), j, replies)
  {
    if a.Finish? && s.worker.Running? { RunningIsFront(limit, s); }
    hide Orderly;
  }

  lemma {:induction false} ReplyStaysAfter(limit: nat, actions: seq<Action>, more: seq<Action>, j: nat, replies: seq<Reply>)
    requires limit >= 1 && IsTold(After(limit, actions), j, replies)
    ensures IsTold(After(limit, actions + more), j, replies)
    decreases |more|
  {
    hide *;
    if more == [] {
      assert actions + more == actions;
    } else {
      var before, last := more[..|more| - 1], more[|more| - 1];
      ReplyStaysAfter(limit, actions, before, j, replies);
      AfterKeeps(limit, actions + before);
      assert actions + more == (actions + before) + [last];
      AfterOne(limit, actions + before, last);
      ReplyStays(limit, After(limit, actions + before), last, j, replies);
    }
  }

  /** What an accepted job is told, in every run: the status that its handler came to, or 500
      if it threw, once, and that for good. */
  lemma HandledJobIsTold(limit: nat, actions: seq<Action>, outcome: Option<int>, more: seq<Action>)
    requires limit >= 1 && After(limit, actions).worker.Running?
    ensures var j := After(limit, actions).worker.job;
      && RepliesTo(After(limit, actions + [Finish(outcome)] + more), j)
         == [match outcome case Some(status) => Handled(status) case None => Threw500]
      && After(limit, actions + [Finish(outcome)]).answered == After(limit, actions).answered + [j]
  {
    AfterKeeps(limit, actions);
    var s := After(limit, actions);
    var j := s.worker.job;
    RunningIsFront(limit, s);
    AfterOne(limit, actions, Finish(outcome));
    assert j in Pending(s);
    assert s.replies[j] == [];
    hide After, Orderly, Pending;
    ReplyStaysAfter(limit, actions + [Finish(outcome)], more, j,
      [match outcome case Some(status) => Handled(status) case None => Threw500]);
  }
}
