/** The gateway's single-flight guard: one generation at a time, a bounded number of
    threads waiting for the slot on a condition variable. */
module Backpressure {

  // ----- The object, one method per stretch of code under its lock -----

  datatype Entry = Granted | Rejected | MustWait

  /** `sleepers` and `woken` are the condition variable: the threads that wait on it, and
      those that have been notified and wait for the lock. `s` is the run of all threads so
      far, which the object must follow. */
  class GatewayBackpressureGuard {
    var inflight: int
    var waiting: int
    var sleepers: set<nat>
    var woken: set<nat>

    constructor ()
      ensures Shows(Initial())
    {
      inflight := 0;
      waiting := 0;
      sleepers := {};
      woken := {};
    }

    /** The object is as the machine's state says. */
    ghost predicate Shows(s: State)
      reads this
    {
      && inflight == s.inflight && waiting == s.waiting
      && sleepers == InStand(s.threads, Asleep) && woken == InStand(s.threads, Runnable)
    }

    /** `acquire` up to the wait loop. */
    method Enter(id: nat, queueLimit: int, ghost s: State) returns (r: Entry)
      requires Shows(s) && id !in s.threads
      modifies this
      ensures (inflight, waiting, r) == EnterStep(old(inflight), old(waiting), queueLimit)
      ensures r.Granted? <==> old(inflight) == 0
      ensures r.MustWait? <==> old(inflight) != 0 && old(waiting) < queueLimit && 0 < queueLimit
      ensures inflight == (if r.Granted? then 1 else old(inflight)) && waiting == old(waiting) + if r.MustWait? then 1 else 0
      ensures sleepers == old(sleepers) + (if r.MustWait? then {id} else {}) && woken == old(woken)
      ensures Shows(Do(s, Acquire(id, queueLimit)))
    {
      var limit := if queueLimit > 0 then queueLimit else 0;
      if inflight == 0 {
        inflight := 1;
        return Granted;
      }
      if limit == 0 {
        return Rejected;
      }
      if waiting >= limit {
        return Rejected;
      }
      waiting := waiting + 1;
      sleepers := sleepers + {id};
      r := MustWait;
    }

    /** The wait loop's test after a wake-up, and what follows when it ends. */
    method Retry(id: nat, ghost s: State) returns (granted: bool)
      requires Shows(s) && id in woken
      modifies this
      ensures (inflight, waiting, granted) == RetryStep(old(inflight), old(waiting))
      ensures granted <==> old(inflight) <= 0
      ensures inflight == (if granted then 1 else old(inflight)) && waiting == old(waiting) - if granted then 1 else 0
      ensures sleepers == old(sleepers) + (if granted then {} else {id}) && woken == old(woken) - {id}
      ensures Shows(Do(s, Resume(id)))
    {
      woken := woken - {id};
      if inflight > 0 {
        sleepers := sleepers + {id};
        return false;
      }
      inflight := 1;
      waiting := waiting - 1;
      granted := true;
    }

    /** `release`; every waiting thread is notified. */
    method Release(id: nat, ghost s: State)
      requires Shows(s)
      modifies this
      ensures inflight == ReleaseStep(old(inflight)) && waiting == old(waiting)
      ensures old(inflight) == 1 ==> inflight == 0
      ensures sleepers == {} && woken == old(woken) + old(sleepers)
      ensures id in s.threads && s.threads[id].Holder? ==> Shows(Do(s, Leave(id)))
    {
      if inflight > 0 {
        inflight := inflight - 1;
      }
      woken, sleepers := woken + sleepers, {};
    }
  }

  function InStand(threads: map<nat, Thread>, th: Thread): set<nat> {
    set t | t in threads && threads[t] == th
  }

  function EnterStep(inflight: int, waiting: int, queueLimit: int): (int, int, Entry) {
    if inflight == 0 then (1, waiting, Granted)
    else if queueLimit <= 0 || waiting >= queueLimit then (inflight, waiting, Rejected)
    else (inflight, waiting + 1, MustWait)
  }

  function RetryStep(inflight: int, waiting: int): (int, int, bool) {
    if inflight > 0 then (inflight, waiting, false) else (1, waiting - 1, true)
  }

  function ReleaseStep(inflight: int): int {
    if inflight > 0 then inflight - 1 else inflight
  }

  // ----- Threads -----

  /** A thread inside the wait loop sleeps until it is notified, then waits for the lock. */
  datatype Thread = Asleep | Runnable | Holder

  /** `threads` holds the threads inside the guard; `offered` is the largest queue limit
      any of them has been given. */
  datatype State = State(inflight: int, waiting: int, threads: map<nat, Thread>, offered: int)

  datatype Action =
    | Acquire(id: nat, limit: int)
    | Resume(id: nat)        // a notified waiter takes the lock and tests again
    | Abort(id: nat)         // an exception in the wait: the `finally` part runs alone
    | Leave(id: nat)         // the holder releases
    | Wake(id: nat)          // a wake-up nobody asked for

  function Initial(): State {
    State(0, 0, map[], 0)
  }

  function Roused(threads: map<nat, Thread>): map<nat, Thread> {
    map t | t in threads :: if threads[t].Asleep? then Runnable else threads[t]
  }

  function Do(s: State, a: Action): State {
    match a
    case Acquire(t, limit) =>
      if t in s.threads then s
      else
        var (inflight, waiting, r) := EnterStep(s.inflight, s.waiting, limit);
        State(inflight, waiting,
              match r case Granted => s.threads[t := Holder] case MustWait => s.threads[t := Asleep]
                      case Rejected => s.threads,
              if limit > s.offered then limit else s.offered)
    case Resume(t) =>
      if t in s.threads && s.threads[t].Runnable? then
        var (inflight, waiting, granted) := RetryStep(s.inflight, s.waiting);
        s.(inflight := inflight, waiting := waiting,
           threads := s.threads[t := if granted then Holder else Asleep])
      else s
    case Abort(t) =>
      if t in s.threads && !s.threads[t].Holder? then s.(waiting := s.waiting - 1, threads := s.threads - {t}) else s
    case Leave(t) =>
      if t in s.threads && s.threads[t].Holder? then
        s.(inflight := ReleaseStep(s.inflight), threads := Roused(s.threads - {t}))
      else s
    case Wake(t) =>
      if t in s.threads && s.threads[t].Asleep? then s.(threads := s.threads[t := Runnable]) else s
  }

  function After(actions: seq<Action>): State {
    if actions == [] then Initial() else Do(After(actions[..|actions| - 1]), actions[|actions| - 1])
  }

  /** The threads that hold the slot, or those inside the wait loop. */
  function Where(threads: map<nat, Thread>, holding: bool): set<nat> {
    set t | t in threads && threads[t].Holder? == holding
  }

  function Holders(s: State): set<nat> {
    Where(s.threads, true)
  }

  function Waiters(s: State): set<nat> {
    Where(s.threads, false)
  }

  ghost predicate Guarded(s: State) {
    && s.inflight == |Holders(s)| && 0 <= s.inflight <= 1
    && s.waiting == |Waiters(s)| && s.waiting <= s.offered && s.offered >= 0
    && (s.inflight == 0 ==> forall t :: t in s.threads ==> !s.threads[t].Asleep?)
  }

  function One(b: bool): nat {
    if b then 1 else 0
  }

  lemma JoinsWhere(threads: map<nat, Thread>, t: nat, th: Thread, holding: bool)
    requires t !in threads
    ensures Where(threads[t := th], holding) == Where(threads, holding) + (if th.Holder? == holding then {t} else {})
  {
  }

  lemma Joins(threads: map<nat, Thread>, t: nat, th: Thread, holding: bool)
    requires t !in threads
    ensures |Where(threads[t := th], holding)| == |Where(threads, holding)| + One(th.Holder? == holding)
  {
    JoinsWhere(threads, t, th, holding);
    assert t !in Where(threads, holding);
    hide Where;
    var before := Where(threads, holding);
    assert |before + {t}| == |before| + 1 && before + {} == before;
  }

  lemma Leaves(threads: map<nat, Thread>, t: nat, holding: bool)
    requires t in threads
    ensures |Where(threads - {t}, holding)| == |Where(threads, holding)| - One(threads[t].Holder? == holding)
  {
    assert (threads - {t})[t := threads[t]] == threads;
    Joins(threads - {t}, t, threads[t], holding);
  }

  lemma Changes(threads: map<nat, Thread>, t: nat, th: Thread, holding: bool)
    requires t in threads
    ensures |Where(threads[t := th], holding)|
         == |Where(threads, holding)| - One(threads[t].Holder? == holding) + One(th.Holder? == holding)
  {
    assert (threads - {t})[t := th] == threads[t := th];
    Leaves(threads, t, holding);
    Joins(threads - {t}, t, th, holding);
  }

  lemma Rouses(threads: map<nat, Thread>, holding: bool)
    ensures Where(Roused(threads), holding) == Where(threads, holding)
  {
  }

  lemma DoGuarded(s: State, a: Action)
    requires Guarded(s)
    ensures Guarded(Do(s, a))
  {
    var t, threads := a.id, s.threads;
    var th := if a.Wake? then Runnable else if s.inflight == 0 then Holder else Asleep;
    if t in threads {
      Changes(threads, t, th, true);
      Changes(threads, t, th, false);
      Leaves(threads, t, true);
      Leaves(threads, t, false);
      Rouses(threads - {t}, true);
      Rouses(threads - {t}, false);
    } else {
      Joins(threads, t, th, true);
      Joins(threads, t, th, false);
    }
    hide Where;
  }

  lemma {:induction false} AfterGuarded(actions: seq<Action>)
    ensures Guarded(After(actions))
  {
    if actions == [] {
    } else {
      AfterGuarded(actions[..|actions| - 1]);
      DoGuarded(After(actions[..|actions| - 1]), actions[|actions| - 1]);
    }
  }

  /** A limit that somebody came with. */
  ghost predicate WasOffered(actions: seq<Action>, limit: int) {
    exists i :: 0 <= i < |actions| && actions[i].Acquire? && actions[i].limit == limit
  }

  lemma {:induction false} OfferedBySomebody(actions: seq<Action>)
    ensures After(actions).offered == 0 || WasOffered(actions, After(actions).offered)
  {
    if actions != [] {
      var init, last := actions[..|actions| - 1], actions[|actions| - 1];
      OfferedBySomebody(init);
      var before, offered := After(init).offered, After(actions).offered;
      assert offered == before || (last.Acquire? && last.limit == offered);
      if offered == before && before != 0 {
        var i :| 0 <= i < |init| && init[i].Acquire? && init[i].limit == before;
        assert actions[i] == init[i];
      }
    }
  }

  /** In every run: the in-flight count is the number of holders, at most one; the waiting
      count is the number of threads inside the wait loop and never exceeds the largest
      limit that anybody came with; and a free slot never coexists with a sleeping waiter. */
  lemma GuardHoldsInEveryRun(actions: seq<Action>)
    ensures var s := After(actions);
      && s.inflight == |Holders(s)| <= 1
      && s.waiting == |Waiters(s)| && (s.waiting > 0 ==> exists limit :: WasOffered(actions, limit) && s.waiting <= limit)
      && (s.inflight == 0 ==> forall t :: t in Waiters(s) ==> s.threads[t].Runnable?)
  {
    AfterGuarded(actions);
    OfferedBySomebody(actions);
  }

  /** No wake-up is lost: when the slot is free, letting any one waiter run gives it the slot. */
  lemma FreeSlotIsTaken(actions: seq<Action>, t: nat)
    requires After(actions).inflight == 0 && t in Waiters(After(actions))
    ensures var u := After(actions + [Resume(t)]);
      Holders(u) == {t} && u.inflight == 1 && u.waiting == After(actions).waiting - 1
  {
    AfterGuarded(actions);
    var s := After(actions);
    assert (actions + [Resume(t)])[..|actions|] == actions;
    assert Holders(s) == {};
    assert Holders(Do(s, Resume(t))) == {t};
  }

  /** A request is turned away only when the slot is taken and its queue is full. */
  lemma RejectedOnlyWhenFull(actions: seq<Action>, t: nat, limit: int)
    requires t !in After(actions).threads
    ensures var s, u := After(actions), After(actions + [Acquire(t, limit)]);
      t !in u.threads <==> |Holders(s)| == 1 && |Waiters(s)| >= limit
  {
    AfterGuarded(actions);
    assert (actions + [Acquire(t, limit)])[..|actions|] == actions;
  }

  lemma AfterOne(actions: seq<Action>, a: Action)
    ensures After(actions + [a]) == Do(After(actions), a)
  {
    assert (actions + [a])[..|actions|] == actions;
  }

  /** Whoever comes, in every run, gets the slot if nobody holds it, is turned away if the queue
      is full, and otherwise sleeps; nobody else is touched. */
  lemma WhoComesIsServed(actions: seq<Action>, t: nat, limit: int)
    requires t !in After(actions).threads
    ensures var s, u := After(actions), After(actions + [Acquire(t, limit)]);
      u.threads == if Holders(s) == {} then s.threads[t := Holder]
                   else if |Waiters(s)| < limit then s.threads[t := Asleep] else s.threads
  {
    AfterGuarded(actions);
    AfterOne(actions, Acquire(t, limit));
    hide After, Where;
  }

  /** A release frees the slot: nobody holds it, everybody who waits is awake, and the next to
      come, or to run, gets it. */
  lemma ReleaseFreesTheSlot(actions: seq<Action>, t: nat, next: nat, limit: int)
    requires t in Holders(After(actions))
    ensures var u := After(actions + [Leave(t)]);
      && Holders(u) == {} && u.inflight == 0 && Waiters(u) == Waiters(After(actions))
      && (forall w :: w in Waiters(u) ==> u.threads[w].Runnable?)
      && (next !in u.threads ==> Holders(After(actions + [Leave(t)] + [Acquire(next, limit)])) == {next})
      && (next in Waiters(u) ==> Holders(After(actions + [Leave(t)] + [Resume(next)])) == {next})
  {
    var s := After(actions);
    AfterGuarded(actions);
    AfterOne(actions, Leave(t));
    var u := After(actions + [Leave(t)]);
    AfterGuarded(actions + [Leave(t)]);
    assert u.inflight == 0;
    assert Holders(u) == {};
    OnlyHolder(s, t);
    Rouses(s.threads - {t}, false);
    assert Where(s.threads - {t}, false) == Where(s.threads, false);
    if next !in u.threads {
      AfterOne(actions + [Leave(t)], Acquire(next, limit));
      var v := After(actions + [Leave(t)] + [Acquire(next, limit)]);
      assert v.threads == u.threads[next := Holder];
      JoinsWhere(u.threads, next, Holder, true);
    }
    if next in Waiters(u) {
      FreeSlotIsTaken(actions + [Leave(t)], next);
    }
  }

  lemma OnlyHolder(s: State, t: nat)
    requires Guarded(s) && t in Holders(s)
    ensures s.inflight == 1 && Holders(s) == {t}
  {
    hide Where;
    assert {t} <= Holders(s);
    assert |Holders(s) - {t}| == 0;
  }
}
