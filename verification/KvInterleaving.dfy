/** One stage serving many requests at once, at the granularity of its locks. A forward
    request with a cache is three lock regions: `reset` or `get`, then `get_or_create`,
    then the forward itself under the entry's own lock. Entries are handles, so an entry
    evicted from the table stays alive for the request that holds it. A request id has one
    call in flight at a time, as the gateway's loop sends them. */
module KvInterleaving {
  import opened Basics
  import opened Lru
  import opened StageFlow

  /** What a request has had answered: the rows it sent, the rows it got back, the rows its
      cache held after the last answer, and the gateway's own count of prompt positions and
      decode steps. */
  datatype Progress = Progress(sent: Rows, answers: Rows, cached: Rows, prompt: nat, decodes: nat)

  const FRESH := Progress([], [], [], 0, 0)

  datatype Proc =
    | Ready(done: Progress)
    | Looked(done: Progress, mode: Mode, input: Rows, position: int)
    | Holding(done: Progress, mode: Mode, input: Rows, position: int, handle: nat)
    | Failed(status: int, input: Rows)

  /** `uses` logs whose entry was used, in order; `owner` who each entry was made for. */
  datatype State = State(
    kv: Table<string, nat>,
    heap: seq<Rows>,
    owner: seq<string>,
    procs: map<string, Proc>,
    uses: seq<string>)

  datatype Action =
    | BeginPrefill(id: string, prompt: Rows)
    | BeginDecode(id: string, row: Row)
    | Obtain(id: string)
    | Forward(id: string)
    | Peek(id: string)   // the lookups of a repeated request or of a description

  function Initial(): State {
    State(Empty(), [], [], map[], [])
  }

  function UseIfPresent(s: State, id: string): State {
    if id in s.kv.store then s.(kv := Touch(s.kv, id), uses := s.uses + [id]) else s
  }

  function DoBegin(s: State, a: Action): State
    requires a.BeginPrefill? || a.BeginDecode?
  {
    if a.BeginPrefill? then
      if a.id in s.procs then s
      else s.(kv := Remove(s.kv, a.id), procs := s.procs[a.id := Looked(FRESH, Prefill, a.prompt, 0)])
    else if a.id in s.procs && s.procs[a.id].Ready? then
      var done := s.procs[a.id].done;
      if a.id in s.kv.store then
        UseIfPresent(s, a.id).(procs := s.procs[a.id :=
          Looked(done, Decode, [a.row], done.prompt + done.decodes)])
      else s.(procs := s.procs[a.id := Failed(CONFLICT, [a.row])])
    else s
  }

  function DoObtain(s: State, max: nat, id: string): State {
    if id in s.procs && s.procs[id].Looked? then
      var p := s.procs[id];
      var isNew := id !in s.kv.store;
      var handle := if isNew then |s.heap| else s.kv.store[id];
      State(GetOrCreate(s.kv, id, handle, max),
            if isNew then s.heap + [[]] else s.heap,
            if isNew then s.owner + [id] else s.owner,
            s.procs[id := Holding(p.done, p.mode, p.input, p.position, handle)],
            s.uses + [id])
    else s
  }

  /** What the forward makes of a request that holds a cache with these rows. */
  function Forwarded(stage: Stage, id: string, p: Proc, seen: Rows): Proc
    requires p.Holding?
  {
    var output := Execute(stage, seen, p.input, Some(p.position));
    var req := Request(id, 0, p.mode, Some(p.position), true, false);
    if StepValid(stage, req, |p.input|, |output|, CacheLength(stage, seen), CacheLength(stage, seen + p.input)) then
      Ready(Progress(p.done.sent + p.input, p.done.answers + output, seen + p.input,
                     if p.mode == Decode then p.done.prompt else |p.input|,
                     if p.mode == Decode then p.done.decodes + 1 else 0))
    else Failed(SERVER_ERROR, p.input)
  }

  function DoForward(stage: Stage, s: State, id: string): State {
    if id in s.procs && s.procs[id].Holding? && s.procs[id].handle < |s.heap| then
      var p := s.procs[id];
      var seen := s.heap[p.handle];
      s.(heap := s.heap[p.handle := seen + p.input], procs := s.procs[id := Forwarded(stage, id, p, seen)])
    else s
  }

  function Do(stage: Stage, max: nat, s: State, a: Action): State {
    match a
    case Obtain(id) => DoObtain(s, max, id)
    case Forward(id) => DoForward(stage, s, id)
    case Peek(id) => UseIfPresent(s, id)
    case _ => DoBegin(s, a)
  }

  /** The state after a schedule of actions. */
  function After(stage: Stage, max: nat, actions: seq<Action>): State {
    if actions == [] then Initial()
    else Do(stage, max, After(stage, max, actions[..|actions| - 1]), actions[|actions| - 1])
  }

  // ----- What every schedule keeps -----

  /** The table is in step with the log of uses, and its entries point into the heap, to what
      was made for them. */
  ghost predicate TableSound(s: State, max: nat) {
    && Tracks(s.kv, s.uses, max) && |s.owner| == |s.heap|
    && (forall k :: k in s.kv.store ==> k in s.procs && s.kv.store[k] < |s.heap| && s.owner[s.kv.store[k]] == k)
  }

  /** The request's entry, if it is in the table, holds these rows. */
  predicate EntryIs(s: State, id: string, rows: Rows) {
    id in s.kv.store ==> s.kv.store[id] < |s.heap| && s.heap[s.kv.store[id]] == rows
  }

  /** The last rows of a request, as many as `rows`. */
  predicate EndsWith(all: Rows, rows: Rows) {
    |rows| <= |all| && all[|all| - |rows|..] == rows
  }

  /** The gateway's count is right, the cache held the last rows that were sent, and as long
      as it held them all, the answers are the stage's function of them. */
  predicate DoneSound(stage: Stage, done: Progress) {
    && |done.sent| == done.prompt + done.decodes && EndsWith(done.sent, done.cached)
    && (done.cached == done.sent ==> done.answers == stage.forward(done.sent))
  }

  predicate ProcSound(stage: Stage, s: State, id: string)
    requires id in s.procs
  {
    match s.procs[id]
    case Ready(done) =>
      id in s.uses && DoneSound(stage, done) && done.sent != [] && EntryIs(s, id, done.cached)
    case Looked(done, mode, input, position) =>
      && position == |done.sent| && DoneSound(stage, done)
      && if mode == Prefill then done == FRESH && id !in s.kv.store
         else mode == Decode && |input| == 1 && id in s.uses && done.sent != [] && EntryIs(s, id, done.cached)
    case Holding(done, mode, input, position, handle) =>
      && position == |done.sent| && DoneSound(stage, done) && id in s.uses
      && handle < |s.heap| && handle < |s.owner| && s.owner[handle] == id
      && (id in s.kv.store ==> s.kv.store[id] == handle)
      && if mode == Prefill then done == FRESH && s.heap[handle] == []
         else mode == Decode && |input| == 1 && done.sent != [] && (s.heap[handle] == done.cached || s.heap[handle] == [])
    case Failed(_, _) => true
  }

  ghost predicate Sound(stage: Stage, s: State, max: nat) {
    TableSound(s, max) && forall k :: k in s.procs ==> ProcSound(stage, s, k)
  }

  /** The request's cache holds all that it sent, and it has not been refused, unless its
      prompt was empty. */
  predicate Kept(s: State, id: string) {
    id in s.procs ==>
      match s.procs[id]
      case Ready(done) => done.cached == done.sent
      case Looked(done, _, _, _) => done.cached == done.sent
      case Holding(done, _, _, _, handle) => handle < |s.heap| && s.heap[handle] == done.sent
      case Failed(_, input) => input == []
  }

  /** If this step looks the request's entry up for a decode, fewer than `max` other ids were
      used since the request's own last use. */
  ghost predicate LookupInTime(s: State, a: Action, id: string, max: nat) {
    a.id == id && id in s.procs
    && ((a.BeginDecode? && s.procs[id].Ready?) || (a.Obtain? && s.procs[id].Looked? && s.procs[id].mode == Decode))
    ==> |Since(s.uses, id)| < max
  }

  /** The table holds a request's entry exactly when it is in time. */
  lemma EntryInTime(s: State, max: nat, id: string)
    requires TableSound(s, max) && id in s.uses
    ensures id in s.kv.store <==> |Since(s.uses, id)| < max
  {
    TracksExactly(s.kv, s.uses, max, id);
  }

  // Steps on the table.

  lemma TouchTracks(kv: Table<string, nat>, uses: seq<string>, max: nat, id: string)
    requires max >= 1 && Tracks(kv, uses, max) && id in kv.store
    ensures Tracks(Touch(kv, id), uses + [id], max)
  {
    UseTracks(kv, Touch(kv, id), uses, id, max);
  }

  lemma ObtainTracks(kv: Table<string, nat>, uses: seq<string>, max: nat, id: string, handle: nat)
    requires max >= 1 && Tracks(kv, uses, max)
    ensures Tracks(GetOrCreate(kv, id, handle, max), uses + [id], max)
    ensures forall k :: k in GetOrCreate(kv, id, handle, max).store && k != id ==>
              k in kv.store && GetOrCreate(kv, id, handle, max).store[k] == kv.store[k]
  {
    if id in kv.store {
      TouchTracks(kv, uses, max, id);
    } else {
      UseTracks(kv, Assign(kv, id, handle), uses, id, max);
    }
  }

  lemma RemoveAbsent(kv: Table<string, nat>, id: string)
    requires WellFormed(kv) && id !in kv.store
    ensures Remove(kv, id) == kv
  {}

  /** What a step that is not the request's own leaves alone. */
  lemma OthersKeep(stage: Stage, s: State, t: State, id: string)
    requires id in s.procs && id in t.procs && t.procs[id] == s.procs[id] && ProcSound(stage, s, id)
    requires s.uses <= t.uses && s.owner <= t.owner && |s.owner| == |s.heap| <= |t.heap|
    requires forall h :: 0 <= h < |s.heap| && s.owner[h] == id ==> t.heap[h] == s.heap[h]
    requires id in t.kv.store ==> id in s.kv.store && t.kv.store[id] == s.kv.store[id]
    requires id in s.kv.store ==> s.kv.store[id] < |s.heap| && s.owner[s.kv.store[id]] == id
    ensures ProcSound(stage, t, id) && (Kept(t, id) <==> Kept(s, id))
  {
    hide DoneSound;
  }

  // Steps of the machine: each keeps the table and the other requests.

  lemma TableAfterObtain(stage: Stage, s: State, max: nat, id: string)
    requires max >= 1 && Sound(stage, s, max)
    ensures TableSound(DoObtain(s, max, id), max)
  {
    hide ProcSound, Tracks, GetOrCreate;
    if id in s.procs && s.procs[id].Looked? {
      var handle := if id !in s.kv.store then |s.heap| else s.kv.store[id];
      ObtainTracks(s.kv, s.uses, max, id, handle);
      ObtainedHandle(s.kv, s.uses, max, id, handle);
    }
  }

  lemma ObtainedHandle(kv: Table<string, nat>, uses: seq<string>, max: nat, id: string, handle: nat)
    requires max >= 1 && Tracks(kv, uses, max)
    ensures var t := GetOrCreate(kv, id, handle, max);
      id in t.store && t.store[id] == if id in kv.store then kv.store[id] else handle
  {}

  lemma ObtainByOther(stage: Stage, s: State, max: nat, q: string, id: string)
    requires max >= 1 && Sound(stage, s, max) && q != id && id in s.procs
    ensures var t := DoObtain(s, max, q); id in t.procs && ProcSound(stage, t, id) && (Kept(t, id) <==> Kept(s, id))
  {
    hide ProcSound, Tracks, GetOrCreate, Kept;
    if q in s.procs && s.procs[q].Looked? {
      ObtainTracks(s.kv, s.uses, max, q, if q !in s.kv.store then |s.heap| else s.kv.store[q]);
    }
    OthersKeep(stage, s, DoObtain(s, max, q), id);
  }

  lemma ForwardByOther(stage: Stage, s: State, max: nat, q: string, id: string)
    requires Sound(stage, s, max) && q != id && id in s.procs
    ensures var t := DoForward(stage, s, q); id in t.procs && ProcSound(stage, t, id) && (Kept(t, id) <==> Kept(s, id))
  {
    hide Tracks, Kept, Forwarded, DoneSound;
    assert q in s.procs ==> ProcSound(stage, s, q);
    assert ProcSound(stage, s, id);
    hide ProcSound;
    OthersKeep(stage, s, DoForward(stage, s, q), id);
  }

  lemma UseByAnyone(stage: Stage, s: State, max: nat, q: string, id: string)
    requires max >= 1 && Sound(stage, s, max) && id in s.procs
    ensures var t := UseIfPresent(s, q);
      TableSound(t, max) && id in t.procs && ProcSound(stage, t, id) && (Kept(t, id) <==> Kept(s, id))
  {
    hide ProcSound, Tracks, Kept, Touch;
    if q in s.kv.store {
      TouchTracks(s.kv, s.uses, max, q);
    }
    OthersKeep(stage, s, UseIfPresent(s, q), id);
  }

  lemma FreshSound(stage: Stage)
    requires Causal(stage.forward)
    ensures DoneSound(stage, FRESH)
  {
    assert |stage.forward([])| == 0;
  }

  lemma SentCount(stage: Stage, done: Progress)
    requires DoneSound(stage, done)
    ensures |done.sent| == done.prompt + done.decodes
  {}

  /** A request's own first look. */
  lemma BeginByOwn(stage: Stage, s: State, max: nat, a: Action)
    requires max >= 1 && Sound(stage, s, max) && (a.BeginPrefill? || a.BeginDecode?) && Causal(stage.forward)
    ensures var t := DoBegin(s, a);
      && TableSound(t, max) && (a.id in s.procs ==> a.id in t.procs) && (a.id in t.procs ==> ProcSound(stage, t, a.id))
      && (Kept(t, a.id) <==> Kept(s, a.id) && LookupInTime(s, a, a.id, max))
  {
    hide Tracks, Since, Touch, Remove, Causal, DoneSound;
    FreshSound(stage);
    if a.BeginPrefill? && a.id !in s.procs {
      RemoveAbsentEntry(s, max, a.id);
    } else if a.BeginDecode? && a.id in s.procs && s.procs[a.id].Ready? {
      assert ProcSound(stage, s, a.id);
      SentCount(stage, s.procs[a.id].done);
      EntryInTime(s, max, a.id);
      if a.id in s.kv.store {
        TouchTracks(s.kv, s.uses, max, a.id);
        assert Touch(s.kv, a.id).store == s.kv.store;
      }
    }
  }

  lemma RemoveAbsentEntry(s: State, max: nat, id: string)
    requires TableSound(s, max) && id !in s.kv.store
    ensures Remove(s.kv, id) == s.kv
  {
    RemoveAbsent(s.kv, id);
  }

  lemma BeginByOther(stage: Stage, s: State, max: nat, a: Action, id: string)
    requires max >= 1 && Sound(stage, s, max) && (a.BeginPrefill? || a.BeginDecode?) && a.id != id && id in s.procs
    ensures var t := DoBegin(s, a);
      id in t.procs && ProcSound(stage, t, id) && (Kept(t, id) <==> Kept(s, id))
  {
    hide ProcSound, Tracks, Kept, Touch, Remove;
    if a.BeginPrefill? && a.id !in s.procs {
      RemoveAbsentEntry(s, max, a.id);
    } else if a.BeginDecode? && a.id in s.procs && a.id in s.kv.store {
      assert Touch(s.kv, a.id).store == s.kv.store;
    }
    OthersKeep(stage, s, DoBegin(s, a), id);
  }

  /** A request's own second look: the decode obtains its own rows exactly when it is in time. */
  lemma ObtainByOwn(stage: Stage, s: State, max: nat, id: string)
    requires max >= 1 && Sound(stage, s, max) && id in s.procs
    ensures var t := DoObtain(s, max, id);
      && id in t.procs && ProcSound(stage, t, id)
      && (Kept(t, id) <==> Kept(s, id) && LookupInTime(s, Obtain(id), id, max))
  {
    hide Tracks, Since, GetOrCreate, DoneSound, Causal;
    assert ProcSound(stage, s, id);
    if s.procs[id].Looked? {
      var handle := if id !in s.kv.store then |s.heap| else s.kv.store[id];
      ObtainedHandle(s.kv, s.uses, max, id, handle);
      if s.procs[id].mode == Decode { EntryInTime(s, max, id); }
    }
  }

  /** The forward itself: on a cache of all that was sent the step check passes for every
      input but an empty prompt, and the answers continue the whole answer. */
  lemma ForwardByOwn(stage: Stage, s: State, max: nat, id: string)
    requires Sound(stage, s, max) && id in s.procs && stage.hasLayers && Causal(stage.forward)
    ensures var t := DoForward(stage, s, id);
      && TableSound(t, max) && id in t.procs && ProcSound(stage, t, id)
      && (Kept(t, id) <==> Kept(s, id))
  {
    hide Tracks;
    assert ProcSound(stage, s, id);
    if s.procs[id].Holding? {
      var p := s.procs[id];
      var seen := s.heap[p.handle];
      ForwardOfHeld(stage, id, p, seen);
      hide Forwarded, DoneSound, Causal;
    }
  }

  lemma ForwardOfHeld(stage: Stage, id: string, p: Proc, seen: Rows)
    requires p.Holding? && stage.hasLayers && Causal(stage.forward) && DoneSound(stage, p.done)
    requires p.position == |p.done.sent|
    requires if p.mode == Prefill then p.done == FRESH && seen == []
             else p.mode == Decode && |p.input| == 1 && p.done.sent != [] && (seen == p.done.cached || seen == [])
    ensures var q := Forwarded(stage, id, p, seen);
      && (q.Ready? || q == Failed(SERVER_ERROR, p.input))
      && (seen == p.done.sent ==> (q.Failed? <==> p.input == []))
      && (q.Ready? ==> DoneSound(stage, q.done) && q.done.sent == p.done.sent + p.input != [])
      && (q.Ready? ==> q.done.cached == seen + p.input)
      && (q.Ready? ==> (q.done.cached == q.done.sent <==> seen == p.done.sent))
  {
    var whole := stage.forward(p.done.sent + p.input);
    assert p.done.sent <= p.done.sent + p.input;
    assert stage.forward(p.done.sent) <= whole;
    assert whole == stage.forward(p.done.sent) + whole[|p.done.sent|..];
    SameFront(seen, p.done.sent, p.input);
    assert EndsWith(p.done.sent, seen);
    assert EndsWith(p.done.sent + p.input, seen + p.input);
  }

  lemma SameFront(x: Rows, y: Rows, z: Rows)
    ensures x + z == y + z <==> x == y
  {
    if x + z == y + z {
      assert |x| == |y|;
      assert x == (x + z)[..|x|] == (y + z)[..|y|] == y;
    }
  }

  lemma TableAfterStep(stage: Stage, s: State, max: nat, a: Action)
    requires max >= 1 && Sound(stage, s, max) && stage.hasLayers && Causal(stage.forward)
    ensures TableSound(Do(stage, max, s, a), max)
  {
    hide DoBegin, DoObtain, DoForward, UseIfPresent, ProcSound, Causal;
    match a
    case Obtain(id) => TableAfterObtain(stage, s, max, id);
    case Forward(id) => TableAfterForward(stage, s, max, id);
    case Peek(id) => TableAfterUse(s, max, id);
    case _ => BeginByOwn(stage, s, max, a);
  }

  lemma TableAfterUse(s: State, max: nat, id: string)
    requires max >= 1 && TableSound(s, max)
    ensures TableSound(UseIfPresent(s, id), max)
  {
    hide Tracks, Touch;
    if id in s.kv.store { TouchTracks(s.kv, s.uses, max, id); }
  }

  lemma TableAfterForward(stage: Stage, s: State, max: nat, id: string)
    requires TableSound(s, max)
    ensures TableSound(DoForward(stage, s, id), max)
  {
    hide Tracks, Forwarded;
  }

  /** What one step of anyone does to one request. */
  lemma StepOfRequest(stage: Stage, s: State, max: nat, a: Action, id: string)
    requires max >= 1 && Sound(stage, s, max) && stage.hasLayers && Causal(stage.forward)
    ensures var t := Do(stage, max, s, a);
      && (id in s.procs ==> id in t.procs)
      && (id in t.procs ==> ProcSound(stage, t, id))
      && (Kept(t, id) <==> Kept(s, id) && LookupInTime(s, a, id, max))
  {
    hide DoBegin, DoObtain, DoForward, UseIfPresent, ProcSound, Causal, Kept, TableSound;
    if a.id == id && (a.BeginPrefill? || a.BeginDecode?) {
      BeginByOwn(stage, s, max, a);
    } else if id in s.procs {
      match a
      case Obtain(q) => if q == id { ObtainByOwn(stage, s, max, id); } else { ObtainByOther(stage, s, max, q, id); }
      case Forward(q) => if q == id { ForwardByOwn(stage, s, max, id); } else { ForwardByOther(stage, s, max, q, id); }
      case Peek(q) => UseByAnyone(stage, s, max, q, id);
      case _ => BeginByOther(stage, s, max, a, id);
    } else {
      NotStarted(stage, s, max, a, id);
    }
  }

  lemma NotStarted(stage: Stage, s: State, max: nat, a: Action, id: string)
    requires id !in s.procs && !(a.id == id && (a.BeginPrefill? || a.BeginDecode?))
    ensures id !in Do(stage, max, s, a).procs && Kept(s, id) && Kept(Do(stage, max, s, a), id)
    ensures LookupInTime(s, a, id, max)
  {
    hide GetOrCreate, Forwarded;
  }

  lemma StepSound(stage: Stage, s: State, max: nat, a: Action)
    requires max >= 1 && Sound(stage, s, max) && stage.hasLayers && Causal(stage.forward)
    ensures Sound(stage, Do(stage, max, s, a), max)
  {
    hide ProcSound, Do, TableSound, Causal, Kept;
    TableAfterStep(stage, s, max, a);
    forall id | id in Do(stage, max, s, a).procs ensures ProcSound(stage, Do(stage, max, s, a), id) {
      StepOfRequest(stage, s, max, a, id);
    }
  }

  // ----- Every schedule -----

  /** In every schedule the table is in step with its log, and an entry is only ever reached
      by the request it was made for. */
  lemma {:induction false} ScheduleSound(stage: Stage, max: nat, actions: seq<Action>)
    requires max >= 1 && stage.hasLayers && Causal(stage.forward)
    ensures Sound(stage, After(stage, max, actions), max)
  {
    if actions == [] {
      assert WellFormed(Initial().kv);
    } else {
      hide Sound, Do, Causal;
      ScheduleSound(stage, max, actions[..|actions| - 1]);
      StepSound(stage, After(stage, max, actions[..|actions| - 1]), max, actions[|actions| - 1]);
    }
  }

  /** The law of the table: in every schedule it holds exactly the entries that were used
      with fewer than `max` other ids used since. */
  lemma TableIsRecent(stage: Stage, max: nat, actions: seq<Action>, id: string)
    requires max >= 1 && stage.hasLayers && Causal(stage.forward)
    ensures var s := After(stage, max, actions);
      id in s.kv.store <==> id in s.uses && |Since(s.uses, id)| < max
  {
    ScheduleSound(stage, max, actions);
    TracksExactly(After(stage, max, actions).kv, After(stage, max, actions).uses, max, id);
  }

  /** A decode's first look, in every schedule: it goes on exactly when fewer than `max` other
      ids were used since the request's own last use, and is answered 409 otherwise. */
  lemma FirstLookIsExact(stage: Stage, max: nat, actions: seq<Action>, id: string, row: Row)
    requires max >= 1 && stage.hasLayers && Causal(stage.forward)
    requires id in After(stage, max, actions).procs && After(stage, max, actions).procs[id].Ready?
    ensures var s := After(stage, max, actions);
      var t := Do(stage, max, s, BeginDecode(id, row));
      id in t.procs && t.procs[id] == if |Since(s.uses, id)| < max
        then Looked(s.procs[id].done, Decode, [row], s.procs[id].done.prompt + s.procs[id].done.decodes)
        else Failed(CONFLICT, [row])
  {
    ScheduleSound(stage, max, actions);
    EntryInTime(After(stage, max, actions), max, id);
    hide Touch, Since, Causal;
  }

  /** A decode's second look, in every schedule: it obtains the rows its own cache held after
      its last answer exactly when fewer than `max` other ids were used since its first
      look, and an empty cache otherwise. */
  lemma SecondLookIsExact(stage: Stage, max: nat, actions: seq<Action>, id: string)
    requires max >= 1 && stage.hasLayers && Causal(stage.forward)
    requires id in After(stage, max, actions).procs && After(stage, max, actions).procs[id].Looked?
    requires After(stage, max, actions).procs[id].mode == Decode
    ensures var s := After(stage, max, actions);
      var t := Do(stage, max, s, Obtain(id));
      && id in t.procs && t.procs[id].Holding? && t.procs[id].handle < |t.heap|
      && t.heap[t.procs[id].handle] == if |Since(s.uses, id)| < max then s.procs[id].done.cached else []
  {
    ScheduleSound(stage, max, actions);
    var s := After(stage, max, actions);
    assert ProcSound(stage, s, id);
    EntryInTime(s, max, id);
    hide GetOrCreate, Since, Causal;
  }

  /** What a decode's forward answers on a cache with the rows `seen`: on all that was sent,
      the next row of the stage's function; otherwise whatever the part makes of a wrong
      position, refused unless it is one row. */
  ghost function DecodeAnswered(stage: Stage, p: Proc, seen: Rows): Proc
    requires p.Holding? && Causal(stage.forward)
  {
    assert |stage.forward(seen + p.input)| == |seen + p.input|;
    var output := if seen == p.done.sent then stage.forward(seen + p.input)[|seen|..]
                  else stage.misplaced(seen, p.input, Some(|p.done.sent|));
    if seen == p.done.sent || |output| == 1 then
      Ready(Progress(p.done.sent + p.input, p.done.answers + output, seen + p.input, p.done.prompt, p.done.decodes + 1))
    else Failed(SERVER_ERROR, p.input)
  }

  lemma DecodeForwarded(stage: Stage, id: string, p: Proc, seen: Rows)
    requires p.Holding? && stage.hasLayers && Causal(stage.forward) && DoneSound(stage, p.done)
    requires p.mode == Decode && |p.input| == 1 && p.position == |p.done.sent|
    requires seen == p.done.cached || seen == []
    ensures EndsWith(p.done.sent, seen)
    ensures Forwarded(stage, id, p, seen) == DecodeAnswered(stage, p, seen)
  {
    assert seen == p.done.sent <==> |seen| == p.position;
    assert |stage.forward(seen + p.input)| == |seen| + 1;
  }

  lemma DoForwardUnfolds(stage: Stage, max: nat, s: State, id: string)
    requires id in s.procs && s.procs[id].Holding? && s.procs[id].handle < |s.heap|
    ensures var t := Do(stage, max, s, Forward(id));
      id in t.procs && t.procs[id] == Forwarded(stage, id, s.procs[id], s.heap[s.procs[id].handle])
  {
    hide Forwarded;
  }

  lemma HeldDecode(stage: Stage, s: State, max: nat, id: string)
    requires Sound(stage, s, max) && id in s.procs && s.procs[id].Holding? && s.procs[id].mode == Decode
    ensures var p := s.procs[id];
      && DoneSound(stage, p.done) && |p.input| == 1 && p.position == |p.done.sent|
      && p.handle < |s.heap| && (s.heap[p.handle] == p.done.cached || s.heap[p.handle] == [])
  {
    hide TableSound, DoneSound;
    assert ProcSound(stage, s, id);
  }

  /** A decode's forward, in every schedule: the cache it holds ends with the last rows that
      were sent, and on anything but all of them the step check accepts the step exactly
      when it answers with one row. */
  lemma DecodeForwardIsExact(stage: Stage, max: nat, actions: seq<Action>, id: string)
    requires max >= 1 && stage.hasLayers && Causal(stage.forward)
    requires id in After(stage, max, actions).procs && After(stage, max, actions).procs[id].Holding?
    requires After(stage, max, actions).procs[id].mode == Decode
    ensures var s := After(stage, max, actions);
      var p, t := s.procs[id], Do(stage, max, s, Forward(id));
      && p.handle < |s.heap| && EndsWith(p.done.sent, s.heap[p.handle])
      && id in t.procs && t.procs[id] == DecodeAnswered(stage, p, s.heap[p.handle])
  {
    hide *;
    ScheduleSound(stage, max, actions);
    var s := After(stage, max, actions);
    HeldDecode(stage, s, max, id);
    DecodeForwarded(stage, id, s.procs[id], s.heap[s.procs[id].handle]);
    DoForwardUnfolds(stage, max, s, id);
  }

  /** Every look of the request for a decode was in time. */
  ghost predicate InTime(stage: Stage, max: nat, actions: seq<Action>, id: string) {
    forall n :: 0 <= n < |actions| ==> LookupInTime(After(stage, max, actions[..n]), actions[n], id, max)
  }

  lemma InTimeSoFar(stage: Stage, max: nat, actions: seq<Action>, id: string)
    requires actions != []
    ensures var before, last := actions[..|actions| - 1], actions[|actions| - 1];
      InTime(stage, max, actions, id) <==>
        InTime(stage, max, before, id) && LookupInTime(After(stage, max, before), last, id, max)
  {
    hide After, LookupInTime;
    var before := actions[..|actions| - 1];
    assert forall n :: 0 <= n < |before| ==> before[..n] == actions[..n] && before[n] == actions[n];
  }

  /** In every schedule a request's cache holds all that it sent, and it was never refused
      (but for an empty prompt), exactly when at each of its looks fewer than `max` other
      ids had been used since its own last use. */
  lemma {:induction false} KeptExactlyInTime(stage: Stage, max: nat, actions: seq<Action>, id: string)
    requires max >= 1 && stage.hasLayers && Causal(stage.forward)
    ensures Kept(After(stage, max, actions), id) <==> InTime(stage, max, actions, id)
  {
    if actions == [] {
      assert Kept(Initial(), id);
    } else {
      hide Kept, InTime, LookupInTime, Do, Sound, Causal;
      var before, last := actions[..|actions| - 1], actions[|actions| - 1];
      KeptExactlyInTime(stage, max, before, id);
      ScheduleSound(stage, max, before);
      StepOfRequest(stage, After(stage, max, before), max, last, id);
      InTimeSoFar(stage, max, actions, id);
    }
  }

  /** A request whose looks were in time is undisturbed: it has been answered exactly what
      the stage makes of all it sent, and its cache's length is its prompt plus its
      executed decodes, which is the position the gateway sends next. */
  lemma RequestInTimeIsUndisturbed(stage: Stage, max: nat, actions: seq<Action>, id: string)
    requires max >= 1 && stage.hasLayers && Causal(stage.forward) && InTime(stage, max, actions, id)
    ensures var s := After(stage, max, actions);
      id in s.procs ==>
        match s.procs[id]
        case Ready(done) =>
          && done.answers == stage.forward(done.sent) && done.cached == done.sent
          && |done.sent| == done.prompt + done.decodes
          && (id in s.kv.store ==> s.kv.store[id] < |s.heap| && s.heap[s.kv.store[id]] == done.sent)
        case Looked(done, _, _, position) => done.answers == stage.forward(done.sent) && position == |done.sent|
        case Holding(done, _, _, position, handle) =>
          handle < |s.heap| && s.heap[handle] == done.sent && position == |done.sent|
        case Failed(_, input) => input == []
  {
    ScheduleSound(stage, max, actions);
    KeptExactlyInTime(stage, max, actions, id);
    hide Causal, InTime, After, TableSound;
    var s := After(stage, max, actions);
    if id in s.procs { assert ProcSound(stage, s, id); }
  }

  /** Fewer than `max` other ids were used since the request's own last use, at any time. */
  ghost predicate Bounded(s: State, max: nat, id: string) {
    id in s.procs && (s.procs[id].Ready? || s.procs[id].Holding? || (s.procs[id].Looked? && s.procs[id].mode == Decode))
    ==> |Since(s.uses, id)| < max
  }

  /** In every interleaving, a request that fewer than `max` other ids come between keeps
      its cache in the table. */
  lemma BoundedRequestIsUndisturbed(stage: Stage, max: nat, actions: seq<Action>, id: string)
    requires max >= 1 && stage.hasLayers && Causal(stage.forward)
    requires forall n :: 0 <= n <= |actions| ==> Bounded(After(stage, max, actions[..n]), max, id)
    ensures InTime(stage, max, actions, id)
    ensures var s := After(stage, max, actions);
      id in s.procs ==>
        match s.procs[id]
        case Ready(done) =>
          && id in s.kv.store && s.kv.store[id] < |s.heap|
          && s.heap[s.kv.store[id]] == done.sent
          && CacheLength(stage, s.heap[s.kv.store[id]]) == done.prompt + done.decodes
          && done.answers == stage.forward(done.sent)
        case Failed(_, input) => input == []
        case _ => true
  {
    hide Since, Causal, After;
    assert actions[..|actions|] == actions;
    assert InTime(stage, max, actions, id);
    RequestInTimeIsUndisturbed(stage, max, actions, id);
    TableIsRecent(stage, max, actions, id);
    ScheduleSound(stage, max, actions);
    hide InTime;
    var s := After(stage, max, actions);
    if id in s.procs { assert ProcSound(stage, s, id); }
  }

  // ----- A schedule that loses a cache, for every limit -----

  lemma AfterSnoc(stage: Stage, max: nat, actions: seq<Action>, a: Action)
    ensures After(stage, max, actions + [a]) == Do(stage, max, After(stage, max, actions), a)
  {
    assert (actions + [a])[..|actions|] == actions;
  }

  /** One prefill and the first look of a decode. */
  function UpToFirstLook(id: string, prompt: Rows, row: Row): seq<Action> {
    [BeginPrefill(id, prompt), Obtain(id), Forward(id)] + [BeginDecode(id, row)]
  }

  /** Other requests arrive, each as far as its own entry. */
  function Arrivals(others: seq<string>, prompt: Rows): seq<Action> {
    if others == [] then []
    else Arrivals(others[..|others| - 1], prompt) +
         [BeginPrefill(others[|others| - 1], prompt)] + [Obtain(others[|others| - 1])]
  }

  lemma PrefillStarts(stage: Stage, max: nat, id: string, prompt: Rows)
    ensures After(stage, max, [BeginPrefill(id, prompt)]) ==
      State(Empty(), [], [], map[id := Looked(FRESH, Prefill, prompt, 0)], [])
  {
    AfterSnoc(stage, max, [], BeginPrefill(id, prompt));
    assert [] + [BeginPrefill(id, prompt)] == [BeginPrefill(id, prompt)];
    RemoveAbsent(Initial().kv, id);
  }

  lemma PrefillObtains(stage: Stage, max: nat, id: string, prompt: Rows)
    ensures var s := After(stage, max, [BeginPrefill(id, prompt), Obtain(id)]);
      s.heap == [[]] && s.procs == map[id := Holding(FRESH, Prefill, prompt, 0, 0)] && s.uses == [id]
  {
    hide After, GetOrCreate;
    PrefillStarts(stage, max, id, prompt);
    AfterSnoc(stage, max, [BeginPrefill(id, prompt)], Obtain(id));
    assert [BeginPrefill(id, prompt)] + [Obtain(id)] == [BeginPrefill(id, prompt), Obtain(id)];
  }

  lemma PrefillForwarded(stage: Stage, id: string, prompt: Rows)
    requires stage.hasLayers && Causal(stage.forward) && prompt != []
    ensures Forwarded(stage, id, Holding(FRESH, Prefill, prompt, 0, 0), []) ==
      Ready(Progress(prompt, stage.forward(prompt), prompt, |prompt|, 0))
  {
    var nothing: Rows := [];
    assert nothing + prompt == prompt && stage.forward(prompt)[0..] == stage.forward(prompt);
    assert nothing + stage.forward(prompt) == stage.forward(prompt);
  }

  lemma PrefillAlone(stage: Stage, max: nat, id: string, prompt: Rows)
    requires max >= 1 && stage.hasLayers && Causal(stage.forward) && prompt != []
    ensures var s := After(stage, max, [BeginPrefill(id, prompt), Obtain(id), Forward(id)]);
      && s.procs == map[id := Ready(Progress(prompt, stage.forward(prompt), prompt, |prompt|, 0))]
      && s.uses == [id]
  {
    hide After, Forwarded, Causal;
    PrefillObtains(stage, max, id, prompt);
    PrefillForwarded(stage, id, prompt);
    AfterSnoc(stage, max, [BeginPrefill(id, prompt), Obtain(id)], Forward(id));
    assert [BeginPrefill(id, prompt), Obtain(id)] + [Forward(id)] == [BeginPrefill(id, prompt), Obtain(id), Forward(id)];
  }

  lemma FirstLookAlone(stage: Stage, max: nat, id: string, prompt: Rows, row: Row)
    requires max >= 1 && stage.hasLayers && Causal(stage.forward) && prompt != []
    ensures var s := After(stage, max, UpToFirstLook(id, prompt, row));
      && s.procs.Keys == {id} && s.uses == [id, id]
      && s.procs[id] == Looked(Progress(prompt, stage.forward(prompt), prompt, |prompt|, 0), Decode, [row], |prompt|)
  {
    var before := [BeginPrefill(id, prompt), Obtain(id), Forward(id)];
    PrefillAlone(stage, max, id, prompt);
    AfterSnoc(stage, max, before, BeginDecode(id, row));
    TableIsRecent(stage, max, before, id);
    hide After, Causal;
  }

  lemma ArrivalPasses(stage: Stage, max: nat, s: State, id: string, other: string, prompt: Rows)
    requires id in s.procs && other !in s.procs
    ensures var t := Do(stage, max, Do(stage, max, s, BeginPrefill(other, prompt)), Obtain(other));
      && t.uses == s.uses + [other] && t.procs.Keys == s.procs.Keys + {other}
      && id in t.procs && t.procs[id] == s.procs[id]
  {
    hide GetOrCreate, Remove;
  }

  lemma {:induction false} ArrivalsPass(stage: Stage, max: nat, id: string, prompt: Rows, row: Row, others: seq<string>)
    requires max >= 1 && stage.hasLayers && Causal(stage.forward) && prompt != []
    requires Distinct(others) && id !in others
    ensures var s := After(stage, max, UpToFirstLook(id, prompt, row) + Arrivals(others, prompt));
      && id in s.procs && s.uses == [id, id] + others && s.procs.Keys == {id} + Elements(others)
      && s.procs[id] == Looked(Progress(prompt, stage.forward(prompt), prompt, |prompt|, 0), Decode, [row], |prompt|)
  {
    hide *;
    if others == [] {
      ArrivalsUnfold(UpToFirstLook(id, prompt, row), others, prompt);
      FirstLookAlone(stage, max, id, prompt, row);
    } else {
      var fewer, last := others[..|others| - 1], others[|others| - 1];
      var before := UpToFirstLook(id, prompt, row) + Arrivals(fewer, prompt);
      OneMore(others);
      ArrivalsPass(stage, max, id, prompt, row, fewer);
      ArrivalPasses(stage, max, After(stage, max, before), id, last, prompt);
      AfterSnoc(stage, max, before, BeginPrefill(last, prompt));
      AfterSnoc(stage, max, before + [BeginPrefill(last, prompt)], Obtain(last));
      ArrivalsUnfold(UpToFirstLook(id, prompt, row), others, prompt);
    }
  }

  lemma ArrivalsUnfold(start: seq<Action>, others: seq<string>, prompt: Rows)
    ensures others == [] ==> Elements(others) == {} && start + Arrivals(others, prompt) == start
    ensures others != [] ==>
      var fewer, last := others[..|others| - 1], others[|others| - 1];
      start + Arrivals(others, prompt) == start + Arrivals(fewer, prompt) + [BeginPrefill(last, prompt)] + [Obtain(last)]
  {}

  lemma OneMore(others: seq<string>)
    requires Distinct(others) && others != []
    ensures var fewer, last := others[..|others| - 1], others[|others| - 1];
      Distinct(fewer) && last !in fewer && Elements(others) == Elements(fewer) + {last} && last !in Elements(fewer)
  {
    assert others == others[..|others| - 1] + [others[|others| - 1]];
  }

  lemma {:induction false} SinceOthers(id: string, others: seq<string>)
    requires Distinct(others) && id !in others
    ensures |Since([id, id] + others, id)| == |others|
  {
    SinceAreOthers(id, others);
    DistinctCount(others);
  }

  lemma {:induction false} SinceAreOthers(id: string, others: seq<string>)
    requires id !in others
    ensures Since([id, id] + others, id) == Elements(others)
  {
    if others == [] {
      assert [id, id] + others == [id, id];
    } else {
      var fewer, last := others[..|others| - 1], others[|others| - 1];
      SinceAreOthers(id, fewer);
      SinceAppend([id, id] + fewer, last, id);
      assert [id, id] + others == ([id, id] + fewer) + [last];
    }
  }

  /** Between the two looks of a request's decode any number of others arrive. On a stage
      whose part answers a row for a row whatever it is told, the step is accepted; it ran
      on the request's own cache if fewer than `max` arrived, and otherwise on nothing,
      leaving a cache of one row behind a gateway that counts the prompt and one more. */
  lemma SqueezedDecode(stage: Stage, max: nat, id: string, prompt: Rows, row: Row, others: seq<string>)
    requires max >= 1 && stage.hasLayers && Causal(stage.forward) && prompt != []
    requires |stage.misplaced([], [row], Some(|prompt|))| == 1
    requires Distinct(others) && id !in others
    ensures var actions := UpToFirstLook(id, prompt, row) + Arrivals(others, prompt) + [Obtain(id)] + [Forward(id)];
      var s := After(stage, max, actions);
      && id in s.procs && s.procs[id].Ready? && s.procs[id].done.sent == prompt + [row]
      && s.procs[id].done.prompt + s.procs[id].done.decodes == |prompt| + 1
      && s.procs[id].done.cached == (if |others| < max then prompt + [row] else [row])
      && s.procs[id].done.answers == (if |others| < max then stage.forward(prompt + [row])
                                      else stage.forward(prompt) + stage.misplaced([], [row], Some(|prompt|)))
  {
    hide After, Causal, Do;
    var before := UpToFirstLook(id, prompt, row) + Arrivals(others, prompt);
    ArrivalsPass(stage, max, id, prompt, row, others);
    SinceOthers(id, others);
    SecondLookIsExact(stage, max, before, id);
    AfterSnoc(stage, max, before, Obtain(id));
    HoldingKeepsRequest(stage, max, After(stage, max, before), id);
    DecodeForwardIsExact(stage, max, before + [Obtain(id)], id);
    AfterSnoc(stage, max, before + [Obtain(id)], Forward(id));
    WholeAnswer(stage, prompt, row);
    assert [] + [row] == [row];
  }

  lemma HoldingKeepsRequest(stage: Stage, max: nat, s: State, id: string)
    requires id in s.procs && s.procs[id].Looked?
    ensures var t := Do(stage, max, s, Obtain(id));
      id in t.procs && t.procs[id].Holding? && t.procs[id].done == s.procs[id].done
      && t.procs[id].mode == s.procs[id].mode && t.procs[id].input == s.procs[id].input
  {
    hide GetOrCreate;
  }

  lemma WholeAnswer(stage: Stage, prompt: Rows, row: Row)
    requires Causal(stage.forward)
    ensures var whole := stage.forward(prompt + [row]);
      |prompt| <= |whole| && stage.forward(prompt) + whole[|prompt|..] == whole
  {
    assert prompt <= prompt + [row];
  }
}
