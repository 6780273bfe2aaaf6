/** The stage's two tables and its forward handler as the objects they are: ordered
    dictionaries and cache entries updated in place. */
module StageCaches {
  import opened Basics
  import opened Lru
  import opened StageFlow

  lemma PopFirstIs<K(!new), V>(t: Table<K, V>)
    requires t.order != []
    ensures PopFirst(t) == Table(t.order[1..], t.store - {t.order[0]})
  {
  }

  /** `StageForwardCache`: remembered answers. */
  class StageForwardCache {
    const maxEntries: nat
    var order: seq<Key>
    var store: map<Key, Rows>

    ghost predicate Valid()
      reads this
    {
      maxEntries >= 1 && WellFormed(Contents())
    }

    ghost function Contents(): Table<Key, Rows>
      reads this
    {
      Table(order, store)
    }

    constructor (limit: int)
      ensures Valid() && Contents() == Empty() && maxEntries == if limit > 1 then limit else 1
    {
      maxEntries := if limit > 1 then limit else 1;
      order := [];
      store := map[];
    }

    method Get(key: Key) returns (r: Option<Rows>)
      requires Valid()
      modifies this
      ensures Valid() && Contents() == Touch(old(Contents()), key) && r == Lookup(old(Contents()), key)
    {
      if key !in store {
        return None;
      }
      order := Without(order, key) + [key];
      r := Some(store[key]);
    }

    method Put(key: Key, value: Rows)
      requires Valid()
      modifies this
      ensures Valid() && Contents() == Trim(Assign(old(Contents()), key, value), maxEntries)
    {
      store := store[key := value];
      order := Without(order, key) + [key];
      while |order| > maxEntries
        invariant WellFormed(Contents())
        invariant Trim(Contents(), maxEntries) == Trim(Assign(old(Contents()), key, value), maxEntries)
      {
        store := store - {order[0]};
        order := order[1..];
      }
    }
  }

  /** `StageKVCacheEntry`: one request's live cache, the rows it has taken in. */
  class StageKVCacheEntry {
    const requestId: string
    var seen: Rows

    constructor (requestId: string)
      ensures seen == [] && this.requestId == requestId
    {
      this.requestId := requestId;
      seen := [];
    }
  }

  /** `StageKVCacheManager`: the entries by request id. `Held` is what each has taken in. */
  class StageKVCacheManager {
    const maxEntries: nat
    var order: seq<string>
    var entries: map<string, StageKVCacheEntry>
    ghost var Held: map<string, Rows>

    ghost function Objects(): set<StageKVCacheEntry>
      reads this
    {
      set k | k in entries :: entries[k]
    }

    ghost predicate Valid()
      reads this, Objects()
    {
      && maxEntries >= 1 && WellFormed(Contents()) && entries.Keys == Held.Keys
      && (forall k :: k in entries ==> entries[k].requestId == k && entries[k].seen == Held[k])
    }

    ghost function Contents(): Table<string, Rows>
      reads this
    {
      Table(order, Held)
    }

    constructor (limit: int)
      ensures Valid() && Contents() == Empty() && entries == map[]
      ensures maxEntries == if limit > 1 then limit else 1
    {
      maxEntries := if limit > 1 then limit else 1;
      order := [];
      entries := map[];
      Held := map[];
    }

    method Get(id: string) returns (entry: StageKVCacheEntry?)
      requires Valid()
      modifies this
      ensures Valid() && entries == old(entries) && Contents() == Touch(old(Contents()), id)
      ensures entry == if id in entries then entries[id] else null
    {
      if id !in entries {
        return null;
      }
      order := Without(order, id) + [id];
      entry := entries[id];
    }

    method Reset(id: string)
      requires Valid()
      modifies this
      ensures Valid() && Contents() == Remove(old(Contents()), id)
      ensures entries == old(entries) - {id}
    {
      order := Without(order, id);
      entries := entries - {id};
      Held := Held - {id};
    }

    method GetOrCreate(id: string) returns (entry: StageKVCacheEntry, created: bool)
      requires Valid()
      modifies this
      ensures Valid() && Contents() == Lru.GetOrCreate(old(Contents()), id, [], maxEntries)
      ensures created <==> id !in old(entries)
      ensures id in entries && entry == entries[id]
      ensures if created then fresh(entry) else entry == old(entries)[id]
      ensures forall k :: k in entries && k != id ==> k in old(entries) && entries[k] == old(entries)[k]
    {
      hide Without, Trim, Distinct;
      assert id in entries <==> id in Held;
      if id in entries {
        order := Without(order, id) + [id];
        assert Contents() == Touch(old(Contents()), id);
        return entries[id], false;
      }
      entry := new StageKVCacheEntry(id);
      created := true;
      entries := entries[id := entry];
      Held := Held[id := []];
      order := Without(order, id) + [id];
      assert Contents() == Assign(old(Contents()), id, []);
      EvictIfNeeded();
      assert Contents() == Lru.GetOrCreate(old(Contents()), id, [], maxEntries);
      assert id in Held;
    }

    method EvictIfNeeded()
      requires Valid()
      modifies this
      ensures Valid() && Contents() == Trim(old(Contents()), maxEntries)
      ensures forall k :: k in entries ==> k in old(entries) && entries[k] == old(entries)[k]
    {
      hide Trim, WellFormed, PopFirst;
      while |order| > maxEntries
        invariant Valid() && Trim(Contents(), maxEntries) == Trim(old(Contents()), maxEntries)
        invariant forall k :: k in entries ==> k in old(entries) && entries[k] == old(entries)[k]
      {
        TrimTurn(Contents(), maxEntries);
        PopFirstIs(Contents());
        entries := entries - {order[0]};
        Held := Held - {order[0]};
        order := order[1..];
      }
      TrimTurn(Contents(), maxEntries);
    }

    /** The executor's append to a live entry, under the entry's lock. */
    method Grow(id: string, entry: StageKVCacheEntry, rows: Rows)
      requires Valid() && id in entries && entry == entries[id]
      modifies this`Held, entry
      ensures Valid() && Contents() == Table(old(order), old(Held)[id := old(Held)[id] + rows])
      ensures entry.seen == old(entry.seen) + rows
    {
      entry.seen := entry.seen + rows;
      Held := Held[id := entry.seen];
    }
  }

  /** One stage process: its executor and its two tables. */
  class InferenceStage {
    const stage: Stage
    const forwardCache: StageForwardCache
    const kvCache: StageKVCacheManager

    ghost predicate Ready()
      reads this, forwardCache, kvCache, kvCache.Objects()
    {
      forwardCache.Valid() && kvCache.Valid() && forwardCache.maxEntries == kvCache.maxEntries
    }

    ghost function State(): StageState
      reads this, forwardCache, kvCache
    {
      StageState(kvCache.Contents(), forwardCache.Contents())
    }

    constructor (stage: Stage, cacheEntries: int)
      ensures Ready() && State() == StageState(Empty(), Empty()) && this.stage == stage
    {
      this.stage := stage;
      forwardCache := new StageForwardCache(cacheEntries);
      kvCache := new StageKVCacheManager(cacheEntries);
    }

    method ExecuteWithCachePolicy(req: Request, input: Rows) returns (ran: Result<Step, int>)
      requires Ready()
      modifies kvCache, kvCache.Objects()
      ensures Ready()
      ensures (kvCache.Contents(), ran)
           == RunWithCachePolicy(stage, kvCache.maxEntries, old(kvCache.Contents()), req, input)
    {
      hide Without, Trim, Distinct, Execute, Assign;
      if !UsesKv(req) {
        return Ok(Step(stage.forward(input), 0, 0));
      }
      if !stage.supportsKv {
        return Err(BAD_REQUEST);
      }
      if req.mode == Prefill {
        kvCache.Reset(req.id);
      } else {
        var found := kvCache.Get(req.id);
        if found == null {
          return Err(CONFLICT);
        }
      }
      var entry, created := kvCache.GetOrCreate(req.id);
      var before := entry.seen;
      kvCache.Grow(req.id, entry, input);
      ran := Ok(Step(Execute(stage, before, input, req.position),
                     CacheLength(stage, before), CacheLength(stage, entry.seen)));
    }

    /** `_run_forward_flow` up to the hand-over to the next stage. */
    method RunForwardFlow(req: Request, input: Rows) returns (answer: Result<Rows, int>)
      requires Ready()
      modifies forwardCache, kvCache, kvCache.Objects()
      ensures Ready()
      ensures (State(), answer) == ForwardFlow(stage, kvCache.maxEntries, old(State()), req, input)
    {
      hide Without, Trim, Distinct, Checked, RunWithCachePolicy, Assign;
      var key := KeyOf(req, input);
      var cached: Option<Rows> := None;
      if req.dedupeEnabled {
        cached := forwardCache.Get(key);
      }
      if cached.Some? {
        var length := 0;
        if UsesKv(req) {
          var _ := kvCache.Get(req.id);
          var entry := kvCache.Get(req.id);
          length := if entry == null then 0 else CacheLength(stage, entry.seen);
        }
        return Checked(stage, req, input, Step(cached.value, length, length));
      }
      var ran := ExecuteWithCachePolicy(req, input);
      if ran.Err? {
        return Err(ran.error);
      }
      if req.dedupeEnabled {
        forwardCache.Put(key, ran.value.output);
      }
      answer := Checked(stage, req, input, ran.value);
    }
  }
}
