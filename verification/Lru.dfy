/** Python's OrderedDict used as a least-recently-used table: the keys from the
    least to the most recently used, and the value of each. */
module Lru {
  import opened Basics

  datatype Table<K, V> = Table(order: seq<K>, store: map<K, V>)

  ghost predicate WellFormed<K(!new), V>(t: Table<K, V>) {
    Distinct(t.order) && forall k :: k in t.order <==> k in t.store
  }

  function Empty<K(!new), V>(): (t: Table<K, V>)
    ensures WellFormed(t)
  {
    Table([], map[])
  }

  /** The sequence with every occurrence of one key taken out. */
  function Without<K(==,!new)>(s: seq<K>, k: K): (r: seq<K>)
    ensures forall x :: x in r <==> x in s && x != k
    ensures Distinct(s) ==> Distinct(r)
    ensures k !in s ==> r == s
    ensures Distinct(s) && k in s ==> |r| == |s| - 1
  {
    if s == [] then []
    else if s[0] == k then
      var r := Without(s[1..], k);
      r
    else
      var rest := Without(s[1..], k);
      assert s == [s[0]] + s[1..];
      assert Distinct(s) ==> Distinct(s[1..]) && s[0] !in s[1..];
      [s[0]] + rest
  }

  function Lookup<K(!new), V>(t: Table<K, V>, k: K): Option<V> {
    if k in t.store then Some(t.store[k]) else None
  }

  /** `move_to_end` on a key that is present; nothing on an absent one. */
  function Touch<K(!new), V>(t: Table<K, V>, k: K): (r: Table<K, V>)
    ensures WellFormed(t) ==> WellFormed(r)
    ensures r.store == t.store
  {
    if k in t.store then Table(Without(t.order, k) + [k], t.store) else t
  }

  /** Assignment followed by `move_to_end`. */
  function Assign<K(!new), V>(t: Table<K, V>, k: K, v: V): (r: Table<K, V>)
    ensures WellFormed(t) ==> WellFormed(r)
  {
    Table(Without(t.order, k) + [k], t.store[k := v])
  }

  /** `pop(key, None)`. */
  function Remove<K(!new), V>(t: Table<K, V>, k: K): (r: Table<K, V>)
    ensures WellFormed(t) ==> WellFormed(r)
  {
    Table(Without(t.order, k), t.store - {k})
  }

  /** `popitem(last=False)`. */
  function PopFirst<K(!new), V>(t: Table<K, V>): (r: Table<K, V>)
    requires t.order != []
    ensures WellFormed(t) ==> WellFormed(r)
  {
    Table(t.order[1..], t.store - {t.order[0]})
  }

  /** The eviction loop: drop oldest entries until at most `max` are left. */
  function Trim<K(!new), V>(t: Table<K, V>, max: nat): (r: Table<K, V>)
    ensures WellFormed(t) ==> WellFormed(r)
    ensures |r.order| == if |t.order| > max then max else |t.order|
    ensures max >= 1 && t.order != [] ==> r.order[|r.order| - 1] == t.order[|t.order| - 1]
    ensures forall k :: k in r.store ==> k in t.store && r.store[k] == t.store[k]
    decreases |t.order|
  {
    if |t.order| > max then Trim(PopFirst(t), max) else t
  }

  /** Find the entry of `k`, or write `init` as a new one, evicting the oldest entries;
      either way `k` becomes the most recently used key. */
  function GetOrCreate<K(!new), V>(t: Table<K, V>, k: K, init: V, max: nat): (r: Table<K, V>)
    ensures WellFormed(t) ==> WellFormed(r)
    ensures WellFormed(t) && max >= 1 ==> k in r.store && r.store[k] == if k in t.store then t.store[k] else init
  {
    if k in t.store then Touch(t, k)
    else
      var r := Trim(Assign(t, k, init), max);
      assert max >= 1 ==> r.order[|r.order| - 1] == k && k in r.order;
      r
  }

  /** The keys that stand after the last occurrence of `k`. On a table's order these
      are the keys more recently used than `k`; on a log of uses, the keys used since. */
  ghost function Since<K(!new)>(s: seq<K>, k: K): set<K> {
    if s == [] || s[|s| - 1] == k then {}
    else Since(s[..|s| - 1], k) + {s[|s| - 1]}
  }

  lemma {:induction false} SinceAppend<K(!new)>(s: seq<K>, x: K, k: K)
    ensures Since(s + [x], k) == if x == k then {} else Since(s, k) + {x}
  {
    assert (s + [x])[..|s|] == s;
  }

  lemma {:induction false} SinceWithin<K(!new)>(s: seq<K>, k: K)
    ensures k !in Since(s, k) && forall x :: x in Since(s, k) ==> x in s
  {
    if s != [] && s[|s| - 1] != k {
      SinceWithin(s[..|s| - 1], k);
    }
  }

  /** Taking out another key takes it out of the later keys too. */
  lemma {:induction false} SinceWithout<K(!new)>(s: seq<K>, x: K, k: K)
    requires x != k
    ensures Since(Without(s, x), k) == Since(s, k) - {x}
  {
    if s == [] {
    } else {
      var p, l := s[..|s| - 1], s[|s| - 1];
      assert s == p + [l];
      WithoutAppend(p, l, x);
      SinceWithout(p, x, k);
      SinceAppend(p, l, k);
      if l == x {
        assert Without(s, x) == Without(p, x);
      } else {
        assert Without(s, x) == Without(p, x) + [l];
        SinceAppend(Without(p, x), l, k);
      }
    }
  }

  lemma {:induction false} WithoutAppend<K(!new)>(s: seq<K>, l: K, x: K)
    ensures Without(s + [l], x) == Without(s, x) + if l == x then [] else [l]
  {
    if s == [] {
      assert [l][1..] == [];
    } else {
      assert (s + [l])[1..] == s[1..] + [l];
      WithoutAppend(s[1..], l, x);
    }
  }

  /** Dropping the oldest key changes nothing for the others. */
  lemma {:induction false} SinceDropFirst<K(!new)>(s: seq<K>, k: K)
    requires s != [] && Distinct(s) && k in s[1..]
    ensures Since(s[1..], k) == Since(s, k)
  {
    hide Since;
    var p, l := s[..|s| - 1], s[|s| - 1];
    assert s == p + [l] && s[1..] == p[1..] + [l];
    SinceAppend(p, l, k);
    SinceAppend(p[1..], l, k);
    if l != k {
      assert k in p[1..];
      SinceDropFirst(p, k);
    }
  }

  lemma {:induction false} SinceFirstElements<K(!new)>(s: seq<K>)
    requires s != [] && Distinct(s)
    ensures Since(s, s[0]) == Elements(s[1..])
  {
    if |s| == 1 {
    } else {
      var p := s[..|s| - 1];
      SinceFirstElements(p);
      assert s[1..] == p[1..] + [s[|s| - 1]];
    }
  }

  /** Everything else is more recent than the oldest key. */
  lemma SinceFirst<K(!new)>(s: seq<K>)
    requires s != [] && Distinct(s)
    ensures |Since(s, s[0])| == |s| - 1
  {
    SinceFirstElements(s);
    DistinctCount(s[1..]);
  }

  /** One turn of the eviction loop. */
  lemma TrimTurn<K(!new), V>(t: Table<K, V>, max: nat)
    ensures Trim(t, max) == if |t.order| > max then Trim(PopFirst(t), max) else t
  {
  }

  /** A table that is trimmed by at most one loses its oldest key only. */
  lemma TrimByOne<K(!new), V>(t: Table<K, V>, max: nat)
    requires WellFormed(t) && |t.order| <= max + 1
    ensures Trim(t, max) == if |t.order| == max + 1 then PopFirst(t) else t
  {
  }

  /** What one use of `x` does to the recency of another key that survives it. */
  lemma SinceTouched<K(!new)>(s: seq<K>, x: K, k: K)
    requires x != k
    ensures Since(Without(s, x) + [x], k) == Since(s, k) + {x}
  {
    SinceAppend(Without(s, x), x, k);
    SinceWithout(s, x, k);
  }

  // ----- A bounded table over a whole history of gets and puts -----

  datatype Op<K, V> = Get(key: K) | Put(key: K, value: V)

  function Apply<K(!new), V>(t: Table<K, V>, op: Op<K, V>, max: nat): (r: Table<K, V>) {
    match op
    case Get(k) => Touch(t, k)
    case Put(k, v) => Trim(Assign(t, k, v), max)
  }

  function Run<K(!new), V>(ops: seq<Op<K, V>>, max: nat): (t: Table<K, V>) {
    if ops == [] then Empty() else Apply(Run(ops[..|ops| - 1], max), ops[|ops| - 1], max)
  }

  /** The log of uses: every put, and every get that found its key. */
  ghost function Uses<K(!new), V>(ops: seq<Op<K, V>>, max: nat): seq<K> {
    if ops == [] then []
    else
      var before, op := ops[..|ops| - 1], ops[|ops| - 1];
      Uses(before, max) + if op.Put? || op.key in Run(before, max).store then [op.key] else []
  }

  /** The value of the last put of a key: the unbounded map's answer. */
  ghost function LastPut<K(!new), V>(ops: seq<Op<K, V>>, k: K): Option<V> {
    if ops == [] then None
    else if ops[|ops| - 1].Put? && ops[|ops| - 1].key == k then Some(ops[|ops| - 1].value)
    else LastPut(ops[..|ops| - 1], k)
  }

  /** How the table and the log of uses stand to each other. */
  ghost predicate Tracks<K(!new), V>(t: Table<K, V>, uses: seq<K>, max: nat) {
    && WellFormed(t) && |t.order| <= max
    && (forall k :: k in t.store ==> k in uses && Since(t.order, k) == Since(uses, k))
    && (forall k :: k in uses && k !in t.store ==> |Since(uses, k)| >= max)
  }

  lemma SubsetCount<T>(a: set<T>, b: set<T>)
    requires a <= b
    ensures |a| <= |b|
  {
    if a != {} {
      var x :| x in a;
      SubsetCount(a - {x}, b - {x});
    }
  }

  /** After a use of `x` a surviving key stands as recently in the table as in the log. */
  lemma SurvivorTracks<K(!new), V>(t: Table<K, V>, u: Table<K, V>, uses: seq<K>, x: K, max: nat, k: K)
    requires max >= 1 && Tracks(t, uses, max)
    requires WellFormed(u) && u.order == Without(t.order, x) + [x] && |u.order| <= max + 1
    requires k in Trim(u, max).store
    ensures k in uses + [x] && Since(Trim(u, max).order, k) == Since(uses + [x], k)
  {
    hide Since, Without;
    TrimByOne(u, max);
    SinceAppend(uses, x, k);
    SinceAppend(Without(t.order, x), x, k);
    if k != x {
      assert k in u.order && k in t.store;
      SinceTouched(t.order, x, k);
    }
    if |u.order| == max + 1 {
      SinceDropFirst(u.order, k);
    }
  }

  /** A used key that is gone has at least `max` more recent ones in the log. */
  lemma DroppedIsOld<K(!new), V>(t: Table<K, V>, u: Table<K, V>, uses: seq<K>, x: K, max: nat, k: K)
    requires max >= 1 && Tracks(t, uses, max)
    requires WellFormed(u) && u.order == Without(t.order, x) + [x] && |u.order| <= max + 1
    requires k in uses + [x] && k !in Trim(u, max).store
    ensures |Since(uses + [x], k)| >= max
  {
    hide Since, Without;
    var r := Trim(u, max);
    TrimByOne(u, max);
    SinceAppend(uses, x, k);
    assert x in r.store by { assert u.order[|u.order| - 1] == x; assert x in r.order; }
    assert k != x;
    if k in t.store {
      assert k in u.order && u.order[0] == k;
      SinceFirst(u.order);
      SinceTouched(t.order, x, k);
    } else {
      SubsetCount(Since(uses, k), Since(uses + [x], k));
    }
  }

  /** One use of `x`, present or freshly written, keeps a table in step with the log. */
  lemma UseTracks<K(!new), V>(t: Table<K, V>, u: Table<K, V>, uses: seq<K>, x: K, max: nat)
    requires max >= 1 && Tracks(t, uses, max)
    requires WellFormed(u) && u.order == Without(t.order, x) + [x]
    ensures |u.order| <= max + 1
    ensures Tracks(Trim(u, max), uses + [x], max)
  {
    TrimByOne(u, max);
    forall k | k in Trim(u, max).store
      ensures k in uses + [x] && Since(Trim(u, max).order, k) == Since(uses + [x], k)
    {
      SurvivorTracks(t, u, uses, x, max, k);
    }
    forall k | k in uses + [x] && k !in Trim(u, max).store ensures |Since(uses + [x], k)| >= max {
      DroppedIsOld(t, u, uses, x, max, k);
    }
  }

  /** A table in step with the log holds exactly the keys with fewer than `max` other keys
      used since their own last use. */
  lemma TracksExactly<K(!new), V>(t: Table<K, V>, uses: seq<K>, max: nat, k: K)
    requires Tracks(t, uses, max)
    ensures k in t.store <==> k in uses && |Since(uses, k)| < max
  {
    DistinctCount(t.order);
    assert Elements(t.order) == t.store.Keys;
    if k in t.store {
      SinceWithin(t.order, k);
      SubsetCount(Since(t.order, k), Elements(t.order) - {k});
    }
  }

  lemma ApplyTracks<K(!new), V(!new)>(t: Table<K, V>, op: Op<K, V>, uses: seq<K>, max: nat)
    requires max >= 1 && Tracks(t, uses, max)
    ensures Tracks(Apply(t, op, max), uses + if op.Put? || op.key in t.store then [op.key] else [], max)
  {
    if op.Put? {
      UseTracks(t, Assign(t, op.key, op.value), uses, op.key, max);
    } else if op.key in t.store {
      UseTracks(t, Touch(t, op.key), uses, op.key, max);
      assert Trim(Touch(t, op.key), max) == Touch(t, op.key);
    } else {
      assert uses + [] == uses;
    }
  }

  lemma {:induction false} RunTracks<K(!new), V(!new)>(ops: seq<Op<K, V>>, max: nat)
    requires max >= 1
    ensures Tracks(Run(ops, max), Uses(ops, max), max)
  {
    if ops == [] {
    } else {
      RunTracks(ops[..|ops| - 1], max);
      ApplyTracks(Run(ops[..|ops| - 1], max), ops[|ops| - 1], Uses(ops[..|ops| - 1], max), max);
    }
  }

  lemma {:induction false} RunValues<K(!new), V(!new)>(ops: seq<Op<K, V>>, max: nat)
    ensures forall k :: k in Run(ops, max).store ==> LastPut(ops, k) == Some(Run(ops, max).store[k])
  {
    if ops == [] {
    } else {
      RunValues(ops[..|ops| - 1], max);
    }
  }

  /** After any gets and puts the table holds at most `max` keys; they are exactly the
      keys with fewer than `max` other keys used since their own last use, each with
      the value an unbounded map would hold. */
  lemma BoundedCacheIsRecentPartOfMap<K(!new), V(!new)>(ops: seq<Op<K, V>>, max: nat, k: K)
    requires max >= 1
    ensures |Run(ops, max).store| <= max
    ensures k in Run(ops, max).store <==> k in Uses(ops, max) && |Since(Uses(ops, max), k)| < max
    ensures Lookup(Run(ops, max), k).Some? ==> Lookup(Run(ops, max), k) == LastPut(ops, k)
  {
    RunTracks(ops, max);
    RunValues(ops, max);
    TracksExactly(Run(ops, max), Uses(ops, max), max, k);
    DistinctCount(Run(ops, max).order);
    assert Elements(Run(ops, max).order) == Run(ops, max).store.Keys;
  }
}
