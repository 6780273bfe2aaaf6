/** Sorting by an order, as the standard library's sort and set_difference do it. */
module Sorting {

  ghost predicate TotalOrder<T(!new)>(le: (T, T) -> bool) {
    && (forall x, y :: le(x, y) || le(y, x))
    && (forall x, y :: le(x, y) && le(y, x) ==> x == y)
    && (forall x, y, z :: le(x, y) && le(y, z) ==> le(x, z))
  }

  ghost predicate SortedBy<T>(le: (T, T) -> bool, s: seq<T>) {
    forall i, j :: 0 <= i < j < |s| ==> le(s[i], s[j])
  }

  function Insert<T>(le: (T, T) -> bool, x: T, s: seq<T>): seq<T> {
    if s == [] then [x]
    else if le(x, s[0]) then [x] + s
    else [s[0]] + Insert(le, x, s[1..])
  }

  function Sort<T>(le: (T, T) -> bool, s: seq<T>): seq<T> {
    if s == [] then [] else Insert(le, s[0], Sort(le, s[1..]))
  }

  lemma SortedCons<T>(le: (T, T) -> bool, x: T, s: seq<T>)
    requires SortedBy(le, s) && forall y :: y in s ==> le(x, y)
    ensures SortedBy(le, [x] + s)
  {
    var r := [x] + s;
    forall i, j | 0 <= i < j < |r| ensures le(r[i], r[j]) {
      assert r[j] == s[j - 1] && s[j - 1] in s;
    }
  }

  lemma {:induction false} InsertElements<T>(le: (T, T) -> bool, x: T, s: seq<T>)
    ensures multiset(Insert(le, x, s)) == multiset(s) + multiset{x}
    ensures forall y :: y in Insert(le, x, s) <==> y == x || y in s
  {
    if s == [] {
    } else {
      assert s == [s[0]] + s[1..];
      if !le(x, s[0]) {
        InsertElements(le, x, s[1..]);
      }
    }
  }

  lemma {:induction false} InsertSorted<T(!new)>(le: (T, T) -> bool, x: T, s: seq<T>)
    requires TotalOrder(le) && SortedBy(le, s)
    ensures SortedBy(le, Insert(le, x, s))
  {
    if s == [] {
    } else {
      assert forall y :: y in s ==> le(s[0], y);
      if le(x, s[0]) {
        SortedCons(le, x, s);
      } else {
        var t := s[1..];
        assert forall y :: y in t ==> y in s;
        InsertSorted(le, x, t);
        InsertElements(le, x, t);
        SortedCons(le, s[0], Insert(le, x, t));
      }
    }
  }

  lemma {:induction false} SortElements<T>(le: (T, T) -> bool, s: seq<T>)
    ensures multiset(Sort(le, s)) == multiset(s) && |Sort(le, s)| == |s|
  {
    if s != [] {
      SortElements(le, s[1..]);
      InsertElements(le, s[0], Sort(le, s[1..]));
      assert s == [s[0]] + s[1..];
    }
    assert |multiset(Sort(le, s))| == |multiset(s)|;
  }

  lemma {:induction false} SortSorts<T(!new)>(le: (T, T) -> bool, s: seq<T>)
    requires TotalOrder(le)
    ensures SortedBy(le, Sort(le, s))
  {
    if s == [] {
    } else {
      SortSorts(le, s[1..]);
      InsertSorted(le, s[0], Sort(le, s[1..]));
    }
  }

  /** What a has more of than b, both sorted, by one merge. */
  function Difference<T(==)>(le: (T, T) -> bool, a: seq<T>, b: seq<T>): seq<T>
    decreases |a| + |b|
  {
    if a == [] || b == [] then a
    else if a[0] == b[0] then Difference(le, a[1..], b[1..])
    else if le(a[0], b[0]) then [a[0]] + Difference(le, a[1..], b)
    else Difference(le, a, b[1..])
  }

  lemma HeadNotIn<T(!new)>(le: (T, T) -> bool, x: T, s: seq<T>)
    requires TotalOrder(le) && SortedBy(le, s) && s != [] && x != s[0] && le(x, s[0])
    ensures x !in s
  {
    assert forall j :: 0 <= j < |s| ==> le(s[0], s[j]);
  }

  lemma SortedTail<T>(le: (T, T) -> bool, s: seq<T>)
    requires SortedBy(le, s) && s != []
    ensures SortedBy(le, s[1..])
    ensures multiset(s) == multiset{s[0]} + multiset(s[1..])
  {
    assert s == [s[0]] + s[1..];
  }

  lemma BagsCancel<T>(x: T, a: multiset<T>, b: multiset<T>)
    ensures (multiset{x} + a) - (multiset{x} + b) == a - b
    ensures x !in b ==> (multiset{x} + a) - b == multiset{x} + (a - b)
    ensures x !in a ==> a - (multiset{x} + b) == a - b
  {}

  lemma {:induction false} DifferenceCounts<T(!new)>(le: (T, T) -> bool, a: seq<T>, b: seq<T>)
    requires TotalOrder(le) && SortedBy(le, a) && SortedBy(le, b)
    ensures multiset(Difference(le, a, b)) == multiset(a) - multiset(b)
    decreases |a| + |b|
  {
    if a != [] && b != [] {
      SortedTail(le, a);
      SortedTail(le, b);
      var x, y, a1, b1 := a[0], b[0], a[1..], b[1..];
      if x == y {
        DifferenceCounts(le, a1, b1);
        BagsCancel(x, multiset(a1), multiset(b1));
      } else if le(x, y) {
        HeadNotIn(le, x, b);
        DifferenceCounts(le, a1, b);
        BagsCancel(x, multiset(a1), multiset(b));
      } else {
        HeadNotIn(le, y, a);
        DifferenceCounts(le, a, b1);
        BagsCancel(y, multiset(a), multiset(b1));
      }
    }
  }
}
