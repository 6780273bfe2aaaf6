/** Activation precision: the int8 payload, over the reals. */
module Quantise {
  import opened Basics

  /** torch.round: to the nearest integer, halves to the even one. */
  function RoundEven(x: real): int {
    var low := x.Floor;
    var rest := x - low as real;
    if rest < 0.5 then low
    else if rest > 0.5 then low + 1
    else if low % 2 == 0 then low else low + 1
  }

  function Abs(x: real): real { if x < 0.0 then -x else x }

  function MaxAbs(t: seq<real>): (m: real)
    ensures m >= 0.0
  {
    if t == [] then 0.0
    else
      var m := MaxAbs(t[1..]);
      if Abs(t[0]) > m then Abs(t[0]) else m
  }

  const FLOOR_SCALE := 0.00000001

  function ScaleOf(t: seq<real>): (s: real)
    ensures s >= FLOOR_SCALE
  {
    var s := MaxAbs(t) / 127.0;
    if s > FLOOR_SCALE then s else FLOOR_SCALE
  }

  function Clamp(q: int): int {
    if q < -127 then -127 else if q > 127 then 127 else q
  }

  function Times(q: real, scale: real): real { q * scale }

  function Over(x: real, scale: real): real
    requires scale > 0.0
  {
    x / scale
  }

  function Code(x: real, scale: real): int
    requires scale > 0.0
  {
    Clamp(RoundEven(Over(x, scale)))
  }

  datatype Mode = Fp32 | Fp16 | Bf16 | Int8 | Unknown

  datatype Payload = Untouched(values: seq<real>) | Half(values: seq<real>) | Codes(codes: seq<int>, scale: real)

  function CodesOf(t: seq<real>, scale: real): seq<int>
    requires scale > 0.0
  {
    seq(|t|, i requires 0 <= i < |t| => Code(t[i], scale))
  }

  /** A floating-point tensor prepared for sending. The casts to 16 bits are the parameters.
      An empty tensor has no maximum: int8 raises. */
  function PrepareTensor(t: seq<real>, mode: Mode, fp16: real -> real, bf16: real -> real): Option<Payload> {
    match mode
    case Fp32 => Some(Untouched(t))
    case Fp16 => Some(Half(Map(t, fp16)))
    case Bf16 => Some(Half(Map(t, bf16)))
    case Int8 => if t == [] then None else Some(Codes(CodesOf(t, ScaleOf(t)), ScaleOf(t)))
    case Unknown => Some(Untouched(t))
  }

  function Map(t: seq<real>, f: real -> real): seq<real> {
    seq(|t|, i requires 0 <= i < |t| => f(t[i]))
  }

  function RestoreTensor(p: Payload): seq<real> {
    match p
    case Untouched(values) => values
    case Half(values) => values
    case Codes(codes, scale) => seq(|codes|, i requires 0 <= i < |codes| => Times(codes[i] as real, scale))
  }

  lemma RoundNear(x: real)
    ensures -0.5 <= RoundEven(x) as real - x <= 0.5
  {}

  lemma RoundMonotone(x: real, y: real)
    requires x <= y
    ensures RoundEven(x) <= RoundEven(y)
  {
    assert x.Floor <= y.Floor;
  }

  lemma RoundInteger(i: int)
    ensures RoundEven(i as real) == i
  {}

  lemma TimesMonotone(a: real, b: real, s: real)
    requires a <= b && s >= 0.0
    ensures Times(a, s) <= Times(b, s)
  {}

  lemma TimesDifference(a: real, b: real, s: real)
    ensures Times(a, s) - Times(b, s) == Times(a - b, s)
    ensures Times(0.5, s) == s / 2.0 && Times(-0.5, s) == -s / 2.0
  {}

  lemma OverTimes(x: real, s: real)
    requires s > 0.0
    ensures Times(Over(x, s), s) == x && Over(Times(x, s), s) == x
  {
    assert (x * s) / s == x;
  }

  lemma OverMonotone(x: real, y: real, s: real)
    requires s > 0.0 && x <= y
    ensures Over(x, s) <= Over(y, s)
  {}

  lemma {:induction false} MaxAbsBounds(t: seq<real>, i: nat)
    requires i < |t|
    ensures Abs(t[i]) <= MaxAbs(t)
  {
    if i == 0 {
    } else {
      MaxAbsBounds(t[1..], i - 1);
      assert t[1..][i - 1] == t[i];
    }
  }

  lemma {:induction false} MaxAbsReached(t: seq<real>) returns (i: nat)
    requires t != []
    ensures i < |t| && Abs(t[i]) == MaxAbs(t)
  {
    if Abs(t[0]) > MaxAbs(t[1..]) || |t| == 1 {
      i := 0;
      assert |t| == 1 ==> MaxAbs(t[1..]) == 0.0;
    } else {
      var j := MaxAbsReached(t[1..]);
      i := j + 1;
    }
  }

  lemma MaxWithinScale(t: seq<real>)
    ensures MaxAbs(t) <= Times(127.0, ScaleOf(t)) && Times(-127.0, ScaleOf(t)) == -Times(127.0, ScaleOf(t))
  {
    var m, s := MaxAbs(t), ScaleOf(t);
    assert m / 127.0 <= s;
  }

  /** Every element's quotient is within the codes' range. */
  lemma QuotientInRange(t: seq<real>, i: nat)
    requires i < |t|
    ensures -127.0 <= Over(t[i], ScaleOf(t)) <= 127.0
  {
    var s := ScaleOf(t);
    MaxAbsBounds(t, i);
    MaxWithinScale(t);
    hide Times, Over, ScaleOf, MaxAbs;
    OverMonotone(t[i], Times(127.0, s), s);
    OverMonotone(Times(-127.0, s), t[i], s);
    OverTimes(127.0, s);
    OverTimes(-127.0, s);
  }

  /** The clamp never bites. */
  lemma ClampNeverBites(t: seq<real>, i: nat)
    requires i < |t|
    ensures Code(t[i], ScaleOf(t)) == RoundEven(Over(t[i], ScaleOf(t)))
  {
    QuotientInRange(t, i);
    RoundInteger(127);
    RoundInteger(-127);
    hide RoundEven, ScaleOf, Over;
    RoundMonotone(-127.0, Over(t[i], ScaleOf(t)));
    RoundMonotone(Over(t[i], ScaleOf(t)), 127.0);
  }

  /** Restoring errs by at most half a scale per element. */
  lemma RestoreErrsByHalfScale(t: seq<real>, fp16: real -> real, bf16: real -> real, i: nat)
    requires i < |t|
    ensures PrepareTensor(t, Int8, fp16, bf16).Some?
    ensures var restored := RestoreTensor(PrepareTensor(t, Int8, fp16, bf16).value);
      |restored| == |t| && -ScaleOf(t) / 2.0 <= restored[i] - t[i] <= ScaleOf(t) / 2.0
  {
    hide RoundEven, ScaleOf, Times, Over, Code;
    var s := ScaleOf(t);
    var u := Over(t[i], s);
    var q := RoundEven(u) as real;
    ClampNeverBites(t, i);
    RoundNear(u);
    OverTimes(t[i], s);
    TimesMonotone(q - u, 0.5, s);
    TimesMonotone(-0.5, q - u, s);
    TimesDifference(q, u, s);
  }

  /** The order of the elements survives. */
  lemma RestoreKeepsOrder(t: seq<real>, fp16: real -> real, bf16: real -> real, i: nat, j: nat)
    requires i < |t| && j < |t| && t[i] <= t[j]
    ensures PrepareTensor(t, Int8, fp16, bf16).Some?
    ensures var restored := RestoreTensor(PrepareTensor(t, Int8, fp16, bf16).value);
      |restored| == |t| && restored[i] <= restored[j]
  {
    hide RoundEven, ScaleOf, Times, Over, Code;
    var s := ScaleOf(t);
    ClampNeverBites(t, i);
    ClampNeverBites(t, j);
    OverMonotone(t[i], t[j], s);
    RoundMonotone(Over(t[i], s), Over(t[j], s));
    TimesMonotone(RoundEven(Over(t[i], s)) as real, RoundEven(Over(t[j], s)) as real, s);
  }

  // ---- a second hop changes nothing ----

  function Restored(t: seq<real>): seq<real> {
    seq(|t|, i requires 0 <= i < |t| => Times(Code(t[i], ScaleOf(t)) as real, ScaleOf(t)))
  }

  lemma {:induction false} MaxAbsWithin(t: seq<real>, m: real)
    requires m >= 0.0 && forall i :: 0 <= i < |t| ==> Abs(t[i]) <= m
    ensures MaxAbs(t) <= m
  {
    if t == [] {
    } else {
      MaxAbsWithin(t[1..], m);
    }
  }

  lemma CodeInRange(x: real, s: real)
    requires s > 0.0
    ensures -127 <= Code(x, s) <= 127
  {}

  lemma TimesBound(q: int, s: real)
    requires -127 <= q <= 127 && s > 0.0
    ensures Abs(Times(q as real, s)) <= Times(127.0, s) && Times(127.0, s) >= 0.0
  {
    TimesMonotone(q as real, 127.0, s);
    TimesMonotone(-127.0, q as real, s);
    TimesMonotone(0.0, 127.0, s);
    assert Times(-127.0, s) == -Times(127.0, s) && Times(0.0, s) == 0.0;
    hide Times;
  }

  /** The largest restored element decides the same scale again. */
  lemma ScaleSettles(t: seq<real>)
    requires t != []
    ensures ScaleOf(Restored(t)) == ScaleOf(t)
  {
    var s, r := ScaleOf(t), Restored(t);
    forall i | 0 <= i < |r| ensures Abs(r[i]) <= Times(127.0, s) {
      CodeInRange(t[i], s);
      TimesBound(Code(t[i], s), s);
    }
    TimesBound(127, s);
    MaxAbsWithin(r, Times(127.0, s));
    if MaxAbs(t) / 127.0 > FLOOR_SCALE {
      var i := MaxAbsReached(t);
      LargestCode(t, i);
      MaxAbsBounds(r, i);
      MaxFitsScale(t);
      assert MaxAbs(r) == MaxAbs(t);
    } else {
      assert s == FLOOR_SCALE;
      assert MaxAbs(r) / 127.0 <= FLOOR_SCALE by { FloorBound(MaxAbs(r)); }
    }
  }

  lemma FloorBound(m: real)
    requires m <= Times(127.0, FLOOR_SCALE)
    ensures m / 127.0 <= FLOOR_SCALE
  {}

  lemma MaxFitsScale(t: seq<real>)
    requires MaxAbs(t) / 127.0 > FLOOR_SCALE
    ensures Times(127.0, ScaleOf(t)) == MaxAbs(t)
  {}

  /** Above the floor the largest element gets the largest code and is restored exactly. */
  lemma LargestCode(t: seq<real>, i: nat)
    requires i < |t| && Abs(t[i]) == MaxAbs(t) && MaxAbs(t) / 127.0 > FLOOR_SCALE
    ensures |Restored(t)| == |t| && Restored(t)[i] == t[i]
  {
    var s := ScaleOf(t);
    MaxFitsScale(t);
    OverTimes(127.0, s);
    OverTimes(-127.0, s);
    assert Times(-127.0, s) == -Times(127.0, s);
    RoundInteger(127);
    RoundInteger(-127);
    hide RoundEven, ScaleOf, Times, Over, MaxAbs;
    assert t[i] == Times(127.0, s) || t[i] == Times(-127.0, s);
  }

  /** Quantising what was restored gives the same codes and scale, so further hops add no
      error. */
  lemma SecondHopChangesNothing(t: seq<real>, fp16: real -> real, bf16: real -> real)
    requires t != []
    ensures PrepareTensor(t, Int8, fp16, bf16).Some?
    ensures PrepareTensor(RestoreTensor(PrepareTensor(t, Int8, fp16, bf16).value), Int8, fp16, bf16)
         == PrepareTensor(t, Int8, fp16, bf16)
  {
    var s, r := ScaleOf(t), Restored(t);
    assert RestoreTensor(PrepareTensor(t, Int8, fp16, bf16).value) == r;
    ScaleSettles(t);
    hide ScaleOf, RoundEven, Times, Over;
    forall i | 0 <= i < |t| ensures Code(r[i], s) == Code(t[i], s) {
      CodeInRange(t[i], s);
      OverTimes(Code(t[i], s) as real, s);
      RoundInteger(Code(t[i], s));
    }
    assert CodesOf(r, s) == CodesOf(t, s);
  }

  // ----- Rows sent with others -----

  predicate MultipleBy(x: real, scale: real, n: int) {
    x == Times(n as real, scale)
  }

  /** A whole multiple of the scale. */
  ghost predicate Multiple(x: real, scale: real) {
    exists n: int :: MultipleBy(x, scale, n)
  }

  lemma {:induction false} MaxAbsJoins(t: seq<real>, more: seq<real>)
    ensures MaxAbs(t + more) == if MaxAbs(t) > MaxAbs(more) then MaxAbs(t) else MaxAbs(more)
  {
    if t == [] {
      assert t + more == more;
    } else {
      assert (t + more)[1..] == t[1..] + more;
      MaxAbsJoins(t[1..], more);
    }
  }

  lemma JointScaleIsLarger(t: seq<real>, more: seq<real>)
    ensures ScaleOf(t + more) == if ScaleOf(t) > ScaleOf(more) then ScaleOf(t) else ScaleOf(more)
  {
    MaxAbsJoins(t, more);
  }

  /** The integer nearest to `x`, unless `x` is half-way. */
  lemma RoundTo(x: real, n: int)
    requires -0.5 < x - n as real < 0.5
    ensures RoundEven(x) == n
  {
    RoundNear(x);
  }

  lemma OverSum(x: real, y: real, s: real)
    requires s > 0.0
    ensures Over(x, s) - Over(y, s) == Over(x - y, s)
  {}

  lemma OverSmall(x: real, s: real)
    requires s > 0.0 && -s / 2.0 < x < s / 2.0
    ensures -0.5 < Over(x, s) < 0.5
  {
    OverTimes(0.5, s);
    OverTimes(-0.5, s);
    TimesDifference(0.5, -0.5, s);
    if Over(x, s) >= 0.5 {
      TimesMonotone(0.5, Over(x, s), s);
      OverTimes(x, s);
    } else if Over(x, s) <= -0.5 {
      TimesMonotone(Over(x, s), -0.5, s);
      OverTimes(x, s);
    }
  }

  lemma RestoredAt(t: seq<real>, i: nat)
    requires i < |t|
    ensures |Restored(t)| == |t| && Restored(t)[i] == Times(RoundEven(Over(t[i], ScaleOf(t))) as real, ScaleOf(t))
    ensures -ScaleOf(t) / 2.0 <= Restored(t)[i] - t[i] <= ScaleOf(t) / 2.0
  {
    hide RoundEven, ScaleOf, Times, Over, Code;
    ClampNeverBites(t, i);
    RestoreErrsByHalfScale(t, x => x, x => x, i);
    RestoredIsRestore(t, x => x, x => x);
  }

  lemma RestoredIsRestore(t: seq<real>, fp16: real -> real, bf16: real -> real)
    requires t != []
    ensures RestoreTensor(PrepareTensor(t, Int8, fp16, bf16).value) == Restored(t)
  {
    hide Times, Code, ScaleOf;
  }

  lemma RestoredIsMultiple(t: seq<real>, i: nat)
    requires i < |t|
    ensures |Restored(t)| == |t| && Multiple(Restored(t)[i], ScaleOf(t))
  {
    hide ScaleOf, Code, Times;
    assert MultipleBy(Restored(t)[i], ScaleOf(t), Code(t[i], ScaleOf(t)));
  }

  /** An element is restored with others as it is alone exactly when what it is restored to
      alone is a whole multiple of the joint scale. */
  lemma ElementRestoredAlikeExactly(t: seq<real>, more: seq<real>, i: nat)
    requires i < |t|
    ensures |Restored(t)| == |t| && |Restored(t + more)| == |t + more|
    ensures Restored(t + more)[i] == Restored(t)[i] <==> Multiple(Restored(t)[i], ScaleOf(t + more))
  {
    var all := t + more;
    var s, joint, alone := ScaleOf(t), ScaleOf(all), Restored(t)[i];
    assert all[i] == t[i];
    RestoredAt(t, i);
    RestoredAt(all, i);
    RestoredIsMultiple(all, i);
    JointScaleIsLarger(t, more);
    hide Restored, ScaleOf, RoundEven, Times, Over;
    if Multiple(alone, joint) {
      var n: int :| MultipleBy(alone, joint, n);
      if s < joint {
        OverTimes(n as real, joint);
        OverSum(t[i], alone, joint);
        OverSmall(t[i] - alone, joint);
        RoundTo(Over(t[i], joint), n);
      } else {
        assert s == joint;
      }
    }
  }

  /** A tensor's rows are restored with others as they are alone exactly when each element
      they are restored to alone is a whole multiple of the joint scale. */
  lemma RestoredAlikeExactly(t: seq<real>, more: seq<real>)
    ensures |Restored(t + more)| >= |t|
    ensures Restored(t + more)[..|t|] == Restored(t) <==>
      forall i :: 0 <= i < |t| ==> Multiple(Restored(t)[i], ScaleOf(t + more))
  {
    hide ScaleOf, Times, Multiple, Code;
    forall i | 0 <= i < |t|
      ensures Restored(t + more)[i] == Restored(t)[i] <==> Multiple(Restored(t)[i], ScaleOf(t + more))
    {
      ElementRestoredAlikeExactly(t, more, i);
    }
    var front := Restored(t + more)[..|t|];
    assert forall i :: 0 <= i < |t| ==> front[i] == Restored(t + more)[i];
    assert front == Restored(t) <==> forall i :: 0 <= i < |t| ==> front[i] == Restored(t)[i];
  }

  // ----- The same in terms of the codes, above the floor -----

  lemma NoDivisor(n: nat)
    requires 1 < n < 127
    ensures 127 % n != 0
  {
  }

  /** 127 is a prime: it divides a product with a smaller factor only by dividing the other. */
  lemma {:induction false} PrimeDivides(n: nat, q: int, k: int)
    requires 0 < n < 127 && q * n == 127 * k
    ensures q % 127 == 0
    decreases n
  {
    if n == 1 {
    } else {
      var d, r := 127 / n, 127 % n;
      NoDivisor(n);
      assert 127 == d * n + r;
      assert q * r == q * 127 - d * (q * n);
      assert q * r == 127 * (q - d * k);
      PrimeDivides(r, q, q - d * k);
    }
  }

  /** Nothing, or as large as the largest. */
  predicate Extreme(code: int) {
    code == 0 || code == 127 || code == -127
  }

  /** A multiple of a 127th of `n` scales is a whole number of scales, for n below 127, only at
      the extremes. */
  lemma MultipleIsExtreme(q: int, s: real, n: int, joint: real)
    requires -127 <= q <= 127 && 0 < n < 127 && joint > 0.0 && Times(127.0, s) == Times(n as real, joint)
    ensures Multiple(Times(q as real, s), joint) <==> Extreme(q)
  {
    if Multiple(Times(q as real, s), joint) {
      var c: int :| MultipleBy(Times(q as real, s), joint, c);
      SameCount(q, s, n, joint, c);
      PrimeDivides(n, q, c);
    }
    if Extreme(q) {
      assert MultipleBy(Times(0.0, s), joint, 0);
      assert MultipleBy(Times(127.0, s), joint, n);
      assert Times(-127.0, s) == -Times(127.0, s);
      assert MultipleBy(Times(-127.0, s), joint, -n);
    }
  }

  lemma SameCount(q: int, s: real, n: int, joint: real, c: int)
    requires joint > 0.0 && Times(127.0, s) == Times(n as real, joint) && Times(q as real, s) == Times(c as real, joint)
    ensures q * n == 127 * c
  {
    assert q as real * Times(127.0, s) == 127.0 * Times(q as real, s);
    assert Times(q as real * n as real, joint) == Times(127.0 * c as real, joint);
    OverTimes(q as real * n as real, joint);
    OverTimes(127.0 * c as real, joint);
    assert (q * n) as real == q as real * n as real && (127 * c) as real == 127.0 * c as real;
  }

  /** The largest element above the floor is a whole number of larger scales, fewer than 127. */
  lemma FewerScales(t: seq<real>, joint: real, n: int)
    requires MaxAbs(t) / 127.0 > FLOOR_SCALE && joint > ScaleOf(t) && MaxAbs(t) == Times(n as real, joint)
    ensures 0 < n < 127
  {
    if n <= 0 {
      TimesMonotone(n as real, 0.0, joint);
    } else if n >= 127 {
      TimesMonotone(127.0, n as real, joint);
      MaxFitsScale(t);
    }
  }

  /** Above the floor the rows of a tensor are restored with others as they are alone exactly
      when the others do not enlarge the scale, or the largest element is a whole multiple
      of the joint scale and every code of the tensor alone is 0, 127 or -127. */
  lemma RestoredAlikeAboveFloor(t: seq<real>, more: seq<real>)
    requires t != [] && MaxAbs(t) / 127.0 > FLOOR_SCALE
    ensures |Restored(t + more)| >= |t|
    ensures Restored(t + more)[..|t|] == Restored(t) <==>
      || MaxAbs(more) <= MaxAbs(t)
      || (Multiple(MaxAbs(t), ScaleOf(t + more)) && forall i :: 0 <= i < |t| ==> Extreme(Code(t[i], ScaleOf(t))))
  {
    var s, joint := ScaleOf(t), ScaleOf(t + more);
    RestoredAlikeExactly(t, more);
    ScalesCompare(t, more);
    if MaxAbs(more) <= MaxAbs(t) {
      forall i | 0 <= i < |t| ensures Multiple(Restored(t)[i], joint) {
        RestoredIsMultiple(t, i);
      }
    } else {
      MaxIsMultiple(t, joint);
      if Multiple(MaxAbs(t), joint) {
        var n: int :| MultipleBy(MaxAbs(t), joint, n);
        FewerScales(t, joint, n);
        MaxFitsScale(t);
        forall i | 0 <= i < |t| ensures Multiple(Restored(t)[i], joint) <==> Extreme(Code(t[i], s)) {
          CodeInRange(t[i], s);
          MultipleIsExtreme(Code(t[i], s), s, n, joint);
        }
      }
    }
  }

  lemma ScalesCompare(t: seq<real>, more: seq<real>)
    requires MaxAbs(t) / 127.0 > FLOOR_SCALE
    ensures MaxAbs(more) <= MaxAbs(t) ==> ScaleOf(t + more) == ScaleOf(t)
    ensures MaxAbs(more) > MaxAbs(t) ==> ScaleOf(t + more) > ScaleOf(t)
  {
    JointScaleIsLarger(t, more);
  }

  lemma AbsIsMultiple(x: real, joint: real)
    requires Multiple(x, joint)
    ensures Multiple(Abs(x), joint)
  {
    var n: int :| MultipleBy(x, joint, n);
    assert MultipleBy(-x, joint, -n);
  }

  /** If all elements are restored to multiples, so is the largest, which is restored exactly. */
  lemma MaxIsMultiple(t: seq<real>, joint: real)
    requires t != [] && MaxAbs(t) / 127.0 > FLOOR_SCALE
    ensures |Restored(t)| == |t|
    ensures (forall i :: 0 <= i < |t| ==> Multiple(Restored(t)[i], joint)) ==> Multiple(MaxAbs(t), joint)
  {
    hide *;
    var i := MaxAbsReached(t);
    LargestCode(t, i);
    if Multiple(Restored(t)[i], joint) {
      AbsIsMultiple(t[i], joint);
    }
  }

  /** The scale is one for the whole tensor, so a row sent with other rows is restored to
      something else than the row sent alone: int8 payloads are not row by row. */
  lemma Int8IsNotRowByRow()
    ensures exists t: seq<real>, more: seq<real> :: |t| == 1 && Restored(t + more)[..1] != Restored(t)
  {
    var t, more := [1.0], [2.0];
    var both := t + more;
    assert both[1..] == [2.0] && both[1..][1..] == [] && t[1..] == [];
    assert MaxAbs(t) == 1.0 && MaxAbs(both) == 2.0;
    assert RoundEven(Over(1.0, 2.0 / 127.0)) == 64 && RoundEven(Over(1.0, 1.0 / 127.0)) == 127;
    assert Restored(both)[..1][0] == Restored(both)[0];
  }

  // ----- What a payload is, in numbers -----

  /** The nearest integer, and of two nearest ones the even one. */
  predicate NearestEven(x: real, n: int) {
    -0.5 < x - n as real < 0.5 || (n % 2 == 0 && (x - n as real == 0.5 || x - n as real == -0.5))
  }

  lemma RoundIsNearestEven(x: real, n: int)
    ensures RoundEven(x) == n <==> NearestEven(x, n)
  {
    var low := x.Floor;
    assert low as real <= x < low as real + 1.0;
    if n < low {
      assert n as real <= low as real - 1.0;
    } else if n > low + 1 {
      assert n as real >= low as real + 2.0;
    }
  }

  /** The codes of an int8 payload: each is the integer nearest to the element in scales, the
      even one half-way; the largest element is 127 scales, unless that makes the scale
      smaller than 0.00000001. */
  lemma Int8Payload(t: seq<real>, fp16: real -> real, bf16: real -> real)
    ensures PrepareTensor(t, Int8, fp16, bf16).None? <==> t == []
    ensures t != [] ==>
      var p := PrepareTensor(t, Int8, fp16, bf16).value;
      && p.Codes? && |p.codes| == |t| && p.scale > 0.0
      && (if MaxAbs(t) > 0.00000127 then p.scale * 127.0 == MaxAbs(t) else p.scale == 0.00000001)
      && forall i, n: int {:trigger NearestEven(Over(t[i], p.scale), n)} :: 0 <= i < |t| ==>
           (p.codes[i] == n <==> NearestEven(Over(t[i], p.scale), n))
  {
    if t != [] {
      ScaleInNumbers(t);
      hide RoundEven, ScaleOf, Over, MaxAbs, NearestEven;
      var p := PrepareTensor(t, Int8, fp16, bf16).value;
      forall i, n: int {:trigger NearestEven(Over(t[i], p.scale), n)} | 0 <= i < |t|
        ensures p.codes[i] == n <==> NearestEven(Over(t[i], p.scale), n)
      {
        ClampNeverBites(t, i);
        RoundIsNearestEven(Over(t[i], p.scale), n);
      }
    }
  }

  lemma ScaleInNumbers(t: seq<real>)
    ensures if MaxAbs(t) > 0.00000127 then ScaleOf(t) * 127.0 == MaxAbs(t) else ScaleOf(t) == 0.00000001
  {}

  /** The other modes: fp32 and an unknown mode send the tensor as it is, the half-width ones
      each element's cast, and none of them changes the number of elements. */
  lemma OtherPayloads(t: seq<real>, mode: Mode, fp16: real -> real, bf16: real -> real)
    requires mode != Int8
    ensures PrepareTensor(t, mode, fp16, bf16).Some?
    ensures var r := RestoreTensor(PrepareTensor(t, mode, fp16, bf16).value);
      |r| == |t| && forall i :: 0 <= i < |t| ==>
        r[i] == if mode == Fp16 then fp16(t[i]) else if mode == Bf16 then bf16(t[i]) else t[i]
  {
    assert RestoreTensor(Half(Map(t, fp16))) == Map(t, fp16);
  }
}
