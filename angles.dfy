/** The numeric helpers of the roulette animation (roleta/script.js, lines 79-81),
    and the geometry that turns the final wheel and ball angles into a slot.

    Angles are exact reals measured in slice units: a full turn is 37 slices,
    so the slice of the source (2 pi / 37 radians) is 1.0 here. */
module Angles {
  import opened Wheel

  /** One full turn of the wheel (2 pi radians in the source). */
  const FullTurn: real := 37.0

  /** The angular width of one slot: a full turn divided by the number of slots. */
  const Slice: real := FullTurn / SlotCount as real

  /** The angle, measured from the wheel's zero mark, of the centre of the slot at `index`. */
  function TargetCenter(index: int): real {
    index as real * Slice + Slice / 2.0
  }

  /** Cubic ease-out, 1 - (1 - t)^3. */
  function EaseOutCubic(t: real): (r: real)
    ensures t == 0.0 ==> r == 0.0
    ensures t == 1.0 ==> r == 1.0
    ensures 0.0 <= t <= 1.0 ==> 0.0 <= r <= 1.0
  {
    var u := 1.0 - t;
    CubeInUnit(u);
    1.0 - u * u * u
  }

  lemma CubeInUnit(u: real)
    ensures 0.0 <= u <= 1.0 ==> 0.0 <= u * u * u <= 1.0
  {
    if 0.0 <= u <= 1.0 {
      assert 0.0 <= u * u <= 1.0;
      assert u * u * u <= u * u;
    }
  }

  /** Linear interpolation from `a` (at t = 0) to `b` (at t = 1). */
  function Lerp(a: real, b: real, t: real): (r: real)
    ensures t == 0.0 ==> r == a
    ensures t == 1.0 ==> r == b
    ensures 0.0 <= t <= 1.0 && a <= b ==> a <= r <= b
  {
    FractionOf(b - a, t);
    a + (b - a) * t
  }

  /** A fraction t in [0, 1] of a non-negative d lies between 0 and d. */
  lemma FractionOf(d: real, t: real)
    ensures 0.0 <= d && 0.0 <= t <= 1.0 ==> 0.0 <= d * t <= d
  {
    if 0.0 <= d && 0.0 <= t <= 1.0 {
      assert d - d * t == d * (1.0 - t);
    }
  }

  /** Truncation toward zero, the integer quotient JavaScript's `%` uses. */
  function Trunc(x: real): (q: int)
    ensures 0.0 <= x ==> q as real <= x < q as real + 1.0
    ensures x < 0.0 ==> q as real - 1.0 < x <= q as real
  {
    if x >= 0.0 then x.Floor else -((-x).Floor)
  }

  /** JavaScript's remainder `a % m` on numbers: the sign follows the dividend. */
  function JsRem(a: real, m: real): (r: real)
    requires m > 0.0
    ensures 0.0 <= a ==> 0.0 <= r < m
    ensures a < 0.0 ==> -m < r <= 0.0
    ensures ((a - r) / m).Floor as real == (a - r) / m
  {
    var q := Trunc(a / m);
    var r := a - m * q as real;
    QuotientShift(a, m, q as real, r);
    WholeQuotient(a - r, m, q as real);
    if a >= 0.0 then UnitQuotient(r, m); r else NegativeUnitQuotient(r, m); r
  }

  /** A quotient in [0, 1) by a positive m comes from a number in [0, m). */
  lemma UnitQuotient(d: real, m: real)
    requires m > 0.0 && 0.0 <= d / m < 1.0
    ensures 0.0 <= d < m
  {
  }

  /** A quotient in (-1, 0] by a positive m comes from a number in (-m, 0]. */
  lemma NegativeUnitQuotient(d: real, m: real)
    requires m > 0.0 && -1.0 < d / m <= 0.0
    ensures -m < d <= 0.0
  {
  }

  /** k whole multiples of m divided by m give back k. */
  lemma WholeQuotient(d: real, m: real, k: real)
    requires m > 0.0 && d == m * k
    ensures d / m == k
  {
  }

  /** Taking k whole multiples of m off a shifts the quotient by k. */
  lemma QuotientShift(a: real, m: real, k: real, s: real)
    requires m > 0.0 && s == a - m * k
    ensures s / m == a / m - k
  {
  }

  /** `mod(a, m)` of the source: ((a % m) + m) % m. */
  function Mod(a: real, m: real): (r: real)
    requires m > 0.0
    ensures 0.0 <= r < m
    ensures r == a - m * (a / m).Floor as real
  {
    var r1 := JsRem(a, m);
    var r := JsRem(r1 + m, m);
    ModIsFlooredRemainder(a, m);
    r
  }

  lemma ModIsFlooredRemainder(a: real, m: real)
    requires m > 0.0
    ensures JsRem(JsRem(a, m) + m, m) == a - m * (a / m).Floor as real
  {
    if a >= 0.0 {
      FlooredRemainderNonNegative(a, m);
    } else {
      FlooredRemainderNegative(a, m);
    }
  }

  lemma FlooredRemainderNonNegative(a: real, m: real)
    requires m > 0.0 && a >= 0.0
    ensures JsRem(JsRem(a, m) + m, m) == a - m * (a / m).Floor as real
  {
    var q := a / m;
    var f := q.Floor;
    var r1 := JsRem(a, m);
    var s := r1 + m;
    assert Trunc(q) == f;
    assert r1 == a - m * f as real;
    assert m <= s < 2.0 * m;
    assert s == a - m * (f as real - 1.0);
    QuotientShift(a, m, f as real - 1.0, s);
    assert s / m == q - f as real + 1.0;
    assert Trunc(s / m) == 1;
  }

  lemma FlooredRemainderNegative(a: real, m: real)
    requires m > 0.0 && a < 0.0
    ensures JsRem(JsRem(a, m) + m, m) == a - m * (a / m).Floor as real
  {
    var q := a / m;
    var f := q.Floor;
    var r1 := JsRem(a, m);
    var s := r1 + m;
    var t := Trunc(q);
    assert r1 == a - m * t as real;
    assert 0.0 < s <= m;
    assert s == a - m * (t as real - 1.0);
    QuotientShift(a, m, t as real - 1.0, s);
    assert s / m == q - t as real + 1.0;
    if s < m {
      assert Trunc(s / m) == 0;
      assert f == t - 1;
    } else {
      assert Trunc(s / m) == 1;
      assert f == t;
    }
  }

  /** The slot under the ball when the ball is `rel` ahead of the wheel's zero mark:
      floor(mod(rel, 2 pi) / slice) % 37. */
  function SlotIndexAt(rel: real): (index: int)
    ensures 0 <= index < SlotCount
    ensures index as real * Slice <= Mod(rel, FullTurn) < (index + 1) as real * Slice
  {
    assert Slice == 1.0;
    (Mod(rel, FullTurn) / Slice).Floor % SlotCount
  }

  /** A ball that ends at the centre of slot `index` plus any whole number of turns
      ahead of the wheel is read back as that slot. */
  lemma LandsOnTarget(index: int, turns: int)
    requires 0 <= index < SlotCount
    ensures SlotIndexAt(TargetCenter(index) + turns as real * FullTurn) == index
  {
    var offset := TargetCenter(index);
    var rel := offset + turns as real * FullTurn;
    assert 0.0 < offset < FullTurn;
    QuotientShift(rel, FullTurn, turns as real, offset);
    assert (rel / FullTurn).Floor == turns;
    assert Mod(rel, FullTurn) == offset;
    assert Slice == 1.0;
    assert offset / Slice == index as real + 0.5;
  }
}
