/**
 * Angle arithmetic of the clock face.
 *
 * Angles are measured in integer ticks, T = 720 ticks per full turn, so one
 * tick is one minute of hour-hand travel and tick 0 is the 12 o'clock
 * position. The source works in floating-point radians. Every angle it
 * computes from a value is a whole multiple of one tick, and the ticks hold
 * it without the rounding of those radians.
 */
module Angles {

  /** Ticks per full turn (2*pi in the source). */
  const T: int := 720

  function Abs(x: int): (r: int)
    ensures r >= 0 && (r == x || r == -x)
  {
    if x < 0 then -x else x
  }

  /**
   * JavaScript's `%`: the remainder of truncating division, which takes the
   * sign of the dividend (Dafny's `%` is Euclidean and never negative).
   */
  function JsRem(x: int, m: int): (r: int)
    requires m > 0
    ensures x >= 0 ==> r == x % m
    ensures x < 0 ==> -m < r <= 0
  {
    if x >= 0 then x % m else -((-x) % m)
  }

  /** `getAngle`: brings an angle into [0, T), provided it is above -T. */
  function GetAngle(a: int): int
  {
    JsRem(a + T, T)
  }

  lemma GetAngleNormalises(a: int)
    requires a > -T
    ensures 0 <= GetAngle(a) < T
    ensures GetAngle(a) == a % T
    ensures GetAngle(GetAngle(a)) == GetAngle(a)
  {
  }

  /** Below -T the JavaScript remainder keeps the sign: the result is negative. */
  lemma GetAngleNegativeBelowOneTurn()
    ensures GetAngle(-T - 1) == -1
  {
  }

  /** `getHourAngle`: hours above 12 are folded onto the dial, 12 itself is not. */
  function HourAngle(h: int, m: int): int
  {
    (if h > 12 then h - 12 else h) * 60 + m
  }

  /** `getMinuteAngle`: 12 ticks per minute. */
  function MinuteAngle(m: int): int
  {
    12 * m
  }

  /** `setHourFromAngle`: whole hours on the dial, shifted by 12 after noon. */
  function HourFromAngle(angle: int, am: bool): int
  {
    JsRem(GetAngle(angle) / 60 + (if am then 0 else 12), 24)
  }

  /** `setMinuteFromAngle`. */
  function MinuteFromAngle(angle: int): int
  {
    JsRem(GetAngle(angle) / 12, 60)
  }

  /** `setDurationAngle`: the duration hand sits `value` ticks past the hour hand. */
  function DurationAngle(hourAngle: int, value: int): int
  {
    GetAngle(hourAngle + value)
  }

  /**
   * The value `setDurationFromAngle` computes from the normalised duration
   * angle d and hour angle h: d is raised by whole turns until it is at least
   * h, and the difference is the duration.
   */
  function ForwardSpan(d: int, h: int): (r: int)
    ensures r >= 0
    ensures d < h ==> r < T && (r - (d - h)) % T == 0
  {
    if d >= h then d - h else (d - h) % T
  }

  /** `getAngleDifference`: flips the sign when the other way round is shorter. */
  function AngleDifference(d: int): (r: int)
    ensures Abs(r) == Abs(d)
    ensures (r != d) <==> (T - Abs(d) < Abs(d))
  {
    if T - Abs(d) < Abs(d) then -d else d
  }

  /**
   * For a difference of less than a turn, the sign of the result points
   * along the arc that is not the longer one: positive means going forward
   * (clockwise) is at most half a turn.
   */
  lemma AngleDifferenceTakesShorterArc(d: int)
    requires -T < d < T
    ensures AngleDifference(d) > 0 ==> d % T <= T / 2
    ensures AngleDifference(d) < 0 ==> d % T >= T / 2
    ensures AngleDifference(d) == 0 <==> d == 0
  {
  }

  /**
   * The crossing test of `moveHands`: with the previous angle `last` and the
   * new normalised angle `a`, the hand is taken to have passed 12 going
   * forward when the difference is positive but the angle decreased, and
   * going backward when the difference is negative but the angle grew.
   */
  predicate WrapsForward(last: int, a: int)
  {
    AngleDifference(a - GetAngle(last)) > 0 && last > a
  }

  predicate WrapsBackward(last: int, a: int)
  {
    AngleDifference(a - GetAngle(last)) < 0 && last < a
  }

  /**
   * With both angles on the dial, the hand passed 12 forward exactly when it
   * went backwards by more than half a turn, i.e. the short way from `last`
   * to `a` runs through 12 clockwise; symmetrically for backward.
   */
  lemma WrapIffShortWayThroughTwelve(last: int, a: int)
    requires 0 <= last < T && 0 <= a < T
    ensures WrapsForward(last, a) <==> last > a && 2 * (last - a) > T
    ensures WrapsBackward(last, a) <==> a > last && 2 * (a - last) > T
    ensures !(WrapsForward(last, a) && WrapsBackward(last, a))
  {
    assert GetAngle(last) == last by { GetAngleNormalises(last); }
  }

  /**
   * The raw `last` is compared with the normalised angle. At noon `setHands`
   * leaves `last` at a full turn (720 ticks); a small forward move of the
   * hour hand to tick 5 is then reported as a forward wrap through 12,
   * although the hand only moved 5 ticks.
   */
  lemma NoonLastReportsSpuriousWrap()
    ensures HourAngle(12, 0) == T
    ensures WrapsForward(HourAngle(12, 0), 5)
  {
  }

  /** Hour and minute survive the trip through their angles (h = 12 included). */
  lemma {:induction false} HourRoundTrip(h: int, m: int)
    requires 0 <= h < 24 && 0 <= m < 60
    ensures HourFromAngle(HourAngle(h, m), h < 12) == h
  {
    var a := HourAngle(h, m);
    var f := if h > 12 then h - 12 else h;
    assert 0 <= a < T + 60;
    if h == 12 {
      assert GetAngle(a) == m;
    } else {
      assert 0 <= a < T;
      GetAngleNormalises(a);
      assert GetAngle(a) == f * 60 + m;
      assert GetAngle(a) / 60 == f;
    }
  }

  lemma {:induction false} MinuteRoundTrip(m: int)
    requires 0 <= m < 60
    ensures MinuteFromAngle(MinuteAngle(m)) == m
  {
    GetAngleNormalises(12 * m);
    assert GetAngle(12 * m) / 12 == m;
  }

  /** Values computed from any angle above -T stay on the 24-hour and 60-minute dials. */
  lemma {:induction false} ValuesFromAngleInRange(a: int, am: bool)
    requires a > -T
    ensures 0 <= HourFromAngle(a, am) < 24
    ensures am <==> HourFromAngle(a, am) < 12
    ensures 0 <= MinuteFromAngle(a) < 60
  {
    GetAngleNormalises(a);
  }

  /**
   * Driving the duration hand to where `setDurationAngle` puts it and reading
   * it back gives the duration modulo a turn.
   */
  lemma {:induction false} DurationRoundTrip(hourAngle: int, value: int)
    requires hourAngle > -T && hourAngle + value > -T
    ensures ForwardSpan(GetAngle(DurationAngle(hourAngle, value)), GetAngle(hourAngle)) == value % T
  {
    GetAngleNormalises(hourAngle);
    GetAngleNormalises(hourAngle + value);
    var d := GetAngle(hourAngle + value);
    GetAngleNormalises(d);
    var h := GetAngle(hourAngle);
    assert d == (hourAngle + value) % T && h == hourAngle % T;
    ModDifference(hourAngle, value);
    if d >= h {
      assert d - h == value % T;
    } else {
      assert ForwardSpan(d, h) == (d - h) % T;
      assert (d - h) % T == value % T;
    }
  }

  /** ((x + y) mod T - x mod T) is congruent to y and lies in (-T, T). */
  lemma ModDifference(x: int, y: int)
    ensures ((x + y) % T - x % T) % T == y % T
    ensures (x + y) % T - x % T >= 0 ==> (x + y) % T - x % T == y % T
  {
    var q1 := (x + y) / T;
    var q2 := x / T;
    var q3 := y / T;
    assert x + y == q1 * T + (x + y) % T;
    assert x == q2 * T + x % T;
    assert y == q3 * T + y % T;
    var e := (x + y) % T - x % T;
    assert e - y % T == (q3 - q1 + q2) * T;
    ModOfMultipleShift(e, y % T, q3 - q1 + q2);
  }

  lemma ModOfMultipleShift(e: int, r: int, k: int)
    requires -T < e < T && 0 <= r < T
    requires e - r == k * T
    ensures e % T == r
    ensures e >= 0 ==> e == r
  {
    assert k == 0 || k == -1;
  }

  /** A value in [0, T) that differs from `e` by whole turns is `e mod T`. */
  lemma ModOfTurns(e: int, r: int, k: int)
    requires 0 <= r < T && r == e + k * T
    ensures e % T == r
  {
    var q := e / T;
    assert e == q * T + e % T;
    assert (q + k) * T == r - e % T;
    assert q + k == 0;
  }
}
