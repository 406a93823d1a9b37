/**
 * The effect of a drag on the hands, as functions on values.
 *
 * `Dial` is the part of the clock a drag changes: the three hands and the
 * AM flag. Each `Move…` function is what one pass of the loop in
 * `moveHands` does for one pointer; `MoveAll` is the whole loop, which visits
 * the pointers from the last to the first.
 */
module Drag {
  import opened Angles
  import opened HitTest

  /** A hand: its angle, the angle seen at the previous move, and its value. */
  datatype Hand = Hand(angle: int, last: int, value: int)

  datatype Dial = Dial(hour: Hand, minute: Hand, duration: Hand, am: bool)

  /** `setHourAngle`: the hour hand placed from the hour and minute values. */
  function WithHourAngle(d: Dial): Dial
  {
    d.(hour := d.hour.(angle := HourAngle(d.hour.value, d.minute.value)))
  }

  /** `setDurationAngle`: the duration hand placed `duration.value` ticks past the hour hand. */
  function WithDurationAngle(d: Dial): Dial
  {
    d.(duration := d.duration.(angle := DurationAngle(d.hour.angle, d.duration.value)))
  }

  /** `setAngles`: every hand placed from the values; the duration hand only when it is in use. */
  function Snap(d: Dial, useDuration: bool): Dial
  {
    var s := d.(hour := d.hour.(angle := HourAngle(d.hour.value, d.minute.value)),
                minute := d.minute.(angle := MinuteAngle(d.minute.value)));
    if useDuration then WithDurationAngle(s) else s
  }

  /** `addHours`: the hour value moved by `x` hours around a 24-hour day. */
  function AddHoursTo(d: Dial, x: int): Dial
  {
    WithHourAngle(d.(hour := d.hour.(value := (d.hour.value + x) % 24)))
  }

  /** The hour hand dragged to angle `a` (the `hands.hour` branch of `moveHands`). */
  function MoveHour(d: Dial, a: int, useDuration: bool, single: bool): Dial
  {
    var moved := d.(hour := d.hour.(angle := a, value := HourFromAngle(a, d.am)));
    var na := GetAngle(a);
    var followed := if useDuration && single then WithDurationAngle(moved) else moved;
    var flip := WrapsForward(d.hour.last, na) || WrapsBackward(d.hour.last, na);
    followed.(hour := followed.hour.(last := na), am := if flip then !d.am else d.am)
  }

  /** The minute hand dragged to angle `a` (the `hands.minute` branch). */
  function MoveMinute(d: Dial, a: int, useDuration: bool, single: bool): Dial
  {
    var moved := d.(minute := d.minute.(angle := a, value := MinuteFromAngle(a)));
    var ticked := if single then WithHourAngle(moved) else moved;
    var na := GetAngle(a);
    var carried :=
      if WrapsForward(d.minute.last, na) then AddHoursTo(ticked, 1)
      else if WrapsBackward(d.minute.last, na) then AddHoursTo(ticked, -1)
      else ticked;
    var seen := carried.(minute := carried.minute.(last := na));
    if useDuration && single then WithDurationAngle(seen) else seen
  }

  /** The duration hand dragged to angle `a` (the `hands.duration` branch). */
  function MoveDuration(d: Dial, a: int): Dial
  {
    d.(duration := d.duration.(angle := a, value := ForwardSpan(GetAngle(a), GetAngle(d.hour.angle))))
  }

  function MoveOne(d: Dial, k: Option<HandName>, a: int, useDuration: bool, single: bool): Dial
  {
    match k
    case None => d
    case Some(Hour) => MoveHour(d, a, useDuration, single)
    case Some(Minute) => MoveMinute(d, a, useDuration, single)
    case Some(Duration) => MoveDuration(d, a)
  }

  /** The hand pointer `n` holds; positions never written are empty. */
  function GrabbedAt(grabbed: seq<Option<HandName>>, n: int): Option<HandName>
  {
    if 0 <= n < |grabbed| then grabbed[n] else None
  }

  /** `moveHands`: every pointer, from the last to the first, moves the hand it holds. */
  function MoveAll(d: Dial, grabbed: seq<Option<HandName>>, angles: seq<int>, useDuration: bool, single: bool): Dial
    decreases |angles|
  {
    if angles == [] then d
    else
      var n := |angles| - 1;
      MoveAll(MoveOne(d, GrabbedAt(grabbed, n), angles[n], useDuration, single),
              grabbed, angles[..n], useDuration, single)
  }

  /** The angles a pointer can produce: atan2 plus a quarter turn. */
  predicate PointerAngle(a: int)
  {
    -T / 4 <= a <= 3 * T / 4
  }

  /** Hour and minute values on the dial and a non-negative duration. */
  predicate InRange(d: Dial)
  {
    0 <= d.hour.value < 24 && 0 <= d.minute.value < 60 && d.duration.value >= 0
  }

  /**
   * Dragging the hour hand: the hour value is read with the AM flag as it was
   * before this event; the flag is toggled exactly on a wrap through 12;
   * `last` becomes the normalised angle; the minute hand never moves; the
   * duration hand moves only when tracked and the hour hand is the only hand
   * held.
   */
  lemma HourDragFacts(d: Dial, a: int, useDuration: bool, single: bool)
    requires PointerAngle(a)
    ensures var r := MoveHour(d, a, useDuration, single);
      && r.hour.angle == a
      && r.hour.value == HourFromAngle(a, d.am)
      && 0 <= r.hour.last < T && r.hour.last == a % T
      && (r.am != d.am <==> WrapsForward(d.hour.last, a % T) || WrapsBackward(d.hour.last, a % T))
      && r.minute == d.minute
      && r.duration == (if useDuration && single
                        then d.duration.(angle := DurationAngle(a, d.duration.value))
                        else d.duration)
  {
    GetAngleNormalises(a);
  }

  /**
   * With `last` on the dial, the AM flag flips exactly when the hour hand
   * jumped by more than half a turn, that is when the short way between the
   * two positions runs through 12.
   */
  lemma {:induction false} HourDragTogglesThroughTwelve(d: Dial, a: int, useDuration: bool, single: bool)
    requires PointerAngle(a) && 0 <= d.hour.last < T
    ensures MoveHour(d, a, useDuration, single).am != d.am <==> 2 * Abs(a % T - d.hour.last) > T
  {
    GetAngleNormalises(a);
    WrapIffShortWayThroughTwelve(d.hour.last, a % T);
  }

  /**
   * Dragging the minute hand: a forward wrap through 12 adds an hour, a
   * backward wrap takes one away, both around the 24-hour day; otherwise the
   * hour value is kept. `last` becomes the normalised angle.
   */
  lemma {:induction false} MinuteDragCarries(d: Dial, a: int, useDuration: bool, single: bool)
    requires PointerAngle(a)
    ensures var r := MoveMinute(d, a, useDuration, single);
      && r.minute.value == MinuteFromAngle(a) && r.minute.angle == a
      && 0 <= r.minute.last < T && r.minute.last == a % T
      && r.hour.value == (if WrapsForward(d.minute.last, a % T) then (d.hour.value + 1) % 24
                          else if WrapsBackward(d.minute.last, a % T) then (d.hour.value - 1) % 24
                          else d.hour.value)
      && r.am == d.am
      && r.hour.last == d.hour.last
      && (!(useDuration && single) ==> r.duration == d.duration)
  {
    GetAngleNormalises(a);
  }

  /** With `last` on the dial the carry follows the short way through 12. */
  lemma {:induction false} MinuteDragCarriesThroughTwelve(d: Dial, a: int, useDuration: bool, single: bool)
    requires PointerAngle(a) && 0 <= d.minute.last < T && 0 <= d.hour.value < 24
    ensures var r := MoveMinute(d, a, useDuration, single);
      && (d.minute.last > a % T && 2 * (d.minute.last - a % T) > T ==> r.hour.value == (d.hour.value + 1) % 24)
      && (a % T > d.minute.last && 2 * (a % T - d.minute.last) > T ==> r.hour.value == (d.hour.value + 23) % 24)
      && (2 * Abs(a % T - d.minute.last) <= T ==> r.hour.value == d.hour.value)
  {
    MinuteDragCarries(d, a, useDuration, single);
    WrapIffShortWayThroughTwelve(d.minute.last, a % T);
    assert (d.hour.value - 1) % 24 == (d.hour.value + 23) % 24;
  }

  /** `addHours` wraps both ways: 23 + 1 is 0 and 0 - 1 is 23. */
  lemma AddHoursWraps(d: Dial)
    ensures d.hour.value == 23 ==> AddHoursTo(d, 1).hour.value == 0
    ensures d.hour.value == 0 ==> AddHoursTo(d, -1).hour.value == 23
    ensures 0 <= AddHoursTo(d, 1).hour.value < 24 && 0 <= AddHoursTo(d, -1).hour.value < 24
  {
  }

  /**
   * When the minute hand is the only hand held, or it carried into the hour,
   * the hour hand is left standing where the hour and minute values put it.
   */
  lemma {:induction false} MinuteDragKeepsHourHandInStep(d: Dial, a: int, useDuration: bool, single: bool)
    requires PointerAngle(a)
    requires single || WrapsForward(d.minute.last, a % T) || WrapsBackward(d.minute.last, a % T)
    ensures var r := MoveMinute(d, a, useDuration, single);
      r.hour.angle == HourAngle(r.hour.value, r.minute.value)
  {
    GetAngleNormalises(a);
  }

  /**
   * With duration tracking on and a single hand held, the duration hand keeps
   * its offset from the hour hand through hour and minute drags.
   */
  lemma {:induction false} DurationFollowsHourHand(d: Dial, a: int, useDuration: bool)
    requires useDuration
    ensures var r := MoveHour(d, a, useDuration, true);
      r.duration.angle == DurationAngle(r.hour.angle, r.duration.value)
    ensures var r := MoveMinute(d, a, useDuration, true);
      r.duration.angle == DurationAngle(r.hour.angle, r.duration.value)
  {
  }

  /**
   * Dragging the duration hand reads a duration of less than a turn forward
   * from the hour hand, and the hour and minute hands stay put.
   */
  lemma {:induction false} DurationDragReadsForwardSpan(d: Dial, a: int)
    requires PointerAngle(a) && d.hour.angle > -T
    ensures var r := MoveDuration(d, a);
      && 0 <= r.duration.value < T
      && r.duration.value == (a - d.hour.angle) % T
      && r.hour == d.hour && r.minute == d.minute && r.am == d.am
  {
    GetAngleNormalises(a);
    GetAngleNormalises(d.hour.angle);
    ModDifference(d.hour.angle, a - d.hour.angle);
    assert d.hour.angle + (a - d.hour.angle) == a;
  }

  /** Values stay on the dial through any drag. */
  lemma {:induction false} MoveAllKeepsRange(d: Dial, grabbed: seq<Option<HandName>>, angles: seq<int>,
                                             useDuration: bool, single: bool)
    requires InRange(d)
    requires forall i :: 0 <= i < |angles| ==> PointerAngle(angles[i])
    ensures InRange(MoveAll(d, grabbed, angles, useDuration, single))
    decreases |angles|
  {
    if angles != [] {
      var n := |angles| - 1;
      var a := angles[n];
      GetAngleNormalises(a);
      ValuesFromAngleInRange(a, d.am);
      var next := MoveOne(d, GrabbedAt(grabbed, n), a, useDuration, single);
      assert InRange(next);
      MoveAllKeepsRange(next, grabbed, angles[..n], useDuration, single);
    }
  }

  /**
   * With duration tracking off, a drag in which no pointer holds the duration
   * hand leaves the duration hand exactly as it was.
   */
  lemma {:induction false} MoveAllLeavesUntrackedDuration(d: Dial, grabbed: seq<Option<HandName>>, angles: seq<int>,
                                                          single: bool)
    requires forall i :: 0 <= i < |angles| ==> GrabbedAt(grabbed, i) != Some(Duration)
    ensures MoveAll(d, grabbed, angles, false, single).duration == d.duration
    decreases |angles|
  {
    if angles != [] {
      var n := |angles| - 1;
      var next := MoveOne(d, GrabbedAt(grabbed, n), angles[n], false, single);
      assert next.duration == d.duration;
      MoveAllLeavesUntrackedDuration(next, grabbed, angles[..n], single);
    }
  }

  /** A drag in which no pointer holds a hand changes nothing. */
  lemma {:induction false} MoveAllWithoutHandsIsIdentity(d: Dial, grabbed: seq<Option<HandName>>, angles: seq<int>,
                                                         useDuration: bool, single: bool)
    requires forall i :: 0 <= i < |angles| ==> GrabbedAt(grabbed, i) == None
    ensures MoveAll(d, grabbed, angles, useDuration, single) == d
    decreases |angles|
  {
    if angles != [] {
      var n := |angles| - 1;
      MoveAllWithoutHandsIsIdentity(d, grabbed, angles[..n], useDuration, single);
    }
  }

  /**
   * Snapping to the values is what a drag leaves behind for minute and hour
   * read back from a hand placed by `Snap`: the values round-trip.
   */
  lemma {:induction false} SnapRoundTrip(d: Dial, useDuration: bool)
    requires InRange(d) && d.am == (d.hour.value < 12)
    ensures var s := Snap(d, useDuration);
      && HourFromAngle(s.hour.angle, s.am) == d.hour.value
      && MinuteFromAngle(s.minute.angle) == d.minute.value
      && s.hour.value == d.hour.value && s.minute.value == d.minute.value
      && s.duration.value == d.duration.value
      && (useDuration ==> ForwardSpan(GetAngle(s.duration.angle), GetAngle(s.hour.angle)) == d.duration.value % T)
      && (!useDuration ==> s.duration == d.duration)
  {
    HourRoundTrip(d.hour.value, d.minute.value);
    MinuteRoundTrip(d.minute.value);
    var ha := HourAngle(d.hour.value, d.minute.value);
    assert ha >= 0;
    if useDuration {
      DurationRoundTrip(ha, d.duration.value);
    }
  }
}
