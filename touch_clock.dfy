/**
 * The clock control: the state the `TouchClock` closure keeps and the
 * functions that change it, as a class.
 *
 * Drawing is not modelled; `PlaceTips` stands for the one thing drawing
 * leaves behind that the rest of the control reads, the tip position of each
 * hand. Pointers reach the control as positions (on pointer-down) and as the
 * angle each pointer makes with the centre (on pointer-move).
 */
module TouchClock {
  import opened Angles
  import opened HitTest
  import opened Drag
  import opened Projection

  class Clock {
    /** Whether the duration hand is shown and kept up to date. */
    const useDuration: bool
    /** Radius of the centre dot in pixels, never below 4. */
    const radiusCenter: nat

    var hour: Hand
    var minute: Hand
    var duration: Hand
    var am: bool
    /** Tip positions left by the last drawing of each hand. */
    var tips: Tips
    /** Number of active pointers (`pointerLength`). */
    var pointerCount: nat
    /** The hand each pointer holds (`pointerGrabbed`); entries beyond the current pointers are left over. */
    var grabbed: seq<Option<HandName>>
    /** How many pointers hold a hand. */
    var handsGrabbed: nat

    /** A pointer grabs a hand within this distance of the hand's tip. */
    function RadiusHandle(): nat
    {
      4 * radiusCenter
    }

    function State(): Dial
      reads this
    {
      Dial(hour, minute, duration, am)
    }

    /**
     * The control as created: the given time (the source reads it from the
     * system clock), a two-hour duration and no pointer down. The closing
     * `draw()` of `setHands` leaves the tips of the hour and minute hands,
     * and of the duration hand when it is in use, at the given positions.
     */
    constructor (useDuration: bool, radiusCenter: nat, h: int, m: int,
                 hourTip: Point, minuteTip: Point, durationTip: Point)
      requires radiusCenter >= 4
      requires 0 <= h < 24 && 0 <= m < 60
      ensures this.useDuration == useDuration && this.radiusCenter == radiusCenter
      ensures hour.value == h && minute.value == m && am == (h < 12)
      ensures duration.value == (if useDuration then 120 else 0)
      ensures hour.angle == HourAngle(h, m) && minute.angle == MinuteAngle(m)
      ensures useDuration ==> duration.angle == DurationAngle(hour.angle, 120)
      ensures HourFromAngle(hour.angle, am) == h && MinuteFromAngle(minute.angle) == m
      ensures InRange(State())
      ensures hour.last == hour.angle && minute.last == minute.angle
      ensures tips == Tips(Some(hourTip), Some(minuteTip), if useDuration then Some(durationTip) else None)
      ensures pointerCount == 0 && grabbed == [] && handsGrabbed == 0
    {
      this.useDuration := useDuration;
      this.radiusCenter := radiusCenter;
      hour := Hand(0, 0, 0);
      minute := Hand(0, 0, 0);
      duration := Hand(0, 0, 0);
      am := true;
      tips := Tips(None, None, None);
      pointerCount := 0;
      grabbed := [];
      handsGrabbed := 0;
      new;
      SetHands(h, m, 120, None);
      PlaceTips(hourTip, minuteTip, durationTip);
    }

    /** `setHourFromAngle`: the hour read off the hour hand, PM hours when `am` is off. */
    method SetHourFromAngle()
      modifies this`hour
      ensures hour == old(hour).(value := HourFromAngle(old(hour).angle, am))
      ensures old(hour).angle > -T ==> 0 <= hour.value < 24 && (am <==> hour.value < 12)
    {
      hour := hour.(value := HourFromAngle(hour.angle, am));
      if hour.angle > -T {
        ValuesFromAngleInRange(hour.angle, am);
      }
    }

    /** `setMinuteFromAngle`. */
    method SetMinuteFromAngle()
      modifies this`minute
      ensures minute == old(minute).(value := MinuteFromAngle(old(minute).angle))
      ensures old(minute).angle > -T ==> 0 <= minute.value < 60
    {
      minute := minute.(value := MinuteFromAngle(minute.angle));
      if minute.angle > -T {
        ValuesFromAngleInRange(minute.angle, am);
      }
    }

    /**
     * `setDurationFromAngle`: the duration angle is raised by whole turns
     * until it is not behind the hour angle; the gap is the duration.
     */
    method SetDurationFromAngle()
      modifies this`duration
      ensures duration == old(duration).(value := ForwardSpan(GetAngle(old(duration).angle), GetAngle(hour.angle)))
      ensures duration.value >= 0
      ensures hour.angle > -T && old(duration).angle > -T ==>
                duration.value < T && duration.value == (old(duration).angle - hour.angle) % T
    {
      var d := GetAngle(duration.angle);
      var h := GetAngle(hour.angle);
      ghost var d0 := d;
      ghost var turns: nat := 0;
      while d < h
        invariant d == d0 + turns * T
        invariant d0 < h ==> d < h + T
        invariant d0 >= h ==> turns == 0
        decreases h - d
      {
        d := d + T;
        turns := turns + 1;
      }
      if d0 < h {
        ModOfTurns(d0 - h, d - h, turns);
      }
      duration := duration.(value := d - h);
      if hour.angle > -T && old(duration).angle > -T {
        GetAngleNormalises(hour.angle);
        GetAngleNormalises(old(duration).angle);
        ModDifference(hour.angle, old(duration).angle - hour.angle);
        assert hour.angle + (old(duration).angle - hour.angle) == old(duration).angle;
      }
    }

    /** `setHourAngle`. */
    method SetHourAngle()
      modifies this`hour
      ensures State() == WithHourAngle(old(State()))
      ensures 0 <= hour.value < 24 && 0 <= minute.value < 60 ==> HourFromAngle(hour.angle, hour.value < 12) == hour.value
    {
      hour := hour.(angle := HourAngle(hour.value, minute.value));
      if 0 <= hour.value < 24 && 0 <= minute.value < 60 {
        HourRoundTrip(hour.value, minute.value);
      }
    }

    /** `setMinuteAngle`. */
    method SetMinuteAngle()
      modifies this`minute
      ensures minute == old(minute).(angle := MinuteAngle(minute.value))
      ensures 0 <= minute.value < 60 ==> MinuteFromAngle(minute.angle) == minute.value
    {
      minute := minute.(angle := MinuteAngle(minute.value));
      if 0 <= minute.value < 60 {
        MinuteRoundTrip(minute.value);
      }
    }

    /** `setDurationAngle`. */
    method SetDurationAngle()
      modifies this`duration
      ensures State() == WithDurationAngle(old(State()))
      ensures hour.angle > -T && hour.angle + duration.value > -T ==>
                ForwardSpan(GetAngle(duration.angle), GetAngle(hour.angle)) == duration.value % T
    {
      duration := duration.(angle := DurationAngle(hour.angle, duration.value));
      if hour.angle > -T && hour.angle + duration.value > -T {
        DurationRoundTrip(hour.angle, duration.value);
      }
    }

    /** `setAngles`: the hands placed from the values; the duration hand only when in use. */
    method SetAngles()
      modifies this`hour, this`minute, this`duration
      ensures State() == Snap(old(State()), useDuration)
      ensures !useDuration ==> duration == old(duration)
    {
      SetHourAngle();
      SetMinuteAngle();
      if useDuration {
        SetDurationAngle();
      }
    }

    /** `addHours`: the hour value moved by `x` hours, wrapped into 0..23, and the hour hand placed. */
    method AddHours(x: int)
      modifies this`hour
      ensures State() == AddHoursTo(old(State()), x)
      ensures 0 <= hour.value < 24
    {
      var h := x + hour.value;
      while h < 0
        invariant h % 24 == (x + old(hour.value)) % 24
        decreases -h
      {
        h := h + 24;
      }
      h := JsRem(h, 24);
      hour := hour.(value := h);
      SetHourAngle();
    }

    /**
     * `moveHands`: each pointer, from the last to the first, turns the hand
     * it holds to its angle, with the carries of `Drag.MoveOne`.
     */
    method MoveHands(angles: seq<int>)
      modifies this`hour, this`minute, this`duration, this`am
      ensures State() == MoveAll(old(State()), grabbed, angles, useDuration, handsGrabbed == 1)
    {
      var n := |angles|;
      assert angles[..n] == angles;
      while n > 0
        invariant 0 <= n <= |angles|
        invariant MoveAll(State(), grabbed, angles[..n], useDuration, handsGrabbed == 1)
                  == MoveAll(old(State()), grabbed, angles, useDuration, handsGrabbed == 1)
      {
        n := n - 1;
        ghost var before := State();
        var hand := GrabbedAt(grabbed, n);
        if hand == Some(Hour) {
          MoveHourHand(angles[n]);
        } else if hand == Some(Minute) {
          MoveMinuteHand(angles[n]);
        } else if hand == Some(Duration) {
          duration := duration.(angle := angles[n]);
          SetDurationFromAngle();
        }
        assert State() == MoveOne(before, hand, angles[n], useDuration, handsGrabbed == 1);
        assert angles[..n + 1][..n] == angles[..n];
      }
    }

    /** The `hands.hour` branch of `moveHands`: the hour hand turned to angle `a`. */
    method MoveHourHand(a: int)
      modifies this`hour, this`duration, this`am
      ensures State() == MoveHour(old(State()), a, useDuration, handsGrabbed == 1)
    {
      hour := hour.(angle := a);
      SetHourFromAngle();
      var na := GetAngle(hour.angle);
      var d := AngleDifference(na - GetAngle(hour.last));
      if useDuration && handsGrabbed == 1 {
        SetDurationAngle();
      }
      if (d > 0 && hour.last > na) || (d < 0 && hour.last < na) {
        am := !am;
      }
      hour := hour.(last := na);
    }

    /** The `hands.minute` branch of `moveHands`: the minute hand turned to angle `a`. */
    method MoveMinuteHand(a: int)
      modifies this`hour, this`minute, this`duration
      ensures State() == MoveMinute(old(State()), a, useDuration, handsGrabbed == 1)
    {
      minute := minute.(angle := a);
      SetMinuteFromAngle();
      if handsGrabbed == 1 {
        SetHourAngle();
      }
      var na := GetAngle(minute.angle);
      var d := AngleDifference(na - GetAngle(minute.last));
      if d > 0 && minute.last > na {
        AddHours(1);
      } else if d < 0 && minute.last < na {
        AddHours(-1);
      }
      minute := minute.(last := na);
      if useDuration && handsGrabbed == 1 {
        SetDurationAngle();
      }
    }

    /** `handAt`: the first hand, in the order hour, minute, duration, whose tip is close enough to `p`. */
    method HandAt(p: Point) returns (r: Option<HandName>)
      ensures r == HandUnder(tips, RadiusHandle(), p)
    {
      var i := 0;
      while i < |HandOrder|
        invariant 0 <= i <= |HandOrder|
        invariant FirstHit(HandOrder[i..], tips, RadiusHandle(), p) == HandUnder(tips, RadiusHandle(), p)
      {
        var k := HandOrder[i];
        var tip := tips.Of(k);
        if tip.Some? {
          var dx := p.x - tip.value.x;
          var dy := p.y - tip.value.y;
          if dx * dx + dy * dy < RadiusHandle() * RadiusHandle() {
            return Some(k);
          }
        }
        assert HandOrder[i..][1..] == HandOrder[i + 1..];
        i := i + 1;
      }
      return None;
    }

    /**
     * `assignPointersToHands`: every pointer, from the last to the first, is
     * given the hand under it (or none), and each hit adds one to
     * `handsGrabbed`. Two pointers may hold the same hand.
     */
    method AssignPointersToHands(ps: seq<Point>)
      modifies this`grabbed, this`handsGrabbed
      ensures |grabbed| == if |ps| <= |old(grabbed)| then |old(grabbed)| else |ps|
      ensures forall i :: 0 <= i < |ps| ==> grabbed[i] == HandUnder(tips, RadiusHandle(), ps[i])
      ensures forall i :: |ps| <= i < |grabbed| ==> grabbed[i] == old(grabbed)[i]
      ensures handsGrabbed == old(handsGrabbed) + HitCount(tips, RadiusHandle(), ps)
    {
      if |grabbed| < |ps| {
        grabbed := grabbed + seq(|ps| - |grabbed|, _ => None);
      }
      var n := |ps|;
      while n > 0
        invariant 0 <= n <= |ps| <= |grabbed|
        invariant |grabbed| == if |ps| <= |old(grabbed)| then |old(grabbed)| else |ps|
        invariant forall i :: n <= i < |ps| ==> grabbed[i] == HandUnder(tips, RadiusHandle(), ps[i])
        invariant forall i :: |ps| <= i < |grabbed| ==> grabbed[i] == old(grabbed)[i]
        invariant handsGrabbed == old(handsGrabbed) + HitCount(tips, RadiusHandle(), ps[n..])
      {
        n := n - 1;
        var hand := HandAt(ps[n]);
        grabbed := grabbed[n := hand];
        if hand.Some? {
          handsGrabbed := handsGrabbed + 1;
        }
        assert ps[n..][1..] == ps[n + 1..];
      }
    }

    /**
     * `pointerDown`: forget earlier grabs, take the new pointers and give each
     * the hand under it. The event is left to the page (true) exactly when no
     * pointer hit a hand.
     */
    method PointerDown(ps: seq<Point>) returns (passThrough: bool)
      modifies this`grabbed, this`handsGrabbed, this`pointerCount
      ensures pointerCount == |ps|
      ensures |grabbed| == if |ps| <= |old(grabbed)| then |old(grabbed)| else |ps|
      ensures handsGrabbed == HitCount(tips, RadiusHandle(), ps) && handsGrabbed <= |ps|
      ensures forall i :: 0 <= i < |ps| ==> grabbed[i] == HandUnder(tips, RadiusHandle(), ps[i])
      ensures forall i :: |ps| <= i < |grabbed| ==> grabbed[i] == old(grabbed)[i]
      ensures passThrough <==> forall i :: 0 <= i < |ps| ==> HandUnder(tips, RadiusHandle(), ps[i]) == None
      ensures passThrough <==> handsGrabbed == 0
    {
      handsGrabbed := 0;
      pointerCount := |ps|;
      AssignPointersToHands(ps);
      HitCountBounds(tips, RadiusHandle(), ps);
      if handsGrabbed < 1 {
        return true;
      }
      return false;
    }

    /**
     * `pointerMove`: with no hand held the event is left to the page and
     * nothing changes; otherwise every held hand follows its pointer.
     */
    method PointerMove(angles: seq<int>) returns (passThrough: bool)
      modifies this`hour, this`minute, this`duration, this`am, this`pointerCount
      ensures old(handsGrabbed) < 1 ==> passThrough && unchanged(this)
      ensures handsGrabbed >= 1 ==>
                && !passThrough
                && pointerCount == |angles|
                && State() == MoveAll(old(State()), grabbed, angles, useDuration, handsGrabbed == 1)
    {
      if handsGrabbed < 1 {
        return true;
      }
      pointerCount := |angles|;
      MoveHands(angles);
      return false;
    }

    /**
     * `pointerUp`: with no hand held the event is left to the page and
     * nothing changes; otherwise the grab ends, the pointers are gone and the
     * hands snap to the values (the `last` angles are kept).
     */
    method PointerUp() returns (passThrough: bool)
      modifies this`hour, this`minute, this`duration, this`handsGrabbed, this`pointerCount
      ensures old(handsGrabbed) < 1 ==> passThrough && unchanged(this)
      ensures old(handsGrabbed) >= 1 ==>
                && !passThrough
                && handsGrabbed == 0 && pointerCount == 0
                && State() == Snap(old(State()), useDuration)
    {
      if handsGrabbed < 1 {
        return true;
      }
      handsGrabbed := 0;
      SetAngles();
      pointerCount := 0;
      return false;
    }

    /**
     * `setHands`: set hour and minute, infer AM from the hour, and set the
     * duration: a duration of 0 becomes 120; with a fourth argument the
     * duration runs to that time of day, measured from where the hour hand
     * stood before this call. All hands are then placed and their `last`
     * angles set to where they stand.
     */
    method SetHands(h: int, m: int, dh: int, dm: Option<int>)
      modifies this`hour, this`minute, this`duration, this`am
      ensures hour.value == h && minute.value == m && am == (h < 12)
      ensures var dh' := if dh == 0 then 120 else dh;
        duration.value == (if !useDuration then old(duration.value)
                           else if dm.None? then dh'
                           else ForwardSpan(GetAngle(HourAngle(dh', dm.value)), GetAngle(old(hour.angle))))
      ensures hour.angle == HourAngle(h, m) && hour.last == hour.angle
      ensures minute.angle == MinuteAngle(m) && minute.last == minute.angle
      ensures duration.angle == if useDuration then DurationAngle(hour.angle, duration.value) else old(duration.angle)
      ensures 0 <= h < 24 && 0 <= m < 60 ==> HourFromAngle(hour.angle, am) == h && MinuteFromAngle(minute.angle) == m
    {
      hour := hour.(value := h);
      minute := minute.(value := m);
      am := h < 12;
      if useDuration {
        var dh' := if dh == 0 then 120 else dh;
        if dm.None? {
          duration := duration.(value := dh');
        } else {
          duration := duration.(angle := HourAngle(dh', dm.value));
          SetDurationFromAngle();
        }
      }
      SetAngles();
      hour := hour.(last := hour.angle);
      minute := minute.(last := minute.angle);
      if 0 <= h < 24 && 0 <= m < 60 {
        HourRoundTrip(h, m);
        MinuteRoundTrip(m);
      }
    }

    /**
     * The tip positions drawing leaves in `hand.x` and `hand.y`; the duration
     * hand is drawn only when it is in use.
     */
    method PlaceTips(hourTip: Point, minuteTip: Point, durationTip: Point)
      modifies this`tips
      ensures tips.hour == Some(hourTip) && tips.minute == Some(minuteTip)
      ensures tips.duration == if useDuration then Some(durationTip) else old(tips.duration)
    {
      tips := Tips(Some(hourTip), Some(minuteTip), if useDuration then Some(durationTip) else tips.duration);
    }

    /** `getStartTime`. */
    function GetStartTime(): Time
      reads this
    {
      Time(hour.value, minute.value)
    }

    /** `getStopTime`. */
    function GetStopTime(): Time
      reads this
    {
      StopTime(hour.value, minute.value, duration.value)
    }

    /** `getStartTimeAsString`: "HH:MM" of the start time. */
    method GetStartTimeAsString() returns (s: string)
      ensures s == TimeText(GetStartTime())
      ensures 0 <= hour.value < 24 && 0 <= minute.value < 60 ==>
                |s| == 5 && s[2] == ':' && ParseDigits(s[..2]) == hour.value && ParseDigits(s[3..]) == minute.value
    {
      var t := GetStartTime();
      var hh := PadNumber(t.hour, 2);
      var mm := PadNumber(t.minute, 2);
      s := hh + ":" + mm;
      if 0 <= hour.value < 24 && 0 <= minute.value < 60 {
        TimeTextRoundTrip(t);
      }
    }

    /** `getStopTimeAsString`: "HH:MM" of the stop time. */
    method GetStopTimeAsString() returns (s: string)
      ensures s == TimeText(GetStopTime())
      ensures InRange(State()) && minute.value + duration.value < 60 * 0x8000_0000 ==>
                && |s| == 5 && s[2] == ':'
                && (ParseDigits(s[..2]) * 60 + ParseDigits(s[3..])) % 1440
                   == (hour.value * 60 + minute.value + duration.value) % 1440
    {
      var t := GetStopTime();
      var hh := PadNumber(t.hour, 2);
      var mm := PadNumber(t.minute, 2);
      s := hh + ":" + mm;
      if InRange(State()) && minute.value + duration.value < 60 * 0x8000_0000 {
        StopTimeWraps(hour.value, minute.value, duration.value);
        TimeTextRoundTrip(t);
      }
    }
  }

  /**
   * With a fourth argument, `setHands` measures the duration from where the
   * hour hand stood before the call: a clock at 10:00 set to 14:00 with a
   * duration running to 16:00 stores 360 minutes, while a clock already at
   * 14:00 stores the 120 minutes from the new hour.
   */
  method TargetDurationMeasuredFromPreviousHour() returns (fromTen: int, fromFourteen: int)
    ensures fromTen == 360 && fromFourteen == 120
  {
    var c := new Clock(true, 4, 10, 0, Point(0, 0), Point(100, 100), Point(200, 200));
    c.SetHands(14, 0, 16, Some(0));
    fromTen := c.duration.value;
    var c' := new Clock(true, 4, 14, 0, Point(0, 0), Point(100, 100), Point(200, 200));
    c'.SetHands(14, 0, 16, Some(0));
    fromFourteen := c'.duration.value;
  }

  /**
   * At noon `setHands` leaves the hour hand's `last` at a full turn. Moving
   * the hour hand 5 ticks forward then flips AM on, and the next move reads
   * the hour as 0 instead of 12.
   */
  lemma NoonHourDragFlipsToMidnight(d: Dial)
    requires d.hour == Hand(HourAngle(12, 0), HourAngle(12, 0), 12) && !d.am
    ensures MoveHour(d, 5, false, true).am
    ensures MoveHour(d, 5, false, true).hour.value == 12
    ensures MoveHour(MoveHour(d, 5, false, true), 10, false, true).hour.value == 0
  {
    NoonLastReportsSpuriousWrap();
  }
}
