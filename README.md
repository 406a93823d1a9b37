# TouchClock: the time and drag engine of a touchable analog clock

TouchClock is a canvas widget. The user drags three hands on a dial to pick
a time of day and a duration: an hour hand, a minute hand and a duration
hand. This project models the engine behind the drawing:

- the conversions between hour, minute and duration values and hand angles;
- the carries during a drag. Passing 12 with the hour hand flips AM/PM.
  Passing 12 with the minute hand adds or removes an hour. The duration hand
  follows the hour hand when only one hand is held;
- the assignment of pointers to hands;
- the pointer-down, pointer-move and pointer-up state machine;
- the stop time and the "HH:MM" text.

Angles are integer ticks, 720 per turn, so one tick is one minute of hour-hand
travel and tick 0 is 12 o'clock. Every angle the source computes from a value
is a whole number of ticks. The source holds these angles as floating-point
radians, and the ticks model them without that rounding (see "## Left out").

Modules:

- `Angles` (angles.dfy): `getAngle` with JavaScript's sign-keeping `%`,
  `getHourAngle`, `getMinuteAngle`, the value-from-angle readings,
  `getAngleDifference` and the crossing tests.
- `Projection` (projection.dfy): `getStopTime`, `padNumber` (a loop) and the
  "HH:MM" text.
- `HitTest` (hit_test.dfy): `handAt` as a specification and the count of
  pointers that hit a hand.
- `Drag` (drag.dfy): one pass of the `moveHands` loop for each hand, and the
  whole loop, as functions on the hands and the AM flag.
- `TouchClock` (touch_clock.dfy): class `Clock`. Its fields are the closure's
  state and its methods are the closure's functions. Each method's `ensures`
  ties the new state to the functions above.

Some plain facts about the code that the model keeps:

- `getAngleDifference` only flips the sign of the difference. It does not
  shorten it to at most half a turn.
- Two pointers may grab the same hand.
- `setHands` does not bring out-of-range inputs back into range.

Three behaviours of the code are kept and shown by lemmas:

- The crossing tests compare the raw `last` angle with the normalised new
  angle. At noon `setHands` leaves `last` at a full turn (720 ticks). A small
  forward drag of the hour hand then flips AM on, and the next move reads the
  hour as 0 instead of 12.
- The hour value is stored before AM/PM is toggled in the same event.
- With a fourth argument, `setHands` measures the duration from where the
  hour hand stood before the call, not from the new hour.

## Model

| member | source | states |
|---|---|---|
| `Angles.GetAngleNormalises` | TouchClock.js:201-204 | for angles above minus one turn, `getAngle` lands in [0, 720), equals the angle mod 720, and is idempotent |
| `Angles.GetAngleNegativeBelowOneTurn` | TouchClock.js:201-204 | below minus one turn the JavaScript remainder keeps the sign, so `getAngle` can return a negative angle |
| `Angles.HourRoundTrip` | TouchClock.js:206-209 | for h in 0..23 and m in 0..59, reading the hour off `getHourAngle(h, m)` with AM = h < 12 gives back h, including h = 12 (a full-turn angle, read as 0 + 12) |
| `Angles.MinuteRoundTrip` | TouchClock.js:211-214 | reading the minute off `getMinuteAngle(m)` gives back m for m in 0..59 |
| `Angles.ValuesFromAngleInRange` | TouchClock.js:287-300 | the hour read from any angle above minus one turn is in 0..23 and is below 12 exactly when AM is set; the minute is in 0..59 |
| `Angles.AngleDifference` | TouchClock.js:221-229 | the result has the magnitude of the input, and it is negated exactly when the other way round (a turn minus the magnitude) is shorter |
| `Angles.AngleDifferenceTakesShorterArc` | TouchClock.js:221-229 | for a difference of less than a turn, a positive result means the forward arc is at most half a turn and a negative one means it is at least half a turn; zero only for zero |
| `Angles.WrapIffShortWayThroughTwelve` | TouchClock.js:368-369 | with both angles on the dial, the forward crossing test holds exactly when the angle fell by more than half a turn, the backward test exactly when it rose by more than half a turn, and never both |
| `Angles.NoonLastReportsSpuriousWrap` | TouchClock.js:206-209 | at noon the unnormalised hour angle is a full turn, and comparing it raw makes a 5-tick forward move count as a forward wrap through 12 |
| `Angles.ForwardSpan` | TouchClock.js:275-285 | the duration read from the two angles is never negative; when the duration angle is behind the hour angle it is less than a turn and differs from the raw gap by whole turns |
| `Angles.DurationRoundTrip` | TouchClock.js:315-320 | placing the duration hand with `setDurationAngle` and reading it back gives the duration mod 720 |
| `Drag.HourDragFacts` | TouchClock.js:357-373 | an hour drag stores the hour read with the pre-toggle AM flag, toggles AM exactly on a forward or backward wrap of raw `last` against the normalised angle, sets `last` to the normalised angle, leaves the minute hand, and moves the duration hand only when it is in use and one hand is held |
| `Drag.HourDragTogglesThroughTwelve` | TouchClock.js:357-373 | with `last` on the dial, AM flips exactly when the hour hand jumped by more than half a turn, that is when the short way runs through 12 |
| `Drag.MinuteDragCarries` | TouchClock.js:374-394 | a minute drag stores the minute read off the angle; a forward wrap adds one hour and a backward wrap removes one, mod 24; otherwise the hour is kept; AM and the hour hand's `last` are untouched; the duration hand is untouched unless it is in use and one hand is held |
| `Drag.MinuteDragCarriesThroughTwelve` | TouchClock.js:374-394 | with `last` on the dial, the hour goes up by one (23 to 0) when the angle fell by more than half a turn, so the hand passed 12 going forward; it goes down by one (0 to 23) when the angle rose by more than half a turn; otherwise it is kept |
| `Drag.AddHoursWraps` | TouchClock.js:331-342 | `addHours` keeps the hour in 0..23: 23 + 1 gives 0 and 0 - 1 gives 23 |
| `Drag.MinuteDragKeepsHourHandInStep` | TouchClock.js:374-394 | when the minute hand is the only hand held, or it carried into the hour, the hour hand stands where the hour and minute values put it |
| `Drag.DurationFollowsHourHand` | TouchClock.js:364-366 | with duration tracking on and one hand held, after an hour or minute drag the duration hand keeps its offset of `duration.value` ticks from the hour hand |
| `Drag.DurationDragReadsForwardSpan` | TouchClock.js:395-398 | a duration drag stores the forward gap from the hour hand, in [0, 720) and equal to the angle difference mod 720; the hour and minute hands and AM are untouched |
| `Drag.MoveAllKeepsRange` | TouchClock.js:344-400 | whatever hands the pointers hold, a drag keeps the hour in 0..23, the minute in 0..59 and the duration non-negative |
| `Drag.MoveAllLeavesUntrackedDuration` | TouchClock.js:364-366 | with duration tracking off, a drag in which no pointer holds the duration hand leaves the duration hand as it was |
| `Drag.MoveAllWithoutHandsIsIdentity` | TouchClock.js:346-351 | a drag in which no pointer holds a hand changes nothing |
| `Drag.SnapRoundTrip` | TouchClock.js:322-329 | for values in range whose AM flag agrees with the hour (AM exactly when the hour is below 12), after `setAngles` the hour and minute read back from the hands are the values that placed them, and the duration reads back modulo one turn (720 minutes); with duration tracking off the duration hand is left alone. The AM condition fails after a drag through 12, because the hour is stored before AM is toggled |
| `HitTest.FirstHitIsFirst` | TouchClock.js:402-416 | the hit search finds nothing exactly when no hand is within reach, and otherwise returns a hand within reach with no earlier hand within reach |
| `HitTest.HandUnderPriority` | TouchClock.js:402-416 | `handAt` prefers the hour hand, then the minute hand, then the duration hand, and returns null when none is within `radiusHandle` |
| `HitTest.HitCountBounds` | TouchClock.js:418-423 | the number of grabbing pointers is at most the number of pointers; it is zero exactly when no pointer hits a hand and equal to the pointer count exactly when all do |
| `HitTest.SameHandTwice` | TouchClock.js:418-423 | two pointers on the hour hand both grab it and both count |
| `Projection.StopTimeWraps` | TouchClock.js:249-259 | for a start time on the dial and a non-negative duration with minute + duration below 2^31 hours (the 32-bit wrap of `Projection.ToInt32`), the stop hour is in 0..23, the stop minute in 0..59, and stop is start plus duration mod 1440 minutes |
| `Projection.StopTimeExample` | TouchClock.js:249-259 | 23:50 plus 20 minutes stops at 00:10 |
| `Projection.ToInt32` | TouchClock.js:253 | the 32-bit truncation of the hour carry lands in the signed 32-bit range and keeps every value already in it |
| `Projection.Digits` | TouchClock.js:233 | `num + ""` of a non-negative number is a non-empty string of decimal digits |
| `Projection.DigitsRoundTrip` | TouchClock.js:233 | the decimal text of a number reads back as that number |
| `Projection.PadNumber` | TouchClock.js:231-239 | the loop returns the number's text left-padded with '0' to the requested width (unchanged when already that long) |
| `Projection.LeadingZerosIgnored` | TouchClock.js:235-236 | the zeros `padNumber` adds do not change the value the digits denote |
| `Projection.TimeTextRoundTrip` | TouchClock.js:261-273 | for an hour and a minute below 100 the text is two digits, a colon and two digits, and the digits read back as the hour and the minute |
| `Projection.TimeTextExample` | TouchClock.js:261-266 | 7:05 prints as "07:05" |
| `TouchClock.Clock.constructor` | TouchClock.js:571-597 | a new clock shows the given time with a 120-minute duration (when in use), AM inferred from the hour, and hands placed so the values read back. Each `last` angle equals its hand's unnormalised angle. No pointer is down. The tips of the hour and minute hands, and of the duration hand when it is in use, are at the given drawn positions |
| `TouchClock.Clock.SetHourFromAngle` | TouchClock.js:287-293 | stores the hour read off the hour hand with the current AM flag; for an angle above minus one turn it is in 0..23 and below 12 exactly when AM is set |
| `TouchClock.Clock.SetMinuteFromAngle` | TouchClock.js:295-300 | stores the minute read off the minute hand, in 0..59 for an angle above minus one turn |
| `TouchClock.Clock.SetDurationFromAngle` | TouchClock.js:275-285 | the loop raises the duration angle by whole turns and stores a non-negative duration; for angles above minus one turn it is the angle gap mod 720 |
| `TouchClock.Clock.SetHourAngle` | TouchClock.js:302-307 | places the hour hand from the hour and minute values; for values on the dial the hour reads back with AM = hour < 12 |
| `TouchClock.Clock.SetMinuteAngle` | TouchClock.js:309-313 | places the minute hand from the minute value, which reads back for minutes 0..59 |
| `TouchClock.Clock.SetDurationAngle` | TouchClock.js:315-320 | places the duration hand `duration.value` ticks past the hour hand, so the duration reads back mod 720 |
| `TouchClock.Clock.SetAngles` | TouchClock.js:322-329 | places hour and minute hands from the values, and the duration hand only when duration tracking is on |
| `TouchClock.Clock.AddHours` | TouchClock.js:331-342 | the loop adds `x` hours and leaves the hour in 0..23 (the hour plus `x`, mod 24), then re-places the hour hand |
| `TouchClock.Clock.MoveHands` | TouchClock.js:344-400 | the loop over the pointers, last to first, has the effect of `Drag.MoveAll`: each held hand turns to its pointer's angle with the carries above |
| `TouchClock.Clock.MoveHourHand` | TouchClock.js:357-373 | dragging the hour hand has the effect of `Drag.MoveHour`: the value is read with the old AM flag, the duration hand follows only for a single grabbed hand with durations on, and AM flips when the hand crosses twelve |
| `TouchClock.Clock.MoveMinuteHand` | TouchClock.js:374-394 | dragging the minute hand has the effect of `Drag.MoveMinute`: a single grabbed hand drags the hour hand along, and crossing twelve adds or subtracts one hour |
| `TouchClock.Clock.HandAt` | TouchClock.js:402-416 | the loop returns the first hand, in the order hour, minute, duration, whose tip is within `radiusHandle` of the pointer, or none |
| `TouchClock.Clock.AssignPointersToHands` | TouchClock.js:418-423 | every pointer gets the hand under it, entries beyond the pointers are kept, and `handsGrabbed` grows by the number of pointers that hit a hand |
| `TouchClock.Clock.PointerDown` | TouchClock.js:521-534 | resets the grab count, assigns the pointers, and leaves the event to the page exactly when no pointer hit a hand |
| `TouchClock.Clock.PointerMove` | TouchClock.js:505-519 | with no hand held it leaves the event to the page and changes nothing; otherwise it consumes the event and moves the held hands as `Drag.MoveAll` says |
| `TouchClock.Clock.PointerUp` | TouchClock.js:491-503 | with no hand held it leaves the event to the page and changes nothing; otherwise it ends the grab, drops the pointers and snaps the hands to the values, keeping `last` |
| `TouchClock.Clock.SetHands` | TouchClock.js:571-597 | sets hour and minute and AM = hour < 12; a duration of 0 becomes 120; with a fourth argument the duration runs from the previous hour angle to that time; all hands are placed and `last` is the unnormalised angle; values on the dial read back from the hands |
| `TouchClock.Clock.PlaceTips` | TouchClock.js:71-79 | records the drawn tip positions used by the hit test; the duration tip only when the duration hand is drawn |
| `TouchClock.Clock.GetStartTimeAsString` | TouchClock.js:241-266 | the start time as "HH:MM", whose digits read back as hour and minute when both are on the dial |
| `TouchClock.Clock.GetStopTimeAsString` | TouchClock.js:249-273 | the stop time as "HH:MM". When hour, minute and duration are in range and minute + duration is below 2^31 hours, the text is five characters whose digits denote start plus duration mod one day |
| `Projection.StopTimeWrapsNegative` | TouchClock.js:251-257 | at 2^31 hours the 32-bit conversion wraps the hour carry to -2^31, and the stop hour comes out negative |
| `TouchClock.TargetDurationMeasuredFromPreviousHour` | TouchClock.js:582-588 | with a fourth argument `setHands` measures the duration from the old hour angle: a clock built at 10:00 and set to 14:00 with a target of 16:00 stores 360 minutes, while one built at 14:00 stores 120 |
| `TouchClock.NoonHourDragFlipsToMidnight` | TouchClock.js:357-373 | after `setHands(12, 0, …)`, dragging the hour hand to 5 ticks flips AM on while still storing 12, and the next move to 10 ticks stores hour 0 |

## Left out

- Drawing (TouchClock.js:56-199) is not modelled; `draw()` is a no-op. Its
  one effect the engine reads, the tip position of each hand (78-79), is
  given by `Clock.PlaceTips`. The constructor takes the tip positions that
  the first `draw()` computes as parameters. With duration tracking off the
  duration hand is never drawn, so its position stays absent and it cannot
  be hit, as with the source's undefined coordinates.
- Event registration, `init` and `recordScrollPosition` (536-542, 599-634)
  are browser plumbing and are not modelled.
- `resize` (544-569) is float geometry over the canvas size. Only
  `radiusHandle = 4 * radiusCenter`, with `radiusCenter` at least 4, is kept,
  and `radiusCenter` is fixed at construction.
- `setPointers` (425-483) is not modelled. Coordinate correction (offset
  walk, scroll, `* ratio | 0`) is float scaling over DOM values. Pointer-down
  takes canvas positions and pointer-move takes one angle per pointer.
- The touch branch of `setPointers` assigns an undeclared variable (448)
  under strict mode and throws. Touch input, and the partial-release
  re-entry (432-435) that leads into it, are therefore not modelled as
  succeeding. Pointer lists stand for whatever positions reach the engine.
- `Math.atan2` and `Math.sqrt` are not modelled. A pointer's angle is an
  input in ticks, and the range atan2 plus a quarter turn can produce is the
  `PointerAngle` predicate. The hit test compares squared distances, which
  is the same test for a non-negative radius.
- Floating point is not modelled. Angles are exact integer ticks, so the
  rounding of the float conversions and of `Math.round` in
  `setDurationFromAngle` is not captured.
- Projection.StopTimeWraps: holds only while minute + duration stays below
  2^31 hours. Beyond that `| 0` wraps the hour carry and the stop hour can
  be negative, as `Projection.StopTimeWrapsNegative` shows.
- Angles.HourRoundTrip: holds for the tick model only. In the source's
  doubles, the hour read back from a hand placed from it can come out one
  lower: 2:00 reads back as 1, because `Math.floor` sees a value just below 2.
- Angles.MinuteRoundTrip: holds for the tick model only. In the source's
  doubles, the minute read back from a hand placed from it can come out one
  lower: minute 1 reads back as 0.
- JavaScript values are integers and booleans. `setHands` is public, so `dh`
  can be omitted, null or NaN. Each of these acts like 0 in `dh || 120`, and
  all become 120, so the model's `dh = 0` covers them. `am ^= true` yields a number
  in the source and is modelled as boolean negation, which has the same
  truthiness.
- `hands.duration.value` and the hand angles start undefined in the source.
  When duration tracking is off they stay untouched; the model starts them
  at 0.
- TouchClock.Clock.GetStopTimeAsString: with duration tracking off, the
  source's `getStopTime` (251-257) adds the undefined duration and gets NaN,
  and `padNumber` turns that into "NaN", so the text is "HH:NaN". The model's
  `GetStopTime` and `GetStopTimeAsString` return the start time instead,
  because the model's duration starts at 0.
- The initial time from `new Date()` (639-643) is a constructor parameter.
- `getDurationAngle` (216-219) is never called and is not modelled.
- The update `callback` (513-514) is a foreign call and is not modelled.
- `consumeEvent` (485-489) is modelled only by its return value. The
  `preventDefault` call on the event is not modelled.
- `getStartTime` and `getStopTime` (241-259) are plain functions of the
  state, `Clock.GetStartTime` and `Clock.GetStopTime`. Their properties are
  stated by `Projection.StopTimeWraps` and by the string methods.
