/**
 * Value projection: the stop time derived from start time and duration, and
 * the "HH:MM" text of a time.
 */
module Projection {
  import opened Angles

  datatype Time = Time(hour: int, minute: int)

  /** `x | 0`: JavaScript's ToInt32 of an integral value (wraps at 2^32). */
  function ToInt32(x: int): (r: int)
    ensures -0x8000_0000 <= r < 0x8000_0000
    ensures -0x8000_0000 <= x < 0x8000_0000 ==> r == x
  {
    var w := x % 0x1_0000_0000;
    if w >= 0x8000_0000 then w - 0x1_0000_0000 else w
  }

  /** Division of `x` by a positive `m`, truncated toward zero as `x/m | 0` does before the wrap. */
  function TruncDiv(x: int, m: int): int
    requires m > 0
  {
    if x >= 0 then x / m else -((-x) / m)
  }

  /** `getStopTime`: the start time advanced by the duration, wrapped to the day. */
  function StopTime(hour: int, minute: int, duration: int): Time
  {
    var d := minute + duration;
    var m := JsRem(d, 60);
    var h := hour + ToInt32(TruncDiv(d, 60));
    Time(JsRem(h, 24), JsRem(m, 60))
  }

  /**
   * For a start time on the dial and a non-negative duration (short of the
   * 32-bit wrap of `| 0`), the stop time is on the dial and lies `duration`
   * minutes after the start, modulo one day.
   */
  lemma {:induction false} StopTimeWraps(hour: int, minute: int, duration: int)
    requires 0 <= hour < 24 && 0 <= minute < 60 && duration >= 0
    requires minute + duration < 60 * 0x8000_0000
    ensures 0 <= StopTime(hour, minute, duration).hour < 24
    ensures 0 <= StopTime(hour, minute, duration).minute < 60
    ensures (StopTime(hour, minute, duration).hour * 60 + StopTime(hour, minute, duration).minute) % 1440
            == (hour * 60 + minute + duration) % 1440
  {
    var d := minute + duration;
    var q := d / 60;
    var r := d % 60;
    assert d == q * 60 + r;
    assert TruncDiv(d, 60) == q;
    assert ToInt32(q) == q;
    var h := hour + q;
    var t := StopTime(hour, minute, duration);
    assert t.minute == r;
    assert t.hour == h % 24;
    var k := h / 24;
    assert h == k * 24 + h % 24;
    assert t.hour * 60 + t.minute + k * 1440 == hour * 60 + minute + duration;
    ShiftByDays(t.hour * 60 + t.minute, k);
  }

  /**
   * At 2^31 hours `| 0` wraps the hour carry to -2^31, and the sign-keeping
   * `%` then gives a negative stop hour.
   */
  lemma StopTimeWrapsNegative()
    ensures StopTime(0, 0, 60 * 0x8000_0000).hour < 0
  {
    assert TruncDiv(60 * 0x8000_0000, 60) == 0x8000_0000;
    assert ToInt32(0x8000_0000) == -0x8000_0000;
  }

  lemma ShiftByDays(x: int, k: int)
    requires 0 <= x < 1440
    ensures (x + k * 1440) % 1440 == x
  {
  }

  lemma StopTimeExample()
    ensures StopTime(23, 50, 20) == Time(0, 10)
  {
  }

  /** Decimal digits of a non-negative number, most significant first. */
  function Digits(n: nat): (s: string)
    ensures |s| >= 1
    ensures forall i :: 0 <= i < |s| ==> '0' <= s[i] <= '9'
  {
    if n < 10 then [DigitChar(n)] else Digits(n / 10) + [DigitChar(n % 10)]
  }

  function DigitChar(d: nat): char
    requires d < 10
  {
    "0123456789"[d]
  }

  /** `num + ""` for an integer. */
  function NumberToString(n: int): string
  {
    if n < 0 then "-" + Digits(-n) else Digits(n)
  }

  /** The value a string of decimal digits denotes (leading zeros allowed). */
  function ParseDigits(s: string): nat
  {
    if s == [] then 0
    else ParseDigits(s[..|s| - 1]) * 10 + DigitValue(s[|s| - 1])
  }

  function DigitValue(c: char): nat
  {
    if '0' <= c <= '9' then (c as int - '0' as int) as nat else 0
  }

  lemma {:induction false} DigitsRoundTrip(n: nat)
    ensures ParseDigits(Digits(n)) == n
  {
    if n < 10 {
      DigitCharValue(n);
    } else {
      DigitsRoundTrip(n / 10);
      DigitCharValue(n % 10);
      var s := Digits(n);
      assert s == Digits(n / 10) + [DigitChar(n % 10)];
      assert s[..|s| - 1] == Digits(n / 10);
      assert ParseDigits(s) == ParseDigits(Digits(n / 10)) * 10 + DigitValue(DigitChar(n % 10));
    }
  }

  lemma DigitCharValue(d: nat)
    requires d < 10
    ensures DigitValue(DigitChar(d)) == d
  {
  }

  lemma {:induction false} DigitsLength(n: nat)
    ensures n < 10 ==> |Digits(n)| == 1
    ensures 10 <= n < 100 ==> |Digits(n)| == 2
  {
  }

  function Zeros(k: nat): (s: string)
    ensures |s| == k && forall i :: 0 <= i < k ==> s[i] == '0'
  {
    if k == 0 then [] else "0" + Zeros(k - 1)
  }

  /** What `padNumber` promises: `s` left-padded with '0' to at least `size` characters. */
  function Padded(s: string, size: int): string
  {
    if |s| >= size then s else Zeros(size - |s|) + s
  }

  /** `padNumber`: prepend "0" until the text is `size` characters long. */
  method PadNumber(num: int, size: int) returns (s: string)
    ensures s == Padded(NumberToString(num), size)
  {
    var t := NumberToString(num);
    s := t;
    assert s == Zeros(0) + t;
    while |s| < size
      invariant |t| <= |s|
      invariant s == Zeros(|s| - |t|) + t
      invariant |t| < size ==> |s| <= size
      invariant |t| >= size ==> s == t
      decreases size - |s|
    {
      PrependZero(|s| - |t|, t);
      s := "0" + s;
    }
  }

  lemma PrependZero(k: nat, t: string)
    ensures "0" + (Zeros(k) + t) == Zeros(k + 1) + t
  {
    assert Zeros(k + 1) == "0" + Zeros(k);
  }

  /** Leading zeros do not change the value of a digit string. */
  lemma {:induction false} LeadingZerosIgnored(k: nat, s: string)
    ensures ParseDigits(Zeros(k) + s) == ParseDigits(s)
    decreases |s|, k
  {
    if s == [] {
      if k > 0 {
        assert Zeros(k) + s == Zeros(k - 1) + "0";
        assert (Zeros(k - 1) + "0")[..k - 1] == Zeros(k - 1) + [];
        LeadingZerosIgnored(k - 1, []);
      }
    } else {
      var u := Zeros(k) + s;
      assert u[..|u| - 1] == Zeros(k) + s[..|s| - 1];
      LeadingZerosIgnored(k, s[..|s| - 1]);
    }
  }

  /** The "HH:MM" text built by `getStartTimeAsString` and `getStopTimeAsString`. */
  function TimeText(t: Time): string
  {
    Padded(NumberToString(t.hour), 2) + ":" + Padded(NumberToString(t.minute), 2)
  }

  /**
   * A time on the dial prints as two digits, a colon and two digits, and the
   * digits read back as the hour and the minute.
   */
  lemma {:induction false} TimeTextRoundTrip(t: Time)
    requires 0 <= t.hour < 100 && 0 <= t.minute < 100
    ensures |TimeText(t)| == 5 && TimeText(t)[2] == ':'
    ensures forall i :: 0 <= i < 5 && i != 2 ==> '0' <= TimeText(t)[i] <= '9'
    ensures ParseDigits(TimeText(t)[..2]) == t.hour
    ensures ParseDigits(TimeText(t)[3..]) == t.minute
  {
    TwoDigits(t.hour);
    TwoDigits(t.minute);
    var s := TimeText(t);
    assert s[..2] == Padded(NumberToString(t.hour), 2);
    assert s[3..] == Padded(NumberToString(t.minute), 2);
  }

  lemma {:induction false} TwoDigits(n: int)
    requires 0 <= n < 100
    ensures |Padded(NumberToString(n), 2)| == 2
    ensures forall i :: 0 <= i < 2 ==> '0' <= Padded(NumberToString(n), 2)[i] <= '9'
    ensures ParseDigits(Padded(NumberToString(n), 2)) == n
  {
    DigitsLength(n);
    DigitsRoundTrip(n);
    if n < 10 {
      LeadingZerosIgnored(1, Digits(n));
    }
  }

  lemma TimeTextExample()
    ensures TimeText(Time(7, 5)) == "07:05"
  {
  }
}
