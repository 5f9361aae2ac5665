/**
 * Time-of-day helpers shared by the billing and promotion services:
 * parsing "HH:MM", formatting a minute of the day, testing a window that
 * may run past midnight, and the calendar facts derived from an instant.
 *
 * An instant is an integer count of local wall-clock milliseconds since
 * 1970-01-01 00:00 (the time zone offset already applied, no daylight
 * saving), so the local date, weekday and minute of the day follow from it.
 */
module TimeRules {
  import opened Common

  const MsPerMinute: int := 60000
  const MinutesPerDay: int := 1440
  const MsPerDay: int := 86400000

  predicate IsDigit(c: char) { '0' <= c <= '9' }

  predicate AllDigits(s: string) { forall i :: 0 <= i < |s| ==> IsDigit(s[i]) }

  /** The value of a string of decimal digits, most significant first. */
  function DigitsValue(s: string): nat
    requires AllDigits(s)
  {
    if s == [] then 0 else 10 * DigitsValue(s[..|s| - 1]) + (s[|s| - 1] as int - '0' as int)
  }

  /**
   * JavaScript `Number(s)` on the strings this model covers: the empty
   * string is 0, a string of decimal digits is its value, anything else is
   * NaN (None).
   */
  function ParseNumber(s: string): Option<int>
  {
    if s == "" then Some(0)
    else if AllDigits(s) then Some(DigitsValue(s))
    else None
  }

  /** The index of the first ':' in s. */
  function FirstColon(s: string): (i: nat)
    requires ':' in s
    ensures i < |s| && s[i] == ':' && ':' !in s[..i]
  {
    if s[0] == ':' then 0 else 1 + FirstColon(s[1..])
  }

  /** JavaScript `s.split(':')`. */
  function Split(s: string): (parts: seq<string>)
    ensures |parts| >= 1
    decreases |s|
  {
    if ':' in s then
      var i := FirstColon(s);
      [s[..i]] + Split(s[i + 1..])
    else
      [s]
  }

  /**
   * `hhmmToMinutes`: an empty string reads as "00:00"; the hour field must
   * be a number (else the result is NaN, None); a missing or non-numeric
   * minute field counts as 0.
   */
  function HhmmToMinutes(hhmm: string): (r: Option<int>)
    ensures r.Some? ==> r.value >= 0
    ensures hhmm != "" && ':' !in hhmm && AllDigits(hhmm) ==> r == Some(DigitsValue(hhmm) * 60)
    ensures hhmm != "" && ':' !in hhmm && !AllDigits(hhmm) ==> r.None?
  {
    var parts := Split(if hhmm == "" then "00:00" else hhmm);
    var h := ParseNumber(parts[0]);
    var m := if |parts| > 1 then ParseNumber(parts[1]) else None;
    if h.None? then None else Some(h.value * 60 + m.GetOr(0))
  }

  function DigitChar(d: int): (c: char)
    requires 0 <= d < 10
    ensures IsDigit(c) && c as int - '0' as int == d
  {
    ('0' as int + d) as char
  }

  /** `String(n).padStart(2, '0')` for 0 <= n < 100. */
  function Pad2(n: int): (s: string)
    requires 0 <= n < 100
    ensures |s| == 2 && AllDigits(s) && DigitsValue(s) == n
  {
    var s := [DigitChar(n / 10), DigitChar(n % 10)];
    assert s[..1] == [DigitChar(n / 10)] && s[..1][..0] == [];
    assert DigitsValue(s[..1]) == n / 10;
    s
  }

  /** `hhmmString(date)`: the minute of the day written as "HH:MM". */
  function HhmmString(minuteOfDay: int): (s: string)
    requires 0 <= minuteOfDay < MinutesPerDay
    ensures |s| == 5 && s[2] == ':'
  {
    Pad2(minuteOfDay / 60) + ":" + Pad2(minuteOfDay % 60)
  }

  /** Reading back a formatted minute of the day gives that minute. */
  lemma {:induction false} HhmmRoundTrip(t: int)
    requires 0 <= t < MinutesPerDay
    ensures HhmmToMinutes(HhmmString(t)) == Some(t)
  {
    var hh, mm := Pad2(t / 60), Pad2(t % 60);
    var s := HhmmString(t);
    assert s == hh + ":" + mm;
    assert s != "";
    assert ':' !in hh;
    assert ':' !in mm;
    assert ':' in s by { assert s[2] == ':'; }
    assert FirstColon(s) == 2 by {
      assert s[0] == hh[0] && s[1] == hh[1];
      assert s[0] != ':' && s[1] != ':';
      assert s[1..][0] != ':';
      assert s[1..][1..][0] == ':';
    }
    assert s[..2] == hh;
    assert s[3..] == mm;
    assert Split(mm) == [mm];
    assert Split(s) == [hh, mm];
  }

  /** Membership of a minute in the window [f, t]; f > t runs past midnight. */
  predicate WindowContains(f: int, t: int, cur: int)
  {
    if f <= t then f <= cur <= t else cur >= f || cur <= t
  }

  /**
   * `inTimeRange`: a malformed bound makes the window match everything;
   * otherwise the current time must lie inside it (a NaN current time
   * compares false with everything).
   */
  function InTimeRange(cur: string, from: string, to: string): (r: bool)
    ensures HhmmToMinutes(from).None? || HhmmToMinutes(to).None? ==> r
    ensures HhmmToMinutes(from).Some? && HhmmToMinutes(to).Some? && HhmmToMinutes(cur).None? ==> !r
  {
    var c := HhmmToMinutes(cur);
    var f := HhmmToMinutes(from);
    var t := HhmmToMinutes(to);
    if f.None? || t.None? then true
    else if f.value <= t.value then c.Some? && c.value >= f.value && c.value <= t.value
    else c.Some? && (c.value >= f.value || c.value <= t.value)
  }

  /**
   * At a formatted minute of the day, `inTimeRange` is exactly window
   * membership: between the bounds inclusive for a daytime range, at or
   * after the start or at or before the end for an overnight one.
   */
  lemma {:induction false} InTimeRangeAt(t: int, from: string, to: string)
    requires 0 <= t < MinutesPerDay
    requires HhmmToMinutes(from).Some? && HhmmToMinutes(to).Some?
    ensures InTimeRange(HhmmString(t), from, to)
      <==> WindowContains(HhmmToMinutes(from).value, HhmmToMinutes(to).value, t)
  {
    HhmmRoundTrip(t);
  }

  /** The bounds "22:00" and "03:00" read as 22 * 60 and 3 * 60 minutes. */
  lemma OvernightBounds()
    ensures HhmmToMinutes("22:00") == Some(22 * 60) && HhmmToMinutes("03:00") == Some(3 * 60)
  {
    assert HhmmString(22 * 60) == "22:00" by {
      assert Pad2(22) == "22";
      assert Pad2(0) == "00";
    }
    assert HhmmString(3 * 60) == "03:00" by {
      assert Pad2(3) == "03";
      assert Pad2(0) == "00";
    }
    HhmmRoundTrip(22 * 60);
    HhmmRoundTrip(3 * 60);
  }

  /** The overnight window 22:00-03:00 holds 23:30 and 02:00 but not 12:00. */
  lemma OvernightWindowExample()
    ensures InTimeRange(HhmmString(23 * 60 + 30), "22:00", "03:00")
    ensures InTimeRange(HhmmString(2 * 60), "22:00", "03:00")
    ensures !InTimeRange(HhmmString(12 * 60), "22:00", "03:00")
  {
    OvernightBounds();
    InTimeRangeAt(23 * 60 + 30, "22:00", "03:00");
    InTimeRangeAt(2 * 60, "22:00", "03:00");
    InTimeRangeAt(12 * 60, "22:00", "03:00");
  }

  /** The local calendar date of an instant, as a day number. */
  function LocalDay(at: int): int { at / MsPerDay }

  /** `date.getDay()`: 0 is Sunday; day 0 (1970-01-01) was a Thursday. */
  function Weekday(at: int): (d: int)
    ensures 0 <= d < 7
  {
    (LocalDay(at) + 4) % 7
  }

  /** `getHours() * 60 + getMinutes()`. */
  function MinuteOfDay(at: int): (m: int)
    ensures 0 <= m < MinutesPerDay
    ensures LocalDay(at) * MsPerDay + m * MsPerMinute <= at < LocalDay(at) * MsPerDay + (m + 1) * MsPerMinute
  {
    (at % MsPerDay) / MsPerMinute
  }

  /** `d.setHours(23, 59, 59, 999)`: the last millisecond of at's local date. */
  function EndOfDay(at: int): (e: int)
    ensures LocalDay(e) == LocalDay(at) && at <= e
    ensures LocalDay(e + 1) == LocalDay(at) + 1
  {
    LocalDay(at) * MsPerDay + MsPerDay - 1
  }

  /** An instant is past the end of v's date exactly when its date is later. */
  lemma {:induction false} AfterEndOfDay(now: int, v: int)
    ensures now > EndOfDay(v) <==> LocalDay(now) > LocalDay(v)
  {
    var e := EndOfDay(v);
    if now > e {
      assert LocalDay(now) >= LocalDay(e + 1);
    } else {
      assert LocalDay(now) <= LocalDay(e);
    }
  }
}
