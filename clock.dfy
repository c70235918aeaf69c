/**
 * Time as integer milliseconds of local wall-clock time (the value a
 * JavaScript Date shows through getFullYear/getDate/getHours, counted from
 * 1970-01-01 00:00 local).  Daylight-saving shifts are not modelled: every
 * local day is 86 400 000 ms long.
 */
module Clock {
  import opened Arith

  const SecondMs: int := 1000
  const MinuteMs: int := 60 * SecondMs
  const HourMs: int := 60 * MinuteMs
  const DayMs: int := 24 * HourMs

  /** A countdown display: days, hours, minutes and seconds. */
  datatype Parts = Parts(days: nat, hours: nat, minutes: nat, seconds: nat)

  /** A countdown display without a day field: hours are unbounded. */
  datatype Hms = Hms(hours: nat, minutes: nat, seconds: nat)

  /** Dividing milliseconds by k seconds is dividing whole seconds by k. */
  lemma ScaledDivision(t: nat, k: int)
    requires k > 0
    ensures t / (1000 * k) == (t / 1000) / k
    ensures t % (1000 * k) == 1000 * ((t / 1000) % k) + t % 1000
  {
    var s := t / 1000;
    var ms := t % 1000;
    var q := s / k;
    var r := s % k;
    assert s == k * q + r;
    assert t == (1000 * k) * q + (1000 * r + ms) by {
      assert t == 1000 * s + ms;
      assert 1000 * s == 1000 * (k * q) + 1000 * r;
      assert 1000 * (k * q) == (1000 * k) * q;
    }
    assert 1000 * r + ms < 1000 * k by {
      assert r <= k - 1;
      assert 1000 * r <= 1000 * (k - 1);
    }
    DivModUnique(t, 1000 * k, q, 1000 * r + ms);
  }

  /** Taking the remainder modulo a multiple of a first does not change the remainder modulo a. */
  lemma ModOfMod(s: int, a: int, b: int)
    requires a > 0 && b > 0
    ensures (s % (a * b)) % a == s % a
  {
    var r := s % (a * b);
    var q := s / (a * b);
    assert s == (a * b) * q + r;
    assert r == a * (r / a) + r % a;
    assert s == a * (b * q + r / a) + r % a by {
      assert (a * b) * q == a * (b * q);
    }
    DivModUnique(s, a, b * q + r / a, r % a);
  }

  lemma SecondsDivision(t: nat)
    ensures t / DayMs == (t / 1000) / 86400
    ensures t / HourMs == (t / 1000) / 3600
    ensures (t % DayMs) / HourMs == ((t / 1000) % 86400) / 3600
    ensures (t % HourMs) / MinuteMs == ((t / 1000) % 3600) / 60
    ensures (t % MinuteMs) / SecondMs == (t / 1000) % 60
  {
    var s := t / 1000;
    ScaledDivision(t, 86400);
    ScaledDivision(t, 3600);
    ScaledDivision(t, 60);
    ScaledDivision(t % DayMs, 3600);
    ScaledDivision(t % HourMs, 60);
    ScaledDivision(t % MinuteMs, 1);
    DivModUnique(t % DayMs, 1000, s % 86400, t % 1000);
    DivModUnique(t % HourMs, 1000, s % 3600, t % 1000);
    DivModUnique(t % MinuteMs, 1000, s % 60, t % 1000);
  }

  /** s seconds = 86400·days + 3600·hours + 60·minutes + seconds. */
  lemma SecondsRecompose(s: nat)
    ensures (s / 86400) * 86400 + ((s % 86400) / 3600) * 3600 + ((s % 3600) / 60) * 60 + s % 60 == s
    ensures (s / 3600) * 3600 + ((s % 3600) / 60) * 60 + s % 60 == s
  {
    ModOfMod(s, 3600, 24);
    ModOfMod(s, 60, 60);
    assert s % 86400 == 3600 * ((s % 86400) / 3600) + (s % 86400) % 3600;
    assert s % 3600 == 60 * ((s % 3600) / 60) + (s % 3600) % 60;
  }

  /**
   * The four-field breakdown used by every day-hour-minute-second countdown:
   * days = floor(t / day), hours = floor((t % day) / hour),
   * minutes = floor((t % hour) / minute), seconds = floor((t % minute) / 1000).
   */
  function Breakdown(t: nat): (p: Parts)
    ensures p.hours < 24 && p.minutes < 60 && p.seconds < 60
    ensures p.days * 86400 + p.hours * 3600 + p.minutes * 60 + p.seconds == t / 1000
  {
    SecondsDivision(t);
    SecondsRecompose(t / 1000);
    Parts(t / DayMs, (t % DayMs) / HourMs, (t % HourMs) / MinuteMs, (t % MinuteMs) / SecondMs)
  }

  /** The three-field breakdown: hours = floor(t / hour), unbounded. */
  function HoursBreakdown(t: nat): (p: Hms)
    ensures p.minutes < 60 && p.seconds < 60
    ensures p.hours * 3600 + p.minutes * 60 + p.seconds == t / 1000
  {
    SecondsDivision(t);
    SecondsRecompose(t / 1000);
    Hms(t / HourMs, (t % HourMs) / MinuteMs, (t % MinuteMs) / SecondMs)
  }

  /** Two distances in the same second display the same countdown. */
  lemma BreakdownDeterminedBySeconds(t: nat, u: nat)
    requires t / 1000 == u / 1000
    ensures Breakdown(t) == Breakdown(u)
  {
    SecondsDivision(t);
    SecondsDivision(u);
  }

  /** The local day number of an instant (floor division by the day length). */
  function DayNumber(now: int): int
  {
    now / DayMs
  }

  /** getDay(): 0 = Sunday … 6 = Saturday; 1970-01-01 was a Thursday. */
  function Weekday(day: int): (w: nat)
    ensures w < 7
  {
    (day + 4) % 7
  }

  predicate IsLeapYear(y: int)
  {
    y % 4 == 0 && (y % 100 != 0 || y % 400 == 0)
  }

  function YearLength(y: int): nat
  {
    if IsLeapYear(y) then 366 else 365
  }

  /** Number of days from 1970-01-01 to 1 January of year y (negative before 1970). */
  function DaysBeforeYear(y: int): int
    decreases if y >= 1970 then y - 1970 else 1970 - y
  {
    if y == 1970 then 0
    else if y > 1970 then DaysBeforeYear(y - 1) + YearLength(y - 1)
    else DaysBeforeYear(y + 1) - YearLength(y)
  }

  lemma NextYearStart(y: int)
    ensures DaysBeforeYear(y + 1) == DaysBeforeYear(y) + YearLength(y)
  {
  }

  function YearUp(y: int, day: int): (r: int)
    requires DaysBeforeYear(y) <= day
    ensures r >= y
    ensures DaysBeforeYear(r) <= day < DaysBeforeYear(r + 1)
    decreases day - DaysBeforeYear(y)
  {
    NextYearStart(y);
    if day < DaysBeforeYear(y + 1) then y else YearUp(y + 1, day)
  }

  function YearDown(y: int, day: int): (r: int)
    requires day < DaysBeforeYear(y + 1)
    ensures r <= y
    ensures DaysBeforeYear(r) <= day < DaysBeforeYear(r + 1)
    decreases DaysBeforeYear(y + 1) - day
  {
    NextYearStart(y);
    NextYearStart(y - 1);
    if DaysBeforeYear(y) <= day then y else YearDown(y - 1, day)
  }

  /** getFullYear() of a local day number. */
  function YearOfDay(day: int): (y: int)
    ensures DaysBeforeYear(y) <= day < DaysBeforeYear(y + 1)
  {
    NextYearStart(1969);
    if day >= 0 then YearUp(1970, day) else YearDown(1969, day)
  }

  /** Days in the months before November: Jan … Oct. */
  function DaysBeforeNovember(y: int): nat
  {
    if IsLeapYear(y) then 305 else 304
  }

  /** new Date(y, 10, 26) — 26 November of year y at 00:00:00.000 local time. */
  function November26(y: int): int
  {
    (DaysBeforeYear(y) + DaysBeforeNovember(y) + 25) * DayMs
  }

  /** The start of 26 November lies inside its year. */
  lemma November26InYear(y: int)
    ensures DaysBeforeYear(y) * DayMs <= November26(y) < DaysBeforeYear(y + 1) * DayMs
  {
    NextYearStart(y);
  }

  /** new Date(y, 0, 1) at 00:00 local time. */
  function NewYear(y: int): int
  {
    DaysBeforeYear(y) * DayMs
  }

  /** getFullYear() of an instant: the year whose 1 January starts at or before it. */
  function CurrentYear(now: int): (y: int)
    ensures NewYear(y) <= now < NewYear(y + 1)
  {
    var day := DayNumber(now);
    var y := YearOfDay(day);
    DivModUnique(now, DayMs, now / DayMs, now % DayMs);
    MulMonotone(DayMs, DaysBeforeYear(y), day);
    MulMonotone(DayMs, day + 1, DaysBeforeYear(y + 1));
    y
  }

  /** 26 November of the following year is always still ahead. */
  lemma NextNovember26Ahead(now: int)
    ensures November26(CurrentYear(now) + 1) > now
  {
    var y := CurrentYear(now);
    November26InYear(y + 1);
  }
}
