/**
 * The React CountdownTimer component: a countdown to a given date, or by
 * default to the end of the current week (Sunday 23:59:59.999).  The state
 * follows the clock only while time is left; afterwards the last value
 * stays on screen.  Clock readings are inputs and local time is taken as
 * UTC.
 */
module WeekCountdown {
  import opened Wrappers
  import opened Text
  import opened Clock
  import opened Arith

  /**
   * getEndOfWeek: the day that is 7 - getDay() days ahead, at 23:59:59.999.
   * That day is always a Sunday one to seven days ahead, so on a Sunday it
   * is the next one.
   */
  function EndOfWeek(now: int): (t: int)
    ensures var today := DayNumber(now);
      var sunday := today + (7 - Weekday(today));
      1 <= sunday - today <= 7 && Weekday(sunday) == 0
      && t == sunday * DayMs + (23 * HourMs + 59 * MinuteMs + 59 * SecondMs + 999)
    ensures now < t && DayNumber(t) > DayNumber(now)
    ensures t % DayMs == DayMs - 1
  {
    var today := DayNumber(now);
    var sunday := today + (7 - Weekday(today));
    assert Weekday(sunday) == 0 by {
      DivModUnique(today + 4, 7, (today + 4) / 7, Weekday(today));
      DivModUnique(sunday + 4, 7, (today + 4) / 7 + 1, 0);
    }
    var t := sunday * DayMs + (23 * HourMs + 59 * MinuteMs + 59 * SecondMs + 999);
    DivModUnique(t, DayMs, sunday, DayMs - 1);
    DivModUnique(now, DayMs, today, now % DayMs);
    MulMonotone(DayMs, today + 1, sunday);
    t
  }

  /** The parts shown: each padded to two digits. */
  function Rendered(p: Parts): seq<string>
  {
    [Pad2(p.days), Pad2(p.hours), Pad2(p.minutes), Pad2(p.seconds)]
  }

  /** The state after a run of ticks: the breakdown at the last tick that still had time left. */
  function LastTimeLeft(target: int, ticks: seq<int>, initial: Parts): (p: Parts)
    ensures p == initial || (p.hours < 24 && p.minutes < 60 && p.seconds < 60)
    decreases |ticks|
  {
    if |ticks| == 0 then initial
    else if target - ticks[|ticks| - 1] > 0 then Breakdown(target - ticks[|ticks| - 1])
    else LastTimeLeft(target, ticks[..|ticks| - 1], initial)
  }

  /** Once time is up, further ticks leave the state as it was: it is not zeroed. */
  lemma {:induction false} StateKeptAfterExpiry(target: int, before: seq<int>, after: seq<int>, initial: Parts)
    requires forall k :: 0 <= k < |after| ==> target - after[k] <= 0
    ensures LastTimeLeft(target, before + after, initial) == LastTimeLeft(target, before, initial)
    decreases |after|
  {
    if |after| > 0 {
      var all := before + after;
      assert all[..|all| - 1] == before + after[..|after| - 1];
      assert all[|all| - 1] == after[|after| - 1];
      assert target - all[|all| - 1] <= 0;
      StateKeptAfterExpiry(target, before, after[..|after| - 1], initial);
    } else {
      assert before + after == before;
    }
  }

  /** The component's target and state. */
  class Countdown {
    const target: int
    var timeLeft: Parts

    /** The effect's target: the given date, else the end of the week at mount, calculated at once. */
    constructor(targetDate: Option<int>, now: int)
      ensures target == targetDate.GetOr(EndOfWeek(now))
      ensures timeLeft == LastTimeLeft(target, [now], Parts(0, 0, 0, 0))
      ensures targetDate.None? ==> timeLeft == Breakdown(EndOfWeek(now) - now)
    {
      target := targetDate.GetOr(EndOfWeek(now));
      timeLeft := Parts(0, 0, 0, 0);
      new;
      Calculate(now);
    }

    /** calculateTimeLeft: the state changes only while time is left. */
    method Calculate(now: int)
      modifies this
      ensures target - now > 0 ==> timeLeft == Breakdown(target - now)
      ensures target - now <= 0 ==> timeLeft == old(timeLeft)
    {
      var difference := target - now;
      if difference > 0 {
        timeLeft := Breakdown(difference);
      }
    }

    /** The interval's ticks in order. */
    method Run(ticks: seq<int>)
      modifies this
      ensures timeLeft == LastTimeLeft(target, ticks, old(timeLeft))
    {
      var i := 0;
      while i < |ticks|
        invariant 0 <= i <= |ticks|
        invariant timeLeft == LastTimeLeft(target, ticks[..i], old(timeLeft))
      {
        assert ticks[..i + 1][..i] == ticks[..i];
        Calculate(ticks[i]);
        i := i + 1;
      }
      assert ticks[..|ticks|] == ticks;
    }

    /** What the four boxes show. */
    function Shown(): (r: seq<string>)
      reads this
      ensures |r| == 4 && forall k :: 0 <= k < 4 ==> |r[k]| >= 2 && AllDigits(r[k])
      ensures timeLeft.hours < 24 && timeLeft.minutes < 60 && timeLeft.seconds < 60 ==> |r[1]| == 2 && |r[2]| == 2 && |r[3]| == 2
    {
      Rendered(timeLeft)
    }
  }
}
