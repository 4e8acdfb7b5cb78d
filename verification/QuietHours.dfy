/**
 * The quiet window for automatic notifications (apps/backend/src/notifications/quiet-hours.ts).
 * Instants are milliseconds since the epoch; the zone is a fixed whole number of minutes off UTC.
 */
module QuietHours {
  import opened Numerals

  const DAY_MINUTES: int := 1440
  const MINUTE_MS: int := 60_000

  datatype QuietHours = QuietHours(enabled: bool, start: string, end: string, offset: int)

  /** HH:MM on a 24-hour clock, as the settings form accepts it. */
  predicate IsTimeOfDay(s: string) {
    && |s| == 5 && s[2] == ':'
    && IsDigit(s[0]) && IsDigit(s[1]) && IsDigit(s[3]) && IsDigit(s[4])
    && 10 * DigitValue(s[0]) + DigitValue(s[1]) < 24 && DigitValue(s[3]) < 6
  }

  function ToMinutes(hhmm: string): (m: nat)
    requires IsTimeOfDay(hhmm)
    ensures m < DAY_MINUTES
  {
    (10 * DigitValue(hhmm[0]) + DigitValue(hhmm[1])) * 60 + 10 * DigitValue(hhmm[3]) + DigitValue(hhmm[4])
  }

  predicate WellFormed(q: QuietHours) {
    IsTimeOfDay(q.start) && IsTimeOfDay(q.end)
  }

  /** Minutes since local midnight. */
  function LocalMinutes(q: QuietHours, now: int): (m: nat)
    ensures m < DAY_MINUTES
  {
    (now / MINUTE_MS + q.offset) % DAY_MINUTES
  }

  predicate Inside(start: nat, end: nat, cur: nat) {
    if start < end then start <= cur < end else cur >= start || cur < end
  }

  function MinutesLeft(end: nat, cur: nat): (left: nat)
    requires end < DAY_MINUTES && cur < DAY_MINUTES
    ensures left == if cur <= end then end - cur else end - cur + DAY_MINUTES
  {
    (end - cur + DAY_MINUTES) % DAY_MINUTES
  }

  /** How long the quiet window still lasts, in milliseconds; 0 when it is not open. */
  function RemainingMs(q: QuietHours, now: int): int
    requires WellFormed(q)
  {
    if !q.enabled then 0
    else
      var start, end := ToMinutes(q.start), ToMinutes(q.end);
      if start == end then 0
      else
        var cur := LocalMinutes(q, now);
        if !Inside(start, end, cur) then 0
        else MinutesLeft(end, cur) * MINUTE_MS - now % MINUTE_MS
  }

  // ---------------------------------------------------------------- the window on the time line

  /** The instant, in UTC milliseconds, at which local day `day` begins. */
  function Midnight(q: QuietHours, day: int): int {
    (day * DAY_MINUTES - q.offset) * MINUTE_MS
  }

  function Opens(q: QuietHours, day: int): int
    requires WellFormed(q)
  {
    Midnight(q, day) + ToMinutes(q.start) * MINUTE_MS
  }

  /** The first end minute at or after the opening: the next day's when the window wraps. */
  function Closes(q: QuietHours, day: int): int
    requires WellFormed(q)
  {
    Midnight(q, if ToMinutes(q.start) <= ToMinutes(q.end) then day else day + 1) + ToMinutes(q.end) * MINUTE_MS
  }

  ghost predicate QuietOn(q: QuietHours, day: int, t: int)
    requires WellFormed(q)
  {
    Opens(q, day) <= t < Closes(q, day)
  }

  ghost predicate IsQuiet(q: QuietHours, t: int)
    requires WellFormed(q)
  {
    q.enabled && exists day :: QuietOn(q, day, t)
  }

  /** The window has opened after `from`, and is still open at `t`. */
  ghost predicate OpenedSince(q: QuietHours, from: int, t: int)
    requires WellFormed(q)
  {
    q.enabled && exists day :: from < Opens(q, day) && QuietOn(q, day, t)
  }

  /** Outside the window only its next opening brings quiet. */
  lemma QuietLaterIff(q: QuietHours, from: int, t: int)
    requires WellFormed(q) && from <= t && !IsQuiet(q, from)
    ensures IsQuiet(q, t) <==> OpenedSince(q, from, t)
  {
    hide Opens, Closes;
    if IsQuiet(q, t) {
      var day :| QuietOn(q, day, t);
      assert !QuietOn(q, day, from);
    }
  }

  /** The local day an instant falls on. */
  function DayOf(q: QuietHours, t: int): int {
    (t / MINUTE_MS + q.offset) / DAY_MINUTES
  }

  lemma DayHoldsInstant(q: QuietHours, t: int)
    ensures t == Midnight(q, DayOf(q, t)) + LocalMinutes(q, t) * MINUTE_MS + t % MINUTE_MS
  {
  }

  /** The day whose window, as the code decides it, holds the instant. */
  function WindowDay(q: QuietHours, t: int): int
    requires WellFormed(q)
  {
    if ToMinutes(q.start) < ToMinutes(q.end) || LocalMinutes(q, t) >= ToMinutes(q.start) then DayOf(q, t)
    else DayOf(q, t) - 1
  }

  /** The code's case analysis finds the window the instant lies in, and measures to its end. */
  lemma RemainingReachesClose(q: QuietHours, t: int)
    requires WellFormed(q)
    ensures RemainingMs(q, t) > 0 ==>
              QuietOn(q, WindowDay(q, t), t) && t + RemainingMs(q, t) == Closes(q, WindowDay(q, t))
    ensures RemainingMs(q, t) >= 0
  {
    hide ToMinutes, LocalMinutes, DayOf;
    DayHoldsInstant(q, t);
  }

  /** On one time axis in minutes, `days` after the day `cur` is on: only two windows can hold it. */
  lemma WindowHolding(start: nat, end: nat, cur: nat, ms: nat, days: int)
    requires start < DAY_MINUTES && end < DAY_MINUTES && cur < DAY_MINUTES && ms < MINUTE_MS
    requires (days * DAY_MINUTES + start) * MINUTE_MS <= cur * MINUTE_MS + ms
    requires cur * MINUTE_MS + ms < ((if start <= end then days else days + 1) * DAY_MINUTES + end) * MINUTE_MS
    ensures start != end && Inside(start, end, cur) && cur != end
  {
    assert days * DAY_MINUTES + start <= cur < (if start <= end then days else days + 1) * DAY_MINUTES + end;
  }

  lemma QuietMeansRemaining(q: QuietHours, day: int, t: int)
    requires WellFormed(q) && q.enabled && QuietOn(q, day, t)
    ensures RemainingMs(q, t) > 0
  {
    hide ToMinutes, LocalMinutes, DayOf, Inside, MinutesLeft;
    DayHoldsInstant(q, t);
    var ms := t % MINUTE_MS;
    WindowHolding(ToMinutes(q.start), ToMinutes(q.end), LocalMinutes(q, t), ms, day - DayOf(q, t));
  }

  /**
   * The remaining time is exact: it is positive exactly inside the window, every instant before
   * it has run out is still inside, and at its end the window is closed and stays closed for a
   * whole minute, so also when the run deferred by one more second comes.
   */
  lemma RemainingIsExact(q: QuietHours, now: int)
    requires WellFormed(q)
    ensures var r := RemainingMs(q, now);
            && (r > 0 <==> IsQuiet(q, now))
            && (forall t :: now <= t < now + r ==> IsQuiet(q, t))
            && (r > 0 ==> forall t :: now + r <= t < now + r + MINUTE_MS ==> !IsQuiet(q, t))
  {
    var r, day := RemainingMs(q, now), WindowDay(q, now);
    RemainingReachesClose(q, now);
    hide RemainingMs, WindowDay, ToMinutes;
    if r > 0 {
      assert QuietOn(q, day, now) && q.enabled;
      forall t | now <= t < now + r ensures IsQuiet(q, t) {
        assert QuietOn(q, day, t);
      }
      forall t | now + r <= t < now + r + MINUTE_MS ensures !IsQuiet(q, t) {
        forall other ensures !QuietOn(q, other, t) {
          WindowsApart(q, day, other);
        }
      }
    } else if IsQuiet(q, now) {
      var other :| QuietOn(q, other, now);
      QuietMeansRemaining(q, other, now);
    }
  }

  /** Windows of different days are at least a minute apart. */
  lemma WindowsApart(q: QuietHours, day: int, other: int)
    requires WellFormed(q)
    ensures other <= day ==> Closes(q, other) <= Closes(q, day)
    ensures other > day ==> Closes(q, day) + MINUTE_MS <= Opens(q, other)
  {
    hide ToMinutes;
  }

  /** The deferred run starts on the end minute of the window it waited out. */
  lemma DeferredRunReadsEndMinute(q: QuietHours, now: int)
    requires WellFormed(q) && RemainingMs(q, now) > 0
    ensures LocalMinutes(q, now + RemainingMs(q, now) + 1000) == ToMinutes(q.end)
  {
    RemainingReachesClose(q, now);
    hide RemainingMs, WindowDay, ToMinutes, LocalMinutes, QuietOn;
    var day := if ToMinutes(q.start) <= ToMinutes(q.end) then WindowDay(q, now) else WindowDay(q, now) + 1;
    MinuteOfInstant(q, day, ToMinutes(q.end), 1000);
  }

  lemma MinuteOfInstant(q: QuietHours, day: int, minute: nat, ms: nat)
    requires minute < DAY_MINUTES && ms < MINUTE_MS
    ensures LocalMinutes(q, Midnight(q, day) + minute * MINUTE_MS + ms) == minute
  {
    var t := Midnight(q, day) + minute * MINUTE_MS + ms;
    assert t == (day * DAY_MINUTES - q.offset + minute) * MINUTE_MS + ms;
    assert t / MINUTE_MS + q.offset == day * DAY_MINUTES + minute;
  }

  /** A second after the window has closed, and for almost a minute more, nothing is held back. */
  ghost predicate ClearAt(q: QuietHours, t: int)
    requires WellFormed(q)
  {
    forall u :: t <= u < t + 59_000 ==> !IsQuiet(q, u)
  }

  lemma DeferredMomentIsClear(q: QuietHours, now: int)
    requires WellFormed(q) && RemainingMs(q, now) > 0
    ensures ClearAt(q, now + RemainingMs(q, now) + 1000)
  {
    RemainingIsExact(q, now);
  }

  // ---------------------------------------------------------------- what the clock on the wall says

  /** Two digits for the hour, a colon, and two for the minute. */
  lemma TimeOfDayIff(s: string)
    ensures IsTimeOfDay(s)
            <==> && |s| == 5 && s[2] == ':' && AllDigits(s[..2]) && AllDigits(s[3..])
                 && Parse(s[..2]) < 24 && Parse(s[3..]) < 60
    ensures IsTimeOfDay(s) ==> ToMinutes(s) == 60 * Parse(s[..2]) + Parse(s[3..])
  {
    if |s| == 5 && AllDigits(s[..2]) && AllDigits(s[3..]) {
      TwoDigits(s[..2]);
      TwoDigits(s[3..]);
    }
    assert |s| == 5 && IsDigit(s[0]) && IsDigit(s[1]) ==> AllDigits(s[..2]);
    assert |s| == 5 && IsDigit(s[3]) && IsDigit(s[4]) ==> AllDigits(s[3..]);
  }

  lemma {:induction false} TwoDigits(s: string)
    requires |s| == 2 && AllDigits(s)
    ensures IsDigit(s[0]) && IsDigit(s[1]) && Parse(s) == 10 * DigitValue(s[0]) + DigitValue(s[1])
  {
    assert s[..1][..0] == [] && Parse([]) == 0;
    assert Parse(s[..1]) == DigitValue(s[0]);
  }

  /** The zone's clock is ahead of UTC by the offset. */
  lemma LocalClock(q: QuietHours, day: int, minute: int, ms: nat)
    requires ms < 60_000
    ensures LocalMinutes(q, (day * 1440 + minute) * 60_000 + ms) == (minute + q.offset) % 1440
  {
    var t := (day * 1440 + minute) * 60_000 + ms;
    assert t / 60_000 == day * 1440 + minute;
    SameMinute(day, minute + q.offset);
  }

  lemma SameMinute(day: int, minute: int)
    ensures (day * 1440 + minute) % 1440 == minute % 1440
  {
  }

  /** It is quiet exactly while the local clock is between start and end, past midnight if the end comes first. */
  lemma QuietByTheClock(q: QuietHours, t: int)
    requires WellFormed(q)
    ensures var start, end, cur := ToMinutes(q.start), ToMinutes(q.end), LocalMinutes(q, t);
            IsQuiet(q, t)
            <==> q.enabled && ((start < end && start <= cur && cur < end) || (start > end
                                                                              && (start <= cur || cur < end)))
  {
    RemainingIsExact(q, t);
    hide IsQuiet, ToMinutes, LocalMinutes;
  }
}
