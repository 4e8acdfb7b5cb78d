/**
 * The projection of recurring charges over the coming months
 * (apps/backend/src/analytics/analytics.service.ts, `forecast`).
 */
module Forecast {
  import opened Prelude
  import opened Sums
  import opened Calendar
  import opened Currency
  import opened Grouping

  const GUARD: nat := 5000

  datatype BilledService = BilledService(cost: real, currency: string, period: Period, nextBillingAt: Date)

  function PeriodStep(period: Period): (step: Option<Step>)
    ensures step.Some? && step.value.Months? ==> step.value.n > 0
  {
    match period
    case Monthly => Some(Months(1))
    case Hourly => Some(Months(1))
    case Quarterly => Some(Months(3))
    case Daily => Some(Days(1))
    case Yearly => Some(Months(12))
    case Onetime => None
    case OtherPeriod => Some(Months(1))
  }

  function AddDays(d: Date, n: nat): (r: Date)
    requires IsDate(d)
    ensures IsDate(r)
  {
    if n == 0 then d else NextDay(AddDays(d, n - 1))
  }

  function Advance(d: Date, step: Step): (r: Date)
    requires IsDate(d)
    ensures IsDate(r)
  {
    match step
    case Months(n) => AddMonths(d, n)
    case Days(n) => AddDays(d, n)
  }

  /** The date `j` steps on. */
  function After(d: Date, step: Step, j: nat): (r: Date)
    requires IsDate(d)
    ensures IsDate(r)
  {
    if j == 0 then d else Advance(After(d, step, j - 1), step)
  }

  /** How many of at most `limit` steps are taken before the month is reached. */
  function StepsTo(d: Date, step: Step, month: nat, limit: nat): (n: nat)
    requires IsDate(d)
    ensures n <= limit
    decreases limit
  {
    if limit == 0 || d.month >= month then 0 else 1 + StepsTo(Advance(d, step), step, month, limit - 1)
  }

  /** How many of the first `n` dates fall in a month. */
  function Hits(d: Date, step: Step, n: nat, month: int): (h: nat)
    requires IsDate(d)
    ensures h <= n
  {
    if n == 0 then 0 else Hits(d, step, n - 1, month) + if After(d, step, n - 1).month == month then 1 else 0
  }

  /** The charges of one service that land in a month, as the two guarded loops produce them. */
  function ChargesIn(d: Date, period: Period, projStart: nat, projEnd: nat, month: int): nat
    requires IsDate(d)
  {
    match PeriodStep(period)
    case None => if d.month == month && d.month >= projStart then 1 else 0
    case Some(step) =>
      var caughtUp := After(d, step, StepsTo(d, step, projStart, GUARD));
      Hits(caughtUp, step, StepsTo(caughtUp, step, projEnd, GUARD), month)
  }

  // ---------------------------------------------------------------- the loops

  type Buckets = map<int, real>

  function Times(charge: real, n: nat): real {
    charge * n as real
  }

  ghost predicate Added(before: Buckets, after: Buckets, charge: real, d: Date, step: Step, n: nat)
    requires IsDate(d)
  {
    after.Keys == before.Keys
    && forall m :: m in before ==> after[m] == before[m] + Times(charge, Hits(d, step, n, m))
  }

  lemma AddedNone(before: Buckets, charge: real, d: Date, step: Step)
    requires IsDate(d)
    ensures Added(before, before, charge, d, step, 0)
  {
  }

  lemma {:induction false} AddedOneMore(before: Buckets, buckets: Buckets, charge: real, d: Date, step: Step, n: nat)
    requires IsDate(d) && Added(before, buckets, charge, d, step, n)
    ensures var key := After(d, step, n).month;
            Added(before, if key in buckets then buckets[key := buckets[key] + charge] else buckets,
                  charge, d, step, n + 1)
  {
    hide After, Times, Hits;
    var key := After(d, step, n).month;
    var buckets' := if key in buckets then buckets[key := buckets[key] + charge] else buckets;
    forall m | m in before ensures buckets'[m] == before[m] + Times(charge, Hits(d, step, n + 1, m)) {
      HitsOneMore(d, step, n, m);
      TimesOneMore(charge, Hits(d, step, n, m));
    }
  }

  lemma HitsOneMore(d: Date, step: Step, n: nat, month: int)
    requires IsDate(d)
    ensures Hits(d, step, n + 1, month) == Hits(d, step, n, month) + if After(d, step, n).month == month then 1 else 0
  {
    hide After;
  }

  lemma TimesOneMore(charge: real, n: nat)
    ensures Times(charge, n + 1) == Times(charge, n) + charge
  {
  }

  /** Advance until the month is reached or the guard stops it. */
  method CatchUp(start: Date, step: Step, month: nat, limit: nat) returns (d: Date)
    requires IsDate(start)
    ensures IsDate(d) && d == After(start, step, StepsTo(start, step, month, limit))
  {
    hide Advance;
    d := start;
    var guard := 0;
    while d.month < month && guard < limit
      invariant IsDate(d) && guard <= limit && d == After(start, step, guard)
      invariant StepsTo(start, step, month, limit) == guard + StepsTo(d, step, month, limit - guard)
      decreases limit - guard
    {
      d := Advance(d, step);
      guard := guard + 1;
    }
  }

  method AddRecurring(before: Buckets, start: Date, step: Step, charge: real, projEnd: nat, limit: nat)
    returns (buckets: Buckets)
    requires IsDate(start)
    ensures Added(before, buckets, charge, start, step, StepsTo(start, step, projEnd, limit))
  {
    hide Advance, Added, Hits;
    buckets := before;
    AddedNone(before, charge, start, step);
    var d, guard := start, 0;
    while d.month < projEnd && guard < limit
      invariant IsDate(d) && guard <= limit && d == After(start, step, guard)
      invariant StepsTo(start, step, projEnd, limit) == guard + StepsTo(d, step, projEnd, limit - guard)
      invariant Added(before, buckets, charge, start, step, guard)
      decreases limit - guard
    {
      AddedOneMore(before, buckets, charge, start, step, guard);
      var key := d.month;
      if key in buckets {
        buckets := buckets[key := buckets[key] + charge];
      }
      d := Advance(d, step);
      guard := guard + 1;
    }
  }

  method ProjectService(before: Buckets, s: BilledService, charge: real, projStart: nat, projEnd: nat)
    returns (buckets: Buckets)
    requires IsDate(s.nextBillingAt)
    ensures buckets.Keys == before.Keys
    ensures forall m :: m in before ==>
      buckets[m] == before[m] + Times(charge, ChargesIn(s.nextBillingAt, s.period, projStart, projEnd, m))
  {
    hide After, StepsTo, Hits;
    buckets := before;
    var step := PeriodStep(s.period);
    var d := s.nextBillingAt;
    if step.None? {
      var key := d.month;
      if key in buckets && d.month >= projStart {
        buckets := buckets[key := buckets[key] + charge];
      }
      return;
    }
    d := CatchUp(d, step.value, projStart, GUARD);
    buckets := AddRecurring(buckets, d, step.value, charge, projEnd, GUARD);
  }

  // ---------------------------------------------------------------- closed form: month steps

  /** Whether a month is one of `n` months from `first` on, `k` apart. */
  predicate InRun(first: int, k: nat, n: nat, month: int)
    requires k > 0
  {
    month >= first && (month - first) % k == 0 && (month - first) / k < n
  }

  /** The steps of `k` months from `first` until `month` is reached. */
  function StepsNeeded(first: nat, k: nat, month: nat): (n: nat)
    requires k > 0
  {
    if first >= month then 0 else (month - first + k - 1) / k
  }

  /** What that number means, without dividing. */
  lemma StepsNeededReach(first: nat, k: nat, month: nat)
    requires k > 0
    ensures var n := StepsNeeded(first, k, month);
            first + n * k >= month && (n > 0 ==> first + n * k < month + k) && (first >= month <==> n == 0)
  {
    if first < month {
      var x := month - first + k - 1;
      DivMod(x, k);
    }
  }

  lemma DivMod(x: int, k: nat)
    requires k > 0
    ensures x == x / k * k + x % k && 0 <= x % k < k
  {
  }

  lemma {:induction false} AfterMonths(d: Date, k: nat, j: nat)
    requires IsDate(d)
    ensures After(d, Months(k), j).month == d.month + j * k
  {
    if j > 0 {
      AfterMonths(d, k, j - 1);
      assert j * k == (j - 1) * k + k;
    }
  }

  lemma OneStepTaken(first: nat, k: nat, month: nat)
    requires k > 0 && first < month
    ensures StepsNeeded(first, k, month) == 1 + StepsNeeded(first + k, k, month)
  {
    hide StepsNeeded;
    StepsNeededReach(first, k, month);
    StepsNeededReach(first + k, k, month);
    var n, rest := StepsNeeded(first, k, month), StepsNeeded(first + k, k, month);
    assert (1 + rest) * k == k + rest * k;
    SameMultiple(k, month - first, n, 1 + rest);
  }

  lemma {:induction false} StepsToMonths(d: Date, k: nat, month: nat, limit: nat)
    requires IsDate(d) && k > 0
    ensures StepsTo(d, Months(k), month, limit) == Min(limit, StepsNeeded(d.month, k, month))
    decreases limit
  {
    if d.month >= month {
      assert StepsNeeded(d.month, k, month) == 0;
    } else if limit > 0 {
      hide StepsNeeded, MonthLength;
      StepsToMonths(AddMonths(d, k), k, month, limit - 1);
      OneStepTaken(d.month, k, month);
    }
  }

  lemma MoreTimes(a: int, b: int, k: nat)
    ensures a < b ==> a * k + k <= b * k
  {
    if a < b {
      var rest := b - a - 1;
      assert rest * k >= 0;
      assert b * k == a * k + k + rest * k;
    }
  }

  /** Rounding up to a multiple is unique. */
  lemma SameMultiple(k: nat, x: int, a: nat, b: nat)
    requires k > 0 && x <= a * k < x + k && x <= b * k < x + k
    ensures a == b
  {
    MoreTimes(a, b, k);
    MoreTimes(b, a, k);
  }

  lemma {:induction false} HitsMonths(d: Date, k: nat, n: nat, month: int)
    requires IsDate(d) && k > 0
    ensures Hits(d, Months(k), n, month) == if InRun(d.month, k, n, month) then 1 else 0
  {
    hide After, InRun;
    if n == 0 {
      EmptyRun(d.month, k, month);
    } else {
      HitsMonths(d, k, n - 1, month);
      AfterMonths(d, k, n - 1);
      LongerRun(d.month, k, n - 1, month);
    }
  }

  lemma EmptyRun(first: int, k: nat, month: int)
    requires k > 0
    ensures !InRun(first, k, 0, month)
  {
    var x := month - first;
    DivMod(x, k);
    MoreTimes(x / k, 0, k);
  }

  lemma LongerRun(first: int, k: nat, n: nat, month: int)
    requires k > 0
    ensures InRun(first, k, n + 1, month) <==> InRun(first, k, n, month) || month == first + n * k
    ensures month == first + n * k ==> !InRun(first, k, n, month)
  {
    DivMod(month - first, k);
    Quotient(n, k);
  }

  lemma Quotient(n: nat, k: nat)
    requires k > 0
    ensures n * k / k == n && n * k % k == 0
  {
    var x := n * k;
    DivMod(x, k);
    MoreTimes(x / k, n, k);
    MoreTimes(n, x / k, k);
  }

  /** The loops in closed form, for every input: also when a guard cuts them short. */
  lemma MonthStepped(d: Date, period: Period, k: nat, projStart: nat, projEnd: nat, month: int)
    requires IsDate(d) && k > 0 && PeriodStep(period) == Some(Months(k))
    ensures var first := d.month + Min(GUARD, StepsNeeded(d.month, k, projStart)) * k;
            ChargesIn(d, period, projStart, projEnd, month)
            == if InRun(first, k, Min(GUARD, StepsNeeded(first, k, projEnd)), month) then 1 else 0
  {
    hide StepsNeeded, InRun, After, StepsTo, Hits;
    var c := StepsTo(d, Months(k), projStart, GUARD);
    var caughtUp := After(d, Months(k), c);
    StepsToMonths(d, k, projStart, GUARD);
    AfterMonths(d, k, c);
    StepsToMonths(caughtUp, k, projEnd, GUARD);
    HitsMonths(caughtUp, k, StepsTo(caughtUp, Months(k), projEnd, GUARD), month);
  }

  /** Which steps of a run that starts at the first due month and fills the horizon lie inside it. */
  lemma JthOfRun(b: nat, k: nat, c: nat, n: nat, j: int, projStart: nat, projEnd: nat)
    requires k > 0
    requires b + c * k >= projStart && (c > 0 ==> b + c * k < projStart + k)
    requires b + c * k + n * k >= projEnd && (n > 0 ==> b + c * k + n * k < projEnd + k)
    ensures 0 <= j < n <==> projStart <= b + c * k + j * k < projEnd && c * k + j * k >= 0
  {
    MoreTimes(j, n, k);
    MoreTimes(n - 1, j, k);
    assert (n - 1) * k == n * k - k;
    MoreTimes(-1, j, k);
    MoreTimes(j, 0, k);
    assert c == 0 ==> c * k == 0;
  }

  lemma SameRemainder(x: int, c: int, k: nat)
    requires k > 0
    ensures (x + c * k) % k == x % k
  {
    var y := x + c * k;
    DivMod(x, k);
    DivMod(y, k);
    var q := y / k - c;
    assert y == q * k + c * k + y % k;
    MoreTimes(q, x / k, k);
    MoreTimes(x / k, q, k);
  }

  /** Such a run is every `k`-th month from the billing month on. */
  lemma RunIsEveryKth(b: nat, k: nat, c: nat, n: nat, projStart: nat, projEnd: nat, month: int)
    requires k > 0
    requires b + c * k >= projStart && (c > 0 ==> b + c * k < projStart + k)
    requires b + c * k + n * k >= projEnd && (n > 0 ==> b + c * k + n * k < projEnd + k)
    ensures InRun(b + c * k, k, n, month)
            <==> projStart <= month < projEnd && month >= b && (month - b) % k == 0
  {
    var y := month - (b + c * k);
    SameRemainder(y, c, k);
    DivMod(y, k);
    if y % k == 0 {
      var j := y / k;
      assert month == b + c * k + j * k;
      JthOfRun(b, k, c, n, j, projStart, projEnd);
      MoreTimes(j, 0, k);
    }
  }

  /**
   * A service billed every `k` months is charged once in exactly the months of the horizon that
   * are a multiple of `k` months after its billing month; past and current months stay untouched.
   */
  lemma EveryKthMonth(d: Date, period: Period, k: nat, projStart: nat, projEnd: nat, month: int)
    requires IsDate(d) && k > 0 && PeriodStep(period) == Some(Months(k))
    requires d.month + GUARD * k >= projStart && projEnd <= projStart + GUARD
    ensures ChargesIn(d, period, projStart, projEnd, month)
            == if projStart <= month < projEnd && month >= d.month && (month - d.month) % k == 0 then 1 else 0
  {
    hide ChargesIn, InRun, StepsNeeded;
    var needed := StepsNeeded(d.month, k, projStart);
    StepsNeededReach(d.month, k, projStart);
    MoreTimes(GUARD, needed, k);
    var c := Min(GUARD, needed);
    var first := d.month + c * k;
    var left := StepsNeeded(first, k, projEnd);
    StepsNeededReach(first, k, projEnd);
    MoreTimes(GUARD, left, k);
    MonthStepped(d, period, k, projStart, projEnd, month);
    assert GUARD * k >= GUARD;
    RunIsEveryKth(d.month, k, c, Min(GUARD, left), projStart, projEnd, month);
  }

  /**
   * Monthly and hourly services, and those of an unknown period, are charged every month, quarterly
   * ones every third and yearly ones every twelfth, counted from the billing month; a one-off charge
   * comes once, in its month, if that is still ahead.
   */
  lemma ChargedMonths(d: Date, projStart: nat, projEnd: nat, month: int)
    requires IsDate(d) && d.month + 5000 >= projStart && projEnd <= projStart + 5000
    ensures var ahead := projStart <= month < projEnd && month >= d.month;
            && ChargesIn(d, Monthly, projStart, projEnd, month) == (if ahead then 1 else 0)
            && ChargesIn(d, Hourly, projStart, projEnd, month) == (if ahead then 1 else 0)
            && ChargesIn(d, OtherPeriod, projStart, projEnd, month) == (if ahead then 1 else 0)
            && ChargesIn(d, Quarterly, projStart, projEnd, month)
               == (if ahead && (month - d.month) % 3 == 0 then 1 else 0)
            && ChargesIn(d, Yearly, projStart, projEnd, month)
               == (if ahead && (month - d.month) % 12 == 0 then 1 else 0)
            && ChargesIn(d, Onetime, projStart, projEnd, month) == (if month == d.month >= projStart then 1 else 0)
  {
    EveryKthMonth(d, Monthly, 1, projStart, projEnd, month);
    EveryKthMonth(d, Hourly, 1, projStart, projEnd, month);
    EveryKthMonth(d, OtherPeriod, 1, projStart, projEnd, month);
    EveryKthMonth(d, Quarterly, 3, projStart, projEnd, month);
    EveryKthMonth(d, Yearly, 12, projStart, projEnd, month);
    OnceInItsMonth(d, projStart, projEnd, month);
    hide ChargesIn;
  }

  lemma OnceInItsMonth(d: Date, projStart: nat, projEnd: nat, month: int)
    requires IsDate(d)
    ensures ChargesIn(d, Onetime, projStart, projEnd, month) == if month == d.month >= projStart then 1 else 0
  {
  }

  // ---------------------------------------------------------------- closed form: day steps

  /** How many days of a month are numbered `lo` to below `hi`. */
  function DaysIn(month: nat, lo: int, hi: int): nat {
    Max(0, Min(FirstDay(month + 1), hi) - Max(FirstDay(month), lo))
  }

  lemma AdvanceOneDay(d: Date)
    requires IsDate(d)
    ensures Advance(d, Days(1)) == NextDay(d) && DayNumber(NextDay(d)) == DayNumber(d) + 1
  {
    assert AddDays(d, 0) == d;
    NextDayIsNext(d);
  }

  lemma {:induction false} AfterDays(d: Date, j: nat)
    requires IsDate(d)
    ensures DayNumber(After(d, Days(1), j)) == DayNumber(d) + j
  {
    hide DayNumber;
    if j > 0 {
      AfterDays(d, j - 1);
      AdvanceOneDay(After(d, Days(1), j - 1));
    }
  }

  lemma OneDayTaken(d: Date, month: nat, limit: nat)
    requires IsDate(d) && limit > 0 && d.month < month
    ensures StepsTo(d, Days(1), month, limit) == 1 + StepsTo(NextDay(d), Days(1), month, limit - 1)
  {
    AdvanceOneDay(d);
    hide Advance, NextDay, IsDate, DayNumber;
  }

  lemma {:induction false} StepsToDays(d: Date, month: nat, limit: nat)
    requires IsDate(d)
    ensures StepsTo(d, Days(1), month, limit) == Min(limit, Max(0, FirstDay(month) - DayNumber(d)))
    decreases limit
  {
    hide DayNumber, FirstDay, Advance, NextDay, IsDate;
    MonthByDayNumber(d, month);
    if limit > 0 && d.month < month {
      hide StepsTo;
      OneDayTaken(d, month, limit);
      AdvanceOneDay(d);
      StepsToDays(NextDay(d), month, limit - 1);
    }
  }

  lemma {:induction false} HitsDays(d: Date, n: nat, month: int)
    requires IsDate(d)
    ensures Hits(d, Days(1), n, month) == if month < 0 then 0 else DaysIn(month, DayNumber(d), DayNumber(d) + n)
  {
    hide After, DayNumber, FirstDay;
    if month >= 0 {
      FirstDaysApart(month, month + 1);
    }
    if n > 0 {
      HitsDays(d, n - 1, month);
      AfterDays(d, n - 1);
      var last := After(d, Days(1), n - 1);
      if month >= 0 {
        MonthByDayNumber(last, month);
        MonthByDayNumber(last, month + 1);
      }
    }
  }

  /** A daily service, for every input: also when a guard cuts the loops short. */
  lemma {:induction false} DayStepped(d: Date, projStart: nat, projEnd: nat, month: int)
    requires IsDate(d)
    ensures var first := DayNumber(d) + Min(GUARD, Max(0, FirstDay(projStart) - DayNumber(d)));
            var n := Min(GUARD, Max(0, FirstDay(projEnd) - first));
            ChargesIn(d, Daily, projStart, projEnd, month)
            == if month < 0 then 0 else DaysIn(month, first, first + n)
  {
    hide After, StepsTo, Hits, DayNumber, FirstDay;
    var c := StepsTo(d, Days(1), projStart, GUARD);
    var caughtUp := After(d, Days(1), c);
    StepsToDays(d, projStart, GUARD);
    AfterDays(d, c);
    StepsToDays(caughtUp, projEnd, GUARD);
    HitsDays(caughtUp, StepsTo(caughtUp, Days(1), projEnd, GUARD), month);
  }

  const MAX_MONTHS: nat := 60

  /** Within the horizon a daily service is charged for every day from its next billing day on. */
  lemma {:induction false} EveryDay(d: Date, projStart: nat, projEnd: nat, month: int)
    requires IsDate(d) && projStart <= projEnd <= projStart + MAX_MONTHS
    requires FirstDay(projStart) - DayNumber(d) <= GUARD
    ensures ChargesIn(d, Daily, projStart, projEnd, month)
            == if projStart <= month < projEnd then DaysIn(month, DayNumber(d), FirstDay(month + 1)) else 0
  {
    hide ChargesIn, DayNumber, FirstDay;
    DayStepped(d, projStart, projEnd, month);
    FirstDaysApart(projStart, projEnd);
    if month < 0 {
    } else if month < projStart {
      FirstDaysApart(month + 1, projStart);
    } else if month < projEnd {
      FirstDaysApart(projStart, month);
      FirstDaysApart(month + 1, projEnd);
    } else {
      FirstDaysApart(projEnd, month);
    }
  }

  /**
   * A month up to the current one stays clear of a daily service exactly when the billing day is at
   * most 5000 days before next month, or the first loop gives up only after this month, or the
   * second one gives up before it too.
   */
  lemma ClearOfDailyIff(d: Date, current: nat, months: nat, month: nat)
    requires IsDate(d) && months <= MAX_MONTHS && month <= current
    ensures ChargesIn(d, Daily, current + 1, current + months + 1, month) == 0
            <==> || FirstDay(current + 1) - DayNumber(d) <= 5000
                 || DayNumber(d) + 5000 >= FirstDay(month + 1)
                 || DayNumber(d) + 10000 <= FirstDay(month)
  {
    hide ChargesIn, DayNumber, FirstDay;
    DayStepped(d, current + 1, current + months + 1, month);
    FirstDaysApart(month, month + 1);
    FirstDaysApart(month + 1, current + 1);
    FirstDaysApart(current + 1, current + months + 1);
  }

  /** The same for a service billed every `k` months. */
  lemma ClearOfMonthsIff(d: Date, period: Period, k: nat, current: nat, months: nat, month: int)
    requires IsDate(d) && k > 0 && PeriodStep(period) == Some(Months(k))
    requires months <= MAX_MONTHS && month <= current
    ensures ChargesIn(d, period, current + 1, current + months + 1, month) == 0
            <==> d.month + 5000 * k >= current + 1 || !InRun(d.month + 5000 * k, k, 5000, month)
  {
    hide ChargesIn, InRun, StepsNeeded;
    if d.month + GUARD * k >= current + 1 {
      EveryKthMonth(d, period, k, current + 1, current + months + 1, month);
    } else {
      var needed := StepsNeeded(d.month, k, current + 1);
      StepsNeededReach(d.month, k, current + 1);
      MoreTimes(needed, GUARD, k);
      var first := d.month + GUARD * k;
      MonthStepped(d, period, k, current + 1, current + months + 1, month);
      RunCutAtEnd(first, k, GUARD, current + months + 1, month);
    }
  }

  /** Cutting a run at a later month does not change what it says about an earlier one. */
  lemma RunCutAtEnd(first: nat, k: nat, n: nat, end: nat, month: int)
    requires k > 0 && month < end
    ensures InRun(first, k, Min(n, StepsNeeded(first, k, end)), month) <==> InRun(first, k, n, month)
  {
    hide StepsNeeded;
    var needed := StepsNeeded(first, k, end);
    StepsNeededReach(first, k, end);
    var x := month - first;
    DivMod(x, k);
    MoreTimes(needed, x / k + 1, k);
    assert (x / k + 1) * k == x / k * k + k;
  }

  /** January 2000, as a month index. */
  const JANUARY_2000: nat := 24000

  /** A daily service left at the first of January 2000 is charged, in January 2025, all over December 2024. */
  lemma StaleDailyIsProjectedIntoThePast(months: nat)
    requires months <= MAX_MONTHS
    ensures var current := JANUARY_2000 + 300;
            ChargesIn(Date(JANUARY_2000, 1), Daily, current + 1, current + months + 1, current - 1) == 31
  {
    hide ChargesIn, FirstDay;
    var d, current := Date(JANUARY_2000, 1), JANUARY_2000 + 300;
    DayStepped(d, current + 1, current + months + 1, current - 1);
    FirstDaysApart(d.month, current - 1);
    FirstDaysApart(current, current + 1);
    FirstDaysApart(current + 1, current + months + 1);
    LastMonthOfTheYear(2024);
  }

  lemma {:induction false} LastMonthOfTheYear(year: nat)
    ensures FirstDay(12 * year + 12) == FirstDay(12 * year + 11) + 31
  {
  }

  // ---------------------------------------------------------------- all services

  predicate AllDates(services: seq<BilledService>) {
    forall i :: 0 <= i < |services| ==> IsDate(services[i].nextBillingAt)
  }

  /** What a list of services adds to one month. */
  function Projected(services: seq<BilledService>, month: int, projStart: nat, projEnd: nat,
                     base: string, rates: Rates): real
    requires Positive(rates) && AllDates(services)
  {
    if services == [] then 0.0
    else
      var s := services[|services| - 1];
      Projected(services[..|services| - 1], month, projStart, projEnd, base, rates)
      + Times(Convert(s.cost, s.currency, base, rates),
              ChargesIn(s.nextBillingAt, s.period, projStart, projEnd, month))
  }

  /** The converted price of a service for each of its charges in the month. */
  ghost function Charged(month: int, projStart: nat, projEnd: nat, base: string, rates: Rates): BilledService -> real
    requires Positive(rates)
  {
    (s: BilledService) =>
      if !IsDate(s.nextBillingAt) then 0.0
      else Convert(s.cost, s.currency, base, rates)
           * ChargesIn(s.nextBillingAt, s.period, projStart, projEnd, month) as real
  }

  lemma {:induction false} ProjectedIsSum(services: seq<BilledService>, month: int, projStart: nat, projEnd: nat,
                                          base: string, rates: Rates)
    requires Positive(rates) && AllDates(services)
    ensures Projected(services, month, projStart, projEnd, base, rates)
            == SumOver(services, Charged(month, projStart, projEnd, base, rates))
  {
    hide Convert, ChargesIn, IsDate;
    if services != [] {
      ProjectedIsSum(services[..|services| - 1], month, projStart, projEnd, base, rates);
    }
  }

  /** The projection of a window of months around `current`: past ones, itself and `months` to come. */
  method Project(services: seq<BilledService>, current: nat, months: nat, monthsBack: nat, base: string, rates: Rates)
    returns (buckets: Buckets)
    requires Positive(rates) && AllDates(services)
    ensures forall m :: m in buckets <==> current - monthsBack <= m <= current + months
    ensures forall m :: m in buckets ==>
      buckets[m] == Projected(services, m, current + 1, current + months + 1, base, rates)
  {
    hide ChargesIn, Convert, Times, IsDate;
    var windowStart := current - monthsBack;
    buckets := map[];
    for i := 0 to monthsBack + 1 + months
      invariant forall m :: m in buckets <==> windowStart <= m < windowStart + i
      invariant forall m :: m in buckets ==> buckets[m] == 0.0
    {
      buckets := buckets[windowStart + i := 0.0];
    }
    ghost var keys := buckets.Keys;
    for i := 0 to |services|
      invariant buckets.Keys == keys
      invariant forall m :: m in buckets ==>
        buckets[m] == Projected(services[..i], m, current + 1, current + months + 1, base, rates)
    {
      assert services[..i + 1][..i] == services[..i];
      var charge := Convert(services[i].cost, services[i].currency, base, rates);
      buckets := ProjectService(buckets, services[i], charge, current + 1, current + months + 1);
    }
    assert services[..|services|] == services;
  }

  /** The catch-up guard does not stop this service short of next month. */
  predicate CatchesUp(s: BilledService, projStart: nat)
    requires IsDate(s.nextBillingAt)
  {
    match PeriodStep(s.period)
    case None => true
    case Some(Months(k)) => s.nextBillingAt.month + GUARD * k >= projStart
    case Some(Days(_)) => FirstDay(projStart) - DayNumber(s.nextBillingAt) <= GUARD
  }

  /** Neither caught up nor cut short inside the month: what leaves it clear of this service. */
  predicate LeavesClear(s: BilledService, current: nat, month: nat)
    requires IsDate(s.nextBillingAt)
  {
    var d := s.nextBillingAt;
    CatchesUp(s, current + 1)
    || match PeriodStep(s.period)
       case None => true
       case Some(Months(k)) => !InRun(d.month + GUARD * k, k, GUARD, month)
       case Some(Days(_)) =>
         DayNumber(d) + GUARD >= FirstDay(month + 1) || DayNumber(d) + 2 * GUARD <= FirstDay(month)
  }

  lemma LeavesClearIff(s: BilledService, current: nat, months: nat, month: nat)
    requires IsDate(s.nextBillingAt) && months <= MAX_MONTHS && month <= current
    ensures ChargesIn(s.nextBillingAt, s.period, current + 1, current + months + 1, month) == 0
            <==> LeavesClear(s, current, month)
  {
    hide ChargesIn, IsDate, FirstDay, DayNumber, InRun;
    match PeriodStep(s.period)
    case None => OnceNotBefore(s.nextBillingAt, s.period, current + 1, current + months + 1, month);
    case Some(Months(k)) => ClearOfMonthsIff(s.nextBillingAt, s.period, k, current, months, month);
    case Some(Days(_)) => ClearOfDailyIff(s.nextBillingAt, current, months, month);
  }

  lemma OnceNotBefore(d: Date, period: Period, projStart: nat, projEnd: nat, month: int)
    requires IsDate(d) && PeriodStep(period).None? && month < projStart
    ensures ChargesIn(d, period, projStart, projEnd, month) == 0
  {
  }

  predicate AllClear(services: seq<BilledService>, current: nat, month: nat)
    requires AllDates(services)
  {
    forall i :: 0 <= i < |services| ==> LeavesClear(services[i], current, month)
  }

  predicate AllPriced(services: seq<BilledService>) {
    forall i :: 0 <= i < |services| ==> services[i].cost > 0.0
  }

  /**
   * The current month and the past show actual spend only, exactly when every service has caught
   * up or misses the month with what the guards leave of it.
   */
  lemma {:induction false} PastIsNotProjectedIff(services: seq<BilledService>, month: nat, current: nat, months: nat,
                                                 base: string, rates: Rates)
    requires Positive(rates) && AllDates(services) && AllPriced(services) && months <= MAX_MONTHS && month <= current
    ensures Projected(services, month, current + 1, current + months + 1, base, rates) >= 0.0
    ensures Projected(services, month, current + 1, current + months + 1, base, rates) == 0.0
            <==> AllClear(services, current, month)
  {
    hide Convert, IsDate, Times, LeavesClear, ChargesIn;
    if services != [] {
      var n := |services| - 1;
      var s := services[n];
      PastIsNotProjectedIff(services[..n], month, current, months, base, rates);
      LeavesClearIff(s, current, months, month);
      var hits := ChargesIn(s.nextBillingAt, s.period, current + 1, current + months + 1, month);
      ConvertedPriceIsPositive(s.cost, s.currency, base, rates);
      TimesSign(Convert(s.cost, s.currency, base, rates), hits);
      assert AllClear(services, current, month)
             <==> AllClear(services[..n], current, month) && LeavesClear(s, current, month);
    }
  }

  lemma ConvertedPriceIsPositive(cost: real, from: string, to: string, rates: Rates)
    requires Positive(rates) && cost > 0.0
    ensures Convert(cost, from, to, rates) > 0.0
  {
    hide Convert;
    ConvertKeepsSign(-cost, from, to, rates);
    ConvertSubtracts(0.0, cost, from, to, rates);
    ConvertIsFactor(0.0, from, to, rates);
  }

  lemma TimesSign(charge: real, n: nat)
    requires charge > 0.0
    ensures Times(charge, n) >= 0.0 && (Times(charge, n) == 0.0 <==> n == 0)
  {
  }

  /** Without a service that far behind, whatever the prices, no past month is touched. */
  lemma {:induction false} PastIsNotProjected(services: seq<BilledService>, month: int, current: nat, months: nat,
                                              base: string, rates: Rates)
    requires Positive(rates) && AllDates(services) && months <= MAX_MONTHS && month <= current
    requires forall i :: 0 <= i < |services| ==> CatchesUp(services[i], current + 1)
    ensures Projected(services, month, current + 1, current + months + 1, base, rates) == 0.0
  {
    hide Convert, IsDate, Times;
    if services != [] {
      var n := |services| - 1;
      PastIsNotProjected(services[..n], month, current, months, base, rates);
      var s := services[n];
      NotBefore(s, month, current, months);
      TimesZero(Convert(s.cost, s.currency, base, rates));
    }
  }

  lemma TimesZero(charge: real)
    ensures Times(charge, 0) == 0.0
  {
  }

  lemma NotBefore(s: BilledService, month: int, current: nat, months: nat)
    requires IsDate(s.nextBillingAt) && CatchesUp(s, current + 1) && months <= MAX_MONTHS && month <= current
    ensures ChargesIn(s.nextBillingAt, s.period, current + 1, current + months + 1, month) == 0
  {
    hide ChargesIn, IsDate, FirstDay, DayNumber;
    match PeriodStep(s.period)
    case None =>
      OnceNotBefore(s.nextBillingAt, s.period, current + 1, current + months + 1, month);
    case Some(Months(k)) =>
      EveryKthMonth(s.nextBillingAt, s.period, k, current + 1, current + months + 1, month);
    case Some(Days(_)) =>
      EveryDay(s.nextBillingAt, current + 1, current + months + 1, month);
  }

  // ---------------------------------------------------------------- a year of charges

  /** The charges of one service over `n` months from `from` on. */
  function ChargesOver(d: Date, period: Period, projStart: nat, projEnd: nat, from: int, n: nat): nat
    requires IsDate(d)
  {
    if n == 0 then 0
    else
      ChargesOver(d, period, projStart, projEnd, from, n - 1)
      + ChargesIn(d, period, projStart, projEnd, from + n - 1)
  }

  /** How many of `n` numbers from `r` on are multiples of `k`. */
  function Multiples(r: nat, k: nat, n: nat): nat
    requires k > 0
  {
    if n == 0 then 0 else Multiples(r, k, n - 1) + if (r + n - 1) % k == 0 then 1 else 0
  }

  lemma {:induction false} OverMonths(d: Date, period: Period, k: nat, projStart: nat, projEnd: nat, from: nat, n: nat)
    requires IsDate(d) && k > 0 && PeriodStep(period) == Some(Months(k))
    requires d.month + GUARD * k >= projStart && projEnd <= projStart + GUARD
    requires projStart <= from && from + n <= projEnd && d.month <= from
    ensures ChargesOver(d, period, projStart, projEnd, from, n) == Multiples(from - d.month, k, n)
  {
    hide ChargesIn;
    if n > 0 {
      OverMonths(d, period, k, projStart, projEnd, from, n - 1);
      EveryKthMonth(d, period, k, projStart, projEnd, from + n - 1);
    }
  }

  lemma {:induction false} OverDays(d: Date, projStart: nat, projEnd: nat, from: nat, n: nat)
    requires IsDate(d) && projStart <= projEnd <= projStart + MAX_MONTHS
    requires FirstDay(projStart) - DayNumber(d) <= GUARD
    requires projStart <= from && from + n <= projEnd && d.month < from
    ensures ChargesOver(d, Daily, projStart, projEnd, from, n) == FirstDay(from + n) - FirstDay(from)
  {
    hide ChargesIn, DayNumber, FirstDay, IsDate;
    if n > 0 {
      var month := from + n - 1;
      OverDays(d, projStart, projEnd, from, n - 1);
      EveryDay(d, projStart, projEnd, month);
      MonthByDayNumber(d, month);
      FirstDaysApart(month, month + 1);
    }
  }

  lemma {:induction false} OverOnce(d: Date, projStart: nat, projEnd: nat, from: nat, n: nat)
    requires IsDate(d) && d.month < from
    ensures ChargesOver(d, Onetime, projStart, projEnd, from, n) == 0
  {
    hide IsDate;
    if n > 0 {
      OverOnce(d, projStart, projEnd, from, n - 1);
    }
  }

  /** Twelve numbers in a row have twelve, four or one multiples. */
  lemma {:induction false} MultiplesInAYear(r: nat)
    ensures Multiples(r, 1, 12) == 12 && Multiples(r, 3, 12) == 4 && Multiples(r, 12, 12) == 1
  {
    hide Multiples;
    MultiplesOfBlocks(r, 1, 12);
    MultiplesOfBlocks(r, 3, 4);
    MultiplesOfBlocks(r, 12, 1);
  }

  lemma {:induction false} MultiplesOfBlocks(r: nat, k: nat, t: nat)
    requires k > 0
    ensures Multiples(r, k, t * k) == t
  {
    if t > 0 {
      hide Multiples;
      MultiplesOfBlocks(r, k, t - 1);
      OneBlockMore(t - 1, k);
      var before := (t - 1) * k;
      MultiplesSplit(r, k, before, k);
      OnePerBlock(r + before, k);
    }
  }

  lemma OneBlockMore(t: nat, k: nat)
    ensures (t + 1) * k == t * k + k && t * k >= 0
  {
  }

  /** Every run of `k` numbers has one multiple of `k`. */
  lemma {:induction false} OnePerBlock(from: nat, k: nat)
    requires k > 0
    ensures Multiples(from, k, k) == 1
  {
    hide Multiples;
    MultiplesByRemainder(from, k, k);
    DivMod(from, k);
    OneMultiple(from % k, k, k);
  }

  lemma {:induction false} MultiplesSplit(r: nat, k: nat, a: nat, b: nat)
    requires k > 0
    ensures Multiples(r, k, a + b) == Multiples(r, k, a) + Multiples(r + a, k, b)
  {
    if b > 0 {
      MultiplesSplit(r, k, a, b - 1);
    }
  }

  lemma {:induction false} MultiplesByRemainder(r: nat, k: nat, n: nat)
    requires k > 0
    ensures Multiples(r, k, n) == Multiples(r % k, k, n)
  {
    if n > 0 {
      MultiplesByRemainder(r, k, n - 1);
      DivMod(r, k);
      SameRemainder(r % k + n - 1, r / k, k);
    }
  }

  lemma {:induction false} OneMultiple(r: nat, k: nat, n: nat)
    requires r < k && n <= k
    ensures Multiples(r, k, n) == if (r == 0 && n > 0) || (r > 0 && r + n > k) then 1 else 0
  {
    if n > 0 {
      OneMultiple(r, k, n - 1);
      RemainderBelowTwice(r + n - 1, k);
    }
  }

  lemma RemainderBelowTwice(x: nat, k: nat)
    requires k > 0 && x < 2 * k
    ensures x % k == if x < k then x else x - k
  {
    if x < k {
      SmallRemainder(x, k);
    } else {
      SmallRemainder(x - k, k);
      SameRemainder(x - k, 1, k);
    }
  }

  lemma SmallRemainder(x: nat, k: nat)
    requires x < k
    ensures x % k == x
  {
    DivMod(x, k);
    MoreTimes(0, x / k, k);
    MoreTimes(x / k, 0, k);
  }

  /** Whether a year of projected charges is twelve monthly costs, as the yearly figure has it. */
  predicate YearAgrees(period: Period, days: int) {
    match period
    case Monthly => true
    case Quarterly => true
    case Yearly => true
    case Onetime => true
    case Daily => days == 365
    case Hourly => false
    case OtherPeriod => false
  }

  /**
   * Twelve months of the projection after the billing month cost twelve times the monthly cost of
   * the service, exactly for monthly, quarterly, yearly and past one-off prices and for daily ones
   * in a common year. An hourly price is projected as a monthly one.
   */
  lemma {:induction false} YearIsTwelveMonthlyCostsIff(s: BilledService, projStart: nat, projEnd: nat, from: nat)
    requires IsDate(s.nextBillingAt) && CatchesUp(s, projStart) && s.cost != 0.0
    requires projStart <= from && from + 12 <= projEnd <= projStart + MAX_MONTHS && s.nextBillingAt.month < from
    ensures Times(s.cost, ChargesOver(s.nextBillingAt, s.period, projStart, projEnd, from, 12))
            == 12.0 * MonthlyCost(s.cost, s.period)
            <==> YearAgrees(s.period, FirstDay(from + 12) - FirstDay(from))
  {
    hide ChargesOver, Multiples, IsDate, FirstDay, DayNumber;
    var d := s.nextBillingAt;
    MultiplesInAYear(from - d.month);
    match PeriodStep(s.period)
    case None => OverOnce(d, projStart, projEnd, from, 12);
    case Some(Months(k)) => OverMonths(d, s.period, k, projStart, projEnd, from, 12);
    case Some(Days(_)) =>
      OverDays(d, projStart, projEnd, from, 12);
      FirstDaysApart(from, from + 12);
      DaysOfAYear(s.cost, FirstDay(from + 12) - FirstDay(from));
  }

  lemma DaysOfAYear(cost: real, days: nat)
    requires cost != 0.0
    ensures Times(cost, days) == 12.0 * MonthlyCost(cost, Daily) <==> days == 365
  {
    assert 12.0 * MonthlyCost(cost, Daily) == cost * 365.0;
    if cost * days as real == cost * 365.0 {
      assert cost * (days as real - 365.0) == 0.0;
    }
  }
}
