/**
 * Calendar dates as dayjs steps them: a month index (twelve times the year plus the month of the
 * year, counted from zero) and a day of that month, from the year 0 on.
 */
module Calendar {
  import opened Prelude

  predicate LeapYear(y: nat) {
    y % 4 == 0 && (y % 100 != 0 || y % 400 == 0)
  }

  function MonthLength(m: nat): (n: nat)
    ensures 28 <= n <= 31
  {
    var ofYear := m % 12;
    if ofYear == 1 then if LeapYear(m / 12) then 29 else 28
    else if ofYear == 3 || ofYear == 5 || ofYear == 8 || ofYear == 10 then 30
    else 31
  }

  datatype Date = Date(month: nat, day: nat)

  predicate IsDate(d: Date) {
    1 <= d.day <= MonthLength(d.month)
  }

  datatype Step = Months(n: nat) | Days(n: nat)

  /** A month or year later, on the same day or the last one the month has. */
  function AddMonths(d: Date, n: nat): (r: Date)
    requires IsDate(d)
    ensures IsDate(r) && r.month == d.month + n
  {
    Date(d.month + n, Min(d.day, MonthLength(d.month + n)))
  }

  function NextDay(d: Date): (r: Date)
    requires IsDate(d)
    ensures IsDate(r)
  {
    if d.day < MonthLength(d.month) then Date(d.month, d.day + 1) else Date(d.month + 1, 1)
  }

  /** The days before a month since the first month counted. */
  function FirstDay(m: nat): nat {
    if m == 0 then 0 else FirstDay(m - 1) + MonthLength(m - 1)
  }

  function DayNumber(d: Date): int {
    FirstDay(d.month) + d.day - 1
  }

  lemma {:induction false} FirstDaysApart(m: nat, k: nat)
    requires m <= k
    ensures FirstDay(m) + 28 * (k - m) <= FirstDay(k) <= FirstDay(m) + 31 * (k - m)
    decreases k - m
  {
    hide MonthLength;
    if m < k {
      FirstDaysApart(m, k - 1);
    }
  }

  lemma NextDayIsNext(d: Date)
    requires IsDate(d)
    ensures DayNumber(NextDay(d)) == DayNumber(d) + 1
  {
  }

  /** The order of dates is the order of their day numbers. */
  lemma {:induction false} MonthByDayNumber(d: Date, m: nat)
    requires IsDate(d)
    ensures d.month < m <==> DayNumber(d) < FirstDay(m)
  {
    hide MonthLength;
    if d.month < m {
      assert FirstDay(d.month + 1) == FirstDay(d.month) + MonthLength(d.month);
      FirstDaysApart(d.month + 1, m);
    } else {
      FirstDaysApart(m, d.month);
    }
  }

  /** The day is kept where the later month has it; otherwise its last day is taken. */
  lemma AddMonthsKeepsDay(d: Date, n: nat)
    requires IsDate(d)
    ensures var r := AddMonths(d, n);
            && r.month == d.month + n
            && (IsDate(Date(r.month, d.day)) ==> r.day == d.day)
            && (!IsDate(Date(r.month, d.day)) ==> IsDate(r) && !IsDate(Date(r.month, r.day + 1)))
  {
  }

  // ---------------------------------------------------------------- the Gregorian count

  /**
   * The day number of the proleptic Gregorian calendar in closed form: years of 365 days counted
   * from March, a leap day every four years but for three of four centuries, and months that
   * alternate by fifths of 153 days.
   */
  function GregorianDay(year: int, month: nat, day: int): int
    requires 1 <= month <= 12
  {
    if month <= 2 then YearDays(year - 1) + MonthDays(month + 9) + day + 59
    else YearDays(year) + MonthDays(month - 3) + day + 59
  }

  function YearDays(y: int): int {
    365 * y + y / 4 - y / 100 + y / 400
  }

  function MonthDays(m: nat): int {
    (153 * m + 2) / 5
  }

  /** Whatever is counted by steps of whole months is the Gregorian calendar. */
  lemma {:induction false} FirstDayIsGregorian(m: nat)
    ensures FirstDay(m) == GregorianDay(m / 12, m % 12 + 1, 1)
  {
    hide MonthLength, GregorianDay;
    if m == 0 {
      YearZero();
    } else {
      FirstDayIsGregorian(m - 1);
      OneMonthOn(m - 1);
    }
  }

  lemma YearZero()
    ensures FirstDay(0) == GregorianDay(0, 1, 1)
  {
  }

  lemma OneMonthOn(m: nat)
    ensures GregorianDay((m + 1) / 12, (m + 1) % 12 + 1, 1) == GregorianDay(m / 12, m % 12 + 1, 1) + MonthLength(m)
  {
    var year, ofYear := m / 12, m % 12;
    LeapDays(year);
    MonthsDays(ofYear);
    LengthOfMonth(m);
    hide LeapYear, YearDays, MonthDays, MonthLength;
    if ofYear == 11 {
      assert (m + 1) / 12 == year + 1 && (m + 1) % 12 == 0;
    } else {
      assert (m + 1) / 12 == year && (m + 1) % 12 == ofYear + 1;
    }
  }

  /** Months are counted from March here, so the change of year falls after February. */
  lemma MonthsDays(ofYear: nat)
    requires ofYear < 12
    ensures ofYear >= 2 ==> MonthDays(ofYear - 1) == MonthDays(ofYear - 2) + LengthOf(ofYear, false)
    ensures ofYear == 0 ==> MonthDays(11) == MonthDays(10) + 31
    ensures MonthDays(0) == 0 && MonthDays(10) == 306 && MonthDays(11) == 337
  {
  }

  function LengthOf(ofYear: nat, leap: bool): nat {
    if ofYear == 1 then if leap then 29 else 28
    else if ofYear == 3 || ofYear == 5 || ofYear == 8 || ofYear == 10 then 30
    else 31
  }

  lemma LengthOfMonth(m: nat)
    ensures MonthLength(m) == LengthOf(m % 12, LeapYear(m / 12))
  {
    hide LeapYear;
  }

  lemma LeapDays(y: nat)
    ensures YearDays(y) == YearDays(y - 1) + if LeapYear(y) then 366 else 365
  {
    Divisors(y);
    ByFour(y);
    ByHundred(y);
    ByFourHundred(y);
  }

  lemma Divisors(y: nat)
    ensures (y % 100 == 0 ==> y % 4 == 0) && (y % 400 == 0 ==> y % 100 == 0)
  {
    if y % 100 == 0 {
      MultipleOfFour(25 * (y / 100), y);
    }
    if y % 400 == 0 {
      MultipleOfHundred(4 * (y / 400), y);
    }
  }

  lemma MultipleOfFour(q: nat, y: nat)
    requires y == 4 * q
    ensures y % 4 == 0
  {
  }

  lemma MultipleOfHundred(q: nat, y: nat)
    requires y == 100 * q
    ensures y % 100 == 0
  {
  }

  lemma ByFour(y: nat)
    ensures y / 4 == (y - 1) / 4 + if y % 4 == 0 then 1 else 0
  {
  }

  lemma ByHundred(y: nat)
    ensures y / 100 == (y - 1) / 100 + if y % 100 == 0 then 1 else 0
  {
  }

  lemma ByFourHundred(y: nat)
    ensures y / 400 == (y - 1) / 400 + if y % 400 == 0 then 1 else 0
  {
  }

  lemma DayNumberIsGregorian(d: Date)
    ensures DayNumber(d) == GregorianDay(d.month / 12, d.month % 12 + 1, d.day)
  {
    FirstDayIsGregorian(d.month);
  }
}
