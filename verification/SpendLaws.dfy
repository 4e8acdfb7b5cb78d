/**
 * What the daily spend promises: the day figures are a partition of the measured money. Nothing
 * is lost, duplicated or shown as unknown, and what the burn rate drops is what the days refill.
 */
module SpendLaws {
  import opened Prelude
  import opened Sums
  import opened Runway
  import opened Spend

  // ---------------------------------------------------------------- one interval

  lemma PortionAdds(spent: real, a: int, b: int, dt: int)
    requires dt > 0
    ensures Portion(spent, a, dt) + Portion(spent, b, dt) == Portion(spent, a + b, dt)
  {
    QuotientAdds(spent * a as real, spent * b as real, dt as real);
    assert spent * a as real + spent * b as real == spent * (a + b) as real;
  }

  lemma QuotientAdds(x: real, y: real, d: real)
    requires d > 0.0
    ensures x / d + y / d == (x + y) / d
  {
  }

  lemma PortionOfWhole(spent: real, dt: int)
    requires dt > 0
    ensures Portion(spent, dt, dt) == spent && Portion(spent, 0, dt) == 0.0
  {
    var d := dt as real;
    assert spent * d / d == spent;
  }

  /** The stretch before the end of a day is the stretch before its start plus its overlap. */
  lemma OneMoreDay(from: int, to: int, dayStart: int)
    requires from <= to
    ensures Max(0, Min(to, dayStart) - from) + Overlap(from, to, dayStart)
            == Max(0, Min(to, dayStart + MS_PER_DAY) - from)
  {
  }

  /** The first `n` days take the stretch of the clipped interval that lies before their end. */
  lemma {:induction false} SharesPrefix(pts: seq<Snapshot>, p: nat, start: int, days: nat, rate: Option<real>, n: nat)
    requires 0 < p < |pts| && n <= days && Active(pts, p, start, start + days * MS_PER_DAY)
    ensures var from, to := From(pts, p, start), To(pts, p, start + days * MS_PER_DAY);
            Sum(Shares(pts, p, start, days, rate)[..n])
            == Portion(Spent(pts, p, rate), Max(0, Min(to, start + n * MS_PER_DAY) - from), Dt(pts, p))
  {
    hide Portion, Spent, Overlap, From, To;
    var from, to := From(pts, p, start), To(pts, p, start + days * MS_PER_DAY);
    var spent, dt := Spent(pts, p, rate), Dt(pts, p);
    if n == 0 {
      PortionOfWhole(spent, dt);
      assert from >= start by { FromInWindow(pts, p, start); }
    } else {
      var row, dayStart := Shares(pts, p, start, days, rate), start + (n - 1) * MS_PER_DAY;
      SharesPrefix(pts, p, start, days, rate, n - 1);
      assert row[..n][..n - 1] == row[..n - 1];
      PortionAdds(spent, Max(0, Min(to, dayStart) - from), Overlap(from, to, dayStart), dt);
      OneMoreDay(from, to, dayStart);
    }
  }

  lemma FromInWindow(pts: seq<Snapshot>, p: nat, start: int)
    requires 0 < p < |pts|
    ensures From(pts, p, start) >= start
  {
  }

  /** The days partition the clipped interval: its spend is handed out exactly once. */
  lemma SharesTotal(pts: seq<Snapshot>, p: nat, start: int, days: nat, rate: Option<real>)
    requires 0 < p < |pts|
    ensures var end := start + days * MS_PER_DAY;
            Sum(Shares(pts, p, start, days, rate))
            == if Active(pts, p, start, end)
               then Portion(Spent(pts, p, rate), To(pts, p, end) - From(pts, p, start), Dt(pts, p))
               else 0.0
  {
    hide Portion, Spent;
    var row := Shares(pts, p, start, days, rate);
    if Active(pts, p, start, start + days * MS_PER_DAY) {
      SharesPrefix(pts, p, start, days, rate, days);
      assert row[..days] == row;
    } else {
      assert row == Zeros(days);
      SumZeros(days);
    }
  }

  // ---------------------------------------------------------------- all intervals

  /** What the intervals before `n` spend inside the window. */
  function ClippedSpend(pts: seq<Snapshot>, n: nat, start: int, end: int, rate: Option<real>): real
    requires n <= |pts|
  {
    if n <= 1 then 0.0
    else ClippedSpend(pts, n - 1, start, end, rate) +
         if Active(pts, n - 1, start, end)
         then Portion(Spent(pts, n - 1, rate), To(pts, n - 1, end) - From(pts, n - 1, start), Dt(pts, n - 1))
         else 0.0
  }

  /** Conservation for any snapshots, any window and any rate. */
  lemma {:induction false} DaysConserveSpend(pts: seq<Snapshot>, n: nat, start: int, days: nat, rate: Option<real>)
    requires n <= |pts|
    ensures Sum(DaySums(pts, n, start, days, rate)) == ClippedSpend(pts, n, start, start + days * MS_PER_DAY, rate)
  {
    hide Portion, Spent, Shares;
    if n <= 1 {
      SumZeros(days);
    } else {
      DaysConserveSpend(pts, n - 1, start, days, rate);
      SharesTotal(pts, n - 1, start, days, rate);
      assert |Shares(pts, n - 1, start, days, rate)| == days by { SharesLength(pts, n - 1, start, days, rate); }
      SumAddRows(DaySums(pts, n - 1, start, days, rate), Shares(pts, n - 1, start, days, rate));
    }
  }

  lemma SharesLength(pts: seq<Snapshot>, p: nat, start: int, days: nat, rate: Option<real>)
    requires 0 < p < |pts|
    ensures |Shares(pts, p, start, days, rate)| == days
  {
  }

  ghost predicate AllWithin(pts: seq<Snapshot>, start: int, end: int) {
    forall i :: 0 <= i < |pts| ==> start <= pts[i].capturedAt <= end
  }

  /** Days taken by the top-up intervals before `n`, the ones the burn drops. */
  function TopUpDays(pts: seq<Snapshot>, n: nat): real
    requires n <= |pts|
  {
    if n <= 1 then 0.0
    else TopUpDays(pts, n - 1) + TopUpTime(pts, n - 1)
  }

  lemma {:induction false} DaysSplit(pts: seq<Snapshot>, n: nat)
    requires 0 < n <= |pts| && SortedByTime(pts)
    ensures KeptDays(pts, n) + TopUpDays(pts, n) == Days(pts[n - 1].capturedAt - pts[0].capturedAt)
  {
    if n > 1 {
      DaysSplit(pts, n - 1);
    }
  }

  /** What an interval inside the window hands out: its decline, or the rate over its length. */
  lemma IntervalWithinWindow(pts: seq<Snapshot>, p: nat, start: int, end: int, rate: real)
    requires 0 < p < |pts| && AllWithin(pts, start, end) && Dt(pts, p) > 0
    ensures Active(pts, p, start, end)
    ensures Portion(Spent(pts, p, Some(rate)), To(pts, p, end) - From(pts, p, start), Dt(pts, p))
            == Spent(pts, p, Some(rate))
  {
    hide Portion, Spent;
    assert From(pts, p, start) == pts[p - 1].capturedAt && To(pts, p, end) == pts[p].capturedAt;
    PortionOfWhole(Spent(pts, p, Some(rate)), Dt(pts, p));
  }

  /** The time an interval takes if it is a top-up. */
  function TopUpTime(pts: seq<Snapshot>, p: nat): real
    requires 0 < p < |pts|
  {
    if Dt(pts, p) > 0 && TopUp(pts, p) then Days(Dt(pts, p)) else 0.0
  }

  lemma IntervalAdds(pts: seq<Snapshot>, p: nat, start: int, end: int, rate: real)
    requires 0 < p < |pts| && AllWithin(pts, start, end)
    ensures (if Active(pts, p, start, end)
             then Portion(Spent(pts, p, Some(rate)), To(pts, p, end) - From(pts, p, start), Dt(pts, p)) else 0.0)
            == (if Kept(pts, p) then Decline(pts, p) else 0.0) + AtRate(rate, TopUpTime(pts, p))
  {
    hide Portion, Days, AllWithin, From, To;
    if Dt(pts, p) > 0 {
      IntervalWithinWindow(pts, p, start, end, rate);
      hide Active;
    }
  }

  /** Inside the window the days show the declines plus the rate over the top-up stretches. */
  lemma {:induction false} SpendWithinWindow(pts: seq<Snapshot>, n: nat, start: int, end: int, rate: real)
    requires n <= |pts| && AllWithin(pts, start, end)
    ensures ClippedSpend(pts, n, start, end, Some(rate)) == KeptDecline(pts, n) + AtRate(rate, TopUpDays(pts, n))
  {
    if n > 1 {
      assert TopUpDays(pts, n) == TopUpDays(pts, n - 1) + TopUpTime(pts, n - 1);
      hide Portion, Spent, AllWithin, Active, From, To, Kept, Decline, Dt, TopUpTime, TopUpDays, AtRate;
      SpendWithinWindow(pts, n - 1, start, end, rate);
      IntervalAdds(pts, n - 1, start, end, rate);
      Distribute(rate, TopUpDays(pts, n - 1), TopUpTime(pts, n - 1));
    }
  }

  function AtRate(rate: real, days: real): real {
    rate * days
  }

  lemma Distribute(r: real, a: real, b: real)
    ensures AtRate(r, a + b) == AtRate(r, a) + AtRate(r, b)
  {
  }

  /**
   * The main law. With every snapshot in the window and a measurable rate, the exact day sums add
   * up to the burn rate times the whole covered span: what `burnFromSnapshots` drops at top-ups is
   * precisely what `fromSnapshots` puts back.
   */
  lemma {:induction false} RefillMatchesBurn(pts: seq<Snapshot>, start: int, days: nat)
    requires |pts| > 0 && SortedByTime(pts) && AllWithin(pts, start, start + days * MS_PER_DAY)
    requires Burn(pts, 1.0).Some?
    ensures Sum(DaySums(pts, |pts|, start, days, Burn(pts, 1.0)))
            == Burn(pts, 1.0).value * Days(pts[|pts| - 1].capturedAt - pts[0].capturedAt)
  {
    hide DaySums, ClippedSpend, KeptDecline, KeptDays, TopUpDays, Days, AllWithin;
    SortOfSorted(pts);
    var n, rate := |pts|, Burn(pts, 1.0).value;
    DaysConserveSpend(pts, n, start, days, Some(rate));
    SpendWithinWindow(pts, n, start, start + days * MS_PER_DAY, rate);
    DaysSplit(pts, n);
    KeptDaysPositive(pts, n);
    RateTimesSpan(KeptDecline(pts, n), KeptDays(pts, n), TopUpDays(pts, n), rate);
  }

  lemma RateTimesSpan(spent: real, kept: real, dropped: real, rate: real)
    requires kept > 0.0 && rate == spent / kept
    ensures spent + rate * dropped == rate * (kept + dropped)
  {
    assert rate * kept == spent;
  }

  /** Without top-ups and with distinct times the exact total is the fall of the balance. */
  lemma {:induction false} DeclinesTelescope(pts: seq<Snapshot>, start: int, days: nat, rate: Option<real>)
    requires |pts| > 0 && AllWithin(pts, start, start + days * MS_PER_DAY)
    requires forall p :: 0 < p < |pts| ==> Dt(pts, p) > 0 && !TopUp(pts, p)
    ensures Sum(DaySums(pts, |pts|, start, days, rate)) == pts[0].balance - pts[|pts| - 1].balance
  {
    DaysConserveSpend(pts, |pts|, start, days, rate);
    TelescopePrefix(pts, |pts|, start, start + days * MS_PER_DAY, rate);
  }

  lemma {:induction false} TelescopePrefix(pts: seq<Snapshot>, n: nat, start: int, end: int, rate: Option<real>)
    requires 0 < n <= |pts| && AllWithin(pts, start, end)
    requires forall p :: 0 < p < |pts| ==> Dt(pts, p) > 0 && !TopUp(pts, p)
    ensures ClippedSpend(pts, n, start, end, rate) == pts[0].balance - pts[n - 1].balance
  {
    if n > 1 {
      TelescopePrefix(pts, n - 1, start, end, rate);
      var p := n - 1;
      assert From(pts, p, start) == pts[p - 1].capturedAt && To(pts, p, end) == pts[p].capturedAt;
      PortionOfWhole(Spent(pts, p, rate), Dt(pts, p));
    }
  }

  // ---------------------------------------------------------------- which days are known

  /** A day some interval reaches lies on the covered stretch. */
  lemma ReachedIsCovered(pts: seq<Snapshot>, p: nat, start: int, days: nat, i: int)
    requires 0 < p < |pts| && SortedByTime(pts) && Reaches(pts, p, start, days, i)
    ensures Covered(start, i, CoverStart(pts, start), CoverEnd(pts, start + days * MS_PER_DAY))
  {
    assert pts[0].capturedAt <= pts[p - 1].capturedAt && pts[p].capturedAt <= pts[|pts| - 1].capturedAt;
  }

  /** No day that received spend is reported as unknown. */
  lemma {:induction false} UnknownDaysGotNothing(pts: seq<Snapshot>, n: nat, start: int, days: nat, rate: Option<real>,
                                                 i: nat)
    requires n <= |pts| && |pts| > 0 && SortedByTime(pts) && i < days
    requires !Covered(start, i, CoverStart(pts, start), CoverEnd(pts, start + days * MS_PER_DAY))
    ensures DaySums(pts, n, start, days, rate)[i] == 0.0
  {
    hide Portion, Spent, Covered;
    if n > 1 {
      UnknownDaysGotNothing(pts, n - 1, start, days, rate, i);
      if Reaches(pts, n - 1, start, days, i) {
        ReachedIsCovered(pts, n - 1, start, days, i);
      }
      if Active(pts, n - 1, start, start + days * MS_PER_DAY) {
        PortionOfWhole(Spent(pts, n - 1, rate), Dt(pts, n - 1));
      }
    }
  }

  /** A top-up interval that reaches into the window marks a known day of it. */
  lemma TopUpMarksADay(pts: seq<Snapshot>, p: nat, start: int, days: nat) returns (i: nat)
    requires 0 < p < |pts| && SortedByTime(pts) && TopUp(pts, p) && Active(pts, p, start, start + days * MS_PER_DAY)
    ensures i < days && Estimated(pts, |pts|, start, days, i)
    ensures Covered(start, i, CoverStart(pts, start), CoverEnd(pts, start + days * MS_PER_DAY))
    ensures CoverStart(pts, start) < CoverEnd(pts, start + days * MS_PER_DAY)
  {
    var from := From(pts, p, start);
    i := (from - start) / MS_PER_DAY;
    DayOverlap(from, To(pts, p, start + days * MS_PER_DAY), start, i);
    assert Reaches(pts, p, start, days, i);
    ReachedIsCovered(pts, p, start, days, i);
    assert pts[0].capturedAt <= pts[p - 1].capturedAt && pts[p].capturedAt <= pts[|pts| - 1].capturedAt;
  }

  /** The figures are marked approximate exactly when a top-up interval reaches into the window. */
  lemma ApproximateIffTopUp(pts: seq<Snapshot>, currency: string, start: int, days: nat)
    requires |pts| > 0 && SortedByTime(pts)
    ensures SnapshotSpend(pts, currency, start, days).approximate
            <==> exists p :: 0 < p < |pts| && TopUp(pts, p) && Active(pts, p, start, start + days * MS_PER_DAY)
  {
    hide DaySums, RoundCents, PerDay, SumKnown, KnownTotal, KnownCount, Overlap, Covered, SortedByTime;
    var end := start + days * MS_PER_DAY;
    var r := SnapshotSpend(pts, currency, start, days);
    var shown := SnapshotDays(pts, start, days);
    if r.approximate {
      var i :| 0 <= i < |shown| && shown[i].estimated;
      assert Estimated(pts, |pts|, start, days, i);
    }
    if p :| 0 < p < |pts| && TopUp(pts, p) && Active(pts, p, start, end) {
      var i := TopUpMarksADay(pts, p, start, days);
      assert shown[i].estimated;
    }
  }

  // ---------------------------------------------------------------- charges

  lemma {:induction false} DayTotalsAppend(charges: seq<Charge>, start: int, days: nat)
    requires charges != [] && AllInWindow(charges, start, days)
    ensures var c := charges[|charges| - 1];
            var before := DayTotals(charges[..|charges| - 1], start, days);
            var i := DayIndex(c.paymentDate, start);
            0 <= i < days && DayTotals(charges, start, days) == before[i := before[i] + c.amount]
  {
    assert charges[|charges| - 1] in charges;
  }

  /** Every charge of the window lands on exactly one of its days. */
  lemma {:induction false} ChargesConserved(charges: seq<Charge>, start: int, days: nat)
    requires AllInWindow(charges, start, days)
    ensures Sum(DayTotals(charges, start, days)) == Total(charges)
  {
    if charges == [] {
      assert DayTotals(charges, start, days) == Zeros(days);
      SumZeros(days);
    } else {
      var n := |charges| - 1;
      assert AllInWindow(charges[..n], start, days) by {
        assert forall c :: c in charges[..n] ==> c in charges;
      }
      ChargesConserved(charges[..n], start, days);
      DayTotalsAppend(charges, start, days);
      var before, i := DayTotals(charges[..n], start, days), DayIndex(charges[n].paymentDate, start);
      SumUpdate(before, i, before[i] + charges[n].amount);
    }
  }

  lemma {:induction false} NoChargeNoTotal(charges: seq<Charge>, start: int, i: int)
    requires forall c :: c in charges ==> DayIndex(c.paymentDate, start) != i
    ensures DayTotal(charges, start, i) == 0.0
  {
    if charges != [] {
      assert charges[|charges| - 1] in charges;
      assert forall c :: c in charges[..|charges| - 1] ==> c in charges;
      NoChargeNoTotal(charges[..|charges| - 1], start, i);
    }
  }

  lemma ChargeDaysShowTotals(charges: seq<Charge>, firstChargeAt: Option<int>, start: int, days: nat)
    requires charges != [] && AllInWindow(charges, start, days)
    ensures Shows(ChargeDays(charges, firstChargeAt, start, days), DayTotals(charges, start, days))
  {
    FirstKnownBeforeCharges(charges, firstChargeAt, start, days);
    forall i | 0 <= i < FirstKnown(charges, firstChargeAt, start) ensures DayTotal(charges, start, i) == 0.0 {
      NoChargeNoTotal(charges, start, i);
    }
  }

  lemma {:induction false} SnapshotDaysShowSums(pts: seq<Snapshot>, start: int, days: nat)
    requires |pts| > 0 && SortedByTime(pts)
    ensures Shows(SnapshotDays(pts, start, days), DaySums(pts, |pts|, start, days, BurnOfSorted(pts, 1.0)))
  {
    var coverStart, coverEnd := CoverStart(pts, start), CoverEnd(pts, start + days * MS_PER_DAY);
    forall i: nat | i < days && !Covered(start, i, coverStart, coverEnd)
      ensures DaySums(pts, |pts|, start, days, BurnOfSorted(pts, 1.0))[i] == 0.0
    {
      UnknownDaysGotNothing(pts, |pts|, start, days, BurnOfSorted(pts, 1.0), i);
    }
  }

  // ---------------------------------------------------------------- the result the caller sees

  /** The money the account moved in the window, before any rounding. */
  function ExactSpend(input: AccountSpendInput): real {
    var w := SpendWindow(input.now, input.days);
    var currency := AccountCurrency(input);
    if currency.None? then 0.0
    else if ChargesIn(input, currency.value) != [] then Total(ChargesIn(input, currency.value))
    else
      var pts := PointsIn(input, currency.value);
      ClippedSpend(pts, |pts|, w.start, w.end, BurnOfSorted(pts, 1.0))
  }

  /** One entry per day of the window, in order. */
  ghost predicate ListsDays(list: seq<SpendDay>, start: int, days: nat) {
    |list| == days && forall i :: 0 <= i < days ==> list[i].date == start + i * MS_PER_DAY
  }

  /** For every input the list covers the window day by day. */
  lemma DaysListTheWindow(input: AccountSpendInput)
    ensures ListsDays(SpendOf(input).days, SpendWindow(input.now, input.days).start, input.days)
  {
    hide SpendWindow, ChargesIn, PointsIn, ChargeSpend, SnapshotSpend, Empty, ListsDays;
    var start, currency := SpendWindow(input.now, input.days).start, AccountCurrency(input);
    EmptyListsDays(start, input.days);
    if currency.Some? && currency.value != "" {
      var charges, points := ChargesIn(input, currency.value), PointsIn(input, currency.value);
      if charges != [] {
        ChargeSpendListsDays(charges, input.firstChargeAt, currency.value, start, input.days);
      } else if |points| > 0 {
        SnapshotSpendListsDays(points, currency.value, start, input.days);
      }
    }
  }

  lemma EmptyListsDays(start: int, days: nat)
    ensures ListsDays(Empty(start, days).days, start, days)
  {
  }

  lemma ChargeSpendListsDays(charges: seq<Charge>, firstChargeAt: Option<int>, currency: string, start: int, days: nat)
    requires charges != [] && AllInWindow(charges, start, days)
    ensures ListsDays(ChargeSpend(charges, firstChargeAt, currency, start, days).days, start, days)
  {
    hide DayTotal, KnownTotal, KnownCount, SumKnown, PerDay, RoundCents, FirstKnown;
  }

  lemma SnapshotSpendListsDays(points: seq<Snapshot>, currency: string, start: int, days: nat)
    requires |points| > 0
    ensures ListsDays(SnapshotSpend(points, currency, start, days).days, start, days)
  {
    hide DaySums, BurnOfSorted, KnownTotal, KnownCount, SumKnown, PerDay, RoundCents, CoverStart, CoverEnd,
        EstimatedDays;
    EmptyListsDays(start, days);
  }

  /**
   * For every input: a result either knows nothing or knows a day, its total is the sum of the
   * days it shows, and that total is within half a cent per known day of the exact spend.
   */
  lemma AccountSpendAddsUp(input: AccountSpendInput)
    ensures var r := SpendOf(input);
            && r.coveredDays == KnownCount(r.days)
            && (r.source.None? <==> r.coveredDays == 0)
            && (r.source.Some? ==> r.currency == AccountCurrency(input))
            && r.last30d == SumKnown(r.days)
            && (r.source.Some? ==>
                  && r.last30d.Some?
                  && Abs(r.last30d.value - ExactSpend(input)) <= 0.005 * r.coveredDays as real)
  {
    hide DaySums, DayTotals, ClippedSpend, BurnOfSorted, SortByTime, PerDay, KnownTotal, KnownCount, ChargeDays,
         SnapshotDays, Shows, CoverStart, CoverEnd, LastSeven;
    var w := SpendWindow(input.now, input.days);
    var currency := AccountCurrency(input);
    EmptyKnowsNothing(w.start, input.days);
    if currency.Some? && currency.value != "" {
      var charges, pts := ChargesIn(input, currency.value), PointsIn(input, currency.value);
      if charges != [] {
        ChargeDaysShowTotals(charges, input.firstChargeAt, w.start, input.days);
        ChargesConserved(charges, w.start, input.days);
        ChargeHistoryReaches(charges, input.firstChargeAt, w.start, input.days);
        RoundingBound(ChargeDays(charges, input.firstChargeAt, w.start, input.days),
                      DayTotals(charges, w.start, input.days));
      } else if input.useSnapshots && |pts| >= 2 && CoverStart(pts, w.start) < CoverEnd(pts, w.end) {
        var rate := BurnOfSorted(pts, 1.0);
        SortSorts(Filter(input.snapshots, (s: Snapshot) => s.currency == currency.value));
        SnapshotDaysShowSums(pts, w.start, input.days);
        DaysConserveSpend(pts, |pts|, w.start, input.days, rate);
        SomeDayCovered(pts, w.start, input.days);
        RoundingBound(SnapshotDays(pts, w.start, input.days), DaySums(pts, |pts|, w.start, input.days, rate));
      }
    }
  }

  /**
   * The daily figure shown next to the bars is the burn rate up to rounding: half a cent for the
   * figure itself and half a cent per known day, spread over the covered span.
   */
  lemma PerDayTracksBurn(pts: seq<Snapshot>, currency: string, start: int, days: nat)
    requires |pts| > 0 && SortedByTime(pts) && AllWithin(pts, start, start + days * MS_PER_DAY)
    requires Burn(pts, 1.0).Some? && pts[0].capturedAt < pts[|pts| - 1].capturedAt
    ensures var r := SnapshotSpend(pts, currency, start, days);
            var span := Days(pts[|pts| - 1].capturedAt - pts[0].capturedAt);
            && r.perDay.Some? && span > 0.0
            && Abs(r.perDay.value - Burn(pts, 1.0).value) * span <= 0.005 * (r.coveredDays as real + span)
  {
    hide DaySums, Burn, BurnOfSorted, SnapshotDays, Shows, KnownTotal, KnownCount, SumKnown, PerDay, SortedByTime,
      AllWithin, CoverStart, CoverEnd, Sum;
    var burn, span := Burn(pts, 1.0).value, Days(pts[|pts| - 1].capturedAt - pts[0].capturedAt);
    assert Burn(pts, 1.0) == BurnOfSorted(pts, 1.0) by { BurnIsOfSorted(pts); }
    var shown, sums := SnapshotDays(pts, start, days), DaySums(pts, |pts|, start, days, BurnOfSorted(pts, 1.0));
    RefillMatchesBurn(pts, start, days);
    SnapshotDaysShowSums(pts, start, days);
    RoundingBound(shown, sums);
    CoversAll(pts, start, start + days * MS_PER_DAY);
    assert Sum(sums) == burn * span;
    RoundedQuotientNear(KnownTotal(shown), span, burn, 0.005 * KnownCount(shown) as real);
  }

  lemma CoversAll(pts: seq<Snapshot>, start: int, end: int)
    requires |pts| > 0 && AllWithin(pts, start, end)
    ensures CoverStart(pts, start) == pts[0].capturedAt && CoverEnd(pts, end) == pts[|pts| - 1].capturedAt
  {
  }

  lemma BurnIsOfSorted(pts: seq<Snapshot>)
    requires SortedByTime(pts)
    ensures Burn(pts, 1.0) == BurnOfSorted(pts, 1.0)
  {
    SortOfSorted(pts);
  }

  lemma RoundedQuotientNear(total: real, span: real, burn: real, eps: real)
    requires span > 0.0 && Abs(total - burn * span) <= eps
    ensures Abs(PerDay(total, span) - burn) * span <= eps + 0.005 * span
  {
    hide RoundCents;
    var q := total / span;
    var r := RoundCents(q);
    assert q * span == total;
    assert (r - q) * span <= 0.005 * span && (q - r) * span <= 0.005 * span;
    assert (r - burn) * span == (r - q) * span + (total - burn * span);
  }

  lemma {:induction false} EmptyKnowsNothing(start: int, days: nat)
    ensures KnownCount(Empty(start, days).days) == 0
  {
    if days > 0 {
      assert Empty(start, days).days[..days - 1] == Empty(start, days - 1).days;
      EmptyKnowsNothing(start, days - 1);
    }
  }

  // ---------------------------------------------------------------- the account's currency

  /** `best` beats or ties every currency before it, and wins its ties alphabetically. */
  ghost predicate IsMostCommon(charges: seq<Charge>, best: string, order: seq<string>) {
    && best in order
    && forall c :: c in order ==>
         Count(charges, c) < Count(charges, best)
         || (Count(charges, c) == Count(charges, best) && (c == best || Less(best, c)))
  }

  /** Charges without a currency code are at least as many as those of any other code. */
  ghost predicate EmptyLeads(charges: seq<Charge>, order: seq<string>) {
    "" in order && forall c :: c in order ==> Count(charges, c) <= Count(charges, "")
  }

  /** The two states of the loop: an empty code leads so far, or the pick is the right one. */
  ghost predicate PickState(charges: seq<Charge>, best: string, order: seq<string>)
    requires order != []
  {
    if EmptyLeads(charges, order) then (best == "" <==> order[|order| - 1] == "")
    else best != "" && IsMostCommon(charges, best, order)
  }

  lemma {:induction false} BestIsPickState(charges: seq<Charge>, order: seq<string>)
    requires order != [] && Distinct(order) && AllCharged(charges, order)
    ensures Best(charges, order).Some? && Best(charges, order).value in order
    ensures PickState(charges, Best(charges, order).value, order)
  {
    hide Count, Less, PickState, Best;
    var n := |order| - 1;
    var init := order[..n];
    assert order == init + [order[n]];
    assert order[n] in order;
    AllButLast(charges, order);
    OneMoreCurrency(charges, init, order[n]);
    if n == 0 {
      FirstPick(charges, order[0]);
      assert order == [order[0]];
    } else {
      BestIsPickState(charges, init);
      OneMorePick(charges, Best(charges, init).value, order);
    }
  }

  lemma {:induction false} FirstPick(charges: seq<Charge>, c: string)
    requires Count(charges, c) > 0
    ensures Best(charges, [c]) == Some(c) && PickState(charges, c, [c])
  {
    hide Count, Less;
    assert [c][..0] == [] && Best(charges, []) == None;
  }

  ghost predicate AllCharged(charges: seq<Charge>, order: seq<string>) {
    forall c :: c in order ==> Count(charges, c) > 0
  }

  lemma AllButLast(charges: seq<Charge>, order: seq<string>)
    requires order != [] && Distinct(order) && AllCharged(charges, order)
    ensures var n := |order| - 1;
            Distinct(order[..n]) && AllCharged(charges, order[..n]) && order[n] !in order[..n]
  {
    hide Count;
  }

  lemma {:induction false} OneMorePick(charges: seq<Charge>, best: string, order: seq<string>)
    requires |order| > 1 && Distinct(order) && AllCharged(charges, order)
    requires PickState(charges, best, order[..|order| - 1]) && best in order[..|order| - 1]
    ensures var n := |order| - 1; var cur := order[n];
            var bestN := if best != "" then Count(charges, best) else 0;
            var next := if Count(charges, cur) > bestN || (Count(charges, cur) == bestN && Less(cur, best))
                        then cur else best;
            next in order && PickState(charges, next, order)
  {
    hide Count, Less, PickState, EmptyLeads, IsMostCommon;
    AllButLast(charges, order);
    var n := |order| - 1;
    var init, cur := order[..n], order[n];
    assert order == init + [cur] && cur in order && Count(charges, cur) > 0;
    hide Distinct, AllCharged;
    if EmptyLeads(charges, init) {
      PickUnderEmptyCode(charges, best, init, cur);
    } else if cur == "" {
      PickMeetsEmptyCode(charges, best, init);
    } else {
      NotLeading(charges, best, init);
      BetterOfTwo(charges, best, init, cur);
      LeadsSame(charges, init, cur);
      PickedState(charges, BetterPick(charges, best, cur), order);
    }
  }

  lemma NotLeading(charges: seq<Charge>, best: string, init: seq<string>)
    requires init != [] && PickState(charges, best, init) && !EmptyLeads(charges, init)
    ensures best != "" && IsMostCommon(charges, best, init)
  {
    hide EmptyLeads, IsMostCommon;
  }

  /** An empty code leads so far: whatever comes next replaces it. */
  lemma {:induction false} PickUnderEmptyCode(charges: seq<Charge>, best: string, init: seq<string>, cur: string)
    requires init != [] && EmptyLeads(charges, init) && PickState(charges, best, init) && best in init
    requires cur !in init && Count(charges, cur) > 0
    ensures var bestN := if best != "" then Count(charges, best) else 0;
            var next := if Count(charges, cur) > bestN || (Count(charges, cur) == bestN && Less(cur, best))
                        then cur else best;
            next in init + [cur] && PickState(charges, next, init + [cur])
  {
    hide Count, Less;
    var order := init + [cur];
    assert cur in order && "" in order && order[|order| - 1] == cur && cur != "";
  }

  /** An empty code comes up: it takes over when it is at least as frequent as the pick. */
  lemma {:induction false} PickMeetsEmptyCode(charges: seq<Charge>, best: string, init: seq<string>)
    requires init != [] && !EmptyLeads(charges, init) && PickState(charges, best, init) && "" !in init
    ensures var bestN := if best != "" then Count(charges, best) else 0;
            var next := if Count(charges, "") > bestN || (Count(charges, "") == bestN && Less("", best))
                        then "" else best;
            next in init + [""] && PickState(charges, next, init + [""])
  {
    hide Count;
    assert Less("", best);
    hide Less;
    var order := init + [""];
    assert "" in order && best in order && order[|order| - 1] == "";
  }

  function BetterPick(charges: seq<Charge>, best: string, cur: string): string {
    var n, bestN := Count(charges, cur), Count(charges, best);
    if n > bestN || (n == bestN && Less(cur, best)) then cur else best
  }

  lemma LeadsSame(charges: seq<Charge>, init: seq<string>, cur: string)
    requires cur != "" && !EmptyLeads(charges, init)
    ensures !EmptyLeads(charges, init + [cur])
  {
    hide Count;
    assert forall c :: c in init ==> c in init + [cur];
  }

  lemma PickedState(charges: seq<Charge>, best: string, order: seq<string>)
    requires order != [] && !EmptyLeads(charges, order) && best != "" && IsMostCommon(charges, best, order)
    ensures PickState(charges, best, order)
  {
    hide IsMostCommon, EmptyLeads;
  }

  lemma BetterOfTwo(charges: seq<Charge>, best: string, init: seq<string>, cur: string)
    requires IsMostCommon(charges, best, init) && cur !in init
    ensures IsMostCommon(charges, BetterPick(charges, best, cur), init + [cur])
  {
    hide Count;
    LessTotal(cur, best);
    hide Less;
    forall c | c in init && Less(cur, best) && Less(best, c) ensures Less(cur, c) {
      LessTransitive(cur, best, c);
    }
  }

  /**
   * The pick is the most frequent currency, ties going to the first name, exactly unless charges
   * without a currency code lead and another code shows up after the first of them.
   */
  lemma {:induction false} MostCommonIff(charges: seq<Charge>)
    requires charges != []
    ensures MostCommon(charges).Some?
    ensures var order := Currencies(charges);
            order != [] && (IsMostCommon(charges, MostCommon(charges).value, order)
                            <==> !EmptyLeads(charges, order) || order[|order| - 1] == "")
  {
    hide Count;
    var order := Currencies(charges);
    forall c | c in order ensures Count(charges, c) > 0 {
      CurrenciesAreThoseCharged(charges, c);
    }
    CurrenciesAreDistinct(charges);
    hide Currencies;
    HasCurrency(charges);
    BestIsPickState(charges, order);
    var best := MostCommon(charges).value;
    assert best != "" ==> !Less(best, "");
    assert forall c: string :: c != "" ==> Less("", c);
    assert order[|order| - 1] in order;
  }

  lemma {:induction false} HasCurrency(charges: seq<Charge>)
    requires charges != []
    ensures Currencies(charges) != []
  {
  }

  lemma {:induction false} OneMoreCharge(charges: seq<Charge>, c: Charge)
    ensures forall cur :: Count(charges + [c], cur) == Count(charges, cur) + if c.currency == cur then 1 else 0
    ensures Currencies(charges + [c])
            == if c.currency in Currencies(charges) then Currencies(charges) else Currencies(charges) + [c.currency]
  {
    assert (charges + [c])[..|charges|] == charges;
  }

  lemma {:induction false} OneMoreCurrency(charges: seq<Charge>, order: seq<string>, cur: string)
    ensures Best(charges, order + [cur])
            == var best := Best(charges, order);
               var bestN := if best.Some? && best.value != "" then Count(charges, best.value) else 0;
               if Count(charges, cur) > bestN || (Count(charges, cur) == bestN && best.Some? && Less(cur, best.value))
               then Some(cur) else best
  {
    assert (order + [cur])[..|order|] == order;
  }

  /**
   * An empty currency code is taken for "nothing picked yet": USD wins a tie that is EUR's. The API
   * accepts no empty code and the pick runs only for accounts without a balance currency, so such a
   * charge can only be an imported one.
   */
  lemma EmptyCodeSpoilsThePick()
    ensures MostCommon([Charge(1.0, "EUR", 0), Charge(1.0, "", 0), Charge(1.0, "USD", 0)]) == Some("USD")
  {
    hide Count, Currencies, Best;
    CountsOfThree();
    PickOfThree([Charge(1.0, "EUR", 0), Charge(1.0, "", 0), Charge(1.0, "USD", 0)]);
  }

  lemma CountsOfThree()
    ensures var charges := [Charge(1.0, "EUR", 0), Charge(1.0, "", 0), Charge(1.0, "USD", 0)];
            && Currencies(charges) == [] + ["EUR"] + [""] + ["USD"]
            && Count(charges, "EUR") == 1 && Count(charges, "") == 1 && Count(charges, "USD") == 1
  {
    hide Count, Currencies;
    var eur, none, usd := Charge(1.0, "EUR", 0), Charge(1.0, "", 0), Charge(1.0, "USD", 0);
    var one, two := [] + [eur], [] + [eur] + [none];
    NoCharges();
    OneMoreCharge([], eur);
    OneMoreCharge(one, none);
    OneMoreCharge(two, usd);
    assert two + [usd] == [eur, none, usd];
  }

  lemma {:induction false} PickOfThree(charges: seq<Charge>)
    requires Count(charges, "EUR") == 1 && Count(charges, "") == 1 && Count(charges, "USD") == 1
    ensures Best(charges, [] + ["EUR"] + [""] + ["USD"]) == Some("USD")
  {
    assert Less("", "EUR");
    hide Count, Best, Less;
    NoCharges();
    OneMoreCurrency(charges, [], "EUR");
    OneMoreCurrency(charges, [] + ["EUR"], "");
    OneMoreCurrency(charges, [] + ["EUR"] + [""], "USD");
  }

  lemma NoCharges()
    ensures Currencies([]) == [] && forall cur :: Count([], cur) == 0
    ensures forall charges :: Best(charges, []) == None
  {
  }
}
