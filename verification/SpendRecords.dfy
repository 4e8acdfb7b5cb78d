/**
 * What the daily spend says about the records it was made from: which of them decide, which days
 * are known, and what each day shows, in the caller's own terms.
 */
module SpendRecords {
  import opened Prelude
  import opened Sums
  import opened Runway
  import opened Spend
  import opened SpendLaws

  // ---------------------------------------------------------------- counting days

  lemma {:induction false} KnownTotalIsSum(days: seq<SpendDay>)
    ensures KnownTotal(days) == SumOver(days, (d: SpendDay) => if d.amount.Some? then d.amount.value else 0.0)
    ensures KnownCount(days) as real == SumOver(days, (d: SpendDay) => if d.amount.Some? then 1.0 else 0.0)
  {
    if days != [] {
      KnownTotalIsSum(days[..|days| - 1]);
    }
  }

  lemma {:induction false} SomeDayKnownIff(days: seq<SpendDay>)
    ensures KnownCount(days) > 0 <==> exists i :: 0 <= i < |days| && days[i].amount.Some?
  {
    if i :| 0 <= i < |days| && days[i].amount.Some? {
      KnownDayCounts(days, i);
    } else if days != [] {
      SomeDayKnownIff(days[..|days| - 1]);
    }
  }

  /** Consecutive known days are as many as their distance says. */
  lemma {:induction false} KnownFrom(days: seq<SpendDay>, first: nat)
    requires first <= |days|
    requires forall i :: 0 <= i < |days| ==> (days[i].amount.Some? <==> first <= i)
    ensures KnownCount(days) == |days| - first
  {
    if first < |days| {
      KnownFrom(days[..|days| - 1], first);
    } else {
      SomeDayKnownIff(days);
    }
  }

  // ---------------------------------------------------------------- provider charges

  /** A charge of the window in the given currency. */
  ghost predicate Counts(input: AccountSpendInput, currency: string, c: Charge) {
    var w := SpendWindow(input.now, input.days);
    c in input.charges && c.currency == currency && w.start <= c.paymentDate < w.end
  }

  lemma CountsIffIn(input: AccountSpendInput, currency: string)
    ensures forall c :: c in ChargesIn(input, currency) <==> Counts(input, currency, c)
  {
  }

  /** Charges decide as soon as there is one in the account's currency. */
  lemma ChargesDecideIff(input: AccountSpendInput)
    ensures SpendOf(input).source == Some(FromChargeRows)
            <==> exists c: Charge :: c.currency != "" && AccountCurrency(input) == Some(c.currency)
                                     && Counts(input, c.currency, c)
  {
    hide ChargesIn, PointsIn, AccountCurrency, Counts, DaySums, DayTotals, CoverStart, CoverEnd, FirstKnown,
         ShownDays, ShownFrom, PerDay, KnownTotal, KnownCount, SumKnown, SpendWindow;
    var currency := AccountCurrency(input);
    if currency.Some? && currency.value != "" {
      CountsIffIn(input, currency.value);
      if ChargesIn(input, currency.value) != [] {
        var c := ChargesIn(input, currency.value)[0];
        assert c in ChargesIn(input, currency.value) && Counts(input, currency.value, c);
        assert c.currency == currency.value by { hide ChargesIn; CurrencyOfCounted(input, currency.value, c); }
      }
    }
  }

  lemma CurrencyOfCounted(input: AccountSpendInput, currency: string, c: Charge)
    requires Counts(input, currency, c)
    ensures c.currency == currency
  {
  }

  lemma {:induction false} EarliestIsOne(charges: seq<Charge>)
    requires charges != []
    ensures exists c :: c in charges && c.paymentDate == Earliest(charges)
  {
    if |charges| > 1 {
      EarliestIsOne(charges[..|charges| - 1]);
      assert charges[|charges| - 1] in charges;
    } else {
      assert charges[0] in charges;
    }
  }

  /** Day `i` ends before all charges and before the first one ever. */
  lemma BeforeHistoryIff(charges: seq<Charge>, firstChargeAt: Option<int>, start: int, i: nat)
    requires charges != []
    ensures i < FirstKnown(charges, firstChargeAt, start)
            <==> && (forall c :: c in charges ==> start + (i + 1) * MS_PER_DAY <= c.paymentDate)
                 && (firstChargeAt.Some? ==> start + (i + 1) * MS_PER_DAY <= firstChargeAt.value)
  {
    EarliestIsLeast(charges);
    EarliestIsOne(charges);
    hide Earliest;
    var earliest := if firstChargeAt.Some? then Min(Earliest(charges), firstChargeAt.value) else Earliest(charges);
    assert i < Max(0, DayIndex(earliest, start)) <==> start + (i + 1) * MS_PER_DAY <= earliest;
  }

  lemma {:induction false} DayTotalIsSum(charges: seq<Charge>, start: int, i: int, f: Charge -> real)
    requires forall c :: c in charges ==>
               f(c) == if start + i * MS_PER_DAY <= c.paymentDate < start + (i + 1) * MS_PER_DAY then c.amount else 0.0
    ensures DayTotal(charges, start, i) == SumOver(charges, f)
  {
    if charges != [] {
      var n := |charges| - 1;
      assert charges[n] in charges && forall c :: c in charges[..n] ==> c in charges;
      DayTotalIsSum(charges[..n], start, i, f);
    }
  }

  /** The money of a charge if it counts for the day that starts at `day`. */
  ghost function OnDay(input: AccountSpendInput, currency: string, day: int): Charge -> real {
    c => if Counts(input, currency, c) && day <= c.paymentDate < day + MS_PER_DAY then c.amount else 0.0
  }

  lemma {:induction false} DayOfInput(input: AccountSpendInput, currency: string, i: int)
    ensures var start := SpendWindow(input.now, input.days).start;
            DayTotal(ChargesIn(input, currency), start, i)
            == SumOver(input.charges, OnDay(input, currency, start + i * MS_PER_DAY))
  {
    hide SpendWindow, DayTotal, SumOver;
    var w := SpendWindow(input.now, input.days);
    var onDay := OnDay(input, currency, w.start + i * MS_PER_DAY);
    var ours := (c: Charge) => if c.currency == currency then onDay(c) else 0.0;
    CountsIffIn(input, currency);
    DayTotalIsSum(ChargesIn(input, currency), w.start, i, onDay);
    SumOverFilter(InWindow(input), (c: Charge) => c.currency == currency, onDay, ours);
    SumOverFilter(input.charges, (c: Charge) => w.start <= c.paymentDate < w.end, ours, onDay);
  }

  lemma DecidedByCharges(input: AccountSpendInput)
    requires SpendOf(input).source == Some(FromChargeRows)
    ensures AccountCurrency(input).Some?
    ensures var start, currency := SpendWindow(input.now, input.days).start, AccountCurrency(input).value;
            var charges, r := ChargesIn(input, currency), SpendOf(input);
            && charges != [] && r.currency == Some(currency)
            && r.days == ChargeDays(charges, input.firstChargeAt, start, input.days)
            && FirstKnown(charges, input.firstChargeAt, start) < input.days
            && r.perDay == Some(PerDay(KnownTotal(r.days),
                                       (input.days - FirstKnown(charges, input.firstChargeAt, start)) as real))
  {
    hide SpendWindow, ChargesIn, PointsIn, AccountCurrency, FirstKnown, ChargeDays, SnapshotDays, KnownTotal,
        KnownCount,
         SumKnown, PerDay, LastSeven, CoverStart, CoverEnd;
    var start, currency := SpendWindow(input.now, input.days).start, AccountCurrency(input);
    if currency.Some? && ChargesIn(input, currency.value) != [] {
      ChargeHistoryReaches(ChargesIn(input, currency.value), input.firstChargeAt, start, input.days);
    }
  }

  lemma ChargeDayIs(charges: seq<Charge>, firstChargeAt: Option<int>, start: int, days: nat, i: nat)
    requires charges != [] && i < days
    ensures var d, first := ChargeDays(charges, firstChargeAt, start, days)[i],
        FirstKnown(charges, firstChargeAt, start);
            && d.date == start + i * MS_PER_DAY && !d.estimated
            && d.amount == if i < first then None else Some(RoundCents(DayTotal(charges, start, i)))
  {
    hide FirstKnown, DayTotal, RoundCents;
  }

  /** Which day, with what it shows, in terms of the input. */
  ghost predicate ShowsCharges(input: AccountSpendInput, currency: string, d: SpendDay) {
    && (d.amount.None? <==> && (forall c :: Counts(input, currency, c) ==> d.date + MS_PER_DAY <= c.paymentDate)
                            && (input.firstChargeAt.Some? ==> d.date + MS_PER_DAY <= input.firstChargeAt.value))
    && (d.amount.Some? ==>
          d.amount == Some(RoundCents(SumOver(input.charges, OnDay(input, currency, d.date)))))
    && !d.estimated
  }

  lemma ShowsItsCharges(input: AccountSpendInput, currency: string, i: nat)
    requires ChargesIn(input, currency) != [] && i < input.days
    ensures var start := SpendWindow(input.now, input.days).start;
            ShowsCharges(input, currency,
                         ChargeDays(ChargesIn(input, currency), input.firstChargeAt, start, input.days)[i])
  {
    hide SpendWindow, ChargesIn, FirstKnown, DayTotal, RoundCents, Counts, OnDay, SumOver, ChargeDays;
    var start, charges := SpendWindow(input.now, input.days).start, ChargesIn(input, currency);
    CountsIffIn(input, currency);
    ChargeDayIs(charges, input.firstChargeAt, start, input.days, i);
    DayOfInput(input, currency, i);
    BeforeHistoryIff(charges, input.firstChargeAt, start, i);
  }

  /**
   * Charges decide: a day is unknown exactly if it ends before every charge that counts and before
   * the account's first charge ever; a known day shows what its charges add up to, rounded; and the
   * daily figure is the total over as many days as are known.
   */
  lemma ChargeDaysIff(input: AccountSpendInput)
    requires SpendOf(input).source == Some(FromChargeRows)
    ensures var r := SpendOf(input);
            && r.currency.Some? && (exists c :: Counts(input, r.currency.value, c))
            && (forall d :: d in r.days ==> ShowsCharges(input, r.currency.value, d))
            && r.perDay == Some(RoundCents(KnownTotal(r.days) / KnownCount(r.days) as real))
  {
    hide SpendOf, SpendWindow, ChargesIn, AccountCurrency, FirstKnown, KnownTotal, KnownCount, RoundCents, Counts,
         ShowsCharges, ChargeDays;
    DecidedByCharges(input);
    var currency := AccountCurrency(input).value;
    CountsIffIn(input, currency);
    assert ChargesIn(input, currency)[0] in ChargesIn(input, currency);
    AllShowTheirCharges(input, currency);
    KnownChargeDays(ChargesIn(input, currency), input.firstChargeAt, SpendWindow(input.now, input.days).start,
                    input.days);
  }

  lemma AllShowTheirCharges(input: AccountSpendInput, currency: string)
    requires ChargesIn(input, currency) != []
    ensures var start := SpendWindow(input.now, input.days).start;
            forall d :: d in ChargeDays(ChargesIn(input, currency), input.firstChargeAt, start, input.days) ==>
              ShowsCharges(input, currency, d)
  {
    hide SpendWindow, ChargesIn, FirstKnown, ShowsCharges, ChargeDays;
    var start := SpendWindow(input.now, input.days).start;
    var days := ChargeDays(ChargesIn(input, currency), input.firstChargeAt, start, input.days);
    LengthOfChargeDays(ChargesIn(input, currency), input.firstChargeAt, start, input.days);
    forall d | d in days ensures ShowsCharges(input, currency, d) {
      var i :| 0 <= i < |days| && days[i] == d;
      ShowsItsCharges(input, currency, i);
    }
  }

  lemma KnownChargeDays(charges: seq<Charge>, firstChargeAt: Option<int>, start: int, days: nat)
    requires charges != [] && FirstKnown(charges, firstChargeAt, start) < days
    ensures KnownCount(ChargeDays(charges, firstChargeAt, start, days))
        == days - FirstKnown(charges, firstChargeAt, start)
  {
    hide FirstKnown, DayTotal, RoundCents, ChargeDays, KnownCount;
    var shown, first := ChargeDays(charges, firstChargeAt, start, days), FirstKnown(charges, firstChargeAt, start);
    LengthOfChargeDays(charges, firstChargeAt, start, days);
    forall i | 0 <= i < days ensures shown[i].amount.Some? <==> first <= i {
      ChargeDayIs(charges, firstChargeAt, start, days, i);
    }
    KnownFrom(shown, first);
  }

  lemma LengthOfChargeDays(charges: seq<Charge>, firstChargeAt: Option<int>, start: int, days: nat)
    requires charges != []
    ensures |ChargeDays(charges, firstChargeAt, start, days)| == days
  {
    hide FirstKnown, DayTotal, RoundCents;
  }

  // ---------------------------------------------------------------- balance snapshots

  ghost predicate Ours(input: AccountSpendInput, currency: string, s: Snapshot) {
    s in input.snapshots && s.currency == currency
  }

  lemma OursIffPoint(input: AccountSpendInput, currency: string)
    ensures forall s :: s in PointsIn(input, currency) <==> Ours(input, currency, s)
    ensures SortedByTime(PointsIn(input, currency))
  {
    hide SortByTime, SortedByTime;
    var ours := Filter(input.snapshots, (s: Snapshot) => s.currency == currency);
    SortSorts(ours);
    forall s ensures s in PointsIn(input, currency) <==> s in ours {
      assert s in PointsIn(input, currency) <==> s in multiset(PointsIn(input, currency));
      assert s in ours <==> s in multiset(ours);
    }
  }

  /** The snapshots of the account say something about the window. */
  ghost predicate TellOf(input: AccountSpendInput, currency: string, s: Snapshot, t: Snapshot) {
    var w := SpendWindow(input.now, input.days);
    && Ours(input, currency, s) && Ours(input, currency, t)
    && s.capturedAt < t.capturedAt && s.capturedAt < w.end && w.start < t.capturedAt
  }

  lemma CoverageIff(input: AccountSpendInput, currency: string)
    requires input.days > 0
    ensures var w, pts := SpendWindow(input.now, input.days), PointsIn(input, currency);
            |pts| >= 2 && CoverStart(pts, w.start) < CoverEnd(pts, w.end)
            <==> exists s, t :: TellOf(input, currency, s, t)
  {
    hide PointsIn, SpendWindow;
    OursIffPoint(input, currency);
    var w, pts := SpendWindow(input.now, input.days), PointsIn(input, currency);
    WindowIsLong(input);
    if s, t :| TellOf(input, currency, s, t) {
      var i :| 0 <= i < |pts| && pts[i] == s;
      var j :| 0 <= j < |pts| && pts[j] == t;
      assert i != j && pts[0].capturedAt <= s.capturedAt && t.capturedAt <= pts[|pts| - 1].capturedAt;
    }
    if |pts| >= 2 && CoverStart(pts, w.start) < CoverEnd(pts, w.end) {
      assert pts[0] in pts && pts[|pts| - 1] in pts;
      assert TellOf(input, currency, pts[0], pts[|pts| - 1]);
    }
  }

  lemma WindowIsLong(input: AccountSpendInput)
    ensures var w := SpendWindow(input.now, input.days); w.end - w.start == input.days * MS_PER_DAY
  {
  }

  /** Snapshots decide when they may, no charge does, and two of them span some of the window. */
  lemma SnapshotsDecideIff(input: AccountSpendInput)
    requires input.days > 0
    ensures SpendOf(input).source == Some(FromBalanceDrops)
            <==> && input.useSnapshots && AccountCurrency(input).Some? && AccountCurrency(input).value != ""
                 && (forall c :: !Counts(input, AccountCurrency(input).value, c))
                 && exists s, t :: TellOf(input, AccountCurrency(input).value, s, t)
  {
    hide ChargesIn, PointsIn, AccountCurrency, Counts, TellOf, DaySums, DayTotals, FirstKnown, CoverStart, CoverEnd,
         ShownDays, ShownFrom, PerDay, KnownTotal, KnownCount, SumKnown, SpendWindow;
    var currency := AccountCurrency(input);
    if currency.Some? && currency.value != "" {
      WindowIsLong(input);
      CountsIffIn(input, currency.value);
      CoverageIff(input, currency.value);
      if ChargesIn(input, currency.value) != [] {
        assert ChargesIn(input, currency.value)[0] in ChargesIn(input, currency.value);
      }
    }
  }

  /** The stretch of the window between the first and the last snapshot, `s` and `t`. */
  ghost predicate Spans(input: AccountSpendInput, currency: string, s: Snapshot, t: Snapshot) {
    && TellOf(input, currency, s, t)
    && forall u :: Ours(input, currency, u) ==> s.capturedAt <= u.capturedAt <= t.capturedAt
  }

  lemma DecidedBySnapshots(input: AccountSpendInput)
    requires SpendOf(input).source == Some(FromBalanceDrops)
    ensures AccountCurrency(input).Some?
    ensures var w, currency := SpendWindow(input.now, input.days), AccountCurrency(input).value;
            var pts, r := PointsIn(input, currency), SpendOf(input);
            && pts != [] && r.currency == Some(currency) && w.end == w.start + input.days * MS_PER_DAY
            && CoverStart(pts, w.start) < CoverEnd(pts, w.end)
            && r.days == SnapshotDays(pts, w.start, input.days)
            && r.perDay == Some(PerDay(KnownTotal(r.days), Days(CoverEnd(pts, w.end) - CoverStart(pts, w.start))))
  {
    hide SpendWindow, ChargesIn, PointsIn, AccountCurrency, FirstKnown, ChargeDays, SnapshotDays, KnownTotal,
        KnownCount,
         SumKnown, PerDay, LastSeven, CoverStart, CoverEnd;
    WindowIsLong(input);
  }

  lemma SnapshotDayIs(pts: seq<Snapshot>, start: int, days: nat, i: nat)
    requires pts != [] && i < days
    ensures var d := SnapshotDays(pts, start, days)[i];
            && d.date == start + i * MS_PER_DAY
            && (d.amount.Some? <==> Covered(start, i, CoverStart(pts, start), CoverEnd(pts, start + days * MS_PER_DAY)))
  {
    hide DaySums, EstimatedDays, RoundCents, CoverStart, CoverEnd, BurnOfSorted;
  }

  /** A snapshot was taken before the end of the day, and one after its start. */
  ghost predicate Touches(input: AccountSpendInput, currency: string, date: int) {
    && (exists s :: Ours(input, currency, s) && s.capturedAt < date + MS_PER_DAY)
    && (exists s :: Ours(input, currency, s) && date < s.capturedAt)
  }

  lemma TouchesIffCovered(input: AccountSpendInput, currency: string, i: nat)
    requires PointsIn(input, currency) != [] && i < input.days
    ensures var w, pts := SpendWindow(input.now, input.days), PointsIn(input, currency);
            Covered(w.start, i, CoverStart(pts, w.start), CoverEnd(pts, w.end))
            <==> Touches(input, currency, w.start + i * MS_PER_DAY)
  {
    hide SpendWindow, PointsIn, SortedByTime;
    WindowIsLong(input);
    OursIffPoint(input, currency);
    var pts := PointsIn(input, currency);
    EndsOfSorted(pts);
    assert Ours(input, currency, pts[0]) && Ours(input, currency, pts[|pts| - 1]);
  }

  /**
   * Snapshots decide: a day is known exactly if a snapshot was taken before its end and another one
   * after its start, and the daily figure is the total over the time between first and last snapshot
   * that lies in the window.
   */
  lemma SnapshotDaysIff(input: AccountSpendInput)
    requires SpendOf(input).source == Some(FromBalanceDrops)
    ensures var r, w := SpendOf(input), SpendWindow(input.now, input.days);
            && r.currency.Some?
            && (forall d :: d in r.days ==> (d.amount.Some? <==> Touches(input, r.currency.value, d.date)))
            && (exists s, t :: Spans(input, r.currency.value, s, t))
            && (forall s, t :: Spans(input, r.currency.value, s, t) ==>
                  r.perDay == Some(RoundCents(
                    KnownTotal(r.days) / Days(Min(w.end, t.capturedAt) - Max(w.start, s.capturedAt)))))
  {
    hide SpendOf, SpendWindow, PointsIn, AccountCurrency, KnownTotal, RoundCents, SnapshotDays, Days, Touches, TellOf,
         CoverStart, CoverEnd;
    DecidedBySnapshots(input);
    var currency := AccountCurrency(input).value;
    AllTouched(input, currency);
    SpansAll(input, currency);
  }

  lemma AllTouched(input: AccountSpendInput, currency: string)
    requires PointsIn(input, currency) != []
    ensures forall d :: d in SnapshotDays(PointsIn(input, currency), SpendWindow(input.now, input.days).start,
                                          input.days)
                        ==> (d.amount.Some? <==> Touches(input, currency, d.date))
  {
    hide SpendWindow, PointsIn, SnapshotDays, Covered, Touches;
    var w, pts := SpendWindow(input.now, input.days), PointsIn(input, currency);
    var days := SnapshotDays(pts, w.start, input.days);
    WindowIsLong(input);
    forall d | d in days ensures d.amount.Some? <==> Touches(input, currency, d.date) {
      var i :| 0 <= i < |days| && days[i] == d;
      SnapshotDayIs(pts, w.start, input.days, i);
      TouchesIffCovered(input, currency, i);
    }
  }

  /** The first and the last snapshot span all, and whatever spans all has their times. */
  lemma SpansAll(input: AccountSpendInput, currency: string)
    requires var w, pts := SpendWindow(input.now, input.days), PointsIn(input, currency);
             pts != [] && CoverStart(pts, w.start) < CoverEnd(pts, w.end)
    ensures exists s, t :: Spans(input, currency, s, t)
    ensures var w, pts := SpendWindow(input.now, input.days), PointsIn(input, currency);
            forall s, t :: Spans(input, currency, s, t) ==>
              && CoverStart(pts, w.start) == Max(w.start, s.capturedAt)
              && CoverEnd(pts, w.end) == Min(w.end, t.capturedAt)
  {
    hide SpendWindow, PointsIn, Spans, CoverStart, CoverEnd;
    EndsSpan(input, currency);
    forall s, t | Spans(input, currency, s, t)
      ensures var w, pts := SpendWindow(input.now, input.days), PointsIn(input, currency);
              && CoverStart(pts, w.start) == Max(w.start, s.capturedAt)
              && CoverEnd(pts, w.end) == Min(w.end, t.capturedAt)
    {
      SpanTimes(input, currency, s, t);
    }
  }

  lemma EndsSpan(input: AccountSpendInput, currency: string)
    requires var w, pts := SpendWindow(input.now, input.days), PointsIn(input, currency);
             pts != [] && CoverStart(pts, w.start) < CoverEnd(pts, w.end)
    ensures var pts := PointsIn(input, currency); Spans(input, currency, pts[0], pts[|pts| - 1])
  {
    hide SpendWindow, PointsIn, SortedByTime;
    OursIffPoint(input, currency);
    EndsOfSorted(PointsIn(input, currency));
  }

  lemma SpanTimes(input: AccountSpendInput, currency: string, s: Snapshot, t: Snapshot)
    requires PointsIn(input, currency) != [] && Spans(input, currency, s, t)
    ensures var w, pts := SpendWindow(input.now, input.days), PointsIn(input, currency);
            && CoverStart(pts, w.start) == Max(w.start, s.capturedAt)
            && CoverEnd(pts, w.end) == Min(w.end, t.capturedAt)
  {
    hide SpendWindow, PointsIn, SortedByTime;
    var pts := PointsIn(input, currency);
    OursIffPoint(input, currency);
    EndsOfSorted(pts);
    assert Ours(input, currency, pts[0]) && Ours(input, currency, pts[|pts| - 1]);
    assert s in pts && t in pts;
    hide Ours;
  }

  lemma EndsOfSorted(pts: seq<Snapshot>)
    requires SortedByTime(pts) && pts != []
    ensures pts[0] in pts && pts[|pts| - 1] in pts
    ensures forall s :: s in pts ==> pts[0].capturedAt <= s.capturedAt <= pts[|pts| - 1].capturedAt
  {
  }

  /** How many of the `n` milliseconds from `start` on lie in the interval. */
  function Instants(from: int, to: int, start: int, n: nat): nat {
    if n == 0 then 0 else Instants(from, to, start, n - 1) + if from <= start + n - 1 < to then 1 else 0
  }

  lemma {:induction false} InstantsClipped(from: int, to: int, start: int, n: nat)
    ensures Instants(from, to, start, n) == Max(0, Min(to, start + n) - Max(from, start))
  {
    if n > 0 {
      InstantsClipped(from, to, start, n - 1);
    }
  }

  /** The part of an interval that falls on a day is as many milliseconds as the two have in common. */
  lemma {:induction false} OverlapCountsInstants(from: int, to: int, dayStart: int)
    ensures Overlap(from, to, dayStart) == Instants(from, to, dayStart, MS_PER_DAY)
  {
    hide Instants;
    InstantsClipped(from, to, dayStart, MS_PER_DAY);
  }

  lemma {:induction false} FilterMore<T(!new)>(s: seq<T>, keep: T -> bool)
    requires s != []
    ensures var n := |s| - 1; Filter(s, keep) == Filter(s[..n], keep) + if keep(s[n]) then [s[n]] else []
  {
  }

  lemma {:induction false} FilterIsTail<T(!new)>(s: seq<T>, keep: T -> bool, k: nat)
    requires k <= |s| && forall i :: 0 <= i < |s| ==> (keep(s[i]) <==> k <= i)
    ensures Filter(s, keep) == s[k..]
  {
    hide Filter;
    if s == [] {
      assert |Filter(s, keep)| == 0;
    } else {
      var n := |s| - 1;
      FilterMore(s, keep);
      if k <= n {
        FilterIsTail(s[..n], keep, k);
        assert s[k..] == s[..n][k..] + [s[n]];
      } else {
        FilterIsTail(s[..n], keep, n);
      }
    }
  }

  lemma {:induction false} LastSevenByDate(days: seq<SpendDay>, start: int, end: int)
    requires ListsDays(days, start, |days|) && end == start + |days| * MS_PER_DAY
    ensures Filter(days, (d: SpendDay) => end - 7 * MS_PER_DAY <= d.date) == LastSeven(days)
  {
    hide Filter;
    FilterIsTail(days, (d: SpendDay) => end - 7 * MS_PER_DAY <= d.date, Max(0, |days| - 7));
  }

  lemma NothingKnown(start: int, days: nat)
    ensures SumKnown(LastSeven(Empty(start, days).days)) == None
  {
    hide KnownCount;
    SomeDayKnownIff(LastSeven(Empty(start, days).days));
  }

  /** The seven-day figure is the total of the known days of the last week, if there is one. */
  lemma LastWeekIsSum(input: AccountSpendInput)
    ensures var r, w := SpendOf(input), SpendWindow(input.now, input.days);
            var week := Filter(r.days, (d: SpendDay) => w.end - 7 * MS_PER_DAY <= d.date);
            && r.last7d.Some? == (exists i :: 0 <= i < |week| && week[i].amount.Some?)
            && (r.last7d.Some? ==> r.last7d.value == KnownTotal(week))
  {
    hide SpendWindow, ChargesIn, PointsIn, AccountCurrency, ChargeDays, SnapshotDays, KnownTotal, KnownCount,
         CoverStart, CoverEnd, LastSeven, PerDay, FirstKnown;
    var r, w := SpendOf(input), SpendWindow(input.now, input.days);
    DaysListTheWindow(input);
    WindowIsLong(input);
    LastSevenByDate(r.days, w.start, w.end);
    NothingKnown(w.start, input.days);
    SomeDayKnownIff(LastSeven(r.days));
    assert r.last7d == SumKnown(LastSeven(r.days));
  }

  // ---------------------------------------------------------------- the currency picked

  lemma {:induction false} CountIsSum(charges: seq<Charge>, currency: string, one: Charge -> real)
    requires forall c :: c in charges ==> one(c) == if c.currency == currency then 1.0 else 0.0
    ensures Count(charges, currency) as real == SumOver(charges, one)
  {
    if charges != [] {
      var n := |charges| - 1;
      assert charges[n] in charges && forall c :: c in charges[..n] ==> c in charges;
      CountIsSum(charges[..n], currency, one);
    }
  }

  /** A currency is as common as there are charges of it in the window. */
  lemma {:induction false} CommonByWindow(input: AccountSpendInput, currency: string)
    ensures var w := SpendWindow(input.now, input.days);
            Count(InWindow(input), currency) as real
            == SumOver(input.charges, (c: Charge) =>
                 if c.currency == currency && w.start <= c.paymentDate < w.end then 1.0 else 0.0)
  {
    hide SpendWindow, SumOver, Count;
    var w := SpendWindow(input.now, input.days);
    var one := (c: Charge) => if c.currency == currency then 1.0 else 0.0;
    CountIsSum(InWindow(input), currency, one);
    SumOverFilter(input.charges, (c: Charge) => w.start <= c.paymentDate < w.end, one,
                  (c: Charge) => if c.currency == currency && w.start <= c.paymentDate < w.end then 1.0 else 0.0);
  }

  /** The account's own currency wins; without one the most common of the window is taken. */
  lemma CurrencyOfResult(input: AccountSpendInput)
    ensures var r := SpendOf(input);
            && (input.balanceCurrency.Some? && r.currency.Some? ==> r.currency == input.balanceCurrency)
            && (input.balanceCurrency.None? && r.currency.Some? ==> r.currency == MostCommon(InWindow(input)))
  {
    hide SpendWindow, ChargesIn, PointsIn, ChargeDays, SnapshotDays, KnownTotal, KnownCount, SumKnown, MostCommon,
         InWindow, CoverStart, CoverEnd, LastSeven, PerDay, FirstKnown;
  }

  /**
   * Without a balance currency, and if every charge of the window names one, charges decide, in a
   * currency no other one is more common than; of equally common ones it comes first alphabetically.
   */
  lemma PickedCurrency(input: AccountSpendInput)
    requires input.balanceCurrency.None? && InWindow(input) != []
    requires forall c :: c in InWindow(input) ==> c.currency != ""
    ensures var r := SpendOf(input);
            && r.source == Some(FromChargeRows) && r.currency.Some?
            && forall c :: c in InWindow(input) && c.currency != r.currency.value ==>
                 || Count(InWindow(input), c.currency) < Count(InWindow(input), r.currency.value)
                 || (Count(InWindow(input), c.currency) == Count(InWindow(input), r.currency.value)
                     && Less(r.currency.value, c.currency))
  {
    hide SpendOf, InWindow, Count, MostCommon, Currencies, Counts;
    var charges := InWindow(input);
    MostCommonIff(charges);
    var order := Currencies(charges);
    CurrenciesAreThoseCharged(charges, "");
    NoneWithout(charges, "");
    var best := MostCommon(charges).value;
    forall c | c in charges ensures c.currency in order {
      CurrenciesAreThoseCharged(charges, c.currency);
      CountsItself(charges, c);
    }
    CurrenciesAreThoseCharged(charges, best);
    var d := OneOf(charges, best);
    InWindowCounts(input, d);
    ChargesDecideIff(input);
    CurrencyIfDecided(input);
  }

  lemma CurrencyIfDecided(input: AccountSpendInput)
    requires input.balanceCurrency.None?
    ensures AccountCurrency(input) == MostCommon(InWindow(input))
    ensures SpendOf(input).source == Some(FromChargeRows) ==> SpendOf(input).currency == AccountCurrency(input)
  {
    hide SpendWindow, ChargesIn, PointsIn, ChargeDays, SnapshotDays, KnownTotal, KnownCount, SumKnown, MostCommon,
         InWindow, CoverStart, CoverEnd, LastSeven, PerDay, FirstKnown;
  }

  lemma InWindowCounts(input: AccountSpendInput, c: Charge)
    ensures c in InWindow(input) ==> Counts(input, c.currency, c)
  {
  }

  lemma {:induction false} NoneWithout(charges: seq<Charge>, currency: string)
    requires forall c :: c in charges ==> c.currency != currency
    ensures Count(charges, currency) == 0
  {
    if charges != [] {
      var n := |charges| - 1;
      assert charges[n] in charges && forall c :: c in charges[..n] ==> c in charges;
      NoneWithout(charges[..n], currency);
    }
  }

  lemma {:induction false} CountsItself(charges: seq<Charge>, c: Charge)
    requires c in charges
    ensures Count(charges, c.currency) > 0
  {
    var n := |charges| - 1;
    if charges[n] != c {
      assert charges == charges[..n] + [charges[n]];
      CountsItself(charges[..n], c);
    }
  }

  lemma {:induction false} OneOf(charges: seq<Charge>, currency: string) returns (c: Charge)
    requires Count(charges, currency) > 0
    ensures c in charges && c.currency == currency
  {
    c := charges[|charges| - 1];
    if c.currency != currency {
      c := OneOf(charges[..|charges| - 1], currency);
    }
  }

  /** When nothing decides, nothing is known and nothing marked. */
  lemma NothingDecided(input: AccountSpendInput)
    requires SpendOf(input).source == None
    ensures var r := SpendOf(input);
            && r.currency == None && !r.approximate && r.coveredDays == 0
            && r.last7d == None && r.last30d == None && r.perDay == None
            && forall d :: d in r.days ==> d.amount == None && !d.estimated
  {
    hide SpendWindow, ChargesIn, PointsIn, AccountCurrency, ChargeDays, SnapshotDays, KnownTotal, KnownCount, SumKnown,
         CoverStart, CoverEnd, LastSeven, PerDay, FirstKnown;
  }

  /** The balance rises between two snapshots in a row that span some of the day. */
  ghost predicate RisesOver(pts: seq<Snapshot>, p: nat, date: int)
    requires 0 < p < |pts|
  {
    && pts[p - 1].balance < pts[p].balance && pts[p - 1].capturedAt < pts[p].capturedAt
    && pts[p - 1].capturedAt < date + MS_PER_DAY && date < pts[p].capturedAt
  }

  /** A day is marked exactly if a top-up hides what was spent on some of it. */
  lemma EstimatedIff(pts: seq<Snapshot>, start: int, days: nat, i: nat)
    requires pts != [] && SortedByTime(pts) && i < days
    ensures var date := start + i * MS_PER_DAY;
            SnapshotDays(pts, start, days)[i].estimated <==> exists p :: 0 < p < |pts| && RisesOver(pts, p, date)
  {
    MarkedIff(pts, start, days, i);
    var date := start + i * MS_PER_DAY;
    forall p | 0 < p < |pts|
      ensures TopUp(pts, p) && Reaches(pts, p, start, days, i) <==> RisesOver(pts, p, date)
    {
      ReachesIff(pts, p, start, days, i);
    }
    hide TopUp, Reaches, RisesOver, SnapshotDays;
  }

  lemma ReachesIff(pts: seq<Snapshot>, p: nat, start: int, days: nat, i: nat)
    requires 0 < p < |pts| && i < days
    ensures TopUp(pts, p) && Reaches(pts, p, start, days, i) <==> RisesOver(pts, p, start + i * MS_PER_DAY)
  {
  }

  lemma MarkedIff(pts: seq<Snapshot>, start: int, days: nat, i: nat)
    requires pts != [] && SortedByTime(pts) && i < days
    ensures SnapshotDays(pts, start, days)[i].estimated
            <==> exists p :: 0 < p < |pts| && TopUp(pts, p) && Reaches(pts, p, start, days, i)
  {
    hide DaySums, RoundCents, CoverStart, CoverEnd, BurnOfSorted, Covered, Reaches, TopUp, SortedByTime;
    if p :| 0 < p < |pts| && TopUp(pts, p) && Reaches(pts, p, start, days, i) {
      ReachedIsCovered(pts, p, start, days, i);
    }
  }
}
