/**
 * Daily spend of one account (apps/backend/src/common/spend.ts): balance declines between
 * irregular snapshots are spread over fixed UTC days, and the intervals the burn rate drops
 * (top-ups) are filled back in from that rate.
 */
module Spend {
  import opened Prelude
  import opened Sums
  import opened Runway

  datatype Charge = Charge(amount: real, currency: string, paymentDate: int)

  /** `date` is the first millisecond of the UTC day the source prints as an ISO date. */
  datatype SpendDay = SpendDay(date: int, amount: Option<real>, estimated: bool)

  datatype Source = FromChargeRows | FromBalanceDrops

  datatype AccountSpendResult = AccountSpendResult(
    currency: Option<string>,
    source: Option<Source>,
    approximate: bool,
    coveredDays: nat,
    days: seq<SpendDay>,
    last7d: Option<real>,
    last30d: Option<real>,
    perDay: Option<real>)

  datatype AccountSpendInput = AccountSpendInput(
    charges: seq<Charge>,
    firstChargeAt: Option<int>,
    snapshots: seq<Snapshot>,
    balanceCurrency: Option<string>,
    useSnapshots: bool,
    days: nat,
    now: int)

  datatype Window = Window(start: int, end: int)

  /** `days` complete UTC days ending at today's 00:00 UTC. */
  function SpendWindow(now: int, days: nat): (w: Window)
    ensures w.end <= now < w.end + MS_PER_DAY && w.end % MS_PER_DAY == 0
    ensures w.start + days * MS_PER_DAY == w.end
  {
    var end := now / MS_PER_DAY * MS_PER_DAY;
    Window(end - days * MS_PER_DAY, end)
  }

  /** Rounding as ROUND_HALF_UP does it: two decimals, ties by magnitude. */
  function RoundCents(x: real): (r: real)
    ensures Abs(r - x) <= 0.005
  {
    if x >= 0.0 then (x * 100.0 + 0.5).Floor as real / 100.0
    else -((-x * 100.0 + 0.5).Floor as real / 100.0)
  }

  predicate WholeCents(x: real) {
    (x * 100.0).Floor as real == x * 100.0
  }

  /** The nearest whole number, and of two equally near ones the one away from zero. */
  predicate IsRounding(y: real, n: int) {
    -0.5 <= n as real - y <= 0.5
    && (n as real - y == 0.5 ==> y >= 0.0) && (n as real - y == -0.5 ==> y < 0.0)
  }

  lemma FloorOfHalfUp(y: real, n: int)
    ensures n == (y + 0.5).Floor <==> n as real - 0.5 <= y < n as real + 0.5
  {
  }

  lemma RoundedCentsIff(x: real, n: int)
    ensures n as real / 100.0 == RoundCents(x) <==> IsRounding(x * 100.0, n)
  {
    hide RoundCents;
    RoundCentsIsCents(x);
    var y := x * 100.0;
    var m := if x >= 0.0 then (y + 0.5).Floor else -(-y + 0.5).Floor;
    assert n as real / 100.0 == m as real / 100.0 <==> n == m;
    FloorOfHalfUp(y, n);
    FloorOfHalfUp(-y, -n);
    assert (-n) as real == -(n as real);
  }

  lemma RoundCentsIsCents(x: real)
    ensures RoundCents(x)
            == (if x >= 0.0 then (x * 100.0 + 0.5).Floor else -(-(x * 100.0) + 0.5).Floor) as real / 100.0
  {
    assert -(x * 100.0) == -x * 100.0;
  }

  /** That is the nearest amount of whole cents, and of two equally near ones the one away from zero. */
  lemma RoundCentsIff(x: real, r: real)
    ensures r == RoundCents(x)
            <==> WholeCents(r) && Abs(r - x) <= 0.005 && (Abs(r - x) == 0.005 ==> Abs(r) > Abs(x))
  {
    hide RoundCents;
    var m := (r * 100.0).Floor;
    if WholeCents(r) {
      RoundedCentsIff(x, m);
      NearestInCents(x, r, m);
    } else {
      RoundCentsIsWhole(x);
    }
  }

  lemma NearestInCents(x: real, r: real, m: int)
    requires r * 100.0 == m as real
    ensures IsRounding(x * 100.0, m) <==> Abs(r - x) <= 0.005 && (Abs(r - x) == 0.005 ==> Abs(r) > Abs(x))
  {
    assert m as real - x * 100.0 == (r - x) * 100.0;
  }

  lemma RoundCentsIsWhole(x: real)
    ensures WholeCents(RoundCents(x))
  {
    RoundCentsIsCents(x);
    hide RoundCents;
    var n := if x >= 0.0 then (x * 100.0 + 0.5).Floor else -(-(x * 100.0) + 0.5).Floor;
    assert RoundCents(x) * 100.0 == n as real;
  }

  // ---------------------------------------------------------------- summing up the days

  function KnownTotal(days: seq<SpendDay>): real {
    if days == [] then 0.0
    else
      var d := days[|days| - 1];
      KnownTotal(days[..|days| - 1]) + if d.amount.Some? then d.amount.value else 0.0
  }

  function KnownCount(days: seq<SpendDay>): nat {
    if days == [] then 0
    else KnownCount(days[..|days| - 1]) + if days[|days| - 1].amount.Some? then 1 else 0
  }

  /** What the known days add up to; a list that knows no day has no total. */
  function SumKnown(days: seq<SpendDay>): Option<real> {
    if KnownCount(days) == 0 then None else Some(KnownTotal(days))
  }

  method SumDays(days: seq<SpendDay>) returns (total: Option<real>)
    ensures total == SumKnown(days)
  {
    total := None;
    for i := 0 to |days|
      invariant total == SumKnown(days[..i])
    {
      assert days[..i + 1][..i] == days[..i];
      if days[i].amount.Some? {
        KnownTotalOfNone(days[..i]);
        total := Some((if total.Some? then total.value else 0.0) + days[i].amount.value);
      }
    }
    assert days[..|days|] == days;
  }

  lemma {:induction false} KnownTotalOfNone(days: seq<SpendDay>)
    ensures KnownCount(days) == 0 ==> KnownTotal(days) == 0.0
  {
    if days != [] {
      KnownTotalOfNone(days[..|days| - 1]);
    }
  }

  lemma {:induction false} KnownDayCounts(days: seq<SpendDay>, i: nat)
    requires i < |days| && days[i].amount.Some?
    ensures KnownCount(days) > 0
  {
    if i < |days| - 1 {
      KnownDayCounts(days[..|days| - 1], i);
    }
  }

  function LastSeven(days: seq<SpendDay>): seq<SpendDay> {
    if |days| <= 7 then days else days[|days| - 7..]
  }

  function PerDay(total: real, spanDays: real): real
    requires spanDays > 0.0
  {
    RoundCents(total / spanDays)
  }

  /** The non-null assertion and the division of `summarize` are the two conditions required. */
  function Summary(days: seq<SpendDay>, currency: string, source: Source, spanDays: real): AccountSpendResult
    requires KnownCount(days) > 0 && spanDays > 0.0
  {
    AccountSpendResult(
      Some(currency), Some(source),
      exists i :: 0 <= i < |days| && days[i].estimated,
      KnownCount(days), days,
      SumKnown(LastSeven(days)), SumKnown(days),
      Some(PerDay(KnownTotal(days), spanDays)))
  }

  method Summarize(days: seq<SpendDay>, currency: string, source: Source, spanDays: real)
    returns (r: AccountSpendResult)
    requires KnownCount(days) > 0 && spanDays > 0.0
    ensures r == Summary(days, currency, source, spanDays)
  {
    var last30d := SumDays(days);
    var last7d := SumDays(LastSeven(days));
    var approximate := exists i :: 0 <= i < |days| && days[i].estimated;
    r := AccountSpendResult(Some(currency), Some(source), approximate, KnownCount(days), days,
      last7d, last30d, Some(PerDay(last30d.value, spanDays)));
  }

  function Empty(start: int, days: nat): AccountSpendResult {
    AccountSpendResult(None, None, false, 0,
      seq(days, i => SpendDay(start + i * MS_PER_DAY, None, false)), None, None, None)
  }

  /** `days` shows `sums` rounded to cents, and only days that got nothing are unknown. */
  ghost predicate Shows(days: seq<SpendDay>, sums: seq<real>) {
    && |days| == |sums|
    && forall i :: 0 <= i < |days| ==>
         if days[i].amount.Some? then days[i].amount.value == RoundCents(sums[i]) else sums[i] == 0.0
  }

  /** Rounding every day separately costs at most half a cent per known day. */
  lemma {:induction false} RoundingBound(days: seq<SpendDay>, sums: seq<real>)
    requires Shows(days, sums)
    ensures Abs(KnownTotal(days) - Sum(sums)) <= 0.005 * KnownCount(days) as real
  {
    if days != [] {
      RoundingBound(days[..|days| - 1], sums[..|sums| - 1]);
    }
  }

  // ---------------------------------------------------------------- balance declines

  predicate TopUp(pts: seq<Snapshot>, p: nat)
    requires 0 < p < |pts|
  {
    Decline(pts, p) < 0.0
  }

  function From(pts: seq<Snapshot>, p: nat, start: int): int
    requires 0 < p < |pts|
  {
    Max(pts[p - 1].capturedAt, start)
  }

  function To(pts: seq<Snapshot>, p: nat, end: int): int
    requires 0 < p < |pts|
  {
    Min(pts[p].capturedAt, end)
  }

  /** An interval that takes time and reaches into the window. */
  predicate Active(pts: seq<Snapshot>, p: nat, start: int, end: int)
    requires 0 < p < |pts|
  {
    Dt(pts, p) > 0 && From(pts, p, start) < To(pts, p, end)
  }

  /** What an interval costs: its decline, or the average rate over its length for a top-up. */
  function Spent(pts: seq<Snapshot>, p: nat, rate: Option<real>): real
    requires 0 < p < |pts|
  {
    if !TopUp(pts, p) then Decline(pts, p)
    else if rate.Some? then rate.value * Days(Dt(pts, p))
    else 0.0
  }

  function Overlap(from: int, to: int, dayStart: int): int {
    Max(0, Min(to, dayStart + MS_PER_DAY) - Max(from, dayStart))
  }

  /** The part of `spent` that falls on `ms` of its `dt` milliseconds. */
  function Portion(spent: real, ms: int, dt: int): real
    requires dt > 0
  {
    spent * ms as real / dt as real
  }

  /** What interval `p` adds to day `i` of the window. */
  function Share(pts: seq<Snapshot>, p: nat, start: int, days: nat, rate: Option<real>, i: int): real
    requires 0 < p < |pts|
  {
    var end := start + days * MS_PER_DAY;
    if !Active(pts, p, start, end) then 0.0
    else Portion(Spent(pts, p, rate),
                 Overlap(From(pts, p, start), To(pts, p, end), start + i * MS_PER_DAY), Dt(pts, p))
  }

  function Shares(pts: seq<Snapshot>, p: nat, start: int, days: nat, rate: Option<real>): (r: seq<real>)
    requires 0 < p < |pts|
  {
    seq(days, i => Share(pts, p, start, days, rate, i))
  }

  /** The exact, unrounded day sums after the intervals before `n`. */
  function DaySums(pts: seq<Snapshot>, n: nat, start: int, days: nat, rate: Option<real>): (r: seq<real>)
    requires n <= |pts|
    ensures |r| == days
  {
    if n <= 1 then Zeros(days)
    else AddRows(DaySums(pts, n - 1, start, days, rate), Shares(pts, n - 1, start, days, rate))
  }

  predicate Reaches(pts: seq<Snapshot>, p: nat, start: int, days: nat, i: int)
    requires 0 < p < |pts|
  {
    var end := start + days * MS_PER_DAY;
    Active(pts, p, start, end) && Overlap(From(pts, p, start), To(pts, p, end), start + i * MS_PER_DAY) > 0
  }

  /** Some top-up interval before `n` reaches day `i`. */
  predicate Estimated(pts: seq<Snapshot>, n: nat, start: int, days: nat, i: int)
    requires n <= |pts|
  {
    exists p :: 0 < p < n && TopUp(pts, p) && Reaches(pts, p, start, days, i)
  }

  function CoverStart(pts: seq<Snapshot>, start: int): int
    requires |pts| > 0
  {
    Max(start, pts[0].capturedAt)
  }

  function CoverEnd(pts: seq<Snapshot>, end: int): int
    requires |pts| > 0
  {
    Min(end, pts[|pts| - 1].capturedAt)
  }

  /** Day `i` of the window is touched by the covered stretch. */
  predicate Covered(start: int, i: int, coverStart: int, coverEnd: int) {
    var dayStart := start + i * MS_PER_DAY;
    dayStart < coverEnd && dayStart + MS_PER_DAY > coverStart
  }

  /** The rows shown for `sums`: a covered day rounded, any other day unknown. */
  function ShownDays(start: int, coverStart: int, coverEnd: int, sums: seq<real>,
                     estimated: seq<bool>): (r: seq<SpendDay>)
    requires |sums| == |estimated|
    ensures |r| == |sums|
  {
    seq(|sums|, i requires 0 <= i < |sums| =>
      var covered := Covered(start, i, coverStart, coverEnd);
      SpendDay(start + i * MS_PER_DAY, if covered then Some(RoundCents(sums[i])) else None, covered && estimated[i]))
  }

  function EstimatedDays(pts: seq<Snapshot>, n: nat, start: int, days: nat): seq<bool>
    requires n <= |pts|
  {
    seq(days, i => Estimated(pts, n, start, days, i))
  }

  function SnapshotDays(pts: seq<Snapshot>, start: int, days: nat): (r: seq<SpendDay>)
    requires |pts| > 0
    ensures |r| == days
  {
    ShownDays(start, CoverStart(pts, start), CoverEnd(pts, start + days * MS_PER_DAY),
              DaySums(pts, |pts|, start, days, BurnOfSorted(pts, 1.0)), EstimatedDays(pts, |pts|, start, days))
  }

  /** The covered stretch is a positive length, so the day it starts on is known. */
  lemma SomeDayCovered(pts: seq<Snapshot>, start: int, days: nat)
    requires |pts| > 0 && CoverStart(pts, start) < CoverEnd(pts, start + days * MS_PER_DAY)
    ensures KnownCount(SnapshotDays(pts, start, days)) > 0
  {
    var i := (CoverStart(pts, start) - start) / MS_PER_DAY;
    assert 0 <= i < days && Covered(start, i, CoverStart(pts, start), CoverEnd(pts, start + days * MS_PER_DAY));
    KnownDayCounts(SnapshotDays(pts, start, days), i);
  }

  function SnapshotSpend(pts: seq<Snapshot>, currency: string, start: int, days: nat): AccountSpendResult
    requires |pts| > 0
  {
    var coverStart, coverEnd := CoverStart(pts, start), CoverEnd(pts, start + days * MS_PER_DAY);
    if coverEnd <= coverStart then Empty(start, days)
    else
      SomeDayCovered(pts, start, days);
      Summary(SnapshotDays(pts, start, days), currency, FromBalanceDrops, Days(coverEnd - coverStart))
  }

  method FromSnapshots(points: seq<Snapshot>, currency: string, startMs: int, endMs: int, days: nat)
    returns (r: AccountSpendResult)
    requires |points| >= 2 && SortedByTime(points)
    requires endMs == startMs + days * MS_PER_DAY
    ensures r == SnapshotSpend(points, currency, startMs, days)
  {
    hide Summary, KnownCount, ShownDays, DaySums, EstimatedDays, SortByTime;
    var coverStart := Max(startMs, points[0].capturedAt);
    var coverEnd := Min(endMs, points[|points| - 1].capturedAt);
    if coverEnd <= coverStart {
      return Empty(startMs, days);
    }
    var rate := BurnFromSnapshots(points);
    SortOfSorted(points);
    var sums, estimated := Spread(points, startMs, endMs, days, rate);
    var out := ShownDays(startMs, coverStart, coverEnd, sums, estimated);
    assert out == SnapshotDays(points, startMs, days);
    SomeDayCovered(points, startMs, days);
    r := Summarize(out, currency, FromBalanceDrops, Days(coverEnd - coverStart));
  }

  /** The outer loop of `fromSnapshots`. */
  method Spread(points: seq<Snapshot>, startMs: int, endMs: int, days: nat, rate: Option<real>)
    returns (total: seq<real>, guessed: seq<bool>)
    requires endMs == startMs + days * MS_PER_DAY && |points| > 0
    ensures total == DaySums(points, |points|, startMs, days, rate)
    ensures guessed == EstimatedDays(points, |points|, startMs, days)
    ensures |total| == |guessed|
  {
    hide Portion;
    var sums := new real[days](i => 0.0);
    var estimated := new bool[days](i => false);
    for p := 1 to |points|
      invariant sums[..] == DaySums(points, p, startMs, days, rate)
      invariant forall i :: 0 <= i < days ==> estimated[i] == Estimated(points, p, startMs, days, i)
    {
      SpreadInterval(points, p, startMs, endMs, days, rate, sums, estimated);
    }
    total, guessed := sums[..], estimated[..];
  }

  /** Which days an interval touches, and how the loop's raw overlap relates to `Overlap`. */
  lemma DayOverlap(from: int, to: int, start: int, i: int)
    requires start <= from < to
    ensures i < (from - start) / MS_PER_DAY ==> Overlap(from, to, start + i * MS_PER_DAY) == 0
    ensures start + i * MS_PER_DAY >= to ==> Overlap(from, to, start + i * MS_PER_DAY) == 0
    ensures (from - start) / MS_PER_DAY <= i && start + i * MS_PER_DAY < to ==>
              var dayStart := start + i * MS_PER_DAY;
              0 < Min(to, dayStart + MS_PER_DAY) - Max(from, dayStart) == Overlap(from, to, dayStart)
  {
  }

  /** One pass of the outer loop: interval `p` is spread over the days it touches. */
  method SpreadInterval(points: seq<Snapshot>, p: nat, startMs: int, endMs: int, days: nat, rate: Option<real>,
                        sums: array<real>, estimated: array<bool>)
    requires 0 < p < |points| && endMs == startMs + days * MS_PER_DAY
    requires sums.Length == days == estimated.Length
    modifies sums, estimated
    ensures sums[..] == AddRows(old(sums[..]), Shares(points, p, startMs, days, rate))
    ensures forall i :: 0 <= i < days ==>
              estimated[i] == (old(estimated[i]) || (TopUp(points, p) && Reaches(points, p, startMs, days, i)))
  {
    var t0, t1 := points[p - 1].capturedAt, points[p].capturedAt;
    var dt := t1 - t0;
    if dt <= 0 {
      NothingShared(points, p, startMs, days, rate, sums[..]);
      return;
    }
    var from, to := Max(t0, startMs), Min(t1, endMs);
    if to <= from {
      NothingShared(points, p, startMs, days, rate, sums[..]);
      return;
    }
    hide Shares, Reaches;
    SpreadActive(points, p, from, to, startMs, days, rate, sums, estimated);
  }

  method SpreadActive(points: seq<Snapshot>, p: nat, from: int, to: int, startMs: int, days: nat, rate: Option<real>,
                      sums: array<real>, estimated: array<bool>)
    requires 0 < p < |points| && Active(points, p, startMs, startMs + days * MS_PER_DAY)
    requires from == From(points, p, startMs) && to == To(points, p, startMs + days * MS_PER_DAY)
    requires sums.Length == days == estimated.Length
    modifies sums, estimated
    ensures sums[..] == AddRows(old(sums[..]), Shares(points, p, startMs, days, rate))
    ensures forall i :: 0 <= i < days ==>
              estimated[i] == (old(estimated[i]) || (TopUp(points, p) && Reaches(points, p, startMs, days, i)))
  {
    var dt := points[p].capturedAt - points[p - 1].capturedAt;
    var decline := points[p - 1].balance - points[p].balance;
    var isTopUp := decline < 0.0;
    var spent := if isTopUp then (if rate.Some? then rate.value * Days(dt) else 0.0) else decline;
    assert spent == Spent(points, p, rate) && dt == Dt(points, p) && isTopUp == TopUp(points, p);
    SharesOfActive(points, p, startMs, days, rate);
    hide Shares, PortionOf, Overlap, Spent, Days, Max, Min, From, To, Dt, Decline, TopUp, Active, Reaches;
    SpreadOverDays(from, to, startMs, days, PortionOf(spent, dt), isTopUp, sums, estimated);
    ghost var shares := Shares(points, p, startMs, days, rate);
    assert forall j :: 0 <= j < days ==> sums[j] == old(sums[j]) + shares[j];
    assert sums[..] == AddRows(old(sums[..]), shares);
  }

  lemma NothingShared(pts: seq<Snapshot>, p: nat, start: int, days: nat, rate: Option<real>, sums: seq<real>)
    requires 0 < p < |pts| && |sums| == days && !Active(pts, p, start, start + days * MS_PER_DAY)
    ensures AddRows(sums, Shares(pts, p, start, days, rate)) == sums
    ensures forall i :: 0 <= i < days ==> !Reaches(pts, p, start, days, i)
  {
    hide Active;
  }

  function PortionOf(spent: real, dt: int): (portion: int -> real)
    requires dt > 0
    ensures portion(0) == 0.0
  {
    ms => Portion(spent, ms, dt)
  }

  lemma SharesOfActive(pts: seq<Snapshot>, p: nat, start: int, days: nat, rate: Option<real>)
    requires 0 < p < |pts| && Active(pts, p, start, start + days * MS_PER_DAY)
    ensures forall j :: 0 <= j < days ==>
              Shares(pts, p, start, days, rate)[j] == PortionOf(Spent(pts, p, rate), Dt(pts, p))(
                Overlap(From(pts, p, start), To(pts, p, start + days * MS_PER_DAY), start + j * MS_PER_DAY))
    ensures forall j :: 0 <= j < days ==>
              (Reaches(pts, p, start, days, j)
               <==> Overlap(From(pts, p, start), To(pts, p, start + days * MS_PER_DAY), start + j * MS_PER_DAY) > 0)
  {
    hide Overlap, Spent, From, To, Active, Portion;
  }

  /** The inner loop; `portion` is the part of the spend that falls on so many milliseconds. */
  method SpreadOverDays(from: int, to: int, startMs: int, days: nat, portion: int -> real, isTopUp: bool,
                        sums: array<real>, estimated: array<bool>)
    requires startMs <= from < to <= startMs + days * MS_PER_DAY
    requires sums.Length == days == estimated.Length && portion(0) == 0.0
    modifies sums, estimated
    ensures forall j :: 0 <= j < days ==>
              sums[j] == old(sums[j]) + portion(Overlap(from, to, startMs + j * MS_PER_DAY))
    ensures forall j :: 0 <= j < days ==>
              estimated[j] == (old(estimated[j]) || (isTopUp && Overlap(from, to, startMs + j * MS_PER_DAY) > 0))
  {
    hide Overlap, Min, Max;
    ghost var overlaps := seq(days, j => Overlap(from, to, startMs + j * MS_PER_DAY));
    forall j | 0 <= j < days
      ensures j < (from - startMs) / MS_PER_DAY || startMs + j * MS_PER_DAY >= to ==> overlaps[j] == 0
    {
      DayOverlap(from, to, startMs, j);
    }
    for i := (from - startMs) / MS_PER_DAY to days
      invariant forall j :: 0 <= j < i ==> sums[j] == old(sums[j]) + portion(overlaps[j])
      invariant forall j :: i <= j < days ==> sums[j] == old(sums[j])
      invariant forall j :: 0 <= j < i ==> estimated[j] == (old(estimated[j]) || (isTopUp && overlaps[j] > 0))
      invariant forall j :: i <= j < days ==> estimated[j] == old(estimated[j])
    {
      var dayStart := startMs + i * MS_PER_DAY;
      DayOverlap(from, to, startMs, i);
      if dayStart >= to {
        assert forall j :: i <= j < days ==> overlaps[j] == 0;
        assert forall j :: 0 <= j < days ==> sums[j] == old(sums[j]) + portion(overlaps[j]);
        break;
      }
      var overlap := Min(to, dayStart + MS_PER_DAY) - Max(from, dayStart);
      if overlap <= 0 {
        continue;
      }
      sums[i] := sums[i] + portion(overlap);
      if isTopUp {
        estimated[i] := true;
      }
    }
  }

  // ---------------------------------------------------------------- provider charges

  predicate AllInWindow(charges: seq<Charge>, start: int, days: nat) {
    forall c :: c in charges ==> start <= c.paymentDate < start + days * MS_PER_DAY
  }

  function DayIndex(t: int, start: int): int {
    (t - start) / MS_PER_DAY
  }

  function Total(charges: seq<Charge>): real {
    if charges == [] then 0.0 else Total(charges[..|charges| - 1]) + charges[|charges| - 1].amount
  }

  /** What the charges dated on day `i` add up to. */
  function DayTotal(charges: seq<Charge>, start: int, i: int): real {
    if charges == [] then 0.0
    else
      var c := charges[|charges| - 1];
      DayTotal(charges[..|charges| - 1], start, i) + if DayIndex(c.paymentDate, start) == i then c.amount else 0.0
  }

  function DayTotals(charges: seq<Charge>, start: int, days: nat): (r: seq<real>) {
    seq(days, i => DayTotal(charges, start, i))
  }

  function Earliest(charges: seq<Charge>): int
    requires charges != []
  {
    if |charges| == 1 then charges[0].paymentDate
    else Min(Earliest(charges[..|charges| - 1]), charges[|charges| - 1].paymentDate)
  }

  /** The first day with any charge history; earlier days are unknown, not zero. */
  function FirstKnown(charges: seq<Charge>, firstChargeAt: Option<int>, start: int): (i: nat)
    requires charges != []
  {
    var earliest := if firstChargeAt.Some? then Min(Earliest(charges), firstChargeAt.value) else Earliest(charges);
    Max(0, DayIndex(earliest, start))
  }

  /** The rows shown for `sums`: unknown before `firstIdx`, rounded from there on. */
  function ShownFrom(start: int, firstIdx: nat, sums: seq<real>): (r: seq<SpendDay>)
    ensures |r| == |sums|
  {
    seq(|sums|, i requires 0 <= i < |sums| =>
      SpendDay(start + i * MS_PER_DAY, if i < firstIdx then None else Some(RoundCents(sums[i])), false))
  }

  function ChargeDays(charges: seq<Charge>, firstChargeAt: Option<int>, start: int, days: nat): (r: seq<SpendDay>)
    requires charges != []
  {
    ShownFrom(start, FirstKnown(charges, firstChargeAt, start), DayTotals(charges, start, days))
  }

  lemma {:induction false} EarliestIsLeast(charges: seq<Charge>)
    requires charges != []
    ensures forall c :: c in charges ==> Earliest(charges) <= c.paymentDate
  {
    var n := |charges| - 1;
    assert charges == charges[..n] + [charges[n]];
    if n > 0 {
      EarliestIsLeast(charges[..n]);
    }
  }

  lemma FirstKnownBeforeCharges(charges: seq<Charge>, firstChargeAt: Option<int>, start: int, days: nat)
    requires charges != [] && AllInWindow(charges, start, days)
    ensures forall c :: c in charges ==>
              FirstKnown(charges, firstChargeAt, start) <= DayIndex(c.paymentDate, start) < days
    ensures FirstKnown(charges, firstChargeAt, start) < days
  {
    EarliestIsLeast(charges);
    assert charges[0] in charges;
  }

  /** The history starts inside the window, so its first day is known and the divisor is positive. */
  lemma ChargeHistoryReaches(charges: seq<Charge>, firstChargeAt: Option<int>, start: int, days: nat)
    requires charges != [] && AllInWindow(charges, start, days)
    ensures FirstKnown(charges, firstChargeAt, start) < days
    ensures KnownCount(ChargeDays(charges, firstChargeAt, start, days)) > 0
  {
    FirstKnownBeforeCharges(charges, firstChargeAt, start, days);
    KnownDayCounts(ChargeDays(charges, firstChargeAt, start, days), FirstKnown(charges, firstChargeAt, start));
  }

  function ChargeSpend(charges: seq<Charge>, firstChargeAt: Option<int>, currency: string, start: int, days: nat)
    : AccountSpendResult
    requires charges != [] && AllInWindow(charges, start, days)
  {
    ChargeHistoryReaches(charges, firstChargeAt, start, days);
    Summary(ChargeDays(charges, firstChargeAt, start, days), currency, FromChargeRows,
            (days - FirstKnown(charges, firstChargeAt, start)) as real)
  }

  /** The loop of `fromCharges`: the day sums, and the first of the charges. */
  method SumByDay(charges: seq<Charge>, startMs: int, days: nat) returns (total: seq<real>, earliest: int)
    requires charges != [] && AllInWindow(charges, startMs, days)
    ensures total == DayTotals(charges, startMs, days) && earliest == Earliest(charges)
  {
    var sums := new real[days](i => 0.0);
    earliest := charges[0].paymentDate;
    for k := 0 to |charges|
      invariant forall i :: 0 <= i < days ==> sums[i] == DayTotal(charges[..k], startMs, i)
      invariant earliest == if k > 0 then Earliest(charges[..k]) else charges[0].paymentDate
    {
      assert charges[..k + 1][..k] == charges[..k];
      var t := charges[k].paymentDate;
      assert charges[k] in charges;
      earliest := Min(earliest, t);
      var i := (t - startMs) / MS_PER_DAY;
      sums[i] := sums[i] + charges[k].amount;
    }
    assert charges[..|charges|] == charges;
    total := sums[..];
  }

  method FromCharges(charges: seq<Charge>, firstChargeAt: Option<int>, currency: string, startMs: int, days: nat)
    returns (r: AccountSpendResult)
    requires charges != [] && AllInWindow(charges, startMs, days)
    ensures r == ChargeSpend(charges, firstChargeAt, currency, startMs, days)
  {
    hide Summary, KnownCount, ShownFrom, DayTotals, Earliest;
    var sums, earliest := SumByDay(charges, startMs, days);
    if firstChargeAt.Some? {
      earliest := Min(earliest, firstChargeAt.value);
    }
    var firstIdx := Max(0, (earliest - startMs) / MS_PER_DAY);
    ChargeHistoryReaches(charges, firstChargeAt, startMs, days);
    assert firstIdx == FirstKnown(charges, firstChargeAt, startMs);
    var out := ShownFrom(startMs, firstIdx, sums);
    assert out == ChargeDays(charges, firstChargeAt, startMs, days);
    r := Summarize(out, currency, FromChargeRows, (days - firstIdx) as real);
  }

  // ---------------------------------------------------------------- the account's currency

  function Count(charges: seq<Charge>, currency: string): nat {
    if charges == [] then 0
    else Count(charges[..|charges| - 1], currency) + if charges[|charges| - 1].currency == currency then 1 else 0
  }

  /** The currencies in first-seen order, which is how a JavaScript Map iterates. */
  function Currencies(charges: seq<Charge>): (r: seq<string>) {
    if charges == [] then []
    else
      var seen := Currencies(charges[..|charges| - 1]);
      var cur := charges[|charges| - 1].currency;
      if cur in seen then seen else seen + [cur]
  }

  predicate Distinct(s: seq<string>) {
    forall i, j :: 0 <= i < j < |s| ==> s[i] != s[j]
  }

  lemma {:induction false} CurrenciesAreDistinct(charges: seq<Charge>)
    ensures Distinct(Currencies(charges))
  {
    if charges != [] {
      CurrenciesAreDistinct(charges[..|charges| - 1]);
    }
  }

  lemma {:induction false} CurrenciesAreThoseCharged(charges: seq<Charge>, currency: string)
    ensures currency in Currencies(charges) <==> Count(charges, currency) > 0
  {
    if charges != [] {
      CurrenciesAreThoseCharged(charges[..|charges| - 1], currency);
    }
  }

  /** The second loop over the currencies so far; an empty code counts as "none picked yet". */
  function Best(charges: seq<Charge>, order: seq<string>): Option<string> {
    if order == [] then None
    else
      var best, cur := Best(charges, order[..|order| - 1]), order[|order| - 1];
      var n := Count(charges, cur);
      var bestN := if best.Some? && best.value != "" then Count(charges, best.value) else 0;
      if n > bestN || (n == bestN && best.Some? && Less(cur, best.value)) then Some(cur) else best
  }

  function MostCommon(charges: seq<Charge>): Option<string> {
    Best(charges, Currencies(charges))
  }

  method MostCommonCurrency(charges: seq<Charge>) returns (best: Option<string>)
    ensures best == MostCommon(charges)
  {
    hide Currencies, Count, Best;
    var order, counts := CountByCurrency(charges);
    best := PickMostCommon(charges, order, counts);
  }

  /** How often each currency occurs, in the order of their first charges. */
  method CountByCurrency(charges: seq<Charge>) returns (order: seq<string>, counts: map<string, nat>)
    ensures order == Currencies(charges) && counts.Keys == set c | c in order
    ensures forall c :: c in counts ==> counts[c] == Count(charges, c)
  {
    order, counts := [], map[];
    for k := 0 to |charges|
      invariant order == Currencies(charges[..k])
      invariant counts.Keys == set c | c in order
      invariant forall c :: c in counts ==> counts[c] == Count(charges[..k], c)
    {
      assert charges[..k + 1][..k] == charges[..k];
      var cur := charges[k].currency;
      CurrenciesAreThoseCharged(charges[..k], cur);
      if cur !in counts {
        order := order + [cur];
      }
      counts := counts[cur := (if cur in counts then counts[cur] else 0) + 1];
    }
    assert charges[..|charges|] == charges;
  }

  method PickMostCommon(ghost charges: seq<Charge>, order: seq<string>, counts: map<string, nat>)
    returns (best: Option<string>)
    requires counts.Keys == set c | c in order
    requires forall c :: c in counts ==> counts[c] == Count(charges, c)
    ensures best == Best(charges, order)
  {
    hide Count, Less;
    best := None;
    for k := 0 to |order|
      invariant best == Best(charges, order[..k])
      invariant best.Some? ==> best.value in counts
    {
      assert order[..k + 1][..k] == order[..k];
      var cur := order[k];
      var n := counts[cur];
      var bestN := if best.Some? && best.value != "" then counts[best.value] else 0;
      if n > bestN || (n == bestN && best.Some? && Less(cur, best.value)) {
        best := Some(cur);
      }
    }
    assert order[..|order|] == order;
  }

  // ---------------------------------------------------------------- the whole calculation

  function InWindow(input: AccountSpendInput): seq<Charge> {
    var w := SpendWindow(input.now, input.days);
    Filter(input.charges, (c: Charge) => w.start <= c.paymentDate < w.end)
  }

  function AccountCurrency(input: AccountSpendInput): Option<string> {
    if input.balanceCurrency.Some? then input.balanceCurrency else MostCommon(InWindow(input))
  }

  function ChargesIn(input: AccountSpendInput, currency: string): (r: seq<Charge>)
    ensures AllInWindow(r, SpendWindow(input.now, input.days).start, input.days)
  {
    Filter(InWindow(input), (c: Charge) => c.currency == currency)
  }

  function PointsIn(input: AccountSpendInput, currency: string): seq<Snapshot> {
    SortByTime(Filter(input.snapshots, (s: Snapshot) => s.currency == currency))
  }

  function SpendOf(input: AccountSpendInput): AccountSpendResult {
    var start := SpendWindow(input.now, input.days).start;
    var currency := AccountCurrency(input);
    if currency.None? || currency.value == "" then Empty(start, input.days)
    else
      var charges, points := ChargesIn(input, currency.value), PointsIn(input, currency.value);
      if charges != [] then ChargeSpend(charges, input.firstChargeAt, currency.value, start, input.days)
      else if !input.useSnapshots || |points| < 2 then Empty(start, input.days)
      else SnapshotSpend(points, currency.value, start, input.days)
  }

  method AccountSpend(input: AccountSpendInput) returns (r: AccountSpendResult)
    ensures r == SpendOf(input)
  {
    hide ChargeSpend, SnapshotSpend, Empty, MostCommon;
    var w := SpendWindow(input.now, input.days);
    var inWindow := Filter(input.charges, (c: Charge) => w.start <= c.paymentDate < w.end);
    var currency := input.balanceCurrency;
    if currency.None? {
      currency := MostCommonCurrency(inWindow);
    }
    if currency.None? || currency.value == "" {
      return Empty(w.start, input.days);
    }
    var charges := Filter(inWindow, (c: Charge) => c.currency == currency.value);
    assert charges == ChargesIn(input, currency.value);
    if |charges| > 0 {
      r := FromCharges(charges, input.firstChargeAt, currency.value, w.start, input.days);
      return;
    }
    if !input.useSnapshots {
      return Empty(w.start, input.days);
    }
    var points := SortByTime(Filter(input.snapshots, (s: Snapshot) => s.currency == currency.value));
    SortSorts(Filter(input.snapshots, (s: Snapshot) => s.currency == currency.value));
    if |points| < 2 {
      return Empty(w.start, input.days);
    }
    r := FromSnapshots(points, currency.value, w.start, w.end, input.days);
  }
}
