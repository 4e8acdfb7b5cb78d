/** The average daily burn inferred from balance snapshots (apps/backend/src/common/runway.ts). */
module Runway {
  import opened Prelude

  /** A balance reading; `capturedAt` is in milliseconds since the epoch. */
  datatype Snapshot = Snapshot(balance: real, currency: string, capturedAt: int)

  /** 730 hours, as in the normalised monthly costs. */
  const DAYS_PER_MONTH: real := 730.0 / 24.0

  // ---- the stable sort by capture time that both callers apply ----

  predicate SortedByTime(s: seq<Snapshot>) {
    forall i, j :: 0 <= i < j < |s| ==> s[i].capturedAt <= s[j].capturedAt
  }

  function InsertByTime(s: seq<Snapshot>, x: Snapshot): seq<Snapshot> {
    if s == [] then [x]
    else if x.capturedAt < s[0].capturedAt then [x] + s
    else [s[0]] + InsertByTime(s[1..], x)
  }

  function SortByTime(s: seq<Snapshot>): seq<Snapshot> {
    if s == [] then [] else InsertByTime(SortByTime(s[..|s| - 1]), s[|s| - 1])
  }

  lemma {:induction false} InsertKeepsContents(s: seq<Snapshot>, x: Snapshot)
    ensures multiset(InsertByTime(s, x)) == multiset(s) + multiset{x}
    ensures |InsertByTime(s, x)| == |s| + 1
  {
    if s != [] && x.capturedAt >= s[0].capturedAt {
      InsertKeepsContents(s[1..], x);
      assert s == [s[0]] + s[1..];
    }
  }

  lemma {:induction false} InsertKeepsOrder(s: seq<Snapshot>, x: Snapshot)
    requires SortedByTime(s)
    ensures SortedByTime(InsertByTime(s, x))
  {
    if s != [] && x.capturedAt >= s[0].capturedAt {
      InsertKeepsOrder(s[1..], x);
      InsertKeepsContents(s[1..], x);
      var t := InsertByTime(s[1..], x);
      forall j | 0 <= j < |t| ensures s[0].capturedAt <= t[j].capturedAt {
        assert t[j] in multiset(t);
        assert t[j] in s[1..] || t[j] == x;
      }
    }
  }

  lemma {:induction false} SortSorts(s: seq<Snapshot>)
    ensures SortedByTime(SortByTime(s))
    ensures multiset(SortByTime(s)) == multiset(s)
    ensures |SortByTime(s)| == |s|
  {
    hide SortedByTime, InsertByTime;
    if s == [] {
      EmptyIsSorted();
    } else {
      SortSorts(s[..|s| - 1]);
      InsertKeepsOrder(SortByTime(s[..|s| - 1]), s[|s| - 1]);
      InsertKeepsContents(SortByTime(s[..|s| - 1]), s[|s| - 1]);
      assert s == s[..|s| - 1] + [s[|s| - 1]];
    }
  }

  lemma EmptyIsSorted()
    ensures SortedByTime([])
  {
  }

  lemma {:induction false} InsertLast(s: seq<Snapshot>, x: Snapshot)
    requires forall i :: 0 <= i < |s| ==> s[i].capturedAt <= x.capturedAt
    ensures InsertByTime(s, x) == s + [x]
  {
    if s != [] {
      InsertLast(s[1..], x);
      assert s + [x] == [s[0]] + (s[1..] + [x]);
    }
  }

  /** Sorting again, as `burnFromSnapshots` does, leaves a sorted list alone (ties included). */
  lemma {:induction false} SortOfSorted(s: seq<Snapshot>)
    requires SortedByTime(s)
    ensures SortByTime(s) == s
  {
    if s != [] {
      SortOfSorted(s[..|s| - 1]);
      InsertLast(s[..|s| - 1], s[|s| - 1]);
    }
  }

  // ---- what one interval between neighbouring snapshots says ----

  function Dt(s: seq<Snapshot>, p: nat): int
    requires 0 < p < |s|
  {
    s[p].capturedAt - s[p - 1].capturedAt
  }

  function Decline(s: seq<Snapshot>, p: nat): real
    requires 0 < p < |s|
  {
    s[p - 1].balance - s[p].balance
  }

  function Days(ms: int): (days: real)
    ensures days > 0.0 <==> ms > 0
  {
    ms as real / MS_PER_DAY as real
  }

  /** A day has 86 400 000 milliseconds. */
  lemma DaysIs(ms: int)
    ensures Days(ms) * 86_400_000.0 == ms as real
  {
  }

  /** An interval the burn counts: time passed and the balance did not rise. */
  predicate Kept(s: seq<Snapshot>, p: nat)
    requires 0 < p < |s|
  {
    Dt(s, p) > 0 && Decline(s, p) >= 0.0
  }

  function KeptDecline(s: seq<Snapshot>, n: nat): real
    requires n <= |s|
  {
    if n <= 1 then 0.0
    else KeptDecline(s, n - 1) + if Kept(s, n - 1) then Decline(s, n - 1) else 0.0
  }

  function KeptDays(s: seq<Snapshot>, n: nat): real
    requires n <= |s|
  {
    if n <= 1 then 0.0
    else KeptDays(s, n - 1) + if Kept(s, n - 1) then Days(Dt(s, n - 1)) else 0.0
  }

  lemma {:induction false} KeptDaysPositive(s: seq<Snapshot>, n: nat)
    requires n <= |s|
    ensures KeptDays(s, n) >= 0.0 && KeptDecline(s, n) >= 0.0
    ensures KeptDecline(s, n) > 0.0 ==> KeptDays(s, n) > 0.0
  {
    if n > 1 {
      KeptDaysPositive(s, n - 1);
    }
  }

  /** The burn of a sorted list; None when too little history or no decline was seen. */
  function BurnOfSorted(s: seq<Snapshot>, minSpanDays: real): Option<real> {
    if |s| < 2 then None
    else
      KeptDaysPositive(s, |s|);
      if KeptDays(s, |s|) < minSpanDays || KeptDecline(s, |s|) <= 0.0 then None
      else Some(KeptDecline(s, |s|) / KeptDays(s, |s|))
  }

  function Burn(points: seq<Snapshot>, minSpanDays: real): Option<real> {
    BurnOfSorted(SortByTime(points), minSpanDays)
  }

  method BurnFromSnapshots(points: seq<Snapshot>, minSpanDays: real := 1.0) returns (burn: Option<real>)
    ensures burn == Burn(points, minSpanDays)
    ensures burn.Some? ==> burn.value > 0.0
  {
    hide SortByTime, SortedByTime, Days;
    SortSorts(points);
    if |points| < 2 {
      return None;
    }
    var sorted := SortByTime(points);
    var spent, spanDays := 0.0, 0.0;
    for i := 1 to |sorted|
      invariant spent == KeptDecline(sorted, i)
      invariant spanDays == KeptDays(sorted, i)
    {
      var dtDays := Days(sorted[i].capturedAt - sorted[i - 1].capturedAt);
      if dtDays <= 0.0 {
        continue;
      }
      var delta := sorted[i - 1].balance - sorted[i].balance;
      if delta < 0.0 {
        continue;
      }
      spent := spent + delta;
      spanDays := spanDays + dtDays;
    }
    KeptDaysPositive(sorted, |sorted|);
    if spanDays < minSpanDays || spent <= 0.0 {
      return None;
    }
    return Some(spent / spanDays);
  }

  /** `lo` and `hi` bound the daily rate of every interval the burn keeps. */
  ghost predicate KeptRatesWithin(s: seq<Snapshot>, lo: real, hi: real) {
    forall p :: 0 < p < |s| && Kept(s, p) ==> lo * Days(Dt(s, p)) <= Decline(s, p) <= hi * Days(Dt(s, p))
  }

  lemma {:induction false} KeptRateBounds(s: seq<Snapshot>, n: nat, lo: real, hi: real)
    requires n <= |s| && KeptRatesWithin(s, lo, hi)
    ensures lo * KeptDays(s, n) <= KeptDecline(s, n) <= hi * KeptDays(s, n)
  {
    if n > 1 {
      KeptRateBounds(s, n - 1, lo, hi);
    }
  }

  /**
   * The burn is an average of what was seen: whatever bounds the daily rate of every kept
   * interval bounds the burn, however the top-ups are mixed in and in whatever order the
   * snapshots arrive.
   */
  lemma {:induction false} BurnWithinKeptRates(points: seq<Snapshot>, minSpanDays: real, lo: real, hi: real)
    requires Burn(points, minSpanDays).Some? && KeptRatesWithin(SortByTime(points), lo, hi)
    ensures lo <= Burn(points, minSpanDays).value <= hi
  {
    var s := SortByTime(points);
    KeptRateBounds(s, |s|, lo, hi);
    KeptDaysPositive(s, |s|);
    QuotientBetween(KeptDecline(s, |s|), KeptDays(s, |s|), lo, hi);
  }

  lemma QuotientBetween(x: real, y: real, lo: real, hi: real)
    requires y > 0.0 && lo * y <= x <= hi * y
    ensures lo <= x / y <= hi
  {
    var q := x / y;
    assert q * y == x;
    assert (lo - q) * y <= 0.0 && (q - hi) * y <= 0.0;
  }

  /** A burn needs enough kept time and some decline; it is the kept decline over the kept time. */
  lemma {:induction false} BurnIff(points: seq<Snapshot>, minSpanDays: real)
    ensures var s, burn := SortByTime(points), Burn(points, minSpanDays);
            && (burn.Some? <==> KeptDays(s, |s|) >= minSpanDays
                                && exists p :: 0 < p < |s| && Dt(s, p) > 0 && Decline(s, p) > 0.0)
            && (burn.Some? ==> burn.value * KeptDays(s, |s|) == KeptDecline(s, |s|))
  {
    hide SortByTime, Dt, Decline;
    var s := SortByTime(points);
    KeptDaysPositive(s, |s|);
    SomeDeclineIff(s, |s|);
  }

  lemma {:induction false} SomeDeclineIff(s: seq<Snapshot>, n: nat)
    requires n <= |s|
    ensures KeptDecline(s, n) > 0.0 <==> exists p :: 0 < p < n && Dt(s, p) > 0 && Decline(s, p) > 0.0
  {
    hide Dt, Decline;
    KeptDaysPositive(s, n);
    if n > 1 {
      KeptDaysPositive(s, n - 1);
      SomeDeclineIff(s, n - 1);
    }
  }

  /** The fallback without snapshots: a month's cost by the day. */
  function BurnFromMonthlyCost(monthly: real): Option<real> {
    if monthly <= 0.0 then None else Some(monthly / DAYS_PER_MONTH)
  }

  /** A month's cost at the fallback rate is that cost again, over 730 hours. */
  lemma MonthlyCostIsItsBurn(monthly: real)
    ensures BurnFromMonthlyCost(monthly).Some? <==> monthly > 0.0
    ensures monthly > 0.0 ==> BurnFromMonthlyCost(monthly).value * 730.0 == monthly * 24.0
  {
  }

  /** Whole days a balance lasts; zero when either input is not positive. */
  function DaysOfRunway(balance: real, burnPerDay: real): (n: int)
    ensures balance > 0.0 && burnPerDay > 0.0 ==> n as real * burnPerDay <= balance < (n + 1) as real * burnPerDay
    ensures n >= 0 && (balance <= 0.0 || burnPerDay <= 0.0 ==> n == 0)
  {
    if burnPerDay <= 0.0 || balance <= 0.0 then 0
    else
      FloorOfQuotient(balance, burnPerDay);
      (balance / burnPerDay).Floor
  }

  lemma FloorOfQuotient(x: real, y: real)
    requires x > 0.0 && y > 0.0
    ensures var n := (x / y).Floor; n >= 0 && n as real * y <= x < (n + 1) as real * y
  {
    FloorBetween(x / y, x, y);
  }

  lemma FloorBetween(q: real, x: real, y: real)
    requires q * y == x && x > 0.0 && y > 0.0
    ensures q.Floor >= 0 && q.Floor as real * y <= x < (q.Floor + 1) as real * y
  {
    var lo, hi := q.Floor as real, (q.Floor + 1) as real;
    assert lo <= q < hi;
    assert x < hi * y by { ScaleStrict(q, hi, y); }
    assert lo * y <= x by {
      if lo < q { ScaleStrict(lo, q, y); }
    }
    assert 0.0 <= q by {
      if q < 0.0 { ScaleStrict(q, 0.0, y); }
    }
  }

  lemma ScaleStrict(a: real, b: real, y: real)
    requires a < b && y > 0.0
    ensures a * y < b * y
  {
    assert (b - a) * y > 0.0;
  }
}
