/**
 * Date-indexed rates for valuing past spend (apps/backend/src/currency/historical-rates.ts). Days
 * are counted from the epoch; the ISO strings of the source sort in the same order.
 */
module HistoricalRates {
  import opened Prelude
  import opened Currency

  datatype DailyRate = DailyRate(code: string, day: int, rate: real)

  datatype Series = Series(days: seq<int>, rates: seq<real>)

  function UtcDay(ms: int): int {
    ms / MS_PER_DAY
  }

  /** Oldest first, as the archive is read. */
  ghost predicate SortedByDay(rows: seq<DailyRate>) {
    forall i, j :: 0 <= i < j < |rows| ==> rows[i].day <= rows[j].day
  }

  // ---------------------------------------------------------------- the reference: scanning the rows

  /** The newest row of `code` on or before `day`, found by looking at every row. */
  function NewestUpTo(rows: seq<DailyRate>, code: string, day: int): Option<real> {
    if rows == [] then None
    else
      var r := rows[|rows| - 1];
      if r.code == code && r.day <= day then Some(r.rate) else NewestUpTo(rows[..|rows| - 1], code, day)
  }

  function Oldest(rows: seq<DailyRate>, code: string): Option<real> {
    if rows == [] then None else if rows[0].code == code then Some(rows[0].rate) else Oldest(rows[1..], code)
  }

  /** The rate that applies: on or before the day, else the oldest known, else today's. */
  function RateOn(rows: seq<DailyRate>, latest: Rates, code: string, day: int): Option<real> {
    var newest, oldest := NewestUpTo(rows, code, day), Oldest(rows, code);
    if newest.Some? then newest
    else if oldest.Some? then oldest
    else if code in latest then Some(latest[code])
    else None
  }

  /** Row `i` is the last of its currency that was in force at the instant `date`. */
  ghost predicate InForce(rows: seq<DailyRate>, i: nat, code: string, date: int)
    requires i < |rows|
  {
    && rows[i].code == code && rows[i].day * MS_PER_DAY <= date
    && forall j :: i < j < |rows| && rows[j].code == code ==> date < rows[j].day * MS_PER_DAY
  }

  /** Row `i` is the first of its currency. */
  ghost predicate IsFirst(rows: seq<DailyRate>, i: nat, code: string)
    requires i < |rows|
  {
    rows[i].code == code && forall j :: 0 <= j < i ==> rows[j].code != code
  }

  ghost predicate NoneInForce(rows: seq<DailyRate>, code: string, date: int) {
    forall i :: 0 <= i < |rows| && rows[i].code == code ==> date < rows[i].day * MS_PER_DAY
  }

  lemma {:induction false} NewestIsInForce(rows: seq<DailyRate>, code: string, date: int)
    ensures var newest := NewestUpTo(rows, code, UtcDay(date));
            && (newest.None? <==> NoneInForce(rows, code, date))
            && (newest.Some? ==>
                  exists i :: 0 <= i < |rows| && InForce(rows, i, code, date) && newest == Some(rows[i].rate))
  {
    if rows != [] {
      var n := |rows| - 1;
      NewestIsInForce(rows[..n], code, date);
      InstantOfDay(rows[n].day, date);
      hide UtcDay;
      if rows[n].code == code && rows[n].day * MS_PER_DAY <= date {
        assert InForce(rows, n, code, date);
      } else if NewestUpTo(rows[..n], code, UtcDay(date)).Some? {
        var i :| 0 <= i < n && InForce(rows[..n], i, code, date)
                 && NewestUpTo(rows[..n], code, UtcDay(date)) == Some(rows[i].rate);
        assert InForce(rows, i, code, date);
      }
    }
  }

  lemma InstantOfDay(day: int, date: int)
    ensures day <= UtcDay(date) <==> day * MS_PER_DAY <= date
  {
  }

  lemma {:induction false} OldestIsFirst(rows: seq<DailyRate>, code: string)
    ensures var oldest := Oldest(rows, code);
            && (oldest.None? <==> forall i :: 0 <= i < |rows| ==> rows[i].code != code)
            && (oldest.Some? ==> exists i :: 0 <= i < |rows| && IsFirst(rows, i, code) && oldest == Some(rows[i].rate))
  {
    if rows != [] {
      OldestIsFirst(rows[1..], code);
      assert forall i :: 0 < i < |rows| ==> rows[i] == rows[1..][i - 1];
      if rows[0].code == code {
        assert IsFirst(rows, 0, code);
      } else if Oldest(rows[1..], code).Some? {
        var i :| 0 <= i < |rows[1..]| && IsFirst(rows[1..], i, code) && Oldest(rows[1..], code)
            == Some(rows[1..][i].rate);
        assert IsFirst(rows, i + 1, code);
      }
    }
  }

  /**
   * The rate that applies at an instant: of the last row of the currency in force by then; before
   * all of them, of the first; without any row, today's if there is one.
   */
  lemma RateIs(rows: seq<DailyRate>, latest: Rates, code: string, date: int)
    ensures var rate := RateOn(rows, latest, code, UtcDay(date));
            && (forall i :: 0 <= i < |rows| && InForce(rows, i, code, date) ==> rate == Some(rows[i].rate))
            && (forall i :: 0 <= i < |rows| && IsFirst(rows, i, code) && NoneInForce(rows, code, date) ==>
                  rate == Some(rows[i].rate))
            && ((forall i :: 0 <= i < |rows| ==> rows[i].code != code) ==>
                  rate == if code in latest then Some(latest[code]) else None)
  {
    hide UtcDay, NewestUpTo, Oldest;
    NewestIsInForce(rows, code, date);
    OldestIsFirst(rows, code);
    forall i, j | 0 <= i < |rows| && 0 <= j < |rows| && InForce(rows, i, code, date) && InForce(rows, j, code, date)
      ensures i == j
    {
    }
    forall i, j | 0 <= i < |rows| && 0 <= j < |rows| && IsFirst(rows, i, code) && IsFirst(rows, j, code)
      ensures i == j
    {
    }
  }

  // ---------------------------------------------------------------- grouping

  /** The rows of one currency as two parallel lists. */
  function SeriesOf(rows: seq<DailyRate>, code: string): (s: Series)
    ensures |s.days| == |s.rates|
  {
    if rows == [] then Series([], [])
    else
      var r, s := rows[|rows| - 1], SeriesOf(rows[..|rows| - 1], code);
      if r.code == code then Series(s.days + [r.day], s.rates + [r.rate]) else s
  }

  ghost predicate Sorted(days: seq<int>) {
    forall i, j :: 0 <= i < j < |days| ==> days[i] <= days[j]
  }

  lemma {:induction false} SeriesSorted(rows: seq<DailyRate>, code: string)
    requires SortedByDay(rows)
    ensures Sorted(SeriesOf(rows, code).days)
    ensures forall i :: 0 <= i < |SeriesOf(rows, code).days| ==> SeriesOf(rows, code).days[i] <= rows[|rows| - 1].day
  {
    if rows != [] {
      var n := |rows| - 1;
      SeriesSorted(rows[..n], code);
    }
  }

  /** Counting the leading days up to a date, the linear way. */
  function CountUpTo(days: seq<int>, day: int): (n: nat)
    ensures n <= |days|
  {
    if days == [] then 0
    else if days[|days| - 1] <= day then |days|
    else CountUpTo(days[..|days| - 1], day)
  }

  lemma {:induction false} SeriesAgreesWithScan(rows: seq<DailyRate>, code: string, day: int)
    ensures var s, n := SeriesOf(rows, code), CountUpTo(SeriesOf(rows, code).days, day);
            NewestUpTo(rows, code, day) == if n == 0 then None else Some(s.rates[n - 1])
  {
    if rows != [] {
      var m := |rows| - 1;
      SeriesAgreesWithScan(rows[..m], code, day);
      var s, t := SeriesOf(rows, code), SeriesOf(rows[..m], code);
      if rows[m].code == code {
        assert s.days[..|s.days| - 1] == t.days;
      }
    }
  }

  lemma {:induction false} SeriesStartsWithOldest(rows: seq<DailyRate>, code: string)
    ensures var s := SeriesOf(rows, code); Oldest(rows, code) == if s.rates == [] then None else Some(s.rates[0])
  {
    if rows != [] {
      var m := |rows| - 1;
      SeriesStartsWithOldest(rows[..m], code);
      OldestOfMore(rows[..m], rows[m], code);
      assert rows[..m] + [rows[m]] == rows;
    }
  }

  lemma {:induction false} OldestOfMore(rows: seq<DailyRate>, r: DailyRate, code: string)
    ensures Oldest(rows + [r], code)
            == if Oldest(rows, code).Some? then Oldest(rows, code) else if r.code == code then Some(r.rate) else None
  {
    if rows == [] {
      assert (rows + [r])[1..] == [];
    } else {
      assert (rows + [r])[1..] == rows[1..] + [r];
      OldestOfMore(rows[1..], r, code);
    }
  }

  lemma {:induction false} CountSplits(days: seq<int>, day: int)
    requires Sorted(days)
    ensures var n := CountUpTo(days, day);
            && (forall i :: 0 <= i < n ==> days[i] <= day)
            && (forall i :: n <= i < |days| ==> days[i] > day)
  {
    if days != [] && days[|days| - 1] > day {
      CountSplits(days[..|days| - 1], day);
    }
  }

  // ---------------------------------------------------------------- the binary search

  /** The rate in force on a day: by halving, the last entry that is not later; before all entries, the first. */
  method AsOf(series: Series, day: int) returns (rate: Option<real>)
    requires |series.days| == |series.rates| && Sorted(series.days)
    ensures series.days == [] ==> rate == None
    ensures series.days != [] ==> rate == Some(series.rates[Max(0, CountUpTo(series.days, day) - 1)])
  {
    var days := series.days;
    if |days| == 0 {
      return None;
    }
    CountSplits(days, day);
    ghost var n := CountUpTo(days, day);
    if day < days[0] {
      return Some(series.rates[0]);
    }
    var lo, hi, found := 0, |days| - 1, 0;
    while lo <= hi
      invariant 0 <= found < |days| && 0 <= lo <= hi + 1 <= |days|
      invariant lo <= n <= hi + 1
      invariant found == Max(0, lo - 1)
    {
      var mid := (lo + hi) / 2;
      if days[mid] <= day {
        found := mid;
        lo := mid + 1;
      } else {
        hi := mid - 1;
      }
    }
    return Some(series.rates[found]);
  }

  // ---------------------------------------------------------------- the class

  class HistoricalRates {
    const latest: Rates
    ghost const rows: seq<DailyRate>
    var byCode: map<string, Series>
    var cache: map<int, Rates>

    /** A map that says for every currency what scanning the rows says. */
    ghost predicate IsRatesOn(rates: Rates, day: int) {
      forall code: string :: RateOn(rows, latest, code, day) == if code in rates then Some(rates[code]) else None
    }

    ghost predicate Grouped()
      reads this
    {
      forall code: string :: SeriesOf(rows, code) == if code in byCode then byCode[code] else Series([], [])
    }

    ghost predicate Valid()
      reads this
    {
      && SortedByDay(rows) && Grouped()
      && forall day :: day in cache ==> IsRatesOn(cache[day], day)
    }

    constructor (rows: seq<DailyRate>, latest: Rates)
      requires SortedByDay(rows)
      ensures Valid() && this.rows == rows && this.latest == latest && cache == map[]
    {
      this.rows, this.latest := rows, latest;
      byCode, cache := map[], map[];
      new;
      var i := 0;
      while i < |rows|
        invariant 0 <= i <= |rows|
        invariant this.rows == rows && this.latest == latest && cache == map[]
        invariant forall code: string ::
                    SeriesOf(rows[..i], code) == if code in byCode then byCode[code] else Series([], [])
      {
        assert rows[..i + 1][..i] == rows[..i];
        var r := rows[i];
        var series := if r.code in byCode then byCode[r.code] else Series([], []);
        byCode := byCode[r.code := Series(series.days + [r.day], series.rates + [r.rate])];
        i := i + 1;
      }
      assert rows[..|rows|] == rows;
    }

    /** The rates as they stood on a date, whatever was asked before: the memo is never stale. */
    method RatesOn(date: int) returns (rates: Rates)
      requires Valid()
      modifies this`cache
      ensures Valid() && IsRatesOn(rates, UtcDay(date))
      ensures cache == old(cache)[UtcDay(date) := rates]
      ensures UtcDay(date) in old(cache) ==> cache == old(cache)
    {
      var key := UtcDay(date);
      if key in cache {
        rates := cache[key];
        assert cache == cache[key := rates];
        return;
      }
      hide RateOn, SeriesOf;
      rates := latest;
      var codes := byCode.Keys;
      while codes != {}
        invariant codes <= byCode.Keys && cache == old(cache) && Valid()
        invariant forall code: string ::
                    (if code in byCode && code !in codes then RateOn(rows, latest, code, key)
                     else if code in latest then Some(latest[code]) else None)
                    == if code in rates then Some(rates[code]) else None
        decreases |codes|
      {
        hide Valid;
        var code :| code in codes;
        var rate := GroupedRate(code, key);
        if rate.Some? {
          rates := rates[code := rate.value];
        }
        codes := codes - {code};
      }
      UngroupedFallsBack(key);
      cache := cache[key := rates];
    }

    method GroupedRate(code: string, day: int) returns (rate: Option<real>)
      requires Valid() && code in byCode
      ensures RateOn(rows, latest, code, day)
              == if rate.Some? then rate else if code in latest then Some(latest[code]) else None
    {
      hide SeriesOf;
      assert byCode[code] == SeriesOf(rows, code);
      SeriesSorted(rows, code);
      SeriesAgreesWithScan(rows, code, day);
      SeriesStartsWithOldest(rows, code);
      rate := AsOf(byCode[code], day);
    }

    lemma UngroupedFallsBack(day: int)
      requires Valid()
      ensures forall code: string :: code !in byCode ==>
                RateOn(rows, latest, code, day) == if code in latest then Some(latest[code]) else None
    {
      forall code: string | code !in byCode
        ensures RateOn(rows, latest, code, day) == if code in latest then Some(latest[code]) else None
      {
        SeriesAgreesWithScan(rows, code, day);
        SeriesStartsWithOldest(rows, code);
      }
    }
  }

  /** Any sequence of look-ups: every answer is the scan of the rows, in whatever order they come. */
  method Replay(rows: seq<DailyRate>, latest: Rates, dates: seq<int>) returns (answers: seq<Rates>)
    requires SortedByDay(rows)
    ensures |answers| == |dates|
    ensures forall i :: 0 <= i < |dates| ==> forall code: string ::
              RateOn(rows, latest, code, UtcDay(dates[i]))
              == if code in answers[i] then Some(answers[i][code]) else None
  {
    var history := new HistoricalRates(rows, latest);
    answers := [];
    for i := 0 to |dates|
      invariant history.Valid() && history.rows == rows && history.latest == latest && |answers| == i
      invariant forall k :: 0 <= k < i ==> history.IsRatesOn(answers[k], UtcDay(dates[k]))
    {
      var rates := history.RatesOn(dates[i]);
      answers := answers + [rates];
    }
  }
}
