/**
 * What was really spent (apps/backend/src/analytics/analytics.service.ts): the summary's totals
 * and the forecast's actual bars, which count the same payments in different ways.
 */
module Actuals {
  import opened Prelude
  import opened Sums
  import opened Calendar
  import opened Currency
  import opened Grouping

  datatype Payment = Payment(
    isCharge: bool, accountUuid: string, providerUuid: string, amount: real, currency: string, date: Date)

  /** Rates as of a date; what they are is the business of the archive. */
  type RatesOn = Date -> Rates

  ghost predicate AlwaysPositive(ratesOn: RatesOn) {
    forall d :: Positive(ratesOn(d))
  }

  function ToBase(p: Payment, base: string, ratesOn: RatesOn): real
    requires AlwaysPositive(ratesOn)
  {
    Convert(p.amount, p.currency, base, ratesOn(p.date))
  }

  /** An account with top-ups or manual payments is charged through them: its charges are no further spend. */
  predicate IsSpend(p: Payment, topUpAccounts: set<string>) {
    !(p.isCharge && p.accountUuid in topUpAccounts)
  }

  function TopUpAccounts(payments: seq<Payment>): set<string> {
    set i | 0 <= i < |payments| && !payments[i].isCharge :: payments[i].accountUuid
  }

  /** What the spend of one month adds up to. */
  function SpentIn(payments: seq<Payment>, accounts: set<string>, month: int, base: string, ratesOn: RatesOn): real
    requires AlwaysPositive(ratesOn)
  {
    if payments == [] then 0.0
    else
      var p := payments[|payments| - 1];
      SpentIn(payments[..|payments| - 1], accounts, month, base, ratesOn)
      + if IsSpend(p, accounts) && p.date.month == month then ToBase(p, base, ratesOn) else 0.0
  }

  /** The spend as one entry per payment, under the provider it went to. */
  function SpendEntries(payments: seq<Payment>, accounts: set<string>, base: string, ratesOn: RatesOn): seq<Entry>
    requires AlwaysPositive(ratesOn)
  {
    if payments == [] then []
    else
      var p := payments[|payments| - 1];
      SpendEntries(payments[..|payments| - 1], accounts, base, ratesOn)
      + if IsSpend(p, accounts) then [Entry(p.providerUuid, ToBase(p, base, ratesOn))] else []
  }

  // ---------------------------------------------------------------- which payments are spend

  /** A payment that is no charge, or one of an account whose payments are all charges. */
  ghost predicate PaidFor(payments: seq<Payment>, p: Payment) {
    !p.isCharge || forall q :: q in payments && q.accountUuid == p.accountUuid ==> q.isCharge
  }

  /** The converted amount of a payment that counts and passes `only`. */
  ghost function Paid(payments: seq<Payment>, only: Payment -> bool, base: string, ratesOn: RatesOn): Payment -> real
    requires AlwaysPositive(ratesOn)
  {
    p => if PaidFor(payments, p) && only(p) then Convert(p.amount, p.currency, base, ratesOn(p.date)) else 0.0
  }

  ghost function Always(): Payment -> bool {
    (p: Payment) => true
  }

  ghost function DatedIn(month: int): Payment -> bool {
    (p: Payment) => p.date.month == month
  }

  ghost function PaidTo(provider: string): Payment -> bool {
    (p: Payment) => p.providerUuid == provider
  }

  /** An account with only charges counts them all; one with any other payment counts none of its charges. */
  lemma ChargesCountIff(payments: seq<Payment>, p: Payment)
    requires p in payments && p.isCharge
    ensures IsSpend(p, TopUpAccounts(payments))
            <==> !exists q :: q in payments && q.accountUuid == p.accountUuid && !q.isCharge
  {
    SpendIffPaidFor(payments);
  }

  lemma SpendIffPaidFor(payments: seq<Payment>)
    ensures forall p :: p in payments ==> (IsSpend(p, TopUpAccounts(payments)) <==> PaidFor(payments, p))
  {
    forall p | p in payments ensures IsSpend(p, TopUpAccounts(payments)) <==> PaidFor(payments, p) {
      if p.accountUuid in TopUpAccounts(payments) {
        var i :| 0 <= i < |payments| && !payments[i].isCharge && payments[i].accountUuid == p.accountUuid;
        assert payments[i] in payments;
      }
    }
  }

  lemma {:induction false} SpentInIsSum(payments: seq<Payment>, accounts: set<string>, month: int, base: string,
                                        ratesOn: RatesOn, paid: Payment -> real)
    requires AlwaysPositive(ratesOn)
    requires forall p :: p in payments ==>
               paid(p) == if IsSpend(p, accounts) && p.date.month == month then ToBase(p, base, ratesOn) else 0.0
    ensures SpentIn(payments, accounts, month, base, ratesOn) == SumOver(payments, paid)
  {
    hide ToBase, IsSpend;
    if payments != [] {
      var n := |payments| - 1;
      assert payments[n] in payments && forall p :: p in payments[..n] ==> p in payments;
      SpentInIsSum(payments[..n], accounts, month, base, ratesOn, paid);
    }
  }

  lemma {:induction false} EntriesAreSums(payments: seq<Payment>, accounts: set<string>, key: string, base: string,
                                          ratesOn: RatesOn, paid: Payment -> real, toKey: Payment -> real)
    requires AlwaysPositive(ratesOn)
    requires forall p :: p in payments ==>
               paid(p) == if IsSpend(p, accounts) then ToBase(p, base, ratesOn) else 0.0
    requires forall p :: p in payments ==> toKey(p) == if p.providerUuid == key then paid(p) else 0.0
    ensures var entries := SpendEntries(payments, accounts, base, ratesOn);
            Sum(Amounts(entries)) == SumOver(payments, paid) && SumWhere(entries, key) == SumOver(payments, toKey)
  {
    hide ToBase, IsSpend, Sum, SumWhere, Amounts, SumOver, SpendEntries, SpentIn;
    if payments != [] {
      var n, p := |payments| - 1, payments[|payments| - 1];
      assert p in payments && forall q :: q in payments[..n] ==> q in payments;
      EntriesAreSums(payments[..n], accounts, key, base, ratesOn, paid, toKey);
      assert payments[..n + 1] == payments;
      OneMorePayment(payments, n, accounts, 0, base, ratesOn);
      OneMoreEntry(SpendEntries(payments[..n], accounts, base, ratesOn),
                   Entry(p.providerUuid, ToBase(p, base, ratesOn)));
      SumOverMore(payments, paid);
      SumOverMore(payments, toKey);
    } else {
      NoEntries(key, accounts, base, ratesOn);
      SumOverNone(paid);
      SumOverNone(toKey);
    }
  }

  lemma SumOverNone(f: Payment -> real)
    ensures SumOver([], f) == 0.0
  {
  }

  lemma {:induction false} NoEntries(key: string, accounts: set<string>, base: string, ratesOn: RatesOn)
    requires AlwaysPositive(ratesOn)
    ensures SpendEntries([], accounts, base, ratesOn) == [] && Sum(Amounts([])) == 0.0 && SumWhere([], key) == 0.0
  {
    assert Amounts([]) == [];
  }

  lemma {:induction false} OneMoreEntry(entries: seq<Entry>, e: Entry)
    ensures Sum(Amounts(entries + [e])) == Sum(Amounts(entries)) + e.amount
    ensures forall key :: SumWhere(entries + [e], key) == SumWhere(entries, key) + if e.key == key then e.amount
        else 0.0
  {
    assert (entries + [e])[..|entries|] == entries;
    assert Amounts(entries + [e])[..|entries|] == Amounts(entries);
  }

  /** The three figures of the summary as sums over the payments that count. */
  lemma {:induction false} FiguresAreSums(payments: seq<Payment>, month: int, key: string, base: string,
                                          ratesOn: RatesOn)
    requires AlwaysPositive(ratesOn)
    ensures var accounts := TopUpAccounts(payments); var entries := SpendEntries(payments, accounts, base, ratesOn);
            && SpentIn(payments, accounts, month, base, ratesOn)
               == SumOver(payments, Paid(payments, DatedIn(month), base, ratesOn))
            && Sum(Amounts(entries)) == SumOver(payments, Paid(payments, Always(), base, ratesOn))
            && SumWhere(entries, key) == SumOver(payments, Paid(payments, PaidTo(key), base, ratesOn))
  {
    hide TopUpAccounts, IsSpend, SpentIn, SpendEntries, SumOver, SumWhere, PaidFor;
    var accounts := TopUpAccounts(payments);
    SpendIffPaidFor(payments);
    SpentInIsSum(payments, accounts, month, base, ratesOn, Paid(payments, DatedIn(month), base, ratesOn));
    EntriesAreSums(payments, accounts, key, base, ratesOn, Paid(payments, Always(), base, ratesOn),
                   Paid(payments, PaidTo(key), base, ratesOn));
  }

  // ---------------------------------------------------------------- the summary

  method SumPayments(payments: seq<Payment>, current: nat, base: string, ratesOn: RatesOn)
    returns (currentMonthPayments: real, totalSpent: real, spentByProvider: map<string, real>)
    requires AlwaysPositive(ratesOn)
    ensures currentMonthPayments == SpentIn(payments, TopUpAccounts(payments), current, base, ratesOn)
    ensures totalSpent == Sum(Amounts(SpendEntries(payments, TopUpAccounts(payments), base, ratesOn)))
    ensures currentMonthPayments == SumOver(payments, Paid(payments, DatedIn(current), base, ratesOn))
    ensures totalSpent == SumOver(payments, Paid(payments, Always(), base, ratesOn))
    ensures forall provider: string ::
              SumOver(payments, Paid(payments, PaidTo(provider), base, ratesOn))
              == if provider in spentByProvider then spentByProvider[provider] else 0.0
  {
    hide ToBase, SpentIn, SpendEntries, SpentByIs, TopUpAccounts, SumOver, SumWhere, Paid;
    var accounts := TopUpAccounts(payments);
    NothingSpent(accounts, current, base, ratesOn);
    currentMonthPayments, totalSpent, spentByProvider := 0.0, 0.0, map[];
    for i := 0 to |payments|
      invariant currentMonthPayments == SpentIn(payments[..i], accounts, current, base, ratesOn)
      invariant totalSpent == Sum(Amounts(SpendEntries(payments[..i], accounts, base, ratesOn)))
      invariant SpentByIs(spentByProvider, SpendEntries(payments[..i], accounts, base, ratesOn))
    {
      var p := payments[i];
      OneMorePayment(payments, i, accounts, current, base, ratesOn);
      if p.isCharge && p.accountUuid in accounts {
        continue;
      }
      var amount := ToBase(p, base, ratesOn);
      OneMoreSpend(SpendEntries(payments[..i], accounts, base, ratesOn), Entry(p.providerUuid, amount),
                   spentByProvider);
      totalSpent := totalSpent + amount;
      var known := if p.providerUuid in spentByProvider then spentByProvider[p.providerUuid] else 0.0;
      spentByProvider := spentByProvider[p.providerUuid := known + amount];
      if p.date.month == current {
        currentMonthPayments := currentMonthPayments + amount;
      }
    }
    assert payments[..|payments|] == payments;
    SpentByKeys(spentByProvider, SpendEntries(payments, accounts, base, ratesOn));
    forall provider: string
      ensures SumOver(payments, Paid(payments, PaidTo(provider), base, ratesOn))
              == if provider in spentByProvider then spentByProvider[provider] else 0.0
    {
      FiguresAreSums(payments, current, provider, base, ratesOn);
    }
    FiguresAreSums(payments, current, "", base, ratesOn);
  }

  lemma {:induction false} SpentByKeys(spent: map<string, real>, entries: seq<Entry>)
    requires SpentByIs(spent, entries)
    ensures forall key: string :: SumWhere(entries, key) == if key in spent then spent[key] else 0.0
  {
  }

  lemma {:induction false} NothingSpent(accounts: set<string>, month: int, base: string, ratesOn: RatesOn)
    requires AlwaysPositive(ratesOn)
    ensures SpentIn([], accounts, month, base, ratesOn) == 0.0
    ensures SpendEntries([], accounts, base, ratesOn) == [] && SpentByIs(map[], []) && Sum(Amounts([])) == 0.0
  {
  }

  lemma {:induction false} OneMorePayment(payments: seq<Payment>, i: nat, accounts: set<string>, month: int,
                                          base: string,
                       ratesOn: RatesOn)
    requires AlwaysPositive(ratesOn) && i < |payments|
    ensures var p, entries := payments[i], SpendEntries(payments[..i], accounts, base, ratesOn);
            && SpendEntries(payments[..i + 1], accounts, base, ratesOn)
               == (if IsSpend(p, accounts) then entries + [Entry(p.providerUuid, ToBase(p, base, ratesOn))]
                   else entries)
            && SpentIn(payments[..i + 1], accounts, month, base, ratesOn)
               == SpentIn(payments[..i], accounts, month, base, ratesOn)
                  + if IsSpend(p, accounts) && p.date.month == month then ToBase(p, base, ratesOn) else 0.0
  {
    hide ToBase, IsSpend;
    assert payments[..i + 1][..i] == payments[..i];
  }

  ghost predicate SpentByIs(spent: map<string, real>, entries: seq<Entry>) {
    forall key: string :: SumWhere(entries, key) == if key in spent then spent[key] else 0.0
  }

  lemma OneMoreSpend(entries: seq<Entry>, e: Entry, spent: map<string, real>)
    requires SpentByIs(spent, entries)
    ensures Sum(Amounts(entries + [e])) == Sum(Amounts(entries)) + e.amount
    ensures SpentByIs(spent[e.key := (if e.key in spent then spent[e.key] else 0.0) + e.amount], entries + [e])
  {
    assert (entries + [e])[..|entries|] == entries;
    assert Amounts(entries + [e])[..|entries|] == Amounts(entries);
    assert SumWhere(entries, e.key) == if e.key in spent then spent[e.key] else 0.0;
  }

  /** The per-provider spend of all providers is the total spend. */
  lemma {:induction false} ProviderSpendAddsUp(providers: seq<string>, payments: seq<Payment>, accounts: set<string>,
                            base: string, ratesOn: RatesOn)
    requires AlwaysPositive(ratesOn)
    requires forall i, j :: 0 <= i < j < |providers| ==> providers[i] != providers[j]
    requires forall i :: 0 <= i < |payments| ==> payments[i].providerUuid in providers
    ensures var entries := SpendEntries(payments, accounts, base, ratesOn);
            Sum(WhereRows(providers, entries)) == Sum(Amounts(entries))
  {
    EntriesHaveProviders(providers, payments, accounts, base, ratesOn);
    WhereRowsAddUp(providers, SpendEntries(payments, accounts, base, ratesOn));
  }

  lemma {:induction false} EntriesHaveProviders(providers: seq<string>, payments: seq<Payment>, accounts: set<string>,
                                                base: string, ratesOn: RatesOn)
    requires AlwaysPositive(ratesOn)
    requires forall i :: 0 <= i < |payments| ==> payments[i].providerUuid in providers
    ensures forall e :: e in SpendEntries(payments, accounts, base, ratesOn) ==> e.key in providers
  {
    hide ToBase;
    if payments != [] {
      EntriesHaveProviders(providers, payments[..|payments| - 1], accounts, base, ratesOn);
    }
  }

  // ---------------------------------------------------------------- the forecast's actual bars

  /** One bar per month of the window; payments dated after the current month are ignored. */
  method ActualBuckets(recent: seq<Payment>, accounts: set<string>, current: nat, monthsBack: nat, months: nat,
                       base: string, ratesOn: RatesOn) returns (buckets: map<int, real>)
    requires AlwaysPositive(ratesOn)
    ensures forall m :: m in buckets <==> current - monthsBack <= m <= current + months
    ensures forall m :: m in buckets ==>
      buckets[m] == if m > current then 0.0 else SpentIn(recent, accounts, m, base, ratesOn)
  {
    hide ToBase;
    var windowStart := current - monthsBack;
    buckets := map[];
    for i := 0 to monthsBack + 1 + months
      invariant forall m :: m in buckets <==> windowStart <= m < windowStart + i
      invariant forall m :: m in buckets ==> buckets[m] == 0.0
    {
      buckets := buckets[windowStart + i := 0.0];
    }
    for i := 0 to |recent|
      invariant forall m :: m in buckets <==> windowStart <= m <= current + months
      invariant forall m :: m in buckets ==>
        buckets[m] == if m > current then 0.0 else SpentIn(recent[..i], accounts, m, base, ratesOn)
    {
      var p := recent[i];
      assert recent[..i + 1][..i] == recent[..i];
      if p.isCharge && p.accountUuid in accounts {
        continue;
      }
      var key := p.date.month;
      if key !in buckets || key > current {
        continue;
      }
      buckets := buckets[key := buckets[key] + ToBase(p, base, ratesOn)];
    }
    assert recent[..|recent|] == recent;
  }

  // ---------------------------------------------------------------- both count the same

  /** The payments dated from a month on. */
  function Since(payments: seq<Payment>, month: int): seq<Payment> {
    if payments == [] then []
    else
      var p := payments[|payments| - 1];
      Since(payments[..|payments| - 1], month) + if p.date.month >= month then [p] else []
  }

  lemma {:induction false} SpentSince(payments: seq<Payment>, from: int, accounts: set<string>, month: int,
                                      base: string, ratesOn: RatesOn)
    requires AlwaysPositive(ratesOn) && from <= month
    ensures SpentIn(Since(payments, from), accounts, month, base, ratesOn)
            == SpentIn(payments, accounts, month, base, ratesOn)
  {
    hide ToBase, IsSpend;
    if payments != [] {
      var n := |payments| - 1;
      SpentSince(payments[..n], from, accounts, month, base, ratesOn);
      var kept := Since(payments, from);
      if payments[n].date.month >= from {
        assert kept[..|kept| - 1] == Since(payments[..n], from);
      } else {
        assert kept == Since(payments[..n], from);
      }
    }
  }

  lemma {:induction false} SpentWithout(payments: seq<Payment>, i: nat, accounts: set<string>, month: int,
                                        base: string, ratesOn: RatesOn)
    requires AlwaysPositive(ratesOn) && i < |payments|
    ensures var p := payments[i];
            SpentIn(payments, accounts, month, base, ratesOn)
            == SpentIn(payments[..i] + payments[i + 1..], accounts, month, base, ratesOn)
               + if IsSpend(p, accounts) && p.date.month == month then ToBase(p, base, ratesOn) else 0.0
  {
    hide ToBase, IsSpend;
    var n := |payments| - 1;
    var rest := payments[..i] + payments[i + 1..];
    if i < n {
      SpentWithout(payments[..n], i, accounts, month, base, ratesOn);
      assert rest[..|rest| - 1] == payments[..n][..i] + payments[..n][i + 1..];
    } else {
      assert rest == payments[..n];
    }
  }

  /** The order the database returns payments in does not matter. */
  lemma {:induction false} SpentInAnyOrder(a: seq<Payment>, b: seq<Payment>, accounts: set<string>, month: int,
                                           base: string, ratesOn: RatesOn)
    requires AlwaysPositive(ratesOn) && multiset(a) == multiset(b)
    ensures SpentIn(a, accounts, month, base, ratesOn) == SpentIn(b, accounts, month, base, ratesOn)
  {
    hide ToBase, IsSpend, SpentIn;
    if a == [] {
      assert |multiset(b)| == 0;
    } else {
      var n := |a| - 1;
      var i := PartnerOfLast(a, b);
      assert a[..n] + a[n + 1..] == a[..n];
      SpentInAnyOrder(a[..n], b[..i] + b[i + 1..], accounts, month, base, ratesOn);
      SpentWithout(a, n, accounts, month, base, ratesOn);
      SpentWithout(b, i, accounts, month, base, ratesOn);
    }
  }

  /**
   * Outside force mode the current month's actual bar is the summary's currentMonthPayments, for
   * every set of payments and in whatever order the two queries return them.
   */
  method CurrentBarIsTheKpi(payments: seq<Payment>, recent: seq<Payment>, current: nat, monthsBack: nat, months: nat,
                            base: string, ratesOn: RatesOn) returns (kpi: real, bar: real)
    requires AlwaysPositive(ratesOn)
    requires multiset(recent) == multiset(Since(payments, current - monthsBack))
    ensures bar == kpi == SumOver(payments, Paid(payments, DatedIn(current), base, ratesOn))
  {
    hide Paid, SumOver, SpentIn, TopUpAccounts, SpendEntries, Since;
    var accounts := TopUpAccounts(payments);
    var total, byProvider;
    kpi, total, byProvider := SumPayments(payments, current, base, ratesOn);
    var buckets := ActualBuckets(recent, accounts, current, monthsBack, months, base, ratesOn);
    bar := buckets[current];
    SpentInAnyOrder(recent, Since(payments, current - monthsBack), accounts, current, base, ratesOn);
    SpentSince(payments, current - monthsBack, accounts, current, base, ratesOn);
  }
}
