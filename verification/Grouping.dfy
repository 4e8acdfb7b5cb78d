/**
 * Monthly cost by provider, project, country, type and currency, and the tariff estimate of a
 * month (apps/backend/src/analytics/analytics.service.ts, apps/backend/src/common/money.ts).
 */
module Grouping {
  import opened Prelude
  import opened Sums
  import opened Currency
  import Runway

  const HOURS_PER_MONTH: real := 730.0

  datatype Period = Monthly | Yearly | Quarterly | Daily | Hourly | Onetime | OtherPeriod

  /** Dates are month indices here: a month of the year plus twelve times the year. */
  datatype Service = Service(
    accountUuid: string, providerUuid: string, projectUuid: string, countryCode: Option<string>,
    kind: string, cost: real, currency: string, period: Period, createdMonth: int)

  /** One entry of an insertion-ordered map. */
  datatype Group = Group(key: string, monthly: real, count: nat)

  datatype CurrencyGroup = CurrencyGroup(key: string, original: real, base: real, count: nat)

  datatype Entry = Entry(key: string, amount: real)

  /** A cost per period as a cost per month; one-off and unknown periods do not recur. */
  function MonthlyCost(cost: real, period: Period): real {
    match period
    case Monthly => cost
    case Yearly => cost / 12.0
    case Quarterly => cost / 3.0
    case Daily => cost * Runway.DAYS_PER_MONTH
    case Hourly => cost * HOURS_PER_MONTH
    case Onetime => 0.0
    case OtherPeriod => 0.0
  }

  /** Normalising a metered price and taking it by the day again gives the price of a day. */
  lemma MeteredPriceIsItsBurn(cost: real)
    requires cost > 0.0
    ensures Runway.BurnFromMonthlyCost(MonthlyCost(cost, Daily)) == Some(cost)
    ensures Runway.BurnFromMonthlyCost(MonthlyCost(cost, Hourly)) == Some(cost * 24.0)
  {
  }

  function MonthlyBase(s: Service, base: string, rates: Rates): real
    requires Positive(rates)
  {
    Convert(MonthlyCost(s.cost, s.period), s.currency, base, rates)
  }

  // ---------------------------------------------------------------- grouping

  /** The position of a key, or the length when it is new. */
  function Find(groups: seq<Group>, key: string): (i: nat)
    ensures i <= |groups|
    ensures i < |groups| ==> groups[i].key == key
    ensures i == |groups| ==> forall k :: 0 <= k < |groups| ==> groups[k].key != key
  {
    if groups == [] then 0
    else if groups[|groups| - 1].key == key then |groups| - 1
    else
      var i := Find(groups[..|groups| - 1], key);
      if i < |groups| - 1 then i else |groups|
  }

  /** Add to the group of `key`, opening it at the end when it is new. */
  function Bump(groups: seq<Group>, key: string, amount: real): seq<Group> {
    var i := Find(groups, key);
    if i < |groups| then groups[i := Group(key, groups[i].monthly + amount, groups[i].count + 1)]
    else groups + [Group(key, 0.0 + amount, 1)]
  }

  function Grouped(entries: seq<Entry>): seq<Group> {
    if entries == [] then []
    else
      var e := entries[|entries| - 1];
      Bump(Grouped(entries[..|entries| - 1]), e.key, e.amount)
  }

  // ---------------------------------------------------------------- what the groups must say

  function SumWhere(entries: seq<Entry>, key: string): real {
    if entries == [] then 0.0
    else
      var e := entries[|entries| - 1];
      SumWhere(entries[..|entries| - 1], key) + if e.key == key then e.amount else 0.0
  }

  function CountWhere(entries: seq<Entry>, key: string): nat {
    if entries == [] then 0
    else
      CountWhere(entries[..|entries| - 1], key) + if entries[|entries| - 1].key == key then 1 else 0
  }

  function Amounts(entries: seq<Entry>): seq<real> {
    seq(|entries|, i requires 0 <= i < |entries| => entries[i].amount)
  }

  function Monthlies(groups: seq<Group>): seq<real> {
    seq(|groups|, i requires 0 <= i < |groups| => groups[i].monthly)
  }

  function TotalCount(groups: seq<Group>): nat {
    if groups == [] then 0 else TotalCount(groups[..|groups| - 1]) + groups[|groups| - 1].count
  }

  predicate UniqueKeys(groups: seq<Group>) {
    forall i, j :: 0 <= i < j < |groups| ==> groups[i].key != groups[j].key
  }

  predicate RightSums(groups: seq<Group>, entries: seq<Entry>) {
    forall i :: 0 <= i < |groups| ==>
      && groups[i].monthly == SumWhere(entries, groups[i].key)
      && groups[i].count == CountWhere(entries, groups[i].key) > 0
  }

  predicate Complete(groups: seq<Group>, entries: seq<Entry>) {
    forall i :: 0 <= i < |entries| ==> Find(groups, entries[i].key) < |groups|
  }

  /** Each key has one group, holding the sum and the number of its entries. */
  predicate Represents(groups: seq<Group>, entries: seq<Entry>) {
    UniqueKeys(groups) && RightSums(groups, entries) && Complete(groups, entries)
  }

  lemma {:induction false} GroupedRepresents(entries: seq<Entry>)
    ensures Represents(Grouped(entries), entries)
  {
    hide Represents, Find, Bump;
    if entries == [] {
      EmptyRepresents(entries);
    } else {
      var n := |entries| - 1;
      GroupedRepresents(entries[..n]);
      BumpRepresents(Grouped(entries[..n]), entries);
    }
  }

  lemma EmptyRepresents(entries: seq<Entry>)
    requires entries == []
    ensures Represents([], entries)
  {
  }

  lemma BumpRepresents(groups: seq<Group>, entries: seq<Entry>)
    requires entries != [] && Represents(groups, entries[..|entries| - 1])
    ensures var e := entries[|entries| - 1]; Represents(Bump(groups, e.key, e.amount), entries)
  {
    hide Find, SumWhere, CountWhere;
    var n := |entries| - 1;
    var init, e := entries[..n], entries[n];
    var groups' := Bump(groups, e.key, e.amount);
    var i := Find(groups, e.key);
    if i == |groups| {
      NoneWhere(groups, init, e.key);
    }
    forall k | 0 <= k < |groups'|
      ensures groups'[k].monthly == SumWhere(entries, groups'[k].key)
      ensures groups'[k].count == CountWhere(entries, groups'[k].key) > 0
    {
      OneMore(entries, groups'[k].key);
    }
    forall k | 0 <= k < |entries| ensures Find(groups', entries[k].key) < |groups'| {
      var was := if k < n then Find(groups, init[k].key) else i;
      assert groups'[was].key == entries[k].key;
    }
  }

  lemma {:induction false} OneMore(entries: seq<Entry>, key: string)
    requires entries != []
    ensures var n := |entries| - 1; var hit := entries[n].key == key;
            && SumWhere(entries, key) == SumWhere(entries[..n], key) + (if hit then entries[n].amount else 0.0)
            && CountWhere(entries, key) == CountWhere(entries[..n], key) + if hit then 1 else 0
  {
  }

  lemma {:induction false} NoneWhere(groups: seq<Group>, entries: seq<Entry>, key: string)
    requires Find(groups, key) == |groups|
    requires forall i :: 0 <= i < |entries| ==> Find(groups, entries[i].key) < |groups|
    ensures SumWhere(entries, key) == 0.0 && CountWhere(entries, key) == 0
  {
    if entries != [] {
      assert Find(groups, entries[|entries| - 1].key) < |groups|;
      NoneWhere(groups, entries[..|entries| - 1], key);
    }
  }

  /** No group loses or repeats anything: the groups add up to the whole. */
  lemma {:induction false} GroupsAddUp(entries: seq<Entry>)
    ensures Sum(Monthlies(Grouped(entries))) == Sum(Amounts(entries))
    ensures TotalCount(Grouped(entries)) == |entries|
  {
    hide Find, Bump, Monthlies, TotalCount;
    if entries == [] {
      NothingAddsUp(Grouped(entries));
    } else {
      var n := |entries| - 1;
      GroupsAddUp(entries[..n]);
      LastAmount(entries);
      BumpAddsUp(Grouped(entries[..n]), entries[n].key, entries[n].amount);
    }
  }

  lemma {:induction false} NothingAddsUp(groups: seq<Group>)
    requires groups == []
    ensures Sum(Monthlies(groups)) == 0.0 && TotalCount(groups) == 0
  {
  }

  lemma {:induction false} BumpAddsUp(groups: seq<Group>, key: string, amount: real)
    ensures Sum(Monthlies(Bump(groups, key, amount))) == Sum(Monthlies(groups)) + amount
    ensures TotalCount(Bump(groups, key, amount)) == TotalCount(groups) + 1
  {
    hide Find;
    var bumped, i := Bump(groups, key, amount), Find(groups, key);
    if i < |groups| {
      SumUpdate(Monthlies(groups), i, groups[i].monthly + amount);
      CountUpdate(groups, i, bumped[i]);
      assert Monthlies(bumped) == Monthlies(groups)[i := groups[i].monthly + amount];
    } else {
      assert bumped[..|groups|] == groups;
      assert Monthlies(bumped)[..|groups|] == Monthlies(groups);
    }
  }

  lemma {:induction false} CountUpdate(groups: seq<Group>, i: nat, g: Group)
    requires i < |groups|
    ensures TotalCount(groups[i := g]) == TotalCount(groups) - groups[i].count + g.count
  {
    var n := |groups| - 1;
    if i < n {
      assert groups[i := g][..n] == groups[..n][i := g];
      CountUpdate(groups[..n], i, g);
    } else {
      assert groups[i := g][..n] == groups[..n];
    }
  }

  // ---------------------------------------------------------------- rows for a list of owners

  function CostOf(groups: seq<Group>, key: string): real {
    var i := Find(groups, key);
    if i < |groups| then groups[i].monthly else 0.0
  }

  /** One row per listed provider or project; those without services show zero. */
  function Rows(keys: seq<string>, groups: seq<Group>): seq<real> {
    seq(|keys|, i requires 0 <= i < |keys| => CostOf(groups, keys[i]))
  }

  lemma {:induction false} CostIsSumWhere(entries: seq<Entry>, key: string)
    ensures CostOf(Grouped(entries), key) == SumWhere(entries, key)
  {
    GroupedRepresents(entries);
    if Find(Grouped(entries), key) == |Grouped(entries)| {
      NoneWhere(Grouped(entries), entries, key);
    }
  }

  /** What the entries of each key add up to. */
  function WhereRows(keys: seq<string>, entries: seq<Entry>): seq<real> {
    seq(|keys|, i requires 0 <= i < |keys| => SumWhere(entries, keys[i]))
  }

  /** Distinct keys that own every entry share out the whole. */
  lemma {:induction false} WhereRowsAddUp(keys: seq<string>, entries: seq<Entry>)
    requires forall i, j :: 0 <= i < j < |keys| ==> keys[i] != keys[j]
    requires forall i :: 0 <= i < |entries| ==> entries[i].key in keys
    ensures Sum(WhereRows(keys, entries)) == Sum(Amounts(entries))
  {
    if entries == [] {
      assert WhereRows(keys, entries) == Zeros(|keys|);
      SumZeros(|keys|);
    } else {
      hide SumWhere, Sum, Amounts, WhereRows;
      var n := |entries| - 1;
      WhereRowsAddUp(keys, entries[..n]);
      assert entries[n].key in keys;
      var k :| 0 <= k < |keys| && keys[k] == entries[n].key;
      OneRowGrows(keys, entries, k);
      var before := WhereRows(keys, entries[..n]);
      SumUpdate(before, k, before[k] + entries[n].amount);
      LastAmount(entries);
    }
  }

  lemma OneRowGrows(keys: seq<string>, entries: seq<Entry>, k: nat)
    requires forall i, j :: 0 <= i < j < |keys| ==> keys[i] != keys[j]
    requires entries != [] && k < |keys| && keys[k] == entries[|entries| - 1].key
    ensures var n, before := |entries| - 1, WhereRows(keys, entries[..|entries| - 1]);
            |before| == |keys| && WhereRows(keys, entries) == before[k := before[k] + entries[n].amount]
  {
    hide SumWhere;
    var n := |entries| - 1;
    var rows, before := WhereRows(keys, entries), WhereRows(keys, entries[..n]);
    forall i | 0 <= i < |keys| ensures rows[i] == before[i] + if i == k then entries[n].amount else 0.0 {
      OneMore(entries, keys[i]);
      assert keys[i] == entries[n].key <==> i == k;
    }
  }

  lemma LastAmount(entries: seq<Entry>)
    requires entries != []
    ensures var n := |entries| - 1; Sum(Amounts(entries)) == Sum(Amounts(entries[..n])) + entries[n].amount
  {
    assert Amounts(entries)[..|entries| - 1] == Amounts(entries[..|entries| - 1]);
  }

  /** The rows of distinct owners that own every entry add up to the whole. */
  lemma {:induction false} RowsAddUp(keys: seq<string>, entries: seq<Entry>)
    requires forall i, j :: 0 <= i < j < |keys| ==> keys[i] != keys[j]
    requires forall i :: 0 <= i < |entries| ==> entries[i].key in keys
    ensures Sum(Rows(keys, Grouped(entries))) == Sum(Amounts(entries))
  {
    hide Grouped, CostOf, Find;
    WhereRowsAddUp(keys, entries);
    forall i | 0 <= i < |keys| ensures Rows(keys, Grouped(entries))[i] == WhereRows(keys, entries)[i] {
      CostIsSumWhere(entries, keys[i]);
    }
    assert Rows(keys, Grouped(entries)) == WhereRows(keys, entries);
  }

  // ---------------------------------------------------------------- the summary's groupings

  function ProviderOf(s: Service): string {
    s.providerUuid
  }

  function ProjectOf(s: Service): string {
    s.projectUuid
  }

  function CountryOf(s: Service): string {
    if s.countryCode.Some? then s.countryCode.value else "XX"
  }

  function KindOf(s: Service): string {
    s.kind
  }

  function CurrencyOf(s: Service): string {
    s.currency
  }

  function Costs(services: seq<Service>, base: string, rates: Rates): seq<real>
    requires Positive(rates)
  {
    seq(|services|, i requires 0 <= i < |services| => MonthlyBase(services[i], base, rates))
  }

  function EntriesBy(services: seq<Service>, keyOf: Service -> string, base: string, rates: Rates): seq<Entry>
    requires Positive(rates)
  {
    seq(|services|, i requires 0 <= i < |services| => Entry(keyOf(services[i]), MonthlyBase(services[i], base, rates)))
  }

  function OriginalEntries(services: seq<Service>): seq<Entry> {
    seq(|services|, i requires 0 <= i < |services| =>
      Entry(CurrencyOf(services[i]), MonthlyCost(services[i].cost, services[i].period)))
  }

  function Originals(groups: seq<CurrencyGroup>): seq<Group> {
    seq(|groups|, i requires 0 <= i < |groups| => Group(groups[i].key, groups[i].original, groups[i].count))
  }

  function Bases(groups: seq<CurrencyGroup>): seq<Group> {
    seq(|groups|, i requires 0 <= i < |groups| => Group(groups[i].key, groups[i].base, groups[i].count))
  }

  function BumpCurrency(groups: seq<CurrencyGroup>, key: string, original: real, base: real): seq<CurrencyGroup> {
    var i := Find(Bases(groups), key);
    if i < |groups| then
      groups[i := CurrencyGroup(key, groups[i].original + original, groups[i].base + base, groups[i].count + 1)]
    else groups + [CurrencyGroup(key, 0.0 + original, 0.0 + base, 1)]
  }

  lemma BumpCurrencyIsTwoBumps(groups: seq<CurrencyGroup>, key: string, original: real, base: real)
    ensures Bases(BumpCurrency(groups, key, original, base)) == Bump(Bases(groups), key, base)
    ensures Originals(BumpCurrency(groups, key, original, base)) == Bump(Originals(groups), key, original)
  {
    FindByKeys(Bases(groups), Originals(groups), key);
  }

  lemma {:induction false} FindByKeys(a: seq<Group>, b: seq<Group>, key: string)
    requires |a| == |b| && forall i :: 0 <= i < |a| ==> a[i].key == b[i].key
    ensures Find(a, key) == Find(b, key)
  {
    if a != [] {
      FindByKeys(a[..|a| - 1], b[..|b| - 1], key);
    }
  }

  /** The five groupings of the summary, built in one pass over the services. */
  method GroupServices(services: seq<Service>, base: string, rates: Rates)
    returns (monthlyTotal: real, byProvider: seq<Group>, byProject: seq<Group>, byCountry: seq<Group>,
             byType: seq<Group>, byCurrency: seq<CurrencyGroup>)
    requires Positive(rates)
    ensures monthlyTotal == Sum(Costs(services, base, rates))
    ensures byProvider == Grouped(EntriesBy(services, ProviderOf, base, rates))
    ensures byProject == Grouped(EntriesBy(services, ProjectOf, base, rates))
    ensures byCountry == Grouped(EntriesBy(services, CountryOf, base, rates))
    ensures byType == Grouped(EntriesBy(services, KindOf, base, rates))
    ensures Bases(byCurrency) == Grouped(EntriesBy(services, CurrencyOf, base, rates))
    ensures Originals(byCurrency) == Grouped(OriginalEntries(services))
  {
    hide Bump, Convert, MonthlyCost, BumpCurrency, Bases, Originals;
    monthlyTotal := 0.0;
    byProvider, byProject, byCountry, byType, byCurrency := [], [], [], [], [];
    EmptyProjections();
    for i := 0 to |services|
      invariant monthlyTotal == Sum(Costs(services[..i], base, rates))
      invariant byProvider == Grouped(EntriesBy(services[..i], ProviderOf, base, rates))
      invariant byProject == Grouped(EntriesBy(services[..i], ProjectOf, base, rates))
      invariant byCountry == Grouped(EntriesBy(services[..i], CountryOf, base, rates))
      invariant byType == Grouped(EntriesBy(services[..i], KindOf, base, rates))
      invariant Bases(byCurrency) == Grouped(EntriesBy(services[..i], CurrencyOf, base, rates))
      invariant Originals(byCurrency) == Grouped(OriginalEntries(services[..i]))
    {
      var s := services[i];
      var monthlyOrig := MonthlyCost(s.cost, s.period);
      var monthlyBase := Convert(monthlyOrig, s.currency, base, rates);
      monthlyTotal := monthlyTotal + monthlyBase;
      byProvider := Bump(byProvider, s.providerUuid, monthlyBase);
      byProject := Bump(byProject, s.projectUuid, monthlyBase);
      byCountry := Bump(byCountry, CountryOf(s), monthlyBase);
      byType := Bump(byType, s.kind, monthlyBase);
      BumpCurrencyIsTwoBumps(byCurrency, s.currency, monthlyOrig, monthlyBase);
      byCurrency := BumpCurrency(byCurrency, s.currency, monthlyOrig, monthlyBase);
      OneMoreCost(services, i, base, rates);
      OneMoreEntry(services, i, ProviderOf, base, rates);
      OneMoreEntry(services, i, ProjectOf, base, rates);
      OneMoreEntry(services, i, CountryOf, base, rates);
      OneMoreEntry(services, i, KindOf, base, rates);
      OneMoreEntry(services, i, CurrencyOf, base, rates);
      OneMoreOriginal(services, i);
    }
    assert services[..|services|] == services;
  }

  lemma EmptyProjections()
    ensures Bases([]) == [] && Originals([]) == []
  {
  }

  lemma OneMoreCost(services: seq<Service>, i: nat, base: string, rates: Rates)
    requires Positive(rates) && i < |services|
    ensures Sum(Costs(services[..i + 1], base, rates))
            == Sum(Costs(services[..i], base, rates)) + MonthlyBase(services[i], base, rates)
  {
    assert Costs(services[..i + 1], base, rates)[..i] == Costs(services[..i], base, rates);
  }

  lemma OneMoreEntry(services: seq<Service>, i: nat, keyOf: Service -> string, base: string, rates: Rates)
    requires Positive(rates) && i < |services|
    ensures Grouped(EntriesBy(services[..i + 1], keyOf, base, rates))
            == Bump(Grouped(EntriesBy(services[..i], keyOf, base, rates)), keyOf(services[i]),
                    MonthlyBase(services[i], base, rates))
  {
    hide Bump;
    assert EntriesBy(services[..i + 1], keyOf, base, rates)[..i] == EntriesBy(services[..i], keyOf, base, rates);
  }

  lemma OneMoreOriginal(services: seq<Service>, i: nat)
    requires i < |services|
    ensures Grouped(OriginalEntries(services[..i + 1]))
            == Bump(Grouped(OriginalEntries(services[..i])), services[i].currency,
                    MonthlyCost(services[i].cost, services[i].period))
  {
    hide Bump;
    assert OriginalEntries(services[..i + 1])[..i] == OriginalEntries(services[..i]);
  }

  /** Whatever services are grouped by, the groups add up to `monthlyTotal` and count every service. */
  lemma EveryGroupingAddsUp(services: seq<Service>, keyOf: Service -> string, base: string, rates: Rates)
    requires Positive(rates)
    ensures var groups := Grouped(EntriesBy(services, keyOf, base, rates));
            Sum(Monthlies(groups)) == Sum(Costs(services, base, rates)) && TotalCount(groups) == |services|
  {
    GroupsAddUp(EntriesBy(services, keyOf, base, rates));
    assert Amounts(EntriesBy(services, keyOf, base, rates)) == Costs(services, base, rates);
  }

  /** A currency's total in the base currency is the conversion of its total in its own. */
  lemma {:induction false} CurrencyTotalIsConverted(services: seq<Service>, key: string, base: string, rates: Rates)
    requires Positive(rates)
    ensures SumWhere(EntriesBy(services, CurrencyOf, base, rates), key)
            == Convert(SumWhere(OriginalEntries(services), key), key, base, rates)
  {
    hide Convert, MonthlyCost;
    var entries, originals := EntriesBy(services, CurrencyOf, base, rates), OriginalEntries(services);
    if services == [] {
      ConvertIsFactor(0.0, key, base, rates);
    } else {
      var n := |services| - 1;
      CurrencyTotalIsConverted(services[..n], key, base, rates);
      EntriesInit(services, CurrencyOf, base, rates);
      assert originals[..n] == OriginalEntries(services[..n]);
      hide EntriesBy, OriginalEntries;
      if services[n].currency == key {
        ConvertSubtracts(SumWhere(originals, key), originals[n].amount, key, base, rates);
      }
    }
  }

  lemma EntriesInit(services: seq<Service>, keyOf: Service -> string, base: string, rates: Rates)
    requires Positive(rates) && services != []
    ensures var n, entries := |services| - 1, EntriesBy(services, keyOf, base, rates);
            && entries[..n] == EntriesBy(services[..n], keyOf, base, rates)
            && entries[n] == Entry(keyOf(services[n]), MonthlyBase(services[n], base, rates))
  {
    hide MonthlyBase;
  }

  // ---------------------------------------------------------------- the tariff estimate of a month

  datatype TariffOptions = TariffOptions(
    respectCreatedAt: bool, backdateFromPayments: bool, firstPayment: map<string, int>)

  /** The first month a service is charged for: its creation, or its account's first payment. */
  function StartMonth(s: Service, opts: TariffOptions): (m: int)
    ensures m <= s.createdMonth
  {
    if opts.backdateFromPayments && s.accountUuid in opts.firstPayment
       && opts.firstPayment[s.accountUuid] < s.createdMonth
    then opts.firstPayment[s.accountUuid]
    else s.createdMonth
  }

  predicate Counts(s: Service, month: int, opts: TariffOptions) {
    opts.respectCreatedAt ==> StartMonth(s, opts) <= month
  }

  /** The running services of a month, at their tariffs. */
  function Tariff(services: seq<Service>, month: int, opts: TariffOptions, base: string, rates: Rates): real
    requires Positive(rates)
  {
    if services == [] then 0.0
    else
      var s := services[|services| - 1];
      Tariff(services[..|services| - 1], month, opts, base, rates)
      + if Counts(s, month, opts) then MonthlyBase(s, base, rates) else 0.0
  }

  method TariffForMonth(services: seq<Service>, month: int, opts: TariffOptions, base: string, rates: Rates)
    returns (total: real)
    requires Positive(rates)
    ensures total == Tariff(services, month, opts, base, rates)
  {
    hide MonthlyBase;
    total := 0.0;
    for i := 0 to |services|
      invariant total == Tariff(services[..i], month, opts, base, rates)
    {
      var s := services[i];
      assert services[..i + 1][..i] == services[..i];
      if opts.respectCreatedAt {
        var start := s.createdMonth;
        if opts.backdateFromPayments && s.accountUuid in opts.firstPayment {
          var paid := opts.firstPayment[s.accountUuid];
          if paid < start {
            start := paid;
          }
        }
        if start > month {
          continue;
        }
      }
      total := total + MonthlyBase(s, base, rates);
    }
    assert services[..|services|] == services;
  }

  /** Without the creation gate, or once every service has started, the estimate is the KPI card's total. */
  lemma {:induction false} FullTariffIsMonthlyTotal(services: seq<Service>, month: int, opts: TariffOptions,
                                                    base: string, rates: Rates)
    requires Positive(rates)
    requires forall i :: 0 <= i < |services| ==> Counts(services[i], month, opts)
    ensures Tariff(services, month, opts, base, rates) == Sum(Costs(services, base, rates))
  {
    hide MonthlyBase;
    if services != [] {
      var n := |services| - 1;
      FullTariffIsMonthlyTotal(services[..n], month, opts, base, rates);
      assert services[..n + 1] == services;
      OneMoreCost(services, n, base, rates);
    }
  }

  /** Estimates never fall from month to month, and backdating only ever adds to them. */
  lemma {:induction false} TariffGrows(services: seq<Service>, early: int, late: int, opts: TariffOptions,
                                       base: string, rates: Rates)
    requires Positive(rates) && early <= late
    requires forall i :: 0 <= i < |services| ==> services[i].cost >= 0.0
    ensures Tariff(services, early, opts, base, rates) <= Tariff(services, late, opts, base, rates)
    ensures Tariff(services, early, opts.(backdateFromPayments := false), base, rates)
            <= Tariff(services, early, opts, base, rates)
  {
    hide MonthlyBase;
    if services != [] {
      var n := |services| - 1;
      TariffGrows(services[..n], early, late, opts, base, rates);
      CostNotNegative(services[n], base, rates);
    }
  }

  lemma CostNotNegative(s: Service, base: string, rates: Rates)
    requires Positive(rates) && s.cost >= 0.0
    ensures MonthlyBase(s, base, rates) >= 0.0
  {
    hide Convert;
    ConvertKeepsSign(MonthlyCost(s.cost, s.period), s.currency, base, rates);
  }

  // ---------------------------------------------------------------- in terms of the services

  /** What a month costs: a year has twelve of them, a quarter three, and each has 730 hours. */
  lemma MonthlyCostIs(cost: real)
    ensures MonthlyCost(cost, Monthly) == cost
    ensures MonthlyCost(cost, Yearly) * 12.0 == cost && MonthlyCost(cost, Quarterly) * 3.0 == cost
    ensures MonthlyCost(cost, Hourly) == cost * 730.0 && MonthlyCost(cost, Daily) * 24.0 == cost * 730.0
    ensures MonthlyCost(cost, Onetime) == 0.0 && MonthlyCost(cost, OtherPeriod) == 0.0
  {
  }

  /** The monthly cost of the services that pass `only`, in the base currency. */
  ghost function Priced(only: Service -> bool, base: string, rates: Rates): Service -> real
    requires Positive(rates)
  {
    (s: Service) => if only(s) then Convert(MonthlyCost(s.cost, s.period), s.currency, base, rates) else 0.0
  }

  ghost function Counted(only: Service -> bool): Service -> real {
    (s: Service) => if only(s) then 1.0 else 0.0
  }

  ghost function Any(): Service -> bool {
    (s: Service) => true
  }

  ghost function With(keyOf: Service -> string, key: string): Service -> bool {
    (s: Service) => keyOf(s) == key
  }

  lemma {:induction false} CostsAreSum(services: seq<Service>, base: string, rates: Rates)
    requires Positive(rates)
    ensures Sum(Costs(services, base, rates)) == SumOver(services, Priced(Any(), base, rates))
  {
    hide Convert, MonthlyCost;
    if services != [] {
      var n := |services| - 1;
      CostsAreSum(services[..n], base, rates);
      assert services[..n + 1] == services;
      OneMoreCost(services, n, base, rates);
    }
  }

  lemma {:induction false} EntriesAreSum(services: seq<Service>, keyOf: Service -> string, key: string, base: string,
                                         rates: Rates)
    requires Positive(rates)
    ensures SumWhere(EntriesBy(services, keyOf, base, rates), key)
            == SumOver(services, Priced(With(keyOf, key), base, rates))
    ensures CountWhere(EntriesBy(services, keyOf, base, rates), key) as real
            == SumOver(services, Counted(With(keyOf, key)))
  {
    hide Convert, MonthlyCost;
    if services != [] {
      EntriesAreSum(services[..|services| - 1], keyOf, key, base, rates);
      EntriesInit(services, keyOf, base, rates);
    }
  }

  /**
   * Whatever services are grouped by: there is a group exactly for the keys that occur, one each,
   * with the sum of the monthly costs and the number of the services that have the key.
   */
  lemma {:induction false} GroupsAre(services: seq<Service>, keyOf: Service -> string, base: string, rates: Rates,
                                     key: string)
    requires Positive(rates)
    ensures var groups := Grouped(EntriesBy(services, keyOf, base, rates));
            && UniqueKeys(groups)
            && ((exists g :: g in groups && g.key == key) <==> (exists s :: s in services && keyOf(s) == key))
            && forall g :: g in groups && g.key == key ==>
                 && g.monthly == SumOver(services, Priced(With(keyOf, key), base, rates))
                 && g.count as real == SumOver(services, Counted(With(keyOf, key)))
  {
    hide SumOver, SumWhere, CountWhere, MonthlyBase, Grouped;
    var entries := EntriesBy(services, keyOf, base, rates);
    var groups := Grouped(entries);
    GroupedRepresents(entries);
    EntriesAreSum(services, keyOf, key, base, rates);
    if s :| s in services && keyOf(s) == key {
      var i :| 0 <= i < |services| && services[i] == s;
      assert entries[i].key == key && groups[Find(groups, key)].key == key;
    }
    if g :| g in groups && g.key == key {
      var j := EntryOfKey(entries, key);
      assert services[j] in services;
    }
  }

  lemma {:induction false} EntryOfKey(entries: seq<Entry>, key: string) returns (j: nat)
    requires CountWhere(entries, key) > 0
    ensures j < |entries| && entries[j].key == key
  {
    j := |entries| - 1;
    if entries[j].key != key {
      j := EntryOfKey(entries[..j], key);
    }
  }

  /** What the five groupings go by; a service without a country counts under XX. */
  lemma KeysAre(s: Service)
    ensures ProviderOf(s) == s.providerUuid && ProjectOf(s) == s.projectUuid && KindOf(s) == s.kind
    ensures CurrencyOf(s) == s.currency && Some(CountryOf(s)) == if s.countryCode == None then Some("XX")
        else s.countryCode
  {
  }

  /** The service runs in the month, as far as the options ask. */
  predicate Started(s: Service, month: int, opts: TariffOptions) {
    || !opts.respectCreatedAt
    || s.createdMonth <= month
    || (opts.backdateFromPayments && s.accountUuid in opts.firstPayment && opts.firstPayment[s.accountUuid] <= month)
  }

  ghost function StartedBy(month: int, opts: TariffOptions): Service -> bool {
    (s: Service) => Started(s, month, opts)
  }

  /** The estimate of a month is the monthly cost of the services that have started by then. */
  lemma {:induction false} TariffIsSum(services: seq<Service>, month: int, opts: TariffOptions, base: string,
                                       rates: Rates)
    requires Positive(rates)
    ensures Tariff(services, month, opts, base, rates) == SumOver(services, Priced(StartedBy(month, opts), base, rates))
  {
    hide Convert, MonthlyCost;
    if services != [] {
      TariffIsSum(services[..|services| - 1], month, opts, base, rates);
    }
  }
}
