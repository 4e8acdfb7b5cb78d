/**
 * Which upcoming charges the account balances cover, and what to top up
 * (apps/backend/src/analytics/analytics.service.ts, `summary`). Two running balances per account
 * go down one date-sorted list of charges: in the base currency, and in the account's own.
 */
module Coverage {
  import opened Prelude
  import opened Sums
  import opened Currency

  datatype Account = Account(uuid: string, balance: Option<real>, balanceCurrency: Option<string>, isPostpaid: bool)

  /** A dated service within the horizon. */
  datatype Upcoming = Upcoming(serviceUuid: string, accountUuid: string, cost: real, currency: string, date: int)

  datatype Severity = Critical | Warning | Ok

  /** `covered` is None when the panel sees no prepaid balance. */
  datatype Line = Line(serviceUuid: string, accountUuid: string, covered: Option<bool>, severity: Severity)

  datatype TopUp = TopUp(accountUuid: string, amount: real, currency: string)

  /** A currency that is neither missing nor empty. */
  predicate Named(currency: Option<string>) {
    currency.Some? && currency.value != ""
  }

  predicate HasPrepaid(a: Account) {
    a.balance.Some? && Named(a.balanceCurrency) && !a.isPostpaid
  }

  function FindAccount(accounts: seq<Account>, uuid: string): (a: Option<Account>)
    ensures a.Some? ==> a.value in accounts && a.value.uuid == uuid
  {
    if accounts == [] then None
    else if accounts[|accounts| - 1].uuid == uuid then Some(accounts[|accounts| - 1])
    else FindAccount(accounts[..|accounts| - 1], uuid)
  }

  /** What the charges of one account add up to, in the currency `to`. */
  function Spent(charges: seq<Upcoming>, account: string, to: string, rates: Rates): real
    requires Positive(rates)
  {
    if charges == [] then 0.0
    else
      var c := charges[|charges| - 1];
      Spent(charges[..|charges| - 1], account, to, rates)
      + if c.accountUuid == account then Convert(c.cost, c.currency, to, rates) else 0.0
  }

  /** The prepaid balance left after `charges`, in the base currency. */
  function BaseLeft(a: Account, charges: seq<Upcoming>, base: string, rates: Rates): Option<real>
    requires Positive(rates)
  {
    if HasPrepaid(a) then
      Some(Convert(a.balance.value, a.balanceCurrency.value, base, rates) - Spent(charges, a.uuid, base, rates))
    else None
  }

  /** The same in the account's own currency. */
  function NativeLeft(a: Account, charges: seq<Upcoming>, rates: Rates): Option<real>
    requires Positive(rates)
  {
    if HasPrepaid(a) then Some(a.balance.value - Spent(charges, a.uuid, a.balanceCurrency.value, rates)) else None
  }

  function DaysUntil(now: int, date: int): nat {
    Max(0, date / MS_PER_DAY - now / MS_PER_DAY)
  }

  // ---------------------------------------------------------------- which list a dated service is on

  const HORIZON_DAYS: int := 14

  /** Whole UTC days past due; none for a service dated today or later, or not at all. */
  function OverdueDays(nextBillingAt: Option<int>, now: int): (n: Option<int>)
    ensures n.Some? <==> nextBillingAt.Some? && nextBillingAt.value / MS_PER_DAY < now / MS_PER_DAY
    ensures n.Some? ==> n.value >= 1 && (nextBillingAt.value / MS_PER_DAY + n.value) == now / MS_PER_DAY
  {
    var today := now / MS_PER_DAY;
    if nextBillingAt.Some? && nextBillingAt.value < today * MS_PER_DAY then
      Some(today - nextBillingAt.value / MS_PER_DAY)
    else None
  }

  /** The filter in front of the coverage simulation. */
  predicate IsUpcoming(nextBillingAt: Option<int>, metered: bool, now: int) {
    && nextBillingAt.Some? && !metered
    && OverdueDays(nextBillingAt, now).None?
    && nextBillingAt.value < now + HORIZON_DAYS * MS_PER_DAY
  }

  predicate IsOverdue(nextBillingAt: Option<int>, metered: bool, now: int) {
    !metered && OverdueDays(nextBillingAt, now).Some?
  }

  /**
   * The two lists share out the dated services that are not metered, with no gap up to the horizon
   * and no overlap, and an upcoming charge is at most the horizon's number of days away.
   */
  lemma ListsPartition(at: int, metered: bool, now: int)
    ensures IsUpcoming(Some(at), metered, now) || IsOverdue(Some(at), metered, now)
            <==> !metered && at < now + 14 * MS_PER_DAY
    ensures !(IsUpcoming(Some(at), metered, now) && IsOverdue(Some(at), metered, now))
    ensures IsUpcoming(Some(at), metered, now) ==>
              DaysUntil(now, at) == at / MS_PER_DAY - now / MS_PER_DAY <= 14
  {
  }

  function ChargeSeverity(covered: Option<bool>, daysUntil: nat, isPostpaid: bool): Severity {
    if covered == Some(false) && daysUntil <= 7 then Critical
    else if covered == None && !isPostpaid && daysUntil <= 7 then Critical
    else if covered == Some(false) || daysUntil <= 3 then Warning
    else Ok
  }

  /** Whether an account with `before` already charged covers one more charge. */
  function CoveredBy(a: Option<Account>, before: seq<Upcoming>, c: Upcoming, base: string, rates: Rates): Option<bool>
    requires Positive(rates)
  {
    if a.Some? && HasPrepaid(a.value) then
      Some(BaseLeft(a.value, before, base, rates).value >= Convert(c.cost, c.currency, base, rates))
    else None
  }

  function LineOf(accounts: seq<Account>, before: seq<Upcoming>, c: Upcoming, base: string, rates: Rates,
                  now: int): Line
    requires Positive(rates)
  {
    var a := FindAccount(accounts, c.accountUuid);
    var covered := CoveredBy(a, before, c, base, rates);
    Line(c.serviceUuid, c.accountUuid, covered,
         ChargeSeverity(covered, DaysUntil(now, c.date), a.Some? && a.value.isPostpaid))
  }

  // ---------------------------------------------------------------- the simulation

  type Balances = map<string, Option<real>>

  /** Both running balances are what the charges so far leave of every account. */
  ghost predicate Tracks(accounts: seq<Account>, charges: seq<Upcoming>, base: string, rates: Rates,
                         running: Balances, native: Balances)
    requires Positive(rates)
  {
    forall uuid: string :: TracksAccount(FindAccount(accounts, uuid), uuid, charges, base, rates, running, native)
  }

  ghost predicate TracksAccount(a: Option<Account>, uuid: string, charges: seq<Upcoming>, base: string, rates: Rates,
                                running: Balances, native: Balances)
    requires Positive(rates)
  {
    && (uuid in running <==> a.Some?) && (uuid in native <==> a.Some?)
    && (a.Some? ==> running[uuid] == BaseLeft(a.value, charges, base, rates)
                    && native[uuid] == NativeLeft(a.value, charges, rates))
  }

  method OpeningBalances(accounts: seq<Account>, base: string, rates: Rates)
    returns (running: Balances, native: Balances)
    requires Positive(rates)
    ensures Tracks(accounts, [], base, rates, running, native)
  {
    hide Convert;
    running, native := map[], map[];
    for i := 0 to |accounts|
      invariant Tracks(accounts[..i], [], base, rates, running, native)
    {
      var a := accounts[i];
      ghost var upTo := accounts[..i + 1];
      assert upTo[..i] == accounts[..i];
      var hasPrepaid := HasPrepaid(a);
      ghost var before := (running, native);
      running := running[a.uuid :=
        if hasPrepaid then Some(Convert(a.balance.value, a.balanceCurrency.value, base, rates)) else None];
      native := native[a.uuid := if hasPrepaid then Some(a.balance.value) else None];
      forall uuid: string
        ensures TracksAccount(FindAccount(upTo, uuid), uuid, [], base, rates, running, native)
      {
        assert TracksAccount(FindAccount(accounts[..i], uuid), uuid, [], base, rates, before.0, before.1);
      }
    }
    assert accounts[..|accounts|] == accounts;
  }

  /** One charge in date order: is it covered, and what is left after it. */
  method ChargeOne(accounts: seq<Account>, ghost before: seq<Upcoming>, c: Upcoming, base: string, rates: Rates,
                   running: Balances, native: Balances, now: int)
    returns (line: Line, running': Balances, native': Balances)
    requires Positive(rates) && Tracks(accounts, before, base, rates, running, native)
    ensures line == LineOf(accounts, before, c, base, rates, now)
    ensures Tracks(accounts, before + [c], base, rates, running', native')
  {
    hide Convert, FindAccount;
    running', native' := running, native;
    var costBase := Convert(c.cost, c.currency, base, rates);
    var account := FindAccount(accounts, c.accountUuid);
    assert TracksAccount(account, c.accountUuid, before, base, rates, running, native);
    var bal := if c.accountUuid in running then running[c.accountUuid] else None;
    var covered: Option<bool>;
    if bal.None? {
      covered := None;
    } else {
      covered := Some(bal.value >= costBase);
      running' := running[c.accountUuid := Some(bal.value - costBase)];
      if c.accountUuid in native && native[c.accountUuid].Some? && account.Some?
         && Named(account.value.balanceCurrency) {
        var costNative := Convert(c.cost, c.currency, account.value.balanceCurrency.value, rates);
        native' := native[c.accountUuid := Some(native[c.accountUuid].value - costNative)];
      }
    }
    var isPostpaid := account.Some? && account.value.isPostpaid;
    line := Line(c.serviceUuid, c.accountUuid, covered, ChargeSeverity(covered, DaysUntil(now, c.date), isPostpaid));
    assert (before + [c])[..|before|] == before;
    forall uuid: string
      ensures TracksAccount(FindAccount(accounts, uuid), uuid, before + [c], base, rates, running', native')
    {
      assert TracksAccount(FindAccount(accounts, uuid), uuid, before, base, rates, running, native);
    }
  }

  method Simulate(accounts: seq<Account>, upcoming: seq<Upcoming>, base: string, rates: Rates, now: int)
    returns (lines: seq<Line>, running: Balances, native: Balances)
    requires Positive(rates)
    ensures |lines| == |upcoming|
    ensures forall i :: 0 <= i < |lines| ==> lines[i] == LineOf(accounts, upcoming[..i], upcoming[i], base, rates, now)
    ensures Tracks(accounts, upcoming, base, rates, running, native)
  {
    hide LineOf, Tracks;
    running, native := OpeningBalances(accounts, base, rates);
    lines := [];
    for i := 0 to |upcoming|
      invariant |lines| == i
      invariant forall k :: 0 <= k < i ==> lines[k] == LineOf(accounts, upcoming[..k], upcoming[k], base, rates, now)
      invariant Tracks(accounts, upcoming[..i], base, rates, running, native)
    {
      var line;
      line, running, native := ChargeOne(accounts, upcoming[..i], upcoming[i], base, rates, running, native, now);
      lines := lines + [line];
      assert upcoming[..i] + [upcoming[i]] == upcoming[..i + 1];
    }
    assert upcoming[..|upcoming|] == upcoming;
  }

  // ---------------------------------------------------------------- top-ups

  /** The accounts with at least one critical line. */
  predicate HasCritical(lines: seq<Line>, uuid: string) {
    exists i :: 0 <= i < |lines| && lines[i].severity == Critical && lines[i].accountUuid == uuid
  }

  /** The shortfall of an account that has a critical line. */
  function TopUpOf(a: Account, critical: bool, left: Option<real>): Option<TopUp> {
    if critical && Named(a.balanceCurrency) && left.Some? && left.value < 0.0 then
      Some(TopUp(a.uuid, Abs(left.value), a.balanceCurrency.value))
    else None
  }

  function TopUpsOf(accounts: seq<Account>, all: seq<Account>, lines: seq<Line>, charges: seq<Upcoming>,
                    rates: Rates): seq<TopUp>
    requires Positive(rates)
  {
    if accounts == [] then []
    else
      var a := accounts[|accounts| - 1];
      var owner := FindAccount(all, a.uuid);
      var left := if owner.Some? then NativeLeft(owner.value, charges, rates) else None;
      var topUp := TopUpOf(a, HasCritical(lines, a.uuid), left);
      TopUpsOf(accounts[..|accounts| - 1], all, lines, charges, rates) + if topUp.Some? then [topUp.value] else []
  }

  method TopUps(accounts: seq<Account>, lines: seq<Line>, native: Balances,
                ghost charges: seq<Upcoming>, ghost base: string, ghost running: Balances, ghost rates: Rates)
    returns (topUps: seq<TopUp>)
    requires Positive(rates) && Tracks(accounts, charges, base, rates, running, native)
    ensures topUps == TopUpsOf(accounts, accounts, lines, charges, rates)
  {
    hide NativeLeft, BaseLeft, FindAccount;
    var critical := set i | 0 <= i < |lines| && lines[i].severity == Critical :: lines[i].accountUuid;
    topUps := [];
    for i := 0 to |accounts|
      invariant topUps == TopUpsOf(accounts[..i], accounts, lines, charges, rates)
    {
      var a := accounts[i];
      assert accounts[..i + 1][..i] == accounts[..i];
      assert a.uuid in critical <==> HasCritical(lines, a.uuid);
      assert TracksAccount(FindAccount(accounts, a.uuid), a.uuid, charges, base, rates, running, native);
      if a.uuid !in critical || !Named(a.balanceCurrency) {
        continue;
      }
      var left := if a.uuid in native then native[a.uuid] else None;
      if left.None? || left.value >= 0.0 {
        continue;
      }
      topUps := topUps + [TopUp(a.uuid, Abs(left.value), a.balanceCurrency.value)];
    }
    assert accounts[..|accounts|] == accounts;
  }

  // ---------------------------------------------------------------- the two balances agree

  /** No charge of the account goes through a half-known triangle of currencies. */
  ghost predicate Convertible(a: Account, charges: seq<Upcoming>, base: string, rates: Rates) {
    Named(a.balanceCurrency) && forall i :: 0 <= i < |charges| && charges[i].accountUuid == a.uuid ==>
      !HalfKnown(charges[i].currency, a.balanceCurrency.value, base, rates)
  }

  /** The base running balance is the conversion of the native one, all along the list. */
  lemma {:induction false} BaseTracksNative(a: Account, charges: seq<Upcoming>, base: string, rates: Rates)
    requires Positive(rates) && HasPrepaid(a) && Convertible(a, charges, base, rates)
    ensures BaseLeft(a, charges, base, rates).value
            == Convert(NativeLeft(a, charges, rates).value, a.balanceCurrency.value, base, rates)
  {
    hide Convert, HalfKnown;
    if charges != [] {
      var n := |charges| - 1;
      var c, native := charges[n], a.balanceCurrency.value;
      assert forall i :: 0 <= i < n ==> charges[..n][i] == charges[i];
      BaseTracksNative(a, charges[..n], base, rates);
      if c.accountUuid == a.uuid {
        var costNative := Convert(c.cost, c.currency, native, rates);
        TriangleIff(c.cost, c.currency, native, base, rates);
        ConvertSubtracts(NativeLeft(a, charges[..n], rates).value, costNative, native, base, rates);
      }
    }
  }

  // ---------------------------------------------------------------- the least top-up

  predicate NonNegative(charges: seq<Upcoming>) {
    forall i :: 0 <= i < |charges| ==> charges[i].cost >= 0.0
  }

  /** Every charge of the account is covered when its turn comes. */
  predicate AllCovered(a: Account, charges: seq<Upcoming>, base: string, rates: Rates)
    requires Positive(rates)
  {
    forall i :: 0 <= i < |charges| && charges[i].accountUuid == a.uuid ==>
      CoveredBy(Some(a), charges[..i], charges[i], base, rates) == Some(true)
  }

  predicate HasCharge(charges: seq<Upcoming>, uuid: string) {
    exists i :: 0 <= i < |charges| && charges[i].accountUuid == uuid
  }

  lemma {:induction false} AllCoveredIffSolvent(a: Account, charges: seq<Upcoming>, base: string, rates: Rates)
    requires Positive(rates) && HasPrepaid(a) && NonNegative(charges) && HasCharge(charges, a.uuid)
    ensures AllCovered(a, charges, base, rates) <==> BaseLeft(a, charges, base, rates).value >= 0.0
  {
    hide Convert;
    var n := |charges| - 1;
    var init, c := charges[..n], charges[n];
    AllCoveredSplits(a, charges, base, rates);
    ConvertKeepsSign(c.cost, c.currency, base, rates);
    assert forall i :: 0 <= i < n ==> init[i] == charges[i];
    if HasCharge(init, a.uuid) {
      hide AllCovered;
      AllCoveredIffSolvent(a, init, base, rates);
    } else {
      assert AllCovered(a, init, base, rates);
    }
  }

  lemma AllCoveredSplits(a: Account, charges: seq<Upcoming>, base: string, rates: Rates)
    requires Positive(rates) && charges != []
    ensures var n := |charges| - 1;
            AllCovered(a, charges, base, rates)
            <==> AllCovered(a, charges[..n], base, rates)
                 && (charges[n].accountUuid == a.uuid
                     ==> CoveredBy(Some(a), charges[..n], charges[n], base, rates) == Some(true))
  {
    hide CoveredBy;
    var n := |charges| - 1;
    assert forall i :: 0 <= i < n ==> charges[..n][i] == charges[i] && charges[..n][..i] == charges[..i];
  }

  /** Once a charge of an account is uncovered, all its later ones are. */
  lemma {:induction false} UncoveredStaysUncovered(a: Account, charges: seq<Upcoming>, i: nat, j: nat,
                                                   base: string, rates: Rates)
    requires Positive(rates) && NonNegative(charges) && i <= j < |charges|
    requires charges[i].accountUuid == a.uuid && charges[j].accountUuid == a.uuid
    requires CoveredBy(Some(a), charges[..i], charges[i], base, rates) == Some(false)
    ensures CoveredBy(Some(a), charges[..j], charges[j], base, rates) == Some(false)
  {
    hide Convert;
    ConvertKeepsSign(charges[j].cost, charges[j].currency, base, rates);
    if i < j {
      assert charges[..i + 1][..i] == charges[..i];
      SpentGrows(a, charges, i + 1, j, base, rates);
    }
  }

  lemma {:induction false} SpentGrows(a: Account, charges: seq<Upcoming>, i: nat, j: nat, to: string, rates: Rates)
    requires Positive(rates) && NonNegative(charges) && i <= j <= |charges|
    ensures Spent(charges[..i], a.uuid, to, rates) <= Spent(charges[..j], a.uuid, to, rates)
    decreases j - i
  {
    hide Convert;
    if i < j {
      SpentGrows(a, charges, i, j - 1, to, rates);
      assert charges[..j][..j - 1] == charges[..j - 1];
      ConvertKeepsSign(charges[j - 1].cost, charges[j - 1].currency, to, rates);
    }
  }

  function ToppedUp(a: Account, amount: real): Account
    requires a.balance.Some?
  {
    a.(balance := Some(a.balance.value + amount))
  }

  /** The charges add up to the same in both currencies. */
  predicate SameInBoth(a: Account, charges: seq<Upcoming>, base: string, rates: Rates)
    requires Positive(rates) && HasPrepaid(a)
  {
    var native := a.balanceCurrency.value;
    Spent(charges, a.uuid, base, rates) == Convert(Spent(charges, a.uuid, native, rates), native, base, rates)
  }

  predicate Enough(balance: real, amount: real, f: real, needed: real) {
    (balance + amount) * f >= needed
  }

  lemma {:induction false} CoveredWith(a: Account, charges: seq<Upcoming>, base: string, rates: Rates, amount: real)
    requires Positive(rates) && HasPrepaid(a) && NonNegative(charges) && HasCharge(charges, a.uuid)
    ensures AllCovered(ToppedUp(a, amount), charges, base, rates)
            <==> Enough(a.balance.value, amount, Factor(a.balanceCurrency.value, base, rates),
                        Spent(charges, a.uuid, base, rates))
  {
    hide Convert, AllCovered, NonNegative, HasCharge, Factor;
    var funded := ToppedUp(a, amount);
    AllCoveredIffSolvent(funded, charges, base, rates);
    ConvertIsFactor(funded.balance.value, a.balanceCurrency.value, base, rates);
  }

  lemma EnoughFrom(balance: real, amount: real, f: real, needed: real, total: real)
    requires f > 0.0 && needed == total * f
    ensures Enough(balance, amount, f, needed) <==> amount >= total - balance
  {
    SignOfProduct(balance + amount - total, f);
    assert (balance + amount - total) * f == (balance + amount) * f - total * f;
  }

  /** Any other threshold is wrong for some amount. */
  lemma NotEnoughFrom(balance: real, f: real, needed: real, total: real) returns (amount: real)
    requires f > 0.0 && needed != total * f
    ensures !(Enough(balance, amount, f, needed) <==> amount >= total - balance)
  {
    if total * f < needed {
      amount := total - balance;
      assert balance + amount == total;
    } else {
      var q := needed / f;
      amount := q - balance;
      assert balance + amount == q && q * f == needed;
      EnoughFrom(balance, amount, f, needed, q);
      SignOfProduct(q - total, f);
      assert (q - total) * f == needed - total * f;
    }
  }

  /**
   * The native shortfall is exactly what must be added (no less will do, and that much does) if
   * and only if the charges add up to the same in both currencies.
   */
  lemma ShortfallIsLeastIff(a: Account, charges: seq<Upcoming>, base: string, rates: Rates)
    requires Positive(rates) && HasPrepaid(a) && NonNegative(charges) && HasCharge(charges, a.uuid)
    ensures SameInBoth(a, charges, base, rates)
            <==> forall amount: real :: AllCovered(ToppedUp(a, amount), charges, base, rates)
                                        <==> amount >= -NativeLeft(a, charges, rates).value
  {
    hide Convert, AllCovered, NonNegative, HasCharge, Factor, Spent, Enough;
    var native, b := a.balanceCurrency.value, a.balance.value;
    var f := Factor(native, base, rates);
    var needed, total := Spent(charges, a.uuid, base, rates), Spent(charges, a.uuid, native, rates);
    ConvertIsFactor(total, native, base, rates);
    forall amount: real
      ensures AllCovered(ToppedUp(a, amount), charges, base, rates) <==> Enough(b, amount, f, needed)
    {
      CoveredWith(a, charges, base, rates, amount);
    }
    if needed == total * f {
      forall amount: real
        ensures AllCovered(ToppedUp(a, amount), charges, base, rates) <==> amount >= total - b
      {
        EnoughFrom(b, amount, f, needed, total);
      }
    } else {
      var amount := NotEnoughFrom(b, f, needed, total);
      assert AllCovered(ToppedUp(a, amount), charges, base, rates) <==> Enough(b, amount, f, needed);
    }
  }

  /** They do as long as no charge goes through a half-known triangle. */
  lemma ConvertibleIsSame(a: Account, charges: seq<Upcoming>, base: string, rates: Rates)
    requires Positive(rates) && HasPrepaid(a) && Convertible(a, charges, base, rates)
    ensures SameInBoth(a, charges, base, rates)
  {
    hide Convert, Convertible;
    var native := a.balanceCurrency.value;
    BaseTracksNative(a, charges, base, rates);
    ConvertSubtracts(a.balance.value, Spent(charges, a.uuid, native, rates), native, base, rates);
  }

  /** Then what must be added is exactly the native shortfall. */
  lemma LeastTopUp(a: Account, charges: seq<Upcoming>, base: string, rates: Rates, amount: real)
    requires Positive(rates) && HasPrepaid(a) && NonNegative(charges) && HasCharge(charges, a.uuid)
    requires Convertible(a, charges, base, rates)
    ensures AllCovered(ToppedUp(a, amount), charges, base, rates)
            <==> amount >= -NativeLeft(a, charges, rates).value
  {
    hide AllCovered, NonNegative, HasCharge, SameInBoth, Convertible, NativeLeft;
    ConvertibleIsSame(a, charges, base, rates);
    ShortfallIsLeastIff(a, charges, base, rates);
  }

  ghost predicate AreLines(lines: seq<Line>, accounts: seq<Account>, charges: seq<Upcoming>,
                           base: string, rates: Rates, now: int)
    requires Positive(rates)
  {
    |lines| == |charges|
    && forall i :: 0 <= i < |lines| ==> lines[i] == LineOf(accounts, charges[..i], charges[i], base, rates, now)
  }

  ghost predicate Distinct(accounts: seq<Account>) {
    forall i, j :: 0 <= i < j < |accounts| ==> accounts[i].uuid != accounts[j].uuid
  }

  lemma {:induction false} FindsEach(accounts: seq<Account>, i: nat)
    requires Distinct(accounts) && i < |accounts|
    ensures FindAccount(accounts, accounts[i].uuid) == Some(accounts[i])
  {
    var n := |accounts| - 1;
    if i < n {
      assert accounts[i].uuid != accounts[n].uuid;
      FindsEach(accounts[..n], i);
    }
  }

  lemma {:induction false} TopUpComesFrom(accounts: seq<Account>, all: seq<Account>, lines: seq<Line>,
                                          charges: seq<Upcoming>, rates: Rates, t: TopUp) returns (i: nat)
    requires Positive(rates) && t in TopUpsOf(accounts, all, lines, charges, rates)
    ensures i < |accounts| && HasCritical(lines, accounts[i].uuid)
    ensures var a := FindAccount(all, accounts[i].uuid);
            a.Some? && Some(t) == TopUpOf(accounts[i], true, NativeLeft(a.value, charges, rates))
  {
    hide HasCritical, NativeLeft;
    var n := |accounts| - 1;
    if t in TopUpsOf(accounts[..n], all, lines, charges, rates) {
      i := TopUpComesFrom(accounts[..n], all, lines, charges, rates, t);
    } else {
      i := n;
    }
  }

  /**
   * A suggestion is for an account that leaves a charge uncovered. It is the least top-up, in the
   * account's currency, that makes all listed charges of that account covered if and only if they
   * add up to the same in both currencies.
   */
  lemma SuggestionIsLeastIff(accounts: seq<Account>, charges: seq<Upcoming>, lines: seq<Line>,
                             base: string, rates: Rates, now: int, t: TopUp) returns (a: Account)
    requires Positive(rates) && Distinct(accounts) && NonNegative(charges)
    requires AreLines(lines, accounts, charges, base, rates, now)
    requires t in TopUpsOf(accounts, accounts, lines, charges, rates)
    ensures a in accounts && HasPrepaid(a) && t.accountUuid == a.uuid && Some(t.currency) == a.balanceCurrency
    ensures !AllCovered(a, charges, base, rates)
    ensures SameInBoth(a, charges, base, rates)
            <==> forall amount: real :: AllCovered(ToppedUp(a, amount), charges, base, rates) <==> amount >= t.amount
    ensures Convertible(a, charges, base, rates) ==> SameInBoth(a, charges, base, rates)
  {
    hide AllCovered, Convertible, SameInBoth, Convert, Spent, DaysUntil;
    var i := TopUpComesFrom(accounts, accounts, lines, charges, rates, t);
    a := accounts[i];
    FindsEach(accounts, i);
    var k :| 0 <= k < |lines| && lines[k].severity == Critical && lines[k].accountUuid == a.uuid;
    assert charges[k].accountUuid == a.uuid;
    UncoveredMeansNotAll(a, charges, k, base, rates);
    ShortfallIsLeastIff(a, charges, base, rates);
    assert t.amount == -NativeLeft(a, charges, rates).value;
    if Convertible(a, charges, base, rates) {
      ConvertibleIsSame(a, charges, base, rates);
    }
  }

  lemma {:induction false} TopUpListed(accounts: seq<Account>, all: seq<Account>, lines: seq<Line>,
                                       charges: seq<Upcoming>, rates: Rates, i: nat)
    requires Positive(rates) && i < |accounts|
    ensures var a, owner := accounts[i], FindAccount(all, accounts[i].uuid);
            var left := if owner.Some? then NativeLeft(owner.value, charges, rates) else None;
            var topUp := TopUpOf(a, HasCritical(lines, a.uuid), left);
            topUp.Some? ==> topUp.value in TopUpsOf(accounts, all, lines, charges, rates)
  {
    hide HasCritical, NativeLeft, TopUpOf, FindAccount;
    if i < |accounts| - 1 {
      TopUpListed(accounts[..|accounts| - 1], all, lines, charges, rates, i);
    }
  }

  /**
   * An uncovered charge due within a week leads to a suggestion exactly when the charges exceed the
   * balance also in the account's own currency.
   */
  lemma {:induction false} ShortfallIsSuggestedIff(accounts: seq<Account>, charges: seq<Upcoming>, lines: seq<Line>,
                                base: string, rates: Rates, now: int, i: nat, k: nat)
    requires Positive(rates) && Distinct(accounts)
    requires AreLines(lines, accounts, charges, base, rates, now)
    requires i < |accounts| && k < |lines| && charges[k].accountUuid == accounts[i].uuid
    requires lines[k].covered == Some(false) && DaysUntil(now, charges[k].date) <= 7
    ensures HasPrepaid(accounts[i])
    ensures (exists t :: t in TopUpsOf(accounts, accounts, lines, charges, rates) && t.accountUuid == accounts[i].uuid)
            <==> Spent(charges, accounts[i].uuid, accounts[i].balanceCurrency.value, rates) > accounts[i].balance.value
  {
    hide Convert, Spent, DaysUntil, TopUpsOf;
    var a := accounts[i];
    FindsEach(accounts, i);
    assert lines[k].severity == Critical && HasPrepaid(a);
    TopUpListed(accounts, accounts, lines, charges, rates, i);
    if t :| t in TopUpsOf(accounts, accounts, lines, charges, rates) && t.accountUuid == a.uuid {
      var j := TopUpComesFrom(accounts, accounts, lines, charges, rates, t);
      assert j == i;
    }
    if Spent(charges, a.uuid, a.balanceCurrency.value, rates) > a.balance.value {
      var topUp := TopUpOf(a, HasCritical(lines, a.uuid), NativeLeft(a, charges, rates));
      assert topUp.value.accountUuid == a.uuid;
    }
  }

  /** They do as long as no charge of the account goes through a half-known triangle. */
  lemma {:induction false} ShortfallIsSuggested(accounts: seq<Account>, charges: seq<Upcoming>, lines: seq<Line>,
                             base: string, rates: Rates, now: int, i: nat, k: nat)
    requires Positive(rates) && Distinct(accounts) && NonNegative(charges)
    requires AreLines(lines, accounts, charges, base, rates, now)
    requires i < |accounts| && k < |lines| && charges[k].accountUuid == accounts[i].uuid
    requires lines[k].covered == Some(false) && DaysUntil(now, charges[k].date) <= 7
    requires Named(accounts[i].balanceCurrency) ==> Convertible(accounts[i], charges, base, rates)
    ensures exists t :: t in TopUpsOf(accounts, accounts, lines, charges, rates) && t.accountUuid == accounts[i].uuid
  {
    hide AllCovered, Convertible, Convert, Spent, DaysUntil, TopUpsOf;
    var a := accounts[i];
    FindsEach(accounts, i);
    ShortfallIsSuggestedIff(accounts, charges, lines, base, rates, now, i, k);
    UncoveredMeansNotAll(a, charges, k, base, rates);
    assert ToppedUp(a, 0.0) == a;
    LeastTopUp(a, charges, base, rates, 0.0);
  }

  lemma UncoveredMeansNotAll(a: Account, charges: seq<Upcoming>, k: nat, base: string, rates: Rates)
    requires Positive(rates) && k < |charges| && charges[k].accountUuid == a.uuid
    requires CoveredBy(Some(a), charges[..k], charges[k], base, rates) == Some(false)
    ensures !AllCovered(a, charges, base, rates)
  {
    hide CoveredBy;
  }

  // ---------------------------------------------------------------- accounts do not disturb each other

  /** The charges of one account, in their order. */
  function Own(charges: seq<Upcoming>, uuid: string): seq<Upcoming> {
    if charges == [] then []
    else
      var c := charges[|charges| - 1];
      Own(charges[..|charges| - 1], uuid) + if c.accountUuid == uuid then [c] else []
  }

  lemma {:induction false} SpentOnOwn(charges: seq<Upcoming>, uuid: string, to: string, rates: Rates)
    requires Positive(rates)
    ensures Spent(Own(charges, uuid), uuid, to, rates) == Spent(charges, uuid, to, rates)
  {
    hide Convert;
    if charges != [] {
      var n := |charges| - 1;
      SpentOnOwn(charges[..n], uuid, to, rates);
      if charges[n].accountUuid == uuid {
        assert Own(charges, uuid)[..|Own(charges, uuid)| - 1] == Own(charges[..n], uuid);
      } else {
        assert Own(charges, uuid) == Own(charges[..n], uuid);
      }
    }
  }

  /** However the accounts interleave, only the account's own earlier charges count. */
  lemma {:induction false} InterleavingDoesNotMatter(a: Account, one: seq<Upcoming>, other: seq<Upcoming>, c: Upcoming,
                                  base: string, rates: Rates)
    requires Positive(rates) && Own(one, a.uuid) == Own(other, a.uuid)
    ensures CoveredBy(Some(a), one, c, base, rates) == CoveredBy(Some(a), other, c, base, rates)
    ensures NativeLeft(a, one, rates) == NativeLeft(a, other, rates)
  {
    hide Convert, Own, Spent;
    SpentOnOwn(one, a.uuid, base, rates);
    SpentOnOwn(other, a.uuid, base, rates);
    if HasPrepaid(a) {
      SpentOnOwn(one, a.uuid, a.balanceCurrency.value, rates);
      SpentOnOwn(other, a.uuid, a.balanceCurrency.value, rates);
    }
  }

  /**
   * Where a currency has no rate the two balances part: here the charge is flagged as uncovered
   * and critical, and yet no top-up is suggested.
   */
  lemma {:induction false} MissingRateHidesShortfall(rates: Rates, a: Account, c: Upcoming)
    requires rates == map["RUB" := 1.0, "USD" := 90.0]
    requires a == Account("a", Some(1000.0), Some("XYZ"), false)
    requires c == Upcoming("s", "a", 20.0, "USD", 0)
    ensures HalfKnown("USD", "XYZ", "RUB", rates)
    ensures LineOf([a], [], c, "RUB", rates, 0) == Line("s", "a", Some(false), Critical)
    ensures TopUpsOf([a], [a], [LineOf([a], [], c, "RUB", rates, 0)], [c], rates) == []
  {
    assert [c][..0] == [];
    assert FindAccount([a], "a") == Some(a);
    assert Spent([c], "a", "XYZ", rates) == 20.0;
    assert NativeLeft(a, [c], rates) == Some(980.0);
    assert [a][..0] == [];
  }

  // ---------------------------------------------------------------- in terms of the records

  /** The panel sees prepaid money of the account. */
  predicate Sees(a: Account) {
    a.balance.Some? && a.balanceCurrency.Some? && |a.balanceCurrency.value| > 0 && !a.isPostpaid
  }

  /** What a charge takes from an account, in the currency `to`. */
  ghost function Due(uuid: string, to: string, rates: Rates): Upcoming -> real
    requires Positive(rates)
  {
    (c: Upcoming) => if c.accountUuid == uuid then Convert(c.cost, c.currency, to, rates) else 0.0
  }

  lemma {:induction false} SpentIsSum(charges: seq<Upcoming>, uuid: string, to: string, rates: Rates)
    requires Positive(rates)
    ensures Spent(charges, uuid, to, rates) == SumOver(charges, Due(uuid, to, rates))
  {
    hide Convert;
    if charges != [] {
      SpentIsSum(charges[..|charges| - 1], uuid, to, rates);
    }
  }

  /** The charge falls at most `days` UTC days after the day of `now`. */
  predicate Within(now: int, date: int, days: nat) {
    date < (now / MS_PER_DAY + days + 1) * MS_PER_DAY
  }

  lemma WithinIff(now: int, date: int, days: nat)
    ensures DaysUntil(now, date) <= days <==> Within(now, date, days)
  {
  }

  /** Critical, warning or neither, by what is known of the money and by how many days are left. */
  lemma SeverityIff(covered: Option<bool>, now: int, date: int, isPostpaid: bool)
    ensures var severity := ChargeSeverity(covered, DaysUntil(now, date), isPostpaid);
            && (severity == Critical
                <==> Within(now, date, 7) && (covered == Some(false) || (covered == None && !isPostpaid)))
            && (severity == Ok
                <==> !Within(now, date, 3) && covered != Some(false)
                     && !(Within(now, date, 7) && covered == None && !isPostpaid))
  {
    WithinIff(now, date, 7);
    WithinIff(now, date, 3);
    hide DaysUntil, Within;
  }

  lemma {:induction false} FindsIff(accounts: seq<Account>, uuid: string)
    requires Distinct(accounts)
    ensures FindAccount(accounts, uuid).None? <==> forall a :: a in accounts ==> a.uuid != uuid
    ensures forall a :: a in accounts && a.uuid == uuid ==> FindAccount(accounts, uuid) == Some(a)
  {
    forall a | a in accounts && a.uuid == uuid ensures FindAccount(accounts, uuid) == Some(a) {
      var i :| 0 <= i < |accounts| && accounts[i] == a;
      FindsEach(accounts, i);
    }
  }

  /**
   * A line says nothing about coverage if no prepaid money of its account is seen; otherwise it is
   * covered exactly if the account's balance reaches the sum of its charges up to and with this one.
   */
  lemma LineIs(accounts: seq<Account>, charges: seq<Upcoming>, lines: seq<Line>, base: string, rates: Rates, now: int,
               k: nat)
    requires Positive(rates) && Distinct(accounts) && k < |lines|
    requires AreLines(lines, accounts, charges, base, rates, now)
    ensures var line, c := lines[k], charges[k];
            && line.serviceUuid == c.serviceUuid && line.accountUuid == c.accountUuid
            && (line.covered == None <==> forall a :: a in accounts && a.uuid == c.accountUuid ==> !Sees(a))
            && (forall a :: a in accounts && a.uuid == c.accountUuid && Sees(a) ==>
                  (line.covered == Some(true)
                   <==> Convert(a.balance.value, a.balanceCurrency.value, base, rates)
                        >= SumOver(charges[..k + 1], Due(a.uuid, base, rates))))
            && (line.severity == Critical
                <==> && Within(now, c.date, 7)
                     && (line.covered == Some(false)
                         || (line.covered == None
                             && forall a :: a in accounts && a.uuid == c.accountUuid ==> !a.isPostpaid)))
            && (line.severity == Ok
                <==> line.severity != Critical && !Within(now, c.date, 3) && line.covered != Some(false))
  {
    hide Convert, SumOver, Within, DaysUntil, ChargeSeverity, FindAccount, Distinct, Spent;
    var line, c := lines[k], charges[k];
    FindsIff(accounts, c.accountUuid);
    var a := FindAccount(accounts, c.accountUuid);
    SeverityIff(line.covered, now, c.date, a.Some? && a.value.isPostpaid);
    assert charges[..k + 1][..k] == charges[..k];
    SpentIsSum(charges[..k], c.accountUuid, base, rates);
    SumOverMore(charges[..k + 1], Due(c.accountUuid, base, rates));
    SevenOutlastsThree(now, c.date);
  }

  lemma SevenOutlastsThree(now: int, date: int)
    ensures Within(now, date, 3) ==> Within(now, date, 7)
  {
  }

  /**
   * A top-up is suggested exactly for the accounts with a critical line whose charges together exceed
   * the balance seen, and it is what they exceed it by, all in the account's currency.
   */
  lemma {:induction false} TopUpsAre(accounts: seq<Account>, charges: seq<Upcoming>, lines: seq<Line>, rates: Rates,
                                     t: TopUp)
    requires Positive(rates) && Distinct(accounts)
    ensures t in TopUpsOf(accounts, accounts, lines, charges, rates)
            <==> exists a :: && a in accounts && Sees(a) && HasCritical(lines, a.uuid)
                             && t.accountUuid == a.uuid && Some(t.currency) == a.balanceCurrency
                             && t.amount == SumOver(charges, Due(a.uuid, t.currency, rates)) - a.balance.value
                             && t.amount > 0.0
  {
    hide Convert, SumOver, FindAccount, Distinct, Spent, HasCritical, TopUpsOf;
    if t in TopUpsOf(accounts, accounts, lines, charges, rates) {
      var i := TopUpComesFrom(accounts, accounts, lines, charges, rates, t);
      FindsIff(accounts, accounts[i].uuid);
      SpentIsSum(charges, t.accountUuid, t.currency, rates);
      assert Sees(accounts[i]);
    }
    if a :| && a in accounts && Sees(a) && HasCritical(lines, a.uuid)
            && t.accountUuid == a.uuid && Some(t.currency) == a.balanceCurrency
            && t.amount == SumOver(charges, Due(a.uuid, t.currency, rates)) - a.balance.value && t.amount > 0.0 {
      var i :| 0 <= i < |accounts| && accounts[i] == a;
      FindsIff(accounts, a.uuid);
      SpentIsSum(charges, a.uuid, t.currency, rates);
      TopUpListed(accounts, accounts, lines, charges, rates, i);
    }
  }
}
