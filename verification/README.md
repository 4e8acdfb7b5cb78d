# Billing arithmetic and long-lived state of the infrastructure billing panel

The panel collects balances, services and payments of hosting accounts, values them in one base
currency, forecasts what is due and warns its owner. This project models that arithmetic and the
state machines behind it, and proves what they promise. Loops of the source are loops here, proved
against specification functions; the laws are lemmas about those functions and invariants over every
run. What a specification function computes is also said in terms of the records that go in and the
fields that are stored, without the function's own name. Classes hold the records the handlers
update; a `Replay` method at the end of a module runs any sequence of requests and states what holds
after it.

| file | what it models |
|---|---|
| `Runway.dfy`, `Spend.dfy`, `SpendLaws.dfy`, `SpendRecords.dfy` | burn rate from balance snapshots, and daily spend of an account |
| `Currency.dfy`, `Coverage.dfy` | conversion through the rouble; which charges balances cover, and what to top up |
| `Grouping.dfy`, `Actuals.dfy`, `Calendar.dfy`, `Forecast.dfy` | groupings, tariff estimates, actual spend and projection |
| `Labels.dfy`, `Pigeonhole.dfy`, `Providers.dfy` | account labels, providers and their accounts, merging |
| `Totp.dfy` | base32 secrets and one-time codes |
| `Overrides.dfy`, `ServiceSync.dfy`, `Payments.dfy` | owner edits against provider syncs, payment import |
| `HistoricalRates.dfy` | rates by date |
| `SignIn.dfy` | sign-in methods and the lockout guard |
| `Money.dfy`, `Numerals.dfy`, `Text.dfy` | decimal strings and cents |
| `RefInliner.dfy` | `$ref` inlining of JSON schemas |
| `QuietHours.dfy`, `Notifications.dfy` | quiet window, throttled notifications |
| `Prelude.dfy`, `Sums.dfy` | shared values and sums |

`dafny verify dfyconfig.toml` checks the whole project.

## Where the code and its promise part

The model follows the code. These promises hold only under a condition, which is stated exactly:

- `mostCommonCurrency` takes an empty currency code for "nothing picked yet" (`SpendLaws.MostCommonIff`).
- The top-up suggestion is in the account's currency while coverage is decided in the base currency; where
  a rate is missing the two can disagree on whether there is a shortfall (`Coverage.ShortfallIsSuggestedIff`)
  and on how much is missing (`Coverage.SuggestionIsLeastIff`, `Currency.TriangleIff`).
- The lockout guard counts passkeys and a linked Telegram account, but a passkey login also needs the
  relying party the key was made for, which a settings patch may clear or move, and a Telegram login a
  secret that still decrypts. Whatever the method, the session has to be signed: the documentation
  (`README.md:234` of the repository) asks only for the Telegram secret again after a new encryption
  key, but the session secret is then unreadable too, and after a restart nobody gets in
  (`SignIn.GuardIsRightIff`).
- Quiet hours are asked about once per check, before the summary is loaded; a message falls inside the
  window exactly when that opened in the meantime (`Notifications.NotificationsService.CheckAndNotify`).
- A reference beside a `$ref` is copied without inlining, in the schema or in a component it reaches
  (`RefInliner.SelfContainedIff`).
- A message that Telegram accepted but the log did not record may be repeated within 24 hours
  (`Notifications.RepeatsIffNotRecorded`).
- Setting a value back to what the provider proposed last hands it back to the sync only while that
  proposal is stored (`Overrides.RevertHandsBackIff`).
- Twelve monthly costs and a year of the projection agree for every period but hourly and unknown ones, and
  for daily ones in a year of 365 days: the projection charges an hourly price once a month
  (`Forecast.YearIsTwelveMonthlyCostsIff`).
- A recurring service more than 5000 steps behind leaves the projection loops early and may then be
  charged in months that are over (`Forecast.ClearOfDailyIff`, `Forecast.ClearOfMonthsIff`, and for all
  services together `Forecast.PastIsNotProjectedIff`).

## Model

| member | source | states |
|---|---|---|
| `Spend.SpendWindow` | `apps/backend/src/common/spend.ts:53-56` | the window is whole UTC days: it ends at a day boundary within a day before `now` and is exactly `days` days long |
| `Spend.RoundCentsIff` | `apps/backend/src/common/spend.ts:219-221` | rounding to cents gives the nearest amount of whole cents, and of two equally near ones the one away from zero: these three conditions hold of the result and of nothing else |
| `Spend.SumDays` | `apps/backend/src/common/spend.ts:182-188` | the loop returns the sum of the known days, and nothing when no day is known |
| `Spend.Summarize` | `apps/backend/src/common/spend.ts:162-179` | totals, the last seven days, the approximate mark and the daily figure are those of the day list; needs one known day (the non-null assertion) and a positive span, which both callers prove |
| `Spend.SpreadOverDays` | `apps/backend/src/common/spend.ts:140-147` | the inner loop adds to every day the part of the interval that falls on it, marks exactly the days a top-up interval touches, and never leaves the array |
| `Spend.SpreadInterval` | `apps/backend/src/common/spend.ts:128-148` | one pass of the outer loop adds the interval's share to every day, or nothing when it is empty or outside the window |
| `Spend.FromSnapshots` | `apps/backend/src/common/spend.ts:114-160` | the result is built from the day sums of all intervals at the account's burn rate |
| `Spend.SomeDayCovered` | `apps/backend/src/common/spend.ts:150-153` | when the covered stretch is not empty some day of the window is known |
| `Spend.FromCharges` | `apps/backend/src/common/spend.ts:88-112` | the loop's sums are the day totals; the first charge of the window or, if earlier, the first one ever starts the known days; indices stay in range |
| `Spend.FirstKnownBeforeCharges` | `apps/backend/src/common/spend.ts:103-107` | no charge falls on a day reported as unknown |
| `Spend.ChargeHistoryReaches` | `apps/backend/src/common/spend.ts:103-111` | with charges in the window a day is known and the divisor is positive |
| `Spend.MostCommonCurrency` | `apps/backend/src/common/spend.ts:190-200` | the counting and picking loops compute the pick defined over first-seen order |
| `Spend.AccountSpend` | `apps/backend/src/common/spend.ts:65-86` | the whole decision: charges win, else balance declines of a prepaid account, else nothing |
| `Spend.RoundingBound` | `apps/backend/src/common/spend.ts:150-158` | rounding each day separately costs at most half a cent per known day |
| `SpendLaws.SharesTotal` | `apps/backend/src/common/spend.ts:133-146` | the days partition the clipped interval: its shares add up to spent times clipped length over its length |
| `SpendLaws.DaysConserveSpend` | `apps/backend/src/common/spend.ts:125-148` | conservation for any snapshots, window and rate: the day sums add up to what the clipped intervals spend |
| `SpendLaws.RefillMatchesBurn` | `apps/backend/src/common/spend.ts:125-148` | with all snapshots in the window and a measurable burn, the exact day sums add up to burn rate times covered span, however many top-ups and flats are mixed in: what the burn drops is what the spread refills |
| `SpendLaws.DeclinesTelescope` | `apps/backend/src/common/spend.ts:128-148` | without top-ups and with increasing times the exact total is first balance minus last |
| `SpendLaws.UnknownDaysGotNothing` | `apps/backend/src/common/spend.ts:150-158` | a day reported as unknown received no spend |
| `SpendLaws.ApproximateIffTopUp` | `apps/backend/src/common/spend.ts:137-172` | the result is marked approximate exactly when a top-up interval reaches into the window |
| `SpendLaws.ChargesConserved` | `apps/backend/src/common/spend.ts:95-102` | the day totals add up to the charges |
| `SpendLaws.ChargeDaysShowTotals` | `apps/backend/src/common/spend.ts:106-110` | known days show the rounded totals and unknown days had none |
| `SpendLaws.SnapshotDaysShowSums` | `apps/backend/src/common/spend.ts:150-158` | known days show the rounded sums and unknown days got nothing |
| `SpendLaws.DaysListTheWindow` | `apps/backend/src/common/spend.ts:65-86` | for every input the list has one entry per day of the window, in order |
| `SpendLaws.AccountSpendAddsUp` | `apps/backend/src/common/spend.ts:58-86` | for every input a result knows nothing or knows a day, its 30-day figure is the sum of the shown days, and that is within half a cent per known day of the exact spend |
| `SpendLaws.PerDayTracksBurn` | `apps/backend/src/common/spend.ts:159-177` | the daily figure differs from the burn rate by no more than the rounding of the days and of itself |
| `SpendLaws.MostCommonIff` | `apps/backend/src/common/spend.ts:190-200` | the pick is the most frequent currency, ties alphabetical, exactly unless charges with an empty currency code are as many as any other and another code first appears after them |
| `SpendLaws.EmptyCodeSpoilsThePick` | `apps/backend/src/common/spend.ts:195-198` | a concrete input where the documented tie rule fails: EUR, an empty code and USD give USD |
| `SpendRecords.ChargesDecideIff` | `apps/backend/src/common/spend.ts:74-81` | charges decide if and only if one of them lies in the window and has the account's currency |
| `SpendRecords.ChargeDaysIff` | `apps/backend/src/common/spend.ts:88-112` | when charges decide, a day is unknown if and only if it ends at or before every charge that counts and before the first one ever; a known day shows the rounded sum of its charges; the daily figure is the total over the number of known days |
| `SpendRecords.SnapshotsDecideIff` | `apps/backend/src/common/spend.ts:74-122` | snapshots decide if and only if they may, no charge counts, and two of the account's currency span some of the window |
| `SpendRecords.SnapshotDaysIff` | `apps/backend/src/common/spend.ts:120-159` | when snapshots decide, a day is known if and only if one was taken before its end and one after its start; the daily figure is the total over the time between the first and the last one that lies in the window |
| `SpendRecords.EstimatedIff` | `apps/backend/src/common/spend.ts:137-157` | a day is marked as estimated if and only if the balance rises between two snapshots in a row that span some of it |
| `SpendRecords.OverlapCountsInstants` | `apps/backend/src/common/spend.ts:140-144` | the part of an interval that is handed to a day is the number of milliseconds both have in common |
| `SpendRecords.LastWeekIsSum` | `apps/backend/src/common/spend.ts:162-179` | the seven-day figure is the sum of the known days dated in the last seven of the window, and missing if there is none |
| `SpendRecords.CurrencyOfResult` | `apps/backend/src/common/spend.ts:74-75` | the account's own currency wins, and only without one the most common of the charges of the window |
| `SpendRecords.CommonByWindow` | `apps/backend/src/common/spend.ts:69-75` | how common a currency is counts the charges dated in the window |
| `SpendRecords.PickedCurrency` | `apps/backend/src/common/spend.ts:190-200` | without a balance currency, and with every charge of the window naming one, charges decide in a currency no other is more common than, ties going to the first by name |
| `SpendRecords.NothingDecided` | `apps/backend/src/common/spend.ts:202-217` | when nothing decides every day is unknown and unmarked, and all figures are missing |
| `Runway.BurnFromSnapshots` | `apps/backend/src/common/runway.ts:20-37` | the loop returns total decline over total kept days, or nothing for fewer than two points, too short a span or no decline |
| `Runway.BurnWithinKeptRates` | `apps/backend/src/common/runway.ts:11-37` | whatever bounds the daily rate of every kept interval bounds the burn, in whatever order the snapshots come |
| `Runway.BurnIff` | `apps/backend/src/common/runway.ts:20-37` | there is a burn if and only if enough time was kept and some balance fell; it times the kept days is the kept decline |
| `Runway.MonthlyCostIsItsBurn` | `apps/backend/src/common/runway.ts:39-43` | the fallback burn over 730 hours is the monthly cost |
| `Runway.DaysOfRunway` | `apps/backend/src/common/runway.ts:45-49` | the number of whole days the balance lasts, zero for non-positive inputs |
| `Currency.GetRubRates` | `apps/backend/src/currency/currency.service.ts:109-116` | the rouble is 1 and every other code has the rate of its first (newest) row |
| `Currency.FirstRateIff` | `apps/backend/src/currency/currency.service.ts:112-114` | the rate taken is of a row with no earlier row of its code |
| `Currency.ConvertIsFactor` | `apps/backend/src/currency/currency.service.ts:119-128` | conversion multiplies by one positive factor per pair of currencies, 1 when a rate is missing |
| `Currency.ConvertKeepsValue` | `apps/backend/src/currency/currency.service.ts:118-128` | with both rates known the converted amount is worth as many roubles as before; otherwise the amount is unchanged |
| `Currency.ConvertKeepsSign` | `apps/backend/src/currency/currency.service.ts:119-128` | conversion keeps the sign of an amount |
| `Currency.TriangleIff` | `apps/backend/src/currency/currency.service.ts:119-128` | converting in two steps equals converting in one, for a nonzero amount exactly unless just two of three distinct currencies have rates and the rates differ |
| `Coverage.OverdueDays` | `apps/backend/src/common/overdue.ts:3-17` | a service is overdue exactly when its date lies on an earlier UTC day than now, and by as many days as lie between |
| `Coverage.ListsPartition` | `apps/backend/src/analytics/analytics.service.ts:144-158` | the upcoming and the overdue list share out the dated, unmetered services before the horizon with no gap and no overlap, and an upcoming charge is at most 14 days away |
| `Coverage.OpeningBalances` | `apps/backend/src/analytics/analytics.service.ts:174-190` | both maps start at the prepaid balances, and at unknown for accounts without one or billed by invoice |
| `Coverage.ChargeOne` | `apps/backend/src/analytics/analytics.service.ts:192-211` | one charge: its coverage line, and both running balances moved on together |
| `Coverage.Simulate` | `apps/backend/src/analytics/analytics.service.ts:174-229` | after the whole list every line and both maps are what the closed form per account says |
| `Coverage.LineIs` | `apps/backend/src/analytics/analytics.service.ts:192-229` | a line is unknown if and only if no prepaid balance of its account is seen; otherwise it is covered if and only if the balance reaches the sum of the account's charges up to it; critical and ok by coverage, days left and postpaid |
| `Coverage.SeverityIff` | `apps/backend/src/common/billing-severity.ts:3-23` | the severity bands, by whether the charge is due within seven or three UTC days |
| `Coverage.BaseTracksNative` | `apps/backend/src/analytics/analytics.service.ts:171-211` | all along the list the base running balance is the conversion of the native one, unless a charge goes through a half-known triangle of currencies |
| `Coverage.UncoveredStaysUncovered` | `apps/backend/src/analytics/analytics.service.ts:171-200` | once a charge of an account is uncovered all its later charges are |
| `Coverage.AllCoveredIffSolvent` | `apps/backend/src/analytics/analytics.service.ts:171-200` | all charges of an account are covered exactly when its base balance ends non-negative |
| `Coverage.ShortfallIsLeastIff` | `apps/backend/src/analytics/analytics.service.ts:231-247` | the native shortfall is the least sufficient top-up if and only if the charges add up to the same in both currencies |
| `Coverage.ConvertibleIsSame` | `apps/backend/src/analytics/analytics.service.ts:203-209` | they do when no charge goes through a half-known triangle |
| `Coverage.LeastTopUp` | `apps/backend/src/analytics/analytics.service.ts:231-247` | then a top-up makes every upcoming charge covered exactly from the native shortfall on |
| `Coverage.TopUps` | `apps/backend/src/analytics/analytics.service.ts:231-247` | the loop lists the shortfall of every account with a critical line, in account order |
| `Coverage.TopUpsAre` | `apps/backend/src/analytics/analytics.service.ts:231-247` | the suggestions are exactly the excess of the charges over the balance seen, for the accounts with a critical line whose charges exceed it |
| `Coverage.SuggestionIsLeastIff` | `apps/backend/src/analytics/analytics.service.ts:231-247` | a suggestion is for an account that leaves a charge uncovered; it is the least amount, in the account's currency, that makes all listed charges of that account covered if and only if those add up to the same in both currencies, which holds when none of them goes through a half-known triangle |
| `Coverage.ShortfallIsSuggestedIff` | `apps/backend/src/analytics/analytics.service.ts:231-247` | an uncovered charge due within a week leads to a suggestion if and only if the account's charges exceed its balance also in its own currency |
| `Coverage.ShortfallIsSuggested` | `apps/backend/src/analytics/analytics.service.ts:231-247` | in particular when no charge of the account goes through a half-known triangle of currencies |
| `Coverage.InterleavingDoesNotMatter` | `apps/backend/src/analytics/analytics.service.ts:171-211` | coverage and shortfall of an account depend only on its own charges, however the accounts interleave |
| `Coverage.MissingRateHidesShortfall` | `apps/backend/src/analytics/analytics.service.ts:192-247` | a concrete input with a missing rate: a critical uncovered charge without any suggestion |
| `Grouping.GroupedRepresents` | `apps/backend/src/analytics/analytics.service.ts:669-674` | each key has one group holding the sum and the number of its entries, and no key is missing |
| `Grouping.GroupsAddUp` | `apps/backend/src/analytics/analytics.service.ts:669-674` | the groups add up to all entries and count each once |
| `Grouping.RowsAddUp` | `apps/backend/src/analytics/analytics.service.ts:357-370` | the rows of distinct owners that own every entry add up to the whole |
| `Grouping.GroupServices` | `apps/backend/src/analytics/analytics.service.ts:91-111` | one pass over the services builds the monthly total and all five groupings |
| `Grouping.GroupsAre` | `apps/backend/src/analytics/analytics.service.ts:91-111` | whatever services are grouped by, there is one group for each key that occurs, with the sum of the monthly costs and the number of the services that have it |
| `Grouping.EveryGroupingAddsUp` | `apps/backend/src/analytics/analytics.service.ts:91-111` | whatever services are grouped by, the groups add up to `monthlyTotal` and count every service |
| `Grouping.CurrencyTotalIsConverted` | `apps/backend/src/analytics/analytics.service.ts:106-110` | a currency's base total is the conversion of its original total |
| `Grouping.MeteredPriceIsItsBurn` | `apps/backend/src/common/money.ts:25-43` | a metered price normalised to a month and taken by the day again is the price of a day |
| `Grouping.MonthlyCostIs` | `apps/backend/src/common/money.ts:25-43` | twelve monthly costs of a yearly price, three of a quarterly one, and 730 hours of a metered one are the price; nothing else recurs |
| `Grouping.TariffForMonth` | `apps/backend/src/analytics/analytics.service.ts:677-702` | the loop sums the services that have started by the month, with optional backdating |
| `Grouping.TariffIsSum` | `apps/backend/src/analytics/analytics.service.ts:677-702` | the estimate is the monthly cost of the services created by then, or with backdating those whose account paid by then |
| `Grouping.FullTariffIsMonthlyTotal` | `apps/backend/src/analytics/analytics.service.ts:513-514` | without the creation gate, or once every service has started, the estimate is the summary's monthly total |
| `Grouping.TariffGrows` | `apps/backend/src/analytics/analytics.service.ts:677-702` | with non-negative prices estimates never fall from month to month and backdating only adds |
| `Actuals.SumPayments` | `apps/backend/src/analytics/analytics.service.ts:113-142` | this month's payments, the total and the spend of each provider are the sums of the converted payments that are no charge or belong to an account with nothing but charges |
| `Actuals.ChargesCountIff` | `apps/backend/src/analytics/analytics.service.ts:117-124` | a charge is counted if and only if its account has no payment of another kind |
| `Actuals.ProviderSpendAddsUp` | `apps/backend/src/analytics/analytics.service.ts:133-137` | the spend of all providers adds up to the total |
| `Actuals.ActualBuckets` | `apps/backend/src/analytics/analytics.service.ts:466-510` | each month up to the current one holds its spend, later ones zero |
| `Actuals.SpentInAnyOrder` | `apps/backend/src/repositories/payments/payments.repository.ts:27-34` | the order in which the database returns payments does not change a month's spend |
| `Actuals.CurrentBarIsTheKpi` | `apps/backend/src/analytics/analytics.service.ts:478-510` | for every payment set the forecast's actual of the current month equals the summary's `currentMonthPayments` |
| `Forecast.CatchUp` | `apps/backend/src/analytics/analytics.service.ts:556-560` | the first guarded loop stops at the first due date in the horizon or after the guard |
| `Forecast.AddRecurring` | `apps/backend/src/analytics/analytics.service.ts:561-567` | the second guarded loop adds the charge once per date that falls in a month of the window |
| `Forecast.ProjectService` | `apps/backend/src/analytics/analytics.service.ts:547-567` | one service adds its charge to every month as often as the specification counts |
| `Forecast.MonthStepped` | `apps/backend/src/analytics/analytics.service.ts:556-567` | closed form for month steps and every input, also when a guard cuts the loops short |
| `Forecast.EveryKthMonth` | `apps/backend/src/analytics/analytics.service.ts:537-568` | with at most 5000 catch-up steps the charge falls exactly on the horizon months a multiple of the period after the billing month, once each |
| `Forecast.ChargedMonths` | `apps/backend/src/analytics/analytics.service.ts:704-720` | monthly, hourly and unknown periods are charged every month, quarterly ones every third, yearly ones every twelfth, one-off charges once in their month if it is ahead |
| `Forecast.DayStepped` | `apps/backend/src/analytics/analytics.service.ts:556-567` | closed form for day steps and every input: the days of the month inside a counted range |
| `Forecast.EveryDay` | `apps/backend/src/analytics/analytics.service.ts:537-568` | with at most 60 months and 5000 catch-up days a daily service is charged for every day of the horizon from its next billing day on |
| `Forecast.ClearOfDailyIff` | `apps/backend/src/analytics/analytics.service.ts:537-568` | a daily service leaves a month up to the current one untouched exactly when its billing day is at most 5000 days before next month, or the first loop gives up only after that month, or the second one before it |
| `Forecast.ClearOfMonthsIff` | `apps/backend/src/analytics/analytics.service.ts:537-568` | a service billed every so many months leaves such a month untouched exactly when 5000 steps reach next month, or the month is not among the 5000 steps after them |
| `Forecast.StaleDailyIsProjectedIntoThePast` | `apps/backend/src/analytics/analytics.service.ts:556-567` | a concrete input: a daily service left at the first of January 2000 is charged, in January 2025, on all 31 days of December 2024 |
| `Forecast.YearIsTwelveMonthlyCostsIff` | `apps/backend/src/analytics/analytics.service.ts:537-568` | twelve projected months of a service after its billing month cost twelve times its monthly cost, exactly for monthly, quarterly, yearly and past one-off prices and for daily ones in a year of 365 days; not for hourly ones, which step by a month |
| `Forecast.Project` | `apps/backend/src/analytics/analytics.service.ts:466-476` | the whole projection: a bucket per month of the window with the sum over all services |
| `Forecast.ProjectedIsSum` | `apps/backend/src/analytics/analytics.service.ts:540-568` | a bucket is the sum over the services of the converted price times the number of charges in the month |
| `Forecast.PastIsNotProjectedIff` | `apps/backend/src/analytics/analytics.service.ts:537-568` | with positive prices a past or the current month stays zero if and only if every service has caught up or misses the month with what the guards leave of it |
| `Forecast.PastIsNotProjected` | `apps/backend/src/analytics/analytics.service.ts:537-539` | with any prices these months stay zero when every service catches up |
| `Calendar.MonthByDayNumber` | `apps/backend/src/analytics/analytics.service.ts:557-562` | comparing a date with the start of a month is comparing day numbers |
| `Calendar.DayNumberIsGregorian` | `apps/backend/src/analytics/analytics.service.ts:557-566` | days counted by stepping through months are the closed-form Gregorian day numbers |
| `Calendar.AddMonthsKeepsDay` | `apps/backend/src/analytics/analytics.service.ts:558` | a month or year step keeps the day where the later month has it and takes its last day otherwise |
| `Labels.CandidatesDiffer` | `apps/backend/src/providers/provider-rules.ts:45-56` | different suffix numbers give labels that differ in more than case, also after cutting |
| `Labels.FreeTag` | `apps/backend/src/providers/provider-rules.ts:43-46` | the suffix loop ends for every input and returns the first free label |
| `Labels.MergedLabels` | `apps/backend/src/providers/provider-rules.ts:34-49` | every source account in turn gets the first label free among the target's and the new ones |
| `Labels.FreeLabelIsKept` | `apps/backend/src/providers/provider-rules.ts:43-44` | a source account keeps its own label, or an unlabelled one takes the provider's name, without blanks around it, if it has at most 64 characters and nobody has it |
| `Labels.LabelIsFirstFreeCut` | `apps/backend/src/providers/provider-rules.ts:42-56` | otherwise the label is the longest beginning that fits 64 characters with its number in brackets, the lowest number from 2 on that clashes with nothing |
| `Labels.FirstFreeIsNear` | `apps/backend/src/providers/provider-rules.ts:45` | the number of the slot found is at most two more than the number of taken labels |
| `Labels.MergedLabelsAreUsable` | `apps/backend/src/providers/provider-rules.ts:29-52` | the labels are at most 64 characters, pairwise distinct and distinct from every target label, ignoring case |
| `Labels.MergeIsDetermined` | `apps/backend/src/providers/provider-rules.ts:34-49` | these rules leave one possible outcome |
| `Labels.PasskeyNamesDiffer` | `apps/backend/src/auth/passkey-name.util.ts:5-8` | slot names differ |
| `Labels.NextPasskeyName` | `apps/backend/src/auth/passkey-name.util.ts:3-9` | the name returned is free and of the lowest free slot, ignoring empty names |
| `Providers.TakenIffRow` | `apps/backend/src/providers/provider-rules.ts:17-20` | the check on a provider's list is the check on the account table, null counting as one label |
| `Providers.ProviderStore.Create` | `apps/backend/src/providers/providers.service.ts:61-78` | a provider starts with one account; the invariant (every provider has an account, labels unique ignoring case) holds |
| `Providers.ProviderStore.Update` | `apps/backend/src/providers/providers.service.ts:80-91` | exactly the identity fields that are sent change (a null clears one), or the provider is not found; accounts stay |
| `Providers.ProviderStore.AddAccount` | `apps/backend/src/providers/providers.service.ts:100-115` | adds the account unless the provider is missing or the label taken, and keeps the invariant |
| `Providers.ProviderStore.UpdateAccount` | `apps/backend/src/providers/provider-accounts.service.ts:17-37` | a label edit is refused exactly when another account of the provider has the label, and keeps the invariant |
| `Providers.ProviderStore.RemoveAccount` | `apps/backend/src/providers/provider-accounts.service.ts:40-46` | the last account is refused, any other is removed and nothing else changes |
| `Providers.ProviderStore.RemoveProvider` | `apps/backend/src/providers/providers.service.ts:93-97` | the provider goes with all its accounts and nothing else |
| `Providers.ProviderStore.Merge` | `apps/backend/src/providers/providers.service.ts:122-136` | errors as in the source; otherwise every source account moves to the target under its new label and the invariant holds |
| `Providers.FillIs` | `apps/backend/src/providers/provider-rules.ts:58-73` | the merged identity has the target's own values, and the source's where the target has none |
| `Providers.ProviderStore.Retag` | `apps/backend/src/repositories/providers/providers.repository.ts:89-91` | the relabelling loop sets exactly the listed labels |
| `Providers.RetagThenMove` | `apps/backend/src/repositories/providers/providers.repository.ts:88-95` | relabelling and then moving gives every row its merged form |
| `Providers.MergedRowIs` | `apps/backend/src/repositories/providers/providers.repository.ts:83-100` | a merge leaves every row in its place with uuid and data; rows of the source go to the target under the label of their account, other rows stay |
| `Providers.AddKeepsInv` | `apps/backend/src/providers/providers.service.ts:104-113` | adding an account with a free label keeps the invariant |
| `Providers.EditKeepsInv` | `apps/backend/src/providers/provider-accounts.service.ts:22-28` | changing a label to a free one keeps the invariant |
| `Providers.RemoveKeepsInv` | `apps/backend/src/repositories/provider-accounts/provider-accounts.repository.ts:68-75` | removing one of several accounts keeps the invariant |
| `Providers.RemoveProviderKeepsInv` | `apps/backend/src/providers/providers.service.ts:93-97` | removing a provider with its accounts keeps the invariant |
| `Providers.MergeKeepsTagsUnique` | `apps/backend/src/providers/providers.service.ts:127-132` | after a merge labels stay unique within every provider |
| `Providers.MergeKeepsInv` | `apps/backend/src/providers/providers.service.ts:122-136` | a merge keeps the whole invariant |
| `Providers.MergeConservesAccounts` | `apps/backend/src/providers/providers.service.ts:117-136` | a merge loses and duplicates no account and leaves other providers alone |
| `Providers.Replay` | `apps/backend/src/providers/providers.service.ts:61-136` | any sequence of requests keeps the invariant and ends in the two tables that folding the requests leads to, each with its refusals and merges under the one list of labels the rules allow |
| `Providers.AccountsOutliveMerges` | `apps/backend/src/providers/providers.service.ts:61-136` | in any run without removals every account keeps its uuid, its data and its place: no edit and no chain of merges loses one |
| `Totp.Base32Decode` | `apps/backend/src/connectors/common/totp.ts:4-20` | the 32-bit accumulator that is never masked decodes exactly as unbounded bit strings do, for secrets of any length |
| `Totp.ShiftIn` | `apps/backend/src/connectors/common/totp.ts:12-13` | shifting in a digit keeps the low bits right although the top bits fall off |
| `Totp.TopOctet` | `apps/backend/src/connectors/common/totp.ts:14-17` | the octet taken out is the next eight bits, and the rest stays |
| `Totp.DecodeEncode` | `apps/backend/src/connectors/common/totp.ts:3-20` | decoding any spelling (case, spaces, padding, characters without a letter of the alphabet) of the section 6 of RFC 4648 encoding of any bytes gives those bytes; a character spells a digit when its JavaScript upper case is that digit, such as U+017F and U+0131 |
| `Totp.DecodeWritten` | `apps/backend/src/connectors/common/totp.ts:3-20` | a secret written in capitals or small letters, with white space and padding anywhere, decodes to the bytes it encodes |
| `Totp.DecodedIsTheNumber` | `apps/backend/src/connectors/common/totp.ts:3-20` | the bytes are, in base 256, the number the digits are in base 32, without the bits that fill no byte |
| `Totp.SpecialUppers` | `apps/backend/src/connectors/common/totp.ts:8` | the characters outside ASCII that turn into letters of the alphabet, such as sharp s and dotless i |
| `Totp.DecodeOfEncoded` | `apps/backend/src/connectors/common/totp.ts:3-20` | in particular the padded upper-case encoding itself |
| `Totp.CharRoundTrip` | `apps/backend/src/connectors/common/totp.ts:5-11` | every digit's character stands at its place in the alphabet and is found again there |
| `Totp.CounterValue` | `apps/backend/src/connectors/common/totp.ts:26-31` | the counter bytes are the big-endian counter, also for negative times (modulo 2 to the 64th) |
| `Totp.CounterBlock` | `apps/backend/src/connectors/common/totp.ts:26-31` | the loop writes those eight bytes from the last to the first |
| `Totp.FourBytes` | `apps/backend/src/connectors/common/totp.ts:34-38` | masking and joining four bytes is the 31-bit big-endian value, as in section 5.3 of RFC 4226 |
| `Totp.TruncationExample` | `apps/backend/src/connectors/common/totp.ts:33-39` | the truncation example of section 5.4 of RFC 4226 |
| `Totp.TotpCode` | `apps/backend/src/connectors/common/totp.ts:24-40` | the code has six digits and is the truncated keyed hash of the 30-second counter modulo a million (section 4 of RFC 6238) |
| `Overrides.AgreesAlways` | `apps/backend/src/services/services.service.ts:82-143` | over every interleaving of edits and syncs a value that is not overridden is the stored proposal |
| `Overrides.OverrideSurvivesSyncs` | `apps/backend/src/sync/sync.service.ts:331-343` | no run of syncs changes an overridden value or clears its flag |
| `Overrides.RevertHandsBack` | `apps/backend/src/services/services.service.ts:103-117` | setting a value back to the stored proposal clears the flag and the next sync takes over |
| `Overrides.RevertHandsBackIff` | `apps/backend/src/services/services.service.ts:103-143` | after any history, setting a value back to the provider's latest proposal clears the flag if and only if no sync fell silent while an edit stood |
| `Overrides.ValueFromHistory` | `apps/backend/src/services/services.service.ts:82-143` | the shown value as a function of the whole history, also with syncs that propose nothing: the owner's last edit if it stands, else the latest proposal; a stored proposal is the latest one, and under a standing edit none is stored exactly when syncs fell silent |
| `Overrides.AlwaysProposing` | `apps/backend/src/services/services.service.ts:82-143` | with a provider that always proposes a value, an edit stands exactly when it differed from the proposal of its moment |
| `ServiceSync.EditName` | `apps/backend/src/services/services.service.ts:82-117` | the name part of the update, step by step, is the abstract edit: value, seeded baseline and flag |
| `ServiceSync.EditType` | `apps/backend/src/services/services.service.ts:88-129` | the same for the type |
| `ServiceSync.EditCost` | `apps/backend/src/services/services.service.ts:94-143` | the same for the price, a malformed stored price counting as none |
| `ServiceSync.EditPatch` | `apps/backend/src/services/services.service.ts:74-156` | the whole edit: every shared column is edited, switching off pins, no other column moves |
| `ServiceSync.EditedColumnsAre` | `apps/backend/src/services/services.service.ts:144-156` | the other columns store what was sent and keep what was not; switching off pins, switching on unpins |
| `ServiceSync.EditKeepsRowOk` | `apps/backend/src/services/services.service.ts:152-156` | edits keep the row invariant, in it that a pinned service is inactive |
| `ServiceSync.BuildSyncPatch` | `apps/backend/src/sync/sync.service.ts:327-343` | the step-by-step patch leaves out every pinned column |
| `ServiceSync.SyncIsSync` | `apps/backend/src/sync/sync.service.ts:295-343` | a sync of a row is a proposal to each shared column |
| `ServiceSync.SyncRowIs` | `apps/backend/src/sync/sync.service.ts:295-343` | the columns that are not tracked: country, billing date, period and currency take what was fetched and keep what was not; a pinned price keeps its period and currency |
| `ServiceSync.NewRowIs` | `apps/backend/src/sync/sync.service.ts:295-326` | a new row is what was fetched with a default for each missing column, and nothing pinned |
| `ServiceSync.SyncKeepsRowOk` | `apps/backend/src/sync/sync.service.ts:295-343` | a sync of a row keeps the row invariant |
| `ServiceSync.ServiceTable.OwnerUpdate` | `apps/backend/src/services/services.service.ts:74-178` | an edit changes its row only and keeps the table invariant |
| `ServiceSync.ServiceTable.UpsertServices` | `apps/backend/src/sync/sync.service.ts:261-352` | the loop upserts every record in order and then deactivates what is missing, keeping the table invariant |
| `ServiceSync.UpsertPerService` | `apps/backend/src/sync/sync.service.ts:267-346` | the loop treats every service as if it were alone, also with repeated ids |
| `ServiceSync.OutcomeIsSettled` | `apps/backend/src/sync/sync.service.ts:309-344` | the same records leave the row they produced alone |
| `ServiceSync.SyncTwiceIsSyncOnce` | `apps/backend/src/sync/sync.service.ts:261-352` | syncing the same list twice leaves every row as after the first time |
| `ServiceSync.ActiveAfterSync` | `apps/backend/src/sync/sync.service.ts:327-350` | a fetched service runs unless the owner switched it off for good, a managed one of the account that was not fetched does not, and all others are as before |
| `ServiceSync.ColumnsThroughSync` | `apps/backend/src/sync/sync.service.ts:327-343` | name, type and price of any row after a sync are the column histories run through its records; a pinned price keeps its period and currency, a pinned service stays off |
| `ServiceSync.Replay` | `apps/backend/src/sync/sync.service.ts:261-352` | after any interleaving of owner edits and syncs of any accounts there is a row exactly for the services fetched so far, and its name, type and price with flags and stored proposals are the column histories run through the edits and records of that service since the one that created it; the row invariant holds |
| `ServiceSync.PriceFromLife` | `apps/backend/src/services/services.service.ts:94-142` | so the price of any row of a run is the owner's last edit where that stands, flagged as pinned, and else the latest price proposed |
| `Payments.Ledger.UpsertPayments` | `apps/backend/src/sync/sync.service.ts:359-379` | the loops import every record by account and external id |
| `Payments.ImportEffect` | `apps/backend/src/repositories/payments/payments.repository.ts:118-130` | after an import every record has one row with its last word, and all other rows are as before |
| `Payments.ImportIs` | `apps/backend/src/sync/sync.service.ts:359-379` | every record that no later one supersedes has its row, with all that was fetched and the service its external id names; the other rows are the old ones |
| `Payments.ManualUntouched` | `apps/backend/src/sync/sync.service.ts:354-358` | manual payments and those of other accounts are never touched |
| `Payments.ImportTwiceIsImportOnce` | `apps/backend/src/sync/sync.service.ts:354-358` | importing the same records again changes nothing |
| `Payments.Replay` | `apps/backend/src/sync/sync.service.ts:354-379` | after any run of manual entries and imports, for any accounts, the ledger holds exactly the manual payments entered, in their order, and every external id once |
| `HistoricalRates.AsOf` | `apps/backend/src/currency/historical-rates.ts:65-83` | the binary search returns what counting the days up to the date one by one returns; the oldest rate for earlier dates |
| `HistoricalRates.SeriesSorted` | `apps/backend/src/currency/historical-rates.ts:31-40` | grouping keeps each currency's series sorted |
| `HistoricalRates.SeriesAgreesWithScan` | `apps/backend/src/currency/historical-rates.ts:31-40` | looking up in the series is scanning all rows for the newest on or before the day |
| `HistoricalRates.SeriesStartsWithOldest` | `apps/backend/src/currency/historical-rates.ts:68` | the first rate of a series is the oldest row of the currency |
| `HistoricalRates.CountSplits` | `apps/backend/src/currency/historical-rates.ts:64-83` | counting the leading days splits a sorted series at the date |
| `HistoricalRates.HistoricalRates.constructor` | `apps/backend/src/currency/historical-rates.ts:27-41` | the grouping loop puts every row into its currency's series in order |
| `HistoricalRates.HistoricalRates.RatesOn` | `apps/backend/src/currency/historical-rates.ts:49-61` | every code gets the rate scanning the rows gives for the UTC day of the date; the memo never differs from that |
| `HistoricalRates.RateIs` | `apps/backend/src/currency/historical-rates.ts:49-83` | the rate at an instant is that of the last row of the currency in force by then, before all of them that of the first, without any row today's |
| `HistoricalRates.Replay` | `apps/backend/src/currency/historical-rates.ts:49-61` | the same for every answer of any sequence of calls |
| `SignIn.ComputeTelegram` | `apps/backend/src/auth/auth-config.service.ts:127-148` | the computed Telegram values: changed client settings drop the link and the switch |
| `SignIn.WriteColumns` | `apps/backend/src/auth/auth-config.service.ts:161-167` | only the columns a patch names are written |
| `SignIn.WriteTelegram` | `apps/backend/src/auth/auth-config.service.ts:168-177` | the Telegram columns written add up to exactly the state that was checked |
| `SignIn.PatchKeepsTelegramOk` | `apps/backend/src/auth/auth-config.service.ts:127-151` | a patch keeps: Telegram is on only for a complete linked client, and a link belongs to the stored settings |
| `SignIn.AuthStore.Setup` | `apps/backend/src/auth/auth-config.service.ts:88-102` | the first run creates the password admin with a session secret, which the process remembers; later ones are refused |
| `SignIn.AuthStore.PatchConfig` | `apps/backend/src/auth/auth-config.service.ts:122-181` | errors as in the source; otherwise the stored row is exactly the checked one, and the invariant holds |
| `SignIn.PatchedIs` | `apps/backend/src/auth/auth-config.service.ts:122-181` | what a patch stores, field by field: sent texts, empty ones as nothing, and no link or switch once a client setting changes |
| `SignIn.PatchAllowedIff` | `apps/backend/src/auth/auth-config.service.ts:149-159` | a patch is refused if and only if no method would be left after it, or it switches on a Telegram login that is not complete and linked |
| `SignIn.AuthStore.UnlinkTelegram` | `apps/backend/src/auth/auth-config.service.ts:233-246` | refused when no other method satisfies the guard, else the link goes |
| `SignIn.UnlinkOrDeleteAllowedIff` | `apps/backend/src/auth/auth-config.service.ts:187-194` | unlinking and deleting a passkey are refused if and only if no method would be left after them |
| `SignIn.AuthStore.StartTelegram` | `apps/backend/src/auth/telegram-oidc.service.ts:123-166` | a round trip starts only with a complete, readable client under the requested origin, and for a login only when Telegram is usable |
| `SignIn.StartedFlowIff` | `apps/backend/src/auth/telegram-oidc.service.ts:123-166` | when a round trip starts and what its cookie carries, in stored fields |
| `SignIn.AuthStore.HandleCallback` | `apps/backend/src/auth/telegram-oidc.service.ts:256-315` | the outcome for every stored state and answer; a link is stored only under the client settings stored now; a login needs usable Telegram and the linked account |
| `SignIn.CallbackIff` | `apps/backend/src/auth/telegram-oidc.service.ts:256-315` | when a round trip ends in a link or a login, in stored fields |
| `SignIn.AuthStore.RegisterPasskey` | `apps/backend/src/auth/webauthn.service.ts:59-90` | a verified registration adds the passkey, bound to the relying party ID stored then, and keeps the invariant |
| `SignIn.AuthStore.PasskeyLogin` | `apps/backend/src/auth/webauthn.service.ts:94-143` | a login needs the method on, a registered key made under the relying party ID stored now, and a browser under one of the stored origins |
| `SignIn.PasskeyLoginIff` | `apps/backend/src/auth/webauthn.service.ts:94-180` | when a passkey login works or is a configuration error, with the origin one of the comma-separated ones |
| `SignIn.AuthStore.GetSessionSecret` | `apps/backend/src/auth/auth-config.service.ts:252-266` | the remembered secret, else a throwaway one before set-up, else the stored one if it decrypts, else a new one that is stored; what is remembered is always what is stored |
| `SignIn.AuthStore.DeletePasskey` | `apps/backend/src/auth/webauthn.service.ts:150-162` | refused when the guard would fail without the passkey |
| `SignIn.AuthStore.EnablePassword` | `apps/backend/src/bin/cli.ts:33-53` | the recovery command only turns the password on |
| `SignIn.AuthStore.ResetAdmin` | `apps/backend/src/bin/cli.ts:57-73` | the reset removes the account and all passkeys |
| `SignIn.Replay` | `apps/backend/src/auth/auth-config.service.ts:88-266` | any sequence of requests, restarts and recovery commands ends in the state folding the commands leads to; after set-up some method satisfies the guard there, the Telegram invariant holds, and a remembered session secret is the stored one |
| `SignIn.SomeMethodIsLeft` | `apps/backend/src/auth/auth-config.service.ts:183-194` | after any run an account that exists has its password on, or passkeys on and one registered, or Telegram on with client ID, secret, origin and account all stored |
| `SignIn.WhatIsStoredFits` | `apps/backend/src/auth/auth-config.service.ts:122-266` | after any run Telegram is on only with a complete client and account, a linked account was linked under the settings stored, and a remembered session secret is the stored one |
| `SignIn.SessionSecretStays` | `apps/backend/src/auth/auth-config.service.ts:248-266` | whatever happens short of a reset, restarts included, the account keeps its session secret, and a request gets that one, or none exactly when the process does not remember it and cannot read it |
| `SignIn.GuardIsRightIff` | `apps/backend/src/auth/auth-config.service.ts:187-227` | where the guard is satisfied the owner really can sign in if and only if the session secret is remembered, readable or not made yet, and the password is on, or passkeys are on with a complete relying party and a key made for it, or Telegram is usable and its secret decrypts |
| `SignIn.TelegramWorksIff` | `apps/backend/src/auth/telegram-oidc.service.ts:123-315` | some account can complete the round trip of a login if and only if Telegram is usable and the secret decrypts |
| `SignIn.PasskeyWorksIff` | `apps/backend/src/auth/webauthn.service.ts:94-180` | some browser and some registered key complete a passkey login if and only if the method is on, the relying party has an ID and an origin beyond commas and blanks, and a key was made under that ID |
| `SignIn.ClearingTheRelyingPartyLocksOut` | `apps/backend/src/auth/auth-config.service.ts:164-167` | a run of accepted requests after which the guard is satisfied and no method works |
| `SignIn.MovingTheRelyingPartyLocksOut` | `apps/backend/src/auth/webauthn.service.ts:112-130` | the same when the relying party ID is changed instead of cleared: the only key is refused, as it was made for the old ID |
| `SignIn.UnreadableSecretLocksOut` | `apps/backend/src/auth/auth-config.service.ts:213-221` | a run of accepted requests that leaves Telegram alone: after a restart the owner can sign in exactly as long as both the client secret and the session secret decrypt |
| `SignIn.ChangedKeyLocksOut` | `apps/backend/src/auth/auth-config.service.ts:257-260` | after a restart the password lets the owner in exactly as long as the session secret decrypts |
| `Money.ToCents` | `apps/frontend/src/utils/money.ts:61-68` | the parser returns the exact value rounded to cents, half away from zero, and nothing for other strings |
| `Money.MatchIff` | `apps/frontend/src/utils/money.ts:61` | the expression matches exactly the written numbers, each in one way |
| `Money.ExactCentsIs` | `apps/frontend/src/utils/money.ts:63-66` | the exact value is a hundred times the digits without the point, moved back by as many places |
| `Money.RoundHalfAwayIff` | `apps/frontend/src/utils/money.ts:60-67` | the rounding is the nearest whole number, of two equally near ones the one away from zero |
| `Money.ThirdDigitDecides` | `apps/frontend/src/utils/money.ts:65-66` | reading one digit past the cents rounds correctly for fractions of any length |
| `Money.CentsRoundTrip` | `apps/frontend/src/utils/money.ts:60-74` | printing and parsing is the identity on every amount of cents |
| `Money.PrintedForm` | `apps/frontend/src/utils/money.ts:70-74` | an amount is printed with two digits after the point and no leading zeros |
| `Money.RoundMoneyIdempotent` | `apps/frontend/src/utils/money.ts:77-80` | rounding a rounded string changes nothing |
| `Money.RoundMoneyWithinHalfCent` | `apps/frontend/src/utils/money.ts:77-80` | the rounded value is within half a cent of the exact one |
| `Money.SumMoney` | `apps/frontend/src/utils/money.ts:86-90` | the loop prints the sum of the parts in cents, other strings counting as zero |
| `Money.CaptionIsSumOfDisplayedParts` | `apps/frontend/src/utils/money.ts:82-90` | the caption parses back to the sum of its parts as displayed, in any order |
| `RefInliner.Inline` | `apps/backend/src/mcp/mcp.catalog.ts:89-109` | total on any component table, cyclic or not, by depth and node size; objects stay objects and texts stay themselves |
| `RefInliner.ReferenceIs` | `apps/backend/src/mcp/mcp.catalog.ts:97-105` | one reference: a description when its component is missing, being expanded or below six others, else the inlined component with the fields beside it put over it |
| `RefInliner.RefFreeUntouched` | `apps/backend/src/mcp/mcp.catalog.ts:94-108` | the identity on nodes without component references |
| `RefInliner.SelfContainedIff` | `apps/backend/src/mcp/mcp.catalog.ts:88-109` | for any node and any components the result has no reference left if and only if no reference that is expanded, in the node or in a component on the way, carries another one in a sibling that stays visible |
| `RefInliner.SelfContainedWithTidyComponents` | `apps/backend/src/mcp/mcp.catalog.ts:88-109` | with tidy components it is enough to look at the node itself |
| `RefInliner.SelfContained` | `apps/backend/src/mcp/mcp.catalog.ts:88-109` | tidy schemas become self-contained, and inlining again changes nothing |
| `RefInliner.SeenComponentsIgnored` | `apps/backend/src/mcp/mcp.catalog.ts:101-104` | no name is expanded inside itself: components already being expanded have no influence |
| `RefInliner.ShallowExpandsFully` | `apps/backend/src/mcp/mcp.catalog.ts:18-20` | a schema nested at most six deep is expanded fully, as the plain meaning of references says |
| `RefInliner.SiblingRefSurvives` | `apps/backend/src/mcp/mcp.catalog.ts:97-104` | a concrete schema whose reference beside a reference is left in place |
| `RefInliner.ComponentRefSurvives` | `apps/backend/src/mcp/mcp.catalog.ts:97-104` | the same inside a component that a tidy schema refers to |
| `QuietHours.RemainingIsExact` | `apps/backend/src/notifications/quiet-hours.ts:27-42` | the remaining time is positive exactly inside the window, every earlier instant is inside, and at its end the window is closed for at least a minute |
| `QuietHours.QuietByTheClock` | `apps/backend/src/notifications/quiet-hours.ts:27-38` | it is quiet if and only if the local clock reads from start to before end, past midnight when the end comes first |
| `QuietHours.TimeOfDayIff` | `apps/backend/src/notifications/quiet-hours.ts:10-13` | a time is two digits below 24, a colon and two below 60, and reads as that many minutes |
| `QuietHours.RemainingReachesClose` | `apps/backend/src/notifications/quiet-hours.ts:36-41` | the remaining time ends exactly where the window of that day closes |
| `QuietHours.DeferredRunReadsEndMinute` | `apps/backend/src/notifications/notifications.service.ts:133-137` | a second after the remaining time the local clock reads the end minute |
| `QuietHours.WindowsApart` | `apps/backend/src/notifications/quiet-hours.ts:27-30` | windows of different days never touch |
| `QuietHours.QuietLaterIff` | `apps/backend/src/notifications/quiet-hours.ts:27-42` | an instant after one outside the window is inside if and only if a window opened in between and is still open |
| `Notifications.AllowedSendKeepsThrottle` | `apps/backend/src/notifications/notifications.service.ts:142-149` | a message whose key was not logged in the last 24 hours keeps the spacing: after a recorded message the next one of its key comes more than 24 hours later |
| `Notifications.KeysTellAlertsApart` | `apps/backend/src/notifications/notifications.service.ts:54-100` | a dedup key names one kind of alert about one subject, so different alerts never throttle each other |
| `Notifications.CandidatesAre` | `apps/backend/src/notifications/notifications.service.ts:54-100` | the keys a check tries are exactly those of the critical charges, low runways, overdue services, charges within the horizon and accounts with errors |
| `Notifications.NotificationsService.MaybeSend` | `apps/backend/src/notifications/notifications.service.ts:142-149` | for every answer of log, settings, Telegram and log again: skipped, refused, sent and recorded, sent but lost to the log, or broken off; the two last ones throw |
| `Notifications.AttemptIff` | `apps/backend/src/notifications/notifications.service.ts:142-149` | a message goes out if and only if none of its key was logged in 24 hours and the log, the settings and Telegram answer; it counts if the log takes it too |
| `Notifications.NotificationsService.DeferUntilQuietEnds` | `apps/backend/src/notifications/notifications.service.ts:129-140` | exactly one timer is pending afterwards, due a second after the window closes |
| `Notifications.NotificationsService.CheckAndNotify` | `apps/backend/src/notifications/notifications.service.ts:38-105` | a check that reads the clock inside the quiet window sends nothing and arms one timer; any other tries the listed keys in order, all of them or up to the call that failed, and every message but possibly the last one before a failure is recorded. Messages go out between the arrival of the summary and the end of the check, and one falls inside the window if and only if the window opened after the clock was read |
| `Notifications.SlowSummarySendsAtNight` | `apps/backend/src/notifications/notifications.service.ts:41-49` | a check at half past ten with a window from eleven to eight: if the summary takes up to nine hours, the overdue alert goes out when it arrives, inside the window if and only if that took half an hour or more |
| `Notifications.NotificationsService.TimerFires` | `apps/backend/src/notifications/notifications.service.ts:134-137` | a deferred run that reads the clock within 59 seconds is not deferred again under the same settings |
| `Notifications.Replay` | `apps/backend/src/notifications/notifications.service.ts:38-149` | over every run with any failures, after a recorded message the next one of its key comes more than 24 hours later, and at most one timer is pending; if no call fails every message is recorded |
| `Notifications.RepeatsIffNotRecorded` | `apps/backend/src/notifications/notifications.service.ts:142-149` | with every other call going through at once, an alert tried again at any gap of at most 24 hours comes up again if and only if the write of the first message to the log failed |

## Left out

- Connectors, pagination, retries and field mappers: I/O over external APIs.
- Cryptography (AES-GCM, scrypt, JWT, JWKS, HMAC, WebAuthn verification): parameters of the steps that need a result.
- Controllers, DTO validation, cron wiring, logging, message texts, the user interface, favicons: no property of their own here.
- `Decimal` precision and `toFixed`: amounts are exact reals, except the cent rounding in `spend.ts` and `money.ts`; stored prices of services and payments are whole cents.
- Concurrency inside one handler: every handler is one atomic step, although several read and write across an `await` without a lock. Notification checks are finer: every awaited call takes time and may fail, a failed one throwing except for Telegram's answer.
- Strings are sequences of Unicode characters; label folding covers Latin and Russian letters one by one; base32 upper-casing is complete as far as the alphabet can tell. UTF-16 surrogates and label folds that change length are not modelled.
- ISO days are day numbers, months are month indices, local time is a fixed whole-minute offset; daylight-saving changes inside a quiet window are not modelled. `dayjs` and `Intl` internals are not part of this model.
- Arrays have fewer than 2 to the 32nd elements, as in JavaScript; the 64-character bound on merged labels rests on it.
- Coverage.Simulate: takes the list of upcoming services as given; the sort by date in front of it is not modelled, and the results hold for a list in any order.
- Coverage.TopUps: the final sort of the suggestions by amount and the formatting of amounts are not modelled.
- Currency.Convert: rates are positive; a stored rate of zero would make the source divide by zero.
- Grouping.GroupServices: the per-project statistics use the same grouping and are not modelled separately; the balance lists per currency are left out.
- Actuals.ActualBuckets: force mode, which replaces the actual bars by the tariff estimate, is not modelled.
- Forecast.Project: billing dates are calendar days; the time of day is ignored, as billing dates are UTC midnights by intent. The year starts at zero.
- The runway list of the summary (which accounts it lists, severity, depletion date) is not modelled; its burn rate, fallback and day count are.
- ServiceSync.EditPatch: vendor and marker keys in `meta`, the description, and moves to another project or account are not modelled.
- ServiceSync.ServiceTable.UpsertServices: vendor keys and the stored period, currency and country of the proposal in `meta` are not modelled; services created by hand have no external id and no sync touches them, so the table holds synced services only.
- Payments.Ledger.UpsertPayments: deleting payments and moving them with their service are not modelled.
- Providers.ProviderStore.UpdateAccount: models the label; credentials, flags and the records that move along with an account are one opaque value that no edit changes here.
- HistoricalRates.AsOf: the refresh and backfill of the archive are not modelled; rows arrive sorted by day, as the archive is read.
- SignIn.AuthStore.HandleCallback: the exchange and token check are one answer of the outside; the cookie and its expiry are decided before.
- SignIn.AuthStore.RegisterPasskey: challenges are not modelled; the answer of the authenticator with its counter check is one parameter, here and in `PasskeyLogin`, except for the relying party ID and the origin.
- SignIn.GuardIsRightIff: what a browser or Telegram may refuse of its own accord is left out.
- Notifications.NotificationsService.CheckAndNotify: what the summary lists comes in as a parameter, and sample messages ignore throttling by design; a log write that fails leaves no row.
- RefInliner.Inline: loading operations from the OpenAPI document and filtering them by token scope are not modelled; integer-like keys keep no special order, and a component named like a property every JavaScript object inherits is looked up as its own.
- Totp.TotpCode: the hash is any function with 20-byte results.
