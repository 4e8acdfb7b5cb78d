/**
 * Throttled notifications with a quiet window (apps/backend/src/notifications/
 * notifications.service.ts). The database, Telegram and the clock are one environment: every call
 * that is awaited takes some time and may fail, as `world` says. A failed database call throws,
 * which ends the check; a message that Telegram does not accept is only not counted.
 */
module Notifications {
  import opened Prelude
  import opened QuietHours

  const THROTTLE_MS: int := 24 * 3_600_000
  const DEFAULT_UPCOMING_BILLING_DAYS: int := 3
  const QUIET_TIMEOUT: string := "notifications-quiet-hours"

  /** One awaited call: how long it took and whether it went through. */
  datatype Moment = Moment(took: nat, ok: bool)

  datatype Settings = Settings(quiet: QuietHours, upcomingBillingDays: int)

  /** `day` is the calendar day of `nextBillingAt` as it is printed into the key. */
  datatype Upcoming = Upcoming(serviceUuid: string, critical: bool, covered: Option<bool>, nextBillingAt: int,
                               day: string)

  datatype Runway = Runway(accountUuid: string, critical: bool)

  datatype Summary = Summary(upcoming: seq<Upcoming>, runway: seq<Runway>, overdue: seq<string>)

  datatype LogRow = LogRow(dedupKey: string, sentAt: int)

  /** A message Telegram accepted, and whether the log got to know. */
  datatype Send = Send(key: string, at: int, recorded: bool)

  /** How an alert fares: `Lost` was accepted but not recorded, `Aborted` did not get that far. */
  datatype Attempt = Skipped | Refused | Recorded | Lost | Aborted

  function AttemptOf(log: seq<LogRow>, key: string, since: int, world: nat -> Moment, n: nat): Attempt {
    if !world(n).ok then Aborted
    else if SentSince(log, key, since) then Skipped
    else if !world(n + 1).ok then Aborted
    else if !world(n + 2).ok then Refused
    else if world(n + 3).ok then Recorded
    else Lost
  }

  /** The log holds a row of the key from the last 24 hours. */
  ghost predicate LoggedLately(log: seq<LogRow>, key: string, now: int) {
    exists i :: 0 <= i < |log| && log[i].dedupKey == key && now - 86_400_000 <= log[i].sentAt
  }

  /**
   * Four calls in a row: the log, the settings, Telegram and the log again. A message goes out
   * exactly if nothing was logged lately and the first three work; it counts if the fourth does too.
   */
  lemma AttemptIff(log: seq<LogRow>, key: string, now: int, world: nat -> Moment, n: nat)
    ensures var attempt := AttemptOf(log, key, now - THROTTLE_MS, world, n); var lately := LoggedLately(log, key, now);
            && (attempt.Recorded? || attempt.Lost?
                <==> !lately && world(n).ok && world(n + 1).ok && world(n + 2).ok)
            && (attempt.Recorded? <==> !lately && world(n).ok && world(n + 1).ok && world(n + 2).ok && world(n + 3).ok)
            && (attempt.Aborted? <==> !world(n).ok || (!lately && !world(n + 1).ok))
            && (attempt.Refused? <==> !lately && world(n).ok && world(n + 1).ok && !world(n + 2).ok)
  {
    assert LoggedLately(log, key, now) <==> SentSince(log, key, now - THROTTLE_MS);
  }

  // ---------------------------------------------------------------- which alerts a check is about

  datatype Alert = UnknownCoverage | LowBalance | LowRunway | Overdue | UpcomingBilling | SyncError

  function Prefix(a: Alert): string {
    match a
    case UnknownCoverage => "unknown-coverage:"
    case LowBalance => "low-balance:"
    case LowRunway => "runway:"
    case Overdue => "overdue:"
    case UpcomingBilling => "upcoming:"
    case SyncError => "sync-error:"
  }

  function KeyOf(a: Alert, subject: string): string {
    Prefix(a) + subject
  }

  /** A key names one kind of alert about one subject: alerts never throttle each other. */
  lemma KeysTellAlertsApart(a: Alert, b: Alert, subject: string, other: string)
    requires KeyOf(a, subject) == KeyOf(b, other)
    ensures a == b && subject == other
  {
    var key := KeyOf(a, subject);
    assert key[0] == Prefix(a)[0] == Prefix(b)[0] && key[1] == Prefix(a)[1] == Prefix(b)[1];
    assert key[|Prefix(a)|..] == subject && key[|Prefix(b)|..] == other;
  }

  function CriticalKey(u: Upcoming): string {
    KeyOf(if u.covered.None? then UnknownCoverage else LowBalance, u.serviceUuid)
  }

  function CriticalKeys(rows: seq<Upcoming>): seq<string> {
    if rows == [] then []
    else
      var u := rows[|rows| - 1];
      CriticalKeys(rows[..|rows| - 1]) + if u.critical then [CriticalKey(u)] else []
  }

  function RunwayKeys(rows: seq<Runway>): seq<string> {
    if rows == [] then []
    else
      var r := rows[|rows| - 1];
      RunwayKeys(rows[..|rows| - 1]) + if r.critical then [KeyOf(LowRunway, r.accountUuid)] else []
  }

  function OverdueKeys(uuids: seq<string>): seq<string> {
    seq(|uuids|, i requires 0 <= i < |uuids| => KeyOf(Overdue, uuids[i]))
  }

  function UpcomingKeys(rows: seq<Upcoming>, horizon: int): seq<string> {
    if rows == [] then []
    else
      var u := rows[|rows| - 1];
      UpcomingKeys(rows[..|rows| - 1], horizon)
      + if u.nextBillingAt <= horizon then [KeyOf(UpcomingBilling, u.serviceUuid + ":" + u.day)] else []
  }

  /** One per account, at its first error run. */
  function ErrorKeys(accounts: seq<string>): seq<string> {
    if accounts == [] then []
    else
      var n := |accounts| - 1;
      ErrorKeys(accounts[..n]) + if accounts[n] in accounts[..n] then [] else [KeyOf(SyncError, accounts[n])]
  }

  lemma {:induction false} CriticalPrefix(rows: seq<Upcoming>, i: nat)
    requires i <= |rows|
    ensures CriticalKeys(rows[..i]) <= CriticalKeys(rows)
  {
    if i < |rows| {
      CriticalPrefix(rows[..|rows| - 1], i);
      assert rows[..|rows| - 1][..i] == rows[..i];
    } else {
      assert rows[..i] == rows;
    }
  }

  lemma {:induction false} RunwayPrefix(rows: seq<Runway>, i: nat)
    requires i <= |rows|
    ensures RunwayKeys(rows[..i]) <= RunwayKeys(rows)
  {
    if i < |rows| {
      RunwayPrefix(rows[..|rows| - 1], i);
      assert rows[..|rows| - 1][..i] == rows[..i];
    } else {
      assert rows[..i] == rows;
    }
  }

  lemma {:induction false} UpcomingPrefix(rows: seq<Upcoming>, horizon: int, i: nat)
    requires i <= |rows|
    ensures UpcomingKeys(rows[..i], horizon) <= UpcomingKeys(rows, horizon)
  {
    if i < |rows| {
      UpcomingPrefix(rows[..|rows| - 1], horizon, i);
      assert rows[..|rows| - 1][..i] == rows[..i];
    } else {
      assert rows[..i] == rows;
    }
  }

  lemma {:induction false} ErrorPrefix(accounts: seq<string>, i: nat)
    requires i <= |accounts|
    ensures ErrorKeys(accounts[..i]) <= ErrorKeys(accounts)
  {
    if i < |accounts| {
      ErrorPrefix(accounts[..|accounts| - 1], i);
      assert accounts[..|accounts| - 1][..i] == accounts[..i];
    } else {
      assert accounts[..i] == accounts;
    }
  }

  function Candidates(s: Summary, errorAccounts: seq<string>, horizon: int): seq<string> {
    CriticalKeys(s.upcoming) + RunwayKeys(s.runway) + OverdueKeys(s.overdue)
    + UpcomingKeys(s.upcoming, horizon) + ErrorKeys(errorAccounts)
  }

  /** What a check may ask about, one kind of alert after the other. */
  ghost predicate Concerns(s: Summary, errorAccounts: seq<string>, horizon: int, key: string) {
    || (exists u :: u in s.upcoming && u.critical && u.covered == None && key == "unknown-coverage:" + u.serviceUuid)
    || (exists u :: u in s.upcoming && u.critical && u.covered != None && key == "low-balance:" + u.serviceUuid)
    || (exists r :: r in s.runway && r.critical && key == "runway:" + r.accountUuid)
    || (exists uuid :: uuid in s.overdue && key == "overdue:" + uuid)
    || (exists u :: u in s.upcoming && u.nextBillingAt <= horizon
                    && key == "upcoming:" + u.serviceUuid + ":" + u.day)
    || (exists account :: account in errorAccounts && key == "sync-error:" + account)
  }

  lemma {:induction false} CriticalKeysAre(rows: seq<Upcoming>, key: string)
    ensures key in CriticalKeys(rows)
            <==> || (exists u :: u in rows && u.critical && u.covered == None
                                 && key == "unknown-coverage:" + u.serviceUuid)
                 || (exists u :: u in rows && u.critical && u.covered != None && key == "low-balance:" + u.serviceUuid)
  {
    if rows != [] {
      CriticalKeysAre(rows[..|rows| - 1], key);
    }
  }

  lemma {:induction false} RunwayKeysAre(rows: seq<Runway>, key: string)
    ensures key in RunwayKeys(rows) <==> exists r :: r in rows && r.critical && key == "runway:" + r.accountUuid
  {
    if rows != [] {
      RunwayKeysAre(rows[..|rows| - 1], key);
    }
  }

  lemma {:induction false} UpcomingKeysAre(rows: seq<Upcoming>, horizon: int, key: string)
    ensures key in UpcomingKeys(rows, horizon)
            <==> exists u :: u in rows && u.nextBillingAt <= horizon
                             && key == "upcoming:" + u.serviceUuid + ":" + u.day
  {
    if rows != [] {
      UpcomingKeysAre(rows[..|rows| - 1], horizon, key);
      var u := rows[|rows| - 1];
      assert "upcoming:" + (u.serviceUuid + ":" + u.day) == "upcoming:" + u.serviceUuid + ":" + u.day;
    }
  }

  lemma OverdueKeysAre(uuids: seq<string>, key: string)
    ensures key in OverdueKeys(uuids) <==> exists uuid :: uuid in uuids && key == "overdue:" + uuid
  {
    if uuid :| uuid in uuids && key == "overdue:" + uuid {
      var i :| 0 <= i < |uuids| && uuids[i] == uuid;
      assert OverdueKeys(uuids)[i] == key;
    }
  }

  /** Every account with an error comes up, and only once. */
  lemma {:induction false} ErrorKeysAre(accounts: seq<string>, key: string)
    ensures key in ErrorKeys(accounts) <==> exists account :: account in accounts && key == "sync-error:" + account
    ensures forall i, j :: 0 <= i < j < |ErrorKeys(accounts)| ==> ErrorKeys(accounts)[i] != ErrorKeys(accounts)[j]
  {
    if accounts != [] {
      var n := |accounts| - 1;
      ErrorKeysAre(accounts[..n], key);
      assert accounts == accounts[..n] + [accounts[n]];
      if accounts[n] !in accounts[..n] {
        NotYetThere(accounts[..n], accounts[n]);
      }
    }
  }

  lemma {:induction false} NotYetThere(accounts: seq<string>, account: string)
    requires account !in accounts
    ensures KeyOf(SyncError, account) !in ErrorKeys(accounts)
  {
    if accounts != [] {
      var n := |accounts| - 1;
      assert accounts[n] in accounts && account !in accounts[..n];
      NotYetThere(accounts[..n], account);
      if KeyOf(SyncError, account) == KeyOf(SyncError, accounts[n]) {
        KeysTellAlertsApart(SyncError, SyncError, account, accounts[n]);
      }
    }
  }

  lemma CandidatesAre(s: Summary, errorAccounts: seq<string>, horizon: int, key: string)
    ensures key in Candidates(s, errorAccounts, horizon) <==> Concerns(s, errorAccounts, horizon, key)
  {
    hide CriticalKeys, RunwayKeys, OverdueKeys, UpcomingKeys, ErrorKeys;
    CriticalKeysAre(s.upcoming, key);
    RunwayKeysAre(s.runway, key);
    OverdueKeysAre(s.overdue, key);
    UpcomingKeysAre(s.upcoming, horizon, key);
    ErrorKeysAre(errorAccounts, key);
  }

  function UpcomingDays(settings: Option<Settings>): int {
    if settings.Some? then settings.value.upcomingBillingDays else DEFAULT_UPCOMING_BILLING_DAYS
  }

  // ---------------------------------------------------------------- what the log and the timers keep

  predicate SentSince(log: seq<LogRow>, key: string, since: int) {
    exists i :: 0 <= i < |log| && log[i].dedupKey == key && log[i].sentAt >= since
  }

  /** Every recorded message is logged, not before it was accepted, and nothing else is. */
  ghost predicate Logged(log: seq<LogRow>, sends: seq<Send>, clock: int) {
    && (forall i :: 0 <= i < |sends| && sends[i].recorded ==> SentSince(log, sends[i].key, sends[i].at))
    && (forall i :: 0 <= i < |log| ==> log[i].sentAt <= clock && Accepted(sends, log[i]))
  }

  ghost predicate Accepted(sends: seq<Send>, row: LogRow) {
    exists i :: 0 <= i < |sends| && sends[i].recorded && sends[i].key == row.dedupKey && sends[i].at <= row.sentAt
  }

  lemma AcceptedKept(sends: seq<Send>, send: Send, row: LogRow)
    requires Accepted(sends, row)
    ensures Accepted(sends + [send], row)
  {
    var k :| 0 <= k < |sends| && sends[k].recorded && sends[k].key == row.dedupKey && sends[k].at <= row.sentAt;
    assert (sends + [send])[k] == sends[k];
  }

  /** After a recorded message the next one of its key comes more than 24 hours later. */
  ghost predicate Throttled(sends: seq<Send>) {
    forall i, j :: 0 <= i < j < |sends| && sends[i].key == sends[j].key && sends[i].recorded ==>
      sends[j].at > sends[i].at + 86_400_000
  }

  ghost predicate AllRecorded(sends: seq<Send>, from: nat, to: int) {
    forall i :: from <= i < to && i < |sends| ==> sends[i].recorded
  }

  ghost predicate SentBetween(sends: seq<Send>, from: nat, earliest: int, latest: int) {
    forall i :: from <= i < |sends| ==> earliest <= sends[i].at <= latest
  }

  lemma NothingSent(sends: seq<Send>)
    ensures forall to :: to <= |sends| ==> AllRecorded(sends, |sends|, to)
    ensures forall earliest, latest :: SentBetween(sends, |sends|, earliest, latest)
  {
  }

  lemma QuietSendsIff(q: QuietHours, sends: seq<Send>, from: nat, readAt: int, earliest: int, latest: int)
    requires WellFormed(q) && !IsQuiet(q, readAt)
    requires readAt <= earliest && SentBetween(sends, from, earliest, latest)
    ensures forall i :: from <= i < |sends| ==>
              (IsQuiet(q, sends[i].at) <==> OpenedSince(q, readAt, sends[i].at))
  {
    hide IsQuiet, OpenedSince;
    forall i | from <= i < |sends| ensures IsQuiet(q, sends[i].at) <==> OpenedSince(q, readAt, sends[i].at) {
      QuietLaterIff(q, readAt, sends[i].at);
    }
  }

  lemma AllowedSendKeepsThrottle(log: seq<LogRow>, sends: seq<Send>, key: string, checkedAt: int, sentAt: int)
    requires Throttled(sends) && Logged(log, sends, checkedAt) && checkedAt <= sentAt
    requires !SentSince(log, key, checkedAt - THROTTLE_MS)
    ensures forall recorded :: Throttled(sends + [Send(key, sentAt, recorded)])
  {
    forall i | 0 <= i < |sends| && sends[i].key == key && sends[i].recorded
      ensures sentAt > sends[i].at + THROTTLE_MS
    {
      var k :| 0 <= k < |log| && log[k].dedupKey == key && log[k].sentAt >= sends[i].at;
    }
  }

  lemma ThrottledMeans(sends: seq<Send>)
    ensures Throttled(sends) ==>
              forall i, j :: 0 <= i < j < |sends| && sends[i].key == sends[j].key && sends[i].recorded ==>
                sends[j].at > sends[i].at + 86_400_000
  {
  }

  lemma LostSendKeepsLog(log: seq<LogRow>, sends: seq<Send>, key: string, clock: int, sentAt: int, later: int)
    requires Logged(log, sends, clock) && clock <= later
    ensures Logged(log, sends + [Send(key, sentAt, false)], later)
  {
    hide Accepted, SentSince;
    forall i | 0 <= i < |log| ensures Accepted(sends + [Send(key, sentAt, false)], log[i]) {
      AcceptedKept(sends, Send(key, sentAt, false), log[i]);
    }
  }

  lemma RecordedSendKeepsLog(log: seq<LogRow>, sends: seq<Send>, key: string, clock: int, sentAt: int, recordedAt: int)
    requires Logged(log, sends, clock) && clock <= sentAt <= recordedAt
    ensures Logged(log + [LogRow(key, recordedAt)], sends + [Send(key, sentAt, true)], recordedAt)
  {
    var log', sends' := log + [LogRow(key, recordedAt)], sends + [Send(key, sentAt, true)];
    forall i | 0 <= i < |sends'| && sends'[i].recorded ensures SentSince(log', sends'[i].key, sends'[i].at) {
      if i < |sends| {
        SentSinceKept(log, LogRow(key, recordedAt), sends[i].key, sends[i].at);
      } else {
        assert log'[|log|].dedupKey == key;
      }
    }
    forall i | 0 <= i < |log'| ensures Accepted(sends', log'[i]) {
      if i < |log| {
        AcceptedKept(sends, Send(key, sentAt, true), log[i]);
      } else {
        assert sends'[|sends|].recorded;
      }
    }
  }

  /** When something is logged and at most one message went out, then that one, at the moment known. */
  lemma OneSend(log: seq<LogRow>, sends: seq<Send>, clock: int, key: string, since: int, at: int)
    requires Logged(log, sends, clock) && SentSince(log, key, since)
    requires |sends| <= 1 && SentBetween(sends, 0, at, at)
    ensures sends == [Send(key, at, true)]
  {
    var k :| 0 <= k < |log| && log[k].dedupKey == key;
    assert Accepted(sends, log[k]);
  }

  /** A tried key was passed over or is recorded now, and the earlier ones stay in the log. */
  lemma TriedAreLogged(before: seq<LogRow>, log: seq<LogRow>, key: string, tried: seq<string>, since: int,
                       later: int, ok: bool)
    requires since <= later
    requires forall k :: k in tried ==> SentSince(before, k, since)
    requires if ok then |log| > 0 && log == before + [log[|log| - 1]] else log == before
    requires if ok then log[|log| - 1].dedupKey == key && log[|log| - 1].sentAt >= later else SentSince(log, key, later)
    ensures forall k :: k in tried + [key] ==> SentSince(log, k, since)
  {
    forall k | k in tried + [key] ensures SentSince(log, k, since) {
      if k in tried && ok {
        SentSinceKept(before, log[|log| - 1], k, since);
      }
    }
  }

  lemma SentSinceKept(log: seq<LogRow>, row: LogRow, key: string, since: int)
    requires SentSince(log, key, since)
    ensures SentSince(log + [row], key, since)
  {
    var k :| 0 <= k < |log| && log[k].dedupKey == key && log[k].sentAt >= since;
    assert (log + [row])[k] == log[k];
  }

  // ---------------------------------------------------------------- the service

  /** What the first `n` calls took together. */
  ghost function Elapsed(world: nat -> Moment, n: nat): nat {
    if n == 0 then 0 else Elapsed(world, n - 1) + world(n - 1).took
  }

  lemma {:induction false} ElapsedOfOne(world: nat -> Moment, slow: nat, n: nat)
    requires forall i :: i != slow ==> world(i).took == 0
    ensures Elapsed(world, n) == if n <= slow then 0 else world(slow).took
  {
    if n > 0 {
      ElapsedOfOne(world, slow, n - 1);
    }
  }

  class NotificationsService {
    const world: nat -> Moment
    var calls: nat
    var clock: int
    var telegramEnabled: bool
    var settings: Option<Settings>
    var log: seq<LogRow>
    /** The pending JavaScript timers and when they are due; the registry names some of them. */
    var timers: map<nat, int>
    var registry: map<string, nat>
    var nextTimer: nat
    ghost var sends: seq<Send>
    ghost var asked: seq<string>
    /** The clock without the time spent in calls. */
    ghost var idle: int
    ghost var armedFor: QuietHours

    ghost predicate Valid()
      reads this
    {
      && (settings.Some? ==> WellFormed(settings.value.quiet))
      && Logged(log, sends, clock) && Throttled(sends)
      && ClockOk() && TimersOk()
    }

    ghost predicate ClockOk()
      reads this`clock, this`idle, this`calls
    {
      clock == idle + Elapsed(world, calls)
    }

    /** At most one timer is pending, the registered one, and its moment is clear of the window. */
    ghost predicate TimersOk()
      reads this`timers, this`registry, this`nextTimer, this`armedFor
    {
      && WellFormed(armedFor)
      && if QUIET_TIMEOUT in registry then OneTimer(registry[QUIET_TIMEOUT]) else registry == map[] && timers == map[]
    }

    ghost predicate OneTimer(id: nat)
      requires WellFormed(armedFor)
      reads this`timers, this`registry, this`nextTimer, this`armedFor
    {
      && registry == map[QUIET_TIMEOUT := id] && id < nextTimer
      && id in timers && timers == map[id := timers[id]] && ClearAt(armedFor, timers[id])
    }

    constructor (world: nat -> Moment, clock: int)
      ensures Valid() && this.world == world && this.clock == clock
      ensures sends == [] && asked == [] && timers == map[] && log == [] && calls == 0 && settings == None
    {
      this.world, this.clock, calls, idle := world, clock, 0, clock;
      telegramEnabled, settings := false, None;
      log, timers, registry, nextTimer := [], map[], map[], 0;
      sends, asked, armedFor := [], [], QuietHours(false, "00:00", "00:00", 0);
    }

    ghost predicate AllGoesWell() {
      forall n :: world(n).ok
    }

    /** An awaited call: time passes, and the environment answers. */
    method Await() returns (ok: bool)
      modifies this`calls, this`clock
      ensures clock == old(clock) + world(old(calls)).took && calls == old(calls) + 1 && ok == world(old(calls)).ok
      ensures old(Valid()) ==> Valid()
    {
      var moment := world(calls);
      clock, calls := clock + moment.took, calls + 1;
      ok := moment.ok;
    }

    method Wait(ms: nat)
      requires Valid()
      modifies this`clock, this`idle
      ensures Valid() && clock == old(clock) + ms
    {
      clock, idle := clock + ms, idle + ms;
    }

    /** Ask the log, then Telegram, then the log again: a key logged in the last 24 hours is passed over. */
    method MaybeSend(dedupKey: string) returns (sent: bool, failed: bool)
      requires Valid()
      modifies this`calls, this`clock, this`log, this`sends, this`asked
      ensures Valid() && clock >= old(clock) && asked == old(asked) + [dedupKey]
      ensures failed ==> !AllGoesWell()
      ensures var attempt := AttemptOf(old(log), dedupKey, old(clock) - THROTTLE_MS, world, old(calls));
              && sent == attempt.Recorded? && failed == (attempt.Aborted? || attempt.Lost?)
              && (if attempt.Recorded? || attempt.Lost? then
                    && |sends| == |old(sends)| + 1 && sends[..|old(sends)|] == old(sends)
                    && sends[|old(sends)|] == Send(dedupKey, sends[|old(sends)|].at, attempt.Recorded?)
                    && old(clock) <= sends[|old(sends)|].at <= clock && calls == old(calls) + 4
                  else sends == old(sends))
              && log == if attempt.Recorded? then old(log) + [LogRow(dedupKey, clock)] else old(log)
    {
      hide ClockOk, TimersOk, Throttled, Logged, SentSince;
      asked := asked + [dedupKey];
      ghost var checkedAt := clock;
      var since := clock - THROTTLE_MS;
      var answered := Await();
      if !answered {
        return false, true;
      }
      if SentSince(log, dedupKey, since) {
        return false, false;
      }
      var configured := Await();
      if !configured {
        return false, true;
      }
      var accepted := Await();
      if !accepted {
        return false, false;
      }
      sent := Record(dedupKey, checkedAt);
      failed := !sent;
    }

    /** The message is out; the log may get to know or not. */
    method Record(dedupKey: string, ghost checkedAt: int) returns (recorded: bool)
      requires Valid() && Logged(log, sends, checkedAt) && checkedAt <= clock
      requires !SentSince(log, dedupKey, checkedAt - THROTTLE_MS)
      modifies this`calls, this`clock, this`log, this`sends
      ensures Valid() && recorded == world(old(calls)).ok && calls == old(calls) + 1
      ensures clock == old(clock) + world(old(calls)).took
      ensures sends == old(sends) + [Send(dedupKey, old(clock), recorded)]
      ensures log == if recorded then old(log) + [LogRow(dedupKey, clock)] else old(log)
    {
      hide ClockOk, TimersOk, Throttled, Logged, SentSince;
      ghost var sentAt := clock;
      AllowedSendKeepsThrottle(log, sends, dedupKey, checkedAt, sentAt);
      recorded := Await();
      if recorded {
        RecordedSendKeepsLog(log, sends, dedupKey, checkedAt, sentAt, clock);
        log := log + [LogRow(dedupKey, clock)];
      } else {
        LostSendKeepsLog(log, sends, dedupKey, checkedAt, sentAt, clock);
      }
      sends := sends + [Send(dedupKey, sentAt, recorded)];
    }

    /** Clears the pending timer of that name; the scheduler throws when there is none. */
    method DeleteTimeout(name: string)
      requires name in registry
      modifies this`timers, this`registry
      ensures registry == old(registry) - {name} && timers == old(timers) - {old(registry[name])}
    {
      timers := timers - {registry[name]};
      registry := registry - {name};
    }

    /** Names a pending timer; the scheduler throws when the name is taken. */
    method AddTimeout(name: string, id: nat)
      requires name !in registry
      modifies this`registry
      ensures registry == old(registry)[name := id]
    {
      registry := registry[name := id];
    }

    /** One run is planned for a second after the window; an earlier plan is dropped. */
    method DeferUntilQuietEnds(ms: int)
      requires Valid() && settings.Some?
      requires ms == RemainingMs(settings.value.quiet, clock) && ms > 0
      modifies this`timers, this`registry, this`nextTimer, this`armedFor
      ensures Valid() && armedFor == settings.value.quiet
      ensures timers == map[old(nextTimer) := clock + ms + 1000]
    {
      hide ClockOk, Throttled, Logged, RemainingMs, IsQuiet, ClearAt;
      if QUIET_TIMEOUT in registry {
        DeleteTimeout(QUIET_TIMEOUT);
      }
      assert registry == map[] && timers == map[];
      DeferredMomentIsClear(settings.value.quiet, clock);
      var id := nextTimer;
      timers, nextTimer := timers[id := clock + ms + 1000], nextTimer + 1;
      AddTimeout(QUIET_TIMEOUT, id);
      armedFor := settings.value.quiet;
      assert registry == map[QUIET_TIMEOUT := id] && timers == map[id := clock + ms + 1000];
    }

    /** The state while a check walks its candidates: `tried` were asked about, `sent` accepted. */
    ghost predicate Walking(before: seq<Send>, askedBefore: seq<string>, readAt: int, tried: seq<string>, sent: nat)
      reads this
    {
      && Valid() && readAt <= clock
      && before <= sends && |sends| == |before| + sent && sent <= |tried| && AllRecorded(sends, |before|, |sends|)
      && SentBetween(sends, |before|, readAt, clock)
      && asked == askedBefore + tried
      && (AllGoesWell() ==> forall k :: k in tried ==> SentSince(log, k, readAt - THROTTLE_MS))
    }

    /** The state when a call throws: only the last message may be missing from the log. */
    ghost predicate Stopped(before: seq<Send>, askedBefore: seq<string>, readAt: int, candidates: seq<string>)
      reads this
    {
      && Valid() && !AllGoesWell()
      && before <= sends && AllRecorded(sends, |before|, |sends| - 1)
      && readAt <= clock && SentBetween(sends, |before|, readAt, clock)
      && askedBefore <= asked && asked[|askedBefore|..] <= candidates
    }

    lemma StopsWithin(before: seq<Send>, askedBefore: seq<string>, readAt: int, candidates: seq<string>,
                      more: seq<string>)
      requires Stopped(before, askedBefore, readAt, candidates) && candidates <= more
      ensures Stopped(before, askedBefore, readAt, more)
    {
    }

    method MaybeSendNext(key: string, sent: nat, ghost before: seq<Send>, ghost askedBefore: seq<string>,
                         ghost readAt: int, ghost tried: seq<string>) returns (sent': nat, failed: bool)
      requires Walking(before, askedBefore, readAt, tried, sent)
      modifies this`calls, this`clock, this`log, this`sends, this`asked
      ensures clock >= old(clock)
      ensures !failed ==> Walking(before, askedBefore, readAt, tried + [key], sent')
      ensures failed ==> Stopped(before, askedBefore, readAt, tried + [key])
    {
      hide ClockOk, TimersOk, Throttled, Logged, SentSince, AllGoesWell, WellFormed;
      ghost var since := clock - THROTTLE_MS;
      sent' := sent;
      var ok;
      ok, failed := MaybeSend(key);
      if failed {
        assert asked[|askedBefore|..] == tried + [key];
        return;
      }
      if ok {
        sent' := sent' + 1;
      }
      if AllGoesWell() {
        TriedAreLogged(old(log), log, key, tried, readAt - THROTTLE_MS, since, ok) by {
          AllAnswer(old(calls));
        }
      }
    }

    lemma AllAnswer(n: nat)
      requires AllGoesWell()
      ensures world(n).ok && world(n + 1).ok && world(n + 2).ok && world(n + 3).ok
    {
    }

    /** Whether a check reading the clock at `t` is held back. */
    ghost predicate HeldBack(t: int)
      requires Valid()
      reads this
    {
      settings.Some? && IsQuiet(settings.value.quiet, t)
    }

    /**
     * Evaluate the alerts and send what is not throttled; when the clock is read inside the quiet
     * window only plan a re-run. Nothing goes out before the summary is loaded, and a message falls
     * inside the window exactly when that opened after the clock was read. When a call fails the
     * check ends there, and what was sent so far stays sent.
     */
    method CheckAndNotify(summary: Summary, errorAccounts: seq<string>)
      returns (sent: nat, failed: bool, ghost readAt: int, ghost horizonFrom: int)
      requires Valid()
      modifies this`calls, this`clock, this`log, this`sends, this`asked,
               this`timers, this`registry, this`nextTimer, this`armedFor
      ensures Valid() && old(clock) <= readAt <= clock
      ensures readAt == old(clock) + world(old(calls)).took
                        + if world(old(calls)).ok && telegramEnabled then world(old(calls) + 1).took else 0
      ensures AllGoesWell() ==> !failed
      ensures old(sends) <= sends && AllRecorded(sends, |old(sends)|, |sends| - if failed then 1 else 0)
      ensures !failed ==> |sends| == |old(sends)| + sent
      ensures !telegramEnabled || HeldBack(readAt) ==> sends == old(sends) && asked == old(asked) && log == old(log)
      ensures !telegramEnabled || !HeldBack(readAt) || failed ==> timers == old(timers) && armedFor == old(armedFor)
      ensures telegramEnabled && HeldBack(readAt) && !failed ==>
                && armedFor == settings.value.quiet
                && timers == map[old(nextTimer) := readAt + RemainingMs(settings.value.quiet, readAt) + 1000]
      ensures telegramEnabled && !HeldBack(readAt) ==>
                var ahead := if settings.Some? then settings.value.upcomingBillingDays else 3;
                var tried := Candidates(summary, errorAccounts, horizonFrom + ahead * 86_400_000);
                && readAt <= horizonFrom <= clock
                && (failed ==> old(asked) <= asked && asked[|old(asked)|..] <= tried)
                && (!failed ==> asked == old(asked) + tried && sent <= |tried|)
                && (AllGoesWell() ==> forall k :: k in tried ==>
                    SentSince(log, k, readAt + world(old(calls) + 2).took - THROTTLE_MS))
      ensures SentBetween(sends, |old(sends)|, readAt + world(old(calls) + 2).took, clock)
      ensures forall i :: |old(sends)| <= i < |sends| ==>
                (HeldBack(sends[i].at) <==> settings.Some? && OpenedSince(settings.value.quiet, readAt, sends[i].at))
    {
      hide Throttled, Logged, SentSince, TimersOk, Candidates, IsQuiet, RemainingMs, OpenedSince, ClockOk,
           WellFormed, AllRecorded, SentBetween;
      NothingSent(sends);
      var ok := Await();
      sent, failed, readAt, horizonFrom := 0, !ok, clock, clock;
      if !ok || !telegramEnabled {
        return;
      }
      ok := Await();
      readAt, failed, horizonFrom := clock, !ok, clock;
      if !ok {
        return;
      }
      var held := DeferIfQuiet();
      if held {
        return;
      }
      sent, failed, horizonFrom := SendAlerts(summary, errorAccounts, UpcomingDays(settings) * MS_PER_DAY);
      if settings.Some? {
        QuietSendsIff(settings.value.quiet, sends, |old(sends)|, readAt, readAt + world(old(calls) + 2).took, clock);
      }
    }

    method DeferIfQuiet() returns (held: bool)
      requires Valid()
      modifies this`timers, this`registry, this`nextTimer, this`armedFor
      ensures Valid() && held == HeldBack(clock)
      ensures !held ==> timers == old(timers) && armedFor == old(armedFor)
      ensures held ==> && armedFor == settings.value.quiet
                       && timers == map[old(nextTimer) := clock + RemainingMs(settings.value.quiet, clock) + 1000]
    {
      hide ClockOk, Throttled, Logged, TimersOk, RemainingMs, IsQuiet;
      held := false;
      if settings.Some? {
        RemainingIsExact(settings.value.quiet, clock);
        var quietMs := RemainingMs(settings.value.quiet, clock);
        if quietMs > 0 {
          DeferUntilQuietEnds(quietMs);
          held := true;
        }
      }
    }

    /** Loading the summary, after which the alerts are walked through. */
    method AwaitSummary() returns (ok: bool)
      requires Valid()
      modifies this`calls, this`clock
      ensures clock == old(clock) + world(old(calls)).took
      ensures ok ==> Walking(sends, asked, clock, [], 0)
      ensures !ok ==> Stopped(sends, asked, clock, [])
    {
      hide ClockOk, Throttled, Logged, TimersOk;
      ok := Await();
    }

    /** A database call between two alerts. */
    method AwaitWalking(ghost before: seq<Send>, ghost askedBefore: seq<string>, ghost readAt: int,
                        ghost tried: seq<string>, ghost sent: nat) returns (ok: bool)
      requires Walking(before, askedBefore, readAt, tried, sent)
      modifies this`calls, this`clock
      ensures clock >= old(clock)
      ensures ok ==> Walking(before, askedBefore, readAt, tried, sent)
      ensures !ok ==> Stopped(before, askedBefore, readAt, tried)
    {
      hide ClockOk, Throttled, Logged, TimersOk, SentSince;
      ok := Await();
      assert asked[|askedBefore|..] == tried;
    }

    method SendAlerts(summary: Summary, errorAccounts: seq<string>, ahead: int)
      returns (sent: nat, failed: bool, ghost horizonFrom: int)
      requires Valid()
      modifies this`calls, this`clock, this`log, this`sends, this`asked
      ensures var loadedAt, tried := old(clock) + world(old(calls)).took,
                                     Candidates(summary, errorAccounts, horizonFrom + ahead);
              && loadedAt <= horizonFrom <= clock
              && (!failed ==> Walking(old(sends), old(asked), loadedAt, tried, sent))
              && (failed ==> Stopped(old(sends), old(asked), loadedAt, tried))
    {
      hide Valid, Walking, Stopped, CriticalKeys, RunwayKeys, OverdueKeys, UpcomingKeys, ErrorKeys;
      var ok := AwaitSummary();
      ghost var loadedAt := clock;
      sent, failed, horizonFrom := 0, !ok, clock;
      if failed {
        StopsWithin(old(sends), old(asked), loadedAt, [], Candidates(summary, errorAccounts, horizonFrom + ahead));
        return;
      }
      sent, failed := SendCritical(summary, old(sends), old(asked), loadedAt);
      horizonFrom := clock;
      ghost var critical := CriticalKeys(summary.upcoming) + RunwayKeys(summary.runway) + OverdueKeys(summary.overdue);
      ghost var tried := critical + UpcomingKeys(summary.upcoming, horizonFrom + ahead);
      ghost var all := tried + ErrorKeys(errorAccounts);
      if failed {
        StopsWithin(old(sends), old(asked), loadedAt, critical, all);
        return;
      }
      sent, failed := SendUpcoming(summary.upcoming, clock + ahead, sent, old(sends), old(asked), loadedAt, critical);
      if failed {
        StopsWithin(old(sends), old(asked), loadedAt, tried, all);
        return;
      }
      ok := AwaitWalking(old(sends), old(asked), loadedAt, tried, sent);
      if !ok {
        failed := true;
        StopsWithin(old(sends), old(asked), loadedAt, tried, all);
        return;
      }
      sent, failed := SendErrors(errorAccounts, sent, old(sends), old(asked), loadedAt, tried);
    }

    method SendCritical(summary: Summary, ghost before: seq<Send>, ghost askedBefore: seq<string>, ghost readAt: int)
      returns (sent: nat, failed: bool)
      requires Walking(before, askedBefore, readAt, [], 0)
      modifies this`calls, this`clock, this`log, this`sends, this`asked
      ensures clock >= old(clock)
      ensures var all := CriticalKeys(summary.upcoming) + RunwayKeys(summary.runway) + OverdueKeys(summary.overdue);
              && (!failed ==> Walking(before, askedBefore, readAt, all, sent))
              && (failed ==> Stopped(before, askedBefore, readAt, all))
    {
      hide Walking, Stopped, CriticalKeys, RunwayKeys, OverdueKeys;
      ghost var one := CriticalKeys(summary.upcoming);
      ghost var two := one + RunwayKeys(summary.runway);
      ghost var all := two + OverdueKeys(summary.overdue);
      sent, failed := SendUncovered(summary.upcoming, before, askedBefore, readAt);
      if failed {
        StopsWithin(before, askedBefore, readAt, one, all);
        return;
      }
      sent, failed := SendRunways(summary.runway, sent, before, askedBefore, readAt, one);
      if failed {
        StopsWithin(before, askedBefore, readAt, two, all);
        return;
      }
      sent, failed := SendOverdue(summary.overdue, sent, before, askedBefore, readAt, two);
    }

    method SendUncovered(ubs: seq<Upcoming>, ghost before: seq<Send>, ghost askedBefore: seq<string>, ghost readAt: int)
      returns (sent: nat, failed: bool)
      requires Walking(before, askedBefore, readAt, [], 0)
      modifies this`calls, this`clock, this`log, this`sends, this`asked
      ensures clock >= old(clock)
      ensures !failed ==> Walking(before, askedBefore, readAt, CriticalKeys(ubs), sent)
      ensures failed ==> Stopped(before, askedBefore, readAt, CriticalKeys(ubs))
    {
      hide Walking, Stopped, KeyOf;
      sent, failed := 0, false;
      for i := 0 to |ubs|
        invariant Walking(before, askedBefore, readAt, CriticalKeys(ubs[..i]), sent) && clock >= old(clock)
      {
        assert ubs[..i + 1][..i] == ubs[..i];
        if ubs[i].critical {
          sent, failed := MaybeSendNext(CriticalKey(ubs[i]), sent, before, askedBefore, readAt, CriticalKeys(ubs[..i]));
          if failed {
            CriticalPrefix(ubs, i + 1);
            StopsWithin(before, askedBefore, readAt, CriticalKeys(ubs[..i + 1]), CriticalKeys(ubs));
            return;
          }
        }
        assert CriticalKeys(ubs[..i]) + [] == CriticalKeys(ubs[..i]);
      }
      assert ubs[..|ubs|] == ubs;
    }

    method SendRunways(rows: seq<Runway>, sent0: nat, ghost before: seq<Send>,
                       ghost askedBefore: seq<string>, ghost readAt: int, ghost tried: seq<string>)
      returns (sent: nat, failed: bool)
      requires Walking(before, askedBefore, readAt, tried, sent0)
      modifies this`calls, this`clock, this`log, this`sends, this`asked
      ensures clock >= old(clock)
      ensures !failed ==> Walking(before, askedBefore, readAt, tried + RunwayKeys(rows), sent)
      ensures failed ==> Stopped(before, askedBefore, readAt, tried + RunwayKeys(rows))
    {
      hide Walking, Stopped, KeyOf;
      sent, failed := sent0, false;
      assert tried + RunwayKeys(rows[..0]) == tried;
      for i := 0 to |rows|
        invariant Walking(before, askedBefore, readAt, tried + RunwayKeys(rows[..i]), sent) && clock >= old(clock)
      {
        assert rows[..i + 1][..i] == rows[..i];
        var key := KeyOf(LowRunway, rows[i].accountUuid);
        if rows[i].critical {
          assert tried + RunwayKeys(rows[..i]) + [key] == tried + RunwayKeys(rows[..i + 1]);
          sent, failed := MaybeSendNext(key, sent, before, askedBefore, readAt, tried + RunwayKeys(rows[..i]));
          if failed {
            RunwayPrefix(rows, i + 1);
            StopsWithin(before, askedBefore, readAt, tried + RunwayKeys(rows[..i + 1]), tried + RunwayKeys(rows));
            return;
          }
        } else {
          assert RunwayKeys(rows[..i]) + [] == RunwayKeys(rows[..i]);
        }
      }
      assert rows[..|rows|] == rows;
    }

    method SendOverdue(uuids: seq<string>, sent0: nat, ghost before: seq<Send>,
                       ghost askedBefore: seq<string>, ghost readAt: int, ghost tried: seq<string>)
      returns (sent: nat, failed: bool)
      requires Walking(before, askedBefore, readAt, tried, sent0)
      modifies this`calls, this`clock, this`log, this`sends, this`asked
      ensures clock >= old(clock)
      ensures !failed ==> Walking(before, askedBefore, readAt, tried + OverdueKeys(uuids), sent)
      ensures failed ==> Stopped(before, askedBefore, readAt, tried + OverdueKeys(uuids))
    {
      hide Walking, Stopped, KeyOf;
      sent, failed := sent0, false;
      assert tried + OverdueKeys(uuids[..0]) == tried;
      for i := 0 to |uuids|
        invariant Walking(before, askedBefore, readAt, tried + OverdueKeys(uuids[..i]), sent) && clock >= old(clock)
      {
        var key := KeyOf(Overdue, uuids[i]);
        assert tried + OverdueKeys(uuids[..i]) + [key] == tried + OverdueKeys(uuids[..i + 1]);
        sent, failed := MaybeSendNext(key, sent, before, askedBefore, readAt, tried + OverdueKeys(uuids[..i]));
        if failed {
          StopsWithin(before, askedBefore, readAt, tried + OverdueKeys(uuids[..i + 1]), tried + OverdueKeys(uuids));
          return;
        }
      }
      assert uuids[..|uuids|] == uuids;
    }

    method SendUpcoming(ubs: seq<Upcoming>, horizon: int, sent0: nat, ghost before: seq<Send>,
                        ghost askedBefore: seq<string>, ghost readAt: int, ghost tried: seq<string>)
      returns (sent: nat, failed: bool)
      requires Walking(before, askedBefore, readAt, tried, sent0)
      modifies this`calls, this`clock, this`log, this`sends, this`asked
      ensures clock >= old(clock)
      ensures !failed ==> Walking(before, askedBefore, readAt, tried + UpcomingKeys(ubs, horizon), sent)
      ensures failed ==> Stopped(before, askedBefore, readAt, tried + UpcomingKeys(ubs, horizon))
    {
      hide Walking, Stopped, KeyOf;
      sent, failed := sent0, false;
      assert tried + UpcomingKeys(ubs[..0], horizon) == tried;
      for i := 0 to |ubs|
        invariant Walking(before, askedBefore, readAt, tried + UpcomingKeys(ubs[..i], horizon), sent)
        invariant clock >= old(clock)
      {
        assert ubs[..i + 1][..i] == ubs[..i];
        var key := KeyOf(UpcomingBilling, ubs[i].serviceUuid + ":" + ubs[i].day);
        if ubs[i].nextBillingAt <= horizon {
          assert tried + UpcomingKeys(ubs[..i], horizon) + [key] == tried + UpcomingKeys(ubs[..i + 1], horizon);
          sent, failed :=
            MaybeSendNext(key, sent, before, askedBefore, readAt, tried + UpcomingKeys(ubs[..i], horizon));
          if failed {
            UpcomingPrefix(ubs, horizon, i + 1);
            StopsWithin(before, askedBefore, readAt, tried + UpcomingKeys(ubs[..i + 1], horizon),
                        tried + UpcomingKeys(ubs, horizon));
            return;
          }
        } else {
          assert UpcomingKeys(ubs[..i], horizon) + [] == UpcomingKeys(ubs[..i], horizon);
        }
      }
      assert ubs[..|ubs|] == ubs;
    }

    method SendErrors(accounts: seq<string>, sent0: nat, ghost before: seq<Send>,
                      ghost askedBefore: seq<string>, ghost readAt: int, ghost tried: seq<string>)
      returns (sent: nat, failed: bool)
      requires Walking(before, askedBefore, readAt, tried, sent0)
      modifies this`calls, this`clock, this`log, this`sends, this`asked
      ensures clock >= old(clock)
      ensures !failed ==> Walking(before, askedBefore, readAt, tried + ErrorKeys(accounts), sent)
      ensures failed ==> Stopped(before, askedBefore, readAt, tried + ErrorKeys(accounts))
    {
      hide Walking, Stopped, KeyOf;
      sent, failed := sent0, false;
      var seenAccounts: set<string> := {};
      assert tried + ErrorKeys(accounts[..0]) == tried;
      for i := 0 to |accounts|
        invariant Walking(before, askedBefore, readAt, tried + ErrorKeys(accounts[..i]), sent)
        invariant clock >= old(clock)
        invariant seenAccounts == set a | a in accounts[..i]
      {
        assert accounts[..i + 1][..i] == accounts[..i];
        var key := KeyOf(SyncError, accounts[i]);
        if accounts[i] !in seenAccounts {
          seenAccounts := seenAccounts + {accounts[i]};
          assert tried + ErrorKeys(accounts[..i]) + [key] == tried + ErrorKeys(accounts[..i + 1]);
          sent, failed := MaybeSendNext(key, sent, before, askedBefore, readAt, tried + ErrorKeys(accounts[..i]));
          if failed {
            ErrorPrefix(accounts, i + 1);
            StopsWithin(before, askedBefore, readAt, tried + ErrorKeys(accounts[..i + 1]), tried + ErrorKeys(accounts));
            return;
          }
        } else {
          assert ErrorKeys(accounts[..i]) + [] == ErrorKeys(accounts[..i]);
        }
      }
      assert accounts[..|accounts|] == accounts;
    }

    /** A pending timer goes off: its name is freed and the checks run again. */
    method TimerFires(id: nat, summary: Summary, errorAccounts: seq<string>)
      returns (sent: nat, failed: bool, ghost readAt: int, ghost horizonFrom: int)
      requires Valid() && id in timers && timers[id] <= clock
      modifies this`calls, this`clock, this`log, this`sends, this`asked,
               this`timers, this`registry, this`nextTimer, this`armedFor
      ensures Valid() && old(sends) <= sends && AllRecorded(sends, |old(sends)|, |sends| - if failed then 1 else 0)
      ensures old(clock) <= readAt && (AllGoesWell() ==> !failed)
      ensures settings.Some? && settings.value.quiet == old(armedFor) && readAt < old(timers[id]) + 59_000 ==>
                timers == map[]
      ensures timers != map[] ==> timers == map[old(nextTimer) := readAt + RemainingMs(armedFor, readAt) + 1000]
    {
      hide ClockOk, Throttled, Logged, RemainingMs, IsQuiet, Candidates, AllGoesWell;
      timers := timers - {id};
      registry := registry - {QUIET_TIMEOUT};
      assert registry == map[] && timers == map[];
      sent, failed, readAt, horizonFrom := CheckAndNotify(summary, errorAccounts);
    }
  }

  datatype Event =
    | HourlyCheck(summary: Summary, errorAccounts: seq<string>)
    | TimerDue(summary: Summary, errorAccounts: seq<string>)
    | Reconfigured(telegramEnabled: bool, settings: Option<Settings>)
    | TimePasses(ms: nat)

  /**
   * Any run of checks, timers and changed settings, with any answers from outside: after a message
   * that was recorded the next one of its key comes more than 24 hours later, and at most one
   * quiet-hours timer is ever pending. If no call fails, every message is recorded.
   */
  method Replay(world: nat -> Moment, clock: int, events: seq<Event>) returns (service: NotificationsService)
    requires forall i :: 0 <= i < |events| && events[i].Reconfigured? && events[i].settings.Some? ==>
               WellFormed(events[i].settings.value.quiet)
    ensures service.Valid() && |service.timers| <= 1
    ensures var sends := service.sends;
            forall i, j :: 0 <= i < j < |sends| && sends[i].key == sends[j].key && sends[i].recorded ==>
              sends[j].at > sends[i].at + 86_400_000
    ensures (forall n :: world(n).ok) ==> forall i :: 0 <= i < |service.sends| ==> service.sends[i].recorded
  {
    hide Throttled, Logged, RemainingMs, IsQuiet, Candidates;
    service := new NotificationsService(world, clock);
    for i := 0 to |events|
      invariant service.Valid() && fresh(service) && service.world == world
      invariant service.AllGoesWell() ==> AllRecorded(service.sends, 0, |service.sends|)
    {
      match events[i]
      case HourlyCheck(summary, errorAccounts) =>
        var _, _, _, _ := service.CheckAndNotify(summary, errorAccounts);
      case TimerDue(summary, errorAccounts) =>
        if QUIET_TIMEOUT in service.registry {
          var id := service.registry[QUIET_TIMEOUT];
          if service.timers[id] <= service.clock {
            var _, _, _, _ := service.TimerFires(id, summary, errorAccounts);
          }
        }
      case Reconfigured(telegramEnabled, settings) =>
        service.telegramEnabled, service.settings := telegramEnabled, settings;
      case TimePasses(ms) =>
        service.Wait(ms);
    }
    ThrottledMeans(service.sends);
  }

  /**
   * The promise of 24 hours fails exactly when the log lost the first message: here an alert comes
   * up again after `gap` of at most a day, with everything but that one write going through.
   */
  method RepeatsIffNotRecorded(world: nat -> Moment, clock: int, key: string, gap: nat)
    returns (service: NotificationsService)
    requires forall n :: world(n).took == 0 && (n != 3 ==> world(n).ok)
    requires gap <= 86_400_000
    ensures service.Valid()
    ensures if world(3).ok then service.sends == [Send(key, clock, true)]
            else service.sends == [Send(key, clock, false), Send(key, clock + gap, true)]
  {
    hide Throttled, Logged, Elapsed, WellFormed;
    forall n: nat ensures Elapsed(world, n) == 0 {
      ElapsedOfOne(world, 0, n);
    }
    service := new NotificationsService(world, clock);
    var _, failed := service.MaybeSend(key);
    assert failed <==> !world(3).ok;
    service.Wait(gap);
    if !failed {
      assert service.log[0] == LogRow(key, clock);
    }
    var _, _ := service.MaybeSend(key);
  }

  const NIGHT: QuietHours := QuietHours(true, "23:00", "08:00", 0)
  const HALF_PAST_TEN: int := 1350 * MINUTE_MS

  /**
   * The quiet window is asked about once: a check at half past ten whose summary takes `load` to
   * arrive sends at night exactly when that is half an hour or more.
   */
  method SlowSummarySendsAtNight(world: nat -> Moment, load: nat) returns (service: NotificationsService)
    requires forall n :: world(n) == Moment(if n == 2 then load else 0, true)
    requires load <= 9 * 60 * MINUTE_MS
    ensures service.Valid() && service.settings == Some(Settings(NIGHT, 3)) && WellFormed(NIGHT)
    ensures service.sends == [Send(KeyOf(Overdue, "s"), HALF_PAST_TEN + load, true)]
    ensures service.HeldBack(service.sends[0].at) <==> load >= 30 * MINUTE_MS
  {
    hide Throttled, Logged, SentSince, OpenedSince, IsQuiet, RemainingMs, WellFormed, KeyOf, Elapsed, Candidates,
         AllRecorded;
    service := new NotificationsService(world, HALF_PAST_TEN);
    QuietAtNight(0);
    QuietAtNight(load);
    service.telegramEnabled, service.settings := true, Some(Settings(NIGHT, 3));
    var sent, _, readAt, horizonFrom := service.CheckAndNotify(OneOverdue("s"), []);
    assert readAt == HALF_PAST_TEN && service.AllGoesWell();
    ghost var tried := Candidates(OneOverdue("s"), [], horizonFrom + 3 * MS_PER_DAY);
    OneCandidate("s", horizonFrom + 3 * MS_PER_DAY);
    assert tried[0] in tried;
    ElapsedOfOne(world, 2, service.calls);
    var at := HALF_PAST_TEN + load;
    OneSend(service.log, service.sends, service.clock, KeyOf(Overdue, "s"), at - THROTTLE_MS, at);
  }

  function OneOverdue(uuid: string): Summary {
    Summary([], [], [uuid])
  }

  lemma OneCandidate(uuid: string, horizon: int)
    ensures Candidates(OneOverdue(uuid), [], horizon) == [KeyOf(Overdue, uuid)]
  {
    hide KeyOf;
  }

  lemma QuietAtNight(load: nat)
    requires load <= 9 * 60 * MINUTE_MS
    ensures WellFormed(NIGHT)
    ensures IsQuiet(NIGHT, HALF_PAST_TEN + load) <==> load >= 30 * MINUTE_MS
  {
    RemainingIsExact(NIGHT, HALF_PAST_TEN + load);
    hide IsQuiet;
    assert ToMinutes(NIGHT.start) == 1380 && ToMinutes(NIGHT.end) == 480;
    assert LocalMinutes(NIGHT, HALF_PAST_TEN + load) == (1350 + load / MINUTE_MS) % DAY_MINUTES;
  }
}
