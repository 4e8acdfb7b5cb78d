/** The payment ledger import (apps/backend/src/sync/sync.service.ts, the payments repository). */
module Payments {
  import opened Prelude

  /** What every re-import refreshes. */
  datatype Data = Data(amount: int, currency: string, kind: string, description: Option<string>, date: int,
                       serviceUuid: Option<string>)

  /** A ledger row; a manually entered payment has no external id. */
  datatype Row = Row(account: string, externalId: Option<string>, data: Data)

  datatype Fetched = Fetched(externalId: string, amount: int, currency: string, kind: string,
                             description: Option<string>, date: int, serviceExternalId: Option<string>)

  function DataOf(p: Fetched, services: map<string, string>): Data {
    var linked := if p.serviceExternalId.Some? && p.serviceExternalId.value != ""
                     && p.serviceExternalId.value in services
                  then Some(services[p.serviceExternalId.value]) else None;
    Data(p.amount, p.currency, p.kind, p.description, p.date, linked)
  }

  predicate Has(row: Row, account: string, externalId: string) {
    row.account == account && row.externalId == Some(externalId)
  }

  /** The unique lookup by (account, external id); the length of the table when there is no such row. */
  function Find(rows: seq<Row>, account: string, externalId: string): (i: nat)
    ensures i <= |rows| && (i < |rows| ==> Has(rows[i], account, externalId))
    ensures i == |rows| ==> forall j :: 0 <= j < |rows| ==> !Has(rows[j], account, externalId)
  {
    if rows == [] || Has(rows[0], account, externalId) then 0 else 1 + Find(rows[1..], account, externalId)
  }

  function UpsertExternal(rows: seq<Row>, account: string, externalId: string, data: Data): seq<Row> {
    var i := Find(rows, account, externalId);
    if i < |rows| then rows[i := rows[i].(data := data)] else rows + [Row(account, Some(externalId), data)]
  }

  function Import(rows: seq<Row>, account: string, payments: seq<Fetched>, services: map<string, string>): seq<Row> {
    if payments == [] then rows
    else
      var p := payments[|payments| - 1];
      UpsertExternal(Import(rows, account, payments[..|payments| - 1], services), account, p.externalId,
                     DataOf(p, services))
  }

  ghost predicate UniqueKeys(rows: seq<Row>) {
    forall i, j :: 0 <= i < j < |rows| && rows[i].externalId.Some? ==>
      !Has(rows[j], rows[i].account, rows[i].externalId.value)
  }

  class Ledger {
    var rows: seq<Row>

    ghost predicate Valid()
      reads this
    {
      UniqueKeys(rows)
    }

    constructor ()
      ensures Valid() && rows == []
    {
      rows := [];
    }

    /** The owner enters a payment by hand. */
    method AddManual(account: string, data: Data)
      requires Valid()
      modifies this
      ensures Valid() && rows == old(rows) + [Row(account, None, data)]
    {
      rows := rows + [Row(account, None, data)];
    }

    method UpsertPayments(account: string, payments: seq<Fetched>, serviceIds: seq<(Option<string>, string)>)
      returns (count: nat)
      requires Valid()
      modifies this
      ensures Valid() && count == |payments|
      ensures rows == Import(old(rows), account, payments, ByExternalId(serviceIds))
    {
      if |payments| == 0 {
        return 0;
      }
      var services: map<string, string> := map[];
      for k := 0 to |serviceIds|
        invariant services == ByExternalId(serviceIds[..k])
      {
        assert serviceIds[..k + 1][..k] == serviceIds[..k];
        var (externalId, uuid) := serviceIds[k];
        if externalId.Some? && externalId.value != "" {
          services := services[externalId.value := uuid];
        }
      }
      assert serviceIds[..|serviceIds|] == serviceIds;
      for k := 0 to |payments|
        invariant rows == Import(old(rows), account, payments[..k], services)
      {
        assert payments[..k + 1][..k] == payments[..k];
        rows := UpsertExternal(rows, account, payments[k].externalId, DataOf(payments[k], services));
      }
      assert payments[..|payments|] == payments;
      ImportEffect(old(rows), account, payments, services);
      count := |payments|;
    }
  }

  function ByExternalId(ids: seq<(Option<string>, string)>): map<string, string> {
    if ids == [] then map[]
    else
      var before, (externalId, uuid) := ByExternalId(ids[..|ids| - 1]), ids[|ids| - 1];
      if externalId.Some? && externalId.value != "" then before[externalId.value := uuid] else before
  }

  // ---------------------------------------------------------------- what an import does

  /** The last record of a list with the given id decides. */
  function LastRecord(payments: seq<Fetched>, externalId: string): Option<Fetched> {
    if payments == [] then None
    else if payments[|payments| - 1].externalId == externalId then Some(payments[|payments| - 1])
    else LastRecord(payments[..|payments| - 1], externalId)
  }

  /** What the list says about a row: nothing for a manual one or one of another account. */
  function Says(row: Row, account: string, payments: seq<Fetched>, services: map<string, string>): Option<Data> {
    if row.account != account || row.externalId.None? then None
    else
      var p := LastRecord(payments, row.externalId.value);
      if p.Some? then Some(DataOf(p.value, services)) else None
  }

  ghost predicate RowsAsSaid(rows: seq<Row>, account: string, payments: seq<Fetched>, services: map<string, string>,
                             after: seq<Row>) {
    forall i :: 0 <= i < |after| ==>
      var said := Says(after[i], account, payments, services);
      if said.Some? then after[i].data == said.value else i < |rows| && after[i] == rows[i]
  }

  ghost predicate KeysKept(rows: seq<Row>, after: seq<Row>) {
    |rows| <= |after|
    && forall i :: 0 <= i < |rows| ==>
         after[i].account == rows[i].account && after[i].externalId == rows[i].externalId
  }

  ghost predicate AllFound(account: string, payments: seq<Fetched>, after: seq<Row>) {
    forall k :: 0 <= k < |payments| ==> Find(after, account, payments[k].externalId) < |after|
  }

  /** `after` is `rows` with every row as the list says, and a row for every record. */
  ghost predicate Imported(rows: seq<Row>, account: string, payments: seq<Fetched>, services: map<string, string>,
                           after: seq<Row>) {
    && UniqueKeys(after) && KeysKept(rows, after) && AllFound(account, payments, after)
    && RowsAsSaid(rows, account, payments, services, after)
  }

  lemma {:induction false} ImportEffect(rows: seq<Row>, account: string, payments: seq<Fetched>,
                                        services: map<string, string>)
    requires UniqueKeys(rows)
    ensures Imported(rows, account, payments, services, Import(rows, account, payments, services))
  {
    if payments == [] {
      assert forall i :: 0 <= i < |rows| ==> Says(rows[i], account, payments, services) == None;
    } else {
      hide Imported, DataOf;
      var n := |payments| - 1;
      ImportEffect(rows, account, payments[..n], services);
      ImportOne(rows, account, payments, services, Import(rows, account, payments[..n], services));
    }
  }

  lemma UpsertKeepsUnique(rows: seq<Row>, account: string, externalId: string, data: Data)
    requires UniqueKeys(rows)
    ensures UniqueKeys(UpsertExternal(rows, account, externalId, data))
    ensures KeysKept(rows, UpsertExternal(rows, account, externalId, data))
  {
    hide Find;
  }

  lemma {:induction false} StillFound(rows: seq<Row>, after: seq<Row>, account: string, externalId: string)
    requires KeysKept(rows, after) && Find(rows, account, externalId) < |rows|
    ensures Find(after, account, externalId) < |after|
  {
    hide Find;
    assert Has(after[Find(rows, account, externalId)], account, externalId);
  }

  lemma {:induction false} UpsertFinds(rows: seq<Row>, account: string, externalId: string, data: Data)
    ensures var after := UpsertExternal(rows, account, externalId, data);
            Find(after, account, externalId) < |after|
  {
    hide Find;
    var i := Find(rows, account, externalId);
    assert Has(UpsertExternal(rows, account, externalId, data)[i], account, externalId);
  }

  /** The row the record belongs to takes its data, any other row and its last word stay. */
  lemma SaidAfterOne(rows: seq<Row>, account: string, payments: seq<Fetched>, services: map<string, string>,
                     mid: seq<Row>)
    requires payments != [] && UniqueKeys(mid) && RowsAsSaid(rows, account, payments[..|payments| - 1], services, mid)
    ensures var p := payments[|payments| - 1];
            RowsAsSaid(rows, account, payments, services,
                       UpsertExternal(mid, account, p.externalId, DataOf(p, services)))
  {
    hide DataOf, Find;
    var n := |payments| - 1;
    var p := payments[n];
    var i := Find(mid, account, p.externalId);
    var after := UpsertExternal(mid, account, p.externalId, DataOf(p, services));
    forall j | 0 <= j < |after|
      ensures var said := Says(after[j], account, payments, services);
              if said.Some? then after[j].data == said.value else j < |rows| && after[j] == rows[j]
    {
      if j != i {
        assert after[j] == mid[j] && !Has(mid[j], account, p.externalId);
        assert Says(after[j], account, payments, services) == Says(mid[j], account, payments[..n], services);
      }
    }
  }

  lemma ImportOne(rows: seq<Row>, account: string, payments: seq<Fetched>, services: map<string, string>, mid: seq<Row>)
    requires payments != [] && Imported(rows, account, payments[..|payments| - 1], services, mid)
    ensures var p := payments[|payments| - 1];
            Imported(rows, account, payments, services, UpsertExternal(mid, account, p.externalId, DataOf(p, services)))
  {
    hide DataOf, Find, RowsAsSaid, UniqueKeys, UpsertExternal;
    var n := |payments| - 1;
    var p := payments[n];
    var after := UpsertExternal(mid, account, p.externalId, DataOf(p, services));
    SaidAfterOne(rows, account, payments, services, mid);
    UpsertKeepsUnique(mid, account, p.externalId, DataOf(p, services));
    UpsertFinds(mid, account, p.externalId, DataOf(p, services));
    forall k | 0 <= k < |payments| ensures Find(after, account, payments[k].externalId) < |after| {
      if k < n {
        assert payments[..n][k] == payments[k];
        StillFound(mid, after, account, payments[k].externalId);
      }
    }
  }

  /** Manual payments and those of other accounts are never touched. */
  lemma {:induction false} ManualUntouched(rows: seq<Row>, account: string, payments: seq<Fetched>,
                                           services: map<string, string>, i: nat)
    requires UniqueKeys(rows) && i < |rows| && (rows[i].externalId.None? || rows[i].account != account)
    ensures var after := Import(rows, account, payments, services); i < |after| && after[i] == rows[i]
  {
    ImportEffect(rows, account, payments, services);
  }

  lemma {:induction false} UpsertExisting(rows: seq<Row>, account: string, externalId: string, data: Data)
    requires Find(rows, account, externalId) < |rows|
    ensures |UpsertExternal(rows, account, externalId, data)| == |rows|
    ensures KeysKept(rows, UpsertExternal(rows, account, externalId, data))
  {
    hide Find;
  }

  lemma KeysKeptTwice(a: seq<Row>, b: seq<Row>, c: seq<Row>)
    requires KeysKept(a, b) && KeysKept(b, c)
    ensures KeysKept(a, c)
  {
  }

  /** With a row for every record an import adds none. */
  lemma {:induction false} NoNewRows(rows: seq<Row>, account: string, payments: seq<Fetched>,
                                     services: map<string, string>)
    requires AllFound(account, payments, rows)
    ensures |Import(rows, account, payments, services)| == |rows|
    ensures KeysKept(rows, Import(rows, account, payments, services))
  {
    if payments != [] {
      hide DataOf, Find, UpsertExternal, KeysKept;
      var n := |payments| - 1;
      assert forall k :: 0 <= k < n ==> payments[..n][k] == payments[k];
      NoNewRows(rows, account, payments[..n], services);
      var mid, p := Import(rows, account, payments[..n], services), payments[n];
      StillFound(rows, mid, account, p.externalId);
      UpsertExisting(mid, account, p.externalId, DataOf(p, services));
      KeysKeptTwice(rows, mid, Import(rows, account, payments, services));
    } else {
      assert KeysKept(rows, rows);
    }
  }

  /** Importing the same ledger again changes nothing, even with repeated ids in it. */
  lemma {:induction false} ImportTwiceIsImportOnce(rows: seq<Row>, account: string, payments: seq<Fetched>,
                                                   services: map<string, string>)
    requires UniqueKeys(rows)
    ensures var once := Import(rows, account, payments, services);
            Import(once, account, payments, services) == once
  {
    hide DataOf, Import, Find, UniqueKeys;
    var once := Import(rows, account, payments, services);
    ImportEffect(rows, account, payments, services);
    var twice := Import(once, account, payments, services);
    ImportEffect(once, account, payments, services);
    NoNewRows(once, account, payments, services);
    forall i | 0 <= i < |once| ensures twice[i] == once[i] {
      assert Says(twice[i], account, payments, services) == Says(once[i], account, payments, services);
    }
  }

  // ---------------------------------------------------------------- record by record

  /** A later record of the list has the same id. */
  ghost predicate Superseded(payments: seq<Fetched>, k: nat)
    requires k < |payments|
  {
    exists j :: k < j < |payments| && payments[j].externalId == payments[k].externalId
  }

  lemma {:induction false} LastRecordIs(payments: seq<Fetched>, k: nat)
    requires k < |payments| && !Superseded(payments, k)
    ensures LastRecord(payments, payments[k].externalId) == Some(payments[k])
  {
    var n := |payments| - 1;
    if k < n {
      assert payments[n].externalId != payments[k].externalId;
      assert forall j :: k < j < n ==> payments[..n][j] == payments[j];
      LastRecordIs(payments[..n], k);
    }
  }

  lemma {:induction false} NoRecordIff(payments: seq<Fetched>, externalId: string)
    ensures LastRecord(payments, externalId).None? <==> forall k :: 0 <= k < |payments| ==>
        payments[k].externalId != externalId
  {
    if payments != [] {
      NoRecordIff(payments[..|payments| - 1], externalId);
    }
  }

  /** The account's services by their external ids; of several with one id the last counts. */
  lemma {:induction false} LinkIff(ids: seq<(Option<string>, string)>, externalId: string, uuid: string)
    ensures externalId in ByExternalId(ids) && ByExternalId(ids)[externalId] == uuid
            <==> && externalId != ""
                 && exists i :: 0 <= i < |ids| && ids[i] == (Some(externalId), uuid)
                                && forall j :: i < j < |ids| ==> ids[j].0 != Some(externalId)
  {
    if ids != [] {
      var n := |ids| - 1;
      LinkIff(ids[..n], externalId, uuid);
      assert forall i :: 0 <= i < n ==> ids[..n][i] == ids[i];
      if ids[n].0 != Some(externalId) {
        if i :| 0 <= i < n && ids[..n][i] == (Some(externalId), uuid)
                && forall j :: i < j < n ==> ids[..n][j].0 != Some(externalId) {
          assert ids[i] == (Some(externalId), uuid);
        }
      }
    }
  }

  /** The row of a record: everything that was fetched, and the service whose external id it names, if any. */
  ghost predicate IsRowOf(row: Row, account: string, p: Fetched, ids: seq<(Option<string>, string)>) {
    && row.account == account && row.externalId == Some(p.externalId)
    && row.data.amount == p.amount && row.data.currency == p.currency && row.data.kind == p.kind
    && row.data.description == p.description && row.data.date == p.date
    && forall uuid: string ::
         row.data.serviceUuid == Some(uuid)
         <==> && p.serviceExternalId.Some? && p.serviceExternalId.value != ""
              && exists i :: 0 <= i < |ids| && ids[i] == (p.serviceExternalId, uuid)
                             && forall j :: i < j < |ids| ==> ids[j].0 != p.serviceExternalId
  }

  lemma {:induction false} RowOfData(account: string, p: Fetched, ids: seq<(Option<string>, string)>)
    ensures IsRowOf(Row(account, Some(p.externalId), DataOf(p, ByExternalId(ids))), account, p, ids)
  {
    if p.serviceExternalId.Some? {
      forall uuid: string {
        LinkIff(ids, p.serviceExternalId.value, uuid);
      }
    }
    hide ByExternalId;
  }

  /** After an import every record that none supersedes has its row,
      and there are no rows but those and the old ones. */
  lemma {:induction false} ImportIs(rows: seq<Row>, account: string, payments: seq<Fetched>,
                                    ids: seq<(Option<string>, string)>)
    requires UniqueKeys(rows)
    ensures var after := Import(rows, account, payments, ByExternalId(ids));
            && UniqueKeys(after) && |rows| <= |after|
            && (forall k :: 0 <= k < |payments| && !Superseded(payments, k) ==>
                  exists i :: 0 <= i < |after| && IsRowOf(after[i], account, payments[k], ids))
            && (forall i :: 0 <= i < |rows| ==>
                  after[i].account == rows[i].account && after[i].externalId == rows[i].externalId)
            && (forall i :: 0 <= i < |after| && !IsImported(after[i], account, payments) ==>
                  i < |rows| && after[i] == rows[i])
  {
    hide Import, DataOf, LastRecord, ByExternalId, IsRowOf, Superseded;
    var services := ByExternalId(ids);
    var after := Import(rows, account, payments, services);
    ImportEffect(rows, account, payments, services);
    forall k | 0 <= k < |payments| && !Superseded(payments, k)
      ensures exists i :: 0 <= i < |after| && IsRowOf(after[i], account, payments[k], ids)
    {
      var i := Find(after, account, payments[k].externalId);
      LastRecordIs(payments, k);
      RowOfData(account, payments[k], ids);
      assert after[i] == Row(account, Some(payments[k].externalId), DataOf(payments[k], services));
    }
    forall i | 0 <= i < |after| && !IsImported(after[i], account, payments)
      ensures i < |rows| && after[i] == rows[i]
    {
      if after[i].externalId.Some? {
        NoRecordIff(payments, after[i].externalId.value);
      }
    }
  }

  predicate IsImported(row: Row, account: string, payments: seq<Fetched>) {
    row.account == account && exists k :: 0 <= k < |payments| && row.externalId == Some(payments[k].externalId)
  }

  // ---------------------------------------------------------------- every run

  datatype Action =
    | EnterManual(account: string, data: Data)
    | ImportRuns(account: string, payments: seq<Fetched>, serviceIds: seq<(Option<string>, string)>)

  /** The payments entered by hand, in the order they were. */
  function ManualOf(rows: seq<Row>): seq<Row> {
    Filter(rows, (row: Row) => row.externalId.None?)
  }

  function Entered(actions: seq<Action>): seq<Row> {
    if actions == [] then []
    else
      var a := actions[|actions| - 1];
      Entered(actions[..|actions| - 1]) + if a.EnterManual? then [Row(a.account, None, a.data)] else []
  }

  lemma NothingEntered()
    ensures ManualOf([]) == [] && Entered([]) == []
  {
  }

  lemma EntryIsManual(rows: seq<Row>, row: Row)
    requires row.externalId.None?
    ensures ManualOf(rows + [row]) == ManualOf(rows) + [row]
  {
    assert (rows + [row])[..|rows|] == rows;
  }

  /** An import adds no manual payment and takes none away. */
  lemma {:induction false} ImportKeepsManual(rows: seq<Row>, account: string, payments: seq<Fetched>,
                                             services: map<string, string>)
    requires UniqueKeys(rows)
    ensures ManualOf(Import(rows, account, payments, services)) == ManualOf(rows)
  {
    hide Import, Says;
    var after := Import(rows, account, payments, services);
    ImportEffect(rows, account, payments, services);
    forall i | 0 <= i < |rows| && rows[i].externalId.None? ensures after[i] == rows[i] {
      ManualUntouched(rows, account, payments, services, i);
    }
    forall i | |rows| <= i < |after| ensures after[i].externalId.Some? {
      NewRowsAreImported(rows, account, payments, services, i);
    }
    SameManual(rows, after);
  }

  lemma {:induction false} NewRowsAreImported(rows: seq<Row>, account: string, payments: seq<Fetched>,
                                              services: map<string, string>,
                           i: nat)
    requires UniqueKeys(rows) && |rows| <= i < |Import(rows, account, payments, services)|
    ensures Import(rows, account, payments, services)[i].externalId.Some?
  {
    hide Import;
    ImportEffect(rows, account, payments, services);
  }

  lemma {:induction false} SameManual(rows: seq<Row>, after: seq<Row>)
    requires |rows| <= |after|
    requires forall i :: 0 <= i < |rows| ==> (rows[i].externalId.None? <==> after[i].externalId.None?)
    requires forall i :: 0 <= i < |rows| && rows[i].externalId.None? ==> after[i] == rows[i]
    requires forall i :: |rows| <= i < |after| ==> after[i].externalId.Some?
    ensures ManualOf(after) == ManualOf(rows)
    decreases |after|
  {
    if |after| > |rows| {
      SameManual(rows, after[..|after| - 1]);
    } else if rows != [] {
      SameManual(rows[..|rows| - 1], after[..|after| - 1]);
    }
  }

  /**
   * After any run of entries and imports, for any accounts, the ledger holds exactly the manual
   * payments that were entered, in that order, and every external id once.
   */
  method Replay(actions: seq<Action>) returns (ledger: Ledger)
    ensures fresh(ledger) && ledger.Valid()
    ensures ManualOf(ledger.rows) == Entered(actions)
  {
    hide Import, UniqueKeys, ManualOf, ByExternalId;
    NothingEntered();
    ledger := new Ledger();
    for i := 0 to |actions|
      invariant ledger.Valid() && ManualOf(ledger.rows) == Entered(actions[..i])
    {
      assert actions[..i + 1][..i] == actions[..i];
      ghost var before := ledger.rows;
      match actions[i]
      case EnterManual(account, data) =>
        ledger.AddManual(account, data);
        EntryIsManual(before, Row(account, None, data));
      case ImportRuns(account, payments, serviceIds) =>
        ImportKeepsManual(before, account, payments, ByExternalId(serviceIds));
        var _ := ledger.UpsertPayments(account, payments, serviceIds);
    }
    assert actions[..|actions|] == actions;
  }
}
