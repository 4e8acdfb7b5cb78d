/**
 * Services between the owner and the provider sync (apps/backend/src/services/services.service.ts,
 * apps/backend/src/sync/sync.service.ts, the services repository). Amounts are whole cents.
 */
module ServiceSync {
  import opened Prelude
  import opened Overrides

  /** meta.syncedCost: missing or null, a string that is no price, or a price. */
  datatype StoredCost = NoCost | Malformed | Price(cents: int)

  datatype Row = Row(
    name: string, kind: string, cost: int, currency: string, period: string, country: Option<string>,
    nextBillingAt: Option<int>, isActive: bool, isManaged: bool,
    nameOverridden: bool, typeOverridden: bool, costOverridden: bool, activeOverridden: bool,
    syncedName: Option<string>, syncedType: Option<string>, syncedCost: StoredCost)

  /** A fetched date: not part of the record, present but null or invalid, or a moment. */
  datatype Billing = Absent | NoDate | On(at: int)

  datatype Fetched = Fetched(
    externalId: string, name: string, kind: string, country: Option<string>, cost: Option<int>,
    currency: Option<string>, period: Option<string>, nextBilling: Billing)

  /** An owner edit; a field the form does not send is None. */
  datatype EditDto = EditDto(
    name: Option<string>, kind: Option<string>, cost: Option<int>, currency: Option<string>, period: Option<string>,
    country: Option<Option<string>>, nextBillingAt: Option<Option<int>>, isActive: Option<bool>)

  /** An update of some columns, as handed to the database. */
  datatype Patch = Patch(
    name: Option<string>, kind: Option<string>, cost: Option<int>, currency: Option<string>, period: Option<string>,
    country: Option<Option<string>>, nextBillingAt: Option<Option<int>>, isActive: Option<bool>,
    nameOverridden: Option<bool>, typeOverridden: Option<bool>, costOverridden: Option<bool>,
    activeOverridden: Option<bool>,
    syncedName: Option<Option<string>>, syncedType: Option<Option<string>>, syncedCost: Option<StoredCost>)

  const NOTHING: Patch :=
    Patch(None, None, None, None, None, None, None, None, None, None, None, None, None, None, None)

  function Or<T>(patch: Option<T>, value: T): T {
    if patch.Some? then patch.value else value
  }

  function Apply(row: Row, p: Patch): Row {
    Row(Or(p.name, row.name), Or(p.kind, row.kind), Or(p.cost, row.cost), Or(p.currency, row.currency),
        Or(p.period, row.period), Or(p.country, row.country), Or(p.nextBillingAt, row.nextBillingAt),
        Or(p.isActive, row.isActive), row.isManaged,
        Or(p.nameOverridden, row.nameOverridden), Or(p.typeOverridden, row.typeOverridden),
        Or(p.costOverridden, row.costOverridden), Or(p.activeOverridden, row.activeOverridden),
        Or(p.syncedName, row.syncedName), Or(p.syncedType, row.syncedType), Or(p.syncedCost, row.syncedCost))
  }

  // ---------------------------------------------------------------- the shared columns of a row

  function NameOf(row: Row): Tracked<string> {
    Tracked(row.name, row.nameOverridden, row.syncedName)
  }

  function TypeOf(row: Row): Tracked<string> {
    Tracked(row.kind, row.typeOverridden, row.syncedType)
  }

  function CostOf(row: Row): Tracked<int> {
    Tracked(row.cost, row.costOverridden, PriceOf(row.syncedCost))
  }

  function PriceOf(c: StoredCost): Option<int> {
    if c.Price? then Some(c.cents) else None
  }

  /** What holds of every row: unoverridden columns agree with the sync, a pinned service is off. */
  predicate RowOk(row: Row) {
    Agrees(NameOf(row)) && Agrees(TypeOf(row)) && Agrees(CostOf(row)) && (row.activeOverridden ==> !row.isActive)
  }

  // ---------------------------------------------------------------- the owner's edit

  /** `after` is `row` edited by `dto`: each shared column is an edit, and no other column moves. */
  ghost predicate IsEdit(row: Row, dto: EditDto, after: Row) {
    && NameOf(after) == Edit(NameOf(row), dto.name)
    && TypeOf(after) == Edit(TypeOf(row), dto.kind)
    && CostOf(after) == Edit(CostOf(row), dto.cost)
    && after.isActive == Or(dto.isActive, row.isActive)
    && after.activeOverridden == (if dto.isActive.Some? then !dto.isActive.value else row.activeOverridden)
    && after.currency == Or(dto.currency, row.currency) && after.period == Or(dto.period, row.period)
    && after.country == Or(dto.country, row.country) && after.nextBillingAt == Or(dto.nextBillingAt, row.nextBillingAt)
    && after.isManaged == row.isManaged
  }

  lemma EditKeepsRowOk(row: Row, dto: EditDto, after: Row)
    requires RowOk(row) && IsEdit(row, dto, after)
    ensures RowOk(after)
  {
  }

  /**
   * Beside the tracked columns an edit stores what was sent and keeps what was not; switching a
   * service off pins that, switching it on unpins it.
   */
  lemma EditedColumnsAre(row: Row, dto: EditDto, after: Row)
    requires IsEdit(row, dto, after)
    ensures (dto.isActive == None ==> after.isActive == row.isActive && after.activeOverridden == row.activeOverridden)
    ensures (forall on :: dto.isActive == Some(on) ==> after.isActive == on && after.activeOverridden == !on)
    ensures Some(after.currency) == (if dto.currency.Some? then dto.currency else Some(row.currency))
    ensures Some(after.period) == (if dto.period.Some? then dto.period else Some(row.period))
    ensures Some(after.country) == (if dto.country.Some? then dto.country else Some(row.country))
    ensures Some(after.nextBillingAt) == (if dto.nextBillingAt.Some? then dto.nextBillingAt
                                          else Some(row.nextBillingAt))
    ensures after.isManaged == row.isManaged
  {
  }

  /** The name part of `update`: the value, the seeded baseline and the flag. */
  method EditName(existing: Row, name: Option<string>, before: Patch) returns (data: Patch)
    requires before.name == None && before.nameOverridden == None && before.syncedName == None
    ensures data == before.(name := data.name, nameOverridden := data.nameOverridden, syncedName := data.syncedName)
    ensures Tracked(Or(data.name, existing.name), Or(data.nameOverridden, existing.nameOverridden),
                    Or(data.syncedName, existing.syncedName)) == Edit(NameOf(existing), name)
  {
    data := before;
    var baselineName := if existing.syncedName.Some? then existing.syncedName
                        else if !existing.nameOverridden then Some(existing.name) else None;
    if name.Some? {
      if name.value != existing.name {
        data := data.(name := name);
      }
      if baselineName.Some? {
        if existing.syncedName != baselineName {
          data := data.(syncedName := Some(baselineName));
        }
        data := data.(nameOverridden := Some(name.value != baselineName.value));
      } else if name.value != existing.name {
        data := data.(nameOverridden := Some(true));
      }
    }
  }

  method EditType(existing: Row, kind: Option<string>, before: Patch) returns (data: Patch)
    requires before.kind == None && before.typeOverridden == None && before.syncedType == None
    ensures data == before.(kind := data.kind, typeOverridden := data.typeOverridden, syncedType := data.syncedType)
    ensures Tracked(Or(data.kind, existing.kind), Or(data.typeOverridden, existing.typeOverridden),
                    Or(data.syncedType, existing.syncedType)) == Edit(TypeOf(existing), kind)
  {
    data := before;
    var baselineType := if existing.syncedType.Some? then existing.syncedType
                        else if !existing.typeOverridden then Some(existing.kind) else None;
    if kind.Some? {
      if kind.value != existing.kind {
        data := data.(kind := kind);
      }
      if baselineType.Some? {
        if existing.syncedType != baselineType {
          data := data.(syncedType := Some(baselineType));
        }
        data := data.(typeOverridden := Some(kind.value != baselineType.value));
      } else if kind.value != existing.kind {
        data := data.(typeOverridden := Some(true));
      }
    }
  }

  /** The price part: a stored proposal that is no price counts as none. */
  method EditCost(existing: Row, cost: Option<int>, before: Patch) returns (data: Patch)
    requires before.cost == None && before.costOverridden == None && before.syncedCost == None
    ensures data == before.(cost := data.cost, costOverridden := data.costOverridden, syncedCost := data.syncedCost)
    ensures Tracked(Or(data.cost, existing.cost), Or(data.costOverridden, existing.costOverridden),
                    PriceOf(Or(data.syncedCost, existing.syncedCost))) == Edit(CostOf(existing), cost)
  {
    data := before;
    var baselineCost := if existing.syncedCost.Price? then Some(existing.syncedCost.cents)
                        else if !existing.costOverridden then Some(existing.cost) else None;
    if cost.Some? {
      if cost.value != existing.cost {
        data := data.(cost := cost);
      }
      if baselineCost.Some? {
        if existing.syncedCost != Price(baselineCost.value) {
          data := data.(syncedCost := Some(Price(baselineCost.value)));
        }
        data := data.(costOverridden := Some(cost.value != baselineCost.value));
      } else if cost.value != existing.cost {
        data := data.(costOverridden := Some(true));
      }
    }
  }

  /** What `p` makes of the shared columns is an edit of each. */
  ghost predicate EditsShared(existing: Row, dto: EditDto, p: Patch) {
    && Tracked(Or(p.name, existing.name), Or(p.nameOverridden, existing.nameOverridden),
               Or(p.syncedName, existing.syncedName)) == Edit(NameOf(existing), dto.name)
    && Tracked(Or(p.kind, existing.kind), Or(p.typeOverridden, existing.typeOverridden),
               Or(p.syncedType, existing.syncedType)) == Edit(TypeOf(existing), dto.kind)
    && Tracked(Or(p.cost, existing.cost), Or(p.costOverridden, existing.costOverridden),
               PriceOf(Or(p.syncedCost, existing.syncedCost))) == Edit(CostOf(existing), dto.cost)
  }

  method EditShared(existing: Row, dto: EditDto) returns (data: Patch)
    ensures EditsShared(existing, dto, data)
    ensures data.isActive == None && data.activeOverridden == None
  {
    hide Edit, Or, PriceOf, BaselineOf, NameOf, TypeOf, CostOf;
    data := EditName(existing, dto.name, NOTHING);
    data := EditType(existing, dto.kind, data);
    data := EditCost(existing, dto.cost, data);
  }

  /** The body of `update`: baselines, flags and the patch, built step by step. */
  method EditPatch(existing: Row, dto: EditDto) returns (data: Patch)
    ensures IsEdit(existing, dto, Apply(existing, data))
  {
    hide Edit, Apply, PriceOf, NameOf, TypeOf, CostOf;
    data := EditShared(existing, dto);
    data := data.(currency := dto.currency, period := dto.period, country := dto.country,
                  nextBillingAt := dto.nextBillingAt);
    if dto.isActive.Some? {
      data := data.(isActive := dto.isActive, activeOverridden := Some(!dto.isActive.value));
    }
    ApplyColumns(existing, data);
  }

  lemma ApplyColumns(row: Row, p: Patch)
    ensures var after := Apply(row, p);
            && NameOf(after) == Tracked(Or(p.name, row.name), Or(p.nameOverridden, row.nameOverridden),
                                        Or(p.syncedName, row.syncedName))
            && TypeOf(after) == Tracked(Or(p.kind, row.kind), Or(p.typeOverridden, row.typeOverridden),
                                        Or(p.syncedType, row.syncedType))
            && CostOf(after) == Tracked(Or(p.cost, row.cost), Or(p.costOverridden, row.costOverridden),
                                        PriceOf(Or(p.syncedCost, row.syncedCost)))
            && after.isActive == Or(p.isActive, row.isActive)
            && after.activeOverridden == Or(p.activeOverridden, row.activeOverridden)
            && after.currency == Or(p.currency, row.currency) && after.period == Or(p.period, row.period)
            && after.country == Or(p.country, row.country)
            && after.nextBillingAt == Or(p.nextBillingAt, row.nextBillingAt)
            && after.isManaged == row.isManaged
  {
  }

  // ---------------------------------------------------------------- the sync

  function DateOf(b: Billing): Option<int> {
    if b.On? then Some(b.at) else None
  }

  function Truthy(s: Option<string>): bool {
    s.Some? && s.value != ""
  }

  function StoredOf(cost: Option<int>): StoredCost {
    if cost.Some? then Price(cost.value) else NoCost
  }

  /** A service the account did not have yet. */
  function NewRow(sd: Fetched, accountCurrency: string): Row {
    Row(sd.name, sd.kind, Or(sd.cost, 0), Or(sd.currency, accountCurrency), Or(sd.period, "monthly"),
        Some(Or(sd.country, "XX")), DateOf(sd.nextBilling), true, true, false, false, false, false,
        Some(sd.name), Some(sd.kind), StoredOf(sd.cost))
  }

  /** The columns a sync writes, given which of them the owner has pinned. */
  function SyncPatch(nameOverridden: bool, typeOverridden: bool, costOverridden: bool, activeOverridden: bool,
                     sd: Fetched, accountCurrency: string): Patch {
    NOTHING.(
      syncedName := Some(Some(sd.name)), syncedType := Some(Some(sd.kind)), syncedCost := Some(StoredOf(sd.cost)),
      isActive := if activeOverridden then None else Some(true),
      name := if nameOverridden then None else Some(sd.name),
      kind := if typeOverridden then None else Some(sd.kind),
      country := if Truthy(sd.country) then Some(sd.country) else None,
      nextBillingAt := if sd.nextBilling.Absent? then None else Some(DateOf(sd.nextBilling)),
      cost := if costOverridden then None else sd.cost,
      period := if costOverridden || !Truthy(sd.period) then None else sd.period,
      currency := if costOverridden then None else Some(Or(sd.currency, accountCurrency)))
  }

  function PatchFor(row: Row, sd: Fetched, accountCurrency: string): Patch {
    SyncPatch(row.nameOverridden, row.typeOverridden, row.costOverridden, row.activeOverridden, sd, accountCurrency)
  }

  function SyncRow(row: Row, sd: Fetched, accountCurrency: string): Row {
    Apply(row, PatchFor(row, sd, accountCurrency))
  }

  /** A sync is a sync of every shared column, and it clears or sets no flag. */
  lemma SyncIsSync(row: Row, sd: Fetched, accountCurrency: string)
    ensures var after := SyncRow(row, sd, accountCurrency);
            && NameOf(after) == Sync(NameOf(row), Some(sd.name))
            && TypeOf(after) == Sync(TypeOf(row), Some(sd.kind))
            && CostOf(after) == Sync(CostOf(row), sd.cost)
            && after.activeOverridden == row.activeOverridden
            && after.isActive == (!row.activeOverridden || row.isActive)
            && (row.costOverridden ==> after.period == row.period && after.currency == row.currency)
  {
  }

  /** The other columns: what is fetched is taken, what is not fetched stays; a price is pinned with its unit. */
  lemma SyncRowIs(row: Row, sd: Fetched, accountCurrency: string)
    ensures var after := SyncRow(row, sd, accountCurrency);
            && after.country == (if sd.country.Some? && |sd.country.value| > 0 then sd.country else row.country)
            && (sd.nextBilling == Absent ==> after.nextBillingAt == row.nextBillingAt)
            && (sd.nextBilling == NoDate ==> after.nextBillingAt == None)
            && (forall at :: sd.nextBilling == On(at) ==> after.nextBillingAt == Some(at))
            && (!row.costOverridden ==>
                  && Some(after.period) == (if sd.period.Some? && |sd.period.value| > 0 then sd.period
                                            else Some(row.period))
                  && Some(after.currency) == (if sd.currency.Some? then sd.currency else Some(accountCurrency)))
            && after.isManaged == row.isManaged && Flags(after) == Flags(row)
  {
  }

  /** A new row is what was fetched, with a default for each column that was not, and nothing pinned. */
  lemma NewRowIs(sd: Fetched, accountCurrency: string)
    ensures var row := NewRow(sd, accountCurrency);
            && row.name == sd.name && row.kind == sd.kind && row.isActive && row.isManaged
            && Flags(row) == (false, false, false, false)
            && (sd.cost == Some(row.cost) || (sd.cost == None && row.cost == 0))
            && (sd.currency == Some(row.currency) || (sd.currency == None && row.currency == accountCurrency))
            && (sd.period == Some(row.period) || (sd.period == None && row.period == "monthly"))
            && (sd.country == row.country != None || (sd.country == None && row.country == Some("XX")))
            && (forall at :: sd.nextBilling == On(at) <==> row.nextBillingAt == Some(at))
            && row.syncedName == Some(sd.name) && row.syncedType == Some(sd.kind)
            && (sd.cost == None ==> row.syncedCost == NoCost)
            && (forall cents :: sd.cost == Some(cents) ==> row.syncedCost == Price(cents))
  {
  }

  lemma SyncKeepsRowOk(row: Row, sd: Fetched, accountCurrency: string)
    requires RowOk(row)
    ensures RowOk(SyncRow(row, sd, accountCurrency)) && RowOk(NewRow(sd, accountCurrency))
  {
  }

  // ---------------------------------------------------------------- the table

  /** Rows with a provider id; (account, external id) is unique. */
  datatype Key = Key(account: string, externalId: string)

  type Table = map<Key, Row>

  function UpsertOne(rows: Table, account: string, sd: Fetched, accountCurrency: string): Table {
    var key := Key(account, sd.externalId);
    rows[key := if key in rows then SyncRow(rows[key], sd, accountCurrency) else NewRow(sd, accountCurrency)]
  }

  function UpsertAll(rows: Table, account: string, fetched: seq<Fetched>, accountCurrency: string): Table {
    if fetched == [] then rows
    else UpsertOne(UpsertAll(rows, account, fetched[..|fetched| - 1], accountCurrency), account, fetched[|fetched| - 1],
                   accountCurrency)
  }

  function Seen(fetched: seq<Fetched>): set<string> {
    set i | 0 <= i < |fetched| :: fetched[i].externalId
  }

  /** Managed services of the account that the provider no longer returns go inactive. */
  function DeactivateMissing(rows: Table, account: string, seen: set<string>): Table {
    map k | k in rows :: if k.account == account && rows[k].isManaged && k.externalId !in seen
                         then rows[k].(isActive := false) else rows[k]
  }

  function SyncTable(rows: Table, account: string, fetched: seq<Fetched>, accountCurrency: string): Table {
    DeactivateMissing(UpsertAll(rows, account, fetched, accountCurrency), account, Seen(fetched))
  }

  ghost predicate TableOk(rows: Table) {
    forall k :: k in rows ==> RowOk(rows[k])
  }

  lemma {:induction false} SyncKeepsTableOk(rows: Table, account: string, fetched: seq<Fetched>,
                                            accountCurrency: string)
    requires TableOk(rows)
    ensures TableOk(UpsertAll(rows, account, fetched, accountCurrency))
  {
    hide RowOk;
    if fetched != [] {
      var n := |fetched| - 1;
      SyncKeepsTableOk(rows, account, fetched[..n], accountCurrency);
      var before, key := UpsertAll(rows, account, fetched[..n], accountCurrency), Key(account, fetched[n].externalId);
      if key in before {
        SyncKeepsRowOk(before[key], fetched[n], accountCurrency);
      } else {
        NewRowOk(fetched[n], accountCurrency);
      }
    }
  }

  lemma NewRowOk(sd: Fetched, accountCurrency: string)
    ensures RowOk(NewRow(sd, accountCurrency))
  {
  }

  class ServiceTable {
    var rows: Table

    ghost predicate Valid()
      reads this
    {
      TableOk(rows)
    }

    constructor ()
      ensures Valid() && rows == map[]
    {
      rows := map[];
    }

    /** An owner edit of a row with a provider id. */
    method OwnerUpdate(key: Key, dto: EditDto) returns (found: bool)
      requires Valid()
      modifies this
      ensures Valid() && found == (key in old(rows))
      ensures !found ==> rows == old(rows)
      ensures found ==>
                && rows.Keys == old(rows).Keys && IsEdit(old(rows)[key], dto, rows[key])
                && forall k :: k in rows && k != key ==> rows[k] == old(rows)[k]
    {
      hide RowOk, IsEdit;
      if key !in rows {
        return false;
      }
      var data := EditPatch(rows[key], dto);
      EditKeepsRowOk(rows[key], dto, Apply(rows[key], data));
      rows := rows[key := Apply(rows[key], data)];
      return true;
    }

    /** One sync of an account: every fetched service is upserted, the missing ones go inactive. */
    method UpsertServices(account: string, fetched: seq<Fetched>, accountCurrency: string) returns (count: nat)
      requires Valid()
      modifies this
      ensures Valid() && count == |fetched|
      ensures rows == SyncTable(old(rows), account, fetched, accountCurrency)
    {
      hide RowOk, SyncPatch, Apply;
      var seen: set<string> := {};
      for i := 0 to |fetched|
        invariant rows == UpsertAll(old(rows), account, fetched[..i], accountCurrency)
        invariant seen == Seen(fetched[..i])
      {
        assert fetched[..i + 1][..i] == fetched[..i];
        var sd := fetched[i];
        SeenMore(fetched, i);
        seen := seen + {sd.externalId};
        var key := Key(account, sd.externalId);
        if key !in rows {
          rows := rows[key := NewRow(sd, accountCurrency)];
        } else {
          var data := BuildSyncPatch(rows[key], sd, accountCurrency);
          rows := rows[key := Apply(rows[key], data)];
        }
      }
      assert fetched[..|fetched|] == fetched;
      SyncKeepsTableOk(old(rows), account, fetched, accountCurrency);
      DeactivateKeepsTableOk(rows, account, seen);
      rows := DeactivateMissing(rows, account, seen);
      count := |fetched|;
    }
  }

  lemma SeenMore(fetched: seq<Fetched>, i: nat)
    requires i < |fetched|
    ensures Seen(fetched[..i + 1]) == Seen(fetched[..i]) + {fetched[i].externalId}
  {
    var a, b := fetched[..i + 1], fetched[..i];
    assert forall j :: 0 <= j < i ==> a[j] == b[j];
    assert a[i] == fetched[i];
  }

  lemma DeactivateKeepsTableOk(rows: Table, account: string, seen: set<string>)
    requires TableOk(rows)
    ensures TableOk(DeactivateMissing(rows, account, seen))
  {
    forall k | k in rows ensures RowOk(DeactivateMissing(rows, account, seen)[k]) {
      SwitchedOffOk(rows[k]);
    }
  }

  lemma SwitchedOffOk(row: Row)
    requires RowOk(row)
    ensures RowOk(row.(isActive := false))
  {
  }

  /** The update branch of the sync loop: pinned columns are left out of the patch. */
  method BuildSyncPatch(existing: Row, sd: Fetched, accountCurrency: string) returns (data: Patch)
    ensures data == PatchFor(existing, sd, accountCurrency)
  {
    data := NOTHING.(syncedName := Some(Some(sd.name)), syncedType := Some(Some(sd.kind)),
                     syncedCost := Some(StoredOf(sd.cost)));
    if !existing.activeOverridden {
      data := data.(isActive := Some(true));
    }
    if !existing.nameOverridden {
      data := data.(name := Some(sd.name));
    }
    if !existing.typeOverridden {
      data := data.(kind := Some(sd.kind));
    }
    if Truthy(sd.country) {
      data := data.(country := Some(sd.country));
    }
    if !sd.nextBilling.Absent? {
      data := data.(nextBillingAt := Some(DateOf(sd.nextBilling)));
    }
    if !existing.costOverridden {
      if sd.cost.Some? {
        data := data.(cost := sd.cost);
      }
      if Truthy(sd.period) {
        data := data.(period := sd.period);
      }
      data := data.(currency := Some(Or(sd.currency, accountCurrency)));
    }
  }

  // ---------------------------------------------------------------- syncing twice

  function Then<T>(p: Option<T>, q: Option<T>): Option<T> {
    if q.Some? then q else p
  }

  /** The one patch that has the effect of `p` followed by `q`. */
  function Compose(p: Patch, q: Patch): Patch {
    Patch(Then(p.name, q.name), Then(p.kind, q.kind), Then(p.cost, q.cost), Then(p.currency, q.currency),
          Then(p.period, q.period), Then(p.country, q.country), Then(p.nextBillingAt, q.nextBillingAt),
          Then(p.isActive, q.isActive), Then(p.nameOverridden, q.nameOverridden),
          Then(p.typeOverridden, q.typeOverridden), Then(p.costOverridden, q.costOverridden),
          Then(p.activeOverridden, q.activeOverridden), Then(p.syncedName, q.syncedName),
          Then(p.syncedType, q.syncedType), Then(p.syncedCost, q.syncedCost))
  }

  lemma OrThen<T>(p: Option<T>, q: Option<T>, value: T)
    ensures Or(q, Or(p, value)) == Or(Then(p, q), value)
  {
  }

  lemma ComposeApplies(row: Row, p: Patch, q: Patch)
    ensures Apply(Apply(row, p), q) == Apply(row, Compose(p, q))
  {
    hide Or, Then;
    OrThen(p.name, q.name, row.name);
    OrThen(p.kind, q.kind, row.kind);
    OrThen(p.cost, q.cost, row.cost);
    OrThen(p.currency, q.currency, row.currency);
    OrThen(p.period, q.period, row.period);
    OrThen(p.country, q.country, row.country);
    OrThen(p.nextBillingAt, q.nextBillingAt, row.nextBillingAt);
    OrThen(p.isActive, q.isActive, row.isActive);
    OrThen(p.nameOverridden, q.nameOverridden, row.nameOverridden);
    OrThen(p.typeOverridden, q.typeOverridden, row.typeOverridden);
    OrThen(p.costOverridden, q.costOverridden, row.costOverridden);
    OrThen(p.activeOverridden, q.activeOverridden, row.activeOverridden);
    OrThen(p.syncedName, q.syncedName, row.syncedName);
    OrThen(p.syncedType, q.syncedType, row.syncedType);
    OrThen(p.syncedCost, q.syncedCost, row.syncedCost);
  }

  lemma ApplyTwice(row: Row, p: Patch)
    ensures Apply(Apply(row, p), p) == Apply(row, p)
  {
  }

  /** The fetched records of one service, in order. */
  function Occurrences(fetched: seq<Fetched>, externalId: string): seq<Fetched> {
    if fetched == [] then []
    else Occurrences(fetched[..|fetched| - 1], externalId) +
         if fetched[|fetched| - 1].externalId == externalId then [fetched[|fetched| - 1]] else []
  }

  /** What a row goes through when its records come in one after another. */
  function SyncThrough(row: Row, records: seq<Fetched>, accountCurrency: string): Row {
    if records == [] then row
    else SyncRow(SyncThrough(row, records[..|records| - 1], accountCurrency), records[|records| - 1], accountCurrency)
  }

  function Flags(row: Row): (bool, bool, bool, bool) {
    (row.nameOverridden, row.typeOverridden, row.costOverridden, row.activeOverridden)
  }

  /** All records of a service together act as one patch, which depends on the row's flags only. */
  function TotalPatch(flags: (bool, bool, bool, bool), records: seq<Fetched>, accountCurrency: string): Patch {
    if records == [] then NOTHING
    else Compose(TotalPatch(flags, records[..|records| - 1], accountCurrency),
                 SyncPatch(flags.0, flags.1, flags.2, flags.3, records[|records| - 1], accountCurrency))
  }

  lemma SyncKeepsFlags(row: Row, sd: Fetched, accountCurrency: string)
    ensures Flags(SyncRow(row, sd, accountCurrency)) == Flags(row)
    ensures SyncRow(row, sd, accountCurrency).isManaged == row.isManaged
  {
  }

  lemma {:induction false} ThroughIsTotal(row: Row, records: seq<Fetched>, accountCurrency: string)
    ensures SyncThrough(row, records, accountCurrency) == Apply(row, TotalPatch(Flags(row), records, accountCurrency))
    ensures Flags(SyncThrough(row, records, accountCurrency)) == Flags(row)
    ensures SyncThrough(row, records, accountCurrency).isManaged == row.isManaged
  {
    if records == [] {
      assert Apply(row, NOTHING) == row;
    } else {
      hide Apply, SyncPatch, Compose;
      var n := |records| - 1;
      ThroughIsTotal(row, records[..n], accountCurrency);
      var before := SyncThrough(row, records[..n], accountCurrency);
      SyncKeepsFlags(before, records[n], accountCurrency);
      ComposeApplies(row, TotalPatch(Flags(row), records[..n], accountCurrency),
                     PatchFor(before, records[n], accountCurrency));
    }
  }

  /** Going through the same records again changes nothing. */
  lemma {:induction false} ThroughTwice(row: Row, records: seq<Fetched>, accountCurrency: string)
    ensures var once := SyncThrough(row, records, accountCurrency);
            SyncThrough(once, records, accountCurrency) == once
  {
    hide Apply, TotalPatch;
    ThroughIsTotal(row, records, accountCurrency);
    var once := SyncThrough(row, records, accountCurrency);
    ThroughIsTotal(once, records, accountCurrency);
    ApplyTwice(row, TotalPatch(Flags(row), records, accountCurrency));
  }

  /** A created row already is what its own record would make of it. */
  lemma NewRowIsSettled(sd: Fetched, accountCurrency: string)
    ensures SyncRow(NewRow(sd, accountCurrency), sd, accountCurrency) == NewRow(sd, accountCurrency)
  {
  }

  lemma {:induction false} ThroughConcat(row: Row, a: seq<Fetched>, b: seq<Fetched>, accountCurrency: string)
    ensures SyncThrough(row, a + b, accountCurrency)
            == SyncThrough(SyncThrough(row, a, accountCurrency), b, accountCurrency)
  {
    hide SyncRow;
    if b == [] {
      assert a + b == a;
    } else {
      var n := |b| - 1;
      assert (a + b)[..|a + b| - 1] == a + b[..n];
      ThroughConcat(row, a, b[..n], accountCurrency);
    }
  }

  /** The row a service ends up with, given the row it had (if any). */
  function Outcome(before: Option<Row>, records: seq<Fetched>, accountCurrency: string): Option<Row> {
    if before.Some? then Some(SyncThrough(before.value, records, accountCurrency))
    else if records == [] then None
    else Some(SyncThrough(NewRow(records[0], accountCurrency), records[1..], accountCurrency))
  }

  function Lookup(rows: Table, key: Key): Option<Row> {
    if key in rows then Some(rows[key]) else None
  }

  lemma OneMoreRecord(before: Option<Row>, records: seq<Fetched>, sd: Fetched, accountCurrency: string)
    ensures var o := Outcome(before, records, accountCurrency);
            Outcome(before, records + [sd], accountCurrency)
            == Some(if o.Some? then SyncRow(o.value, sd, accountCurrency) else NewRow(sd, accountCurrency))
  {
    hide SyncRow, NewRow;
    if before.Some? {
      assert (records + [sd])[..|records|] == records;
    } else if records == [] {
      assert (records + [sd])[1..] == [];
    } else {
      assert (records + [sd])[1..] == records[1..] + [sd];
      assert (records[1..] + [sd])[..|records| - 1] == records[1..];
    }
  }

  /** The loop treats every service as if it were alone. */
  lemma {:induction false} UpsertPerService(rows: Table, account: string, fetched: seq<Fetched>,
                                            accountCurrency: string, key: Key)
    ensures Lookup(UpsertAll(rows, account, fetched, accountCurrency), key)
            == if key.account == account
               then Outcome(Lookup(rows, key), Occurrences(fetched, key.externalId), accountCurrency)
               else Lookup(rows, key)
  {
    hide SyncRow, NewRow;
    if fetched == [] {
      assert Occurrences(fetched, key.externalId) == [];
    } else {
      hide Outcome;
      var n := |fetched| - 1;
      UpsertPerService(rows, account, fetched[..n], accountCurrency, key);
      OneMoreRecord(Lookup(rows, key), Occurrences(fetched[..n], key.externalId), fetched[n], accountCurrency);
      if fetched[n].externalId != key.externalId {
        assert Occurrences(fetched, key.externalId) == Occurrences(fetched[..n], key.externalId);
      }
    }
  }

  /** Whatever the row was before, its outcome is a row the same records leave alone. */
  lemma OutcomeIsSettled(before: Option<Row>, records: seq<Fetched>, accountCurrency: string)
    ensures var o := Outcome(before, records, accountCurrency);
            (records != [] ==> o.Some?) && (o.Some? ==> Outcome(o, records, accountCurrency) == o)
  {
    hide SyncRow, NewRow;
    if before.Some? {
      ThroughTwice(before.value, records, accountCurrency);
    } else if records != [] {
      var sd, rest := records[0], records[1..];
      var made := NewRow(sd, accountCurrency);
      assert records == [sd] + rest;
      assert [sd][..0] == [];
      assert SyncThrough(made, [sd], accountCurrency) == made by {
        NewRowIsSettled(sd, accountCurrency);
        assert SyncThrough(made, [], accountCurrency) == made;
      }
      ThroughConcat(made, [sd], rest, accountCurrency);
      ThroughTwice(made, records, accountCurrency);
    }
  }

  lemma {:induction false} SeenIffOccurs(fetched: seq<Fetched>, externalId: string)
    ensures externalId in Seen(fetched) <==> Occurrences(fetched, externalId) != []
  {
    if fetched != [] {
      var n := |fetched| - 1;
      SeenIffOccurs(fetched[..n], externalId);
      SeenMore(fetched, n);
      assert fetched[..n + 1] == fetched;
    }
  }

  /** Syncing the same list again leaves every row as it was, even with repeated ids in the list. */
  lemma SyncTwiceIsSyncOnce(rows: Table, account: string, fetched: seq<Fetched>, accountCurrency: string)
    ensures var once := SyncTable(rows, account, fetched, accountCurrency);
            SyncTable(once, account, fetched, accountCurrency) == once
  {
    hide SyncRow, NewRow, Outcome, UpsertAll;
    var once := SyncTable(rows, account, fetched, accountCurrency);
    var twice := SyncTable(once, account, fetched, accountCurrency);
    forall key: Key ensures Lookup(twice, key) == Lookup(once, key) {
      UpsertPerService(rows, account, fetched, accountCurrency, key);
      UpsertPerService(once, account, fetched, accountCurrency, key);
      SeenIffOccurs(fetched, key.externalId);
      var records := Occurrences(fetched, key.externalId);
      OutcomeIsSettled(Lookup(rows, key), records, accountCurrency);
      OutcomeOfNothing(Lookup(rows, key), accountCurrency);
      OutcomeOfNothing(Lookup(once, key), accountCurrency);
      LookupAfterDeactivation(UpsertAll(rows, account, fetched, accountCurrency), account, Seen(fetched), key);
      LookupAfterDeactivation(UpsertAll(once, account, fetched, accountCurrency), account, Seen(fetched), key);
    }
    SameRows(twice, once);
  }

  lemma LookupAfterDeactivation(rows: Table, account: string, seen: set<string>, key: Key)
    ensures Lookup(DeactivateMissing(rows, account, seen), key)
            == var o := Lookup(rows, key);
               if o.Some? && key.account == account && o.value.isManaged && key.externalId !in seen
               then Some(o.value.(isActive := false)) else o
  {
  }

  lemma OutcomeOfNothing(before: Option<Row>, accountCurrency: string)
    ensures Outcome(before, [], accountCurrency) == before
  {
  }

  lemma SameRows(a: Table, b: Table)
    requires forall key: Key :: Lookup(a, key) == Lookup(b, key)
    ensures a == b
  {
    forall key: Key ensures key in a <==> key in b {
      assert Lookup(a, key) == Lookup(b, key);
    }
    forall key | key in a ensures a[key] == b[key] {
      assert Lookup(a, key) == Lookup(b, key);
    }
  }

  lemma {:induction false} OccurrencesAreFilter(fetched: seq<Fetched>, externalId: string)
    ensures Occurrences(fetched, externalId) == Filter(fetched, (sd: Fetched) => sd.externalId == externalId)
  {
    if fetched != [] {
      OccurrencesAreFilter(fetched[..|fetched| - 1], externalId);
    }
  }

  lemma {:induction false} ThroughMakesActive(row: Row, records: seq<Fetched>, accountCurrency: string)
    ensures var after := SyncThrough(row, records, accountCurrency);
            && after.activeOverridden == row.activeOverridden
            && after.isActive == (row.isActive || (records != [] && !row.activeOverridden))
  {
    if records != [] {
      hide Apply;
      ThroughMakesActive(row, records[..|records| - 1], accountCurrency);
      SyncIsSync(SyncThrough(row, records[..|records| - 1], accountCurrency), records[|records| - 1], accountCurrency);
    }
  }

  /**
   * Which services a sync leaves running: a fetched one unless the owner has switched it off for
   * good, no managed one of the account that was not fetched, and any other as before.
   */
  lemma ActiveAfterSync(rows: Table, account: string, fetched: seq<Fetched>, accountCurrency: string, key: Key)
    requires key in rows
    ensures var after, row := SyncTable(rows, account, fetched, accountCurrency), rows[key];
            var listed := exists i :: 0 <= i < |fetched| && fetched[i].externalId == key.externalId;
            && key in after
            && (key.account != account ==> after[key] == row)
            && (key.account == account && !listed ==>
                  after[key] == if row.isManaged then row.(isActive := false) else row)
            && (key.account == account && listed ==>
                  after[key].isActive == (row.isActive || !row.activeOverridden))
  {
    hide SyncRow, NewRow, UpsertAll, Occurrences, SyncThrough, Seen;
    var records := Occurrences(fetched, key.externalId);
    var upserted := UpsertAll(rows, account, fetched, accountCurrency);
    UpsertPerService(rows, account, fetched, accountCurrency, key);
    LookupAfterDeactivation(upserted, account, Seen(fetched), key);
    SeenIffOccurs(fetched, key.externalId);
    SeenIffListed(fetched, key.externalId);
    ThroughMakesActive(rows[key], records, accountCurrency);
    OutcomeOfNothing(Some(rows[key]), accountCurrency);
  }

  lemma SeenIffListed(fetched: seq<Fetched>, externalId: string)
    ensures externalId in Seen(fetched) <==> exists i :: 0 <= i < |fetched| && fetched[i].externalId == externalId
  {
  }

  // ---------------------------------------------------------------- history and runs

  function NameProposals(records: seq<Fetched>): seq<Event<string>> {
    seq(|records|, i requires 0 <= i < |records| => Synced(Some(records[i].name)))
  }

  function TypeProposals(records: seq<Fetched>): seq<Event<string>> {
    seq(|records|, i requires 0 <= i < |records| => Synced(Some(records[i].kind)))
  }

  function CostProposals(records: seq<Fetched>): seq<Event<int>> {
    seq(|records|, i requires 0 <= i < |records| => Synced(records[i].cost))
  }

  /** `after` is `row` run through its records, column by column; a pinned price is all of period and currency. */
  ghost predicate RunsThrough(row: Row, records: seq<Fetched>, after: Row) {
    && NameOf(after) == Run(NameOf(row), NameProposals(records))
    && TypeOf(after) == Run(TypeOf(row), TypeProposals(records))
    && CostOf(after) == Run(CostOf(row), CostProposals(records))
    && (row.costOverridden ==> after.period == row.period && after.currency == row.currency)
    && after.activeOverridden == row.activeOverridden && (row.activeOverridden && !row.isActive ==> !after.isActive)
  }

  /** A table sync is, for the columns of one service, a run of proposals in the order they came. */
  lemma {:induction false} RunsThroughRecords(row: Row, records: seq<Fetched>, accountCurrency: string)
    ensures RunsThrough(row, records, SyncThrough(row, records, accountCurrency))
  {
    if records == [] {
      assert NameProposals(records) == [] && TypeProposals(records) == [] && CostProposals(records) == [];
    } else {
      hide Apply, Sync;
      var n := |records| - 1;
      RunsThroughRecords(row, records[..n], accountCurrency);
      assert NameProposals(records)[..n] == NameProposals(records[..n]);
      assert TypeProposals(records)[..n] == TypeProposals(records[..n]);
      assert CostProposals(records)[..n] == CostProposals(records[..n]);
      SyncIsSync(SyncThrough(row, records[..n], accountCurrency), records[n], accountCurrency);
      OverriddenThrough(CostOf(row), CostProposals(records[..n]));
    }
  }

  lemma {:induction false} OverriddenThrough(t: Tracked<int>, events: seq<Event<int>>)
    requires forall i :: 0 <= i < |events| ==> events[i].Synced?
    ensures Run(t, events).overridden == t.overridden
  {
    if events != [] {
      OverriddenThrough(t, events[..|events| - 1]);
    }
  }

  /** So the column laws of the overrides apply to every row of the table. */
  lemma {:induction false} ColumnsThroughSync(rows: Table, account: string, fetched: seq<Fetched>,
                                              accountCurrency: string, key: Key)
    requires key in rows && key.account == account
    ensures var after := SyncTable(rows, account, fetched, accountCurrency);
            key in after && RunsThrough(rows[key], Occurrences(fetched, key.externalId), after[key])
  {
    hide SyncRow, NewRow, Run, UpsertAll, Occurrences, SyncThrough;
    var records := Occurrences(fetched, key.externalId);
    var upserted := UpsertAll(rows, account, fetched, accountCurrency);
    UpsertPerService(rows, account, fetched, accountCurrency, key);
    LookupAfterDeactivation(upserted, account, Seen(fetched), key);
    RunsThroughRecords(rows[key], records, accountCurrency);
  }

  datatype Action =
    | OwnerEdits(key: Key, dto: EditDto)
    | SyncRuns(account: string, fetched: seq<Fetched>, accountCurrency: string)

  /** What happens to one service: the record it is created from, and what its columns see from then on. */
  datatype Life = Life(born: Fetched, name: seq<Event<string>>, kind: seq<Event<string>>, cost: seq<Event<int>>)

  /** An edit before there is a row is refused; a sync brings the records of its own account. */
  function LifeOf(actions: seq<Action>, key: Key): Option<Life> {
    if actions == [] then None
    else Lived(LifeOf(actions[..|actions| - 1], key), actions[|actions| - 1], key)
  }

  function Lived(life: Option<Life>, a: Action, key: Key): Option<Life> {
    match a
    case OwnerEdits(k, dto) => if k == key then Edits(life, dto) else life
    case SyncRuns(account, fetched, accountCurrency) =>
      if account == key.account then Proposes(life, Occurrences(fetched, key.externalId)) else life
  }

  function Edits(life: Option<Life>, dto: EditDto): Option<Life> {
    if life.None? then None
    else
      var l := life.value;
      Some(Life(l.born, l.name + [OwnerEdit(dto.name)], l.kind + [OwnerEdit(dto.kind)],
                l.cost + [OwnerEdit(dto.cost)]))
  }

  function Proposes(life: Option<Life>, records: seq<Fetched>): Option<Life> {
    if life.Some? then
      var l := life.value;
      Some(Life(l.born, l.name + NameProposals(records), l.kind + TypeProposals(records),
                l.cost + CostProposals(records)))
    else if records == [] then None
    else Some(Life(records[0], NameProposals(records[1..]), TypeProposals(records[1..]), CostProposals(records[1..])))
  }

  /** The row is what the life of its service makes of the shared columns; no row, no life. */
  ghost predicate IsLived(row: Option<Row>, life: Option<Life>) {
    && (row.Some? <==> life.Some?)
    && (row.Some? ==>
          && NameOf(row.value) == Run(Created(Some(life.value.born.name), ""), life.value.name)
          && TypeOf(row.value) == Run(Created(Some(life.value.born.kind), ""), life.value.kind)
          && CostOf(row.value) == Run(Created(life.value.born.cost, 0), life.value.cost))
  }

  lemma {:induction false} RunConcat<T>(t: Tracked<T>, a: seq<Event<T>>, b: seq<Event<T>>)
    ensures Run(t, a + b) == Run(Run(t, a), b)
  {
    if b == [] {
      assert a + b == a;
    } else {
      assert (a + b)[..|a + b| - 1] == a + b[..|b| - 1];
      RunConcat(t, a, b[..|b| - 1]);
    }
  }

  lemma {:induction false} RunOfEdit<T>(t: Tracked<T>, events: seq<Event<T>>, v: Option<T>)
    ensures Run(t, events + [OwnerEdit(v)]) == Edit(Run(t, events), v)
  {
    assert (events + [OwnerEdit(v)])[..|events|] == events;
  }

  lemma EditIsLived(row: Row, dto: EditDto, after: Row, life: Option<Life>)
    requires IsLived(Some(row), life) && IsEdit(row, dto, after)
    ensures IsLived(Some(after), Edits(life, dto))
  {
    hide Edit, Run, NameOf, TypeOf, CostOf;
    var l := life.value;
    RunOfEdit(Created(Some(l.born.name), ""), l.name, dto.name);
    RunOfEdit(Created(Some(l.born.kind), ""), l.kind, dto.kind);
    RunOfEdit(Created(l.born.cost, 0), l.cost, dto.cost);
  }

  lemma RecordsAreLived(row: Option<Row>, records: seq<Fetched>, accountCurrency: string, life: Option<Life>)
    requires IsLived(row, life)
    ensures IsLived(Outcome(row, records, accountCurrency), Proposes(life, records))
  {
    hide Run, SyncRow, SyncThrough, NameProposals, TypeProposals, CostProposals;
    if row.Some? {
      var l := life.value;
      RunsThroughRecords(row.value, records, accountCurrency);
      RunConcat(Created(Some(l.born.name), ""), l.name, NameProposals(records));
      RunConcat(Created(Some(l.born.kind), ""), l.kind, TypeProposals(records));
      RunConcat(Created(l.born.cost, 0), l.cost, CostProposals(records));
    } else if records != [] {
      RunsThroughRecords(NewRow(records[0], accountCurrency), records[1..], accountCurrency);
    }
  }

  lemma SyncIsLived(rows: Table, account: string, fetched: seq<Fetched>, accountCurrency: string, key: Key,
                    life: Option<Life>)
    requires IsLived(Lookup(rows, key), life)
    ensures IsLived(Lookup(SyncTable(rows, account, fetched, accountCurrency), key),
                    Lived(life, SyncRuns(account, fetched, accountCurrency), key))
  {
    hide Run, UpsertAll, Outcome, Proposes, DeactivateMissing, Occurrences;
    UpsertPerService(rows, account, fetched, accountCurrency, key);
    LookupAfterDeactivation(UpsertAll(rows, account, fetched, accountCurrency), account, Seen(fetched), key);
    if key.account == account {
      RecordsAreLived(Lookup(rows, key), Occurrences(fetched, key.externalId), accountCurrency, life);
    }
  }

  /**
   * Every interleaving of owner edits and syncs: the table holds the services that were fetched at
   * some time, and each has the name, type and price, flags and baselines its own life leads to.
   */
  method Replay(actions: seq<Action>) returns (table: ServiceTable)
    ensures fresh(table) && table.Valid()
    ensures forall key: Key :: IsLived(Lookup(table.rows, key), LifeOf(actions, key))
  {
    hide IsLived, TableOk, IsEdit, SyncTable, Edits, Proposes;
    table := new ServiceTable();
    forall key: Key ensures IsLived(Lookup(table.rows, key), LifeOf([], key)) {
      NothingIsLived();
    }
    for i := 0 to |actions|
      invariant table.Valid()
      invariant forall key: Key :: IsLived(Lookup(table.rows, key), LifeOf(actions[..i], key))
    {
      ghost var before := table.rows;
      assert actions[..i + 1][..i] == actions[..i];
      match actions[i]
      case OwnerEdits(key, dto) =>
        var _ := table.OwnerUpdate(key, dto);
        EditedTableIsLived(before, key, dto, table.rows, actions[..i + 1]);
      case SyncRuns(account, fetched, accountCurrency) =>
        var _ := table.UpsertServices(account, fetched, accountCurrency);
        forall key: Key ensures IsLived(Lookup(table.rows, key), LifeOf(actions[..i + 1], key)) {
          SyncIsLived(before, account, fetched, accountCurrency, key, LifeOf(actions[..i], key));
        }
    }
    assert actions[..|actions|] == actions;
  }

  /** So any price of a run is the owner's last edit if that stands, and else the last proposal. */
  lemma PriceFromLife(row: Row, life: Life)
    requires IsLived(Some(row), Some(life))
    ensures var first, k := Or(life.born.cost, 0), LastEdit(life.cost);
            && row.costOverridden == EditStands(first, life.cost)
            && row.cost == if k > 0 && row.costOverridden then life.cost[k - 1].v.value
                           else LastProposal(first, life.cost)
  {
    hide LastProposal;
    ValueFromHistory(life.born.cost, 0, life.cost);
  }

  lemma NothingIsLived()
    ensures IsLived(None, None)
  {
  }

  lemma {:induction false} EditedTableIsLived(rows: Table, key: Key, dto: EditDto, after: Table, actions: seq<Action>)
    requires actions != [] && actions[|actions| - 1] == OwnerEdits(key, dto)
    requires forall k: Key :: IsLived(Lookup(rows, k), LifeOf(actions[..|actions| - 1], k))
    requires key !in rows ==> after == rows
    requires key in rows ==>
               && after.Keys == rows.Keys && IsEdit(rows[key], dto, after[key])
               && forall k :: k in after && k != key ==> after[k] == rows[k]
    ensures forall k: Key :: IsLived(Lookup(after, k), LifeOf(actions, k))
  {
    hide Run, Edit, IsEdit, NameOf, TypeOf, CostOf;
    var before := actions[..|actions| - 1];
    forall k: Key ensures IsLived(Lookup(after, k), LifeOf(actions, k)) {
      assert IsLived(Lookup(rows, k), LifeOf(before, k));
      if k == key && key in rows {
        EditIsLived(rows[key], dto, after[key], LifeOf(before, key));
      } else {
        assert Lookup(after, k) == Lookup(rows, k);
      }
    }
  }
}
