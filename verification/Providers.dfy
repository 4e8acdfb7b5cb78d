/**
 * Providers and their accounts (apps/backend/src/providers/providers.service.ts,
 * provider-accounts.service.ts and the repositories under them). Every handler is one atomic step.
 */
module Providers {
  import opened Prelude
  import opened Labels
  import opened Text

  datatype Provider = Provider(
    name: string, kind: string,
    loginUrl: Option<string>, iconName: Option<string>, iconBg: Option<string>, faviconLink: Option<string>)

  /** An edit of a provider; an absent field stays, a null clears. */
  datatype IdentityEdit = IdentityEdit(
    name: Option<string>, loginUrl: Option<Option<string>>, iconName: Option<Option<string>>,
    iconBg: Option<Option<string>>)

  /** An account row; `data` stands for its credentials, balance and sync state. */
  datatype Row = Row(uuid: string, providerUuid: string, tag: Option<string>, data: string)

  datatype Outcome = Done | NotFound | BadRequest | Conflict

  // ---------------------------------------------------------------- the invariant

  ghost predicate UuidsUnique(rows: seq<Row>) {
    forall i, j :: 0 <= i < j < |rows| ==> rows[i].uuid != rows[j].uuid
  }

  /** Within a provider no two labels differ only in case; at most one account has none. */
  ghost predicate TagsUnique(rows: seq<Row>) {
    forall i, j :: 0 <= i < j < |rows| && rows[i].providerUuid == rows[j].providerUuid
                   ==> Key(rows[i].tag) != Key(rows[j].tag)
  }

  ghost predicate Owned(providers: map<string, Provider>, rows: seq<Row>) {
    forall i :: 0 <= i < |rows| ==> rows[i].providerUuid in providers
  }

  ghost predicate HasAccount(rows: seq<Row>, p: string) {
    exists i :: 0 <= i < |rows| && rows[i].providerUuid == p
  }

  ghost predicate Inv(providers: map<string, Provider>, rows: seq<Row>) {
    && UuidsUnique(rows) && TagsUnique(rows) && Owned(providers, rows)
    && forall p :: p in providers ==> HasAccount(rows, p)
  }

  // ---------------------------------------------------------------- queries

  /** The accounts of a provider, oldest first. */
  function AccountsOf(rows: seq<Row>, p: string): seq<Account> {
    if rows == [] then []
    else
      var r := rows[|rows| - 1];
      AccountsOf(rows[..|rows| - 1], p) + if r.providerUuid == p then [Account(r.uuid, r.tag)] else []
  }

  lemma {:induction false} AccountsComeFromRows(rows: seq<Row>, p: string, k: nat) returns (i: nat)
    requires k < |AccountsOf(rows, p)|
    ensures i < |rows| && rows[i].providerUuid == p && AccountsOf(rows, p)[k] == Account(rows[i].uuid, rows[i].tag)
  {
    var n := |rows| - 1;
    if k < |AccountsOf(rows[..n], p)| {
      i := AccountsComeFromRows(rows[..n], p, k);
    } else {
      i := n;
    }
  }

  lemma {:induction false} RowsBecomeAccounts(rows: seq<Row>, p: string, i: nat) returns (k: nat)
    requires i < |rows| && rows[i].providerUuid == p
    ensures k < |AccountsOf(rows, p)| && AccountsOf(rows, p)[k] == Account(rows[i].uuid, rows[i].tag)
  {
    var n := |rows| - 1;
    if i < n {
      k := RowsBecomeAccounts(rows[..n], p, i);
    } else {
      k := |AccountsOf(rows[..n], p)|;
    }
  }

  /** The check on a provider's list is the check on the table. */
  lemma {:induction false} TakenIffRow(rows: seq<Row>, p: string, tag: Option<string>, except: Option<string>)
    ensures LabelTaken(AccountsOf(rows, p), tag, except)
            <==> exists i :: 0 <= i < |rows| && rows[i].providerUuid == p && Some(rows[i].uuid) != except
                          && Key(rows[i].tag) == Key(tag)
  {
    hide Key;
    var accounts := AccountsOf(rows, p);
    if k :| 0 <= k < |accounts| && Some(accounts[k].uuid) != except && Key(accounts[k].tag) == Key(tag) {
      var i := AccountsComeFromRows(rows, p, k);
    }
    if i :| && 0 <= i < |rows| && rows[i].providerUuid == p && Some(rows[i].uuid) != except
            && Key(rows[i].tag) == Key(tag) {
      var k := RowsBecomeAccounts(rows, p, i);
      assert accounts[k].tag == rows[i].tag;
    }
  }

  function CountOf(rows: seq<Row>, p: string): nat {
    |AccountsOf(rows, p)|
  }

  /** With two accounts one of them is not the given one. */
  lemma SomeOther(rows: seq<Row>, p: string, i: nat)
    requires UuidsUnique(rows) && i < |rows| && CountOf(rows, p) > 1
    ensures exists j :: 0 <= j < |rows| && j != i && rows[j].providerUuid == p
  {
    var a := AccountsComeFromRows(rows, p, 0);
    var b := AccountsComeFromRows(rows, p, 1);
    if a == b {
      TwoAccountsTwoRows(rows, p, 0, 1);
    }
  }

  lemma {:induction false} TwoAccountsTwoRows(rows: seq<Row>, p: string, k: nat, l: nat)
    requires UuidsUnique(rows) && k < l < |AccountsOf(rows, p)|
    ensures AccountsOf(rows, p)[k].uuid != AccountsOf(rows, p)[l].uuid
  {
    var n := |rows| - 1;
    if l < |AccountsOf(rows[..n], p)| {
      TwoAccountsTwoRows(rows[..n], p, k, l);
    } else {
      var i := AccountsComeFromRows(rows[..n], p, k);
    }
  }

  /** findByUuid; the length of the table when there is no such row. */
  function IndexOf(rows: seq<Row>, uuid: string): (i: nat)
    ensures i <= |rows| && (i < |rows| ==> rows[i].uuid == uuid)
    ensures i == |rows| ==> forall j :: 0 <= j < |rows| ==> rows[j].uuid != uuid
  {
    if rows == [] || rows[0].uuid == uuid then 0 else 1 + IndexOf(rows[1..], uuid)
  }

  // ---------------------------------------------------------------- statements of a merge

  /** UPDATE provider_accounts SET label = ... WHERE uuid = ... */
  function SetTag(rows: seq<Row>, uuid: string, tag: string): (r: seq<Row>)
    ensures |r| == |rows|
  {
    seq(|rows|, i requires 0 <= i < |rows| => if rows[i].uuid == uuid then rows[i].(tag := Some(tag)) else rows[i])
  }

  /** UPDATE provider_accounts SET provider_uuid = target WHERE provider_uuid = source */
  function MoveAll(rows: seq<Row>, source: string, target: string): (r: seq<Row>)
    ensures |r| == |rows|
  {
    seq(|rows|, i requires 0 <= i < |rows| =>
      if rows[i].providerUuid == source then rows[i].(providerUuid := target) else rows[i])
  }

  /** The merged identity: per field the target's value if it has one, else the source's. */
  function Fill(source: Provider, target: Provider): Provider {
    target.(loginUrl := if target.loginUrl.None? then source.loginUrl else target.loginUrl,
            iconName := if target.iconName.None? then source.iconName else target.iconName,
            iconBg := if target.iconBg.None? then source.iconBg else target.iconBg,
            faviconLink := if target.faviconLink.None? then source.faviconLink else target.faviconLink)
  }

  function Or<T>(sent: Option<T>, stored: T): T {
    if sent.Some? then sent.value else stored
  }

  function Edited(p: Provider, dto: IdentityEdit): Provider {
    Provider(Or(dto.name, p.name), p.kind, Or(dto.loginUrl, p.loginUrl), Or(dto.iconName, p.iconName),
             Or(dto.iconBg, p.iconBg), p.faviconLink)
  }

  /** The label the list gives to an account. */
  function TagFor(r: seq<Relabel>, uuid: string): Option<string> {
    if r == [] then None
    else if r[|r| - 1].uuid == uuid then Some(r[|r| - 1].tag)
    else TagFor(r[..|r| - 1], uuid)
  }

  lemma {:induction false} TagForIndex(r: seq<Relabel>, k: nat)
    requires k < |r| && forall i, j :: 0 <= i < j < |r| ==> r[i].uuid != r[j].uuid
    ensures TagFor(r, r[k].uuid) == Some(r[k].tag)
  {
    if k < |r| - 1 {
      TagForIndex(r[..|r| - 1], k);
    }
  }

  lemma {:induction false} TagForNobody(r: seq<Relabel>, uuid: string)
    requires forall k :: 0 <= k < |r| ==> r[k].uuid != uuid
    ensures TagFor(r, uuid) == None
  {
    if r != [] {
      TagForNobody(r[..|r| - 1], uuid);
    }
  }

  function Retagged(row: Row, r: seq<Relabel>): Row {
    var tag := TagFor(r, row.uuid);
    if tag.Some? then row.(tag := tag) else row
  }

  /** One row after the merge: a source account moves under its new label, any other stays put. */
  function Moved(row: Row, source: string, target: string, r: seq<Relabel>): Row {
    if row.providerUuid == source then row.(providerUuid := target, tag := TagFor(r, row.uuid)) else row
  }

  /** The new label of the k-th source account, seen from the table. */
  lemma RelabelOfRow(rows: seq<Row>, source: string, r: seq<Relabel>, i: nat) returns (k: nat)
    requires UuidsUnique(rows) && i < |rows| && rows[i].providerUuid == source
    requires |r| == CountOf(rows, source) && forall k :: 0 <= k < |r| ==> r[k].uuid == AccountsOf(rows, source)[k].uuid
    ensures k < |r| && r[k].uuid == rows[i].uuid && TagFor(r, rows[i].uuid) == Some(r[k].tag)
  {
    k := RowsBecomeAccounts(rows, source, i);
    forall a, b | 0 <= a < b < |r| ensures r[a].uuid != r[b].uuid {
      TwoAccountsTwoRows(rows, source, a, b);
    }
    TagForIndex(r, k);
  }

  lemma {:induction false} NoRelabelOfOthers(rows: seq<Row>, source: string, r: seq<Relabel>, i: nat)
    requires UuidsUnique(rows) && i < |rows| && rows[i].providerUuid != source
    requires |r| == CountOf(rows, source) && forall k :: 0 <= k < |r| ==> r[k].uuid == AccountsOf(rows, source)[k].uuid
    ensures TagFor(r, rows[i].uuid) == None
  {
    forall k | 0 <= k < |r| ensures r[k].uuid != rows[i].uuid {
      var j := AccountsComeFromRows(rows, source, k);
    }
    TagForNobody(r, rows[i].uuid);
  }

  /** A merge keeps labels unique: nobody on the target is called like a newcomer. */
  lemma {:induction false} MergeKeepsTagsUnique(rows: seq<Row>, source: string, target: string, name: string,
                                                r: seq<Relabel>)
    requires UuidsUnique(rows) && TagsUnique(rows) && source != target
    requires IsMergeOf(name, AccountsOf(rows, source), AccountsOf(rows, target), r)
    ensures TagsUnique(MergedRows(rows, source, target, r))
  {
    hide Lower, IsFreeTag, Wanted, TargetKeys, NewKeys, AccountsOf, TagFor;
    MergedLabelsAreUsable(name, AccountsOf(rows, source), AccountsOf(rows, target), r);
    forall i, j | 0 <= i < j < |rows|
                  && Moved(rows[i], source, target, r).providerUuid == Moved(rows[j], source, target, r).providerUuid
      ensures Key(Moved(rows[i], source, target, r).tag) != Key(Moved(rows[j], source, target, r).tag)
    {
      if rows[i].providerUuid == source {
        var k := RelabelOfRow(rows, source, r, i);
        if rows[j].providerUuid == source {
          var l := RelabelOfRow(rows, source, r, j);
        } else {
          var l := RowsBecomeAccounts(rows, target, j);
        }
      } else if rows[j].providerUuid == source {
        var k := RelabelOfRow(rows, source, r, j);
        var l := RowsBecomeAccounts(rows, target, i);
      }
    }
  }

  // ---------------------------------------------------------------- steps on the table

  /** A provider keeps an account as long as its row is carried over to some place. */
  lemma StillHasAccount(rows: seq<Row>, after: seq<Row>, p: string, at: int -> int)
    requires HasAccount(rows, p)
    requires forall i :: 0 <= i < |rows| && rows[i].providerUuid == p ==>
               0 <= at(i) < |after| && after[at(i)].providerUuid == p
    ensures HasAccount(after, p)
  {
    var i :| 0 <= i < |rows| && rows[i].providerUuid == p;
    assert after[at(i)].providerUuid == p;
  }

  lemma AppendKeepsUuids(rows: seq<Row>, row: Row)
    requires UuidsUnique(rows) && forall i :: 0 <= i < |rows| ==> rows[i].uuid != row.uuid
    ensures UuidsUnique(rows + [row])
  {
  }

  lemma AppendKeepsTags(rows: seq<Row>, row: Row)
    requires TagsUnique(rows)
    requires forall i :: 0 <= i < |rows| && rows[i].providerUuid == row.providerUuid ==>
               Key(rows[i].tag) != Key(row.tag)
    ensures TagsUnique(rows + [row])
  {
    hide Key;
  }

  /** The check of `addAccount` is what keeps labels unique. */
  lemma {:induction false} AddKeepsInv(providers: map<string, Provider>, rows: seq<Row>, row: Row)
    requires Inv(providers, rows) && row.providerUuid in providers
    requires forall i :: 0 <= i < |rows| ==> rows[i].uuid != row.uuid
    requires !LabelTaken(AccountsOf(rows, row.providerUuid), row.tag, None)
    ensures Inv(providers, rows + [row])
  {
    hide Key, AccountsOf, LabelTaken, UuidsUnique, TagsUnique, HasAccount;
    TakenIffRow(rows, row.providerUuid, row.tag, None);
    AppendKeepsUuids(rows, row);
    assert forall i :: 0 <= i < |rows| ==> Some(rows[i].uuid) != None;
    AppendKeepsTags(rows, row);
    var more := rows + [row];
    forall p | p in providers ensures HasAccount(more, p) {
      StillHasAccount(rows, more, p, i => i);
    }
  }

  lemma CreateKeepsInv(providers: map<string, Provider>, rows: seq<Row>, provider: Provider, row: Row)
    requires Inv(providers, rows) && row.providerUuid !in providers
    requires forall i :: 0 <= i < |rows| ==> rows[i].uuid != row.uuid
    ensures Inv(providers[row.providerUuid := provider], rows + [row])
  {
    hide Key, UuidsUnique, TagsUnique, HasAccount;
    AppendKeepsUuids(rows, row);
    AppendKeepsTags(rows, row);
    var more := rows + [row];
    forall p | p in providers[row.providerUuid := provider] ensures HasAccount(more, p) {
      if p == row.providerUuid {
        LastHasAccount(rows, row);
      } else {
        StillHasAccount(rows, more, p, i => i);
      }
    }
  }

  lemma LastHasAccount(rows: seq<Row>, row: Row)
    ensures HasAccount(rows + [row], row.providerUuid)
  {
    assert (rows + [row])[|rows|] == row;
  }

  lemma EditKeepsInv(providers: map<string, Provider>, rows: seq<Row>, i: nat, tag: Option<string>)
    requires Inv(providers, rows) && i < |rows|
    requires !LabelTaken(AccountsOf(rows, rows[i].providerUuid), tag, Some(rows[i].uuid))
    ensures Inv(providers, rows[i := rows[i].(tag := tag)])
  {
    hide Key, AccountsOf, LabelTaken, HasAccount;
    TakenIffRow(rows, rows[i].providerUuid, tag, Some(rows[i].uuid));
    var edited := rows[i := rows[i].(tag := tag)];
    assert forall j :: 0 <= j < |rows| && j != i && rows[j].providerUuid == rows[i].providerUuid ==>
      Key(rows[j].tag) != Key(tag);
    forall p | p in providers ensures HasAccount(edited, p) {
      StillHasAccount(rows, edited, p, j => j);
    }
  }

  function Dropped(rows: seq<Row>, i: nat): (r: seq<Row>)
    requires i < |rows|
    ensures |r| == |rows| - 1 && forall j :: 0 <= j < |r| ==> r[j] == rows[if j < i then j else j + 1]
  {
    rows[..i] + rows[i + 1..]
  }

  lemma DropKeepsUnique(rows: seq<Row>, i: nat)
    requires UuidsUnique(rows) && TagsUnique(rows) && i < |rows|
    ensures UuidsUnique(Dropped(rows, i)) && TagsUnique(Dropped(rows, i))
  {
    hide Key, Dropped;
  }

  lemma OtherSurvives(rows: seq<Row>, i: nat)
    requires UuidsUnique(rows) && i < |rows| && CountOf(rows, rows[i].providerUuid) > 1
    ensures HasAccount(Dropped(rows, i), rows[i].providerUuid)
  {
    SomeOther(rows, rows[i].providerUuid, i);
    var j :| 0 <= j < |rows| && j != i && rows[j].providerUuid == rows[i].providerUuid;
    assert Dropped(rows, i)[if j < i then j else j - 1].providerUuid == rows[i].providerUuid;
  }

  /** The count check of `deleteUnlessLast` is what leaves every provider an account. */
  lemma RemoveKeepsInv(providers: map<string, Provider>, rows: seq<Row>, i: nat)
    requires Inv(providers, rows) && i < |rows| && CountOf(rows, rows[i].providerUuid) > 1
    ensures Inv(providers, Dropped(rows, i))
  {
    hide AccountsOf, CountOf, UuidsUnique, TagsUnique, Dropped, HasAccount;
    DropKeepsUnique(rows, i);
    var fewer := Dropped(rows, i);
    forall p | p in providers ensures HasAccount(fewer, p) {
      if p == rows[i].providerUuid {
        OtherSurvives(rows, i);
      } else {
        StillHasAccount(rows, fewer, p, j => if j < i then j else j - 1);
      }
    }
  }

  lemma UuidsOfInv(providers: map<string, Provider>, rows: seq<Row>)
    requires Inv(providers, rows)
    ensures UuidsUnique(rows)
  {
  }

  function MergedProviders(providers: map<string, Provider>, source: string, target: string): map<string, Provider>
    requires source in providers && target in providers
  {
    providers[target := Fill(providers[source], providers[target])] - {source}
  }

  function MergedRows(rows: seq<Row>, source: string, target: string, r: seq<Relabel>): seq<Row> {
    seq(|rows|, i requires 0 <= i < |rows| => Moved(rows[i], source, target, r))
  }

  lemma {:induction false} MergeKeepsInv(providers: map<string, Provider>, rows: seq<Row>, source: string,
                                         target: string, r: seq<Relabel>)
    requires Inv(providers, rows) && source in providers && target in providers && source != target
    requires IsMergeOf(providers[source].name, AccountsOf(rows, source), AccountsOf(rows, target), r)
    ensures Inv(MergedProviders(providers, source, target), MergedRows(rows, source, target, r))
  {
    hide Key, AccountsOf, IsMergeOf, TagFor, TagsUnique, HasAccount;
    MergeKeepsTagsUnique(rows, source, target, providers[source].name, r);
    var moved := MergedRows(rows, source, target, r);
    forall p | p in MergedProviders(providers, source, target) ensures HasAccount(moved, p) {
      StillHasAccount(rows, moved, p, j => j);
    }
  }

  /** The relabelling and the move together are the merge of every row. */
  lemma {:induction false} RetagThenMove(rows: seq<Row>, retagged: seq<Row>, source: string, target: string,
                                         name: string, r: seq<Relabel>)
    requires UuidsUnique(rows)
    requires IsMergeOf(name, AccountsOf(rows, source), AccountsOf(rows, target), r)
    requires |retagged| == |rows| && forall i :: 0 <= i < |rows| ==> retagged[i] == Retagged(rows[i], r)
    ensures MoveAll(retagged, source, target) == MergedRows(rows, source, target, r)
  {
    hide AccountsOf, IsFreeTag, TagFor, TargetKeys, NewKeys, Wanted;
    forall i | 0 <= i < |rows| ensures MoveAll(retagged, source, target)[i] == Moved(rows[i], source, target, r) {
      if rows[i].providerUuid == source {
        var k := RelabelOfRow(rows, source, r, i);
      } else {
        NoRelabelOfOthers(rows, source, r, i);
      }
    }
  }

  /** A merge loses and duplicates no account: the target has its own and the source's, others theirs. */
  lemma {:induction false} MergeConservesAccounts(rows: seq<Row>, source: string, target: string, r: seq<Relabel>)
    requires source != target
    ensures var moved := MergedRows(rows, source, target, r);
            && (forall i :: 0 <= i < |rows| ==> moved[i].uuid == rows[i].uuid && moved[i].data == rows[i].data)
            && CountOf(moved, source) == 0
            && CountOf(moved, target) == CountOf(rows, source) + CountOf(rows, target)
            && forall p :: p != source && p != target ==> AccountsOf(moved, p) == AccountsOf(rows, p)
  {
    hide AccountsOf, TagFor;
    MergeCounts(rows, source, target, r);
    forall p | p != source && p != target
      ensures AccountsOf(MergedRows(rows, source, target, r), p) == AccountsOf(rows, p)
    {
      MergeLeavesOthers(rows, source, target, r, p);
    }
  }

  lemma MergedPrefix(rows: seq<Row>, source: string, target: string, r: seq<Relabel>)
    requires rows != []
    ensures var n, moved := |rows| - 1, MergedRows(rows, source, target, r);
            moved[..n] == MergedRows(rows[..n], source, target, r) && moved[n] == Moved(rows[n], source, target, r)
  {
    hide Moved;
  }

  lemma {:induction false} MergeCounts(rows: seq<Row>, source: string, target: string, r: seq<Relabel>)
    requires source != target
    ensures CountOf(MergedRows(rows, source, target, r), source) == 0
    ensures CountOf(MergedRows(rows, source, target, r), target) == CountOf(rows, source) + CountOf(rows, target)
  {
    if rows != [] {
      hide TagFor, MergedRows;
      MergeCounts(rows[..|rows| - 1], source, target, r);
      MergedPrefix(rows, source, target, r);
    }
  }

  lemma {:induction false} MergeLeavesOthers(rows: seq<Row>, source: string, target: string, r: seq<Relabel>, p: string)
    requires p != source && p != target
    ensures AccountsOf(MergedRows(rows, source, target, r), p) == AccountsOf(rows, p)
  {
    if rows != [] {
      hide TagFor, MergedRows;
      MergeLeavesOthers(rows[..|rows| - 1], source, target, r, p);
      MergedPrefix(rows, source, target, r);
    }
  }

  // ---------------------------------------------------------------- the services

  class ProviderStore {
    var providers: map<string, Provider>
    var accounts: seq<Row>

    ghost predicate Valid()
      reads this
    {
      Inv(providers, accounts)
    }

    constructor ()
      ensures Valid() && providers == map[] && accounts == []
    {
      providers, accounts := map[], [];
    }

    /** A new provider has one account from the start; the two uuids are fresh ones of the database. */
    method Create(uuid: string, provider: Provider, accountUuid: string, tag: Option<string>, data: string)
      requires Valid() && uuid !in providers
      requires forall i :: 0 <= i < |accounts| ==> accounts[i].uuid != accountUuid
      modifies this
      ensures Valid()
      ensures providers == old(providers)[uuid := provider]
      ensures accounts == old(accounts) + [Row(accountUuid, uuid, tag, data)]
    {
      hide Inv;
      CreateKeepsInv(providers, accounts, provider, Row(accountUuid, uuid, tag, data));
      providers := providers[uuid := provider];
      accounts := accounts + [Row(accountUuid, uuid, tag, data)];
    }

    /** The identity edit: only the fields that are sent are written. */
    method Update(uuid: string, dto: IdentityEdit) returns (outcome: Outcome)
      requires Valid()
      modifies this
      ensures Valid() && accounts == old(accounts)
      ensures outcome == if uuid in old(providers) then Done else NotFound
      ensures providers == if uuid in old(providers) then old(providers)[uuid := Edited(old(providers)[uuid], dto)]
                           else old(providers)
    {
      if uuid !in providers {
        return NotFound;
      }
      var p := providers[uuid];
      if dto.name.Some? {
        p := p.(name := dto.name.value);
      }
      if dto.loginUrl.Some? {
        p := p.(loginUrl := dto.loginUrl.value);
      }
      if dto.iconName.Some? {
        p := p.(iconName := dto.iconName.value);
      }
      if dto.iconBg.Some? {
        p := p.(iconBg := dto.iconBg.value);
      }
      providers := providers[uuid := p];
      return Done;
    }

    method AddAccount(providerUuid: string, accountUuid: string, tag: string, data: string) returns (outcome: Outcome)
      requires Valid()
      requires forall i :: 0 <= i < |accounts| ==> accounts[i].uuid != accountUuid
      modifies this
      ensures Valid() && providers == old(providers)
      ensures outcome == if providerUuid !in old(providers) then NotFound
                         else if LabelTaken(AccountsOf(old(accounts), providerUuid), Some(tag), None) then Conflict
                         else Done
      ensures accounts == if outcome.Done? then old(accounts) + [Row(accountUuid, providerUuid, Some(tag), data)]
                          else old(accounts)
    {
      hide Inv, LabelTaken, AccountsOf;
      if providerUuid !in providers {
        return NotFound;
      }
      if LabelTaken(AccountsOf(accounts, providerUuid), Some(tag), None) {
        return Conflict;
      }
      AddKeepsInv(providers, accounts, Row(accountUuid, providerUuid, Some(tag), data));
      accounts := accounts + [Row(accountUuid, providerUuid, Some(tag), data)];
      return Done;
    }

    /** Account edit; `tag` is absent when the label is not part of the edit. */
    method UpdateAccount(uuid: string, tag: Option<Option<string>>) returns (outcome: Outcome)
      requires Valid()
      modifies this
      ensures Valid() && providers == old(providers)
      ensures var rows := old(accounts); var i := IndexOf(rows, uuid);
              && outcome == (if i == |rows| then NotFound
                             else if tag.Some? && tag.value != rows[i].tag
                                     && LabelTaken(AccountsOf(rows, rows[i].providerUuid), tag.value, Some(uuid))
                             then Conflict else Done)
              && accounts == if outcome.Done? && tag.Some? then rows[i := rows[i].(tag := tag.value)] else rows
    {
      hide Inv, LabelTaken, AccountsOf, IndexOf;
      var i := IndexOf(accounts, uuid);
      if i == |accounts| {
        return NotFound;
      }
      var existing := accounts[i];
      if tag.Some? && tag.value != existing.tag {
        if LabelTaken(AccountsOf(accounts, existing.providerUuid), tag.value, Some(uuid)) {
          return Conflict;
        }
        EditKeepsInv(providers, accounts, i, tag.value);
        accounts := accounts[i := existing.(tag := tag.value)];
      }
      return Done;
    }

    /** Refused for the only account of a provider. */
    method RemoveAccount(uuid: string) returns (outcome: Outcome)
      requires Valid()
      modifies this
      ensures Valid() && providers == old(providers)
      ensures var rows := old(accounts); var i := IndexOf(rows, uuid);
              && outcome == (if i == |rows| then NotFound
                             else if CountOf(rows, rows[i].providerUuid) <= 1 then Conflict else Done)
              && accounts == if outcome.Done? then rows[..i] + rows[i + 1..] else rows
    {
      hide Inv, CountOf, IndexOf;
      var i := IndexOf(accounts, uuid);
      if i == |accounts| {
        return NotFound;
      }
      if CountOf(accounts, accounts[i].providerUuid) <= 1 {
        return Conflict;
      }
      RemoveKeepsInv(providers, accounts, i);
      accounts := accounts[..i] + accounts[i + 1..];
      return Done;
    }

    /** Deleting a provider takes its accounts with it. */
    method RemoveProvider(uuid: string) returns (outcome: Outcome)
      requires Valid()
      modifies this
      ensures Valid()
      ensures outcome == if uuid in old(providers) then Done else NotFound
      ensures providers == old(providers) - {uuid}
      ensures accounts == Without(old(accounts), uuid)
    {
      hide Inv, Without;
      if uuid !in providers {
        NothingToDropWithout(providers, accounts, uuid);
        return NotFound;
      }
      RemoveProviderKeepsInv(providers, accounts, uuid);
      providers := providers - {uuid};
      accounts := Without(accounts, uuid);
      return Done;
    }

    /**
     * Folds `source` into `target`: every account keeps its place, its uuid and its data, the
     * source's ones move to the target under new labels, and nothing else changes.
     */
    method Merge(source: string, target: string) returns (outcome: Outcome)
      requires Valid()
      modifies this
      ensures Valid()
      ensures outcome == if source !in old(providers) || target !in old(providers) then NotFound
                         else if source == target || old(providers)[source].kind != old(providers)[target].kind
                         then BadRequest
                         else Done
      ensures !outcome.Done? ==> providers == old(providers) && accounts == old(accounts)
      ensures outcome.Done? ==>
                && providers == MergedProviders(old(providers), source, target)
                && exists r ::
                     && IsMergeOf(old(providers)[source].name, AccountsOf(old(accounts), source),
                                  AccountsOf(old(accounts), target), r)
                     && accounts == MergedRows(old(accounts), source, target, r)
    {
      hide AccountsOf, IsMergeOf, MoveAll, MergedRows, Fill, Inv;
      if source !in providers || target !in providers {
        return NotFound;
      }
      if source == target || providers[source].kind != providers[target].kind {
        return BadRequest;
      }
      ghost var rows := accounts;
      var relabel := MergedLabels(providers[source].name, AccountsOf(accounts, source), AccountsOf(accounts, target));
      MergeKeepsInv(providers, rows, source, target, relabel);
      Retag(relabel);
      assert UuidsUnique(rows) by { UuidsOfInv(providers, rows); }
      RetagThenMove(rows, accounts, source, target, providers[source].name, relabel);
      accounts := MoveAll(accounts, source, target);
      providers := providers[target := Fill(providers[source], providers[target])] - {source};
      return Done;
    }

    /** The relabelling loop of the merge transaction. */
    method Retag(relabel: seq<Relabel>)
      modifies this`accounts
      ensures |accounts| == |old(accounts)|
      ensures forall i :: 0 <= i < |accounts| ==> accounts[i] == Retagged(old(accounts)[i], relabel)
    {
      for k := 0 to |relabel|
        invariant |accounts| == |old(accounts)|
        invariant forall i :: 0 <= i < |accounts| ==> accounts[i] == Retagged(old(accounts)[i], relabel[..k])
      {
        assert relabel[..k + 1][..k] == relabel[..k];
        accounts := SetTag(accounts, relabel[k].uuid, relabel[k].tag);
      }
      assert relabel[..|relabel|] == relabel;
    }

    /** One request; a uuid the database would not have generated twice is passed over. */
    method Perform(c: Command)
      requires Valid()
      modifies this
      ensures Valid() && Stored(providers, accounts) == Step(old(Stored(providers, accounts)), c)
    {
      hide Inv, IndexOf, LabelTaken, AccountsOf, CountOf, Without, IsMergeOf, MergedRows, MergedProviders, Merged,
           Edited;
      ghost var before := Stored(providers, accounts);
      match c
      case CreateProvider(uuid, provider, accountUuid, tag, data) =>
        if uuid !in providers && IndexOf(accounts, accountUuid) == |accounts| {
          Create(uuid, provider, accountUuid, tag, data);
        }
      case UpdateProvider(uuid, dto) =>
        var _ := Update(uuid, dto);
      case AddAccount(uuid, accountUuid, tag, data) =>
        if IndexOf(accounts, accountUuid) == |accounts| {
          var _ := this.AddAccount(uuid, accountUuid, tag, data);
        }
      case EditAccount(accountUuid, edit) =>
        var _ := UpdateAccount(accountUuid, edit);
      case RemoveAccount(accountUuid) =>
        var _ := this.RemoveAccount(accountUuid);
      case RemoveProvider(uuid) =>
        var _ := this.RemoveProvider(uuid);
      case MergeProviders(source, target) =>
        var outcome := Merge(source, target);
        if outcome.Done? {
          MergedIs(before, source, target, accounts);
        }
    }
  }

  function Without(rows: seq<Row>, p: string): seq<Row> {
    if rows == [] then []
    else Without(rows[..|rows| - 1], p) + if rows[|rows| - 1].providerUuid != p then [rows[|rows| - 1]] else []
  }

  lemma {:induction false} NothingToDrop(rows: seq<Row>, p: string)
    requires forall i :: 0 <= i < |rows| ==> rows[i].providerUuid != p
    ensures Without(rows, p) == rows
  {
    if rows != [] {
      NothingToDrop(rows[..|rows| - 1], p);
    }
  }

  /** Without a provider there is no account of it. */
  lemma {:induction false} NothingToDropWithout(providers: map<string, Provider>, rows: seq<Row>, p: string)
    requires Inv(providers, rows) && p !in providers
    ensures Without(rows, p) == rows && providers - {p} == providers
  {
    hide UuidsUnique, TagsUnique, HasAccount, Without;
    NothingToDrop(rows, p);
  }

  lemma {:induction false} RowSurvives(rows: seq<Row>, p: string, i: nat) returns (k: nat)
    requires i < |rows| && rows[i].providerUuid != p
    ensures k < |Without(rows, p)| && Without(rows, p)[k] == rows[i]
  {
    var n := |rows| - 1;
    if i < n {
      k := RowSurvives(rows[..n], p, i);
    } else {
      k := |Without(rows[..n], p)|;
    }
  }

  lemma {:induction false} SurvivorsAreRows(rows: seq<Row>, p: string, k: nat) returns (i: nat)
    requires k < |Without(rows, p)|
    ensures i < |rows| && rows[i] == Without(rows, p)[k] && rows[i].providerUuid != p
  {
    var n := |rows| - 1;
    if k < |Without(rows[..n], p)| {
      i := SurvivorsAreRows(rows[..n], p, k);
    } else {
      i := n;
    }
  }

  lemma {:induction false} WithoutKeepsUnique(rows: seq<Row>, p: string)
    ensures UuidsUnique(rows) ==> UuidsUnique(Without(rows, p))
    ensures TagsUnique(rows) ==> TagsUnique(Without(rows, p))
  {
    hide Key;
    if rows != [] {
      var n := |rows| - 1;
      WithoutKeepsUnique(rows[..n], p);
      if rows[n].providerUuid != p {
        hide Without;
        assert Without(rows, p) == Without(rows[..n], p) + [rows[n]] by { WithoutOneMore(rows, p); }
        var kept := Without(rows[..n], p);
        forall k | 0 <= k < |kept| ensures exists i :: 0 <= i < n && rows[i] == kept[k] {
          var i := SurvivorsAreRows(rows[..n], p, k);
          assert rows[i] == kept[k];
        }
        if UuidsUnique(rows) {
          AppendKeepsUuids(kept, rows[n]);
        }
        if TagsUnique(rows) {
          AppendKeepsTags(kept, rows[n]);
        }
      }
    }
  }

  lemma {:induction false} WithoutOneMore(rows: seq<Row>, p: string)
    requires rows != []
    ensures var n := |rows| - 1;
            Without(rows, p) == Without(rows[..n], p) + if rows[n].providerUuid != p then [rows[n]] else []
  {
  }

  lemma {:induction false} RemoveProviderKeepsInv(providers: map<string, Provider>, rows: seq<Row>, uuid: string)
    requires Inv(providers, rows)
    ensures Inv(providers - {uuid}, Without(rows, uuid))
  {
    hide UuidsUnique, TagsUnique, HasAccount, Without;
    WithoutKeepsUnique(rows, uuid);
    var fewer := Without(rows, uuid);
    forall k | 0 <= k < |fewer| ensures fewer[k].providerUuid in providers - {uuid} {
      var i := SurvivorsAreRows(rows, uuid, k);
    }
    forall p | p in providers - {uuid} ensures HasAccount(fewer, p) {
      OthersKeepAccount(rows, uuid, p);
    }
  }

  lemma {:induction false} OthersKeepAccount(rows: seq<Row>, uuid: string, p: string)
    requires HasAccount(rows, p) && p != uuid
    ensures HasAccount(Without(rows, uuid), p)
  {
    var j :| 0 <= j < |rows| && rows[j].providerUuid == p;
    var k := RowSurvives(rows, uuid, j);
  }

  // ---------------------------------------------------------------- field by field

  /** The target's own value wins; what it lacks comes from the source; name and kind stay. */
  lemma FillIs(source: Provider, target: Provider)
    ensures var p := Fill(source, target);
            && p.name == target.name && p.kind == target.kind
            && (target.loginUrl != None ==> p.loginUrl == target.loginUrl)
            && (target.loginUrl == None ==> p.loginUrl == source.loginUrl)
            && (target.iconName != None ==> p.iconName == target.iconName)
            && (target.iconName == None ==> p.iconName == source.iconName)
            && (target.iconBg != None ==> p.iconBg == target.iconBg)
            && (target.iconBg == None ==> p.iconBg == source.iconBg)
            && (target.faviconLink != None ==> p.faviconLink == target.faviconLink)
            && (target.faviconLink == None ==> p.faviconLink == source.faviconLink)
  {
  }

  /** A field that is sent takes the value sent, a null included; the others stay. */
  lemma EditedIs(p: Provider, dto: IdentityEdit)
    ensures var q := Edited(p, dto);
            && q.kind == p.kind && q.faviconLink == p.faviconLink
            && (dto.name == Some(q.name) || (dto.name == None && q.name == p.name))
            && (dto.loginUrl == Some(q.loginUrl) || (dto.loginUrl == None && q.loginUrl == p.loginUrl))
            && (dto.iconName == Some(q.iconName) || (dto.iconName == None && q.iconName == p.iconName))
            && (dto.iconBg == Some(q.iconBg) || (dto.iconBg == None && q.iconBg == p.iconBg))
  {
  }

  /** A provider's accounts are its rows, in the order of the table. */
  lemma {:induction false} AccountsOfIsFilter(rows: seq<Row>, p: string)
    ensures var own := Filter(rows, (r: Row) => r.providerUuid == p);
            && |AccountsOf(rows, p)| == |own|
            && forall k :: 0 <= k < |own| ==> AccountsOf(rows, p)[k] == Account(own[k].uuid, own[k].tag)
  {
    if rows != [] {
      AccountsOfIsFilter(rows[..|rows| - 1], p);
    }
  }

  /** Without a provider's rows the others are left, in their order. */
  lemma {:induction false} WithoutIsFilter(rows: seq<Row>, p: string)
    ensures Without(rows, p) == Filter(rows, (r: Row) => r.providerUuid != p)
  {
    if rows != [] {
      WithoutIsFilter(rows[..|rows| - 1], p);
    }
  }

  /** The source is gone, the target is completed from it, every other provider is as before. */
  lemma MergedProvidersAre(providers: map<string, Provider>, source: string, target: string, p: string)
    requires source in providers && target in providers && source != target
    ensures var after := MergedProviders(providers, source, target);
            && (p in after <==> p in providers && p != source)
            && (p in after && p != target ==> after[p] == providers[p])
            && (p == target ==> after[p] == Fill(providers[source], providers[target]))
  {
  }

  /**
   * What a merge makes of each row: it stays in its place with its uuid and data; a row of the
   * source belongs to the target under the label given to it, any other row is as before.
   */
  lemma {:induction false} MergedRowIs(rows: seq<Row>, source: string, target: string, name: string, r: seq<Relabel>,
                                       i: nat)
    requires UuidsUnique(rows) && i < |rows|
    requires IsMergeOf(name, AccountsOf(rows, source), AccountsOf(rows, target), r)
    ensures var after := MergedRows(rows, source, target, r);
            && |after| == |rows| && after[i].uuid == rows[i].uuid && after[i].data == rows[i].data
            && (rows[i].providerUuid != source ==> after[i] == rows[i])
            && (rows[i].providerUuid == source ==>
                  && after[i].providerUuid == target
                  && exists k :: && 0 <= k < |r| && r[k].uuid == rows[i].uuid
                                 && AccountsOf(rows, source)[k] == Account(rows[i].uuid, rows[i].tag)
                                 && after[i].tag == Some(r[k].tag))
  {
    hide IsFreeTag, TagFor, TargetKeys, NewKeys, Wanted, AccountsOf;
    if rows[i].providerUuid == source {
      var k := RelabelOfRow(rows, source, r, i);
      var j := AccountsComeFromRows(rows, source, k);
      assert j == i;
    }
  }

  // ---------------------------------------------------------------- every run

  datatype Command =
    | CreateProvider(uuid: string, provider: Provider, accountUuid: string, tag: Option<string>, data: string)
    | UpdateProvider(uuid: string, dto: IdentityEdit)
    | AddAccount(uuid: string, accountUuid: string, newTag: string, data: string)
    | EditAccount(accountUuid: string, edit: Option<Option<string>>)
    | RemoveAccount(accountUuid: string)
    | RemoveProvider(uuid: string)
    | MergeProviders(source: string, target: string)

  /** Both tables. */
  datatype Stored = Stored(providers: map<string, Provider>, accounts: seq<Row>)

  /** What one request makes of the tables; a refused one leaves them as they are. */
  ghost function Step(s: Stored, c: Command): Stored {
    match c
    case CreateProvider(uuid, provider, accountUuid, tag, data) =>
      if uuid in s.providers || IndexOf(s.accounts, accountUuid) < |s.accounts| then s
      else Stored(s.providers[uuid := provider], s.accounts + [Row(accountUuid, uuid, tag, data)])
    case UpdateProvider(uuid, dto) =>
      if uuid in s.providers then s.(providers := s.providers[uuid := Edited(s.providers[uuid], dto)]) else s
    case AddAccount(uuid, accountUuid, tag, data) =>
      if uuid !in s.providers || IndexOf(s.accounts, accountUuid) < |s.accounts|
         || LabelTaken(AccountsOf(s.accounts, uuid), Some(tag), None) then s
      else s.(accounts := s.accounts + [Row(accountUuid, uuid, Some(tag), data)])
    case EditAccount(accountUuid, edit) =>
      var i := IndexOf(s.accounts, accountUuid);
      if i == |s.accounts| || edit.None?
         || (edit.value != s.accounts[i].tag
             && LabelTaken(AccountsOf(s.accounts, s.accounts[i].providerUuid), edit.value, Some(accountUuid))) then s
      else s.(accounts := s.accounts[i := s.accounts[i].(tag := edit.value)])
    case RemoveAccount(accountUuid) =>
      var i := IndexOf(s.accounts, accountUuid);
      if i == |s.accounts| || CountOf(s.accounts, s.accounts[i].providerUuid) <= 1 then s
      else s.(accounts := s.accounts[..i] + s.accounts[i + 1..])
    case RemoveProvider(uuid) => Stored(s.providers - {uuid}, Without(s.accounts, uuid))
    case MergeProviders(source, target) =>
      if source !in s.providers || target !in s.providers || source == target
         || s.providers[source].kind != s.providers[target].kind then s
      else Merged(s, source, target)
  }

  /** A merge under the labels the source's accounts get; there is one such list. */
  ghost function Merged(s: Stored, source: string, target: string): Stored
    requires source in s.providers && target in s.providers
  {
    var name, moving, staying := s.providers[source].name, AccountsOf(s.accounts, source),
        AccountsOf(s.accounts, target);
    if r: seq<Relabel> :| IsMergeOf(name, moving, staying, r)
    then Stored(MergedProviders(s.providers, source, target), MergedRows(s.accounts, source, target, r))
    else s
  }

  lemma {:induction false} MergedIs(s: Stored, source: string, target: string, accounts: seq<Row>)
    requires source in s.providers && target in s.providers
    requires exists r ::
      && IsMergeOf(s.providers[source].name, AccountsOf(s.accounts, source), AccountsOf(s.accounts, target), r)
      && accounts == MergedRows(s.accounts, source, target, r)
    ensures Merged(s, source, target) == Stored(MergedProviders(s.providers, source, target), accounts)
  {
    hide IsMergeOf, MergedRows, MergedProviders;
    var name, moving, staying := s.providers[source].name, AccountsOf(s.accounts, source),
                                 AccountsOf(s.accounts, target);
    var r :| IsMergeOf(name, moving, staying, r) && accounts == MergedRows(s.accounts, source, target, r);
    forall q | IsMergeOf(name, moving, staying, q) ensures q == r {
      SameMerge(name, moving, staying, q, r);
    }
  }

  lemma SameMerge(name: string, moving: seq<Account>, staying: seq<Account>, q: seq<Relabel>, r: seq<Relabel>)
    requires IsMergeOf(name, moving, staying, q) && IsMergeOf(name, moving, staying, r)
    ensures q == r
  {
    MergeIsDetermined(name, moving, staying, q, r, |moving|);
    assert q[..|moving|] == q && r[..|moving|] == r;
  }

  ghost function Run(s: Stored, commands: seq<Command>): Stored {
    if commands == [] then s else Step(Run(s, commands[..|commands| - 1]), commands[|commands| - 1])
  }

  /**
   * Any sequence of requests keeps the invariant and ends in the tables the requests lead to.
   */
  method Replay(commands: seq<Command>) returns (store: ProviderStore)
    ensures fresh(store) && store.Valid()
    ensures Stored(store.providers, store.accounts) == Run(Stored(map[], []), commands)
  {
    hide Inv, Step;
    store := new ProviderStore();
    for k := 0 to |commands|
      invariant store.Valid()
      invariant Stored(store.providers, store.accounts) == Run(Stored(map[], []), commands[..k])
    {
      assert commands[..k + 1][..k] == commands[..k];
      store.Perform(commands[k]);
    }
    assert commands[..|commands|] == commands;
  }

  /** An account with its credentials, wherever it belongs and whatever it is called. */
  function Credentials(rows: seq<Row>): seq<(string, string)> {
    seq(|rows|, i requires 0 <= i < |rows| => (rows[i].uuid, rows[i].data))
  }

  /** Without removals no account is ever lost: edits and merges keep all of them, in their order. */
  lemma {:induction false} AccountsOutliveMerges(s: Stored, commands: seq<Command>)
    requires forall c :: c in commands ==> !c.RemoveAccount? && !c.RemoveProvider?
    ensures Credentials(s.accounts) <= Credentials(Run(s, commands).accounts)
  {
    if commands != [] {
      var n := |commands| - 1;
      AccountsOutliveMerges(s, commands[..n]);
      assert commands[n] in commands;
      StepKeepsAccounts(Run(s, commands[..n]), commands[n]);
    }
  }

  lemma StepKeepsAccounts(s: Stored, c: Command)
    requires !c.RemoveAccount? && !c.RemoveProvider?
    ensures Credentials(s.accounts) <= Credentials(Step(s, c).accounts)
  {
    hide LabelTaken, AccountsOf, CountOf, Without, IsMergeOf, TagFor;
  }
}
