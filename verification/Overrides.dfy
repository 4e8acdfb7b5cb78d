/**
 * A column two writers share: the owner edits it, the provider sync proposes values. Used for the
 * name, the type and the price of a service (apps/backend/src/services/services.service.ts,
 * apps/backend/src/sync/sync.service.ts).
 */
module Overrides {
  import opened Prelude

  /** The stored value, the override flag, and the provider's last proposal if one is stored. */
  datatype Tracked<T(==)> = Tracked(value: T, overridden: bool, baseline: Option<T>)

  /** What an edit compares with: the stored proposal, else the value itself while not overridden. */
  function BaselineOf<T>(t: Tracked<T>): Option<T> {
    if t.baseline.Some? then t.baseline else if !t.overridden then Some(t.value) else None
  }

  /** An owner edit; None when the form leaves the column alone. */
  function Edit<T>(t: Tracked<T>, v: Option<T>): Tracked<T> {
    if v.None? then t
    else
      var b := BaselineOf(t);
      Tracked(v.value, if b.Some? then v.value != b.value else true, b)
  }

  /** A sync; None when the provider proposes nothing. */
  function Sync<T>(t: Tracked<T>, v: Option<T>): Tracked<T> {
    Tracked(if !t.overridden && v.Some? then v.value else t.value, t.overridden, v)
  }

  function Created<T>(v: Option<T>, default: T): Tracked<T> {
    Tracked(if v.Some? then v.value else default, false, v)
  }

  /** A value that is not overridden is the provider's stored proposal. */
  predicate Agrees<T>(t: Tracked<T>) {
    !t.overridden && t.baseline.Some? ==> t.value == t.baseline.value
  }

  datatype Event<T> = OwnerEdit(v: Option<T>) | Synced(v: Option<T>)

  function Step<T>(t: Tracked<T>, e: Event<T>): Tracked<T> {
    match e
    case OwnerEdit(v) => Edit(t, v)
    case Synced(v) => Sync(t, v)
  }

  function Run<T>(t: Tracked<T>, events: seq<Event<T>>): Tracked<T> {
    if events == [] then t else Step(Run(t, events[..|events| - 1]), events[|events| - 1])
  }

  /** The invariant over every interleaving of edits and syncs. */
  lemma {:induction false} AgreesAlways<T>(t: Tracked<T>, events: seq<Event<T>>)
    requires Agrees(t)
    ensures Agrees(Run(t, events))
  {
    if events != [] {
      AgreesAlways(t, events[..|events| - 1]);
    }
  }

  /** No run of syncs changes an overridden value or clears its flag. */
  lemma {:induction false} OverrideSurvivesSyncs<T>(t: Tracked<T>, events: seq<Event<T>>)
    requires t.overridden && forall i :: 0 <= i < |events| ==> events[i].Synced?
    ensures Run(t, events).value == t.value && Run(t, events).overridden
  {
    if events != [] {
      OverrideSurvivesSyncs(t, events[..|events| - 1]);
    }
  }

  /** Setting a value back to the stored proposal hands the column back to the sync. */
  lemma RevertHandsBack<T>(t: Tracked<T>, next: T)
    requires t.baseline.Some?
    ensures !Edit(t, t.baseline).overridden
    ensures Sync(Edit(t, t.baseline), Some(next)) == Tracked(next, false, Some(next))
  {
  }

  // ---------------------------------------------------------------- the value as history

  /** The provider's latest proposal, `first` being the value the row was created with. */
  function LastProposal<T>(first: T, events: seq<Event<T>>): T {
    if events == [] then first
    else
      var e := events[|events| - 1];
      if e.Synced? && e.v.Some? then e.v.value else LastProposal(first, events[..|events| - 1])
  }

  /** One past the last edit that touched the column; 0 when none did. */
  function LastEdit<T>(events: seq<Event<T>>): (k: nat)
    ensures k <= |events| && (k > 0 ==> events[k - 1].OwnerEdit? && events[k - 1].v.Some?)
  {
    if events == [] then 0
    else
      var e := events[|events| - 1];
      if e.OwnerEdit? && e.v.Some? then |events| else LastEdit(events[..|events| - 1])
  }

  /** No edit after it touched the column, and before the first one none did. */
  lemma {:induction false} LastEditIs<T>(events: seq<Event<T>>)
    ensures forall j :: LastEdit(events) <= j < |events| ==> !(events[j].OwnerEdit? && events[j].v.Some?)
  {
    if events != [] {
      LastEditIs(events[..|events| - 1]);
    }
  }

  /** The value some sync proposed and no later one replaced, or the first one if none proposed any. */
  lemma {:induction false} LastProposalIs<T>(first: T, events: seq<Event<T>>)
    ensures || (LastProposal(first, events) == first
                && forall j :: 0 <= j < |events| ==> !(events[j].Synced? && events[j].v.Some?))
            || (exists i :: && 0 <= i < |events| && events[i] == Synced(Some(LastProposal(first, events)))
                            && forall j :: i < j < |events| ==> !(events[j].Synced? && events[j].v.Some?))
  {
    if events != [] {
      var n := |events| - 1;
      LastProposalIs(first, events[..n]);
      assert forall i :: 0 <= i < n ==> events[..n][i] == events[i];
      if !(events[n].Synced? && events[n].v.Some?) {
        if i :| 0 <= i < n && events[..n][i] == Synced(Some(LastProposal(first, events)))
                && forall j :: i < j < n ==> !(events[..n][j].Synced? && events[..n][j].v.Some?) {
          assert events[i] == Synced(Some(LastProposal(first, events)));
        }
      }
    }
  }

  /**
   * The owner's last edit stands: it differed from what the provider had proposed last, or there
   * was nothing stored to compare it with.
   */
  predicate EditStands<T(==)>(first: T, events: seq<Event<T>>)
    decreases |events|, 1
  {
    var k := LastEdit(events);
    k > 0 && (events[k - 1].v.value != LastProposal(first, events[..k - 1]) || Blind(first, events[..k - 1]))
  }

  /** The provider's latest sync proposed nothing while an edit stood: no proposal is stored any more. */
  predicate Blind<T(==)>(first: T, events: seq<Event<T>>)
    decreases |events|, 0
  {
    if events == [] then false
    else
      var before, e := events[..|events| - 1], events[|events| - 1];
      if e.OwnerEdit? then Blind(first, before)
      else e.v.None? && EditStands(first, before)
  }

  /**
   * The whole history in one line, also with syncs that propose nothing: the owner's last edit if
   * it stands, otherwise the provider's latest proposal; the flag says which, and a proposal that
   * is stored is the latest one. None is stored under a standing edit exactly when syncs fell silent.
   */
  lemma {:induction false} ValueFromHistory<T>(v: Option<T>, default: T, events: seq<Event<T>>)
    ensures var t, first := Run(Created(v, default), events), if v.Some? then v.value else default;
            && t.overridden == EditStands(first, events)
            && t.value == (if t.overridden then events[LastEdit(events) - 1].v.value else LastProposal(first, events))
            && (t.baseline.Some? ==> t.baseline.value == LastProposal(first, events))
            && (t.overridden ==> (t.baseline.None? <==> Blind(first, events)))
            && (Blind(first, events) ==> t.overridden)
  {
    if events != [] {
      var n, k := |events| - 1, LastEdit(events);
      ValueFromHistory(v, default, events[..n]);
      if 0 < k <= n {
        assert events[..n][..k - 1] == events[..k - 1];
      }
    }
  }

  /**
   * A provider that always proposes a value never falls silent: its latest proposal is stored, and
   * the owner's last edit stands if it differed from the proposal of that moment.
   */
  lemma {:induction false} AlwaysProposing<T>(first: T, default: T, events: seq<Event<T>>)
    requires forall i :: 0 <= i < |events| ==> events[i].Synced? ==> events[i].v.Some?
    ensures var t, k := Run(Created(Some(first), default), events), LastEdit(events);
            && t.baseline == Some(LastProposal(first, events)) && !Blind(first, events)
            && t.overridden == (k > 0 && events[k - 1].v.value != LastProposal(first, events[..k - 1]))
  {
    ValueFromHistory(Some(first), default, events);
    if events != [] {
      var n, k := |events| - 1, LastEdit(events);
      AlwaysProposing(first, default, events[..n]);
      if k > 0 {
        AlwaysProposing(first, default, events[..k - 1]);
      }
    }
  }

  /** Setting a value back to the provider's latest proposal clears the flag exactly unless syncs fell silent. */
  lemma {:induction false} RevertHandsBackIff<T>(v: Option<T>, default: T, events: seq<Event<T>>)
    ensures var t, first := Run(Created(v, default), events), if v.Some? then v.value else default;
            Edit(t, Some(LastProposal(first, events))).overridden <==> Blind(first, events)
  {
    ValueFromHistory(v, default, events);
  }
}
