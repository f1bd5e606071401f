/**
 * The application state held by the root component (App.tsx): the
 * transaction ledger, the budget groups, the transaction being edited and
 * the screen on view. The list updaters that the state setters receive are
 * pure functions here; the handlers are methods of the Ledger class.
 */
module Ledger {
  import opened Types

  predicate HasId(s: seq<Transaction>, id: string) {
    exists i :: 0 <= i < |s| && s[i].id == id
  }

  /** No two transactions share an id. */
  predicate UniqueIds(s: seq<Transaction>) {
    forall i, j :: 0 <= i < j < |s| ==> s[i].id != s[j].id
  }

  function TxId(t: Transaction): string { t.id }

  function GroupId(g: Group): string { g.id }

  /** `prev.map(y => y.id === x.id ? x : y)`, the updater of both
      handleSaveTransaction (for a known id) and handleUpdateGroup. */
  function ReplaceById<T>(s: seq<T>, x: T, id: T -> string): (r: seq<T>)
    ensures |r| == |s|
    ensures forall i :: 0 <= i < |s| ==> r[i] == (if id(s[i]) == id(x) then x else s[i])
  {
    if s == [] then []
    else
      var last := s[|s| - 1];
      ReplaceById(s[..|s| - 1], x, id) + [if id(last) == id(x) then x else last]
  }

  /** Replacing by an id that nothing in the list has leaves the list as it is. */
  lemma {:induction false} ReplaceByIdMissing<T>(s: seq<T>, x: T, id: T -> string)
    requires forall i :: 0 <= i < |s| ==> id(s[i]) != id(x)
    ensures ReplaceById(s, x, id) == s
  {
    if s != [] {
      ReplaceByIdMissing(s[..|s| - 1], x, id);
      assert s == s[..|s| - 1] + [s[|s| - 1]];
    }
  }

  /** The updater of handleSaveTransaction: replace every record with the
      saved record's id in place, or put the saved record in front. */
  function Upsert(s: seq<Transaction>, x: Transaction): (r: seq<Transaction>)
    ensures x in r
    ensures !HasId(s, x.id) ==> r == [x] + s
    ensures HasId(s, x.id) ==>
      (|r| == |s| && forall i :: 0 <= i < |s| ==> r[i] == (if s[i].id == x.id then x else s[i]))
  {
    if HasId(s, x.id) then ReplaceById(s, x, TxId) else [x] + s
  }

  /** Saving the same record twice changes nothing the second time. */
  lemma UpsertIdempotent(s: seq<Transaction>, x: Transaction)
    ensures Upsert(Upsert(s, x), x) == Upsert(s, x)
  {
    var r := Upsert(s, x);
    assert x in r;
    var k :| 0 <= k < |r| && r[k] == x;
    assert HasId(r, x.id);
    if HasId(s, x.id) {
      ReplaceIdempotent(s, x);
    } else {
      ReplaceInFront(s, x);
    }
  }

  /** Replacing twice is replacing once. */
  lemma ReplaceIdempotent(s: seq<Transaction>, x: Transaction)
    ensures ReplaceById(ReplaceById(s, x, TxId), x, TxId) == ReplaceById(s, x, TxId)
  {
    var r := ReplaceById(s, x, TxId);
    var q := ReplaceById(r, x, TxId);
    assert forall i :: 0 <= i < |r| ==> q[i] == r[i];
  }

  /** Replacing a record just put in front of a list without its id
      changes nothing. */
  lemma ReplaceInFront(s: seq<Transaction>, x: Transaction)
    requires !HasId(s, x.id)
    ensures ReplaceById([x] + s, x, TxId) == [x] + s
  {
    var r := [x] + s;
    var q := ReplaceById(r, x, TxId);
    forall i | 0 < i < |r| ensures q[i] == r[i] {
      assert r[i] == s[i - 1];
    }
  }

  /** The ledger keeps ids unique across saves. */
  lemma UpsertKeepsIdsUnique(s: seq<Transaction>, x: Transaction)
    requires UniqueIds(s)
    ensures UniqueIds(Upsert(s, x))
  {
    var r := Upsert(s, x);
    if !HasId(s, x.id) {
      forall i, j | 0 <= i < j < |r| ensures r[i].id != r[j].id {
        if i == 0 {
          assert r[j] == s[j - 1];
        } else {
          assert r[i] == s[i - 1] && r[j] == s[j - 1];
        }
      }
    }
  }

  /** The root component's state. */
  class Ledger {
    var transactions: seq<Transaction>
    var groups: seq<Group>
    var editing: Option<Transaction>
    var view: View

    /** The initial state: the given records (the seed data, or what was
        loaded from storage), on the dashboard, editing nothing. */
    constructor (transactions: seq<Transaction>, groups: seq<Group>)
      ensures this.transactions == transactions && this.groups == groups
      ensures editing == None && view == DashboardView
    {
      this.transactions := transactions;
      this.groups := groups;
      editing := None;
      view := DashboardView;
    }

    /** handleSaveTransaction. */
    method SaveTransaction(x: Transaction)
      modifies this
      ensures transactions == Upsert(old(transactions), x)
      ensures groups == old(groups)
      ensures editing == None && view == DashboardView
      ensures UniqueIds(old(transactions)) ==> UniqueIds(transactions)
    {
      if UniqueIds(transactions) {
        UpsertKeepsIdsUnique(transactions, x);
      }
      transactions := Upsert(transactions, x);
      editing := None;
      view := DashboardView;
    }

    /** handleAddGroup: appended at the end, with no check for a duplicate id. */
    method AddGroup(g: Group)
      modifies this`groups
      ensures groups == old(groups) + [g]
    {
      groups := groups + [g];
    }

    /** handleUpdateGroup. */
    method UpdateGroup(g: Group)
      modifies this`groups
      ensures groups == ReplaceById(old(groups), g, GroupId)
    {
      groups := ReplaceById(groups, g, GroupId);
    }

    /** handleEditRequest: open the entry form on an existing record; only
        the report lists records with an edit button. */
    method EditRequest(t: Transaction)
      requires view == ReportView
      modifies this`editing, this`view
      ensures editing == Some(t) && view == AddView
    {
      editing := Some(t);
      view := AddView;
    }

    /** The entry form's cancel button: back to the dashboard, editing nothing. */
    method CancelEdit()
      modifies this`editing, this`view
      ensures editing == None && view == DashboardView
    {
      editing := None;
      view := DashboardView;
    }

    /** The central add button and the report's scan button: an empty entry
        form, reached from the navigation bar or the report. */
    method StartNewEntry()
      requires view != AddView
      modifies this`editing, this`view
      ensures editing == None && view == AddView
    {
      editing := None;
      view := AddView;
    }

    /** The other buttons of the navigation bar, which is hidden on the
        entry form, only switch to the dashboard, the groups or the report. */
    method Navigate(v: View)
      requires view != AddView
      requires v == DashboardView || v == GroupsView || v == ReportView
      modifies this`view
      ensures view == v
    {
      view := v;
    }
  }
}
