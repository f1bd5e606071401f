/**
 * The group screen (components/GroupManager.tsx): each group's spend,
 * remaining budget and progress bar, and the form that creates a group.
 */
module GroupManager {
  import opened Types
  import opened Dashboard
  import Seqs
  import Ledger

  /** calculateSpent: the same figure the dashboard shows for a group. */
  function CalculateSpent(s: seq<Transaction>, gid: string): (r: real)
    ensures r == Seqs.SumOf(s, ContributionTo(gid))
  {
    GroupSpendIsContributions(s, gid);
    GroupSpend(s, gid)
  }

  /** `group.budget - spent`. */
  function Remaining(s: seq<Transaction>, g: Group): (r: real)
    ensures r + CalculateSpent(s, g.id) == g.budget
  {
    g.budget - CalculateSpent(s, g.id)
  }

  /** Saving a new expense against the group lowers what remains by its
      amount; any other new record leaves it as it was. */
  lemma RemainingAfterSave(s: seq<Transaction>, t: Transaction, g: Group)
    requires !Ledger.HasId(s, t.id)
    ensures Remaining(Ledger.Upsert(s, t), g)
         == Remaining(s, g) - (if t.groupId == Some(g.id) && t.kind == Expense then t.amount else 0.0)
  {
    SaveNewRaisesGroupSpend(s, t, g.id);
  }

  /** The bar turns red above 90 %. */
  predicate BarIsRed(s: seq<Transaction>, g: Group) {
    Above(Percent(CalculateSpent(s, g.id), g.budget), 90.0)
  }

  /** The bar is red exactly when more than 90 % of a positive budget is
      spent; a zero budget is red as soon as anything is spent. */
  lemma BarIsRedExact(s: seq<Transaction>, g: Group)
    ensures var spent := CalculateSpent(s, g.id);
      BarIsRed(s, g) <==>
        ((g.budget > 0.0 && 10.0 * spent > 9.0 * g.budget)
         || (g.budget < 0.0 && 10.0 * spent < 9.0 * g.budget)
         || (g.budget == 0.0 && spent > 0.0))
  {
    var spent := CalculateSpent(s, g.id);
    QuotientAbove(spent, g.budget, 0.9);
    match Divide(spent, g.budget)
    case Finite(v) =>
      assert v * 100.0 > 90.0 <==> v > 0.9;
    case _ =>
  }

  /** The icon a new group starts with. */
  const DefaultIcon: string := "\U{1F3E2}"

  /** The creation form's state. The budget text is kept as the number it
      parses to, None while the field is empty. */
  class GroupForm {
    var isAdding: bool
    var name: string
    var budget: Option<real>
    var icon: string

    constructor ()
      ensures !isAdding && name == "" && budget == None && icon == DefaultIcon
    {
      isAdding := false;
      name := "";
      budget := None;
      icon := DefaultIcon;
    }

    /** The "new group" button and the cancel button. */
    method SetAdding(adding: bool)
      modifies this`isAdding
      ensures isAdding == adding
    {
      isAdding := adding;
    }

    /** handleSubmit: an empty name or budget does nothing; otherwise the new
        group (one member, the chosen icon, the budget as typed, with no
        check that it is positive) is handed to onAddGroup and the form
        closes, clearing the name and budget but keeping the icon. */
    method Submit(freshId: string) returns (created: Option<Group>)
      modifies this
      ensures old(name) == "" || old(budget) == None ==>
        created == None && isAdding == old(isAdding) && name == old(name)
        && budget == old(budget) && icon == old(icon)
      ensures old(name) != "" && old(budget) != None ==>
        created == Some(Group(freshId, old(name), old(budget).value, 1, old(icon)))
        && !isAdding && name == "" && budget == None && icon == old(icon)
    {
      if name == "" || budget == None {
        return None;
      }
      created := Some(Group(freshId, name, budget.value, 1, icon));
      isAdding := false;
      name := "";
      budget := None;
    }
  }
}
