/**
 * The figures the dashboard derives from the ledger (components/Dashboard.tsx):
 * totals and balance, each group's expense spend and its ratio to the
 * budget, the budget alerts, the groups with spend, the progress bar and the
 * five most recent transactions. GroupManager and Report reuse these.
 */
module Dashboard {
  import opened Types
  import opened Seqs
  import Ledger

  function TotalExpense(s: seq<Transaction>): real {
    SumOf(Filter(s, IsExpense), Amount)
  }

  function TotalIncome(s: seq<Transaction>): real {
    SumOf(Filter(s, IsIncome), Amount)
  }

  function Balance(s: seq<Transaction>): real {
    TotalIncome(s) - TotalExpense(s)
  }

  /** An amount with the sign its type gives it. */
  function Signed(t: Transaction): real {
    if t.kind == Income then t.amount else -t.amount
  }

  /** The type is binary, so income and expense together account for every
      amount. */
  lemma TotalsPartitionAmounts(s: seq<Transaction>)
    ensures TotalIncome(s) + TotalExpense(s) == SumOf(s, Amount)
  {
    SumOfPartition(s, IsIncome, IsExpense, Amount);
  }

  /** The balance is the signed sum of the ledger. */
  lemma {:induction false} BalanceIsSignedSum(s: seq<Transaction>)
    ensures Balance(s) == SumOf(s, Signed)
  {
    if s != [] {
      var s', t := s[..|s| - 1], s[|s| - 1];
      BalanceIsSignedSum(s');
      assert s == s' + [t];
      BalanceConcat(s', [t]);
      BalanceSingle(t);
    }
  }

  lemma BalanceConcat(a: seq<Transaction>, b: seq<Transaction>)
    ensures Balance(a + b) == Balance(a) + Balance(b)
  {
    FilterConcat(a, b, IsIncome);
    FilterConcat(a, b, IsExpense);
    SumOfConcat(Filter(a, IsIncome), Filter(b, IsIncome), Amount);
    SumOfConcat(Filter(a, IsExpense), Filter(b, IsExpense), Amount);
  }

  lemma BalanceSingle(t: Transaction)
    ensures Balance([t]) == Signed(t)
  {
    assert [t][..0] == [];
  }

  /** `t => t.groupId === gid && t.type === 'expense'`. */
  function SpentIn(gid: string): Transaction -> bool {
    (t: Transaction) => t.groupId == Some(gid) && t.kind == Expense
  }

  /** Expense records booked against group `gid`: what one group has spent. */
  function GroupSpend(s: seq<Transaction>, gid: string): real {
    SumOf(Filter(s, SpentIn(gid)), Amount)
  }

  /** What one record adds to a group's spend. */
  function Contribution(t: Transaction, gid: string): real {
    if t.groupId == Some(gid) && t.kind == Expense then t.amount else 0.0
  }

  /** `t => Contribution(t, gid)`. */
  function ContributionTo(gid: string): Transaction -> real {
    (t: Transaction) => Contribution(t, gid)
  }

  /** A group's spend is what every record of the ledger contributes to it:
      expense records booked against it their amount, all others nothing. */
  lemma {:induction false} GroupSpendIsContributions(s: seq<Transaction>, gid: string)
    ensures GroupSpend(s, gid) == SumOf(s, ContributionTo(gid))
  {
    if s != [] {
      var s', t := s[..|s| - 1], s[|s| - 1];
      GroupSpendIsContributions(s', gid);
      assert s == s' + [t];
      GroupSpendConcat(s', [t], gid);
      GroupSpendSingle(t, gid);
    }
  }

  lemma {:induction false} GroupSpendConcat(a: seq<Transaction>, b: seq<Transaction>, gid: string)
    ensures GroupSpend(a + b, gid) == GroupSpend(a, gid) + GroupSpend(b, gid)
  {
    var p := SpentIn(gid);
    FilterConcat(a, b, p);
    SumOfConcat(Filter(a, p), Filter(b, p), Amount);
  }

  lemma GroupSpendSingle(t: Transaction, gid: string)
    ensures GroupSpend([t], gid) == Contribution(t, gid)
  {
    assert [t][..0] == [];
    assert SpentIn(gid)(t) == (t.groupId == Some(gid) && t.kind == Expense);
    assert Filter([t], SpentIn(gid)) == if SpentIn(gid)(t) then [t] else [];
    assert SumOf([t], Amount) == t.amount;
  }

  /** Income booked against a group never counts towards its spend. */
  lemma {:induction false} GroupSpendIgnoresIncome(s: seq<Transaction>, gid: string)
    ensures GroupSpend(s, gid) == GroupSpend(Filter(s, IsExpense), gid)
  {
    if s != [] {
      var s', t := s[..|s| - 1], s[|s| - 1];
      var e' := Filter(s', IsExpense);
      GroupSpendIgnoresIncome(s', gid);
      assert s == s' + [t];
      GroupSpendConcat(s', [t], gid);
      GroupSpendSingle(t, gid);
      FilterSnoc(s', t, IsExpense);
      if IsExpense(t) {
        GroupSpendConcat(e', [t], gid);
        assert GroupSpend(Filter(s, IsExpense), gid) == GroupSpend(e', gid) + Contribution(t, gid);
      } else {
        assert Contribution(t, gid) == 0.0;
        assert GroupSpend(Filter(s, IsExpense), gid) == GroupSpend(e', gid);
      }
    }
  }

  /** With non-negative amounts a group never spends more than all expenses. */
  lemma {:induction false} GroupSpendBounded(s: seq<Transaction>, gid: string)
    requires forall t :: t in s ==> t.amount >= 0.0
    ensures 0.0 <= GroupSpend(s, gid) <= TotalExpense(s)
  {
    if s != [] {
      var s', t := s[..|s| - 1], s[|s| - 1];
      assert s == s' + [t];
      GroupSpendBounded(s', gid);
      GroupSpendConcat(s', [t], gid);
      GroupSpendSingle(t, gid);
      FilterConcat(s', [t], IsExpense);
      SumOfConcat(Filter(s', IsExpense), Filter([t], IsExpense), Amount);
      assert [t][..0] == [];
    }
  }

  /** Saving a new record raises each group's spend by exactly what that
      record contributes. */
  lemma SaveNewRaisesGroupSpend(s: seq<Transaction>, t: Transaction, gid: string)
    requires !Ledger.HasId(s, t.id)
    ensures GroupSpend(Ledger.Upsert(s, t), gid) == GroupSpend(s, gid) + Contribution(t, gid)
  {
    GroupSpendConcat([t], s, gid);
    GroupSpendSingle(t, gid);
  }

  /** Replacing the one record with a given id swaps its contribution to a
      sum for that of the new record. */
  lemma {:induction false} ReplaceSwapsSignedSum(s: seq<Transaction>, t: Transaction, k: nat)
    requires Ledger.UniqueIds(s) && k < |s| && s[k].id == t.id
    ensures SumOf(Ledger.ReplaceById(s, t, Ledger.TxId), Signed) == SumOf(s, Signed) - Signed(s[k]) + Signed(t)
  {
    var s', last := s[..|s| - 1], s[|s| - 1];
    if k == |s| - 1 {
      ReplaceLastSignedSum(s, t);
    } else {
      ReplaceSwapsSignedSum(s', t, k);
      assert last.id != t.id;
      assert Ledger.ReplaceById(s, t, Ledger.TxId) == Ledger.ReplaceById(s', t, Ledger.TxId) + [last];
    }
  }

  /** The case where the replaced record is the last one. */
  lemma ReplaceLastSignedSum(s: seq<Transaction>, t: Transaction)
    requires Ledger.UniqueIds(s) && s != [] && s[|s| - 1].id == t.id
    ensures SumOf(Ledger.ReplaceById(s, t, Ledger.TxId), Signed) == SumOf(s, Signed) - Signed(s[|s| - 1]) + Signed(t)
  {
    var s' := s[..|s| - 1];
    assert forall i :: 0 <= i < |s'| ==> Ledger.TxId(s'[i]) != Ledger.TxId(t);
    Ledger.ReplaceByIdMissing(s', t, Ledger.TxId);
    var r := Ledger.ReplaceById(s, t, Ledger.TxId);
    assert r[..|r| - 1] == s' && r[|r| - 1] == t;
  }

  /** The balance after a save: a new record adds its signed amount, an
      edited record replaces the old one's. */
  lemma BalanceAfterSave(s: seq<Transaction>, t: Transaction)
    requires Ledger.UniqueIds(s)
    ensures !Ledger.HasId(s, t.id) ==> Balance(Ledger.Upsert(s, t)) == Balance(s) + Signed(t)
    ensures forall k :: 0 <= k < |s| && s[k].id == t.id ==>
      Balance(Ledger.Upsert(s, t)) == Balance(s) - Signed(s[k]) + Signed(t)
  {
    var r := Ledger.Upsert(s, t);
    BalanceIsSignedSum(s);
    BalanceIsSignedSum(r);
    if !Ledger.HasId(s, t.id) {
      SumOfConcat([t], s, Signed);
      assert [t][..0] == [];
    } else {
      forall k | 0 <= k < |s| && s[k].id == t.id
        ensures Balance(r) == Balance(s) - Signed(s[k]) + Signed(t)
      {
        ReplaceSwapsSignedSum(s, t, k);
      }
    }
  }

  /**
   * The quotient `x / y` of two JavaScript numbers, kept exact: a finite
   * real, or what IEEE division by zero gives (Infinity of the dividend's
   * sign, or NaN for 0 / 0).
   */
  datatype Quotient = Finite(value: real) | PosInf | NegInf | NaN

  function Divide(x: real, y: real): (q: Quotient)
    ensures y != 0.0 ==> q == Finite(x / y)
    ensures y == 0.0 ==> (q == PosInf <==> x > 0.0) && (q == NegInf <==> x < 0.0) && (q == NaN <==> x == 0.0)
  {
    if y != 0.0 then Finite(x / y)
    else if x > 0.0 then PosInf
    else if x < 0.0 then NegInf
    else NaN
  }

  /** `q >= k`: false whenever q is NaN. */
  predicate AtLeast(q: Quotient, k: real) {
    match q
    case Finite(v) => v >= k
    case PosInf => true
    case NegInf => false
    case NaN => false
  }

  /** `q > k`: false whenever q is NaN. */
  predicate Above(q: Quotient, k: real) {
    match q
    case Finite(v) => v > k
    case PosInf => true
    case NegInf => false
    case NaN => false
  }

  lemma QuotientAtLeast(x: real, y: real, k: real)
    requires k > 0.0
    ensures AtLeast(Divide(x, y), k)
        <==> (y > 0.0 && x >= k * y) || (y < 0.0 && x <= k * y) || (y == 0.0 && x > 0.0)
  {
    if y != 0.0 {
      var v := x / y;
      assert x == v * y;
      if y > 0.0 {
        assert v >= k <==> v * y >= k * y;
      } else {
        assert v >= k <==> v * y <= k * y;
      }
    }
  }

  lemma QuotientAbove(x: real, y: real, k: real)
    requires k > 0.0
    ensures Above(Divide(x, y), k)
        <==> (y > 0.0 && x > k * y) || (y < 0.0 && x < k * y) || (y == 0.0 && x > 0.0)
  {
    if y != 0.0 {
      var v := x / y;
      assert x == v * y;
      if y > 0.0 {
        assert v > k <==> v * y > k * y;
      } else {
        assert v > k <==> v * y < k * y;
      }
    }
  }

  /** A group with its spend and spend-to-budget ratio (`{ ...g, ratio, expense }`). */
  datatype Usage = Usage(group: Group, expense: real, ratio: Quotient)

  function UsageOf(s: seq<Transaction>, g: Group): (u: Usage)
    ensures u.group == g && u.expense == GroupSpend(s, g.id)
  {
    var spent := GroupSpend(s, g.id);
    Usage(g, spent, Divide(spent, g.budget))
  }

  /** `groups.map(g => usage of g)`. */
  function Usages(s: seq<Transaction>, gs: seq<Group>): (r: seq<Usage>)
    ensures |r| == |gs|
    ensures forall i :: 0 <= i < |gs| ==> r[i] == UsageOf(s, gs[i])
  {
    if gs == [] then [] else Usages(s, gs[..|gs| - 1]) + [UsageOf(s, gs[|gs| - 1])]
  }

  lemma {:induction false} UsagesConcat(s: seq<Transaction>, a: seq<Group>, b: seq<Group>)
    ensures Usages(s, a + b) == Usages(s, a) + Usages(s, b)
  {
  }

  /** The alert threshold: 80 % of the budget. */
  const WarningRatio: real := 0.8

  /** The "exceeded" threshold: the whole budget. */
  const ExceededRatio: real := 1.0

  predicate IsAlerted(u: Usage) {
    AtLeast(u.ratio, WarningRatio)
  }

  /** The budget alerts: groups whose ratio is at least 0.8, in group order. */
  function Alerts(s: seq<Transaction>, gs: seq<Group>): (r: seq<Usage>)
    ensures forall u :: u in r <==> u in Usages(s, gs) && IsAlerted(u)
  {
    Filter(Usages(s, gs), IsAlerted)
  }

  /** A group is alerted exactly when it has spent at least 80 % of its
      budget; a zero budget alerts as soon as anything is spent, and never
      when nothing is (0 / 0 is NaN). */
  lemma AlertsExact(s: seq<Transaction>, gs: seq<Group>, g: Group)
    requires g in gs
    ensures UsageOf(s, g) in Alerts(s, gs)
        <==> var spent := GroupSpend(s, g.id);
             (g.budget > 0.0 && 5.0 * spent >= 4.0 * g.budget)
             || (g.budget < 0.0 && 5.0 * spent <= 4.0 * g.budget)
             || (g.budget == 0.0 && spent > 0.0)
  {
    var i :| 0 <= i < |gs| && gs[i] == g;
    assert Usages(s, gs)[i] == UsageOf(s, g);
    QuotientAtLeast(GroupSpend(s, g.id), g.budget, WarningRatio);
  }

  /** Alerts keep group order: the alerts of a split list are the alerts of
      its parts, in order. */
  lemma AlertsKeepGroupOrder(s: seq<Transaction>, a: seq<Group>, b: seq<Group>)
    ensures Alerts(s, a + b) == Alerts(s, a) + Alerts(s, b)
  {
    UsagesConcat(s, a, b);
    FilterConcat(Usages(s, a), Usages(s, b), IsAlerted);
  }

  datatype AlertLevel = Warning | Exceeded

  /** How an alert is shown: exceeded when the ratio reaches 1, otherwise
      a warning. */
  function LevelOf(u: Usage): (l: AlertLevel)
    ensures l == Exceeded <==> AtLeast(u.ratio, ExceededRatio)
  {
    if AtLeast(u.ratio, ExceededRatio) then Exceeded else Warning
  }

  /** An exceeded group always is an alerted one. */
  lemma ExceededIsAlerted(u: Usage)
    requires LevelOf(u) == Exceeded
    ensures IsAlerted(u)
  {
  }

  /** A group whose budget is positive shows "exceeded" exactly when its
      spend reaches the budget. */
  lemma ExceededExact(s: seq<Transaction>, g: Group)
    requires g.budget > 0.0
    ensures LevelOf(UsageOf(s, g)) == Exceeded <==> GroupSpend(s, g.id) >= g.budget
  {
    QuotientAtLeast(GroupSpend(s, g.id), g.budget, ExceededRatio);
  }

  /** A group with a 15000 budget that has spent 12500 gets a warning; one
      more expense of 3000 booked against it turns that into "exceeded". */
  lemma WarningThenExceeded(s: seq<Transaction>, g: Group, t: Transaction)
    requires g.budget == 15000.0 && GroupSpend(s, g.id) == 12500.0
    requires !Ledger.HasId(s, t.id) && t.kind == Expense && t.groupId == Some(g.id) && t.amount == 3000.0
    ensures IsAlerted(UsageOf(s, g)) && LevelOf(UsageOf(s, g)) == Warning
    ensures var after := UsageOf(Ledger.Upsert(s, t), g);
            IsAlerted(after) && LevelOf(after) == Exceeded
  {
    SaveNewRaisesGroupSpend(s, t, g.id);
  }

  predicate HasSpend(u: Usage) {
    u.expense > 0.0
  }

  /** groupExpenses: the groups with strictly positive spend, in group order. */
  function GroupExpenses(s: seq<Transaction>, gs: seq<Group>): (r: seq<Usage>)
    ensures forall u :: u in r <==> u in Usages(s, gs) && u.expense > 0.0
  {
    Filter(Usages(s, gs), HasSpend)
  }

  lemma GroupExpensesExact(s: seq<Transaction>, gs: seq<Group>, g: Group)
    requires g in gs
    ensures UsageOf(s, g) in GroupExpenses(s, gs) <==> GroupSpend(s, g.id) > 0.0
  {
    var i :| 0 <= i < |gs| && gs[i] == g;
    assert Usages(s, gs)[i] == UsageOf(s, g);
  }

  lemma GroupExpensesKeepGroupOrder(s: seq<Transaction>, a: seq<Group>, b: seq<Group>)
    ensures GroupExpenses(s, a + b) == GroupExpenses(s, a) + GroupExpenses(s, b)
  {
    UsagesConcat(s, a, b);
    FilterConcat(Usages(s, a), Usages(s, b), HasSpend);
  }

  /** `Math.min(q * 100, 100)`: a percentage capped at 100; NaN stays NaN. */
  function Percent(spent: real, budget: real): (p: Quotient)
    ensures !Above(p, 100.0) && p != PosInf
  {
    match Divide(spent, budget)
    case Finite(v) => Finite(if v * 100.0 <= 100.0 then v * 100.0 else 100.0)
    case PosInf => Finite(100.0)
    case NegInf => NegInf
    case NaN => NaN
  }

  datatype BarColour = Normal | Yellow | Red

  /** The dashboard's progress bar: red from 100 %, yellow from 80 %. */
  function BarColourOf(p: Quotient): BarColour {
    if AtLeast(p, 100.0) then Red else if AtLeast(p, 80.0) then Yellow else Normal
  }

  /** The bar colour agrees with the alert shown for the same group: red
      exactly for "exceeded", yellow exactly for "warning". */
  lemma BarColourMatchesAlert(s: seq<Transaction>, g: Group)
    ensures var u := UsageOf(s, g);
            var c := BarColourOf(Percent(u.expense, g.budget));
            (c == Red <==> IsAlerted(u) && LevelOf(u) == Exceeded)
            && (c == Yellow <==> IsAlerted(u) && LevelOf(u) == Warning)
            && (c == Normal <==> !IsAlerted(u))
  {
    var u := UsageOf(s, g);
    match u.ratio
    case Finite(v) =>
      assert v * 100.0 >= 100.0 <==> v >= 1.0;
      assert v * 100.0 >= 80.0 <==> v >= 0.8;
    case _ =>
  }

  /** The newest-first sort key: `new Date(b.date) - new Date(a.date)`. */
  function NewestFirst(t: Transaction): int {
    -DateOrd(t.date)
  }

  predicate NewestFirstOrder(s: seq<Transaction>) {
    forall i, j :: 0 <= i < j < |s| ==> DateOrd(s[j].date) <= DateOrd(s[i].date)
  }

  /** recentTransactions: a sorted copy, cut to five. */
  function Recent(s: seq<Transaction>): seq<Transaction> {
    var sorted := SortByKey(s, NewestFirst);
    sorted[..if |sorted| < 5 then |sorted| else 5]
  }

  /** At most five records, newest first, all taken from the ledger. */
  lemma RecentIsNewestFirst(s: seq<Transaction>)
    ensures |Recent(s)| == if |s| < 5 then |s| else 5
    ensures NewestFirstOrder(Recent(s))
    ensures multiset(Recent(s)) <= multiset(s)
  {
    var sorted := SortByKey(s, NewestFirst);
    var m := if |sorted| < 5 then |sorted| else 5;
    var r := Recent(s);
    SortByKeySorted(s, NewestFirst);
    SortByKeyPermutes(s, NewestFirst);
    forall i, j | 0 <= i < j < |r| ensures DateOrd(r[j].date) <= DateOrd(r[i].date) {
      assert NewestFirst(sorted[i]) <= NewestFirst(sorted[j]);
    }
    assert sorted == r + sorted[m..];
    assert multiset(sorted) == multiset(r) + multiset(sorted[m..]);
  }

  /** No record left out of the five is newer than one that is shown. */
  lemma RecentLeavesOutOnlyOlder(s: seq<Transaction>, t: Transaction, i: nat)
    requires t in multiset(s) - multiset(Recent(s)) && i < |Recent(s)|
    ensures DateOrd(t.date) <= DateOrd(Recent(s)[i].date)
  {
    var sorted := SortByKey(s, NewestFirst);
    var m := if |sorted| < 5 then |sorted| else 5;
    SortByKeySorted(s, NewestFirst);
    SortByKeyPermutes(s, NewestFirst);
    SortedPrefixComesFirst(sorted, NewestFirst, m, t, i);
  }
}
