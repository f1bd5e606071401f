/**
 * The report screen (components/Report.tsx): the group and month filters,
 * the newest-first sort that runs in place on the filtered array, the
 * per-category expense breakdown and the daily income/expense series.
 * The CSV export is in module ReportCsv.
 */
module Report {
  import opened Types
  import opened Seqs
  import Dashboard

  datatype TimeFilter = AllTime | ThisMonth

  /** The test of a group filter other than 'all'. */
  function InGroup(fg: string): Transaction -> bool {
    (t: Transaction) => if fg == "personal" then t.ownership == Personal else t.groupId == Some(fg)
  }

  /** The group filter: 'all' keeps everything, 'personal' the personal
      records, any other value the records booked against that group id,
      whatever their ownership. */
  function GroupFilter(s: seq<Transaction>, fg: string): (r: seq<Transaction>)
    ensures fg == "all" ==> r == s
    ensures fg == "personal" ==> forall t :: t in r <==> t in s && t.ownership == Personal
    ensures fg != "all" && fg != "personal" ==> forall t :: t in r <==> t in s && t.groupId == Some(fg)
  {
    if fg == "all" then s else Filter(s, InGroup(fg))
  }

  function InMonth(year: int, month: int): Transaction -> bool {
    (t: Transaction) => t.date.year == year && t.date.month == month
  }

  /** The time filter: 'month' keeps the records dated in the current
      (year, month), given as parameters. */
  function MonthFilter(s: seq<Transaction>, ft: TimeFilter, year: int, month: int): (r: seq<Transaction>)
    ensures ft == AllTime ==> r == s
    ensures ft == ThisMonth ==>
      forall t :: t in r <==> t in s && t.date.year == year && t.date.month == month
  {
    if ft == AllTime then s else Filter(s, InMonth(year, month))
  }

  /** The records that pass both filters, in ledger order. */
  function Passing(s: seq<Transaction>, fg: string, ft: TimeFilter, year: int, month: int): seq<Transaction> {
    MonthFilter(GroupFilter(s, fg), ft, year, month)
  }

  /** filteredTransactions: the passing records, newest first. */
  function FilteredView(s: seq<Transaction>, fg: string, ft: TimeFilter, year: int, month: int): seq<Transaction> {
    SortByKey(Passing(s, fg, ft, year, month), Dashboard.NewestFirst)
  }

  /** The filtered view is a permutation of the passing records, is sorted
      newest first, and keeps ledger order among records of the same date. */
  lemma FilteredViewIsSortedPermutation(s: seq<Transaction>, fg: string, ft: TimeFilter, year: int, month: int, k: int)
    ensures multiset(FilteredView(s, fg, ft, year, month)) == multiset(Passing(s, fg, ft, year, month))
    ensures Dashboard.NewestFirstOrder(FilteredView(s, fg, ft, year, month))
    ensures WithKey(FilteredView(s, fg, ft, year, month), Dashboard.NewestFirst, k)
         == WithKey(Passing(s, fg, ft, year, month), Dashboard.NewestFirst, k)
  {
    var p := Passing(s, fg, ft, year, month);
    SortByKeyPermutes(p, Dashboard.NewestFirst);
    SortByKeySorted(p, Dashboard.NewestFirst);
    SortByKeyStable(p, Dashboard.NewestFirst, k);
    var r := FilteredView(s, fg, ft, year, month);
    forall i, j | 0 <= i < j < |r| ensures DateOrd(r[j].date) <= DateOrd(r[i].date) {
      assert Dashboard.NewestFirst(r[i]) <= Dashboard.NewestFirst(r[j]);
    }
  }

  /** A record is in the filtered view exactly when it is in the ledger and
      passes both filters. */
  lemma FilteredViewMembers(s: seq<Transaction>, fg: string, ft: TimeFilter, year: int, month: int, t: Transaction)
    ensures t in FilteredView(s, fg, ft, year, month)
        <==> t in s
             && (fg == "all" || InGroup(fg)(t))
             && (ft == AllTime || InMonth(year, month)(t))
  {
    var p := Passing(s, fg, ft, year, month);
    SortByKeyPermutes(p, Dashboard.NewestFirst);
    assert t in FilteredView(s, fg, ft, year, month) <==> t in multiset(p);
  }

  /**
   * `data.sort((a, b) => new Date(b.date) - new Date(a.date))`: a stable
   * sort in place, written as an insertion sort (every stable sort by the
   * same key gives the same order).
   */
  method SortNewestFirst(a: array<Transaction>)
    modifies a
    ensures a[..] == SortByKey(old(a[..]), Dashboard.NewestFirst)
  {
    ghost var s := a[..];
    var i := 0;
    while i < a.Length
      invariant 0 <= i <= a.Length && |s| == a.Length
      invariant a[..] == SortByKey(s[..i], Dashboard.NewestFirst) + s[i..]
    {
      assert a[..i] == SortByKey(s[..i], Dashboard.NewestFirst) && a[i] == s[i] && a[i + 1..] == s[i + 1..];
      InsertNewestFirst(a, i);
      SortByKeySnoc(s, i, Dashboard.NewestFirst);
      i := i + 1;
    }
    assert s[..a.Length] == s;
  }

  /** The inner loop: a[i] moves left past the records dated before it. */
  method InsertNewestFirst(a: array<Transaction>, i: nat)
    requires i < a.Length
    modifies a
    ensures a[..] == Insert(old(a[..i]), old(a[i]), Dashboard.NewestFirst) + old(a[i + 1..])
  {
    ghost var r := a[..i];
    ghost var tail := a[i + 1..];
    var x := a[i];
    assert a[..] == r[..i] + [x] + r[i..] + tail by {
      assert a[..] == a[..i] + [x] + a[i + 1..];
      assert r[..i] == r && r[i..] == [];
    }
    var j := i;
    while j > 0 && Dashboard.NewestFirst(a[j - 1]) > Dashboard.NewestFirst(x)
      invariant 0 <= j <= i == |r|
      invariant a[..] == r[..j] + [x] + r[j..] + tail
      invariant Insert(r, x, Dashboard.NewestFirst) == Insert(r[..j], x, Dashboard.NewestFirst) + r[j..]
    {
      var y := a[j - 1];
      assert y == r[j - 1];
      ghost var before := a[..];
      a[j - 1], a[j] := x, y;
      assert a[..] == before[j - 1 := x][j := y];
      SwapAdjacent(r, x, j, tail, a[..]);
      InsertPastLarger(r, x, j, Dashboard.NewestFirst);
      j := j - 1;
    }
    InsertStops(r, x, j, Dashboard.NewestFirst);
  }

  /** Where the inner loop stops, x goes. */
  lemma InsertStops<T>(r: seq<T>, x: T, j: nat, key: T -> int)
    requires j <= |r|
    requires j == 0 || key(r[j - 1]) <= key(x)
    ensures Insert(r[..j], x, key) == r[..j] + [x]
  {
  }

  lemma SortByKeySnoc<T>(s: seq<T>, i: nat, key: T -> int)
    requires i < |s|
    ensures SortByKey(s[..i + 1], key) == Insert(SortByKey(s[..i], key), s[i], key)
  {
    assert s[..i + 1][..i] == s[..i];
  }

  /** One step of the inner loop: x moves before the element on its left. */
  lemma SwapAdjacent<T>(r: seq<T>, x: T, j: nat, tail: seq<T>, q: seq<T>)
    requires 0 < j <= |r|
    requires q == (r[..j] + [x] + r[j..] + tail)[j - 1 := x][j := r[j - 1]]
    ensures q == r[..j - 1] + [x] + r[j - 1..] + tail
  {
    var p := r[..j - 1] + [x] + r[j - 1..] + tail;
    assert |q| == |p|;
    forall k | 0 <= k < |q| ensures q[k] == p[k] {
      if k < j - 1 {
      } else if k == j - 1 {
      } else if k == j {
      } else if k <= |r| {
        assert q[k] == r[k - 1];
      } else {
        assert q[k] == tail[k - |r| - 1];
      }
    }
  }

  lemma InsertUnfold<T>(p: seq<T>, x: T, key: T -> int)
    requires p != [] && key(p[|p| - 1]) > key(x)
    ensures Insert(p, x, key) == Insert(p[..|p| - 1], x, key) + [p[|p| - 1]]
  {
  }

  lemma InsertPastLarger<T>(r: seq<T>, x: T, j: nat, key: T -> int)
    requires 0 < j <= |r|
    requires key(r[j - 1]) > key(x)
    ensures Insert(r[..j], x, key) + r[j..] == Insert(r[..j - 1], x, key) + r[j - 1..]
  {
    var p := r[..j];
    assert p[..|p| - 1] == r[..j - 1] && p[|p| - 1] == r[j - 1];
    InsertUnfold(p, x, key);
    var q := Insert(r[..j - 1], x, key);
    calc {
      Insert(p, x, key) + r[j..];
      (q + [r[j - 1]]) + r[j..];
      { assert r[j - 1..] == [r[j - 1]] + r[j..]; }
      q + r[j - 1..];
    }
  }

  /** A fresh array holding s. */
  method ToArray(s: seq<Transaction>) returns (a: array<Transaction>)
    ensures fresh(a) && a[..] == s
  {
    a := new Transaction[|s|](i requires 0 <= i < |s| => s[i]);
  }

  /**
   * filteredTransactions. With neither filter active the incoming array is
   * itself sorted in place and returned; otherwise the filters build a new
   * array, which is sorted, and the incoming one is left alone.
   */
  method FilteredTransactions(txs: array<Transaction>, fg: string, ft: TimeFilter, year: int, month: int)
    returns (data: array<Transaction>)
    modifies txs
    ensures data[..] == FilteredView(old(txs[..]), fg, ft, year, month)
    ensures fg == "all" && ft == AllTime ==> data == txs
    ensures fg != "all" || ft != AllTime ==> fresh(data) && txs[..] == old(txs[..])
  {
    data := txs;
    if fg != "all" {
      data := ToArray(GroupFilter(txs[..], fg));
    }
    if ft == ThisMonth {
      data := ToArray(MonthFilter(data[..], ft, year, month));
    }
    SortNewestFirst(data);
  }

  /** The filtered totals shown under the charts. */
  lemma FilteredTotalsPartition(s: seq<Transaction>, fg: string, ft: TimeFilter, year: int, month: int)
    ensures var v := FilteredView(s, fg, ft, year, month);
      Dashboard.TotalIncome(v) + Dashboard.TotalExpense(v) == SumOf(v, Amount)
  {
    Dashboard.TotalsPartitionAmounts(FilteredView(s, fg, ft, year, month));
  }

  // ---------------------------------------------------------------------
  // Category breakdown

  /** `t.category || 'Other'`. */
  function CategoryOf(t: Transaction): string {
    OrElse(t.category, "Other")
  }

  datatype Slice = Slice(name: string, value: real)

  function SliceValue(c: Slice): real { c.value }

  function SliceName(c: Slice): string { c.name }

  /** categoryData: one slice per category of the expenses, in the order
      the categories first occur, each holding that category's expense total. */
  function CategoryData(s: seq<Transaction>): (r: seq<Slice>) {
    var e := Filter(s, IsExpense);
    var names := Keys(e, CategoryOf);
    SlicesOf(names, KeyTotals(names, e, CategoryOf, Amount))
  }

  function SlicesOf(names: seq<string>, totals: seq<real>): (r: seq<Slice>)
    requires |names| == |totals|
    ensures |r| == |names|
    ensures forall i :: 0 <= i < |names| ==> r[i] == Slice(names[i], totals[i])
  {
    if names == [] then []
    else SlicesOf(names[..|names| - 1], totals[..|totals| - 1]) + [Slice(names[|names| - 1], totals[|totals| - 1])]
  }

  /** No category has two slices. */
  lemma CategoryDataDistinct(s: seq<Transaction>, i: nat, j: nat)
    requires i < j < |CategoryData(s)|
    ensures CategoryData(s)[i].name != CategoryData(s)[j].name
  {
    var e := Filter(s, IsExpense);
    KeysDistinct(e, CategoryOf);
    assert CategoryData(s)[i].name == Keys(e, CategoryOf)[i];
    assert CategoryData(s)[j].name == Keys(e, CategoryOf)[j];
  }

  /** The slices come in the order in which their categories first occur
      among the expenses. */
  lemma CategoryDataFirstOccurrence(s: seq<Transaction>, i: nat, j: nat)
    requires i < j < |CategoryData(s)|
    ensures var m := Map(Filter(s, IsExpense), CategoryOf);
      CategoryData(s)[i].name in m && CategoryData(s)[j].name in m
      && FirstIndex(m, CategoryData(s)[i].name) < FirstIndex(m, CategoryData(s)[j].name)
  {
    var e := Filter(s, IsExpense);
    var m := Map(e, CategoryOf);
    assert CategoryData(s)[i].name == Keys(e, CategoryOf)[i];
    assert CategoryData(s)[j].name == Keys(e, CategoryOf)[j];
    KeysFirstOccurrence(e, CategoryOf, i, j);
  }

  /** A category has a slice exactly when some expense is filed under it. */
  lemma CategoryDataMembers(s: seq<Transaction>, c: string)
    ensures c in Map(CategoryData(s), SliceName) <==> exists t :: t in s && t.kind == Expense && CategoryOf(t) == c
  {
    var e := Filter(s, IsExpense);
    assert Map(CategoryData(s), SliceName) == Keys(e, CategoryOf);
    KeyMembersByElement(e, CategoryOf, c);
  }

  /** Each slice holds the sum of the expenses of its category. */
  lemma CategoryDataValues(s: seq<Transaction>, i: nat)
    requires i < |CategoryData(s)|
    ensures CategoryData(s)[i].value
         == SumOf(Filter(Filter(s, IsExpense), HasKey(CategoryOf, CategoryData(s)[i].name)), Amount)
  {
    KeyTotalIsFilteredSum(Filter(s, IsExpense), CategoryOf, Amount, CategoryData(s)[i].name);
  }

  /** The slices add up to the total expense. */
  lemma CategoryDataSumsToTotalExpense(s: seq<Transaction>)
    ensures SumOf(CategoryData(s), SliceValue) == Dashboard.TotalExpense(s)
  {
    var e := Filter(s, IsExpense);
    var names := Keys(e, CategoryOf);
    KeysDistinct(e, CategoryOf);
    KeysCoverAll(e, CategoryOf);
    KeyTotalsCover(names, e, CategoryOf, Amount);
    SumOfPointwise(CategoryData(s), SliceValue, KeyTotals(names, e, CategoryOf, Amount), Id);
  }

  /** The forEach of categoryData: walk the expenses, adding each amount to
      its category's entry of `agg` (`(agg[cat] || 0) + t.amount`); `names`
      is the order in which the entries were created. */
  method AggregateCategories(e: seq<Transaction>) returns (names: seq<string>, agg: map<string, real>)
    ensures Aggregated(e, CategoryOf, Amount, names, agg)
  {
    names := [];
    agg := map[];
    AggregatedEmpty(CategoryOf, Amount);
    for i := 0 to |e|
      invariant Aggregated(e[..i], CategoryOf, Amount, names, agg)
    {
      var t := e[i];
      var c := CategoryOf(t);
      AggregatedStep(e[..i], t, CategoryOf, Amount, names, agg);
      PrefixSnoc(e, i);
      if c !in agg {
        names := names + [c];
      }
      agg := agg[c := (if c in agg then agg[c] else 0.0) + t.amount];
    }
    PrefixAll(e);
  }

  /** categoryData: aggregate the expenses by category, then read the
      entries out in the order they were created. */
  method CategoryBreakdown(s: seq<Transaction>) returns (r: seq<Slice>)
    ensures r == CategoryData(s)
  {
    var e := Filter(s, IsExpense);
    var names, agg := AggregateCategories(e);
    r := [];
    for k := 0 to |names|
      invariant |r| == k
      invariant forall m :: 0 <= m < k ==> r[m] == Slice(names[m], KeyTotal(e, CategoryOf, Amount, names[m]))
    {
      r := r + [Slice(names[k], agg[names[k]])];
    }
  }

  // ---------------------------------------------------------------------
  // Daily series

  function DateOf(t: Transaction): Date { t.date }

  /** What a record adds to its day's income bar. */
  function IncomePart(t: Transaction): real {
    if t.kind == Income then t.amount else 0.0
  }

  /** What a record adds to its day's expense bar: every non-income record. */
  function ExpensePart(t: Transaction): real {
    if t.kind == Income then 0.0 else t.amount
  }

  /** One bar pair of the daily chart; its label is the date's month and day. */
  datatype DayTotals = DayTotals(day: Date, income: real, expense: real)

  function BucketIncome(b: DayTotals): real { b.income }

  function BucketExpense(b: DayTotals): real { b.expense }

  function BucketDay(b: DayTotals): Date { b.day }

  /** The days that have records, in the order they first occur. */
  function Days(s: seq<Transaction>): seq<Date> {
    Keys(s, DateOf)
  }

  function BucketsFor(days: seq<Date>, s: seq<Transaction>): (r: seq<DayTotals>)
    ensures |r| == |days|
    ensures forall i :: 0 <= i < |days| ==> r[i] == DayTotals(
      days[i], KeyTotal(s, DateOf, IncomePart, days[i]), KeyTotal(s, DateOf, ExpensePart, days[i]))
  {
    if days == [] then []
    else
      var d := days[|days| - 1];
      BucketsFor(days[..|days| - 1], s) + [DayTotals(d, KeyTotal(s, DateOf, IncomePart, d), KeyTotal(s, DateOf, ExpensePart, d))]
  }

  /** `Object.values(agg)`: one bucket per day with records, in order of first occurrence. */
  function Buckets(s: seq<Transaction>): seq<DayTotals> {
    BucketsFor(Days(s), s)
  }

  /** The order of the `MM/DD` labels: `localeCompare` on two zero-padded
      labels of that shape is their (month, day) order; the year is not in
      the label. */
  function LabelKey(b: DayTotals): int {
    (b.day.month - 1) * 31 + (b.day.day - 1)
  }

  /** Calendar order of a bucket's day. */
  function DayKey(b: DayTotals): int {
    DateOrd(b.day)
  }

  /** `.slice(-7)`. */
  function LastSeven<T>(s: seq<T>): (r: seq<T>)
    ensures |r| == if |s| < 7 then |s| else 7
    ensures r == s[|s| - |r|..]
  {
    if |s| <= 7 then s else s[|s| - 7..]
  }

  /** dailyData as written: sorted by label, then the last seven. */
  function DailySeriesAsWritten(s: seq<Transaction>): seq<DayTotals> {
    LastSeven(SortByKey(Buckets(s), LabelKey))
  }

  /** dailyData as intended: sorted by date, then the last seven, i.e. the
      seven latest days with records. */
  function DailySeries(s: seq<Transaction>): seq<DayTotals> {
    LastSeven(SortByKey(Buckets(s), DayKey))
  }

  /** One bucket per day with records, each day once, each bucket holding
      the income and the other amounts of that day. */
  lemma BucketsExact(s: seq<Transaction>, d: Date)
    ensures Distinct(Map(Buckets(s), BucketDay))
    ensures d in Map(Buckets(s), BucketDay) <==> exists t :: t in s && t.date == d
    ensures forall b :: b in Buckets(s) ==>
      b.income == SumOf(Filter(s, HasKey(DateOf, b.day)), IncomePart)
      && b.expense == SumOf(Filter(s, HasKey(DateOf, b.day)), ExpensePart)
  {
    assert Map(Buckets(s), BucketDay) == Days(s);
    KeysDistinct(s, DateOf);
    KeysMembers(s, DateOf, d);
    if exists t :: t in s && t.date == d {
      var t :| t in s && t.date == d;
      var i :| 0 <= i < |s| && s[i] == t;
    }
    forall b | b in Buckets(s) ensures
      b.income == SumOf(Filter(s, HasKey(DateOf, b.day)), IncomePart)
      && b.expense == SumOf(Filter(s, HasKey(DateOf, b.day)), ExpensePart)
    {
      KeyTotalIsFilteredSum(s, DateOf, IncomePart, b.day);
      KeyTotalIsFilteredSum(s, DateOf, ExpensePart, b.day);
    }
  }

  /** The buckets account for every record: their incomes add up to the
      total income and their expenses to the total expense. */
  lemma BucketsSumToTotals(s: seq<Transaction>)
    ensures SumOf(Buckets(s), BucketIncome) == Dashboard.TotalIncome(s)
    ensures SumOf(Buckets(s), BucketExpense) == Dashboard.TotalExpense(s)
  {
    BucketIncomesSum(s);
    BucketExpensesSum(s);
  }

  lemma BucketIncomesSum(s: seq<Transaction>)
    ensures SumOf(Buckets(s), BucketIncome) == Dashboard.TotalIncome(s)
  {
    KeysDistinct(s, DateOf);
    KeysCoverAll(s, DateOf);
    KeyTotalsCover(Days(s), s, DateOf, IncomePart);
    SumOfPointwise(Buckets(s), BucketIncome, KeyTotals(Days(s), s, DateOf, IncomePart), Id);
    SumOfFilterMasked(s, IsIncome, Amount, IncomePart);
  }

  lemma BucketExpensesSum(s: seq<Transaction>)
    ensures SumOf(Buckets(s), BucketExpense) == Dashboard.TotalExpense(s)
  {
    KeysDistinct(s, DateOf);
    KeysCoverAll(s, DateOf);
    KeyTotalsCover(Days(s), s, DateOf, ExpensePart);
    SumOfPointwise(Buckets(s), BucketExpense, KeyTotals(Days(s), s, DateOf, ExpensePart), Id);
    SumOfFilterMasked(s, IsExpense, Amount, ExpensePart);
  }

  /** At most seven bars, in calendar order, each one a bucket of the ledger. */
  lemma DailySeriesIsChronological(s: seq<Transaction>)
    ensures |DailySeries(s)| == if |Days(s)| < 7 then |Days(s)| else 7
    ensures forall i, j :: 0 <= i < j < |DailySeries(s)| ==>
      DateBefore(DailySeries(s)[i].day, DailySeries(s)[j].day)
    ensures multiset(DailySeries(s)) <= multiset(Buckets(s))
  {
    var b := Buckets(s);
    assert Distinct(Map(b, BucketDay)) by {
      BucketsExact(s, Date(0, 1, 1));
    }
    SortedDaysStrict(b);
    LastSevenOfSortedIsSubMultiset(b, DayKey);
  }

  /** The series as written also draws at most seven buckets of the ledger. */
  lemma DailySeriesAsWrittenShowsBuckets(s: seq<Transaction>)
    ensures |DailySeriesAsWritten(s)| == if |Days(s)| < 7 then |Days(s)| else 7
    ensures multiset(DailySeriesAsWritten(s)) <= multiset(Buckets(s))
  {
    LastSevenOfSortedIsSubMultiset(Buckets(s), LabelKey);
  }

  /** Each bar of the corrected series is its day's bucket: the income and
      the other amounts of the records dated that day. */
  lemma DailySeriesShowsDayTotals(s: seq<Transaction>, b: DayTotals)
    requires b in DailySeries(s)
    ensures exists t :: t in s && t.date == b.day
    ensures b.income == SumOf(Filter(s, HasKey(DateOf, b.day)), IncomePart)
    ensures b.expense == SumOf(Filter(s, HasKey(DateOf, b.day)), ExpensePart)
  {
    assert b in Buckets(s) by {
      LastSevenOfSortedIsSubMultiset(Buckets(s), DayKey);
      assert b in multiset(DailySeries(s));
    }
    BucketShowsDayTotals(s, b);
  }

  /** A bucket's day has records, and the bucket holds their totals. */
  lemma BucketShowsDayTotals(s: seq<Transaction>, b: DayTotals)
    requires b in Buckets(s)
    ensures exists t :: t in s && t.date == b.day
    ensures b.income == SumOf(Filter(s, HasKey(DateOf, b.day)), IncomePart)
    ensures b.expense == SumOf(Filter(s, HasKey(DateOf, b.day)), ExpensePart)
  {
    var i :| 0 <= i < |Buckets(s)| && Buckets(s)[i] == b;
    assert Map(Buckets(s), BucketDay)[i] == b.day;
    BucketsExact(s, b.day);
  }

  /** The last seven of a sorted copy are drawn from the original, each at
      most as often as it occurs there. */
  lemma LastSevenOfSortedIsSubMultiset<T>(b: seq<T>, key: T -> int)
    ensures |LastSeven(SortByKey(b, key))| == if |b| < 7 then |b| else 7
    ensures multiset(LastSeven(SortByKey(b, key))) <= multiset(b)
  {
    var sorted := SortByKey(b, key);
    SortByKeyPermutes(b, key);
    SuffixSubMultiset(sorted, |sorted| - |LastSeven(sorted)|);
  }

  /** A suffix holds each element at most as often as the whole sequence. */
  lemma SuffixSubMultiset<T>(s: seq<T>, m: nat)
    requires m <= |s|
    ensures multiset(s[m..]) <= multiset(s)
  {
    assert s == s[..m] + s[m..];
  }

  /** Buckets of distinct days, sorted by day, are in strictly increasing
      calendar order. */
  lemma SortedDaysStrict(b: seq<DayTotals>)
    requires Distinct(Map(b, BucketDay))
    ensures forall i, j :: 0 <= i < j < |SortByKey(b, DayKey)| ==>
      DateBefore(SortByKey(b, DayKey)[i].day, SortByKey(b, DayKey)[j].day)
  {
    var sorted := SortByKey(b, DayKey);
    SortByKeySorted(b, DayKey);
    SortByKeyPermutes(b, DayKey);
    forall i, j | 0 <= i < j < |sorted| ensures DateBefore(sorted[i].day, sorted[j].day) {
      DistinctDaysSorted(b, sorted, i, j);
      DateOrdIsCalendarOrder(sorted[i].day, sorted[j].day);
    }
  }

  /** Sorted buckets of distinct days are in strictly increasing order. */
  lemma DistinctDaysSorted(b: seq<DayTotals>, sorted: seq<DayTotals>, i: nat, j: nat)
    requires Distinct(Map(b, BucketDay))
    requires multiset(sorted) == multiset(b) && SortedBy(sorted, DayKey)
    requires i < j < |sorted|
    ensures DateOrd(sorted[i].day) < DateOrd(sorted[j].day)
  {
    if sorted[i].day == sorted[j].day {
      assert sorted[i] in multiset(b) && sorted[j] in multiset(b);
      var p :| 0 <= p < |b| && b[p] == sorted[i];
      var q :| 0 <= q < |b| && b[q] == sorted[j];
      assert Map(b, BucketDay)[p] == Map(b, BucketDay)[q];
      assert p == q;
      MultisetTwoIndices(sorted, i, j);
      assert multiset(sorted)[sorted[i]] >= 2;
      DistinctImageOccursOnce(b, BucketDay, p);
      assert false;
    }
    DateOrdIsCalendarOrder(sorted[i].day, sorted[j].day);
  }

  /** An element at two indices occurs at least twice. */
  lemma MultisetTwoIndices<T>(s: seq<T>, i: nat, j: nat)
    requires i < j < |s| && s[i] == s[j]
    ensures multiset(s)[s[i]] >= 2
  {
    assert s == s[..i] + [s[i]] + s[i + 1..j] + [s[j]] + s[j + 1..];
  }

  /** A day left out of the series is older than every day shown. */
  lemma DailySeriesKeepsLatest(s: seq<Transaction>, b: DayTotals, i: nat)
    requires b in Buckets(s) && b !in DailySeries(s) && i < |DailySeries(s)|
    ensures DateOrd(b.day) <= DateOrd(DailySeries(s)[i].day)
  {
    var sorted := SortByKey(Buckets(s), DayKey);
    var r := DailySeries(s);
    var m := |sorted| - |r|;
    SortByKeySorted(Buckets(s), DayKey);
    SortByKeyPermutes(Buckets(s), DayKey);
    assert r == sorted[m..];
    assert b in multiset(sorted) - multiset(sorted[m..]);
    SortedSuffixComesLast(sorted, DayKey, m, b, m + i);
  }

  /** Within one calendar year the label order is the calendar order, so the
      series as written and as intended agree. */
  lemma DailySeriesAgreeWithinYear(s: seq<Transaction>, year: Year)
    requires forall t :: t in s ==> t.date.year == year
    ensures DailySeriesAsWritten(s) == DailySeries(s)
  {
    var b := Buckets(s);
    forall x | x in b ensures DayKey(x) == LabelKey(x) + year * 372 {
      BucketsExact(s, x.day);
      var i :| 0 <= i < |b| && b[i] == x;
      assert Map(b, BucketDay)[i] == x.day;
    }
    SortByShiftedKey(b, DayKey, LabelKey, year * 372);
  }

  /** The bucket of a day that has the one record t. */
  function BucketOf(t: Transaction): DayTotals {
    DayTotals(t.date, IncomePart(t), ExpensePart(t))
  }

  /** Two records on different days make two buckets, in record order. */
  lemma TwoDayBuckets(x: Transaction, y: Transaction)
    requires x.date != y.date
    ensures Buckets([x, y]) == [BucketOf(x), BucketOf(y)]
  {
    var s := [x, y];
    assert s[..1] == [x] && [x][..0] == [];
    assert Keys([x], DateOf) == [x.date];
    assert Days(s) == [x.date, y.date];
    assert KeyTotal([x], DateOf, IncomePart, x.date) == IncomePart(x);
    assert KeyTotal([x], DateOf, ExpensePart, x.date) == ExpensePart(x);
    assert KeyTotal(s[..1], DateOf, IncomePart, y.date) == 0.0;
    assert KeyTotal(s[..1], DateOf, ExpensePart, y.date) == 0.0;
  }

  /**
   * Two records on days where the later day has the smaller `MM/DD` label
   * (a later year, an earlier month or day): the series as written draws
   * the later day first, while sorted by date it comes last.
   */
  lemma DailySeriesMisorders(x: Transaction, y: Transaction)
    requires DateOrd(x.date) < DateOrd(y.date)
    requires LabelKey(BucketOf(y)) < LabelKey(BucketOf(x))
    ensures DailySeriesAsWritten([x, y]) == [BucketOf(y), BucketOf(x)]
    ensures DailySeries([x, y]) == [BucketOf(x), BucketOf(y)]
  {
    TwoDayBuckets(x, y);
    SortTwo(BucketOf(x), BucketOf(y), LabelKey);
    SortTwo(BucketOf(x), BucketOf(y), DayKey);
  }

  /** An expense of 1 on the given day. */
  function OneOn(id: string, d: Date): Transaction {
    Transaction(id, d, "m", 1.0, Expense, Personal, None, None, None, None, None)
  }

  /** The smallest such input: one expense on 31 December 2024 and one on
      1 January 2025 (the 'all' time filter). As written, 01/01 is drawn
      before 12/31. */
  lemma DailySeriesMisordersNewYear()
    ensures var s := [OneOn("1", Date(2024, 12, 31)), OneOn("2", Date(2025, 1, 1))];
      DailySeriesAsWritten(s) == [DayTotals(Date(2025, 1, 1), 0.0, 1.0), DayTotals(Date(2024, 12, 31), 0.0, 1.0)]
      && DailySeries(s) == [DayTotals(Date(2024, 12, 31), 0.0, 1.0), DayTotals(Date(2025, 1, 1), 0.0, 1.0)]
  {
    DailySeriesMisorders(OneOn("1", Date(2024, 12, 31)), OneOn("2", Date(2025, 1, 1)));
  }

  /** The income and expense columns of the `agg` object. */
  function Incomes(agg: map<Date, DayTotals>): map<Date, real> {
    map d | d in agg :: agg[d].income
  }

  function Expenses(agg: map<Date, DayTotals>): map<Date, real> {
    map d | d in agg :: agg[d].expense
  }

  /** What the `agg` object holds after the walk over s. */
  ghost predicate DailyAggregated(s: seq<Transaction>, days: seq<Date>, agg: map<Date, DayTotals>) {
    Aggregated(s, DateOf, IncomePart, days, Incomes(agg))
    && Aggregated(s, DateOf, ExpensePart, days, Expenses(agg))
    && forall d :: d in agg ==> agg[d].day == d
  }

  /** `agg[t.date]`, opened at zero when the day is new. */
  function OpenBucket(agg: map<Date, DayTotals>, d: Date): DayTotals {
    if d in agg then agg[d] else DayTotals(d, 0.0, 0.0)
  }

  /** `agg[t.date].income += t.amount` or `agg[t.date].expense += t.amount`. */
  function AddTo(b: DayTotals, t: Transaction): DayTotals {
    if t.kind == Income then b.(income := b.income + t.amount) else b.(expense := b.expense + t.amount)
  }

  /** One record of the walk: open the day's bucket if it is new, then add
      the amount to its income or its expense. */
  lemma DailyStep(s: seq<Transaction>, t: Transaction, days: seq<Date>, agg: map<Date, DayTotals>)
    requires DailyAggregated(s, days, agg)
    ensures DailyAggregated(s + [t], if t.date in agg then days else days + [t.date],
                            agg[t.date := AddTo(OpenBucket(agg, t.date), t)])
  {
    var d := t.date;
    var b' := AddTo(OpenBucket(agg, d), t);
    ColumnUpdate(agg, d, b');
    ColumnStep(s, t, IncomePart, days, agg, Incomes(agg), b'.income);
    ColumnStep(s, t, ExpensePart, days, agg, Expenses(agg), b'.expense);
  }

  /** AggregatedStep for one column of the buckets. */
  lemma ColumnStep(s: seq<Transaction>, t: Transaction, part: Transaction -> real, days: seq<Date>,
                   agg: map<Date, DayTotals>, column: map<Date, real>, v: real)
    requires Aggregated(s, DateOf, part, days, column)
    requires forall d :: d in column <==> d in agg
    requires v == (if t.date in column then column[t.date] else 0.0) + part(t)
    ensures Aggregated(s + [t], DateOf, part, if t.date in agg then days else days + [t.date], column[t.date := v])
  {
    AggregatedStep(s, t, DateOf, part, days, column);
  }

  /** DailyStep, at the i-th record of the walk over s. */
  lemma DailyStepAt(s: seq<Transaction>, i: nat, days0: seq<Date>, agg0: map<Date, DayTotals>,
                    days: seq<Date>, agg: map<Date, DayTotals>)
    requires i < |s| && DailyAggregated(s[..i], days0, agg0)
    requires days == if s[i].date in agg0 then days0 else days0 + [s[i].date]
    requires agg == agg0[s[i].date := AddTo(OpenBucket(agg0, s[i].date), s[i])]
    ensures DailyAggregated(s[..i + 1], days, agg)
  {
    DailyStep(s[..i], s[i], days0, agg0);
    PrefixSnoc(s, i);
  }

  /** Writing one bucket writes one entry of each column. */
  lemma ColumnUpdate(agg: map<Date, DayTotals>, d: Date, b: DayTotals)
    ensures Incomes(agg[d := b]) == Incomes(agg)[d := b.income]
    ensures Expenses(agg[d := b]) == Expenses(agg)[d := b.expense]
  {
  }

  lemma DailyEmpty()
    ensures DailyAggregated([], [], map[])
  {
    AggregatedEmpty(DateOf, IncomePart);
    AggregatedEmpty(DateOf, ExpensePart);
    assert Incomes(map[]) == map[] && Expenses(map[]) == map[];
  }

  /** The first forEach of dailyData: walk the records, opening a bucket the
      first time a day is seen and adding each amount to its income or its
      expense. */
  method AggregateDays(s: seq<Transaction>) returns (days: seq<Date>, agg: map<Date, DayTotals>)
    ensures DailyAggregated(s, days, agg)
  {
    days := [];
    agg := map[];
    DailyEmpty();
    for i := 0 to |s|
      invariant DailyAggregated(s[..i], days, agg)
    {
      var t := s[i];
      ghost var days0, agg0 := days, agg;
      var b: DayTotals;
      if t.date in agg {
        b := agg[t.date];
      } else {
        days := days + [t.date];
        b := DayTotals(t.date, 0.0, 0.0);
      }
      assert b == OpenBucket(agg0, t.date);
      if t.kind == Income {
        b := b.(income := b.income + t.amount);
      } else {
        b := b.(expense := b.expense + t.amount);
      }
      assert b == AddTo(OpenBucket(agg0, t.date), t);
      agg := agg[t.date := b];
      DailyStepAt(s, i, days0, agg0, days, agg);
    }
    PrefixAll(s);
  }

  /**
   * dailyData, with the chronological sort: aggregate the records by day,
   * read the buckets out in first-seen order, sort them and keep the last
   * seven.
   */
  method DailyData(s: seq<Transaction>) returns (r: seq<DayTotals>)
    ensures r == DailySeries(s)
  {
    var days, agg := AggregateDays(s);
    assert forall d :: d in days ==> d in Incomes(agg);
    var buckets: seq<DayTotals> := [];
    for k := 0 to |days|
      invariant |buckets| == k
      invariant forall m :: 0 <= m < k ==> buckets[m] == DayTotals(
        days[m], KeyTotal(s, DateOf, IncomePart, days[m]), KeyTotal(s, DateOf, ExpensePart, days[m]))
    {
      assert days[k] in Incomes(agg);
      var b := agg[days[k]];
      assert b.income == Incomes(agg)[days[k]] && b.expense == Expenses(agg)[days[k]];
      buckets := buckets + [b];
    }
    assert buckets == Buckets(s);
    r := LastSeven(SortByKey(buckets, DayKey));
  }
}
