/**
 * The records of the expense tracker: transactions, budget groups and the
 * result of a receipt scan (types.ts), plus the small value helpers that the
 * components share (optional values, JavaScript truthiness of optional text,
 * calendar dates).
 */
module Types {

  datatype Option<+T> = None | Some(value: T)

  /** `x || fallback` for an optional string: JavaScript treats `undefined`
      and the empty string alike as false. */
  predicate Truthy(o: Option<string>) {
    o.Some? && o.value != ""
  }

  function OrElse(o: Option<string>, fallback: string): (r: string)
    ensures Truthy(o) ==> r == o.value
    ensures !Truthy(o) ==> r == fallback
  {
    if Truthy(o) then o.value else fallback
  }

  /** A `YYYY-MM-DD` calendar date, as the form's date input produces it. */
  type Year = y: int | 0 <= y <= 9999
  type Month = m: int | 1 <= m <= 12 witness 1
  type Day = d: int | 1 <= d <= 31 witness 1

  datatype Date = Date(year: Year, month: Month, day: Day)

  /** Calendar order of dates as one integer: it orders dates as
      `new Date(s).getTime()` does, though it is not proportional to time
      (every month counts 31 days). */
  function DateOrd(d: Date): int {
    d.year * 372 + (d.month - 1) * 31 + (d.day - 1)
  }

  /** Lexicographic (year, month, day) order, i.e. the calendar. */
  predicate DateBefore(a: Date, b: Date) {
    a.year < b.year
    || (a.year == b.year && a.month < b.month)
    || (a.year == b.year && a.month == b.month && a.day < b.day)
  }

  lemma DateOrdIsCalendarOrder(a: Date, b: Date)
    ensures DateOrd(a) < DateOrd(b) <==> DateBefore(a, b)
    ensures DateOrd(a) == DateOrd(b) <==> a == b
  {
    if a.year < b.year {
      assert DateOrd(a) <= a.year * 372 + 371 < (a.year + 1) * 372 <= DateOrd(b);
    } else if a.year > b.year {
      assert DateOrd(b) <= b.year * 372 + 371 < (b.year + 1) * 372 <= DateOrd(a);
    }
  }

  /** types.ts:1 — exactly two transaction types. */
  datatype TxType = Income | Expense

  /** types.ts:2 — exactly two kinds of ownership. */
  datatype Ownership = Personal | GroupOwned

  /** types.ts:4-16. `groupId` is documented to exist when ownership is
      'group', but nothing enforces it, so it is an independent option. */
  datatype Transaction = Transaction(
    id: string,
    date: Date,
    merchant: string,
    amount: real,
    kind: TxType,
    ownership: Ownership,
    groupId: Option<string>,
    category: Option<string>,
    items: Option<seq<string>>,
    note: Option<string>,
    slipUrl: Option<string>)

  /** types.ts:18-24. */
  datatype Group = Group(id: string, name: string, budget: real, members: int, icon: string)

  /** types.ts:28-34: every field is mandatory. */
  datatype ScanResult = ScanResult(
    merchant: string,
    amount: real,
    date: Date,
    category: string,
    items: seq<string>)

  /** types.ts:26 — the screens of the application. */
  datatype View = DashboardView | AddView | GroupsView | ReportView | ProfileView

  function Amount(t: Transaction): real { t.amount }

  predicate IsExpense(t: Transaction) { t.kind == Expense }

  predicate IsIncome(t: Transaction) { t.kind == Income }
}
