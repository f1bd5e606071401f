# MMM (Mook Money Management) — a Dafny model of its ledger and reports

MMM is a small single-page expense tracker. The root component keeps a
ledger of transactions and a list of budget groups. An entry form creates or
edits transactions, optionally pre-filled from a receipt scan. A dashboard
shows totals, per-group spend, budget alerts and the five most recent
records. A group screen shows each group's spend and remaining budget and
creates groups. A report screen filters the ledger by group and month, sorts
it newest first, breaks the expenses down by category, draws a daily
income/expense series and exports the filtered list as CSV.

This project models that logic in Dafny and proves what it promises.

| file | module | models |
|---|---|---|
| `types.dfy` | `Types` | the records of `types.ts`, JavaScript truthiness of optional text, calendar dates and their order |
| `seqs.dfy` | `Seqs` | the generic list operations the components use: `filter`, `reduce` sums, a stable sort by key, first-occurrence order of object keys, `join` |
| `ledger.dfy` | `Ledger` | `App.tsx`: the list updaters as functions, and the root state as class `Ledger` whose methods are the handlers |
| `add_transaction.dfy` | `AddTransaction` | `components/AddTransaction.tsx`: the form as class `TransactionForm`, its values as `FormState`, and the record built on submit |
| `dashboard.dfy` | `Dashboard` | `components/Dashboard.tsx`: totals, balance, group spend, ratios, alerts, groups with spend, progress bar, recent records |
| `group_manager.dfy` | `GroupManager` | `components/GroupManager.tsx`: spend, remaining budget, the red bar, and the creation form as class `GroupForm` |
| `report.dfy` | `Report` | `components/Report.tsx`: the filters, the in-place sort on an `array`, the category breakdown and the daily series, each aggregation loop as a method |
| `report_csv.dfy` | `ReportCsv` | the CSV text of `handleExportCSV`, together with an RFC 4180 style reader that reads it back |

Modelling choices:

- Amounts are exact `real`s. A ratio `spent / budget` is an exact quotient
  datatype (`Dashboard.Quotient`), so a zero budget gives Infinity or NaN
  as in JavaScript; there is no `budget > 0` precondition.
- Dates are `(year, month, day)` triples. `DateOrd` orders them as
  `new Date(s).getTime()` does, and `Types.DateOrdIsCalendarOrder` proves
  it is the calendar order.
- `Array.prototype.sort` is stable. The model sorts with one stable
  insertion sort, `Seqs.SortByKey`. On the report screen the sort runs
  in place on an `array` (`Report.SortNewestFirst`), and it is proved
  equal to `SortByKey`.
- A JavaScript object filled in a `forEach` is a `map` plus the sequence
  of its keys in order of creation (`Seqs.Aggregated`). For keys that are
  not integer-like strings, that is the order `Object.entries` and
  `Object.values` return.
- The clock and the current month are parameters: `today`, `freshId`,
  `year` and `month`. The receipt scanner's answer is a parameter of
  `FinishScan`. The text JavaScript writes for an amount is the parameter
  `amountText` of the CSV export.
- The code has no duplicate-id check when a group is added, no check that
  a budget is positive, and no error when a group update matches no id.
  The model follows the code: `AddGroup` appends unconditionally, and
  `ReplaceByIdMissing` proves that an update with an unknown id changes
  nothing.

## Model

| member | source | states |
|---|---|---|
| Types.DateOrdIsCalendarOrder | components/Dashboard.tsx:40 | the time-value order of dates is the calendar (year, month, day) order, and equal times mean equal dates |
| Ledger.ReplaceById | App.tsx:48 | same length; each element with the given id becomes the new element, every other element stays in place (used over transaction ids for a save and over group ids for a group update) |
| Ledger.Upsert | App.tsx:45-51 | a new id puts the record in front of the unchanged list; a known id replaces exactly the records with that id, keeping length and order; the saved record is always in the result |
| Ledger.UpsertIdempotent | App.tsx:44-51 | saving the same record twice leaves the list as the first save left it |
| Ledger.UpsertKeepsIdsUnique | App.tsx:46-50 | a list with unique ids keeps unique ids after a save |
| Ledger.ReplaceByIdMissing | App.tsx:60-62 | replacing by an id that no element has leaves the list unchanged, so updating an unknown group changes nothing |
| Ledger.Ledger.constructor | App.tsx:25-28 | the initial state holds the given ledger and groups, shows the dashboard, and edits nothing |
| Ledger.Ledger.SaveTransaction | App.tsx:44-54 | the ledger becomes the upsert of the record, the groups are untouched, editing is cleared, the dashboard is shown, and unique ids stay unique |
| Ledger.Ledger.AddGroup | App.tsx:56-58 | the group is appended at the end with no duplicate check; the old list is the prefix |
| Ledger.Ledger.UpdateGroup | App.tsx:60-62 | the group list becomes its in-place replacement by group id, with no error for an unknown id |
| Ledger.Ledger.EditRequest | App.tsx:64-67 | available only from the report, whose rows carry the edit button; the record is being edited and the entry form is shown |
| Ledger.Ledger.CancelEdit | App.tsx:79-82 | editing is cleared and the dashboard is shown |
| Ledger.Ledger.StartNewEntry | App.tsx:131-135 | available only away from the entry form (the navigation bar or the report's scan button); editing is cleared and an empty entry form is shown |
| Ledger.Ledger.Navigate | App.tsx:120-123 | available only while the navigation bar is shown (not on the entry form) and only towards the dashboard, the groups or the report; only the screen changes |
| AddTransaction.InitialState | components/AddTransaction.tsx:17-27 | a new entry starts as an empty personal expense in category 'Other' on today's date, with the first group's id or ''; an edited record supplies each field it has, with the same defaults where it has none |
| AddTransaction.MergeScan | components/AddTransaction.tsx:45-52 | the scan overwrites merchant, amount, date and items and forces the type to expense; the category changes only to one of the six offered categories; ownership, group and preview are kept |
| AddTransaction.MerchantOnly | components/AddTransaction.tsx:45-46 | after an answer without an amount, the merchant is the scanned one and every other field is what it was |
| AddTransaction.ClearPreview | components/AddTransaction.tsx:117 | preview, merchant, amount and items are emptied and every other field is kept |
| AddTransaction.Submitted | components/AddTransaction.tsx:61-79 | no record exactly when the merchant or the amount is empty; otherwise an edit keeps its (non-empty) id and a new entry gets the fresh id, the group id is set exactly for group ownership, the slip exactly when a preview is shown, and the fields are the form's |
| AddTransaction.NewEntryIsIncomplete | components/AddTransaction.tsx:63 | a freshly opened form cannot be submitted |
| AddTransaction.EditRoundTrip | components/AddTransaction.tsx:61-76 | opening the form on a record it could have built and submitting it unchanged gives back the same record under its own id |
| AddTransaction.EditDropsNote | components/AddTransaction.tsx:65-76 | submitting an edited record keeps its id and drops its note, since the form has no note field |
| AddTransaction.ScanThenSubmit | components/AddTransaction.tsx:44-52 | after a scan with a merchant the form submits the scanned expense, with an offered category or the one chosen before |
| AddTransaction.ClearedIsIncomplete | components/AddTransaction.tsx:117 | after the preview is cleared the form cannot be submitted |
| AddTransaction.FailedScanSubmitsPlaceholder | services/geminiService.ts:84-93 | a failed scan fills the form with the scanner's placeholder, which submits as a zero expense named "Error Scanning" on today's date, category 'Other', no items |
| AddTransaction.AmountMissingKeepsEntry | components/AddTransaction.tsx:45-46 | after an answer without an amount the form submits exactly when an amount was already entered, and then submits that amount, date and type under the scanned merchant |
| AddTransaction.TransactionForm.constructor | components/AddTransaction.tsx:16-27 | the form opens on the initial state and is not scanning |
| AddTransaction.TransactionForm.BeginScan | components/AddTransaction.tsx:42 | scanning is under way |
| AddTransaction.TransactionForm.ShowPreview | components/AddTransaction.tsx:37-39 | the file's data URL becomes the preview |
| AddTransaction.TransactionForm.FinishScan | components/AddTransaction.tsx:43-57 | a complete scan answer is merged into the form; an answer without an amount overwrites only the merchant, since the error is raised after that field is set; either way scanning ends |
| AddTransaction.TransactionForm.ClearScan | components/AddTransaction.tsx:117 | the form state becomes the cleared state |
| AddTransaction.TransactionForm.Submit | components/AddTransaction.tsx:61-79 | returns the record the form state describes, or none |
| Dashboard.TotalsPartitionAmounts | components/Dashboard.tsx:14-20 | total income plus total expense is the sum of all amounts |
| Dashboard.TotalExpense | components/Dashboard.tsx:14-16 | no contract of its own; TotalsPartitionAmounts, GroupSpendBounded and CategoryDataSumsToTotalExpense state what it adds up to |
| Dashboard.TotalIncome | components/Dashboard.tsx:18-20 | no contract of its own; TotalsPartitionAmounts and BucketsSumToTotals state what it adds up to |
| Dashboard.Balance | components/Dashboard.tsx:22 | no contract of its own; BalanceIsSignedSum proves it is the signed sum and BalanceAfterSave how a save moves it |
| Dashboard.BalanceIsSignedSum | components/Dashboard.tsx:14-22 | the balance is the sum of amounts signed by type |
| Dashboard.BalanceAfterSave | components/Dashboard.tsx:14-22 | after a save a new record adds its signed amount to the balance, and an edited record replaces the old record's amount |
| Dashboard.GroupSpendIsContributions | components/Dashboard.tsx:26-28 | a group's spend is the sum, over all records, of the amount of each expense booked against it and zero for every other record |
| Dashboard.GroupSpend | components/Dashboard.tsx:26-28 | no contract of its own; the lemmas below and GroupManager.CalculateSpent state its value |
| Dashboard.GroupSpendIgnoresIncome | components/Dashboard.tsx:26-28 | income booked against a group never counts towards its spend |
| Dashboard.GroupSpendBounded | components/Dashboard.tsx:26-28 | with non-negative amounts a group's spend lies between zero and the total expense |
| Dashboard.SaveNewRaisesGroupSpend | components/Dashboard.tsx:26-28 | saving a new record raises each group's spend by exactly that record's contribution |
| Dashboard.Divide | components/Dashboard.tsx:29 | a non-zero budget gives the exact quotient; a zero budget gives +Infinity, -Infinity or NaN by the sign of the spend |
| Dashboard.QuotientAtLeast | components/Dashboard.tsx:29-31 | for a positive threshold k, the ratio is at least k exactly when spend ≥ k × budget for a positive budget (≤ for a negative one), or when a zero budget has positive spend |
| Dashboard.QuotientAbove | components/GroupManager.tsx:109 | the same for strictly above k |
| Dashboard.UsageOf | components/Dashboard.tsx:25-30 | a group's usage carries the group and its spend |
| Dashboard.Usages | components/Dashboard.tsx:25-30 | one usage per group, in group order |
| Dashboard.Alerts | components/Dashboard.tsx:25-31 | a usage is alerted exactly when it is one of the groups' usages and its ratio is at least 0.8 |
| Dashboard.AlertsExact | components/Dashboard.tsx:29-31 | a group is alerted exactly when 5 × spend ≥ 4 × budget (sign-aware), or when a zero budget has positive spend |
| Dashboard.AlertsKeepGroupOrder | components/Dashboard.tsx:25-31 | the alerts of a concatenated group list are the alerts of its parts, in order |
| Dashboard.LevelOf | components/Dashboard.tsx:85-91 | an alert shows "exceeded" exactly when the ratio is at least 1, otherwise "warning" |
| Dashboard.ExceededIsAlerted | components/Dashboard.tsx:85-91 | an exceeded group is always among the alerts |
| Dashboard.ExceededExact | components/Dashboard.tsx:85-91 | with a positive budget, "exceeded" exactly when the spend reaches the budget |
| Dashboard.WarningThenExceeded | components/Dashboard.tsx:25-31 | a 15000 budget with 12500 spent is a warning, and one more 3000 expense makes it exceeded |
| Dashboard.GroupExpenses | components/Dashboard.tsx:33-38 | a usage is kept exactly when it has strictly positive spend |
| Dashboard.GroupExpensesExact | components/Dashboard.tsx:33-38 | a group is listed exactly when its spend is positive |
| Dashboard.GroupExpensesKeepGroupOrder | components/Dashboard.tsx:33-38 | the list keeps group order |
| Dashboard.Percent | components/Dashboard.tsx:113 | the capped percentage never exceeds 100 and is never +Infinity |
| Dashboard.BarColourOf | components/Dashboard.tsx:128 | no contract of its own; BarColourMatchesAlert proves the colour agrees with the alert and its level |
| Dashboard.BarColourMatchesAlert | components/Dashboard.tsx:128 | the bar is red exactly for an exceeded group, yellow exactly for a warned one, and plain exactly when there is no alert |
| Dashboard.Recent | components/Dashboard.tsx:40 | no contract of its own; RecentIsNewestFirst and RecentLeavesOutOnlyOlder state what it keeps |
| Dashboard.RecentIsNewestFirst | components/Dashboard.tsx:40 | min(5, n) records, newest first, a sub-multiset of the ledger |
| Dashboard.RecentLeavesOutOnlyOlder | components/Dashboard.tsx:40 | no record left out is newer than any record shown |
| GroupManager.CalculateSpent | components/GroupManager.tsx:35-39 | the spend is the sum of the expense amounts booked against the group, the same figure as the dashboard's |
| GroupManager.Remaining | components/GroupManager.tsx:108 | remaining plus spent is the budget |
| GroupManager.BarIsRed | components/GroupManager.tsx:135 | no contract of its own; BarIsRedExact states when it holds |
| GroupManager.RemainingAfterSave | components/GroupManager.tsx:107-108 | saving a new expense against the group lowers the remaining budget by its amount; any other new record leaves it unchanged |
| GroupManager.BarIsRedExact | components/GroupManager.tsx:135 | the bar is red exactly when more than 90 % of a positive budget is spent (sign-aware for other budgets; a zero budget once anything is spent) |
| GroupManager.GroupForm.constructor | components/GroupManager.tsx:13-16 | the form starts closed and empty with the office-building icon |
| GroupManager.GroupForm.SetAdding | components/GroupManager.tsx:51 | the form opens or closes |
| GroupManager.GroupForm.Submit | components/GroupManager.tsx:18-33 | an empty name or budget creates nothing and changes nothing; otherwise a group with one member, the chosen icon and the typed budget is created, the form closes, and name and budget are cleared while the icon is kept |
| Report.GroupFilter | components/Report.tsx:24-30 | 'all' keeps everything; 'personal' keeps exactly the personal records; any other value keeps exactly the records with that group id, whatever their ownership |
| Report.MonthFilter | components/Report.tsx:33-41 | the month filter keeps exactly the records of the given year and month |
| Report.Passing | components/Report.tsx:21-41 | no contract of its own; the group filter then the month filter, whose contracts above state what passes |
| Report.FilteredView | components/Report.tsx:20-45 | no contract of its own; FilteredViewIsSortedPermutation and FilteredViewMembers state what it shows and in which order |
| Report.FilteredViewIsSortedPermutation | components/Report.tsx:44 | the view is a permutation of the records that pass both filters, newest first, and keeps the order of the passing records among records of the same date |
| Report.FilteredViewMembers | components/Report.tsx:20-45 | a record is shown exactly when it is in the ledger and passes both filters |
| Report.SortNewestFirst | components/Report.tsx:44 | the in-place sort leaves the array holding the stable newest-first sort of its old contents |
| Report.InsertNewestFirst | components/Report.tsx:44 | one pass of the inner loop inserts a[i] into the sorted prefix and leaves the rest of the array alone |
| Report.FilteredTransactions | components/Report.tsx:20-45 | the result holds the filtered view; with no filter it is the incoming array itself, sorted in place; otherwise it is a fresh array and the incoming one is untouched |
| Report.FilteredTotalsPartition | components/Report.tsx:75-76 | the filtered income and expense totals add up to the filtered amounts |
| Report.CategoryData | components/Report.tsx:48-58 | no contract of its own; the four lemmas below and CategoryDataFirstOccurrence state its slices |
| Report.CategoryDataDistinct | components/Report.tsx:48-57 | no category has two slices |
| Report.CategoryDataMembers | components/Report.tsx:49-57 | a category has a slice exactly when some expense is filed under it, a missing category counting as 'Other' |
| Report.CategoryDataValues | components/Report.tsx:52-55 | each slice holds the sum of the expenses of its category |
| Report.CategoryDataSumsToTotalExpense | components/Report.tsx:48-57 | the slices add up to the total expense |
| Report.CategoryDataFirstOccurrence | components/Report.tsx:48-57 | the slices come in the order in which their categories first occur among the expenses |
| Report.AggregateCategories | components/Report.tsx:50-55 | after the loop, `agg` maps each category to its expense total and the key order is first occurrence |
| Report.CategoryBreakdown | components/Report.tsx:48-58 | the method's slices are the category breakdown |
| Report.LastSeven | components/Report.tsx:72 | the last min(7, n) elements |
| Report.Buckets | components/Report.tsx:62-70 | no contract of its own; BucketsExact and BucketsSumToTotals state its buckets |
| Report.DailySeries | components/Report.tsx:72 | no contract of its own; the corrected series, stated by DailySeriesIsChronological, DailySeriesShowsDayTotals and DailySeriesKeepsLatest |
| Report.DailySeriesAsWritten | components/Report.tsx:72 | no contract of its own; the label sort as written, whose bars DailySeriesAsWrittenShowsBuckets ties to the buckets and which DailySeriesAgreeWithinYear, DailySeriesMisorders and DailySeriesMisordersNewYear compare with the corrected series |
| Report.BucketsExact | components/Report.tsx:62-70 | one bucket per day with records, each day once; each bucket holds the income of its day and the sum of its other records |
| Report.BucketsSumToTotals | components/Report.tsx:62-70 | the buckets' incomes and expenses add up to the total income and expense |
| Report.DailyStep | components/Report.tsx:64-70 | one iteration opens the day's bucket when it is new and adds the amount to income or expense, keeping `agg` equal to the per-day totals of the records seen |
| Report.AggregateDays | components/Report.tsx:62-70 | after the loop, `agg` holds the per-day income and expense totals, keyed in first-occurrence order |
| Report.DailySeriesIsChronological | components/Report.tsx:72 | the corrected series has min(7, number of days) bars in strictly increasing calendar order, and every bar is one of the ledger's day buckets |
| Report.DailySeriesShowsDayTotals | components/Report.tsx:62-72 | each bar of the corrected series is dated on a day with records and holds that day's income and the sum of its other records |
| Report.BucketShowsDayTotals | components/Report.tsx:62-70 | each bucket is dated on a day with records and holds that day's income and the sum of its other records |
| Report.DailySeriesAsWrittenShowsBuckets | components/Report.tsx:72 | the series as written also has min(7, number of days) bars, each one of the ledger's day buckets |
| Report.DailySeriesKeepsLatest | components/Report.tsx:72 | a day left out of the corrected series is older than every day shown |
| Report.DailySeriesAgreeWithinYear | components/Report.tsx:72 | within one calendar year the series as written equals the corrected one |
| Report.DailySeriesMisorders | components/Report.tsx:72 | when the later of two days has the smaller MM/DD label, the series as written draws it first; the corrected series draws it last |
| Report.DailySeriesMisordersNewYear | components/Report.tsx:72 | records on 2024-12-31 and 2025-01-01 are drawn 01/01 before 12/31 as written |
| Report.DailyData | components/Report.tsx:61-73 | the method's result is the corrected daily series |
| ReportCsv.DoubleQuotesLength | components/Report.tsx:91 | escaping adds exactly one character per '"' |
| ReportCsv.Quote | components/Report.tsx:91 | no contract of its own; QuoteRoundTrip proves a reader gets the text back |
| ReportCsv.QuoteRoundTrip | components/Report.tsx:91 | unquoting a quoted text gives back the text, whatever it contains |
| ReportCsv.FieldRoundTrip | components/Report.tsx:89-97 | a quoted cell, or a plain cell without separators or quotes, reads back as its text |
| ReportCsv.LineRoundTrip | components/Report.tsx:89-97 | a line of such cells joined by ',' reads back as their texts |
| ReportCsv.CsvRoundTrip | components/Report.tsx:85-99 | lines joined by '\n' read back as the rows of texts |
| ReportCsv.DateTextRoundTrip | components/Report.tsx:90 | the YYYY-MM-DD text reads back as the date |
| ReportCsv.DateTextSafe | components/Report.tsx:90 | the date text holds no separator or quote |
| ReportCsv.TypeText | components/Report.tsx:93 | 'income' exactly for income, 'expense' exactly for expense |
| ReportCsv.OwnershipText | components/Report.tsx:95 | 'personal' exactly for personal, 'group' exactly for group |
| ReportCsv.CategoryField | components/Report.tsx:94 | the category when present and non-empty, otherwise '-' |
| ReportCsv.FirstWithId | components/Report.tsx:88 | the index of the first group with the id, or the list's length when there is none |
| ReportCsv.GroupNameIsFirstMatch | components/Report.tsx:88 | '-' without a group id, '' when the id matches no group, otherwise the name of the first group with that id |
| ReportCsv.GroupName | components/Report.tsx:88 | no contract of its own; GroupNameIsFirstMatch states its three cases |
| ReportCsv.RowCells | components/Report.tsx:89-97 | no contract of its own; RowTexts and RowWritable state that a reader finds the seven values on its line |
| ReportCsv.Table | components/Report.tsx:84-98 | the header row, then one row per filtered record in list order |
| ReportCsv.Rows | components/Report.tsx:87-98 | one row per record, in list order |
| ReportCsv.ExportCsv | components/Report.tsx:79-99 | nothing exactly when the filtered list is empty |
| ReportCsv.RowWritable | components/Report.tsx:89-97 | a record's line can be read back when its category and amount text are safe |
| ReportCsv.TableWritable | components/Report.tsx:84-99 | every line of the table can be read back when the categories and amount texts are safe |
| ReportCsv.TableTexts | components/Report.tsx:84-98 | the texts of the table are the headers, then each record's values in list order |
| ReportCsv.ExportReadsBack | components/Report.tsx:78-99 | reading the export back gives 1 + n records: the headers, then each record's date, merchant, amount, type, category, ownership and group name, in list order |

## Left out

- Rendering: JSX, the charts, icons, colour arrays and class strings. Only the thresholds behind the colours are modelled.
- Persistence: the `localStorage` load and save and `JSON.parse`/`stringify` in App.tsx are I/O.
- The seed data in App.tsx is left out. The initial ledger and groups are constructor parameters.
- The receipt scanner: services/geminiService.ts is not part of this model, because it is a network call. Its answer is the `ScanOutcome` parameter of `FinishScan`. The service catches its own failures and answers with the placeholder record ("Error Scanning", 0, today, 'Other', no items), which is `FallbackScan`, so a failure arrives as `Scanned`. `AmountMissing` is an answer without an amount. Other malformed answers (a missing date, non-text fields) are not modelled.
- The alert shown when a scan answer lacks an amount is left out.
- The `FileReader` and the async scan are not modelled as concurrency. They are the three separate steps `BeginScan`, `ShowPreview` and `FinishScan`, which may come in any order.
- `AddTransaction.MergeScan`: the `result.items || []` default is not modelled, because `ScanResult.items` is mandatory in types.ts.
- Form input setters (typing in a field) are not modelled: each is a plain field assignment.
- Numbers: `parseFloat`, `NaN` from unparsable text, `toLocaleString`, `Math.round` and floating-point rounding are left out. Amounts are exact reals, and the form's amount and budget text is `Option<real>`, where `None` is an empty field.
- Dates: `Date` admits impossible days such as 2024-02-31, which JavaScript rolls over into March; `DateOrd` places them before the first of the next month. Malformed date text, such as a free-text date in a scan answer, cannot be represented.
- `Ledger.Ledger.Navigate`: the 'profile' screen of types.ts has no button in App.tsx, so no handler leads to it.
- Clock and time zone: `Date.now()` ids, today's date and the current month are parameters. The local-versus-UTC reading of `YYYY-MM-DD` is not modelled.
- `Report.DailyData`: uses the chronological sort (see Findings), not the label sort as written. The label sort is modelled as `DailySeriesAsWritten`.
- `Report.LabelKey`: models `localeCompare` on two zero-padded `MM/DD` labels as their numeric (month, day) order. Locale collation rules are not modelled.
- Object key order: `Object.entries`/`Object.values` list integer-like keys first, in numeric order. The model uses insertion order throughout. For dates this is exact, since they are never integer-like. A category named like a number would be listed earlier by JavaScript.
- CSV output: the `Blob`, the byte-order mark, the file name and the download link are left out.
- The text of a number in the CSV is the parameter `amountText`.
- `ReportCsv.ExportReadsBack`: requires every record's category and amount text to be free of ',', '"' and line breaks. These two fields are written unquoted by the code, so with such characters the file does not read back.
- Budget division by zero is modelled exactly (Infinity/NaN), but the rounded percentage label is not.

## Findings

| source | as written | input that shows it | evidently intended | confidence | as-written member | corrected member |
|---|---|---|---|---|---|---|
| components/Report.tsx:72 | the daily buckets are sorted by their `MM/DD` label, which has no year, then the last seven are kept | with the 'all' time filter, one record dated 2024-12-31 and one dated 2025-01-01: the chart draws 01/01 before 12/31, and with eight or more days across a new year `slice(-7)` can drop the latest days | buckets in calendar order, keeping the seven latest days with records | not executed | Report.DailySeriesMisorders | Report.DailySeriesIsChronological |
