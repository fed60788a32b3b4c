# Personal finance dashboard: entry store and aggregates

This project models the bookkeeping core of a single-page personal finance dashboard.

- **Entry construction.** The sidebar form collects a month, a year, a monthly income and six expense amounts: rent/mortgage, utilities, groceries, transportation, entertainment and others. Pressing "Add Entry" builds a `FinancialEntry`. Its total expenses are the sum of the six categories. Its savings are the income less that total.
- **The entry store.** The `financial_entries` table only grows. Each submission appends one record for the current user.
- **The per-user query.** `load_data(user)` keeps that user's records. It turns each one into a table row whose Month cell is `"<month> <year>"`.
- **The aggregates.** The overview shows total income, total expenses and total savings. The expense breakdown sums each of the six categories. Progress toward a savings goal is the savings as a percentage of the goal, capped at 100, and 0 when the goal is 0.

Modules:

- `decimal.dfy` (`Decimal`): how Python writes an `int` in decimal, with the parse that recovers it.
- `entries.dfy` (`Entries`): the form values, the widget bounds, the stored entry, the six categories and `MakeEntry`.
- `store.dfy` (`Store`): the table row, its columns, the query `LoadRows` (the filter `EntriesOf` followed by the row mapping `ToRows`), and the class `EntryStore`. `EntryStore` holds the table as a `seq<Entry>` and appends to it with `Add`.
- `aggregates.dfy` (`Aggregates`): column sums, the overview, the category breakdown, savings-goal progress and the progress-bar value.

Amounts are unbounded integers. The form widgets are integer-valued with a minimum of 0. The widget bounds are the predicate `WidgetBounds`, which `Add` requires: a month from the twelve-name selector, a year from 2000 to 2100, and no negative amount. `MakeEntry` has no precondition, just as the code computes the derived fields without any check. Savings may be negative. The progress percentage is a `real`.

Two things the code does not do, which the model follows:

- `add_entry` validates nothing before it adds a record: it neither rejects negative amounts nor checks the derived fields. Non-negativity comes only from the widgets, so it is a precondition of `Add`. The derived-field invariant follows from how `MakeEntry` builds entries, and the store keeps it as the invariant `Store.EntryStore.Valid`. Nothing checks it.
- The query in `load_data` has no `order_by`, so the code promises no order of the rows. `LoadRows` returns the rows in store order because a sequence needs some order. The properties about the user's rows and about the aggregates are stated on multisets or on order-independent sums (`EntriesOfMultiset`, `AddThenLoad`, `ColumnSumPermutation`, `OverviewOrderIndependent`). `EntriesOfAppend`, `LoadRowsAppend` and the last clause of `AddThenLoad` are sequence equalities: they are facts about the model's chosen store order, not promises of the query.

## Model

| member | source | states |
|---|---|---|
| `Decimal.IntToString` | finance_dashboard.py:66 | the year is written as a decimal numeral that contains no space: a minus sign exactly when the year is negative, then at least one digit with no leading zero |
| `Decimal.ParseIntToString` | finance_dashboard.py:66 | writing a year in decimal loses nothing: parsing the numeral gives the year back |
| `Decimal.IntToStringInjective` | finance_dashboard.py:66 | different years never give the same numeral |
| `Entries.WidgetBounds` | finance_dashboard.py:24-37 | what the sidebar widgets let through: a month from the twelve-name selector, a year from 2000 to 2100, and amounts of at least 0 |
| `Entries.MakeEntry` | finance_dashboard.py:40-55 | the built entry keeps the derived-field invariant (total is the sum of the six categories, savings is income less total), carries the given user and date, and carries exactly the form's values |
| `Entries.ConsistentIffMade` | finance_dashboard.py:40-41 | an entry keeps the derived-field invariant exactly when it equals the entry built from its own user, form values and date, so the derived fields leave no freedom |
| `Entries.MadeEntryBounds` | finance_dashboard.py:28-41 | with the widgets' bounds, the total expenses are non-negative, every single category lies between 0 and the total, and savings never exceed income |
| `Entries.SavingsCanBeNegative` | finance_dashboard.py:29-41 | a form the widgets accept (income 1000, rent 1500) gives savings of -500, so nothing forces income to cover expenses |
| `Entries.DefaultFormEntry` | finance_dashboard.py:29-41 | the widgets' default values give total expenses 2650 and savings 2350 |
| `Store.MonthLabel` | finance_dashboard.py:66 | the Month cell starts with the month, then one space, then a numeral that parses back to the year |
| `Store.MonthNamesHaveNoSpace` | finance_dashboard.py:24-27 | no month name the selector offers contains a space |
| `Store.MonthLabelInjective` | finance_dashboard.py:66 | for space-free month names, equal Month cells mean equal months and equal years |
| `Store.ToRow` | finance_dashboard.py:65-77 | the dict built for one record: the Month label and the amounts and timestamp carried over; its properties are stated by `Store.ToRowInvariant` |
| `Store.ToRowInvariant` | finance_dashboard.py:65-77 | a row keeps the row-level invariant exactly when its entry keeps the entry-level one, a well-formed entry gives a row with no negative amount, and each category cell is the entry's amount for that category |
| `Store.EntriesOf` | finance_dashboard.py:64 | the filter keeps every stored entry of `user` and only entries of `user`, and never more entries than are stored |
| `Store.ToRows` | finance_dashboard.py:65-77 | the list comprehension gives one row per kept record: the k-th row is the row of the k-th record |
| `Store.LoadRows` | finance_dashboard.py:63-78 | `load_data(user)`: the rows of the filtered records, never more rows than records stored; its other properties are the `LoadRows…` lemmas below |
| `Store.EntriesOfMultiset` | finance_dashboard.py:64 | the filter keeps each entry of `user` exactly as many times as it is stored, and no entry of any other user |
| `Store.EntriesOfAppend` | finance_dashboard.py:56-64 | filtering by user distributes over appending to the store, in the model's store order |
| `Store.LoadRowsOnlyUser` | finance_dashboard.py:64-77 | every row of `load_data(user)` is the row of a stored entry whose user is `user` |
| `Store.LoadRowsAllOfUser` | finance_dashboard.py:64-77 | every stored entry of `user` appears as a row of `load_data(user)` |
| `Store.LoadRowsEmpty` | finance_dashboard.py:64-77 | a user with no stored entries gets no rows, and no error |
| `Store.LoadRowsAppend` | finance_dashboard.py:56-77 | the query over a store with entries appended is the query over the old store followed by the query over the new entries, in the model's store order |
| `Store.AddThenLoad` | finance_dashboard.py:56-77 | after appending an entry, its user's rows are the old rows plus exactly the entry's row (as a multiset), and every other user's rows are unchanged (as a multiset, and also in the model's store order) |
| `Store.WellFormedRows` | finance_dashboard.py:40-77 | a store of well-formed entries yields rows that keep the invariant and have no negative amount |
| `Store.EntryStore.constructor` | finance_dashboard.py:9-10 | a newly created table is empty and valid |
| `Store.EntryStore.Add` | finance_dashboard.py:39-57 | the store grows by exactly one record, built by `MakeEntry` for the given user and form values; earlier records are unchanged; a valid store stays valid |
| `Store.EntryStore.LoadData` | finance_dashboard.py:63-78 | querying a valid store yields rows that keep the invariant and have no negative amount |
| `Aggregates.ColumnSum` | finance_dashboard.py:85-87 | the sum of a column is 0 for no rows and non-negative when every cell is |
| `Aggregates.ColumnSumAppend` | finance_dashboard.py:85-87 | the sum over two blocks of rows is the sum of the two sums |
| `Aggregates.ColumnSumPermutation` | finance_dashboard.py:85-87 | rows with the same elements in any order give the same column sum |
| `Aggregates.SavingsBalance` | finance_dashboard.py:85-87 | when every row keeps the invariant, the sum of savings is the sum of income less the sum of total expenses |
| `Aggregates.ComputeOverview` | finance_dashboard.py:85-87 | the three totals are the sums of the Income, Total Expenses and Savings columns; with balanced rows, total savings equal total income less total expenses; with non-negative rows, income and expense totals are non-negative |
| `Aggregates.OverviewOrderIndependent` | finance_dashboard.py:85-87 | the overview does not depend on the order in which the query returns the rows |
| `Aggregates.CategoriesSumToTotal` | finance_dashboard.py:96-97 | when every row keeps the invariant, the six category sums add up to the summed total expenses |
| `Aggregates.CategoryWithinTotal` | finance_dashboard.py:96-97 | with balanced, non-negative rows, each category's sum lies between 0 and the summed total expenses |
| `Aggregates.ExpenseBreakdown` | finance_dashboard.py:96-98 | one (header, sum) pair per category in the dashboard's order; the amounts add up to the six category sums, and so to the total expenses when the rows are balanced |
| `Aggregates.SavingsProgress` | finance_dashboard.py:130-131 | progress is 0 for a goal that is not positive (no division), never exceeds 100, is non-negative for non-negative savings, is 100 exactly when savings reach the goal, and otherwise is savings/goal*100 |
| `Aggregates.ProgressMonotone` | finance_dashboard.py:130-131 | more savings never give less progress toward the same goal |
| `Aggregates.AddRaisesColumnSum` | finance_dashboard.py:56-87 | appending an entry raises its user's column sum by the entry's own value and leaves other users' sums unchanged |
| `Aggregates.TwoEntriesIncome` | finance_dashboard.py:85 | two entries of one user, say for two months, give a total income equal to the sum of their incomes |
| `Aggregates.Truncate` | finance_dashboard.py:134 | `int()` truncates toward zero: the result is within 1 of the input, on the input's side of zero |
| `Aggregates.ProgressBarAsWritten` | finance_dashboard.py:134 | the bar value as written is at most 100 and non-negative for non-negative savings |
| `Aggregates.NegativeSavingsLeaveBarRange` | finance_dashboard.py:127-134 | one accepted entry with income 0 and rent 10000, with a goal of 10000, gives the bar the value -100 |
| `Aggregates.ProgressBarValue` | finance_dashboard.py:134 | the corrected bar value always lies between 0 and 100, equals the written value for non-negative savings, and is 100 exactly when savings reach a positive goal |

## Findings

| source | as written | input that shows it | evidently intended | confidence | as-written member | corrected member |
|---|---|---|---|---|---|---|
| finance_dashboard.py:130-134 | progress is capped at 100 but has no lower bound, and `int(progress)` goes straight to the progress bar, which accepts only 0 to 100 | one entry with income 0 and rent 10000 (savings -10000), goal 10000: progress -100.0, bar value -100 | clamp progress at 0 as well, so a negative total of savings shows an empty bar | medium, not executed; rests on the progress bar rejecting integers outside 0 to 100 | `Aggregates.NegativeSavingsLeaveBarRange` (about `Aggregates.ProgressBarAsWritten`) | `Aggregates.ProgressBarValue` |

## Left out

- Streamlit widgets, the sidebar, success and info messages, and the gating on an empty dataframe: these are user interface. The widgets' bounds are kept as the precondition `WidgetBounds`.
- Plotly pie, bar and line charts: rendering through an external library.
- Currency formatting (`:,.2f`) of the totals and the goal: display only.
- CSV export through pandas: serialisation and I/O. `Store.Header` gives the headers of the nine numeric columns only; the Month and Timestamp headers and the column order of the export are not modelled.
- SQLite engine and session creation, schema creation and commit durability are not modelled. Commit is modelled as the append in `Store.EntryStore.Add`. `Store.EntryStore.constructor` starts from an empty table, whereas the program may open a file that already holds records.
- Floating-point storage of amounts in `Float` columns, and float rounding in sums and in the progress division: amounts are exact integers and progress is an exact real.
- The record `id` assigned by the database is not modelled. The `timestamp` from the clock is an opaque `Date` passed in by the caller.
- The current user is a parameter of `Add` and of the query. `Store.CurrentUser` holds the fixed name the program uses.
- The query promises no row order; the model returns rows in store order because a sequence needs some order. `EntriesOfAppend`, `LoadRowsAppend` and the last clause of `AddThenLoad` rely on that order; the other properties of the query and of the aggregates do not.
