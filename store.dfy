/** The entry store and the per-user query: `session.add`/`commit` append a record,
    and `load_data(user)` keeps that user's records and turns each into a table row. */
module Store {
  import opened Entries
  import Decimal

  /** The user the dashboard runs for until authentication exists. */
  const CurrentUser: string := "G.A."

  predicate NoSpace(s: string) {
    forall k :: 0 <= k < |s| ==> s[k] != ' '
  }

  /** The "Month" cell of a row: the month name, one space, then the year in decimal. */
  function MonthLabel(month: string, year: int): (text: string)
    ensures |text| > |month| + 1
    ensures text[..|month|] == month && text[|month|] == ' '
    ensures Decimal.IsNumeral(text[|month| + 1..])
    ensures Decimal.ParseInt(text[|month| + 1..]) == year
  {
    Decimal.ParseIntToString(year);
    var text := month + " " + Decimal.IntToString(year);
    assert text[|month| + 1..] == Decimal.IntToString(year);
    text
  }

  /** None of the selector's month names contains a space. */
  lemma MonthNamesHaveNoSpace()
    ensures forall m :: m in MonthNames ==> NoSpace(m)
  {
  }

  /** For space-free month names the label is unambiguous: it determines both the
      month and the year. */
  lemma MonthLabelInjective(m1: string, y1: int, m2: string, y2: int)
    requires NoSpace(m1) && NoSpace(m2)
    requires MonthLabel(m1, y1) == MonthLabel(m2, y2)
    ensures m1 == m2 && y1 == y2
  {
  }

  /** One row of the dashboard's table, with the columns `load_data` builds. */
  datatype Row = Row(
    month: string,
    income: int,
    rent: int,
    utilities: int,
    groceries: int,
    transportation: int,
    entertainment: int,
    others: int,
    totalExpenses: int,
    savings: int,
    timestamp: Date)

  /** The numeric columns of the table. */
  datatype Column = IncomeColumn | ExpenseColumn(category: Category) | TotalExpensesColumn | SavingsColumn

  /** The column headers, as the table and its CSV export name them. */
  function Header(c: Column): string {
    match c
    case IncomeColumn => "Income"
    case ExpenseColumn(Rent) => "Rent/Mortgage"
    case ExpenseColumn(Utilities) => "Utilities"
    case ExpenseColumn(Groceries) => "Groceries"
    case ExpenseColumn(Transportation) => "Transportation"
    case ExpenseColumn(Entertainment) => "Entertainment"
    case ExpenseColumn(Others) => "Others"
    case TotalExpensesColumn => "Total Expenses"
    case SavingsColumn => "Savings"
  }

  function Cell(r: Row, c: Column): int {
    match c
    case IncomeColumn => r.income
    case ExpenseColumn(Rent) => r.rent
    case ExpenseColumn(Utilities) => r.utilities
    case ExpenseColumn(Groceries) => r.groceries
    case ExpenseColumn(Transportation) => r.transportation
    case ExpenseColumn(Entertainment) => r.entertainment
    case ExpenseColumn(Others) => r.others
    case TotalExpensesColumn => r.totalExpenses
    case SavingsColumn => r.savings
  }

  /** The row-level form of the derived-field invariant. */
  predicate Balanced(r: Row) {
    && r.totalExpenses == r.rent + r.utilities + r.groceries + r.transportation + r.entertainment + r.others
    && r.savings == r.income - r.totalExpenses
  }

  /** Every column except Savings is non-negative. */
  predicate NonNegative(r: Row) {
    && r.income >= 0 && r.rent >= 0 && r.utilities >= 0 && r.groceries >= 0
    && r.transportation >= 0 && r.entertainment >= 0 && r.others >= 0 && r.totalExpenses >= 0
  }

  predicate AllBalanced(rows: seq<Row>) {
    forall k :: 0 <= k < |rows| ==> Balanced(rows[k])
  }

  predicate AllNonNegative(rows: seq<Row>) {
    forall k :: 0 <= k < |rows| ==> NonNegative(rows[k])
  }

  /** The row `load_data` makes of one entry: the amounts carried over unchanged and
      the month and year joined into one label. */
  function ToRow(e: Entry): Row {
    Row(MonthLabel(e.month, e.year), e.income, e.rent, e.utilities, e.groceries, e.transportation,
        e.entertainment, e.others, e.totalExpenses, e.savings, e.timestamp)
  }

  /** A row keeps the row-level invariant exactly when its entry keeps the entry-level
      one, and an entry from the form gives a row with no negative amount. */
  lemma ToRowInvariant(e: Entry)
    ensures Balanced(ToRow(e)) <==> Consistent(e)
    ensures WellFormed(e) ==> NonNegative(ToRow(e))
    ensures forall c :: Cell(ToRow(e), ExpenseColumn(c)) == Amount(e, c)
  {
  }

  /** The query `filter(FinancialEntry.user == user).all()`: the stored entries of
      `user`. Each of them is kept and nothing else is. */
  function EntriesOf(es: seq<Entry>, user: string): (mine: seq<Entry>)
    ensures |mine| <= |es|
    ensures forall e :: e in mine ==> e in es && e.user == user
    ensures forall e :: e in es && e.user == user ==> e in mine
  {
    if es == [] then []
    else if es[0].user == user then [es[0]] + EntriesOf(es[1..], user)
    else EntriesOf(es[1..], user)
  }

  /** The query keeps every entry of `user` as often as it is stored, and no entry of
      any other user: one row per stored entry of `user`, none for anyone else. */
  lemma {:induction false} EntriesOfMultiset(es: seq<Entry>, user: string)
    ensures forall e :: multiset(EntriesOf(es, user))[e] == if e.user == user then multiset(es)[e] else 0
  {
    if es != [] {
      EntriesOfMultiset(es[1..], user);
      assert es == [es[0]] + es[1..];
      assert multiset(es) == multiset{es[0]} + multiset(es[1..]);
    }
  }

  /** Filtering distributes over appending entries to the store. This is a fact about
      the model's store order, which the query itself does not promise. */
  lemma {:induction false} EntriesOfAppend(a: seq<Entry>, b: seq<Entry>, user: string)
    ensures EntriesOf(a + b, user) == EntriesOf(a, user) + EntriesOf(b, user)
  {
    if a == [] {
      assert a + b == b;
    } else {
      assert (a + b)[0] == a[0] && (a + b)[1..] == a[1..] + b;
      EntriesOfAppend(a[1..], b, user);
    }
  }

  /** The list comprehension of `load_data`: one row per entry, in the same order. */
  function ToRows(mine: seq<Entry>): (rows: seq<Row>)
    ensures |rows| == |mine| && forall k :: 0 <= k < |rows| ==> rows[k] == ToRow(mine[k])
  {
    seq(|mine|, k requires 0 <= k < |mine| => ToRow(mine[k]))
  }

  /** `load_data(user)`: the rows of the stored entries of `user`. */
  function LoadRows(es: seq<Entry>, user: string): (rows: seq<Row>)
    ensures |rows| <= |es|
  {
    ToRows(EntriesOf(es, user))
  }

  /** `r` is the row of some stored entry of `user`. */
  predicate IsRowOfUser(es: seq<Entry>, user: string, r: Row) {
    exists e :: e in es && e.user == user && r == ToRow(e)
  }

  /** Only the user's rows: every row of the query is the row of a stored entry of
      `user`. */
  lemma LoadRowsOnlyUser(es: seq<Entry>, user: string)
    ensures forall k :: 0 <= k < |LoadRows(es, user)| ==> IsRowOfUser(es, user, LoadRows(es, user)[k])
  {
    var mine := EntriesOf(es, user);
    forall k | 0 <= k < |LoadRows(es, user)|
      ensures IsRowOfUser(es, user, LoadRows(es, user)[k])
    {
      assert mine[k] in mine;
    }
  }

  /** All the user's rows: every stored entry of `user` gives a row of the query. */
  lemma LoadRowsAllOfUser(es: seq<Entry>, user: string, e: Entry)
    requires e in es && e.user == user
    ensures ToRow(e) in LoadRows(es, user)
  {
    var mine := EntriesOf(es, user);
    var j :| 0 <= j < |mine| && mine[j] == e;
    assert LoadRows(es, user)[j] == ToRow(e);
  }

  /** A user with no stored entries gets no rows, and no error. */
  lemma {:induction false} LoadRowsEmpty(es: seq<Entry>, user: string)
    requires forall e :: e in es ==> e.user != user
    ensures LoadRows(es, user) == []
  {
    if es != [] {
      assert es[0] in es;
      assert forall e :: e in es[1..] ==> e in es;
      LoadRowsEmpty(es[1..], user);
    }
  }

  /** A store holding one entry yields that entry's row for its user. */
  lemma SingleEntryRows(e: Entry)
    ensures LoadRows([e], e.user) == [ToRow(e)]
  {
    assert [e][1..] == [];
    assert EntriesOf([e], e.user) == [e];
  }

  /** The query over appended entries is the two queries one after the other, in the
      model's store order (the query itself promises no order). */
  lemma LoadRowsAppend(a: seq<Entry>, b: seq<Entry>, user: string)
    ensures LoadRows(a + b, user) == LoadRows(a, user) + LoadRows(b, user)
  {
    EntriesOfAppend(a, b, user);
    ToRowsAppend(EntriesOf(a, user), EntriesOf(b, user));
  }

  lemma ToRowsAppend(x: seq<Entry>, y: seq<Entry>)
    ensures ToRows(x + y) == ToRows(x) + ToRows(y)
  {
    var lhs, rhs := ToRows(x + y), ToRows(x) + ToRows(y);
    forall k | 0 <= k < |lhs|
      ensures lhs[k] == rhs[k]
    {
      if k < |x| {
        assert (x + y)[k] == x[k];
      } else {
        assert (x + y)[k] == y[k - |x|];
      }
    }
  }

  /** Adding an entry for `e.user` adds exactly its row to that user's query, and
      leaves every other user's query as it was. Stated on multisets, because the
      query promises no order; the last clause also holds in the model's store order. */
  lemma AddThenLoad(es: seq<Entry>, e: Entry, user: string)
    ensures user == e.user ==>
      multiset(LoadRows(es + [e], user)) == multiset(LoadRows(es, user)) + multiset{ToRow(e)}
    ensures user != e.user ==> multiset(LoadRows(es + [e], user)) == multiset(LoadRows(es, user))
    ensures user != e.user ==> LoadRows(es + [e], user) == LoadRows(es, user)
  {
    LoadRowsAppend(es, [e], user);
    assert [e][1..] == [];
    if user == e.user {
      SingleEntryRows(e);
    } else {
      assert LoadRows([e], user) == [];
    }
  }

  /** A store of well-formed entries yields balanced, non-negative rows. */
  lemma WellFormedRows(es: seq<Entry>, user: string)
    requires forall e :: e in es ==> WellFormed(e)
    ensures AllBalanced(LoadRows(es, user)) && AllNonNegative(LoadRows(es, user))
  {
    var mine := EntriesOf(es, user);
    forall k | 0 <= k < |mine|
      ensures Balanced(ToRow(mine[k])) && NonNegative(ToRow(mine[k]))
    {
      assert mine[k] in mine;
      ToRowInvariant(mine[k]);
    }
  }

  /** The `financial_entries` table as the session sees it: records are appended and
      never changed or removed. */
  class EntryStore {
    var entries: seq<Entry>

    /** Every stored record came from the form with consistent derived fields. */
    predicate Valid()
      reads this
    {
      forall e :: e in entries ==> WellFormed(e)
    }

    constructor ()
      ensures entries == [] && Valid()
    {
      entries := [];
    }

    /** `add_entry` after "Add Entry": build the record for `user` from the form and
      append it. The store grows by exactly that record; earlier records are untouched. */
    method Add(user: string, f: Form, today: Date)
      requires WidgetBounds(f)
      modifies this
      ensures entries == old(entries) + [MakeEntry(user, f, today)]
      ensures |entries| == |old(entries)| + 1 && entries[..|old(entries)|] == old(entries)
      ensures entries[|old(entries)|].user == user && FormOf(entries[|old(entries)|]) == f
      ensures old(Valid()) ==> Valid()
    {
      var e := MakeEntry(user, f, today);
      MadeEntryBounds(user, f, today);
      entries := entries + [e];
    }

    /** `load_data(user)` over the current contents of the store. */
    function LoadData(user: string): (rows: seq<Row>)
      reads this
      ensures Valid() ==> AllBalanced(rows) && AllNonNegative(rows)
    {
      assert Valid() ==> AllBalanced(LoadRows(entries, user)) && AllNonNegative(LoadRows(entries, user)) by {
        if Valid() {
          WellFormedRows(entries, user);
        }
      }
      LoadRows(entries, user)
    }
  }
}
