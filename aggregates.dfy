/** The dashboard's aggregates over the rows of `load_data`: the overview totals, the
    per-category expense breakdown, and progress toward the savings goal. */
module Aggregates {
  import opened Entries
  import opened Store

  /** `df[column].sum()`: the sum of one column over the rows (0 for no rows). */
  function ColumnSum(rows: seq<Row>, c: Column): (s: int)
    ensures (forall k :: 0 <= k < |rows| ==> Cell(rows[k], c) >= 0) ==> s >= 0
  {
    if rows == [] then 0 else Cell(rows[0], c) + ColumnSum(rows[1..], c)
  }

  lemma {:induction false} ColumnSumAppend(a: seq<Row>, b: seq<Row>, c: Column)
    ensures ColumnSum(a + b, c) == ColumnSum(a, c) + ColumnSum(b, c)
  {
    if a == [] {
      assert a + b == b;
    } else {
      assert (a + b)[1..] == a[1..] + b;
      ColumnSumAppend(a[1..], b, c);
    }
  }

  /** Taking one row out of the sum leaves the sum of the other rows. */
  lemma ColumnSumRemove(b: seq<Row>, j: nat, c: Column)
    requires j < |b|
    ensures ColumnSum(b, c) == Cell(b[j], c) + ColumnSum(b[..j] + b[j + 1..], c)
  {
    assert b == b[..j] + ([b[j]] + b[j + 1..]);
    ColumnSumAppend(b[..j], [b[j]] + b[j + 1..], c);
    assert ([b[j]] + b[j + 1..])[1..] == b[j + 1..];
    ColumnSumAppend(b[..j], b[j + 1..], c);
  }

  /** Removing the same element from the front of one sequence and from anywhere in
      another with the same elements leaves sequences with the same elements. */
  lemma RemoveMatching<T>(a: seq<T>, b: seq<T>, j: nat)
    requires multiset(a) == multiset(b) && a != [] && j < |b| && b[j] == a[0]
    ensures multiset(a[1..]) == multiset(b[..j] + b[j + 1..])
  {
    assert a == [a[0]] + a[1..];
    assert b == b[..j] + [b[j]] + b[j + 1..];
    assert multiset(a[1..]) == multiset(a) - multiset{a[0]};
    assert multiset(b[..j] + b[j + 1..]) == multiset(b) - multiset{b[j]};
  }

  /** A column sum does not depend on the order of the rows, so the order in which
      the query returns them does not matter to any aggregate. */
  lemma {:induction false} ColumnSumPermutation(a: seq<Row>, b: seq<Row>, c: Column)
    requires multiset(a) == multiset(b)
    ensures ColumnSum(a, c) == ColumnSum(b, c)
  {
    if a != [] {
      assert a[0] in multiset(b);
      var j :| 0 <= j < |b| && b[j] == a[0];
      var others := b[..j] + b[j + 1..];
      RemoveMatching(a, b, j);
      ColumnSumPermutation(a[1..], others, c);
      ColumnSumRemove(b, j, c);
    }
  }

  /** Summed over the rows, savings are income less expenses, as they are in each row. */
  lemma {:induction false} SavingsBalance(rows: seq<Row>)
    requires AllBalanced(rows)
    ensures ColumnSum(rows, SavingsColumn) == ColumnSum(rows, IncomeColumn) - ColumnSum(rows, TotalExpensesColumn)
  {
    if rows != [] {
      assert Balanced(rows[0]);
      assert AllBalanced(rows[1..]) by {
        forall k | 0 <= k < |rows[1..]| ensures Balanced(rows[1..][k]) {
          assert rows[1..][k] == rows[k + 1];
        }
      }
      SavingsBalance(rows[1..]);
    }
  }

  /** The three figures of the dashboard's overview. */
  datatype Overview = Overview(totalIncome: int, totalExpenses: int, totalSavings: int)

  /** The overview: the sums of the Income, Total Expenses and Savings columns. When
      every row keeps the derived-field invariant, total savings are total income less
      total expenses. */
  function ComputeOverview(rows: seq<Row>): (o: Overview)
    ensures o.totalIncome == ColumnSum(rows, IncomeColumn)
    ensures o.totalExpenses == ColumnSum(rows, TotalExpensesColumn)
    ensures o.totalSavings == ColumnSum(rows, SavingsColumn)
    ensures AllBalanced(rows) ==> o.totalSavings == o.totalIncome - o.totalExpenses
    ensures AllNonNegative(rows) ==> o.totalIncome >= 0 && o.totalExpenses >= 0
  {
    assert AllBalanced(rows) ==>
      (ColumnSum(rows, SavingsColumn) == ColumnSum(rows, IncomeColumn) - ColumnSum(rows, TotalExpensesColumn)) by {
      if AllBalanced(rows) {
        SavingsBalance(rows);
      }
    }
    Overview(ColumnSum(rows, IncomeColumn), ColumnSum(rows, TotalExpensesColumn), ColumnSum(rows, SavingsColumn))
  }

  /** The overview is the same for any order of the same rows. */
  lemma OverviewOrderIndependent(a: seq<Row>, b: seq<Row>)
    requires multiset(a) == multiset(b)
    ensures ComputeOverview(a) == ComputeOverview(b)
  {
    ColumnSumPermutation(a, b, IncomeColumn);
    ColumnSumPermutation(a, b, TotalExpensesColumn);
    ColumnSumPermutation(a, b, SavingsColumn);
  }

  /** The sum of the six category columns over the rows. */
  function CategoriesSum(rows: seq<Row>): int {
    ColumnSum(rows, ExpenseColumn(Rent)) + ColumnSum(rows, ExpenseColumn(Utilities))
    + ColumnSum(rows, ExpenseColumn(Groceries)) + ColumnSum(rows, ExpenseColumn(Transportation))
    + ColumnSum(rows, ExpenseColumn(Entertainment)) + ColumnSum(rows, ExpenseColumn(Others))
  }

  /** The six category sums together are the total expenses summed over the rows. */
  lemma {:induction false} CategoriesSumToTotal(rows: seq<Row>)
    requires AllBalanced(rows)
    ensures CategoriesSum(rows) == ColumnSum(rows, TotalExpensesColumn)
  {
    if rows != [] {
      assert Balanced(rows[0]);
      assert AllBalanced(rows[1..]) by {
        forall k | 0 <= k < |rows[1..]| ensures Balanced(rows[1..][k]) {
          assert rows[1..][k] == rows[k + 1];
        }
      }
      CategoriesSumToTotal(rows[1..]);
    }
  }

  /** No single category sums to more than the total expenses. */
  lemma {:induction false} CategoryWithinTotal(rows: seq<Row>, cat: Category)
    requires AllBalanced(rows) && AllNonNegative(rows)
    ensures 0 <= ColumnSum(rows, ExpenseColumn(cat)) <= ColumnSum(rows, TotalExpensesColumn)
  {
    if rows != [] {
      assert Balanced(rows[0]) && NonNegative(rows[0]);
      assert AllBalanced(rows[1..]) && AllNonNegative(rows[1..]) by {
        forall k | 0 <= k < |rows[1..]| ensures Balanced(rows[1..][k]) && NonNegative(rows[1..][k]) {
          assert rows[1..][k] == rows[k + 1];
        }
      }
      CategoryWithinTotal(rows[1..], cat);
    }
  }

  /** The sum of the amounts of a breakdown. */
  function AmountSum(b: seq<(string, int)>): int {
    if b == [] then 0 else b[0].1 + AmountSum(b[1..])
  }

  /** `df[expense_categories].sum()`: one (category, amount) pair per expense category,
      in the dashboard's order; the amounts add up to the total expenses. */
  function ExpenseBreakdown(rows: seq<Row>): (b: seq<(string, int)>)
    ensures |b| == |Categories|
    ensures forall i :: 0 <= i < |b| ==>
      b[i] == (Header(ExpenseColumn(Categories[i])), ColumnSum(rows, ExpenseColumn(Categories[i])))
    ensures AmountSum(b) == CategoriesSum(rows)
    ensures AllBalanced(rows) ==> AmountSum(b) == ColumnSum(rows, TotalExpensesColumn)
  {
    var b := seq(|Categories|, i requires 0 <= i < |Categories| =>
      (Header(ExpenseColumn(Categories[i])), ColumnSum(rows, ExpenseColumn(Categories[i]))));
    assert AmountSum(b[5..]) == b[5].1 by { assert b[5..][1..] == []; }
    assert AmountSum(b[4..]) == b[4].1 + AmountSum(b[5..]) by { assert b[4..][1..] == b[5..]; }
    assert AmountSum(b[3..]) == b[3].1 + AmountSum(b[4..]) by { assert b[3..][1..] == b[4..]; }
    assert AmountSum(b[2..]) == b[2].1 + AmountSum(b[3..]) by { assert b[2..][1..] == b[3..]; }
    assert AmountSum(b[1..]) == b[1].1 + AmountSum(b[2..]) by { assert b[1..][1..] == b[2..]; }
    assert AllBalanced(rows) ==> CategoriesSum(rows) == ColumnSum(rows, TotalExpensesColumn) by {
      if AllBalanced(rows) {
        CategoriesSumToTotal(rows);
      }
    }
    b
  }

  /** Progress toward the savings goal, in percent: the current savings as a share of
      the goal, capped at 100, and 0 when the goal is not positive (no division). */
  function SavingsProgress(currentSavings: int, goal: int): (p: real)
    ensures goal <= 0 ==> p == 0.0
    ensures p <= 100.0
    ensures currentSavings >= 0 ==> p >= 0.0
    ensures goal > 0 ==> (p == 100.0 <==> currentSavings >= goal)
    ensures goal > 0 && currentSavings < goal ==> p * goal as real == 100.0 * currentSavings as real
  {
    var progress := if goal > 0 then (currentSavings as real / goal as real) * 100.0 else 0.0;
    if progress < 100.0 then progress else 100.0
  }

  /** More savings never mean less progress toward the same goal. */
  lemma ProgressMonotone(s1: int, s2: int, goal: int)
    requires s1 <= s2
    ensures SavingsProgress(s1, goal) <= SavingsProgress(s2, goal)
  {
    if goal > 0 {
      assert s1 as real / goal as real <= s2 as real / goal as real;
    }
  }

  /** Adding an entry for a user raises every column sum of that user's query by the
      entry's own value; other users' sums stay as they were. */
  lemma AddRaisesColumnSum(es: seq<Entry>, e: Entry, user: string, c: Column)
    ensures user == e.user ==>
      ColumnSum(LoadRows(es + [e], user), c) == ColumnSum(LoadRows(es, user), c) + Cell(ToRow(e), c)
    ensures user != e.user ==>
      ColumnSum(LoadRows(es + [e], user), c) == ColumnSum(LoadRows(es, user), c)
  {
    LoadRowsAppend(es, [e], user);
    assert [e][1..] == [];
    ColumnSumAppend(LoadRows(es, user), LoadRows([e], user), c);
  }

  /** Two entries of one user (say, for two months): the total income is the sum of
      their incomes. */
  lemma TwoEntriesIncome(e1: Entry, e2: Entry)
    requires e1.user == e2.user
    ensures ComputeOverview(LoadRows([e1, e2], e1.user)).totalIncome == e1.income + e2.income
  {
    var user := e1.user;
    AddRaisesColumnSum([e1], e2, user, IncomeColumn);
    assert [e1] + [e2] == [e1, e2];
    SingleEntryRows(e1);
    assert [ToRow(e1)][1..] == [];
    assert ColumnSum([ToRow(e1)], IncomeColumn) == e1.income;
  }

  /** Python's `int()` on a float: truncation toward zero. */
  function Truncate(x: real): (n: int)
    ensures x >= 0.0 ==> n as real <= x < n as real + 1.0
    ensures x < 0.0 ==> x <= n as real < x + 1.0
  {
    if x >= 0.0 then x.Floor else -((-x).Floor)
  }

  /** The value the dashboard hands to its progress bar, as written: the progress
      truncated to an integer, with no lower bound. */
  function ProgressBarAsWritten(currentSavings: int, goal: int): (v: int)
    ensures v <= 100
    ensures currentSavings >= 0 ==> v >= 0
  {
    Truncate(SavingsProgress(currentSavings, goal))
  }

  /** One entry whose expenses exceed its income by the goal: the bar is handed -100,
      outside the 0 to 100 the progress bar accepts. */
  lemma NegativeSavingsLeaveBarRange(today: Date)
    ensures var e := MakeEntry(CurrentUser, Form("January", 2024, 0, 10000, 0, 0, 0, 0, 0), today);
      var savings := ComputeOverview(LoadRows([e], CurrentUser)).totalSavings;
      WidgetBounds(FormOf(e)) && savings == -10000 && ProgressBarAsWritten(savings, 10000) == -100
  {
    var e := MakeEntry(CurrentUser, Form("January", 2024, 0, 10000, 0, 0, 0, 0, 0), today);
    SingleEntryRows(e);
    assert [ToRow(e)][1..] == [];
    assert e.savings == -10000;
    assert ColumnSum([ToRow(e)], SavingsColumn) == -10000;
    assert SavingsProgress(-10000, 10000) == -100.0;
  }

  /** The progress-bar value with the lower bound the bar needs: negative progress
      shows as an empty bar, otherwise the value is the one written. */
  function ProgressBarValue(currentSavings: int, goal: int): (v: int)
    ensures 0 <= v <= 100
    ensures currentSavings >= 0 ==> v == ProgressBarAsWritten(currentSavings, goal)
    ensures goal > 0 ==> (v == 100 <==> currentSavings >= goal)
  {
    var p := SavingsProgress(currentSavings, goal);
    if p < 0.0 then 0 else Truncate(p)
  }
}
