/** One monthly financial entry: what the sidebar form collects, and the record
    `add_entry` builds from it for the `financial_entries` table. */
module Entries {

  /** The creation date the table stamps on a record; it comes from the clock,
      so the model treats it as an opaque value handed in by the caller. */
  datatype Date = Date(year: int, month: int, day: int)

  /** The options of the sidebar's month selector. */
  const MonthNames: seq<string> := [
    "January", "February", "March", "April", "May", "June",
    "July", "August", "September", "October", "November", "December"
  ]

  /** The values the sidebar form hands to `add_entry`. */
  datatype Form = Form(
    month: string,
    year: int,
    income: int,
    rent: int,
    utilities: int,
    groceries: int,
    transportation: int,
    entertainment: int,
    others: int)

  /** What the form widgets allow: a month from the selector, a year between 2000 and
      2100, and every amount at least 0 (`min_value=0`). */
  predicate WidgetBounds(f: Form) {
    && f.month in MonthNames
    && 2000 <= f.year <= 2100
    && f.income >= 0
    && f.rent >= 0
    && f.utilities >= 0
    && f.groceries >= 0
    && f.transportation >= 0
    && f.entertainment >= 0
    && f.others >= 0
  }

  /** A stored `FinancialEntry` (the database id is not modelled). */
  datatype Entry = Entry(
    user: string,
    month: string,
    year: int,
    income: int,
    rent: int,
    utilities: int,
    groceries: int,
    transportation: int,
    entertainment: int,
    others: int,
    totalExpenses: int,
    savings: int,
    timestamp: Date)

  /** The six fixed expense categories, in the order the dashboard lists them. */
  datatype Category = Rent | Utilities | Groceries | Transportation | Entertainment | Others

  const Categories: seq<Category> := [Rent, Utilities, Groceries, Transportation, Entertainment, Others]

  function Amount(e: Entry, c: Category): int {
    match c
    case Rent => e.rent
    case Utilities => e.utilities
    case Groceries => e.groceries
    case Transportation => e.transportation
    case Entertainment => e.entertainment
    case Others => e.others
  }

  /** The derived fields agree with the entered ones: the total is the sum of the six
      categories and the savings are the income less that total. */
  predicate Consistent(e: Entry) {
    && e.totalExpenses == e.rent + e.utilities + e.groceries + e.transportation + e.entertainment + e.others
    && e.savings == e.income - e.totalExpenses
  }

  /** The part of an entry that the user typed into the form. */
  function FormOf(e: Entry): Form {
    Form(e.month, e.year, e.income, e.rent, e.utilities, e.groceries, e.transportation, e.entertainment, e.others)
  }

  /** An entry that came from the form and was stored with consistent derived fields. */
  predicate WellFormed(e: Entry) {
    Consistent(e) && WidgetBounds(FormOf(e))
  }

  /** The record `add_entry` builds for `user` when "Add Entry" is pressed: the form's
      values, the derived total and savings, and the creation date. */
  function MakeEntry(user: string, f: Form, today: Date): (e: Entry)
    ensures Consistent(e)
    ensures e.user == user && FormOf(e) == f && e.timestamp == today
  {
    var total := f.rent + f.utilities + f.groceries + f.transportation + f.entertainment + f.others;
    Entry(user, f.month, f.year, f.income, f.rent, f.utilities, f.groceries, f.transportation,
          f.entertainment, f.others, total, f.income - total, today)
  }

  /** The derived fields leave no freedom: an entry is consistent exactly when it is
      the one `MakeEntry` builds from its own user, form values and date. */
  lemma ConsistentIffMade(e: Entry)
    ensures Consistent(e) <==> e == MakeEntry(e.user, FormOf(e), e.timestamp)
  {
  }

  /** With the widgets' non-negative amounts, the total is non-negative, bounds every
      single category, and the savings never exceed the income. */
  lemma MadeEntryBounds(user: string, f: Form, today: Date)
    requires WidgetBounds(f)
    ensures var e := MakeEntry(user, f, today);
      && WellFormed(e)
      && e.totalExpenses >= 0
      && (forall c :: 0 <= Amount(e, c) <= e.totalExpenses)
      && e.savings <= e.income
  {
  }

  /** Nothing requires income to cover the expenses: the savings of a form the widgets
      accept can be negative. */
  lemma SavingsCanBeNegative(today: Date)
    ensures var f := Form("March", 2024, 1000, 1500, 0, 0, 0, 0, 0);
      WidgetBounds(f) && MakeEntry("G.A.", f, today).savings == -500
  {
  }

  /** The widgets' default values: income 5000 and expenses 1500, 300, 400, 200, 150
      and 100 give a total of 2650 and savings of 2350. */
  lemma DefaultFormEntry(user: string, today: Date)
    ensures var e := MakeEntry(user, Form("January", 2024, 5000, 1500, 300, 400, 200, 150, 100), today);
      e.totalExpenses == 2650 && e.savings == 2350
  {
  }
}
