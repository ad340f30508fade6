/** The analytics page: the pie-chart data built from the stats' category
    objects, the yearly summary cards, the year selector and the colour of
    each pie slice. */
module AnalyticsPage {
  import opened Http
  import opened Ledger
  import opened StatsRoute
  import opened AnalyticsRoute
  import opened TransactionsPage

  /** One `{ name, value }` element of a pie chart. */
  datatype Slice = Slice(name: string, value: real)

  /** The number of years the selector offers. */
  const YEAR_CHOICES := 5

  const FALLBACK_COLOR := "#94a3b8"

  const CATEGORY_COLORS: map<string, string> := map[
    "Salary" := "#10b981",
    "Freelance" := "#3b82f6",
    "Business" := "#8b5cf6",
    "Investment" := "#f59e0b",
    "Bonus" := "#ec4899",
    "Gift" := "#14b8a6",
    "Food & Dining" := "#ef4444",
    "Rent" := "#f97316",
    "Transportation" := "#eab308",
    "Shopping" := "#06b6d4",
    "Entertainment" := "#8b5cf6",
    "Healthcare" := "#ec4899",
    "Education" := "#6366f1",
    "Utilities" := "#14b8a6",
    "Travel" := "#f43f5e",
    "Other" := "#64748b"
  ]

  /** `Object.entries(obj).map(([category, amount]) => ({ name: category, value: amount }))` */
  function Slices(table: CategoryTable): seq<Slice> {
    seq(|table|, i requires 0 <= i < |table| => Slice(table[i].category, table[i].amount))
  }

  /** `expensePieData`: empty when no stats are loaded. */
  function ExpensePieData(stats: Option<Snapshot>): (data: seq<Slice>)
    ensures stats.None? ==> data == []
  {
    if stats.Some? then Slices(stats.value.expensesByCategory) else []
  }

  /** `incomePieData`: empty when no stats are loaded. */
  function IncomePieData(stats: Option<Snapshot>): (data: seq<Slice>)
    ensures stats.None? ==> data == []
  {
    if stats.Some? then Slices(stats.value.incomeByCategory) else []
  }

  function Names(data: seq<Slice>): seq<string> {
    seq(|data|, i requires 0 <= i < |data| => data[i].name)
  }

  function SliceSum(data: seq<Slice>): real {
    if data == [] then 0.0 else SliceSum(data[..|data| - 1]) + data[|data| - 1].value
  }

  /** One slice per property, in the object's order, each carrying the
      amount the object maps its name to; the slices add up to the object's
      amounts. */
  lemma {:induction false} SlicesOfTable(table: CategoryTable)
    requires forall i, j :: 0 <= i < j < |table| ==> table[i].category != table[j].category
    ensures Names(Slices(table)) == Keys(table)
    ensures forall s :: s in Slices(table) ==> Lookup(table, s.name) == Some(s.value)
    ensures SliceSum(Slices(table)) == SumAmounts(table)
  {
    var data := Slices(table);
    forall s | s in data
      ensures Lookup(table, s.name) == Some(s.value)
    {
      var i :| 0 <= i < |data| && data[i] == s;
      var k := IndexOf(table, s.name);
      assert table[i].category == s.name;
      assert k == i;
    }
    if table != [] {
      SlicesOfTable(table[..|table| - 1]);
      assert data[..|data| - 1] == Slices(table[..|table| - 1]);
    }
  }

  /** For the month's snapshot: the expense pie has one slice per distinct
      expense category, in order of first occurrence, its slices add up to
      the month's expenses, and the "No expense data available" placeholder
      shows exactly when the month has no expense record. */
  lemma ExpensePieOfMonth(user: User, all: seq<Transaction>, monthly: seq<Transaction>)
    ensures var data := ExpensePieData(Some(SnapshotOf(user, all, monthly)));
      && Names(data) == Distinct(Categories(Filter(monthly, IsExpense)))
      && SliceSum(data) == Total(Filter(monthly, IsExpense))
      && (data == [] <==> forall t :: t in monthly ==> !IsExpense(t))
  {
    var table := Tally(monthly, IsExpense);
    assert SnapshotOf(user, all, monthly).expensesByCategory == table;
    TallyUnique(monthly, IsExpense);
    SlicesOfTable(table);
    TallyKeys(monthly, IsExpense);
    TallySum(monthly, IsExpense);
    FilterEmptyIff(monthly, IsExpense);
    NoCategoriesIff(Filter(monthly, IsExpense));
  }

  /** Likewise for the income pie, over every record of the month that is
      not an expense. */
  lemma IncomePieOfMonth(user: User, all: seq<Transaction>, monthly: seq<Transaction>)
    ensures var data := IncomePieData(Some(SnapshotOf(user, all, monthly)));
      && Names(data) == Distinct(Categories(Filter(monthly, NotExpense)))
      && SliceSum(data) == Total(Filter(monthly, NotExpense))
      && (data == [] <==> forall t :: t in monthly ==> !NotExpense(t))
  {
    var table := Tally(monthly, NotExpense);
    assert SnapshotOf(user, all, monthly).incomeByCategory == table;
    TallyUnique(monthly, NotExpense);
    SlicesOfTable(table);
    TallyKeys(monthly, NotExpense);
    TallySum(monthly, NotExpense);
    FilterEmptyIff(monthly, NotExpense);
    NoCategoriesIff(Filter(monthly, NotExpense));
  }

  /** The de-duplicated categories are empty exactly when there are no records. */
  lemma NoCategoriesIff(s: seq<Transaction>)
    ensures Distinct(Categories(s)) == [] <==> s == []
  {
    if s != [] {
      assert Categories(s)[0] in Distinct(Categories(s));
    }
  }

  datatype YearlySummary = YearlySummary(income: real, expenses: real, savings: real)

  /** The three summary cards: `yearlyTotals` summed over `monthlyData`. */
  function YearlyTotals(monthlyData: seq<Bucket>): (y: YearlySummary)
    ensures y.savings == y.income - y.expenses
  {
    var income := Sum(Incomes(monthlyData));
    var expenses := Sum(Expenses(monthlyData));
    YearlySummary(income, expenses, income - expenses)
  }

  /** The cards for a report of the analytics endpoint show the year's
      income-typed total, the total of every other record, and their
      difference. */
  lemma YearlyTotalsOfSeries(txs: seq<Transaction>)
    ensures YearlyTotals(MonthlySeries(txs)) ==
      YearlySummary(Total(Filter(txs, IsIncome)), Total(Filter(txs, NotIncome)),
        Total(Filter(txs, IsIncome)) - Total(Filter(txs, NotIncome)))
  {
    SeriesTotals(txs);
  }

  /** `Array.from({ length: 5 }, (_, i) => currentYear - i)` */
  function YearOptions(currentYear: int): (years: seq<int>)
    ensures |years| == YEAR_CHOICES
    ensures years[0] == currentYear
    ensures forall i :: 0 < i < |years| ==> years[i] == years[i - 1] - 1
  {
    seq(YEAR_CHOICES, i => currentYear - i)
  }

  /** The years offered are exactly the current year and the four before it,
      and each non-zero choice is the year the endpoint then reports on. */
  lemma YearOptionsRange(currentYear: int, serverYear: int)
    ensures forall y :: y in YearOptions(currentYear) <==> currentYear - YEAR_CHOICES < y <= currentYear
    ensures forall y :: y in YearOptions(currentYear) && y != 0 ==> ResolveYear(Some(y), serverYear) == y
  {
    var years := YearOptions(currentYear);
    forall y | currentYear - YEAR_CHOICES < y <= currentYear
      ensures y in years
    {
      assert years[currentYear - y] == y;
    }
  }

  /** `CATEGORY_COLORS[name] || '#94a3b8'` */
  function CategoryColor(name: string): (color: string)
    ensures name !in CATEGORY_COLORS ==> color == FALLBACK_COLOR
    ensures name in CATEGORY_COLORS ==> color == CATEGORY_COLORS[name]
  {
    if name in CATEGORY_COLORS && CATEGORY_COLORS[name] != "" then CATEGORY_COLORS[name]
    else FALLBACK_COLOR
  }

  /** Every category the forms offer has a colour of its own; only a
      category typed in some other way falls back to grey. */
  lemma ListedCategoriesColored(c: string)
    requires c in INCOME_CATEGORIES || c in EXPENSE_CATEGORIES
    ensures CategoryColor(c) != FALLBACK_COLOR
  {
  }
}
