/** GET /api/analytics: the requester's income, expense and savings for each
    month of one year. */
module AnalyticsRoute {
  import opened Http
  import opened Calendar
  import opened Ledger

  /** Short month names of the default locale (en-US), January first. */
  const MONTH_LABELS: seq<string> :=
    ["Jan", "Feb", "Mar", "Apr", "May", "Jun", "Jul", "Aug", "Sep", "Oct", "Nov", "Dec"]

  datatype Bucket = Bucket(month: string, income: real, expense: real, savings: real)

  /** The response body `{ monthlyData, year }`. */
  datatype MonthlyReport = MonthlyReport(monthlyData: seq<Bucket>, year: int)

  /** `parseInt(searchParams.get('year')) || currentYear`. `param` is None when
      the parameter is missing or does not parse (NaN); 0 is falsy as well. */
  function ResolveYear(param: Option<int>, currentYear: int): (year: int)
    ensures param.None? ==> year == currentYear
    ensures param.Some? && param.value == 0 ==> year == currentYear
    ensures param.Some? && param.value != 0 ==> year == param.value
  {
    if param.Some? && param.value != 0 then param.value else currentYear
  }

  /** `date: { $gte: startOfYear, $lte: endOfYear }` */
  predicate InYear(year: int, t: Transaction) {
    InRange(t.date, StartOfYear(year), EndOfYear(year))
  }

  /** `Transaction.find({ userId, date: { $gte: startOfYear, $lte: endOfYear } })` */
  function YearQuery(store: seq<Transaction>, uid: UserId, year: int): seq<Transaction> {
    Filter(store, (t: Transaction) => OwnedBy(uid, t) && InYear(year, t))
  }

  /** The records that land in month `m` as income. */
  function IncomeIn(m: int): Transaction -> bool {
    (t: Transaction) => t.date.month == m && t.kind == INCOME
  }

  /** The records that land in month `m` as expense: any type other than "income". */
  function ExpenseIn(m: int): Transaction -> bool {
    (t: Transaction) => t.date.month == m && t.kind != INCOME
  }

  predicate NotIncome(t: Transaction) {
    t.kind != INCOME
  }

  /** The series the route answers with, month by month. */
  function MonthlySeries(txs: seq<Transaction>): (r: seq<Bucket>)
    ensures |r| == 12
  {
    seq(12, i requires 0 <= i < 12 =>
      var income := Total(Filter(txs, IncomeIn(i)));
      var expense := Total(Filter(txs, ExpenseIn(i)));
      Bucket(MONTH_LABELS[i], income, expense, income - expense))
  }

  /** The 12-bucket accumulation of the handler: a fresh array of zeroed
      buckets, one pass adding each amount into its month, one pass setting
      `savings`. */
  method BuildMonthlyData(txs: seq<Transaction>) returns (monthlyData: seq<Bucket>)
    ensures monthlyData == MonthlySeries(txs)
    ensures |monthlyData| == 12
    ensures forall i :: 0 <= i < 12 ==>
      && monthlyData[i].month == MONTH_LABELS[i]
      && monthlyData[i].savings == monthlyData[i].income - monthlyData[i].expense
  {
    var a := new Bucket[12](i => Bucket(if 0 <= i < 12 then MONTH_LABELS[i] else "", 0.0, 0.0, 0.0));
    AccumulateMonths(a, txs);
    ComputeSavings(a);
    monthlyData := a[..];
    assert forall i :: 0 <= i < 12 ==> monthlyData[i] == MonthlySeries(txs)[i];
  }

  /** The zeroed buckets the route starts from: one per month, labelled. */
  function ZeroBuckets(): (r: seq<Bucket>)
    ensures |r| == 12
  {
    seq(12, i requires 0 <= i < 12 => Bucket(MONTH_LABELS[i], 0.0, 0.0, 0.0))
  }

  /** The body of the `forEach` on values: one record raises one column of
      its own month's bucket by its amount. */
  function Bump(r: seq<Bucket>, t: Transaction): (r': seq<Bucket>)
    requires |r| == 12
    ensures |r'| == 12
  {
    var b := r[t.date.month];
    r[t.date.month := if t.kind == INCOME then b.(income := b.income + t.amount)
                      else b.(expense := b.expense + t.amount)]
  }

  /** The buckets after the first pass over `done`, record by record;
      `savings` not yet set. */
  function Running(done: seq<Transaction>): (r: seq<Bucket>)
    ensures |r| == 12
    decreases |done|
  {
    if done == [] then ZeroBuckets()
    else Bump(Running(done[..|done| - 1]), done[|done| - 1])
  }

  /** `transactions.forEach(...)`: each amount goes into its month's `income`
      when typed "income" and into its `expense` otherwise. */
  method AccumulateMonths(a: array<Bucket>, txs: seq<Transaction>)
    requires a.Length == 12
    requires forall i :: 0 <= i < 12 ==> a[i] == Bucket(MONTH_LABELS[i], 0.0, 0.0, 0.0)
    modifies a
    ensures forall i :: 0 <= i < 12 ==>
      a[i] == Bucket(MONTH_LABELS[i], Total(Filter(txs, IncomeIn(i))), Total(Filter(txs, ExpenseIn(i))), 0.0)
  {
    assert a[..] == Running([]);
    var k := 0;
    while k < |txs|
      invariant 0 <= k <= |txs|
      invariant a[..] == Running(txs[..k])
    {
      var done := txs[..k];
      AddRecord(a, done, txs[k]);
      assert txs[..k + 1] == done + [txs[k]];
      k := k + 1;
    }
    assert txs[..k] == txs;
    forall i | 0 <= i < 12
      ensures a[i] == Bucket(MONTH_LABELS[i], Total(Filter(txs, IncomeIn(i))), Total(Filter(txs, ExpenseIn(i))), 0.0)
    {
      assert a[i] == a[..][i];
      RunningTotals(txs, i);
    }
  }

  /** The body of the `forEach`: `monthlyData[month].income += t.amount` or
      `monthlyData[month].expense += t.amount`. */
  method AddRecord(a: array<Bucket>, done: seq<Transaction>, t: Transaction)
    requires a[..] == Running(done)
    modifies a
    ensures a[..] == Running(done + [t])
  {
    var month := t.date.month;
    assert (done + [t])[..|done|] == done;
    if t.kind == INCOME {
      a[month] := a[month].(income := a[month].income + t.amount);
    } else {
      a[month] := a[month].(expense := a[month].expense + t.amount);
    }
  }

  /** After any prefix of the pass, each month's bucket holds the totals of
      the incomes and of the non-incomes dated in that month. */
  lemma {:induction false} RunningTotals(done: seq<Transaction>, i: int)
    requires 0 <= i < 12
    ensures Running(done)[i] ==
      Bucket(MONTH_LABELS[i], Total(Filter(done, IncomeIn(i))), Total(Filter(done, ExpenseIn(i))), 0.0)
    decreases |done|
  {
    if done != [] {
      var init, t := done[..|done| - 1], done[|done| - 1];
      assert done == init + [t];
      RunningTotals(init, i);
      assert Running(done)[i].income == Total(Filter(done, IncomeIn(i))) by {
        FilterSnocTotal(init, t, IncomeIn(i));
      }
      assert Running(done)[i].expense == Total(Filter(done, ExpenseIn(i))) by {
        FilterSnocTotal(init, t, ExpenseIn(i));
      }
    }
  }

  /** `monthlyData.forEach(data => { data.savings = data.income - data.expense })` */
  method ComputeSavings(a: array<Bucket>)
    modifies a
    ensures forall i :: 0 <= i < a.Length ==> a[i] == old(a[i]).(savings := old(a[i]).income - old(a[i]).expense)
  {
    var j := 0;
    while j < a.Length
      invariant 0 <= j <= a.Length
      invariant forall i :: 0 <= i < j ==> a[i] == old(a[i]).(savings := old(a[i]).income - old(a[i]).expense)
      invariant forall i :: j <= i < a.Length ==> a[i] == old(a[i])
    {
      a[j] := a[j].(savings := a[j].income - a[j].expense);
      j := j + 1;
    }
  }

  /** One more record changes the per-month sums of its own month only, by its amount. */
  lemma SeriesStep(txs: seq<Transaction>, t: Transaction)
    ensures forall i :: 0 <= i < 12 ==>
      && Total(Filter(txs + [t], IncomeIn(i)))
         == Total(Filter(txs, IncomeIn(i))) + (if i == t.date.month && t.kind == INCOME then t.amount else 0.0)
      && Total(Filter(txs + [t], ExpenseIn(i)))
         == Total(Filter(txs, ExpenseIn(i))) + (if i == t.date.month && t.kind != INCOME then t.amount else 0.0)
  {
    forall i | 0 <= i < 12
      ensures Total(Filter(txs + [t], IncomeIn(i)))
         == Total(Filter(txs, IncomeIn(i))) + (if i == t.date.month && t.kind == INCOME then t.amount else 0.0)
      ensures Total(Filter(txs + [t], ExpenseIn(i)))
         == Total(Filter(txs, ExpenseIn(i))) + (if i == t.date.month && t.kind != INCOME then t.amount else 0.0)
    {
      FilterSnocTotal(txs, t, IncomeIn(i));
      FilterSnocTotal(txs, t, ExpenseIn(i));
    }
  }

  /** Each counted transaction adds its amount to exactly one bucket, the one
      of its date's month: to `income` when typed "income", to `expense`
      otherwise. Every other bucket is unchanged. */
  lemma {:induction false} OneBucketPerTransaction(txs: seq<Transaction>, t: Transaction)
    ensures var before, after := MonthlySeries(txs), MonthlySeries(txs + [t]);
      && after[t.date.month].income == before[t.date.month].income + (if t.kind == INCOME then t.amount else 0.0)
      && after[t.date.month].expense == before[t.date.month].expense + (if t.kind == INCOME then 0.0 else t.amount)
      && forall i :: 0 <= i < 12 && i != t.date.month ==> after[i] == before[i]
  {
    SeriesStep(txs, t);
  }

  /** A month without any counted transaction stays at zero income, expense and savings. */
  lemma EmptyMonthIsZero(txs: seq<Transaction>, m: int)
    requires 0 <= m < 12
    requires forall t :: t in txs ==> t.date.month != m
    ensures MonthlySeries(txs)[m] == Bucket(MONTH_LABELS[m], 0.0, 0.0, 0.0)
  {
    FilterEmptyIff(txs, IncomeIn(m));
    FilterEmptyIff(txs, ExpenseIn(m));
  }

  /** `xs.reduce((sum, x) => sum + x, 0)` */
  function Sum(xs: seq<real>): real {
    if xs == [] then 0.0 else Sum(xs[..|xs| - 1]) + xs[|xs| - 1]
  }

  function Incomes(bs: seq<Bucket>): seq<real> {
    seq(|bs|, i requires 0 <= i < |bs| => bs[i].income)
  }

  function Expenses(bs: seq<Bucket>): seq<real> {
    seq(|bs|, i requires 0 <= i < |bs| => bs[i].expense)
  }

  /** Raising one entry by `d` raises the sum by `d`. */
  lemma {:induction false} SumBump(xs: seq<real>, ys: seq<real>, k: int, d: real)
    requires |xs| == |ys|
    requires forall i :: 0 <= i < |xs| ==> xs[i] == ys[i] + (if i == k then d else 0.0)
    ensures Sum(xs) == Sum(ys) + (if 0 <= k < |xs| then d else 0.0)
  {
    if xs != [] {
      SumBump(xs[..|xs| - 1], ys[..|ys| - 1], k, d);
    }
  }

  /** The buckets' incomes add up to the income-typed amounts, and their
      expenses to all other amounts: nothing is lost or counted twice. */
  lemma SeriesTotals(txs: seq<Transaction>)
    ensures Sum(Incomes(MonthlySeries(txs))) == Total(Filter(txs, IsIncome))
    ensures Sum(Expenses(MonthlySeries(txs))) == Total(Filter(txs, NotIncome))
  {
    IncomeSeriesTotal(txs);
    ExpenseSeriesTotal(txs);
  }

  lemma {:induction false} IncomeSeriesTotal(txs: seq<Transaction>)
    ensures Sum(Incomes(MonthlySeries(txs))) == Total(Filter(txs, IsIncome))
  {
    if txs == [] {
      assert Incomes(MonthlySeries(txs)) == seq(12, i => 0.0);
      ZeroSum(12);
    } else {
      var init, t := txs[..|txs| - 1], txs[|txs| - 1];
      assert txs == init + [t];
      IncomeSeriesTotal(init);
      IncomeColumnStep(init, t);
      FilterSnocTotal(init, t, IsIncome);
    }
  }

  lemma {:induction false} ExpenseSeriesTotal(txs: seq<Transaction>)
    ensures Sum(Expenses(MonthlySeries(txs))) == Total(Filter(txs, NotIncome))
  {
    if txs == [] {
      assert Expenses(MonthlySeries(txs)) == seq(12, i => 0.0);
      ZeroSum(12);
    } else {
      var init, t := txs[..|txs| - 1], txs[|txs| - 1];
      assert txs == init + [t];
      ExpenseSeriesTotal(init);
      ExpenseColumnStep(init, t);
      FilterSnocTotal(init, t, NotIncome);
    }
  }

  lemma IncomeColumnStep(txs: seq<Transaction>, t: Transaction)
    ensures Sum(Incomes(MonthlySeries(txs + [t])))
      == Sum(Incomes(MonthlySeries(txs))) + (if t.kind == INCOME then t.amount else 0.0)
  {
    SeriesStep(txs, t);
    SumBump(Incomes(MonthlySeries(txs + [t])), Incomes(MonthlySeries(txs)), t.date.month,
      if t.kind == INCOME then t.amount else 0.0);
  }

  lemma ExpenseColumnStep(txs: seq<Transaction>, t: Transaction)
    ensures Sum(Expenses(MonthlySeries(txs + [t])))
      == Sum(Expenses(MonthlySeries(txs))) + (if t.kind == INCOME then 0.0 else t.amount)
  {
    SeriesStep(txs, t);
    SumBump(Expenses(MonthlySeries(txs + [t])), Expenses(MonthlySeries(txs)), t.date.month,
      if t.kind == INCOME then 0.0 else t.amount);
  }

  lemma {:induction false} ZeroSum(n: nat)
    ensures Sum(seq(n, i => 0.0)) == 0.0
  {
    if n > 0 {
      ZeroSum(n - 1);
      assert seq(n, i => 0.0)[..n - 1] == seq(n - 1, i => 0.0);
    }
  }

  /** The query keeps exactly the requester's transactions dated in the year
      the `Date` constructor reads from the parameter; January 1 00:00:00 and
      December 31 23:59:59 included. */
  lemma YearQueryMembers(store: seq<Transaction>, uid: UserId, year: int)
    ensures forall t :: t in YearQuery(store, uid, year) <==> t in store && t.userId == uid && t.date.year == FullYear(year)
  {
    FilterMembers(store, (t: Transaction) => OwnedBy(uid, t) && InYear(year, t));
    forall t: Transaction ensures InYear(year, t) <==> t.date.year == FullYear(year) {
      InYearIff(t.date, year);
    }
  }

  /** `?year=24` is truthy, so it is used as given: the window is that of 1924,
      while the response echoes 24. */
  lemma TwoDigitYear(store: seq<Transaction>, uid: UserId, currentYear: int)
    ensures ResolveYear(Some(24), currentYear) == 24
    ensures forall t :: t in YearQuery(store, uid, 24) <==> t in store && t.userId == uid && t.date.year == 1924
  {
    YearQueryMembers(store, uid, 24);
  }

  /** The handler: 401 before anything else; otherwise the series of the
      resolved year, echoed with the year used. */
  method GetAnalytics(auth: Auth, yearParam: Option<int>, currentYear: int, store: seq<Transaction>)
    returns (r: Response<MonthlyReport>)
    ensures auth.None? ==> r == Unauthorized
    ensures auth.Some? ==> r.Ok? && r.body.year == ResolveYear(yearParam, currentYear)
    ensures auth.Some? ==> r.body.monthlyData == MonthlySeries(YearQuery(store, auth.value, r.body.year))
  {
    if auth.None? {
      return Unauthorized;
    }
    var year := ResolveYear(yearParam, currentYear);
    var transactions := YearQuery(store, auth.value, year);
    var monthlyData := BuildMonthlyData(transactions);
    r := Ok(MonthlyReport(monthlyData, year));
  }
}
