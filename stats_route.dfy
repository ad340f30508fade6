/** GET /api/stats: the requester's financial snapshot — lifetime net worth,
    current-month totals, savings goal progress, the over-budget flag and the
    per-category breakdown of the current month. */
module StatsRoute {
  import opened Http
  import opened Calendar
  import opened Ledger

  /** Expenses above this share of income (in percent) flag the month as over budget. */
  const OVER_BUDGET_THRESHOLD := 80.0

  /** One property of a category object such as `expensesByCategory`. */
  datatype Entry = Entry(category: string, amount: real)

  /** A JavaScript object keyed by category: its properties in insertion
      order, which is the order `Object.entries` reports them in. */
  type CategoryTable = seq<Entry>

  /** `savingsProgress`. Dividing by a zero target yields one of the two
      non-finite values below, unless the quotient is +Infinity, which the
      cap at 100 turns back into a number. */
  datatype Progress = Percent(value: real) | NegativeInfinity | NotANumber

  datatype Snapshot = Snapshot(
    netWorth: real,
    monthlyIncome: real,
    monthlyExpenses: real,
    remainingBalance: real,
    savingsTarget: real,
    actualSavings: real,
    savingsProgress: Progress,
    savingsGoalPercentage: real,
    isOverBudget: bool,
    expensePercentage: real,
    expensesByCategory: CategoryTable,
    incomeByCategory: CategoryTable)

  predicate NotExpense(t: Transaction) {
    t.kind != EXPENSE
  }

  /** `date: { $gte: startOfMonth, $lte: endOfMonth }` */
  predicate InMonth(now: Date, t: Transaction) {
    InRange(t.date, StartOfMonth(now), EndOfMonth(now))
  }

  /** `Transaction.find({ userId })` */
  function UserQuery(store: seq<Transaction>, uid: UserId): seq<Transaction> {
    Filter(store, (t: Transaction) => OwnedBy(uid, t))
  }

  /** `Transaction.find({ userId, date: { $gte: startOfMonth, $lte: endOfMonth } })` */
  function MonthQuery(store: seq<Transaction>, uid: UserId, now: Date): seq<Transaction> {
    Filter(store, (t: Transaction) => OwnedBy(uid, t) && InMonth(now, t))
  }

  /** The current-month query keeps exactly the requester's records dated in
      the calendar month of `now`. */
  lemma MonthQueryMembers(store: seq<Transaction>, uid: UserId, now: Date)
    ensures forall t :: t in MonthQuery(store, uid, now) <==>
      t in store && t.userId == uid && t.date.year == FullYear(now.year) && t.date.month == now.month
  {
    FilterMembers(store, (t: Transaction) => OwnedBy(uid, t) && InMonth(now, t));
    forall t: Transaction ensures InMonth(now, t) <==> t.date.year == FullYear(now.year) && t.date.month == now.month {
      InMonthIff(t.date, now);
    }
  }

  /** The lifetime query ignores dates: every record of the requester counts. */
  lemma UserQueryMembers(store: seq<Transaction>, uid: UserId)
    ensures forall t :: t in UserQuery(store, uid) <==> t in store && t.userId == uid
  {
    FilterMembers(store, (t: Transaction) => OwnedBy(uid, t));
  }

  /** `(monthlyIncome * savingsGoalPercentage) / 100` */
  function SavingsTarget(monthlyIncome: real, goal: real): (r: real)
    ensures r * 100.0 == monthlyIncome * goal
    ensures ValidGoal(goal) && monthlyIncome >= 0.0 ==> 0.0 <= r <= monthlyIncome
    ensures monthlyIncome > 0.0 ==> (r == 0.0 <==> goal == 0.0)
  {
    monthlyIncome * goal / 100.0
  }

  function Min(a: real, b: real): real {
    if a <= b then a else b
  }

  /** `monthlyIncome > 0 ? Math.min(100, (actualSavings / savingsTarget) * 100) : 0`.
      The quotient is capped above at 100 but not floored. A zero target
      (goal 0) divides by zero: positive savings give +Infinity, capped to
      100; negative savings give -Infinity; zero savings give NaN. */
  function SavingsProgress(monthlyIncome: real, actualSavings: real, savingsTarget: real): (p: Progress)
    ensures monthlyIncome <= 0.0 ==> p == Percent(0.0)
    ensures p.Percent? ==> p.value <= 100.0
    ensures p.NegativeInfinity? <==> monthlyIncome > 0.0 && savingsTarget == 0.0 && actualSavings < 0.0
    ensures p.NotANumber? <==> monthlyIncome > 0.0 && savingsTarget == 0.0 && actualSavings == 0.0
    ensures monthlyIncome > 0.0 && savingsTarget == 0.0 && actualSavings > 0.0 ==> p == Percent(100.0)
    ensures monthlyIncome > 0.0 && savingsTarget > 0.0 ==>
      && p.Percent?
      && (p.value == 100.0 <==> actualSavings >= savingsTarget)
      && (p.value < 0.0 <==> actualSavings < 0.0)
      && (p.value < 100.0 ==> p.value * savingsTarget == actualSavings * 100.0)
  {
    if monthlyIncome <= 0.0 then Percent(0.0)
    else if savingsTarget != 0.0 then
      QuotientFacts(actualSavings, savingsTarget);
      Percent(Min(100.0, actualSavings / savingsTarget * 100.0))
    else if actualSavings > 0.0 then Percent(100.0)
    else if actualSavings < 0.0 then NegativeInfinity
    else NotANumber
  }

  /** The percentage of a positive target reaches 100 exactly when the
      savings reach the target, and is negative exactly when they are. */
  lemma QuotientFacts(actualSavings: real, savingsTarget: real)
    requires savingsTarget != 0.0
    ensures (actualSavings / savingsTarget * 100.0) * savingsTarget == actualSavings * 100.0
    ensures savingsTarget > 0.0 ==>
      && (actualSavings / savingsTarget * 100.0 >= 100.0 <==> actualSavings >= savingsTarget)
      && (actualSavings / savingsTarget * 100.0 < 0.0 <==> actualSavings < 0.0)
  {
    var q := actualSavings / savingsTarget;
    assert q * savingsTarget == actualSavings;
    if savingsTarget > 0.0 {
      assert q >= 1.0 <==> q * savingsTarget >= savingsTarget;
      assert q < 0.0 <==> q * savingsTarget < 0.0;
    }
  }

  /** The progress is not confined to [0, 100]: spending more than the
      income gives a negative percentage, and a goal of 0 gives a non-finite
      value whenever nothing was saved. */
  lemma ProgressOutsideRange()
    ensures SavingsProgress(1000.0, -500.0, SavingsTarget(1000.0, 20.0)) == Percent(-250.0)
    ensures SavingsProgress(1000.0, 0.0, SavingsTarget(1000.0, 0.0)) == NotANumber
    ensures SavingsProgress(1000.0, -1.0, SavingsTarget(1000.0, 0.0)) == NegativeInfinity
  {
    assert SavingsTarget(1000.0, 20.0) == 200.0;
  }

  /** `JSON.stringify` writes the non-finite values as `null`. */
  function ProgressJson(p: Progress): (json: Option<real>)
    ensures json.Some? <==> p.Percent?
    ensures p.Percent? ==> json.value == p.value
  {
    if p.Percent? then Some(p.value) else None
  }

  /** `monthlyIncome > 0 ? (monthlyExpenses / monthlyIncome) * 100 : 0` */
  function ExpensePercentage(monthlyExpenses: real, monthlyIncome: real): (r: real)
    ensures monthlyIncome <= 0.0 ==> r == 0.0
    ensures monthlyIncome > 0.0 ==> r * monthlyIncome == monthlyExpenses * 100.0
    ensures monthlyExpenses >= 0.0 ==> r >= 0.0
  {
    if monthlyIncome > 0.0 then monthlyExpenses / monthlyIncome * 100.0 else 0.0
  }

  predicate IsOverBudget(expensePercentage: real) {
    expensePercentage > OVER_BUDGET_THRESHOLD
  }

  /** The month is over budget exactly when there is income and the expenses
      exceed 80% of it; never without income. */
  lemma OverBudgetIff(monthlyExpenses: real, monthlyIncome: real)
    ensures IsOverBudget(ExpensePercentage(monthlyExpenses, monthlyIncome))
      <==> monthlyIncome > 0.0 && monthlyExpenses * 5.0 > monthlyIncome * 4.0
  {
    if monthlyIncome > 0.0 {
      var r := ExpensePercentage(monthlyExpenses, monthlyIncome);
      assert r * monthlyIncome == monthlyExpenses * 100.0;
      if r > 80.0 {
        assert r * monthlyIncome > 80.0 * monthlyIncome;
      } else {
        assert r * monthlyIncome <= 80.0 * monthlyIncome;
      }
    }
  }

  // ---- category tables ----

  /** The position of `c` among the properties, or -1. */
  function IndexOf(table: CategoryTable, c: string): (i: int)
    ensures -1 <= i < |table|
    ensures 0 <= i ==> table[i].category == c
    ensures forall j :: i < j < |table| ==> table[j].category != c
  {
    if table == [] then -1
    else if table[|table| - 1].category == c then |table| - 1
    else IndexOf(table[..|table| - 1], c)
  }

  /** `obj[c] = (obj[c] || 0) + x`: an existing property is raised in place, a
      new one is appended. */
  function Credit(table: CategoryTable, c: string, x: real): CategoryTable {
    var i := IndexOf(table, c);
    if i < 0 then table + [Entry(c, x)] else table[i := Entry(c, table[i].amount + x)]
  }

  function Lookup(table: CategoryTable, c: string): Option<real> {
    var i := IndexOf(table, c);
    if i < 0 then None else Some(table[i].amount)
  }

  function Keys(table: CategoryTable): seq<string> {
    seq(|table|, i requires 0 <= i < |table| => table[i].category)
  }

  function SumAmounts(table: CategoryTable): real {
    if table == [] then 0.0 else SumAmounts(table[..|table| - 1]) + table[|table| - 1].amount
  }

  function Categories(s: seq<Transaction>): seq<string> {
    seq(|s|, i requires 0 <= i < |s| => s[i].category)
  }

  /** The object built by crediting, in order, every record satisfying `p`. */
  function Tally(txs: seq<Transaction>, p: Transaction -> bool): CategoryTable {
    if txs == [] then []
    else
      var table := Tally(txs[..|txs| - 1], p);
      var t := txs[|txs| - 1];
      if p(t) then Credit(table, t.category, t.amount) else table
  }

  function InCategory(p: Transaction -> bool, c: string): Transaction -> bool {
    (t: Transaction) => p(t) && t.category == c
  }

  /** The `forEach` over the month's records; "expense" goes to
      `expensesByCategory`, every other type to `incomeByCategory`. */
  method BuildCategoryMaps(monthly: seq<Transaction>)
    returns (expensesByCategory: CategoryTable, incomeByCategory: CategoryTable)
    ensures expensesByCategory == Tally(monthly, IsExpense)
    ensures incomeByCategory == Tally(monthly, NotExpense)
  {
    expensesByCategory, incomeByCategory := [], [];
    var k := 0;
    while k < |monthly|
      invariant 0 <= k <= |monthly|
      invariant expensesByCategory == Tally(monthly[..k], IsExpense)
      invariant incomeByCategory == Tally(monthly[..k], NotExpense)
    {
      var t := monthly[k];
      assert monthly[..k + 1][..k] == monthly[..k];
      if t.kind == EXPENSE {
        expensesByCategory := Credit(expensesByCategory, t.category, t.amount);
      } else {
        incomeByCategory := Credit(incomeByCategory, t.category, t.amount);
      }
      k := k + 1;
    }
    assert monthly[..k] == monthly;
  }

  lemma CreditKeys(table: CategoryTable, c: string, x: real)
    ensures Keys(Credit(table, c, x)) == if c in Keys(table) then Keys(table) else Keys(table) + [c]
  {
    var i := IndexOf(table, c);
    if i < 0 {
      assert c !in Keys(table);
    } else {
      assert Keys(table)[i] == c;
    }
  }

  /** The keys are the categories of the selected records, each once, in
      order of first occurrence. */
  lemma {:induction false} TallyKeys(txs: seq<Transaction>, p: Transaction -> bool)
    ensures Keys(Tally(txs, p)) == Distinct(Categories(Filter(txs, p)))
  {
    if txs != [] {
      var init, t := txs[..|txs| - 1], txs[|txs| - 1];
      TallyKeys(init, p);
      var f := Filter(init, p);
      if p(t) {
        CreditKeys(Tally(init, p), t.category, t.amount);
        assert Filter(txs, p) == f + [t];
        assert Categories(f + [t]) == Categories(f) + [t.category];
        DistinctSnoc(Categories(f), t.category);
      } else {
        assert Filter(txs, p) == f;
      }
    }
  }

  /** No category appears twice. */
  lemma TallyUnique(txs: seq<Transaction>, p: Transaction -> bool)
    ensures forall i, j :: 0 <= i < j < |Tally(txs, p)| ==> Tally(txs, p)[i].category != Tally(txs, p)[j].category
  {
    TallyKeys(txs, p);
    var k := Keys(Tally(txs, p));
    assert forall i :: 0 <= i < |k| ==> k[i] == Tally(txs, p)[i].category;
  }

  /** `obj[c] = (obj[c] || 0) + x` raises the amount under `c` by `x`, from 0
      when `c` was absent. */
  lemma CreditLookupSame(table: CategoryTable, c: string, x: real)
    ensures Lookup(Credit(table, c, x), c) == Some(Lookup(table, c).GetOr(0.0) + x)
  {
    var i := IndexOf(table, c);
    var t2 := Credit(table, c, x);
    var k := if i < 0 then |table| else i;
    assert t2[k].category == c;
  }

  /** ... and leaves every other key as it was. */
  lemma CreditLookupOther(table: CategoryTable, c: string, x: real, d: string)
    requires d != c
    ensures Lookup(Credit(table, c, x), d) == Lookup(table, d)
  {
    var t2 := Credit(table, c, x);
    var j := IndexOf(table, d);
    var j2 := IndexOf(t2, d);
    if j2 >= 0 {
      assert t2[j2] == table[j2];
    }
    if j >= 0 {
      assert t2[j] == table[j];
    }
  }

  /** Each key maps to the sum of the amounts of the selected records of that
      category; a category without such records is absent. */
  lemma {:induction false} TallyLookup(txs: seq<Transaction>, p: Transaction -> bool, c: string)
    ensures Lookup(Tally(txs, p), c) ==
      if Filter(txs, InCategory(p, c)) == [] then None
      else Some(Total(Filter(txs, InCategory(p, c))))
  {
    if txs != [] {
      var init, t := txs[..|txs| - 1], txs[|txs| - 1];
      TallyLookup(init, p, c);
      assert txs == init + [t];
      TallyLookupStep(init, t, p, c);
    }
  }

  lemma TallyLookupStep(init: seq<Transaction>, t: Transaction, p: Transaction -> bool, c: string)
    requires Lookup(Tally(init, p), c) ==
      if Filter(init, InCategory(p, c)) == [] then None
      else Some(Total(Filter(init, InCategory(p, c))))
    ensures Lookup(Tally(init + [t], p), c) ==
      if Filter(init + [t], InCategory(p, c)) == [] then None
      else Some(Total(Filter(init + [t], InCategory(p, c))))
  {
    if p(t) && t.category == c {
      TallyLookupHit(init, t, p, c);
    } else {
      TallyLookupMiss(init, t, p, c);
    }
  }

  /** A selected record of category `c` adds its amount under `c`. */
  lemma TallyLookupHit(init: seq<Transaction>, t: Transaction, p: Transaction -> bool, c: string)
    requires p(t) && t.category == c
    requires Lookup(Tally(init, p), c) ==
      if Filter(init, InCategory(p, c)) == [] then None
      else Some(Total(Filter(init, InCategory(p, c))))
    ensures Lookup(Tally(init + [t], p), c) ==
      if Filter(init + [t], InCategory(p, c)) == [] then None
      else Some(Total(Filter(init + [t], InCategory(p, c))))
  {
    var q := InCategory(p, c);
    var before, f := Tally(init, p), Filter(init, q);
    var after, f' := Tally(init + [t], p), Filter(init + [t], q);
    assert after == Credit(before, c, t.amount) by {
      TallySnoc(init, t, p);
    }
    assert f' == f + [t] && Total(f') == Total(f) + t.amount by {
      FilterSnocTotal(init, t, q);
    }
    assert Lookup(before, c).GetOr(0.0) == Total(f);
    assert Lookup(after, c) == Some(Total(f')) by {
      CreditLookupSame(before, c, t.amount);
    }
    assert f' != [] by {
      assert f'[|f|] == t;
    }
  }

  /** Any other record leaves the entry under `c` alone. */
  lemma TallyLookupMiss(init: seq<Transaction>, t: Transaction, p: Transaction -> bool, c: string)
    requires !(p(t) && t.category == c)
    requires Lookup(Tally(init, p), c) ==
      if Filter(init, InCategory(p, c)) == [] then None
      else Some(Total(Filter(init, InCategory(p, c))))
    ensures Lookup(Tally(init + [t], p), c) ==
      if Filter(init + [t], InCategory(p, c)) == [] then None
      else Some(Total(Filter(init + [t], InCategory(p, c))))
  {
    var q := InCategory(p, c);
    TallySnoc(init, t, p);
    FilterSnocTotal(init, t, q);
    assert Filter(init + [t], q) == Filter(init, q);
    if p(t) {
      CreditLookupOther(Tally(init, p), t.category, t.amount, c);
    }
  }

  /** One more record credits its category when selected and leaves the
      object alone otherwise. */
  lemma TallySnoc(init: seq<Transaction>, t: Transaction, p: Transaction -> bool)
    ensures Tally(init + [t], p) ==
      if p(t) then Credit(Tally(init, p), t.category, t.amount) else Tally(init, p)
  {
    assert (init + [t])[..|init|] == init;
  }

  lemma CreditSum(table: CategoryTable, c: string, x: real)
    ensures SumAmounts(Credit(table, c, x)) == SumAmounts(table) + x
  {
    var i := IndexOf(table, c);
    if i < 0 {
      assert (table + [Entry(c, x)])[..|table|] == table;
    } else {
      SumAmountsUpdate(table, i, Entry(c, table[i].amount + x));
    }
  }

  lemma {:induction false} SumAmountsUpdate(table: CategoryTable, i: int, e: Entry)
    requires 0 <= i < |table|
    ensures SumAmounts(table[i := e]) == SumAmounts(table) - table[i].amount + e.amount
  {
    var n := |table|;
    var t2 := table[i := e];
    if i == n - 1 {
      assert t2[..n - 1] == table[..n - 1];
    } else {
      SumAmountsUpdate(table[..n - 1], i, e);
      assert t2[..n - 1] == table[..n - 1][i := e];
    }
  }

  /** The values of a category object add up to the total of the selected records. */
  lemma {:induction false} TallySum(txs: seq<Transaction>, p: Transaction -> bool)
    ensures SumAmounts(Tally(txs, p)) == Total(Filter(txs, p))
  {
    if txs != [] {
      var init, t := txs[..|txs| - 1], txs[|txs| - 1];
      TallySum(init, p);
      assert txs == init + [t];
      FilterSnocTotal(init, t, p);
      if p(t) {
        CreditSum(Tally(init, p), t.category, t.amount);
      }
    }
  }

  // ---- the snapshot ----

  /** The response figures, from the totals to the category objects, over
      the results of the two queries: `all` holds every record of the user,
      `monthly` those of the current month. A finite progress never exceeds
      100; a month without income shows progress 0 and is never over budget. */
  function SnapshotOf(user: User, all: seq<Transaction>, monthly: seq<Transaction>): (s: Snapshot)
    ensures s.savingsProgress.Percent? ==> s.savingsProgress.value <= 100.0
    ensures s.monthlyIncome <= 0.0 ==>
      s.savingsProgress == Percent(0.0) && s.expensePercentage == 0.0 && !s.isOverBudget
    ensures s.savingsGoalPercentage == user.savingsGoalPercentage
    ensures s.actualSavings == s.remainingBalance == s.monthlyIncome - s.monthlyExpenses
  {
    var totalIncome := Total(Filter(all, IsIncome));
    var totalExpenses := Total(Filter(all, IsExpense));
    var monthlyIncome := Total(Filter(monthly, IsIncome));
    var monthlyExpenses := Total(Filter(monthly, IsExpense));
    var remainingBalance := monthlyIncome - monthlyExpenses;
    var savingsTarget := SavingsTarget(monthlyIncome, user.savingsGoalPercentage);
    var actualSavings := remainingBalance;
    var expensePercentage := ExpensePercentage(monthlyExpenses, monthlyIncome);
    Snapshot(
      totalIncome - totalExpenses,
      monthlyIncome,
      monthlyExpenses,
      remainingBalance,
      savingsTarget,
      actualSavings,
      SavingsProgress(monthlyIncome, actualSavings, savingsTarget),
      user.savingsGoalPercentage,
      IsOverBudget(expensePercentage),
      expensePercentage,
      Tally(monthly, IsExpense),
      Tally(monthly, NotExpense))
  }

  /** The handler: 401 first, then 404 for a missing user record, then the
      snapshot over the lifetime query and the current-month query. */
  method GetStats(auth: Auth, users: map<UserId, User>, store: seq<Transaction>, now: Date)
    returns (r: Response<Snapshot>)
    ensures auth.None? ==> r == Unauthorized
    ensures auth.Some? && auth.value !in users ==> r == NotFound("User not found")
    ensures auth.Some? && auth.value in users ==>
      r == Ok(SnapshotOf(users[auth.value], UserQuery(store, auth.value), MonthQuery(store, auth.value, now)))
  {
    if auth.None? {
      return Unauthorized;
    }
    var uid := auth.value;
    if uid !in users {
      return NotFound("User not found");
    }
    var userDoc := users[uid];
    var allTransactions := UserQuery(store, uid);
    var monthlyTransactions := MonthQuery(store, uid, now);
    var expensesByCategory, incomeByCategory := BuildCategoryMaps(monthlyTransactions);
    var s := SnapshotOf(userDoc, allTransactions, monthlyTransactions);
    r := Ok(s.(expensesByCategory := expensesByCategory, incomeByCategory := incomeByCategory));
  }

  /** The relations between the snapshot's figures. */
  lemma SnapshotFigures(user: User, all: seq<Transaction>, monthly: seq<Transaction>)
    ensures var s := SnapshotOf(user, all, monthly);
      && s.netWorth == Total(Filter(all, IsIncome)) - Total(Filter(all, IsExpense))
      && s.monthlyIncome == Total(Filter(monthly, IsIncome))
      && s.monthlyExpenses == Total(Filter(monthly, IsExpense))
      && s.remainingBalance == s.monthlyIncome - s.monthlyExpenses
      && s.actualSavings == s.remainingBalance
      && s.savingsTarget == SavingsTarget(s.monthlyIncome, user.savingsGoalPercentage)
      && s.savingsGoalPercentage == user.savingsGoalPercentage
      && (s.isOverBudget <==> s.monthlyIncome > 0.0 && s.monthlyExpenses * 5.0 > s.monthlyIncome * 4.0)
  {
    var mi := Total(Filter(monthly, IsIncome));
    var me := Total(Filter(monthly, IsExpense));
    OverBudgetIff(me, mi);
  }

  /** The expense object adds up to the month's expenses, the income object
      to every other record of the month. */
  lemma SnapshotCategorySums(user: User, all: seq<Transaction>, monthly: seq<Transaction>)
    ensures SumAmounts(SnapshotOf(user, all, monthly).expensesByCategory) == SnapshotOf(user, all, monthly).monthlyExpenses
    ensures SumAmounts(SnapshotOf(user, all, monthly).incomeByCategory) == Total(Filter(monthly, NotExpense))
  {
    TallySum(monthly, IsExpense);
    TallySum(monthly, NotExpense);
  }

  /** When every record is typed "income" or "expense", the income object
      adds up to the month's income. */
  lemma {:induction false} WellTypedIncome(s: seq<Transaction>)
    requires forall t :: t in s ==> t.kind == INCOME || t.kind == EXPENSE
    ensures Filter(s, NotExpense) == Filter(s, IsIncome)
  {
    if s != [] {
      WellTypedIncome(s[..|s| - 1]);
      assert s[|s| - 1] in s;
    }
  }
}
