/** The transactions page: the search / type / category filter over the
    loaded list, the totals of what is shown, and the category choices. */
module TransactionsPage {
  import opened Http
  import opened Ledger

  /** The filter value that switches the type or category filter off. */
  const ALL := "all"

  const INCOME_CATEGORIES: seq<string> :=
    ["Salary", "Freelance", "Business", "Investment", "Bonus", "Gift", "Other"]

  const EXPENSE_CATEGORIES: seq<string> :=
    ["Food & Dining", "Rent", "Transportation", "Shopping", "Entertainment",
     "Healthcare", "Education", "Utilities", "Travel", "Other"]

  function LowerChar(c: char): char {
    if 'A' <= c <= 'Z' then (c as int + 32) as char else c
  }

  /** `toLowerCase()`, on the ASCII letters. */
  function ToLower(s: string): (r: string)
    ensures |r| == |s|
    ensures forall i :: 0 <= i < |s| ==> r[i] == LowerChar(s[i])
  {
    if s == [] then [] else [LowerChar(s[0])] + ToLower(s[1..])
  }

  /** `sub` occurs in `s` starting at index `i`. */
  predicate OccursAt(s: string, sub: string, i: int) {
    0 <= i && i + |sub| <= |s| && s[i..i + |sub|] == sub
  }

  /** `s.includes(sub)` */
  predicate Contains(s: string, sub: string) {
    exists i | 0 <= i <= |s| :: OccursAt(s, sub, i)
  }

  /** The search predicate: the lower-cased query occurs in the lower-cased category,
      or in the lower-cased notes when the record has notes. */
  predicate MatchesSearch(t: Transaction, searchQuery: string) {
    || Contains(ToLower(t.category), ToLower(searchQuery))
    || (t.notes.Some? && Contains(ToLower(t.notes.value), ToLower(searchQuery)))
  }

  /** Lower-casing twice is lower-casing once. */
  lemma ToLowerIdempotent(s: string)
    ensures ToLower(ToLower(s)) == ToLower(s)
  {
    var l := ToLower(s);
    assert forall i :: 0 <= i < |s| ==> ToLower(l)[i] == LowerChar(LowerChar(s[i])) == l[i];
  }

  /** The search ignores the case of the query. */
  lemma SearchIgnoresCase(t: Transaction, searchQuery: string)
    ensures MatchesSearch(t, ToLower(searchQuery)) == MatchesSearch(t, searchQuery)
  {
    ToLowerIdempotent(searchQuery);
  }

  /** A record stays visible under the three filters. */
  predicate Visible(t: Transaction, searchQuery: string, typeFilter: string, categoryFilter: string) {
    && (searchQuery != "" ==> MatchesSearch(t, searchQuery))
    && (typeFilter != ALL ==> t.kind == typeFilter)
    && (categoryFilter != ALL ==> t.category == categoryFilter)
  }

  /** The list the page shows. */
  function FilteredView(transactions: seq<Transaction>, searchQuery: string, typeFilter: string, categoryFilter: string): seq<Transaction> {
    Filter(transactions, (t: Transaction) => Visible(t, searchQuery, typeFilter, categoryFilter))
  }

  /** The filtering effect: `filtered` is narrowed by each active
      filter in turn. */
  method ApplyFilters(transactions: seq<Transaction>, searchQuery: string, typeFilter: string, categoryFilter: string)
    returns (filtered: seq<Transaction>)
    ensures filtered == FilteredView(transactions, searchQuery, typeFilter, categoryFilter)
  {
    var search := (t: Transaction) => searchQuery != "" ==> MatchesSearch(t, searchQuery);
    var byType := (t: Transaction) => typeFilter != ALL ==> t.kind == typeFilter;
    var byCategory := (t: Transaction) => categoryFilter != ALL ==> t.category == categoryFilter;
    var searchAndType := (t: Transaction) => search(t) && byType(t);

    filtered := Narrow(transactions, searchQuery != "", (t: Transaction) => MatchesSearch(t, searchQuery), search);
    var afterSearch := filtered;
    filtered := Narrow(afterSearch, typeFilter != ALL, (t: Transaction) => t.kind == typeFilter, byType);
    assert filtered == Filter(transactions, searchAndType) by {
      FilterFilter(transactions, search, byType, searchAndType);
    }
    var afterType := filtered;
    filtered := Narrow(afterType, categoryFilter != ALL, (t: Transaction) => t.category == categoryFilter, byCategory);
    assert filtered == FilteredView(transactions, searchQuery, typeFilter, categoryFilter) by {
      FilterFilter(transactions, searchAndType, byCategory,
        (t: Transaction) => Visible(t, searchQuery, typeFilter, categoryFilter));
    }
  }

  /** One `if (active) filtered = filtered.filter(p)` step: when the filter is
      inactive the list is kept as it is, which is filtering by `gate`. */
  method Narrow(xs: seq<Transaction>, active: bool, p: Transaction -> bool, gate: Transaction -> bool)
    returns (r: seq<Transaction>)
    requires forall t :: gate(t) == (active ==> p(t))
    ensures r == Filter(xs, gate)
  {
    r := xs;
    if active {
      r := Filter(xs, p);
      SameFilter(xs, p, gate);
    } else {
      FilterKeepsAll(xs, gate);
    }
  }

  /** With an empty search and both filters at "all" the full list is shown. */
  lemma NoFilterShowsAll(transactions: seq<Transaction>)
    ensures FilteredView(transactions, "", ALL, ALL) == transactions
  {
    FilterKeepsAll(transactions, (t: Transaction) => Visible(t, "", ALL, ALL));
  }

  /** The shown list keeps the original order, re-applying the same filters
      changes nothing, and each kept record passes each active filter. */
  lemma FilteredViewProperties(transactions: seq<Transaction>, searchQuery: string, typeFilter: string, categoryFilter: string)
    ensures var v := FilteredView(transactions, searchQuery, typeFilter, categoryFilter);
      && Subsequence(v, transactions)
      && FilteredView(v, searchQuery, typeFilter, categoryFilter) == v
      && (forall t :: t in v <==> t in transactions && Visible(t, searchQuery, typeFilter, categoryFilter))
      && (typeFilter != ALL ==> forall t :: t in v ==> t.kind == typeFilter)
      && (categoryFilter != ALL ==> forall t :: t in v ==> t.category == categoryFilter)
  {
    var p := (t: Transaction) => Visible(t, searchQuery, typeFilter, categoryFilter);
    FilterIsSubsequence(transactions, p);
    FilterIdempotent(transactions, p);
    FilterMembers(transactions, p);
  }

  /** `totalIncome` and `totalExpenses` of the shown list. */
  function FilteredTotals(filtered: seq<Transaction>): (totals: (real, real))
    ensures (forall t :: t in filtered ==> t.amount >= 0.0) ==> totals.0 >= 0.0 && totals.1 >= 0.0
    ensures (forall t :: t in filtered ==> !IsIncome(t)) ==> totals.0 == 0.0
    ensures (forall t :: t in filtered ==> !IsExpense(t)) ==> totals.1 == 0.0
  {
    FilterMembers(filtered, IsIncome);
    FilterMembers(filtered, IsExpense);
    FilterEmptyIff(filtered, IsIncome);
    FilterEmptyIff(filtered, IsExpense);
    (Total(Filter(filtered, IsIncome)), Total(Filter(filtered, IsExpense)))
  }

  /** With the type filter on one type, the other type's total is zero;
      with positive amounts both totals are non-negative. */
  lemma TotalsUnderTypeFilter(transactions: seq<Transaction>, searchQuery: string, categoryFilter: string)
    ensures FilteredTotals(FilteredView(transactions, searchQuery, INCOME, categoryFilter)).1 == 0.0
    ensures FilteredTotals(FilteredView(transactions, searchQuery, EXPENSE, categoryFilter)).0 == 0.0
    ensures (forall t :: t in transactions ==> t.amount > 0.0) ==>
      var totals := FilteredTotals(FilteredView(transactions, searchQuery, ALL, categoryFilter));
      totals.0 >= 0.0 && totals.1 >= 0.0
  {
    var vi := FilteredView(transactions, searchQuery, INCOME, categoryFilter);
    var ve := FilteredView(transactions, searchQuery, EXPENSE, categoryFilter);
    FilterMembers(transactions, (t: Transaction) => Visible(t, searchQuery, INCOME, categoryFilter));
    FilterMembers(transactions, (t: Transaction) => Visible(t, searchQuery, EXPENSE, categoryFilter));
    FilterEmptyIff(vi, IsExpense);
    FilterEmptyIff(ve, IsIncome);
    var va := FilteredView(transactions, searchQuery, ALL, categoryFilter);
    FilterMembers(transactions, (t: Transaction) => Visible(t, searchQuery, ALL, categoryFilter));
    FilterMembers(va, IsIncome);
    FilterMembers(va, IsExpense);
  }

  /** `[...new Set([...INCOME_CATEGORIES, ...EXPENSE_CATEGORIES])]` */
  function AllCategories(): seq<string> {
    Distinct(INCOME_CATEGORIES + EXPENSE_CATEGORIES)
  }

  /** Every category of either list is offered exactly once, and the income
      categories come first in their own order. */
  lemma AllCategoriesOrder()
    ensures forall c :: c in AllCategories() <==> c in INCOME_CATEGORIES || c in EXPENSE_CATEGORIES
    ensures forall i, j :: 0 <= i < j < |AllCategories()| ==> AllCategories()[i] != AllCategories()[j]
    ensures |AllCategories()| >= |INCOME_CATEGORIES|
    ensures AllCategories()[..|INCOME_CATEGORIES|] == INCOME_CATEGORIES
  {
    DistinctPrefix(INCOME_CATEGORIES, EXPENSE_CATEGORIES);
  }

  /** De-duplicating `a + b` keeps a repetition-free `a` as its prefix. */
  lemma {:induction false} DistinctPrefix(a: seq<string>, b: seq<string>)
    requires forall i, j :: 0 <= i < j < |a| ==> a[i] != a[j]
    ensures |Distinct(a + b)| >= |a|
    ensures Distinct(a + b)[..|a|] == a
  {
    if b == [] {
      assert a + b == a;
      DistinctOfUnique(a);
    } else {
      var b' := b[..|b| - 1];
      DistinctPrefix(a, b');
      assert a + b == (a + b') + [b[|b| - 1]];
      DistinctSnoc(a + b', b[|b| - 1]);
    }
  }
}
