# MoneyMate core in Dafny

MoneyMate is a personal finance tracker. Users record income and expense
transactions, view aggregated statistics and set a monthly savings-goal
percentage. This project models its aggregation and validation logic:

- the four API handlers: `GET /api/analytics`, `GET /api/stats`,
  `GET`/`POST /api/transactions` and `PUT /api/users/savings-goal`;
- the client-side calculations that consume them: the filtered list and
  totals of the transactions page, the pie data, yearly totals, year
  selector and slice colours of the analytics page, the savings-goal card's
  tiers, and `truncateText`.

It then proves what these promise about the numbers they show.

Modules, in dependency order:

- `Http`: `Option`, the handlers' `Response` (200, 201, 400, 401, 404) and the
  authenticated user as `Option<UserId>`.
- `Calendar`: local dates at second granularity (`Date`, month 0-based as in
  `getMonth()`). It gives the JavaScript `new Date(y, m, d, …)` construction
  used for the year and month windows, including a year from 0 to 99 meaning
  1900 plus that year and day 0 meaning the last day of the previous month.
- `Ledger`: transactions, users, and the `Filter` / `Total` pair that every
  `filter(...).reduce((sum, t) => sum + t.amount, 0)` in the source becomes,
  with their algebra. It also holds `Distinct`, the first-occurrence
  de-duplication of a `Set` spread into an array.
- `AnalyticsRoute`: the 12-bucket monthly series. It is built imperatively on
  an array as the handler does, and proved equal to a functional series whose
  column sums are the year's totals.
- `StatsRoute`: the snapshot figures. The category objects are modelled as
  insertion-ordered association lists built by a loop. Their keys, per-key
  amounts and sums are proved.
- `TransactionsRoute`: the GET query object and the store's newest-first
  order, and the POST validation chain.
- `SavingsGoalRoute`: the goal range check and a `UserStore` class whose
  `PutSavingsGoal` updates one user's goal in place.
- `TransactionsPage`, `AnalyticsPage`, `SavingsGoalCard`, `Format`: the
  client-side calculations. `Format` works on UTF-16 code units, the units
  in which JavaScript measures and cuts strings.

Amounts and percentages are exact `real`s. JavaScript's non-finite results
of the savings-progress division are kept as explicit values
(`NegativeInfinity`, `NotANumber`). `JSON.stringify` sends them as `null`,
which the card reads as 0.

Four behaviours of the code that a reader might not expect, which the model
follows:

- **Savings progress is not always in [0, 100].** The handler caps the
  progress at 100 but does not floor it, and a goal of 0 divides by zero.
  See `StatsRoute.SavingsProgress` and `StatsRoute.ProgressOutsideRange`.
- **The goal is not clamped.** An out-of-range savings goal is rejected
  with 400, not clamped.
- **An amount of 0 is "missing".** It fails the required-field check of
  POST, before the type check is reached.
- **Unexpected types are not errors.** A `type` other than `"income"` counts
  as an expense in the analytics buckets. A `type` other than `"expense"`
  counts as income in the stats category objects.

## Model

| member | source | states |
|---|---|---|
| Calendar.LocalDate | app/api/stats/route.js:24-25 | `new Date(y, m, d, …, s)` for a day in range: a year from 0 to 99 is read as 1900 plus it, months past December roll into the next year, day 0 is the previous month's last day (31 December of the year before for January), the time of day is kept |
| Calendar.FullYear | app/api/analytics/route.js:19-20 | the `Date` constructor reads a year argument from 0 to 99 as 1900 plus it, and any other year as given |
| Calendar.EndOfMonthIsLastDay | app/api/stats/route.js:25 | day 0 of the next month is this month's last calendar day at 23:59:59, December included; February has 29 days exactly in leap years; a clock year from 0 to 99 is read as 1900 plus it |
| Calendar.InYearIff | app/api/analytics/route.js:19-24 | the `$gte startOfYear` / `$lte endOfYear` window holds exactly the dates of the year the constructor reads (1900 + y for y from 0 to 99), both boundary instants included |
| Calendar.InMonthIff | app/api/stats/route.js:23-25 | the current-month window holds exactly the dates of the current year (as the constructor reads it) and month |
| Calendar.StampOrder | app/api/transactions/route.js:31 | the chronological order of dates is the numeric order of their stamps, which the newest-first sort uses |
| Calendar.AtOrBeforeTotalOrder | app/api/transactions/route.js:31 | the date order is total, transitive and antisymmetric, so sorting by date is well defined |
| Ledger.FilterMembers | app/api/stats/route.js:31-37 | a record is selected by `filter(p)` exactly when it is in the input and satisfies `p` |
| Ledger.FilterIsSubsequence | app/dashboard/transactions/page.js:46-61 | `filter` keeps records in their original order |
| Ledger.Total | app/api/stats/route.js:31-33 | a sum of non-negative amounts is non-negative |
| Ledger.FilterFilter | app/dashboard/transactions/page.js:46-61 | filtering by `p` then by `q` is filtering by `p && q` |
| Ledger.FilterIdempotent | app/dashboard/transactions/page.js:46-61 | filtering twice by the same predicate changes nothing |
| Ledger.FilterEmptyIff | app/dashboard/analytics/page.js:109 | a filter is empty exactly when no input record satisfies the predicate |
| Ledger.Distinct | app/dashboard/transactions/page.js:82 | `[...new Set(xs)]` has exactly the elements of `xs`, none twice |
| Ledger.DistinctSnoc | app/dashboard/transactions/page.js:82 | a further element is appended to the de-duplicated list exactly when it is new |
| AnalyticsRoute.ResolveYear | app/api/analytics/route.js:16 | `parseInt(year) \|\| currentYear`: an absent, unparseable or zero year falls back to the current year, any other year is used |
| AnalyticsRoute.YearQueryMembers | app/api/analytics/route.js:19-25 | the query keeps exactly the requester's records dated in the year the `Date` constructor reads from the parameter |
| AnalyticsRoute.TwoDigitYear | app/api/analytics/route.js:16-25 | `?year=24` is used as given and echoed as 24, while the window selects the records of 1924 |
| AnalyticsRoute.BuildMonthlyData | app/api/analytics/route.js:28-46 | the array loop yields the functional series: 12 buckets labelled Jan…Dec, each month's income-typed total, every other type's total as expense, and savings = income − expense |
| AnalyticsRoute.AccumulateMonths | app/api/analytics/route.js:34-41 | after the loop, bucket `i` holds the income and expense totals of the records dated in month `i`; labels are kept |
| AnalyticsRoute.AddRecord | app/api/analytics/route.js:36-40 | one `forEach` step leaves the array equal to the fold of the records seen so far plus this one: its month's income or expense raised by its amount |
| AnalyticsRoute.RunningTotals | app/api/analytics/route.js:34-41 | after any prefix of the pass, each bucket holds the totals of that prefix's incomes and non-incomes dated in its month |
| AnalyticsRoute.ComputeSavings | app/api/analytics/route.js:44-46 | every bucket's savings becomes its income minus its expense, nothing else changes |
| AnalyticsRoute.OneBucketPerTransaction | app/api/analytics/route.js:34-41 | one more record changes only the bucket of its month, by its amount, in the column its type selects |
| AnalyticsRoute.EmptyMonthIsZero | app/api/analytics/route.js:28-32 | a month without records keeps its zero bucket |
| AnalyticsRoute.SeriesTotals | app/api/analytics/route.js:34-41 | the buckets' incomes add up to the year's income-typed total and their expenses to the total of all other records: nothing lost or counted twice |
| AnalyticsRoute.GetAnalytics | app/api/analytics/route.js:10-48 | 401 without a user; otherwise 200 echoing the resolved year, with the monthly series of the records the year window selects |
| StatsRoute.UserQueryMembers | app/api/stats/route.js:28 | the all-time query keeps exactly the requester's records |
| StatsRoute.MonthQueryMembers | app/api/stats/route.js:22-43 | the monthly query keeps exactly the requester's records of the current calendar month |
| StatsRoute.SavingsTarget | app/api/stats/route.js:58 | the target is `goal`% of the month's income, between 0 and the income for a valid goal, and 0 with income exactly when the goal is 0 |
| StatsRoute.SavingsProgress | app/api/stats/route.js:60-62 | 0 without income; at most 100; for a positive target, 100 exactly when savings reach the target, negative exactly when savings are, else savings/target·100; for a zero target, 100 / −Infinity / NaN as savings are positive / negative / zero |
| StatsRoute.ProgressOutsideRange | app/api/stats/route.js:60-62 | the progress can be −250 (overspending) or non-finite (goal 0), so it is not confined to [0, 100] |
| StatsRoute.ProgressJson | app/api/stats/route.js:82-95 | the JSON response carries a finite progress as is and a non-finite one as `null` |
| StatsRoute.ExpensePercentage | app/api/stats/route.js:65-67 | 0 without income, otherwise expenses as a percentage of income; non-negative for non-negative expenses |
| StatsRoute.OverBudgetIff | app/api/stats/route.js:68 | over budget exactly when there is income and expenses exceed 80% of it |
| StatsRoute.IsOverBudget | app/api/stats/route.js:68 | `expensePercentage > 80`; what it means in income and expenses is stated by `StatsRoute.OverBudgetIff` |
| StatsRoute.BuildCategoryMaps | app/api/stats/route.js:70-79 | the loop builds both objects in one pass: "expense" records into one, every other type into the other |
| StatsRoute.Credit | app/api/stats/route.js:76-78 | `obj[c] = (obj[c] \|\| 0) + amount` on the association list: an existing key is updated in place, a new key is appended; its effect is stated by `StatsRoute.CreditLookupSame` and `StatsRoute.CreditLookupOther` |
| StatsRoute.CreditLookupSame | app/api/stats/route.js:76-78 | after the update the category maps to its previous amount (0 when absent) plus the record's amount |
| StatsRoute.CreditLookupOther | app/api/stats/route.js:76-78 | the update leaves every other category's amount, or its absence, unchanged |
| StatsRoute.TallyKeys | app/api/stats/route.js:70-79 | the object's keys are the selected records' categories, each once, in order of first occurrence |
| StatsRoute.TallyUnique | app/api/stats/route.js:70-79 | no category key appears twice |
| StatsRoute.TallyLookup | app/api/stats/route.js:74-78 | a category maps to the sum of its selected records' amounts, and is absent exactly when it has none |
| StatsRoute.TallySum | app/api/stats/route.js:70-79 | the object's amounts add up to the total of the selected records |
| StatsRoute.WellTypedIncome | app/api/stats/route.js:75-78 | when every record is "income" or "expense", the non-expense records are exactly the income records |
| StatsRoute.GetStats | app/api/stats/route.js:7-95 | 401 without a user, 404 "User not found" for an unknown user, otherwise 200 with the snapshot of the user's records and this month's records |
| StatsRoute.SnapshotOf | app/api/stats/route.js:31-95 | the response figures over the two query results: a finite progress is at most 100; without income the progress and the expense percentage are 0 and the month is not over budget; the goal is echoed; actual savings equal the remaining balance, income minus expenses |
| StatsRoute.SnapshotFigures | app/api/stats/route.js:31-68 | net worth is all-time income minus expenses; the month's figures are its income and expense totals; remaining balance = actual savings = their difference; target from the user's goal, which is echoed; over budget exactly above 80% |
| StatsRoute.SnapshotCategorySums | app/api/stats/route.js:70-79 | the expense object adds up to the month's expenses, the income object to the month's non-expense records |
| TransactionsRoute.BuildQuery | app/api/transactions/route.js:22-29 | the query object matches a record exactly when it is the requester's, of the given type and category when those are non-empty, and within the given date bounds |
| TransactionsRoute.NewestFirstChronological | app/api/transactions/route.js:31 | a newest-first list has every record no earlier than the ones after it |
| TransactionsRoute.Insert | app/api/transactions/route.js:31 | inserting into a newest-first list keeps it newest first and adds exactly that record |
| TransactionsRoute.SortNewestFirst | app/api/transactions/route.js:31 | `sort({ date: -1 })` returns a newest-first permutation of its input |
| TransactionsRoute.GetTransactions | app/api/transactions/route.js:6-33 | 401 without a user; otherwise exactly the selected records, each as often as in the store, newest first |
| TransactionsRoute.Validate | app/api/transactions/route.js:55-74 | a body passes exactly when all four fields are present with a non-zero amount, the type is income or expense and the amount is positive; the errors come in that order with the source's messages |
| TransactionsRoute.RequiredPresent | app/api/transactions/route.js:55 | `type && amount && category && date`: non-empty strings, a present non-zero amount and a present date; its place in the guard chain is stated by `TransactionsRoute.Validate` and `TransactionsRoute.ZeroAmountIsMissing` |
| TransactionsRoute.CreateTransaction | app/api/transactions/route.js:43-85 | 401 first, then 400 with the validation message, otherwise 201 with the requester's record carrying the body's fields and notes defaulting to "" |
| TransactionsRoute.ZeroAmountIsMissing | app/api/transactions/route.js:55-60 | an amount of 0 is reported as a missing field, whatever the type |
| SavingsGoalRoute.AcceptGoal | app/api/users/savings-goal/route.js:18 | a goal is accepted exactly when present and within [0, 100] |
| SavingsGoalRoute.GoalBoundaries | app/api/users/savings-goal/route.js:18 | 0 and 100 are accepted; anything below 0, above 100 or absent is refused |
| SavingsGoalRoute.StoredGoalBoundsTarget | models/User.js:18-23 | every stored goal lies in the schema range [0, 100], so the stats target of a stored user lies between 0 and the month's income |
| SavingsGoalRoute.UserStore.PutSavingsGoal | app/api/users/savings-goal/route.js:6-38 | 401, then 400 for an out-of-range goal, then 404 for an unknown user, all leaving the users unchanged; otherwise only that user's goal changes and is returned |
| TransactionsPage.ToLower | app/dashboard/transactions/page.js:47-48 | lower-casing maps each character, keeping the length |
| TransactionsPage.SearchIgnoresCase | app/dashboard/transactions/page.js:46-51 | lower-casing the query does not change which records match |
| TransactionsPage.ApplyFilters | app/dashboard/transactions/page.js:42-63 | the three conditional narrowings give exactly the records passing every active filter, in their original order |
| TransactionsPage.Narrow | app/dashboard/transactions/page.js:45-60 | an active filter narrows to the records passing it; an inactive one keeps the list unchanged |
| TransactionsPage.NoFilterShowsAll | app/dashboard/transactions/page.js:42-63 | with an empty search and both filters at "all", every record is shown |
| TransactionsPage.FilteredViewProperties | app/dashboard/transactions/page.js:42-63 | the shown list is an order-preserving selection, stable under re-filtering, holding exactly the visible records, all of the filtered type and category |
| TransactionsPage.TotalsUnderTypeFilter | app/dashboard/transactions/page.js:85-91 | filtering on one type zeroes the other type's total; positive amounts give non-negative totals |
| TransactionsPage.FilteredTotals | app/dashboard/transactions/page.js:85-91 | the income and expense totals of the shown list: non-negative for non-negative amounts, and 0 for a type none of the shown records has |
| TransactionsPage.AllCategoriesOrder | app/dashboard/transactions/page.js:82 | the category choices are every income and expense category once, income categories first in their own order |
| TransactionsPage.DistinctPrefix | app/dashboard/transactions/page.js:82 | de-duplicating `a + b` keeps a repetition-free `a` as its prefix |
| AnalyticsPage.SlicesOfTable | app/dashboard/analytics/page.js:37-49 | one slice per property in the object's order, each with the amount its name maps to, together adding up to the object's sum |
| AnalyticsPage.ExpensePieData | app/dashboard/analytics/page.js:37-42 | no slices before stats are loaded |
| AnalyticsPage.IncomePieData | app/dashboard/analytics/page.js:44-49 | no slices before stats are loaded |
| AnalyticsPage.ExpensePieOfMonth | app/dashboard/analytics/page.js:37-42 | the expense pie has one slice per distinct expense category of the month, adds up to the month's expenses, and is empty exactly when the month has no expense |
| AnalyticsPage.IncomePieOfMonth | app/dashboard/analytics/page.js:44-49 | the same for the income pie over the month's non-expense records |
| AnalyticsPage.YearlyTotals | app/dashboard/analytics/page.js:52-54 | the yearly savings are the yearly income minus the yearly expenses |
| AnalyticsPage.YearlyTotalsOfSeries | app/dashboard/analytics/page.js:52-54 | for the endpoint's series, the cards show the year's income-typed total, the total of every other record, and their difference |
| AnalyticsPage.YearOptions | app/dashboard/analytics/page.js:79 | five years, starting at the current one, each one less than the previous |
| AnalyticsPage.YearOptionsRange | app/dashboard/analytics/page.js:76-79 | the options are exactly the current year and the four before it; each non-zero choice is the year the endpoint reports |
| AnalyticsPage.CategoryColor | app/dashboard/analytics/page.js:123 | a name with a colour gets it, any other name the fallback `#94a3b8` |
| AnalyticsPage.ListedCategoriesColored | app/dashboard/analytics/page.js:153 | every category the forms offer has its own colour, never the fallback |
| SavingsGoalCard.TierOf | components/dashboard/SavingsGoal.js:12-13 | progress of at least 100 is on track, from 50 below 100 halfway, below 50 behind |
| SavingsGoalCard.IsOnTrack | components/dashboard/SavingsGoal.js:12 | `savingsProgress >= 100` holds exactly in the on-track tier |
| SavingsGoalCard.ProgressColor | components/dashboard/SavingsGoal.js:13 | the bar colour is the colour of the progress's tier: green, yellow or red |
| SavingsGoalCard.StatusMessage | components/dashboard/SavingsGoal.js:67-79 | the status line is the message of the progress's tier |
| SavingsGoalCard.HighlightActual | components/dashboard/SavingsGoal.js:58-60 | `actualSavings >= savingsTarget`; how it relates to the tier is stated by `SavingsGoalCard.CardAgreesWithStats` and `SavingsGoalCard.ZeroGoalCard` |
| SavingsGoalCard.ColorAndMessageFollowTier | components/dashboard/SavingsGoal.js:13-79 | the bar colour and the status message never disagree: green goes with the on-track message, yellow with halfway, red with behind; a `null` progress is shown red, as behind |
| SavingsGoalCard.BarWidth | components/dashboard/SavingsGoal.js:43 | the bar width never exceeds 100, is 100 exactly when on track, and is the progress otherwise |
| SavingsGoalCard.CardAgreesWithStats | components/dashboard/SavingsGoal.js:58-60 | with income and a positive target, on track, highlighted and full bar all mean the savings reached the target |
| SavingsGoalCard.NoIncomeShowsBehind | components/dashboard/SavingsGoal.js:58-79 | without income the card shows "behind", while the actual amount is highlighted exactly when nothing was spent |
| SavingsGoalCard.ZeroGoalCard | components/dashboard/SavingsGoal.js:12-13 | with a goal of 0 the card is on track exactly when something was saved; breaking even arrives as `null` and shows as behind while highlighted |
| Format.TruncateText | utils/format.js:32-35 | absent, empty (whatever the limit) or short text is returned unchanged; longer non-empty text becomes its first `maxLength` code units (none for a negative limit) plus "..."; lengths are in UTF-16 code units |
| Format.TruncateKeepsPrefix | utils/format.js:33-34 | the result always begins with the first `min(length, maxLength)` code units and is at most three units longer than the text |
| Format.Prefix | utils/format.js:34 | `substring(0, n)` keeps the first `n` code units, none for a negative `n` and all for an `n` past the end |
| Format.DefaultTruncation | utils/format.js:32-34 | without a limit, a text over 50 code units becomes its first 50 plus "...", 53 units in all |
| Format.EmojiCountTwice | utils/format.js:33-34 | thirty emoji are 60 code units, so the default limit truncates them to their first 25 plus "..." |
| Format.CutSplitsPair | utils/format.js:34 | a limit inside a surrogate pair keeps a lone high surrogate before the "..." |

## Left out

- Storage: the database connection, the Mongoose queries and `findByIdAndUpdate` are not modelled. The store is a sequence of records and the users a map. The database's newest-first sort is stated by its postcondition only.
- Authentication: `getUserFromRequest` is an `Option<UserId>` parameter.
- The 500 handlers: they wrap storage failures and are not modelled.
- Time: the clock (`new Date()`) is a parameter, in the current year and the current date.
- Timezones: dates are local calendar fields at second granularity. Server timezones, milliseconds and the sub-second gap after 23:59:59 are not modelled.
- Calendar.LocalDate: a year beyond ±275760 gives an Invalid Date in JavaScript; the model has unbounded years and no Invalid Date.
- Date strings: parsing the `startDate`/`endDate` and body `date` strings is not modelled. The model receives them as dates; an unparseable string (an Invalid Date) is not modelled.
- Non-numeric JSON values: a `null` amount, or a string amount or goal compared with `<`, are not modelled. Amounts and goals are numbers or absent. A `null` goal passes the guard of the savings-goal route, since `null < 0` and `null > 100` are both false, and would be stored; the model has no `null` goal.
- Floating point: rounding is not modelled; amounts are exact reals. Of the non-finite values, only those of the savings-progress division are modelled.
- TransactionsPage.ToLower: lower-cases ASCII letters only; Unicode case mapping is not modelled.
- StatsRoute.TallyKeys: the category object is an insertion-ordered association list; JavaScript lists integer-like keys (a category named "2024") first in numeric order, which is not modelled.
- StatsRoute.TallyLookup: `obj[category] || 0` reads a key inherited from `Object.prototype` (a category named "constructor") as that inherited value; categories are assumed not to collide with inherited names.
- AnalyticsPage.SlicesOfTable: `Object.entries` is modelled as the association list in insertion order, without the integer-like-keys-first ordering.
- AnalyticsPage.ExpensePieOfMonth: inherits the key order and inherited-name limits of StatsRoute.TallyKeys and StatsRoute.TallyLookup.
- AnalyticsPage.IncomePieOfMonth: inherits the key order and inherited-name limits of StatsRoute.TallyKeys and StatsRoute.TallyLookup.
- AnalyticsPage.CategoryColor: a category named like an inherited property (such as "constructor") is not modelled.
- Month labels: the labels of `toLocaleString('default', { month: 'short' })` are fixed to the English short names.
- Page state: the React state, effects and fetching of the pages are not modelled. Only the values they compute from their inputs are.
- `formatCurrency`, `formatDate`, `formatDateForInput` and `formatPercentage` wrap `Intl` and date-fns and are not modelled.
- Routes outside the model: `app/api/transactions/[id]/route.js` (update and delete) is not part of this model. Neither is the client's API wrapper in `utils/api.js`.
- SavingsGoalCard.BarWidth: the CSS meaning of a negative width is not modelled; the width is the number the card computes.
