/** Local calendar dates at second granularity, and the part of the
    JavaScript `Date` constructor the route handlers rely on: building a
    local date from year, month index and day, where a year from 0 to 99
    stands for 1900 plus that year, a month index past 11 carries into the
    next year and day 0 means the last day of the preceding month. */
module Calendar {

  const SECONDS_PER_DAY := 86400
  /** 23:59:59 as seconds since midnight. */
  const LAST_SECOND := 86399

  /** A local calendar instant: `month` is 0-based as in `Date.getMonth()`. */
  datatype DateTime = DateTime(year: int, month: int, day: int, second: int)

  predicate IsLeapYear(y: int) {
    (y % 4 == 0 && y % 100 != 0) || y % 400 == 0
  }

  function DaysInMonth(y: int, m: int): (n: int)
    requires 0 <= m < 12
    ensures 28 <= n <= 31
    ensures m == 1 ==> (n == 29 <==> IsLeapYear(y))
  {
    if m == 1 then (if IsLeapYear(y) then 29 else 28)
    else if m == 3 || m == 5 || m == 8 || m == 10 then 30
    else 31
  }

  predicate ValidDate(d: DateTime) {
    && 0 <= d.month < 12
    && 1 <= d.day <= DaysInMonth(d.year, d.month)
    && 0 <= d.second < SECONDS_PER_DAY
  }

  /** Every `Date` value denotes an existing calendar day and time of day. */
  type Date = d: DateTime | ValidDate(d) witness DateTime(1970, 0, 1, 0)

  /** Chronological order of local instants (the `$gte` / `$lte` comparisons). */
  predicate AtOrBefore(a: DateTime, b: DateTime) {
    || a.year < b.year
    || (a.year == b.year && a.month < b.month)
    || (a.year == b.year && a.month == b.month && a.day < b.day)
    || (a.year == b.year && a.month == b.month && a.day == b.day && a.second <= b.second)
  }

  /** A number that orders local instants: seconds since a fixed origin,
      with every month counted as 32 days. */
  function Stamp(d: DateTime): int {
    ((d.year * 12 + d.month) * 32 + d.day) * SECONDS_PER_DAY + d.second
  }

  /** On valid dates the chronological order is the order of their stamps. */
  lemma StampOrder(a: Date, b: Date)
    ensures AtOrBefore(a, b) <==> Stamp(a) <= Stamp(b)
  {
  }

  predicate InRange(d: DateTime, lo: DateTime, hi: DateTime) {
    AtOrBefore(lo, d) && AtOrBefore(d, hi)
  }

  /** The `Date` constructor reads a year argument from 0 to 99 as a year of
      the twentieth century: `new Date(24, 0, 1)` is 1 January 1924. */
  function FullYear(year: int): (y: int)
    ensures 0 <= year <= 99 ==> y == 1900 + year
    ensures (year < 0 || 99 < year) ==> y == year
  {
    if 0 <= year <= 99 then 1900 + year else year
  }

  /** `new Date(year, monthIndex, day, 0, 0, second)` in local time, for a day
      between 0 and the length of the (normalised) month. */
  function LocalDate(year: int, monthIndex: int, day: int, second: int): (d: Date)
    requires 0 <= day <= DaysInMonth(FullYear(year) + monthIndex / 12, monthIndex % 12)
    requires 0 <= second < SECONDS_PER_DAY
    ensures d.second == second
    ensures 1 <= day ==> d.day == day && d.month == monthIndex % 12 && d.year == FullYear(year) + monthIndex / 12
    ensures day == 0 && monthIndex % 12 == 0 ==>
      d == DateTime(FullYear(year) + monthIndex / 12 - 1, 11, 31, second)
    ensures day == 0 && monthIndex % 12 != 0 ==>
      d == DateTime(FullYear(year) + monthIndex / 12, monthIndex % 12 - 1,
        DaysInMonth(FullYear(year) + monthIndex / 12, monthIndex % 12 - 1), second)
  {
    var y, m := FullYear(year) + monthIndex / 12, monthIndex % 12;
    if day >= 1 then DateTime(y, m, day, second)
    else if m == 0 then DateTime(y - 1, 11, DaysInMonth(y - 1, 11), second)
    else DateTime(y, m - 1, DaysInMonth(y, m - 1), second)
  }

  /** `new Date(year, 0, 1)` */
  function StartOfYear(year: int): Date {
    LocalDate(year, 0, 1, 0)
  }

  /** `new Date(year, 11, 31, 23, 59, 59)` */
  function EndOfYear(year: int): Date {
    LocalDate(year, 11, 31, LAST_SECOND)
  }

  /** `new Date(now.getFullYear(), now.getMonth(), 1)` */
  function StartOfMonth(now: Date): Date {
    LocalDate(now.year, now.month, 1, 0)
  }

  /** `new Date(now.getFullYear(), now.getMonth() + 1, 0, 23, 59, 59)`: day 0 of the next month. */
  function EndOfMonth(now: Date): Date {
    LocalDate(now.year, now.month + 1, 0, LAST_SECOND)
  }

  /** Day 0 of the following month is the last calendar day of this month at
      23:59:59, also in December (the month index 12 rolls into January of
      the next year) and in February of a leap year. */
  lemma EndOfMonthIsLastDay(now: Date)
    ensures var y := FullYear(now.year);
      EndOfMonth(now) == DateTime(y, now.month, DaysInMonth(y, now.month), LAST_SECOND)
    ensures now.month == 11 ==> EndOfMonth(now).day == 31 && EndOfMonth(now).year == FullYear(now.year)
    ensures now.month == 1 ==> (EndOfMonth(now).day == 29 <==> IsLeapYear(FullYear(now.year)))
  {
    if now.month == 11 {
      assert (now.month + 1) / 12 == 1 && (now.month + 1) % 12 == 0;
    } else {
      assert (now.month + 1) / 12 == 0 && (now.month + 1) % 12 == now.month + 1;
    }
  }

  /** The year window of the analytics query holds exactly the dates of the
      year the constructor reads, both boundary instants included; a year
      from 0 to 99 selects 1900 plus that year. */
  lemma InYearIff(d: Date, year: int)
    ensures InRange(d, StartOfYear(year), EndOfYear(year)) <==> d.year == FullYear(year)
    ensures InRange(DateTime(FullYear(year), 0, 1, 0), StartOfYear(year), EndOfYear(year))
    ensures InRange(DateTime(FullYear(year), 11, 31, LAST_SECOND), StartOfYear(year), EndOfYear(year))
  {
  }

  /** The current-month window of the stats query holds exactly the dates of
      the month of `now`, from day 1 at 00:00:00 to the last day at 23:59:59
      (a clock year from 0 to 99 is read as 1900 plus that year). */
  lemma InMonthIff(d: Date, now: Date)
    ensures InRange(d, StartOfMonth(now), EndOfMonth(now)) <==> d.year == FullYear(now.year) && d.month == now.month
    ensures StartOfMonth(now) == DateTime(FullYear(now.year), now.month, 1, 0)
  {
    EndOfMonthIsLastDay(now);
  }

  /** `AtOrBefore` is a total preorder, so a newest-first listing is well defined. */
  lemma AtOrBeforeTotalOrder(a: DateTime, b: DateTime, c: DateTime)
    ensures AtOrBefore(a, b) || AtOrBefore(b, a)
    ensures AtOrBefore(a, b) && AtOrBefore(b, c) ==> AtOrBefore(a, c)
    ensures AtOrBefore(a, b) && AtOrBefore(b, a) ==> a == b
  {
  }
}
