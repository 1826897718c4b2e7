/** Calendar dates as the tracker reads them through `Date` and date-fns: a year, a zero-based
    month and a day of the month. Time of day and time zones are not part of the model. */
module Calendar {

  /** `Date.prototype.getMonth()`: 0 is January, 11 is December. */
  type Month = m: int | 0 <= m < 12

  datatype Date = Date(year: int, month: Month, day: int)

  /** The proleptic Gregorian leap-year rule that JavaScript dates follow. */
  predicate IsLeapYear(y: int) {
    (y % 4 == 0 && y % 100 != 0) || y % 400 == 0
  }

  function DaysInMonth(y: int, m: Month): (n: int)
    ensures 28 <= n <= 31
    ensures m == 1 ==> (n == 29 <==> IsLeapYear(y)) && (n == 28 <==> !IsLeapYear(y))
    ensures m != 1 ==> (n == 30 <==> m in {3, 5, 8, 10})
  {
    if m == 1 then (if IsLeapYear(y) then 29 else 28)
    else if m in {3, 5, 8, 10} then 30
    else 31
  }

  /** A date that exists on the calendar. */
  predicate ValidDate(d: Date) {
    1 <= d.day <= DaysInMonth(d.year, d.month)
  }

  /** `startOfMonth(date)`. */
  function StartOfMonth(d: Date): (r: Date)
    ensures ValidDate(r) && r.day == 1 && r.year == d.year && r.month == d.month
  {
    Date(d.year, d.month, 1)
  }

  /** `subMonths(d, k)` applied to the first day of a month: the first day of the month that
      lies `k` months earlier, counting months continuously across years. */
  function SubMonths(d: Date, k: nat): (r: Date)
    requires d.day == 1
    ensures ValidDate(r) && r.day == 1
    ensures r.year * 12 + r.month == d.year * 12 + d.month - k
  {
    var t := d.year * 12 + d.month - k;
    Date(t / 12, t % 12, 1)
  }

  /** Going back twelve months from the first of a month lands on the first of the same month
      one year earlier: the comparison period of the statistics page. */
  lemma TwelveMonthsBackIsSameMonthLastYear(d: Date)
    requires d.day == 1
    ensures SubMonths(d, 12) == Date(d.year - 1, d.month, 1)
  {
    var r := SubMonths(d, 12);
    assert r.year * 12 + r.month == (d.year - 1) * 12 + d.month;
  }

  /** `eachDayOfInterval({start: startOfMonth(d), end: endOfMonth(d)})`: every day of the
      month, in order. */
  function DaysOfMonth(y: int, m: Month): (days: seq<Date>)
    ensures |days| == DaysInMonth(y, m)
    ensures forall i :: 0 <= i < |days| ==> days[i] == Date(y, m, i + 1) && ValidDate(days[i])
  {
    seq(DaysInMonth(y, m), i => Date(y, m, i + 1))
  }
}
