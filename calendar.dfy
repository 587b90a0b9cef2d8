/** The part of JavaScript's Date that the application relies on, at day
    resolution: calendar months with year wrap, month normalisation as done
    by `new Date(y, m, 1)` and `setMonth`, the "en-US" short month names,
    and a day-resolution stand-in for getTime(). */
module Calendar {

  /** getMonth(): 0 = January ... 11 = December. */
  type Month = m: int | 0 <= m < 12
  type Day = d: int | 1 <= d <= 31 witness 1

  datatype Date = Date(year: int, month: Month, day: Day)

  /** A calendar month of a given year. */
  datatype Period = Period(year: int, month: Month)

  function PeriodOf(d: Date): Period
  {
    Period(d.year, d.month)
  }

  /** Number of months since January of year 0. */
  function MonthIndex(p: Period): int
  {
    p.year * 12 + p.month
  }

  /** Day-resolution stand-in for getTime(): larger means later. */
  function Ordinal(d: Date): int
  {
    MonthIndex(PeriodOf(d)) * 32 + d.day
  }

  /** Ordinal orders dates as the calendar does: by year, then month, then day. */
  lemma OrdinalIsCalendarOrder(a: Date, b: Date)
    ensures Ordinal(a) < Ordinal(b) <==>
      a.year < b.year
      || (a.year == b.year && a.month < b.month)
      || (a.year == b.year && a.month == b.month && a.day < b.day)
    ensures Ordinal(a) == Ordinal(b) <==> a == b
  {
  }

  /** The month before p, wrapping January to December of the previous year. */
  function PreviousPeriod(p: Period): (r: Period)
    ensures MonthIndex(r) == MonthIndex(p) - 1
  {
    if p.month == 0 then Period(p.year - 1, 11) else Period(p.year, p.month - 1)
  }

  /** The month k months before p, as `new Date(year, month - k, 1)` normalises it. */
  function MonthsBefore(p: Period, k: int): (r: Period)
    ensures MonthIndex(r) == MonthIndex(p) - k
  {
    var idx := MonthIndex(p) - k;
    Period(idx / 12, idx % 12)
  }

  /** Within one year's span, different offsets give different months. */
  lemma MonthsBeforeDistinct(p: Period, a: int, b: int)
    requires 0 <= a < 12 && 0 <= b < 12 && a != b
    ensures MonthsBefore(p, a).month != MonthsBefore(p, b).month
  {
    var ra, rb := MonthsBefore(p, a), MonthsBefore(p, b);
    assert MonthIndex(ra) - MonthIndex(rb) == b - a;
  }

  predicate IsLeapYear(y: int)
  {
    (y % 4 == 0 && y % 100 != 0) || y % 400 == 0
  }

  function DaysInMonth(y: int, m: Month): (r: int)
    ensures 28 <= r <= 31
  {
    if m == 1 then (if IsLeapYear(y) then 29 else 28)
    else if m == 3 || m == 5 || m == 8 || m == 10 then 30
    else 31
  }

  /** `d.setMonth(d.getMonth() - k)`: the same day of the month k months
      earlier; a day past the end of that month overflows into the next one
      (31 August minus six months is 3 March, or 2 March in a leap year). */
  function SetMonthBack(d: Date, k: int): (r: Date)
    ensures var t := MonthsBefore(PeriodOf(d), k);
      (d.day <= DaysInMonth(t.year, t.month) ==> r == Date(t.year, t.month, d.day))
      && (d.day > DaysInMonth(t.year, t.month) ==>
            PeriodOf(r) == MonthsBefore(PeriodOf(d), k - 1)
            && r.day == d.day - DaysInMonth(t.year, t.month))
  {
    var t := MonthsBefore(PeriodOf(d), k);
    var len := DaysInMonth(t.year, t.month);
    if d.day <= len then
      Date(t.year, t.month, d.day)
    else
      var n := MonthsBefore(PeriodOf(d), k - 1);
      Date(n.year, n.month, d.day - len)
  }

  /** toLocaleDateString("en-US", { month: "short" }). */
  const MonthLabels: seq<string> :=
    ["Jan", "Feb", "Mar", "Apr", "May", "Jun", "Jul", "Aug", "Sep", "Oct", "Nov", "Dec"]

  function MonthLabel(m: Month): string
  {
    MonthLabels[m]
  }

  /** Inverse of MonthLabel on the twelve labels. */
  function MonthOfLabel(s: string): (r: int)
    ensures -1 <= r < 12
  {
    if s == "Jan" then 0 else if s == "Feb" then 1 else if s == "Mar" then 2
    else if s == "Apr" then 3 else if s == "May" then 4 else if s == "Jun" then 5
    else if s == "Jul" then 6 else if s == "Aug" then 7 else if s == "Sep" then 8
    else if s == "Oct" then 9 else if s == "Nov" then 10 else if s == "Dec" then 11
    else -1
  }

  lemma MonthLabelRoundTrip(m: Month)
    ensures MonthOfLabel(MonthLabel(m)) == m
  {
  }

  /** Different months have different labels, so a label identifies its month. */
  lemma MonthLabelInjective(a: Month, b: Month)
    ensures MonthLabel(a) == MonthLabel(b) <==> a == b
  {
    MonthLabelRoundTrip(a);
    MonthLabelRoundTrip(b);
  }
}
