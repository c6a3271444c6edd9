/** Calendar dates and the month arithmetic every schedule builder shares.
    A `Date` is Python's `datetime.date` as a (year, month, day) triple; the
    month index `year * 12 + (month - 1)` is the period a date falls in. */
module Calendar {
  import opened Periods

  datatype Date = Date(year: int, month: int, day: int)
  {
    /** The month and day checks `datetime.date` makes on construction. Its
        year range, 1 to 9999, is not enforced: dates run on past 9999. */
    predicate Valid()
    {
      1 <= month <= 12 && 1 <= day <= DaysInMonth(year, month)
    }
  }

  predicate IsLeap(y: int)
  {
    (y % 4 == 0 && y % 100 != 0) || y % 400 == 0
  }

  /** `calendar.monthrange(y, m)[1]` */
  function DaysInMonth(y: int, m: int): (n: int)
    requires 1 <= m <= 12
    ensures 28 <= n <= 31
  {
    if m == 2 then (if IsLeap(y) then 29 else 28)
    else if m == 4 || m == 6 || m == 9 || m == 11 then 30
    else 31
  }

  /** The period a date falls in. */
  function MonthIndex(d: Date): Period
  {
    d.year * 12 + (d.month - 1)
  }

  /** The first day of period `p`. */
  function FirstOfMonth(p: Period): (d: Date)
    ensures d.Valid() && d.day == 1
    ensures MonthIndex(d) == p
  {
    Date(p / 12, p % 12 + 1, 1)
  }

  /** Python's ordering of dates: by year, then month, then day. */
  predicate DateLe(a: Date, b: Date)
  {
    a.year < b.year
    || (a.year == b.year && a.month < b.month)
    || (a.year == b.year && a.month == b.month && a.day <= b.day)
  }

  /** On valid dates, comparing dates orders their periods. */
  lemma DateLeMonthIndex(a: Date, b: Date)
    requires a.Valid() && b.Valid()
    ensures DateLe(a, b) ==> MonthIndex(a) <= MonthIndex(b)
    ensures MonthIndex(a) < MonthIndex(b) ==> DateLe(a, b)
    ensures a.day == 1 && b.day == 1 ==> (DateLe(a, b) <==> MonthIndex(a) <= MonthIndex(b))
  {
  }

  /** `add_months(d, n)`: the first of the month `n` months after `d`'s month. */
  function AddMonths(d: Date, n: int): (r: Date)
    ensures r.day == 1 && 1 <= r.month <= 12
    ensures MonthIndex(r) == MonthIndex(d) + n
  {
    Date(d.year + (d.month - 1 + n) / 12, (d.month - 1 + n) % 12 + 1, 1)
  }

  /** `add_months` depends only on the month `d` is in. */
  lemma AddMonthsIsFirstOf(d: Date, n: int)
    ensures AddMonths(d, n) == FirstOfMonth(MonthIndex(d) + n)
  {
    var r := AddMonths(d, n);
    var f := FirstOfMonth(MonthIndex(d) + n);
    assert MonthIndex(r) == MonthIndex(f);
    assert r.year * 12 + (r.month - 1) == f.year * 12 + (f.month - 1);
  }

  /** `add_months(d, 0)` is the first of `d`'s own month. */
  lemma AddMonthsZero(d: Date)
    requires d.Valid()
    ensures AddMonths(d, 0) == Date(d.year, d.month, 1)
  {
    AddMonthsIsFirstOf(d, 0);
    assert MonthIndex(Date(d.year, d.month, 1)) == MonthIndex(d);
    FirstOfMonthUnique(Date(d.year, d.month, 1));
  }

  /** A first-of-month date is determined by its period. */
  lemma FirstOfMonthUnique(d: Date)
    requires d.Valid() && d.day == 1
    ensures FirstOfMonth(MonthIndex(d)) == d
  {
    var f := FirstOfMonth(MonthIndex(d));
    assert d.year * 12 + (d.month - 1) == f.year * 12 + (f.month - 1);
  }

  /** Adding `a` months and then `b` months adds `a + b` months. */
  lemma AddMonthsCompose(d: Date, a: int, b: int)
    ensures AddMonths(AddMonths(d, a), b) == AddMonths(d, a + b)
  {
    AddMonthsIsFirstOf(AddMonths(d, a), b);
    AddMonthsIsFirstOf(d, a + b);
  }

  /** Number of months from `start`'s month to `end`'s month, both included. */
  function MonthSpan(start: Date, end: Date): nat
  {
    if MonthIndex(end) < MonthIndex(start) then 0 else MonthIndex(end) - MonthIndex(start) + 1
  }

  /** `list(daterange_months(start, end))`: the first of every month from
      `start`'s month to `end`'s month, ascending, one per month. */
  method DaterangeMonths(start: Date, end: Date) returns (r: seq<Date>)
    requires start.Valid() && end.Valid()
    ensures |r| == MonthSpan(start, end)
    ensures MonthIndex(end) < MonthIndex(start) ==> r == []
    ensures forall i :: 0 <= i < |r| ==> r[i] == FirstOfMonth(MonthIndex(start) + i)
  {
    var cur := Date(start.year, start.month, 1);
    var last := Date(end.year, end.month, 1);
    r := [];
    while DateLe(cur, last)
      invariant cur.Valid() && cur.day == 1
      invariant MonthIndex(cur) == MonthIndex(start) + |r|
      invariant |r| <= MonthSpan(start, end)
      invariant MonthIndex(end) < MonthIndex(start) ==> r == []
      invariant forall i :: 0 <= i < |r| ==> r[i] == FirstOfMonth(MonthIndex(start) + i)
      decreases MonthIndex(end) - MonthIndex(cur)
    {
      DateLeMonthIndex(cur, last);
      FirstOfMonthUnique(cur);
      r := r + [cur];
      cur := AddMonths(cur, 1);
    }
    DateLeMonthIndex(cur, last);
  }

  /** The month sequence is strictly ascending. */
  lemma FirstOfMonthAscending(a: Period, b: Period)
    requires a < b
    ensures DateLe(FirstOfMonth(a), FirstOfMonth(b)) && FirstOfMonth(a) != FirstOfMonth(b)
  {
    DateLeMonthIndex(FirstOfMonth(a), FirstOfMonth(b));
  }
}
