/**
 The proleptic Gregorian calendar behind `datetime`: dates, the day after one,
 and the day number that orders them.
 */
module Calendar {

  datatype Date = Date(year: int, month: int, day: int)

  predicate Leap(y: int) {
    y % 4 == 0 && (y % 100 != 0 || y % 400 == 0)
  }

  function MonthLen(y: int, m: int): int {
    if m == 2 then (if Leap(y) then 29 else 28)
    else if m in {4, 6, 9, 11} then 30
    else 31
  }

  predicate Valid(d: Date) {
    d.year >= 1 && 1 <= d.month <= 12 && 1 <= d.day <= MonthLen(d.year, d.month)
  }

  function BeforeYear(y: int): int {
    (y - 1) * 365 + (y - 1) / 4 - (y - 1) / 100 + (y - 1) / 400
  }

  function BeforeMonth(y: int, m: int): int
    requires 1 <= m <= 12
  {
    [0, 31, 59, 90, 120, 151, 181, 212, 243, 273, 304, 334][m - 1] + if m > 2 && Leap(y) then 1 else 0
  }

  function YearLen(y: int): int {
    if Leap(y) then 366 else 365
  }

  /** The day number: 1 January of year 1 is day 1, a Monday. */
  function Ord(d: Date): int
    requires Valid(d)
  {
    BeforeYear(d.year) + BeforeMonth(d.year, d.month) + d.day
  }

  function NextDay(d: Date): Date {
    if d.day < MonthLen(d.year, d.month) then Date(d.year, d.month, d.day + 1)
    else if d.month < 12 then Date(d.year, d.month + 1, 1)
    else Date(d.year + 1, 1, 1)
  }

  lemma FourthStep(y: int)
    ensures y / 4 == (y - 1) / 4 + if y % 4 == 0 then 1 else 0
  {
  }

  lemma CenturyStep(y: int)
    ensures y / 100 == (y - 1) / 100 + if y % 100 == 0 then 1 else 0
  {
  }

  lemma EraStep(y: int)
    ensures y / 400 == (y - 1) / 400 + if y % 400 == 0 then 1 else 0
    ensures y % 400 == 0 ==> y % 100 == 0
    ensures y % 100 == 0 ==> y % 4 == 0
  {
  }

  lemma YearStep(y: int)
    ensures BeforeYear(y + 1) == BeforeYear(y) + YearLen(y)
  {
    FourthStep(y);
    CenturyStep(y);
    EraStep(y);
  }

  lemma MonthStep(y: int, m: int)
    requires 1 <= m <= 12
    ensures BeforeMonth(y, m) + MonthLen(y, m) == if m < 12 then BeforeMonth(y, m + 1) else YearLen(y)
  {
  }

  /** The next day is a date again, and its number is the next one. */
  lemma NextDayIsNext(d: Date)
    requires Valid(d)
    ensures Valid(NextDay(d)) && Ord(NextDay(d)) == Ord(d) + 1
  {
    YearStep(d.year);
    MonthStep(d.year, d.month);
  }

  lemma {:induction false} YearsApart(y: int, z: int)
    requires y <= z
    ensures BeforeYear(z) >= BeforeYear(y) + 365 * (z - y)
    decreases z - y
  {
    if y < z {
      YearsApart(y, z - 1);
      YearStep(z - 1);
    }
  }

  lemma InYear(d: Date)
    requires Valid(d)
    ensures BeforeYear(d.year) < Ord(d) <= BeforeYear(d.year + 1)
  {
    YearStep(d.year);
  }

  predicate Earlier(a: Date, b: Date) {
    || a.year < b.year
    || (a.year == b.year && (a.month < b.month || (a.month == b.month && a.day < b.day)))
  }

  lemma MonthsApart(y: int, m: int, n: int)
    requires 1 <= m < n <= 12
    ensures BeforeMonth(y, m) + MonthLen(y, m) <= BeforeMonth(y, n)
  {
  }

  lemma EarlierIsLess(a: Date, b: Date)
    requires Valid(a) && Valid(b) && Earlier(a, b)
    ensures Ord(a) < Ord(b)
  {
    if a.year < b.year {
      InYear(a);
      InYear(b);
      YearsApart(a.year + 1, b.year);
    } else if a.month < b.month {
      MonthsApart(a.year, a.month, b.month);
    }
  }

  /** Day numbers order dates as calendars do. */
  lemma OrdOrders(a: Date, b: Date)
    requires Valid(a) && Valid(b)
    ensures Earlier(a, b) <==> Ord(a) < Ord(b)
    ensures a == b <==> Ord(a) == Ord(b)
  {
    if Earlier(a, b) {
      EarlierIsLess(a, b);
    } else if Earlier(b, a) {
      EarlierIsLess(b, a);
    }
  }
}
