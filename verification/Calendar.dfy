/** The proleptic Gregorian calendar, as day numbers since 0001-01-01 (a
    Monday). It stands for the calendar library the cron search reads its fields
    from, at a fixed offset. */
module Calendar {
  datatype Date = Date(year: nat, month: nat, day: nat)

  predicate IsLeap(y: nat) { y % 4 == 0 && (y % 100 != 0 || y % 400 == 0) }

  function YearDays(y: nat): nat { if IsLeap(y) then 366 else 365 }

  function DaysInMonth(y: nat, m: nat): nat {
    if m == 2 then if IsLeap(y) then 29 else 28
    else if m in {4, 6, 9, 11} then 30
    else 31
  }

  ghost predicate ValidDate(d: Date) {
    d.year >= 1 && 1 <= d.month <= 12 && 1 <= d.day <= DaysInMonth(d.year, d.month)
  }

  /** Days before 1 January of year `y`. */
  function DaysBeforeYear(y: nat): nat
    requires y >= 1
  {
    365 * (y - 1) + (y - 1) / 4 - (y - 1) / 100 + (y - 1) / 400
  }

  function DaysBeforeMonth(y: nat, m: nat): nat
    requires 1 <= m <= 13
  {
    if m == 1 then 0 else DaysBeforeMonth(y, m - 1) + DaysInMonth(y, m - 1)
  }

  function DayNumber(d: Date): nat
    requires d.year >= 1 && 1 <= d.month <= 12 && d.day >= 1
  {
    DaysBeforeYear(d.year) + DaysBeforeMonth(d.year, d.month) + (d.day - 1)
  }

  lemma NextYear(y: nat)
    requires y >= 1
    ensures DaysBeforeYear(y + 1) == DaysBeforeYear(y) + YearDays(y)
  {
    Steps(y);
    LeapRule(y);
  }

  lemma Steps(y: nat)
    requires y >= 1
    ensures y / 4 == (y - 1) / 4 + if y % 4 == 0 then 1 else 0
    ensures y / 100 == (y - 1) / 100 + if y % 100 == 0 then 1 else 0
    ensures y / 400 == (y - 1) / 400 + if y % 400 == 0 then 1 else 0
  {
  }

  lemma LeapRule(y: nat)
    ensures y % 400 == 0 ==> y % 100 == 0
    ensures y % 100 == 0 ==> y % 4 == 0
  {
    if y % 100 == 0 { assert y == 4 * (25 * (y / 100)); }
    if y % 400 == 0 { assert y == 100 * (4 * (y / 400)); }
  }

  lemma TwelveMonths(y: nat)
    ensures DaysBeforeMonth(y, 13) == YearDays(y)
    ensures DaysBeforeMonth(y, 2) == 31 && DaysBeforeMonth(y, 3) == if IsLeap(y) then 60 else 59
  {
    assert DaysBeforeMonth(y, 3) == DaysBeforeMonth(y, 2) + DaysInMonth(y, 2);
    assert DaysBeforeMonth(y, 5) == DaysBeforeMonth(y, 3) + DaysInMonth(y, 3) + DaysInMonth(y, 4);
    assert DaysBeforeMonth(y, 7) == DaysBeforeMonth(y, 5) + DaysInMonth(y, 5) + DaysInMonth(y, 6);
    assert DaysBeforeMonth(y, 9) == DaysBeforeMonth(y, 7) + DaysInMonth(y, 7) + DaysInMonth(y, 8);
    assert DaysBeforeMonth(y, 11) == DaysBeforeMonth(y, 9) + DaysInMonth(y, 9) + DaysInMonth(y, 10);
    assert DaysBeforeMonth(y, 13) == DaysBeforeMonth(y, 11) + DaysInMonth(y, 11) + DaysInMonth(y, 12);
  }

  lemma {:induction false} MonthsGrow(y: nat, a: nat, b: nat)
    requires 1 <= a < b <= 13
    ensures DaysBeforeMonth(y, a) + DaysInMonth(y, a) <= DaysBeforeMonth(y, b)
  {
    if a < b - 1 { MonthsGrow(y, a, b - 1); }
  }

  lemma {:induction false} YearsGrow(a: nat, b: nat)
    requires 1 <= a < b
    ensures DaysBeforeYear(a) + YearDays(a) <= DaysBeforeYear(b)
  {
    NextYear(b - 1);
    if a < b - 1 { YearsGrow(a, b - 1); }
  }

  // ----- reading a date off a day number -----

  function YearFrom(y: nat, n: nat): (r: nat)
    requires y >= 1 && DaysBeforeYear(y) <= n
    ensures r >= y && DaysBeforeYear(r) <= n < DaysBeforeYear(r) + YearDays(r)
    decreases n - DaysBeforeYear(y)
  {
    NextYear(y);
    if n < DaysBeforeYear(y) + YearDays(y) then y else YearFrom(y + 1, n)
  }

  function MonthFrom(y: nat, m: nat, k: nat): (r: nat)
    requires 1 <= m <= 12 && DaysBeforeMonth(y, m) <= k < YearDays(y)
    ensures m <= r <= 12 && DaysBeforeMonth(y, r) <= k < DaysBeforeMonth(y, r) + DaysInMonth(y, r)
    decreases 12 - m
  {
    TwelveMonths(y);
    if k < DaysBeforeMonth(y, m) + DaysInMonth(y, m) then m else MonthFrom(y, m + 1, k)
  }

  function DateOf(n: nat): (d: Date)
    ensures ValidDate(d) && DayNumber(d) == n
  {
    var y := YearFrom(1, n);
    var k := n - DaysBeforeYear(y);
    var m := MonthFrom(y, 1, k);
    Date(y, m, k - DaysBeforeMonth(y, m) + 1)
  }

  /** 0 is Sunday. */
  function Weekday(n: nat): nat { (n + 1) % 7 }

  /** Day numbers and valid dates correspond one to one. */
  lemma DateOfDayNumber(d: Date)
    requires ValidDate(d)
    ensures DateOf(DayNumber(d)) == d
  {
    var e := DateOf(DayNumber(d));
    InYear(d);
    InYear(e);
    if d.year < e.year { YearsGrow(d.year, e.year); }
    if e.year < d.year { YearsGrow(e.year, d.year); }
    assert d.year == e.year;
    if d.month < e.month { MonthsGrow(d.year, d.month, e.month); }
    if e.month < d.month { MonthsGrow(d.year, e.month, d.month); }
  }

  lemma InYear(d: Date)
    requires ValidDate(d)
    ensures DaysBeforeYear(d.year) <= DayNumber(d) < DaysBeforeYear(d.year) + YearDays(d.year)
  {
    TwelveMonths(d.year);
    MonthsGrow(d.year, d.month, 13);
  }
}
