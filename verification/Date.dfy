/** The calendar arithmetic of base/Date.cc: Julian day numbers and proleptic Gregorian dates. */
module Date {

  /** C's division, which truncates toward zero. */
  function Div(a: int, b: int): int
    requires b > 0
  {
    if a >= 0 then a / b else -((-a) / b)
  }

  datatype YearMonthDay = YearMonthDay(year: int, month: int, day: int)

  function GetJulianDayNumber(year: int, month: int, day: int): int {
    var a := Div(14 - month, 12);
    var y := year + 4800 - a;
    var m := month + 12 * a - 3;
    day + Div(153 * m + 2, 5) + y * 365 + Div(y, 4) - Div(y, 100) + Div(y, 400) - 32045
  }

  /** The intermediate values of getYearMonthDay. */
  datatype Split = Split(a: int, b: int, c: int, d: int, e: int, m: int)

  function SplitDay(julianDayNumber: int): Split {
    var a := julianDayNumber + 32044;
    var b := Div(4 * a + 3, 146097);
    var c := a - Div(b * 146097, 4);
    var d := Div(4 * c + 3, 1461);
    var e := c - Div(1461 * d, 4);
    Split(a, b, c, d, e, Div(5 * e + 2, 153))
  }

  function GetYearMonthDay(julianDayNumber: int): YearMonthDay { DateOf(SplitDay(julianDayNumber)) }

  function DateOf(s: Split): YearMonthDay {
    YearMonthDay(s.b * 100 + s.d - 4800 + Div(s.m, 10),
                 s.m + 3 - 12 * Div(s.m, 10),
                 s.e - Div(153 * s.m + 2, 5) + 1)
  }

  // ----- the reference calendar -----

  predicate Leap(year: int) { year % 4 == 0 && (year % 100 != 0 || year % 400 == 0) }

  function DaysInMonth(year: int, month: int): int
    requires 1 <= month <= 12
  {
    if month == 2 then (if Leap(year) then 29 else 28)
    else if month == 4 || month == 6 || month == 9 || month == 11 then 30
    else 31
  }

  predicate ValidDate(d: YearMonthDay) { 1 <= d.month <= 12 && 1 <= d.day <= DaysInMonth(d.year, d.month) }

  function NextDate(d: YearMonthDay): YearMonthDay
    requires ValidDate(d)
  {
    if d.day < DaysInMonth(d.year, d.month) then d.(day := d.day + 1)
    else if d.month < 12 then YearMonthDay(d.year, d.month + 1, 1)
    else YearMonthDay(d.year + 1, 1, 1)
  }

  const MIN_DAY := -32044
  const MAX_DAY := 536838867

  // ----- years that begin in March, counted from 4801 BC -----

  function DaysBefore(y: nat): int { 365 * y + y / 4 - y / 100 + y / 400 }

  function YearLength(y: nat): int { if Leap(y + 1) then 366 else 365 }

  lemma MulLe(d: nat, x: int, y: int)
    requires x <= y
    ensures d * x <= d * y
  {
    assert d * (y - x) >= 0;
    assert d * (y - x) == d * y - d * x;
  }

  lemma Quotient(n: int, d: nat, q: int)
    requires d > 0 && d * q <= n < d * q + d
    ensures n / d == q
  {
    var k := n / d;
    if k < q {
      MulLe(d, k + 1, q);
    } else if q < k {
      MulLe(d, q + 1, k);
    }
  }

  /** The leap-day counts of a year by its century and the year in it. */
  lemma Centuries(y: nat, b: nat, c: nat)
    requires y == 100 * b + c && c < 100
    ensures y / 100 == b && y / 4 == 25 * b + c / 4 && y / 400 == b / 4
    ensures DaysBefore(y) == 36524 * b + b / 4 + 365 * c + c / 4
  {
    Quotient(y, 100, b);
    Quotient(y, 4, 25 * b + c / 4);
    Quotient(y, 400, b / 4);
  }

  lemma LeapByCentury(y: nat, b: nat, c: nat)
    requires y == 100 * b + c && c < 100
    ensures Leap(y + 1) <==> c % 4 == 3 && (c == 99 ==> b % 4 == 3)
  {
    Quotient(y + 1, 4, 25 * b + (c + 1) / 4);
    Quotient(y + 1, 100, if c == 99 then b + 1 else b);
    Quotient(y + 1, 400, if c == 99 then (b + 1) / 4 else b / 4);
  }

  lemma QuarterYears(b: nat)
    ensures 146097 * b / 4 == 36524 * b + b / 4 && 1461 * b / 4 == 365 * b + b / 4
  {
    Quotient(146097 * b, 4, 36524 * b + b / 4);
    Quotient(1461 * b, 4, 365 * b + b / 4);
  }

  /** The century of a day count, and the year in the century, by the two divisions. */
  lemma CenturyOf(b: nat, f: int)
    requires 0 <= f <= 36523 + (if b % 4 == 3 then 1 else 0)
    ensures (4 * (36524 * b + b / 4 + f) + 3) / 146097 == b
  {
    Quotient(4 * (36524 * b + b / 4 + f) + 3, 146097, b);
  }

  lemma YearOf(c: nat, e: int)
    requires 0 <= e <= 364 + (if c % 4 == 3 then 1 else 0)
    ensures (4 * (365 * c + c / 4 + e) + 3) / 1461 == c
  {
    Quotient(4 * (365 * c + c / 4 + e) + 3, 1461, c);
  }

  /** The century part and the year part of the two divisions, for a day given by its year. */
  lemma SplitInCentury(b: nat, c: nat, e: int, j: int)
    requires c < 100
    requires 0 <= e <= 364 + (if c % 4 == 3 && (c == 99 ==> b % 4 == 3) then 1 else 0)
    requires j == 36524 * b + b / 4 + 365 * c + c / 4 + e - 32044
    ensures SplitDay(j) == Split(j + 32044, b, 365 * c + c / 4 + e, c, e, (5 * e + 2) / 153)
  {
    QuarterYears(b);
    QuarterYears(c);
    CenturyOf(b, 365 * c + c / 4 + e);
    YearOf(c, e);
  }

  lemma YearInCentury(y: nat, e: int, j: int) returns (b: nat, c: nat)
    requires 0 <= e < YearLength(y) && j == DaysBefore(y) + e - 32044
    ensures c < 100 && y == 100 * b + c
    ensures 0 <= e <= 364 + (if c % 4 == 3 && (c == 99 ==> b % 4 == 3) then 1 else 0)
    ensures j == 36524 * b + b / 4 + 365 * c + c / 4 + e - 32044
  {
    b, c := y / 100, y % 100;
    Centuries(y, b, c);
    LeapByCentury(y, b, c);
  }

  /** A year and a day in it are recovered from the day count. */
  lemma SplitOfYear(y: nat, e: int, j: int)
    requires 0 <= e < YearLength(y) && j == DaysBefore(y) + e - 32044
    ensures var s := SplitDay(j);
      s.b * 100 + s.d == y && s.e == e && s.m == (5 * e + 2) / 153
  {
    var b, c := YearInCentury(y, e, j);
    SplitInCentury(b, c, e, j);
  }

  /** Every day count from zero on is a day of some year. */
  lemma DayHasYear(j: int)
    requires j >= MIN_DAY
    ensures var s := SplitDay(j);
      && 0 <= s.b && 0 <= s.c && 0 <= s.d <= 99
      && 0 <= s.e < YearLength(s.b * 100 + s.d)
      && j + 32044 == DaysBefore(s.b * 100 + s.d) + s.e
  {
    var s := SplitDay(j);
    QuarterYears(s.b);
    assert 0 <= s.c <= 36524;
    QuarterYears(s.d);
    Centuries(s.b * 100 + s.d, s.b, s.d);
    LeapByCentury(s.b * 100 + s.d, s.b, s.d);
  }

  // ----- months that begin in March -----

  /** Days of the March-based year before its month m; m = 12 stands for the end. */
  function MonthStart(m: nat): int { (153 * m + 2) / 5 }

  /** The calendar month of a March-based month, and the calendar year it falls in. */
  function CalendarMonth(m: nat): int { if m < 10 then m + 3 else m - 9 }
  function CalendarYear(y: nat, m: nat): int { if m < 10 then y - 4800 else y - 4799 }

  function LengthOf(y: nat, m: nat): int
    requires m < 12
  {
    DaysInMonth(CalendarYear(y, m), CalendarMonth(m))
  }

  /** The calendar repeats after 4800 years. */
  lemma LeapAcross(y: int)
    ensures Leap(y - 4800) <==> Leap(y)
  {
    assert y - 4800 == y - 12 * 400;
  }

  /** The rounding formula for month starts agrees with the lengths of the months. */
  lemma MonthLengths(y: nat, m: nat)
    requires m < 12
    ensures m < 11 ==> MonthStart(m + 1) == MonthStart(m) + LengthOf(y, m)
    ensures m == 11 ==> YearLength(y) == MonthStart(m) + LengthOf(y, m)
  {
    if m == 11 { LeapAcross(y + 1); }
  }

  /** The month of a day of the year. */
  lemma MonthOfDay(y: nat, e: int)
    requires 0 <= e < YearLength(y)
    ensures var m := (5 * e + 2) / 153; 0 <= m < 12 && 0 <= e - MonthStart(m) < LengthOf(y, m)
  {
    MonthLengths(y, (5 * e + 2) / 153);
  }

  lemma DayOfMonth(y: nat, m: nat, day: int)
    requires m < 12 && 1 <= day <= LengthOf(y, m)
    ensures var e := MonthStart(m) + day - 1; 0 <= e < YearLength(y) && (5 * e + 2) / 153 == m
  {
    MonthLengths(y, m);
    assert LengthOf(y, m) <= 31;
    var e := MonthStart(m) + day - 1;
    assert 153 * m <= 5 * e + 2 by { assert 5 * MonthStart(m) >= 153 * m - 2; }
    MonthRange(m, LengthOf(y, m), y);
    Quotient(5 * e + 2, 153, m);
  }

  lemma MonthRange(m: nat, len: int, y: nat)
    requires m < 12 && len == LengthOf(y, m)
    ensures 5 * (MonthStart(m) + len - 1) + 2 < 153 * m + 153
  {
    MonthLengths(y, m);
  }

  // ----- the two functions are inverse -----

  /** On or after 1 March 4801 BC, the first day the March-based count can express. */
  predicate InRange(d: YearMonthDay) { d.year > -4800 || (d.year == -4800 && d.month >= 3) }

  function DateAt(y: nat, m: nat, day: int): YearMonthDay { YearMonthDay(CalendarYear(y, m), CalendarMonth(m), day) }

  function DayAt(y: nat, m: nat, day: int): int { DaysBefore(y) + MonthStart(m) + day - 32045 }

  function DayOf(d: YearMonthDay): int { GetJulianDayNumber(d.year, d.month, d.day) }

  lemma DayOfDateAt(y: nat, m: nat, day: int)
    requires m < 12
    ensures DayOf(DateAt(y, m, day)) == DayAt(y, m, day)
  {
  }

  lemma DateOfMonth(s: Split, y: nat, m: nat)
    requires m < 12 && s.m == m && s.b * 100 + s.d == y
    ensures DateOf(s) == DateAt(y, m, s.e - MonthStart(m) + 1)
  {
  }

  lemma DateAtValid(y: nat, m: nat, day: int)
    requires m < 12 && 1 <= day <= LengthOf(y, m)
    ensures ValidDate(DateAt(y, m, day)) && InRange(DateAt(y, m, day))
  {
  }

  /** The month of a date, counted from March 4801 BC. */
  lemma MarchBased(d: YearMonthDay) returns (y: nat, m: nat)
    requires ValidDate(d) && InRange(d)
    ensures m < 12 && d == DateAt(y, m, d.day) && d.day <= LengthOf(y, m)
  {
    y, m := if d.month >= 3 then d.year + 4800 else d.year + 4799, if d.month >= 3 then d.month - 3 else d.month + 9;
  }

  /** Every day from MIN_DAY on is a valid date, and its day number is the day. */
  lemma DayIsDate(j: int)
    requires j >= MIN_DAY
    ensures ValidDate(GetYearMonthDay(j)) && InRange(GetYearMonthDay(j)) && DayOf(GetYearMonthDay(j)) == j
  {
    var s := SplitDay(j);
    var y := s.b * 100 + s.d;
    DayHasYear(j);
    MonthOfDay(y, s.e);
    var m, day := (5 * s.e + 2) / 153, s.e - MonthStart((5 * s.e + 2) / 153) + 1;
    assert GetYearMonthDay(j) == DateAt(y, m, day) by { DateOfMonth(s, y, m); }
    DateAtValid(y, m, day);
    DayOfDateAt(y, m, day);
  }

  lemma DateOfDayAt(y: nat, m: nat, day: int, j: int)
    requires m < 12 && 1 <= day <= LengthOf(y, m) && j == DayAt(y, m, day)
    ensures GetYearMonthDay(j) == DateAt(y, m, day)
  {
    var e := MonthStart(m) + day - 1;
    DayOfMonth(y, m, day);
    SplitOfYear(y, e, j);
    DateOfMonth(SplitDay(j), y, m);
  }

  /** Before MIN_DAY the truncating divisions leave a day that is not positive. */
  lemma EarlyDay(j: int)
    requires j < MIN_DAY
    ensures GetYearMonthDay(j).day <= 0
  {
    var s := SplitDay(j);
    assert s.c <= -1;
    assert s.e <= -1;
  }

  /** getYearMonthDay yields a calendar date exactly from MIN_DAY on. */
  lemma DatesAreFrom(j: int)
    ensures ValidDate(GetYearMonthDay(j)) <==> j >= MIN_DAY
  {
    if j >= MIN_DAY { DayIsDate(j); } else { EarlyDay(j); }
  }

  lemma DateOfItsDay(d: YearMonthDay, j: int)
    requires ValidDate(d) && InRange(d) && DayOf(d) == j
    ensures GetYearMonthDay(j) == d
  {
    var y, m := MarchBased(d);
    DayOfDateAt(y, m, d.day);
    DateOfDayAt(y, m, d.day, j);
  }

  lemma DatesAreInRange(d: YearMonthDay, j: int)
    requires ValidDate(d) && GetYearMonthDay(j) == d
    ensures InRange(d)
  {
    if j >= MIN_DAY { DayIsDate(j); } else { EarlyDay(j); }
  }

  /** A calendar date survives the round trip exactly from 1 March 4801 BC on. */
  lemma DateRoundTrip(d: YearMonthDay)
    requires ValidDate(d)
    ensures GetYearMonthDay(GetJulianDayNumber(d.year, d.month, d.day)) == d <==> InRange(d)
  {
    if InRange(d) {
      DateOfItsDay(d, DayOf(d));
    } else if GetYearMonthDay(DayOf(d)) == d {
      DatesAreInRange(d, DayOf(d));
    }
  }

  // ----- successive days -----

  lemma NextFour(y: nat)
    ensures (y + 1) / 4 == y / 4 + if (y + 1) % 4 == 0 then 1 else 0
  {
  }

  lemma NextHundred(y: nat)
    ensures (y + 1) / 100 == y / 100 + if (y + 1) % 100 == 0 then 1 else 0
    ensures (y + 1) % 100 == 0 ==> (y + 1) % 4 == 0
  {
  }

  lemma NextFourHundred(y: nat)
    ensures (y + 1) / 400 == y / 400 + if (y + 1) % 400 == 0 then 1 else 0
    ensures (y + 1) % 400 == 0 ==> (y + 1) % 100 == 0
  {
  }

  lemma NextYear(y: nat)
    ensures DaysBefore(y + 1) == DaysBefore(y) + YearLength(y)
  {
    NextFour(y);
    NextHundred(y);
    NextFourHundred(y);
  }

  /** The next date, counted by March-based months. */
  lemma NextInMonths(y: nat, m: nat, day: int) returns (y': nat, m': nat, day': int)
    requires m < 12 && 1 <= day <= LengthOf(y, m)
    ensures m' < 12 && 1 <= day' <= LengthOf(y', m')
    ensures ValidDate(DateAt(y, m, day)) && NextDate(DateAt(y, m, day)) == DateAt(y', m', day')
    ensures DayAt(y', m', day') == DayAt(y, m, day) + 1
  {
    MonthLengths(y, m);
    NextYear(y);
    if day < LengthOf(y, m) {
      y', m', day' := y, m, day + 1;
    } else if m < 11 {
      y', m', day' := y, m + 1, 1;
    } else {
      y', m', day' := y + 1, 0, 1;
    }
  }

  /** The day number of the calendar's next date is the next day number. */
  lemma NextDateIsNextDay(d: YearMonthDay)
    requires ValidDate(d) && InRange(d)
    ensures ValidDate(NextDate(d)) && InRange(NextDate(d)) && DayOf(NextDate(d)) == DayOf(d) + 1
  {
    var y, m := MarchBased(d);
    var y', m', day' := NextInMonths(y, m, d.day);
    DayOfDateAt(y, m, d.day);
    DayOfDateAt(y', m', day');
  }

  lemma DateOfNextDay(d: YearMonthDay, j: int)
    requires ValidDate(d) && InRange(d) && DayOf(d) == j
    ensures GetYearMonthDay(j + 1) == NextDate(d)
  {
    NextDateIsNextDay(d);
    DateOfItsDay(NextDate(d), j + 1);
  }

  /** Successive day numbers are successive dates. */
  lemma NextDay(j: int)
    requires j >= MIN_DAY
    ensures ValidDate(GetYearMonthDay(j)) && GetYearMonthDay(j + 1) == NextDate(GetYearMonthDay(j))
  {
    DayIsDate(j);
    DateOfNextDay(GetYearMonthDay(j), j);
  }

  // ----- 32-bit arithmetic -----

  predicate Fits(x: int) { -0x8000_0000 <= x < 0x8000_0000 }

  /** No subexpression of getYearMonthDay(j) leaves the range of int. */
  predicate DayFits(j: int) {
    var s := SplitDay(j);
    && Fits(j) && Fits(s.a) && Fits(4 * s.a) && Fits(4 * s.a + 3)
    && Fits(s.b) && Fits(s.b * 146097) && Fits(s.c) && Fits(4 * s.c) && Fits(4 * s.c + 3)
    && Fits(s.d) && Fits(1461 * s.d) && Fits(s.e) && Fits(5 * s.e) && Fits(5 * s.e + 2)
    && Fits(s.m) && Fits(153 * s.m) && Fits(153 * s.m + 2)
    && Fits(s.e - Div(153 * s.m + 2, 5)) && Fits(s.e - Div(153 * s.m + 2, 5) + 1)
    && Fits(s.m + 3) && Fits(12 * Div(s.m, 10)) && Fits(s.m + 3 - 12 * Div(s.m, 10))
    && Fits(s.b * 100) && Fits(s.b * 100 + s.d) && Fits(s.b * 100 + s.d - 4800)
    && Fits(s.b * 100 + s.d - 4800 + Div(s.m, 10))
  }

  /** No subexpression of getJulianDayNumber leaves the range of int. */
  predicate DateFits(d: YearMonthDay) {
    var a := Div(14 - d.month, 12);
    var y := d.year + 4800 - a;
    var m := d.month + 12 * a - 3;
    var inYear := d.day + Div(153 * m + 2, 5);
    && Fits(d.year) && Fits(d.year + 4800) && Fits(y) && Fits(14 - d.month) && Fits(12 * a)
    && Fits(d.month + 12 * a) && Fits(m) && Fits(153 * m) && Fits(153 * m + 2) && Fits(inYear)
    && Fits(y * 365) && Fits(inYear + y * 365) && Fits(inYear + y * 365 + Div(y, 4))
    && Fits(inYear + y * 365 + Div(y, 4) - Div(y, 100))
    && Fits(inYear + y * 365 + Div(y, 4) - Div(y, 100) + Div(y, 400))
    && Fits(GetJulianDayNumber(d.year, d.month, d.day))
  }

  lemma SmallParts(j: int)
    requires MIN_DAY <= j <= MAX_DAY
    ensures var s := SplitDay(j);
      && 0 <= s.a <= 536870911 && 0 <= s.b <= 14699 && 0 <= s.c <= 36524
      && 0 <= s.d <= 99 && 0 <= s.e <= 365 && 0 <= s.m <= 11
  {
    DayHasYear(j);
    var s := SplitDay(j);
    MonthOfDay(s.b * 100 + s.d, s.e);
  }

  /** From MIN_DAY on, getYearMonthDay stays within 32 bits exactly up to MAX_DAY. */
  lemma DayFitsExactly(j: int)
    requires j >= MIN_DAY
    ensures DayFits(j) <==> j <= MAX_DAY
  {
    if j <= MAX_DAY { SmallParts(j); }
  }

  /** getJulianDayNumber stays within 32 bits on every date getYearMonthDay yields for those days. */
  lemma DateOfDayFits(j: int)
    requires MIN_DAY <= j <= MAX_DAY
    ensures DateFits(GetYearMonthDay(j))
  {
    SmallParts(j);
    DayIsDate(j);
  }
}
