/** The date of a Unix day number, as the time client prints it, against the
    Gregorian calendar stepped day by day. */
module Civil {

  datatype Date = Date(year: int, month: int, day: int)

  const EPOCH := Date(1970, 1, 1)

  // ---------------------------------------------------------- the calendar

  predicate Leap(y: int) { y % 4 == 0 && (y % 100 != 0 || y % 400 == 0) }

  function MonthLength(y: int, m: int): int {
    if m == 2 then (if Leap(y) then 29 else 28) else if m == 4 || m == 6 || m == 9 || m == 11 then 30 else 31
  }

  predicate Valid(d: Date) { 1 <= d.month <= 12 && 1 <= d.day <= MonthLength(d.year, d.month) }

  function NextDay(d: Date): Date {
    if d.day < MonthLength(d.year, d.month) then d.(day := d.day + 1)
    else if d.month < 12 then Date(d.year, d.month + 1, 1)
    else Date(d.year + 1, 1, 1)
  }

  /** The date `n` days after the first of January 1970. */
  function Stepped(n: nat): Date {
    if n == 0 then EPOCH else NextDay(Stepped(n - 1))
  }

  /** Days before a month, in a year. */
  function BeforeMonth(y: int, m: int): int {
    if m <= 1 then 0 else BeforeMonth(y, m - 1) + MonthLength(y, m - 1)
  }

  function BeforeYear(y: int): int {
    365 * (y - 1) + (y - 1) / 4 - (y - 1) / 100 + (y - 1) / 400
  }

  /** The day number of a date, by counting. */
  function DayNumber(d: Date): int {
    BeforeYear(d.year) + BeforeMonth(d.year, d.month) + d.day - 1 - 719162
  }

  // -------------------------------------------------------- the conversion

  /** Days before year `k` of a 400-year era whose years start in March. */
  function Era(k: int): int { 365 * k + k / 4 - k / 100 }

  function YearOfEra(doe: int): int { (doe - doe / 1460 + doe / 36524 - doe / 146096) / 365 }

  /** Month and day of a day of the March year `y`. */
  function MonthDay(y: int, doy: int): Date {
    var mp := (5 * doy + 2) / 153;
    var mo := if mp < 10 then mp + 3 else mp - 9;
    Date(y + (if mo <= 2 then 1 else 0), mo, doy - (153 * mp + 2) / 5 + 1)
  }

  function FromDays(days: nat): Date {
    var z := days + 719468;
    var era := z / 146097;
    var doe := z - era * 146097;
    var yoe := YearOfEra(doe);
    MonthDay(yoe + era * 400, doe - Era(yoe))
  }

  // ------------------------------------------------------------ proof: years

  /** Length of year `k` of the era: its last day is the 29th of February of
      the next civil year, if there is one. */
  function Length(k: int): int { if Leap(k + 1) then 366 else 365 }

  /** The era's day as century, four-year group, year and day. */
  lemma Split(doe: int) returns (c: int, q: int, t: int, u: int)
    requires 0 <= doe < 146097
    ensures 0 <= c <= 3 && 0 <= q <= 24 && 0 <= t <= 3 && 0 <= u <= 365
    ensures doe == 36524 * c + 1461 * q + 365 * t + u
    ensures u == 365 ==> t == 3 && (q < 24 || c == 3)
  {
    c := if doe == 146096 then 3 else doe / 36524;
    var r := doe - 36524 * c;
    q := r / 1461;
    var s := r - 1461 * q;
    t := if s == 1460 then 3 else s / 365;
    u := s - 365 * t;
  }

  lemma By1460(a: int, k: int)
    requires 1460 * k <= a < 1460 * (k + 1)
    ensures a / 1460 == k
  {
  }

  /** Century leap days, the last one of the era taken back. */
  lemma EraLeaps(doe: int, c: int, rest: int)
    requires doe == 36524 * c + rest && 0 <= c <= 3 && 0 <= rest <= 36524 && (rest == 36524 ==> c == 3)
    ensures doe / 36524 - doe / 146096 == c
  {
    var k := if rest == 36524 then 4 else c;
    assert doe / 36524 == k;
    assert doe / 146096 == if k == 4 then 1 else 0;
  }

  lemma SplitYear(doe: int, c: int, q: int, t: int, u: int)
    requires 0 <= c <= 3 && 0 <= q <= 24 && 0 <= t <= 3 && 0 <= u <= 365
    requires doe == 36524 * c + 1461 * q + 365 * t + u
    requires u == 365 ==> t == 3 && (q < 24 || c == 3)
    ensures YearOfEra(doe) == 100 * c + 4 * q + t
  {
    var w := 24 * c + q + 365 * t + u;
    assert doe == 1460 * (25 * c + q) + w;
    var e := if w >= 1460 then 1 else 0;
    By1460(doe, 25 * c + q + e);
    EraLeaps(doe, c, 1461 * q + 365 * t + u);
    assert doe - doe / 1460 + doe / 36524 - doe / 146096 == 365 * (100 * c + 4 * q + t) + (u - e);
  }

  /** The year formula: it gives the year of the era that holds the day. */
  lemma YearIs(doe: int)
    requires 0 <= doe < 146097
    ensures var k := YearOfEra(doe); 0 <= k < 400 && 0 <= doe - Era(k) < Length(k)
  {
    var c, q, t, u := Split(doe);
    SplitYear(doe, c, q, t, u);
    var k := 100 * c + 4 * q + t;
    assert k / 4 == 25 * c + q && k / 100 == c;
    assert u == 365 ==> Leap(k + 1);
  }

  lemma EraStep(k: int)
    requires 0 <= k < 400
    ensures Era(k) + Length(k) == if k == 399 then 146097 else Era(k + 1)
  {
  }

  lemma {:induction false} EraGrows(a: int, b: int)
    requires 0 <= a <= b < 400
    ensures Era(a) <= Era(b)
    decreases b - a
  {
    if a < b { EraStep(a); EraGrows(a + 1, b); }
  }

  /** No other year holds the day. */
  lemma YearUnique(doe: int, k: int)
    requires 0 <= doe < 146097 && 0 <= k < 400 && 0 <= doe - Era(k) < Length(k)
    ensures YearOfEra(doe) == k
  {
    YearIs(doe);
    var j := YearOfEra(doe);
    EraStep(j); EraStep(k);
    if j < k { EraGrows(j + 1, k); } else if k < j { EraGrows(k + 1, j); }
  }

  // ------------------------------------------------------- proof: the step

  lemma MonthDayValid(y: int, doy: int)
    requires 0 <= doy < Length(y)
    ensures Valid(MonthDay(y, doy))
  {
  }

  lemma MonthDayNext(y: int, doy: int)
    requires 0 <= doy && doy + 1 < Length(y)
    ensures MonthDay(y, doy + 1) == NextDay(MonthDay(y, doy))
  {
  }

  lemma LastDay(y: int)
    ensures NextDay(MonthDay(y, Length(y) - 1)) == MonthDay(y + 1, 0)
  {
  }

  lemma LeapEra(k: int, era: int)
    ensures Leap(k + era * 400 + 1) == Leap(k + 1)
    ensures Length(k + era * 400) == Length(k)
  {
    var a := k + 1;
    Shift4(a, era * 100); Shift100(a, era * 4); Shift400(a, era);
  }

  lemma Shift4(a: int, e: int)
    ensures (a + 4 * e) % 4 == a % 4
  {
  }

  lemma Shift100(a: int, e: int)
    ensures (a + 100 * e) % 100 == a % 100
  {
  }

  lemma Shift400(a: int, e: int)
    ensures (a + 400 * e) % 400 == a % 400
  {
  }

  lemma ValidDate(days: nat)
    ensures Valid(FromDays(days))
  {
    hide YearOfEra, MonthDay, Leap, Valid, Era;
    var z := days + 719468;
    var era := z / 146097;
    var doe := z - era * 146097;
    YearIs(doe);
    LeapEra(YearOfEra(doe), era);
    MonthDayValid(YearOfEra(doe) + era * 400, doe - Era(YearOfEra(doe)));
  }

  lemma FromDaysStep(days: nat)
    ensures FromDays(days + 1) == NextDay(FromDays(days))
  {
    hide MonthDay, NextDay, YearOfEra, Leap;
    var z := days + 719468;
    var era := z / 146097;
    var doe := z - era * 146097;
    var k := YearOfEra(doe);
    YearIs(doe);
    LeapEra(k, era);
    EraStep(k);
    var y := k + era * 400;
    if doe + 1 < Era(k) + Length(k) {
      assert (z + 1) / 146097 == era;
      YearUnique(doe + 1, k);
      MonthDayNext(y, doe - Era(k));
    } else if k < 399 {
      assert (z + 1) / 146097 == era;
      YearUnique(doe + 1, k + 1);
      LastDay(y);
    } else {
      assert z + 1 == (era + 1) * 146097;
      YearUnique(0, 0);
      LastDay(y);
    }
  }

  /** The printed date is the one reached by stepping the calendar from 1970. */
  lemma {:induction false} DateIsStepped(days: nat)
    ensures FromDays(days) == Stepped(days) && Valid(FromDays(days))
  {
    hide FromDays, NextDay, Valid;
    ValidDate(days);
    if days == 0 {
      FirstDay();
    } else {
      DateIsStepped(days - 1);
      FromDaysStep(days - 1);
    }
  }

  lemma FirstDay()
    ensures FromDays(0) == EPOCH && DayNumber(EPOCH) == 0
  {
    hide FromDays, DayNumber;
    FirstDate();
    FirstNumber();
  }

  /** Day 135080 of the fifth era: day 306 of its year 369, in March years. */
  lemma FirstDate()
    ensures FromDays(0) == EPOCH
  {
    hide YearOfEra, Era, MonthDay;
    FirstYear();
    FirstMonth();
    assert 719468 / 146097 == 4;
  }

  lemma FirstYear()
    ensures YearOfEra(135080) == 369 && Era(369) == 134774
  {
    assert 135080 / 1460 == 92 && 135080 / 36524 == 3 && 135080 / 146096 == 0;
    assert 134991 / 365 == 369;
    assert 369 / 4 == 92 && 369 / 100 == 3;
  }

  lemma FirstMonth()
    ensures MonthDay(1969, 306) == EPOCH
  {
    assert (5 * 306 + 2) / 153 == 10 && (153 * 10 + 2) / 5 == 306;
  }

  lemma FirstNumber()
    ensures DayNumber(EPOCH) == 0
  {
    assert 1969 / 4 == 492 && 1969 / 100 == 19 && 1969 / 400 == 4;
    assert BeforeMonth(1970, 1) == 0;
  }

  // ------------------------------------------------------ proof: the inverse

  lemma YearTotal(y: int)
    ensures BeforeYear(y + 1) - BeforeYear(y) == if Leap(y) then 366 else 365
  {
    Quotients(y, 4); Quotients(y, 100); Quotients(y, 400);
    Multiples(y);
  }

  lemma Quotients(y: int, d: int)
    requires d == 4 || d == 100 || d == 400
    ensures y / d - (y - 1) / d == if y % d == 0 then 1 else 0
  {
  }

  lemma Multiples(y: int)
    ensures y % 400 == 0 ==> y % 100 == 0
    ensures y % 100 == 0 ==> y % 4 == 0
  {
  }

  lemma YearMonths(y: int)
    ensures BeforeMonth(y, 12) + 31 == if Leap(y) then 366 else 365
  {
    hide Leap;
    var feb := MonthLength(y, 2);
    assert BeforeMonth(y, 2) == 31;
    assert BeforeMonth(y, 3) == 31 + feb;
    assert BeforeMonth(y, 4) == 62 + feb;
    assert BeforeMonth(y, 5) == 92 + feb;
    assert BeforeMonth(y, 6) == 123 + feb;
    assert BeforeMonth(y, 7) == 153 + feb;
    assert BeforeMonth(y, 8) == 184 + feb;
    assert BeforeMonth(y, 9) == 215 + feb;
    assert BeforeMonth(y, 10) == 245 + feb;
    assert BeforeMonth(y, 11) == 276 + feb;
  }

  lemma NextDayNumber(d: Date)
    requires Valid(d)
    ensures DayNumber(NextDay(d)) == DayNumber(d) + 1 && Valid(NextDay(d))
  {
    hide BeforeYear, Leap;
    YearTotal(d.year);
    YearMonths(d.year);
  }

  /** Counting the days of the printed date gives the day number back. */
  lemma {:induction false} DayNumberOfDate(days: nat)
    ensures DayNumber(FromDays(days)) == days
  {
    hide FromDays, DayNumber, NextDay;
    FirstDay();
    if days > 0 {
      DayNumberOfDate(days - 1);
      ValidDate(days - 1);
      FromDaysStep(days - 1);
      NextDayNumber(FromDays(days - 1));
    }
  }

  lemma {:induction false} BeforeMonthGrows(y: int, m: int, n: int)
    requires 1 <= m < n <= 12
    ensures BeforeMonth(y, m) + MonthLength(y, m) <= BeforeMonth(y, n)
    decreases n - m
  {
    if m < n - 1 { BeforeMonthGrows(y, m, n - 1); }
  }

  lemma {:induction false} BeforeYearGrows(y: int, z: int)
    requires y < z
    ensures BeforeYear(y + 1) <= BeforeYear(z)
    decreases z - y
  {
    hide Leap;
    if y + 1 < z { BeforeYearGrows(y, z - 1); YearTotal(z - 1); }
  }

  /** Where a date stands in its year. */
  lemma InYear(d: Date)
    requires Valid(d)
    ensures var k := BeforeMonth(d.year, d.month) + d.day - 1; 0 <= k < BeforeYear(d.year + 1) - BeforeYear(d.year)
  {
    hide BeforeYear, Leap;
    YearTotal(d.year);
    YearMonths(d.year);
    if d.month < 12 { BeforeMonthGrows(d.year, d.month, 12); }
    if d.month > 1 { BeforeMonthGrows(d.year, 1, d.month); }
  }

  lemma DatesDiffer(a: Date, b: Date)
    requires Valid(a) && Valid(b) && DayNumber(a) == DayNumber(b)
    ensures a == b
  {
    hide BeforeYear, MonthLength;
    InYear(a); InYear(b);
    if a.year < b.year { BeforeYearGrows(a.year, b.year); }
    if b.year < a.year { BeforeYearGrows(b.year, a.year); }
    if a.month < b.month { BeforeMonthGrows(a.year, a.month, b.month); }
    if b.month < a.month { BeforeMonthGrows(a.year, b.month, a.month); }
  }

  /** Every date of the calendar from 1970 on is the date of its day number. */
  lemma DateOfDayNumber(d: Date)
    requires Valid(d) && DayNumber(d) >= 0
    ensures FromDays(DayNumber(d)) == d
  {
    hide FromDays, DayNumber, Valid;
    var n := DayNumber(d);
    DayNumberOfDate(n);
    ValidDate(n);
    DatesDiffer(FromDays(n), d);
  }
}
