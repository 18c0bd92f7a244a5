/**
  Months of the Gregorian calendar, for days counted from 1970-01-01, as Go's time
  package names them.  The execution windows of monthly schedules
  (internal/jobs/scheduler/scheduler.go) are these months.
 */
module GregorianCalendar {

  /** Months since March of year 0. */
  function MonthIndex(day: int): int {
    var z := day + 719468;
    var dayOfEra := z % 146097;
    var yearOfEra := YearOfEra(dayOfEra);
    var dayOfYear := dayOfEra - (365 * yearOfEra + yearOfEra / 4 - yearOfEra / 100);
    12 * (400 * (z / 146097) + yearOfEra) + (5 * dayOfYear + 2) / 153
  }

  /** The year, begun in March, of a day within 400 years. */
  function YearOfEra(day: int): int {
    (day - day / 1460 + day / 36524 - day / 146096) / 365
  }

  // ---------- The calendar itself ----------

  predicate IsLeap(year: int) {
    year % 4 == 0 && (year % 100 != 0 || year % 400 == 0)
  }

  /** Months are numbered from 1, January. */
  function DaysIn(year: int, month: int): int {
    if month == 2 then if IsLeap(year) then 29 else 28
    else if month == 4 || month == 6 || month == 9 || month == 11 then 30
    else 31
  }

  function YearOf(k: int): int {
    (k + 2) / 12
  }

  function MonthOf(k: int): int {
    (k + 2) % 12 + 1
  }

  /** Days before the year that begins in March of year `y`. */
  function March(y: int): int {
    365 * y + y / 4 - y / 100 + y / 400
  }

  /** The day on which a month starts. */
  function MonthStart(k: int): int {
    March(k / 12) + (153 * (k % 12) + 2) / 5 - 719468
  }

  predicate IsFirstOfMonth(day: int) {
    day == MonthStart(MonthIndex(day))
  }

  /** 1970-01-05 was a Monday. */
  predicate IsMonday(day: int) {
    (day - 4) % 7 == 0
  }

  /** January 1970 starts on day 0. */
  lemma Epoch(k: int)
    requires YearOf(k) == 1970 && MonthOf(k) == 1
    ensures MonthStart(k) == 0
  {
    assert k == 12 * 1969 + 10;
  }

  /** February has the days that the leap-year rule gives it. */
  lemma YearsFollow(y: int)
    ensures March(y + 1) - March(y) == 365 + if IsLeap(y + 1) then 1 else 0
  {
    assert (y + 1) / 4 == y / 4 + if (y + 1) % 4 == 0 then 1 else 0;
    assert (y + 1) / 100 == y / 100 + if (y + 1) % 100 == 0 then 1 else 0;
    assert (y + 1) / 400 == y / 400 + if (y + 1) % 400 == 0 then 1 else 0;
    assert (y + 1) % 400 == 0 ==> (y + 1) % 100 == 0;
    assert (y + 1) % 100 == 0 ==> (y + 1) % 4 == 0;
  }

  /** Each month starts where the one before ends. */
  lemma {:induction false} MonthsFollow(k: int)
    ensures MonthStart(k + 1) == MonthStart(k) + DaysIn(YearOf(k), MonthOf(k))
  {
    var (y, m) := (k / 12, k % 12);
    if m < 11 {
      assert (k + 1) / 12 == y && (k + 1) % 12 == m + 1;
    } else {
      assert (k + 1) / 12 == y + 1 && (k + 1) % 12 == 0;
      YearsFollow(y);
    }
  }

  /** The year of a day within 400 years, from its place in the century and the four-year cycle. */
  lemma {:induction false} YearFound(day: int, c: int, q: int, s: int)
    requires day == 36524 * c + 1461 * q + s && 0 <= c <= 3 && 0 <= q <= 24 && 0 <= s <= 1460
    requires 1461 * q + s < 36524 || day == 146096
    ensures var t := if s == 1460 then 3 else s / 365;
      YearOfEra(day) == 100 * c + 4 * q + t && 0 <= t <= 3
  {
    var e := (24 * c + q + s) / 1460;
    var f := if day == 146096 then 1 else 0;
    assert day / 1460 == 25 * c + q + e;
    assert day / 36524 == c + f;
    assert day / 146096 == f;
    var t := if s == 1460 then 3 else s / 365;
    assert 0 <= e <= 1 && (e == 1 ==> s >= 1364);
    assert day - day / 1460 + day / 36524 - day / 146096 == 
      365 * (100 * c + 4 * q + t) + (s - e - 365 * t);
  }

  /** A day of an era, by century, four-year cycle and day of that. */
  lemma {:induction false} EraDay(day: int) returns (c: int, q: int, s: int)
    requires 0 <= day < 146097
    ensures day == 36524 * c + 1461 * q + s && 0 <= c <= 3 && 0 <= q <= 24 && 0 <= s <= 1460
    ensures 1461 * q + s < 36524 || day == 146096
  {
    c := if day == 146096 then 3 else day / 36524;
    var r := day - 36524 * c;
    q := r / 1461;
    s := r % 1461;
  }

  /** Days before the year that begins in March of year `y` of an era. */
  function YearStart(y: int): int {
    365 * y + y / 4 - y / 100
  }

  lemma {:induction false} YearBounds(day: int)
    requires 0 <= day < 146097
    ensures var y := YearOfEra(day);
      0 <= y < 400 && YearStart(y) <= day <= YearStart(y) + 364 + if IsLeap(y + 1) then 1 else 0
  {
    var c, q, s := EraDay(day);
    YearFound(day, c, q, s);
    var t := if s == 1460 then 3 else s / 365;
    var y := 100 * c + 4 * q + t;
    assert y / 4 == 25 * c + q && y / 100 == c;
    if s == 1460 {
      assert y + 1 == 4 * (25 * c + q + 1);
      LeapAfterCycle(c, q);
    }
  }

  lemma LeapAfterCycle(c: int, q: int)
    requires 0 <= c <= 3 && 0 <= q <= 24 && (q < 24 || c == 3)
    ensures IsLeap(100 * c + 4 * q + 4)
  {
  }

  /** The month of a day of the year, both counted from March. */
  lemma MonthBounds(day: int)
    requires 0 <= day <= 365
    ensures var m := (5 * day + 2) / 153;
      0 <= m <= 11 && (153 * m + 2) / 5 <= day && (m < 11 ==> day < (153 * (m + 1) + 2) / 5)
  {
  }

  lemma StartOf(year: int, m: int, k: int)
    requires 0 <= m <= 11 && k == 12 * year + m
    ensures MonthStart(k) == March(year) + (153 * m + 2) / 5 - 719468
    ensures YearOf(k) == (if m < 10 then year else year + 1) && MonthOf(k) == if m < 10 then m + 3 else m - 9
  {
    assert k / 12 == year && k % 12 == m;
  }

  /** The n-th day of a year that begins in March is in its month. */
  lemma {:induction false} DayOfYear(year: int, n: int, m: int, k: int)
    requires 0 <= n <= 364 + if IsLeap(year + 1) then 1 else 0
    requires m == (5 * n + 2) / 153 && k == 12 * year + m
    ensures MonthStart(k) <= March(year) + n - 719468 < MonthStart(k + 1)
  {
    MonthBounds(n);
    StartOf(year, m, k);
    if m < 11 {
      StartOf(year, m + 1, k + 1);
    } else {
      MonthsFollow(k);
    }
  }

  lemma FourthYear(n: int, y: int)
    ensures (4 * n + y) % 4 == y % 4
  {
  }

  lemma Century(n: int, y: int)
    ensures (100 * n + y) % 100 == y % 100
  {
  }

  lemma FourthCentury(n: int, y: int)
    ensures (400 * n + y) % 400 == y % 400
  {
  }

  lemma LeapCycle(era: int, y: int)
    ensures IsLeap(400 * era + y) <==> IsLeap(y)
  {
    FourthYear(100 * era, y);
    Century(4 * era, y);
    FourthCentury(era, y);
  }

  /** Every day is in the month that MonthIndex says. */
  lemma {:induction false} InMonth(day: int)
    ensures var k := MonthIndex(day); MonthStart(k) <= day < MonthStart(k + 1)
  {
    var z := day + 719468;
    var (era, d) := (z / 146097, z % 146097);
    var y := YearOfEra(d);
    YearBounds(d);
    EraStart(era, y);
    LeapCycle(era, y + 1);
    var n := d - YearStart(y);
    DayOfYear(400 * era + y, n, (5 * n + 2) / 153, MonthIndex(day));
  }

  lemma EraStart(era: int, y: int)
    requires 0 <= y < 400
    ensures March(400 * era + y) == 146097 * era + YearStart(y)
  {
    var x := 400 * era + y;
    assert x / 4 == 100 * era + y / 4;
    assert x / 100 == 4 * era + y / 100;
    assert x / 400 == era;
  }

  lemma {:induction false} MonthsAdvance(j: int, k: int)
    requires j <= k
    ensures MonthStart(j) <= MonthStart(k)
    decreases k - j
  {
    if j < k {
      MonthsAdvance(j, k - 1);
      MonthsFollow(k - 1);
    }
  }

  lemma {:induction false} OneMonth(day: int, j: int, k: int)
    requires MonthStart(j) <= day < MonthStart(j + 1)
    ensures j == k <==> MonthStart(k) <= day < MonthStart(k + 1)
  {
    if j < k {
      MonthsAdvance(j + 1, k);
    } else if j > k {
      MonthsAdvance(k + 1, j);
    }
  }

  /** A day is in month `k` if and only if it is one of its days, from its start to its length by the calendar. */
  lemma {:induction false} MonthIff(day: int, k: int)
    ensures MonthIndex(day) == k <==> MonthStart(k) <= day < MonthStart(k) + DaysIn(YearOf(k), MonthOf(k))
  {
    InMonth(day);
    OneMonth(day, MonthIndex(day), k);
    MonthsFollow(k);
  }

  lemma {:induction false} NextMonth(day: int, j: int, k: int)
    requires MonthStart(j) <= day < MonthStart(j + 1) && MonthStart(k) <= day + 1 < MonthStart(k + 1)
    ensures j <= k && (j != k <==> day + 1 == MonthStart(k))
  {
    OneMonth(day, j, k);
    if k < j {
      MonthsAdvance(k + 1, j);
    }
  }

  lemma {:induction false} MonthTicks(day: int)
    ensures MonthIndex(day) <= MonthIndex(day + 1)
    ensures MonthIndex(day) != MonthIndex(day + 1) <==> IsFirstOfMonth(day + 1)
  {
    InMonth(day);
    InMonth(day + 1);
    NextMonth(day, MonthIndex(day), MonthIndex(day + 1));
  }

  lemma {:induction false} SameMonth(t: int, u: int)
    requires MonthIndex(t) == MonthIndex(u)
    ensures u - t <= 30
  {
    var k := MonthIndex(t);
    MonthIff(t, k);
    MonthIff(u, k);
  }

  /** January 1970 has 31 days. */
  lemma {:induction false} January(day: int)
    requires 0 <= day < 31
    ensures MonthIndex(day) == 12 * 1969 + 10
  {
    var k := 12 * 1969 + 10;
    Epoch(k);
    MonthIff(day, k);
  }
}
