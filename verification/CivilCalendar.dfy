/** Civil-calendar arithmetic: a count of days since 1970-01-01 turned into a proleptic Gregorian
    date, for every integer count, negative ones included. */
module CivilCalendar {

  datatype Date = Date(year: int, month: int, day: int)

  function IsLeapYear(year: int): bool {
    (year % 4 == 0 && year % 100 != 0) || year % 400 == 0
  }

  /** 0 for an out-of-range month. */
  function DaysInMonth(year: int, month: int): int {
    if month in {1, 3, 5, 7, 8, 10, 12} then 31
    else if month in {4, 6, 9, 11} then 30
    else if month == 2 then if IsLeapYear(year) then 29 else 28
    else 0
  }

  predicate Valid(d: Date) {
    1 <= d.month <= 12 && 1 <= d.day <= DaysInMonth(d.year, d.month)
  }

  /** The calendar's own successor. */
  function NextDay(d: Date): Date {
    if d.day < DaysInMonth(d.year, d.month) then d.(day := d.day + 1)
    else if d.month < 12 then Date(d.year, d.month + 1, 1)
    else Date(d.year + 1, 1, 1)
  }

  predicate Before(a: Date, b: Date) {
    a.year < b.year || (a.year == b.year && (a.month < b.month || (a.month == b.month && a.day < b.day)))
  }

  /** Division that truncates toward zero. */
  function TruncDiv(a: int, b: int): int
    requires b > 0
  {
    if a >= 0 then a / b else -((-a) / b)
  }

  // ── the algorithm, step by step ────────────────────────────────────────

  /** The year of the era, counted from 1 March, for a day of the era. */
  function YearOfEra(doe: int): int {
    (doe - doe / 1_460 + doe / 36_524 - doe / 146_096) / 365
  }

  /** Days of the era before its year `yoe`. */
  function YearStart(yoe: int): int {
    365 * yoe + yoe / 4 - yoe / 100
  }

  /** The month, 0 for March, and the day of the month of a day of the March year. */
  function MarchMonth(doy: int): int {
    (5 * doy + 2) / 153
  }

  function MarchDay(doy: int): int {
    doy - (153 * MarchMonth(doy) + 2) / 5 + 1
  }

  function MarchDate(marchYear: int, doy: int): Date {
    var mp := MarchMonth(doy);
    var m := if mp < 10 then mp + 3 else mp - 9;
    Date(marchYear + if m <= 2 then 1 else 0, m, MarchDay(doy))
  }

  function CivilFromDays(days: int): Date {
    var z := days + 719_468;
    var era := TruncDiv(if z >= 0 then z else z - 146_096, 146_097);
    var doe := z - era * 146_097;
    var yoe := YearOfEra(doe);
    MarchDate(yoe + era * 400, doe - YearStart(yoe))
  }

  // ── the pieces ─────────────────────────────────────────────────────────

  /** The truncating division and its correction floor, for negative counts too. */
  lemma EraFloors(z: int)
    ensures TruncDiv(if z >= 0 then z else z - 146_096, 146_097) == z / 146_097
  {
  }

  /** Days in a March year of the era: its February belongs to the next civil year. */
  function YearLength(yoe: int): int {
    if IsLeapYear(yoe + 1) then 366 else 365
  }

  /** Centuries of the era. */
  lemma CenturyOf(doe: int)
    requires 0 <= doe < 146_097
    ensures doe / 146_096 == (if doe == 146_096 then 1 else 0)
    ensures 0 <= doe / 36_524 <= 4 && (doe / 36_524 == 4 <==> doe == 146_096)
  {
  }

  /** Day `s` of four-year cycle `k` of century `c`: the algorithm's two corrections put it in year `j`
      of the cycle, where the calendar puts it. */
  lemma YearInCycle(c: int, k: int, s: int)
    requires 0 <= c < 4 && 0 <= k < 25 && 0 <= s < 1_461 && (k == 24 && s == 1_460 ==> c == 3)
    ensures var j := if s == 1_460 then 3 else s / 365;
            YearOfEra(36_524 * c + 1_461 * k + s) == 100 * c + 4 * k + j && 365 * j <= s < 365 * j + 366
  {
    var doe := 36_524 * c + 1_461 * k + s;
    var j := if s == 1_460 then 3 else s / 365;
    var v := if k + s + 24 * c >= 1_460 then 1 else 0;
    assert doe / 1_460 == 25 * c + k + v;
    var rest := 1_460 * (25 * c + k) + s - v;
    CenturyOf(doe);
    assert doe / 36_524 - doe / 146_096 == c;
    assert doe - doe / 1_460 + doe / 36_524 - doe / 146_096 == rest;
    assert rest == 365 * (100 * c + 4 * k + j) + (s - v - 365 * j);
    assert 0 <= s - v - 365 * j < 365;
  }

  /** A year's first day, and its length, inside its cycle. */
  lemma YearStartInCycle(c: int, k: int, j: int)
    requires 0 <= c < 4 && 0 <= k < 25 && 0 <= j < 4
    ensures YearStart(100 * c + 4 * k + j) == 36_524 * c + 1_461 * k + 365 * j
    ensures YearLength(100 * c + 4 * k + j) == (if j == 3 && (k < 24 || c == 3) then 366 else 365)
  {
  }

  lemma YearOf(doe: int)
    requires 0 <= doe < 146_097
    ensures 0 <= YearOfEra(doe) < 400
    ensures 0 <= doe - YearStart(YearOfEra(doe)) < YearLength(YearOfEra(doe))
  {
    CenturyOf(doe);
    var c := if doe == 146_096 then 3 else doe / 36_524;
    var r := doe - 36_524 * c;
    var k, s := r / 1_461, r % 1_461;
    YearInCycle(c, k, s);
    YearStartInCycle(c, k, if s == 1_460 then 3 else s / 365);
  }

  /** A quotient grows by one exactly at a multiple. */
  lemma NextQuotient(y: int, d: int)
    requires d == 4 || d == 100
    ensures (y + 1) / d == y / d + if (y + 1) % d == 0 then 1 else 0
  {
  }

  /** One year follows another without a gap, also across the era. */
  lemma YearsAbut(yoe: int)
    requires 0 <= yoe < 400
    ensures YearStart(yoe) + YearLength(yoe) == if yoe == 399 then 146_097 else YearStart(yoe + 1)
  {
    NextQuotient(yoe, 4);
    NextQuotient(yoe, 100);
    if yoe != 399 { LeapInEra(yoe + 1); }
    hide IsLeapYear;
  }

  lemma LeapInEra(y: int)
    requires 0 < y < 400
    ensures IsLeapYear(y) <==> y % 4 == 0 && y % 100 != 0
  {
  }

  /** The year a day of the era lies in is the only one that contains it. */
  lemma YearIs(doe: int, yoe: int)
    requires 0 <= doe < 146_097 && 0 <= yoe < 400 && 0 <= doe - YearStart(yoe) < YearLength(yoe)
    ensures YearOfEra(doe) == yoe
  {
    YearOf(doe);
    var other := YearOfEra(doe);
    YearsAbut(yoe);
    YearsAbut(other);
    assert other < yoe ==> YearStart(other + 1) <= YearStart(yoe);
    assert yoe < other ==> YearStart(yoe + 1) <= YearStart(other);
  }

  /** First day of each month of the March year, and of the next one. */
  function MonthStart(mp: int): int {
    (153 * mp + 2) / 5
  }

  lemma MonthOf(doy: int)
    requires 0 <= doy < 366
    ensures 0 <= MarchMonth(doy) < 12
    ensures MonthStart(MarchMonth(doy)) <= doy < MonthStart(MarchMonth(doy) + 1)
    ensures MarchDay(doy) == doy - MonthStart(MarchMonth(doy)) + 1
  {
  }

  /** The months of the March year have the calendar's lengths, but for the open end of February. */
  lemma MonthLengths(marchYear: int, mp: int)
    requires 0 <= mp < 12
    ensures var m := if mp < 10 then mp + 3 else mp - 9;
            var start := MonthStart(mp);
            var end := if mp == 11 then (if IsLeapYear(marchYear + 1) then 366 else 365) else MonthStart(mp + 1);
            end - start == DaysInMonth(marchYear + (if m <= 2 then 1 else 0), m)
  {
  }

  lemma FourthsRepeat(y: int, k: int)
    ensures (y + 4 * k) % 4 == y % 4
  {
    assert y + 4 * k == 4 * (y / 4 + k) + y % 4;
  }

  lemma HundredthsRepeat(y: int, k: int)
    ensures (y + 100 * k) % 100 == y % 100
  {
    assert y + 100 * k == 100 * (y / 100 + k) + y % 100;
  }

  lemma ErasRepeat(y: int, era: int)
    ensures (y + 400 * era) % 400 == y % 400
  {
    assert y + 400 * era == 400 * (y / 400 + era) + y % 400;
  }

  lemma LeapsRepeat(year: int, era: int)
    ensures IsLeapYear(year + 400 * era) == IsLeapYear(year)
  {
    ErasRepeat(year, era);
    FourthsRepeat(year, 100 * era);
    HundredthsRepeat(year, 4 * era);
  }

  /** Inside a March year the date moves to its successor, and the year's last day moves to 1 March. */
  lemma MarchNext(marchYear: int, doy: int)
    requires 0 <= doy < if IsLeapYear(marchYear + 1) then 366 else 365
    ensures Valid(MarchDate(marchYear, doy))
    ensures var last := if IsLeapYear(marchYear + 1) then 365 else 364;
            NextDay(MarchDate(marchYear, doy)) == if doy < last then MarchDate(marchYear, doy + 1) else MarchDate(marchYear + 1, 0)
  {
    var last := if IsLeapYear(marchYear + 1) then 365 else 364;
    var mp := MarchMonth(doy);
    MonthOf(doy);
    MonthLengths(marchYear, mp);
    if doy < last {
      MonthOf(doy + 1);
      assert MarchMonth(doy + 1) == (if doy + 1 < MonthStart(mp + 1) then mp else mp + 1);
    }
  }

  /** Where a day count falls: its era, the year of it and the day of that. */
  lemma CivilIs(days: int, era: int, yoe: int, doy: int)
    requires 0 <= yoe < 400 && 0 <= doy < YearLength(yoe)
    requires days + 719_468 == 146_097 * era + YearStart(yoe) + doy
    ensures CivilFromDays(days) == MarchDate(yoe + 400 * era, doy)
  {
    var doe := YearStart(yoe) + doy;
    hide MarchDate, YearOfEra;
    InEra(yoe, doy);
    EraFloors(days + 719_468);
    YearIs(doe, yoe);
    assert (days + 719_468) / 146_097 == era;
  }

  lemma InEra(yoe: int, doy: int)
    requires 0 <= yoe < 400 && 0 <= doy < YearLength(yoe)
    ensures 0 <= YearStart(yoe) + doy < 146_097
  {
  }

  lemma Locate(n: int) returns (era: int, yoe: int, doy: int)
    ensures 0 <= yoe < 400 && 0 <= doy < YearLength(yoe)
    ensures n + 719_468 == 146_097 * era + YearStart(yoe) + doy
  {
    var z := n + 719_468;
    era := z / 146_097;
    var doe := z % 146_097;
    YearOf(doe);
    yoe := YearOfEra(doe);
    doy := doe - YearStart(yoe);
  }

  /** The calendar's date of day `n` is valid, and day `n + 1` is its successor, for every integer `n`. */
  lemma CivilSuccessor(n: int)
    ensures Valid(CivilFromDays(n))
    ensures CivilFromDays(n + 1) == NextDay(CivilFromDays(n))
  {
    hide CivilFromDays;
    var era, yoe, doy := Locate(n);
    CivilIs(n, era, yoe, doy);
    LeapsRepeat(yoe + 1, era);
    MarchNext(yoe + 400 * era, doy);
    CivilAfter(n, era, yoe, doy);
  }

  lemma CivilAfter(n: int, era: int, yoe: int, doy: int)
    requires 0 <= yoe < 400 && 0 <= doy < YearLength(yoe)
    requires n + 719_468 == 146_097 * era + YearStart(yoe) + doy
    ensures CivilFromDays(n + 1)
            == if doy + 1 < YearLength(yoe) then MarchDate(yoe + 400 * era, doy + 1) else MarchDate(yoe + 400 * era + 1, 0)
  {
    hide CivilFromDays, MarchDate;
    YearsAbut(yoe);
    if doy + 1 < YearLength(yoe) {
      CivilIs(n + 1, era, yoe, doy + 1);
    } else if yoe < 399 {
      CivilIs(n + 1, era, yoe + 1, 0);
    } else {
      CivilIs(n + 1, era + 1, 0, 0);
    }
  }

  // ── an independent count of days ───────────────────────────────────────

  function DaysBeforeMonth(year: int, month: int): int
    requires 1 <= month <= 12
  {
    if month == 1 then 0 else DaysBeforeMonth(year, month - 1) + DaysInMonth(year, month - 1)
  }

  /** Days from 0001-01-01 to 1 January of `year`. */
  function DaysBeforeYear(year: int): int {
    365 * (year - 1) + (year - 1) / 4 - (year - 1) / 100 + (year - 1) / 400
  }

  /** Days from 1970-01-01 to a date, counting the years, the months and the days before it. */
  function DayNumber(d: Date): int
    requires 1 <= d.month <= 12
  {
    DaysBeforeYear(d.year) + DaysBeforeMonth(d.year, d.month) + d.day - 1 - 719_162
  }

  lemma YearHas(year: int)
    ensures DaysBeforeMonth(year, 12) + 31 == if IsLeapYear(year) then 366 else 365
    ensures DaysBeforeYear(year + 1) == DaysBeforeYear(year) + DaysBeforeMonth(year, 12) + 31
  {
    assert DaysBeforeMonth(year, 2) == DaysBeforeMonth(year, 1) + 31;
    assert DaysBeforeMonth(year, 3) == DaysBeforeMonth(year, 2) + DaysInMonth(year, 2);
    assert DaysBeforeMonth(year, 5) == DaysBeforeMonth(year, 3) + 61;
    assert DaysBeforeMonth(year, 7) == DaysBeforeMonth(year, 5) + 61;
    assert DaysBeforeMonth(year, 9) == DaysBeforeMonth(year, 7) + 62;
    assert DaysBeforeMonth(year, 11) == DaysBeforeMonth(year, 9) + 61;
    YearSteps(year);
  }

  lemma YearSteps(year: int)
    ensures year / 4 == (year - 1) / 4 + (if year % 4 == 0 then 1 else 0)
    ensures year / 100 == (year - 1) / 100 + (if year % 100 == 0 then 1 else 0)
    ensures year / 400 == (year - 1) / 400 + (if year % 400 == 0 then 1 else 0)
    ensures year % 400 == 0 ==> year % 100 == 0
    ensures year % 100 == 0 ==> year % 4 == 0
  {
  }

  /** The successor of a valid date is valid and one day later. */
  lemma DayNumberSuccessor(d: Date)
    requires Valid(d)
    ensures Valid(NextDay(d)) && DayNumber(NextDay(d)) == DayNumber(d) + 1
  {
    YearHas(d.year);
  }

  lemma {:induction false} MonthsGrow(year: int, m: int, n: int)
    requires 1 <= m < n <= 12
    ensures DaysBeforeMonth(year, m) + DaysInMonth(year, m) <= DaysBeforeMonth(year, n)
  {
    if m + 1 < n { MonthsGrow(year, m, n - 1); }
  }

  lemma YearsGrow(y: int, z: int)
    requires y < z
    ensures DaysBeforeYear(y + 1) <= DaysBeforeYear(z)
  {
  }

  /** The count orders valid dates as the calendar does. */
  lemma DayNumberOrders(a: Date, b: Date)
    requires Valid(a) && Valid(b)
    ensures Before(a, b) <==> DayNumber(a) < DayNumber(b)
    ensures a == b <==> DayNumber(a) == DayNumber(b)
  {
    if Before(a, b) { Later(a, b); }
    if Before(b, a) { Later(b, a); }
  }

  lemma Later(a: Date, b: Date)
    requires Valid(a) && Valid(b) && Before(a, b)
    ensures DayNumber(a) < DayNumber(b)
  {
    if a.year < b.year {
      YearsGrow(a.year, b.year);
      YearHas(a.year);
      if a.month < 12 { MonthsGrow(a.year, a.month, 12); }
      assert DaysBeforeMonth(b.year, b.month) >= 0 by { if b.month > 1 { MonthsGrow(b.year, 1, b.month); } }
    } else if a.month < b.month {
      MonthsGrow(a.year, a.month, b.month);
    }
  }

  // ── the algorithm is the calendar ──────────────────────────────────────

  lemma Epoch()
    ensures CivilFromDays(0) == Date(1970, 1, 1) && DayNumber(Date(1970, 1, 1)) == 0
  {
  }

  /** Counting follows the calendar one day at a time. */
  lemma CountUp(d: Date, n: int, after: Date)
    requires Valid(d) && after == NextDay(d)
    ensures Valid(after) && (DayNumber(d) == n <==> DayNumber(after) == n + 1)
  {
    DayNumberSuccessor(d);
  }

  lemma {:induction false} CivilCounts(n: int)
    ensures Valid(CivilFromDays(n)) && DayNumber(CivilFromDays(n)) == n
    decreases if n < 0 then -n else n
  {
    hide CivilFromDays;
    if n > 0 {
      CivilCounts(n - 1);
      CivilSuccessor(n - 1);
      CountUp(CivilFromDays(n - 1), n - 1, CivilFromDays(n - 1 + 1));
    } else if n < 0 {
      CivilCounts(n + 1);
      CivilSuccessor(n);
      CountUp(CivilFromDays(n), n, CivilFromDays(n + 1));
    } else {
      Epoch();
    }
  }

  /** `civil_from_days` is the inverse of counting days, on all integers and on all valid dates: every
      valid date is the date of exactly one day count. */
  lemma CivilInverts(n: int, d: Date)
    ensures Valid(CivilFromDays(n)) && DayNumber(CivilFromDays(n)) == n
    ensures Valid(d) ==> CivilFromDays(DayNumber(d)) == d
  {
    CivilCounts(n);
    if Valid(d) {
      CivilCounts(DayNumber(d));
      DayNumberOrders(CivilFromDays(DayNumber(d)), d);
    }
  }

  /** Later days have later dates, and different days different dates. */
  lemma CivilOrders(m: int, n: int)
    ensures m < n <==> Before(CivilFromDays(m), CivilFromDays(n))
    ensures CivilFromDays(m) == CivilFromDays(n) ==> m == n
  {
    CivilCounts(m);
    CivilCounts(n);
    DayNumberOrders(CivilFromDays(m), CivilFromDays(n));
  }
}
