/** Day numbers to calendar dates, and the proleptic Gregorian calendar they are checked against. */
module Calendar {

  datatype Date = Date(year: int, month: int, day: int)

  // ---- The calendar itself (section 5.7 and Appendix C of RFC 3339) ----

  predicate IsLeap(year: int) {
    year % 4 == 0 && (year % 100 != 0 || year % 400 == 0)
  }

  function MonthLength(year: int, month: int): int
    requires 1 <= month <= 12
  {
    if month == 2 then (if IsLeap(year) then 29 else 28)
    else if month == 4 || month == 6 || month == 9 || month == 11 then 30
    else 31
  }

  predicate Valid(date: Date) {
    1 <= date.month <= 12 && 1 <= date.day <= MonthLength(date.year, date.month)
  }

  /** The date after `date`, one calendar step at a time. */
  function Successor(date: Date): Date
    requires Valid(date)
  {
    if date.day < MonthLength(date.year, date.month) then date.(day := date.day + 1)
    else if date.month < 12 then Date(date.year, date.month + 1, 1)
    else Date(date.year + 1, 1, 1)
  }

  predicate Before(a: Date, b: Date) {
    a.year < b.year || (a.year == b.year && (a.month < b.month || (a.month == b.month && a.day < b.day)))
  }

  // ---- The closed form of the source ----

  /** Rust's integer division, which truncates toward zero. */
  function TruncDiv(a: int, b: int): int
    requires b > 0
  {
    if a >= 0 then a / b else -((-a) / b)
  }

  function CivilFromDays(days: int): Date {
    var (year, dayOfYear) := YearAndDay(days);
    MarchDate(year, dayOfYear)
  }

  /** The March-based year a day falls in, and the days passed since its March 1. */
  function YearAndDay(days: int): (int, int) {
    var shifted := days + 719468;
    var era := TruncDiv(if shifted >= 0 then shifted else shifted - 146096, 146097);
    var dayOfEra := shifted - era * 146097;
    var yearOfEra := YearOfEra(dayOfEra);
    var year := yearOfEra + era * 400;
    (year, dayOfEra - (365 * yearOfEra + TruncDiv(yearOfEra, 4) - TruncDiv(yearOfEra, 100)))
  }

  /** The year of a 400-year era that starts on March 1. */
  function YearOfEra(dayOfEra: int): int {
    TruncDiv(dayOfEra - TruncDiv(dayOfEra, 1460) + TruncDiv(dayOfEra, 36524) - TruncDiv(dayOfEra, 146096), 365)
  }

  /** The date `dayOfYear` days after March 1 of `year`. */
  function MarchDate(year: int, dayOfYear: int): Date {
    var monthPosition := TruncDiv(5 * dayOfYear + 2, 153);
    var day := dayOfYear - TruncDiv(153 * monthPosition + 2, 5) + 1;
    var month := if monthPosition < 10 then monthPosition + 3 else monthPosition - 9;
    Date(if month <= 2 then year + 1 else year, month, day)
  }

  // ---- Day numbers counted from the calendar's own rules ----

  /** Days from 0001-01-01 to January 1 of `year`. */
  function DaysBeforeYear(year: int): int {
    var y := year - 1;
    365 * y + y / 4 - y / 100 + y / 400
  }

  function DaysBeforeMonth(year: int, month: int): int
    requires 1 <= month <= 12
  {
    if month == 1 then 0 else DaysBeforeMonth(year, month - 1) + MonthLength(year, month - 1)
  }

  /** Days from 1970-01-01 to `date`: the exact inverse of `CivilFromDays`. */
  function DayNumber(date: Date): int
    requires 1 <= date.month <= 12
  {
    DaysBeforeYear(date.year) + DaysBeforeMonth(date.year, date.month) + date.day - 1 - 719162
  }

  /** Quotients by uniqueness: the division chain below is settled by naming quotient and remainder. */
  lemma DivideBy(a: int, n: int, q: int, r: int)
    requires n > 0 && a == q * n + r && 0 <= r < n
    ensures a / n == q && a % n == r
  {
    var d := a / n - q;
    assert d * n == r - a % n;
    assert d >= 1 ==> d * n >= n;
    assert d <= -1 ==> d * n <= -n;
  }

  lemma QuotientStep(y: int, n: int)
    requires n > 1
    ensures (y + 1) / n == y / n + (if (y + 1) % n == 0 then 1 else 0)
  {
    var q, r := y / n, y % n;
    if r + 1 < n {
      DivideBy(y + 1, n, q, r + 1);
    } else {
      DivideBy(y + 1, n, q + 1, 0);
    }
  }

  lemma YearLengths(year: int)
    ensures DaysBeforeYear(year + 1) == DaysBeforeYear(year) + (if IsLeap(year) then 366 else 365)
  {
    var y := year - 1;
    QuotientStep(y, 4);
    QuotientStep(y, 100);
    QuotientStep(y, 400);
    LeapQuotients(year);
  }

  lemma LeapQuotients(year: int)
    ensures year % 100 == 0 ==> year % 4 == 0
    ensures year % 400 == 0 ==> year % 100 == 0
  {
    DivideBy(year, 4, 25 * (year / 100) + (year % 100) / 4, (year % 100) % 4);
    DivideBy(year, 100, 4 * (year / 400) + (year % 400) / 100, (year % 400) % 100);
  }

  lemma MonthTable(year: int)
    ensures var leap := if IsLeap(year) then 1 else 0;
            && DaysBeforeMonth(year, 1) == 0
            && DaysBeforeMonth(year, 2) == 31
            && DaysBeforeMonth(year, 3) == 59 + leap
            && DaysBeforeMonth(year, 4) == 90 + leap
            && DaysBeforeMonth(year, 5) == 120 + leap
            && DaysBeforeMonth(year, 6) == 151 + leap
            && DaysBeforeMonth(year, 7) == 181 + leap
            && DaysBeforeMonth(year, 8) == 212 + leap
            && DaysBeforeMonth(year, 9) == 243 + leap
            && DaysBeforeMonth(year, 10) == 273 + leap
            && DaysBeforeMonth(year, 11) == 304 + leap
            && DaysBeforeMonth(year, 12) == 334 + leap
  {
    assert DaysBeforeMonth(year, 3) == DaysBeforeMonth(year, 2) + MonthLength(year, 2);
    assert DaysBeforeMonth(year, 5) == DaysBeforeMonth(year, 4) + MonthLength(year, 4);
    assert DaysBeforeMonth(year, 7) == DaysBeforeMonth(year, 6) + MonthLength(year, 6);
    assert DaysBeforeMonth(year, 9) == DaysBeforeMonth(year, 8) + MonthLength(year, 8);
    assert DaysBeforeMonth(year, 11) == DaysBeforeMonth(year, 10) + MonthLength(year, 10);
  }

  /** One calendar step is one day: the day number is faithful to the stepwise calendar. */
  lemma SuccessorIsNextDay(date: Date)
    requires Valid(date)
    ensures Valid(Successor(date))
    ensures DayNumber(Successor(date)) == DayNumber(date) + 1
  {
    MonthTable(date.year);
    if date.month == 12 && date.day == 31 {
      YearLengths(date.year);
    }
  }

  lemma {:induction false} YearsAdvance(a: int, b: int)
    requires a < b
    ensures DaysBeforeYear(a) + (if IsLeap(a) then 366 else 365) <= DaysBeforeYear(b)
    decreases b - a
  {
    YearLengths(a);
    if a + 1 < b {
      YearsAdvance(a + 1, b);
    }
  }

  lemma DayNumberMonotone(a: Date, b: Date)
    requires Valid(a) && Valid(b) && Before(a, b)
    ensures DayNumber(a) < DayNumber(b)
  {
    MonthTable(a.year);
    MonthTable(b.year);
    if a.year < b.year {
      YearsAdvance(a.year, b.year);
    }
  }

  lemma DayNumberInjective(a: Date, b: Date)
    requires Valid(a) && Valid(b) && DayNumber(a) == DayNumber(b)
    ensures a == b
  {
    if Before(a, b) {
      DayNumberMonotone(a, b);
    } else if Before(b, a) {
      DayNumberMonotone(b, a);
    }
  }

  // ---- The division chain ----

  /** The day `d` of year `r` of the 4-year cycle `q` of century `c`, for every day of an era. */
  lemma YearOfEraIsExact(c: int, q: int, r: int, d: int)
    requires 0 <= c <= 3 && 0 <= q <= 24 && 0 <= r <= 3 && 0 <= d <= 365
    requires d == 365 ==> r == 3 && (q < 24 || c == 3)
    ensures YearOfEra(36524 * c + 1461 * q + 365 * r + d) == 100 * c + 4 * q + r
  {
    var doe := 36524 * c + 1461 * q + 365 * r + d;
    var last := doe == 146096;
    var rest := 24 * c + q + 365 * r + d;
    var wraps := if rest >= 1460 then 1 else 0;
    DivideBy(doe, 1460, 25 * c + q + wraps, rest - 1460 * wraps);
    if last {
      assert c == 3 && q == 24 && r == 3 && d == 365;
      assert doe / 36524 == 4 && doe / 146096 == 1;
    } else {
      DivideBy(doe, 36524, c, 1461 * q + 365 * r + d);
      DivideBy(doe, 146096, 0, doe);
    }
    var y := 100 * c + 4 * q + r;
    var t := doe - doe / 1460 + doe / 36524 - doe / 146096;
    assert t == 365 * y + d - wraps;
    DivideBy(t, 365, y, d - wraps);
  }

  /** Month and day from the day `doy` of a year that starts on March 1. */
  lemma MonthOfYear(doy: int) returns (p: int)
    requires 0 <= doy <= 365
    ensures p == (5 * doy + 2) / 153 && 0 <= p <= 11
    ensures (153 * p + 2) / 5 <= doy && (p < 11 ==> doy < (153 * (p + 1) + 2) / 5)
  {
    p := (5 * doy + 2) / 153;
  }

  lemma EraIsFloor(shifted: int)
    ensures TruncDiv(if shifted >= 0 then shifted else shifted - 146096, 146097) == shifted / 146097
  {
    if shifted < 0 {
      var q, r := shifted / 146097, shifted % 146097;
      DivideBy(-(shifted - 146096), 146097, -q, 146096 - r);
    }
  }

  /** Years are counted from March 1 inside an era; these are the days before year `y` of an era. */
  lemma DaysBeforeMarch(era: int, c: int, q: int, r: int)
    requires 0 <= c <= 3 && 0 <= q <= 24 && 0 <= r <= 3
    ensures var y := 400 * era + 100 * c + 4 * q + r;
            DaysBeforeYear(y) + 59 + (if IsLeap(y) then 1 else 0)
            == 146097 * era + 36524 * c + 1461 * q + 365 * r - 719468 + 719162
    ensures var y := 400 * era + 100 * c + 4 * q + r;
            IsLeap(y + 1) <==> r == 3 && (q < 24 || c == 3)
  {
    var y := 400 * era + 100 * c + 4 * q + r;
    var y4 := 100 * era + 25 * c + q;
    var y100 := 4 * era + c;
    DivideBy(y, 4, y4, r);
    DivideBy(y, 100, y100, 4 * q + r);
    DivideBy(y, 400, era, 100 * c + 4 * q + r);
    YearLengths(y);
    assert DaysBeforeYear(y + 1) == 365 * y + y4 - y100 + era;
    if r == 3 {
      DivideBy(y + 1, 4, y4 + 1, 0);
      if q == 24 {
        DivideBy(y + 1, 100, y100 + 1, 0);
        if c == 3 {
          DivideBy(y + 1, 400, era + 1, 0);
        } else {
          DivideBy(y + 1, 400, era, 100 * c + 100);
        }
      } else {
        DivideBy(y + 1, 100, y100, 4 * q + 4);
      }
    } else {
      DivideBy(y + 1, 4, y4, r + 1);
    }
  }

  // ---- What the closed form computes ----

  lemma FinishDate(year: int, doy: int, p: int)
    requires 0 <= doy <= 365 && (doy == 365 ==> IsLeap(year + 1))
    requires p == (5 * doy + 2) / 153 && 0 <= p <= 11
    requires (153 * p + 2) / 5 <= doy && (p < 11 ==> doy < (153 * (p + 1) + 2) / 5)
    ensures Valid(MarchDate(year, doy))
    ensures DayNumber(MarchDate(year, doy))
            == DaysBeforeYear(year) + 59 + (if IsLeap(year) then 1 else 0) + doy - 719162
  {
    MonthTable(year);
    MonthTable(year + 1);
    YearLengths(year);
  }

  /** A day of an era as century, 4-year cycle, year and day, the leap days closing their cycles. */
  lemma SplitEra(doe: int) returns (c: int, q: int, r: int, d: int)
    requires 0 <= doe <= 146096
    ensures doe == 36524 * c + 1461 * q + 365 * r + d
    ensures 0 <= c <= 3 && 0 <= q <= 24 && 0 <= r <= 3 && 0 <= d <= 365
    ensures d == 365 ==> r == 3 && (q < 24 || c == 3)
  {
    c := if doe / 36524 > 3 then 3 else doe / 36524;
    var e := doe - 36524 * c;
    q := e / 1461;
    var f := e - 1461 * q;
    r := if f / 365 > 3 then 3 else f / 365;
    d := f - 365 * r;
  }

  lemma YearAndDayIsExact(days: int, era: int, c: int, q: int, r: int, d: int)
    requires 0 <= c <= 3 && 0 <= q <= 24 && 0 <= r <= 3 && 0 <= d <= 365
    requires d == 365 ==> r == 3 && (q < 24 || c == 3)
    requires days + 719468 == 146097 * era + 36524 * c + 1461 * q + 365 * r + d
    ensures YearAndDay(days) == (400 * era + 100 * c + 4 * q + r, d)
  {
    hide YearOfEra, TruncDiv;
    var shifted, dayOfEra := days + 719468, 36524 * c + 1461 * q + 365 * r + d;
    EraIsFloor(shifted);
    EraOfDay(shifted, era, dayOfEra);
    YearOfEraIsExact(c, q, r, d);
    LeapDaysOfEra(c, q, r);
  }

  lemma EraOfDay(shifted: int, era: int, dayOfEra: int)
    requires shifted == 146097 * era + dayOfEra && 0 <= dayOfEra < 146097
    ensures shifted / 146097 == era && shifted - era * 146097 == dayOfEra
  {
    DivideBy(shifted, 146097, era, dayOfEra);
  }

  /** The leap days before a year of an era. */
  lemma LeapDaysOfEra(c: int, q: int, r: int)
    requires 0 <= c <= 3 && 0 <= q <= 24 && 0 <= r <= 3
    ensures var y := 100 * c + 4 * q + r; TruncDiv(y, 4) == 25 * c + q && TruncDiv(y, 100) == c
  {
    var y := 100 * c + 4 * q + r;
    DivideBy(y, 4, 25 * c + q, r);
    DivideBy(y, 100, c, 4 * q + r);
  }

  /** Every day number becomes a calendar date, and counting the days to that date gives it back. */
  lemma CivilFromDaysCounts(days: int)
    ensures Valid(CivilFromDays(days))
    ensures DayNumber(CivilFromDays(days)) == days
  {
    hide YearOfEra, YearAndDay;
    var era := (days + 719468) / 146097;
    var c, q, r, d := SplitEra(days + 719468 - 146097 * era);
    YearAndDayIsExact(days, era, c, q, r, d);
    DaysBeforeMarch(era, c, q, r);
    var p := MonthOfYear(d);
    FinishDate(400 * era + 100 * c + 4 * q + r, d, p);
  }

  /** The two directions of the inverse: no day is lost and no valid date is missed. */
  lemma CivilFromDaysIsInverse(days: int, date: Date)
    requires Valid(date)
    ensures CivilFromDays(DayNumber(date)) == date
    ensures CivilFromDays(days) == date <==> days == DayNumber(date)
  {
    CivilFromDaysCounts(days);
    CivilFromDaysCounts(DayNumber(date));
    DayNumberInjective(CivilFromDays(DayNumber(date)), date);
  }

  lemma EpochIsDayZero()
    ensures DayNumber(Date(1970, 1, 1)) == 0
  {
  }

  /** Day 0 is the epoch, and each next day number is the next calendar day. */
  lemma CivilFromDaysStepsTheCalendar(days: int)
    ensures CivilFromDays(0) == Date(1970, 1, 1)
    ensures Valid(CivilFromDays(days))
    ensures CivilFromDays(days + 1) == Successor(CivilFromDays(days))
  {
    CivilFromDaysIsInverse(0, Date(1970, 1, 1));
    EpochIsDayZero();
    CivilFromDaysCounts(days);
    CivilFromDaysCounts(days + 1);
    var date := CivilFromDays(days);
    SuccessorIsNextDay(date);
    DayNumberInjective(CivilFromDays(days + 1), Successor(date));
  }

  lemma CivilFromDaysMonotone(a: int, b: int)
    ensures a < b <==> Before(CivilFromDays(a), CivilFromDays(b))
  {
    CivilFromDaysCounts(a);
    CivilFromDaysCounts(b);
    var x, y := CivilFromDays(a), CivilFromDays(b);
    if Before(x, y) {
      DayNumberMonotone(x, y);
    } else if Before(y, x) {
      DayNumberMonotone(y, x);
    }
  }
}
