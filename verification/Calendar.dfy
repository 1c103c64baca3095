/** Days since 1970 as civil dates, and timestamps as RFC 3339 text (crates/agent-core/src/logging.rs, and
    the copy of the date conversion in crates/agent-core/src/core.rs). */
module Calendar {
  import opened Common

  /** Rust's `/` on `i64`: towards zero. Dafny's rounds down for a positive divisor. */
  function TruncDiv(a: int, b: int): int
    requires b > 0
  {
    if a >= 0 then a / b else -((-a) / b)
  }

  datatype Date = Date(year: int, month: int, day: int)

  const ERA_DAYS := 146_097
  const EPOCH_SHIFT := 719_468

  /** The year of an era, March to February, that a day of the era falls in. */
  function YearOfEra(doe: int): int {
    (doe - doe / 1460 + doe / 36_524 - doe / 146_096) / 365
  }

  /** The first day of that year, without the era's last leap day. */
  function YearStart(yoe: int): int {
    365 * yoe + yoe / 4 - yoe / 100
  }

  function FromShiftedMonth(year: int, mp: int, day: int): Date {
    var month := if mp < 10 then mp + 3 else mp - 9;
    Date(if month <= 2 then year + 1 else year, month, day)
  }

  function DateOfYearDay(year: int, doy: int): Date {
    var mp := (5 * doy + 2) / 153;
    FromShiftedMonth(year, mp, doy - (153 * mp + 2) / 5 + 1)
  }

  /** `civil_from_days`. */
  function CivilFromDays(days: int): Date {
    var z := days + EPOCH_SHIFT;
    var era := TruncDiv(if z >= 0 then z else z - 146_096, ERA_DAYS);
    var doe := z - era * ERA_DAYS;
    var yoe := YearOfEra(doe);
    DateOfYearDay(yoe + era * 400, doe - YearStart(yoe))
  }

  /** `days_from_civil`. */
  function DaysFromCivil(d: Date): int {
    var year := if d.month <= 2 then d.year - 1 else d.year;
    var era := TruncDiv(if year >= 0 then year else year - 399, 400);
    var yoe := year - era * 400;
    var mp := if d.month > 2 then d.month - 3 else d.month + 9;
    var doy := (153 * mp + 2) / 5 + d.day - 1;
    var doe := yoe * 365 + yoe / 4 - yoe / 100 + doy;
    era * ERA_DAYS + doe - EPOCH_SHIFT
  }

  // ---------------------------------------------------------------- the Gregorian calendar

  predicate IsLeap(year: int) {
    year % 4 == 0 && (year % 100 != 0 || year % 400 == 0)
  }

  function MonthLength(year: int, month: int): int {
    if month == 2 then (if IsLeap(year) then 29 else 28)
    else if month in {4, 6, 9, 11} then 30
    else 31
  }

  predicate IsDate(d: Date) {
    1 <= d.month <= 12 && 1 <= d.day <= MonthLength(d.year, d.month)
  }

  function NextDate(d: Date): Date {
    if d.day < MonthLength(d.year, d.month) then d.(day := d.day + 1)
    else if d.month < 12 then Date(d.year, d.month + 1, 1)
    else Date(d.year + 1, 1, 1)
  }

  // ---------------------------------------------------------------- one era

  /** A year of the era and a day of it; the 366th is its 29 February. */
  predicate IsYearDay(yoe: int, doy: int) {
    0 <= yoe < 400 && 0 <= doy <= 365 && (doy == 365 ==> IsLeap(yoe + 1))
  }

  /** Years by centuries, groups of four and years of a group. */
  lemma YearParts(yoe: int) returns (c: int, q: int, k: int)
    requires 0 <= yoe < 400
    ensures 0 <= c < 4 && 0 <= q < 25 && 0 <= k < 4 && yoe == 100 * c + 4 * q + k
    ensures yoe / 4 == 25 * c + q && yoe / 100 == c
    ensures IsLeap(yoe + 1) <==> k == 3 && (q < 24 || c == 3)
  {
    c := yoe / 100;
    q := (yoe - 100 * c) / 4;
    k := yoe % 4;
  }

  /** The formula finds the year of every day. */
  lemma YearOfEraExact(yoe: int, doy: int)
    requires IsYearDay(yoe, doy)
    ensures YearOfEra(YearStart(yoe) + doy) == yoe && 0 <= YearStart(yoe) + doy < ERA_DAYS
  {
    var c, q, k := YearParts(yoe);
    var doe := YearStart(yoe) + doy;
    assert doe == 36_524 * c + 1461 * q + 365 * k + doy;
    assert doe / 36_524 == c + (if doe == 146_096 then 1 else 0);
    assert doe / 146_096 == if doe == 146_096 then 1 else 0;
    var extra := 24 * c + q + 365 * k + doy;
    assert doe == 1460 * (25 * c + q) + extra;
    assert doe / 1460 == 25 * c + q + (if extra >= 1460 then 1 else 0);
    assert doe - doe / 1460 + doe / 36_524 - doe / 146_096 == 365 * yoe + doy - (if extra >= 1460 then 1 else 0);
  }

  /** Every day of the era is a day of one of its years. */
  lemma DayHasYear(doe: int) returns (yoe: int, doy: int)
    requires 0 <= doe < ERA_DAYS
    ensures IsYearDay(yoe, doy) && doe == YearStart(yoe) + doy
  {
    var c := if doe == 146_096 then 3 else doe / 36_524;
    var r := doe - 36_524 * c;
    var q := r / 1461;
    var s := r - 1461 * q;
    var k := if s == 1460 then 3 else s / 365;
    yoe, doy := 100 * c + 4 * q + k, s - 365 * k;
    assert yoe / 4 == 25 * c + q && yoe / 100 == c;
  }

  // ---------------------------------------------------------------- months

  /** The March-based year a date falls in, and its day there. */
  function ShiftedYear(d: Date): int {
    if d.month <= 2 then d.year - 1 else d.year
  }

  function YearDay(d: Date): int {
    (153 * (if d.month > 2 then d.month - 3 else d.month + 9) + 2) / 5 + d.day - 1
  }

  /** A year has 365 days before the leap day, and days and months agree. */
  lemma DateOfYearDayExact(year: int, doy: int)
    requires 0 <= doy <= 365 && (doy == 365 ==> IsLeap(year + 1))
    ensures var d := DateOfYearDay(year, doy); IsDate(d) && ShiftedYear(d) == year && YearDay(d) == doy
  {
  }

  lemma YearDayExact(d: Date)
    requires IsDate(d)
    ensures 0 <= YearDay(d) <= 365 && (YearDay(d) == 365 ==> IsLeap(ShiftedYear(d) + 1))
    ensures DateOfYearDay(ShiftedYear(d), YearDay(d)) == d
  {
  }

  // ---------------------------------------------------------------- eras

  lemma FloorEra(z: int)
    ensures TruncDiv(if z >= 0 then z else z - 146_096, ERA_DAYS) == z / ERA_DAYS
  {
  }

  lemma FloorYear(year: int)
    ensures TruncDiv(if year >= 0 then year else year - 399, 400) == year / 400
  {
  }

  /** Leap years repeat with the era. */
  lemma LeapInEra(year: int)
    ensures IsLeap(year + 1) <==> IsLeap(year % 400 + 1)
  {
    var e, k := year / 400, year % 400 + 1;
    assert year + 1 == 400 * e + k;
    EraRemainders(e, k);
  }

  lemma EraRemainders(e: int, k: int)
    ensures (400 * e + k) % 4 == k % 4 && (400 * e + k) % 100 == k % 100 && (400 * e + k) % 400 == k % 400
  {
    Remainder4(100 * e, k);
    Remainder100(4 * e, k);
    Remainder400(e, k);
  }

  lemma Remainder4(q: int, k: int)
    ensures (4 * q + k) % 4 == k % 4
  {
  }

  lemma Remainder100(q: int, k: int)
    ensures (100 * q + k) % 100 == k % 100
  {
  }

  lemma Remainder400(q: int, k: int)
    ensures (400 * q + k) % 400 == k % 400
  {
  }

  /** The days before a March-based year, counted from the year 0. */
  function YearDays(year: int): int {
    (year / 400) * ERA_DAYS + YearStart(year % 400)
  }

  lemma DaysFromCivilExact(d: Date)
    ensures DaysFromCivil(d) == YearDays(ShiftedYear(d)) + YearDay(d) - EPOCH_SHIFT
  {
    FloorYear(ShiftedYear(d));
  }

  /** A day is its March-based year's first day and its day of that year. */
  lemma CivilFromYearDay(year: int, doy: int)
    requires 0 <= doy <= 365 && (doy == 365 ==> IsLeap(year + 1))
    ensures CivilFromDays(YearDays(year) + doy - EPOCH_SHIFT) == DateOfYearDay(year, doy)
  {
    var yoe, era := year % 400, year / 400;
    LeapInEra(year);
    YearOfEraExact(yoe, doy);
    var doe := YearStart(yoe) + doy;
    var z := era * ERA_DAYS + doe;
    FloorEra(z);
    assert z / ERA_DAYS == era;
    assert z == YearDays(year) + doy - EPOCH_SHIFT + EPOCH_SHIFT;
  }

  lemma EveryDayHasYearDay(days: int) returns (year: int, doy: int)
    ensures 0 <= doy <= 365 && (doy == 365 ==> IsLeap(year + 1))
    ensures days == YearDays(year) + doy - EPOCH_SHIFT
  {
    var z := days + EPOCH_SHIFT;
    var era := z / ERA_DAYS;
    var yoe;
    yoe, doy := DayHasYear(z % ERA_DAYS);
    year := 400 * era + yoe;
    assert year % 400 == yoe && year / 400 == era;
    LeapInEra(year);
  }

  // ---------------------------------------------------------------- the conversions

  /** Every day number is the day number of its date, which is a date of the calendar. */
  lemma DaysRoundTrip(days: int)
    ensures IsDate(CivilFromDays(days)) && DaysFromCivil(CivilFromDays(days)) == days
  {
    var year, doy := EveryDayHasYearDay(days);
    CivilFromYearDay(year, doy);
    DateOfYearDayExact(year, doy);
    DaysFromCivilExact(CivilFromDays(days));
  }

  /** Every date is the date of its day number. */
  lemma DateRoundTrip(d: Date)
    requires IsDate(d)
    ensures CivilFromDays(DaysFromCivil(d)) == d
  {
    DaysFromCivilExact(d);
    YearDayExact(d);
    CivilFromYearDay(ShiftedYear(d), YearDay(d));
  }

  lemma NextYearStart(yoe: int)
    requires 0 <= yoe < 399
    ensures YearStart(yoe + 1) == YearStart(yoe) + (if IsLeap(yoe + 1) then 366 else 365)
  {
    var c, q, k := YearParts(yoe);
    assert (yoe + 1) / 4 == yoe / 4 + (if k == 3 then 1 else 0);
    assert (yoe + 1) / 100 == c + (if k == 3 && q == 24 then 1 else 0);
  }

  lemma NextYearDays(year: int)
    ensures YearDays(year + 1) == YearDays(year) + (if IsLeap(year + 1) then 366 else 365)
  {
    LeapInEra(year);
    var yoe, era := year % 400, year / 400;
    assert year == 400 * era + yoe;
    if yoe == 399 {
      assert year + 1 == 400 * (era + 1);
      assert IsLeap(400) && YearStart(399) == 145_731 && YearStart(0) == 0;
      assert (year + 1) / 400 == era + 1 && (year + 1) % 400 == 0;
    } else {
      assert year + 1 == 400 * era + (yoe + 1);
      assert (year + 1) / 400 == era && (year + 1) % 400 == yoe + 1;
      NextYearStart(yoe);
    }
  }

  /** The day after a date: the next of its year, or the first of March. */
  lemma NextYearDay(d: Date)
    requires IsDate(d)
    ensures IsDate(NextDate(d))
    ensures if d.month == 2 && d.day == MonthLength(d.year, 2)
            then ShiftedYear(NextDate(d)) == ShiftedYear(d) + 1 && YearDay(NextDate(d)) == 0 &&
                 YearDay(d) == if IsLeap(ShiftedYear(d) + 1) then 365 else 364
            else ShiftedYear(NextDate(d)) == ShiftedYear(d) && YearDay(NextDate(d)) == YearDay(d) + 1
  {
  }

  lemma NextDateIsNextDay(d: Date)
    requires IsDate(d)
    ensures IsDate(NextDate(d)) && DaysFromCivil(NextDate(d)) == DaysFromCivil(d) + 1
  {
    DaysFromCivilExact(d);
    DaysFromCivilExact(NextDate(d));
    NextYearDays(ShiftedYear(d));
    NextYearDay(d);
  }

  /** The day after a day has the date after its date. */
  lemma ConsecutiveDays(days: int)
    ensures CivilFromDays(days + 1) == NextDate(CivilFromDays(days))
  {
    var d := CivilFromDays(days);
    DaysRoundTrip(days);
    NextDateIsNextDay(d);
    DateRoundTrip(NextDate(d));
  }

  /** The count starts on 1 January 1970. */
  lemma EpochIsFirstOf1970()
    ensures CivilFromDays(0) == Date(1970, 1, 1)
  {
    DateRoundTrip(Date(1970, 1, 1));
    DaysFromCivilExact(Date(1970, 1, 1));
    assert 1969 / 400 == 4 && 1969 % 400 == 369 && YearStart(369) == 134_774;
  }

  // ---------------------------------------------------------------- years

  lemma {:induction false} YearDaysGrow(a: int, b: int)
    requires a <= b
    ensures YearDays(a) + 365 * (b - a) <= YearDays(b)
    decreases b - a
  {
    if a < b {
      NextYearDays(a);
      YearDaysGrow(a + 1, b);
    }
  }

  function JanuaryFirst(year: int): int {
    DaysFromCivil(Date(year, 1, 1))
  }

  lemma JanuaryFirstExact(year: int)
    ensures JanuaryFirst(year) == YearDays(year - 1) + 306 - EPOCH_SHIFT
  {
    DaysFromCivilExact(Date(year, 1, 1));
  }

  lemma JanuariesGrow(a: int, b: int)
    requires a <= b
    ensures JanuaryFirst(a) <= JanuaryFirst(b)
  {
    JanuaryFirstExact(a);
    JanuaryFirstExact(b);
    YearDaysGrow(a - 1, b - 1);
  }

  lemma YearDayRange(d: Date)
    requires IsDate(d)
    ensures if d.month <= 2 then 306 <= YearDay(d) <= 365 else 0 <= YearDay(d) <= 305
  {
  }

  lemma InItsYear(d: Date)
    requires if d.month <= 2 then 306 <= YearDay(d) <= 365 else 0 <= YearDay(d) <= 305
    ensures JanuaryFirst(d.year) <= DaysFromCivil(d) < JanuaryFirst(d.year + 1)
  {
    DaysFromCivilExact(d);
    JanuaryFirstExact(d.year);
    JanuaryFirstExact(d.year + 1);
    YearDaysGrow(d.year - 1, d.year);
  }

  lemma DateAgainstYear(d: Date, year: int)
    requires if d.month <= 2 then 306 <= YearDay(d) <= 365 else 0 <= YearDay(d) <= 305
    ensures d.year >= year <==> DaysFromCivil(d) >= JanuaryFirst(year)
  {
    InItsYear(d);
    if d.year >= year {
      JanuariesGrow(year, d.year);
    } else {
      JanuariesGrow(d.year + 1, year);
    }
  }

  /** A year begins on its first of January. */
  lemma YearReached(days: int, year: int)
    ensures CivilFromDays(days).year >= year <==> days >= JanuaryFirst(year)
  {
    DaysRoundTrip(days);
    YearDayRange(CivilFromDays(days));
    DateAgainstYear(CivilFromDays(days), year);
  }

  // ---------------------------------------------------------------- the copy

  function AsI32(n: int): int {
    (n + 0x8000_0000) % 0x1_0000_0000 - 0x8000_0000
  }

  /** The copy of `civil_from_days`, which keeps the year in 32 bits. */
  function CoreCivilFromDays(days: int): Date {
    var z := days + EPOCH_SHIFT;
    var era := TruncDiv(if z >= 0 then z else z - 146_096, ERA_DAYS);
    var doe := z - era * ERA_DAYS;
    var yoe := YearOfEra(doe);
    CoreDateOfYearDay(yoe + era * 400, doe - YearStart(yoe))
  }

  function CoreDateOfYearDay(year: int, doy: int): Date {
    var mp := (5 * doy + 2) / 153;
    var month := mp + (if mp < 10 then 3 else -9);
    Date(AsI32(year + (if month <= 2 then 1 else 0)), month, doy - (153 * mp + 2) / 5 + 1)
  }

  lemma CopyCastsYear(year: int, doy: int)
    ensures CoreDateOfYearDay(year, doy) == DateOfYearDay(year, doy).(year := AsI32(DateOfYearDay(year, doy).year))
  {
  }

  /** 1 January of the years -2147483648 and 2147483648. */
  const FIRST_I32_DAY := -784_353_015_833
  const PAST_I32_DAY := 784_351_576_777

  lemma I32Days()
    ensures JanuaryFirst(-0x8000_0000) == FIRST_I32_DAY && JanuaryFirst(0x8000_0000) == PAST_I32_DAY
  {
    JanuaryFirstExact(-0x8000_0000);
    JanuaryFirstExact(0x8000_0000);
    YearDaysAt(-0x8000_0001, -5_368_710, 351);
    YearDaysAt(0x7FFF_FFFF, 5_368_709, 47);
    assert YearStart(351) == 128_199 && YearStart(47) == 17_166;
  }

  lemma YearDaysAt(year: int, era: int, yoe: int)
    requires year == 400 * era + yoe && 0 <= yoe < 400
    ensures YearDays(year) == era * ERA_DAYS + YearStart(yoe)
  {
    assert year / 400 == era && year % 400 == yoe;
  }

  lemma SameYearDay(days: int) returns (year: int, doy: int)
    ensures CivilFromDays(days) == DateOfYearDay(year, doy) && CoreCivilFromDays(days) == CoreDateOfYearDay(year, doy)
  {
    var z := days + EPOCH_SHIFT;
    var era := TruncDiv(if z >= 0 then z else z - 146_096, ERA_DAYS);
    var doe := z - era * ERA_DAYS;
    year, doy := YearOfEra(doe) + era * 400, doe - YearStart(YearOfEra(doe));
  }

  lemma CopyIsCast(days: int)
    ensures CoreCivilFromDays(days) == CivilFromDays(days).(year := AsI32(CivilFromDays(days).year))
  {
    var year, doy := SameYearDay(days);
    CopyCastsYear(year, doy);
  }

  /** The copy agrees on the days of the years that 32 bits can hold, and on no others. */
  lemma CopyAgreesExactly(days: int)
    ensures CoreCivilFromDays(days) == CivilFromDays(days) <==> FIRST_I32_DAY <= days < PAST_I32_DAY
  {
    CopyIsCast(days);
    CastFits(CivilFromDays(days).year);
    I32Days();
    YearReached(days, -0x8000_0000);
    YearReached(days, 0x8000_0000);
  }

  /** The day after the last one: the copy goes back to the first year. */
  lemma CopyFailsNext()
    ensures CivilFromDays(PAST_I32_DAY) == Date(0x8000_0000, 1, 1)
    ensures CoreCivilFromDays(PAST_I32_DAY) == Date(-0x8000_0000, 1, 1)
  {
    I32Days();
    DateRoundTrip(Date(0x8000_0000, 1, 1));
    CopyIsCast(PAST_I32_DAY);
  }

  lemma CastFits(n: int)
    ensures AsI32(n) == n <==> -0x8000_0000 <= n < 0x8000_0000
  {
  }
}
