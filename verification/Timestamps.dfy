/** Timestamps as RFC 3339 text (section 5.6), written and read back (crates/agent-core/src/logging.rs). */
module Timestamps {
  import opened Common
  import opened Calendar

  const DAY_SECS := 86_400

  /** 9999-12-31T23:59:59Z. */
  const LAST_SECOND := 253_402_300_799

  // ---------------------------------------------------------------- text

  function Zeros(k: nat): string {
    seq(k, _ => '0')
  }

  /** `{n:0width}`. */
  function Pad(n: nat, width: nat): string {
    var digits := Decimal(n);
    if |digits| >= width then digits else Zeros(width - |digits|) + digits
  }

  function PadYear(year: int): string {
    if year < 0 then "-" + Pad(-year, 3) else Pad(year, 4)
  }

  function Compose(year: string, month: string, day: string, hour: string, minute: string, second: string): string {
    year + ("-" + month + "-" + day + "T" + hour + ":" + minute + ":" + second + "Z")
  }

  /** `format_rfc3339`. */
  function Format(secs: nat): string {
    var d, rem := CivilFromDays(secs / DAY_SECS), secs % DAY_SECS;
    DaysRoundTrip(secs / DAY_SECS);
    Compose(PadYear(d.year), Pad(d.month, 2), Pad(d.day, 2), Pad(rem / 3600, 2), Pad(rem % 3600 / 60, 2), Pad(rem % 60, 2))
  }

  function Number(text: string): Option<nat> {
    FromStrRadix(text, 10, U64_MAX)
  }

  function DateSecs(year: nat, month: nat, day: nat, secs: nat): Option<nat> {
    var days := DaysFromCivil(Date(year, month, day));
    if days < 0 then None else Some(days * DAY_SECS + secs)
  }

  function CheckedSecs(year: nat, month: nat, day: nat, hour: nat, minute: nat, second: nat): Option<nat> {
    if month < 1 || month > 12 || day < 1 || day > 31 then None
    else if hour > 23 || minute > 59 || second > 60 then None
    else DateSecs(year, month, day, hour * 3600 + minute * 60 + second)
  }

  predicate HasShape(ts: string) {
    |ts| == 20 && ts[4] == '-' && ts[7] == '-' && ts[10] == 'T' && ts[13] == ':' && ts[16] == ':' && ts[19] == 'Z'
  }

  /** `parse_rfc3339_secs`. */
  function Parse(ts: string): Option<nat> {
    if !HasShape(ts) then None
    else
      match (Number(ts[0..4]), Number(ts[5..7]), Number(ts[8..10]))
      case (Some(year), Some(month), Some(day)) =>
        (match (Number(ts[11..13]), Number(ts[14..16]), Number(ts[17..19]))
         case (Some(hour), Some(minute), Some(second)) => CheckedSecs(year, month, day, hour, minute, second)
         case _ => None)
      case _ => None
  }

  // ---------------------------------------------------------------- numbers read back

  lemma {:induction false} LeadingZeros(k: nat, digits: string)
    requires DigitsValue(digits, 10).Some?
    ensures DigitsValue(Zeros(k) + digits, 10) == DigitsValue(digits, 10)
    decreases |digits| + k
  {
    var text := Zeros(k) + digits;
    if digits != "" {
      assert text[..|text| - 1] == Zeros(k) + digits[..|digits| - 1];
      LeadingZeros(k, digits[..|digits| - 1]);
    } else if k > 0 {
      assert text[..|text| - 1] == Zeros(k - 1) + "";
      LeadingZeros(k - 1, "");
    } else {
      assert text == digits;
    }
  }

  lemma PadReadsBack(n: nat, width: nat)
    requires n <= U64_MAX
    ensures Number(Pad(n, width)) == Some(n)
  {
    DecimalReadsBack(n);
    var digits := Decimal(n);
    assert digits[0] in digits;
    if |digits| < width {
      LeadingZeros(width - |digits|, digits);
    }
  }

  lemma {:induction false} DecimalLength(n: nat)
    ensures n < 10 <==> |Decimal(n)| == 1
    ensures n < 100 <==> |Decimal(n)| <= 2
    ensures n < 10_000 <==> |Decimal(n)| <= 4
  {
    if n >= 10 {
      ShortDecimal(n / 10);
      if n >= 100 {
        ShortDecimal(n / 100);
        if n >= 1000 {
          ShortDecimal(n / 1000);
          if n >= 10_000 {
            ShortDecimal(n / 10_000);
          }
        }
      }
    }
  }

  lemma ShortDecimal(n: nat)
    ensures |Decimal(n)| >= 1
    ensures n >= 10 ==> |Decimal(n)| == |Decimal(n / 10)| + 1
  {
    DecimalReadsBack(n);
  }

  lemma PadLength(n: nat)
    ensures n < 100 ==> |Pad(n, 2)| == 2
    ensures |Pad(n, 4)| >= 4 && (n < 10_000 <==> |Pad(n, 4)| == 4)
  {
    DecimalLength(n);
  }

  // ---------------------------------------------------------------- years

  lemma Landmarks()
    ensures JanuaryFirst(1970) == 0 && JanuaryFirst(10_000) == 2_932_897
  {
    JanuaryFirstExact(1970);
    JanuaryFirstExact(10_000);
    assert 1969 / 400 == 4 && 1969 % 400 == 369 && YearStart(369) == 134_774;
    assert 9999 / 400 == 24 && 9999 % 400 == 399 && YearStart(399) == 145_731;
  }

  lemma FourDigitYears(days: nat)
    ensures 1970 <= CivilFromDays(days).year && (CivilFromDays(days).year < 10_000 <==> days < 2_932_897)
  {
    YearReached(days, 1970);
    YearReached(days, 10_000);
    Landmarks();
  }

  // ---------------------------------------------------------------- the round trip

  lemma ComposeParts(year: string, month: string, day: string, hour: string, minute: string, second: string)
    requires |year| == 4 && |month| == 2 && |day| == 2 && |hour| == 2 && |minute| == 2 && |second| == 2
    ensures var ts := Compose(year, month, day, hour, minute, second);
            && HasShape(ts) && ts[0..4] == year && ts[5..7] == month && ts[8..10] == day
            && ts[11..13] == hour && ts[14..16] == minute && ts[17..19] == second
  {
    var ts := Compose(year, month, day, hour, minute, second);
    assert ts[5] == month[0] && ts[6] == month[1] && ts[8] == day[0] && ts[9] == day[1];
    assert ts[11] == hour[0] && ts[12] == hour[1] && ts[14] == minute[0] && ts[15] == minute[1];
    assert ts[17] == second[0] && ts[18] == second[1];
  }

  lemma ParseComposed(year: nat, month: nat, day: nat, hour: nat, minute: nat, second: nat)
    requires year < 10_000 && month < 100 && day < 100 && hour < 100 && minute < 100 && second < 100
    ensures Parse(Compose(Pad(year, 4), Pad(month, 2), Pad(day, 2), Pad(hour, 2), Pad(minute, 2), Pad(second, 2))) ==
            CheckedSecs(year, month, day, hour, minute, second)
  {
    PadLength(year);
    PadReadsBack(year, 4);
    TwoDigits(month, day);
    TwoDigits(hour, minute);
    TwoDigits(second, second);
    ComposeParts(Pad(year, 4), Pad(month, 2), Pad(day, 2), Pad(hour, 2), Pad(minute, 2), Pad(second, 2));
  }

  lemma TimeOfDay(rem: nat)
    requires rem < DAY_SECS
    ensures rem / 3600 <= 23 && rem % 3600 / 60 <= 59 && rem % 60 <= 59
    ensures rem / 3600 * 3600 + rem % 3600 / 60 * 60 + rem % 60 == rem
  {
  }

  lemma CheckedBack(secs: nat, days: nat, rem: nat)
    requires rem < DAY_SECS && secs == days * DAY_SECS + rem
    ensures var d := CivilFromDays(days);
            && 1 <= d.month <= 12 && 1 <= d.day <= 31 && 0 <= d.year
            && CheckedSecs(d.year, d.month, d.day, rem / 3600, rem % 3600 / 60, rem % 60) == Some(secs)
  {
    DaysRoundTrip(days);
    FourDigitYears(days);
    TimeOfDay(rem);
  }

  lemma FormatReadsBack(secs: nat)
    requires secs <= LAST_SECOND
    ensures Parse(Format(secs)) == Some(secs)
  {
    var days, rem := secs / DAY_SECS, secs % DAY_SECS;
    LastDay(secs);
    FourDigitYears(days);
    CheckedBack(secs, days, rem);
    ParseFormatted(secs, CivilFromDays(days), rem);
  }

  lemma LastDay(secs: nat)
    ensures secs <= LAST_SECOND <==> secs / DAY_SECS < 2_932_897
    ensures secs / DAY_SECS * DAY_SECS + secs % DAY_SECS == secs
  {
  }

  lemma ParseFormatted(secs: nat, d: Date, rem: nat)
    requires d == CivilFromDays(secs / DAY_SECS) && rem == secs % DAY_SECS
    requires 0 <= d.year < 10_000 && 1 <= d.month <= 12 && 1 <= d.day <= 31
    requires CheckedSecs(d.year, d.month, d.day, rem / 3600, rem % 3600 / 60, rem % 60) == Some(secs)
    ensures Parse(Format(secs)) == Some(secs)
  {
    FormatUnfolds(secs, d, rem);
    ComposedReadsBack(d, rem);
  }

  lemma FormatUnfolds(secs: nat, d: Date, rem: nat)
    requires d == CivilFromDays(secs / DAY_SECS) && rem == secs % DAY_SECS && d.month >= 0 && d.day >= 0
    ensures Format(secs) == Compose(PadYear(d.year), Pad(d.month, 2), Pad(d.day, 2),
                                    Pad(rem / 3600, 2), Pad(rem % 3600 / 60, 2), Pad(rem % 60, 2))
  {
  }

  lemma ComposedReadsBack(d: Date, rem: nat)
    requires 0 <= d.year < 10_000 && 1 <= d.month <= 12 && 1 <= d.day <= 31 && rem < DAY_SECS
    ensures Parse(Compose(PadYear(d.year), Pad(d.month, 2), Pad(d.day, 2),
                          Pad(rem / 3600, 2), Pad(rem % 3600 / 60, 2), Pad(rem % 60, 2))) ==
            CheckedSecs(d.year, d.month, d.day, rem / 3600, rem % 3600 / 60, rem % 60)
  {
    TimeOfDay(rem);
    ParseComposed(d.year, d.month, d.day, rem / 3600, rem % 3600 / 60, rem % 60);
  }

  lemma TwoDigits(m: nat, n: nat)
    requires m < 100 && n < 100
    ensures |Pad(m, 2)| == 2 && |Pad(n, 2)| == 2 && Number(Pad(m, 2)) == Some(m) && Number(Pad(n, 2)) == Some(n)
  {
    PadLength(m);
    PadLength(n);
    PadReadsBack(m, 2);
    PadReadsBack(n, 2);
  }

  /** A timestamp reads back exactly when its year has four digits. */
  lemma FormatReadsBackExactly(secs: nat)
    ensures Parse(Format(secs)) == Some(secs) <==> secs <= LAST_SECOND
  {
    if secs <= LAST_SECOND {
      FormatReadsBack(secs);
    } else {
      var d, rem := CivilFromDays(secs / DAY_SECS), secs % DAY_SECS;
      DaysRoundTrip(secs / DAY_SECS);
      LastDay(secs);
      FourDigitYears(secs / DAY_SECS);
      PadLength(d.year);
      TwoDigits(d.month, d.day);
      TwoDigits(rem / 3600, rem % 3600 / 60);
      TwoDigits(rem % 60, rem % 60);
      assert |Format(secs)| == |Pad(d.year, 4)| + 16;
    }
  }

  // ---------------------------------------------------------------- what a text says

  function Text(d: Date, hour: nat, minute: nat, second: nat): string
    requires d.year >= 0 && d.month >= 0 && d.day >= 0
  {
    Compose(Pad(d.year, 4), Pad(d.month, 2), Pad(d.day, 2), Pad(hour, 2), Pad(minute, 2), Pad(second, 2))
  }

  /** The fields are where RFC 3339 puts them. */
  ghost predicate Says(ts: string, d: Date, hour: nat, minute: nat, second: nat) {
    && HasShape(ts) && d.year >= 0 && d.month >= 0 && d.day >= 0
    && Number(ts[0..4]) == Some(d.year as nat) && Number(ts[5..7]) == Some(d.month as nat) && Number(ts[8..10]) == Some(d.day as nat)
    && Number(ts[11..13]) == Some(hour) && Number(ts[14..16]) == Some(minute) && Number(ts[17..19]) == Some(second)
  }

  lemma TextSays(d: Date, hour: nat, minute: nat, second: nat)
    requires 0 <= d.year < 10_000 && 0 <= d.month < 100 && 0 <= d.day < 100 && hour < 100 && minute < 100 && second < 100
    ensures Says(Text(d, hour, minute, second), d, hour, minute, second)
  {
    PadLength(d.year);
    PadReadsBack(d.year, 4);
    TwoDigits(d.month, d.day);
    TwoDigits(hour, minute);
    TwoDigits(second, second);
    ComposeParts(Pad(d.year, 4), Pad(d.month, 2), Pad(d.day, 2), Pad(hour, 2), Pad(minute, 2), Pad(second, 2));
  }

  /** What is written of a moment up to the year 9999 says the date of its day and its time of day. */
  lemma FormatSays(secs: nat) returns (d: Date, hour: nat, minute: nat, second: nat)
    requires secs <= LAST_SECOND
    ensures d == CivilFromDays(secs / 86_400) && IsDate(d) && hour < 24 && minute < 60 && second < 60
    ensures secs % 86_400 == hour * 3600 + minute * 60 + second
    ensures Says(Format(secs), d, hour, minute, second) && Format(secs) == Text(d, hour, minute, second)
  {
    var rem := secs % DAY_SECS;
    d, hour, minute, second := CivilFromDays(secs / DAY_SECS), rem / 3600, rem % 3600 / 60, rem % 60;
    LastDay(secs);
    DaysRoundTrip(secs / DAY_SECS);
    FourDigitYears(secs / DAY_SECS);
    TimeOfDay(rem);
    FormatUnfolds(secs, d, rem);
    TextSays(d, hour, minute, second);
  }

  lemma CheckedExactly(d: Date, hour: nat, minute: nat, second: nat)
    requires d.year >= 0 && d.month >= 0 && d.day >= 0
    ensures CheckedSecs(d.year, d.month, d.day, hour, minute, second) ==
            if 1 <= d.month <= 12 && 1 <= d.day <= 31 && hour < 24 && minute < 60 && second <= 60 && DaysFromCivil(d) >= 0
            then Some(DaysFromCivil(d) * 86_400 + (hour * 3600 + minute * 60 + second)) else None
  {
    assert Date(d.year, d.month, d.day) == d;
  }

  /** What is read of a text: the seconds to its date and time, whether or not that month has that day, and none
      exactly if a field is out of its range or the day is before 1970. */
  lemma ReadsExactly(d: Date, hour: nat, minute: nat, second: nat)
    requires 0 <= d.year < 10_000 && 0 <= d.month < 100 && 0 <= d.day < 100 && hour < 100 && minute < 100 && second < 100
    ensures Parse(Text(d, hour, minute, second)) ==
            if 1 <= d.month <= 12 && 1 <= d.day <= 31 && hour < 24 && minute < 60 && second <= 60 && DaysFromCivil(d) >= 0
            then Some(DaysFromCivil(d) * 86_400 + (hour * 3600 + minute * 60 + second)) else None
  {
    ParseComposed(d.year, d.month, d.day, hour, minute, second);
    CheckedExactly(d, hour, minute, second);
  }

  lemma SplitsDay(days: nat, hour: nat, minute: nat, second: nat)
    requires hour < 24 && minute < 60 && second < 60
    ensures var secs := days * 86_400 + (hour * 3600 + minute * 60 + second);
            secs / 86_400 == days && secs % 86_400 == hour * 3600 + minute * 60 + second
  {
  }

  lemma OneTimeOfDay(h: nat, m: nat, s: nat, hour: nat, minute: nat, second: nat)
    requires m < 60 && s < 60 && minute < 60 && second < 60
    requires h * 3600 + m * 60 + s == hour * 3600 + minute * 60 + second
    ensures h == hour && m == minute && s == second
  {
  }

  /** A text that is read is what its moment is written as exactly if its date exists and its second is not a
      leap second. */
  lemma CanonicalExactly(d: Date, hour: nat, minute: nat, second: nat)
    requires 0 <= d.year < 10_000 && 0 <= d.month < 100 && 0 <= d.day < 100 && hour < 100 && minute < 100 && second < 100
    requires Parse(Text(d, hour, minute, second)).Some?
    ensures Format(Parse(Text(d, hour, minute, second)).value) == Text(d, hour, minute, second) <==> IsDate(d) && second < 60
  {
    var text := Text(d, hour, minute, second);
    var secs := Parse(text).value;
    ReadsExactly(d, hour, minute, second);
    TextSays(d, hour, minute, second);
    if Format(secs) == text {
      FormatReadsBackExactly(secs);
      var d', hour', minute', second' := FormatSays(secs);
      assert d' == d;
    }
    if IsDate(d) && second < 60 {
      IsWritten(d, hour, minute, second, secs);
    }
  }

  lemma DayOfDate(d: Date) returns (days: nat)
    requires 0 <= d.year < 10_000 && IsDate(d) && DaysFromCivil(d) >= 0
    ensures days == DaysFromCivil(d) && CivilFromDays(days) == d && days < 2_932_897
  {
    days := DaysFromCivil(d);
    DateRoundTrip(d);
    FourDigitYears(days);
  }

  lemma WrittenAt(secs: nat, hour: nat, minute: nat, second: nat) returns (d: Date)
    requires secs <= LAST_SECOND && hour < 24 && minute < 60 && second < 60
    requires secs % 86_400 == hour * 3600 + minute * 60 + second
    ensures d == CivilFromDays(secs / 86_400) && d.year >= 0 && d.month >= 0 && d.day >= 0
    ensures Format(secs) == Text(d, hour, minute, second)
  {
    var h, m, s;
    d, h, m, s := FormatSays(secs);
    OneTimeOfDay(h, m, s, hour, minute, second);
  }

  lemma MomentOf(days: nat, hour: nat, minute: nat, second: nat, secs: nat)
    requires days < 2_932_897 && hour < 24 && minute < 60 && second < 60
    requires secs == days * 86_400 + (hour * 3600 + minute * 60 + second)
    ensures secs <= LAST_SECOND && secs / 86_400 == days && secs % 86_400 == hour * 3600 + minute * 60 + second
  {
    SplitsDay(days, hour, minute, second);
    LastDay(secs);
  }

  lemma IsWritten(d: Date, hour: nat, minute: nat, second: nat, secs: nat)
    requires 0 <= d.year < 10_000 && IsDate(d) && hour < 24 && minute < 60 && second < 60
    requires DaysFromCivil(d) >= 0 && secs == DaysFromCivil(d) * 86_400 + (hour * 3600 + minute * 60 + second)
    ensures d.month >= 0 && d.day >= 0 && Format(secs) == Text(d, hour, minute, second)
  {
    var days := DayOfDate(d);
    MomentOf(days, hour, minute, second, secs);
    var d' := WrittenAt(secs, hour, minute, second);
    assert d' == d;
  }
}
