/**
 Day numbers as proleptic Gregorian dates, and the UTC time stamp of exported files
 (`civil_from_days` and `utc_file_timestamp` in src/domain/export.rs).

 The conversion is specified by counting: years of 365 or 366 days, months of their known lengths. A date has the
 number of days counted up to it, and the code's divisions find the one date with a given number. The time stamp is
 specified by reading it back: its digits tell the year, the month, the day and the time of day, also before 1970 and
 for years of any length.
 */
module CivilDate {

  datatype Date = Date(year: int, month: int, day: int)

  // ---------------------------------------------------------------------------------------------
  // The calendar, by counting

  predicate Leap(year: int) { year % 4 == 0 && (year % 100 != 0 || year % 400 == 0) }

  function YearLength(year: int): int { if Leap(year) then 366 else 365 }

  function MonthLength(year: int, month: int): int {
    if month == 2 then (if Leap(year) then 29 else 28)
    else if month in {4, 6, 9, 11} then 30
    else 31
  }

  predicate Valid(date: Date) { 1 <= date.month <= 12 && 1 <= date.day <= MonthLength(date.year, date.month) }

  /** Days from 1970-01-01 to the first of January, counted year by year in either direction. */
  function DaysBeforeYear(year: int): int
    decreases if year < 1970 then 1970 - year else year - 1970
  {
    if year == 1970 then 0
    else if year > 1970 then DaysBeforeYear(year - 1) + YearLength(year - 1)
    else DaysBeforeYear(year + 1) - YearLength(year)
  }

  function DaysBeforeMonth(year: int, month: int): int
    requires 1 <= month <= 13
  {
    if month == 1 then 0 else DaysBeforeMonth(year, month - 1) + MonthLength(year, month - 1)
  }

  /** The number of a date, counted from 1970-01-01. */
  function DayNumber(date: Date): int
    requires Valid(date)
  {
    DaysBeforeYear(date.year) + DaysBeforeMonth(date.year, date.month) + date.day - 1
  }

  /** The date after this one. */
  function NextDate(date: Date): Date {
    if date.day < MonthLength(date.year, date.month) then Date(date.year, date.month, date.day + 1)
    else if date.month < 12 then Date(date.year, date.month + 1, 1)
    else Date(date.year + 1, 1, 1)
  }

  // ---------------------------------------------------------------------------------------------
  // The code: division instead of counting

  function YearOfEra(dayOfEra: int): int {
    (dayOfEra - dayOfEra / 1460 + dayOfEra / 36524 - dayOfEra / 146096) / 365
  }

  /** The date a number of days after the first of March of a year. */
  function FromMarch(year: int, dayOfYear: int): Date {
    var monthIndex := (5 * dayOfYear + 2) / 153;
    var day := dayOfYear - (153 * monthIndex + 2) / 5 + 1;
    var month := if monthIndex < 10 then monthIndex + 3 else monthIndex - 9;
    Date(year + (if month <= 2 then 1 else 0), month, day)
  }

  /** The date of a day in a given cycle of 400 years. */
  function InEra(era: int, dayOfEra: int): Date {
    var yearOfEra := YearOfEra(dayOfEra);
    FromMarch(yearOfEra + era * 400, dayOfEra - (365 * yearOfEra + yearOfEra / 4 - yearOfEra / 100))
  }

  function CivilFromDays(days: int): Date {
    var shifted := days + 719468;
    InEra(shifted / 146097, shifted % 146097)
  }

  // ---------------------------------------------------------------------------------------------
  // Closed forms of the counts

  /** Leap years before a year, counted from year 1 on. */
  function LeapsBefore(year: int): int { (year - 1) / 4 - (year - 1) / 100 + (year - 1) / 400 }

  lemma OneMoreYear(year: int)
    ensures LeapsBefore(year + 1) == LeapsBefore(year) + if Leap(year) then 1 else 0
  {
    NextMultiple4(year);
    NextMultiple100(year);
    NextMultiple400(year);
    assert year % 400 == 0 ==> year % 100 == 0;
    assert year % 100 == 0 ==> year % 4 == 0;
  }

  lemma NextMultiple4(year: int)
    ensures year / 4 == (year - 1) / 4 + if year % 4 == 0 then 1 else 0
  {
  }

  lemma NextMultiple100(year: int)
    ensures year / 100 == (year - 1) / 100 + if year % 100 == 0 then 1 else 0
  {
  }

  lemma NextMultiple400(year: int)
    ensures year / 400 == (year - 1) / 400 + if year % 400 == 0 then 1 else 0
  {
  }

  lemma {:induction false} YearCount(year: int)
    ensures DaysBeforeYear(year) == 365 * (year - 1970) + LeapsBefore(year) - 477
    decreases if year < 1970 then 1970 - year else year - 1970
  {
    if year > 1970 {
      YearCount(year - 1);
      OneMoreYear(year - 1);
    } else if year < 1970 {
      YearCount(year + 1);
      OneMoreYear(year);
    }
  }

  lemma MonthCounts(year: int)
    ensures DaysBeforeMonth(year, 1) == 0 && DaysBeforeMonth(year, 2) == 31
    ensures var feb := if Leap(year) then 29 else 28;
            forall m :: 3 <= m <= 13 ==> DaysBeforeMonth(year, m) == 31 + feb + (153 * (m - 3) + 2) / 5
  {
    assert DaysBeforeMonth(year, 2) == 31;
    assert DaysBeforeMonth(year, 3) == 31 + if Leap(year) then 29 else 28;
    assert DaysBeforeMonth(year, 4) == DaysBeforeMonth(year, 3) + 31;
    assert DaysBeforeMonth(year, 5) == DaysBeforeMonth(year, 4) + 30;
    assert DaysBeforeMonth(year, 6) == DaysBeforeMonth(year, 5) + 31;
    assert DaysBeforeMonth(year, 7) == DaysBeforeMonth(year, 6) + 30;
    assert DaysBeforeMonth(year, 8) == DaysBeforeMonth(year, 7) + 31;
    assert DaysBeforeMonth(year, 9) == DaysBeforeMonth(year, 8) + 31;
    assert DaysBeforeMonth(year, 10) == DaysBeforeMonth(year, 9) + 30;
    assert DaysBeforeMonth(year, 11) == DaysBeforeMonth(year, 10) + 31;
    assert DaysBeforeMonth(year, 12) == DaysBeforeMonth(year, 11) + 30;
    assert DaysBeforeMonth(year, 13) == DaysBeforeMonth(year, 12) + 31;
  }

  // ---------------------------------------------------------------------------------------------
  // Years that begin in March

  /** Days from the first of March of year 0 to the first of March of a year. */
  function MarchDays(year: int): int { 365 * year + year / 4 - year / 100 + year / 400 }

  lemma MarchCount(year: int)
    ensures DaysBeforeYear(year) + DaysBeforeMonth(year, 3) == MarchDays(year) - 719468
    ensures DaysBeforeYear(year + 1) == MarchDays(year) - 719468 + 306
  {
    YearCount(year);
    YearCount(year + 1);
    OneMoreYear(year);
    MonthCounts(year);
  }

  /** A day of the four-century cycle as centuries, four-year groups and days. */
  datatype CycleDay = CycleDay(century: int, group: int, day: int)

  function Decompose(dayOfEra: int): CycleDay
  {
    var century := dayOfEra / 36524;
    var rest := dayOfEra - 36524 * century;
    CycleDay(century, rest / 1461, rest % 1461)
  }

  lemma DecomposeParts(dayOfEra: int)
    requires 0 <= dayOfEra < 146096
    ensures var p := Decompose(dayOfEra);
            && 0 <= p.century < 4 && 0 <= p.group < 25 && 0 <= p.day < 1461
            && (p.group == 24 ==> p.day < 1460)
            && dayOfEra == 36524 * p.century + 1461 * p.group + p.day
  {
  }

  /** The quotient of the code, in the parts of the cycle. */
  lemma Numerator(dayOfEra: int, p: CycleDay)
    requires 0 <= dayOfEra < 146096
    requires 0 <= p.century < 4 && 0 <= p.group < 25 && 0 <= p.day < 1461
    requires dayOfEra == 36524 * p.century + 1461 * p.group + p.day
    requires p.group == 24 ==> p.day < 1460
    ensures var carry := if 24 * p.century + p.group + p.day >= 1460 then 1 else 0;
            dayOfEra - dayOfEra / 1460 + dayOfEra / 36524 - dayOfEra / 146096 ==
            36500 * p.century + 1460 * p.group + p.day - carry
  {
    var carry := if 24 * p.century + p.group + p.day >= 1460 then 1 else 0;
    assert dayOfEra == 1460 * (25 * p.century + p.group + carry) + (24 * p.century + p.group + p.day - 1460 * carry);
    assert dayOfEra / 1460 == 25 * p.century + p.group + carry;
    assert dayOfEra / 36524 == p.century;
  }

  /** Year of the era and day of the year, by the parts of the cycle. */
  lemma YearOfEraParts(dayOfEra: int, p: CycleDay)
    requires 0 <= dayOfEra < 146096 && p == Decompose(dayOfEra)
    ensures var t := if p.day == 1460 then 3 else p.day / 365;
            0 <= t < 4 && YearOfEra(dayOfEra) == 100 * p.century + 4 * p.group + t
  {
    DecomposeParts(dayOfEra);
    Numerator(dayOfEra, p);
    var carry := if 24 * p.century + p.group + p.day >= 1460 then 1 else 0;
    var t := if p.day == 1460 then 3 else p.day / 365;
    assert (p.day - carry) / 365 == t;
    assert (365 * (100 * p.century + 4 * p.group) + (p.day - carry)) / 365 == 100 * p.century + 4 * p.group + t;
  }

  predicate RightYear(dayOfEra: int, year: int) {
    var dayOfYear := dayOfEra - (365 * year + year / 4 - year / 100);
    0 <= year < 400 && 0 <= dayOfYear < YearLength(year + 1)
  }

  /** The year of the era is the one whose March-based year holds the day. */
  lemma YearOfEraIsRight(dayOfEra: int)
    requires 0 <= dayOfEra < 146097
    ensures RightYear(dayOfEra, YearOfEra(dayOfEra))
  {
    if dayOfEra < 146096 {
      var p := Decompose(dayOfEra);
      DecomposeParts(dayOfEra);
      YearOfEraParts(dayOfEra, p);
      var t := if p.day == 1460 then 3 else p.day / 365;
      YearParts(p.century, p.group, t);
    }
  }

  lemma YearParts(century: int, group: int, t: int)
    requires 0 <= century < 4 && 0 <= group < 25 && 0 <= t < 4
    ensures var year := 100 * century + 4 * group + t;
            && 365 * year + year / 4 - year / 100 == 36524 * century + 1461 * group + 365 * t
            && (t == 3 && group < 24 ==> Leap(year + 1))
  {
    var year := 100 * century + 4 * group + t;
    assert year / 4 == 25 * century + group;
    assert year / 100 == century;
    if t == 3 && group < 24 {
      assert year + 1 == 4 * (25 * century + group + 1);
      assert (year + 1) % 100 == 4 * group + 4;
    }
  }

  // ---------------------------------------------------------------------------------------------
  // The conversion inverts the count

  /** A day of the March-based year as month and day. */
  lemma MonthOfDay(dayOfYear: int)
    requires 0 <= dayOfYear < 366
    ensures var index := (5 * dayOfYear + 2) / 153;
            && 0 <= index < 12 && (153 * index + 2) / 5 <= dayOfYear < (153 * (index + 1) + 2) / 5
  {
  }

  lemma EraYear(era: int, yearOfEra: int)
    requires 0 <= yearOfEra < 400
    ensures MarchDays(yearOfEra + era * 400) == 146097 * era + 365 * yearOfEra + yearOfEra / 4 - yearOfEra / 100
  {
    var year := yearOfEra + era * 400;
    assert year / 4 == 100 * era + yearOfEra / 4;
    assert year / 100 == 4 * era + yearOfEra / 100;
    assert year / 400 == era;
  }

  lemma ErasRepeat(era: int, year: int)
    ensures YearLength(year + era * 400) == YearLength(year)
  {
    Periodic4(year, era * 100);
    Periodic100(year, era * 4);
    Periodic400(year, era);
  }

  lemma Periodic4(x: int, k: int)
    ensures (x + k * 4) % 4 == x % 4
  {
  }

  lemma Periodic100(x: int, k: int)
    ensures (x + k * 100) % 100 == x % 100
  {
  }

  lemma Periodic400(x: int, k: int)
    ensures (x + k * 400) % 400 == x % 400
  {
  }

  lemma MarchDate(year: int, dayOfYear: int)
    requires 0 <= dayOfYear < YearLength(year + 1)
    ensures Valid(FromMarch(year, dayOfYear))
    ensures DayNumber(FromMarch(year, dayOfYear)) == MarchDays(year) - 719468 + dayOfYear
  {
    MonthOfDay(dayOfYear);
    MarchCount(year);
    MonthCounts(year);
    MonthCounts(year + 1);
    var index := (5 * dayOfYear + 2) / 153;
    if index < 10 {
      assert DaysBeforeMonth(year, index + 4) == DaysBeforeMonth(year, index + 3) + MonthLength(year, index + 3);
    }
  }

  /** Every day number converts to a valid date whose counted number it is. */
  lemma CivilCountsBack(days: int)
    ensures Valid(CivilFromDays(days)) && DayNumber(CivilFromDays(days)) == days
  {
    var shifted := days + 719468;
    InEraCounts(shifted / 146097, shifted % 146097);
  }

  lemma InEraCounts(era: int, dayOfEra: int)
    requires 0 <= dayOfEra < 146097
    ensures Valid(InEra(era, dayOfEra)) && DayNumber(InEra(era, dayOfEra)) == 146097 * era + dayOfEra - 719468
  {
    YearOfEraIsRight(dayOfEra);
    EraDate(era, dayOfEra, YearOfEra(dayOfEra));
  }

  lemma EraDate(era: int, dayOfEra: int, yearOfEra: int)
    requires RightYear(dayOfEra, yearOfEra)
    ensures var date := FromMarch(yearOfEra + era * 400,
                                  dayOfEra - (365 * yearOfEra + yearOfEra / 4 - yearOfEra / 100));
            Valid(date) && DayNumber(date) == 146097 * era + dayOfEra - 719468
  {
    EraYear(era, yearOfEra);
    ErasRepeat(era, yearOfEra + 1);
    MarchDate(yearOfEra + era * 400, dayOfEra - (365 * yearOfEra + yearOfEra / 4 - yearOfEra / 100));
  }

  // ---------------------------------------------------------------------------------------------
  // No two dates share a number

  lemma {:induction false} MonthsGrow(year: int, low: int, high: int)
    requires 1 <= low < high <= 13
    ensures DaysBeforeMonth(year, low) + MonthLength(year, low) <= DaysBeforeMonth(year, high)
    decreases high - low
  {
    if low + 1 < high {
      MonthsGrow(year, low, high - 1);
    }
  }

  lemma DayWithinYear(date: Date)
    requires Valid(date)
    ensures 0 <= DaysBeforeMonth(date.year, date.month) + date.day - 1 < YearLength(date.year)
  {
    MonthCounts(date.year);
    if date.month > 1 { MonthsGrow(date.year, 1, date.month); }
    MonthsGrow(date.year, date.month, 13);
  }

  lemma {:induction false} YearsGrow(low: int, high: int)
    requires low < high
    ensures DaysBeforeYear(low) + YearLength(low) <= DaysBeforeYear(high)
    decreases high - low
  {
    YearCount(low);
    YearCount(low + 1);
    OneMoreYear(low);
    if low + 1 < high {
      YearsGrow(low + 1, high);
    }
  }

  lemma NumbersAreDistinct(a: Date, b: Date)
    requires Valid(a) && Valid(b) && DayNumber(a) == DayNumber(b)
    ensures a == b
  {
    DayWithinYear(a);
    DayWithinYear(b);
    if a.year < b.year { YearsGrow(a.year, b.year); }
    if b.year < a.year { YearsGrow(b.year, a.year); }
    if a.month < b.month { MonthsGrow(a.year, a.month, b.month); }
    if b.month < a.month { MonthsGrow(a.year, b.month, a.month); }
  }

  /** Counting and converting are inverse on all valid dates too. */
  lemma DatesConvertBack(date: Date)
    requires Valid(date)
    ensures CivilFromDays(DayNumber(date)) == date
  {
    CivilCountsBack(DayNumber(date));
    NumbersAreDistinct(CivilFromDays(DayNumber(date)), date);
  }

  lemma NextDateCountsOneMore(date: Date)
    requires Valid(date)
    ensures Valid(NextDate(date)) && DayNumber(NextDate(date)) == DayNumber(date) + 1
  {
    if date.day == MonthLength(date.year, date.month) {
      if date.month < 12 {
        assert DaysBeforeMonth(date.year, date.month + 1) ==
               DaysBeforeMonth(date.year, date.month) + MonthLength(date.year, date.month);
      } else {
        NewYearCountsOneMore(date.year);
      }
    }
  }

  lemma NewYearCountsOneMore(year: int)
    ensures DayNumber(Date(year + 1, 1, 1)) == DayNumber(Date(year, 12, MonthLength(year, 12))) + 1
  {
    MonthCounts(year);
    YearCount(year);
    YearCount(year + 1);
    OneMoreYear(year);
  }

  /** Successive day numbers convert to successive dates. */
  lemma SuccessiveDays(days: int)
    ensures CivilFromDays(days + 1) == NextDate(CivilFromDays(days))
  {
    CivilCountsBack(days);
    NextDateCountsOneMore(CivilFromDays(days));
    DatesConvertBack(NextDate(CivilFromDays(days)));
  }

  // ---------------------------------------------------------------------------------------------
  // The time stamp

  datatype Moment = Moment(date: Date, hour: int, minute: int, second: int)

  /** The UTC fields of a time stamp, whose milliseconds may be negative. */
  function UtcFields(millis: int): Moment {
    var seconds := millis / 1000;
    var days, secondOfDay := seconds / 86400, seconds % 86400;
    Moment(CivilFromDays(days), secondOfDay / 3600, secondOfDay % 3600 / 60, secondOfDay % 60)
  }

  /** Seconds since 1970, counted from the fields. */
  function SecondsOf(moment: Moment): int
    requires Valid(moment.date)
  {
    DayNumber(moment.date) * 86400 + moment.hour * 3600 + moment.minute * 60 + moment.second
  }

  /** The fields are in range and rebuild the floored number of seconds, also before 1970. */
  lemma FieldsRebuildSeconds(millis: int)
    ensures var moment := UtcFields(millis);
            && Valid(moment.date) && 0 <= moment.hour < 24 && 0 <= moment.minute < 60 && 0 <= moment.second < 60
            && SecondsOf(moment) == millis / 1000
  {
    CivilCountsBack(millis / 1000 / 86400);
    SplitOfDay(millis / 1000 % 86400);
  }

  lemma SplitOfDay(secondOfDay: int)
    requires 0 <= secondOfDay < 86400
    ensures 0 <= secondOfDay / 3600 < 24 && 0 <= secondOfDay % 3600 / 60 < 60
    ensures secondOfDay / 3600 * 3600 + secondOfDay % 3600 / 60 * 60 + secondOfDay % 60 == secondOfDay
  {
  }

  // ---------------------------------------------------------------------------------------------
  // Its text

  function Digit(n: nat): char
    requires n < 10
  {
    ('0' as int + n) as char
  }

  function Decimal(n: nat): (text: string)
    ensures text != "" && forall i :: 0 <= i < |text| ==> '0' <= text[i] <= '9'
  {
    if n < 10 then [Digit(n)] else Decimal(n / 10) + [Digit(n % 10)]
  }

  function Zeros(k: nat): string { if k == 0 then "" else "0" + Zeros(k - 1) }

  /** Zero padding to a least width. */
  function PaddedNat(n: nat, width: nat): string {
    var digits := Decimal(n);
    Zeros(if |digits| < width then width - |digits| else 0) + digits
  }

  /** A sign counts against the width. */
  function Padded(n: int, width: nat): string {
    if n < 0 then "-" + PaddedNat(-n, if width > 0 then width - 1 else 0) else PaddedNat(n, width)
  }

  function FieldsText(m: Moment): string {
    Padded(m.date.year, 4) + "-" + Padded(m.date.month, 2) + "-" + Padded(m.date.day, 2) + "-" +
    (Padded(m.hour, 2) + Padded(m.minute, 2) + Padded(m.second, 2))
  }

  function FileTimestamp(millis: int): string { FieldsText(UtcFields(millis)) }

  function DigitValue(c: char): int { c as int - '0' as int }

  function ReadNat(text: string): int {
    if text == "" then 0 else ReadNat(text[..|text| - 1]) * 10 + DigitValue(text[|text| - 1])
  }

  function ReadInt(text: string): int { if text != "" && text[0] == '-' then -ReadNat(text[1..]) else ReadNat(text) }

  /** Thirteen characters behind the year have fixed places. */
  function ReadFields(text: string): Moment
    requires |text| >= 13
  {
    var k := |text| - 13;
    Moment(Date(ReadInt(text[..k]), ReadNat(text[k + 1..k + 3]), ReadNat(text[k + 4..k + 6])),
           ReadNat(text[k + 7..k + 9]), ReadNat(text[k + 9..k + 11]), ReadNat(text[k + 11..k + 13]))
  }

  lemma {:induction false} ReadDecimal(n: nat)
    ensures ReadNat(Decimal(n)) == n
  {
    if n < 10 {
      assert [Digit(n)][..0] == "";
    } else {
      ReadDecimal(n / 10);
      assert (Decimal(n / 10) + [Digit(n % 10)])[..|Decimal(n / 10)|] == Decimal(n / 10);
    }
  }

  lemma {:induction false} ReadZeros(k: nat, text: string)
    ensures ReadNat(Zeros(k) + text) == ReadNat(text)
    ensures |Zeros(k)| == k && forall i :: 0 <= i < k ==> Zeros(k)[i] == '0'
    decreases k + |text|
  {
    if k > 0 { ReadZeros(k - 1, ""); }
    if text != "" {
      var rest := text[..|text| - 1];
      ReadZeros(k, rest);
      assert (Zeros(k) + text)[..k + |text| - 1] == Zeros(k) + rest;
    } else if k > 0 {
      OnlyZeros(k);
      assert Zeros(k) + "" == Zeros(k);
    }
  }

  lemma {:induction false} OnlyZeros(k: nat)
    ensures |Zeros(k)| == k && ReadNat(Zeros(k)) == 0
    ensures k > 0 ==> Zeros(k)[..k - 1] == Zeros(k - 1) && Zeros(k)[k - 1] == '0'
  {
    if k == 1 {
      assert Zeros(0) == "" && Zeros(1) == "0";
    } else if k > 1 {
      OnlyZeros(k - 1);
      assert Zeros(k)[..k - 1] == "0" + Zeros(k - 1)[..k - 2];
    }
  }

  lemma ReadPaddedNat(n: nat, width: nat)
    ensures ReadNat(PaddedNat(n, width)) == n
    ensures PaddedNat(n, width) != "" && PaddedNat(n, width)[0] != '-'
    ensures |PaddedNat(n, width)| == if |Decimal(n)| < width then width else |Decimal(n)|
  {
    var digits := Decimal(n);
    var k := if |digits| < width then width - |digits| else 0;
    ReadDecimal(n);
    ReadZeros(k, digits);
    assert PaddedNat(n, width) == Zeros(k) + digits;
  }

  /** Padded numbers read back, signs and long years included. */
  lemma ReadPadded(n: int, width: nat)
    ensures Padded(n, width) != "" && ReadInt(Padded(n, width)) == n
  {
    if n < 0 {
      var text := PaddedNat(-n, if width > 0 then width - 1 else 0);
      ReadPaddedNat(-n, if width > 0 then width - 1 else 0);
      assert ("-" + text)[1..] == text;
    } else {
      ReadPaddedNat(n, width);
    }
  }

  lemma TwoDigits(n: int)
    requires 0 <= n < 100
    ensures |Padded(n, 2)| == 2 && ReadNat(Padded(n, 2)) == n
  {
    ReadPaddedNat(n, 2);
    assert |Decimal(n)| == if n < 10 then 1 else 2;
  }

  /** The text of a time stamp tells the time to the second, for every time stamp. */
  lemma TimestampReadsBack(millis: int)
    ensures |FileTimestamp(millis)| >= 14 && ReadFields(FileTimestamp(millis)) == UtcFields(millis)
    ensures Valid(UtcFields(millis).date) && SecondsOf(ReadFields(FileTimestamp(millis))) == millis / 1000
  {
    FieldsRebuildSeconds(millis);
    TextReadsBack(UtcFields(millis));
  }

  lemma TextReadsBack(m: Moment)
    requires Valid(m.date) && 0 <= m.hour < 24 && 0 <= m.minute < 60 && 0 <= m.second < 60
    ensures |FieldsText(m)| >= 14 && ReadFields(FieldsText(m)) == m
  {
    var year, month, day := Padded(m.date.year, 4), Padded(m.date.month, 2), Padded(m.date.day, 2);
    var hour, minute, second := Padded(m.hour, 2), Padded(m.minute, 2), Padded(m.second, 2);
    TwoDigits(m.date.month);
    TwoDigits(m.date.day);
    TwoDigits(m.hour);
    TwoDigits(m.minute);
    TwoDigits(m.second);
    ReadPadded(m.date.year, 4);
    PlacesOfFields(year, month, day, hour, minute, second);
  }

  lemma PlacesOfFields(year: string, month: string, day: string, hour: string, minute: string, second: string)
    requires |month| == |day| == |hour| == |minute| == |second| == 2
    ensures var text, k := year + "-" + month + "-" + day + "-" + (hour + minute + second), |year|;
            && |text| == k + 13 && text[..k] == year && text[k + 1..k + 3] == month && text[k + 4..k + 6] == day
            && text[k + 7..k + 9] == hour && text[k + 9..k + 11] == minute && text[k + 11..k + 13] == second
  {
  }
}
