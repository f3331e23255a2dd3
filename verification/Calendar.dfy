/** Day arithmetic of the archiver: days since the Unix epoch to a proleptic Gregorian date. */
module Calendar {
  import opened MachineInts
  import Decimal

  datatype Date = Date(year: int, month: int, day: int)

  // ── Reference: the calendar itself ───────────────────────────────────

  /** Leap years as in Appendix C of RFC 3339. */
  predicate IsLeap(year: int) {
    year % 4 == 0 && (year % 100 != 0 || year % 400 == 0)
  }

  /** Month lengths as in section 5.7 of RFC 3339. */
  function DaysInMonth(year: int, month: int): int
    requires 1 <= month <= 12
  {
    if month == 2 then (if IsLeap(year) then 29 else 28)
    else if month == 4 || month == 6 || month == 9 || month == 11 then 30
    else 31
  }

  predicate ValidDate(d: Date) {
    1 <= d.month <= 12 && 1 <= d.day <= DaysInMonth(d.year, d.month)
  }

  function NextDate(d: Date): Date
    requires ValidDate(d)
  {
    if d.day < DaysInMonth(d.year, d.month) then d.(day := d.day + 1)
    else if d.month < 12 then Date(d.year, d.month + 1, 1)
    else Date(d.year + 1, 1, 1)
  }

  /** Days of `year` before the first of `month`. */
  function DaysBeforeMonth(year: int, month: int): int
    requires 1 <= month <= 12
  {
    if month == 1 then 0 else DaysBeforeMonth(year, month - 1) + DaysInMonth(year, month - 1)
  }

  /** Days from 0001-01-01 to the first of January of `year`. */
  function DaysBeforeYear(year: int): int {
    var y := year - 1;
    365 * y + y / 4 - y / 100 + y / 400
  }

  /** The standard day count, with day 0 at 1970-01-01. */
  function DaysFromCivil(d: Date): int
    requires 1 <= d.month <= 12
  {
    DaysBeforeYear(d.year) + DaysBeforeMonth(d.year, d.month) + d.day - 1 - 719162
  }

  // ── The code ─────────────────────────────────────────────────────────

  /** `yoe`: the year of a 400-year era that the day `doe` of that era falls in, counting
      years from the first of March. */
  function YearOfEra(doe: int): int
    requires 0 <= doe <= 146096
  {
    (doe - doe / 1460 + doe / 36524 - doe / 146096) / 365
  }

  /** Days of an era before year `yoe` of it. */
  function EraDays(yoe: int): int {
    365 * yoe + yoe / 4 - yoe / 100
  }

  function CivilFromDays(days: int): Date {
    var z := days + 719468;
    var era := EraOf(z);
    DateInEra(era, z - era * 146097)
  }

  /** The 400-year era of a day: a floor made from a truncating division. */
  function EraOf(z: int): (era: int)
    ensures 0 <= z - era * 146097 <= 146096
  {
    EraIsFloor(z);
    TruncDiv(if z >= 0 then z else z - 146096, 146097)
  }

  function DateInEra(era: int, doe: int): Date
    requires 0 <= doe <= 146096
  {
    var yoe := YearOfEra(doe);
    DateOf(yoe + era * 400, doe - EraDays(yoe))
  }

  /** The date `doy` days after the first of March of `year`. */
  function DateOf(year: int, doy: int): Date {
    var mp := (5 * doy + 2) / 153;
    var d := doy - (153 * mp + 2) / 5 + 1;
    var m := if mp < 10 then mp + 3 else mp - 9;
    Date(if m <= 2 then year + 1 else year, m, d)
  }

  lemma EraIsFloor(z: int)
    ensures TruncDiv(if z >= 0 then z else z - 146096, 146097) == z / 146097
    ensures 0 <= z - z / 146097 * 146097 <= 146096
  {
  }

  // ── Locating the year ────────────────────────────────────────────────

  /** Days from 0000-03-01 to the first of March of `year`. */
  function MarchDays(year: int): int {
    365 * year + year / 4 - year / 100 + year / 400
  }

  lemma Quotient1460(q: int, r: int)
    requires 0 <= r
    ensures (1460 * q + r) / 1460 == q + r / 1460
  {
  }

  /** The number of the century, except that the last day of an era counts as the fourth's. */
  lemma CenturyOfDay(doe: int, c: int, rest: int)
    requires doe == 36524 * c + rest && 0 <= c <= 3 && 0 <= rest <= 36524 && (rest == 36524 ==> c == 3)
    ensures doe / 36524 - doe / 146096 == c
  {
  }

  lemma Quotient365(y: int, r: int)
    ensures (365 * y + r) / 365 == y + r / 365
  {
  }

  /** A day of an era, split into centuries, four-year cycles and days of a cycle. */
  lemma YearOfEraSplit(doe: int, c: int, q: int, s: int)
    requires 0 <= doe <= 146096 && doe == 36524 * c + 1461 * q + s
    requires 0 <= c <= 3 && 0 <= q <= 24 && 0 <= s <= 1460
    requires s == 1460 && q == 24 ==> c == 3
    ensures YearOfEra(doe) == 100 * c + 4 * q + (if s == 1460 then 3 else s / 365)
  {
    var r := 24 * c + q + s;
    assert doe == 1460 * (25 * c + q) + r;
    Quotient1460(25 * c + q, r);
    CenturyOfDay(doe, c, 1461 * q + s);
    Quotient365(100 * c + 4 * q, s - r / 1460);
    DayOfCycle(c, q, s);
  }

  /** The day that `yoe` skips in a cycle is its last, and no earlier one crosses a year. */
  lemma DayOfCycle(c: int, q: int, s: int)
    requires 0 <= c <= 3 && 0 <= q <= 24 && 0 <= s <= 1460
    ensures (s - (24 * c + q + s) / 1460) / 365 == if s == 1460 then 3 else s / 365
  {
    assert (24 * c + q + s) / 1460 == if 24 * c + q + s >= 1460 then 1 else 0;
  }

  lemma EraDaysSplit(c: int, q: int, k: int)
    requires 0 <= c <= 3 && 0 <= q <= 24 && 0 <= k <= 3
    ensures EraDays(100 * c + 4 * q + k) == 36524 * c + 1461 * q + 365 * k
  {
  }

  /** The year found contains the day: it has 365 days after its first of March, or 366 when the
      February that ends it is in a leap year. */
  lemma YearOfEraCorrect(doe: int)
    requires 0 <= doe <= 146096
    ensures var yoe := YearOfEra(doe);
      && 0 <= yoe <= 399
      && 0 <= doe - EraDays(yoe) <= 364 + (if IsLeap(yoe + 1) then 1 else 0)
  {
    var c := if doe / 36524 == 4 then 3 else doe / 36524;
    var r := doe - 36524 * c;
    var q := r / 1461;
    var s := r - 1461 * q;
    YearOfEraSplit(doe, c, q, s);
    var k := if s == 1460 then 3 else s / 365;
    EraDaysSplit(c, q, k);
    if s == 1460 {
      LeapAtCycleEnd(c, q);
    }
  }

  /** A full four-year cycle ends in a leap year, except at the end of three centuries in four. */
  lemma LeapAtCycleEnd(c: int, q: int)
    requires 0 <= c <= 3 && 0 <= q <= 24 && (q == 24 ==> c == 3)
    ensures IsLeap(100 * c + 4 * q + 4)
  {
  }

  lemma MarchDaysOfEra(era: int, yoe: int)
    requires 0 <= yoe <= 399
    ensures MarchDays(yoe + 400 * era) == 146097 * era + EraDays(yoe)
  {
    assert (yoe + 400 * era) / 4 == yoe / 4 + 100 * era;
    assert (yoe + 400 * era) / 100 == yoe / 100 + 4 * era;
    assert (yoe + 400 * era) / 400 == era;
  }

  lemma LeapOfEra(era: int, yoe: int)
    ensures IsLeap(yoe + 1 + 400 * era) == IsLeap(yoe + 1)
  {
    Mod4(yoe + 1, 100 * era);
    Mod100(yoe + 1, 4 * era);
    Mod400(yoe + 1, era);
  }

  lemma Mod4(a: int, k: int)
    ensures (a + 4 * k) % 4 == a % 4
  {
  }

  lemma Mod100(a: int, k: int)
    ensures (a + 100 * k) % 100 == a % 100
  {
  }

  lemma Mod400(a: int, k: int)
    ensures (a + 400 * k) % 400 == a % 400
  {
  }

  /** Every day is a day of exactly one March-based year. */
  lemma CivilSplit(days: int) returns (y: int, doy: int)
    ensures CivilFromDays(days) == DateOf(y, doy)
    ensures days + 719468 == MarchDays(y) + doy
    ensures 0 <= doy <= 364 + (if IsLeap(y + 1) then 1 else 0)
  {
    var z := days + 719468;
    var era := EraOf(z);
    y, doy := SplitInEra(era, z - era * 146097);
  }

  lemma SplitInEra(era: int, doe: int) returns (y: int, doy: int)
    requires 0 <= doe <= 146096
    ensures DateInEra(era, doe) == DateOf(y, doy)
    ensures era * 146097 + doe == MarchDays(y) + doy
    ensures 0 <= doy <= 364 + (if IsLeap(y + 1) then 1 else 0)
  {
    var yoe := YearOfEra(doe);
    y, doy := yoe + era * 400, doe - EraDays(yoe);
    YearOfEraCorrect(doe);
    MarchDaysOfEra(era, yoe);
    LeapOfEra(era, yoe);
  }

  // ── Locating the month ───────────────────────────────────────────────

  lemma Multiples4(year: int)
    ensures year / 4 - (year - 1) / 4 == if year % 4 == 0 then 1 else 0
  {
  }

  lemma Multiples100(year: int)
    ensures year / 100 - (year - 1) / 100 == if year % 100 == 0 then 1 else 0
  {
  }

  lemma Multiples400(year: int)
    ensures year / 400 - (year - 1) / 400 == if year % 400 == 0 then 1 else 0
  {
  }

  lemma MultiplesNest(year: int)
    ensures (year % 400 == 0 ==> year % 100 == 0) && (year % 100 == 0 ==> year % 4 == 0)
  {
  }

  lemma LeapYearLength(year: int)
    ensures MarchDays(year) - MarchDays(year - 1) == 365 + (if IsLeap(year) then 1 else 0)
  {
    Multiples4(year);
    Multiples100(year);
    Multiples400(year);
    MultiplesNest(year);
  }

  /** Days from the first of March to the first of `month`. */
  function MonthOffset(month: int): int
    requires 1 <= month <= 12
  {
    (153 * (if month > 2 then month - 3 else month + 9) + 2) / 5
  }

  lemma MonthOffsets(year: int, month: int)
    requires 1 <= month <= 12
    ensures month > 2 ==> DaysBeforeMonth(year, month) == MonthOffset(month) + 59 + (if IsLeap(year) then 1 else 0)
    ensures month <= 2 ==> DaysBeforeMonth(year, month) == MonthOffset(month) - 306
  {
  }

  /** `mp` numbers the months from March; the day falls between this month's offset and the next. */
  lemma MonthOfDay(doy: int, mp: int)
    requires 0 <= doy <= 365 && mp == (5 * doy + 2) / 153
    ensures 0 <= mp <= 11
    ensures (153 * mp + 2) / 5 <= doy < (153 * (mp + 1) + 2) / 5
  {
  }

  lemma MonthLengths(year: int, month: int)
    requires 1 <= month <= 12 && month != 2
    ensures var mp := if month > 2 then month - 3 else month + 9;
      (153 * (mp + 1) + 2) / 5 - MonthOffset(month) == DaysInMonth(year, month)
  {
  }

  lemma DateOfValid(year: int, doy: int)
    requires 0 <= doy <= 364 + (if IsLeap(year + 1) then 1 else 0)
    ensures ValidDate(DateOf(year, doy))
    ensures DateOf(year, doy).day == doy - MonthOffset(DateOf(year, doy).month) + 1
  {
    var d := DateOf(year, doy);
    MonthOfDay(doy, (5 * doy + 2) / 153);
    if d.month != 2 { MonthLengths(d.year, d.month); }
  }

  lemma DateOfCorrect(year: int, doy: int)
    requires 0 <= doy <= 364 + (if IsLeap(year + 1) then 1 else 0)
    ensures ValidDate(DateOf(year, doy))
    ensures DaysFromCivil(DateOf(year, doy)) == MarchDays(year) + doy - 719468
  {
    var d := DateOf(year, doy);
    DateOfValid(year, doy);
    MonthOffsets(d.year, d.month);
    LeapYearLength(year);
    assert DaysBeforeYear(year + 1) == MarchDays(year) && DaysBeforeYear(year) == MarchDays(year - 1);
  }

  // ── Theorems ─────────────────────────────────────────────────────────

  /** Every day number names a real calendar date, and counting that date gives it back. */
  lemma CivilFromDaysCorrect(days: int)
    ensures ValidDate(CivilFromDays(days)) && DaysFromCivil(CivilFromDays(days)) == days
  {
    var y, doy := CivilSplit(days);
    DateOfCorrect(y, doy);
  }

  lemma NextDateCount(d: Date)
    requires ValidDate(d)
    ensures ValidDate(NextDate(d)) && DaysFromCivil(NextDate(d)) == DaysFromCivil(d) + 1
  {
    if d.day == DaysInMonth(d.year, d.month) && d.month == 12 {
      YearEnds(d.year);
    }
  }

  lemma YearEnds(year: int)
    ensures DaysBeforeYear(year + 1) == DaysBeforeYear(year) + DaysBeforeMonth(year, 12) + 31
  {
    MonthOffsets(year, 12);
    LeapYearLength(year);
    assert DaysBeforeYear(year + 1) == MarchDays(year);
    assert DaysBeforeYear(year) == MarchDays(year - 1);
  }

  /** Years are consecutive and disjoint stretches of days. */
  lemma YearsAreOrdered(a: int, b: int)
    requires a <= b
    ensures DaysBeforeYear(a) <= DaysBeforeYear(b)
  {
  }

  lemma MonthsAreOrdered(year: int, a: int, b: int)
    requires 1 <= a < b <= 12
    ensures DaysBeforeMonth(year, a) + DaysInMonth(year, a) <= DaysBeforeMonth(year, b)
  {
  }

  lemma DateInYear(d: Date)
    requires ValidDate(d)
    ensures DaysBeforeYear(d.year) <= DaysFromCivil(d) + 719162 < DaysBeforeYear(d.year + 1)
  {
    if d.month < 12 { MonthsAreOrdered(d.year, d.month, 12); }
    if d.month > 1 { MonthsAreOrdered(d.year, 1, d.month); }
    NextDateCount(Date(d.year, 12, 31));
  }

  /** Different dates have different day numbers. */
  lemma DaysFromCivilInjective(a: Date, b: Date)
    requires ValidDate(a) && ValidDate(b) && DaysFromCivil(a) == DaysFromCivil(b)
    ensures a == b
  {
    DateInYear(a);
    DateInYear(b);
    if a.year < b.year { YearsAreOrdered(a.year + 1, b.year); }
    if b.year < a.year { YearsAreOrdered(b.year + 1, a.year); }
    if a.month < b.month { MonthsAreOrdered(a.year, a.month, b.month); }
    if b.month < a.month { MonthsAreOrdered(a.year, b.month, a.month); }
  }

  /** The conversion inverts the standard count on every valid date. */
  lemma CivilOfCount(d: Date, days: int)
    requires ValidDate(d) && DaysFromCivil(d) == days
    ensures CivilFromDays(days) == d
  {
    CivilFromDaysCorrect(days);
    DaysFromCivilInjective(CivilFromDays(days), d);
  }

  /** Consecutive day numbers are consecutive dates. */
  lemma CivilOfNextDay(days: int)
    ensures ValidDate(CivilFromDays(days)) && CivilFromDays(days + 1) == NextDate(CivilFromDays(days))
  {
    CivilFromDaysCorrect(days);
    var d := CivilFromDays(days);
    NextDateCount(d);
    CivilOfCount(NextDate(d), days + 1);
  }

  /** The source computes in i64 and u32; no intermediate value leaves them unless the first
      addition does. */
  lemma CivilFitsMachineIntegers(days: int)
    requires I64_MIN <= days && days + 719468 <= I64_MAX
    ensures var z := days + 719468; var era := z / 146097; var doe := z - era * 146097; var yoe := YearOfEra(doe);
      && I64_MIN <= z - 146096 && I64_MIN <= era * 146097 <= I64_MAX && I64_MIN <= yoe + era * 400 < I64_MAX
      && 0 <= doe - doe / 1460 && 0 <= doe <= 146096 && 0 <= EraDays(yoe) <= doe
         && 5 * (doe - EraDays(yoe)) + 2 <= U32_MAX
  {
    var z := days + 719468;
    EraIsFloor(z);
    YearOfEraCorrect(z - z / 146097 * 146097);
  }

  // ── Day strings ──────────────────────────────────────────────────────

  const NS_PER_DAY: int := 86_400_000_000_000

  /** `ts_ns / 1_000_000_000 / 86400`, both divisions truncating toward zero. */
  function DayNumber(tsNs: int): int {
    TruncDiv(TruncDiv(tsNs, 1_000_000_000), 86_400)
  }

  /** The UTC day an instant falls in. */
  function UtcDay(tsNs: int): int {
    tsNs / NS_PER_DAY
  }

  lemma DayNumberIsTruncated(tsNs: int)
    ensures DayNumber(tsNs) == TruncDiv(tsNs, NS_PER_DAY)
  {
  }

  /** The code's day is the UTC day exactly for instants from the epoch on, and for earlier
      instants that are midnights. */
  lemma DayNumberIsUtcDay(tsNs: int)
    ensures DayNumber(tsNs) == UtcDay(tsNs) <==> tsNs >= 0 || tsNs % NS_PER_DAY == 0
  {
    DayNumberIsTruncated(tsNs);
    if tsNs < 0 {
      var n := -tsNs;
      assert tsNs == -(n / NS_PER_DAY) * NS_PER_DAY - n % NS_PER_DAY;
    }
  }

  lemma I64Years(tsNs: i64)
    ensures 1000 <= CivilFromDays(DayNumber(tsNs)).year <= 9999
  {
    DayNumberIsTruncated(tsNs);
    var days := DayNumber(tsNs);
    assert -106752 <= days <= 106752;
    var d := CivilFromDays(days);
    CivilFromDaysCorrect(days);
    DateInYear(d);
    if d.year < 1000 { YearsAreOrdered(d.year + 1, 1000); }
    if d.year > 9999 { YearsAreOrdered(10000, d.year); }
  }

  predicate FourDigitYear(d: Date) {
    ValidDate(d) && 1000 <= d.year <= 9999
  }

  /** `format!("{y:04}-{m:02}-{d:02}")`. */
  function FormatDay(d: Date): string
    requires FourDigitYear(d)
  {
    Decimal.Pad(d.year, 4) + "-" + Decimal.Pad(d.month, 2) + "-" + Decimal.Pad(d.day, 2)
  }

  function TsNsToDay(tsNs: i64): string {
    I64Years(tsNs);
    CivilFromDaysCorrect(DayNumber(tsNs));
    FormatDay(CivilFromDays(DayNumber(tsNs)))
  }

  lemma PlacesOfParts(y: string, m: string, d: string)
    requires |y| == 4 && |m| == 2 && |d| == 2
    ensures var s := y + "-" + m + "-" + d;
      |s| == 10 && s[..4] == y && s[4] == '-' && s[5..7] == m && s[7] == '-' && s[8..] == d
  {
  }

  lemma PartLengths(d: Date)
    requires FourDigitYear(d)
    ensures |Decimal.Pad(d.year, 4)| == 4 && |Decimal.Pad(d.month, 2)| == 2 && |Decimal.Pad(d.day, 2)| == 2
  {
    Decimal.PrintLength(d.year);
    Decimal.PrintLength(d.month);
    Decimal.PrintLength(d.day);
  }

  /** The string can be read back: year, month and day sit at fixed places, with dashes between. */
  lemma FormatDayReadable(d: Date)
    requires FourDigitYear(d)
    ensures var s := FormatDay(d);
      |s| == 10 && s[4] == '-' && s[7] == '-'
      && Decimal.AllDigits(s[..4]) && Decimal.AllDigits(s[5..7]) && Decimal.AllDigits(s[8..])
      && d == Date(Decimal.Value(s[..4]), Decimal.Value(s[5..7]), Decimal.Value(s[8..]))
  {
    PartLengths(d);
    Decimal.ValueOfPad(d.year, 4);
    Decimal.ValueOfPad(d.month, 2);
    Decimal.ValueOfPad(d.day, 2);
    PlacesOfParts(Decimal.Pad(d.year, 4), Decimal.Pad(d.month, 2), Decimal.Pad(d.day, 2));
  }

  lemma FormatDayInjective(a: Date, b: Date)
    requires FourDigitYear(a) && FourDigitYear(b) && FormatDay(a) == FormatDay(b)
    ensures a == b
  {
    FormatDayReadable(a);
    FormatDayReadable(b);
  }

  /** The day string names the day: its date is counted by the day number, which is the UTC day from
      the epoch on, and the epoch is the first of January 1970. */
  lemma DayStringNamesDay(tsNs: i64)
    ensures var s := TsNsToDay(tsNs);
      |s| == 10 && s[4] == '-' && s[7] == '-'
      && Decimal.AllDigits(s[..4]) && Decimal.AllDigits(s[5..7]) && Decimal.AllDigits(s[8..])
      && var d := Date(Decimal.Value(s[..4]), Decimal.Value(s[5..7]), Decimal.Value(s[8..]));
         ValidDate(d) && DaysFromCivil(d) == DayNumber(tsNs) && (tsNs >= 0 ==> DaysFromCivil(d) == tsNs / NS_PER_DAY)
    ensures DaysFromCivil(Date(1970, 1, 1)) == 0
  {
    I64Years(tsNs);
    CivilFromDaysCorrect(DayNumber(tsNs));
    FormatDayReadable(CivilFromDays(DayNumber(tsNs)));
    DayNumberIsUtcDay(tsNs);
  }

  /** Two instants get the same day string exactly when they have the same day number. */
  lemma DayStringsAgree(a: i64, b: i64)
    ensures TsNsToDay(a) == TsNsToDay(b) <==> DayNumber(a) == DayNumber(b)
  {
    I64Years(a);
    I64Years(b);
    CivilFromDaysCorrect(DayNumber(a));
    CivilFromDaysCorrect(DayNumber(b));
    if TsNsToDay(a) == TsNsToDay(b) {
      FormatDayInjective(CivilFromDays(DayNumber(a)), CivilFromDays(DayNumber(b)));
    }
  }

  /** From the epoch on, two events share a day partition exactly when they share a UTC day. */
  lemma DayStringIsUtcDay(a: i64, b: i64)
    requires a >= 0 && b >= 0
    ensures TsNsToDay(a) == TsNsToDay(b) <==> UtcDay(a) == UtcDay(b)
  {
    DayStringsAgree(a, b);
    DayNumberIsUtcDay(a);
    DayNumberIsUtcDay(b);
  }

  /** Before the epoch that fails: one nanosecond before midnight shares the next day's string. */
  lemma DayStringBeforeEpoch()
    ensures TsNsToDay(-1) == TsNsToDay(0) && UtcDay(-1) != UtcDay(0)
  {
  }
}
