/** Instants, calendar days and the "2006-01-02" layout of Go's time package,
    in UTC: an instant is a whole number of seconds since 1970-01-01T00:00:00Z. */
module Calendar {
  import opened Wrappers
  import opened Decimal

  type Instant = int

  const SecondsPerDay: int := 86400

  /** Go's zero `time.Time`, 0001-01-01T00:00:00Z. */
  const ZeroTime: Instant := -62135596800

  /** The index of the calendar day holding `t`; `Truncate(24 * time.Hour)`
      rounds down to `DayOf(t) * SecondsPerDay`, because the zero time is
      itself a whole number of days before 1970. */
  function DayOf(t: Instant): int {
    t / SecondsPerDay
  }

  datatype Civil = Civil(year: int, month: int, day: int)

  predicate IsLeap(y: int) {
    y % 4 == 0 && (y % 100 != 0 || y % 400 == 0)
  }

  function DaysIn(year: int, month: int): int {
    if month == 2 then (if IsLeap(year) then 29 else 28)
    else if month == 4 || month == 6 || month == 9 || month == 11 then 30
    else 31
  }

  predicate ValidCivil(c: Civil) {
    1 <= c.month <= 12 && 1 <= c.day <= DaysIn(c.year, c.month)
  }

  /** Days from 1970-01-01 to the proleptic Gregorian date `c`. */
  function DaysFromCivil(c: Civil): int {
    var y := if c.month <= 2 then c.year - 1 else c.year;
    var era := y / 400;
    var yoe := y - era * 400;
    var doy := (153 * (if c.month > 2 then c.month - 3 else c.month + 9) + 2) / 5 + c.day - 1;
    var doe := yoe * 365 + yoe / 4 - yoe / 100 + doy;
    era * 146097 + doe - 719468
  }

  /** The proleptic Gregorian date of the day `days` after 1970-01-01. */
  function CivilFromDays(days: int): Civil {
    var z := days + 719468;
    var era := z / 146097;
    var doe := z - era * 146097;
    var yoe := (doe - doe / 1460 + doe / 36524 - doe / 146096) / 365;
    var doy := doe - (365 * yoe + yoe / 4 - yoe / 100);
    var mp := (5 * doy + 2) / 153;
    var d := doy - (153 * mp + 2) / 5 + 1;
    var m := if mp < 10 then mp + 3 else mp - 9;
    Civil(yoe + era * 400 + (if m <= 2 then 1 else 0), m, d)
  }

  /** Midnight UTC at the start of the date `c`. */
  function InstantOf(c: Civil): Instant {
    DaysFromCivil(c) * SecondsPerDay
  }

  function CivilOf(t: Instant): Civil {
    CivilFromDays(DayOf(t))
  }

  /** The instant at a midnight lies on that midnight's day. */
  lemma MidnightDay(k: int)
    ensures DayOf(k * SecondsPerDay) == k
  {
  }

  /** The month index counted from March and the day of the March-based year
      come back as the month and the day. */
  lemma DayOfYearRoundTrip(year: int, month: int, day: int, mp: int, doy: int)
    requires ValidCivil(Civil(year, month, day))
    requires mp == (if month > 2 then month - 3 else month + 9)
    requires doy == (153 * mp + 2) / 5 + day - 1
    ensures 0 <= doy <= 365 && (5 * doy + 2) / 153 == mp
    ensures doy - (153 * mp + 2) / 5 + 1 == day
    ensures doy == 365 ==> month == 2 && IsLeap(year)
  {
  }

  /** The day of the 400-year era, written through the year's century `h`,
      its four-year cycle `s` inside the century and its place `r` in the cycle. */
  lemma EraDayParts(yoe: int, doy: int) returns (h: int, s: int, r: int)
    requires 0 <= yoe <= 399
    ensures 0 <= h <= 3 && 0 <= s <= 24 && 0 <= r <= 3 && yoe == 100 * h + 4 * s + r
    ensures yoe * 365 + yoe / 4 - yoe / 100 + doy == 36524 * h + 1461 * s + 365 * r + doy
  {
    h, s, r := yoe / 100, yoe % 100 / 4, yoe % 4;
    assert yoe / 4 == 25 * h + s;
  }

  lemma QuadrennialQuotient(h: int, s: int, r: int, doy: int)
    requires 0 <= h <= 3 && 0 <= s <= 24 && 0 <= r <= 3 && 0 <= doy <= 365
    ensures var doe := 36524 * h + 1461 * s + 365 * r + doy;
      doe / 1460 == 25 * h + s + (if 24 * h + s + 365 * r + doy >= 1460 then 1 else 0)
  {
  }

  lemma CenturyQuotients(h: int, s: int, r: int, doy: int)
    requires 0 <= h <= 3 && 0 <= s <= 24 && 0 <= r <= 3 && 0 <= doy <= 365
    requires doy == 365 ==> r == 3
    requires doy == 365 && s == 24 ==> h == 3
    ensures var doe := 36524 * h + 1461 * s + 365 * r + doy;
      && 0 <= doe <= 146096
      && (doe == 146096 ==> doe / 36524 == 4 && doe / 146096 == 1 && doe / 1460 == 100)
      && (doe < 146096 ==> doe / 36524 == h && doe / 146096 == 0)
  {
  }

  lemma YearOfEraRoundTrip(yoe: int, doy: int, doe: int)
    requires 0 <= yoe <= 399 && 0 <= doy <= 365
    requires doy == 365 ==> (yoe + 1) % 4 == 0 && ((yoe + 1) % 100 != 0 || (yoe + 1) % 400 == 0)
    requires doe == yoe * 365 + yoe / 4 - yoe / 100 + doy
    ensures 0 <= doe < 146097
    ensures (doe - doe / 1460 + doe / 36524 - doe / 146096) / 365 == yoe
  {
    var h, s, r := EraDayParts(yoe, doy);
    QuadrennialQuotient(h, s, r, doy);
    CenturyQuotients(h, s, r, doy);
  }

  lemma ShiftMod(a: int, q: int, m: int, n: int)
    requires m == 4 || m == 100 || m == 400
    requires n == q * m + a
    ensures n % m == a % m
  {
  }

  /** Leap years of an era fall on the same places of every era. */
  lemma LeapInEra(era: int, yoe: int, year: int)
    requires year == era * 400 + yoe + 1 && IsLeap(year)
    ensures (yoe + 1) % 4 == 0 && ((yoe + 1) % 100 != 0 || (yoe + 1) % 400 == 0)
  {
    ShiftMod(yoe + 1, era * 100, 4, year);
    ShiftMod(yoe + 1, era * 4, 100, year);
    ShiftMod(yoe + 1, era, 400, year);
  }

  lemma EraQuotient(era: int, doe: int)
    requires 0 <= doe < 146097
    ensures (era * 146097 + doe) / 146097 == era
  {
  }

  /** `CivilFromDays` of a day given by its era, year of era and day of the
      March-based year, once the year and the month are known to come back. */
  lemma CivilFromEraDay(era: int, yoe: int, doy: int, doe: int, mp: int, month: int, day: int)
    requires 0 <= yoe <= 399 && 0 <= doe < 146097
    requires (doe - doe / 1460 + doe / 36524 - doe / 146096) / 365 == yoe
    requires doy == doe - (365 * yoe + yoe / 4 - yoe / 100)
    requires (5 * doy + 2) / 153 == mp && doy - (153 * mp + 2) / 5 + 1 == day
    requires 1 <= month <= 12 && mp == (if month > 2 then month - 3 else month + 9)
    ensures CivilFromDays(era * 146097 + doe - 719468)
      == Civil(era * 400 + yoe + (if month <= 2 then 1 else 0), month, day)
  {
    EraQuotient(era, doe);
    var z := era * 146097 + doe - 719468 + 719468;
    assert z - z / 146097 * 146097 == doe;
    var m := if mp < 10 then mp + 3 else mp - 9;
    assert m == month;
  }

  /** The era, the year of the era, the month index counted from March and
      the day of the March-based year that `DaysFromCivil` computes. */
  lemma DaysFromCivilParts(c: Civil) returns (era: int, yoe: int, mp: int, doy: int, doe: int)
    ensures 0 <= yoe <= 399 && mp == (if c.month > 2 then c.month - 3 else c.month + 9)
    ensures era * 400 + yoe == (if c.month <= 2 then c.year - 1 else c.year)
    ensures doy == (153 * mp + 2) / 5 + c.day - 1
    ensures doe == yoe * 365 + yoe / 4 - yoe / 100 + doy
    ensures DaysFromCivil(c) == era * 146097 + doe - 719468
  {
    var y := if c.month <= 2 then c.year - 1 else c.year;
    era := y / 400;
    yoe := y - era * 400;
    mp := if c.month > 2 then c.month - 3 else c.month + 9;
    doy := (153 * mp + 2) / 5 + c.day - 1;
    doe := yoe * 365 + yoe / 4 - yoe / 100 + doy;
  }

  /** Every real date, of any year, survives the trip to a day number and back. */
  lemma CivilRoundTrip(c: Civil)
    requires ValidCivil(c)
    ensures CivilFromDays(DaysFromCivil(c)) == c
  {
    var era, yoe, mp, doy, doe := DaysFromCivilParts(c);
    DayOfYearRoundTrip(c.year, c.month, c.day, mp, doy);
    if doy == 365 {
      LeapInEra(era, yoe, c.year);
    }
    YearOfEraRoundTrip(yoe, doy, doe);
    CivilFromEraDay(era, yoe, doy, doe, mp, c.month, c.day);
  }

  /** The time package's `appendInt(b, x, width)`: a sign for negatives, then
      the magnitude zero-padded to at least `width` digits. */
  function AppendInt(x: int, width: nat): string {
    if x < 0 then "-" + Padded(-x, width) else Padded(x, width)
  }

  /** `Format("2006-01-02")` of a date. */
  function FormatCivil(c: Civil): string {
    AppendInt(c.year, 4) + "-" + AppendInt(c.month, 2) + "-" + AppendInt(c.day, 2)
  }

  /** `t.Format("2006-01-02")`. */
  function FormatDate(t: Instant): string {
    FormatCivil(CivilOf(t))
  }

  /** `t.Format("2006")`. */
  function FormatYear(t: Instant): string {
    AppendInt(CivilOf(t).year, 4)
  }

  function MonthName(m: int): string {
    if m == 1 then "January" else if m == 2 then "February" else if m == 3 then "March"
    else if m == 4 then "April" else if m == 5 then "May" else if m == 6 then "June"
    else if m == 7 then "July" else if m == 8 then "August" else if m == 9 then "September"
    else if m == 10 then "October" else if m == 11 then "November" else "December"
  }

  /** `t.Format("January 2006")`. */
  function FormatMonthYear(t: Instant): string {
    var c := CivilOf(t);
    MonthName(c.month) + " " + AppendInt(c.year, 4)
  }

  /** `time.Parse("2006-01-02", s)`: four digits, '-', two digits, '-', two
      digits and nothing else, with a month in 1..12 and a day that exists in
      that month; the result is that midnight in UTC. */
  function ParseCivil(s: string): (r: Option<Civil>)
    ensures r.Some? ==> |s| == 10 && s[4] == '-' && s[7] == '-' && ValidCivil(r.value)
    ensures r.Some? ==> 0 <= r.value.year <= 9999
    ensures r.Some? ==> FormatCivil(r.value) == s
  {
    if |s| == 10 && s[4] == '-' && s[7] == '-'
       && AllDigits(s[..4]) && AllDigits(s[5..7]) && AllDigits(s[8..])
    then
      var c := Civil(ValueOf(s[..4]), ValueOf(s[5..7]), ValueOf(s[8..]));
      FourDigitsBelow(s[..4]);
      FormatOfFields(s);
      if ValidCivil(c) then Some(c) else None
    else None
  }

  function ParseDate(s: string): (r: Option<Instant>)
    ensures r.Some? <==> ParseCivil(s).Some?
    ensures r.Some? ==> r.value % SecondsPerDay == 0 && CivilOf(r.value) == ParseCivil(s).value
    ensures r.Some? ==> FormatDate(r.value) == s
  {
    match ParseCivil(s)
    case Some(c) =>
      CivilRoundTrip(c);
      MidnightDay(DaysFromCivil(c));
      Some(InstantOf(c))
    case None => None
  }

  lemma {:induction false} ValueBelowPow(s: string)
    requires AllDigits(s)
    ensures ValueOf(s) < Pow10(|s|)
  {
    if s != [] {
      ValueBelowPow(s[..|s| - 1]);
    }
  }

  lemma FourDigitsBelow(s: string)
    requires |s| == 4 && AllDigits(s)
    ensures ValueOf(s) <= 9999
  {
    ValueBelowPow(s);
    assert Pow10(4) == 10000;
  }

  /** A non-negative field written at its width reads back as itself. */
  lemma FieldRoundTrip(n: int, width: nat)
    requires 0 <= n && width >= 1 && n < Pow10(width)
    ensures |AppendInt(n, width)| == width && AllDigits(AppendInt(n, width))
    ensures ValueOf(AppendInt(n, width)) == n
  {
    PaddedRoundTrip(n, width);
  }

  /** The three fields of a formatted date sit at fixed positions. */
  lemma FieldsOfLayout(y: string, m: string, d: string)
    requires |y| == 4 && |m| == 2 && |d| == 2
    ensures var s := y + "-" + m + "-" + d;
      && |s| == 10 && s[4] == '-' && s[7] == '-'
      && s[..4] == y && s[5..7] == m && s[8..] == d
  {
    var s := y + "-" + m + "-" + d;
    assert s[..4] == y;
    assert s[5..7] == m;
    assert s[8..] == d;
  }

  /** The fields read from a string of the layout, written back at their
      widths, give that string again. */
  lemma FormatOfFields(s: string)
    requires |s| == 10 && s[4] == '-' && s[7] == '-'
    requires AllDigits(s[..4]) && AllDigits(s[5..7]) && AllDigits(s[8..])
    ensures FormatCivil(Civil(ValueOf(s[..4]), ValueOf(s[5..7]), ValueOf(s[8..]))) == s
  {
    var y, m, d := s[..4], s[5..7], s[8..];
    ValueBelowPow(y);
    ValueBelowPow(m);
    ValueBelowPow(d);
    FieldRoundTrip(ValueOf(y), 4);
    FieldRoundTrip(ValueOf(m), 2);
    FieldRoundTrip(ValueOf(d), 2);
    DigitsUnique(AppendInt(ValueOf(y), 4), y);
    DigitsUnique(AppendInt(ValueOf(m), 2), m);
    DigitsUnique(AppendInt(ValueOf(d), 2), d);
    assert s == y + "-" + m + "-" + d;
  }

  /** Every real date of years 0 to 9999, written in the layout, parses back. */
  lemma ParseFormatRoundTrip(c: Civil)
    requires ValidCivil(c) && 0 <= c.year <= 9999
    ensures ParseCivil(FormatCivil(c)) == Some(c)
  {
    assert Pow10(2) == 100 && Pow10(4) == 10000;
    FieldRoundTrip(c.year, 4);
    FieldRoundTrip(c.month, 2);
    FieldRoundTrip(c.day, 2);
    var y, m, d := AppendInt(c.year, 4), AppendInt(c.month, 2), AppendInt(c.day, 2);
    FieldsOfLayout(y, m, d);
    assert FormatCivil(c) == y + "-" + m + "-" + d;
  }

  /** The first instant of the month holding `t`. */
  function MonthStart(t: Instant): Instant {
    var c := CivilOf(t);
    InstantOf(Civil(c.year, c.month, 1))
  }

  /** The first instant of the month after the one holding `t`, as
      `AddDate(0, 1, 0)` normalises month 13 into January of the next year. */
  function NextMonthStart(t: Instant): Instant {
    var c := CivilOf(t);
    if c.month >= 12 then InstantOf(Civil(c.year + 1, 1, 1)) else InstantOf(Civil(c.year, c.month + 1, 1))
  }

  /** The first instant of the year holding `t`. */
  function YearStart(t: Instant): Instant {
    InstantOf(Civil(CivilOf(t).year, 1, 1))
  }

  function NextYearStart(t: Instant): Instant {
    InstantOf(Civil(CivilOf(t).year + 1, 1, 1))
  }
}
