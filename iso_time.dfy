/**
 * `new Date(ms).toISOString()` for an integer number of milliseconds since
 * 1970-01-01T00:00:00Z, written as the integer civil-date conversion of the
 * ECMAScript date model (proleptic Gregorian calendar, UTC, no leap seconds).
 * A time value outside +/-8.64e15 ms is an invalid date and `toISOString` throws.
 */
module IsoTime {
  import opened Wrappers
  import opened JsText

  const MsPerDay := 86400000
  /** The largest magnitude of a valid time value (TimeClip in ECMA-262). */
  const MaxTimeValue := 8640000000000000

  predicate IsLeap(y: int) {
    y % 4 == 0 && (y % 100 != 0 || y % 400 == 0)
  }

  function DaysInYear(y: int): int {
    if IsLeap(y) then 366 else 365
  }

  function DaysInMonth(y: int, m: int): int
    requires 1 <= m <= 12
  {
    if m == 2 then (if IsLeap(y) then 29 else 28)
    else if m == 4 || m == 6 || m == 9 || m == 11 then 30
    else 31
  }

  /** Days of year `y` before the first of month `m`. */
  function DaysBeforeMonth(y: int, m: int): int
    requires 1 <= m <= 12
  {
    var leap := if IsLeap(y) then 1 else 0;
    if m == 1 then 0
    else if m == 2 then 31
    else [59, 90, 120, 151, 181, 212, 243, 273, 304, 334][m - 3] + leap
  }

  /** Leap years in `[0, y)`, negated for `y < 0`. */
  function LeapsBefore(y: int): int {
    (y + 3) / 4 - (y + 99) / 100 + (y + 399) / 400
  }

  /** Days from 1970-01-01 to January 1st of year `y` (negative before 1970). */
  function DaysToYear(y: int): int {
    365 * (y - 1970) + LeapsBefore(y) - LeapsBefore(1970)
  }

  /** A calendar instant in UTC as `toISOString` shows it. */
  datatype DateTime = DateTime(year: int, month: int, day: int,
                               hour: int, minute: int, second: int, millis: int)

  predicate ValidDateTime(t: DateTime) {
    && 1 <= t.month <= 12
    && 1 <= t.day <= DaysInMonth(t.year, t.month)
    && 0 <= t.hour < 24 && 0 <= t.minute < 60 && 0 <= t.second < 60 && 0 <= t.millis < 1000
  }

  /** Milliseconds since the epoch of a calendar instant (MakeDate of ECMA-262). */
  function TimeValue(t: DateTime): int
    requires ValidDateTime(t)
  {
    (DaysToYear(t.year) + DaysBeforeMonth(t.year, t.month) + t.day - 1) * MsPerDay
    + t.hour * 3600000 + t.minute * 60000 + t.second * 1000 + t.millis
  }

  lemma StepDiv4(y: int)
    ensures (y + 4) / 4 - (y + 3) / 4 == (if y % 4 == 0 then 1 else 0)
  {
  }

  lemma StepDiv100(y: int)
    ensures (y + 100) / 100 - (y + 99) / 100 == (if y % 100 == 0 then 1 else 0)
  {
  }

  lemma StepDiv400(y: int)
    ensures (y + 400) / 400 - (y + 399) / 400 == (if y % 400 == 0 then 1 else 0)
  {
  }

  lemma CenturyDivisibility(y: int)
    ensures y % 100 == 0 ==> y % 4 == 0
    ensures y % 400 == 0 ==> y % 100 == 0
  {
    if y % 100 == 0 {
      var k := y / 100;
      assert y == 4 * (25 * k);
      DivShift4(0, 25 * k);
    }
    if y % 400 == 0 {
      var k := y / 400;
      assert y == 100 * (4 * k);
      DivShift100(0, 4 * k);
    }
  }

  /** Consecutive years are `DaysInYear` apart. */
  lemma YearStep(y: int)
    ensures DaysToYear(y + 1) == DaysToYear(y) + DaysInYear(y)
  {
    var a4, b4 := (y + 4) / 4, (y + 3) / 4;
    var a100, b100 := (y + 100) / 100, (y + 99) / 100;
    var a400, b400 := (y + 400) / 400, (y + 399) / 400;
    StepDiv4(y);
    StepDiv100(y);
    StepDiv400(y);
    CenturyDivisibility(y);
    assert LeapsBefore(y + 1) == a4 - a100 + a400;
    assert LeapsBefore(y) == b4 - b100 + b400;
  }

  lemma DivShift4(a: int, j: int)
    ensures (a + 4 * j) / 4 == a / 4 + j
  {
  }

  lemma DivShift100(a: int, j: int)
    ensures (a + 100 * j) / 100 == a / 100 + j
  {
  }

  lemma DivShift400(a: int, j: int)
    ensures (a + 400 * j) / 400 == a / 400 + j
  {
  }

  /** Every run of 400 years has 146097 days. */
  lemma CycleShift(y: int, q: int)
    ensures DaysToYear(y + 400 * q) == DaysToYear(y) + 146097 * q
  {
    DivShift4(y + 3, 100 * q);
    DivShift100(y + 99, 4 * q);
    DivShift400(y + 399, q);
  }

  /** Walks forward year by year from `y` until `r` days fit inside one year. */
  function YearAndDay(r: nat, y: int): (yd: (int, nat))
    decreases r
  {
    if r < DaysInYear(y) then (y, r) else YearAndDay(r - DaysInYear(y), y + 1)
  }

  lemma {:induction false} YearAndDayCorrect(r: nat, y: int)
    ensures YearAndDay(r, y).1 < DaysInYear(YearAndDay(r, y).0)
    ensures DaysToYear(YearAndDay(r, y).0) + YearAndDay(r, y).1 == DaysToYear(y) + r
    decreases r
  {
    if r >= DaysInYear(y) {
      YearAndDayCorrect(r - DaysInYear(y), y + 1);
      YearStep(y);
    }
  }

  /** The month holding day `doy` (counted from 0) of year `y`. */
  function MonthOf(y: int, doy: int): (m: int)
    requires 0 <= doy < DaysInYear(y)
    ensures 1 <= m <= 12
    ensures DaysBeforeMonth(y, m) <= doy < DaysBeforeMonth(y, m) + DaysInMonth(y, m)
  {
    if doy < DaysBeforeMonth(y, 2) then 1
    else if doy < DaysBeforeMonth(y, 3) then 2
    else if doy < DaysBeforeMonth(y, 4) then 3
    else if doy < DaysBeforeMonth(y, 5) then 4
    else if doy < DaysBeforeMonth(y, 6) then 5
    else if doy < DaysBeforeMonth(y, 7) then 6
    else if doy < DaysBeforeMonth(y, 8) then 7
    else if doy < DaysBeforeMonth(y, 9) then 8
    else if doy < DaysBeforeMonth(y, 10) then 9
    else if doy < DaysBeforeMonth(y, 11) then 10
    else if doy < DaysBeforeMonth(y, 12) then 11
    else 12
  }

  /** The date of day number `days` counted from 1970-01-01. */
  function DateOfDay(days: int): (int, int, int) {
    var q, r := days / 146097, days % 146097;
    var yd := YearAndDay(r, 1970 + 400 * q);
    var m := if 0 <= yd.1 < DaysInYear(yd.0) then MonthOf(yd.0, yd.1) else 1;
    (yd.0, m, yd.1 - DaysBeforeMonth(yd.0, m) + 1)
  }

  /** The date is a real calendar date and lies exactly `days` days after the epoch. */
  lemma DateOfDayCorrect(days: int)
    ensures var ymd := DateOfDay(days);
      && 1 <= ymd.1 <= 12 && 1 <= ymd.2 <= DaysInMonth(ymd.0, ymd.1)
      && DaysToYear(ymd.0) + DaysBeforeMonth(ymd.0, ymd.1) + ymd.2 - 1 == days
  {
    var q, r := days / 146097, days % 146097;
    YearAndDayCorrect(r, 1970 + 400 * q);
    CycleShift(1970, q);
  }

  /** The clock reading of the `inDay`-th millisecond of a day. */
  lemma TimeOfDay(inDay: int)
    requires 0 <= inDay < MsPerDay
    ensures var h, m, s, ms := inDay / 3600000, inDay % 3600000 / 60000, inDay % 60000 / 1000, inDay % 1000;
      0 <= h < 24 && 0 <= m < 60 && 0 <= s < 60 && 0 <= ms < 1000
      && h * 3600000 + m * 60000 + s * 1000 + ms == inDay
  {
    var h, rest := inDay / 3600000, inDay % 3600000;
    assert inDay == h * 3600000 + rest;
    var m, rest2 := rest / 60000, rest % 60000;
    assert rest == m * 60000 + rest2;
    assert rest2 == inDay % 60000;
    var sec := rest2 / 1000;
    assert rest2 == sec * 1000 + inDay % 1000;
  }

  /** The calendar instant of a time value (`Day`, `MonthFromTime`, `HourFromTime`, ... of ECMA-262). */
  function FromTimeValue(ms: int): DateTime {
    var days, inDay := ms / MsPerDay, ms % MsPerDay;
    var ymd := DateOfDay(days);
    DateTime(ymd.0, ymd.1, ymd.2, inDay / 3600000, inDay % 3600000 / 60000,
             inDay % 60000 / 1000, inDay % 1000)
  }

  /**
   * The instant of a time value is a valid date and time whose time value is exactly `ms`:
   * converting back with MakeDate recovers the input.
   */
  lemma FromTimeValueCorrect(ms: int)
    ensures ValidDateTime(FromTimeValue(ms))
    ensures TimeValue(FromTimeValue(ms)) == ms
  {
    DateOfDayCorrect(ms / MsPerDay);
    TimeOfDay(ms % MsPerDay);
  }

  /** The year as `toISOString` writes it: four digits in 0..9999, otherwise a sign and six digits. */
  function YearText(y: int): string {
    if 0 <= y <= 9999 then PadDigits(y, 4)
    else if y < 0 then "-" + PadDigits(-y, 6)
    else "+" + PadDigits(y, 6)
  }

  /** A calendar field as a digit count; the fields of a valid instant are never negative. */
  function Field(n: int): nat {
    if n < 0 then 0 else n
  }

  /** `YYYY-MM-DD`, the date half of the string. */
  function DateText(t: DateTime): string {
    YearText(t.year) + "-" + PadDigits(Field(t.month), 2) + "-" + PadDigits(Field(t.day), 2)
  }

  /** `hh:mm:ss`, the time half of the string. */
  function ClockText(t: DateTime): string {
    PadDigits(Field(t.hour), 2) + ":" + PadDigits(Field(t.minute), 2) + ":" + PadDigits(Field(t.second), 2)
  }

  /** The date, `T`, the time, `.`, the milliseconds and `Z`. */
  function FormatIso(t: DateTime): string {
    DateText(t) + "T" + ClockText(t) + "." + PadDigits(Field(t.millis), 3) + "Z"
  }

  /** `new Date(ms).toISOString()`: `None` is the RangeError an invalid date throws. */
  function ToIsoString(ms: int): (r: Option<string>)
    ensures r.None? <==> ms < -MaxTimeValue || MaxTimeValue < ms
  {
    if ms < -MaxTimeValue || MaxTimeValue < ms then None
    else Some(FormatIso(FromTimeValue(ms)))
  }

  /** Where the fields sit in `a-b-c` or `a:b:c` with two-digit `b` and `c`. */
  lemma TripleLayout(a: string, sep: char, b: string, c: string)
    requires |b| == 2 && |c| == 2
    ensures var s := a + [sep] + b + [sep] + c;
      && |s| == |a| + 6 && s[|a|] == sep && s[|a| + 3] == sep
      && s[0..|a|] == a && s[|a| + 1..|a| + 3] == b && s[|a| + 4..|a| + 6] == c
  {
  }

  /** Where the date, the time and the milliseconds sit in the whole string. */
  lemma IsoLayout(date: string, time: string, mil: string)
    requires |date| == 10 && |time| == 8 && |mil| == 3
    ensures var s := date + "T" + time + "." + mil + "Z";
      && |s| == 24 && s[10] == 'T' && s[19] == '.' && s[23] == 'Z'
      && s[0..10] == date && s[11..19] == time && s[20..23] == mil
  {
  }

  /** A slice of a slice is the slice of the whole at the shifted bounds. */
  lemma SliceOfSlice(s: string, i: int, j: int, k: int, l: int)
    requires 0 <= i <= j <= |s| && 0 <= k <= l <= j - i
    ensures s[i..j][k..l] == s[i + k..i + l]
  {
    assert forall n :: 0 <= n < l - k ==> s[i..j][k..l][n] == s[i + k + n];
  }

  /** Where every field sits in `YYYY-MM-DDThh:mm:ss.sssZ`. */
  lemma FieldLayout(y: string, mo: string, d: string, h: string, mi: string, se: string, mil: string)
    requires |y| == 4 && |mo| == 2 && |d| == 2 && |h| == 2 && |mi| == 2 && |se| == 2 && |mil| == 3
    ensures var s := (y + "-" + mo + "-" + d) + "T" + (h + ":" + mi + ":" + se) + "." + mil + "Z";
      && |s| == 24
      && s[4] == '-' && s[7] == '-' && s[10] == 'T' && s[13] == ':' && s[16] == ':'
      && s[19] == '.' && s[23] == 'Z'
      && s[0..4] == y && s[5..7] == mo && s[8..10] == d && s[11..13] == h
      && s[14..16] == mi && s[17..19] == se && s[20..23] == mil
  {
    var date, time := y + "-" + mo + "-" + d, h + ":" + mi + ":" + se;
    TripleLayout(y, '-', mo, d);
    TripleLayout(h, ':', mi, se);
    var s := date + "T" + time + "." + mil + "Z";
    IsoLayout(date, time, mil);
    SliceOfSlice(s, 0, 10, 0, 4);
    SliceOfSlice(s, 0, 10, 5, 7);
    SliceOfSlice(s, 0, 10, 8, 10);
    SliceOfSlice(s, 11, 19, 0, 2);
    SliceOfSlice(s, 11, 19, 3, 5);
    SliceOfSlice(s, 11, 19, 6, 8);
    assert s[4] == date[4] && s[7] == date[7] && s[13] == time[2] && s[16] == time[5];
  }

  /** `s` is laid out as `YYYY-MM-DDThh:mm:ss.sssZ`: separators in place, digits elsewhere. */
  predicate IsoShaped(s: string) {
    && |s| == 24
    && s[4] == '-' && s[7] == '-' && s[10] == 'T' && s[13] == ':' && s[16] == ':'
    && s[19] == '.' && s[23] == 'Z'
    && AllDigits(s[0..4]) && AllDigits(s[5..7]) && AllDigits(s[8..10]) && AllDigits(s[11..13])
    && AllDigits(s[14..16]) && AllDigits(s[17..19]) && AllDigits(s[20..23])
  }

  /** The calendar fields read back from the digit groups of `YYYY-MM-DDThh:mm:ss.sssZ`. */
  function ReadIso(s: string): DateTime
    requires IsoShaped(s)
  {
    DateTime(DecimalValue(s[0..4]), DecimalValue(s[5..7]), DecimalValue(s[8..10]),
             DecimalValue(s[11..13]), DecimalValue(s[14..16]),
             DecimalValue(s[17..19]), DecimalValue(s[20..23]))
  }

  /** Reading the digit groups back undoes the formatting, for fields that fit their widths. */
  lemma ReadFormatIso(t: DateTime)
    requires 0 <= t.year <= 9999 && 0 <= t.month < 100 && 0 <= t.day < 100
    requires 0 <= t.hour < 100 && 0 <= t.minute < 100 && 0 <= t.second < 100 && 0 <= t.millis < 1000
    ensures IsoShaped(FormatIso(t)) && ReadIso(FormatIso(t)) == t
  {
    FormatFields(t);
    PadDigitsValue(t.year, 4);
    PadDigitsValue(t.month, 2);
    PadDigitsValue(t.day, 2);
    PadDigitsValue(t.hour, 2);
    PadDigitsValue(t.minute, 2);
    PadDigitsValue(t.second, 2);
    PadDigitsValue(t.millis, 3);
  }

  /**
   * For an instant in years 0..9999 the string is `YYYY-MM-DDThh:mm:ss.sssZ`: 24 characters,
   * separators in place, and the digit fields read back as a valid calendar instant whose
   * time value is `ms`.
   */
  lemma IsoStringShape(ms: int)
    requires -MaxTimeValue <= ms <= MaxTimeValue
    requires 0 <= FromTimeValue(ms).year <= 9999
    ensures var s := ToIsoString(ms).value;
      IsoShaped(s) && ValidDateTime(ReadIso(s)) && TimeValue(ReadIso(s)) == ms
  {
    var t := FromTimeValue(ms);
    FromTimeValueCorrect(ms);
    ReadFormatIso(t);
  }

  /** The formatted fields of an instant in years 0..9999, each where the layout puts it. */
  lemma FormatFields(t: DateTime)
    requires 0 <= t.year <= 9999 && 0 <= t.month && 0 <= t.day
    requires 0 <= t.hour && 0 <= t.minute && 0 <= t.second && 0 <= t.millis
    ensures var s := FormatIso(t);
      && |s| == 24
      && s[4] == '-' && s[7] == '-' && s[10] == 'T' && s[13] == ':' && s[16] == ':'
      && s[19] == '.' && s[23] == 'Z'
      && s[0..4] == PadDigits(t.year, 4) && s[5..7] == PadDigits(t.month, 2)
      && s[8..10] == PadDigits(t.day, 2) && s[11..13] == PadDigits(t.hour, 2)
      && s[14..16] == PadDigits(t.minute, 2) && s[17..19] == PadDigits(t.second, 2)
      && s[20..23] == PadDigits(t.millis, 3)
  {
    var y, mo, d, h, mi, se, mil :=
      PadDigits(t.year, 4), PadDigits(t.month, 2), PadDigits(t.day, 2), PadDigits(t.hour, 2),
      PadDigits(t.minute, 2), PadDigits(t.second, 2), PadDigits(t.millis, 3);
    assert FormatIso(t) == (y + "-" + mo + "-" + d) + "T" + (h + ":" + mi + ":" + se) + "." + mil + "Z";
    FieldLayout(y, mo, d, h, mi, se, mil);
  }

  lemma EpochInstant()
    ensures FromTimeValue(0) == DateTime(1970, 1, 1, 0, 0, 0, 0)
  {
    assert YearAndDay(0, 1970) == (1970, 0);
    assert DateOfDay(0) == (1970, 1, 1);
  }

  lemma EpochText(t: DateTime)
    requires t == DateTime(1970, 1, 1, 0, 0, 0, 0)
    ensures FormatIso(t) == "1970-01-01" + "T00:00:00" + ".000Z"
  {
    EpochDate(t);
    EpochClock(t);
    assert PadDigits(0, 3) == "000";
  }

  lemma EpochDate(t: DateTime)
    requires t == DateTime(1970, 1, 1, 0, 0, 0, 0)
    ensures DateText(t) == "1970-01-01"
  {
    assert YearText(1970) == "1970" && PadDigits(1, 2) == "01";
  }

  lemma EpochClock(t: DateTime)
    requires t == DateTime(1970, 1, 1, 0, 0, 0, 0)
    ensures ClockText(t) == "00:00:00"
  {
    assert PadDigits(0, 2) == "00";
  }

  /** The epoch itself. */
  lemma IsoStringOfEpoch()
    ensures ToIsoString(0) == Some("1970-01-01" + "T00:00:00" + ".000Z")
  {
    EpochInstant();
    EpochText(FromTimeValue(0));
  }
}
