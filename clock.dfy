/**
 * Naive wall-clock datetimes at minute resolution, the minute count used to
 * compare them, and the three renderings the services print:
 * `%d-%m-%Y %I:%M %p` (reminders), `isoformat()` (task dictionaries) and
 * `%B %d, %Y at %I:%M %p` (e-mails).
 */
module Clock {
  import opened Wrappers
  import opened Text

  datatype DateTime = DateTime(year: int, month: int, day: int, hour: int, minute: int)

  function DaysInMonth(year: int, month: int): int {
    if month == 2 then (if (year % 4 == 0 && year % 100 != 0) || year % 400 == 0 then 29 else 28)
    else if month in {4, 6, 9, 11} then 30
    else 31
  }

  /** The range Python's `datetime` accepts, without seconds. */
  predicate Valid(dt: DateTime) {
    && 1 <= dt.year <= 9999
    && 1 <= dt.month <= 12
    && 1 <= dt.day <= DaysInMonth(dt.year, dt.month)
    && 0 <= dt.hour < 24
    && 0 <= dt.minute < 60
  }

  /** A datetime Python can hold. */
  type Instant = dt: DateTime | Valid(dt) witness DateTime(1970, 1, 1, 0, 0)

  /** Days since 1970-01-01 of a proleptic Gregorian date (Hinnant's days-from-civil). */
  function DaysFromCivil(y: int, m: int, d: int): int
    requires 1 <= y && 1 <= m <= 12
  {
    var y' := if m <= 2 then y - 1 else y;
    var era := y' / 400;
    var yoe := y' - era * 400;
    var mp := if m > 2 then m - 3 else m + 9;
    var doy := (153 * mp + 2) / 5 + d - 1;
    var doe := yoe * 365 + yoe / 4 - yoe / 100 + doy;
    era * 146097 + doe - 719468
  }

  /** The instant as whole minutes since the epoch; the model's time axis. */
  function Minutes(dt: DateTime): int
    requires Valid(dt)
  {
    DaysFromCivil(dt.year, dt.month, dt.day) * 1440 + dt.hour * 60 + dt.minute
  }

  // ---------- 12-hour clock ----------

  /** `%I`: the hour on a 12-hour clock. */
  function Hour12(hour: int): (h: int)
    requires 0 <= hour < 24
    ensures 1 <= h <= 12
    ensures hour == 0 ==> h == 12
  {
    if hour % 12 == 0 then 12 else hour % 12
  }

  /** `%p`. */
  function Meridiem(hour: int): string {
    if hour < 12 then "AM" else "PM"
  }

  /** Reading a 12-hour clock back: the hour of day. */
  function Hour24(h12: int, pm: bool): int {
    h12 % 12 + (if pm then 12 else 0)
  }

  lemma Hour12RoundTrip(hour: int)
    requires 0 <= hour < 24
    ensures Hour24(Hour12(hour), Meridiem(hour) == "PM") == hour
  {
  }

  // ---------- zero-padded fields ----------

  function Pad2(n: int): (r: string)
    requires 0 <= n < 100
    ensures |r| == 2 && AllDigits(r)
  {
    [DigitChar(n / 10), DigitChar(n % 10)]
  }

  function Pad4(n: int): (r: string)
    requires 0 <= n < 10000
    ensures |r| == 4 && AllDigits(r)
  {
    Pad2(n / 100) + Pad2(n % 100)
  }

  predicate DigitsOk(s: string, i: nat, w: nat) {
    i + w <= |s| && forall k :: i <= k < i + w ==> IsDigit(s[k])
  }

  /** The value of the two digits at `s[i..i+2]`. */
  function Num2(s: string, i: nat): int
    requires DigitsOk(s, i, 2)
  {
    DigitValue(s[i]) * 10 + DigitValue(s[i + 1])
  }

  /** The value of the four digits at `s[i..i+4]`. */
  function Num4(s: string, i: nat): int
    requires DigitsOk(s, i, 4)
  {
    Num2(s, i) * 100 + Num2(s, i + 2)
  }

  lemma Pad2At(s: string, i: nat, n: int)
    requires 0 <= n < 100 && i + 2 <= |s| && s[i..i + 2] == Pad2(n)
    ensures DigitsOk(s, i, 2) && Num2(s, i) == n
  {
    assert s[i] == Pad2(n)[0] && s[i + 1] == Pad2(n)[1];
  }

  lemma Pad4At(s: string, i: nat, n: int)
    requires 0 <= n < 10000 && i + 4 <= |s| && s[i..i + 4] == Pad4(n)
    ensures DigitsOk(s, i, 4) && Num4(s, i) == n
  {
    assert s[i..i + 2] == s[i..i + 4][..2] == Pad2(n / 100);
    assert s[i + 2..i + 4] == s[i..i + 4][2..] == Pad2(n % 100);
    Pad2At(s, i, n / 100);
    Pad2At(s, i + 2, n % 100);
  }

  // ---------- %d-%m-%Y %I:%M %p ----------

  /** `dt.strftime("%d-%m-%Y %I:%M %p")`, e.g. `10-01-2025 09:00 PM`. */
  function Format12(dt: DateTime): (r: string)
    requires Valid(dt)
    ensures |r| == 19
  {
    Pad2(dt.day) + "-" + Pad2(dt.month) + "-" + Pad4(dt.year) + " "
      + Pad2(Hour12(dt.hour)) + ":" + Pad2(dt.minute) + " " + Meridiem(dt.hour)
  }

  /** Reads a `Format12` string back. */
  function Parse12(s: string): Option<DateTime> {
    if |s| == 19 && s[2] == '-' && s[5] == '-' && s[10] == ' ' && s[13] == ':' && s[16] == ' '
      && s[18] == 'M' && (s[17] == 'A' || s[17] == 'P')
      && DigitsOk(s, 0, 2) && DigitsOk(s, 3, 2) && DigitsOk(s, 6, 4) && DigitsOk(s, 11, 2) && DigitsOk(s, 14, 2)
    then
      Some(DateTime(Num4(s, 6), Num2(s, 3), Num2(s, 0),
                    Hour24(Num2(s, 11), s[17] == 'P'), Num2(s, 14)))
    else None
  }

  /** The reminder rendering loses nothing: it reads back to the same datetime. */
  lemma Format12RoundTrip(dt: DateTime)
    requires Valid(dt)
    ensures Parse12(Format12(dt)) == Some(dt)
  {
    var s := Format12(dt);
    assert s[0..2] == Pad2(dt.day);
    assert s[3..5] == Pad2(dt.month);
    assert s[6..10] == Pad4(dt.year);
    assert s[11..13] == Pad2(Hour12(dt.hour));
    assert s[14..16] == Pad2(dt.minute);
    Pad2At(s, 0, dt.day);
    Pad2At(s, 3, dt.month);
    Pad4At(s, 6, dt.year);
    Pad2At(s, 11, Hour12(dt.hour));
    Pad2At(s, 14, dt.minute);
    assert s[17] == Meridiem(dt.hour)[0];
    Hour12RoundTrip(dt.hour);
  }

  // ---------- isoformat ----------

  /** `dt.isoformat()` for a datetime with zero seconds, e.g. `2025-01-10T21:00:00`. */
  function IsoFormat(dt: DateTime): (r: string)
    requires Valid(dt)
    ensures |r| == 19
  {
    Pad4(dt.year) + "-" + Pad2(dt.month) + "-" + Pad2(dt.day) + "T"
      + Pad2(dt.hour) + ":" + Pad2(dt.minute) + ":00"
  }

  /** `datetime.fromisoformat` restricted to the `IsoFormat` shape. */
  function ParseIso(s: string): Option<DateTime> {
    if |s| == 19 && s[4] == '-' && s[7] == '-' && s[10] == 'T' && s[13] == ':' && s[16] == ':'
      && s[17] == '0' && s[18] == '0'
      && DigitsOk(s, 0, 4) && DigitsOk(s, 5, 2) && DigitsOk(s, 8, 2) && DigitsOk(s, 11, 2) && DigitsOk(s, 14, 2)
    then
      Some(DateTime(Num4(s, 0), Num2(s, 5), Num2(s, 8), Num2(s, 11), Num2(s, 14)))
    else None
  }

  lemma IsoRoundTrip(dt: DateTime)
    requires Valid(dt)
    ensures ParseIso(IsoFormat(dt)) == Some(dt)
  {
    var s := IsoFormat(dt);
    assert s[0..4] == Pad4(dt.year);
    assert s[5..7] == Pad2(dt.month);
    assert s[8..10] == Pad2(dt.day);
    assert s[11..13] == Pad2(dt.hour);
    assert s[14..16] == Pad2(dt.minute);
    Pad4At(s, 0, dt.year);
    Pad2At(s, 5, dt.month);
    Pad2At(s, 8, dt.day);
    Pad2At(s, 11, dt.hour);
    Pad2At(s, 14, dt.minute);
  }

  // ---------- %B %d, %Y at %I:%M %p ----------

  const MonthNames: seq<string> := ["January", "February", "March", "April", "May", "June", "July",
                                    "August", "September", "October", "November", "December"]

  /** `dt.strftime('%B %d, %Y at %I:%M %p')`, e.g. `January 10, 2025 at 09:00 PM`. */
  function LongFormat(dt: DateTime): string
    requires Valid(dt)
  {
    MonthNames[dt.month - 1] + " " + Pad2(dt.day) + ", " + Pad4(dt.year) + " at "
      + Pad2(Hour12(dt.hour)) + ":" + Pad2(dt.minute) + " " + Meridiem(dt.hour)
  }
}
