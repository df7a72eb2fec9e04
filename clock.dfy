/**
 * Time as the pages use it. A moment is an integer count of milliseconds since the
 * epoch (what `new Date(...)` holds); a record whose date is missing or unparsable has
 * None. A date-filter input is a `Bound`.
 */
module Clock {
  import opened Wrappers
  import opened Text

  const SecondMs: int := 1000
  const MinuteMs: int := 60 * SecondMs
  const HourMs: int := 60 * MinuteMs
  const DayMs: int := 24 * HourMs

  /** A date filter: left empty, filled with text `new Date` cannot read, or a moment. */
  datatype Bound = Unset | Invalid | At(t: int)

  /** `start ? time >= start : true`; comparisons with an invalid date are false. */
  predicate AfterStart(time: Option<int>, start: Bound) {
    match start
    case Unset => true
    case Invalid => false
    case At(s) => time.Some? && time.value >= s
  }

  /** `end ? time <= end : true`. */
  predicate BeforeEnd(time: Option<int>, end: Bound) {
    match end
    case Unset => true
    case Invalid => false
    case At(e) => time.Some? && time.value <= e
  }

  /** Both date filters at once (inclusive at both ends). */
  predicate InRange(time: Option<int>, start: Bound, end: Bound) {
    AfterStart(time, start) && BeforeEnd(time, end)
  }

  /** With a moment at each end, a record passes exactly when its date lies between them. */
  lemma InRangeAt(time: Option<int>, s: int, e: int)
    ensures InRange(time, At(s), At(e)) <==> time.Some? && s <= time.value <= e
  {
  }

  /** A record without a date passes only when no date filter is set. */
  lemma UndatedPassesOnlyUnfiltered(start: Bound, end: Bound)
    ensures InRange(None, start, end) <==> start.Unset? && end.Unset?
  {
  }

  // ---------------------------------------------------------------- whole days

  /** `setHours(0, 0, 0, 0)`: the first millisecond of the day (the day counted in UTC). */
  function DayStart(t: int): (r: int)
    ensures r <= t < r + DayMs
    ensures r % DayMs == 0
  {
    t - t % DayMs
  }

  /** `setHours(23, 59, 59, 999)`: the last millisecond of the day. */
  function DayEnd(t: int): (r: int)
    ensures t <= r < t + DayMs
    ensures r == DayStart(t) + DayMs - 1
  {
    DayStart(t) + DayMs - 1
  }

  /** Two moments of one day have the same day bounds. */
  lemma SameDay(t: int, u: int)
    requires DayStart(t) <= u <= DayEnd(t)
    ensures DayStart(u) == DayStart(t) && DayEnd(u) == DayEnd(t)
  {
    var d := t / DayMs;
    assert t == d * DayMs + t % DayMs;
    assert u == d * DayMs + (u - d * DayMs);
    assert u / DayMs == d;
  }

  /** A day filter from a date to a date lets through every moment of both days. */
  lemma WholeDaysInRange(time: int, from: int, to: int)
    requires DayStart(from) <= time <= DayEnd(to)
    ensures InRange(Some(time), At(DayStart(from)), At(DayEnd(to)))
  {
  }

  // ---------------------------------------------------------------- formatting

  /** Broken-down local time, as `getFullYear()`, `getMonth() + 1`, `getDate()` ... give it. */
  datatype DateTime = DateTime(year: nat, month: nat, day: nat, hour: nat, minute: nat, second: nat)

  /** Each part of a date in its range, with a four-digit year. */
  predicate ValidDateTime(d: DateTime) {
    1000 <= d.year <= 9999 && 1 <= d.month <= 12 && 1 <= d.day <= 31
    && d.hour < 24 && d.minute < 60 && d.second < 60
  }

  /** `YYYY-MM-DD HH:MM:SS`, every part but the year padded to two digits. */
  function FormatDateTime(d: DateTime): string {
    NatToString(d.year) + "-" + Pad2(d.month) + "-" + Pad2(d.day) + " "
    + Pad2(d.hour) + ":" + Pad2(d.minute) + ":" + Pad2(d.second)
  }

  /** A number at a fixed place in a string, when the characters there are digits. */
  function FieldAt(s: string, from: nat, to: nat): Option<nat> {
    if from <= to <= |s| && AllDigits(s[from..to]) then Some(DigitsValue(s[from..to])) else None
  }

  /** Read the parts back from `YYYY-MM-DD HH:MM:SS`. */
  function ParseDateTime(s: string): Option<DateTime> {
    if |s| != 19 || s[4] != '-' || s[7] != '-' || s[10] != ' ' || s[13] != ':' || s[16] != ':' then None
    else
      match (FieldAt(s, 0, 4), FieldAt(s, 5, 7), FieldAt(s, 8, 10), FieldAt(s, 11, 13), FieldAt(s, 14, 16), FieldAt(s, 17, 19))
      case (Some(y), Some(mo), Some(d), Some(h), Some(mi), Some(se)) => Some(DateTime(y, mo, d, h, mi, se))
      case _ => None
  }

  lemma FourDigitYear(n: nat)
    requires 1000 <= n <= 9999
    ensures |NatToString(n)| == 4
  {
    assert Pow10(1) == 10 && Pow10(2) == 100 && Pow10(3) == 1000 && Pow10(4) == 10000;
    NatToStringLength(n, 4);
  }

  /** A formatted date is 19 characters long and reads back to the same parts. */
  lemma FormatDateTimeRoundTrip(d: DateTime)
    requires ValidDateTime(d)
    ensures |FormatDateTime(d)| == 19
    ensures ParseDateTime(FormatDateTime(d)) == Some(d)
  {
    var s := FormatDateTime(d);
    var y := NatToString(d.year);
    FourDigitYear(d.year);
    NatToStringValue(d.year);
    Pad2Value(d.month);
    Pad2Value(d.day);
    Pad2Value(d.hour);
    Pad2Value(d.minute);
    Pad2Value(d.second);
    assert s[0..4] == y;
    assert s[5..7] == Pad2(d.month);
    assert s[8..10] == Pad2(d.day);
    assert s[11..13] == Pad2(d.hour);
    assert s[14..16] == Pad2(d.minute);
    assert s[17..19] == Pad2(d.second);
  }

  // ---------------------------------------------------------------- ISO time of day

  /** `toISOString().split('T')[1].split('.')[0]`: the UTC clock time `HH:MM:SS` of a moment. */
  function UtcClock(t: int): string {
    var ms := t % DayMs;
    Pad2(ms / HourMs) + ":" + Pad2(ms % HourMs / MinuteMs) + ":" + Pad2(ms % MinuteMs / SecondMs)
  }

  /** The clock time is eight characters whose parts are the hour, minute and second of the day. */
  lemma UtcClockParts(t: int)
    ensures |UtcClock(t)| == 8
    ensures FieldAt(UtcClock(t), 0, 2) == Some((t % DayMs) / HourMs)
    ensures FieldAt(UtcClock(t), 3, 5) == Some((t % DayMs) % HourMs / MinuteMs)
    ensures FieldAt(UtcClock(t), 6, 8) == Some((t % DayMs) % MinuteMs / SecondMs)
  {
    assert SecondMs == 1000 && MinuteMs == 60000 && HourMs == 3600000 && DayMs == 86400000;
    var ms := t % 86400000;
    var h, m, s := ms / 3600000, ms % 3600000 / 60000, ms % 60000 / 1000;
    assert h < 24 && m < 60 && s < 60;
    var ph, pm, ps := Pad2(h), Pad2(m), Pad2(s);
    assert |ph| == 2 && |pm| == 2 && |ps| == 2;
    Pad2Value(h);
    Pad2Value(m);
    Pad2Value(s);
    var c := ph + ":" + pm + ":" + ps;
    assert UtcClock(t) == c;
    assert c[0..2] == ph;
    assert c[3..5] == pm;
    assert c[6..8] == ps;
  }

  /** Quotient and remainder by a day, from a decomposition with the remainder in range. */
  lemma DayDivMod(a: int, q: int, r: int)
    requires 0 <= r < 86400000 && a == q * 86400000 + r
    ensures a / 86400000 == q && a % 86400000 == r
  {
  }

  /** Quotient and remainder by an hour, from a decomposition with the remainder in range. */
  lemma HourDivMod(a: int, q: int, r: int)
    requires 0 <= r < 3600000 && a == q * 3600000 + r
    ensures a / 3600000 == q && a % 3600000 == r
  {
  }

  /** Twelve hours later the clock shows the same minutes and seconds, twelve hours on, modulo a day. */
  lemma TwelveHoursLater(t: int)
    ensures (t + 12 * HourMs) % DayMs / HourMs == ((t % DayMs) / HourMs + 12) % 24
    ensures (t + 12 * HourMs) % DayMs % HourMs == (t % DayMs) % HourMs
  {
    assert HourMs == 3600000 && DayMs == 86400000;
    var ms := t % 86400000;
    var h := ms / 3600000;
    var r := ms % 3600000;
    var k := t / 86400000;
    HourDivMod(ms, h, r);
    DayDivMod(t, k, ms);
    var later := t + 43200000;
    if h < 12 {
      DayDivMod(later, k, (h + 12) * 3600000 + r);
      HourDivMod(later % 86400000, h + 12, r);
    } else {
      DayDivMod(later, k + 1, (h - 12) * 3600000 + r);
      HourDivMod(later % 86400000, h - 12, r);
    }
  }
}
