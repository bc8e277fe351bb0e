/**
 * The part of Python's `datetime` that the calendar code uses.
 *
 * A datetime is a wall-clock reading in microseconds since
 * 0001-01-01T00:00:00 on its own clock, with an optional UTC offset in
 * minutes (None for a "naive" datetime). Dates follow the proleptic
 * Gregorian calendar of years 1 to 9999, as Python's do; arithmetic that
 * leaves that range is Python's OverflowError, here None.
 */
module Chrono {
  import opened Text

  const SecondMicros: int := 1000000
  const MinuteMicros: int := 60000000
  const HourMicros: int := 3600000000
  const DayMicros: int := 86400000000

  // ---------------------------------------------------------------------
  // Civil calendar

  predicate IsLeap(y: int) {
    y % 4 == 0 && (y % 100 != 0 || y % 400 == 0)
  }

  function DaysInYear(y: int): int {
    if IsLeap(y) then 366 else 365
  }

  function DaysInMonth(y: int, m: int): int
    requires 1 <= m <= 12
  {
    if m == 2 then (if IsLeap(y) then 29 else 28)
    else if m == 4 || m == 6 || m == 9 || m == 11 then 30
    else 31
  }

  /** Days from 0001-01-01 to the first day of year `y` (Python's `_days_before_year`). */
  function DaysBeforeYear(y: int): int
    requires y >= 1
  {
    var p := y - 1;
    365 * p + p / 4 - p / 100 + p / 400
  }

  /** Days from the first of January to the first of month `m`; month 13 stands for the next year. */
  function DaysBeforeMonth(y: int, m: int): int
    requires 1 <= m <= 13
  {
    [0, 31, 59, 90, 120, 151, 181, 212, 243, 273, 304, 334, 365][m - 1]
      + (if m > 2 && IsLeap(y) then 1 else 0)
  }

  /** The first day number after 9999-12-31. */
  const MaxOrdinal: int := 3652059

  datatype Date = Date(year: int, month: int, day: int)

  predicate ValidDate(d: Date) {
    1 <= d.year <= 9999 && 1 <= d.month <= 12 && 1 <= d.day <= DaysInMonth(d.year, d.month)
  }

  /** Day number of a date, 0 being 0001-01-01 (Python's `toordinal() - 1`). */
  function Ordinal(d: Date): int
    requires ValidDate(d)
  {
    DaysBeforeYear(d.year) + DaysBeforeMonth(d.year, d.month) + d.day - 1
  }

  lemma DivStep(y: int, d: int)
    requires d == 4 || d == 100 || d == 400
    ensures y / d - (y - 1) / d == if y % d == 0 then 1 else 0
  {
  }

  lemma YearStep(y: int)
    requires y >= 1
    ensures DaysBeforeYear(y + 1) == DaysBeforeYear(y) + DaysInYear(y)
  {
    DivStep(y, 4);
    DivStep(y, 100);
    DivStep(y, 400);
    DivisorChain(y);
    assert DaysBeforeYear(y + 1) - DaysBeforeYear(y)
      == 365 + (y / 4 - (y - 1) / 4) - (y / 100 - (y - 1) / 100) + (y / 400 - (y - 1) / 400);
  }

  lemma DivisorChain(y: int)
    ensures y % 100 == 0 ==> y % 4 == 0
    ensures y % 400 == 0 ==> y % 100 == 0
  {
    CenturyLeap(y);
    QuadCentury(y);
  }

  lemma CenturyLeap(y: int)
    ensures y % 100 == 0 ==> y % 4 == 0
  {
    if y % 100 == 0 {
      assert y == (y / 100 * 25) * 4;
    }
  }

  lemma QuadCentury(y: int)
    ensures y % 400 == 0 ==> y % 100 == 0
  {
    if y % 400 == 0 {
      assert y == (y / 400 * 4) * 100;
    }
  }

  lemma MonthStep(y: int, m: int)
    requires 1 <= m <= 12
    ensures DaysBeforeMonth(y, m + 1) == DaysBeforeMonth(y, m) + DaysInMonth(y, m)
    ensures DaysBeforeMonth(y, 13) == DaysInYear(y)
  {
  }

  lemma {:induction false} YearMonotone(a: int, b: int)
    requires 1 <= a < b
    ensures DaysBeforeYear(a + 1) <= DaysBeforeYear(b)
    decreases b - a
  {
    YearStep(a);
    if a + 1 < b {
      YearMonotone(a + 1, b);
      YearStep(a + 1);
    }
  }

  lemma {:induction false} MonthMonotone(y: int, a: int, b: int)
    requires 1 <= a < b <= 13
    ensures DaysBeforeMonth(y, a + 1) <= DaysBeforeMonth(y, b)
    decreases b - a
  {
    if a + 1 < b {
      MonthMonotone(y, a + 1, b);
      MonthStep(y, a + 1);
    }
  }

  lemma MaxOrdinalValue()
    ensures DaysBeforeYear(10000) == MaxOrdinal
  {
  }

  function YearSearch(n: int, y: int): (r: int)
    requires 1 <= y <= 9999 && DaysBeforeYear(y) <= n < MaxOrdinal
    decreases 9999 - y
    ensures y <= r <= 9999 && DaysBeforeYear(r) <= n < DaysBeforeYear(r + 1)
  {
    YearStep(y);
    MaxOrdinalValue();
    if n < DaysBeforeYear(y + 1) then y
    else YearSearch(n, y + 1)
  }

  function MonthSearch(y: int, r: int, m: int): (res: int)
    requires 1 <= m <= 12 && DaysBeforeMonth(y, m) <= r < DaysInYear(y)
    decreases 12 - m
    ensures m <= res <= 12 && DaysBeforeMonth(y, res) <= r < DaysBeforeMonth(y, res + 1)
  {
    MonthStep(y, m);
    if r < DaysBeforeMonth(y, m + 1) then m
    else MonthSearch(y, r, m + 1)
  }

  /** The date with day number `n` (Python's `date.fromordinal(n + 1)`). */
  function DateOf(n: int): (d: Date)
    requires 0 <= n < MaxOrdinal
    ensures ValidDate(d) && Ordinal(d) == n
  {
    var y := YearSearch(n, 1);
    YearStep(y);
    var m := MonthSearch(y, n - DaysBeforeYear(y), 1);
    MonthStep(y, m);
    Date(y, m, n - DaysBeforeYear(y) - DaysBeforeMonth(y, m) + 1)
  }

  lemma OrdinalRange(d: Date)
    requires ValidDate(d)
    ensures 0 <= Ordinal(d) < MaxOrdinal
    ensures DaysBeforeYear(d.year) <= Ordinal(d) < DaysBeforeYear(d.year + 1)
  {
    MonthStep(d.year, d.month);
    if d.month < 12 {
      MonthMonotone(d.year, d.month, 13);
    }
    YearStep(d.year);
    if d.year < 9999 {
      YearMonotone(d.year, 10000);
    }
    MaxOrdinalValue();
  }

  /** Distinct valid dates have distinct day numbers. */
  lemma OrdinalInjective(a: Date, b: Date)
    requires ValidDate(a) && ValidDate(b) && Ordinal(a) == Ordinal(b)
    ensures a == b
  {
    OrdinalRange(a);
    OrdinalRange(b);
    if a.year < b.year {
      YearMonotone(a.year, b.year);
    } else if b.year < a.year {
      YearMonotone(b.year, a.year);
    }
    assert a.year == b.year;
    MonthStep(a.year, a.month);
    MonthStep(b.year, b.month);
    if a.month < b.month {
      MonthMonotone(a.year, a.month, b.month);
    } else if b.month < a.month {
      MonthMonotone(a.year, b.month, a.month);
    }
  }

  /** Day numbers and valid dates are in one-to-one correspondence. */
  lemma DateOfOrdinal(d: Date)
    requires ValidDate(d)
    ensures 0 <= Ordinal(d) < MaxOrdinal && DateOf(Ordinal(d)) == d
  {
    OrdinalRange(d);
    OrdinalInjective(DateOf(Ordinal(d)), d);
  }

  /** The calendar date after `d`: the next day of its month, else the first of the next month, else New Year's Day. */
  function NextDate(d: Date): Date
    requires ValidDate(d)
  {
    if d.day < DaysInMonth(d.year, d.month) then Date(d.year, d.month, d.day + 1)
    else if d.month < 12 then Date(d.year, d.month + 1, 1)
    else Date(d.year + 1, 1, 1)
  }

  /** Below the last day number, the next day number is that of the next calendar date. */
  lemma NextOrdinal(d: Date)
    requires ValidDate(d) && Ordinal(d) + 1 < MaxOrdinal
    ensures ValidDate(NextDate(d)) && Ordinal(NextDate(d)) == Ordinal(d) + 1
  {
    MonthStep(d.year, d.month);
    if d.day == DaysInMonth(d.year, d.month) && d.month == 12 {
      YearStep(d.year);
      MaxOrdinalValue();
    }
  }

  // ---------------------------------------------------------------------
  // Datetimes

  /** A wall-clock reading within years 1 to 9999. */
  predicate InRange(w: int) {
    0 <= w < MaxOrdinal * DayMicros
  }

  /** A UTC offset in minutes, strictly within a day as Python requires. */
  predicate ValidOffset(o: int) {
    -1440 < o < 1440
  }

  datatype DateTime = DateTime(wall: int, offset: Option<int>)
  {
    predicate Valid() {
      InRange(wall) && (offset.Some? ==> ValidOffset(offset.value))
    }

    predicate Aware() {
      offset.Some?
    }
  }

  /** `dt + timedelta(microseconds=delta)`, failing outside Python's range. */
  function Shift(dt: DateTime, delta: int): (r: Option<DateTime>)
    ensures r.Some? <==> InRange(dt.wall + delta)
    ensures r.Some? ==> r.value == DateTime(dt.wall + delta, dt.offset)
  {
    if InRange(dt.wall + delta) then Some(DateTime(dt.wall + delta, dt.offset)) else None
  }

  /** `dt + timedelta(days=1)` keeps the time of day and the offset, and falls on the next calendar date. */
  lemma ShiftDay(dt: DateTime)
    requires dt.Valid() && Shift(dt, DayMicros).Some?
    ensures DateOf(DayOf(Shift(dt, DayMicros).value.wall)) == NextDate(DateOf(DayOf(dt.wall)))
    ensures ClockOf(Shift(dt, DayMicros).value.wall) == ClockOf(dt.wall)
    ensures Shift(dt, DayMicros).value.offset == dt.offset
  {
    NextDayOf(dt.wall);
    assert DayOf(Shift(dt, DayMicros).value.wall) == DayOf(dt.wall) + 1;
    NextDateOf(DayOf(dt.wall));
  }

  lemma NextDateOf(n: int)
    requires 0 <= n && n + 1 < MaxOrdinal
    ensures DateOf(n + 1) == NextDate(DateOf(n))
  {
    NextOrdinal(DateOf(n));
    DateOfOrdinal(NextDate(DateOf(n)));
  }

  lemma NextDayOf(w: int)
    ensures DayOf(w + DayMicros) == DayOf(w) + 1 && ClockOf(w + DayMicros) == ClockOf(w)
  {
    assert w + DayMicros == (DayOf(w) + 1) * DayMicros + ClockOf(w);
  }

  /**
   * `dt.astimezone(timezone.utc)`: an aware value is moved by its own
   * offset, a naive one by the machine's local offset.
   */
  function ToUtc(dt: DateTime, localOffset: int): (r: Option<DateTime>)
    ensures r.Some? ==> r.value.offset == Some(0)
    ensures r.Some? ==> r.value.wall == dt.wall - (if dt.Aware() then dt.offset.value else localOffset) * MinuteMicros
    ensures r.Some? <==> InRange(dt.wall - (if dt.Aware() then dt.offset.value else localOffset) * MinuteMicros)
  {
    var off := if dt.Aware() then dt.offset.value else localOffset;
    var w := dt.wall - off * MinuteMicros;
    if InRange(w) then Some(DateTime(w, Some(0))) else None
  }

  /**
   * `astimezone(timezone.utc)` keeps the instant, naive or aware; converted
   * values compare by those instants without raising, and converting again
   * changes nothing.
   */
  lemma UtcKeepsInstant(a: DateTime, b: DateTime, localOffset: int)
    requires ToUtc(a, localOffset).Some? && ToUtc(b, localOffset).Some?
    ensures Instant(ToUtc(a, localOffset).value, 0) == Instant(a, localOffset)
    ensures Less(ToUtc(a, localOffset).value, ToUtc(b, localOffset).value) == Some(Instant(a, localOffset) < Instant(b, localOffset))
    ensures ToUtc(ToUtc(a, localOffset).value, localOffset) == ToUtc(a, localOffset)
  {
  }

  /** The instant a datetime stands for, in UTC microseconds; naive values are read as local time. */
  function Instant(dt: DateTime, localOffset: int): int {
    dt.wall - (if dt.Aware() then dt.offset.value else localOffset) * MinuteMicros
  }

  /** Python's ordering comparison `a < b`: None when one is naive and the other aware (TypeError). */
  function Less(a: DateTime, b: DateTime): (r: Option<bool>)
    ensures r.None? <==> a.Aware() != b.Aware()
    ensures r.Some? ==> r.value == (Instant(a, 0) < Instant(b, 0))
  {
    if a.Aware() != b.Aware() then None
    else Some(Instant(a, 0) < Instant(b, 0))
  }

  // ---------------------------------------------------------------------
  // Rendering

  function DayOf(w: int): int { w / DayMicros }

  /** `date.isoformat()`: "YYYY-MM-DD". */
  function FormatDate(n: int): (s: string)
    requires 0 <= n < MaxOrdinal
    ensures |s| == 10
  {
    var d := DateOf(n);
    PadDigits(d.year, 4) + "-" + PadDigits(d.month, 2) + "-" + PadDigits(d.day, 2)
  }

  /** "HH:MM:SS" of a time of day given in microseconds. */
  function FormatClock(t: int): (s: string)
    requires 0 <= t < DayMicros
    ensures |s| == 8
  {
    PadDigits(t / HourMicros, 2) + ":" + PadDigits(t % HourMicros / MinuteMicros, 2) + ":"
      + PadDigits(t % MinuteMicros / SecondMicros, 2)
  }

  /** `strftime('%Y-%m-%dT%H:%M:%S.000Z')` of a wall-clock reading: the fraction is dropped, not rounded. */
  function StrftimeZ(w: int): (s: string)
    requires InRange(w)
    ensures |s| == 24 && s[10] == 'T' && s[19..] == ".000Z"
  {
    FormatDate(DayOf(w)) + "T" + FormatClock(w % DayMicros) + ".000Z"
  }

  /** The "+HH:MM" / "-HH:MM" suffix of an aware `isoformat()`. */
  function FormatOffset(o: int): (s: string)
    requires ValidOffset(o)
    ensures |s| == 6
  {
    var a := if o < 0 then -o else o;
    (if o < 0 then "-" else "+") + PadDigits(a / 60, 2) + ":" + PadDigits(a % 60, 2)
  }

  /** The time part of `isoformat()`: "HH:MM:SS", then ".ffffff" when the fraction is not zero, then the offset if any. */
  function IsoTime(t: int, offset: Option<int>): string
    requires 0 <= t < DayMicros && (offset.Some? ==> ValidOffset(offset.value))
  {
    FormatClock(t)
      + (if t % SecondMicros != 0 then "." + PadDigits(t % SecondMicros, 6) else "")
      + (if offset.Some? then FormatOffset(offset.value) else "")
  }

  /** `datetime.isoformat()`: the date, a 'T' and the time part. */
  function IsoFormat(dt: DateTime): string
    requires dt.Valid()
  {
    FormatDate(DayOf(dt.wall)) + "T" + IsoTime(dt.wall % DayMicros, dt.offset)
  }

  // ---------------------------------------------------------------------
  // Parsing

  /** Exactly "YYYY-MM-DD" naming a valid date: its day number. */
  function ParseIsoDate(s: string): (r: Option<int>)
    ensures r.Some? ==> 0 <= r.value < MaxOrdinal
  {
    if |s| == 10 && AllDigits(s[..4]) && s[4] == '-' && AllDigits(s[5..7]) && s[7] == '-' && AllDigits(s[8..])
    then
      var d := Date(DigitsValue(s[..4]), DigitsValue(s[5..7]), DigitsValue(s[8..]));
      if ValidDate(d) then OrdinalRange(d); Some(Ordinal(d)) else None
    else None
  }

  /** A two-digit field at `s[i..i+2]` no greater than `max`. */
  function Field2(s: string, i: int, max: int): (r: Option<int>)
    requires 0 <= i
    ensures r.Some? ==> 0 <= r.value <= max
  {
    if i + 2 <= |s| && AllDigits(s[i..i + 2]) && DigitsValue(s[i..i + 2]) <= max
    then Some(DigitsValue(s[i..i + 2])) else None
  }

  /** "HH", "HH:MM", "HH:MM:SS", "HH:MM:SS.fff" or "HH:MM:SS.ffffff": microseconds since midnight. */
  function ParseClock(c: string): (r: Option<int>)
    ensures r.Some? ==> 0 <= r.value < DayMicros
  {
    var h := Field2(c, 0, 23);
    var m := Field2(c, 3, 59);
    var sec := Field2(c, 6, 59);
    if h.None? then None
    else if |c| == 2 then Some(h.value * HourMicros)
    else if c[2] != ':' || m.None? then None
    else if |c| == 5 then Some(h.value * HourMicros + m.value * MinuteMicros)
    else if c[5] != ':' || sec.None? then None
    else
      var base := h.value * HourMicros + m.value * MinuteMicros + sec.value * SecondMicros;
      if |c| == 8 then Some(base)
      else if c[8] == '.' && |c| == 12 && AllDigits(c[9..]) then
        PadBound(c[9..]);
        Some(base + DigitsValue(c[9..]) * 1000)
      else if c[8] == '.' && |c| == 15 && AllDigits(c[9..]) then
        PadBound(c[9..]);
        Some(base + DigitsValue(c[9..]))
      else None
  }

  lemma {:induction false} DigitsBound(s: string)
    requires AllDigits(s)
    ensures DigitsValue(s) < Pow10(|s|)
  {
    if s != [] {
      DigitsBound(s[..|s| - 1]);
    }
  }

  lemma PadBound(s: string)
    requires AllDigits(s) && (|s| == 3 || |s| == 6)
    ensures DigitsValue(s) < (if |s| == 3 then 1000 else 1000000)
  {
    DigitsBound(s);
  }

  /** "+HH:MM" or "-HH:MM": the offset in minutes. */
  function ParseOffset(z: string): (r: Option<int>)
    ensures r.Some? ==> ValidOffset(r.value)
  {
    var h := Field2(z, 1, 23);
    var m := Field2(z, 4, 59);
    if |z| == 6 && (z[0] == '+' || z[0] == '-') && z[3] == ':' && h.Some? && m.Some? then
      var a := h.value * 60 + m.value;
      Some(if z[0] == '-' then -a else a)
    else None
  }

  /** Position of the first '+' or '-' in `t`, or |t| when there is none. */
  function SignPos(t: string, k: nat): (p: nat)
    requires k <= |t|
    decreases |t| - k
    ensures k <= p <= |t|
    ensures forall i :: k <= i < p ==> t[i] != '+' && t[i] != '-'
    ensures p < |t| ==> t[p] == '+' || t[p] == '-'
  {
    if k == |t| || t[k] == '+' || t[k] == '-' then k else SignPos(t, k + 1)
  }

  /** The time part after the date and its separator: clock, then an optional offset. */
  function ParseIsoTime(t: string): (r: Option<(int, Option<int>)>)
    ensures r.Some? ==> 0 <= r.value.0 < DayMicros
    ensures r.Some? && r.value.1.Some? ==> ValidOffset(r.value.1.value)
  {
    var p := SignPos(t, 0);
    var clock := ParseClock(t[..p]);
    if clock.None? then None
    else if p == |t| then Some((clock.value, None))
    else
      var off := ParseOffset(t[p..]);
      if off.None? then None else Some((clock.value, Some(off.value)))
  }

  /**
   * `datetime.fromisoformat(s)`, in the grammar of Python 3.7 to 3.10:
   * "YYYY-MM-DD", optionally followed by any one separator character, a
   * clock and a "+HH:MM"/"-HH:MM" offset. A trailing "Z" is not accepted.
   */
  function FromIsoFormat(s: string): (r: Option<DateTime>)
    ensures r.Some? ==> r.value.Valid()
  {
    if |s| < 10 then None
    else
      var day := ParseIsoDate(s[..10]);
      if day.None? then None
      else if |s| == 10 then Some(DateTime(day.value * DayMicros, None))
      else
        var time := ParseIsoTime(s[11..]);
        if time.None? then None
        else Some(DateTime(day.value * DayMicros + time.value.0, time.value.1))
  }

  /** `datetime.fromisoformat(s.replace('Z', '+00:00'))`, the form the calendar code reads event times with. */
  function FromIsoZ(s: string): (r: Option<DateTime>)
    ensures r.Some? ==> r.value.Valid()
  {
    FromIsoFormat(Replace(s, "Z", "+00:00"))
  }

  // ---------------------------------------------------------------------
  // Round trips

  lemma Pad2Value(n: int)
    requires 0 <= n < 100
    ensures DigitsValue(PadDigits(n, 2)) == n
  {
    PadDigitsValue(n, 2);
  }

  /** Reading back a rendered date gives the day number it was rendered from. */
  lemma FormatDateRoundTrip(n: int)
    requires 0 <= n < MaxOrdinal
    ensures ParseIsoDate(FormatDate(n)) == Some(n)
  {
    var d := DateOf(n);
    var s := FormatDate(n);
    var ys, ms, ds := PadDigits(d.year, 4), PadDigits(d.month, 2), PadDigits(d.day, 2);
    assert s == ys + "-" + ms + "-" + ds;
    assert s[..4] == ys && s[5..7] == ms && s[8..] == ds;
    PadDigitsValue(d.year, 4);
    Pad2Value(d.month);
    Pad2Value(d.day);
  }

  lemma ClockFields(t: int)
    requires 0 <= t < DayMicros
    ensures 0 <= t / HourMicros < 24 && 0 <= t % HourMicros / MinuteMicros < 60 && 0 <= t % MinuteMicros / SecondMicros < 60
    ensures t / HourMicros * HourMicros + t % HourMicros / MinuteMicros * MinuteMicros
            + t % MinuteMicros / SecondMicros * SecondMicros + t % SecondMicros == t
  {
  }

  /** The layout of "HH:MM:SS" built from three two-digit fields. */
  lemma ClockLayout(a: string, b: string, e: string)
    requires |a| == 2 && |b| == 2 && |e| == 2 && AllDigits(a) && AllDigits(b) && AllDigits(e)
    ensures var f := a + ":" + b + ":" + e;
      f[0..2] == a && f[3..5] == b && f[6..8] == e && f[2] == ':' && f[5] == ':'
      && forall i :: 0 <= i < 8 ==> f[i] == ':' || IsDigit(f[i])
  {
    var f := a + ":" + b + ":" + e;
    forall i | 0 <= i < 8 ensures f[i] == ':' || IsDigit(f[i]) {
      if i < 2 { assert f[i] == a[i]; }
      else if 3 <= i < 5 { assert f[i] == b[i - 3]; }
      else if 6 <= i { assert f[i] == e[i - 6]; }
    }
  }

  /** A text that opens with a rendered clock: its three fields read back, and it holds no sign or 'Z' there. */
  lemma ClockHead(c: string, t: int)
    requires 0 <= t < DayMicros && |c| >= 8 && c[..8] == FormatClock(t)
    ensures Field2(c, 0, 23) == Some(t / HourMicros)
    ensures Field2(c, 3, 59) == Some(t % HourMicros / MinuteMicros)
    ensures Field2(c, 6, 59) == Some(t % MinuteMicros / SecondMicros)
    ensures c[2] == ':' && c[5] == ':'
    ensures forall i :: 0 <= i < 8 ==> c[i] != '+' && c[i] != '-' && c[i] != 'Z'
  {
    var h, m, sec := t / HourMicros, t % HourMicros / MinuteMicros, t % MinuteMicros / SecondMicros;
    ClockFields(t);
    var f := FormatClock(t);
    ClockLayout(PadDigits(h, 2), PadDigits(m, 2), PadDigits(sec, 2));
    assert forall i :: 0 <= i < 8 ==> c[i] == f[i];
    assert c[0..2] == f[0..2] && c[3..5] == f[3..5] && c[6..8] == f[6..8];
    Pad2Field(c, 0, h, 23);
    Pad2Field(c, 3, m, 59);
    Pad2Field(c, 6, sec, 59);
  }

  /** `ParseClock` on a text whose three fields are well formed, by its length. */
  lemma ParseClockFields(c: string, h: int, m: int, sec: int)
    requires |c| >= 8 && c[2] == ':' && c[5] == ':'
    requires Field2(c, 0, 23) == Some(h) && Field2(c, 3, 59) == Some(m) && Field2(c, 6, 59) == Some(sec)
    ensures |c| == 8 ==> ParseClock(c) == Some(h * HourMicros + m * MinuteMicros + sec * SecondMicros)
    ensures |c| == 12 && c[8] == '.' && AllDigits(c[9..]) ==>
      ParseClock(c) == Some(h * HourMicros + m * MinuteMicros + sec * SecondMicros + DigitsValue(c[9..]) * 1000)
    ensures |c| == 15 && c[8] == '.' && AllDigits(c[9..]) ==>
      ParseClock(c) == Some(h * HourMicros + m * MinuteMicros + sec * SecondMicros + DigitsValue(c[9..]))
  {
  }

  /** `ParseClock` on a text that opens with a rendered clock, by its length. */
  lemma ClockHeadParse(c: string, t: int)
    requires 0 <= t < DayMicros && |c| >= 8 && c[..8] == FormatClock(t)
    ensures |c| == 8 ==> ParseClock(c) == Some(t - t % SecondMicros)
    ensures |c| == 12 && c[8] == '.' && AllDigits(c[9..]) ==>
      ParseClock(c) == Some(t - t % SecondMicros + DigitsValue(c[9..]) * 1000)
    ensures |c| == 15 && c[8] == '.' && AllDigits(c[9..]) ==>
      ParseClock(c) == Some(t - t % SecondMicros + DigitsValue(c[9..]))
  {
    ClockHead(c, t);
    ParseClockFields(c, t / HourMicros, t % HourMicros / MinuteMicros, t % MinuteMicros / SecondMicros);
    ClockFields(t);
  }

  /** Reading back "HH:MM:SS" gives the time of day without its fraction of a second. */
  lemma FormatClockRoundTrip(t: int)
    requires 0 <= t < DayMicros
    ensures ParseClock(FormatClock(t)) == Some(t - t % SecondMicros)
  {
    assert FormatClock(t)[..8] == FormatClock(t);
    ClockHeadParse(FormatClock(t), t);
  }

  /** Reading back "HH:MM:SS.ffffff" gives the time of day exactly. */
  lemma FormatClockFractionRoundTrip(t: int)
    requires 0 <= t < DayMicros
    ensures ParseClock(FormatClock(t) + "." + PadDigits(t % SecondMicros, 6)) == Some(t)
  {
    var f := PadDigits(t % SecondMicros, 6);
    ConcatParts(FormatClock(t), ".", f);
    ClockHeadParse(FormatClock(t) + "." + f, t);
    PadDigitsValue(t % SecondMicros, 6);
  }

  /** `t` truncated to the second. */
  function Whole(t: int): int { t - t % SecondMicros }

  /** Reading back "HH:MM:SS.000" gives the time of day without its fraction of a second. */
  lemma FormatClockMillisRoundTrip(t: int)
    requires 0 <= t < DayMicros
    ensures ParseClock(FormatClock(t) + ".000") == Some(Whole(t))
  {
    var full := FormatClock(t) + ".000";
    assert full[..8] == FormatClock(t) && full[8] == '.' && full[9..] == "000";
    assert PadDigits(0, 3) == "000";
    PadDigitsValue(0, 3);
    assert DigitsValue(full[9..]) == 0;
    ClockHeadParse(full, t);
  }

  /** A two-digit rendering of `n` at position `i` reads back as the field `n`. */
  lemma Pad2Field(z: string, i: nat, n: int, max: int)
    requires 0 <= n < 100 && n <= max && i + 2 <= |z| && z[i..i + 2] == PadDigits(n, 2)
    ensures Field2(z, i, max) == Some(n)
  {
    Pad2Value(n);
  }

  /** Reading back a rendered offset gives the offset in minutes. */
  lemma FormatOffsetRoundTrip(o: int)
    requires ValidOffset(o)
    ensures ParseOffset(FormatOffset(o)) == Some(o)
  {
    var a := if o < 0 then -o else o;
    var hh, mm := a / 60, a % 60;
    assert a == hh * 60 + mm && 0 <= hh <= 23 && 0 <= mm < 60 by {
      assert 0 <= a < 1440;
    }
    var z := FormatOffset(o);
    assert z[1..3] == PadDigits(hh, 2) && z[4..6] == PadDigits(mm, 2) && z[3] == ':'
      && z[0] == (if o < 0 then '-' else '+');
    Pad2Field(z, 1, hh, 23);
    Pad2Field(z, 4, mm, 59);
  }

  /** `ParseIsoTime` from its two parts: the clock before the first sign and the offset from it on. */
  lemma ParseIsoTimeParts(tail: string, p: int, clock: int, off: Option<int>)
    requires 0 <= p <= |tail| && SignPos(tail, 0) == p && ParseClock(tail[..p]) == Some(clock)
    requires p == |tail| ==> off.None?
    requires p < |tail| ==> off.Some? && ParseOffset(tail[p..]) == off
    ensures ParseIsoTime(tail) == Some((clock, off))
  {
  }

  /** `FromIsoFormat` from its two parts: the date and the time after the separator. */
  lemma FromIsoFormatParts(s: string, day: int, clock: int, off: Option<int>, w: int)
    requires |s| > 10 && ParseIsoDate(s[..10]) == Some(day) && ParseIsoTime(s[11..]) == Some((clock, off))
    requires w == day * DayMicros + clock
    ensures FromIsoFormat(s) == Some(DateTime(w, off))
  {
  }

  lemma SignPosAt(t: string, p: int)
    requires 0 <= p <= |t|
    requires p < |t| ==> t[p] == '+' || t[p] == '-'
    requires forall i :: 0 <= i < p ==> t[i] != '+' && t[i] != '-'
    ensures SignPos(t, 0) == p
  {
    var q := SignPos(t, 0);
  }

  lemma NoCharNotContained(s: string, c: char)
    requires forall i :: 0 <= i < |s| ==> s[i] != c
    ensures !Contains(s, [c])
  {
    forall j ensures !OccursAt(s, [c], j) {
      if 0 <= j && j + 1 <= |s| {
        assert s[j..j + 1][0] == s[j];
      }
    }
  }

  /** Replacing a one-character pattern that occurs only at the very end. */
  lemma ReplaceLast(s: string, pat: string, rep: string)
    requires |pat| == 1 && !Contains(s, pat)
    ensures Replace(s + pat, pat, rep) == s + rep
  {
    var full := s + pat;
    assert OccursAt(full, pat, |s|);
    var f := Find(full, pat);
    var j := f.value;
    if j < |s| {
      assert s[j..j + 1] == full[j..j + 1] == pat;
      ContainsAt(s, pat, j);
    }
    assert full[..j] == s;
    assert full[|s| + 1..] == "";
    assert Split("", pat) == [""];
    assert Split(full, pat) == [s, ""];
    assert Join([s, ""], rep) == s + rep;
  }

  /**
   * `fromisoformat(strftime('%Y-%m-%dT%H:%M:%S.000Z').replace('Z', '+00:00'))`
   * gives back the UTC instant, truncated to the second.
   */
  lemma StrftimeZRoundTrip(w: int)
    requires InRange(w)
    ensures FromIsoZ(StrftimeZ(w)) == Some(DateTime(w - w % SecondMicros, Some(0)))
  {
    StrftimeZReplaced(w);
    StrftimeZDatePart(w);
    StrftimeZTimePart(w);
    StrftimeZRead(OffsetForm(w), w);
  }

  /** What `replace('Z', '+00:00')` makes of a `StrftimeZ` rendering. */
  function OffsetForm(w: int): string
    requires InRange(w)
  {
    FormatDate(DayOf(w)) + "T" + (FormatClock(ClockOf(w)) + ".000+00:00")
  }

  /** The time of day of the instant `w`. */
  function ClockOf(w: int): (t: int)
    ensures 0 <= t < DayMicros
  {
    w % DayMicros
  }

  lemma ConcatParts(a: string, b: string, c: string)
    ensures (a + b + c)[..|a|] == a && (a + b + c)[|a| + |b|..] == c
    ensures (a + b + c)[..|a| + |b|] == a + b
    ensures |b| == 1 ==> (a + b + c)[|a|] == b[0]
  {
  }

  lemma StrftimeZReplaced(w: int)
    requires InRange(w)
    ensures Replace(StrftimeZ(w), "Z", "+00:00") == OffsetForm(w)
  {
    var date := FormatDate(DayOf(w));
    var clock := FormatClock(ClockOf(w));
    var head := date + "T" + clock + ".000";
    assert StrftimeZ(w) == head + "Z";
    StrftimeHeadNoZ(date, clock, ClockOf(w), DayOf(w));
    ReplaceLast(head, "Z", "+00:00");
  }

  lemma StrftimeZDatePart(w: int)
    requires InRange(w)
    ensures |OffsetForm(w)| > 10 && ParseIsoDate(OffsetForm(w)[..10]) == Some(DayOf(w))
  {
    ConcatParts(FormatDate(DayOf(w)), "T", FormatClock(ClockOf(w)) + ".000+00:00");
    FormatDateRoundTrip(DayOf(w));
  }

  lemma StrftimeZTimePart(w: int)
    requires InRange(w)
    ensures ParseIsoTime(OffsetForm(w)[11..]) == Some((Whole(ClockOf(w)), Some(0)))
  {
    OffsetTail(OffsetForm(w), FormatDate(DayOf(w)) + "T", ClockOf(w));
  }

  /** Past the date and the `T`, the UTC rendering reads as the clock truncated to the second, at offset zero. */
  lemma OffsetTail(r: string, head: string, t: int)
    requires |head| == 11 && 0 <= t < DayMicros && r == head + (FormatClock(t) + ".000+00:00")
    ensures ParseIsoTime(r[11..]) == Some((Whole(t), Some(0)))
  {
    var c := FormatClock(t);
    assert r[11..] == c + ".000" + "+00:00";
    StrftimeTail(c + ".000" + "+00:00", c, t);
  }

  lemma StrftimeZRead(r: string, w: int)
    requires |r| > 10 && ParseIsoDate(r[..10]) == Some(DayOf(w))
    requires ParseIsoTime(r[11..]) == Some((Whole(ClockOf(w)), Some(0)))
    ensures FromIsoFormat(r) == Some(DateTime(w - w % SecondMicros, Some(0)))
  {
    TruncateToSecond(w);
    FromIsoFormatParts(r, DayOf(w), ClockOf(w) - ClockOf(w) % SecondMicros, Some(0), w - w % SecondMicros);
  }

  lemma StrftimeHeadNoZ(date: string, clock: string, t: int, n: int)
    requires 0 <= n < MaxOrdinal && date == FormatDate(n)
    requires 0 <= t < DayMicros && clock == FormatClock(t)
    ensures !Contains(date + "T" + clock + ".000", "Z")
  {
    var head := date + "T" + clock + ".000";
    DateDigits(n);
    assert head[11..][..8] == clock;
    ClockHead(head[11..], t);
    forall i | 0 <= i < |head| ensures head[i] != 'Z' {
      if i < 10 { assert head[i] == date[i]; }
      else if 11 <= i < 19 { assert head[i] == head[11..][i - 11]; }
    }
    NoCharNotContained(head, 'Z');
  }

  lemma StrftimeTail(tail: string, clock: string, t: int)
    requires 0 <= t < DayMicros && clock == FormatClock(t)
    requires tail == clock + ".000" + "+00:00"
    ensures ParseIsoTime(tail) == Some((Whole(t), Some(0)))
  {
    ConcatParts(clock, ".000", "+00:00");
    ClockHead(tail, t);
    SignPosAt(tail, 12);
    FormatClockMillisRoundTrip(t);
    assert "+00:00" == FormatOffset(0);
    FormatOffsetRoundTrip(0);
    ParseIsoTimeParts(tail, 12, Whole(t), Some(0));
  }

  lemma DateDigits(n: int)
    requires 0 <= n < MaxOrdinal
    ensures forall i :: 0 <= i < 10 ==> FormatDate(n)[i] == '-' || IsDigit(FormatDate(n)[i])
  {
    var d := DateOf(n);
    var ys, ms, ds := PadDigits(d.year, 4), PadDigits(d.month, 2), PadDigits(d.day, 2);
    assert FormatDate(n) == ys + "-" + ms + "-" + ds;
  }

  /** `fromisoformat(dt.isoformat()) == dt` for every representable datetime. */
  lemma IsoFormatRoundTrip(dt: DateTime)
    requires dt.Valid()
    ensures FromIsoFormat(IsoFormat(dt)) == Some(dt)
  {
    var t := dt.wall % DayMicros;
    var date := FormatDate(DayOf(dt.wall));
    var s := IsoFormat(dt);
    assert s[..10] == date && s[11..] == IsoTime(t, dt.offset);
    FormatDateRoundTrip(DayOf(dt.wall));
    IsoTimeTail(t, dt.offset);
    DayDecompose(dt.wall);
    FromIsoFormatParts(s, DayOf(dt.wall), t, dt.offset, dt.wall);
  }

  predicate NoZ(s: string) {
    forall i :: 0 <= i < |s| ==> s[i] != 'Z'
  }

  lemma NoZJoin(a: string, b: string)
    requires NoZ(a) && NoZ(b)
    ensures NoZ(a + b)
  {
    forall i | 0 <= i < |a + b| ensures (a + b)[i] != 'Z' {
      if i >= |a| { assert (a + b)[i] == b[i - |a|]; }
    }
  }

  lemma DigitsNoZ(s: string)
    requires AllDigits(s)
    ensures NoZ(s)
  {
  }

  lemma OffsetNoZ(o: int)
    requires ValidOffset(o)
    ensures NoZ(FormatOffset(o))
  {
    var a := if o < 0 then -o else o;
    var h, m := PadDigits(a / 60, 2), PadDigits(a % 60, 2);
    DigitsNoZ(h);
    DigitsNoZ(m);
    NoZJoin(if o < 0 then "-" else "+", h);
    NoZJoin((if o < 0 then "-" else "+") + h, ":");
    NoZJoin((if o < 0 then "-" else "+") + h + ":", m);
  }

  lemma IsoTimeNoZ(t: int, offset: Option<int>)
    requires 0 <= t < DayMicros && (offset.Some? ==> ValidOffset(offset.value))
    ensures NoZ(IsoTime(t, offset))
  {
    var clock := FormatClock(t);
    ClockHead(clock, t);
    var frac := if t % SecondMicros != 0 then "." + PadDigits(t % SecondMicros, 6) else "";
    if t % SecondMicros != 0 {
      DigitsNoZ(PadDigits(t % SecondMicros, 6));
      NoZJoin(".", PadDigits(t % SecondMicros, 6));
    }
    var off := if offset.Some? then FormatOffset(offset.value) else "";
    if offset.Some? {
      OffsetNoZ(offset.value);
    }
    NoZJoin(clock, frac);
    NoZJoin(clock + frac, off);
  }

  /** `isoformat()` never writes a 'Z'. */
  lemma IsoFormatNoZ(dt: DateTime)
    requires dt.Valid()
    ensures NoZ(IsoFormat(dt))
  {
    var date := FormatDate(DayOf(dt.wall));
    DateDigits(DayOf(dt.wall));
    var time := IsoTime(dt.wall % DayMicros, dt.offset);
    IsoTimeNoZ(dt.wall % DayMicros, dt.offset);
    assert NoZ(date) && NoZ("T");
    NoZJoin(date, "T");
    NoZJoin(date + "T", time);
  }

  /** What the calendar code reads back from an `isoformat()` text is the datetime itself. */
  lemma IsoFormatReadsBack(dt: DateTime)
    requires dt.Valid()
    ensures FromIsoZ(IsoFormat(dt)) == Some(dt)
  {
    IsoFormatNoZ(dt);
    NoCharNotContained(IsoFormat(dt), 'Z');
    ReplaceAbsent(IsoFormat(dt), "Z", "+00:00");
    IsoFormatRoundTrip(dt);
  }

  lemma TruncateToSecond(w: int)
    ensures DayOf(w) * DayMicros + (w % DayMicros - w % DayMicros % SecondMicros) == w - w % SecondMicros
  {
    DayDecompose(w);
    var q := w / DayMicros;
    var r := w % DayMicros;
    assert w == q * 86400 * SecondMicros + r;
    ModShift(r, q * 86400);
  }

  lemma ModShift(a: int, k: int)
    ensures (k * 1000000 + a) % 1000000 == a % 1000000
  {
    var b := a % 1000000;
    var c := a / 1000000;
    assert a == c * 1000000 + b;
    assert k * 1000000 + a == (k + c) * 1000000 + b;
  }

  lemma DayDecompose(w: int)
    ensures DayOf(w) * DayMicros + w % DayMicros == w
  {
  }

  /** The time part of `isoformat()` reads back as the time of day and the offset. */
  lemma IsoTimeTail(t: int, offset: Option<int>)
    requires 0 <= t < DayMicros && (offset.Some? ==> ValidOffset(offset.value))
    ensures ParseIsoTime(IsoTime(t, offset)) == Some((t, offset))
  {
    var frac := if t % SecondMicros != 0 then "." + PadDigits(t % SecondMicros, 6) else "";
    var tail := IsoTime(t, offset);
    var clock := FormatClock(t);
    var p := |clock + frac|;
    assert SignPos(tail, 0) == p by {
      assert tail[..8] == clock;
      ClockHead(tail, t);
      forall i | 8 <= i < p ensures tail[i] != '+' && tail[i] != '-' {
        assert i == 8 || IsDigit(PadDigits(t % SecondMicros, 6)[i - 9]);
        assert tail[i] == (clock + frac)[i];
      }
      if offset.Some? {
        assert tail[p] == FormatOffset(offset.value)[0];
      }
      SignPosAt(tail, p);
    }
    assert ParseClock(tail[..p]) == Some(t) by {
      if t % SecondMicros != 0 {
        assert tail[..p] == FormatClock(t) + "." + PadDigits(t % SecondMicros, 6);
        FormatClockFractionRoundTrip(t);
      } else {
        assert tail[..p] == clock;
        FormatClockRoundTrip(t);
        assert t - t % SecondMicros == t;
      }
    }
    if offset.Some? {
      assert tail[p..] == FormatOffset(offset.value);
      FormatOffsetRoundTrip(offset.value);
    }
    ParseIsoTimeParts(tail, p, t, offset);
  }

  // ---------------------------------------------------------------------
  // strptime

  /** What `%m` of `strptime` accepts: one or two digits naming a month ("1" to "9", "01" to "12"). */
  predicate MonthText(t: string) {
    1 <= |t| <= 2 && AllDigits(t) && 1 <= DigitsValue(t) <= 12
  }

  /** What `%d` accepts: one or two digits from 1 to 31, or a space followed by one digit from 1 to 9. */
  predicate DayText(t: string) {
    (1 <= |t| <= 2 && AllDigits(t) && 1 <= DigitsValue(t) <= 31)
    || (|t| == 2 && t[0] == ' ' && '1' <= t[1] <= '9')
  }

  function DayTextValue(t: string): int
    requires DayText(t)
  {
    if t[0] == ' ' then DigitValue(t[1]) else DigitsValue(t)
  }

  /** What `%H` accepts: one or two digits up to 23. */
  predicate HourText(t: string) {
    1 <= |t| <= 2 && AllDigits(t) && DigitsValue(t) <= 23
  }

  /** What `%M` accepts: one or two digits up to 59. */
  predicate MinuteText(t: string) {
    1 <= |t| <= 2 && AllDigits(t) && DigitsValue(t) <= 59
  }

  /** Position just past the `%d` field that starts at `r`: two characters for the " D" form, else up to the next white space. */
  function DayEnd(s: string, r: nat): (e: nat)
    requires r <= |s|
    ensures r <= e
  {
    if r < |s| && s[r] == ' ' then r + 2 else WordEnd(s, r)
  }

  /**
   * `strptime(s, "%Y-%m-%d")` when the date makes up all of `s`: four
   * digits, '-', a month text, '-', a day text, naming a valid date
   * (anything else is ValueError, here None). The result is a day number.
   */
  function StrptimeDate(s: string): (r: Option<int>)
    ensures r.Some? ==> 0 <= r.value < MaxOrdinal
  {
    if |s| < 5 || !AllDigits(s[..4]) || s[4] != '-' then None
    else
      match Find(s[5..], "-")
      case None => None
      case Some(i) =>
        var m, d := s[5..5 + i], s[6 + i..];
        if MonthText(m) && DayText(d) then
          var date := Date(DigitsValue(s[..4]), DigitsValue(m), DayTextValue(d));
          if ValidDate(date) then OrdinalRange(date); Some(Ordinal(date)) else None
        else None
  }

  /**
   * `strptime(date + "T" + f"{hour:02d}" + ":00:00.000Z", "%Y-%m-%dT%H:%M:%S.%fZ")`
   * as a wall-clock reading. The fixed suffix holds the only letters of
   * the text, so it lines up with the format's "T...Z" exactly when `date`
   * is a date text on its own, and `f"{hour:02d}"` is a `%H` text exactly
   * when 0 <= hour <= 23.
   */
  function StrptimeSlot(date: string, hour: int): (r: Option<int>)
    ensures r.Some? <==> StrptimeDate(date).Some? && 0 <= hour <= 23
    ensures r.Some? ==> r.value == StrptimeDate(date).value * DayMicros + hour * HourMicros && InRange(r.value)
  {
    match StrptimeDate(date)
    case None => None
    case Some(n) => if 0 <= hour <= 23 then Some(n * DayMicros + hour * HourMicros) else None
  }

  /** "%H:%M" making up all of `clock`: the time of day in microseconds. */
  function StrptimeClock(clock: string): (r: Option<int>)
    ensures r.Some? ==> 0 <= r.value < DayMicros
  {
    match Find(clock, ":")
    case None => None
    case Some(c) =>
      if HourText(clock[..c]) && MinuteText(clock[c + 1..])
      then Some(DigitsValue(clock[..c]) * HourMicros + DigitsValue(clock[c + 1..]) * MinuteMicros)
      else None
  }

  /**
   * `strptime(s, "%Y-%m-%d %H:%M")` as a wall-clock reading: the date,
   * at least one white-space character (the format's blank stands for
   * `\s+`), an hour text, ':' and a minute text ending the string.
   */
  function StrptimeMinute(s: string): (r: Option<int>)
    ensures r.Some? ==> InRange(r.value)
  {
    if |s| < 5 then None
    else
      match Find(s[5..], "-")
      case None => None
      case Some(i) =>
        var e := DayEnd(s, 6 + i);
        if e >= |s| || !IsSpace(s[e]) then None
        else
          match (StrptimeDate(s[..e]), StrptimeClock(TrimLeft(s[e..])))
          case (Some(n), Some(t)) => Some(n * DayMicros + t)
          case _ => None
  }

  /** The first occurrence of a one-character separator that follows a run of digits. */
  lemma FindAfterDigits(t: string, k: nat, c: char)
    requires k < |t| && AllDigits(t[..k]) && t[k] == c && !IsDigit(c)
    ensures Find(t, [c]) == Some(k)
  {
    assert OccursAt(t, [c], k);
    forall j | 0 <= j < k ensures !OccursAt(t, [c], j) {
      assert t[j] == t[..k][j];
    }
  }

  /** How `strptime` reads a text laid out as year, '-', month, '-', day. */
  lemma StrptimeDateOf(s: string, y: string, m: string, d: string)
    requires s == y + "-" + m + "-" + d && |y| == 4 && AllDigits(y) && MonthText(m) && DayText(d)
    ensures var date := Date(DigitsValue(y), DigitsValue(m), DayTextValue(d));
            StrptimeDate(s) == if ValidDate(date) then Some(Ordinal(date)) else None
  {
    var t := s[5..];
    assert t == m + "-" + d;
    assert t[..|m|] == m;
    FindAfterDigits(t, |m|, '-');
    assert s[..4] == y;
    assert s[5..5 + |m|] == m && s[6 + |m|..] == d;
  }

  /** A rendered date is read back by `strptime`'s "%Y-%m-%d". */
  lemma StrptimeDateRoundTrip(n: int)
    requires 0 <= n < MaxOrdinal
    ensures StrptimeDate(FormatDate(n)) == Some(n)
  {
    var d := DateOf(n);
    var ys, ms, ds := PadDigits(d.year, 4), PadDigits(d.month, 2), PadDigits(d.day, 2);
    PadDigitsValue(d.year, 4);
    Pad2Value(d.month);
    Pad2Value(d.day);
    StrptimeDateOf(FormatDate(n), ys, ms, ds);
  }

  /**
   * "%Y-%m-%d %H:%M" reads a date text, one blank and a clock text as the
   * sum of what the two formats read on their own.
   */
  lemma StrptimeMinuteText(date: string, hs: string, mins: string, n: int, t: int)
    requires |date| == 10 && date[4] == '-' && date[7] == '-'
    requires IsDigit(date[5]) && IsDigit(date[6]) && IsDigit(date[8]) && IsDigit(date[9])
    requires |hs| == 2 && IsDigit(hs[0]) && IsDigit(hs[1])
    requires StrptimeDate(date) == Some(n) && StrptimeClock(hs + ":" + mins) == Some(t)
    ensures StrptimeMinute(date + " " + hs + ":" + mins) == Some(n * DayMicros + t)
  {
    var clock := hs + ":" + mins;
    var tail := " " + clock;
    var s := date + " " + hs + ":" + mins;
    assert s == date + tail;
    StrptimeMinuteOf(s, date, tail, clock);
    StrptimeMinuteCompose(s, date, tail, clock, n, t);
  }

  lemma StrptimeClockRoundTrip(h: int, m: int)
    requires 0 <= h <= 23 && 0 <= m <= 59
    ensures StrptimeClock(PadDigits(h, 2) + ":" + PadDigits(m, 2)) == Some(h * HourMicros + m * MinuteMicros)
  {
    var hs, mins := PadDigits(h, 2), PadDigits(m, 2);
    var clock := hs + ":" + mins;
    assert clock[..2] == hs;
    FindAfterDigits(clock, 2, ':');
    Pad2Value(h);
    Pad2Value(m);
    assert clock[3..] == mins;
  }

  lemma DateShape(n: int)
    requires 0 <= n < MaxOrdinal
    ensures var s := FormatDate(n);
            s[4] == '-' && s[7] == '-' && IsDigit(s[5]) && IsDigit(s[6]) && IsDigit(s[8]) && IsDigit(s[9])
  {
    var d := DateOf(n);
    var ms, ds := PadDigits(d.month, 2), PadDigits(d.day, 2);
    assert FormatDate(n) == PadDigits(d.year, 4) + "-" + ms + "-" + ds;
  }

  lemma StrptimeMinuteCompose(s: string, date: string, tail: string, clock: string, n: int, t: int)
    requires |date| == 10 && s == date + tail && tail == " " + clock
    requires Find(s[5..], "-") == Some(2) && DayEnd(s, 8) == 10 && TrimLeft(tail) == clock
    requires StrptimeDate(date) == Some(n) && StrptimeClock(clock) == Some(t)
    ensures StrptimeMinute(s) == Some(n * DayMicros + t)
  {
    assert s[..10] == date && s[10..] == tail;
  }

  lemma StrptimeMinuteOf(s: string, date: string, tail: string, clock: string)
    requires |date| == 10 && s == date + tail && tail == " " + clock
    requires date[4] == '-' && date[7] == '-' && IsDigit(date[5]) && IsDigit(date[6])
    requires IsDigit(date[8]) && IsDigit(date[9])
    requires |clock| >= 1 && !IsSpace(clock[0])
    ensures Find(s[5..], "-") == Some(2)
    ensures DayEnd(s, 8) == 10
    ensures TrimLeft(tail) == clock
  {
    MonthDash(s);
    DayWord(s);
    assert tail[1..] == clock;
  }

  lemma MonthDash(s: string)
    requires |s| >= 8 && s[7] == '-' && IsDigit(s[5]) && IsDigit(s[6])
    ensures Find(s[5..], "-") == Some(2)
  {
    var t := s[5..];
    assert t[..2] == s[5..7];
    FindAfterDigits(t, 2, '-');
  }

  lemma DayWord(s: string)
    requires |s| >= 11 && IsDigit(s[8]) && IsDigit(s[9]) && s[10] == ' '
    ensures DayEnd(s, 8) == 10
  {
    assert WordEnd(s, 10) == 10;
    assert WordEnd(s, 9) == 10;
  }
}
