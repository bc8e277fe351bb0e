/**
 * The GPT-driven chatbot (`CalendarGPTBot`): the time resolver it applies
 * to the times the language model hands it, the handlers it dispatches a
 * tool call to, and the bulk-delete phrases it answers without the model.
 *
 * The clock is a parameter: `now` is the current instant in UTC
 * microseconds and `localOffset` the machine's fixed UTC offset in minutes
 * (`datetime.now().astimezone().tzinfo`). A local reading is the UTC
 * instant moved by that offset.
 */
module GptBot {
  import opened Text
  import opened Chrono
  import opened Sorting
  import opened Service
  import opened Slots
  import opened Handler

  // ---------------------------------------------------------------------
  // The clock

  /**
   * The machine clock reads a representable datetime, in UTC and locally,
   * today and tomorrow.
   */
  predicate ClockReads(now: int, localOffset: int) {
    ValidOffset(localOffset) && InRange(now) && InRange(now + localOffset * MinuteMicros)
    && InRange(now + localOffset * MinuteMicros + DayMicros)
  }

  /** `datetime.now(self.local_timezone)`: the local reading, tagged with the local offset. */
  function LocalNow(now: int, localOffset: int): (r: DateTime)
    requires ClockReads(now, localOffset)
    ensures r.Valid() && r.Aware() && Instant(r, localOffset) == now
  {
    DateTime(now + localOffset * MinuteMicros, Some(localOffset))
  }

  // ---------------------------------------------------------------------
  // `_parse_datetime`

  /** The message of the ValueError every failure of `_parse_datetime` turns into. */
  function ParseError(s: string): string {
    "Could not parse date: " + s + ". Please use a clear date/time format."
  }

  /**
   * The hour an "at" clause names: with "pm" in it, the number left after
   * deleting "pm" plus 12 unless it is 12; with "am", that number with 12
   * read as 0; otherwise the number itself, on the 24-hour clock. None
   * where `int()` raises; the range is checked when the hour is set.
   */
  function ClockHour(timePart: string): Option<int> {
    if Contains(timePart, "pm") then
      match ParseInt(Strip(Replace(timePart, "pm", "")))
      case None => None
      case Some(h) => Some(if h == 12 then 12 else h + 12)
    else if Contains(timePart, "am") then
      match ParseInt(Strip(Replace(timePart, "am", "")))
      case None => None
      case Some(h) => Some(if h == 12 then 0 else h)
    else ParseInt(Strip(timePart))
  }

  lemma DigitsNoLetter(x: string, c: char)
    requires AllDigits(x) && !IsDigit(c)
    ensures forall i :: 0 <= i < |x| ==> x[i] != c
  {
  }

  lemma NaturalParses(h: nat)
    ensures Strip(NatToString(h)) == NatToString(h)
    ensures ParseInt(Strip(NatToString(h))) == Some(h)
  {
    var x := NatToString(h);
    StripNoSpace(x);
    IntRoundTrip(h);
  }

  /** "Hpm" is hour H + 12, except that "12pm" is noon. */
  lemma PmHour(h: nat)
    ensures ClockHour(NatToString(h) + "pm") == Some(if h == 12 then 12 else h + 12)
  {
    var x := NatToString(h);
    DigitsNoLetter(x, 'p');
    ContainsAt(x + "pm", "pm", |x|);
    ReplaceSuffix(x, "pm");
    NaturalParses(h);
  }

  /** "Ham" is hour H, except that "12am" is midnight. */
  lemma AmHour(h: nat)
    ensures ClockHour(NatToString(h) + "am") == Some(if h == 12 then 0 else h)
  {
    var x := NatToString(h);
    DigitsNoLetter(x, 'a');
    DigitsNoLetter(x, 'p');
    forall i | 0 <= i < |x + "am"| ensures (x + "am")[i] != 'p' {
    }
    AbsentChar(x + "am", "pm", 0);
    ContainsAt(x + "am", "am", |x|);
    ReplaceSuffix(x, "am");
    NaturalParses(h);
  }

  /** A bare number is an hour of the 24-hour clock. */
  lemma TwentyFourHourClock(h: nat)
    ensures ClockHour(NatToString(h)) == Some(h)
  {
    var x := NatToString(h);
    DigitsNoLetter(x, 'p');
    DigitsNoLetter(x, 'a');
    AbsentChar(x, "pm", 0);
    AbsentChar(x, "am", 0);
    NaturalParses(h);
  }

  lemma DayParts(n: int, t: int)
    requires 0 <= t < DayMicros
    ensures (n * DayMicros + t) / DayMicros == n && (n * DayMicros + t) % DayMicros == t
  {
    var w := n * DayMicros + t;
    var q, r := w / DayMicros, w % DayMicros;
    assert w == q * DayMicros + r;
    assert (q - n) * DayMicros == t - r;
  }

  /**
   * `dt.replace(hour=hour, minute=minute)`: ValueError (None) outside the
   * clock's range; the date, the seconds and the offset are kept.
   */
  function ReplaceClock(dt: DateTime, hour: int, minute: int): (r: Option<DateTime>)
    requires dt.Valid()
    ensures r.Some? <==> 0 <= hour <= 23 && 0 <= minute <= 59
    ensures r.Some? ==> r.value.Valid() && r.value.offset == dt.offset && DayOf(r.value.wall) == DayOf(dt.wall)
    ensures r.Some? ==> r.value.wall % DayMicros == hour * HourMicros + minute * MinuteMicros + dt.wall % MinuteMicros
  {
    if 0 <= hour <= 23 && 0 <= minute <= 59 then
      var t := hour * HourMicros + minute * MinuteMicros + dt.wall % MinuteMicros;
      DayParts(DayOf(dt.wall), t);
      Some(DateTime(DayOf(dt.wall) * DayMicros + t, dt.offset))
    else None
  }

  /** `date_str.lower().split('at')[1].strip()`: the text between the first "at" and the next one. */
  function TimePart(low: string): string
    requires Contains(low, "at")
  {
    SplitOccurs(low, "at");
    Strip(Split(low, "at")[1])
  }

  /** An "at" clause applied to a base datetime: its hour, minute 0. */
  function AtClause(low: string, base: DateTime): (r: Option<DateTime>)
    requires base.Valid() && Contains(low, "at")
    ensures r.Some? ==> r.value.Valid()
  {
    match ClockHour(TimePart(low))
    case None => None
    case Some(h) => ReplaceClock(base, h, 0)
  }

  /**
   * The datetime `_parse_datetime` settles on before converting it to
   * UTC. "tomorrow" is tested before "today" (anywhere in the text, in any
   * case); other text is read by `fromisoformat`, naive values taken as
   * local time, and when that fails once more with "Z" read as "+00:00".
   */
  function Resolve(s: string, now: int, localOffset: int): (r: Option<DateTime>)
    requires ClockReads(now, localOffset)
    ensures r.Some? ==> r.value.Valid()
  {
    var low := Lower(s);
    var local := LocalNow(now, localOffset);
    if Contains(low, "tomorrow") then
      match Shift(local, DayMicros)
      case None => None
      case Some(base) =>
        if Contains(low, "at") then AtClause(low, base)
        else ReplaceClock(base, local.wall % DayMicros / HourMicros, local.wall % HourMicros / MinuteMicros)
    else if Contains(low, "today") then
      if Contains(low, "at") then AtClause(low, local) else Some(local)
    else
      IsoBase(s, localOffset)
  }

  /**
   * A text with neither keyword, read by `fromisoformat` (a naive value
   * taken as local time) and, where that raises, once more with "Z" read
   * as "+00:00".
   */
  function IsoBase(s: string, localOffset: int): (r: Option<DateTime>)
    requires ValidOffset(localOffset) && !Contains(Lower(s), "tomorrow") && !Contains(Lower(s), "today")
    ensures r.Some? ==> r.value.Valid()
  {
    match FromIsoFormat(s)
    case Some(dt) => Some(if dt.Aware() then dt else DateTime(dt.wall, Some(localOffset)))
    case None => FromIsoZ(s)
  }

  /** `astimezone(pytz.UTC)` of the settled datetime as a UTC instant; None where it raises. */
  function UtcOf(d: Option<DateTime>, localOffset: int): (r: Option<int>)
    requires d.Some? ==> d.value.Valid()
    ensures r.Some? ==> InRange(r.value)
  {
    match d
    case None => None
    case Some(dt) =>
      match ToUtc(dt, localOffset)
      case None => None
      case Some(u) => Some(u.wall)
  }

  /** The UTC instant `_parse_datetime` renders; None where it raises. */
  function ParseInstant(s: string, now: int, localOffset: int): (r: Option<int>)
    requires ClockReads(now, localOffset)
    ensures r.Some? ==> InRange(r.value)
  {
    UtcOf(Resolve(s, now, localOffset), localOffset)
  }

  /** `strftime('%Y-%m-%dT%H:%M:%S.000Z')` of an instant, where there is one. */
  function Rendered(w: Option<int>): (r: Option<string>)
    requires w.Some? ==> InRange(w.value)
    ensures r.Some? <==> w.Some?
    ensures r.Some? ==> |r.value| == 24 && r.value[10] == 'T' && r.value[19..] == ".000Z"
  {
    match w
    case None => None
    case Some(v) => Some(StrftimeZ(v))
  }

  /** `_parse_datetime`: the instant as "YYYY-MM-DDTHH:MM:SS.000Z"; None where it raises `ParseError(s)`. */
  function ParseDateTime(s: string, now: int, localOffset: int): Option<string>
    requires ClockReads(now, localOffset)
  {
    Rendered(ParseInstant(s, now, localOffset))
  }

  /** A rendered instant reads back, with "Z" as "+00:00", as the aware UTC instant to the second. */
  lemma RenderedReadsBack(w: int)
    requires InRange(w)
    ensures Rendered(Some(w)) == Some(StrftimeZ(w))
    ensures FromIsoZ(StrftimeZ(w)) == Some(DateTime(w - w % SecondMicros, Some(0)))
  {
    StrftimeZRoundTrip(w);
  }

  /** The local reading one day on. */
  function NextLocal(now: int, localOffset: int): (r: DateTime)
    requires ClockReads(now, localOffset)
    ensures r.Valid() && r.offset == Some(localOffset)
  {
    DateTime(LocalNow(now, localOffset).wall + DayMicros, Some(localOffset))
  }

  /** Which branch "tomorrow" takes. */
  lemma ResolvesTomorrow(s: string, now: int, localOffset: int)
    requires ClockReads(now, localOffset) && Contains(Lower(s), "tomorrow")
    ensures Contains(Lower(s), "at") ==> Resolve(s, now, localOffset) == AtClause(Lower(s), NextLocal(now, localOffset))
    ensures !Contains(Lower(s), "at") ==>
      var w := LocalNow(now, localOffset).wall;
      Resolve(s, now, localOffset) == ReplaceClock(NextLocal(now, localOffset), w % DayMicros / HourMicros, w % HourMicros / MinuteMicros)
  {
    assert Shift(LocalNow(now, localOffset), DayMicros) == Some(NextLocal(now, localOffset));
  }

  /** Which branch "today" takes. */
  lemma ResolvesToday(s: string, now: int, localOffset: int)
    requires ClockReads(now, localOffset) && !Contains(Lower(s), "tomorrow") && Contains(Lower(s), "today")
    ensures Contains(Lower(s), "at") ==> Resolve(s, now, localOffset) == AtClause(Lower(s), LocalNow(now, localOffset))
    ensures !Contains(Lower(s), "at") ==> Resolve(s, now, localOffset) == Some(LocalNow(now, localOffset))
  {
  }

  /** Converting a value at the local offset to UTC moves it back by that offset. */
  lemma UtcOfLocal(d: Option<DateTime>, localOffset: int)
    requires d.Some? ==> d.value.Valid() && d.value.offset == Some(localOffset)
    ensures UtcOf(d, localOffset).Some? <==> d.Some? && InRange(d.value.wall - localOffset * MinuteMicros)
    ensures UtcOf(d, localOffset).Some? ==> UtcOf(d, localOffset).value + localOffset * MinuteMicros == d.value.wall
  {
  }

  /** The time of day of a reading, split into hours, minutes and the rest. */
  lemma ClockSplit(w: int)
    ensures (w % DayMicros / HourMicros) * HourMicros + (w % HourMicros / MinuteMicros) * MinuteMicros + w % MinuteMicros
      == w % DayMicros
  {
    var t := w % DayMicros;
    HourOfDay(w);
    MinuteOfDay(w);
    MinuteOfHour(t);
    assert t == (t / HourMicros) * HourMicros + t % HourMicros;
    assert t % HourMicros == (t % HourMicros / MinuteMicros) * MinuteMicros + t % HourMicros % MinuteMicros;
  }

  lemma HourOfDay(w: int)
    ensures w % HourMicros == w % DayMicros % HourMicros
  {
    assert w == (w / DayMicros * 24) * HourMicros + w % DayMicros;
  }

  lemma MinuteOfDay(w: int)
    ensures w % MinuteMicros == w % DayMicros % MinuteMicros
  {
    MinuteOfHour(w);
    HourOfDay(w);
    MinuteOfHour(w % DayMicros);
  }

  lemma MinuteOfHour(t: int)
    ensures t % HourMicros % MinuteMicros == t % MinuteMicros
  {
    assert t == (t / HourMicros * 60) * MinuteMicros + t % HourMicros;
  }

  lemma NextDayClock(w: int)
    ensures DayOf(w + DayMicros) == DayOf(w) + 1
    ensures (w + DayMicros) % DayMicros == w % DayMicros
    ensures (w + DayMicros) % MinuteMicros == w % MinuteMicros
  {
    NextDayTime(w);
    NextDaySeconds(w);
  }

  lemma NextDayTime(w: int)
    ensures DayOf(w + DayMicros) == DayOf(w) + 1
    ensures (w + DayMicros) % DayMicros == w % DayMicros
  {
    assert w + DayMicros == (w / DayMicros + 1) * DayMicros + w % DayMicros;
  }

  lemma NextDaySeconds(w: int)
    ensures (w + DayMicros) % MinuteMicros == w % MinuteMicros
  {
    assert w + DayMicros == (w / MinuteMicros + 1440) * MinuteMicros + w % MinuteMicros;
  }

  lemma NextLocalClock(now: int, localOffset: int)
    requires ClockReads(now, localOffset)
    ensures DayOf(NextLocal(now, localOffset).wall) == DayOf(LocalNow(now, localOffset).wall) + 1
    ensures NextLocal(now, localOffset).wall % MinuteMicros == LocalNow(now, localOffset).wall % MinuteMicros
  {
    NextDayClock(LocalNow(now, localOffset).wall);
  }

  /** Setting the next day's clock to the current hour and minute leaves it as it is. */
  lemma KeepClock(now: int, localOffset: int)
    requires ClockReads(now, localOffset)
    ensures var w := LocalNow(now, localOffset).wall;
      ReplaceClock(NextLocal(now, localOffset), w % DayMicros / HourMicros, w % HourMicros / MinuteMicros)
        == Some(NextLocal(now, localOffset))
  {
    var w := LocalNow(now, localOffset).wall;
    var base := NextLocal(now, localOffset);
    ClockSplit(w);
    NextDayClock(w);
    var kept := ReplaceClock(base, w % DayMicros / HourMicros, w % HourMicros / MinuteMicros).value;
    assert kept.wall % DayMicros == base.wall % DayMicros;
    DayDecompose(kept.wall);
    DayDecompose(base.wall);
  }

  /** "tomorrow" without "at" is the current local time one day on: `replace(hour=now.hour, minute=now.minute)` changes nothing. */
  lemma TomorrowKeepsTime(s: string, now: int, localOffset: int)
    requires ClockReads(now, localOffset) && InRange(now + DayMicros)
    requires Contains(Lower(s), "tomorrow") && !Contains(Lower(s), "at")
    ensures ParseInstant(s, now, localOffset) == Some(now + DayMicros)
  {
    ResolvesTomorrow(s, now, localOffset);
    KeepClock(now, localOffset);
    UtcOfLocal(Some(NextLocal(now, localOffset)), localOffset);
  }

  /** "today" without "at" is the current time. */
  lemma TodayKeepsTime(s: string, now: int, localOffset: int)
    requires ClockReads(now, localOffset)
    requires !Contains(Lower(s), "tomorrow") && Contains(Lower(s), "today") && !Contains(Lower(s), "at")
    ensures ParseInstant(s, now, localOffset) == Some(now)
  {
    ResolvesToday(s, now, localOffset);
    UtcOfLocal(Some(LocalNow(now, localOffset)), localOffset);
  }

  /** An "at" clause sets the hour it names at minute 0, on the base's day, keeping the base's seconds. */
  lemma AtClauseHour(low: string, base: DateTime, h: int)
    requires base.Valid() && Contains(low, "at") && ClockHour(TimePart(low)) == Some(h)
    ensures AtClause(low, base).Some? <==> 0 <= h <= 23
    ensures AtClause(low, base).Some? ==>
      var r := AtClause(low, base).value;
      r.offset == base.offset && DayOf(r.wall) == DayOf(base.wall)
      && r.wall % DayMicros == h * HourMicros + base.wall % MinuteMicros
  {
  }

  /**
   * "today ... at H": the current local day at hour H, minute 0, with the
   * current seconds; an hour outside 0 to 23 makes it fail.
   */
  lemma TodayAtHour(s: string, now: int, localOffset: int, h: int)
    requires ClockReads(now, localOffset)
    requires !Contains(Lower(s), "tomorrow") && Contains(Lower(s), "today") && Contains(Lower(s), "at")
    requires ClockHour(TimePart(Lower(s))) == Some(h)
    ensures !(0 <= h <= 23) ==> ParseInstant(s, now, localOffset).None?
    ensures ParseInstant(s, now, localOffset).Some? ==>
      var local := ParseInstant(s, now, localOffset).value + localOffset * MinuteMicros;
      var today := LocalNow(now, localOffset).wall;
      DayOf(local) == DayOf(today) && local % DayMicros == h * HourMicros + today % MinuteMicros
  {
    var local := LocalNow(now, localOffset);
    var d := AtClause(Lower(s), local);
    ResolvesToday(s, now, localOffset);
    AtClauseHour(Lower(s), local, h);
    UtcOfLocal(d, localOffset);
    var r := ParseInstant(s, now, localOffset);
    assert r == UtcOf(d, localOffset);
    if r.Some? {
      assert r.value + localOffset * MinuteMicros == d.value.wall;
    }
  }

  /** "tomorrow ... at H": the next local day at hour H, minute 0, with the current seconds. */
  lemma TomorrowAtHour(s: string, now: int, localOffset: int, h: int)
    requires ClockReads(now, localOffset)
    requires Contains(Lower(s), "tomorrow") && Contains(Lower(s), "at")
    requires ClockHour(TimePart(Lower(s))) == Some(h)
    ensures !(0 <= h <= 23) ==> ParseInstant(s, now, localOffset).None?
    ensures ParseInstant(s, now, localOffset).Some? ==>
      var local := ParseInstant(s, now, localOffset).value + localOffset * MinuteMicros;
      var today := LocalNow(now, localOffset).wall;
      DayOf(local) == DayOf(today) + 1 && local % DayMicros == h * HourMicros + today % MinuteMicros
  {
    var base := NextLocal(now, localOffset);
    ResolvesTomorrow(s, now, localOffset);
    AtClauseHour(Lower(s), base, h);
    UtcOfLocal(AtClause(Lower(s), base), localOffset);
    NextLocalClock(now, localOffset);
  }

  /**
   * Other text is read by `fromisoformat`: an aware value at its own
   * offset, a naive one as local time. The result is that instant.
   */
  lemma IsoInstant(s: string, now: int, localOffset: int, dt: DateTime)
    requires ClockReads(now, localOffset)
    requires !Contains(Lower(s), "tomorrow") && !Contains(Lower(s), "today")
    requires FromIsoFormat(s) == Some(dt)
    ensures ParseInstant(s, now, localOffset) == if InRange(Instant(dt, localOffset)) then Some(Instant(dt, localOffset)) else None
  {
    assert Resolve(s, now, localOffset) == IsoBase(s, localOffset);
    IsoBaseRead(s, localOffset, dt);
    UtcOfIso(dt, localOffset);
  }

  lemma UtcOfIso(dt: DateTime, localOffset: int)
    requires dt.Valid() && ValidOffset(localOffset)
    ensures UtcOf(Some(if dt.Aware() then dt else DateTime(dt.wall, Some(localOffset))), localOffset)
      == if InRange(Instant(dt, localOffset)) then Some(Instant(dt, localOffset)) else None
  {
  }

  lemma IsoBaseRead(s: string, localOffset: int, dt: DateTime)
    requires ValidOffset(localOffset) && !Contains(Lower(s), "tomorrow") && !Contains(Lower(s), "today")
    requires FromIsoFormat(s) == Some(dt)
    ensures IsoBase(s, localOffset) == Some(if dt.Aware() then dt else DateTime(dt.wall, Some(localOffset)))
  {
  }

  /** Text `fromisoformat` refuses is read once more with "Z" standing for "+00:00". */
  lemma IsoRetry(s: string, now: int, localOffset: int)
    requires ClockReads(now, localOffset)
    requires !Contains(Lower(s), "tomorrow") && !Contains(Lower(s), "today")
    requires FromIsoFormat(s).None?
    ensures ParseInstant(s, now, localOffset).Some? <==>
      FromIsoZ(s).Some? && InRange(Instant(FromIsoZ(s).value, localOffset))
    ensures ParseInstant(s, now, localOffset).Some? ==>
      ParseInstant(s, now, localOffset).value == Instant(FromIsoZ(s).value, localOffset)
  {
  }

  /** What `_parse_datetime` returns reads back, with "Z" as "+00:00", as its UTC instant to the second. */
  lemma ParsedReadsBack(s: string, now: int, localOffset: int, w: int)
    requires ClockReads(now, localOffset) && ParseInstant(s, now, localOffset) == Some(w)
    ensures ParseDateTime(s, now, localOffset).Some?
    ensures FromIsoZ(ParseDateTime(s, now, localOffset).value) == Some(DateTime(w - w % SecondMicros, Some(0)))
  {
    RenderedReadsBack(w);
  }

  /** A clause that yields no hour makes the whole parse fail, on either keyword. */
  lemma AtUnreadable(s: string, now: int, localOffset: int)
    requires ClockReads(now, localOffset)
    requires Contains(Lower(s), "today") || Contains(Lower(s), "tomorrow")
    requires Contains(Lower(s), "at") && ClockHour(TimePart(Lower(s))) == None
    ensures ParseDateTime(s, now, localOffset) == None
  {
    if Contains(Lower(s), "tomorrow") {
      ResolvesTomorrow(s, now, localOffset);
    } else {
      ResolvesToday(s, now, localOffset);
    }
  }

  lemma HalfPastReplace()
    ensures Contains("3:30 pm", "pm") && Replace("3:30 pm", "pm", "") == "3:30 "
  {
    assert "3:30 pm" == "3:30 " + "pm";
    assert "3:30 pm"[5..7] == "pm";
    ContainsAt("3:30 pm", "pm", 5);
    ReplaceSuffix("3:30 ", "pm");
  }

  lemma HalfPastStrip()
    ensures Strip("3:30 ") == "3:30"
  {
    assert TrimLeft("3:30 ") == "3:30 ";
    assert TrimRight("3:30 ") == TrimRight("3:30") == "3:30";
  }

  lemma HalfPastInt()
    ensures ParseInt("3:30") == None
  {
    assert !AllDigits("3:30") by {
      assert !IsDigit("3:30"[1]);
    }
  }

  /** A minute in the clause is not read: `int("3:30")` raises. */
  lemma HalfPastUnreadable()
    ensures ClockHour("3:30 pm") == None
  {
    HalfPastReplace();
    HalfPastStrip();
    HalfPastInt();
  }

  // ---------------------------------------------------------------------
  // Tool-call arguments

  /** A value of the argument dictionary a tool call carries: a string or a number. */
  datatype Arg = Text(text: string) | Number(number: int)

  type Args = map<string, Arg>

  /** `str(v)` of an argument. */
  function ArgText(a: Arg): string {
    match a
    case Text(t) => t
    case Number(n) => IntToString(n)
  }

  /** `params.get(key, '')` as text. */
  function TextOr(params: Args, key: string): string {
    if key in params then ArgText(params[key]) else ""
  }

  /** `_parse_datetime` of an argument: text goes to the resolver, a number has no `.lower()` and raises. */
  function ArgInstant(a: Arg, now: int, localOffset: int): (r: Option<int>)
    requires ClockReads(now, localOffset)
    ensures r.Some? ==> InRange(r.value)
  {
    if a.Text? then ParseInstant(a.text, now, localOffset) else None
  }

  // ---------------------------------------------------------------------
  // Showing events

  const Upcoming := " (showing only upcoming events)"
  const ShowError := "Sorry, I had trouble retrieving your events. Please try again."

  /** What a rendered instant reads back as, with "Z" taken as "+00:00": the instant to the second. */
  function Reading(w: int): (r: int)
    requires InRange(w)
    ensures r == w - w % SecondMicros
  {
    RenderedReadsBack(w);
    FromIsoZ(StrftimeZ(w)).value.wall
  }

  /**
   * The clamp of `handle_show_events` on the instants it compares: a window
   * that has begun and not yet ended starts at the current instant instead,
   * and is annotated; a window wholly in the past or not yet begun is kept.
   */
  function ShowWindow(start: int, end: int, current: int): (r: (int, bool))
    ensures r.1 <==> start < current < end
    ensures !r.1 ==> r.0 == start
    ensures r.0 >= current || end <= current
    ensures start <= r.0 && (start < end ==> r.0 < end)
  {
    if start < current && end > current then (current, true) else (start, false)
  }

  /**
   * The listing request of `handle_show_events`: the start text, the end
   * text and the note; None where a time is missing or does not parse.
   * The clamp compares the three times as they read back.
   */
  function ShowRequest(params: Args, now: int, localOffset: int): (r: Option<(string, string, string)>)
    requires ClockReads(now, localOffset)
    ensures r.Some? <==> ("start_time" in params && "end_time" in params
      && ArgInstant(params["start_time"], now, localOffset).Some? && ArgInstant(params["end_time"], now, localOffset).Some?)
    ensures r.Some? ==>
      var s := ArgInstant(params["start_time"], now, localOffset).value;
      var e := ArgInstant(params["end_time"], now, localOffset).value;
      r.value.1 == StrftimeZ(e)
      && (r.value.2 != "" <==> Reading(s) < Reading(now) < Reading(e))
      && (r.value.2 != "" ==> r.value.0 == StrftimeZ(now) && r.value.2 == Upcoming)
      && (r.value.2 == "" ==> r.value.0 == StrftimeZ(s))
  {
    if "start_time" !in params || "end_time" !in params then None
    else
      match (ArgInstant(params["start_time"], now, localOffset), ArgInstant(params["end_time"], now, localOffset))
      case (Some(s), Some(e)) =>
        var w := ShowWindow(Reading(s), Reading(e), Reading(now));
        Some((if w.1 then StrftimeZ(now) else StrftimeZ(s), StrftimeZ(e), if w.1 then Upcoming else ""))
      case _ => None
  }

  /**
   * The listing never starts before the current second unless the whole
   * window is past: the start text reads back at or after the current
   * instant, or the end at or before it.
   */
  lemma ShowUpcoming(params: Args, now: int, localOffset: int)
    requires ClockReads(now, localOffset) && ShowRequest(params, now, localOffset).Some?
    ensures var r := ShowRequest(params, now, localOffset).value;
      FromIsoZ(r.0).Some? && FromIsoZ(r.1).Some?
      && (FromIsoZ(r.0).value.wall >= Reading(now) || FromIsoZ(r.1).value.wall <= Reading(now))
  {
    var s := ArgInstant(params["start_time"], now, localOffset).value;
    var e := ArgInstant(params["end_time"], now, localOffset).value;
    RenderedReadsBack(s);
    RenderedReadsBack(e);
    RenderedReadsBack(now);
    assert Reading(s) == FromIsoZ(StrftimeZ(s)).value.wall;
    assert Reading(e) == FromIsoZ(StrftimeZ(e)).value.wall;
    assert Reading(now) == FromIsoZ(StrftimeZ(now)).value.wall;
    var w := ShowWindow(Reading(s), Reading(e), Reading(now));
  }

  /** One line of the listing, with `event.get` defaults for absent keys. */
  function EventLine(e: Event, display: string -> string): string {
    var start := if e.start.Timed? then e.start.dateTime else "Unknown";
    var title := if e.summary.Some? then e.summary.value else "Untitled Event";
    var location := if e.location.Some? then e.location.value else "";
    var description := if e.description.Some? then e.description.value else "";
    "- " + title + " at " + display(start)
      + (if location != "" then " (" + location + ")" else "")
      + (if description != "" then "\n  Description: " + description else "")
  }

  function EventLines(events: seq<Event>, display: string -> string): (r: seq<string>)
    ensures |r| == |events|
    ensures forall i :: 0 <= i < |events| ==> r[i] == EventLine(events[i], display)
  {
    seq(|events|, i requires 0 <= i < |events| => EventLine(events[i], display))
  }

  function ShowHeader(from: string, to: string, note: string, display: string -> string): string {
    "Here are your events between " + display(from) + " and " + display(to) + note + ":"
  }

  function NoEvents(from: string, to: string, display: string -> string): string {
    "No events found between " + display(from) + " and " + display(to) + "."
  }

  // ---------------------------------------------------------------------
  // Finding free slots

  const FindError := "Sorry, I had trouble finding available slots. Please try again."

  /** The opening and closing hours of the search, 09:00 and 17:00 of the date. */
  const OpeningHour := 9
  const ClosingHour := 17

  /** How many days ahead a date word names: exactly "tomorrow" or "today" in any case. */
  function DayWord(date: string): (r: Option<int>)
    ensures r.Some? ==> r.value == 0 || r.value == 1
  {
    if Lower(date) == "tomorrow" then Some(1)
    else if Lower(date) == "today" then Some(0)
    else None
  }

  /** `strftime('%Y-%m-%d')` of a local reading. */
  function DayText(w: int): (r: string)
    requires InRange(w)
    ensures StrptimeDate(r) == Some(DayOf(w))
  {
    StrptimeDateRoundTrip(DayOf(w));
    FormatDate(DayOf(w))
  }

  /**
   * The date searched: a date word names the local date that many days
   * ahead, as `strptime` reads it back; anything else is used as given.
   */
  function FindDate(date: string, now: int, localOffset: int): (r: string)
    requires ClockReads(now, localOffset)
    ensures DayWord(date).Some? ==> StrptimeDate(r) == Some(DayOf(LocalNow(now, localOffset).wall) + DayWord(date).value)
    ensures DayWord(date).None? ==> r == date
  {
    match DayWord(date)
    case Some(k) => AheadOfNow(now, localOffset, k)
    case None => date
  }

  /** The local date `k` days on, for `k` of 0 or 1. */
  function AheadOfNow(now: int, localOffset: int, k: int): (r: string)
    requires ClockReads(now, localOffset) && (k == 0 || k == 1)
    ensures StrptimeDate(r) == Some(DayOf(LocalNow(now, localOffset).wall) + k)
  {
    DateAhead(LocalNow(now, localOffset).wall, k)
  }

  /** `strftime('%Y-%m-%d')` of a local reading `k` days on, for `k` of 0 or 1. */
  function DateAhead(local: int, k: int): (r: string)
    requires InRange(local) && InRange(local + DayMicros) && (k == 0 || k == 1)
    ensures StrptimeDate(r) == Some(DayOf(local) + k)
  {
    if k == 0 then DayText(local)
    else
      DayAfter(local);
      DayText(local + DayMicros)
  }

  lemma DayAfter(w: int)
    ensures DayOf(w + DayMicros) == DayOf(w) + 1
  {
  }

  /** `event['start']['dateTime']` and `event['end']['dateTime']` read with "Z" as "+00:00"; None where a key is missing or a read raises. */
  function EventSpan(e: Event): Option<(DateTime, DateTime)> {
    if !e.start.Timed? || !e.end.Timed? then None
    else
      match (FromIsoZ(e.start.dateTime), FromIsoZ(e.end.dateTime))
      case (Some(a), Some(b)) => Some((a, b))
      case _ => None
  }

  /** A returned timed event reads back as the aware UTC span it was stored with; an all-day one has no `dateTime`. */
  lemma EventSpanOfResource(x: Entry)
    requires x.Valid()
    ensures x.start.At? ==> EventSpan(Resource(x)) == Some((DateTime(x.start.instant, Some(0)), DateTime(x.end.instant, Some(0))))
    ensures !x.start.At? ==> EventSpan(Resource(x)) == None
  {
    if x.start.At? {
      RenderedTimed(x.start.instant, x.start.timeZone);
      RenderedTimed(x.end.instant, x.end.timeZone);
    }
  }

  /**
   * The inner loop of `handle_find_slots`: the events are tested in order
   * until one satisfies `ev.start < slot.end and ev.end > slot.start`;
   * None where reading or comparing raises.
   */
  function EventClash(events: seq<Event>, lo: DateTime, hi: DateTime): Option<bool> {
    if events == [] then Some(false)
    else
      match EventSpan(events[0])
      case None => None
      case Some((a, b)) =>
        match Overlap(a, b, lo, hi)
        case None => None
        case Some(true) => Some(true)
        case Some(false) => EventClash(events[1..], lo, hi)
  }

  /** The clash test for candidate slots whose two ends carry the offset `tag` (None: naive). */
  function EventClashAt(events: seq<Event>, tag: Option<int>): (int, int) -> Option<bool> {
    (s: int, e: int) => EventClash(events, DateTime(s, tag), DateTime(e, tag))
  }

  /** The search raises as soon as a candidate that fits meets a clash test that raises. */
  lemma ScanRaises(cur: int, dur: int, end: int, clash: (int, int) -> Option<bool>)
    requires InRange(cur) && InRange(cur + dur) && cur + dur <= end && clash(cur, cur + dur).None?
    ensures Scan(cur, dur, end, clash) == None
  {
  }

  lemma ResourcesTail(xs: seq<Entry>)
    requires xs != [] && forall x :: x in xs ==> x.Valid()
    ensures Resources(xs)[1..] == Resources(xs[1..])
  {
  }

  /** A naive candidate meets the first returned event and the comparison raises (or the event is all-day and has no `dateTime`). */
  lemma NaiveClashRaises(xs: seq<Entry>, s: int, e: int)
    requires xs != [] && forall x :: x in xs ==> x.Valid()
    ensures EventClashAt(Resources(xs), None)(s, e) == None
  {
    EventSpanOfResource(xs[0]);
  }

  /** With aware candidates and timed events only, the clash test finds whether some event overlaps the slot strictly. */
  lemma {:induction false} AwareClashIsBlocked(xs: seq<Entry>, s: int, e: int)
    requires forall x :: x in xs ==> x.Valid() && x.start.At?
    ensures EventClash(Resources(xs), DateTime(s, Some(0)), DateTime(e, Some(0))) == Some(Blocked(xs, s, e))
  {
    if xs != [] {
      var x := xs[0];
      var events := Resources(xs);
      var lo, hi := DateTime(s, Some(0)), DateTime(e, Some(0));
      EventSpanOfResource(x);
      var a, b := DateTime(x.start.instant, Some(0)), DateTime(x.end.instant, Some(0));
      assert EventSpan(events[0]) == Some((a, b));
      assert Overlap(a, b, lo, hi) == Some(Clashes(x, s, e));
      if Clashes(x, s, e) {
        assert EventClash(events, lo, hi) == Some(true);
      } else {
        assert EventClash(events, lo, hi) == EventClash(events[1..], lo, hi);
        ResourcesTail(xs);
        AwareClashIsBlocked(xs[1..], s, e);
        BlockedTail(xs, s, e);
      }
    }
  }

  lemma BlockedTail(xs: seq<Entry>, s: int, e: int)
    requires xs != [] && !Clashes(xs[0], s, e)
    ensures Blocked(xs, s, e) == Blocked(xs[1..], s, e)
  {
    assert xs == [xs[0]] + xs[1..];
  }

  /** The search runs from 09:00 to 17:00 of the date, and a step past closing time is still a datetime. */
  lemma WorkingDay(date: string)
    requires StrptimeDate(date).Some?
    ensures StrptimeSlot(date, OpeningHour).Some? && StrptimeSlot(date, ClosingHour).Some?
    ensures StrptimeSlot(date, ClosingHour).value == StrptimeSlot(date, OpeningHour).value + (ClosingHour - OpeningHour) * HourMicros
    ensures StrptimeSlot(date, ClosingHour).value + StepMicros < MaxOrdinal * DayMicros
  {
  }

  /** With aware candidates and timed events only, the clash test never raises and is exactly `Blocked`. */
  lemma AwareClashTotal(xs: seq<Entry>)
    requires forall x :: x in xs ==> x.Valid() && x.start.At?
    ensures forall s, e :: EventClashAt(Resources(xs), Some(0))(s, e) == Some(Blocked(xs, s, e))
  {
    forall s, e ensures EventClashAt(Resources(xs), Some(0))(s, e) == Some(Blocked(xs, s, e)) {
      AwareClashIsBlocked(xs, s, e);
    }
  }

  /**
   * With a clash test that is exactly `Blocked` (as `AwareClashTotal`
   * shows for aware candidates), a start is kept exactly when it is a
   * half-hour step from the opening instant whose slot ends by the closing
   * instant and no event overlaps it strictly.
   */
  lemma FreeSlotsExact(events: seq<Event>, xs: seq<Entry>, first: int, last: int, dur: int, s: int)
    requires forall s, e :: EventClashAt(events, Some(0))(s, e) == Some(Blocked(xs, s, e))
    requires InRange(first) && Scan(first, dur, last, EventClashAt(events, Some(0))).Some?
    ensures s in Scan(first, dur, last, EventClashAt(events, Some(0))).value
      <==> Candidate(s, first) && s + dur <= last && !Blocked(xs, s, s + dur)
  {
    ScanExact(first, dur, last, EventClashAt(events, Some(0)), s);
  }

  /** With a clash test that never raises, the search succeeds for any slot length that fits the datetime range. */
  lemma FreeSlotsDefined(events: seq<Event>, xs: seq<Entry>, first: int, last: int, dur: int)
    requires forall s, e :: EventClashAt(events, Some(0))(s, e) == Some(Blocked(xs, s, e))
    requires InRange(first) && 0 <= dur && first + dur < MaxOrdinal * DayMicros && last + StepMicros < MaxOrdinal * DayMicros
    ensures Scan(first, dur, last, EventClashAt(events, Some(0))).Some?
  {
    ScanDefined(first, dur, last, EventClashAt(events, Some(0)));
  }

  /** An all-day event met before any clash makes the search raise: it has no `dateTime`. */
  lemma AllDayRaises(xs: seq<Entry>, first: int, last: int, dur: int, tag: Option<int>)
    requires xs != [] && forall x :: x in xs ==> x.Valid()
    requires !xs[0].start.At?
    requires InRange(first) && InRange(first + dur) && first + dur <= last
    ensures Scan(first, dur, last, EventClashAt(Resources(xs), tag)) == None
  {
    var clash := EventClashAt(Resources(xs), tag);
    EventSpanOfResource(xs[0]);
    assert clash(first, first + dur).None?;
    ScanRaises(first, dur, last, clash);
  }

  /** The inner loop of `handle_find_slots`, over the events in order. */
  method TestEvents(events: seq<Event>, lo: DateTime, hi: DateTime) returns (r: Option<bool>)
    ensures r == EventClash(events, lo, hi)
  {
    var j := 0;
    while j < |events|
      invariant 0 <= j <= |events|
      invariant EventClash(events, lo, hi) == EventClash(events[j..], lo, hi)
    {
      var span := EventSpan(events[j]);
      if span.None? {
        return None;
      }
      var o := Overlap(span.value.0, span.value.1, lo, hi);
      if o.None? || o.value {
        return o;
      }
      assert events[j..][1..] == events[j + 1..];
      j := j + 1;
    }
    return Some(false);
  }

  /**
   * The candidate loop of `handle_find_slots`, from `first` to `last` in
   * 30-minute steps; `clash` is the inner loop's verdict (`TestEvents`).
   */
  method FreeStarts(first: int, last: int, dur: int, clash: (int, int) -> Option<bool>) returns (r: Option<seq<int>>)
    requires InRange(first)
    ensures r == Scan(first, dur, last, clash)
  {
    ghost var whole := Scan(first, dur, last, clash);
    var cur := first;
    var starts: seq<int> := [];
    assert whole.Some? ==> [] + whole.value == whole.value;
    while true
      invariant InRange(cur)
      invariant whole == Prefixed(starts, Scan(cur, dur, last, clash))
      decreases last - dur - cur
    {
      if !InRange(cur + dur) {
        return None;
      }
      if cur + dur > last {
        ScanStop(whole, starts, cur, dur, last, clash);
        return Some(starts);
      }
      var busy := clash(cur, cur + dur);
      if busy.None? {
        return None;
      }
      if !InRange(cur + StepMicros) {
        return None;
      }
      ScanAdvance(whole, starts, cur, dur, last, clash, busy.value);
      if !busy.value {
        starts := starts + [cur];
      }
      cur := cur + StepMicros;
    }
  }

  /** "- {start} to {end}" of one kept slot. */
  function SlotLine(slot: Slot, display: string -> string): string {
    "- " + display(slot.startTime) + " to " + display(slot.endTime)
  }

  function SlotHeader(durationMinutes: int, date: string): string {
    "Available " + IntToString(durationMinutes) + "-minute slots for " + date + ":"
  }

  function MoreSlots(n: nat): string {
    "... and " + NatToString(n) + " more slots available"
  }

  /** The lines of the slot reply: a header, the first five slots, and a count of the rest when there are more. */
  function SlotReplyLines(slots: seq<Slot>, durationMinutes: int, date: string, display: string -> string): (r: seq<string>)
    ensures |r| == 1 + Min(|slots|, 5) + (if |slots| > 5 then 1 else 0)
    ensures r[0] == SlotHeader(durationMinutes, date)
    ensures forall i :: 0 <= i < Min(|slots|, 5) ==> r[1 + i] == SlotLine(slots[i], display)
    ensures |slots| > 5 ==> r[|r| - 1] == MoreSlots(|slots| - 5)
  {
    var n := Min(|slots|, 5);
    seq(1 + n + (if |slots| > 5 then 1 else 0), i requires 0 <= i < 1 + n + (if |slots| > 5 then 1 else 0) =>
      if i == 0 then SlotHeader(durationMinutes, date)
      else if i <= n then SlotLine(slots[i - 1], display)
      else MoreSlots(|slots| - 5))
  }

  function NoSlots(durationMinutes: int, date: string): string {
    "No available " + IntToString(durationMinutes) + "-minute slots found for " + date + "."
  }

  // ---------------------------------------------------------------------
  // Scheduling, updating and deleting

  const ScheduleFailed := "Failed to schedule event. Please try again."
  const UpdateDone := "✓ Event updated successfully"
  const UpdateFailed := "Failed to update event. Please check the event ID and try again."
  const DeleteDone := "✓ Event deleted successfully"
  const DeleteFailed := "Failed to delete event. Please check the event ID and try again."

  /**
   * The arguments `handle_schedule_event` hands to `add_event` (title,
   * start instant, duration in minutes, description); None where reading
   * them raises first or the duration is not a number, which `add_event`
   * turns into a failure.
   */
  function ScheduleCall(params: Args, now: int, localOffset: int): (r: Option<(string, int, int, string)>)
    requires ClockReads(now, localOffset)
    ensures r.Some? <==> ("title" in params && "start_time" in params && "duration_minutes" in params
      && ArgInstant(params["start_time"], now, localOffset).Some? && params["duration_minutes"].Number?)
    ensures r.Some? ==> r.value.0 == ArgText(params["title"]) && r.value.2 == params["duration_minutes"].number
  {
    if "title" !in params || "start_time" !in params || "duration_minutes" !in params then None
    else
      match ArgInstant(params["start_time"], now, localOffset)
      case None => None
      case Some(w) =>
        if params["duration_minutes"].Number? then
          Some((ArgText(params["title"]), w, params["duration_minutes"].number, TextOr(params, "description")))
        else None
  }

  /**
   * The reply when there is no call to make: the missing key or the parse
   * error, in the order the keyword arguments are evaluated, and the
   * failure reply for a duration that is not a number.
   */
  function ScheduleError(params: Args, now: int, localOffset: int): (r: string)
    requires ClockReads(now, localOffset)
    ensures ScheduleCall(params, now, localOffset).None? ==> (r != ScheduleFailed <==>
      ("title" !in params || "start_time" !in params || "duration_minutes" !in params
       || ArgInstant(params["start_time"], now, localOffset).None?))
  {
    if "title" !in params then "Error scheduling event: 'title'"
    else if "start_time" !in params then "Error scheduling event: 'start_time'"
    else if ArgInstant(params["start_time"], now, localOffset).None? then
      "Error scheduling event: " + ParseError(ArgText(params["start_time"]))
    else if "duration_minutes" !in params then "Error scheduling event: 'duration_minutes'"
    else ScheduleFailed
  }

  function Scheduled(title: string, startText: string, durationMinutes: int, id: string, display: string -> string): string {
    "✓ Successfully scheduled: " + title + "\nStart: " + display(startText)
      + "\nDuration: " + IntToString(durationMinutes) + " minutes\nEvent ID: " + id
  }

  /**
   * The new start `handle_update_event` passes: "" (no change) where there
   * is no "start_time", the rendered instant where it parses, None where
   * it raises.
   */
  function UpdateStart(params: Args, now: int, localOffset: int): (r: Option<string>)
    requires ClockReads(now, localOffset)
    ensures r.None? <==> "start_time" in params && ArgInstant(params["start_time"], now, localOffset).None?
    ensures r.Some? && r.value != "" ==> FromIsoZ(r.value).Some?
    ensures r == Some("") <==> "start_time" !in params
  {
    if "start_time" !in params then Some("")
    else
      match ArgInstant(params["start_time"], now, localOffset)
      case None => None
      case Some(w) =>
        RenderedReadsBack(w);
        Some(StrftimeZ(w))
  }

  // ---------------------------------------------------------------------
  // Bulk deletion

  const NoneToDelete := "No events found in the specified time period."
  const BulkFailed := "Failed to delete events. Please try again."

  /** A listed event `handle_bulk_delete` deletes: one with a non-empty id. */
  predicate Named(e: Event) {
    e.id.Some? && e.id.value != ""
  }

  /** The ids of the named events among the first `n`. */
  function NamedIdsTo(events: seq<Event>, n: int): set<string>
    requires 0 <= n <= |events|
  {
    set k | 0 <= k < n && Named(events[k]) :: events[k].id.value
  }

  /** How many of the first `n` events are named. */
  function NamedCount(events: seq<Event>, n: int): nat
    requires 0 <= n <= |events|
  {
    if n == 0 then 0 else NamedCount(events, n - 1) + (if Named(events[n - 1]) then 1 else 0)
  }

  lemma NamedIdsSkip(events: seq<Event>, i: int)
    requires 0 <= i < |events| && !Named(events[i])
    ensures NamedIdsTo(events, i + 1) == NamedIdsTo(events, i)
  {
  }

  /** Deleting the next named event's id removes exactly the entries of the ids named so far. */
  lemma DeleteStep(cur: seq<Entry>, before: seq<Entry>, events: seq<Event>, i: int)
    requires 0 <= i < |events| && Named(events[i])
    requires forall x :: x in cur <==> x in before && x.id !in NamedIdsTo(events, i)
    ensures forall x :: x in Without(cur, events[i].id.value) <==> x in before && x.id !in NamedIdsTo(events, i + 1)
  {
    assert NamedIdsTo(events, i + 1) == NamedIdsTo(events, i) + {events[i].id.value};
  }

  function BulkWindow(startTime: string, endTime: string, now: int, localOffset: int): (r: Option<(string, string)>)
    requires ClockReads(now, localOffset)
    ensures r.Some? <==> ParseInstant(startTime, now, localOffset).Some? && ParseInstant(endTime, now, localOffset).Some?
  {
    match (ParseDateTime(startTime, now, localOffset), ParseDateTime(endTime, now, localOffset))
    case (Some(from), Some(to)) => Some((from, to))
    case _ => None
  }

  /** The reply where a bound does not parse: the start is parsed first. */
  function BulkError(startTime: string, endTime: string, now: int, localOffset: int): string
    requires ClockReads(now, localOffset)
  {
    "Error deleting events: " + ParseError(if ParseInstant(startTime, now, localOffset).None? then startTime else endTime)
  }

  function BulkDeleted(n: nat): string
    requires n > 0
  {
    "✓ Successfully deleted " + NatToString(n) + " event" + (if n > 1 then "s" else "")
  }

  /** `n` notices of "all", one per deletion. */
  function Alls(n: nat): (r: seq<string>)
    ensures |r| == n && forall i :: 0 <= i < n ==> r[i] == "all"
  {
    seq(n, _ => "all")
  }

  // ---------------------------------------------------------------------
  // Routing a query

  /** The phrases `process_query` answers without the model, when a day word goes with them. */
  predicate BulkPhrase(low: string) {
    Contains(low, "remove all events") || Contains(low, "delete all events")
    || Contains(low, "clear all events") || Contains(low, "cancel all events")
  }

  /**
   * The day a bulk-deletion query names as `strftime('%Y-%m-%d')` of the
   * local wall clock: tomorrow where the query says "tomorrow" (whatever
   * else it says), today where it says only "today".
   */
  function BulkDay(tomorrow: bool, today: bool, localWall: int): (r: Option<string>)
    requires InRange(localWall) && InRange(localWall + DayMicros)
    ensures r.Some? <==> tomorrow || today
    ensures r.Some? ==> StrptimeDate(r.value) == Some(DayOf(localWall) + (if tomorrow then 1 else 0))
  {
    DayAfter(localWall);
    if tomorrow then Some(DayText(localWall + DayMicros))
    else if today then Some(DayText(localWall))
    else None
  }

  /** The lines of the help reply. */
  const HelpLines: seq<string> := [
    "I can help you manage your calendar! Here are some examples of what you can say:",
    "",
    "1. Schedule events:",
    "   - \"Schedule a team meeting tomorrow at 2 PM for 1 hour\"",
    "   - \"Create a dentist appointment on 2024-01-25 at 10:00 for 30 minutes\"",
    "",
    "2. Show events:",
    "   - \"What's on my calendar today?\"",
    "   - \"Show me my meetings for this week\"",
    "   - \"What events do I have tomorrow?\"",
    "",
    "3. Find available slots:",
    "   - \"When am I free tomorrow?\"",
    "   - \"Find me a 30-minute slot for tomorrow\"",
    "   - \"What time slots are available next Monday?\"",
    "",
    "4. Update events:",
    "   - \"Update event abc123 title to 'Updated Meeting'\"",
    "   - \"Change the time of event xyz789 to tomorrow at 3 PM\"",
    "",
    "5. Delete events:",
    "   - \"Delete event abc123\"",
    "   - \"Cancel the meeting with ID xyz789\"",
    "   - \"Remove all events tomorrow\"",
    "   - \"Clear all events for today\"",
    "",
    "You can also ask me questions about your calendar or request specific information!"
  ]

  /** The help reply: its lines joined by newlines. */
  const HelpText: string := Join(HelpLines, "\n")

  const NotUnderstood := "I'm having trouble understanding your request. Please try again or type 'help' for examples."
  const Unprocessable := "I understood your request but had trouble processing it. Please try again or rephrase your request."
  const NotSure := "I'm not sure how to help with that. Type 'help' to see what I can do."

  function UnknownOperation(name: string): string {
    "I don't know how to handle the operation: " + name + ". Please try rephrasing your request."
  }

  /** A tool call the model asks for: the function's name, and its arguments where `eval` of their text gives a dictionary. */
  datatype ToolCall = ToolCall(name: string, arguments: Option<Args>)

  /** What `_get_gpt_response` returns: nothing where the request fails, or the model's message. */
  datatype Response = NoResponse | Message(toolCalls: seq<ToolCall>, content: string)

  /** The five operations a tool call can name. */
  const Operations: set<string> := {"schedule_event", "show_events", "find_slots", "update_event", "delete_event"}

  /** Where `process_query` sends a query. */
  datatype Route =
    | BulkDelete(day: string)
    | Help
    | NoReply
    | Unreadable
    | Unknown(name: string)
    | Dispatch(name: string, params: Args)
    | Content(text: string)
    | Empty

  /** The queries answered with the examples. */
  predicate AsksHelp(low: string) {
    low == "help" || low == "?"
  }

  /**
   * The routing of `process_query` on the lower-cased query `low`: a
   * bulk-deletion phrase with a day word deletes that whole local day;
   * "help" or "?" is answered with the examples; otherwise the model's
   * first tool call is dispatched by name, or its text passed on.
   */
  function RouteOf(low: string, response: Response, localWall: int): (r: Route)
    requires InRange(localWall) && InRange(localWall + DayMicros)
    ensures r.BulkDelete? <==> BulkPhrase(low) && (Contains(low, "tomorrow") || Contains(low, "today"))
    ensures r.BulkDelete? ==> StrptimeDate(r.day) == Some(DayOf(localWall) + (if Contains(low, "tomorrow") then 1 else 0))
    ensures r.Help? <==> !r.BulkDelete? && AsksHelp(low)
    ensures r.Dispatch? <==> (!r.BulkDelete? && !AsksHelp(low)
      && response.Message? && response.toolCalls != [] && response.toolCalls[0].arguments.Some?
      && response.toolCalls[0].name in Operations)
    ensures r.Dispatch? ==> r.name == response.toolCalls[0].name && r.params == response.toolCalls[0].arguments.value
  {
    var day := BulkDay(Contains(low, "tomorrow"), Contains(low, "today"), localWall);
    if BulkPhrase(low) && day.Some? then BulkDelete(day.value)
    else if AsksHelp(low) then Help
    else
      match response
      case NoResponse => NoReply
      case Message(calls, content) =>
        if calls != [] then
          var call := calls[0];
          if call.arguments.None? then Unreadable
          else if call.name in Operations then Dispatch(call.name, call.arguments.value)
          else Unknown(call.name)
        else if content != "" then Content(content)
        else Empty
  }

  /** A model reply without tool calls is passed on as it is, or noted as empty. */
  lemma ContentPassedOn(low: string, content: string, localWall: int)
    requires InRange(localWall) && InRange(localWall + DayMicros)
    requires !BulkPhrase(low) && !AsksHelp(low)
    ensures RouteOf(low, Message([], content), localWall) == if content != "" then Content(content) else Empty
  {
  }

  /** The reply of `handle_show_events` once the window is settled: the header and one line per event, or the no-events line. */
  function ShowText(from: string, to: string, note: string, events: seq<Event>, display: string -> string): string {
    if events == [] then NoEvents(from, to, display)
    else Join([ShowHeader(from, to, note, display)] + EventLines(events, display), "\n")
  }

  /** The listing loop of `handle_show_events`. */
  method ShowLines(from: string, to: string, note: string, events: seq<Event>, display: string -> string) returns (reply: string)
    ensures reply == ShowText(from, to, note, events, display)
  {
    if events == [] {
      return NoEvents(from, to, display);
    }
    var lines := [ShowHeader(from, to, note, display)];
    for i := 0 to |events|
      invariant |lines| == 1 + i && lines[0] == ShowHeader(from, to, note, display)
      invariant forall j :: 0 <= j < i ==> lines[1 + j] == EventLine(events[j], display)
    {
      lines := lines + [EventLine(events[i], display)];
    }
    assert lines == [ShowHeader(from, to, note, display)] + EventLines(events, display);
    reply := Join(lines, "\n");
  }

  /** The reply of `handle_find_slots` once the free starts are known. */
  function SlotText(slots: seq<Slot>, durationMinutes: int, date: string, display: string -> string): string {
    if slots == [] then NoSlots(durationMinutes, date)
    else Join(SlotReplyLines(slots, durationMinutes, date, display), "\n")
  }

  /** The reply loop of `handle_find_slots`: the first five slots, then a count of the rest. */
  method SlotReply(slots: seq<Slot>, durationMinutes: int, date: string, display: string -> string) returns (reply: string)
    ensures reply == SlotText(slots, durationMinutes, date, display)
  {
    if slots == [] {
      return NoSlots(durationMinutes, date);
    }
    var n := Min(|slots|, 5);
    var lines := [SlotHeader(durationMinutes, date)];
    for i := 0 to n
      invariant |lines| == 1 + i && lines[0] == SlotHeader(durationMinutes, date)
      invariant forall j :: 0 <= j < i ==> lines[1 + j] == SlotLine(slots[j], display)
    {
      lines := lines + [SlotLine(slots[i], display)];
    }
    if |slots| > 5 {
      lines := lines + [MoreSlots(|slots| - 5)];
    }
    assert lines == SlotReplyLines(slots, durationMinutes, date, display);
    reply := Join(lines, "\n");
  }

  /** Each event carries the id of the entry at the same position. */
  predicate IdsMatch(events: seq<Event>, xs: seq<Entry>) {
    |events| == |xs| && forall k :: 0 <= k < |xs| ==> events[k].id == Some(xs[k].id)
  }

  lemma ResourceIds(xs: seq<Entry>)
    requires forall x :: x in xs ==> x.Valid()
    ensures IdsMatch(Resources(xs), xs)
  {
  }

  /** The id of a listed event is not among those of the events listed before it: the stored ids are distinct. */
  lemma Unlisted(events: seq<Event>, xs: seq<Entry>, i: int)
    requires DistinctBy(xs, (x: Entry) => x.id) && IdsMatch(events, xs) && 0 <= i < |xs|
    ensures xs[i].id !in NamedIdsTo(events, i)
  {
    forall k | 0 <= k < i && Named(events[k]) ensures events[k].id.value != xs[i].id {
      assert xs[k].id != xs[i].id;
    }
  }

  /** The reply of a route that runs no calendar operation; None for the routes that do. */
  function FixedReply(route: Route): (r: Option<string>)
    ensures r.None? <==> (route.BulkDelete? || route.Dispatch?)
    ensures route.Unknown? ==> r == Some(UnknownOperation(route.name))
    ensures route.Content? ==> r == Some(route.text)
  {
    match route
    case Help => Some(HelpText)
    case NoReply => Some(NotUnderstood)
    case Unreadable => Some(Unprocessable)
    case Unknown(name) => Some(UnknownOperation(name))
    case Content(text) => Some(text)
    case Empty => Some(NotSure)
    case _ => None
  }

  // ---------------------------------------------------------------------
  // The bot

  /**
   * `CalendarGPTBot` with its handler. The model's replies come in as
   * `Response` values, the clock as `now`, and `display` stands for
   * `_format_event_time`.
   */
  class CalendarGptBot {
    const handler: CalendarHandler
    /** The machine's fixed UTC offset in minutes. */
    const localOffset: int
    const display: string -> string

    constructor (handler: CalendarHandler, localOffset: int, display: string -> string)
      ensures this.handler == handler && this.localOffset == localOffset && this.display == display
    {
      this.handler := handler;
      this.localOffset := localOffset;
      this.display := display;
    }

    predicate Valid()
      reads this, handler, handler.service
    {
      handler.Valid()
    }

    /** The reply of `handle_show_events`. */
    function ShowReply(params: Args, now: int): string
      requires Valid() && ClockReads(now, localOffset)
      reads this, handler, handler.service
    {
      ShowReplyOf(ShowRequest(params, now, localOffset), now)
    }

    /** The reply for a settled window, or the error when none could be settled. */
    function ShowReplyOf(request: Option<(string, string, string)>, now: int): string
      requires Valid() && ClockReads(now, localOffset)
      reads this, handler, handler.service
    {
      if request.None? then ShowError
      else
        var w := request.value;
        ShowText(w.0, w.1, w.2, handler.GetEvents(Some(w.0), Some(w.1), None, DefaultMaxResults, DateTime(now, Some(0))), display)
    }

    /** `handle_show_events`: the events of the settled window, one line each under a header. */
    method HandleShowEvents(params: Args, now: int) returns (reply: string)
      requires Valid() && ClockReads(now, localOffset)
      ensures reply == ShowReply(params, now)
    {
      var request := ShowRequest(params, now, localOffset);
      reply := ShowSettled(request, now);
    }

    method ShowSettled(request: Option<(string, string, string)>, now: int) returns (reply: string)
      requires Valid() && ClockReads(now, localOffset)
      ensures reply == ShowReplyOf(request, now)
    {
      if request.None? {
        return ShowError;
      }
      var w := request.value;
      var events := handler.GetEvents(Some(w.0), Some(w.1), None, DefaultMaxResults, DateTime(now, Some(0)));
      reply := ShowLines(w.0, w.1, w.2, events, display);
    }

    /**
     * The reply of `handle_find_slots`, with the candidate slots compared
     * as aware UTC datetimes (the source compares naive ones and raises
     * whenever an event is listed).
     */
    function FindReply(params: Args, now: int): string
      requires Valid() && ClockReads(now, localOffset)
      reads this, handler, handler.service
    {
      if "date" !in params || !params["date"].Text? then FindError
      else
        var date := FindDate(params["date"].text, now, localOffset);
        var events := handler.GetEvents(Some(DayFirst(date)), Some(DayLast(date)), None, DefaultMaxResults, DateTime(now, Some(0)));
        var first, last := StrptimeSlot(date, OpeningHour), StrptimeSlot(date, ClosingHour);
        if first.None? || last.None? || "duration_minutes" !in params || !params["duration_minutes"].Number? then FindError
        else
          var d := params["duration_minutes"].number;
          match Scan(first.value, d * MinuteMicros, last.value, EventClashAt(events, Some(0)))
          case None => FindError
          case Some(starts) => SlotText(SlotsOf(starts, d * MinuteMicros, d), d, date, display)
    }

    /** `handle_find_slots`: the free half-hour-step slots of 09:00 to 17:00 of the date, at most five shown. */
    method HandleFindSlots(params: Args, now: int) returns (reply: string)
      requires Valid() && ClockReads(now, localOffset)
      ensures reply == FindReply(params, now)
    {
      if "date" !in params || !params["date"].Text? {
        return FindError;
      }
      var date := FindDate(params["date"].text, now, localOffset);
      var events := handler.GetEvents(Some(DayFirst(date)), Some(DayLast(date)), None, DefaultMaxResults, DateTime(now, Some(0)));
      var first, last := StrptimeSlot(date, OpeningHour), StrptimeSlot(date, ClosingHour);
      if first.None? || last.None? || "duration_minutes" !in params || !params["duration_minutes"].Number? {
        return FindError;
      }
      var d := params["duration_minutes"].number;
      var starts := FreeStarts(first.value, last.value, d * MinuteMicros, EventClashAt(events, Some(0)));
      if starts.None? {
        return FindError;
      }
      var slots := SlotsOf(starts.value, d * MinuteMicros, d);
      reply := SlotReply(slots, d, date, display);
    }

    /**
     * `handle_schedule_event`: one `add_event` on the default calendar
     * with the parsed start; the reply names the new id, or says why
     * nothing was added.
     */
    /**
     * What `handle_schedule_event` does: one `add_event` on the default
     * calendar with the parsed start; the reply names the new id, or says
     * why nothing was added.
     */
    twostate predicate ScheduleEffect(params: Args, now: int, reply: string)
      requires old(Valid()) && ClockReads(now, localOffset)
      reads this, handler, handler.service
    {
      (handler.service != null ==> handler.service.calendarList == old(handler.service.calendarList))
      && (ScheduleCall(params, now, localOffset).None? ==>
        reply == ScheduleError(params, now, localOffset)
        && (handler.service != null ==>
              handler.service.entries == old(handler.service.entries) && handler.service.notices == old(handler.service.notices)))
      && (ScheduleCall(params, now, localOffset).Some? ==>
        var (title, w, n, description) := ScheduleCall(params, now, localOffset).value;
        var made := EventBody(title, StrftimeZ(w), n, description, "", [], false, None);
        var cal := handler.defaultCalendarId;
        var added := handler.service != null && made.Some? && cal in old(handler.service.entries)
          && Accept(made.value.0, "").Some?;
        (added ==>
           var xs := old(handler.service.entries)[cal];
           reply == Scheduled(title, ArgText(params["start_time"]), n, FreshId(xs), display)
           && handler.service.entries == old(handler.service.entries)[cal := xs + [Accept(made.value.0, FreshId(xs)).value]]
           && handler.service.notices == old(handler.service.notices) + [made.value.1])
        && (!added ==>
              reply == ScheduleFailed
              && (handler.service != null ==>
                    handler.service.entries == old(handler.service.entries) && handler.service.notices == old(handler.service.notices))))
    }

    /** `handle_schedule_event`. */
    method HandleScheduleEvent(params: Args, now: int) returns (reply: string)
      requires Valid() && ClockReads(now, localOffset)
      modifies handler.service
      ensures Valid()
      ensures ScheduleEffect(params, now, reply)
    {
      var call := ScheduleCall(params, now, localOffset);
      if call.None? {
        return ScheduleError(params, now, localOffset);
      }
      var (title, w, n, description) := call.value;
      var id := handler.AddEvent(title, StrftimeZ(w), n, description, "", [], None, false, None);
      if id.Some? && id.value != "" {
        reply := Scheduled(title, ArgText(params["start_time"]), n, id.value, display);
      } else {
        reply := ScheduleFailed;
      }
    }

    /**
     * What `handle_update_event` does: the given title, start and
     * description replace the stored ones of the event on the default
     * calendar. A start that parses always reads back, so the update itself
     * never raises.
     */
    twostate predicate UpdateEffect(params: Args, now: int, reply: string)
      requires old(Valid()) && ClockReads(now, localOffset)
      reads this, handler, handler.service
    {
      (handler.service != null ==> handler.service.calendarList == old(handler.service.calendarList))
      && (UpdateStart(params, now, localOffset).None? ==>
        reply == "Error updating event: " + ParseError(ArgText(params["start_time"])))
      && (UpdateStart(params, now, localOffset).Some? && "event_id" !in params ==>
        reply == "Error updating event: 'event_id'")
      && (UpdateStart(params, now, localOffset).Some? && "event_id" in params ==>
        var id := ArgText(params["event_id"]);
        var cal := handler.defaultCalendarId;
        var got := if handler.service == null then None else old(handler.service.Get(cal, id));
        var merged := if got.Some? then Merge(got.value, TextOr(params, "title"), UpdateStart(params, now, localOffset).value, "",
                                              TextOr(params, "description"), "", []) else None;
        (got.Some? ==> merged.Some?)
        && (reply == UpdateDone <==> merged.Some? && Accept(merged.value, id).Some?)
        && (reply != UpdateDone ==> reply == UpdateFailed)
        && (reply == UpdateDone ==>
              handler.service.entries == old(handler.service.entries)[cal := Replaced(old(handler.service.entries)[cal], id, Accept(merged.value, id).value)]
              && handler.service.notices == old(handler.service.notices) + ["all"]))
      && (reply != UpdateDone && handler.service != null ==>
        handler.service.entries == old(handler.service.entries) && handler.service.notices == old(handler.service.notices))
    }

    /** `handle_update_event`. */
    method HandleUpdateEvent(params: Args, now: int) returns (reply: string)
      requires Valid() && ClockReads(now, localOffset)
      modifies handler.service
      ensures Valid()
      ensures UpdateEffect(params, now, reply)
    {
      var start := UpdateStart(params, now, localOffset);
      if start.None? {
        return "Error updating event: " + ParseError(ArgText(params["start_time"]));
      }
      if "event_id" !in params {
        return "Error updating event: 'event_id'";
      }
      var r := handler.UpdateEvent(ArgText(params["event_id"]), TextOr(params, "title"), start.value, "",
                                   TextOr(params, "description"), "", [], None);
      reply := if r == Some(true) then UpdateDone else UpdateFailed;
    }

    /** What `handle_delete_event` does: the event of that id leaves the default calendar, where it is there. */
    twostate predicate DeleteEffect(params: Args, reply: string)
      requires old(Valid())
      reads this, handler, handler.service
    {
      (handler.service != null ==> handler.service.calendarList == old(handler.service.calendarList))
      && ("event_id" !in params ==> reply == "Error deleting event: 'event_id'")
      && ("event_id" in params ==>
        var id := ArgText(params["event_id"]);
        var cal := handler.defaultCalendarId;
        var found := handler.service != null && old(handler.service.Find(cal, id)).Some?;
        (reply == DeleteDone <==> found)
        && (!found ==> reply == DeleteFailed)
        && (found ==>
              handler.service.entries == old(handler.service.entries)[cal := Without(old(handler.service.entries)[cal], id)]
              && handler.service.notices == old(handler.service.notices) + ["all"]))
      && (reply != DeleteDone && handler.service != null ==>
        handler.service.entries == old(handler.service.entries) && handler.service.notices == old(handler.service.notices))
    }

    /** `handle_delete_event`. */
    method HandleDeleteEvent(params: Args) returns (reply: string)
      requires Valid()
      modifies handler.service
      ensures Valid()
      ensures DeleteEffect(params, reply)
    {
      if "event_id" !in params {
        return "Error deleting event: 'event_id'";
      }
      var ok := handler.DeleteEvent(ArgText(params["event_id"]), None);
      reply := if ok then DeleteDone else DeleteFailed;
    }

    /**
     * The deletion loop's invariant after `i` events: the default calendar
     * has lost exactly the entries of the named ids so far, one notice was
     * sent per deletion, and nothing else has changed.
     */
    ghost predicate Progress(events: seq<Event>, i: int, count: nat, before: map<string, seq<Entry>>, noticesBefore: seq<string>,
                             calendars: seq<CalendarEntry>)
      requires 0 <= i <= |events|
      reads this, handler, handler.service
    {
      var cal := handler.defaultCalendarId;
      handler.service != null && handler.service.Valid() && cal in before && cal in handler.service.entries
      && handler.service.entries == before[cal := handler.service.entries[cal]]
      && (forall x :: x in handler.service.entries[cal] <==> x in before[cal] && x.id !in NamedIdsTo(events, i))
      && count == NamedCount(events, i)
      && handler.service.notices == noticesBefore + Alls(count)
      && handler.service.calendarList == calendars
    }

    /** Before the first deletion, the invariant holds with no ids named. */
    lemma ProgressStart(events: seq<Event>, before: map<string, seq<Entry>>, noticesBefore: seq<string>, calendars: seq<CalendarEntry>)
      requires Valid() && handler.service != null && handler.defaultCalendarId in handler.service.entries
      requires before == handler.service.entries && noticesBefore == handler.service.notices && calendars == handler.service.calendarList
      ensures Progress(events, 0, 0, before, noticesBefore, calendars)
    {
      assert noticesBefore + Alls(0) == noticesBefore;
    }

    /** One step of the deletion loop of `handle_bulk_delete`. */
    method DeleteNext(events: seq<Event>, ghost xs: seq<Entry>, i: int, count: nat, ghost before: map<string, seq<Entry>>,
                      ghost noticesBefore: seq<string>, ghost calendars: seq<CalendarEntry>) returns (next: nat)
      requires 0 <= i < |events| && DistinctBy(xs, (x: Entry) => x.id) && IdsMatch(events, xs)
      requires handler.defaultCalendarId in before && forall x :: x in xs ==> x in before[handler.defaultCalendarId]
      requires Progress(events, i, count, before, noticesBefore, calendars)
      modifies handler.service
      ensures Progress(events, i + 1, next, before, noticesBefore, calendars)
    {
      var cal := handler.defaultCalendarId;
      next := count;
      if Named(events[i]) {
        Unlisted(events, xs, i);
        ghost var cur := handler.service.entries[cal];
        assert xs[i] in cur;
        var ok := handler.DeleteEvent(events[i].id.value, None);
        DeleteStep(cur, before[cal], events, i);
        assert ok && before[cal := cur][cal := Without(cur, events[i].id.value)] == before[cal := Without(cur, events[i].id.value)];
        if ok {
          next := next + 1;
        }
        assert Alls(count) + ["all"] == Alls(next);
      } else {
        NamedIdsSkip(events, i);
      }
    }

    /**
     * The deletion loop of `handle_bulk_delete` over events the default
     * calendar listed: each one with an id is deleted. The listed entries
     * are stored ones with distinct ids, so each deletion finds its event
     * and the count is the number of named events.
     */
    method DeleteListed(events: seq<Event>, ghost xs: seq<Entry>) returns (count: nat)
      requires Valid() && handler.service != null
      requires handler.defaultCalendarId in handler.service.entries
      requires DistinctBy(xs, (x: Entry) => x.id) && IdsMatch(events, xs)
      requires forall x :: x in xs ==> x in handler.service.entries[handler.defaultCalendarId]
      modifies handler.service
      ensures Progress(events, |events|, count, old(handler.service.entries), old(handler.service.notices), old(handler.service.calendarList))
    {
      ghost var before := handler.service.entries;
      ghost var noticesBefore := handler.service.notices;
      ghost var calendars := handler.service.calendarList;
      count := 0;
      ProgressStart(events, before, noticesBefore, calendars);
      var i := 0;
      while i < |events|
        invariant 0 <= i <= |events|
        invariant Progress(events, i, count, before, noticesBefore, calendars)
      {
        count := DeleteNext(events, xs, i, count, before, noticesBefore, calendars);
        i := i + 1;
      }
    }

    /** The entries behind a non-empty listing of the default calendar: stored there, with distinct ids, one per event. */
    lemma ListedEntries(from: string, to: string, now: int) returns (xs: seq<Entry>)
      requires Valid()
      ensures var events := handler.GetEvents(Some(from), Some(to), None, DefaultMaxResults, DateTime(now, Some(0)));
        events != [] ==>
          handler.service != null && handler.defaultCalendarId in handler.service.entries
          && DistinctBy(xs, (x: Entry) => x.id) && IdsMatch(events, xs)
          && forall x :: x in xs ==> x in handler.service.entries[handler.defaultCalendarId]
    {
      var events := handler.GetEvents(Some(from), Some(to), None, DefaultMaxResults, DateTime(now, Some(0)));
      xs := [];
      if events != [] {
        var entries := handler.service.entries[handler.defaultCalendarId];
        xs := Listing(entries, Bound(from).value, Bound(to).value, DefaultMaxResults);
        ListingSpec(entries, Bound(from).value, Bound(to).value, DefaultMaxResults);
        ResourceIds(xs);
      }
    }

    /**
     * What the deletion part of `handle_bulk_delete` does with the listed
     * `events`: each one with an id leaves the default calendar; the reply
     * counts them.
     */
    twostate predicate BulkRemoved(events: seq<Event>, reply: string)
      requires old(Valid())
      reads this, handler, handler.service
    {
      var n := NamedCount(events, |events|);
      var cal := handler.defaultCalendarId;
      (events == [] ==>
         reply == NoneToDelete
         && (handler.service != null ==>
               handler.service.entries == old(handler.service.entries) && handler.service.notices == old(handler.service.notices)))
      && (events != [] ==>
            handler.service != null && cal in old(handler.service.entries) && cal in handler.service.entries
            && handler.service.entries == old(handler.service.entries)[cal := handler.service.entries[cal]]
            && (forall x :: x in handler.service.entries[cal] <==> x in old(handler.service.entries)[cal] && x.id !in NamedIdsTo(events, |events|))
            && handler.service.notices == old(handler.service.notices) + Alls(n)
            && reply == (if n > 0 then BulkDeleted(n) else BulkFailed))
    }

    /**
     * The events `handle_bulk_delete` lists from the default calendar for the
     * window, or None when either end of the window does not parse.
     */
    function BulkTargets(startTime: string, endTime: string, now: int): (r: Option<seq<Event>>)
      requires Valid() && ClockReads(now, localOffset)
      reads this, handler, handler.service
      ensures r.Some? <==> BulkWindow(startTime, endTime, now, localOffset).Some?
    {
      match BulkWindow(startTime, endTime, now, localOffset)
      case None => None
      case Some(window) => Some(handler.GetEvents(Some(window.0), Some(window.1), None, DefaultMaxResults, DateTime(now, Some(0))))
    }

    /**
     * What `handle_bulk_delete` does: the events the default calendar lists
     * for the window are deleted, each one with an id; the reply counts them.
     */
    twostate predicate BulkEffect(startTime: string, endTime: string, now: int, reply: string)
      requires old(Valid()) && ClockReads(now, localOffset)
      reads this, handler, handler.service
    {
      var targets := old(BulkTargets(startTime, endTime, now));
      (handler.service != null ==> handler.service.calendarList == old(handler.service.calendarList))
      && (targets.None? ==>
        reply == BulkError(startTime, endTime, now, localOffset)
        && (handler.service != null ==>
              handler.service.entries == old(handler.service.entries) && handler.service.notices == old(handler.service.notices)))
      && (targets.Some? ==> BulkRemoved(targets.value, reply))
    }

    /** `handle_bulk_delete`. */
    method HandleBulkDelete(startTime: string, endTime: string, now: int) returns (reply: string)
      requires Valid() && ClockReads(now, localOffset)
      modifies handler.service
      ensures Valid()
      ensures BulkEffect(startTime, endTime, now, reply)
    {
      var window := BulkWindow(startTime, endTime, now, localOffset);
      if window.None? {
        return BulkError(startTime, endTime, now, localOffset);
      }
      var (from, to) := window.value;
      var events := handler.GetEvents(Some(from), Some(to), None, DefaultMaxResults, DateTime(now, Some(0)));
      if events == [] {
        return NoneToDelete;
      }
      ghost var xs := ListedEntries(from, to, now);
      var count := DeleteListed(events, xs);
      reply := if count > 0 then BulkDeleted(count) else BulkFailed;
    }

    /** The tool call dispatch of `process_query`: the named one of the five calendar operations. */
    method RunTool(name: string, params: Args, now: int) returns (reply: string)
      requires Valid() && ClockReads(now, localOffset) && name in Operations
      modifies handler.service
      ensures Valid()
      ensures name == "schedule_event" ==> ScheduleEffect(params, now, reply)
      ensures name == "show_events" ==> reply == ShowReply(params, now)
      ensures name == "find_slots" ==> reply == FindReply(params, now)
      ensures name == "update_event" ==> UpdateEffect(params, now, reply)
      ensures name == "delete_event" ==> DeleteEffect(params, reply)
      ensures (name == "show_events" || name == "find_slots") && handler.service != null ==>
        handler.service.entries == old(handler.service.entries) && handler.service.notices == old(handler.service.notices)
    {
      if name == "schedule_event" {
        reply := HandleScheduleEvent(params, now);
      } else if name == "show_events" {
        reply := HandleShowEvents(params, now);
      } else if name == "find_slots" {
        reply := HandleFindSlots(params, now);
      } else if name == "update_event" {
        reply := HandleUpdateEvent(params, now);
      } else {
        reply := HandleDeleteEvent(params);
      }
    }

    /**
     * What `process_query` does once the query is routed: the route's fixed
     * reply, or the effect of the operation it names.
     */
    twostate predicate Answered(route: Route, now: int, reply: string)
      requires old(Valid()) && Valid() && ClockReads(now, localOffset)
      reads this, handler, handler.service
    {
      (FixedReply(route).Some? ==> reply == FixedReply(route).value)
      && (route.BulkDelete? ==> BulkEffect(route.day + "T00:00:00Z", route.day + "T23:59:59Z", now, reply))
      && (route.Dispatch? && route.name == "schedule_event" ==> ScheduleEffect(route.params, now, reply))
      && (route.Dispatch? && route.name == "show_events" ==> reply == ShowReply(route.params, now))
      && (route.Dispatch? && route.name == "find_slots" ==> reply == FindReply(route.params, now))
      && (route.Dispatch? && route.name == "update_event" ==> UpdateEffect(route.params, now, reply))
      && (route.Dispatch? && route.name == "delete_event" ==> DeleteEffect(route.params, reply))
      && ((FixedReply(route).Some? || (route.Dispatch? && route.name in {"show_events", "find_slots"}))
          && handler.service != null ==>
            handler.service.entries == old(handler.service.entries) && handler.service.notices == old(handler.service.notices))
    }

    /** The second half of `process_query`: the fixed reply or the handler a route names. */
    method Answer(route: Route, now: int) returns (reply: string)
      requires Valid() && ClockReads(now, localOffset)
      requires route.Dispatch? ==> route.name in Operations
      modifies handler.service
      ensures Valid()
      ensures Answered(route, now, reply)
    {
      var fixed := FixedReply(route);
      if fixed.Some? {
        reply := fixed.value;
      } else if route.BulkDelete? {
        reply := HandleBulkDelete(route.day + "T00:00:00Z", route.day + "T23:59:59Z", now);
      } else {
        reply := RunTool(route.name, route.params, now);
      }
    }

    /**
     * `process_query`: the query's route, then the handler or the fixed
     * reply it names. `response` stands for what the model answers to the
     * query; it is used only where the query is not intercepted.
     */
    method ProcessQuery(query: string, response: Response, now: int) returns (reply: string)
      requires Valid() && ClockReads(now, localOffset)
      modifies handler.service
      ensures Valid()
      ensures Answered(RouteOf(Lower(query), response, LocalNow(now, localOffset).wall), now, reply)
    {
      var route := RouteOf(Lower(query), response, LocalNow(now, localOffset).wall);
      reply := Answer(route, now);
    }
  }
}
