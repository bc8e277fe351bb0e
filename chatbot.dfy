/**
 * The command chatbot (`CalendarChatbot`): a query is trimmed and
 * lower-cased, the first command word it starts with picks a handler,
 * and each handler reads what it needs out of the query with a regular
 * expression before it calls the calendar handler.
 *
 * Each regular expression is modelled by a function that matches at the
 * start of a text (`re.match`) and by `Search`, which tries every start
 * position from the left (`re.search`). `\d`, `\s` and `\w` are read as
 * their ASCII classes. The clock is a parameter: `now` is the current
 * instant in UTC microseconds and `localOffset` the machine's fixed UTC
 * offset in minutes.
 */
module Chatbot {
  import opened Text
  import opened Chrono
  import opened Sorting
  import opened Service
  import opened Slots
  import opened Handler

  // ---------------------------------------------------------------------
  // Runs of characters

  /** The length of the run of decimal digits that starts `t`. */
  function DigitRun(t: string): (n: nat)
    ensures n <= |t| && AllDigits(t[..n])
    ensures n < |t| ==> !IsDigit(t[n])
  {
    if t != [] && IsDigit(t[0]) then
      var n := 1 + DigitRun(t[1..]);
      assert t[..n] == [t[0]] + t[1..][..n - 1];
      n
    else 0
  }

  /** The length of the run of white space that starts `t`. */
  function SpaceRun(t: string): (n: nat)
    ensures n <= |t| && forall i :: 0 <= i < n ==> IsSpace(t[i])
    ensures n < |t| ==> !IsSpace(t[n])
  {
    if t != [] && IsSpace(t[0]) then 1 + SpaceRun(t[1..]) else 0
  }

  /** The length of the run of word characters (`\w`) that starts `t`. */
  function WordRun(t: string): (n: nat)
    ensures n <= |t| && forall i :: 0 <= i < n ==> IsWordChar(t[i])
    ensures n < |t| ==> !IsWordChar(t[n])
  {
    if t != [] && IsWordChar(t[0]) then 1 + WordRun(t[1..]) else 0
  }

  // ---------------------------------------------------------------------
  // Leftmost search

  /**
   * `re.search` from position `p` on: the first position at which `at`
   * matches the rest of `s`, with what it matched there.
   */
  function SearchFrom<T>(s: string, p: nat, at: string -> Option<T>): (r: Option<(nat, T)>)
    requires p <= |s|
    decreases |s| - p
    ensures r.Some? ==> p <= r.value.0 <= |s| && at(s[r.value.0..]) == Some(r.value.1)
    ensures forall q :: p <= q <= |s| && (r.None? || q < r.value.0) ==> at(s[q..]).None?
  {
    match at(s[p..])
    case Some(v) => Some((p, v))
    case None => if p == |s| then None else SearchFrom(s, p + 1, at)
  }

  /** `re.search`: the leftmost position at which `at` matches, and its match. */
  function Search<T>(s: string, at: string -> Option<T>): (r: Option<(nat, T)>)
    ensures r.Some? ==> r.value.0 <= |s| && at(s[r.value.0..]) == Some(r.value.1)
    ensures forall q :: 0 <= q <= |s| && (r.None? || q < r.value.0) ==> at(s[q..]).None?
  {
    SearchFrom(s, 0, at)
  }

  /** What a search found, or None. */
  function Found<T>(r: Option<(nat, T)>): Option<T> {
    if r.Some? then Some(r.value.1) else None
  }

  /** A match at a position is the search's result when no position before it matches. */
  lemma SearchFinds<T>(s: string, p: nat, at: string -> Option<T>)
    requires p <= |s| && at(s[p..]).Some?
    requires forall q :: 0 <= q < p ==> at(s[q..]).None?
    ensures Search(s, at) == Some((p, at(s[p..]).value))
  {
  }

  // ---------------------------------------------------------------------
  // Durations

  /** The alternatives of `(hour|hr|minute|min|m|h)`, in the order they are tried. */
  const Units: seq<string> := ["hour", "hr", "minute", "min", "m", "h"]

  /** The units counted in hours. */
  predicate Hourly(unit: string) {
    unit == "hour" || unit == "hr" || unit == "h"
  }

  /** The first unit alternative that `t` starts with. */
  function UnitAt(t: string): (r: Option<string>)
    ensures r.Some? ==> r.value in Units && StartsWith(t, r.value)
    ensures r.Some? <==> t != [] && (t[0] == 'h' || t[0] == 'm')
  {
    if StartsWith(t, "hour") then Some("hour")
    else if StartsWith(t, "hr") then Some("hr")
    else if StartsWith(t, "minute") then Some("minute")
    else if StartsWith(t, "min") then Some("min")
    else if StartsWith(t, "m") then Some("m")
    else if StartsWith(t, "h") then Some("h")
    else None
  }

  /** A matched duration: the number, the unit, and the length of the match. */
  datatype Amount = Amount(number: nat, unit: string, end: nat)

  /**
   * `re.match(r'(\d+)\s*(hour|hr|minute|min|m|h)s?', t)`. The digits are
   * all the leading digits (fewer would leave a digit where a blank or a
   * unit is needed), then all the blanks, then the first unit alternative.
   */
  function AmountAt(t: string): (r: Option<Amount>)
    ensures r.Some? ==> r.value.unit in Units && 0 < r.value.end <= |t|
    ensures t == [] || !IsDigit(t[0]) ==> r.None?
    ensures DigitRun(t) > 0 && UnitAt(t[UnitStart(t)..]).Some? ==>
      r.Some? && r.value.unit == UnitAt(t[UnitStart(t)..]).value && r.value.number == DigitsValue(t[..DigitRun(t)])
  {
    if DigitRun(t) == 0 then None
    else AmountWith(t, DigitRun(t), UnitStart(t), UnitAt(t[UnitStart(t)..]))
  }

  /** Where the unit is looked for: past the leading digits and the blanks after them. */
  function UnitStart(t: string): (j: nat)
    ensures DigitRun(t) <= j <= |t|
  {
    DigitRun(t) + SpaceRun(t[DigitRun(t)..])
  }

  /** The match with digits up to `k`, blanks up to `j` and the unit alternative found there, if any. */
  function AmountWith(t: string, k: nat, j: nat, unit: Option<string>): (r: Option<Amount>)
    requires 0 < k <= j <= |t| && AllDigits(t[..k]) && (unit.Some? ==> j + |unit.value| <= |t|)
    ensures r.Some? <==> unit.Some?
    ensures r.Some? ==> r.value.unit == unit.value && r.value.number == DigitsValue(t[..k])
    ensures r.Some? ==> j + |unit.value| <= r.value.end <= |t|
  {
    match unit
    case None => None
    case Some(u) =>
      var e := j + |u|;
      Some(Amount(DigitsValue(t[..k]), u, if e < |t| && t[e] == 's' then e + 1 else e))
  }

  /** The number of minutes a matched duration stands for. */
  function Minutes(a: Amount): nat {
    if Hourly(a.unit) then a.number * 60 else a.number
  }

  /** `_parse_duration`: minutes from text such as "90 min" or "2 hours"; 60 when the text does not match. */
  function ParseDuration(s: string): (r: nat)
    ensures Lower(s) == [] || !IsDigit(Lower(s)[0]) ==> r == 60
  {
    match AmountAt(Lower(s))
    case None => 60
    case Some(a) => Minutes(a)
  }

  /** The leading digit run of digits followed by a non-digit is those digits. */
  lemma {:induction false} DigitRunOf(d: string, t: string)
    requires AllDigits(d) && (t == [] || !IsDigit(t[0]))
    ensures DigitRun(d + t) == |d|
  {
    if d != [] {
      assert (d + t)[1..] == d[1..] + t;
      DigitRunOf(d[1..], t);
    }
  }

  /** The leading blank run of blanks followed by a non-blank is those blanks. */
  lemma {:induction false} SpaceRunOf(g: string, t: string)
    requires (forall i :: 0 <= i < |g| ==> IsSpace(g[i])) && (t == [] || !IsSpace(t[0]))
    ensures SpaceRun(g + t) == |g|
  {
    if g != [] {
      assert (g + t)[1..] == g[1..] + t;
      SpaceRunOf(g[1..], t);
    }
  }

  /** Whatever follows a unit, the alternative found counts in the same way. */
  lemma UnitOf(unit: string, rest: string)
    requires unit in Units
    ensures UnitAt(unit + rest).Some? && (Hourly(UnitAt(unit + rest).value) <==> Hourly(unit))
  {
    assert (unit + rest)[0] == unit[0];
  }

  /** A digit string, blanks, a unit and anything after it match as that number; the unit found counts in the same way. */
  lemma AmountOfText(d: string, gap: string, unit: string, rest: string)
    requires d != [] && AllDigits(d) && forall i :: 0 <= i < |gap| ==> IsSpace(gap[i])
    requires unit in Units
    ensures var a := AmountAt(d + gap + unit + rest);
      a.Some? && a.value.number == DigitsValue(d) && (Hourly(a.value.unit) <==> Hourly(unit))
  {
    var t := d + gap + unit + rest;
    assert t == d + gap + (unit + rest);
    TextRuns(d, gap, unit + rest);
    UnitOf(unit, rest);
  }

  /** Where the digits and the blanks of `d + gap + u` end, for a `u` that starts with a letter. */
  lemma TextRuns(d: string, gap: string, u: string)
    requires d != [] && AllDigits(d) && forall i :: 0 <= i < |gap| ==> IsSpace(gap[i])
    requires u != [] && !IsDigit(u[0]) && !IsSpace(u[0])
    ensures var t := d + gap + u;
      DigitRun(t) == |d| && t[..|d|] == d && t[UnitStart(t)..] == u
  {
    var t := d + gap + u;
    assert t == d + (gap + u);
    DigitRunOf(d, gap + u);
    assert t[..|d|] == d;
    assert t[|d|..] == gap + u;
    SpaceRunOf(gap, u);
    assert t[|d| + |gap|..] == u;
  }

  /** Lower-casing leaves text without capital letters as it is. */
  lemma LowerKeeps(s: string)
    requires forall i :: 0 <= i < |s| ==> !('A' <= s[i] <= 'Z')
    ensures Lower(s) == s
  {
  }

  /**
   * `str(n)` followed by blanks and a unit reads back as `n` minutes, or
   * `n` hours for an hour unit, whatever lower-case text follows the unit
   * ("90 minutes", "2 hrs", "1h").
   */
  lemma ParseDurationText(n: nat, gap: string, unit: string, rest: string)
    requires forall i :: 0 <= i < |gap| ==> IsSpace(gap[i]) && !('A' <= gap[i] <= 'Z')
    requires unit in Units && forall i :: 0 <= i < |rest| ==> !('A' <= rest[i] <= 'Z')
    ensures ParseDuration(NatToString(n) + gap + unit + rest) == if Hourly(unit) then n * 60 else n
  {
    var s := NatToString(n) + gap + unit + rest;
    forall i | 0 <= i < |s| ensures !('A' <= s[i] <= 'Z') {
      if i < |NatToString(n)| {
        assert s[i] == NatToString(n)[i];
      } else if i < |NatToString(n)| + |gap| {
        assert s[i] == gap[i - |NatToString(n)|];
      } else if i < |NatToString(n)| + |gap| + |unit| {
        assert s[i] == unit[i - |NatToString(n)| - |gap|];
      } else {
        assert s[i] == rest[i - |NatToString(n)| - |gap| - |unit|];
      }
    }
    LowerKeeps(s);
    AmountOfText(NatToString(n), gap, unit, rest);
    NatToStringValue(n);
  }

  /** The default of both handlers, "1 hour", is 60 minutes. */
  lemma DefaultDuration()
    ensures ParseDuration("1 hour") == 60
  {
    assert NatToString(1) + " " + "hour" + "" == "1 hour";
    ParseDurationText(1, " ", "hour", "");
  }

  // ---------------------------------------------------------------------
  // The patterns the handlers search for

  /** `\d{4}-\d{2}-\d{2}` at the start of `t`. */
  predicate DateTextAt(t: string) {
    |t| >= 10 && IsDigit(t[0]) && IsDigit(t[1]) && IsDigit(t[2]) && IsDigit(t[3]) && t[4] == '-'
    && IsDigit(t[5]) && IsDigit(t[6]) && t[7] == '-' && IsDigit(t[8]) && IsDigit(t[9])
  }

  /** `(tomorrow|today|\d{4}-\d{2}-\d{2})` at the start of `t`: the word it matched. */
  function DayWordAt(t: string): (r: Option<string>)
    ensures r.Some? ==> StartsWith(t, r.value)
    ensures r.Some? ==> r.value == "tomorrow" || r.value == "today" || DateTextAt(r.value)
  {
    if StartsWith(t, "tomorrow") then Some("tomorrow")
    else if StartsWith(t, "today") then Some("today")
    else if DateTextAt(t) then Some(t[..10])
    else None
  }

  /** `\d{1,2}:\d{2}` at the start of `t`: two hour digits where two lead to the colon, else one. */
  function ClockAt(t: string): (r: Option<string>)
    ensures r.Some? ==> StartsWith(t, r.value) && 4 <= |r.value| <= 5 && r.value[|r.value| - 3] == ':'
  {
    if |t| >= 5 && IsDigit(t[0]) && IsDigit(t[1]) && t[2] == ':' && IsDigit(t[3]) && IsDigit(t[4]) then Some(t[..5])
    else if |t| >= 4 && IsDigit(t[0]) && t[1] == ':' && IsDigit(t[2]) && IsDigit(t[3]) then Some(t[..4])
    else None
  }

  /**
   * Where `\s*(?:at)?\s*` stops when it starts at the beginning of `u`:
   * past the blanks, an "at" and the blanks after it. Giving any of it
   * back leaves a blank or an 'a' where the clock's digit is needed, so
   * the clock is tried at this position only.
   */
  function AtGap(u: string): (m: nat)
    ensures m <= |u|
  {
    var j := SpaceRun(u);
    if StartsWith(u[j..], "at") then j + 2 + SpaceRun(u[j + 2..]) else j
  }

  /** `(tomorrow|today|\d{4}-\d{2}-\d{2})\s*(?:at)?\s*(\d{1,2}:\d{2})` at the start of `t`: the day word and the clock. */
  function WhenAt(t: string): (r: Option<(string, string)>)
    ensures r.Some? ==> StartsWith(t, r.value.0) && DayWordAt(t) == Some(r.value.0)
  {
    match DayWordAt(t)
    case None => None
    case Some(w) =>
      var u := t[|w|..];
      match ClockAt(u[AtGap(u)..])
      case None => None
      case Some(c) => Some((w, c))
  }

  /** `"([^"]*)"` at the start of `t`: the text up to the next quote. */
  function QuotedAt(t: string): (r: Option<string>)
    ensures r.Some? ==> StartsWith(t, "\"" + r.value + "\"")
    ensures r.Some? ==> forall i :: 0 <= i < |r.value| ==> r.value[i] != '"'
  {
    if t == [] || t[0] != '"' then None
    else
      match Find(t[1..], "\"")
      case None => None
      case Some(k) =>
        QuoteFree(t, k);
        Some(t[1..1 + k])
  }

  /** No quote comes before the first one after the opening quote. */
  lemma QuoteFree(t: string, k: nat)
    requires 1 + k <= |t| && forall i :: 0 <= i < k ==> !OccursAt(t[1..], "\"", i)
    ensures forall i :: 1 <= i < 1 + k ==> t[i] != '"'
  {
    forall i | 1 <= i < 1 + k ensures t[i] != '"' {
      assert !OccursAt(t[1..], "\"", i - 1);
      assert t[1..][i - 1..i] == [t[i]];
    }
  }

  /** `word\s+` at the start of `t`: the text after the blanks. */
  function AfterWord(t: string, word: string): (r: Option<string>)
    ensures r.Some? ==> StartsWith(t, word) && |r.value| < |t| - |word| && r.value == t[|t| - |r.value|..]
    ensures r.Some? ==> r.value == [] || !IsSpace(r.value[0])
  {
    if StartsWith(t, word) && SpaceRun(t[|word|..]) > 0 then Some(t[|word| + SpaceRun(t[|word|..])..]) else None
  }

  /** `for\s+(\d+\s*(?:hour|hr|minute|min|m|h)s?)` at the start of `t`: the duration text. */
  function ForAmountAt(t: string): (r: Option<string>)
  {
    match AfterWord(t, "for")
    case None => None
    case Some(u) =>
      match AmountAt(u)
      case None => None
      case Some(a) => Some(u[..a.end])
  }

  /** `(\d+\s*(?:hour|hr|minute|min|m|h)s?)` at the start of `t`: the duration text. */
  function AmountTextAt(t: string): (r: Option<string>)
    ensures r.Some? ==> StartsWith(t, r.value) && r.value != []
  {
    match AmountAt(t)
    case None => None
    case Some(a) => Some(t[..a.end])
  }

  /** `event\s+(\w+)` at the start of `t`: the event id. */
  function EventIdAt(t: string): (r: Option<string>)
    ensures r.Some? ==> r.value != [] && forall i :: 0 <= i < |r.value| ==> IsWordChar(r.value[i])
  {
    match AfterWord(t, "event")
    case None => None
    case Some(u) => if WordRun(u) > 0 then Some(u[..WordRun(u)]) else None
  }

  /** `title\s+"([^"]*)"` at the start of `t`: the new title. */
  function TitleAt(t: string): (r: Option<string>)
    ensures r.Some? ==> forall i :: 0 <= i < |r.value| ==> r.value[i] != '"'
  {
    match AfterWord(t, "title")
    case None => None
    case Some(u) => QuotedAt(u)
  }

  /** `time\s+(\d{4}-\d{2}-\d{2}\s+\d{2}:\d{2})` at the start of `t`: the date and time text. */
  function TimeAt(t: string): (r: Option<string>)
    ensures r.Some? ==> DateTextAt(r.value) && 16 <= |r.value|
  {
    match AfterWord(t, "time")
    case None => None
    case Some(u) =>
      if !DateTextAt(u) then None
      else
        var k := SpaceRun(u[10..]);
        var c := 10 + k;
        if k > 0 && |u| >= c + 5 && IsDigit(u[c]) && IsDigit(u[c + 1]) && u[c + 2] == ':'
           && IsDigit(u[c + 3]) && IsDigit(u[c + 4])
        then Some(u[..c + 5])
        else None
  }

  // ---------------------------------------------------------------------
  // Dates

  /**
   * `_parse_datetime` as the instant it renders: text that is exactly
   * "tomorrow" or "today" in any case reads the clock, anything else must
   * be "%Y-%m-%d %H:%M", a local wall time. None where it raises
   * ValueError, which includes a result outside the datetime range.
   */
  function ParseInstant(s: string, now: int, localOffset: int): (r: Option<int>)
    ensures r.Some? ==> InRange(r.value)
  {
    var low := Lower(s);
    var local := now + localOffset * MinuteMicros;
    if low == "tomorrow" then
      if InRange(local + DayMicros) && InRange(now + DayMicros) then Some(now + DayMicros) else None
    else if low == "today" then
      if InRange(local) && InRange(now) then Some(now) else None
    else UtcOfWall(StrptimeMinute(s), localOffset)
  }

  /** `astimezone(pytz.UTC)` of a naive local wall time: the instant, where it is in range. */
  function UtcOfWall(w: Option<int>, localOffset: int): (r: Option<int>)
    ensures r.Some? <==> w.Some? && InRange(w.value - localOffset * MinuteMicros)
    ensures r.Some? ==> r.value == w.value - localOffset * MinuteMicros
  {
    if w.Some? && InRange(w.value - localOffset * MinuteMicros) then Some(w.value - localOffset * MinuteMicros) else None
  }

  /** Text other than the two day words is read by strptime alone. */
  lemma ParseInstantWall(s: string, now: int, localOffset: int)
    requires Lower(s) != "tomorrow" && Lower(s) != "today"
    ensures ParseInstant(s, now, localOffset) == UtcOfWall(StrptimeMinute(s), localOffset)
  {
  }

  /** The ValueError message of `_parse_datetime`. */
  function ParseFailed(s: string): string {
    "Could not parse date: " + s + ". Please use format: YYYY-MM-DD HH:MM"
  }

  /** Text longer than the day words that strptime reads gives that wall time in UTC. */
  lemma ParseInstantOf(s: string, v: int, now: int, localOffset: int)
    requires |s| > 8 && StrptimeMinute(s) == Some(v)
    ensures ParseInstant(s, now, localOffset) == UtcOfWall(Some(v), localOffset)
  {
    assert |Lower(s)| == |s|;
    ParseInstantWall(s, now, localOffset);
  }

  /** Text that does not start with a digit is not "%Y-%m-%d %H:%M". */
  lemma NotMinuteText(s: string)
    requires s != [] && !IsDigit(s[0])
    ensures StrptimeMinute(s).None?
  {
    if |s| >= 5 && Find(s[5..], "-").Some? {
      var e := DayEnd(s, 6 + Find(s[5..], "-").value);
      if e < |s| {
        assert s[..e][0] == s[0];
        DateDigit(s[..e]);
      }
    }
  }

  /** A date strptime reads starts with a digit. */
  lemma DateDigit(t: string)
    ensures StrptimeDate(t).Some? ==> |t| >= 5 && IsDigit(t[0])
  {
    if |t| >= 5 && AllDigits(t[..4]) {
      assert t[..4][0] == t[0];
    }
  }

  /**
   * A day word followed by a blank and anything else is never read:
   * only the bare words are, and the rest is not "%Y-%m-%d %H:%M".
   */
  lemma KeywordDateRejected(word: string, clock: string, now: int, localOffset: int)
    requires word == "tomorrow" || word == "today"
    ensures ParseInstant(word + " " + clock, now, localOffset).None?
  {
    var s := word + " " + clock;
    assert Lower(s)[|word|] == ' ';
    assert s[0] == 't';
    NotMinuteText(s);
  }

  // ---------------------------------------------------------------------
  // Finding the text the handlers search for

  /** The first quote of a text with no quote before it is where the quoted title starts. */
  lemma {:induction false} TitleFound(pre: string, title: string, rest: string)
    requires forall i :: 0 <= i < |pre| ==> pre[i] != '"'
    requires forall i :: 0 <= i < |title| ==> title[i] != '"'
    ensures Found(Search(pre + "\"" + title + "\"" + rest, QuotedAt)) == Some(title)
  {
    var s := pre + "\"" + title + "\"" + rest;
    var u := s[|pre|..];
    assert u == "\"" + title + "\"" + rest;
    assert OccursAt(u[1..], "\"", |title|) by {
      assert u[1..] == title + "\"" + rest;
    }
    forall j | 0 <= j < |title| ensures !OccursAt(u[1..], "\"", j) {
      assert u[1..][j] == title[j];
    }
    assert Find(u[1..], "\"") == Some(|title|);
    assert u[1..1 + |title|] == title;
    assert QuotedAt(u) == Some(title);
    forall q | 0 <= q < |pre| ensures QuotedAt(s[q..]).None? {
      assert s[q..][0] == pre[q];
    }
    SearchFinds(s, |pre|, QuotedAt);
  }

  /** `event\s+(\w+)` at "event", a blank and an id: the id. */
  lemma EventIdOf(id: string, rest: string)
    requires id != [] && forall i :: 0 <= i < |id| ==> IsWordChar(id[i])
    requires rest == [] || !IsWordChar(rest[0])
    ensures EventIdAt("event " + id + rest) == Some(id)
  {
    var u := "event " + id + rest;
    assert u[5..] == " " + id + rest;
    assert u[5..][1..] == id + rest;
    assert SpaceRun(u[5..]) == 1;
    assert u[6..] == id + rest;
    WordRunOf(id, rest);
    assert u[6..][..|id|] == id;
  }

  /**
   * `event\s+(\w+)` finds the id that follows "event" in a "delete" or
   * "update" command: no earlier position starts with "event".
   */
  lemma EventIdFound(cmd: string, id: string, rest: string)
    requires cmd == "delete" || cmd == "update"
    requires id != [] && forall i :: 0 <= i < |id| ==> IsWordChar(id[i])
    requires rest == [] || !IsWordChar(rest[0])
    ensures Found(Search(cmd + " event " + id + rest, EventIdAt)) == Some(id)
  {
    assert " event " == " " + "event ";
    assert cmd + " event " + id + rest == (cmd + " ") + ("event " + id + rest);
    EventIdOf(id, rest);
    CommandHead((cmd + " ") + ("event " + id + rest), cmd);
    FoundAfter(cmd + " ", "event " + id + rest, id, EventIdAt);
  }

  lemma Halves(a: string, b: string)
    ensures (a + b)[..|a|] == a && (a + b)[|a|..] == b
  {
  }

  /** A match right after a head in which no position matches is what the search finds. */
  lemma FoundAfter<T>(head: string, tail: string, v: T, at: string -> Option<T>)
    requires at(tail) == Some(v)
    requires forall q :: 0 <= q < |head| ==> at((head + tail)[q..]).None?
    ensures Found(Search(head + tail, at)) == Some(v)
  {
    Halves(head, tail);
    SearchFinds(head + tail, |head|, at);
  }

  /** No position of "delete " or "update " starts "event". */
  lemma CommandHead(s: string, cmd: string)
    requires cmd == "delete" || cmd == "update"
    requires |s| >= 12 && s[..7] == cmd + " "
    ensures forall q :: 0 <= q < 7 ==> EventIdAt(s[q..]).None?
  {
    forall q | 0 <= q < 7 ensures !StartsWith(s[q..], "event") {
      assert s[q] == s[..7][q];
      if q < 6 {
        assert s[q + 1] == s[..7][q + 1];
      }
    }
  }

  /** The leading run of word characters followed by a non-word character is those characters. */
  lemma {:induction false} WordRunOf(w: string, t: string)
    requires (forall i :: 0 <= i < |w| ==> IsWordChar(w[i])) && (t == [] || !IsWordChar(t[0]))
    ensures WordRun(w + t) == |w|
  {
    if w != [] {
      assert (w + t)[1..] == w[1..] + t;
      WordRunOf(w[1..], t);
    }
  }

  // ---------------------------------------------------------------------
  // The clock and the schedule date

  /** The machine clock reads a representable instant now and a week on, and a local date today and tomorrow. */
  predicate ClockOk(now: int, localOffset: int) {
    ValidOffset(localOffset) && InRange(now) && InRange(now + 7 * DayMicros)
    && InRange(now + localOffset * MinuteMicros) && InRange(now + localOffset * MinuteMicros + DayMicros)
  }

  /** The local date a day word names: today's, or the day after. */
  function WordDay(word: string, now: int, localOffset: int): int {
    DayOf(now + localOffset * MinuteMicros) + (if word == "tomorrow" then 1 else 0)
  }

  /**
   * The start `_handle_schedule` evidently means by a day word and a
   * clock: that clock on the local date of today or tomorrow, in UTC. A
   * written date is read together with the clock by strptime, as the
   * source does.
   */
  function WhenInstant(word: string, clock: string, now: int, localOffset: int): (r: Option<int>)
    ensures word != "tomorrow" && word != "today" ==> r == ParseInstant(word + " " + clock, now, localOffset)
    ensures (word == "tomorrow" || word == "today") ==>
      (r.Some? <==> StrptimeClock(clock).Some?
                    && InRange(WordDay(word, now, localOffset) * DayMicros + StrptimeClock(clock).value - localOffset * MinuteMicros))
    ensures r.Some? ==> InRange(r.value)
  {
    if word == "tomorrow" || word == "today" then
      match StrptimeClock(clock)
      case None => None
      case Some(t) => UtcOfWall(Some(WordDay(word, now, localOffset) * DayMicros + t), localOffset)
    else ParseInstant(word + " " + clock, now, localOffset)
  }

  /** A day word and a clock give an instant whose local reading is that clock on that date. */
  lemma WhenOnDay(word: string, clock: string, now: int, localOffset: int)
    requires word == "tomorrow" || word == "today"
    requires WhenInstant(word, clock, now, localOffset).Some?
    ensures var local := WhenInstant(word, clock, now, localOffset).value + localOffset * MinuteMicros;
      DayOf(local) == WordDay(word, now, localOffset) && local % DayMicros == StrptimeClock(clock).value
  {
    var n, t := WordDay(word, now, localOffset), StrptimeClock(clock).value;
    var local := WhenInstant(word, clock, now, localOffset).value + localOffset * MinuteMicros;
    assert local == n * DayMicros + t;
    assert local / DayMicros == n && local % DayMicros == t;
  }

  // ---------------------------------------------------------------------
  // Commands

  /** The keys of `self.commands`, in the order `process_query` tries them. */
  const Commands: seq<string> := ["schedule", "show", "find", "update", "delete", "help"]

  /** The first command word at index `i` or later that `q` starts with. */
  function CommandFrom(q: string, i: nat): (r: Option<nat>)
    requires i <= |Commands|
    decreases |Commands| - i
    ensures r.Some? ==> i <= r.value < |Commands| && StartsWith(q, Commands[r.value])
    ensures forall j :: i <= j < |Commands| && (r.None? || j < r.value) ==> !StartsWith(q, Commands[j])
  {
    if i == |Commands| then None
    else if StartsWith(q, Commands[i]) then Some(i)
    else CommandFrom(q, i + 1)
  }

  /** The command `process_query` hands a query to: the first command word the query starts with. */
  function FirstCommand(q: string): (r: Option<string>)
    ensures r.Some? ==> r.value in Commands && StartsWith(q, r.value)
    ensures r.None? <==> forall c :: c in Commands ==> !StartsWith(q, c)
  {
    match CommandFrom(q, 0)
    case None => None
    case Some(k) => Some(Commands[k])
  }

  /** No command word starts another, so at most one fits a query and the order they are tried in does not matter. */
  lemma OneCommand(q: string, a: string, b: string)
    requires a in Commands && b in Commands && StartsWith(q, a) && StartsWith(q, b)
    ensures a == b
  {
    assert a[0] == q[0] == b[0] && a[1] == q[1] == b[1];
  }

  // ---------------------------------------------------------------------
  // What the handlers ask for

  /** A handler's request: what it passes on to the calendar handler, or the reply it stops with. */
  datatype Outcome<T> = Go(value: T) | Stop(reply: string)

  const TitleMissing := "Please provide event title in quotes. Example: schedule \"Team Meeting\" tomorrow at 10:00 for 1 hour"
  const WhenMissing := "Please specify date and time. Example: tomorrow at 10:00"

  /** The duration of `_handle_schedule`: the text after "for", else "1 hour". */
  function ScheduleDuration(q: string): nat {
    ParseDuration(match Found(Search(q, ForAmountAt)) case None => "1 hour" case Some(t) => t)
  }

  /**
   * `_handle_schedule` up to `add_event`: the quoted title, the start
   * (read with `WhenInstant`) and the duration in minutes.
   */
  function ScheduleRequest(q: string, now: int, localOffset: int): (r: Outcome<(string, int, nat)>)
    ensures Found(Search(q, QuotedAt)).None? ==> r == Stop(TitleMissing)
    ensures Found(Search(q, QuotedAt)).Some? && Found(Search(q, WhenAt)).None? ==> r == Stop(WhenMissing)
    ensures r.Go? ==> Found(Search(q, QuotedAt)) == Some(r.value.0) && InRange(r.value.1) && r.value.2 == ScheduleDuration(q)
    ensures r.Go? ==> forall i :: 0 <= i < |r.value.0| ==> r.value.0[i] != '"'
  {
    match Found(Search(q, QuotedAt))
    case None => Stop(TitleMissing)
    case Some(title) =>
      match Found(Search(q, WhenAt))
      case None => Stop(WhenMissing)
      case Some(when) =>
        var (word, clock) := when;
        match WhenInstant(word, clock, now, localOffset)
        case None => Stop(ParseFailed(word + " " + clock))
        case Some(w) => Go((title, w, ScheduleDuration(q)))
  }

  const UpdateNoId := "Please specify event ID. Example: update event abc123 title \"New Title\""

  /**
   * `_handle_update` up to `update_event`: the id, the new title and the
   * new start as `strftime` writes it, "" standing for None; a time that
   * does not parse stops it with the error text.
   */
  function UpdateRequest(q: string, now: int, localOffset: int): (r: Outcome<(string, string, string)>)
    ensures Found(Search(q, EventIdAt)).None? <==> r == Stop(UpdateNoId)
    ensures r.Go? ==> Found(Search(q, EventIdAt)) == Some(r.value.0)
    ensures r.Go? ==> r.value.2 == "" || FromIsoZ(r.value.2).Some?
  {
    match Found(Search(q, EventIdAt))
    case None => Stop(UpdateNoId)
    case Some(id) =>
      var title := GetOr(Found(Search(q, TitleAt)), "");
      match Found(Search(q, TimeAt))
      case None => Go((id, title, ""))
      case Some(t) =>
        match ParseInstant(t, now, localOffset)
        case None => Stop("Error updating event: " + ParseFailed(t))
        case Some(w) =>
          StrftimeZRoundTrip(w);
          Go((id, title, StrftimeZ(w)))
  }

  // ---------------------------------------------------------------------
  // Replies

  const ScheduleFailed := "Failed to schedule event. Please try again."
  const NoEvents := "No events found for the specified time period."
  const DateMissing := "Please specify a date. Example: find slots tomorrow"
  const NoSlots := "No available slots found for the specified time period."
  const UpdateDone := "✓ Event updated successfully"
  const UpdateFailed := "Failed to update event. Please check the event ID and try again."
  const DeleteNoId := "Please specify event ID. Example: delete event abc123"
  const DeleteDone := "✓ Event deleted successfully"
  const DeleteFailed := "Failed to delete event. Please check the event ID and try again."
  const NotUnderstood := "I didn't understand that command. Type 'help' to see available commands."

  function Scheduled(title: string, durationMinutes: nat): string {
    "✓ Scheduled: " + title + " for " + NatToString(durationMinutes) + " minutes"
  }

  /** The lines of `_handle_help`. */
  const HelpLines: seq<string> := [
    "Available commands:",
    "1. Schedule an event:",
    "   schedule \"Event Title\" tomorrow at 10:00 for 1 hour",
    "",
    "2. Show events:",
    "   show today",
    "   show tomorrow",
    "   show this week",
    "",
    "3. Find available slots:",
    "   find slots tomorrow",
    "   find slots tomorrow for 30 minutes",
    "",
    "4. Update event:",
    "   update event <event_id> title \"New Title\"",
    "   update event <event_id> time 2024-01-20 10:00",
    "",
    "5. Delete event:",
    "   delete event <event_id>",
    "",
    "6. Help:",
    "   help"
  ]

  /** The help reply: its lines joined by newlines. */
  const HelpText: string := Join(HelpLines, "\n")

  // ---------------------------------------------------------------------
  // Showing events

  /**
   * The window `_handle_show` lists, as UTC instants: the next day from
   * now, the day after that for "tomorrow", the next seven days for
   * "week".
   */
  function ShowWindow(q: string, now: int): (int, int) {
    if Contains(q, "tomorrow") then (now + DayMicros, now + 2 * DayMicros)
    else if Contains(q, "week") then (now, now + 7 * DayMicros)
    else (now, now + DayMicros)
  }

  /** One line of the listing: "- {summary} at {start dateTime}", with the `get` defaults for absent keys. */
  function EventLine(e: Event): string {
    var title := if e.summary.Some? then e.summary.value else "Untitled Event";
    var start := if e.start.Timed? then e.start.dateTime else "Unknown";
    "- " + title + " at " + start
  }

  function EventLines(events: seq<Event>): (r: seq<string>)
    ensures |r| == |events|
    ensures forall i :: 0 <= i < |events| ==> r[i] == EventLine(events[i])
  {
    seq(|events|, i requires 0 <= i < |events| => EventLine(events[i]))
  }

  /** The reply of `_handle_show` once the events are listed. */
  function ShowText(events: seq<Event>): string {
    if events == [] then NoEvents else Join(EventLines(events), "\n")
  }

  /** The listing loop of `_handle_show`. */
  method ShowLines(events: seq<Event>) returns (reply: string)
    ensures reply == ShowText(events)
  {
    if events == [] {
      return NoEvents;
    }
    var lines := [];
    for i := 0 to |events|
      invariant |lines| == i
      invariant forall j :: 0 <= j < i ==> lines[j] == EventLine(events[j])
    {
      lines := lines + [EventLine(events[i])];
    }
    assert lines == EventLines(events);
    reply := Join(lines, "\n");
  }

  /** The instant a `strftime('%Y-%m-%dT%H:%M:%S.000Z')` rendering reads back as, taking "Z" for UTC. */
  function Reading(w: int): int
    requires InRange(w)
  {
    match FromIsoZ(StrftimeZ(w))
    case None => w
    case Some(d) => Instant(d, 0)
  }

  /** The rendering reads back as the instant cut to the second, and the service takes it as that bound. */
  lemma ReadingBound(w: int)
    requires InRange(w)
    ensures Reading(w) == w - w % SecondMicros
    ensures Bound(StrftimeZ(w)) == Some(Reading(w))
  {
    StrftimeZRoundTrip(w);
    BoundOfRead(StrftimeZ(w), w);
  }

  lemma BoundOfRead(s: string, w: int)
    requires FromIsoZ(s) == Some(DateTime(w - w % SecondMicros, Some(0)))
    ensures Bound(s) == Some(w - w % SecondMicros)
  {
  }

  // ---------------------------------------------------------------------
  // Finding free slots

  /** The hours `find_available_slots` searches between by default, 09:00 and 17:00. */
  const OpeningHour := 9
  const ClosingHour := 17

  /** The date `_handle_find` asks about: the local date for a day word, else the matched date text. */
  function FindDay(word: string, now: int, localOffset: int): (r: string)
    requires ClockOk(now, localOffset)
    ensures word == "tomorrow" || word == "today" ==> StrptimeDate(r) == Some(WordDay(word, now, localOffset))
    ensures word != "tomorrow" && word != "today" ==> r == word
  {
    if word == "tomorrow" || word == "today" then
      var n := WordDay(word, now, localOffset);
      NextDay(now + localOffset * MinuteMicros);
      StrptimeDateRoundTrip(n);
      FormatDate(n)
    else word
  }

  /** The duration of `_handle_find`: the first duration text anywhere, else "1 hour". */
  function FindDuration(q: string): nat {
    ParseDuration(match Found(Search(q, AmountTextAt)) case None => "1 hour" case Some(t) => t)
  }

  function SlotsHeader(durationMinutes: nat): string {
    "Available " + NatToString(durationMinutes) + "-minute slots:"
  }

  function SlotLine(slot: Slot): string {
    "- " + slot.startTime + " to " + slot.endTime
  }

  function MoreSlots(n: nat): string {
    "... and " + NatToString(n) + " more slots available"
  }

  /** The lines of `_handle_find`'s reply: the header, the first five slots, and a count of the rest. */
  function FindLines(slots: seq<Slot>, durationMinutes: nat): (r: seq<string>)
    ensures |r| == 1 + Min(|slots|, 5) + (if |slots| > 5 then 1 else 0)
    ensures r[0] == SlotsHeader(durationMinutes)
    ensures forall i :: 0 <= i < Min(|slots|, 5) ==> r[1 + i] == SlotLine(slots[i])
    ensures |slots| > 5 ==> r[6] == MoreSlots(|slots| - 5)
  {
    var n := Min(|slots|, 5);
    [SlotsHeader(durationMinutes)]
      + seq(n, i requires 0 <= i < n => SlotLine(slots[i]))
      + (if |slots| > 5 then [MoreSlots(|slots| - 5)] else [])
  }

  /** The reply of `_handle_find` once the slots are known. */
  function FindText(slots: seq<Slot>, durationMinutes: nat): string {
    if slots == [] then NoSlots else Join(FindLines(slots, durationMinutes), "\n")
  }

  /** The reply loop of `_handle_find`. */
  method SlotReply(slots: seq<Slot>, durationMinutes: nat) returns (reply: string)
    ensures reply == FindText(slots, durationMinutes)
  {
    if slots == [] {
      return NoSlots;
    }
    var lines := [SlotsHeader(durationMinutes)];
    for i := 0 to Min(|slots|, 5)
      invariant |lines| == 1 + i && lines[0] == SlotsHeader(durationMinutes)
      invariant forall j :: 0 <= j < i ==> lines[1 + j] == SlotLine(slots[j])
    {
      lines := lines + [SlotLine(slots[i])];
    }
    if |slots| > 5 {
      lines := lines + [MoreSlots(|slots| - 5)];
    }
    assert lines == FindLines(slots, durationMinutes);
    reply := Join(lines, "\n");
  }

  // ---------------------------------------------------------------------
  // The chatbot

  /**
   * `CalendarChatbot` with its calendar handler. Each handler gets the
   * query already stripped and lower-cased by `process_query`.
   */
  class CalendarChatbot {
    const handler: CalendarHandler
    /** The machine's fixed UTC offset in minutes. */
    const localOffset: int

    constructor (handler: CalendarHandler, localOffset: int)
      ensures this.handler == handler && this.localOffset == localOffset
    {
      this.handler := handler;
      this.localOffset := localOffset;
    }

    predicate Valid()
      reads this, handler, handler.service
    {
      handler.Valid()
    }

    /**
     * What `_handle_schedule` does: one `add_event` on the default calendar
     * with the quoted title, the start and the duration; the reply says
     * what was scheduled, or why nothing was.
     */
    twostate predicate ScheduleEffect(q: string, now: int, reply: string)
      requires old(Valid())
      reads this, handler, handler.service
    {
      (handler.service != null ==> handler.service.calendarList == old(handler.service.calendarList))
      && (ScheduleRequest(q, now, localOffset).Stop? ==>
        reply == ScheduleRequest(q, now, localOffset).reply
        && (handler.service != null ==>
              handler.service.entries == old(handler.service.entries) && handler.service.notices == old(handler.service.notices)))
      && (ScheduleRequest(q, now, localOffset).Go? ==>
        var (title, w, n) := ScheduleRequest(q, now, localOffset).value;
        var made := EventBody(title, StrftimeZ(w), n, "", "", [], false, None);
        var cal := handler.defaultCalendarId;
        var added := handler.service != null && made.Some? && cal in old(handler.service.entries)
          && Accept(made.value.0, "").Some?;
        (added ==>
           var xs := old(handler.service.entries)[cal];
           reply == Scheduled(title, n)
           && handler.service.entries == old(handler.service.entries)[cal := xs + [Accept(made.value.0, FreshId(xs)).value]]
           && handler.service.notices == old(handler.service.notices) + [made.value.1])
        && (!added ==>
              reply == ScheduleFailed
              && (handler.service != null ==>
                    handler.service.entries == old(handler.service.entries) && handler.service.notices == old(handler.service.notices))))
    }

    /** `_handle_schedule`. */
    method HandleSchedule(q: string, now: int) returns (reply: string)
      requires Valid()
      modifies handler.service
      ensures Valid()
      ensures ScheduleEffect(q, now, reply)
    {
      var request := ScheduleRequest(q, now, localOffset);
      if request.Stop? {
        return request.reply;
      }
      var (title, w, n) := request.value;
      var id := handler.AddEvent(title, StrftimeZ(w), n, "", "", [], None, false, None);
      reply := if id.Some? && id.value != "" then Scheduled(title, n) else ScheduleFailed;
    }

    /** The reply of `_handle_show`. */
    function ShowReply(q: string, now: int): string
      requires Valid() && ClockOk(now, localOffset)
      reads this, handler, handler.service
    {
      var (a, b) := ShowWindow(q, now);
      ShowText(handler.GetEvents(Some(StrftimeZ(a)), Some(StrftimeZ(b)), None, DefaultMaxResults, DateTime(now, Some(0))))
    }

    /** `_handle_show`: the events of the window, one line each. */
    method HandleShow(q: string, now: int) returns (reply: string)
      requires Valid() && ClockOk(now, localOffset)
      ensures reply == ShowReply(q, now)
    {
      var (a, b) := ShowWindow(q, now);
      var events := handler.GetEvents(Some(StrftimeZ(a)), Some(StrftimeZ(b)), None, DefaultMaxResults, DateTime(now, Some(0)));
      reply := ShowLines(events);
    }

    /**
     * What `_handle_show` lists is the default calendar's entries that
     * overlap the window, its ends cut to the second, at most 50 of them
     * in the service's order.
     */
    lemma ShowListing(q: string, now: int)
      requires Valid() && ClockOk(now, localOffset)
      requires handler.service != null && handler.defaultCalendarId in handler.service.entries
      ensures var (a, b) := ShowWindow(q, now);
        var xs := Listing(handler.service.entries[handler.defaultCalendarId], Reading(a), Reading(b), DefaultMaxResults);
        ShowReply(q, now) == ShowText(Resources(xs))
    {
      var (a, b) := ShowWindow(q, now);
      ReadingBound(a);
      ReadingBound(b);
      ListingOf(StrftimeZ(a), StrftimeZ(b), Reading(a), Reading(b));
    }

    /** The handler lists the default calendar between two readable bounds. */
    lemma ListingOf(from: string, to: string, lo: int, hi: int)
      requires Valid() && handler.service != null && handler.defaultCalendarId in handler.service.entries
      requires Bound(from) == Some(lo) && Bound(to) == Some(hi)
      ensures handler.ListEvents(None, from, to, DefaultMaxResults)
        == Resources(Listing(handler.service.entries[handler.defaultCalendarId], lo, hi, DefaultMaxResults))
    {
    }

    /** What `find_available_slots` returns for the date with the default hours and calendar. */
    function FindSlots(date: string, durationMinutes: nat): seq<Slot>
      requires Valid()
      reads this, handler, handler.service
    {
      if handler.service == null then []
      else
        SlotsOrNone(SlotStarts(Collect(handler.ListEvents(None, DayFirst(date), DayLast(date), DefaultMaxResults), SpanOf),
          StrptimeSlot(date, OpeningHour), StrptimeSlot(date, ClosingHour), durationMinutes),
          durationMinutes * MinuteMicros, durationMinutes)
    }

    /** The reply of `_handle_find`. */
    function FindReply(q: string, now: int): string
      requires Valid() && ClockOk(now, localOffset)
      reads this, handler, handler.service
    {
      match Found(Search(q, DayWordAt))
      case None => DateMissing
      case Some(word) =>
        var d := FindDuration(q);
        FindText(FindSlots(FindDay(word, now, localOffset), d), d)
    }

    /** `_handle_find`: the free slots of the date between 09:00 and 17:00, at most five shown. */
    method HandleFind(q: string, now: int) returns (reply: string)
      requires Valid() && ClockOk(now, localOffset)
      ensures reply == FindReply(q, now)
    {
      var word := Found(Search(q, DayWordAt));
      if word.None? {
        return DateMissing;
      }
      var date := FindDay(word.value, now, localOffset);
      var d := FindDuration(q);
      var slots := handler.FindAvailableSlots(date, d, OpeningHour, ClosingHour, None);
      reply := SlotReply(slots, d);
    }

    /**
     * What `_handle_update` does: the new title and start replace the
     * stored ones of the event on the default calendar. The start is
     * written by `strftime`, so it always reads back and `update_event`
     * never raises.
     */
    twostate predicate UpdateEffect(q: string, now: int, reply: string)
      requires old(Valid())
      reads this, handler, handler.service
    {
      (handler.service != null ==> handler.service.calendarList == old(handler.service.calendarList))
      && (UpdateRequest(q, now, localOffset).Stop? ==>
        reply == UpdateRequest(q, now, localOffset).reply
        && (handler.service != null ==>
              handler.service.entries == old(handler.service.entries) && handler.service.notices == old(handler.service.notices)))
      && (UpdateRequest(q, now, localOffset).Go? ==>
        var (id, title, start) := UpdateRequest(q, now, localOffset).value;
        var cal := handler.defaultCalendarId;
        var got := if handler.service == null then None else old(handler.service.Get(cal, id));
        var merged := if got.Some? then Merge(got.value, title, start, "", "", "", []) else None;
        (got.Some? ==> merged.Some?)
        && (reply == UpdateDone <==> merged.Some? && Accept(merged.value, id).Some?)
        && (reply != UpdateDone ==>
              reply == UpdateFailed
              && (handler.service != null ==>
                    handler.service.entries == old(handler.service.entries) && handler.service.notices == old(handler.service.notices)))
        && (reply == UpdateDone ==>
              handler.service.entries == old(handler.service.entries)[cal := Replaced(old(handler.service.entries)[cal], id, Accept(merged.value, id).value)]
              && handler.service.notices == old(handler.service.notices) + ["all"]))
    }

    /** `_handle_update`. */
    method HandleUpdate(q: string, now: int) returns (reply: string)
      requires Valid()
      modifies handler.service
      ensures Valid()
      ensures UpdateEffect(q, now, reply)
    {
      var request := UpdateRequest(q, now, localOffset);
      if request.Stop? {
        return request.reply;
      }
      var (id, title, start) := request.value;
      var r := handler.UpdateEvent(id, title, start, "", "", "", [], None);
      reply := if r == Some(true) then UpdateDone else UpdateFailed;
    }

    /** What `_handle_delete` does: the event of that id leaves the default calendar, where it is there. */
    twostate predicate DeleteEffect(q: string, reply: string)
      requires old(Valid())
      reads this, handler, handler.service
    {
      (handler.service != null ==> handler.service.calendarList == old(handler.service.calendarList))
      && (Found(Search(q, EventIdAt)).None? ==>
        reply == DeleteNoId
        && (handler.service != null ==>
              handler.service.entries == old(handler.service.entries) && handler.service.notices == old(handler.service.notices)))
      && (Found(Search(q, EventIdAt)).Some? ==>
        var id := Found(Search(q, EventIdAt)).value;
        var cal := handler.defaultCalendarId;
        var found := handler.service != null && old(handler.service.Find(cal, id)).Some?;
        (reply == DeleteDone <==> found)
        && (!found ==>
              reply == DeleteFailed
              && (handler.service != null ==>
                    handler.service.entries == old(handler.service.entries) && handler.service.notices == old(handler.service.notices)))
        && (found ==>
              handler.service.entries == old(handler.service.entries)[cal := Without(old(handler.service.entries)[cal], id)]
              && handler.service.notices == old(handler.service.notices) + ["all"]))
    }

    /** `_handle_delete`. */
    method HandleDelete(q: string) returns (reply: string)
      requires Valid()
      modifies handler.service
      ensures Valid()
      ensures DeleteEffect(q, reply)
    {
      var id := Found(Search(q, EventIdAt));
      if id.None? {
        return DeleteNoId;
      }
      var ok := handler.DeleteEvent(id.value, None);
      reply := if ok then DeleteDone else DeleteFailed;
    }

    /** What `process_query` does once the command word `c` is found in the query `q`. */
    twostate predicate Answered(c: Option<string>, q: string, now: int, reply: string)
      requires old(Valid()) && Valid() && ClockOk(now, localOffset)
      reads this, handler, handler.service
    {
      (c.None? ==> reply == NotUnderstood)
      && (c == Some("help") ==> reply == HelpText)
      && (c == Some("show") ==> reply == ShowReply(q, now))
      && (c == Some("find") ==> reply == FindReply(q, now))
      && (c == Some("schedule") ==> ScheduleEffect(q, now, reply))
      && (c == Some("update") ==> UpdateEffect(q, now, reply))
      && (c == Some("delete") ==> DeleteEffect(q, reply))
      && ((c.None? || c == Some("help") || c == Some("show") || c == Some("find")) && handler.service != null ==>
            handler.service.entries == old(handler.service.entries) && handler.service.notices == old(handler.service.notices))
    }

    /** The handler `self.commands` holds for the command word `c`. */
    method Dispatch(c: string, q: string, now: int) returns (reply: string)
      requires Valid() && ClockOk(now, localOffset) && c in Commands
      modifies handler.service
      ensures Valid()
      ensures Answered(Some(c), q, now, reply)
    {
      if c == "show" {
        reply := HandleShow(q, now);
      } else if c == "find" {
        reply := HandleFind(q, now);
      } else if c == "help" {
        reply := HelpText;
      } else {
        reply := RunChange(c, q, now);
      }
    }

    /**
     * `process_query`: the stripped, lower-cased query goes to the handler
     * of the first command word it starts with, in the order of
     * `self.commands`.
     */
    method ProcessQuery(query: string, now: int) returns (reply: string)
      requires Valid() && ClockOk(now, localOffset)
      modifies handler.service
      ensures Valid()
      ensures Answered(FirstCommand(Lower(Strip(query))), Lower(Strip(query)), now, reply)
    {
      var q := Lower(Strip(query));
      var i := 0;
      while i < |Commands|
        invariant 0 <= i <= |Commands|
        invariant CommandFrom(q, 0) == CommandFrom(q, i)
      {
        if StartsWith(q, Commands[i]) {
          reply := Dispatch(Commands[i], q, now);
          return;
        }
        i := i + 1;
      }
      reply := NotUnderstood;
    }

    /** The handlers of the commands that change the calendar. */
    method RunChange(c: string, q: string, now: int) returns (reply: string)
      requires Valid() && c in {"schedule", "update", "delete"}
      modifies handler.service
      ensures Valid()
      ensures c == "schedule" ==> ScheduleEffect(q, now, reply)
      ensures c == "update" ==> UpdateEffect(q, now, reply)
      ensures c == "delete" ==> DeleteEffect(q, reply)
    {
      if c == "schedule" {
        reply := HandleSchedule(q, now);
      } else if c == "update" {
        reply := HandleUpdate(q, now);
      } else {
        reply := HandleDelete(q);
      }
    }
  }
}
