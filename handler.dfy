/**
 * `CalendarHandler`: the calendar operations the chatbots call, in front
 * of the Google Calendar service. Without a service (before a successful
 * `authenticate`) every operation returns its empty or failure value and
 * changes nothing. Python's exceptions become None results: where the
 * handler catches them the operation returns its failure value, where it
 * does not (`update_event` catches only HttpError) the model says so.
 */
module Handler {
  import opened Text
  import opened Chrono
  import opened Sorting
  import opened Service
  import opened Slots

  /** The zone every timed value is sent with (`self.timezone`). */
  const TimeZone: string := "UTC"

  /** `max_results` of `get_events` when the caller gives none. */
  const DefaultMaxResults: nat := 50

  /** The reminders of an event created without any: an e-mail a day before and a pop-up 10 minutes before. */
  const DefaultReminders: Reminders := Reminders(false, [Reminder("email", 24 * 60), Reminder("popup", 10)])

  // ---------------------------------------------------------------------
  // Calendars

  /** One record of `get_calendars`. */
  datatype CalendarInfo = CalendarInfo(
    id: Option<string>,
    summary: string,
    description: string,
    timeZone: string,
    primary: bool,
    selected: bool,
    accessRole: string)

  function GetOr<T>(o: Option<T>, d: T): T {
    if o.Some? then o.value else d
  }

  /** A calendar list item with its absent keys given their defaults. */
  function InfoOf(c: CalendarEntry): CalendarInfo {
    CalendarInfo(c.id, GetOr(c.summary, "Unknown"), GetOr(c.description, ""), GetOr(c.timeZone, "UTC"),
      GetOr(c.primary, false), GetOr(c.selected, true), GetOr(c.accessRole, ""))
  }

  function InfosOf(cs: seq<CalendarEntry>): (r: seq<CalendarInfo>)
    ensures |r| == |cs|
    ensures forall i :: 0 <= i < |cs| ==> r[i] == InfoOf(cs[i])
  {
    seq(|cs|, i requires 0 <= i < |cs| => InfoOf(cs[i]))
  }


  // ---------------------------------------------------------------------
  // New events

  /**
   * The start and end sent for a new event. A timed event ends
   * `durationMinutes` after its start, and both go out as their
   * `isoformat()` with the handler's zone; an all-day event runs from the
   * start's date to the next day's. None where Python raises: an
   * unreadable start, or an end outside the datetime range.
   */
  function NewEventTimes(startTime: string, durationMinutes: int, allDay: bool): (r: Option<(EventTime, EventTime)>)
    ensures r.Some? <==>
      FromIsoZ(startTime).Some?
      && InRange(FromIsoZ(startTime).value.wall + (if allDay then DayMicros else durationMinutes * MinuteMicros))
    ensures r.Some? ==> r.value.0.Timed? == !allDay && r.value.1.Timed? == !allDay
  {
    match FromIsoZ(startTime)
    case None => None
    case Some(st) => TimesFrom(st, durationMinutes, allDay)
  }

  /** The new event's times once its start has been read. */
  function TimesFrom(st: DateTime, durationMinutes: int, allDay: bool): (r: Option<(EventTime, EventTime)>)
    requires st.Valid()
    ensures r.Some? <==> InRange(st.wall + (if allDay then DayMicros else durationMinutes * MinuteMicros))
    ensures r.Some? ==> r.value.0.Timed? == !allDay && r.value.1.Timed? == !allDay
  {
    match Shift(st, if allDay then DayMicros else durationMinutes * MinuteMicros)
    case None => None
    case Some(en) =>
      if allDay then Some((AllDay(FormatDate(DayOf(st.wall))), AllDay(FormatDate(DayOf(en.wall)))))
      else Some((Timed(IsoFormat(st), Some(TimeZone)), Timed(IsoFormat(en), Some(TimeZone))))
  }

  /** A timed event's times carry the handler's zone and read back as the start and the start plus the duration. */
  lemma TimedTimes(startTime: string, durationMinutes: int)
    requires NewEventTimes(startTime, durationMinutes, false).Some?
    ensures var t := NewEventTimes(startTime, durationMinutes, false).value;
      var st := FromIsoZ(startTime).value;
      t.0.timeZone == Some(TimeZone) && t.1.timeZone == Some(TimeZone)
      && t.0.dateTime == IsoFormat(st) && t.1.dateTime == IsoFormat(Shift(st, durationMinutes * MinuteMicros).value)
      && FromIsoZ(t.0.dateTime) == FromIsoZ(startTime)
      && FromIsoZ(t.1.dateTime) == Shift(FromIsoZ(startTime).value, durationMinutes * MinuteMicros)
  {
    var st := FromIsoZ(startTime).value;
    IsoFormatReadsBack(st);
    IsoFormatReadsBack(Shift(st, durationMinutes * MinuteMicros).value);
  }

  lemma NextDay(w: int)
    requires InRange(w + DayMicros) && 0 <= w
    ensures DayOf(w + DayMicros) == DayOf(w) + 1
    ensures 0 <= DayOf(w) && DayOf(w) + 1 < MaxOrdinal
  {
    assert DayOf(w + DayMicros) < MaxOrdinal;
  }

  /** An all-day event is sent as the start's date and the date of the day after. */
  lemma AllDayTimes(st: DateTime, durationMinutes: int)
    requires st.Valid() && TimesFrom(st, durationMinutes, true).Some?
    ensures var n := DayOf(st.wall);
      0 <= n && n + 1 < MaxOrdinal
      && TimesFrom(st, durationMinutes, true).value == (AllDay(FormatDate(n)), AllDay(FormatDate(n + 1)))
  {
    AllDayShape(st, durationMinutes);
    NextDay(st.wall);
  }

  lemma AllDayShape(st: DateTime, durationMinutes: int)
    requires st.Valid() && InRange(st.wall + DayMicros)
    ensures TimesFrom(st, durationMinutes, true)
      == Some((AllDay(FormatDate(DayOf(st.wall))), AllDay(FormatDate(DayOf(st.wall + DayMicros)))))
  {
    assert Shift(st, DayMicros) == Some(DateTime(st.wall + DayMicros, st.offset));
  }

  /** The body `add_event` sends, with its `sendUpdates` policy. */
  function EventBody(title: string, startTime: string, durationMinutes: int, description: string, location: string,
                     attendees: seq<string>, allDay: bool, reminders: Option<Reminders>): (r: Option<(Event, string)>)
    ensures r.Some? <==> NewEventTimes(startTime, durationMinutes, allDay).Some?
    ensures r.Some? ==>
      var body := r.value.0;
      (body.start, body.end) == NewEventTimes(startTime, durationMinutes, allDay).value
      && body.id.None? && body.summary == Some(title) && body.description == Some(description)
      && body.location == Some(location) && body.attendees == attendees
      && body.reminders == Some(if reminders.Some? then reminders.value else DefaultReminders)
      && r.value.1 == (if attendees != [] then "all" else "none")
  {
    match NewEventTimes(startTime, durationMinutes, allDay)
    case None => None
    case Some((s, e)) =>
      var body := Event(None, Some(title), Some(description), Some(location), s, e, attendees,
        Some(if reminders.Some? then reminders.value else DefaultReminders));
      Some((body, if attendees != [] then "all" else "none"))
  }

  lemma TruncatedShift(m: int, minutes: int)
    ensures (m + minutes * MinuteMicros) - (m + minutes * MinuteMicros) % SecondMicros
      == (m - m % SecondMicros) + minutes * MinuteMicros
  {
    ModShift(m, minutes * 60);
  }

  /** The service reads an `isoformat()` as its instant. */
  lemma ReadIso(dt: DateTime)
    requires dt.Valid()
    ensures ReadInstant(IsoFormat(dt)) == Some(Instant(dt, 0))
  {
    IsoFormatReadsBack(dt);
  }

  /**
   * Two times that read as instants `minutes` apart are stored that far
   * apart, the service dropping the fraction of a second of each; the
   * times of a new timed event are such a pair (`TimedTimes`, `ReadIso`,
   * `ShiftInstant`), so the stored event lasts its duration.
   */
  lemma StoredSpan(start: EventTime, end: EventTime, m: int, minutes: int)
    requires start.Timed? && end.Timed?
    requires ReadInstant(start.dateTime) == Some(m)
    requires ReadInstant(end.dateTime) == Some(m + minutes * MinuteMicros)
    requires ReadWhen(start).Some? && ReadWhen(end).Some?
    ensures ReadWhen(end).value.Begin() - ReadWhen(start).value.Begin() == minutes * MinuteMicros
  {
    TimedBegin(start, m);
    TimedBegin(end, m + minutes * MinuteMicros);
    TruncatedShift(m, minutes);
  }

  lemma TimedBegin(t: EventTime, m: int)
    requires t.Timed? && ReadInstant(t.dateTime) == Some(m) && ReadWhen(t).Some?
    ensures ReadWhen(t).value.Begin() == m - m % SecondMicros
  {
  }

  /** Shifting moves the instant by the same amount. */
  lemma ShiftInstant(dt: DateTime, delta: int)
    requires InRange(dt.wall + delta)
    ensures Instant(Shift(dt, delta).value, 0) == Instant(dt, 0) + delta
  {
  }

  // ---------------------------------------------------------------------
  // Updates

  /** `{'dateTime': fromisoformat(s).isoformat(), 'timeZone': 'UTC'}`. */
  function NewTime(s: string): (r: Option<EventTime>)
    ensures r.Some? <==> FromIsoZ(s).Some?
    ensures r.Some? ==> r.value.Timed? && r.value.timeZone == Some(TimeZone) && FromIsoZ(r.value.dateTime) == FromIsoZ(s)
  {
    match FromIsoZ(s)
    case None => None
    case Some(dt) => IsoFormatReadsBack(dt); Some(Timed(IsoFormat(dt), Some(TimeZone)))
  }

  /**
   * The partial update of `update_event`: each supplied (non-empty) value
   * replaces its field, and a new start or end is read with
   * `fromisoformat` and sent as its `isoformat()` in the handler's zone.
   * None where that read raises.
   */
  function Merge(ev: Event, title: string, startTime: string, endTime: string, description: string,
                 location: string, attendees: seq<string>): (r: Option<Event>)
    ensures r.Some? <==> (startTime == "" || FromIsoZ(startTime).Some?) && (endTime == "" || FromIsoZ(endTime).Some?)
    ensures r.Some? ==>
      var u := r.value;
      u.id == ev.id && u.reminders == ev.reminders
      && u.summary == (if title != "" then Some(title) else ev.summary)
      && u.description == (if description != "" then Some(description) else ev.description)
      && u.location == (if location != "" then Some(location) else ev.location)
      && u.attendees == (if attendees != [] then attendees else ev.attendees)
      && (startTime == "" ==> u.start == ev.start)
      && (startTime != "" ==> u.start.Timed? && u.start.timeZone == Some(TimeZone) && FromIsoZ(u.start.dateTime) == FromIsoZ(startTime))
      && (endTime == "" ==> u.end == ev.end)
      && (endTime != "" ==> u.end.Timed? && u.end.timeZone == Some(TimeZone) && FromIsoZ(u.end.dateTime) == FromIsoZ(endTime))
  {
    var start := if startTime == "" then Some(ev.start) else NewTime(startTime);
    var end := if endTime == "" then Some(ev.end) else NewTime(endTime);
    if start.None? || end.None? then None
    else
      Some(Event(ev.id,
        if title != "" then Some(title) else ev.summary,
        if description != "" then Some(description) else ev.description,
        if location != "" then Some(location) else ev.location,
        start.value, end.value,
        if attendees != [] then attendees else ev.attendees,
        ev.reminders))
  }

  /** An update that supplies nothing sends back the fetched event, which the service stores as the same entry. */
  lemma EmptyUpdateKeeps(x: Entry)
    requires x.Valid()
    ensures Merge(Resource(x), "", "", "", "", "", []) == Some(Resource(x))
    ensures Accept(Merge(Resource(x), "", "", "", "", "", []).value, x.id) == Some(x)
  {
    AcceptResource(x);
  }

  // ---------------------------------------------------------------------
  // Reading returned events

  /** `t.get('dateTime') or t.get('date')`: None where that is None and the code goes on to raise. */
  function TimeText(t: EventTime): (r: Option<string>)
    ensures t.AllDay? ==> r == Some(t.date)
    ensures t.Timed? ==> (r.Some? <==> t.dateTime != "") && (r.Some? ==> r.value == t.dateTime)
  {
    match t
    case Timed(dt, _) => if dt != "" then Some(dt) else None
    case AllDay(d) => Some(d)
  }

  /**
   * What the loops of `check_availability` and `find_available_slots` read
   * off an event: Some(None) for an all-day event (its start text has no
   * 'T'), the read start and end of a timed one, None where that raises.
   */
  function SpanOf(e: Event): Option<Option<(DateTime, DateTime)>> {
    match TimeText(e.start)
    case None => None
    case Some(es) =>
      if !Contains(es, "T") then Some(None)
      else
        match TimeText(e.end)
        case None => None
        case Some(ee) =>
          match (FromIsoZ(es), FromIsoZ(ee))
          case (Some(a), Some(b)) => Some(Some((a, b)))
          case _ => None
  }

  /** The span a stored entry shows the handler: its two instants, aware in UTC, when it is timed. */
  function EntrySpan(x: Entry): Option<(DateTime, DateTime)> {
    if x.start.At? then Some((DateTime(x.start.Begin(), Some(0)), DateTime(x.end.Begin(), Some(0)))) else None
  }

  lemma SpanOfTimedText(e: Event, a: DateTime, b: DateTime)
    requires e.start.Timed? && e.end.Timed? && e.start.dateTime != "" && e.end.dateTime != ""
    requires Contains(e.start.dateTime, "T") && FromIsoZ(e.start.dateTime) == Some(a) && FromIsoZ(e.end.dateTime) == Some(b)
    ensures SpanOf(e) == Some(Some((a, b)))
  {
  }

  /** A returned event reads as the span of the entry it renders: all-day ones are skipped, timed ones read back exactly. */
  lemma SpanOfResource(x: Entry)
    requires x.Valid()
    ensures SpanOf(Resource(x)) == Some(EntrySpan(x))
  {
    if x.start.At? {
      RenderedTimed(x.start.instant, x.start.timeZone);
      RenderedTimed(x.end.instant, x.end.timeZone);
      SpanOfTimedText(Resource(x), DateTime(x.start.instant, Some(0)), DateTime(x.end.instant, Some(0)));
    } else {
      RenderedDay(x.start.day);
    }
  }

  // ---------------------------------------------------------------------
  // Conflicts

  /** `a < hi and b > lo`, stopping after a false first test; None where a naive and an aware value meet. */
  function Overlap(a: DateTime, b: DateTime, lo: DateTime, hi: DateTime): (r: Option<bool>)
    ensures a.Aware() == hi.Aware() && lo.Aware() == b.Aware() ==>
      r == Some(Instant(a, 0) < Instant(hi, 0) && Instant(lo, 0) < Instant(b, 0))
  {
    match Less(a, hi)
    case None => None
    case Some(false) => Some(false)
    case Some(true) => Less(lo, b)
  }

  /**
   * Whether `check_availability` counts `e` as a conflict with the
   * request, given the request's bounds as `fromisoformat` reads them; None
   * where that raises. The bounds are only read for a timed event.
   */
  function Conflict(e: Event, rs: Option<DateTime>, re: Option<DateTime>): Option<bool> {
    match SpanOf(e)
    case None => None
    case Some(None) => Some(false)
    case Some(Some((a, b))) =>
      if rs.None? || re.None? then None else Overlap(a, b, rs.value, re.value)
  }

  /** What the loop of `check_availability` keeps of an event: the event itself when it conflicts. */
  function Conflicting(rs: Option<DateTime>, re: Option<DateTime>): Event -> Option<Option<Event>> {
    (e: Event) =>
      match Conflict(e, rs, re)
      case None => None
      case Some(c) => Some(if c then Some(e) else None)
  }

  /** The loop of `check_availability`: the conflicting events in their order; None where a test raises. */
  method ScanConflicts(events: seq<Event>, rs: Option<DateTime>, re: Option<DateTime>) returns (r: Option<seq<Event>>)
    ensures r == Collect(events, Conflicting(rs, re))
  {
    var conflicts := [];
    var i := 0;
    while i < |events|
      invariant 0 <= i <= |events|
      invariant Collect(events[..i], Conflicting(rs, re)) == Some(conflicts)
    {
      assert events[..i + 1][..i] == events[..i];
      var c := Conflict(events[i], rs, re);
      if c.None? {
        CollectFails(events, i + 1, Conflicting(rs, re));
        return None;
      }
      if c.value {
        conflicts := conflicts + [events[i]];
      }
      i := i + 1;
    }
    assert events[..i] == events;
    return Some(conflicts);
  }

  /** A timed entry overlapping [lo, hi) strictly. */
  predicate Clashes(x: Entry, lo: int, hi: int) {
    x.start.At? && x.start.Begin() < hi && lo < x.end.Begin()
  }

  function Clashing(lo: int, hi: int): Entry -> bool {
    (x: Entry) => Clashes(x, lo, hi)
  }

  /** The resource of an entry that clashes with [lo, hi). */
  function ClashingResource(lo: int, hi: int): Entry -> Option<Event> {
    (x: Entry) => if x.Valid() && Clashes(x, lo, hi) then Some(Resource(x)) else None
  }

  /** On a returned event, the conflict test with an aware request is the strict overlap of a timed entry. */
  lemma ConflictOfResource(x: Entry, rs: DateTime, re: DateTime)
    requires x.Valid() && rs.Aware() && re.Aware()
    ensures Conflict(Resource(x), Some(rs), Some(re)) == Some(Clashes(x, Instant(rs, 0), Instant(re, 0)))
  {
    SpanOfResource(x);
  }

  lemma ResourcesSnoc(xs: seq<Entry>, x: Entry)
    requires forall y :: y in xs ==> y.Valid()
    requires x.Valid()
    ensures forall y :: y in xs + [x] ==> y.Valid()
    ensures Resources(xs + [x]) == Resources(xs) + [Resource(x)]
  {
  }

  /** The resources of the clashing entries, in order, are the resources of the entries the clash filter keeps. */
  lemma {:induction false} GatherClashing(xs: seq<Entry>, lo: int, hi: int)
    requires forall x :: x in xs ==> x.Valid()
    ensures forall x :: x in Filter(xs, Clashing(lo, hi)) ==> x.Valid()
    ensures Gather(xs, ClashingResource(lo, hi)) == Resources(Filter(xs, Clashing(lo, hi)))
  {
    if xs != [] {
      var n := |xs| - 1;
      var init, last := xs[..n], xs[n];
      GatherClashing(init, lo, hi);
      assert xs == init + [last];
      FilterAppend(init, last, Clashing(lo, hi));
      var kept := Filter(init, Clashing(lo, hi));
      if Clashes(last, lo, hi) {
        ResourcesSnoc(kept, last);
      } else {
        assert kept + [] == kept;
      }
    }
  }

  /**
   * Over the events the service returns, the conflicts with an aware
   * request are exactly the timed entries that strictly overlap it, in
   * their order; all-day events never conflict and nothing raises.
   */
  lemma ConflictsExact(xs: seq<Entry>, rs: DateTime, re: DateTime)
    requires forall x :: x in xs ==> x.Valid()
    requires rs.Aware() && re.Aware()
    ensures forall x :: x in Filter(xs, Clashing(Instant(rs, 0), Instant(re, 0))) ==> x.Valid()
    ensures Collect(Resources(xs), Conflicting(Some(rs), Some(re)))
      == Some(Resources(Filter(xs, Clashing(Instant(rs, 0), Instant(re, 0)))))
  {
    var lo, hi := Instant(rs, 0), Instant(re, 0);
    var es := Resources(xs);
    forall i | 0 <= i < |es|
      ensures Conflicting(Some(rs), Some(re))(es[i]) == Some(ClashingResource(lo, hi)(xs[i]))
    {
      ConflictOfResource(xs[i], rs, re);
    }
    CollectGather(es, xs, Conflicting(Some(rs), Some(re)), ClashingResource(lo, hi));
    GatherClashing(xs, lo, hi);
  }

  // ---------------------------------------------------------------------
  // Free slots

  /** The first loop of `find_available_slots`: the spans of the timed events, in order; None where one raises. */
  method CollectBusy(events: seq<Event>) returns (r: Option<seq<(DateTime, DateTime)>>)
    ensures r == Collect(events, SpanOf)
  {
    var busy := [];
    var i := 0;
    while i < |events|
      invariant 0 <= i <= |events|
      invariant Collect(events[..i], SpanOf) == Some(busy)
    {
      assert events[..i + 1][..i] == events[..i];
      var span := SpanOf(events[i]);
      if span.None? {
        CollectFails(events, i + 1, SpanOf);
        return None;
      }
      if span.value.Some? {
        busy := busy + [span.value.value];
      }
      i := i + 1;
    }
    assert events[..i] == events;
    return Some(busy);
  }

  /** The spans of the timed entries of `xs` are aware, and each is the span of one of them. */
  lemma AwareSpans(xs: seq<Entry>)
    ensures forall b :: b in Gather(xs, EntrySpan) ==> b.0.offset == Some(0) && b.1.offset == Some(0)
  {
    forall b | b in Gather(xs, EntrySpan) ensures b.0.offset == Some(0) && b.1.offset == Some(0) {
      GatherMembers(xs, EntrySpan, b);
    }
  }

  /** Over the events the service returns, the busy ranges are the spans of the timed entries, in order. */
  lemma BusyOfResources(xs: seq<Entry>)
    requires forall x :: x in xs ==> x.Valid()
    ensures Collect(Resources(xs), SpanOf) == Some(Gather(xs, EntrySpan))
  {
    var es := Resources(xs);
    forall i | 0 <= i < |es| ensures SpanOf(es[i]) == Some(EntrySpan(xs[i])) {
      SpanOfResource(xs[i]);
    }
    CollectGather(es, xs, SpanOf, EntrySpan);
  }

  function BusyStart(b: (DateTime, DateTime)): int {
    Instant(b.0, 0)
  }

  /**
   * Sorting the busy ranges by start compares naive with aware starts,
   * which raises TypeError, exactly when both kinds are present.
   */
  predicate MixedStarts(busy: seq<(DateTime, DateTime)>) {
    (exists b :: b in busy && b.0.Aware()) && (exists b :: b in busy && !b.0.Aware())
  }

  /** Whether some busy range overlaps [lo, hi) strictly, testing in order up to the first that does; None where a test raises. */
  function FirstClash(busy: seq<(DateTime, DateTime)>, lo: DateTime, hi: DateTime): Option<bool> {
    if busy == [] then Some(false)
    else
      match Overlap(busy[0].0, busy[0].1, lo, hi)
      case None => None
      case Some(true) => Some(true)
      case Some(false) => FirstClash(busy[1..], lo, hi)
  }

  /** With aware values throughout, the clash test never raises and finds whether any busy range overlaps strictly. */
  lemma {:induction false} FirstClashAware(busy: seq<(DateTime, DateTime)>, lo: DateTime, hi: DateTime)
    requires forall b :: b in busy ==> b.0.Aware() && b.1.Aware()
    requires lo.Aware() && hi.Aware()
    ensures FirstClash(busy, lo, hi) ==
      Some(exists b :: b in busy && Instant(b.0, 0) < Instant(hi, 0) && Instant(lo, 0) < Instant(b.1, 0))
  {
    if busy != [] {
      assert forall b :: b in busy[1..] ==> b in busy;
      FirstClashAware(busy[1..], lo, hi);
      assert busy == [busy[0]] + busy[1..];
    }
  }

  /** The clash test of a candidate slot [s, e), both ends aware in UTC. */
  function SlotClash(busy: seq<(DateTime, DateTime)>): (int, int) -> Option<bool> {
    (s: int, e: int) => FirstClash(busy, DateTime(s, Some(0)), DateTime(e, Some(0)))
  }

  /** The inner loop of `find_available_slots`: the busy ranges are tested in order until one overlaps the slot [s, e). */
  method TestClash(busy: seq<(DateTime, DateTime)>, s: int, e: int) returns (r: Option<bool>)
    ensures r == SlotClash(busy)(s, e)
  {
    var lo, hi := DateTime(s, Some(0)), DateTime(e, Some(0));
    var j := 0;
    while j < |busy|
      invariant 0 <= j <= |busy|
      invariant FirstClash(busy, lo, hi) == FirstClash(busy[j..], lo, hi)
    {
      var o := Overlap(busy[j].0, busy[j].1, lo, hi);
      if o.None? || o.value {
        return o;
      }
      assert busy[j..][1..] == busy[j + 1..];
      j := j + 1;
    }
    return Some(false);
  }

  /** One slot record: both ends rendered "YYYY-MM-DDTHH:MM:SS.000Z". */
  datatype Slot = Slot(startTime: string, endTime: string, durationMinutes: int)

  function SlotOf(s: int, dur: int, durationMinutes: int): Slot
    requires InRange(s) && InRange(s + dur)
  {
    Slot(StrftimeZ(s), StrftimeZ(s + dur), durationMinutes)
  }

  function SlotsOf(starts: seq<int>, dur: int, durationMinutes: int): (r: seq<Slot>)
    requires forall s :: s in starts ==> InRange(s) && InRange(s + dur)
    ensures |r| == |starts|
    ensures forall i :: 0 <= i < |starts| ==> r[i] == SlotOf(starts[i], dur, durationMinutes)
  {
    seq(|starts|, i requires 0 <= i < |starts| => SlotOf(starts[i], dur, durationMinutes))
  }

  /** The slot records for the kept starts; none where the search failed. */
  function SlotsOrNone(starts: Option<seq<int>>, dur: int, durationMinutes: int): seq<Slot>
    requires starts.Some? ==> forall s :: s in starts.value ==> InRange(s) && InRange(s + dur)
  {
    if starts.None? then [] else SlotsOf(starts.value, dur, durationMinutes)
  }

  /**
   * The candidate loop of `find_available_slots`, from `first` to `last`
   * in 30-minute steps: the starts it keeps, None where it raises.
   */
  method CollectStarts(busy: seq<(DateTime, DateTime)>, first: int, last: int, durationMinutes: int) returns (r: Option<seq<int>>)
    requires InRange(first)
    ensures r == Scan(first, durationMinutes * MinuteMicros, last, SlotClash(busy))
  {
    var dur := durationMinutes * MinuteMicros;
    ghost var clash := SlotClash(busy);
    ghost var whole := Scan(first, dur, last, clash);
    var cur := first;
    var starts: seq<int> := [];
    assert whole.Some? ==> [] + whole.value == whole.value;
    while true
      invariant InRange(cur)
      invariant whole == Prefixed(starts, Scan(cur, dur, last, clash))
      decreases last - dur - cur
    {
      if !InRange(cur + dur) {
        return None;
      }
      if cur + dur > last {
        ScanStop(whole, starts, cur, dur, last, clash);
        return Some(starts);
      }
      var busyNow := TestClash(busy, cur, cur + dur);
      if busyNow.None? {
        return None;
      }
      if !InRange(cur + StepMicros) {
        return None;
      }
      ScanAdvance(whole, starts, cur, dur, last, clash, busyNow.value);
      if !busyNow.value {
        starts := starts + [cur];
      }
      cur := cur + StepMicros;
    }
  }

  /**
   * The kept slot starts of `find_available_slots`, given what its first
   * loop collected and the opening and closing hours as `strptime` reads
   * them; None where it raises.
   */
  function SlotStarts(busy: Option<seq<(DateTime, DateTime)>>, first: Option<int>, last: Option<int>, durationMinutes: int): (r: Option<seq<int>>)
    requires first.Some? ==> InRange(first.value)
    ensures r.Some? ==> forall s :: s in r.value ==> InRange(s) && InRange(s + durationMinutes * MinuteMicros)
  {
    if busy.None? || MixedStarts(busy.value) || first.None? || last.None? then None
    else Scan(first.value, durationMinutes * MinuteMicros, last.value, SlotClash(SortBy(busy.value, BusyStart)))
  }

  /** Some timed entry overlaps the slot from `s` to `e` strictly. */
  predicate Blocked(xs: seq<Entry>, s: int, e: int) {
    exists x :: x in xs && Clashes(x, s, e)
  }

  /** Over timed spans, the clash test of a slot is whether a timed entry overlaps it strictly. */
  lemma SlotClashOfEntries(xs: seq<Entry>, s: int, e: int)
    ensures SlotClash(SortBy(Gather(xs, EntrySpan), BusyStart))(s, e) == Some(Blocked(xs, s, e))
  {
    var sorted := SortBy(Gather(xs, EntrySpan), BusyStart);
    AwareSpans(xs);
    FirstClashAware(sorted, DateTime(s, Some(0)), DateTime(e, Some(0)));
    if exists b :: b in sorted && Instant(b.0, 0) < e && s < Instant(b.1, 0) {
      var b :| b in sorted && Instant(b.0, 0) < e && s < Instant(b.1, 0);
      GatherMembers(xs, EntrySpan, b);
      var x :| x in xs && EntrySpan(x) == Some(b);
      assert Clashes(x, s, e);
    }
    if exists x :: x in xs && Clashes(x, s, e) {
      var x :| x in xs && Clashes(x, s, e);
      GatherMembers(xs, EntrySpan, EntrySpan(x).value);
      assert EntrySpan(x).value in sorted;
    }
  }

  /** Over the spans of timed entries, which are all aware, the search is the scan over them sorted by start. */
  lemma SlotStartsOfSpans(xs: seq<Entry>, first: int, last: int, durationMinutes: int)
    requires InRange(first)
    ensures SlotStarts(Some(Gather(xs, EntrySpan)), Some(first), Some(last), durationMinutes)
      == Scan(first, durationMinutes * MinuteMicros, last, SlotClash(SortBy(Gather(xs, EntrySpan), BusyStart)))
  {
    AwareSpans(xs);
  }

  /**
   * Over the busy ranges of the service's events (`BusyOfResources`), a
   * start is kept exactly when it is a candidate (the opening hour plus a
   * multiple of 30 minutes) whose slot ends by the closing hour and
   * overlaps no timed entry strictly; all-day entries never block a slot.
   */
  lemma SlotsExact(xs: seq<Entry>, first: int, last: int, durationMinutes: int, s: int)
    requires InRange(first)
    requires SlotStarts(Some(Gather(xs, EntrySpan)), Some(first), Some(last), durationMinutes).Some?
    ensures s in SlotStarts(Some(Gather(xs, EntrySpan)), Some(first), Some(last), durationMinutes).value
      <==> Candidate(s, first) && s + durationMinutes * MinuteMicros <= last
           && !Blocked(xs, s, s + durationMinutes * MinuteMicros)
  {
    SlotStartsOfSpans(xs, first, last, durationMinutes);
    ScanOverEntries(xs, first, durationMinutes * MinuteMicros, last, s);
  }

  lemma ScanOverEntries(xs: seq<Entry>, first: int, dur: int, last: int, s: int)
    requires InRange(first)
    requires Scan(first, dur, last, SlotClash(SortBy(Gather(xs, EntrySpan), BusyStart))).Some?
    ensures s in Scan(first, dur, last, SlotClash(SortBy(Gather(xs, EntrySpan), BusyStart))).value
      <==> Candidate(s, first) && s + dur <= last && !Blocked(xs, s, s + dur)
  {
    SlotClashOfEntries(xs, s, s + dur);
    ScanExact(first, dur, last, SlotClash(SortBy(Gather(xs, EntrySpan), BusyStart)), s);
  }

  /** The kept starts ascend strictly. */
  lemma SlotsAscending(xs: seq<Entry>, first: int, last: int, durationMinutes: int)
    requires InRange(first)
    requires SlotStarts(Some(Gather(xs, EntrySpan)), Some(first), Some(last), durationMinutes).Some?
    ensures var r := SlotStarts(Some(Gather(xs, EntrySpan)), Some(first), Some(last), durationMinutes).value;
      forall i, j :: 0 <= i < j < |r| ==> r[i] < r[j]
  {
    SlotStartsOfSpans(xs, first, last, durationMinutes);
    ScanAscending(first, durationMinutes * MinuteMicros, last, SlotClash(SortBy(Gather(xs, EntrySpan), BusyStart)));
  }

  /**
   * Over the busy ranges of the service's events the search does not
   * raise once the hours are read: a duration that is not negative and a
   * day clear of the end of the datetime range are enough.
   */
  lemma SlotsDefined(xs: seq<Entry>, first: int, last: int, durationMinutes: int)
    requires InRange(first) && 0 <= durationMinutes
    requires first + durationMinutes * MinuteMicros < MaxOrdinal * DayMicros
    requires last + StepMicros < MaxOrdinal * DayMicros
    ensures SlotStarts(Some(Gather(xs, EntrySpan)), Some(first), Some(last), durationMinutes).Some?
  {
    var clash := SlotClash(SortBy(Gather(xs, EntrySpan), BusyStart));
    SlotStartsOfSpans(xs, first, last, durationMinutes);
    forall s, e ensures clash(s, e).Some? {
      SlotClashOfEntries(xs, s, e);
    }
    ScanDefined(first, durationMinutes * MinuteMicros, last, clash);
  }

  /** The text bounds of the day `find_available_slots` lists events over. */
  function DayFirst(date: string): string { date + "T00:00:00.000Z" }
  function DayLast(date: string): string { date + "T23:59:59.999Z" }

  // ---------------------------------------------------------------------
  // The default listing window

  /** An aware `isoformat()` is a listing bound for its instant. */
  lemma BoundOfIsoFormat(dt: DateTime)
    requires dt.Valid() && dt.Aware()
    ensures Bound(IsoFormat(dt)) == Some(Instant(dt, 0))
  {
    IsoFormatReadsBack(dt);
  }

  /** The default start of `get_events`, `datetime.now(pytz.UTC).isoformat()`, is a bound for the clock's instant. */
  lemma DefaultStart(clock: DateTime)
    requires clock.Valid() && clock.Aware()
    ensures Bound(IsoFormat(clock)) == Some(Instant(clock, 0))
  {
    BoundOfIsoFormat(clock);
  }

  /** The default end of `get_events` is a bound for seven days after the clock's instant. */
  lemma DefaultEnd(clock: DateTime)
    requires clock.Valid() && clock.Aware() && InRange(clock.wall + 7 * DayMicros)
    ensures Bound(IsoFormat(Shift(clock, 7 * DayMicros).value)) == Some(Instant(clock, 0) + 7 * DayMicros)
  {
    ShiftInstant(clock, 7 * DayMicros);
    BoundOfIsoFormat(Shift(clock, 7 * DayMicros).value);
  }

  // ---------------------------------------------------------------------
  // The handler

  class CalendarHandler {
    /** The authenticated service; null until `authenticate` succeeds. */
    const service: CalendarService?
    var defaultCalendarId: string

    constructor (service: CalendarService?)
      ensures this.service == service && defaultCalendarId == "primary"
    {
      this.service := service;
      defaultCalendarId := "primary";
    }

    predicate Valid()
      reads this, service
    {
      service != null ==> service.Valid()
    }

    /** `calendar_id`, or the default calendar when it is None. */
    function CalendarFor(calendarId: Option<string>): string
      reads this
    {
      if calendarId.Some? then calendarId.value else defaultCalendarId
    }

    /** `get_calendars`: one record per calendar list item, in order, absent keys given their defaults. */
    function GetCalendars(): (r: seq<CalendarInfo>)
      reads this, service
      ensures service == null ==> r == []
      ensures service != null ==>
        |r| == |service.calendarList| && forall i :: 0 <= i < |r| ==> r[i] == InfoOf(service.calendarList[i])
    {
      if service == null then [] else InfosOf(service.calendarList)
    }

    /** `set_default_calendar`: the default changes exactly when some accessible calendar has this id. */
    method SetDefaultCalendar(calendarId: string) returns (ok: bool)
      requires Valid()
      modifies this
      ensures Valid()
      ensures ok <==> service != null && exists c :: c in service.calendarList && c.id == Some(calendarId)
      ensures defaultCalendarId == if ok then calendarId else old(defaultCalendarId)
    {
      var calendars := GetCalendars();
      ok := exists c :: c in calendars && c.id == Some(calendarId);
      if ok {
        defaultCalendarId := calendarId;
      }
      if service != null {
        if exists c :: c in service.calendarList && c.id == Some(calendarId) {
          var c :| c in service.calendarList && c.id == Some(calendarId);
          var i :| 0 <= i < |service.calendarList| && service.calendarList[i] == c;
          assert calendars[i] == InfoOf(c);
        }
      }
    }

    /** `add_event`: the id of the stored event; None where the body cannot be built or the service refuses it. */
    method AddEvent(title: string, startTime: string, durationMinutes: int, description: string, location: string,
                    attendees: seq<string>, calendarId: Option<string>, allDay: bool, reminders: Option<Reminders>)
      returns (id: Option<string>)
      requires Valid()
      modifies service
      ensures Valid()
      ensures service == null ==> id.None?
      ensures service != null ==>
        var cal := CalendarFor(calendarId);
        var made := EventBody(title, startTime, durationMinutes, description, location, attendees, allDay, reminders);
        (id.Some? <==> made.Some? && cal in old(service.entries) && Accept(made.value.0, "").Some?)
        && (id.Some? ==>
              var xs := old(service.entries)[cal];
              id.value == FreshId(xs)
              && service.entries == old(service.entries)[cal := xs + [Accept(made.value.0, id.value).value]]
              && service.notices == old(service.notices) + [made.value.1])
        && (id.None? ==> service.entries == old(service.entries) && service.notices == old(service.notices))
        && service.calendarList == old(service.calendarList)
    {
      if service == null {
        return None;
      }
      var cal := CalendarFor(calendarId);
      var made := EventBody(title, startTime, durationMinutes, description, location, attendees, allDay, reminders);
      if made.None? {
        return None;
      }
      var r := service.Insert(cal, made.value.0, made.value.1);
      if r.None? {
        return None;
      }
      id := r.value.id;
    }

    /** `delete_event`, telling every attendee. */
    method DeleteEvent(eventId: string, calendarId: Option<string>) returns (ok: bool)
      requires Valid()
      modifies service
      ensures Valid()
      ensures service == null ==> !ok
      ensures service != null ==>
        var cal := CalendarFor(calendarId);
        (ok <==> old(service.Find(cal, eventId)).Some?)
        && (ok ==> service.entries == old(service.entries)[cal := Without(old(service.entries)[cal], eventId)]
                   && service.notices == old(service.notices) + ["all"])
        && (!ok ==> service.entries == old(service.entries) && service.notices == old(service.notices))
        && service.calendarList == old(service.calendarList)
    {
      if service == null {
        return false;
      }
      ok := service.Delete(CalendarFor(calendarId), eventId, "all");
    }

    /**
     * `update_event`: fetch, merge, send back. None where an unreadable
     * new start or end raises out of the method (only HttpError is caught).
     */
    method UpdateEvent(eventId: string, title: string, startTime: string, endTime: string, description: string,
                       location: string, attendees: seq<string>, calendarId: Option<string>) returns (r: Option<bool>)
      requires Valid()
      modifies service
      ensures Valid()
      ensures service == null ==> r == Some(false)
      ensures service != null ==>
        var cal := CalendarFor(calendarId);
        var got := old(service.Get(cal, eventId));
        var merged := if got.Some? then Merge(got.value, title, startTime, endTime, description, location, attendees) else None;
        (got.None? ==> r == Some(false))
        && (got.Some? && merged.None? ==> r.None?)
        && (merged.Some? ==> r == Some(Accept(merged.value, eventId).Some?))
        && (r == Some(true) ==>
              service.entries == old(service.entries)[cal := Replaced(old(service.entries)[cal], eventId, Accept(merged.value, eventId).value)]
              && service.notices == old(service.notices) + ["all"])
        && (r != Some(true) ==> service.entries == old(service.entries) && service.notices == old(service.notices))
        && service.calendarList == old(service.calendarList)
    {
      if service == null {
        return Some(false);
      }
      var cal := CalendarFor(calendarId);
      var got := service.Get(cal, eventId);
      if got.None? {
        return Some(false);
      }
      var merged := Merge(got.value, title, startTime, endTime, description, location, attendees);
      if merged.None? {
        return None;
      }
      var u := service.Update(cal, eventId, merged.value, "all");
      r := Some(u.Some?);
    }

    /** `get_event`: the returned resource of the stored event with this id. */
    function GetEvent(eventId: string, calendarId: Option<string>): (r: Option<Event>)
      requires Valid()
      reads this, service
      ensures r.Some? <==> service != null && service.Find(CalendarFor(calendarId), eventId).Some?
      ensures r.Some? ==> r.value.id == Some(eventId)
    {
      if service == null then None else service.Get(CalendarFor(calendarId), eventId)
    }

    /** `events().list` through the handler: the service's listing, [] where it refuses the request. */
    function ListEvents(calendarId: Option<string>, timeMin: string, timeMax: string, maxResults: nat): (r: seq<Event>)
      requires Valid()
      reads this, service
      ensures service == null ==> r == []
      ensures service != null ==>
        var cal := CalendarFor(calendarId);
        (cal !in service.entries || Bound(timeMin).None? || Bound(timeMax).None? ==> r == [])
        && (cal in service.entries && Bound(timeMin).Some? && Bound(timeMax).Some? ==>
              var xs := Listing(service.entries[cal], Bound(timeMin).value, Bound(timeMax).value, maxResults);
              Stored(xs) && r == Resources(xs))
    {
      if service == null then []
      else
        match service.List(CalendarFor(calendarId), timeMin, timeMax, maxResults)
        case None => []
        case Some(events) => events
    }

    /**
     * `get_events`: an omitted start is the clock's `isoformat()`, an
     * omitted end the same seven days later; `clock` is what
     * `datetime.now(pytz.UTC)` returns.
     */
    function GetEvents(startTime: Option<string>, endTime: Option<string>, calendarId: Option<string>,
                       maxResults: nat, clock: DateTime): seq<Event>
      requires Valid()
      requires startTime.None? ==> clock.Valid()
      requires endTime.None? ==> clock.Valid() && InRange(clock.wall + 7 * DayMicros)
      reads this, service
    {
      ListEvents(calendarId,
        if startTime.Some? then startTime.value else IsoFormat(clock),
        if endTime.Some? then endTime.value else IsoFormat(Shift(clock, 7 * DayMicros).value),
        maxResults)
    }

    /** `check_availability`: the conflicts among the listed events, available iff there are none. */
    method CheckAvailability(startTime: string, endTime: string, calendarId: Option<string>)
      returns (available: bool, conflicts: seq<Event>)
      requires Valid()
      ensures service == null ==> !available && conflicts == []
      ensures service != null ==>
        var scan := Collect(ListEvents(calendarId, startTime, endTime, DefaultMaxResults), Conflicting(FromIsoZ(startTime), FromIsoZ(endTime)));
        (scan.None? ==> !available && conflicts == [])
        && (scan.Some? ==> conflicts == scan.value && (available <==> conflicts == []))
    {
      if service == null {
        return false, [];
      }
      var events := ListEvents(calendarId, startTime, endTime, DefaultMaxResults);
      var scan := ScanConflicts(events, FromIsoZ(startTime), FromIsoZ(endTime));
      if scan.None? {
        return false, [];
      }
      conflicts := scan.value;
      available := |conflicts| == 0;
    }

    /** `find_available_slots`: the free slots of one day between two whole hours, in 30-minute steps. */
    method FindAvailableSlots(date: string, durationMinutes: int, startHour: int, endHour: int, calendarId: Option<string>)
      returns (slots: seq<Slot>)
      requires Valid()
      ensures service == null ==> slots == []
      ensures service != null ==>
        slots == SlotsOrNone(SlotStarts(Collect(ListEvents(calendarId, DayFirst(date), DayLast(date), DefaultMaxResults), SpanOf),
          StrptimeSlot(date, startHour), StrptimeSlot(date, endHour), durationMinutes),
          durationMinutes * MinuteMicros, durationMinutes)
    {
      if service == null {
        return [];
      }
      var events := ListEvents(calendarId, DayFirst(date), DayLast(date), DefaultMaxResults);
      var busy := CollectBusy(events);
      if busy.None? || MixedStarts(busy.value) {
        return [];
      }
      var sorted := SortBy(busy.value, BusyStart);
      var first := StrptimeSlot(date, startHour);
      var last := StrptimeSlot(date, endHour);
      if first.None? || last.None? {
        return [];
      }
      var starts := CollectStarts(sorted, first.value, last.value, durationMinutes);
      slots := SlotsOrNone(starts, durationMinutes * MinuteMicros, durationMinutes);
    }
  }
}
