/**
 * The Google Calendar service as the calendar code sees it: a list of
 * calendars and, per calendar id, the events stored in it, reached through
 * `events().list/get/insert/update/delete` and `calendarList().list`.
 *
 * An event time travels as `{'dateTime': ..., 'timeZone': ...}` or
 * `{'date': ...}`. The service keeps a timed value as a UTC instant to the
 * second and a date as a day number, and hands them back rendered as
 * "YYYY-MM-DDTHH:MM:SS.000Z" and "YYYY-MM-DD". A dateTime sent without an
 * offset is read in UTC, the only zone the calendar code ever sends with
 * one. A listing bound must carry an offset, as the RFC 3339 timestamps the
 * service asks for always do.
 */
module Service {
  import opened Text
  import opened Chrono
  import opened Sorting

  /** An event time as sent and returned. */
  datatype EventTime =
    | Timed(dateTime: string, timeZone: Option<string>)
    | AllDay(date: string)

  /** One entry of `reminders.overrides`: a channel ("email", "popup") and how many minutes before. */
  datatype Reminder = Reminder(channel: string, minutes: int)

  datatype Reminders = Reminders(useDefault: bool, overrides: seq<Reminder>)

  /**
   * An event resource. Keys the resource may lack are Options; `attendees`
   * holds the attendees' e-mail addresses and is empty when the key is absent.
   */
  datatype Event = Event(
    id: Option<string>,
    summary: Option<string>,
    description: Option<string>,
    location: Option<string>,
    start: EventTime,
    end: EventTime,
    attendees: seq<string>,
    reminders: Option<Reminders>)

  /** One item of `calendarList().list()`; every key may be absent. */
  datatype CalendarEntry = CalendarEntry(
    id: Option<string>,
    summary: Option<string>,
    description: Option<string>,
    timeZone: Option<string>,
    primary: Option<bool>,
    selected: Option<bool>,
    accessRole: Option<string>)

  // ---------------------------------------------------------------------
  // Stored times

  /** An event time as the service keeps it: a UTC instant in microseconds, or a day number. */
  datatype When = At(instant: int, timeZone: Option<string>) | OnDay(day: int)
  {
    predicate Valid() {
      match this
      case At(w, _) => InRange(w) && w % SecondMicros == 0
      case OnDay(n) => 0 <= n < MaxOrdinal
    }

    /** Where the time lies on the UTC axis; a day begins at its midnight in UTC. */
    function Begin(): int {
      match this
      case At(w, _) => w
      case OnDay(n) => n * DayMicros
    }
  }

  /** The instant a dateTime text stands for; without an offset it is read in UTC. */
  function ReadInstant(dt: string): Option<int> {
    match FromIsoZ(dt)
    case None => None
    case Some(d) => Some(Instant(d, 0))
  }

  /** How the service reads a time it is sent; a timed value loses its fraction of a second. */
  function ReadWhen(t: EventTime): (r: Option<When>)
    ensures r.Some? ==> r.value.Valid() && r.value.At? == t.Timed?
  {
    match t
    case Timed(dt, zone) =>
      (match ReadInstant(dt)
       case None => None
       case Some(m) =>
         var w := m - m % SecondMicros;
         TruncateWhole(m);
         if InRange(w) then Some(At(w, zone)) else None)
    case AllDay(date) =>
      (match ParseIsoDate(date)
       case None => None
       case Some(n) => Some(OnDay(n)))
  }

  /** How the service renders a time it returns. */
  function Render(w: When): (t: EventTime)
    requires w.Valid()
    ensures t.Timed? == w.At?
  {
    match w
    case At(i, zone) => Timed(StrftimeZ(i), zone)
    case OnDay(n) => AllDay(FormatDate(n))
  }

  lemma TruncateWhole(m: int)
    ensures (m - m % SecondMicros) % SecondMicros == 0
  {
    var q := m / SecondMicros;
    assert m - m % SecondMicros == q * SecondMicros;
  }

  lemma WholeSecond(w: int)
    requires w % SecondMicros == 0
    ensures w - w % SecondMicros == w
  {
  }

  lemma ReadAwareUtc(s: string, w: int)
    requires FromIsoZ(s) == Some(DateTime(w, Some(0)))
    ensures ReadInstant(s) == Some(w)
  {
  }

  lemma ReadStrftimeZ(w: int)
    requires InRange(w) && w % SecondMicros == 0
    ensures ReadInstant(StrftimeZ(w)) == Some(w)
  {
    WholeSecond(w);
    StrftimeZRoundTrip(w);
    ReadAwareUtc(StrftimeZ(w), w);
  }

  lemma ReadAt(s: string, zone: Option<string>, w: int)
    requires InRange(w) && w % SecondMicros == 0 && ReadInstant(s) == Some(w)
    ensures ReadWhen(Timed(s, zone)) == Some(At(w, zone))
  {
  }

  /** What the service returns reads back as what it stored. */
  lemma RenderRoundTrip(w: When)
    requires w.Valid()
    ensures ReadWhen(Render(w)) == Some(w)
  {
    match w
    case At(i, zone) =>
      ReadStrftimeZ(i);
      ReadAt(StrftimeZ(i), zone, i);
    case OnDay(n) =>
      FormatDateRoundTrip(n);
  }

  /**
   * What the calendar code makes of a returned timed value: a non-empty text
   * with a 'T' in it that `fromisoformat` reads as the aware UTC instant.
   */
  lemma RenderedTimed(w: int, zone: Option<string>)
    requires InRange(w) && w % SecondMicros == 0
    ensures var t := Render(At(w, zone));
      t.dateTime != "" && Contains(t.dateTime, "T") && FromIsoZ(t.dateTime) == Some(DateTime(w, Some(0)))
  {
    WholeSecond(w);
    StrftimeZRoundTrip(w);
    ContainsAt(StrftimeZ(w), "T", 10);
  }

  /** A returned date is non-empty and has no 'T' in it, so the calendar code takes it for an all-day value. */
  lemma RenderedDay(n: int)
    requires 0 <= n < MaxOrdinal
    ensures var t := Render(OnDay(n)); t.date != "" && !Contains(t.date, "T")
  {
    DateDigits(n);
    NoCharNotContained(FormatDate(n), 'T');
  }

  // ---------------------------------------------------------------------
  // Stored events

  /** An event as the service keeps it. */
  datatype Entry = Entry(
    id: string,
    summary: Option<string>,
    description: Option<string>,
    location: Option<string>,
    start: When,
    end: When,
    attendees: seq<string>,
    reminders: Option<Reminders>)
  {
    /** Both times valid and of the same kind, the end not before the start. */
    predicate Valid() {
      start.Valid() && end.Valid() && start.At? == end.At? && start.Begin() <= end.Begin()
    }
  }

  /** The event resource the service returns for an entry. */
  function Resource(x: Entry): (e: Event)
    requires x.Valid()
    ensures e.id == Some(x.id) && e.start.Timed? == x.start.At? && e.end.Timed? == x.end.At?
  {
    Event(Some(x.id), x.summary, x.description, x.location, Render(x.start), Render(x.end), x.attendees, x.reminders)
  }

  function Resources(xs: seq<Entry>): (r: seq<Event>)
    requires forall x :: x in xs ==> x.Valid()
    ensures |r| == |xs|
    ensures forall i :: 0 <= i < |xs| ==> r[i] == Resource(xs[i])
  {
    seq(|xs|, i requires 0 <= i < |xs| => Resource(xs[i]))
  }

  /**
   * The entry the service stores for a request body under `id`. It refuses
   * a time it cannot read, a timed start with an all-day end (or the
   * reverse) and an end before the start.
   */
  function Accept(body: Event, id: string): (r: Option<Entry>)
    ensures r.Some? <==>
      ReadWhen(body.start).Some? && ReadWhen(body.end).Some? && body.start.Timed? == body.end.Timed?
      && ReadWhen(body.start).value.Begin() <= ReadWhen(body.end).value.Begin()
    ensures r.Some? ==> r.value.Valid()
  {
    match (ReadWhen(body.start), ReadWhen(body.end))
    case (Some(s), Some(t)) =>
      if s.At? == t.At? && s.Begin() <= t.Begin() then
        Some(Entry(id, body.summary, body.description, body.location, s, t, body.attendees, body.reminders))
      else None
    case _ => None
  }

  /** An accepted body is stored under the id it is sent under, at the times the service reads from it. */
  lemma AcceptedTimes(body: Event, id: string)
    requires Accept(body, id).Some?
    ensures Accept(body, id).value.id == id
    ensures Accept(body, id).value.start == ReadWhen(body.start).value
    ensures Accept(body, id).value.end == ReadWhen(body.end).value
  {
  }

  /** Sending back a returned resource stores the same entry (under the id it is sent under). */
  lemma AcceptResource(x: Entry)
    requires x.Valid()
    ensures Accept(Resource(x), x.id) == Some(x)
  {
    RenderRoundTrip(x.start);
    RenderRoundTrip(x.end);
  }

  /** The entries of one calendar: valid, no id twice. */
  predicate Stored(xs: seq<Entry>) {
    (forall x :: x in xs ==> x.Valid()) && DistinctBy(xs, (x: Entry) => x.id)
  }

  /** The position of the entry with this id. */
  function IndexOf(xs: seq<Entry>, eventId: string): (r: Option<nat>)
    ensures r.Some? ==> r.value < |xs| && xs[r.value].id == eventId
    ensures r.None? <==> forall x :: x in xs ==> x.id != eventId
  {
    if xs == [] then None
    else if xs[0].id == eventId then Some(0)
    else
      var r := IndexOf(xs[1..], eventId);
      assert xs == [xs[0]] + xs[1..];
      if r.None? then None else Some(r.value + 1)
  }

  /** An id no stored entry has: longer than all of theirs. */
  function FreshId(xs: seq<Entry>): (r: string)
    ensures r != [] && forall x :: x in xs ==> x.id != r
  {
    seq(MaxIdLength(xs) + 1, _ => 'e')
  }

  function MaxIdLength(xs: seq<Entry>): (n: nat)
    ensures forall x :: x in xs ==> |x.id| <= n
  {
    if xs == [] then 0
    else
      assert xs == [xs[0]] + xs[1..];
      var m := MaxIdLength(xs[1..]);
      if |xs[0].id| > m then |xs[0].id| else m
  }

  /** The entries with any other id, in their order. */
  function Without(xs: seq<Entry>, eventId: string): (r: seq<Entry>)
    ensures forall x :: x in r <==> x in xs && x.id != eventId
  {
    Filter(xs, (x: Entry) => x.id != eventId)
  }

  /** The entries with the one of this id replaced by `y`. */
  function Replaced(xs: seq<Entry>, eventId: string, y: Entry): (r: seq<Entry>)
    ensures |r| == |xs|
    ensures forall i :: 0 <= i < |xs| ==> r[i] == if xs[i].id == eventId then y else xs[i]
  {
    seq(|xs|, i requires 0 <= i < |xs| => if xs[i].id == eventId then y else xs[i])
  }

  lemma WithoutStored(xs: seq<Entry>, eventId: string)
    requires Stored(xs)
    ensures Stored(Without(xs, eventId))
  {
    FilterDistinct(xs, (x: Entry) => x.id != eventId, (x: Entry) => x.id);
  }

  lemma ReplacedStored(xs: seq<Entry>, eventId: string, y: Entry)
    requires Stored(xs) && y.id == eventId && y.Valid()
    ensures Stored(Replaced(xs, eventId, y))
  {
    var r := Replaced(xs, eventId, y);
    forall x | x in r ensures x.Valid() {
      var i :| 0 <= i < |r| && r[i] == x;
      assert xs[i] in xs;
    }
  }

  lemma AppendStored(xs: seq<Entry>, y: Entry)
    requires Stored(xs) && y.Valid()
    requires forall x :: x in xs ==> x.id != y.id
    ensures Stored(xs + [y])
  {
    var r := xs + [y];
    forall i, j | 0 <= i < j < |r| ensures r[i].id != r[j].id {
      if j < |xs| {
        assert r[i] == xs[i] && r[j] == xs[j];
      } else {
        assert r[i] in xs;
      }
    }
  }

  // ---------------------------------------------------------------------
  // Listing

  /** A listing bound: an RFC 3339 timestamp, so it must carry an offset. */
  function Bound(s: string): (r: Option<int>)
    ensures r.Some? <==> FromIsoZ(s).Some? && FromIsoZ(s).value.Aware()
    ensures r.Some? ==> r.value == Instant(FromIsoZ(s).value, 0)
  {
    match FromIsoZ(s)
    case None => None
    case Some(d) => if d.Aware() then Some(Instant(d, 0)) else None
  }

  /** The listing filter: the entry ends after `lo` and starts before `hi`. */
  predicate Overlaps(x: Entry, lo: int, hi: int) {
    lo < x.end.Begin() && x.start.Begin() < hi
  }

  function StartKey(x: Entry): int {
    x.start.Begin()
  }

  /** `events().list(timeMin, timeMax, maxResults, singleEvents=True, orderBy='startTime')` over stored entries. */
  function Listing(xs: seq<Entry>, lo: int, hi: int, maxResults: nat): seq<Entry> {
    Take(SortBy(Filter(xs, (x: Entry) => Overlaps(x, lo, hi)), StartKey), maxResults)
  }

  /**
   * A listing returns overlapping stored entries only, by start, at most
   * `maxResults` of them, and all of them when it returns fewer; their ids
   * stay distinct.
   */
  lemma ListingSpec(xs: seq<Entry>, lo: int, hi: int, maxResults: nat)
    ensures |Listing(xs, lo, hi, maxResults)| <= maxResults
    ensures SortedBy(Listing(xs, lo, hi, maxResults), StartKey)
    ensures forall x :: x in Listing(xs, lo, hi, maxResults) ==> x in xs && Overlaps(x, lo, hi)
    ensures |Listing(xs, lo, hi, maxResults)| < maxResults ==>
      forall x :: x in xs && Overlaps(x, lo, hi) ==> x in Listing(xs, lo, hi, maxResults)
    ensures Stored(xs) ==> Stored(Listing(xs, lo, hi, maxResults))
  {
    var keep := (x: Entry) => Overlaps(x, lo, hi);
    var f := Filter(xs, keep);
    var s := SortBy(f, StartKey);
    var r := Take(s, maxResults);
    forall x | x in r ensures x in s {
      var i :| 0 <= i < |r| && r[i] == x;
      assert s[i] == x;
    }
    forall i, j | 0 <= i < j < |r| ensures StartKey(r[i]) <= StartKey(r[j]) {
      assert r[i] == s[i] && r[j] == s[j];
    }
    if Stored(xs) {
      FilterDistinct(xs, keep, (x: Entry) => x.id);
      SortByDistinct(f, StartKey, (x: Entry) => x.id);
      forall i, j | 0 <= i < j < |r| ensures r[i].id != r[j].id {
        assert r[i] == s[i] && r[j] == s[j];
      }
    }
  }

  // ---------------------------------------------------------------------
  // The service

  class CalendarService {
    /** What `calendarList().list()` returns. */
    var calendarList: seq<CalendarEntry>
    /** The entries of each calendar, by calendar id ("primary" among them). */
    var entries: map<string, seq<Entry>>
    /** The `sendUpdates` policy of every change made, in order. */
    var notices: seq<string>

    predicate Valid()
      reads this
    {
      forall c :: c in entries ==> Stored(entries[c])
    }

    constructor (calendarList: seq<CalendarEntry>, entries: map<string, seq<Entry>>)
      requires forall c :: c in entries ==> Stored(entries[c])
      ensures Valid()
      ensures this.calendarList == calendarList && this.entries == entries && notices == []
    {
      this.calendarList := calendarList;
      this.entries := entries;
      notices := [];
    }

    /** The stored entry of this id. */
    function Find(calendarId: string, eventId: string): (r: Option<Entry>)
      reads this
      ensures r.Some? <==> calendarId in entries && exists x :: x in entries[calendarId] && x.id == eventId
      ensures r.Some? ==> r.value in entries[calendarId] && r.value.id == eventId
    {
      if calendarId !in entries then None
      else
        match IndexOf(entries[calendarId], eventId)
        case None => None
        case Some(i) => Some(entries[calendarId][i])
    }

    /** `events().get`: None for an unknown calendar or event id. */
    function Get(calendarId: string, eventId: string): (r: Option<Event>)
      requires Valid()
      reads this
      ensures r.Some? <==> Find(calendarId, eventId).Some?
      ensures r.Some? ==> r.value == Resource(Find(calendarId, eventId).value)
    {
      match Find(calendarId, eventId)
      case None => None
      case Some(x) => Some(Resource(x))
    }

    /** `events().list`: None for an unknown calendar or a bound without an offset. */
    function List(calendarId: string, timeMin: string, timeMax: string, maxResults: nat): (r: Option<seq<Event>>)
      requires Valid()
      reads this
      ensures r.Some? <==> calendarId in entries && Bound(timeMin).Some? && Bound(timeMax).Some?
      ensures r.Some? ==>
        var xs := Listing(entries[calendarId], Bound(timeMin).value, Bound(timeMax).value, maxResults);
        Stored(xs) && r.value == Resources(xs)
    {
      if calendarId !in entries then None
      else
        match (Bound(timeMin), Bound(timeMax))
        case (Some(lo), Some(hi)) =>
          ListingSpec(entries[calendarId], lo, hi, maxResults);
          Some(Resources(Listing(entries[calendarId], lo, hi, maxResults)))
        case _ => None
    }

    /** `events().insert`: stores the accepted body under a fresh id and returns the new resource. */
    method Insert(calendarId: string, body: Event, sendUpdates: string) returns (r: Option<Event>)
      requires Valid()
      modifies this
      ensures Valid()
      ensures r.Some? <==> calendarId in old(entries) && Accept(body, "").Some?
      ensures r.Some? ==>
        var xs := old(entries)[calendarId];
        var y := Accept(body, FreshId(xs)).value;
        r == Some(Resource(y))
        && entries == old(entries)[calendarId := xs + [y]]
        && notices == old(notices) + [sendUpdates]
      ensures r.None? ==> entries == old(entries) && notices == old(notices)
      ensures calendarList == old(calendarList)
    {
      if calendarId !in entries {
        return None;
      }
      var xs := entries[calendarId];
      var y := Accept(body, FreshId(xs));
      if y.None? {
        return None;
      }
      AppendStored(xs, y.value);
      entries := entries[calendarId := xs + [y.value]];
      notices := notices + [sendUpdates];
      r := Some(Resource(y.value));
    }

    /** `events().update`: replaces the entry of this id by the accepted body. */
    method Update(calendarId: string, eventId: string, body: Event, sendUpdates: string) returns (r: Option<Event>)
      requires Valid()
      modifies this
      ensures Valid()
      ensures r.Some? <==> old(Find(calendarId, eventId)).Some? && Accept(body, eventId).Some?
      ensures r.Some? ==>
        var y := Accept(body, eventId).value;
        r == Some(Resource(y))
        && entries == old(entries)[calendarId := Replaced(old(entries)[calendarId], eventId, y)]
        && notices == old(notices) + [sendUpdates]
      ensures r.None? ==> entries == old(entries) && notices == old(notices)
      ensures calendarList == old(calendarList)
    {
      if Find(calendarId, eventId).None? {
        return None;
      }
      var y := Accept(body, eventId);
      if y.None? {
        return None;
      }
      ReplacedStored(entries[calendarId], eventId, y.value);
      entries := entries[calendarId := Replaced(entries[calendarId], eventId, y.value)];
      notices := notices + [sendUpdates];
      r := Some(Resource(y.value));
    }

    /** `events().delete`: removes the entry of this id; false when there is none. */
    method Delete(calendarId: string, eventId: string, sendUpdates: string) returns (ok: bool)
      requires Valid()
      modifies this
      ensures Valid()
      ensures ok <==> old(Find(calendarId, eventId)).Some?
      ensures ok ==>
        entries == old(entries)[calendarId := Without(old(entries)[calendarId], eventId)]
        && notices == old(notices) + [sendUpdates]
      ensures !ok ==> entries == old(entries) && notices == old(notices)
      ensures calendarList == old(calendarList)
    {
      ok := Find(calendarId, eventId).Some?;
      if ok {
        WithoutStored(entries[calendarId], eventId);
        entries := entries[calendarId := Without(entries[calendarId], eventId)];
        notices := notices + [sendUpdates];
      }
    }
  }
}
