/**
 * The console calendar assistant: the language model names an intent and
 * extracts a date, a time and event details from the user's message; an
 * event is proposed as a "- Key: value" confirmation text, which a later
 * "yes" parses back into the arguments of `add_event`.
 */
module Assistant {
  import opened Text
  import opened Chrono
  import opened Sorting
  import opened Service
  import opened Handler

  /** One entry of `conversation_history`. */
  datatype Message = Message(role: string, content: string)

  /** The fields of the JSON answer `extract_event_details` reads. */
  datatype EventDetails = EventDetails(title: string, duration: int, description: string, location: string,
                                       attendees: seq<string>)

  /**
   * What the language model answered while one message was processed: the
   * intent word, the date and time `extract_date_time` read (None for a JSON
   * null or an answer that is not JSON) and the event details (None for an
   * answer that is not JSON).
   */
  datatype Answers = Answers(intent: string, date: Option<string>, time: Option<string>, details: Option<EventDetails>)

  /** Python's truth value of an optional string: present and not empty. */
  predicate Given(s: Option<string>) {
    s.Some? && s.value != ""
  }

  // ---------------------------------------------------------------------
  // The confirmation text

  const Indent: string := "        "
  const ProposalMark: string := "I'll add an event"
  const NotSpecified: string := "Not specified"

  /** `time or 'Not specified'`. */
  function TimeShown(time: Option<string>): string {
    if Given(time) then time.value else NotSpecified
  }

  /** `', '.join(attendees) if attendees else 'None'`. */
  function AttendeesShown(attendees: seq<string>): string {
    if attendees == [] then "None" else Join(attendees, ", ")
  }

  /** One "- Key: value" line of the confirmation, with the template's indentation. */
  function Field(key: string, value: string): string {
    Indent + "- " + key + ": " + value
  }

  function Opening(): string {
    Indent + ProposalMark + " with these details:"
  }

  function Closing(): seq<string> {
    [Indent, Indent + "Should I proceed? (yes/no)", Indent]
  }

  /** The key/value pairs the confirmation lists, in order. */
  function Shown(date: string, time: Option<string>, d: EventDetails): seq<(string, string)> {
    [("Title", d.title), ("Date", date), ("Time", TimeShown(time)),
     ("Duration", IntToString(d.duration) + " minutes"), ("Description", d.description),
     ("Location", d.location), ("Attendees", AttendeesShown(d.attendees))]
  }

  function FieldLines(pairs: seq<(string, string)>): (r: seq<string>)
    ensures |r| == |pairs| && forall i :: 0 <= i < |pairs| ==> r[i] == Field(pairs[i].0, pairs[i].1)
  {
    seq(|pairs|, i requires 0 <= i < |pairs| => Field(pairs[i].0, pairs[i].1))
  }

  /** The lines of the confirmation `_handle_add_event` writes: a blank line, the opening, the fields, the question. */
  function ConfirmationLines(date: string, time: Option<string>, d: EventDetails): seq<string> {
    ["", Opening()] + FieldLines(Shown(date, time, d)) + Closing()
  }

  /** Behind a newline, the opening line holds the mark right after its indentation. */
  lemma MarkAfterNewline(rest: string)
    ensures ("\n" + (Opening() + "\n" + rest))[9..9 + |ProposalMark|] == ProposalMark
  {
    var r := "\n" + (Opening() + "\n" + rest);
    var o := Opening();
    assert |Indent| == 8 && o[8..8 + |ProposalMark|] == ProposalMark;
    assert r[1..1 + |o|] == o;
  }

  /** The confirmation text; it carries the mark `confirm_action` looks for. */
  function Confirmation(date: string, time: Option<string>, d: EventDetails): (r: string)
    ensures Contains(r, ProposalMark)
  {
    var lines := ConfirmationLines(date, time, d);
    var rest := Join(lines[2..], "\n");
    var tail := [Opening()] + lines[2..];
    assert lines == [""] + tail;
    JoinCons("", tail, "\n");
    JoinCons(Opening(), lines[2..], "\n");
    var r := Join(lines, "\n");
    assert r == "\n" + (Opening() + "\n" + rest);
    MarkAfterNewline(rest);
    ContainsAt(r, ProposalMark, 9);
    r
  }

  // ---------------------------------------------------------------------
  // Reading a confirmation back

  const KeyChars: set<char> := {'-', ' '}

  /** One pass of the parse loop: a line with ": " stores the text after it under the stripped text before it. */
  function Enter(details: map<string, string>, line: string): map<string, string> {
    var (key, value) := SplitOnce(line, ": ");
    if value.None? then details else details[StripChars(key, KeyChars) := value.value]
  }

  /** The dictionary the parse loop holds after reading `lines` on top of `details`. */
  function ReadInto(details: map<string, string>, lines: seq<string>): map<string, string>
    decreases |lines|
  {
    if lines == [] then details else ReadInto(Enter(details, lines[0]), lines[1..])
  }

  /** The `details` dictionary `confirm_action` builds from a message. */
  function Details(content: string): map<string, string> {
    ReadInto(map[], Split(content, "\n"))
  }

  /** The parse loop of `confirm_action`. */
  method ParseConfirmation(content: string) returns (details: map<string, string>)
    ensures details == Details(content)
  {
    var lines := Split(content, "\n");
    details := map[];
    for i := 0 to |lines|
      invariant ReadInto(details, lines[i..]) == Details(content)
    {
      assert lines[i..][1..] == lines[i + 1..];
      if Contains(lines[i], ": ") {
        var (key, value) := SplitOnce(lines[i], ": ");
        details := details[StripChars(key, KeyChars) := value.value];
      }
    }
  }

  /** The dictionary after entering `pairs` in order. */
  function Entered(details: map<string, string>, pairs: seq<(string, string)>): map<string, string>
    decreases |pairs|
  {
    if pairs == [] then details else Entered(details[pairs[0].0 := pairs[0].1], pairs[1..])
  }

  predicate OneLine(s: string) {
    forall i :: 0 <= i < |s| ==> s[i] != '\n'
  }

  /** A key the template writes: no ':' in it, and no '-' or ' ' at either end. */
  predicate CleanKey(k: string) {
    k != [] && k[0] !in KeyChars && k[|k| - 1] !in KeyChars && forall i :: 0 <= i < |k| ==> k[i] != ':'
  }

  lemma {:induction false} TrimLeftPrefix(pre: string, s: string, chars: set<char>)
    requires forall i :: 0 <= i < |pre| ==> pre[i] in chars
    ensures TrimLeftChars(pre + s, chars) == TrimLeftChars(s, chars)
    decreases |pre|
  {
    if pre != [] {
      assert (pre + s)[1..] == pre[1..] + s;
      TrimLeftPrefix(pre[1..], s, chars);
    } else {
      assert pre + s == s;
    }
  }

  /** A field line enters its key and value, whatever the value holds. */
  lemma FieldEnters(details: map<string, string>, k: string, v: string)
    requires CleanKey(k)
    ensures Enter(details, Field(k, v)) == details[k := v]
  {
    var p := Indent + "- " + k;
    assert Field(k, v) == p + ": " + v;
    assert forall i :: 0 <= i < |p| ==> p[i] != ':' by {
      forall i | 0 <= i < |p| ensures p[i] != ':' {
        if i >= 10 {
          assert p[i] == k[i - 10];
        }
      }
    }
    NoCharNotContained(p, ':');
    AbsentChar(p, ": ", 0);
    FirstOccurrence(p, ": ", v);
    assert (p + ": " + v)[..|p|] == p;
    assert (p + ": " + v)[|p| + 2..] == v;
    TrimLeftPrefix(Indent + "- ", k, KeyChars);
    assert TrimLeftChars(k, KeyChars) == k;
    assert TrimRightChars(k, KeyChars) == k;
  }

  /** A line with no ':' before its last character is skipped. */
  lemma PlainLine(details: map<string, string>, line: string)
    requires forall i :: 0 <= i < |line| - 1 ==> line[i] != ':'
    ensures Enter(details, line) == details
  {
    forall j ensures !OccursAt(line, ": ", j) {
      if 0 <= j && j + 2 <= |line| {
        assert line[j..j + 2][0] == line[j];
      }
    }
  }

  lemma {:induction false} ReadIntoAppend(details: map<string, string>, a: seq<string>, b: seq<string>)
    ensures ReadInto(details, a + b) == ReadInto(ReadInto(details, a), b)
    decreases |a|
  {
    if a != [] {
      assert (a + b)[1..] == a[1..] + b;
      ReadIntoAppend(Enter(details, a[0]), a[1..], b);
    } else {
      assert a + b == b;
    }
  }

  lemma {:induction false} ReadFields(details: map<string, string>, pairs: seq<(string, string)>)
    requires forall i :: 0 <= i < |pairs| ==> CleanKey(pairs[i].0)
    ensures ReadInto(details, FieldLines(pairs)) == Entered(details, pairs)
    decreases |pairs|
  {
    if pairs != [] {
      FieldEnters(details, pairs[0].0, pairs[0].1);
      assert FieldLines(pairs)[1..] == FieldLines(pairs[1..]);
      ReadFields(details[pairs[0].0 := pairs[0].1], pairs[1..]);
    }
  }

  lemma {:induction false} JoinOneLine(parts: seq<string>, sep: string)
    requires OneLine(sep) && forall i :: 0 <= i < |parts| ==> OneLine(parts[i])
    ensures OneLine(Join(parts, sep))
    decreases |parts|
  {
    if |parts| > 1 {
      JoinOneLine(parts[1..], sep);
    }
  }

  lemma FieldOneLine(k: string, v: string)
    requires OneLine(k) && OneLine(v)
    ensures OneLine(Field(k, v))
  {
    var f := Field(k, v);
    forall i | 0 <= i < |f| ensures f[i] != '\n' {
      if 10 <= i < 10 + |k| {
        assert f[i] == k[i - 10];
      } else if i >= 12 + |k| {
        assert f[i] == v[i - 12 - |k|];
      }
    }
  }

  /** Field values that hold no line break: what the confirmation round trip needs of its inputs. */
  predicate OneLineFields(date: string, time: Option<string>, d: EventDetails) {
    OneLine(d.title) && OneLine(date) && (Given(time) ==> OneLine(time.value)) && OneLine(d.description)
    && OneLine(d.location) && forall a :: a in d.attendees ==> OneLine(a)
  }

  /** The duration text has no line break. */
  lemma DurationOneLine(n: int)
    ensures OneLine(IntToString(n) + " minutes")
  {
    var t := IntToString(n);
    var m := if n < 0 then -n else n;
    assert AllDigits(NatToString(m));
    forall i | 0 <= i < |t| ensures t[i] != '\n' {
      if n < 0 && i > 0 {
        assert t[i] == NatToString(m)[i - 1];
      }
    }
    var dur := t + " minutes";
    forall i | 0 <= i < |dur| ensures dur[i] != '\n' {
      if i < |t| {
        assert dur[i] == t[i];
      }
    }
  }

  lemma KeysClean(date: string, time: Option<string>, d: EventDetails)
    ensures forall i :: 0 <= i < 7 ==> OneLine(Shown(date, time, d)[i].0) && CleanKey(Shown(date, time, d)[i].0)
  {
  }

  lemma ShownOneLine(date: string, time: Option<string>, d: EventDetails)
    requires OneLineFields(date, time, d)
    ensures forall i :: 0 <= i < 7 ==> OneLine(Shown(date, time, d)[i].0) && OneLine(Shown(date, time, d)[i].1)
    ensures forall i :: 0 <= i < 7 ==> CleanKey(Shown(date, time, d)[i].0)
  {
    KeysClean(date, time, d);
    DurationOneLine(d.duration);
    if d.attendees != [] {
      forall i | 0 <= i < |d.attendees| ensures OneLine(d.attendees[i]) {
        assert d.attendees[i] in d.attendees;
      }
      JoinOneLine(d.attendees, ", ");
    }
  }

  lemma FramingOneLine()
    ensures OneLine(Opening())
    ensures forall i :: 0 <= i < 3 ==> OneLine(Closing()[i])
  {
  }

  /** Splitting the confirmation at line breaks gives back its lines. */
  lemma ConfirmationSplits(date: string, time: Option<string>, d: EventDetails)
    requires OneLineFields(date, time, d)
    ensures Split(Confirmation(date, time, d), "\n") == ConfirmationLines(date, time, d)
  {
    var pairs := Shown(date, time, d);
    var lines := ConfirmationLines(date, time, d);
    ShownOneLine(date, time, d);
    FramingOneLine();
    forall i | 0 <= i < |lines| ensures OneLine(lines[i]) {
      if 2 <= i < 9 {
        FieldOneLine(pairs[i - 2].0, pairs[i - 2].1);
      }
    }
    forall i | 0 <= i < |lines| ensures !Contains(lines[i], "\n") {
      NoCharNotContained(lines[i], '\n');
    }
    SplitJoined(lines, "\n");
  }

  /** The lines around the fields enter nothing. */
  lemma HeadSkipped(details: map<string, string>)
    ensures ReadInto(details, ["", Opening()]) == details
  {
    PlainLine(details, "");
    PlainLine(details, Opening());
    assert ["", Opening()][1..] == [Opening()];
    assert ReadInto(details, [Opening()]) == ReadInto(details, []);
  }

  lemma ClosingSkipped(details: map<string, string>)
    ensures ReadInto(details, Closing()) == details
  {
    var c := Closing();
    PlainLine(details, c[0]);
    PlainLine(details, c[1]);
    assert c[1..] == [c[1], c[2]] && c[1..][1..] == [c[2]];
    assert ReadInto(details, [c[2]]) == ReadInto(details, []);
  }

  /**
   * The confirmation round trip: for field values without line breaks,
   * `confirm_action` reads back every key with exactly the text the
   * template wrote for it.
   */
  lemma ConfirmationReadsBack(date: string, time: Option<string>, d: EventDetails)
    requires OneLineFields(date, time, d)
    ensures Details(Confirmation(date, time, d)) ==
      map["Title" := d.title, "Date" := date, "Time" := TimeShown(time),
          "Duration" := IntToString(d.duration) + " minutes", "Description" := d.description,
          "Location" := d.location, "Attendees" := AttendeesShown(d.attendees)]
  {
    ConfirmationSplits(date, time, d);
    var pairs := Shown(date, time, d);
    ShownOneLine(date, time, d);
    var head: seq<string> := ["", Opening()];
    ReadIntoAppend(map[], head + FieldLines(pairs), Closing());
    ReadIntoAppend(map[], head, FieldLines(pairs));
    HeadSkipped(map[]);
    ReadFields(map[], pairs);
    ClosingSkipped(Entered(map[], pairs));
    EnteredSeven(d.title, date, TimeShown(time), IntToString(d.duration) + " minutes", d.description,
      d.location, AttendeesShown(d.attendees));
  }

  lemma EnteredSeven(title: string, date: string, time: string, duration: string, description: string,
                     location: string, attendees: string)
    ensures Entered(map[], [("Title", title), ("Date", date), ("Time", time), ("Duration", duration),
                            ("Description", description), ("Location", location), ("Attendees", attendees)])
      == map["Title" := title, "Date" := date, "Time" := time, "Duration" := duration,
             "Description" := description, "Location" := location, "Attendees" := attendees]
  {
    var p := [("Title", title), ("Date", date), ("Time", time), ("Duration", duration),
              ("Description", description), ("Location", location), ("Attendees", attendees)];
    var m1 := map["Title" := title];
    var m2 := m1["Date" := date];
    var m3 := m2["Time" := time];
    var m4 := m3["Duration" := duration];
    var m5 := m4["Description" := description];
    var m6 := m5["Location" := location];
    var m7 := m6["Attendees" := attendees];
    assert Entered(map[], p) == Entered(m1, p[1..]);
    assert Entered(m1, p[1..]) == Entered(m2, p[2..]) by { assert p[1..][1..] == p[2..]; }
    assert Entered(m2, p[2..]) == Entered(m3, p[3..]) by { assert p[2..][1..] == p[3..]; }
    assert Entered(m3, p[3..]) == Entered(m4, p[4..]) by { assert p[3..][1..] == p[4..]; }
    assert Entered(m4, p[4..]) == Entered(m5, p[5..]) by { assert p[4..][1..] == p[5..]; }
    assert Entered(m5, p[5..]) == Entered(m6, p[6..]) by { assert p[5..][1..] == p[6..]; }
    assert Entered(m6, p[6..]) == Entered(m7, p[7..]) by { assert p[6..][1..] == p[7..]; }
    assert p[7..] == [];
  }

  // ---------------------------------------------------------------------
  // From the details to the `add_event` call

  /** The arguments `confirm_action` passes to `add_event`; no attendees (None) is the empty list. */
  datatype Addition = Addition(title: string, startTime: string, durationMinutes: int, description: string,
                               location: string, attendees: seq<string>)

  const DetailKeys: set<string> := {"Title", "Date", "Time", "Duration", "Description", "Location", "Attendees"}

  /** `int(text.split()[0])`; None where there is no word (IndexError) or it is not an integer (ValueError). */
  function LeadingInt(text: string): Option<int> {
    match FirstWord(text)
    case None => None
    case Some(w) => ParseInt(w)
  }

  /** `date + "T" + time.replace('Not specified', '00:00') + ":00"`. */
  function StartText(date: string, time: string): string {
    date + "T" + Replace(time, NotSpecified, "00:00") + ":00"
  }

  /** `text.split(', ') if text != 'None' else None`. */
  function AttendeesRead(text: string): seq<string> {
    if text != "None" then Split(text, ", ") else []
  }

  /** The `add_event` call built from the parsed details; None where building it raises (a missing key, a bad duration). */
  function CallOf(details: map<string, string>): (r: Option<Addition>)
    ensures r.Some? ==> DetailKeys <= details.Keys && r.value.title == details["Title"]
  {
    if !(DetailKeys <= details.Keys) then None
    else
      match LeadingInt(details["Duration"])
      case None => None
      case Some(n) =>
        Some(Addition(details["Title"], StartText(details["Date"], details["Time"]), n,
                      details["Description"], details["Location"], AttendeesRead(details["Attendees"])))
  }

  /** A Time of "Not specified" becomes midnight; a given time is kept. */
  lemma TimeReadsBack(time: Option<string>)
    requires Given(time) ==> !Contains(time.value, NotSpecified)
    ensures Replace(TimeShown(time), NotSpecified, "00:00") == if Given(time) then time.value else "00:00"
  {
    if Given(time) {
      ReplaceAbsent(time.value, NotSpecified, "00:00");
    } else {
      var s := NotSpecified;
      assert OccursAt(s, s, 0);
      assert Find(s, s) == Some(0);
      assert s[|s|..] == "";
      assert Split("", s) == [""];
      assert Split(s, s) == ["", ""];
    }
  }

  /** The duration is read back as the integer the template wrote. */
  lemma DurationReadsBack(n: int)
    ensures LeadingInt(IntToString(n) + " minutes") == Some(n)
  {
    IntNoSpace(n);
    FirstWordOf(IntToString(n), " minutes");
    IntRoundTrip(n);
  }

  /**
   * The attendees are read back as the list the template joined, when no
   * address contains ", "; no attendees, and a single one named "None",
   * both come back as none.
   */
  lemma AttendeesReadBack(attendees: seq<string>)
    requires forall a :: a in attendees ==> !Contains(a, ", ")
    ensures AttendeesRead(AttendeesShown(attendees)) == if attendees == ["None"] then [] else attendees
  {
    if attendees != [] {
      forall i | 0 <= i < |attendees| ensures !Contains(attendees[i], ", ") {
        assert attendees[i] in attendees;
      }
      var text := Join(attendees, ", ");
      if |attendees| > 1 {
        JoinCons(attendees[0], attendees[1..], ", ");
        assert attendees == [attendees[0]] + attendees[1..];
        assert text[|attendees[0]|] == ',';
        assert text != "None";
      }
      if attendees != ["None"] {
        assert text != "None";
        SplitJoined(attendees, ", ");
      }
    }
  }

  // ---------------------------------------------------------------------
  // The conversation

  /** A message `confirm_action` treats as a proposal. */
  predicate Proposes(m: Message) {
    m.role == "assistant" && Contains(m.content, ProposalMark)
  }

  /** The position of the latest proposal, as the search over `reversed(conversation_history)` finds it. */
  function LatestProposal(history: seq<Message>): (r: Option<nat>)
    ensures r.Some? ==> r.value < |history| && Proposes(history[r.value])
    ensures r.Some? ==> forall j :: r.value < j < |history| ==> !Proposes(history[j])
    ensures r.None? ==> forall j :: 0 <= j < |history| ==> !Proposes(history[j])
  {
    if history == [] then None
    else if Proposes(history[|history| - 1]) then Some(|history| - 1)
    else LatestProposal(history[..|history| - 1])
  }

  /** What a "yes" would do: None without a proposal; otherwise the call built from the latest one (None where that raises). */
  function Pending(history: seq<Message>): Option<Option<Addition>> {
    match LatestProposal(history)
    case None => None
    case Some(i) => Some(CallOf(Details(history[i].content)))
  }

  /** The answers that let `confirm_action` proceed. */
  predicate Affirmative(response: string) {
    Lower(response) in {"yes", "y", "sure", "okay"}
  }

  /**
   * Confirming right after a proposal adds exactly the proposed event: for
   * values without line breaks and addresses without ", ", the call has the
   * title, description and location as extracted, the start at the given
   * time (midnight when none was given) and the extracted duration.
   */
  lemma ConfirmRoundTrip(history: seq<Message>, date: string, time: Option<string>, d: EventDetails)
    requires OneLineFields(date, time, d)
    requires Given(time) ==> !Contains(time.value, NotSpecified)
    requires forall a :: a in d.attendees ==> !Contains(a, ", ")
    ensures Pending(history + [Message("assistant", Confirmation(date, time, d))]) ==
      Some(Some(Addition(d.title, date + "T" + (if Given(time) then time.value else "00:00") + ":00", d.duration,
                         d.description, d.location, if d.attendees == ["None"] then [] else d.attendees)))
  {
    var c := Confirmation(date, time, d);
    assert LatestProposal(history + [Message("assistant", c)]) == Some(|history|);
    ConfirmationReadsBack(date, time, d);
    TimeReadsBack(time);
    DurationReadsBack(d.duration);
    AttendeesReadBack(d.attendees);
    CallOfShown(Details(c), d.title, date, TimeShown(time), IntToString(d.duration) + " minutes", d.description,
      d.location, AttendeesShown(d.attendees), d.duration);
  }

  lemma CallOfShown(details: map<string, string>, title: string, date: string, time: string, duration: string,
                    description: string, location: string, attendees: string, n: int)
    requires details == map["Title" := title, "Date" := date, "Time" := time, "Duration" := duration,
                            "Description" := description, "Location" := location, "Attendees" := attendees]
    requires LeadingInt(duration) == Some(n)
    ensures CallOf(details) == Some(Addition(title, StartText(date, time), n, description, location, AttendeesRead(attendees)))
  {
    SevenKeys(details, title, date, time, duration, description, location, attendees);
    CallOfFields(details, n);
  }

  lemma SevenKeys(details: map<string, string>, title: string, date: string, time: string, duration: string,
                  description: string, location: string, attendees: string)
    requires details == map["Title" := title, "Date" := date, "Time" := time, "Duration" := duration,
                            "Description" := description, "Location" := location, "Attendees" := attendees]
    ensures DetailKeys <= details.Keys
    ensures details["Title"] == title && details["Date"] == date && details["Time"] == time && details["Duration"] == duration
    ensures details["Description"] == description && details["Location"] == location && details["Attendees"] == attendees
  {
  }

  lemma CallOfFields(details: map<string, string>, n: int)
    requires DetailKeys <= details.Keys && LeadingInt(details["Duration"]) == Some(n)
    ensures CallOf(details) == Some(Addition(details["Title"], StartText(details["Date"], details["Time"]), n,
                                             details["Description"], details["Location"], AttendeesRead(details["Attendees"])))
  {
  }

  // ---------------------------------------------------------------------
  // Replies

  const DateUnclear: string := "I couldn't understand the date and time. Please specify when the event should occur."
  const DetailsUnclear: string := "I couldn't understand the event details. Please provide more information."
  const Cancelled: string := "Action cancelled. What else would you like to do?"
  const NothingToConfirm: string := "I couldn't find the action to confirm. Please try your request again."
  const Added: string := "Event has been added successfully!"
  const AddFailed: string := "Failed to add the event. Please try again."
  const DateTimeMissing: string := "Please specify the date and time you want to check."
  const NoEventsFound: string := "No events found for the specified period."
  const ListHeader: string := "Here are the events:\n"
  const RecentHeader: string := "Recent events:\n"
  const AskForId: string := "\nPlease provide the event ID you want to delete."
  const BusyHeader: string := "The time slot is not available. Conflicts:\n"
  /** The OverflowError `datetime + timedelta` raises past year 9999, as `process_message` reports it. */
  const RangeError: string := "I encountered an error: date value out of range"

  /**
   * The ValueError `fromisoformat` raises on text it cannot parse, as
   * `process_message` reports it. A well-formed text with a field out of
   * range ("2024-02-30") gets this reply here too, where Python names the
   * field instead ("day is out of range for month").
   */
  function IsoError(text: string): string {
    "I encountered an error: Invalid isoformat string: '" + text + "'"
  }

  function Free(date: string, time: string): string {
    "The time slot on " + date + " at " + time + " is available!"
  }

  const HelpIndent: string := "           "

  /** The lines of `_get_help_message`. */
  const HelpLines: seq<string> := ["", Indent + "I can help you manage your calendar! Here's what I can do:", Indent,
     Indent + "1. Add events:", HelpIndent + "\"Schedule a team meeting tomorrow at 2pm for 90 minutes\"", HelpIndent,
     Indent + "2. Delete events:", HelpIndent + "\"Delete my meeting with John\"", HelpIndent,
     Indent + "3. List events:", HelpIndent + "\"What meetings do I have today?\"",
     HelpIndent + "\"Show my schedule for next week\"", HelpIndent,
     Indent + "4. Check availability:", HelpIndent + "\"Am I free tomorrow at 3pm?\"",
     HelpIndent + "\"Find me an available slot on Friday\"", HelpIndent,
     Indent + "Just let me know what you'd like to do!", Indent]

  const HelpMessage: string := Join(HelpLines, "\n")

  const PromptIndent: string := "            "

  /** The system message `conversation_history` starts with. */
  const SystemPrompt: string :=
    Join(["", PromptIndent + "You are a helpful calendar assistant that helps users manage their Google Calendar.",
          PromptIndent + "You can help with:", PromptIndent + "1. Adding new events", PromptIndent + "2. Deleting events",
          PromptIndent + "3. Listing upcoming events", PromptIndent + "4. Finding available time slots",
          PromptIndent + "5. Checking schedule conflicts", PromptIndent,
          PromptIndent + "Extract relevant information from user messages and help manage their calendar.",
          PromptIndent + "Always confirm details before making changes.", PromptIndent], "\n")

  /** Python's `str()` of a value that may be None. */
  function Str(o: Option<string>): string {
    if o.Some? then o.value else "None"
  }

  /** `event['start'].get('dateTime', event['start'].get('date'))`. */
  function StartOf(e: Event): string {
    match e.start
    case Timed(dateTime, _) => dateTime
    case AllDay(date) => date
  }

  /** The two lines the list and availability replies write per event. */
  function StartLine(e: Event): string {
    "- " + Str(e.summary) + "\n  Start: " + StartOf(e) + "\n"
  }

  /** The two lines `_handle_delete_event` writes per event. */
  function IdLine(e: Event): string {
    "- " + Str(e.summary) + " (ID: " + Str(e.id) + ")\n  Start: " + StartOf(e) + "\n"
  }

  function Concat(parts: seq<string>): string {
    if parts == [] then "" else Concat(parts[..|parts| - 1]) + parts[|parts| - 1]
  }

  function Lines(events: seq<Event>, line: Event -> string): (r: seq<string>)
    ensures |r| == |events| && forall i :: 0 <= i < |events| ==> r[i] == line(events[i])
  {
    seq(|events|, i requires 0 <= i < |events| => line(events[i]))
  }

  /** The `text += ...` loops of the handlers: one line per event after a header. */
  method AppendLines(head: string, events: seq<Event>, line: Event -> string) returns (text: string)
    ensures text == head + Concat(Lines(events, line))
  {
    var lines := Lines(events, line);
    text := head;
    for i := 0 to |events|
      invariant text == head + Concat(lines[..i])
    {
      assert lines[..i + 1][..i] == lines[..i];
      text := text + line(events[i]);
    }
    assert lines[..|events|] == lines;
  }

  /** Each part appears in the concatenation, after the parts before it. */
  lemma {:induction false} ConcatAt(parts: seq<string>, i: nat)
    requires i < |parts|
    ensures Concat(parts) == Concat(parts[..i]) + parts[i] + Concat(parts[i + 1..])
    decreases |parts|
  {
    var n := |parts| - 1;
    var init := parts[..n];
    if i == n {
      assert parts[i + 1..] == [];
      assert init == parts[..i];
    } else {
      ConcatAt(init, i);
      assert init[..i] == parts[..i] && init[i] == parts[i];
      var tail := parts[i + 1..];
      assert tail[..|tail| - 1] == init[i + 1..];
      assert tail[|tail| - 1] == parts[n];
    }
  }

  /** A text spliced into a line that is spliced into a larger text is contained in it. */
  lemma Inside(head: string, before: string, a: string, sub: string, b: string, after: string, tail: string)
    ensures Contains(head + (before + (a + sub + b) + after) + tail, sub)
  {
    var s := head + (before + (a + sub + b) + after) + tail;
    var k := |head| + |before| + |a|;
    assert forall j :: 0 <= j < |sub| ==> s[k + j] == sub[j];
    assert s[k..k + |sub|] == sub;
    ContainsAt(s, sub, k);
  }

  /** The reply of `_handle_delete_event` for the events `get_events` listed. */
  function DeletePrompt(events: seq<Event>): string {
    RecentHeader + Concat(Lines(events, IdLine)) + AskForId
  }

  /** Every listed event's id is shown in the delete prompt. */
  lemma IdsShown(events: seq<Event>, i: nat)
    requires i < |events| && events[i].id.Some?
    ensures Contains(DeletePrompt(events), "(ID: " + events[i].id.value + ")")
  {
    var lines := Lines(events, IdLine);
    var e := events[i];
    var before, after := "- " + Str(e.summary) + " ", "\n  Start: " + StartOf(e) + "\n";
    var sub := "(ID: " + e.id.value + ")";
    IdLineParts(e);
    assert lines[i] == before + sub + after;
    ConcatAt(lines, i);
    Inside(RecentHeader, Concat(lines[..i]), before, sub, after, Concat(lines[i + 1..]), AskForId);
  }

  lemma IdLineParts(e: Event)
    requires e.id.Some?
    ensures IdLine(e) == ("- " + Str(e.summary) + " ") + ("(ID: " + e.id.value + ")") + ("\n  Start: " + StartOf(e) + "\n")
  {
  }

  /** Every conflict is listed, with its start, in the reply that the slot is taken. */
  function Busy(conflicts: seq<Event>): string {
    BusyHeader + Concat(Lines(conflicts, StartLine))
  }

  /** The reply of `_handle_list_events` once the events are listed. */
  function ListText(events: seq<Event>): string {
    if events == [] then NoEventsFound else ListHeader + Concat(Lines(events, StartLine))
  }

  // ---------------------------------------------------------------------
  // Time windows

  /** The clock readings the windows need: the local reading and a week on stay within Python's range. */
  predicate ClockSpan(now: int, localOffset: int) {
    ValidOffset(localOffset) && InRange(now) && InRange(now + 7 * DayMicros)
    && InRange(now + localOffset * MinuteMicros) && InRange(now + localOffset * MinuteMicros + 7 * DayMicros)
  }

  /**
   * The window `_handle_list_events` sends as written: the whole given day,
   * or from `datetime.now()` (a naive local reading) to a week later.
   */
  function NaiveWindow(date: Option<string>, now: int, localOffset: int): (string, string)
    requires ClockSpan(now, localOffset)
  {
    if Given(date) then (date.value + "T00:00:00", date.value + "T23:59:59")
    else WeekFrom(now + localOffset * MinuteMicros)
  }

  /** The naive local readings of a wall clock and of a week later, in `isoformat()`. */
  function WeekFrom(local: int): (string, string)
    requires InRange(local) && InRange(local + 7 * DayMicros)
  {
    (IsoFormat(DateTime(local, None)), IsoFormat(DateTime(local + 7 * DayMicros, None)))
  }

  /** `dt.astimezone()` for a naive reading: the local offset is attached; an aware one is kept. */
  function Localized(dt: DateTime, localOffset: int): (r: DateTime)
    ensures r.Aware() && Instant(r, 0) == Instant(dt, localOffset)
    ensures dt.Valid() && ValidOffset(localOffset) ==> r.Valid()
  {
    if dt.Aware() then dt else DateTime(dt.wall, Some(localOffset))
  }

  lemma HourBounds(dt: DateTime, localOffset: int)
    requires dt.Valid() && ValidOffset(localOffset) && InRange(dt.wall + HourMicros)
    ensures Bound(HourWindow(dt, localOffset).0) == Some(Instant(dt, localOffset))
    ensures Bound(HourWindow(dt, localOffset).1) == Some(Instant(dt, localOffset) + HourMicros)
  {
  }

  /** `dt.astimezone().isoformat()`: the reading with the local offset attached where it had none. */
  function LocalText(dt: DateTime, localOffset: int): (r: string)
    requires dt.Valid() && ValidOffset(localOffset)
    ensures Bound(r) == Some(Instant(dt, localOffset))
  {
    LocalizedReads(dt, localOffset);
    IsoFormat(Localized(dt, localOffset))
  }

  /**
   * A naive ISO timestamp given the local zone; an aware one is re-rendered,
   * any other text is sent as it is. A readable text then bounds a listing
   * at the instant it names in the local zone.
   */
  function Zoned(text: string, localOffset: int): (r: string)
    requires ValidOffset(localOffset)
    ensures FromIsoFormat(text).Some? ==> Bound(r) == Some(Instant(FromIsoFormat(text).value, localOffset))
  {
    match FromIsoFormat(text)
    case None => text
    case Some(dt) => LocalText(dt, localOffset)
  }

  /** The window `_handle_list_events` is meant to send: the naive window read in the local zone. */
  function ListWindow(date: Option<string>, now: int, localOffset: int): (string, string)
    requires ClockSpan(now, localOffset)
  {
    var (a, b) := NaiveWindow(date, now, localOffset);
    (Zoned(a, localOffset), Zoned(b, localOffset))
  }

  /** A localized reading is read back as itself and bounds a listing at its instant. */
  lemma LocalizedReads(dt: DateTime, localOffset: int)
    requires dt.Valid() && ValidOffset(localOffset)
    ensures FromIsoZ(IsoFormat(Localized(dt, localOffset))) == Some(Localized(dt, localOffset))
    ensures Bound(IsoFormat(Localized(dt, localOffset))) == Some(Instant(dt, localOffset))
  {
    IsoFormatReadsBack(Localized(dt, localOffset));
  }

  /** An aware reading needs a sign six characters from the end: the offset is the text's last six characters. */
  lemma AwareNeedsSign(s: string)
    requires FromIsoFormat(s).Some? && FromIsoFormat(s).value.Aware()
    ensures |s| >= 6 && (s[|s| - 6] == '+' || s[|s| - 6] == '-')
  {
    var t := s[11..];
    var p := SignPos(t, 0);
    assert ParseOffset(t[p..]).Some?;
    assert s[11 + p] == t[p];
  }

  /** A text without 'Z' and without a sign six characters from the end never bounds a listing. */
  lemma NaiveUnbounded(s: string)
    requires (forall i :: 0 <= i < |s| ==> s[i] != 'Z') && |s| >= 6 && s[|s| - 6] != '+' && s[|s| - 6] != '-'
    ensures Bound(s).None?
  {
    NoCharNotContained(s, 'Z');
    ReplaceAbsent(s, "Z", "+00:00");
    if FromIsoFormat(s).Some? && FromIsoFormat(s).value.Aware() {
      AwareNeedsSign(s);
    }
  }

  /** The given day's bounds, as written, are refused whenever the date holds no 'Z'. */
  lemma NaiveDayUnbounded(date: string)
    requires forall i :: 0 <= i < |date| ==> date[i] != 'Z'
    ensures Bound(date + "T00:00:00").None? && Bound(date + "T23:59:59").None?
  {
    var a := date + "T00:00:00";
    var b := date + "T23:59:59";
    assert forall i :: 0 <= i < |a| ==> a[i] != 'Z' by {
      forall i | 0 <= i < |a| ensures a[i] != 'Z' {
        if i < |date| {
          assert a[i] == date[i];
        }
      }
    }
    assert forall i :: 0 <= i < |b| ==> b[i] != 'Z' by {
      forall i | 0 <= i < |b| ensures b[i] != 'Z' {
        if i < |date| {
          assert b[i] == date[i];
        }
      }
    }
    assert a[|a| - 6] == ':' && b[|b| - 6] == ':';
    NaiveUnbounded(a);
    NaiveUnbounded(b);
  }

  /** The given day's window, as `fromisoformat` reads it: midnight to 23:59:59 on that day, naive. */
  lemma DayWindow(date: string, n: int)
    requires ParseIsoDate(date) == Some(n)
    ensures FromIsoFormat(date + "T00:00:00") == Some(DateTime(n * DayMicros, None))
    ensures FromIsoFormat(date + "T23:59:59") == Some(DateTime(n * DayMicros + 86399 * SecondMicros, None))
  {
    var a, b := date + "T00:00:00", date + "T23:59:59";
    assert a[..10] == date && a[11..] == "00:00:00";
    assert b[..10] == date && b[11..] == "23:59:59";
    Midnight();
    LastSecond();
    FromIsoFormatParts(a, n, 0, None, n * DayMicros);
    FromIsoFormatParts(b, n, 86399 * SecondMicros, None, n * DayMicros + 86399 * SecondMicros);
  }

  lemma Midnight()
    ensures ParseIsoTime("00:00:00") == Some((0, None))
  {
    var c := "00:00:00";
    SignPosAt(c, |c|);
    assert c[..8] == c;
    TwoDigitField(c, 0, 23, 0);
    TwoDigitField(c, 3, 59, 0);
    TwoDigitField(c, 6, 59, 0);
    ParseClockFields(c, 0, 0, 0);
  }

  lemma LastSecond()
    ensures ParseIsoTime("23:59:59") == Some((86399 * SecondMicros, None))
  {
    var c := "23:59:59";
    SignPosAt(c, |c|);
    assert c[..8] == c;
    TwoDigitField(c, 0, 23, 23);
    TwoDigitField(c, 3, 59, 59);
    TwoDigitField(c, 6, 59, 59);
    ParseClockFields(c, 23, 59, 59);
  }

  lemma TwoDigitField(c: string, i: nat, max: int, v: int)
    requires i + 2 <= |c| && IsDigit(c[i]) && IsDigit(c[i + 1])
    requires v == DigitValue(c[i]) * 10 + DigitValue(c[i + 1]) && v <= max
    ensures Field2(c, i, max) == Some(v)
  {
    var d := c[i..i + 2];
    assert AllDigits(d);
    var e := d[..1];
    assert e == [c[i]] && e[..0] == [];
    assert DigitsValue(e) == DigitValue(c[i]);
    assert d[..|d| - 1] == e && d[|d| - 1] == c[i + 1];
    assert DigitsValue(d) == v;
  }

  /**
   * As written, `_handle_list_events` lists nothing: its bounds carry no
   * zone, the service refuses them, and `get_events` returns [] whatever
   * the calendar holds.
   */
  lemma NaiveListingEmpty(h: CalendarHandler, date: Option<string>, now: int, localOffset: int)
    requires h.Valid() && ClockSpan(now, localOffset)
    requires Given(date) ==> forall i :: 0 <= i < |date.value| ==> date.value[i] != 'Z'
    ensures var (a, b) := NaiveWindow(date, now, localOffset);
      h.GetEvents(Some(a), Some(b), None, DefaultMaxResults, DateTime(now, Some(0))) == []
  {
    if Given(date) {
      NaiveDayUnbounded(date.value);
    } else {
      IsoFormatReadsBack(DateTime(now + localOffset * MinuteMicros, None));
    }
  }

  /**
   * As written, `_handle_check_availability` asks for events from a naive
   * "date T HH:MM:00" text, which the service refuses: the scan sees no
   * event, and the slot is reported free whatever the calendar holds.
   */
  lemma NaiveSlotUnlisted(h: CalendarHandler, date: string, time: string, end: string)
    requires h.Valid() && |time| == 5 && time[2] == ':'
    requires forall i :: 0 <= i < |date| ==> date[i] != 'Z'
    requires forall i :: 0 <= i < |time| ==> time[i] != 'Z'
    ensures h.ListEvents(None, date + "T" + time + ":00", end, DefaultMaxResults) == []
  {
    var s := date + "T" + time + ":00";
    assert forall i :: 0 <= i < |s| ==> s[i] != 'Z' by {
      forall i | 0 <= i < |s| ensures s[i] != 'Z' {
        if i < |date| {
          assert s[i] == date[i];
        } else if |date| < i < |date| + 6 {
          assert s[i] == time[i - |date| - 1];
        }
      }
    }
    assert s[|s| - 6] == time[2];
    NaiveUnbounded(s);
  }

  /** The week window read in the local zone runs from the clock's instant to a week later. */
  lemma WeekWindow(now: int, localOffset: int)
    requires ClockSpan(now, localOffset)
    ensures FromIsoFormat(NaiveWindow(None, now, localOffset).0).Some?
    ensures Instant(FromIsoFormat(NaiveWindow(None, now, localOffset).0).value, localOffset) == now
    ensures FromIsoFormat(NaiveWindow(None, now, localOffset).1).Some?
    ensures Instant(FromIsoFormat(NaiveWindow(None, now, localOffset).1).value, localOffset) == now + 7 * DayMicros
  {
    WeekTexts(now, localOffset);
    WeekReadsBack(now + localOffset * MinuteMicros);
    LocalClock(now, localOffset);
    ReadsAt(NaiveWindow(None, now, localOffset), WeekFrom(now + localOffset * MinuteMicros),
            DateTime(now + localOffset * MinuteMicros, None), DateTime(now + localOffset * MinuteMicros + 7 * DayMicros, None),
            localOffset, now, now + 7 * DayMicros);
  }

  /** Two equal windows whose texts read as given instants. */
  lemma ReadsAt(w: (string, string), v: (string, string), d: DateTime, e: DateTime, localOffset: int, lo: int, hi: int)
    requires w == v && FromIsoFormat(v.0) == Some(d) && FromIsoFormat(v.1) == Some(e)
    requires Instant(d, localOffset) == lo && Instant(e, localOffset) == hi
    ensures FromIsoFormat(w.0).Some? && Instant(FromIsoFormat(w.0).value, localOffset) == lo
    ensures FromIsoFormat(w.1).Some? && Instant(FromIsoFormat(w.1).value, localOffset) == hi
  {
  }

  /** The naive local reading of the clock, read in the local zone, is the clock's instant. */
  lemma LocalClock(now: int, localOffset: int)
    ensures Instant(DateTime(now + localOffset * MinuteMicros, None), localOffset) == now
    ensures Instant(DateTime(now + localOffset * MinuteMicros + 7 * DayMicros, None), localOffset) == now + 7 * DayMicros
  {
  }

  /** Without a date the window is the week from the clock's naive local reading. */
  lemma WeekTexts(now: int, localOffset: int)
    requires ClockSpan(now, localOffset)
    ensures NaiveWindow(None, now, localOffset) == WeekFrom(now + localOffset * MinuteMicros)
  {
  }

  lemma WeekReadsBack(local: int)
    requires InRange(local) && InRange(local + 7 * DayMicros)
    ensures FromIsoFormat(WeekFrom(local).0) == Some(DateTime(local, None))
    ensures FromIsoFormat(WeekFrom(local).1) == Some(DateTime(local + 7 * DayMicros, None))
  {
    NaiveReadsBack(local);
    NaiveReadsBack(local + 7 * DayMicros);
  }

  /** A naive reading's `isoformat()` is read back as itself. */
  lemma NaiveReadsBack(wall: int)
    requires InRange(wall)
    ensures FromIsoFormat(IsoFormat(DateTime(wall, None))) == Some(DateTime(wall, None))
  {
    IsoFormatRoundTrip(DateTime(wall, None));
  }

  /** The handler lists the default calendar between two readable bounds. */
  lemma HandlerListing(h: CalendarHandler, from: string, to: string, lo: int, hi: int, maxResults: nat)
    requires h.Valid() && h.service != null && h.defaultCalendarId in h.service.entries
    requires Bound(from) == Some(lo) && Bound(to) == Some(hi)
    ensures var xs := Listing(h.service.entries[h.defaultCalendarId], lo, hi, maxResults);
      h.ListEvents(None, from, to, maxResults) == Resources(xs)
  {
  }

  lemma LastMessage(h: seq<Message>, m: Message)
    requires |h| > 0 && h[|h| - 1] == m
    ensures h == h[..|h| - 1] + [m]
  {
  }

  // ---------------------------------------------------------------------
  // Checking a slot

  /** What `_handle_check_availability` does before asking the handler: a reply of its own, or the window to ask about. */
  datatype SlotCheck = Answer(reply: string) | Ask(startTime: string, endTime: string)

  /**
   * The hour from "date T time :00", as `fromisoformat` reads it and
   * `timedelta(hours=1)` extends it, both given the local zone before they
   * are sent (as written they are sent naive); a missing date or time, an
   * unreadable start and an end past year 9999 are answered directly.
   */
  function SlotRequest(date: Option<string>, time: Option<string>, localOffset: int): (r: SlotCheck)
    requires ValidOffset(localOffset)
    ensures !Given(date) || !Given(time) ==> r == Answer(DateTimeMissing)
  {
    if !Given(date) || !Given(time) then Answer(DateTimeMissing)
    else
      var start := date.value + "T" + time.value + ":00";
      match FromIsoFormat(start)
      case None => Answer(IsoError(start))
      case Some(dt) =>
        match Shift(dt, HourMicros)
        case None => Answer(RangeError)
        case Some(_) => var w := HourWindow(dt, localOffset); Ask(w.0, w.1)
  }

  /** The hour from a reading, both ends given the local zone. */
  function HourWindow(dt: DateTime, localOffset: int): (r: (string, string))
    requires dt.Valid() && ValidOffset(localOffset) && InRange(dt.wall + HourMicros)
    ensures Bound(r.0) == Some(Instant(dt, localOffset)) && Bound(r.1) == Some(Instant(dt, localOffset) + HourMicros)
  {
    var end := DateTime(dt.wall + HourMicros, dt.offset);
    assert Instant(end, localOffset) == Instant(dt, localOffset) + HourMicros;
    (LocalText(dt, localOffset), LocalText(end, localOffset))
  }


  /** A readable date and time whose hour stays in range are asked about as the hour in the local zone. */
  lemma SlotAsked(date: string, time: string, dt: DateTime, localOffset: int)
    requires ValidOffset(localOffset) && date != [] && time != []
    requires FromIsoFormat(date + "T" + time + ":00") == Some(dt) && InRange(dt.wall + HourMicros)
    ensures SlotRequest(Some(date), Some(time), localOffset)
      == Ask(HourWindow(dt, localOffset).0, HourWindow(dt, localOffset).1)
  {
  }

  /** The reply once the handler has answered: free, or the conflicts one per line. */
  function SlotText(date: string, time: string, available: bool, conflicts: seq<Event>): string {
    if available then Free(date, time) else Busy(conflicts)
  }

  // ---------------------------------------------------------------------
  // The assistant

  /**
   * `CalendarAssistant` with its handler and its conversation. The model's
   * answers (intent, date and time, event details) are parameters of the
   * operations that ask for them; `now` is the clock in UTC microseconds
   * and `localOffset` the machine's fixed UTC offset in minutes.
   */
  class CalendarAssistant {
    const handler: CalendarHandler
    const localOffset: int
    var conversationHistory: seq<Message>

    constructor (handler: CalendarHandler, localOffset: int)
      ensures this.handler == handler && this.localOffset == localOffset
      ensures conversationHistory == [Message("system", SystemPrompt)]
      ensures handler.Valid() && ValidOffset(localOffset) ==> Valid()
    {
      this.handler := handler;
      this.localOffset := localOffset;
      conversationHistory := [Message("system", SystemPrompt)];
    }

    predicate Valid()
      reads handler, handler.service
    {
      handler.Valid() && ValidOffset(localOffset)
    }

    /** The reply of `_handle_add_event` for the extracted date, time and details. */
    function AddReply(date: Option<string>, time: Option<string>, details: Option<EventDetails>): (r: string)
      ensures !Given(date) ==> r == DateUnclear
      ensures Given(date) && details.None? ==> r == DetailsUnclear
      ensures Given(date) && details.Some? ==> Contains(r, ProposalMark)
    {
      if !Given(date) then DateUnclear
      else if details.None? then DetailsUnclear
      else Confirmation(date.value, time, details.value)
    }

    /**
     * `_handle_add_event`: the proposal is written into the conversation and
     * returned, so that a "yes" can find it; nothing is added yet.
     */
    method HandleAddEvent(date: Option<string>, time: Option<string>, details: Option<EventDetails>) returns (reply: string)
      modifies this
      ensures reply == AddReply(date, time, details)
      ensures conversationHistory == old(conversationHistory) +
        (if Given(date) && details.Some? then [Message("assistant", reply)] else [])
    {
      if !Given(date) {
        return DateUnclear;
      }
      if details.None? {
        return DetailsUnclear;
      }
      reply := Confirmation(date.value, time, details.value);
      conversationHistory := conversationHistory + [Message("assistant", reply)];
    }

    /**
     * `confirm_action`: on a "yes", the latest proposal in the conversation
     * is read back and added through `add_event`; reply None where reading
     * it back raises (a missing key, a duration that is not a number).
     */
    method ConfirmAction(userResponse: string) returns (reply: Option<string>)
      requires Valid()
      modifies handler.service
      ensures Valid()
      ensures handler.service != null ==> handler.service.calendarList == old(handler.service.calendarList)
      ensures var p := Pending(conversationHistory);
        var call := Affirmative(userResponse) && p.Some? && p.value.Some?;
        (!Affirmative(userResponse) ==> reply == Some(Cancelled))
        && (Affirmative(userResponse) && p.None? ==> reply == Some(NothingToConfirm))
        && (Affirmative(userResponse) && p == Some(None) ==> reply.None?)
        && (!call && handler.service != null ==>
              handler.service.entries == old(handler.service.entries) && handler.service.notices == old(handler.service.notices))
      ensures var p := Pending(conversationHistory);
        Affirmative(userResponse) && p.Some? && p.value.Some? ==>
        var a := p.value.value;
        var made := EventBody(a.title, a.startTime, a.durationMinutes, a.description, a.location, a.attendees, false, None);
        var cal := handler.defaultCalendarId;
        var added := handler.service != null && made.Some? && cal in old(handler.service.entries)
          && Accept(made.value.0, "").Some?;
        (added ==>
           var xs := old(handler.service.entries)[cal];
           reply == Some(Added)
           && handler.service.entries == old(handler.service.entries)[cal := xs + [Accept(made.value.0, FreshId(xs)).value]]
           && handler.service.notices == old(handler.service.notices) + [made.value.1])
        && (!added ==>
              reply == Some(AddFailed)
              && (handler.service != null ==>
                    handler.service.entries == old(handler.service.entries) && handler.service.notices == old(handler.service.notices)))
    {
      if !Affirmative(userResponse) {
        return Some(Cancelled);
      }
      var p := Pending(conversationHistory);
      if p.None? {
        return Some(NothingToConfirm);
      }
      if p.value.None? {
        return None;
      }
      var a := p.value.value;
      var id := handler.AddEvent(a.title, a.startTime, a.durationMinutes, a.description, a.location, a.attendees,
                                 None, false, None);
      reply := if id.Some? && id.value != "" then Some(Added) else Some(AddFailed);
    }

    /** The reply of `_handle_delete_event`: the next week's first five events with their ids. */
    function DeleteReply(now: int): string
      requires Valid() && ClockSpan(now, localOffset)
      reads handler, handler.service
    {
      DeletePrompt(handler.GetEvents(None, None, None, 5, DateTime(now, Some(0))))
    }

    /** `_handle_delete_event`: lists recent events and asks which one to delete; nothing is deleted. */
    method HandleDeleteEvent(now: int) returns (reply: string)
      requires Valid() && ClockSpan(now, localOffset)
      ensures reply == DeleteReply(now)
    {
      var events := handler.GetEvents(None, None, None, 5, DateTime(now, Some(0)));
      reply := AppendLines(RecentHeader, events, IdLine);
      reply := reply + AskForId;
    }

    /** The delete prompt lists the default calendar's first five entries of the coming week. */
    lemma DeleteListing(now: int)
      requires Valid() && ClockSpan(now, localOffset)
      requires handler.service != null && handler.defaultCalendarId in handler.service.entries
      ensures var xs := Listing(handler.service.entries[handler.defaultCalendarId], now, now + 7 * DayMicros, 5);
        handler.GetEvents(None, None, None, 5, DateTime(now, Some(0))) == Resources(xs)
    {
      var clock := DateTime(now, Some(0));
      var later := DateTime(now + 7 * DayMicros, Some(0));
      assert Shift(clock, 7 * DayMicros) == Some(later);
      var a, b := IsoFormat(clock), IsoFormat(later);
      assert Instant(clock, 0) == now && Instant(later, 0) == now + 7 * DayMicros;
      BoundOfIsoFormat(clock);
      BoundOfIsoFormat(later);
      HandlerListing(handler, a, b, now, now + 7 * DayMicros, 5);
      assert handler.GetEvents(None, None, None, 5, clock) == handler.ListEvents(None, a, b, 5);
    }

    /** The events `_handle_list_events` fetches, its window given the local zone. */
    function Listed(date: Option<string>, now: int): seq<Event>
      requires Valid() && ClockSpan(now, localOffset)
      reads handler, handler.service
    {
      var (a, b) := ListWindow(date, now, localOffset);
      handler.GetEvents(Some(a), Some(b), None, DefaultMaxResults, DateTime(now, Some(0)))
    }

    /** The reply of `_handle_list_events`. */
    function ListReply(date: Option<string>, now: int): string
      requires Valid() && ClockSpan(now, localOffset)
      reads handler, handler.service
    {
      ListText(Listed(date, now))
    }

    /** `_handle_list_events`: the events of the given day, or of the coming week. */
    method HandleListEvents(date: Option<string>, now: int) returns (reply: string)
      requires Valid() && ClockSpan(now, localOffset)
      ensures reply == ListReply(date, now)
    {
      var (a, b) := ListWindow(date, now, localOffset);
      var events := handler.GetEvents(Some(a), Some(b), None, DefaultMaxResults, DateTime(now, Some(0)));
      if events == [] {
        return NoEventsFound;
      }
      reply := AppendLines(ListHeader, events, StartLine);
    }

    /** The list shows the default calendar's entries between the window's local instants. */
    lemma ListListing(date: Option<string>, now: int, lo: int, hi: int)
      requires Valid() && ClockSpan(now, localOffset)
      requires handler.service != null && handler.defaultCalendarId in handler.service.entries
      requires FromIsoFormat(NaiveWindow(date, now, localOffset).0).Some?
      requires Instant(FromIsoFormat(NaiveWindow(date, now, localOffset).0).value, localOffset) == lo
      requires FromIsoFormat(NaiveWindow(date, now, localOffset).1).Some?
      requires Instant(FromIsoFormat(NaiveWindow(date, now, localOffset).1).value, localOffset) == hi
      ensures var xs := Listing(handler.service.entries[handler.defaultCalendarId], lo, hi, DefaultMaxResults);
        Listed(date, now) == Resources(xs)
    {
      var (a, b) := NaiveWindow(date, now, localOffset);
      HandlerListing(handler, Zoned(a, localOffset), Zoned(b, localOffset), lo, hi, DefaultMaxResults);
    }

    /** With a valid date the list shows the default calendar's entries of that whole day in the local zone. */
    lemma ListDay(date: string, now: int, n: int)
      requires Valid() && ClockSpan(now, localOffset)
      requires handler.service != null && handler.defaultCalendarId in handler.service.entries
      requires ParseIsoDate(date) == Some(n)
      ensures Listed(Some(date), now)
        == Resources(Listing(handler.service.entries[handler.defaultCalendarId],
                             Instant(DateTime(n * DayMicros, None), localOffset),
                             Instant(DateTime(n * DayMicros + 86399 * SecondMicros, None), localOffset), DefaultMaxResults))
    {
      DayWindow(date, n);
      ListListing(Some(date), now, Instant(DateTime(n * DayMicros, None), localOffset),
                  Instant(DateTime(n * DayMicros + 86399 * SecondMicros, None), localOffset));
    }

    /** Without a date the list shows the default calendar's entries of the coming week. */
    lemma ListWeek(now: int)
      requires Valid() && ClockSpan(now, localOffset)
      requires handler.service != null && handler.defaultCalendarId in handler.service.entries
      ensures Listed(None, now)
        == Resources(Listing(handler.service.entries[handler.defaultCalendarId], now, now + 7 * DayMicros, DefaultMaxResults))
    {
      WeekWindow(now, localOffset);
      ListListing(None, now, now, now + 7 * DayMicros);
    }

    /** What the handler's conflict scan finds for a window: None where it fails. */
    function Conflicts(startTime: string, endTime: string): Option<seq<Event>>
      requires Valid()
      reads handler, handler.service
    {
      if handler.service == null then None
      else Collect(handler.ListEvents(None, startTime, endTime, DefaultMaxResults),
                   Conflicting(FromIsoZ(startTime), FromIsoZ(endTime)))
    }

    /** The reply of `_handle_check_availability`. */
    function AvailabilityReply(date: Option<string>, time: Option<string>): string
      requires Valid()
      reads handler, handler.service
    {
      match SlotRequest(date, time, localOffset)
      case Answer(reply) => reply
      case Ask(s, e) =>
        var found := Conflicts(s, e);
        SlotText(date.value, time.value, found == Some([]), if found.Some? then found.value else [])
    }

    /** `_handle_check_availability`: whether the hour from the given date and time is free, or what takes it. */
    method HandleCheckAvailability(date: Option<string>, time: Option<string>) returns (reply: string)
      requires Valid()
      ensures reply == AvailabilityReply(date, time)
    {
      var request := SlotRequest(date, time, localOffset);
      if request.Answer? {
        return request.reply;
      }
      var available, conflicts := handler.CheckAvailability(request.startTime, request.endTime, None);
      if available {
        return Free(date.value, time.value);
      }
      reply := AppendLines(BusyHeader, conflicts, StartLine);
    }

    /**
     * The hour is reported free exactly when no entry of the default
     * calendar that the listing returns overlaps it; otherwise every such
     * entry is listed as a conflict.
     */
    lemma SlotFreeExact(date: string, time: string, dt: DateTime)
      requires Valid() && handler.service != null && handler.defaultCalendarId in handler.service.entries
      requires date != [] && time != []
      requires FromIsoFormat(date + "T" + time + ":00") == Some(dt) && InRange(dt.wall + HourMicros)
      ensures var lo := Instant(dt, localOffset);
        var hi := lo + HourMicros;
        var xs := Listing(handler.service.entries[handler.defaultCalendarId], lo, hi, DefaultMaxResults);
        var clashing := Filter(xs, Clashing(lo, hi));
        AvailabilityReply(Some(date), Some(time)) ==
           if clashing == [] then Free(date, time) else Busy(Resources(clashing))
    {
      SlotAsked(date, time, dt, localOffset);
      HourConflicts(dt);
    }

    /** The conflicts the handler finds for the hour from a reading: the listed entries that overlap it. */
    lemma HourConflicts(dt: DateTime)
      requires Valid() && handler.service != null && handler.defaultCalendarId in handler.service.entries
      requires dt.Valid() && InRange(dt.wall + HourMicros)
      ensures var lo := Instant(dt, localOffset);
        var xs := Listing(handler.service.entries[handler.defaultCalendarId], lo, lo + HourMicros, DefaultMaxResults);
        (forall x :: x in Filter(xs, Clashing(lo, lo + HourMicros)) ==> x.Valid())
        && Conflicts(HourWindow(dt, localOffset).0, HourWindow(dt, localOffset).1)
           == Some(Resources(Filter(xs, Clashing(lo, lo + HourMicros))))
    {
      HourBounds(dt, localOffset);
      var e := handler.service.entries[handler.defaultCalendarId];
      ListingSpec(e, Instant(dt, localOffset), Instant(dt, localOffset) + HourMicros, DefaultMaxResults);
      HandlerListing(handler, HourWindow(dt, localOffset).0, HourWindow(dt, localOffset).1,
                     Instant(dt, localOffset), Instant(dt, localOffset) + HourMicros, DefaultMaxResults);
      ConflictsExact(Listing(e, Instant(dt, localOffset), Instant(dt, localOffset) + HourMicros, DefaultMaxResults),
                     FromIsoZ(HourWindow(dt, localOffset).0).value, FromIsoZ(HourWindow(dt, localOffset).1).value);
    }

    /** The reply `process_message` gives to an intent other than adding an event. */
    function OtherReply(intent: string, answers: Answers, now: int): string
      requires Valid() && ClockSpan(now, localOffset)
      reads handler, handler.service
    {
      if intent == "delete_event" then DeleteReply(now)
      else if intent == "list_events" then ListReply(answers.date, now)
      else if intent == "check_availability" then AvailabilityReply(answers.date, answers.time)
      else HelpMessage
    }

    /**
     * `process_message`: the user's message joins the conversation and the
     * intent, stripped and lower-cased, picks the handler; any other intent
     * gets the help text. Only a proposal adds a second message.
     */
    method ProcessMessage(userMessage: string, answers: Answers, now: int) returns (reply: string)
      requires Valid() && ClockSpan(now, localOffset)
      modifies this
      ensures var intent := Lower(Strip(answers.intent));
        var proposed := intent == "add_event" && Given(answers.date) && answers.details.Some?;
        conversationHistory == old(conversationHistory) + [Message("user", userMessage)]
          + (if proposed then [Message("assistant", reply)] else [])
      ensures var intent := Lower(Strip(answers.intent));
        (intent == "add_event" ==> reply == AddReply(answers.date, answers.time, answers.details))
        && (intent != "add_event" ==> reply == OtherReply(intent, answers, now))
      ensures var intent := Lower(Strip(answers.intent));
        intent !in {"add_event", "delete_event", "list_events", "check_availability"} ==> reply == HelpMessage
    {
      conversationHistory := conversationHistory + [Message("user", userMessage)];
      var intent := Lower(Strip(answers.intent));
      if intent == "add_event" {
        reply := HandleAddEvent(answers.date, answers.time, answers.details);
      } else {
        reply := Respond(intent, answers, now);
      }
    }

    /** The dispatch of `process_message` for the intents that leave the conversation as it is. */
    method Respond(intent: string, answers: Answers, now: int) returns (reply: string)
      requires Valid() && ClockSpan(now, localOffset)
      ensures reply == OtherReply(intent, answers, now)
    {
      if intent == "delete_event" {
        reply := HandleDeleteEvent(now);
      } else if intent == "list_events" {
        reply := HandleListEvents(answers.date, now);
      } else if intent == "check_availability" {
        reply := HandleCheckAvailability(answers.date, answers.time);
      } else {
        reply := HelpMessage;
      }
    }

    /** A proposal made through `process_message` is what a following "yes" adds. */
    lemma ProposalConfirmed(date: string, time: Option<string>, d: EventDetails)
      requires OneLineFields(date, time, d)
      requires Given(time) ==> !Contains(time.value, NotSpecified)
      requires forall a :: a in d.attendees ==> !Contains(a, ", ")
      requires date != [] && |conversationHistory| > 0
      requires conversationHistory[|conversationHistory| - 1] == Message("assistant", AddReply(Some(date), time, Some(d)))
      ensures Pending(conversationHistory) ==
        Some(Some(Addition(d.title, date + "T" + (if Given(time) then time.value else "00:00") + ":00", d.duration,
                           d.description, d.location, if d.attendees == ["None"] then [] else d.attendees)))
    {
      var h := conversationHistory;
      LastMessage(h, Message("assistant", Confirmation(date, time, d)));
      ConfirmRoundTrip(h[..|h| - 1], date, time, d);
    }
  }
}
