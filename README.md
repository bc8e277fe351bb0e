# Ai-Calendar: a verified model of the calendar logic

Ai-Calendar puts several front ends on Google Calendar.

- A GPT tool-calling bot (`CalendarGPTBot`) turns the language model's tool calls into calendar operations. It has its own natural-language time resolver, a bulk-deletion shortcut, a "future only" clamp for listings and a half-hour slot search.
- A regex command chatbot (`CalendarChatbot`) understands commands of the form `schedule "Title" tomorrow at 10:00 for 1 hour`.
- A conversational assistant (`CalendarAssistant`) proposes an event in a "- Key: value" confirmation message and, when the user says "yes", reads that message back and adds the event.

All three go through one `CalendarHandler`. The handler builds event bodies, merges partial updates, picks the default calendar, lists events, detects conflicts and searches for free slots.

This project models that logic in Dafny and proves what it promises. Nine modules, one per concern:

| file | module | what it models |
|---|---|---|
| `text.dfy` | `Text` | the Python string operations the code relies on: `lower`, `in`, `find`, `split`, `split(sep, 1)`, `replace`, `strip`, `str(n)`, `int(s)` |
| `chrono.dfy` | `Chrono` | `datetime` as a wall-clock reading in microseconds plus an optional UTC offset; `fromisoformat`, `isoformat`, `strftime`, `strptime`, `astimezone`, `timedelta` arithmetic and the naive/aware comparison rule |
| `sorting.dfy` | `Sorting` | `sorted(key=…)`, `s[:n]`, filtering and the append-or-fail loops |
| `service.dfy` | `Service` | the Google Calendar service as an in-memory class: stored entries per calendar, and `insert`, `update`, `delete`, `get`, `list` |
| `slots.dfy` | `Slots` | the half-hour candidate scan shared by both slot searches |
| `handler.dfy` | `Handler` | `CalendarHandler` (`server/services/calendar_handler.py`; `server/calendar_handler.py` is a byte-identical copy) |
| `gpt_bot.dfy` | `GptBot` | `CalendarGPTBot` (`server/services/chatbot/calendar_chatbot_gpt.py`) |
| `chatbot.dfy` | `Chatbot` | `CalendarChatbot` (`server/calendar_chatbot.py`; `server/scripts/calendar_chatbot.py` is a copy) |
| `assistant.dfy` | `Assistant` | `CalendarAssistant` (`client/calendar_assistant.py`; `server/calendar_assistant.py` is a copy) |

Modelling choices:
- Time is an integer count of microseconds. A `DateTime` is a wall-clock reading plus `Option<int>` minutes of UTC offset; `None` is a naive value. Python's year range 1..9999 is enforced, so leaving it fails as `OverflowError` does.
- The clock (`datetime.now`) is a parameter `now`, in UTC microseconds. The machine's local time zone is a fixed offset `localOffset`, in minutes.
- The remote service is the class `Service.CalendarService`. It stores a sequence of entries per calendar and hands out fresh ids. A listing returns the stored entries that overlap the window, ordered by start, at most `maxResults` of them. As the Google documentation requires, a listing bound must be an RFC 3339 timestamp with an offset; a bound without one is refused, which the handler turns into `[]`.
- The language model's outputs are input values: `Answers` for the assistant's extraction calls, `Response` (a tool call, text, or nothing) for the GPT bot. The `eval` of tool arguments yields `Option<Args>`.
- Objects whose fields change (the service, the handler's default calendar, the assistant's conversation) are classes. Their methods carry `modifies` clauses and state the whole new state.

## Model

| member | source | states |
|---|---|---|
| Text.Lower | server/services/chatbot/calendar_chatbot_gpt.py:182 | `str.lower()` keeps the length and maps each character to its lower-case form |
| Text.FindFrom | server/services/chatbot/calendar_chatbot_gpt.py:186 | the result is an occurrence at or after the start, and no earlier occurrence from there exists; None exactly when there is none |
| Text.JoinSplit | client/calendar_assistant.py:239 | joining the parts of `split(sep)` with `sep` gives back the text |
| Text.SplitOnce | client/calendar_assistant.py:243 | `split(': ', 1)`: the first part holds no separator; with a second part, the text is first + sep + second |
| Text.SplitOccurs | client/calendar_assistant.py:242-243 | a separator that occurs splits the text into at least two parts, so `key, value = ...` succeeds |
| Text.SplitJoined | client/calendar_assistant.py:255 | `sep.join(parts).split(sep) == parts` when no part contains the separator |
| Text.FirstWord | client/calendar_assistant.py:252 | `s.split()[0]`, where there is one, is a non-empty word without white space |
| Text.PadDigitsValue | server/services/calendar_handler.py:579 | `f"{n:02d}"` reads back as `n` for n below 10^width |
| Text.NatToStringValue | client/calendar_assistant.py:140 | the digits of `str(n)` read back as `n` |
| Text.IntRoundTrip | client/calendar_assistant.py:252 | `int(str(i)) == i` for every integer, sign included |
| Chrono.DateOfOrdinal | server/services/calendar_handler.py:232-234 | day numbers and valid calendar dates are in one-to-one correspondence |
| Chrono.ShiftDay | server/services/calendar_handler.py:231-234 | `+ timedelta(days=1)` keeps the time of day and the offset and lands on the next calendar date: the next day of the month, else the 1st of the next month, else New Year's Day |
| Chrono.NextOrdinal | server/services/calendar_handler.py:232-234 | the day number after a date's is that of the next calendar date |
| Chrono.UtcKeepsInstant | server/services/chatbot/calendar_chatbot_gpt.py:233 | `astimezone(UTC)` keeps the instant (a naive value read in the local zone); converted values compare by instant without raising, and converting twice is converting once |
| Chrono.Less | server/services/calendar_handler.py:508 | `a < b` compares instants when both are aware or both naive; None (TypeError) when one is naive and the other aware |
| Chrono.FromIsoFormat | server/services/calendar_handler.py:228 | whatever `fromisoformat` accepts is a valid datetime: a real date, a time of day, an offset within a day; the value it gives is pinned down only for rendered text, by Chrono.IsoFormatRoundTrip |
| Chrono.FormatDateRoundTrip | server/services/calendar_handler.py:233-234 | reading a rendered date gives back its day number |
| Chrono.FormatClockFractionRoundTrip | server/services/calendar_handler.py:237 | "HH:MM:SS.ffffff" reads back as the exact time of day |
| Chrono.FormatOffsetRoundTrip | server/services/calendar_handler.py:237 | a rendered "+HH:MM" reads back as the offset |
| Chrono.IsoFormatRoundTrip | server/services/calendar_handler.py:237-238 | `fromisoformat(dt.isoformat()) == dt` for every representable datetime |
| Chrono.IsoFormatNoZ | server/services/calendar_handler.py:365-366 | `isoformat()` never writes a 'Z', so the `replace('Z', '+00:00')` leaves it unchanged |
| Chrono.IsoFormatReadsBack | server/services/calendar_handler.py:365-366 | what the handler reads back from an `isoformat()` is the datetime itself |
| Chrono.StrftimeZRoundTrip | server/services/chatbot/calendar_chatbot_gpt.py:278-281 | `fromisoformat(strftime('%Y-%m-%dT%H:%M:%S.000Z').replace('Z', '+00:00'))` is the aware UTC instant, cut to the second |
| Chrono.StrptimeSlot | server/services/calendar_handler.py:579-580 | `strptime(f"{date}T{h:02d}:00:00.000Z", ...)` reads the date at hour h, or fails where the date or hour is unreadable |
| Chrono.StrptimeDateRoundTrip | server/services/chatbot/calendar_chatbot_gpt.py:331-350 | a date rendered by `strftime('%Y-%m-%d')` is read back by `strptime`'s "%Y-%m-%d" |
| Chrono.StrptimeMinuteText | server/calendar_chatbot.py:33 | "%Y-%m-%d %H:%M" reads a date, a blank and a clock as the date plus the time of day |
| Sorting.SortBy | server/services/calendar_handler.py:572 | `sort(key=...)` gives a permutation of the input (same multiset) sorted by key |
| Sorting.SortByStable | server/services/calendar_handler.py:572 | the sort is stable, as Python's `list.sort`: the elements that share a key come out in their input order |
| Sorting.FilterAppend | server/services/calendar_handler.py:496-509 | filtering an extended list extends the filtered list by the new element exactly when it is kept |
| Sorting.GatherMembers | server/services/calendar_handler.py:560-569 | a value is gathered exactly when some element gives it |
| Sorting.CollectGather | server/services/calendar_handler.py:560-569 | a loop that reads each element as another reading does, element by element, succeeds and collects what that reading gathers |
| Service.RenderRoundTrip | server/services/calendar_handler.py:460-461 | what the service returns for an entry reads back as the entry's stored time |
| Service.AcceptResource | server/services/calendar_handler.py:374-379 | sending back a returned event unchanged stores the same entry |
| Service.FreshId | server/services/calendar_handler.py:267-273 | the new id differs from every stored id |
| Service.ListingSpec | server/services/calendar_handler.py:451-461 | a listing holds stored entries that overlap the window, ordered by start, at most `maxResults`, all of them when fewer, with distinct ids |
| Service.CalendarService.Get | server/services/calendar_handler.py:408-413 | `events().get` returns an entry exactly when one with this id is stored |
| Service.CalendarService.List | server/services/calendar_handler.py:451-461 | `events().list` refuses an unknown calendar and a bound without an offset; otherwise it returns the listing of the window |
| Service.CalendarService.Insert | server/services/calendar_handler.py:267-275 | `events().insert` stores the accepted body under a fresh id and leaves the other entries as they were; a refused body changes nothing |
| Service.CalendarService.Update | server/services/calendar_handler.py:374-379 | `events().update` replaces the entry with this id and nothing else; an unknown id or a refused body changes nothing |
| Service.CalendarService.Delete | server/services/calendar_handler.py:304-311 | `events().delete` removes exactly the entry with this id, and is false when none is stored |
| Slots.ScanExact | server/services/calendar_handler.py:582-600 | a start is kept exactly when it is a candidate (first start plus a multiple of the step) whose slot ends in time and clashes with nothing |
| Slots.ScanSound | server/services/calendar_handler.py:588-593 | every kept start is a candidate that clashes with nothing |
| Slots.ScanComplete | server/services/calendar_handler.py:582-600 | every candidate that fits and clashes with nothing is kept |
| Slots.ScanAscending | server/services/calendar_handler.py:600 | kept starts come out in strictly ascending order |
| Slots.ScanDefined | server/services/calendar_handler.py:582 | with a clash test that never raises, the scan terminates with a result |
| Handler.CalendarHandler.GetCalendars | server/services/calendar_handler.py:136-164 | one record per calendar list item, in order, absent keys given the defaults 'Unknown', '', 'UTC', False, True and ''; [] with no service |
| Handler.CalendarHandler.SetDefaultCalendar | server/services/calendar_handler.py:170-189 | true exactly when an accessible calendar has this id; the default becomes that id when true and is unchanged otherwise |
| Handler.NewEventTimes | server/services/calendar_handler.py:228-238 | a timed event ends the duration after its start, and both ends carry the handler's time zone; an all-day event spans its date and the next |
| Handler.TimedTimes | server/services/calendar_handler.py:236-238 | timed start and end read back as the start and as the start plus the duration |
| Handler.AllDayTimes | server/services/calendar_handler.py:231-234 | an all-day event is sent as the start's date and the following date |
| Handler.StoredSpan | server/services/calendar_handler.py:236-271 | a new timed event is stored `duration` minutes long, each end cut to the second |
| Handler.EventBody | server/services/calendar_handler.py:241-270 | the body carries title, description, location, attendees when given, the supplied reminders or else email 1440 plus popup 10, and `sendUpdates` 'all' iff there are attendees |
| Handler.CalendarHandler.AddEvent | server/services/calendar_handler.py:191-282 | None with no service, an unreadable start or a refused body; otherwise the id of the newly stored event, other entries unchanged |
| Handler.CalendarHandler.DeleteEvent | server/services/calendar_handler.py:284-315 | false with no service; otherwise the entry with this id is removed, and the result is whether it was there |
| Handler.Merge | server/services/calendar_handler.py:358-371 | each supplied non-empty value replaces its field, a new start or end is read and re-rendered with the handler's zone, and every other field of the fetched event is kept |
| Handler.EmptyUpdateKeeps | server/services/calendar_handler.py:358-379 | an update that supplies nothing stores the fetched entry again, unchanged |
| Handler.CalendarHandler.UpdateEvent | server/services/calendar_handler.py:317-386 | false with no service or an unknown id; None where a new time does not parse (the exception escapes); otherwise the merged body replaces the entry |
| Handler.CalendarHandler.GetEvent | server/services/calendar_handler.py:388-417 | an event exactly when one with this id is stored, carrying that id |
| Handler.CalendarHandler.ListEvents | server/services/calendar_handler.py:436-465 | [] with no service or a refused request; otherwise the service's listing |
| Handler.DefaultStart | server/services/calendar_handler.py:446-447 | the default start bounds the listing at the clock's instant |
| Handler.DefaultEnd | server/services/calendar_handler.py:448-449 | the default end bounds the listing seven days after the clock's instant |
| Handler.ScanConflicts | server/services/calendar_handler.py:495-509 | the conflict loop yields the events that pass the overlap test, in order; None where a comparison raises |
| Handler.ConflictsExact | server/services/calendar_handler.py:496-511 | over the service's events and an aware request, the conflicts are exactly the timed entries that strictly overlap it, in order; all-day events are ignored |
| Handler.CalendarHandler.CheckAvailability | server/services/calendar_handler.py:467-522 | available iff there are no conflicts; (False, []) with no service or when the scan raises |
| Handler.CollectBusy | server/services/calendar_handler.py:560-569 | the busy ranges are the spans of the timed events, in order; None where one raises |
| Handler.BusyOfResources | server/services/calendar_handler.py:560-569 | over the service's events, the busy ranges are the spans of the timed entries, in order |
| Handler.TestClash | server/services/calendar_handler.py:587-590 | the inner loop stops at the first busy range that overlaps the slot strictly |
| Handler.CollectStarts | server/services/calendar_handler.py:582-600 | the candidate loop keeps what the scan specification keeps |
| Handler.SlotsExact | server/services/calendar_handler.py:572-600 | a start is kept exactly when it is the opening hour plus a multiple of 30 minutes, its slot ends by the closing hour, and no timed entry overlaps it strictly |
| Handler.SlotsAscending | server/services/calendar_handler.py:600 | the kept starts ascend strictly |
| Handler.SlotsDefined | server/services/calendar_handler.py:582 | once the hours are read, the search does not raise for a duration that is not negative |
| Handler.CalendarHandler.FindAvailableSlots | server/services/calendar_handler.py:524-607 | [] with no service; otherwise slots of the requested length at the starts the scan keeps |
| GptBot.PmHour | server/services/chatbot/calendar_chatbot_gpt.py:188-190 | "Hpm" is hour H + 12, except that "12pm" stays 12 |
| GptBot.AmHour | server/services/chatbot/calendar_chatbot_gpt.py:192-194 | "Ham" is hour H, except that "12am" is 0 |
| GptBot.TwentyFourHourClock | server/services/chatbot/calendar_chatbot_gpt.py:196-198 | a bare number is an hour of the 24-hour clock |
| GptBot.ReplaceClock | server/services/chatbot/calendar_chatbot_gpt.py:191 | `replace(hour, minute)` fails outside the clock's range and keeps the date, the seconds and the offset |
| GptBot.AtClauseHour | server/services/chatbot/calendar_chatbot_gpt.py:185-199 | an "at" clause sets the named hour at minute 0 on the base's day, keeping the seconds |
| GptBot.TomorrowKeepsTime | server/services/chatbot/calendar_chatbot_gpt.py:200-203 | "tomorrow" without "at" is the current local time one day on |
| GptBot.TodayKeepsTime | server/services/chatbot/calendar_chatbot_gpt.py:204-205 | "today" without "at" is the current time |
| GptBot.TodayAtHour | server/services/chatbot/calendar_chatbot_gpt.py:204-219 | "today ... at H" is the local day at hour H, minute 0; an hour outside 0..23 makes it fail |
| GptBot.TomorrowAtHour | server/services/chatbot/calendar_chatbot_gpt.py:182-199 | "tomorrow ... at H" is the next local day at hour H, minute 0 |
| GptBot.ResolvesTomorrow | server/services/chatbot/calendar_chatbot_gpt.py:182 | "tomorrow" is tested first, in any case, anywhere in the text |
| GptBot.ResolvesToday | server/services/chatbot/calendar_chatbot_gpt.py:204 | "today" applies only when "tomorrow" is absent |
| GptBot.IsoInstant | server/services/chatbot/calendar_chatbot_gpt.py:220-227 | other text read by `fromisoformat` gives its instant, an aware value at its offset, a naive one in local time |
| GptBot.IsoRetry | server/services/chatbot/calendar_chatbot_gpt.py:228-230 | text `fromisoformat` refuses is read once more with "Z" as "+00:00" |
| GptBot.AtUnreadable | server/services/chatbot/calendar_chatbot_gpt.py:233-237 | a clause that yields no hour makes the whole parse fail, on either keyword |
| GptBot.HalfPastUnreadable | server/services/chatbot/calendar_chatbot_gpt.py:207-237 | "today at 3:30 pm" fails: `int("3:30")` raises |
| GptBot.ParsedReadsBack | server/services/chatbot/calendar_chatbot_gpt.py:233-234 | the rendered result reads back, with "Z" as "+00:00", as its UTC instant cut to the second |
| GptBot.ShowWindow | server/services/chatbot/calendar_chatbot_gpt.py:285-295 | a window that has begun and not ended starts now and is annotated; any other window is unchanged and not annotated |
| GptBot.ShowUpcoming | server/services/chatbot/calendar_chatbot_gpt.py:285-300 | the listing starts at or after the current second unless the whole window is past |
| GptBot.CalendarGptBot.HandleShowEvents | server/services/chatbot/calendar_chatbot_gpt.py:270-324 | the events of the settled window, one line each under a header; the calendar is unchanged |
| GptBot.FindDate | server/services/chatbot/calendar_chatbot_gpt.py:330-335 | a date word names the local date that many days ahead; anything else is used as given |
| GptBot.TestEvents | server/services/chatbot/calendar_chatbot_gpt.py:358-364 | the inner loop tests the events in order and stops at the first overlap |
| GptBot.FreeStarts | server/services/chatbot/calendar_chatbot_gpt.py:353-373 | the candidate loop keeps what the scan specification keeps |
| GptBot.AwareClashTotal | server/services/chatbot/calendar_chatbot_gpt.py:358-364 | with aware candidates and timed events, the clash test never raises and finds whether some event overlaps strictly |
| GptBot.FreeSlotsExact | server/services/chatbot/calendar_chatbot_gpt.py:349-373 | a start is kept exactly when it is 09:00 plus a multiple of 30 minutes, its slot ends by 17:00, and no event overlaps it |
| GptBot.FreeSlotsDefined | server/services/chatbot/calendar_chatbot_gpt.py:353 | with a clash test that never raises, the search succeeds |
| GptBot.AllDayRaises | server/services/chatbot/calendar_chatbot_gpt.py:358-364 | an all-day event met before any clash makes the search raise |
| GptBot.NaiveClashRaises | server/services/chatbot/calendar_chatbot_gpt.py:349-362 | as written: a naive candidate meeting the first returned event raises |
| GptBot.ScanRaises | server/services/chatbot/calendar_chatbot_gpt.py:353-364 | as written: the search raises as soon as a fitting candidate meets a raising clash test |
| GptBot.SlotReplyLines | server/services/chatbot/calendar_chatbot_gpt.py:375-387 | a header, the first five slots, and "... and N-5 more slots available" exactly when there are more than five |
| GptBot.SlotReply | server/services/chatbot/calendar_chatbot_gpt.py:378-387 | the reply loop builds those lines |
| GptBot.CalendarGptBot.HandleFindSlots | server/services/chatbot/calendar_chatbot_gpt.py:326-391 | corrected (## Findings row 1): the free slots of 09:00 to 17:00 of the date, at most five shown; the calendar is unchanged. As written, a date with a timed event gets "Sorry, I had trouble finding available slots. Please try again." (calendar_chatbot_gpt.py:358-362, 389-391; GptBot.NaiveClashRaises) |
| GptBot.ScheduleCall | server/services/chatbot/calendar_chatbot_gpt.py:251-256 | the `add_event` arguments: the title, the parsed start, the duration and the description (default ''); None where reading them raises |
| GptBot.CalendarGptBot.HandleScheduleEvent | server/services/chatbot/calendar_chatbot_gpt.py:248-268 | one `add_event` on the default calendar; the reply names the new id, or says why nothing was added |
| GptBot.UpdateStart | server/services/chatbot/calendar_chatbot_gpt.py:399-400 | no "start_time" means no change, a parsing one gives its rendered instant, an unreadable one raises |
| GptBot.CalendarGptBot.HandleUpdateEvent | server/services/chatbot/calendar_chatbot_gpt.py:393-415 | the given title, start and description replace the stored ones of that event; nothing else changes |
| GptBot.CalendarGptBot.HandleDeleteEvent | server/services/chatbot/calendar_chatbot_gpt.py:417-428 | the event with that id leaves the default calendar, when it is there; the reply says which |
| GptBot.DeleteStep | server/services/chatbot/calendar_chatbot_gpt.py:444-447 | deleting the next named id removes exactly the entries of the ids named so far |
| GptBot.CalendarGptBot.DeleteListed | server/services/chatbot/calendar_chatbot_gpt.py:443-447 | the loop deletes every listed event that has an id, and counts them |
| GptBot.Unlisted | server/services/chatbot/calendar_chatbot_gpt.py:444-447 | a listed id does not repeat, so each deletion succeeds |
| GptBot.CalendarGptBot.HandleBulkDelete | server/services/chatbot/calendar_chatbot_gpt.py:430-456 | the listed events are deleted; the count is their number; "event" for one, "events" for more, failure for none |
| GptBot.BulkDay | server/services/chatbot/calendar_chatbot_gpt.py:469-478 | the day a bulk phrase names: tomorrow when the query says "tomorrow" (checked first), else today |
| GptBot.RouteOf | server/services/chatbot/calendar_chatbot_gpt.py:458-544 | a bulk phrase with a day word deletes that day; "help" or "?" gives help; a tool call with one of five names runs it, another name is unknown; content is passed on |
| GptBot.FixedReply | server/services/chatbot/calendar_chatbot_gpt.py:480-544 | the reply of each route that runs no operation; an unlisted function name gets "I don't know how to handle the operation" |
| GptBot.ContentPassedOn | server/services/chatbot/calendar_chatbot_gpt.py:540-544 | a model reply without tool calls is passed on as it is, or noted as empty |
| GptBot.CalendarGptBot.RunTool | server/services/chatbot/calendar_chatbot_gpt.py:523-532 | corrected (## Findings row 1): the tool call's function name picks the operation, and the call has that operation's full effect: schedule, update and delete give their handler's reply and new calendar state (`ScheduleEffect`, `UpdateEffect`, `DeleteEffect`); show and find give their reply, find through the corrected slot search, and leave the calendar unchanged |
| GptBot.CalendarGptBot.Answer | server/services/chatbot/calendar_chatbot_gpt.py:462-544 | corrected (## Findings row 1): a routed query gets its fixed reply with the calendar unchanged, the bulk delete of its day (`BulkEffect`), or the full effect of the operation its tool call names |
| GptBot.CalendarGptBot.ProcessQuery | server/services/chatbot/calendar_chatbot_gpt.py:458-548 | corrected (## Findings row 1): the query is routed by `RouteOf` and then answered as `Answered` states for every route: fixed texts change nothing; bulk delete, schedule, update and delete have their handlers' replies and new states; show and find their replies |
| Chatbot.ParseDuration | server/calendar_chatbot.py:41-57 | 60 when the lower-cased text does not start with a digit, so nothing matches |
| Chatbot.ParseDurationText | server/calendar_chatbot.py:45-55 | `str(n)`, blanks and a unit read back as n minutes for minute/min/m, or n*60 for hour/hr/h, plural "s" or not |
| Chatbot.DefaultDuration | server/calendar_chatbot.py:79-81 | the default "1 hour" is 60 minutes |
| Chatbot.SearchFinds | server/calendar_chatbot.py:63 | a match at a position is the result of `re.search` when no earlier position matches |
| Chatbot.ParseInstantWall | server/calendar_chatbot.py:27-39 | text other than exactly "tomorrow" or "today" (in any case) is read by "%Y-%m-%d %H:%M" alone, in local time, and fails where that does |
| Chatbot.ParseInstantOf | server/calendar_chatbot.py:33-37 | text that `strptime` reads gives that wall time in UTC |
| Chatbot.KeywordDateRejected | server/calendar_chatbot.py:70-75 | as written: "tomorrow HH:MM" and "today HH:MM" never parse |
| Chatbot.WhenInstant | server/calendar_chatbot.py:70-75 | corrected: a day word and a clock give that clock on the local date of today or tomorrow, in UTC |
| Chatbot.WhenOnDay | server/calendar_chatbot.py:70-75 | the corrected instant reads locally as that clock on that date |
| Chatbot.TitleFound | server/calendar_chatbot.py:63 | the title starts at the first quote, when no quote comes before it |
| Chatbot.EventIdFound | server/calendar_chatbot.py:206 | `event\s+(\w+)` finds the id that follows "event" in a "delete" or "update" command |
| Chatbot.FirstCommand | server/calendar_chatbot.py:247-256 | the command a query goes to is the first command word the query starts with |
| Chatbot.OneCommand | server/calendar_chatbot.py:14-21 | no command word starts another, so at most one fits |
| Chatbot.ScheduleRequest | server/calendar_chatbot.py:63-84 | corrected (## Findings row 2): the quoted title, the start (a day word with a clock read as in Chatbot.WhenInstant) and the duration, or the usage message for a missing title or date. As written, "tomorrow 10:00" gets "Could not parse date: tomorrow 10:00. Please use format: YYYY-MM-DD HH:MM" (calendar_chatbot.py:33, 39, 93-94; Chatbot.KeywordDateRejected) |
| Chatbot.CalendarChatbot.HandleSchedule | server/calendar_chatbot.py:59-96 | corrected (## Findings row 2): one `add_event` on the default calendar with the title, the corrected start and the duration; the reply says what was scheduled, or why not. As written, a day word with a clock is never scheduled (calendar_chatbot.py:33, 39, 93-94) |
| Chatbot.CalendarChatbot.ShowListing | server/calendar_chatbot.py:102-125 | the show window is [now, now+1 day], [now+1 day, now+2 days] for "tomorrow" (tested first), [now, now+7 days] for "week"; the reply lists the default calendar's entries in it |
| Chatbot.ShowLines | server/calendar_chatbot.py:116-125 | the reply lists one line per event, or says there are none |
| Chatbot.CalendarChatbot.HandleShow | server/calendar_chatbot.py:98-128 | the events of the window, one line each; the calendar is unchanged |
| Chatbot.FindDay | server/calendar_chatbot.py:138-144 | the local date for a day word, else the matched date text |
| Chatbot.FindLines | server/calendar_chatbot.py:155-165 | a header, the first five slots, and "... and N-5 more" exactly when there are more than five |
| Chatbot.SlotReply | server/calendar_chatbot.py:158-165 | the reply loop builds those lines |
| Chatbot.CalendarChatbot.HandleFind | server/calendar_chatbot.py:130-168 | the free slots of the date between 09:00 and 17:00, at most five shown; the calendar is unchanged |
| Chatbot.UpdateRequest | server/calendar_chatbot.py:174-191 | the id, and the title and time only when present; the usage message without an id |
| Chatbot.CalendarChatbot.HandleUpdate | server/calendar_chatbot.py:170-200 | the new title and start replace the stored ones of that event; nothing else changes |
| Chatbot.CalendarChatbot.HandleDelete | server/calendar_chatbot.py:202-220 | the event with that id leaves the default calendar, when it is there; the usage message without an id |
| Chatbot.CalendarChatbot.RunChange | server/calendar_chatbot.py:247-256 | the schedule, update and delete commands each have their handler's full effect: the reply and the new calendar state (`ScheduleEffect`, `UpdateEffect`, `DeleteEffect`) |
| Chatbot.CalendarChatbot.Dispatch | server/calendar_chatbot.py:252-254 | the handler `self.commands` holds for a command word answers: help, show and find give their replies and change nothing; schedule, update and delete have their handlers' replies and new states |
| Chatbot.CalendarChatbot.ProcessQuery | server/calendar_chatbot.py:247-256 | corrected (## Findings row 2): the loop over `self.commands` sends the stripped, lower-cased query to the first command it starts with, schedule through the corrected start; help, show and find give their replies and change nothing; schedule, update and delete have their handlers' replies and new states; "didn't understand" when no command fits |
| Assistant.Confirmation | client/calendar_assistant.py:135-146 | the proposal text carries the mark "I'll add an event" |
| Assistant.ParseConfirmation | client/calendar_assistant.py:239-244 | the parse loop enters each line's key and value as the specification reads them |
| Assistant.ConfirmationReadsBack | client/calendar_assistant.py:135-244 | for values without line breaks, parsing the proposal gives back every key with exactly the text written for it |
| Assistant.TimeReadsBack | client/calendar_assistant.py:247 | a time of "Not specified" becomes 00:00 and the start is Date + "T" + Time + ":00" |
| Assistant.DurationReadsBack | client/calendar_assistant.py:252 | the duration is read back as the integer written |
| Assistant.AttendeesReadBack | client/calendar_assistant.py:255 | attendees come back as the joined list when no address contains ", "; "None" maps to None |
| Assistant.CallOf | client/calendar_assistant.py:247-256 | a call is built only when every key the code reads is present, and it carries the parsed title |
| Assistant.LatestProposal | client/calendar_assistant.py:234-235 | the position of the latest assistant message that holds the mark; None when there is none |
| Assistant.ConfirmRoundTrip | client/calendar_assistant.py:230-256 | confirming right after a proposal adds exactly the proposed event |
| Assistant.CalendarAssistant.constructor | client/calendar_assistant.py:24-37 | the conversation starts with the system prompt alone; with a valid handler and offset the new assistant is valid |
| Assistant.CalendarAssistant.AddReply | client/calendar_assistant.py:125-149 | the date error, the details error, or the proposal for those details |
| Assistant.CalendarAssistant.HandleAddEvent | client/calendar_assistant.py:122-149 | the proposal joins the conversation and is returned; nothing is added to the calendar |
| Assistant.CalendarAssistant.ConfirmAction | client/calendar_assistant.py:230-265 | only 'yes', 'y', 'sure' and 'okay' proceed; the latest proposal is read back and added; "not found" without one; a failed add says so; nothing else changes |
| Assistant.AppendLines | client/calendar_assistant.py:156-161 | the `+=` loop gives the header followed by one line per event |
| Assistant.IdsShown | client/calendar_assistant.py:156-161 | every listed event's id appears in the delete prompt |
| Assistant.CalendarAssistant.DeleteListing | client/calendar_assistant.py:154 | the delete prompt lists the default calendar's first five entries of the coming week |
| Assistant.CalendarAssistant.HandleDeleteEvent | client/calendar_assistant.py:151-161 | the prompt of recent events; nothing is deleted |
| Assistant.Localized | client/calendar_assistant.py:168-176 | a naive reading gets the local offset attached and keeps its instant in local time; an aware one is kept |
| Assistant.Zoned | client/calendar_assistant.py:168-176 | corrected: a readable text bounds the listing at its instant in the local zone |
| Assistant.NaiveUnbounded | server/services/calendar_handler.py:451-458 | a text without 'Z' and without a sign six characters from the end never bounds a listing |
| Assistant.DayWindow | client/calendar_assistant.py:169-170 | the day window is midnight to 23:59:59 of that date, naive |
| Assistant.NaiveListingEmpty | client/calendar_assistant.py:168-176 | as written: the naive bounds are refused and the listing is empty whatever the calendar holds |
| Assistant.CalendarAssistant.ListDay | client/calendar_assistant.py:168-176 | corrected: a valid date lists the default calendar's entries of that whole local day |
| Assistant.CalendarAssistant.ListWeek | client/calendar_assistant.py:171-176 | corrected: without a date, the entries from now to seven days on |
| Assistant.CalendarAssistant.HandleListEvents | client/calendar_assistant.py:163-186 | corrected (## Findings row 3): the listing text of the window read in the local zone, or "No events found". As written, every request gets "No events found for the specified period." (calendar_assistant.py:168-179; Assistant.NaiveListingEmpty) |
| Assistant.SlotRequest | client/calendar_assistant.py:190-192 | corrected (## Findings row 3): a missing date or time gives the "Please specify" reply; the hour asked about is read in the local zone |
| Assistant.SlotAsked | client/calendar_assistant.py:194-197 | a readable date and time ask about the hour from that start, in the local zone |
| Assistant.NaiveSlotUnlisted | client/calendar_assistant.py:194-197 | as written: the naive start is refused, so the scan sees no events |
| Assistant.CalendarAssistant.HourConflicts | client/calendar_assistant.py:194-197 | the conflicts for the hour are the listed entries that overlap it |
| Assistant.CalendarAssistant.SlotFreeExact | client/calendar_assistant.py:197-206 | corrected: the hour is reported free exactly when no listed entry overlaps it; otherwise every such entry is listed |
| Assistant.CalendarAssistant.HandleCheckAvailability | client/calendar_assistant.py:188-206 | corrected (## Findings row 3): the reply for the date and time, with conflicts found in the local zone; the conversation is unchanged. As written, every readable request gets "The time slot on D at T is available!" (calendar_assistant.py:194-200; Assistant.NaiveSlotUnlisted) |
| Assistant.CalendarAssistant.ProcessMessage | client/calendar_assistant.py:84-120 | the message joins the conversation, and a proposal after it; the stripped, lower-cased intent picks the handler, and an intent outside the four gets the help text; listing and availability as corrected (## Findings row 3) |
| Assistant.CalendarAssistant.Respond | client/calendar_assistant.py:111-118 | corrected (## Findings row 3): the dispatch for the intents that leave the conversation unchanged, listing and availability read in the local zone |
| Assistant.CalendarAssistant.ProposalConfirmed | client/calendar_assistant.py:230-256 | a proposal made through `process_message` is what a following "yes" adds |

## Left out

- `authenticate`, OAuth and token files: network and file I/O. The handler is built with a service or without one (`null`).
- Every call into OpenAI (`_get_gpt_response`, `extract_date_time`, `extract_event_details`, the intent call) is replaced by an input value, as are the tool-call arguments that `eval` produces.
- `datetime.now` and pytz's local zone are replaced by the parameters `now` and `localOffset`. Daylight-saving changes are not modelled.
- `_format_event_time` (`strftime("%B %d, %Y at %I:%M %p")`) is a function parameter `display`; its locale text is not modelled.
- `get_free_busy`: it only passes through to the freebusy API and is not used by any front end.
- The interactive `main()` loops, `print` logging, and the Flask, CLI, example and test scripts are not part of this model.
- Python exception texts (`str(e)`) are modelled as fixed error replies, except where the source spells the message out.
- Characters beyond ASCII: `lower()`, `strip()` and `\w` cover ASCII letters, digits and white space only.
- `fromisoformat` follows the grammar of Python 3.7 to 3.10; later versions also accept 'Z' and other forms.
- The service's id generation is deterministic here (an id longer than every stored one). Recurring events, attendees' own copies, reminders and `sendUpdates` mails are not modelled beyond being stored and counted.
- Values the language model leaves untyped (a `duration_minutes` that is not a number, a list where a string is expected) are modelled only through the typed `Args` and `EventDetails` fields.
- GptBot.CalendarGptBot.ProcessQuery: the clock is assumed to lie more than a few days inside Python's datetime range (`ClockReads`).
- Chatbot.CalendarChatbot.ProcessQuery: the clock is assumed away from the ends of the datetime range (`ClockOk`).
- Assistant.CalendarAssistant.ProcessMessage: the clock is assumed away from the ends of the datetime range.
- Chrono.FromIsoFormat: reads only offsets of the form `+HH:MM` or `-HH:MM`; the forms `±HH:MM:SS` and `±HH:MM:SS.ffffff`, which Python 3.7 to 3.10 also accept, are refused. `isoformat()` and Google Calendar write only `±HH:MM` offsets, but text from the language model could carry the longer forms.
- Assistant.SlotRequest: its ensures covers only the missing-argument reply; the window it asks about is stated by Assistant.SlotAsked and Assistant.CalendarAssistant.SlotFreeExact.

## Findings

| source | as written | input that shows it | evidently intended | confidence | as-written member | corrected member |
|---|---|---|---|---|---|---|
| server/services/chatbot/calendar_chatbot_gpt.py:349-362 | the slot candidates come from `strptime` with no zone, so they are naive, while event times are aware; `event_start < slot_end` raises TypeError, and the reply is the generic error | any date whose listing returns one timed event, e.g. an event 10:00-11:00Z on 2024-01-15 with `find_slots` for that date | candidates at UTC, as in `find_available_slots` of the handler, so the overlap test is total | not executed | GptBot.NaiveClashRaises, GptBot.ScanRaises | GptBot.AwareClashTotal, GptBot.FreeSlotsExact, GptBot.CalendarGptBot.HandleFindSlots |
| server/calendar_chatbot.py:70-75 | `_handle_schedule` passes "tomorrow 10:00" to `_parse_datetime`, which accepts only the bare words or "%Y-%m-%d %H:%M" | `schedule "Standup" tomorrow at 10:00` | the clock on the local date of today or tomorrow | not executed | Chatbot.KeywordDateRejected | Chatbot.WhenInstant, Chatbot.WhenOnDay, Chatbot.ScheduleRequest, Chatbot.CalendarChatbot.HandleSchedule |
| client/calendar_assistant.py:168-176 | the list window and the availability hour are sent without an offset; the service requires RFC 3339 bounds, so the handler returns [] | "what do I have on 2024-01-15", and "am I free on 2024-01-15 at 10:00" with an event then | the bounds given the local zone, so the listing and the conflict scan see the day's events | not executed | Assistant.NaiveListingEmpty, Assistant.NaiveSlotUnlisted | Assistant.Zoned, Assistant.CalendarAssistant.ListDay, Assistant.CalendarAssistant.ListWeek, Assistant.CalendarAssistant.SlotFreeExact, Assistant.CalendarAssistant.HandleListEvents, Assistant.CalendarAssistant.HandleCheckAvailability |
