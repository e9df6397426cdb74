# iCalendar feed writer: a verified model

This project models the part of the events service that writes its public
iCalendar feed, along with the small normaliser it applies to the database URL:

- **Text escaping** (`IcsEscape`). `_escape_ical_text` is written as the
  source's chain of six `str.replace` calls. It is proved equal to a single
  left-to-right pass, and that pass is proved against an unescaper that reads
  TEXT values as defined in section 3.3.11 of RFC 5545.
- **Line folding** (`IcsFold`). `_fold_ical_line` is the source's `while`
  loop. It is proved against a segment function, and against unfolding as
  defined in section 3.1 of RFC 5545, where every CRLF followed by a space or a
  tab is removed.
- **Date and date-time layouts** (`IcsTime`). This covers `_fmt_date`,
  `_fmt_dt_utc` and Python's `date + timedelta(days=1)`. Each layout has a
  parser that reads it back. The next calendar day is checked against a day
  numbering that works like `date.toordinal()`.
- **Document assembly** (`IcsRender`). `IcsEvent` and `render_calendar_ics`
  are written as the source's loop, which appends lines to a list. That loop
  is then folded, joined with CRLF, and given a final CRLF. Lemmas state:
  - the document's envelope;
  - one event block per event, in input order;
  - which properties each block carries;
  - the 75-character bound on physical lines;
  - that unfolding gives back the logical lines.

  The RRULE writer is a parameter `RecurStyle` of the document functions,
  methods and lemmas. `AsText` escapes the rule like free text, as the source
  does, so `RenderCalendar` with `AsText` is the source's document. `Verbatim`
  writes the stored rule as it is, which is the corrected writer (see Findings).
- **Row mapping** (`IcsMapping`). `calendar_event_to_ics_event` maps a stored
  event row to an `IcsEvent`. It covers the UID, DTSTAMP, DTSTART and URL
  fallbacks, the exclusive all-day end, and stripping the `RRULE:` prefix.
- **Database URL** (`DbUrl`). `_normalize_database_url` is modelled with the
  outcome for each prefix and an idempotence lemma.
- **Feed limit** (`Feed`). The `limit` clamp of the feed handler in `app.py`.

Modelling choices:

- Python's truthiness for an optional string is `Common.Truthy`, meaning
  present and non-empty.
- `str.replace` is `Common.Replace`, which replaces leftmost matches that do
  not overlap.
- `str.upper` is ASCII upper-casing, `Common.Upper`.
- Dates and date-times are subset types over valid Gregorian fields, for years
  1 to 9999, the range of Python's `date`.
- `datetime.now(UTC)`, the last DTSTAMP fallback, is the parameter `now` of
  `IcsMapping.ToIcsEvent`.

Modules and files:

| file | module |
|---|---|
| common.dfy | `Common` |
| escape.dfy | `IcsEscape` |
| fold.dfy | `IcsFold` |
| time.dfy | `IcsTime` |
| render.dfy | `IcsRender` |
| mapping.dfy | `IcsMapping` |
| dburl.dfy | `DbUrl` |
| feed.dfy | `Feed` |

## Model

| member | source | states |
|---|---|---|
| IcsEscape.EscapeText | src/ics.py:8-18 | `_escape_ical_text` as the source's six chained replaces. No replacement is shorter than its pattern, so the result is never shorter than the value. Its meaning is stated by the rows below. |
| IcsEscape.EscapeTextIsSinglePass | src/ics.py:11-18 | The six chained replaces, in the source's order, equal one token-by-token pass. In that pass a CRLF pair is one token. Backslashes inserted by later replaces are never escaped again. |
| IcsEscape.EscapeChar | src/ics.py:12-17 | A special character (`\`, `;`, `,`, CR, LF) becomes two characters starting with a backslash. Any other character is kept. |
| IcsEscape.EscapeTextEscaped | src/ics.py:11-18 | The escaped value has the escaped shape: no raw CR, LF, `;` or `,`, and every backslash starts `\\`, `\;`, `\,` or `\n`. In particular no line break is left. |
| IcsEscape.EscapeRoundTrip | src/ics.py:11-18 | Unescaping the escaped value gives the input back, with every CRLF, lone CR and LF written as LF. |
| IcsEscape.UnescapeRoundTrip | src/ics.py:11-18 | For every value of the escaped shape, escaping its unescaping gives that value back, so the escaped shape is exactly the image of escaping. |
| IcsEscape.EscapeIdentityIff | src/ics.py:11-18 | A value is returned unchanged if and only if it holds none of `\ ; , CR LF`. |
| IcsEscape.EscapeTokensLength | src/ics.py:12-14 | Escaping never shortens a value when counted by the single pass. It strictly lengthens any value holding `\`, `;` or `,`. |
| IcsEscape.UpperEscapeRoundTrip | src/ics.py:101-104 | The upper-cased escaped value of STATUS and TRANSP still has no line break, and it unescapes to the upper-cased, newline-normalised input. |
| IcsFold.FoldLine | src/ics.py:21-33 | The source's loop returns the segments of the line joined by CRLF. A line that fits is returned as it is. |
| IcsFold.FoldSegmentsShape | src/ics.py:28-33 | Every segment fits the limit. Every segment except the last is exactly the limit long. Every segment after the first starts with one space. The first segment is a prefix of the line. There is one segment exactly when the line fits. |
| IcsFold.FoldUnchangedIff | src/ics.py:26-27 | Folding returns the line unchanged if and only if its length is at most the limit. |
| IcsFold.FoldTextLength | src/ics.py:29-33 | Folding adds exactly three characters (CRLF and a space) per continuation. |
| IcsFold.FoldRoundTrip | src/ics.py:29-33 | For a line without CR, unfolding the folded text gives back the line. |
| IcsTime.DaysInMonth | src/ics.py:131 | A month has 28 to 31 days. February has 29 exactly in a leap year. |
| IcsTime.FormatDate | src/ics.py:42-43 | `YYYYMMDD`: eight digits. |
| IcsTime.FormatDateTimeUtc | src/ics.py:36-39 | `YYYYMMDDTHHMMSSZ`: sixteen characters, `T` at index 8, `Z` at index 15, digits elsewhere. |
| IcsTime.FormatDateRoundTrip | src/ics.py:42-43 | Parsing a formatted date gives the date back. |
| IcsTime.FormatDateTimeRoundTrip | src/ics.py:36-39 | Parsing a formatted date-time gives the date-time back. |
| IcsTime.FormatInjective | src/ics.py:36-43 | Distinct dates, and distinct date-times, never share a formatted string. |
| IcsTime.NextDay | src/ics.py:131 | `date + timedelta(days=1)`: there is no next day exactly for 9999-12-31, where Python raises OverflowError. |
| IcsTime.NextDayOrdinal | src/ics.py:131 | `date + timedelta(days=1)` fails only on 9999-12-31. Otherwise it gives the date whose day number is one more. |
| IcsTime.NextDayLater | src/ics.py:131 | The next day is later in year, month and day order. |
| IcsTime.NextDayExample | src/ics.py:131 | 2025-12-15 is followed by 2025-12-16, formatted `20251216`. |
| IcsRender.AppendText | src/ics.py:95-100 | The line `head + escaped value` is appended exactly when the value is non-empty, and nothing else changes. |
| IcsRender.AppendUpperText | src/ics.py:101-104 | The escaped and upper-cased line is appended exactly when the value is non-empty. |
| IcsRender.AppendTimes | src/ics.py:81-93 | UID, DTSTAMP, DTSTART in its date or date-time layout, and DTEND only when there is an end, are appended in that order. |
| IcsRender.AppendProperties | src/ics.py:95-109 | The seven optional properties are appended in the source's order. |
| IcsRender.AppendRecur | src/ics.py:107-109 | RRULE is appended exactly when the rule is non-empty. With `AsText` the rule is escaped as the source does; with `Verbatim` it is written as it is (see Findings). |
| IcsRender.AppendEvent | src/ics.py:80-111 | One BEGIN:VEVENT ... END:VEVENT block is appended after the existing lines. |
| IcsRender.AppendEvents | src/ics.py:79-111 | The loop over the events appends their blocks in input order. |
| IcsRender.FoldAll | src/ics.py:114 | Every logical line is folded, in order. |
| IcsRender.RenderCalendar | src/ics.py:61-114 | The result is the header, the event blocks and the footer, each line folded, joined by CRLF, with a final CRLF. With `AsText` this is the source's document. |
| IcsRender.EventsLinesAppend | src/ics.py:79-111 | The blocks of two event lists in sequence are the blocks of the first list followed by those of the second. |
| IcsRender.EventBlockOrder | src/ics.py:79-111 | Each event's block appears whole, after the blocks of the events before it and before the blocks of the events after it. |
| IcsRender.EventBlockMarkers | src/ics.py:80-111 | An event block holds exactly one BEGIN:VEVENT line and one END:VEVENT line. |
| IcsRender.CalendarEventCount | src/ics.py:67-113 | The calendar holds exactly as many BEGIN:VEVENT lines, and as many END:VEVENT lines, as there are events. |
| IcsRender.PropName | src/ics.py:80-109 | A content line's name is its longest prefix without `:` or `;`. |
| IcsRender.TimeNames | src/ics.py:81-93 | The time lines are named UID, DTSTAMP and DTSTART, then DTEND exactly when the event has an end. |
| IcsRender.PropertyLinesNames | src/ics.py:95-109 | SUMMARY, DESCRIPTION, LOCATION, STATUS, TRANSP, URL and RRULE each appear, in that order, exactly when their value is non-empty, with either RRULE writer. |
| IcsRender.RuleLineNames | src/ics.py:107-109 | Either RRULE writer gives one line named RRULE exactly when the rule is non-empty, and none otherwise. |
| IcsRender.EventNames | src/ics.py:80-111 | The full list of names of an event block: BEGIN, UID, DTSTAMP, DTSTART, DTEND if there is an end, the non-empty optional properties, and END. |
| IcsRender.WhenLinesRead | src/ics.py:84-93 | DTSTART and DTEND carry `;VALUE=DATE:` and a date, or `:` and a date-time, and the value after the head reads back as the event's own date or date-time. |
| IcsRender.CalendarNameLines | src/ics.py:74-76 | X-WR-CALNAME and NAME carry the same value. That value has the escaped shape and reads back as the calendar name. |
| IcsRender.CalendarEnvelope | src/ics.py:67-77 | The document starts with `BEGIN:VCALENDAR` CRLF `VERSION:2.0` CRLF. |
| IcsRender.CalendarEnds | src/ics.py:113 | The calendar's lines have the header's first two lines first and `END:VCALENDAR` last. |
| IcsRender.DocumentEnvelope | src/ics.py:114 | A document whose first two lines and last line fit the limit starts with those two lines and ends with CRLF, the last line and CRLF. |
| IcsRender.DocumentLineLengths | src/ics.py:114 | The document is its physical lines joined by CRLF with a final CRLF, and every physical line is at most 75 characters. |
| IcsRender.UnfoldDocument | src/ics.py:114 | Unfolding the document of logical lines gives back the lines joined by CRLF, with a final CRLF. A logical line is non-empty, does not start with white space, and holds no CR. |
| IcsRender.CalendarLogical | src/ics.py:67-113 | Every line of the calendar is logical when PRODID holds no CR. The `Verbatim` writer also needs every rule to hold no CR; the source's escaped rule never holds one. |
| IcsRender.CalendarUnfolds | src/ics.py:61-114 | Under those conditions, unfolding the rendered calendar gives back exactly its logical lines, each terminated by CRLF. |
| IcsRender.CalendarUnfoldsAsWritten | src/ics.py:61-114 | For the source's document, whatever the events and the calendar name, unfolding gives back exactly its logical lines when PRODID holds no CR. |
| IcsRender.DefaultCalendarUnfolds | src/ics.py:61-114 | With the default PRODID and calendar name, the source's document of any events unfolds to exactly its logical lines, with no condition. The feed handler makes this call at app.py:50. |
| IcsRender.RecurEscapedAsWritten | src/ics.py:107-109 | The source's RRULE line differs from the rule itself for every rule that holds `;` or `,`. |
| IcsRender.RecurEscapedExample | src/ics.py:107-109 | The weekly rule `FREQ=WEEKLY;BYDAY=MO,WE` is one such rule. |
| IcsMapping.ToIcsEvent | src/ics.py:117-159 | `calendar_event_to_ics_event`: it fails only for an all-day row with a start and no end. On success the UID and DTSTAMP come from the row's fallbacks, and DTEND is present exactly when the row has an end or is all-day with a start. The rows below state the full mapping. |
| IcsMapping.EventUid | src/ics.py:123 | The UID is `ical_uid` when it is non-empty, and the text of the row id otherwise. |
| IcsMapping.EventStamp | src/ics.py:124 | DTSTAMP is `updated_at`, else `created_at`, else the current time. |
| IcsMapping.EventRecur | src/ics.py:144 | There is a rule exactly when the row's rule list is present and non-empty. |
| IcsMapping.MappingFailsIff | src/ics.py:126-131 | The mapping fails if and only if the row is all-day, has a start and no end, and starts on 9999-12-31, where Python raises OverflowError. |
| IcsMapping.MappedFields | src/ics.py:123-158 | The mapped event's UID, DTSTAMP, text fields, URL (`html_link`, else `web_link`) and rule come from the row with the fallbacks above. |
| IcsMapping.AllDayDates | src/ics.py:126-145 | An all-day row with a start is mapped to dates. DTEND is the end's date, or the day after the start when there is no end. |
| IcsMapping.TimedDates | src/ics.py:147-159 | Any other row is mapped to date-times. DTSTART is the start, or DTSTAMP when there is no start. DTEND is present exactly when the row has an end. |
| IcsMapping.StartFallsBackToStamp | src/ics.py:150 | A row without a start has DTSTART equal to DTSTAMP. |
| IcsMapping.AllDayExample | src/ics.py:126-137 | An all-day row on 2025-12-15 without an end gets `DTEND;VALUE=DATE:20251216`. |
| IcsMapping.RecurPrefixStripped | src/ics.py:144 | One leading `RRULE:` is removed and no more. A rule without the prefix is kept whole. |
| IcsMapping.RecurRuleRoundTrip | src/ics.py:144 | With the `Verbatim` writer (the corrected writer, see Findings), a stored rule `RRULE:...` is rendered as exactly that line. The source's `AsText` writer escapes it. |
| DbUrl.NormalizeDatabaseUrl | src/db.py:8-27 | `_normalize_database_url`: a URL is either kept as it is or ends up naming a driver (`postgresql+...`). |
| DbUrl.NormalizeCases | src/db.py:16-27 | `postgres://` and `postgresql://` are rewritten to `postgresql+psycopg://` with the rest of the URL kept. A URL starting with `postgresql+`, or with any other prefix, is unchanged. |
| DbUrl.NormalizeIdempotent | src/db.py:8-27 | Normalising twice is normalising once. |
| Feed.ClampLimit | app.py:41-42 | The limit is clamped into 1..10000. A limit inside that range is kept. |
| Feed.ClampIdempotent | app.py:41-42 | Clamping twice is clamping once, and the default 2000 is kept. |

## Left out

- IcsRender.CalendarUnfolds: requires that PRODID holds no CR. The source writes PRODID without escaping at src/ics.py:70, so a CR in it splits a content line. The rule condition comes only from the model's `Verbatim` writer. The source escapes the rule at src/ics.py:109, so for `AsText` the condition always holds.
- IcsRender.RenderCalendar: with the `Verbatim` writer, a stored rule holding a line break is written as it is and can add content lines of its own, such as `END:VEVENT`. The unfolding lemmas then need rules without CR, and a bare LF in a rule is not excluded. The source's `AsText` writer escapes both.
- IcsFold.FoldLine: requires a limit of at least 2. The source loops forever below 2, and it is only ever called with 75.
- Time zones. `astimezone(UTC)` and the naive-to-UTC replacement in `_fmt_dt_utc` are not modelled: a date-time is an already-UTC value. Microseconds, which `strftime` drops, are not part of the value.
- `row.start_at.date()` in the all-day branch is taken on the stored value's own fields.
- `%Y` for years below 1000 depends on the platform. The model pads to four digits.
- Folding counts characters, as the source does. It does not count octets as section 3.1 of RFC 5545 asks.
- `str.upper` is modelled on ASCII letters only. Unicode case mapping, which can change a string's length, is not modelled.
- Control characters other than CR and LF pass through escaping unchanged, as in the source. Nothing is proved about them.
- The mapping's OverflowError is modelled as `Failure(DateOverflow)` in a `Result`, not as an exception.
- `datetime.now(UTC)` is the parameter `now`, not a clock.
- A `None` entry inside `recurrence_rules` is not modelled. The rule list is a list of strings.
- The Flask routes in `app.py` are not part of this model, apart from the limit clamp. This covers the session queries, the ordering, the response with `Cache-Control: public, max-age=60`, and the JSON event API. The handler answers 200 with the rendered calendar; it has no ETag, 304 or redirect handling.
- Also not part of this model, because they are I/O and resource handling:
  - `src/models.py`, the ORM schema and its dictionary conversions;
  - the alembic migration;
  - `get_database_url`, `get_engine` and `get_session` in `src/db.py`.

## Findings

| source | as written | input that shows it | evidently intended | confidence | as-written member | corrected member |
|---|---|---|---|---|---|---|
| src/ics.py:107-109 | The RRULE value is passed through `_escape_ical_text`, which escapes `;` and `,`. | rrule `FREQ=WEEKLY;BYDAY=MO,WE` is written `RRULE:FREQ=WEEKLY\;BYDAY=MO\,WE` | RRULE is a recurrence value (section 3.3.10 of RFC 5545), not TEXT, so the rule should be written verbatim. The source's own comment expects `FREQ=DAILY;...`. | not executed | IcsRender.RecurEscapedAsWritten | IcsMapping.RecurRuleRoundTrip |
