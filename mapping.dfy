/** The mapping from a stored calendar-event row to an `IcsEvent`, modelled
    on `calendar_event_to_ics_event` in src/ics.py. Date-times are already
    UTC; the current time used as the last DTSTAMP fallback is a parameter. */
module IcsMapping {
  import opened Common
  import opened IcsTime
  import opened IcsRender

  /** The columns of a `CalendarEvent` row that the mapping reads. `id` is
      the text of the row's UUID, as `str(row.id)` gives it. */
  datatype EventRow = EventRow(
    id: string,
    icalUid: Option<string>,
    title: Option<string>,
    description: Option<string>,
    location: Option<string>,
    startAt: Option<DateTime>,
    endAt: Option<DateTime>,
    isAllDay: bool,
    status: Option<string>,
    transparency: Option<string>,
    htmlLink: Option<string>,
    webLink: Option<string>,
    recurrenceRules: Option<seq<string>>,
    createdAt: Option<DateTime>,
    updatedAt: Option<DateTime>)

  /** `start_d + timedelta(days=1)` overflows past 9999-12-31. */
  datatype MappingError = DateOverflow

  /** `row.ical_uid or str(row.id)`. */
  function EventUid(row: EventRow): (uid: string)
    ensures Truthy(row.icalUid) ==> uid == row.icalUid.value
    ensures !Truthy(row.icalUid) ==> uid == row.id
  {
    if Truthy(row.icalUid) then row.icalUid.value else row.id
  }

  /** `row.updated_at or row.created_at or now`; a date-time is never
      falsy, so only a missing value falls through. */
  function EventStamp(row: EventRow, now: DateTime): (t: DateTime)
    ensures row.updatedAt.Some? ==> t == row.updatedAt.value
    ensures row.updatedAt.None? && row.createdAt.Some? ==> t == row.createdAt.value
    ensures row.updatedAt.None? && row.createdAt.None? ==> t == now
  {
    match row.updatedAt
    case Some(u) => u
    case None =>
      match row.createdAt
      case Some(c) => c
      case None => now
  }

  /** The first recurrence rule with one leading `RRULE:` removed; None
      when the list is missing or empty. */
  function EventRecur(row: EventRow): (r: Option<string>)
    ensures row.recurrenceRules.None? || row.recurrenceRules.value == [] <==> r.None?
  {
    match row.recurrenceRules
    case Some(rules) => if rules != [] then Some(RemovePrefix(rules[0], "RRULE:")) else None
    case None => None
  }

  /** The fields both branches of the source fill in the same way. */
  function WithTexts(row: EventRow, uid: string, stamp: DateTime, start: When, end: Option<When>): IcsEvent {
    IcsEvent(uid, stamp, start, end, row.title, row.description, row.location,
             row.status, row.transparency, OrElse(row.htmlLink, row.webLink), EventRecur(row))
  }

  /** `calendar_event_to_ics_event`: an all-day row with a start becomes an
      event on dates, with an exclusive end; any other row becomes an event
      on date-times. The one failure is Python's OverflowError for an
      all-day row without an end that starts on 9999-12-31. */
  function ToIcsEvent(row: EventRow, now: DateTime): (r: Result<IcsEvent, MappingError>)
    ensures r.Failure? ==> row.isAllDay && row.startAt.Some? && row.endAt.None?
    ensures r.Success? ==> r.value.uid == EventUid(row) && r.value.dtstamp == EventStamp(row, now)
    ensures r.Success? ==> (r.value.dtend.Some? <==> row.endAt.Some? || (row.isAllDay && row.startAt.Some?))
  {
    var uid := EventUid(row);
    var stamp := EventStamp(row, now);
    if row.isAllDay && row.startAt.Some? then
      var startDate := DateOf(row.startAt.value);
      if row.endAt.Some? then
        Success(WithTexts(row, uid, stamp, OnDate(startDate), Some(OnDate(DateOf(row.endAt.value)))))
      else
        match NextDay(startDate)
        case Some(endDate) => Success(WithTexts(row, uid, stamp, OnDate(startDate), Some(OnDate(endDate))))
        case None => Failure(DateOverflow)
    else
      var start := if row.startAt.Some? then row.startAt.value else stamp;
      var end := if row.endAt.Some? then Some(AtTime(row.endAt.value)) else None;
      Success(WithTexts(row, uid, stamp, AtTime(start), end))
  }

  // ---------------------------------------------------------------------
  // Properties of the mapping.

  /** The mapping fails exactly for an all-day row with a start, no end,
      and a start on the last representable date. */
  lemma MappingFailsIff(row: EventRow, now: DateTime)
    ensures ToIcsEvent(row, now).Failure?
      <==> row.isAllDay && row.startAt.Some? && row.endAt.None?
           && DateOf(row.startAt.value) == DateFields(9999, 12, 31)
  {
    if row.isAllDay && row.startAt.Some? {
      NextDayOrdinal(DateOf(row.startAt.value));
    }
  }

  /** The fields every mapped event takes from the row: UID, DTSTAMP, the
      free-text properties, URL with its fallback, and RRULE. */
  lemma MappedFields(row: EventRow, now: DateTime)
    requires ToIcsEvent(row, now).Success?
    ensures var e := ToIcsEvent(row, now).value;
      && e.uid == (if Truthy(row.icalUid) then row.icalUid.value else row.id)
      && e.dtstamp == (if row.updatedAt.Some? then row.updatedAt.value
                       else if row.createdAt.Some? then row.createdAt.value else now)
      && e.summary == row.title && e.description == row.description && e.location == row.location
      && e.status == row.status && e.transp == row.transparency
      && e.url == (if Truthy(row.htmlLink) then row.htmlLink else row.webLink)
      && e.rrule == (if row.recurrenceRules.Some? && row.recurrenceRules.value != []
                     then Some(RemovePrefix(row.recurrenceRules.value[0], "RRULE:")) else None)
  {
  }

  /** An all-day row with a start is written on dates: DTSTART is the start
      date, DTEND the end date, or the next day when the row has no end,
      so the event covers exactly one day. */
  lemma AllDayDates(row: EventRow, now: DateTime)
    requires row.isAllDay && row.startAt.Some?
    requires ToIcsEvent(row, now).Success?
    ensures var e := ToIcsEvent(row, now).value;
      && e.dtstart == OnDate(DateOf(row.startAt.value))
      && e.dtend.Some? && e.dtend.value.OnDate?
      && (row.endAt.Some? ==> e.dtend.value.date == DateOf(row.endAt.value))
      && (row.endAt.None? ==> Ordinal(e.dtend.value.date) == Ordinal(e.dtstart.date) + 1)
  {
    NextDayOrdinal(DateOf(row.startAt.value));
  }

  /** Any other row is written on date-times: DTSTART is the start, or the
      DTSTAMP when the row has none; DTEND is the end, absent with it. */
  lemma TimedDates(row: EventRow, now: DateTime)
    requires !(row.isAllDay && row.startAt.Some?)
    ensures ToIcsEvent(row, now).Success?
    ensures var e := ToIcsEvent(row, now).value;
      && e.dtstart == AtTime(if row.startAt.Some? then row.startAt.value else e.dtstamp)
      && (e.dtend.Some? <==> row.endAt.Some?)
      && (row.endAt.Some? ==> e.dtend == Some(AtTime(row.endAt.value)))
  {
  }

  /** A timed row without a start gets the same DTSTART and DTSTAMP
      values. */
  lemma StartFallsBackToStamp(row: EventRow, now: DateTime)
    requires row.startAt.None?
    ensures ToIcsEvent(row, now).Success?
    ensures var e := ToIcsEvent(row, now).value;
      StartLine(e.dtstart) == "DTSTART:" + FormatDateTimeUtc(e.dtstamp)
  {
  }

  /** An all-day row on 2025-12-15 without an end is written as
      DTSTART;VALUE=DATE:20251215 and DTEND;VALUE=DATE:20251216. */
  lemma AllDayExample(row: EventRow, now: DateTime)
    requires row.isAllDay && row.endAt.None?
    requires row.startAt == Some(DateTimeFields(2025, 12, 15, 9, 30, 0))
    ensures ToIcsEvent(row, now).Success?
    ensures var e := ToIcsEvent(row, now).value;
      e.dtend.Some? && EndLine(e.dtend.value) == "DTEND;VALUE=DATE:" + "20251216"
  {
    NextDayExample();
  }

  /** `removeprefix` strips one `RRULE:` and no more; without the prefix
      the rule is kept whole. */
  lemma RecurPrefixStripped(row: EventRow)
    requires row.recurrenceRules.Some? && row.recurrenceRules.value != []
    ensures var rule, r := row.recurrenceRules.value[0], EventRecur(row);
      && r.Some?
      && ("RRULE:" <= rule ==> "RRULE:" + r.value == rule)
      && (!("RRULE:" <= rule) ==> r.value == rule)
  {
  }

  /** The rendered RRULE line of a mapped event is the stored rule itself
      whenever the stored rule carries the `RRULE:` prefix and a body. */
  lemma RecurRuleRoundTrip(row: EventRow, now: DateTime)
    requires row.recurrenceRules.Some? && row.recurrenceRules.value != []
    requires "RRULE:" <= row.recurrenceRules.value[0] && |row.recurrenceRules.value[0]| > 6
    requires ToIcsEvent(row, now).Success?
    ensures RecurLine(ToIcsEvent(row, now).value.rrule) == [row.recurrenceRules.value[0]]
  {
    var rule := row.recurrenceRules.value[0];
    assert EventRecur(row) == Some(rule[6..]);
    assert "RRULE:" + rule[6..] == rule;
  }
}
