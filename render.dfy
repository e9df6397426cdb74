/** The calendar document writer, modelled on `IcsEvent` and
    `render_calendar_ics` in src/ics.py. */
module IcsRender {
  import opened Common
  import opened IcsEscape
  import opened IcsTime
  import opened IcsFold

  /** A DTSTART or DTEND value: a calendar date (all-day events) or a UTC
      date-time. The source tells them apart with `isinstance`. */
  datatype When = OnDate(date: Date) | AtTime(instant: DateTime)

  /** The frozen dataclass `IcsEvent`; optional text fields are None when
      absent. */
  datatype IcsEvent = IcsEvent(
    uid: string,
    dtstamp: DateTime,
    dtstart: When,
    dtend: Option<When>,
    summary: Option<string>,
    description: Option<string>,
    location: Option<string>,
    status: Option<string>,
    transp: Option<string>,
    url: Option<string>,
    rrule: Option<string>)

  /** The keyword defaults of `render_calendar_ics`. */
  const DefaultProdId: string := "-//HelpSellPossibleNow//Calendar//EN"
  const DefaultCalName: string := "PossibleNow Events"

  // ---------------------------------------------------------------------
  // The logical lines.

  /** DTSTART: `;VALUE=DATE:YYYYMMDD` for a date, `:YYYYMMDDTHHMMSSZ` for a
      date-time. */
  function StartLine(w: When): string {
    match w
    case OnDate(d) => "DTSTART;VALUE=DATE:" + FormatDate(d)
    case AtTime(t) => "DTSTART:" + FormatDateTimeUtc(t)
  }

  /** DTEND, on the same two layouts. */
  function EndLine(w: When): string {
    match w
    case OnDate(d) => "DTEND;VALUE=DATE:" + FormatDate(d)
    case AtTime(t) => "DTEND:" + FormatDateTimeUtc(t)
  }

  /** A free-text property (`head` is its name and colon): present only
      for a non-empty value. */
  function TextLine(head: string, v: Option<string>): seq<string> {
    if Truthy(v) then [head + EscapeText(v.value)] else []
  }

  /** STATUS and TRANSP: escaped, then upper-cased. */
  function UpperTextLine(head: string, v: Option<string>): seq<string> {
    if Truthy(v) then [head + Upper(EscapeText(v.value))] else []
  }

  /** RRULE as the source writes it: escaped like free text. Its value is
      a recurrence rule (section 3.3.10 of RFC 5545), whose `;` and `,`
      separators the escaping breaks; see RecurEscapedAsWritten. */
  function RecurLineAsWritten(v: Option<string>): seq<string> {
    TextLine("RRULE:", v)
  }

  /** RRULE as the model writes it: the rule verbatim, present only for a
      non-empty value. */
  function RecurLine(v: Option<string>): seq<string> {
    if Truthy(v) then ["RRULE:" + v.value] else []
  }

  /** Which RRULE writer a document uses: `AsText` is the source's, which
      escapes the rule like free text; `Verbatim` writes the stored rule as
      it is (see RecurEscapedAsWritten). */
  datatype RecurStyle = AsText | Verbatim

  function RuleLine(style: RecurStyle, v: Option<string>): seq<string> {
    match style
    case AsText => RecurLineAsWritten(v)
    case Verbatim => RecurLine(v)
  }

  function HeaderLines(prodid: string, calname: string): seq<string> {
    [ "BEGIN:VCALENDAR",
      "VERSION:2.0",
      "PRODID:" + prodid,
      "CALSCALE:GREGORIAN",
      "METHOD:PUBLISH",
      "X-WR-CALNAME:" + EscapeText(calname),
      "NAME:" + EscapeText(calname) ]
  }

  /** DTEND only when the event has an end. */
  function EndLines(w: Option<When>): seq<string> {
    if w.Some? then [EndLine(w.value)] else []
  }

  /** The fixed opening of an event block: UID, DTSTAMP, DTSTART and the
      optional DTEND. */
  function TimeLines(e: IcsEvent): seq<string> {
    ["UID:" + EscapeText(e.uid)]
    + ["DTSTAMP:" + FormatDateTimeUtc(e.dtstamp)]
    + [StartLine(e.dtstart)]
    + EndLines(e.dtend)
  }

  /** The optional text properties, each present only when truthy. */
  function PropertyLines(e: IcsEvent, style: RecurStyle): seq<string> {
    TextLine("SUMMARY:", e.summary)
    + TextLine("DESCRIPTION:", e.description)
    + TextLine("LOCATION:", e.location)
    + UpperTextLine("STATUS:", e.status)
    + UpperTextLine("TRANSP:", e.transp)
    + TextLine("URL:", e.url)
    + RuleLine(style, e.rrule)
  }

  /** One BEGIN:VEVENT ... END:VEVENT block, property by property in the
      order the source appends them. */
  function EventLines(e: IcsEvent, style: RecurStyle): seq<string> {
    ["BEGIN:VEVENT"] + TimeLines(e) + PropertyLines(e, style) + ["END:VEVENT"]
  }

  /** The event blocks, in input order. */
  function EventsLines(events: seq<IcsEvent>, style: RecurStyle): seq<string>
    decreases |events|
  {
    if events == [] then []
    else EventsLines(events[..|events| - 1], style) + EventLines(events[|events| - 1], style)
  }

  function CalendarLines(events: seq<IcsEvent>, prodid: string, calname: string, style: RecurStyle): seq<string> {
    HeaderLines(prodid, calname) + EventsLines(events, style) + ["END:VCALENDAR"]
  }

  /** Every logical line folded, then joined by CRLF, with a final CRLF. */
  function FoldedLines(lines: seq<string>): (f: seq<string>)
    ensures |f| == |lines|
  {
    seq(|lines|, i requires 0 <= i < |lines| => FoldText(lines[i], FoldLimit))
  }

  function Document(lines: seq<string>): string {
    Join(FoldedLines(lines), CRLF) + CRLF
  }

  // ---------------------------------------------------------------------
  // The source's imperative rendering.

  /** `if value: lines.append(head + escaped value)`. */
  method AppendText(lines: seq<string>, head: string, v: Option<string>) returns (out: seq<string>)
    ensures out == lines + TextLine(head, v)
  {
    out := lines;
    if Truthy(v) {
      out := out + [head + EscapeText(v.value)];
    }
  }

  /** `if value: lines.append(head + escaped value, upper-cased)`. */
  method AppendUpperText(lines: seq<string>, head: string, v: Option<string>) returns (out: seq<string>)
    ensures out == lines + UpperTextLine(head, v)
  {
    out := lines;
    if Truthy(v) {
      out := out + [head + Upper(EscapeText(v.value))];
    }
  }

  method AppendTimes(lines: seq<string>, e: IcsEvent) returns (out: seq<string>)
    ensures out == lines + TimeLines(e)
  {
    var block := ["UID:" + EscapeText(e.uid)];
    block := block + ["DTSTAMP:" + FormatDateTimeUtc(e.dtstamp)];
    match e.dtstart {
      case OnDate(d) => block := block + ["DTSTART;VALUE=DATE:" + FormatDate(d)];
      case AtTime(t) => block := block + ["DTSTART:" + FormatDateTimeUtc(t)];
    }
    if e.dtend.Some? {
      match e.dtend.value {
        case OnDate(d) => block := block + ["DTEND;VALUE=DATE:" + FormatDate(d)];
        case AtTime(t) => block := block + ["DTEND:" + FormatDateTimeUtc(t)];
      }
    }
    out := lines + block;
  }

  method AppendProperties(lines: seq<string>, e: IcsEvent, style: RecurStyle) returns (out: seq<string>)
    ensures out == lines + PropertyLines(e, style)
  {
    var block := AppendText([], "SUMMARY:", e.summary);
    EmptyConcat(TextLine("SUMMARY:", e.summary));
    block := AppendText(block, "DESCRIPTION:", e.description);
    block := AppendText(block, "LOCATION:", e.location);
    block := AppendUpperText(block, "STATUS:", e.status);
    block := AppendUpperText(block, "TRANSP:", e.transp);
    block := AppendText(block, "URL:", e.url);
    block := AppendRecur(block, e.rrule, style);
    out := lines + block;
  }

  /** `if rrule: lines.append("RRULE:" + rule)`, the rule escaped as the
      source does or written verbatim. */
  method AppendRecur(lines: seq<string>, v: Option<string>, style: RecurStyle) returns (out: seq<string>)
    ensures out == lines + RuleLine(style, v)
  {
    out := lines;
    if Truthy(v) {
      match style {
        case AsText => out := out + ["RRULE:" + EscapeText(v.value)];
        case Verbatim => out := out + ["RRULE:" + v.value];
      }
    }
  }

  /** The body of the source's loop over the events: append one
      BEGIN:VEVENT ... END:VEVENT block. */
  method AppendEvent(lines: seq<string>, e: IcsEvent, style: RecurStyle) returns (out: seq<string>)
    ensures out == lines + EventLines(e, style)
  {
    var block := AppendTimes(["BEGIN:VEVENT"], e);
    block := AppendProperties(block, e, style);
    block := block + ["END:VEVENT"];
    out := lines + block;
  }

  lemma EmptyConcat(a: seq<string>)
    ensures [] + a == a
  {
  }

  lemma AppendStep(lines: seq<string>, before: seq<string>, block: seq<string>, after: seq<string>,
                   prev: seq<string>, out: seq<string>)
    requires prev == lines + before && out == prev + block && after == before + block
    ensures out == lines + after
  {
    ConcatAssoc(lines, before, block);
  }

  /** The source's loop over the events, in input order. */
  method AppendEvents(lines: seq<string>, events: seq<IcsEvent>, style: RecurStyle) returns (out: seq<string>)
    ensures out == lines + EventsLines(events, style)
  {
    out := lines;
    for i := 0 to |events|
      invariant out == lines + EventsLines(events[..i], style)
    {
      ghost var before := EventsLines(events[..i], style);
      ghost var block := EventLines(events[i], style);
      ghost var prev := out;
      out := AppendEvent(out, events[i], style);
      TakeTake(events, i);
      EventsLinesSnoc(events[..i + 1], style);
      AppendStep(lines, before, block, EventsLines(events[..i + 1], style), prev, out);
    }
    assert events[..|events|] == events;
  }

  /** `_fold_ical_line` applied to every logical line. */
  method FoldAll(lines: seq<string>) returns (folded: seq<string>)
    ensures folded == FoldedLines(lines)
  {
    folded := [];
    for i := 0 to |lines|
      invariant |folded| == i
      invariant forall k :: 0 <= k < i ==> folded[k] == FoldText(lines[k], FoldLimit)
    {
      var f := FoldLine(lines[i], FoldLimit);
      folded := folded + [f];
    }
  }

  /** `render_calendar_ics`: the header, then each event's block in input
      order, then the footer; every line folded, joined with CRLF and
      terminated by a final CRLF. With `AsText` this is the source's
      document; with `Verbatim` the rule is written unescaped. */
  method RenderCalendar(events: seq<IcsEvent>, prodid: string, calname: string, style: RecurStyle) returns (ics: string)
    ensures ics == Document(CalendarLines(events, prodid, calname, style))
  {
    var lines: seq<string> := [
      "BEGIN:VCALENDAR",
      "VERSION:2.0",
      "PRODID:" + prodid,
      "CALSCALE:GREGORIAN",
      "METHOD:PUBLISH",
      "X-WR-CALNAME:" + EscapeText(calname),
      "NAME:" + EscapeText(calname)
    ];
    lines := AppendEvents(lines, events, style);
    lines := lines + ["END:VCALENDAR"];
    var folded := FoldAll(lines);
    ics := Join(folded, CRLF) + CRLF;
  }

  // ---------------------------------------------------------------------
  // The order and number of the event blocks.

  lemma {:induction false} EventsLinesAppend(a: seq<IcsEvent>, b: seq<IcsEvent>, style: RecurStyle)
    ensures EventsLines(a + b, style) == EventsLines(a, style) + EventsLines(b, style)
    decreases |b|
  {
    if b == [] {
      assert a + b == a;
    } else {
      var c := b[..|b| - 1];
      assert (a + b)[..|a + b| - 1] == a + c;
      assert (a + b)[|a + b| - 1] == b[|b| - 1];
      EventsLinesAppend(a, c, style);
      ConcatAssoc(EventsLines(a, style), EventsLines(c, style), EventLines(b[|b| - 1], style));
    }
  }

  /** Each event's block appears whole, after the blocks of the events
      before it and before the blocks of the events after it. */
  lemma EventBlockOrder(events: seq<IcsEvent>, k: int, style: RecurStyle)
    requires 0 <= k < |events|
    ensures EventsLines(events, style)
      == EventsLines(events[..k], style) + EventLines(events[k], style) + EventsLines(events[k + 1..], style)
  {
    var e, pre, post := events[k], events[..k], events[k + 1..];
    SplitAt(events, k);
    EventsLinesAppend(pre + [e], post, style);
    EventsLinesAppend(pre, [e], style);
    EventsLinesSingle(e, style);
  }

  lemma SplitAt(events: seq<IcsEvent>, k: int)
    requires 0 <= k < |events|
    ensures events == events[..k] + [events[k]] + events[k + 1..]
  {
  }

  lemma EventsLinesSingle(e: IcsEvent, style: RecurStyle)
    ensures EventsLines([e], style) == EventLines(e, style)
  {
    assert [e][..0] == [];
    EmptyConcat(EventLines(e, style));
  }

  /** No line of an event block but its first and last starts with `B`
      or `E`, so none is a block marker. */
  predicate Unmarked(lines: seq<string>) {
    forall i :: 0 <= i < |lines| ==> |lines[i]| > 0 && lines[i][0] != 'B' && lines[i][0] != 'E'
  }

  lemma UnmarkedNoMarker(lines: seq<string>)
    requires Unmarked(lines)
    ensures multiset(lines)["BEGIN:VEVENT"] == 0 && multiset(lines)["END:VEVENT"] == 0
  {
    assert "BEGIN:VEVENT" !in lines;
    assert "END:VEVENT" !in lines;
  }

  lemma TimeLinesUnmarked(e: IcsEvent)
    ensures Unmarked(TimeLines(e))
  {
  }

  lemma UnmarkedAppend(a: seq<string>, b: seq<string>)
    requires Unmarked(a) && Unmarked(b)
    ensures Unmarked(a + b)
  {
    assert forall i :: |a| <= i < |a + b| ==> (a + b)[i] == b[i - |a|];
  }

  lemma TextLinesUnmarked(head: string, v: Option<string>)
    requires |head| > 0 && head[0] != 'B' && head[0] != 'E'
    ensures Unmarked(TextLine(head, v)) && Unmarked(UpperTextLine(head, v))
  {
  }

  lemma PropertyLinesUnmarked(e: IcsEvent, style: RecurStyle)
    ensures Unmarked(PropertyLines(e, style))
  {
    TextLinesUnmarked("SUMMARY:", e.summary);
    TextLinesUnmarked("DESCRIPTION:", e.description);
    TextLinesUnmarked("LOCATION:", e.location);
    TextLinesUnmarked("STATUS:", e.status);
    TextLinesUnmarked("TRANSP:", e.transp);
    TextLinesUnmarked("URL:", e.url);
    TextLinesUnmarked("RRULE:", e.rrule);
    assert Unmarked(RuleLine(style, e.rrule));
    var a := TextLine("SUMMARY:", e.summary);
    UnmarkedAppend(a, TextLine("DESCRIPTION:", e.description));
    a := a + TextLine("DESCRIPTION:", e.description);
    UnmarkedAppend(a, TextLine("LOCATION:", e.location));
    a := a + TextLine("LOCATION:", e.location);
    UnmarkedAppend(a, UpperTextLine("STATUS:", e.status));
    a := a + UpperTextLine("STATUS:", e.status);
    UnmarkedAppend(a, UpperTextLine("TRANSP:", e.transp));
    a := a + UpperTextLine("TRANSP:", e.transp);
    UnmarkedAppend(a, TextLine("URL:", e.url));
    a := a + TextLine("URL:", e.url);
    UnmarkedAppend(a, RuleLine(style, e.rrule));
  }

  /** An event block opens and closes exactly once. */
  lemma EventBlockMarkers(e: IcsEvent, style: RecurStyle)
    ensures multiset(EventLines(e, style))["BEGIN:VEVENT"] == 1
    ensures multiset(EventLines(e, style))["END:VEVENT"] == 1
  {
    TimeLinesUnmarked(e);
    PropertyLinesUnmarked(e, style);
    UnmarkedNoMarker(TimeLines(e));
    UnmarkedNoMarker(PropertyLines(e, style));
    MarkersAround(EventLines(e, style), TimeLines(e), PropertyLines(e, style));
  }

  /** A block opened and closed once around lines without markers. */
  lemma MarkersAround(block: seq<string>, a: seq<string>, b: seq<string>)
    requires block == ["BEGIN:VEVENT"] + a + b + ["END:VEVENT"]
    requires multiset(a)["BEGIN:VEVENT"] == 0 && multiset(a)["END:VEVENT"] == 0
    requires multiset(b)["BEGIN:VEVENT"] == 0 && multiset(b)["END:VEVENT"] == 0
    ensures multiset(block)["BEGIN:VEVENT"] == 1 && multiset(block)["END:VEVENT"] == 1
  {
  }

  lemma EventsLinesSnoc(events: seq<IcsEvent>, style: RecurStyle)
    requires events != []
    ensures EventsLines(events, style) == EventsLines(events[..|events| - 1], style) + EventLines(events[|events| - 1], style)
  {
  }

  lemma MarkerCountAppend(whole: seq<string>, a: seq<string>, b: seq<string>, n: nat)
    requires whole == a + b
    requires multiset(a)["BEGIN:VEVENT"] == n && multiset(a)["END:VEVENT"] == n
    requires multiset(b)["BEGIN:VEVENT"] == 1 && multiset(b)["END:VEVENT"] == 1
    ensures multiset(whole)["BEGIN:VEVENT"] == n + 1 && multiset(whole)["END:VEVENT"] == n + 1
  {
  }

  lemma {:induction false} EventsMarkers(events: seq<IcsEvent>, style: RecurStyle)
    ensures multiset(EventsLines(events, style))["BEGIN:VEVENT"] == |events|
    ensures multiset(EventsLines(events, style))["END:VEVENT"] == |events|
    decreases |events|
  {
    if events != [] {
      var init, last := events[..|events| - 1], events[|events| - 1];
      EventsMarkers(init, style);
      EventBlockMarkers(last, style);
      EventsLinesSnoc(events, style);
      MarkerCountAppend(EventsLines(events, style), EventsLines(init, style), EventLines(last, style), |init|);
    }
  }

  lemma HeaderUnmarked(prodid: string, calname: string)
    ensures multiset(HeaderLines(prodid, calname))["BEGIN:VEVENT"] == 0
    ensures multiset(HeaderLines(prodid, calname))["END:VEVENT"] == 0
  {
    var h := HeaderLines(prodid, calname);
    assert |h[0]| == 15;
    assert Unmarked(h[1..]) by {
      assert h[1][0] == 'V' && h[2][0] == 'P' && h[3][0] == 'C';
      assert h[4][0] == 'M' && h[5][0] == 'X' && h[6][0] == 'N';
    }
    UnmarkedNoMarker(h[1..]);
    assert h == [h[0]] + h[1..];
  }

  /** The calendar holds exactly one BEGIN:VEVENT and one END:VEVENT line
      per event. */
  lemma CalendarEventCount(events: seq<IcsEvent>, prodid: string, calname: string, style: RecurStyle)
    ensures multiset(CalendarLines(events, prodid, calname, style))["BEGIN:VEVENT"] == |events|
    ensures multiset(CalendarLines(events, prodid, calname, style))["END:VEVENT"] == |events|
  {
    EventsMarkers(events, style);
    HeaderUnmarked(prodid, calname);
    FooterUnmarked();
    MarkersBetween(CalendarLines(events, prodid, calname, style), HeaderLines(prodid, calname),
      EventsLines(events, style), ["END:VCALENDAR"], |events|);
  }

  lemma FooterUnmarked()
    ensures multiset(["END:VCALENDAR"])["BEGIN:VEVENT"] == 0
    ensures multiset(["END:VCALENDAR"])["END:VEVENT"] == 0
  {
    assert |"END:VCALENDAR"| == 13;
  }

  /** Lines without markers around a body keep the body's marker counts. */
  lemma MarkersBetween(whole: seq<string>, h: seq<string>, b: seq<string>, f: seq<string>, n: nat)
    requires whole == h + b + f
    requires multiset(h)["BEGIN:VEVENT"] == 0 && multiset(h)["END:VEVENT"] == 0
    requires multiset(f)["BEGIN:VEVENT"] == 0 && multiset(f)["END:VEVENT"] == 0
    requires multiset(b)["BEGIN:VEVENT"] == n && multiset(b)["END:VEVENT"] == n
    ensures multiset(whole)["BEGIN:VEVENT"] == n && multiset(whole)["END:VEVENT"] == n
  {
  }

  // ---------------------------------------------------------------------
  // Which properties an event block carries.

  /** The property name of a content line: everything before the first
      `:` or `;`. */
  function PropName(line: string): (name: string)
    ensures name <= line
    ensures forall i :: 0 <= i < |name| ==> line[i] != ':' && line[i] != ';'
    ensures |name| < |line| ==> line[|name|] == ':' || line[|name|] == ';'
    decreases |line|
  {
    if line == [] || line[0] == ':' || line[0] == ';' then []
    else [line[0]] + PropName(line[1..])
  }

  function Names(lines: seq<string>): (names: seq<string>)
    ensures |names| == |lines|
  {
    seq(|lines|, i requires 0 <= i < |lines| => PropName(lines[i]))
  }

  predicate NameChars(name: string) {
    forall i :: 0 <= i < |name| ==> name[i] != ':' && name[i] != ';'
  }

  /** The name an optional property contributes: present only when truthy. */
  function NameIf(name: string, v: Option<string>): seq<string> {
    if Truthy(v) then [name] else []
  }

  lemma {:induction false} PropNameOf(name: string, rest: string)
    requires NameChars(name)
    requires |rest| > 0 && (rest[0] == ':' || rest[0] == ';')
    ensures PropName(name + rest) == name
    decreases |name|
  {
    if name == [] {
      assert name + rest == rest;
    } else {
      assert (name + rest)[0] == name[0];
      assert (name + rest)[1..] == name[1..] + rest;
      PropNameOf(name[1..], rest);
      assert [name[0]] + name[1..] == name;
    }
  }

  lemma NamesAppend(a: seq<string>, b: seq<string>)
    ensures Names(a + b) == Names(a) + Names(b)
  {
  }

  lemma HeadName(head: string, name: string, value: string)
    requires NameChars(name) && head == name + ":"
    ensures PropName(head + value) == name
  {
    assert head + value == name + (":" + value);
    PropNameOf(name, ":" + value);
  }

  lemma DateHeadName(head: string, name: string, value: string)
    requires NameChars(name) && head == name + ";VALUE=DATE:"
    ensures PropName(head + value) == name
  {
    assert head + value == name + (";VALUE=DATE:" + value);
    PropNameOf(name, ";VALUE=DATE:" + value);
  }

  lemma TextLineNames(head: string, name: string, v: Option<string>)
    requires NameChars(name) && head == name + ":"
    ensures Names(TextLine(head, v)) == NameIf(name, v)
  {
    if Truthy(v) {
      HeadName(head, name, EscapeText(v.value));
    }
  }

  lemma UpperTextLineNames(head: string, name: string, v: Option<string>)
    requires NameChars(name) && head == name + ":"
    ensures Names(UpperTextLine(head, v)) == NameIf(name, v)
  {
    if Truthy(v) {
      HeadName(head, name, Upper(EscapeText(v.value)));
    }
  }

  lemma StartEndNames(w: When)
    ensures PropName(StartLine(w)) == "DTSTART"
    ensures PropName(EndLine(w)) == "DTEND"
  {
    StartName(w);
    EndName(w);
  }

  lemma StartName(w: When)
    ensures PropName(StartLine(w)) == "DTSTART"
  {
    match w {
      case OnDate(d) => DateHeadName("DTSTART;VALUE=DATE:", "DTSTART", FormatDate(d));
      case AtTime(t) => HeadName("DTSTART:", "DTSTART", FormatDateTimeUtc(t));
    }
  }

  lemma EndName(w: When)
    ensures PropName(EndLine(w)) == "DTEND"
  {
    match w {
      case OnDate(d) => DateHeadName("DTEND;VALUE=DATE:", "DTEND", FormatDate(d));
      case AtTime(t) => HeadName("DTEND:", "DTEND", FormatDateTimeUtc(t));
    }
  }

  lemma NamesSingle(line: string)
    ensures Names([line]) == [PropName(line)]
  {
  }

  lemma TimeNames(e: IcsEvent)
    ensures Names(TimeLines(e))
      == ["UID", "DTSTAMP", "DTSTART"] + (if e.dtend.Some? then ["DTEND"] else [])
  {
    var u, d, st := "UID:" + EscapeText(e.uid), "DTSTAMP:" + FormatDateTimeUtc(e.dtstamp), StartLine(e.dtstart);
    HeadName("UID:", "UID", EscapeText(e.uid));
    HeadName("DTSTAMP:", "DTSTAMP", FormatDateTimeUtc(e.dtstamp));
    StartEndNames(e.dtstart);
    NamesSingle(u);
    NamesSingle(d);
    NamesSingle(st);
    NamesAppend([u], [d]);
    NamesAppend([u] + [d], [st]);
    NamesAppend([u] + [d] + [st], EndLines(e.dtend));
    if e.dtend.Some? {
      StartEndNames(e.dtend.value);
      NamesSingle(EndLine(e.dtend.value));
    }
    ThreeNames();
  }

  lemma ThreeNames()
    ensures ["UID"] + ["DTSTAMP"] + ["DTSTART"] == ["UID", "DTSTAMP", "DTSTART"]
  {
  }

  function PropertyNames(e: IcsEvent): seq<string> {
    NameIf("SUMMARY", e.summary)
    + NameIf("DESCRIPTION", e.description)
    + NameIf("LOCATION", e.location)
    + NameIf("STATUS", e.status)
    + NameIf("TRANSP", e.transp)
    + NameIf("URL", e.url)
    + NameIf("RRULE", e.rrule)
  }

  lemma RuleLineNames(style: RecurStyle, v: Option<string>)
    ensures Names(RuleLine(style, v)) == NameIf("RRULE", v)
  {
    if Truthy(v) {
      match style {
        case AsText => HeadName("RRULE:", "RRULE", EscapeText(v.value));
        case Verbatim => HeadName("RRULE:", "RRULE", v.value);
      }
    }
  }

  lemma PropertyHeads()
    ensures NameChars("SUMMARY") && "SUMMARY:" == "SUMMARY" + ":"
    ensures NameChars("DESCRIPTION") && "DESCRIPTION:" == "DESCRIPTION" + ":"
    ensures NameChars("LOCATION") && "LOCATION:" == "LOCATION" + ":"
    ensures NameChars("STATUS") && "STATUS:" == "STATUS" + ":"
    ensures NameChars("TRANSP") && "TRANSP:" == "TRANSP" + ":"
    ensures NameChars("URL") && "URL:" == "URL" + ":"
  {
  }

  lemma PropertyLinesNames(e: IcsEvent, style: RecurStyle)
    ensures Names(PropertyLines(e, style)) == PropertyNames(e)
  {
    PropertyHeads();
    TextLineNames("SUMMARY:", "SUMMARY", e.summary);
    TextLineNames("DESCRIPTION:", "DESCRIPTION", e.description);
    TextLineNames("LOCATION:", "LOCATION", e.location);
    UpperTextLineNames("STATUS:", "STATUS", e.status);
    UpperTextLineNames("TRANSP:", "TRANSP", e.transp);
    TextLineNames("URL:", "URL", e.url);
    RuleLineNames(style, e.rrule);
    NamesOfSeven(PropertyLines(e, style), PropertyNames(e), TextLine("SUMMARY:", e.summary), TextLine("DESCRIPTION:", e.description),
      TextLine("LOCATION:", e.location), UpperTextLine("STATUS:", e.status),
      UpperTextLine("TRANSP:", e.transp), TextLine("URL:", e.url), RuleLine(style, e.rrule),
      NameIf("SUMMARY", e.summary), NameIf("DESCRIPTION", e.description),
      NameIf("LOCATION", e.location), NameIf("STATUS", e.status),
      NameIf("TRANSP", e.transp), NameIf("URL", e.url), NameIf("RRULE", e.rrule));
  }

  lemma NamesOfSeven(whole: seq<string>, names: seq<string>, a: seq<string>, b: seq<string>, c: seq<string>, d: seq<string>,
                     e: seq<string>, f: seq<string>, g: seq<string>,
                     na: seq<string>, nb: seq<string>, nc: seq<string>, nd: seq<string>,
                     ne: seq<string>, nf: seq<string>, ng: seq<string>)
    requires Names(a) == na && Names(b) == nb && Names(c) == nc && Names(d) == nd
    requires Names(e) == ne && Names(f) == nf && Names(g) == ng
    requires whole == a + b + c + d + e + f + g && names == na + nb + nc + nd + ne + nf + ng
    ensures Names(whole) == names
  {
    NamesAppend(a, b);
    NamesAppend(a + b, c);
    NamesAppend(a + b + c, d);
    NamesAppend(a + b + c + d, e);
    NamesAppend(a + b + c + d + e, f);
    NamesAppend(a + b + c + d + e + f, g);
  }

  /** An event block names BEGIN, UID, DTSTAMP and DTSTART, then DTEND
      exactly when the event has an end, then each optional text property
      exactly when its value is non-empty, in the source's order, then
      END. */
  lemma EventNames(e: IcsEvent, style: RecurStyle)
    ensures Names(EventLines(e, style))
      == ["BEGIN"] + ["UID", "DTSTAMP", "DTSTART"]
         + (if e.dtend.Some? then ["DTEND"] else [])
         + PropertyNames(e)
         + ["END"]
  {
    var b, t, p, z := ["BEGIN:VEVENT"], TimeLines(e), PropertyLines(e, style), ["END:VEVENT"];
    MarkerNames();
    NamesSingle("BEGIN:VEVENT");
    NamesSingle("END:VEVENT");
    TimeNames(e);
    PropertyLinesNames(e, style);
    NamesAppend(b, t);
    NamesAppend(b + t, p);
    NamesAppend(b + t + p, z);
    ConcatAssoc(["BEGIN"], ["UID", "DTSTAMP", "DTSTART"], if e.dtend.Some? then ["DTEND"] else []);
  }

  lemma MarkerNames()
    ensures PropName("BEGIN:VEVENT") == "BEGIN" && PropName("END:VEVENT") == "END"
  {
    assert "BEGIN:VEVENT" == "BEGIN" + ":VEVENT";
    assert "END:VEVENT" == "END" + ":VEVENT";
    PropNameOf("BEGIN", ":VEVENT");
    PropNameOf("END", ":VEVENT");
  }

  // ---------------------------------------------------------------------
  // The physical lines of the document.

  /** The physical lines the document is made of: the fold segments of each
      logical line, in order. */
  function PhysicalLines(lines: seq<string>): seq<string>
    decreases |lines|
  {
    if lines == [] then [] else FoldSegments(lines[0], FoldLimit) + PhysicalLines(lines[1..])
  }

  lemma FoldedLinesTail(lines: seq<string>)
    requires |lines| > 0
    ensures FoldedLines(lines) == [FoldText(lines[0], FoldLimit)] + FoldedLines(lines[1..])
  {
  }

  /** Joining the folded lines is joining all their physical lines. */
  lemma {:induction false} JoinFoldedLines(lines: seq<string>)
    ensures Join(FoldedLines(lines), CRLF) == Join(PhysicalLines(lines), CRLF)
    ensures |lines| > 0 ==> |PhysicalLines(lines)| > 0
    decreases |lines|
  {
    if lines != [] {
      var segs, rest := FoldSegments(lines[0], FoldLimit), lines[1..];
      FoldedLinesTail(lines);
      if rest == [] {
        assert PhysicalLines(rest) == [];
        assert segs + [] == segs;
      } else {
        JoinFoldedLines(rest);
        var f := FoldedLines(lines);
        assert f[1..] == FoldedLines(rest);
        JoinAppend(segs, PhysicalLines(rest), CRLF);
      }
    }
  }

  lemma {:induction false} PhysicalLinesFit(lines: seq<string>)
    ensures forall i :: 0 <= i < |PhysicalLines(lines)| ==> |PhysicalLines(lines)[i]| <= FoldLimit
    decreases |lines|
  {
    if lines != [] {
      var segs, tail := FoldSegments(lines[0], FoldLimit), PhysicalLines(lines[1..]);
      FoldSegmentsShape(lines[0], FoldLimit);
      PhysicalLinesFit(lines[1..]);
      assert forall i :: |segs| <= i < |segs + tail| ==> (segs + tail)[i] == tail[i - |segs|];
    }
  }

  /** The document is its physical lines, each at most 75 characters long,
      each followed by CRLF. */
  lemma DocumentLineLengths(lines: seq<string>)
    ensures Document(lines) == Join(PhysicalLines(lines), CRLF) + CRLF
    ensures forall i :: 0 <= i < |PhysicalLines(lines)| ==> |PhysicalLines(lines)[i]| <= 75
  {
    JoinFoldedLines(lines);
    PhysicalLinesFit(lines);
  }

  // ---------------------------------------------------------------------
  // Unfolding the document gives back the logical lines.

  /** A line that survives folding and unfolding unchanged next to its
      neighbours: non-empty, not starting with white space, CR-free. */
  predicate LogicalLine(l: string) {
    |l| > 0 && l[0] != ' ' && l[0] != '\t' && NoCR(l)
  }

  predicate AllLogical(lines: seq<string>) {
    forall i :: 0 <= i < |lines| ==> LogicalLine(lines[i])
  }

  lemma UnfoldSeparator(y: string)
    requires y == [] || (y[0] != ' ' && y[0] != '\t')
    ensures Unfold(CRLF + y) == CRLF + Unfold(y)
  {
    assert (CRLF + y)[1..] == "\n" + y;
    assert ("\n" + y)[1..] == y;
  }

  lemma JoinFirst(parts: seq<string>, sep: string)
    requires |parts| > 0 && |parts[0]| > 0
    ensures |Join(parts, sep)| > 0 && Join(parts, sep)[0] == parts[0][0]
  {
  }

  /** A document of two or more lines is the first line folded, a line
      break, and the document of the others. */
  lemma DocumentCons(lines: seq<string>)
    requires |lines| >= 2
    ensures Document(lines) == FoldText(lines[0], FoldLimit) + (CRLF + Document(lines[1..]))
  {
    FoldedLinesTail(lines);
    var f := FoldedLines(lines);
    assert f[1..] == FoldedLines(lines[1..]);
    ConcatAssoc(FoldText(lines[0], FoldLimit) + CRLF, Join(f[1..], CRLF), CRLF);
    ConcatAssoc(FoldText(lines[0], FoldLimit), CRLF, Join(f[1..], CRLF) + CRLF);
  }

  /** The document of a non-empty list starts with its first line's first
      character. */
  lemma DocumentFirst(lines: seq<string>)
    requires |lines| > 0 && |lines[0]| > 0
    ensures |Document(lines)| > 0 && Document(lines)[0] == lines[0][0]
  {
    FoldedLinesTail(lines);
    FoldTextFirst(lines[0], FoldLimit);
    JoinFirst(FoldedLines(lines), CRLF);
  }

  /** One step of unfolding a document: the first folded line, then the
      break, then a rest that unfolds to `j` and a final line break. */
  lemma UnfoldConsStep(l: string, y: string, j: string)
    requires NoCR(l)
    requires |y| > 0 && y[0] != ' ' && y[0] != '\t'
    requires Unfold(y) == j + CRLF
    ensures Unfold(FoldText(l, FoldLimit) + (CRLF + y)) == l + CRLF + j + CRLF
  {
    UnfoldFoldAppend(l, FoldLimit, CRLF + y);
    UnfoldSeparator(y);
    ConcatAssoc(l, CRLF, j + CRLF);
    ConcatAssoc(l + CRLF, j, CRLF);
  }

  lemma {:induction false} UnfoldDocument(lines: seq<string>)
    requires AllLogical(lines)
    ensures Unfold(Document(lines)) == Join(lines, CRLF) + CRLF
    decreases |lines|
  {
    if lines == [] {
      UnfoldSeparator([]);
      assert CRLF + [] == CRLF && [] + CRLF == CRLF;
    } else if |lines| == 1 {
      FoldedLinesTail(lines);
      UnfoldFoldAppend(lines[0], FoldLimit, CRLF);
      UnfoldSeparator([]);
    } else {
      var rest := lines[1..];
      assert LogicalLine(lines[0]) && LogicalLine(rest[0]);
      DocumentCons(lines);
      DocumentFirst(rest);
      UnfoldDocument(rest);
      UnfoldConsStep(lines[0], Document(rest), Join(rest, CRLF));
    }
  }

  lemma AllLogicalAppend(a: seq<string>, b: seq<string>)
    requires AllLogical(a) && AllLogical(b)
    ensures AllLogical(a + b)
  {
    assert forall i :: |a| <= i < |a + b| ==> (a + b)[i] == b[i - |a|];
  }

  lemma LogicalHead(head: string, v: string)
    requires |head| > 0 && head[0] != ' ' && head[0] != '\t' && NoCR(head) && NoCR(v)
    ensures LogicalLine(head + v)
  {
    assert forall i :: |head| <= i < |head + v| ==> (head + v)[i] == v[i - |head|];
  }

  /** Escaped text, upper-cased or not, holds no CR. */
  lemma EscapedNoCR(v: string)
    ensures NoCR(EscapeText(v)) && NoCR(Upper(EscapeText(v)))
  {
    EscapeTextEscaped(v);
    UpperEscapeRoundTrip(v);
  }

  lemma FormatsNoCR(d: Date, t: DateTime)
    ensures NoCR(FormatDate(d)) && NoCR(FormatDateTimeUtc(t))
  {
  }

  lemma TextLinesLogical(head: string, v: Option<string>)
    requires |head| > 0 && head[0] != ' ' && head[0] != '\t' && NoCR(head)
    ensures AllLogical(TextLine(head, v)) && AllLogical(UpperTextLine(head, v))
  {
    if Truthy(v) {
      EscapedNoCR(v.value);
      LogicalHead(head, EscapeText(v.value));
      LogicalHead(head, Upper(EscapeText(v.value)));
    }
  }

  lemma WhenLinesLogical(w: When)
    ensures LogicalLine(StartLine(w)) && LogicalLine(EndLine(w))
  {
    match w {
      case OnDate(d) =>
        FormatsNoCR(d, DateTimeFields(1970, 1, 1, 0, 0, 0));
        LogicalHead("DTSTART;VALUE=DATE:", FormatDate(d));
        LogicalHead("DTEND;VALUE=DATE:", FormatDate(d));
      case AtTime(t) =>
        FormatsNoCR(DateFields(1970, 1, 1), t);
        LogicalHead("DTSTART:", FormatDateTimeUtc(t));
        LogicalHead("DTEND:", FormatDateTimeUtc(t));
    }
  }

  lemma SingleLogical(l: string)
    requires LogicalLine(l)
    ensures AllLogical([l])
  {
  }

  lemma TimeLinesLogical(e: IcsEvent)
    ensures AllLogical(TimeLines(e))
  {
    var u, d, st := "UID:" + EscapeText(e.uid), "DTSTAMP:" + FormatDateTimeUtc(e.dtstamp), StartLine(e.dtstart);
    EscapedNoCR(e.uid);
    FormatsNoCR(DateFields(1970, 1, 1), e.dtstamp);
    LogicalHead("UID:", EscapeText(e.uid));
    LogicalHead("DTSTAMP:", FormatDateTimeUtc(e.dtstamp));
    WhenLinesLogical(e.dtstart);
    SingleLogical(u);
    SingleLogical(d);
    SingleLogical(st);
    if e.dtend.Some? {
      WhenLinesLogical(e.dtend.value);
      SingleLogical(EndLine(e.dtend.value));
    }
    AllLogicalAppend([u], [d]);
    AllLogicalAppend([u] + [d], [st]);
    AllLogicalAppend([u] + [d] + [st], EndLines(e.dtend));
  }

  /** The source's escaped rule never holds a CR; a rule written verbatim
      keeps its line intact only when it holds none. */
  predicate RecurWritable(e: IcsEvent, style: RecurStyle) {
    style == AsText || !Truthy(e.rrule) || NoCR(e.rrule.value)
  }

  predicate AllRecurWritable(events: seq<IcsEvent>, style: RecurStyle) {
    forall i :: 0 <= i < |events| ==> RecurWritable(events[i], style)
  }

  lemma PropertyLinesLogical(e: IcsEvent, style: RecurStyle)
    requires RecurWritable(e, style)
    ensures AllLogical(PropertyLines(e, style))
  {
    TextLinesLogical("SUMMARY:", e.summary);
    TextLinesLogical("DESCRIPTION:", e.description);
    TextLinesLogical("LOCATION:", e.location);
    TextLinesLogical("STATUS:", e.status);
    TextLinesLogical("TRANSP:", e.transp);
    TextLinesLogical("URL:", e.url);
    if style == AsText {
      TextLinesLogical("RRULE:", e.rrule);
    } else if Truthy(e.rrule) {
      LogicalHead("RRULE:", e.rrule.value);
    }
    var a := TextLine("SUMMARY:", e.summary);
    AllLogicalAppend(a, TextLine("DESCRIPTION:", e.description));
    a := a + TextLine("DESCRIPTION:", e.description);
    AllLogicalAppend(a, TextLine("LOCATION:", e.location));
    a := a + TextLine("LOCATION:", e.location);
    AllLogicalAppend(a, UpperTextLine("STATUS:", e.status));
    a := a + UpperTextLine("STATUS:", e.status);
    AllLogicalAppend(a, UpperTextLine("TRANSP:", e.transp));
    a := a + UpperTextLine("TRANSP:", e.transp);
    AllLogicalAppend(a, TextLine("URL:", e.url));
    a := a + TextLine("URL:", e.url);
    AllLogicalAppend(a, RuleLine(style, e.rrule));
  }

  lemma MarkersLogical()
    ensures AllLogical(["BEGIN:VEVENT"]) && AllLogical(["END:VEVENT"]) && AllLogical(["END:VCALENDAR"])
  {
  }

  lemma EventLinesLogical(e: IcsEvent, style: RecurStyle)
    requires RecurWritable(e, style)
    ensures AllLogical(EventLines(e, style))
  {
    var b, t, p, z := ["BEGIN:VEVENT"], TimeLines(e), PropertyLines(e, style), ["END:VEVENT"];
    MarkersLogical();
    TimeLinesLogical(e);
    PropertyLinesLogical(e, style);
    AllLogicalAppend(b, t);
    AllLogicalAppend(b + t, p);
    AllLogicalAppend(b + t + p, z);
  }

  lemma {:induction false} EventsLinesLogical(events: seq<IcsEvent>, style: RecurStyle)
    requires AllRecurWritable(events, style)
    ensures AllLogical(EventsLines(events, style))
    decreases |events|
  {
    if events != [] {
      EventsLinesLogical(events[..|events| - 1], style);
      EventLinesLogical(events[|events| - 1], style);
      AllLogicalAppend(EventsLines(events[..|events| - 1], style), EventLines(events[|events| - 1], style));
    }
  }

  /** PRODID is written without escaping, so only a CR-free identifier
      keeps the header's lines apart. */
  lemma HeaderLogical(prodid: string, calname: string)
    requires NoCR(prodid)
    ensures AllLogical(HeaderLines(prodid, calname))
  {
    EscapedNoCR(calname);
    LogicalHead("PRODID:", prodid);
    LogicalHead("X-WR-CALNAME:", EscapeText(calname));
    LogicalHead("NAME:", EscapeText(calname));
    HeaderLiteralsLogical();
    AllLogicalSeven(HeaderLines(prodid, calname), "BEGIN:VCALENDAR", "VERSION:2.0",
      "PRODID:" + prodid, "CALSCALE:GREGORIAN", "METHOD:PUBLISH",
      "X-WR-CALNAME:" + EscapeText(calname), "NAME:" + EscapeText(calname));
  }

  lemma HeaderLiteralsLogical()
    ensures LogicalLine("BEGIN:VCALENDAR") && LogicalLine("VERSION:2.0")
    ensures LogicalLine("CALSCALE:GREGORIAN") && LogicalLine("METHOD:PUBLISH")
  {
  }

  lemma AllLogicalSeven(whole: seq<string>, a: string, b: string, c: string, d: string,
                        e: string, f: string, g: string)
    requires whole == [a, b, c, d, e, f, g]
    requires LogicalLine(a) && LogicalLine(b) && LogicalLine(c) && LogicalLine(d)
    requires LogicalLine(e) && LogicalLine(f) && LogicalLine(g)
    ensures AllLogical(whole)
  {
  }

  lemma CalendarLogical(events: seq<IcsEvent>, prodid: string, calname: string, style: RecurStyle)
    requires NoCR(prodid) && AllRecurWritable(events, style)
    ensures AllLogical(CalendarLines(events, prodid, calname, style))
  {
    var h, b, f := HeaderLines(prodid, calname), EventsLines(events, style), ["END:VCALENDAR"];
    MarkersLogical();
    HeaderLogical(prodid, calname);
    EventsLinesLogical(events, style);
    AllLogicalAppend(h, b);
    AllLogicalAppend(h + b, f);
  }

  /** Unfolding the rendered document (section 3.1 of RFC 5545) gives back
      exactly the logical lines, each terminated by CRLF. */
  lemma CalendarUnfolds(events: seq<IcsEvent>, prodid: string, calname: string, style: RecurStyle)
    requires NoCR(prodid) && AllRecurWritable(events, style)
    ensures Unfold(Document(CalendarLines(events, prodid, calname, style)))
      == Join(CalendarLines(events, prodid, calname, style), CRLF) + CRLF
  {
    CalendarLogical(events, prodid, calname, style);
    UnfoldDocument(CalendarLines(events, prodid, calname, style));
  }

  /** With the source's RRULE writer, a CR-free PRODID is the only
      condition: every other value of the document is escaped. */
  lemma CalendarUnfoldsAsWritten(events: seq<IcsEvent>, prodid: string, calname: string)
    requires NoCR(prodid)
    ensures Unfold(Document(CalendarLines(events, prodid, calname, AsText)))
      == Join(CalendarLines(events, prodid, calname, AsText), CRLF) + CRLF
  {
    CalendarUnfolds(events, prodid, calname, AsText);
  }

  /** The feed's own call, with the default PRODID and calendar name,
      unfolds to its logical lines for every list of events. */
  lemma DefaultCalendarUnfolds(events: seq<IcsEvent>)
    ensures Unfold(Document(CalendarLines(events, DefaultProdId, DefaultCalName, AsText)))
      == Join(CalendarLines(events, DefaultProdId, DefaultCalName, AsText), CRLF) + CRLF
  {
    DefaultsNoCR();
    CalendarUnfoldsAsWritten(events, DefaultProdId, DefaultCalName);
  }

  lemma DefaultsNoCR()
    ensures NoCR(DefaultProdId)
  {
  }

  // ---------------------------------------------------------------------
  // The envelope of the document.

  predicate EndsWith(s: string, t: string) {
    |t| <= |s| && s[|s| - |t|..] == t
  }

  lemma {:induction false} DocumentEnvelope(lines: seq<string>)
    requires |lines| >= 3
    requires |lines[0]| <= FoldLimit && |lines[1]| <= FoldLimit && |lines[|lines| - 1]| <= FoldLimit
    ensures lines[0] + CRLF + lines[1] + CRLF <= Document(lines)
    ensures EndsWith(Document(lines), CRLF + lines[|lines| - 1] + CRLF)
  {
    var f, n := FoldedLines(lines), |lines|;
    FoldTextStep(lines[0], FoldLimit);
    FoldTextStep(lines[1], FoldLimit);
    FoldTextStep(lines[n - 1], FoldLimit);
    var j2 := Join(f[2..], CRLF);
    assert f[1..][1..] == f[2..];
    assert Join(f, CRLF) == lines[0] + CRLF + (lines[1] + CRLF + j2);
    assert Document(lines) == lines[0] + CRLF + lines[1] + CRLF + (j2 + CRLF);
    assert f == f[..n - 1] + [f[n - 1]];
    JoinAppend(f[..n - 1], [f[n - 1]], CRLF);
    var d, j := Document(lines), Join(f[..n - 1], CRLF);
    assert d == j + (CRLF + lines[n - 1] + CRLF);
  }

  /** The document opens with BEGIN:VCALENDAR and VERSION:2.0 and closes
      with END:VCALENDAR and a final CRLF. */
  lemma CalendarEnvelope(events: seq<IcsEvent>, prodid: string, calname: string, style: RecurStyle)
    ensures "BEGIN:VCALENDAR\r\nVERSION:2.0\r\n" <= Document(CalendarLines(events, prodid, calname, style))
    ensures EndsWith(Document(CalendarLines(events, prodid, calname, style)), "\r\nEND:VCALENDAR\r\n")
  {
    var lines := CalendarLines(events, prodid, calname, style);
    CalendarEnds(events, prodid, calname, style);
    DocumentEnvelope(lines);
    EnvelopeLiterals();
  }

  lemma CalendarEnds(events: seq<IcsEvent>, prodid: string, calname: string, style: RecurStyle)
    ensures var lines := CalendarLines(events, prodid, calname, style);
      && |lines| >= 8
      && lines[0] == "BEGIN:VCALENDAR" && lines[1] == "VERSION:2.0"
      && lines[|lines| - 1] == "END:VCALENDAR"
  {
    var h := HeaderLines(prodid, calname);
    assert h[0] == "BEGIN:VCALENDAR" && h[1] == "VERSION:2.0" && |h| == 7;
    ConcatEnds(h, EventsLines(events, style), ["END:VCALENDAR"]);
  }

  lemma ConcatEnds(a: seq<string>, b: seq<string>, c: seq<string>)
    requires |a| >= 2 && |c| >= 1
    ensures var s := a + b + c;
      s[0] == a[0] && s[1] == a[1] && s[|s| - 1] == c[|c| - 1] && |s| == |a| + |b| + |c|
  {
  }

  lemma EnvelopeLiterals()
    ensures "BEGIN:VCALENDAR" + CRLF + "VERSION:2.0" + CRLF == "BEGIN:VCALENDAR\r\nVERSION:2.0\r\n"
    ensures CRLF + "END:VCALENDAR" + CRLF == "\r\nEND:VCALENDAR\r\n"
  {
  }

  // ---------------------------------------------------------------------
  // Values read back.

  /** A head followed by its value: the value is what follows the head. */
  lemma HeadValue(head: string, v: string)
    ensures head <= head + v && (head + v)[|head|..] == v
  {
  }

  /** The calendar name is written escaped in both naming properties:
      each value is of the escaped shape and reads back as the name, with
      its line breaks as LF. */
  lemma CalendarNameLines(events: seq<IcsEvent>, prodid: string, calname: string, style: RecurStyle)
    ensures var lines := CalendarLines(events, prodid, calname, style);
      && |lines| >= 8
      && "X-WR-CALNAME:" <= lines[5] && "NAME:" <= lines[6]
      && lines[5][13..] == lines[6][5..]
      && Escaped(lines[5][13..])
      && Unescape(lines[5][13..]) == NormalizeNewlines(calname)
  {
    var h := HeaderLines(prodid, calname);
    NameSlots(h, EventsLines(events, style), ["END:VCALENDAR"]);
    HeadValue("X-WR-CALNAME:", EscapeText(calname));
    HeadValue("NAME:", EscapeText(calname));
    EscapeRoundTrip(calname);
    EscapeTextEscaped(calname);
  }

  lemma NameSlots(a: seq<string>, b: seq<string>, c: seq<string>)
    requires |a| == 7 && |c| == 1
    ensures var s := a + b + c; |s| >= 8 && s[5] == a[5] && s[6] == a[6]
  {
  }

  /** DTSTART and DTEND carry the date or date-time in the layout that
      reads back as the same value. */
  lemma WhenLinesRead(w: When)
    ensures w.OnDate? ==> "DTSTART;VALUE=DATE:" <= StartLine(w) && ParseDate(StartLine(w)[19..]) == Some(w.date)
    ensures w.OnDate? ==> "DTEND;VALUE=DATE:" <= EndLine(w) && ParseDate(EndLine(w)[17..]) == Some(w.date)
    ensures w.AtTime? ==> "DTSTART:" <= StartLine(w) && ParseDateTimeUtc(StartLine(w)[8..]) == Some(w.instant)
    ensures w.AtTime? ==> "DTEND:" <= EndLine(w) && ParseDateTimeUtc(EndLine(w)[6..]) == Some(w.instant)
  {
    match w {
      case OnDate(d) =>
        HeadValue("DTSTART;VALUE=DATE:", FormatDate(d));
        HeadValue("DTEND;VALUE=DATE:", FormatDate(d));
        FormatDateRoundTrip(d);
      case AtTime(t) =>
        HeadValue("DTSTART:", FormatDateTimeUtc(t));
        HeadValue("DTEND:", FormatDateTimeUtc(t));
        FormatDateTimeRoundTrip(t);
    }
  }

  // ---------------------------------------------------------------------
  // RRULE escaping in the source.

  /** The source escapes the RRULE value like free text, so any rule with a
      `;` or `,` separator (every rule with more than one part) is written
      differently from the rule itself. */
  lemma RecurEscapedAsWritten(v: string, i: int)
    requires 0 <= i < |v| && (v[i] == ';' || v[i] == ',')
    ensures RecurLineAsWritten(Some(v)) != RecurLine(Some(v))
    ensures RecurLine(Some(v)) == ["RRULE:" + v]
  {
    EscapeIdentityIff(v);
    assert Special(v[i]);
    var w := "RRULE:" + EscapeText(v);
    assert w[6..] == EscapeText(v);
    assert ("RRULE:" + v)[6..] == v;
  }

  /** A weekly rule on Mondays and Wednesdays: the as-written line carries
      `\;` and `\,`, which are not part of the rule's syntax. */
  lemma RecurEscapedExample()
    ensures RecurLineAsWritten(Some("FREQ=WEEKLY;BYDAY=MO,WE"))
      != RecurLine(Some("FREQ=WEEKLY;BYDAY=MO,WE"))
  {
    RecurEscapedAsWritten("FREQ=WEEKLY;BYDAY=MO,WE", 11);
  }
}
