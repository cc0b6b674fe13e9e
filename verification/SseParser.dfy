/** The incremental `text/event-stream` parser: a splitter of lines that waits for the
    rest of an incomplete line, and a machine over complete lines. */
module SseParsing {
  import opened Wrappers
  import opened Decimal

  datatype Event = Event(eventType: string, data: string, id: string)

  /** Parser state apart from the line buffer. */
  datatype Fields = Fields(
    eventType: string,
    data: string,
    hasData: bool,
    id: string,
    lastEventId: string,
    retryMs: Option<nat>)

  datatype Parser = Parser(fields: Fields, lineBuf: string)

  const INITIAL: Parser := Parser(Fields("", "", false, "", "", None), "")

  // ── Lines ─────────────────────────────────────────────────────────────

  function Find(s: string, c: char): (r: Option<nat>)
    ensures r.None? ==> c !in s
    ensures r.Some? ==> r.value < |s| && s[r.value] == c && c !in s[..r.value]
  {
    if s == "" then None
    else if s[0] == c then Some(0)
    else match Find(s[1..], c)
      case None => None
      case Some(i) =>
        assert s[..i + 1] == [s[0]] + s[1..][..i];
        Some(i + 1)
  }

  /** The next line break: the first LF, or else the first CR unless it is the last
      character, where an LF may still follow. */
  function NextBreak(buf: string): (r: Option<nat>)
    ensures r.Some? ==> r.value < |buf|
  {
    match Find(buf, '\n')
    case Some(pos) => Some(pos)
    case None =>
      match Find(buf, '\r')
      case None => None
      case Some(r) => if r + 1 < |buf| then Some(r) else None
  }

  function LineAt(buf: string, pos: nat): string
    requires pos < |buf|
  {
    if pos > 0 && buf[pos - 1] == '\r' then buf[..pos - 1] else buf[..pos]
  }

  function RestAt(buf: string, pos: nat): (rest: string)
    requires pos < |buf|
    ensures |rest| < |buf|
  {
    if buf[pos] == '\r' && pos + 1 < |buf| && buf[pos + 1] == '\n' then buf[pos + 2..]
    else buf[pos + 1..]
  }

  /** The complete lines of `buf` and what stays in the buffer. */
  function Split(buf: string): (seq<string>, string)
    decreases |buf|
  {
    match NextBreak(buf)
    case None => ([], buf)
    case Some(pos) =>
      var (lines, rest) := Split(RestAt(buf, pos));
      ([LineAt(buf, pos)] + lines, rest)
  }

  // ── Fields ────────────────────────────────────────────────────────────

  function Dispatch(f: Fields): (Fields, Option<Event>) {
    if !f.hasData then (f.(eventType := ""), None)
    else
      var event := Event(if f.eventType == "" then "message" else f.eventType, f.data, f.id);
      (f.(eventType := "", data := "", hasData := false, id := "",
          lastEventId := if f.id != "" then f.id else f.lastEventId),
       Some(event))
  }

  /** Field name and value of a line, one leading space of the value removed. */
  function FieldOf(line: string): (string, string) {
    match Find(line, ':')
    case None => (line, "")
    case Some(colon) =>
      var value := line[colon + 1..];
      (line[..colon], if value != "" && value[0] == ' ' then value[1..] else value)
  }

  function SetField(f: Fields, field: string, value: string): Fields {
    if field == "event" then f.(eventType := value)
    else if field == "data" then
      f.(data := (if f.hasData then f.data + "\n" else f.data) + value, hasData := true)
    else if field == "id" then
      if '\0' !in value then f.(id := value) else f
    else if field == "retry" then
      match ParseU64(value)
      case Some(ms) => f.(retryMs := Some(ms))
      case None => f
    else f
  }

  function ProcessLine(f: Fields, line: string): (Fields, Option<Event>) {
    if line == "" then Dispatch(f)
    else if line[0] == ':' then (f, None)
    else
      var (field, value) := FieldOf(line);
      (SetField(f, field, value), None)
  }

  function EventsOf(e: Option<Event>): seq<Event> {
    match e case None => [] case Some(event) => [event]
  }

  function ProcessLines(f: Fields, lines: seq<string>): (Fields, seq<Event>)
    decreases |lines|
  {
    if lines == [] then (f, [])
    else
      var (g, event) := ProcessLine(f, lines[0]);
      var (h, events) := ProcessLines(g, lines[1..]);
      (h, EventsOf(event) + events)
  }

  // ── Feeding ───────────────────────────────────────────────────────────

  /** Process every complete line of the buffer. */
  function Drain(f: Fields, buf: string): (Parser, seq<Event>) {
    var (lines, rest) := Split(buf);
    var (fields, events) := ProcessLines(f, lines);
    (Parser(fields, rest), events)
  }

  function FeedChunk(p: Parser, chunk: string): (Parser, seq<Event>) {
    Drain(p.fields, p.lineBuf + chunk)
  }

  lemma EmitNext(events: seq<Event>, event: Option<Event>, more: seq<Event>)
    ensures events + (EventsOf(event) + more)
      == if event.Some? then (events + [event.value]) + more else events + more
  {
  }

  /** Draining takes one line at a time. */
  lemma {:induction false} DrainOne(f: Fields, buf: string)
    ensures NextBreak(buf).None? ==> Drain(f, buf) == (Parser(f, buf), [])
    ensures NextBreak(buf).Some? ==>
      var pos := NextBreak(buf).value;
      var (g, event) := ProcessLine(f, LineAt(buf, pos));
      var (p, events) := Drain(g, RestAt(buf, pos));
      Drain(f, buf) == (p, EventsOf(event) + events)
  {
    hide ProcessLine;
    if NextBreak(buf).Some? {
      var pos := NextBreak(buf).value;
      var lines := Split(buf).0;
      assert lines[0] == LineAt(buf, pos);
      assert lines[1..] == Split(RestAt(buf, pos)).0;
    }
  }

  function FeedChunks(p: Parser, chunks: seq<string>): (Parser, seq<Event>)
    decreases |chunks|
  {
    if chunks == [] then (p, [])
    else
      var (q, events) := FeedChunk(p, chunks[0]);
      var (r, more) := FeedChunks(q, chunks[1..]);
      (r, events + more)
  }

  /** The parser object; `feed` cuts one line at a time from its buffer. */
  class SseParser {
    var eventType: string
    var dataBuf: string
    var hasData: bool
    var eventId: string
    var lastEventId: string
    var retryMs: Option<nat>
    var lineBuf: string

    function FieldsView(): Fields
      reads this
    {
      Fields(eventType, dataBuf, hasData, eventId, lastEventId, retryMs)
    }

    function View(): Parser
      reads this
    {
      Parser(FieldsView(), lineBuf)
    }

    constructor ()
      ensures View() == INITIAL
    {
      eventType, dataBuf, hasData := "", "", false;
      eventId, lastEventId, retryMs, lineBuf := "", "", None, "";
    }

    method Feed(chunk: string) returns (events: seq<Event>)
      modifies this
      ensures (View(), events) == FeedChunk(old(View()), chunk)
    {
      hide ProcessLine, Drain, NextBreak, LineAt, RestAt, EventsOf;
      events := [];
      lineBuf := lineBuf + chunk;
      ghost var goal := Drain(FieldsView(), lineBuf);
      assert goal == FeedChunk(old(View()), chunk);
      while true
        invariant goal.0 == Drain(FieldsView(), lineBuf).0
        invariant goal.1 == events + Drain(FieldsView(), lineBuf).1
        decreases |lineBuf|
      {
        DrainOne(FieldsView(), lineBuf);
        var line := CutLine();
        if line.None? {
          break;
        }
        var event := ProcessOne(line.value);
        EmitNext(events, event, Drain(FieldsView(), lineBuf).1);
        if event.Some? {
          events := events + [event.value];
        }
      }
      assert events + [] == events;
    }

    /** Take the next complete line off the buffer. */
    method CutLine() returns (line: Option<string>)
      modifies this`lineBuf
      ensures match NextBreak(old(lineBuf))
        case None => line.None? && lineBuf == old(lineBuf)
        case Some(pos) => line == Some(LineAt(old(lineBuf), pos)) && lineBuf == RestAt(old(lineBuf), pos)
    {
      var found := Find(lineBuf, '\n');
      if found.None? {
        found := Find(lineBuf, '\r');
        if found.None? || found.value + 1 >= |lineBuf| {
          return None;
        }
      }
      var pos := found.value;
      var end := pos;
      if end > 0 && lineBuf[end - 1] == '\r' {
        end := end - 1;
      }
      line := Some(lineBuf[..end]);
      var consumeTo := pos + 1;
      if lineBuf[pos] == '\r' && pos + 1 < |lineBuf| && lineBuf[pos + 1] == '\n' {
        consumeTo := pos + 2;
      }
      lineBuf := lineBuf[consumeTo..];
    }

    method ProcessOne(line: string) returns (event: Option<Event>)
      modifies this`eventType, this`dataBuf, this`hasData, this`eventId, this`lastEventId, this`retryMs
      ensures (FieldsView(), event) == ProcessLine(old(FieldsView()), line)
    {
      if line == "" {
        event := DispatchEvent();
        return;
      }
      if line[0] == ':' {
        return None;
      }
      var field, value := line, "";
      var colon := Find(line, ':');
      if colon.Some? {
        field, value := line[..colon.value], line[colon.value + 1..];
        if value != "" && value[0] == ' ' {
          value := value[1..];
        }
      }
      match field {
        case "event" => eventType := value;
        case "data" =>
          if hasData {
            dataBuf := dataBuf + "\n";
          }
          hasData := true;
          dataBuf := dataBuf + value;
        case "id" =>
          if '\0' !in value {
            eventId := value;
          }
        case "retry" =>
          var ms := ParseU64(value);
          if ms.Some? {
            retryMs := ms;
          }
        case _ =>
      }
      event := None;
    }

    method DispatchEvent() returns (event: Option<Event>)
      modifies this`eventType, this`dataBuf, this`hasData, this`eventId, this`lastEventId
      ensures (FieldsView(), event) == Dispatch(old(FieldsView()))
    {
      if !hasData {
        eventType := "";
        return None;
      }
      var kind := if eventType == "" then "message" else eventType;
      var data, id := dataBuf, eventId;
      dataBuf, eventId := "", "";
      if id != "" {
        lastEventId := id;
      }
      hasData := false;
      eventType := "";
      event := Some(Event(kind, data, id));
    }
  }
}
