/** The server's printed events, and the client's parser as their inverse. */
module SseWire {
  import opened Wrappers
  import opened Seqs
  import opened Decimal
  import opened SseParsing
  import opened SseChunks

  datatype ServerEvent =
    | Endpoint(url: string)
    | Message(data: string, eventId: nat)
    | Keepalive

  function Serialize(e: ServerEvent): string {
    match e
    case Endpoint(url) => "event: endpoint\ndata: " + url + "\n\n"
    case Message(data, id) => "id: " + Print(id) + "\nevent: message\ndata: " + data + "\n\n"
    case Keepalive => ": keepalive\n\n"
  }

  function Wire(es: seq<ServerEvent>): string {
    if es == [] then "" else Serialize(es[0]) + Wire(es[1..])
  }

  predicate OneLineText(s: string) {
    '\r' !in s && '\n' !in s
  }

  predicate Printable(e: ServerEvent) {
    match e
    case Endpoint(url) => OneLineText(url)
    case Message(data, _) => OneLineText(data)
    case Keepalive => true
  }

  // ── What the client should see ────────────────────────────────────────

  function Seen(e: ServerEvent): Option<Event> {
    match e
    case Endpoint(url) => Some(Event("endpoint", url, ""))
    case Message(data, id) => Some(Event("message", data, Print(id)))
    case Keepalive => None
  }

  function SeenAll(es: seq<ServerEvent>): seq<Event> {
    if es == [] then [] else EventsOf(Seen(es[0])) + SeenAll(es[1..])
  }

  function LastId(start: string, es: seq<ServerEvent>): string
    decreases |es|
  {
    if es == [] then start
    else LastId(if es[0].Message? then Print(es[0].eventId) else start, es[1..])
  }

  // ── Lines of the wire ─────────────────────────────────────────────────

  function LinesOf(e: ServerEvent): seq<string> {
    match e
    case Endpoint(url) => ["event: endpoint", "data: " + url, ""]
    case Message(data, id) => ["id: " + Print(id), "event: message", "data: " + data, ""]
    case Keepalive => [": keepalive", ""]
  }

  function LinesOfAll(es: seq<ServerEvent>): seq<string> {
    if es == [] then [] else LinesOf(es[0]) + LinesOfAll(es[1..])
  }

  function Unlines(lines: seq<string>): string {
    if lines == [] then "" else lines[0] + "\n" + Unlines(lines[1..])
  }

  lemma SplitLine(line: string, rest: string)
    requires OneLineText(line)
    ensures Split(line + "\n" + rest) == ([line] + Split(rest).0, Split(rest).1)
  {
    var buf := line + "\n" + rest;
    assert buf[..|line|] == line;
    FindIs(buf, '\n', |line|);
    assert |line| > 0 ==> buf[|line| - 1] in line;
    assert LineAt(buf, |line|) == line;
    assert RestAt(buf, |line|) == rest;
    SplitOne(buf, |line|);
  }

  lemma {:induction false} SplitUnlines(lines: seq<string>, rest: string)
    requires forall l :: l in lines ==> OneLineText(l)
    ensures Split(Unlines(lines) + rest) == (lines + Split(rest).0, Split(rest).1)
  {
    hide Split;
    if lines == [] {
      assert "" + rest == rest;
      assert lines + Split(rest).0 == Split(rest).0;
    } else {
      SplitUnlines(lines[1..], rest);
      assert lines[0] in lines;
      SplitLine(lines[0], Unlines(lines[1..]) + rest);
      assert Unlines(lines) + rest == lines[0] + "\n" + (Unlines(lines[1..]) + rest);
      assert [lines[0]] + (lines[1..] + Split(rest).0) == lines + Split(rest).0;
    }
  }

  lemma {:induction false} UnlinesAppend(a: seq<string>, b: seq<string>)
    ensures Unlines(a + b) == Unlines(a) + Unlines(b)
  {
    if a == [] {
      assert a + b == b;
    } else {
      assert (a + b)[1..] == a[1..] + b;
      UnlinesAppend(a[1..], b);
    }
  }

  lemma UnlinesThree(a: string, b: string, c: string)
    ensures Unlines([a, b, c]) == a + "\n" + b + "\n" + c + "\n"
    ensures Unlines([b, c]) == b + "\n" + c + "\n"
  {
    assert [a, b, c][1..] == [b, c] && [b, c][1..] == [c] && [c][1..] == [];
    assert Unlines([c]) == c + "\n";
  }

  lemma MessageLines(data: string, id: string)
    ensures Unlines(["id: " + id, "event: message", "data: " + data, ""])
            == "id: " + id + "\nevent: message\ndata: " + data + "\n\n"
  {
    var rest := ["event: message", "data: " + data, ""];
    UnlinesThree(rest[0], rest[1], rest[2]);
    assert (["id: " + id] + rest)[1..] == rest;
    assert "\nevent: message\ndata: " == "\n" + "event: message" + "\n" + "data: ";
  }

  lemma SerializeLines(e: ServerEvent)
    ensures Serialize(e) == Unlines(LinesOf(e))
  {
    hide Print, Unlines;
    match e
    case Endpoint(url) =>
      UnlinesThree("event: endpoint", "data: " + url, "");
    case Message(data, id) => MessageLines(data, Print(id));
    case Keepalive =>
      UnlinesThree("", ": keepalive", "");
  }

  lemma {:induction false} WireLines(es: seq<ServerEvent>)
    ensures Wire(es) == Unlines(LinesOfAll(es))
  {
    if es == [] {
    } else {
      WireLines(es[1..]);
      SerializeLines(es[0]);
      UnlinesAppend(LinesOf(es[0]), LinesOfAll(es[1..]));
    }
  }

  lemma PrintedIdIsClean(n: nat)
    ensures OneLineText("id: " + Print(n)) && '\0' !in Print(n)
  {
    assert forall i :: 0 <= i < |Print(n)| ==> IsDigit(Print(n)[i]);
  }

  lemma {:induction false} LinesAreClean(es: seq<ServerEvent>)
    requires forall e :: e in es ==> Printable(e)
    ensures forall l :: l in LinesOfAll(es) ==> OneLineText(l)
  {
    if es == [] {
    } else {
      LinesAreClean(es[1..]);
      assert Printable(es[0]);
      EventLinesAreClean(es[0]);
    }
  }

  lemma EventLinesAreClean(e: ServerEvent)
    requires Printable(e)
    ensures forall l :: l in LinesOf(e) ==> OneLineText(l)
  {
    hide Print;
    if e.Message? {
      PrintedIdIsClean(e.eventId);
    }
  }

  // ── Events of the lines ───────────────────────────────────────────────

  /** Between two events: nothing accumulated. */
  function Between(lastEventId: string): Fields {
    Fields("", "", false, "", lastEventId, None)
  }

  lemma FieldLine(f: Fields, field: string, value: string)
    requires field != "" && ':' !in field
    ensures ProcessLine(f, field + ": " + value) == (SetField(f, field, value), None)
  {
    var line := field + ": " + value;
    assert line[..|field|] == field;
    assert line[0] in field;
    FindIs(line, ':', |field|);
    assert line[|field| + 1..][1..] == value;
  }

  /** A line that dispatches nothing. */
  lemma ProcessQuiet(f: Fields, line: string, g: Fields, rest: seq<string>)
    requires ProcessLine(f, line) == (g, None)
    ensures ProcessLines(f, [line] + rest) == ProcessLines(g, rest)
  {
    hide ProcessLine;
    assert ([line] + rest)[1..] == rest;
    assert [] + ProcessLines(g, rest).1 == ProcessLines(g, rest).1;
  }

  lemma DataProcessed(f: Fields, data: string)
    requires f.data == "" && !f.hasData
    ensures ProcessLine(f, "data: " + data) == (f.(data := data, hasData := true), None)
  {
    hide ProcessLine;
    assert "" + data == data;
    assert "data" + ": " + data == "data: " + data;
    FieldLine(f, "data", data);
  }

  lemma BlankProcessed(f: Fields)
    requires f.hasData
    ensures ProcessLine(f, "")
            == (Fields("", "", false, "", if f.id != "" then f.id else f.lastEventId, f.retryMs),
                Some(Event(if f.eventType == "" then "message" else f.eventType, f.data, f.id)))
  {
  }

  /** The data line and the blank line after it. */
  lemma DataAndBlank(f: Fields, data: string)
    requires f.data == "" && !f.hasData
    ensures ProcessLines(f, ["data: " + data, ""])
            == (Fields("", "", false, "", if f.id != "" then f.id else f.lastEventId, f.retryMs),
                [Event(if f.eventType == "" then "message" else f.eventType, data, f.id)])
  {
    hide ProcessLine, ProcessLines;
    var g := f.(data := data, hasData := true);
    DataProcessed(f, data);
    BlankProcessed(g);
    var blank: seq<string> := [""];
    OneProcessed(g, "");
    assert ["data: " + data] + blank == ["data: " + data, ""];
    ProcessQuiet(f, "data: " + data, g, blank);
  }

  lemma OneEvent(last: string, e: ServerEvent)
    ensures ProcessLines(Between(last), LinesOf(e))
            == (Between(if e.Message? then Print(e.eventId) else last), EventsOf(Seen(e)))
  {
    hide ProcessLines, ProcessLine;
    match e
    case Endpoint(url) => EndpointEvent(last, url);
    case Message(data, id) => MessageEvent(last, data, id);
    case Keepalive => KeepaliveEvent(last);
  }

  lemma EndpointEvent(last: string, url: string)
    ensures ProcessLines(Between(last), LinesOf(Endpoint(url)))
            == (Between(last), [Event("endpoint", url, "")])
  {
    hide ProcessLines, ProcessLine;
    var f := Between(last).(eventType := "endpoint");
    assert "event" + ": " + "endpoint" == "event: endpoint";
    FieldLine(Between(last), "event", "endpoint");
    DataAndBlank(f, url);
    assert LinesOf(Endpoint(url)) == ["event: endpoint"] + ["data: " + url, ""];
    ProcessQuiet(Between(last), "event: endpoint", f, ["data: " + url, ""]);
  }

  lemma MessageEvent(last: string, data: string, id: nat)
    ensures ProcessLines(Between(last), LinesOf(Message(data, id)))
            == (Between(Print(id)), [Event("message", data, Print(id))])
  {
    hide ProcessLines, ProcessLine, Print;
    PrintedIdIsClean(id);
    var f := Between(last).(id := Print(id));
    var g := f.(eventType := "message");
    assert "id" + ": " + Print(id) == "id: " + Print(id);
    FieldLine(Between(last), "id", Print(id));
    assert "event" + ": " + "message" == "event: message";
    FieldLine(f, "event", "message");
    DataAndBlank(g, data);
    var tail := ["data: " + data, ""];
    assert ["event: message"] + tail == ["event: message", "data: " + data, ""];
    ProcessQuiet(f, "event: message", g, tail);
    assert LinesOf(Message(data, id)) == ["id: " + Print(id)] + ["event: message", "data: " + data, ""];
    ProcessQuiet(Between(last), "id: " + Print(id), f, ["event: message", "data: " + data, ""]);
  }

  lemma KeepaliveEvent(last: string)
    ensures ProcessLines(Between(last), LinesOf(Keepalive)) == (Between(last), [])
  {
    OneProcessed(Between(last), "");
    assert LinesOf(Keepalive) == [": keepalive"] + [""];
    ProcessQuiet(Between(last), ": keepalive", Between(last), [""]);
  }

  lemma {:induction false} AllEvents(last: string, es: seq<ServerEvent>)
    ensures ProcessLines(Between(last), LinesOfAll(es)) == (Between(LastId(last, es)), SeenAll(es))
    decreases |es|
  {
    hide ProcessLine;
    if es == [] {
    } else {
      OneEvent(last, es[0]);
      var next := if es[0].Message? then Print(es[0].eventId) else last;
      AllEvents(next, es[1..]);
      ProcessAppend(Between(last), LinesOf(es[0]), LinesOfAll(es[1..]));
    }
  }

  /** Whatever the chunks the printed events arrive in, one parser yields exactly the
      events other than keepalives, in order, with type, data and decimal id; its line
      buffer ends empty and it holds the id of the last message. */
  lemma {:induction false} RoundTrip(es: seq<ServerEvent>, chunks: seq<string>)
    requires forall e :: e in es ==> Printable(e)
    requires Concat(chunks) == Wire(es)
    ensures FeedChunks(INITIAL, chunks) == (Parser(Between(LastId("", es)), ""), SeenAll(es))
  {
    hide ProcessLine, ProcessLines, Split;
    WireLines(es);
    LinesAreClean(es);
    var lines := LinesOfAll(es);
    UnlinesHasNoCr(lines);
    assert "" + Wire(es) == Wire(es);
    SplitOfNothing();
    NoCrUnambiguous("" + Concat(chunks));
    FeedChunksAgree(INITIAL, chunks);
    SplitUnlines(lines, "");
    assert Unlines(lines) + "" == Unlines(lines);
    var none: seq<string> := [];
    assert lines + none == lines;
    AllEvents("", es);
  }

  lemma SplitOfNothing()
    ensures Split("") == ([], "")
  {
  }

  lemma {:induction false} UnlinesHasNoCr(lines: seq<string>)
    requires forall l :: l in lines ==> OneLineText(l)
    ensures '\r' !in Unlines(lines)
  {
    if lines == [] {
    } else {
      UnlinesHasNoCr(lines[1..]);
      assert lines[0] in lines;
    }
  }
}
