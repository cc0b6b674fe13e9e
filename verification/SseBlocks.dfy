/** What the parser makes of one event of any shape: fields in any order and number, with or
    without a space behind the colon, comments and unknown fields between them. */
module SseBlocks {
  import opened Wrappers
  import opened Seqs
  import opened Decimal
  import opened SseParsing
  import opened SseChunks
  import opened SseWire

  // ── Lines that are fields ─────────────────────────────────────────────

  /** How a field is written: "name: value", "name:value", or "name" alone. */
  datatype Style = Spaced | Tight | Bare

  datatype Entry = Field(name: string, value: string, style: Style) | Comment(text: string)

  predicate Sound(e: Entry) {
    match e
    case Comment(text) => OneLineText(text)
    case Field(name, value, style) =>
      && name != "" && ':' !in name && OneLineText(name) && OneLineText(value)
      && (style == Tight ==> value == "" || value[0] != ' ')
      && (style == Bare ==> value == "")
  }

  function Text(e: Entry): string {
    match e
    case Comment(text) => ":" + text
    case Field(name, value, Spaced) => name + ": " + value
    case Field(name, value, Tight) => name + ":" + value
    case Field(name, value, Bare) => name
  }

  function Texts(es: seq<Entry>): seq<string> {
    seq(|es|, k requires 0 <= k < |es| => Text(es[k]))
  }

  // ── What a block of fields means ──────────────────────────────────────

  /** The values of the fields of this name, in order. */
  function Values(es: seq<Entry>, name: string): seq<string> {
    if es == [] then []
    else
      var n := |es| - 1;
      Values(es[..n], name) + if es[n].Field? && es[n].name == name then [es[n].value] else []
  }

  /** The texts, one line each. */
  function JoinedLines(texts: seq<string>): string {
    if texts == [] then ""
    else if |texts| == 1 then texts[0]
    else JoinedLines(texts[..|texts| - 1]) + "\n" + texts[|texts| - 1]
  }

  /** The last of them, or what there was before. */
  function Latest(texts: seq<string>, before: string): string {
    if texts == [] then before else texts[|texts| - 1]
  }

  function WithoutNul(texts: seq<string>): seq<string> {
    if texts == [] then []
    else
      var n := |texts| - 1;
      WithoutNul(texts[..n]) + if '\0' in texts[n] then [] else [texts[n]]
  }

  function LatestNumber(texts: seq<string>, before: Option<nat>): Option<nat> {
    if texts == [] then before
    else
      var n := |texts| - 1;
      if ParseU64(texts[n]).Some? then ParseU64(texts[n]) else LatestNumber(texts[..n], before)
  }

  /** The parser's fields after these lines, when it began between two events. */
  function Gathered(f: Fields, es: seq<Entry>): Fields {
    Fields(
      Latest(Values(es, "event"), f.eventType),
      JoinedLines(Values(es, "data")),
      Values(es, "data") != [],
      Latest(WithoutNul(Values(es, "id")), f.id),
      f.lastEventId,
      LatestNumber(Values(es, "retry"), f.retryMs))
  }

  // ── One line ──────────────────────────────────────────────────────────

  /** The effect of one line on the fields gathered so far. */
  function Noted(f: Fields, e: Entry): Fields {
    if e.Comment? then f
    else if e.name == "event" then f.(eventType := e.value)
    else if e.name == "data" then
      f.(data := if f.hasData then f.data + "\n" + e.value else e.value, hasData := true)
    else if e.name == "id" then (if '\0' in e.value then f else f.(id := e.value))
    else if e.name == "retry" then
      (if ParseU64(e.value).Some? then f.(retryMs := ParseU64(e.value)) else f)
    else f
  }

  lemma FieldIsCut(e: Entry)
    requires Sound(e) && e.Field?
    ensures Text(e) != "" && Text(e)[0] != ':' && FieldOf(Text(e)) == (e.name, e.value)
  {
    var line := Text(e);
    assert line[0] == e.name[0] && e.name[0] in e.name;
    if e.style == Bare {
      FindNone(line, ':');
    } else {
      assert line[..|e.name|] == e.name;
      FindIs(line, ':', |e.name|);
      var value := line[|e.name| + 1..];
      if e.style == Spaced {
        assert value == " " + e.value;
      } else {
        assert value == e.value;
      }
    }
  }

  lemma LineIsNoted(f: Fields, e: Entry)
    requires Sound(e) && (!f.hasData ==> f.data == "")
    ensures ProcessLine(f, Text(e)) == (Noted(f, e), None)
  {
    hide FieldOf, SetField, Noted, Sound;
    if e.Comment? {
      assert Text(e)[0] == ':';
      CommentIsNoted(f, e);
    } else {
      FieldIsCut(e);
      SetIsNoted(f, e);
    }
  }

  lemma CommentIsNoted(f: Fields, e: Entry)
    requires e.Comment?
    ensures Noted(f, e) == f
  {
  }

  lemma SetIsNoted(f: Fields, e: Entry)
    requires e.Field? && (!f.hasData ==> f.data == "")
    ensures SetField(f, e.name, e.value) == Noted(f, e)
  {
    hide ParseU64;
    assert "" + e.value == e.value;
  }

  lemma ValuesNext(es: seq<Entry>, e: Entry, name: string)
    ensures Values(es + [e], name) == Values(es, name) + if e.Field? && e.name == name then [e.value] else []
  {
    assert (es + [e])[..|es|] == es;
  }

  lemma JoinedNext(texts: seq<string>, text: string)
    ensures JoinedLines(texts + [text]) == if texts == [] then text else JoinedLines(texts) + "\n" + text
  {
    assert (texts + [text])[..|texts|] == texts;
  }

  lemma WithoutNulNext(texts: seq<string>, text: string)
    ensures WithoutNul(texts + [text]) == WithoutNul(texts) + if '\0' in text then [] else [text]
  {
    assert (texts + [text])[..|texts|] == texts;
  }

  lemma NumberNext(texts: seq<string>, text: string, before: Option<nat>)
    ensures LatestNumber(texts + [text], before)
            == if ParseU64(text).Some? then ParseU64(text) else LatestNumber(texts, before)
  {
    hide ParseU64;
    assert (texts + [text])[..|texts|] == texts;
  }

  lemma GatheredNext(f: Fields, es: seq<Entry>, e: Entry)
    ensures Gathered(f, es + [e]) == Noted(Gathered(f, es), e)
  {
    hide ParseU64, Values, JoinedLines, WithoutNul, LatestNumber;
    ValuesNext(es, e, "event");
    ValuesNext(es, e, "data");
    ValuesNext(es, e, "id");
    ValuesNext(es, e, "retry");
    assert Values(es, "event") + [] == Values(es, "event") && Values(es, "data") + [] == Values(es, "data");
    assert Values(es, "id") + [] == Values(es, "id") && Values(es, "retry") + [] == Values(es, "retry");
    if e.Field? {
      JoinedNext(Values(es, "data"), e.value);
      WithoutNulNext(Values(es, "id"), e.value);
      NumberNext(Values(es, "retry"), e.value, f.retryMs);
    }
  }

  lemma GatheredNothing(f: Fields)
    requires !f.hasData && f.data == ""
    ensures Gathered(f, []) == f
  {
  }

  /** Data gathered so far is empty as long as there was none. */
  lemma GatheredData(f: Fields, es: seq<Entry>)
    ensures !Gathered(f, es).hasData ==> Gathered(f, es).data == ""
  {
  }

  lemma ProcessLast(f: Fields, lines: seq<string>, line: string, g: Fields, h: Fields, events: seq<Event>,
                    event: Option<Event>)
    requires ProcessLines(f, lines) == (g, events) && ProcessLine(g, line) == (h, event)
    ensures ProcessLines(f, lines + [line]) == (h, events + EventsOf(event))
  {
    hide ProcessLine;
    OneProcessed(g, line);
    ProcessAppend(f, lines, [line]);
  }

  lemma {:induction false} BlockIsGathered(f: Fields, es: seq<Entry>)
    requires !f.hasData && f.data == "" && forall e :: e in es ==> Sound(e)
    ensures ProcessLines(f, Texts(es)) == (Gathered(f, es), [])
  {
    hide ProcessLine, ProcessLines, Gathered, Sound, Text;
    if es == [] {
      GatheredNothing(f);
      NoLines(f);
    } else {
      var n := |es| - 1;
      var e := es[n];
      assert e in es;
      BlockIsGathered(f, es[..n]);
      assert es == es[..n] + [e];
      GatheredNext(f, es[..n], e);
      GatheredData(f, es[..n]);
      LineIsNoted(Gathered(f, es[..n]), e);
      assert Texts(es) == Texts(es[..n]) + [Text(e)];
      ProcessLast(f, Texts(es[..n]), Text(e), Gathered(f, es[..n]), Gathered(f, es), [], None);
      NoEvents();
    }
  }

  lemma NoEvents()
    ensures [] + EventsOf(None) == []
  {
  }

  lemma NoLines(f: Fields)
    ensures ProcessLines(f, []) == (f, []) && Texts([]) == []
  {
  }

  // ── One event ─────────────────────────────────────────────────────────

  /** What a blank line makes of the fields: an event if there was any data. */
  function Dispatched(g: Fields): (Fields, seq<Event>) {
    if g.hasData then
      (Fields("", "", false, "", if g.id == "" then g.lastEventId else g.id, g.retryMs),
       [Event(if g.eventType == "" then "message" else g.eventType, g.data, g.id)])
    else (Fields("", g.data, false, g.id, g.lastEventId, g.retryMs), [])
  }

  lemma BlankIs(g: Fields)
    ensures ProcessLine(g, "").0 == Dispatched(g).0 && EventsOf(ProcessLine(g, "").1) == Dispatched(g).1
  {
  }

  /** Whatever fields stand before a blank line, from any state between two events: if there
      is a data field, exactly one event is dispatched; its data is the texts of all data
      fields, each on a line of its own, its type the last event field or "message", and its
      id the last one without NUL; without a data field there is no event. */
  lemma {:induction false} BlockDispatches(f: Fields, es: seq<Entry>)
    requires !f.hasData && f.data == "" && forall e :: e in es ==> Sound(e)
    ensures ProcessLines(f, Texts(es) + [""]) == Dispatched(Gathered(f, es))
  {
    hide ProcessLine, ProcessLines, Gathered, Sound, Dispatched;
    BlockIsGathered(f, es);
    var g := Gathered(f, es);
    BlankIs(g);
    ProcessLast(f, Texts(es), "", g, ProcessLine(g, "").0, [], ProcessLine(g, "").1);
    assert [] + EventsOf(ProcessLine(g, "").1) == EventsOf(ProcessLine(g, "").1);
  }

  // ── Any line ends, any chunks ─────────────────────────────────────────

  /** Lines, each ended by LF or each ended by CR and LF. */
  function Ended(lines: seq<string>, crLf: bool): string {
    if lines == [] then ""
    else lines[0] + (if crLf then "\r\n" else "\n") + Ended(lines[1..], crLf)
  }

  lemma SplitEnded(line: string, rest: string, crLf: bool)
    requires OneLineText(line)
    ensures var buf := line + (if crLf then "\r\n" else "\n") + rest;
      Split(buf) == ([line] + Split(rest).0, Split(rest).1)
  {
    if crLf {
      var buf := line + "\r\n" + rest;
      var pos := |line| + 1;
      assert buf[..pos] == line + "\r" && buf[pos] == '\n';
      FindIs(buf, '\n', pos);
      assert LineAt(buf, pos) == line;
      assert RestAt(buf, pos) == rest;
      SplitOne(buf, pos);
    } else {
      SplitLine(line, rest);
    }
  }

  lemma {:induction false} SplitAllEnded(lines: seq<string>, crLf: bool)
    requires forall l :: l in lines ==> OneLineText(l)
    ensures Split(Ended(lines, crLf)) == (lines, "")
  {
    hide Split;
    if lines == [] {
      SplitOfNothing();
    } else {
      assert lines[0] in lines;
      SplitAllEnded(lines[1..], crLf);
      SplitEnded(lines[0], Ended(lines[1..], crLf), crLf);
      assert [lines[0]] + lines[1..] == lines;
    }
  }

  /** With no LF in sight, a CR that is not last ends a line too. */
  lemma CrEndsLine(line: string, rest: string)
    requires OneLineText(line) && rest != "" && '\n' !in rest
    ensures Split(line + "\r" + rest) == ([line] + Split(rest).0, Split(rest).1)
  {
    var buf := line + "\r" + rest;
    assert buf[..|line|] == line;
    FindNone(buf, '\n');
    FindIs(buf, '\r', |line|);
    assert |line| > 0 ==> buf[|line| - 1] in line;
    assert buf[|line| + 1] == rest[0] && rest[0] in rest;
    assert LineAt(buf, |line|) == line;
    assert RestAt(buf, |line|) == rest;
    SplitOne(buf, |line|);
  }

  lemma ClearAppend(line: string, rest: string, crLf: bool)
    requires OneLineText(line) && CrOnlyBeforeLf(rest)
    ensures CrOnlyBeforeLf(line + (if crLf then "\r\n" else "\n") + rest)
  {
    var end := if crLf then "\r\n" else "\n";
    var s := line + end + rest;
    assert forall k :: 0 <= k < |line| ==> s[k] == line[k] && line[k] != '\r';
    forall i | 0 <= i && i + 1 < |s| && s[i] == '\r' ensures s[i + 1] == '\n' {
      if i >= |line| + |end| {
        assert rest[i - |line| - |end|] == '\r';
      }
    }
  }

  lemma {:induction false} EndedIsClear(lines: seq<string>, crLf: bool)
    requires forall l :: l in lines ==> OneLineText(l)
    ensures CrOnlyBeforeLf(Ended(lines, crLf))
  {
    hide CrOnlyBeforeLf;
    if lines == [] {
      NothingIsClear();
    } else {
      assert lines[0] in lines;
      EndedIsClear(lines[1..], crLf);
      ClearAppend(lines[0], Ended(lines[1..], crLf), crLf);
    }
  }

  lemma NothingIsClear()
    ensures CrOnlyBeforeLf("")
  {
  }

  lemma TextIsClean(e: Entry)
    requires Sound(e)
    ensures OneLineText(Text(e))
  {
  }

  /** The same for the text of the block, its lines ended by LF or by CR and LF, in whatever
      chunks it arrives. */
  lemma BlockInChunks(f: Fields, es: seq<Entry>, crLf: bool, chunks: seq<string>)
    requires !f.hasData && f.data == "" && forall e :: e in es ==> Sound(e)
    requires Concat(chunks) == Ended(Texts(es) + [""], crLf)
    ensures var (g, events) := Dispatched(Gathered(f, es));
      FeedChunks(Parser(f, ""), chunks) == (Parser(g, ""), events)
  {
    hide ProcessLine, ProcessLines, Split, Sound, Text, Gathered, Dispatched, CrOnlyBeforeLf, OneLineText;
    var lines := Texts(es) + [""];
    forall l | l in lines ensures OneLineText(l) {
      if l == "" {
        NothingIsClean();
      } else {
        var k :| 0 <= k < |es| && l == Text(es[k]);
        TextIsClean(es[k]);
      }
    }
    EndedIsClear(lines, crLf);
    assert "" + Concat(chunks) == Ended(lines, crLf);
    SplitOfNothing();
    FeedChunksAgree(Parser(f, ""), chunks);
    SplitAllEnded(lines, crLf);
    BlockDispatches(f, es);
  }

  lemma NothingIsClean()
    ensures OneLineText("")
  {
  }

  /** In particular the texts of several data lines become one event with a text of as many
      lines. */
  lemma MultiLineData(f: Fields, texts: seq<string>, crLf: bool, chunks: seq<string>)
    requires !f.hasData && f.data == "" && texts != [] && forall d :: d in texts ==> OneLineText(d)
    requires Concat(chunks) == Ended(seq(|texts|, k requires 0 <= k < |texts| => "data: " + texts[k]) + [""], crLf)
    ensures FeedChunks(Parser(f, ""), chunks).1
            == [Event(if f.eventType == "" then "message" else f.eventType, JoinedLines(texts), f.id)]
  {
    hide ParseU64, FeedChunks, Ended;
    var es := seq(|texts|, k requires 0 <= k < |texts| => Field("data", texts[k], Spaced));
    forall e | e in es ensures Sound(e) {
      DataIsSound(e.value);
    }
    forall k | 0 <= k < |texts| ensures Text(es[k]) == "data: " + texts[k] {
      assert "data" + ": " == "data: ";
    }
    assert Texts(es) == seq(|texts|, k requires 0 <= k < |texts| => "data: " + texts[k]);
    BlockInChunks(f, es, crLf, chunks);
    OnlyData(texts, "data", texts);
    OnlyData(texts, "event", []);
    OnlyData(texts, "id", []);
    OnlyData(texts, "retry", []);
  }

  lemma DataIsSound(text: string)
    requires OneLineText(text)
    ensures Sound(Field("data", text, Spaced))
  {
  }

  lemma {:induction false} OnlyData(texts: seq<string>, name: string, values: seq<string>)
    requires values == if name == "data" then texts else []
    ensures Values(seq(|texts|, k requires 0 <= k < |texts| => Field("data", texts[k], Spaced)), name) == values
  {
    var es := seq(|texts|, k requires 0 <= k < |texts| => Field("data", texts[k], Spaced));
    if texts == [] {
    } else {
      var n := |texts| - 1;
      OnlyData(texts[..n], name, if name == "data" then texts[..n] else []);
      assert es[..n] == seq(n, k requires 0 <= k < n => Field("data", texts[..n][k], Spaced));
    }
  }
}
