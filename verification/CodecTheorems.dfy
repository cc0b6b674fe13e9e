/** What repeated reads of a child's stdout deliver. */
module CodecTheorems {
  import opened Wrappers
  import opened Codec

  // ── Splitting on LF ───────────────────────────────────────────────────

  /** The lines of a stream, byte by byte: every LF ends one, and bytes after the last LF
      are one more. */
  function Segments(s: Bytes, line: Bytes): seq<Bytes> {
    if s == [] then (if line == [] then [] else [line])
    else if s[0] == LF then [line] + Segments(s[1..], [])
    else Segments(s[1..], line + [s[0]])
  }

  function SplitOnLf(s: Bytes): seq<Bytes> {
    Segments(s, [])
  }

  function UpToLong(lines: seq<Bytes>, max: nat): seq<Bytes> {
    if lines == [] || |lines[0]| >= max then [] else [lines[0]] + UpToLong(lines[1..], max)
  }

  datatype End = AtEof | AtOverflow | AtInvalidUtf8

  /** Line reads repeated until the end of the stream or an overflow. */
  function ReadLines(s: Bytes, max: nat): (seq<Bytes>, End)
    decreases |s|
  {
    match ReadLine(s, max)
    case Eof => ([], AtEof)
    case TooLong(_) => ([], AtOverflow)
    case Text(line) => var (more, end) := ReadLines(Behind(s), max); ([line] + more, end)
  }

  lemma {:induction false} SegmentsFirst(s: Bytes, line: Bytes)
    requires s != []
    ensures var n := LineLength(s);
      Segments(s, line) == if n == |s| && line + s == [] then [] else [line + s[..n]] + Segments(Behind(s), [])
  {
    hide LineLength, Behind;
    FirstByte(s);
    if s[0] == LF {
      assert line + s[..0] == line;
    } else if s[1..] == [] {
      assert s == s[..1] == [s[0]];
      assert [line + s[..1]] + [] == [line + s[..1]];
    } else {
      SegmentsFirst(s[1..], line + [s[0]]);
      var n := LineLength(s);
      assert line + [s[0]] + s[1..][..n - 1] == line + s[..n];
    }
  }

  lemma FirstByte(s: Bytes)
    requires s != []
    ensures if s[0] == LF then LineLength(s) == 0 && Behind(s) == s[1..]
      else LineLength(s) == LineLength(s[1..]) + 1 && Behind(s) == Behind(s[1..])
    ensures LineLength([]) == 0 && Behind([]) == []
  {
  }

  /** Whatever sizes the underlying reads return, the lines delivered are those of
      splitting on LF, in order, up to the first whose length reaches the limit; there the
      reader overflows, and only there. */
  lemma {:induction false} ReadLinesSplitsOnLf(s: Bytes, max: nat)
    ensures var (lines, end) := ReadLines(s, max);
      && lines == UpToLong(SplitOnLf(s), max)
      && (end == AtOverflow <==> exists l :: l in SplitOnLf(s) && |l| >= max)
      && (end == AtEof || end == AtOverflow)
    decreases |s|
  {
    if s == [] {
    } else {
      SegmentsFirst(s, []);
      var first := s[..LineLength(s)];
      assert [] + first == first;
      assert SplitOnLf(s) == [first] + SplitOnLf(Behind(s));
      assert SplitOnLf(s)[0] == first && SplitOnLf(s)[1..] == SplitOnLf(Behind(s));
      ReadLinesSplitsOnLf(Behind(s), max);
      assert first in SplitOnLf(s);
      assert forall l :: l in SplitOnLf(s) <==> l == first || l in SplitOnLf(Behind(s));
    }
  }

  lemma ReadLinesNext(s: Bytes, max: nat)
    ensures match ReadLine(s, max)
      case Eof => ReadLines(s, max) == ([], AtEof)
      case TooLong(_) => ReadLines(s, max) == ([], AtOverflow)
      case Text(line) =>
        && |Behind(s)| < |s|
        && ReadLines(s, max) == ([line] + ReadLines(Behind(s), max).0, ReadLines(Behind(s), max).1)
  {
    hide LineLength;
  }

  /** Line reads repeated on the reader itself. */
  method ReadAllLines(codec: StdoutCodec) returns (lines: seq<Bytes>, end: End)
    requires codec.Valid()
    modifies codec`buf, codec`peak, codec.reader
    ensures codec.Valid()
    ensures (lines, end) == ReadLines(old(codec.reader.rest), codec.maxBuffer)
  {
    hide ReadLines, ReadLine, Behind;
    lines := [];
    ghost var goal := ReadLines(codec.reader.rest, codec.maxBuffer);
    assert [] + goal.0 == goal.0;
    while true
      invariant codec.Valid()
      invariant goal.0 == lines + ReadLines(codec.reader.rest, codec.maxBuffer).0
      invariant goal.1 == ReadLines(codec.reader.rest, codec.maxBuffer).1
      decreases |codec.reader.rest|
    {
      ReadLinesNext(codec.reader.rest, codec.maxBuffer);
      assert lines + [] == lines;
      ghost var more := ReadLines(Behind(codec.reader.rest), codec.maxBuffer).0;
      var r := codec.ReadLineRaw();
      if r.Err? {
        return lines, AtOverflow;
      }
      if r.value.None? {
        return lines, AtEof;
      }
      assert lines + ([r.value.value] + more) == (lines + [r.value.value]) + more;
      lines := lines + [r.value.value];
    }
  }

  // ── Messages ──────────────────────────────────────────────────────────

  datatype Session<M> = Session(messages: seq<M>, counted: nat, end: End)

  /** Message reads repeated until the end of the stream or a fatal error. */
  function ReadSession<M>(f: Format<M>, s: Bytes, max: nat): Session<M>
    decreases |s|
  {
    var r := NextMessage(f, s, max);
    match r.result
    case Ok(None) => Session([], r.counted, AtEof)
    case Err(InvalidUtf8) => Session([], r.counted, AtInvalidUtf8)
    case Err(_) => Session([], r.counted, AtOverflow)
    case Ok(Some(m)) =>
      NextMessageShrinks(f, s, max);
      var rest := ReadSession(f, r.rest, max);
      Session([m] + rest.messages, r.counted + rest.counted, rest.end)
  }

  lemma {:induction false} NextMessageShrinks<M>(f: Format<M>, s: Bytes, max: nat)
    ensures var r := NextMessage(f, s, max); r.result.Ok? && r.result.value.Some? ==> |r.rest| < |s|
    decreases |s|
  {
    if ReadLine(s, max).Text? {
      NextMessageShrinks(f, Behind(s), max);
    }
  }

  // ── The reader thread ─────────────────────────────────────────────────

  /** What the reader thread does to a receiver that takes `takes` items and then goes
      away: the items it takes, the errors counted, and whether the child is declared dead. */
  datatype Forwarded<M> = Forwarded(items: seq<Result<M, End>>, counted: nat, dead: bool)

  function EndOf(e: CodecError): End {
    match e case InvalidUtf8 => AtInvalidUtf8 case BufferOverflow(_, _) => AtOverflow
  }

  function Forward<M>(f: Format<M>, s: Bytes, max: nat, takes: nat): Forwarded<M>
    decreases |s|
  {
    var r := NextMessage(f, s, max);
    match r.result
    case Ok(None) => Forwarded([], r.counted, false)
    case Err(e) => Forwarded(if takes == 0 then [] else [Err(EndOf(e))], r.counted, true)
    case Ok(Some(m)) =>
      if takes == 0 then Forwarded([], r.counted, false)
      else
        NextMessageShrinks(f, s, max);
        var rest := Forward(f, r.rest, max, takes - 1);
        Forwarded([Ok(m)] + rest.items, r.counted + rest.counted, rest.dead)
  }

  lemma ForwardNext<M>(f: Format<M>, s: Bytes, max: nat, takes: nat)
    ensures var r := NextMessage(f, s, max);
      match r.result
      case Ok(None) => Forward(f, s, max, takes) == Forwarded([], r.counted, false)
      case Err(e) =>
        Forward(f, s, max, takes) == Forwarded(if takes == 0 then [] else [Err(EndOf(e))], r.counted, true)
      case Ok(Some(m)) =>
        && |r.rest| < |s|
        && (takes == 0 ==> Forward(f, s, max, takes) == Forwarded([], r.counted, false))
        && (takes > 0 ==>
              var rest := Forward(f, r.rest, max, takes - 1);
              Forward(f, s, max, takes) == Forwarded([Ok(m)] + rest.items, r.counted + rest.counted, rest.dead))
  {
    hide NextMessage;
    NextMessageShrinks(f, s, max);
  }

  /** The child's reader thread: it forwards messages until the end of the stream, until the
      receiver is gone, or until an error, which it forwards too and which means that the
      child is dead. */
  method StdoutReaderLoop<M>(codec: StdoutCodec, f: Format<M>, takes: nat)
    returns (items: seq<Result<M, End>>, dead: bool)
    requires codec.Valid()
    modifies codec`buf, codec`peak, codec`decodeErrors, codec.reader
    ensures codec.Valid()
    ensures var all := Forward(f, old(codec.reader.rest), codec.maxBuffer, takes);
      && items == all.items && dead == all.dead
      && codec.decodeErrors == old(codec.decodeErrors) + all.counted
  {
    hide NextMessage, Forward;
    ghost var all := Forward(f, codec.reader.rest, codec.maxBuffer, takes);
    items, dead := [], false;
    assert [] + all.items == all.items;
    while true
      invariant codec.Valid() && !dead && |items| <= takes
      invariant var now := Forward(f, codec.reader.rest, codec.maxBuffer, takes - |items|);
        && items + now.items == all.items && now.dead == all.dead
        && codec.decodeErrors + now.counted == old(codec.decodeErrors) + all.counted
      decreases |codec.reader.rest|
    {
      ghost var left := takes - |items|;
      ForwardNext(f, codec.reader.rest, codec.maxBuffer, left);
      ghost var later := NextMessage(f, codec.reader.rest, codec.maxBuffer).rest;
      assert items + [] == items;
      var r := codec.ReadMessage(f);
      if r.Err? {
        dead := true;
        if |items| < takes {
          items := items + [Err(EndOf(r.error))];
        }
        return;
      }
      if r.value.None? || |items| == takes {
        return;
      }
      ghost var more := Forward(f, later, codec.maxBuffer, left - 1).items;
      assert items + ([Ok(r.value.value)] + more) == (items + [Ok(r.value.value)]) + more;
      items := items + [Ok(r.value.value)];
    }
  }

  /** A receiver that stays gets the messages of the whole session, then the error that ended
      it, if one did; one that goes away before that gets as many messages as it took. */
  lemma {:induction false} ForwardedIsSession<M>(f: Format<M>, s: Bytes, max: nat, takes: nat)
    ensures var all := Forward(f, s, max, takes);
      var session := ReadSession(f, s, max);
      if takes > |session.messages| then
        && all.items == Oks(session.messages) + (if session.end == AtEof then [] else [Err(session.end)])
        && all.counted == session.counted && all.dead == (session.end != AtEof)
      else
        && all.items == Oks(session.messages[..takes])
        && (all.dead <==> takes == |session.messages| && session.end != AtEof)
        && (takes == |session.messages| ==> all.counted == session.counted)
    decreases |s|
  {
    hide NextMessage, Oks;
    var r := NextMessage(f, s, max);
    OksNothing<M>();
    if r.result.Ok? && r.result.value.Some? {
      NextMessageShrinks(f, s, max);
      if takes > 0 {
        ForwardedIsSession(f, r.rest, max, takes - 1);
        var m, rest := r.result.value.value, ReadSession(f, r.rest, max).messages;
        OksFirst(m, rest);
        if takes <= |rest| + 1 {
          assert ([m] + rest)[..takes] == [m] + rest[..takes - 1];
          OksFirst(m, rest[..takes - 1]);
        }
      }
    }
  }

  lemma OksNothing<M>()
    ensures Oks<M>([]) == []
  {
  }

  lemma OksFirst<M>(m: M, rest: seq<M>)
    ensures Oks([m] + rest) == [Ok(m)] + Oks(rest)
  {
  }

  function Oks<M>(ms: seq<M>): seq<Result<M, End>> {
    seq(|ms|, k requires 0 <= k < |ms| => Ok(ms[k]))
  }

  // ── Accounting ────────────────────────────────────────────────────────

  /** The session read off the lines: `end` is how the lines themselves ended. */
  function JudgeAll<M>(f: Format<M>, lines: seq<Bytes>, end: End): Session<M> {
    if lines == [] then Session([], 0, end)
    else
      match Judge(f, lines[0])
      case Fatal => Session([], 1, AtInvalidUtf8)
      case Skip => JudgeAll(f, lines[1..], end)
      case Bad => var r := JudgeAll(f, lines[1..], end); r.(counted := r.counted + 1)
      case Good(m) => var r := JudgeAll(f, lines[1..], end); r.(messages := [m] + r.messages)
  }

  /** Reading messages is reading lines and judging each. */
  lemma {:induction false} SessionIsJudgedLines<M>(f: Format<M>, s: Bytes, max: nat)
    ensures var (lines, end) := ReadLines(s, max); ReadSession(f, s, max) == JudgeAll(f, lines, end)
    decreases |s|
  {
    hide Judge;
    NextMessageStep(f, s, max);
    if ReadLine(s, max).Text? {
      SessionIsJudgedLines(f, Behind(s), max);
      var (lines, end) := ReadLines(s, max);
      assert lines[0] == ReadLine(s, max).bytes && lines[1..] == ReadLines(Behind(s), max).0;
      SessionStep(f, s, max);
    }
  }

  lemma SessionStep<M>(f: Format<M>, s: Bytes, max: nat)
    requires ReadLine(s, max).Text?
    ensures |Behind(s)| < |s|
    ensures var rest := ReadSession(f, Behind(s), max);
      ReadSession(f, s, max) ==
        match Judge(f, ReadLine(s, max).bytes)
        case Fatal => Session([], 1, AtInvalidUtf8)
        case Skip => rest
        case Bad => rest.(counted := rest.counted + 1)
        case Good(m) => rest.(messages := [m] + rest.messages)
  {
    hide Judge;
    NextMessageStep(f, s, max);
  }

  /** The lines looked at: up to and with the first that is not UTF-8. */
  function Examined<M>(f: Format<M>, lines: seq<Bytes>): seq<Bytes> {
    if lines == [] then []
    else if Judge(f, lines[0]).Fatal? then [lines[0]]
    else [lines[0]] + Examined(f, lines[1..])
  }

  /** The messages of the good lines, in order. */
  function Returned<M>(f: Format<M>, lines: seq<Bytes>): seq<M> {
    if lines == [] then []
    else
      var v := Judge(f, lines[0]);
      (if v.Good? then [v.message] else []) + Returned(f, lines[1..])
  }

  /** The lines that are errors, in order. */
  function Faulty<M>(f: Format<M>, lines: seq<Bytes>): seq<Bytes> {
    if lines == [] then []
    else
      var v := Judge(f, lines[0]);
      (if v.Bad? || v.Fatal? then [lines[0]] else []) + Faulty(f, lines[1..])
  }

  /** Of the lines before the first overflow, up to and with the first that is not UTF-8,
      the good ones are returned, each once and in order, and the errors are counted, each
      once; and the lines that are neither are exactly the blank ones. */
  lemma {:induction false} Accounting<M>(f: Format<M>, s: Bytes, max: nat)
    ensures var r := ReadSession(f, s, max);
      var lines := Examined(f, UpToLong(SplitOnLf(s), max));
      && r.messages == Returned(f, lines)
      && r.counted == |Faulty(f, lines)|
      && (forall l :: l in lines ==> (Judge(f, l).Skip? <==> Blank(StripCr(l))))
  {
    hide Judge, ReadLines, SplitOnLf;
    ReadLinesSplitsOnLf(s, max);
    SessionIsJudgedLines(f, s, max);
    var (lines, end) := ReadLines(s, max);
    JudgedAreCounted(f, lines, end);
    forall l | l in Examined(f, lines) ensures Judge(f, l).Skip? <==> Blank(StripCr(l)) {
      SkippedIsBlank(f, l);
    }
  }

  lemma SkippedIsBlank<M>(f: Format<M>, line: Bytes)
    ensures Judge(f, line).Skip? <==> Blank(StripCr(line))
  {
  }

  lemma {:induction false} JudgedAreCounted<M>(f: Format<M>, lines: seq<Bytes>, end: End)
    ensures var r := JudgeAll(f, lines, end);
      r.messages == Returned(f, Examined(f, lines)) && r.counted == |Faulty(f, Examined(f, lines))|
  {
    hide Judge;
    if lines == [] {
    } else {
      JudgedAreCounted(f, lines[1..], end);
      var first, rest := lines[0], Examined(f, lines[1..]);
      if Judge(f, first).Fatal? {
        assert [first][1..] == [];
      } else {
        assert ([first] + rest)[0] == first && ([first] + rest)[1..] == rest;
      }
    }
  }

  // ── What ends a session, and what it gives ────────────────────────────

  /** A line that is neither blank nor text. */
  predicate NotText<M>(f: Format<M>, line: Bytes) {
    !Blank(StripCr(line)) && !f.utf8(StripCr(line))
  }

  /** The lines before the first that is not text. */
  function Texts<M>(f: Format<M>, lines: seq<Bytes>): seq<Bytes> {
    if lines == [] || NotText(f, lines[0]) then [] else [lines[0]] + Texts(f, lines[1..])
  }

  predicate Readable<M>(f: Format<M>, line: Bytes) {
    && !Blank(StripCr(line)) && f.utf8(StripCr(line))
    && |StripCr(line)| <= MAX_MESSAGE_SIZE && f.parse(StripCr(line)).Some?
  }

  /** The parses of the lines that are text, not too large and JSON-RPC, in order. */
  function Parses<M>(f: Format<M>, lines: seq<Bytes>): seq<M> {
    if lines == [] then []
    else (if Readable(f, lines[0]) then [f.parse(StripCr(lines[0])).value] else []) + Parses(f, lines[1..])
  }

  /** How many lines are neither blank nor readable. */
  function Unreadable<M>(f: Format<M>, lines: seq<Bytes>): nat {
    if lines == [] then 0
    else (if Blank(StripCr(lines[0])) || Readable(f, lines[0]) then 0 else 1) + Unreadable(f, lines[1..])
  }

  lemma {:induction false} JudgedLines<M>(f: Format<M>, lines: seq<Bytes>, end: End)
    ensures var r := JudgeAll(f, lines, end);
      var broken := exists l :: l in lines && NotText(f, l);
      && r.end == (if broken then AtInvalidUtf8 else end)
      && r.messages == Parses(f, Texts(f, lines))
      && r.counted == Unreadable(f, Texts(f, lines)) + if broken then 1 else 0
  {
    hide Blank, StripCr, Judge, NotText, Readable;
    if lines == [] {
    } else {
      var rest := lines[1..];
      JudgedLines(f, rest, end);
      JudgedLine(f, lines[0]);
      assert lines[0] in lines && forall l :: l in lines <==> l == lines[0] || l in rest;
      var texts := Texts(f, rest);
      assert ([lines[0]] + texts)[0] == lines[0] && ([lines[0]] + texts)[1..] == texts;
    }
  }

  lemma JudgedLine<M>(f: Format<M>, line: Bytes)
    ensures match Judge(f, line)
      case Skip => Blank(StripCr(line)) && !NotText(f, line) && !Readable(f, line)
      case Fatal => NotText(f, line) && !Blank(StripCr(line)) && !Readable(f, line)
      case Bad => !NotText(f, line) && !Blank(StripCr(line)) && !Readable(f, line)
      case Good(m) =>
        !NotText(f, line) && !Blank(StripCr(line)) && Readable(f, line) && f.parse(StripCr(line)) == Some(m)
  {
  }

  /** Exactly how a session ends, and what it gives: it ends with the first line that is
      neither blank nor UTF-8, if one comes before the first overflow; a line that does not
      parse or is too large is counted and ends nothing; the messages are the parses of all
      readable lines before the end, in order. */
  lemma {:induction false} SessionEnds<M>(f: Format<M>, s: Bytes, max: nat)
    ensures var r := ReadSession(f, s, max);
      var lines := UpToLong(SplitOnLf(s), max);
      var broken := exists l :: l in lines && NotText(f, l);
      && (r.end == AtInvalidUtf8 <==> broken)
      && (r.end == AtOverflow <==> !broken && exists l :: l in SplitOnLf(s) && |l| >= max)
      && r.messages == Parses(f, Texts(f, lines))
      && r.counted == Unreadable(f, Texts(f, lines)) + if broken then 1 else 0
  {
    hide JudgeAll, ReadLines, ReadSession, SplitOnLf, UpToLong, NotText, Texts, Parses, Unreadable;
    ReadLinesSplitsOnLf(s, max);
    SessionIsJudgedLines(f, s, max);
    JudgedLines(f, ReadLines(s, max).0, ReadLines(s, max).1);
  }

  // ── Round trip ────────────────────────────────────────────────────────

  function Written<M>(f: Format<M>, ms: seq<M>): Bytes {
    if ms == [] then [] else f.print_(ms[0]) + [LF] + Written(f, ms[1..])
  }

  lemma {:induction false} WrittenAppend<M>(f: Format<M>, ms: seq<M>, m: M)
    ensures Written(f, ms + [m]) == Written(f, ms) + (f.print_(m) + [LF])
  {
    if ms == [] {
      assert (ms + [m])[1..] == [];
      assert Written(f, ms + [m]) == f.print_(m) + [LF] + [];
    } else {
      assert (ms + [m])[1..] == ms[1..] + [m];
      WrittenAppend(f, ms[1..], m);
    }
  }

  class Writer {
    var out: Bytes

    constructor ()
      ensures out == []
    {
      out := [];
    }

    method WriteMessage<M>(f: Format<M>, m: M)
      modifies this
      ensures out == old(out) + (f.print_(m) + [LF])
    {
      out := out + f.print_(m);
      out := out + [LF];
    }

    /** The messages of a request, one after the other. */
    method WriteAll<M>(f: Format<M>, ms: seq<M>)
      modifies this
      ensures out == old(out) + Written(f, ms)
    {
      hide Written;
      WrittenNothing(f);
      for i := 0 to |ms|
        invariant out == old(out) + Written(f, ms[..i])
      {
        WrittenAppend(f, ms[..i], ms[i]);
        assert ms[..i + 1] == ms[..i] + [ms[i]];
        WriteMessage(f, ms[i]);
      }
      assert ms[..|ms|] == ms;
    }
  }

  lemma WrittenNothing<M>(f: Format<M>)
    ensures Written(f, []) == []
  {
  }

  /** What one side writes, the reader thread of the other forwards: all of it, in order,
      and no error. */
  method WriteThenForward<M>(f: Format<M>, ms: seq<M>, sizes: seq<nat>, maxBuffer: nat, takes: nat)
    returns (items: seq<Result<M, End>>)
    requires forall m :: m in ms ==> Carried(f, m, maxBuffer)
    ensures takes > |ms| ==> items == Oks(ms)
    ensures takes <= |ms| ==> items == Oks(ms[..takes])
  {
    hide Written, Forward, ReadSession;
    var writer := new Writer();
    writer.WriteAll(f, ms);
    assert writer.out == Written(f, ms);
    var reader := new BufReader(writer.out, sizes);
    var codec := new StdoutCodec(reader, maxBuffer);
    WriteReadRoundTrip(f, ms, maxBuffer);
    ForwardedIsSession(f, Written(f, ms), maxBuffer, takes);
    var dead;
    items, dead := StdoutReaderLoop(codec, f, takes);
  }

  /** The JSON text of `m`: the library reads back what it printed, and the text is one
      line of UTF-8 within both limits that does not end in CR. */
  ghost predicate Carried<M>(f: Format<M>, m: M, max: nat) {
    var text := f.print_(m);
    && LF !in text && !Blank(text) && text[|text| - 1] != CR
    && f.utf8(text)
    && |text| <= MAX_MESSAGE_SIZE && |text| < max
    && f.parse(text) == Some(m)
  }

  lemma EmptySession<M>(f: Format<M>, max: nat)
    ensures ReadSession(f, [], max) == Session([], 0, AtEof)
  {
    NextMessageStep(f, [], max);
  }

  /** Reading what was written gives the same messages in order and counts no error. */
  lemma {:induction false} WriteReadRoundTrip<M>(f: Format<M>, ms: seq<M>, max: nat)
    requires forall m :: m in ms ==> Carried(f, m, max)
    ensures ReadSession(f, Written(f, ms), max) == Session(ms, 0, AtEof)
    decreases |ms|
  {
    hide Carried, Judge, ReadLine, Behind, ReadSession;
    if ms == [] {
      EmptySession(f, max);
    } else {
      var m, rest := ms[0], Written(f, ms[1..]);
      var s := f.print_(m) + [LF] + rest;
      assert Carried(f, m, max);
      WriteReadRoundTrip(f, ms[1..], max);
      WrittenIsRead(f, m, rest, max);
      SessionStep(f, s, max);
      assert [m] + ms[1..] == ms;
    }
  }

  /** The line of a message is read as that message, and the rest is left. */
  lemma WrittenIsRead<M>(f: Format<M>, m: M, rest: Bytes, max: nat)
    requires Carried(f, m, max)
    ensures var text := f.print_(m);
      var s := text + [LF] + rest;
      ReadLine(s, max) == Text(text) && Behind(s) == rest && Judge(f, text) == Good(m)
  {
    var text := f.print_(m);
    var s := text + [LF] + rest;
    assert s[..|text|] == text && s[|text|] == LF;
    LineLengthIs(s, |text|);
    assert s[|text| + 1..] == rest;
  }
}
