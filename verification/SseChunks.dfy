/** When feeding a text in pieces is the same as feeding it whole. */
module SseChunks {
  import opened Wrappers
  import opened Seqs
  import opened SseParsing

  // ── Lines ─────────────────────────────────────────────────────────────

  lemma FindIs(s: string, c: char, i: nat)
    requires i < |s| && s[i] == c && c !in s[..i]
    ensures Find(s, c) == Some(i)
  {
    var r := Find(s, c);
    assert s[i] in s;
    assert forall k :: 0 <= k < i ==> s[..i][k] == s[k];
    assert forall k :: 0 <= k < r.value ==> s[..r.value][k] == s[k];
  }

  lemma FindNone(s: string, c: char)
    requires c !in s
    ensures Find(s, c) == None
  {
  }

  /** A CR that is not last and that no LF follows: the parser ends a line there without
      waiting. */
  ghost predicate BareBreak(buf: string) {
    exists i :: 0 <= i && i + 1 < |buf| && buf[i] == '\r' && '\n' !in buf[i + 1..]
  }

  /** A break found in `x` is found in `x + b` at the same place. */
  lemma BreakStays(x: string, b: string)
    requires NextBreak(x).Some?
    requires '\n' in x || '\n' !in b
    ensures var pos := NextBreak(x).value;
      && NextBreak(x + b) == Some(pos)
      && LineAt(x + b, pos) == LineAt(x, pos)
      && RestAt(x + b, pos) == RestAt(x, pos) + b
  {
    var y := x + b;
    var pos := NextBreak(x).value;
    assert y[..pos] == x[..pos] && y[pos] == x[pos];
    if '\n' in x {
      assert Find(x, '\n') == Some(pos);
      FindIs(y, '\n', pos);
    } else {
      assert Find(x, '\n') == None && Find(x, '\r') == Some(pos);
      FindNone(y, '\n');
      FindIs(y, '\r', pos);
      assert y[pos + 1] == x[pos + 1] && x[pos + 1] in x;
    }
    assert pos > 0 ==> y[..pos - 1] == x[..pos - 1];
  }

  /** Line breaks by LF leave the bare breaks behind them as they are. */
  lemma BareBreakRest(x: string, pos: nat)
    requires Find(x, '\n') == Some(pos)
    ensures BareBreak(RestAt(x, pos)) <==> BareBreak(x)
  {
    var rest := RestAt(x, pos);
    assert rest == x[pos + 1..];
    if BareBreak(x) {
      var i :| 0 <= i && i + 1 < |x| && x[i] == '\r' && '\n' !in x[i + 1..];
      assert forall k :: i < k < |x| ==> x[i + 1..][k - i - 1] == x[k];
      var j := i - pos - 1;
      assert rest[j] == '\r' && rest[j + 1..] == x[i + 1..];
    }
    if BareBreak(rest) {
      var j :| 0 <= j && j + 1 < |rest| && rest[j] == '\r' && '\n' !in rest[j + 1..];
      var i := j + pos + 1;
      assert x[i] == '\r' && x[i + 1..] == rest[j + 1..];
    }
  }

  /** Splitting `x` and then the rest with `b` behind it. */
  function SplitTwice(x: string, b: string): (seq<string>, string) {
    var (first, left) := Split(x);
    var (second, rest) := Split(left + b);
    (first + second, rest)
  }

  lemma SplitOne(x: string, pos: nat)
    requires NextBreak(x) == Some(pos)
    ensures Split(x) == ([LineAt(x, pos)] + Split(RestAt(x, pos)).0, Split(RestAt(x, pos)).1)
    ensures Split(x).0[0] == LineAt(x, pos) && Split(x).0[1..] == Split(RestAt(x, pos)).0
  {
  }

  lemma HypothesisForRest(x: string, b: string, pos: nat)
    requires NextBreak(x) == Some(pos)
    requires '\n' !in b || !BareBreak(x)
    ensures '\n' in x || '\n' !in b
    ensures '\n' !in b || !BareBreak(RestAt(x, pos))
  {
    if '\n' in x {
      BareBreakRest(x, pos);
    } else {
      BareBreakHere(x, pos);
    }
  }

  lemma SplitNone(x: string, b: string)
    requires NextBreak(x) == None
    ensures SplitTwice(x, b) == Split(x + b)
  {
    assert Split(x) == ([], x);
    hide Split;
    assert [] + Split(x + b).0 == Split(x + b).0;
  }

  /** A line put in front of both. */
  lemma SplitGlue(x: string, b: string, line: string, rest: string)
    requires Split(x) == ([line] + Split(rest).0, Split(rest).1)
    requires Split(x + b) == ([line] + Split(rest + b).0, Split(rest + b).1)
    ensures SplitTwice(x, b) == Split(x + b) <==> SplitTwice(rest, b) == Split(rest + b)
  {
    hide Split;
    var (first, left) := Split(rest);
    var (second, end) := Split(left + b);
    assert ([line] + first) + second == [line] + (first + second);
    assert ([line] + (first + second))[1..] == first + second;
    assert ([line] + Split(rest + b).0)[1..] == Split(rest + b).0;
  }

  lemma SplitStep(x: string, b: string, pos: nat)
    requires NextBreak(x) == Some(pos)
    requires '\n' in x || '\n' !in b
    ensures var rest := RestAt(x, pos);
      SplitTwice(x, b) == Split(x + b) <==> SplitTwice(rest, b) == Split(rest + b)
  {
    BreakStays(x, b);
    SplitOne(x, pos);
    SplitOne(x + b, pos);
    hide *;
    SplitGlue(x, b, LineAt(x, pos), RestAt(x, pos));
  }

  lemma {:induction false} SplitAgrees(x: string, b: string)
    requires '\n' !in b || !BareBreak(x)
    ensures SplitTwice(x, b) == Split(x + b)
    decreases |x|
  {
    hide *;
    match NextBreak(x)
    case None =>
      SplitNone(x, b);
    case Some(pos) =>
      HypothesisForRest(x, b, pos);
      SplitStep(x, b, pos);
      SplitAgrees(RestAt(x, pos), b);
  }

  lemma BareBreakHere(x: string, pos: nat)
    requires NextBreak(x) == Some(pos) && '\n' !in x
    ensures x[pos] == '\r' && pos + 1 < |x| && '\r' !in x[..pos]
    ensures BareBreak(x)
  {
    assert Find(x, '\n') == None;
    assert x[pos] == '\r' && '\n' !in x[pos + 1..];
  }

  /** With no LF left, a break at a bare CR gives a first line that ends before the CR;
      joined with a text that has an LF, the first line reaches past it. */
  lemma FirstLinesDiffer(x: string, b: string)
    requires '\n' !in x && NextBreak(x).Some? && '\n' in b
    ensures Split(x).0[0] != Split(x + b).0[0]
  {
    var pos := NextBreak(x).value;
    BareBreakHere(x, pos);
    var y := x + b;
    var q := Find(y, '\n').value;
    assert b[Find(b, '\n').value] in y;
    assert forall k :: 0 <= k < |x| ==> y[k] == x[k] && x[k] in x;
    assert NextBreak(y) == Some(q);
    assert |LineAt(y, q)| >= q - 1 > |LineAt(x, pos)|;
  }

  /** The first bare CR of a text without LF is where the parser breaks. */
  lemma BareBreakIsNext(x: string)
    requires '\n' !in x && BareBreak(x)
    ensures NextBreak(x).Some?
  {
    var i :| 0 <= i && i + 1 < |x| && x[i] == '\r' && '\n' !in x[i + 1..];
    FindNone(x, '\n');
    var r := Find(x, '\r').value;
    assert forall k :: 0 <= k < r ==> x[..r][k] == x[k];
  }

  lemma {:induction false} SplitDisagrees(x: string, b: string)
    requires '\n' in b && BareBreak(x)
    ensures SplitTwice(x, b) != Split(x + b)
    decreases |x|
  {
    if '\n' in x {
      var pos := NextBreak(x).value;
      BareBreakRest(x, pos);
      SplitStep(x, b, pos);
      SplitDisagrees(RestAt(x, pos), b);
    } else {
      BareBreakIsNext(x);
      FirstLinesDiffer(x, b);
      FirstOfTwice(x, b);
    }
  }

  lemma FirstOfTwice(x: string, b: string)
    requires NextBreak(x).Some?
    ensures |Split(x).0| > 0 && SplitTwice(x, b).0[0] == Split(x).0[0]
  {
    SplitOne(x, NextBreak(x).value);
    hide Split;
  }

  /** The exact condition: cutting the input after `x` does not change the lines if and
      only if no LF comes after the cut or `x` makes the parser break at a bare CR
      nowhere. */
  lemma SplitAgreesIff(x: string, b: string)
    ensures SplitTwice(x, b) == Split(x + b) <==> ('\n' !in b || !BareBreak(x))
  {
    if '\n' !in b || !BareBreak(x) {
      SplitAgrees(x, b);
    } else {
      SplitDisagrees(x, b);
    }
  }

  // ── Events ────────────────────────────────────────────────────────────

  lemma {:induction false} ProcessAppend(f: Fields, a: seq<string>, b: seq<string>)
    ensures var (g, events) := ProcessLines(f, a);
      var (h, more) := ProcessLines(g, b);
      ProcessLines(f, a + b) == (h, events + more)
    decreases |a|
  {
    hide ProcessLine;
    if a == [] {
      assert a + b == b;
      assert [] + ProcessLines(f, b).1 == ProcessLines(f, b).1;
    } else {
      assert (a + b)[0] == a[0] && (a + b)[1..] == a[1..] + b;
      var (g, event) := ProcessLine(f, a[0]);
      ProcessAppend(g, a[1..], b);
      var (h, rest) := ProcessLines(g, a[1..]);
      var more := ProcessLines(h, b).1;
      assert EventsOf(event) + (rest + more) == (EventsOf(event) + rest) + more;
    }
  }

  /** Feeding `a` and then `b` gives the events and the final state of feeding `a + b`. */
  lemma FeedAgrees(p: Parser, a: string, b: string)
    requires '\n' !in b || !BareBreak(p.lineBuf + a)
    ensures var (q, events) := FeedChunk(p, a);
      var (r, more) := FeedChunk(q, b);
      FeedChunk(p, a + b) == (r, events + more)
  {
    hide ProcessLine, ProcessLines;
    var x := p.lineBuf + a;
    SplitAgrees(x, b);
    assert p.lineBuf + (a + b) == x + b;
    var (lines, left) := Split(x);
    ProcessAppend(p.fields, lines, Split(left + b).0);
  }

  /** Every CR is followed by an LF, a CR at the very end being undecided yet. */
  ghost predicate CrOnlyBeforeLf(s: string) {
    forall i :: 0 <= i && i + 1 < |s| && s[i] == '\r' ==> s[i + 1] == '\n'
  }

  /** The two families of text for which chunking never matters. */
  ghost predicate Unambiguous(s: string) {
    CrOnlyBeforeLf(s) || '\n' !in s
  }

  lemma NoCrUnambiguous(s: string)
    requires '\r' !in s
    ensures Unambiguous(s)
  {
    assert forall i :: 0 <= i < |s| ==> s[i] in s;
  }

  lemma SuffixUnambiguous(s: string, n: nat)
    requires Unambiguous(s) && n <= |s|
    ensures Unambiguous(s[n..])
  {
    assert forall i :: 0 <= i < |s| - n ==> s[n..][i] == s[n + i];
  }

  lemma NoBareBreak(x: string, b: string)
    requires CrOnlyBeforeLf(x + b)
    ensures !BareBreak(x)
  {
    forall i | 0 <= i && i + 1 < |x| && x[i] == '\r' ensures '\n' in x[i + 1..] {
      assert (x + b)[i] == '\r' && (x + b)[i + 1] == x[i + 1] == x[i + 1..][0];
    }
  }

  lemma FeedIndependent(p: Parser, a: string, b: string)
    requires Unambiguous(p.lineBuf + a + b)
    ensures var (q, events) := FeedChunk(p, a);
      var (r, more) := FeedChunk(q, b);
      FeedChunk(p, a + b) == (r, events + more)
  {
    var x := p.lineBuf + a;
    if CrOnlyBeforeLf(x + b) {
      NoBareBreak(x, b);
    }
    FeedAgrees(p, a, b);
  }

  lemma OneLine(buf: string, pos: nat, line: string, rest: string)
    requires NextBreak(buf) == Some(pos) && LineAt(buf, pos) == line && RestAt(buf, pos) == rest
    requires NextBreak(rest) == None
    ensures Split(buf) == ([line], rest)
  {
    assert Split(rest).0 == [];
    assert [line] + Split(rest).0 == [line];
  }

  lemma OneProcessed(f: Fields, line: string)
    ensures ProcessLines(f, [line]) == (ProcessLine(f, line).0, EventsOf(ProcessLine(f, line).1))
  {
    hide ProcessLine;
    var none := [line][1..];
    assert none == [];
    var (g, event) := ProcessLine(f, line);
    assert ProcessLines(g, none) == (g, []);
    assert EventsOf(event) + [] == EventsOf(event);
  }

  lemma DataLine(line: string, value: string)
    requires line == "data: " + value
    ensures ProcessLine(INITIAL.fields, line) == (Fields("", value, true, "", "", None), None)
  {
    FindIs(line, ':', 4);
    assert line[..4] == "data" && line[5..][1..] == value;
    assert "" + value == value;
  }

  /** Outside of them the events themselves can depend on the cut: fed as
      `data: x CR CR` and then `LF` the parser dispatches an event; fed whole it reads
      one line and dispatches nothing. */
  lemma ChunkingMayChangeEvents()
    ensures var (q, events) := FeedChunk(INITIAL, "data: x\r\r");
      events == [] && FeedChunk(q, "\n").1 == [Event("message", "x", "")]
    ensures FeedChunk(INITIAL, "data: x\r\r" + "\n").1 == []
  {
    hide Split, ProcessLine, ProcessLines, NextBreak, LineAt, RestAt;
    SplitOfCut();
    SplitOfBreak();
    SplitOfWhole();
    DataLine("data: x", "x");
    DataLine("data: x\r", "x\r");
    OneProcessed(INITIAL.fields, "data: x");
    OneProcessed(INITIAL.fields, "data: x\r");
    var f := Fields("", "x", true, "", "", None);
    OneProcessed(f, "");
    BlankDispatches(f);
    assert "" + "data: x\r\r" == "data: x\r\r";
    assert "" + ("data: x\r\r" + "\n") == "data: x\r\r\n";
    assert "\r" + "\n" == "\r\n";
  }

  lemma BlankDispatches(f: Fields)
    requires f == Fields("", "x", true, "", "", None)
    ensures ProcessLine(f, "").1 == Some(Event("message", "x", ""))
  {
  }

  lemma BreakOfCut()
    ensures NextBreak("data: x\r\r") == Some(7)
  {
    hide Find;
    var a := "data: x\r\r";
    FindNone(a, '\n');
    FindIs(a, '\r', 7);
  }

  lemma CarriageReturnWaits()
    ensures NextBreak("\r") == None
  {
    FindNone("\r", '\n');
    FindIs("\r", '\r', 0);
  }

  lemma SplitOfCut()
    ensures Split("data: x\r\r") == (["data: x"], "\r")
  {
    hide Split, Find, NextBreak;
    var a := "data: x\r\r";
    BreakOfCut();
    CarriageReturnWaits();
    assert a[..7] == "data: x" && a[8..] == "\r";
    OneLine(a, 7, "data: x", "\r");
  }

  lemma SplitOfBreak()
    ensures Split("\r\n") == ([""], "")
  {
    FindIs("\r\n", '\n', 1);
    OneLine("\r\n", 1, "", "");
  }

  lemma SplitOfWhole()
    ensures Split("data: x\r\r\n") == (["data: x\r"], "")
  {
    var whole := "data: x\r\r\n";
    FindIs(whole, '\n', 9);
    assert whole[..8] == "data: x\r" && whole[10..] == "";
    OneLine(whole, 9, "data: x\r", "");
  }

  // ── Any number of chunks ──────────────────────────────────────────────

  /** For both families of text, any way of cutting it gives what feeding it whole gives. */
  lemma {:induction false} FeedChunksAgree(p: Parser, chunks: seq<string>)
    requires Unambiguous(p.lineBuf + Concat(chunks))
    requires p.lineBuf == Split(p.lineBuf).1 && Split(p.lineBuf).0 == []
    ensures FeedChunks(p, chunks) == FeedChunk(p, Concat(chunks))
    decreases |chunks|
  {
    hide ProcessLine, Unambiguous, Split, ProcessLines;
    if chunks == [] {
      assert p.lineBuf + "" == p.lineBuf;
      NothingFed(p);
    } else {
      var a, b := chunks[0], Concat(chunks[1..]);
      assert p.lineBuf + (a + b) == p.lineBuf + a + b;
      FeedIndependent(p, a, b);
      var (q, events) := FeedChunk(p, a);
      var x := p.lineBuf + a;
      SplitLeavesNothing(x);
      RestIsASuffix(x);
      SuffixUnambiguous(x + b, |x| - |q.lineBuf|);
      assert (x + b)[|x| - |q.lineBuf|..] == q.lineBuf + b;
      FeedChunksAgree(q, chunks[1..]);
    }
  }

  lemma NothingFed(p: Parser)
    requires Split(p.lineBuf) == ([], p.lineBuf)
    ensures FeedChunk(p, "") == (p, [])
  {
    assert p.lineBuf + "" == p.lineBuf;
  }

  lemma {:induction false} SplitLeavesNothing(x: string)
    ensures Split(Split(x).1) == ([], Split(x).1)
    decreases |x|
  {
    if NextBreak(x).Some? {
      SplitLeavesNothing(RestAt(x, NextBreak(x).value));
    }
  }

  lemma {:induction false} RestIsASuffix(x: string)
    ensures |Split(x).1| <= |x| && Split(x).1 == x[|x| - |Split(x).1|..]
    decreases |x|
  {
    if NextBreak(x).Some? {
      var rest := RestAt(x, NextBreak(x).value);
      RestIsASuffix(rest);
      assert rest == x[|x| - |rest|..];
    }
  }
}
