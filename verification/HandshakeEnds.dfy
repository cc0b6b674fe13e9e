/** When the handshake is completed, said in terms of the messages alone. */
module HandshakeEnds {
  import opened Wrappers
  import opened JsonRpc
  import opened Delivery
  import opened Handshake

  // ── The history is that of the run ────────────────────────────────────

  function StdinOf(calls: seq<Call>): seq<RawMessage> {
    if calls == [] then [] else (if calls[0].Stdin? then [calls[0].msg] else []) + StdinOf(calls[1..])
  }

  function ServerOf(calls: seq<Call>): seq<RawMessage> {
    if calls == [] then [] else (if calls[0].Server? then calls[0].msgs else []) + ServerOf(calls[1..])
  }

  /** The id that was generated when the first stdin message came. */
  function FreshOf(calls: seq<Call>): string {
    if calls == [] then "" else if calls[0].Stdin? then calls[0].freshId else FreshOf(calls[1..])
  }

  lemma CallHistory(cfg: Config, t: Trace, call: Call)
    requires t.m.phase.Pending? <==> t.stdin == []
    ensures var u := Apply(cfg, t, call);
      && u.stdin == t.stdin + (if call.Stdin? then [call.msg] else [])
      && u.server == t.server + (if call.Server? then call.msgs else [])
      && (u.m.phase.Pending? <==> u.stdin == [])
      && u.freshId == if t.stdin == [] && call.Stdin? then call.freshId else t.freshId
  {
    assert t.stdin + [] == t.stdin && t.server + [] == t.server;
  }

  lemma {:induction false} HistoryIsTheRun(cfg: Config, t: Trace, calls: seq<Call>)
    requires t.m.phase.Pending? <==> t.stdin == []
    requires t.stdin == [] ==> t.freshId == ""
    ensures var u := Run(cfg, t, calls);
      && u.stdin == t.stdin + StdinOf(calls) && u.server == t.server + ServerOf(calls)
      && u.freshId == if t.stdin == [] then FreshOf(calls) else t.freshId
    decreases |calls|
  {
    hide Apply;
    if calls == [] {
      assert t.stdin + [] == t.stdin && t.server + [] == t.server;
    } else {
      var call := calls[0];
      CallHistory(cfg, t, call);
      HistoryIsTheRun(cfg, Apply(cfg, t, call), calls[1..]);
      var stdin, server := if call.Stdin? then [call.msg] else [], if call.Server? then call.msgs else [];
      assert t.stdin + stdin + StdinOf(calls[1..]) == t.stdin + (stdin + StdinOf(calls[1..]));
      assert t.server + server + ServerOf(calls[1..]) == t.server + (server + ServerOf(calls[1..]));
    }
  }

  lemma {:induction false} RunSplit(cfg: Config, t: Trace, a: seq<Call>, b: seq<Call>)
    ensures Run(cfg, t, a + b) == Run(cfg, Run(cfg, t, a), b)
    decreases |a|
  {
    hide Apply;
    if a == [] {
      assert a + b == b;
    } else {
      assert (a + b)[0] == a[0] && (a + b)[1..] == a[1..] + b;
      RunSplit(cfg, Apply(cfg, t, a[0]), a[1..], b);
    }
  }

  lemma RunOne(cfg: Config, t: Trace, call: Call)
    ensures Run(cfg, t, [call]) == Apply(cfg, t, call)
  {
    hide Apply;
    assert [call][1..] == [];
  }

  // ── Completion ────────────────────────────────────────────────────────

  /** Waiting for the answer to `initId`, or done. */
  predicate Underway(m: Machine, initId: string) {
    m.phase.Ready? || m.phase == WaitingSyntheticInit(initId) || m.phase == WaitingPassthroughInit(initId)
  }

  lemma UnderwayStep(cfg: Config, t: Trace, call: Call, initId: string)
    requires Underway(t.m, initId)
    ensures Underway(Apply(cfg, t, call).m, initId)
    ensures call.Server? && (exists r :: r in call.msgs && AnswersInit(r, initId)) ==>
      Apply(cfg, t, call).m.phase.Ready?
  {
    hide AnswersInit;
    if call.Server? && FindAnswer(call.msgs, initId).None? {
      assert forall r :: r in call.msgs ==> !AnswersInit(r, initId);
    }
  }

  lemma {:induction false} UnderwayRun(cfg: Config, t: Trace, calls: seq<Call>, initId: string)
    requires Underway(t.m, initId)
    ensures Underway(Run(cfg, t, calls).m, initId)
    ensures t.m.phase.Ready? ==> Run(cfg, t, calls).m.phase.Ready?
    decreases |calls|
  {
    hide Apply, Underway;
    if calls == [] {
    } else {
      UnderwayStep(cfg, t, calls[0], initId);
      if t.m.phase.Ready? {
        ReadyKept(cfg, t, calls[0]);
      }
      UnderwayRun(cfg, Apply(cfg, t, calls[0]), calls[1..], initId);
    }
  }

  /** The answer comes somewhere behind the init request, among whatever else. */
  lemma AnswerCompletes(cfg: Config, t: Trace, mid: seq<Call>, msgs: seq<RawMessage>, after: seq<Call>, initId: string)
    requires Underway(t.m, initId) && exists r :: r in msgs && AnswersInit(r, initId)
    ensures Run(cfg, t, mid + ([Server(msgs)] + after)).m.phase.Ready?
  {
    hide Apply, Underway, AnswersInit;
    var u := Run(cfg, t, mid);
    UnderwayRun(cfg, t, mid, initId);
    UnderwayStep(cfg, u, Server(msgs), initId);
    RunSplit(cfg, t, mid, [Server(msgs)] + after);
    RunSplit(cfg, u, [Server(msgs)], after);
    RunOne(cfg, u, Server(msgs));
    UnderwayRun(cfg, Apply(cfg, u, Server(msgs)), after, initId);
  }

  /** Before the first stdin message the machine only passes the server's messages on. */
  lemma {:induction false} NothingAsked(cfg: Config, t: Trace, calls: seq<Call>)
    requires t.m == Machine(Pending, []) && forall call :: call in calls ==> call.Server?
    ensures Run(cfg, t, calls).m == Machine(Pending, [])
    ensures StdinOf(calls) == [] && FreshOf(calls) == ""
    decreases |calls|
  {
    if calls == [] {
    } else {
      assert calls[0] in calls;
      NothingAsked(cfg, Apply(cfg, t, calls[0]), calls[1..]);
    }
  }

  lemma FirstAsked(cfg: Config, t: Trace, msg: RawMessage, freshId: string)
    requires t.m == Machine(Pending, [])
    ensures var u := Apply(cfg, t, Stdin(msg, freshId));
      if msg.id.Some? && msg.methodName == Some("initialize")
      then Underway(u.m, TrimQuotes(msg.id.value))
      else Underway(u.m, freshId)
  {
    hide TrimQuotes;
  }

  lemma StdinAppend(a: seq<Call>, b: seq<Call>)
    ensures StdinOf(a + b) == StdinOf(a) + StdinOf(b)
    decreases |a|
  {
    if a == [] {
      assert a + b == b;
    } else {
      assert (a + b)[0] == a[0] && (a + b)[1..] == a[1..] + b;
      StdinAppend(a[1..], b);
    }
  }

  lemma FreshAppend(a: seq<Call>, b: seq<Call>)
    requires forall call :: call in a ==> call.Server?
    ensures FreshOf(a + b) == FreshOf(b)
    decreases |a|
  {
    if a == [] {
      assert a + b == b;
    } else {
      assert (a + b)[0] == a[0] && (a + b)[1..] == a[1..] + b;
      assert a[0] in a;
      FreshAppend(a[1..], b);
    }
  }

  /** The calls of a run whose first stdin message is `first` and whose answer is in `msgs`. */
  function Calls(early: seq<Call>, first: RawMessage, freshId: string, mid: seq<Call>, msgs: seq<RawMessage>,
                 after: seq<Call>): seq<Call>
  {
    early + ([Stdin(first, freshId)] + (mid + ([Server(msgs)] + after)))
  }

  lemma CallsHistory(early: seq<Call>, first: RawMessage, freshId: string, mid: seq<Call>, msgs: seq<RawMessage>,
                     after: seq<Call>)
    requires forall call :: call in early ==> call.Server?
    ensures var calls := Calls(early, first, freshId, mid, msgs, after);
      StdinOf(calls) == [first] + StdinOf(mid) + StdinOf(after) && FreshOf(calls) == freshId
  {
    var rest := mid + ([Server(msgs)] + after);
    var one := [Stdin(first, freshId)];
    OnlyServer(early);
    StdinAppend(early, one + rest);
    FreshAppend(early, one + rest);
    StdinAppend(mid, [Server(msgs)] + after);
    assert ([Server(msgs)] + after)[1..] == after;
    assert (one + rest)[0] == one[0] && (one + rest)[1..] == rest;
    assert [] + StdinOf(after) == StdinOf(after);
  }

  lemma {:induction false} OnlyServer(calls: seq<Call>)
    requires forall call :: call in calls ==> call.Server?
    ensures StdinOf(calls) == [] && FreshOf(calls) == ""
  {
    if calls != [] {
      assert calls[0] in calls;
      OnlyServer(calls[1..]);
    }
  }

  lemma Completes(cfg: Config, early: seq<Call>, first: RawMessage, freshId: string, mid: seq<Call>,
                  msgs: seq<RawMessage>, after: seq<Call>, initId: string)
    requires forall call :: call in early ==> call.Server?
    requires initId == if first.id.Some? && first.methodName == Some("initialize") then TrimQuotes(first.id.value)
                       else freshId
    requires exists r :: r in msgs && AnswersInit(r, initId)
    ensures Run(cfg, START, Calls(early, first, freshId, mid, msgs, after)).m.phase.Ready?
  {
    hide Apply, Underway, AnswersInit, TrimQuotes;
    var t := Run(cfg, START, early);
    NothingAsked(cfg, START, early);
    FirstAsked(cfg, t, first, freshId);
    var rest := mid + ([Server(msgs)] + after);
    RunSplit(cfg, START, early, [Stdin(first, freshId)] + rest);
    RunSplit(cfg, t, [Stdin(first, freshId)], rest);
    RunOne(cfg, t, Stdin(first, freshId));
    AnswerCompletes(cfg, Apply(cfg, t, Stdin(first, freshId)), mid, msgs, after, initId);
  }

  lemma SameIdAnswers(init: RawMessage, response: RawMessage)
    requires init.id.Some? && Responds(response) && response.id == init.id
    ensures AnswersInit(response, TrimQuotes(init.id.value))
  {
    hide TrimQuotes;
  }

  /** The client's own initialize request: whatever the server says before it, whatever
      comes between, a response under its raw id completes the handshake. From then on
      nothing is queued, and all the posts are that request, rewritten, and the other stdin
      messages in order. */
  lemma PassthroughCompletes(cfg: Config, early: seq<Call>, init: RawMessage, freshId: string, mid: seq<Call>,
                             msgs: seq<RawMessage>, response: RawMessage, after: seq<Call>)
    requires forall call :: call in early ==> call.Server?
    requires init.id.Some? && init.methodName == Some("initialize")
    requires response in msgs && Responds(response) && response.id == init.id
    ensures var t := Run(cfg, START, Calls(early, init, freshId, mid, msgs, after));
      && t.m == Machine(Ready, [])
      && t.posted == [cfg.intercept(init)] + StdinOf(mid) + StdinOf(after)
      && t.stdout == t.server == ServerOf(Calls(early, init, freshId, mid, msgs, after))
  {
    hide Run, Calls, TrimQuotes, StdinOf, ServerOf, AnswersInit, Answer, WithoutAnswer, InitIdOf;
    var calls := Calls(early, init, freshId, mid, msgs, after);
    SameIdAnswers(init, response);
    Completes(cfg, early, init, freshId, mid, msgs, after, TrimQuotes(init.id.value));
    CallsHistory(early, init, freshId, mid, msgs, after);
    HistoryIsTheRun(cfg, START, calls);
    HandshakeTrace(cfg, calls);
    var t := Run(cfg, START, calls);
    assert t.stdin == [init] + (StdinOf(mid) + StdinOf(after));
    assert t.stdin[1..] == StdinOf(mid) + StdinOf(after);
    assert t.posted + [] == t.posted;
  }

  lemma QuotedIdAnswers(response: RawMessage, freshId: string)
    requires freshId != "" && freshId[0] != '"' && freshId[|freshId| - 1] != '"'
    requires Responds(response) && response.id == Some("\"" + freshId + "\"")
    ensures AnswersInit(response, freshId)
  {
    hide TrimQuotes;
    TrimQuoted(freshId);
  }

  /** Any other first message: the gateway posts an initialize request of its own under the
      id that it generated, in quotes, and a response under that id completes the handshake:
      the initialized notification is posted behind it, and then all stdin messages in
      order; nothing is queued any more. */
  lemma SyntheticCompletes(cfg: Config, early: seq<Call>, first: RawMessage, freshId: string, mid: seq<Call>,
                           msgs: seq<RawMessage>, response: RawMessage, after: seq<Call>)
    requires forall call :: call in early ==> call.Server?
    requires first.id.None? || first.methodName != Some("initialize")
    requires freshId != "" && freshId[0] != '"' && freshId[|freshId| - 1] != '"'
    requires response in msgs && Responds(response) && response.id == Some("\"" + freshId + "\"")
    ensures var t := Run(cfg, START, Calls(early, first, freshId, mid, msgs, after));
      && t.m == Machine(Ready, [])
      && |t.posted| >= 2 && t.posted[2..] == [first] + StdinOf(mid) + StdinOf(after)
      && t.posted[0] == RawMessage(response.id, Some("initialize"), Some(cfg.fallbackParams), None, None)
      && t.posted[1] == RawMessage(None, Some("notifications/initialized"), None, None, None)
  {
    hide Run, Calls, TrimQuotes, StdinOf, WithoutAnswer, Answer, AnswersInit, InitIdOf;
    var calls := Calls(early, first, freshId, mid, msgs, after);
    QuotedIdAnswers(response, freshId);
    Completes(cfg, early, first, freshId, mid, msgs, after, freshId);
    CallsHistory(early, first, freshId, mid, msgs, after);
    HistoryIsTheRun(cfg, START, calls);
    HandshakeTrace(cfg, calls);
    var t := Run(cfg, START, calls);
    assert t.posted + [] == t.posted;
    assert t.stdin == [] + ([first] + StdinOf(mid) + StdinOf(after));
  }

  lemma AnswerIs(t: Trace)
    requires t.seen <= |t.server| && Answer(t).Some?
    ensures var at := t.seen + Answer(t).value;
      && at < |t.server| && t.server == t.server[..at] + [t.server[at]] + t.server[at + 1..]
      && AnswersInit(t.server[at], InitIdOf(t))
      && WithoutAnswer(t) == t.server[..at] + t.server[at + 1..]
  {
    hide AnswersInit, InitIdOf;
  }

  lemma AnswersResponds(msg: RawMessage, initId: string)
    requires AnswersInit(msg, initId)
    ensures Responds(msg) && TrimQuotes(msg.id.value) == initId
  {
    hide TrimQuotes;
  }

  lemma InitIdIs(t: Trace)
    requires t.stdin != []
    ensures InitIdOf(t)
      == if t.stdin[0].id.Some? && t.stdin[0].methodName == Some("initialize") then TrimQuotes(t.stdin[0].id.value)
         else t.freshId
  {
    hide TrimQuotes;
  }

  /** And it is completed by nothing else: the server has given a result or an error whose
      id is, but for quotes, that of the init request. That one message is kept from stdout
      if the request was the gateway's own, and no other ever is. */
  lemma ReadyNeedsResponse(cfg: Config, calls: seq<Call>)
    returns (before: seq<RawMessage>, answer: RawMessage, behind: seq<RawMessage>)
    requires Run(cfg, START, calls).m.phase.Ready?
    ensures var stdin := StdinOf(calls);
      var own := stdin == [] || stdin[0].id.None? || stdin[0].methodName != Some("initialize");
      && ServerOf(calls) == before + [answer] + behind
      && Responds(answer)
      && TrimQuotes(answer.id.value) == (if own then FreshOf(calls) else TrimQuotes(stdin[0].id.value))
      && Run(cfg, START, calls).stdout == if own then before + behind else before + [answer] + behind
  {
    hide Run, TrimQuotes, StdinOf, ServerOf, FreshOf, Expected, Answer, WithoutAnswer, InitIdOf, AnswersInit;
    HistoryIsTheRun(cfg, START, calls);
    HandshakeTrace(cfg, calls);
    var t := Run(cfg, START, calls);
    assert [] + StdinOf(calls) == StdinOf(calls) && [] + ServerOf(calls) == ServerOf(calls);
    AnswerIs(t);
    InitIdIs(t);
    AnswersResponds(t.server[t.seen + Answer(t).value], InitIdOf(t));
    var at := t.seen + Answer(t).value;
    before, answer, behind := t.server[..at], t.server[at], t.server[at + 1..];
  }

  /** Trimming takes the quotes off both ends and nothing else. */
  lemma {:induction false} TrimIs(s: string) returns (left: nat, right: nat)
    ensures left + |TrimQuotes(s)| + right == |s|
    ensures forall i :: 0 <= i < |s| && !(left <= i < |s| - right) ==> s[i] == '"'
    ensures TrimQuotes(s) == s[left..|s| - right]
    ensures var r := TrimQuotes(s); r != "" ==> r[0] != '"' && r[|r| - 1] != '"'
  {
    left := TrimStartIs(s);
    right := TrimEndIs(TrimStart(s));
  }

  lemma {:induction false} TrimStartIs(s: string) returns (left: nat)
    ensures left <= |s| && TrimStart(s) == s[left..]
    ensures forall i :: 0 <= i < left ==> s[i] == '"'
    ensures TrimStart(s) != "" ==> TrimStart(s)[0] != '"'
  {
    if s != "" && s[0] == '"' {
      left := TrimStartIs(s[1..]);
      left := left + 1;
    } else {
      left := 0;
    }
  }

  lemma {:induction false} TrimEndIs(s: string) returns (right: nat)
    ensures right <= |s| && TrimEnd(s) == s[..|s| - right]
    ensures forall i :: |s| - right <= i < |s| ==> s[i] == '"'
    ensures TrimEnd(s) != "" ==> TrimEnd(s)[0] == s[0] && TrimEnd(s)[|TrimEnd(s)| - 1] != '"'
  {
    if s != "" && s[|s| - 1] == '"' {
      right := TrimEndIs(s[..|s| - 1]);
      right := right + 1;
    } else {
      right := 0;
    }
  }
}
