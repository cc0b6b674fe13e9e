/** The initialization handshake shared by the SSE and the streamable HTTP client gateway. */
module Handshake {
  import opened Wrappers
  import opened JsonRpc

  datatype Phase =
    | Pending
    | WaitingSyntheticInit(initId: string)
    | WaitingPassthroughInit(initId: string)
    | Ready

  datatype Machine = Machine(phase: Phase, pending: seq<RawMessage>)

  /** The parts of the gateway the handshake does not look into: the rewriting of the
      protocol version, and the parameters of the synthetic request. */
  datatype Config = Config(intercept: RawMessage -> RawMessage, fallbackParams: Json)

  datatype Effects = Effects(stdout: seq<RawMessage>, post: seq<RawMessage>)

  function FallbackInit(cfg: Config, initId: string): RawMessage {
    RawMessage(Some("\"" + initId + "\""), Some("initialize"), Some(cfg.fallbackParams), None, None)
  }

  function InitializedNotification(): RawMessage {
    RawMessage(None, Some("notifications/initialized"), None, None, None)
  }

  function TrimmedId(msg: RawMessage): string {
    match msg.id case Some(id) => TrimQuotes(id) case None => ""
  }

  predicate AnswersInit(msg: RawMessage, initId: string) {
    msg.IsResponse() && msg.id.Some? && TrimQuotes(msg.id.value) == initId
  }

  // ── Handlers ──────────────────────────────────────────────────────────

  /** A stdin message; `freshId` is the id generated if a synthetic request is needed. */
  function OnStdin(cfg: Config, m: Machine, msg: RawMessage, freshId: string): (Machine, Effects) {
    match m.phase
    case Pending =>
      if msg.IsInitializeRequest() then
        (Machine(WaitingPassthroughInit(TrimmedId(msg)), m.pending), Effects([], [cfg.intercept(msg)]))
      else
        (Machine(WaitingSyntheticInit(freshId), m.pending + [msg]), Effects([], [FallbackInit(cfg, freshId)]))
    case WaitingSyntheticInit(_) => (m.(pending := m.pending + [msg]), Effects([], []))
    case WaitingPassthroughInit(_) => (m.(pending := m.pending + [msg]), Effects([], []))
    case Ready => (m, Effects([], [msg]))
  }

  /** Position of the first answer to the init request. */
  function FindAnswer(msgs: seq<RawMessage>, initId: string): (r: Option<nat>)
    ensures r.Some? ==> r.value < |msgs| && AnswersInit(msgs[r.value], initId)
    ensures forall i :: 0 <= i < (if r.Some? then r.value else |msgs|) ==> !AnswersInit(msgs[i], initId)
  {
    if msgs == [] then None
    else if AnswersInit(msgs[0], initId) then Some(0)
    else match FindAnswer(msgs[1..], initId)
      case None => None
      case Some(i) => Some(i + 1)
  }

  function Without(s: seq<RawMessage>, at: nat): seq<RawMessage>
    requires at < |s|
  {
    s[..at] + s[at + 1..]
  }

  /** What the server's answer decides: the messages for stdout, and the head of the posts
      that are to precede the queued messages if the handshake is now complete. */
  function OnServerLocked(m: Machine, msgs: seq<RawMessage>): (Machine, seq<RawMessage>, Option<seq<RawMessage>>) {
    match m.phase
    case WaitingSyntheticInit(initId) =>
      (match FindAnswer(msgs, initId)
       case Some(i) => (m.(phase := Ready), Without(msgs, i), Some([InitializedNotification()]))
       case None => (m, msgs, None))
    case WaitingPassthroughInit(initId) =>
      (match FindAnswer(msgs, initId)
       case Some(_) => (m.(phase := Ready), msgs, Some([]))
       case None => (m, msgs, None))
    case _ => (m, msgs, None)
  }

  function OnServer(m: Machine, msgs: seq<RawMessage>): (Machine, Effects) {
    var (n, stdout, head) := OnServerLocked(m, msgs);
    match head
    case None => (n, Effects(stdout, []))
    case Some(first) => (n.(pending := []), Effects(stdout, first + n.pending))
  }

  // ── Runs of atomic handler calls ──────────────────────────────────────

  datatype Call = Stdin(msg: RawMessage, freshId: string) | Server(msgs: seq<RawMessage>)

  /** A machine with its whole history. `seen` is how much the server had sent when the
      init request was posted. */
  datatype Trace = Trace(
    m: Machine,
    stdin: seq<RawMessage>, server: seq<RawMessage>,
    posted: seq<RawMessage>, stdout: seq<RawMessage>,
    freshId: string, seen: nat)

  const START: Trace := Trace(Machine(Pending, []), [], [], [], [], "", 0)

  function Apply(cfg: Config, t: Trace, call: Call): Trace {
    match call
    case Stdin(msg, freshId) =>
      var (m, e) := OnStdin(cfg, t.m, msg, freshId);
      t.(m := m, stdin := t.stdin + [msg], posted := t.posted + e.post, stdout := t.stdout + e.stdout,
         freshId := if t.m.phase.Pending? then freshId else t.freshId,
         seen := if t.m.phase.Pending? then |t.server| else t.seen)
    case Server(msgs) =>
      var (m, e) := OnServer(t.m, msgs);
      t.(m := m, server := t.server + msgs, posted := t.posted + e.post, stdout := t.stdout + e.stdout)
  }

  function Run(cfg: Config, t: Trace, calls: seq<Call>): Trace
    decreases |calls|
  {
    if calls == [] then t else Run(cfg, Apply(cfg, t, calls[0]), calls[1..])
  }

  /** The first stdin message decides the mode for good. */
  predicate Passthrough(t: Trace) {
    t.stdin != [] && t.stdin[0].IsInitializeRequest()
  }

  function InitIdOf(t: Trace): string {
    if Passthrough(t) then TrimmedId(t.stdin[0]) else t.freshId
  }

  /** What `posted ++ pending` is. */
  function Expected(cfg: Config, t: Trace): seq<RawMessage> {
    if t.stdin == [] then []
    else if Passthrough(t) then [cfg.intercept(t.stdin[0])] + t.stdin[1..]
    else if t.m.phase.Ready? then [FallbackInit(cfg, t.freshId), InitializedNotification()] + t.stdin
    else [FallbackInit(cfg, t.freshId)] + t.stdin
  }

  /** Posts: in stdin order, only the init request before Ready, everything after. */
  ghost predicate PostInv(cfg: Config, t: Trace) {
    && t.posted + t.m.pending == Expected(cfg, t)
    && (t.m.phase.Pending? <==> t.stdin == [])
    && (t.m.phase.WaitingSyntheticInit? ==> !Passthrough(t) && t.m.phase.initId == t.freshId)
    && (t.m.phase.WaitingPassthroughInit? ==> Passthrough(t) && t.m.phase.initId == TrimmedId(t.stdin[0]))
    && (t.m.phase.Ready? ==> t.m.pending == [])
    && (t.m.phase.Pending? ==> t.posted == [])
    && (!t.m.phase.Ready? && !t.m.phase.Pending? ==> |t.posted| == 1)
  }

  /** The answer in what the server sent after the init request was posted. */
  function Answer(t: Trace): Option<nat>
    requires t.seen <= |t.server|
  {
    FindAnswer(t.server[t.seen..], InitIdOf(t))
  }

  function WithoutAnswer(t: Trace): seq<RawMessage>
    requires t.seen <= |t.server|
  {
    match Answer(t)
    case None => t.server
    case Some(i) => Without(t.server, t.seen + i)
  }

  /** Stdout: the server's messages, less the one answer to a synthetic request. */
  ghost predicate StdoutInv(t: Trace) {
    && t.seen <= |t.server|
    && (t.m.phase.Ready? <==> t.stdin != [] && Answer(t).Some?)
    && t.stdout == if t.stdin != [] && !Passthrough(t) then WithoutAnswer(t) else t.server
  }

  // ── Proofs ────────────────────────────────────────────────────────────

  lemma {:induction false} FindAppend(a: seq<RawMessage>, b: seq<RawMessage>, initId: string)
    ensures FindAnswer(a + b, initId) ==
      match FindAnswer(a, initId)
      case Some(i) => Some(i)
      case None => match FindAnswer(b, initId) case Some(j) => Some(|a| + j) case None => None
  {
    if a == [] {
      assert a + b == b;
    } else {
      assert (a + b)[0] == a[0] && (a + b)[1..] == a[1..] + b;
      FindAppend(a[1..], b, initId);
    }
  }

  lemma LaterStdinIs(cfg: Config, t: Trace, msg: RawMessage, freshId: string)
    requires !t.m.phase.Pending?
    ensures var u := Apply(cfg, t, Stdin(msg, freshId));
      && u.m.phase == t.m.phase && u.stdin == t.stdin + [msg] && u.freshId == t.freshId
      && (if t.m.phase.Ready? then u.m == t.m && u.posted == t.posted + [msg]
          else u.m.pending == t.m.pending + [msg] && u.posted == t.posted)
  {
    assert t.posted + [] == t.posted;
  }

  lemma LaterExpected(cfg: Config, t: Trace, u: Trace, msg: RawMessage)
    requires t.stdin != [] && u.stdin == t.stdin + [msg] && u.freshId == t.freshId && u.m.phase == t.m.phase
    ensures Expected(cfg, u) == Expected(cfg, t) + [msg]
    ensures Passthrough(u) == Passthrough(t) && u.stdin[0] == t.stdin[0]
  {
    assert u.stdin[0] == t.stdin[0] && u.stdin[1..] == t.stdin[1..] + [msg];
  }

  lemma FirstStdinKeepsPosts(cfg: Config, t: Trace, msg: RawMessage, freshId: string)
    requires PostInv(cfg, t) && t.m.phase.Pending?
    ensures PostInv(cfg, Apply(cfg, t, Stdin(msg, freshId)))
  {
    hide TrimmedId, FallbackInit;
    var u := Apply(cfg, t, Stdin(msg, freshId));
    assert t.posted == [] && t.m.pending == [] by {
      assert t.posted + t.m.pending == Expected(cfg, t) == [];
    }
    assert u.stdin == [msg] && u.stdin[1..] == [];
    if msg.IsInitializeRequest() {
      assert u.posted == [cfg.intercept(msg)] && u.m.pending == [];
    } else {
      assert u.posted == [FallbackInit(cfg, freshId)] && u.m.pending == [msg];
    }
  }

  lemma StdinKeepsPosts(cfg: Config, t: Trace, msg: RawMessage, freshId: string)
    requires PostInv(cfg, t)
    ensures PostInv(cfg, Apply(cfg, t, Stdin(msg, freshId)))
  {
    if t.m.phase.Pending? {
      FirstStdinKeepsPosts(cfg, t, msg, freshId);
    } else {
      hide Apply, Expected, TrimQuotes;
      var u := Apply(cfg, t, Stdin(msg, freshId));
      LaterStdinIs(cfg, t, msg, freshId);
      LaterExpected(cfg, t, u, msg);
      assert t.posted + [msg] + [] == t.posted + [] + [msg];
      assert t.posted + (t.m.pending + [msg]) == t.posted + t.m.pending + [msg];
    }
  }

  lemma ServerIs(cfg: Config, t: Trace, msgs: seq<RawMessage>)
    ensures var u := Apply(cfg, t, Server(msgs));
      && u.stdin == t.stdin && u.freshId == t.freshId
      && (if u.m.phase == t.m.phase then u.m == t.m && u.posted == t.posted
          else
            && u.m == Machine(Ready, [])
            && (t.m.phase.WaitingSyntheticInit? || t.m.phase.WaitingPassthroughInit?)
            && u.posted == t.posted
                 + ((if t.m.phase.WaitingSyntheticInit? then [InitializedNotification()] else []) + t.m.pending))
  {
    hide FindAnswer, Without, InitializedNotification;
    assert t.posted + [] == t.posted;
  }

  /** While the handshake waits, the init request is posted and the rest is queued. */
  lemma WaitingPosts(cfg: Config, t: Trace)
    requires PostInv(cfg, t) && (t.m.phase.WaitingSyntheticInit? || t.m.phase.WaitingPassthroughInit?)
    ensures t.stdin != []
    ensures if Passthrough(t) then t.posted == [cfg.intercept(t.stdin[0])] && t.m.pending == t.stdin[1..]
            else t.posted == [FallbackInit(cfg, t.freshId)] && t.m.pending == t.stdin
  {
    hide FallbackInit, TrimmedId;
    var all := Expected(cfg, t);
    assert t.posted == [all[0]] && t.m.pending == all[1..] by {
      assert all == t.posted + t.m.pending;
    }
  }

  lemma ServerKeepsPosts(cfg: Config, t: Trace, msgs: seq<RawMessage>)
    requires PostInv(cfg, t)
    ensures PostInv(cfg, Apply(cfg, t, Server(msgs)))
  {
    hide Apply, FallbackInit, InitializedNotification, TrimmedId;
    var u := Apply(cfg, t, Server(msgs));
    ServerIs(cfg, t, msgs);
    if u.m.phase != t.m.phase {
      WaitingPosts(cfg, t);
      assert u.posted + [] == u.posted;
      if Passthrough(t) {
        assert [] + t.m.pending == t.m.pending;
      } else {
        var fallback, initialized := FallbackInit(cfg, t.freshId), InitializedNotification();
        assert [fallback] + ([initialized] + t.stdin) == [fallback, initialized] + t.stdin;
      }
    }
  }

  lemma StdinKeepsStdout(cfg: Config, t: Trace, msg: RawMessage, freshId: string)
    requires PostInv(cfg, t) && StdoutInv(t)
    ensures StdoutInv(Apply(cfg, t, Stdin(msg, freshId)))
  {
    hide Expected, AnswersInit, Without;
    var u := Apply(cfg, t, Stdin(msg, freshId));
    if t.stdin == [] {
      assert t.server[|t.server|..] == [];
    } else {
      hide FindAnswer;
      assert u.stdin[0] == t.stdin[0];
      assert InitIdOf(u) == InitIdOf(t);
      assert Answer(u) == Answer(t);
    }
  }

  lemma WithoutAppend(a: seq<RawMessage>, b: seq<RawMessage>, at: nat)
    requires at < |a| + |b|
    ensures Without(a + b, at) == if at < |a| then Without(a, at) + b else a + Without(b, at - |a|)
  {
  }

  lemma AnswerExtends(t: Trace, u: Trace, msgs: seq<RawMessage>)
    requires t.seen <= |t.server| && u.server == t.server + msgs
    requires u.seen == t.seen && InitIdOf(u) == InitIdOf(t)
    ensures Answer(t).Some? ==> t.seen + Answer(t).value < |t.server|
    ensures FindAnswer(msgs, InitIdOf(t)).Some? ==> FindAnswer(msgs, InitIdOf(t)).value < |msgs|
    ensures Answer(u) ==
      match Answer(t)
      case Some(i) => Some(i)
      case None =>
        match FindAnswer(msgs, InitIdOf(t))
        case Some(j) => Some(|t.server| - t.seen + j)
        case None => None
  {
    hide InitIdOf;
    assert u.server[t.seen..] == t.server[t.seen..] + msgs;
    FindAppend(t.server[t.seen..], msgs, InitIdOf(t));
  }

  /** How the answer of a longer history follows from the shorter one. */
  lemma AnswerAppend(t: Trace, u: Trace, msgs: seq<RawMessage>)
    requires t.seen <= |t.server| && u.server == t.server + msgs
    requires u.seen == t.seen && InitIdOf(u) == InitIdOf(t)
    ensures Answer(t).Some? ==> Answer(u) == Answer(t) && WithoutAnswer(u) == WithoutAnswer(t) + msgs
    ensures Answer(t).None? ==> WithoutAnswer(t) == t.server
    ensures Answer(t).None? && FindAnswer(msgs, InitIdOf(t)).None? ==>
      Answer(u).None? && WithoutAnswer(u) == u.server
    ensures Answer(t).None? && FindAnswer(msgs, InitIdOf(t)).Some? ==>
      Answer(u).Some? && WithoutAnswer(u) == t.server + Without(msgs, FindAnswer(msgs, InitIdOf(t)).value)
  {
    hide FindAnswer, Without, InitIdOf, Answer;
    AnswerExtends(t, u, msgs);
    var k := t.seen;
    if Answer(t).Some? {
      WithoutAppend(t.server, msgs, k + Answer(t).value);
    } else if FindAnswer(msgs, InitIdOf(t)).Some? {
      WithoutAppend(t.server, msgs, |t.server| + FindAnswer(msgs, InitIdOf(t)).value);
    }
  }

  lemma ServerKeepsStdout(cfg: Config, t: Trace, msgs: seq<RawMessage>)
    requires PostInv(cfg, t) && StdoutInv(t)
    ensures StdoutInv(Apply(cfg, t, Server(msgs)))
  {
    hide FindAnswer, Answer, WithoutAnswer, Expected;
    AnswerAppend(t, Apply(cfg, t, Server(msgs)), msgs);
  }

  lemma ReadyKept(cfg: Config, t: Trace, call: Call)
    requires t.m.phase.Ready?
    ensures Apply(cfg, t, call).m.phase.Ready?
    ensures call.Stdin? ==> Apply(cfg, t, call).posted == t.posted + [call.msg]
    ensures call.Server? ==> Apply(cfg, t, call).stdout == t.stdout + call.msgs
  {
  }

  lemma {:induction false} RunKeeps(cfg: Config, t: Trace, calls: seq<Call>)
    requires PostInv(cfg, t) && StdoutInv(t)
    ensures PostInv(cfg, Run(cfg, t, calls)) && StdoutInv(Run(cfg, t, calls))
    ensures t.m.phase.Ready? ==> Run(cfg, t, calls).m.phase.Ready?
    decreases |calls|
  {
    hide Apply, PostInv, StdoutInv;
    if calls == [] {
    } else {
      match calls[0]
      case Stdin(msg, freshId) =>
        StdinKeepsPosts(cfg, t, msg, freshId);
        StdinKeepsStdout(cfg, t, msg, freshId);
      case Server(msgs) =>
        ServerKeepsPosts(cfg, t, msgs);
        ServerKeepsStdout(cfg, t, msgs);
    }
    if calls == [] {
    } else {
      if t.m.phase.Ready? {
        ReadyKept(cfg, t, calls[0]);
      }
      RunKeeps(cfg, Apply(cfg, t, calls[0]), calls[1..]);
    }
  }

  /** Whatever the handlers are called with, and in whatever order: what has been posted
      and what is queued make up the expected sequence, in stdin order; nothing but the init
      request is posted before Ready, nothing is queued afterwards; and stdout is the
      server's messages with the first answer to a synthetic request taken out. */
  lemma HandshakeTrace(cfg: Config, calls: seq<Call>)
    ensures var t := Run(cfg, START, calls);
      && t.posted + t.m.pending == Expected(cfg, t)
      && (!t.m.phase.Ready? ==> |t.posted| <= 1)
      && (t.m.phase.Ready? ==> t.m.pending == [])
      && t.seen <= |t.server|
      && (t.m.phase.Ready? <==> t.stdin != [] && Answer(t).Some?)
      && t.stdout == (if t.stdin != [] && !Passthrough(t) then WithoutAnswer(t) else t.server)
  {
    RunKeeps(cfg, START, calls);
  }

  /** Ready is never left. */
  lemma ReadyForever(cfg: Config, before: seq<Call>, after: seq<Call>)
    requires Run(cfg, START, before).m.phase.Ready?
    ensures Run(cfg, Run(cfg, START, before), after).m.phase.Ready?
  {
    RunKeeps(cfg, START, before);
    RunKeeps(cfg, Run(cfg, START, before), after);
  }

  /** A server that echoes the synthetic request's id completes the handshake. */
  lemma EchoCompletes(cfg: Config, initId: string, answer: RawMessage)
    requires initId != "" && initId[0] != '"' && initId[|initId| - 1] != '"'
    requires answer.IsResponse() && answer.id == FallbackInit(cfg, initId).id
    ensures AnswersInit(answer, initId)
  {
    TrimQuoted(initId);
  }
}
