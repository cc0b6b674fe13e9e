/** What the child wrote in a run, and where in the clients' channels it comes back. */
module WsHistory {
  import opened Wrappers
  import opened Seqs
  import opened Decimal
  import opened JsonRpc
  import opened Channels
  import opened WsRouting
  import opened WsProofs

  // ── The child's side of a run ─────────────────────────────────────────

  /** The child's responses and its other messages, each in order; who connected first, and
      how many of the other messages had been written by then. */
  datatype History = History(
    answers: seq<RawMessage>,
    broadcasts: seq<RawMessage>,
    first: Option<ClientId>,
    before: nat)

  const NOTHING: History := History([], [], None, 0)

  function Record(h: History, step: Step): History {
    match step
    case Unmangle(msg) => h.(answers := h.answers + [msg])
    case Broadcast(msg, _) => h.(broadcasts := h.broadcasts + [msg])
    case Connect(c) => if h.first.Some? then h else h.(first := Some(c), before := |h.broadcasts|)
    case _ => h
  }

  function RecordAll(h: History, steps: seq<Step>): History
    decreases |steps|
  {
    if steps == [] then h else RecordAll(Record(h, steps[0]), steps[1..])
  }

  // ── Answers ───────────────────────────────────────────────────────────

  /** `msg` is the child's response `answer` to id `n` with only the id replaced. */
  predicate Restores(answer: RawMessage, n: nat, original: string, msg: RawMessage) {
    && answer.IsResponse()
    && ParseU64(answer.id.value) == Some(n)
    && msg == answer.(id := Some(original))
  }

  ghost predicate FromChild(answers: seq<RawMessage>, n: nat, original: string, msg: RawMessage) {
    exists p :: 0 <= p < |answers| && Restores(answers[p], n, original, msg)
  }

  ghost predicate Carried(s: State, h: History)
    requires Shape(s)
  {
    && (forall i :: 0 <= i < |s.status| && s.status[i].InFlight? ==>
          FromChild(h.answers, i + 1, s.sent[i].original, s.status[i].msg))
    && (forall k :: 0 <= k < |s.delivered| ==>
          && 1 <= s.delivered[k].mangled <= |s.sent|
          && FromChild(h.answers, s.delivered[k].mangled,
                       s.sent[s.delivered[k].mangled - 1].original, s.delivered[k].msg))
  }

  lemma StillFromChild(answers: seq<RawMessage>, more: seq<RawMessage>, n: nat, original: string, msg: RawMessage)
    requires FromChild(answers, n, original, msg)
    ensures FromChild(answers + more, n, original, msg)
  {
    hide Restores;
    var p :| 0 <= p < |answers| && Restores(answers[p], n, original, msg);
    assert (answers + more)[p] == answers[p];
  }

  lemma CarriedKept(s: State, t: State, h: History, g: History, more: seq<RawMessage>)
    requires Shape(s) && Shape(t) && Carried(s, h) && g.answers == h.answers + more
    requires t.delivered == s.delivered && s.sent <= t.sent
    requires forall i :: 0 <= i < |t.status| && t.status[i].InFlight? ==>
      i < |s.status| && s.status[i] == t.status[i]
    ensures Carried(t, g)
  {
    hide FromChild;
    forall i | 0 <= i < |t.status| && t.status[i].InFlight?
      ensures FromChild(g.answers, i + 1, t.sent[i].original, t.status[i].msg)
    {
      StillFromChild(h.answers, more, i + 1, s.sent[i].original, s.status[i].msg);
    }
    forall k | 0 <= k < |t.delivered|
      ensures 1 <= t.delivered[k].mangled <= |t.sent|
      ensures FromChild(g.answers, t.delivered[k].mangled, t.sent[t.delivered[k].mangled - 1].original, t.delivered[k].msg)
    {
      var d := s.delivered[k];
      StillFromChild(h.answers, more, d.mangled, s.sent[d.mangled - 1].original, d.msg);
    }
  }

  lemma AnsweredParses(s: State, msg: RawMessage)
    requires Answered(s, msg).Some?
    ensures msg.id.Some? && ParseU64(msg.id.value) == Answered(s, msg)
  {
    hide ParseU64;
  }

  lemma UnmangleCarries(s: State, h: History, msg: RawMessage)
    requires Inv(s) && Carried(s, h) && msg.IsResponse()
    ensures Shape(UnmangleStep(s, msg)) && Carried(UnmangleStep(s, msg), Record(h, Unmangle(msg)))
  {
    hide Tabled, Logged, Routed, Pressured, UnmangleStep, Answered, ParseU64, FromChild, Carried;
    UnmangleIs(s, msg);
    var t := UnmangleStep(s, msg);
    if Answered(s, msg).Some? {
      AnsweredParses(s, msg);
      AnswerCarries(s, t, h, msg, Answered(s, msg).value);
    } else {
      CarriedKept(s, t, h, Record(h, Unmangle(msg)), [msg]);
    }
  }

  lemma AnswerCarries(s: State, t: State, h: History, msg: RawMessage, n: nat)
    requires Shape(s) && Shape(t) && Carried(s, h)
    requires msg.IsResponse() && ParseU64(msg.id.value) == Some(n) && 1 <= n <= |s.status|
    requires t == s.(pending := t.pending,
                     status := s.status[n - 1 := InFlight(msg.(id := Some(s.sent[n - 1].original)))])
    ensures Carried(t, Record(h, Unmangle(msg)))
  {
    hide FromChild, ParseU64;
    var g := Record(h, Unmangle(msg));
    CarriedKept(s, s.(status := s.status[n - 1 := Pending]), h, g, [msg]);
    LastRestores(h.answers, msg, n, s.sent[n - 1].original);
  }

  lemma LastRestores(answers: seq<RawMessage>, msg: RawMessage, n: nat, original: string)
    requires msg.IsResponse() && ParseU64(msg.id.value) == Some(n)
    ensures FromChild(answers + [msg], n, original, msg.(id := Some(original)))
  {
    assert (answers + [msg])[|answers|] == msg;
    assert Restores((answers + [msg])[|answers|], n, original, msg.(id := Some(original)));
  }

  lemma DeliverCarries(s: State, h: History, n: nat, now: nat)
    requires Shape(s) && Carried(s, h) && Enabled(s, Deliver(n, now))
    ensures Carried(DeliverStep(s, n, now), h)
  {
    hide FateOf, AfterAttempt, TrySend, TrySendResult, FromChild;
    var t := DeliverStep(s, n, now);
    if t.status[n - 1].Delivered? {
      HandOverIs(s, n, now);
    } else {
      DropIs(s, n, now);
    }
  }

  lemma ConnectCarries(s: State, h: History, c: ClientId)
    requires Shape(s) && Carried(s, h)
    ensures Shape(ConnectStep(s, c)) && Carried(ConnectStep(s, c), Record(h, Connect(c)))
  {
    hide Carried, SendEarly;
    assert h.answers + [] == h.answers;
    CarriedKept(s, ConnectStep(s, c), h, Record(h, Connect(c)), []);
  }

  lemma StepCarries(s: State, h: History, step: Step)
    requires Inv(s) && Carried(s, h) && Enabled(s, step)
    ensures Shape(Apply(s, step)) && Carried(Apply(s, step), Record(h, step))
  {
    hide Carried, Tabled, Logged, Routed, Pressured, UnmangleStep, DeliverStep, ConnectStep, ClientsAfter, ChansAfter;
    match step
    case Unmangle(msg) => UnmangleCarries(s, h, msg);
    case Deliver(n, now) => DeliverCarries(s, h, n, now);
    case Connect(c) => ConnectCarries(s, h, c);
    case _ =>
      assert h.answers + [] == h.answers;
      CarriedKept(s, Apply(s, step), h, Record(h, step), []);
  }

  // ── Broadcasts ────────────────────────────────────────────────────────

  /** The messages of a channel that are no responses, in order. */
  function Notices(sent: seq<Event>): seq<RawMessage> {
    if sent == [] then []
    else
      var last := sent[|sent| - 1];
      Notices(sent[..|sent| - 1]) + if last.Message? && !last.msg.IsResponse() then [last.msg] else []
  }

  function EarlyCount(n: nat): nat {
    Min(n, EARLY_BUFFER_CAP)
  }

  /** The channel begins with the first `n` of the messages. */
  ghost predicate Begins(sent: seq<Event>, msgs: seq<RawMessage>, n: nat) {
    n <= |sent| && n <= |msgs| && forall k :: 0 <= k < n ==> sent[k] == Message(msgs[k])
  }

  ghost predicate Noticed(s: State, h: History) {
    forall c :: c in s.chans ==> Subsequence(Notices(s.chans[c].sent), h.broadcasts)
  }

  ghost predicate EarlyKept(s: State, h: History) {
    && (s.early.Some? <==> h.first.None?)
    && (s.early.Some? ==>
          s.chans == map[] && s.early.value == h.broadcasts[..EarlyCount(|h.broadcasts|)])
    && (h.first.Some? ==>
          && h.first.value in s.chans && h.before <= |h.broadcasts|
          && Begins(s.chans[h.first.value].sent, h.broadcasts, EarlyCount(h.before)))
  }

  lemma NoticesSend(ch: Chan<Event>, e: Event)
    ensures Notices(TrySend(ch, e, CLIENT_CHANNEL_CAP).sent) == Notices(ch.sent) +
      if TrySendResult(ch, CLIENT_CHANNEL_CAP).Sent? && e.Message? && !e.msg.IsResponse() then [e.msg] else []
  {
    assert (ch.sent + [e])[..|ch.sent|] == ch.sent;
  }

  lemma OfferNotices(ch: Chan<Event>, msg: RawMessage, broadcasts: seq<RawMessage>)
    requires Subsequence(Notices(ch.sent), broadcasts) && !msg.IsResponse()
    ensures Subsequence(Notices(TrySend(ch, Message(msg), CLIENT_CHANNEL_CAP).sent), broadcasts + [msg])
    ensures Subsequence(Notices(ch.sent), broadcasts + [msg])
  {
    hide Subsequence;
    NoticesSend(ch, Message(msg));
    SubsequenceTake(Notices(ch.sent), broadcasts, msg);
    SubsequenceSkip(Notices(ch.sent), broadcasts, msg);
    assert Notices(ch.sent) + [] == Notices(ch.sent);
  }

  lemma OtherNotices(ch: Chan<Event>, e: Event)
    requires e.Message? ==> e.msg.IsResponse()
    ensures Notices(TrySend(ch, e, CLIENT_CHANNEL_CAP).sent) == Notices(ch.sent)
  {
    NoticesSend(ch, e);
    assert Notices(ch.sent) + [] == Notices(ch.sent);
  }

  lemma BroadcastNotices(s: State, h: History, msg: RawMessage, now: nat)
    requires Shape(s) && Noticed(s, h) && !msg.IsResponse()
    ensures Noticed(BroadcastStep(s, msg, now), Record(h, Broadcast(msg, now)))
  {
    hide Subsequence, Notices, TrySend;
    forall c | c in s.chans {
      OfferNotices(s.chans[c], msg, h.broadcasts);
    }
  }

  lemma CloseAllNotices(s: State, h: History, code: nat, reason: string)
    requires Shape(s) && Noticed(s, h)
    ensures Noticed(CloseAllStep(s, code, reason), h)
  {
    hide Subsequence, Notices, TrySend;
    forall c | c in s.chans {
      OtherNotices(s.chans[c], Close(code, reason));
    }
  }

  lemma DeliverNotices(s: State, h: History, n: nat, now: nat)
    requires Shape(s) && Tabled(s) && Noticed(s, h) && Enabled(s, Deliver(n, now))
    ensures Noticed(DeliverStep(s, n, now), h)
  {
    hide Subsequence, Notices, FateOf, AfterAttempt, TrySend, TrySendResult;
    var t := DeliverStep(s, n, now);
    if t.status[n - 1].Delivered? {
      HandOverIs(s, n, now);
      OtherNotices(s.chans[s.sent[n - 1].client], Message(s.status[n - 1].msg));
    } else {
      DropIs(s, n, now);
    }
  }

  /** Early messages that all fit into a new channel are all its content. */
  lemma {:induction false} EarlyFit(ch: Chan<Event>, buffer: seq<RawMessage>, all: seq<RawMessage>)
    requires ch.open && ch.taken == 0 && |all| <= CLIENT_CHANNEL_CAP
    requires forall m :: m in all ==> !m.IsResponse()
    requires |ch.sent| + |buffer| == |all| && buffer == all[|ch.sent|..]
    requires Begins(ch.sent, all, |ch.sent|) && Notices(ch.sent) == all[..|ch.sent|]
    ensures var r := SendEarly(ch, buffer);
      |r.sent| == |all| && Begins(r.sent, all, |all|) && Notices(r.sent) == all
    decreases |buffer|
  {
    hide Notices;
    if buffer == [] {
      assert all[..|all|] == all;
    } else {
      var next := TrySend(ch, Message(buffer[0]), CLIENT_CHANNEL_CAP);
      NoticesSend(ch, Message(buffer[0]));
      assert buffer[0] == all[|ch.sent|];
      assert all[..|ch.sent|] + [all[|ch.sent|]] == all[..|ch.sent| + 1];
      EarlyFit(next, buffer[1..], all);
    }
  }

  lemma NoNotices()
    ensures Notices(NewChan<Event>().sent) == []
  {
  }

  lemma PrefixIsSubsequence(xs: seq<RawMessage>, n: nat)
    requires n <= |xs|
    ensures Subsequence(xs[..n], xs)
  {
    var at := seq(n, i => i);
    assert PickedAt(xs[..n], xs, at);
  }

  lemma FirstConnect(s: State, h: History, c: ClientId)
    requires Routed(s) && EarlyKept(s, h) && h.first.None?
    ensures var t := ConnectStep(s, c);
      && Noticed(t, h) && EarlyKept(t, Record(h, Connect(c)))
  {
    hide Subsequence, Notices, SendEarly, Responses, For, Begins;
    var n := EarlyCount(|h.broadcasts|);
    NoNotices();
    NewBegins(s.early.value);
    EarlyFit(NewChan(), s.early.value, s.early.value);
    BeginsLonger(ConnectStep(s, c).chans[c].sent, h.broadcasts, n);
    PrefixIsSubsequence(h.broadcasts, n);
  }

  lemma NewBegins(msgs: seq<RawMessage>)
    ensures NewChan<Event>().open && NewChan<Event>().taken == 0 && NewChan<Event>().sent == []
    ensures Begins([], msgs, 0)
  {
  }

  lemma BeginsLonger(sent: seq<Event>, msgs: seq<RawMessage>, n: nat)
    requires n <= |msgs| && Begins(sent, msgs[..n], n)
    ensures Begins(sent, msgs, n)
  {
  }

  lemma LaterConnect(s: State, h: History, c: ClientId)
    requires EarlyKept(s, h) && Noticed(s, h) && h.first.Some? && c !in s.chans
    ensures var t := ConnectStep(s, c);
      && Noticed(t, h) && EarlyKept(t, Record(h, Connect(c)))
  {
    hide Subsequence, Notices, Begins;
    NoNotices();
    SubsequenceEmpty(h.broadcasts);
  }

  /** No step takes anything back out of what a channel was sent. */
  lemma SentGrows(s: State, step: Step)
    requires Shape(s) && Enabled(s, step)
    ensures forall c :: c in s.chans ==>
      c in Apply(s, step).chans && s.chans[c].sent <= Apply(s, step).chans[c].sent
  {
    hide FateOf, AfterAttempt, SendEarly, PurgeStep, UnmangleStep, ClientsAfter;
    match step
    case Unmangle(msg) => UnmangleChans(s, msg);
    case Purge(c) => PurgeChans(s, {c});
    case _ =>
  }

  lemma UnmangleChans(s: State, msg: RawMessage)
    ensures UnmangleStep(s, msg).chans == s.chans && UnmangleStep(s, msg).early == s.early
  {
    hide Answered;
  }

  lemma PurgeChans(s: State, cs: set<ClientId>)
    requires Shape(s)
    ensures PurgeStep(s, cs).chans == s.chans && PurgeStep(s, cs).early == s.early
  {
    hide KeptEntries;
  }

  lemma EarlyKeptStill(s: State, t: State, h: History, g: History, more: seq<RawMessage>)
    requires EarlyKept(s, h) && g == h.(broadcasts := h.broadcasts + more)
    requires forall c :: c in s.chans ==> c in t.chans && s.chans[c].sent <= t.chans[c].sent
    requires t.early.Some? <==> s.early.Some?
    requires t.early.Some? ==>
      t.chans == map[] && t.early.value == g.broadcasts[..EarlyCount(|g.broadcasts|)]
    ensures EarlyKept(t, g)
  {
  }

  lemma BroadcastKeepsEarly(s: State, h: History, msg: RawMessage, now: nat)
    requires Shape(s) && EarlyKept(s, h) && Enabled(s, Broadcast(msg, now))
    ensures EarlyKept(BroadcastStep(s, msg, now), Record(h, Broadcast(msg, now)))
  {
    hide EarlyKept, TrySend, TrySendResult, FateOf, AfterAttempt, Begins, BroadcastStep;
    SentGrows(s, Broadcast(msg, now));
    BroadcastEarly(s, h, msg, now);
    EarlyKeptStill(s, BroadcastStep(s, msg, now), h, Record(h, Broadcast(msg, now)), [msg]);
  }

  lemma BroadcastEarly(s: State, h: History, msg: RawMessage, now: nat)
    requires Shape(s) && EarlyKept(s, h)
    ensures var t := BroadcastStep(s, msg, now);
      var written := h.broadcasts + [msg];
      && (t.early.Some? <==> s.early.Some?)
      && (t.early.Some? ==> t.chans == map[] && t.early.value == written[..EarlyCount(|written|)])
  {
    hide ClientsAfter, ChansAfter, Begins;
  }

  lemma StepNotices(s: State, h: History, step: Step)
    requires Inv(s) && Noticed(s, h) && EarlyKept(s, h) && Enabled(s, step)
    ensures Noticed(Apply(s, step), Record(h, step)) && EarlyKept(Apply(s, step), Record(h, step))
  {
    hide Noticed, EarlyKept, Tabled, Logged, Routed, Pressured, Apply;
    match step
    case Broadcast(msg, now) =>
      BroadcastIs(s, msg, now);
      BroadcastNotices(s, h, msg, now);
      BroadcastKeepsEarly(s, h, msg, now);
    case Connect(c) =>
      ConnectNotices(s, h, c);
    case _ =>
      OtherStep(s, h, step);
  }

  lemma BroadcastIs(s: State, msg: RawMessage, now: nat)
    requires Shape(s) && Enabled(s, Broadcast(msg, now))
    ensures Apply(s, Broadcast(msg, now)) == BroadcastStep(s, msg, now)
  {
  }

  lemma ConnectNotices(s: State, h: History, c: ClientId)
    requires Inv(s) && Noticed(s, h) && EarlyKept(s, h) && c !in s.chans
    ensures var t := Apply(s, Connect(c)); Noticed(t, Record(h, Connect(c))) && EarlyKept(t, Record(h, Connect(c)))
  {
    hide Noticed, EarlyKept, Tabled, Logged, Routed, Pressured, ConnectStep;
    if h.first.None? {
      FirstConnect(s, h, c);
      NoticedOnly(ConnectStep(s, c), h, Record(h, Connect(c)));
    } else {
      LaterConnect(s, h, c);
    }
  }

  lemma NoticedOnly(s: State, h: History, g: History)
    requires Noticed(s, h) && g.broadcasts == h.broadcasts
    ensures Noticed(s, g)
  {
  }

  lemma OtherStep(s: State, h: History, step: Step)
    requires Inv(s) && Noticed(s, h) && EarlyKept(s, h) && Enabled(s, step)
    requires !step.Broadcast? && !step.Connect?
    ensures Noticed(Apply(s, step), Record(h, step)) && EarlyKept(Apply(s, step), Record(h, step))
  {
    hide Noticed, EarlyKept, Tabled, Logged, Routed, Pressured, Apply;
    SentGrows(s, step);
    EarlyAlone(s, h, step);
    var t := Apply(s, step);
    var plain := Record(h, step).(answers := h.answers);
    assert h.broadcasts + [] == h.broadcasts;
    EarlyKeptStill(s, t, h, plain, []);
    OtherNoticed(s, h, step);
    AnswersAside(t, plain, Record(h, step));
  }

  lemma AnswersAside(s: State, h: History, g: History)
    requires Noticed(s, h) && EarlyKept(s, h) && g == h.(answers := g.answers)
    ensures Noticed(s, g) && EarlyKept(s, g)
  {
  }

  lemma EarlyAlone(s: State, h: History, step: Step)
    requires Shape(s) && EarlyKept(s, h) && Enabled(s, step) && !step.Broadcast? && !step.Connect?
    ensures Apply(s, step).early == s.early
    ensures s.early.Some? ==> s.early.value == h.broadcasts[..EarlyCount(|h.broadcasts|)]
    ensures s.early.Some? ==> Apply(s, step).chans == map[]
  {
    hide FateOf, AfterAttempt, TrySend, TrySendResult, PurgeStep, UnmangleStep, Begins, EarlyCount;
    match step
    case Unmangle(msg) => UnmangleChans(s, msg);
    case Purge(c) => PurgeChans(s, {c});
    case _ =>
  }

  lemma OtherNoticed(s: State, h: History, step: Step)
    requires Inv(s) && Noticed(s, h) && Enabled(s, step) && !step.Broadcast? && !step.Connect?
    ensures Noticed(Apply(s, step), h)
  {
    hide Logged, Routed, Pressured, Tabled, Notices, Subsequence, PurgeStep, UnmangleStep, DeliverStep, CloseAllStep;
    match step
    case Unmangle(msg) => UnmangleChans(s, msg);
    case Purge(c) => PurgeChans(s, {c});
    case Deliver(n, now) => DeliverNotices(s, h, n, now);
    case CloseAll(code, reason) => CloseAllNotices(s, h, code, reason);
    case _ =>
  }

  // ── Runs ──────────────────────────────────────────────────────────────

  ghost predicate Told(s: State, h: History) {
    Inv(s) && Carried(s, h) && Noticed(s, h) && EarlyKept(s, h)
  }

  lemma {:induction false} RunTells(s: State, h: History, steps: seq<Step>)
    requires Told(s, h) && Run(s, steps).Some?
    ensures Told(Run(s, steps).value, RecordAll(h, steps))
    decreases |steps|
  {
    hide Apply, Record, Tabled, Logged, Routed, Pressured, Carried, Noticed, EarlyKept;
    if steps == [] {
    } else {
      StepKeeps(s, steps[0]);
      StepCarries(s, h, steps[0]);
      StepNotices(s, h, steps[0]);
      RunTells(Apply(s, steps[0]), Record(h, steps[0]), steps[1..]);
    }
  }

  lemma Tells(steps: seq<Step>)
    requires Run(INIT, steps).Some?
    ensures Told(Run(INIT, steps).value, RecordAll(NOTHING, steps))
  {
    hide Run, RecordAll;
    StartInv();
    RunTells(INIT, NOTHING, steps);
  }

  lemma StartInv()
    ensures Inv(INIT)
  {
    Reachable([]);
  }

  /** Over all runs: what is in a client's channel besides responses and close frames is a
      subsequence of what the child wrote besides responses. */
  lemma BroadcastsInOrder(steps: seq<Step>, c: ClientId)
    requires Run(INIT, steps).Some? && c in Run(INIT, steps).value.chans
    ensures Subsequence(Notices(Run(INIT, steps).value.chans[c].sent), RecordAll(NOTHING, steps).broadcasts)
  {
    hide Run, RecordAll, Tabled, Logged, Routed, Pressured, Carried, EarlyKept, Subsequence, Notices;
    Tells(steps);
  }

  /** The channel of the client that connected first begins with what the child had written
      besides responses before, up to 256 messages of it. */
  lemma FirstClientGetsEarly(steps: seq<Step>)
    requires Run(INIT, steps).Some? && RecordAll(NOTHING, steps).first.Some?
    ensures var s, h := Run(INIT, steps).value, RecordAll(NOTHING, steps);
      && h.first.value in s.chans
      && Begins(s.chans[h.first.value].sent, h.broadcasts, Min(h.before, EARLY_BUFFER_CAP))
  {
    hide Run, RecordAll, Tabled, Logged, Routed, Pressured, Carried, Noticed, Begins;
    Tells(steps);
  }
}
