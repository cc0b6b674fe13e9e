/** The SSE gateway as a step system. Every step is one section under its mutex, or the
    receiving side of a client's channel. */
module SseBroadcast {
  import opened Wrappers
  import opened Seqs
  import opened Channels
  import opened SseWire

  type SessionId = string

  const EARLY_BUFFER_CAP: nat := 256

  datatype State = State(
    clients: map<SessionId, Client>,
    chans: map<SessionId, Chan<ServerEvent>>, // a channel outlives its registration
    early: Option<seq<string>>,
    counter: nat,
    output: seq<string>,       // history: what the child has written
    source: seq<nat>,          // history: where in the output event id n + 1 comes from
    first: Option<SessionId>,  // history: the first client
    before: nat,               // history: how much was written before it came
    clock: nat)

  datatype Step =
    | Relay(json: string, now: nat)
    | Connect(id: SessionId, url: string)
    | Disconnect(id: SessionId)
    | Receiving(id: SessionId)
    | HangUp(id: SessionId)

  const INIT: State := State(map[], map[], Some([]), 0, [], [], None, 0, 0)

  /** Time does not go back, and session ids are not reused. */
  predicate Enabled(s: State, step: Step) {
    match step
    case Relay(_, now) => s.clock <= now
    case Connect(id, _) => id !in s.chans
    case Receiving(id) => id in s.chans
    case HangUp(id) => id in s.chans
    case Disconnect(_) => true
  }

  function RelayStep(s: State, json: string, now: nat): State
    requires s.clients.Keys <= s.chans.Keys
  {
    var t := s.(output := s.output + [json], clock := now);
    if s.early.Some? && s.clients == map[] then
      if |s.early.value| < EARLY_BUFFER_CAP then t.(early := Some(s.early.value + [json])) else t
    else
      t.(counter := s.counter + 1,
         source := s.source + [|s.output|],
         clients := ClientsAfter(s.clients, s.chans, now),
         chans := ChansAfter(s.clients, s.chans, Message(json, s.counter + 1)))
  }

  /** Hand the early messages, numbered on from `counter`, to a new channel. */
  function SendEarly(ch: Chan<ServerEvent>, counter: nat, buffer: seq<string>): Chan<ServerEvent>
    decreases |buffer|
  {
    if buffer == [] then ch
    else SendEarly(TrySend(ch, Message(buffer[0], counter + 1), CLIENT_CHANNEL_CAP), counter + 1, buffer[1..])
  }

  function ConnectStep(s: State, id: SessionId, url: string): State {
    var ch := TrySend(NewChan(), Endpoint(url), CLIENT_CHANNEL_CAP);
    match s.early
    case None =>
      s.(clients := s.clients[id := FRESH_CLIENT], chans := s.chans[id := ch])
    case Some(buffer) =>
      s.(clients := s.clients[id := FRESH_CLIENT],
         chans := s.chans[id := SendEarly(ch, s.counter, buffer)],
         early := None,
         counter := s.counter + |buffer|,
         source := s.source + seq(|buffer|, i => i),
         first := Some(id),
         before := |s.output|)
  }

  function Apply(s: State, step: Step): State
    requires s.clients.Keys <= s.chans.Keys && Enabled(s, step)
  {
    match step
    case Relay(json, now) => RelayStep(s, json, now)
    case Connect(id, url) => ConnectStep(s, id, url)
    case Disconnect(id) => s.(clients := s.clients - {id})
    case Receiving(id) => s.(chans := s.chans[id := Receive(s.chans[id])])
    case HangUp(id) => s.(chans := s.chans[id := s.chans[id].(open := false)])
  }

  lemma RegisteredHaveChannels(s: State, step: Step)
    requires s.clients.Keys <= s.chans.Keys && Enabled(s, step)
    ensures Apply(s, step).clients.Keys <= Apply(s, step).chans.Keys
  {
  }

  function Run(s: State, steps: seq<Step>): Option<State>
    requires s.clients.Keys <= s.chans.Keys
    decreases |steps|
  {
    if steps == [] then Some(s)
    else if !Enabled(s, steps[0]) then None
    else RegisteredHaveChannels(s, steps[0]); Run(Apply(s, steps[0]), steps[1..])
  }

  // ── The invariant ─────────────────────────────────────────────────────

  /** An endpoint event, then messages with growing ids whose text is what the child wrote
      at the place recorded for the id. */
  ghost predicate Ordered(sent: seq<ServerEvent>, counter: nat, source: seq<nat>, output: seq<string>)
    requires |source| == counter
  {
    && |sent| >= 1 && sent[0].Endpoint?
    && (forall k :: 1 <= k < |sent| ==>
          && sent[k].Message?
          && 1 <= sent[k].eventId <= counter
          && source[sent[k].eventId - 1] < |output|
          && sent[k].data == output[source[sent[k].eventId - 1]])
    && (forall j, k :: 1 <= j < k < |sent| ==> sent[j].eventId < sent[k].eventId)
  }

  ghost predicate Numbered(s: State) {
    && |s.source| == s.counter
    && Increasing(s.source)
    && forall i :: 0 <= i < |s.source| ==> s.source[i] < |s.output|
  }

  ghost predicate Streams(s: State)
    requires |s.source| == s.counter
  {
    forall id :: id in s.chans ==> s.chans[id].Valid() && Ordered(s.chans[id].sent, s.counter, s.source, s.output)
  }

  /** The stream begins with the first early messages, as many as fit behind the endpoint. */
  ghost predicate StartsEarly(sent: seq<ServerEvent>, output: seq<string>, n: nat)
    requires n <= |output|
  {
    && |sent| >= n + 1
    && forall k :: 0 <= k < n ==> sent[k + 1] == Message(output[k], k + 1)
  }

  ghost predicate Early(s: State) {
    && (s.early.Some? ==>
          && s.clients == map[] && s.chans == map[] && s.counter == 0 && s.source == []
          && s.early.value == s.output[..Min(|s.output|, EARLY_BUFFER_CAP)])
    && (s.early.None? ==>
          && s.first.Some? && s.first.value in s.chans && s.before <= |s.output|
          && StartsEarly(s.chans[s.first.value].sent, s.output, Min(s.before, CLIENT_CHANNEL_CAP - 1)))
  }

  ghost predicate Pressured(s: State) {
    forall id :: id in s.clients ==> Faithful(s.clients[id], s.clock)
  }

  ghost predicate Inv(s: State) {
    && s.clients.Keys <= s.chans.Keys
    && Numbered(s) && Streams(s) && Early(s) && Pressured(s)
  }

  // ── Each step keeps it ────────────────────────────────────────────────

  lemma OrderedGrows(sent: seq<ServerEvent>, s: State, json: string)
    requires Numbered(s) && Ordered(sent, s.counter, s.source, s.output)
    ensures Ordered(sent, s.counter + 1, s.source + [|s.output|], s.output + [json])
    ensures Ordered(sent + [Message(json, s.counter + 1)], s.counter + 1, s.source + [|s.output|], s.output + [json])
    ensures Ordered(sent, s.counter, s.source, s.output + [json])
  {
  }

  lemma RelayKeeps(s: State, json: string, now: nat)
    requires Inv(s) && s.clock <= now
    ensures Inv(RelayStep(s, json, now))
  {
    var t := RelayStep(s, json, now);
    RelayKeepsStreams(s, json, now);
    RelayKeepsPressure(s, json, now);
    if s.early.Some? {
      var n := |s.output|;
      assert t.output[..Min(n + 1, EARLY_BUFFER_CAP)]
        == if n < EARLY_BUFFER_CAP then s.output[..n] + [json] else s.output[..EARLY_BUFFER_CAP];
    }
  }

  lemma OfferKeepsOrder(ch: Chan<ServerEvent>, s: State, json: string)
    requires Numbered(s) && ch.Valid() && Ordered(ch.sent, s.counter, s.source, s.output)
    ensures var after := TrySend(ch, Message(json, s.counter + 1), CLIENT_CHANNEL_CAP);
      && after.Valid() && ch.sent <= after.sent
      && Ordered(after.sent, s.counter + 1, s.source + [|s.output|], s.output + [json])
  {
    hide Ordered, Numbered;
    OrderedGrows(ch.sent, s, json);
  }

  lemma NumbersMatch(s: State)
    requires Numbered(s)
    ensures |s.source| == s.counter
  {
  }

  lemma RelayKeepsNumbers(s: State, json: string, now: nat)
    requires s.clients.Keys <= s.chans.Keys && Numbered(s)
    ensures Numbered(RelayStep(s, json, now))
  {
    hide ClientsAfter, ChansAfter;
  }

  lemma RelayKeepsStreams(s: State, json: string, now: nat)
    requires s.clients.Keys <= s.chans.Keys && Numbered(s) && Streams(s)
    ensures var t := RelayStep(s, json, now); Numbered(t) && Streams(t) && t.chans.Keys == s.chans.Keys
    ensures forall id :: id in s.chans ==> s.chans[id].sent <= RelayStep(s, json, now).chans[id].sent
  {
    hide Ordered, Numbered, TrySend, TrySendResult, FateOf, AfterAttempt, ClientsAfter;
    NumbersMatch(s);
    var t := RelayStep(s, json, now);
    RelayKeepsNumbers(s, json, now);
    forall id | id in s.chans
      ensures t.chans[id].Valid() && Ordered(t.chans[id].sent, t.counter, t.source, t.output)
      ensures s.chans[id].sent <= t.chans[id].sent
    {
      OrderedGrows(s.chans[id].sent, s, json);
      OfferKeepsOrder(s.chans[id], s, json);
    }
  }

  lemma RelayKeepsPressure(s: State, json: string, now: nat)
    requires s.clients.Keys <= s.chans.Keys && Pressured(s) && s.clock <= now
    ensures Pressured(RelayStep(s, json, now))
  {
    var t := RelayStep(s, json, now);
    forall id | id in t.clients ensures Faithful(t.clients[id], now) {
      AttemptFaithful(s.clients[id], TrySendResult(s.chans[id], CLIENT_CHANNEL_CAP), s.clock, now);
    }
  }

  /** What the first client finds in its channel: the endpoint, then as many of the early
      messages as there is room for, numbered from one. */
  lemma {:induction false} EarlySent(ch: Chan<ServerEvent>, counter: nat, buffer: seq<string>, out: seq<string>)
    requires ch.open && ch.taken == 0
    requires counter + |buffer| <= |out| && buffer == out[counter..counter + |buffer|]
    requires |ch.sent| == Min(counter + 1, CLIENT_CHANNEL_CAP)
    requires StartsEarly(ch.sent, out, |ch.sent| - 1) && ch.sent[0].Endpoint?
    ensures var r := SendEarly(ch, counter, buffer);
      && r.open && r.taken == 0
      && |r.sent| == Min(counter + |buffer| + 1, CLIENT_CHANNEL_CAP)
      && StartsEarly(r.sent, out, |r.sent| - 1)
      && r.sent[0] == ch.sent[0]
    decreases |buffer|
  {
    if buffer == [] {
    } else {
      var next := TrySend(ch, Message(buffer[0], counter + 1), CLIENT_CHANNEL_CAP);
      assert buffer[0] == out[counter];
      assert buffer[1..] == out[counter + 1..counter + 1 + |buffer[1..]|];
      EarlySent(next, counter + 1, buffer[1..], out);
    }
  }

  lemma EarlyIsOrdered(sent: seq<ServerEvent>, output: seq<string>, counter: nat, source: seq<nat>)
    requires 1 <= |sent| <= counter + 1 && counter == |source| <= |output| && sent[0].Endpoint?
    requires StartsEarly(sent, output, |sent| - 1)
    requires forall i :: 0 <= i < |source| ==> source[i] == i
    ensures Ordered(sent, counter, source, output)
  {
    forall k | 1 <= k < |sent| ensures sent[k] == Message(output[k - 1], k) {
      var j := k - 1;
      assert sent[j + 1] == Message(output[j], j + 1);
    }
  }

  lemma LaterConnectKeeps(s: State, id: SessionId, url: string)
    requires Inv(s) && id !in s.chans && s.early.None?
    ensures Inv(ConnectStep(s, id, url))
  {
    hide StartsEarly, Faithful, Ordered, FullFrom;
    var ch := TrySend(NewChan(), Endpoint(url), CLIENT_CHANNEL_CAP);
    assert ch.sent == [Endpoint(url)];
    EndpointIsOrdered(s, url);
    FreshIsFaithful(s.clock);
  }

  lemma EndpointIsOrdered(s: State, url: string)
    requires |s.source| == s.counter
    ensures Ordered([Endpoint(url)], s.counter, s.source, s.output)
  {
  }

  /** The first connection: its channel is the only one. */
  lemma FirstChannel(s: State, id: SessionId, url: string)
    requires Numbered(s) && Early(s) && s.early.Some?
    ensures var t := ConnectStep(s, id, url);
      && t.clients == map[id := FRESH_CLIENT] && t.early == None && t.first == Some(id)
      && t.before == |t.output| && t.output == s.output && t.clock == s.clock
      && t.chans.Keys == {id} && t.chans[id].Valid()
      && t.counter == |t.source| == |s.early.value| == Min(|s.output|, EARLY_BUFFER_CAP)
      && (forall i :: 0 <= i < |t.source| ==> t.source[i] == i)
      && |t.chans[id].sent| == Min(|s.output|, CLIENT_CHANNEL_CAP - 1) + 1
      && t.chans[id].sent[0].Endpoint?
      && StartsEarly(t.chans[id].sent, s.output, Min(|s.output|, CLIENT_CHANNEL_CAP - 1))
  {
    var ch := TrySend(NewChan(), Endpoint(url), CLIENT_CHANNEL_CAP);
    assert ch.sent == [Endpoint(url)];
    var buffer := s.early.value;
    assert buffer == s.output[0..0 + |buffer|];
    EarlySent(ch, 0, buffer, s.output);
    assert [] + seq(|buffer|, i => i) == seq(|buffer|, i => i);
  }

  lemma FreshIsPressured(t: State, id: SessionId)
    requires t.clients == map[id := FRESH_CLIENT]
    ensures Pressured(t)
  {
    FreshIsFaithful(t.clock);
  }

  lemma OneStream(t: State, id: SessionId)
    requires |t.source| == t.counter && t.chans.Keys == {id} && t.chans[id].Valid()
    requires Ordered(t.chans[id].sent, t.counter, t.source, t.output)
    ensures Streams(t)
  {
    assert forall x :: x in t.chans ==> x == id;
  }

  lemma FirstConnectKeeps(s: State, id: SessionId, url: string)
    requires Inv(s) && id !in s.chans && s.early.Some?
    ensures Inv(ConnectStep(s, id, url))
  {
    hide StartsEarly, Ordered, ConnectStep, SendEarly, Streams, Pressured;
    FirstChannel(s, id, url);
    var t := ConnectStep(s, id, url);
    EarlyIsOrdered(t.chans[id].sent, t.output, t.counter, t.source);
    FreshIsPressured(t, id);
    OneStream(t, id);
  }

  lemma ConnectKeeps(s: State, id: SessionId, url: string)
    requires Inv(s) && id !in s.chans
    ensures Inv(ConnectStep(s, id, url))
  {
    if s.early.Some? {
      FirstConnectKeeps(s, id, url);
    } else {
      LaterConnectKeeps(s, id, url);
    }
  }

  lemma StepKeeps(s: State, step: Step)
    requires Inv(s) && Enabled(s, step)
    ensures Inv(Apply(s, step))
    ensures forall id :: id in s.chans ==>
      id in Apply(s, step).chans && s.chans[id].sent <= Apply(s, step).chans[id].sent
  {
    match step
    case Relay(json, now) =>
      RelayKeeps(s, json, now);
      RelayKeepsStreams(s, json, now);
    case Connect(id, url) => ConnectKeeps(s, id, url);
    case Disconnect(id) =>
    case Receiving(id) =>
    case HangUp(id) =>
  }

  lemma {:induction false} RunKeeps(s: State, steps: seq<Step>)
    requires Inv(s) && Run(s, steps).Some?
    ensures Inv(Run(s, steps).value)
    decreases |steps|
  {
    if steps == [] {
    } else {
      hide Apply, Numbered, Streams, Early, Pressured;
      StepKeeps(s, steps[0]);
      RunKeeps(Apply(s, steps[0]), steps[1..]);
    }
  }

  // ── Results ───────────────────────────────────────────────────────────

  /** The texts of the messages of a stream. */
  function Texts(sent: seq<ServerEvent>): seq<string>
    requires forall k :: 0 <= k < |sent| ==> sent[k].Message?
  {
    seq(|sent|, k requires 0 <= k < |sent| => sent[k].data)
  }

  /** Over all runs: each client's message ids grow strictly, its texts are a subsequence
      of the child's output, and the same id means the same text to every client. */
  lemma BroadcastOrder(steps: seq<Step>, id: SessionId)
    requires Run(INIT, steps).Some? && id in Run(INIT, steps).value.chans
    ensures var s := Run(INIT, steps).value;
      var sent := s.chans[id].sent;
      && |sent| >= 1 && sent[0].Endpoint?
      && (forall k :: 1 <= k < |sent| ==> sent[k].Message?)
      && (forall j, k :: 1 <= j < k < |sent| ==> sent[j].eventId < sent[k].eventId)
      && Subsequence(Texts(sent[1..]), s.output)
  {
    RunKeeps(INIT, steps);
    var s := Run(INIT, steps).value;
    var sent := s.chans[id].sent;
    assert Ordered(sent, s.counter, s.source, s.output);
    var at := seq(|sent| - 1, k requires 0 <= k < |sent| - 1 => s.source[sent[k + 1].eventId - 1]);
    assert PickedAt(Texts(sent[1..]), s.output, at);
  }

  lemma SameIdSameText(steps: seq<Step>, a: SessionId, b: SessionId, j: nat, k: nat)
    requires Run(INIT, steps).Some?
    requires var s := Run(INIT, steps).value; a in s.chans && b in s.chans
    requires var s := Run(INIT, steps).value; 1 <= j < |s.chans[a].sent| && 1 <= k < |s.chans[b].sent|
    ensures var s := Run(INIT, steps).value;
      var x, y := s.chans[a].sent[j], s.chans[b].sent[k];
      x.Message? && y.Message? && (x.eventId == y.eventId ==> x.data == y.data)
  {
    RunKeeps(INIT, steps);
    var s := Run(INIT, steps).value;
    assert Ordered(s.chans[a].sent, s.counter, s.source, s.output);
    assert Ordered(s.chans[b].sent, s.counter, s.source, s.output);
  }

  /** The first client gets, right after its endpoint event, precisely the first messages
      the child wrote, up to 255 of those written before it came. */
  lemma FirstClientGetsEarly(steps: seq<Step>)
    requires Run(INIT, steps).Some? && Run(INIT, steps).value.early.None?
    ensures var s := Run(INIT, steps).value;
      && s.first.Some? && s.first.value in s.chans && s.before <= |s.output|
      && StartsEarly(s.chans[s.first.value].sent, s.output, Min(s.before, 255))
  {
    RunKeeps(INIT, steps);
  }

  /** Exactly which clients a message costs: those whose receiver is gone, and those whose
      channel is full now and was at every attempt since one at least thirty seconds ago. */
  lemma {:induction false} EvictionJustified(s: State, json: string, now: nat, id: SessionId)
    requires Inv(s) && s.clock <= now && s.early.None? && id in s.clients
    ensures id !in RelayStep(s, json, now).clients <==>
      || !s.chans[id].open
      || (s.chans[id].Waiting() >= CLIENT_CHANNEL_CAP && Starved(s.clients[id].log, now))
  {
    EvictionIff(s.clients[id], TrySendResult(s.chans[id], CLIENT_CHANNEL_CAP), s.clock, now);
  }
}
