/** What each client of the SSE gateway is sent, event by event. */
module SseDelivery {
  import opened Wrappers
  import opened Seqs
  import opened Channels
  import opened Delivery
  import opened SseWire
  import opened SseBroadcast

  /** One message of the child: kept while no client has ever come; otherwise every
      registered client whose channel has room is sent it under the next id, nobody else is
      sent anything, and each attempt is in the log of its client. */
  lemma {:induction false} RelayReaches(s: State, json: string, now: nat, id: SessionId)
    requires s.clients.Keys <= s.chans.Keys && id in s.chans
    ensures var t := RelayStep(s, json, now);
      && t.chans.Keys == s.chans.Keys && t.output == s.output + [json]
      && if s.early.Some? && s.clients == map[] then
           && t.clients == s.clients && t.chans == s.chans && t.counter == s.counter
           && t.early == if |s.early.value| < 256 then Some(s.early.value + [json]) else s.early
         else
           && t.counter == s.counter + 1 && t.early == s.early
           && t.chans[id] == (if id in s.clients && HasRoom(s.chans[id])
                              then s.chans[id].(sent := s.chans[id].sent + [Message(json, s.counter + 1)])
                              else s.chans[id])
           && (id in t.clients ==>
                 id in s.clients && t.clients[id].log == s.clients[id].log + [Attempt(now, !HasRoom(s.chans[id]))])
  {
    hide HasRoom, ClientsAfter, ChansAfter;
    OfferReaches(s.clients, s.chans, Message(json, s.counter + 1), id);
    if id in ClientsAfter(s.clients, s.chans, now) {
      OfferIsLogged(s.clients, s.chans, now, id);
    }
  }

  /** The new client is sent its endpoint, then, if it is the first, the early messages as
      far as there is room; nobody else is sent anything. */
  lemma ConnectSends(s: State, id: SessionId, url: string)
    requires Inv(s) && id !in s.chans
    ensures var t := ConnectStep(s, id, url);
      && t.clients == s.clients[id := Client(None, [])] && t.early == None
      && t.chans[id].open && t.chans[id].taken == 0
      && (forall x :: x in s.chans ==> x in t.chans && t.chans[x] == s.chans[x])
      && t.output == s.output
      && t.counter == s.counter + (if s.early.Some? then Min(|s.output|, 256) else 0)
      && t.chans[id].sent == [Endpoint(url)] + if s.early.Some? then EarlyEvents(s.output) else []
  {
    hide Streams, Pressured, SendEarly, StartsEarly;
    if s.early.Some? {
      var ch := TrySend(NewChan(), Endpoint(url), CLIENT_CHANNEL_CAP);
      assert ch.sent == [Endpoint(url)];
      var buffer := s.early.value;
      assert buffer == s.output[0..0 + |buffer|];
      NothingEarlyYet(ch.sent, s.output);
      EarlySent(ch, 0, buffer, s.output);
      EarlyAre(SendEarly(ch, 0, buffer).sent, s.output);
    }
  }

  lemma NothingEarlyYet(sent: seq<ServerEvent>, output: seq<string>)
    requires |sent| == 1
    ensures StartsEarly(sent, output, 0)
  {
  }

  /** The first 255 messages of the child, numbered from one. */
  function EarlyEvents(output: seq<string>): seq<ServerEvent> {
    seq(Min(|output|, 255), k requires 0 <= k < Min(|output|, 255) => Message(output[k], k + 1))
  }

  lemma EarlyAre(sent: seq<ServerEvent>, output: seq<string>)
    requires |sent| == Min(|output|, 255) + 1
    requires StartsEarly(sent, output, |sent| - 1)
    ensures sent == [sent[0]] + EarlyEvents(output)
  {
    forall k | 1 <= k < |sent| ensures sent[k] == EarlyEvents(output)[k - 1] {
      var j := k - 1;
      assert sent[j + 1] == Message(output[j], j + 1);
    }
  }

  /** A client that disconnects is registered no longer, and nobody else notices. */
  lemma {:induction false} DisconnectLeaves(s: State, id: SessionId, x: SessionId)
    requires s.clients.Keys <= s.chans.Keys
    ensures var t := Apply(s, Disconnect(id));
      && (x in t.clients <==> x in s.clients && x != id)
      && (x in t.clients ==> t.clients[x] == s.clients[x])
      && t.chans == s.chans && t.early == s.early && t.counter == s.counter
  {
  }

  /** The child may write at any time, and anyone new may connect. */
  lemma {:induction false} AnythingMayHappen(s: State, json: string, now: nat, id: SessionId, url: string)
    requires Inv(s) && s.clock <= now
    ensures Run(s, [Relay(json, now)]) == Some(RelayStep(s, json, now))
    ensures id !in s.chans ==> Run(s, [Connect(id, url)]) == Some(ConnectStep(s, id, url))
  {
    hide RelayStep, ConnectStep, Numbered, Streams, Early, Pressured;
    StepKeeps(s, Relay(json, now));
    assert [Relay(json, now)][1..] == [] && [Connect(id, url)][1..] == [];
    if id !in s.chans {
      StepKeeps(s, Connect(id, url));
    }
  }

  // ── Runs ──────────────────────────────────────────────────────────────

  /** What the child wrote in a run. */
  function Relayed(steps: seq<Step>): seq<string> {
    if steps == [] then []
    else (if steps[0].Relay? then [steps[0].json] else []) + Relayed(steps[1..])
  }

  lemma StepOutput(s: State, step: Step)
    requires s.clients.Keys <= s.chans.Keys && Enabled(s, step)
    ensures Apply(s, step).output == s.output + if step.Relay? then [step.json] else []
  {
    hide ClientsAfter, ChansAfter, SendEarly, TrySend;
    assert s.output + [] == s.output;
  }

  /** The history of the child's output is what was relayed. */
  lemma {:induction false} OutputIsRelayed(s: State, steps: seq<Step>)
    requires s.clients.Keys <= s.chans.Keys && Run(s, steps).Some?
    ensures Run(s, steps).value.output == s.output + Relayed(steps)
    decreases |steps|
  {
    hide Apply, Enabled;
    if steps == [] {
      assert s.output + [] == s.output;
    } else {
      RegisteredHaveChannels(s, steps[0]);
      StepOutput(s, steps[0]);
      var t := Apply(s, steps[0]);
      OutputIsRelayed(t, steps[1..]);
      var first := if steps[0].Relay? then [steps[0].json] else [];
      assert s.output + first + Relayed(steps[1..]) == s.output + (first + Relayed(steps[1..]));
    }
  }

  lemma LeftStep(s: State, step: Step, id: SessionId)
    requires s.clients.Keys <= s.chans.Keys && Enabled(s, step)
    requires id in s.chans && id !in s.clients
    ensures var t := Apply(s, step);
      id in t.chans && id !in t.clients && t.chans[id].sent == s.chans[id].sent
  {
    hide SendEarly, RelayStep;
    match step
    case Relay(json, now) =>
      RelayReaches(s, json, now, id);
      NoNewClient(s, json, now, id);
    case _ =>
  }

  lemma NoNewClient(s: State, json: string, now: nat, id: SessionId)
    requires s.clients.Keys <= s.chans.Keys && id !in s.clients
    ensures id !in RelayStep(s, json, now).clients
  {
    hide ChansAfter;
  }

  /** A client that has left is never sent anything again, in any continuation. */
  lemma {:induction false} LeftGetsNothing(s: State, steps: seq<Step>, id: SessionId)
    requires s.clients.Keys <= s.chans.Keys && Run(s, steps).Some?
    requires id in s.chans && id !in s.clients
    ensures var t := Run(s, steps).value;
      id in t.chans && id !in t.clients && t.chans[id].sent == s.chans[id].sent
    decreases |steps|
  {
    hide Apply;
    if steps == [] {
    } else {
      RegisteredHaveChannels(s, steps[0]);
      LeftStep(s, steps[0], id);
      LeftGetsNothing(Apply(s, steps[0]), steps[1..], id);
    }
  }

  /** The events of the messages from `from` on, numbered on from `counter`. */
  function EventsFrom(output: seq<string>, from: nat, counter: nat): seq<ServerEvent>
    requires from <= |output|
  {
    seq(|output| - from, i requires 0 <= i < |output| - from => Message(output[from + i], counter + i + 1))
  }

  /** Between `s` and `t` the client was offered every message, and sent those that found
      room. */
  ghost predicate SentBetween(s: State, t: State, id: SessionId) {
    && id in s.clients && id in t.clients && id in s.chans && id in t.chans
    && s.output <= t.output && s.clients[id].log <= t.clients[id].log
    && t.early.None?
    && t.counter - s.counter == |t.output| - |s.output| == |t.clients[id].log| - |s.clients[id].log|
    && t.chans[id].sent == s.chans[id].sent
         + Through(EventsFrom(t.output, |s.output|, s.counter), t.clients[id].log[|s.clients[id].log|..])
  }

  lemma SentByOne(s: State, step: Step, id: SessionId)
    requires Inv(s) && Enabled(s, step) && id in s.clients && id in Apply(s, step).clients
    ensures SentBetween(s, Apply(s, step), id)
  {
    hide Numbered, Streams, Pressured, RelayStep, SendEarly, HasRoom;
    var t := Apply(s, step);
    match step
    case Relay(json, now) =>
      RelayReaches(s, json, now, id);
      assert t.clients[id].log[|s.clients[id].log|..] == [Attempt(now, !HasRoom(s.chans[id]))];
      assert EventsFrom(t.output, |s.output|, s.counter) == [Message(json, s.counter + 1)];
      ThroughOne(Message(json, s.counter + 1), Attempt(now, !HasRoom(s.chans[id])));
    case _ =>
      NothingBetween(s, t, id);
  }

  lemma NothingBetween(s: State, t: State, id: SessionId)
    requires id in s.clients && id in t.clients && id in s.chans && id in t.chans && t.early.None?
    requires t.output == s.output && t.clients[id] == s.clients[id] && t.counter == s.counter
    requires t.chans[id].sent == s.chans[id].sent
    ensures SentBetween(s, t, id)
  {
    assert t.clients[id].log[|s.clients[id].log|..] == [];
    assert EventsFrom(t.output, |s.output|, s.counter) == [];
    assert s.chans[id].sent + [] == s.chans[id].sent;
  }

  lemma SentTwice(s: State, t: State, u: State, id: SessionId)
    requires SentBetween(s, t, id) && SentBetween(t, u, id)
    ensures SentBetween(s, u, id)
  {
    hide Through;
    var a, b := EventsFrom(t.output, |s.output|, s.counter), EventsFrom(u.output, |t.output|, t.counter);
    var k, m := |s.clients[id].log|, |t.clients[id].log|;
    var la, lb := t.clients[id].log[k..], u.clients[id].log[m..];
    assert EventsFrom(u.output, |s.output|, s.counter) == a + b;
    assert u.clients[id].log[k..] == la + lb;
    ThroughConcat(a, b, la, lb);
    assert s.chans[id].sent + Through(a, la) + Through(b, lb) == s.chans[id].sent + (Through(a, la) + Through(b, lb));
  }

  /** Over all runs: a client that is registered throughout was offered every message the
      child wrote meanwhile, and what its channel was sent are exactly those, in order and
      numbered without a gap, whose attempt its log says found room. */
  lemma {:induction false} SentSince(s: State, steps: seq<Step>, id: SessionId)
    requires Inv(s) && Run(s, steps).Some?
    requires id in s.clients && id in Run(s, steps).value.clients
    ensures SentBetween(s, Run(s, steps).value, id)
    decreases |steps|
  {
    hide Apply, Numbered, Streams, Pressured, SentBetween, StartsEarly;
    if steps == [] {
      NothingBetween(s, s, id);
    } else {
      var t := Apply(s, steps[0]);
      StepKeeps(s, steps[0]);
      if id !in t.clients {
        LeftGetsNothing(t, steps[1..], id);
      }
      SentByOne(s, steps[0], id);
      SentSince(t, steps[1..], id);
      SentTwice(s, t, Run(s, steps).value, id);
    }
  }

  lemma StartInv()
    ensures Inv(INIT)
  {
  }

  lemma {:induction false} RunSplit(s: State, a: seq<Step>, b: seq<Step>)
    requires s.clients.Keys <= s.chans.Keys && Run(s, a).Some? && Inv(s)
    ensures Inv(Run(s, a).value) && Run(s, a + b) == Run(Run(s, a).value, b)
    decreases |a|
  {
    hide Apply, Numbered, Streams, Early, Pressured;
    if a == [] {
      assert a + b == b;
    } else {
      StepKeeps(s, a[0]);
      assert (a + b)[0] == a[0] && (a + b)[1..] == a[1..] + b;
      RunSplit(Apply(s, a[0]), a[1..], b);
    }
  }

  lemma RunFirst(s: State, step: Step, steps: seq<Step>)
    requires Inv(s) && Run(s, [step] + steps).Some?
    ensures Enabled(s, step) && Inv(Apply(s, step)) && Run(s, [step] + steps) == Run(Apply(s, step), steps)
  {
    hide Apply, Numbered, Streams, Early, Pressured;
    assert ([step] + steps)[1..] == steps;
    StepKeeps(s, step);
  }

  /** So the stream of a registered client is known exactly: its endpoint, the early
      messages if it came first, and each later message whose attempt found room. */
  lemma StreamIs(before: seq<Step>, id: SessionId, url: string, after: seq<Step>)
    requires Run(INIT, before).Some?
    requires var all := Run(INIT, before + ([Connect(id, url)] + after)); all.Some? && id in all.value.clients
    ensures var s, t := Run(INIT, before).value, Run(INIT, before + ([Connect(id, url)] + after)).value;
      var counter := s.counter + if s.early.Some? then Min(|s.output|, 256) else 0;
      && |s.output| <= |t.output| && id in t.chans
      && |t.clients[id].log| == |t.output| - |s.output|
      && t.chans[id].sent
         == [Endpoint(url)] + (if s.early.Some? then EarlyEvents(s.output) else [])
            + Through(EventsFrom(t.output, |s.output|, counter), t.clients[id].log)
  {
    hide Run, ConnectStep, Numbered, Streams, Early, Pressured;
    StartInv();
    RunSplit(INIT, before, [Connect(id, url)] + after);
    var s := Run(INIT, before).value;
    RunFirst(s, Connect(id, url), after);
    ConnectSends(s, id, url);
    var u := ConnectStep(s, id, url);
    SentSince(u, after, id);
    var log := Run(u, after).value.clients[id].log;
    assert log[|u.clients[id].log|..] == log;
  }
}
