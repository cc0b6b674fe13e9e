/** What each client of the WebSocket gateway is sent, event by event. */
module WsDelivery {
  import opened Wrappers
  import opened Seqs
  import opened Decimal
  import opened JsonRpc
  import opened Channels
  import opened Delivery
  import opened WsRouting
  import opened WsProofs
  import opened WsHistory
  import opened WsGateways

  // ── One step ──────────────────────────────────────────────────────────

  /** A message that is no response: kept while no client has ever come; otherwise every
      registered client whose channel has room is sent it, and nobody else is. */
  lemma {:induction false} BroadcastReaches(s: State, msg: RawMessage, now: nat, c: ClientId)
    requires Shape(s) && c in s.chans
    ensures var t := BroadcastStep(s, msg, now);
      && t.chans.Keys == s.chans.Keys
      && if s.early.Some? && s.clients == map[] then
           && t.clients == s.clients && t.chans == s.chans
           && t.early == if |s.early.value| < 256 then Some(s.early.value + [msg]) else s.early
         else
           && t.early == s.early
           && t.chans[c] == (if c in s.clients && HasRoom(s.chans[c])
                             then s.chans[c].(sent := s.chans[c].sent + [Message(msg)])
                             else s.chans[c])
           && (c in t.clients ==>
                 c in s.clients && t.clients[c].log == s.clients[c].log + [Attempt(now, !HasRoom(s.chans[c]))])
  {
    hide HasRoom, ClientsAfter, ChansAfter;
    OfferReaches(s.clients, s.chans, Message(msg), c);
    if c in ClientsAfter(s.clients, s.chans, now) {
      OfferIsLogged(s.clients, s.chans, now, c);
    }
  }

  /** An answer under way: the client it is for is sent it if it is registered and its
      channel has room, and nobody else is sent anything. */
  lemma {:induction false} AnswerReaches(s: State, n: nat, now: nat, c: ClientId)
    requires Shape(s) && Enabled(s, Deliver(n, now)) && c in s.chans
    ensures var t := DeliverStep(s, n, now);
      var asked := c == s.sent[n - 1].client && c in s.clients;
      && t.chans.Keys == s.chans.Keys && t.early == s.early
      && t.chans[c] == (if asked && HasRoom(s.chans[c])
                        then s.chans[c].(sent := s.chans[c].sent + [Message(s.status[n - 1].msg)])
                        else s.chans[c])
      && (c in t.clients ==>
            c in s.clients
            && t.clients[c].log
               == s.clients[c].log + if asked then [Attempt(now, !HasRoom(s.chans[c]))] else [])
  {
  }

  /** At the shutdown every registered client whose channel has room is sent the close
      frame, and nobody is registered afterwards. */
  lemma {:induction false} CloseReaches(s: State, code: nat, reason: string, c: ClientId)
    requires Shape(s) && c in s.chans
    ensures var t := CloseAllStep(s, code, reason);
      && t.clients == map[] && t.chans.Keys == s.chans.Keys
      && t.chans[c] == if c in s.clients && HasRoom(s.chans[c])
                       then s.chans[c].(sent := s.chans[c].sent + [Close(code, reason)])
                       else s.chans[c]
  {
    hide HasRoom, ChansAfter;
    OfferReaches(s.clients, s.chans, Close(code, reason), c);
  }

  /** The child may write at any time, anyone new may connect, and anyone may ask. */
  lemma {:induction false} AnythingMayHappen(s: State, msg: RawMessage, now: nat, c: ClientId, original: string)
    requires Inv(s) && s.clock <= now
    ensures Run(s, [if Responds(msg) then Unmangle(msg) else Broadcast(msg, now)]).Some?
    ensures c !in s.chans ==> Run(s, [Connect(c)]) == Some(ConnectStep(s, c))
    ensures Run(s, [Allocate(c, original)]) == Some(AllocateStep(s, c, original))
  {
    hide UnmangleStep, BroadcastStep, ConnectStep, Tabled, Logged, Routed, Pressured;
    OneStep(s, if Responds(msg) then Unmangle(msg) else Broadcast(msg, now));
    OneStep(s, Allocate(c, original));
    if c !in s.chans {
      OneStep(s, Connect(c));
    }
  }

  lemma OneStep(s: State, step: Step)
    requires Shape(s) && Enabled(s, step)
    ensures Run(s, [step]) == Some(Apply(s, step))
  {
    hide Apply, Shape;
    ShapeKept(s, step);
    assert [step][1..] == [];
  }

  // ── Runs ──────────────────────────────────────────────────────────────

  /** What a step offers to the registered client `c`. */
  function OfferedBy(s: State, step: Step, c: ClientId): seq<Event>
    requires Enabled(s, step) && |s.sent| == |s.status|
  {
    match step
    case Broadcast(msg, _) => [Message(msg)]
    case Deliver(n, _) => if s.sent[n - 1].client == c then [Message(s.status[n - 1].msg)] else []
    case _ => []
  }

  /** What a run offers to it. */
  function Offered(s: State, steps: seq<Step>, c: ClientId): seq<Event>
    requires Shape(s) && Run(s, steps).Some?
    decreases |steps|
  {
    if steps == [] then []
    else
      ShapeKept(s, steps[0]);
      OfferedBy(s, steps[0], c) + Offered(Apply(s, steps[0]), steps[1..], c)
  }

  lemma PlainStep(s: State, step: Step, c: ClientId)
    requires Shape(s) && Enabled(s, step) && c in s.chans
    requires !step.Broadcast? && !step.Deliver? && !step.CloseAll?
    ensures var t := Apply(s, step);
      && c in t.chans && t.chans[c].sent == s.chans[c].sent
      && (c in t.clients ==> c in s.clients && t.clients[c] == s.clients[c])
  {
    hide SendEarly, PurgeStep, UnmangleStep;
    match step
    case Unmangle(msg) => UnmangleAlone(s, msg);
    case Purge(d) => PurgeAlone(s, {d});
    case _ =>
  }

  lemma UnmangleAlone(s: State, msg: RawMessage)
    ensures UnmangleStep(s, msg).chans == s.chans && UnmangleStep(s, msg).clients == s.clients
  {
    hide Answered;
  }

  lemma PurgeAlone(s: State, cs: set<ClientId>)
    requires Shape(s)
    ensures PurgeStep(s, cs).chans == s.chans && PurgeStep(s, cs).clients == s.clients
    ensures PurgeStep(s, cs).early == s.early
  {
    hide KeptEntries;
  }

  lemma LeftStep(s: State, step: Step, c: ClientId)
    requires Shape(s) && Enabled(s, step) && c in s.chans && c !in s.clients
    ensures var t := Apply(s, step);
      c in t.chans && c !in t.clients && t.chans[c].sent == s.chans[c].sent
  {
    hide BroadcastStep, DeliverStep, CloseAllStep, HasRoom, UnmangleStep, PurgeStep, SendEarly;
    match step
    case Broadcast(msg, now) => BroadcastReaches(s, msg, now, c);
    case Deliver(n, now) => AnswerReaches(s, n, now, c);
    case CloseAll(code, reason) => CloseReaches(s, code, reason, c);
    case _ => PlainStep(s, step, c);
  }

  /** A client that has left is never sent anything again, in any continuation. */
  lemma {:induction false} LeftGetsNothing(s: State, steps: seq<Step>, c: ClientId)
    requires Shape(s) && Run(s, steps).Some? && c in s.chans && c !in s.clients
    ensures var t := Run(s, steps).value;
      c in t.chans && c !in t.clients && t.chans[c].sent == s.chans[c].sent
    decreases |steps|
  {
    hide Apply, Shape;
    if steps == [] {
    } else {
      ShapeKept(s, steps[0]);
      LeftStep(s, steps[0], c);
      LeftGetsNothing(Apply(s, steps[0]), steps[1..], c);
    }
  }

  /** Between `s` and `t` the client was offered these events, and sent those that found
      room. */
  ghost predicate SentBetween(s: State, t: State, offered: seq<Event>, c: ClientId) {
    && c in s.clients && c in t.clients && c in s.chans && c in t.chans
    && s.clients[c].log <= t.clients[c].log
    && |offered| == |t.clients[c].log| - |s.clients[c].log|
    && t.chans[c].sent == s.chans[c].sent + Through(offered, t.clients[c].log[|s.clients[c].log|..])
  }

  lemma SentByOne(s: State, step: Step, c: ClientId)
    requires Shape(s) && Enabled(s, step) && c in s.clients && c in Apply(s, step).clients
    ensures SentBetween(s, Apply(s, step), OfferedBy(s, step, c), c)
  {
    hide BroadcastStep, DeliverStep, CloseAllStep, HasRoom, UnmangleStep, PurgeStep, SendEarly, Through;
    var t := Apply(s, step);
    var full := !HasRoom(s.chans[c]);
    match step
    case Broadcast(msg, now) =>
      BroadcastReaches(s, msg, now, c);
      ThroughOne(Message(msg), Attempt(now, full));
      assert t.clients[c].log[|s.clients[c].log|..] == [Attempt(now, full)];
    case Deliver(n, now) =>
      AnswerReaches(s, n, now, c);
      ThroughOne(Message(s.status[n - 1].msg), Attempt(now, full));
      if s.sent[n - 1].client == c {
        assert t.clients[c].log[|s.clients[c].log|..] == [Attempt(now, full)];
      } else {
        NothingBetween(s, t, c);
      }
    case CloseAll(code, reason) => CloseReaches(s, code, reason, c);
    case _ =>
      PlainStep(s, step, c);
      NothingBetween(s, t, c);
  }

  lemma NothingBetween(s: State, t: State, c: ClientId)
    requires c in s.clients && c in t.clients && c in s.chans && c in t.chans
    requires t.clients[c].log == s.clients[c].log && t.chans[c].sent == s.chans[c].sent
    ensures SentBetween(s, t, [], c)
  {
    assert t.clients[c].log[|s.clients[c].log|..] == [];
    assert s.chans[c].sent + [] == s.chans[c].sent;
  }

  lemma SentTwice(s: State, t: State, u: State, a: seq<Event>, b: seq<Event>, c: ClientId)
    requires SentBetween(s, t, a, c) && SentBetween(t, u, b, c)
    ensures SentBetween(s, u, a + b, c)
  {
    hide Through;
    var k, m := |s.clients[c].log|, |t.clients[c].log|;
    var la, lb := t.clients[c].log[k..], u.clients[c].log[m..];
    assert u.clients[c].log[k..] == la + lb;
    ThroughConcat(a, b, la, lb);
    assert s.chans[c].sent + Through(a, la) + Through(b, lb) == s.chans[c].sent + (Through(a, la) + Through(b, lb));
  }

  /** Over all runs: a client that is registered throughout is offered every broadcast of
      the run and every answer to it, and what its channel is sent are exactly those, in
      order, whose attempt its log says found room. */
  lemma {:induction false} SentSince(s: State, steps: seq<Step>, c: ClientId)
    requires Shape(s) && Run(s, steps).Some?
    requires c in s.clients && c in Run(s, steps).value.clients
    ensures SentBetween(s, Run(s, steps).value, Offered(s, steps, c), c)
    decreases |steps|
  {
    hide Apply, Shape, SentBetween, OfferedBy, Enabled;
    if steps == [] {
      ShapeChannels(s, c);
      NothingBetween(s, s, c);
    } else {
      var t := Apply(s, steps[0]);
      ShapeKept(s, steps[0]);
      ShapeChannels(s, c);
      ShapeChannels(t, c);
      if c !in t.clients {
        StillChannel(s, steps[0], c);
        LeftGetsNothing(t, steps[1..], c);
      }
      SentByOne(s, steps[0], c);
      SentSince(t, steps[1..], c);
      SentTwice(s, t, Run(s, steps).value, OfferedBy(s, steps[0], c), Offered(t, steps[1..], c), c);
    }
  }

  lemma ShapeChannels(s: State, c: ClientId)
    requires Shape(s)
    ensures c in s.clients ==> c in s.chans
    ensures |s.sent| == |s.status|
  {
  }

  lemma StillChannel(s: State, step: Step, c: ClientId)
    requires Shape(s) && Enabled(s, step) && c in s.chans
    ensures c in Apply(s, step).chans
  {
    hide SendEarly, PurgeStep, UnmangleStep, ClientsAfter, FateOf, AfterAttempt, TrySend, TrySendResult;
    match step
    case Unmangle(msg) => UnmangleAlone(s, msg);
    case Purge(d) => PurgeAlone(s, {d});
    case _ =>
  }

  /** A new client is registered with an empty log; the first is sent the early messages, a
      later one nothing yet, and nobody else anything. */
  lemma ConnectSends(s: State, h: History, c: ClientId)
    requires Inv(s) && EarlyKept(s, h) && c !in s.chans
    ensures var t := ConnectStep(s, c);
      && t.clients == s.clients[c := Client(None, [])] && t.early == None
      && t.chans[c].open && t.chans[c].taken == 0
      && (forall d :: d in s.chans ==> d in t.chans && t.chans[d] == s.chans[d])
      && t.chans[c].sent == if h.first.None? then Framed(h.broadcasts[..Min(|h.broadcasts|, 256)]) else []
  {
    hide Tabled, Logged, Routed, Pressured, SendEarly, Begins;
    if s.early.Some? {
      AllFit(NewChan(), s.early.value, s.early.value);
    } else {
      SendNothing(NewChan());
    }
  }

  function Framed(msgs: seq<RawMessage>): seq<Event> {
    seq(|msgs|, k requires 0 <= k < |msgs| => Message(msgs[k]))
  }

  lemma {:induction false} AllFit(ch: Chan<Event>, buffer: seq<RawMessage>, all: seq<RawMessage>)
    requires ch.open && ch.taken == 0 && |all| <= 256
    requires |ch.sent| + |buffer| == |all| && buffer == all[|ch.sent|..]
    requires forall k :: 0 <= k < |ch.sent| ==> ch.sent[k] == Message(all[k])
    ensures var r := SendEarly(ch, buffer);
      && r.open && r.taken == 0 && |r.sent| == |all|
      && forall k :: 0 <= k < |all| ==> r.sent[k] == Message(all[k])
    decreases |buffer|
  {
    if buffer == [] {
    } else {
      AllFit(TrySend(ch, Message(buffer[0]), CLIENT_CHANNEL_CAP), buffer[1..], all);
    }
  }

  lemma {:induction false} RunSplit(s: State, a: seq<Step>, b: seq<Step>)
    requires Shape(s) && Run(s, a).Some?
    ensures Shape(Run(s, a).value) && Run(s, a + b) == Run(Run(s, a).value, b)
    decreases |a|
  {
    hide Apply, Shape;
    if a == [] {
      assert a + b == b;
    } else {
      ShapeKept(s, a[0]);
      assert (a + b)[0] == a[0] && (a + b)[1..] == a[1..] + b;
      RunSplit(Apply(s, a[0]), a[1..], b);
    }
  }

  lemma RunFirst(s: State, step: Step, steps: seq<Step>)
    requires Shape(s) && Run(s, [step] + steps).Some?
    ensures Enabled(s, step) && Shape(Apply(s, step)) && Run(s, [step] + steps) == Run(Apply(s, step), steps)
  {
    hide Apply, Shape;
    ShapeKept(s, step);
    assert ([step] + steps)[1..] == steps;
  }

  /** So the stream of a registered client is known exactly: the early messages if it came
      first, then each broadcast and each answer to it whose attempt found room. */
  lemma StreamIs(before: seq<Step>, c: ClientId, after: seq<Step>)
    requires Run(INIT, before).Some?
    requires var all := Run(INIT, before + ([Connect(c)] + after)); all.Some? && c in all.value.clients
    ensures var s, h := Run(INIT, before).value, RecordAll(NOTHING, before);
      var t := Run(INIT, before + ([Connect(c)] + after)).value;
      && Shape(s) && Enabled(s, Connect(c)) && Shape(ConnectStep(s, c)) && Run(ConnectStep(s, c), after).Some?
      && c in t.chans
      && var offered := Offered(ConnectStep(s, c), after, c);
      && |offered| == |t.clients[c].log|
      && t.chans[c].sent
         == (if h.first.None? then Framed(h.broadcasts[..Min(|h.broadcasts|, 256)]) else [])
            + Through(offered, t.clients[c].log)
  {
    hide Run, RecordAll, ConnectStep, Tabled, Logged, Routed, Pressured, Carried, Noticed, EarlyKept, Shape;
    StartShape();
    Tells(before);
    var s := Run(INIT, before).value;
    RunSplit(INIT, before, [Connect(c)] + after);
    RunFirst(s, Connect(c), after);
    ConnectSends(s, RecordAll(NOTHING, before), c);
    var u := ConnectStep(s, c);
    SentSince(u, after, c);
    var log := Run(u, after).value.clients[c].log;
    assert log[|u.clients[c].log|..] == log;
  }

  lemma StartShape()
    ensures Shape(INIT)
  {
  }

  // ── The operations ────────────────────────────────────────────────────

  /** What the table keeps when clients are purged. */
  lemma {:induction false} PurgeTakes(s: State, cs: set<ClientId>, n: nat)
    requires |s.sent| == |s.status|
    ensures var t := PurgeStep(s, cs);
      && (n in t.pending <==> n in s.pending && s.pending[n].client !in cs)
      && (n in t.pending ==> t.pending[n] == s.pending[n])
  {
  }

  /** Handling a message of the child that names a method: it is broadcast, and the table
      loses exactly the entries of the clients that it costs. */
  lemma {:induction false} RequestsAreBroadcast(s: State, msg: RawMessage, now: nat, c: ClientId, n: nat)
    requires Inv(s) && msg.methodName.Some? && c in s.chans
    requires s.early.None? || s.clients != map[]
    ensures var t := RouteOp(s, msg, now);
      && t.chans.Keys == s.chans.Keys
      && t.chans[c] == (if c in s.clients && HasRoom(s.chans[c])
                        then s.chans[c].(sent := s.chans[c].sent + [Message(msg)])
                        else s.chans[c])
      && t.clients.Keys <= s.clients.Keys
      && (n in t.pending <==> n in s.pending && s.pending[n].client !in s.clients.Keys - t.clients.Keys)
      && (n in t.pending ==> t.pending[n] == s.pending[n])
  {
    hide Tabled, Logged, Routed, Pressured, BroadcastStep, PurgeStep, HasRoom;
    BroadcastReaches(s, msg, now, c);
    var u := BroadcastStep(s, msg, now);
    BroadcastTable(s, msg, now);
    PurgeAlone(u, s.clients.Keys - u.clients.Keys);
    PurgeTakes(u, s.clients.Keys - u.clients.Keys, n);
  }

  lemma BroadcastTable(s: State, msg: RawMessage, now: nat)
    requires Shape(s)
    ensures var t := BroadcastStep(s, msg, now);
      Shape(t) && t.pending == s.pending && t.clients.Keys <= s.clients.Keys
  {
    hide ChansAfter;
  }

  /** Handling a result or an error that the child gives under an id of the table: the
      client that asked is sent it, under the id it chose, if it is there and has room;
      nobody else is sent anything, and the entry is used up. */
  lemma {:induction false} AnswersAreRouted(s: State, msg: RawMessage, now: nat, c: ClientId, n: nat)
    requires Inv(s) && n in s.pending && n <= U64_MAX && s.clock <= now && c in s.chans
    requires Responds(msg) && msg.id == Some(Print(n))
    ensures var t := RouteOp(s, msg, now);
      && t.chans.Keys == s.chans.Keys && n !in t.pending
      && t.chans[c] == (if c == s.pending[n].client && c in s.clients && HasRoom(s.chans[c])
                        then s.chans[c].(sent := s.chans[c].sent
                                           + [Message(msg.(id := Some(s.pending[n].original)))])
                        else s.chans[c])
  {
    hide Print, ParseU64, Logged, Routed, Pressured, UnmangleStep, DeliverStep, PurgeStep, HasRoom;
    PrintParse(n);
    UnmangleIs(s, msg);
    var u := UnmangleStep(s, msg);
    AnswerReaches(u, n, now, c);
    var v := DeliverStep(u, n, now);
    DeliverTable(u, n, now);
    PurgeAlone(v, u.clients.Keys - v.clients.Keys);
    PurgeTakes(v, u.clients.Keys - v.clients.Keys, n);
  }

  lemma DeliverTable(s: State, n: nat, now: nat)
    requires Shape(s) && Enabled(s, Deliver(n, now))
    ensures DeliverStep(s, n, now).pending == s.pending
  {
    hide FateOf, AfterAttempt, TrySend, TrySendResult;
  }

  /** A response under any other id changes nothing. */
  lemma {:induction false} StrayAnswersVanish(s: State, msg: RawMessage, now: nat)
    requires Inv(s) && Responds(msg)
    requires ParseU64(msg.id.value).None? || ParseU64(msg.id.value).value !in s.pending
    ensures RouteOp(s, msg, now) == s
  {
  }

  /** A client that leaves is no longer registered, and exactly its entries go with it. */
  lemma {:induction false} LeaveIsExact(s: State, c: ClientId, n: nat)
    requires Shape(s)
    ensures var t := Leave(s, {c});
      && t.clients == s.clients - {c} && t.chans == s.chans && t.early == s.early
      && (n in t.pending <==> n in s.pending && s.pending[n].client != c)
      && (n in t.pending ==> t.pending[n] == s.pending[n])
  {
    hide PurgeStep;
    var u := s.(clients := s.clients - {c}, gone := s.gone + {c});
    PurgeAlone(u, {c});
    PurgeTakes(u, {c}, n);
  }

  /** The shutdown: the close frame to everyone who has room, nobody registered, and no
      entry of a client that was. */
  lemma {:induction false} ShutdownIsExact(s: State, code: nat, reason: string, c: ClientId, n: nat)
    requires Shape(s) && c in s.chans
    ensures var t := CloseAllOp(s, code, reason);
      && t.clients == map[] && t.chans.Keys == s.chans.Keys
      && t.chans[c] == (if c in s.clients && HasRoom(s.chans[c])
                        then s.chans[c].(sent := s.chans[c].sent + [Close(code, reason)])
                        else s.chans[c])
      && (n in t.pending <==> n in s.pending && s.pending[n].client !in s.clients)
  {
    hide PurgeStep, CloseAllStep, HasRoom;
    CloseReaches(s, code, reason, c);
    CloseTable(s, code, reason);
    var u := CloseAllStep(s, code, reason);
    PurgeAlone(u, s.clients.Keys);
    PurgeTakes(u, s.clients.Keys, n);
  }

  lemma CloseTable(s: State, code: nat, reason: string)
    requires Shape(s)
    ensures Shape(CloseAllStep(s, code, reason)) && CloseAllStep(s, code, reason).pending == s.pending
  {
    hide ChansAfter;
  }

  // ── The history of ids ────────────────────────────────────────────────

  function Asked(steps: seq<Step>): seq<Route> {
    if steps == [] then []
    else (if steps[0].Allocate? then [Route(steps[0].client, steps[0].original)] else []) + Asked(steps[1..])
  }

  /** The id-bearing messages of the history are those of the run. */
  lemma {:induction false} SentIsAsked(s: State, steps: seq<Step>)
    requires Shape(s) && Run(s, steps).Some?
    ensures Run(s, steps).value.sent == s.sent + Asked(steps)
    decreases |steps|
  {
    hide Apply, Shape;
    if steps == [] {
      assert s.sent + [] == s.sent;
    } else {
      ShapeKept(s, steps[0]);
      StepAsks(s, steps[0]);
      var t := Apply(s, steps[0]);
      SentIsAsked(t, steps[1..]);
      var first := if steps[0].Allocate? then [Route(steps[0].client, steps[0].original)] else [];
      assert s.sent + first + Asked(steps[1..]) == s.sent + (first + Asked(steps[1..]));
    }
  }

  lemma StepAsks(s: State, step: Step)
    requires Shape(s) && Enabled(s, step)
    ensures Apply(s, step).sent
            == s.sent + if step.Allocate? then [Route(step.client, step.original)] else []
  {
    hide ClientsAfter, ChansAfter, SendEarly, TrySend, TrySendResult, FateOf, AfterAttempt, KeptEntries, Answered;
    assert s.sent + [] == s.sent;
  }
}
