/** What every run of the WebSocket gateway keeps. */
module WsProofs {
  import opened Wrappers
  import opened Seqs
  import opened Decimal
  import opened JsonRpc
  import opened Channels
  import opened WsRouting

  // ── The invariant ─────────────────────────────────────────────────────

  /** The table holds exactly the pending ids, each under the route it was allocated for. */
  ghost predicate Tabled(s: State)
    requires Shape(s)
  {
    && (forall n :: n in s.pending <==> 1 <= n < s.nextId && s.status[n - 1].Pending?)
    && (forall n :: n in s.pending ==> s.pending[n] == s.sent[n - 1])
    && (forall i :: 0 <= i < |s.status| && s.status[i].InFlight? ==>
          s.status[i].msg.IsResponse() && s.status[i].msg.id == Some(s.sent[i].original))
    && (forall i :: 0 <= i < |s.status| && s.status[i].Purged? ==> s.sent[i].client in s.gone)
  }

  ghost predicate GoodDelivery(s: State, d: Delivery)
    requires Shape(s)
  {
    && 1 <= d.mangled < s.nextId
    && s.status[d.mangled - 1].Delivered?
    && d.client == s.sent[d.mangled - 1].client
    && d.msg.IsResponse() && d.msg.id == Some(s.sent[d.mangled - 1].original)
    && d.client in s.chans
  }

  function Mangleds(ds: seq<Delivery>): seq<nat> {
    seq(|ds|, i requires 0 <= i < |ds| => ds[i].mangled)
  }

  ghost predicate Logged(s: State)
    requires Shape(s)
  {
    && (forall k :: 0 <= k < |s.delivered| ==> GoodDelivery(s, s.delivered[k]))
    && Distinct(Mangleds(s.delivered))
    && (forall i :: 0 <= i < |s.status| && s.status[i].Delivered? ==> i + 1 in Mangleds(s.delivered))
  }

  /** The responses of a channel, in order. */
  function Responses(sent: seq<Event>): seq<RawMessage> {
    if sent == [] then []
    else
      var last := sent[|sent| - 1];
      Responses(sent[..|sent| - 1]) + if last.Message? && last.msg.IsResponse() then [last.msg] else []
  }

  /** The deliveries to one client, in order. */
  function For(ds: seq<Delivery>, c: ClientId): seq<Delivery> {
    if ds == [] then []
    else
      var last := ds[|ds| - 1];
      For(ds[..|ds| - 1], c) + if last.client == c then [last] else []
  }

  function Messages(ds: seq<Delivery>): seq<RawMessage> {
    seq(|ds|, i requires 0 <= i < |ds| => ds[i].msg)
  }

  ghost predicate Routed(s: State) {
    && (forall c :: c in s.chans ==>
          s.chans[c].Valid() && Responses(s.chans[c].sent) == Messages(For(s.delivered, c)))
    && (s.early.Some? ==> forall m :: m in s.early.value ==> !m.IsResponse())
  }

  ghost predicate Pressured(s: State) {
    forall c :: c in s.clients ==> Faithful(s.clients[c], s.clock)
  }

  ghost predicate Inv(s: State) {
    Shape(s) && Tabled(s) && Logged(s) && Routed(s) && Pressured(s)
  }

  // ── Channels ──────────────────────────────────────────────────────────

  lemma ResponsesSend(ch: Chan<Event>, e: Event)
    ensures var after := TrySend(ch, e, CLIENT_CHANNEL_CAP);
      Responses(after.sent) == Responses(ch.sent) +
        if TrySendResult(ch, CLIENT_CHANNEL_CAP).Sent? && e.Message? && e.msg.IsResponse() then [e.msg] else []
  {
    assert (ch.sent + [e])[..|ch.sent|] == ch.sent;
  }

  lemma {:induction false} ResponsesEarly(ch: Chan<Event>, buffer: seq<RawMessage>)
    requires ch.Valid() && forall m :: m in buffer ==> !m.IsResponse()
    ensures var after := SendEarly(ch, buffer);
      after.Valid() && Responses(after.sent) == Responses(ch.sent)
    decreases |buffer|
  {
    if buffer == [] {
    } else {
      ResponsesSend(ch, Message(buffer[0]));
      ResponsesEarly(TrySend(ch, Message(buffer[0]), CLIENT_CHANNEL_CAP), buffer[1..]);
    }
  }

  lemma {:induction false} ForNobody(ds: seq<Delivery>, c: ClientId)
    requires forall k :: 0 <= k < |ds| ==> ds[k].client != c
    ensures For(ds, c) == []
  {
    if ds == [] {
    } else {
      ForNobody(ds[..|ds| - 1], c);
    }
  }

  lemma ForAppend(ds: seq<Delivery>, d: Delivery, c: ClientId)
    ensures For(ds + [d], c) == For(ds, c) + if d.client == c then [d] else []
    ensures Messages(For(ds + [d], c)) == Messages(For(ds, c)) + if d.client == c then [d.msg] else []
  {
    assert (ds + [d])[..|ds|] == ds;
  }

  // ── Each step keeps it ────────────────────────────────────────────────

  lemma LogKept(s: State, t: State)
    requires Shape(s) && Shape(t) && Logged(s)
    requires t.delivered == s.delivered && s.sent <= t.sent && s.chans.Keys <= t.chans.Keys
    requires forall i :: 0 <= i < |t.status| ==>
      (t.status[i].Delivered? <==> i < |s.status| && s.status[i].Delivered?)
    ensures Logged(t)
  {
    assert forall k :: 0 <= k < |s.delivered| ==> GoodDelivery(s, s.delivered[k]);
  }

  lemma RoutingKept(s: State, t: State)
    requires Routed(s) && t.chans == s.chans && t.delivered == s.delivered && t.early == s.early
    ensures Routed(t)
  {
    hide Responses, For;
  }

  lemma TableKept(s: State, t: State)
    requires Shape(s) && Tabled(s) && Shape(t)
    requires t.pending == s.pending && t.sent == s.sent && t.status == s.status && s.gone <= t.gone
    ensures Tabled(t)
  {
  }

  lemma PressureKept(s: State, t: State)
    requires Pressured(s) && t.clients.Keys <= s.clients.Keys && s.clock <= t.clock
    requires forall c :: c in t.clients ==> t.clients[c] == s.clients[c]
    ensures Pressured(t)
  {
    hide FullFrom;
  }

  lemma AllocateKeeps(s: State, c: ClientId, original: string)
    requires Inv(s)
    ensures Inv(AllocateStep(s, c, original))
  {
    hide Logged, Routed, Pressured;
    var t := AllocateStep(s, c, original);
    LogKept(s, t);
    RoutingKept(s, t);
    PressureKept(s, t);
  }

  lemma InsertKeeps(s: State, n: nat)
    requires Inv(s) && Enabled(s, Insert(n))
    ensures Inv(InsertStep(s, n))
  {
    hide Logged, Routed, Pressured;
    var t := InsertStep(s, n);
    LogKept(s, t);
    RoutingKept(s, t);
    PressureKept(s, t);
  }

  lemma UnmangleIs(s: State, msg: RawMessage)
    requires Shape(s) && Tabled(s)
    ensures var t := UnmangleStep(s, msg);
      match Answered(s, msg)
      case None => t == s
      case Some(n) =>
        && n in s.pending && 1 <= n <= |s.status| && s.status[n - 1].Pending? && s.pending[n] == s.sent[n - 1]
        && t == s.(pending := s.pending - {n},
                   status := s.status[n - 1 := InFlight(msg.(id := Some(s.sent[n - 1].original)))])
  {
    hide ParseU64;
  }

  lemma UnmangleKeeps(s: State, msg: RawMessage)
    requires Inv(s) && msg.IsResponse()
    ensures Inv(UnmangleStep(s, msg))
  {
    hide Logged, Routed, Pressured, UnmangleStep, Answered;
    UnmangleIs(s, msg);
    var t := UnmangleStep(s, msg);
    if Answered(s, msg).Some? {
      LogKept(s, t);
      RoutingKept(s, t);
      PressureKept(s, t);
    }
  }

  lemma PurgeKeeps(s: State, c: ClientId)
    requires Inv(s) && c in s.gone
    ensures Inv(PurgeStep(s, {c}))
  {
    hide Logged, Routed, Pressured;
    var t := PurgeStep(s, {c});
    LogKept(s, t);
    RoutingKept(s, t);
    PressureKept(s, t);
  }

  lemma OfferKeepsRouting(s: State, e: Event, c: ClientId)
    requires Routed(s) && c in s.chans && (e.Message? ==> !e.msg.IsResponse())
    ensures var ch := TrySend(s.chans[c], e, CLIENT_CHANNEL_CAP);
      ch.Valid() && Responses(ch.sent) == Messages(For(s.delivered, c))
  {
    ResponsesSend(s.chans[c], e);
    assert Responses(s.chans[c].sent) + [] == Responses(s.chans[c].sent);
  }

  lemma OffersKeepRouting(s: State, e: Event, t: State)
    requires Routed(s) && (e.Message? ==> !e.msg.IsResponse())
    requires t.chans == ChansAfter(s.clients, s.chans, e) && t.delivered == s.delivered && t.early == s.early
    ensures Routed(t)
  {
    hide Responses, For, TrySend;
    forall c | c in t.chans ensures t.chans[c].Valid() && Responses(t.chans[c].sent) == Messages(For(t.delivered, c)) {
      OfferKeepsRouting(s, e, c);
    }
  }

  lemma OffersKeepPressure(s: State, t: State)
    requires s.clients.Keys <= s.chans.Keys && Pressured(s) && s.clock <= t.clock
    requires t.clients == ClientsAfter(s.clients, s.chans, t.clock)
    ensures Pressured(t)
  {
    hide Faithful, AfterAttempt, FateOf, TrySendResult;
    forall c | c in t.clients ensures Faithful(t.clients[c], t.clock) {
      AttemptFaithful(s.clients[c], TrySendResult(s.chans[c], CLIENT_CHANNEL_CAP), s.clock, t.clock);
    }
  }

  lemma BroadcastKeeps(s: State, msg: RawMessage, now: nat)
    requires Inv(s) && !msg.IsResponse() && s.clock <= now
    ensures Inv(BroadcastStep(s, msg, now))
  {
    hide Tabled, Logged, Pressured, Responses, For;
    var t := BroadcastStep(s, msg, now);
    TableKept(s, t);
    LogKept(s, t);
    if s.early.Some? && s.clients == map[] {
      PressureKept(s, t);
    } else {
      OffersKeepRouting(s, Message(msg), t);
      OffersKeepPressure(s, t);
    }
  }

  lemma CloseAllKeeps(s: State, code: nat, reason: string)
    requires Inv(s)
    ensures Inv(CloseAllStep(s, code, reason))
  {
    hide Tabled, Logged, Routed, Pressured;
    var t := CloseAllStep(s, code, reason);
    TableKept(s, t);
    LogKept(s, t);
    OffersKeepRouting(s, Close(code, reason), t);
    PressureKept(s, t);
  }

  lemma NewClientRouting(s: State, c: ClientId)
    requires Shape(s) && Logged(s) && Routed(s) && c !in s.chans
    ensures var ch := ConnectStep(s, c).chans[c];
      ch.Valid() && Responses(ch.sent) == Messages(For(s.delivered, c))
  {
    hide Responses, For, SendEarly;
    forall k | 0 <= k < |s.delivered| ensures s.delivered[k].client != c {
      assert GoodDelivery(s, s.delivered[k]);
    }
    ForNobody(s.delivered, c);
    ResponsesEarly(NewChan(), match s.early case Some(msgs) => msgs case None => []);
    EmptyChannel();
  }

  lemma EmptyChannel()
    ensures Responses(NewChan().sent) == []
  {
  }

  lemma ConnectKeepsRouting(s: State, c: ClientId)
    requires Shape(s) && Logged(s) && Routed(s) && c !in s.chans
    ensures Routed(ConnectStep(s, c))
  {
    hide Responses, For, SendEarly, Logged;
    NewClientRouting(s, c);
  }

  lemma ConnectKeeps(s: State, c: ClientId)
    requires Inv(s) && c !in s.chans
    ensures Inv(ConnectStep(s, c))
  {
    hide Tabled, Logged, Routed, Faithful, SendEarly;
    var t := ConnectStep(s, c);
    TableKept(s, t);
    LogKept(s, t);
    ConnectKeepsRouting(s, c);
    FreshIsFaithful(s.clock);
  }

  lemma ReceiverKeeps(s: State, c: ClientId, ch: Chan<Event>)
    requires Inv(s) && c in s.chans && ch in [Receive(s.chans[c]), s.chans[c].(open := false)]
    ensures Inv(s.(chans := s.chans[c := ch]))
  {
    hide Tabled, Logged, Pressured, Responses, For;
    var t := s.(chans := s.chans[c := ch]);
    TableKept(s, t);
    LogKept(s, t);
    PressureKept(s, t);
  }

  lemma DisconnectKeeps(s: State, c: ClientId)
    requires Inv(s)
    ensures Inv(DisconnectStep(s, c))
  {
    hide Tabled, Logged, Routed, Pressured;
    var t := DisconnectStep(s, c);
    TableKept(s, t);
    LogKept(s, t);
    RoutingKept(s, t);
    PressureKept(s, t);
  }

  // ── Handing an answer over ────────────────────────────────────────────

  lemma DeliverKeepsPressure(s: State, n: nat, now: nat)
    requires Shape(s) && Pressured(s) && Enabled(s, Deliver(n, now))
    ensures Pressured(DeliverStep(s, n, now))
  {
    hide Faithful, AfterAttempt, FateOf, TrySend, TrySendResult;
    var t := DeliverStep(s, n, now);
    forall c | c in t.clients ensures Faithful(t.clients[c], now) {
      LaterStillFaithful(s.clients[c], s.clock, now);
      AttemptFaithful(s.clients[c], TrySendResult(s.chans[c], CLIENT_CHANNEL_CAP), s.clock, now);
    }
  }

  lemma LaterStillFaithful(c: Client, before: nat, now: nat)
    requires Faithful(c, before) && before <= now
    ensures Faithful(c, now)
  {
  }

  /** The answer is dropped: nothing but the fate of its client changes. */
  lemma DropIs(s: State, n: nat, now: nat)
    requires Shape(s) && Enabled(s, Deliver(n, now)) && !DeliverStep(s, n, now).status[n - 1].Delivered?
    ensures var t := DeliverStep(s, n, now);
      && t.status == s.status[n - 1 := Dropped]
      && t.delivered == s.delivered && t.chans == s.chans && t.pending == s.pending && t.sent == s.sent
      && t.nextId == s.nextId && t.early == s.early && s.gone <= t.gone && t.clients.Keys <= s.clients.Keys
  {
    hide FateOf, AfterAttempt, TrySendResult, TrySend;
  }

  lemma HandOverIs(s: State, n: nat, now: nat)
    requires Shape(s) && Enabled(s, Deliver(n, now)) && DeliverStep(s, n, now).status[n - 1].Delivered?
    ensures var c, msg := s.sent[n - 1].client, s.status[n - 1].msg;
      var t := DeliverStep(s, n, now);
      && c in s.clients && TrySendResult(s.chans[c], CLIENT_CHANNEL_CAP).Sent?
      && t.status == s.status[n - 1 := Delivered]
      && t.delivered == s.delivered + [Delivery(n, c, msg)]
      && t.chans == s.chans[c := TrySend(s.chans[c], Message(msg), CLIENT_CHANNEL_CAP)]
      && t.pending == s.pending && t.sent == s.sent && t.gone == s.gone && t.nextId == s.nextId
      && t.early == s.early && t.clients.Keys == s.clients.Keys
  {
    hide AfterAttempt, TrySend;
  }

  lemma DropKeeps(s: State, n: nat, now: nat)
    requires Inv(s) && Enabled(s, Deliver(n, now)) && !DeliverStep(s, n, now).status[n - 1].Delivered?
    ensures Inv(DeliverStep(s, n, now))
  {
    hide Logged, Routed, Pressured, DeliverStep;
    DropIs(s, n, now);
    var t := DeliverStep(s, n, now);
    LogKept(s, t);
    RoutingKept(s, t);
    DeliverKeepsPressure(s, n, now);
  }

  lemma HandOverKeepsTable(s: State, n: nat, now: nat)
    requires Shape(s) && Tabled(s) && Enabled(s, Deliver(n, now))
    requires DeliverStep(s, n, now).status[n - 1].Delivered?
    ensures Shape(DeliverStep(s, n, now)) && Tabled(DeliverStep(s, n, now))
  {
    hide DeliverStep;
    HandOverIs(s, n, now);
  }

  lemma HandOverKeepsLog(s: State, n: nat, now: nat)
    requires Shape(s) && Tabled(s) && Logged(s) && Enabled(s, Deliver(n, now))
    requires DeliverStep(s, n, now).status[n - 1].Delivered? && Shape(DeliverStep(s, n, now))
    ensures Logged(DeliverStep(s, n, now))
  {
    hide DeliverStep, TrySend, TrySendResult;
    HandOverIs(s, n, now);
    var t := DeliverStep(s, n, now);
    forall k | 0 <= k < |s.delivered| ensures GoodDelivery(t, s.delivered[k]) && s.delivered[k].mangled != n {
      assert GoodDelivery(s, s.delivered[k]);
    }
    assert Mangleds(t.delivered) == Mangleds(s.delivered) + [n];
    LogGrows(s, t, n);
  }

  lemma LogGrows(s: State, t: State, n: nat)
    requires Shape(s) && Shape(t) && 1 <= n <= |s.status| && t.status == s.status[n - 1 := Delivered]
    requires forall i :: 0 <= i < |s.status| && s.status[i].Delivered? ==> i + 1 in Mangleds(s.delivered)
    requires Mangleds(t.delivered) == Mangleds(s.delivered) + [n]
    ensures forall i :: 0 <= i < |t.status| && t.status[i].Delivered? ==> i + 1 in Mangleds(t.delivered)
  {
    forall i | 0 <= i < |t.status| && t.status[i].Delivered? ensures i + 1 in Mangleds(t.delivered) {
      if i + 1 != n {
        assert i + 1 in Mangleds(s.delivered);
      }
    }
  }

  lemma HandOverKeepsRouting(s: State, n: nat, now: nat)
    requires Shape(s) && Tabled(s) && Routed(s) && Enabled(s, Deliver(n, now))
    requires DeliverStep(s, n, now).status[n - 1].Delivered?
    ensures Routed(DeliverStep(s, n, now))
  {
    hide DeliverStep, Responses, For, TrySend;
    HandOverIs(s, n, now);
    var t := DeliverStep(s, n, now);
    var c, msg := s.sent[n - 1].client, s.status[n - 1].msg;
    ResponsesSend(s.chans[c], Message(msg));
    SendKeepsValid(s.chans[c], Message(msg));
    forall d | d in t.chans ensures t.chans[d].Valid() && Responses(t.chans[d].sent) == Messages(For(t.delivered, d)) {
      ForAppend(s.delivered, Delivery(n, c, msg), d);
      assert Messages(For(s.delivered, d)) + [] == Messages(For(s.delivered, d));
    }
  }

  lemma SendKeepsValid(ch: Chan<Event>, e: Event)
    requires ch.Valid()
    ensures TrySend(ch, e, CLIENT_CHANNEL_CAP).Valid()
  {
  }

  lemma HandOverKeeps(s: State, n: nat, now: nat)
    requires Inv(s) && Enabled(s, Deliver(n, now)) && DeliverStep(s, n, now).status[n - 1].Delivered?
    ensures Inv(DeliverStep(s, n, now))
  {
    hide Tabled, Logged, Routed, Pressured, DeliverStep;
    HandOverKeepsTable(s, n, now);
    HandOverKeepsLog(s, n, now);
    HandOverKeepsRouting(s, n, now);
    DeliverKeepsPressure(s, n, now);
  }

  lemma DeliverKeeps(s: State, n: nat, now: nat)
    requires Inv(s) && Enabled(s, Deliver(n, now))
    ensures Inv(DeliverStep(s, n, now))
  {
    hide Tabled, Logged, Routed, Pressured;
    if DeliverStep(s, n, now).status[n - 1].Delivered? {
      HandOverKeeps(s, n, now);
    } else {
      DropKeeps(s, n, now);
    }
  }

  // ── Runs ──────────────────────────────────────────────────────────────

  lemma {:induction false} StepKeeps(s: State, step: Step)
    requires Inv(s) && Enabled(s, step)
    ensures Inv(Apply(s, step))
  {
    hide Tabled, Logged, Routed, Pressured, Receive, AllocateStep, InsertStep, UnmangleStep, DeliverStep,
         BroadcastStep, ConnectStep, DisconnectStep, PurgeStep, CloseAllStep;
    match step
    case Allocate(c, original) => AllocateKeeps(s, c, original);
    case Insert(n) => InsertKeeps(s, n);
    case Unmangle(msg) => UnmangleKeeps(s, msg);
    case Deliver(n, now) => DeliverKeeps(s, n, now);
    case Broadcast(msg, now) => BroadcastKeeps(s, msg, now);
    case Connect(c) => ConnectKeeps(s, c);
    case Disconnect(c) => DisconnectKeeps(s, c);
    case Purge(c) => PurgeKeeps(s, c);
    case CloseAll(code, reason) => CloseAllKeeps(s, code, reason);
    case Receiving(c) => ReceiverKeeps(s, c, Receive(s.chans[c]));
    case HangUp(c) => ReceiverKeeps(s, c, s.chans[c].(open := false));
  }

  lemma {:induction false} RunKeeps(s: State, steps: seq<Step>)
    requires Inv(s) && Run(s, steps).Some?
    ensures Inv(Run(s, steps).value)
    decreases |steps|
  {
    hide Apply, Tabled, Logged, Routed, Pressured;
    if steps == [] {
    } else {
      StepKeeps(s, steps[0]);
      RunKeeps(Apply(s, steps[0]), steps[1..]);
    }
  }

  lemma Reachable(steps: seq<Step>)
    requires Run(INIT, steps).Some?
    ensures Inv(Run(INIT, steps).value)
  {
    hide Apply;
    assert Inv(INIT);
    RunKeeps(INIT, steps);
  }
}
