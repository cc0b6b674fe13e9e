/** The WebSocket gateway as the object it is: the id multiplexer, the client registry and
    the child's relay as methods over the fields the gateway keeps behind its locks. */
module WsGateways {
  import opened Wrappers
  import opened Decimal
  import opened JsonRpc
  import opened Channels
  import opened WsRouting
  import opened WsProofs
  import opened WsTheorems

  const MAX_WS_CLIENTS: nat := 1024
  const MAX_FRAME_SIZE: nat := 16 * 1024 * 1024

  const WS_CLOSE_TOO_LARGE: nat := 1009
  const WS_CLOSE_INTERNAL: nat := 1011

  datatype ConnectError = TooManyConnections

  // ── States of the step system ─────────────────────────────────────────

  /** Some run of the step system leads here. */
  ghost predicate Reached(s: State) {
    exists steps :: Run(INIT, steps) == Some(s)
  }

  lemma ReachedInv(s: State)
    requires Reached(s)
    ensures Inv(s) && Shape(s)
  {
    hide Run, Tabled, Logged, Routed, Pressured;
    var steps :| Run(INIT, steps) == Some(s);
    Reachable(steps);
  }

  lemma {:induction false} RunAppend(s: State, steps: seq<Step>, step: Step)
    requires Shape(s) && Run(s, steps).Some?
    requires Shape(Run(s, steps).value) && Enabled(Run(s, steps).value, step)
    ensures Run(s, steps + [step]) == Some(Apply(Run(s, steps).value, step))
    decreases |steps|
  {
    hide Apply;
    if steps == [] {
      assert steps + [step] == [step] && [step][1..] == [];
      ShapeKept(s, step);
    } else {
      ShapeKept(s, steps[0]);
      RunAppend(Apply(s, steps[0]), steps[1..], step);
      assert (steps + [step])[0] == steps[0] && (steps + [step])[1..] == steps[1..] + [step];
    }
  }

  lemma ReachedNext(s: State, step: Step)
    requires Reached(s) && Shape(s) && Enabled(s, step)
    ensures Reached(Apply(s, step)) && Shape(Apply(s, step))
  {
    hide Apply, Run;
    var steps :| Run(INIT, steps) == Some(s);
    RunAppend(INIT, steps, step);
    ShapeKept(s, step);
  }

  // ── What the operations do ────────────────────────────────────────────

  /** Give an id-bearing message of `c` the next id. */
  function Ask(s: State, c: ClientId, original: string): (t: State)
    requires Shape(s)
    ensures Shape(t)
  {
    InsertStep(AllocateStep(s, c, original), s.nextId)
  }

  lemma AskReached(s: State, c: ClientId, original: string)
    requires Reached(s) && Shape(s)
    ensures Reached(Ask(s, c, original))
  {
    hide Reached;
    ReachedNext(s, Allocate(c, original));
    ReachedNext(AllocateStep(s, c, original), Insert(s.nextId));
  }

  /** What `c`'s messages do: the gateway's new state, what the child is given, and whether
      it took all of it, when it takes `writes` messages and then no more. */
  function Forward(s: State, c: ClientId, msgs: seq<RawMessage>, writes: nat): (State, seq<RawMessage>, bool)
    requires Shape(s)
    decreases |msgs|
  {
    if msgs == [] then (s, [], true)
    else
      var msg := msgs[0];
      var (t, out) := match msg.id
        case None => (s, msg)
        case Some(original) => (Ask(s, c, original), msg.(id := Some(Print(s.nextId))));
      if writes == 0 then (t, [], false)
      else
        var (u, rest, ok) := Forward(t, c, msgs[1..], writes - 1);
        (u, [out] + rest, ok)
  }

  /** How many of the first `k` messages bear an id. */
  function IdsBefore(msgs: seq<RawMessage>, k: nat): nat
    requires k <= |msgs|
  {
    if k == 0 then 0 else IdsBefore(msgs, k - 1) + if msgs[k - 1].id.Some? then 1 else 0
  }

  /** The id that message `k` is given. */
  function IdAt(s: State, msgs: seq<RawMessage>, k: nat): nat
    requires k <= |msgs|
  {
    s.nextId + IdsBefore(msgs, k)
  }

  lemma {:induction false} IdsBeforeShift(msgs: seq<RawMessage>, k: nat)
    requires 0 < |msgs| && k <= |msgs| - 1
    ensures IdsBefore(msgs, k + 1) == (if msgs[0].id.Some? then 1 else 0) + IdsBefore(msgs[1..], k)
  {
    if k > 0 {
      IdsBeforeShift(msgs, k - 1);
    } else {
      assert IdsBefore(msgs, 0) == 0;
    }
  }

  lemma NoIdsBefore(msgs: seq<RawMessage>)
    ensures IdsBefore(msgs, 0) == 0
  {
  }

  /** Different messages are given different ids, in the order in which they come. */
  lemma {:induction false} IdsDiffer(s: State, msgs: seq<RawMessage>, j: nat, k: nat)
    requires j < k <= |msgs| && msgs[j].id.Some?
    ensures IdAt(s, msgs, j) < IdAt(s, msgs, k)
  {
    if j + 1 < k {
      IdsDiffer(s, msgs, j, k - 1);
    }
  }

  /** What the child is given: the client's messages in order, as many as it takes, the
      id-bearing ones under ids of their own that the table maps back to the client and to
      the id it chose. Entries of other messages stay as they are. A message the child no
      longer takes leaves its entry behind. */
  lemma {:induction false} ForwardMangles(s: State, c: ClientId, msgs: seq<RawMessage>, writes: nat)
    requires Shape(s) && forall n :: n in s.pending ==> n < s.nextId
    ensures var (t, out, ok) := Forward(s, c, msgs, writes);
      && (ok <==> |msgs| <= writes)
      && |out| == (if ok then |msgs| else writes)
      && (forall k :: 0 <= k < |out| ==>
            out[k] == if msgs[k].id.Some? then msgs[k].(id := Some(Print(IdAt(s, msgs, k)))) else msgs[k])
      && (forall k :: 0 <= k < (if ok then |msgs| else writes + 1) && msgs[k].id.Some? ==>
            IdAt(s, msgs, k) in t.pending && t.pending[IdAt(s, msgs, k)] == Route(c, msgs[k].id.value))
      && (forall n :: n in s.pending ==> n in t.pending && t.pending[n] == s.pending[n])
      && t.clients == s.clients && t.chans == s.chans && t.early == s.early
    decreases |msgs|
  {
    hide Ask, Print, IdsBefore, Forward;
    NoIdsBefore(msgs);
    if msgs == [] {
      ForwardNothing(s, c, writes);
    } else {
      assert msgs[0..] == msgs;
      ForwardNext(s, c, msgs, 0, writes);
      var msg := msgs[0];
      var t := if msg.id.Some? then Ask(s, c, msg.id.value) else s;
      if msg.id.Some? {
        AskAdds(s, c, msg.id.value);
      }
      forall k | 0 <= k < |msgs|
        ensures k > 0 ==> IdAt(s, msgs, k) == IdAt(t, msgs[1..], k - 1)
      {
        if k > 0 {
          IdsBeforeShift(msgs, k - 1);
        }
      }
      if writes > 0 {
        ForwardMangles(t, c, msgs[1..], writes - 1);
      }
    }
  }

  lemma AskAdds(s: State, c: ClientId, original: string)
    requires Shape(s)
    ensures var t := Ask(s, c, original);
      && t.nextId == s.nextId + 1
      && t.pending == s.pending[s.nextId := Route(c, original)]
      && t.clients == s.clients && t.chans == s.chans && t.early == s.early
  {
  }

  lemma ForwardNothing(s: State, c: ClientId, writes: nat)
    requires Shape(s)
    ensures Forward(s, c, [], writes) == (s, [], true)
  {
  }

  lemma ForwardNext(s: State, c: ClientId, msgs: seq<RawMessage>, i: nat, writes: nat)
    requires Shape(s) && i < |msgs|
    ensures var msg := msgs[i];
      var t := if msg.id.Some? then Ask(s, c, msg.id.value) else s;
      var out := if msg.id.Some? then msg.(id := Some(Print(s.nextId))) else msg;
      if writes == 0 then Forward(s, c, msgs[i..], writes) == (t, [], false)
      else
        var (u, rest, ok) := Forward(t, c, msgs[i + 1..], writes - 1);
        Forward(s, c, msgs[i..], writes) == (u, [out] + rest, ok)
  {
    hide Ask;
    assert msgs[i..][0] == msgs[i] && msgs[i..][1..] == msgs[i + 1..];
  }

  /** Clients `cs` leave, and their entries with them. */
  function Leave(s: State, cs: set<ClientId>): State
    requires Shape(s)
  {
    PurgeStep(s.(clients := s.clients - cs, gone := s.gone + cs), cs)
  }

  function BroadcastOp(s: State, msg: RawMessage, now: nat): State
    requires Shape(s)
  {
    var t := BroadcastStep(s, msg, now);
    PurgeStep(t, s.clients.Keys - t.clients.Keys)
  }

  function AnswerOp(s: State, msg: RawMessage, now: nat): State
    requires Inv(s)
  {
    match Answered(s, msg)
    case None => s
    case Some(n) =>
      UnmangleIs(s, msg);
      DeliverOp(UnmangleStep(s, msg), n, now)
  }

  function DeliverOp(s: State, n: nat, now: nat): State
    requires Shape(s) && 1 <= n <= |s.status| && s.status[n - 1].InFlight?
  {
    var t := DeliverStep(s, n, now);
    PurgeStep(t, s.clients.Keys - t.clients.Keys)
  }

  function RouteOp(s: State, msg: RawMessage, now: nat): State
    requires Inv(s)
  {
    if msg.IsResponse() then AnswerOp(s, msg, now) else BroadcastOp(s, msg, now)
  }

  function CloseAllOp(s: State, code: nat, reason: string): State
    requires Shape(s)
  {
    PurgeStep(CloseAllStep(s, code, reason), s.clients.Keys)
  }

  lemma PurgeNobody(s: State)
    requires Shape(s)
    ensures PurgeStep(s, {}) == s
  {
    assert PurgeStep(s, {}).pending == s.pending;
    assert PurgeStep(s, {}).status == s.status;
  }

  lemma LeaveIs(s: State, cs: set<ClientId>)
    requires Shape(s)
    ensures var t := Leave(s, cs);
      t == s.(clients := s.clients - cs, pending := KeptEntries(s.pending, cs), gone := t.gone, status := t.status)
  {
    hide KeptEntries;
  }

  lemma KeptTwice(pending: map<nat, Route>, a: set<ClientId>, b: set<ClientId>)
    ensures KeptEntries(KeptEntries(pending, a), b) == KeptEntries(pending, a + b)
  {
  }

  lemma SendNothing(ch: Chan<Event>)
    ensures SendEarly(ch, []) == ch
  {
  }

  lemma DeliverOpIs(s: State, n: nat, now: nat)
    requires Shape(s) && 1 <= n <= |s.status| && s.status[n - 1].InFlight?
    ensures var c := s.sent[n - 1].client;
      if c in s.clients && !FateOf(s.clients[c], TrySendResult(s.chans[c], CLIENT_CHANNEL_CAP), now).Keep?
      then DeliverOp(s, n, now) == Leave(s.(status := s.status[n - 1 := Dropped], clock := now), {c})
      else DeliverOp(s, n, now) == DeliverStep(s, n, now)
  {
    hide FateOf, AfterAttempt, TrySend, PurgeStep;
    var t := DeliverStep(s, n, now);
    var c := s.sent[n - 1].client;
    if c in s.clients && !FateOf(s.clients[c], TrySendResult(s.chans[c], CLIENT_CHANNEL_CAP), now).Keep? {
      assert s.clients.Keys - t.clients.Keys == {c};
    } else {
      assert s.clients.Keys - t.clients.Keys == {};
      PurgeNobody(t);
    }
  }

  // ── The operations are runs ───────────────────────────────────────────

  /** A purge of clients that have left, one by one. */
  lemma PurgeReached(s: State, cs: set<ClientId>)
    requires Reached(s) && Shape(s) && cs <= s.gone
    ensures Reached(PurgeStep(s, cs)) && Shape(PurgeStep(s, cs))
    decreases |cs|
  {
    hide Reached, KeptEntries;
    if cs == {} {
      PurgeNobody(s);
    } else {
      var c :| c in cs;
      ReachedNext(s, Purge(c));
      PurgeReached(PurgeStep(s, {c}), cs - {c});
      PurgesCompose(s, {c}, cs - {c});
      assert {c} + (cs - {c}) == cs;
    }
  }

  lemma DeliverReached(s: State, n: nat, now: nat)
    requires Reached(s) && Shape(s) && Enabled(s, Deliver(n, now))
    ensures Reached(DeliverOp(s, n, now))
  {
    hide Reached, FateOf, AfterAttempt, TrySend, TrySendResult, PurgeStep;
    var t := DeliverStep(s, n, now);
    ReachedNext(s, Deliver(n, now));
    PurgeReached(t, s.clients.Keys - t.clients.Keys);
  }

  lemma AnswerReached(s: State, msg: RawMessage, now: nat)
    requires Reached(s) && Inv(s) && msg.IsResponse() && s.clock <= now
    ensures Reached(AnswerOp(s, msg, now))
  {
    hide Reached, Logged, Routed, Pressured, DeliverOp;
    UnmangleIs(s, msg);
    ReachedNext(s, Unmangle(msg));
    if Answered(s, msg).Some? {
      DeliverReached(UnmangleStep(s, msg), Answered(s, msg).value, now);
    }
  }

  lemma BroadcastReached(s: State, msg: RawMessage, now: nat)
    requires Reached(s) && Shape(s) && !msg.IsResponse() && s.clock <= now
    ensures Reached(BroadcastOp(s, msg, now))
  {
    hide Reached, PurgeStep, ClientsAfter, ChansAfter;
    var t := BroadcastStep(s, msg, now);
    ReachedNext(s, Broadcast(msg, now));
    PurgeReached(t, s.clients.Keys - t.clients.Keys);
  }

  /** Handling a message of the child is a run of the step system. */
  lemma RouteReached(s: State, msg: RawMessage, now: nat)
    requires Reached(s) && Inv(s) && s.clock <= now
    ensures Reached(RouteOp(s, msg, now))
  {
    hide Reached, AnswerOp, BroadcastOp;
    if msg.IsResponse() {
      AnswerReached(s, msg, now);
    } else {
      BroadcastReached(s, msg, now);
    }
  }

  lemma LeaveReached(s: State, c: ClientId)
    requires Reached(s) && Shape(s)
    ensures c in s.clients ==> Reached(Leave(s, {c}))
  {
    hide Reached, PurgeStep;
    if c in s.clients {
      ReachedNext(s, Disconnect(c));
      PurgeReached(DisconnectStep(s, c), {c});
    }
  }

  lemma CloseAllReached(s: State, code: nat, reason: string)
    requires Reached(s) && Shape(s)
    ensures Reached(CloseAllOp(s, code, reason))
  {
    hide Reached, PurgeStep, ChansAfter;
    ReachedNext(s, CloseAll(code, reason));
    PurgeReached(CloseAllStep(s, code, reason), s.clients.Keys);
  }

  // ── The gateway ───────────────────────────────────────────────────────

  class WsGateway {
    var nextId: nat
    var pending: map<nat, Route>
    var clients: map<ClientId, Client>
    var chans: map<ClientId, Chan<Event>>
    var early: Option<seq<RawMessage>>
    ghost var gone: set<ClientId>
    ghost var sent: seq<Route>
    ghost var status: seq<Status>
    ghost var delivered: seq<Delivery>
    ghost var clock: nat

    ghost function View(): State
      reads this
    {
      State(nextId, pending, clients, chans, early, gone, sent, status, delivered, clock)
    }

    ghost predicate Valid()
      reads this
    {
      Reached(View()) && Inv(View())
    }

    constructor ()
      ensures View() == INIT && Valid()
    {
      nextId, pending, clients, chans, early := 1, map[], map[], map[], Some([]);
      gone, sent, status, delivered, clock := {}, [], [], [], 0;
      new;
      Reachable([]);
      assert Run(INIT, []) == Some(View());
    }

    /** Allocate an id and register who is to have the answer. */
    method Mangle(c: ClientId, original: string) returns (mangled: nat)
      requires Shape(View())
      modifies this`nextId, this`pending, this`sent, this`status
      ensures mangled == old(nextId) && View() == Ask(old(View()), c, original)
    {
      mangled := nextId;
      nextId := nextId + 1;
      pending := pending[mangled := Route(c, original)];
      sent, status := sent + [Route(c, original)], status + [Pending];
      assert status == (old(status) + [Inserting])[mangled - 1 := Pending];
    }

    /** `parsed` is the frame's messages, None when it is not JSON-RPC; `writes` is how many
        messages the child still takes. `written` is what it is given. An error is the code
        to close the connection with. */
    method HandleWsMessage(c: ClientId, length: nat, parsed: Option<seq<RawMessage>>, writes: nat)
      returns (r: Result<(), nat>, written: seq<RawMessage>)
      requires Valid()
      modifies this`nextId, this`pending, this`sent, this`status
      ensures Valid()
      ensures length > MAX_FRAME_SIZE ==> r == Err(WS_CLOSE_TOO_LARGE)
      ensures length > MAX_FRAME_SIZE || parsed.None? ==> View() == old(View()) && written == []
      ensures length <= MAX_FRAME_SIZE && parsed.None? ==> r == Ok(())
      ensures length <= MAX_FRAME_SIZE && parsed.Some? ==>
        (View(), written, r == Ok(())) == Forward(old(View()), c, parsed.value, writes)
        && (r.Err? ==> r.error == WS_CLOSE_INTERNAL)
    {
      hide Inv, Reached, Shape, Ask, Forward;
      written := [];
      if length > MAX_FRAME_SIZE {
        return Err(WS_CLOSE_TOO_LARGE), written;
      }
      if parsed.None? {
        return Ok(()), written;
      }
      ReachedInv(View());
      var msgs := parsed.value;
      ghost var goal := Forward(View(), c, msgs, writes);
      assert msgs[0..] == msgs && [] + goal.1 == goal.1;
      var i := 0;
      while i < |msgs|
        invariant i <= |msgs| && i == |written| <= writes && Reached(View()) && Shape(View())
        invariant var (t, rest, ok) := Forward(View(), c, msgs[i..], writes - i);
          goal == (t, written + rest, ok)
      {
        var msg := msgs[i];
        ForwardNext(View(), c, msgs, i, writes - i);
        if msg.id.Some? {
          AskReached(View(), c, msg.id.value);
          var mangled := Mangle(c, msg.id.value);
          msg := msg.(id := Some(Print(mangled)));
        }
        if i == writes {
          assert written + [] == written;
          ReachedInv(View());
          return Err(WS_CLOSE_INTERNAL), written;
        }
        ghost var rest := Forward(View(), c, msgs[i + 1..], writes - i - 1).1;
        assert written + ([msg] + rest) == (written + [msg]) + rest;
        written := written + [msg];
        i := i + 1;
      }
      assert msgs[i..] == [] && written + [] == written;
      ForwardNothing(View(), c, writes - i);
      ReachedInv(View());
      r := Ok(());
    }

    /** The client leaves the registry if it is there, and its entries the table. */
    method RemoveClientLocked(c: ClientId)
      requires Shape(View())
      modifies this`clients, this`pending, this`gone, this`status
      ensures View() == if c in old(clients) then Leave(old(View()), {c}) else old(View())
    {
      if c in clients {
        ghost var goal := Leave(View(), {c});
        clients := clients - {c};
        pending := KeptEntries(pending, {c});
        gone, status := goal.gone, goal.status;
      }
    }

    method RemoveAll(cs: set<ClientId>)
      requires Shape(View())
      modifies this`clients, this`pending, this`gone, this`status
      ensures View() == Leave(old(View()), cs)
    {
      hide Shape, PurgeStep;
      ghost var goal := Leave(View(), cs);
      LeaveIs(View(), cs);
      var left := cs;
      while left != {}
        invariant left <= cs
        invariant clients == old(clients) - (cs - left) && pending == KeptEntries(old(pending), cs - left)
      {
        hide KeptEntries;
        var id :| id in left;
        clients := clients - {id};
        KeptTwice(old(pending), cs - left, {id});
        pending := KeptEntries(pending, {id});
        assert cs - left + {id} == cs - (left - {id});
        left := left - {id};
      }
      assert cs - {} == cs;
      gone, status := goal.gone, goal.status;
    }

    /** Hand the answer to id `n` over, if its client is there and its channel takes it. */
    method HandOver(n: nat, c: ClientId, msg: RawMessage, now: nat)
      requires Shape(View()) && 1 <= n <= |status| && status[n - 1] == InFlight(msg) && sent[n - 1].client == c
      modifies this`pending, this`clients, this`chans, this`gone, this`status, this`delivered, this`clock
      ensures View() == DeliverOp(old(View()), n, now)
    {
      hide FateOf, AfterAttempt, DeliverOp, PurgeStep;
      DeliverOpIs(View(), n, now);
      ghost var u := DeliverStep(View(), n, now);
      if c in clients {
        var client, ch, keep := Offer(clients[c], chans[c], Message(msg), now);
        if keep {
          assert ch == chans[c] ==> chans[c := ch] == chans;
          clients, chans := clients[c := client], chans[c := ch];
          status, delivered := u.status, u.delivered;
        } else {
          status := status[n - 1 := Dropped];
          clock := now;
          RemoveClientLocked(c);
        }
      } else {
        status := u.status;
      }
      clock := now;
    }

    /** Give a response of the child to the client it answers, under the client's id. */
    method RouteResponse(msg: RawMessage, now: nat)
      requires Valid() && clock <= now
      modifies this`pending, this`clients, this`chans, this`gone, this`status, this`delivered, this`clock
      ensures View() == AnswerOp(old(View()), msg, now)
    {
      hide Reached, Tabled, Logged, Routed, Pressured, DeliverOp;
      if msg.id.None? {
        return;
      }
      var parsed := ParseU64(msg.id.value);
      if parsed.None? || parsed.value !in pending {
        return;
      }
      var n := parsed.value;
      var route := pending[n];
      UnmangleIs(View(), msg);
      ghost var t := UnmangleStep(View(), msg);
      pending := pending - {n};
      status := t.status;
      HandOver(n, route.client, msg.(id := Some(route.original)), now);
    }

    /** Give a request or notification of the child to all clients, or keep it for the
        first one. */
    method BroadcastMessage(msg: RawMessage, now: nat)
      requires Shape(View())
      modifies this
      ensures View() == BroadcastOp(old(View()), msg, now)
    {
      hide ClientsAfter, ChansAfter;
      ghost var t := BroadcastStep(View(), msg, now);
      clock := now;
      if early.Some? && clients == map[] {
        if |early.value| < EARLY_BUFFER_CAP {
          early := Some(early.value + [msg]);
        }
        PurgeNobody(View());
      } else {
        var offered, after, toRemove := OfferAll(clients, chans, Message(msg), now);
        assert clients.Keys - (offered - toRemove).Keys == toRemove;
        clients, chans := offered, after;
        RemoveAll(toRemove);
      }
    }

    method RouteMessage(msg: RawMessage, now: nat)
      requires Valid() && clock <= now
      modifies this
      ensures Valid() && View() == RouteOp(old(View()), msg, now)
    {
      hide Reached, Inv, AnswerOp, BroadcastOp;
      RouteReached(View(), msg, now);
      ReachedInv(View());
      ReachedInv(RouteOp(View(), msg, now));
      if msg.IsResponse() {
        RouteResponse(msg, now);
      } else {
        BroadcastMessage(msg, now);
      }
    }

    /** `id` is the random id drawn for the client. */
    method HandleWsConnect(id: ClientId) returns (r: Result<ClientId, ConnectError>)
      requires Valid() && id !in chans
      modifies this`clients, this`chans, this`early
      ensures Valid()
      ensures r == if |old(clients)| >= MAX_WS_CLIENTS then Err(TooManyConnections) else Ok(id)
      ensures View() == if r.Ok? then ConnectStep(old(View()), id) else old(View())
    {
      hide Reached, Inv, SendEarly;
      if |clients| >= MAX_WS_CLIENTS {
        return Err(TooManyConnections);
      }
      ReachedInv(View());
      ReachedNext(View(), Connect(id));
      ReachedInv(ConnectStep(View(), id));
      var ch := NewChan();
      if early.Some? {
        ch := DrainEarly(ch, early.value);
        early := None;
      }
      SendNothing(ch);
      chans := chans[id := ch];
      clients := clients[id := FRESH_CLIENT];
      r := Ok(id);
    }

    method DisconnectClient(c: ClientId) returns (removed: bool)
      requires Valid()
      modifies this`clients, this`pending, this`gone, this`status
      ensures removed <==> c in old(clients)
      ensures Valid() && View() == if removed then Leave(old(View()), {c}) else old(View())
    {
      hide Reached, Inv, Leave;
      ReachedInv(View());
      removed := c in clients;
      if removed {
        LeaveReached(View(), c);
        ReachedInv(Leave(View(), {c}));
      }
      RemoveClientLocked(c);
    }

    method CloseAllClients(code: nat, reason: string)
      requires Valid()
      modifies this`clients, this`chans, this`pending, this`gone, this`status
      ensures Valid() && clients == map[] && View() == CloseAllOp(old(View()), code, reason)
    {
      hide Reached, Inv, ChansAfter;
      ReachedInv(View());
      CloseAllReached(View(), code, reason);
      ReachedInv(CloseAllOp(View(), code, reason));
      var ids := clients.Keys;
      var after := CloseFrames(clients, chans, Close(code, reason));
      chans := after;
      RemoveAll(ids);
      assert clients == map[];
    }
  }

  /** The early messages, in order, as far as there is room. */
  method DrainEarly(start: Chan<Event>, buffer: seq<RawMessage>) returns (ch: Chan<Event>)
    ensures ch == SendEarly(start, buffer)
  {
    ch := start;
    var i := 0;
    while i < |buffer|
      invariant i <= |buffer| && SendEarly(ch, buffer[i..]) == SendEarly(start, buffer)
    {
      assert buffer[i..][0] == buffer[i] && buffer[i..][1..] == buffer[i + 1..];
      ch := TrySend(ch, Message(buffer[i]), CLIENT_CHANNEL_CAP);
      i := i + 1;
    }
  }

  /** A close frame for every client, whether its channel takes it or not. */
  method CloseFrames(clients: map<ClientId, Client>, chans: map<ClientId, Chan<Event>>, e: Event)
    returns (after: map<ClientId, Chan<Event>>)
    requires clients.Keys <= chans.Keys
    ensures after == ChansAfter(clients, chans, e)
  {
    hide TrySend;
    after := chans;
    var ids := clients.Keys;
    while ids != {}
      invariant ids <= clients.Keys && after.Keys == chans.Keys
      invariant forall c :: c in chans ==>
        after[c] == if c in clients && c !in ids then TrySend(chans[c], e, CLIENT_CHANNEL_CAP) else chans[c]
    {
      var id :| id in ids;
      after := after[id := TrySend(after[id], e, CLIENT_CHANNEL_CAP)];
      ids := ids - {id};
    }
  }
}
