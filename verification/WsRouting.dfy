/** The WebSocket gateway as a step system: many clients share one child through rewritten
    request ids. Every step is one atomic access or one section under one lock. */
module WsRouting {
  import opened Wrappers
  import opened Decimal
  import opened JsonRpc
  import opened Channels

  type ClientId = string

  /** Who sent an id-bearing message, and under which raw id. */
  datatype Route = Route(client: ClientId, original: string)

  datatype Event = Message(msg: RawMessage) | Close(code: nat, reason: string)

  /** What has become of an allocated id. */
  datatype Status =
    | Inserting                  // allocated, not in the table yet
    | Pending                    // in the table
    | InFlight(msg: RawMessage)  // answered and taken out, answer not handed over yet
    | Delivered
    | Dropped                    // answered, but its client was gone or full
    | Purged                     // taken out with its client

  datatype Delivery = Delivery(mangled: nat, client: ClientId, msg: RawMessage)

  datatype State = State(
    nextId: nat,
    pending: map<nat, Route>,
    clients: map<ClientId, Client>,
    chans: map<ClientId, Chan<Event>>,
    early: Option<seq<RawMessage>>,
    gone: set<ClientId>,          // history: clients taken out of the registry
    sent: seq<Route>,             // history: the id-bearing messages; id n belongs to entry n - 1
    status: seq<Status>,          // history: what became of each of them
    delivered: seq<Delivery>,     // history: answers put into client channels
    clock: nat)

  datatype Step =
    | Allocate(client: ClientId, original: string)
    | Insert(mangled: nat)
    | Unmangle(msg: RawMessage)
    | Deliver(mangled: nat, now: nat)
    | Broadcast(msg: RawMessage, now: nat)
    | Connect(client: ClientId)
    | Disconnect(client: ClientId)
    | Purge(client: ClientId)
    | CloseAll(code: nat, reason: string)
    | Receiving(client: ClientId)
    | HangUp(client: ClientId)

  const INIT: State := State(1, map[], map[], map[], Some([]), {}, [], [], [], 0)

  const EARLY_BUFFER_CAP: nat := 256

  /** What every state has by construction. */
  ghost predicate Shape(s: State) {
    && s.nextId == |s.sent| + 1 == |s.status| + 1
    && s.clients.Keys <= s.chans.Keys
  }

  /** Only responses are unmangled and only other messages broadcast; a purge follows the
      removal of its client; client ids are not reused; time does not go back. */
  predicate Enabled(s: State, step: Step) {
    match step
    case Insert(n) => 1 <= n <= |s.status| && s.status[n - 1].Inserting?
    case Unmangle(msg) => msg.IsResponse()
    case Deliver(n, now) => 1 <= n <= |s.status| && s.status[n - 1].InFlight? && s.clock <= now
    case Broadcast(msg, now) => !msg.IsResponse() && s.clock <= now
    case Connect(c) => c !in s.chans
    case Purge(c) => c in s.gone
    case Receiving(c) => c in s.chans
    case HangUp(c) => c in s.chans
    case _ => true
  }

  function AllocateStep(s: State, c: ClientId, original: string): State {
    s.(nextId := s.nextId + 1, sent := s.sent + [Route(c, original)], status := s.status + [Inserting])
  }

  function InsertStep(s: State, n: nat): State
    requires 1 <= n <= |s.sent| && |s.status| == |s.sent|
  {
    s.(pending := s.pending[n := s.sent[n - 1]], status := s.status[n - 1 := Pending])
  }

  /** The entry a response from the child answers, if any. */
  function Answered(s: State, msg: RawMessage): Option<nat> {
    match msg.id
    case None => None
    case Some(raw) =>
      match ParseU64(raw)
      case Some(n) => if n in s.pending then Some(n) else None
      case None => None
  }

  function UnmangleStep(s: State, msg: RawMessage): State {
    match Answered(s, msg)
    case None => s
    case Some(n) =>
      var restored := msg.(id := Some(s.pending[n].original));
      s.(pending := s.pending - {n},
         status := if 1 <= n <= |s.status| then s.status[n - 1 := InFlight(restored)] else s.status)
  }

  function DeliverStep(s: State, n: nat, now: nat): (t: State)
    requires Shape(s) && 1 <= n <= |s.status| && s.status[n - 1].InFlight?
    ensures Shape(t)
  {
    var c, msg := s.sent[n - 1].client, s.status[n - 1].msg;
    var dropped := s.(status := s.status[n - 1 := Dropped], clock := now);
    if c !in s.clients then dropped
    else
      var result := TrySendResult(s.chans[c], CLIENT_CHANNEL_CAP);
      if !FateOf(s.clients[c], result, now).Keep? then
        dropped.(clients := s.clients - {c}, gone := s.gone + {c})
      else
        var noted := dropped.(clients := s.clients[c := AfterAttempt(s.clients[c], result, now)]);
        if !result.Sent? then noted
        else noted.(chans := s.chans[c := TrySend(s.chans[c], Message(msg), CLIENT_CHANNEL_CAP)],
                    status := s.status[n - 1 := Delivered],
                    delivered := s.delivered + [Delivery(n, c, msg)])
  }

  function BroadcastStep(s: State, msg: RawMessage, now: nat): State
    requires s.clients.Keys <= s.chans.Keys
  {
    var t := s.(clock := now);
    if s.early.Some? && s.clients == map[] then
      if |s.early.value| < EARLY_BUFFER_CAP then t.(early := Some(s.early.value + [msg])) else t
    else
      var clients := ClientsAfter(s.clients, s.chans, now);
      t.(clients := clients,
         chans := ChansAfter(s.clients, s.chans, Message(msg)),
         gone := s.gone + (s.clients.Keys - clients.Keys))
  }

  function SendEarly(ch: Chan<Event>, buffer: seq<RawMessage>): Chan<Event>
    decreases |buffer|
  {
    if buffer == [] then ch
    else SendEarly(TrySend(ch, Message(buffer[0]), CLIENT_CHANNEL_CAP), buffer[1..])
  }

  function ConnectStep(s: State, c: ClientId): State {
    var buffer := match s.early case Some(msgs) => msgs case None => [];
    s.(clients := s.clients[c := FRESH_CLIENT],
       chans := s.chans[c := SendEarly(NewChan(), buffer)],
       early := None)
  }

  function DisconnectStep(s: State, c: ClientId): State {
    if c in s.clients then s.(clients := s.clients - {c}, gone := s.gone + {c}) else s
  }

  function KeptEntries(pending: map<nat, Route>, cs: set<ClientId>): map<nat, Route> {
    map n | n in pending && pending[n].client !in cs :: pending[n]
  }

  /** Drop every table entry of the clients `cs`. */
  function PurgeStep(s: State, cs: set<ClientId>): State
    requires |s.sent| == |s.status|
  {
    s.(pending := KeptEntries(s.pending, cs),
       status := seq(|s.status|, i requires 0 <= i < |s.status| =>
         if s.status[i].Pending? && s.sent[i].client in cs then Purged else s.status[i]))
  }

  function CloseAllStep(s: State, code: nat, reason: string): State {
    s.(clients := map[],
       chans := ChansAfter(s.clients, s.chans, Close(code, reason)),
       gone := s.gone + s.clients.Keys)
  }

  function Apply(s: State, step: Step): State
    requires Shape(s) && Enabled(s, step)
  {
    match step
    case Allocate(c, original) => AllocateStep(s, c, original)
    case Insert(n) => InsertStep(s, n)
    case Unmangle(msg) => UnmangleStep(s, msg)
    case Deliver(n, now) => DeliverStep(s, n, now)
    case Broadcast(msg, now) => BroadcastStep(s, msg, now)
    case Connect(c) => ConnectStep(s, c)
    case Disconnect(c) => DisconnectStep(s, c)
    case Purge(c) => PurgeStep(s, {c})
    case CloseAll(code, reason) => CloseAllStep(s, code, reason)
    case Receiving(c) => s.(chans := s.chans[c := Receive(s.chans[c])])
    case HangUp(c) => s.(chans := s.chans[c := s.chans[c].(open := false)])
  }

  lemma ShapeKept(s: State, step: Step)
    requires Shape(s) && Enabled(s, step)
    ensures Shape(Apply(s, step))
  {
  }

  function Run(s: State, steps: seq<Step>): Option<State>
    requires Shape(s)
    decreases |steps|
  {
    if steps == [] then Some(s)
    else if !Enabled(s, steps[0]) then None
    else ShapeKept(s, steps[0]); Run(Apply(s, steps[0]), steps[1..])
  }
}
