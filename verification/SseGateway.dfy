/** The SSE gateway as the object it is: what it holds behind its mutex, and the child's
    relay, connections and disconnections as methods. */
module SseGateways {
  import opened Wrappers
  import opened Channels
  import opened SseWire
  import opened SseBroadcast

  const MAX_SSE_CLIENTS: nat := 1024

  datatype ConnectError = TooManyConnections

  class SseGateway {
    var clients: map<SessionId, Client>
    var chans: map<SessionId, Chan<ServerEvent>>
    var early: Option<seq<string>>
    var counter: nat
    ghost var output: seq<string>
    ghost var source: seq<nat>
    ghost var first: Option<SessionId>
    ghost var before: nat
    ghost var clock: nat

    ghost function View(): State
      reads this
    {
      State(clients, chans, early, counter, output, source, first, before, clock)
    }

    ghost predicate Valid()
      reads this
    {
      clients.Keys <= chans.Keys
    }

    constructor ()
      ensures View() == INIT
    {
      clients, chans, early, counter := map[], map[], Some([]), 0;
      output, source, first, before, clock := [], [], None, 0, 0;
    }

    method RelayMessage(json: string, now: nat)
      requires Valid() && clock <= now
      modifies this
      ensures Valid() && View() == RelayStep(old(View()), json, now)
    {
      if early.Some? && clients == map[] {
        if |early.value| < EARLY_BUFFER_CAP {
          early := Some(early.value + [json]);
        }
      } else {
        BroadcastLocked(json, now);
        source := source + [|output|];
      }
      output, clock := output + [json], now;
    }

    /** Offer the next event to every client; drop those that are gone or timed out. */
    method BroadcastLocked(json: string, now: nat)
      requires Valid()
      modifies this`clients, this`chans, this`counter
      ensures Valid() && counter == old(counter) + 1
      ensures clients == ClientsAfter(old(clients), old(chans), now)
      ensures chans == ChansAfter(old(clients), old(chans), Message(json, counter))
    {
      counter := counter + 1;
      var offered, after, toRemove := OfferAll(clients, chans, Message(json, counter), now);
      clients, chans := offered - toRemove, after;
    }

    /** `id` is the random id drawn for the session. */
    method HandleSseConnect(id: SessionId, url: string) returns (r: Result<SessionId, ConnectError>)
      requires Valid() && id !in chans
      modifies this
      ensures r == if |old(clients)| >= MAX_SSE_CLIENTS then Err(TooManyConnections) else Ok(id)
      ensures r.Err? ==> View() == old(View())
      ensures r.Ok? ==> Valid() && View() == ConnectStep(old(View()), id, url)
    {
      hide SendEarly, TrySend;
      if |clients| >= MAX_SSE_CLIENTS {
        return Err(TooManyConnections);
      }
      var ch := TrySend(NewChan(), Endpoint(url), CLIENT_CHANNEL_CAP);
      if early.Some? {
        var buffer := early.value;
        early := None;
        ch, counter := DrainEarly(ch, counter, buffer);
        source := source + seq(|buffer|, i => i);
        first, before := Some(id), |output|;
      }
      chans := chans[id := ch];
      clients := clients[id := FRESH_CLIENT];
      r := Ok(id);
    }

    method DisconnectClient(id: SessionId) returns (removed: bool)
      requires Valid()
      modifies this`clients
      ensures removed <==> id in old(clients)
      ensures Valid() && View() == Apply(old(View()), Disconnect(id))
    {
      removed := id in clients;
      clients := clients - {id};
    }
  }

  /** The early messages go into the channel in order, numbered on from `start`. */
  method DrainEarly(first: Chan<ServerEvent>, start: nat, buffer: seq<string>)
    returns (ch: Chan<ServerEvent>, counter: nat)
    ensures ch == SendEarly(first, start, buffer) && counter == start + |buffer|
  {
    ch, counter := first, start;
    var i := 0;
    assert buffer[0..] == buffer;
    while i < |buffer|
      invariant i <= |buffer| && counter == start + i
      invariant SendEarly(ch, counter, buffer[i..]) == SendEarly(first, start, buffer)
    {
      assert buffer[i..][0] == buffer[i] && buffer[i..][1..] == buffer[i + 1..];
      counter := counter + 1;
      ch := TrySend(ch, Message(buffer[i], counter), CLIENT_CHANNEL_CAP);
      i := i + 1;
    }
  }
}
