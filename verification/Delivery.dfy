/** What a message is and what an offer to clients puts into their channels, said without
    the functions that the gateways decide it by. */
module Delivery {
  import opened Channels
  import opened JsonRpc

  /** A result or an error under an id. */
  predicate Responds(msg: RawMessage) {
    msg.id.Some? && msg.methodName.None? && (msg.result.Some? || msg.error.Some?)
  }

  /** Something that is to be answered. */
  predicate Asks(msg: RawMessage) {
    msg.id.Some? && msg.methodName.Some?
  }

  /** The receiver is there and fewer than 256 elements wait. */
  predicate HasRoom<E>(ch: Chan<E>) {
    ch.open && |ch.sent| - ch.taken < 256
  }

  /** Of the events offered at these attempts, those that found room. */
  function Through<E>(events: seq<E>, log: seq<Attempt>): seq<E>
    requires |events| == |log|
  {
    if events == [] then []
    else
      var n := |events| - 1;
      Through(events[..n], log[..n]) + if log[n].full then [] else [events[n]]
  }

  lemma ThroughNone<E>()
    ensures Through<E>([], []) == []
  {
  }

  lemma ThroughLast<E>(events: seq<E>, log: seq<Attempt>, e: E, attempt: Attempt)
    requires |events| == |log|
    ensures Through(events + [e], log + [attempt]) == Through(events, log) + if attempt.full then [] else [e]
  {
    assert (events + [e])[..|events|] == events && (log + [attempt])[..|log|] == log;
  }

  lemma {:induction false} ThroughConcat<E>(a: seq<E>, b: seq<E>, la: seq<Attempt>, lb: seq<Attempt>)
    requires |a| == |la| && |b| == |lb|
    ensures Through(a + b, la + lb) == Through(a, la) + Through(b, lb)
  {
    hide Through;
    if b == [] {
      assert a + b == a && la + lb == la;
      ThroughNone<E>();
    } else {
      var n := |b| - 1;
      assert b == b[..n] + [b[n]] && lb == lb[..n] + [lb[n]];
      assert a + b == a + b[..n] + [b[n]] && la + lb == la + lb[..n] + [lb[n]];
      ThroughLast(a + b[..n], la + lb[..n], b[n], lb[n]);
      ThroughLast(b[..n], lb[..n], b[n], lb[n]);
      ThroughConcat(a, b[..n], la, lb[..n]);
    }
  }

  lemma ThroughOne<E>(e: E, attempt: Attempt)
    ensures Through([e], [attempt]) == if attempt.full then [] else [e]
  {
    assert [e][..0] == [] && [attempt][..0] == [];
  }

  lemma OfferReaches<E>(clients: map<string, Client>, chans: map<string, Chan<E>>, e: E, c: string)
    requires c in chans
    ensures ChansAfter(clients, chans, e)[c]
            == if c in clients && HasRoom(chans[c]) then chans[c].(sent := chans[c].sent + [e]) else chans[c]
  {
  }

  /** The attempt is in the log of everyone that stays, with what it found. */
  lemma OfferIsLogged<E>(clients: map<string, Client>, chans: map<string, Chan<E>>, now: nat, c: string)
    requires clients.Keys <= chans.Keys && c in ClientsAfter(clients, chans, now)
    ensures c in clients && chans[c].open
    ensures ClientsAfter(clients, chans, now)[c].log == clients[c].log + [Attempt(now, !HasRoom(chans[c]))]
  {
  }
}
