/** Bounded client channels and the backpressure rule that the SSE and the WebSocket
    gateway share. */
module Channels {
  import opened Wrappers

  /** A bounded FIFO channel with everything ever put into it: the first `taken` elements
      have been received, the others are waiting. */
  datatype Chan<E> = Chan(sent: seq<E>, taken: nat, open: bool)
  {
    ghost predicate Valid() {
      taken <= |sent|
    }

    function Waiting(): int {
      |sent| - taken
    }
  }

  function NewChan<E>(): Chan<E> {
    Chan([], 0, true)
  }

  datatype SendResult = Sent | Full | Disconnected

  function TrySendResult<E>(ch: Chan<E>, cap: nat): SendResult {
    if !ch.open then Disconnected else if ch.Waiting() >= cap then Full else Sent
  }

  function TrySend<E>(ch: Chan<E>, e: E, cap: nat): Chan<E> {
    if TrySendResult(ch, cap).Sent? then ch.(sent := ch.sent + [e]) else ch
  }

  function Receive<E>(ch: Chan<E>): Chan<E> {
    if ch.taken < |ch.sent| then ch.(taken := ch.taken + 1) else ch
  }

  // ── Backpressure ──────────────────────────────────────────────────────

  const CLIENT_CHANNEL_CAP: nat := 256
  const BACKPRESSURE_TIMEOUT: nat := 30_000 // milliseconds

  /** One attempt to send to a client: when, and whether the channel was found full. */
  datatype Attempt = Attempt(at: nat, full: bool)

  /** A registered client; `log` is its history of attempts since it was registered. */
  datatype Client = Client(since: Option<nat>, log: seq<Attempt>)

  const FRESH_CLIENT: Client := Client(None, [])

  datatype Fate = Keep | TimedOut | Gone

  /** What an attempt at time `now` does to the client. */
  function FateOf(c: Client, result: SendResult, now: nat): Fate {
    match result
    case Sent => Keep
    case Disconnected => Gone
    case Full =>
      if c.since.Some? && now - c.since.value >= BACKPRESSURE_TIMEOUT then TimedOut else Keep
  }

  function AfterAttempt(c: Client, result: SendResult, now: nat): Client {
    match result
    case Sent => Client(None, c.log + [Attempt(now, false)])
    case Disconnected => c
    case Full => Client(if c.since.Some? then c.since else Some(now), c.log + [Attempt(now, true)])
  }

  /** The registered clients after one event was offered to each of them: those that timed
      out or are gone are no longer registered. */
  function ClientsAfter<E>(clients: map<string, Client>, chans: map<string, Chan<E>>, now: nat)
    : (kept: map<string, Client>)
    requires clients.Keys <= chans.Keys
    ensures kept.Keys <= clients.Keys
  {
    map c | c in clients && FateOf(clients[c], TrySendResult(chans[c], CLIENT_CHANNEL_CAP), now).Keep?
      :: AfterAttempt(clients[c], TrySendResult(chans[c], CLIENT_CHANNEL_CAP), now)
  }

  function ChansAfter<E>(clients: map<string, Client>, chans: map<string, Chan<E>>, e: E)
    : (after: map<string, Chan<E>>)
    ensures after.Keys == chans.Keys
  {
    map c | c in chans :: if c in clients then TrySend(chans[c], e, CLIENT_CHANNEL_CAP) else chans[c]
  }

  /** One attempt to hand `e` to a client, as both gateways make it. */
  method Offer<E>(client: Client, ch: Chan<E>, e: E, now: nat) returns (c: Client, after: Chan<E>, keep: bool)
    ensures after == TrySend(ch, e, CLIENT_CHANNEL_CAP)
    ensures c == AfterAttempt(client, TrySendResult(ch, CLIENT_CHANNEL_CAP), now)
    ensures keep <==> FateOf(client, TrySendResult(ch, CLIENT_CHANNEL_CAP), now).Keep?
  {
    c, after, keep := client, ch, true;
    match TrySendResult(ch, CLIENT_CHANNEL_CAP) {
      case Sent =>
        after := ch.(sent := ch.sent + [e]);
        c := Client(None, client.log + [Attempt(now, false)]);
      case Full =>
        if client.since.Some? {
          if now - client.since.value >= BACKPRESSURE_TIMEOUT {
            keep := false;
          }
        } else {
          c := c.(since := Some(now));
        }
        c := c.(log := client.log + [Attempt(now, true)]);
      case Disconnected =>
        keep := false;
    }
  }

  /** The loop over all clients; `toRemove` collects those that are to be dropped. */
  method OfferAll<E>(clients: map<string, Client>, chans: map<string, Chan<E>>, e: E, now: nat)
    returns (offered: map<string, Client>, after: map<string, Chan<E>>, toRemove: set<string>)
    requires clients.Keys <= chans.Keys
    ensures offered.Keys == clients.Keys && toRemove <= clients.Keys
    ensures offered - toRemove == ClientsAfter(clients, chans, now)
    ensures after == ChansAfter(clients, chans, e)
  {
    hide FateOf, AfterAttempt, TrySendResult, TrySend;
    offered, after, toRemove := clients, chans, {};
    var ids := clients.Keys;
    while ids != {}
      invariant ids <= clients.Keys == offered.Keys && after.Keys == chans.Keys
      invariant toRemove <= clients.Keys - ids
      invariant forall c :: c in ids ==> offered[c] == clients[c]
      invariant forall c :: c in chans ==>
        after[c] == if c in clients && c !in ids then TrySend(chans[c], e, CLIENT_CHANNEL_CAP) else chans[c]
      invariant forall c :: c in clients && c !in ids ==>
        var result := TrySendResult(chans[c], CLIENT_CHANNEL_CAP);
        && offered[c] == AfterAttempt(clients[c], result, now)
        && (c in toRemove <==> !FateOf(clients[c], result, now).Keep?)
    {
      var id :| id in ids;
      var client, ch, keep := Offer(clients[id], chans[id], e, now);
      offered, after := offered[id := client], after[id := ch];
      if !keep {
        toRemove := toRemove + {id};
      }
      ids := ids - {id};
    }
  }

  // ── Runs of attempts ──────────────────────────────────────────────────

  /** Start of the full attempts that end the log. */
  function FullFrom(log: seq<Attempt>): (i: nat)
    ensures i <= |log|
    ensures forall k :: i <= k < |log| ==> log[k].full
    ensures i > 0 ==> !log[i - 1].full
  {
    if log == [] || !log[|log| - 1].full then |log|
    else
      var i := FullFrom(log[..|log| - 1]);
      assert forall k :: 0 <= k < |log| - 1 ==> log[..|log| - 1][k] == log[k];
      i
  }

  ghost predicate Timed(log: seq<Attempt>, now: nat) {
    && (forall i, j :: 0 <= i < j < |log| ==> log[i].at <= log[j].at)
    && (forall i :: 0 <= i < |log| ==> log[i].at <= now)
  }

  /** The recorded start of the backpressure is the first of the full attempts that end
      the log. */
  ghost predicate Faithful(c: Client, now: nat) {
    && Timed(c.log, now)
    && c.since == if FullFrom(c.log) == |c.log| then None else Some(c.log[FullFrom(c.log)].at)
  }

  lemma FullFromIs(log: seq<Attempt>, i: nat)
    requires i <= |log| && (forall k :: i <= k < |log| ==> log[k].full) && (i > 0 ==> !log[i - 1].full)
    ensures FullFrom(log) == i
  {
    var j := FullFrom(log);
    var beforeI, beforeJ := i - 1, j - 1;
    assert i > 0 ==> !log[beforeI].full;
    assert j > 0 ==> !log[beforeJ].full;
  }

  lemma FreshIsFaithful(now: nat)
    ensures Faithful(FRESH_CLIENT, now)
  {
    FullFromIs([], 0);
  }

  lemma {:induction false} AttemptFaithful(c: Client, result: SendResult, before: nat, now: nat)
    requires Faithful(c, before) && before <= now
    ensures Faithful(AfterAttempt(c, result, now), now)
  {
    var d := AfterAttempt(c, result, now);
    var i := FullFrom(c.log);
    match result
    case Sent => FullFromIs(d.log, |d.log|);
    case Disconnected =>
    case Full => FullFromIs(d.log, i);
  }

  /** There is a full attempt at least the timeout before `now` since which every attempt
      found the channel full. */
  ghost predicate Starved(log: seq<Attempt>, now: nat) {
    exists i :: 0 <= i < |log| && log[i].at + BACKPRESSURE_TIMEOUT <= now
      && forall k :: i <= k < |log| ==> log[k].full
  }

  /** A client is evicted for backpressure exactly when this attempt found its channel full
      and so did every attempt since one made at least the timeout before. */
  lemma {:induction false} EvictionIff(c: Client, result: SendResult, before: nat, now: nat)
    requires Faithful(c, before) && before <= now
    ensures FateOf(c, result, now).TimedOut? <==> result.Full? && Starved(c.log, now)
  {
    var i := FullFrom(c.log);
    if result.Full? && FateOf(c, result, now).TimedOut? {
      assert c.log[i].at + BACKPRESSURE_TIMEOUT <= now;
    }
    if Starved(c.log, now) {
      var j :| 0 <= j < |c.log| && c.log[j].at + BACKPRESSURE_TIMEOUT <= now
        && forall k :: j <= k < |c.log| ==> c.log[k].full;
      var beforeI := i - 1;
      assert i > 0 ==> !c.log[beforeI].full;
      assert i < j ==> c.log[i].at <= c.log[j].at;
    }
  }

  /** One send that got through in the last thirty seconds rules an eviction out. */
  lemma {:induction false} OneSendPrevents(c: Client, result: SendResult, before: nat, now: nat, k: nat)
    requires Faithful(c, before) && before <= now
    requires k < |c.log| && !c.log[k].full && c.log[k].at + BACKPRESSURE_TIMEOUT > now
    ensures !FateOf(c, result, now).TimedOut?
  {
    EvictionIff(c, result, before, now);
    forall j | 0 <= j < |c.log| && c.log[j].at + BACKPRESSURE_TIMEOUT <= now
      ensures exists i :: j <= i < |c.log| && !c.log[i].full
    {
      var at, bound := c.log[k].at, c.log[j].at;
      assert at > bound;
      assert !c.log[k].full;
    }
  }
}
