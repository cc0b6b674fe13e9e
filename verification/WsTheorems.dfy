/** Where the answers of the shared child go, over all runs. */
module WsTheorems {
  import opened Wrappers
  import opened Seqs
  import opened Decimal
  import opened JsonRpc
  import opened Channels
  import opened WsRouting
  import opened WsProofs
  import opened WsHistory

  // ── Routing ───────────────────────────────────────────────────────────

  lemma {:induction false} ForPicks(ds: seq<Delivery>, c: ClientId) returns (at: seq<nat>)
    ensures PickedAt(For(ds, c), ds, at)
    ensures forall k :: 0 <= k < |at| ==> ds[at[k]].client == c
  {
    if ds == [] {
      at := [];
    } else {
      var n := |ds| - 1;
      at := ForPicks(ds[..n], c);
      if ds[n].client == c {
        at := at + [n];
      }
    }
  }

  /** Every response in a client's channel answers an id-bearing message that this client
      sent before, under the id it sent, and no message is answered twice. It is the
      child's own response to the id that message was given (message `i` has id `i + 1`),
      with only the id put back. */
  lemma ResponsesAnswerTheirClient(steps: seq<Step>, c: ClientId)
    returns (answered: seq<nat>, from: seq<nat>)
    requires Run(INIT, steps).Some? && c in Run(INIT, steps).value.chans
    ensures var s := Run(INIT, steps).value;
      var responses := Responses(s.chans[c].sent);
      var answers := RecordAll(NOTHING, steps).answers;
      && |answered| == |from| == |responses| && Distinct(answered) && Distinct(from)
      && (forall k :: 0 <= k < |answered| ==>
            && answered[k] < |s.sent| && s.sent[answered[k]].client == c
            && from[k] < |answers|
            && Restores(answers[from[k]], answered[k] + 1, s.sent[answered[k]].original, responses[k]))
  {
    hide Run, RecordAll, Responses, For, Tabled, Pressured, Noticed, EarlyKept, Restores;
    Tells(steps);
    var s, answers := Run(INIT, steps).value, RecordAll(NOTHING, steps).answers;
    var at := ForPicks(s.delivered, c);
    answered := seq(|at|, k requires 0 <= k < |at| => AnsweredBy(s, at[k]));
    from := [];
    forall k | 0 <= k < |at|
      ensures GoodDelivery(s, s.delivered[at[k]]) && answered[k] + 1 == Mangleds(s.delivered)[at[k]]
    {
    }
    assert Distinct(answered);
    while |from| < |at|
      invariant |from| <= |at|
      invariant forall k :: 0 <= k < |from| ==>
        && from[k] < |answers|
        && Restores(answers[from[k]], answered[k] + 1, s.sent[answered[k]].original, s.delivered[at[k]].msg)
    {
      var d := s.delivered[at[|from|]];
      assert FromChild(answers, d.mangled, s.sent[d.mangled - 1].original, d.msg);
      var p :| 0 <= p < |answers| && Restores(answers[p], d.mangled, s.sent[d.mangled - 1].original, d.msg);
      from := from + [p];
    }
    OnePlaceEach(answers, s, answered, from, Messages(For(s.delivered, c)));
  }

  /** Responses to different ids stand at different places. */
  lemma OnePlaceEach(answers: seq<RawMessage>, s: State, answered: seq<nat>, from: seq<nat>, msgs: seq<RawMessage>)
    requires |answered| == |from| == |msgs| && Distinct(answered)
    requires forall k :: 0 <= k < |from| ==>
      && answered[k] < |s.sent| && from[k] < |answers|
      && Restores(answers[from[k]], answered[k] + 1, s.sent[answered[k]].original, msgs[k])
    ensures Distinct(from)
  {
    hide ParseU64;
  }

  function AnsweredBy(s: State, k: nat): nat {
    if k < |s.delivered| && s.delivered[k].mangled > 0 then s.delivered[k].mangled - 1 else 0
  }

  /** Each allocated id is in the table, under the client and the id it was allocated for,
      exactly while it is pending; it is purged only with its client; it is delivered
      exactly when one delivery, and only one, carries it. */
  lemma EveryIdAccounted(steps: seq<Step>, n: nat)
    requires Run(INIT, steps).Some?
    ensures var s := Run(INIT, steps).value;
      && |s.status| == |s.sent|
      && (n in s.pending <==> 1 <= n <= |s.sent| && s.status[n - 1].Pending?)
      && (n in s.pending ==> s.pending[n] == s.sent[n - 1])
      && (1 <= n <= |s.sent| && s.status[n - 1].Purged? ==> s.sent[n - 1].client in s.gone)
      && (1 <= n <= |s.sent| && s.status[n - 1].Delivered? <==> n in Mangleds(s.delivered))
      && Distinct(Mangleds(s.delivered))
  {
    hide Run, Routed, Pressured;
    Reachable(steps);
    var s := Run(INIT, steps).value;
    if n in Mangleds(s.delivered) {
      var k :| 0 <= k < |s.delivered| && Mangleds(s.delivered)[k] == n;
      assert GoodDelivery(s, s.delivered[k]);
    } else if 1 <= n <= |s.sent| {
      assert s.status[n - 1].Delivered? ==> n - 1 + 1 in Mangleds(s.delivered);
    }
  }

  // ── An id is used up once ─────────────────────────────────────────────

  function Stage(st: Status): nat {
    match st
    case Inserting => 0
    case Pending => 1
    case InFlight(_) => 2
    case _ => 3
  }

  /** What became of an id may only advance, and what has ended stays as it ended. */
  ghost predicate Advanced(s: State, t: State) {
    && s.sent <= t.sent && |s.status| <= |t.status|
    && forall i :: 0 <= i < |s.status| ==>
         && Stage(s.status[i]) <= Stage(t.status[i])
         && (Stage(s.status[i]) == Stage(t.status[i]) ==> s.status[i] == t.status[i])
  }

  lemma UpdateAdvances(s: State, t: State, n: nat, st: Status)
    requires s.sent == t.sent && 1 <= n <= |s.status| && t.status == s.status[n - 1 := st]
    requires Stage(s.status[n - 1]) < Stage(st)
    ensures Advanced(s, t)
  {
  }

  lemma DeliverAdvances(s: State, n: nat, now: nat)
    requires Shape(s) && Enabled(s, Deliver(n, now))
    ensures Advanced(s, DeliverStep(s, n, now))
  {
    hide FateOf, AfterAttempt, TrySend, TrySendResult;
    if DeliverStep(s, n, now).status[n - 1].Delivered? {
      HandOverIs(s, n, now);
      UpdateAdvances(s, DeliverStep(s, n, now), n, Delivered);
    } else {
      DropIs(s, n, now);
      UpdateAdvances(s, DeliverStep(s, n, now), n, Dropped);
    }
  }

  lemma UnmangleAdvances(s: State, msg: RawMessage)
    requires Shape(s) && Tabled(s)
    ensures Advanced(s, UnmangleStep(s, msg))
  {
    hide UnmangleStep, Answered, Tabled;
    UnmangleIs(s, msg);
    if Answered(s, msg).Some? {
      var t := UnmangleStep(s, msg);
      var n := Answered(s, msg).value;
      UpdateAdvances(s, t, n, t.status[n - 1]);
    }
  }

  lemma StepAdvances(s: State, step: Step)
    requires Inv(s) && Enabled(s, step)
    ensures Advanced(s, Apply(s, step))
  {
    hide Tabled, Logged, Routed, Pressured, DeliverStep, UnmangleStep, ConnectStep;
    match step
    case Deliver(n, now) => DeliverAdvances(s, n, now);
    case Unmangle(msg) => UnmangleAdvances(s, msg);
    case Insert(n) => UpdateAdvances(s, InsertStep(s, n), n, Pending);
    case Connect(c) => ConnectAdvances(s, c);
    case _ =>
  }

  lemma ConnectAdvances(s: State, c: ClientId)
    ensures Advanced(s, ConnectStep(s, c))
  {
    hide SendEarly;
  }

  /** Over all runs: an id leaves the table once and for all, and once delivered, dropped
      or purged it stays so. */
  lemma {:induction false} IdsOnlyAdvance(s: State, steps: seq<Step>)
    requires Inv(s) && Run(s, steps).Some?
    ensures Advanced(s, Run(s, steps).value)
    decreases |steps|
  {
    hide Apply, Tabled, Logged, Routed, Pressured;
    if steps == [] {
    } else {
      StepAdvances(s, steps[0]);
      StepKeeps(s, steps[0]);
      IdsOnlyAdvance(Apply(s, steps[0]), steps[1..]);
    }
  }

  // ── Purging ───────────────────────────────────────────────────────────

  /** A purge takes exactly the entries of the client, and leaves everybody else's alone. */
  lemma {:induction false} PurgeIsExact(s: State, c: ClientId, n: nat)
    requires Inv(s)
    ensures var t := PurgeStep(s, {c});
      && (n in t.pending <==> n in s.pending && s.pending[n].client != c)
      && (n in t.pending ==> t.pending[n] == s.pending[n])
      && (1 <= n <= |s.sent| ==>
            t.status[n - 1] ==
              if s.status[n - 1].Pending? && s.sent[n - 1].client == c then Purged else s.status[n - 1])
  {
    hide Logged, Routed, Pressured;
  }

  /** Purging clients one after the other is purging them all. */
  lemma {:induction false} PurgesCompose(s: State, a: set<ClientId>, b: set<ClientId>)
    requires Shape(s)
    ensures PurgeStep(PurgeStep(s, a), b) == PurgeStep(s, a + b)
  {
    var t := PurgeStep(s, a);
    assert PurgeStep(t, b).status == PurgeStep(s, a + b).status;
    assert PurgeStep(t, b).pending == PurgeStep(s, a + b).pending;
  }

  /** An entry may outlive its client: a message that is under way while its client leaves
      enters the table after the purge. */
  lemma EntryMayOutliveItsClient() returns (steps: seq<Step>)
    ensures Run(INIT, steps).Some?
    ensures var s := Run(INIT, steps).value;
      1 in s.pending && s.pending[1].client in s.gone && s.pending[1].client !in s.clients
  {
    steps := [Connect("c"), Allocate("c", "7"), Disconnect("c"), Purge("c"), Insert(1)];
    var s1 := ConnectStep(INIT, "c");
    var s2 := AllocateStep(s1, "c", "7");
    var s3 := DisconnectStep(s2, "c");
    var s4 := PurgeStep(s3, {"c"});
    assert Enabled(s4, Insert(1));
    RunStep(INIT, steps);
    RunStep(s1, steps[1..]);
    RunStep(s2, steps[2..]);
    RunStep(s3, steps[3..]);
    RunStep(s4, steps[4..]);
    assert steps[5..] == [];
  }

  lemma RunStep(s: State, steps: seq<Step>)
    requires Shape(s) && steps != [] && Enabled(s, steps[0])
    ensures Shape(Apply(s, steps[0])) && Run(s, steps) == Run(Apply(s, steps[0]), steps[1..])
  {
    ShapeKept(s, steps[0]);
  }

  // ── An answer comes back ──────────────────────────────────────────────

  /** A child that echoes the id it was given has its answer put last into the channel of
      the client that asked, under the client's own id, if that channel takes it; all other
      channels and entries stay as they are. */
  lemma {:induction false} AnswerComesBack(s: State, msg: RawMessage, n: nat, now: nat) returns (u: State)
    requires Inv(s) && n in s.pending && n <= U64_MAX && s.clock <= now
    requires msg.methodName.None? && (msg.result.Some? || msg.error.Some?) && msg.id == Some(Print(n))
    requires var c := s.pending[n].client;
      c in s.clients && s.chans[c].open && s.chans[c].Waiting() < 256
    ensures var c := s.pending[n].client;
      && Run(s, [Unmangle(msg), Deliver(n, now)]) == Some(u)
      && u.chans.Keys == s.chans.Keys
      && u.chans[c].sent == s.chans[c].sent + [Message(msg.(id := Some(s.pending[n].original)))]
      && (forall d :: d in s.chans && d != c ==> u.chans[d] == s.chans[d])
      && u.pending == s.pending - {n}
  {
    hide Print, ParseU64, Logged, Routed, Pressured, UnmangleStep, DeliverStep, Run;
    PrintParse(n);
    UnmangleIs(s, msg);
    var t := UnmangleStep(s, msg);
    u := DeliverStep(t, n, now);
    GetsThrough(t, n, now);
    var steps := [Unmangle(msg), Deliver(n, now)];
    RunStep(s, steps);
    RunStep(t, steps[1..]);
    RunNothing(u, steps[1..][1..]);
  }

  lemma RunNothing(s: State, steps: seq<Step>)
    requires Shape(s) && steps == []
    ensures Run(s, steps) == Some(s)
  {
  }

  lemma GetsThrough(s: State, n: nat, now: nat)
    requires Shape(s) && Enabled(s, Deliver(n, now))
    requires var c := s.sent[n - 1].client; c in s.clients && TrySendResult(s.chans[c], CLIENT_CHANNEL_CAP).Sent?
    ensures var c := s.sent[n - 1].client;
      var u := DeliverStep(s, n, now);
      && u.pending == s.pending
      && u.chans == s.chans[c := s.chans[c].(sent := s.chans[c].sent + [Message(s.status[n - 1].msg)])]
  {
  }

  // ── Eviction ──────────────────────────────────────────────────────────

  /** Exactly which clients a broadcast costs: those whose receiver is gone, and those
      whose channel is full now and was at every attempt since one at least thirty seconds
      ago. */
  lemma {:induction false} BroadcastEvicts(s: State, msg: RawMessage, now: nat, c: ClientId)
    requires Inv(s) && s.clock <= now && c in s.clients
    ensures c !in BroadcastStep(s, msg, now).clients <==>
      || !s.chans[c].open
      || (s.chans[c].Waiting() >= CLIENT_CHANNEL_CAP && Starved(s.clients[c].log, now))
  {
    hide Tabled, Logged, Routed, Faithful, Starved;
    EvictionIff(s.clients[c], TrySendResult(s.chans[c], CLIENT_CHANNEL_CAP), s.clock, now);
  }

  /** An answer costs at most the client it is for, for the same two reasons. */
  lemma {:induction false} DeliveryEvicts(s: State, n: nat, now: nat, c: ClientId)
    requires Inv(s) && Enabled(s, Deliver(n, now)) && c in s.clients
    ensures c !in DeliverStep(s, n, now).clients <==>
      && c == s.sent[n - 1].client
      && (|| !s.chans[c].open
          || (s.chans[c].Waiting() >= CLIENT_CHANNEL_CAP && Starved(s.clients[c].log, now)))
  {
    hide Tabled, Logged, Routed, Faithful, Starved, AfterAttempt, TrySend;
    EvictionIff(s.clients[c], TrySendResult(s.chans[c], CLIENT_CHANNEL_CAP), s.clock, now);
  }
}
