/** A session of the stateful gateway as the object it is: the table of pending requests,
    the notification buffer and the channels, and what the child's relay does to them. */
module StatefulSessions {
  import opened Wrappers
  import opened JsonRpc
  import opened Channels
  import C = Correlation
  import N = Notifications

  // ── Correlation ───────────────────────────────────────────────────────

  ghost predicate Reached(s: C.State) {
    exists steps :: C.Run(C.INIT, steps) == Some(s)
  }

  lemma ReachedInv(s: C.State)
    requires Reached(s)
    ensures C.Inv(s) && C.Shape(s) && C.Tabled(s)
  {
    hide C.Run, C.Tabled;
    var steps :| C.Run(C.INIT, steps) == Some(s);
    C.Reachable(steps);
  }

  lemma ReachedNext(s: C.State, step: C.Step)
    requires Reached(s) && C.Shape(s) && C.Enabled(s, step)
    ensures Reached(C.Apply(s, step)) && C.Shape(C.Apply(s, step))
  {
    hide C.Apply, C.Run;
    var steps :| C.Run(C.INIT, steps) == Some(s);
    C.RunAppend(C.INIT, steps, step);
    C.ShapeKept(s, step);
  }

  /** A response goes to the POST that is registered under its id, if any. */
  function RouteOp(s: C.State, msg: RawMessage): C.State
    requires C.Shape(s)
  {
    if msg.id.None? || msg.id.value !in s.pending then s
    else
      var slot := s.pending[msg.id.value];
      C.HandStep(C.TakeStep(s, msg), slot.post, slot.index)
  }

  lemma PostIsOk(s: C.State, p: C.PostId)
    requires Reached(s) && p in s.posts
    ensures C.PostOk(s.posts[p])
  {
    hide Reached;
    ReachedInv(s);
  }

  lemma RouteReached(s: C.State, msg: RawMessage)
    requires Reached(s) && C.Shape(s)
    ensures Reached(RouteOp(s, msg))
  {
    hide Reached;
    if msg.id.Some? && msg.id.value in s.pending {
      var slot := s.pending[msg.id.value];
      ReachedNext(s, C.Take(msg));
      ReachedNext(C.TakeStep(s, msg), C.Hand(slot.post, slot.index));
    }
  }

  /** The senders in the table and the channels are those of the POSTs. */
  ghost predicate Ties(s: C.State, pending: map<string, C.PostId>, chans: map<C.PostId, Chan<RawMessage>>) {
    && C.Shape(s)
    && pending.Keys == s.pending.Keys && chans.Keys == s.posts.Keys
    && (forall id :: id in pending ==> pending[id] == s.pending[id].post)
    && (forall p :: p in chans ==> chans[p] == s.posts[p].chan)
  }

  lemma RemovedTies(s: C.State, pending: map<string, C.PostId>, chans: map<C.PostId, Chan<RawMessage>>,
                    id: string, st: C.SlotStatus)
    requires Ties(s, pending, chans) && id in s.pending
    ensures Ties(C.Removed(s, id, st), pending - {id}, chans)
  {
  }

  lemma EnterTies(s: C.State, pending: map<string, C.PostId>, chans: map<C.PostId, Chan<RawMessage>>, p: C.PostId)
    requires Ties(s, pending, chans) && C.Enabled(s, C.Register(p))
    ensures Ties(C.Enter(s, p), pending[s.posts[p].ids[s.posts[p].registered] := p], chans)
  {
  }

  lemma RegisterTies(s: C.State, pending: map<string, C.PostId>, chans: map<C.PostId, Chan<RawMessage>>, p: C.PostId)
    requires Ties(s, pending, chans) && C.Enabled(s, C.Register(p))
    ensures Ties(C.RegisterStep(s, p), pending[s.posts[p].ids[s.posts[p].registered] := p], chans)
  {
    hide Ties;
    TiesShape(s, pending, chans);
    var id := s.posts[p].ids[s.posts[p].registered];
    if id in s.pending {
      RemovedTies(s, pending, chans, id, C.Displaced);
      EnterTies(C.Removed(s, id, C.Displaced), pending - {id}, chans, p);
      assert (pending - {id})[id := p] == pending[id := p];
    } else {
      EnterTies(s, pending, chans, p);
    }
  }

  lemma TiesShape(s: C.State, pending: map<string, C.PostId>, chans: map<C.PostId, Chan<RawMessage>>)
    requires Ties(s, pending, chans)
    ensures C.Shape(s) && pending.Keys == s.pending.Keys && chans.Keys == s.posts.Keys
    ensures forall id :: id in pending ==> pending[id] == s.pending[id].post
  {
  }

  lemma HandTies(s: C.State, pending: map<string, C.PostId>, chans: map<C.PostId, Chan<RawMessage>>,
                 p: C.PostId, i: nat)
    requires Ties(s, pending, chans) && C.Enabled(s, C.Hand(p, i))
    ensures p in chans
    ensures Ties(C.HandStep(s, p, i), pending,
                 chans[p := TrySend(chans[p], s.posts[p].status[i].msg, C.RESPONSE_CHANNEL_CAP)])
  {
  }

  lemma RouteTies(s: C.State, pending: map<string, C.PostId>, chans: map<C.PostId, Chan<RawMessage>>, msg: RawMessage)
    requires Ties(s, pending, chans) && msg.id.Some? && msg.id.value in pending
    ensures pending[msg.id.value] in chans
    ensures var p := pending[msg.id.value];
      Ties(RouteOp(s, msg), pending - {msg.id.value},
           chans[p := TrySend(chans[p], msg, C.RESPONSE_CHANNEL_CAP)])
  {
    hide Ties;
    TiesShape(s, pending, chans);
    var slot := s.pending[msg.id.value];
    RemovedTies(s, pending, chans, msg.id.value, C.Taken(msg));
    HandTies(C.TakeStep(s, msg), pending - {msg.id.value}, chans, slot.post, slot.index);
  }

  lemma FailTies(s: C.State, pending: map<string, C.PostId>, chans: map<C.PostId, Chan<RawMessage>>,
                 code: int, message: string)
    requires Ties(s, pending, chans)
    ensures Ties(C.FailStep(s, code, message), map[], chans)
  {
  }

  // ── The death of the child ────────────────────────────────────────────

  /** On the way from `s` to the end of a failure: those under the ids `left` are still to
      be told. */
  ghost predicate Telling(s: C.State, t: C.State, left: set<string>, code: int, message: string) {
    && C.Shape(s) && C.Shape(t) && t.pending == map[] && t.posts.Keys == s.posts.Keys
    && forall p :: p in s.posts ==> TellingPost(s.posts[p], t.posts[p], left, code, message)
  }

  ghost predicate TellingPost(before: C.Post, after: C.Post, left: set<string>, code: int, message: string) {
    && Errors(before, after, code, message)
    && forall i :: 0 <= i < |before.status| ==>
         if !before.status[i].Waiting? then after.status[i] == before.status[i]
         else if before.ids[i] in left then
           after.status[i] == C.Taken(ErrorResponse(before.ids[i], code, message))
         else TellsApart(before, after, i)
  }

  /** What the POST is sent besides what it had: the error under the id of a registration
      that waited, each recorded in the log. */
  ghost predicate Errors(before: C.Post, after: C.Post, code: int, message: string) {
    && after.ids == before.ids && after.registered == before.registered && after.chan.open == before.chan.open
    && |after.status| == |before.status| == |before.ids|
    && |before.log| == |before.chan.sent| && |after.log| == |after.chan.sent|
    && before.log <= after.log && before.chan.sent <= after.chan.sent
    && forall k :: |before.log| <= k < |after.log| ==>
         && after.log[k] < |before.ids| && before.status[after.log[k]].Waiting?
         && after.chan.sent[k] == ErrorResponse(before.ids[after.log[k]], code, message)
  }

  /** A registration that waited has been sent its error; or it has not, because the POST
      is gone or has more than 64 ids. */
  ghost predicate TellsApart(before: C.Post, after: C.Post, i: nat)
    requires i < |after.status| && before.log <= after.log
  {
    if i in after.log[|before.log|..] then after.status[i].Answered?
    else after.status[i].Lost? && (!after.chan.open || |after.ids| > C.RESPONSE_CHANNEL_CAP)
  }

  lemma TellingBegins(s: C.State, code: int, message: string)
    requires C.Inv(s)
    ensures Telling(s, C.FailStep(s, code, message), s.pending.Keys, code, message)
  {
    var t := C.FailStep(s, code, message);
    forall p | p in s.posts ensures TellingPost(s.posts[p], t.posts[p], s.pending.Keys, code, message) {
      assert t.posts[p] == C.Failed(s, p, code, message);
      assert C.PostOk(s.posts[p]);
    }
  }

  lemma HandTells(before: C.Post, mid: C.Post, left: set<string>, i: nat, code: int, message: string)
    requires TellingPost(before, mid, left, code, message) && C.PostOk(mid)
    requires i < |before.status| && before.status[i].Waiting? && before.ids[i] in left
    requires forall j :: 0 <= j < |before.ids| && before.status[j].Waiting? && before.ids[j] == before.ids[i] ==> j == i
    ensures i < |mid.status| && mid.status[i] == C.Taken(ErrorResponse(before.ids[i], code, message))
    ensures TellingPost(before, C.Handed(mid, i), left - {before.ids[i]}, code, message)
  {
    hide ErrorResponse, C.PostOk;
    var after := C.Handed(mid, i);
    HandKeepsErrors(before, mid, left, i, code, message);
    NotInLog(mid, i);
    if |mid.ids| <= C.RESPONSE_CHANNEL_CAP {
      C.RoomLeft(mid, i);
    }
    var n := |before.log|;
    assert after.log == mid.log || after.log == mid.log + [i];
    assert forall j :: j in after.log[n..] <==> j in mid.log[n..] || (j == i && after.log != mid.log) by {
      assert (mid.log + [i])[n..] == mid.log[n..] + [i];
    }
    forall j | 0 <= j < |before.status| && before.status[j].Waiting? && before.ids[j] !in left - {before.ids[i]}
      ensures TellsApart(before, after, j)
    {
    }
  }

  lemma NotInLog(post: C.Post, i: nat)
    requires C.PostOk(post) && i < |post.status| && post.status[i].Taken?
    ensures i !in post.log
  {
  }

  lemma HandKeepsErrors(before: C.Post, mid: C.Post, left: set<string>, i: nat, code: int, message: string)
    requires TellingPost(before, mid, left, code, message)
    requires i < |before.status| && before.status[i].Waiting? && before.ids[i] in left
    ensures mid.status[i] == C.Taken(ErrorResponse(before.ids[i], code, message))
    ensures Errors(before, C.Handed(mid, i), code, message)
  {
    hide ErrorResponse, TellsApart;
  }

  lemma TellingNext(s: C.State, t: C.State, left: set<string>, id: string, code: int, message: string)
    requires Telling(s, t, left, code, message) && C.Tabled(s) && id in left && left <= s.pending.Keys
    requires C.PostOk(t.posts[s.pending[id].post])
    ensures var slot := s.pending[id];
      && C.Enabled(t, C.Hand(slot.post, slot.index))
      && t.posts[slot.post].status[slot.index].msg == ErrorResponse(id, code, message)
      && Telling(s, C.HandStep(t, slot.post, slot.index), left - {id}, code, message)
  {
    hide ErrorResponse, TellingPost, C.Handed, C.PostOk;
    var slot := s.pending[id];
    assert C.Entered(s, slot.post, slot.index);
    OthersKeep(s, slot.post, slot, id);
    HandTells(s.posts[slot.post], t.posts[slot.post], left, slot.index, code, message);
    var u := C.HandStep(t, slot.post, slot.index);
    forall p | p in s.posts && p != slot.post
      ensures TellingPost(s.posts[p], u.posts[p], left - {id}, code, message)
    {
      OthersKeep(s, p, slot, id);
      TellsNobody(s.posts[p], t.posts[p], left, id, code, message);
    }
    HandedShape(t, slot.post, slot.index);
  }

  lemma TellingKeys(s: C.State, t: C.State, left: set<string>, id: string, code: int, message: string)
    requires Telling(s, t, left, code, message) && id in s.pending
    ensures s.pending[id].post in t.posts
  {
    hide TellingPost;
  }

  lemma HandedShape(t: C.State, p: C.PostId, i: nat)
    requires C.Shape(t) && C.Enabled(t, C.Hand(p, i))
    ensures C.Shape(C.HandStep(t, p, i))
  {
  }

  lemma TellsNobody(before: C.Post, after: C.Post, left: set<string>, id: string, code: int, message: string)
    requires TellingPost(before, after, left, code, message)
    requires forall i :: 0 <= i < |before.ids| && before.status[i].Waiting? ==> before.ids[i] != id
    ensures TellingPost(before, after, left - {id}, code, message)
  {
    hide ErrorResponse, TellsApart;
  }

  /** No other registration waits under the same id. */
  lemma OthersKeep(s: C.State, p: C.PostId, slot: C.Slot, id: string)
    requires C.Shape(s) && C.Tabled(s) && p in s.posts && id in s.pending && s.pending[id] == slot
    ensures forall i :: 0 <= i < |s.posts[p].ids| && s.posts[p].status[i].Waiting? && s.posts[p].ids[i] == id ==>
      p == slot.post && i == slot.index
  {
    forall i | 0 <= i < |s.posts[p].ids| && s.posts[p].status[i].Waiting? && s.posts[p].ids[i] == id
      ensures p == slot.post && i == slot.index
    {
      assert C.Entered(s, p, i);
    }
  }

  /** What a failure does to a POST: every registration that waited, and no other, is sent
      the error with this code and message under its id, unless the POST is gone or has more
      than 64 ids; and nothing else is sent or changed. */
  ghost predicate Told(before: C.Post, after: C.Post, code: int, message: string) {
    && Errors(before, after, code, message)
    && forall i :: 0 <= i < |before.status| ==>
         if before.status[i].Waiting? then TellsApart(before, after, i)
         else after.status[i] == before.status[i]
  }

  lemma TellingEnds(s: C.State, t: C.State, code: int, message: string)
    requires Telling(s, t, {}, code, message)
    ensures t.posts.Keys == s.posts.Keys
    ensures forall p :: p in t.posts ==> Told(s.posts[p], t.posts[p], code, message)
  {
    hide Errors, TellsApart;
  }

  // ── Notifications ─────────────────────────────────────────────────────

  function FlushAll(s: N.State): N.State
    decreases |s.flushing|
  {
    if s.flushing == [] then s else FlushAll(N.FlushStep(s))
  }

  /** A message of the child, with the flush that it may set off. */
  function NotifyOp(s: N.State, msg: RawMessage): N.State
    requires s.flushing == []
  {
    FlushAll(N.Apply(s, N.Route(msg)))
  }

  ghost predicate NReached(s: N.State) {
    exists steps :: N.Run(N.INIT, steps) == Some(s)
  }

  lemma {:induction false} NRunAppend(s: N.State, steps: seq<N.Step>, step: N.Step)
    requires N.Run(s, steps).Some? && N.Enabled(N.Run(s, steps).value, step)
    ensures N.Run(s, steps + [step]) == Some(N.Apply(N.Run(s, steps).value, step))
    decreases |steps|
  {
    hide N.Apply;
    if steps == [] {
      assert steps + [step] == [step] && [step][1..] == [];
    } else {
      NRunAppend(N.Apply(s, steps[0]), steps[1..], step);
      assert (steps + [step])[0] == steps[0] && (steps + [step])[1..] == steps[1..] + [step];
    }
  }

  lemma NReachedNext(s: N.State, step: N.Step)
    requires NReached(s) && N.Enabled(s, step)
    ensures NReached(N.Apply(s, step))
  {
    hide N.Apply, N.Run;
    var steps :| N.Run(N.INIT, steps) == Some(s);
    NRunAppend(N.INIT, steps, step);
  }

  lemma {:induction false} FlushReached(s: N.State)
    requires NReached(s)
    ensures NReached(FlushAll(s)) && FlushAll(s).flushing == []
    decreases |s.flushing|
  {
    hide NReached;
    if s.flushing == [] {
    } else {
      NReachedNext(s, N.FlushOne);
      FlushReached(N.FlushStep(s));
    }
  }

  lemma NotifyReached(s: N.State, msg: RawMessage)
    requires NReached(s) && s.flushing == []
    ensures NReached(NotifyOp(s, msg)) && NotifyOp(s, msg).flushing == []
  {
    hide NReached, N.Apply;
    NReachedNext(s, N.Route(msg));
    FlushReached(N.Apply(s, N.Route(msg)));
  }

  // ── The session ───────────────────────────────────────────────────────

  /** `pending` holds, under each request id, the sender side of the channel of the POST
      that waits; `requests` is the same with its history. */
  class SessionData {
    var pending: map<string, C.PostId>
    var chans: map<C.PostId, Chan<RawMessage>>
    var initDone: bool
    var buffer: seq<RawMessage>
    var notifications: Chan<RawMessage>
    ghost var requests: C.State
    ghost var early: seq<RawMessage>
    ghost var late: seq<RawMessage>

    ghost function Stream(): N.State
      reads this
    {
      N.State(initDone, buffer, [], notifications, early, late)
    }

    ghost predicate Valid()
      reads this
    {
      Ties(requests, pending, chans) && Reached(requests) && NReached(Stream())
    }

    constructor ()
      ensures Valid() && requests == C.INIT && Stream() == N.INIT
    {
      pending, chans, initDone, buffer, notifications := map[], map[], false, [], NewChan();
      requests, early, late := C.INIT, [], [];
      new;
      assert C.Run(C.INIT, []) == Some(requests);
      assert N.Run(N.INIT, []) == Some(Stream());
    }

    /** Enter a request id of the POST `p`: the next of its ids. */
    method RegisterPending(id: string, p: C.PostId)
      requires Valid() && C.Enabled(requests, C.Register(p))
      requires id == requests.posts[p].ids[requests.posts[p].registered]
      modifies this`pending, this`requests
      ensures Valid() && requests == C.RegisterStep(old(requests), p) && pending == old(pending)[id := p]
    {
      hide Reached, NReached, Ties;
      TiesShape(requests, pending, chans);
      RegisterTies(requests, pending, chans, p);
      ReachedNext(requests, C.Register(p));
      pending := pending[id := p];
      requests := C.RegisterStep(requests, p);
    }

    /** Give a response to the POST that is registered under its id. */
    method RouteResponse(msg: RawMessage) returns (matched: bool)
      requires Valid()
      modifies this`pending, this`chans, this`requests
      ensures Valid() && requests == RouteOp(old(requests), msg)
      ensures matched <==> msg.id.Some? && msg.id.value in old(pending)
    {
      hide Reached, NReached, Ties;
      TiesShape(requests, pending, chans);
      RouteReached(requests, msg);
      if msg.id.None? || msg.id.value !in pending {
        return false;
      }
      var id := msg.id.value;
      var p := pending[id];
      RouteTies(requests, pending, chans, msg);
      requests := RouteOp(requests, msg);
      pending := pending - {id};
      chans := chans[p := TrySend(chans[p], msg, C.RESPONSE_CHANNEL_CAP)];
      matched := true;
    }

    /** The child is gone: an error for every POST that waits. */
    method FailPendingRequests(code: int, message: string)
      requires Valid()
      modifies this`pending, this`chans, this`requests
      ensures Valid() && pending == map[]
      ensures requests.posts.Keys == old(requests.posts.Keys)
      ensures forall p :: p in requests.posts ==> Told(old(requests).posts[p], requests.posts[p], code, message)
    {
      hide Reached, NReached, Ties, Telling, Told, C.FailStep, C.HandStep, C.Inv, C.Shape;
      ghost var before := requests;
      TiesShape(requests, pending, chans);
      ReachedInv(requests);
      FailTies(requests, pending, chans, code, message);
      ReachedNext(requests, C.Fail(code, message));
      TellingBegins(requests, code, message);
      requests := C.FailStep(requests, code, message);
      var taken := pending;
      pending := map[];
      var left := taken.Keys;
      while left != {}
        invariant left <= taken.Keys == before.pending.Keys && pending == map[]
        invariant Ties(requests, pending, chans) && Reached(requests)
        invariant Telling(before, requests, left, code, message)
        invariant Stream() == old(Stream())
      {
        var id :| id in left;
        var p := taken[id];
        ghost var i := before.pending[id].index;
        TiesShape(requests, pending, chans);
        TellingKeys(before, requests, left, id, code, message);
        PostIsOk(requests, p);
        TellingNext(before, requests, left, id, code, message);
        HandTies(requests, pending, chans, p, i);
        ReachedNext(requests, C.Hand(p, i));
        requests := C.HandStep(requests, p, i);
        chans := chans[p := TrySend(chans[p], ErrorResponse(id, code, message), C.RESPONSE_CHANNEL_CAP)];
        left := left - {id};
      }
      TellingEnds(before, requests, code, message);
    }

    /** Keep a notification back until the session is initialized; then send it on. */
    method RouteNotification(msg: RawMessage)
      modifies this`buffer, this`notifications, this`early, this`late
      ensures Stream() == N.NotifyStep(old(Stream()), msg)
    {
      if !initDone {
        if |buffer| >= N.INIT_NOTIFICATION_BUFFER_CAP {
          buffer := buffer[1..];
        }
        buffer := buffer + [msg];
        early := early + [msg];
        return;
      }
      notifications := TrySend(notifications, msg, N.NOTIFICATION_CHANNEL_CAP);
      late := late + [msg];
    }

    method MarkInitDone()
      requires !initDone
      modifies this`initDone, this`buffer, this`notifications, this`early, this`late
      ensures Stream() == FlushAll(N.InitStep(old(Stream())))
    {
      initDone := true;
      var buffered := buffer;
      buffer := [];
      var i := 0;
      while i < |buffered|
        invariant i <= |buffered| && initDone && buffer == [] && early == old(early) && late == old(late)
        invariant FlushAll(Stream().(flushing := buffered[i..])) == FlushAll(N.InitStep(old(Stream())))
      {
        assert buffered[i..][0] == buffered[i] && buffered[i..][1..] == buffered[i + 1..];
        notifications := TrySend(notifications, buffered[i], N.NOTIFICATION_CHANNEL_CAP);
        i := i + 1;
      }
    }

    /** What the relay does with one message of the child. */
    method RouteSingleMessage(msg: RawMessage)
      requires Valid()
      modifies this
      ensures Valid()
      ensures Stream() == NotifyOp(old(Stream()), msg)
      ensures requests ==
        if msg.id.Some? && msg.methodName.None? && (msg.result.Some? || msg.error.Some?)
        then RouteOp(old(requests), msg) else old(requests)
    {
      hide Reached, NReached, RouteOp;
      NotifyReached(Stream(), msg);
      if msg.IsResponse() {
        if !initDone && msg.result.Some? {
          MarkInitDone();
        }
        var matched := RouteResponse(msg);
      } else {
        RouteNotification(msg);
      }
    }
  }
}
