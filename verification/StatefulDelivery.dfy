/** Where the messages of a session's child go, one by one. */
module StatefulDelivery {
  import opened Wrappers
  import opened Seqs
  import opened JsonRpc
  import opened Channels
  import opened Delivery
  import C = Correlation
  import N = Notifications
  import opened StatefulSessions

  // ── What a message is ─────────────────────────────────────────────────

  /** A result under an id: the first one completes the initialization. */
  predicate Succeeds(msg: RawMessage) {
    msg.id.Some? && msg.methodName.None? && msg.result.Some?
  }

  // ── The history of the stream ─────────────────────────────────────────

  /** The messages of a run that are no responses. */
  function Notices(steps: seq<N.Step>): seq<RawMessage> {
    if steps == [] then []
    else (if steps[0].Route? && !Responds(steps[0].msg) then [steps[0].msg] else []) + Notices(steps[1..])
  }

  predicate Initialized(steps: seq<N.Step>) {
    exists k :: 0 <= k < |steps| && steps[k].Route? && Succeeds(steps[k].msg)
  }

  /** Those before the first result, and those after it. */
  function EarlyNotices(steps: seq<N.Step>): seq<RawMessage> {
    if steps == [] || (steps[0].Route? && Succeeds(steps[0].msg)) then []
    else (if steps[0].Route? && !Responds(steps[0].msg) then [steps[0].msg] else []) + EarlyNotices(steps[1..])
  }

  function LateNotices(steps: seq<N.Step>): seq<RawMessage> {
    if steps == [] then []
    else if steps[0].Route? && Succeeds(steps[0].msg) then Notices(steps[1..])
    else LateNotices(steps[1..])
  }

  lemma StepHistory(s: N.State, step: N.Step)
    requires N.Enabled(s, step)
    ensures var t := N.Apply(s, step);
      var notice := if step.Route? && !Responds(step.msg) then [step.msg] else [];
      && (t.initDone <==> s.initDone || (step.Route? && Succeeds(step.msg)))
      && t.early == s.early + (if s.initDone then [] else notice)
      && t.late == s.late + if s.initDone then notice else []
  {
    hide TrySend, Receive, N.Pushed;
    assert s.early + [] == s.early && s.late + [] == s.late;
  }

  lemma InitializedNext(steps: seq<N.Step>)
    requires steps != []
    ensures Initialized(steps) <==> (steps[0].Route? && Succeeds(steps[0].msg)) || Initialized(steps[1..])
  {
    hide Succeeds;
    if Initialized(steps) {
      var k :| 0 <= k < |steps| && steps[k].Route? && Succeeds(steps[k].msg);
      if k > 0 {
        assert steps[1..][k - 1] == steps[k];
      }
    }
    if Initialized(steps[1..]) {
      var k :| 0 <= k < |steps| - 1 && steps[1..][k].Route? && Succeeds(steps[1..][k].msg);
      assert steps[k + 1] == steps[1..][k];
    }
  }

  /** The session is initialized exactly when a result has come. */
  lemma {:induction false} DoneIsTheRun(s: N.State, steps: seq<N.Step>)
    requires N.Run(s, steps).Some?
    ensures N.Run(s, steps).value.initDone <==> s.initDone || Initialized(steps)
    decreases |steps|
  {
    hide N.Apply, Responds, Succeeds, Initialized;
    if steps == [] {
      NothingYet();
    } else {
      StepHistory(s, steps[0]);
      InitializedNext(steps);
      DoneIsTheRun(N.Apply(s, steps[0]), steps[1..]);
    }
  }

  /** And what is early and what is late is told by the run. */
  lemma {:induction false} HistoryIsTheRun(s: N.State, steps: seq<N.Step>)
    requires N.Run(s, steps).Some?
    ensures var t := N.Run(s, steps).value;
      if s.initDone then t.early == s.early && t.late == s.late + Notices(steps)
      else t.early == s.early + EarlyNotices(steps) && t.late == s.late + LateNotices(steps)
    decreases |steps|
  {
    hide N.Apply, N.Enabled, Responds, Succeeds, Notices, EarlyNotices, LateNotices;
    if steps == [] {
      NothingYet();
      assert s.early + [] == s.early && s.late + [] == s.late;
    } else {
      StepHistory(s, steps[0]);
      NoticesNext(steps);
      HistoryIsTheRun(N.Apply(s, steps[0]), steps[1..]);
      var first := if steps[0].Route? && !Responds(steps[0].msg) then [steps[0].msg] else [];
      Regroup(s.early, first, EarlyNotices(steps[1..]));
      Regroup(s.late, first, Notices(steps[1..]));
    }
  }

  lemma Regroup(a: seq<RawMessage>, b: seq<RawMessage>, c: seq<RawMessage>)
    ensures (a + b) + c == a + (b + c) && a + [] == a
  {
  }

  lemma NoticesNext(steps: seq<N.Step>)
    requires steps != []
    ensures var first := if steps[0].Route? && !Responds(steps[0].msg) then [steps[0].msg] else [];
      && Notices(steps) == first + Notices(steps[1..])
      && if steps[0].Route? && Succeeds(steps[0].msg)
         then first == [] && EarlyNotices(steps) == [] && LateNotices(steps) == Notices(steps[1..])
         else EarlyNotices(steps) == first + EarlyNotices(steps[1..]) && LateNotices(steps) == LateNotices(steps[1..])
  {
    SucceedsResponds(steps[0]);
  }

  lemma SucceedsResponds(step: N.Step)
    ensures step.Route? && Succeeds(step.msg) ==> Responds(step.msg)
  {
  }

  lemma NothingYet()
    ensures !Initialized([]) && Notices([]) == [] && EarlyNotices([]) == [] && LateNotices([]) == []
  {
  }

  // ── Late notifications ────────────────────────────────────────────────

  /** The messages that are no responses and for which the stream had room when they came. */
  function Accepted(s: N.State, steps: seq<N.Step>): seq<RawMessage>
    requires N.Run(s, steps).Some?
    decreases |steps|
  {
    if steps == [] then []
    else
      (if steps[0].Route? && !Responds(steps[0].msg) && HasRoom(s.chan) then [steps[0].msg] else [])
        + Accepted(N.Apply(s, steps[0]), steps[1..])
  }

  lemma LateStep(s: N.State, step: N.Step)
    requires s.initDone && s.flushing == [] && N.Enabled(s, step)
    ensures var t := N.Apply(s, step);
      && t.initDone && t.flushing == []
      && t.chan.sent == s.chan.sent
           + if step.Route? && !Responds(step.msg) && HasRoom(s.chan) then [step.msg] else []
  {
    assert s.chan.sent + [] == s.chan.sent;
  }

  /** Over all runs: after the initialization the stream is sent exactly those messages that
      are no responses and find room, each once and in order. */
  lemma {:induction false} LateAreSent(s: N.State, steps: seq<N.Step>)
    requires s.initDone && s.flushing == [] && N.Run(s, steps).Some?
    ensures N.Run(s, steps).value.chan.sent == s.chan.sent + Accepted(s, steps)
    decreases |steps|
  {
    hide N.Apply, Responds, HasRoom;
    if steps == [] {
      assert s.chan.sent + [] == s.chan.sent;
    } else {
      LateStep(s, steps[0]);
      LateAreSent(N.Apply(s, steps[0]), steps[1..]);
      var first := if steps[0].Route? && !Responds(steps[0].msg) && HasRoom(s.chan) then [steps[0].msg] else [];
      var rest := Accepted(N.Apply(s, steps[0]), steps[1..]);
      assert s.chan.sent + first + rest == s.chan.sent + (first + rest);
    }
  }

  // ── One message ───────────────────────────────────────────────────────

  lemma {:induction false} FlushAllIs(s: N.State)
    requires s.chan.Valid() && |s.chan.sent| + |s.flushing| <= 256
    ensures FlushAll(s) == s.(flushing := [],
                              chan := if s.chan.open then s.chan.(sent := s.chan.sent + s.flushing) else s.chan)
    decreases |s.flushing|
  {
    if s.flushing == [] {
      assert s.chan.sent + [] == s.chan.sent;
    } else {
      var t := N.FlushStep(s);
      FlushAllIs(t);
      assert s.chan.sent + [s.flushing[0]] + s.flushing[1..] == s.chan.sent + s.flushing;
    }
  }

  lemma NReachedInv(s: N.State)
    requires NReached(s)
    ensures N.Inv(s)
  {
    hide N.Run;
    var steps :| N.Run(N.INIT, steps) == Some(s);
    N.Reachable(steps);
  }

  /** What the stream is sent when the relay handles one message. Before the initialization
      a message that is no response is kept, the last 256 of them; the first result sends
      all that is kept, if anyone is there to receive it; after that a message that is no
      response is sent if there is room. Nothing else touches the stream. */
  lemma {:induction false} OneMessageStreams(s: N.State, msg: RawMessage)
    requires NReached(s) && s.flushing == []
    ensures var t := NotifyOp(s, msg);
      && t.initDone == (s.initDone || Succeeds(msg))
      && t.buffer == (if s.initDone || Responds(msg) then (if Succeeds(msg) then [] else s.buffer)
                      else LastN(s.buffer + [msg], 256))
      && t.chan == if !s.initDone && Succeeds(msg) && s.chan.open then s.chan.(sent := s.buffer)
                   else if s.initDone && !Responds(msg) && HasRoom(s.chan) then s.chan.(sent := s.chan.sent + [msg])
                   else s.chan
  {
    hide NReached;
    NReachedInv(s);
    if !s.initDone && Succeeds(msg) {
      var t := N.InitStep(s);
      FlushAllIs(t);
      assert [] + s.buffer == s.buffer;
    }
  }

  /** A response under an id of the table: the POST that registered it is sent it, if it is
      there and fewer than 64 wait, and the entry is used up; nobody else is sent anything
      and no other entry changes. Under any other id nothing happens. */
  lemma {:induction false} OneResponseAnswers(s: C.State, msg: RawMessage, p: C.PostId)
    requires C.Inv(s) && p in s.posts
    ensures var t := RouteOp(s, msg);
      if msg.id.None? || msg.id.value !in s.pending then t == s
      else
        && t.pending == s.pending - {msg.id.value} && t.posts.Keys == s.posts.Keys
        && t.posts[p].ids == s.posts[p].ids && t.posts[p].registered == s.posts[p].registered
        && var ch := s.posts[p].chan;
           t.posts[p].chan == if p == s.pending[msg.id.value].post && ch.open && |ch.sent| - ch.taken < 64
                              then ch.(sent := ch.sent + [msg]) else ch
  {
    hide C.PostOk;
  }

  /** The child may answer, or fail, at any time, and the relay takes every message that
      comes when it has flushed. */
  lemma {:induction false} AnythingMayHappen(s: C.State, n: N.State, msg: RawMessage, code: int, message: string)
    requires C.Inv(s)
    ensures msg.id.Some? ==> C.Run(s, [C.Take(msg)]) == Some(C.TakeStep(s, msg))
    ensures C.Run(s, [C.Fail(code, message)]) == Some(C.FailStep(s, code, message))
    ensures n.flushing == [] ==> N.Run(n, [N.Route(msg)]) == Some(N.Apply(n, N.Route(msg)))
    ensures n.flushing != [] ==> N.Run(n, [N.FlushOne]) == Some(N.FlushStep(n))
  {
    hide C.TakeStep, C.FailStep, C.Tabled, C.PostOk;
    assert [C.Take(msg)][1..] == [] && [C.Fail(code, message)][1..] == [];
    assert [N.Route(msg)][1..] == [] && [N.FlushOne][1..] == [];
  }

  /** A registration enters its id for its POST, whoever was registered under it before;
      no other entry and no channel changes. */
  lemma {:induction false} RegistrationEnters(s: C.State, p: C.PostId, q: C.PostId)
    requires C.Inv(s) && C.Enabled(s, C.Register(p)) && q in s.posts
    ensures var t := C.RegisterStep(s, p);
      var i := s.posts[p].registered;
      && t.pending == s.pending[s.posts[p].ids[i] := C.Slot(p, i)]
      && t.posts.Keys == s.posts.Keys && t.posts[q].ids == s.posts[q].ids
      && t.posts[q].chan == s.posts[q].chan && t.posts[q].log == s.posts[q].log
      && t.posts[q].registered == s.posts[q].registered + if q == p then 1 else 0
  {
    hide C.PostOk, C.Tabled, C.Removed, C.Enter;
    var id := s.posts[p].ids[s.posts[p].registered];
    if id in s.pending {
      DisplacedOnly(s, id, p);
      DisplacedOnly(s, id, q);
      EnterOnly(C.Removed(s, id, C.Displaced), p, q);
    } else {
      EnterOnly(s, p, q);
    }
  }

  lemma DisplacedOnly(s: C.State, id: string, q: C.PostId)
    requires C.Shape(s) && id in s.pending && q in s.posts
    ensures var t := C.Removed(s, id, C.Displaced);
      && t.pending == s.pending - {id} && t.posts.Keys == s.posts.Keys
      && t.posts[q] == s.posts[q].(status := t.posts[q].status)
  {
  }

  lemma EnterOnly(s: C.State, p: C.PostId, q: C.PostId)
    requires C.Shape(s) && C.Enabled(s, C.Register(p)) && q in s.posts
    ensures var t := C.Enter(s, p);
      var i := s.posts[p].registered;
      && t.pending == s.pending[s.posts[p].ids[i] := C.Slot(p, i)] && t.posts.Keys == s.posts.Keys
      && t.posts[q] == s.posts[q].(status := t.posts[q].status, registered := t.posts[q].registered)
      && t.posts[q].registered == s.posts[q].registered + if q == p then 1 else 0
  {
  }
}
