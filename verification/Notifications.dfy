/** Notifications of a session's child: kept back until the session is initialized, then
    flushed into the channel of the GET stream and sent straight on. The relay thread does
    one thing at a time; the stream may receive, or go away, between any two. */
module Notifications {
  import opened Wrappers
  import opened Seqs
  import opened JsonRpc
  import opened Channels

  const INIT_NOTIFICATION_BUFFER_CAP: nat := 256
  const NOTIFICATION_CHANNEL_CAP: nat := 256

  datatype State = State(
    initDone: bool,
    buffer: seq<RawMessage>,
    flushing: seq<RawMessage>,  // taken out of the buffer, not routed yet
    chan: Chan<RawMessage>,
    early: seq<RawMessage>,     // history: what came before the initialization was done
    late: seq<RawMessage>)      // history: what came after

  datatype Step = Route(msg: RawMessage) | FlushOne | Receiving | HangUp

  const INIT: State := State(false, [], [], NewChan(), [], [])

  /** The relay flushes before it reads on. */
  predicate Enabled(s: State, step: Step) {
    match step
    case Route(_) => s.flushing == []
    case FlushOne => s.flushing != []
    case _ => true
  }

  function Pushed(buffer: seq<RawMessage>, msg: RawMessage): seq<RawMessage> {
    (if |buffer| >= INIT_NOTIFICATION_BUFFER_CAP then buffer[1..] else buffer) + [msg]
  }

  function NotifyStep(s: State, msg: RawMessage): State {
    if !s.initDone then s.(buffer := Pushed(s.buffer, msg), early := s.early + [msg])
    else s.(chan := TrySend(s.chan, msg, NOTIFICATION_CHANNEL_CAP), late := s.late + [msg])
  }

  function InitStep(s: State): State {
    s.(initDone := true, buffer := [], flushing := s.buffer)
  }

  /** The first response that carries a result completes the initialization. */
  predicate Initializes(s: State, msg: RawMessage) {
    msg.IsResponse() && msg.result.Some? && !s.initDone
  }

  function FlushStep(s: State): State
    requires s.flushing != []
  {
    s.(chan := TrySend(s.chan, s.flushing[0], NOTIFICATION_CHANNEL_CAP), flushing := s.flushing[1..])
  }

  function Apply(s: State, step: Step): State
    requires Enabled(s, step)
  {
    match step
    case Route(msg) =>
      if !msg.IsResponse() then NotifyStep(s, msg)
      else if Initializes(s, msg) then InitStep(s)
      else s
    case FlushOne => FlushStep(s)
    case Receiving => s.(chan := Receive(s.chan))
    case HangUp => s.(chan := s.chan.(open := false))
  }

  function Run(s: State, steps: seq<Step>): Option<State>
    decreases |steps|
  {
    if steps == [] then Some(s)
    else if !Enabled(s, steps[0]) then None
    else Run(Apply(s, steps[0]), steps[1..])
  }

  // ── The invariant ─────────────────────────────────────────────────────

  /** What is kept of the early notifications. */
  function Kept(s: State): seq<RawMessage> {
    LastN(s.early, INIT_NOTIFICATION_BUFFER_CAP)
  }

  /** The first `n` kept notifications, then some of the late ones, in order. */
  ghost predicate History(s: State, n: nat) {
    && n <= |Kept(s)| && n <= |s.chan.sent|
    && s.chan.sent[..n] == Kept(s)[..n]
    && Subsequence(s.chan.sent[n..], s.late)
  }

  ghost predicate Before(s: State) {
    s.buffer == Kept(s) && s.flushing == [] && s.chan.sent == [] && s.late == []
  }

  ghost predicate Flushing(s: State) {
    && s.late == [] && |s.flushing| <= |Kept(s)|
    && var n := |Kept(s)| - |s.flushing|;
       && s.flushing == Kept(s)[n..]
       && |s.chan.sent| <= n
       && s.chan.sent == Kept(s)[..|s.chan.sent|]
       && (s.chan.open ==> |s.chan.sent| == n)
  }

  /** After the flush. If the stream went away during it, nothing more was sent. */
  ghost predicate After(s: State) {
    exists n: nat :: History(s, n) && (n < |Kept(s)| ==> !s.chan.open)
  }

  ghost predicate Inv(s: State) {
    && s.chan.Valid()
    && if !s.initDone then Before(s)
       else s.buffer == [] && if s.flushing != [] then Flushing(s) else After(s)
  }

  lemma PushedIsLast(early: seq<RawMessage>, msg: RawMessage)
    ensures Pushed(LastN(early, INIT_NOTIFICATION_BUFFER_CAP), msg)
            == LastN(early + [msg], INIT_NOTIFICATION_BUFFER_CAP)
  {
  }

  lemma FlushedIsAfter(s: State)
    requires Flushing(s) && s.flushing == []
    ensures After(s)
  {
    var n := |s.chan.sent|;
    assert s.chan.sent[n..] == [];
    SubsequenceEmpty(s.late);
    assert s.chan.sent[..n] == s.chan.sent;
    assert History(s, n);
  }

  lemma InitKeeps(s: State)
    requires Inv(s) && !s.initDone
    ensures Inv(InitStep(s))
  {
    var t := InitStep(s);
    assert Kept(t)[0..] == Kept(t) && Kept(t)[..0] == [];
    assert Flushing(t);
    if t.flushing == [] {
      FlushedIsAfter(t);
    }
  }

  lemma FlushKeeps(s: State)
    requires Inv(s) && s.flushing != []
    ensures Inv(FlushStep(s))
  {
    var t := FlushStep(s);
    var n := |Kept(s)| - |s.flushing|;
    assert s.flushing[0] == Kept(s)[n] && t.flushing == Kept(s)[n + 1..];
    assert s.chan.open ==> s.chan.sent + [Kept(s)[n]] == Kept(s)[..n + 1];
    assert Flushing(t);
    if t.flushing == [] {
      FlushedIsAfter(t);
    }
  }

  lemma LateKeeps(s: State, msg: RawMessage)
    requires s.chan.Valid() && After(s)
    ensures var t := s.(chan := TrySend(s.chan, msg, NOTIFICATION_CHANNEL_CAP), late := s.late + [msg]);
      t.chan.Valid() && After(t)
  {
    var n: nat :| History(s, n) && (n < |Kept(s)| ==> !s.chan.open);
    var t := s.(chan := TrySend(s.chan, msg, NOTIFICATION_CHANNEL_CAP), late := s.late + [msg]);
    var tail := s.chan.sent[n..];
    SubsequenceSkip(tail, s.late, msg);
    SubsequenceTake(tail, s.late, msg);
    assert (s.chan.sent + [msg])[n..] == tail + [msg] && (s.chan.sent + [msg])[..n] == s.chan.sent[..n];
    assert History(t, n);
  }

  lemma HistoryKept(s: State, t: State, n: nat)
    requires History(s, n) && t.chan.sent == s.chan.sent && t.early == s.early && t.late == s.late
    ensures History(t, n)
  {
    hide Subsequence;
  }

  lemma StreamKeeps(s: State, ch: Chan<RawMessage>)
    requires Inv(s) && ch in [Receive(s.chan), s.chan.(open := false)]
    ensures Inv(s.(chan := ch))
  {
    hide History;
    var t := s.(chan := ch);
    if s.initDone && s.flushing == [] {
      var n: nat :| History(s, n) && (n < |Kept(s)| ==> !s.chan.open);
      HistoryKept(s, t, n);
    }
  }

  lemma StepKeeps(s: State, step: Step)
    requires Inv(s) && Enabled(s, step)
    ensures Inv(Apply(s, step))
  {
    hide History, After, Flushing, TrySend, Receive;
    match step
    case Route(msg) =>
      if !msg.IsResponse() {
        if s.initDone {
          LateKeeps(s, msg);
        } else {
          PushedIsLast(s.early, msg);
        }
      } else if !s.initDone {
        InitKeeps(s);
      }
    case FlushOne => FlushKeeps(s);
    case Receiving => StreamKeeps(s, Receive(s.chan));
    case HangUp => StreamKeeps(s, s.chan.(open := false));
  }

  lemma {:induction false} RunKeeps(s: State, steps: seq<Step>)
    requires Inv(s) && Run(s, steps).Some?
    ensures Inv(Run(s, steps).value)
    decreases |steps|
  {
    hide Inv, Apply;
    if steps == [] {
    } else {
      StepKeeps(s, steps[0]);
      RunKeeps(Apply(s, steps[0]), steps[1..]);
    }
  }

  lemma Reachable(steps: seq<Step>)
    requires Run(INIT, steps).Some?
    ensures Inv(Run(INIT, steps).value)
  {
    hide Run;
    assert Inv(INIT);
    RunKeeps(INIT, steps);
  }

  // ── Results ───────────────────────────────────────────────────────────

  /** With a live stream, all that ever went into the channel is the last 256 early
      notifications (all of them if they were fewer), none lost, and then late ones in the
      order in which they came. */
  lemma NotificationsInOrder(steps: seq<Step>)
    requires Run(INIT, steps).Some?
    requires var s := Run(INIT, steps).value; s.initDone && s.flushing == [] && s.chan.open
    ensures var s := Run(INIT, steps).value;
      var kept := LastN(s.early, INIT_NOTIFICATION_BUFFER_CAP);
      && kept <= s.chan.sent
      && Subsequence(s.chan.sent[|kept|..], s.late)
  {
    hide Run;
    Reachable(steps);
    var s := Run(INIT, steps).value;
    var n: nat :| History(s, n) && (n < |Kept(s)| ==> !s.chan.open);
    assert s.chan.sent[..n] == Kept(s)[..n] == Kept(s);
  }

  /** Before the initialization is done nothing is sent; while the flush goes on only kept
      notifications are, from the first, and none is refused by a live stream. */
  lemma FlushLosesNone(steps: seq<Step>)
    requires Run(INIT, steps).Some?
    ensures var s := Run(INIT, steps).value;
      && (!s.initDone ==> s.chan.sent == [] && s.buffer == LastN(s.early, INIT_NOTIFICATION_BUFFER_CAP))
      && (s.flushing != [] ==>
            && s.chan.sent <= LastN(s.early, INIT_NOTIFICATION_BUFFER_CAP)
            && TrySendResult(s.chan, NOTIFICATION_CHANNEL_CAP)
               == if s.chan.open then Sent else Disconnected)
  {
    hide Run, After;
    Reachable(steps);
  }
}
