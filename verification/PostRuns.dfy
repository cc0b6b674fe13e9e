/** A POST whose waiting loop polls the channel that a run of the session's sections filled:
    where each event of its body comes from. */
module PostRuns {
  import opened Wrappers
  import opened Seqs
  import opened JsonRpc
  import opened Channels
  import opened PostResponses
  import C = Correlation

  // ── What is sent was said ─────────────────────────────────────────────

  /** In one of these steps the child answered `id` with `msg`, or it failed and `msg` is
      the error for that. */
  ghost predicate Said(steps: seq<C.Step>, id: string, msg: RawMessage) {
    && msg.id == Some(id)
    && exists q :: 0 <= q < |steps| && Says(steps[q], id, msg)
  }

  predicate Says(step: C.Step, id: string, msg: RawMessage) {
    match step
    case Take(m) => m == msg
    case Fail(code, message) => msg == ErrorResponse(id, code, message)
    case _ => false
  }

  ghost predicate PostSourced(post: C.Post, past: seq<C.Step>) {
    && |post.status| == |post.ids| && |post.log| == |post.chan.sent|
    && (forall i :: 0 <= i < |post.ids| && post.status[i].Taken? ==> Said(past, post.ids[i], post.status[i].msg))
    && (forall k :: 0 <= k < |post.log| ==>
          post.log[k] < |post.ids| && Said(past, post.ids[post.log[k]], post.chan.sent[k]))
  }

  ghost predicate Sourced(s: C.State, past: seq<C.Step>) {
    forall p :: p in s.posts ==> PostSourced(s.posts[p], past)
  }

  lemma StillSaid(past: seq<C.Step>, step: C.Step, id: string, msg: RawMessage)
    requires Said(past, id, msg)
    ensures Said(past + [step], id, msg)
  {
    hide Says;
    var q :| 0 <= q < |past| && Says(past[q], id, msg);
    assert (past + [step])[q] == past[q];
  }

  lemma SaidNow(past: seq<C.Step>, step: C.Step, id: string, msg: RawMessage)
    requires msg.id == Some(id) && Says(step, id, msg)
    ensures Said(past + [step], id, msg)
  {
    assert (past + [step])[|past|] == step;
  }

  lemma PostStillSourced(post: C.Post, past: seq<C.Step>, step: C.Step)
    requires PostSourced(post, past)
    ensures PostSourced(post, past + [step])
  {
    hide Said;
    forall id, msg | Said(past, id, msg) ensures Said(past + [step], id, msg) {
      StillSaid(past, step, id, msg);
    }
  }

  lemma StillSourced(s: C.State, past: seq<C.Step>, step: C.Step)
    requires Sourced(s, past)
    ensures Sourced(s, past + [step])
  {
    hide PostSourced;
    forall p | p in s.posts ensures PostSourced(s.posts[p], past + [step]) {
      PostStillSourced(s.posts[p], past, step);
    }
  }

  lemma RemovedSourced(s: C.State, past: seq<C.Step>, id: string, st: C.SlotStatus)
    requires C.Inv(s) && Sourced(s, past) && id in s.pending
    requires st.Taken? ==> Said(past, id, st.msg)
    ensures Sourced(C.Removed(s, id, st), past)
  {
    hide C.PostOk, Said;
  }

  lemma EnterSourced(s: C.State, past: seq<C.Step>, p: C.PostId)
    requires C.Shape(s) && C.Enabled(s, C.Register(p)) && Sourced(s, past)
    ensures Sourced(C.Enter(s, p), past)
  {
    hide Said;
  }

  lemma RegisterSourced(s: C.State, past: seq<C.Step>, p: C.PostId)
    requires C.Inv(s) && C.Enabled(s, C.Register(p)) && Sourced(s, past)
    ensures Sourced(C.RegisterStep(s, p), past)
  {
    hide C.PostOk, C.Tabled, Sourced;
    var id := s.posts[p].ids[s.posts[p].registered];
    if id in s.pending {
      RemovedSourced(s, past, id, C.Displaced);
      EnterSourced(C.Removed(s, id, C.Displaced), past, p);
    } else {
      EnterSourced(s, past, p);
    }
  }

  lemma HandSourced(s: C.State, past: seq<C.Step>, p: C.PostId, i: nat)
    requires C.Shape(s) && C.Enabled(s, C.Hand(p, i)) && Sourced(s, past)
    ensures Sourced(C.HandStep(s, p, i), past)
  {
    hide Said;
  }

  lemma FailSourced(s: C.State, past: seq<C.Step>, code: int, message: string)
    requires C.Shape(s) && Sourced(s, past)
    ensures Sourced(C.FailStep(s, code, message), past + [C.Fail(code, message)])
  {
    hide Said, C.Entered;
    StillSourced(s, past, C.Fail(code, message));
    forall p, i | p in s.posts && 0 <= i < |s.posts[p].ids|
      ensures var id := s.posts[p].ids[i];
        Said(past + [C.Fail(code, message)], id, ErrorResponse(id, code, message))
    {
      var id := s.posts[p].ids[i];
      SaidNow(past, C.Fail(code, message), id, ErrorResponse(id, code, message));
    }
  }

  lemma OpenSourced(s: C.State, past: seq<C.Step>, p: C.PostId, ids: seq<string>)
    requires Sourced(s, past)
    ensures Sourced(C.OpenStep(s, p, ids), past)
  {
    hide Said;
  }

  lemma ChannelSourced(s: C.State, past: seq<C.Step>, p: C.PostId, ch: Chan<RawMessage>)
    requires Sourced(s, past) && p in s.posts && ch.sent == s.posts[p].chan.sent
    ensures Sourced(s.(posts := s.posts[p := s.posts[p].(chan := ch)]), past)
  {
    hide Said;
  }

  lemma StepSourced(s: C.State, past: seq<C.Step>, step: C.Step)
    requires C.Inv(s) && C.Enabled(s, step) && Sourced(s, past)
    ensures Sourced(C.Apply(s, step), past + [step])
  {
    hide Sourced, Said, C.Tabled, C.PostOk, C.RegisterStep, C.Removed, C.HandStep, C.OpenStep, C.FailStep;
    StillSourced(s, past, step);
    match step
    case Open(p, ids) => OpenSourced(s, past + [step], p, ids);
    case Register(p) => RegisterSourced(s, past + [step], p);
    case Take(msg) =>
      if msg.id.value in s.pending {
        SaidNow(past, step, msg.id.value, msg);
        RemovedSourced(s, past + [step], msg.id.value, C.Taken(msg));
      }
    case Hand(p, i) => HandSourced(s, past + [step], p, i);
    case Fail(code, message) => FailSourced(s, past, code, message);
    case Receiving(p) => ChannelSourced(s, past + [step], p, Receive(s.posts[p].chan));
    case HangUp(p) => ChannelSourced(s, past + [step], p, s.posts[p].chan.(open := false));
  }

  lemma {:induction false} RunSourced(s: C.State, past: seq<C.Step>, steps: seq<C.Step>)
    requires C.Inv(s) && Sourced(s, past) && C.Run(s, steps).Some?
    ensures Sourced(C.Run(s, steps).value, past + steps)
    decreases |steps|
  {
    hide C.Apply, C.Tabled, C.PostOk, Sourced;
    if steps == [] {
      assert past + steps == past;
    } else {
      C.StepKeeps(s, steps[0]);
      StepSourced(s, past, steps[0]);
      RunSourced(C.Apply(s, steps[0]), past + [steps[0]], steps[1..]);
      assert past + [steps[0]] + steps[1..] == past + steps;
    }
  }

  /** Over all runs: every message sent to a POST is what the child answered under the id
      of the registration, or the error of the child's failure under that id. */
  lemma SentWasSaid(steps: seq<C.Step>, p: C.PostId)
    requires C.Run(C.INIT, steps).Some? && p in C.Run(C.INIT, steps).value.posts
    ensures var post := C.Run(C.INIT, steps).value.posts[p];
      && |post.log| == |post.chan.sent|
      && forall k :: 0 <= k < |post.log| ==>
           post.log[k] < |post.ids| && Said(steps, post.ids[post.log[k]], post.chan.sent[k])
  {
    hide C.Run, Said;
    C.NothingYet();
    assert [] + steps == steps;
    RunSourced(C.INIT, [], steps);
  }

  // ── The body ──────────────────────────────────────────────────────────

  /** The messages polled, in order. */
  function Polled(polls: seq<Poll>): seq<RawMessage> {
    if polls == [] then []
    else
      var n := |polls| - 1;
      Polled(polls[..n]) + if polls[n].Got? then [polls[n].msg] else []
  }

  lemma {:induction false} PolledAt(polls: seq<Poll>, i: nat) returns (j: nat)
    requires i < |polls| && polls[i].Got?
    ensures j < |Polled(polls)| && Polled(polls)[j] == polls[i].msg
  {
    var n := |polls| - 1;
    if i == n {
      j := |Polled(polls[..n])|;
    } else {
      j := PolledAt(polls[..n], i);
    }
  }

  /** A request is answered by what was polled under its id, when it is the first with that
      id and something was. */
  ghost predicate Answerable(ids: seq<string>, polls: seq<Poll>, k: nat)
    requires k < |ids|
  {
    && ids[k] !in ids[..k]
    && exists i :: 0 <= i < Used(Elements(ids), polls) && ids[k] in Heard(polls[i])
  }

  lemma PolledEvent(ids: seq<string>, polls: seq<Poll>, k: nat) returns (from: Option<nat>)
    requires k < |ids|
    ensures from.Some? <==> Answerable(ids, polls, k)
    ensures match from
      case None => BodyEvent(ids, polls, k) == ErrorResponse(ids[k], INTERNAL_ERROR, "Internal error")
      case Some(j) =>
        && j < |Polled(polls)|
        && BodyEvent(ids, polls, k) == Polled(polls)[j] && Polled(polls)[j].id == Some(ids[k])
  {
    hide Used, Polled, Answers;
    var n := Used(Elements(ids), polls);
    AnswersAreLast(polls[..n], ids[k]);
    if Answerable(ids, polls, k) {
      var h :| 0 <= h < n && ids[k] in Heard(polls[h]);
      assert polls[..n][h] == polls[h];
      var i :| 0 <= i < n && ids[k] in Heard(polls[..n][i]) && Answers(polls[..n])[ids[k]] == polls[..n][i].msg;
      var j := PolledAt(polls, i);
      from := Some(j);
    } else {
      from := None;
      if ids[k] in Answers(polls[..n]) {
        var i :| 0 <= i < n && ids[k] in Heard(polls[..n][i]);
        assert ids[k] in Heard(polls[i]);
      }
    }
  }

  /** Over all runs: a POST that polls its own channel makes each event of its body from a
      message that the child said under that id and that answers one of the POST's own
      registrations of it, no message twice; the other events are internal errors, and
      which they are is known exactly. */
  lemma BodyAnswersItsRegistrations(steps: seq<C.Step>, p: C.PostId, polls: seq<Poll>)
    returns (from: seq<Option<nat>>)
    requires C.Run(C.INIT, steps).Some? && p in C.Run(C.INIT, steps).value.posts
    requires Polled(polls) <= C.Run(C.INIT, steps).value.posts[p].chan.sent
    ensures var post := C.Run(C.INIT, steps).value.posts[p];
      && |from| == |post.ids| && |post.log| == |post.chan.sent| && Distinct(post.log)
      && (forall k :: 0 <= k < |from| ==> (from[k].Some? <==> Answerable(post.ids, polls, k)))
      && (forall k :: 0 <= k < |from| ==> OwnEvent(steps, post, from[k], k, BodyEvent(post.ids, polls, k)))
      && (forall k, l :: 0 <= k < l < |from| && from[k].Some? ==> from[k] != from[l])
  {
    hide C.Run, C.Tabled, C.PostOk, Said, Polled, BodyEvent, Answerable;
    var post := C.Run(C.INIT, steps).value.posts[p];
    C.AnsweredAtMostOnce(steps, p);
    SentWasSaid(steps, p);
    from := [];
    while |from| < |post.ids|
      invariant |from| <= |post.ids|
      invariant forall k :: 0 <= k < |from| ==> (from[k].Some? <==> Answerable(post.ids, polls, k))
      invariant forall k :: 0 <= k < |from| ==>
        OwnEvent(steps, post, from[k], k, BodyEvent(post.ids, polls, k))
    {
      var one := PolledEvent(post.ids, polls, |from|);
      from := from + [one];
    }
    EachOnce(steps, post, polls, from);
  }

  /** Event `k` of the body comes from message `from` of the channel, or is an error. */
  ghost predicate OwnEvent(steps: seq<C.Step>, post: C.Post, from: Option<nat>, k: nat, event: RawMessage)
    requires k < |post.ids|
  {
    match from
    case None => event == ErrorResponse(post.ids[k], INTERNAL_ERROR, "Internal error")
    case Some(j) =>
      && j < |post.log| == |post.chan.sent| && event == post.chan.sent[j]
      && post.log[j] < |post.ids| && post.ids[post.log[j]] == post.ids[k]
      && Said(steps, post.ids[k], event)
  }

  lemma EachOnce(steps: seq<C.Step>, post: C.Post, polls: seq<Poll>, from: seq<Option<nat>>)
    requires |from| == |post.ids|
    requires forall k :: 0 <= k < |from| ==> (from[k].Some? <==> Answerable(post.ids, polls, k))
    requires forall k :: 0 <= k < |from| ==> OwnEvent(steps, post, from[k], k, BodyEvent(post.ids, polls, k))
    ensures forall k, l :: 0 <= k < l < |from| && from[k].Some? ==> from[k] != from[l]
  {
    hide Said, BodyEvent;
    forall k, l | 0 <= k < l < |from| && from[k].Some? && from[l].Some? ensures from[k] != from[l] {
      assert Answerable(post.ids, polls, l);
      assert post.ids[..l][k] == post.ids[k];
    }
  }
}
