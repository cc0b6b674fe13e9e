/** Responses of a session's child find the POSTs that wait for them. Every step is one
    section under the lock of the pending table, or one channel operation: registering is
    one section per id, and a response is taken out of the table before it is sent on. */
module Correlation {
  import opened Wrappers
  import opened Seqs
  import opened JsonRpc
  import opened Channels

  const RESPONSE_CHANNEL_CAP: nat := 64

  type PostId = nat

  /** The registration of one of a POST's request ids. */
  datatype Slot = Slot(post: PostId, index: nat)

  datatype SlotStatus =
    | Unregistered
    | Waiting
    | Displaced               // another registration took its place in the table
    | Taken(msg: RawMessage)  // out of the table, its message not sent yet
    | Answered
    | Lost                    // its message was refused by the channel

  datatype Post = Post(
    ids: seq<string>,
    chan: Chan<RawMessage>,
    registered: nat,
    status: seq<SlotStatus>, // history: what became of each registration
    log: seq<nat>)           // history: which registration each message answers

  datatype State = State(posts: map<PostId, Post>, pending: map<string, Slot>)

  const INIT: State := State(map[], map[])

  datatype Step =
    | Open(p: PostId, ids: seq<string>)
    | Register(p: PostId)
    | Take(msg: RawMessage)
    | Hand(p: PostId, index: nat)
    | Fail(code: int, message: string)
    | Receiving(p: PostId)
    | HangUp(p: PostId)

  ghost predicate Shape(s: State) {
    && (forall p :: p in s.posts ==>
          s.posts[p].registered <= |s.posts[p].ids| && |s.posts[p].status| == |s.posts[p].ids|)
    && (forall id :: id in s.pending ==>
          s.pending[id].post in s.posts && s.pending[id].index < |s.posts[s.pending[id].post].ids|)
  }

  /** A POST registers all its ids before it looks for answers; if its session is gone by
      then it registers none and gives up. */
  predicate Enabled(s: State, step: Step) {
    match step
    case Open(p, _) => p !in s.posts
    case Register(p) => p in s.posts && s.posts[p].registered < |s.posts[p].ids|
    case Take(msg) => msg.id.Some?
    case Hand(p, i) => p in s.posts && i < |s.posts[p].status| && s.posts[p].status[i].Taken?
    case Fail(_, _) => true
    case Receiving(p) => p in s.posts && s.posts[p].registered == |s.posts[p].ids|
    case HangUp(p) => p in s.posts && s.posts[p].registered in {0, |s.posts[p].ids|}
  }

  function OpenStep(s: State, p: PostId, ids: seq<string>): State {
    s.(posts := s.posts[p := Post(ids, NewChan(), 0, seq(|ids|, _ => Unregistered), [])])
  }

  /** Take the entry under `id` out of the table, and note what becomes of it. */
  function Removed(s: State, id: string, st: SlotStatus): (t: State)
    requires Shape(s) && id in s.pending
    ensures Shape(t)
  {
    var slot := s.pending[id];
    var post := s.posts[slot.post];
    State(s.posts[slot.post := post.(status := post.status[slot.index := st])], s.pending - {id})
  }

  /** Enter the next id of `p`; an entry under the same id is displaced. */
  function RegisterStep(s: State, p: PostId): (t: State)
    requires Shape(s) && Enabled(s, Register(p))
    ensures Shape(t)
  {
    var id := s.posts[p].ids[s.posts[p].registered];
    Enter(if id in s.pending then Removed(s, id, Displaced) else s, p)
  }

  function Enter(s: State, p: PostId): (t: State)
    requires Shape(s) && Enabled(s, Register(p))
    ensures Shape(t)
  {
    var post := s.posts[p];
    var i := post.registered;
    State(s.posts[p := post.(registered := i + 1, status := post.status[i := Waiting])],
          s.pending[post.ids[i] := Slot(p, i)])
  }

  function TakeStep(s: State, msg: RawMessage): (t: State)
    requires Shape(s) && msg.id.Some?
    ensures Shape(t)
  {
    if msg.id.value in s.pending then Removed(s, msg.id.value, Taken(msg)) else s
  }

  function Handed(post: Post, i: nat): Post
    requires i < |post.status| && post.status[i].Taken?
  {
    if TrySendResult(post.chan, RESPONSE_CHANNEL_CAP).Sent? then
      post.(chan := TrySend(post.chan, post.status[i].msg, RESPONSE_CHANNEL_CAP),
            status := post.status[i := Answered],
            log := post.log + [i])
    else
      post.(status := post.status[i := Lost])
  }

  function HandStep(s: State, p: PostId, i: nat): State
    requires Enabled(s, Hand(p, i))
  {
    s.(posts := s.posts[p := Handed(s.posts[p], i)])
  }

  /** Whether registration `i` of `p` is in the table. */
  predicate Entered(s: State, p: PostId, i: nat)
    requires p in s.posts && i < |s.posts[p].ids|
  {
    s.posts[p].ids[i] in s.pending && s.pending[s.posts[p].ids[i]] == Slot(p, i)
  }

  /** The child is gone: everyone in the table is to have an error. */
  function Failed(s: State, p: PostId, code: int, message: string): Post
    requires Shape(s) && p in s.posts
  {
    var post := s.posts[p];
    post.(status := seq(|post.ids|, i requires 0 <= i < |post.ids| =>
      if Entered(s, p, i) then Taken(ErrorResponse(post.ids[i], code, message)) else post.status[i]))
  }

  /** The whole table is taken out at once. */
  function FailStep(s: State, code: int, message: string): (t: State)
    requires Shape(s)
    ensures Shape(t)
  {
    State(map p | p in s.posts :: Failed(s, p, code, message), map[])
  }

  function Apply(s: State, step: Step): State
    requires Shape(s) && Enabled(s, step)
  {
    match step
    case Open(p, ids) => OpenStep(s, p, ids)
    case Register(p) => RegisterStep(s, p)
    case Take(msg) => TakeStep(s, msg)
    case Hand(p, i) => HandStep(s, p, i)
    case Fail(code, message) => FailStep(s, code, message)
    case Receiving(p) => s.(posts := s.posts[p := s.posts[p].(chan := Receive(s.posts[p].chan))])
    case HangUp(p) => s.(posts := s.posts[p := s.posts[p].(chan := s.posts[p].chan.(open := false))])
  }

  lemma ShapeKept(s: State, step: Step)
    requires Shape(s) && Enabled(s, step)
    ensures Shape(Apply(s, step))
  {
    hide Removed, RegisterStep, TakeStep, FailStep;
  }

  function Run(s: State, steps: seq<Step>): Option<State>
    requires Shape(s)
    decreases |steps|
  {
    if steps == [] then Some(s)
    else if !Enabled(s, steps[0]) then None
    else ShapeKept(s, steps[0]); Run(Apply(s, steps[0]), steps[1..])
  }

  // ── The invariant ─────────────────────────────────────────────────────

  /** The table holds exactly the waiting registrations, each under its id. */
  ghost predicate Tabled(s: State)
    requires Shape(s)
  {
    && (forall id :: id in s.pending ==>
          s.posts[s.pending[id].post].ids[s.pending[id].index] == id)
    && (forall p, i :: p in s.posts && 0 <= i < |s.posts[p].ids| ==>
          (s.posts[p].status[i].Waiting? <==> Entered(s, p, i)))
  }

  /** A POST's channel holds one message for each registration that was answered, under
      the id of that registration. */
  ghost predicate PostOk(post: Post) {
    && post.registered <= |post.ids| == |post.status|
    && post.chan.Valid()
    && |post.log| == |post.chan.sent| && Distinct(post.log)
    && (forall i :: 0 <= i < |post.ids| ==>
          && (post.status[i].Unregistered? <==> i >= post.registered)
          && (post.status[i].Taken? ==> post.status[i].msg.id == Some(post.ids[i])))
    && (forall k :: 0 <= k < |post.log| ==>
          && post.log[k] < |post.ids|
          && post.status[post.log[k]].Answered?
          && post.chan.sent[k].id == Some(post.ids[post.log[k]]))
  }

  ghost predicate Inv(s: State) {
    Shape(s) && Tabled(s) && forall p :: p in s.posts ==> PostOk(s.posts[p])
  }

  /** Changing the status of a registration that was not answered. */
  lemma MarkKeeps(post: Post, i: nat, st: SlotStatus)
    requires PostOk(post) && i < |post.ids| && !post.status[i].Answered?
    requires st.Unregistered? <==> i >= post.registered
    requires st.Taken? ==> st.msg.id == Some(post.ids[i])
    ensures PostOk(post.(status := post.status[i := st]))
  {
  }

  lemma EnterKeepsPost(post: Post)
    requires PostOk(post) && post.registered < |post.ids|
    ensures PostOk(post.(registered := post.registered + 1, status := post.status[post.registered := Waiting]))
  {
  }

  lemma RemovedKeeps(s: State, id: string, st: SlotStatus)
    requires Inv(s) && id in s.pending
    requires st.Displaced? || (st.Taken? && st.msg.id == Some(id))
    ensures Inv(Removed(s, id, st))
  {
    hide PostOk;
    var slot := s.pending[id];
    assert Entered(s, slot.post, slot.index);
    StatusKnown(s.posts[slot.post], slot.index);
    MarkKeeps(s.posts[slot.post], slot.index, st);
    RemovedKeepsTable(s, id, st);
  }

  lemma StatusKnown(post: Post, i: nat)
    requires PostOk(post) && i < |post.ids|
    ensures i < |post.status| && (post.status[i].Unregistered? <==> i >= post.registered)
  {
  }

  lemma RemovedKeepsTable(s: State, id: string, st: SlotStatus)
    requires Shape(s) && Tabled(s) && id in s.pending && !st.Waiting?
    ensures Tabled(Removed(s, id, st))
  {
  }

  lemma EnterKeepsTable(s: State, p: PostId)
    requires Shape(s) && Tabled(s) && Enabled(s, Register(p))
    requires s.posts[p].ids[s.posts[p].registered] !in s.pending
    ensures Tabled(Enter(s, p))
  {
    var t, i := Enter(s, p), s.posts[p].registered;
    forall q, j | q in t.posts && 0 <= j < |t.posts[q].ids|
      ensures t.posts[q].status[j].Waiting? <==> Entered(t, q, j)
    {
      if q != p || j != i {
        assert s.posts[q].status[j].Waiting? <==> Entered(s, q, j);
      }
    }
  }

  lemma EnterKeeps(s: State, p: PostId)
    requires Inv(s) && Enabled(s, Register(p)) && s.posts[p].ids[s.posts[p].registered] !in s.pending
    ensures Inv(Enter(s, p))
  {
    hide PostOk, Tabled;
    EnterKeepsTable(s, p);
    EnterKeepsPost(s.posts[p]);
  }

  lemma RegisterKeeps(s: State, p: PostId)
    requires Inv(s) && Enabled(s, Register(p))
    ensures Inv(RegisterStep(s, p))
  {
    hide PostOk, Tabled;
    var id := s.posts[p].ids[s.posts[p].registered];
    if id in s.pending {
      RemovedKeeps(s, id, Displaced);
      EnterKeeps(Removed(s, id, Displaced), p);
    } else {
      EnterKeeps(s, p);
    }
  }

  lemma HandKeepsPost(post: Post, i: nat)
    requires PostOk(post) && i < |post.ids| && post.status[i].Taken?
    ensures PostOk(Handed(post, i))
  {
    MarkKeeps(post, i, Lost);
    assert forall k :: 0 <= k < |post.log| ==> post.log[k] != i;
  }

  lemma HandKeeps(s: State, p: PostId, i: nat)
    requires Inv(s) && Enabled(s, Hand(p, i))
    ensures Inv(HandStep(s, p, i))
  {
    hide PostOk, TrySend, TrySendResult;
    var post := s.posts[p];
    StatusKnown(post, i);
    HandKeepsPost(post, i);
    var t := HandStep(s, p, i);
    assert forall q, j :: q in s.posts && 0 <= j < |s.posts[q].ids| ==> (Entered(t, q, j) <==> Entered(s, q, j));
  }

  lemma FailedKeeps(s: State, p: PostId, code: int, message: string)
    requires Shape(s) && Tabled(s) && p in s.posts && PostOk(s.posts[p])
    ensures PostOk(Failed(s, p, code, message))
    ensures forall i :: 0 <= i < |s.posts[p].ids| ==> !Failed(s, p, code, message).status[i].Waiting?
  {
  }

  lemma FailKeeps(s: State, code: int, message: string)
    requires Inv(s)
    ensures Inv(FailStep(s, code, message))
  {
    hide PostOk, Failed;
    var t := FailStep(s, code, message);
    forall p | p in s.posts
      ensures PostOk(t.posts[p]) && |t.posts[p].status| == |t.posts[p].ids|
      ensures forall i :: 0 <= i < |t.posts[p].ids| ==> !t.posts[p].status[i].Waiting?
    {
      FailedKeeps(s, p, code, message);
      FailedIds(s, p, code, message);
    }
  }

  lemma FailedIds(s: State, p: PostId, code: int, message: string)
    requires Shape(s) && p in s.posts
    ensures Failed(s, p, code, message).ids == s.posts[p].ids
    ensures |Failed(s, p, code, message).status| == |s.posts[p].ids|
  {
  }

  lemma OpenKeeps(s: State, p: PostId, ids: seq<string>)
    requires Inv(s) && p !in s.posts
    ensures Inv(OpenStep(s, p, ids))
  {
    hide PostOk;
    var t := OpenStep(s, p, ids);
    NewPostOk(ids);
    assert forall q, j :: q in s.posts && 0 <= j < |s.posts[q].ids| ==> (Entered(t, q, j) <==> Entered(s, q, j));
  }

  lemma NewPostOk(ids: seq<string>)
    ensures PostOk(Post(ids, NewChan(), 0, seq(|ids|, _ => Unregistered), []))
  {
  }

  lemma ChannelKeeps(s: State, p: PostId, ch: Chan<RawMessage>)
    requires Inv(s) && p in s.posts && ch in [Receive(s.posts[p].chan), s.posts[p].chan.(open := false)]
    ensures Inv(s.(posts := s.posts[p := s.posts[p].(chan := ch)]))
  {
    hide PostOk;
    ChannelKeepsPost(s.posts[p], ch);
    var t := s.(posts := s.posts[p := s.posts[p].(chan := ch)]);
    assert forall q, j :: q in s.posts && 0 <= j < |s.posts[q].ids| ==> (Entered(t, q, j) <==> Entered(s, q, j));
  }

  lemma ChannelKeepsPost(post: Post, ch: Chan<RawMessage>)
    requires PostOk(post) && ch in [Receive(post.chan), post.chan.(open := false)]
    ensures PostOk(post.(chan := ch))
  {
  }

  lemma {:induction false} StepKeeps(s: State, step: Step)
    requires Inv(s) && Enabled(s, step)
    ensures Inv(Apply(s, step))
  {
    hide Tabled, PostOk, OpenStep, RegisterStep, Removed, HandStep, FailStep, Receive;
    match step
    case Open(p, ids) => OpenKeeps(s, p, ids);
    case Register(p) => RegisterKeeps(s, p);
    case Take(msg) =>
      if msg.id.value in s.pending {
        RemovedKeeps(s, msg.id.value, Taken(msg));
      }
    case Hand(p, i) => HandKeeps(s, p, i);
    case Fail(code, message) => FailKeeps(s, code, message);
    case Receiving(p) => ChannelKeeps(s, p, Receive(s.posts[p].chan));
    case HangUp(p) => ChannelKeeps(s, p, s.posts[p].chan.(open := false));
  }

  lemma {:induction false} RunKeeps(s: State, steps: seq<Step>)
    requires Inv(s) && Run(s, steps).Some?
    ensures Inv(Run(s, steps).value)
    decreases |steps|
  {
    hide Apply, Tabled, PostOk;
    if steps == [] {
    } else {
      StepKeeps(s, steps[0]);
      RunKeeps(Apply(s, steps[0]), steps[1..]);
    }
  }

  lemma Reachable(steps: seq<Step>)
    requires Run(INIT, steps).Some?
    ensures Inv(Run(INIT, steps).value)
  {
    hide Run;
    assert Inv(INIT);
    RunKeeps(INIT, steps);
  }

  // ── Results ───────────────────────────────────────────────────────────

  /** Over all runs: what a POST receives answers its registrations, each at most once and
      under its id; so it is never more than were registered. */
  lemma AnsweredAtMostOnce(steps: seq<Step>, p: PostId)
    requires Run(INIT, steps).Some? && p in Run(INIT, steps).value.posts
    ensures var post := Run(INIT, steps).value.posts[p];
      && |post.log| == |post.chan.sent| && Distinct(post.log)
      && (forall k :: 0 <= k < |post.log| ==>
            && post.log[k] < post.registered <= |post.ids|
            && post.chan.sent[k].id == Some(post.ids[post.log[k]]))
      && |post.chan.sent| <= post.registered
  {
    hide Run, Tabled;
    Reachable(steps);
    var post := Run(INIT, steps).value.posts[p];
    assert PostOk(post);
    DistinctBelow(post.log, post.registered);
  }

  /** A POST with at most 64 request ids never has a response refused because its channel
      is full: a refusal means that the POST is gone. */
  lemma NeverFull(steps: seq<Step>, p: PostId, i: nat)
    requires Run(INIT, steps).Some?
    requires var s := Run(INIT, steps).value;
      Enabled(s, Hand(p, i)) && |s.posts[p].ids| <= RESPONSE_CHANNEL_CAP
    ensures !TrySendResult(Run(INIT, steps).value.posts[p].chan, RESPONSE_CHANNEL_CAP).Full?
  {
    hide Run, Tabled, PostOk;
    Reachable(steps);
    RoomLeft(Run(INIT, steps).value.posts[p], i);
  }

  /** An answer under way is one that the channel does not hold yet. */
  lemma RoomLeft(post: Post, i: nat)
    requires PostOk(post) && i < |post.status| && post.status[i].Taken? && |post.ids| <= RESPONSE_CHANNEL_CAP
    ensures !TrySendResult(post.chan, RESPONSE_CHANNEL_CAP).Full?
  {
    var more := post.log + [i];
    assert forall k :: 0 <= k < |post.log| ==> post.log[k] != i;
    DistinctBelow(more, |post.ids|);
  }

  // ── Runs of one POST ──────────────────────────────────────────────────

  lemma {:induction false} RunAppend(s: State, steps: seq<Step>, step: Step)
    requires Shape(s) && Run(s, steps).Some?
    requires Shape(Run(s, steps).value) && Enabled(Run(s, steps).value, step)
    ensures Run(s, steps + [step]) == Some(Apply(Run(s, steps).value, step))
    decreases |steps|
  {
    hide Apply;
    if steps == [] {
      assert steps + [step] == [step] && [step][1..] == [];
      ShapeKept(s, step);
    } else {
      ShapeKept(s, steps[0]);
      RunAppend(Apply(s, steps[0]), steps[1..], step);
      assert (steps + [step])[0] == steps[0] && (steps + [step])[1..] == steps[1..] + [step];
    }
  }

  function Reply(id: string): RawMessage {
    RawMessage(Some(id), None, None, Some(Raw("{}")), None)
  }

  /** Post 0 is the only one; it has these ids and is there to receive. */
  ghost predicate Alone(s: State, ids: seq<string>) {
    Inv(s) && s.posts.Keys == {0} && s.posts[0].ids == ids && s.posts[0].chan.open
  }

  /** The run `steps` leads to `s`. */
  ghost predicate LeadsTo(steps: seq<Step>, s: State) {
    Run(INIT, steps) == Some(s)
  }

  lemma OnStep(steps: seq<Step>, s: State, step: Step)
    requires LeadsTo(steps, s) && Inv(s) && Enabled(s, step)
    ensures LeadsTo(steps + [step], Apply(s, step)) && Inv(Apply(s, step))
  {
    hide Run, Apply, Tabled, PostOk;
    RunAppend(INIT, steps, step);
    StepKeeps(s, step);
  }

  lemma Opens(ids: seq<string>) returns (steps: seq<Step>, s: State)
    ensures LeadsTo(steps, s) && Alone(s, ids)
    ensures s.pending == map[] && s.posts[0].registered == 0 && s.posts[0].chan == NewChan()
  {
    hide Run, Tabled, PostOk;
    NothingYet();
    OnStep([], INIT, Open(0, ids));
    steps, s := [] + [Open(0, ids)], Apply(INIT, Open(0, ids));
  }

  lemma NothingYet()
    ensures LeadsTo([], INIT) && Inv(INIT)
  {
  }

  /** The POST registers its next id. */
  lemma Registers(steps: seq<Step>, s: State, ids: seq<string>) returns (more: seq<Step>, t: State)
    requires LeadsTo(steps, s) && Alone(s, ids) && s.posts[0].registered < |ids|
    ensures var i := s.posts[0].registered;
      && LeadsTo(more, t) && Alone(t, ids)
      && t.posts[0].registered == i + 1 && t.posts[0].chan == s.posts[0].chan
      && t.pending == s.pending[ids[i] := Slot(0, i)]
  {
    hide LeadsTo, Tabled, PostOk;
    OnStep(steps, s, Register(0));
    more, t := steps + [Register(0)], Apply(s, Register(0));
  }

  /** The relay takes the entry under `id` out; its answer is under way. */
  lemma Takes(steps: seq<Step>, s: State, ids: seq<string>, id: string) returns (more: seq<Step>, t: State)
    requires LeadsTo(steps, s) && Alone(s, ids) && id in s.pending
    ensures LeadsTo(more, t) && Alone(t, ids)
    ensures t.posts[0].registered == s.posts[0].registered && t.posts[0].chan == s.posts[0].chan
    ensures t.pending == s.pending - {id}
    ensures var i := s.pending[id].index; i < |t.posts[0].status| && t.posts[0].status[i] == Taken(Reply(id))
  {
    hide LeadsTo, Tabled, PostOk;
    OnStep(steps, s, Take(Reply(id)));
    more, t := steps + [Take(Reply(id))], Apply(s, Take(Reply(id)));
  }

  /** A waiting id is answered, if there is room. */
  lemma Answers(steps: seq<Step>, s: State, ids: seq<string>, id: string) returns (more: seq<Step>, t: State)
    requires LeadsTo(steps, s) && Alone(s, ids) && id in s.pending
    requires s.posts[0].chan.Waiting() < RESPONSE_CHANNEL_CAP
    ensures LeadsTo(more, t) && Alone(t, ids)
    ensures t.posts[0].registered == s.posts[0].registered && t.pending == s.pending - {id}
    ensures t.posts[0].chan == s.posts[0].chan.(sent := s.posts[0].chan.sent + [Reply(id)])
  {
    hide LeadsTo, Tabled, PostOk;
    var first, u := Takes(steps, s, ids, id);
    var hand := Hand(0, s.pending[id].index);
    OnStep(first, u, hand);
    more, t := first + [hand], Apply(u, hand);
  }

  /** The POST, having registered everything, receives all that waits. */
  lemma {:induction false} Receives(steps: seq<Step>, s: State, ids: seq<string>) returns (more: seq<Step>, t: State)
    requires LeadsTo(steps, s) && Alone(s, ids) && s.posts[0].registered == |ids|
    ensures LeadsTo(more, t) && Alone(t, ids)
    ensures t.posts[0].registered == |ids| && t.pending == s.pending
    ensures t.posts[0].chan.sent == s.posts[0].chan.sent && t.posts[0].chan.Waiting() <= 0
    decreases s.posts[0].chan.Waiting()
  {
    hide LeadsTo, Tabled, PostOk;
    if s.posts[0].chan.Waiting() <= 0 {
      more, t := steps, s;
    } else {
      OnStep(steps, s, Receiving(0));
      more, t := Receives(steps + [Receiving(0)], Apply(s, Receiving(0)), ids);
    }
  }

  // ── More than 64 ids ──────────────────────────────────────────────────

  /** No send to a POST with these ids finds its channel full, in any run. */
  ghost predicate NeverFindsFull(ids: seq<string>) {
    forall steps, p, i :: Run(INIT, steps).Some? && Enabled(Run(INIT, steps).value, Hand(p, i))
      && Run(INIT, steps).value.posts[p].ids == ids
      ==> !TrySendResult(Run(INIT, steps).value.posts[p].chan, RESPONSE_CHANNEL_CAP).Full?
  }

  /** Each of the first `k` ids is answered as soon as it is registered. */
  lemma {:induction false} AnsweredAtOnce(ids: seq<string>, k: nat) returns (steps: seq<Step>, s: State)
    requires k <= |ids| && k <= RESPONSE_CHANNEL_CAP
    ensures LeadsTo(steps, s) && Alone(s, ids)
    ensures s.pending == map[] && s.posts[0].registered == k
    ensures |s.posts[0].chan.sent| == k && s.posts[0].chan.taken == 0
  {
    hide LeadsTo, Alone;
    if k == 0 {
      steps, s := Opens(ids);
      AlonePost(s, ids);
    } else {
      var before, t := AnsweredAtOnce(ids, k - 1);
      AlonePost(t, ids);
      var registered, u := Registers(before, t, ids);
      AlonePost(u, ids);
      steps, s := Answers(registered, u, ids, ids[k - 1]);
      AlonePost(s, ids);
    }
  }

  lemma AlonePost(s: State, ids: seq<string>)
    requires Alone(s, ids)
    ensures s.posts.Keys == {0} && s.posts[0].ids == ids && s.posts[0].chan.open
  {
  }

  /** Of more than 64 ids the first 64 may be answered before the POST, which is still
      registering, receives any: the next answer finds the channel full. */
  lemma TooManyIds(ids: seq<string>) returns (steps: seq<Step>)
    requires |ids| > RESPONSE_CHANNEL_CAP
    ensures Run(INIT, steps).Some? && Enabled(Run(INIT, steps).value, Hand(0, RESPONSE_CHANNEL_CAP))
    ensures var post := Run(INIT, steps).value.posts[0];
      post.ids == ids && TrySendResult(post.chan, RESPONSE_CHANNEL_CAP).Full?
  {
    hide Run, Inv;
    var k := RESPONSE_CHANNEL_CAP;
    var before, s := AnsweredAtOnce(ids, k);
    var registered, t := Registers(before, s, ids);
    var u;
    steps, u := Takes(registered, t, ids, ids[k]);
  }

  /** Exactly when no send can find the channel full: when the POST has at most 64 request
      ids, repeated ones counted each time. */
  lemma NeverFullIff(ids: seq<string>)
    ensures NeverFindsFull(ids) <==> |ids| <= RESPONSE_CHANNEL_CAP
  {
    hide Run;
    if |ids| <= RESPONSE_CHANNEL_CAP {
      forall steps, p, i | Run(INIT, steps).Some? && Enabled(Run(INIT, steps).value, Hand(p, i))
        && Run(INIT, steps).value.posts[p].ids == ids
        ensures !TrySendResult(Run(INIT, steps).value.posts[p].chan, RESPONSE_CHANNEL_CAP).Full?
      {
        NeverFull(steps, p, i);
      }
    } else {
      var steps := TooManyIds(ids);
      assert Enabled(Run(INIT, steps).value, Hand(0, RESPONSE_CHANNEL_CAP));
    }
  }

  /** So a single id, repeated often enough, fills the channel. */
  lemma OneIdFills(id: string) returns (ids: seq<string>)
    ensures |Elements(ids)| == 1 && !NeverFindsFull(ids)
  {
    ids := seq(RESPONSE_CHANNEL_CAP + 1, _ => id);
    assert Elements(ids) == {id} by {
      assert ids[0] == id;
    }
    NeverFullIff(ids);
  }

  // ── Repeated ids ──────────────────────────────────────────────────────

  /** A POST receives no more messages than it has distinct ids, in every run. */
  ghost predicate BoundedByDistinctIds(ids: seq<string>) {
    forall steps, p :: Run(INIT, steps).Some? && p in Run(INIT, steps).value.posts
      && Run(INIT, steps).value.posts[p].ids == ids
      ==> |Run(INIT, steps).value.posts[p].chan.sent| <= |Elements(ids)|
  }

  /** How many of the ids come again later. */
  function Repeats(ids: seq<string>): nat {
    if ids == [] then 0 else (if ids[0] in ids[1..] then 1 else 0) + Repeats(ids[1..])
  }

  lemma {:induction false} RepeatsCounted(ids: seq<string>)
    ensures Repeats(ids) == |ids| - |Elements(ids)|
  {
    if ids == [] {
      assert Elements(ids) == {};
    } else {
      RepeatsCounted(ids[1..]);
      if ids[0] in ids[1..] {
        assert Elements(ids) == Elements(ids[1..]);
      } else {
        assert Elements(ids) == Elements(ids[1..]) + {ids[0]};
      }
    }
  }

  /** Every id seen so far is waiting or comes again. */
  ghost predicate Kept(s: State, ids: seq<string>)
    requires 0 in s.posts && s.posts[0].registered <= |ids|
  {
    && s.pending.Keys <= Elements(ids)
    && forall i :: 0 <= i < s.posts[0].registered ==> ids[i] in s.pending || ids[i] in ids[s.posts[0].registered..]
  }

  /** Registering the rest of the ids, where those that come again are answered at once, as
      many as there is room for. */
  lemma {:induction false} RegistersRest(steps: seq<Step>, s: State, ids: seq<string>)
    returns (more: seq<Step>, t: State)
    requires LeadsTo(steps, s) && Alone(s, ids) && s.posts[0].registered <= |ids| && Kept(s, ids)
    requires s.posts[0].chan.taken == 0 && |s.posts[0].chan.sent| <= RESPONSE_CHANNEL_CAP
    ensures LeadsTo(more, t) && Alone(t, ids) && t.posts[0].registered == |ids| && t.pending.Keys == Elements(ids)
    ensures |t.posts[0].chan.sent|
            == Min(|s.posts[0].chan.sent| + Repeats(ids[s.posts[0].registered..]), RESPONSE_CHANNEL_CAP)
    decreases |ids| - s.posts[0].registered
  {
    hide LeadsTo, Alone, Kept, Repeats;
    AlonePost(s, ids);
    var i := s.posts[0].registered;
    if i == |ids| {
      KeptAtEnd(s, ids);
      more, t := steps, s;
    } else {
      RepeatsNext(ids, i);
      var next, u := Registers(steps, s, ids);
      AlonePost(u, ids);
      if ids[i] in ids[i + 1..] && |s.posts[0].chan.sent| < RESPONSE_CHANNEL_CAP {
        next, u := Answers(next, u, ids, ids[i]);
        AlonePost(u, ids);
      }
      StaysKept(s, u, ids);
      more, t := RegistersRest(next, u, ids);
    }
  }

  lemma KeptAtEnd(s: State, ids: seq<string>)
    requires 0 in s.posts && s.posts[0].registered == |ids| && Kept(s, ids)
    ensures s.pending.Keys == Elements(ids) && Repeats(ids[|ids|..]) == 0
  {
  }

  lemma RepeatsNext(ids: seq<string>, i: nat)
    requires i < |ids|
    ensures Repeats(ids[i..]) == (if ids[i] in ids[i + 1..] then 1 else 0) + Repeats(ids[i + 1..])
  {
    assert ids[i..][0] == ids[i] && ids[i..][1..] == ids[i + 1..];
  }

  lemma StaysKept(s: State, t: State, ids: seq<string>)
    requires 0 in s.posts && 0 in t.posts && s.posts[0].registered < |ids| && Kept(s, ids)
    requires var i := s.posts[0].registered;
      && t.posts[0].registered == i + 1
      && (t.pending.Keys == s.pending.Keys + {ids[i]}
          || (t.pending.Keys == s.pending.Keys + {ids[i]} - {ids[i]} && ids[i] in ids[i + 1..]))
    ensures Kept(t, ids)
  {
    var i := s.posts[0].registered;
    assert ids[i..] == [ids[i]] + ids[i + 1..];
  }

  /** All that wait are answered and received, one after the other. */
  lemma {:induction false} AnswersAll(steps: seq<Step>, s: State, ids: seq<string>) returns (more: seq<Step>, t: State)
    requires LeadsTo(steps, s) && Alone(s, ids) && s.posts[0].registered == |ids|
    ensures LeadsTo(more, t) && Alone(t, ids)
    ensures |t.posts[0].chan.sent| == |s.posts[0].chan.sent| + |s.pending|
    decreases |s.pending|
  {
    hide LeadsTo, Inv;
    if s.pending == map[] {
      more, t := steps, s;
    } else {
      var id :| id in s.pending;
      var received, u := Receives(steps, s, ids);
      var answered, v := Answers(received, u, ids, id);
      assert |s.pending - {id}| == |s.pending| - 1 by {
        assert (s.pending - {id}).Keys == s.pending.Keys - {id};
      }
      more, t := AnswersAll(answered, v, ids);
    }
  }

  /** Because each id is registered on its own, a POST can receive, besides one message for
      every distinct id, one for each repetition, up to 64 of these. */
  lemma RepeatsAnswered(ids: seq<string>) returns (steps: seq<Step>)
    ensures Run(INIT, steps).Some? && 0 in Run(INIT, steps).value.posts
    ensures var post := Run(INIT, steps).value.posts[0];
      && post.ids == ids
      && |post.chan.sent| == |Elements(ids)| + Min(Repeats(ids), RESPONSE_CHANNEL_CAP)
      && Repeats(ids) == |ids| - |Elements(ids)|
  {
    hide Run, Inv;
    RepeatsCounted(ids);
    var first, s := Opens(ids);
    assert ids[0..] == ids;
    var registered, t := RegistersRest(first, s, ids);
    var u;
    steps, u := AnswersAll(registered, t, ids);
    assert |t.pending| == |t.pending.Keys|;
  }

  /** Exactly when the number of distinct ids bounds what a POST can receive: when no id is
      repeated. */
  lemma DistinctIdsBoundIff(ids: seq<string>)
    ensures BoundedByDistinctIds(ids) <==> Distinct(ids)
  {
    hide Run;
    ElementsSize(ids);
    var steps := RepeatsAnswered(ids);
    if BoundedByDistinctIds(ids) {
      assert 0 in Run(INIT, steps).value.posts;
    }
    if Distinct(ids) {
      forall run, p | Run(INIT, run).Some? && p in Run(INIT, run).value.posts
        && Run(INIT, run).value.posts[p].ids == ids
        ensures |Run(INIT, run).value.posts[p].chan.sent| <= |Elements(ids)|
      {
        AnsweredAtMostOnce(run, p);
        RegisteredInRange(run, p);
      }
    }
  }

  lemma RegisteredInRange(steps: seq<Step>, p: PostId)
    requires Run(INIT, steps).Some? && p in Run(INIT, steps).value.posts
    ensures Run(INIT, steps).value.posts[p].registered <= |Run(INIT, steps).value.posts[p].ids|
  {
    hide Run, Tabled;
    Reachable(steps);
  }
}
