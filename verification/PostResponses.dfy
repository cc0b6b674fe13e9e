/** What a POST to the stateful gateway is answered: the loop that waits for responses, in
    whatever order they come and however many never do, and the body built from them. */
module PostResponses {
  import opened Wrappers
  import opened Seqs
  import opened JsonRpc
  import opened Delivery

  /** What the waiting loop finds when it looks: a message, an empty channel, the deadline
      passed, or no sender left. */
  datatype Poll = Got(msg: RawMessage) | Empty | Expired | HungUp

  // ── Specification ─────────────────────────────────────────────────────

  /** The last message polled under each id. */
  function Answers(polls: seq<Poll>): map<string, RawMessage> {
    if polls == [] then map[]
    else
      var n := |polls| - 1;
      var before := Answers(polls[..n]);
      if polls[n].Got? && polls[n].msg.id.Some? then before[polls[n].msg.id.value := polls[n].msg] else before
  }

  function Heard(poll: Poll): set<string> {
    if poll.Got? && poll.msg.id.Some? then {poll.msg.id.value} else {}
  }

  /** How many polls the loop makes use of when it waits for `ids`; polling that ends
      without a reason counts as the deadline. */
  function Used(ids: set<string>, polls: seq<Poll>): (n: nat)
    ensures n <= |polls|
  {
    if ids == {} || polls == [] || polls[0].Expired? || polls[0].HungUp? then 0
    else 1 + Used(ids - Heard(polls[0]), polls[1..])
  }

  /** Request `k` gets its response if one came and no earlier request had the same id;
      otherwise an error. */
  function EventFor(ids: seq<string>, responses: map<string, RawMessage>, k: nat): RawMessage
    requires k < |ids|
  {
    if ids[k] in responses && ids[k] !in ids[..k] then responses[ids[k]]
    else ErrorResponse(ids[k], INTERNAL_ERROR, "Internal error")
  }

  /** Event `k` of the body, when the loop polls this for the requests `ids`. */
  function BodyEvent(ids: seq<string>, polls: seq<Poll>, k: nat): RawMessage
    requires k < |ids|
  {
    EventFor(ids, Answers(polls[..Used(Elements(ids), polls)]), k)
  }

  function RequestIds(messages: seq<RawMessage>): seq<string> {
    if messages == [] then []
    else
      var n := |messages| - 1;
      RequestIds(messages[..n]) + if messages[n].IsRequest() then [messages[n].id.value] else []
  }

  // ── The loops ─────────────────────────────────────────────────────────

  method Collect(ids: seq<string>, polls: seq<Poll>) returns (responses: map<string, RawMessage>)
    ensures responses == Answers(polls[..Used(Elements(ids), polls)])
  {
    responses := map[];
    var pending := Elements(ids);
    var i := 0;
    ghost var used := Used(pending, polls);
    assert polls[0..] == polls && polls[..0] == [];
    while pending != {} && i < |polls| && !polls[i].Expired? && !polls[i].HungUp?
      invariant i <= used <= |polls|
      invariant i + Used(pending, polls[i..]) == used
      invariant responses == Answers(polls[..i])
    {
      assert polls[i..][0] == polls[i] && polls[i..][1..] == polls[i + 1..];
      assert polls[..i + 1][..i] == polls[..i];
      assert pending - {} == pending;
      if polls[i].Got? && polls[i].msg.id.Some? {
        var id := polls[i].msg.id.value;
        pending := pending - {id};
        responses := responses[id := polls[i].msg];
      }
      i := i + 1;
    }
  }

  method BuildBody(ids: seq<string>, received: map<string, RawMessage>) returns (body: seq<RawMessage>)
    ensures |body| == |ids|
    ensures forall k :: 0 <= k < |ids| ==> body[k] == EventFor(ids, received, k)
  {
    body := [];
    var responses := received;
    for k := 0 to |ids|
      invariant |body| == k
      invariant forall j :: 0 <= j < k ==> body[j] == EventFor(ids, received, j)
      invariant forall id :: id in responses <==> id in received && id !in ids[..k]
      invariant forall id :: id in responses ==> responses[id] == received[id]
    {
      assert ids[..k + 1] == ids[..k] + [ids[k]];
      if ids[k] in responses {
        body := body + [responses[ids[k]]];
        responses := responses - {ids[k]};
      } else {
        body := body + [ErrorResponse(ids[k], INTERNAL_ERROR, "Internal error")];
      }
    }
  }

  datatype PostReply = SessionNotFound | ChildDead | ChildFailed | Accepted | Events(body: seq<RawMessage>)

  method CollectIds(messages: seq<RawMessage>) returns (ids: seq<string>)
    ensures ids == RequestIds(messages)
  {
    ids := [];
    for k := 0 to |messages|
      invariant ids == RequestIds(messages[..k])
    {
      assert messages[..k + 1][..k] == messages[..k];
      if messages[k].IsRequest() {
        ids := ids + [messages[k].id.value];
      }
    }
    assert messages[..|messages|] == messages;
  }

  /** `found` says whether the session is there, `failed` whether its child has failed
      already, and `writes` how many messages the child takes before it fails. */
  method ForwardAndRespond(messages: seq<RawMessage>, found: bool, failed: bool, writes: nat, polls: seq<Poll>)
    returns (r: PostReply, written: seq<RawMessage>)
    ensures !found ==> r == SessionNotFound && written == []
    ensures found && failed ==> r == ChildDead && written == []
    ensures found && !failed ==>
      written <= messages && |written| == (if writes < |messages| then writes else |messages|)
    ensures found && !failed && writes < |messages| ==> r == ChildFailed
    ensures found && !failed && writes >= |messages| ==>
      var ids := RequestIds(messages);
      if ids == [] then r == Accepted
      else
        && r.Events? && |r.body| == |ids|
        && forall k :: 0 <= k < |ids| ==>
             r.body[k] == BodyEvent(ids, polls, k)
  {
    written := [];
    var ids := CollectIds(messages);
    if !found {
      return SessionNotFound, written;
    }
    if failed {
      return ChildDead, written;
    }
    var i := 0;
    while i < |messages|
      invariant i == |written| <= |messages| && i <= writes && written == messages[..i]
    {
      if i == writes {
        return ChildFailed, written;
      }
      written := written + [messages[i]];
      i := i + 1;
    }
    if ids == [] {
      return Accepted, written;
    }
    var responses := Collect(ids, polls);
    var body := BuildBody(ids, responses);
    r := Events(body);
  }

  // ── Results ───────────────────────────────────────────────────────────

  /** The responses kept are the last message polled under each id, and nothing else. */
  lemma {:induction false} AnswersAreLast(polls: seq<Poll>, id: string)
    ensures id in Answers(polls) <==> exists i :: 0 <= i < |polls| && id in Heard(polls[i])
    ensures id in Answers(polls) ==>
      exists i :: 0 <= i < |polls| && id in Heard(polls[i]) && Answers(polls)[id] == polls[i].msg
        && forall j :: i < j < |polls| ==> id !in Heard(polls[j])
  {
    if polls == [] {
    } else {
      var n := |polls| - 1;
      AnswersAreLast(polls[..n], id);
      assert forall i :: 0 <= i < n ==> polls[..n][i] == polls[i];
      assert id in Heard(polls[n]) ==> id in Answers(polls);
    }
  }

  /** Polling stops early only at the deadline or when nobody is left to answer: otherwise
      it goes on until every id has been heard. */
  lemma {:induction false} UsedIs(ids: set<string>, polls: seq<Poll>)
    ensures var n := Used(ids, polls);
      && (forall i :: 0 <= i < n ==> polls[i].Got? || polls[i].Empty?)
      && (n < |polls| && !polls[n].Expired? && !polls[n].HungUp? ==>
            forall id :: id in ids ==> exists i :: 0 <= i < n && id in Heard(polls[i]))
    decreases |polls|
  {
    if ids != {} && polls != [] && !polls[0].Expired? && !polls[0].HungUp? {
      var rest := polls[1..];
      UsedIs(ids - Heard(polls[0]), rest);
      var m := Used(ids - Heard(polls[0]), rest);
      assert forall i :: 0 <= i < |rest| ==> rest[i] == polls[i + 1];
      if m < |rest| && !rest[m].Expired? && !rest[m].HungUp? {
        forall id | id in ids ensures exists i :: 0 <= i < m + 1 && id in Heard(polls[i]) {
          if id in Heard(polls[0]) {
          } else {
            assert id in ids - Heard(polls[0]);
            var i :| 0 <= i < m && id in Heard(rest[i]);
            assert id in Heard(polls[i + 1]);
          }
        }
      }
    }
  }

  /** And it does not go on when every id has been heard. */
  lemma {:induction false} UsedNoLonger(ids: set<string>, polls: seq<Poll>) returns (id: string)
    requires Used(ids, polls) > 0
    ensures id in ids && forall i :: 0 <= i < Used(ids, polls) - 1 ==> id !in Heard(polls[i])
    decreases |polls|
  {
    var left := ids - Heard(polls[0]);
    if Used(left, polls[1..]) > 0 {
      id := UsedNoLonger(left, polls[1..]);
      assert forall i :: 1 <= i < |polls| ==> polls[i] == polls[1..][i - 1];
    } else {
      id :| id in ids;
    }
  }

  lemma {:induction false} RequestIdsAppend(a: seq<RawMessage>, b: seq<RawMessage>)
    ensures RequestIds(a + b) == RequestIds(a) + RequestIds(b)
  {
    if b == [] {
      assert a + b == a;
    } else {
      var n := |b| - 1;
      assert (a + b)[..|a| + n] == a + b[..n];
      RequestIdsAppend(a, b[..n]);
    }
  }

  /** The ids waited for are those of all the messages that ask something, in order. */
  lemma RequestIdsAre(before: seq<RawMessage>, msg: RawMessage, after: seq<RawMessage>)
    ensures RequestIds([]) == []
    ensures RequestIds(before + [msg] + after)
            == RequestIds(before) + (if Asks(msg) then [msg.id.value] else []) + RequestIds(after)
  {
    RequestIdsAppend(before + [msg], after);
    RequestIdsAppend(before, [msg]);
    assert [msg][..0] == [];
  }

  /** One event per request, in the order of the requests and under their ids, whatever
      came back, in whatever order, and whatever did not. */
  lemma OneEventPerRequest(ids: seq<string>, polls: seq<Poll>, body: seq<RawMessage>)
    requires |body| == |ids|
    requires forall k :: 0 <= k < |ids| ==> body[k] == EventFor(ids, Answers(polls), k)
    ensures forall k :: 0 <= k < |ids| ==> body[k].id == Some(ids[k])
  {
    forall k | 0 <= k < |ids| ensures body[k].id == Some(ids[k]) {
      AnswersAreLast(polls, ids[k]);
    }
  }

  /** Exactly which requests get what the child said: the first of each id, when something
      came for it. */
  lemma AnsweredIff(ids: seq<string>, polls: seq<Poll>, k: nat)
    requires k < |ids|
    requires forall i :: 0 <= i < |polls| && polls[i].Got? ==>
      polls[i].msg.error != Some(ErrorObject(INTERNAL_ERROR, "Internal error"))
    ensures (exists i :: 0 <= i < |polls| && polls[i].Got? && EventFor(ids, Answers(polls), k) == polls[i].msg)
      <==> ids[k] !in ids[..k] && exists i :: 0 <= i < |polls| && ids[k] in Heard(polls[i])
  {
    AnswersAreLast(polls, ids[k]);
  }

  /** All others get the internal error under their id. */
  lemma {:induction false} OthersGetAnError(ids: seq<string>, polls: seq<Poll>, k: nat)
    requires k < |ids|
    requires ids[k] in ids[..k] || forall i :: 0 <= i < |polls| ==> ids[k] !in Heard(polls[i])
    ensures EventFor(ids, Answers(polls), k)
            == RawMessage(Some(ids[k]), None, None, None, Some(ErrorObject(-32603, "Internal error")))
  {
    AnswersAreLast(polls, ids[k]);
  }
}
