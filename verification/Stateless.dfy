/** A request of the stateless gateway: its own child is initialized, given the messages,
    and read until enough responses have come. */
module Stateless {
  import opened Wrappers
  import opened JsonRpc
  import opened Delivery
  import opened Handshake

  /** What reading from the child gives, within the time that is left. */
  datatype Recv = Parsed(msgs: seq<RawMessage>) | TimedOut | Closed | Broken

  datatype Error = AutoInitTimeout | ChildDead | ChildError | ResponseTimeout

  function Flat(recvs: seq<Recv>): seq<RawMessage> {
    if recvs == [] then []
    else
      var last := recvs[|recvs| - 1];
      Flat(recvs[..|recvs| - 1]) + if last.Parsed? then last.msgs else []
  }

  function Responses(msgs: seq<RawMessage>): nat {
    if msgs == [] then 0
    else Responses(msgs[..|msgs| - 1]) + if msgs[|msgs| - 1].IsResponse() then 1 else 0
  }

  function Requests(msgs: seq<RawMessage>): nat {
    if msgs == [] then 0
    else Requests(msgs[..|msgs| - 1]) + if msgs[|msgs| - 1].IsRequest() then 1 else 0
  }

  lemma {:induction false} FlatAppend(a: seq<Recv>, b: seq<Recv>)
    ensures Flat(a + b) == Flat(a) + Flat(b)
  {
    if b == [] {
      assert a + b == a && Flat(a) + [] == Flat(a);
    } else {
      var n := |b| - 1;
      assert (a + b)[..|a + b| - 1] == a + b[..n];
      FlatAppend(a, b[..n]);
    }
  }

  lemma FlatOne(recv: Recv)
    requires recv.Parsed?
    ensures Flat([recv]) == recv.msgs
  {
    assert [recv][..0] == [];
  }

  lemma {:induction false} ResponsesAppend(a: seq<RawMessage>, b: seq<RawMessage>)
    ensures Responses(a + b) == Responses(a) + Responses(b)
  {
    if b == [] {
      assert a + b == a;
    } else {
      var n := |b| - 1;
      assert (a + b)[..|a + b| - 1] == a + b[..n];
      ResponsesAppend(a, b[..n]);
    }
  }

  lemma {:induction false} RequestsAppend(a: seq<RawMessage>, b: seq<RawMessage>)
    ensures Requests(a + b) == Requests(a) + Requests(b)
  {
    if b == [] {
      assert a + b == a;
    } else {
      var n := |b| - 1;
      assert (a + b)[..|a + b| - 1] == a + b[..n];
      RequestsAppend(a, b[..n]);
    }
  }

  /** Every message that asks something, and no other, counts as a request, and every one
      that responds as a response. */
  lemma EachIsCounted(before: seq<RawMessage>, msg: RawMessage, after: seq<RawMessage>)
    ensures Requests([]) == 0 && Responses([]) == 0
    ensures Requests(before + [msg] + after) == Requests(before) + (if Asks(msg) then 1 else 0) + Requests(after)
    ensures Responses(before + [msg] + after)
            == Responses(before) + (if Responds(msg) then 1 else 0) + Responses(after)
  {
    RequestsAppend(before + [msg], after);
    RequestsAppend(before, [msg]);
    ResponsesAppend(before + [msg], after);
    ResponsesAppend(before, [msg]);
    assert [msg][..0] == [];
  }

  lemma {:induction false} NoRequests(msgs: seq<RawMessage>)
    ensures Requests(msgs) == 0 <==> forall m :: m in msgs ==> !Asks(m)
  {
    if msgs == [] {
    } else {
      var n := |msgs| - 1;
      NoRequests(msgs[..n]);
      assert msgs[n] in msgs && forall m :: m in msgs <==> m in msgs[..n] || m == msgs[n];
    }
  }

  // ── Waiting for the init response ─────────────────────────────────────

  /** How many reads come to nothing: messages, but no answer to the init request. */
  function Fruitless(recvs: seq<Recv>, initId: string): (n: nat)
    ensures n <= |recvs|
    ensures forall i :: 0 <= i < n ==> recvs[i].Parsed? && FindAnswer(recvs[i].msgs, initId).None?
    ensures n < |recvs| && recvs[n].Parsed? ==> FindAnswer(recvs[n].msgs, initId).Some?
  {
    if recvs == [] || !recvs[0].Parsed? || FindAnswer(recvs[0].msgs, initId).Some? then 0
    else 1 + Fruitless(recvs[1..], initId)
  }

  /** The reads before the one with the answer, and what stands before the answer there. */
  function BeforeAnswer(recvs: seq<Recv>, initId: string): seq<RawMessage> {
    var n := Fruitless(recvs, initId);
    Flat(recvs[..n]) +
    if n < |recvs| && recvs[n].Parsed? then recvs[n].msgs[..FindAnswer(recvs[n].msgs, initId).value] else []
  }

  function WaitResult(recvs: seq<Recv>, initId: string): Result<(), Error> {
    var n := Fruitless(recvs, initId);
    if n == |recvs| then Err(AutoInitTimeout)
    else match recvs[n]
      case Parsed(_) => Ok(())
      case TimedOut => Err(AutoInitTimeout)
      case Closed => Err(ChildDead)
      case Broken => Err(ChildError)
  }

  lemma FruitlessNext(recvs: seq<Recv>, i: nat, initId: string)
    requires i < |recvs|
    ensures Fruitless(recvs[i..], initId)
      == if !recvs[i].Parsed? || FindAnswer(recvs[i].msgs, initId).Some? then 0
         else 1 + Fruitless(recvs[i + 1..], initId)
  {
    hide FindAnswer;
    assert recvs[i..][0] == recvs[i] && recvs[i..][1..] == recvs[i + 1..];
  }

  lemma FlatNext(recvs: seq<Recv>, i: nat)
    requires i < |recvs|
    ensures Flat(recvs[..i + 1]) == Flat(recvs[..i]) + if recvs[i].Parsed? then recvs[i].msgs else []
  {
    assert recvs[..i + 1][..i] == recvs[..i];
  }

  /** `buffered` is what came before the answer; `used` is how many reads were made. */
  method WaitForInitResponse(recvs: seq<Recv>, initId: string)
    returns (r: Result<(), Error>, buffered: seq<RawMessage>, used: nat)
    ensures r == WaitResult(recvs, initId) && buffered == BeforeAnswer(recvs, initId)
    ensures used <= |recvs|
    ensures if r.Ok? then used == Fruitless(recvs, initId) + 1 else Flat(recvs[..used]) == buffered
  {
    hide Flat, Fruitless, FindAnswer;
    buffered, used := [], 0;
    ghost var n := Fruitless(recvs, initId);
    var i := 0;
    assert recvs[0..] == recvs;
    NothingRead(recvs);
    while i < |recvs|
      invariant i <= n && n == i + Fruitless(recvs[i..], initId)
      invariant buffered == Flat(recvs[..i])
    {
      FruitlessNext(recvs, i, initId);
      FlatNext(recvs, i);
      assert buffered + [] == buffered;
      match recvs[i] {
        case Parsed(msgs) =>
          var found;
          found, buffered := ScanForAnswer(msgs, initId, buffered);
          if found {
            return Ok(()), buffered, i + 1;
          }
        case TimedOut => return Err(AutoInitTimeout), buffered, i + 1;
        case Closed => return Err(ChildDead), buffered, i + 1;
        case Broken => return Err(ChildError), buffered, i + 1;
      }
      i := i + 1;
    }
    assert recvs[..|recvs|] == recvs && buffered + [] == buffered;
    r, used := Err(AutoInitTimeout), i;
  }

  /** One batch: everything before the answer is buffered, and the answer ends the scan. */
  method ScanForAnswer(msgs: seq<RawMessage>, initId: string, before: seq<RawMessage>)
    returns (found: bool, buffered: seq<RawMessage>)
    ensures found <==> FindAnswer(msgs, initId).Some?
    ensures buffered == before + if found then msgs[..FindAnswer(msgs, initId).value] else msgs
  {
    found, buffered := false, before;
    var k := 0;
    while k < |msgs|
      invariant k <= |msgs| && buffered == before + msgs[..k]
      invariant forall i :: 0 <= i < k ==> !AnswersInit(msgs[i], initId)
    {
      if msgs[k].IsResponse() && TrimQuotes(msgs[k].id.value) == initId {
        assert AnswersInit(msgs[k], initId);
        return true, buffered;
      }
      buffered := buffered + [msgs[k]];
      k := k + 1;
    }
  }

  // ── Collecting responses ──────────────────────────────────────────────

  /** How many reads it takes to see `expected` responses; reading ends before that when
      it gives no messages. */
  function ReadsFor(recvs: seq<Recv>, expected: nat): (n: nat)
    ensures n <= |recvs|
  {
    if expected == 0 || recvs == [] || !recvs[0].Parsed? then 0
    else
      var seen := Responses(recvs[0].msgs);
      1 + ReadsFor(recvs[1..], if seen < expected then expected - seen else 0)
  }

  method CollectBatch(msgs: seq<RawMessage>, before: seq<RawMessage>, countBefore: nat)
    returns (collected: seq<RawMessage>, count: nat)
    ensures collected == before + msgs && count == countBefore + Responses(msgs)
  {
    collected, count := before, countBefore;
    for k := 0 to |msgs|
      invariant collected == before + msgs[..k] && count == countBefore + Responses(msgs[..k])
    {
      assert msgs[..k + 1][..k] == msgs[..k];
      if msgs[k].IsResponse() {
        count := count + 1;
      }
      collected := collected + [msgs[k]];
    }
    assert msgs[..|msgs|] == msgs;
  }

  /** `used` is how many reads were made, one that gave no messages included. */
  method CollectResponses(recvs: seq<Recv>, expected: nat)
    returns (collected: seq<RawMessage>, complete: bool, used: nat)
    ensures collected == Flat(recvs[..ReadsFor(recvs, expected)])
    ensures complete <==> Responses(collected) >= expected
    ensures used <= |recvs| && Flat(recvs[..used]) == collected
  {
    hide Responses;
    collected := [];
    var count := 0;
    NothingRead(recvs);
    ghost var n := ReadsFor(recvs, expected);
    var i := 0;
    assert recvs[0..] == recvs;
    while count < expected && i < |recvs| && recvs[i].Parsed?
      invariant i <= n && count == Responses(collected)
      invariant n == i + ReadsFor(recvs[i..], if count < expected then expected - count else 0)
      invariant collected == Flat(recvs[..i])
    {
      assert recvs[i..][0] == recvs[i] && recvs[i..][1..] == recvs[i + 1..];
      assert recvs[..i + 1][..i] == recvs[..i];
      ResponsesAppend(collected, recvs[i].msgs);
      collected, count := CollectBatch(recvs[i].msgs, collected, count);
      i := i + 1;
    }
    complete, used := count >= expected, i;
    if !complete && i < |recvs| {
      FlatNext(recvs, i);
      used := i + 1;
    }
  }

  /** Reading stops as soon as there are enough responses, and before that only when a read
      gives nothing. */
  lemma {:induction false} ReadsForIs(recvs: seq<Recv>, expected: nat)
    ensures var n := ReadsFor(recvs, expected);
      && (n > 0 ==> Responses(Flat(recvs[..n - 1])) < expected)
      && (Responses(Flat(recvs[..n])) >= expected || n == |recvs| || !recvs[n].Parsed?)
      && (forall i :: 0 <= i < n ==> recvs[i].Parsed?)
    decreases |recvs|
  {
    hide Flat, Responses;
    var n := ReadsFor(recvs, expected);
    NothingRead(recvs);
    if n == 0 {
    } else {
      var seen := Responses(recvs[0].msgs);
      var less := if seen < expected then expected - seen else 0;
      ReadsForIs(recvs[1..], less);
      FirstRead(recvs, n);
      if n > 1 {
        FirstRead(recvs, n - 1);
      }
    }
  }

  lemma NothingRead(recvs: seq<Recv>)
    ensures Flat(recvs[..0]) == [] && Responses([]) == 0
  {
  }

  lemma FirstRead(recvs: seq<Recv>, n: nat)
    requires 0 < n <= |recvs| && recvs[0].Parsed?
    ensures Responses(Flat(recvs[..n])) == Responses(recvs[0].msgs) + Responses(Flat(recvs[1..][..n - 1]))
  {
    var first := [recvs[0]];
    hide Flat, Responses;
    var rest := recvs[1..][..n - 1];
    assert recvs[..n] == first + rest;
    FlatAppend(first, rest);
    FlatOne(recvs[0]);
    ResponsesAppend(recvs[0].msgs, Flat(rest));
  }

  // ── A request that needs an init of its own ───────────────────────────

  /** How the messages reach the child, which takes `writes` of them and then no more. */
  method WriteAll(msgs: seq<RawMessage>, writes: nat) returns (ok: bool, written: seq<RawMessage>)
    ensures written <= msgs && |written| == (if writes < |msgs| then writes else |msgs|)
    ensures ok <==> |msgs| <= writes
  {
    written := [];
    while |written| < |msgs|
      invariant written <= msgs && |written| <= writes
    {
      if |written| == writes {
        return false, written;
      }
      written := written + [msgs[|written|]];
    }
    ok := true;
  }

  datatype Reply = Accepted | Events(body: seq<RawMessage>)

  /** What is read in answer to `messages` when the child has taken them. */
  function Collected(messages: seq<RawMessage>, left: seq<Recv>): seq<RawMessage> {
    Flat(left[..ReadsFor(left, Requests(messages))])
  }

  method CountRequests(messages: seq<RawMessage>) returns (n: nat)
    ensures n == Requests(messages)
  {
    n := 0;
    for k := 0 to |messages|
      invariant n == Requests(messages[..k])
    {
      assert messages[..k + 1][..k] == messages[..k];
      if messages[k].IsRequest() {
        n := n + 1;
      }
    }
    assert messages[..|messages|] == messages;
  }

  /** The reply to a request that brings no init of its own, when the child takes `writes`
      messages; `dead` says whether it has exited by the end. */
  function ReplyTo(initId: string, messages: seq<RawMessage>, recvs: seq<Recv>, writes: nat, dead: bool)
    : Result<Reply, Error>
  {
    if writes == 0 then Err(ChildError)
    else match WaitResult(recvs, initId)
      case Err(e) => Err(e)
      case Ok(_) =>
        if writes < |messages| + 2 then Err(ChildError)
        else if Requests(messages) == 0 then Ok(Accepted)
        else
          var collected := Collected(messages, recvs[Fruitless(recvs, initId) + 1..]);
          if collected == [] then Err(if dead then ChildDead else ResponseTimeout)
          else Ok(Events(BeforeAnswer(recvs, initId) + collected))
  }

  /** What is read from the child for that. */
  function ReadFor(initId: string, messages: seq<RawMessage>, recvs: seq<Recv>, writes: nat): seq<RawMessage> {
    var n := Fruitless(recvs, initId);
    if writes == 0 then []
    else if WaitResult(recvs, initId).Err? then BeforeAnswer(recvs, initId)
    else
      Flat(recvs[..n + 1])
        + if writes < |messages| + 2 then [] else Collected(messages, recvs[n + 1..])
  }

  /** The child is to be written the init request, the initialized notification and the
      messages, in this order; `used` is how many reads were made. */
  method AutoInitAndForward(cfg: Config, initId: string, messages: seq<RawMessage>, recvs: seq<Recv>,
                            writes: nat, dead: bool)
    returns (r: Result<Reply, Error>, written: seq<RawMessage>, used: nat)
    ensures r == ReplyTo(initId, messages, recvs, writes, dead)
    ensures used <= |recvs| && Flat(recvs[..used]) == ReadFor(initId, messages, recvs, writes)
    ensures written <= [FallbackInit(cfg, initId), InitializedNotification()] + messages
    ensures |written| > 1 ==> WaitResult(recvs, initId).Ok?
    ensures WaitResult(recvs, initId).Ok? ==>
      |written| == if writes < |messages| + 2 then writes else |messages| + 2
  {
    hide Flat, Fruitless, FindAnswer, ReadsFor, Requests, BeforeAnswer, WaitResult;
    written, used := [], 0;
    NothingRead(recvs);
    if writes == 0 {
      return Err(ChildError), written, used;
    }
    written := [FallbackInit(cfg, initId)];
    var waited, buffered;
    waited, buffered, used := WaitForInitResponse(recvs, initId);
    if waited.Err? {
      return Err(waited.error), written, used;
    }
    assert Flat(recvs[..used]) + [] == Flat(recvs[..used]);
    if writes == 1 {
      return Err(ChildError), written, used;
    }
    written := written + [InitializedNotification()];
    var expected := CountRequests(messages);
    var ok, forwarded := WriteAll(messages, writes - 2);
    written := written + forwarded;
    if !ok {
      return Err(ChildError), written, used;
    }
    var left := recvs[used..];
    if expected == 0 {
      CollectedNothing(messages, left);
      return Ok(Accepted), written, used;
    }
    var collected, complete, more := CollectResponses(left, expected);
    FlatSplit(recvs, used, more);
    used := used + more;
    if collected == [] {
      return Err(if dead then ChildDead else ResponseTimeout), written, used;
    }
    r := Ok(Events(buffered + collected));
  }

  lemma CollectedNothing(messages: seq<RawMessage>, left: seq<Recv>)
    requires Requests(messages) == 0
    ensures Collected(messages, left) == []
  {
  }

  lemma FlatSplit(recvs: seq<Recv>, n: nat, more: nat)
    requires n + more <= |recvs|
    ensures Flat(recvs[..n + more]) == Flat(recvs[..n]) + Flat(recvs[n..][..more])
  {
    hide Flat;
    assert recvs[..n + more] == recvs[..n] + recvs[n..][..more];
    FlatAppend(recvs[..n], recvs[n..][..more]);
  }

  // ── What is lost ──────────────────────────────────────────────────────

  /** What stands behind the init answer in the batch that brings it. */
  function Behind(recvs: seq<Recv>, initId: string): seq<RawMessage>
    requires WaitResult(recvs, initId).Ok?
  {
    var msgs := recvs[Fruitless(recvs, initId)].msgs;
    msgs[FindAnswer(msgs, initId).value + 1..]
  }

  /** All that was read once the init request was answered, in order: what came before the
      answer, the answer itself, what stood behind it in its batch, and, if the child took
      the messages, what was collected after that. */
  lemma ReadIsAccountedFor(initId: string, messages: seq<RawMessage>, recvs: seq<Recv>, writes: nat)
    returns (answer: RawMessage)
    requires WaitResult(recvs, initId).Ok? && writes > 0
    ensures AnswersInit(answer, initId)
    ensures forall m :: m in BeforeAnswer(recvs, initId) ==> !AnswersInit(m, initId)
    ensures ReadFor(initId, messages, recvs, writes)
      == BeforeAnswer(recvs, initId) + [answer] + Behind(recvs, initId)
         + if writes < |messages| + 2 then [] else Collected(messages, recvs[Fruitless(recvs, initId) + 1..])
  {
    hide Requests, ReadsFor, Flat, AnswersInit, Collected, BeforeAnswer, Behind;
    answer := AnswerBatch(recvs, initId);
    FlatNext(recvs, Fruitless(recvs, initId));
    NothingAnswersBefore(recvs, initId);
  }

  /** The batch that brings the answer. */
  lemma AnswerBatch(recvs: seq<Recv>, initId: string) returns (answer: RawMessage)
    requires WaitResult(recvs, initId).Ok?
    ensures AnswersInit(answer, initId)
    ensures var n := Fruitless(recvs, initId);
      Flat(recvs[..n]) + recvs[n].msgs == BeforeAnswer(recvs, initId) + [answer] + Behind(recvs, initId)
  {
    hide Flat, AnswersInit;
    var n := Fruitless(recvs, initId);
    var msgs := recvs[n].msgs;
    var k := FindAnswer(msgs, initId).value;
    answer := msgs[k];
    assert msgs == msgs[..k] + [answer] + msgs[k + 1..];
  }

  lemma NothingAnswersBefore(recvs: seq<Recv>, initId: string)
    requires WaitResult(recvs, initId).Ok?
    ensures forall m :: m in BeforeAnswer(recvs, initId) ==> !AnswersInit(m, initId)
  {
    hide Flat, AnswersInit;
    NoAnswerIn(recvs[..Fruitless(recvs, initId)], initId);
  }

  lemma {:induction false} NoAnswerIn(recvs: seq<Recv>, initId: string)
    requires forall i :: 0 <= i < |recvs| ==> recvs[i].Parsed? && FindAnswer(recvs[i].msgs, initId).None?
    ensures forall m :: m in Flat(recvs) ==> !AnswersInit(m, initId)
  {
    if recvs == [] {
    } else {
      var n := |recvs| - 1;
      NoAnswerIn(recvs[..n], initId);
      assert FindAnswer(recvs[n].msgs, initId).None?;
    }
  }

  /** What the client is passed on. */
  function Passed(r: Result<Reply, Error>): seq<RawMessage> {
    if r.Ok? && r.value.Events? then r.value.body else []
  }

  /** For every request, child and loss: all that was read, but the answer to the init, is
      passed on exactly if nothing stood behind the answer in its batch, and either nothing
      came before the answer or the reply bears events: the child answered, took all the
      messages, there is a request among them, and something was collected. */
  lemma NothingLostIff(initId: string, messages: seq<RawMessage>, recvs: seq<Recv>, writes: nat, dead: bool)
    ensures var read := ReadFor(initId, messages, recvs, writes);
      var answered := writes > 0 && WaitResult(recvs, initId).Ok?;
      |Passed(ReplyTo(initId, messages, recvs, writes, dead))| + (if answered then 1 else 0) == |read|
      <==>
      || writes == 0
      || (!answered && BeforeAnswer(recvs, initId) == [])
      || (answered && Behind(recvs, initId) == []
          && (|| BeforeAnswer(recvs, initId) == []
              || (writes >= |messages| + 2 && Requests(messages) > 0
                  && Collected(messages, recvs[Fruitless(recvs, initId) + 1..]) != [])))
  {
    hide ReadsFor, Flat, BeforeAnswer, Behind, Fruitless, Collected, Requests, ReadFor, ReplyTo;
    if writes > 0 && WaitResult(recvs, initId).Ok? {
      AnsweredLengths(initId, messages, recvs, writes, dead);
    } else {
      UnansweredPasses(initId, messages, recvs, writes, dead);
    }
  }

  lemma UnansweredPasses(initId: string, messages: seq<RawMessage>, recvs: seq<Recv>, writes: nat, dead: bool)
    requires writes == 0 || WaitResult(recvs, initId).Err?
    ensures Passed(ReplyTo(initId, messages, recvs, writes, dead)) == []
    ensures ReadFor(initId, messages, recvs, writes) == if writes == 0 then [] else BeforeAnswer(recvs, initId)
  {
    hide BeforeAnswer, Fruitless;
  }

  lemma AnsweredLengths(initId: string, messages: seq<RawMessage>, recvs: seq<Recv>, writes: nat, dead: bool)
    requires writes > 0 && WaitResult(recvs, initId).Ok?
    ensures var collected := Collected(messages, recvs[Fruitless(recvs, initId) + 1..]);
      var bears := writes >= |messages| + 2 && Requests(messages) > 0 && collected != [];
      && |Passed(ReplyTo(initId, messages, recvs, writes, dead))|
           == (if bears then |BeforeAnswer(recvs, initId)| + |collected| else 0)
      && |ReadFor(initId, messages, recvs, writes)|
           == |BeforeAnswer(recvs, initId)| + 1 + |Behind(recvs, initId)| + if bears then |collected| else 0
  {
    hide ReadsFor, Flat, BeforeAnswer, Behind, Fruitless, Collected, Requests, AnswersInit;
    var answer := ReadIsAccountedFor(initId, messages, recvs, writes);
    if Requests(messages) == 0 {
      CollectedNothing(messages, recvs[Fruitless(recvs, initId) + 1..]);
    }
  }

  /** And what is passed on stands in the order in which it was read: what came before the
      answer, and what was collected. */
  lemma PassedInOrder(initId: string, messages: seq<RawMessage>, recvs: seq<Recv>, writes: nat, dead: bool)
    returns (answer: RawMessage)
    requires Passed(ReplyTo(initId, messages, recvs, writes, dead)) != []
    ensures WaitResult(recvs, initId).Ok? && AnswersInit(answer, initId)
    ensures var passed, before := Passed(ReplyTo(initId, messages, recvs, writes, dead)), BeforeAnswer(recvs, initId);
      && before <= passed
      && ReadFor(initId, messages, recvs, writes)
           == before + [answer] + Behind(recvs, initId) + passed[|before|..]
  {
    hide ReadsFor, Flat, BeforeAnswer, Behind, Fruitless, Collected, Requests, AnswersInit;
    answer := ReadIsAccountedFor(initId, messages, recvs, writes);
  }

  // ── The reply, case by case ───────────────────────────────────────────

  /** The message is the init's answer: a result or an error whose id is, but for quotes,
      the init's. */
  predicate IsTheAnswer(msg: RawMessage, initId: string) {
    Responds(msg) && TrimQuotes(msg.id.value) == initId
  }

  lemma AnswersInitIs(msg: RawMessage, initId: string)
    ensures AnswersInit(msg, initId) <==> IsTheAnswer(msg, initId)
  {
    hide TrimQuotes;
  }

  /** The first `n` reads give messages, but not the answer. */
  ghost predicate NoAnswerYet(recvs: seq<Recv>, n: nat, initId: string)
    requires n <= |recvs|
  {
    forall i :: 0 <= i < n ==> recvs[i].Parsed? && forall m :: m in recvs[i].msgs ==> !IsTheAnswer(m, initId)
  }

  lemma FruitlessIs(recvs: seq<Recv>, n: nat, initId: string)
    requires n <= |recvs| && NoAnswerYet(recvs, n, initId)
    requires n < |recvs| && recvs[n].Parsed? ==> exists m :: m in recvs[n].msgs && IsTheAnswer(m, initId)
    ensures Fruitless(recvs, initId) == n
  {
    hide IsTheAnswer, FindAnswer;
    forall i | 0 <= i < |recvs| && recvs[i].Parsed?
      ensures FindAnswer(recvs[i].msgs, initId).None? <==> forall m :: m in recvs[i].msgs ==> !IsTheAnswer(m, initId)
    {
      Unanswered(recvs[i].msgs, initId);
    }
  }

  lemma Unanswered(msgs: seq<RawMessage>, initId: string)
    ensures FindAnswer(msgs, initId).None? <==> forall m :: m in msgs ==> !IsTheAnswer(m, initId)
  {
    hide IsTheAnswer, AnswersInit;
    forall m: RawMessage ensures AnswersInit(m, initId) <==> IsTheAnswer(m, initId) {
      AnswersInitIs(m, initId);
    }
  }

  /** How the wait for the init's answer fails: with the first read that gives no messages,
      if no answer came before. It succeeds with the first message that is the answer. What
      came before is kept. */
  lemma WaitEnds(recvs: seq<Recv>, n: nat, initId: string)
    requires n <= |recvs| && NoAnswerYet(recvs, n, initId)
    ensures n == |recvs| ==> WaitResult(recvs, initId) == Err(AutoInitTimeout)
    ensures n < |recvs| && recvs[n].TimedOut? ==> WaitResult(recvs, initId) == Err(AutoInitTimeout)
    ensures n < |recvs| && recvs[n].Closed? ==> WaitResult(recvs, initId) == Err(ChildDead)
    ensures n < |recvs| && recvs[n].Broken? ==> WaitResult(recvs, initId) == Err(ChildError)
    ensures n == |recvs| || !recvs[n].Parsed? ==> BeforeAnswer(recvs, initId) == Flat(recvs[..n])
  {
    hide Flat, IsTheAnswer;
    if n == |recvs| || !recvs[n].Parsed? {
      FruitlessIs(recvs, n, initId);
      assert Flat(recvs[..n]) + [] == Flat(recvs[..n]);
    }
  }

  lemma WaitSucceeds(recvs: seq<Recv>, n: nat, k: nat, initId: string)
    requires n < |recvs| && NoAnswerYet(recvs, n, initId) && recvs[n].Parsed?
    requires k < |recvs[n].msgs| && IsTheAnswer(recvs[n].msgs[k], initId)
    requires forall i :: 0 <= i < k ==> !IsTheAnswer(recvs[n].msgs[i], initId)
    ensures WaitResult(recvs, initId) == Ok(())
    ensures BeforeAnswer(recvs, initId) == Flat(recvs[..n]) + recvs[n].msgs[..k]
  {
    hide Flat, IsTheAnswer;
    assert recvs[n].msgs[k] in recvs[n].msgs;
    FruitlessIs(recvs, n, initId);
    FirstAnswerIs(recvs[n].msgs, k, initId);
  }

  lemma FirstAnswerIs(msgs: seq<RawMessage>, k: nat, initId: string)
    requires k < |msgs| && IsTheAnswer(msgs[k], initId)
    requires forall i :: 0 <= i < k ==> !IsTheAnswer(msgs[i], initId)
    ensures FindAnswer(msgs, initId) == Some(k)
  {
    hide IsTheAnswer, AnswersInit;
    forall m: RawMessage ensures AnswersInit(m, initId) <==> IsTheAnswer(m, initId) {
      AnswersInitIs(m, initId);
    }
  }

  /** What is collected: whole reads, as many as it takes to see as many responses as there
      are requests, or up to a read that gives nothing. */
  lemma EnoughIsCollected(messages: seq<RawMessage>, left: seq<Recv>) returns (n: nat)
    ensures n <= |left| && Collected(messages, left) == Flat(left[..n])
    ensures forall i :: 0 <= i < n ==> left[i].Parsed?
    ensures n > 0 ==> Responses(Flat(left[..n - 1])) < Requests(messages)
    ensures Responses(Flat(left[..n])) >= Requests(messages) || n == |left| || !left[n].Parsed?
  {
    hide Flat, Responses, Requests;
    n := ReadsFor(left, Requests(messages));
    ReadsForIs(left, Requests(messages));
  }

  /** The reply: an error of the child if it takes too little, the error of the wait, a bare
      acceptance exactly when nothing is asked, an error when nothing comes, and else
      everything that came before the answer and after the messages. */
  lemma ReplyByCase(initId: string, messages: seq<RawMessage>, recvs: seq<Recv>, writes: nat, dead: bool)
    ensures var r := ReplyTo(initId, messages, recvs, writes, dead);
      var waited := WaitResult(recvs, initId);
      && (writes == 0 ==> r == Err(ChildError))
      && (writes > 0 && waited.Err? ==> r == Err(waited.error))
      && (writes > 0 && waited.Ok? ==>
            && (writes < |messages| + 2 ==> r == Err(ChildError))
            && (writes >= |messages| + 2 ==>
                  var collected := Collected(messages, recvs[Fruitless(recvs, initId) + 1..]);
                  if forall m :: m in messages ==> !Asks(m) then r == Ok(Accepted)
                  else if collected == [] then r == Err(if dead then ChildDead else ResponseTimeout)
                  else r == Ok(Events(BeforeAnswer(recvs, initId) + collected))))
  {
    hide Requests, Collected, BeforeAnswer, Fruitless, WaitResult;
    NoRequests(messages);
  }

  // ── Three ways to lose a note ─────────────────────────────────────────

  lemma AnswerFirst(initId: string, answer: RawMessage, note: RawMessage, more: seq<Recv>)
    requires AnswersInit(answer, initId)
    ensures var recvs := [Parsed([answer, note])] + more;
      && Fruitless(recvs, initId) == 0 && WaitResult(recvs, initId) == Ok(())
      && BeforeAnswer(recvs, initId) == [] && Flat(recvs[..1]) == [answer, note] && recvs[1..] == more
  {
    hide AnswersInit;
    var recvs := [Parsed([answer, note])] + more;
    assert FindAnswer([answer, note], initId) == Some(0);
    assert recvs[..1] == [recvs[0]];
    FlatOne(recvs[0]);
  }

  lemma AnswerSecond(initId: string, answer: RawMessage, note: RawMessage, more: seq<Recv>)
    requires AnswersInit(answer, initId) && !AnswersInit(note, initId)
    ensures var recvs := [Parsed([note, answer])] + more;
      && Fruitless(recvs, initId) == 0 && WaitResult(recvs, initId) == Ok(())
      && BeforeAnswer(recvs, initId) == [note] && Flat(recvs[..1]) == [note, answer] && recvs[1..] == more
  {
    hide AnswersInit;
    var msgs := [note, answer];
    var recvs := [Parsed(msgs)] + more;
    assert msgs[1..] == [answer];
    assert FindAnswer(msgs, initId) == Some(1);
    assert recvs[..1] == [recvs[0]] && msgs[..1] == [note];
    FlatOne(recvs[0]);
  }

  /** It stands behind the answer in its batch. */
  lemma NoteBehindLost(initId: string, answer: RawMessage, note: RawMessage, asked: RawMessage, reply: RawMessage)
    requires AnswersInit(answer, initId) && asked.IsRequest() && reply.IsResponse()
    ensures var recvs := [Parsed([answer, note])] + [Parsed([reply])];
      && ReplyTo(initId, [asked], recvs, 3, false) == Ok(Events([reply]))
      && ReadFor(initId, [asked], recvs, 3) == [answer, note, reply]
  {
    hide AnswersInit;
    AnswerFirst(initId, answer, note, [Parsed([reply])]);
    OneReply(asked, reply);
  }

  lemma OneReply(asked: RawMessage, reply: RawMessage)
    requires asked.IsRequest() && reply.IsResponse()
    ensures Requests([asked]) == 1 && Collected([asked], [Parsed([reply])]) == [reply]
  {
    var left := [Parsed([reply])];
    assert [asked][..0] == [] && [reply][..0] == [];
    assert ReadsFor(left, 1) == 1 && left[..1] == left;
    FlatOne(left[0]);
  }

  /** The POST is answered without events, because there is no request in it. */
  lemma NoteLostWithoutRequest(initId: string, answer: RawMessage, note: RawMessage, sent: RawMessage)
    requires AnswersInit(answer, initId) && !AnswersInit(note, initId) && !sent.IsRequest()
    ensures var recvs := [Parsed([note, answer])] + [];
      && ReplyTo(initId, [sent], recvs, 3, false) == Ok(Accepted)
      && ReadFor(initId, [sent], recvs, 3) == [note, answer]
  {
    hide AnswersInit;
    AnswerSecond(initId, answer, note, []);
    assert [sent][..0] == [] && Requests([sent]) == 0;
    CollectedNothing([sent], []);
  }

  /** Nothing is collected, and the POST is answered with an error. */
  lemma NoteLostWithoutResponse(initId: string, answer: RawMessage, note: RawMessage, asked: RawMessage)
    requires AnswersInit(answer, initId) && !AnswersInit(note, initId) && asked.IsRequest()
    ensures var recvs := [Parsed([note, answer])] + [TimedOut];
      && ReplyTo(initId, [asked], recvs, 3, false) == Err(ResponseTimeout)
      && ReadFor(initId, [asked], recvs, 3) == [note, answer]
  {
    hide AnswersInit;
    AnswerSecond(initId, answer, note, [TimedOut]);
    assert [asked][..0] == [] && Requests([asked]) == 1;
    assert ReadsFor([TimedOut], 1) == 0;
    NothingRead([TimedOut]);
  }
}
