/** The handshake at lock granularity, and the two gateways that run it. */
module HandshakeLocks {
  import opened Wrappers
  import opened JsonRpc
  import opened Handshake

  // ── Lock granularity ──────────────────────────────────────────────────

  /** `owed` is the head of the posts of a handler that has set Ready and let go of the
      phase lock, but has not drained the queue yet. The rest is history: the stdin messages
      that were queued, that came while the drain was owed, and that came after it; and for
      each post and each queued message the number of the stdin message that it is, -1 for
      a message of the gateway's own. */
  datatype Locked = Locked(
    m: Machine,
    owed: Option<seq<RawMessage>>,
    posted: seq<RawMessage>,
    stdin: seq<RawMessage>,
    head: seq<RawMessage>,
    buffered: seq<RawMessage>,
    overtaking: seq<RawMessage>,
    late: seq<RawMessage>,
    numbers: seq<int>,
    queued: seq<int>)

  datatype Section = StdinSection(msg: RawMessage, freshId: string) | ServerSection(msgs: seq<RawMessage>) | DrainSection

  const LOCKED_START: Locked := Locked(Machine(Pending, []), None, [], [], [], [], [], [], [], [])

  function Own(n: nat): seq<int> {
    seq(n, _ => -1)
  }

  predicate Enabled(s: Locked, step: Section) {
    step.DrainSection? ==> s.owed.Some?
  }

  function Apply(cfg: Config, s: Locked, step: Section): Locked
    requires Enabled(s, step)
  {
    match step
    case StdinSection(msg, freshId) =>
      var (m, e) := OnStdin(cfg, s.m, msg, freshId);
      var own := s.m.phase.Pending? && m.phase.WaitingSyntheticInit?;
      var t := s.(m := m, posted := s.posted + e.post, stdin := s.stdin + [msg],
                  numbers := s.numbers + if e.post == [] then [] else [if own then -1 else |s.stdin|]);
      if m.pending != s.m.pending then t.(buffered := s.buffered + [msg], queued := s.queued + [|s.stdin|])
      else if !s.m.phase.Ready? then t
      else if s.owed.Some? then t.(overtaking := s.overtaking + [msg])
      else t.(late := s.late + [msg])
    case ServerSection(msgs) =>
      var (m, _, head) := OnServerLocked(s.m, msgs);
      (match head
       case Some(first) => s.(m := m, owed := head, head := first)
       case None => s.(m := m))
    case DrainSection =>
      s.(m := s.m.(pending := []), owed := None, posted := s.posted + (s.owed.value + s.m.pending),
         numbers := s.numbers + (Own(|s.owed.value|) + s.queued), queued := [])
  }

  function Run(cfg: Config, s: Locked, steps: seq<Section>): Option<Locked>
    decreases |steps|
  {
    if steps == [] then Some(s)
    else if !Enabled(s, steps[0]) then None
    else Run(cfg, Apply(cfg, s, steps[0]), steps[1..])
  }

  /** The stdin messages that pass through the queue or go straight to the server. */
  function Forwarded(s: Locked): seq<RawMessage> {
    if s.stdin != [] && s.stdin[0].IsInitializeRequest() then s.stdin[1..] else s.stdin
  }

  /** Exactly what has been posted and what is queued, in every state. */
  ghost predicate Shape(s: Locked) {
    && Forwarded(s) == s.buffered + s.overtaking + s.late
    && (s.stdin == [] <==> s.m.phase.Pending?)
    && match s.m.phase
       case Pending => s.posted == [] && s.m.pending == [] && s.owed.None?
       case Ready =>
         && |s.posted| >= 1
         && (if s.owed.Some?
             then s.owed == Some(s.head) && s.late == [] && s.m.pending == s.buffered
                  && s.posted[1..] == s.overtaking
             else s.m.pending == []
                  && s.posted[1..] == s.overtaking + (s.head + s.buffered) + s.late)
       case _ => |s.posted| == 1 && s.m.pending == s.buffered && s.overtaking == [] && s.late == [] && s.owed.None?
  }

  lemma FirstStdinKeepsShape(cfg: Config, s: Locked, msg: RawMessage, freshId: string)
    requires Shape(s) && s.m.phase.Pending?
    ensures Shape(Apply(cfg, s, StdinSection(msg, freshId)))
  {
    var t := Apply(cfg, s, StdinSection(msg, freshId));
    assert t.stdin == [msg];
    assert s.buffered == [] && s.overtaking == [] && s.late == [];
  }

  lemma LaterStdinForwarded(s: Locked, t: Locked, msg: RawMessage)
    requires s.stdin != [] && t.stdin == s.stdin + [msg]
    ensures Forwarded(t) == Forwarded(s) + [msg]
  {
    assert t.stdin[0] == s.stdin[0] && t.stdin[1..] == s.stdin[1..] + [msg];
  }

  lemma WaitingStdinKeepsShape(cfg: Config, s: Locked, msg: RawMessage, freshId: string)
    requires Shape(s) && (s.m.phase.WaitingSyntheticInit? || s.m.phase.WaitingPassthroughInit?)
    ensures Shape(Apply(cfg, s, StdinSection(msg, freshId)))
  {
    hide Forwarded;
    var t := Apply(cfg, s, StdinSection(msg, freshId));
    LaterStdinForwarded(s, t, msg);
    assert |t.m.pending| == |s.m.pending + [msg]| == |s.m.pending| + 1;
    assert s.buffered + [] + [] + [msg] == t.buffered + [] + [];
    assert s.posted + [] == s.posted;
  }

  lemma ReadyStdinKeepsShape(cfg: Config, s: Locked, msg: RawMessage, freshId: string)
    requires Shape(s) && s.m.phase.Ready?
    ensures Shape(Apply(cfg, s, StdinSection(msg, freshId)))
  {
    hide Forwarded, Apply, OnStdin;
    var t := Apply(cfg, s, StdinSection(msg, freshId));
    ReadyStdinIs(cfg, s, msg, freshId);
    LaterStdinForwarded(s, t, msg);
    assert t.posted[1..] == s.posted[1..] + [msg];
    if s.owed.None? {
      var before := s.overtaking + (s.head + s.buffered);
      assert before + s.late + [msg] == before + (s.late + [msg]);
      assert s.buffered + s.overtaking + s.late + [msg] == s.buffered + s.overtaking + (s.late + [msg]);
    } else {
      assert s.buffered + s.overtaking + [] + [msg] == s.buffered + (s.overtaking + [msg]) + [];
    }
  }

  lemma ReadyStdinIs(cfg: Config, s: Locked, msg: RawMessage, freshId: string)
    requires s.m.phase.Ready?
    ensures var t := Apply(cfg, s, StdinSection(msg, freshId));
      t == s.(posted := s.posted + [msg], stdin := s.stdin + [msg], numbers := s.numbers + [|s.stdin|],
              overtaking := if s.owed.Some? then s.overtaking + [msg] else s.overtaking,
              late := if s.owed.Some? then s.late else s.late + [msg])
  {
  }

  lemma StdinKeepsShape(cfg: Config, s: Locked, msg: RawMessage, freshId: string)
    requires Shape(s)
    ensures Shape(Apply(cfg, s, StdinSection(msg, freshId)))
  {
    hide Shape, Apply;
    match s.m.phase
    case Pending => FirstStdinKeepsShape(cfg, s, msg, freshId);
    case Ready => ReadyStdinKeepsShape(cfg, s, msg, freshId);
    case _ => WaitingStdinKeepsShape(cfg, s, msg, freshId);
  }

  lemma StepKeepsShape(cfg: Config, s: Locked, step: Section)
    requires Shape(s) && Enabled(s, step)
    ensures Shape(Apply(cfg, s, step))
  {
    match step
    case StdinSection(msg, freshId) => StdinKeepsShape(cfg, s, msg, freshId);
    case ServerSection(msgs) =>
      var t := Apply(cfg, s, step);
      if t.m.phase != s.m.phase {
        assert t.posted[1..] == [];
      }
    case DrainSection =>
      var t := Apply(cfg, s, step);
      assert t.posted[1..] == s.posted[1..] + (s.owed.value + s.m.pending);
      assert s.overtaking + (s.head + s.buffered) + [] == s.overtaking + (s.head + s.buffered);
  }

  lemma {:induction false} RunKeepsShape(cfg: Config, s: Locked, steps: seq<Section>)
    requires Shape(s) && Run(cfg, s, steps).Some?
    ensures Shape(Run(cfg, s, steps).value)
    decreases |steps|
  {
    hide Apply, Shape;
    if steps == [] {
    } else {
      StepKeepsShape(cfg, s, steps[0]);
      RunKeepsShape(cfg, Apply(cfg, s, steps[0]), steps[1..]);
    }
  }

  /** At lock granularity no stdin message is lost, duplicated or left in the queue: once
      the drain has run, the posts after the init request are the messages that overtook
      the drain, then the head with the queue, then the later ones, while stdin had the
      queued ones first. */
  lemma LockedTrace(cfg: Config, steps: seq<Section>)
    requires Run(cfg, LOCKED_START, steps).Some?
    ensures var s := Run(cfg, LOCKED_START, steps).value;
      && Forwarded(s) == s.buffered + s.overtaking + s.late
      && (s.m.phase.Ready? && s.owed.None? ==>
            && s.m.pending == []
            && |s.posted| >= 1
            && s.posted[1..] == s.overtaking + (s.head + s.buffered) + s.late
            && multiset(s.posted[1..]) == multiset(s.head) + multiset(Forwarded(s)))
  {
    RunKeepsShape(cfg, LOCKED_START, steps);
    var s := Run(cfg, LOCKED_START, steps).value;
    if s.m.phase.Ready? && s.owed.None? {
      assert multiset(s.posted[1..])
          == multiset(s.overtaking) + (multiset(s.head) + multiset(s.buffered)) + multiset(s.late);
    }
  }

  // ── Order ─────────────────────────────────────────────────────────────

  function Range(from: int, n: nat): seq<int> {
    seq(n, i => from + i)
  }

  lemma RangeGrows(from: int, n: nat)
    ensures Range(from, n) + [from + n] == Range(from, n + 1)
  {
  }

  /** The number of the first stdin message that is not the init request. */
  function First(s: Locked): int {
    |s.stdin| - |Forwarded(s)|
  }

  /** Which stdin messages the posts and the queue are, in every state. */
  ghost predicate Numbered(s: Locked) {
    var first, b, o := First(s), |s.buffered|, |s.overtaking|;
    match s.m.phase
    case Pending => s.numbers == [] && s.queued == []
    case WaitingSyntheticInit(_) => first == 0 && s.numbers == [-1] && s.queued == Range(0, b)
    case WaitingPassthroughInit(_) => first == 1 && s.numbers == [0] && s.queued == Range(1, b)
    case Ready =>
      && (first == 0 || (first == 1 && s.head == []))
      && if s.owed.Some? then
           s.numbers == [first - 1] + Range(first + b, o) && s.queued == Range(first, b)
         else
           s.numbers == [first - 1] + Range(first + b, o) + (Own(|s.head|) + Range(first, b))
                        + Range(first + b + o, |s.late|)
  }

  ghost predicate QueueMeant(pending: seq<RawMessage>, queued: seq<int>, stdin: seq<RawMessage>) {
    && |queued| == |pending|
    && forall k :: 0 <= k < |queued| ==> 0 <= queued[k] < |stdin| && pending[k] == stdin[queued[k]]
  }

  /** The first post is the init request, which may have been rewritten. */
  ghost predicate PostsMeant(posted: seq<RawMessage>, numbers: seq<int>, stdin: seq<RawMessage>) {
    && |numbers| == |posted|
    && forall k :: 1 <= k < |posted| && numbers[k] >= 0 ==> numbers[k] < |stdin| && posted[k] == stdin[numbers[k]]
  }

  /** The numbers are those of the messages posted and queued. */
  ghost predicate Meant(s: Locked) {
    PostsMeant(s.posted, s.numbers, s.stdin) && QueueMeant(s.m.pending, s.queued, s.stdin)
  }

  lemma PostsMeantGrow(posted: seq<RawMessage>, numbers: seq<int>, stdin: seq<RawMessage>, msg: RawMessage)
    requires PostsMeant(posted, numbers, stdin)
    ensures PostsMeant(posted, numbers, stdin + [msg])
    ensures PostsMeant(posted + [msg], numbers + [|stdin|], stdin + [msg])
  {
  }

  lemma QueueMeantGrow(pending: seq<RawMessage>, queued: seq<int>, stdin: seq<RawMessage>, msg: RawMessage)
    requires QueueMeant(pending, queued, stdin)
    ensures QueueMeant(pending, queued, stdin + [msg])
    ensures QueueMeant(pending + [msg], queued + [|stdin|], stdin + [msg])
  {
  }

  lemma FirstPostMeant(msg: RawMessage, n: int, stdin: seq<RawMessage>)
    ensures PostsMeant([msg], [n], stdin)
  {
  }

  lemma StdinKeepsMeant(cfg: Config, s: Locked, msg: RawMessage, freshId: string)
    requires Shape(s) && Meant(s)
    ensures Meant(Apply(cfg, s, StdinSection(msg, freshId)))
  {
    hide Forwarded, PostsMeant, QueueMeant;
    var t := Apply(cfg, s, StdinSection(msg, freshId));
    PostsMeantGrow(s.posted, s.numbers, s.stdin, msg);
    QueueMeantGrow(s.m.pending, s.queued, s.stdin, msg);
    assert s.posted + [] == s.posted && s.numbers + [] == s.numbers;
    if s.m.phase.Pending? {
      NoNumbersYet(s);
      assert t.posted == [t.posted[0]] && t.numbers == [t.numbers[0]];
      FirstPostMeant(t.posted[0], t.numbers[0], t.stdin);
    }
    assert |s.m.pending + [msg]| != |s.m.pending|;
  }

  lemma NoNumbersYet(s: Locked)
    requires Shape(s) && Meant(s) && s.m.phase.Pending?
    ensures s.numbers == [] && s.posted == []
  {
  }

  lemma ServerKeepsMeant(cfg: Config, s: Locked, msgs: seq<RawMessage>)
    requires Meant(s)
    ensures Meant(Apply(cfg, s, ServerSection(msgs)))
  {
  }

  lemma DrainKeepsMeant(cfg: Config, s: Locked)
    requires Shape(s) && Meant(s) && Enabled(s, DrainSection)
    ensures Meant(Apply(cfg, s, DrainSection))
  {
    hide Forwarded;
  }

  lemma FirstStdinNumbered(cfg: Config, s: Locked, msg: RawMessage, freshId: string)
    requires Shape(s) && Numbered(s) && s.m.phase.Pending?
    ensures Numbered(Apply(cfg, s, StdinSection(msg, freshId)))
  {
    var t := Apply(cfg, s, StdinSection(msg, freshId));
    assert t.stdin == [msg] && s.buffered == [];
    assert Range(1, 0) == [] && Range(0, 1) == [0];
    assert t.m.phase.WaitingPassthroughInit? ==> t.buffered == [];
  }

  lemma FirstStays(s: Locked, t: Locked, msg: RawMessage)
    requires s.stdin != [] && t.stdin == s.stdin + [msg]
    ensures First(t) == First(s)
  {
    LaterStdinForwarded(s, t, msg);
  }

  lemma WaitingStdinNumbered(cfg: Config, s: Locked, msg: RawMessage, freshId: string)
    requires Shape(s) && Numbered(s) && (s.m.phase.WaitingSyntheticInit? || s.m.phase.WaitingPassthroughInit?)
    ensures Numbered(Apply(cfg, s, StdinSection(msg, freshId)))
  {
    hide Forwarded, Range;
    var t := Apply(cfg, s, StdinSection(msg, freshId));
    FirstStays(s, t, msg);
    RangeGrows(First(s), |s.buffered|);
    assert |t.m.pending| == |s.m.pending| + 1;
    assert |s.stdin| == First(s) + |s.buffered|;
    assert s.numbers + [] == s.numbers;
  }

  lemma ReadyStdinNumbered(cfg: Config, s: Locked, msg: RawMessage, freshId: string)
    requires Shape(s) && Numbered(s) && s.m.phase.Ready?
    ensures Numbered(Apply(cfg, s, StdinSection(msg, freshId)))
  {
    hide Forwarded, Range, Own;
    var t := Apply(cfg, s, StdinSection(msg, freshId));
    FirstStays(s, t, msg);
    var first, b, o, l := First(s), |s.buffered|, |s.overtaking|, |s.late|;
    assert |s.stdin| == first + b + o + l;
    RangeGrows(first + b, o);
    RangeGrows(first + b + o, l);
    var before := [first - 1] + Range(first + b, o);
    assert before + [|s.stdin|] == [first - 1] + (Range(first + b, o) + [|s.stdin|]);
    var drained := before + (Own(|s.head|) + Range(first, b));
    assert drained + Range(first + b + o, l) + [|s.stdin|] == drained + (Range(first + b + o, l) + [|s.stdin|]);
  }

  lemma ServerNumbered(cfg: Config, s: Locked, msgs: seq<RawMessage>)
    requires Shape(s) && Numbered(s)
    ensures Numbered(Apply(cfg, s, ServerSection(msgs)))
  {
    hide Range, Own;
    var t := Apply(cfg, s, ServerSection(msgs));
    if t.m.phase != s.m.phase {
      NoRange(First(s) + |s.buffered|);
      assert [First(s) - 1] + [] == [First(s) - 1];
    }
  }

  lemma NoRange(from: int)
    ensures Range(from, 0) == []
  {
  }

  lemma DrainNumbered(cfg: Config, s: Locked)
    requires Shape(s) && Numbered(s) && Enabled(s, DrainSection)
    ensures Numbered(Apply(cfg, s, DrainSection))
  {
    hide Range, Own;
    var t := Apply(cfg, s, DrainSection);
    NoRange(First(s) + |s.buffered| + |s.overtaking|);
    assert t.numbers + [] == t.numbers;
  }

  lemma StdinNumbered(cfg: Config, s: Locked, msg: RawMessage, freshId: string)
    requires Shape(s) && Numbered(s)
    ensures Numbered(Apply(cfg, s, StdinSection(msg, freshId)))
  {
    hide Shape, Numbered, Apply;
    match s.m.phase
    case Pending => FirstStdinNumbered(cfg, s, msg, freshId);
    case Ready => ReadyStdinNumbered(cfg, s, msg, freshId);
    case _ => WaitingStdinNumbered(cfg, s, msg, freshId);
  }

  lemma StepNumbers(cfg: Config, s: Locked, step: Section)
    requires Shape(s) && Numbered(s) && Meant(s) && Enabled(s, step)
    ensures Numbered(Apply(cfg, s, step)) && Meant(Apply(cfg, s, step))
  {
    hide Numbered, Meant, Apply;
    match step
    case StdinSection(msg, freshId) =>
      StdinKeepsMeant(cfg, s, msg, freshId);
      StdinNumbered(cfg, s, msg, freshId);
    case ServerSection(msgs) =>
      ServerKeepsMeant(cfg, s, msgs);
      ServerNumbered(cfg, s, msgs);
    case DrainSection =>
      DrainKeepsMeant(cfg, s);
      DrainNumbered(cfg, s);
  }

  lemma {:induction false} RunNumbers(cfg: Config, s: Locked, steps: seq<Section>)
    requires Shape(s) && Numbered(s) && Meant(s) && Run(cfg, s, steps).Some?
    ensures Shape(Run(cfg, s, steps).value)
    ensures Numbered(Run(cfg, s, steps).value) && Meant(Run(cfg, s, steps).value)
    decreases |steps|
  {
    hide Apply, Shape, Numbered, Meant;
    if steps == [] {
    } else {
      StepKeepsShape(cfg, s, steps[0]);
      StepNumbers(cfg, s, steps[0]);
      RunNumbers(cfg, Apply(cfg, s, steps[0]), steps[1..]);
    }
  }

  /** The gateway's own messages first, then the stdin messages in their order. */
  ghost predicate InOrder(numbers: seq<int>) {
    forall i, j :: 0 <= i < j < |numbers| ==> numbers[i] <= numbers[j]
  }

  /** Every post is the stdin message of its number, and stdin order is kept exactly if no
      handler posted between Ready and the drain, or there was nothing to drain. */
  lemma OrderKeptIff(cfg: Config, steps: seq<Section>)
    requires Run(cfg, LOCKED_START, steps).Some?
    requires var s := Run(cfg, LOCKED_START, steps).value; s.m.phase.Ready? && s.owed.None?
    ensures var s := Run(cfg, LOCKED_START, steps).value;
      && Meant(s)
      && (InOrder(s.numbers) <==> s.overtaking == [] || s.head + s.buffered == [])
  {
    hide Run, Meant, InOrder, Shape;
    StartNumbered();
    RunNumbers(cfg, LOCKED_START, steps);
    var s := Run(cfg, LOCKED_START, steps).value;
    InOrderIff(First(s), |s.buffered|, |s.overtaking|, |s.head|, |s.late|);
    assert |s.head + s.buffered| == |s.head| + |s.buffered|;
  }

  /** `o` messages posted ahead of `h` of the gateway's own and of `b` queued ones. */
  lemma InOrderIff(first: int, b: nat, o: nat, h: nat, l: nat)
    requires first == 0 || (first == 1 && h == 0)
    ensures InOrder([first - 1] + Range(first + b, o) + (Own(h) + Range(first, b)) + Range(first + b + o, l))
      <==> o == 0 || h + b == 0
  {
    var numbers := [first - 1] + Range(first + b, o) + (Own(h) + Range(first, b)) + Range(first + b + o, l);
    assert forall k :: 0 <= k < |numbers| ==>
      (numbers[k] ==
        if k == 0 then first - 1
        else if k < 1 + o then first + b + (k - 1)
        else if k < 1 + o + h then -1
        else if k < 1 + o + h + b then first + (k - 1 - o - h)
        else first + b + o + (k - 1 - o - h - b));
    if o > 0 && h + b > 0 {
      assert numbers[1] > numbers[1 + o];
    }
  }

  lemma StartNumbered()
    ensures Shape(LOCKED_START) && Numbered(LOCKED_START) && Meant(LOCKED_START)
  {
  }

  /** The order is not kept in general: a message handled after Ready is set and before
      the queue is drained is posted ahead of `initialized` and of the queued messages. */
  lemma DrainCanBeOvertaken(cfg: Config, first: RawMessage, second: RawMessage, answer: RawMessage)
    requires !first.IsInitializeRequest() && AnswersInit(answer, "x")
    ensures Run(cfg, LOCKED_START,
        [StdinSection(first, "x"), ServerSection([answer]), StdinSection(second, "y"), DrainSection]).Some?
    ensures Run(cfg, LOCKED_START,
        [StdinSection(first, "x"), ServerSection([answer]), StdinSection(second, "y"), DrainSection]).value.posted
      == [FallbackInit(cfg, "x"), second, InitializedNotification(), first]
  {
    var steps := [StdinSection(first, "x"), ServerSection([answer]), StdinSection(second, "y"), DrainSection];
    var s1 := Apply(cfg, LOCKED_START, steps[0]);
    assert s1.posted == [FallbackInit(cfg, "x")] && s1.m == Machine(WaitingSyntheticInit("x"), [first]);
    var s2 := Apply(cfg, s1, steps[1]);
    assert FindAnswer([answer], "x") == Some(0);
    assert s2.m == Machine(Ready, [first]) && s2.owed == Some([InitializedNotification()]);
    var s3 := Apply(cfg, s2, steps[2]);
    assert s3.posted == [FallbackInit(cfg, "x"), second];
    var s4 := Apply(cfg, s3, steps[3]);
    assert s4.posted == [FallbackInit(cfg, "x"), second] + ([InitializedNotification()] + [first]);
    var r3, r2, r1 := steps[1..], steps[1..][1..], steps[1..][1..][1..];
    assert r3[0] == steps[1] && r2[0] == steps[2] && r1[0] == steps[3] && r1[1..] == [];
    assert Run(cfg, s3, r1) == Some(s4);
    assert Run(cfg, s2, r2) == Some(s4);
    assert Run(cfg, s1, r3) == Some(s4);
  }
}
