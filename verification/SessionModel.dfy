/** The session table as a step system. One step is one atomic access or one
    section under the table's read-write lock, so a run of steps is an interleaving
    of the operations of any number of threads. */
module SessionModel {
  import opened Wrappers

  type SessionId = string

  /** Names the pair of atomics (access count, timeout generation) made by one creation. */
  type Cell = nat

  datatype Phase = Active | Closing | Closed

  datatype Session = Session(phase: Phase, cell: Cell)

  datatype SessionError = NotFound | IsClosing | MaxSessionsReached

  /** A thread that took sessions out of the table and has released the lock: it
      still has to lower the gauge, then to run the cleanup of each session in `left`. */
  datatype Remover = Remover(gaugeDone: bool, left: seq<Cell>)

  datatype State = State(
    maxSessions: nat,
    sessions: map<SessionId, Session>,
    count: seq<int>,            // access counter of each cell
    gen: seq<nat>,              // timeout generation of each cell
    gauge: int,                 // the active_sessions metric
    mid: multiset<Cell>,        // acquires between their two atomics, read lock held
    guards: multiset<Cell>,     // live guards
    removers: seq<Remover>,
    owner: seq<SessionId>,      // history: the id each cell was created under
    cleaned: multiset<Cell>,    // history: cleanups that ran
    displaced: multiset<Cell>)  // history: sessions overwritten by a creation under their id

  datatype Step =
    | Create(id: SessionId)
    | AcquireCount(id: SessionId)
    | AcquireGen(cell: Cell)
    | DropGuard(cell: Cell)
    | BeginDelete(id: SessionId)
    | CompleteClose(id: SessionId)
    | TryIdleClose(id: SessionId, expected: nat)
    | TryDrainClose(id: SessionId)
    | Clear(order: seq<SessionId>)
    | LowerGauge(remover: nat)
    | Cleanup(remover: nat)

  function Init(maxSessions: nat): State {
    State(maxSessions, map[], [], [], 0, multiset{}, multiset{}, [], [], multiset{}, multiset{})
  }

  /** What every reachable state has by construction; it makes the steps well defined. */
  ghost predicate Shape(s: State) {
    && |s.gen| == |s.count| == |s.owner|
    && (forall id :: id in s.sessions ==> s.sessions[id].cell < |s.count|)
    && (forall c :: c in s.guards ==> c < |s.count|)
    && (forall c :: c in s.mid ==> c < |s.count|)
  }

  ghost predicate TakesWriteLock(step: Step) {
    step.Create? || step.BeginDelete? || step.CompleteClose? || step.TryIdleClose?
    || step.TryDrainClose? || step.Clear?
  }

  /** A step that needs the write lock waits for every reader to leave. */
  ghost predicate Enabled(s: State, step: Step) {
    && (TakesWriteLock(step) ==> s.mid == multiset{})
    && match step
       case AcquireGen(c) => c in s.mid
       case DropGuard(c) => c in s.guards
       case Clear(order) => multiset(order) == multiset(s.sessions.Keys)
       case LowerGauge(i) => i < |s.removers| && !s.removers[i].gaugeDone
       case Cleanup(i) => i < |s.removers| && s.removers[i].gaugeDone && s.removers[i].left != []
       case _ => true
  }

  function CellsOf(sessions: map<SessionId, Session>, order: seq<SessionId>): seq<Cell>
    requires forall id :: id in order ==> id in sessions
  {
    if order == [] then [] else [sessions[order[0]].cell] + CellsOf(sessions, order[1..])
  }

  function CreateStep(s: State, id: SessionId): State {
    if |s.sessions| >= s.maxSessions then s
    else s.(sessions := s.sessions[id := Session(Active, |s.count|)],
            count := s.count + [0],
            gen := s.gen + [0],
            owner := s.owner + [id],
            gauge := s.gauge + 1,
            displaced := if id in s.sessions then s.displaced + multiset{s.sessions[id].cell} else s.displaced)
  }

  function AcquireOutcome(s: State, id: SessionId): Result<Cell, SessionError> {
    if id !in s.sessions then Err(NotFound)
    else match s.sessions[id].phase
      case Active => Ok(s.sessions[id].cell)
      case Closing => Err(IsClosing)
      case Closed => Err(NotFound)
  }

  function AcquireCountStep(s: State, id: SessionId): State
    requires Shape(s)
  {
    match AcquireOutcome(s, id)
    case Err(_) => s
    case Ok(c) =>
      var raised := s.(count := s.count[c := s.count[c] + 1]);
      if s.count[c] == 0 then raised.(mid := s.mid + multiset{c})
      else raised.(guards := s.guards + multiset{c})
  }

  function AcquireGenStep(s: State, c: Cell): State
    requires Shape(s) && c in s.mid
  {
    s.(gen := s.gen[c := s.gen[c] + 1], mid := s.mid - multiset{c}, guards := s.guards + multiset{c})
  }

  function DropGuardStep(s: State, c: Cell): State
    requires Shape(s) && c in s.guards
  {
    s.(count := s.count[c := s.count[c] - 1], guards := s.guards - multiset{c})
  }

  predicate BeginDeleteOutcome(s: State, id: SessionId) {
    id in s.sessions && s.sessions[id].phase == Active
  }

  function BeginDeleteStep(s: State, id: SessionId): State {
    if BeginDeleteOutcome(s, id)
    then s.(sessions := s.sessions[id := s.sessions[id].(phase := Closing)])
    else s
  }

  /** Take one session out of the table; its gauge update and cleanup are still to come. */
  function Remove(s: State, id: SessionId): State
    requires id in s.sessions
  {
    s.(sessions := s.sessions - {id}, removers := s.removers + [Remover(false, [s.sessions[id].cell])])
  }

  predicate IdleCloses(s: State, id: SessionId, expected: nat)
    requires Shape(s)
  {
    && id in s.sessions
    && s.sessions[id].phase == Active
    && s.gen[s.sessions[id].cell] == expected
    && s.count[s.sessions[id].cell] == 0
  }

  predicate DrainCloses(s: State, id: SessionId)
    requires Shape(s)
  {
    && id in s.sessions
    && s.sessions[id].phase == Closing
    && s.count[s.sessions[id].cell] == 0
  }

  function ClearStep(s: State, order: seq<SessionId>): State
    requires multiset(order) == multiset(s.sessions.Keys)
  {
    if order == [] then s
    else
      assert forall id :: id in order ==> id in multiset(order);
      s.(sessions := map[], removers := s.removers + [Remover(false, CellsOf(s.sessions, order))])
  }

  function LowerGaugeStep(s: State, i: nat): State
    requires i < |s.removers|
  {
    s.(gauge := s.gauge - |s.removers[i].left|,
       removers := s.removers[i := s.removers[i].(gaugeDone := true)])
  }

  function CleanupStep(s: State, i: nat): State
    requires i < |s.removers| && s.removers[i].left != []
  {
    s.(cleaned := s.cleaned + multiset{s.removers[i].left[0]},
       removers := s.removers[i := s.removers[i].(left := s.removers[i].left[1..])])
  }

  ghost function Apply(s: State, step: Step): State
    requires Shape(s) && Enabled(s, step)
  {
    match step
    case Create(id) => CreateStep(s, id)
    case AcquireCount(id) => AcquireCountStep(s, id)
    case AcquireGen(c) => AcquireGenStep(s, c)
    case DropGuard(c) => DropGuardStep(s, c)
    case BeginDelete(id) => BeginDeleteStep(s, id)
    case CompleteClose(id) => if id in s.sessions then Remove(s, id) else s
    case TryIdleClose(id, expected) => if IdleCloses(s, id, expected) then Remove(s, id) else s
    case TryDrainClose(id) => if DrainCloses(s, id) then Remove(s, id) else s
    case Clear(order) => ClearStep(s, order)
    case LowerGauge(i) => LowerGaugeStep(s, i)
    case Cleanup(i) => CleanupStep(s, i)
  }

  lemma ShapeKept(s: State, step: Step)
    requires Shape(s) && Enabled(s, step)
    ensures Shape(Apply(s, step))
  {
    hide Shape, Apply;
    if TakesWriteLock(step) {
      TableShapeKept(s, step);
    } else {
      CellShapeKept(s, step);
    }
  }

  lemma CellShapeKept(s: State, step: Step)
    requires Shape(s) && Enabled(s, step) && !TakesWriteLock(step)
    ensures Shape(Apply(s, step))
  {
    var t := Apply(s, step);
    assert t.sessions == s.sessions && |t.count| == |s.count|;
    assert forall c :: c in t.guards || c in t.mid ==> c < |s.count|;
  }

  lemma TableShapeKept(s: State, step: Step)
    requires Shape(s) && Enabled(s, step) && TakesWriteLock(step)
    ensures Shape(Apply(s, step))
  {
    var t := Apply(s, step);
    assert t.guards == s.guards && t.mid == s.mid;
    assert |t.gen| == |t.count| == |t.owner| >= |s.count|;
    forall id | id in t.sessions ensures t.sessions[id].cell < |t.count| {
      assert id in s.sessions || (step.Create? && t.sessions[id].cell == |s.count|);
    }
  }

  /** The steps can be taken one after the other from `s`. */
  ghost predicate Legal(s: State, steps: seq<Step>)
    requires Shape(s)
    decreases |steps|
  {
    steps == [] || (Enabled(s, steps[0]) && (ShapeKept(s, steps[0]); Legal(Apply(s, steps[0]), steps[1..])))
  }

  /** The state after the first `k` of the steps. */
  ghost function After(s: State, steps: seq<Step>, k: nat): (r: State)
    requires Shape(s) && Legal(s, steps) && k <= |steps|
    ensures Shape(r)
    decreases k
  {
    if k == 0 then s else ShapeKept(s, steps[0]); After(Apply(s, steps[0]), steps[1..], k - 1)
  }

  ghost function Run(s: State, steps: seq<Step>): (r: State)
    requires Shape(s) && Legal(s, steps)
    ensures Shape(r)
  {
    After(s, steps, |steps|)
  }

  /** One more step at the end. */
  lemma {:induction false} RunAppend(s: State, steps: seq<Step>, step: Step)
    requires Shape(s) && Legal(s, steps) && Enabled(Run(s, steps), step)
    ensures Legal(s, steps + [step])
    ensures Run(s, steps + [step]) == Apply(Run(s, steps), step)
    decreases |steps|
  {
    hide Apply, Enabled;
    if steps == [] {
      assert [] + [step] == [step] && [step][1..] == [];
      ShapeKept(s, step);
    } else {
      ShapeKept(s, steps[0]);
      RunAppend(Apply(s, steps[0]), steps[1..], step);
      assert (steps + [step])[0] == steps[0] && (steps + [step])[1..] == steps[1..] + [step];
    }
  }

  lemma RunCons(s: State, step: Step, rest: seq<Step>)
    requires Shape(s) && Enabled(s, step) && Shape(Apply(s, step)) && Legal(Apply(s, step), rest)
    ensures Legal(s, [step] + rest)
    ensures Run(s, [step] + rest) == Run(Apply(s, step), rest)
  {
    assert ([step] + rest)[1..] == rest;
  }
}
