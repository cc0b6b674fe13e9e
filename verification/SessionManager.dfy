/** The session table as the object it is: each operation, run without interference,
    updates the fields as the steps of the model say. */
module SessionManagers {
  import opened Wrappers
  import opened Seqs
  import opened SessionModel

  /** Removal of `order` together with its gauge update and cleanups. */
  function Settled(s: State, left: map<SessionId, Session>, cells: seq<Cell>): State {
    s.(sessions := left,
       gauge := s.gauge - |cells|,
       cleaned := s.cleaned + multiset(cells),
       removers := s.removers + [Remover(true, [])])
  }

  ghost function Repeat(step: Step, n: nat): seq<Step> {
    if n == 0 then [] else [step] + Repeat(step, n - 1)
  }

  /** The steps of one remover that nobody interrupts. */
  ghost function Uninterrupted(s: State, first: Step, n: nat): seq<Step> {
    [first] + ([LowerGauge(|s.removers|)] + Repeat(Cleanup(|s.removers|), n))
  }

  /** Remover `i` has run all its cleanups. */
  function AllCleaned(s: State, i: nat): State
    requires i < |s.removers|
  {
    s.(cleaned := s.cleaned + multiset(s.removers[i].left),
       removers := s.removers[i := s.removers[i].(left := [])])
  }

  lemma AllCleanedAfterOne(s: State, i: nat)
    requires i < |s.removers| && s.removers[i].left != []
    ensures AllCleaned(CleanupStep(s, i), i) == AllCleaned(s, i)
  {
    var left := s.removers[i].left;
    assert left == [left[0]] + left[1..];
    assert s.cleaned + multiset{left[0]} + multiset(left[1..]) == s.cleaned + multiset(left);
    UpdateTwice(s.removers, i, s.removers[i].(left := left[1..]), s.removers[i].(left := []));
  }

  lemma {:induction false} CleanupsRun(s: State, i: nat, n: nat)
    requires Shape(s) && i < |s.removers| && s.removers[i].gaugeDone && |s.removers[i].left| == n
    ensures Legal(s, Repeat(Cleanup(i), n))
    ensures Run(s, Repeat(Cleanup(i), n)) == AllCleaned(s, i)
    decreases n
  {
    if n > 0 {
      var t := Apply(s, Cleanup(i));
      assert t == CleanupStep(s, i);
      ShapeKept(s, Cleanup(i));
      CleanupsRun(t, i, n - 1);
      AllCleanedAfterOne(s, i);
      RunCons(s, Cleanup(i), Repeat(Cleanup(i), n - 1));
    } else {
      assert s.removers[i := s.removers[i].(left := [])] == s.removers;
      assert AllCleaned(s, i) == s;
    }
  }

  /** `Settled` is what the remover's own steps reach when they are taken in a row. */
  lemma {:induction false} SettledIsARun(s: State, first: Step, cells: seq<Cell>)
    requires Shape(s) && Enabled(s, first)
    requires Apply(s, first)
             == s.(sessions := Apply(s, first).sessions, removers := s.removers + [Remover(false, cells)])
    ensures var steps := Uninterrupted(s, first, |cells|);
      Legal(s, steps) && Run(s, steps) == Settled(s, Apply(s, first).sessions, cells)
  {
    var n := |s.removers|;
    var t := Apply(s, first);
    ShapeKept(s, first);
    GaugeAndCleanupsRun(t, n, cells);
    assert t.removers[n := Remover(true, [])] == s.removers + [Remover(true, [])];
    RunCons(s, first, [LowerGauge(n)] + Repeat(Cleanup(n), |cells|));
  }

  lemma GaugeAndCleanupsRun(t: State, i: nat, cells: seq<Cell>)
    requires Shape(t) && i < |t.removers| && t.removers[i] == Remover(false, cells)
    ensures var steps := [LowerGauge(i)] + Repeat(Cleanup(i), |cells|);
      && Legal(t, steps)
      && Run(t, steps) == t.(gauge := t.gauge - |cells|, cleaned := t.cleaned + multiset(cells),
                             removers := t.removers[i := Remover(true, [])])
  {
    var u := LowerGaugeStep(t, i);
    assert Apply(t, LowerGauge(i)) == u;
    CleanupsRun(u, i, |cells|);
    UpdateTwice(t.removers, i, Remover(true, cells), Remover(true, []));
    RunCons(t, LowerGauge(i), Repeat(Cleanup(i), |cells|));
  }

  /** So a session that is taken out by itself is settled by a run, and so is a clear. */
  lemma {:induction false} RemovedIsARun(s: State, first: Step, id: SessionId)
    requires Shape(s) && Enabled(s, first) && id in s.sessions && Apply(s, first) == Remove(s, id)
    ensures var steps := Uninterrupted(s, first, 1);
      Legal(s, steps) && Run(s, steps) == Settled(s, s.sessions - {id}, [s.sessions[id].cell])
  {
    SettledIsARun(s, first, [s.sessions[id].cell]);
  }

  lemma {:induction false} ClearedIsARun(s: State, order: seq<SessionId>)
    requires Shape(s) && Enabled(s, Clear(order)) && order != [] && forall id :: id in order ==> id in s.sessions
    ensures var cells := CellsOf(s.sessions, order);
      var steps := Uninterrupted(s, Clear(order), |cells|);
      Legal(s, steps) && Run(s, steps) == Settled(s, map[], cells)
  {
    SettledIsARun(s, Clear(order), CellsOf(s.sessions, order));
  }

  /** An acquire whose two atomics nobody comes between. */
  function Acquired(s: State, id: SessionId): State
    requires Shape(s)
  {
    match AcquireOutcome(s, id)
    case Err(_) => s
    case Ok(c) =>
      s.(count := s.count[c := s.count[c] + 1],
         gen := if s.count[c] == 0 then s.gen[c := s.gen[c] + 1] else s.gen,
         guards := s.guards + multiset{c})
  }

  lemma {:induction false} AcquiredIsARun(s: State, id: SessionId)
    requires Shape(s)
    ensures var t := AcquireCountStep(s, id);
      match AcquireOutcome(s, id)
      case Err(_) => Acquired(s, id) == t == s
      case Ok(c) =>
        if s.count[c] == 0
        then Shape(t) && c in t.mid && Acquired(s, id) == AcquireGenStep(t, c)
        else Acquired(s, id) == t
  {
    var t := AcquireCountStep(s, id);
    if AcquireOutcome(s, id).Ok? {
      var c := AcquireOutcome(s, id).value;
      if s.count[c] == 0 {
        assert t.mid - multiset{c} == s.mid;
      }
    }
  }

  lemma CreateStepIs(s: State, id: SessionId)
    ensures var t := CreateStep(s, id);
      if |s.sessions| >= s.maxSessions then t == s
      else t == s.(sessions := s.sessions[id := Session(Active, |s.count|)], count := s.count + [0],
                   gen := s.gen + [0], owner := s.owner + [id], gauge := s.gauge + 1, displaced := t.displaced)
  {
  }

  class SessionManager {
    const maxSessions: nat
    var sessions: map<SessionId, Session>
    var count: seq<int>
    var gen: seq<nat>
    var gauge: int
    var cleaned: multiset<Cell>
    ghost var mid: multiset<Cell>
    ghost var guards: multiset<Cell>
    ghost var removers: seq<Remover>
    ghost var owner: seq<SessionId>
    ghost var displaced: multiset<Cell>

    ghost function View(): State
      reads this
    {
      State(maxSessions, sessions, count, gen, gauge, mid, guards, removers, owner, cleaned, displaced)
    }

    constructor (maxSessions: nat)
      ensures View() == Init(maxSessions)
    {
      this.maxSessions := maxSessions;
      sessions, count, gen, gauge := map[], [], [], 0;
      mid, guards, removers, owner := multiset{}, multiset{}, [], [];
      cleaned, displaced := multiset{}, multiset{};
    }

    method CreateWithId(id: SessionId) returns (r: Result<SessionId, SessionError>)
      requires Shape(View()) && mid == multiset{}
      modifies this`sessions, this`count, this`gen, this`owner, this`gauge, this`displaced
      ensures r == if |old(sessions)| >= maxSessions then Err(MaxSessionsReached) else Ok(id)
      ensures View() == CreateStep(old(View()), id)
    {
      hide Shape, CreateStep;
      ghost var goal := CreateStep(View(), id);
      CreateStepIs(View(), id);
      if |sessions| >= maxSessions {
        return Err(MaxSessionsReached);
      }
      displaced := goal.displaced;
      var session := Session(Active, |count|);
      count, gen, owner := count + [0], gen + [0], owner + [id];
      sessions := sessions[id := session];
      gauge := gauge + 1;
      r := Ok(id);
    }

    method Acquire(id: SessionId) returns (r: Result<Cell, SessionError>)
      requires Shape(View())
      modifies this`count, this`gen, this`guards
      ensures r == if id !in old(sessions) || old(sessions)[id].phase == Closed then Err(NotFound)
        else if old(sessions)[id].phase == Closing then Err(IsClosing)
        else Ok(old(sessions)[id].cell)
      ensures View() == Acquired(old(View()), id)
    {
      if id !in sessions {
        return Err(NotFound);
      }
      var session := sessions[id];
      match session.phase {
        case Active =>
          var cell := session.cell;
          var prev := count[cell];
          count := count[cell := prev + 1];
          if prev == 0 {
            gen := gen[cell := gen[cell] + 1];
          }
          guards := guards + multiset{cell};
          r := Ok(cell);
        case Closing =>
          r := Err(IsClosing);
        case Closed =>
          r := Err(NotFound);
      }
    }

    method DropGuard(cell: Cell)
      requires Shape(View()) && cell in guards
      modifies this`count, this`guards
      ensures View() == DropGuardStep(old(View()), cell)
    {
      count := count[cell := count[cell] - 1];
      guards := guards - multiset{cell};
    }

    method BeginDelete(id: SessionId) returns (began: bool)
      requires Shape(View()) && mid == multiset{}
      modifies this`sessions
      ensures began <==> id in old(sessions) && old(sessions)[id].phase == Active
      ensures View() == BeginDeleteStep(old(View()), id)
    {
      if id !in sessions {
        return false;
      }
      match sessions[id].phase {
        case Active =>
          sessions := sessions[id := Session(Closing, sessions[id].cell)];
          began := true;
        case _ =>
          began := false;
      }
    }

    /** What every single removal does after the table is updated. */
    method Finish(cell: Cell)
      modifies this`gauge, this`cleaned, this`removers
      ensures gauge == old(gauge) - 1 && cleaned == old(cleaned) + multiset{cell}
      ensures removers == old(removers) + [Remover(true, [])]
    {
      gauge := gauge - 1;
      cleaned := cleaned + multiset{cell};
      removers := removers + [Remover(true, [])];
    }

    method CompleteClose(id: SessionId)
      requires Shape(View()) && mid == multiset{}
      modifies this
      ensures View() == if id in old(sessions)
        then Settled(old(View()), old(sessions) - {id}, [old(sessions)[id].cell])
        else old(View())
    {
      if id in sessions {
        var cell := sessions[id].cell;
        sessions := sessions - {id};
        Finish(cell);
      }
    }

    method TryIdleClose(id: SessionId, expected: nat) returns (closed: bool)
      requires Shape(View()) && mid == multiset{}
      modifies this
      ensures closed <==>
        && id in old(sessions) && old(sessions)[id].phase == Active
        && old(gen)[old(sessions)[id].cell] == expected && old(count)[old(sessions)[id].cell] == 0
      ensures View() == if closed
        then Settled(old(View()), old(sessions) - {id}, [old(sessions)[id].cell])
        else old(View())
    {
      // Read-check first.
      if id !in sessions {
        return false;
      }
      if sessions[id].phase != Active {
        return false;
      }
      if gen[sessions[id].cell] != expected {
        return false;
      }
      if count[sessions[id].cell] != 0 {
        return false;
      }
      // Re-check under the write lock.
      var cell := sessions[id].cell;
      if sessions[id].phase != Active || gen[cell] != expected || count[cell] != 0 {
        return false;
      }
      sessions := sessions - {id};
      Finish(cell);
      closed := true;
    }

    method TryDrainClose(id: SessionId) returns (closed: bool)
      requires Shape(View()) && mid == multiset{}
      modifies this
      ensures closed <==>
        && id in old(sessions) && old(sessions)[id].phase == Closing
        && old(count)[old(sessions)[id].cell] == 0
      ensures View() == if closed
        then Settled(old(View()), old(sessions) - {id}, [old(sessions)[id].cell])
        else old(View())
    {
      if id in sessions && sessions[id].phase == Closing && count[sessions[id].cell] == 0 {
        var cell := sessions[id].cell;
        sessions := sessions - {id};
        Finish(cell);
        return true;
      }
      return false;
    }

    /** The drain task of a DELETE, with time for `tries` polls before it closes by force:
        the session is out of the table afterwards, cleaned once, whatever its guards. */
    method DrainTask(id: SessionId, tries: nat)
      requires Shape(View()) && mid == multiset{}
      modifies this
      ensures id !in sessions
      ensures View() == if id in old(sessions)
        then Settled(old(View()), old(sessions) - {id}, [old(sessions)[id].cell])
        else old(View())
    {
      hide Settled;
      for i := 0 to tries
        invariant View() == old(View())
      {
        var closed := TryDrainClose(id);
        if closed {
          SettledTable(old(View()), old(sessions) - {id}, [old(sessions)[id].cell]);
          return;
        }
      }
      CompleteClose(id);
      if id in old(sessions) {
        SettledTable(old(View()), old(sessions) - {id}, [old(sessions)[id].cell]);
      }
    }

    /** The locked part of `Clear`: empty the table into a list, in the map's own order. */
    method Drain() returns (order: seq<SessionId>, cells: seq<Cell>)
      requires Shape(View())
      modifies this`sessions
      ensures multiset(order) == multiset(old(sessions).Keys)
      ensures forall id :: id in order ==> id in old(sessions)
      ensures sessions == map[] && cells == CellsOf(old(sessions), order) && |cells| == |order|
    {
      ghost var before := sessions;
      order := [];
      cells := [];
      while sessions != map[]
        invariant forall id :: id in sessions ==> id in before && sessions[id] == before[id]
        invariant forall id :: id in order ==> id in before
        invariant multiset(order) + multiset(sessions.Keys) == multiset(before.Keys)
        invariant cells == CellsOf(before, order) && |cells| == |order|
        decreases |sessions.Keys|
      {
        var id :| id in sessions;
        CellsOfAppend(before, order, id);
        order := order + [id];
        cells := cells + [sessions[id].cell];
        assert (sessions - {id}).Keys == sessions.Keys - {id};
        sessions := sessions - {id};
      }
    }

    method Clear() returns (order: seq<SessionId>)
      requires Shape(View()) && mid == multiset{}
      modifies this
      ensures multiset(order) == multiset(old(sessions).Keys)
      ensures order == [] ==> View() == old(View())
      ensures order != [] ==>
        && (forall id :: id in order ==> id in old(sessions))
        && View() == Settled(old(View()), map[], CellsOf(old(sessions), order))
    {
      hide CellsOf;
      var cells;
      order, cells := Drain();
      if |cells| > 0 {
        gauge := gauge - |cells|;
        CleanAll(cells);
        removers := removers + [Remover(true, [])];
      } else {
        EmptyWhenUnlisted(old(sessions), order);
      }
    }

    method CleanAll(cells: seq<Cell>)
      modifies this`cleaned
      ensures cleaned == old(cleaned) + multiset(cells)
    {
      var i := 0;
      while i < |cells|
        invariant i <= |cells|
        invariant cleaned == old(cleaned) + multiset(cells[..i])
      {
        assert cells[..i + 1] == cells[..i] + [cells[i]];
        cleaned := cleaned + multiset{cells[i]};
        i := i + 1;
      }
      assert cells[..i] == cells;
    }
  }

  lemma SettledTable(s: State, left: map<SessionId, Session>, cells: seq<Cell>)
    ensures Settled(s, left, cells).sessions == left
  {
  }

  lemma EmptyWhenUnlisted(sessions: map<SessionId, Session>, order: seq<SessionId>)
    requires multiset(order) == multiset(sessions.Keys) && order == []
    ensures sessions == map[]
  {
    assert forall id :: id in sessions.Keys ==> id in multiset(sessions.Keys);
  }

  lemma {:induction false} CellsOfAppend(sessions: map<SessionId, Session>, order: seq<SessionId>, id: SessionId)
    requires id in sessions && forall x :: x in order ==> x in sessions
    ensures CellsOf(sessions, order + [id]) == CellsOf(sessions, order) + [sessions[id].cell]
  {
    if order == [] {
      assert order + [id] == [id];
    } else {
      assert (order + [id])[1..] == order[1..] + [id];
      CellsOfAppend(sessions, order[1..], id);
    }
  }
}
