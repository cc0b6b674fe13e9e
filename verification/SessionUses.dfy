/** Who may use a session: everyone while it is active, nobody new from the moment its
    deletion begins. */
module SessionUses {
  import opened SessionModel
  import opened SessionProofs
  import opened SessionTheorems

  /** Guards of the session and acquires of it that are half done. */
  function Uses(s: State, c: Cell): nat {
    s.guards[c] + s.mid[c]
  }

  // ── Active ────────────────────────────────────────────────────────────

  /** An acquire adds one use of an active session, and is a use of no other. */
  lemma {:induction false} ActiveIsAcquired(s: State, id: SessionId, d: Cell)
    requires Inv(s) && id in s.sessions && s.sessions[id].phase == Active
    ensures Enabled(s, AcquireCount(id))
    ensures var t := Apply(s, AcquireCount(id));
      && t.sessions == s.sessions && t.gen == s.gen
      && Uses(t, d) == Uses(s, d) + if d == s.sessions[id].cell then 1 else 0
  {
  }

  /** The second atomic of an acquire completes a use that the first began. */
  lemma {:induction false} HalfDoneIsCompleted(s: State, c: Cell, d: Cell)
    requires Inv(s) && c in s.mid
    ensures Enabled(s, AcquireGen(c))
    ensures var t := Apply(s, AcquireGen(c));
      && Uses(t, d) == Uses(s, d) && t.guards[c] == s.guards[c] + 1
      && (d < |s.gen| ==> t.gen[d] == s.gen[d] + if d == c then 1 else 0)
  {
  }

  /** A guard that is dropped is one use less of its session, in or out of the table. */
  lemma {:induction false} DropReleases(s: State, c: Cell, d: Cell)
    requires Inv(s) && c in s.guards
    ensures Enabled(s, DropGuard(c))
    ensures var t := Apply(s, DropGuard(c));
      && Uses(s, d) == Uses(t, d) + (if d == c then 1 else 0)
      && t.mid == s.mid && t.gen == s.gen && t.sessions == s.sessions
  {
  }

  /** An id that is not in the table, or whose session is closing, is refused. */
  lemma {:induction false} OthersAreRefused(s: State, id: SessionId)
    requires Inv(s) && (id in s.sessions ==> s.sessions[id].phase == Closing)
    ensures Apply(s, AcquireCount(id)) == s
  {
  }

  /** A new session is active, unused, and of generation zero. */
  lemma {:induction false} CreatedIsActive(s: State, id: SessionId)
    requires Inv(s) && s.mid == multiset{} && |s.sessions| < s.maxSessions
    ensures var t := Apply(s, Create(id));
      && id in t.sessions && t.sessions[id].phase == Active
      && var c := t.sessions[id].cell;
         c == |s.count| && t.count[c] == 0 && t.gen[c] == 0 && Uses(t, c) == 0
    ensures forall x :: x in s.sessions && x != id ==>
      x in Apply(s, Create(id)).sessions && Apply(s, Create(id)).sessions[x] == s.sessions[x]
  {
    var c := |s.count|;
    assert c !in s.guards;
  }

  // ── Closing ───────────────────────────────────────────────────────────

  /** No acquire of a closing session is half done. */
  ghost predicate NoneHalfDone(s: State) {
    forall id :: id in s.sessions && s.sessions[id].phase == Closing ==> s.mid[s.sessions[id].cell] == 0
  }

  /** The session of the cell is closing, or out of the table, and nobody is about to use
      it. */
  ghost predicate Shut(s: State, c: Cell)
    requires Shape(s)
  {
    && c < |s.count| && s.mid[c] == 0
    && (InTable(s, c) ==> s.sessions[s.owner[c]].phase == Closing)
  }

  lemma ShutMid(s: State, step: Step, c: Cell)
    requires Inv(s) && Enabled(s, step) && Shut(s, c)
    ensures Apply(s, step).mid[c] == 0 && Apply(s, step).guards[c] <= s.guards[c]
  {
    hide Accounted, Gauged, CreateStep, BeginDeleteStep, Remove, ClearStep, LowerGaugeStep, CleanupStep;
    match step
    case AcquireCount(id) => ShutAcquire(s, id, c);
    case AcquireGen(d) =>
    case DropGuard(d) =>
    case _ => SameUses(s, step);
  }

  lemma ShutAcquire(s: State, id: SessionId, c: Cell)
    requires Shape(s) && Listed(s) && Shut(s, c)
    ensures var t := AcquireCountStep(s, id); t.mid[c] == 0 && t.guards[c] == s.guards[c]
  {
  }

  lemma SameUses(s: State, step: Step)
    requires Shape(s) && Enabled(s, step)
    requires !step.AcquireCount? && !step.AcquireGen? && !step.DropGuard?
    ensures Apply(s, step).guards == s.guards && Apply(s, step).mid == s.mid
  {
  }

  /** Entries change their phase only from active to closing, and new ones have new cells. */
  lemma PhaseStep(s: State, step: Step, id: SessionId)
    requires Shape(s) && Enabled(s, step) && id in Apply(s, step).sessions
    ensures var x := Apply(s, step).sessions[id];
      || x.cell == |s.count|
      || (id in s.sessions && s.sessions[id].cell == x.cell
          && (s.sessions[id].phase == x.phase || (s.sessions[id].phase == Active && x.phase == Closing)))
  {
  }

  lemma ShutStep(s: State, step: Step, c: Cell)
    requires Inv(s) && Enabled(s, step) && Shut(s, c)
    ensures var t := Apply(s, step);
      Shape(t) && Shut(t, c) && t.guards[c] <= s.guards[c] && t.gen[c] == s.gen[c]
  {
    hide Apply, Accounted, Gauged, Counted, Enabled;
    ShapeKept(s, step);
    ShutMid(s, step, c);
    CellStep(s, step, c);
    if InTable(Apply(s, step), c) {
      PhaseStep(s, step, s.owner[c]);
    }
  }

  /** Over all runs: no session whose deletion has begun is ever acquired again, by nobody
      and at no later moment; its generation stands still, and as long as it is in the
      table it is closing, so that its deletion cannot begin a second time and no idle
      timer closes it. */
  lemma {:induction false} ClosingForever(s: State, steps: seq<Step>, c: Cell)
    requires Inv(s) && Legal(s, steps) && Shut(s, c)
    ensures var t := Run(s, steps);
      && c < |t.count| && Uses(t, c) <= Uses(s, c) && t.gen[c] == s.gen[c]
      && (InTable(t, c) ==>
            && !BeginDeleteOutcome(t, t.owner[c])
            && forall g :: !IdleCloses(t, t.owner[c], g))
      && Shut(t, c)
    decreases |steps|
  {
    hide Apply, Listed, Counted, Accounted, Gauged, Enabled;
    if steps == [] {
    } else {
      ShutStep(s, steps[0], c);
      StepKeeps(s, steps[0]);
      ClosingForever(Apply(s, steps[0]), steps[1..], c);
    }
  }

  lemma NoneHalfDoneStep(s: State, step: Step)
    requires Inv(s) && NoneHalfDone(s) && Enabled(s, step)
    ensures NoneHalfDone(Apply(s, step))
  {
    hide Apply, Accounted, Gauged, Counted;
    var t := Apply(s, step);
    StepKeeps(s, step);
    forall id | id in t.sessions && t.sessions[id].phase == Closing ensures t.mid[t.sessions[id].cell] == 0 {
      PhaseStep(s, step, id);
      ClosingStep(s, step, id);
    }
  }

  lemma ClosingStep(s: State, step: Step, id: SessionId)
    requires Inv(s) && NoneHalfDone(s) && Enabled(s, step)
    requires var t := Apply(s, step); id in t.sessions && t.sessions[id].phase == Closing
    ensures Apply(s, step).mid[Apply(s, step).sessions[id].cell] == 0
  {
    hide Apply, Accounted, Gauged, Counted;
    var c := Apply(s, step).sessions[id].cell;
    PhaseStep(s, step, id);
    if c == |s.count| {
      NewIsNotClosing(s, step, id);
    } else if s.sessions[id].phase == Closing {
      ShutMid(s, step, c);
    } else {
      BegunUnderLock(s, step, id);
    }
  }

  lemma NewIsNotClosing(s: State, step: Step, id: SessionId)
    requires Shape(s) && Enabled(s, step) && id in Apply(s, step).sessions
    requires Apply(s, step).sessions[id].cell == |s.count|
    ensures Apply(s, step).sessions[id].phase == Active
  {
  }

  lemma BegunUnderLock(s: State, step: Step, id: SessionId)
    requires Shape(s) && Enabled(s, step) && id in s.sessions && id in Apply(s, step).sessions
    requires s.sessions[id].phase == Active && Apply(s, step).sessions[id].phase == Closing
    ensures s.mid == multiset{} && Apply(s, step).mid == s.mid
  {
  }

  lemma {:induction false} NoneHalfDoneRun(s: State, steps: seq<Step>)
    requires Inv(s) && NoneHalfDone(s) && Legal(s, steps)
    ensures NoneHalfDone(Run(s, steps))
    decreases |steps|
  {
    hide Apply, Listed, Counted, Accounted, Gauged, NoneHalfDone, Enabled;
    if steps == [] {
    } else {
      NoneHalfDoneStep(s, steps[0]);
      StepKeeps(s, steps[0]);
      NoneHalfDoneRun(Apply(s, steps[0]), steps[1..]);
    }
  }

  /** So in every run: from any moment at which a session in the table is closing, its uses
      only become fewer and its generation stands still, at every later moment. */
  lemma NobodyEntersAClosing(maxSessions: nat, before: seq<Step>, id: SessionId, after: seq<Step>)
    requires Legal(Init(maxSessions), before)
    requires var s := Run(Init(maxSessions), before);
      id in s.sessions && s.sessions[id].phase == Closing && Legal(s, after)
    ensures var s := Run(Init(maxSessions), before);
      var t := Run(s, after);
      var c := s.sessions[id].cell;
      && c < |t.count| && t.guards[c] + t.mid[c] <= s.guards[c] + s.mid[c] && t.gen[c] == s.gen[c]
      && (id in t.sessions && t.sessions[id].cell == c ==> t.sessions[id].phase == Closing)
  {
    hide Apply, Listed, Counted, Accounted, Gauged;
    ClosingIsShut(maxSessions, before, id);
    var s := Run(Init(maxSessions), before);
    var c := s.sessions[id].cell;
    ClosingForever(s, after, c);
    OwnerStays(s, after, c);
  }

  lemma {:induction false} OwnerStays(s: State, steps: seq<Step>, c: Cell)
    requires Inv(s) && Legal(s, steps) && c < |s.count|
    ensures Inv(Run(s, steps)) && c < |Run(s, steps).count| && Run(s, steps).owner[c] == s.owner[c]
    decreases |steps|
  {
    hide Apply, Listed, Counted, Accounted, Gauged;
    if steps == [] {
    } else {
      CellStep(s, steps[0], c);
      StepKeeps(s, steps[0]);
      OwnerStays(Apply(s, steps[0]), steps[1..], c);
    }
  }

  /** In every reachable state a session that is closing is shut. */
  lemma ClosingIsShut(maxSessions: nat, steps: seq<Step>, id: SessionId)
    requires Legal(Init(maxSessions), steps)
    requires var s := Run(Init(maxSessions), steps); id in s.sessions && s.sessions[id].phase == Closing
    ensures var s := Run(Init(maxSessions), steps);
      var c := s.sessions[id].cell;
      Inv(s) && InTable(s, c) && s.owner[c] == id && Shut(s, c)
  {
    hide Accounted, Gauged, Counted;
    StartInv(maxSessions);
    Reachable(maxSessions, steps);
    NoneHalfDoneRun(Init(maxSessions), steps);
  }

  // ── What begins and ends ──────────────────────────────────────────────

  /** A deletion begins exactly for an active session, which is closing afterwards; no
      other entry changes. */
  lemma {:induction false} DeletionBegins(s: State, id: SessionId, x: SessionId)
    requires Inv(s) && s.mid == multiset{} && x in s.sessions
    ensures var t := Apply(s, BeginDelete(id));
      && t.sessions.Keys == s.sessions.Keys && t.sessions[x].cell == s.sessions[x].cell
      && t.sessions[x].phase == (if x == id then Closing else s.sessions[x].phase)
      && (BeginDeleteOutcome(s, x) <==> s.sessions[x].phase == Active)
  {
  }

  /** Exactly when the idle and the drain path take a session out: nobody uses it, and it
      is active with the generation the timer read, or closing. */
  lemma {:induction false} ClosesIff(s: State, id: SessionId, g: nat)
    requires Inv(s) && s.mid == multiset{} && id in s.sessions
    ensures var c := s.sessions[id].cell;
      && (id !in Apply(s, TryIdleClose(id, g)).sessions
          <==> s.sessions[id].phase == Active && s.gen[c] == g && Uses(s, c) == 0)
      && (id !in Apply(s, TryDrainClose(id)).sessions
          <==> s.sessions[id].phase == Closing && Uses(s, c) == 0)
      && id !in Apply(s, CompleteClose(id)).sessions
  {
  }

  /** A clear takes every session out, and leaves one remover with all of them and nothing
      else; of an empty table it leaves nothing. */
  lemma {:induction false} ClearTakesAll(s: State, order: seq<SessionId>, c: Cell)
    requires Inv(s) && Enabled(s, Clear(order))
    ensures var t := Apply(s, Clear(order));
      && t.sessions == map[]
      && if s.sessions == map[] then t == s
         else
           && |t.removers| == |s.removers| + 1 && t.removers[..|s.removers|] == s.removers
           && var r := t.removers[|s.removers|];
              !r.gaugeDone && |r.left| == |s.sessions| && multiset(r.left)[c] == if InTable(s, c) then 1 else 0
  {
    hide Counted, Accounted, Gauged, InTable;
    CellsAll(s, order, c);
    if s.sessions == map[] {
    } else {
      var id :| id in s.sessions;
      assert id in order;
    }
  }
}
