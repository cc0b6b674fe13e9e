/** The promises of the session table, over all interleavings. */
module SessionTheorems {
  import opened Wrappers
  import opened Seqs
  import opened SessionModel
  import opened SessionProofs

  // ── Runs ──────────────────────────────────────────────────────────────

  /** Every reachable state satisfies the invariant. */
  lemma Reachable(maxSessions: nat, steps: seq<Step>)
    requires Legal(Init(maxSessions), steps)
    ensures Inv(Run(Init(maxSessions), steps))
  {
    var s := Init(maxSessions);
    assert forall d: Cell :: Places(s, d) == 0;
    AfterKeeps(s, steps, |steps|);
  }

  // ── Guard accounting ──────────────────────────────────────────────────

  /** In every reachable state a session's counter is its number of live guards plus the
      acquires between their two atomics, so `fetch_sub` never takes it below zero;
      the variant Closed is never stored. */
  lemma GuardAccounting(maxSessions: nat, steps: seq<Step>)
    requires Legal(Init(maxSessions), steps)
    ensures var t := Run(Init(maxSessions), steps);
      && (forall c :: 0 <= c < |t.count| ==> t.count[c] == t.guards[c] + t.mid[c] >= 0)
      && (forall c :: c in t.guards ==> t.count[c] >= 1)
      && (forall id :: id in t.sessions ==> t.sessions[id].phase == Active || t.sessions[id].phase == Closing)
  {
    Reachable(maxSessions, steps);
  }

  /** Once a session is out of the table it stays out and its guards only go away:
      nobody can acquire it again. This covers the forced removals too. */
  lemma {:induction false} OutOfTable(s: State, steps: seq<Step>, c: Cell, k: nat)
    requires Inv(s) && Legal(s, steps) && c < |s.count| && !InTable(s, c) && k <= |steps|
    ensures var t := After(s, steps, k);
      c < |t.count| && !InTable(t, c) && t.count[c] == t.guards[c] <= s.guards[c]
    decreases k
  {
    hide Apply, Accounted, Gauged;
    if k == 0 {
    } else {
      CellStep(s, steps[0], c);
      StepKeeps(s, steps[0]);
      OutOfTable(Apply(s, steps[0]), steps[1..], c, k - 1);
    }
  }

  /** A session removed by the idle or the drain path has no live guard at that moment
      and none at any later moment. */
  lemma UnheldForever(s: State, id: SessionId, step: Step, steps: seq<Step>, k: nat)
    requires Inv(s) && Enabled(s, step)
    requires (step.TryIdleClose? && step.id == id && IdleCloses(s, id, step.expected))
             || (step == TryDrainClose(id) && DrainCloses(s, id))
    requires Shape(Apply(s, step)) && Legal(Apply(s, step), steps) && k <= |steps|
    ensures var c := s.sessions[id].cell;
      && s.guards[c] == 0
      && !InTable(After(Apply(s, step), steps, k), c)
      && After(Apply(s, step), steps, k).guards[c] == 0
  {
    var c := s.sessions[id].cell;
    assert s.count[c] == s.guards[c] + s.mid[c];
    StepKeeps(s, step);
    assert Apply(s, step) == Remove(s, id);
    OutOfTable(Apply(s, step), steps, c, k);
  }

  // ── Exactly-once teardown ─────────────────────────────────────────────

  /** No creation of the run reuses an id, as with random UUIDs. */
  ghost predicate FreshIds(s: State, steps: seq<Step>)
    requires Shape(s) && Legal(s, steps)
    decreases |steps|
  {
    steps == [] ||
    (&& (steps[0].Create? ==> steps[0].id !in s.owner)
     && (ShapeKept(s, steps[0]); FreshIds(Apply(s, steps[0]), steps[1..])))
  }

  lemma FreshOwnersStep(s: State, step: Step)
    requires Inv(s) && Enabled(s, step) && Distinct(s.owner)
    requires step.Create? ==> step.id !in s.owner
    ensures var t := Apply(s, step);
      s.owner <= t.owner && Distinct(t.owner) && t.displaced == s.displaced
  {
    HistoryStep(s, step);
  }

  lemma {:induction false} FreshOwners(s: State, steps: seq<Step>)
    requires Inv(s) && Legal(s, steps) && FreshIds(s, steps) && Distinct(s.owner)
    ensures var t := Run(s, steps);
      s.owner <= t.owner && Distinct(t.owner) && t.displaced == s.displaced
    decreases |steps|
  {
    hide Apply, Accounted, Gauged;
    if steps == [] {
    } else {
      StepKeeps(s, steps[0]);
      FreshOwnersStep(s, steps[0]);
      FreshOwners(Apply(s, steps[0]), steps[1..]);
    }
  }

  /** Whatever race of removers occurs, cleanup runs at most once per session, and exactly
      once when every remover has finished; the gauge is the table size plus the removals
      it does not show yet; the table never exceeds its limit. */
  lemma {:induction false} Teardown(maxSessions: nat, steps: seq<Step>)
    requires Legal(Init(maxSessions), steps) && FreshIds(Init(maxSessions), steps)
    ensures var t := Run(Init(maxSessions), steps);
      && Inv(t)
      && (forall c :: t.cleaned[c] <= 1)
      && (forall c :: InTable(t, c) ==> t.cleaned[c] == 0)
      && ((forall i :: 0 <= i < |t.removers| ==> t.removers[i].left == []) ==>
            forall c :: 0 <= c < |t.count| && !InTable(t, c) ==> t.cleaned[c] == 1)
      && t.gauge == |t.sessions| + Owed(t.removers)
      && |t.sessions| <= maxSessions
  {
    hide Listed, Counted, Apply, Gauged;
    var s := Init(maxSessions);
    StartInv(maxSessions);
    Reachable(maxSessions, steps);
    FreshOwners(s, steps);
    var t := Run(s, steps);
    LimitKept(s, steps);
    GaugeIs(t);
    forall c: Cell ensures t.cleaned[c] <= 1 && (InTable(t, c) ==> t.cleaned[c] == 0) {
      assert Places(t, c) <= 1;
    }
    if forall i :: 0 <= i < |t.removers| ==> t.removers[i].left == [] {
      forall c | 0 <= c < |t.count| && !InTable(t, c) ensures t.cleaned[c] == 1 {
        LeftNone(t.removers, c);
        assert Places(t, c) == 1;
      }
    }
  }

  lemma StartInv(maxSessions: nat)
    ensures Inv(Init(maxSessions)) && Distinct(Init(maxSessions).owner)
  {
    assert forall d: Cell :: Places(Init(maxSessions), d) == 0;
  }

  lemma GaugeIs(s: State)
    requires Gauged(s)
    ensures s.gauge == |s.sessions| + Owed(s.removers) + |s.displaced| && |s.sessions| <= s.maxSessions
  {
  }

  lemma {:induction false} LimitKept(s: State, steps: seq<Step>)
    requires Inv(s) && Legal(s, steps)
    ensures Run(s, steps).maxSessions == s.maxSessions
    decreases |steps|
  {
    hide Apply, Counted, Accounted, Gauged;
    if steps == [] {
    } else {
      StepKeeps(s, steps[0]);
      HistoryStep(s, steps[0]);
      LimitKept(Apply(s, steps[0]), steps[1..]);
    }
  }

  /** `create_with_id` keeps the gauge law exactly when it does not overwrite a session:
      below the limit, an id already in the table leaves a session that is counted
      forever and never cleaned. */
  lemma {:induction false} CreateKeepsGaugeIff(s: State, id: SessionId)
    requires Inv(s) && s.mid == multiset{} && s.displaced == multiset{}
    ensures var t := CreateStep(s, id);
      t.gauge == |t.sessions| + Owed(t.removers) <==> (id !in s.sessions || |s.sessions| >= s.maxSessions)
  {
    CreateKeeps(s, id);
  }

  /** It happens: two creations under one id leave one session, a gauge of two, and nobody
      who is to clean up the first. */
  lemma CreationMayDisplace(id: SessionId)
    ensures Legal(Init(2), [Create(id), Create(id)])
    ensures var t := Run(Init(2), [Create(id), Create(id)]);
      && 0 in t.displaced && t.gauge == 2 && |t.sessions| == 1 && t.removers == []
      && t.cleaned == multiset{}
  {
    var s := CreateStep(Init(2), id);
    var t := CreateStep(s, id);
    ShapeKept(Init(2), Create(id));
    ShapeKept(s, Create(id));
    StartRun(t);
    RunCons(s, Create(id), []);
    RunCons(Init(2), Create(id), [Create(id)]);
    assert [Create(id)] + [] == [Create(id)] && [Create(id)] + [Create(id)] == [Create(id), Create(id)];
  }

  /** A session overwritten by a creation is never cleaned, whatever happens later. */
  lemma {:induction false} DisplacedNeverCleaned(s: State, steps: seq<Step>, c: Cell)
    requires Inv(s) && Legal(s, steps) && c in s.displaced
    ensures Run(s, steps).cleaned[c] == 0
    decreases |steps|
  {
    hide Apply, Listed, Counted, Gauged;
    assert Places(s, c) <= 1;
    if steps == [] {
    } else {
      StepKeeps(s, steps[0]);
      HistoryStep(s, steps[0]);
      DisplacedNeverCleaned(Apply(s, steps[0]), steps[1..], c);
    }
  }

  // ── Idle-close safety ─────────────────────────────────────────────────

  /** A use of the cell since generation `g` was read has shown, or is about to show, in
      the generation. */
  ghost predicate Stale(s: State, c: Cell, g: nat)
    requires Shape(s)
  {
    c < |s.count| && (s.gen[c] > g || (s.gen[c] == g && s.mid[c] > 0))
  }

  /** From a zero count, `t` is stale or still at zero with the generation unmoved. */
  ghost predicate StaleOrZero(s: State, t: State, c: Cell)
    requires Shape(s) && Shape(t) && c < |s.count|
  {
    && c < |t.count|
    && (s.count[c] == 0 ==>
          Stale(t, c, s.gen[c]) || (t.count[c] == 0 && t.gen[c] == s.gen[c]))
  }

  lemma StaleStep(s: State, step: Step, c: Cell, g: nat)
    requires Inv(s) && Enabled(s, step) && c < |s.count|
    ensures Inv(Apply(s, step))
    ensures Stale(s, c, g) ==> Stale(Apply(s, step), c, g)
    ensures StaleOrZero(s, Apply(s, step), c)
  {
    hide Apply, Listed, Accounted, Gauged;
    StepKeeps(s, step);
    CellStep(s, step, c);
  }

  lemma {:induction false} StaleKept(s: State, steps: seq<Step>, c: Cell, g: nat)
    requires Inv(s) && Legal(s, steps) && Stale(s, c, g)
    ensures Stale(Run(s, steps), c, g)
    decreases |steps|
  {
    hide Apply, Listed, Counted, Accounted, Gauged;
    if steps == [] {
    } else {
      StaleStep(s, steps[0], c, g);
      StaleKept(Apply(s, steps[0]), steps[1..], c, g);
    }
  }

  ghost predicate Quiet(s: State, c: Cell) {
    s.guards[c] == 0 && s.mid[c] == 0
  }

  lemma QuietWhenZero(s: State, c: Cell)
    requires Inv(s) && c < |s.count|
    ensures Quiet(s, c) <==> s.count[c] == 0
  {
  }

  lemma {:induction false} QuietUntil(s: State, steps: seq<Step>, c: Cell, k: nat)
    requires Inv(s) && Legal(s, steps) && c < |s.count| && s.count[c] == 0 && k <= |steps|
    requires var t := Run(s, steps); c < |t.gen| && t.gen[c] == s.gen[c] && t.mid == multiset{}
    ensures Quiet(After(s, steps, k), c)
    decreases |steps|
  {
    hide Apply, Listed, Counted, Accounted, Gauged;
    QuietWhenZero(s, c);
    if k == 0 {
    } else {
      var t := Apply(s, steps[0]);
      StaleStep(s, steps[0], c, s.gen[c]);
      if Stale(t, c, s.gen[c]) {
        StaleKept(t, steps[1..], c, s.gen[c]);
      } else {
        QuietUntil(t, steps[1..], c, k - 1);
      }
    }
  }

  /** Under fresh ids a table entry found twice is the same session. */
  lemma SameSession(s: State, steps: seq<Step>, id: SessionId)
    requires Inv(s) && Legal(s, steps) && FreshIds(s, steps) && Distinct(s.owner)
    requires id in s.sessions && id in Run(s, steps).sessions
    ensures s.sessions[id].cell == Run(s, steps).sessions[id].cell
  {
    AfterKeeps(s, steps, |steps|);
    FreshOwners(s, steps);
    var t := Run(s, steps);
    assert t.owner[s.sessions[id].cell] == s.owner[s.sessions[id].cell] == id;
    assert t.owner[t.sessions[id].cell] == id;
  }

  /** Idle-close safety, and its exact condition. A timer read generation `g` in state
      `s`; later `try_idle_close(id, g)` succeeds. Nobody used the session at any moment
      between if and only if its count was zero when the generation was read. */
  lemma {:induction false} IdleCloseSafety(s: State, steps: seq<Step>, id: SessionId)
    requires Inv(s) && Legal(s, steps) && FreshIds(s, steps) && Distinct(s.owner)
    requires id in s.sessions
    requires var t := Run(s, steps); t.mid == multiset{} && IdleCloses(t, id, s.gen[s.sessions[id].cell])
    ensures var c := s.sessions[id].cell;
      (forall k :: 0 <= k <= |steps| ==> Quiet(After(s, steps, k), c)) <==> s.count[c] == 0
  {
    var c := s.sessions[id].cell;
    SameSession(s, steps, id);
    if s.count[c] == 0 {
      forall k | 0 <= k <= |steps| ensures Quiet(After(s, steps, k), c) {
        QuietUntil(s, steps, c, k);
      }
    } else {
      assert After(s, steps, 0) == s;
      assert !Quiet(After(s, steps, 0), c);
    }
  }

  /** One active session in a table of one. */
  function Scene(count: nat, gen: nat, between: bool, held: bool): (s: State)
    ensures Shape(s)
  {
    State(1, map["s" := Session(Active, 0)], [count], [gen], 1,
          if between then multiset{0} else multiset{}, if held then multiset{0} else multiset{},
          [], ["s"], multiset{}, multiset{})
  }

  lemma SceneCreated()
    ensures Enabled(Init(1), Create("s")) && Apply(Init(1), Create("s")) == Scene(0, 0, false, false)
  {
  }

  lemma SceneCounted()
    ensures var s := Scene(0, 0, false, false);
      Enabled(s, AcquireCount("s")) && Apply(s, AcquireCount("s")) == Scene(1, 0, true, false)
  {
    assert AcquireOutcome(Scene(0, 0, false, false), "s") == Ok(0);
  }

  lemma SceneAcquired()
    ensures var s := Scene(1, 0, true, false);
      Enabled(s, AcquireGen(0)) && Apply(s, AcquireGen(0)) == Scene(1, 1, false, true)
  {
  }

  lemma SceneDropped()
    ensures var s := Scene(1, 1, false, true);
      Enabled(s, DropGuard(0)) && Apply(s, DropGuard(0)) == Scene(0, 1, false, false)
  {
  }

  lemma SceneClosed()
    ensures var s := Scene(0, 1, false, false);
      Enabled(s, TryIdleClose("s", 1)) && Apply(s, TryIdleClose("s", 1)).sessions == map[]
  {
  }

  /** The timer of `spawn_idle_timer_if_needed` reads the count before the generation, so
      it can hold the generation of a session in use: in this run it reads count 0 after
      the first step, the session is acquired, it reads generation 1 after the third, the
      guard is dropped, and the close with that generation succeeds. */
  lemma {:induction false} TimerMayMissAUse()
    ensures var created := [Create("s")];
      var held := created + [AcquireCount("s")] + [AcquireGen(0)];
      var steps := held + [DropGuard(0)] + [TryIdleClose("s", 1)];
      && Legal(Init(1), created) && Run(Init(1), created).count == [0]
      && Legal(Init(1), held) && Run(Init(1), held).gen == [1] && Run(Init(1), held).guards == multiset{0}
      && Legal(Init(1), steps) && Run(Init(1), steps).sessions == map[]
  {
    hide Enabled, Apply, Legal, Run, Shape;
    SceneCreated();
    SceneCounted();
    SceneAcquired();
    SceneDropped();
    SceneClosed();
    StartRun(Init(1));
    RunAppend(Init(1), [], Create("s"));
    var created := [Create("s")];
    assert [] + created == created;
    RunAppend(Init(1), created, AcquireCount("s"));
    RunAppend(Init(1), created + [AcquireCount("s")], AcquireGen(0));
    var held := created + [AcquireCount("s")] + [AcquireGen(0)];
    RunAppend(Init(1), held, DropGuard(0));
    RunAppend(Init(1), held + [DropGuard(0)], TryIdleClose("s", 1));
  }

  lemma StartRun(s: State)
    requires Shape(s)
    ensures Legal(s, []) && Run(s, []) == s
  {
  }
}
