/** What holds in every interleaving of session operations. */
module SessionProofs {
  import opened SessionModel

  // ── Bookkeeping over the removers ─────────────────────────────────────

  /** How often cell `c` waits for its cleanup. */
  ghost function LeftOf(rs: seq<Remover>, c: Cell): nat {
    if rs == [] then 0 else multiset(rs[0].left)[c] + LeftOf(rs[1..], c)
  }

  /** Removals the gauge does not show yet. */
  ghost function Owed(rs: seq<Remover>): nat {
    if rs == [] then 0 else (if rs[0].gaugeDone then 0 else |rs[0].left|) + Owed(rs[1..])
  }

  lemma {:induction false} RemoverAdded(rs: seq<Remover>, r: Remover, c: Cell)
    ensures LeftOf(rs + [r], c) == LeftOf(rs, c) + multiset(r.left)[c]
    ensures Owed(rs + [r]) == Owed(rs) + if r.gaugeDone then 0 else |r.left|
  {
    if rs == [] {
      assert rs + [r] == [r] && [r][1..] == [];
    } else {
      assert (rs + [r])[1..] == rs[1..] + [r];
      RemoverAdded(rs[1..], r, c);
    }
  }

  lemma {:induction false} RemoverChanged(rs: seq<Remover>, i: nat, r: Remover, c: Cell)
    requires i < |rs|
    ensures LeftOf(rs[i := r], c) + multiset(rs[i].left)[c] == LeftOf(rs, c) + multiset(r.left)[c]
    ensures Owed(rs[i := r]) + (if rs[i].gaugeDone then 0 else |rs[i].left|)
            == Owed(rs) + if r.gaugeDone then 0 else |r.left|
  {
    if i == 0 {
      assert rs[i := r][1..] == rs[1..];
    } else {
      assert rs[i := r][1..] == rs[1..][i - 1 := r];
      RemoverChanged(rs[1..], i - 1, r, c);
    }
  }

  lemma {:induction false} LeftNone(rs: seq<Remover>, c: Cell)
    requires forall i :: 0 <= i < |rs| ==> rs[i].left == []
    ensures LeftOf(rs, c) == 0
  {
    if rs == [] {
    } else {
      LeftNone(rs[1..], c);
    }
  }

  // ── The invariant ─────────────────────────────────────────────────────

  ghost predicate InTable(s: State, c: Cell)
    requires Shape(s)
  {
    c < |s.count| && s.owner[c] in s.sessions && s.sessions[s.owner[c]].cell == c
  }

  /** How often the session made with cell `c` is accounted for: in the table, waiting
      for cleanup, cleaned, or overwritten. */
  ghost function Places(s: State, c: Cell): nat
    requires Shape(s)
  {
    (if InTable(s, c) then 1 else 0) + LeftOf(s.removers, c) + s.cleaned[c] + s.displaced[c]
  }

  ghost predicate Listed(s: State)
    requires Shape(s)
  {
    forall id :: id in s.sessions ==>
      s.sessions[id].phase != Closed && s.owner[s.sessions[id].cell] == id
  }

  /** Every counter is its live guards plus the acquire between its two atomics. */
  ghost predicate Counted(s: State)
    requires Shape(s)
  {
    && (forall c :: 0 <= c < |s.count| ==> s.count[c] == s.guards[c] + s.mid[c])
    && (forall c :: c in s.mid ==> InTable(s, c))
  }

  ghost predicate Accounted(s: State)
    requires Shape(s)
  {
    forall c: Cell :: Places(s, c) == if c < |s.count| then 1 else 0
  }

  ghost predicate Gauged(s: State) {
    && s.gauge == |s.sessions| + Owed(s.removers) + |s.displaced|
    && |s.sessions| <= s.maxSessions
  }

  ghost predicate Inv(s: State) {
    Shape(s) && Listed(s) && Counted(s) && Accounted(s) && Gauged(s)
  }

  // ── Each step keeps it ────────────────────────────────────────────────

  lemma RemoveKeeps(s: State, id: SessionId)
    requires Inv(s) && s.mid == multiset{} && id in s.sessions
    ensures Inv(Remove(s, id))
  {
    var c := s.sessions[id].cell;
    var t := Remove(s, id);
    assert t.sessions.Keys == s.sessions.Keys - {id};
    RemoverAdded(s.removers, Remover(false, [c]), c);
    forall d: Cell ensures Places(t, d) == if d < |t.count| then 1 else 0 {
      RemoverAdded(s.removers, Remover(false, [c]), d);
      assert Places(s, d) == if d < |s.count| then 1 else 0;
    }
  }

  lemma CreateKeeps(s: State, id: SessionId)
    requires Inv(s) && s.mid == multiset{}
    ensures Inv(CreateStep(s, id))
  {
    hide Listed, Counted, Places;
    if |s.sessions| < s.maxSessions {
      CreateLists(s, id);
      CreateCounts(s, id);
      forall d: Cell ensures Places(CreateStep(s, id), d) == if d < |s.count| + 1 then 1 else 0 {
        CreateAccounts(s, id, d);
      }
      assert CreateStep(s, id).sessions.Keys == s.sessions.Keys + {id};
    }
  }

  lemma CreateLists(s: State, id: SessionId)
    requires Inv(s) && |s.sessions| < s.maxSessions
    ensures Shape(CreateStep(s, id)) && Listed(CreateStep(s, id))
  {
    var t := CreateStep(s, id);
    forall x | x in t.sessions ensures t.sessions[x].phase != Closed && t.owner[t.sessions[x].cell] == x {
      if x != id {
        assert x in s.sessions;
      }
    }
  }

  lemma CreateCounts(s: State, id: SessionId)
    requires Inv(s) && s.mid == multiset{} && |s.sessions| < s.maxSessions
    ensures Counted(CreateStep(s, id))
  {
    assert |s.count| !in s.guards;
  }

  lemma CreateAccounts(s: State, id: SessionId, d: Cell)
    requires Inv(s) && |s.sessions| < s.maxSessions
    ensures Places(CreateStep(s, id), d) == if d < |s.count| + 1 then 1 else 0
  {
    var t := CreateStep(s, id);
    assert Places(s, d) == if d < |s.count| then 1 else 0;
    if d < |s.count| {
      assert t.owner[d] == s.owner[d];
      assert InTable(t, d) <==> InTable(s, d) && s.owner[d] != id;
      assert id in s.sessions ==> s.owner[s.sessions[id].cell] == id;
      assert t.displaced[d] == s.displaced[d] + if InTable(s, d) && s.owner[d] == id then 1 else 0;
    } else if d == |s.count| {
      assert InTable(t, d);
    }
  }

  /** Steps that leave the table's keys, the removers and the histories alone. */
  lemma SameAccounts(s: State, t: State)
    requires Inv(s) && Shape(t) && t.owner == s.owner && t.removers == s.removers
    requires t.cleaned == s.cleaned && t.displaced == s.displaced && t.gauge == s.gauge
    requires t.maxSessions == s.maxSessions && t.sessions.Keys == s.sessions.Keys
    requires forall id :: id in s.sessions ==> t.sessions[id].cell == s.sessions[id].cell
    ensures Accounted(t) && Gauged(t)
    ensures forall c :: InTable(t, c) == InTable(s, c)
  {
    forall d: Cell ensures Places(t, d) == if d < |t.count| then 1 else 0 {
      assert Places(s, d) == if d < |s.count| then 1 else 0;
      assert InTable(t, d) == InTable(s, d);
    }
    assert |t.sessions.Keys| == |s.sessions.Keys|;
  }

  lemma AcquireCountKeeps(s: State, id: SessionId)
    requires Inv(s)
    ensures Inv(AcquireCountStep(s, id))
  {
    hide Listed, Counted, Accounted, Gauged;
    AcquireCounts(s, id);
    SameAccounts(s, AcquireCountStep(s, id));
  }

  /** One access more, by a guard or by an acquire that is still to move the generation. */
  lemma CountRaised(s: State, c: Cell)
    requires Shape(s) && Listed(s) && Counted(s) && InTable(s, c)
    ensures var t := s.(count := s.count[c := s.count[c] + 1], mid := s.mid + multiset{c});
      Shape(t) && Listed(t) && Counted(t)
    ensures var t := s.(count := s.count[c := s.count[c] + 1], guards := s.guards + multiset{c});
      Shape(t) && Listed(t) && Counted(t)
  {
  }

  lemma AcquireCounts(s: State, id: SessionId)
    requires Shape(s) && Listed(s) && Counted(s)
    ensures var t := AcquireCountStep(s, id); Shape(t) && Listed(t) && Counted(t)
  {
    hide Listed, Counted, InTable, Shape;
    if AcquireOutcome(s, id).Ok? {
      TableEntry(s, id);
      CountRaised(s, s.sessions[id].cell);
    }
  }

  lemma TableEntry(s: State, id: SessionId)
    requires Shape(s) && Listed(s) && id in s.sessions
    ensures InTable(s, s.sessions[id].cell)
  {
  }

  lemma AcquireGenKeeps(s: State, c: Cell)
    requires Inv(s) && c in s.mid
    ensures Inv(AcquireGenStep(s, c))
  {
    hide Listed, Counted, Accounted, Gauged;
    AcquireGenCounts(s, c);
    SameAccounts(s, AcquireGenStep(s, c));
  }

  lemma AcquireGenCounts(s: State, c: Cell)
    requires Shape(s) && Listed(s) && Counted(s) && c in s.mid
    ensures var t := AcquireGenStep(s, c); Shape(t) && Listed(t) && Counted(t)
  {
  }

  lemma DropGuardKeeps(s: State, c: Cell)
    requires Inv(s) && c in s.guards
    ensures Inv(DropGuardStep(s, c))
  {
    hide Listed, Counted, Accounted, Gauged;
    DropGuardCounts(s, c);
    SameAccounts(s, DropGuardStep(s, c));
  }

  lemma DropGuardCounts(s: State, c: Cell)
    requires Shape(s) && Listed(s) && Counted(s) && c in s.guards
    ensures var t := DropGuardStep(s, c); Shape(t) && Listed(t) && Counted(t)
  {
  }

  lemma BeginDeleteKeeps(s: State, id: SessionId)
    requires Inv(s)
    ensures Inv(BeginDeleteStep(s, id))
  {
    hide Listed, Counted, Accounted, Gauged;
    var t := BeginDeleteStep(s, id);
    assert t.sessions.Keys == s.sessions.Keys;
    BeginDeleteCounts(s, id);
    SameAccounts(s, t);
  }

  lemma BeginDeleteCounts(s: State, id: SessionId)
    requires Shape(s) && Listed(s) && Counted(s)
    ensures var t := BeginDeleteStep(s, id); Shape(t) && Listed(t) && Counted(t)
  {
    var t := BeginDeleteStep(s, id);
    assert forall x :: x in t.sessions <==> x in s.sessions;
    assert forall x :: x in t.sessions ==> t.sessions[x].cell == s.sessions[x].cell;
    assert forall c :: InTable(s, c) ==> InTable(t, c);
  }

  /** The cells of distinct sessions, each once. */
  lemma {:induction false} CellsOnce(s: State, order: seq<SessionId>, c: Cell)
    requires Inv(s)
    requires forall id :: id in order ==> id in s.sessions
    requires forall id :: multiset(order)[id] <= 1
    ensures |CellsOf(s.sessions, order)| == |order|
    ensures multiset(CellsOf(s.sessions, order))[c]
            == if InTable(s, c) && s.owner[c] in order then 1 else 0
  {
    if order == [] {
    } else {
      assert order == [order[0]] + order[1..];
      assert forall id :: multiset(order[1..])[id] <= multiset(order)[id];
      CellsOnce(s, order[1..], c);
      assert order[0] !in multiset(order[1..]);
      var cell := s.sessions[order[0]].cell;
      assert s.owner[cell] == order[0];
    }
  }

  /** A clear takes every session and nothing else. */
  lemma CellsAll(s: State, order: seq<SessionId>, c: Cell)
    requires Inv(s) && multiset(order) == multiset(s.sessions.Keys)
    ensures forall id :: id in order <==> id in s.sessions
    ensures |CellsOf(s.sessions, order)| == |s.sessions|
    ensures multiset(CellsOf(s.sessions, order))[c] == if InTable(s, c) then 1 else 0
  {
    assert forall id :: id in order <==> id in multiset(order);
    CellsOnce(s, order, c);
    assert |multiset(order)| == |order|;
  }

  lemma ClearAccounts(s: State, order: seq<SessionId>, d: Cell)
    requires Inv(s) && multiset(order) == multiset(s.sessions.Keys) && order != []
    ensures Places(ClearStep(s, order), d) == if d < |s.count| then 1 else 0
  {
    hide Listed, Counted, Gauged;
    CellsAll(s, order, d);
    RemoverAdded(s.removers, Remover(false, CellsOf(s.sessions, order)), d);
    assert Places(s, d) == if d < |s.count| then 1 else 0;
  }

  lemma ClearKeeps(s: State, order: seq<SessionId>)
    requires Inv(s) && s.mid == multiset{} && multiset(order) == multiset(s.sessions.Keys)
    ensures Inv(ClearStep(s, order))
  {
    if order != [] {
      CellsAll(s, order, 0);
      RemoverAdded(s.removers, Remover(false, CellsOf(s.sessions, order)), 0);
      forall d: Cell ensures Places(ClearStep(s, order), d) == if d < |s.count| then 1 else 0 {
        ClearAccounts(s, order, d);
      }
    }
  }

  lemma LowerGaugeKeeps(s: State, i: nat)
    requires Inv(s) && i < |s.removers| && !s.removers[i].gaugeDone
    ensures Inv(LowerGaugeStep(s, i))
  {
    var r := s.removers[i].(gaugeDone := true);
    var t := LowerGaugeStep(s, i);
    RemoverChanged(s.removers, i, r, 0);
    forall d: Cell ensures Places(t, d) == if d < |t.count| then 1 else 0 {
      RemoverChanged(s.removers, i, r, d);
      assert Places(s, d) == if d < |s.count| then 1 else 0;
    }
  }

  lemma CleanupKeeps(s: State, i: nat)
    requires Inv(s) && i < |s.removers| && s.removers[i].gaugeDone && s.removers[i].left != []
    ensures Inv(CleanupStep(s, i))
  {
    hide Listed, Counted, Places, Gauged;
    var t := CleanupStep(s, i);
    SameTable(s, t);
    CleanupKeepsGauge(s, i);
    forall d: Cell ensures Places(t, d) == if d < |t.count| then 1 else 0 {
      CleanupAccounts(s, i, d);
    }
  }

  lemma SameTable(s: State, t: State)
    requires Shape(s) && Listed(s) && Counted(s) && t.sessions == s.sessions && t.owner == s.owner
    requires t.count == s.count && t.gen == s.gen && t.guards == s.guards && t.mid == s.mid
    ensures Shape(t) && Listed(t) && Counted(t)
  {
  }

  lemma CleanupKeepsGauge(s: State, i: nat)
    requires Gauged(s) && i < |s.removers| && s.removers[i].gaugeDone && s.removers[i].left != []
    ensures Gauged(CleanupStep(s, i))
  {
    hide LeftOf;
    RemoverChanged(s.removers, i, s.removers[i].(left := s.removers[i].left[1..]), 0);
  }

  /** The cleanup moves its session from those that wait to those that were cleaned. */
  lemma CleanupAccounts(s: State, i: nat, d: Cell)
    requires Shape(s) && i < |s.removers| && s.removers[i].left != []
    ensures Shape(CleanupStep(s, i)) && Places(CleanupStep(s, i), d) == Places(s, d)
  {
    hide LeftOf, Owed;
    var left := s.removers[i].left;
    assert left == [left[0]] + left[1..];
    RemoverChanged(s.removers, i, s.removers[i].(left := left[1..]), d);
    assert InTable(CleanupStep(s, i), d) == InTable(s, d);
  }

  lemma StepKeeps(s: State, step: Step)
    requires Inv(s) && Enabled(s, step)
    ensures Inv(Apply(s, step))
  {
    match step
    case Create(id) => CreateKeeps(s, id);
    case AcquireCount(id) => AcquireCountKeeps(s, id);
    case AcquireGen(c) => AcquireGenKeeps(s, c);
    case DropGuard(c) => DropGuardKeeps(s, c);
    case BeginDelete(id) => BeginDeleteKeeps(s, id);
    case CompleteClose(id) => if id in s.sessions { RemoveKeeps(s, id); }
    case TryIdleClose(id, g) => if IdleCloses(s, id, g) { RemoveKeeps(s, id); }
    case TryDrainClose(id) => if DrainCloses(s, id) { RemoveKeeps(s, id); }
    case Clear(order) => ClearKeeps(s, order);
    case LowerGauge(i) => LowerGaugeKeeps(s, i);
    case Cleanup(i) => CleanupKeeps(s, i);
  }

  lemma {:induction false} AfterKeeps(s: State, steps: seq<Step>, k: nat)
    requires Inv(s) && Legal(s, steps) && k <= |steps|
    ensures Inv(After(s, steps, k))
    decreases k
  {
    if k == 0 {
    } else {
      StepKeeps(s, steps[0]);
      AfterKeeps(Apply(s, steps[0]), steps[1..], k - 1);
    }
  }

  // ── What one step does to one cell ────────────────────────────────────

  /** A new acquire is of a session in the table, and a generation moves only when an
      acquire that raised a zero count leaves the read lock. */
  lemma {:induction false} CellStep(s: State, step: Step, c: Cell)
    requires Inv(s) && Enabled(s, step) && c < |s.count|
    ensures Shape(Apply(s, step)) && CellMoved(s, Apply(s, step), c)
  {
    hide Accounted, Gauged, Counted, Listed, CellMoved;
    ShapeKept(s, step);
    match step
    case AcquireCount(id) => CellAcquire(s, id, c);
    case AcquireGen(d) => CellGen(s, d, c);
    case DropGuard(d) => CellDrop(s, d, c);
    case _ => CellLocked(s, step, c);
  }

  lemma CellGen(s: State, d: Cell, c: Cell)
    requires Shape(s) && Counted(s) && d in s.mid && c < |s.count|
    ensures Shape(AcquireGenStep(s, d)) && CellMoved(s, AcquireGenStep(s, d), c)
  {
    assert s.mid[d] > 0;
  }

  lemma CellDrop(s: State, d: Cell, c: Cell)
    requires Shape(s) && d in s.guards && c < |s.count|
    ensures Shape(DropGuardStep(s, d)) && CellMoved(s, DropGuardStep(s, d), c)
  {
  }

  ghost predicate CellMoved(s: State, t: State, c: Cell)
    requires Shape(s) && Shape(t) && c < |s.count|
  {
    && c < |t.count|
    && t.owner[c] == s.owner[c]
    && (InTable(t, c) ==> InTable(s, c))
    && (t.guards[c] > s.guards[c] ==> InTable(s, c) && (s.count[c] != 0 || s.mid[c] > 0))
    && (t.mid[c] < s.mid[c] ==> t.gen[c] == s.gen[c] + 1)
    && (t.mid[c] >= s.mid[c] ==> t.gen[c] == s.gen[c])
    && (t.mid[c] > s.mid[c] ==> InTable(s, c))
  }

  lemma CellAcquire(s: State, id: SessionId, c: Cell)
    requires Shape(s) && Listed(s) && c < |s.count|
    ensures CellMoved(s, AcquireCountStep(s, id), c)
  {
    if AcquireOutcome(s, id).Ok? {
      assert InTable(s, s.sessions[id].cell);
    }
  }

  lemma CellLocked(s: State, step: Step, c: Cell)
    requires Shape(s) && Enabled(s, step) && c < |s.count|
    requires !step.AcquireCount? && !step.AcquireGen? && !step.DropGuard?
    ensures Shape(Apply(s, step)) && CellMoved(s, Apply(s, step), c)
    ensures Apply(s, step).guards == s.guards && Apply(s, step).mid == s.mid
  {
    var t := Apply(s, step);
    assert t.owner[c] == s.owner[c] && t.gen[c] == s.gen[c];
    assert s.owner[c] in t.sessions && t.sessions[s.owner[c]].cell == c ==>
      s.owner[c] in s.sessions && s.sessions[s.owner[c]].cell == c;
  }

  lemma HistoryStep(s: State, step: Step)
    requires Shape(s) && Listed(s) && Enabled(s, step)
    ensures var t := Apply(s, step);
      && (step.Create? && step.id !in s.owner ==>
            t.owner == s.owner + [step.id] || t.owner == s.owner)
      && (!step.Create? ==> t.owner == s.owner)
      && (!(step.Create? && step.id in s.owner) ==> t.displaced == s.displaced)
      && s.displaced <= t.displaced
      && t.maxSessions == s.maxSessions
  {
    hide Shape, Listed, CreateStep;
    match step
    case Create(id) => CreateHistory(s, id);
    case _ =>
  }

  lemma CreateHistory(s: State, id: SessionId)
    requires Shape(s) && Listed(s)
    ensures var t := CreateStep(s, id);
      && (t.owner == s.owner + [id] || t.owner == s.owner)
      && (id !in s.owner ==> t.displaced == s.displaced)
      && s.displaced <= t.displaced
      && t.maxSessions == s.maxSessions
  {
    if id in s.sessions {
      assert s.owner[s.sessions[id].cell] == id;
    }
  }
}
