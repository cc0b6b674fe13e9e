/** Request permits of the stateless gateway: one shared counter, bumped before it is looked
    at and taken back on refusal. Every step is one atomic operation of one request. */
module Permits {
  import opened Wrappers

  const MAX_CONCURRENT_REQUESTS: nat := 1024

  type RequestId = nat

  /** `counter` is the shared counter; the sets are history: the requests that hold a
      permit, and those that were refused but have not taken their increment back. */
  datatype State = State(counter: int, permits: set<RequestId>, refused: set<RequestId>)

  datatype Step = Acquire(r: RequestId) | RollBack(r: RequestId) | Drop(r: RequestId)

  const INIT: State := State(0, {}, {})

  predicate Enabled(s: State, step: Step) {
    match step
    case Acquire(r) => r !in s.permits && r !in s.refused
    case RollBack(r) => r in s.refused
    case Drop(r) => r in s.permits
  }

  /** Whether the permit is given: decided by the value before the increment. */
  predicate Admits(s: State) {
    s.counter < MAX_CONCURRENT_REQUESTS
  }

  function Apply(s: State, step: Step): State {
    match step
    case Acquire(r) =>
      var t := s.(counter := s.counter + 1);
      if Admits(s) then t.(permits := s.permits + {r}) else t.(refused := s.refused + {r})
    case RollBack(r) => s.(counter := s.counter - 1, refused := s.refused - {r})
    case Drop(r) => s.(counter := s.counter - 1, permits := s.permits - {r})
  }

  function Run(s: State, steps: seq<Step>): Option<State>
    decreases |steps|
  {
    if steps == [] then Some(s)
    else if !Enabled(s, steps[0]) then None
    else Run(Apply(s, steps[0]), steps[1..])
  }

  ghost predicate Inv(s: State) {
    && s.counter == |s.permits| + |s.refused|
    && |s.permits| <= MAX_CONCURRENT_REQUESTS
    && s.permits !! s.refused
  }

  lemma {:induction false} RunKeeps(s: State, steps: seq<Step>)
    requires Inv(s) && Run(s, steps).Some?
    ensures Inv(Run(s, steps).value)
    decreases |steps|
  {
    if steps == [] {
    } else {
      RunKeeps(Apply(s, steps[0]), steps[1..]);
    }
  }

  /** Over all runs: never more than 1024 permits are out, the counter is the permits plus
      the refusals not yet taken back, and so it never goes below zero. */
  lemma PermitsBounded(steps: seq<Step>)
    requires Run(INIT, steps).Some?
    ensures var s := Run(INIT, steps).value;
      && |s.permits| <= MAX_CONCURRENT_REQUESTS
      && s.counter == |s.permits| + |s.refused|
  {
    RunKeeps(INIT, steps);
  }

  /** Exactly when a request is refused in a reachable state. */
  lemma RefusedIff(steps: seq<Step>, r: RequestId)
    requires Run(INIT, steps).Some? && Enabled(Run(INIT, steps).value, Acquire(r))
    ensures var s := Run(INIT, steps).value;
      r in Apply(s, Acquire(r)).refused <==> |s.permits| + |s.refused| >= MAX_CONCURRENT_REQUESTS
  {
    RunKeeps(INIT, steps);
  }

  // ── Refusals below the limit ──────────────────────────────────────────

  function FirstN(n: nat): (rs: set<RequestId>)
    ensures forall r: RequestId :: r in rs <==> r < n
    ensures |rs| == n
  {
    if n == 0 then {} else FirstN(n - 1) + {n - 1}
  }

  /** `n` requests holding a permit each. */
  function Holding(n: nat): State {
    State(n, FirstN(n), {})
  }

  lemma {:induction false} RunThen(s: State, steps: seq<Step>, step: Step)
    requires Run(s, steps).Some? && Enabled(Run(s, steps).value, step)
    ensures Run(s, steps + [step]) == Some(Apply(Run(s, steps).value, step))
    decreases |steps|
  {
    if steps == [] {
      assert steps + [step] == [step];
    } else {
      assert (steps + [step])[0] == steps[0] && (steps + [step])[1..] == steps[1..] + [step];
      RunThen(Apply(s, steps[0]), steps[1..], step);
    }
  }

  lemma {:induction false} Fill(n: nat) returns (steps: seq<Step>)
    requires n <= MAX_CONCURRENT_REQUESTS
    ensures Run(INIT, steps) == Some(Holding(n))
  {
    if n == 0 {
      steps := [];
    } else {
      var before := Fill(n - 1);
      RunThen(INIT, before, Acquire(n - 1));
      steps := before + [Acquire(n - 1)];
    }
  }

  /** Because a refusal counts until it is taken back, a request may be refused although
      fewer than 1024 permits are out. */
  lemma RefusalBelowTheLimit() returns (steps: seq<Step>, r: RequestId)
    ensures Run(INIT, steps).Some? && Enabled(Run(INIT, steps).value, Acquire(r))
    ensures var s := Run(INIT, steps).value;
      |s.permits| < MAX_CONCURRENT_REQUESTS && r in Apply(s, Acquire(r)).refused
  {
    hide Run;
    var n := MAX_CONCURRENT_REQUESTS;
    var filled := Fill(n);
    RunThen(INIT, filled, Acquire(n));
    RunThen(INIT, filled + [Acquire(n)], Drop(0));
    steps, r := filled + [Acquire(n)] + [Drop(0)], n + 1;
  }

  /** When the refused have all taken their increments back, and they can, the counter is
      just the permits, and all of them are still held. */
  lemma {:induction false} RefusalsSettle(s: State) returns (more: seq<Step>)
    requires Inv(s)
    ensures Run(s, more) == Some(State(|s.permits|, s.permits, {}))
    decreases |s.refused|
  {
    if s.refused == {} {
      more := [];
    } else {
      var r :| r in s.refused;
      var t := Apply(s, RollBack(r));
      more := RefusalsSettle(t);
      assert ([RollBack(r)] + more)[1..] == more;
      more := [RollBack(r)] + more;
    }
  }

  // ── The counter ───────────────────────────────────────────────────────

  class Gateway {
    var activeRequests: int
    ghost var permits: set<RequestId>
    ghost var refused: set<RequestId>

    ghost function View(): State
      reads this
    {
      State(activeRequests, permits, refused)
    }

    ghost predicate Valid()
      reads this
    {
      Inv(View())
    }

    constructor ()
      ensures Valid() && View() == INIT
    {
      activeRequests, permits, refused := 0, {}, {};
    }

    /** With nobody in between, a refusal leaves the counter as it was. */
    method AcquireRequestPermit(ghost r: RequestId) returns (granted: bool)
      requires Valid() && Enabled(View(), Acquire(r))
      modifies this
      ensures Valid()
      ensures granted <==> |old(permits)| + |old(refused)| < MAX_CONCURRENT_REQUESTS
      ensures View() == if granted then Apply(old(View()), Acquire(r)) else old(View())
    {
      var prev := activeRequests;
      activeRequests := activeRequests + 1;
      granted := prev < MAX_CONCURRENT_REQUESTS;
      if granted {
        permits := permits + {r};
      } else {
        activeRequests := activeRequests - 1;
      }
    }

    method DropPermit(ghost r: RequestId)
      requires Valid() && r in permits
      modifies this
      ensures Valid() && activeRequests >= 0 && View() == Apply(old(View()), Drop(r))
    {
      activeRequests := activeRequests - 1;
      permits := permits - {r};
    }
  }
}
