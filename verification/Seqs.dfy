/** Facts about sequences that several components need. */
module Seqs {

  /** No element occurs twice. */
  ghost predicate Distinct<T>(xs: seq<T>) {
    forall i, j :: 0 <= i < j < |xs| ==> xs[i] != xs[j]
  }

  lemma AppendDistinct<T>(xs: seq<T>, x: T)
    requires Distinct(xs) && x !in xs
    ensures Distinct(xs + [x])
  {
  }

  ghost predicate Increasing(xs: seq<nat>) {
    forall i, j :: 0 <= i < j < |xs| ==> xs[i] < xs[j]
  }

  /** `xs` is what stands in `ys` at the strictly increasing positions `at`. */
  ghost predicate PickedAt<T>(xs: seq<T>, ys: seq<T>, at: seq<nat>) {
    && |at| == |xs|
    && Increasing(at)
    && forall i :: 0 <= i < |xs| ==> at[i] < |ys| && xs[i] == ys[at[i]]
  }

  ghost predicate Subsequence<T>(xs: seq<T>, ys: seq<T>) {
    exists at: seq<nat> :: PickedAt(xs, ys, at)
  }

  lemma SubsequenceEmpty<T>(ys: seq<T>)
    ensures Subsequence([], ys)
  {
    var none: seq<nat> := [];
    var noElements: seq<T> := [];
    assert PickedAt(noElements, ys, none);
  }

  lemma SubsequenceSkip<T>(xs: seq<T>, ys: seq<T>, y: T)
    requires Subsequence(xs, ys)
    ensures Subsequence(xs, ys + [y])
  {
    var at: seq<nat> :| PickedAt(xs, ys, at);
    assert PickedAt(xs, ys + [y], at);
  }

  lemma SubsequenceTake<T>(xs: seq<T>, ys: seq<T>, y: T)
    requires Subsequence(xs, ys)
    ensures Subsequence(xs + [y], ys + [y])
  {
    var at: seq<nat> :| PickedAt(xs, ys, at);
    assert PickedAt(xs + [y], ys + [y], at + [|ys|]);
  }

  /** Distinct numbers below `n` are at most `n` many. */
  lemma {:induction false} DistinctBelow(xs: seq<nat>, n: nat)
    requires Distinct(xs)
    requires forall i :: 0 <= i < |xs| ==> xs[i] < n
    ensures |xs| <= n
    decreases n
  {
    if xs == [] {
    } else {
      assert xs[0] < n;
      if exists k :: 0 <= k < |xs| && xs[k] == n - 1 {
        var k :| 0 <= k < |xs| && xs[k] == n - 1;
        var rest := xs[..k] + xs[k + 1..];
        assert forall i :: 0 <= i < |rest| ==> rest[i] == if i < k then xs[i] else xs[i + 1];
        DistinctBelow(rest, n - 1);
      } else {
        DistinctBelow(xs, n - 1);
      }
    }
  }

  function Elements<T(==)>(xs: seq<T>): set<T> {
    set x | x in xs
  }

  lemma NoneDistinct<T>()
    ensures Distinct<T>([])
  {
  }

  lemma DistinctPrefix<T>(xs: seq<T>)
    requires xs != []
    ensures var n := |xs| - 1; Distinct(xs) <==> Distinct(xs[..n]) && xs[n] !in xs[..n]
  {
    var n := |xs| - 1;
    assert forall i :: 0 <= i < n ==> xs[..n][i] == xs[i];
    if Distinct(xs[..n]) && xs[n] !in xs[..n] {
      forall i, j | 0 <= i < j < |xs| ensures xs[i] != xs[j] {
        assert xs[..n][i] == xs[i];
      }
    }
  }

  lemma {:induction false} ElementsSize<T>(xs: seq<T>)
    ensures |Elements(xs)| <= |xs|
    ensures |Elements(xs)| == |xs| <==> Distinct(xs)
  {
    hide Distinct;
    if xs == [] {
      NoneDistinct<T>();
      assert xs == [] && Elements(xs) == {};
    } else {
      var n := |xs| - 1;
      ElementsSize(xs[..n]);
      assert Elements(xs) == Elements(xs[..n]) + {xs[n]};
      DistinctPrefix(xs);
    }
  }

  function Min(a: nat, b: nat): nat {
    if a < b then a else b
  }

  /** The last `n` elements, or all of them when there are fewer. */
  function LastN<T>(xs: seq<T>, n: nat): seq<T> {
    if |xs| <= n then xs else xs[|xs| - n..]
  }

  lemma UpdateTwice<T>(xs: seq<T>, i: nat, a: T, b: T)
    requires i < |xs|
    ensures xs[i := a][i := b] == xs[i := b]
  {
  }

  function Concat<T>(xss: seq<seq<T>>): seq<T> {
    if xss == [] then [] else xss[0] + Concat(xss[1..])
  }
}
