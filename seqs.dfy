/** `Array.prototype.filter` on sequences. */
module Seqs {

  /**
   * `xs.filter(keep)`: the elements that pass, in their order (`WhereConcat`), each as often as it
   * occurs in `xs` (`WhereCounts`).
   */
  function Where<T(==,!new)>(xs: seq<T>, keep: T -> bool): (r: seq<T>)
    ensures |r| <= |xs|
    ensures forall x :: x in r <==> x in xs && keep(x)
  {
    if xs == [] then []
    else
      var init := xs[..|xs| - 1];
      var last := xs[|xs| - 1];
      assert xs == init + [last];
      Where(init, keep) + (if keep(last) then [last] else [])
  }

  /** One more element is kept at the end exactly when it passes. */
  lemma WhereSnoc<T(!new)>(xs: seq<T>, x: T, keep: T -> bool)
    ensures Where(xs + [x], keep) == Where(xs, keep) + (if keep(x) then [x] else [])
  {
    assert (xs + [x])[..|xs|] == xs;
  }

  /** Filtering distributes over concatenation, so the kept elements stay in their order. */
  lemma {:induction false} WhereConcat<T(!new)>(xs: seq<T>, ys: seq<T>, keep: T -> bool)
    ensures Where(xs + ys, keep) == Where(xs, keep) + Where(ys, keep)
  {
    if ys == [] {
      assert xs + ys == xs;
    } else {
      var init, last := ys[..|ys| - 1], ys[|ys| - 1];
      var tail := if keep(last) then [last] else [];
      assert ys == init + [last];
      assert xs + ys == (xs + init) + [last];
      calc {
        Where(xs + ys, keep);
        { WhereSnoc(xs + init, last, keep); }
        Where(xs + init, keep) + tail;
        { WhereConcat(xs, init, keep); }
        (Where(xs, keep) + Where(init, keep)) + tail;
        Where(xs, keep) + (Where(init, keep) + tail);
        { WhereSnoc(init, last, keep); }
        Where(xs, keep) + Where(ys, keep);
      }
    }
  }

  /** Each passing element is kept as often as it occurs; the others are dropped. */
  lemma {:induction false} WhereCounts<T(!new)>(xs: seq<T>, keep: T -> bool)
    ensures forall x :: multiset(Where(xs, keep))[x] == if keep(x) then multiset(xs)[x] else 0
  {
    if xs != [] {
      var init, last := xs[..|xs| - 1], xs[|xs| - 1];
      assert xs == init + [last];
      WhereCounts(init, keep);
      WhereSnoc(init, last, keep);
      assert multiset(xs) == multiset(init) + multiset{last};
    }
  }

  /** `if (on) xs = xs.filter(keep)`: a filter step that a setting can switch off. */
  function WhereIf<T(==,!new)>(xs: seq<T>, on: bool, keep: T -> bool): (r: seq<T>)
    ensures |r| <= |xs|
    ensures forall x :: x in r <==> x in xs && (on ==> keep(x))
  {
    if on then Where(xs, keep) else xs
  }

  /**
   * A switchable filter step keeps order, distributing over concatenation, and keeps each element
   * as often as it occurs unless the step is on and the element fails it.
   */
  lemma WhereIfFacts<T(!new)>(xs: seq<T>, ys: seq<T>, on: bool, keep: T -> bool)
    ensures WhereIf(xs + ys, on, keep) == WhereIf(xs, on, keep) + WhereIf(ys, on, keep)
    ensures forall x :: multiset(WhereIf(xs, on, keep))[x] == if on && !keep(x) then 0 else multiset(xs)[x]
  {
    if on {
      WhereConcat(xs, ys, keep);
      WhereCounts(xs, keep);
    }
  }
}
