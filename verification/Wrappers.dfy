/** A value that may be missing, and sequences without repetition. */
module Wrappers {
  datatype Option<+T> = None | Some(value: T)

  ghost predicate NoDup<T>(xs: seq<T>) {
    forall i, j :: 0 <= i < j < |xs| ==> xs[i] != xs[j]
  }

  /** The values that are there, in order. */
  function Values<T>(xs: seq<Option<T>>): seq<T> {
    if xs == [] then []
    else Values(xs[..|xs| - 1]) + (if xs[|xs| - 1].Some? then [xs[|xs| - 1].value] else [])
  }

  /** Each value is listed once, where it stands. */
  lemma {:induction false} ValuesConcat<T>(xs: seq<Option<T>>, ys: seq<Option<T>>)
    ensures Values(xs + ys) == Values(xs) + Values(ys)
    ensures |ys| == 1 ==> Values(ys) == match ys[0] case Some(y) => [y] case None => []
  {
    if ys == [] {
      assert xs + ys == xs;
    } else {
      ValuesConcat(xs, ys[..|ys| - 1]);
      assert (xs + ys)[..|xs + ys| - 1] == xs + ys[..|ys| - 1];
      assert |ys| == 1 ==> ys[..0] == [];
    }
  }

  lemma {:induction false} ValuesContain<T>(xs: seq<Option<T>>, x: T)
    ensures x in Values(xs) <==> Some(x) in xs
  {
    if xs != [] {
      ValuesContain(xs[..|xs| - 1], x);
      assert xs == xs[..|xs| - 1] + [xs[|xs| - 1]];
    }
  }
}
