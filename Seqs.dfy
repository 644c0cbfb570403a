/** Concatenation of per-element pieces, the one accumulation pattern the
    provider uses for its prompt, its system prompt, its image list and its
    joined output. */
module Seqs {

  /** The pieces f(xs[0]), f(xs[1]), ... concatenated in order. */
  function ConcatMap<T, U>(xs: seq<T>, f: T -> seq<U>): seq<U>
  {
    if |xs| == 0 then [] else ConcatMap(xs[..|xs| - 1], f) + f(xs[|xs| - 1])
  }

  /** Appending one element appends exactly its piece. */
  lemma ConcatMapSnoc<T, U>(xs: seq<T>, x: T, f: T -> seq<U>)
    ensures ConcatMap(xs + [x], f) == ConcatMap(xs, f) + f(x)
  {
    assert (xs + [x])[..|xs|] == xs;
  }

  /** ConcatMap turns concatenation of inputs into concatenation of outputs. */
  lemma {:induction false} ConcatMapAppend<T, U>(xs: seq<T>, ys: seq<T>, f: T -> seq<U>)
    ensures ConcatMap(xs + ys, f) == ConcatMap(xs, f) + ConcatMap(ys, f)
  {
    if |ys| == 0 {
      assert xs + ys == xs;
    } else {
      var n := |ys| - 1;
      assert (xs + ys)[..|xs + ys| - 1] == xs + ys[..n];
      assert (xs + ys)[|xs + ys| - 1] == ys[n];
      ConcatMapAppend(xs, ys[..n], f);
    }
  }

  /** Elements whose pieces are all empty contribute nothing. */
  lemma {:induction false} ConcatMapOfEmptyPieces<T, U>(xs: seq<T>, f: T -> seq<U>)
    requires forall i :: 0 <= i < |xs| ==> f(xs[i]) == []
    ensures ConcatMap(xs, f) == []
  {
    if |xs| != 0 {
      ConcatMapOfEmptyPieces(xs[..|xs| - 1], f);
    }
  }

  /** The last of a run of overwrites: the last URL, or `current` when
      there is none. */
  function LastOr(current: string, urls: seq<string>): string
  {
    if |urls| == 0 then current else urls[|urls| - 1]
  }

  /** Overwriting with one run and then another is overwriting with both. */
  lemma LastOrAppend(current: string, urls: seq<string>, more: seq<string>)
    ensures LastOr(LastOr(current, urls), more) == LastOr(current, urls + more)
  {
  }
}
