/** Projections of sequences: every "the X's of this trace, in order" is a Gather. */
module Sequences {

  /** The concatenation of f over xs, in order. */
  function Gather<A, B>(f: A -> seq<B>, xs: seq<A>): seq<B> {
    if xs == [] then [] else Gather(f, xs[..|xs| - 1]) + f(xs[|xs| - 1])
  }

  lemma GatherSnoc<A, B>(f: A -> seq<B>, xs: seq<A>, x: A)
    ensures Gather(f, xs + [x]) == Gather(f, xs) + f(x)
  {
    assert (xs + [x])[..|xs|] == xs;
  }

  lemma GatherOne<A, B>(f: A -> seq<B>, x: A)
    ensures Gather(f, [x]) == f(x)
  {
    GatherSnoc(f, [], x);
    assert [] + [x] == [x];
  }

  lemma {:induction false} GatherAppend<A, B>(f: A -> seq<B>, xs: seq<A>, ys: seq<A>)
    ensures Gather(f, xs + ys) == Gather(f, xs) + Gather(f, ys)
    decreases |ys|
  {
    hide Gather;
    if ys == [] {
      assert xs + ys == xs;
      GatherNone(f);
    } else {
      var front, last := ys[..|ys| - 1], ys[|ys| - 1];
      GatherAppend(f, xs, front);
      GatherSnoc(f, front, last);
      GatherSnoc(f, xs + front, last);
      assert ys == front + [last];
      assert xs + ys == xs + front + [last];
    }
  }

  lemma GatherNone<A, B>(f: A -> seq<B>)
    ensures Gather(f, []) == []
  {
  }

  /** An append-only prefix: the first component of a split is a prefix of the whole. */
  lemma {:induction false} GatherPrefix<A, B>(f: A -> seq<B>, xs: seq<A>, ys: seq<A>)
    requires xs <= ys
    ensures Gather(f, xs) <= Gather(f, ys)
  {
    GatherAppend(f, xs, ys[|xs|..]);
    assert ys == xs + ys[|xs|..];
  }

  /** f contributes nothing anywhere. */
  lemma {:induction false} GatherNothing<A, B>(f: A -> seq<B>, xs: seq<A>)
    requires forall i :: 0 <= i < |xs| ==> f(xs[i]) == []
    ensures Gather(f, xs) == []
  {
    if xs != [] {
      GatherNothing(f, xs[..|xs| - 1]);
    }
  }
}
