/** Sequence helpers shared by the builder's for-each loops. */
module Seqs {

  /** The image of `xs` under `f`, element by element. */
  function Image<A, B>(xs: seq<A>, f: A -> B): (r: seq<B>)
    ensures |r| == |xs|
    ensures forall i :: 0 <= i < |xs| ==> r[i] == f(xs[i])
  {
    seq(|xs|, i requires 0 <= i < |xs| => f(xs[i]))
  }

  /** `after` is `before` followed by `f` of each element of `xs`, in order:
      nothing of `before` is dropped or replaced. */
  ghost predicate AppendsEach<A, B>(before: seq<B>, after: seq<B>, xs: seq<A>, f: A -> B)
  {
    && |after| == |before| + |xs|
    && after[..|before|] == before
    && forall i :: 0 <= i < |xs| ==> after[|before| + i] == f(xs[i])
  }

  /** Adds `f(x)` to `acc` for each `x` of `xs`, one call at a time, the way
      a Java for-each loop feeds a builder. */
  function AppendEach<A, B>(acc: seq<B>, xs: seq<A>, f: A -> B): (r: seq<B>)
    ensures AppendsEach(acc, r, xs, f)
    decreases |xs|
  {
    if |xs| == 0 then acc
    else
      var r := AppendEach(acc + [f(xs[0])], xs[1..], f);
      assert forall i :: 1 <= i < |xs| ==> r[|acc| + i] == f(xs[i]) by {
        forall i | 1 <= i < |xs| ensures r[|acc| + i] == f(xs[i]) {
          assert r[|acc + [f(xs[0])]| + (i - 1)] == f(xs[1..][i - 1]);
        }
      }
      assert r[..|acc| + 1][..|acc|] == acc;
      r
  }

  /** Appending each element is the same as concatenating the image. */
  lemma AppendsEachIsConcat<A, B>(before: seq<B>, after: seq<B>, xs: seq<A>, f: A -> B)
    requires AppendsEach(before, after, xs, f)
    ensures after == before + Image(xs, f)
  {
    var im := Image(xs, f);
    forall k | 0 <= k < |after| ensures after[k] == (before + im)[k] {
      if k < |before| {
        assert after[k] == after[..|before|][k];
      } else {
        assert after[|before| + (k - |before|)] == f(xs[k - |before|]);
      }
    }
  }

  /** The concatenation of `f(x)` over all `x` of `xs`, in order. */
  function Concat<A, B>(xs: seq<A>, f: A -> seq<B>): seq<B>
    decreases |xs|
  {
    if |xs| == 0 then [] else f(xs[0]) + Concat(xs[1..], f)
  }

  /** Concatenation is associative. Stated as a lemma so that a proof can
      cite the one instance it needs without the solver searching for it
      among everything else in scope. */
  lemma SeqAssoc<T>(a: seq<T>, b: seq<T>, c: seq<T>)
    ensures (a + b) + c == a + (b + c)
  {
  }
}
