/** Python's `Optional[T]`: a value that may be absent; and the present values of a sequence of them. */
module Options {

  datatype Option<+T> = None | Some(value: T)

  /** The present values of `xs`, in order. */
  function Somes<T>(xs: seq<Option<T>>): seq<T> {
    if xs == [] then []
    else Somes(xs[..|xs| - 1]) + if xs[|xs| - 1].Some? then [xs[|xs| - 1].value] else []
  }

  /** The positions of the present values of `xs`, in order. */
  ghost function SomePositions<T>(xs: seq<Option<T>>): seq<nat> {
    if xs == [] then []
    else SomePositions(xs[..|xs| - 1]) + if xs[|xs| - 1].Some? then [|xs| - 1] else []
  }

  /**
   * `Somes(xs)` is the subsequence of `xs` at `SomePositions(xs)`: the positions increase,
   * each holds the corresponding value, and every present value's position is listed.
   */
  lemma {:induction false} SomesIsOrderedSubsequence<T>(xs: seq<Option<T>>)
    ensures |SomePositions(xs)| == |Somes(xs)|
    ensures forall k :: 0 <= k < |SomePositions(xs)| ==>
      SomePositions(xs)[k] < |xs| && xs[SomePositions(xs)[k]] == Some(Somes(xs)[k])
    ensures forall k1, k2 :: 0 <= k1 < k2 < |SomePositions(xs)| ==> SomePositions(xs)[k1] < SomePositions(xs)[k2]
    ensures forall i :: 0 <= i < |xs| && xs[i].Some? ==> i in SomePositions(xs)
  {
    if xs != [] {
      var n := |xs| - 1;
      var front := xs[..n];
      SomesIsOrderedSubsequence(front);
      var ps, vs := SomePositions(front), Somes(front);
      assert SomePositions(xs) == ps + if xs[n].Some? then [n] else [];
      assert Somes(xs) == vs + if xs[n].Some? then [xs[n].value] else [];
      forall k | 0 <= k < |ps|
        ensures xs[ps[k]] == front[ps[k]]
      {
      }
      forall i | 0 <= i < n && xs[i].Some?
        ensures i in ps
      {
        assert front[i] == xs[i];
      }
    }
  }
}
