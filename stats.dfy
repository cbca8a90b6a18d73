/**
 * The reductions the summary applies to the provider's arrays: sum, mean,
 * minimum and maximum over exact reals.
 */
module Stats {

  /** Sum of the elements, as `sum(...)` over a list. */
  function Sum(s: seq<real>): real
  {
    if s == [] then 0.0 else s[0] + Sum(s[1..])
  }

  /** Arithmetic mean; the source divides by the length, which fails on an empty list. */
  function Mean(s: seq<real>): real
    requires s != []
  {
    Sum(s) / (|s| as real)
  }

  /** Smallest element, as `min(...)` over a non-empty list. */
  function Min(s: seq<real>): (m: real)
    requires s != []
    ensures m in s
    ensures forall i | 0 <= i < |s| :: m <= s[i]
  {
    if |s| == 1 then s[0]
    else
      var rest := Min(s[1..]);
      if s[0] <= rest then s[0] else rest
  }

  /** Largest element, as `max(...)` over a non-empty list. */
  function Max(s: seq<real>): (m: real)
    requires s != []
    ensures m in s
    ensures forall i | 0 <= i < |s| :: s[i] <= m
  {
    if |s| == 1 then s[0]
    else
      var rest := Max(s[1..]);
      if s[0] >= rest then s[0] else rest
  }

  /** Bounds on every element give bounds on the sum. */
  lemma {:induction false} SumBounds(s: seq<real>, lo: real, hi: real)
    requires forall i | 0 <= i < |s| :: lo <= s[i] <= hi
    ensures (|s| as real) * lo <= Sum(s) <= (|s| as real) * hi
  {
    if s != [] {
      SumBounds(s[1..], lo, hi);
    }
  }

  /** The mean of values inside a range lies inside that range. */
  lemma MeanBounds(s: seq<real>, lo: real, hi: real)
    requires s != []
    requires forall i | 0 <= i < |s| :: lo <= s[i] <= hi
    ensures lo <= Mean(s) <= hi
  {
    SumBounds(s, lo, hi);
    var n := |s| as real;
    assert n * lo <= Sum(s) <= n * hi;
    assert Mean(s) * n == Sum(s);
  }

  /** Elementwise division by a constant, as `x / c for x in s`. */
  function DivideAll(s: seq<real>, c: real): (r: seq<real>)
    requires c != 0.0
    ensures |r| == |s| && forall i | 0 <= i < |s| :: r[i] == s[i] / c
  {
    seq(|s|, i requires 0 <= i < |s| => s[i] / c)
  }

  /** Dividing every element by a constant divides the sum by it. */
  lemma {:induction false} SumDivideAll(s: seq<real>, c: real)
    requires c != 0.0
    ensures Sum(DivideAll(s, c)) == Sum(s) / c
  {
    if s != [] {
      assert DivideAll(s, c)[1..] == DivideAll(s[1..], c);
      SumDivideAll(s[1..], c);
    }
  }

  /** Dividing every element by a constant divides the mean by it. */
  lemma MeanDivideAll(s: seq<real>, c: real)
    requires s != [] && c != 0.0
    ensures Mean(DivideAll(s, c)) * c == Mean(s)
  {
    SumDivideAll(s, c);
    var n := |s| as real;
    var m := Mean(DivideAll(s, c));
    assert m * n == Sum(s) / c;
    assert m * c * n == Sum(s);
    assert Mean(s) * n == Sum(s);
    assert (m * c - Mean(s)) * n == 0.0;
  }
}
