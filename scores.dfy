/** Score arithmetic shared by every dashboard metric: sums, means, the
    rounding to one decimal place and the "0.0 when empty" average. */
module Scores {

  /** A score as the grading pipeline produces it: a percentage in [0, 100]. */
  predicate InRange(x: real) {
    0.0 <= x <= 100.0
  }

  predicate AllInRange(xs: seq<real>) {
    forall i :: 0 <= i < |xs| ==> InRange(xs[i])
  }

  /** Python's sum(), accumulated left to right. */
  function Sum(xs: seq<real>): real {
    if xs == [] then 0.0 else Sum(xs[..|xs| - 1]) + xs[|xs| - 1]
  }

  lemma {:induction false} SumBetween(xs: seq<real>, lo: real, hi: real)
    requires forall i :: 0 <= i < |xs| ==> lo <= xs[i] <= hi
    ensures lo * |xs| as real <= Sum(xs) <= hi * |xs| as real
  {
    if xs != [] {
      SumBetween(xs[..|xs| - 1], lo, hi);
    }
  }

  /** sum(xs) / len(xs) on exact reals. */
  function Mean(xs: seq<real>): real
    requires |xs| > 0
  {
    Sum(xs) / |xs| as real
  }

  /** The mean lies between any lower and upper bound of its elements. */
  lemma MeanBetween(xs: seq<real>, lo: real, hi: real)
    requires |xs| > 0
    requires forall i :: 0 <= i < |xs| ==> lo <= xs[i] <= hi
    ensures lo <= Mean(xs) <= hi
  {
    SumBetween(xs, lo, hi);
    var n := |xs| as real;
    assert Mean(xs) * n == Sum(xs);
  }

  /** round(x, 1): the nearest whole number of tenths (exact ties go up). */
  function RoundTenth(x: real): (r: real)
    ensures x - 0.05 < r <= x + 0.05
    ensures (r * 10.0).Floor as real == r * 10.0
  {
    ((x * 10.0 + 0.5).Floor as real) / 10.0
  }

  /** Rounding keeps a score inside [0, 100]. */
  lemma RoundTenthInRange(x: real)
    requires InRange(x)
    ensures InRange(RoundTenth(x))
  {
    var k := (x * 10.0 + 0.5).Floor;
    assert 0 <= k <= 1000;
  }

  /** A value that already is a whole number of tenths is left unchanged. */
  lemma RoundTenthOfTenths(k: int)
    ensures RoundTenth(k as real / 10.0) == k as real / 10.0
  {
    var x := k as real / 10.0;
    assert x * 10.0 + 0.5 == k as real + 0.5;
    assert (x * 10.0 + 0.5).Floor == k;
  }

  /** The pattern `round(sum(xs) / len(xs), 1) if xs else 0.0` used for every
      average of the dashboards. */
  function AverageOrZero(xs: seq<real>): (r: real)
    ensures xs == [] ==> r == 0.0
    ensures xs != [] ==> Mean(xs) - 0.05 < r <= Mean(xs) + 0.05
    ensures AllInRange(xs) ==> InRange(r)
  {
    if xs == [] then 0.0
    else if AllInRange(xs) then
      MeanBetween(xs, 0.0, 100.0);
      RoundTenthInRange(Mean(xs));
      RoundTenth(Mean(xs))
    else
      RoundTenth(Mean(xs))
  }
}
