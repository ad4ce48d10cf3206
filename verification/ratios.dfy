/**
 * Exact-real fractions and means used by the scorers. Python floats are
 * modelled as Dafny reals, so rounding is not represented.
 */
module Ratios {
  /** `part / total` as a real, 0 for an empty total. */
  function Share(part: nat, total: nat): (q: real)
    requires part <= total
    ensures 0.0 <= q <= 1.0
    ensures total > 0 ==> q * (total as real) == part as real
    ensures q == 0.0 <==> part == 0
    ensures q == 1.0 <==> 0 < part == total
  {
    if total == 0 then 0.0
    else
      var q := part as real / total as real;
      assert q * total as real == part as real;
      assert q <= 1.0;
      assert q == 0.0 ==> part == 0;
      assert q == 1.0 ==> part == total;
      q
  }

  /** `sum(xs)` */
  function Sum(xs: seq<real>): real {
    if xs == [] then 0.0 else Sum(xs[..|xs| - 1]) + xs[|xs| - 1]
  }

  predicate InUnitInterval(xs: seq<real>) {
    forall i :: 0 <= i < |xs| ==> 0.0 <= xs[i] <= 1.0
  }

  lemma {:induction false} SumBounds(xs: seq<real>)
    requires InUnitInterval(xs)
    ensures 0.0 <= Sum(xs) <= |xs| as real
  {
    if xs != [] {
      SumBounds(xs[..|xs| - 1]);
    }
  }

  lemma {:induction false} SumAppend(xs: seq<real>, ys: seq<real>)
    ensures Sum(xs + ys) == Sum(xs) + Sum(ys)
    decreases |ys|
  {
    if ys != [] {
      var zs := xs + ys;
      assert zs[..|zs| - 1] == xs + ys[..|ys| - 1];
      SumAppend(xs, ys[..|ys| - 1]);
    } else {
      assert xs + ys == xs;
    }
  }

  /** `sum(xs) / len(xs) if xs else 0` */
  function Mean(xs: seq<real>): (m: real)
    ensures xs == [] ==> m == 0.0
    ensures xs != [] ==> m * (|xs| as real) == Sum(xs)
    ensures InUnitInterval(xs) ==> 0.0 <= m <= 1.0
  {
    if xs == [] then 0.0
    else
      var n := |xs| as real;
      var m := Sum(xs) / n;
      assert m * n == Sum(xs);
      assert InUnitInterval(xs) ==> 0.0 <= m <= 1.0 by {
        if InUnitInterval(xs) {
          SumBounds(xs);
        }
      }
      m
  }

  function Max(a: real, b: real): (m: real)
    ensures m >= a && m >= b && (m == a || m == b)
  {
    if a >= b then a else b
  }
}
