/** Exact arithmetic behind pandas' `mean` and column division. */
module Stats {

  function Sum(xs: seq<int>): int
  {
    if xs == [] then 0 else xs[0] + Sum(xs[1..])
  }

  lemma {:induction false} SumAppend(a: seq<int>, b: seq<int>)
    ensures Sum(a + b) == Sum(a) + Sum(b)
  {
    if a == [] {
      assert a + b == b;
    } else {
      assert (a + b)[1..] == a[1..] + b;
      SumAppend(a[1..], b);
    }
  }

  /** The arithmetic mean of a non-empty column: mean times count is the total. */
  function Mean(xs: seq<int>): (m: real)
    requires |xs| > 0
    ensures m * (|xs| as real) == Sum(xs) as real
  {
    Sum(xs) as real / |xs| as real
  }

  lemma {:induction false} SumBounds(xs: seq<int>, lo: int, hi: int)
    requires forall i :: 0 <= i < |xs| ==> lo <= xs[i] <= hi
    ensures lo * |xs| <= Sum(xs) <= hi * |xs|
  {
    if xs != [] {
      SumBounds(xs[1..], lo, hi);
    }
  }

  /** A mean lies between the smallest and the largest value averaged. */
  lemma MeanBounds(xs: seq<int>, lo: int, hi: int)
    requires |xs| > 0
    requires forall i :: 0 <= i < |xs| ==> lo <= xs[i] <= hi
    ensures lo as real <= Mean(xs) <= hi as real
  {
    SumBounds(xs, lo, hi);
    var n := |xs| as real;
    var m := Mean(xs);
    CastProduct(lo, |xs|);
    CastProduct(hi, |xs|);
    ScaleMonotone(lo as real, m, n);
    ScaleMonotone(m, hi as real, n);
  }

  lemma CastProduct(a: int, b: int)
    ensures (a * b) as real == a as real * b as real
  {
  }

  lemma ScaleMonotone(a: real, b: real, n: real)
    requires n > 0.0 && a * n <= b * n
    ensures a <= b
  {
  }

  /** Points per game (`points / played`), exact. */
  function PerGame(points: int, played: int): (r: real)
    requires played > 0
    ensures r * (played as real) == points as real
  {
    points as real / played as real
  }
}
