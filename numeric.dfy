/** Real-number helpers standing for the Python built-ins `abs`, `min`, `max`
    and `round` (round half to even) and for numpy's `max`/`min`/`argmax`/`argmin`
    of a non-empty array, on exact reals instead of floats. */
module Numeric {

  function Abs(r: real): real { if r < 0.0 then -r else r }

  function Min(a: real, b: real): real { if a <= b then a else b }

  function Max(a: real, b: real): real { if a >= b then a else b }

  /** For a positive factor, `k * s < q * s` exactly when `k < q`. */
  lemma ScaleLess(k: real, q: real, s: real)
    requires s > 0.0
    ensures k < q <==> k * s < q * s
  {
    if k < q {
      assert (q - k) * s > 0.0;
    } else {
      assert (k - q) * s >= 0.0;
    }
  }

  /** Python's `round(x)` for one argument: the nearest integer, ties to the
      even neighbour. */
  function RoundHalfEven(x: real): (r: int)
    ensures -0.5 <= r as real - x <= 0.5
    ensures (r as real - x == 0.5 || r as real - x == -0.5) ==> r % 2 == 0
  {
    var f := x.Floor;
    var frac := x - f as real;
    if frac < 0.5 then f
    else if frac > 0.5 then f + 1
    else if f % 2 == 0 then f
    else f + 1
  }

  /** The two postconditions of RoundHalfEven determine its value. */
  lemma RoundHalfEvenUnique(x: real, n: int)
    requires -0.5 <= n as real - x <= 0.5
    requires (n as real - x == 0.5 || n as real - x == -0.5) ==> n % 2 == 0
    ensures RoundHalfEven(x) == n
  {
  }

  /** An integer rounds to itself. */
  lemma RoundOfInteger(n: int)
    ensures RoundHalfEven(n as real) == n
  {
    RoundHalfEvenUnique(n as real, n);
  }

  /** `np.argmax`: the first index of a largest element. */
  function ArgMax(s: seq<real>): (k: nat)
    requires |s| > 0
    ensures k < |s|
  {
    if |s| == 1 then 0
    else
      var k := ArgMax(s[1..]) + 1;
      if s[0] >= s[k] then 0 else k
  }

  /** `np.argmin`: the first index of a smallest element. */
  function ArgMin(s: seq<real>): (k: nat)
    requires |s| > 0
    ensures k < |s|
  {
    if |s| == 1 then 0
    else
      var k := ArgMin(s[1..]) + 1;
      if s[0] <= s[k] then 0 else k
  }

  /** Every element before the index `ArgMax` picks is strictly smaller:
      it is the first occurrence of the largest element. */
  lemma {:induction false} ArgMaxFirst(s: seq<real>, j: nat)
    requires 0 < |s| && j < ArgMax(s)
    ensures s[j] < s[ArgMax(s)]
  {
    if |s| > 1 && j > 0 {
      assert s[j] == s[1..][j - 1];
      ArgMaxFirst(s[1..], j - 1);
    }
  }

  /** Every element before the index `ArgMin` picks is strictly larger:
      it is the first occurrence of the smallest element. */
  lemma {:induction false} ArgMinFirst(s: seq<real>, j: nat)
    requires 0 < |s| && j < ArgMin(s)
    ensures s[j] > s[ArgMin(s)]
  {
    if |s| > 1 && j > 0 {
      assert s[j] == s[1..][j - 1];
      ArgMinFirst(s[1..], j - 1);
    }
  }

  /** `np.max` of a non-empty array. */
  function MaxOf(s: seq<real>): real
    requires |s| > 0
  {
    s[ArgMax(s)]
  }

  /** `np.min` of a non-empty array. */
  function MinOf(s: seq<real>): real
    requires |s| > 0
  {
    s[ArgMin(s)]
  }

  /** The maximum bounds every element from above. */
  lemma {:induction false} MaxOfAbove(s: seq<real>, i: nat)
    requires i < |s|
    ensures s[i] <= MaxOf(s)
  {
    if |s| > 1 {
      var k := ArgMax(s[1..]) + 1;
      assert s[k] == s[1..][k - 1];
      if i > 0 {
        assert s[i] == s[1..][i - 1];
        MaxOfAbove(s[1..], i - 1);
      }
    }
  }

  /** The minimum bounds every element from below. */
  lemma {:induction false} MinOfBelow(s: seq<real>, i: nat)
    requires i < |s|
    ensures MinOf(s) <= s[i]
  {
    if |s| > 1 {
      var k := ArgMin(s[1..]) + 1;
      assert s[k] == s[1..][k - 1];
      if i > 0 {
        assert s[i] == s[1..][i - 1];
        MinOfBelow(s[1..], i - 1);
      }
    }
  }
}
