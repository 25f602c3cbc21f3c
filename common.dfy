/** Small vocabulary shared by the model: optional values, JavaScript truthiness of numbers,
    sums over real sequences and the index arithmetic of `Array.prototype.slice`. */
module Common {

  datatype Option<+T> = None | Some(value: T)

  /** A possibly-undefined JavaScript number is truthy when it is defined and not 0
      (NaN, the other falsy number, does not exist over the reals). */
  predicate Truthy(x: Option<real>) {
    x.Some? && x.value != 0.0
  }

  function Max(a: real, b: real): real { if a >= b then a else b }

  function Min(a: real, b: real): real { if a <= b then a else b }

  function Abs(x: real): real { if x < 0.0 then -x else x }

  /** Left fold of `+` starting at 0, as `reduce((sum, x) => sum + x, 0)` computes it. */
  function Sum(xs: seq<real>): real
  {
    if xs == [] then 0.0 else Sum(xs[..|xs| - 1]) + xs[|xs| - 1]
  }

  /** The index that `slice` uses for an argument `k` on an array of length `n`:
      negative indices count from the end, and everything is clamped to [0, n]. */
  function SliceIndex(k: int, n: nat): (r: nat)
    ensures r <= n
    ensures k < 0 && n + k >= 0 ==> r == n + k
    ensures 0 <= k <= n ==> r == k
  {
    if k < 0 then (if n + k < 0 then 0 else n + k) else if k > n then n else k
  }

  /** `s.slice(start, end)`. */
  function Slice<T>(s: seq<T>, start: int, end: int): (r: seq<T>)
    ensures |r| <= |s|
  {
    var b := SliceIndex(start, |s|);
    var e := SliceIndex(end, |s|);
    if b < e then s[b..e] else []
  }

  /** `s.slice(-k)` for k > 0 is the last min(k, |s|) elements. */
  lemma SliceTail<T>(s: seq<T>, k: nat)
    requires k > 0
    ensures Slice(s, -(k as int), |s|) == s[(if k <= |s| then |s| - k else 0)..]
  {
  }

  lemma {:induction false} SumAppend(xs: seq<real>, x: real)
    ensures Sum(xs + [x]) == Sum(xs) + x
  {
    assert (xs + [x])[..|xs|] == xs;
  }

  /** A sum of equal terms is the term times their number. */
  lemma {:induction false} SumConst(xs: seq<real>, v: real)
    requires forall i :: 0 <= i < |xs| ==> xs[i] == v
    ensures Sum(xs) == |xs| as real * v
  {
    if xs != [] {
      var init := xs[..|xs| - 1];
      SumConst(init, v);
      assert Sum(xs) == (|xs| - 1) as real * v + v;
    }
  }

  /** A sum of terms in [lo, hi] lies between |xs|·lo and |xs|·hi. */
  lemma {:induction false} SumBounds(xs: seq<real>, lo: real, hi: real)
    requires forall i :: 0 <= i < |xs| ==> lo <= xs[i] <= hi
    ensures |xs| as real * lo <= Sum(xs) <= |xs| as real * hi
  {
    if xs != [] {
      var init := xs[..|xs| - 1];
      SumBounds(init, lo, hi);
      assert (|xs| - 1) as real * lo + lo == |xs| as real * lo;
      assert (|xs| - 1) as real * hi + hi == |xs| as real * hi;
    }
  }

  lemma {:induction false} SumNonNegative(xs: seq<real>)
    requires forall i :: 0 <= i < |xs| ==> xs[i] >= 0.0
    ensures Sum(xs) >= 0.0
  {
    if xs != [] { SumNonNegative(xs[..|xs| - 1]); }
  }

  /** Some term of a non-empty sequence is at least the mean. */
  lemma {:induction false} SomeTermReachesMean(xs: seq<real>) returns (k: nat)
    requires |xs| > 0
    ensures k < |xs| && xs[k] * |xs| as real >= Sum(xs)
  {
    if |xs| == 1 {
      k := 0;
      assert Sum(xs) == Sum(xs[..0]) + xs[0];
    } else {
      var init := xs[..|xs| - 1];
      var n := |init| as real;
      var j := SomeTermReachesMean(init);
      assert init[j] == xs[j];
      if xs[j] * (n + 1.0) >= Sum(xs) {
        k := j;
      } else {
        // xs[j]·(n+1) < Sum(init) + last <= xs[j]·n + last, so last > xs[j] >= mean of init
        k := |xs| - 1;
        assert xs[j] < xs[k];
        assert xs[k] * n > xs[j] * n by {
          assert (xs[k] - xs[j]) * n > 0.0;
        }
      }
    }
  }
}
