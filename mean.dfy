/** The arithmetic mean the report computes for each copied window:
    a running sum over the copy, divided by the copy's size. */
module Stats {
  import opened SlidingWindow

  /** The sum of `s`, accumulated first element first, as the report's loop does.
      Its properties are the lemmas below (`SumFront`, `SumConcat`, `SumRepeat`,
      `SumBounds`). */
  function Sum(s: seq<real>): (r: real)
  {
    if s == [] then 0.0 else Sum(s[..|s| - 1]) + s[|s| - 1]
  }

  /** The first element of a running sum can as well be split off first. */
  lemma {:induction false} SumFront(s: seq<real>)
    requires |s| > 0
    ensures Sum(s) == s[0] + Sum(s[1..])
    decreases |s|
  {
    if |s| > 1 {
      var init := s[..|s| - 1];
      SumFront(init);
      assert init[1..] == s[1..][..|s| - 2];
    }
  }

  /** The sum of `s` accumulated the other way round: last element first. */
  function SumFromBack(s: seq<real>): (r: real)
  {
    if s == [] then 0.0 else s[0] + SumFromBack(s[1..])
  }

  /** The order of accumulation does not change the total over the reals. */
  lemma {:induction false} SumOrderIrrelevant(s: seq<real>)
    ensures SumFromBack(s) == Sum(s)
    decreases |s|
  {
    if s != [] {
      SumOrderIrrelevant(s[1..]);
      SumFront(s);
    }
  }

  /** The mean of a non-empty sequence: the one value that, counted `|s|`
      times, gives the sum. */
  function Mean(s: seq<real>): (r: real)
    requires |s| > 0
    ensures r * (|s| as real) == Sum(s)
  {
    Sum(s) / (|s| as real)
  }

  /** The averaging loop of the report: accumulate every element of the copy
      into a running total, then divide by the copy's size. */
  method Average(copy: seq<real>) returns (avg: real)
    requires |copy| > 0
    ensures avg == Mean(copy)
  {
    avg := 0.0;
    for i := 0 to |copy|
      invariant avg == Sum(copy[..i])
    {
      assert copy[..i + 1][..i] == copy[..i];
      avg := avg + copy[i];
    }
    assert copy[..|copy|] == copy;
    avg := avg / (|copy| as real);
  }

  /** `count` copies of `value` sum to `count * value`. */
  lemma {:induction false} SumRepeat(value: real, count: nat)
    ensures Sum(Repeat(value, count)) == (count as real) * value
  {
    if count > 0 {
      var r := Repeat(value, count);
      assert r[..count - 1] == Repeat(value, count - 1);
      SumRepeat(value, count - 1);
    }
  }

  /** A window of equal samples has that sample as its mean. */
  lemma MeanRepeat(value: real, count: nat)
    requires count > 0
    ensures Mean(Repeat(value, count)) == value
  {
    SumRepeat(value, count);
  }

  /** Summing a concatenation sums its parts. */
  lemma {:induction false} SumConcat(a: seq<real>, b: seq<real>)
    ensures Sum(a + b) == Sum(a) + Sum(b)
    decreases |b|
  {
    if b == [] {
      assert a + b == a;
    } else {
      var init := b[..|b| - 1];
      assert (a + b)[..|a + b| - 1] == a + init;
      SumConcat(a, init);
    }
  }

  /** When every sample lies in `[lo, hi]`, so does the sum scaled by the count. */
  lemma {:induction false} SumBounds(s: seq<real>, lo: real, hi: real)
    requires forall i :: 0 <= i < |s| ==> lo <= s[i] <= hi
    ensures (|s| as real) * lo <= Sum(s) <= (|s| as real) * hi
  {
    if s != [] {
      var init := s[..|s| - 1];
      var last := s[|s| - 1];
      assert forall i :: 0 <= i < |init| ==> init[i] == s[i];
      SumBounds(init, lo, hi);
      assert Sum(s) == Sum(init) + last;
      OneMore(|init|, lo);
      OneMore(|init|, hi);
    }
  }

  /** `n + 1` copies of `x` are `n` copies and one more. */
  lemma OneMore(n: nat, x: real)
    ensures ((n + 1) as real) * x == (n as real) * x + x
  {
  }

  /** A quantity that is non-negative once scaled by a positive factor is non-negative. */
  lemma ScaledNonNegative(a: real, n: real)
    requires n > 0.0 && a * n >= 0.0
    ensures a >= 0.0
  {
  }

  /** When every sample lies in `[lo, hi]`, so does the mean. */
  lemma MeanBounds(s: seq<real>, lo: real, hi: real)
    requires |s| > 0
    requires forall i :: 0 <= i < |s| ==> lo <= s[i] <= hi
    ensures lo <= Mean(s) <= hi
  {
    SumBounds(s, lo, hi);
    var n := |s| as real;
    var m := Mean(s);
    assert (m - lo) * n == m * n - n * lo;
    assert (hi - m) * n == n * hi - m * n;
    ScaledNonNegative(m - lo, n);
    ScaledNonNegative(hi - m, n);
  }

  /** A window of ten samples, half of them significant: mean 1.5. */
  lemma MeanExample()
    ensures Mean([1.0, 2.0, 3.0, 4.0, 5.0, 0.0, 0.0, 0.0, 0.0, 0.0]) == 1.5
  {
    var s := [1.0, 2.0, 3.0, 4.0, 5.0];
    assert Sum([1.0]) == 1.0 by { assert [1.0][..0] == []; }
    assert Sum([1.0, 2.0]) == 3.0 by { assert [1.0, 2.0][..1] == [1.0]; }
    assert Sum([1.0, 2.0, 3.0]) == 6.0 by { assert [1.0, 2.0, 3.0][..2] == [1.0, 2.0]; }
    assert Sum([1.0, 2.0, 3.0, 4.0]) == 10.0 by { assert [1.0, 2.0, 3.0, 4.0][..3] == [1.0, 2.0, 3.0]; }
    assert Sum(s) == 15.0 by { assert s[..4] == [1.0, 2.0, 3.0, 4.0]; }
    SumConcat(s, Repeat(0.0, 5));
    SumRepeat(0.0, 5);
    assert s + Repeat(0.0, 5) == [1.0, 2.0, 3.0, 4.0, 5.0, 0.0, 0.0, 0.0, 0.0, 0.0];
  }

  /** After `Capacity` appends of `v`, any window of at most `Capacity`
      elements holds only `v`, and its mean is `v`. */
  lemma FilledMean(w: seq<real>, v: real)
    requires |w| <= Capacity
    ensures AppendAll(w, Repeat(v, Capacity)) == Repeat(v, Capacity)
    ensures Mean(AppendAll(w, Repeat(v, Capacity))) == v
  {
    FilledWith(w, v);
    MeanRepeat(v, Capacity);
  }
}
