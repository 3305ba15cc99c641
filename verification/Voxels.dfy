/**
 * Specification functions over a run of voxel intensities, read in the
 * order the estimator reads them (plane after plane, voxel after voxel).
 * Intensities are exact reals standing in for double-precision values.
 */
module Voxels {

  /** The sum of the intensities, accumulated from the first to the last. */
  function Sum(s: seq<real>): real
  {
    if s == [] then 0.0 else Sum(s[..|s| - 1]) + s[|s| - 1]
  }

  /**
   * The voxels of `s` strictly brighter than the threshold `t`, in their
   * order in `s`; AboveExactly states what is kept.
   */
  function Above(s: seq<real>, t: real): (r: seq<real>)
    ensures |r| <= |s|
  {
    if s == [] then []
    else
      var kept := Above(s[..|s| - 1], t);
      if s[|s| - 1] > t then kept + [s[|s| - 1]] else kept
  }

  /** The mean intensity of a non-empty run. */
  function Mean(s: seq<real>): real
    requires s != []
  {
    Sum(s) / |s| as real
  }

  /** The brightest voxel of a non-empty run. */
  function Max(s: seq<real>): (m: real)
    requires s != []
    ensures m in s
    ensures forall x :: x in s ==> x <= m
  {
    if |s| == 1 then s[0]
    else
      var init, last := s[..|s| - 1], s[|s| - 1];
      assert s == init + [last];
      var m0 := Max(init);
      if last > m0 then last else m0
  }

  /** `b` is `a` with every intensity multiplied by `c`. */
  predicate Scaled(a: seq<real>, b: seq<real>, c: real)
  {
    |a| == |b| && forall k :: 0 <= k < |a| ==> b[k] == c * a[k]
  }

  // Keeping the voxels above a threshold

  /**
   * Every kept voxel is a voxel of `s` strictly above `t`, and every voxel
   * strictly above `t` is kept as often as it occurs in `s`: a voxel equal
   * to `t` is not kept.
   */
  lemma {:induction false} AboveExactly(s: seq<real>, t: real)
    ensures forall x :: x in Above(s, t) ==> x in s && x > t
    ensures forall x :: multiset(Above(s, t))[x] == if x > t then multiset(s)[x] else 0
  {
    if s != [] {
      var init, last := s[..|s| - 1], s[|s| - 1];
      assert s == init + [last];
      AboveExactly(init, t);
    }
  }

  /** When every voxel is above the threshold, every voxel is kept. */
  lemma {:induction false} AboveAll(s: seq<real>, t: real)
    requires forall x :: x in s ==> x > t
    ensures Above(s, t) == s
  {
    if s != [] {
      var init := s[..|s| - 1];
      assert s == init + [s[|s| - 1]];
      assert forall x :: x in init ==> x in s;
      assert s[|s| - 1] in s;
      AboveAll(init, t);
    }
  }

  /** When no voxel is above the threshold, nothing is kept. */
  lemma {:induction false} AboveNone(s: seq<real>, t: real)
    requires forall x :: x in s ==> x <= t
    ensures Above(s, t) == []
  {
    if s != [] {
      var init := s[..|s| - 1];
      assert forall x :: x in init ==> x in s;
      assert s[|s| - 1] in s;
      AboveNone(init, t);
    }
  }

  /** Nothing is kept exactly when no voxel is above the threshold. */
  lemma AboveEmptyIff(s: seq<real>, t: real)
    ensures Above(s, t) == [] <==> forall x :: x in s ==> x <= t
  {
    if forall x :: x in s ==> x <= t {
      AboveNone(s, t);
    } else {
      var x :| x in s && x > t;
      AboveExactly(s, t);
      assert multiset(Above(s, t))[x] == multiset(s)[x] > 0;
    }
  }

  // Sums and means

  /** A non-empty run of voxels all above `t` sums to more than `t` per voxel. */
  lemma {:induction false} SumExceeds(s: seq<real>, t: real)
    requires s != []
    requires forall x :: x in s ==> x > t
    ensures Sum(s) > |s| as real * t
  {
    var init, last := s[..|s| - 1], s[|s| - 1];
    assert forall x :: x in init ==> x in s;
    assert last in s;
    if init != [] {
      SumExceeds(init, t);
    }
    assert |s| as real * t == |init| as real * t + t;
  }

  /** A run of voxels none above `u` sums to at most `u` per voxel. */
  lemma {:induction false} SumAtMost(s: seq<real>, u: real)
    requires forall x :: x in s ==> x <= u
    ensures Sum(s) <= |s| as real * u
  {
    if s != [] {
      var init := s[..|s| - 1];
      assert forall x :: x in init ==> x in s;
      assert s[|s| - 1] in s;
      SumAtMost(init, u);
      assert |s| as real * u == |init| as real * u + u;
    }
  }

  /** A run of identical voxels of intensity `k` sums to `k` per voxel. */
  lemma {:induction false} SumConstant(s: seq<real>, k: real)
    requires forall x :: x in s ==> x == k
    ensures Sum(s) == |s| as real * k
  {
    if s != [] {
      var init := s[..|s| - 1];
      assert forall x :: x in init ==> x in s;
      assert s[|s| - 1] in s;
      SumConstant(init, k);
      assert |s| as real * k == |init| as real * k + k;
    }
  }

  /** The mean of voxels all strictly above `t` is strictly above `t`. */
  lemma MeanExceeds(s: seq<real>, t: real)
    requires s != []
    requires forall x :: x in s ==> x > t
    ensures Mean(s) > t
  {
    SumExceeds(s, t);
    var n := |s| as real;
    assert Mean(s) * n == Sum(s);
  }

  /** The mean of voxels none above `u` is at most `u`. */
  lemma MeanAtMost(s: seq<real>, u: real)
    requires s != []
    requires forall x :: x in s ==> x <= u
    ensures Mean(s) <= u
  {
    SumAtMost(s, u);
    var n := |s| as real;
    assert Mean(s) * n == Sum(s);
  }

  /** The mean of identical voxels of intensity `k` is `k`. */
  lemma MeanConstant(s: seq<real>, k: real)
    requires s != []
    requires forall x :: x in s ==> x == k
    ensures Mean(s) == k
  {
    SumConstant(s, k);
  }

  /** Dividing a total by 8n is taking an eighth of its share over n. */
  lemma DivEightfold(total: real, n: real)
    requires n > 0.0
    ensures total / (8.0 * n) == (total / n) / 8.0
  {
  }

  // Scaling every intensity by a positive factor

  lemma ScaledPrefix(a: seq<real>, b: seq<real>, c: real)
    requires Scaled(a, b, c) && a != []
    ensures Scaled(a[..|a| - 1], b[..|b| - 1], c)
    ensures b[|b| - 1] == c * a[|a| - 1]
  {
  }

  lemma ScaledSnoc(a: seq<real>, b: seq<real>, x: real, y: real, c: real)
    requires Scaled(a, b, c) && y == c * x
    ensures Scaled(a + [x], b + [y], c)
  {
  }

  /** Multiplying by a positive factor keeps the order of two intensities. */
  lemma MulKeepsOrder(c: real, a: real, b: real)
    requires c > 0.0
    ensures c * a > c * b <==> a > b
  {
  }

  /** Scaling every voxel scales the sum. */
  lemma {:induction false} SumScaled(a: seq<real>, b: seq<real>, c: real)
    requires Scaled(a, b, c)
    ensures Sum(b) == c * Sum(a)
  {
    if a != [] {
      ScaledPrefix(a, b, c);
      SumScaled(a[..|a| - 1], b[..|b| - 1], c);
    }
  }

  /** Scaling every voxel scales the mean. */
  lemma MeanScaled(a: seq<real>, b: seq<real>, c: real)
    requires a != [] && Scaled(a, b, c)
    ensures Mean(b) == c * Mean(a)
  {
    SumScaled(a, b, c);
    var n := |a| as real;
    assert (c * Sum(a)) / n == c * (Sum(a) / n);
  }

  /**
   * Scaling by a positive factor keeps the same voxels above a threshold
   * scaled by the same factor.
   */
  lemma {:induction false} AboveScaled(a: seq<real>, b: seq<real>, t: real, c: real)
    requires c > 0.0 && Scaled(a, b, c)
    ensures Scaled(Above(a, t), Above(b, c * t), c)
  {
    if a != [] {
      var keptA, keptB := Above(a[..|a| - 1], t), Above(b[..|b| - 1], c * t);
      ScaledPrefix(a, b, c);
      AboveScaled(a[..|a| - 1], b[..|b| - 1], t, c);
      MulKeepsOrder(c, a[|a| - 1], t);
      assert Above(a, t) == if a[|a| - 1] > t then keptA + [a[|a| - 1]] else keptA;
      assert Above(b, c * t) == if b[|b| - 1] > c * t then keptB + [b[|b| - 1]] else keptB;
      if a[|a| - 1] > t {
        ScaledSnoc(keptA, keptB, a[|a| - 1], b[|b| - 1], c);
      }
    }
  }
}
