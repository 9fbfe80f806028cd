/** The random number generator as the resampler sees it. */
module Randoms {

  /**
   * The random number generator, seen as a fixed stream of uniform variates
   * in [0, 1] of which the first `draws` have been consumed.
   */
  class Random {
    const stream: nat -> real
    var draws: nat

    ghost predicate Valid()
      reads this
    {
      forall i: nat :: 0.0 <= stream(i) <= 1.0
    }

    constructor (stream: nat -> real)
      requires forall i: nat :: 0.0 <= stream(i) <= 1.0
      ensures Valid() && this.stream == stream && draws == 0
    {
      this.stream := stream;
      draws := 0;
    }

    /** Draws one variate uniformly from [lo, hi]. */
    method Uniform(lo: real, hi: real) returns (x: real)
      requires Valid() && lo <= hi
      modifies this`draws
      ensures Valid()
      ensures draws == old(draws) + 1
      ensures x == lo + (hi - lo) * stream(old(draws))
    {
      var u := stream(draws);
      x := lo + (hi - lo) * u;
      draws := draws + 1;
    }
  }
}

/**
 * Systematic (deterministic stratified) resampling after Kitagawa (1996):
 * one uniform offset into the strata is shared by every particle, and the
 * cumulative offspring count of particle i is obtained from the inclusive
 * prefix sum of the weights up to i.
 */
module Resampler {

  import opened Randoms

  /** Outcome of a resampling call: success or the degeneracy exception. */
  datatype Status = Success | Degenerated

  /**
   * Quantities precomputed by the caller from the normalised weights:
   * their total W and their inclusive prefix sums Ws.
   */
  datatype Precompute = Precompute(W: real, Ws: seq<real>)

  /**
   * The caller's obligation on the precomputed quantities: W is the last
   * inclusive prefix sum, i.e. the sum of all weights (zero when there are
   * no particles).
   */
  predicate Consistent(pre: Precompute) {
    if |pre.Ws| == 0 then pre.W == 0.0 else pre.Ws[|pre.Ws| - 1] == pre.W
  }

  predicate NonDecreasing(s: seq<real>) {
    forall i, j :: 0 <= i <= j < |s| ==> s[i] <= s[j]
  }

  predicate NonNegative(s: seq<real>) {
    forall i :: 0 <= i < |s| ==> 0.0 <= s[i]
  }

  predicate NonDecreasingInt(s: seq<int>) {
    forall i, j :: 0 <= i <= j < |s| ==> s[i] <= s[j]
  }

  /** A conversion of a real to an integer that truncates toward zero. */
  function Trunc(x: real): (r: int)
    ensures 0.0 <= x ==> r as real <= x < r as real + 1.0
    ensures x < 0.0 ==> r as real - 1.0 < x <= r as real
  {
    if 0.0 <= x then x.Floor else -((-x).Floor)
  }

  lemma TruncMonotone(x: real, y: real)
    requires x <= y
    ensures Trunc(x) <= Trunc(y)
  {
  }

  function Min(a: int, b: int): int {
    if a <= b then a else b
  }

  /**
   * The per-particle functor: given the offset a, the total weight W and the
   * target count n, maps the inclusive prefix sum Ws of one particle to its
   * cumulative offspring count min(n, trunc(Ws / W * n + a)).
   */
  function CumulativeOffspringOf(a: real, W: real, n: int, Ws: real): (o: int)
    requires 0.0 <= a <= 1.0 && W > 0.0 && n > 0
    ensures o <= n
    ensures 0.0 <= Ws ==> 0 <= o
    ensures Ws == W ==> o == n
  {
    var x := Ws / W * n as real + a;
    assert 0.0 <= Ws ==> 0.0 <= x by {
      if 0.0 <= Ws {
        assert 0.0 <= Ws / W;
      }
    }
    assert Ws == W ==> n as real <= x <= n as real + 1.0 by {
      if Ws == W {
        assert Ws / W == 1.0;
      }
    }
    Min(n, Trunc(x))
  }

  /** The functor is monotone in the prefix sum. */
  lemma CumulativeOffspringOfMonotone(a: real, W: real, n: int, Ws1: real, Ws2: real)
    requires 0.0 <= a <= 1.0 && W > 0.0 && n > 0
    requires Ws1 <= Ws2
    ensures CumulativeOffspringOf(a, W, n, Ws1) <= CumulativeOffspringOf(a, W, n, Ws2)
  {
    assert Ws1 / W <= Ws2 / W;
    assert Ws1 / W * n as real <= Ws2 / W * n as real;
    TruncMonotone(Ws1 / W * n as real + a, Ws2 / W * n as real + a);
  }

  /** The functor applied elementwise to all prefix sums. */
  function CumulativeOffspringSeq(a: real, W: real, n: int, Ws: seq<real>): (Os: seq<int>)
    requires 0.0 <= a <= 1.0 && W > 0.0 && n > 0
    ensures |Os| == |Ws|
    ensures forall i :: 0 <= i < |Os| ==> Os[i] <= n
    ensures NonNegative(Ws) ==> forall i :: 0 <= i < |Os| ==> 0 <= Os[i]
  {
    seq(|Ws|, i requires 0 <= i < |Ws| => CumulativeOffspringOf(a, W, n, Ws[i]))
  }

  /** Non-decreasing prefix sums give non-decreasing cumulative offspring. */
  lemma CumulativeOffspringMonotone(a: real, W: real, n: int, Ws: seq<real>)
    requires 0.0 <= a <= 1.0 && W > 0.0 && n > 0
    requires NonDecreasing(Ws)
    ensures NonDecreasingInt(CumulativeOffspringSeq(a, W, n, Ws))
  {
    var Os := CumulativeOffspringSeq(a, W, n, Ws);
    forall i, j | 0 <= i <= j < |Os|
      ensures Os[i] <= Os[j]
    {
      CumulativeOffspringOfMonotone(a, W, n, Ws[i], Ws[j]);
    }
  }

  /**
   * When the precomputed quantities are consistent and there is at least one
   * particle, the last cumulative offspring count is exactly n.
   */
  lemma LastCumulativeOffspringIsN(a: real, n: int, pre: Precompute)
    requires 0.0 <= a <= 1.0 && pre.W > 0.0 && n > 0
    requires Consistent(pre)
    ensures |pre.Ws| > 0
    ensures CumulativeOffspringSeq(a, pre.W, n, pre.Ws)[|pre.Ws| - 1] == n
  {
  }

  function Sum(s: seq<int>): int {
    if s == [] then 0 else Sum(s[..|s| - 1]) + s[|s| - 1]
  }

  /**
   * Per-particle offspring counts recovered from cumulative counts: the
   * first cumulative count, then the successive differences.
   */
  function OffspringCounts(Os: seq<int>): (os: seq<int>)
    ensures |os| == |Os|
    ensures |Os| > 0 ==> os[0] == Os[0]
  {
    seq(|Os|, i requires 0 <= i < |Os| => if i == 0 then Os[0] else Os[i] - Os[i - 1])
  }

  /** The offspring counts telescope back to the last cumulative count. */
  lemma {:induction false} OffspringCountsSum(Os: seq<int>)
    requires |Os| > 0
    ensures Sum(OffspringCounts(Os)) == Os[|Os| - 1]
  {
    var os := OffspringCounts(Os);
    if |Os| > 1 {
      var prefix := Os[..|Os| - 1];
      OffspringCountsSum(prefix);
      assert os[..|os| - 1] == OffspringCounts(prefix);
    }
  }

  /**
   * For non-negative, non-decreasing prefix sums whose last element is W,
   * the cumulative offspring describe a valid assignment of n offspring: every
   * particle receives a non-negative number of copies and they total n.
   */
  lemma OffspringCountsValid(a: real, n: int, pre: Precompute)
    requires 0.0 <= a <= 1.0 && pre.W > 0.0 && n > 0
    requires Consistent(pre) && NonNegative(pre.Ws) && NonDecreasing(pre.Ws)
    ensures var os := OffspringCounts(CumulativeOffspringSeq(a, pre.W, n, pre.Ws));
      && |os| == |pre.Ws|
      && (forall i :: 0 <= i < |os| ==> 0 <= os[i])
      && Sum(os) == n
  {
    var Os := CumulativeOffspringSeq(a, pre.W, n, pre.Ws);
    CumulativeOffspringMonotone(a, pre.W, n, pre.Ws);
    LastCumulativeOffspringIsN(a, n, pre);
    OffspringCountsSum(Os);
  }

  /**
   * Two live particles of equal weight and two dead ones, four draws and an
   * offset of 0.1: the live particles get two copies each.
   */
  lemma TwoLiveParticlesExample()
    ensures CumulativeOffspringSeq(0.1, 2.0, 4, [1.0, 2.0, 2.0, 2.0]) == [2, 4, 4, 4]
    ensures OffspringCounts([2, 4, 4, 4]) == [2, 2, 0, 0]
  {
  }

  /**
   * Fills Os with the cumulative offspring counts for n draws. On a
   * degenerate ensemble (W <= 0) nothing is drawn and Os is untouched.
   */
  method CumulativeOffspring(rng: Random, lws: seq<real>, Os: array<int>, n: int, pre: Precompute)
    returns (status: Status)
    requires rng.Valid()
    requires |lws| == Os.Length && |pre.Ws| == Os.Length
    requires Consistent(pre)
    requires pre.W > 0.0 ==> n > 0
    modifies rng`draws, Os
    ensures rng.Valid()
    ensures status == (if pre.W > 0.0 then Success else Degenerated)
    ensures status == Success ==>
      && rng.draws == old(rng.draws) + 1
      && Os[..] == CumulativeOffspringSeq(rng.stream(old(rng.draws)), pre.W, n, pre.Ws)
      && Os[Os.Length - 1] == n
    ensures status == Degenerated ==> rng.draws == old(rng.draws) && Os[..] == old(Os[..])
  {
    if pre.W > 0.0 {
      var a := rng.Uniform(0.0, 1.0);
      assert 0.0 <= a <= 1.0;
      ghost var Expected := CumulativeOffspringSeq(a, pre.W, n, pre.Ws);
      var i := 0;
      while i < Os.Length
        invariant 0 <= i <= Os.Length
        invariant forall j :: 0 <= j < i ==> Os[j] == Expected[j]
        invariant rng.draws == old(rng.draws) + 1
      {
        Os[i] := CumulativeOffspringOf(a, pre.W, n, pre.Ws[i]);
        i := i + 1;
      }
      assert Os[..] == Expected;
      // the debug-build consistency check on the last count
      LastCumulativeOffspringIsN(a, n, pre);
      assert Os[Os.Length - 1] == n;
      status := Success;
    } else {
      status := Degenerated;
    }
  }

  /**
   * Computes the cumulative offspring for as many draws as `ancestors` has slots
   * and returns the counts it would hand to the expansion into ancestors; a
   * degeneracy outcome is passed on unchanged.
   */
  method AncestorsPermute(rng: Random, lws: seq<real>, ancestors: array<int>, pre: Precompute)
    returns (status: Status, offspring: seq<int>)
    requires rng.Valid()
    requires |pre.Ws| == |lws|
    requires Consistent(pre)
    requires pre.W > 0.0 ==> ancestors.Length > 0
    modifies rng`draws
    ensures rng.Valid()
    ensures status == (if pre.W > 0.0 then Success else Degenerated)
    ensures |offspring| == |lws|
    ensures status == Success ==>
      && rng.draws == old(rng.draws) + 1
      && offspring == CumulativeOffspringSeq(rng.stream(old(rng.draws)), pre.W, ancestors.Length, pre.Ws)
      && offspring[|offspring| - 1] == ancestors.Length
    ensures status == Degenerated ==> rng.draws == old(rng.draws)
  {
    var Os := new int[|lws|];
    status := CumulativeOffspring(rng, lws, Os, ancestors.Length, pre);
    offspring := Os[..];
  }
}
