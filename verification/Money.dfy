/** Exact money arithmetic: paise, hundredths of a percent, and the language's
    round-half-to-even, taken on exact rationals. */
module Money {

  function Min(a: nat, b: nat): nat { if a <= b then a else b }

  /** n/d rounded to the nearest integer, a tie going to the even neighbour. */
  function RoundDiv(n: nat, d: nat): nat
    requires d > 0
  {
    var q, rem := n / d, n % d;
    if 2 * rem < d || (2 * rem == d && q % 2 == 0) then q else q + 1
  }

  /** What makes an integer r the rounding of n/d: nearest, and even on a tie.
      The product r * d is passed in, so that callers stay linear. */
  predicate Nearest(n: nat, d: nat, r: nat, rd: nat)
  {
    && 2 * rd <= 2 * n + d && 2 * n <= 2 * rd + d
    && (2 * n == 2 * rd + d || 2 * rd == 2 * n + d ==> r % 2 == 0)
  }

  lemma NextMultiple(q: nat, d: nat)
    ensures (q + 1) * d == q * d + d
  {
  }

  lemma RoundNearest(n: nat, d: nat)
    requires d > 0
    ensures Nearest(n, d, RoundDiv(n, d), RoundDiv(n, d) * d)
  {
    var q, rem := n / d, n % d;
    NextMultiple(q, d);
    assert n == q * d + rem;
  }

  /** Multiples of d are at least d apart, and 2d unless neighbours. */
  lemma StepsApart(a: nat, b: nat, d: nat)
    requires a < b
    ensures a * d + d <= b * d
    ensures b == a + 1 || a * d + 2 * d <= b * d
  {
    assert b * d == a * d + (b - a) * d;
    if b - a >= 2 {
      assert (b - a) * d >= 2 * d;
    } else {
      assert b - a == 1;
    }
  }

  /** Nearest is monotone, and so has at most one solution. */
  lemma NearestOrdered(n: nat, m: nat, d: nat, a: nat, b: nat)
    requires d > 0 && n <= m && Nearest(n, d, a, a * d) && Nearest(m, d, b, b * d)
    ensures a <= b
  {
    if b < a {
      StepsApart(b, a, d);
      assert false;  // neighbours half a step from one point would both be even
    }
  }

  /** Nearest has one solution, so it characterises RoundDiv completely. */
  lemma RoundUnique(n: nat, d: nat, k: nat)
    requires d > 0 && Nearest(n, d, k, k * d)
    ensures k == RoundDiv(n, d)
  {
    RoundNearest(n, d);
    NearestOrdered(n, n, d, k, RoundDiv(n, d));
    NearestOrdered(n, n, d, RoundDiv(n, d), k);
  }

  lemma RoundMonotone(n: nat, m: nat, d: nat)
    requires d > 0 && n <= m
    ensures RoundDiv(n, d) <= RoundDiv(m, d)
  {
    RoundNearest(n, d);
    RoundNearest(m, d);
    NearestOrdered(n, m, d, RoundDiv(n, d), RoundDiv(m, d));
  }

  lemma RoundZeroIff(n: nat, d: nat)
    requires d > 0
    ensures RoundDiv(n, d) == 0 <==> 2 * n <= d
  {
  }

  lemma HalvesClose(half: nat, d: nat, h: nat, w: nat)
    requires d > 0 && Nearest(half, d, h, h * d) && Nearest(2 * half, d, w, w * d)
    ensures -1 <= 2 * h - w <= 1
  {
    assert (2 * h) * d == 2 * (h * d);
    if 2 * h >= w + 2 {
      StepsApart(w, 2 * h, d);
    } else if w >= 2 * h + 2 {
      StepsApart(2 * h, w, d);
    }
  }

  /** Two equal halves, rounded apart, against the whole rounded once. */
  lemma HalvesWithinOne(half: nat, d: nat)
    requires d > 0
    ensures -1 <= 2 * RoundDiv(half, d) - RoundDiv(2 * half, d) <= 1
  {
    RoundNearest(half, d);
    RoundNearest(2 * half, d);
    HalvesClose(half, d, RoundDiv(half, d), RoundDiv(2 * half, d));
  }

  /** A percentage of an amount: both scaled by a hundred. */
  function PercentOf(amount: nat, percent: nat): nat
  {
    RoundDiv(amount * percent, 10_000)
  }

  lemma PercentMonotone(a: nat, b: nat, percent: nat)
    requires a <= b
    ensures PercentOf(a, percent) <= PercentOf(b, percent)
  {
    assert a * percent <= b * percent;
    RoundMonotone(a * percent, b * percent, 10_000);
  }

  /** An amount taxed twice at half the rate, against once at the whole rate. */
  lemma HalfRates(amount: nat, half: nat)
    ensures -1 <= 2 * PercentOf(amount, half) - PercentOf(amount, 2 * half) <= 1
  {
    assert amount * (2 * half) == 2 * (amount * half);
    HalvesWithinOne(amount * half, 10_000);
  }

  /** The whole-rupee amount nearest to a number of paise. */
  function RoundToRupee(paise: nat): nat
  {
    RoundDiv(paise, 100) * 100
  }
}
