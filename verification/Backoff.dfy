/** The delay before a spooled report may be sent again, in whole nanoseconds.

    The jitter is drawn as n / 10000 with 0 <= n < 10000, so the factor 0.8 + 0.4 n / 10000 is
    (80000 + 4 n) / 100000 and the truncating conversion to a duration is integer division. */
module Backoff {

  const DRAWS := 10_000

  function Pow2(n: nat): (p: nat)
    ensures p >= 1
    ensures n >= 1 ==> p >= 2
  {
    if n == 0 then 1 else 2 * Pow2(n - 1)
  }

  const CAP := 12

  function Exponent(retries: int): nat
  {
    if retries <= 0 then 0 else if retries > CAP then CAP else retries
  }

  /** `backoffDuration`; `draw` is the random draw behind `randFloat64`. */
  function Duration(base: int, retries: int, draw: nat): int
    requires base > 0 && draw < DRAWS
  {
    if retries <= 0 then base
    else base * Pow2(Exponent(retries)) * (80_000 + 4 * draw) / 100_000
  }

  /** base * 2^min(retries, 12), the delay before the jitter. */
  function Nominal(base: int, retries: int): int
    requires base > 0
  {
    base * Pow2(if retries <= 0 then 0 else if retries <= 12 then retries else 12)
  }

  /** The shortest delay the jitter allows: floor(0.8 * base * 2^min(retries, 12)). */
  function Shortest(base: int, retries: int): int
    requires base > 0
  {
    if retries <= 0 then base else Nominal(base, retries) * 4 / 5
  }

  lemma Pow2Meaning(n: nat)
    ensures Pow2(0) == 1 && Pow2(n + 1) == 2 * Pow2(n)
    ensures Pow2(12) == 4096
  {
    assert Pow2(2) == 4 && Pow2(4) == 16 && Pow2(6) == 64 && Pow2(8) == 256 && Pow2(10) == 1024;
  }

  lemma ScaleMonotone(b: nat, x: nat, y: nat)
    requires x <= y
    ensures b * x / 100_000 <= b * y / 100_000
  {
    assert b * x <= b * y;
  }

  lemma FourFifths(b: nat)
    ensures b * 80_000 / 100_000 == b * 4 / 5
  {
  }

  lemma JitterTop(b: nat, draw: nat)
    requires draw < DRAWS
    ensures 5 * (b * (80_000 + 4 * draw) / 100_000) <= 6 * b
  {
    ScaleMonotone(b, 80_000 + 4 * draw, 120_000);
    assert 5 * (b * 120_000 / 100_000) <= 6 * b;
  }

  lemma JitterBounds(b: nat, draw: nat)
    requires draw < DRAWS
    ensures b * 4 / 5 <= b * (80_000 + 4 * draw) / 100_000
    ensures 5 * (b * (80_000 + 4 * draw) / 100_000) <= 6 * b
    ensures b * (80_000 + 4 * 0) / 100_000 == b * 4 / 5
  {
    FourFifths(b);
    ScaleMonotone(b, 80_000, 80_000 + 4 * draw);
    JitterTop(b, draw);
  }

  lemma RetryWaits(base: int, k: int, draw: nat)
    requires base > 0 && draw < DRAWS && k > 0
    ensures Nominal(base, k) >= 0
    ensures Duration(base, k, draw) == Nominal(base, k) * (80_000 + 4 * draw) / 100_000
  {
    var p := Pow2(if k <= 12 then k else 12);
    assert base * p >= 0;
  }

  /** The first attempt waits for the base; a retry waits for the nominal delay, which doubles from
      retry to retry up to the twelfth and then stays, give or take a fifth; the lower bound is
      attained. */
  lemma DurationBounds(base: int, retries: int, draw: nat)
    requires base > 0 && draw < DRAWS
    ensures retries <= 0 ==> Duration(base, retries, draw) == base
    ensures retries > 0 ==>
      var nominal := base * Pow2(if retries <= 12 then retries else 12);
      && nominal * 4 / 5 <= Duration(base, retries, draw)
      && 5 * Duration(base, retries, draw) <= 6 * nominal
      && Duration(base, retries, 0) == nominal * 4 / 5
    ensures Shortest(base, retries) <= Duration(base, retries, draw)
  {
    if retries > 0 {
      RetryWaits(base, retries, draw);
      RetryWaits(base, retries, 0);
      var b := Nominal(base, retries);
      assert b == base * Pow2(if retries <= 12 then retries else 12);
      hide Pow2, Duration, Nominal;
      JitterBounds(b, draw);
    }
  }

  /** A later retry waits strictly longer than an earlier one, whatever the two jitters are,
      up to the cap.  (From the first attempt to the first retry this needs a base of at least
      two nanoseconds, see `FirstRetryWaitsLongerIff`.) */
  lemma BackoffGrows(base: int, k: int, draw1: nat, draw2: nat)
    requires base > 0 && draw1 < DRAWS && draw2 < DRAWS
    requires 1 <= k < 12
    ensures Duration(base, k, draw1) < Duration(base, k + 1, draw2)
  {
    var b := base * Pow2(k);
    assert b >= 2 by {
      assert Pow2(k) >= 2;
      assert base * Pow2(k) >= Pow2(k);
    }
    PowDoubles(base, k);
    hide Pow2;
    JittersApart(b, 80_000 + 4 * draw1, 80_000 + 4 * draw2);
  }

  lemma PowDoubles(base: int, k: nat)
    ensures base * Pow2(k + 1) == 2 * (base * Pow2(k))
  {
  }

  lemma JittersApart(b: nat, x: nat, y: nat)
    requires b >= 2 && x <= 119_996 && y >= 80_000
    ensures b * x / 100_000 < 2 * b * y / 100_000
  {
    ScaleMonotone(b, x, 119_996);
    ScaleMonotone(2 * b, 80_000, y);
    assert b * 119_996 / 100_000 < 2 * b * 80_000 / 100_000;
  }

  /** Past the cap the nominal delay no longer grows, and a luckier draw makes it shrink. */
  lemma BackoffCapped(base: int, j: int, k: int, draw: nat)
    requires base > 0 && draw < DRAWS && 12 <= j && 12 <= k
    ensures Duration(base, j, draw) == Duration(base, k, draw)
  {
  }

  /** The first retry always waits longer than the first attempt did exactly when the base is
      at least two nanoseconds: with one, the shortest jittered delay truncates to the base. */
  lemma FirstRetryWaitsLongerIff(base: int)
    requires base > 0
    ensures base >= 2 <==>
            forall draw0, draw1 | 0 <= draw0 < DRAWS && 0 <= draw1 < DRAWS ::
              Duration(base, 0, draw0) < Duration(base, 1, draw1)
  {
    assert Pow2(1) == 2;
    if base >= 2 {
      forall draw0, draw1 | 0 <= draw0 < DRAWS && 0 <= draw1 < DRAWS
        ensures Duration(base, 0, draw0) < Duration(base, 1, draw1)
      {
        DurationBounds(base, 1, draw1);
      }
    } else {
      assert Duration(1, 0, 0) == Duration(1, 1, 0);
    }
  }

  /** The least total delay in front of the n-th disk retry. */
  function ShortestWait(base: int, n: nat): int
    requires base > 0
  {
    Shortest(base, n) + if n == 0 then 0 else ShortestWait(base, n - 1)
  }
}
