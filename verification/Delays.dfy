/** The fuzzed exponential delay shared by the retry policy and the joiner. */
module Delays {
  import opened Basics

  /** What `Math.random()` may return. */
  type Draw = r: real | 0.0 <= r < 1.0 witness 0.0

  function Pow2(n: nat): (p: nat)
    ensures p >= 1
  {
    if n == 0 then 1 else 2 * Pow2(n - 1)
  }

  /** A random part of x. */
  function Share(draw: Draw, x: real): (r: real)
    requires 0.0 <= x
    ensures 0.0 <= r <= x
  {
    ShareBounds(draw, x);
    draw * x
  }

  lemma ShareBounds(draw: Draw, x: real)
    requires 0.0 <= x
    ensures 0.0 <= draw * x <= x
  {
    assert x - draw * x == (1.0 - draw) * x;
  }

  /** The random part of a delay: up to half of it. */
  function Fuzz(base: nat, draw: Draw): (f: nat)
    ensures 2 * f <= base
  {
    FloorOfPart(Share(draw, Half(base)), base)
  }

  function Half(base: nat): (half: real)
    ensures 0.0 <= half && half + half == base as real
  {
    base as real * 0.5
  }

  function FloorOfPart(x: real, base: nat): (f: nat)
    requires 0.0 <= x && x + x <= base as real
    ensures 2 * f <= base
  {
    x.Floor
  }

  /** The delay before attempt number `attempt`, with a fuzz of up to half its size, capped at `maxDelay`. */
  function FuzzedDelay(minDelay: nat, maxDelay: nat, attempt: nat, draw: Draw): nat {
    var base := minDelay * Pow2(attempt);
    Min(maxDelay, Fuzz(base, draw) + base)
  }

  lemma {:induction false} Pow2Doubles(a: nat, b: nat)
    requires a < b
    ensures 2 * Pow2(a) <= Pow2(b)
    decreases b
  {
    if a + 1 < b {
      Pow2Doubles(a, b - 1);
    }
  }

  lemma CapBounds(base: nat, maxDelay: nat, draw: Draw)
    ensures Min(maxDelay, base) <= Min(maxDelay, Fuzz(base, draw) + base) <= maxDelay
    ensures 2 * Min(maxDelay, Fuzz(base, draw) + base) <= 3 * base
  {
    var fuzz := Fuzz(base, draw);
    assert 2 * fuzz <= base;
  }

  /** However the draws fall, no delay is below the unfuzzed one, above the cap, or above 1.5 times the unfuzzed one. */
  lemma DelayBounds(minDelay: nat, maxDelay: nat, attempt: nat, draw: Draw)
    ensures Min(maxDelay, minDelay * Pow2(attempt)) <= FuzzedDelay(minDelay, maxDelay, attempt, draw) <= maxDelay
    ensures 2 * FuzzedDelay(minDelay, maxDelay, attempt, draw) <= 3 * (minDelay * Pow2(attempt))
  {
    CapBounds(minDelay * Pow2(attempt), maxDelay, draw);
  }

  /** A later attempt never waits less than an earlier one, and once the cap is reached it is kept. */
  lemma DelaysNeverDecrease(minDelay: nat, maxDelay: nat, a: nat, b: nat, drawA: Draw, drawB: Draw)
    requires a < b
    ensures FuzzedDelay(minDelay, maxDelay, a, drawA) <= FuzzedDelay(minDelay, maxDelay, b, drawB)
    ensures FuzzedDelay(minDelay, maxDelay, a, drawA) == maxDelay ==>
              FuzzedDelay(minDelay, maxDelay, b, drawB) == maxDelay
  {
    Pow2Doubles(a, b);
    assert 2 * (minDelay * Pow2(a)) <= minDelay * Pow2(b) by {
      MulMono(minDelay, 2 * Pow2(a), Pow2(b));
    }
    DelayBounds(minDelay, maxDelay, a, drawA);
    DelayBounds(minDelay, maxDelay, b, drawB);
  }

  lemma MulMono(k: nat, x: int, y: int)
    requires x <= y
    ensures k * x <= k * y
  {
  }

  // -------- the waits of a row of retries --------

  /** The least time that the first `k` waits can take. */
  function MinElapsed(minDelay: nat, maxDelay: nat, k: nat): nat {
    if k == 0 then 0 else MinElapsed(minDelay, maxDelay, k - 1) + Min(maxDelay, minDelay * Pow2(k - 1))
  }

  lemma {:induction false} MinElapsedIsLinear(minDelay: nat, maxDelay: nat, m: nat, k: nat)
    requires m <= minDelay && m <= maxDelay
    ensures k * m <= MinElapsed(minDelay, maxDelay, k)
  {
    if k > 0 {
      MinElapsedIsLinear(minDelay, maxDelay, m, k - 1);
      MulMono(minDelay, 1, Pow2(k - 1));
      assert k * m == (k - 1) * m + m;
    }
  }

  lemma {:induction false} MinElapsedMonotone(minDelay: nat, maxDelay: nat, a: nat, b: nat)
    requires a <= b
    ensures MinElapsed(minDelay, maxDelay, a) <= MinElapsed(minDelay, maxDelay, b)
    decreases b
  {
    if a < b {
      MinElapsedMonotone(minDelay, maxDelay, a, b - 1);
    }
  }

  lemma QuotientBound(k: nat, m: nat, t: nat)
    requires m > 0 && k * m <= t
    ensures k <= t / m
  {
    if k > t / m {
      MulMono(m, t / m + 1, k);
    }
  }

  /** No more than t/m waits of at least m fit into t. */
  lemma WaitsThatFit(minDelay: nat, maxDelay: nat, k: nat, t: nat)
    requires MinElapsed(minDelay, maxDelay, k) <= t && Min(minDelay, maxDelay) > 0
    ensures k <= t / Min(minDelay, maxDelay)
  {
    MinElapsedIsLinear(minDelay, maxDelay, Min(minDelay, maxDelay), k);
    QuotientBound(k, Min(minDelay, maxDelay), t);
  }

  // -------- exactly which delays the draws can give --------

  /** A whole part of less than half of `base`, and nothing more. */
  predicate Extra(base: nat, extra: nat) {
    extra == 0 || 2 * extra < base
  }

  lemma PartBelowHalf(draw: Draw, half: real)
    requires half > 0.0
    ensures 0.0 <= draw * half < half
  {
  }

  lemma FuzzIsExtra(base: nat, draw: Draw)
    ensures Extra(base, Fuzz(base, draw))
  {
    if base > 0 {
      PartBelowHalf(draw, Half(base));
      FloorBelowHalf(Share(draw, Half(base)), base);
    }
  }

  lemma FloorBelowHalf(x: real, base: nat)
    requires 0.0 <= x && x + x < base as real
    ensures 2 * FloorOfPart(x, base) < base
  {
  }

  lemma QuotientTimes(x: real, y: real)
    requires 0.0 <= x < y
    ensures 0.0 <= x / y < 1.0 && (x / y) * y == x
  {
  }

  lemma EveryExtraIsDrawn(base: nat, extra: nat) returns (draw: Draw)
    requires Extra(base, extra)
    ensures Fuzz(base, draw) == extra
  {
    draw := 0.0;
    if extra > 0 {
      QuotientTimes(extra as real, Half(base));
      draw := extra as real / Half(base);
    }
  }

  /** A delay is possible before an attempt if and only if it is the smallest delay, doubled for each attempt before,
      with less than half of that again, all cut off at the cap. */
  lemma DelayIsPossibleIff(minDelay: nat, maxDelay: nat, attempt: nat, delay: nat)
    ensures (exists draw: Draw :: FuzzedDelay(minDelay, maxDelay, attempt, draw) == delay) <==>
            exists extra: nat :: Extra(Doubled(minDelay, attempt), extra)
                                 && delay == Min(maxDelay, Doubled(minDelay, attempt) + extra)
  {
    var base := Doubled(minDelay, attempt);
    if draw: Draw :| FuzzedDelay(minDelay, maxDelay, attempt, draw) == delay {
      FuzzedIs(minDelay, maxDelay, attempt, draw);
      FuzzIsExtra(base, draw);
      assert Extra(base, Fuzz(base, draw)) && delay == Min(maxDelay, base + Fuzz(base, draw));
    }
    if extra: nat :| Extra(base, extra) && delay == Min(maxDelay, base + extra) {
      var draw := EveryExtraIsDrawn(base, extra);
      FuzzedIs(minDelay, maxDelay, attempt, draw);
    }
  }

  /** The smallest delay, doubled that many times. */
  function Doubled(minDelay: nat, times: nat): nat {
    if times == 0 then minDelay else 2 * Doubled(minDelay, times - 1)
  }

  lemma {:induction false} DoubledIsPower(minDelay: nat, times: nat)
    ensures Doubled(minDelay, times) == minDelay * Pow2(times)
  {
    if times > 0 {
      DoubledIsPower(minDelay, times - 1);
    }
  }

  lemma FuzzedIs(minDelay: nat, maxDelay: nat, attempt: nat, draw: Draw)
    ensures var base := Doubled(minDelay, attempt);
            FuzzedDelay(minDelay, maxDelay, attempt, draw) == Min(maxDelay, base + Fuzz(base, draw))
  {
    DoubledIsPower(minDelay, attempt);
  }
}
