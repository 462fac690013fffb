/**
  The bot's startup configuration: the clamps applied to the numbers read
  from the environment, and the ladder of input amounts that is quoted on
  every polling cycle.
*/
module Config {

  /** The configuration numbers as parsed from the environment, before any clamp. */
  datatype Env = Env(
    maxHops: int,
    maxSplits: int,
    checkIntervalMs: int,
    minPowerOf2: int,
    maxPowerOf2: int,
    minProfit: int,
    numTopQuotes: int)

  /** The configuration the bot runs with. */
  datatype Settings = Settings(
    maxHops: nat,
    maxSplits: nat,
    checkIntervalMs: nat,
    minPowerOf2: nat,
    maxPowerOf2: nat,
    minProfit: nat,
    numTopQuotes: nat)

  /** `Math.max` on integers: the least value that is at least both. */
  function Max(a: int, b: int): (m: int)
    ensures m >= a && m >= b && (m == a || m == b)
  {
    if a >= b then a else b
  }

  /** `Math.min` on integers: the greatest value that is at most both. */
  function Min(a: int, b: int): (m: int)
    ensures m <= a && m <= b && (m == a || m == b)
  {
    if a <= b then a else b
  }

  /**
    The clamps applied at startup. Each setting is raised to its floor; the
    maximum exponent is first capped at 65 and then raised to one above the
    minimum exponent, so the cap gives way when the minimum is 65 or more.
  */
  function Clamp(env: Env): (s: Settings)
    ensures s.maxHops >= 2 && s.maxHops >= env.maxHops && (s.maxHops == 2 || s.maxHops == env.maxHops)
    ensures s.maxSplits >= env.maxSplits && (s.maxSplits == 0 || s.maxSplits == env.maxSplits)
    ensures s.checkIntervalMs >= 3000 && s.checkIntervalMs >= env.checkIntervalMs
    ensures s.checkIntervalMs == 3000 || s.checkIntervalMs == env.checkIntervalMs
    ensures s.minPowerOf2 >= 32 && s.minPowerOf2 >= env.minPowerOf2
    ensures s.minPowerOf2 == 32 || s.minPowerOf2 == env.minPowerOf2
    ensures s.maxPowerOf2 > s.minPowerOf2 && s.maxPowerOf2 >= Min(65, env.maxPowerOf2)
    ensures s.maxPowerOf2 == s.minPowerOf2 + 1 || s.maxPowerOf2 == Min(65, env.maxPowerOf2)
    ensures s.minPowerOf2 < 65 ==> s.maxPowerOf2 <= 65
    ensures s.minProfit >= env.minProfit && (s.minProfit == 0 || s.minProfit == env.minProfit)
    ensures s.numTopQuotes >= 1 && s.numTopQuotes >= env.numTopQuotes
    ensures s.numTopQuotes == 1 || s.numTopQuotes == env.numTopQuotes
  {
    var minPower := Max(32, env.minPowerOf2);
    Settings(
      Max(2, env.maxHops),
      Max(0, env.maxSplits),
      Max(3000, env.checkIntervalMs),
      minPower,
      Max(minPower + 1, Min(65, env.maxPowerOf2)),
      Max(0, env.minProfit),
      Max(1, env.numTopQuotes))
  }

  function Pow2(n: nat): (p: nat)
    ensures p >= 1
  {
    if n == 0 then 1 else 2 * Pow2(n - 1)
  }

  lemma {:induction false} Pow2StrictlyIncreasing(m: nat, n: nat)
    requires m < n
    ensures Pow2(m) < Pow2(n)
  {
    if m < n - 1 {
      Pow2StrictlyIncreasing(m, n - 1);
    }
  }

  /**
    The amounts quoted on every cycle, `Array(max - min).map((_, ix) => 2n ** (ix + min))`:
    a geometric sequence of ratio 2 starting at `2^minPower`.
  */
  function AmountLadder(minPower: nat, maxPower: nat): (amounts: seq<nat>)
    requires minPower <= maxPower
    ensures |amounts| == maxPower - minPower
    ensures |amounts| > 0 ==> amounts[0] == Pow2(minPower)
    ensures forall i :: 0 < i < |amounts| ==> amounts[i] == 2 * amounts[i - 1]
  {
    var amounts := seq<nat>(maxPower - minPower, (i: nat) => Pow2(minPower + i));
    assert forall i :: 0 < i < |amounts| ==> amounts[i] == 2 * amounts[i - 1] by {
      forall i | 0 < i < |amounts| ensures amounts[i] == 2 * amounts[i - 1] {
        assert amounts[i] == Pow2(minPower + i);
        assert amounts[i - 1] == Pow2(minPower + i - 1);
      }
    }
    amounts
  }

  /** The ladder's amounts are strictly ascending, and its i-th amount is `2^(minPower + i)`. */
  lemma {:induction false} LadderStrictlyAscending(minPower: nat, maxPower: nat)
    requires minPower <= maxPower
    ensures forall i :: 0 <= i < maxPower - minPower ==> AmountLadder(minPower, maxPower)[i] == Pow2(minPower + i)
    ensures forall i, j :: 0 <= i < j < maxPower - minPower ==>
      AmountLadder(minPower, maxPower)[i] < AmountLadder(minPower, maxPower)[j]
  {
    var amounts := AmountLadder(minPower, maxPower);
    forall i, j | 0 <= i < j < maxPower - minPower
      ensures amounts[i] < amounts[j]
    {
      Pow2StrictlyIncreasing(minPower + i, minPower + j);
    }
  }

  /**
    For any integer exponents in the environment, the clamped ladder is non-empty, starts at
    `2^32` or above, and is strictly ascending.
  */
  lemma ClampedLadderNonEmpty(env: Env)
    ensures Clamp(env).minPowerOf2 < Clamp(env).maxPowerOf2
    ensures var ladder := AmountLadder(Clamp(env).minPowerOf2, Clamp(env).maxPowerOf2);
      |ladder| >= 1 && ladder[0] >= Pow2(32) &&
      forall i, j :: 0 <= i < j < |ladder| ==> ladder[i] < ladder[j]
  {
    var s := Clamp(env);
    LadderStrictlyAscending(s.minPowerOf2, s.maxPowerOf2);
    if s.minPowerOf2 > 32 {
      Pow2StrictlyIncreasing(32, s.minPowerOf2);
    }
  }

  /**
    An environment that already respects the bounds (`32 <= min < max <= 65`)
    is taken as it is: the ladder is exactly `2^min, ..., 2^(max-1)`.
  */
  lemma InRangeEnvUnchanged(env: Env)
    requires 32 <= env.minPowerOf2 < env.maxPowerOf2 <= 65
    ensures Clamp(env).minPowerOf2 == env.minPowerOf2 && Clamp(env).maxPowerOf2 == env.maxPowerOf2
    ensures |AmountLadder(Clamp(env).minPowerOf2, Clamp(env).maxPowerOf2)| == env.maxPowerOf2 - env.minPowerOf2
  {
  }

  lemma {:induction false} Pow2Add(a: nat, b: nat)
    ensures Pow2(a + b) == Pow2(a) * Pow2(b)
  {
    if b > 0 {
      Pow2Add(a, b - 1);
      calc {
        Pow2(a + b);
        2 * Pow2(a + b - 1);
        2 * (Pow2(a) * Pow2(b - 1));
        Pow2(a) * (2 * Pow2(b - 1));
        Pow2(a) * Pow2(b);
      }
    }
  }

  /** `2^128` as the product of four `2^32` factors. */
  lemma Pow2Of128()
    ensures Pow2(32) == 0x1_0000_0000
    ensures Pow2(128) == 0x1_0000_0000_0000_0000_0000_0000_0000_0000
  {
    assert Pow2(2) == 4 by { assert Pow2(1) == 2; }
    Pow2Add(2, 2);
    Pow2Add(4, 4);
    Pow2Add(8, 8);
    assert Pow2(16) == 0x1_0000;
    Pow2Add(16, 16);
    assert Pow2(32) == 0x1_0000_0000;
    Pow2Add(32, 32);
    assert Pow2(64) == 0x1_0000_0000_0000_0000;
    Pow2Add(64, 64);
  }
}
