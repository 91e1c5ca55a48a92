/** Exponential quota backoff (nextQuotaCooldown in conductor_result_helpers.go), in the
    64-bit arithmetic the source computes it with. */
module Backoff {

  const SECOND: nat := 1_000_000_000
  const MINUTE: nat := 60 * SECOND
  const HOUR: nat := 60 * MINUTE

  const BACKOFF_MAX: nat := 30 * MINUTE

  /** The highest level a run of failures reaches. */
  const TOP_LEVEL: nat := 11

  function Pow2(n: nat): nat {
    if n == 0 then 1 else 2 * Pow2(n - 1)
  }

  /** A result of 64-bit arithmetic: two's complement, wrapped around. */
  function Wrap(x: int): int {
    (x + 0x8000_0000_0000_0000) % 0x1_0000_0000_0000_0000 - 0x8000_0000_0000_0000
  }

  datatype Step = Step(cooldown: int, level: int)

  /** nextQuotaCooldown. */
  function NextQuotaCooldown(prevLevel: int, disableCooling: bool): Step {
    var level := if prevLevel < 0 then 0 else prevLevel;
    if disableCooling then Step(0, level)
    else
      var product := Wrap(SECOND * Wrap(Pow2(level)));
      var cooldown := if product < SECOND then SECOND else product;
      if cooldown >= BACKOFF_MAX then Step(BACKOFF_MAX, level) else Step(cooldown, level + 1)
  }

  function Capped(level: nat): nat {
    if Pow2(level) * SECOND < BACKOFF_MAX then Pow2(level) * SECOND else BACKOFF_MAX
  }

  lemma {:induction false} Pow2Grows(i: nat, j: nat)
    requires i <= j
    ensures 1 <= Pow2(i) <= Pow2(j)
    decreases j
  {
    if i < j {
      Pow2Grows(i, j - 1);
    } else if j > 0 {
      Pow2Grows(i - 1, j - 1);
    }
  }

  lemma Pow2Values()
    ensures Pow2(10) == 1024 && Pow2(11) == 2048 && Pow2(33) == 0x2_0000_0000 && Pow2(34) == 0x4_0000_0000
  {
    assert Pow2(5) == 32;
    assert Pow2(10) == 32 * Pow2(5);
    assert Pow2(15) == 32 * Pow2(10);
    assert Pow2(20) == 32 * Pow2(15);
    assert Pow2(25) == 32 * Pow2(20);
    assert Pow2(30) == 32 * Pow2(25);
  }

  /** In nanoseconds: from a second, doubled each time, to half an hour. */
  lemma CooldownsInNanoseconds()
    ensures Capped(0) == 1_000_000_000 && Capped(1) == 2_000_000_000 && Capped(10) == 1_024_000_000_000
    ensures forall level: nat :: level >= 11 ==> Capped(level) == 1_800_000_000_000
  {
    Pow2Values();
    assert Pow2(1) == 2 * Pow2(0);
    forall level: nat | level >= 11 ensures Capped(level) == 1_800_000_000_000 {
      Pow2Grows(11, level);
    }
  }

  lemma NoWrap(x: nat)
    requires x < 0x8000_0000_0000_0000
    ensures Wrap(x) == x
  {
  }

  /** Up to level 33 the 64-bit product is the real one: the cooldown is 2^level seconds,
      30 minutes at most, and the level rises until that bound is reached. */
  lemma CooldownExact(level: nat)
    requires level <= 33
    ensures NextQuotaCooldown(level, false) ==
      Step(Capped(level), if Pow2(level) * SECOND < BACKOFF_MAX then level + 1 else level)
  {
    hide Wrap, Pow2;
    Pow2Values();
    Pow2Grows(level, 33);
    NoWrap(Pow2(level));
    NoWrap(SECOND * Pow2(level));
  }

  /** Beyond that the cooldown is right exactly where the wrapped product happens to reach
      30 minutes. No run of failures gets there (LevelsStay). */
  lemma CooldownExactly(level: nat)
    ensures NextQuotaCooldown(level, false).cooldown == Capped(level)
            <==> level <= 33 || Wrap(SECOND * Wrap(Pow2(level))) >= BACKOFF_MAX
  {
    if level <= 33 {
      CooldownExact(level);
    } else {
      Pow2Values();
      Pow2Grows(34, level);
      hide Wrap, Pow2;
    }
  }

  /** At level 34 the product wraps around below zero and the cooldown falls back to one
      second. */
  lemma CooldownOverflows()
    ensures NextQuotaCooldown(34, false) == Step(SECOND, 35) && Capped(34) == BACKOFF_MAX
  {
    Pow2Values();
  }

  /** Levels start at 0 and never get near an overflow. */
  lemma LevelsStay(level: int, disableCooling: bool)
    requires level <= TOP_LEVEL
    ensures 0 <= NextQuotaCooldown(level, disableCooling).level <= TOP_LEVEL
    ensures disableCooling ==> NextQuotaCooldown(level, disableCooling).cooldown == 0
    ensures !disableCooling ==> NextQuotaCooldown(level, disableCooling).cooldown == Capped(if level < 0 then 0 else level)
  {
    var from: nat := if level < 0 then 0 else level;
    Pow2Values();
    CooldownExact(from);
    if from == TOP_LEVEL {
      assert Pow2(from) == 2048;
    }
  }

  function Least(a: nat, b: nat): nat {
    if a < b then a else b
  }

  /** The level after `k` quota failures in a row. */
  function LevelAfter(level: nat, k: nat): int {
    if k == 0 then level else NextQuotaCooldown(LevelAfter(level, k - 1), false).level
  }

  lemma {:induction false} Climb(level: nat, k: nat)
    requires level <= TOP_LEVEL
    ensures LevelAfter(level, k) == Least(level + k, TOP_LEVEL)
  {
    hide Pow2, Wrap, NextQuotaCooldown;
    if k > 0 {
      Climb(level, k - 1);
      var from := Least(level + k - 1, TOP_LEVEL);
      Pow2Values();
      CooldownExact(from);
      if from < TOP_LEVEL {
        Pow2Grows(from, 10);
      }
    }
  }

  /** In a row of quota failures the k-th cooldown is min(2^(level + k) s, 30 min), so the
      cooldowns never decrease. */
  lemma CooldownsInARow(level: nat, j: nat, k: nat)
    requires level <= TOP_LEVEL && j <= k
    ensures NextQuotaCooldown(LevelAfter(level, k), false).cooldown == Capped(level + k)
    ensures NextQuotaCooldown(LevelAfter(level, j), false).cooldown <= NextQuotaCooldown(LevelAfter(level, k), false).cooldown
  {
    CooldownAfter(level, j);
    CooldownAfter(level, k);
    Pow2Grows(level + j, level + k);
  }

  lemma CooldownAfter(level: nat, k: nat)
    requires level <= TOP_LEVEL
    ensures NextQuotaCooldown(LevelAfter(level, k), false).cooldown == Capped(level + k)
  {
    Climb(level, k);
    CooldownExact(Least(level + k, TOP_LEVEL));
    Pow2Values();
    Pow2Grows(Least(level + k, TOP_LEVEL), level + k);
  }
}
