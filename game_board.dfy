/**
 * The bomb's burn level (getPotatoSprite in src/components/game/gameBoard.tsx),
 * in exact arithmetic.
 */
module GameBoard {

  /** `getPotatoSprite(timer, duration)`: 0 fresh, 1 slightly burnt, 2 very
      burnt, 3 critical, by the remaining share of the bomb time. A zero
      duration divides to +Infinity (level 0) for a positive timer, and to NaN
      or -Infinity (level 3) otherwise. */
  function PotatoSprite(timer: int, duration: int): (level: nat)
    ensures level <= 3
  {
    if duration == 0 then (if timer > 0 then 0 else 3)
    else
      var percentage := (timer as real / duration as real) * 100.0;
      if percentage > 66.0 then 0
      else if percentage > 33.0 then 1
      else if percentage > 10.0 then 2
      else 3
  }

  /** For a positive duration the percentage test is a comparison of integers. */
  lemma PercentAbove(timer: int, duration: int, bound: int)
    requires duration > 0
    ensures (timer as real / duration as real) * 100.0 > bound as real <==> timer * 100 > bound * duration
  {
    var d := duration as real;
    var q := timer as real / d;
    assert q * d == timer as real;
    if q * 100.0 > bound as real {
      assert q * 100.0 * d > bound as real * d;
    }
    if timer * 100 > bound * duration {
      assert q * d * 100.0 > bound as real * d;
    }
  }

  /** For a positive duration the level is decided by cross-multiplication:
      above 66%, 33% and 10% of the duration. */
  lemma SpriteBands(timer: int, duration: int)
    requires duration > 0
    ensures PotatoSprite(timer, duration) ==
      if timer * 100 > 66 * duration then 0
      else if timer * 100 > 33 * duration then 1
      else if timer * 100 > 10 * duration then 2
      else 3
  {
    PercentAbove(timer, duration, 66);
    PercentAbove(timer, duration, 33);
    PercentAbove(timer, duration, 10);
  }

  /** With the duration fixed, more time left never shows a more burnt potato. */
  lemma SpriteMonotone(t1: int, t2: int, duration: int)
    requires duration > 0 && t1 <= t2
    ensures PotatoSprite(t2, duration) <= PotatoSprite(t1, duration)
  {
    SpriteBands(t1, duration);
    SpriteBands(t2, duration);
  }

  /** A full bomb is fresh and an empty one critical. */
  lemma SpriteEnds(duration: int)
    ensures duration > 0 ==> PotatoSprite(duration, duration) == 0
    ensures PotatoSprite(0, duration) == 3
  {
    if duration > 0 {
      SpriteBands(duration, duration);
    }
    if duration != 0 {
      assert 0 as real / duration as real == 0.0;
    }
  }
}
