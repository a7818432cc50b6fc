/**
 * The level table of the progression engine: ten cumulative XP thresholds,
 * the level an XP total reaches, the XP still needed for the next level, and
 * the rounded progress through the current level.
 */
module Levels {
  import opened Percent

  /** Cumulative XP at which levels 1..10 begin (`LEVEL_THRESHOLDS`). */
  const LevelThresholds: seq<int> := [0, 100, 250, 500, 850, 1300, 1900, 2700, 3700, 5000]

  const MaxLevel: int := 10

  /** The thresholds strictly increase. */
  lemma ThresholdsIncrease(i: int, j: int)
    requires 0 <= i < j < |LevelThresholds|
    ensures LevelThresholds[i] < LevelThresholds[j]
  {
  }

  /** How many of the first `k` thresholds `xp` reaches; they form a prefix of the table. */
  function Reached(xp: int, k: nat): (c: nat)
    requires k <= |LevelThresholds|
    ensures c <= k
    ensures forall i :: 0 <= i < c ==> LevelThresholds[i] <= xp
    ensures forall i :: c <= i < k ==> xp < LevelThresholds[i]
  {
    if k == 0 then 0
    else if LevelThresholds[k - 1] <= xp then
      assert forall i :: 0 <= i < k - 1 ==> LevelThresholds[i] < LevelThresholds[k - 1];
      k
    else Reached(xp, k - 1)
  }

  /**
   * The level of an XP total: `i + 1` for the largest `i` whose threshold
   * `xp` reaches, and 1 when it reaches none (a negative total).
   */
  function Level(xp: int): (l: int)
    ensures 1 <= l <= MaxLevel
    ensures xp >= 0 ==> LevelThresholds[l - 1] <= xp
    ensures l < MaxLevel ==> xp < LevelThresholds[l]
  {
    var c := Reached(xp, |LevelThresholds|);
    if c == 0 then 1 else c
  }

  /** The three facts in `Level`'s contract determine the level. */
  lemma LevelUnique(xp: int, l: int)
    requires 1 <= l <= MaxLevel
    requires l == 1 || LevelThresholds[l - 1] <= xp
    requires l < MaxLevel ==> xp < LevelThresholds[l]
    ensures l == Level(xp)
  {
    var m := Level(xp);
    if l < m {
      ThresholdsIncrease(l, m - 1);
    } else if m < l {
      ThresholdsIncrease(m, l - 1);
    }
  }

  /** More XP never means a lower level. */
  lemma LevelMonotonic(x: int, y: int)
    requires x <= y
    ensures Level(x) <= Level(y)
  {
    if Level(x) > Level(y) {
      ThresholdsIncrease(Level(y), Level(x) - 1);
    }
  }

  /**
   * `calculateLevel`: scans the table from the top and stops at the first
   * threshold `xp` reaches.
   */
  method CalculateLevel(xp: int) returns (level: int)
    ensures level == Level(xp)
  {
    level := 1;
    var i := |LevelThresholds| - 1;
    while i >= 0
      invariant -1 <= i < |LevelThresholds|
      invariant forall j :: i < j < |LevelThresholds| ==> xp < LevelThresholds[j]
      invariant level == 1
    {
      if xp >= LevelThresholds[i] {
        level := i + 1;
        break;
      }
      i := i - 1;
    }
    if level > MaxLevel {
      level := MaxLevel;
    }
    LevelUnique(xp, level);
  }

  /** `getXPForNextLevel`: 0 at the top level, otherwise the XP still missing to the next threshold. */
  function XPForNextLevel(xp: int): (r: int)
    ensures r == 0 <==> Level(xp) == MaxLevel
    ensures r >= 0
  {
    var l := Level(xp);
    if l >= MaxLevel then 0 else LevelThresholds[l] - xp
  }

  /** Gaining exactly the missing XP reaches the next level; one XP less does not. */
  lemma XPForNextLevelIsExact(xp: int)
    requires Level(xp) < MaxLevel
    ensures Level(xp + XPForNextLevel(xp)) == Level(xp) + 1
    ensures Level(xp + XPForNextLevel(xp) - 1) == Level(xp)
  {
    var l := Level(xp);
    var n := xp + XPForNextLevel(xp);
    if l + 1 < MaxLevel {
      ThresholdsIncrease(l, l + 1);
    }
    LevelUnique(n, l + 1);
    if l > 1 {
      ThresholdsIncrease(l - 1, l);
    }
    LevelUnique(n - 1, l);
  }

  /** `getLevelProgress`: the rounded percentage of the current level's XP span already earned. */
  function LevelProgress(xp: int): (r: int)
    ensures Level(xp) == MaxLevel ==> r == 100
    ensures xp >= 0 ==> 0 <= r <= 100
  {
    var l := Level(xp);
    if l >= MaxLevel then 100
    else
      ThresholdsIncrease(l - 1, l);
      var progressXP := xp - LevelThresholds[l - 1];
      var requiredXP := LevelThresholds[l] - LevelThresholds[l - 1];
      Percentage(progressXP, requiredXP)
  }
}
