/** The experience curve, the multi-level leveling rule and the skill-point
    price list. */
module Leveling {

  datatype Option<T> = None | Some(value: T)

  /** Number of entries in the threshold table. */
  const LEVEL_COUNT: nat := 50
  /** Skill points granted per level gained. */
  const POINTS_PER_LEVEL: int := 2

  function Pow(b: nat, e: nat): nat
  {
    if e == 0 then 1 else b * Pow(b, e - 1)
  }

  lemma {:induction false} PowPositive(b: nat, e: nat)
    requires b > 0
    ensures Pow(b, e) > 0
  {
    if e > 0 { PowPositive(b, e - 1); }
  }

  /** Entry i of the threshold table, floor(100 * 1.5^i), computed exactly. */
  function Threshold(i: nat): nat
  {
    PowPositive(2, i);
    (100 * Pow(3, i)) / Pow(2, i)
  }

  lemma FirstThresholds()
    ensures Threshold(0) == 100 && Threshold(1) == 150 && Threshold(2) == 225
  {
    assert Pow(3, 2) == 9 && Pow(2, 2) == 4;
  }

  /** Reading the table at an index; past the end the read yields nothing,
      and every comparison against nothing is false. */
  function ThresholdAt(index: int): (t: Option<nat>)
    ensures t.Some? <==> 0 <= index < LEVEL_COUNT
    ensures t.Some? ==> t.value == Threshold(index)
  {
    if 0 <= index < LEVEL_COUNT then Some(Threshold(index)) else None
  }

  /** The player's leveling fields. */
  datatype Progress = Progress(level: int, experience: int, toNext: Option<nat>, skillPoints: int)

  /** The requirement for the next level is the table entry of the current level. */
  predicate Consistent(p: Progress)
  {
    p.level >= 1 && p.toNext == ThresholdAt(p.level - 1)
  }

  const Start: Progress := Progress(1, 0, Some(100), 0)

  lemma StartIsConsistent()
    ensures Consistent(Start)
  {
    FirstThresholds();
  }

  /** One pass of the level-up loop body. */
  function LevelUp(p: Progress): (r: Progress)
    requires Consistent(p) && p.toNext.Some?
    ensures Consistent(r)
    ensures r.level == p.level + 1
    ensures r.experience == p.experience - Threshold(p.level - 1)
    ensures r.skillPoints == p.skillPoints + POINTS_PER_LEVEL
  {
    Progress(p.level + 1, p.experience - p.toNext.value, ThresholdAt(p.level), p.skillPoints + POINTS_PER_LEVEL)
  }

  predicate CanLevel(p: Progress)
  {
    p.toNext.Some? && p.experience >= p.toNext.value
  }

  /** Repeats the level-up step while the experience reaches the requirement. */
  function Settle(p: Progress): (r: Progress)
    requires Consistent(p)
    ensures Consistent(r)
    ensures !CanLevel(r)
    ensures r.level >= p.level
    ensures r.skillPoints == p.skillPoints + POINTS_PER_LEVEL * (r.level - p.level)
    ensures r.level <= LEVEL_COUNT ==> r.experience < r.toNext.value
    decreases LEVEL_COUNT + 1 - p.level
  {
    if CanLevel(p) then Settle(LevelUp(p)) else p
  }

  /** Adds experience and levels up as many times as it allows. */
  function GainExperience(p: Progress, amount: int): (r: Progress)
    requires Consistent(p)
    ensures Consistent(r) && !CanLevel(r)
    ensures r.level >= p.level && r.skillPoints >= p.skillPoints
  {
    Settle(p.(experience := p.experience + amount))
  }

  /** Sum of the table entries lo .. hi-1. */
  function ThresholdSum(lo: nat, hi: nat): int
    decreases hi - lo
  {
    if lo >= hi then 0 else Threshold(lo) + ThresholdSum(lo + 1, hi)
  }

  /** Crossing a run of levels in two goes costs what crossing it at once does. */
  lemma {:induction false} ThresholdSumSplit(a: nat, b: nat, c: nat)
    requires a <= b <= c
    ensures ThresholdSum(a, b) + ThresholdSum(b, c) == ThresholdSum(a, c)
    decreases b - a
  {
    if a < b {
      ThresholdSumSplit(a + 1, b, c);
    }
  }

  /** The level-up loop conserves experience: what went in equals what is
      left plus the requirements of the levels crossed. */
  lemma {:induction false} SettleConserves(p: Progress)
    requires Consistent(p)
    ensures Settle(p).experience + ThresholdSum(p.level - 1, Settle(p).level - 1) == p.experience
    decreases LEVEL_COUNT + 1 - p.level
  {
    if CanLevel(p) {
      var q := LevelUp(p);
      SettleConserves(q);
      assert Settle(p) == Settle(q);
    }
  }

  lemma GainConserves(p: Progress, amount: int)
    requires Consistent(p)
    ensures var r := GainExperience(p, amount);
      p.experience + amount == r.experience + ThresholdSum(p.level - 1, r.level - 1) &&
      r.skillPoints == p.skillPoints + POINTS_PER_LEVEL * (r.level - p.level)
  {
    SettleConserves(p.(experience := p.experience + amount));
  }

  /** 250 experience from the start crosses two levels with nothing left. */
  lemma GainTwoFiftyFromStart()
    ensures GainExperience(Start, 250) == Progress(3, 0, Some(225), 4)
  {
    FirstThresholds();
    var p1 := Start.(experience := 250);
    assert CanLevel(p1);
    var p2 := LevelUp(p1);
    assert p2 == Progress(2, 150, Some(150), 2);
    var p3 := LevelUp(p2);
    assert p3 == Progress(3, 0, Some(225), 4);
    assert !CanLevel(p3);
  }

  /** Past the last table entry no amount of experience raises the level. */
  lemma NoLevelsPastTable(p: Progress, amount: int)
    requires Consistent(p) && p.level > LEVEL_COUNT
    ensures GainExperience(p, amount).level == p.level
    ensures GainExperience(p, amount).experience == p.experience + amount
  {
  }

  /** An award below the current requirement never changes the level. */
  lemma SmallAwardKeepsLevel(p: Progress, amount: int)
    requires Consistent(p) && p.toNext.Some? && p.experience + amount < p.toNext.value
    ensures GainExperience(p, amount) == p.(experience := p.experience + amount)
  {
  }

  /** The upgradeable stats. `Unlisted` stands for a name missing from the
      price list. */
  datatype Skill = MaxHealth | Speed | Damage | CriticalChance | Unlisted(name: string)

  function Cost(s: Skill): (c: Option<int>)
    ensures c.Some? <==> !s.Unlisted?
    ensures c.Some? ==> c.value == (if s.CriticalChance? then 2 else 1)
  {
    match s
    case MaxHealth => Some(1)
    case Speed => Some(1)
    case Damage => Some(1)
    case CriticalChance => Some(2)
    case Unlisted(_) => None
  }

  /** The stats an upgrade touches. */
  datatype Build = Build(skillPoints: int, maxHealthBonus: real, maxHealth: real, health: real,
                         speedBonus: real, damageBonus: real, criticalChance: real)

  const BASE_MAX_HEALTH: real := 100.0

  /** upgradeSkill: an unaffordable or unpriced skill changes nothing;
      otherwise the price is paid and exactly that skill's stat grows. */
  function Upgrade(b: Build, s: Skill): (r: Build)
    ensures Cost(s).None? || b.skillPoints < Cost(s).value ==> r == b
    ensures Cost(s).Some? && b.skillPoints >= Cost(s).value ==> r.skillPoints == b.skillPoints - Cost(s).value
    ensures b.skillPoints >= 0 ==> r.skillPoints >= 0
    ensures b.health <= b.maxHealth ==> r.health <= r.maxHealth
    ensures r.skillPoints < b.skillPoints ==>
      match s
      case MaxHealth =>
        r == b.(skillPoints := r.skillPoints, maxHealthBonus := b.maxHealthBonus + 20.0,
                maxHealth := BASE_MAX_HEALTH + b.maxHealthBonus + 20.0, health := r.health) &&
        (r.health == b.health + 20.0 || r.health == r.maxHealth)
      case Speed => r == b.(skillPoints := r.skillPoints, speedBonus := b.speedBonus + 20.0)
      case Damage => r == b.(skillPoints := r.skillPoints, damageBonus := b.damageBonus + 5.0)
      case CriticalChance => r == b.(skillPoints := r.skillPoints, criticalChance := b.criticalChance + 0.05)
      case Unlisted(_) => false
  {
    match Cost(s)
    case None => b
    case Some(cost) =>
      if b.skillPoints < cost then b
      else
        var paid := b.(skillPoints := b.skillPoints - cost);
        match s
        case MaxHealth =>
          var bonus := b.maxHealthBonus + 20.0;
          var maxHealth := BASE_MAX_HEALTH + bonus;
          paid.(maxHealthBonus := bonus, maxHealth := maxHealth,
                health := if b.health + 20.0 <= maxHealth then b.health + 20.0 else maxHealth)
        case Speed => paid.(speedBonus := b.speedBonus + 20.0)
        case Damage => paid.(damageBonus := b.damageBonus + 5.0)
        case CriticalChance => paid.(criticalChance := b.criticalChance + 0.05)
        case Unlisted(_) => paid
  }

  /** Spending points never goes below zero, however the upgrades are chosen. */
  lemma {:induction false} UpgradesStayAffordable(b: Build, picks: seq<Skill>)
    requires b.skillPoints >= 0
    ensures UpgradeAll(b, picks).skillPoints >= 0
    ensures UpgradeAll(b, picks).skillPoints <= b.skillPoints
    decreases |picks|
  {
    if picks != [] {
      UpgradesStayAffordable(Upgrade(b, picks[0]), picks[1..]);
    }
  }

  function UpgradeAll(b: Build, picks: seq<Skill>): Build
    decreases |picks|
  {
    if picks == [] then b else UpgradeAll(Upgrade(b, picks[0]), picks[1..])
  }
}
