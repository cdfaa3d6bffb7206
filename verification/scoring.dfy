/** Kill streaks, the multikill window, the high score and the transient
    timers (screen shake, combo, multikill) that decay every tick. */
module Scoring {

  /** Seconds within which consecutive kills extend a streak. */
  const MULTIKILL_TIME: real := 1.5
  /** Screen shake never exceeds this. */
  const MAX_SHAKE: real := 15.0
  /** Screen shake decays by this much per second. */
  const SHAKE_DECAY: real := 60.0

  /** The process-wide score counters. */
  datatype Streak = Streak(score: int, highScore: int, lastKillTime: real,
                           killStreak: int, multiKillCount: int, multiKillTimer: real)

  predicate WithinWindow(s: Streak, now: real)
  {
    now - s.lastKillTime < MULTIKILL_TIME
  }

  /** `Math.floor(points * (count * factor))`. */
  function Bonus(points: nat, count: int, factor: real): (b: int)
    requires count >= 0 && factor >= 0.0
    ensures b >= 0
  {
    var v := (points as real) * ((count as real) * factor);
    assert v >= 0.0;
    v.Floor
  }

  /** handleEnemyKill: a kill inside the window extends the streak and the
      multikill count and pays bonuses on top of the enemy's points; a kill
      outside it starts a new streak worth just the points. The high score
      follows the score. */
  function OnKill(s: Streak, points: nat, now: real): (r: Streak)
    requires s.killStreak >= 0 && s.multiKillCount >= 0
    ensures r.killStreak >= 1 && r.multiKillCount >= 1
    ensures r.highScore >= r.score && r.highScore >= s.highScore
    ensures r.highScore == s.highScore || r.highScore == r.score
    ensures r.lastKillTime == now
    ensures WithinWindow(s, now) ==>
      r.killStreak == s.killStreak + 1 && r.multiKillCount == s.multiKillCount + 1 &&
      r.multiKillTimer == MULTIKILL_TIME && r.score >= s.score + points
    ensures !WithinWindow(s, now) ==>
      r.killStreak == 1 && r.multiKillCount == 1 &&
      r.multiKillTimer == s.multiKillTimer && r.score == s.score + points
  {
    var t := if WithinWindow(s, now) then
        var streak := s.killStreak + 1;
        var count := s.multiKillCount + 1;
        var total := points + Bonus(points, streak, 0.5) + Bonus(points, count, 0.3);
        s.(killStreak := streak, multiKillCount := count, multiKillTimer := MULTIKILL_TIME,
           score := s.score + total, lastKillTime := now)
      else
        s.(killStreak := 1, multiKillCount := 1, score := s.score + points, lastKillTime := now);
    if t.score > t.highScore then t.(highScore := t.score) else t
  }

  /** Two kills in quick succession: the second pays at least one and a half
      times the points and the streak reaches two. */
  lemma QuickDoubleKill(s: Streak, points: nat, now: real, later: real)
    requires s.killStreak >= 0 && s.multiKillCount >= 0
    requires !WithinWindow(s, now) && now <= later < now + MULTIKILL_TIME
    ensures var r1 := OnKill(s, points, now);
      var r2 := OnKill(r1, points, later);
      r2.killStreak == 2 && r2.score >= r1.score + points + Bonus(points, 2, 0.5)
  {
    var r1 := OnKill(s, points, now);
    assert r1.killStreak == 1 && r1.multiKillCount == 1;
    assert WithinWindow(r1, later);
  }

  /** addScreenShake. */
  function AddShake(shake: real, amount: real): (r: real)
    ensures r <= MAX_SHAKE
    ensures shake + amount <= MAX_SHAKE ==> r == shake + amount
    ensures 0.0 <= shake <= MAX_SHAKE && amount >= 0.0 ==> shake <= r
  {
    if shake + amount <= MAX_SHAKE then shake + amount else MAX_SHAKE
  }

  /** Screen shake decay: falls by 60 per second and stops at zero. */
  function DecayShake(shake: real, dt: real): (r: real)
    ensures shake >= 0.0 ==> r >= 0.0
    ensures dt >= 0.0 ==> r <= shake || shake <= 0.0
    ensures shake <= 0.0 ==> r == shake
  {
    if shake > 0.0 then
      var s := shake - dt * SHAKE_DECAY;
      if s < 0.0 then 0.0 else s
    else shake
  }

  /** A running counter and its timer: while the counter is positive the timer
      runs down, and the counter is cleared once the timer reaches zero
      (the combo block). */
  function DecayCombo(combo: int, timer: real, dt: real): (r: (int, real))
    ensures combo <= 0 ==> r == (combo, timer)
    ensures combo > 0 ==> r.1 == timer - dt && (r.0 == 0 <==> timer - dt <= 0.0)
    ensures r.0 == 0 || r.0 == combo
  {
    if combo > 0 then
      var t := timer - dt;
      (if t <= 0.0 then 0 else combo, t)
    else (combo, timer)
  }

  /** The multikill block: here the timer is what gates the countdown. */
  function DecayMultiKill(count: int, timer: real, dt: real): (r: (int, real))
    ensures timer <= 0.0 ==> r == (count, timer)
    ensures timer > 0.0 ==> r.1 == timer - dt && (r.0 == 0 <==> (timer - dt <= 0.0 || count == 0))
    ensures r.0 == 0 || r.0 == count
  {
    if timer > 0.0 then
      var t := timer - dt;
      (if t <= 0.0 then 0 else count, t)
    else (count, timer)
  }

  /** A kill window closes: with no further kill, the multikill count is
      cleared once the full window has elapsed. */
  lemma MultiKillWindowCloses(s: Streak, points: nat, now: real, dt: real)
    requires s.killStreak >= 0 && s.multiKillCount >= 0
    requires WithinWindow(s, now) && dt >= MULTIKILL_TIME
    ensures var r := OnKill(s, points, now);
      DecayMultiKill(r.multiKillCount, r.multiKillTimer, dt).0 == 0
  {
  }

  // ------------------------------------------------------------ achievements

  datatype Achievement = Achievement(progress: int, goal: int, unlocked: bool)

  /** Positions in the achievement list, in declaration order. */
  const SHARPSHOOTER: nat := 0
  const SURVIVOR: nat := 1
  const ARSENAL: nat := 2
  const SPEEDSTER: nat := 3
  const TANK_KILLER: nat := 4
  const ACHIEVEMENT_COUNT: nat := 5

  /** Skill points an unlock grants. */
  const ACHIEVEMENT_REWARD: nat := 2

  /** The arsenal goal is the size of the weapon table, which holds one weapon. */
  const InitialAchievements: seq<Achievement> :=
    [Achievement(0, 50, false), Achievement(0, 10, false), Achievement(0, 1, false),
     Achievement(0, 100, false), Achievement(0, 20, false)]

  predicate Unlockable(a: Achievement)
  {
    !a.unlocked && a.progress >= a.goal
  }

  function Check(a: Achievement): (r: Achievement)
    ensures r.progress == a.progress && r.goal == a.goal
    ensures r.unlocked <==> a.unlocked || a.progress >= a.goal
  {
    if Unlockable(a) then a.(unlocked := true) else a
  }

  /** The list after a check: every reached goal is unlocked. */
  function CheckAll(s: seq<Achievement>): (r: seq<Achievement>)
    ensures |r| == |s|
    ensures forall k :: 0 <= k < |s| ==> r[k] == Check(s[k])
  {
    seq(|s|, k requires 0 <= k < |s| => Check(s[k]))
  }

  /** Skill points a check grants: two per achievement unlocked by it. */
  function Reward(s: seq<Achievement>): nat
  {
    if s == [] then 0
    else Reward(s[..|s| - 1]) + (if Unlockable(s[|s| - 1]) then ACHIEVEMENT_REWARD else 0)
  }

  /** One more achievement checked: the checked prefix and its reward grow
      by that achievement alone. */
  lemma CheckPrefix(s: seq<Achievement>, i: nat)
    requires i < |s|
    ensures CheckAll(s[..i + 1]) == CheckAll(s[..i]) + [Check(s[i])]
    ensures Reward(s[..i + 1]) == Reward(s[..i]) + (if Unlockable(s[i]) then ACHIEVEMENT_REWARD else 0)
  {
    assert s[..i + 1][..i] == s[..i];
  }

  /** Checking twice changes nothing the second time and grants nothing: each
      achievement pays out once. */
  lemma CheckOnce(s: seq<Achievement>)
    ensures CheckAll(CheckAll(s)) == CheckAll(s)
    ensures Reward(CheckAll(s)) == 0
  {
    NothingUnlockable(CheckAll(s));
  }

  lemma {:induction false} NothingUnlockable(s: seq<Achievement>)
    requires forall k :: 0 <= k < |s| ==> !Unlockable(s[k])
    ensures Reward(s) == 0
  {
    if s != [] {
      NothingUnlockable(s[..|s| - 1]);
    }
  }

  /** The reward counts the unlocks: at most two points per achievement, and
      none when every goal is out of reach. */
  lemma {:induction false} RewardBounded(s: seq<Achievement>)
    ensures Reward(s) <= ACHIEVEMENT_REWARD * |s|
    ensures Reward(s) % ACHIEVEMENT_REWARD == 0
  {
    if s != [] {
      RewardBounded(s[..|s| - 1]);
    }
  }
}
