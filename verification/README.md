# Arcade survival game: a verified model of the per-tick bookkeeping

The game is a top-down arcade shooter in one JavaScript file (`game.js`).
The player stands on a 2400 × 1800 map and is chased by waves of enemies.
The player shoots them with a rifle that runs out of ammunition and has to
reload. Each kill earns score and experience, and experience raises the
level. The player spends skill points on upgrades and has three abilities
on cooldowns: a chained dash, a shield and a time slow. Hazards on the
ground hurt the player and leave damage-over-time (DOT) effects behind.

This project models the game's state and the update that runs once per
frame (`updateGameLoop`), and proves properties of that model in Dafny.

The project has eight modules:

- **`Geometry`**: the box collision test, clamping, the camera clamp, and
  the world/screen transforms.
- **`Leveling`**: the experience table, the multi-level leveling loop
  (as a function) and the skill price list with upgrades.
- **`Scoring`**: kill streaks and the multikill window, the high score,
  the decaying timers, screen shake, and the achievement list.
- **`Abilities`**: the dash, shield and time slow as records with pure
  transition functions. This includes the chain-termination rule of the
  chained dash.
- **`Entities`**: enemy, projectile and power-up records, the enemy type
  table, the weighted spawn list and the one weapon.
- **`Effects`**: DOT effects and hazards. Each has a specification
  function ("what a tick leaves") and a method with the source's
  reverse-index removal loop, proved against that function.
- **`Combat`**: the three reverse-index passes over player projectiles,
  enemies and enemy projectiles. Each pass is specified by a fold from the
  last index down and implemented by a loop proved equal to it. Lemmas
  then prove what the folds guarantee: hit and removal rules, credit
  conservation, dash immunity, and game over exactly when health is gone.
- **`Game`**: the mutable world as two classes, `Player` and `Game`, with
  one method per update step. `Game.Tick` is one frame.

The program keeps its state in module-level variables, and the methods
update that state in place. Everything random, and every direction
computed with `sqrt`, `atan2`, `cos` or `sin`, reaches a method as a field
of `Input`. This covers, for example, the moved positions, the crit rolls,
the chosen chain target and the spawned enemy kind.

The leveling table is `floor(100 · 1.5^i)` for `i < 50`. The model
computes it exactly as `(100·3^i) div 2^i`.

Reading the table past its end yields `undefined` in the program. Every
comparison with `undefined` is false, so the model uses `None` there, and
past level 50 experience piles up without further levels.

## Model

| member | source | states |
|---|---|---|
| Leveling.ThresholdAt | game.js:101 | the table has exactly 50 entries; a read inside it yields the entry, and a read outside it yields nothing |
| Leveling.FirstThresholds | game.js:101 | the first three requirements are 100, 150 and 225 |
| Leveling.StartIsConsistent | game.js:49-51 | the initial player (level 1, 0 experience, 100 to the next level) has the requirement of the table entry for its level |
| Leveling.LevelUp | game.js:1157-1161 | one pass of the loop keeps the requirement equal to the table entry of the new level; it raises the level by one, subtracts exactly that level's requirement and grants 2 skill points |
| Leveling.Settle | game.js:1157-1163 | the loop ends unable to level further; the requirement matches the table; the level only grows; 2 points per level gained; while within the table, experience is below the requirement |
| Leveling.GainExperience | game.js:1155-1165 | after an award the requirement matches the level, no further level-up is possible, and level and skill points never fall |
| Leveling.GainConserves | game.js:1155-1165 | experience is conserved (old + award = left + the requirements of the levels crossed), and skill points grow by exactly 2 per level gained |
| Leveling.SettleConserves | game.js:1157-1163 | the level-up loop alone conserves experience in the same way |
| Leveling.ThresholdSumSplit | game.js:101 | crossing a run of levels in two goes costs the same as crossing it at once |
| Leveling.GainTwoFiftyFromStart | game.js:1155-1165 | 250 experience from the start yields level 3, with 0 left, 225 to go and 4 skill points |
| Leveling.NoLevelsPastTable | game.js:1155-1165 | past the end of the table an award never changes the level; all of it stays as experience |
| Leveling.SmallAwardKeepsLevel | game.js:1155-1165 | an award that does not reach the requirement only adds to the experience |
| Leveling.Cost | game.js:104-109 | only the four listed skills have a price: 2 for critical chance and 1 for the others |
| Leveling.Upgrade | game.js:1167-1188 | an unpriced or unaffordable skill changes nothing. Otherwise exactly the price is paid and only that skill's stat grows (+20 max-health bonus with max health 100 + bonus, +20 speed, +5 damage, +0.05 crit). Skill points stay non-negative and health stays within max health |
| Leveling.UpgradesStayAffordable | game.js:1167-1170 | for any sequence of upgrades, skill points never go negative and never grow |
| Geometry.OverlapsSymmetric | game.js:1783-1788 | the collision test is symmetric |
| Geometry.OverlapsTranslationInvariant | game.js:1783-1788 | moving both boxes by the same offset does not change the test |
| Geometry.SharedEdgeIsNoCollision | game.js:1783-1788 | boxes that only touch along an edge do not collide |
| Geometry.FlatBoxesNeverCollide | game.js:1783-1788 | two boxes that both have width ≤ 0 never collide |
| Geometry.ZeroWidthInsideCollides | game.js:1783-1788 | a zero-size box strictly inside another box does collide with it |
| Geometry.CollisionExamples | game.js:1783-1788 | (10,10,4,4) collides with (11,11,40,40); (0,0,4,4) does not collide with (100,100,40,40) |
| Geometry.OverlapsIffCommonPoint | game.js:1783-1788 | for boxes of positive size, the test holds exactly when the boxes share an interior point |
| Geometry.Clamp | game.js:1842-1843 | the result lies in the range, equals the value inside it, and equals the nearer bound outside it |
| Geometry.CameraFor | game.js:262-270 | the camera corner stays inside the map, and it centres the player whenever the player is at least half a view away from the border |
| Geometry.ScreenWorldInverse | game.js:273-286 | world-to-screen and screen-to-world are inverse to each other |
| Geometry.ClampToMap | game.js:1842-1843 | the player's position is held half a player inside the map and is unchanged when already there |
| Entities.TypeOf | game.js:134-182 | every enemy type has positive health, damage and points |
| Entities.SpawnWeights | game.js:972-980 | the spawn list holds normal three times, fast twice, and tank, shooter and chemical once each |
| Entities.Spawned | game.js:966-997 | a spawned enemy has the rolled kind and that type's size, speed, health, damage and points; its position is the chosen spot clamped to the map (kept as is when already inside); full health and a ready gun |
| Entities.ShotDamage | game.js:327 | shot damage is the rifle's 50 scaled up by the damage bonus, and exactly 50 with no bonus |
| Entities.Bullet | game.js:333-345 | a shot starts at the player, is penetrating, carries the scaled damage, and strays at most half the spread from the aim |
| Scoring.Bonus | game.js:1937-1938 | a streak or multikill bonus is never negative |
| Scoring.OnKill | game.js:1923-1962 | a kill inside the 1.5 s window raises the streak and the multikill count by one, resets the multikill timer and pays at least the points; a kill outside it restarts both counts at 1 and pays exactly the points. The streak stays ≥ 1 and the high score stays ≥ the score and never falls |
| Scoring.QuickDoubleKill | game.js:1923-1962 | a second kill within the window reaches streak 2 and pays the points plus the streak bonus at least |
| Scoring.AddShake | game.js:1918-1920 | screen shake is capped at 15 and never lowered by a non-negative amount |
| Scoring.DecayShake | game.js:586-590 | shake falls with time, never below zero, and a shake at zero or below stays put |
| Scoring.DecayCombo | game.js:592-598 | while a combo runs its timer falls by the tick, and the combo is cleared exactly when the timer runs out |
| Scoring.DecayMultiKill | game.js:600-606 | while the multikill timer runs it falls by the tick, and the count is cleared exactly when it runs out |
| Scoring.MultiKillWindowCloses | game.js:600-606 | after a streak kill with no further kill, the multikill count is cleared once the full window has passed |
| Scoring.Check | game.js:431-433 | an achievement is unlocked exactly when it was unlocked already or its goal is reached; its progress and goal are untouched |
| Scoring.CheckAll | game.js:429-445 | every achievement in the list is checked; the length is kept |
| Scoring.CheckOnce | game.js:429-445 | checking again changes nothing and grants nothing: every achievement pays out once |
| Scoring.NothingUnlockable | game.js:429-445 | a list in which nothing is newly reachable grants no skill points |
| Scoring.RewardBounded | game.js:429-445 | a check grants two points per unlock, so at most two per achievement |
| Abilities.Cool | game.js:1205-1209 | a cooldown falls by the tick and stops at zero; one already at zero or below is untouched |
| Abilities.StartDash | game.js:1212-1241 | starting a dash uses exactly one charge, restarts the cooldown, clears the chain count and sets the direction |
| Abilities.ChainStep | game.js:1273-1356 | the dash stays active only if it was active, fewer than 3 chains ran and a target was found; it then turns to that target; charges, chain count and cooldowns are untouched |
| Abilities.FinishSegment | game.js:1341 | a finished segment counts one more chain and changes nothing else |
| Abilities.ChainTerminates | game.js:1273-1356 | whatever the target searches return, a chain is over after at most 4 searches |
| Abilities.ChainLength | game.js:1273-1356 | a chain runs at most 3 segments and leaves charges and cooldowns unchanged |
| Abilities.DashWithoutTargets | game.js:1211-1241 | with no target, a dash spends one charge and ends at once |
| Abilities.Refill | game.js:1244-1251 | at most one charge is restored per tick, and only after the refresh time, which then restarts; charges never exceed 3; a full dash is untouched |
| Abilities.Activate | game.js:1253-1269 | shield and time slow switch on exactly when their key is pressed, they are off and their cooldown has run out, and they then restart the cooldown; otherwise nothing changes |
| Abilities.EffectiveDelta | game.js:533-535 | under time slow the world runs at half the tick length, otherwise at the full length |
| Effects.Mitigation | game.js:1447-1453 | a shield lets through 0.2 of the damage and nothing else reduces it |
| Effects.Survivors | game.js:1507-1520 | a tick never adds DOT effects |
| Effects.DotLossIsSummedDamage | game.js:1507-1520 | charging the survivors one by one costs the tick length times their summed damage per second |
| Effects.SurvivorsHaveTimeLeft | game.js:1507-1520 | every effect kept after a tick still has time left |
| Effects.SurvivorsAppend | game.js:1507-1520 | removal keeps order: the survivors of two lists joined are the survivors of each, joined |
| Effects.DotDamageAppend | game.js:1498-1505 | stacked effects add their damage |
| Effects.AllExpire | game.js:1507-1520 | when every clock runs out this tick, every effect is removed |
| Effects.TickDots | game.js:1507-1520 | the reverse-index splice loop leaves exactly the survivors in order, and lowers health by exactly the survivors' damage for the tick (expired effects deal none) |
| Effects.NewHazard | game.js:1397-1431 | only spikes are permanent and attach no DOT; every hazard starts with its full time and deals positive damage |
| Effects.KeptHazards | game.js:1433-1444 | a tick never adds hazards |
| Effects.KeptHazardsLive | game.js:1433-1444 | every hazard kept is permanent or still has time left |
| Effects.KeptHazardsAppend | game.js:1433-1444 | hazard removal keeps order |
| Effects.PermanentHazardsStay | game.js:1437-1444 | a permanent hazard is never removed |
| Effects.DashingIsImmune | game.js:1446-1459 | a dashing player takes no hazard damage and gets no DOT |
| Effects.HazardDotsBounded | game.js:1455-1458 | at most one new DOT per hazard per tick, each lasting 3 seconds |
| Effects.Expose | game.js:1446-1459 | one kept hazard deals its damage for the tick (scaled by the shield) and adds its DOT, only when it overlaps a player who is not dashing |
| Effects.TickHazards | game.js:1433-1461 | the splice loop keeps exactly the permanent and still-timed hazards in order; expired ones deal no damage; health falls by the kept hazards' damage and their DOTs are appended |
| Effects.ShieldedSpikesExample | game.js:1433-1461 | one second on spikes behind a shield costs exactly 6 health and no DOT |
| Combat.Strike | game.js:1712-1740 | a hit costs the enemy the shot's damage, twice on a crit. A killed enemy is spliced out, and its points go to score and, via gainExperience, to experience; it counts toward tank-killer if a tank and toward speedster while dashing. Otherwise only that enemy's health changes |
| Combat.Hits | game.js:1710-1749 | the inner loop keeps the leveling fields consistent |
| Combat.ResolveShots | game.js:1696-1750 | the nested splice loops compute exactly the player-projectile pass |
| Combat.UsedUpIffHit | game.js:1743-1747 | a projectile is used up exactly when it is not penetrating and overlaps one of the enemies tested |
| Combat.MissChangesNothing | game.js:1710-1749 | a projectile that overlaps no enemy changes nothing |
| Combat.StrikeCredited | game.js:1727-1740 | a single hit keeps score and experience in step and only grows the counters |
| Combat.HitsCredited | game.js:1710-1749 | one projectile's hits keep score and experience in step |
| Combat.ShotsCredited | game.js:1696-1750 | over the pass, score, kill counts, level and skill points only grow, and speedster grows only while dashing. The enemy list only shrinks, and the score gained equals the experience gained (left plus the requirements crossed) |
| Combat.CreditedTrans | game.js:1727-1740 | credit composes across successive hits |
| Combat.CreditedRefl | game.js:1727-1740 | a pass with no hit credits nothing |
| Combat.ShotsStayInMap | game.js:1704-1707 | after the pass every projectile left is inside the map, and none was added |
| Combat.Stalk | game.js:1558-1587 | an enemy moves; a shooter whose cooldown has run out fires exactly one 12 × 12 shot with its damage at the aim and waits 2 s; any other positive cooldown runs down |
| Combat.Contact | game.js:1589-1611 | an enemy not touching the player changes nothing. A touching dashing player takes no damage and deals 200: an enemy left at zero or below is spliced out and scored as a kill, otherwise only its health drops. A touching non-dashing player loses the enemy's damage for the tick (scaled by the shield) and the game ends exactly when health reaches zero. Enemies after index k keep their order at the end of the list |
| Combat.Rampage | game.js:1554-1614 | the enemy pass keeps the streak counters non-negative |
| Combat.ResolveContacts | game.js:1554-1614 | the splice loop computes exactly the enemy pass |
| Combat.RampageFrame | game.js:1554-1614 | a dashing player takes no contact damage. A player who is not dashing removes no enemy and scores nothing. Enemy shots are only appended, at most one per enemy |
| Combat.RampageSpares | game.js:1554-1614 | the pass over the first i enemies removes at most i of them and leaves the rest untouched, in order, at the end of the list |
| Combat.RampageCountsKills | game.js:1589-1611 | every enemy removed is a kill at the tick's clock reading: the kill streak grows by at least the number removed (starting from the streak so far when it last scored at that reading), and with no removal the counters are untouched |
| Combat.GameOverIffHealthGone | game.js:1598-1609 | contact never heals; a running game with health left is over after the pass exactly when the health is gone |
| Combat.Struck | game.js:1765-1778 | a hit removes the shot, costs its damage (scaled by the shield), and ends the game exactly when health is gone |
| Combat.ResolveIncoming | game.js:1752-1777 | the splice loop computes exactly the enemy-projectile pass |
| Combat.DashDodgesShots | game.js:1765 | a dashing player is never hit by enemy projectiles |
| Combat.ShotsLeftMissPlayer | game.js:1752-1777 | afterwards every enemy projectile left is inside the map and, unless the player dashes, none touches the player |
| Game.ReloadStep | game.js:1867-1880 | a reload under way advances by the tick and, at 2 s, fills the magazine and ends; an incomplete one stays on; an empty magazine not reloading starts a reload at zero; otherwise nothing changes; ammo stays within 0..200 and an empty magazine is always reloading |
| Game.FullStaysFull | game.js:1867-1880 | with nothing fired, a full magazine stays full over any number of ticks |
| Game.ReloadCompletes | game.js:1867-1880 | a reload under way ends with a full magazine once the ticks add up to the remaining reload time |
| Game.EmptyMagazineRefills | game.js:1867-1880 | from an empty magazine, the first tick starts the reload and the magazine is full once the later ticks add up to 2 s |
| Game.RunDown | game.js:1845-1848 | a positive shot cooldown runs down by the tick; a spent one is left as it is |
| Game.WaveHazards | game.js:569-578 | a completed wave scatters exactly as many hazards as the new wave number, each built from the hazard table |
| Game.Nuked | game.js:506-519 | a nuke takes 100 health from every enemy and removes none |
| Game.NukeScoresTheDeadAgain | game.js:506-519 | since the dead stay in the list, a second nuke scores at least as much again |
| Game.Counted | game.js:1733-1738 | only the tank-killer and speedster progress values change |
| Game.Player.constructor | game.js:31-98 | the player starts at the map centre with full health and ammo, at level 1 with 100 to go, with full dash charges, no DOT, no reload and auto-shoot on |
| Game.Player.GainExperience | game.js:1155-1165 | the while loop leaves the leveling fields exactly as the leveling function says |
| Game.Player.UpgradeSkill | game.js:1167-1188 | the stats become exactly the upgrade function's result |
| Game.Player.Respawn | game.js:853-856 | back at the centre with full health and a full magazine; the invariant is kept |
| Game.Player.StartReload | game.js:361-367 | a reload starts from zero exactly when none is under way and the magazine is not full; otherwise nothing changes |
| Game.Player.ToggleAutoShoot | game.js:215-216 | the auto-shoot key switches automatic fire to the opposite setting |
| Game.Player.PointAt | game.js:289-302 | a mouse move turns the player to the angle towards the pointer |
| Game.Player.ExpireShield | game.js:1257-1259 | the shield switches off and keeps its cooldown |
| Game.Player.ExpireTimeSlow | game.js:1266-1268 | time slow switches off and keeps its cooldown |
| Game.Player.TakeHealthKit | game.js:469-475 | +50 health, never above max health and never lowering it |
| Game.Player.TakeAmmoKit | game.js:476-482 | the magazine is full |
| Game.Player.TakeSpeedBoost | game.js:483-493 | +100 speed bonus |
| Game.Player.EndSpeedBoost | game.js:488-490 | the boost's 100 is taken back |
| Game.Player.TakeWeaponUpgrade | game.js:494-505 | the next weapon in the one-entry table is the rifle again, with a full magazine |
| Game.Game.constructor | game.js:21-28 | the game starts running with score 0, wave 1, no enemies pending and the wave marked complete, empty lists and fresh achievements |
| Game.Game.Shoot | game.js:313-358 | with ammo: exactly one round is used, the cooldown restarts at 0.05 s, the one appended projectile is the rifle shot from the player at its angle, and the reload state is untouched. Without ammo: nothing is appended, the cooldown is kept, and a reload is under way afterwards, its progress kept if one already was and zero if it just started |
| Game.Game.Fire | game.js:1850-1865 | a shot is appended exactly when the automatic rule or the manual rule fires. The automatic shot (auto-shoot on, cooldown spent, no reload, ammo left, an enemy in range) turns the player to the aim and fires the rifle shot along it; otherwise a click under the same conditions fires along the current angle. Either uses one round and restarts the cooldown; with neither, the angle, ammo, cooldown and projectiles are unchanged. A tick fires at most once, because a shot restarts the cooldown |
| Game.Game.Reload | game.js:1867-1880 | the magazine fields become exactly the reload step: a reload under way advances and completes at 2 s with a full magazine; an empty magazine ends up reloading |
| Game.Game.Arm | game.js:1850-1880 | the firing rule on the state before the shot decides the angle, the one appended bullet or none, and the cooldown; the magazine then takes the reload step from the ammo the shot left |
| Game.Game.Move | game.js:1841-1848 | the position is held inside the map and the shot cooldown runs down while positive |
| Game.Game.Spawn | game.js:1882-1887 | an enemy is appended only while the wave is incomplete and below its count, and always then when the 0.95 draw succeeds |
| Game.Game.UpdatePlayer | game.js:1809-1901 | nothing happens once the game is over. Otherwise the player is clamped to the map; the cooldown runs down; the automatic or else the manual shot fires by the firing rule, on the run-down cooldown and the magazine before the tick, setting the angle, the appended bullet and the cooldown; the magazine then takes the reload step from the ammo left after that shot; and spawning obeys the wave guard |
| Game.Game.ShootEnemies | game.js:1696-1750 | the world after the player's projectiles is exactly the projectile pass; only the score and the two kill achievements change among the counters, and they change in credit |
| Game.Game.StoreLedger | game.js:1696-1750 | the pass result is written back and the invariant holds |
| Game.Game.TakeFire | game.js:1752-1777 | the world after the enemy projectiles is exactly the enemy-projectile pass |
| Game.Game.UpdateEnemies | game.js:1554-1614 | the world after the enemy update is exactly the enemy pass |
| Game.Game.StoreFray | game.js:1554-1614 | the enemy pass result is written back and the invariant holds |
| Game.Game.UpdateHazards | game.js:1433-1461 | hazards, health and the player's DOT list are exactly what the hazard tick leaves |
| Game.Game.UpdateCamera | game.js:262-270 | the camera is the clamped view centred on the player |
| Game.Game.UpdateDots | game.js:1507-1520 | the player's DOT list and health are exactly what the DOT tick leaves |
| Game.Game.CompleteWave | game.js:551-579 | the wave goes up by exactly one; survivor progress becomes the new wave; wave × 50 experience and one skill point are granted; one weapon power-up and exactly `wave` hazards are appended |
| Game.Game.Promote | game.js:556-557 | the wave's experience is gained and one extra skill point added |
| Game.Game.ScatterHazards | game.js:569-578 | the hazard loop appends exactly the wave's hazards |
| Game.Game.StartNewWave | game.js:880-883 | the wave is incomplete and has 120 + 40 × wave enemies to spawn |
| Game.Game.CheckAchievements | game.js:429-445 | every reached goal is unlocked, and skill points grow by two per new unlock |
| Game.Game.DecayTimers | game.js:586-606 | screen shake, combo and multikill decay as their functions say, and no other counter changes |
| Game.Game.PerformChainDash | game.js:1273-1356 | one target search updates the dash by the chain rule and shakes the screen by 4 only if the chain goes on |
| Game.Game.FinishChainSegment | game.js:1341-1344 | a finished segment counts one chain, the next search follows, and the screen shakes by 4 exactly when the chain goes on |
| Game.Game.HandleAbilities | game.js:1203-1270 | cooldowns run down, the dash starts and searches its first target only on the key with a charge left, one charge may refill, the shield and time slow activate by their rule, and the screen shakes by 4 exactly when a dash starts and its first search finds a target |
| Game.Game.GameOver | game.js:843-849 | the game stops running |
| Game.Game.ResetGame | game.js:852-872 | the player is back at the centre with full health and ammo; the lists are emptied; score 0, wave 1, wave complete with none pending, and running. Hazards, level, skills and the other counters are kept |
| Game.Game.Nuke | game.js:506-519 | every enemy loses 100 health and stays in the list; the score gains the points of each one left at zero or below; the screen shakes by 10 (capped) |
| Game.Game.Fight | game.js:538-540 | the player, projectile and enemy updates keep the world invariant |
| Game.Game.Surroundings | game.js:542-547 | the hazard, camera and DOT updates keep the world invariant |
| Game.Game.Play | game.js:530-547 | abilities on the real tick, then the world on the time-scaled tick, keep the world invariant |
| Game.Game.EndWave | game.js:549-581 | the wave changes only when no enemy is alive and none is pending. An incomplete wave is then rewarded once: survivor progress becomes the new wave, wave × 50 experience and one skill point, one weapon power-up and `wave` hazards; otherwise leveling, power-ups, hazards and achievements are unchanged. The next wave always starts with 120 + 40 × wave pending. From a state where a wave with none pending is complete, the wave number never changes again |
| Game.Game.Recover | game.js:583-606 | the achievement check and the timer decay keep the world invariant |
| Game.Game.Tick | game.js:527-607 | a finished game does not change at all. A running one keeps the invariant, ends with enemies pending or alive, and never gains a wave once the guard holds |

## Left out

- Rendering, audio, the DOM and input listeners are I/O. This covers the draw functions, the audio object, the game-over and reset DOM updates, and `gameLoop`/`requestAnimationFrame`. Key and mouse state arrive as `Input` fields.
- Timer-driven code is not modelled as timers. The shield and time-slow `setTimeout` deactivations are the explicit methods `ExpireShield` and `ExpireTimeSlow`. The speed boost's timed reversal is `EndSpeedBoost`. The end of a dash segment is `FinishChainSegment`.
- The dash animation is left out: the player's interpolated movement and the radius damage it deals to nearby enemies depend on the wall clock and on distances.
- Movement and geometry are oracles: diagonal normalisation, enemy pursuit, projectile motion, spawn placement, and the target scoring in `findNearestEnemy` and `findNextChainTarget`. Their results are `Input` fields. The automatic aim is the angle to the nearest enemy within auto-shoot range, and `None` when no enemy is in range; the mouse angle is the `atan2` result that `PointAt` receives from the mouse-move handler, which runs between ticks.
- Particles and floating text are purely visual.
- Chemical clouds, the black-hole ability, lightning and `handleEnemyDeath` are not modelled. The update loop never calls them.
- Enemies never receive DOT effects, so the per-enemy DOT update does nothing; only the player's DOT list is modelled.
- Numbers are exact reals and integers, not IEEE doubles; rounding and NaN are not modelled.
- The threshold table is computed exactly rather than through `Math.pow`. This matters only if the double-precision floor ever differs from the exact one.
- The collision test follows the code: a zero-size box strictly inside another box collides with it (`ZeroWidthInsideCollides`).
- The weapon table has one entry, the rifle. The random weapon drop and the weapon upgrade therefore always yield the rifle.
- Power-ups are created but never collected by any code in the file. Their effects are methods (`TakeHealthKit`, `TakeAmmoKit`, `TakeSpeedBoost`, `TakeWeaponUpgrade`, `Nuke`) that no tick calls.
- The score, high score, last kill time, kill streak and multikill counters are grouped into one `kills` record.
- Box sizes are model inputs: the enemy box the collision test reads is the `width`/`height` stored on the enemy. Rendering may overwrite those fields, which is not modelled.
- Game.Game.Tick: requires a non-negative tick length, since frame timestamps never decrease.
- Game.Game.DecayTimers: requires a non-negative tick length, for the same reason.
- Game.Game.Fight: states only that the world invariant is kept; the per-step results are stated on `UpdatePlayer`, `ShootEnemies`, `TakeFire` and `UpdateEnemies`.
- Game.Game.Surroundings: states only that the world invariant is kept; the results are stated on `UpdateHazards`, `UpdateCamera` and `UpdateDots`.
- Game.Game.Play: states only that the world invariant is kept; the results are stated on `HandleAbilities`, `EffectiveDelta` and the steps of `Fight` and `Surroundings`.
- Game.Game.Recover: states only that the world invariant is kept; the results are stated on `CheckAchievements` and `DecayTimers`.
- Game.Game.Tick: does not restate the per-step results, which are on the methods it calls.
