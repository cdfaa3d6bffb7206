/** The mutable world of the game: the player record and the module-level
    game state, with the per-tick update as methods that change them in
    place. Every random draw, every direction computed with square roots or
    trigonometry and the wall clock reach these methods as parameters. */
module Game {
  import opened Geometry
  import opened Leveling
  import opened Effects
  import opened Entities
  import opened Scoring
  import opened Abilities
  import opened Combat

  /** Edge length of the player's box. */
  const PLAYER_SIZE: real := 30.0
  const RELOAD_TIME: real := 2.0
  const HEALTH_KIT: real := 50.0
  const SPEED_BOOST: real := 100.0

  // ------------------------------------------------------- the magazine

  /** The player's magazine: rounds left, and the reload under way. */
  datatype Magazine = Magazine(ammo: int, reloading: bool, progress: real)

  const FullMagazine: Magazine := Magazine(AMMO_CAPACITY, false, 0.0)

  /** The reload section of updatePlayer: a reload under way advances by the
      tick and, once it reaches the reload time, fills the magazine; then an
      empty magazine starts a reload. */
  function ReloadStep(g: Magazine, dt: real): (r: Magazine)
    ensures 0 <= g.ammo <= AMMO_CAPACITY ==> 0 <= r.ammo <= AMMO_CAPACITY
    ensures r.ammo <= 0 ==> r.reloading
    ensures g.reloading && g.progress + dt >= RELOAD_TIME ==> r == FullMagazine
    ensures g.reloading && g.progress + dt < RELOAD_TIME ==> r == g.(progress := g.progress + dt)
    ensures !g.reloading && g.ammo <= 0 ==> r == g.(reloading := true, progress := 0.0)
    ensures !g.reloading && g.ammo > 0 ==> r == g
  {
    var s := if g.reloading then
        (if g.progress + dt >= RELOAD_TIME then FullMagazine else g.(progress := g.progress + dt))
      else g;
    if s.ammo <= 0 && !s.reloading then s.(reloading := true, progress := 0.0) else s
  }

  /** Reload steps over successive ticks with no shot fired. */
  function ReloadRun(g: Magazine, dts: seq<real>): Magazine
    decreases |dts|
  {
    if dts == [] then g else ReloadRun(ReloadStep(g, dts[0]), dts[1..])
  }

  function Sum(dts: seq<real>): real
    decreases |dts|
  {
    if dts == [] then 0.0 else dts[0] + Sum(dts[1..])
  }

  /** A full magazine stays full while nothing is fired. */
  lemma {:induction false} FullStaysFull(dts: seq<real>)
    ensures ReloadRun(FullMagazine, dts) == FullMagazine
    decreases |dts|
  {
    if dts != [] {
      FullStaysFull(dts[1..]);
    }
  }

  /** A reload under way completes, and the magazine is full, once the ticks
      add up to the reload time. */
  lemma {:induction false} ReloadCompletes(g: Magazine, dts: seq<real>)
    requires g.reloading && g.progress < RELOAD_TIME && g.progress + Sum(dts) >= RELOAD_TIME
    ensures ReloadRun(g, dts) == FullMagazine
    decreases |dts|
  {
    var s := ReloadStep(g, dts[0]);
    if g.progress + dts[0] >= RELOAD_TIME {
      FullStaysFull(dts[1..]);
    } else {
      ReloadCompletes(s, dts[1..]);
    }
  }

  /** From an empty magazine: the first tick starts the reload, and the
      magazine is full once the following ticks add up to the reload time. */
  lemma EmptyMagazineRefills(g: Magazine, dts: seq<real>)
    requires g.ammo <= 0 && !g.reloading && |dts| >= 1 && Sum(dts[1..]) >= RELOAD_TIME
    ensures ReloadRun(g, dts) == FullMagazine
  {
    ReloadCompletes(ReloadStep(g, dts[0]), dts[1..]);
  }

  /** A timer that runs down while positive (the shot cooldown). */
  function RunDown(t: real, dt: real): (r: real)
    ensures t > 0.0 ==> r == t - dt
    ensures t <= 0.0 ==> r == t
  {
    if t > 0.0 then t - dt else t
  }

  /** A shot can go off: the cooldown has run out, no reload is under way
      and the magazine holds a round. */
  predicate Ready(cooldown: real, g: Magazine)
  {
    cooldown <= 0.0 && !g.reloading && g.ammo > 0
  }

  /** The automatic shot of a tick: auto-shoot is on and an enemy is in range. */
  predicate AutoShot(cooldown: real, g: Magazine, autoShoot: bool, input: Input)
  {
    autoShoot && Ready(cooldown, g) && input.aim.Some?
  }

  /** The manual shot of a tick: a click while ready, when no automatic shot
      went off first (a shot restarts the cooldown). */
  predicate ManualShot(cooldown: real, g: Magazine, autoShoot: bool, input: Input)
  {
    input.clicked && Ready(cooldown, g) && !AutoShot(cooldown, g, autoShoot, input)
  }

  /** The player record. Sizes, base speed and the reload time are fixed. */
  class Player {
    var x: real
    var y: real
    var health: real
    var maxHealth: real
    var angle: real
    var weapon: string
    var ammo: int
    var shootCooldown: real
    var isReloading: bool
    var reloadProgress: real
    var level: int
    var experience: int
    var toNext: Option<nat>
    var skillPoints: int
    var dash: Dash
    var shield: Timed
    var timeSlow: Timed
    var maxHealthBonus: real
    var speedBonus: real
    var damageBonus: real
    var criticalChance: real
    var dots: seq<Dot>
    /** Whether the player fires at the nearest enemy in range by itself. */
    var autoShoot: bool

    predicate Valid()
      reads this`level, this`experience, this`toNext, this`skillPoints, this`ammo, this`weapon,
            this`dash, this`shield, this`timeSlow
    {
      Consistent(Prog()) && skillPoints >= 0 && 0 <= ammo <= AMMO_CAPACITY && weapon == RIFLE &&
      DashValid(dash) && shield.currentCooldown >= 0.0 && timeSlow.currentCooldown >= 0.0
    }

    /** The leveling fields. */
    function Prog(): Progress
      reads this`level, this`experience, this`toNext, this`skillPoints
    {
      Progress(level, experience, toNext, skillPoints)
    }

    /** The fields an upgrade touches. */
    function Stats(): Build
      reads this`skillPoints, this`maxHealthBonus, this`maxHealth, this`health, this`speedBonus,
            this`damageBonus, this`criticalChance
    {
      Build(skillPoints, maxHealthBonus, maxHealth, health, speedBonus, damageBonus, criticalChance)
    }

    function Box(): Geometry.Box
      reads this`x, this`y
    {
      Geometry.Box(x, y, PLAYER_SIZE, PLAYER_SIZE)
    }

    /** The magazine fields. */
    function Mag(): Magazine
      reads this`ammo, this`isReloading, this`reloadProgress
    {
      Magazine(ammo, isReloading, reloadProgress)
    }

    /** The initial player: centre of the map, full health and ammo, level 1. */
    constructor()
      ensures Valid()
      ensures x == MAP_WIDTH / 2.0 && y == MAP_HEIGHT / 2.0
      ensures health == maxHealth == BASE_MAX_HEALTH && ammo == AMMO_CAPACITY
      ensures Prog() == Start && dash == InitialDash && shield == InitialTimed && timeSlow == InitialTimed
      ensures !isReloading && shootCooldown == 0.0 && dots == [] && autoShoot
      ensures Stats() == Build(0, 0.0, BASE_MAX_HEALTH, BASE_MAX_HEALTH, 0.0, 0.0, 0.0)
    {
      x, y := MAP_WIDTH / 2.0, MAP_HEIGHT / 2.0;
      health, maxHealth := BASE_MAX_HEALTH, BASE_MAX_HEALTH;
      angle := 0.0;
      weapon := RIFLE;
      ammo := AMMO_CAPACITY;
      shootCooldown := 0.0;
      isReloading, reloadProgress := false, 0.0;
      level, experience, toNext, skillPoints := 1, 0, Some(100), 0;
      dash, shield, timeSlow := InitialDash, InitialTimed, InitialTimed;
      maxHealthBonus, speedBonus, damageBonus, criticalChance := 0.0, 0.0, 0.0, 0.0;
      dots := [];
      autoShoot := true;
      new;
      FirstThresholds();
    }

    /** gainExperience: the level-up loop. */
    method GainExperience(amount: int)
      requires Consistent(Prog())
      modifies this`experience, this`level, this`toNext, this`skillPoints
      ensures Prog() == Leveling.GainExperience(old(Prog()), amount)
    {
      experience := experience + amount;
      while toNext.Some? && experience >= toNext.value
        invariant Consistent(Prog())
        invariant Settle(Prog()) == Leveling.GainExperience(old(Prog()), amount)
        decreases LEVEL_COUNT + 1 - level
      {
        ghost var p := Prog();
        experience := experience - toNext.value;
        level := level + 1;
        skillPoints := skillPoints + POINTS_PER_LEVEL;
        toNext := ThresholdAt(level - 1);
        assert Prog() == LevelUp(p);
      }
    }

    /** upgradeSkill. */
    method UpgradeSkill(s: Skill)
      modifies this`skillPoints, this`maxHealthBonus, this`maxHealth, this`health,
               this`speedBonus, this`damageBonus, this`criticalChance
      ensures Stats() == Upgrade(old(Stats()), s)
    {
      var cost := Cost(s);
      if cost.Some? && skillPoints >= cost.value {
        skillPoints := skillPoints - cost.value;
        match s
        case MaxHealth =>
          maxHealthBonus := maxHealthBonus + 20.0;
          maxHealth := BASE_MAX_HEALTH + maxHealthBonus;
          health := Min(health + 20.0, maxHealth);
        case Speed =>
          speedBonus := speedBonus + 20.0;
        case Damage =>
          damageBonus := damageBonus + 5.0;
        case CriticalChance =>
          criticalChance := criticalChance + 0.05;
      }
    }

    /** The player part of resetGame: back to the centre with full health
        and a full magazine. */
    method Respawn()
      requires Valid()
      modifies this`x, this`y, this`health, this`ammo
      ensures Valid()
      ensures x == MAP_WIDTH / 2.0 && y == MAP_HEIGHT / 2.0
      ensures health == maxHealth && ammo == AMMO_CAPACITY
    {
      x, y := MAP_WIDTH / 2.0, MAP_HEIGHT / 2.0;
      health := maxHealth;
      ammo := AMMO_CAPACITY;
    }

    /** startReload: only when not already reloading and the magazine is not full. */
    method StartReload()
      modifies this`isReloading, this`reloadProgress
      ensures old(!isReloading && ammo < AMMO_CAPACITY) ==> isReloading && reloadProgress == 0.0
      ensures !old(!isReloading && ammo < AMMO_CAPACITY) ==> isReloading == old(isReloading) && reloadProgress == old(reloadProgress)
    {
      if !isReloading && ammo < AMMO_CAPACITY {
        isReloading := true;
        reloadProgress := 0.0;
      }
    }

    /** The auto-shoot key: switches automatic fire on or off. */
    method ToggleAutoShoot()
      modifies this`autoShoot
      ensures autoShoot == !old(autoShoot)
    {
      autoShoot := !autoShoot;
    }

    /** A mouse move: the player faces the pointer; `direction` is the angle
        from the player to the pointer. */
    method PointAt(direction: real)
      modifies this`angle
      ensures angle == direction
    {
      angle := direction;
    }

    /** The end of the shield's duration, which the game schedules with a timer. */
    method ExpireShield()
      modifies this`shield
      ensures shield == old(shield).(isActive := false)
    {
      shield := shield.(isActive := false);
    }

    /** The end of time slow's duration. */
    method ExpireTimeSlow()
      modifies this`timeSlow
      ensures timeSlow == old(timeSlow).(isActive := false)
    {
      timeSlow := timeSlow.(isActive := false);
    }

    /** Health power-up: fifty health, never above the maximum. */
    method TakeHealthKit()
      modifies this`health
      ensures health == Min(maxHealth, old(health) + HEALTH_KIT)
      ensures old(health) <= maxHealth ==> old(health) <= health <= maxHealth
    {
      health := Min(maxHealth, health + HEALTH_KIT);
    }

    /** Ammo power-up: a full magazine. */
    method TakeAmmoKit()
      modifies this`ammo
      ensures ammo == AMMO_CAPACITY
    {
      ammo := AMMO_CAPACITY;
    }

    /** Speed power-up; its timed reversal is EndSpeedBoost. */
    method TakeSpeedBoost()
      modifies this`speedBonus
      ensures speedBonus == old(speedBonus) + SPEED_BOOST
    {
      speedBonus := speedBonus + SPEED_BOOST;
    }

    method EndSpeedBoost()
      modifies this`speedBonus
      ensures speedBonus == old(speedBonus) - SPEED_BOOST
    {
      speedBonus := speedBonus - SPEED_BOOST;
    }

    /** Weapon upgrade: the next weapon in the table, which with a single
        weapon is the rifle again, with a full magazine. */
    method TakeWeaponUpgrade()
      modifies this`weapon, this`ammo
      ensures weapon == RIFLE && ammo == AMMO_CAPACITY
    {
      weapon := RIFLE;
      ammo := AMMO_CAPACITY;
    }
  }

  // ------------------------------------------------------------- the world

  const SPAWN_CHANCE: real := 0.95
  const WAVE_BASE: int := 120
  const WAVE_STEP: int := 40
  /** Experience per wave number granted when a wave is completed. */
  const WAVE_XP: int := 50
  const NUKE_DAMAGE: real := 100.0
  const NUKE_SHAKE: real := 10.0
  const CHAIN_SHAKE: real := 4.0

  /** One frame's input: key and mouse state, the clock, and the result of
      every random draw and every direction or position computed with
      square roots or trigonometry. */
  datatype Input = Input(
    space: bool, q: bool, e: bool, clicked: bool,
    dashDirection: Point, chainTarget: Option<Point>,
    moveTo: Point, aim: Option<real>, autoRoll: real, manualRoll: real,
    spawnDraw: real, spawnKind: SpawnRoll, spawnAt: Point,
    projectileMoves: nat -> Point, critRolls: (nat, nat) -> real, shotMoves: nat -> Point,
    enemyMoves: nat -> Point, enemyAims: nat -> real, now: real,
    dropAt: Point, hazardKinds: nat -> HazardKind, hazardSpots: nat -> Point)

  /** The hazards a completed wave scatters, one per wave number. */
  function WaveHazards(n: nat, kinds: nat -> HazardKind, spots: nat -> Point): (r: seq<Hazard>)
    ensures |r| == n
    ensures forall i :: 0 <= i < n ==> r[i] == NewHazard(kinds(i), spots(i).x, spots(i).y)
  {
    seq(n, i requires 0 <= i < n => NewHazard(kinds(i), spots(i).x, spots(i).y))
  }

  /** Every enemy after a nuke: a hundred health less, dead or not. */
  function Nuked(s: seq<Enemy>): (r: seq<Enemy>)
    ensures |r| == |s|
    ensures forall k :: 0 <= k < |s| ==> r[k] == s[k].(health := s[k].health - NUKE_DAMAGE)
  {
    seq(|s|, k requires 0 <= k < |s| => s[k].(health := s[k].health - NUKE_DAMAGE))
  }

  /** Points a nuke scores: those of every enemy it leaves at zero health or below. */
  function NukePoints(s: seq<Enemy>): nat
  {
    if s == [] then 0
    else NukePoints(s[..|s| - 1]) + (if s[|s| - 1].health - NUKE_DAMAGE <= 0.0 then s[|s| - 1].points else 0)
  }

  /** A nuke leaves its victims in the list, so a second nuke scores every
      one of them again (and possibly more). */
  lemma {:induction false} NukeScoresTheDeadAgain(s: seq<Enemy>)
    ensures NukePoints(Nuked(s)) >= NukePoints(s)
  {
    if s != [] {
      var init := s[..|s| - 1];
      assert Nuked(s)[..|s| - 1] == Nuked(init);
      NukeScoresTheDeadAgain(init);
    }
  }

  /** The achievement list with new tank-killer and speedster progress. */
  function Counted(a: seq<Achievement>, tankKills: int, dashKills: int): (r: seq<Achievement>)
    requires |a| == ACHIEVEMENT_COUNT
    ensures |r| == ACHIEVEMENT_COUNT
    ensures forall k :: 0 <= k < ACHIEVEMENT_COUNT ==> r[k].goal == a[k].goal && r[k].unlocked == a[k].unlocked
    ensures forall k :: 0 <= k < ACHIEVEMENT_COUNT && k != TANK_KILLER && k != SPEEDSTER ==> r[k] == a[k]
    ensures r[TANK_KILLER].progress == tankKills && r[SPEEDSTER].progress == dashKills
  {
    a[TANK_KILLER := a[TANK_KILLER].(progress := tankKills)][SPEEDSTER := a[SPEEDSTER].(progress := dashKills)]
  }

  /** The game: the module-level state of the program, with the player record. */
  class Game {
    const player: Player
    var running: bool
    /** The score, the high score and the kill-streak counters. */
    var kills: Streak
    var wave: int
    var enemiesInWave: int
    var waveCompleted: bool
    var combo: int
    var comboTimer: real
    var screenShake: real
    var enemies: seq<Enemy>
    var projectiles: seq<Projectile>
    var powerUps: seq<PowerUp>
    var enemyShots: seq<EnemyShot>
    var hazards: seq<Hazard>
    var camera: Camera
    var achievements: seq<Achievement>

    predicate Valid()
      reads this`wave, this`enemiesInWave, this`kills, this`screenShake,
            this`achievements, player`level, player`experience, player`toNext, player`skillPoints,
            player`ammo, player`weapon, player`dash, player`shield, player`timeSlow
    {
      player.Valid() && wave >= 1 && enemiesInWave >= 0 && StreakOk(kills) &&
      0.0 <= screenShake <= MAX_SHAKE && |achievements| == ACHIEVEMENT_COUNT
    }

    /** A wave with no enemies left to spawn is a completed wave. */
    predicate WaveGuard()
      reads this`enemiesInWave, this`waveCompleted
    {
      enemiesInWave == 0 ==> waveCompleted
    }

    /** The state the program starts from. */
    constructor()
      ensures Valid() && WaveGuard() && fresh(player)
      ensures running && kills == Streak(0, 0, 0.0, 0, 0, 0.0) && wave == 1 && enemiesInWave == 0 && waveCompleted
      ensures enemies == [] && projectiles == [] && powerUps == [] && enemyShots == [] && hazards == []
      ensures achievements == InitialAchievements && screenShake == 0.0
    {
      player := new Player();
      running := true;
      kills := Streak(0, 0, 0.0, 0, 0, 0.0);
      wave, enemiesInWave, waveCompleted := 1, 0, true;
      combo, comboTimer, screenShake := 0, 0.0, 0.0;
      enemies, projectiles, powerUps, enemyShots, hazards := [], [], [], [], [];
      camera := Camera(0.0, 0.0);
      achievements := InitialAchievements;
    }

    /** shoot: one rifle shot, or a reload when the magazine is empty. */
    method Shoot(roll: real)
      requires Valid()
      modifies player`ammo, player`shootCooldown, player`isReloading, player`reloadProgress, this`projectiles
      ensures Valid()
      ensures old(player.ammo) <= 0 ==>
        projectiles == old(projectiles) && player.ammo == old(player.ammo) &&
        player.shootCooldown == old(player.shootCooldown) &&
        (old(player.isReloading) || (player.isReloading && player.reloadProgress == 0.0))
      ensures old(player.ammo) <= 0 ==>
        player.isReloading &&
        player.reloadProgress == if old(player.isReloading) then old(player.reloadProgress) else 0.0
      ensures old(player.ammo) > 0 ==>
        player.ammo == old(player.ammo) - 1 && player.shootCooldown == FIRE_RATE &&
        projectiles == old(projectiles) + [Bullet(player.x, player.y, player.angle, roll, player.damageBonus)] &&
        player.isReloading == old(player.isReloading) && player.reloadProgress == old(player.reloadProgress)
    {
      if player.ammo <= 0 {
        player.StartReload();
        return;
      }
      player.ammo := player.ammo - 1;
      player.shootCooldown := FIRE_RATE;
      projectiles := projectiles + [Bullet(player.x, player.y, player.angle, roll, player.damageBonus)];
    }

    /** The firing section of updatePlayer: an automatic shot at the nearest
        enemy in range (the aim is None when there is none), then a manual
        shot; each needs the cooldown run out, no reload under way and ammo. */
    method Fire(input: Input)
      requires Valid()
      modifies player`angle, player`ammo, player`shootCooldown, player`isReloading, player`reloadProgress,
               this`projectiles
      ensures Valid()
      ensures |old(projectiles)| <= |projectiles| <= |old(projectiles)| + 1
      ensures projectiles[..|old(projectiles)|] == old(projectiles)
      ensures |projectiles| > |old(projectiles)| ==>
        old(Ready(player.shootCooldown, player.Mag())) && (input.aim.Some? || input.clicked) &&
        player.ammo == old(player.ammo) - 1 && player.shootCooldown == FIRE_RATE
      ensures |projectiles| == |old(projectiles)| ==>
        player.ammo == old(player.ammo) && player.shootCooldown == old(player.shootCooldown)
      ensures |projectiles| > |old(projectiles)| <==>
        old(AutoShot(player.shootCooldown, player.Mag(), player.autoShoot, input) ||
            ManualShot(player.shootCooldown, player.Mag(), player.autoShoot, input))
      ensures old(AutoShot(player.shootCooldown, player.Mag(), player.autoShoot, input)) ==>
        player.angle == input.aim.value &&
        projectiles == old(projectiles) + [Bullet(player.x, player.y, input.aim.value, input.autoRoll, player.damageBonus)]
      ensures old(ManualShot(player.shootCooldown, player.Mag(), player.autoShoot, input)) ==>
        player.angle == old(player.angle) &&
        projectiles == old(projectiles) + [Bullet(player.x, player.y, player.angle, input.manualRoll, player.damageBonus)]
      ensures !old(AutoShot(player.shootCooldown, player.Mag(), player.autoShoot, input)) ==>
        player.angle == old(player.angle)
      ensures player.isReloading == old(player.isReloading) && player.reloadProgress == old(player.reloadProgress)
    {
      if player.autoShoot && Ready(player.shootCooldown, player.Mag()) && input.aim.Some? {
        player.angle := input.aim.value;
        Shoot(input.autoRoll);
      }
      if input.clicked && Ready(player.shootCooldown, player.Mag()) {
        Shoot(input.manualRoll);
      }
    }

    /** The reload section of updatePlayer: progress toward a full magazine,
        then a reload started whenever the magazine is empty. */
    method Reload(dt: real)
      requires Valid()
      modifies player`ammo, player`isReloading, player`reloadProgress
      ensures Valid()
      ensures player.Mag() == ReloadStep(old(player.Mag()), dt)
      ensures old(player.isReloading) && old(player.reloadProgress) + dt < RELOAD_TIME ==>
        player.isReloading && player.reloadProgress == old(player.reloadProgress) + dt
      ensures !old(player.isReloading) && old(player.ammo) > 0 ==>
        !player.isReloading && player.reloadProgress == old(player.reloadProgress)
      ensures old(player.isReloading) && old(player.reloadProgress) + dt >= RELOAD_TIME ==>
        player.ammo == AMMO_CAPACITY && !player.isReloading && player.reloadProgress == 0.0
      ensures !(old(player.isReloading) && old(player.reloadProgress) + dt >= RELOAD_TIME) ==> player.ammo == old(player.ammo)
      ensures player.ammo <= 0 ==> player.isReloading
    {
      if player.isReloading {
        player.reloadProgress := player.reloadProgress + dt;
        if player.reloadProgress >= RELOAD_TIME {
          player.ammo := AMMO_CAPACITY;
          player.isReloading := false;
          player.reloadProgress := 0.0;
        }
      }
      if player.ammo <= 0 && !player.isReloading {
        player.StartReload();
      }
    }

    /** The firing and reloading sections of updatePlayer, in that order:
        the firing rule on the state before the tick's shot, then the reload
        step on the magazine the shot left. */
    method Arm(dt: real, input: Input)
      requires Valid()
      modifies player`angle, player`ammo, player`shootCooldown, player`isReloading, player`reloadProgress,
               this`projectiles
      ensures Valid()
      ensures var auto := old(AutoShot(player.shootCooldown, player.Mag(), player.autoShoot, input));
        var shot := auto || old(ManualShot(player.shootCooldown, player.Mag(), player.autoShoot, input));
        player.angle == (if auto then input.aim.value else old(player.angle)) &&
        projectiles == old(projectiles) +
          (if shot then [Bullet(player.x, player.y, player.angle, if auto then input.autoRoll else input.manualRoll,
                                player.damageBonus)]
           else []) &&
        player.shootCooldown == (if shot then FIRE_RATE else old(player.shootCooldown)) &&
        player.Mag() == ReloadStep(old(player.Mag()).(ammo := old(player.ammo) - if shot then 1 else 0), dt)
    {
      ghost var shot := AutoShot(player.shootCooldown, player.Mag(), player.autoShoot, input) ||
                        ManualShot(player.shootCooldown, player.Mag(), player.autoShoot, input);
      Fire(input);
      assert player.Mag() == old(player.Mag()).(ammo := old(player.ammo) - if shot then 1 else 0);
      Reload(dt);
    }

    /** updatePlayer: movement held inside the map, cooldown, firing,
        reloading, and spawning while the wave lasts. */
    method UpdatePlayer(dt: real, input: Input)
      requires Valid()
      modifies player`x, player`y, player`angle, player`ammo, player`shootCooldown,
               player`isReloading, player`reloadProgress, this`projectiles, this`enemies
      ensures Valid()
      ensures !running ==> unchanged(player) && projectiles == old(projectiles) && enemies == old(enemies)
      ensures running ==> player.x == Clamp(input.moveTo.x, PLAYER_SIZE / 2.0, MAP_WIDTH - PLAYER_SIZE / 2.0) &&
                          player.y == Clamp(input.moveTo.y, PLAYER_SIZE / 2.0, MAP_HEIGHT - PLAYER_SIZE / 2.0)
      ensures |old(projectiles)| <= |projectiles| <= |old(projectiles)| + 1
      ensures projectiles[..|old(projectiles)|] == old(projectiles)
      ensures |projectiles| > |old(projectiles)| ==> player.ammo == old(player.ammo) - 1
      ensures running ==>
        var cd := RunDown(old(player.shootCooldown), dt);
        var auto := AutoShot(cd, old(player.Mag()), player.autoShoot, input);
        var shot := auto || ManualShot(cd, old(player.Mag()), player.autoShoot, input);
        player.angle == (if auto then input.aim.value else old(player.angle)) &&
        projectiles == old(projectiles) +
          (if shot then [Bullet(player.x, player.y, player.angle, if auto then input.autoRoll else input.manualRoll,
                                player.damageBonus)]
           else []) &&
        player.shootCooldown == (if shot then FIRE_RATE else cd) &&
        player.Mag() == ReloadStep(old(player.Mag()).(ammo := old(player.ammo) - if shot then 1 else 0), dt)
      ensures enemies == old(enemies) ||
        (running && !waveCompleted && |old(enemies)| < enemiesInWave && input.spawnDraw < SPAWN_CHANCE &&
         enemies == old(enemies) + [Spawned(input.spawnKind, input.spawnAt.x, input.spawnAt.y)])
      ensures running && old(player.isReloading) && old(player.reloadProgress) + dt >= RELOAD_TIME ==>
        player.ammo == AMMO_CAPACITY && !player.isReloading && player.reloadProgress == 0.0
      ensures running && player.ammo <= 0 ==> player.isReloading
    {
      if !running {
        return;
      }
      Move(dt, input.moveTo);
      Arm(dt, input);
      Spawn(input);
    }

    /** The movement section of updatePlayer: the moved position held half a
        player inside the map, and the shot cooldown running down. */
    method Move(dt: real, moveTo: Point)
      modifies player`x, player`y, player`shootCooldown
      ensures player.x == Clamp(moveTo.x, PLAYER_SIZE / 2.0, MAP_WIDTH - PLAYER_SIZE / 2.0)
      ensures player.y == Clamp(moveTo.y, PLAYER_SIZE / 2.0, MAP_HEIGHT - PLAYER_SIZE / 2.0)
      ensures player.shootCooldown == RunDown(old(player.shootCooldown), dt)
    {
      var at := ClampToMap(moveTo, PLAYER_SIZE, PLAYER_SIZE);
      player.x, player.y := at.x, at.y;
      if player.shootCooldown > 0.0 {
        player.shootCooldown := player.shootCooldown - dt;
      }
    }

    /** The spawn section of updatePlayer: while the wave is incomplete and
        below its enemy count, a new enemy appears with probability 0.95. */
    method Spawn(input: Input)
      modifies this`enemies
      ensures enemies == old(enemies) ||
        (!waveCompleted && |old(enemies)| < enemiesInWave && input.spawnDraw < SPAWN_CHANCE &&
         enemies == old(enemies) + [Spawned(input.spawnKind, input.spawnAt.x, input.spawnAt.y)])
      ensures !waveCompleted && |old(enemies)| < enemiesInWave && input.spawnDraw < SPAWN_CHANCE ==> enemies != old(enemies)
    {
      if !waveCompleted && |enemies| < enemiesInWave {
        if input.spawnDraw < SPAWN_CHANCE {
          enemies := enemies + [Spawned(input.spawnKind, input.spawnAt.x, input.spawnAt.y)];
        }
      }
    }

    /** The tally the player's projectiles start from. */
    function Ledger(): Tally
      reads this`enemies, this`kills, this`achievements, player`level, player`experience, player`toNext,
            player`skillPoints
      requires |achievements| == ACHIEVEMENT_COUNT
    {
      Tally(enemies, kills.score, player.Prog(), achievements[TANK_KILLER].progress, achievements[SPEEDSTER].progress)
    }

    /** The first half of updateProjectiles: the player's projectiles move and
        strike the enemies; kills feed the score, the experience and the
        tank-killer and speedster achievements. */
    method ShootEnemies(input: Input)
      requires Valid()
      modifies this`projectiles, this`enemies, this`kills, this`achievements,
               player`level, player`experience, player`toNext, player`skillPoints
      ensures Valid()
      ensures (projectiles, Ledger()) == Shots(|old(projectiles)|, old(projectiles), old(Ledger()), old(Salvo(input)))
      ensures kills == old(kills).(score := kills.score)
      ensures achievements == Counted(old(achievements), achievements[TANK_KILLER].progress, achievements[SPEEDSTER].progress)
      ensures Credited(old(Ledger()), Ledger(), player.dash.isActive)
    {
      var ps, r := ResolveShots(projectiles, Ledger(), Salvo(input));
      ShotsCredited(|projectiles|, projectiles, Ledger(), Salvo(input));
      StoreLedger(ps, r);
    }

    /** What the player's projectiles need to know about the frame and the player. */
    function Salvo(input: Input): Volley
      reads player`criticalChance, player`dash
    {
      Volley(input.projectileMoves, input.critRolls, player.criticalChance, player.dash.isActive)
    }

    /** Writes the projectile pass's result back. */
    method StoreLedger(ps: seq<Projectile>, r: Tally)
      requires Valid() && Consistent(r.progress) && r.progress.skillPoints >= 0
      modifies this`projectiles, this`enemies, this`kills, this`achievements,
               player`level, player`experience, player`toNext, player`skillPoints
      ensures Valid()
      ensures projectiles == ps && Ledger() == r
      ensures kills == old(kills).(score := r.score)
      ensures achievements == Counted(old(achievements), r.tankKills, r.dashKills)
    {
      projectiles, enemies := ps, r.enemies;
      kills := kills.(score := r.score);
      player.level, player.experience, player.toNext, player.skillPoints :=
        r.progress.level, r.progress.experience, r.progress.toNext, r.progress.skillPoints;
      achievements := Counted(achievements, r.tankKills, r.dashKills);
    }

    /** The second half of updateProjectiles: the enemies' projectiles move
        and strike the player. */
    method TakeFire(input: Input)
      requires Valid()
      modifies this`enemyShots, this`running, player`health
      ensures Valid()
      ensures Barrage(enemyShots, player.health, running) ==
        Incoming(|old(enemyShots)|, Barrage(old(enemyShots), old(player.health), old(running)),
                 Target(input.shotMoves, player.Box(), player.dash.isActive, player.shield.isActive))
    {
      var b := ResolveIncoming(Barrage(enemyShots, player.health, running),
                               Target(input.shotMoves, player.Box(), player.dash.isActive, player.shield.isActive));
      enemyShots, player.health, running := b.shots, b.health, b.running;
    }

    /** The state the enemy update reads and writes. */
    function Fray(): Melee
      reads this`enemies, this`enemyShots, this`running, player`health, this`kills
    {
      Melee(enemies, enemyShots, player.health, kills, running)
    }

    /** What the enemy update knows about the player and the frame. */
    function Chase(dt: real, input: Input): Pursuit
      reads player`x, player`y, player`dash, player`shield
    {
      Pursuit(input.enemyMoves, input.enemyAims, player.Box(), player.dash.isActive,
              player.shield.isActive, dt, input.now)
    }

    /** updateEnemies: pursuit, shooter fire and contact, enemy by enemy from
        the end of the list. */
    method UpdateEnemies(dt: real, input: Input)
      requires Valid()
      modifies this`enemies, this`enemyShots, this`running, this`kills, player`health
      ensures Valid()
      ensures Fray() == Rampage(|old(enemies)|, old(Fray()), old(Chase(dt, input)))
    {
      var m := ResolveContacts(Fray(), Chase(dt, input));
      StoreFray(m);
    }

    /** Writes the enemy update's result back. */
    method StoreFray(m: Melee)
      requires Valid() && StreakOk(m.streak)
      modifies this`enemies, this`enemyShots, this`running, this`kills, player`health
      ensures Valid()
      ensures Fray() == m
    {
      enemies, enemyShots, player.health, running := m.enemies, m.shots, m.health, m.running;
      kills := m.streak;
    }

    /** What the hazard update needs to know about the player. */
    function Exposed(dt: real): Exposure
      reads player`x, player`y, player`dash, player`shield
    {
      Exposure(player.Box(), player.dash.isActive, player.shield.isActive, dt)
    }

    /** updateHazards. */
    method UpdateHazards(dt: real)
      requires Valid()
      modifies this`hazards, player`health, player`dots
      ensures Valid()
      ensures hazards == KeptHazards(old(hazards), dt)
      ensures player.health == old(player.health) - HazardDamage(hazards, Exposed(dt))
      ensures player.dots == old(player.dots) + HazardDots(hazards, Exposed(dt))
    {
      var kept, h, ds := TickHazards(hazards, player.health, player.dots, Exposed(dt));
      hazards, player.health, player.dots := kept, h, ds;
    }

    /** updateCamera. */
    method UpdateCamera()
      requires Valid()
      modifies this`camera
      ensures Valid()
      ensures camera == CameraFor(player.x, player.y)
    {
      camera := CameraFor(player.x, player.y);
    }

    /** updateDotEffects for the player. Enemies never carry DOT effects. */
    method UpdateDots(dt: real)
      requires Valid()
      modifies player`dots, player`health
      ensures Valid()
      ensures player.dots == Survivors(old(player.dots), dt)
      ensures player.health == old(player.health) - DotLoss(player.dots, dt)
    {
      player.dots, player.health := TickDots(player.dots, player.health, dt);
    }

    /** The reward block of a completed wave. */
    method CompleteWave(input: Input)
      requires Valid()
      modifies this`waveCompleted, this`wave, this`achievements, this`powerUps, this`hazards,
               player`level, player`experience, player`toNext, player`skillPoints
      ensures Valid()
      ensures waveCompleted && wave == old(wave) + 1
      ensures achievements == old(achievements)[SURVIVOR := old(achievements)[SURVIVOR].(progress := wave)]
      ensures var p := Leveling.GainExperience(old(player.Prog()), wave * WAVE_XP);
        player.Prog() == p.(skillPoints := p.skillPoints + 1)
      ensures powerUps == old(powerUps) + [PowerUp(input.dropAt.x, input.dropAt.y, POWER_UP_SIZE, POWER_UP_SIZE, WeaponDrop, RIFLE)]
      ensures hazards == old(hazards) + WaveHazards(wave, input.hazardKinds, input.hazardSpots)
    {
      waveCompleted := true;
      wave := wave + 1;
      achievements := achievements[SURVIVOR := achievements[SURVIVOR].(progress := wave)];
      Promote();
      powerUps := powerUps + [PowerUp(input.dropAt.x, input.dropAt.y, POWER_UP_SIZE, POWER_UP_SIZE, WeaponDrop, RIFLE)];
      ScatterHazards(input);
    }

    /** The experience and the skill point a completed wave grants. */
    method Promote()
      requires Valid()
      modifies player`level, player`experience, player`toNext, player`skillPoints
      ensures Valid()
      ensures var p := Leveling.GainExperience(old(player.Prog()), wave * WAVE_XP);
        player.Prog() == p.(skillPoints := p.skillPoints + 1)
    {
      player.GainExperience(wave * WAVE_XP);
      player.skillPoints := player.skillPoints + 1;
    }

    /** One new hazard per wave number. */
    method ScatterHazards(input: Input)
      requires wave >= 0
      modifies this`hazards
      ensures hazards == old(hazards) + WaveHazards(wave, input.hazardKinds, input.hazardSpots)
    {
      var i := 0;
      while i < wave
        invariant 0 <= i <= wave
        invariant hazards == old(hazards) + WaveHazards(i, input.hazardKinds, input.hazardSpots)
      {
        hazards := hazards + [NewHazard(input.hazardKinds(i), input.hazardSpots(i).x, input.hazardSpots(i).y)];
        i := i + 1;
      }
    }

    /** startNewWave. */
    method StartNewWave()
      modifies this`waveCompleted, this`enemiesInWave
      ensures !waveCompleted && enemiesInWave == WAVE_BASE + wave * WAVE_STEP
    {
      waveCompleted := false;
      enemiesInWave := WAVE_BASE + wave * WAVE_STEP;
    }

    /** checkAchievements: every reached goal is unlocked once, for two skill
        points each. */
    method CheckAchievements()
      requires Valid()
      modifies this`achievements, player`skillPoints
      ensures Valid()
      ensures achievements == CheckAll(old(achievements))
      ensures player.skillPoints == old(player.skillPoints) + Reward(old(achievements))
    {
      var i := 0;
      while i < |achievements|
        modifies this`achievements, player`skillPoints
        invariant 0 <= i <= |achievements| == ACHIEVEMENT_COUNT
        invariant achievements[..i] == CheckAll(old(achievements)[..i])
        invariant achievements[i..] == old(achievements)[i..]
        invariant player.skillPoints == old(player.skillPoints) + Reward(old(achievements)[..i])
      {
        CheckPrefix(old(achievements), i);
        assert achievements[i] == old(achievements)[i];
        ghost var done := achievements[..i];
        if !achievements[i].unlocked && achievements[i].progress >= achievements[i].goal {
          achievements := achievements[i := achievements[i].(unlocked := true)];
          player.skillPoints := player.skillPoints + ACHIEVEMENT_REWARD;
        }
        assert achievements[..i + 1] == done + [Check(old(achievements)[i])];
        assert achievements[i + 1..] == old(achievements)[i + 1..];
        i := i + 1;
      }
      assert old(achievements)[..i] == old(achievements);
      assert achievements[..i] == achievements;
    }

    /** The decay of screen shake, the combo and the multikill count, on the
        unscaled tick length. */
    method DecayTimers(dt: real)
      requires Valid() && dt >= 0.0
      modifies this`screenShake, this`combo, this`comboTimer, this`kills
      ensures Valid()
      ensures screenShake == DecayShake(old(screenShake), dt)
      ensures (combo, comboTimer) == DecayCombo(old(combo), old(comboTimer), dt)
      ensures (kills.multiKillCount, kills.multiKillTimer) ==
        DecayMultiKill(old(kills.multiKillCount), old(kills.multiKillTimer), dt)
      ensures kills == old(kills).(multiKillCount := kills.multiKillCount, multiKillTimer := kills.multiKillTimer)
    {
      screenShake := DecayShake(screenShake, dt);
      combo, comboTimer := DecayCombo(combo, comboTimer, dt).0, DecayCombo(combo, comboTimer, dt).1;
      var (count, timer) := DecayMultiKill(kills.multiKillCount, kills.multiKillTimer, dt);
      kills := kills.(multiKillCount := count, multiKillTimer := timer);
    }

    /** performChainDash: one target search. A found target turns the dash
        toward it and shakes the screen; the segment's animation ends in
        FinishChainSegment. */
    method PerformChainDash(target: Option<Point>)
      requires Valid()
      modifies player`dash, this`screenShake
      ensures Valid()
      ensures player.dash == ChainStep(old(player.dash), target)
      ensures screenShake == if player.dash.isActive then AddShake(old(screenShake), CHAIN_SHAKE) else old(screenShake)
    {
      player.dash := ChainStep(player.dash, target);
      if player.dash.isActive {
        screenShake := AddShake(screenShake, CHAIN_SHAKE);
      }
    }

    /** The end of a segment's animation: the segment is counted and, after
        the chain delay, the next target search runs. */
    method FinishChainSegment(target: Option<Point>)
      requires Valid()
      modifies player`dash, this`screenShake
      ensures Valid()
      ensures player.dash == ChainStep(FinishSegment(old(player.dash)), target)
      ensures player.dash.chainCount == old(player.dash.chainCount) + 1
      ensures screenShake == if player.dash.isActive then AddShake(old(screenShake), CHAIN_SHAKE) else old(screenShake)
    {
      player.dash := FinishSegment(player.dash);
      PerformChainDash(target);
    }

    /** handleAbilities: every cooldown runs down; the dash key starts a dash
        (and its first target search) when a charge is left; a charge is
        refilled; the shield and time-slow keys activate their abilities. */
    method HandleAbilities(dt: real, input: Input)
      requires Valid()
      modifies player`dash, player`shield, player`timeSlow, this`screenShake
      ensures Valid()
      ensures var d := old(player.dash).(currentCooldown := Cool(old(player.dash.currentCooldown), dt));
        player.dash == Refill(if input.space && CanDash(d) then ChainStep(StartDash(d, input.dashDirection), input.chainTarget) else d, dt)
      ensures player.shield == Activate(old(player.shield).(currentCooldown := Cool(old(player.shield.currentCooldown), dt)),
                                        input.q, SHIELD_COOLDOWN)
      ensures player.timeSlow == Activate(old(player.timeSlow).(currentCooldown := Cool(old(player.timeSlow.currentCooldown), dt)),
                                          input.e, SLOW_COOLDOWN)
      ensures var d := old(player.dash).(currentCooldown := Cool(old(player.dash.currentCooldown), dt));
        screenShake ==
          if input.space && CanDash(d) && ChainStep(StartDash(d, input.dashDirection), input.chainTarget).isActive
          then AddShake(old(screenShake), CHAIN_SHAKE) else old(screenShake)
    {
      player.dash := player.dash.(currentCooldown := Cool(player.dash.currentCooldown, dt));
      player.shield := player.shield.(currentCooldown := Cool(player.shield.currentCooldown, dt));
      player.timeSlow := player.timeSlow.(currentCooldown := Cool(player.timeSlow.currentCooldown, dt));
      if input.space && CanDash(player.dash) {
        player.dash := StartDash(player.dash, input.dashDirection);
        PerformChainDash(input.chainTarget);
      }
      player.dash := Refill(player.dash, dt);
      player.shield := Activate(player.shield, input.q, SHIELD_COOLDOWN);
      player.timeSlow := Activate(player.timeSlow, input.e, SLOW_COOLDOWN);
    }

    /** gameOver, as far as the state goes. */
    method GameOver()
      modifies this`running
      ensures !running
    {
      running := false;
    }

    /** resetGame: the player back to the centre with full health and ammo,
        the lists emptied and the first wave pending. Level, abilities,
        hazards and the score counters other than the score are kept. */
    method ResetGame()
      requires Valid()
      modifies player`x, player`y, player`health, player`ammo, this`camera, this`enemies, this`projectiles,
               this`powerUps, this`enemyShots, this`kills, this`wave, this`waveCompleted, this`enemiesInWave,
               this`running
      ensures Valid() && WaveGuard()
      ensures player.x == MAP_WIDTH / 2.0 && player.y == MAP_HEIGHT / 2.0
      ensures player.health == player.maxHealth && player.ammo == AMMO_CAPACITY
      ensures camera == CameraFor(player.x, player.y)
      ensures enemies == [] && projectiles == [] && powerUps == [] && enemyShots == []
      ensures kills == old(kills).(score := 0) && wave == 1 && waveCompleted && enemiesInWave == 0 && running
    {
      player.Respawn();
      UpdateCamera();
      enemies, projectiles, powerUps, enemyShots := [], [], [], [];
      kills := kills.(score := 0);
      wave, waveCompleted, enemiesInWave := 1, true, 0;
      running := true;
    }

    /** The nuke power-up: every enemy loses a hundred health, each one at
        zero or below scores its points (it stays in the list), and the
        screen shakes. */
    method Nuke()
      requires Valid()
      modifies this`enemies, this`kills, this`screenShake
      ensures Valid()
      ensures enemies == Nuked(old(enemies))
      ensures kills == old(kills).(score := old(kills.score) + NukePoints(old(enemies)))
      ensures screenShake == AddShake(old(screenShake), NUKE_SHAKE)
    {
      var i := 0;
      while i < |enemies|
        modifies this`enemies, this`kills
        invariant 0 <= i <= |enemies| == |old(enemies)|
        invariant enemies[..i] == Nuked(old(enemies)[..i])
        invariant enemies[i..] == old(enemies)[i..]
        invariant kills == old(kills).(score := old(kills.score) + NukePoints(old(enemies)[..i]))
      {
        ghost var before := old(enemies)[..i + 1];
        assert before[..i] == old(enemies)[..i];
        assert enemies[i] == old(enemies)[i];
        enemies := enemies[i := enemies[i].(health := enemies[i].health - NUKE_DAMAGE)];
        if enemies[i].health <= 0.0 {
          kills := kills.(score := kills.score + enemies[i].points);
        }
        assert enemies[i + 1..] == old(enemies)[i + 1..];
        i := i + 1;
      }
      assert old(enemies)[..i] == old(enemies);
      assert enemies[..i] == enemies;
      screenShake := AddShake(screenShake, NUKE_SHAKE);
    }

    /** The fighting part of a tick, on the time-scaled tick length: the
        player, the projectiles of both sides, then the enemies. */
    method Fight(dt: real, input: Input)
      requires Valid()
      modifies player, this`projectiles, this`enemies, this`kills, this`achievements, this`enemyShots, this`running
      ensures Valid()
    {
      UpdatePlayer(dt, input);
      ShootEnemies(input);
      TakeFire(input);
      UpdateEnemies(dt, input);
    }

    /** The rest of a tick's world update: hazards, camera and the player's
        damage over time. */
    method Surroundings(dt: real)
      requires Valid()
      modifies this`hazards, this`camera, player`health, player`dots
      ensures Valid()
    {
      UpdateHazards(dt);
      UpdateCamera();
      UpdateDots(dt);
    }

    /** The abilities on the real tick length, then the world on the length
        scaled by time slow. Nothing about the wave changes here. */
    method Play(dt: real, input: Input)
      requires Valid()
      modifies player, this`projectiles, this`enemies, this`kills, this`achievements, this`enemyShots,
               this`running, this`hazards, this`camera, this`screenShake
      ensures Valid()
    {
      HandleAbilities(dt, input);
      var eff := EffectiveDelta(dt, player.timeSlow.isActive);
      Fight(eff, input);
      Surroundings(eff);
    }

    /** The wave block: when no enemy is alive and none is left to spawn, an
        incomplete wave is rewarded and the next wave starts. */
    method EndWave(input: Input)
      requires Valid()
      modifies player`level, player`experience, player`toNext, player`skillPoints,
               this`waveCompleted, this`wave, this`achievements, this`powerUps, this`hazards, this`enemiesInWave
      ensures Valid()
      ensures |enemies| == 0 && old(enemiesInWave) == 0 && !old(waveCompleted) ==>
        achievements == old(achievements)[SURVIVOR := old(achievements)[SURVIVOR].(progress := wave)] &&
        powerUps == old(powerUps) + [PowerUp(input.dropAt.x, input.dropAt.y, POWER_UP_SIZE, POWER_UP_SIZE, WeaponDrop, RIFLE)] &&
        hazards == old(hazards) + WaveHazards(wave, input.hazardKinds, input.hazardSpots)
      ensures |enemies| == 0 && old(enemiesInWave) == 0 && !old(waveCompleted) ==>
        var p := Leveling.GainExperience(old(player.Prog()), wave * WAVE_XP);
        player.Prog() == p.(skillPoints := p.skillPoints + 1)
      ensures !(|enemies| == 0 && old(enemiesInWave) == 0 && !old(waveCompleted)) ==>
        achievements == old(achievements) && powerUps == old(powerUps) && hazards == old(hazards) &&
        player.Prog() == old(player.Prog())
      ensures !(|enemies| == 0 && old(enemiesInWave) == 0) ==>
        wave == old(wave) && enemiesInWave == old(enemiesInWave) && waveCompleted == old(waveCompleted)
      ensures |enemies| == 0 && old(enemiesInWave) == 0 ==>
        wave == (if old(waveCompleted) then old(wave) else old(wave) + 1) &&
        !waveCompleted && enemiesInWave == WAVE_BASE + wave * WAVE_STEP
      ensures old(WaveGuard()) ==> WaveGuard() && wave == old(wave)
      ensures enemiesInWave > 0 || |enemies| > 0
    {
      if |enemies| == 0 && enemiesInWave == 0 {
        if !waveCompleted {
          CompleteWave(input);
        }
        StartNewWave();
      }
    }

    /** The end of a tick: achievements are checked, then screen shake,
        combo and multikill decay on the real tick length. */
    method Recover(dt: real)
      requires Valid() && dt >= 0.0
      modifies this`achievements, player`skillPoints, this`screenShake, this`combo, this`comboTimer,
               this`kills
      ensures Valid()
    {
      CheckAchievements();
      DecayTimers(dt);
    }

    /** updateGameLoop: one tick of `dt` seconds, nothing at all once the game
        is over. The abilities and the decaying timers run on the real tick
        length, everything else on the length scaled by time slow. */
    method Tick(dt: real, input: Input)
      requires Valid() && dt >= 0.0
      modifies this, player
      ensures Valid()
      ensures !old(running) ==> unchanged(this) && unchanged(player)
      ensures old(WaveGuard()) ==> WaveGuard() && wave == old(wave)
      ensures old(running) ==> enemiesInWave > 0 || |enemies| > 0
    {
      if !running {
        return;
      }
      Play(dt, input);
      EndWave(input);
      Recover(dt);
    }
  }
}
