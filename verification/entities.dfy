/** Records for enemies, projectiles and power-ups, and the static tables
    they are built from: the enemy types, the weighted spawn list and the
    one weapon. */
module Entities {
  import opened Geometry

  datatype EnemyKind = Normal | Fast | Tank | Shooter | Chemical

  /** One row of the enemy type table. */
  datatype EnemyType = EnemyType(width: real, height: real, speed: real, health: real, damage: real, points: nat)

  function TypeOf(k: EnemyKind): (t: EnemyType)
    ensures t.health > 0.0 && t.damage > 0.0 && t.points > 0
  {
    match k
    case Tank => EnemyType(120.0, 120.0, 20.0, 1500.0, 30.0, 50)
    case Shooter => EnemyType(40.0, 40.0, 40.0, 40.0, 10.0, 15)
    case Fast => EnemyType(30.0, 30.0, 90.0, 20.0, 5.0, 20)
    case Normal => EnemyType(40.0, 40.0, 50.0, 40.0, 10.0, 10)
    case Chemical => EnemyType(50.0, 50.0, 45.0, 60.0, 15.0, 25)
  }

  /** Seconds between two shots of a shooter. */
  const SHOOTER_FIRE_RATE: real := 2.0
  const SHOOTER_PROJECTILE_SPEED: real := 200.0
  /** Edge length of an enemy projectile. */
  const ENEMY_SHOT_SIZE: real := 12.0

  /** `width`/`height` are the box the collision test reads. */
  datatype Enemy = Enemy(kind: EnemyKind, x: real, y: real, width: real, height: real,
                         initialWidth: real, initialHeight: real, speed: real,
                         health: real, maxHealth: real, damage: real, points: nat,
                         shootCooldown: real)

  function EnemyBox(e: Enemy): Box
  {
    Box(e.x, e.y, e.width, e.height)
  }

  /** The weighted spawn list: three normal, two fast, one of each other kind. */
  const SPAWN_TABLE: seq<EnemyKind> := [Normal, Normal, Normal, Fast, Fast, Tank, Shooter, Chemical]

  /** `Math.floor(Math.random() * 8)`: an index into the spawn list. */
  type SpawnRoll = k: nat | k < 8

  function Occurrences(s: seq<EnemyKind>, k: EnemyKind): nat
  {
    if s == [] then 0 else (if s[0] == k then 1 else 0) + Occurrences(s[1..], k)
  }

  lemma SpawnWeights()
    ensures Occurrences(SPAWN_TABLE, Normal) == 3 && Occurrences(SPAWN_TABLE, Fast) == 2
    ensures Occurrences(SPAWN_TABLE, Tank) == 1 && Occurrences(SPAWN_TABLE, Shooter) == 1
    ensures Occurrences(SPAWN_TABLE, Chemical) == 1
  {
    var s := SPAWN_TABLE;
    assert s[1..] == [Normal, Normal, Fast, Fast, Tank, Shooter, Chemical];
    assert s[2..] == [Normal, Fast, Fast, Tank, Shooter, Chemical];
    assert s[3..] == [Fast, Fast, Tank, Shooter, Chemical];
    assert s[4..] == [Fast, Tank, Shooter, Chemical];
    assert s[5..] == [Tank, Shooter, Chemical];
    assert s[6..] == [Shooter, Chemical];
    assert s[7..] == [Chemical];
    assert s[8..] == [];
    assert s[1..][1..] == s[2..] && s[2..][1..] == s[3..] && s[3..][1..] == s[4..];
    assert s[4..][1..] == s[5..] && s[5..][1..] == s[6..] && s[6..][1..] == s[7..];
    assert s[7..][1..] == s[8..];
  }

  /** A new enemy of the rolled kind at the candidate position, held inside
      the map, at full health and free to fire. */
  function Spawned(roll: SpawnRoll, x: real, y: real): (e: Enemy)
    ensures e.kind == SPAWN_TABLE[roll]
    ensures InMap(e.x, e.y)
    ensures 0.0 < e.health == e.maxHealth
    ensures e.shootCooldown == 0.0
    ensures e.width == e.initialWidth && e.height == e.initialHeight
    ensures var t := TypeOf(e.kind);
      e.width == t.width && e.height == t.height && e.speed == t.speed && e.health == t.health &&
      e.damage == t.damage && e.points == t.points
    ensures e.x == Clamp(x, 0.0, MAP_WIDTH) && e.y == Clamp(y, 0.0, MAP_HEIGHT)
    ensures 0.0 <= x <= MAP_WIDTH && 0.0 <= y <= MAP_HEIGHT ==> e.x == x && e.y == y
  {
    var k := SPAWN_TABLE[roll];
    var t := TypeOf(k);
    Enemy(k, Clamp(x, 0.0, MAP_WIDTH), Clamp(y, 0.0, MAP_HEIGHT), t.width, t.height, t.width, t.height,
          t.speed, t.health, t.health, t.damage, t.points, 0.0)
  }

  // -------------------------------------------------------------- the weapon

  /** The rifle, the only weapon in the table. */
  const RIFLE_DAMAGE: real := 50.0
  const FIRE_RATE: real := 0.05
  const PROJECTILE_SPEED: real := 800.0
  const AMMO_CAPACITY: int := 200
  const SPREAD: real := 0.02
  /** Edge length of a laser projectile. */
  const LASER_SIZE: real := 4.0

  datatype Projectile = Projectile(x: real, y: real, width: real, height: real, speed: real,
                                   angle: real, damage: real, penetrating: bool)

  function ProjectileBox(p: Projectile): Box
  {
    Box(p.x, p.y, p.width, p.height)
  }

  /** Damage of a shot, scaled by the damage bonus in percent. */
  function ShotDamage(damageBonus: real): (d: real)
    ensures damageBonus >= 0.0 ==> d >= RIFLE_DAMAGE
    ensures damageBonus == 0.0 ==> d == RIFLE_DAMAGE
  {
    RIFLE_DAMAGE * (1.0 + damageBonus / 100.0)
  }

  /** A rifle shot from the player's position; `roll` is the uniform draw
      that sets the spread, which stays within half the weapon spread. */
  function Bullet(x: real, y: real, aim: real, roll: real, damageBonus: real): (p: Projectile)
    ensures p.x == x && p.y == y && p.penetrating
    ensures p.damage == ShotDamage(damageBonus)
    ensures 0.0 <= roll <= 1.0 ==> aim - SPREAD / 2.0 <= p.angle <= aim + SPREAD / 2.0
  {
    Projectile(x, y, LASER_SIZE, LASER_SIZE, PROJECTILE_SPEED, aim + (roll - 0.5) * SPREAD,
               ShotDamage(damageBonus), true)
  }

  datatype EnemyShot = EnemyShot(x: real, y: real, width: real, height: real, speed: real,
                                 angle: real, damage: real)

  function EnemyShotBox(s: EnemyShot): Box
  {
    Box(s.x, s.y, s.width, s.height)
  }

  // --------------------------------------------------------------- power-ups

  datatype PowerUpKind = HealthKit | AmmoKit | SpeedBoost | WeaponUpgrade | Nuke | Experience | WeaponDrop

  datatype PowerUp = PowerUp(x: real, y: real, width: real, height: real, kind: PowerUpKind, weapon: string)

  const POWER_UP_SIZE: real := 30.0
  const RIFLE: string := "rifle"
}
