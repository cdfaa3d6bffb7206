/** Combat resolution: the three reverse-index passes of a tick over player
    projectiles, enemies and enemy projectiles. Each pass is specified by a
    fold that processes the list from its last index down, exactly as the
    splice loops do, and implemented by a method with that loop. Positions
    after movement, crit rolls and aim angles come in as oracles. */
module Combat {
  import opened Geometry
  import opened Leveling
  import opened Entities
  import opened Scoring
  import opened Effects
  import Abilities

  /** `list.splice(k, 1)`. */
  function Remove<T>(s: seq<T>, k: nat): (r: seq<T>)
    requires k < |s|
    ensures |r| == |s| - 1
    ensures r[..k] == s[..k] && r[k..] == s[k + 1..]
  {
    s[..k] + s[k + 1..]
  }

  // ------------------------------------------------------ player projectiles

  /** What projectile kills feed: the enemy list, the score, the player's
      leveling fields and the two kill-counting achievements. */
  datatype Tally = Tally(enemies: seq<Enemy>, score: int, progress: Progress, tankKills: int, dashKills: int)

  /** The oracles and player facts one projectile pass reads: the position
      each projectile moves to, the crit draw for projectile i hitting enemy
      j, the crit chance and whether the dash is active. */
  datatype Volley = Volley(moves: nat -> Point, rolls: (nat, nat) -> real, critChance: real, dashing: bool)

  /** A projectile strikes enemy k: its damage, again on a crit; a killed
      enemy is removed and credited to score, experience and achievements. */
  function Strike(t: Tally, k: nat, p: Projectile, roll: real, v: Volley): (r: Tally)
    requires k < |t.enemies| && Consistent(t.progress)
    ensures Consistent(r.progress)
    ensures k <= |r.enemies| <= |t.enemies| && r.enemies[..k] == t.enemies[..k]
    ensures var e := t.enemies[k];
      var health := e.health - p.damage - (if roll < v.critChance then p.damage else 0.0);
      if health <= 0.0 then
        r.enemies == Remove(t.enemies, k) && r.score == t.score + e.points &&
        r.progress == GainExperience(t.progress, e.points) &&
        r.tankKills == t.tankKills + (if e.kind == Tank then 1 else 0) &&
        r.dashKills == t.dashKills + (if v.dashing then 1 else 0)
      else
        r == t.(enemies := t.enemies[k := e.(health := health)])
  {
    var e := t.enemies[k];
    var e1 := e.(health := e.health - p.damage);
    var e2 := if roll < v.critChance then e1.(health := e1.health - p.damage) else e1;
    if e2.health <= 0.0 then
      Tally(Remove(t.enemies, k), t.score + e.points, GainExperience(t.progress, e.points),
            t.tankKills + (if e.kind == Tank then 1 else 0), t.dashKills + (if v.dashing then 1 else 0))
    else
      t.(enemies := t.enemies[k := e2])
  }

  /** The inner loop for projectile i at its moved position: enemies j-1 down
      to 0. The flag says whether a non-penetrating projectile was used up
      (which also ends the loop). */
  function Hits(p: Projectile, i: nat, j: nat, t: Tally, v: Volley): (r: (Tally, bool))
    requires j <= |t.enemies| && Consistent(t.progress)
    ensures Consistent(r.0.progress)
    decreases j
  {
    if j == 0 then (t, false)
    else
      var k := j - 1;
      if Overlaps(ProjectileBox(p), EnemyBox(t.enemies[k])) then
        var s := Strike(t, k, p, v.rolls(i, k), v);
        if !p.penetrating then (s, true) else Hits(p, i, k, s, v)
      else Hits(p, i, k, t, v)
  }

  /** The outer loop: projectiles i-1 down to 0 are moved, dropped when
      outside the map, and otherwise tested against every enemy. */
  function Shots(i: nat, ps: seq<Projectile>, t: Tally, v: Volley): (seq<Projectile>, Tally)
    requires i <= |ps| && Consistent(t.progress)
    decreases i
  {
    if i == 0 then (ps, t)
    else
      var k := i - 1;
      var p := ps[k].(x := v.moves(k).x, y := v.moves(k).y);
      var moved := ps[k := p];
      if !InMap(p.x, p.y) then Shots(k, Remove(moved, k), t, v)
      else
        var (s, used) := Hits(p, k, |t.enemies|, t, v);
        Shots(k, if used then Remove(moved, k) else moved, s, v)
  }

  /** updateProjectiles, player half. */
  method ResolveShots(projectiles: seq<Projectile>, t: Tally, v: Volley) returns (ps: seq<Projectile>, r: Tally)
    requires Consistent(t.progress)
    ensures (ps, r) == Shots(|projectiles|, projectiles, t, v)
  {
    ps := projectiles;
    r := t;
    var i := |ps|;
    while i > 0
      invariant 0 <= i <= |ps| && Consistent(r.progress)
      invariant Shots(i, ps, r, v) == Shots(|projectiles|, projectiles, t, v)
    {
      ghost var last := Shots(i, ps, r, v);
      i := i - 1;
      var p := ps[i].(x := v.moves(i).x, y := v.moves(i).y);
      ps := ps[i := p];
      if !InMap(p.x, p.y) {
        ps := Remove(ps, i);
        assert Shots(i, ps, r, v) == last;
        continue;
      }
      ghost var before := r;
      ghost var target := Hits(p, i, |r.enemies|, r, v);
      var j := |r.enemies|;
      while j > 0
        invariant 0 <= j <= |r.enemies| && Consistent(r.progress) && i < |ps| && ps[i] == p
        invariant Hits(p, i, j, r, v) == target
      {
        j := j - 1;
        if Overlaps(ProjectileBox(p), EnemyBox(r.enemies[j])) {
          r := Strike(r, j, p, v.rolls(i, j), v);
          if !p.penetrating {
            ps := Remove(ps, i);
            assert target == (r, true);
            break;
          }
        }
      }
      assert Shots(i, ps, r, v) == last;
    }
  }

  /** A non-penetrating projectile is used up exactly when it overlaps one of
      the enemies still to be tested; a penetrating one never is. */
  lemma {:induction false} UsedUpIffHit(p: Projectile, i: nat, j: nat, t: Tally, v: Volley)
    requires j <= |t.enemies| && Consistent(t.progress)
    ensures Hits(p, i, j, t, v).1 <==>
      !p.penetrating && exists k :: 0 <= k < j && Overlaps(ProjectileBox(p), EnemyBox(t.enemies[k]))
    decreases j
  {
    if j > 0 {
      var k := j - 1;
      if Overlaps(ProjectileBox(p), EnemyBox(t.enemies[k])) {
        if p.penetrating {
          UsedUpIffHit(p, i, k, Strike(t, k, p, v.rolls(i, k), v), v);
        }
      } else {
        UsedUpIffHit(p, i, k, t, v);
        if !p.penetrating && exists k' :: 0 <= k' < j && Overlaps(ProjectileBox(p), EnemyBox(t.enemies[k'])) {
          var k' :| 0 <= k' < j && Overlaps(ProjectileBox(p), EnemyBox(t.enemies[k']));
          assert k' < k;
        }
      }
    }
  }

  /** A projectile that overlaps no enemy changes nothing. */
  lemma {:induction false} MissChangesNothing(p: Projectile, i: nat, j: nat, t: Tally, v: Volley)
    requires j <= |t.enemies| && Consistent(t.progress)
    requires forall k :: 0 <= k < j ==> !Overlaps(ProjectileBox(p), EnemyBox(t.enemies[k]))
    ensures Hits(p, i, j, t, v) == (t, false)
    decreases j
  {
    if j > 0 {
      MissChangesNothing(p, i, j - 1, t, v);
    }
  }

  /** What a pass may do to the counters: the score and the two kill counts
      only grow, speedster kills only while dashing, the enemy list only
      shrinks, and every point scored is also awarded as experience (what
      went in is what is left plus the requirements of the levels crossed). */
  predicate Credited(t: Tally, r: Tally, dashing: bool)
  {
    Consistent(t.progress) && Consistent(r.progress) &&
    t.score <= r.score && t.tankKills <= r.tankKills && t.dashKills <= r.dashKills &&
    (!dashing ==> r.dashKills == t.dashKills) && |r.enemies| <= |t.enemies| &&
    t.progress.level <= r.progress.level && t.progress.skillPoints <= r.progress.skillPoints &&
    r.progress.experience + ThresholdSum(t.progress.level - 1, r.progress.level - 1)
      == t.progress.experience + (r.score - t.score)
  }

  lemma CreditedTrans(a: Tally, b: Tally, c: Tally, dashing: bool)
    requires Credited(a, b, dashing) && Credited(b, c, dashing)
    ensures Credited(a, c, dashing)
  {
    ThresholdSumSplit(a.progress.level - 1, b.progress.level - 1, c.progress.level - 1);
  }

  lemma CreditedRefl(a: Tally, dashing: bool)
    requires Consistent(a.progress)
    ensures Credited(a, a, dashing)
  {
  }

  lemma StrikeCredited(t: Tally, k: nat, p: Projectile, roll: real, v: Volley)
    requires k < |t.enemies| && Consistent(t.progress)
    ensures Credited(t, Strike(t, k, p, roll, v), v.dashing)
  {
    var r := Strike(t, k, p, roll, v);
    if r.score != t.score || r.progress != t.progress {
      GainConserves(t.progress, t.enemies[k].points);
    }
  }

  lemma {:induction false} HitsCredited(p: Projectile, i: nat, j: nat, t: Tally, v: Volley)
    requires j <= |t.enemies| && Consistent(t.progress)
    ensures Credited(t, Hits(p, i, j, t, v).0, v.dashing)
    decreases j
  {
    if j == 0 {
      CreditedRefl(t, v.dashing);
    } else {
      var k := j - 1;
      if Overlaps(ProjectileBox(p), EnemyBox(t.enemies[k])) {
        var s := Strike(t, k, p, v.rolls(i, k), v);
        StrikeCredited(t, k, p, v.rolls(i, k), v);
        if p.penetrating {
          HitsCredited(p, i, k, s, v);
          CreditedTrans(t, s, Hits(p, i, k, s, v).0, v.dashing);
        }
      } else {
        HitsCredited(p, i, k, t, v);
      }
    }
  }

  /** The whole projectile pass keeps the score and experience in step. */
  lemma {:induction false} ShotsCredited(i: nat, ps: seq<Projectile>, t: Tally, v: Volley)
    requires i <= |ps| && Consistent(t.progress)
    ensures Credited(t, Shots(i, ps, t, v).1, v.dashing)
    decreases i
  {
    if i == 0 {
      CreditedRefl(t, v.dashing);
    } else {
      var k := i - 1;
      var p := ps[k].(x := v.moves(k).x, y := v.moves(k).y);
      var moved := ps[k := p];
      if !InMap(p.x, p.y) {
        ShotsCredited(k, Remove(moved, k), t, v);
      } else {
        var (s, used) := Hits(p, k, |t.enemies|, t, v);
        HitsCredited(p, k, |t.enemies|, t, v);
        var rest := if used then Remove(moved, k) else moved;
        ShotsCredited(k, rest, s, v);
        CreditedTrans(t, s, Shots(k, rest, s, v).1, v.dashing);
      }
    }
  }

  /** After the pass every projectile left is inside the map, and none was
      added. Projectiles not yet visited (index i and above) must already be
      inside; at the start of a pass i is the list length, so that is vacuous. */
  lemma {:induction false} ShotsStayInMap(i: nat, ps: seq<Projectile>, t: Tally, v: Volley)
    requires i <= |ps| && Consistent(t.progress)
    requires forall k :: i <= k < |ps| ==> InMap(ps[k].x, ps[k].y)
    ensures |Shots(i, ps, t, v).0| <= |ps|
    ensures forall q :: q in Shots(i, ps, t, v).0 ==> InMap(q.x, q.y)
    decreases i
  {
    if i == 0 {
      forall q | q in ps
        ensures InMap(q.x, q.y)
      {
        var k :| 0 <= k < |ps| && ps[k] == q;
      }
    } else {
      var k := i - 1;
      var p := ps[k].(x := v.moves(k).x, y := v.moves(k).y);
      var moved := ps[k := p];
      if !InMap(p.x, p.y) {
        ShotsStayInMap(k, Remove(moved, k), t, v);
      } else {
        var (s, used) := Hits(p, k, |t.enemies|, t, v);
        if used {
          ShotsStayInMap(k, Remove(moved, k), s, v);
        } else {
          ShotsStayInMap(k, moved, s, v);
        }
      }
    }
  }

  // ---------------------------------------------------------------- enemies

  /** What the enemy pass changes: the enemies, the enemy projectiles, the
      player's health, the kill-streak counters and the running flag. */
  datatype Melee = Melee(enemies: seq<Enemy>, shots: seq<EnemyShot>, health: real, streak: Streak, running: bool)

  /** What the enemy pass reads: where each enemy moves to, the aim of each
      shooter, the player's box, dash and shield state, the tick length and
      the clock reading used for kill streaks. */
  datatype Pursuit = Pursuit(moves: nat -> Point, aims: nat -> real, player: Box, dashing: bool,
                             shielded: bool, dt: real, now: real)

  predicate StreakOk(s: Streak)
  {
    s.killStreak >= 0 && s.multiKillCount >= 0
  }

  /** Enemy k moves and, if it is a shooter whose cooldown ran out, fires
      one shot at the player and restarts its cooldown; any other positive
      cooldown runs down. */
  function Stalk(e: Enemy, k: nat, c: Pursuit): (r: (Enemy, seq<EnemyShot>))
    ensures |r.1| <= 1
    ensures r.1 != [] <==> e.kind == Shooter && e.shootCooldown <= 0.0
    ensures r.1 != [] ==> (r.0.shootCooldown == SHOOTER_FIRE_RATE &&
      r.1[0] == EnemyShot(r.0.x, r.0.y, ENEMY_SHOT_SIZE, ENEMY_SHOT_SIZE, SHOOTER_PROJECTILE_SPEED, c.aims(k), e.damage))
    ensures r.1 == [] ==> r.0.shootCooldown == (if e.shootCooldown > 0.0 then e.shootCooldown - c.dt else e.shootCooldown)
    ensures r.0 == e.(x := c.moves(k).x, y := c.moves(k).y, shootCooldown := r.0.shootCooldown)
  {
    var moved := e.(x := c.moves(k).x, y := c.moves(k).y);
    if moved.kind == Shooter && moved.shootCooldown <= 0.0 then
      (moved.(shootCooldown := SHOOTER_FIRE_RATE),
       [EnemyShot(moved.x, moved.y, ENEMY_SHOT_SIZE, ENEMY_SHOT_SIZE, SHOOTER_PROJECTILE_SPEED, c.aims(k), moved.damage)])
    else if moved.shootCooldown > 0.0 then (moved.(shootCooldown := moved.shootCooldown - c.dt), [])
    else (moved, [])
  }

  /** Contact between enemy k and the player: a dashing player deals dash
      damage and takes none, and a killed enemy is removed and scored as a
      kill; otherwise the player takes the enemy's damage for the tick
      (reduced by the shield) and the game ends once health reaches zero. */
  function Contact(m: Melee, k: nat, c: Pursuit): (r: Melee)
    requires k < |m.enemies| && StreakOk(m.streak)
    ensures StreakOk(r.streak) && r.shots == m.shots
    ensures k <= |r.enemies| <= |m.enemies| && r.enemies[..k] == m.enemies[..k]
    ensures c.dashing ==> r.health == m.health && r.running == m.running
    ensures !c.dashing ==> r.enemies == m.enemies && r.streak == m.streak
    ensures !c.dashing ==> (r.health == m.health -
      (if Overlaps(EnemyBox(m.enemies[k]), c.player) then m.enemies[k].damage * Mitigation(c.shielded) * c.dt else 0.0))
    ensures r.running <==> m.running && !(!c.dashing && Overlaps(EnemyBox(m.enemies[k]), c.player) && r.health <= 0.0)
    ensures |r.enemies| < |m.enemies| <==>
      c.dashing && Overlaps(EnemyBox(m.enemies[k]), c.player) && m.enemies[k].health - Abilities.DASH_DAMAGE <= 0.0
    ensures |r.enemies| < |m.enemies| ==> r.streak == OnKill(m.streak, m.enemies[k].points, c.now)
    ensures |m.enemies| - 1 <= |r.enemies| && r.enemies[|r.enemies| - (|m.enemies| - k - 1)..] == m.enemies[k + 1..]
    ensures !Overlaps(EnemyBox(m.enemies[k]), c.player) ==> r == m
    ensures c.dashing && Overlaps(EnemyBox(m.enemies[k]), c.player) ==>
      var e := m.enemies[k];
      var health := e.health - Abilities.DASH_DAMAGE;
      if health <= 0.0 then
        r == m.(enemies := Remove(m.enemies, k), streak := OnKill(m.streak, e.points, c.now))
      else
        r == m.(enemies := m.enemies[k := e.(health := health)])
    ensures !c.dashing && Overlaps(EnemyBox(m.enemies[k]), c.player) ==>
      r == m.(health := m.health - m.enemies[k].damage * Mitigation(c.shielded) * c.dt,
              running := m.running && r.health > 0.0)
  {
    var e := m.enemies[k];
    if Overlaps(EnemyBox(e), c.player) then
      if c.dashing then
        var hit := e.(health := e.health - Abilities.DASH_DAMAGE);
        if hit.health <= 0.0 then m.(enemies := Remove(m.enemies, k), streak := OnKill(m.streak, hit.points, c.now))
        else m.(enemies := m.enemies[k := hit])
      else
        var health := m.health - e.damage * Mitigation(c.shielded) * c.dt;
        m.(health := health, running := if health <= 0.0 then false else m.running)
    else m
  }

  /** The enemy pass, enemies i-1 down to 0. */
  function Rampage(i: nat, m: Melee, c: Pursuit): (r: Melee)
    requires i <= |m.enemies| && StreakOk(m.streak)
    ensures StreakOk(r.streak)
    decreases i
  {
    if i == 0 then m
    else
      var k := i - 1;
      var (e, fired) := Stalk(m.enemies[k], k, c);
      Rampage(k, Contact(m.(enemies := m.enemies[k := e], shots := m.shots + fired), k, c), c)
  }

  /** updateEnemies. */
  method ResolveContacts(m0: Melee, c: Pursuit) returns (m: Melee)
    requires StreakOk(m0.streak)
    ensures m == Rampage(|m0.enemies|, m0, c)
  {
    m := m0;
    var i := |m.enemies|;
    while i > 0
      invariant 0 <= i <= |m.enemies| && StreakOk(m.streak)
      invariant Rampage(i, m, c) == Rampage(|m0.enemies|, m0, c)
    {
      i := i - 1;
      var (e, fired) := Stalk(m.enemies[i], i, c);
      m := m.(enemies := m.enemies[i := e], shots := m.shots + fired);
      m := Contact(m, i, c);
    }
  }

  /** A dashing player takes no contact damage; a player who is not dashing
      removes no enemy by contact and scores nothing. Shots are only ever
      appended, at most one per enemy. */
  lemma {:induction false} RampageFrame(i: nat, m: Melee, c: Pursuit)
    requires i <= |m.enemies| && StreakOk(m.streak)
    ensures var r := Rampage(i, m, c);
      (c.dashing ==> r.health == m.health && r.running == m.running) &&
      (!c.dashing ==> |r.enemies| == |m.enemies| && r.streak == m.streak) &&
      |m.shots| <= |r.shots| <= |m.shots| + i && r.shots[..|m.shots|] == m.shots
    decreases i
  {
    if i > 0 {
      var k := i - 1;
      var (e, fired) := Stalk(m.enemies[k], k, c);
      var m1 := Contact(m.(enemies := m.enemies[k := e], shots := m.shots + fired), k, c);
      RampageFrame(k, m1, c);
      var r := Rampage(k, m1, c);
      assert r.shots[..|m1.shots|][..|m.shots|] == m.shots;
    }
  }

  /** The pass over enemies i-1 down to 0 removes at most i of them and
      leaves the enemies from index i on untouched, at the end of the list. */
  lemma {:induction false} RampageSpares(i: nat, m: Melee, c: Pursuit)
    requires i <= |m.enemies| && StreakOk(m.streak)
    ensures var r := Rampage(i, m, c);
      |m.enemies| - i <= |r.enemies| <= |m.enemies| &&
      r.enemies[|r.enemies| - (|m.enemies| - i)..] == m.enemies[i..]
    decreases i
  {
    if i > 0 {
      var k := i - 1;
      var (e, fired) := Stalk(m.enemies[k], k, c);
      var m0 := m.(enemies := m.enemies[k := e], shots := m.shots + fired);
      var m1 := Contact(m0, k, c);
      assert m0.enemies[k + 1..] == m.enemies[i..];
      RampageSpares(k, m1, c);
      var r := Rampage(k, m1, c);
      var tail := |m.enemies| - i;
      SuffixOfSuffix(r.enemies, m1.enemies[k..], tail);
      assert m1.enemies[k..][|m1.enemies| - k - tail..] == m1.enemies[|m1.enemies| - tail..];
    }
  }

  /** The last t elements of a suffix are the last t elements of the whole. */
  lemma SuffixOfSuffix<T>(r: seq<T>, x: seq<T>, t: nat)
    requires t <= |x| <= |r| && r[|r| - |x|..] == x
    ensures r[|r| - t..] == x[|x| - t..]
  {
    assert r[|r| - t..] == r[|r| - |x|..][|x| - t..];
  }

  /** Every enemy the pass removes is a kill at the same clock reading, so
      the kill streak counts at least the enemies removed (on top of the
      streak so far when it last scored at this reading); with no removal
      the counters are untouched. */
  lemma {:induction false} RampageCountsKills(i: nat, m: Melee, c: Pursuit)
    requires i <= |m.enemies| && StreakOk(m.streak)
    ensures var r := Rampage(i, m, c);
      |r.enemies| <= |m.enemies| &&
      (|r.enemies| == |m.enemies| ==> r.streak == m.streak) &&
      (|r.enemies| < |m.enemies| ==> r.streak.lastKillTime == c.now) &&
      r.streak.killStreak >=
        (if m.streak.lastKillTime == c.now then m.streak.killStreak else 0) + (|m.enemies| - |r.enemies|)
    decreases i
  {
    if i > 0 {
      var k := i - 1;
      var (e, fired) := Stalk(m.enemies[k], k, c);
      var m0 := m.(enemies := m.enemies[k := e], shots := m.shots + fired);
      var m1 := Contact(m0, k, c);
      RampageCountsKills(k, m1, c);
      if |m1.enemies| < |m0.enemies| {
        assert m1.streak == OnKill(m.streak, e.points, c.now);
        assert WithinWindow(m.streak, c.now) || m.streak.lastKillTime != c.now;
      }
    }
  }

  /** Contact damage never heals. With enemies of non-negative damage and a
      non-negative tick, the game is over after the pass exactly when the
      player's health is gone (given it was running with health left). */
  lemma {:induction false} GameOverIffHealthGone(i: nat, m: Melee, c: Pursuit)
    requires i <= |m.enemies| && StreakOk(m.streak) && c.dt >= 0.0
    requires forall k :: 0 <= k < i ==> m.enemies[k].damage >= 0.0
    ensures Rampage(i, m, c).health <= m.health
    ensures !m.running ==> !Rampage(i, m, c).running
    ensures m.running && m.health > 0.0 ==> (Rampage(i, m, c).running <==> Rampage(i, m, c).health > 0.0)
    decreases i
  {
    if i > 0 {
      var k := i - 1;
      var (e, fired) := Stalk(m.enemies[k], k, c);
      var m0 := m.(enemies := m.enemies[k := e], shots := m.shots + fired);
      var m1 := Contact(m0, k, c);
      assert m0.enemies[k].damage >= 0.0;
      assert forall k' :: 0 <= k' < k ==> m1.enemies[k'] == m0.enemies[..k][k'];
      GameOverIffHealthGone(k, m1, c);
    }
  }

  // -------------------------------------------------------- enemy projectiles

  /** What the enemy-projectile pass changes. */
  datatype Barrage = Barrage(shots: seq<EnemyShot>, health: real, running: bool)

  /** What it reads: where each shot moves to, and the player's box, dash
      and shield state. */
  datatype Target = Target(moves: nat -> Point, player: Box, dashing: bool, shielded: bool)

  /** The enemy-projectile pass, shots i-1 down to 0: a shot leaving the map
      is dropped; one that touches a player who is not dashing deals its
      damage (reduced by the shield), is dropped, and ends the game once
      health is gone; every other shot flies on. */
  function Incoming(i: nat, b: Barrage, t: Target): Barrage
    requires i <= |b.shots|
    decreases i
  {
    if i == 0 then b
    else
      var k := i - 1;
      var s := b.shots[k].(x := t.moves(k).x, y := t.moves(k).y);
      var moved := b.shots[k := s];
      if !InMap(s.x, s.y) then Incoming(k, b.(shots := Remove(moved, k)), t)
      else if Overlaps(EnemyShotBox(s), t.player) && !t.dashing then Incoming(k, Struck(b, Remove(moved, k), s, t), t)
      else Incoming(k, b.(shots := moved), t)
  }

  /** The player is hit by shot s; the shot is gone from `rest`. */
  function Struck(b: Barrage, rest: seq<EnemyShot>, s: EnemyShot, t: Target): (r: Barrage)
    ensures r.shots == rest && r.health == b.health - s.damage * Mitigation(t.shielded)
    ensures r.running <==> b.running && r.health > 0.0
  {
    var health := b.health - s.damage * Mitigation(t.shielded);
    Barrage(rest, health, if health <= 0.0 then false else b.running)
  }

  /** updateProjectiles, enemy half. */
  method ResolveIncoming(b0: Barrage, t: Target) returns (b: Barrage)
    ensures b == Incoming(|b0.shots|, b0, t)
  {
    b := b0;
    var i := |b.shots|;
    while i > 0
      invariant 0 <= i <= |b.shots|
      invariant Incoming(i, b, t) == Incoming(|b0.shots|, b0, t)
    {
      ghost var last := Incoming(i, b, t);
      ghost var before := b;
      i := i - 1;
      var s := b.shots[i].(x := t.moves(i).x, y := t.moves(i).y);
      b := b.(shots := b.shots[i := s]);
      if !InMap(s.x, s.y) {
        b := b.(shots := Remove(b.shots, i));
        continue;
      }
      if Overlaps(EnemyShotBox(s), t.player) && !t.dashing {
        b := b.(health := b.health - s.damage * Mitigation(t.shielded));
        b := b.(shots := Remove(b.shots, i));
        if b.health <= 0.0 {
          b := b.(running := false);
        }
        assert b == Struck(before, Remove(before.shots[i := s], i), s, t);
        assert Incoming(i, b, t) == last;
      } else {
        assert Incoming(i, b, t) == last;
      }
    }
  }

  /** A dashing player is never hit by an enemy projectile. */
  lemma {:induction false} DashDodgesShots(i: nat, b: Barrage, t: Target)
    requires i <= |b.shots| && t.dashing
    ensures Incoming(i, b, t).health == b.health && Incoming(i, b, t).running == b.running
    decreases i
  {
    if i > 0 {
      var k := i - 1;
      var s := b.shots[k].(x := t.moves(k).x, y := t.moves(k).y);
      var moved := b.shots[k := s];
      if !InMap(s.x, s.y) {
        DashDodgesShots(k, b.(shots := Remove(moved, k)), t);
      } else {
        DashDodgesShots(k, b.(shots := moved), t);
      }
    }
  }

  /** After the pass every enemy projectile left is inside the map and, unless
      the player is dashing, none of them touches the player: each one that
      did has been spent. */
  lemma {:induction false} ShotsLeftMissPlayer(i: nat, b: Barrage, t: Target)
    requires i <= |b.shots|
    requires forall k :: i <= k < |b.shots| ==>
      InMap(b.shots[k].x, b.shots[k].y) && (!t.dashing ==> !Overlaps(EnemyShotBox(b.shots[k]), t.player))
    ensures |Incoming(i, b, t).shots| <= |b.shots|
    ensures forall q :: q in Incoming(i, b, t).shots ==>
      InMap(q.x, q.y) && (!t.dashing ==> !Overlaps(EnemyShotBox(q), t.player))
    decreases i
  {
    if i == 0 {
      forall q | q in b.shots
        ensures InMap(q.x, q.y) && (!t.dashing ==> !Overlaps(EnemyShotBox(q), t.player))
      {
        var k :| 0 <= k < |b.shots| && b.shots[k] == q;
      }
    } else {
      var k := i - 1;
      var s := b.shots[k].(x := t.moves(k).x, y := t.moves(k).y);
      var moved := b.shots[k := s];
      if !InMap(s.x, s.y) {
        ShotsLeftMissPlayer(k, b.(shots := Remove(moved, k)), t);
      } else if Overlaps(EnemyShotBox(s), t.player) && !t.dashing {
        ShotsLeftMissPlayer(k, Struck(b, Remove(moved, k), s, t), t);
      } else {
        ShotsLeftMissPlayer(k, b.(shots := moved), t);
      }
    }
  }
}
