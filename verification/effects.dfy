/** Damage-over-time effects and environmental hazards: their records, the
    functions that say what one update does to a list of them, and the
    reverse-index removal loop for DOT effects. */
module Effects {
  import opened Geometry

  /** A damage-over-time effect: damage per second and remaining time. */
  datatype Dot = Dot(damage: real, duration: real, timeLeft: real)

  /** Length of the DOT that an area hazard attaches. */
  const HAZARD_DOT_SECONDS: real := 3.0
  /** Fraction of incoming damage that gets through an active shield. */
  const SHIELD_FACTOR: real := 0.2

  function NewDot(damage: real, duration: real): Dot
  {
    Dot(damage, duration, duration)
  }

  /** Damage multiplier for the player: reduced while the shield is up. */
  function Mitigation(shielded: bool): (f: real)
    ensures 0.0 < f <= 1.0
    ensures shielded <==> f < 1.0
  {
    if shielded then SHIELD_FACTOR else 1.0
  }

  /** One effect after a tick: its clock lowered, or nothing once it ran out. */
  function DotTick(d: Dot, dt: real): seq<Dot>
  {
    if d.timeLeft - dt <= 0.0 then [] else [d.(timeLeft := d.timeLeft - dt)]
  }

  /** The effects that survive a tick, in their original order. */
  function Survivors(effects: seq<Dot>, dt: real): (r: seq<Dot>)
    ensures |r| <= |effects|
  {
    if effects == [] then [] else DotTick(effects[0], dt) + Survivors(effects[1..], dt)
  }

  /** Summed damage per second of a list of effects. */
  function DotDamage(effects: seq<Dot>): real
  {
    if effects == [] then 0.0 else effects[0].damage + DotDamage(effects[1..])
  }

  /** Damage of one effect over a tick. */
  function Charge(d: Dot, dt: real): real
  {
    d.damage * dt
  }

  /** Health lost in one tick to a list of effects, charged one effect at a time. */
  function DotLoss(effects: seq<Dot>, dt: real): real
  {
    if effects == [] then 0.0 else Charge(effects[0], dt) + DotLoss(effects[1..], dt)
  }

  /** Charging effects one at a time costs dt times their summed damage. */
  lemma {:induction false} DotLossIsSummedDamage(effects: seq<Dot>, dt: real)
    ensures DotLoss(effects, dt) == dt * DotDamage(effects)
  {
    if effects != [] {
      DotLossIsSummedDamage(effects[1..], dt);
      assert dt * DotDamage(effects) == dt * effects[0].damage + dt * DotDamage(effects[1..]);
    }
  }

  /** Every survivor still has time left. */
  lemma {:induction false} SurvivorsHaveTimeLeft(effects: seq<Dot>, dt: real)
    ensures forall k :: 0 <= k < |Survivors(effects, dt)| ==> Survivors(effects, dt)[k].timeLeft > 0.0
  {
    if effects != [] {
      SurvivorsHaveTimeLeft(effects[1..], dt);
    }
  }

  /** Removal keeps order: the survivors of a concatenation are the
      survivors of each part, concatenated. */
  lemma {:induction false} SurvivorsAppend(a: seq<Dot>, b: seq<Dot>, dt: real)
    ensures Survivors(a + b, dt) == Survivors(a, dt) + Survivors(b, dt)
  {
    if a == [] {
      assert a + b == b;
    } else {
      assert (a + b)[1..] == a[1..] + b;
      SurvivorsAppend(a[1..], b, dt);
    }
  }

  /** Effects stack additively. */
  lemma {:induction false} DotDamageAppend(a: seq<Dot>, b: seq<Dot>)
    ensures DotDamage(a + b) == DotDamage(a) + DotDamage(b)
  {
    if a == [] {
      assert a + b == b;
    } else {
      assert (a + b)[1..] == a[1..] + b;
      DotDamageAppend(a[1..], b);
    }
  }

  /** When every clock runs out this tick, everything is removed. */
  lemma {:induction false} AllExpire(effects: seq<Dot>, dt: real)
    requires forall k :: 0 <= k < |effects| ==> effects[k].timeLeft <= dt
    ensures Survivors(effects, dt) == []
  {
    if effects != [] {
      AllExpire(effects[1..], dt);
    }
  }

  /** updateDotEffects for one entity: walks the list from its end, removes
      an expired effect without letting it deal damage, and charges every
      survivor's damage for the tick. */
  method TickDots(effects: seq<Dot>, health: real, dt: real) returns (kept: seq<Dot>, h: real)
    ensures kept == Survivors(effects, dt)
    ensures h == health - DotLoss(kept, dt)
  {
    kept := effects;
    h := health;
    var i := |kept|;
    ghost var done: seq<Dot> := [];
    while i > 0
      invariant 0 <= i <= |effects|
      invariant done == Survivors(effects[i..], dt)
      invariant kept == effects[..i] + done
      invariant h == health - DotLoss(done, dt)
    {
      i := i - 1;
      SurvivorsStep(effects, i, dt);
      ghost var rest := done;
      assert effects[..i + 1] == effects[..i] + [effects[i]];
      assert kept[..i] == effects[..i] && kept[i] == effects[i] && kept[i + 1..] == rest;
      var effect := kept[i].(timeLeft := kept[i].timeLeft - dt);
      if effect.timeLeft <= 0.0 {
        kept := kept[..i] + kept[i + 1..];
      } else {
        kept := kept[..i] + [effect] + kept[i + 1..];
        h := h - Charge(effect, dt);
        done := [effect] + rest;
      }
      assert done == Survivors(effects[i..], dt);
    }
    assert effects[0..] == effects;
  }

  lemma SurvivorsStep(effects: seq<Dot>, i: nat, dt: real)
    requires i < |effects|
    ensures Survivors(effects[i..], dt) == DotTick(effects[i], dt) + Survivors(effects[i + 1..], dt)
    ensures DotLoss(Survivors(effects[i..], dt), dt) ==
      (if effects[i].timeLeft - dt <= 0.0 then 0.0 else Charge(effects[i], dt)) + DotLoss(Survivors(effects[i + 1..], dt), dt)
  {
    assert effects[i..][1..] == effects[i + 1..];
    var rest := Survivors(effects[i + 1..], dt);
    if effects[i].timeLeft - dt > 0.0 {
      var d := effects[i].(timeLeft := effects[i].timeLeft - dt);
      assert ([d] + rest)[1..] == rest;
    } else {
      assert [] + rest == rest;
    }
  }

  // ---------------------------------------------------------------- hazards

  datatype HazardKind = Spikes | Acid | Fire

  /** `duration` below zero means permanent; `dotDamage` zero means the
      hazard attaches no DOT. */
  datatype Hazard = Hazard(kind: HazardKind, x: real, y: real, width: real, height: real,
                           damage: real, duration: real, dotDamage: real, timeLeft: real)

  /** The hazard table. */
  function NewHazard(kind: HazardKind, x: real, y: real): (h: Hazard)
    ensures h.kind == kind && h.x == x && h.y == y && h.timeLeft == h.duration
    ensures h.duration <= 0.0 <==> kind == Spikes
    ensures h.dotDamage == 0.0 <==> kind == Spikes
    ensures h.damage > 0.0 && h.width > 0.0 && h.height > 0.0
  {
    match kind
    case Spikes => Hazard(Spikes, x, y, 40.0, 40.0, 30.0, -1.0, 0.0, -1.0)
    case Acid => Hazard(Acid, x, y, 60.0, 60.0, 20.0, 10.0, 5.0, 10.0)
    case Fire => Hazard(Fire, x, y, 50.0, 50.0, 15.0, 8.0, 8.0, 8.0)
  }

  function HazardBox(h: Hazard): Box
  {
    Box(h.x, h.y, h.width, h.height)
  }

  /** What a hazard update needs to know about the player. */
  datatype Exposure = Exposure(player: Box, dashing: bool, shielded: bool, dt: real)

  /** One hazard after a tick: a timed hazard's clock is lowered and the
      hazard is dropped once it reaches zero; a permanent one is untouched. */
  function HazardTick(h: Hazard, dt: real): seq<Hazard>
  {
    if h.duration > 0.0 then
      (if h.timeLeft - dt <= 0.0 then [] else [h.(timeLeft := h.timeLeft - dt)])
    else [h]
  }

  /** The hazards left after a tick, in their original order. */
  function KeptHazards(hs: seq<Hazard>, dt: real): (r: seq<Hazard>)
    ensures |r| <= |hs|
  {
    if hs == [] then [] else HazardTick(hs[0], dt) + KeptHazards(hs[1..], dt)
  }

  /** Every hazard left after a tick is permanent or still has time left. */
  lemma {:induction false} KeptHazardsLive(hs: seq<Hazard>, dt: real)
    ensures forall k :: 0 <= k < |KeptHazards(hs, dt)| ==>
      KeptHazards(hs, dt)[k].duration <= 0.0 || KeptHazards(hs, dt)[k].timeLeft > 0.0
  {
    if hs != [] {
      KeptHazardsLive(hs[1..], dt);
    }
  }

  /** Does this hazard touch the player this tick? A dashing player is immune. */
  predicate Hurts(h: Hazard, e: Exposure)
  {
    Overlaps(e.player, HazardBox(h)) && !e.dashing
  }

  /** Damage and DOT that one surviving hazard deals in a tick. */
  function HazardHit(h: Hazard, e: Exposure): real
  {
    if Hurts(h, e) then h.damage * Mitigation(e.shielded) * e.dt else 0.0
  }

  function HazardDot(h: Hazard, e: Exposure): seq<Dot>
  {
    if Hurts(h, e) && h.dotDamage != 0.0 then [NewDot(h.dotDamage, HAZARD_DOT_SECONDS)] else []
  }

  /** Health lost to a list of (surviving) hazards in one tick. */
  function HazardDamage(hs: seq<Hazard>, e: Exposure): real
  {
    if hs == [] then 0.0 else HazardHit(hs[0], e) + HazardDamage(hs[1..], e)
  }

  /** DOT effects attached by a list of (surviving) hazards in one tick; the
      update walks the list from its end, so the last hazard's DOT comes first. */
  function HazardDots(hs: seq<Hazard>, e: Exposure): seq<Dot>
  {
    if hs == [] then [] else HazardDots(hs[1..], e) + HazardDot(hs[0], e)
  }

  lemma {:induction false} KeptHazardsAppend(a: seq<Hazard>, b: seq<Hazard>, dt: real)
    ensures KeptHazards(a + b, dt) == KeptHazards(a, dt) + KeptHazards(b, dt)
  {
    if a == [] {
      assert a + b == b;
    } else {
      assert (a + b)[1..] == a[1..] + b;
      KeptHazardsAppend(a[1..], b, dt);
    }
  }

  /** A permanent hazard is never removed. */
  lemma {:induction false} PermanentHazardsStay(hs: seq<Hazard>, dt: real, k: nat)
    requires k < |hs| && hs[k].duration <= 0.0
    ensures hs[k] in KeptHazards(hs, dt)
  {
    if k == 0 {
      assert KeptHazards(hs, dt) == [hs[0]] + KeptHazards(hs[1..], dt);
    } else {
      PermanentHazardsStay(hs[1..], dt, k - 1);
    }
  }

  /** A dashing player takes no hazard damage and gets no DOT. */
  lemma {:induction false} DashingIsImmune(hs: seq<Hazard>, e: Exposure)
    requires e.dashing
    ensures HazardDamage(hs, e) == 0.0 && HazardDots(hs, e) == []
  {
    if hs != [] {
      DashingIsImmune(hs[1..], e);
    }
  }

  /** At most one new DOT per hazard per tick, each lasting three seconds. */
  lemma {:induction false} HazardDotsBounded(hs: seq<Hazard>, e: Exposure)
    ensures |HazardDots(hs, e)| <= |hs|
    ensures forall k :: 0 <= k < |HazardDots(hs, e)| ==>
      HazardDots(hs, e)[k].duration == HAZARD_DOT_SECONDS == HazardDots(hs, e)[k].timeLeft
  {
    if hs != [] {
      HazardDotsBounded(hs[1..], e);
    }
  }

  lemma HazardStep(hs: seq<Hazard>, i: nat, e: Exposure)
    requires i < |hs|
    ensures KeptHazards(hs[i..], e.dt) == HazardTick(hs[i], e.dt) + KeptHazards(hs[i + 1..], e.dt)
    ensures var rest := KeptHazards(hs[i + 1..], e.dt);
      var now := HazardTick(hs[i], e.dt);
      (now == [] || now == [now[0]]) &&
      HazardDamage(now + rest, e) == (if now == [] then 0.0 else HazardHit(now[0], e)) + HazardDamage(rest, e) &&
      HazardDots(now + rest, e) == HazardDots(rest, e) + (if now == [] then [] else HazardDot(now[0], e))
  {
    assert hs[i..][1..] == hs[i + 1..];
    var rest := KeptHazards(hs[i + 1..], e.dt);
    var now := HazardTick(hs[i], e.dt);
    if now == [] {
      assert now + rest == rest;
    } else {
      assert (now + rest)[1..] == rest;
    }
  }

  /** Taking apart a list that has a known element at a known position. */
  lemma Split<T>(s: seq<T>, front: seq<T>, x: T, back: seq<T>)
    requires s == front + [x] + back
    ensures s[..|front|] == front && s[|front|] == x && s[|front| + 1..] == back
  {
    assert s[..|front|] == front;
    assert s[|front| + 1..] == back;
  }

  lemma Regroup<T>(front: seq<T>, x: T, back: seq<T>)
    ensures front + [x] + back == front + ([x] + back)
  {
  }

  /** The damage one remaining hazard deals this tick, and the DOT it adds. */
  method Expose(hazard: Hazard, health: real, dots: seq<Dot>, e: Exposure) returns (h: real, ds: seq<Dot>)
    ensures h == health - HazardHit(hazard, e)
    ensures ds == dots + HazardDot(hazard, e)
  {
    h, ds := health, dots;
    if Overlaps(e.player, HazardBox(hazard)) && !e.dashing {
      h := h - hazard.damage * Mitigation(e.shielded) * e.dt;
      if hazard.dotDamage != 0.0 {
        ds := ds + [NewDot(hazard.dotDamage, HAZARD_DOT_SECONDS)];
      }
    }
  }

  /** updateHazards: walks the hazards from the end, ages timed ones and
      removes the expired, then lets each remaining one hurt the player. */
  method TickHazards(hazards: seq<Hazard>, health: real, dots: seq<Dot>, e: Exposure)
    returns (kept: seq<Hazard>, h: real, ds: seq<Dot>)
    ensures kept == KeptHazards(hazards, e.dt)
    ensures h == health - HazardDamage(kept, e)
    ensures ds == dots + HazardDots(kept, e)
  {
    kept := hazards;
    h := health;
    ds := dots;
    var i := |kept|;
    ghost var done: seq<Hazard> := [];
    while i > 0
      invariant 0 <= i <= |hazards|
      invariant done == KeptHazards(hazards[i..], e.dt)
      invariant kept == hazards[..i] + done
      invariant h == health - HazardDamage(done, e)
      invariant ds == dots + HazardDots(done, e)
    {
      i := i - 1;
      HazardStep(hazards, i, e);
      ghost var rest := done;
      assert hazards[..i + 1] == hazards[..i] + [hazards[i]];
      Split(kept, hazards[..i], hazards[i], rest);
      var hazard := kept[i];
      if hazard.duration > 0.0 {
        hazard := hazard.(timeLeft := hazard.timeLeft - e.dt);
        if hazard.timeLeft <= 0.0 {
          assert HazardTick(hazards[i], e.dt) == [];
          kept := kept[..i] + kept[i + 1..];
          done := rest;
          assert HazardDots(rest, e) + [] == HazardDots(rest, e);
          continue;
        }
        kept := kept[..i] + [hazard] + kept[i + 1..];
      }
      assert HazardTick(hazards[i], e.dt) == [hazard];
      assert kept == hazards[..i] + [hazard] + rest;
      Regroup(hazards[..i], hazard, rest);
      done := [hazard] + rest;
      h, ds := Expose(hazard, h, ds, e);
      assert ds == dots + (HazardDots(rest, e) + HazardDot(hazard, e));
    }
    assert hazards[0..] == hazards;
  }

  /** Standing on spikes (30 per second) for one second behind a shield costs
      exactly 6 health, and no DOT. */
  lemma ShieldedSpikesExample(px: real, py: real)
    requires Overlaps(Box(px, py, 30.0, 30.0), HazardBox(NewHazard(Spikes, px, py)))
    ensures var e := Exposure(Box(px, py, 30.0, 30.0), false, true, 1.0);
      var kept := KeptHazards([NewHazard(Spikes, px, py)], 1.0);
      kept == [NewHazard(Spikes, px, py)] && HazardDamage(kept, e) == 6.0 && HazardDots(kept, e) == []
  {
    var h := NewHazard(Spikes, px, py);
    assert KeptHazards([h], 1.0) == [h] + KeptHazards([], 1.0);
    assert [h][1..] == [];
  }
}
