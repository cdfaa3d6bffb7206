/** The three abilities (dash, shield, time slow) as state machines: what
    one tick of cooldown and charge bookkeeping does, when each may be
    activated, and when a chained dash ends. */
module Abilities {
  import opened Geometry
  import opened Leveling

  const DASH_COOLDOWN: real := 2.0
  const DASH_SPEED: real := 1000.0
  const MAX_CHARGES: int := 3
  const CHARGE_REFRESH_TIME: real := 3.0
  const DASH_DAMAGE: real := 200.0
  const MAX_CHAINS: int := 3

  const SHIELD_COOLDOWN: real := 10.0
  const SHIELD_DURATION: real := 3.0
  const SLOW_COOLDOWN: real := 15.0
  const SLOW_DURATION: real := 5.0
  const SLOW_FACTOR: real := 0.5

  /** The changing part of the dash record. */
  datatype Dash = Dash(currentCooldown: real, isActive: bool, charges: int, chargeTimer: real,
                       chainCount: int, direction: Point)

  /** The changing part of the shield and time-slow records. */
  datatype Timed = Timed(currentCooldown: real, isActive: bool)

  predicate DashValid(d: Dash)
  {
    d.currentCooldown >= 0.0 && 0 <= d.charges <= MAX_CHARGES && d.chainCount >= 0
  }

  const InitialDash: Dash := Dash(0.0, false, MAX_CHARGES, 0.0, 0, Point(0.0, 0.0))
  const InitialTimed: Timed := Timed(0.0, false)

  /** The cooldown decay applied to every ability at the start of a tick. */
  function Cool(cc: real, dt: real): (r: real)
    ensures cc >= 0.0 ==> r >= 0.0
    ensures cc <= 0.0 ==> r == cc
    ensures cc > 0.0 && dt >= cc ==> r == 0.0
    ensures cc > 0.0 && 0.0 <= dt < cc ==> r == cc - dt
  {
    if cc > 0.0 then Max(0.0, cc - dt) else cc
  }

  /** Can the dash key start a dash? The dash's own cooldown is not consulted. */
  predicate CanDash(d: Dash)
  {
    !d.isActive && d.charges > 0
  }

  /** Dash activation: one charge spent, the cooldown restarted, the chain
      counter cleared and the initial direction set. */
  function StartDash(d: Dash, direction: Point): (r: Dash)
    requires CanDash(d) && DashValid(d)
    ensures DashValid(r)
    ensures r.isActive && r.charges == d.charges - 1 && r.chainCount == 0
    ensures r.direction == direction
    ensures r.currentCooldown == DASH_COOLDOWN && r.chargeTimer == d.chargeTimer
  {
    Dash(DASH_COOLDOWN, true, d.charges - 1, d.chargeTimer, 0, direction)
  }

  /** performChainDash as far as the dash record goes: the chain ends once it
      reached its maximum length or when no target is found; otherwise the
      dash turns toward the target (the blended, normalised direction). */
  function ChainStep(d: Dash, target: Option<Point>): (r: Dash)
    ensures r.isActive ==> d.isActive && d.chainCount < MAX_CHAINS && target.Some?
    ensures !r.isActive ==> d.chainCount >= MAX_CHAINS || target.None? || !d.isActive
    ensures r.charges == d.charges && r.chainCount == d.chainCount
    ensures r.currentCooldown == d.currentCooldown && r.chargeTimer == d.chargeTimer
    ensures r.isActive ==> r.direction == target.value
  {
    if d.chainCount >= MAX_CHAINS then d.(isActive := false)
    else match target
      case Some(dir) => d.(direction := dir)
      case None => d.(isActive := false)
  }

  /** The end of one animated chain segment. */
  function FinishSegment(d: Dash): (r: Dash)
    ensures r.chainCount == d.chainCount + 1
    ensures r == d.(chainCount := d.chainCount + 1)
  {
    d.(chainCount := d.chainCount + 1)
  }

  /** A whole chain: the first step runs on activation, and after each
      finished segment the next step looks for a target again (one oracle
      answer per step). */
  function ChainRun(d: Dash, targets: seq<Option<Point>>): Dash
    decreases |targets|
  {
    if targets == [] then d
    else
      var s := ChainStep(d, targets[0]);
      if s.isActive then ChainRun(FinishSegment(s), targets[1..]) else s
  }

  /** A chain always ends: after at most MAX_CHAINS + 1 target searches the
      dash is no longer active, whatever the searches return. */
  lemma {:induction false} ChainTerminates(d: Dash, targets: seq<Option<Point>>)
    requires 0 <= d.chainCount <= MAX_CHAINS
    requires |targets| > MAX_CHAINS - d.chainCount
    ensures !ChainRun(d, targets).isActive
    decreases |targets|
  {
    var s := ChainStep(d, targets[0]);
    if s.isActive {
      ChainTerminates(FinishSegment(s), targets[1..]);
    }
  }

  /** A chain never runs more than MAX_CHAINS segments, and a run changes
      nothing but the activity flag, the segment count and the direction. */
  lemma {:induction false} ChainLength(d: Dash, targets: seq<Option<Point>>)
    requires 0 <= d.chainCount <= MAX_CHAINS
    ensures var r := ChainRun(d, targets);
      d.chainCount <= r.chainCount <= MAX_CHAINS &&
      r.charges == d.charges && r.currentCooldown == d.currentCooldown && r.chargeTimer == d.chargeTimer
    decreases |targets|
  {
    if targets != [] {
      var s := ChainStep(d, targets[0]);
      if s.isActive {
        ChainLength(FinishSegment(s), targets[1..]);
      }
    }
  }

  /** With no enemy in range, a dash spends one charge and is over at once,
      after its single unchained segment. */
  lemma DashWithoutTargets(d: Dash, direction: Point)
    requires CanDash(d) && DashValid(d)
    ensures var r := ChainStep(StartDash(d, direction), None);
      !r.isActive && r.charges == d.charges - 1 && r.chainCount == 0
  {
  }

  /** Charge refill: below the maximum the refresh timer runs, and a full
      refresh interval restores exactly one charge and restarts the timer. */
  function Refill(d: Dash, dt: real): (r: Dash)
    requires DashValid(d)
    ensures DashValid(r)
    ensures d.charges <= r.charges <= d.charges + 1
    ensures r.charges == d.charges + 1 <==>
      d.charges < MAX_CHARGES && d.chargeTimer + dt >= CHARGE_REFRESH_TIME
    ensures r.charges == d.charges + 1 ==> r.chargeTimer == 0.0
    ensures d.charges == MAX_CHARGES ==> r == d
    ensures r.isActive == d.isActive && r.chainCount == d.chainCount && r.currentCooldown == d.currentCooldown
  {
    if d.charges < MAX_CHARGES then
      var t := d.chargeTimer + dt;
      if t >= CHARGE_REFRESH_TIME then d.(charges := d.charges + 1, chargeTimer := 0.0)
      else d.(chargeTimer := t)
    else d
  }

  /** Shield and time slow: activation needs the key, the ability inactive and
      its cooldown run out; it then restarts the cooldown. */
  function Activate(t: Timed, pressed: bool, cooldown: real): (r: Timed)
    requires cooldown > 0.0
    ensures r.isActive != t.isActive <==> pressed && !t.isActive && t.currentCooldown <= 0.0
    ensures r.isActive != t.isActive ==> r.isActive && r.currentCooldown == cooldown
    ensures r.isActive == t.isActive ==> r == t
  {
    if pressed && !t.isActive && t.currentCooldown <= 0.0 then Timed(cooldown, true) else t
  }

  /** The time-slow scaling of the tick length. */
  function EffectiveDelta(dt: real, slowActive: bool): (r: real)
    ensures slowActive ==> r == dt * SLOW_FACTOR
    ensures !slowActive ==> r == dt
    ensures dt >= 0.0 ==> 0.0 <= r <= dt
  {
    if slowActive then dt * SLOW_FACTOR else dt
  }
}
