/** Movement integration, the per-tank bodies of the `movement` (player) and
    `ai_movement` systems of `src/main.rs`: held directions add TANK_SPEED to a
    velocity axis once the intro's grace period is over, the velocity is damped by
    0.9, and the position advances by the damped velocity. */
module Motion {
  import opened Vectors
  import opened Tanks

  /** The movement keys held this tick: Left/A, Right/D, Down/S, Up/W. */
  datatype Keys = Keys(left: bool, right: bool, down: bool, up: bool)

  const NoKeys: Keys := Keys(false, false, false, false)

  /** The thrust of one axis, given whether its negative and its positive key is held. */
  function Axis(negative: bool, positive: bool): real {
    (if positive then TANK_SPEED else 0.0) - (if negative then TANK_SPEED else 0.0)
  }

  /** The thrust that the held keys add to the velocity: each held direction adds
      TANK_SPEED to its axis, and nothing is added before the grace period ends. */
  function Thrust(keys: Keys, pastGrace: bool): Vec2 {
    if pastGrace then Vec2(Axis(keys.left, keys.right), Axis(keys.down, keys.up)) else Zero
  }

  /** Damping and integration, shared by both systems: velocity ×0.9, then the
      position moves by the new velocity. */
  function Integrate(t: Tank, vel: Vec2): (r: Tank)
    ensures r.vel == Scale(vel, 0.9) && r.pos == Add(t.pos, r.vel)
    ensures r == t.(pos := r.pos, vel := r.vel)
  {
    var v := Scale(vel, 0.9);
    t.(vel := v, pos := Add(t.pos, v))
  }

  /** One tick of `movement` for one player tank: the four key checks in source order,
      then damping and integration. */
  function PlayerStep(t: Tank, keys: Keys, pastGrace: bool): (r: Tank)
    ensures r.vel == Scale(Add(t.vel, Thrust(keys, pastGrace)), 0.9)
    ensures r.pos == Add(t.pos, r.vel)
    ensures r == t.(pos := r.pos, vel := r.vel)
  {
    var v0 := t.vel;
    var v1 := if keys.left && pastGrace then v0.(x := v0.x - TANK_SPEED) else v0;
    var v2 := if keys.right && pastGrace then v1.(x := v1.x + TANK_SPEED) else v1;
    var v3 := if keys.down && pastGrace then v2.(y := v2.y - TANK_SPEED) else v2;
    var v4 := if keys.up && pastGrace then v3.(y := v3.y + TANK_SPEED) else v3;
    Integrate(t, v4)
  }

  /** Opposite keys cancel, and a diagonal is not renormalised: each held axis gets the
      full TANK_SPEED. */
  lemma OppositeKeysCancel(keys: Keys)
    ensures keys.left == keys.right ==> Thrust(keys, true).x == 0.0
    ensures keys.down == keys.up ==> Thrust(keys, true).y == 0.0
    ensures Thrust(Keys(false, true, false, true), true) == Vec2(TANK_SPEED, TANK_SPEED)
    ensures Thrust(Keys(true, false, true, false), true) == Vec2(-TANK_SPEED, -TANK_SPEED)
  {
  }

  /** Without thrust a tank coasts: its speed drops to exactly 0.9 of what it was and it
      moves by the damped velocity, so a tank at rest stays where it is. */
  lemma Coasting(len: Vec2 -> real, t: Tank, keys: Keys)
    requires IsLength(len)
    ensures var r := PlayerStep(t, keys, false);
      len(r.vel) == 0.9 * len(t.vel) && (t.vel == Zero ==> r == t)
  {
    var r := PlayerStep(t, keys, false);
    AddZero(t.vel);
    assert r.vel == Scale(t.vel, 0.9);
    assert len(Scale(t.vel, 0.9)) == Abs(0.9) * len(t.vel);
    if t.vel == Zero {
      assert r.vel == Zero;
      AddZero(t.pos);
    }
  }

  /** `n` ticks of `movement` with the same keys held past the grace period. */
  function Hold(t: Tank, keys: Keys, n: nat): Tank
    decreases n
  {
    if n == 0 then t else Hold(PlayerStep(t, keys, true), keys, n - 1)
  }

  /** Terminal speed: holding Right from a speed in [0, 9·TANK_SPEED] never slows the
      tank down and never takes it past 9·TANK_SPEED, the fixed point of
      v ↦ 0.9·(v + TANK_SPEED). */
  lemma {:induction false} TerminalSpeed(t: Tank, n: nat)
    requires 0.0 <= t.vel.x <= 9.0 * TANK_SPEED
    ensures var r := Hold(t, Keys(false, true, false, false), n);
      t.vel.x <= r.vel.x <= 9.0 * TANK_SPEED
    decreases n
  {
    if n > 0 {
      var keys := Keys(false, true, false, false);
      var s := PlayerStep(t, keys, true);
      assert s.vel.x == (t.vel.x + TANK_SPEED) * 0.9;
      TerminalSpeed(s, n - 1);
    }
  }

  /** The thrust of an AI wander direction: 0 is −x, 1 is +x, 2 is −y, 3 is +y, and 4
      (or anything else) is none. */
  function DirectionThrust(direction: int): Vec2 {
    if direction == 0 then Vec2(-TANK_SPEED, 0.0)
    else if direction == 1 then Vec2(TANK_SPEED, 0.0)
    else if direction == 2 then Vec2(0.0, -TANK_SPEED)
    else if direction == 3 then Vec2(0.0, TANK_SPEED)
    else Zero
  }

  /** The key a player would hold to move as an AI does in `direction`. */
  function KeyFor(direction: int): Keys {
    Keys(direction == 0, direction == 1, direction == 2, direction == 3)
  }

  /** An AI moving in direction 0..=3 gets exactly the thrust of a player holding the
      one corresponding key; direction 4 is a player holding nothing. */
  lemma AiDirectionIsOneKey(direction: int)
    requires 0 <= direction <= 4
    ensures DirectionThrust(direction) == Thrust(KeyFor(direction), true)
  {
  }

  /** One tick of `ai_movement` for one AI tank. When the step counter is negative a
      new direction (`gen_range(0..=4)`, here `dirDraw`) and a new step count
      (`gen_range(0..=110) / 110`, here `stepDraw / 110`) are drawn; the AI's direction
      then thrusts only past the grace period and while the AI is active; damping and
      integration follow, and the step counter loses the frame time `delta`. */
  function AiStep(t: Tank, pastGrace: bool, delta: real, dirDraw: int, stepDraw: int): (r: Tank)
    requires t.controller.Ai?
    requires 0 <= dirDraw <= 4 && 0 <= stepDraw <= 110
    ensures r.controller.Ai? && r.controller.active == t.controller.active
    ensures t.controller.steps < 0.0 ==>
      r.controller.direction == dirDraw && r.controller.steps == stepDraw as real / 110.0 - delta
    ensures t.controller.steps >= 0.0 ==>
      r.controller.direction == t.controller.direction && r.controller.steps == t.controller.steps - delta
    ensures r.vel == Scale(Add(t.vel, if pastGrace && t.controller.active
                                      then DirectionThrust(r.controller.direction) else Zero), 0.9)
    ensures r.pos == Add(t.pos, r.vel)
    ensures r == t.(pos := r.pos, vel := r.vel, controller := r.controller)
  {
    var c := t.controller;
    var c1 := if c.steps < 0.0 then c.(direction := dirDraw, steps := stepDraw as real / 110.0) else c;
    var go := pastGrace && c1.active;
    var v0 := t.vel;
    var v1 := if c1.direction == 0 && go then v0.(x := v0.x - TANK_SPEED) else v0;
    var v2 := if c1.direction == 1 && go then v1.(x := v1.x + TANK_SPEED) else v1;
    var v3 := if c1.direction == 2 && go then v2.(y := v2.y - TANK_SPEED) else v2;
    var v4 := if c1.direction == 3 && go then v3.(y := v3.y + TANK_SPEED) else v3;
    Integrate(t, v4).(controller := c1.(steps := c1.steps - delta))
  }

  /** The wander direction stays a valid `DirectionAi` (0..=4), and a freshly drawn
      step count lies in [0, 1] before the frame time is taken off. */
  lemma AiStepRanges(t: Tank, pastGrace: bool, delta: real, dirDraw: int, stepDraw: int)
    requires t.controller.Ai? && 0 <= t.controller.direction <= 4
    requires 0 <= dirDraw <= 4 && 0 <= stepDraw <= 110
    ensures var r := AiStep(t, pastGrace, delta, dirDraw, stepDraw);
      && 0 <= r.controller.direction <= 4
      && (t.controller.steps < 0.0 ==> 0.0 <= r.controller.steps + delta <= 1.0)
  {
  }

  /** An AI that is inactive, or still in the grace period, or wandering in direction 4,
      only coasts: exactly like a player holding no key. */
  lemma AiWithoutThrustCoasts(t: Tank, pastGrace: bool, delta: real, dirDraw: int, stepDraw: int)
    requires t.controller.Ai?
    requires 0 <= dirDraw <= 4 && 0 <= stepDraw <= 110
    requires var r := AiStep(t, pastGrace, delta, dirDraw, stepDraw);
      !pastGrace || !t.controller.active || r.controller.direction == 4
    ensures var r := AiStep(t, pastGrace, delta, dirDraw, stepDraw);
      r.pos == PlayerStep(t, NoKeys, pastGrace).pos && r.vel == PlayerStep(t, NoKeys, pastGrace).vel
  {
  }

  /** A fresh AI (steps 0, direction 0) does not draw on its first tick: whatever the
      draws, it keeps direction 0 and its step counter becomes -delta, so it draws on
      the next tick when delta > 0. */
  lemma FreshAiKeepsDirection(health: int, pastGrace: bool, delta: real, dirDraw: int, stepDraw: int)
    requires 0 <= health < 256
    requires 0 <= dirDraw <= 4 && 0 <= stepDraw <= 110
    ensures var t := Spawn(NewTankBundle(health), Wrappers.Some(NewAiBundle()), NewTurretBundle());
      var r := AiStep(t, pastGrace, delta, dirDraw, stepDraw);
      r.controller.direction == 0 && r.controller.steps == -delta
  {
  }
}
