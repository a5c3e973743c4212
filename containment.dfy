/** Arena containment, the per-tank body of `keep_tanks_on_screen` in `src/main.rs`:
    a tank whose body crosses an edge of the 800×600 arena is put back against that
    edge and loses its velocity along that axis, and an AI that touched a wall is
    sent wandering away from it. */
module Containment {
  import opened Vectors
  import opened Tanks
  import opened Game
  import opened Motion

  /** The furthest a tank centre may be from the middle of the arena. */
  const X_LIMIT: real := GAME_WIDTH / 2.0 - TANK_SIZE
  const Y_LIMIT: real := GAME_HEIGHT / 2.0 - TANK_SIZE

  predicate InArena(p: Vec2) {
    -X_LIMIT <= p.x <= X_LIMIT && -Y_LIMIT <= p.y <= Y_LIMIT
  }

  /** No wall was touched (`tempdir` keeps its initial 5). */
  const NO_WALL: int := 5

  /** The direction that `keep_tanks_on_screen` assigns, by the wall it touched: the
      right wall gives 0 (thrust −x), the left 1, the top 2 (thrust −y), the bottom 3.
      The checks run right, left, top, bottom, so the last wall touched wins: the top
      or bottom wall beats the left or right one. No wall is touched exactly when the
      tank is inside the arena. */
  function WallHit(p: Vec2): (r: int)
    ensures r == NO_WALL <==> InArena(p)
    ensures r != NO_WALL ==> 0 <= r <= 3
  {
    if p.y < -Y_LIMIT then 3
    else if p.y > Y_LIMIT then 2
    else if p.x < -X_LIMIT then 1
    else if p.x > X_LIMIT then 0
    else NO_WALL
  }

  /** One tank in `keep_tanks_on_screen`: the four edge checks in source order, then
      the AI's direction is overwritten when a wall was touched. */
  function Contain(t: Tank): (r: Tank)
    ensures InArena(r.pos)
    ensures t.pos.x > X_LIMIT ==> r.pos.x == X_LIMIT && r.vel.x == 0.0
    ensures t.pos.x < -X_LIMIT ==> r.pos.x == -X_LIMIT && r.vel.x == 0.0
    ensures -X_LIMIT <= t.pos.x <= X_LIMIT ==> r.pos.x == t.pos.x && r.vel.x == t.vel.x
    ensures t.pos.y > Y_LIMIT ==> r.pos.y == Y_LIMIT && r.vel.y == 0.0
    ensures t.pos.y < -Y_LIMIT ==> r.pos.y == -Y_LIMIT && r.vel.y == 0.0
    ensures -Y_LIMIT <= t.pos.y <= Y_LIMIT ==> r.pos.y == t.pos.y && r.vel.y == t.vel.y
    ensures r.controller == if t.controller.Ai? && WallHit(t.pos) != NO_WALL
                            then t.controller.(direction := WallHit(t.pos)) else t.controller
    ensures r == t.(pos := r.pos, vel := r.vel, controller := r.controller)
  {
    var p0, v0, d0 := t.pos, t.vel, 5;
    var (p1, v1, d1) := if p0.x + TANK_SIZE > GAME_WIDTH - GAME_WIDTH / 2.0
                        then (p0.(x := GAME_WIDTH / 2.0 - TANK_SIZE), v0.(x := 0.0), 0) else (p0, v0, d0);
    var (p2, v2, d2) := if p1.x - TANK_SIZE < -GAME_WIDTH / 2.0
                        then (p1.(x := -GAME_WIDTH / 2.0 + TANK_SIZE), v1.(x := 0.0), 1) else (p1, v1, d1);
    var (p3, v3, d3) := if p2.y + TANK_SIZE > GAME_HEIGHT - GAME_HEIGHT / 2.0
                        then (p2.(y := GAME_HEIGHT / 2.0 - TANK_SIZE), v2.(y := 0.0), 2) else (p2, v2, d2);
    var (p4, v4, d4) := if p3.y - TANK_SIZE < -GAME_HEIGHT / 2.0
                        then (p3.(y := -GAME_HEIGHT / 2.0 + TANK_SIZE), v3.(y := 0.0), 3) else (p3, v3, d3);
    var c := if t.controller.Ai? && d4 < 5 then t.controller.(direction := d4) else t.controller;
    t.(pos := p4, vel := v4, controller := c)
  }

  /** A tank inside the arena is left exactly as it was. */
  lemma InsideUntouched(t: Tank)
    requires InArena(t.pos)
    ensures Contain(t) == t
  {
  }

  /** Containment is idempotent: a second pass changes nothing. */
  lemma ContainIdempotent(t: Tank)
    ensures Contain(Contain(t)) == Contain(t)
  {
    InsideUntouched(Contain(t));
  }

  /** The direction given to an AI that touched a wall thrusts it back into the arena
      along the axis of the wall that won. */
  lemma WallSteersInward(t: Tank)
    requires t.controller.Ai?
    ensures var d := DirectionThrust(Contain(t).controller.direction);
      && (t.pos.y < -Y_LIMIT ==> d.y > 0.0)
      && (t.pos.y > Y_LIMIT ==> d.y < 0.0)
      && (-Y_LIMIT <= t.pos.y <= Y_LIMIT && t.pos.x < -X_LIMIT ==> d.x > 0.0)
      && (-Y_LIMIT <= t.pos.y <= Y_LIMIT && t.pos.x > X_LIMIT ==> d.x < 0.0)
  {
  }

  /** A containment pass keeps every tank invariant (it changes no health, timer or
      turret, and writes only directions 0..=3). */
  lemma ContainKeepsTankOk(t: Tank)
    requires TankOk(t)
    ensures TankOk(Contain(t))
  {
  }
}
