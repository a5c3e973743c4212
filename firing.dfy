/** Aiming and firing, the gameplay parts of `mouse_button_input` and `ai_rotate` in
    `src/main.rs`: the attack-timer gates, the turret recoil and its easing back, the
    bullets spawned, and the AI's active switch. The bearing's rotation (`atan2` and a
    quaternion) only turns the sprite and is not modelled. */
module Firing {
  import opened Vectors
  import opened Wrappers
  import opened Tanks
  import opened Game

  /** The player may fire again once the attack timer exceeds this. */
  const FIRE_COOLDOWN: real := 0.4
  /** Turret x right after a shot: snapped 10 back from its rest position. */
  const RECOIL_X: real := TANK_SIZE + 4.0 - 10.0

  /** The turret eases a tenth of the way back to its rest position per call. */
  function Ease(x: real): (r: real)
    ensures TURRET_REST - r == 0.9 * (TURRET_REST - x)
  {
    x + ((TANK_SIZE + 4.0) - x) * 0.1
  }

  /** Easing never overshoots: from anywhere between full recoil and rest, the turret
      moves towards rest and stays in that range. */
  lemma EaseStaysInRange(x: real)
    requires RECOIL_X <= x <= TURRET_REST
    ensures x <= Ease(x) <= TURRET_REST
  {
  }

  function Pow(b: real, n: nat): real {
    if n == 0 then 1.0 else b * Pow(b, n - 1)
  }

  /** The turret after `n` easing calls. */
  function EaseN(x: real, n: nat): real {
    if n == 0 then x else Ease(EaseN(x, n - 1))
  }

  /** After n calls the remaining recoil is 0.9^n of what it was; so a turret at rest
      (where `TurretBundle::new` puts it) never moves until it fires. */
  lemma {:induction false} EaseConverges(x: real, n: nat)
    ensures TURRET_REST - EaseN(x, n) == Pow(0.9, n) * (TURRET_REST - x)
    ensures x == TURRET_REST ==> EaseN(x, n) == TURRET_REST
  {
    if n > 0 {
      EaseConverges(x, n - 1);
      var g := TURRET_REST - x;
      assert TURRET_REST - EaseN(x, n) == 0.9 * (Pow(0.9, n - 1) * g);
      assert 0.9 * (Pow(0.9, n - 1) * g) == (0.9 * Pow(0.9, n - 1)) * g;
    }
  }

  /** A new turret sits at the resting point of the easing. */
  lemma TurretBundleAtRest()
    ensures Ease(NewTurretBundle().transform.translation.x) == NewTurretBundle().transform.translation.x
  {
  }

  /** The primary window: its size and, when the cursor is over it, the cursor's
      position in window coordinates (origin top-left, y down). */
  datatype Window = Window(width: real, height: real, cursor: Option<Vec2>)

  /** `mouse_coords`: the cursor with its y flipped to point up. */
  function MouseCoords(w: Window, c: Vec2): (r: Vec2)
    ensures r.x == c.x
    ensures c.y == 0.0 ==> r.y == w.height
    ensures c.y == w.height ==> r.y == 0.0
  {
    Vec2(c.x, c.y * -1.0 + w.height)
  }

  /** The arena point under the cursor (the camera is centred on the origin). */
  function CursorInWorld(w: Window, c: Vec2): Vec2 {
    Sub(MouseCoords(w, c), Vec2(w.width / 2.0, w.height / 2.0))
  }

  /** The window centre is the arena origin and the top-left corner is (-w/2, h/2). */
  lemma CursorMapping(w: Window)
    ensures CursorInWorld(w, Vec2(w.width / 2.0, w.height / 2.0)) == Zero
    ensures CursorInWorld(w, Zero) == Vec2(-w.width / 2.0, w.height / 2.0)
  {
  }

  /** A tank after its turn at a gun, and the bullet it fired, if any. */
  datatype Fired = Fired(tank: Tank, shot: Option<Bullet>)

  /** One player tank in `mouse_button_input`: the turret eases back, then a shot is
      fired when the button is held, the attack timer exceeds the cooldown and the
      grace period is over. A shot resets the timer, snaps the turret to full recoil and
      spawns a player bullet at the tank heading for the cursor. The timer then gains
      the frame time `delta`, shot or not. */
  function PlayerFire(t: Tank, w: Window, c: Vec2, pressed: bool, pastGrace: bool,
                      delta: real, len: Vec2 -> real): (r: Fired)
    requires IsLength(len)
    ensures r.shot.Some? <==> pressed && t.attackTimer > FIRE_COOLDOWN && pastGrace
    ensures r.shot.Some? ==>
      && r.tank.attackTimer == delta && r.tank.turretX == RECOIL_X
      && r.shot.value == Bullet(t.pos, Unit(Sub(CursorInWorld(w, c), t.pos), len), FromPlayer)
    ensures r.shot.None? ==>
      r.tank.attackTimer == t.attackTimer + delta && r.tank.turretX == Ease(t.turretX)
    ensures r.tank == t.(attackTimer := r.tank.attackTimer, turretX := r.tank.turretX)
  {
    var mouse := MouseCoords(w, c);
    var size := Vec2(w.width, w.height);
    var eased := t.(turretX := Ease(t.turretX));
    if pressed && t.attackTimer > FIRE_COOLDOWN && pastGrace then
      var dir := Unit(Sub(Sub(mouse, t.pos), Vec2(size.x / 2.0, size.y / 2.0)), len);
      assert Sub(Sub(mouse, t.pos), Vec2(size.x / 2.0, size.y / 2.0)) == Sub(CursorInWorld(w, c), t.pos);
      var fired := eased.(attackTimer := 0.0, turretX := RECOIL_X);
      Fired(fired.(attackTimer := fired.attackTimer + delta), Some(Bullet(t.pos, dir, FromPlayer)))
    else
      Fired(eased.(attackTimer := eased.attackTimer + delta), None)
  }

  /** A player bullet flies straight at the point under the cursor: its direction has
      length one, and the distance to the cursor times it is the offset to the cursor. */
  lemma PlayerAimsAtCursor(t: Tank, w: Window, c: Vec2, delta: real, len: Vec2 -> real)
    requires IsLength(len)
    requires t.attackTimer > FIRE_COOLDOWN
    requires CursorInWorld(w, c) != t.pos
    ensures var r := PlayerFire(t, w, c, true, true, delta, len);
      var d := Sub(CursorInWorld(w, c), t.pos);
      r.shot.Some? && len(r.shot.value.dir) == 1.0 && Scale(r.shot.value.dir, len(d)) == d
  {
    var d := Sub(CursorInWorld(w, c), t.pos);
    assert d != Zero;
    UnitHasLengthOne(len, d);
  }

  function Sum(ds: seq<real>): real {
    if ds == [] then 0.0 else ds[0] + Sum(ds[1..])
  }

  /** Ticks of `mouse_button_input` with the button held past the grace period and the
      cursor still: the tank afterwards and the number of shots fired. */
  function HoldFire(t: Tank, w: Window, c: Vec2, ds: seq<real>, len: Vec2 -> real): (Tank, nat)
    requires IsLength(len)
    decreases |ds|
  {
    if ds == [] then (t, 0)
    else
      var f := PlayerFire(t, w, c, true, true, ds[0], len);
      var (u, n) := HoldFire(f.tank, w, c, ds[1..], len);
      (u, n + if f.shot.Some? then 1 else 0)
  }

  /** The fire rate: every shot consumes more than FIRE_COOLDOWN of accumulated frame
      time, so over any run of ticks the shots times the cooldown, plus what is left on
      the timer, never exceed the starting timer plus the elapsed time. */
  lemma {:induction false} FireRate(t: Tank, w: Window, c: Vec2, ds: seq<real>, len: Vec2 -> real)
    requires IsLength(len)
    ensures var (u, n) := HoldFire(t, w, c, ds, len);
      FIRE_COOLDOWN * n as real + u.attackTimer <= t.attackTimer + Sum(ds)
    decreases |ds|
  {
    if ds != [] {
      var f := PlayerFire(t, w, c, true, true, ds[0], len);
      FireRate(f.tank, w, c, ds[1..], len);
    }
  }

  /** One AI tank aiming at one player in `ai_rotate`: the turret eases back, then, if
      the attack timer is negative and the grace period is over, the timer is reset to
      `gen_range(5..=14) / 10` (here `draw / 10`), the turret snaps to full recoil and an
      AI bullet is spawned at the tank heading for the player. Past the grace period the
      timer then loses the frame time `delta`. */
  function AiShot(t: Tank, player: Vec2, pastGrace: bool, delta: real, draw: int,
                  len: Vec2 -> real): (r: Fired)
    requires IsLength(len)
    requires 5 <= draw <= 14
    ensures r.shot.Some? <==> t.attackTimer < 0.0 && pastGrace
    ensures r.shot.Some? ==>
      && r.tank.attackTimer == draw as real / 10.0 - delta && r.tank.turretX == RECOIL_X
      && r.shot.value == Bullet(t.pos, Unit(Sub(player, t.pos), len), FromAi)
      && 0.5 <= r.tank.attackTimer + delta <= 1.4
    ensures RECOIL_X <= t.turretX <= TURRET_REST ==> RECOIL_X <= r.tank.turretX <= TURRET_REST
    ensures r.shot.None? ==>
      && r.tank.attackTimer == (if pastGrace then t.attackTimer - delta else t.attackTimer)
      && r.tank.turretX == Ease(t.turretX)
    ensures r.tank == t.(attackTimer := r.tank.attackTimer, turretX := r.tank.turretX)
  {
    var eased := t.(turretX := Ease(t.turretX));
    var (u, shot) :=
      if eased.attackTimer < 0.0 && pastGrace then
        (eased.(attackTimer := draw as real / 10.0, turretX := RECOIL_X),
         Some(Bullet(t.pos, Unit(Sub(player, t.pos), len), FromAi)))
      else (eased, None);
    Fired(if pastGrace then u.(attackTimer := u.attackTimer - delta) else u, shot)
  }

  /** A tank after its turn at a gun, and the bullets it fired, in order. */
  datatype Aimed = Aimed(tank: Tank, shots: seq<Bullet>)

  function ShotList(s: Option<Bullet>): seq<Bullet> {
    match s
    case None => []
    case Some(b) => [b]
  }

  /** An active AI's loop over the players: one `AiShot` per player in order, the draw
      for player j being `draw(j)`. */
  function Engage(t: Tank, players: seq<Vec2>, pastGrace: bool, delta: real,
                  draw: int -> int, len: Vec2 -> real): (r: Aimed)
    requires IsLength(len)
    requires forall j :: 5 <= draw(j) <= 14
    ensures |r.shots| <= |players|
    ensures forall b :: b in r.shots ==> b.pos == t.pos && b.from == FromAi
    ensures forall b :: b in r.shots ==>
      exists j :: 0 <= j < |players| && b.dir == Unit(Sub(players[j], t.pos), len)
    ensures !pastGrace ==> r.shots == [] && r.tank.attackTimer == t.attackTimer
    ensures pastGrace && t.attackTimer < 0.0 && |players| > 0 ==>
      |r.shots| > 0 && r.shots[0] == Bullet(t.pos, Unit(Sub(players[0], t.pos), len), FromAi)
    ensures RECOIL_X <= t.turretX <= TURRET_REST ==> RECOIL_X <= r.tank.turretX <= TURRET_REST
    ensures r.tank == t.(attackTimer := r.tank.attackTimer, turretX := r.tank.turretX)
    decreases |players|
  {
    if players == [] then Aimed(t, [])
    else
      var n := |players| - 1;
      var a := Engage(t, players[..n], pastGrace, delta, draw, len);
      var f := AiShot(a.tank, players[n], pastGrace, delta, draw(n), len);
      Aimed(f.tank, a.shots + ShotList(f.shot))
  }

  /** One AI tank in `ai_rotate`. An active AI aims at every player; if there is none it
      becomes inactive, having neither eased, fired nor counted down. An inactive AI
      eases its turret once and becomes active again if any player exists. */
  function AiTurn(t: Tank, players: seq<Vec2>, pastGrace: bool, delta: real,
                  draw: int -> int, len: Vec2 -> real): (r: Aimed)
    requires IsLength(len)
    requires t.controller.Ai?
    requires forall j :: 5 <= draw(j) <= 14
    ensures r.tank.controller.Ai? && (r.tank.controller.active <==> |players| > 0)
    ensures r.tank.controller == t.controller.(active := |players| > 0)
    ensures t.controller.active && players == [] ==>
      r.tank == t.(controller := t.controller.(active := false)) && r.shots == []
    ensures !t.controller.active ==>
      r.tank.turretX == Ease(t.turretX) && r.tank.attackTimer == t.attackTimer && r.shots == []
    ensures t.controller.active && pastGrace && t.attackTimer < 0.0 && |players| > 0 ==>
      |r.shots| > 0 && r.shots[0] == Bullet(t.pos, Unit(Sub(players[0], t.pos), len), FromAi)
    ensures |r.shots| <= |players|
    ensures forall b :: b in r.shots ==> b.pos == t.pos && b.from == FromAi
    ensures RECOIL_X <= t.turretX <= TURRET_REST ==> RECOIL_X <= r.tank.turretX <= TURRET_REST
    ensures r.tank == t.(attackTimer := r.tank.attackTimer, turretX := r.tank.turretX,
                         controller := r.tank.controller)
  {
    var c := t.controller;
    if c.active then
      var a := Engage(t, players, pastGrace, delta, draw, len);
      if |players| == 0 then Aimed(a.tank.(controller := c.(active := false)), a.shots) else a
    else
      var u := t.(turretX := Ease(t.turretX));
      Aimed(if |players| > 0 then u.(controller := c.(active := true)) else u, [])
  }

  /** The time a countdown loses over k ticks of delta each. */
  function Ticks(delta: real, k: nat): real {
    if k == 0 then 0.0 else Ticks(delta, k - 1) + delta
  }

  /** k ticks of delta are k·delta. */
  lemma {:induction false} TicksIsProduct(delta: real, k: nat)
    ensures Ticks(delta, k) == delta * k as real
  {
    if k > 0 {
      TicksIsProduct(delta, k - 1);
      var m := (k - 1) as real;
      assert k as real == m + 1.0;
      assert delta * (m + 1.0) == delta * m + delta;
    }
  }

  /** The attack timer over an active AI's loop past the grace period: with no shot it
      has lost delta once per player; after shots it holds the tenth of the draw for the
      last player shot at, less delta for that player and for each one after it. */
  lemma {:induction false} EngageTimer(t: Tank, players: seq<Vec2>, delta: real,
                                       draw: int -> int, len: Vec2 -> real)
    requires IsLength(len)
    requires forall j :: 5 <= draw(j) <= 14
    ensures var r := Engage(t, players, true, delta, draw, len);
      && (r.shots == [] ==> r.tank.attackTimer == t.attackTimer - Ticks(delta, |players|))
      && (r.shots != [] ==>
            exists j :: 0 <= j < |players| &&
              r.tank.attackTimer == draw(j) as real / 10.0 - Ticks(delta, |players| - j))
    decreases |players|
  {
    if players != [] {
      var n := |players| - 1;
      var a := Engage(t, players[..n], true, delta, draw, len);
      var f := AiShot(a.tank, players[n], true, delta, draw(n), len);
      var r := Engage(t, players, true, delta, draw, len);
      EngageTimer(t, players[..n], delta, draw, len);
      assert r == Aimed(f.tank, a.shots + ShotList(f.shot));
      if f.shot.Some? {
        assert r.tank.attackTimer == draw(n) as real / 10.0 - Ticks(delta, |players| - n);
      } else if a.shots != [] {
        var j :| 0 <= j < n && a.tank.attackTimer == draw(j) as real / 10.0 - Ticks(delta, n - j);
        assert r.tank.attackTimer == draw(j) as real / 10.0 - Ticks(delta, |players| - j);
      }
    }
  }

  /** The timer after a whole turn of an active AI that has a player to aim at, past the
      grace period, as `EngageTimer` states it for the loop. */
  lemma AiTurnTimer(t: Tank, players: seq<Vec2>, delta: real, draw: int -> int, len: Vec2 -> real)
    requires IsLength(len)
    requires t.controller.Ai? && t.controller.active && players != []
    requires forall j :: 5 <= draw(j) <= 14
    ensures var r := AiTurn(t, players, true, delta, draw, len);
      && (r.shots == [] ==> r.tank.attackTimer == t.attackTimer - Ticks(delta, |players|))
      && (r.shots != [] ==>
            exists j :: 0 <= j < |players| &&
              r.tank.attackTimer == draw(j) as real / 10.0 - Ticks(delta, |players| - j))
  {
    EngageTimer(t, players, delta, draw, len);
  }

  /** The AI never fires before the grace period ends. */
  lemma NoAiShotsBeforeGrace(t: Tank, players: seq<Vec2>, delta: real, draw: int -> int,
                             len: Vec2 -> real)
    requires IsLength(len)
    requires t.controller.Ai?
    requires forall j :: 5 <= draw(j) <= 14
    ensures AiTurn(t, players, false, delta, draw, len).shots == []
    ensures AiTurn(t, players, false, delta, draw, len).tank.attackTimer == t.attackTimer
  {
  }

  /** A player's gun turn keeps the tank invariant: only the timer and the turret
      change, and the turret stays between full recoil and rest. */
  lemma PlayerFireKeepsTankOk(t: Tank, w: Window, c: Vec2, pressed: bool, pastGrace: bool,
                              delta: real, len: Vec2 -> real)
    requires IsLength(len)
    requires TankOk(t)
    ensures TankOk(PlayerFire(t, w, c, pressed, pastGrace, delta, len).tank)
  {
    EaseStaysInRange(t.turretX);
  }

  /** An AI's gun turn keeps the tank invariant. */
  lemma AiTurnKeepsTankOk(t: Tank, players: seq<Vec2>, pastGrace: bool, delta: real,
                          draw: int -> int, len: Vec2 -> real)
    requires IsLength(len)
    requires t.controller.Ai?
    requires forall j :: 5 <= draw(j) <= 14
    requires TankOk(t)
    ensures TankOk(AiTurn(t, players, pastGrace, delta, draw, len).tank)
  {
  }
}
