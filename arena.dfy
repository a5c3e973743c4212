/** The game world of `src/main.rs` and its gameplay systems. The tanks and bullets
    that Bevy's queries iterate are sequences in query order, and `AiKilled.score` is
    a field; each system is a method that walks them as the system does and states
    the new world in terms of the per-entity functions of the other modules. Commands
    (spawns and despawns) take effect when the system returns. */
module Arena {
  import opened Vectors
  import opened Wrappers
  import opened Tanks
  import opened Game
  import opened Motion
  import opened Containment
  import opened Separation
  import opened Firing
  import opened Hits
  import opened Bullets

  /** A tank as `create_player` (ai false) or `create_enemy` (ai true) spawns it. */
  function SpawnTank(ai: bool): Tank {
    Spawn(NewTankBundle(SPAWN_HEALTH), if ai then Some(NewAiBundle()) else None, NewTurretBundle())
  }

  /** The tank positions, in query order. */
  function Positions(ts: seq<Tank>): seq<Vec2> {
    seq(|ts|, k requires 0 <= k < |ts| => ts[k].pos)
  }

  /** The positions of the player tanks, in query order (the `players` query of
      `ai_rotate`). */
  function PlayerPositions(ts: seq<Tank>): (ps: seq<Vec2>)
    ensures |ps| <= |ts|
    ensures forall p :: p in ps <==> exists k :: 0 <= k < |ts| && ts[k].controller.Player? && ts[k].pos == p
    decreases |ts|
  {
    if ts == [] then []
    else
      var last := ts[|ts| - 1];
      var pre := PlayerPositions(ts[..|ts| - 1]);
      assert forall k :: 0 <= k < |ts| - 1 ==> ts[..|ts| - 1][k] == ts[k];
      if last.controller.Player? then pre + [last.pos] else pre
  }

  /** `PlayerPositions` keeps query order: the positions of a run of tanks followed by
      another are those of the first run followed by those of the second. */
  lemma {:induction false} PlayerPositionsAppend(a: seq<Tank>, b: seq<Tank>)
    ensures PlayerPositions(a + b) == PlayerPositions(a) + PlayerPositions(b)
    decreases |b|
  {
    if b == [] {
      assert a + b == a;
    } else {
      PlayerPositionsAppend(a, b[..|b| - 1]);
      SplitLast(a, b);
    }
  }

  /** A single tank contributes its position exactly when it is a player. */
  lemma PlayerPositionsOne(t: Tank)
    ensures PlayerPositions([t]) == if t.controller.Player? then [t.pos] else []
  {
    assert [t][..0] == [];
  }

  /** The bullets `mouse_button_input` spawns, in tank order. */
  function PlayerShots(ts: seq<Tank>, w: Window, c: Vec2, pressed: bool, pastGrace: bool,
                       delta: real, len: Vec2 -> real): (bs: seq<Bullet>)
    requires IsLength(len)
    ensures |bs| <= |ts|
    ensures forall b :: b in bs ==> b.from == FromPlayer
    ensures !pressed || !pastGrace ==> bs == []
    decreases |ts|
  {
    if ts == [] then []
    else
      var last := ts[|ts| - 1];
      PlayerShots(ts[..|ts| - 1], w, c, pressed, pastGrace, delta, len)
        + if last.controller.Player? then ShotList(PlayerFire(last, w, c, pressed, pastGrace, delta, len).shot) else []
  }

  /** The bullets `ai_rotate` spawns, in tank order; tank k's j-th draw is `roll(k, j)`. */
  function AiShots(ts: seq<Tank>, players: seq<Vec2>, pastGrace: bool, delta: real,
                   roll: (int, int) -> int, len: Vec2 -> real): (bs: seq<Bullet>)
    requires IsLength(len)
    requires forall k, j :: 5 <= roll(k, j) <= 14
    ensures forall b :: b in bs ==> b.from == FromAi
    ensures !pastGrace ==> bs == []
    decreases |ts|
  {
    if ts == [] then []
    else
      var k := |ts| - 1;
      AiShots(ts[..k], players, pastGrace, delta, roll, len)
        + if ts[k].controller.Ai? then AiTurn(ts[k], players, pastGrace, delta, j => roll(k, j), len).shots else []
  }

  /** The loop of `mouse_button_input` over the player tanks. */
  method FireEach(ts: seq<Tank>, w: Window, c: Vec2, pressed: bool, pastGrace: bool, delta: real,
                  len: Vec2 -> real) returns (after: seq<Tank>, fired: seq<Bullet>)
    requires IsLength(len)
    ensures |after| == |ts|
    ensures forall k :: 0 <= k < |ts| ==>
      after[k] == if ts[k].controller.Player? then PlayerFire(ts[k], w, c, pressed, pastGrace, delta, len).tank else ts[k]
    ensures fired == PlayerShots(ts, w, c, pressed, pastGrace, delta, len)
  {
    after, fired := ts, [];
    var i := 0;
    while i < |ts|
      invariant 0 <= i <= |ts| == |after|
      invariant forall k :: 0 <= k < i ==>
        after[k] == if ts[k].controller.Player? then PlayerFire(ts[k], w, c, pressed, pastGrace, delta, len).tank else ts[k]
      invariant forall k :: i <= k < |ts| ==> after[k] == ts[k]
      invariant fired == PlayerShots(ts[..i], w, c, pressed, pastGrace, delta, len)
    {
      assert ts[..i + 1][..i] == ts[..i];
      if ts[i].controller.Player? {
        var f := PlayerFire(ts[i], w, c, pressed, pastGrace, delta, len);
        after := after[i := f.tank];
        fired := fired + ShotList(f.shot);
      }
      i := i + 1;
    }
    assert ts[..i] == ts;
  }

  /** The loop of `ai_rotate` over the AI tanks; tank k's j-th draw is `roll(k, j)`. */
  method TurnEach(ts: seq<Tank>, players: seq<Vec2>, pastGrace: bool, delta: real,
                  roll: (int, int) -> int, len: Vec2 -> real) returns (after: seq<Tank>, fired: seq<Bullet>)
    requires IsLength(len)
    requires forall k, j :: 5 <= roll(k, j) <= 14
    ensures |after| == |ts|
    ensures forall k :: 0 <= k < |ts| ==>
      after[k] == if ts[k].controller.Ai? then AiTurn(ts[k], players, pastGrace, delta, j => roll(k, j), len).tank else ts[k]
    ensures fired == AiShots(ts, players, pastGrace, delta, roll, len)
  {
    after, fired := ts, [];
    var i := 0;
    while i < |ts|
      invariant 0 <= i <= |ts| == |after|
      invariant forall k :: 0 <= k < i ==>
        after[k] == if ts[k].controller.Ai? then AiTurn(ts[k], players, pastGrace, delta, j => roll(k, j), len).tank else ts[k]
      invariant forall k :: i <= k < |ts| ==> after[k] == ts[k]
      invariant fired == AiShots(ts[..i], players, pastGrace, delta, roll, len)
    {
      assert ts[..i + 1][..i] == ts[..i];
      if ts[i].controller.Ai? {
        var turn := TakeAiTurn(ts[i], players, pastGrace, delta, j => roll(i, j), len);
        after := after[i := turn.tank];
        fired := fired + turn.shots;
      }
      i := i + 1;
    }
    assert ts[..i] == ts;
  }

  /** One AI tank's turn in `ai_rotate`, with the active AI's loop over the players
      written out. */
  method TakeAiTurn(t: Tank, players: seq<Vec2>, pastGrace: bool, delta: real,
                    draw: int -> int, len: Vec2 -> real) returns (turn: Aimed)
    requires IsLength(len)
    requires t.controller.Ai?
    requires forall j :: 5 <= draw(j) <= 14
    ensures turn == AiTurn(t, players, pastGrace, delta, draw, len)
  {
    if t.controller.active {
      var a := Aimed(t, []);
      var j := 0;
      while j < |players|
        invariant 0 <= j <= |players|
        invariant a == Engage(t, players[..j], pastGrace, delta, draw, len)
      {
        assert players[..j + 1][..j] == players[..j];
        var f := AiShot(a.tank, players[j], pastGrace, delta, draw(j), len);
        a := Aimed(f.tank, a.shots + ShotList(f.shot));
        j := j + 1;
      }
      assert players[..j] == players;
      if j == 0 {
        turn := Aimed(a.tank.(controller := t.controller.(active := false)), a.shots);
      } else {
        turn := a;
      }
    } else {
      var u := t.(turretX := Ease(t.turretX));
      if |players| > 0 {
        u := u.(controller := t.controller.(active := true));
      }
      turn := Aimed(u, []);
    }
  }

  /** The body of that inner loop for the tank at j: whether the hit is the one
      that first queues an AI's despawn. */
  method HitOne(fs: seq<Fate>, j: int, b: Bullet, len: Vec2 -> real)
    returns (after: seq<Fate>, fell: bool)
    requires IsLength(len)
    requires 0 <= j < |fs|
    ensures after == fs[j := Hit(fs[j], b, len)]
    ensures Kills(after) == Kills(fs) + if fell then 1 else 0
  {
    var f := Hit(fs[j], b, len);
    KillsUpdate(fs, j, f);
    fell := f.tank.controller.Ai? && f.doomed && !fs[j].doomed;
    after := fs[j := f];
  }


  /** One bullet tried against every tank, the inner loop of `hurt_tanks`: each fate
      takes the hit, and a kill is credited (modulo 256) when an AI's despawn is first
      queued. */
  method HitEach(fates: seq<Fate>, b: Bullet, score: int, len: Vec2 -> real)
    returns (after: seq<Fate>, credited: int)
    requires IsLength(len)
    ensures |after| == |fates|
    ensures forall k :: 0 <= k < |fates| ==> after[k] == Hit(fates[k], b, len)
    ensures Kills(after) >= Kills(fates)
    ensures credited == Bump(score, Kills(after) - Kills(fates))
  {
    after, credited := fates, score;
    ghost var gained: nat := 0;
    var j := 0;
    while j < |fates|
      invariant 0 <= j <= |fates| == |after|
      invariant forall k :: 0 <= k < j ==> after[k] == Hit(fates[k], b, len)
      invariant forall k :: j <= k < |fates| ==> after[k] == fates[k]
      invariant Kills(after) == Kills(fates) + gained
      invariant credited == Bump(score, gained)
    {
      var fell;
      after, fell := HitOne(after, j, b, len);
      if fell {
        credited := Incr(credited);
        gained := gained + 1;
      }
      j := j + 1;
    }
  }

  /** The two loops of `hurt_tanks`: every bullet is tried against every tank, bullet
      by bullet, and the kills are credited to the `u8` score. */
  method HitAll(ts: seq<Tank>, bs: seq<Bullet>, score: int, len: Vec2 -> real)
    returns (fates: seq<Fate>, credited: int)
    requires IsLength(len)
    requires 0 <= score < 256
    ensures fates == Outcome(ts, bs, len)
    ensures credited == AddScore(score, Kills(fates))
  {
    fates := seq(|ts|, k requires 0 <= k < |ts| => Fate(ts[k], false, 0));
    credited := score;
    var i := 0;
    while i < |bs|
      invariant 0 <= i <= |bs| && |fates| == |ts|
      invariant forall k {:trigger ts[k]} :: 0 <= k < |ts| ==> fates[k] == Absorb(ts[k], bs[..i], len)
      invariant credited == Bump(score, Kills(fates))
    {
      assert bs[..i + 1][..i] == bs[..i];
      ghost var before, c := Kills(fates), credited;
      fates, credited := HitEach(fates, bs[i], credited, len);
      BumpChain(score, before, Kills(fates), c, credited);
      i := i + 1;
    }
    assert bs[..i] == bs;
    BumpIsAddScore(score, Kills(fates));
  }

  class World {
    var tanks: seq<Tank>
    var bullets: seq<Bullet>
    /** `AiKilled.score`, a `u8`. */
    var score: int

    /** The world invariant: the score is a `u8` and every tank keeps `TankOk`. */
    ghost predicate Valid()
      reads this
    {
      0 <= score < 256 && forall k :: 0 <= k < |tanks| ==> TankOk(tanks[k])
    }

    /** The `Startup` systems and the `AiKilled` resource: one player and two AIs, all
        at health 4, no bullets, no kills. */
    constructor ()
      ensures Valid()
      ensures tanks == [SpawnTank(false), SpawnTank(true), SpawnTank(true)]
      ensures bullets == [] && score == 0
    {
      tanks := [SpawnTank(false), SpawnTank(true), SpawnTank(true)];
      bullets := [];
      score := 0;
    }

    /** `movement`: every player tank takes one `PlayerStep` with the held keys. */
    method Movement(keys: Keys, pastGrace: bool)
      requires Valid()
      modifies this
      ensures Valid()
      ensures |tanks| == |old(tanks)|
      ensures forall k :: 0 <= k < |tanks| ==>
            tanks[k] == (
              if old(tanks)[k].controller.Player? then PlayerStep(old(tanks)[k], keys, pastGrace) else old(tanks)[k])
      ensures bullets == old(bullets) && score == old(score)
    {
      var i := 0;
      while i < |tanks|
        invariant 0 <= i <= |tanks| == |old(tanks)|
        invariant forall k :: 0 <= k < i ==>
            tanks[k] == (
              if old(tanks)[k].controller.Player? then PlayerStep(old(tanks)[k], keys, pastGrace) else old(tanks)[k])
        invariant forall k :: i <= k < |tanks| ==> tanks[k] == old(tanks)[k]
        invariant Valid()
        invariant bullets == old(bullets) && score == old(score)
      {
        if tanks[i].controller.Player? {
          tanks := tanks[i := PlayerStep(tanks[i], keys, pastGrace)];
        }
        i := i + 1;
      }
    }

    /** `ai_movement`: every AI tank takes one `AiStep`; tank k's draws are
        `dirDraw(k)` and `stepDraw(k)`. */
    method AiMovement(pastGrace: bool, delta: real, dirDraw: int -> int, stepDraw: int -> int)
      requires Valid()
      requires forall k :: 0 <= dirDraw(k) <= 4 && 0 <= stepDraw(k) <= 110
      modifies this
      ensures Valid()
      ensures |tanks| == |old(tanks)|
      ensures forall k :: 0 <= k < |tanks| ==>
            tanks[k] == (
              if old(tanks)[k].controller.Ai?
              then AiStep(old(tanks)[k], pastGrace, delta, dirDraw(k), stepDraw(k)) else old(tanks)[k])
      ensures bullets == old(bullets) && score == old(score)
    {
      var i := 0;
      while i < |tanks|
        invariant 0 <= i <= |tanks| == |old(tanks)|
        invariant forall k :: 0 <= k < i ==>
            tanks[k] == (
              if old(tanks)[k].controller.Ai?
              then AiStep(old(tanks)[k], pastGrace, delta, dirDraw(k), stepDraw(k)) else old(tanks)[k])
        invariant forall k :: i <= k < |tanks| ==> tanks[k] == old(tanks)[k]
        invariant Valid()
        invariant bullets == old(bullets) && score == old(score)
      {
        if tanks[i].controller.Ai? {
          AiStepRanges(tanks[i], pastGrace, delta, dirDraw(i), stepDraw(i));
          tanks := tanks[i := AiStep(tanks[i], pastGrace, delta, dirDraw(i), stepDraw(i))];
        }
        i := i + 1;
      }
    }

    /** `keep_tanks_on_screen`: every tank is contained, after which all are in the
        arena. */
    method KeepTanksOnScreen()
      requires Valid()
      modifies this
      ensures Valid()
      ensures |tanks| == |old(tanks)|
      ensures forall k :: 0 <= k < |tanks| ==> tanks[k] == Contain(old(tanks)[k])
      ensures forall k :: 0 <= k < |tanks| ==> InArena(tanks[k].pos)
      ensures bullets == old(bullets) && score == old(score)
    {
      var i := 0;
      while i < |tanks|
        invariant 0 <= i <= |tanks| == |old(tanks)|
        invariant forall k :: 0 <= k < i ==> tanks[k] == Contain(old(tanks)[k])
        invariant forall k :: i <= k < |tanks| ==> tanks[k] == old(tanks)[k]
        invariant Valid()
        invariant bullets == old(bullets) && score == old(score)
      {
        ContainKeepsTankOk(tanks[i]);
        tanks := tanks[i := Contain(tanks[i])];
        i := i + 1;
      }
    }

    /** `collide_tanks`: the movements are computed from the positions at the start,
        then each tank is moved by its own. */
    method CollideTanks(len: Vec2 -> real)
      requires IsLength(len)
      requires Valid()
      modifies this
      ensures Valid()
      ensures |tanks| == |old(tanks)|
      ensures Positions(tanks) == Separated(Positions(old(tanks)), len)
      ensures forall k :: 0 <= k < |tanks| ==>
        tanks[k] == old(tanks)[k].(pos := Add(old(tanks)[k].pos, Separation.Movement(Positions(old(tanks)), len, k)))
      ensures bullets == old(bullets) && score == old(score)
    {
      var ps := Positions(tanks);
      var movements := ComputeMovements(ps, len);
      var i := 0;
      while i < |tanks|
        invariant 0 <= i <= |tanks| == |old(tanks)| == |ps|
        invariant forall k :: 0 <= k < i ==>
          tanks[k] == old(tanks)[k].(pos := Add(old(tanks)[k].pos, Separation.Movement(ps, len, k)))
        invariant forall k :: i <= k < |tanks| ==> tanks[k] == old(tanks)[k]
        invariant Valid()
        invariant bullets == old(bullets) && score == old(score)
      {
        tanks := tanks[i := tanks[i].(pos := Add(tanks[i].pos, movements[i]))];
        i := i + 1;
      }
    }

    /** `mouse_button_input`. Without a primary window, or with the cursor outside it,
        nothing happens. Otherwise every player tank takes its `PlayerFire` turn and
        the bullets fired are spawned. */
    method MouseButtonInput(window: Option<Window>, pressed: bool, pastGrace: bool, delta: real,
                            len: Vec2 -> real)
      requires IsLength(len)
      requires Valid()
      modifies this
      ensures Valid()
      ensures score == old(score)
      ensures window.None? || window.value.cursor.None? ==>
        tanks == old(tanks) && bullets == old(bullets)
      ensures window.Some? && window.value.cursor.Some? ==>
        var w, c := window.value, window.value.cursor.value;
        && |tanks| == |old(tanks)|
        && (forall k :: 0 <= k < |tanks| ==>
            tanks[k] == (
              if old(tanks)[k].controller.Player?
              then PlayerFire(old(tanks)[k], w, c, pressed, pastGrace, delta, len).tank else old(tanks)[k]))
        && bullets == old(bullets) + PlayerShots(old(tanks), w, c, pressed, pastGrace, delta, len)
    {
      if window.None? || window.value.cursor.None? {
        return;
      }
      var w, c := window.value, window.value.cursor.value;
      var after, fired := FireEach(tanks, w, c, pressed, pastGrace, delta, len);
      forall k | 0 <= k < |after| ensures TankOk(after[k]) {
        if tanks[k].controller.Player? {
          PlayerFireKeepsTankOk(tanks[k], w, c, pressed, pastGrace, delta, len);
        }
      }
      tanks := after;
      bullets := bullets + fired;
    }

    /** `ai_rotate`. Every AI tank takes its `AiTurn` against the player positions
        (which this system does not move); an active AI's loop over the players is
        written out. Tank k's j-th draw is `roll(k, j)`. */
    method AiRotate(pastGrace: bool, delta: real, roll: (int, int) -> int, len: Vec2 -> real)
      requires IsLength(len)
      requires Valid()
      requires forall k, j :: 5 <= roll(k, j) <= 14
      modifies this
      ensures Valid()
      ensures score == old(score)
      ensures |tanks| == |old(tanks)|
      ensures forall k :: 0 <= k < |tanks| ==>
            tanks[k] == (
              if old(tanks)[k].controller.Ai?
              then AiTurn(old(tanks)[k], PlayerPositions(old(tanks)), pastGrace, delta, j => roll(k, j), len).tank
              else old(tanks)[k])
      ensures bullets == old(bullets) + AiShots(old(tanks), PlayerPositions(old(tanks)), pastGrace, delta, roll, len)
    {
      var players := PlayerPositions(tanks);
      var after, fired := TurnEach(tanks, players, pastGrace, delta, roll, len);
      forall k | 0 <= k < |after| ensures TankOk(after[k]) {
        if tanks[k].controller.Ai? {
          AiTurnKeepsTankOk(tanks[k], players, pastGrace, delta, j => roll(k, j), len);
        }
      }
      tanks := after;
      bullets := bullets + fired;
    }

    /** `hurt_tanks`: every bullet is tried against every tank, bullet by bullet; a
        kill is credited when an AI's despawn is first queued; then the queued
        despawns of tanks and bullets take effect. */
    method HurtTanks(len: Vec2 -> real)
      requires IsLength(len)
      requires Valid()
      modifies this
      ensures Valid()
      ensures tanks == Living(Outcome(old(tanks), old(bullets), len))
      ensures bullets == Unspent(old(bullets), old(tanks), len)
      ensures score == AddScore(old(score), Kills(Outcome(old(tanks), old(bullets), len)))
    {
      var ts, bs := tanks, bullets;
      var fates, credited := HitAll(ts, bs, score, len);
      SurvivorsKeepTankOk(ts, bs, fates, len);
      tanks := Living(fates);
      bullets := Unspent(bs, ts, len);
      score := credited;
      assert forall k :: 0 <= k < |tanks| ==> tanks[k] in Living(fates);
    }

    /** `update_bullets`: every bullet advances. */
    method UpdateBullets()
      requires Valid()
      modifies this
      ensures Valid()
      ensures |bullets| == |old(bullets)|
      ensures forall k :: 0 <= k < |bullets| ==> bullets[k] == Advance(old(bullets)[k])
      ensures tanks == old(tanks) && score == old(score)
    {
      var i := 0;
      while i < |bullets|
        invariant 0 <= i <= |bullets| == |old(bullets)|
        invariant forall k :: 0 <= k < i ==> bullets[k] == Advance(old(bullets)[k])
        invariant forall k :: i <= k < |bullets| ==> bullets[k] == old(bullets)[k]
        invariant tanks == old(tanks) && score == old(score)
        invariant Valid()
      {
        bullets := bullets[i := Advance(bullets[i])];
        i := i + 1;
      }
    }

    /** `kill_bullets`: the despawn of every out-of-bounds bullet is queued and takes
        effect at the end. */
    method KillBullets()
      requires Valid()
      modifies this
      ensures Valid()
      ensures bullets == InBounds(old(bullets))
      ensures tanks == old(tanks) && score == old(score)
    {
      var kept: seq<Bullet> := [];
      var i := 0;
      while i < |bullets|
        invariant 0 <= i <= |bullets|
        invariant tanks == old(tanks) && score == old(score) && bullets == old(bullets)
        invariant kept == InBounds(bullets[..i])
      {
        assert bullets[..i + 1][..i] == bullets[..i];
        if !OutOfBounds(bullets[i]) {
          kept := kept + [bullets[i]];
        }
        i := i + 1;
      }
      assert bullets[..i] == bullets;
      bullets := kept;
    }
  }

  /** How a single fate update changes the kill count. */
  lemma {:induction false} KillsUpdate(fs: seq<Fate>, j: int, f: Fate)
    requires 0 <= j < |fs|
    ensures Kills(fs[j := f]) ==
      Kills(fs) - (if fs[j].tank.controller.Ai? && fs[j].doomed then 1 else 0)
                + (if f.tank.controller.Ai? && f.doomed then 1 else 0)
    decreases |fs|
  {
    var n := |fs| - 1;
    if j < n {
      KillsUpdate(fs[..n], j, f);
      assert fs[j := f][..n] == fs[..n][j := f];
    } else {
      assert fs[j := f][..n] == fs[..n];
    }
  }

  /** Credits for a first stretch of kills, then for the rest, are the credits for all. */
  lemma BumpChain(score: int, a: nat, k: nat, c0: int, c1: int)
    requires a <= k && c0 == Bump(score, a) && c1 == Bump(c0, k - a)
    ensures c1 == Bump(score, k)
  {
    BumpBump(score, a, k - a);
  }

  /** The tanks that survive a pass of `hurt_tanks` still keep `TankOk`. */
  lemma SurvivorsKeepTankOk(ts: seq<Tank>, bs: seq<Bullet>, fs: seq<Fate>, len: Vec2 -> real)
    requires IsLength(len)
    requires forall k :: 0 <= k < |ts| ==> TankOk(ts[k])
    requires |fs| == |ts| && forall k :: 0 <= k < |ts| ==> fs[k] == Absorb(ts[k], bs, len)
    ensures forall t :: t in Living(fs) ==> TankOk(t)
  {
    var r := Living(fs);
    forall t | t in r ensures TankOk(t) {
      var f :| f in fs && !f.doomed && f.tank == t;
      var m :| 0 <= m < |fs| && fs[m] == f;
      AbsorbOutcome(ts[m], bs, len);
    }
  }
}
