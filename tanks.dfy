/** The tank records of `src/tanks.rs`: the sizes, the components a tank carries
    (velocity, attack timer, health, and for an AI its active flag, step counter and
    wander direction) and the values the bundle constructors start them with. */
module Tanks {
  import opened Vectors
  import opened Wrappers

  /** Thrust added to a velocity axis per tick while a direction is held. */
  const TANK_SPEED: real := 2.0 / 3.0
  /** Radius of a tank's body. */
  const TANK_SIZE: real := 20.0
  const TURRET_SIZE: real := 16.0
  /** Local x of the turret when it is not recoiling. */
  const TURRET_REST: real := TANK_SIZE + 4.0

  /** glam's `Vec3`, used by transforms. */
  datatype Vec3 = Vec3(x: real, y: real, z: real)

  /** The parts of a Bevy `Transform` the bundles set (rotation stays the identity). */
  datatype Transform = Transform(translation: Vec3, scale: Vec3)

  const DefaultScale: Vec3 := Vec3(1.0, 1.0, 1.0)

  /** `Vec3::truncate`: drop z. */
  function Truncate(v: Vec3): Vec2 { Vec2(v.x, v.y) }

  /** Maps a point of a child's local space into its parent's space. */
  function Apply(t: Transform, p: Vec3): Vec3 {
    Vec3(p.x * t.scale.x + t.translation.x,
         p.y * t.scale.y + t.translation.y,
         p.z * t.scale.z + t.translation.z)
  }

  /** `Player` or `Ai`, with the three AI-only components (`Active`, `Steps`,
      `DirectionAi`). `direction` is a `u8`. */
  datatype Controller =
    | Player
    | Ai(active: bool, steps: real, direction: int)

  /** The state of one tank as the gameplay systems see it: the xy part of its
      translation, `Velocity`, `Health` (a `u8`), `AttackTimer`, the local x of its
      turret, and whether it is driven by the player or an AI. */
  datatype Tank = Tank(pos: Vec2, vel: Vec2, health: int, attackTimer: real,
                       turretX: real, controller: Controller)

  datatype TankBundle = TankBundle(radius: real, transform: Transform, attackTimer: real,
                                   health: int, velocity: Vec2)

  datatype AiBundle = AiBundle(active: bool, steps: real, direction: int)

  datatype TurretBundle = TurretBundle(transform: Transform)

  datatype BearingBundle = BearingBundle(transform: Transform)

  /** `TankBundle::new(.., health)`. */
  function NewTankBundle(health: int): TankBundle
    requires 0 <= health < 256
  {
    TankBundle(TANK_SIZE, Transform(Vec3(0.0, 0.0, 1.0), DefaultScale), 0.0, health, Zero)
  }

  /** `AiBundle::new()`. */
  function NewAiBundle(): AiBundle {
    AiBundle(true, 0.0, 0)
  }

  /** `TurretBundle::new()`. */
  function NewTurretBundle(): TurretBundle {
    TurretBundle(Transform(Vec3(TURRET_REST, 0.0, -1.0), Vec3(TURRET_SIZE, TURRET_SIZE, 0.0)))
  }

  /** `BearingBundle::new()`. */
  function NewBearingBundle(): BearingBundle {
    BearingBundle(Transform(Vec3(0.0, 0.0, 0.0), DefaultScale))
  }

  /** The tank that a tank bundle, optionally extended by an AI bundle, and its turret
      make up once spawned. */
  function Spawn(b: TankBundle, ai: Option<AiBundle>, turret: TurretBundle): Tank {
    Tank(Truncate(b.transform.translation), b.velocity, b.health, b.attackTimer,
         turret.transform.translation.x,
         match ai
         case None => Player
         case Some(a) => Ai(a.active, a.steps, a.direction))
  }

  /** A player tank fresh from its bundles: health `health`, at the origin, at rest,
      with its attack timer at 0 and its turret at rest. */
  lemma NewPlayerTank(health: int)
    requires 0 <= health < 256
    ensures var t := Spawn(NewTankBundle(health), None, NewTurretBundle());
      t == Tank(Zero, Zero, health, 0.0, TURRET_REST, Player)
  {
  }

  /** An AI tank fresh from its bundles: as a player tank, and active, with zero steps
      left and wander direction 0. */
  lemma NewAiTank(health: int)
    requires 0 <= health < 256
    ensures var t := Spawn(NewTankBundle(health), Some(NewAiBundle()), NewTurretBundle());
      t == Tank(Zero, Zero, health, 0.0, TURRET_REST, Ai(true, 0.0, 0))
  {
  }

  /** The bearing neither moves nor scales what hangs under it, so the turret sits
      TURRET_REST in front of the tank centre, below the body. */
  lemma BearingIsIdentity(p: Vec3)
    ensures Apply(NewBearingBundle().transform, p) == p
    ensures Apply(NewBearingBundle().transform, Apply(NewTurretBundle().transform, Vec3(0.0, 0.0, 0.0)))
            == Vec3(TURRET_REST, 0.0, -1.0)
  {
    var bearing := NewBearingBundle().transform;
    assert bearing.translation == Vec3(0.0, 0.0, 0.0) && bearing.scale == Vec3(1.0, 1.0, 1.0);
    var q := Apply(bearing, p);
    assert q.x == p.x && q.y == p.y && q.z == p.z;
    var r := Apply(NewTurretBundle().transform, Vec3(0.0, 0.0, 0.0));
    assert r == Vec3(TURRET_REST, 0.0, -1.0);
  }

  /** The invariant every live tank keeps: a `u8` health of at least 1 (a tank at 1 is
      despawned rather than decremented), a turret between full recoil and rest, and
      an AI direction in 0..=4. */
  ghost predicate TankOk(t: Tank) {
    && 1 <= t.health < 256
    && TURRET_REST - 10.0 <= t.turretX <= TURRET_REST
    && (t.controller.Ai? ==> 0 <= t.controller.direction <= 4)
  }
}
