/** The constants and the small components of `src/main.rs`: the arena size, bullet
    size and knockback, which side fired a bullet, and the kill score. */
module Game {
  import opened Vectors
  import opened Tanks

  const BULLET_SIZE: real := 6.0
  const KNOCKBACK: real := 5.0
  const GAME_WIDTH: real := 800.0
  const GAME_HEIGHT: real := 600.0

  /** Distance per fixed tick that a bullet covers along its direction. */
  const BULLET_SPEED: real := 10.0

  /** Every tank spawns with this health (`create_player`, `create_enemy`). */
  const SPAWN_HEALTH: int := 4

  /** `TurretOf`: the side whose turret fired a bullet. */
  datatype TurretOf = FromPlayer | FromAi

  /** A bullet entity: the xy of its translation, its `Direction`, and `Bullet.from`. */
  datatype Bullet = Bullet(pos: Vec2, dir: Vec2, from: TurretOf)

  /** `AiKilled.score` is a `u8`; `+=` wraps modulo 256 (the release-build behaviour). */
  function AddScore(score: int, k: nat): (r: int)
    requires 0 <= score < 256
    ensures 0 <= r < 256
    ensures score + k < 256 ==> r == score + k
  {
    (score + k) % 256
  }

  /** `score += 1` on a `u8`: 255 wraps to 0. */
  function Incr(score: int): int {
    if score == 255 then 0 else score + 1
  }

  /** One increment of the `u8` is adding one modulo 256. */
  lemma IncrIsAddScore(score: int)
    requires 0 <= score < 256
    ensures Incr(score) == AddScore(score, 1)
  {
  }

  /** `n` increments one after the other. */
  function Bump(score: int, n: nat): int
    decreases n
  {
    if n == 0 then score else Incr(Bump(score, n - 1))
  }

  /** Incrementing one at a time is adding at once, modulo 256. */
  lemma {:induction false} BumpIsAddScore(score: int, n: nat)
    requires 0 <= score < 256
    ensures Bump(score, n) == AddScore(score, n)
    decreases n
  {
    if n > 0 {
      BumpIsAddScore(score, n - 1);
      var x := (score + n - 1) % 256;
      var q := (score + n - 1) / 256;
      assert score + n - 1 == 256 * q + x;
      if x == 255 {
        assert score + n == 256 * (q + 1) + 0;
      } else {
        assert score + n == 256 * q + (x + 1);
      }
    }
  }

  /** Two runs of increments make one. */
  lemma {:induction false} BumpBump(score: int, a: nat, b: nat)
    ensures Bump(Bump(score, a), b) == Bump(score, a + b)
    decreases b
  {
    if b > 0 {
      BumpBump(score, a, b - 1);
    }
  }
}
