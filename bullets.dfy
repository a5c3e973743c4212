/** Bullet flight, the per-bullet bodies of `update_bullets` and `kill_bullets` in
    `src/main.rs`: a bullet advances ten times its direction per fixed tick, and one
    that has left the 800×600 arena is despawned. */
module Bullets {
  import opened Vectors
  import opened Wrappers
  import opened Game

  /** `update_bullets` for one bullet. */
  function Advance(b: Bullet): (r: Bullet)
    ensures r.dir == b.dir && r.from == b.from
    ensures Sub(r.pos, b.pos) == Scale(b.dir, BULLET_SPEED)
  {
    b.(pos := Vec2(b.pos.x + b.dir.x * BULLET_SPEED, b.pos.y + b.dir.y * BULLET_SPEED))
  }

  /** A bullet covers BULLET_SPEED times the length of its direction per tick: exactly
      BULLET_SPEED for a bullet fired along a normalised direction. */
  lemma AdvanceDistance(len: Vec2 -> real, b: Bullet)
    requires IsLength(len)
    ensures len(Sub(Advance(b).pos, b.pos)) == BULLET_SPEED * len(b.dir)
    ensures len(b.dir) == 1.0 ==> len(Sub(Advance(b).pos, b.pos)) == BULLET_SPEED
  {
    assert len(Scale(b.dir, BULLET_SPEED)) == Abs(BULLET_SPEED) * len(b.dir);
  }

  /** `kill_bullets`' test: the centre is beyond half the arena width or height, that
      is, outside the closed 800×600 rectangle centred on the origin. */
  predicate OutOfBounds(b: Bullet)
    ensures OutOfBounds(b) <==>
      !(-GAME_WIDTH / 2.0 <= b.pos.x <= GAME_WIDTH / 2.0 && -GAME_HEIGHT / 2.0 <= b.pos.y <= GAME_HEIGHT / 2.0)
  {
    Abs(b.pos.x) > GAME_WIDTH / 2.0 || Abs(b.pos.y) > GAME_HEIGHT / 2.0
  }

  /** The bullets `kill_bullets` keeps, in their order. */
  function InBounds(bs: seq<Bullet>): (r: seq<Bullet>)
    ensures |r| <= |bs|
    ensures forall b :: b in r <==> b in bs && !OutOfBounds(b)
    decreases |bs|
  {
    if bs == [] then []
    else
      var last := bs[|bs| - 1];
      var kept := InBounds(bs[..|bs| - 1]);
      assert bs == bs[..|bs| - 1] + [last];
      if OutOfBounds(last) then kept else kept + [last]
  }

  /** Keeping is done bullet by bullet in order: the bullets kept from two runs are
      those kept from the first followed by those kept from the second. With
      `InBoundsOne` this pins `InBounds` down completely. */
  lemma {:induction false} InBoundsAppend(a: seq<Bullet>, b: seq<Bullet>)
    ensures InBounds(a + b) == InBounds(a) + InBounds(b)
    decreases |b|
  {
    if b == [] {
      assert a + b == a;
    } else {
      InBoundsAppend(a, b[..|b| - 1]);
      SplitLast(a, b);
      InBoundsLast(a + b);
      InBoundsLast(b);
    }
  }

  lemma InBoundsLast(bs: seq<Bullet>)
    requires bs != []
    ensures var last := bs[|bs| - 1];
      InBounds(bs) == InBounds(bs[..|bs| - 1]) + if OutOfBounds(last) then [] else [last]
  {
  }

  /** A single bullet is kept exactly when it is in bounds. */
  lemma InBoundsOne(x: Bullet)
    ensures InBounds([x]) == if OutOfBounds(x) then [] else [x]
  {
    assert [x][..0] == [];
  }

  /** A bullet fired from an in-arena point survives the despawn check of the tick it
      is fired on, whatever its direction. */
  lemma FreshBulletSurvives(b: Bullet)
    requires Abs(b.pos.x) <= GAME_WIDTH / 2.0 && Abs(b.pos.y) <= GAME_HEIGHT / 2.0
    ensures InBounds([b]) == [b]
  {
    assert [b][..0] == [];
  }
}
