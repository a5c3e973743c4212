/** Bullet hits, the per-tank and per-bullet logic of `hurt_tanks` in `src/main.rs`.
    A bullet strikes every tank of the other side whose centre is closer than
    TANK_SIZE + BULLET_SIZE: the tank is knocked back by KNOCKBACK away from the
    bullet and loses one health, or, at health 1, is despawned. Despawns are
    commands, applied after the system has run, so a struck bullet goes on striking
    other tanks and a doomed tank goes on being struck by later bullets in the same
    pass. */
module Hits {
  import opened Vectors
  import opened Tanks
  import opened Wrappers
  import opened Game

  /** Bullets hit tanks closer than this. */
  const HIT_RADIUS: real := TANK_SIZE + BULLET_SIZE

  /** Player bullets hit AIs and AI bullets hit players; nothing hits its own side. */
  predicate Opposes(b: Bullet, t: Tank) {
    match b.from
    case FromPlayer => t.controller.Ai?
    case FromAi => t.controller.Player?
  }

  /** The bullet strikes the tank: it is from the other side and its centre lies within
      HIT_RADIUS of the tank's. A tank is never struck by a bullet of its own side. */
  predicate Strikes(b: Bullet, t: Tank, len: Vec2 -> real)
    requires IsLength(len)
    ensures Strikes(b, t, len) ==> (b.from == FromPlayer <==> t.controller.Ai?)
    ensures Strikes(b, t, len) ==> len(Sub(b.pos, t.pos)) < HIT_RADIUS
  {
    DistanceSymmetric(len, t.pos, b.pos);
    Opposes(b, t) && len(Sub(t.pos, b.pos)) < HIT_RADIUS
  }

  /** The velocity added to a struck tank: KNOCKBACK along the direction from the
      bullet to the tank. */
  function Knockback(t: Tank, b: Bullet, len: Vec2 -> real): Vec2
    requires IsLength(len)
  {
    Scale(Unit(Sub(t.pos, b.pos), len), KNOCKBACK)
  }

  /** A knockback pushes the tank straight away from the bullet with length KNOCKBACK
      (none when the bullet sits exactly on the tank's centre). */
  lemma KnockbackAway(t: Tank, b: Bullet, len: Vec2 -> real)
    requires IsLength(len)
    requires t.pos != b.pos
    ensures len(Knockback(t, b, len)) == KNOCKBACK
    ensures Scale(Knockback(t, b, len), len(Sub(t.pos, b.pos)) / KNOCKBACK) == Sub(t.pos, b.pos)
  {
    var d := Sub(t.pos, b.pos);
    var u := Unit(d, len);
    UnitHasLengthOne(len, d);
    assert len(Scale(u, KNOCKBACK)) == Abs(KNOCKBACK) * len(u);
    ScaleScale(u, KNOCKBACK, len(d) / KNOCKBACK);
    assert KNOCKBACK * (len(d) / KNOCKBACK) == len(d);
  }

  /** What a pass does to one tank: the tank, whether a hit at health 1 has queued its
      despawn, and how many such hits there were. */
  datatype Fate = Fate(tank: Tank, doomed: bool, fatal: nat)

  /** One bullet against one tank, as in the inner loop of `hurt_tanks`. */
  function Hit(f: Fate, b: Bullet, len: Vec2 -> real): (r: Fate)
    requires IsLength(len)
    ensures r.tank == f.tank.(vel := r.tank.vel, health := r.tank.health)
    ensures !Strikes(b, f.tank, len) ==> r == f
    ensures 1 <= f.tank.health ==> 1 <= r.tank.health <= f.tank.health
    ensures f.doomed ==> r.doomed
    ensures r.fatal == f.fatal || (r.fatal == f.fatal + 1 && r.doomed && r.tank.health == f.tank.health <= 1)
  {
    if Strikes(b, f.tank, len) then
      var t := f.tank.(vel := Add(f.tank.vel, Knockback(f.tank, b, len)));
      if t.health > 1 then Fate(t.(health := t.health - 1), f.doomed, f.fatal)
      else Fate(t, true, f.fatal + 1)
    else f
  }

  /** A tank after every bullet of the pass, in bullet order. */
  function Absorb(t: Tank, bs: seq<Bullet>, len: Vec2 -> real): (r: Fate)
    requires IsLength(len)
    ensures r.tank == t.(vel := r.tank.vel, health := r.tank.health)
    ensures r.fatal <= |bs|
    ensures r.doomed <==> r.fatal > 0
    decreases |bs|
  {
    if bs == [] then Fate(t, false, 0)
    else Hit(Absorb(t, bs[..|bs| - 1], len), bs[|bs| - 1], len)
  }

  /** How many of the bullets strike the tank (position and side never change during
      the pass, so this is fixed up front). */
  function StrikeCount(t: Tank, bs: seq<Bullet>, len: Vec2 -> real): (n: nat)
    requires IsLength(len)
    ensures n <= |bs|
    decreases |bs|
  {
    if bs == [] then 0
    else StrikeCount(t, bs[..|bs| - 1], len) + if Strikes(bs[|bs| - 1], t, len) then 1 else 0
  }

  /** The sum of the knockbacks of the striking bullets. */
  function KnockSum(t: Tank, bs: seq<Bullet>, len: Vec2 -> real): Vec2
    requires IsLength(len)
    decreases |bs|
  {
    if bs == [] then Zero
    else
      var last := bs[|bs| - 1];
      Add(KnockSum(t, bs[..|bs| - 1], len), if Strikes(last, t, len) then Knockback(t, last, len) else Zero)
  }

  /** The outcome of a pass for a tank with health h struck s times: health goes down
      by one per strike but never below 1; the despawn is queued exactly when
      s >= h; the strikes that landed at health 1 number s - h + 1; all knockbacks
      add up; and position, timer, turret and side are untouched. */
  lemma {:induction false} AbsorbOutcome(t: Tank, bs: seq<Bullet>, len: Vec2 -> real)
    requires IsLength(len)
    requires 1 <= t.health
    ensures var f := Absorb(t, bs, len); var s := StrikeCount(t, bs, len);
      && f.tank == t.(vel := f.tank.vel, health := f.tank.health)
      && f.tank.health == (if s < t.health then t.health - s else 1)
      && (f.doomed <==> s >= t.health)
      && f.fatal == (if s >= t.health then s - t.health + 1 else 0)
      && f.tank.vel == Add(t.vel, KnockSum(t, bs, len))
    decreases |bs|
  {
    if bs == [] {
      AddZero(t.vel);
    } else {
      var pre := bs[..|bs| - 1];
      AbsorbOutcome(t, pre, len);
      var f := Absorb(t, pre, len);
      assert Strikes(bs[|bs| - 1], f.tank, len) == Strikes(bs[|bs| - 1], t, len);
      var k := if Strikes(bs[|bs| - 1], t, len) then Knockback(t, bs[|bs| - 1], len) else Zero;
      AddZero(f.tank.vel);
      assert Add(Add(t.vel, KnockSum(t, pre, len)), k) == Add(t.vel, Add(KnockSum(t, pre, len), k));
    }
  }

  /** No friendly fire: bullets of a tank's own side leave it exactly as it was. */
  lemma {:induction false} NoFriendlyFire(t: Tank, bs: seq<Bullet>, len: Vec2 -> real)
    requires IsLength(len)
    requires forall i :: 0 <= i < |bs| ==> !Opposes(bs[i], t)
    ensures Absorb(t, bs, len) == Fate(t, false, 0)
    decreases |bs|
  {
    if bs != [] {
      NoFriendlyFire(t, bs[..|bs| - 1], len);
    }
  }

  /** The fates of all tanks after a pass over the bullets. */
  function Outcome(ts: seq<Tank>, bs: seq<Bullet>, len: Vec2 -> real): seq<Fate>
    requires IsLength(len)
  {
    seq(|ts|, k requires 0 <= k < |ts| => Absorb(ts[k], bs, len))
  }

  /** The tanks whose despawn was not queued, in order. */
  function Living(fs: seq<Fate>): (ts: seq<Tank>)
    ensures |ts| <= |fs|
    ensures forall t :: t in ts <==> exists f :: f in fs && !f.doomed && f.tank == t
    decreases |fs|
  {
    if fs == [] then []
    else
      var last := fs[|fs| - 1];
      assert fs == fs[..|fs| - 1] + [last];
      if last.doomed then Living(fs[..|fs| - 1]) else Living(fs[..|fs| - 1]) + [last.tank]
  }

  /** The survivors are taken fate by fate in order: those of two runs of fates are
      those of the first followed by those of the second. */
  lemma {:induction false} LivingAppend(a: seq<Fate>, b: seq<Fate>)
    ensures Living(a + b) == Living(a) + Living(b)
    decreases |b|
  {
    if b == [] {
      assert a + b == a;
    } else {
      LivingAppend(a, b[..|b| - 1]);
      SplitLast(a, b);
    }
  }

  /** A single fate survives exactly when its despawn was not queued. */
  lemma LivingOne(f: Fate)
    ensures Living([f]) == if f.doomed then [] else [f.tank]
  {
    assert [f][..0] == [];
  }

  predicate StruckAny(b: Bullet, ts: seq<Tank>, len: Vec2 -> real)
    requires IsLength(len)
  {
    exists k :: 0 <= k < |ts| && Strikes(b, ts[k], len)
  }

  /** The bullets whose despawn was not queued: those that struck no tank. */
  function Unspent(bs: seq<Bullet>, ts: seq<Tank>, len: Vec2 -> real): (r: seq<Bullet>)
    requires IsLength(len)
    ensures |r| <= |bs|
    ensures forall b :: b in r <==> b in bs && !StruckAny(b, ts, len)
    decreases |bs|
  {
    if bs == [] then []
    else
      var last := bs[|bs| - 1];
      assert bs == bs[..|bs| - 1] + [last];
      if StruckAny(last, ts, len) then Unspent(bs[..|bs| - 1], ts, len)
      else Unspent(bs[..|bs| - 1], ts, len) + [last]
  }

  /** The unspent bullets are taken bullet by bullet in order. */
  lemma {:induction false} UnspentAppend(a: seq<Bullet>, b: seq<Bullet>, ts: seq<Tank>, len: Vec2 -> real)
    requires IsLength(len)
    ensures Unspent(a + b, ts, len) == Unspent(a, ts, len) + Unspent(b, ts, len)
    decreases |b|
  {
    if b == [] {
      assert a + b == a;
    } else {
      UnspentAppend(a, b[..|b| - 1], ts, len);
      SplitLast(a, b);
      UnspentLast(a + b, ts, len);
      UnspentLast(b, ts, len);
    }
  }

  lemma UnspentLast(bs: seq<Bullet>, ts: seq<Tank>, len: Vec2 -> real)
    requires IsLength(len)
    requires bs != []
    ensures var last := bs[|bs| - 1];
      Unspent(bs, ts, len) == Unspent(bs[..|bs| - 1], ts, len) + if StruckAny(last, ts, len) then [] else [last]
  {
  }

  /** A single bullet stays exactly when it struck no tank. */
  lemma UnspentOne(x: Bullet, ts: seq<Tank>, len: Vec2 -> real)
    requires IsLength(len)
    ensures Unspent([x], ts, len) == if StruckAny(x, ts, len) then [] else [x]
  {
    assert [x][..0] == [];
  }

  /** The kills credited as the system is written: one per player-bullet hit on an AI
      at health 1, even on an AI whose despawn is already queued. */
  function WrittenCredits(fs: seq<Fate>): (n: nat)
    ensures forall k :: 0 <= k < |fs| && fs[k].tank.controller.Ai? ==> fs[k].fatal <= n
    ensures (forall k :: 0 <= k < |fs| ==> fs[k].tank.controller.Player? || fs[k].fatal == 0) ==> n == 0
    decreases |fs|
  {
    if fs == [] then 0
    else
      var last := fs[|fs| - 1];
      WrittenCredits(fs[..|fs| - 1]) + if last.tank.controller.Ai? then last.fatal else 0
  }

  /** The kills as intended: one per AI destroyed. */
  function Kills(fs: seq<Fate>): (n: nat)
    ensures n <= |fs|
    ensures n == 0 <==> forall k :: 0 <= k < |fs| ==> !(fs[k].tank.controller.Ai? && fs[k].doomed)
    decreases |fs|
  {
    if fs == [] then 0
    else
      var last := fs[|fs| - 1];
      Kills(fs[..|fs| - 1]) + if last.tank.controller.Ai? && last.doomed then 1 else 0
  }

  /** A fate is consistent when it is doomed exactly if a fatal hit landed. */
  predicate Consistent(fs: seq<Fate>) {
    forall k :: 0 <= k < |fs| ==> (fs[k].doomed <==> fs[k].fatal > 0)
  }

  /** The written count never falls short of the kills, and matches them exactly when
      no tank took more than one fatal hit. */
  lemma {:induction false} CreditsCoverKills(fs: seq<Fate>)
    requires Consistent(fs)
    ensures Kills(fs) <= WrittenCredits(fs)
    ensures (forall k :: 0 <= k < |fs| ==> fs[k].fatal <= 1) ==> Kills(fs) == WrittenCredits(fs)
    decreases |fs|
  {
    if fs != [] {
      CreditsCoverKills(fs[..|fs| - 1]);
    }
  }

  /** Every fate of a pass from live tanks is consistent. */
  lemma OutcomeConsistent(ts: seq<Tank>, bs: seq<Bullet>, len: Vec2 -> real)
    requires IsLength(len)
    requires forall k :: 0 <= k < |ts| ==> 1 <= ts[k].health
    ensures Consistent(Outcome(ts, bs, len))
  {
    forall k | 0 <= k < |ts|
      ensures Outcome(ts, bs, len)[k].doomed <==> Outcome(ts, bs, len)[k].fatal > 0
    {
      AbsorbOutcome(ts[k], bs, len);
    }
  }

  /** In a pass over live tanks the written credit never falls short of the kills, and
      is exact when no tank is hit fatally twice. */
  lemma WrittenCoversKills(ts: seq<Tank>, bs: seq<Bullet>, len: Vec2 -> real)
    requires IsLength(len)
    requires forall k :: 0 <= k < |ts| ==> 1 <= ts[k].health
    ensures var fs := Outcome(ts, bs, len);
      && Kills(fs) <= WrittenCredits(fs)
      && ((forall k :: 0 <= k < |fs| ==> fs[k].fatal <= 1) ==> Kills(fs) == WrittenCredits(fs))
  {
    OutcomeConsistent(ts, bs, len);
    CreditsCoverKills(Outcome(ts, bs, len));
  }

  /** Two player bullets, 10 to the right of an AI at health 1, both land in one pass:
      the AI is destroyed once but credited twice. */
  lemma DoubleCredit(len: Vec2 -> real)
    requires IsLength(len)
    ensures var ai := Tank(Zero, Zero, 1, 0.0, TURRET_REST, Ai(true, 0.0, 0));
      var b := Bullet(Vec2(10.0, 0.0), Vec2(-1.0, 0.0), FromPlayer);
      var fs := Outcome([ai], [b, b], len);
      Kills(fs) == 1 && WrittenCredits(fs) == 2
  {
    var ai := Tank(Zero, Zero, 1, 0.0, TURRET_REST, Ai(true, 0.0, 0));
    var b := Bullet(Vec2(10.0, 0.0), Vec2(-1.0, 0.0), FromPlayer);
    AxisLength(len, -10.0);
    assert Sub(ai.pos, b.pos) == Vec2(-10.0, 0.0);
    AbsorbOutcome(ai, [b, b], len);
    assert [b, b][..1] == [b];
    assert [b][..0] == [];
    var fs := Outcome([ai], [b, b], len);
    assert fs[..0] == [];
  }
}
