# Tank arena gameplay, modelled in Dafny

This project models the gameplay core of a small Bevy tank game, `src/main.rs` and
`src/tanks.rs`. One player tank and two AI tanks share an 800×600 arena. The player
drives with the arrow keys or WASD and aims and fires with the mouse. The AIs wander in
random directions and shoot at every player. Each shot is a bullet that flies at 10
units per fixed tick. A bullet that comes within 26 units of an opposing tank knocks it
back and takes one point of health. A tank hit at health 1 is despawned. The kill
score, a `u8`, is meant to go up by one for every AI destroyed. As written, `hurt_tanks`
adds one for every fatal hit instead, so an AI hit fatally twice in one frame counts
twice (see "## Findings"). The `World` methods use the corrected credit: one per AI
whose despawn is queued.

Modules, in dependency order:

- `Vectors` (vectors.dfy): glam's `Vec2`, `length()` and `normalize()`.
- `Wrappers` (wrappers.dfy): `Option`.
- `Tanks` (tanks.dfy): the sizes, components and bundle constructors of `src/tanks.rs`, and the invariant every live tank keeps.
- `Game` (game.dfy): the constants of `src/main.rs`, bullets, and the `u8` score.
- `Motion` (motion.dfy): `movement` and `ai_movement` for one tank.
- `Containment` (containment.dfy): `keep_tanks_on_screen` for one tank.
- `Separation` (separation.dfy): `collide_tanks`. This holds a specification and the method for its pair scan.
- `Bullets` (bullets.dfy): `update_bullets` and `kill_bullets` for one bullet.
- `Firing` (firing.dfy): `mouse_button_input` and `ai_rotate` for one tank.
- `Hits` (hits.dfy): `hurt_tanks`, stated per tank and per bullet.
- `Arena` (arena.dfy): the class `World`, holding the tanks, the bullets and the score. It has one method per system, and each method states the new world in terms of the functions above.

Inputs the model cannot compute are parameters:

- The Euclidean length is a parameter `len`. It is constrained only by the norm laws: it is non-negative, zero only at zero, absolutely homogeneous, and 1 on the unit axes.
- Every `gen_range` draw is a parameter constrained to its range.
- The intro's grace period (`LENGTH + FADE + 1.0 < elapsed`) is the boolean `pastGrace`.
- The frame time is `delta`.
- The keys, the mouse button and the window are parameters.

## Model

| member | source | states |
|---|---|---|
| Vectors.UnitHasLengthOne | src/main.rs:407 | `normalize` of a non-zero vector has length one, and scaling it by the original length gives back the original vector |
| Vectors.UnitZeroOnlyAtZero | src/main.rs:659 | the normalised vector is zero exactly for the zero vector (glam's NaN is modelled as zero) |
| Vectors.DistanceSymmetric | src/main.rs:404 | the distance between two tanks is the same measured from either one |
| Vectors.UnitOfNeg | src/main.rs:407-412 | the direction of −v is the reverse of the direction of v |
| Tanks.NewPlayerTank | src/tanks.rs:135-163 | a player tank from `TankBundle::new(h)` and `TurretBundle::new()` is at the origin and at rest, with health h, attack timer 0 and turret at rest |
| Tanks.NewAiTank | src/tanks.rs:166-181 | an AI tank from the bundles is also active, with zero steps and wander direction 0 |
| Tanks.BearingIsIdentity | src/tanks.rs:89-132 | the bearing transform is the identity, so the turret rests TANK_SIZE+4 in front of the centre at z -1 |
| Game.AddScore | src/main.rs:667 | the `u8` score stays in 0..=255 and adds exactly whenever the sum does not overflow |
| Game.BumpIsAddScore | src/main.rs:667 | crediting kills one `+= 1` at a time equals adding their number modulo 256 |
| Game.IncrIsAddScore | src/main.rs:667 | one `score += 1` on the `u8` adds one modulo 256, so 255 wraps to 0 |
| Game.BumpBump | src/main.rs:667 | two runs of increments compose into one |
| Motion.PlayerStep | src/main.rs:336-353 | new velocity = 0.9·(old velocity + the thrust of the held keys), new position = old + new velocity; no thrust before the grace period |
| Motion.OppositeKeysCancel | src/main.rs:337-348 | opposite keys cancel, and diagonals get the full TANK_SPEED on both axes (not renormalised) |
| Motion.Coasting | src/main.rs:350-352 | without thrust the speed drops to exactly 0.9 of what it was, and a tank at rest stays put |
| Motion.TerminalSpeed | src/main.rs:340-352 | holding Right from a speed in [0, 9·TANK_SPEED] never slows the tank and never exceeds 9·TANK_SPEED, the fixed point of the damping |
| Motion.AiStep | src/main.rs:428-451 | a negative step counter triggers a redraw of direction and steps; the direction thrusts only past the grace period while the AI is active; then damping and integration; the counter loses delta |
| Motion.AiStepRanges | src/main.rs:429-432 | the direction stays in 0..=4 and a fresh step count lies in [0, 1] |
| Motion.AiDirectionIsOneKey | src/main.rs:433-444 | AI direction d thrusts exactly like a player holding the one key for d; direction 4 is no key |
| Motion.AiWithoutThrustCoasts | src/main.rs:433-448 | an inactive AI, an AI before the grace period, or an AI in direction 4 moves exactly like a player holding nothing |
| Motion.FreshAiKeepsDirection | src/main.rs:428-451 | a freshly spawned AI keeps direction 0 on its first tick, and its counter becomes -delta |
| Containment.Contain | src/main.rs:360-391 | afterwards the tank is inside the arena; an axis past an edge is clamped with its velocity zeroed; an axis within is untouched; an AI that touched a wall gets the direction of the last wall checked |
| Containment.WallHit | src/main.rs:362-382 | the wall recorded is "none" exactly when the tank is inside the arena, and otherwise one of the four directions 0..=3 |
| Containment.InsideUntouched | src/main.rs:363-382 | a tank already inside is left exactly as it was |
| Containment.ContainIdempotent | src/main.rs:360-391 | a second containment pass changes nothing |
| Containment.WallSteersInward | src/main.rs:384-391 | the direction given after touching a wall thrusts the AI back into the arena |
| Containment.ContainKeepsTankOk | src/main.rs:360-391 | containment preserves the tank invariant |
| Separation.OverlappingSymmetric | src/main.rs:403-405 | tank i overlaps tank j exactly when j overlaps i |
| Separation.PushAntisymmetric | src/main.rs:407-412 | the two buffer writes of a pair are equal and opposite, and the partner's write is its own push |
| Separation.LastPartner | src/main.rs:401-416 | the partner found overlaps the tank and no later tank does |
| Separation.Movement | src/main.rs:399-416 | a tank's buffer entry is non-zero exactly when some other tank overlaps it, and then it is the push away from one overlapping partner |
| Separation.ComputeMovements | src/main.rs:399-416 | the scan leaves each tank's buffer entry holding the push from its highest-index overlapping partner, or zero |
| Separation.IsolatedTankStays | src/main.rs:399-421 | a tank that overlaps nobody is not moved |
| Separation.PushLength | src/main.rs:407-411 | a push has length half the overlap, strictly between 0 and TANK_SIZE |
| Separation.PushesSeparate | src/main.rs:407-420 | an overlapping pair pushed by their own pushes ends exactly touching, 2·TANK_SIZE apart |
| Separation.PairSeparates | src/main.rs:399-421 | when two tanks overlap only each other, the pass moves them apart equally and oppositely until they just touch |
| Bullets.Advance | src/main.rs:707-710 | a bullet moves by BULLET_SPEED times its direction and keeps its direction and side |
| Bullets.AdvanceDistance | src/main.rs:707-710 | a bullet fired along a normalised direction covers exactly BULLET_SPEED per tick |
| Bullets.OutOfBounds | src/main.rs:718 | a bullet is despawned exactly when one coordinate lies beyond half the arena size |
| Bullets.InBounds | src/main.rs:716-719 | the kept bullets are exactly those within half the arena size on both axes, and never more than there were |
| Bullets.InBoundsAppend | src/main.rs:716-719 | the filter keeps query order and duplicates: filtering two runs of bullets one after the other is filtering each and concatenating |
| Bullets.InBoundsOne | src/main.rs:718 | a single bullet is kept exactly when it is not out of bounds |
| Bullets.FreshBulletSurvives | src/main.rs:718 | a bullet fired from inside the arena survives the out-of-bounds check |
| Firing.Ease | src/main.rs:493 | each easing step shrinks the turret's distance from rest to 0.9 of what it was |
| Firing.EaseStaysInRange | src/main.rs:493 | between full recoil and rest, easing moves towards rest without overshooting |
| Firing.EaseConverges | src/main.rs:493 | after n steps the remaining recoil is 0.9^n of the original, and a turret at rest never moves |
| Firing.TurretBundleAtRest | src/tanks.rs:124 | a new turret sits at the fixed point of the easing |
| Firing.MouseCoords | src/main.rs:480-481 | the cursor's y is flipped within the window (bottom edge to top and top to bottom) and its x is kept |
| Firing.CursorMapping | src/main.rs:478-483 | the window centre maps to the arena origin and the top-left corner maps to (-w/2, h/2) |
| Firing.PlayerFire | src/main.rs:477-537 | a shot happens exactly when the button is held, the timer exceeds 0.4 and the grace period is over; a shot sets the timer to delta and the turret to full recoil and spawns a player bullet at the tank aimed at the cursor; otherwise the turret eases and the timer gains delta |
| Firing.PlayerAimsAtCursor | src/main.rs:533 | a player bullet has unit direction pointing exactly at the cursor |
| Firing.FireRate | src/main.rs:500-537 | over any run of ticks with the button held, shots·0.4 plus the remaining timer never exceed the starting timer plus the elapsed time |
| Firing.PlayerFireKeepsTankOk | src/main.rs:493-516 | a player's gun turn preserves the tank invariant |
| Firing.AiShot | src/main.rs:561-619 | an AI fires at a player exactly when its timer is negative and the grace period is over; a shot resets the timer to a draw in [0.5, 1.4] and spawns an AI bullet aimed at the player; the timer loses delta only past the grace period |
| Firing.Engage | src/main.rs:561-621 | an active AI fires at most one bullet per player; every bullet starts at the AI and is aimed at some player; past the grace period an AI whose timer has run out fires first at the first player, along the normalised difference; no shots and no countdown before the grace period |
| Firing.TicksIsProduct | src/main.rs:617-619 | k countdowns of delta take delta·k off the timer |
| Firing.EngageTimer | src/main.rs:582-619 | past the grace period, without a shot the timer loses delta once per player; after a shot it is the last shot's draw/10 less delta for that player and each later one |
| Firing.AiTurn | src/main.rs:558-642 | after its turn an AI is active exactly when some player exists; an active AI with no player only deactivates; an inactive AI eases its turret and fires nothing; an active AI whose timer has run out fires first at the first player past the grace period |
| Firing.AiTurnTimer | src/main.rs:558-621 | the timer of an active AI after its turn, as `EngageTimer` states it |
| Firing.NoAiShotsBeforeGrace | src/main.rs:582-619 | before the grace period an AI neither fires nor counts down |
| Firing.AiTurnKeepsTankOk | src/main.rs:558-642 | an AI's gun turn preserves the tank invariant |
| Hits.Strikes | src/main.rs:656-658 | a bullet only strikes a tank of the other side, and only from closer than TANK_SIZE + BULLET_SIZE |
| Hits.KnockbackAway | src/main.rs:659 | a knockback has length KNOCKBACK and points from the bullet to the tank |
| Hits.Hit | src/main.rs:658-668 | a hit changes only the velocity and health; a miss changes nothing; health never drops below 1 or rises; a queued despawn stays queued; a fatal hit lands only at health 1 and queues the despawn |
| Hits.Absorb | src/main.rs:654-668 | a pass over bullets changes only velocity and health, lands at most one fatal hit per bullet, and queues the despawn exactly when a fatal hit landed |
| Hits.AbsorbOutcome | src/main.rs:654-703 | a tank with health h struck s times in a pass ends at health max(h-s, 1); its despawn is queued exactly when s ≥ h; s-h+1 of the hits land at health 1; its velocity gains the sum of the knockbacks; nothing else changes |
| Hits.NoFriendlyFire | src/main.rs:655-681 | bullets of a tank's own side leave it exactly as it was |
| Hits.Living | src/main.rs:666 | the surviving tanks are exactly those whose despawn was not queued |
| Hits.LivingAppend | src/main.rs:666 | the survivors keep query order and duplicates: the survivors of two runs of fates are those of each, concatenated |
| Hits.LivingOne | src/main.rs:666 | a single tank survives exactly when its despawn was not queued |
| Hits.Unspent | src/main.rs:669 | the surviving bullets are exactly those that struck no tank |
| Hits.UnspentAppend | src/main.rs:669 | the surviving bullets keep query order and duplicates: the unspent bullets of two runs are those of each, concatenated |
| Hits.UnspentOne | src/main.rs:669 | a single bullet survives exactly when it struck no tank |
| Hits.WrittenCredits | src/main.rs:663-667 | the credit as written is at least the fatal hits on any one AI, and zero when no AI took a fatal hit |
| Hits.Kills | src/main.rs:663-667 | the intended credit is at most one per tank, and zero exactly when no AI's despawn is queued |
| Hits.OutcomeConsistent | src/main.rs:654-668 | in a pass over live tanks every tank is doomed exactly when a fatal hit landed on it |
| Hits.WrittenCoversKills | src/main.rs:654-668 | in a pass over live tanks the written credit is never below the kills and equals them when no tank takes two fatal hits |
| Hits.CreditsCoverKills | src/main.rs:663-668 | the as-written credit is never below the kill count, and equals it when no AI takes two fatal hits |
| Hits.DoubleCredit | src/main.rs:663-668 | as written, two player bullets on an AI at health 1 credit two kills for one destroyed AI |
| Arena.PlayerPositions | src/main.rs:548 | the positions are exactly those of the player tanks |
| Arena.PlayerPositionsAppend | src/main.rs:548 | the positions keep query order and duplicates: those of two runs of tanks are those of each, concatenated |
| Arena.PlayerPositionsOne | src/main.rs:548 | a single tank contributes its position exactly when it is a player |
| Arena.PlayerShots | src/main.rs:500-536 | `mouse_button_input` spawns at most one bullet per tank, all from the player side, and none unless the button is held past the grace period |
| Arena.AiShots | src/main.rs:582-614 | `ai_rotate` spawns only AI bullets, and none before the grace period |
| Arena.FireEach | src/main.rs:477-538 | the loop gives every player tank its `PlayerFire` turn, leaves AI tanks unchanged, and collects the bullets fired in tank order |
| Arena.TakeAiTurn | src/main.rs:559-642 | the loop over the players computes the AI's `AiTurn` |
| Arena.TurnEach | src/main.rs:558-643 | the loop gives every AI tank its `AiTurn`, leaves players unchanged, and collects the bullets fired in tank order |
| Arena.HitOne | src/main.rs:657-668 | one tank takes the bullet, and the kill count grows by one exactly when the hit newly queued an AI's despawn |
| Arena.HitEach | src/main.rs:657-678 | one bullet is tried against every tank, and one kill is credited per AI whose despawn is newly queued |
| Arena.HitAll | src/main.rs:654-703 | the pass yields every tank's fate and credits the kills to the `u8` score |
| Arena.World.constructor | src/main.rs:251-327 | the world starts with one player and two AIs at health 4, no bullets and score 0 |
| Arena.World.Movement | src/main.rs:329-354 | every player tank takes its `PlayerStep` and AIs are unchanged; the invariant is kept |
| Arena.World.AiMovement | src/main.rs:424-452 | every AI tank takes its `AiStep` and players are unchanged; the invariant is kept |
| Arena.World.KeepTanksOnScreen | src/main.rs:356-393 | every tank is contained, after which all are in the arena |
| Arena.World.CollideTanks | src/main.rs:395-422 | every tank moves by its `Movement`, computed from start-of-pass positions |
| Arena.World.MouseButtonInput | src/main.rs:455-544 | without a window or a cursor nothing changes; otherwise every player takes its gun turn and the bullets fired are appended |
| Arena.World.AiRotate | src/main.rs:546-645 | every AI takes its gun turn against the player positions and the bullets fired are appended |
| Arena.World.HurtTanks | src/main.rs:647-704 | the tanks become the survivors of the pass, the bullets become those that struck nothing, and the score gains one per AI destroyed, modulo 256 |
| Arena.World.UpdateBullets | src/main.rs:706-711 | every bullet advances |
| Arena.World.KillBullets | src/main.rs:713-728 | the bullets become those still within the arena |

Behaviour of the code worth knowing:

- **Bullets.** A bullet is not consumed by its first hit. `hurt_tanks` only queues despawns, so a bullet strikes every overlapping tank of the other side in the same pass. A tank whose despawn is queued goes on taking hits in that pass.
- **Separation.** `collide_tanks` assigns buffer entries instead of adding to them. Each tank therefore moves by the push from one partner: the overlapping tank of highest index.
- **Normalising zero.** `normalize` of the zero vector gives NaN in glam. NaN is not a real number, so the model has no value for it and uses the zero vector instead. What this changes is listed under "## Left out".

## Left out

- Rendering, sound, the healthbars, the kills text, the pause systems and the hit-flash timer (`HitTimer`, `flash_yellow`): they do not affect gameplay state.
- The bearing's rotation (`atan2`, `Quat::from_rotation_z`): it only turns the sprite.
- The intro sequence that defines `LENGTH` and `FADE`: it is not part of this model. The grace check is the boolean `pastGrace`.
- The entity hierarchy (tank → child → bearing → turret): a tank's turret x is a field of the tank. Each tank has exactly one turret, so the nested child loops touch it once.
- Bevy's query order and the order in which spawned entities appear: both are modelled as sequence order, with new bullets appended.
- The schedule: each system is a separate method, and the order in which systems run is left to the caller.
- `f32` rounding: all arithmetic is exact on reals, and the length is an oracle bound by the norm laws. The triangle inequality is not among those laws.
- Game.AddScore: models the release-build `u8` wrap-around. A debug build would panic on overflow instead.
- A bullet that strikes two tanks has its despawn queued twice. The model removes it once.
- Vectors.Unit: gives the zero vector where glam's `normalize` gives NaN, so Firing.PlayerFire, Firing.AiShot and Hits.Knockback do not model NaN. With the cursor at the window centre and the player at the origin, the source's bullet gets a NaN direction (src/main.rs:533), and its next position is NaN. Such a bullet is inert: the `>` tests of `kill_bullets` and the `<` test of `hurt_tanks` are false forever, so it is never despawned. The model's bullet instead has a zero direction, stays at the origin, and strikes the first AI within 26 units. Likewise, when a bullet sits exactly on a tank's centre, the model's knockback is zero and leaves the velocity unchanged, where the source's velocity becomes NaN (src/main.rs:659).

## Findings

| source | as written | input that shows it | evidently intended | confidence | as-written member | corrected member |
|---|---|---|---|---|---|---|
| src/main.rs:663-668 | every player-bullet hit on an AI at health 1 runs `ai_killed.score += 1`; the despawn is deferred, so later bullets in the same pass hit the same AI again | one AI at the origin with health 1 and two player bullets at (10, 0) in the same frame: score +2, one AI destroyed | one kill per AI destroyed | high (not executed) | Hits.DoubleCredit | Arena.World.HurtTanks |
