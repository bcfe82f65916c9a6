# Game-state cores of four pygame demos

This project models the per-frame game logic of four pygame scripts and proves properties about it.

- **GasBox** (`next.py`): an elastic gas of circular particles in a box.
  - Every particle records a trail sample, evicts stale samples, moves, and mirrors back off the walls.
  - Each touching pair is then resolved once, in ascending index order. Resolution exchanges the normal velocity component and pushes the pair apart to exact contact.
- **MiniValorant** (`valorant.py`): a top-down arena.
  - Abilities run on cooldowns.
  - Players take (shielded) damage, die and respawn.
  - A bullet loop moves, expires and wall-kills bullets and credits kills.
  - A round reset revives everybody.
- **FreeFire** (`freefire2.py`): a twin-stick shooter.
  - Weapons have a fire rate and ammunition, with the 9999 "infinite" sentinel.
  - The player moves inside the screen.
  - Enemies spawn from the screen edges and are culled with rewards and drops.
  - Bullets leaving the padded screen are killed and player bullets damage enemies.
  - Pickups are collected, death pauses the game, and restart resets it.
- **Explorer** (`valorant_background_movable.py`): a scrolling world.
  - A clamped camera with a parallax mapping.
  - A start region cleared of walls.
  - Wall-sliding movement (full move, else x only, else y only).
  - A bullet list filtered by walls, lifetime and world bounds.

**Common** holds what several scripts share:
- the `clamp` helper;
- real-valued rectangles standing in for `pygame.Rect`, with `colliderect` as strict overlap and `collidepoint` as left/top-inclusive containment;
- a generic list map, and a generic list filter with order-keeping lemmas.

Where the source mutates objects in place (particles, players, abilities, the camera, the game state), the model uses classes with `modifies` frames. Each such method is specified by a pure function of the old state, and the lemmas are proved about that function. The source's own loops are Dafny loops with invariants.

Values the scripts draw from outside become parameters:
- the clock;
- the keyboard and mouse;
- random spawn points, sizes, health and drops;
- square roots and normalised directions.

Where a parameter stands for a computed quantity, a `requires` ties it down; for example, a distance `d` satisfies `d * d == dx * dx + dy * dy`.

## Model

| member | source | states |
|---|---|---|
| Common.Clamp | valorant.py:39-40 | inside `[lo, hi]` when `lo <= hi`; the value itself when already in range; `lo` below and `hi` above the range |
| Common.Box | valorant_background_movable.py:138 | the square of half-size `half` around a point contains that point exactly when `half > 0` |
| GasBox.Trimmed | next.py:54-55 | eviction removes only a prefix, every removed sample is older than `TRAIL_DURATION`, and the first kept sample is not |
| GasBox.FreshSampleKept | next.py:51-55 | the sample appended at `now` survives eviction and is the last one of the trail |
| GasBox.TrimmedWithinWindow | next.py:54-55 | with nondecreasing timestamps every kept sample is at most `TRAIL_DURATION` old |
| GasBox.TrimmedChronological | next.py:51-55 | appending the current sample and evicting keeps the trail in time order |
| GasBox.AppendChronological | next.py:51 | appending a sample no older than every other keeps the trail in time order |
| GasBox.SuffixChronological | next.py:54-55 | dropping a prefix keeps the trail in time order |
| GasBox.Reflect | next.py:65-77 | a position inside the walls is untouched; past a wall it is mirrored by the overshoot and the velocity component negated; an overshoot below the wall gap lands between the walls |
| GasBox.IntegrateKeepsSpeed | next.py:58-77 | moving and reflecting keeps the radius and `vx² + vy²` |
| GasBox.IntegrateStaysInArena | next.py:58-77 | a particle inside the arena that moves less than the arena width in a frame stays inside |
| GasBox.Resolve | next.py:98-123 | total velocity and the midpoint are kept; both particles are unchanged when `dist == 0` or when they are separating |
| GasBox.NormalIsUnit | next.py:105 | the collision normal `(dx, dy) / dist` has unit length |
| GasBox.ExchangeKeepsEnergy | next.py:111-115 | the equal-mass exchange along a unit normal keeps total kinetic energy |
| GasBox.ExchangeReverses | next.py:111-115 | after the exchange the relative normal velocity is `-rel_vel` |
| GasBox.ResolveKeepsEnergy | next.py:98-123 | resolving a collision never changes total kinetic energy |
| GasBox.ResolveReversesNormalVelocity | next.py:106-115 | a resolved approaching pair separates with the opposite relative normal velocity |
| GasBox.SeparateToContact | next.py:117-123 | the overlap correction puts the centres exactly `r1 + r2` apart along the normal |
| GasBox.ResolveReachesContact | next.py:117-123 | after resolving an overlapping, approaching pair the centres are `r1 + r2` apart along the normal |
| GasBox.PairStep | next.py:170-173 | one pair visit keeps the number of particles and every radius |
| GasBox.PairsFrom | next.py:169-173 | the inner loop of the pass keeps the number of particles and every radius |
| GasBox.RowsFrom | next.py:168-173 | the outer loop of the pass keeps the number of particles and every radius |
| GasBox.Collided | next.py:168-173 | the whole collision pass keeps the number of particles and every radius |
| GasBox.PairStepKeepsTotal | next.py:170-173 | one pair visit keeps total momentum (x and y) and total kinetic energy |
| GasBox.PairsKeepTotal | next.py:169-173 | the inner loop keeps total momentum and kinetic energy |
| GasBox.RowsKeepTotal | next.py:168-173 | the outer loop keeps total momentum and kinetic energy |
| GasBox.CollidedKeepsTotals | next.py:168-173 | the whole collision pass keeps total momentum and total kinetic energy |
| GasBox.Particle.constructor | next.py:40-47 | a particle starts at the given position and velocity with an empty trail |
| GasBox.Particle.Update | next.py:49-77 | the trail becomes the old trail plus the pre-move sample, evicted; the body is the old one moved and reflected |
| GasBox.Particle.RecordSample | next.py:51-55 | appends `(x, y, now)` and evicts stale samples, the body unchanged |
| GasBox.Particle.Move | next.py:58-77 | moves and reflects the body, the trail unchanged |
| GasBox.ResolveCollision | next.py:98-123 | both particles become `Resolve` of their old states; trails untouched |
| GasBox.ExchangeVelocities | next.py:111-115 | applies the velocity exchange to both particles |
| GasBox.PushApart | next.py:117-123 | applies the symmetric overlap correction to both particles |
| GasBox.CollisionPass | next.py:168-173 | the particles' states become the collision pass of their old states; trails untouched |
| GasBox.VisitRow | next.py:169-173 | the inner loop for row `i` visits pairs `(i, j)`, `j > i`, in order |
| GasBox.VisitPair | next.py:170-173 | a pair is resolved exactly when `dx² + dy² <= (ri + rj)²` |
| GasBox.IntegrateAll | next.py:164-165 | every particle is moved and reflected independently |
| GasBox.Step | next.py:164-173 | the frame updates every particle before any pair is resolved |
| MiniValorant.Normalize | valorant.py:47-52 | the zero vector gives `(0, 0)`; otherwise the result times the length is the input |
| MiniValorant.NormalizeIsUnit | valorant.py:47-52 | a non-zero vector normalises to unit length |
| MiniValorant.Ability.constructor | valorant.py:71-75 | a new ability has the given cooldown and was last used at -999 |
| MiniValorant.Ability.Trigger | valorant.py:77-81 | after `trigger(now)` the ability is not ready before `now + cooldown` and is ready from then on |
| MiniValorant.Damaged | valorant.py:132-142 | hp drops by `dmg`, or `0.45 * dmg` under an active shield; the player dies only on the alive-to-dead transition, which adds one death and schedules the respawn 3 s later |
| MiniValorant.DeadStayDead | valorant.py:136-137 | damaging a dead player neither revives it nor counts a second death |
| MiniValorant.LiveFrame | valorant.py:111-123 | a live frame keeps the player inside the 16-pixel margin, keeps the fire cooldown non-negative, and keeps exactly the unexpired smokes in order; hp, life and score are untouched |
| MiniValorant.Player.constructor | valorant.py:84-104 | a new player is alive with full hp, no score and no shield; dash, smoke and shield cooldowns are 6, 12 and 15 s |
| MiniValorant.Player.Die | valorant.py:139-142 | the player is dead, has one more death and respawns 3 s later |
| MiniValorant.Player.TakeDamage | valorant.py:132-137 | the player's combat state becomes `Damaged` of the old one |
| MiniValorant.Player.Respawn | valorant.py:125-130 | full hp, alive, shield cleared, at the given spawn point |
| MiniValorant.Player.Update | valorant.py:106-123 | a dead player only respawns once its respawn time has come; a live one takes a clamped move and its timers run |
| MiniValorant.Player.Revive | valorant.py:327-331 | one player of the round reset: alive, no respawn timer, full hp, at the given point |
| MiniValorant.Player.ActivateShield | valorant.py:271-273 | when the shield is ready it is triggered and the player is shielded for 4 s; otherwise nothing changes |
| MiniValorant.Player.DeploySmoke | valorant.py:254-257 | when the smoke is ready one 8-second smoke is added at the cursor; otherwise nothing changes |
| MiniValorant.Fly | valorant.py:63-65 | moving a bullet keeps its owner, spawn time and damage |
| MiniValorant.BulletHitsWall | valorant.py:220-224 | the wall scan answers true exactly when some wall contains the bullet |
| MiniValorant.Target | valorant.py:312-316 | the first target from `k` that is not the owner and is hit, or the end of the list when none is |
| MiniValorant.Sweep | valorant.py:307-324 | the bullet loop keeps the number of players, never adds bullets, and leaves every bullet with a player owner |
| MiniValorant.StrikeWoundsOnlyTarget | valorant.py:312-324 | a bullet hits at most one target, never its owner; only that target is damaged; the owner gains a kill exactly when the target died |
| MiniValorant.HitBalances | valorant.py:316-319 | a hit on a live player credited to its shooter leaves kills minus deaths unchanged |
| MiniValorant.StrikeBalances | valorant.py:312-324 | every death a bullet causes is one kill, so kills minus deaths over all players is unchanged |
| MiniValorant.SweepBalances | valorant.py:307-324 | the whole bullet loop keeps kills minus deaths over all players |
| MiniValorant.StepKept | valorant.py:307-324 | a bullet is either removed or kept moved; it stays exactly when it is not expired, not inside a wall and hits no target but its owner |
| MiniValorant.SweepKeepsOrder | valorant.py:307-324 | the surviving bullets are a subsequence of the moved bullets |
| MiniValorant.SweepDropsStale | valorant.py:307-311 | no surviving bullet is expired or inside a wall |
| MiniValorant.Game.constructor | valorant.py:154-172 | the player starts at (120, 350), three bots at the given points, no bullets, and a 90-second round |
| MiniValorant.Game.ShootFrom | valorant.py:197-209 | nothing when the shooter is dead or cooling down; otherwise exactly one bullet owned by the shooter is appended and the cooldown is `FIRE_RATE` |
| MiniValorant.Game.StrikeFirst | valorant.py:312-319 | the target loop applies `Strike` to all players and reports whether it hit |
| MiniValorant.Game.Wound | valorant.py:316-319 | the target takes the damage and, if it died, the owner gains a kill |
| MiniValorant.Game.Advance | valorant.py:307-324 | one bullet iteration applies `Step`: the bullet is removed or replaced by its moved self |
| MiniValorant.Game.StrikeAt | valorant.py:312-324 | the bullet at `pos` strikes and is removed exactly when it hit |
| MiniValorant.Game.Remove | valorant.py:310 | removes exactly the bullet at `pos` |
| MiniValorant.Game.ProcessBullets | valorant.py:307-324 | the players' combat states and the bullet list become those of `Sweep`; gear is untouched |
| MiniValorant.Game.RoundReset | valorant.py:326-334 | once the round has ended all players are revived, bullets cleared and a new 90-second round starts; before that nothing changes |
| MiniValorant.ReviveAll | valorant.py:327-331 | every player is revived at its spot; gear is untouched |
| MiniValorant.Revived | valorant.py:327-331 | every player is revived at its own spot |
| MiniValorant.ResetKeepsScores | valorant.py:326-334 | after the reset every player is alive with full hp, and kills minus deaths is unchanged |
| FreeFire.Spend | freefire2.py:147-150 | ammo drops by exactly one unless it is not positive or is the 9999 sentinel; non-negative ammo stays non-negative |
| FreeFire.Fire | freefire2.py:142-150 | a shot happens exactly when shooting, the decremented cooldown is not positive and ammo is not 0; it then resets the cooldown to the weapon's rate and spends ammo |
| FreeFire.BurstCountsAmmo | freefire2.py:142-150 | over any sequence of frames finite ammo falls by exactly the number of shots and never goes below 0 |
| FreeFire.BurstKeepsSentinel | freefire2.py:147-150 | a weapon at 9999 stays at 9999 however often it fires |
| FreeFire.Walk | freefire2.py:120-133 | no movement key leaves the position unchanged; otherwise the new position is clamped into the screen |
| FreeFire.WalkDistance | freefire2.py:127-130 | an unclamped step goes along the input vector and has length exactly `speed * dt` |
| FreeFire.Fly | freefire2.py:219-221 | moving a bullet changes only its position |
| FreeFire.BulletsUpdate | freefire2.py:219-223 | after the bullet update every bullet left is inside the padded box, every moved bullet inside it is kept, and order is kept |
| FreeFire.SpawnPoint | freefire2.py:303-307 | an enemy spawns outside the screen but level with one of its sides |
| FreeFire.NewEnemy | freefire2.py:165-176 | a new enemy has positive health and a square body of the drawn size centred on the spawn point |
| FreeFire.FirstHit | freefire2.py:327 | the first enemy from `k` the bullet overlaps, or the end of the list |
| FreeFire.Strike | freefire2.py:326-330 | the player-bullet pass keeps the number of enemies and never adds bullets |
| FreeFire.FirstHitIgnoresHealth | freefire2.py:327 | which enemy a bullet hits does not depend on the enemies' health |
| FreeFire.StrikeRemovesHitters | freefire2.py:326-330 | enemy bodies are unchanged, and exactly the player bullets that overlap an enemy are removed, in order |
| FreeFire.StrikeWoundsFirstHit | freefire2.py:326-330 | each player bullet's damage goes to the first enemy it overlaps and to no other: every enemy loses exactly the damage of the player bullets aimed first at it |
| FreeFire.StrikeConservesDamage | freefire2.py:326-330 | total enemy health drops by exactly the damage of the bullets removed |
| FreeFire.SurvivorsFilter | freefire2.py:312-315 | the enemies left by the cull are exactly those with positive health, in order |
| FreeFire.CullPartition | freefire2.py:312-315 | every enemy either survives the cull or is counted as fallen |
| FreeFire.Loot | freefire2.py:316-320 | each fallen enemy drops at most two pickups |
| FreeFire.Refill | freefire2.py:343-345 | an ammo box adds 40 rifle and 10 pistol rounds and changes nothing else |
| FreeFire.Gain | freefire2.py:340-346 | a health pack sets health to `min(200, health + 40)`, adds 6 points and leaves the weapons alone; an ammo box refills both weapons, adds 4 points and leaves health alone |
| FreeFire.AmmoBoxEndsUnlimitedPistol | freefire2.py:345 | an ammo box moves a 9999 pistol off the sentinel, after which firing spends it |
| FreeFire.Collect | freefire2.py:339-347 | after collecting pickups both weapons are still owned |
| FreeFire.CollectRewards | freefire2.py:339-347 | score rises by 6 per health pack and 4 per ammo box; any health pack leaves health at most 200, and the cap is kept; without health packs health is unchanged, without ammo boxes the weapons are |
| FreeFire.SpawnInterval | freefire2.py:302 | the interval is at least 0.28, at most 0.9 for non-negative scores, and `0.9 - 0.0015 * score` up to score 413 |
| FreeFire.Player.constructor | freefire2.py:101-118 | the player starts centred with 120 health, no score, the pistol and rifle, and the rifle selected |
| FreeFire.Player.Update | freefire2.py:120-159 | the position becomes `Walk` of the old one; cooldown, ammo and the fired bullet follow `Fire` |
| FreeFire.Player.Move | freefire2.py:120-133 | the position becomes `Walk` of the old one |
| FreeFire.Player.Shoot | freefire2.py:142-159 | cooldown, ammo and the one fired bullet follow `Fire` |
| FreeFire.Player.Gather | freefire2.py:339-347 | one pickup changes the player by `Gain` |
| FreeFire.Player.SwitchWeapon | freefire2.py:161-163 | the current weapon becomes `name` exactly when the player owns it |
| FreeFire.Game.constructor | freefire2.py:255-262 | empty groups, a fresh player, spawn timer 1.2, not paused |
| FreeFire.Game.UpdatePlayer | freefire2.py:297 | the player moves by `Walk`, its cooldown and ammo follow `Fire`, health and score are untouched, and the fired bullet, if any, is appended to the bullet group |
| FreeFire.Game.Spawn | freefire2.py:300-309 | when the timer runs out it is reset to the spawn interval and one enemy is added; otherwise the timer only runs down |
| FreeFire.Game.Cull | freefire2.py:312-320 | the enemies with positive health stay, in order; each fallen one adds 12 score and 40 health (uncapped) and its drops |
| FreeFire.Game.CullOne | freefire2.py:313-320 | one cull iteration keeps the loop invariant |
| FreeFire.Game.Reward | freefire2.py:315-320 | a kill adds 12 score, 40 health and its drops |
| FreeFire.Game.UpdateBullets | freefire2.py:323 | the bullets become the moved bullets still inside the padded box |
| FreeFire.Game.StrikeEnemies | freefire2.py:326-330 | enemies and bullets become those of `Strike` |
| FreeFire.Game.StrikeOne | freefire2.py:326-330 | one bullet of the pass keeps the loop invariant |
| FreeFire.Game.FirstEnemyHit | freefire2.py:327 | the scan finds `FirstHit` |
| FreeFire.Game.CollectPickups | freefire2.py:339-347 | the touched pickups are removed and their rewards applied |
| FreeFire.Game.TogglePause | freefire2.py:281-282 | P flips the pause |
| FreeFire.Game.CheckDeath | freefire2.py:350-351 | the game pauses once health is not positive |
| FreeFire.Game.Restart | freefire2.py:405-409 | groups emptied, player centred with 1400 health and no score, rifle 180 and pistol 9999, unpaused |
| Explorer.Follow | valorant_background_movable.py:43-44 | the camera offset is in `[0, size - view]` and equals the centred offset when that is in range |
| Explorer.FollowKeepsTargetInView | valorant_background_movable.py:41-44 | the followed target is always inside the view |
| Explorer.Truncate | valorant_background_movable.py:50 | `int()` rounds toward zero |
| Explorer.Camera.constructor | valorant_background_movable.py:36-39 | the camera covers the given world and starts at the origin |
| Explorer.Camera.Update | valorant_background_movable.py:41-44 | the camera follows the target and stays inside the world |
| Explorer.Camera.WorldToScreen | valorant_background_movable.py:46-50 | parallax 1 is translation by the camera offset; parallax 0 maps every point to the screen centre |
| Explorer.PlayerOnScreen | valorant_background_movable.py:41-50 | a followed player in the world is drawn inside the screen |
| Explorer.ClearStart | valorant_background_movable.py:65-66 | no wall left overlaps the start region, and every wall that does not is kept |
| Explorer.ClearStartKeepsOrder | valorant_background_movable.py:66 | the walls left keep their order |
| Explorer.StartIsClear | valorant_background_movable.py:65-72 | the player's start position is free of walls |
| Explorer.CollidesWalls | valorant_background_movable.py:81-85 | the scan answers true exactly when some wall overlaps the rectangle |
| Explorer.Tentative | valorant_background_movable.py:117-135 | no effective key means no move; otherwise the step, diagonals normalised, is exactly `speed * dt` long |
| Explorer.Slide | valorant_background_movable.py:134-149 | the full move when it is free; otherwise x only if that is free, else y only if that is free, else nothing; never into a wall |
| Explorer.SlideStaysClear | valorant_background_movable.py:138-149 | a player that starts clear of walls stays clear |
| Explorer.Fly | valorant_background_movable.py:159-161 | a frame takes `dt` off the bullet's life and keeps its velocity |
| Explorer.Flying | valorant_background_movable.py:158-170 | the bullet loop never adds bullets |
| Explorer.FlyingFilter | valorant_background_movable.py:158-170 | a bullet is removed exactly when it hits a wall, its life is over, or it leaves the world |
| Explorer.FlyingKeepsOrder | valorant_background_movable.py:158-170 | survivors keep their order, and none of them is spent |
| Explorer.World.constructor | valorant_background_movable.py:56-78 | the walls are the cleared layout, the player starts at (300, 300) clear of walls, no bullets |
| Explorer.World.Shoot | valorant_background_movable.py:96-113 | one bullet is appended at the player, aimed at the mouse's world position at `BULLET_SPEED`, with 2.5 s of life |
| Explorer.World.Move | valorant_background_movable.py:117-149 | the player moves to `Slide` of the tentative step |
| Explorer.World.UpdateBullets | valorant_background_movable.py:158-170 | the bullet list becomes `Flying` of the old one |
| Explorer.World.Advance | valorant_background_movable.py:158-170 | one bullet iteration keeps the loop invariant |

## Left out

- `val6.py` and `3d2.py` are not part of this model. They are ursina scripts whose movement, collision and timers run inside the engine.
- Drawing, the HUD, the minimap, parallax tiling and trail rendering are presentation only.
- Downloading and loading images is file and network I/O.
- Event polling, keyboard and mouse state, and clocks (`clock.tick`, `get_ticks`) are taken as parameters.
- Random draws are taken as parameters. They include:
  - particle, bot, enemy and respawn positions;
  - enemy size and health;
  - pickup drops;
  - the wall layout.
- Square roots and trigonometry are taken as parameters tied down by a `requires`:
  - `math.hypot`;
  - `normalize`;
  - `1 / sqrt(2)`;
  - aiming angles.

  Sprite and player rotation are not modelled.
- Floating point is modelled as exact `real` arithmetic.
- `pygame.Rect` truncates coordinates to integers. Rectangles here keep real coordinates.
- GasBox.ResolveReachesContact: it states the contact distance along the normal, not as a squared distance between centres.
- MiniValorant: the bot AI, the dash ability, `handle_player_shoot` and the R-key respawn are input handling and random steering. They are not modelled.
- MiniValorant.Game.ShootFrom: the bullet velocity, including the random spread, is an input. The model does not state that its length is `BULLET_SPEED`.
- FreeFire: enemy movement and AI, enemy shooting, and enemy bullets hitting the player (`collide_circle`) are not modelled.
- FreeFire.Player.Shoot: the aim direction and muzzle point are inputs. The source normalises the cursor offset and rounds the bullet's centre to integers, and neither is modelled.
- FreeFire.Game.Restart: it is modelled without the "dead and R held" guard that triggers it, since that guard reads the keyboard.
- Explorer: the player's facing angle is not modelled.
- Explorer.World.UpdateBullets: `bullets.remove(b)` removes the first entry equal to `b`. The model removes `b` at its own position, which gives the same list because equal entries share the same removal decision.
