# Elemental Parkour Shooter: a Dafny model of the per-frame game logic

Elemental Parkour Shooter is a pygame platformer. The player climbs a level, shoots elemental bullets (fire, ice, thunder and others) and fights lava, water and tornado monsters, a sniper boss and phase-changing bosses. This project models the logic each frame runs and proves properties of it. The logic is plain arithmetic over positions, timers, flags and lists.

Each frame's reading of the clock (`now`), its time step (`dt`) and every random draw are parameters. Each update is then a deterministic function of the state and those inputs. Positions and velocities are `real`. A `pygame.Rect` is an integer record whose corner is the truncation of a float position. Where the game takes a square root inside a loop, the caller supplies a root function `sqrt` with `IsRoot(sqrt)`.

The repository holds two generations of some systems. Each generation is its own module:
- `level_system.py` and `monster_manager.py` are the older themed levels and the wave-based manager (`RootLevelSystem`, `RootMonsterManager`).
- `src/systems/level_system.py` and `src/systems/monster_manager.py` are the newer parkour tower and the two-stage boss manager (`SrcLevelSystem`, `SrcMonsterManager`).
- The hazard classes are identical in both generations, so they are modelled once (`Hazards`).

Modules, following the program's structure:

- `Config`: the constants of `src/config.py`.
- `GameObjects`: rectangles, truncation, the overlap test, status effects and their speed modifiers, and `GameObject.update_rect`.
- `ElementSystem`: the element damage table. It covers weaknesses and resistances, the minimum damage of 1, the status effect an element applies, effectiveness ratings and pop-up styling.
- `PlayerModule`: the player. It covers input edge detection, the ground, double and wall jumps, shooting and melee cooldowns, movement, platform collision by minimum overlap, wall sliding, and health.
- `Monsters`: the monster base class. It covers status effects, the attack, chase and patrol AI, knockback, gravity, the home-platform clamp, minimum-overlap collision, the screen clamp and damage. It also has the projectile lists the archetypes fire.
- `MonsterKinds`: the lava, water and tornado monsters.
- `Sniper`: the sniper boss. It covers tracking bullets, the jump and shockwave cycle, dodging, healing and its own AI priority.
- `Weapon`: the player's bullets and the weapon manager.
- `BossSystem`: the phase-changing boss and its timed hazards (lava eruption, mega tornado), plus the boss manager.
- `BossBullets`: the boss bullets of the newer monster manager.
- `MonsterRoster`: the monster list shared by both managers, its dead-monster filter and its distance queries.
- `SrcMonsterManager` and `RootMonsterManager`: the two monster managers.
- `Hazards`: lava pools, water currents and wind gusts.
- `RootLevelSystem` and `SrcLevelSystem`: the two level managers.
- `DamageDisplay`: the floating damage numbers.
- `Game`: the game's own state machine in `src/main.py`.
- `Minimap`: the minimap's mapping, icons and dragging.
- `Clouds`: the drifting clouds.

Objects whose fields the game updates in place are classes:
- Their methods carry `modifies` clauses.
- Each method's `ensures` ties the new state to a specification function of the old state.
- Loops carry the invariants of their running state.
- The properties that matter are lemmas about those functions.

Two kinds of entity are values instead. Each monster manager holds its monsters as a sequence of value records, and the weapon manager does the same for its bullets. The monsters' own classes are modelled separately.

Behaviour the code shows that goes against what its comments or documentation say:

- `ElementSystem.FireBonusUnreachable`: fire already lists the water monster as a weakness. So the separate x1.5 fire-against-water branch of `calculate_damage` can never be reached. The model keeps the code's order and proves that this outcome never happens; `ElementSystem.EffectivenessRating` proves the same for rating 2.
- `Minimap.ReleaseLetsGo`: a left button release clears the drag flag first and then returns it. So the release is never reported as handled, despite the comment saying otherwise.
- `Game.CameraStaysAtTop`: the vertical camera is clamped to 0 or more. The tower's upper layers and the star (at y = -2340) lie above the first screen, so the camera never scrolls up to them.
- `SrcLevelSystem.SectionShape`: the move of a platform back inside the level, when `x + w` exceeds the level width, can never fire. The draws keep every platform inside its own third.
- `MonsterKinds`: the archetypes' `attack_player` overrides try the base melee attack first. `update_ai` only calls them when that melee attack can succeed, so their ranged attack bands are never reached from `update`. Each archetype's `AttackPlayer` proves this.
- `BossSystem.Boss.TakeDamage`: `invulnerable` and `phase_transitioning` are always set and cleared together. So the x0.3 reduced-damage branch for a transitioning boss never runs. The model keeps the branch, and the contract shows that the damage dealt is always the full amount.
- `MonsterKinds.TornadoMonster.CreateWhirlwind`: a player standing exactly on the tornado (distance 0) starts its spin, but gets no whirlwind, no push and no damage, and the cooldown does not restart. So the tornado can spin again on the next frame.
- `Game.ElementalParkourShooter.ProgressPhase`: completing the last level sets the state to victory even when the same frame ended the game. The player's death does not block it.

## Model

| member | source | states |
|---|---|---|
| GameObjects.Trunc | src/core/game_objects.py:51-52 | Python's `int()` on a float truncates toward zero: the result is within 1 of the argument, on the side of 0 |
| GameObjects.TruncMonotone | src/core/game_objects.py:51-52 | truncation preserves order: a larger position never gets a smaller rect coordinate |
| GameObjects.RectOf | src/core/game_objects.py:42 | a `pygame.Rect` built from a float position holds the truncated coordinates and the given size |
| GameObjects.Synced | src/core/game_objects.py:44-52 | after `update_rect` the rect's corner is the truncated position and its width and height are unchanged |
| GameObjects.CollideSymmetric | src/systems/level_system.py:575 | the rect overlap test used for every collision does not depend on which rect asks |
| GameObjects.GameObject.constructor | src/core/game_objects.py:35-42 | a new object sits at its position with a rect that matches it |
| GameObjects.GameObject.UpdateRect | src/core/game_objects.py:44-52 | `update_rect` moves only the rect's x and y to the truncated position; the position and size are untouched |
| GameObjects.SpeedModifier | src/core/game_objects.py:123-154 | an expired effect gives 1.0 whatever its type; an active slow gives exactly `1 - intensity`, an active paralysis 0.0, any other type 1.0; with intensity in [0, 1] the result is in [0, 1] |
| GameObjects.MinModifier | src/entities/player.py:378-385 | the running minimum from 1.0 over the effects' modifiers is at most 1.0, and not negative when every intensity is in [0, 1] |
| GameObjects.MinModifierIsMinimum | src/entities/player.py:378-385 | the combined modifier is at most every effect's modifier and equals 1.0 or one of them, so with no effects it is 1.0 |
| GameObjects.ActiveOnly | src/entities/monsters.py:83-85 | the filter of active effects never makes the list longer |
| GameObjects.ActiveOnlyKeepsActive | src/entities/monsters.py:83-85 | an effect survives the filter exactly when it was in the list and is active |
| GameObjects.MinModifierIgnoresExpired | src/core/game_objects.py:144-145 | dropping expired effects never changes the combined modifier, because they contribute 1.0 |
| ElementSystem.KeysCoverTables | element_system.py:19-31 | every element with a non-empty target list is a key of WEAKNESS_MAP or RESISTANCE_MAP |
| ElementSystem.CalculateDamage | element_system.py:54-87 | the damage is at least 1; a weakness pair gives `int(base * 2.0)`, a resisted pair `int(base * 0.5)`, each raised to 1, and any other pair the base raised to 1 |
| ElementSystem.WeaknessDoubles | element_system.py:69-80 | a weakness hit on a positive base doubles it and a resisted hit halves it, rounding toward zero, never below 1 |
| ElementSystem.FireBonusUnreachable | element_system.py:83-84 | fire is already a weakness of `water_monster`, so the x1.5 fire-against-water branch never decides the damage |
| ElementSystem.GetStatusEffect | element_system.py:89-119 | only ice and thunder give an effect: ice a slow, thunder a paralysis; against their enhanced target the intensity is replaced (0.8, 1.0) and the duration multiplied (1.5, 1.2) |
| ElementSystem.DamageTypeDescription | element_system.py:121-149 | the description follows the same weakness, resistance, fire-against-water order as the damage, and the fire-against-water text is never produced |
| ElementSystem.KeysListing | element_system.py:194-200 | the loop over a map's items lists exactly the keys whose target list holds the monster type, in key order |
| ElementSystem.EffectivenessRating | element_system.py:222-249 | the rating is 3 exactly for a weakness, 0 exactly for a resisted non-weakness, and is never 2 |
| ElementSystem.WeaknessMatchesRating | element_system.py:184-237 | an element is in `get_monster_weakness(t)` exactly when its rating against t is 3 |
| ElementSystem.ResistanceMatchesTable | element_system.py:203-219 | an element is in `get_monster_resistance(t)` exactly when RESISTANCE_MAP lists t under it |
| ElementSystem.DamagePopupInfo | element_system.py:252-291 | the pop-up's damage is `calculate_damage` (so at least 1), its description the damage-type text, and yellow x1.5, grey x0.8 or white x1.0 by weakness, resistance or neither |
| ElementSystem.PopupStyleByRating | element_system.py:271-283 | the colour and size depend on the rating alone |
| PlayerModule.ResolvePlatform | src/entities/player.py:307-349 | a platform that does not overlap the rect changes nothing; a wall side is set only together with wall-sliding; sliding starts only when airborne and falling; the double jump is restored only by landing |
| PlayerModule.Min4 | src/entities/player.py:317-319 | `min` of the four overlaps is at most each of them and equal to one of them |
| PlayerModule.ResolveAllWallConsistent | src/entities/player.py:299-349 | through any list of platforms, `wall_direction` is 1 or -1 exactly while wall-sliding and 0 otherwise |
| PlayerModule.ResolveAllNoContact | src/entities/player.py:306-307 | when no platform overlaps the player's rect the loop changes nothing |
| PlayerModule.GroundNeedsContact | src/entities/player.py:299-326 | the player ends the loop on the ground only if some platform overlapped its rect |
| PlayerModule.LandingOnTop | src/entities/player.py:321-326 | landing happens only while falling, and sets `y = top - height`, `vy = 0`, `on_ground` and `can_double_jump`, nothing else |
| PlayerModule.ClampToScreen | src/entities/player.py:352-357 | after the clamp x is in `[0, SCREEN_WIDTH - width]`; vx is zeroed whenever x moved; a player already inside is untouched |
| PlayerModule.MoveStep | src/entities/player.py:255-274 | gravity applies only in the air and leaves `vy <= MAX_FALL_SPEED`; on the ground vy is unchanged; the position moves by the new velocity |
| PlayerModule.FrameMotion | src/entities/player.py:255-277 | after steering, falling, moving and colliding, x is always within the screen |
| PlayerModule.Facing | src/entities/player.py:182-184 | the facing follows the sign of the aim's x and stays put when it is 0 |
| PlayerModule.AimPointsAtMouse | src/entities/player.py:155-184 | the aim is the offset from the centre divided by its length, so it points at the mouse and the player faces its side; a zero-length aim falls back to `(facing_direction, 0)` |
| PlayerModule.BulletChoiceStaysElemental | src/entities/player.py:101-108 | the bullet type stays one of the four elements; it changes only on a number key, and key 1 wins over the others |
| PlayerModule.AfterDamage | src/entities/player.py:409-414 | health after a hit is never negative and equals the difference while that stays positive |
| PlayerModule.HitsStep | src/entities/player.py:399-414 | one more hit leaves the health that take_damage gives from the health after the earlier hits, and is survived exactly when the earlier ones were and it leaves health above 0 |
| PlayerModule.HitsSubtract | src/entities/player.py:399-414 | with non-negative damages, a run of hits is survived exactly when the health exceeds their total, and then exactly that total is lost |
| PlayerModule.Player.constructor | src/entities/player.py:32-64 | a new player at the given point: still, airborne, with a double jump, full health, water bullets, facing right, no effects and no keys held |
| PlayerModule.Jumped | src/entities/player.py:111-138 | a jump never leaves the player on the ground, only the ground jump and the wall jump leave the double jump ready, and the jump changes nothing exactly when the player is in the air with no double jump and no wall |
| PlayerModule.Player.Jump | src/entities/player.py:111-138 | the new jump state is `Jumped` of the old one: ground jump first (`vy = PLAYER_JUMP_STRENGTH`, double jump restored), then the double jump (consumed), then the wall jump (`vx = -wall_direction * WALL_JUMP_PUSH`, sliding cleared, double jump restored); otherwise nothing changes |
| PlayerModule.Player.Shoot | src/entities/player.py:140-197 | within FIRE_RATE of the last shot nothing happens; otherwise the shot leaves the centre along the aim, the clock is recorded and the player faces the aim's side |
| PlayerModule.Player.MeleeAttack | src/entities/player.py:199-233 | within the 0.5 s cooldown nothing happens; otherwise the attack box is 80 px wide on the facing side, with the melee damage and knockback |
| PlayerModule.Player.HandleInput | src/entities/player.py:66-109 | movement keys are copied; on the jump key's rising edge the jump state becomes `Jumped` of the old one (ground, double, wall or no jump), otherwise velocity, ground contact, double jump and wall slide all stay; shoot and melee fire only on the frame their button goes down; keys 1-4 pick the bullet type |
| PlayerModule.Player.MoveKeys | src/entities/player.py:70-78 | the movement keys are copied; on the jump key's rising edge the jump state becomes `Jumped` of the old one, otherwise it is unchanged, wall slide included |
| PlayerModule.Player.MouseButtons | src/entities/player.py:80-108 | shoot and melee run only on their button's rising edge; then the bullet-type keys apply |
| PlayerModule.Player.SelectBulletType | src/entities/player.py:100-108 | the bullet type becomes the choice of the number keys, key 1 first |
| PlayerModule.Player.JumpKey | src/entities/player.py:73-78 | on the rising edge the jump state becomes `Jumped` of the old one, otherwise it is unchanged, wall slide included; the key state is remembered |
| PlayerModule.Player.ShootButton | src/entities/player.py:80-83 | a shot is tried only on the rising edge; the button state is remembered |
| PlayerModule.Player.MeleeButton | src/entities/player.py:85-88 | a melee attack is tried only on the rising edge; the button state is remembered |
| PlayerModule.Player.HandleCollisions | src/entities/player.py:286-357 | the contact flags are cleared, every platform is resolved against the rect taken before the loop, and x ends within the screen |
| PlayerModule.Player.ResolveAgainst | src/entities/player.py:307-349 | one platform of the loop changes the player as ResolvePlatform says |
| PlayerModule.Player.KeepOnScreen | src/entities/player.py:352-357 | the screen clamp changes the player as ClampToScreen says |
| PlayerModule.Player.UpdateStatusEffects | src/entities/player.py:359-369 | only the effects still active remain |
| PlayerModule.Player.GetSpeedModifier | src/entities/player.py:371-385 | the running minimum of the modifiers from 1.0: at most 1.0, and exactly 1.0 with no effects |
| PlayerModule.Player.AddStatusEffect | src/entities/player.py:387-397 | exactly one effect, started now, is appended |
| PlayerModule.Player.TakeDamage | src/entities/player.py:399-414 | it reports death exactly when the health drops to 0 or below; health is then clamped to 0 and the player dies, otherwise it loses exactly the damage |
| PlayerModule.Player.Heal | src/entities/player.py:416-425 | health rises by the amount but never above max_health |
| PlayerModule.Player.Steer | src/entities/player.py:255-274 | the steering, gravity and position step change the player as MoveStep says; the player turns to the one held direction key and keeps facing otherwise |
| PlayerModule.Player.Move | src/entities/player.py:255-277 | the motion of a frame changes the player as FrameMotion says; the facing follows the one held direction key (HeldFacing) |
| PlayerModule.Player.Update | src/entities/player.py:235-284 | expired effects go; the motion is FrameMotion at the remaining modifier; the rect follows the position; falling more than 100 px below the screen kills the player, otherwise health and life are unchanged; the facing follows the one held direction key (HeldFacing) |
| PlayerModule.Player.EffectsAndMove | src/entities/player.py:249-277 | effects are filtered before the speed modifier is taken, then the frame's motion follows and the facing follows the one held direction key |
| PlayerModule.Player.Settle | src/entities/player.py:280-284 | the rect follows the position, and only a fall past `SCREEN_HEIGHT + 100` kills |
| PlayerModule.TakeNextHit | src/entities/player.py:399-414 | one more hit keeps health and life equal to the whole run's fold |
| Monsters.Knockback | src/entities/monsters.py:275-279 | a positive knockback pushes vx along its direction and decays by 0.8, snapping to 0 below 1, so it never grows; a non-positive one changes nothing |
| Monsters.FallAndMove | src/entities/monsters.py:282-289 | gravity only in the air, with vy capped at MAX_FALL_SPEED; on the ground vy is kept; the position moves by the velocity |
| Monsters.HomeClamp | src/entities/monsters.py:312-337 | a monster without a home platform is untouched |
| Monsters.HomeClampKeepsInside | src/entities/monsters.py:316-337 | on a home platform wide enough for the monster and both margins, the clamp leaves x between the margins; a moved monster stops and turns right exactly when it reached the left margin |
| Monsters.ResolvePlatform | src/entities/monsters.py:350-381 | a platform that does not overlap changes nothing; landing happens only while falling and sets y to the platform top; a vertical snap zeroes vy; the direction turns away from the wall only on a side hit toward it; vx is never changed |
| Monsters.ResolveAllDirection | src/entities/monsters.py:346-381 | through any list of platforms the patrol direction stays 1 or -1 and vx is unchanged |
| Monsters.LandingNeedsContact | src/entities/monsters.py:346-366 | a monster ends the loop on the ground only if some platform overlapped its rect |
| Monsters.ScreenClamp | src/entities/monsters.py:298-303 | x ends within `[0, SCREEN_WIDTH - width]`; a moved monster sits at an edge facing inward; one already inside is untouched |
| Monsters.AdvanceProjectiles | src/entities/monsters.py:594-614 | the survivors are never more than the originals and all lie on the screen |
| Monsters.AdvanceProjectilesMembers | src/entities/monsters.py:594-614 | a projectile is in the result exactly when it is the moved image of an original that had not expired and lands on the screen |
| Monsters.AdvanceAll | src/entities/monsters.py:966-987 | the survivors loop builds exactly AdvanceProjectiles |
| Monsters.Misses | src/entities/monsters.py:641-668 | the kept projectiles come from the list, in order, and none of them hits the target |
| Monsters.HitDamages | src/entities/monsters.py:641-668 | one damage per hitting projectile, so never more than the projectiles |
| Monsters.HitsAndMissesPartition | src/entities/monsters.py:641-668 | hits and misses split the list: their counts add up, and there is no hit exactly when nothing is removed |
| Monsters.UnlistedGap | src/entities/monsters.py:664-666 | a stretch with no listed index is kept whole by the deletion |
| Monsters.NothingBetween | src/entities/monsters.py:664-666 | between consecutive entries of an ascending index list nothing is listed |
| Monsters.NothingBefore | src/entities/monsters.py:664-666 | nothing before the first entry of an ascending index list is listed |
| Monsters.UnlistedSkip | src/entities/monsters.py:664-666 | a listed first position is deleted |
| Monsters.UnlistedFromListed | src/entities/monsters.py:664-666 | after a listed position, the deletion keeps exactly the stretch up to the next listed one |
| Monsters.DeleteAt | src/entities/monsters.py:664-666 | deleting one position of a sequence removes exactly that element |
| Monsters.DeleteListed | src/entities/monsters.py:664-666 | deleting the listed positions back to front leaves exactly the unlisted elements, in order |
| Monsters.UnlistedAreMisses | src/entities/monsters.py:641-668 | with exactly the hit positions listed, the deletion leaves exactly the misses |
| Monsters.UnlistedGapLast | src/entities/monsters.py:664-666 | the deletion over a list is the deletion over its front plus its last element unless that is listed |
| Monsters.HitDamagesStep | src/entities/monsters.py:649-662 | one more projectile adds its damage exactly when it hits |
| Monsters.StrikePlayer | src/entities/monsters.py:641-668 | the kept list is exactly the misses, a hit is reported exactly when some projectile hit, and the player's health and life are the fold of the hit damages in order |
| Monsters.HitPositionsFacts | src/entities/monsters.py:649-662 | the listed hit positions ascend, lie in range, are exactly the hitting projectiles and count the hit damages |
| Monsters.HitPositionsAscend | src/entities/monsters.py:649-662 | the hit positions ascend and lie below the scanned length |
| Monsters.HitPositionsMembers | src/entities/monsters.py:649-662 | a scanned position is listed exactly when its projectile hits |
| Monsters.HitPositionsCount | src/entities/monsters.py:649-662 | there are as many hit positions as hit damages |
| Monsters.MarkHits | src/entities/monsters.py:649-662 | the first loop lists exactly the hit positions and applies the hit damages to the player in order |
| Monsters.StrikeOne | src/entities/monsters.py:652-662 | a projectile damages the player exactly when its box meets the player's rect; a miss leaves the player alone |
| Monsters.LowestModifier | src/entities/monsters.py:87-93 | the loop computes the running minimum of the modifiers from 1.0 |
| Monsters.Monster.constructor | src/entities/monsters.py:40-76 | a new monster with full health, at rest, airborne, patrolling, without a home platform, effects or knockback, with a 2 s attack cooldown |
| Monsters.Monster.UpdateStatusEffects | src/entities/monsters.py:78-93 | expired effects go and the current speed is the base speed scaled by the remaining minimum modifier; with no effects it is the base speed |
| Monsters.Monster.AddStatusEffect | src/entities/monsters.py:95-105 | exactly one effect, started now, is appended |
| Monsters.Monster.DetectPlayer | src/entities/monsters.py:107-125 | the monster sees a living player exactly when the distance is within its detection range |
| Monsters.Monster.CanAttackPlayer | src/entities/monsters.py:127-150 | an attack is possible exactly when the living player is within reach and the cooldown has passed |
| Monsters.Monster.MoveTowardsPlayer | src/entities/monsters.py:152-177 | toward a living player at positive distance vx is the unit offset times the current speed; a jump (vy = -12) happens only when grounded and the player is over 50 px higher and less than 100 px away horizontally |
| Monsters.Monster.PatrolMovement | src/entities/monsters.py:179-187 | vx follows the current direction at the current speed, and a random draw below 0.01 turns the monster round |
| Monsters.Monster.ApplyKnockback | src/entities/monsters.py:189-198 | the knockback force and direction are stored |
| Monsters.Monster.TakeDamage | src/entities/monsters.py:200-215 | it reports death exactly when health reaches 0 or below; health is then 0 and the monster dead, otherwise health drops by exactly the damage |
| Monsters.Monster.AttackPlayer | src/entities/monsters.py:217-239 | it attacks exactly when an attack is possible; then the player takes the monster's damage and the cooldown restarts, otherwise nothing changes |
| Monsters.Monster.UpdateAi | src/entities/monsters.py:241-265 | a dead monster does nothing; otherwise it attacks when it can, else chases a detected player, else patrols; only an attack harms the player |
| Monsters.Monster.CheckPlatformBoundary | src/entities/monsters.py:312-337 | the body changes as HomeClamp says |
| Monsters.Monster.HandleCollisions | src/entities/monsters.py:339-381 | on_ground is cleared and every platform is resolved against the rect taken before the loop |
| Monsters.Monster.ResolveAgainst | src/entities/monsters.py:350-381 | one platform changes the body as ResolvePlatform says |
| Monsters.Monster.KnockbackAndFall | src/entities/monsters.py:274-289 | knockback and then gravity and the position step, as Knockback and FallAndMove say |
| Monsters.Monster.UpdatePhysics | src/entities/monsters.py:267-310 | knockback, gravity, home clamp, collisions and the screen clamp in order; x ends on the screen; the monster dies exactly when it falls past `SCREEN_HEIGHT + 100`; the rect follows the position |
| Monsters.Monster.MoveAndCollide | src/entities/monsters.py:274-295 | the movement, the home clamp and the collisions in order |
| Monsters.Monster.Settle | src/entities/monsters.py:297-310 | the screen clamp, the fall death and the rect sync |
| Monsters.Monster.Update | src/entities/monsters.py:383-401 | a dead monster is frozen; a live one has its expired effects dropped and ends on the screen |
| MonsterKinds.LavaMonster.constructor | src/entities/monsters.py:492-511 | a lava monster with the LAVA_MONSTER_* size, health, damage and speed, a 3 s lava-ball cooldown, no balls and no heal timer |
| MonsterKinds.LavaMonster.BossUpgrade | src/systems/monster_manager.py:338-343 | the boss fires every second and heals 2 health every 5 s |
| MonsterKinds.LavaMonster.CreateLavaBall | src/entities/monsters.py:551-592 | no ball exactly while on cooldown or with the target at the centre; otherwise exactly one ball is appended, aimed from the centre at the target at 8 px per frame, with the monster's damage and a 3 s life, and the clock is recorded |
| MonsterKinds.LavaMonster.UpdateLavaBalls | src/entities/monsters.py:594-614 | the balls become AdvanceProjectiles of the old balls |
| MonsterKinds.LavaMonster.AttackPlayer | src/entities/monsters.py:616-639 | the base melee wins when it can attack, firing no ball; otherwise the player is untouched and a ball is fired exactly when the player is more than 60 and at most 150 px away, the ball cooldown has passed and the aim is not degenerate |
| MonsterKinds.LavaMonster.CheckLavaBallCollision | src/entities/monsters.py:641-668 | exactly the missing balls stay, a hit is reported exactly when some ball hit, and the player takes every hit's damage in order |
| MonsterKinds.LavaMonster.AutoHeal | src/entities/monsters.py:669-685 | without heal attributes or before the cooldown nothing changes; otherwise health rises by the heal amount capped at max_health (never falling) and the heal timer restarts |
| MonsterKinds.LavaMonster.Update | src/entities/monsters.py:687-705 | a live monster's balls end as the misses of the advanced balls; a dead one keeps its balls and heal timer |
| MonsterKinds.WaterMonster.constructor | src/entities/monsters.py:849-870 | a water monster with the WATER_MONSTER_* stats, a 2.5 s splash cooldown, a 4 s dash cooldown and no bullets |
| MonsterKinds.WaterMonster.CreateWaterSplash | src/entities/monsters.py:892-934 | on cooldown nothing happens; otherwise exactly five bullets are appended, one per fan direction, from the centre at 6 px per frame with half the monster's damage and a 2 s life |
| MonsterKinds.WaterMonster.DashTowardsPlayer | src/entities/monsters.py:936-964 | a dash happens exactly when off cooldown and the player is at positive distance within 200 px; vx is then 15 px per frame toward the player |
| MonsterKinds.WaterMonster.UpdateWaterBullets | src/entities/monsters.py:966-986 | the bullets become AdvanceProjectiles of the old bullets |
| MonsterKinds.WaterMonster.AttackPlayer | src/entities/monsters.py:988-1016 | the base melee wins when it can attack; otherwise a splash for a player more than 60 and at most 120 px away, a dash from 120 to 200 px, and nothing beyond |
| MonsterKinds.WaterMonster.CheckWaterBulletCollision | src/entities/monsters.py:1018-1044 | exactly the missing bullets stay, and the player takes every hit's damage in order |
| MonsterKinds.WaterMonster.Update | src/entities/monsters.py:1046-1061 | a live monster's bullets end as the misses of the advanced bullets; a dead one keeps them |
| MonsterKinds.FirstFit | src/entities/monsters.py:1965-1983 | the spot found fits on the screen, one is found exactly when some attempt fits, and it is one of the attempts |
| MonsterKinds.TornadoMonster.constructor | src/entities/monsters.py:1874-1893 | a tornado monster with the TORNADO_MONSTER_* stats, a 3 s whirlwind cooldown, an 8 s teleport cooldown and no spin |
| MonsterKinds.TornadoMonster.CreateWhirlwind | src/entities/monsters.py:1895-1940 | off cooldown and within 80 px the spin starts for 1.5 s; a whirlwind is made exactly when the player is also not exactly on the monster, and then the player is pushed away along x and up and damaged, and stays alive exactly when it was alive and the hit leaves it health above 0; otherwise the player is untouched |
| MonsterKinds.TornadoMonster.AttemptTeleport | src/entities/monsters.py:1942-1985 | the monster moves exactly when off cooldown, more than 200 px from the player and some attempt fits; it then lands on the first fitting spot, on the screen, and records the clock |
| MonsterKinds.TornadoMonster.UpdateSpinState | src/entities/monsters.py:1987-1995 | a spin loses one 1/60 s tick and ends, with the timer at 0, when it runs out; no spin stays no spin |
| MonsterKinds.TornadoMonster.AttackPlayer | src/entities/monsters.py:1997-2016 | the base melee wins when it can attack, without a whirlwind; otherwise it attacks exactly when a whirlwind is made |
| MonsterKinds.TornadoMonster.UpdateAi | src/entities/monsters.py:2018-2038 | a dead monster does not move; a live one ends at the teleport spot, patrols along its direction or chases from there with the sway added to vx |
| MonsterKinds.TornadoMonster.Update | src/entities/monsters.py:2040-2052 | a dead monster is frozen; a live one ends on the screen and its spin timer only runs down |
| Sniper.HomedStepDirection | src/entities/monsters.py:1344-1360 | a homing step sets the velocity to TRACKING_SPEED along the line to the target and moves the bullet by it |
| Sniper.HomeProjectiles | src/entities/monsters.py:1329-1366 | the kept bullets are never more than the originals and all lie on the screen |
| Sniper.HomeProjectilesMembers | src/entities/monsters.py:1329-1366 | a bullet is kept exactly when it is the homed image of an unexpired original and lands on the screen |
| Sniper.StrikesOnce | src/entities/monsters.py:1474-1503 | a wave that strikes remembers it and never strikes again |
| Sniper.AdvanceWaves | src/entities/monsters.py:1455-1510 | the surviving waves are never more than the originals |
| Sniper.WaveDamages | src/entities/monsters.py:1465-1508 | at most one damage per wave |
| Sniper.WaveStep | src/entities/monsters.py:1462-1510 | one more wave is kept, grown, exactly when it lasts, and adds its damage exactly when it strikes |
| Sniper.SpentWavesHarmless | src/entities/monsters.py:1476-1503 | waves that have all struck deal no damage and stay spent |
| Sniper.WavePushStep | src/entities/monsters.py:1476-1503 | one more wave adds its Knock and 5 px/frame upward to the push exactly when it strikes at a positive distance |
| Sniper.HarmlessWavesPushNothing | src/entities/monsters.py:1476-1503 | waves that deal no damage give the player no push |
| Sniper.JumpStep | src/entities/monsters.py:1599-1621 | a shockwave is made exactly on the step where a jumping boss touches ground while not rising; landing ends the jump; nothing happens without a jump, and no step starts one |
| Sniper.OneShockwavePerJump | src/entities/monsters.py:1599-1621 | a jump begun makes at most one shockwave over any run of frames, and exactly one once it is over; without a jump none is made |
| Sniper.FirstThreat | src/entities/monsters.py:1528-1566 | a threat found is one of the bullets and threatens; none is found exactly when no bullet threatens |
| Sniper.FindThreat | src/entities/monsters.py:1528-1566 | the scan loop returns exactly the first threat |
| Sniper.SniperBoss.constructor | src/entities/monsters.py:1195-1244 | a sniper boss with detection range 300, attack range 250, 2 s bullet, 6 s shockwave and 5 s heal cooldowns, no bullets, waves, jump or dodge |
| Sniper.SniperBoss.CreateTrackingBullet | src/entities/monsters.py:1290-1327 | a bullet is made exactly when off cooldown: one still bullet at the centre with the boss's damage and a 7 s life, appended, and the clock is recorded |
| Sniper.SniperBoss.UpdateTrackingBullets | src/entities/monsters.py:1329-1366 | the bullets become HomeProjectiles toward the player's centre |
| Sniper.SniperBoss.CheckTrackingBulletCollision | src/entities/monsters.py:1368-1395 | exactly the missing bullets stay, a hit is reported exactly when some bullet hit, the player takes every hit's damage in order and stays alive exactly when none of them was fatal |
| Sniper.SniperBoss.PerformShockwaveAttack | src/entities/monsters.py:1397-1429 | a jump starts exactly when off cooldown and the player is 50 to 300 px away: prepare phase for 0.5 s, vy = -25, clock recorded; otherwise nothing changes |
| Sniper.SniperBoss.CreateShockwave | src/entities/monsters.py:1431-1453 | exactly one wave, LandingWave, is appended: under the boss's feet, radius 0, not yet struck, growing 8 px a frame to 150, dealing int(1.2 x damage) |
| Sniper.SniperBoss.UpdateShockwaves | src/entities/monsters.py:1455-1510 | the waves become AdvanceWaves; the player takes the striking waves' damages in order, stays alive exactly when none was fatal, and its velocity gains WavePush (each strike's shove away from the wave centre and 5 px/frame up); without a strike the player is untouched |
| Sniper.SniperBoss.ShockAt | src/entities/monsters.py:1465-1508 | after wave i the player's health, life and velocity are those of the waves up to i (Shocked) |
| Sniper.SniperBoss.ShockPlayer | src/entities/monsters.py:1476-1503 | a striking wave damages the player (killing it exactly when the damage is fatal) and, at a positive distance, shoves it by Knock away from the wave's centre and 5 px/frame up; a wave that does not strike leaves it alone |
| Sniper.SniperBoss.DetectAndDodgeBullets | src/entities/monsters.py:1512-1566 | a dodging boss does not start another; otherwise it dodges exactly when some bullet threatens, for 0.8 s, away from the first threat's direction of travel |
| Sniper.SniperBoss.UpdateDodgeState | src/entities/monsters.py:1568-1583 | a dodge ticks down by 1/60 s, runs sideways at the boosted speed, keeps its direction while it lasts and ends exactly when the timer runs out |
| Sniper.SniperBoss.AutoHeal | src/entities/monsters.py:1585-1597 | before the cooldown nothing changes; otherwise health rises by heal_amount capped at max_health, never falling, and the clock is recorded |
| Sniper.SniperBoss.UpdateJumpState | src/entities/monsters.py:1599-1621 | the jump moves as JumpStep says; on its shockwave step exactly LandingWave is appended, otherwise the waves are unchanged |
| Sniper.SniperBoss.AttackPlayer | src/entities/monsters.py:1623-1642 | off cooldown, exactly TrackingBullet is appended and the clock recorded; else a shockwave jump (prepare 0.5 s, vy -25, clock recorded) when possible; else the base melee attack, which alone harms the player and happens exactly when can_attack_player holds |
| Sniper.SniperBoss.UpdateAi | src/entities/monsters.py:1644-1699 | a dead boss does nothing; a detected player gets TrackingBullet appended when off cooldown, else a jump when within 300 px (started exactly at 50 px or more), else a melee hit exactly when can_attack_player holds, else a chase; an undetected one means patrol; only an attack harms; under 80 px the boss backs away at 0.8 of its speed unless jumping |
| Sniper.SniperBoss.ChooseAttack | src/entities/monsters.py:1664-1690 | never patrols; off cooldown it appends TrackingBullet; else within 300 px with the jump ready it jumps exactly when 50 px or more away; else it attacks, dealing the boss's damage, exactly when can_attack_player holds, and chases otherwise; only an attack harms the player |
| Sniper.SniperBoss.Update | src/entities/monsters.py:1701-1733 | a dead boss and its bullets and waves are frozen; a live one ends on the screen |
| Sniper.SniperBoss.UpdateAttacks | src/entities/monsters.py:1712-1720 | the tracking bullets home on the player's centre and those that hit go; the waves become AdvanceWaves; the player takes the bullet hits and then the wave strikes in order, and its velocity gains WavePush |
| Sniper.SniperBoss.TrackingPass | src/entities/monsters.py:1713-1717 | the tracking bullets home on the player's centre, those that reach the player go, and the player takes their damage in order |
| Sniper.SniperBoss.UpdateTimers | src/entities/monsters.py:1722-1733 | the jump steps (appending LandingWave on landing), the heal fires exactly when due, a dodge still running keeps going, and otherwise a new dodge starts exactly when some player bullet threatens, for 0.8 s away from it |
| Weapon.BaseDamage | src/entities/weapon.py:70-83 | every base damage is at least 15; exactly the types outside the weapon table get 20; sniper 100, machine gun 15 |
| Weapon.Step | src/entities/weapon.py:85-114 | an inactive bullet is untouched; an active one moves one step along its direction at its speed and stays active exactly while within MAX_DISTANCE of its start; nothing else changes |
| Weapon.DamageAgainst | src/entities/weapon.py:116-132 | the bullet's own damage and no status effect, whatever the target |
| Weapon.MakeBullet | src/entities/weapon.py:232-256 | a new active bullet at the start point; the damage and speed overrides win when given, else the base damage and BULLET_SPEED |
| Weapon.Stepped | src/entities/weapon.py:299-300 | every bullet takes exactly its own step, in place |
| Weapon.Live | src/entities/weapon.py:303 | the filter keeps only active bullets and never adds any |
| Weapon.LiveMembers | src/entities/weapon.py:303 | a bullet is kept exactly when it was in the list and active |
| Weapon.LiveOfActive | src/entities/weapon.py:303 | a list of active bullets passes the filter unchanged |
| Weapon.LiveCount | src/entities/weapon.py:303-404 | the filter keeps as many bullets as get_bullet_count counts |
| Weapon.FirstHit | src/entities/weapon.py:322-355 | the target found overlaps and none before it does; none is found exactly when no target overlaps |
| Weapon.Hits | src/entities/weapon.py:318-355 | at most one collision per bullet, each naming a bullet of the list |
| Weapon.HitsExact | src/entities/weapon.py:318-355 | a collision is reported exactly for an active bullet, against its first overlapping target, with its damage |
| Weapon.RemovalListExact | src/entities/weapon.py:316-354 | a bullet's index is listed for removal exactly when it is active and overlaps some target |
| Weapon.HitsAscend | src/entities/weapon.py:318-355 | collisions come in bullet order, each bullet at most once |
| Weapon.Deactivated | src/entities/weapon.py:358-360 | the list keeps its length and every bullet apart from its active flag |
| Weapon.DeactivatedExact | src/entities/weapon.py:318-360 | a bullet stays active after the check exactly when it was active and overlapped no target |
| Weapon.MeleeHits | src/entities/weapon.py:258-292 | at most one hit per target |
| Weapon.MeleeHitsExact | src/entities/weapon.py:258-292 | exactly the targets overlapping the attack rect are hit, in ascending order |
| Weapon.WeaponManager.constructor | src/entities/weapon.py:199-200 | a manager with no bullets |
| Weapon.WeaponManager.CreateBullet | src/entities/weapon.py:202-230 | one bullet per piece of shot information, made as MakeBullet says, appended in order and returned |
| Weapon.WeaponManager.HandleMeleeAttack | src/entities/weapon.py:258-292 | no attack hits nothing; an attack hits exactly MeleeHits of its rect |
| Weapon.WeaponManager.UpdateBullets | src/entities/weapon.py:294-303 | the bullets become the active ones among the stepped bullets |
| Weapon.WeaponManager.CheckBulletCollisions | src/entities/weapon.py:305-362 | the results are exactly Hits and the bullets become Deactivated |
| Weapon.WeaponManager.ScanOne | src/entities/weapon.py:318-355 | a collision exactly for an active bullet that overlaps a target, naming the first such target and the bullet's damage |
| Weapon.WeaponManager.ScanHits | src/entities/weapon.py:315-355 | the collisions are exactly Hits, and a bullet is listed for removal exactly when it is active and overlaps a target |
| Weapon.WeaponManager.RemoveListed | src/entities/weapon.py:358-360 | deactivating the listed bullets yields exactly Deactivated |
| Weapon.WeaponManager.Update | src/entities/weapon.py:364-382 | with no targets the bullets are only stepped and filtered, with no results; with targets the collisions run on the filtered bullets |
| Weapon.WeaponManager.BulletCount | src/entities/weapon.py:397-404 | the number of active bullets |
| Weapon.WeaponManager.ClearAllBullets | src/entities/weapon.py:406-410 | no bullets remain |
| Weapon.CountAfterUpdate | src/entities/weapon.py:294-404 | right after update_bullets the count is the list's length |
| BossSystem.Threshold | src/systems/boss_system.py:82-84 | the threshold read in a phase is the table entry at min(phase - 1, last), always in [0, 1) |
| BossSystem.RatioAtMostIsRatio | src/systems/boss_system.py:81-86 | the cross-multiplied test agrees with `health / max_health <= threshold` for a positive maximum |
| BossSystem.PhaseUpgrade | src/systems/boss_system.py:241-257 | a LavaTornadoBoss entering phase 2 or 3 gets the 2.5 s or 2.0 s interval and never less damage; in any other case, and for the TsunamiBoss, nothing changes |
| BossSystem.EruptionStep | src/systems/boss_system.py:548-568 | an eruption never pushes; it ends exactly when active past warning plus active time; a warning turns active at the warning time; only an active eruption burns |
| BossSystem.TornadoStep | src/systems/boss_system.py:609-639 | the tornado ends exactly at its lifetime, doing nothing then; otherwise it grows while below the maximum and turns by 5 x dt; any burn is damage x dt |
| BossSystem.TornadoPushesOutward | src/systems/boss_system.py:627-634 | the push on the player points away from the tornado's centre on each axis |
| BossSystem.AdvanceAttacks | src/systems/boss_system.py:142-144 | the filter never keeps more attacks than it had |
| BossSystem.AttackHurts | src/systems/boss_system.py:142-144 | at most one damage entry per attack |
| BossSystem.WarningEruptionsHarmless | src/systems/boss_system.py:548-568 | eruptions still in their warning time deal no damage and all stay, unchanged |
| BossSystem.Boss.constructor | src/systems/boss_system.py:26-58 | phase 1, not invulnerable, full health and the kind's damage, a 3 s special-attack interval and no attacks |
| BossSystem.Boss.TakeDamage | src/systems/boss_system.py:59-89 | an invulnerable boss takes nothing and returns 0; otherwise the monster's damage rule applies and the call returns the damage taken, the "actual damage" the method documents (the source's `super().take_damage(damage, damage_type)` passes one argument too many to `Monster.take_damage`, which would return a death flag); a transition starts exactly when the health ratio is at most the threshold and phases remain; the phase rises by at most one |
| BossSystem.Boss.StartPhaseTransition | src/systems/boss_system.py:91-100 | once per transition: the next phase, invulnerable, timer reset; a running transition is untouched |
| BossSystem.Boss.UpdatePhaseTransition | src/systems/boss_system.py:102-115 | the timer runs only during a transition; it completes exactly when the timer reaches TRANSITION_DURATION, clearing both flags and applying PhaseUpgrade once; otherwise the stats are unchanged |
| BossSystem.Boss.OnPhaseChange | src/systems/boss_system.py:241-257 | the stats become PhaseUpgrade of the new phase |
| BossSystem.Boss.UpdateSpecialAttacks | src/systems/boss_system.py:123-144 | an attack fires exactly when the interval has passed and no transition is running, restarting the clock; then the attacks become AdvanceAttacks, their pushes are added to the player's velocity and their damages are returned in order as AttackHurts |
| BossSystem.Boss.RunAttacks | src/systems/boss_system.py:142-144 | the filtering pass keeps AdvanceAttacks, adds AttackPush to the player's velocity and returns AttackHurts |
| BossSystem.Boss.ScanAttacks | src/systems/boss_system.py:142-144 | one pass over the attacks yields exactly the kept attacks, the damages in order and the summed push |
| BossSystem.PhaseBounds | src/systems/boss_system.py:86 | a phase that rises by at most one, and only below the last, stays between 1 and MAX_PHASES |
| BossSystem.ShouldSpawnBossEveryThird | src/systems/boss_system.py:1016-1028 | a boss is due exactly on waves 3, 6, 9, ... |
| BossSystem.BossManager.constructor | src/systems/boss_system.py:1009-1014 | no boss, not active, no music, the defeat timer at 0 |
| BossSystem.BossManager.SpawnBoss | src/systems/boss_system.py:1030-1054 | a living boss stays; otherwise the battle and its music start, with a new phase-1 boss of the theme's kind (tsunami under water, lava for volcano and hurricane) and no new boss for any other theme |
| BossSystem.BossManager.Update | src/systems/boss_system.py:1056-1076 | nothing without an active boss; a living boss reports no defeat; a dead one runs the timer and the defeat is reported, ending the battle, exactly when the timer reaches 2 s |
| BossSystem.BossManager.CurrentBoss | src/systems/boss_system.py:1131-1138 | the boss is handed out exactly while the battle is active |
| BossSystem.DefeatHidesBoss | src/systems/boss_system.py:1069-1138 | after the battle ends no boss is handed out |
| BossBullets.Moved | src/systems/monster_manager.py:738-739 | a bullet moves by its velocity and nothing else changes |
| BossBullets.AdvanceFire | src/systems/monster_manager.py:729-753 | the kept fire bullets are never more than before, all on the screen and none touching the player |
| BossBullets.FireDamages | src/systems/monster_manager.py:741-747 | at most one damage per fire bullet |
| BossBullets.AdvanceFireMembers | src/systems/monster_manager.py:732-751 | a bullet is kept exactly when it is the moved image of an original that is young, misses the player and stays on the screen |
| BossBullets.FireAccounting | src/systems/monster_manager.py:732-751 | kept bullets plus hits never outnumber the bullets: a hitting bullet disappears |
| BossBullets.FireStep | src/systems/monster_manager.py:732-751 | one more bullet extends the kept list exactly when it is kept and the damages exactly when it hits |
| BossBullets.Blended | src/systems/monster_manager.py:790-806 | with the target at positive distance the velocity is the blend `(1 - s) v + s u BOSS_BULLET_SPEED`; otherwise it is kept; the bullet then moves by it |
| BossBullets.BlendExtremes | src/systems/monster_manager.py:796-802 | strength 0 flies straight on; strength 1 heads straight at the target at full speed |
| BossBullets.AdvanceTracking | src/systems/monster_manager.py:773-823 | the kept tracking bullets are never more than before and all lie within 200 px of the screen |
| BossBullets.TrackingDamages | src/systems/monster_manager.py:808-814 | at most one damage per tracking bullet |
| BossBullets.TrackStep | src/systems/monster_manager.py:776-821 | one more bullet extends the kept list with its blended image exactly when it is kept, and the damages exactly when it hits |
| BossBullets.StaleTrackingGone | src/systems/monster_manager.py:777-779 | bullets that have all outlived their lifetime are all dropped and deal nothing |
| MonsterRoster.Spawned | src/systems/monster_manager.py:189-197 | a new monster of the drawn kind stands at the spawn point, alive, with full positive health and positive damage |
| MonsterRoster.AliveOnly | src/systems/monster_manager.py:243-253 | the filter never adds monsters and keeps only living ones |
| MonsterRoster.AliveOnlyPartition | src/systems/monster_manager.py:243-253 | every monster is kept or counted killed, never both; the kept ones are exactly the living ones |
| MonsterRoster.AliveOnlyAppend | src/systems/monster_manager.py:243-253 | the filter works piecewise over a concatenation |
| MonsterRoster.AliveOnlyIdempotent | src/systems/monster_manager.py:243-253 | filtering twice changes nothing more |
| MonsterRoster.AliveCountIsSetSize | src/systems/monster_manager.py:919-926 | the alive count is the number of living positions |
| MonsterRoster.AllAlive | src/systems/monster_manager.py:243-253 | a list of living monsters passes the filter unchanged |
| MonsterRoster.InRange | src/systems/monster_manager.py:545-559 | the monsters in range are never more than the list |
| MonsterRoster.InRangeMembers | src/systems/monster_manager.py:545-559 | a monster is returned exactly when it is in the list, alive and no farther than the range |
| MonsterRoster.KindsAddUp | src/systems/monster_manager.py:935-945 | the per-kind counts add up to the alive count |
| MonsterRoster.KindCountIsSetSize | src/systems/monster_manager.py:935-945 | the per-kind count is the number of positions holding an alive monster of that kind |
| MonsterRoster.Closest | src/systems/monster_manager.py:561-587 | none exactly when no monster is alive; otherwise a living monster no farther than any other, and strictly nearer than every living one before it |
| MonsterRoster.WithinRange | src/systems/monster_manager.py:533-559 | the loop returns exactly InRange |
| MonsterRoster.CullDead | src/systems/monster_manager.py:243-253 | the loop keeps exactly the living monsters and counts exactly the dead |
| SrcMonsterManager.Placed | src/systems/monster_manager.py:186-197 | a new monster of the drawn kind at the spawn spot, alive, at full positive health, with its home platform set |
| SrcMonsterManager.ScaledNeverWeaker | src/systems/monster_manager.py:205-218 | from wave 1 on scaling never lowers max health or damage, refills health, touches nothing else, and wave 1 only refills |
| SrcMonsterManager.KeepOnly | src/systems/monster_manager.py:397-400 | marking monsters dead keeps the list's length |
| SrcMonsterManager.TrimLeavesThree | src/systems/monster_manager.py:391-400 | with more than three alive, exactly the three drawn monsters stay alive |
| SrcMonsterManager.Recruits | src/systems/monster_manager.py:409-428 | at most one living recruit per attempt |
| SrcMonsterManager.TopUpBound | src/systems/monster_manager.py:405-428 | the top-up never lowers the alive count and adds at most one per attempt |
| SrcMonsterManager.LavaBossAt | src/systems/monster_manager.py:312-352 | the stage-1 boss stands on its platform, alive, with 1500 health and double lava damage, and no fire bullets |
| SrcMonsterManager.SniperBossAt | src/systems/monster_manager.py:355-371 | the stage-2 boss stands at the spawn spot on its platform, alive, with the configured bullet interval and no bullets |
| SrcMonsterManager.Aimed | src/systems/monster_manager.py:600-703 | a boss bullet leaves the boss's centre toward the target at BOSS_BULLET_SPEED, with the configured damage and lifetime |
| SrcMonsterManager.MonsterManager.constructor | src/systems/monster_manager.py:28-44 | no monsters, a 2.5 s spawn interval, a cap of 9, wave 1, no kills, no boss, stage 1 and no pause |
| SrcMonsterManager.MonsterManager.SpawnMonster | src/systems/monster_manager.py:167-203 | nothing at the cap or without a spot; otherwise exactly one monster of the drawn kind, on its platform, scaled to the wave, is appended |
| SrcMonsterManager.MonsterManager.UpdateSpawnTimer | src/systems/monster_manager.py:220-234 | a spawn is due exactly when the timer reaches the interval, and then the timer restarts from 0 |
| SrcMonsterManager.MonsterManager.RemoveDeadMonsters | src/systems/monster_manager.py:236-263 | exactly the living monsters stay, in order; the dead are added to the kills; a dead boss adds one to the result only, and a dead lava boss loses its fire bullets |
| SrcMonsterManager.MonsterManager.CheckBossSpawnCondition | src/systems/monster_manager.py:265-288 | a boss is due exactly with ten kills, no boss spawned this stage, and in stage 2 the pause over |
| SrcMonsterManager.MonsterManager.SpawnBoss | src/systems/monster_manager.py:290-374 | a boss comes exactly when none is spawned or present and a spot exists: the lava boss in stage 1 with the monsters untouched, the sniper boss in stage 2 with the monsters becoming Escort (the drawn three kept alive out of more, or topped up toward three) |
| SrcMonsterManager.MonsterManager.SpawnAdditionalMonstersForSniperBoss | src/systems/monster_manager.py:376-436 | the monsters become Escort: more than three alive, exactly the drawn three stay alive; exactly three, nothing changes; fewer, one recruit per spot found for the number missing, never past three |
| SrcMonsterManager.MonsterManager.TrimToDraw | src/systems/monster_manager.py:391-400 | the trim loop leaves exactly the drawn three alive |
| SrcMonsterManager.MonsterManager.TopUp | src/systems/monster_manager.py:405-428 | the top-up loop appends exactly Recruits |
| SrcMonsterManager.MonsterManager.ResolveBossDeath | src/systems/monster_manager.py:479-507 | a dead lava boss opens stage 2 and the pause without a victory; a dead sniper boss is the victory; either way the boss is gone and its position reported; otherwise nothing changes |
| SrcMonsterManager.MonsterManager.AdvanceTransition | src/systems/monster_manager.py:509-514 | the pause timer runs while waiting, and the wait ends exactly when it reaches the delay |
| SrcMonsterManager.MonsterManager.Update | src/systems/monster_manager.py:439-531 | the kills grow by exactly the dead removed; a victory comes only from stage 2 and leaves no boss; the stage only moves from 1 to 2; a new monster is the living last entry |
| SrcMonsterManager.MonsterManager.CullAndSpawnBoss | src/systems/monster_manager.py:465-477 | the lava boss's fire bullets hit the player first; exactly the living monsters stay and the kills grow by the dead; the stage's boss spawns exactly when the kills reach 10 with no boss spawned, the pause over and a spot found, bringing the lava boss, or the sniper boss with the monsters becoming Escort; a present boss stays in place |
| SrcMonsterManager.MonsterManager.TimedSpawn | src/systems/monster_manager.py:517-520 | the spawn timer restarts exactly when it reaches the interval; a newcomer, the drawn kind placed on its spot and scaled to the wave, is appended exactly then, under the cap and with a spot; otherwise the list is unchanged |
| SrcMonsterManager.MonsterManager.GetMonstersInRange | src/systems/monster_manager.py:533-559 | exactly InRange of the list |
| SrcMonsterManager.MonsterManager.GetClosestMonster | src/systems/monster_manager.py:561-587 | a nearest living monster, the earliest of equals, or none exactly when none is alive |
| SrcMonsterManager.MonsterManager.ClearAllMonsters | src/systems/monster_manager.py:980-985 | the list is emptied |
| SrcMonsterManager.MonsterManager.ResetForNewLevel | src/systems/monster_manager.py:955-978 | no monsters, timers and kills at 0, no boss, stage 1, no pause |
| SrcMonsterManager.MonsterManager.GetMonsterCount | src/systems/monster_manager.py:919-926 | the number of living positions, at most the list's length |
| SrcMonsterManager.MonsterManager.GetMonsterStats | src/systems/monster_manager.py:928-953 | each per-kind count is the number of positions holding an alive monster of that kind, and the three add up to the alive count; kills, wave and cap are reported as kept |
| SrcMonsterManager.MonsterManager.CreateBossFireBullet | src/systems/monster_manager.py:600-648 | a lava boss fires exactly when off cooldown and the target is away from its centre; the bullet is Aimed, appended, and the clock recorded |
| SrcMonsterManager.MonsterManager.CreateSniperBossTrackingBullet | src/systems/monster_manager.py:650-702 | a sniper boss fires exactly when off cooldown and the target is away from its centre; the bullet is Aimed with the tracking strength, appended, and the clock recorded |
| SrcMonsterManager.MonsterManager.UpdateBossFireBullets | src/systems/monster_manager.py:704-720 | without a boss the player is untouched; a lava boss's fire bullets become LavaVolley and the player takes their hits in order; a sniper boss's tracking bullets become SniperVolley and the player takes their hits in order; the boss stays in place |
| SrcMonsterManager.MonsterManager.UpdateLavaBossFireBullets | src/systems/monster_manager.py:722-764 | the player takes the fire bullets' hits in order and lives exactly when none was fatal; the bullets become LavaVolley: AdvanceFire, plus the Aimed shot exactly when FireShotDue (both alive, the player 80 to 250 px away, off cooldown, not at the centre), which also records the clock |
| SrcMonsterManager.MonsterManager.TryFireBullet | src/systems/monster_manager.py:756-764 | a shot is made exactly when FireShotDue (both alive, the player 80 to 250 px away, off cooldown, not at the boss's centre); it is Aimed at the player, appended, and the clock recorded |
| SrcMonsterManager.MonsterManager.AdvanceLavaBullets | src/systems/monster_manager.py:729-753 | the fire bullets become AdvanceFire and the player takes FireDamages |
| SrcMonsterManager.MonsterManager.UpdateSniperBossBullets | src/systems/monster_manager.py:766-836 | the player takes the tracking bullets' hits in order and lives exactly when none was fatal; the bullets become SniperVolley: AdvanceTracking toward the player's centre, plus the Aimed shot exactly when TrackShotDue (both alive, within 300 px, off cooldown, not at the centre), which also records the clock |
| SrcMonsterManager.MonsterManager.TryTrackingBullet | src/systems/monster_manager.py:825-836 | a shot is made exactly when TrackShotDue (both alive, the player within 300 px, off cooldown, its centre not at the boss's); it is Aimed at the player's centre with the tracking strength, appended, and the clock recorded |
| SrcMonsterManager.MonsterManager.AdvanceTrackingBullets | src/systems/monster_manager.py:773-823 | the tracking bullets become AdvanceTracking and the player takes TrackingDamages |
| SrcMonsterManager.RunFireBullets | src/systems/monster_manager.py:729-753 | the loop returns exactly AdvanceFire and applies FireDamages to the player in order |
| SrcMonsterManager.FireOne | src/systems/monster_manager.py:732-751 | one more fire bullet extends the loop's account by FireStep |
| SrcMonsterManager.RunTrackingBullets | src/systems/monster_manager.py:773-823 | the loop returns exactly AdvanceTracking and applies TrackingDamages to the player in order |
| SrcMonsterManager.TrackOne | src/systems/monster_manager.py:776-821 | one more tracking bullet extends the loop's account by TrackStep |
| RootMonsterManager.Candidate | monster_manager.py:47-54 | a try drawn in range proposes a corner on the screen, clear of the bottom 200 px |
| RootMonsterManager.FirstFreeSafe | monster_manager.py:44-69 | the spawn position is a free candidate with every earlier candidate blocked, or the fallback after all twenty were blocked |
| RootMonsterManager.FirstFreeOnScreen | monster_manager.py:44-69 | with tries drawn in range the spawn position is always on the screen, clear of the bottom 200 px |
| RootMonsterManager.Blocked | monster_manager.py:57-63 | the platform loop reports a collision exactly when some platform overlaps the 50x50 box |
| RootMonsterManager.GetSpawnPosition | monster_manager.py:34-69 | the twenty tries return exactly FirstFree |
| RootMonsterManager.ScaledNeverWeaker | monster_manager.py:103-116 | from wave 1 on a scaled monster is at full health and no weaker than spawned; only the three stats change; wave 1 only refills |
| RootMonsterManager.WeightsFor | monster_manager.py:182-189 | a wave's spawn weights are three positive numbers |
| RootMonsterManager.CapGrows | monster_manager.py:176-180 | the cap never shrinks from one wave to the next, stays within [6, 10], and grows by one, up to 10, on every third wave |
| RootMonsterManager.MonsterManager.constructor | monster_manager.py:22-32 | no monsters, timer 0, wave 1, no kills, cap 6, equal weights |
| RootMonsterManager.MonsterManager.SpawnMonster | monster_manager.py:71-101 | nothing at the cap; otherwise exactly one monster of the drawn kind at FirstFree, scaled to the wave, is appended |
| RootMonsterManager.MonsterManager.CurrentInterval | monster_manager.py:128 | the interval is 0.2 s shorter per wave, never below 2 s and never above the base interval |
| RootMonsterManager.MonsterManager.UpdateSpawnTimer | monster_manager.py:118-134 | a spawn is due exactly when the timer reaches the wave's interval, and then the timer restarts from 0 |
| RootMonsterManager.MonsterManager.RemoveDeadMonsters | monster_manager.py:136-154 | exactly the living monsters stay, in order, and each dead one is counted as a kill |
| RootMonsterManager.MonsterManager.AdvanceToNextWave | monster_manager.py:172-192 | the wave rises by one, the cap grows on every third wave, and the spawn timer is set so that the next check spawns |
| RootMonsterManager.MonsterManager.CheckWaveCompletion | monster_manager.py:156-170 | the wave advances by one exactly when the kills reach ten per wave so far |
| RootMonsterManager.MonsterManager.Update | monster_manager.py:194-227 | the report counts exactly the dead removed; the wave advances exactly when the kills reach its target; an advance below the cap always spawns at once; a spawn adds one monster within the cap, otherwise only the living stay |
| RootMonsterManager.MonsterManager.GetMonstersInRange | monster_manager.py:229-255 | exactly InRange of the list |
| RootMonsterManager.MonsterManager.GetClosestMonster | monster_manager.py:257-283 | a nearest living monster, the earliest of equals, or none exactly when none is alive |
| RootMonsterManager.MonsterManager.ClearAllMonsters | monster_manager.py:285-294 | everything goes back to how the constructor left it |
| RootMonsterManager.MonsterManager.GetMonsterCount | monster_manager.py:308-315 | the number of living positions, at most the list's length |
| RootMonsterManager.MonsterManager.GetMonsterStats | monster_manager.py:317-342 | each per-kind count is the number of positions holding an alive monster of that kind, and the three add up to the alive count; kills, wave and cap are reported as kept |
| Hazards.HazardColor | src/systems/level_system.py:44-52 | lava, water and wind get their colours; any other type is gray |
| Hazards.Rise | src/systems/level_system.py:150-154 | a bubble keeps x and size and rises by 10 dt, going back to the pool's bottom once above its top |
| Hazards.Risen | src/systems/level_system.py:150-154 | every bubble rises in place, none added or lost |
| Hazards.RisenStaysInPool | src/systems/level_system.py:150-154 | with time moving forward, rising never takes a bubble out of the pool |
| Hazards.GustStep | src/systems/level_system.py:333-339 | a calm longer than the drawn threshold starts a gust, a gust longer than 1.5 s ends, each restarting the timer; otherwise nothing changes |
| Hazards.GustBounded | src/systems/level_system.py:333-339 | after a step a gust has lasted at most 1.5 s and a calm at most its threshold |
| Hazards.PlayerPush | src/systems/level_system.py:240-370 | plain hazards and lava pools never push the player |
| Hazards.BulletPush | src/systems/level_system.py:372-392 | only a gust pushes bullets |
| Hazards.GustDoubles | src/systems/level_system.py:364-386 | gusting exactly doubles a gust's push on the player and on bullets |
| Hazards.Hazard.constructor | src/systems/level_system.py:32-58 | an active hazard with the given box, damage and type, coloured by HazardColor, animation timer at 0 |
| Hazards.Hazard.LavaPool | src/systems/level_system.py:111-122 | a lava hazard with LAVA_DAMAGE, the lava colour and its first bubbles |
| Hazards.Hazard.WaterCurrent | src/systems/level_system.py:199-213 | a water hazard with WATER_DAMAGE, the water colour and its flow direction |
| Hazards.Hazard.WindGust | src/systems/level_system.py:296-312 | a wind hazard with WIND_DAMAGE, the wind colour, its direction, and no gust yet |
| Hazards.Hazard.PushOn | src/systems/level_system.py:240-370 | no push unless the player touches a current or a gust |
| Hazards.Hazard.Blown | src/systems/level_system.py:372-392 | a bullet keeps its position; only a gust changes its velocity |
| Hazards.Hazard.CheckCollision | src/systems/level_system.py:70-87 | a hit exactly when the hazard is active and the player's box overlaps it; never when inactive |
| Hazards.Hazard.Update | src/systems/level_system.py:60-155 | the animation timer grows by dt, a lava pool past 2 s redraws its bubbles and restarts it, and its bubbles rise; a gust runs GustStep; other state is kept; the whole animation is Animate of the old one |
| Hazards.AnimateKeepsBounds | src/systems/level_system.py:138-155 | an update keeps a pool's bubbles inside it with its timer in [0, 2], keeps a gust at most 1.5 s long, and changes the gust cycle only of a gust and the bubbles and reset only of a pool |
| Hazards.Hazard.RiseBubbles | src/systems/level_system.py:150-154 | the loop leaves exactly Risen |
| Hazards.Hazard.ApplyForceToPlayer | src/systems/level_system.py:240-370 | the player's velocity changes by exactly PushOn |
| RootLevelSystem.ThemeFor | level_system.py:452-461 | volcano exactly for levels up to 3, underwater exactly for 4 to 6, hurricane exactly beyond |
| RootLevelSystem.LayoutOf | level_system.py:463-584 | every theme lays its rows at a positive step with a positive number of higher platforms and traps |
| RootLevelSystem.BaseRow | level_system.py:474-480 | one base platform per draw |
| RootLevelSystem.HighRow | level_system.py:483-489 | one higher platform per draw |
| RootLevelSystem.LayoutCounts | level_system.py:474-584 | a volcano level has 18 base platforms, 5 higher ones and 5 lava pools; an underwater level 24, 7 and 4 currents; a hurricane level 15, 9 and 6 gusts |
| RootLevelSystem.BlowEach | level_system.py:611-613 | one hazard blows every bullet in place, none added or lost |
| RootLevelSystem.BlownAll | level_system.py:603-613 | no bullet is added or lost by the hazards |
| RootLevelSystem.NoPushWithoutCurrentsOrGusts | level_system.py:603-608 | hazards that are all pools or plain never push the player |
| RootLevelSystem.NoBlowWithoutGusts | level_system.py:611-613 | without gusts the bullets are untouched |
| RootLevelSystem.DamageBounded | level_system.py:625-631 | the total hazard damage is never negative and at most 15 per hazard |
| RootLevelSystem.PushStep | level_system.py:603-608 | one more hazard adds exactly its push to the player's velocity |
| RootLevelSystem.BlowStep | level_system.py:611-613 | one more gust blows the bullets once more; any other hazard leaves them |
| RootLevelSystem.DamageStep | level_system.py:627-629 | one more hazard adds its damage exactly when it touches the player |
| RootLevelSystem.BlowBullets | level_system.py:612-613 | the bullet loop leaves exactly BlowEach |
| RootLevelSystem.BulletStep | level_system.py:611-613 | the bullet part of one hazard extends BlownAll by that hazard |
| RootLevelSystem.LevelManager.constructor | level_system.py:432-442 | level 1, a volcano, with its base and higher rows and 5 hazards |
| RootLevelSystem.LevelManager.GenerateLevel | level_system.py:444-461 | the theme is ThemeFor of the level; the platforms are its base row then its higher row; one fresh, active hazard per trap draw, of the shape that draw gives for the theme, as many as the theme's trap count |
| RootLevelSystem.LevelManager.NextLevel | level_system.py:586-591 | one level further, with the new level's theme, its base and higher platform rows, and one fresh, active hazard of the drawn shape per trap draw, as many as its trap count |
| RootLevelSystem.LevelManager.Update | level_system.py:593-613 | every hazard's animation becomes Animate of its old one with its own tick, the player's velocity grows by exactly PushSum of the updated hazards, and the bullets become BlownAll |
| RootLevelSystem.LevelManager.HazardStep | level_system.py:603-613 | one hazard of the loop runs Animate on its animation and extends the player's pushes and the bullets' blows by that hazard |
| RootLevelSystem.LevelManager.TouchStep | level_system.py:604-608 | one hazard's animation becomes Animate of its old one, then it adds exactly its push to the player; the bullets are untouched |
| RootLevelSystem.LevelManager.CheckHazardCollisions | level_system.py:615-631 | the total is exactly DamageSum of the touching hazards, between 0 and 15 per hazard |
| RootLevelSystem.LayRow | level_system.py:474-480 | the base-row loop lays exactly BaseRow |
| RootLevelSystem.LayHigh | level_system.py:483-489 | the higher-row loop lays exactly HighRow |
| RootLevelSystem.LayHazards | level_system.py:492-584 | one fresh, distinct, active hazard per draw, of the theme's kind with the drawn shape |
| SrcLevelSystem.LayerDraws | src/systems/level_system.py:499-515 | each layer consumes three draws, one per third of the level |
| SrcLevelSystem.LayersCount | src/systems/level_system.py:492-529 | n layers contribute three platforms each plus one stepping stone per third layer |
| SrcLevelSystem.LevelCount | src/systems/level_system.py:468-550 | a generated tower has 104 platforms: ground, 90 layer platforms, 10 stepping stones, two walls and the star's |
| SrcLevelSystem.SectionShape | src/systems/level_system.py:501-521 | every layer platform is 25 px thick, 120 to 200 px wide, within 15 px of its layer's base and strictly inside its own third; the push back inside the level never fires |
| SrcLevelSystem.LayerDrawsFit | src/systems/level_system.py:499-507 | the k-th draw of a layer lands in the k-th third |
| SrcLevelSystem.LayersStack | src/systems/level_system.py:492-529 | layers never overlap: every platform of a higher layer, stepping stone included, lies wholly above every platform of a lower one |
| SrcLevelSystem.StarPlacement | src/systems/level_system.py:537-550 | the star sits at x 1800, y -2340, with its platform 50 px below it, wider than any layer platform and straddling the star |
| SrcLevelSystem.StarRect | src/systems/level_system.py:566-572 | the 30 x 30 pickup box centred on the star |
| SrcLevelSystem.LevelManager.constructor | src/systems/level_system.py:438-452 | level 1, the parkour theme, no hazards, a 104-platform tower and an uncollected star at the top |
| SrcLevelSystem.LevelManager.GenerateLevel | src/systems/level_system.py:454-466 | old platforms and hazards are dropped; the new tower and star replace them |
| SrcLevelSystem.LevelManager.GenerateParkourPlatforms | src/systems/level_system.py:468-535 | appends exactly the ground, the layers and the two walls to the platform list |
| SrcLevelSystem.LevelManager.AddLayers | src/systems/level_system.py:492-529 | the layer loop appends layers 1 to 30 in order |
| SrcLevelSystem.LevelManager.AddLayer | src/systems/level_system.py:494-529 | one pass appends a platform per third and, on every third layer, the centre stepping stone |
| SrcLevelSystem.LevelManager.PlaceTargetStar | src/systems/level_system.py:537-550 | the star is placed at the top centre, uncollected, and its platform appended |
| SrcLevelSystem.LevelManager.CheckStarCollision | src/systems/level_system.py:552-579 | true exactly when the star was uncollected and the player's box meets its pickup box; the collected flag becomes the old flag or the result |
| SrcLevelSystem.LevelManager.Update | src/systems/level_system.py:581-595 | the frame reports star_collected exactly when this frame picked the star up |
| SrcLevelSystem.LevelManager.CheckHazardCollisions | src/systems/level_system.py:597-608 | this level deals no hazard damage |
| SrcLevelSystem.CollectOnce | src/systems/level_system.py:562-577 | two successive checks never both report a pickup, and after a reported pickup the star stays collected |
| DamageDisplay.FontSize | damage_display.py:49 | the font size is at least 16 and, above that floor, never more than 24 times the size multiplier |
| DamageDisplay.FontSizeMonotone | damage_display.py:49 | a larger size multiplier never yields a smaller font |
| DamageDisplay.FadeBounds | damage_display.py:70-71 | within its 2-second lifetime a number's opacity stays in 0..255 and starts fully opaque |
| DamageDisplay.FadeMonotone | damage_display.py:70-71 | an older number is never more opaque than a younger one |
| DamageDisplay.EffectColor | damage_display.py:181-183 | any effect name outside the four known ones is shown in purple |
| DamageDisplay.DamageNumber.constructor | damage_display.py:29-50 | the number starts at its jittered spot, fully opaque, rising at 30 px/s, stamped with the creation time, with the font size rule applied |
| DamageDisplay.DamageNumber.Update | damage_display.py:52-73 | false, with nothing changed, exactly once the lifetime is over; otherwise the number rises by one frame of its speed, its speed decays by 2 % and its opacity follows its age |
| DamageDisplay.Kept | damage_display.py:199-205 | filtering never lengthens the list |
| DamageDisplay.KeptMembers | damage_display.py:199-205 | a number survives exactly when it was listed and is still within its lifetime |
| DamageDisplay.KeptAll | damage_display.py:199-205 | when every number is still shown, the list is kept whole and in order |
| DamageDisplay.KeptDistinct | damage_display.py:199-205 | filtering a list of distinct numbers keeps them distinct |
| DamageDisplay.DamageDisplayManager.constructor | damage_display.py:121-122 | the manager starts with no numbers |
| DamageDisplay.DamageDisplayManager.AddDamageNumber | damage_display.py:124-157 | exactly one new number is appended; with both an element and a target type it carries the element table's damage, description, colour and size, otherwise the raw damage in white at normal size |
| DamageDisplay.DamageDisplayManager.AddHealingNumber | damage_display.py:159-170 | exactly one new green number with the healed amount, labelled as healing, at 1.2 size |
| DamageDisplay.DamageDisplayManager.AddStatusEffectText | damage_display.py:172-192 | exactly one new entry showing the effect's name in its colour at 0.8 size, with the number blanked |
| DamageDisplay.DamageDisplayManager.Update | damage_display.py:194-205 | every number is updated: exactly the still-shown ones remain, in their order, and only those rise, slow down and fade to Fade of their age; the others keep height, speed and opacity |
| DamageDisplay.DamageDisplayManager.ClearAll | damage_display.py:219-223 | no numbers remain |
| DamageDisplay.DamageDisplayManager.GetActiveCount | damage_display.py:225-232 | the count is the length of the list |
| Game.CameraClamp | src/main.py:86-95 | the camera offset is never negative, never past the level's far edge, equals the target whenever the target is in range, and is always one of 0, the target or the far edge |
| Game.CameraStaysAtTop | src/main.py:87-95 | a player higher than half a screen above the ground screen's top leaves the vertical camera at 0, so the upper tower is never scrolled into view |
| Game.Toggle | src/main.py:117-122 | SPACE turns playing into paused and paused into playing, and leaves every other state alone |
| Game.ToggleTwice | src/main.py:117-122 | pressing SPACE twice restores the state |
| Game.EventsKeepState | src/main.py:104-122 | no sequence of events returns a running game to the menu, and a game that ends a sequence finished was finished before it and untouched by R |
| Game.HitScore | src/main.py:244-249 | a bullet hit scores 50 exactly when the target is a boss, 10 otherwise |
| Game.EffectCount | src/main.py:269-276 | at most one status text per collision |
| Game.CollisionScoreBounds | src/main.py:243-249 | a frame's hits score between 10 and 50 points each, exactly 10 each when none hits a boss |
| Game.ReportScore | src/main.py:206-231 | the kill, wave and boss bonuses of a frame never lower the score |
| Game.NextLevelStanding | src/main.py:304-311 | the player returns to the start, motionless, with 50 health more capped at the maximum and never less than before |
| Game.ElementalParkourShooter.constructor | src/main.py:51-79 | a new game is playing level 1 with score 0, the player at the start, no pop-ups, the camera at the origin and the clock stamped |
| Game.ElementalParkourShooter.UpdateCamera | src/main.py:81-95 | both camera axes become the clamped offset of the player's position against the level's size |
| Game.ElementalParkourShooter.ResetGame | src/main.py:317-337 | playing level 1 again with score 0, a fresh full-health player at the start, still, in the air with the double jump ready and no key held, no pop-ups and the camera at the origin |
| Game.ElementalParkourShooter.HandleEvent | src/main.py:104-122 | QUIT and ESC stop the game; R restarts only a finished game, with a newly made player; SPACE toggles pause; nothing else changes |
| Game.ElementalParkourShooter.ApplyEvents | src/main.py:104-122 | the state after the frame's events is the fold of the transitions, and the game keeps running exactly when no event stops it; the player is the old one or a newly made one |
| Game.ElementalParkourShooter.HandleEvents | src/main.py:97-128 | the frame's events are applied in order and the game keeps running exactly when no event stops it; when the game is then playing with a living player, the player's held keys are the frame's input and the jump state is `Jumped` of the one before on the jump key's rising edge and unchanged otherwise, from a new player's rest state after a restart |
| Game.ElementalParkourShooter.ForwardInput | src/main.py:125-128 | the living player's held keys become the frame's keys and buttons; on a fresh jump press the jump state becomes `Jumped` of the old one (ground, double, wall or no jump), otherwise it is unchanged; a fresh shoot or melee press off its cooldown records the clock, and without a fresh press that clock stays |
| Game.ElementalParkourShooter.CompleteLevel | src/main.py:281-311 | 2000 points always; on the last level the game is won and the level and player stay; otherwise the next level starts with no waves done and the player back at the start, healed by 50 up to the maximum |
| Game.ElementalParkourShooter.ReturnPlayer | src/main.py:304-311 | the player's position, speed and health become the next-level standing |
| Game.ElementalParkourShooter.ScoreCollisions | src/main.py:243-276 | the score rises by the frame's hit score; the new pop-ups, appended after the old ones and all new objects, are exactly each hit's damage number (worded by the element table when both the bullet and the target name an element, the plain damage otherwise) followed by its effect's status text, in hit order, all stamped now |
| Game.ElementalParkourShooter.ScoreNext | src/main.py:243-276 | one more hit of the loop adds its score and extends the pop-ups shown so far by its own, at the slot after the earlier hits' |
| Game.ElementalParkourShooter.ScoreOne | src/main.py:244-276 | one hit adds 50 for a boss and 10 otherwise, then appends its damage number, worded by the element table or plain, and, when it carries an effect, a blank status text with the effect's name |
| Game.ElementalParkourShooter.PlayerPhase | src/main.py:146-187 | the player moves and takes the hazards' damage; it fires exactly when shoot is held and the fire rate allows, and swings exactly when melee is held and off cooldown, each recording the clock; only a swing scores, 20 per monster hit and 100 for a boss hit; the game is over exactly when the player died |
| Game.ElementalParkourShooter.ActPlayer | src/main.py:147-171 | the player's own steps: move, take a positive hazard damage, fire exactly when shoot is held and off FIRE_RATE, swing exactly when melee is held and off the melee cooldown with the melee damage in the facing direction, recording each clock |
| Game.ElementalParkourShooter.MovePlayer | src/main.py:147-150 | the player's update keeps its health within bounds and leaves its held keys and its shot and swing clocks alone |
| Game.ElementalParkourShooter.ProgressPhase | src/main.py:206-231 | kill, wave and boss bonuses are added; the ninth wave of a level completes it with 2000 more, winning on the last level and otherwise advancing with the player returned to the start, still and healed; without completion only the wave counter moves and the player stays |
| Game.ElementalParkourShooter.PlayPhases | src/main.py:146-231 | the player, camera and subsystem phases never score less than the frame's reported bonuses; a wave that completes the level moves to the next level with no waves done, or wins the game on the last level; otherwise the level stays and the wave count rises by the waves advanced; unless the player was sent to the next level, the camera is centred on the player and clamped to the level |
| Game.ElementalParkourShooter.PopupPhase | src/main.py:243-279 | the bullet collisions add exactly their hit score; the pop-ups become those still shown among the old ones followed by the frame's new ones, which are exactly each hit's damage number and effect text |
| Game.ElementalParkourShooter.Update | src/main.py:130-279 | nothing at all changes unless playing; when playing the clock is stamped, the score rises by at least the reported bonuses and the hit score, a level-completing wave moves to the next level or wins on the last one, and otherwise the level stays, the wave count rises by the waves advanced, and the camera is centred on the player and clamped to the level |
| Minimap.Clamp | src/utils/minimap_system.py:134-135 | the clamped coordinate is the value when in range, 0 below it and the bound above it |
| Minimap.Handle | src/utils/minimap_system.py:96-138 | a minimap on screen stays on screen; dragging only starts with a taken event; an event is taken exactly when it is a left press on the minimap or motion while dragging |
| Minimap.PressGrabs | src/utils/minimap_system.py:108-120 | a left press on the minimap starts dragging with the mouse's offset and is taken; anywhere else it changes nothing |
| Minimap.ReleaseLetsGo | src/utils/minimap_system.py:122-125 | a left release stops dragging, keeps the position and is never reported as taken |
| Minimap.IdleMotion | src/utils/minimap_system.py:127-138 | motion while not dragging changes nothing and is not taken |
| Minimap.DragFollowsMouse | src/utils/minimap_system.py:108-136 | after a grab, the minimap follows the mouse by the same displacement, stopping at the screen edges |
| Minimap.AxisToMinimap | src/utils/minimap_system.py:153-160 | the mapped pixel lies on the minimap and, when the scaled point is on it, is that point truncated |
| Minimap.AxisMonotone | src/utils/minimap_system.py:153-160 | mapping preserves order along each axis |
| Minimap.AxisEnds | src/utils/minimap_system.py:153-160 | the world origin maps to pixel 0 and a point a full minimap length along maps to the last pixel |
| Minimap.BandMonotone | src/utils/minimap_system.py:211-216 | a lower platform never gets a colour band ranked above a higher one's |
| Minimap.MinimapSystem.constructor | src/utils/minimap_system.py:37-66 | the minimap starts in the top right corner, a margin from the edges, not dragged, with that corner remembered |
| Minimap.MinimapSystem.HandleMouseEvent | src/utils/minimap_system.py:96-138 | the drag state and the taken flag follow the event-handling function |
| Minimap.MinimapSystem.WorldToMinimap | src/utils/minimap_system.py:140-160 | every world point maps to a pixel inside the minimap |
| Minimap.MinimapSystem.LevelCorners | src/utils/minimap_system.py:140-160 | the level's top left corner maps to the first pixel and its far corner to the last |
| Minimap.MinimapSystem.PlatformIcon | src/utils/minimap_system.py:197-227 | every platform is drawn, at its mapped corner, at least 2 x 2, coloured by its height band, highlighted exactly when 3 or more pixels tall |
| Minimap.MinimapSystem.DrawPlatforms | src/utils/minimap_system.py:189-227 | one icon per platform, in order, each the platform's icon |
| Clouds.Advance | src/utils/cloud_system.py:203-224 | after a frame no cloud is beyond the respawn line; a cloud either only drifted by speed x dt x 60 or was put back the respawn distance left of the camera with the redraw's height, size and speed; its width, height and colour keep matching its size and layer |
| Clouds.AdvanceKeepsLooks | src/utils/cloud_system.py:203-224 | a cloud whose height, size, speed and layer are in the configured ranges keeps them in range after a frame |
| Clouds.AdvanceRespawnsExactlyPastTheLine | src/utils/cloud_system.py:205-214 | a cloud that drifts past the line respawns on the left with the redraw's looks; any other cloud only drifts |
| Clouds.Cloud.constructor | src/utils/cloud_system.py:24-53 | a cloud starts where given, 80 x 40 scaled by its size, coloured by its layer |
| Clouds.Cloud.Update | src/utils/cloud_system.py:55-63 | the cloud moves right by speed x dt x 60 |
| Clouds.Cloud.Step | src/utils/cloud_system.py:204-224 | one pass of the system's loop leaves this cloud in the state the frame function gives |
| Clouds.CloudSystem.constructor | src/utils/cloud_system.py:147-166 | the configured number of clouds, one per draw in order, each within the respawn distance of the level horizontally and in the top 40 % of the level |
| Clouds.CloudSystem.GenerateInitialClouds | src/utils/cloud_system.py:168-193 | one new cloud per draw, with the draw's position, size, speed and layer, in order |
| Clouds.CloudSystem.Update | src/utils/cloud_system.py:195-224 | every cloud advances by the frame function with its own redraw, the cloud count never changes, and no cloud is left beyond the respawn line |
| Clouds.CloudSystem.CloudStep | src/utils/cloud_system.py:203-224 | one pass of the loop advances the next cloud and leaves the others alone |

## Left out

- Rendering is not modelled: every `draw*` method, surfaces, blits, fonts, image loading (`load_monster_image`, `load_sniper_images`, `reload_image_if_boss`, `get_current_image`) and all `print` calls. These are pygame calls with no stateable behaviour.
- `get_chinese_font` in `src/config.py` is not modelled. It probes font files on disk.
- The real clock is not modelled. Every reading of `time.time()` is the parameter `now`, and every time step is the parameter `dt`.
- Randomness is not modelled. Each random draw is an input, and only properties that hold for every draw are proved. This covers patrol flips, teleport spots, spawn positions and kinds, `random.sample`, level layout, bubbles, particles, clouds and pop-up jitter. No distribution is modelled.
- Floating point is not modelled. Positions are exact reals and Python's `int()` is truncation toward zero. The `atan2`/`cos`/`sin` bullet fans and the boss special attacks that use them are not modelled. Where a square root is taken, the caller supplies a root function.
- Which special attack a boss picks (`perform_special_attack` and the `*_attack` methods of `LavaTornadoBoss` and `TsunamiBoss`, including `update_water_attacks`) is not modelled. These use angles and random choices. The attacks a frame fires are a parameter of `BossSystem.Boss.UpdateSpecialAttacks`, whose scheduling, filtering and timed hazards are modelled.
- Animation-only state is not modelled: `WaterCurrent.generate_wave_lines` and the wind-gust particle positions. `generate_bubbles` is modelled only through its draws.
- The integration between files is not modelled, because it cannot run as written:
  - `Boss.__init__` and `Boss.take_damage` call `Monster` with the wrong number of arguments.
  - The manager passes keyword arguments that the monster classes do not accept.
  - `src/main.py` reads a `"wave_advanced"` key that the newer manager never returns, and calls `advance_to_next_level`, which the level manager does not have.
  Each file's own logic is modelled. `Game` takes what the frame's subsystems reported (melee hits, kills, wave advance, boss defeat, bullet collisions) as parameters.
- `Game.ElementalParkourShooter.CompleteLevel`: the next-level branch's `reset_for_new_level`, its new `BossManager` and its `advance_to_next_level` call are not modelled. Only the game's own fields and the player are.
- `Game.ElementalParkourShooter.Update`: the score is only proved to rise by at least the reported bonuses and the hit score. The melee bonus depends on the player's own input in the frame, which `PlayerPhase` states exactly. The player's new state and the pop-ups are stated by `Game.ElementalParkourShooter.PlayerPhase`, `Game.ElementalParkourShooter.ProgressPhase` and `Game.ElementalParkourShooter.PopupPhase`.
- `Monsters.Monster.Update`: only part of the new state is stated: the status effects, the screen bounds, and nothing moving for a dead monster. The AI, movement and attack are stated step by step by `Monsters.Monster.UpdateAi`, `Monsters.Monster.UpdatePhysics` and `Monsters.Monster.UpdateStatusEffects`. Composing their contracts into one formula over random draws would only restate them.
- `MonsterKinds.LavaMonster.Update`: only the lava balls (advanced, and those that hit removed) and the dead case are stated. The heal, AI and physics are stated by `MonsterKinds.LavaMonster.AutoHeal`, `MonsterKinds.LavaMonster.UpdateLavaBalls`, `MonsterKinds.LavaMonster.CheckLavaBallCollision` and the `Monsters.Monster` steps.
- `MonsterKinds.WaterMonster.Update`: only the water bullets and the dead case are stated. The rest is stated by `MonsterKinds.WaterMonster.UpdateWaterBullets`, `MonsterKinds.WaterMonster.CheckWaterBulletCollision` and the `Monsters.Monster` steps.
- `MonsterKinds.TornadoMonster.Update`: only the screen bounds, the dead case and the spin countdown are stated. The teleport, spin and contact damage are stated by `MonsterKinds.TornadoMonster.UpdateAi` and `MonsterKinds.TornadoMonster.UpdateSpinState`.
- `Sniper.SniperBoss.Update`: only the dead case and the screen bounds are stated. The projectile and timer halves are stated in full by `Sniper.SniperBoss.UpdateAttacks` and `Sniper.SniperBoss.UpdateTimers`, and the AI by `Sniper.SniperBoss.UpdateAi`.
- `SrcMonsterManager.MonsterManager.Update`: the report, the kill count, the boss stage and the newcomer are stated, but the whole new monster list and boss are not. They are stated by `SrcMonsterManager.MonsterManager.CullAndSpawnBoss`, `SrcMonsterManager.MonsterManager.TimedSpawn` and `SrcMonsterManager.MonsterManager.UpdateBossFireBullets`.
- `RootMonsterManager.MonsterManager.Update`: the spawn timer, spawn weights and cap after a wave are not restated. They are stated by `RootMonsterManager.MonsterManager.UpdateSpawnTimer`, `RootMonsterManager.MonsterManager.CheckWaveCompletion` and `RootMonsterManager.MonsterManager.SpawnMonster`.
- `Game.ElementalParkourShooter.PlayPhases`: the score is only bounded below, because the melee bonus depends on the frame's input, which `Game.ElementalParkourShooter.PlayerPhase` states exactly. After the player is moved back for a new level, the camera still shows where the player was. `Game.ElementalParkourShooter.UpdateCamera` states that camera, and `Game.ElementalParkourShooter.ProgressPhase` states the move.
- `Game.ElementalParkourShooter.PlayerPhase`: the shot and the swing are returned rather than handed to a weapon manager, which the game model does not hold. The melee hit counts and the hazard damage arrive in `FrameResults`. The level manager's `update` (`src/main.py:189-191`) runs in `RootLevelSystem` and `SrcLevelSystem`, not here.
- `Game.ElementalParkourShooter.HandleEvents`: the held keys are stated only for a game that is playing with a living player. Otherwise the player is either untouched or, after R, a new one, and `Game.ElementalParkourShooter.HandleEvent` states which.
- `run` and `main` in `src/main.py`, and the older `main.py`, are not modelled. They are the pygame driver loop. The older `main.py`'s camera clamp is the same as `Game.CameraClamp`.
- The `MINIMAP_*`, `CLOUD_*`, `SNIPER_BOSS_*` and `BOSS_BULLET_*` settings are not defined by the configuration, so they are parameters (constructor arguments or `Settings`/`Tuning` records).
- `SrcMonsterManager.MonsterManager.Update`: each monster's own `update` call (`src/systems/monster_manager.py:454-467`) is not run here. The manager holds monsters as value records. The per-monster update is modelled on the `Monsters.Monster` class and the archetype classes.
- `RootMonsterManager.MonsterManager.Update`: each monster's own `update` call (`monster_manager.py:206-208`) is not run here, for the same reason.
- `RootLevelSystem`: the root `level_system.py` imports `from config import *` and `from game_objects import *`, and those root files are not part of this model. It uses the constants of `src/config.py` and the `GameObjects` module in their place. Its hazard classes are the ones in `Hazards`, which the root file repeats.
- `RootMonsterManager`: the root `monster_manager.py` imports `from monsters import *` and `from config import *`, and those root files are not part of this model. It uses the constants of `src/config.py` and the monster values of `MonsterRoster` in their place.
- The monster managers hold monsters as values, so aliasing between the manager's list and the monster objects is not modelled.
- `get_ground_platform` and the newer manager's `get_spawn_position` are not modelled. They search the platforms near the player's view with random tries, so the chosen spot is a parameter of the spawn.
- `get_platforms` and `get_level_info` of both level managers are not modelled. The first returns the platform list, which the model reads directly. The second builds a display dictionary.
- `SrcLevelSystem.LevelManager.Update`: its unused `dt` and `bullets` parameters are dropped.
- `Monsters.Monster.AttackPlayer`: the knockback branch is skipped. The player has no `apply_knockback`, so the source's `hasattr` test always fails.
- `Sniper.HomedStepDirection`: it proves that a homed tracking bullet steps straight at the target, scaled by the tracking speed over the distance. It does not prove that the step is exactly 8 px long.
- `Weapon.WeaponManager.HandleMeleeAttack` does not apply its hits or its knockback to the targets (`src/entities/weapon.py:283-288`). Targets are their collision rects, and each hit is reported back as its index and damage. The target's own `take_damage` and knockback are modelled on the monster classes.
- `Weapon.WeaponManager.CheckBulletCollisions` likewise does not call the targets' `take_damage` or `add_status_effect` (`src/entities/weapon.py:333-342`). It reports each hit as its index and damage.
- `BossSystem.Boss.UpdateSpecialAttacks` does not take the eruption and mega-tornado damage off the player's health. They return it, in order, as `hurts`. The source calls `player.take_damage` itself (`src/systems/boss_system.py:565` and `:636`). The mega tornado's `damage * dt` is fractional, which would make the source's health a float, while the model's player health is an integer.
- `BossSystem.Boss.RunAttacks` likewise returns the damages as `hurts` instead of applying them, for the same reason.
- `BossSystem.BossManager.Update` does not run `current_boss.update(player, platforms)` (`src/systems/boss_system.py:1064`). `LavaTornadoBoss.update` and `TsunamiBoss.update` move the boss and pick its attacks, and are not modelled. The boss's own phase timer and special-attack pass are `BossSystem.Boss.UpdatePhaseTransition` and `BossSystem.Boss.UpdateSpecialAttacks`.
- `Boss.speed` and the constructor's `speed0` stand for the `self.speed` that `LavaTornadoBoss.on_phase_change` scales (`src/systems/boss_system.py:248,255`). `Monster` sets only `base_speed` and `current_speed`, so in the source that line raises `AttributeError` on entering phase 2. The model gives the boss the field so that the upgrade can be stated.
- Integer widths need no modelling: Python integers are unbounded, like Dafny's.
