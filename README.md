# A verified model of the arena shooter's game logic

This project models, in Dafny, the simulation logic of a tile-based arena
shooter written in Java with Swing. The player walks a 900 x 900 arena, a
10 x 10 grid of 75-pixel tiles. The arena has eight wall segments, four
entrances and randomly placed obstacles. Enemies come in waves through the
entrances, and every fifth wave is a boss wave. The player shoots plain or
bouncing bullets, collects power-ups, and in the end enters a three-letter
name for the high-score table.

The model follows the Java classes one module at a time.

- `Geometry` covers `java.awt.Rectangle`: boxes, `intersects` (positive
  sizes, overlapping interiors, so touching edges do not count), overlaps,
  and the first box of a list that a box touches.
- `JavaInt` covers Java's `%` and `/`, which truncate toward zero, and the
  32-bit bounds.
- `Characters` covers `Character`: clamped four-direction movement, damage
  absorbed by the shield first, clamped health and shield gains, and
  animation frames.
- `Bullets` covers `Bullet` and `BouncingBullet`: velocity by direction,
  the step, the out-of-panel test, and reflection with a budget of two
  bounces.
- `Enemies` covers `Enemy`, `BasicEnemy` and `BossEnemy`: flat damage on
  the enemy's own health, the funnel moves, the pursuit step with its
  retries and reverts, and the facing rule.
- `Players` covers `Player` and the power-ups: the shot, and the inventory
  queue with at most one power-up active. `Shotgun` and `SpeedBoost` become
  an effect that sets the shotgun flag or adds to the speed.
- `Arena` covers `MapGenerator`: walls, entrances, the spawn box, the
  rejection loop that places the obstacles, `isEntrance`,
  `isNearEntrance`, `getClearSpawnPoint`, `block`/`blockPlayer`,
  `updateLevel` and `getWalkableTiles`.
- `GameRules` holds the rules of `Main` as pure functions:
  - wave scheduling and the end of a wave;
  - the contact-damage cooldowns;
  - the collision order of one bullet;
  - key handling and smooth movement;
  - power-up pickup and drop;
  - the score read-out.
- `Engine` is `Main` itself: a `Game` class whose fields are Main's fields.
  The animation counter is static in `Main`, so a game started after
  another keeps its value; the constructor takes it as a parameter.
  Its methods are `move`, `handleSmoothMovement`, `aliveDead`,
  `checkPowerUpPickup`, `spawnPowerUps`, `dealDamage`, `keyPressed`,
  `keyReleased` and the timer tick, each proved against the functions of
  `GameRules`.
- `Text`, `Lists`, `StableSort` and `HighScores` cover `HighscoreManager`:
  - the line `username - score`;
  - `parseScore`, with Java's `trim`, `lastIndexOf`, `Integer.parseInt`
    and `Integer.toString`;
  - `sortScores`, which drops blank lines and sorts stably by descending
    score;
  - `addScore`.
- `Leaderboard` covers `LeaderboardPanel`: line parsing, the scroll offset
  and the window of entries it paints.
- `Username` covers `UsernameInputScreen` and its virtual keyboard.

Objects that the Java code updates in place are classes whose methods
modify their fields: characters, bullets, enemies, the player, the map,
the game, the score file and the two screens. Each of those methods is
specified by a function of the old state, and the properties are proved
about those functions as lemmas.

Things the model receives as inputs instead:

- Random draws: the obstacle candidates and the two power-up tiles.
- The steps the Java code computes in floating point: enemy speeds, the
  unit vector toward the player, and the shotgun spread.
- The abstract `moveVector`/`syncPosition` step that `BasicEnemy` calls
  but `Character` does not define.

The high-score file is a sequence of lines and a flag saying whether it
exists.

Three behaviours of the code worth noting:

- The obstacle target is `5 * ((level % 5) + 1)`, so ten obstacles on
  level 1.
- `loadScores` returns before the scroll clamp when the file is missing.
- `parseScore` reads a negative score back as its magnitude, because the
  last '-' of such a line is the sign.

## Model

| member | source | states |
|---|---|---|
| JavaInt.JavaRem | Classes/Main.java:469 | Java's `%` by a positive divisor: the Euclidean remainder for a non-negative dividend, and otherwise a remainder in (-b, 0] |
| JavaInt.JavaHalf | Classes/MapGenerator.java:80-83 | Java's `/ 2`: within one of half the operand, truncated toward zero |
| JavaInt.JavaQuot | Classes/Main.java:716-717 | Java's `/` by a positive divisor agrees with Dafny's on a non-negative dividend |
| Geometry.Rect.Translate | Classes/Main.java:461-462 | the same size, moved by exactly (dx, dy) |
| Geometry.IntersectsSymmetric | Classes/Main.java:309 | Rectangle.intersects does not depend on the order of the two boxes |
| Geometry.OverlapX | Classes/MapGenerator.java:179 | for intersecting boxes the horizontal overlap is positive and at most either width |
| Geometry.OverlapY | Classes/MapGenerator.java:180 | for intersecting boxes the vertical overlap is positive and at most either height |
| Geometry.FirstIntersecting | Classes/Main.java:138-147 | the first box of the list the box touches: the one found touches it, none before it does, and -1 exactly when no box touches it |
| Bullets.InitialVelocity | Classes/Bullet.java:42-47 | directions 1-4 give speed 8 to the left, right, up and down; any other direction leaves the velocity zero |
| Bullets.Reflect | Classes/BouncingBullet.java:48-56 | the component on the axis of smaller overlap is reversed, both on a tie, and a non-zero component is reversed only when its overlap is not the larger |
| Bullets.BulletState.Advanced | Classes/Bullet.java:58-61 | the box moves by the velocity; velocity, variant and bounces are kept |
| Bullets.BulletState.Bounced | Classes/BouncingBullet.java:43-60 | the bounce is refused exactly when no bounce is left, and then nothing changes; otherwise one bounce is used, the box stays and at least one velocity component is reversed |
| Bullets.Bullet.constructor | Classes/Bullet.java:36-53 | a plain bullet at (x, y, w, h) with the direction's velocity and the panel size |
| Bullets.Bullet.Bouncing | Classes/BouncingBullet.java:8-26 | the same bullet, bouncing, with two bounces |
| Bullets.Bullet.MoveBullet | Classes/Bullet.java:58-61 | the new state is the old one advanced |
| Bullets.Bullet.SetSpeedX | Classes/Bullet.java:69-71 | only vx changes, to the argument |
| Bullets.Bullet.SetSpeedY | Classes/Bullet.java:83-85 | only vy changes, to the argument |
| Bullets.Bullet.GetSpeedX | Classes/Bullet.java:88-90 | the state's vx |
| Bullets.Bullet.GetSpeedY | Classes/Bullet.java:93-95 | the state's vy |
| Bullets.Bullet.Disappear | Classes/Bullet.java:103-105 | true exactly when the state is out of the panel |
| Bullets.Bullet.BounceX | Classes/BouncingBullet.java:28-30 | only vx changes, to its negation |
| Bullets.Bullet.BounceY | Classes/BouncingBullet.java:32-34 | only vy changes, to its negation |
| Bullets.Bullet.Bounce | Classes/BouncingBullet.java:43-60 | state and result are those of Bounced on the old state |
| Bullets.RightwardBulletLeavesAfterSixMoves | Classes/Bullet.java:44-105 | a rightward bullet fired at x = 860 in a 900-wide panel is in bounds after five moves and out after six |
| Bullets.BounceBudgetIsTwo | Classes/BouncingBullet.java:8-60 | a fresh bouncing bullet bounces twice and refuses the third bounce |
| Characters.Stepped | Classes/Character.java:68-88 | the box keeps its size; only the axis of the direction can change, by exactly the speed, and only when the moved box stays inside [0, panW] x [0, panH] |
| Characters.SteppedStaysInPanel | Classes/Character.java:68-88 | a box inside the panel stays inside after any move with a speed of zero or more |
| Characters.AbsorbDamage | Classes/Character.java:96-106 | without a shield all damage goes to health; with a shield the shield takes the damage first and the overflow comes off health, leaving the shield at zero; health plus shield goes down by exactly the damage |
| Characters.ClampedAdd | Classes/Character.java:155-170 | the sum clamped to [0, 5]: unchanged inside the range, 5 above it, 0 below it |
| Characters.Character.constructor | Classes/Character.java:29-35 | the given box, health, shield and speed, facing down |
| Characters.Character.SetMoving | Classes/Character.java:49-51 | only the moving flag changes |
| Characters.Character.ChangeFrame | Classes/Character.java:53-55 | the frame alternates between 0 and 1 |
| Characters.Character.Move | Classes/Character.java:68-88 | faces the direction and the box becomes Stepped of the old box |
| Characters.Character.UpdateHealth | Classes/Character.java:96-106 | health and shield become AbsorbDamage of the old values |
| Characters.Character.AddHealth | Classes/Character.java:155-159 | health becomes the clamped sum, within [0, 5] |
| Characters.Character.AddShield | Classes/Character.java:166-170 | shield becomes the clamped sum, within [0, 5] |
| Characters.Character.AddSpeed | Classes/Character.java:146-148 | speed goes up by the delta |
| Characters.Character.IsAlive | Classes/Character.java:113-115 | alive exactly while health is positive, whatever the shield; HitsToKill counts the hits that takes |
| Enemies.BossSpeed | Classes/BossEnemy.java:17 | the integer step (int)(1.5 + 0.1 * level): the largest s with 10s <= 15 + level, for levels of zero or more |
| Enemies.FunnelRequest | Classes/BasicEnemy.java:49-117 | the four funnel rules in source order: inside the 900 x 900 field the enemy always pursues; a funnel move is one step of the speed along one axis, vertical only when x is outside the field or inside the corridor band (375, 450), horizontal only when y is; outside the field with y outside the band it moves vertically toward the band |
| Enemies.ChangeDirection | Classes/BasicEnemy.java:184-198 | the enemy faces the way it moved, the horizontal change first; with no displacement it faces down and stops moving, otherwise the moving flag is kept |
| Enemies.FunnelFacing | Classes/BasicEnemy.java:59-82 | after a funnel move only the requested axis sets the facing; no movement on that axis means facing down and not moving |
| Enemies.PursuitPosition | Classes/BasicEnemy.java:126-159 | a clear diagonal step is taken as is; otherwise the x step is taken unless it collides, then the y step from there, whose y is put back to the original when it collides; so a box that ends inside geometry has its original y |
| Enemies.PursuitByTranslationIsSafe | Classes/BossEnemy.java:100-125 | with the boss's direct step the pursuit ends at the start or in a box that touches no obstacle and no wall, and a changed x was clear at the old y |
| Enemies.BasicSteer | Classes/BasicEnemy.java:46-164 | on the player's position nothing changes; otherwise a pursuit tick leaves the enemy moving exactly when it was displaced |
| Enemies.BossSteer | Classes/BossEnemy.java:24-137 | a funnel move is a direct step of the requested delta on one axis; a pursuit tick with nowhere to go keeps the facing, and leaves the moving flag set exactly when the boss was displaced |
| Enemies.BossPursuitIsSafe | Classes/BossEnemy.java:91-136 | after a pursuit tick the boss is where it started or its box misses every obstacle and wall |
| Enemies.Enemy.Basic | Classes/BasicEnemy.java:34-40 | a fresh body at the given box with the given speed, health 5 and shield 5, moving, facing down, frame 0 |
| Enemies.Enemy.Boss | Classes/BossEnemy.java:16-18 | a fresh body, health 10 + 3L, shield 10 + 2L and speed (int)(1.5 + 0.1L) for level L, standing still, facing down, frame 0 |
| Enemies.Enemy.UpdateHealth | Classes/Enemy.java:45-47 | the enemy's own health goes down by exactly the damage; no shield absorbs it |
| Enemies.Enemy.GetNum | Classes/Enemy.java:68-70 | the number given at construction |
| Enemies.Enemy.IsAlive | Classes/Enemy.java:54-56 | alive exactly while the enemy's own health is positive; BasicEnemyDiesOnFifthHit shows a basic enemy dying on the fifth hit |
| Enemies.Enemy.CollidesNow | Classes/BasicEnemy.java:171-179 | true exactly when the box intersects an obstacle or a wall |
| Enemies.Enemy.MoveTowardPlayer | Classes/BasicEnemy.java:46-164 | the new pose is BasicSteer of the old one for a basic enemy and BossSteer for a boss |
| Enemies.Enemy.MoveBasic | Classes/BasicEnemy.java:46-164 | the new pose is BasicSteer of the old one |
| Enemies.Enemy.MoveBoss | Classes/BossEnemy.java:24-137 | the new pose is BossSteer of the old one |
| Enemies.Enemy.BossFunnel | Classes/BossEnemy.java:27-90 | the new pose is FunnelFacing after a direct step on the requested axis |
| Enemies.Enemy.BossPursuit | Classes/BossEnemy.java:100-135 | the new pose is the pursuit position, facing the way it moved and moving, or the old pose, not moving |
| Enemies.Enemy.PursuitMove | Classes/BossEnemy.java:103-125 | the new position is PursuitPosition with the direct step |
| Enemies.Enemy.ChangeDirectionFrom | Classes/BossEnemy.java:142-156 | the new pose is ChangeDirection from the original position |
| Enemies.Enemy.ChangeFrame | Classes/BossEnemy.java:176-178 | the frame alternates between 0 and 1 |
| Enemies.BasicEnemyDiesOnFifthHit | Classes/BasicEnemy.java:35 | a basic enemy is alive after four one-point hits and dead after the fifth |
| Players.Activate | Classes/Shotgun.java:7-10 | the shotgun turns the flag on; a boost adds its amount to the speed |
| Players.Deactivate | Classes/Shotgun.java:13-15 | the shotgun turns the flag off; a boost takes its amount off the speed |
| Players.DeactivateUndoesActivate | Classes/PowerUp.java:12-16 | deactivation undoes activation: always for a boost, and for the shotgun when it was off before |
| Players.Queued | Classes/Player.java:189-200 | the waiting entries keep their order and none of them runs |
| Players.FirstInactive | Classes/Player.java:150-157 | the first entry that is not running, or -1 when all run |
| Players.Used | Classes/Player.java:141-158 | nothing changes while one entry runs or the list is empty; otherwise the head starts with its full duration, the rest is untouched and its effect is applied |
| Players.UsedKeepsAtMostOneActive | Classes/Player.java:137-158 | using a power-up never makes two run at once, and afterwards one runs whenever the inventory is not empty |
| Players.TickList | Classes/Player.java:161-172 | the list after a tick is never longer than before, and every running entry left in it has time left |
| Players.TickListSurvivors | Classes/Player.java:161-172 | a tick keeps exactly the entries that do not run out, in order: each running one with one tick less, each waiting one unchanged |
| Players.TickKeepsQueue | Classes/Player.java:161-172 | a tick neither loses nor reorders any waiting power-up |
| Players.TickKeepsAtMostOneActive | Classes/Player.java:161-172 | with at most one running entry, a tick keeps at most one running, drops at most one entry, and starts none |
| Players.NoneActiveTick | Classes/Player.java:164 | without running entries a tick changes nothing |
| Players.ShotgunVelocities | Classes/Player.java:106-124 | five pellet velocities for each facing |
| Players.ShotgunSpreadShape | Classes/Player.java:106-124 | the middle pellet flies like a plain bullet; every pellet keeps speed 8 on the facing axis and drifts at most 3 across it; the spread is mirror-symmetric about the facing axis |
| Players.Player.constructor | Classes/Player.java:37-42 | five hearts, five shields, the given speed and box, facing down, not moving, no shotgun, an empty inventory |
| Players.Player.ChangeFrame | Classes/Player.java:44-46 | the frame alternates between 0 and 1 |
| Players.Player.SetMoving | Classes/Player.java:48-50 | the moving flag becomes the argument |
| Players.Player.SetShotgun | Classes/Player.java:174-176 | the shotgun flag becomes the argument |
| Players.Player.IsShotgun | Classes/Player.java:178-180 | the shotgun flag of the effects |
| Players.ShotStates | Classes/Player.java:95-130 | a shot is five bouncing pellets under the shotgun and one plain bullet otherwise, each 20 pixels square, centred on the shooter, inside the panel it was given, with two bounces left; for a facing 1-4 the middle one flies like a plain bullet |
| Players.Player.Shoot | Classes/Player.java:95-130 | fresh, distinct bullets whose states are exactly ShotStates of the player's box, facing, shotgun flag and panel: five bouncing pellets with the spread velocities under the shotgun, otherwise one plain bullet in the facing direction |
| Players.Player.AddPowerUp | Classes/Player.java:133-200 | the power-up joins the back of the inventory, waiting, with its full duration |
| Players.Player.UsePowerUp | Classes/Player.java:141-158 | inventory and effects become Used of the old ones |
| Players.Player.ActivateFirstInactive | Classes/Player.java:150-157 | the first waiting entry starts with its full duration and its effect is applied |
| Players.Player.UpdatePowerUps | Classes/Player.java:161-172 | the inventory becomes TickList of the old one, and every entry that runs out has its effect undone |
| Players.Player.UpdatePowerUpAt | Classes/Player.java:163-170 | one turn of the loop keeps the loop invariant: the entries after i are ticked and their expiries undone |
| Players.SpeedBoostLifecycle | Classes/Player.java:141-172 | a boost lasting d ticks adds its amount when used, keeps it for d - 1 ticks, and is removed with the speed restored on the d-th tick |
| Arena.ObstacleTarget | Classes/MapGenerator.java:75 | 5 * ((level % 5) + 1): a multiple of 5 from 5 to 25 for levels of zero or more |
| Arena.Layout.Entrances | Classes/MapGenerator.java:57-66 | four entrances, at the middle of the top, bottom, left and right edges |
| Arena.Grown | Classes/MapGenerator.java:113-121 | the entrance grown by the buffer on every side |
| Arena.Placed | Classes/MapGenerator.java:86-109 | the placement loop only appends to the list, stops at the target, and adds at most one tile per draw |
| Arena.PlacedStep | Classes/MapGenerator.java:86-109 | one turn of the loop: an acceptable draw is appended, any other draw is skipped |
| Arena.PlacedIsValid | Classes/MapGenerator.java:86-109 | every obstacle is an interior tile clear of the spawn, the centre tiles, the entrances and their one-tile buffers, and no two obstacles overlap |
| Arena.PlacedConcat | Classes/MapGenerator.java:86-109 | running the loop over two runs of draws is running it over the first and then, from the list it left, over the second |
| Arena.PlacedStopsOnlyAtTargetOrOutOfDraws | Classes/MapGenerator.java:86-109 | the loop falls short of the target only for lack of draws: below the target one more draw is always tried and is appended exactly when it is acceptable against the list so far; an acceptable first draw is the next obstacle |
| Arena.BlockedBox | Classes/MapGenerator.java:176-197 | a box that misses the obstacle is unchanged; otherwise it is pushed along exactly one axis, the one of smaller overlap (y on a tie), by that overlap, away from the obstacle, and ends clear of it when it did not straddle it |
| Arena.BlockAll | Classes/MapGenerator.java:166-173 | the push-outs in order; the size never changes, and a box that touches none is unchanged |
| Arena.NonEntrance | Classes/MapGenerator.java:170-171 | the obstacles that meet no entrance, in order |
| Arena.BlockNonEntranceStep | Classes/MapGenerator.java:170-173 | one turn of the obstacle loop: an entrance tile is skipped, any other obstacle pushes the box out |
| Arena.NonEntranceOfValid | Classes/MapGenerator.java:170-171 | on a generated map the entrance test never skips an obstacle |
| Arena.WalkableRowMembers | Classes/MapGenerator.java:239-274 | the tiles one row contributes are exactly its walkable tiles up to the column reached |
| Arena.WalkableRowsMembers | Classes/MapGenerator.java:236-277 | the walkable list holds exactly the grid tiles that meet none of the spawn, obstacles, entrances and walls |
| Arena.InteriorTilesMissWalls | Classes/MapGenerator.java:35-92 | on the 10 x 10 grid of 75-pixel tiles no interior tile meets a wall |
| Arena.AnyHit | Classes/MapGenerator.java:204-206 | true exactly when some box of the list intersects the tile |
| Arena.MapGenerator.constructor | Classes/MapGenerator.java:26-52 | fixed walls, centre spawn and entrances, and the obstacles the placement loop gives from an empty list at the level's target |
| Arena.MapGenerator.GenerateObstacles | Classes/MapGenerator.java:73-110 | the obstacles become Placed of the old list, and the map stays valid |
| Arena.MapGenerator.Accepts | Classes/MapGenerator.java:92-105 | true exactly when the tile passes the spawn, centre, entrance, buffer and obstacle tests |
| Arena.MapGenerator.IsNearEntrance | Classes/MapGenerator.java:112-125 | true exactly when the tile meets an entrance grown by one tile |
| Arena.MapGenerator.GetClearSpawnPoint | Classes/MapGenerator.java:131-157 | an s x s box just outside entrance 0-3, touching it without overlap and centred along it to within a pixel; any other index gives the entrance's corner |
| Arena.MapGenerator.IsEntrance | Classes/MapGenerator.java:204-206 | true exactly when some entrance intersects the tile |
| Arena.MapGenerator.Block | Classes/MapGenerator.java:176-197 | the player box becomes BlockedBox of the old one |
| Arena.MapGenerator.BlockPlayer | Classes/MapGenerator.java:164-174 | the player box is pushed out of every wall, then of every obstacle that is not an entrance tile |
| Arena.MapGenerator.BlockEach | Classes/MapGenerator.java:166-168 | the player box becomes BlockAll over the walls |
| Arena.MapGenerator.BlockNonEntrance | Classes/MapGenerator.java:170-173 | the player box becomes BlockAll over the obstacles that are not entrance tiles |
| Arena.MapGenerator.UpdateLevel | Classes/MapGenerator.java:223-225 | only the level changes |
| Arena.MapGenerator.GetWalkableTiles | Classes/MapGenerator.java:236-277 | the tiles of WalkableRows, in row-major order |
| GameRules.Select | Classes/Main.java:236-248 | what a removal loop leaves: never longer than the list, and the whole list when every flag is set |
| GameRules.SelectLength | Classes/Main.java:236-248 | the kept and the removed elements add up to the list |
| GameRules.SelectKeeps | Classes/Main.java:236-248 | every element whose flag is set stays in the list |
| GameRules.SelectSubset | Classes/Main.java:236-248 | only elements of the list stay |
| GameRules.SelectDistinct | Classes/Main.java:177-178 | removing elements from a list without repeats leaves a list without repeats |
| GameRules.GetOrZero | Classes/Main.java:302-307 | the stored value for a key that is present, 0 for a missing one |
| GameRules.Quota | Classes/Main.java:492-496 | a boss wave (a multiple of 5) has a fifth of its number of enemies, any other wave one more than its number; at least one from wave 1 on |
| GameRules.InitialSchedule | Classes/Main.java:95-106 | wave 1 with a quota of 2, nothing spawned and no wave running: a consistent schedule |
| GameRules.SpawnStep | Classes/Main.java:444-476 | an enemy is ordered exactly while a wave runs below its quota; it is numbered enemyNums, comes out of entrance enemyNums % 4 after the count that entrance had, bumps that count, and is a boss exactly on a boss wave; otherwise nothing changes |
| GameRules.SpawnStepKeepsScheduleOk | Classes/Main.java:444-476 | spawning keeps the per-entrance counts summing to the spawned enemies and never exceeds the quota |
| GameRules.SpawnEntrancesRotate | Classes/Main.java:445-474 | two enemies in a row come out of consecutive entrances, modulo 4 |
| GameRules.SpawnBox | Classes/Main.java:452-463 | the base spawn box moved along x for the top and bottom entrances and along y for the side ones, size kept |
| GameRules.SameEntranceSpawnsApart | Classes/Main.java:455-463 | two enemies of one wave at the same entrance never overlap when they appear |
| GameRules.WaveEnd | Classes/Main.java:480-507 | the wave ends exactly when its quota is spawned and no enemy is left: the wave number goes up, the quota, count and spawn counts are reset, play stops after a boss wave, the map is rebuilt on waves 5k + 1 and power-ups appear on every third wave from 3 |
| GameRules.WaveEndKeepsScheduleOk | Classes/Main.java:480-507 | ending a wave keeps the schedule consistent |
| GameRules.RebuildFollowsBossWave | Classes/Main.java:481-502 | a new map is built exactly after a boss wave, for level (wave - 1) / 5 + 1 |
| GameRules.CooldownStep | Classes/Main.java:309-318 | the player is hit exactly when in contact at cooldown 0, which resets it to DAMAGE_RATE; in contact it otherwise counts down, out of contact it is cleared; it stays within 0..DAMAGE_RATE |
| GameRules.DamageFold | Classes/Main.java:291-320 | dealDamage over the enemies in list order: never more hits than enemies |
| GameRules.DamageFoldInRange | Classes/Main.java:291-320 | every cooldown stays within 0..DAMAGE_RATE, known enemies stay known and every enemy seen gets an entry |
| GameRules.DamageFoldNoContact | Classes/Main.java:309-318 | without contact the player takes no hit |
| GameRules.AfterHits | Classes/Main.java:311 | after n one-point hits health plus shield fell by n, the shield stays non-negative and neither grows |
| GameRules.AfterHitsClosed | Classes/Character.java:96-106 | n one-point hits empty the shield first and only then take health |
| GameRules.HitsToKill | Classes/Character.java:113-115 | a character with positive health and a shield of s is still alive after n one-point hits exactly when n < health + s |
| GameRules.TouchCooldownFirstCycle | Classes/Main.java:309-315 | in continuous contact the cooldown counts down from DAMAGE_RATE to 0 |
| GameRules.TouchCooldownPeriodic | Classes/Main.java:309-315 | in continuous contact the cooldown repeats every DAMAGE_RATE + 1 ticks |
| GameRules.ContactHitsEveryThirtyOneTicks | Classes/Main.java:309-315 | an enemy that stays in contact hits on its first tick and then exactly every 31st tick |
| GameRules.Digits | Classes/Main.java:715-719 | the hundreds, tens and ones values; the tens and ones are digits for a non-negative score |
| GameRules.DigitsRecombine | Classes/Main.java:715-719 | below 1000 the three digits give the score back |
| GameRules.DigitsOverflowAtThousand | Classes/Main.java:716-796 | from 1000 on the hundreds value is 10 or more, for which drawDigit has no case |
| GameRules.KeyPress | Classes/Main.java:326-388 | J starts a wave exactly when none runs and play is not paused; U fires exactly when not paused and not already held; O uses a power-up and W, A, S, D start moving only when not paused; only a held key is added; pausing freezes the held keys and the wave flag; the game exits exactly on U while paused with quit chosen |
| GameRules.KeyRelease | Classes/Main.java:394-396 | the released key is no longer held |
| GameRules.FireOncePerPress | Classes/Main.java:371-396 | holding U fires once; releasing it re-arms the shot |
| GameRules.PauseThenResume | Classes/Main.java:338-351 | I then U gives back the running game, with the timer on exactly when a wave runs |
| GameRules.PausedIgnoresPlay | Classes/Main.java:338-368 | while paused no key fires, moves, uses a power-up or starts a wave |
| GameRules.SmoothMoves | Classes/Main.java:193-225 | at most two moves, each in a held direction, never repeated, a vertical move before a horizontal one; none without a held movement key; W with A gives up then left, W with D (no A) up then right, S with A (no W) down then left, S with D (no W, no A) down then right; without such a pair every held key moves once, up before down and left before right |
| GameRules.Walked | Classes/Main.java:200-225 | the moves applied in order keep the box's size |
| GameRules.WalkedStaysInPanel | Classes/Main.java:200-225 | walking never leaves the panel |
| GameRules.HitStage | Classes/Main.java:138-161 | a plain bullet touching a box of the list is removed; a bouncing one bounces on the first box touched and loses at most one bounce; a bullet touching nothing is unchanged |
| GameRules.BulletFate | Classes/Main.java:133-183 | a hit names an enemy of the list; a plain bullet touching an obstacle is removed without a hit; a survivor keeps its kind and panel and used at most two bounces; BulletFateSound states the rest |
| GameRules.BulletFateSound | Classes/Main.java:133-183 | only the first enemy a bullet touches is hit; a plain bullet touching an obstacle or wall is removed without a hit; any other removal without a hit is a bullet off the panel; a survivor touches no enemy, advances one step and used at most two bounces |
| GameRules.Fates | Classes/Main.java:133-183 | one fate per bullet |
| GameRules.Surviving | Classes/Main.java:177-182 | a bullet is kept exactly when it survives |
| GameRules.Hits | Classes/Main.java:165-170 | an enemy takes at most one hit per bullet |
| GameRules.HitsWitness | Classes/Main.java:165-170 | an enemy that was hit was hit by some bullet |
| GameRules.HitsNeedContact | Classes/Main.java:165-170 | only an enemy that some bullet touches is hit |
| GameRules.Untouched | Classes/Main.java:257 | an item stays on the floor exactly when the player does not touch it |
| GameRules.Collected | Classes/Main.java:255-261 | every item picked up enters the inventory inactive with its full duration |
| GameRules.PickUpStep | Classes/Main.java:255-261 | one turn of the pickup loop: a touched item leaves the floor for the inventory, any other stays |
| GameRules.PickupConserves | Classes/Main.java:255-261 | every item is either picked up or left, never both |
| GameRules.PickupLeavesNoneTouching | Classes/Main.java:255-261 | no item left on the floor touches the player |
| GameRules.CentredIn | Classes/Main.java:281-284 | a box of the given size inside the tile, centred to within one pixel on each axis |
| GameRules.SpawnedItems | Classes/Main.java:276-288 | a shotgun and a speed boost of 3, each lasting 1000 ticks, half a tile wide and centred in its tile |
| GameRules.PowerUpDrop | Classes/Main.java:269-288 | no items without a walkable tile, otherwise the two items on the tiles drawn |
| Engine.States | Classes/Main.java:133-134 | the state of every bullet, in list order |
| Engine.EnemyBoxes | Classes/Main.java:165-166 | the box of every enemy, in list order |
| Engine.Contacts | Classes/Main.java:294-309 | each enemy's number and whether it touches the player, in list order |
| Engine.InBounds | Classes/Main.java:236-240 | a bullet is kept exactly when it has not left the panel |
| Engine.Living | Classes/Main.java:243-248 | an enemy is kept exactly when its health is above zero |
| Engine.FirstHit | Classes/Main.java:138-166 | the index of the first box the bullet touches, -1 when none |
| Engine.HitEnemy | Classes/Main.java:165-171 | the first enemy the bullet touches loses one point of health, and no other enemy changes |
| Engine.Collide | Classes/Main.java:138-161 | the bullet is removed or bounced exactly as HitStage says |
| Engine.ProcessBullet | Classes/Main.java:134-182 | one pass of the bullet loop: the bullet is removed exactly when its fate says so, a survivor takes its next state, the enemy it hits loses a point, and no other bullet changes |
| Engine.BulletLoop | Classes/Main.java:133-183 | the bullet loop leaves the survivors in order, each at its next state, and every enemy has lost one point per bullet that hit it |
| Engine.SteerEnemies | Classes/Main.java:185-187 | every enemy takes the pose its moveTowardPlayer gives toward the player |
| Engine.EnemiesApartSnoc | Classes/Main.java:470-472 | a new enemy with a body of its own keeps the enemies apart |
| Engine.NewEnemy | Classes/Main.java:469-473 | a fresh boss on waves 5, 10, ..., a fresh basic enemy otherwise, 75 pixels square at the spawn point, with the given number, facing down, and its kind's speed, health, shield and moving flag |
| Engine.Score.constructor | Classes/Main.java:704-709 | no points and all digits 0 |
| Engine.Score.UpdateScore | Classes/Main.java:711-713 | the score grows by the increase |
| Engine.Score.TrackScore | Classes/Main.java:715-719 | the digits are Digits(score); below 1000 they recombine to the score |
| Engine.Game.constructor | Classes/Main.java:91-126 | the player 70 pixels square in the middle with full health and shield, the level-1 map, wave 1 with a quota of 2 waiting for J, no enemy, bullet, item or held key and no points; the animation counter keeps the value the static COUNTER had |
| Engine.Game.MoveBullets | Classes/Main.java:133-183 | the bullets become the survivors of their fates against the map and the enemies, each advanced, and each enemy lost a point per hit |
| Engine.Game.MoveEnemies | Classes/Main.java:185-187 | every enemy steers toward where the player stood |
| Engine.Game.HandleSmoothMovement | Classes/Main.java:193-229 | the player walks the moves of the held keys, then is pushed out of the walls and the obstacles that are not entrance tiles; it faces the last move's direction |
| Engine.Game.Walk | Classes/Main.java:194-225 | the player box is Walked over SmoothMoves of the held keys |
| Engine.Game.AliveDead | Classes/Main.java:234-249 | off-panel bullets and dead enemies leave their lists in order, every dead enemy is worth 10 points, and every enemy left is alive |
| Engine.Game.RemoveOutOfBounds | Classes/Main.java:236-240 | the bullets still in the panel, in order |
| Engine.Game.RemoveDead | Classes/Main.java:243-248 | the live enemies in order, and 10 points per enemy removed |
| Engine.Game.CheckPowerUpPickup | Classes/Main.java:254-262 | items the player touches leave the floor and enter the inventory, last first; the others stay in order |
| Engine.Game.PickUp | Classes/Main.java:255-261 | the pickup loop from the back: the floor keeps the untouched items, the inventory gains the collected ones |
| Engine.Game.SpawnPowerUps | Classes/Main.java:267-289 | the floor holds exactly the items PowerUpDrop lays out on the map's walkable tiles |
| Engine.Game.DealDamage | Classes/Main.java:291-320 | the cooldown table becomes DamageFold of the contacts, and the player takes exactly its number of one-point hits |
| Engine.Game.ApplyContacts | Classes/Main.java:294-319 | the loop of dealDamage, enemy by enemy |
| Engine.Game.Touch | Classes/Main.java:300-318 | one enemy: its cooldown steps as CooldownStep says, and a hit costs the player one point |
| Engine.Game.KeyPressed | Classes/Main.java:326-388 | the controls change as KeyPress says; J resets the player's position and clears the bullets; a fresh U appends fresh bullets in exactly the states ShotStates gives for the player before the key; O uses a power-up; nothing else changes the bullets, the inventory or the position |
| Engine.Game.PauseKey | Classes/Main.java:338-368 | I, U and, while paused, W and S change the controls as KeyPress says |
| Engine.Game.StartWave | Classes/Main.java:327-336 | the wave runs, the timer starts, the bullets vanish and the player is back at the start position |
| Engine.Game.PlayKey | Classes/Main.java:371-387 | U and the movement keys are held; a fresh U appends fresh bullets in exactly the states of the player's shot; O uses a power-up; a movement key sets the player moving |
| Engine.Game.FireShot | Classes/Main.java:372-374 | the player's shot is appended as fresh bullets whose states are the player's ShotStates, and the list stays without repeats |
| Engine.Game.KeyReleased | Classes/Main.java:394-396 | the key is no longer held |
| Engine.Game.SpawnEnemy | Classes/Main.java:444-476 | the schedule steps as SpawnStep says; an ordered enemy is appended, fresh, at the spaced spawn box of its entrance, a boss exactly on a boss wave, with its number and its kind's speed, health, shield and initial pose |
| Engine.Game.EndWave | Classes/Main.java:480-507 | the schedule steps as WaveEnd says; at a wave end the bullets vanish, the timer stops after a boss wave, a fresh map of the new level is built on waves 5k + 1 (the old map's level follows the wave otherwise), and power-ups are laid out on every third wave |
| Engine.Game.AdvanceWave | Classes/Main.java:481-498 | the schedule becomes the next wave's, the timer stops after a boss wave, the bullets vanish and the map's level is the new wave |
| Engine.Game.ChangeEnemyFrames | Classes/Main.java:430-432 | every enemy's frame flips and nothing else of it changes |
| Engine.Game.Tick | Classes/Main.java:408-512 | a dead player ends the game and stops the timer; otherwise the schedule takes the spawn step and possibly the wave end, and the animation counter steps |
| Engine.Game.Upkeep | Classes/Main.java:420-440 | the schedule is untouched, the counter steps and wraps to 0 at 8, staying in 0..7, the player stops when no key is held and flips its frame on the eighth tick, and the lists only lose elements |
| Engine.Game.Animate | Classes/Main.java:420-435 | the player stops exactly when no key is held and keeps its moving flag otherwise; the counter steps and wraps to 0 at FRAME_REFRESH_RATE, and on that tick the player's and every enemy's frame flips, while on every other tick no frame changes |
| Engine.Game.Fight | Classes/Main.java:437-440 | the bullet and enemy lists only lose elements, and the game state stays valid |
| Engine.Game.PowerUpUpkeep | Classes/Main.java:439-440 | the items the player touches leave the floor and join the inventory, then the inventory ticks as TickList says and the expired power-ups' effects are undone as TickEffects says |
| Engine.Game.Advance | Classes/Main.java:444-510 | the schedule takes the spawn step and possibly the wave end; the counter is untouched |
| Engine.Game.Reschedule | Classes/Main.java:444-507 | the schedule takes the spawn step and possibly the wave end; the bullets only lose elements and the enemies gain only fresh ones |
| Engine.Game.Motion | Classes/Main.java:509-510 | the player moves, then the bullets, then the enemies; the game stays valid |
| Text.TrimStart | Classes/HighscoreManager.java:55 | a suffix of the string whose first character is above U+0020, having dropped only characters up to U+0020 |
| Text.TrimEnd | Classes/HighscoreManager.java:55 | a prefix of the string whose last character is above U+0020, having dropped only characters up to U+0020 |
| Text.Trim | Classes/HighscoreManager.java:55 | String.trim: neither end of a non-empty result is at or below U+0020 |
| Text.TrimUntrimmed | Classes/HighscoreManager.java:55 | a string with untrimmable ends is its own trim |
| Text.TrimLeading | Classes/HighscoreManager.java:55 | a leading blank does not change the trim |
| Text.TrimTrailing | Classes/LeaderboardPanel.java:61 | a trailing blank does not change the trim |
| Text.LastIndexOf | Classes/HighscoreManager.java:52 | String.lastIndexOf: the position holds the character and none after it does; -1 when absent |
| Text.LastIndexOfAppend | Classes/HighscoreManager.java:52 | text without the character after a string keeps the string's last match |
| Text.ParseInt | Classes/HighscoreManager.java:55 | Integer.parseInt: a result is a 32-bit int read from a string starting with a sign or a digit, where a digit is a decimal digit of any script, as Character.digit reads it |
| Text.DigitValue | Classes/HighscoreManager.java:55 | Character.digit(c, 10): a value in 0..9 for a decimal digit of any script in the Basic Multilingual Plane, the usual value for an ASCII digit, -1 otherwise |
| Text.ParseIntOtherScripts | Classes/HighscoreManager.java:55 | a fullwidth five reads as 5 and a minus sign with Arabic-Indic five and zero reads as -50 |
| Text.NatDigits | Classes/HighscoreManager.java:15 | a non-empty string of digits whose value is the number |
| Text.IntToString | Classes/HighscoreManager.java:15 | Integer.toString: non-empty with untrimmable ends; no '-' for a non-negative number, exactly one leading '-' for a negative one |
| Text.ParseIntToString | Classes/HighscoreManager.java:15-55 | Integer.parseInt reads back every 32-bit int Integer.toString writes |
| Text.ParseIntDropsSign | Classes/HighscoreManager.java:15-55 | the digits of a negative number read as its magnitude, or fail when that exceeds Integer.MAX_VALUE |
| Lists.Filter | Classes/HighscoreManager.java:31-33 | never longer than the list |
| Lists.FilterCounts | Classes/HighscoreManager.java:31-33 | every passing element is kept as often as it occurs, and nothing else |
| Lists.FilterIdentity | Classes/HighscoreManager.java:31-33 | a list whose every element passes is its own filter |
| StableSort.WithKey | Classes/HighscoreManager.java:37-41 | the elements of one key, in order: never longer than the list |
| StableSort.WithKeyMember | Classes/HighscoreManager.java:37-41 | they are elements of the list with that key |
| StableSort.Insert | Classes/HighscoreManager.java:37-41 | one element longer, holding the same elements plus the new one |
| StableSort.SortDesc | Classes/HighscoreManager.java:37-41 | the sorted lines are a permutation of the input |
| StableSort.InsertSorted | Classes/HighscoreManager.java:37-41 | inserting into a descending list keeps it descending |
| StableSort.SortDescSorted | Classes/HighscoreManager.java:37-41 | the result is in descending order of the key |
| StableSort.InsertWithKey | Classes/HighscoreManager.java:37-41 | an insert puts the new element before the equal keys already there |
| StableSort.SortDescStable | Classes/HighscoreManager.java:37-41 | lines of equal score keep their relative order, as List.sort guarantees |
| StableSort.SortDescSortedIdentity | Classes/HighscoreManager.java:37-41 | sorting a sorted list changes nothing |
| StableSort.SortedUnique | Classes/HighscoreManager.java:37-41 | two descending lists with the same elements of every key in the same order are equal |
| StableSort.StableSortIsSortDesc | Classes/HighscoreManager.java:37-41 | any stable descending sort gives exactly SortDesc, so the insertion sort stands for List.sort |
| HighScores.FormatLine | Classes/HighscoreManager.java:15 | the username, then " - ", then at least one more character |
| HighScores.ParseScore | Classes/HighscoreManager.java:51-59 | a 32-bit int, and 0 for a line without '-' |
| HighScores.ParseScoreOtherScripts | Classes/HighscoreManager.java:51-59 | the line "ABC - " with a fullwidth five carries the score 5 |
| HighScores.FormatLineLastDash | Classes/HighscoreManager.java:15-52 | the last '-' of a written line is the separator for a score of zero or more and the sign of a negative one |
| HighScores.ParseScoreFormatLine | Classes/HighscoreManager.java:15-59 | parseScore reads back a score of zero or more; a negative score reads as its magnitude, and Integer.MIN_VALUE as 0 |
| HighScores.ParseScoreNonNegative | Classes/HighscoreManager.java:15-59 | a written score of zero or more reads back |
| HighScores.FormatLineSplit | Classes/HighscoreManager.java:15-55 | for a score of zero or more the last '-' follows the username and a blank, and the text after it parses to the score |
| HighScores.ParseScoreNegative | Classes/HighscoreManager.java:15-59 | a negative score reads back as its magnitude, Integer.MIN_VALUE as 0 |
| HighScores.SortScoresTwice | Classes/HighscoreManager.java:25-49 | sortScores is idempotent: a second run leaves the file as the first wrote it |
| HighScores.AddScoreKeepsLine | Classes/HighscoreManager.java:12-20 | addScore's line is in the file afterwards |
| HighScores.FormatLineHead | Classes/HighscoreManager.java:15 | a written line starts with the username and a blank |
| HighScores.FormatLineNotBlank | Classes/HighscoreManager.java:15-32 | a written line is never blank, so sortScores keeps it |
| HighScores.ScoreFile.constructor | Classes/HighscoreManager.java:9-13 | the file as given: present with its lines, or missing with none |
| HighScores.ScoreFile.ReadNonBlank | Classes/HighscoreManager.java:29-33 | the reading loop keeps exactly the non-blank lines, in order |
| HighScores.ScoreFile.SortScores | Classes/HighscoreManager.java:25-49 | a missing file is left alone; otherwise it becomes its non-blank lines in stable descending order of score |
| HighScores.ScoreFile.AddScore | Classes/HighscoreManager.java:12-20 | the file exists and holds the old lines and the new one, non-blank, sorted |
| Leaderboard.ParseEntry | Classes/LeaderboardPanel.java:57-67 | a parsed line is not blank and carries the score parseScore reads; a skipped line is one parseScore reads as 0 |
| Leaderboard.ParseEntryFormatLine | Classes/LeaderboardPanel.java:59-64 | a line addScore writes with a score of zero or more reads back as the trimmed username and that score |
| Leaderboard.EntryOf | Classes/LeaderboardPanel.java:57-67 | at most one entry per line, carrying the line's parseScore |
| Leaderboard.ParsedEntries | Classes/LeaderboardPanel.java:55-69 | no more entries than lines |
| Leaderboard.ParsedEntriesAtLeast | Classes/LeaderboardPanel.java:55-69 | lines that all score at least b give entries that all score at least b |
| Leaderboard.ParsedEntriesDesc | Classes/LeaderboardPanel.java:49-69 | the lines of a sorted file give entries of non-increasing score |
| Leaderboard.AppendDesc | Classes/LeaderboardPanel.java:64 | appending an entry no higher than any before keeps the entries non-increasing |
| Leaderboard.Scroll | Classes/LeaderboardPanel.java:134-143 | the offset moves by at most one: down only on W and not below 0, up only on S and not past the last full window |
| Leaderboard.ScrollDownUp | Classes/LeaderboardPanel.java:134-143 | S then W comes back, unless S was at the bottom |
| Leaderboard.ScrollUpDown | Classes/LeaderboardPanel.java:134-143 | W then S comes back, unless W was at the top |
| Leaderboard.LeaderboardPanel.constructor | Classes/LeaderboardPanel.java:33-38 | the file is sorted, the entries are read from it and the offset is 0 |
| Leaderboard.LeaderboardPanel.ReadEntries | Classes/LeaderboardPanel.java:55-69 | the reading loop gives ParsedEntries of the lines |
| Leaderboard.LeaderboardPanel.LoadScores | Classes/LeaderboardPanel.java:48-75 | the file is sorted; the entries are those of the sorted file, highest score first, none for a missing file; the offset is clamped to the last full window unless the file is missing |
| Leaderboard.LeaderboardPanel.KeyPressed | Classes/LeaderboardPanel.java:134-143 | the offset becomes Scroll of the old one and stays valid |
| Leaderboard.LeaderboardPanel.VisibleEntries | Classes/LeaderboardPanel.java:89-115 | min(7, n) entries, the i-th being entry scrollOffset + i |
| Username.LayoutLabels | Classes/UsernameInputScreen.java:106-111 | every key of the layout is a capital letter, BACK or ENTER |
| Username.Up | Classes/UsernameInputScreen.java:119 | one row up unless on the top row, the column clamped to the new row's last key; the cursor stays on a key |
| Username.Down | Classes/UsernameInputScreen.java:120 | one row down unless on the bottom row, the column clamped to the new row's last key; the cursor stays on a key |
| Username.Left | Classes/UsernameInputScreen.java:121 | one key left unless on the first key, same row |
| Username.Right | Classes/UsernameInputScreen.java:122 | one key right unless on the last key, same row |
| Username.LeftRightInverse | Classes/UsernameInputScreen.java:121-122 | left undoes right away from the row's end, right undoes left away from its start |
| Username.UpDownInverse | Classes/UsernameInputScreen.java:119-120 | up undoes down and down undoes up when the column exists in the row passed through |
| Username.Edit | Classes/UsernameInputScreen.java:84-97 | the name keeps at most three capital letters; BACK drops the last letter of a non-empty name, a letter is appended while there is room, and ENTER, BACK on an empty name or a letter on a full name leave it as it is; it shrinks and grows in no other way |
| Username.BackUndoesLetter | Classes/UsernameInputScreen.java:86-95 | BACK takes away the letter just added |
| Username.Chosen | Classes/UsernameInputScreen.java:88-91 | the listener gets the name exactly on ENTER with three letters typed |
| Username.VirtualKeyboard.constructor | Classes/UsernameInputScreen.java:112-113 | the cursor starts on the first key |
| Username.VirtualKeyboard.SelectedKey | Classes/UsernameInputScreen.java:118 | always a letter, BACK or ENTER |
| Username.VirtualKeyboard.MoveUp | Classes/UsernameInputScreen.java:119 | the cursor moves as Up says |
| Username.VirtualKeyboard.MoveDown | Classes/UsernameInputScreen.java:120 | the cursor moves as Down says |
| Username.VirtualKeyboard.MoveLeft | Classes/UsernameInputScreen.java:121 | the cursor moves as Left says |
| Username.VirtualKeyboard.MoveRight | Classes/UsernameInputScreen.java:122 | the cursor moves as Right says |
| Username.UsernameInputScreen.constructor | Classes/UsernameInputScreen.java:20-37 | an empty name and the cursor on the first key |
| Username.UsernameInputScreen.HandleSelection | Classes/UsernameInputScreen.java:84-97 | the name changes as Edit says and the name chosen is the one Chosen gives, for the key under the cursor |
| Username.UsernameInputScreen.KeyPressed | Classes/UsernameInputScreen.java:74-83 | W, S, A and D move the cursor, L selects the key under it, any other key changes nothing |

## Left out

- Rendering is not modelled, because it is drawing only and changes no game state. This covers `paintComponent`, `drawCharacter`, `draw`, `drawScore`, `drawDigit`, the HUD, the sprite sheets, the scaling math and the keyboard drawing.
- Sound, images and fonts (`SoundPlayer`, `ResourceLoader`, `FontLoader`) are not modelled, because they are I/O.
- Window plumbing is not modelled, because it is UI: `Homepage`, `DeathScreen` and `ScoresScreen`, `dispose`, new frames, and the paused overlay's drawing. The pause state itself is modelled.
- The Swing timer is a flag, `timerRunning`. One call of `Engine.Game.Tick` stands for one timer event.
- Random draws are inputs:
  - the obstacle candidates are a finite sequence `draws`, so the placement loop is modelled only up to the draws given and its termination is not claimed;
  - the power-up tiles are two indices `pick1` and `pick2`.
- Values the Java code computes in floating point are integer parameters or tables:
  - the basic enemy's speed 2.5;
  - the boss speed `1.5 + 0.1 * level`, as its integer part;
  - the unit vector toward the player, as the `aim` parameter;
  - the shotgun's cosines and sines, as a table of truncated velocities.
- `moveVector`/`syncPosition` are not defined in the `Character` class. `BasicEnemy`'s step is therefore the function parameter `step`.
- Positions and scores are unbounded integers. No Java `int` overflow is modelled on them, since coordinates stay within the 900-pixel panel. The 32-bit range is modelled where it matters: in `Integer.parseInt` and `Integer.toString`.
- The file I/O of `HighscoreManager` and `LeaderboardPanel` is not modelled directly. The file is a flag saying whether it exists plus its lines. `IOException` is not modelled.
- A username containing a line break, which would split the written line in two, is not modelled.
- `List.sort` is modelled as a stable insertion sort, `StableSort.SortDesc`. `StableSort.StableSortIsSortDesc` shows that every stable descending sort gives the same list.
- The `UsernameListener` callback is the name that `HandleSelection` and `KeyPressed` return.
- The player-name highlighting in the leaderboard is not modelled, because it only chooses a colour.
- `PowerUpItem` and `HealItem` are not modelled as classes. An item is a box and a power-up. `HealItem` depends on a `Heal` class that is not part of this model.
- The power-up icons are not modelled.
- In `Main`, the bullet loop reads the enemies' boxes once before it starts. Nothing in that loop moves an enemy, so this matches the per-bullet reads.
- `Enemy` has its own `health` field, which shadows `Character.health`. It is kept apart from the body's health.
- Engine.Game.Tick: states the death check, the schedule step and the animation counter. For the other parts of the tick it states only that the game stays valid. The parts it runs carry their own full contracts: `DealDamage`, `AliveDead`, `CheckPowerUpPickup`, `SpawnEnemy`, `EndWave`, `HandleSmoothMovement`, `MoveBullets` and `MoveEnemies`.
- Engine.Game.Fight: states only that the game stays valid and that the bullet and enemy lists only lose elements. Its parts carry the full contracts.
- Engine.Game.Motion: a sequencing step of the tick that states only that the game stays valid. The methods it calls, `HandleSmoothMovement`, `MoveBullets` and `MoveEnemies`, carry the full contracts.
- Engine.Game.Upkeep: states the schedule, the counter, the player's moving flag and frame, and that the lists only lose elements. It does not state the enemies' frames, the damage, the clean-up or the power-ups; `Animate` and the parts of `Fight` state those.
- Engine.Game.Advance: states only the schedule step and that the counter is untouched. The new enemy, the wave end's effects and the movement are stated by `SpawnEnemy`, `EndWave`, `HandleSmoothMovement`, `MoveBullets` and `MoveEnemies`.
- Engine.Game.Reschedule: states only the schedule step and that bullets are only lost and enemies only gained fresh. The new enemy's box and kind and the wave end's map and power-ups are stated by `SpawnEnemy` and `EndWave`.
