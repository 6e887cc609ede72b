# Space shooter: a verified model of the frame loop

The game is a vertical space shooter. The player's ship moves with the arrow keys. It fires
green lasers upwards with Space, and Escape pauses the game. Ten enemy ships descend from above
the screen. Each fires red lasers whenever its height passes a multiple of 100. When a laser hits
an enemy, or an enemy leaves the bottom, it gets a new x and is moved between 800 and 1000 units
up, which need not take it above the top of the screen. A laser that hits
an enemy scores a point. A red laser that hits the ship costs a life and starts 160 frames of
invulnerability, during which the ship blinks. A hit taken with no life left ends the game. The
game-over screen keeps the highest score and offers Play and Exit. The pause menu offers Resume
and Exit.

The model covers one iteration of the frame loop with drawing, sound and text taken out. It is
split into four modules:

- `Geometry` (geometry.dfy) holds positions, sprite-scaled rectangles, and the library helpers
  the loop calls: closed rectangle overlap, clamp, a uniform draw, and the truncating
  floating-point remainder.
- `PlayerShip` (player.dfy) holds the ship, as a class whose `Update` moves it in place.
- `Rules` (rules.dfy) states every per-frame rule as a function over the pools of positions. It
  also proves what each rule does as a whole. Each rule handles one pool element after another,
  in pool order, exactly as the loop does.
- `SpaceShooter` (game.dfy) holds the loop's state as the class `Game`. `Game.Step` runs one
  iteration. The methods that update a pool do so with loops proved against the `Rules`
  functions. The class invariant `Valid` is kept by every frame:
  - there are ten enemies;
  - the invulnerability countdown stays in `[0, 160]`;
  - the scores are non-negative;
  - lives stay in `[-1, 3]`;
  - the game is over exactly when lives are at -1.

Inputs from the host are parameters:
- The keys held or pressed and the buttons clicked during a frame form an `Input` record.
- The screen size is passed to each frame.
- The random draws of `gen_range` come from a stream `rand` of unit draws in `[0, 1]`, read in
  order from a cursor. A draw `u` for `gen_range(lo, hi)` yields `lo + (hi - lo) * u`.

Where the game's documented behaviour and its code differ, the model follows the code:

- A hit taken with no life left still takes a life, so `lives_left` reaches -1. The documented
  behaviour is that lives never go negative. The hit also restarts the countdown and removes
  the laser.
- One player laser scores against every enemy it overlaps in the same frame, because the enemy
  loop does not stop at the first hit. The documented behaviour is a single kill.
- Play on the game-over screen resets score, lives, position, both laser pools and the enemies.
  It does not reset the invulnerability countdown or the blink toggle.

## Model

| member | source | states |
|---|---|---|
| Geometry.ScaleWidth | src/main.rs:289-291 | the drawn width is positive for a positive texture and scale, and no wider than the texture at a scale of at most 1 |
| Geometry.ScaleHeight | src/main.rs:293-295 | the drawn height is positive for a positive texture and scale, and no taller than the texture at a scale of at most 1 |
| Geometry.DestRec | src/main.rs:297-304 | the collision rectangle sits at the sprite's position and has the size ScaleWidth and ScaleHeight give |
| Geometry.Overlaps | src/main.rs:121 | rectangles that share a point, edges included, overlap; rectangles of non-negative size overlap only when they share a point |
| Geometry.OverlapsClosedAndSymmetric | src/main.rs:121 | the rectangle overlap test is symmetric, and rectangles that only touch along an edge overlap (closed intersection) |
| Geometry.Clamp | src/player.rs:42-43 | the clamped value lies in `[lo, hi]`; a value inside is unchanged; a value below becomes `lo`; a value above becomes `hi` |
| Geometry.GenRange | src/main.rs:310-311 | a draw from a unit draw lies within `[lo, hi]` |
| Geometry.FRem | src/main.rs:186 | the float remainder lies in `[0, b)` for a non-negative dividend and in `(-b, 0]` for a negative one (truncating, sign of the dividend) |
| Geometry.FRemPositiveIsFloorMod | src/main.rs:186 | for positive operands the truncating remainder equals the floor-based one |
| Geometry.FRemPeriodic | src/main.rs:186 | adding the divisor to a non-negative dividend leaves the remainder unchanged |
| PlayerShip.Axis | src/player.rs:29-40 | the direction along one axis is +1 or -1 when one key is held, and 0 when neither or both are held |
| PlayerShip.Steer | src/player.rs:42-43 | a displaced coordinate ends up within `[0, screen - extent]` from any prior position; an on-screen coordinate with no displacement stays put |
| PlayerShip.Player.constructor | src/player.rs:12-14 | the new ship stores exactly the given texture, position, lives and scale |
| PlayerShip.Player.Width | src/player.rs:16-18 | the ship's width is its texture scaled by its scale, as ScaleWidth computes it |
| PlayerShip.Player.Height | src/player.rs:20-22 | the ship's height is its texture scaled by its scale, as ScaleHeight computes it |
| PlayerShip.Player.DestRect | src/player.rs:24-26 | the ship's rectangle is its position with its width and height |
| PlayerShip.Player.Update | src/player.rs:28-44 | each coordinate moves by `speed` times the direction of the held keys (opposite keys cancel, diagonals combine), then is clamped so the ship is fully on screen; only `x` and `y` change |
| PlayerShip.RestingShipStays | src/player.rs:28-44 | with no key held, a second update after any first one leaves the ship where the first one put it |
| Rules.Respawn | src/main.rs:123-124 | a respawned enemy has x in `[50, screenW - 50]` and its y lowered by between 800 and 1000 |
| Rules.RespawnCanStayOnScreen | src/main.rs:123-124 | in a 700 by 900 window an enemy that left the bottom at height 901 can come back at height 101, on screen |
| Rules.StrikeAll | src/main.rs:117-128 | one laser tested against the enemy pool leaves a pool of the same size |
| Rules.StrikeAllCounts | src/main.rs:117-128 | one laser's hits are exactly the number of enemies it overlaps, each hit using two draws |
| Rules.StrikeAllQuiet | src/main.rs:117-128 | a laser that overlaps no enemy leaves the pool exactly as it was |
| Rules.StrikeAllSpec | src/main.rs:117-128 | every enemy the laser overlaps is respawned, and every other enemy is unchanged |
| Rules.PlayerVolley | src/main.rs:106-131 | the player laser pool's frame records one hit count per laser and keeps the enemy pool's size |
| Rules.PlayerVolleySpec | src/main.rs:106-131 | the kept lasers are exactly those that climbed 9, still reach the screen and struck nothing, in their original order; the score rises by the sum of the hit counts (each one the overlaps PlayerVolleyHits names); each hit uses two draws; with no hit the enemies are unchanged; otherwise each enemy is unchanged or moved back up from its old place |
| Rules.PlayerVolleyHits | src/main.rs:106-131 | the hit count recorded for each player laser is the number of enemies it overlaps after climbing 9, in the pool as the lasers before it left it |
| Rules.PlayerVolleyScores | src/main.rs:126 | the score never falls during the player laser pool's frame |
| Rules.EnemyBarrage | src/main.rs:133-163 | the enemy laser pool's frame names at most one scoring laser, by its pool index, and keeps no more lasers than there were |
| Rules.EnemyBarrageSpec | src/main.rs:133-163 | with no hit, lives, countdown and state are unchanged; a hit is possible only with the countdown at zero and is scored by the first laser that, after falling 5, overlaps the ship; it costs one life, sets the countdown to 160 and ends the game when no life was left |
| Rules.EnemyBarrageKept | src/main.rs:133-163 | the kept enemy lasers are exactly those that fell 5 and are not below the screen, minus the one that hit, in their original order |
| Rules.EnemyBarrageCostsAtMostOneLife | src/main.rs:143-160 | the enemy laser pool's frame either changes nothing or costs exactly one life and restarts the countdown |
| Rules.Fires | src/main.rs:186 | only an enemy below the top of the screen fires, and an enemy less than one unit into the screen does |
| Rules.Descend | src/main.rs:184-195 | one enemy's step uses no draws or exactly two, and the enemy fires only from a point below the top of the screen |
| Rules.DescendSpec | src/main.rs:184-195 | an enemy fires exactly when the firing test holds one unit lower; if that point is on screen the enemy is there and uses no draws, otherwise it is respawned from there with two draws |
| Rules.EnemyMarch | src/main.rs:183-204 | the enemy pool's frame keeps the number of enemies |
| Rules.EnemyMarchShots | src/main.rs:186-191 | the lasers fired in a frame come from the gun of each enemy whose firing test holds after descending, in pool order |
| Rules.EnemyMarchSpec | src/main.rs:183-204 | each enemy descends by exactly 1 and is respawned exactly when that takes it below the screen; draws are only consumed |
| Rules.MarchStaysAboveBottom | src/main.rs:192-195 | enemies that start a frame no lower than the bottom of the screen end it no lower |
| Rules.FiresEveryHundred | src/main.rs:186 | for positive heights the firing test repeats every 100 units of descent |
| Rules.FiresFloorForm | src/main.rs:186 | the firing test is `y > 0` and the floor-based remainder of `y` by 100 below 1 |
| Rules.Ratchet | src/main.rs:235-237 | the new highest score is the larger of the old highest score and the score |
| Rules.RatchetIdempotent | src/main.rs:235-237 | repeating the game-over screen's update changes nothing |
| Rules.RatchetAllIsMax | src/main.rs:235-237 | across a session the highest score is the maximum of its initial value and every final score |
| SpaceShooter.Muzzle | src/main.rs:95 | a player laser starts on the ship's top edge, equally far from both sides of the ship |
| SpaceShooter.Countdown | src/main.rs:169-181 | the invulnerability countdown never goes below zero, drops while running and stays at zero once stopped |
| SpaceShooter.Blink | src/main.rs:169-172 | the blink toggle is left alone by a stopped countdown and flips on the first frame after a hit |
| SpaceShooter.StaggeredSlot | src/main.rs:308-312 | slot `i` of a reset pool has x in `[50, screenW - 50]` and y in `[-150 (i + 1), -50 (i + 1)]` |
| SpaceShooter.ResetEnemies | src/main.rs:306-314 | the old pool is discarded and exactly ten enemies are placed, slot by slot with two draws each, staggered above the screen |
| SpaceShooter.Game.constructor | src/main.rs:33-89 | the loop starts active with no score, no countdown, empty laser pools, the ship at (200, 200) with three lives and scale 0.5, and a reset enemy pool |
| SpaceShooter.Game.Fire | src/main.rs:95-98 | Space appends a laser at the middle of the ship's top edge, only while the countdown is zero; otherwise the pool is unchanged |
| SpaceShooter.Game.StrikeEnemies | src/main.rs:116-128 | the in-place loop over the enemies computes StrikeAll: the new pool, the score plus the hits, whether anything was hit, and the draw cursor |
| SpaceShooter.Game.AdvancePlayerLasers | src/main.rs:106-131 | the retain loop over the player lasers computes PlayerVolley (kept lasers, enemy pool, score, draws); it never lowers the score and keeps the pool size |
| SpaceShooter.Game.AdvanceEnemyLasers | src/main.rs:133-163 | the retain loop over the enemy lasers computes EnemyBarrage against the ship's rectangle; either nothing changes or one life is lost, the countdown restarts and, on the last life, the game ends |
| SpaceShooter.Game.TickInvulnerability | src/main.rs:169-181 | a running countdown drops by one and the blink toggle flips on multiples of 20; a stopped countdown changes nothing |
| SpaceShooter.Game.AdvanceEnemies | src/main.rs:183-204 | the in-place loop over the enemies computes EnemyMarch, and their shots are pushed after the lasers already in the pool |
| SpaceShooter.Game.Exchange | src/main.rs:106-163 | the player lasers then the enemy lasers advance as PlayerVolley and EnemyBarrage say, keeping the invariant; the score does not fall; the game ends only on a hit at zero lives |
| SpaceShooter.Game.EnemyTurn | src/main.rs:169-204 | the countdown ticks, then the enemies advance as EnemyMarch says and their shots join the enemy laser pool, keeping the invariant |
| SpaceShooter.Game.Simulate | src/main.rs:104-212 | the rest of an active frame is the composition, in source order, of the player laser, enemy laser, countdown and enemy rules; the invariant holds and the score does not fall |
| SpaceShooter.Game.Maneuver | src/main.rs:93-98 | the ship moves as Update says, then fires as Fire says |
| SpaceShooter.Game.ActiveFrame | src/main.rs:92-213 | Escape pauses after movement and firing and changes nothing else; otherwise the frame is that composition applied to the pools after firing, against the ship's new rectangle; the game ends only on a hit at zero lives |
| SpaceShooter.Game.PausedFrame | src/main.rs:215-232 | Resume returns to the game, otherwise Exit ends the loop, and nothing else changes |
| SpaceShooter.Game.GameOverFrame | src/main.rs:234-271 | the highest score is ratcheted up to the score; Play resets score, lives, position and both pools, places a staggered enemy pool and resumes play; otherwise nothing but the highest score changes |
| SpaceShooter.Game.Step | src/main.rs:91-274 | one loop iteration runs the frame of the current state and keeps the invariant; the game is over only after a hit at zero lives or when it already was; the score changes only by rising in play or by resetting to 0 on Play |

## Left out

- Drawing is not modelled: sprites, text, the HUD, the blink tint, `Player::draw` and the texture draw parameters. `hit_toggle` is kept only as a boolean.
- Sounds are not modelled, nor loading of the font, textures and sounds. Only a texture's width and height are kept.
- Window configuration and the UI skin are not modelled.
- The host's input polling is not modelled. The frame's input is a record of keys held, keys pressed and buttons clicked.
- Frame pacing (`next_frame`) is not modelled. One call of `Step` is one loop iteration, so the `continue` after Escape is not visible.
- Leaving the loop with Exit is the `quit` result. The process exit itself is not modelled.
- The internals of `gen_range` are not modelled. Its results come from a stream of unit draws given as a parameter. `Step` and `GameOverFrame` require every draw of that stream to lie in `[0, 1]`.
- f32 rounding is not modelled: coordinates are real numbers.
- The i8 width of `lives_left` is not modelled. The invariant keeps lives within `[-1, 3]`, so it never wraps.
- The i32 width of `score`, `highest_score` and `hit_dur` is not modelled: they are unbounded integers. The countdown stays in `[0, 160]`; the score could wrap only after 2^31 hits.
- The screen size is a parameter of each frame, not a host query.
- SpaceShooter.Game.AdvanceEnemyLasers: the ship's rectangle is read once per frame rather than once per laser. The ship does not move while the enemy lasers advance, so every read gives the same rectangle.
