/** The game loop of the space shooter: the state it keeps between frames and
    one iteration of the loop, with drawing, sound and text left out. Input
    polling becomes an Input record, the screen size is passed to every frame,
    and the frame's random draws are a stream of unit draws. */
module SpaceShooter {
  import opened Geometry
  import opened PlayerShip
  import opened Rules

  const PlayerSpeed: real := 5.0
  const PlayerScale: real := 0.5
  const StartX: real := 200.0
  const StartY: real := 200.0
  const StartLives: int := 3
  const EnemyCount: nat := 10
  /** The blink toggle flips every this many frames of invulnerability. */
  const BlinkPeriod: int := 20

  /** What the player did during one frame: the held arrow keys, the keys
      pressed (fire with Space, pause with Escape) and the menu buttons
      clicked. */
  datatype Input = Input(keys: Keys, fire: bool, escape: bool, resume: bool, play: bool, exit: bool)

  /** Slot `i` (counting from 0) of a freshly reset enemy pool: x drawn in
      `[50, screenW - 50]` and y in `[-150 (i + 1), -50 (i + 1)]`, so that
      the enemies enter the screen one after the other. */
  function StaggeredSlot(i: nat, screenW: real, u: real, v: real): (r: Vec2)
    ensures 0.0 <= u <= 1.0 && screenW >= 100.0 ==> 50.0 <= r.x <= screenW - 50.0
    ensures 0.0 <= v <= 1.0 ==> -150.0 * ((i + 1) as real) <= r.y <= -50.0 * ((i + 1) as real)
  {
    var index := (i + 1) as real;
    Vec2(GenRange(50.0, screenW - 50.0, u), GenRange(index * -150.0, index * -50.0, v))
  }

  /** A pool of ten enemies placed by a reset. */
  ghost predicate Staggered(pool: seq<Vec2>, screenW: real)
  {
    |pool| == EnemyCount &&
    forall i :: 0 <= i < |pool| ==>
      (screenW >= 100.0 ==> 50.0 <= pool[i].x <= screenW - 50.0) &&
      -150.0 * ((i + 1) as real) <= pool[i].y <= -50.0 * ((i + 1) as real)
  }

  /** Refills the enemy pool from scratch: whatever it held is discarded and
      ten staggered enemies take its place, using twenty draws from `k0` on
      (x then y for each enemy). */
  method ResetEnemies(screenW: real, rand: nat -> real, k0: nat) returns (pool: seq<Vec2>, k: nat)
    ensures |pool| == EnemyCount && k == k0 + 2 * EnemyCount
    ensures forall i :: 0 <= i < |pool| ==>
              pool[i] == StaggeredSlot(i, screenW, rand(k0 + 2 * i), rand(k0 + 2 * i + 1))
    ensures UnitDraws(rand) ==> Staggered(pool, screenW)
  {
    pool := [];
    k := k0;
    for i := 1 to EnemyCount + 1
      invariant |pool| == i - 1 && k == k0 + 2 * (i - 1)
      invariant forall j :: 0 <= j < |pool| ==>
                  pool[j] == StaggeredSlot(j, screenW, rand(k0 + 2 * j), rand(k0 + 2 * j + 1))
    {
      var index := i as real;
      var x := GenRange(50.0, screenW - 50.0, rand(k));
      var y := GenRange(index * -150.0, index * -50.0, rand(k + 1));
      pool := pool + [Vec2(x, y)];
      k := k + 2;
    }
  }

  /** Where a player laser is fired: the middle of the ship's top edge. */
  function Muzzle(p: Player): (r: Vec2)
    reads p`x, p`y
    ensures r.y == p.y
    ensures r.x - p.x == p.x + p.Width() - r.x
    ensures p.Width() >= 0.0 ==> p.x <= r.x <= p.x + p.Width()
  {
    Vec2(p.x + p.Width() / 2.0, p.y)
  }

  /** The invulnerability countdown one frame later: it decreases by one
      while it is running, never goes below zero, and stays at zero once
      stopped. */
  function Countdown(hitDur: int): (r: int)
    ensures hitDur >= 0 ==> 0 <= r <= hitDur
    ensures r == hitDur <==> hitDur == 0
  {
    if hitDur != 0 then hitDur - 1 else hitDur
  }

  /** The blink toggle one frame later: it flips on every multiple of the
      blink period while the countdown is running, so a stopped countdown
      leaves it alone and a fresh hit flips it at once. */
  function Blink(hitDur: int, toggle: bool): (r: bool)
    ensures hitDur == 0 ==> r == toggle
    ensures hitDur == HitDuration ==> r != toggle
  {
    if hitDur != 0 && hitDur % BlinkPeriod == 0 then !toggle else toggle
  }

  /** The state of the game between two frames. */
  class Game {
    const laser: Texture
    const laserEn: Texture
    const enemyTex: Texture
    const player: Player
    var state: GameState
    var hitDur: int
    var hitToggle: bool
    var score: int
    var highestScore: int
    var playerProj: seq<Vec2>
    var enemyProj: seq<Vec2>
    var enemies: seq<Vec2>

    /** The invariant the frame loop keeps: ten enemies, a countdown within
        `[0, 160]`, non-negative scores, lives within `[-1, 3]`, and the game
        is over exactly when the lives have gone below zero. */
    ghost predicate Valid()
      reads this, player
    {
      |enemies| == EnemyCount &&
      0 <= hitDur <= HitDuration &&
      0 <= score && 0 <= highestScore &&
      -1 <= player.livesLeft <= StartLives &&
      (state == Inactive <==> player.livesLeft == -1)
    }

    /** The state before the first frame: an active game with the ship at
        (200, 200) with three lives, empty laser pools, zero scores and a
        freshly reset enemy pool. */
    constructor (playerTexture: Texture, laser: Texture, laserEn: Texture, enemyTex: Texture,
                 screenW: real, rand: nat -> real)
      ensures Valid() && fresh(player)
      ensures this.laser == laser && this.laserEn == laserEn && this.enemyTex == enemyTex
      ensures player.texture == playerTexture && player.scale == PlayerScale
      ensures player.x == StartX && player.y == StartY && player.livesLeft == StartLives
      ensures state == Active && hitDur == 0 && !hitToggle && score == 0 && highestScore == 0
      ensures playerProj == [] && enemyProj == []
      ensures UnitDraws(rand) ==> Staggered(enemies, screenW)
    {
      this.laser := laser;
      this.laserEn := laserEn;
      this.enemyTex := enemyTex;
      player := new Player(playerTexture, StartX, StartY, StartLives, PlayerScale);
      state := Active;
      hitDur := 0;
      hitToggle := false;
      score := 0;
      highestScore := 0;
      playerProj := [];
      enemyProj := [];
      var pool, _ := ResetEnemies(screenW, rand, 0);
      enemies := pool;
    }

    /** Space fires a laser from the ship's muzzle unless the ship is still
        invulnerable after a hit. */
    method Fire(pressed: bool)
      modifies this`playerProj
      ensures playerProj == old(playerProj) + (if pressed && hitDur == 0 then [Muzzle(player)] else [])
    {
      if pressed && hitDur == 0 {
        playerProj := playerProj + [Muzzle(player)];
      }
    }

    /** One player laser at `q` against every enemy of the pool, in pool
        order and without stopping at the first hit: each enemy it overlaps
        is respawned in place and scores a point. */
    method StrikeEnemies(q: Vec2, pool0: seq<Vec2>, score0: int, screenW: real, rand: nat -> real, k0: nat)
      returns (pool: seq<Vec2>, score: int, hit: bool, k: nat)
      ensures var s := StrikeAll(q, pool0, laser, enemyTex, screenW, rand, k0);
              pool == s.enemies && score == score0 + s.hits && k == s.k && hit == (s.hits > 0)
    {
      pool, score, hit, k := pool0, score0, false, k0;
      ghost var s := Strike([], 0, k0);
      var j := 0;
      while j < |pool|
        invariant |pool| == |pool0| && 0 <= j <= |pool0|
        invariant s == StrikeAll(q, pool0[..j], laser, enemyTex, screenW, rand, k0)
        invariant forall i :: j <= i < |pool0| ==> pool[i] == pool0[i]
        invariant forall i :: 0 <= i < j ==> pool[i] == s.enemies[i]
        invariant score == score0 + s.hits && k == s.k && hit == (s.hits > 0)
      {
        assert pool0[..j + 1][..j] == pool0[..j];
        s := StrikeOne(s, pool[j], q, laser, enemyTex, screenW, rand);
        if Struck(q, pool[j], laser, enemyTex) {
          pool := pool[j := Respawn(pool[j], screenW, rand(k), rand(k + 1))];
          hit := true;
          score := score + 1;
          k := k + 2;
        }
        j := j + 1;
      }
      assert pool0[..|pool0|] == pool0;
    }

    /** The player laser pool's frame: each laser of `ps` climbs, strikes
        the enemy pool, and is kept only if it is still on screen and struck
        nothing. Returns the kept lasers, the new enemy pool and score, and
        the position in the draw stream after the respawns. */
    method AdvancePlayerLasers(ps: seq<Vec2>, pool0: seq<Vec2>, score0: int, screenW: real,
                               rand: nat -> real, k0: nat)
      returns (kept: seq<Vec2>, pool: seq<Vec2>, score: int, k: nat)
      ensures var v := PlayerVolley(ps, pool0, score0, laser, enemyTex, screenW, rand, k0);
              kept == v.kept && pool == v.enemies && score == v.score && k == v.k
      ensures |pool| == |pool0| && score >= score0
    {
      kept, pool, score, k := [], pool0, score0, k0;
      ghost var v := Volley([], [], pool0, score0, k0);
      var i := 0;
      while i < |ps|
        invariant 0 <= i <= |ps|
        invariant v == PlayerVolley(ps[..i], pool0, score0, laser, enemyTex, screenW, rand, k0)
        invariant kept == v.kept && pool == v.enemies && score == v.score && k == v.k
      {
        assert ps[..i + 1][..i] == ps[..i];
        var q := Vec2(ps[i].x, ps[i].y - PlayerLaserSpeed);
        var hit;
        pool, score, hit, k := StrikeEnemies(q, pool, score, screenW, rand, k);
        if !(q.y + laser.height * LaserScale < 0.0 || hit) {
          kept := kept + [q];
        }
        v := Climb(v, ps[i], laser, enemyTex, screenW, rand);
        i := i + 1;
      }
      assert ps[..|ps|] == ps;
      PlayerVolleyScores(ps, pool0, score0, laser, enemyTex, screenW, rand, k0);
    }

    /** The enemy laser pool's frame: each laser of `ps` falls, may strike
        the ship's rectangle `target` while the countdown is not running, and
        is kept only if it is still on screen and did not strike. A strike
        costs a life, starts the countdown and, on the last life, ends the
        game. */
    method AdvanceEnemyLasers(ps: seq<Vec2>, target: Rect, lives0: int, hitDur0: int, state0: GameState,
                              screenH: real)
      returns (kept: seq<Vec2>, lives: int, hitDur: int, state: GameState)
      ensures var b := EnemyBarrage(ps, target, lives0, hitDur0, state0, laserEn, screenH);
              kept == b.kept && lives == b.lives && hitDur == b.hitDur && state == b.state
      ensures (lives == lives0 && hitDur == hitDur0 && state == state0) ||
              (hitDur0 == 0 && lives == lives0 - 1 && hitDur == HitDuration &&
               state == (if lives0 == 0 then Inactive else state0))
    {
      kept, lives, hitDur, state := [], lives0, hitDur0, state0;
      ghost var b := Barrage([], -1, lives0, hitDur0, state0);
      var i := 0;
      while i < |ps|
        invariant 0 <= i <= |ps|
        invariant b == EnemyBarrage(ps[..i], target, lives0, hitDur0, state0, laserEn, screenH)
        invariant kept == b.kept && lives == b.lives && hitDur == b.hitDur && state == b.state
      {
        assert ps[..i + 1][..i] == ps[..i];
        b := Fall(b, ps[i], i, target, laserEn, screenH);
        var q := Vec2(ps[i].x, ps[i].y + EnemyLaserSpeed);
        var hit := false;
        if hitDur == 0 {
          var rec := Rect(q.x, q.y, ScaleWidth(laserEn, LaserScale), ScaleHeight(laserEn, LaserScale));
          if Overlaps(rec, target) {
            if lives == 0 {
              state := Inactive;
            }
            lives := lives - 1;
            hit := true;
            hitDur := HitDuration;
          }
        }
        if !(q.y > screenH || hit) {
          kept := kept + [q];
        }
        i := i + 1;
      }
      assert ps[..|ps|] == ps;
      EnemyBarrageCostsAtMostOneLife(ps, target, lives0, hitDur0, state0, laserEn, screenH);
    }

    /** The invulnerability countdown and the blink toggle advance by one frame. */
    method TickInvulnerability()
      modifies this`hitDur, this`hitToggle
      ensures hitDur == Countdown(old(hitDur)) && hitToggle == Blink(old(hitDur), old(hitToggle))
    {
      if hitDur != 0 {
        if hitDur % BlinkPeriod == 0 {
          hitToggle := !hitToggle;
        }
        hitDur := hitDur - 1;
      }
    }

    /** The enemy pool's frame: each enemy of `pool0` descends, fires when
        its firing test holds, and is respawned once it is below the screen.
        Its shots are pushed onto the enemy laser pool `lasers0`, after the
        lasers already there. */
    method AdvanceEnemies(pool0: seq<Vec2>, lasers0: seq<Vec2>, screenW: real, screenH: real,
                          rand: nat -> real, k0: nat)
      returns (pool: seq<Vec2>, lasers: seq<Vec2>, k: nat)
      ensures var m := EnemyMarch(pool0, enemyTex, screenW, screenH, rand, k0);
              pool == m.enemies && lasers == lasers0 + m.shots && k == m.k
    {
      pool, lasers, k := pool0, lasers0, k0;
      ghost var m := March([], [], k0);
      var j := 0;
      while j < |pool|
        invariant |pool| == |pool0| && 0 <= j <= |pool|
        invariant m == EnemyMarch(pool0[..j], enemyTex, screenW, screenH, rand, k0)
        invariant forall i :: j <= i < |pool| ==> pool[i] == pool0[i]
        invariant forall i :: 0 <= i < j ==> pool[i] == m.enemies[i]
        invariant lasers == lasers0 + m.shots && k == m.k
      {
        assert pool0[..j + 1][..j] == pool0[..j];
        m := MarchOne(m, pool[j], enemyTex, screenW, screenH, rand);
        var d := Descend(pool[j], screenW, screenH, rand, k);
        if d.fired {
          lasers := lasers + [Gun(Vec2(pool[j].x, pool[j].y + EnemySpeed), enemyTex)];
        }
        pool := pool[j := d.pos];
        k := d.k;
        j := j + 1;
      }
      assert pool0[..|pool0|] == pool0;
    }

    /** The lasers' part of an active frame: the player lasers advance
        against the enemy pool, then the enemy lasers advance against the
        ship's rectangle `target`. The draw stream position after the
        player lasers' respawns is returned. */
    method Exchange(target: Rect, screenW: real, screenH: real, rand: nat -> real) returns (k: nat)
      requires Valid() && state == Active
      modifies this`playerProj, this`enemies, this`score, this`enemyProj, this`hitDur, this`state,
               player`livesLeft
      ensures Valid() && state != Paused && score >= old(score)
      ensures state == Inactive ==> old(player.livesLeft) == 0
      ensures var v := PlayerVolley(old(playerProj), old(enemies), old(score), laser, enemyTex, screenW, rand, 0);
              var b := EnemyBarrage(old(enemyProj), target, old(player.livesLeft), old(hitDur), Active, laserEn, screenH);
              playerProj == v.kept && enemies == v.enemies && score == v.score && k == v.k &&
              enemyProj == b.kept && player.livesLeft == b.lives && hitDur == b.hitDur && state == b.state
    {
      var kept, pool, points;
      kept, pool, points, k := AdvancePlayerLasers(playerProj, enemies, score, screenW, rand, 0);
      var fallen, lives, dur, st := AdvanceEnemyLasers(enemyProj, target, player.livesLeft, hitDur, state, screenH);
      playerProj, enemies, score, enemyProj, hitDur, state := kept, pool, points, fallen, dur, st;
      player.livesLeft := lives;
    }

    /** The enemies' part of an active frame: the invulnerability countdown
        ticks, then the enemy pool descends and its shots join the enemy
        laser pool. */
    method EnemyTurn(screenW: real, screenH: real, rand: nat -> real, k0: nat)
      requires Valid()
      modifies this`hitDur, this`hitToggle, this`enemies, this`enemyProj
      ensures Valid()
      ensures hitDur == Countdown(old(hitDur)) && hitToggle == Blink(old(hitDur), old(hitToggle))
      ensures var m := EnemyMarch(old(enemies), enemyTex, screenW, screenH, rand, k0);
              enemies == m.enemies && enemyProj == old(enemyProj) + m.shots
    {
      TickInvulnerability();
      var pool, lasers, _ := AdvanceEnemies(enemies, enemyProj, screenW, screenH, rand, k0);
      enemies, enemyProj := pool, lasers;
    }

    /** The rest of an active frame once the ship has moved and fired: the
        player lasers, the enemy lasers, the invulnerability countdown and
        the enemies advance in that order, each as its frame rule says. */
    method Simulate(target: Rect, screenW: real, screenH: real, rand: nat -> real)
      requires Valid() && state == Active
      modifies this`playerProj, this`enemies, this`score, this`enemyProj, this`hitDur, this`hitToggle,
               this`state, player`livesLeft
      ensures Valid() && state != Paused && score >= old(score)
      ensures state == Inactive ==> old(player.livesLeft) == 0
      ensures var v := PlayerVolley(old(playerProj), old(enemies), old(score), laser, enemyTex, screenW, rand, 0);
              var b := EnemyBarrage(old(enemyProj), target, old(player.livesLeft), old(hitDur), Active, laserEn, screenH);
              var m := EnemyMarch(v.enemies, enemyTex, screenW, screenH, rand, v.k);
              playerProj == v.kept && score == v.score &&
              player.livesLeft == b.lives && state == b.state &&
              hitDur == Countdown(b.hitDur) && hitToggle == Blink(b.hitDur, old(hitToggle)) &&
              enemyProj == b.kept + m.shots && enemies == m.enemies
    {
      var k := Exchange(target, screenW, screenH, rand);
      EnemyTurn(screenW, screenH, rand, k);
    }

    /** The ship's part of an active frame: it moves with the held keys and
        fires when Space is pressed and it is not invulnerable. */
    method Maneuver(input: Input, screenW: real, screenH: real)
      requires Valid()
      modifies player`x, player`y, this`playerProj
      ensures Valid()
      ensures player.x == Steer(old(player.x), PlayerSpeed * Axis(input.keys.right, input.keys.left), player.Width(), screenW)
      ensures player.y == Steer(old(player.y), PlayerSpeed * Axis(input.keys.down, input.keys.up), player.Height(), screenH)
      ensures playerProj == old(playerProj) + (if input.fire && hitDur == 0 then [Muzzle(player)] else [])
    {
      player.Update(PlayerSpeed, input.keys, screenW, screenH);
      Fire(input.fire);
    }

    /** A frame of the running game. The ship moves and may fire; Escape then
        pauses the game and ends the frame with nothing else changed;
        otherwise the rest of the frame is simulated. */
    method ActiveFrame(input: Input, screenW: real, screenH: real, rand: nat -> real)
      requires Valid() && state == Active
      modifies this, player
      ensures Valid() && highestScore == old(highestScore)
      ensures player.x == Steer(old(player.x), PlayerSpeed * Axis(input.keys.right, input.keys.left), player.Width(), screenW)
      ensures player.y == Steer(old(player.y), PlayerSpeed * Axis(input.keys.down, input.keys.up), player.Height(), screenH)
      ensures input.escape ==>
                state == Paused &&
                playerProj == old(playerProj) + (if input.fire && old(hitDur) == 0 then [Muzzle(player)] else []) &&
                enemyProj == old(enemyProj) && enemies == old(enemies) && score == old(score) &&
                hitDur == old(hitDur) && hitToggle == old(hitToggle) && player.livesLeft == old(player.livesLeft)
      ensures !input.escape ==>
                var fired := old(playerProj) + (if input.fire && old(hitDur) == 0 then [Muzzle(player)] else []);
                var v := PlayerVolley(fired, old(enemies), old(score), laser, enemyTex, screenW, rand, 0);
                var b := EnemyBarrage(old(enemyProj), player.DestRect(), old(player.livesLeft), old(hitDur), Active, laserEn, screenH);
                var m := EnemyMarch(v.enemies, enemyTex, screenW, screenH, rand, v.k);
                playerProj == v.kept && score == v.score &&
                player.livesLeft == b.lives && state == b.state &&
                hitDur == Countdown(b.hitDur) && hitToggle == Blink(b.hitDur, old(hitToggle)) &&
                enemyProj == b.kept + m.shots && enemies == m.enemies
      ensures state == Inactive ==> !input.escape && old(player.livesLeft) == 0
      ensures score >= old(score) && (input.escape ==> score == old(score))
    {
      Maneuver(input, screenW, screenH);
      if input.escape {
        state := Paused;
      } else {
        Simulate(player.DestRect(), screenW, screenH, rand);
      }
    }

    /** A frame of the pause menu: Resume returns to the game, otherwise Exit
        ends the loop; nothing else changes. */
    method PausedFrame(input: Input) returns (quit: bool)
      requires state == Paused
      modifies this`state
      ensures state == (if input.resume then Active else Paused) && quit == (!input.resume && input.exit)
    {
      quit := false;
      if input.resume {
        state := Active;
      } else if input.exit {
        quit := true;
      }
    }

    /** A frame of the game-over screen: the highest score is ratcheted up to
        the score; Play starts a new game (score 0, three lives, the ship back
        at (200, 200), empty laser pools, a reset enemy pool), otherwise Exit
        ends the loop. The countdown and the blink toggle are left as they are. */
    method GameOverFrame(input: Input, screenW: real, rand: nat -> real) returns (quit: bool)
      requires Valid() && state == Inactive && UnitDraws(rand)
      modifies this`highestScore, this`score, this`playerProj, this`enemyProj, this`enemies, this`state,
               player`livesLeft, player`x, player`y
      ensures Valid()
      ensures highestScore == Ratchet(old(highestScore), old(score)) && quit == (!input.play && input.exit)
      ensures input.play ==>
                state == Active && score == 0 && player.livesLeft == StartLives &&
                player.x == StartX && player.y == StartY &&
                playerProj == [] && enemyProj == [] && Staggered(enemies, screenW)
      ensures !input.play ==>
                state == Inactive && score == old(score) &&
                playerProj == old(playerProj) && enemyProj == old(enemyProj) && enemies == old(enemies) &&
                player.x == old(player.x) && player.y == old(player.y) && player.livesLeft == old(player.livesLeft)
    {
      quit := false;
      highestScore := Ratchet(highestScore, score);
      if input.play {
        score := 0;
        player.livesLeft := StartLives;
        player.x := StartX;
        player.y := StartY;
        playerProj := [];
        enemyProj := [];
        var pool, _ := ResetEnemies(screenW, rand, 0);
        enemies := pool;
        state := Active;
      } else if input.exit {
        quit := true;
      }
    }

    /** One iteration of the frame loop, which runs the frame of the current
        state; `quit` is set when Exit ends the loop. */
    method Step(input: Input, screenW: real, screenH: real, rand: nat -> real) returns (quit: bool)
      requires Valid() && UnitDraws(rand)
      modifies this, player
      ensures Valid()
      // the active game
      ensures old(state) == Active ==>
                !quit && highestScore == old(highestScore) &&
                player.x == Steer(old(player.x), PlayerSpeed * Axis(input.keys.right, input.keys.left), player.Width(), screenW) &&
                player.y == Steer(old(player.y), PlayerSpeed * Axis(input.keys.down, input.keys.up), player.Height(), screenH)
      ensures old(state) == Active && input.escape ==>
                state == Paused &&
                playerProj == old(playerProj) + (if input.fire && old(hitDur) == 0 then [Muzzle(player)] else []) &&
                enemyProj == old(enemyProj) && enemies == old(enemies) && score == old(score) &&
                hitDur == old(hitDur) && hitToggle == old(hitToggle) && player.livesLeft == old(player.livesLeft)
      ensures old(state) == Active && !input.escape ==>
                var fired := old(playerProj) + (if input.fire && old(hitDur) == 0 then [Muzzle(player)] else []);
                var v := PlayerVolley(fired, old(enemies), old(score), laser, enemyTex, screenW, rand, 0);
                var b := EnemyBarrage(old(enemyProj), player.DestRect(), old(player.livesLeft), old(hitDur), Active, laserEn, screenH);
                var m := EnemyMarch(v.enemies, enemyTex, screenW, screenH, rand, v.k);
                playerProj == v.kept && score == v.score &&
                player.livesLeft == b.lives && state == b.state &&
                hitDur == Countdown(b.hitDur) && hitToggle == Blink(b.hitDur, old(hitToggle)) &&
                enemyProj == b.kept + m.shots && enemies == m.enemies
      // the pause menu
      ensures old(state) == Paused ==>
                state == (if input.resume then Active else Paused) && quit == (!input.resume && input.exit) &&
                playerProj == old(playerProj) && enemyProj == old(enemyProj) && enemies == old(enemies) &&
                score == old(score) && highestScore == old(highestScore) &&
                hitDur == old(hitDur) && hitToggle == old(hitToggle) &&
                player.x == old(player.x) && player.y == old(player.y) && player.livesLeft == old(player.livesLeft)
      // the game-over screen
      ensures old(state) == Inactive ==>
                highestScore == Ratchet(old(highestScore), old(score)) && quit == (!input.play && input.exit) &&
                hitDur == old(hitDur) && hitToggle == old(hitToggle)
      ensures old(state) == Inactive && input.play ==>
                state == Active && score == 0 && player.livesLeft == StartLives &&
                player.x == StartX && player.y == StartY &&
                playerProj == [] && enemyProj == [] && Staggered(enemies, screenW)
      ensures old(state) == Inactive && !input.play ==>
                state == Inactive && score == old(score) &&
                playerProj == old(playerProj) && enemyProj == old(enemyProj) && enemies == old(enemies) &&
                player.x == old(player.x) && player.y == old(player.y) && player.livesLeft == old(player.livesLeft)
      // how the game ends and how the score moves
      ensures state == Inactive ==>
                (old(state) == Inactive && !input.play) ||
                (old(state) == Active && !input.escape && old(player.livesLeft) == 0)
      ensures score != old(score) ==>
                (old(state) == Active && !input.escape && score > old(score)) ||
                (old(state) == Inactive && input.play && score == 0)
    {
      if state == Active {
        ActiveFrame(input, screenW, screenH, rand);
        quit := false;
      } else if state == Paused {
        quit := PausedFrame(input);
      } else {
        quit := GameOverFrame(input, screenW, rand);
      }
    }
  }
}
