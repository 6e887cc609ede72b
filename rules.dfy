/** The per-frame rules of the active game, stated as functions over the
    pools of positions: how player lasers climb and strike enemies, how enemy
    lasers fall and strike the player, and how enemies descend, fire and
    respawn. Each rule is written the way the frame loop applies it, one
    element after the other in pool order, so that the loops of the game can
    be proved against it prefix by prefix.

    Random draws come from a stream `rand` of unit draws consumed in order
    from the cursor `k`; every `gen_range(lo, hi)` of the game takes the next
    draw `u` and yields `GenRange(lo, hi, u)`. */
module Rules {
  import opened Geometry

  const LaserScale: real := 0.6
  const EnemyScale: real := 0.5
  /** Distance a player laser climbs per frame. */
  const PlayerLaserSpeed: real := 9.0
  /** Distance an enemy laser falls per frame. */
  const EnemyLaserSpeed: real := 5.0
  /** Distance an enemy descends per frame. */
  const EnemySpeed: real := 1.0
  /** Frames of invulnerability after the player is hit. */
  const HitDuration: int := 160

  /** Active is the running game, Paused the pause menu, Inactive the game-over screen. */
  datatype GameState = Active | Inactive | Paused

  /** Every position moved vertically by `dy`, in the same order. */
  function Moved(ps: seq<Vec2>, dy: real): (r: seq<Vec2>)
    ensures |r| == |ps|
    ensures forall i :: 0 <= i < |ps| ==> r[i] == Vec2(ps[i].x, ps[i].y + dy)
  {
    seq(|ps|, i requires 0 <= i < |ps| => Vec2(ps[i].x, ps[i].y + dy))
  }

  function Sum(xs: seq<nat>): nat
  {
    if xs == [] then 0 else Sum(xs[..|xs| - 1]) + xs[|xs| - 1]
  }

  // ---------------------------------------------------------------------
  // Enemy respawn

  /** An enemy moved back up for another pass: a new x drawn in
      `[50, screenW - 50]` and its y lowered by an amount drawn in
      `[800, 1000]`, which need not take it above the top of the screen. */
  function Respawn(e: Vec2, screenW: real, u: real, v: real): (r: Vec2)
    ensures 0.0 <= u <= 1.0 && screenW >= 100.0 ==> 50.0 <= r.x <= screenW - 50.0
    ensures 0.0 <= v <= 1.0 ==> e.y - 1000.0 <= r.y <= e.y - 800.0
  {
    Vec2(GenRange(50.0, screenW - 50.0, u), e.y - GenRange(800.0, 1000.0, v))
  }

  /** A respawn can land on screen: in a 700 by 900 window, an enemy that
      left the bottom at height 901 comes back at height 101 when the lift
      draw is 0. */
  lemma RespawnCanStayOnScreen()
    ensures var r := Respawn(Vec2(100.0, 901.0), 700.0, 0.5, 0.0);
            0.0 < r.y <= 900.0 && 50.0 <= r.x <= 650.0
  {
  }

  /** `after` is `before` respawned once. */
  ghost predicate Respawned(before: Vec2, after: Vec2, screenW: real)
  {
    (screenW >= 100.0 ==> 50.0 <= after.x <= screenW - 50.0) &&
    before.y - 1000.0 <= after.y <= before.y - 800.0
  }

  /** `after` is `before` respawned one or more times. */
  ghost predicate PushedBack(before: Vec2, after: Vec2, screenW: real)
  {
    (screenW >= 100.0 ==> 50.0 <= after.x <= screenW - 50.0) &&
    after.y <= before.y - 800.0
  }

  // ---------------------------------------------------------------------
  // Player lasers against the enemy pool

  /** The enemy at `e` and the player laser at `q` overlap. */
  predicate Struck(q: Vec2, e: Vec2, laser: Texture, enemy: Texture)
  {
    Overlaps(DestRec(e, enemy, EnemyScale), DestRec(q, laser, LaserScale))
  }

  /** How many enemies of the pool the laser at `q` overlaps. */
  function CountStruck(q: Vec2, es: seq<Vec2>, laser: Texture, enemy: Texture): nat
  {
    if es == [] then 0
    else CountStruck(q, es[..|es| - 1], laser, enemy) + (if Struck(q, es[|es| - 1], laser, enemy) then 1 else 0)
  }

  /** The enemy pool after one laser has been tested against every enemy, and
      the number of enemies it struck. */
  datatype Strike = Strike(enemies: seq<Vec2>, hits: nat, k: nat)

  /** The laser at `q` against one more enemy `e` of the pool: if they
      overlap, the enemy is respawned with the next two draws and the hit
      counts; otherwise the enemy stays as it was. */
  function StrikeOne(s: Strike, e: Vec2, q: Vec2, laser: Texture, enemy: Texture,
                     screenW: real, rand: nat -> real): Strike
  {
    if Struck(q, e, laser, enemy) then
      Strike(s.enemies + [Respawn(e, screenW, rand(s.k), rand(s.k + 1))], s.hits + 1, s.k + 2)
    else
      Strike(s.enemies + [e], s.hits, s.k)
  }

  /** One laser at `q` against the whole pool, without stopping at the first
      hit: every enemy in turn takes its StrikeOne step. */
  function StrikeAll(q: Vec2, es: seq<Vec2>, laser: Texture, enemy: Texture,
                     screenW: real, rand: nat -> real, k0: nat): (r: Strike)
    ensures |r.enemies| == |es|
  {
    if es == [] then Strike([], 0, k0)
    else StrikeOne(StrikeAll(q, es[..|es| - 1], laser, enemy, screenW, rand, k0), es[|es| - 1], q, laser, enemy, screenW, rand)
  }

  /** The hits one laser scores against the pool are exactly the enemies it
      overlaps, and each uses two draws. */
  lemma {:induction false} StrikeAllCounts(q: Vec2, es: seq<Vec2>, laser: Texture, enemy: Texture,
                                           screenW: real, rand: nat -> real, k0: nat)
    ensures var r := StrikeAll(q, es, laser, enemy, screenW, rand, k0);
            r.hits == CountStruck(q, es, laser, enemy) && r.k == k0 + 2 * r.hits
  {
    if es != [] {
      StrikeAllCounts(q, es[..|es| - 1], laser, enemy, screenW, rand, k0);
    }
  }

  /** A laser that scores nothing leaves the pool as it was. */
  lemma {:induction false} StrikeAllQuiet(q: Vec2, es: seq<Vec2>, laser: Texture, enemy: Texture,
                                          screenW: real, rand: nat -> real, k0: nat)
    ensures var r := StrikeAll(q, es, laser, enemy, screenW, rand, k0);
            r.hits == 0 ==> r.enemies == es
  {
    if es != [] {
      StrikeAllQuiet(q, es[..|es| - 1], laser, enemy, screenW, rand, k0);
    }
  }

  /** What one laser does to the pool: every enemy it does not overlap stays
      as it was, and every enemy it overlaps is respawned. */
  lemma {:induction false} StrikeAllSpec(q: Vec2, es: seq<Vec2>, laser: Texture, enemy: Texture,
                                         screenW: real, rand: nat -> real, k0: nat)
    ensures var r := StrikeAll(q, es, laser, enemy, screenW, rand, k0);
            forall i :: 0 <= i < |es| ==>
              if Struck(q, es[i], laser, enemy) then UnitDraws(rand) ==> Respawned(es[i], r.enemies[i], screenW)
              else r.enemies[i] == es[i]
  {
    if es != [] {
      StrikeAllSpec(q, es[..|es| - 1], laser, enemy, screenW, rand, k0);
    }
  }

  /** The lasers kept by the pool filter: those still reaching the screen
      (`y + laserH >= 0`) that struck no enemy, in their original order. */
  function Survivors(qs: seq<Vec2>, hits: seq<nat>, laserH: real): seq<Vec2>
    requires |hits| == |qs|
  {
    if qs == [] then []
    else
      var n := |qs| - 1;
      Survivors(qs[..n], hits[..n], laserH) + (if !(qs[n].y + laserH < 0.0 || hits[n] > 0) then [qs[n]] else [])
  }

  /** The player lasers after a frame: the survivors, the hits each laser
      scored, the enemy pool and the score. */
  datatype Volley = Volley(kept: seq<Vec2>, hits: seq<nat>, enemies: seq<Vec2>, score: int, k: nat)

  /** One player laser's frame, after the lasers before it: it climbs by 9
      and is tested against the enemy pool as those lasers left it; it is
      kept if it is still on screen and struck nothing. */
  function Climb(v: Volley, p: Vec2, laser: Texture, enemy: Texture, screenW: real, rand: nat -> real): (r: Volley)
  {
    var q := Vec2(p.x, p.y - PlayerLaserSpeed);
    var s := StrikeAll(q, v.enemies, laser, enemy, screenW, rand, v.k);
    var kept := if !(q.y + laser.height * LaserScale < 0.0 || s.hits > 0) then v.kept + [q] else v.kept;
    Volley(kept, v.hits + [s.hits], s.enemies, v.score + s.hits, s.k)
  }

  /** Every player laser of the pool, in order, takes its Climb step. */
  function PlayerVolley(ps: seq<Vec2>, es: seq<Vec2>, score0: int, laser: Texture, enemy: Texture,
                        screenW: real, rand: nat -> real, k0: nat): (r: Volley)
    ensures |r.hits| == |ps| && |r.enemies| == |es|
  {
    if ps == [] then Volley([], [], es, score0, k0)
    else
      var n := |ps| - 1;
      Climb(PlayerVolley(ps[..n], es, score0, laser, enemy, screenW, rand, k0), ps[n], laser, enemy, screenW, rand)
  }

  /** The player laser pool's frame as a whole: the score rises by exactly
      one per (laser, enemy) overlap, each hit uses two draws, only struck
      enemies move (each moved back up from its old place), and the kept
      lasers are exactly those that climbed 9, stay on screen and struck
      nothing, in their original order. */
  lemma {:induction false} PlayerVolleySpec(ps: seq<Vec2>, es: seq<Vec2>, score0: int, laser: Texture, enemy: Texture,
                                            screenW: real, rand: nat -> real, k0: nat)
    ensures var r := PlayerVolley(ps, es, score0, laser, enemy, screenW, rand, k0);
            r.kept == Survivors(Moved(ps, -PlayerLaserSpeed), r.hits, laser.height * LaserScale) &&
            r.score == score0 + Sum(r.hits) && r.k == k0 + 2 * Sum(r.hits) &&
            (Sum(r.hits) == 0 ==> r.enemies == es) &&
            (UnitDraws(rand) ==>
               forall i :: 0 <= i < |es| ==> r.enemies[i] == es[i] || PushedBack(es[i], r.enemies[i], screenW))
  {
    if ps != [] {
      var n := |ps| - 1;
      PlayerVolleySpec(ps[..n], es, score0, laser, enemy, screenW, rand, k0);
      var v := PlayerVolley(ps[..n], es, score0, laser, enemy, screenW, rand, k0);
      var q := Vec2(ps[n].x, ps[n].y - PlayerLaserSpeed);
      StrikeAllSpec(q, v.enemies, laser, enemy, screenW, rand, v.k);
      StrikeAllQuiet(q, v.enemies, laser, enemy, screenW, rand, v.k);
      StrikeAllCounts(q, v.enemies, laser, enemy, screenW, rand, v.k);
      var s := StrikeAll(q, v.enemies, laser, enemy, screenW, rand, v.k);
      VolleyStep(ps, v, q, s.hits, laser);
      PushedBackStep(es, v.enemies, s.enemies, screenW, UnitDraws(rand));
    }
  }

  /** The hit count PlayerVolley records for each laser is the number of
      enemies that laser overlaps once it has climbed 9, in the pool as the
      lasers before it left it; with PlayerVolleySpec, the score rises by
      exactly the number of (laser, enemy) overlaps and a kept laser
      overlapped no enemy. */
  lemma {:induction false} PlayerVolleyHits(ps: seq<Vec2>, es: seq<Vec2>, score0: int, laser: Texture, enemy: Texture,
                                            screenW: real, rand: nat -> real, k0: nat)
    ensures var r := PlayerVolley(ps, es, score0, laser, enemy, screenW, rand, k0);
            forall i :: 0 <= i < |ps| ==>
              r.hits[i] == CountStruck(Vec2(ps[i].x, ps[i].y - PlayerLaserSpeed),
                                       PlayerVolley(ps[..i], es, score0, laser, enemy, screenW, rand, k0).enemies,
                                       laser, enemy)
  {
    forall i | 0 <= i < |ps|
      ensures PlayerVolley(ps, es, score0, laser, enemy, screenW, rand, k0).hits[i] ==
              CountStruck(Vec2(ps[i].x, ps[i].y - PlayerLaserSpeed),
                          PlayerVolley(ps[..i], es, score0, laser, enemy, screenW, rand, k0).enemies, laser, enemy)
    {
      PlayerVolleyHitAt(ps, es, score0, laser, enemy, screenW, rand, k0, i);
    }
  }

  /** PlayerVolleyHits for the laser at index `i`. */
  lemma {:induction false} PlayerVolleyHitAt(ps: seq<Vec2>, es: seq<Vec2>, score0: int, laser: Texture, enemy: Texture,
                                             screenW: real, rand: nat -> real, k0: nat, i: nat)
    requires i < |ps|
    ensures PlayerVolley(ps, es, score0, laser, enemy, screenW, rand, k0).hits[i] ==
            CountStruck(Vec2(ps[i].x, ps[i].y - PlayerLaserSpeed),
                        PlayerVolley(ps[..i], es, score0, laser, enemy, screenW, rand, k0).enemies, laser, enemy)
    decreases |ps|
  {
    var n := |ps| - 1;
    var pre := ps[..n];
    PlayerVolleyLast(ps, es, score0, laser, enemy, screenW, rand, k0);
    if i < n {
      PlayerVolleyHitAt(pre, es, score0, laser, enemy, screenW, rand, k0, i);
      assert pre[..i] == ps[..i] && pre[i] == ps[i];
    } else {
      var v := PlayerVolley(pre, es, score0, laser, enemy, screenW, rand, k0);
      StrikeAllCounts(Vec2(ps[n].x, ps[n].y - PlayerLaserSpeed), v.enemies, laser, enemy, screenW, rand, v.k);
      assert ps[..i] == pre;
    }
  }

  /** The hit counts of a non-empty player laser pool are those of all but
      its last laser, followed by the last laser's hits. */
  lemma PlayerVolleyLast(ps: seq<Vec2>, es: seq<Vec2>, score0: int, laser: Texture, enemy: Texture,
                         screenW: real, rand: nat -> real, k0: nat)
    requires ps != []
    ensures var n := |ps| - 1;
            var v := PlayerVolley(ps[..n], es, score0, laser, enemy, screenW, rand, k0);
            PlayerVolley(ps, es, score0, laser, enemy, screenW, rand, k0).hits ==
              v.hits + [StrikeAll(Vec2(ps[n].x, ps[n].y - PlayerLaserSpeed), v.enemies, laser, enemy, screenW, rand, v.k).hits]
  {
    var n := |ps| - 1;
    var v := PlayerVolley(ps[..n], es, score0, laser, enemy, screenW, rand, k0);
    assert PlayerVolley(ps, es, score0, laser, enemy, screenW, rand, k0) == Climb(v, ps[n], laser, enemy, screenW, rand);
  }

  /** The score never falls during the player laser pool's frame. */
  lemma PlayerVolleyScores(ps: seq<Vec2>, es: seq<Vec2>, score0: int, laser: Texture, enemy: Texture,
                           screenW: real, rand: nat -> real, k0: nat)
    ensures PlayerVolley(ps, es, score0, laser, enemy, screenW, rand, k0).score >= score0
  {
    PlayerVolleySpec(ps, es, score0, laser, enemy, screenW, rand, k0);
  }

  /** The inductive step of PlayerVolley's contract. */
  lemma VolleyStep(ps: seq<Vec2>, v: Volley, q: Vec2, hits: nat, laser: Texture)
    requires |ps| > 0 && |v.hits| == |ps| - 1
    requires v.kept == Survivors(Moved(ps[..|ps| - 1], -PlayerLaserSpeed), v.hits, laser.height * LaserScale)
    requires q == Vec2(ps[|ps| - 1].x, ps[|ps| - 1].y - PlayerLaserSpeed)
    ensures var kept := if !(q.y + laser.height * LaserScale < 0.0 || hits > 0) then v.kept + [q] else v.kept;
            kept == Survivors(Moved(ps, -PlayerLaserSpeed), v.hits + [hits], laser.height * LaserScale)
    ensures Sum(v.hits + [hits]) == Sum(v.hits) + hits
  {
    var n := |ps| - 1;
    var hs := v.hits + [hits];
    assert Moved(ps, -PlayerLaserSpeed)[..n] == Moved(ps[..n], -PlayerLaserSpeed);
    assert hs[..n] == v.hits;
  }

  /** An enemy pushed back by the earlier lasers and then respawned or left
      alone by the next one is still pushed back or untouched. */
  lemma PushedBackStep(es: seq<Vec2>, mid: seq<Vec2>, after: seq<Vec2>, screenW: real, drawn: bool)
    requires |mid| == |es| && |after| == |es|
    requires drawn ==> forall i :: 0 <= i < |es| ==> mid[i] == es[i] || PushedBack(es[i], mid[i], screenW)
    requires drawn ==> forall i :: 0 <= i < |es| ==> after[i] == mid[i] || Respawned(mid[i], after[i], screenW)
    ensures drawn ==> forall i :: 0 <= i < |es| ==> after[i] == es[i] || PushedBack(es[i], after[i], screenW)
  {
  }

  // ---------------------------------------------------------------------
  // Enemy lasers against the player

  /** The enemy laser at `q` overlaps the player's rectangle. */
  predicate Scorches(q: Vec2, target: Rect, laserEn: Texture)
  {
    Overlaps(Rect(q.x, q.y, ScaleWidth(laserEn, LaserScale), ScaleHeight(laserEn, LaserScale)), target)
  }

  /** The lasers kept by the pool filter: those not below the screen, except
      the one at index `hitIndex` that struck the player. */
  function Remaining(qs: seq<Vec2>, hitIndex: int, screenH: real): seq<Vec2>
  {
    if qs == [] then []
    else
      var n := |qs| - 1;
      Remaining(qs[..n], hitIndex, screenH) + (if !(qs[n].y > screenH || n == hitIndex) then [qs[n]] else [])
  }

  /** The enemy lasers after a frame: the survivors, which laser struck the
      player (-1 if none), and the player's lives, the invulnerability
      countdown and the game state as the hits left them. */
  datatype Barrage = Barrage(kept: seq<Vec2>, hitIndex: int, lives: int, hitDur: int, state: GameState)

  /** The enemy laser at `p`, at index `n` of the pool, after the lasers
      before it: it falls by 5 and, while the countdown is zero, is tested
      against the ship. A hit costs one life, ends the game if no life was
      left and restarts the countdown. The laser is kept unless it is below
      the screen or it hit. */
  function Fall(b: Barrage, p: Vec2, n: int, target: Rect, laserEn: Texture, screenH: real): Barrage
  {
    var q := Vec2(p.x, p.y + EnemyLaserSpeed);
    var hit := b.hitDur == 0 && Scorches(q, target, laserEn);
    var kept := if !(q.y > screenH || hit) then b.kept + [q] else b.kept;
    if hit then
      Barrage(kept, n, b.lives - 1, HitDuration, if b.lives == 0 then Inactive else b.state)
    else
      Barrage(kept, b.hitIndex, b.lives, b.hitDur, b.state)
  }

  /** Every enemy laser of the pool, in order, takes its Fall step. Since a
      hit restarts the countdown, at most one laser scores per frame: the
      first overlapping one. */
  function EnemyBarrage(ps: seq<Vec2>, target: Rect, lives0: int, hitDur0: int, state0: GameState,
                        laserEn: Texture, screenH: real): (r: Barrage)
    ensures -1 <= r.hitIndex < |ps| && |r.kept| <= |ps|
  {
    if ps == [] then Barrage([], -1, lives0, hitDur0, state0)
    else
      var n := |ps| - 1;
      Fall(EnemyBarrage(ps[..n], target, lives0, hitDur0, state0, laserEn, screenH), ps[n], n, target, laserEn, screenH)
  }

  /** The enemy laser pool's frame as a whole: at most one laser scores, the
      first one to overlap the ship while the countdown is zero; it costs one
      life, ends the game if no life was left and restarts the countdown. */
  lemma {:induction false} EnemyBarrageSpec(ps: seq<Vec2>, target: Rect, lives0: int, hitDur0: int, state0: GameState,
                                            laserEn: Texture, screenH: real)
    ensures var r := EnemyBarrage(ps, target, lives0, hitDur0, state0, laserEn, screenH);
            -1 <= r.hitIndex < |ps| &&
            (r.hitIndex == -1 ==> r.lives == lives0 && r.hitDur == hitDur0 && r.state == state0) &&
            (r.hitIndex >= 0 ==>
               hitDur0 == 0 && r.lives == lives0 - 1 && r.hitDur == HitDuration &&
               r.state == (if lives0 == 0 then Inactive else state0) &&
               Scorches(Moved(ps, EnemyLaserSpeed)[r.hitIndex], target, laserEn)) &&
            (hitDur0 == 0 ==>
               forall i :: 0 <= i < |ps| && (r.hitIndex == -1 || i < r.hitIndex) ==>
                 !Scorches(Moved(ps, EnemyLaserSpeed)[i], target, laserEn))
  {
    if ps != [] {
      var n := |ps| - 1;
      EnemyBarrageSpec(ps[..n], target, lives0, hitDur0, state0, laserEn, screenH);
      assert Moved(ps, EnemyLaserSpeed)[..n] == Moved(ps[..n], EnemyLaserSpeed);
    }
  }

  /** The enemy lasers kept after the frame: exactly those that fell 5 and
      are not below the screen, except the one that struck the ship. */
  lemma {:induction false} EnemyBarrageKept(ps: seq<Vec2>, target: Rect, lives0: int, hitDur0: int, state0: GameState,
                                            laserEn: Texture, screenH: real)
    ensures var r := EnemyBarrage(ps, target, lives0, hitDur0, state0, laserEn, screenH);
            r.kept == Remaining(Moved(ps, EnemyLaserSpeed), r.hitIndex, screenH)
  {
    if ps != [] {
      var n := |ps| - 1;
      EnemyBarrageKept(ps[..n], target, lives0, hitDur0, state0, laserEn, screenH);
      EnemyBarrageSpec(ps[..n], target, lives0, hitDur0, state0, laserEn, screenH);
      var b := EnemyBarrage(ps[..n], target, lives0, hitDur0, state0, laserEn, screenH);
      var q := Vec2(ps[n].x, ps[n].y + EnemyLaserSpeed);
      var hit := b.hitDur == 0 && Scorches(q, target, laserEn);
      BarrageStep(ps, b, hit, screenH);
    }
  }

  /** The enemy laser pool's frame costs at most one life: either nothing
      changes or exactly one hit happens while the countdown was zero. */
  lemma EnemyBarrageCostsAtMostOneLife(ps: seq<Vec2>, target: Rect, lives0: int, hitDur0: int, state0: GameState,
                                       laserEn: Texture, screenH: real)
    ensures var r := EnemyBarrage(ps, target, lives0, hitDur0, state0, laserEn, screenH);
            (r.lives == lives0 && r.hitDur == hitDur0 && r.state == state0) ||
            (hitDur0 == 0 && r.lives == lives0 - 1 && r.hitDur == HitDuration &&
             r.state == (if lives0 == 0 then Inactive else state0))
  {
    EnemyBarrageSpec(ps, target, lives0, hitDur0, state0, laserEn, screenH);
  }

  /** The inductive step of EnemyBarrage's contract for the kept lasers. */
  lemma BarrageStep(ps: seq<Vec2>, b: Barrage, hit: bool, screenH: real)
    requires |ps| > 0 && -1 <= b.hitIndex < |ps| - 1
    requires hit ==> b.hitIndex == -1
    requires b.kept == Remaining(Moved(ps[..|ps| - 1], EnemyLaserSpeed), b.hitIndex, screenH)
    ensures var n := |ps| - 1;
            var q := Vec2(ps[n].x, ps[n].y + EnemyLaserSpeed);
            var kept := if !(q.y > screenH || hit) then b.kept + [q] else b.kept;
            kept == Remaining(Moved(ps, EnemyLaserSpeed), if hit then n else b.hitIndex, screenH)
  {
    var n := |ps| - 1;
    var ms := Moved(ps, EnemyLaserSpeed);
    assert ms[..n] == Moved(ps[..n], EnemyLaserSpeed);
    if hit {
      RemainingIgnoresOutsideIndex(ms[..n], b.hitIndex, n, screenH);
    }
  }

  /** Naming no index of the pool as the hit one, whether below or past its
      range, removes the same lasers. */
  lemma {:induction false} RemainingIgnoresOutsideIndex(qs: seq<Vec2>, j: int, m: int, screenH: real)
    requires j < 0 || j >= |qs|
    requires m < 0 || m >= |qs|
    ensures Remaining(qs, j, screenH) == Remaining(qs, m, screenH)
  {
    if qs != [] {
      RemainingIgnoresOutsideIndex(qs[..|qs| - 1], j, m, screenH);
    }
  }

  // ---------------------------------------------------------------------
  // The enemy pool descends and fires

  /** The game's firing test `y % 100 < 1 && y > 0`, with its truncating
      float remainder: only an enemy below the top of the screen fires, and
      one that has just come into view does. */
  function Fires(y: real): (r: bool)
    ensures r ==> y > 0.0
    ensures 0.0 < y < 1.0 ==> r
  {
    FRem(y, 100.0) < 1.0 && y > 0.0
  }

  /** Where an enemy at `e` fires from: the middle of its sprite's top edge. */
  function Gun(e: Vec2, enemy: Texture): Vec2
  {
    Vec2(e.x + ScaleWidth(enemy, EnemyScale) / 2.0, e.y)
  }

  /** The enemy lasers fired by enemies at the positions `ms`, in pool order:
      one from the gun of each enemy whose firing test holds. */
  function Shots(ms: seq<Vec2>, enemy: Texture): seq<Vec2>
  {
    if ms == [] then []
    else
      var n := |ms| - 1;
      Shots(ms[..n], enemy) + (if Fires(ms[n].y) then [Gun(ms[n], enemy)] else [])
  }

  /** One enemy's frame: where it ends up, whether it fired, and the draw
      cursor after it. */
  datatype Descent = Descent(pos: Vec2, fired: bool, k: nat)

  /** The enemy at `e0` descends by 1; it fires if the firing test holds at
      its new position, and if that position is below the screen it is
      respawned with the draws at `k` and `k + 1`. */
  function Descend(e0: Vec2, screenW: real, screenH: real, rand: nat -> real, k: nat): (r: Descent)
    ensures r.k == k || r.k == k + 2
    ensures r.fired ==> e0.y + EnemySpeed > 0.0
  {
    var e := Vec2(e0.x, e0.y + EnemySpeed);
    if e.y > screenH then Descent(Respawn(e, screenW, rand(k), rand(k + 1)), Fires(e.y), k + 2)
    else Descent(e, Fires(e.y), k)
  }

  /** The enemy pool after it moved, and the lasers it fired. */
  datatype March = March(enemies: seq<Vec2>, shots: seq<Vec2>, k: nat)

  /** One more enemy `e0` of the pool takes its Descend step with the draws
      the enemies before it left; a shot, if any, joins theirs. */
  function MarchOne(m: March, e0: Vec2, enemy: Texture, screenW: real, screenH: real, rand: nat -> real): March
  {
    var d := Descend(e0, screenW, screenH, rand, m.k);
    var shots := if d.fired then m.shots + [Gun(Vec2(e0.x, e0.y + EnemySpeed), enemy)] else m.shots;
    March(m.enemies + [d.pos], shots, d.k)
  }

  /** Every enemy of the pool, in order, takes its MarchOne step. */
  function EnemyMarch(es: seq<Vec2>, enemy: Texture, screenW: real, screenH: real,
                      rand: nat -> real, k0: nat): (r: March)
    ensures |r.enemies| == |es|
  {
    if es == [] then March([], [], k0)
    else
      var n := |es| - 1;
      MarchOne(EnemyMarch(es[..n], enemy, screenW, screenH, rand, k0), es[n], enemy, screenW, screenH, rand)
  }

  /** An enemy's step: it fires exactly when the firing test holds one unit
      lower; if that is still on screen it is simply there and uses no
      draws, otherwise it is respawned from there with two draws. */
  lemma DescendSpec(e0: Vec2, screenW: real, screenH: real, rand: nat -> real, k: nat)
    ensures var d := Descend(e0, screenW, screenH, rand, k);
            d.fired == Fires(e0.y + EnemySpeed) &&
            (e0.y + EnemySpeed <= screenH ==> d.pos == Vec2(e0.x, e0.y + EnemySpeed) && d.k == k) &&
            (e0.y + EnemySpeed > screenH ==>
               d.k == k + 2 && (UnitDraws(rand) ==> Respawned(Vec2(e0.x, e0.y + EnemySpeed), d.pos, screenW)))
  {
  }

  /** The lasers the enemy pool fires in a frame come from the descended
      positions, before any respawn, in pool order. */
  lemma {:induction false} EnemyMarchShots(es: seq<Vec2>, enemy: Texture, screenW: real, screenH: real,
                                           rand: nat -> real, k0: nat)
    ensures EnemyMarch(es, enemy, screenW, screenH, rand, k0).shots == Shots(Moved(es, EnemySpeed), enemy)
  {
    if es != [] {
      var n := |es| - 1;
      EnemyMarchShots(es[..n], enemy, screenW, screenH, rand, k0);
      assert Moved(es, EnemySpeed)[..n] == Moved(es[..n], EnemySpeed);
    }
  }

  /** The enemy pool's frame as a whole: the pool keeps its size, every enemy
      descends by 1 and is respawned exactly when that takes it below the
      screen, and draws are only ever consumed. */
  lemma {:induction false} EnemyMarchSpec(es: seq<Vec2>, enemy: Texture, screenW: real, screenH: real,
                                          rand: nat -> real, k0: nat)
    ensures var r := EnemyMarch(es, enemy, screenW, screenH, rand, k0);
            r.k >= k0 &&
            (forall i :: 0 <= i < |es| && es[i].y + EnemySpeed <= screenH ==>
               r.enemies[i] == Vec2(es[i].x, es[i].y + EnemySpeed)) &&
            (UnitDraws(rand) ==>
               forall i :: 0 <= i < |es| && es[i].y + EnemySpeed > screenH ==>
                 Respawned(Vec2(es[i].x, es[i].y + EnemySpeed), r.enemies[i], screenW))
  {
    if es != [] {
      var n := |es| - 1;
      EnemyMarchSpec(es[..n], enemy, screenW, screenH, rand, k0);
      var m := EnemyMarch(es[..n], enemy, screenW, screenH, rand, k0);
      DescendSpec(es[n], screenW, screenH, rand, m.k);
    }
  }

  /** An enemy that starts a frame no lower than the bottom of the screen
      ends it no lower either: the frame it crosses the bottom, it is sent
      back up. */
  lemma MarchStaysAboveBottom(es: seq<Vec2>, enemy: Texture, screenW: real, screenH: real,
                              rand: nat -> real, k0: nat)
    requires UnitDraws(rand)
    requires forall i :: 0 <= i < |es| ==> es[i].y <= screenH
    ensures var r := EnemyMarch(es, enemy, screenW, screenH, rand, k0);
            forall i :: 0 <= i < |r.enemies| ==> r.enemies[i].y <= screenH
  {
    EnemyMarchSpec(es, enemy, screenW, screenH, rand, k0);
  }

  /** Descending from the top of the screen one unit per frame, an enemy's
      firing test gives the same answer every 100 units: it fires once per
      hundred units of travel, not on a timer. */
  lemma FiresEveryHundred(y: real)
    requires y > 0.0
    ensures Fires(y) <==> Fires(y + 100.0)
  {
    FRemPeriodic(y, 100.0);
  }

  /** The firing test is the floor-based remainder test on positive y. */
  lemma FiresFloorForm(y: real)
    ensures Fires(y) <==> y > 0.0 && y - 100.0 * (y / 100.0).Floor as real < 1.0
  {
    if y > 0.0 {
      FRemPositiveIsFloorMod(y, 100.0);
    }
  }

  // ---------------------------------------------------------------------
  // High score

  /** The game-over screen's update of the highest score. */
  function Ratchet(highest: int, score: int): (r: int)
    ensures r >= highest && r >= score
    ensures r == highest || r == score
  {
    if score > highest then score else highest
  }

  /** Evaluating the ratchet again in the next game-over frame changes nothing. */
  lemma RatchetIdempotent(highest: int, score: int)
    ensures Ratchet(Ratchet(highest, score), score) == Ratchet(highest, score)
  {
  }

  /** The highest score after games ending with the given scores. */
  function RatchetAll(highest: int, scores: seq<int>): int
  {
    if scores == [] then highest else Ratchet(RatchetAll(highest, scores[..|scores| - 1]), scores[|scores| - 1])
  }

  /** Across a session the highest score is the largest of the initial value
      and every score at which a game ended. */
  lemma {:induction false} RatchetAllIsMax(highest: int, scores: seq<int>)
    ensures var r := RatchetAll(highest, scores);
            r >= highest && (forall i :: 0 <= i < |scores| ==> scores[i] <= r) &&
            (r == highest || r in scores)
  {
    if scores != [] {
      var n := |scores| - 1;
      RatchetAllIsMax(highest, scores[..n]);
      var r0 := RatchetAll(highest, scores[..n]);
      assert forall i :: 0 <= i < n ==> scores[i] == scores[..n][i];
      assert r0 in scores[..n] ==> r0 in scores;
    }
  }
}
