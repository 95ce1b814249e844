/**
 * The simulation step of Gloom (src/apps/Gloom/gameLogic.ts).
 *
 * Each operation is a method that mutates the roster, the projectile list
 * and the game-state record in place, as gameLogic.ts does, and is
 * proved equal to a specification function on values. The lemmas below
 * each specification state what the operation guarantees.
 *
 * The loops of gameLogic.ts run backwards (`for (i = length - 1; i >= 0; i--)`)
 * and splice out element i. The specification functions therefore recurse on
 * the head of a suffix AFTER the rest of it: `F(s)` treats `s[1..]` first and
 * `s[0]` last, which is the order the loop visits `s`.
 */
module GloomLogic {
  import opened Wrappers
  import opened GloomTypes
  import opened GloomConstants
  import opened GloomUtils

  // ===========================================================================
  // Shared rules: tile tests and the armor-first damage rule
  // ===========================================================================

  /**
   * The destination test of enemy movement and of the collision push-back:
   * strictly inside the grid and on an open tile.
   */
  predicate Walkable(x: real, y: real) {
    MapIsGrid();
    0.0 < x < MAP_WIDTH as real && 0.0 < y < MAP_HEIGHT as real && GAME_MAP[y.Floor][x.Floor] == 0
  }

  /** The removal test of a projectile: off the grid (edges included) or in a wall. */
  predicate HitsWallOrEdge(x: real, y: real) {
    MapIsGrid();
    x < 0.0 || x >= MAP_WIDTH as real || y < 0.0 || y >= MAP_HEIGHT as real
    || GAME_MAP[y.Floor][x.Floor] == 1
  }

  /** A walkable point is exactly a point whose tile is open. */
  lemma {:induction false} WalkableIsOpenTile(x: real, y: real)
    ensures Walkable(x, y) <==> IsOpenTile(x.Floor, y.Floor)
  {
    MapIsGrid();
    if IsOpenTile(x.Floor, y.Floor) {
      OpenTileIsInterior(x.Floor, y.Floor);
    }
  }

  /** A point on an open tile is never removed as a wall or edge hit. */
  lemma {:induction false} OpenTileIsNotWall(x: real, y: real)
    ensures IsOpenTile(x.Floor, y.Floor) ==> !HitsWallOrEdge(x, y)
    ensures HitsWallOrEdge(x, y) ==> !Walkable(x, y)
  {
    MapIsGrid();
    if IsOpenTile(x.Floor, y.Floor) {
      OpenTileIsInterior(x.Floor, y.Floor);
    }
  }

  /** Damage dealt by one projectile or one enemy contact. */
  const HIT_DAMAGE: int := 10

  datatype Vitals = Vitals(armor: int, health: int)

  function Min(a: int, b: int): int {
    if a < b then a else b
  }

  /** One hit of 10 points, armor first; health is not clamped yet. */
  function AbsorbHit(v: Vitals): Vitals {
    var damage := HIT_DAMAGE;
    if v.armor > 0 then
      var absorbed := Min(v.armor, damage);
      Vitals(v.armor - absorbed, v.health - (damage - absorbed))
    else
      Vitals(v.armor, v.health - damage)
  }

  /**
   * Armor takes the hit first: it loses min(armor, 10), never goes below 0,
   * and armor plus health drops by exactly 10.
   */
  lemma DamageIsArmorFirst(v: Vitals)
    requires v.armor >= 0
    ensures AbsorbHit(v).armor == v.armor - Min(v.armor, HIT_DAMAGE) >= 0
    ensures AbsorbHit(v).armor + AbsorbHit(v).health == v.armor + v.health - HIT_DAMAGE
    ensures v.armor >= HIT_DAMAGE ==> AbsorbHit(v).health == v.health
  {
  }

  /**
   * The bookkeeping shared by updateProjectiles and checkEnemyCollision: the
   * vitals, whether a hit happened, and whether health reached 0.
   */
  datatype Tally = Tally(vitals: Vitals, damaged: bool, gameOver: bool)

  /** One hit, then the clamp: health at or below 0 becomes 0 and ends the game. */
  function TakeHit(t: Tally): Tally {
    var v := AbsorbHit(t.vitals);
    if v.health <= 0 then Tally(Vitals(v.armor, 0), true, true)
    else Tally(v, true, t.gameOver)
  }

  /** `n` hits in a row. */
  function TakeHits(t: Tally, n: nat): Tally
    decreases n
  {
    if n == 0 then t else TakeHits(TakeHit(t), n - 1)
  }

  /**
   * After any number of hits armor and health stay within 0..100, a hit is
   * recorded iff there was one, and the game is over iff it was already or
   * health has reached 0 through a hit.
   */
  lemma {:induction false} TakeHitsBounds(t: Tally, n: nat)
    requires 0 <= t.vitals.armor <= 100 && 0 <= t.vitals.health <= 100
    ensures var r := TakeHits(t, n);
            && 0 <= r.vitals.armor <= t.vitals.armor
            && 0 <= r.vitals.health <= t.vitals.health
            && r.damaged == (t.damaged || n > 0)
            && r.gameOver == (t.gameOver || (n > 0 && r.vitals.health == 0))
            && (r.vitals.health == 0 && n > 0 ==> r.gameOver)
    decreases n
  {
    if n > 0 {
      var t1 := TakeHit(t);
      TakeHitsBounds(t1, n - 1);
      if n - 1 > 0 {
        TakeHitsStayAtZero(t1, n - 1);
      }
    }
  }

  /** A hit is recorded iff there was one, whatever the vitals. */
  lemma {:induction false} TakeHitsDamaged(t: Tally, n: nat)
    ensures TakeHits(t, n).damaged == (t.damaged || n > 0)
    decreases n
  {
    if n > 0 {
      TakeHitsDamaged(TakeHit(t), n - 1);
    }
  }

  /** Once health is 0 it stays 0, and the game stays over. */
  lemma {:induction false} TakeHitsStayAtZero(t: Tally, n: nat)
    requires t.vitals.armor >= 0 && t.vitals.health >= 0
    ensures TakeHits(t, n).vitals.health <= t.vitals.health
    ensures t.gameOver ==> TakeHits(t, n).gameOver
    ensures t.vitals.health == 0 && n > 0 ==> TakeHits(t, n).gameOver
    decreases n
  {
    if n > 0 {
      TakeHitsStayAtZero(TakeHit(t), n - 1);
    }
  }

  // ===========================================================================
  // shoot
  // ===========================================================================

  function Abs(a: real): real {
    if a < 0.0 then -a else a
  }

  /**
   * The hit test of shoot(): a live enemy nearer than 8 whose bearing differs
   * from the player's heading by less than 0.15 rad after normalisation.
   */
  predicate InLineOfFire(e: Enemy, playerX: real, playerY: real, playerAngle: real, trig: Trig) {
    var dx, dy := e.x - playerX, e.y - playerY;
    && !e.exploding
    && !(Hypot(dx, dy, trig) >= 8.0)
    && Abs(NormalizedAngle(trig.atan2(dy, dx) - playerAngle)) < 0.15
  }

  /** An enemy the shot hits while it has health 1 or less. */
  predicate KilledByShot(e: Enemy, playerX: real, playerY: real, playerAngle: real, trig: Trig) {
    InLineOfFire(e, playerX, playerY, playerAngle, trig) && e.health - 1 <= 0
  }

  /** One enemy after the shot. */
  function ShotEnemy(e: Enemy, playerX: real, playerY: real, playerAngle: real, trig: Trig): Enemy {
    if InLineOfFire(e, playerX, playerY, playerAngle, trig) then
      var hurt := e.(health := e.health - 1);
      if hurt.health <= 0 then hurt.(exploding := true, explosionFrame := 0) else hurt
    else e
  }

  /** The roster after the shot. */
  function ShotRoster(s: seq<Enemy>, playerX: real, playerY: real, playerAngle: real, trig: Trig): seq<Enemy> {
    if s == [] then []
    else [ShotEnemy(s[0], playerX, playerY, playerAngle, trig)] + ShotRoster(s[1..], playerX, playerY, playerAngle, trig)
  }

  /** The score the shot returns. */
  function ShotScore(s: seq<Enemy>, playerX: real, playerY: real, playerAngle: real, trig: Trig): int {
    if s == [] then 0
    else ShotScore(s[1..], playerX, playerY, playerAngle, trig)
         + (if KilledByShot(s[0], playerX, playerY, playerAngle, trig) then 100 else 0)
  }

  /** shoot(playerX, playerY, playerAngle, enemies). */
  method Shoot(playerX: real, playerY: real, playerAngle: real, enemies: List<Enemy>, trig: Trig)
    returns (scoreGained: int)
    modifies enemies
    ensures enemies.elems == ShotRoster(old(enemies.elems), playerX, playerY, playerAngle, trig)
    ensures scoreGained == ShotScore(old(enemies.elems), playerX, playerY, playerAngle, trig)
  {
    ghost var s := enemies.elems;
    scoreGained := 0;
    for i := |enemies.elems| downto 0
      invariant |enemies.elems| == |s|
      invariant enemies.elems == s[..i] + ShotRoster(s[i..], playerX, playerY, playerAngle, trig)
      invariant scoreGained == ShotScore(s[i..], playerX, playerY, playerAngle, trig)
    {
      ghost var done := ShotRoster(s[i + 1..], playerX, playerY, playerAngle, trig);
      SpliceStep(s, i, done, None);
      var enemy := enemies.elems[i];
      var shot, gained := ShootAt(enemy, playerX, playerY, playerAngle, trig);
      SpliceStep(s, i, done, Some(shot));
      // shoot updates the enemy record in place; one the shot misses is written back unchanged.
      enemies.elems := enemies.elems[i := shot];
      scoreGained := scoreGained + gained;
      ShotUnfold(s, i, playerX, playerY, playerAngle, trig);
    }
  }

  /** One more enemy of the shot, taken from the front of the suffix. */
  lemma ShotUnfold(s: seq<Enemy>, i: nat, playerX: real, playerY: real, playerAngle: real, trig: Trig)
    requires i < |s|
    ensures ShotRoster(s[i..], playerX, playerY, playerAngle, trig)
            == [ShotEnemy(s[i], playerX, playerY, playerAngle, trig)] + ShotRoster(s[i + 1..], playerX, playerY, playerAngle, trig)
    ensures ShotScore(s[i..], playerX, playerY, playerAngle, trig)
            == ShotScore(s[i + 1..], playerX, playerY, playerAngle, trig)
               + (if KilledByShot(s[i], playerX, playerY, playerAngle, trig) then 100 else 0)
  {
    assert s[i..][1..] == s[i + 1..];
  }

  /** The body of shoot's loop for one enemy: its state after the shot and the score it earns. */
  method ShootAt(e: Enemy, playerX: real, playerY: real, playerAngle: real, trig: Trig)
    returns (shot: Enemy, gained: int)
    ensures shot == ShotEnemy(e, playerX, playerY, playerAngle, trig)
    ensures gained == if KilledByShot(e, playerX, playerY, playerAngle, trig) then 100 else 0
  {
    shot, gained := e, 0;
    if shot.exploding {
      return;
    }
    var dx := shot.x - playerX;
    var dy := shot.y - playerY;
    var distance := Hypot(dx, dy, trig);
    if distance >= 8.0 {
      return;
    }
    var angleToEnemy := trig.atan2(dy, dx);
    var angleDiff := NormalizeAngle(angleToEnemy - playerAngle);
    if Abs(angleDiff) < 0.15 {
      shot := shot.(health := shot.health - 1);
      if shot.health <= 0 {
        shot := shot.(exploding := true, explosionFrame := 0);
        gained := 100;
      }
    }
  }

  /** Number of positions where `after` is exploding and `before` was not. */
  function NewlyExploding(before: seq<Enemy>, after: seq<Enemy>): nat
    requires |before| == |after|
  {
    if before == [] then 0
    else NewlyExploding(before[1..], after[1..])
         + (if !before[0].exploding && after[0].exploding then 1 else 0)
  }

  /**
   * The shot leaves the roster's length, positions, headings and cooldowns
   * alone; exploding enemies are untouched; every enemy in the line of fire
   * loses exactly 1 health, and one that drops to 0 or below starts
   * exploding from frame 0.
   */
  lemma {:induction false} ShootEffect(s: seq<Enemy>, playerX: real, playerY: real, playerAngle: real, trig: Trig)
    ensures var r := ShotRoster(s, playerX, playerY, playerAngle, trig);
      && |r| == |s|
      && forall j :: 0 <= j < |s| ==>
           var (e, e') := (s[j], r[j]);
           var hit := InLineOfFire(e, playerX, playerY, playerAngle, trig);
           && e'.x == e.x && e'.y == e.y && e'.angle == e.angle && e'.shootCooldown == e.shootCooldown
           && (e.exploding ==> e' == e)
           && e'.health == (if hit then e.health - 1 else e.health)
           && e'.exploding == (e.exploding || (hit && e.health - 1 <= 0))
           && e'.explosionFrame == (if hit && e.health - 1 <= 0 then 0 else e.explosionFrame)
  {
    if s != [] {
      ShootEffect(s[1..], playerX, playerY, playerAngle, trig);
      var r := ShotRoster(s, playerX, playerY, playerAngle, trig);
      assert r[1..] == ShotRoster(s[1..], playerX, playerY, playerAngle, trig);
      forall j | 1 <= j < |s| ensures r[j] == r[1..][j - 1] && s[j] == s[1..][j - 1] { }
    }
  }

  /**
   * The score is 100 per enemy the shot sets exploding; one shot can kill
   * several enemies standing in the line of fire.
   */
  lemma {:induction false} ShootScoresKills(s: seq<Enemy>, playerX: real, playerY: real, playerAngle: real, trig: Trig)
    ensures |ShotRoster(s, playerX, playerY, playerAngle, trig)| == |s|
    ensures ShotScore(s, playerX, playerY, playerAngle, trig)
            == 100 * NewlyExploding(s, ShotRoster(s, playerX, playerY, playerAngle, trig))
  {
    if s != [] {
      ShootScoresKills(s[1..], playerX, playerY, playerAngle, trig);
      var r := ShotRoster(s, playerX, playerY, playerAngle, trig);
      assert r[1..] == ShotRoster(s[1..], playerX, playerY, playerAngle, trig);
    }
  }

  /** The shot keeps every enemy within its invariant (EnemyOk, defined with updateEnemies). */
  lemma {:induction false} ShotRosterKeepsOk(s: seq<Enemy>, playerX: real, playerY: real, playerAngle: real, trig: Trig)
    requires forall e | e in s :: EnemyOk(e)
    ensures forall e | e in ShotRoster(s, playerX, playerY, playerAngle, trig) :: EnemyOk(e)
    ensures ShotScore(s, playerX, playerY, playerAngle, trig) >= 0
  {
    if s != [] {
      assert forall e | e in s[1..] :: e in s;
      ShotRosterKeepsOk(s[1..], playerX, playerY, playerAngle, trig);
      assert EnemyOk(s[0]);
      assert EnemyOk(ShotEnemy(s[0], playerX, playerY, playerAngle, trig));
    }
  }

  // ===========================================================================
  // updateEnemies
  // ===========================================================================

  /** How far a wandering enemy walks per tick. */
  const ENEMY_MOVE_SPEED: real := 0.02
  /** Enemy fire: range, chance per tick, spread, projectile speed, reload. */
  const FIRE_RANGE: real := 6.0
  const FIRE_CHANCE: real := 0.03
  const FIRE_SPREAD: real := 0.4
  const PROJECTILE_SPEED: real := 0.04
  const RELOAD_TICKS: int := 300
  /** Wander: chance per tick of a random turn, and the turn's width. */
  const WANDER_CHANCE: real := 0.02
  /** An exploding enemy is removed once its frame counter passes this. */
  const EXPLOSION_FRAMES: int := 20

  /**
   * What one enemy update reads and writes besides the enemy: the
   * line-of-sight cache and frame counter, and the number of random draws
   * consumed so far.
   */
  datatype TickContext = TickContext(cache: map<LosKey, bool>, frame: int, draws: nat)

  /** The enemy after the fire test, the projectile it fired if any, and the draws used. */
  datatype Fired = Fired(enemy: Enemy, shot: Option<Projectile>, draws: nat)

  /** The enemy after a wander or move step, and the draws used. */
  datatype Moved = Moved(enemy: Enemy, draws: nat)

  /**
   * The fire test. The random draw is made only when the first three
   * conditions hold (the `&&` short-circuits), and the spread draw only when
   * the enemy fires.
   */
  function FireStep(e: Enemy, distance: real, visible: bool, angleToPlayer: real,
                    stream: nat -> real, draws: nat): Fired
  {
    if distance < FIRE_RANGE && visible && e.shootCooldown == 0 then
      if stream(draws) < FIRE_CHANCE then
        var inaccuracy := (stream(draws + 1) - 0.5) * FIRE_SPREAD;
        Fired(e.(shootCooldown := RELOAD_TICKS),
              Some(Projectile(e.x, e.y, angleToPlayer + inaccuracy, PROJECTILE_SPEED)),
              draws + 2)
      else Fired(e, None, draws + 1)
    else Fired(e, None, draws)
  }

  /** The occasional random turn. */
  function WanderStep(e: Enemy, stream: nat -> real, draws: nat): Moved {
    if stream(draws) < WANDER_CHANCE then
      Moved(e.(angle := e.angle + (stream(draws + 1) - 0.5) * 1.0), draws + 2)
    else Moved(e, draws + 1)
  }

  /** Walk along the heading when the destination is walkable; otherwise turn away. */
  function MoveStep(e: Enemy, stream: nat -> real, draws: nat, trig: Trig): Moved {
    var newX := e.x + trig.cos(e.angle) * ENEMY_MOVE_SPEED;
    var newY := e.y + trig.sin(e.angle) * ENEMY_MOVE_SPEED;
    if Walkable(newX, newY) then Moved(e.(x := newX, y := newY), draws)
    else Moved(e.(angle := e.angle + PI / 2.0 + (stream(draws) - 0.5)), draws + 1)
  }

  /** The result of one enemy's update: the enemy (None once removed), its shot, the context. */
  datatype EnemyStep = EnemyStep(next: Option<Enemy>, shot: Option<Projectile>, ctx: TickContext)

  /** A living enemy's fire decision, wander and move, in that order, drawing from the stream. */
  function ActStep(e: Enemy, distance: real, visible: bool, angleToPlayer: real,
                   stream: nat -> real, draws: nat, trig: Trig): Fired
  {
    var fired := FireStep(e, distance, visible, angleToPlayer, stream, draws);
    var wandered := WanderStep(fired.enemy, stream, fired.draws);
    var moved := MoveStep(wandered.enemy, stream, wandered.draws, trig);
    Fired(moved.enemy, fired.shot, moved.draws)
  }

  /** One iteration of the updateEnemies loop. */
  function StepEnemy(e: Enemy, playerX: real, playerY: real, ctx: TickContext,
                     stream: nat -> real, trig: Trig): EnemyStep
  {
    if e.exploding then
      var aged := e.(explosionFrame := e.explosionFrame + 1);
      EnemyStep(if aged.explosionFrame > EXPLOSION_FRAMES then None else Some(aged), None, ctx)
    else LivingStep(e, playerX, playerY, ctx, stream, trig)
  }

  /** The step of an enemy that is not exploding: cool down, look, fire, wander, move. */
  function LivingStep(e: Enemy, playerX: real, playerY: real, ctx: TickContext,
                      stream: nat -> real, trig: Trig): EnemyStep
  {
    var dx, dy := playerX - e.x, playerY - e.y;
    var los := LosStep(ctx.cache, ctx.frame, e.x, e.y, playerX, playerY, trig);
    var acted := ActStep(Cooled(e), Hypot(dx, dy, trig), los.visible, trig.atan2(dy, dx), stream, ctx.draws, trig);
    EnemyStep(Some(acted.enemy), acted.shot, TickContext(los.cache, los.frame, acted.draws))
  }

  /** The enemy after its shot cooldown ticks down by one, when it is positive. */
  function Cooled(e: Enemy): Enemy {
    if e.shootCooldown > 0 then e.(shootCooldown := e.shootCooldown - 1) else e
  }

  function OptionSeq<T>(o: Option<T>): seq<T> {
    if o.Some? then [o.value] else []
  }

  /**
   * One step of a backward pass that replaces element i by a new value or
   * splices it out: either way the prefix before i is followed by the
   * outcome and the already-processed suffix.
   */
  lemma SpliceStep<T>(s: seq<T>, i: nat, done: seq<T>, o: Option<T>)
    requires i < |s|
    ensures (s[..i + 1] + done)[i] == s[i]
    ensures o.Some? ==> (s[..i + 1] + done)[i := o.value] == s[..i] + (OptionSeq(o) + done)
    ensures o.None? ==> (s[..i + 1] + done)[..i] + (s[..i + 1] + done)[i + 1..] == s[..i] + (OptionSeq(o) + done)
  {
    var e := s[..i + 1] + done;
    assert e[..i] == s[..i];
    assert e[i + 1..] == done;
  }

  /** The roster after updateEnemies, the projectiles it pushed (in push order), the context. */
  datatype RosterStep = RosterStep(survivors: seq<Enemy>, shots: seq<Projectile>, ctx: TickContext)

  /** The updateEnemies loop over `s`, last enemy first. */
  function EnemiesTick(s: seq<Enemy>, playerX: real, playerY: real, ctx: TickContext,
                       stream: nat -> real, trig: Trig): RosterStep
  {
    if s == [] then RosterStep([], [], ctx)
    else
      var rest := EnemiesTick(s[1..], playerX, playerY, ctx, stream, trig);
      var step := StepEnemy(s[0], playerX, playerY, rest.ctx, stream, trig);
      RosterStep(OptionSeq(step.next) + rest.survivors, rest.shots + OptionSeq(step.shot), step.ctx)
  }

  /** The fire test of the updateEnemies loop; pushes the projectile it fires. */
  method Fire(enemy: Enemy, distanceToPlayer: real, hasLineOfSight: bool, angleToPlayer: real,
              projectiles: List<Projectile>, rng: RandomSource)
    returns (fired: Fired)
    modifies projectiles, rng
    ensures fired == FireStep(enemy, distanceToPlayer, hasLineOfSight, angleToPlayer, rng.stream, old(rng.draws))
    ensures rng.draws == fired.draws
    ensures projectiles.elems == old(projectiles.elems) + OptionSeq(fired.shot)
  {
    fired := Fired(enemy, None, rng.draws);
    if distanceToPlayer < FIRE_RANGE && hasLineOfSight && enemy.shootCooldown == 0 {
      var chance := rng.Next();
      fired := fired.(draws := rng.draws);
      if chance < FIRE_CHANCE {
        var spread := rng.Next();
        var inaccuracy := (spread - 0.5) * FIRE_SPREAD;
        var p := Projectile(enemy.x, enemy.y, angleToPlayer + inaccuracy, PROJECTILE_SPEED);
        projectiles.elems := projectiles.elems + [p];
        fired := Fired(enemy.(shootCooldown := RELOAD_TICKS), Some(p), rng.draws);
      }
    }
  }

  /** The occasional random turn of the updateEnemies loop. */
  method Wander(enemy: Enemy, rng: RandomSource) returns (turned: Enemy)
    modifies rng
    ensures Moved(turned, rng.draws) == WanderStep(enemy, rng.stream, old(rng.draws))
  {
    turned := enemy;
    var wander := rng.Next();
    if wander < WANDER_CHANCE {
      var turn := rng.Next();
      turned := turned.(angle := turned.angle + (turn - 0.5) * 1.0);
    }
  }

  /** The move-or-turn step of the updateEnemies loop. */
  method Move(enemy: Enemy, rng: RandomSource, trig: Trig) returns (moved: Enemy)
    modifies rng
    ensures Moved(moved, rng.draws) == MoveStep(enemy, rng.stream, old(rng.draws), trig)
  {
    moved := enemy;
    var newX := moved.x + trig.cos(moved.angle) * ENEMY_MOVE_SPEED;
    var newY := moved.y + trig.sin(moved.angle) * ENEMY_MOVE_SPEED;
    if Walkable(newX, newY) {
      moved := moved.(x := newX, y := newY);
    } else {
      var r := rng.Next();
      moved := moved.(angle := moved.angle + PI / 2.0 + (r - 0.5));
    }
  }

  /**
   * The body of the updateEnemies loop for one enemy: returns the enemy as
   * it stays in the roster (None when it is spliced out), pushes its shot.
   */
  method TickEnemy(e: Enemy, playerX: real, playerY: real, projectiles: List<Projectile>,
                   los: LineOfSightCache, rng: RandomSource, trig: Trig)
    returns (next: Option<Enemy>)
    requires los.Valid()
    modifies projectiles, los, rng
    ensures los.Valid()
    ensures var st := StepEnemy(e, playerX, playerY,
                                TickContext(old(los.losCache), old(los.cacheFrame), old(rng.draws)),
                                rng.stream, trig);
            && next == st.next
            && projectiles.elems == old(projectiles.elems) + OptionSeq(st.shot)
            && TickContext(los.losCache, los.cacheFrame, rng.draws) == st.ctx
  {
    var enemy := e;
    if enemy.exploding {
      enemy := enemy.(explosionFrame := enemy.explosionFrame + 1);
      if enemy.explosionFrame > EXPLOSION_FRAMES {
        return None;
      }
      return Some(enemy);
    }
    next := TickLiving(enemy, playerX, playerY, projectiles, los, rng, trig);
  }

  /** TickEnemy for an enemy that is not exploding, as LivingStep says. */
  method TickLiving(e: Enemy, playerX: real, playerY: real, projectiles: List<Projectile>,
                    los: LineOfSightCache, rng: RandomSource, trig: Trig)
    returns (next: Option<Enemy>)
    requires los.Valid()
    modifies projectiles, los, rng
    ensures los.Valid()
    ensures var st := LivingStep(e, playerX, playerY,
                                 TickContext(old(los.losCache), old(los.cacheFrame), old(rng.draws)),
                                 rng.stream, trig);
            && next == st.next
            && projectiles.elems == old(projectiles.elems) + OptionSeq(st.shot)
            && TickContext(los.losCache, los.cacheFrame, rng.draws) == st.ctx
  {
    ghost var c := TickContext(los.losCache, los.cacheFrame, rng.draws);
    ghost var seen := LosStep(c.cache, c.frame, e.x, e.y, playerX, playerY, trig);
    var enemy := e;
    var dx := playerX - enemy.x;
    var dy := playerY - enemy.y;
    var distanceToPlayer := Hypot(dx, dy, trig);
    var angleToPlayer := trig.atan2(dy, dx);

    if enemy.shootCooldown > 0 {
      enemy := enemy.(shootCooldown := enemy.shootCooldown - 1);
    }
    assert enemy == Cooled(e);

    var hasLineOfSight := los.CheckLineOfSight(enemy.x, enemy.y, playerX, playerY, trig);
    assert seen == LosOutcome(hasLineOfSight, los.losCache, los.cacheFrame);

    var acted := Act(enemy, distanceToPlayer, hasLineOfSight, angleToPlayer, projectiles, rng, trig);
    next := Some(acted.enemy);
    LivingStepIs(e, playerX, playerY, c, rng.stream, trig, seen, acted);
  }

  /** LivingStep in terms of the line-of-sight outcome and the fire, wander and move that follow it. */
  lemma LivingStepIs(e: Enemy, playerX: real, playerY: real, c: TickContext, stream: nat -> real, trig: Trig,
                     seen: LosOutcome, acted: Fired)
    requires seen == LosStep(c.cache, c.frame, e.x, e.y, playerX, playerY, trig)
    requires acted == ActStep(Cooled(e), Hypot(playerX - e.x, playerY - e.y, trig), seen.visible,
                              trig.atan2(playerY - e.y, playerX - e.x), stream, c.draws, trig)
    ensures LivingStep(e, playerX, playerY, c, stream, trig)
            == EnemyStep(Some(acted.enemy), acted.shot, TickContext(seen.cache, seen.frame, acted.draws))
  {
  }

  /** Fire, wander and move one living enemy, as ActStep says. */
  method Act(enemy: Enemy, distanceToPlayer: real, hasLineOfSight: bool, angleToPlayer: real,
             projectiles: List<Projectile>, rng: RandomSource, trig: Trig)
    returns (acted: Fired)
    modifies projectiles, rng
    ensures acted == ActStep(enemy, distanceToPlayer, hasLineOfSight, angleToPlayer, rng.stream, old(rng.draws), trig)
    ensures rng.draws == acted.draws
    ensures projectiles.elems == old(projectiles.elems) + OptionSeq(acted.shot)
  {
    var shot := Fire(enemy, distanceToPlayer, hasLineOfSight, angleToPlayer, projectiles, rng);
    var wandered := Wander(shot.enemy, rng);
    var moved := Move(wandered, rng, trig);
    acted := Fired(moved, shot.shot, rng.draws);
  }

  /** updateEnemies(enemies, projectiles, playerX, playerY). */
  method UpdateEnemies(enemies: List<Enemy>, projectiles: List<Projectile>,
                       playerX: real, playerY: real,
                       los: LineOfSightCache, rng: RandomSource, trig: Trig)
    requires los.Valid()
    modifies enemies, projectiles, los, rng
    ensures los.Valid()
    ensures var r := EnemiesTick(old(enemies.elems), playerX, playerY,
                                 TickContext(old(los.losCache), old(los.cacheFrame), old(rng.draws)),
                                 rng.stream, trig);
            && enemies.elems == r.survivors
            && projectiles.elems == old(projectiles.elems) + r.shots
            && TickContext(los.losCache, los.cacheFrame, rng.draws) == r.ctx
  {
    ghost var s := enemies.elems;
    ghost var p0 := projectiles.elems;
    ghost var c0 := TickContext(los.losCache, los.cacheFrame, rng.draws);
    for i := |enemies.elems| downto 0
      invariant los.Valid()
      invariant var r := EnemiesTick(s[i..], playerX, playerY, c0, rng.stream, trig);
                && enemies.elems == s[..i] + r.survivors
                && projectiles.elems == p0 + r.shots
                && TickContext(los.losCache, los.cacheFrame, rng.draws) == r.ctx
    {
      assert s[i..][1..] == s[i + 1..];
      ghost var done := EnemiesTick(s[i + 1..], playerX, playerY, c0, rng.stream, trig).survivors;
      SpliceStep(s, i, done, None);
      var enemy := enemies.elems[i];
      var next := TickEnemy(enemy, playerX, playerY, projectiles, los, rng, trig);
      SpliceStep(s, i, done, next);
      if next.Some? {
        enemies.elems := enemies.elems[i := next.value];
      } else {
        enemies.elems := enemies.elems[..i] + enemies.elems[i + 1..];
      }
    }
    assert s[0..] == s;
  }

  /** What every enemy satisfies during play (see the roster lemmas below). */
  predicate EnemyOk(e: Enemy) {
    && IsOpenTile(e.x.Floor, e.y.Floor)
    && 0 <= e.shootCooldown <= RELOAD_TICKS
    && if e.exploding then e.health == 0 && 0 <= e.explosionFrame <= EXPLOSION_FRAMES
       else 1 <= e.health <= 3
  }

  /** What every projectile satisfies during play. */
  predicate ProjectileOk(p: Projectile) {
    IsOpenTile(p.x.Floor, p.y.Floor) && p.speed == PROJECTILE_SPEED
  }

  /** An exploding enemy whose animation ends on this tick. */
  predicate Finished(e: Enemy) {
    e.exploding && e.explosionFrame + 1 > EXPLOSION_FRAMES
  }

  /**
   * The rules of one enemy update. An exploding enemy only ages, uses no
   * randomness and no sight test, and leaves once its frame passes 20. A
   * live enemy is never removed and keeps its health; its cooldown counts
   * down by one (not below 0) unless it fires, which needs the player within
   * 6 and in the (cached) line of sight, and a cooldown that reached 0 this
   * tick, and resets it to 300. The
   * shot starts at the enemy with speed 0.04. The enemy either stays put or
   * moves onto a walkable point, and the update uses one to five draws.
   */
  lemma {:induction false} StepEnemyRules(e: Enemy, playerX: real, playerY: real, ctx: TickContext,
                                          stream: nat -> real, trig: Trig)
    requires 0 <= ctx.frame <= 60
    ensures var st := StepEnemy(e, playerX, playerY, ctx, stream, trig);
      && 0 <= st.ctx.frame <= 60
      && (e.exploding ==>
            && st.shot == None && st.ctx == ctx
            && (st.next == None <==> Finished(e))
            && (st.next.Some? ==> st.next.value == e.(explosionFrame := e.explosionFrame + 1)))
      && (!e.exploding ==>
            && st.next.Some?
            && var e' := st.next.value;
            && e'.health == e.health && !e'.exploding && e'.explosionFrame == e.explosionFrame
            && ctx.draws + 1 <= st.ctx.draws <= ctx.draws + 5
            && ((e'.x == e.x && e'.y == e.y) || Walkable(e'.x, e'.y))
            && (st.shot.Some? ==>
                  && st.shot.value.x == e.x && st.shot.value.y == e.y
                  && st.shot.value.speed == PROJECTILE_SPEED
                  && Hypot(playerX - e.x, playerY - e.y, trig) < FIRE_RANGE
                  && LosStep(ctx.cache, ctx.frame, e.x, e.y, playerX, playerY, trig).visible
                  && e.shootCooldown <= 1
                  && e'.shootCooldown == RELOAD_TICKS)
            && (st.shot == None ==>
                  e'.shootCooldown == if e.shootCooldown > 0 then e.shootCooldown - 1 else e.shootCooldown))
  {
    LosStepContract(ctx.cache, ctx.frame, e.x, e.y, playerX, playerY, trig);
  }

  /** (health, exploding) of each enemy: what the tick must not change. */
  function Tags(s: seq<Enemy>): seq<(int, bool)> {
    if s == [] then [] else [(s[0].health, s[0].exploding)] + Tags(s[1..])
  }

  /** The tags of the enemies that are not finished, in roster order. */
  function KeptTags(s: seq<Enemy>): seq<(int, bool)> {
    if s == [] then []
    else (if Finished(s[0]) then [] else [(s[0].health, s[0].exploding)]) + KeptTags(s[1..])
  }

  lemma {:induction false} TagsAppend(a: seq<Enemy>, b: seq<Enemy>)
    ensures Tags(a + b) == Tags(a) + Tags(b)
  {
    if a != [] {
      assert (a + b)[1..] == a[1..] + b;
      TagsAppend(a[1..], b);
    } else {
      assert a + b == b;
    }
  }

  /**
   * updateEnemies removes exactly the enemies whose explosion ends, keeps
   * the others in roster order and changes no one's health or exploding flag.
   */
  lemma {:induction false} EnemiesTickKeepsOrder(s: seq<Enemy>, playerX: real, playerY: real,
                                                 ctx: TickContext, stream: nat -> real, trig: Trig)
    requires 0 <= ctx.frame <= 60
    ensures 0 <= EnemiesTick(s, playerX, playerY, ctx, stream, trig).ctx.frame <= 60
    ensures Tags(EnemiesTick(s, playerX, playerY, ctx, stream, trig).survivors) == KeptTags(s)
  {
    if s != [] {
      EnemiesTickKeepsOrder(s[1..], playerX, playerY, ctx, stream, trig);
      var rest := EnemiesTick(s[1..], playerX, playerY, ctx, stream, trig);
      var st := StepEnemy(s[0], playerX, playerY, rest.ctx, stream, trig);
      StepEnemyRules(s[0], playerX, playerY, rest.ctx, stream, trig);
      TagsAppend(OptionSeq(st.next), rest.survivors);
      if st.next.Some? {
        assert Tags([st.next.value]) == [(s[0].health, s[0].exploding)];
      }
    }
  }

  /**
   * updateEnemies keeps every enemy within its invariant (on an open tile,
   * cooldown within 0..300, health and explosion counters consistent) and
   * every projectile it fires starts on an open tile at speed 0.04.
   */
  lemma {:induction false} EnemiesTickKeepsOk(s: seq<Enemy>, playerX: real, playerY: real,
                                              ctx: TickContext, stream: nat -> real, trig: Trig)
    requires 0 <= ctx.frame <= 60
    requires forall e | e in s :: EnemyOk(e)
    ensures var r := EnemiesTick(s, playerX, playerY, ctx, stream, trig);
            && (forall e | e in r.survivors :: EnemyOk(e))
            && (forall p | p in r.shots :: ProjectileOk(p))
            && |r.shots| <= |s|
            && ctx.draws <= r.ctx.draws
  {
    if s != [] {
      assert forall e | e in s[1..] :: e in s;
      EnemiesTickKeepsOk(s[1..], playerX, playerY, ctx, stream, trig);
      EnemiesTickKeepsOrder(s[1..], playerX, playerY, ctx, stream, trig);
      var rest := EnemiesTick(s[1..], playerX, playerY, ctx, stream, trig);
      var st := StepEnemy(s[0], playerX, playerY, rest.ctx, stream, trig);
      StepEnemyRules(s[0], playerX, playerY, rest.ctx, stream, trig);
      assert EnemyOk(s[0]);
      if st.next.Some? {
        var e' := st.next.value;
        if !s[0].exploding && !(e'.x == s[0].x && e'.y == s[0].y) {
          WalkableIsOpenTile(e'.x, e'.y);
        }
        assert EnemyOk(e');
      }
    }
  }

  // ===========================================================================
  // updateProjectiles
  // ===========================================================================

  /** A projectile hits the player when it ends its move closer than this. */
  const HIT_RADIUS: real := 0.3

  /** One tick of flight along the projectile's heading. */
  function Advance(p: Projectile, trig: Trig): Projectile {
    p.(x := p.x + trig.cos(p.angle) * p.speed, y := p.y + trig.sin(p.angle) * p.speed)
  }

  predicate NearPlayer(q: Projectile, playerX: real, playerY: real, trig: Trig) {
    Hypot(q.x - playerX, q.y - playerY, trig) < HIT_RADIUS
  }

  /** The projectile list after updateProjectiles, and the damage bookkeeping. */
  datatype Volley = Volley(survivors: seq<Projectile>, tally: Tally)

  /** The outcome of one projectile: the projectile if it stays in flight, and the bookkeeping. */
  datatype Flight = Flight(kept: Option<Projectile>, tally: Tally)

  /** One iteration of the updateProjectiles loop. */
  function StepProjectile(p: Projectile, playerX: real, playerY: real, t: Tally, trig: Trig): Flight {
    var q := Advance(p, trig);
    if HitsWallOrEdge(q.x, q.y) then Flight(None, t)
    else if NearPlayer(q, playerX, playerY, trig) then Flight(None, TakeHit(t))
    else Flight(Some(q), t)
  }

  /** The updateProjectiles loop over `s`, last projectile first. */
  function ProjectilesTick(s: seq<Projectile>, playerX: real, playerY: real, t: Tally, trig: Trig): Volley {
    if s == [] then Volley([], t)
    else
      var rest := ProjectilesTick(s[1..], playerX, playerY, t, trig);
      var f := StepProjectile(s[0], playerX, playerY, rest.tally, trig);
      Volley(OptionSeq(f.kept) + rest.survivors, f.tally)
  }

  /** The body of the updateProjectiles loop for one projectile. */
  method FlyProjectile(p: Projectile, playerX: real, playerY: real, state: GameState, trig: Trig,
                       damagedBefore: bool, gameOverBefore: bool)
    returns (kept: Option<Projectile>, damaged: bool, gameOver: bool)
    modifies state`playerArmor, state`playerHealth
    ensures Flight(kept, Tally(Vitals(state.playerArmor, state.playerHealth), damaged, gameOver))
            == StepProjectile(p, playerX, playerY,
                              Tally(Vitals(old(state.playerArmor), old(state.playerHealth)), damagedBefore, gameOverBefore),
                              trig)
  {
    damaged, gameOver := damagedBefore, gameOverBefore;
    var proj := p;
    proj := proj.(x := proj.x + trig.cos(proj.angle) * proj.speed);
    proj := proj.(y := proj.y + trig.sin(proj.angle) * proj.speed);
    assert proj == Advance(p, trig);

    MapIsGrid();
    if proj.x < 0.0 || proj.x >= MAP_WIDTH as real || proj.y < 0.0 || proj.y >= MAP_HEIGHT as real
       || GAME_MAP[proj.y.Floor][proj.x.Floor] == 1
    {
      return None, damaged, gameOver;
    }

    var dx := proj.x - playerX;
    var dy := proj.y - playerY;
    var distance := Hypot(dx, dy, trig);

    if distance < HIT_RADIUS {
      var damage := HIT_DAMAGE;
      if state.playerArmor > 0 {
        var absorbed := Min(state.playerArmor, damage);
        state.playerArmor := state.playerArmor - absorbed;
        damage := damage - absorbed;
      }
      state.playerHealth := state.playerHealth - damage;
      damaged := true;
      if state.playerHealth <= 0 {
        state.playerHealth := 0;
        gameOver := true;
      }
      return None, damaged, gameOver;
    }
    kept := Some(proj);
  }

  /** updateProjectiles(projectiles, playerX, playerY, state). */
  method UpdateProjectiles(projectiles: List<Projectile>, playerX: real, playerY: real,
                           state: GameState, trig: Trig)
    returns (damaged: bool, gameOver: bool)
    modifies projectiles, state`playerArmor, state`playerHealth
    ensures var v := ProjectilesTick(old(projectiles.elems), playerX, playerY,
                                     Tally(Vitals(old(state.playerArmor), old(state.playerHealth)), false, false),
                                     trig);
            && projectiles.elems == v.survivors
            && Vitals(state.playerArmor, state.playerHealth) == v.tally.vitals
            && damaged == v.tally.damaged
            && gameOver == v.tally.gameOver
  {
    ghost var s := projectiles.elems;
    ghost var t0 := Tally(Vitals(state.playerArmor, state.playerHealth), false, false);
    damaged := false;
    gameOver := false;
    for i := |projectiles.elems| downto 0
      invariant var v := ProjectilesTick(s[i..], playerX, playerY, t0, trig);
                && projectiles.elems == s[..i] + v.survivors
                && Tally(Vitals(state.playerArmor, state.playerHealth), damaged, gameOver) == v.tally
    {
      assert s[i..][1..] == s[i + 1..];
      ghost var rest := ProjectilesTick(s[i + 1..], playerX, playerY, t0, trig);
      SpliceStep(s, i, rest.survivors, None);
      var proj := projectiles.elems[i];
      ghost var f := StepProjectile(s[i], playerX, playerY, rest.tally, trig);
      assert ProjectilesTick(s[i..], playerX, playerY, t0, trig) == Volley(OptionSeq(f.kept) + rest.survivors, f.tally);
      var kept;
      kept, damaged, gameOver := FlyProjectile(proj, playerX, playerY, state, trig, damaged, gameOver);
      assert kept == f.kept;
      SpliceStep(s, i, rest.survivors, kept);
      if kept.Some? {
        projectiles.elems := projectiles.elems[i := kept.value];
      } else {
        projectiles.elems := projectiles.elems[..i] + projectiles.elems[i + 1..];
      }
    }
    assert s[0..] == s;
  }

  /** The advanced projectiles that stay in flight, in list order. */
  function Flying(s: seq<Projectile>, playerX: real, playerY: real, trig: Trig): seq<Projectile> {
    if s == [] then []
    else
      var q := Advance(s[0], trig);
      (if HitsWallOrEdge(q.x, q.y) || NearPlayer(q, playerX, playerY, trig) then [] else [q])
      + Flying(s[1..], playerX, playerY, trig)
  }

  /** How many projectiles reach the player on this tick. */
  function HitCount(s: seq<Projectile>, playerX: real, playerY: real, trig: Trig): nat {
    if s == [] then 0
    else
      var q := Advance(s[0], trig);
      (if !HitsWallOrEdge(q.x, q.y) && NearPlayer(q, playerX, playerY, trig) then 1 else 0)
      + HitCount(s[1..], playerX, playerY, trig)
  }

  lemma {:induction false} TakeHitsLast(t: Tally, n: nat)
    ensures TakeHits(t, n + 1) == TakeHit(TakeHits(t, n))
    decreases n
  {
    if n > 0 {
      TakeHitsLast(TakeHit(t), n - 1);
    }
  }

  /**
   * The survivors of updateProjectiles do not depend on the player's
   * vitals: they are the advanced projectiles that neither left the map, hit
   * a wall nor reached the player, in their original order. Each projectile
   * that reached the player costs one 10-point hit, and none is added.
   */
  lemma {:induction false} ProjectilesTickIsFilter(s: seq<Projectile>, playerX: real, playerY: real,
                                                   t: Tally, trig: Trig)
    ensures var v := ProjectilesTick(s, playerX, playerY, t, trig);
            && v.survivors == Flying(s, playerX, playerY, trig)
            && v.tally == TakeHits(t, HitCount(s, playerX, playerY, trig))
            && |v.survivors| + HitCount(s, playerX, playerY, trig) <= |s|
  {
    if s != [] {
      ProjectilesTickIsFilter(s[1..], playerX, playerY, t, trig);
      TakeHitsLast(t, HitCount(s[1..], playerX, playerY, trig));
    }
  }

  /** A point that is neither off the map nor in a wall lies on an open tile. */
  lemma {:induction false} InsideIsOpen(x: real, y: real)
    ensures !HitsWallOrEdge(x, y) ==> IsOpenTile(x.Floor, y.Floor)
  {
    MapIsGrid();
  }

  /**
   * The projectile tick keeps every projectile on an open tile at its speed,
   * and reports damage exactly when some projectile reached the player;
   * armor and health stay within 0..100 and health only drops.
   */
  lemma {:induction false} ProjectilesTickKeepsOk(s: seq<Projectile>, playerX: real, playerY: real,
                                                  t: Tally, trig: Trig)
    requires forall p | p in s :: ProjectileOk(p)
    requires 0 <= t.vitals.armor <= 100 && 0 <= t.vitals.health <= 100 && !t.damaged && !t.gameOver
    ensures var v := ProjectilesTick(s, playerX, playerY, t, trig);
            && (forall p | p in v.survivors :: ProjectileOk(p))
            && (v.tally.damaged <==> HitCount(s, playerX, playerY, trig) > 0)
            && (v.tally.gameOver <==> v.tally.damaged && v.tally.vitals.health == 0)
            && 0 <= v.tally.vitals.armor <= t.vitals.armor
            && 0 <= v.tally.vitals.health <= t.vitals.health
            && (t.vitals.health > 0 ==> (v.tally.gameOver <==> v.tally.vitals.health == 0))
  {
    ProjectilesTickIsFilter(s, playerX, playerY, t, trig);
    TakeHitsBounds(t, HitCount(s, playerX, playerY, trig));
    FlyingIsOk(s, playerX, playerY, trig);
  }

  lemma {:induction false} FlyingIsOk(s: seq<Projectile>, playerX: real, playerY: real, trig: Trig)
    requires forall p | p in s :: ProjectileOk(p)
    ensures forall p | p in Flying(s, playerX, playerY, trig) :: ProjectileOk(p)
  {
    if s != [] {
      assert forall p | p in s[1..] :: p in s;
      FlyingIsOk(s[1..], playerX, playerY, trig);
      var q := Advance(s[0], trig);
      InsideIsOpen(q.x, q.y);
      assert ProjectileOk(s[0]);
      assert q.speed == s[0].speed;
      var head := if HitsWallOrEdge(q.x, q.y) || NearPlayer(q, playerX, playerY, trig) then [] else [q];
      assert Flying(s, playerX, playerY, trig) == head + Flying(s[1..], playerX, playerY, trig);
    }
  }

  // ===========================================================================
  // checkEnemyCollision
  // ===========================================================================

  /** Contact distance, debounce window (ms) and push-back length. */
  const CONTACT_RADIUS: real := 0.4
  const CONTACT_COOLDOWN: int := 1000
  const PUSH_DISTANCE: real := 0.3

  /** A live enemy closer to the player than the contact radius. */
  predicate Touching(e: Enemy, playerX: real, playerY: real, trig: Trig) {
    !e.exploding && Hypot(e.x - playerX, e.y - playerY, trig) < CONTACT_RADIUS
  }

  /** The point 0.3 away from the player, directly away from the enemy. */
  function PushTarget(e: Enemy, playerX: real, playerY: real, trig: Trig): (real, real) {
    var dx, dy := e.x - playerX, e.y - playerY;
    var pushAngle := trig.atan2(-dy, -dx);
    (playerX + trig.cos(pushAngle) * PUSH_DISTANCE, playerY + trig.sin(pushAngle) * PUSH_DISTANCE)
  }

  /** What checkEnemyCollision returns: new position, bookkeeping, collision time. */
  datatype Contact = Contact(x: real, y: real, tally: Tally, time: int)

  /**
   * One forEach callback. The distance and the push target are measured from
   * the position passed in, not from the pushed one, and the debounce tests
   * the time passed in, so every touching enemy of the same call hits.
   */
  function ContactStep(e: Enemy, playerX: real, playerY: real, now: int, lastCollisionTime: int,
                       acc: Contact, trig: Trig): Contact
  {
    if Touching(e, playerX, playerY, trig) && now - lastCollisionTime > CONTACT_COOLDOWN then
      var t := TakeHit(acc.tally);
      var (testX, testY) := PushTarget(e, playerX, playerY, trig);
      if Walkable(testX, testY) then Contact(testX, testY, t, now)
      else Contact(acc.x, acc.y, t, now)
    else acc
  }

  /** The forEach over `s`, first enemy first. */
  function Collide(s: seq<Enemy>, playerX: real, playerY: real, now: int, lastCollisionTime: int,
                   acc: Contact, trig: Trig): Contact
  {
    if s == [] then acc
    else Collide(s[1..], playerX, playerY, now, lastCollisionTime,
                 ContactStep(s[0], playerX, playerY, now, lastCollisionTime, acc, trig), trig)
  }

  /** checkEnemyCollision as a value: start at the player, nothing damaged yet. */
  function Collision(s: seq<Enemy>, playerX: real, playerY: real, v: Vitals, now: int,
                     lastCollisionTime: int, trig: Trig): Contact
  {
    Collide(s, playerX, playerY, now, lastCollisionTime,
            Contact(playerX, playerY, Tally(v, false, false), lastCollisionTime), trig)
  }

  /**
   * checkEnemyCollision(enemies, playerX, playerY, state, lastCollisionTime).
   * `now` is the value of `Date.now()` read at the start of the call.
   */
  method CheckEnemyCollision(enemies: List<Enemy>, playerX: real, playerY: real, state: GameState,
                             lastCollisionTime: int, now: int, trig: Trig)
    returns (newPlayerX: real, newPlayerY: real, damaged: bool, gameOver: bool, newCollisionTime: int)
    modifies state`playerArmor, state`playerHealth
    ensures var c := Collision(enemies.elems, playerX, playerY,
                               Vitals(old(state.playerArmor), old(state.playerHealth)),
                               now, lastCollisionTime, trig);
            && Contact(newPlayerX, newPlayerY,
                       Tally(Vitals(state.playerArmor, state.playerHealth), damaged, gameOver),
                       newCollisionTime) == c
  {
    var currentTime := now;
    damaged := false;
    gameOver := false;
    newPlayerX := playerX;
    newPlayerY := playerY;
    newCollisionTime := lastCollisionTime;
    var s := enemies.elems;
    ghost var acc0 := Contact(playerX, playerY, Tally(Vitals(state.playerArmor, state.playerHealth), false, false),
                              lastCollisionTime);
    for i := 0 to |s|
      invariant Collide(s[i..], playerX, playerY, now, lastCollisionTime,
                        Contact(newPlayerX, newPlayerY,
                                Tally(Vitals(state.playerArmor, state.playerHealth), damaged, gameOver),
                                newCollisionTime), trig)
                == Collide(s, playerX, playerY, now, lastCollisionTime, acc0, trig)
    {
      assert s[i..][1..] == s[i + 1..];
      var enemy := s[i];
      ghost var acc := Contact(newPlayerX, newPlayerY,
                               Tally(Vitals(state.playerArmor, state.playerHealth), damaged, gameOver),
                               newCollisionTime);
      if enemy.exploding {
        continue;
      }
      var dx := enemy.x - playerX;
      var dy := enemy.y - playerY;
      var distance := Hypot(dx, dy, trig);

      if distance < CONTACT_RADIUS && currentTime - lastCollisionTime > CONTACT_COOLDOWN {
        var damage := HIT_DAMAGE;
        if state.playerArmor > 0 {
          var absorbed := Min(state.playerArmor, damage);
          state.playerArmor := state.playerArmor - absorbed;
          damage := damage - absorbed;
        }
        state.playerHealth := state.playerHealth - damage;
        damaged := true;
        newCollisionTime := currentTime;

        var pushAngle := trig.atan2(-dy, -dx);
        var testX := playerX + trig.cos(pushAngle) * PUSH_DISTANCE;
        var testY := playerY + trig.sin(pushAngle) * PUSH_DISTANCE;
        assert (testX, testY) == PushTarget(enemy, playerX, playerY, trig);

        MapIsGrid();
        if 0.0 < testX && testX < MAP_WIDTH as real && 0.0 < testY && testY < MAP_HEIGHT as real
           && GAME_MAP[testY.Floor][testX.Floor] == 0
        {
          newPlayerX := testX;
          newPlayerY := testY;
        }

        if state.playerHealth <= 0 {
          state.playerHealth := 0;
          gameOver := true;
        }
      }
      assert Contact(newPlayerX, newPlayerY,
                     Tally(Vitals(state.playerArmor, state.playerHealth), damaged, gameOver),
                     newCollisionTime)
             == ContactStep(enemy, playerX, playerY, now, lastCollisionTime, acc, trig);
    }
  }

  /** How many live enemies touch the player. */
  function ContactCount(s: seq<Enemy>, playerX: real, playerY: real, trig: Trig): nat {
    if s == [] then 0
    else (if Touching(s[0], playerX, playerY, trig) then 1 else 0) + ContactCount(s[1..], playerX, playerY, trig)
  }

  /**
   * Within a second of the last collision nothing happens. Otherwise every
   * touching enemy deals one 10-point hit; the collision time becomes `now`
   * exactly when some enemy touches; the player either stays or ends on a
   * walkable push-back point.
   */
  lemma {:induction false} CollideContract(s: seq<Enemy>, playerX: real, playerY: real, now: int,
                                           lastCollisionTime: int, acc: Contact, trig: Trig)
    ensures var c := Collide(s, playerX, playerY, now, lastCollisionTime, acc, trig);
      && (now - lastCollisionTime <= CONTACT_COOLDOWN ==> c == acc)
      && (now - lastCollisionTime > CONTACT_COOLDOWN ==>
            && c.tally == TakeHits(acc.tally, ContactCount(s, playerX, playerY, trig))
            && c.time == (if ContactCount(s, playerX, playerY, trig) > 0 then now else acc.time))
      && ((c.x == acc.x && c.y == acc.y) || Walkable(c.x, c.y))
  {
    if s != [] {
      var acc' := ContactStep(s[0], playerX, playerY, now, lastCollisionTime, acc, trig);
      CollideContract(s[1..], playerX, playerY, now, lastCollisionTime, acc', trig);
    }
  }

  /**
   * No double damage: after a call that damaged the player, a second call
   * made within one second of it, fed the collision time the first call
   * returned, changes nothing, wherever the enemies and the player are.
   */
  lemma {:induction false} CollisionDebounce(s: seq<Enemy>, playerX: real, playerY: real, v: Vitals,
                                             now: int, lastCollisionTime: int,
                                             s2: seq<Enemy>, playerX2: real, playerY2: real, v2: Vitals,
                                             now2: int, trig: Trig)
    requires Collision(s, playerX, playerY, v, now, lastCollisionTime, trig).tally.damaged
    requires now2 <= now + CONTACT_COOLDOWN
    ensures var first := Collision(s, playerX, playerY, v, now, lastCollisionTime, trig);
            var second := Collision(s2, playerX2, playerY2, v2, now2, first.time, trig);
            && first.time == now
            && second == Contact(playerX2, playerY2, Tally(v2, false, false), now)
  {
    var acc := Contact(playerX, playerY, Tally(v, false, false), lastCollisionTime);
    CollideContract(s, playerX, playerY, now, lastCollisionTime, acc, trig);
    TakeHitsDamaged(acc.tally, ContactCount(s, playerX, playerY, trig));
    var first := Collision(s, playerX, playerY, v, now, lastCollisionTime, trig);
    CollideContract(s2, playerX2, playerY2, now2, first.time,
                    Contact(playerX2, playerY2, Tally(v2, false, false), first.time), trig);
  }

  // ===========================================================================
  // resetGame
  // ===========================================================================

  /** What resetGame returns: a fresh roster, no projectiles, and the state fields it resets. */
  datatype Reset = Reset(
    enemies: seq<Enemy>,
    projectiles: seq<Projectile>,
    playerX: real, playerY: real, playerAngle: real,
    playerHealth: int, playerArmor: int, score: int,
    gameOver: bool,
    screenFlash: int, gunRecoil: int, muzzleFlash: int,
    lastCollisionTime: int,
    armorDropped: bool, armorDropTime: int)

  /** resetGame(); `now` is `Date.now()`, which restarts the armor-drop timer. */
  function ResetGame(now: int): Reset {
    Reset(INITIAL_ENEMIES, [], 3.5, 3.5, 0.0, 100, 0, 0, false, 0, 0, 0, 0, false, now)
  }

  /**
   * A reset starts a playable round: the player at full health without
   * armor on an open tile, three live enemies in their invariant, no
   * projectiles, nothing pending, and the armor timer restarted at `now`.
   */
  lemma ResetStartsRound(now: int)
    ensures var r := ResetGame(now);
      && r.playerHealth == 100 && r.playerArmor == 0 && r.score == 0 && !r.gameOver
      && IsOpenTile(r.playerX.Floor, r.playerY.Floor)
      && |r.enemies| == 3 && (forall e | e in r.enemies :: EnemyOk(e) && !e.exploding)
      && r.projectiles == []
      && r.screenFlash == 0 && r.gunRecoil == 0 && r.muzzleFlash == 0 && r.lastCollisionTime == 0
      && !r.armorDropped && r.armorDropTime == now
  {
    InitialRosterIsFresh();
    SpawnIsOpen();
  }
}
