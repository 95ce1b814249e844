/**
 * The Gloom view's driver (src/apps/Gloom/Gloom.tsx): the objects it creates
 * when it mounts, its key handlers, its frame loop and the counters its
 * render pass winds down. Drawing is not modelled; what the driver keeps
 * true between frames is the class invariant `Valid`.
 */
module GloomGame {
  import opened Wrappers
  import opened GloomTypes
  import opened GloomConstants
  import opened GloomUtils
  import opened GloomLogic

  // ===========================================================================
  // Key names
  // ===========================================================================

  function LowerAscii(c: char): char {
    if 'A' <= c <= 'Z' then (c as int + 32) as char else c
  }

  /** `key.toLowerCase()` on the ASCII letters. */
  function ToLower(s: string): (r: string)
    ensures |r| == |s|
    ensures forall i | 0 <= i < |s| :: !('A' <= r[i] <= 'Z')
    ensures forall i | 0 <= i < |s| :: ('A' <= s[i] <= 'Z') || r[i] == s[i]
    ensures forall i | 0 <= i < |s| :: 'A' <= s[i] <= 'Z' ==> r[i] as int == s[i] as int + 32
  {
    if s == [] then [] else [LowerAscii(s[0])] + ToLower(s[1..])
  }

  /** Lower-casing twice is lower-casing once. */
  lemma {:induction false} ToLowerIdempotent(s: string)
    ensures ToLower(ToLower(s)) == ToLower(s)
  {
    var r := ToLower(s);
    assert forall i | 0 <= i < |r| :: LowerAscii(r[i]) == r[i];
    ToLowerFixes(r);
  }

  /** A string without upper-case ASCII letters is its own lower case. */
  lemma {:induction false} ToLowerFixes(s: string)
    requires forall i | 0 <= i < |s| :: LowerAscii(s[i]) == s[i]
    ensures ToLower(s) == s
  {
    if s != [] {
      ToLowerFixes(s[1..]);
    }
  }

  /** The space bar reports `' '`; some layouts report `'space'`. */
  predicate IsFireKey(key: string) {
    key == " " || key == "space"
  }

  // ===========================================================================
  // Player movement
  // ===========================================================================

  /**
   * A step of MOVE_SPEED from a point on an open tile, along any unit
   * direction, stays inside the map, so the tile lookup of the movement keys
   * is always in range.
   */
  lemma {:induction false} StepStaysOnMap(x: real, y: real, c: real, s: real)
    requires IsOpenTile(x.Floor, y.Floor)
    requires -1.0 <= c <= 1.0 && -1.0 <= s <= 1.0
    ensures 0 <= (x + c * MOVE_SPEED).Floor < MAP_WIDTH && 0 <= (y + s * MOVE_SPEED).Floor < MAP_HEIGHT
    ensures 0 <= (x - c * MOVE_SPEED).Floor < MAP_WIDTH && 0 <= (y - s * MOVE_SPEED).Floor < MAP_HEIGHT
  {
    MapIsGrid();
    OpenTileIsInterior(x.Floor, y.Floor);
  }

  /** Where a step from (x, y) along (or against) `angle` ends: there if the tile is open, else in place. */
  function TryStep(x: real, y: real, angle: real, forward: bool, trig: Trig): (real, real) {
    var (newX, newY) := StepTarget(x, y, angle, forward, trig);
    if IsOpenTile(newX.Floor, newY.Floor) then (newX, newY) else (x, y)
  }

  /** Where the movement keys take the player: a forward step, then a backward one. */
  function Walk(x: real, y: real, angle: real, forward: bool, back: bool, trig: Trig): (real, real) {
    var (x1, y1) := if forward then TryStep(x, y, angle, true, trig) else (x, y);
    if back then TryStep(x1, y1, angle, false, trig) else (x1, y1)
  }

  /** The heading after the turn keys: left subtracts ROT_SPEED, right adds it. */
  function Turned(angle: real, left: bool, right: bool): real {
    angle - (if left then ROT_SPEED else 0.0) + (if right then ROT_SPEED else 0.0)
  }

  /** The point MOVE_SPEED ahead of (or behind) (x, y) along `angle`. */
  function StepTarget(x: real, y: real, angle: real, forward: bool, trig: Trig): (real, real) {
    if forward then (x + trig.cos(angle) * MOVE_SPEED, y + trig.sin(angle) * MOVE_SPEED)
    else (x - trig.cos(angle) * MOVE_SPEED, y - trig.sin(angle) * MOVE_SPEED)
  }

  /**
   * A step never leaves open floor: it ends on an open tile, and where it
   * moves at all it moves exactly MOVE_SPEED along the heading.
   */
  lemma TryStepStaysOpen(x: real, y: real, angle: real, forward: bool, trig: Trig)
    requires IsOpenTile(x.Floor, y.Floor)
    ensures var (x', y') := TryStep(x, y, angle, forward, trig);
            && IsOpenTile(x'.Floor, y'.Floor)
            && ((x' == x && y' == y)
                || (forward && x' == x + trig.cos(angle) * MOVE_SPEED && y' == y + trig.sin(angle) * MOVE_SPEED)
                || (!forward && x' == x - trig.cos(angle) * MOVE_SPEED && y' == y - trig.sin(angle) * MOVE_SPEED))
  {
  }

  // ===========================================================================
  // The view
  // ===========================================================================

  /** The armor pickup's fixed spot and the distance at which it is collected. */
  const PICKUP_X: real := 4.0
  const PICKUP_Y: real := 4.0
  const PICKUP_RADIUS: real := 0.5
  const PICKUP_ARMOR: int := 50
  const MAX_ARMOR: int := 100

  /** Flash, recoil and muzzle counters set by hits and shots. */
  const HIT_FLASH: int := 10
  const SHOT_RECOIL: int := 10
  const SHOT_FLASH: int := 5

  /** `Object.assign(state, reset.state)`: every field resetGame returns; `gameStarted` is not among them. */
  method AssignReset(state: GameState, r: Reset)
    modifies state
    ensures state.playerX == r.playerX && state.playerY == r.playerY && state.playerAngle == r.playerAngle
    ensures state.playerHealth == r.playerHealth && state.playerArmor == r.playerArmor && state.score == r.score
    ensures state.gameOver == r.gameOver && state.gameStarted == old(state.gameStarted)
    ensures state.screenFlash == r.screenFlash && state.gunRecoil == r.gunRecoil && state.muzzleFlash == r.muzzleFlash
    ensures state.lastCollisionTime == r.lastCollisionTime
    ensures state.armorDropped == r.armorDropped && state.armorDropTime == r.armorDropTime
  {
    state.playerX, state.playerY, state.playerAngle := r.playerX, r.playerY, r.playerAngle;
    state.playerHealth, state.playerArmor, state.score := r.playerHealth, r.playerArmor, r.score;
    state.gameOver := r.gameOver;
    state.screenFlash, state.gunRecoil, state.muzzleFlash := r.screenFlash, r.gunRecoil, r.muzzleFlash;
    state.lastCollisionTime := r.lastCollisionTime;
    state.armorDropped, state.armorDropTime := r.armorDropped, r.armorDropTime;
  }

  /** Everything the mounted view owns. */
  class Gloom {
    const state: GameState
    const enemies: List<Enemy>
    const projectiles: List<Projectile>
    const los: LineOfSightCache
    const rng: RandomSource
    const trig: Trig
    var armorPickup: ArmorPickup
    var keys: map<string, bool>
    var spacePressed: bool

    /**
     * What holds between frames: vitals within 0..100, a round is over
     * exactly when the player died or no enemy is left, the player stands on
     * an open tile, every enemy and projectile within its invariant.
     */
    ghost predicate Valid()
      reads this, state, enemies, projectiles, los
    {
      WorldOk() && PlayerOk() && RoundOk()
    }

    /** The parts of the world the frame loop moves: cache, enemies, projectiles, pickup. */
    ghost predicate WorldOk()
      reads this, state, enemies, projectiles, los
    {
      && TrigBounded(trig)
      && los.Valid()
      && (forall e | e in enemies.elems :: EnemyOk(e))
      && (forall p | p in projectiles.elems :: ProjectileOk(p))
      && armorPickup.x == PICKUP_X && armorPickup.y == PICKUP_Y
      && (armorPickup.active ==> state.armorDropped)
    }

    /** The player's record: bounded vitals and counters, standing on an open tile. */
    ghost predicate PlayerOk()
      reads this, state
    {
      && 0 <= state.playerArmor <= MAX_ARMOR && 0 <= state.playerHealth <= 100
      && state.score >= 0
      && 0 <= state.screenFlash <= HIT_FLASH
      && 0 <= state.gunRecoil <= SHOT_RECOIL
      && 0 <= state.muzzleFlash <= SHOT_FLASH
      && IsOpenTile(state.playerX.Floor, state.playerY.Floor)
    }

    /** A round is over exactly when the player died or no enemy is left. */
    ghost predicate RoundOk()
      reads this, state, enemies
    {
      && (state.gameOver ==> state.gameStarted)
      && (!state.gameOver ==> state.playerHealth > 0 && |enemies.elems| > 0)
      && (state.gameOver ==> state.playerHealth == 0 || |enemies.elems| == 0)
    }

    predicate Running()
      reads this, state
    {
      state.gameStarted && !state.gameOver
    }

    predicate KeyHeld(key: string)
      reads this
    {
      key in keys && keys[key]
    }

    /** The mount: a fresh state record, the initial roster, no projectiles. */
    constructor (stream: nat -> real, trig: Trig)
      requires TrigBounded(trig)
      ensures Valid()
      ensures fresh(state) && fresh(enemies) && fresh(projectiles) && fresh(los) && fresh(rng)
      ensures !state.gameStarted && !state.gameOver && state.playerHealth == 100 && state.score == 0
      ensures enemies.elems == INITIAL_ENEMIES && projectiles.elems == []
      ensures rng.stream == stream && rng.draws == 0 && this.trig == trig
      ensures armorPickup == ArmorPickup(PICKUP_X, PICKUP_Y, false)
      ensures keys == map[] && !spacePressed
    {
      state := new GameState();
      enemies := new List(INITIAL_ENEMIES);
      projectiles := new List([]);
      los := new LineOfSightCache();
      rng := new RandomSource(stream);
      this.trig := trig;
      armorPickup := ArmorPickup(PICKUP_X, PICKUP_Y, false);
      keys := map[];
      spacePressed := false;
      new;
      InitialRosterIsFresh();
      SpawnIsOpen();
    }

    /**
     * handleKeyDown. The fire key shoots once per press (the latch is
     * released by handleKeyUp); Enter starts the game, or restarts it once
     * it is over. `now` is `Date.now()`.
     */
    method HandleKeyDown(rawKey: string, now: int)
      requires Valid()
      modifies this, state, enemies, projectiles
      ensures Valid()
      ensures var key := ToLower(rawKey);
        && keys == old(keys)[key := true]
        && (IsFireKey(key) ==> spacePressed)
        && (IsFireKey(key) && !old(spacePressed) && old(Running()) ==>
              && enemies.elems == ShotRoster(old(enemies.elems), old(state.playerX), old(state.playerY),
                                             old(state.playerAngle), trig)
              && state.score == old(state.score)
                                + ShotScore(old(enemies.elems), old(state.playerX), old(state.playerY),
                                            old(state.playerAngle), trig)
              && state.gunRecoil == SHOT_RECOIL && state.muzzleFlash == SHOT_FLASH)
        && (IsFireKey(key) && (old(spacePressed) || !old(Running())) ==>
              unchanged(state, enemies, projectiles))
        && (IsFireKey(key) ==>
              && unchanged(projectiles) && armorPickup == old(armorPickup)
              && state.playerX == old(state.playerX) && state.playerY == old(state.playerY)
              && state.playerAngle == old(state.playerAngle)
              && state.playerHealth == old(state.playerHealth) && state.playerArmor == old(state.playerArmor)
              && state.gameOver == old(state.gameOver) && state.gameStarted == old(state.gameStarted))
        && (key == "enter" && old(Running()) ==>
              unchanged(state, enemies, projectiles) && spacePressed == old(spacePressed))
        && (key == "enter" && !old(state.gameStarted) ==>
              state.gameStarted && state.armorDropTime == now && !state.gameOver)
        && (key == "enter" && old(state.gameOver) ==>
              && Running() && enemies.elems == INITIAL_ENEMIES && projectiles.elems == []
              && state.playerHealth == 100 && state.score == 0 && state.armorDropTime == now
              && !armorPickup.active && !spacePressed)
        && (!IsFireKey(key) && key != "enter" ==>
              && unchanged(state, enemies, projectiles)
              && spacePressed == old(spacePressed) && armorPickup == old(armorPickup))
    {
      var key := ToLower(rawKey);
      keys := keys[key := true];
      if IsFireKey(key) && !spacePressed {
        spacePressed := true;
        if state.gameStarted && !state.gameOver {
          Fire();
        }
      }
      if key == "enter" {
        PressEnter(now);
      }
    }

    /** The shot of handleKeyDown, with its recoil and muzzle flash. */
    method Fire()
      requires Valid() && Running()
      modifies state`score, state`gunRecoil, state`muzzleFlash, enemies
      ensures Valid() && Running()
      ensures enemies.elems == ShotRoster(old(enemies.elems), state.playerX, state.playerY, state.playerAngle, trig)
      ensures state.score == old(state.score)
                             + ShotScore(old(enemies.elems), state.playerX, state.playerY, state.playerAngle, trig)
      ensures state.gunRecoil == SHOT_RECOIL && state.muzzleFlash == SHOT_FLASH
    {
      ShotRosterKeepsOk(enemies.elems, state.playerX, state.playerY, state.playerAngle, trig);
      ShootEffect(enemies.elems, state.playerX, state.playerY, state.playerAngle, trig);
      var scoreGained := Shoot(state.playerX, state.playerY, state.playerAngle, enemies, trig);
      state.score := state.score + scoreGained;
      state.gunRecoil := SHOT_RECOIL;
      state.muzzleFlash := SHOT_FLASH;
    }

    /** The Enter branch of handleKeyDown: start, or restart after the game is over. */
    method PressEnter(now: int)
      requires Valid()
      modifies this`armorPickup, this`spacePressed, state, enemies, projectiles
      ensures Valid()
      ensures !old(state.gameStarted) ==>
                && state.gameStarted && state.armorDropTime == now && !state.gameOver
                && unchanged(enemies, projectiles) && armorPickup == old(armorPickup)
                && state.score == old(state.score) && spacePressed == old(spacePressed)
      ensures old(state.gameStarted) && old(state.gameOver) ==>
                && Running() && enemies.elems == INITIAL_ENEMIES && projectiles.elems == []
                && state.playerHealth == 100 && state.score == 0 && state.armorDropTime == now
                && !armorPickup.active && !spacePressed
      ensures old(Running()) ==> unchanged(state, enemies, projectiles) && spacePressed == old(spacePressed)
    {
      if !state.gameStarted {
        state.gameStarted := true;
        state.armorDropTime := now;
      } else if state.gameOver {
        Restart(now);
      }
    }

    /** The restart of handleKeyDown: applies resetGame and keeps the game started. */
    method Restart(now: int)
      requires Valid() && state.gameOver
      modifies this`armorPickup, this`spacePressed, state, enemies, projectiles
      ensures Valid() && Running()
      ensures enemies.elems == INITIAL_ENEMIES && projectiles.elems == []
      ensures state.playerX == 3.5 && state.playerY == 3.5 && state.playerAngle == 0.0
      ensures state.playerHealth == 100 && state.playerArmor == 0 && state.score == 0
      ensures state.screenFlash == 0 && state.gunRecoil == 0 && state.muzzleFlash == 0
      ensures state.lastCollisionTime == 0 && !state.armorDropped && state.armorDropTime == now
      ensures armorPickup == old(armorPickup).(active := false) && !spacePressed
    {
      var reset := ResetGame(now);
      ResetStartsRound(now);
      enemies.elems := reset.enemies;
      projectiles.elems := reset.projectiles;
      AssignReset(state, reset);
      state.gameStarted := true;
      armorPickup := armorPickup.(active := false);
      spacePressed := false;
      assert forall e | e in enemies.elems :: EnemyOk(e);
      assert IsOpenTile(state.playerX.Floor, state.playerY.Floor);
    }

    /** handleKeyUp: the key is released; releasing the fire key re-arms it. */
    method HandleKeyUp(rawKey: string)
      modifies this`keys, this`spacePressed
      ensures var key := ToLower(rawKey);
        && keys == old(keys)[key := false]
        && spacePressed == (old(spacePressed) && !IsFireKey(key))
    {
      var key := ToLower(rawKey);
      keys := keys[key := false];
      if IsFireKey(key) {
        spacePressed := false;
      }
    }

    /** The counters the render pass winds down by one per frame. */
    method Render()
      modifies state`screenFlash, state`gunRecoil, state`muzzleFlash
      ensures state.screenFlash == if old(state.screenFlash) > 0 then old(state.screenFlash) - 1 else old(state.screenFlash)
      ensures state.gunRecoil == if old(state.gunRecoil) > 0 then old(state.gunRecoil) - 1 else old(state.gunRecoil)
      ensures state.muzzleFlash == if old(state.muzzleFlash) > 0 then old(state.muzzleFlash) - 1 else old(state.muzzleFlash)
    {
      if state.screenFlash > 0 {
        state.screenFlash := state.screenFlash - 1;
      }
      if state.gunRecoil > 0 {
        state.gunRecoil := state.gunRecoil - 1;
      }
      if state.muzzleFlash > 0 {
        state.muzzleFlash := state.muzzleFlash - 1;
      }
    }
  
    /**
     * One frame of gameLoop that the 60 fps throttle lets through: a
     * simulation step while a round is on, then the render pass. `now` is
     * `Date.now()`.
     */
    method GameLoop(now: int)
      requires Valid()
      modifies this`armorPickup, this`spacePressed, state, enemies, projectiles, los, rng
      ensures Valid()
      ensures !old(Running()) ==>
                && unchanged(enemies, projectiles, los, rng)
                && armorPickup == old(armorPickup) && spacePressed == old(spacePressed)
                && state.gameOver == old(state.gameOver) && state.playerHealth == old(state.playerHealth)
                && state.playerX == old(state.playerX) && state.playerY == old(state.playerY)
      ensures old(state.gameOver) ==> state.gameOver
      ensures state.gameOver && !old(state.gameOver) ==> !spacePressed
      ensures !state.gameOver ==> spacePressed == old(spacePressed)
      ensures state.gameStarted == old(state.gameStarted) && state.score == old(state.score)
    {
      if state.gameStarted && !state.gameOver {
        Simulate(now);
      }
      Render();
    }

    /** The simulation branch of gameLoop. */
    method Simulate(now: int)
      requires Valid() && Running()
      modifies this`armorPickup, this`spacePressed, state, enemies, projectiles, los, rng
      ensures Valid() && state.gameStarted && state.score == old(state.score)
      ensures state.gameOver ==> !spacePressed
      ensures !state.gameOver ==> spacePressed == old(spacePressed)
    {
      DropArmor(now);
      MovePlayer();
      AdvanceWorld(now);
    }

    /** The armor pickup: it appears once, 15 s after the start, and is collected within 0.5. */
    method DropArmor(now: int)
      requires Valid() && Running()
      modifies this`armorPickup, state`armorDropped, state`playerArmor
      ensures Valid() && Running()
      ensures var dropping := !old(state.armorDropped) && now - state.armorDropTime > ARMOR_DROP_DELAY;
              var present := old(armorPickup.active) || dropping;
              var collected := present && Hypot(PICKUP_X - state.playerX, PICKUP_Y - state.playerY, trig) < PICKUP_RADIUS;
              && state.armorDropped == (old(state.armorDropped) || dropping)
              && armorPickup == old(armorPickup).(active := present && !collected)
              && state.playerArmor == if collected then Min(MAX_ARMOR, old(state.playerArmor) + PICKUP_ARMOR)
                                      else old(state.playerArmor)
    {
      if !state.armorDropped && now - state.armorDropTime > ARMOR_DROP_DELAY {
        armorPickup := armorPickup.(active := true);
        state.armorDropped := true;
      }
      if armorPickup.active {
        var dx := armorPickup.x - state.playerX;
        var dy := armorPickup.y - state.playerY;
        var distance := Hypot(dx, dy, trig);
        if distance < PICKUP_RADIUS {
          state.playerArmor := Min(MAX_ARMOR, state.playerArmor + PICKUP_ARMOR);
          armorPickup := armorPickup.(active := false);
        }
      }
    }

    /** The keys that move the player: W or up, S or down, A or left, D or right. */
    predicate ForwardHeld() reads this { KeyHeld("w") || KeyHeld("arrowup") }
    predicate BackHeld() reads this { KeyHeld("s") || KeyHeld("arrowdown") }
    predicate LeftHeld() reads this { KeyHeld("a") || KeyHeld("arrowleft") }
    predicate RightHeld() reads this { KeyHeld("d") || KeyHeld("arrowright") }

    /**
     * The movement keys: W/up then S/down each step MOVE_SPEED along the
     * heading (backwards for S/down) when the tile there is open; A/D turn.
     */
    method MovePlayer()
      requires Valid() && Running()
      modifies state`playerX, state`playerY, state`playerAngle
      ensures Valid() && Running()
      ensures (state.playerX, state.playerY)
              == Walk(old(state.playerX), old(state.playerY), old(state.playerAngle), ForwardHeld(), BackHeld(), trig)
      ensures state.playerAngle == Turned(old(state.playerAngle), LeftHeld(), RightHeld())
    {
      if ForwardHeld() {
        StepPlayer(true);
      }
      if BackHeld() {
        StepPlayer(false);
      }
      Turn();
    }

    /** The turn keys: A/left turns by -ROT_SPEED, D/right by +ROT_SPEED. */
    method Turn()
      requires Valid() && Running()
      modifies state`playerAngle
      ensures Valid() && Running()
      ensures state.playerAngle == Turned(old(state.playerAngle), LeftHeld(), RightHeld())
    {
      if LeftHeld() {
        state.playerAngle := state.playerAngle - ROT_SPEED;
      }
      if RightHeld() {
        state.playerAngle := state.playerAngle + ROT_SPEED;
      }
    }

    /** One step forward or back; the tile lookup is always inside the map. */
    method StepPlayer(forward: bool)
      requires Valid() && Running()
      modifies state`playerX, state`playerY
      ensures Valid() && Running()
      ensures (state.playerX, state.playerY)
              == TryStep(old(state.playerX), old(state.playerY), state.playerAngle, forward, trig)
    {
      ghost var target := TryStep(state.playerX, state.playerY, state.playerAngle, forward, trig);
      TryStepStaysOpen(state.playerX, state.playerY, state.playerAngle, forward, trig);
      MapIsGrid();
      assert TrigBounded(trig) by {
        assert WorldOk();
      }
      UnitBounds(trig, state.playerAngle);
      StepStaysOnMap(state.playerX, state.playerY, trig.cos(state.playerAngle), trig.sin(state.playerAngle));
      var (newX, newY) := StepTarget(state.playerX, state.playerY, state.playerAngle, forward, trig);
      assert 0 <= newY.Floor < |GAME_MAP| && 0 <= newX.Floor < |GAME_MAP[newY.Floor]|;
      if GAME_MAP[newY.Floor][newX.Floor] == 0 {
        state.playerX := newX;
        state.playerY := newY;
      }
      assert (state.playerX, state.playerY) == target;
      assert PlayerOk();
    }

    /** Enemies, projectiles, contact damage and the end-of-round test. */
    method AdvanceWorld(now: int)
      requires Valid() && Running()
      modifies this`spacePressed, state, enemies, projectiles, los, rng
      ensures Valid() && state.gameStarted && state.score == old(state.score)
      ensures state.gameOver ==> !spacePressed
      ensures !state.gameOver ==> spacePressed == old(spacePressed)
    {
      MoveEnemies();
      Strike(now);
    }

    /** Projectiles, contact damage and the end-of-round test, after the enemies moved. */
    method Strike(now: int)
      requires WorldOk() && PlayerOk() && Running() && state.playerHealth > 0
      modifies this`spacePressed, projectiles, state
      ensures Valid() && state.gameStarted && state.score == old(state.score)
      ensures state.gameOver ==> !spacePressed
      ensures !state.gameOver ==> spacePressed == old(spacePressed)
    {
      FlyProjectiles();
      Touch(now);
    }

    /** Contact damage and the end-of-round test, after the projectiles flew. */
    method Touch(now: int)
      requires WorldOk() && PlayerOk() && state.gameStarted
      requires state.playerHealth == 0 <==> state.gameOver
      modifies this`spacePressed, state`playerX, state`playerY, state`lastCollisionTime,
               state`playerArmor, state`playerHealth, state`screenFlash, state`gameOver
      ensures Valid() && state.gameStarted
      ensures old(state.gameOver) ==> state.gameOver
      ensures state.gameOver && !old(state.gameOver) ==> !spacePressed
      ensures !state.gameOver ==> spacePressed == old(spacePressed)
      ensures spacePressed ==> old(spacePressed)
    {
      Collide(now);
      if |enemies.elems| == 0 && !state.gameOver {
        state.gameOver := true;
        spacePressed := false;
      }
    }

    /** updateEnemies on the roster, from the player's position. */
    method MoveEnemies()
      requires Valid() && Running()
      modifies enemies, projectiles, los, rng
      ensures WorldOk() && PlayerOk() && Running() && state.playerHealth > 0
      ensures var r := EnemiesTick(old(enemies.elems), state.playerX, state.playerY,
                                   TickContext(old(los.losCache), old(los.cacheFrame), old(rng.draws)),
                                   rng.stream, trig);
              && enemies.elems == r.survivors
              && projectiles.elems == old(projectiles.elems) + r.shots
              && TickContext(los.losCache, los.cacheFrame, rng.draws) == r.ctx
    {
      ghost var ctx0 := TickContext(los.losCache, los.cacheFrame, rng.draws);
      EnemiesTickKeepsOk(enemies.elems, state.playerX, state.playerY, ctx0, rng.stream, trig);
      UpdateEnemies(enemies, projectiles, state.playerX, state.playerY, los, rng, trig);
    }

    /** updateProjectiles and what gameLoop does with its result. */
    method FlyProjectiles()
      requires WorldOk() && PlayerOk() && Running() && state.playerHealth > 0
      modifies this`spacePressed, projectiles, state`playerArmor, state`playerHealth,
               state`screenFlash, state`gameOver
      ensures WorldOk() && PlayerOk() && state.gameStarted
      ensures state.playerHealth == 0 <==> state.gameOver
      ensures state.gameOver ==> !spacePressed
      ensures !state.gameOver ==> spacePressed == old(spacePressed)
      ensures var v := ProjectilesTick(old(projectiles.elems), state.playerX, state.playerY,
                                       Tally(Vitals(old(state.playerArmor), old(state.playerHealth)), false, false),
                                       trig);
              && projectiles.elems == v.survivors
              && Vitals(state.playerArmor, state.playerHealth) == v.tally.vitals
              && state.screenFlash == (if v.tally.damaged then HIT_FLASH else old(state.screenFlash))
              && state.gameOver == v.tally.gameOver
    {
      ghost var p1 := projectiles.elems;
      ghost var t1 := Tally(Vitals(state.playerArmor, state.playerHealth), false, false);
      ProjectilesTickKeepsOk(p1, state.playerX, state.playerY, t1, trig);
      var damaged, over := UpdateProjectiles(projectiles, state.playerX, state.playerY, state, trig);
      if damaged {
        state.screenFlash := HIT_FLASH;
      }
      if over {
        state.gameOver := true;
        spacePressed := false;
      }
    }

    /** checkEnemyCollision and what gameLoop does with its result. */
    method Collide(now: int)
      requires TrigBounded(trig)
      requires 0 <= state.playerArmor <= MAX_ARMOR && 0 <= state.playerHealth <= 100
      requires 0 <= state.screenFlash <= HIT_FLASH
      requires state.playerHealth == 0 ==> state.gameOver
      requires IsOpenTile(state.playerX.Floor, state.playerY.Floor)
      modifies this`spacePressed, state`playerX, state`playerY, state`lastCollisionTime,
               state`playerArmor, state`playerHealth, state`screenFlash, state`gameOver
      ensures 0 <= state.playerArmor <= MAX_ARMOR && 0 <= state.playerHealth <= 100
      ensures 0 <= state.screenFlash <= HIT_FLASH
      ensures state.playerHealth == 0 ==> state.gameOver
      ensures old(state.gameOver) ==> state.gameOver
      ensures state.gameOver && !old(state.gameOver) ==> state.playerHealth == 0 && !spacePressed
      ensures !state.gameOver ==> spacePressed == old(spacePressed)
      ensures IsOpenTile(state.playerX.Floor, state.playerY.Floor)
      ensures state.lastCollisionTime == old(state.lastCollisionTime) || state.lastCollisionTime == now
      ensures state.playerHealth <= old(state.playerHealth)
      ensures spacePressed ==> old(spacePressed)
      ensures var c := Collision(enemies.elems, old(state.playerX), old(state.playerY),
                                 Vitals(old(state.playerArmor), old(state.playerHealth)),
                                 now, old(state.lastCollisionTime), trig);
              && state.playerX == c.x && state.playerY == c.y
              && Vitals(state.playerArmor, state.playerHealth) == c.tally.vitals
              && state.lastCollisionTime == c.time
              && state.screenFlash == (if c.tally.damaged then HIT_FLASH else old(state.screenFlash))
              && state.gameOver == (old(state.gameOver) || c.tally.gameOver)
    {
      ghost var acc := Contact(state.playerX, state.playerY,
                               Tally(Vitals(state.playerArmor, state.playerHealth), false, false),
                               state.lastCollisionTime);
      CollideContract(enemies.elems, state.playerX, state.playerY, now, state.lastCollisionTime, acc, trig);
      TakeHitsBounds(acc.tally, ContactCount(enemies.elems, state.playerX, state.playerY, trig));
      var newX, newY, damaged, over, time :=
        CheckEnemyCollision(enemies, state.playerX, state.playerY, state, state.lastCollisionTime, now, trig);
      if !(newX == acc.x && newY == acc.y) {
        WalkableIsOpenTile(newX, newY);
      }
      state.playerX := newX;
      state.playerY := newY;
      state.lastCollisionTime := time;
      if damaged {
        state.screenFlash := HIT_FLASH;
      }
      if over {
        state.gameOver := true;
        spacePressed := false;
      }
    }
  }
}
