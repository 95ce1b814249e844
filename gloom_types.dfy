/**
 * Record shapes of the Gloom mini-game (src/apps/Gloom/types.ts), plus the
 * two inputs the simulation cannot compute itself: floating-point geometry
 * (`Trig`) and `Math.random` (`RandomSource`).
 */
module GloomTypes {

  /** An enemy of the roster; positions and angles are reals, counters integers. */
  datatype Enemy = Enemy(
    x: real, y: real,
    health: int,
    angle: real,
    exploding: bool,
    explosionFrame: int,
    shootCooldown: int)

  /** A projectile fired by an enemy. */
  datatype Projectile = Projectile(x: real, y: real, angle: real, speed: real)

  /** The single armor pickup. */
  datatype ArmorPickup = ArmorPickup(x: real, y: real, active: bool)

  /**
   * The transcendental functions the game calls (`Math.sqrt`, `Math.atan2`,
   * `Math.cos`, `Math.sin`). They are given, not computed: every property
   * proved here holds whatever these functions return, unless a member
   * says it needs `TrigBounded`.
   */
  datatype Trig = Trig(
    sqrt: real -> real,
    atan2: (real, real) -> real,
    cos: real -> real,
    sin: real -> real)

  /** `Math.sqrt(dx * dx + dy * dy)`: the length of the offset (dx, dy). */
  function Hypot(dx: real, dy: real, trig: Trig): real {
    trig.sqrt(dx * dx + dy * dy)
  }

  /** Cosine and sine stay in [-1, 1], as the real ones do. */
  ghost predicate TrigBounded(trig: Trig) {
    forall a :: -1.0 <= trig.cos(a) <= 1.0 && -1.0 <= trig.sin(a) <= 1.0
  }

  /** TrigBounded at one angle. */
  lemma UnitBounds(trig: Trig, a: real)
    requires TrigBounded(trig)
    ensures -1.0 <= trig.cos(a) <= 1.0 && -1.0 <= trig.sin(a) <= 1.0
  {
  }

  /**
   * `Math.random()`: an arbitrary stream of draws, consumed in call order.
   * The k-th call returns `stream(k)`.
   */
  class RandomSource {
    const stream: nat -> real
    var draws: nat

    constructor (stream: nat -> real)
      ensures this.stream == stream && draws == 0
    {
      this.stream := stream;
      draws := 0;
    }

    method Next() returns (r: real)
      modifies this
      ensures r == stream(old(draws)) && draws == old(draws) + 1
    {
      r := stream(draws);
      draws := draws + 1;
    }
  }

  /** A JavaScript array that the game mutates in place (`push`, `splice`). */
  class List<T> {
    var elems: seq<T>

    constructor (elems: seq<T>)
      ensures this.elems == elems
    {
      this.elems := elems;
    }
  }

  /** The mutable game-state record (`GameState` in types.ts). */
  class GameState {
    var playerX: real
    var playerY: real
    var playerAngle: real
    var playerHealth: int
    var playerArmor: int
    var score: int
    var gameOver: bool
    var gameStarted: bool
    var gunRecoil: int
    var muzzleFlash: int
    var screenFlash: int
    var armorDropped: bool
    var armorDropTime: int
    var lastCollisionTime: int

    /** The record Gloom.tsx builds when the view mounts. */
    constructor ()
      ensures playerX == 3.5 && playerY == 3.5 && playerAngle == 0.0
      ensures playerHealth == 100 && playerArmor == 0 && score == 0
      ensures !gameOver && !gameStarted
      ensures gunRecoil == 0 && muzzleFlash == 0 && screenFlash == 0
      ensures !armorDropped && armorDropTime == 0 && lastCollisionTime == 0
    {
      playerX, playerY, playerAngle := 3.5, 3.5, 0.0;
      playerHealth, playerArmor, score := 100, 0, 0;
      gameOver, gameStarted := false, false;
      gunRecoil, muzzleFlash, screenFlash := 0, 0, 0;
      armorDropped, armorDropTime, lastCollisionTime := false, 0, 0;
    }
  }
}
