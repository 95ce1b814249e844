/**
 * Geometry helpers of Gloom (src/apps/Gloom/utils.ts): angle normalisation
 * and the memoised line-of-sight test with its module-level cache.
 */
module GloomUtils {
  import opened GloomTypes
  import opened GloomConstants

  // ---------------------------------------------------------------------------
  // normalizeAngle
  // ---------------------------------------------------------------------------

  /** Distance still to cover; drops by 2π (at least 1) on every turn removed. */
  function AngleMeasure(a: real): real {
    if a > PI then a else if a < -PI then -a else 0.0
  }

  /** `d` is an integer multiple of 2π. */
  predicate IsWholeTurns(d: real) {
    (d / (2.0 * PI)).Floor as real == d / (2.0 * PI)
  }

  lemma FloorShift(q: real)
    ensures (q + 1.0).Floor == q.Floor + 1 && (q - 1.0).Floor == q.Floor - 1
  {
  }

  /** Adding or removing one turn keeps a multiple of 2π a multiple of 2π. */
  lemma {:induction false} WholeTurnsShift(d: real)
    requires IsWholeTurns(d)
    ensures IsWholeTurns(d + 2.0 * PI) && IsWholeTurns(d - 2.0 * PI)
  {
    var q := d / (2.0 * PI);
    assert (d + 2.0 * PI) / (2.0 * PI) == q + 1.0;
    assert (d - 2.0 * PI) / (2.0 * PI) == q - 1.0;
    FloorShift(q);
  }

  /**
   * The value normalizeAngle returns: whole turns are removed while the
   * angle is above π, then added while it is below -π.
   */
  function NormalizedAngle(a: real): (r: real)
    ensures -PI <= r <= PI
    ensures IsWholeTurns(a - r)
    ensures -PI <= a <= PI ==> r == a
    ensures a > PI ==> r > -PI
    ensures a < -PI ==> r < PI
    decreases AngleMeasure(a)
  {
    if a > PI then
      var r := NormalizedAngle(a - 2.0 * PI);
      WholeTurnsShift(a - 2.0 * PI - r);
      assert a - r == (a - 2.0 * PI - r) + 2.0 * PI;
      r
    else if a < -PI then
      var r := NormalizedAngle(a + 2.0 * PI);
      WholeTurnsShift(a + 2.0 * PI - r);
      assert a - r == (a + 2.0 * PI - r) - 2.0 * PI;
      r
    else
      assert (a - a) / (2.0 * PI) == 0.0;
      a
  }

  /** The two loops of normalizeAngle, on a local variable. */
  method NormalizeAngle(angle: real) returns (normalized: real)
    ensures normalized == NormalizedAngle(angle)
  {
    normalized := angle;
    while normalized > PI
      invariant NormalizedAngle(normalized) == NormalizedAngle(angle)
      decreases AngleMeasure(normalized)
    {
      normalized := normalized - 2.0 * PI;
    }
    while normalized < -PI
      invariant normalized <= PI
      invariant NormalizedAngle(normalized) == NormalizedAngle(angle)
      decreases AngleMeasure(normalized)
    {
      normalized := normalized + 2.0 * PI;
    }
  }

  /** Normalising twice is normalising once. */
  lemma {:induction false} NormalizedAngleIdempotent(a: real)
    ensures NormalizedAngle(NormalizedAngle(a)) == NormalizedAngle(a)
  {
    var r := NormalizedAngle(a);
    assert -PI <= r <= PI;
  }

  /**
   * -π is returned only for inputs at or below -π (the second loop stops at
   * -π because its test is strict), and -π itself is a fixed point.
   */
  lemma {:induction false} MinusPiOnlyFromBelow(a: real)
    ensures NormalizedAngle(a) == -PI ==> a <= -PI
    ensures NormalizedAngle(-PI) == -PI
  {
  }

  // ---------------------------------------------------------------------------
  // checkLineOfSight
  // ---------------------------------------------------------------------------

  /**
   * `v.toFixed(1)`: the sign and the magnitude rounded to tenths, ties up.
   * "-0.0" (a small negative value) and "0.0" are different keys.
   */
  datatype Fixed1 = Fixed1(negative: bool, tenths: int)

  function ToFixed1(v: real): (f: Fixed1)
    ensures f.negative <==> v < 0.0
    ensures f.tenths >= 0
    ensures (f.tenths as real) - 0.5 <= 10.0 * (if v < 0.0 then -v else v) < (f.tenths as real) + 0.5
  {
    var magnitude := if v < 0.0 then -v else v;
    Fixed1(v < 0.0, (magnitude * 10.0 + 0.5).Floor)
  }

  /** The cache key: the four coordinates printed with one decimal. */
  datatype LosKey = LosKey(x1: Fixed1, y1: Fixed1, x2: Fixed1, y2: Fixed1)

  function KeyOf(x1: real, y1: real, x2: real, y2: real): LosKey {
    LosKey(ToFixed1(x1), ToFixed1(y1), ToFixed1(x2), ToFixed1(y2))
  }

  /** `Math.max(1, Math.floor(distance * 10))`. */
  function SampleCount(distance: real): (steps: int)
    ensures steps >= 1
    ensures distance >= 0.1 ==> steps as real <= distance * 10.0 < steps as real + 1.0
    ensures distance < 0.1 ==> steps == 1
  {
    var n := (distance * 10.0).Floor;
    if n > 1 then n else 1
  }

  /** The tile of sample `i` of `steps`: the floor of the point at t = i/steps. */
  function SampleTile(x1: real, y1: real, x2: real, y2: real, steps: int, i: int): (int, int)
    requires steps >= 1
  {
    var dx, dy := x2 - x1, y2 - y1;
    var t := i as real / steps as real;
    ((x1 + dx * t).Floor, (y1 + dy * t).Floor)
  }

  /** A sampled tile stops the sight line: outside the grid or a wall. */
  predicate BlocksSight(tile: (int, int)) {
    MapIsGrid();
    var (col, row) := tile;
    col < 0 || col >= MAP_WIDTH || row < 0 || row >= MAP_HEIGHT || GAME_MAP[row][col] == 1
  }

  /** No sample i = 0..steps (both ends included) lands on a blocking tile. */
  predicate SegmentClear(x1: real, y1: real, x2: real, y2: real, steps: int)
    requires steps >= 1
  {
    forall i :: 0 <= i <= steps ==> !BlocksSight(SampleTile(x1, y1, x2, y2, steps, i))
  }

  /** What a cache miss computes. */
  predicate Visible(x1: real, y1: real, x2: real, y2: real, trig: Trig) {
    SegmentClear(x1, y1, x2, y2, SampleCount(Hypot(x2 - x1, y2 - y1, trig)))
  }

  /** The sampling loop of checkLineOfSight, returning at the first blocking tile. */
  method ScanSegment(x1: real, y1: real, x2: real, y2: real, steps: int) returns (clear: bool)
    requires steps >= 1
    ensures clear == SegmentClear(x1, y1, x2, y2, steps)
  {
    MapIsGrid();
    var i := 0;
    while i <= steps
      invariant 0 <= i <= steps + 1
      invariant forall j :: 0 <= j < i ==> !BlocksSight(SampleTile(x1, y1, x2, y2, steps, j))
    {
      var (checkX, checkY) := SampleTile(x1, y1, x2, y2, steps, i);
      if checkX < 0 || checkX >= MAP_WIDTH || checkY < 0 || checkY >= MAP_HEIGHT
         || GAME_MAP[checkY][checkX] == 1
      {
        return false;
      }
      i := i + 1;
    }
    return true;
  }

  /** A clear segment starts and ends on open tiles inside the grid. */
  lemma {:induction false} ClearSegmentEndsOpen(x1: real, y1: real, x2: real, y2: real, steps: int)
    requires steps >= 1
    requires SegmentClear(x1, y1, x2, y2, steps)
    ensures IsOpenTile(x1.Floor, y1.Floor) && IsOpenTile(x2.Floor, y2.Floor)
  {
    MapIsGrid();
    assert SampleTile(x1, y1, x2, y2, steps, 0) == (x1.Floor, y1.Floor);
    assert steps as real / steps as real == 1.0;
    assert SampleTile(x1, y1, x2, y2, steps, steps) == (x2.Floor, y2.Floor);
    assert !BlocksSight(SampleTile(x1, y1, x2, y2, steps, 0));
    assert !BlocksSight(SampleTile(x1, y1, x2, y2, steps, steps));
  }

  /** What one call of checkLineOfSight returns and leaves in the module state. */
  datatype LosOutcome = LosOutcome(visible: bool, cache: map<LosKey, bool>, frame: int)

  function LosStep(cache: map<LosKey, bool>, frame: int,
                   x1: real, y1: real, x2: real, y2: real, trig: Trig): LosOutcome
  {
    var cleared := frame + 1 > 60;
    var base := if cleared then map[] else cache;
    var frame' := if cleared then 0 else frame + 1;
    var key := KeyOf(x1, y1, x2, y2);
    if key in base then LosOutcome(base[key], base, frame')
    else
      var visible := Visible(x1, y1, x2, y2, trig);
      LosOutcome(visible, base[key := visible], frame')
  }

  /**
   * The counter is bumped on every call and wraps to 0 (emptying the cache)
   * once it exceeds 60, so it stays in 0..60; a hit returns the stored answer
   * without sampling; a miss stores the sampled answer under the key.
   */
  lemma {:induction false} LosStepContract(cache: map<LosKey, bool>, frame: int,
                                           x1: real, y1: real, x2: real, y2: real, trig: Trig)
    requires 0 <= frame <= 60
    ensures var o := LosStep(cache, frame, x1, y1, x2, y2, trig);
            var key := KeyOf(x1, y1, x2, y2);
            && 0 <= o.frame <= 60
            && (frame < 60 ==> o.frame == frame + 1 && o.cache.Keys >= cache.Keys)
            && (frame == 60 ==> o.frame == 0 && o.cache.Keys == {key})
            && key in o.cache && o.cache[key] == o.visible
            && (frame < 60 && key in cache ==> o.visible == cache[key] && o.cache == cache)
            && (frame < 60 && key !in cache ==> o.cache == cache[key := o.visible])
            && (frame == 60 || key !in cache ==> o.visible == Visible(x1, y1, x2, y2, trig))
  {
  }

  /**
   * Every cached answer is the true answer for some segment with the same
   * rounded key: the cache is approximate, never invented.
   */
  ghost predicate CacheSound(cache: map<LosKey, bool>, trig: Trig) {
    forall k :: k in cache ==>
      exists x1, y1, x2, y2 :: KeyOf(x1, y1, x2, y2) == k && cache[k] == Visible(x1, y1, x2, y2, trig)
  }

  lemma {:induction false} LosStepKeepsCacheSound(cache: map<LosKey, bool>, frame: int,
                                                  x1: real, y1: real, x2: real, y2: real, trig: Trig)
    requires CacheSound(cache, trig)
    ensures CacheSound(LosStep(cache, frame, x1, y1, x2, y2, trig).cache, trig)
  {
    var o := LosStep(cache, frame, x1, y1, x2, y2, trig);
    var key := KeyOf(x1, y1, x2, y2);
    forall k | k in o.cache
      ensures exists a, b, c, d :: KeyOf(a, b, c, d) == k && o.cache[k] == Visible(a, b, c, d, trig)
    {
      if k == key && (frame + 1 > 60 || key !in cache) {
        assert KeyOf(x1, y1, x2, y2) == k && o.cache[k] == Visible(x1, y1, x2, y2, trig);
      } else {
        assert k in cache && o.cache[k] == cache[k];
      }
    }
  }

  /** The module-level `losCache` map and `cacheFrame` counter of utils.ts. */
  class LineOfSightCache {
    var losCache: map<LosKey, bool>
    var cacheFrame: int

    ghost predicate Valid()
      reads this
    {
      0 <= cacheFrame <= 60
    }

    constructor ()
      ensures Valid() && losCache == map[] && cacheFrame == 0
    {
      losCache := map[];
      cacheFrame := 0;
    }

    /** checkLineOfSight(x1, y1, x2, y2, GAME_MAP). */
    method CheckLineOfSight(x1: real, y1: real, x2: real, y2: real, trig: Trig) returns (visible: bool)
      requires Valid()
      modifies this
      ensures Valid()
      ensures LosOutcome(visible, losCache, cacheFrame)
              == LosStep(old(losCache), old(cacheFrame), x1, y1, x2, y2, trig)
    {
      cacheFrame := cacheFrame + 1;
      if cacheFrame > 60 {
        losCache := map[];
        cacheFrame := 0;
      }
      var key := KeyOf(x1, y1, x2, y2);
      if key in losCache {
        return losCache[key];
      }
      var dx := x2 - x1;
      var dy := y2 - y1;
      var distance := Hypot(dx, dy, trig);
      var steps := SampleCount(distance);
      visible := ScanSegment(x1, y1, x2, y2, steps);
      losCache := losCache[key := visible];
    }
  }
}
