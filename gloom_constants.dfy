/** The fixed world data of Gloom (src/apps/Gloom/constants.ts). */
module GloomConstants {
  import opened GloomTypes

  /** `Math.PI`, written out to the digits a double prints. */
  const PI: real := 3.141592653589793

  /** The 8 x 8 tile map: 1 is a wall, 0 is open floor; indexed `[row][column]`. */
  const GAME_MAP: seq<seq<int>> := [
    [1, 1, 1, 1, 1, 1, 1, 1],
    [1, 0, 0, 0, 0, 0, 0, 1],
    [1, 0, 1, 0, 0, 1, 0, 1],
    [1, 0, 1, 0, 0, 1, 0, 1],
    [1, 0, 0, 0, 0, 0, 0, 1],
    [1, 0, 1, 1, 1, 1, 0, 1],
    [1, 0, 0, 0, 0, 0, 0, 1],
    [1, 1, 1, 1, 1, 1, 1, 1]
  ]

  /** `GAME_MAP[0].length` and `GAME_MAP.length`. */
  const MAP_WIDTH: int := |GAME_MAP[0]|
  const MAP_HEIGHT: int := |GAME_MAP|

  const INITIAL_ENEMIES: seq<Enemy> := [
    Enemy(1.5, 1.5, 3, 0.0, false, 0, 0),
    Enemy(6.5, 1.5, 3, PI, false, 0, 0),
    Enemy(1.5, 6.5, 3, PI / 2.0, false, 0, 0)
  ]

  const MOVE_SPEED: real := 0.05
  const ROT_SPEED: real := 0.05
  const FOV: real := PI / 3.0
  /** Milliseconds after the start before the armor pickup appears. */
  const ARMOR_DROP_DELAY: int := 15000

  /** The tile at column `col`, row `row` exists and is open floor. */
  predicate IsOpenTile(col: int, row: int) {
    0 <= row < |GAME_MAP| && 0 <= col < |GAME_MAP[row]| && GAME_MAP[row][col] == 0
  }

  /** The map is an 8 x 8 grid of zeros and ones. */
  lemma MapIsGrid()
    ensures MAP_WIDTH == 8 && MAP_HEIGHT == 8
    ensures forall row :: 0 <= row < 8 ==> |GAME_MAP[row]| == 8
    ensures forall row, col :: 0 <= row < 8 && 0 <= col < 8 ==>
              GAME_MAP[row][col] == 0 || GAME_MAP[row][col] == 1
  {
  }

  /** The border ring (first and last row, first and last column) is all wall. */
  lemma BorderIsWall()
    ensures forall i :: 0 <= i < 8 ==>
              GAME_MAP[0][i] == 1 && GAME_MAP[7][i] == 1 &&
              GAME_MAP[i][0] == 1 && GAME_MAP[i][7] == 1
  {
  }

  /**
   * Because the border is wall, an open tile lies strictly inside the grid:
   * its four neighbours all exist.
   */
  lemma OpenTileIsInterior(col: int, row: int)
    requires IsOpenTile(col, row)
    ensures 1 <= col <= 6 && 1 <= row <= 6
  {
    MapIsGrid();
    BorderIsWall();
  }

  /**
   * The roster starts with three live enemies of health 3, idle counters,
   * each standing on an open tile.
   */
  lemma InitialRosterIsFresh()
    ensures |INITIAL_ENEMIES| == 3
    ensures forall e :: e in INITIAL_ENEMIES ==>
              e.health == 3 && !e.exploding && e.explosionFrame == 0 && e.shootCooldown == 0
    ensures forall e :: e in INITIAL_ENEMIES ==> IsOpenTile(e.x.Floor, e.y.Floor)
  {
    assert INITIAL_ENEMIES[0].x.Floor == 1 && INITIAL_ENEMIES[0].y.Floor == 1;
    assert INITIAL_ENEMIES[1].x.Floor == 6 && INITIAL_ENEMIES[1].y.Floor == 1;
    assert INITIAL_ENEMIES[2].x.Floor == 1 && INITIAL_ENEMIES[2].y.Floor == 6;
  }

  /** The player's spawn point (3.5, 3.5) is on an open tile. */
  lemma SpawnIsOpen()
    ensures IsOpenTile((3.5).Floor, (3.5).Floor)
  {
    assert (3.5).Floor == 3;
  }
}
