# Gloom, Draw and the installed-apps registry, in Dafny

This project models three pieces of a retro desktop written in TypeScript and
React, and proves properties of each.

- **Gloom**, a small ray-cast shooter (`src/apps/Gloom`). The model covers the
  simulation in `gameLogic.ts`: shooting, enemy updates, projectile flight,
  contact damage and reset. It also covers the angle normaliser and the cached
  line-of-sight test in `utils.ts`, and the map, roster and speeds in
  `constants.ts`. Finally it covers the frame driver in `Gloom.tsx`: the mount,
  `handleKeyDown`, `handleKeyUp`, the simulated part of `gameLoop`, and the
  counters its render pass winds down.
  - Enemies, projectiles and the game-state record are updated in place, as in
    TypeScript. The arrays become `List<T>` objects holding a `seq`, the state
    record is the `GameState` class, and the view is the `Gloom` class. Its
    invariant `Valid` covers: vitals in 0..100, the player on an open tile,
    every enemy and projectile in range, and "a round is over exactly when the
    player died or no enemy is left".
  - Every mutating loop is a method proved equal to a specification function on
    values. The lemmas about those functions state what each step guarantees.
- **Draw**, the paint program (`src/apps/Draw/Draw.tsx`). The model covers the
  pixel layer of the RGBA buffer (`getPixelColor`, `setPixelColor`), the
  `hexToRgb` parser, `colorsMatch`, the eyedropper's hex formatter,
  `toggleMenu`, and the stack-based `floodFill`. The fill works in place on an
  `array` of bytes. It is proved to repaint exactly the 4-connected region of
  the start pixel's colour and to leave every other byte alone.
- **The installed-apps registry** (`src/contexts/InstalledAppsContext.tsx`).
  The model covers the catalogue, `isAppInstalled`, and the `uninstallApp` and
  `reinstallApp` updates, each as a function from the current list to the next.

Inputs that are not computed by this code become parameters:

- Math functions become a `Trig` oracle of `sqrt`, `atan2`, `cos` and `sin`;
  the model only assumes that `cos` and `sin` stay in [-1, 1].
- `Math.random` becomes a `RandomSource`: a fixed stream of reals and a count
  of the draws made. The order of draws follows the short-circuit order of the
  TypeScript conditions.
- `Date.now()` becomes an integer `now`.
- Numbers are Dafny `real`s, and counters and colour channels are `int`s.

## Model

| member | source | states |
|---|---|---|
| GloomTypes.RandomSource.Next | src/apps/Gloom/gameLogic.ts:72-73 | a draw returns the next value of the stream and advances the draw count by one |
| GloomTypes.GameState.constructor | src/apps/Gloom/Gloom.tsx:36-51 | the mount's state record: player at (3.5, 3.5) facing 0, health 100, no armor, score 0, not started, all counters 0 |
| GloomConstants.MapIsGrid | src/apps/Gloom/constants.ts:1-10 | the map is 8 x 8 and every cell is 0 or 1 |
| GloomConstants.BorderIsWall | src/apps/Gloom/constants.ts:1-10 | the outer ring of the map is all wall |
| GloomConstants.OpenTileIsInterior | src/apps/Gloom/constants.ts:1-10 | an open tile lies in columns and rows 1..6 |
| GloomConstants.InitialRosterIsFresh | src/apps/Gloom/constants.ts:12-16 | three enemies, each with health 3, not exploding, no cooldown, standing on an open tile |
| GloomConstants.SpawnIsOpen | src/apps/Gloom/Gloom.tsx:37-38 | the spawn point (3.5, 3.5) is an open tile |
| GloomUtils.NormalizedAngle | src/apps/Gloom/utils.ts:2-7 | the result lies in [-pi, pi], differs from the input by whole turns, and equals an input already in range; an input above pi never lands on -pi and one below -pi never lands on pi |
| GloomUtils.NormalizeAngle | src/apps/Gloom/utils.ts:2-7 | the two while loops compute NormalizedAngle |
| GloomUtils.NormalizedAngleIdempotent | src/apps/Gloom/utils.ts:2-7 | normalising twice is normalising once |
| GloomUtils.MinusPiOnlyFromBelow | src/apps/Gloom/utils.ts:2-7 | -pi comes out only for inputs at or below -pi, and -pi itself is kept |
| GloomUtils.ToFixed1 | src/apps/Gloom/utils.ts:26 | `toFixed(1)` keeps the sign and rounds the magnitude to within half a tenth |
| GloomUtils.SampleCount | src/apps/Gloom/utils.ts:32 | max(1, floor(distance * 10)): exactly one step below a distance of 0.1, and floor(distance * 10) steps from 0.1 on |
| GloomUtils.ScanSegment | src/apps/Gloom/utils.ts:34-49 | the sampling loop returns true exactly when every sampled tile is inside the map and not a wall |
| GloomUtils.ClearSegmentEndsOpen | src/apps/Gloom/utils.ts:34-49 | a clear segment starts and ends on open tiles |
| GloomUtils.LosStepContract | src/apps/Gloom/utils.ts:20-53 | the frame counter stays in 0..60. Below 60 it counts up, and on a miss the old entries are kept and only the new key is added. At 60 it wraps to 0 and the cache is cleared except for the new key. A hit before the wrap returns the stored answer and leaves the cache alone; otherwise the answer is the true visibility. Either way the key then holds the answer |
| GloomUtils.LosStepKeepsCacheSound | src/apps/Gloom/utils.ts:26-53 | every cached answer is the true visibility of some segment with the same rounded key |
| GloomUtils.LineOfSightCache.constructor | src/apps/Gloom/utils.ts:10-11 | the module-level cache starts empty with frame 0 |
| GloomUtils.LineOfSightCache.CheckLineOfSight | src/apps/Gloom/utils.ts:13-53 | the answer, the new cache and the new frame are those of LosStep on the old cache and frame |
| GloomLogic.WalkableIsOpenTile | src/apps/Gloom/gameLogic.ts:91-97 | the bounds-and-tile test for a move is exactly "the tile is open" |
| GloomLogic.OpenTileIsNotWall | src/apps/Gloom/gameLogic.ts:121-127 | a point on an open tile does not hit a wall or the edge; a point that does is not walkable |
| GloomLogic.InsideIsOpen | src/apps/Gloom/gameLogic.ts:121-127 | a projectile that passes the wall-and-edge test is on an open tile |
| GloomLogic.DamageIsArmorFirst | src/apps/Gloom/gameLogic.ts:137-145 | armor absorbs up to 10 of a hit and never goes negative; armor plus health drops by exactly 10; with 10 or more armor, health is untouched |
| GloomLogic.TakeHitsBounds | src/apps/Gloom/gameLogic.ts:137-152 | after n hits armor and health stay between 0 and their start. `damaged` is set iff it was or n > 0. The game is over iff it was, or some hit landed and health is 0 |
| GloomLogic.TakeHitsDamaged | src/apps/Gloom/gameLogic.ts:146 | the damaged flag is set exactly when at least one hit landed |
| GloomLogic.TakeHitsStayAtZero | src/apps/Gloom/gameLogic.ts:149-152 | health never rises; once over, the game stays over; a hit at 0 health ends the game |
| GloomLogic.Shoot | src/apps/Gloom/gameLogic.ts:5-42 | the backward loop leaves the roster as ShotRoster of the old roster and returns ShotScore |
| GloomLogic.ShootAt | src/apps/Gloom/gameLogic.ts:14-38 | one enemy after the shot, and 100 points exactly when the shot kills it |
| GloomLogic.ShootEffect | src/apps/Gloom/gameLogic.ts:14-38 | length, positions, headings and cooldowns are kept; exploding enemies are untouched; an enemy in the line of fire loses exactly 1 health and starts exploding at frame 0 when that brings it to 0 or below |
| GloomLogic.ShootScoresKills | src/apps/Gloom/gameLogic.ts:31-41 | the score is 100 times the number of enemies that start exploding |
| GloomLogic.ShotRosterKeepsOk | src/apps/Gloom/gameLogic.ts:13-39 | shooting keeps every enemy within the roster invariant and the score non-negative |
| GloomLogic.Fire | src/apps/Gloom/gameLogic.ts:72-81 | the fire test and its draws are FireStep; a shot is appended to the projectiles |
| GloomLogic.Wander | src/apps/Gloom/gameLogic.ts:83-85 | the random turn and its draws are WanderStep |
| GloomLogic.Move | src/apps/Gloom/gameLogic.ts:87-102 | the move-or-turn and its draw are MoveStep |
| GloomLogic.Act | src/apps/Gloom/gameLogic.ts:72-102 | fire, wander and move in that order are ActStep; the projectiles gain its shot |
| GloomLogic.TickEnemy | src/apps/Gloom/gameLogic.ts:51-102 | one loop iteration is StepEnemy: the enemy kept or spliced out, its shot pushed, the cache and draws advanced |
| GloomLogic.TickLiving | src/apps/Gloom/gameLogic.ts:61-102 | the iteration for an enemy that is not exploding is LivingStep |
| GloomLogic.UpdateEnemies | src/apps/Gloom/gameLogic.ts:44-104 | the backward loop with splicing leaves the roster as EnemiesTick's survivors, appends its shots in push order, and advances the cache and draws as it says |
| GloomLogic.StepEnemyRules | src/apps/Gloom/gameLogic.ts:53-102 | an exploding enemy ages one frame, and is removed exactly when its explosion has finished. A live enemy keeps its health, uses 1 to 5 draws, and moves only onto walkable tiles. It fires only within range 6, with the player in its cached line of sight and cooldown at most 1, from its own position at speed 0.04, and then reloads to 300 |
| GloomLogic.EnemiesTickKeepsOrder | src/apps/Gloom/gameLogic.ts:50-58 | the survivors are the old enemies that were not finished, in their old order |
| GloomLogic.EnemiesTickKeepsOk | src/apps/Gloom/gameLogic.ts:44-104 | every survivor and every new projectile is within its invariant; at most one shot per enemy |
| GloomLogic.FlyProjectile | src/apps/Gloom/gameLogic.ts:116-153 | one projectile's flight, hit and damage is StepProjectile |
| GloomLogic.UpdateProjectiles | src/apps/Gloom/gameLogic.ts:106-157 | the backward loop leaves ProjectilesTick's survivors and vitals, and returns its damaged and game-over flags |
| GloomLogic.ProjectilesTickIsFilter | src/apps/Gloom/gameLogic.ts:115-154 | the survivors are the projectiles still in flight, in order; the vitals take one hit per projectile that reached the player |
| GloomLogic.ProjectilesTickKeepsOk | src/apps/Gloom/gameLogic.ts:106-157 | survivors stay within their invariant. `damaged` iff some projectile hit. Game over iff damaged and health is 0. Armor and health only fall, and stay non-negative |
| GloomLogic.FlyingIsOk | src/apps/Gloom/gameLogic.ts:121-130 | projectiles still in flight are on open tiles |
| GloomLogic.CheckEnemyCollision | src/apps/Gloom/gameLogic.ts:159-216 | position, vitals, flags and collision time are those of Collision |
| GloomLogic.CollideContract | src/apps/Gloom/gameLogic.ts:173-213 | inside the one-second cooldown nothing changes. Otherwise the vitals take one hit per touching enemy, and the time becomes `now` exactly when something touched. The player only moves onto walkable ground |
| GloomLogic.CollisionDebounce | src/apps/Gloom/gameLogic.ts:180-191 | after a damaging contact, no contact within the next 1000 ms does anything |
| GloomLogic.ResetStartsRound | src/apps/Gloom/gameLogic.ts:218-242 | the reset record starts a fresh round: full health, no armor, score 0, the player on an open tile, three fresh enemies, no projectiles, `armorDropTime` now |
| GloomGame.ToLower | src/apps/Gloom/Gloom.tsx:60 | lower-casing keeps the length, maps each ASCII capital to its lower-case letter (code + 32), leaves every other character alone, and leaves no capital |
| GloomGame.ToLowerIdempotent | src/apps/Gloom/Gloom.tsx:60 | lower-casing twice is lower-casing once |
| GloomGame.ToLowerFixes | src/apps/Gloom/Gloom.tsx:60 | a key already in lower case is unchanged |
| GloomGame.StepStaysOnMap | src/apps/Gloom/Gloom.tsx:175-190 | a step from an open tile stays inside the map, so the tile lookup is always defined |
| GloomGame.TryStepStaysOpen | src/apps/Gloom/Gloom.tsx:175-190 | a movement step ends on an open tile, and it either stays put or moves exactly MOVE_SPEED along (or against) the heading |
| GloomGame.AssignReset | src/apps/Gloom/Gloom.tsx:85 | `Object.assign` copies every reset field and leaves `gameStarted` alone |
| GloomGame.Gloom.constructor | src/apps/Gloom/Gloom.tsx:36-57 | the mount builds a valid view: the state record, a copy of the initial roster, no projectiles, an inactive pickup at (4, 4), no keys, fire unlatched |
| GloomGame.Gloom.HandleKeyDown | src/apps/Gloom/Gloom.tsx:59-91 | the key is recorded as held. The fire key latches and shoots only on a fresh press during a round; it never touches the projectiles, the pickup, the player's position, heading or vitals, or the round flags. Enter starts the game, restarts it once it is over, and does nothing else during a round. Any other key changes nothing else. The view stays valid |
| GloomGame.Gloom.Fire | src/apps/Gloom/Gloom.tsx:67-72 | the roster is ShotRoster, the score grows by ShotScore, recoil 10 and muzzle flash 5 |
| GloomGame.Gloom.PressEnter | src/apps/Gloom/Gloom.tsx:75-90 | Enter before the start starts the round with the drop timer at `now`; after game over it restarts; during a round it does nothing |
| GloomGame.Gloom.Restart | src/apps/Gloom/Gloom.tsx:80-89 | the restart puts back every field resetGame gives, keeps the game started, deactivates the pickup and unlatches fire |
| GloomGame.Gloom.HandleKeyUp | src/apps/Gloom/Gloom.tsx:93-99 | the key is recorded as released; releasing the fire key unlatches it |
| GloomGame.Gloom.Render | src/apps/Gloom/Gloom.tsx:125-132 | screen flash, recoil and muzzle flash each fall by one while positive |
| GloomGame.Gloom.GameLoop | src/apps/Gloom/Gloom.tsx:147-231 | a frame keeps the view valid. Outside a round it leaves the enemies, projectiles, draws, pickup, fire latch, position, health and game-over flag alone, and the model's line-of-sight cache too, which only enemy updates advance here (the drawing's own line-of-sight calls are not modelled). A game over stays over, and a new game over unlatches fire. The score and the started flag are never changed |
| GloomGame.Gloom.Simulate | src/apps/Gloom/Gloom.tsx:158-227 | the simulated part of a frame keeps the view valid and the game started |
| GloomGame.Gloom.DropArmor | src/apps/Gloom/Gloom.tsx:159-173 | the pickup appears once, 15 s after the start, and is collected within 0.5, adding 50 armor capped at 100 |
| GloomGame.Gloom.MovePlayer | src/apps/Gloom/Gloom.tsx:175-196 | W/up then S/down step along the heading onto open tiles only (Walk); A/left and D/right turn by ROT_SPEED (Turned) |
| GloomGame.Gloom.Turn | src/apps/Gloom/Gloom.tsx:191-196 | the heading after the turn keys is Turned |
| GloomGame.Gloom.StepPlayer | src/apps/Gloom/Gloom.tsx:175-190 | one movement key moves the player as TryStep says and keeps the view valid |
| GloomGame.Gloom.AdvanceWorld | src/apps/Gloom/Gloom.tsx:198-226 | enemies, projectiles, contact and the end-of-round test keep the view valid and the score; a game over unlatches fire |
| GloomGame.Gloom.Strike | src/apps/Gloom/Gloom.tsx:200-226 | projectiles, contact and the end-of-round test keep the view valid and the score; a game over unlatches fire |
| GloomGame.Gloom.Touch | src/apps/Gloom/Gloom.tsx:207-226 | contact and the end-of-round test keep the view valid; a game over stays over; the latch is only ever released, and is released by a new game over |
| GloomGame.Gloom.MoveEnemies | src/apps/Gloom/Gloom.tsx:198 | the roster becomes EnemiesTick's survivors, the projectiles gain its shots in push order, and the cache, frame counter and draw count become its context; every invariant is kept |
| GloomGame.Gloom.FlyProjectiles | src/apps/Gloom/Gloom.tsx:200-205 | the projectiles become ProjectilesTick's survivors and the armor and health its vitals. The screen flashes (10) exactly when a projectile hit. The game is over exactly when one did and health reached 0, and then fire is unlatched |
| GloomGame.Gloom.Collide | src/apps/Gloom/Gloom.tsx:207-221 | position, vitals and collision time become those of Collision. The screen flashes (10) exactly when contact damaged. The game is over if it was or contact ended it, and a new game over unlatches fire. Vitals stay in range, the player stays on an open tile, and health only falls |
| DrawColor.ColorsMatchIgnoresAlpha | src/apps/Draw/Draw.tsx:208-210 | two colours match exactly when their red, green and blue agree; alpha is ignored |
| DrawColor.HexValue | src/apps/Draw/Draw.tsx:202-204 | a hex digit, in either case, is worth 0..15 |
| DrawColor.ParsePair | src/apps/Draw/Draw.tsx:202-204 | two hex digits make a channel in 0..255 |
| DrawColor.HexToRgbAccepts | src/apps/Draw/Draw.tsx:199-206 | six hex digits, with or without a leading `#`, are the body parsed pair by pair; anything else gives black; every channel is in 0..255 |
| DrawColor.HexToRgbCaseInsensitive | src/apps/Draw/Draw.tsx:200 | strings that differ only in the case of hex digits parse to the same colour |
| DrawColor.CaseVariantValue | src/apps/Draw/Draw.tsx:200 | under the pattern's `i` flag two characters equal up to ASCII case are both hex digits of the same value, or neither is a hex digit |
| DrawColor.HexToRgbIgnoresCase | src/apps/Draw/Draw.tsx:199-206 | strings equal up to ASCII case parse to the same colour, whether or not they match the pattern |
| DrawColor.HexDigit | src/apps/Draw/Draw.tsx:139 | the digit written for 0..15 is a lower-case hex digit of that value |
| DrawColor.ToHexString | src/apps/Draw/Draw.tsx:139 | `toString(16)` writes lower-case hex digits that denote n, with no leading zero except for n = 0 itself |
| DrawColor.HexStringOfNumber | src/apps/Draw/Draw.tsx:139 | the converse: a lower-case hex string without a leading zero is what `toString(16)` writes for the number it denotes |
| DrawColor.SevenDigits | src/apps/Draw/Draw.tsx:139 | 2^24 + r*2^16 + g*2^8 + b is written as "1" followed by two digits for each of r, g and b |
| DrawColor.EyedropperRoundTrip | src/apps/Draw/Draw.tsx:131-141 | the picked colour is `#` and six lower-case hex digits, and `hexToRgb` reads back exactly (r, g, b) |
| DrawCanvas.PixelGroup | src/apps/Draw/Draw.tsx:186-197 | for a pixel on the canvas its four bytes lie in the buffer, and a byte belongs to it exactly when the byte's pixel is that pixel; the byte's channel is its index mod 4 |
| DrawCanvas.PixelGroupsDisjoint | src/apps/Draw/Draw.tsx:191-197 | two distinct pixels on the canvas share no byte |
| DrawCanvas.GetPixelColor | src/apps/Draw/Draw.tsx:186-189 | a colour comes back exactly when all four bytes of the pixel are in the buffer |
| DrawCanvas.InCanvasIsReadable | src/apps/Draw/Draw.tsx:169-171 | every pixel that passes the bounds check can be read |
| DrawCanvas.Clamp | src/apps/Draw/Draw.tsx:193-196 | a store into the clamped byte array keeps 0..255 and saturates outside it |
| DrawCanvas.Written | src/apps/Draw/Draw.tsx:191-197 | the buffer after a pixel write: same length, byte by byte the written channel or the old byte |
| DrawCanvas.SetPixelColor | src/apps/Draw/Draw.tsx:191-197 | the four guarded stores leave the array equal to Written: r, g, b clamped and alpha 255 at the pixel's bytes, everything else unchanged |
| DrawCanvas.Matching | src/apps/Draw/Draw.tsx:169-172 | the region is exactly the on-canvas pixels whose colour matches the target |
| DrawCanvas.RecolouredIsRegion | src/apps/Draw/Draw.tsx:163-181 | a recoloured pixel matches the target, the target differs from the fill, the start is recoloured, and every matching neighbour of a recoloured pixel is recoloured |
| DrawCanvas.RecolouredIsConnected | src/apps/Draw/Draw.tsx:155-172 | when the fill does not return early, a pixel is recoloured exactly when a 4-connected path of matching pixels joins it to the start |
| DrawCanvas.FrontierStart | src/apps/Draw/Draw.tsx:160-161 | the search invariant holds with only the start point on the stack and nothing visited |
| DrawCanvas.FrontierSkip | src/apps/Draw/Draw.tsx:164-172 | popping a visited point, or one outside the region, keeps the search invariant |
| DrawCanvas.FrontierVisit | src/apps/Draw/Draw.tsx:174-180 | painting the popped pixel and pushing its four neighbours keeps the search invariant |
| DrawCanvas.FrontierDone | src/apps/Draw/Draw.tsx:163 | when the stack is empty, every pixel connected to the start has been visited |
| DrawCanvas.FillStep | src/apps/Draw/Draw.tsx:164-180 | one pop skips a visited, off-canvas or non-matching point, or paints it; the search invariant holds and the measure falls |
| DrawCanvas.Visit | src/apps/Draw/Draw.tsx:174-180 | the point joins the visited set, its pixel is painted, and its right, left, down and up neighbours are pushed in that order |
| DrawCanvas.FloodFill | src/apps/Draw/Draw.tsx:148-184 | every byte of a recoloured pixel takes the fill's channel (alpha 255), and every other byte is unchanged. An off-canvas start, or a target already matching the fill, changes nothing |
| DrawMenu.ToggleMenu | src/apps/Draw/Draw.tsx:238-240 | the result is the menu exactly when it was not the open one, and no menu otherwise |
| DrawMenu.ToggleTwice | src/apps/Draw/Draw.tsx:238-240 | toggling twice restores a closed or same-menu state, and closes a different open menu |
| InstalledApps.Entry | src/contexts/InstalledAppsContext.tsx:24-36 | the catalogue record of an id carries that id |
| InstalledApps.CatalogueOrder | src/contexts/InstalledAppsContext.tsx:24-36 | eleven records in desktop order, each its id's record |
| InstalledApps.CatalogueDistinct | src/contexts/InstalledAppsContext.tsx:24-36 | no id appears twice in the catalogue |
| InstalledApps.CatalogueEntries | src/contexts/InstalledAppsContext.tsx:24-36 | a record is in the catalogue exactly when it is its own id's record |
| InstalledApps.InitialListWellFormed | src/contexts/InstalledAppsContext.tsx:48 | the initial list is the whole catalogue: duplicate-free, and every app installed |
| InstalledApps.IsAppInstalled | src/contexts/InstalledAppsContext.tsx:50-52 | true exactly when some app in the list has the id |
| InstalledApps.UninstallApp | src/contexts/InstalledAppsContext.tsx:54-56 | the filter keeps exactly the apps with another id and never grows the list |
| InstalledApps.FindApp | src/contexts/InstalledAppsContext.tsx:59 | `find` returns the first app with the id, or nothing when there is none |
| InstalledApps.CatalogueEntry | src/contexts/InstalledAppsContext.tsx:59 | the catalogue lookup always finds the id's record |
| InstalledApps.UninstallRemoves | src/contexts/InstalledAppsContext.tsx:54-56 | afterwards the id is not installed and every other id is installed exactly as before |
| InstalledApps.UninstallKeepsOrder | src/contexts/InstalledAppsContext.tsx:55 | the filter distributes over concatenation, so the other apps keep their order |
| InstalledApps.UninstallAbsent | src/contexts/InstalledAppsContext.tsx:55 | uninstalling an id that is not installed changes nothing |
| InstalledApps.UninstallIdempotent | src/contexts/InstalledAppsContext.tsx:54-56 | uninstalling twice is uninstalling once |
| InstalledApps.ReinstallEffect | src/contexts/InstalledAppsContext.tsx:58-63 | an installed id leaves the list unchanged; otherwise the id's catalogue record is appended; either way the id is installed afterwards |
| InstalledApps.ReinstallKeepsOthers | src/contexts/InstalledAppsContext.tsx:58-63 | every other id is installed exactly as before |
| InstalledApps.UninstallPreservesWellFormed | src/contexts/InstalledAppsContext.tsx:54-56 | uninstalling keeps the list a duplicate-free list of catalogue records |
| InstalledApps.ReinstallPreservesWellFormed | src/contexts/InstalledAppsContext.tsx:58-63 | reinstalling keeps the list a duplicate-free list of catalogue records |
| InstalledApps.UninstallThenReinstall | src/contexts/InstalledAppsContext.tsx:54-63 | uninstalling then reinstalling puts the catalogue record back at the end, after the other apps in their old order |

## Left out

- Rendering: `rendering.ts`, the canvas drawing in `render` and all of the Draw UI. Only the counters `render` decrements are modelled.
- Floating point: numbers are exact reals. `Math.sqrt`, `Math.atan2`, `Math.cos` and `Math.sin` are an uninterpreted oracle; only the [-1, 1] range of `cos` and `sin` is assumed.
- The 60 fps throttle, `requestAnimationFrame`, `performance.now`, the `setTimeout` loading flag and the event-listener registration are left out. `GameLoop` models one frame that the throttle lets through.
- `e.preventDefault()` is a browser side effect and is not modelled.
- GloomUtils.ToFixed1: rounds half up on the magnitude and keeps the sign, so `-0.0` and `0.0` give different keys as in JavaScript. It does not model exponent notation for magnitudes of 1e21 and above (no such coordinate exists on the 8 x 8 map).
- GloomGame.ToLower: lower-cases ASCII capitals only. `toLowerCase` also folds other Unicode capitals; the only keys compared are ASCII.
- The line-of-sight cache in `utils.ts` is module-level state shared by every mounted Gloom view. Here each view owns one `LineOfSightCache`.
- `render` also calls `checkLineOfSight` on every frame and in every state, for each nearby enemy in view and for the armor pickup (`rendering.ts`, renderEnemies and renderArmorPickup). Those calls advance the cache's frame counter and fill the cache, so in the program the moment the counter wraps, and which rounded answers enemies later read from the cache, depend on drawing too. The model advances the cache only in enemy updates.
- `gameLoop` reads `Date.now()` for the armor drop and `checkEnemyCollision` reads it again; both are the one `now` of a frame here.
- GloomGame.Gloom.AdvanceWorld: states only the invariants, the score and the fire latch. The exact effect of each phase is the contract of MoveEnemies, FlyProjectiles and Collide. The end-of-round test is stated only through the round invariant: the game is over exactly when health is 0 or no enemy is left.
- GloomGame.Gloom.Strike: states only the invariants, the score and the fire latch. Its phases are FlyProjectiles, whose contract is exact, and Touch.
- GloomGame.Gloom.Touch: states only the invariants and the fire latch. Contact's exact effect is the contract of Collide. The test that ends the round once no enemy is left is stated only through the round invariant.
- GloomGame.Gloom.Simulate: states only the invariants and the latch. Its phases DropArmor and MovePlayer have exact contracts; AdvanceWorld's is stated through its own phases, as above.
- GloomGame.Gloom.GameLoop: states only the invariants, the latch and the frame outside a round. A frame's simulation is given by Simulate's phases.
- React state: `uninstallApp` and `reinstallApp` go through `setInstalledApps`. `reinstallApp` tests `isAppInstalled` on the list of the current render, and Draw's `toggleMenu` reads `showMenu` from its closure. The model applies each update to one current value, so a second update queued within the same render is not modelled.
- Draw: `getImageData` and `putImageData` copy the canvas into and out of a buffer; the model works on that buffer.
- Draw: the spray, pencil, shape, text, save and mouse-position code are not part of this model.
- DrawCanvas.FloodFill: the `visited` set of `"x,y"` strings is a set of integer pairs. The two are equivalent because the key is a bijection on integer pairs.
- DrawCanvas.FloodFill requires the buffer to hold exactly `4 * width * height` bytes, which `getImageData` on the whole canvas guarantees.
- DrawCanvas.GetPixelColor: returns no colour when any of the pixel's four bytes is outside the buffer. TypeScript returns a record whose out-of-range channels are `undefined`, and such a record never matches a colour.
- `normalizeAngle` maps into [-pi, pi] (both ends possible: -pi is kept), which GloomUtils.NormalizedAngle follows. A description of it as (-pi, pi] does not match the loops.
- `updateProjectiles` removes every projectile that reaches the player in a frame, and each one deals damage. Several hits per frame are possible and the model keeps them all.
- `useInstalledApps` and the React context plumbing only pass these functions on; they are not modelled.
