# Word-platformer gameplay core, in Dafny

This project models the gameplay core of `game.js`, a Phaser side-scroller
for early readers. A spoken target word names one of three word blocks. The
player jumps into that block from below to open the next level segment.
Patrolling enemies restart the game, and coins raise the score.

The model has four modules, each in its own file:

- `levels.dfy` (`Levels`): the ten-entry level table and the lookup modulo
  its length. It also holds the `hitBlock` decision (ignored, advance or
  smash) and the per-block state: untouched, cleared, or smashed with its
  label hidden.
- `layout.dfy` (`Layout`): the placement loops of `spawnLevel`, as methods
  with loop invariants. They cover the floor, the three hop platforms, the
  `min(index, 4)` ascending platforms, the platform and ground coins, the
  enemies and the three word blocks. `LayoutOf` states the whole segment as
  a predicate, and lemmas derive the geometric promises from it.
- `enemies.dfy` (`Enemies`): the enemy block of `update`. This is the
  bounded respawn search (at most 50 candidates, 150 pixels apart, starting
  900 pixels past the camera's left edge) and the patrol turn at the anchor
  ± 200.
- `game.dfy` (`Game`): the class `Scene`. Its fields are the global level
  and score, the right edge of the world, and the engine groups, held as
  sequences. Its methods are `create`, `spawnLevel`, `hitBlock`,
  `hitEnemy`, `collectCoin` and the per-frame enemy update.

The scene keeps the invariant `Consistent`:
- the last three blocks carry the current level's words;
- the current level's correct block can still be struck;
- every other block that can still be struck carries a word that is no
  level's target.

From this, `HitBlock` proves that a success can only come from the current
level's correct block, and that the invariant survives both smashing and
advancing.

The random draws of `Phaser.Math.Between` are parameters (`Draws`), each
constrained to the inclusive range it is drawn from. The engine's collision
flag (struck from below), the camera scroll and the path image's height are
parameters too.

Words are numbered (`type Word = nat`, with one named constant per spelling:
`CAT`, `BAT`, ...). The game only compares words for equality. Equal
spellings get equal numbers, so the comparison is the same test.
`IsTarget` lists the ten target words explicitly. `TargetsOfTable` proves
that this list is exactly the set of the table's targets.

## Model

| member | source | states |
|---|---|---|
| Levels.TableWellFormed | game.js:44-55 | Every entry of the table has three options, and the target occurs among them exactly once. |
| Levels.LevelDataWellFormed | game.js:505 | The entry looked up for any level index, modulo the table length, is well formed. |
| Levels.LevelData | game.js:505 | The lookup for any index yields an entry with three options. |
| Levels.LevelDataPeriodic | game.js:545 | Level indices ten apart look up the same entry. |
| Levels.CorrectSlot | game.js:515-522 | There is a position below 3 whose option is the level's target, and no other position holds the target. |
| Levels.TargetsOfTable | game.js:44-55 | A word is in the target list exactly when some table entry names it as its target. |
| Levels.LevelTargetIsTarget | game.js:545 | The target of every level index is in the target list. |
| Levels.DecoyIsNoTarget | game.js:44-55 | An option that is not its own level's target is not the target of any level. |
| Levels.BlockOutcome | game.js:541-556 | A strike is ignored exactly when it is not from below. It advances exactly when it is from below and the word is the current entry's target, and then the next level is `currentLevel + 1`. Every other strike from below smashes the block. |
| Levels.OneBlockAdvances | game.js:545-554 | Of a level's three options, a strike from below advances on exactly the one at `CorrectSlot`. |
| Levels.FirstLevelMiddleBlock | game.js:45 | In level 0 the correct block is the middle one, carrying CAT. |
| Levels.Struck | game.js:547-566 | A strike keeps the block's position and word. An ignored strike changes nothing. Advancing disables the block and keeps its label. Smashing disables it and hides its label. |
| Enemies.FindRespawnX | game.js:307-322 | The search makes between 1 and 50 passes. A safe result is the first candidate with no conflict, and it is at least 400 pixels from every other enemy. Every earlier candidate conflicts. An unsafe result comes only after 50 conflicting passes and is the unchecked 51st candidate. |
| Enemies.PatrolVelocity | game.js:333-340 | Left of anchor − 200 the velocity is not negative, and right of anchor + 200 it is not positive. It changes only when moving left past anchor − 200 (becomes 30) or moving right past anchor + 200 (becomes −30). A speed of 30 stays 30. |
| Enemies.UpdateEnemy | game.js:304-341 | Respawn happens exactly when the enemy is more than 100 pixels behind the camera, with anchor equal to the new x and velocity −30. A safe respawn lands on the first of the 50 candidates 900 + 150k ahead that conflicts with no other enemy, and is 400 pixels from the others. An unsafe one happens only when all 50 candidates conflict, and lands on the unchecked 51st. Otherwise the enemy keeps its place and takes the patrol velocity. |
| Enemies.LoneEnemyRespawnsFirst | game.js:307-322 | A lone enemy that falls behind always respawns safely on the first candidate, 900 pixels past the camera's left edge. |
| Enemies.SafeApartStep | game.js:307-322 | One more enemy's turn keeps every safe respawn 400 pixels from the others, except from enemies that later gave up their search. |
| Enemies.FramePrefixStep | game.js:300-342 | One more enemy's turn extends the frame: the earlier enemies keep their results, each still stated against the positions it saw on its turn, and the later ones are untouched. |
| Layout.FloorHeight | game.js:381 | The floor height is the image height, or exactly 50 when the image reports none. It is always positive. |
| Layout.NumPlatforms | game.js:424 | The number of ascending platforms is `min(index, 4)`. |
| Layout.NumEnemies | game.js:487-489 | There is 1 enemy below index 4 and 3 from index 7 on; otherwise there are 2. |
| Layout.CoinsOverPlatforms | game.js:411-415 | A coin sits 50 pixels above a platform exactly when that platform's roll was below 80, and there are no other platform coins. |
| Layout.PlaceHops | game.js:390-419 | There are three hops, each 120 by 40. The first is at `startX + 250`, each next one is the previous x plus its drawn step, and each y is its draw. The hop coins follow their rolls. |
| Layout.PlaceAscending | game.js:424-471 | The i-th platform is at `startX + 1000 + 250i`, `500 − 90i`, 200 wide. The last is 600 wide and centred 200 further right. Coins follow the rolls. The block anchor is `(startX + 1800, 350)` with no platforms, else the final platform's unshifted x and its y − 220. |
| Layout.PlaceGroundCoins | game.js:475-479 | There are three coins at `startX + 400 + 150i`, height 450. |
| Layout.PlaceEnemies | game.js:491-502 | Enemy i starts at `startX + 600 + 400i`, with its anchor at the same x and velocity −30. The count is `NumEnemies(index)`. |
| Layout.PlaceBlocks | game.js:515-535 | Block i is at the anchor x + 200i and the anchor y, carries option i of the level, and starts untouched. There are exactly three. |
| Layout.BuildLayout | game.js:366-536 | The segment starts at `index * 2400` and the world grows to `startX + 2400`. The floor runs from `startX` to `startX + 3000`, with its top at 600 − height. Everything else is placed as the `Place*` methods state. |
| Layout.HopBounds | game.js:390-419 | The first hop is at height 450 to 480 and the others at 350 to 480. Consecutive hops are 120 to 160 apart. |
| Layout.PlatformsInSegment | game.js:383-470 | The floor starts at the segment's start and reaches past its end. Every hop and ascending platform lies strictly inside the segment. |
| Layout.ObjectsInSegment | game.js:412-534 | Every coin, enemy and word block lies strictly inside the segment. |
| Layout.BlocksOverLastPlatform | game.js:436-464 | With ascending platforms, all three blocks lie above the final platform and within its width. |
| Layout.SpawnedEnemiesSeparated | game.js:491-494 | Freshly placed enemies are at least 400 pixels apart, as far apart as a safe respawn keeps them. |
| Layout.OneCorrectBlock | game.js:515-522 | Of the segment's three blocks, exactly the one at `CorrectSlot` carries the target. |
| Game.SpawnConsistent | game.js:505-535 | Appending a new segment's blocks to blocks whose enabled words are all decoys gives a consistent scene for the new level. |
| Game.SmashConsistent | game.js:556-566 | Smashing a block whose word is not the current target keeps the scene consistent. |
| Game.AdvanceLeavesDecoys | game.js:545-554 | An enabled block carrying the current target is the current level's correct block. Once it is cleared, every enabled block is a decoy. |
| Game.Scene.constructor | game.js:91-93 | A new scene is consistent, at level 0 with score 0. Its groups hold exactly some level-0 segment laid out from the draws, and the world edge is that segment's end. |
| Game.Scene.Create | game.js:91-265 | The score becomes 0, the level becomes 0 and the scene is consistent. The groups hold exactly the level-0 segment, and the world edge is that segment's end. |
| Game.Scene.SpawnLevel | game.js:366-536 | The level becomes `index`, the world edge becomes the segment's end, and the scene is consistent. Each group gains exactly the segment's objects, appended. |
| Game.Scene.HitBlock | game.js:539-590 | The outcome is `BlockOutcome`. An ignored strike changes nothing. A smash only smashes that block. An advance happens only on the current correct block: it clears the block, moves to the next level, keeps the score and adds 2400 pixels of world. Each group gains exactly the next level's segment, appended after the struck block's update. Consistency is preserved in every case. |
| Game.Scene.HitEnemy | game.js:593-602 | The restart leaves a consistent scene at level 0 with score 0. Every group holds exactly the fresh level-0 segment, and the world edge is that segment's end. |
| Game.Scene.CollectCoin | game.js:606-611 | That coin is removed, the others keep their order, and the score rises by exactly 1. |
| Game.Scene.UpdateEnemies | game.js:300-342 | Every enemy takes its turn in order. An enemy respawns exactly when it was more than 100 pixels behind the camera, with its anchor at its new x and velocity −30. It lands on the first clear candidate, or on the 51st after 50 conflicts, judged against the positions the enemies had at its turn. Every other enemy takes its patrol velocity. At the end of the frame, each safe respawn is 400 pixels from every other enemy, except from those whose search gave up later in the frame. |

## Left out

- Phaser engine work is not modelled: sprites, textures, physics bodies, colliders, camera follow, tints and animations. The collision test "struck from below" is a boolean parameter of `HitBlock`. The enemy group's order is the sequence order.
- Parallax scrolling and the coin flee and rotation in `update` are not modelled. They use floating-point multipliers and Euclidean distances.
- Timers, tweens and particle bursts are not modelled. In particular, the fade-out and destruction of a smashed block two seconds later is left out, so smashed blocks stay in `blocks`. The delay before `hitEnemy`'s restart and its physics pause are left out too.
- `speak` and `playCoinSound` are browser speech and audio wrappers and are not modelled. So are the on-screen buttons, the jump impulses and all of `ui.js`.
- The random number source is not modelled. Each `Phaser.Math.Between` draw is an argument constrained to its inclusive range.
- Positions are integers. The engine works in floating point, and the camera scroll and enemy positions become fractional once bodies move by velocity × frame time. The model takes the camera scroll and the enemy positions as integers. The respawn and patrol tests and the 150-pixel candidate steps are linear in them, so nothing else changes. The floor's centre height `600 − fgHeight / 2` is stated by the floor's edges.
- Enemies' vertical position, gravity and world-bounds clamping are not modelled, and neither are coins falling and rolling. Positions are the ones at creation or respawn.
- Scene.Create: the initial `setBounds(0, 0, 3000, 600)` of `create` is immediately overwritten by `spawnLevel(0)`, so the model only keeps the final bound. Create performs `spawnLevel(0)`'s updates on the freshly emptied groups directly rather than calling `SpawnLevel`.
- Scene.HitBlock: requires the struck block to be enabled, because the engine delivers collisions only to enabled bodies.
- Scene.UpdateEnemies: gives no separation guarantee for an enemy whose 50-candidate search gave up. The source does not guarantee one either.
- Words are numbered rather than spelt (see above). Text labels are represented only by the block state's `LabelVisible`.
