/**
 The layout of one level segment. Level `index` occupies the stretch of world
 that starts at `index * 2400`; the generator places its floor, three hop
 platforms, `min(index, 4)` ascending platforms, coins, enemies and the three
 word blocks. The random draws of the generator are parameters here, each
 constrained to the inclusive range it is drawn from.
 */
module Layout {
  import opened Levels
  import opened Enemies

  /** A static platform, by its centre and size. */
  datatype Platform = Platform(x: int, y: int, width: int, height: int)

  /**
   The invisible floor rectangle, by its edges. The source places it by its
   centre, `(startX + 1500, 600 - height / 2)`, with width 3000: so it runs
   from `startX` to `startX + 3000` and from `600 - height` down to the bottom
   of the screen at 600.
   */
  datatype Floor = Floor(left: int, right: int, top: int, bottom: int)

  datatype Coin = Coin(x: int, y: int)

  /**
   The random draws one call of the generator consumes, in the order the
   loops draw them: a height, a coin roll and an x step per hop platform, and
   a coin roll per ascending platform.
   */
  datatype Draws = Draws(hopY: seq<int>, hopCoin: seq<int>, hopStep: seq<int>, platCoin: seq<int>)

  /** Everything one segment adds to the world. */
  datatype Layout = Layout(
    startX: int,
    worldMaxX: int,
    floor: Floor,
    hops: seq<Platform>,
    platforms: seq<Platform>,
    coins: seq<Coin>,
    enemies: seq<Enemy>,
    blocks: seq<WordBlock>)

  const SegmentWidth: int := 2400
  const FloorWidth: int := 3000
  const ScreenHeight: int := 600
  /** A coin is placed on a platform when its roll in [0, 100] is below this. */
  const CoinChance: int := 80

  /** The floor height: the path image's height, or 50 when the image reports none. */
  function FloorHeight(imageHeight: nat): (h: nat)
    ensures h > 0
    ensures imageHeight > 0 ==> h == imageHeight
    ensures imageHeight == 0 ==> h == 50
  {
    if imageHeight == 0 then 50 else imageHeight
  }

  /** The number of ascending platforms: one per level index, at most four. */
  function NumPlatforms(index: nat): (n: nat)
    ensures n <= index && n <= 4
    ensures n == index || n == 4
  {
    if index < 4 then index else 4
  }

  /** The number of enemies: one, two from index 4 on, three from index 7 on. */
  function NumEnemies(index: nat): (n: nat)
    ensures 1 <= n <= 3
    ensures n == 1 <==> index < 4
    ensures n == 3 <==> index >= 7
  {
    if index >= 7 then 3 else if index >= 4 then 2 else 1
  }

  predicate AllIn(s: seq<int>, lo: int, hi: int)
  {
    forall i | 0 <= i < |s| :: lo <= s[i] <= hi
  }

  /** The draws are the ones `Phaser.Math.Between` can return for level `index`. */
  predicate ValidDraws(index: nat, d: Draws)
  {
    && |d.hopY| == 3 && 450 <= d.hopY[0] <= 480 && AllIn(d.hopY[1..], 350, 480)
    && |d.hopCoin| == 3 && AllIn(d.hopCoin, 0, 100)
    && |d.hopStep| == 3 && AllIn(d.hopStep, 120, 160)
    && |d.platCoin| == NumPlatforms(index) && AllIn(d.platCoin, 0, 100)
  }

  /** The coin placed on a platform: 50 pixels above its centre. */
  function CoinAbove(p: Platform): Coin
  {
    Coin(p.x, p.y - 50)
  }

  /**
   The coins placed on platforms `ps` with the rolls `rolls`: one above each
   platform whose roll is below 80, in platform order.
   */
  function CoinsOver(ps: seq<Platform>, rolls: seq<int>): (cs: seq<Coin>)
    requires |ps| == |rolls|
    ensures |cs| <= |ps|
  {
    if ps == [] then []
    else
      var n := |ps| - 1;
      CoinsOver(ps[..n], rolls[..n]) + (if rolls[n] < CoinChance then [CoinAbove(ps[n])] else [])
  }

  /** A coin sits above a platform exactly when that platform's roll was below 80. */
  lemma {:induction false} CoinsOverPlatforms(ps: seq<Platform>, rolls: seq<int>)
    requires |ps| == |rolls|
    ensures forall c | c in CoinsOver(ps, rolls) ::
              exists k | 0 <= k < |ps| :: rolls[k] < CoinChance && c == CoinAbove(ps[k])
    ensures forall k | 0 <= k < |ps| && rolls[k] < CoinChance :: CoinAbove(ps[k]) in CoinsOver(ps, rolls)
  {
    if ps != [] {
      var n := |ps| - 1;
      CoinsOverPlatforms(ps[..n], rolls[..n]);
      assert forall k | 0 <= k < n :: ps[..n][k] == ps[k] && rolls[..n][k] == rolls[k];
    }
  }

  /** Placing one more platform adds its coin, if its roll wins, at the end. */
  lemma CoinsOverSnoc(ps: seq<Platform>, rolls: seq<int>, p: Platform, r: int)
    requires |ps| == |rolls|
    ensures CoinsOver(ps + [p], rolls + [r]) == CoinsOver(ps, rolls) + (if r < CoinChance then [CoinAbove(p)] else [])
  {
    assert (ps + [p])[..|ps|] == ps && (rolls + [r])[..|rolls|] == rolls;
  }

  /** The three coins dropped onto the ground at the start of the segment. */
  function GroundCoins(startX: int): (cs: seq<Coin>)
  {
    [Coin(startX + 400, 450), Coin(startX + 550, 450), Coin(startX + 700, 450)]
  }

  /** The `i`-th of `n` ascending platforms: the last is wider and shifted right by 200. */
  function AscendingPlatform(startX: int, i: nat, n: nat): Platform
  {
    var platX := startX + 1000 + 250 * i;
    var platY := 500 - 90 * i;
    if i == n - 1 then Platform(platX + 200, platY, 600, 40) else Platform(platX, platY, 200, 40)
  }

  ghost predicate HopsPlaced(startX: int, d: Draws, hops: seq<Platform>)
    requires |d.hopY| == 3 && |d.hopStep| == 3
  {
    && |hops| == 3
    && hops[0].x == startX + 250
    && hops[1].x == hops[0].x + d.hopStep[0]
    && hops[2].x == hops[1].x + d.hopStep[1]
    && (forall i | 0 <= i < 3 :: hops[i].y == d.hopY[i] && hops[i].width == 120 && hops[i].height == 40)
  }

  ghost predicate PlatformsPlaced(index: nat, startX: int, platforms: seq<Platform>)
  {
    && |platforms| == NumPlatforms(index)
    && forall i | 0 <= i < |platforms| :: platforms[i] == AscendingPlatform(startX, i, |platforms|)
  }

  /**
   Where the first word block goes: at height 350 from `startX + 1800` when
   there is no ascending platform, otherwise 220 above the last platform and
   200 left of its centre.
   */
  function BlockAnchor(startX: int, platforms: seq<Platform>): (int, int)
  {
    if |platforms| == 0 then (startX + 1800, 350)
    else
      var last := platforms[|platforms| - 1];
      (last.x - 200, last.y - 220)
  }

  /** The three word blocks, 200 pixels apart from the anchor, carrying the level's options in order. */
  ghost predicate BlocksPlaced(index: nat, startX: int, platforms: seq<Platform>, blocks: seq<WordBlock>)
  {
    var (baseX, baseY) := BlockAnchor(startX, platforms);
    && |blocks| == 3
    && forall i | 0 <= i < 3 :: blocks[i] == WordBlock(baseX + 200 * i, baseY, LevelData(index).options[i], Untouched)
  }

  ghost predicate EnemiesPlaced(index: nat, startX: int, enemies: seq<Enemy>)
  {
    && |enemies| == NumEnemies(index)
    && forall i | 0 <= i < |enemies| ::
         enemies[i] == Enemy(startX + 600 + 400 * i, startX + 600 + 400 * i, -PatrolSpeed)
  }

  /** `lay` is the segment the generator lays out for level `index` with the draws `d`. */
  ghost predicate LayoutOf(index: nat, imageHeight: nat, d: Draws, lay: Layout)
    requires ValidDraws(index, d)
  {
    && lay.startX == index * 2400
    && lay.worldMaxX == lay.startX + SegmentWidth
    && lay.floor == Floor(lay.startX, lay.startX + FloorWidth, ScreenHeight - FloorHeight(imageHeight), ScreenHeight)
    && HopsPlaced(lay.startX, d, lay.hops)
    && PlatformsPlaced(index, lay.startX, lay.platforms)
    && |lay.platforms| == |d.platCoin|
    && lay.coins == CoinsOver(lay.hops, d.hopCoin) + CoinsOver(lay.platforms, d.platCoin) + GroundCoins(lay.startX)
    && EnemiesPlaced(index, lay.startX, lay.enemies)
    && BlocksPlaced(index, lay.startX, lay.platforms, lay.blocks)
  }

  /** The horizontal centre `x` lies strictly inside the segment `lay` opens. */
  predicate InSegment(lay: Layout, x: int)
  {
    lay.startX < x < lay.worldMaxX
  }

  /** The hop-platform loop: three short platforms, each with its coin roll. */
  method PlaceHops(startX: int, d: Draws) returns (hops: seq<Platform>, coins: seq<Coin>)
    requires |d.hopY| == 3 && |d.hopCoin| == 3 && |d.hopStep| == 3
    ensures HopsPlaced(startX, d, hops)
    ensures coins == CoinsOver(hops, d.hopCoin)
  {
    coins := [];
    hops := [];
    var jumpX := startX + 250;
    for i := 0 to 3
      invariant |hops| == i
      invariant i > 0 ==> hops[0].x == startX + 250
      invariant jumpX == if i == 0 then startX + 250 else hops[i - 1].x + d.hopStep[i - 1]
      invariant forall k | 0 <= k < i - 1 :: hops[k + 1].x == hops[k].x + d.hopStep[k]
      invariant forall k | 0 <= k < i :: hops[k].y == d.hopY[k] && hops[k].width == 120 && hops[k].height == 40
      invariant coins == CoinsOver(hops, d.hopCoin[..i])
    {
      var jumpY := d.hopY[i];
      var p := Platform(jumpX, jumpY, 120, 40);
      assert d.hopCoin[..i + 1] == d.hopCoin[..i] + [d.hopCoin[i]];
      CoinsOverSnoc(hops, d.hopCoin[..i], p, d.hopCoin[i]);
      hops := hops + [p];
      if d.hopCoin[i] < CoinChance {
        coins := coins + [CoinAbove(p)];
      }
      jumpX := jumpX + d.hopStep[i];
    }
    assert d.hopCoin[..3] == d.hopCoin;
  }

  /**
   The ascending-platform loop, which also moves the word blocks' anchor
   (`blockXBase`, `blockY`) onto the last platform.
   */
  method PlaceAscending(index: nat, startX: int, rolls: seq<int>)
    returns (plats: seq<Platform>, coins: seq<Coin>, blockXBase: int, blockY: int)
    requires |rolls| == NumPlatforms(index)
    ensures PlatformsPlaced(index, startX, plats)
    ensures coins == CoinsOver(plats, rolls)
    ensures plats == [] ==> blockXBase == startX + 1800 && blockY == 350
    ensures plats != [] ==> blockXBase == plats[|plats| - 1].x - 200 && blockY == plats[|plats| - 1].y - 220
  {
    var numPlatforms := NumPlatforms(index);
    blockY := 350;
    blockXBase := startX + 1800;
    plats := [];
    coins := [];
    if numPlatforms > 0 {
      var platX := startX + 1000;
      var platY := 500;
      for i := 0 to numPlatforms
        invariant |plats| == i
        invariant platX == startX + 1000 + 250 * i && platY == 500 - 90 * i
        invariant forall k | 0 <= k < i :: plats[k] == AscendingPlatform(startX, k, numPlatforms)
        invariant coins == CoinsOver(plats, rolls[..i])
        invariant i < numPlatforms ==> blockY == 350 && blockXBase == startX + 1800
        invariant i == numPlatforms ==> blockY == plats[i - 1].y - 220 && blockXBase == plats[i - 1].x - 200
      {
        var isFinalPlatform := i == numPlatforms - 1;
        var platWidth := if isFinalPlatform then 600 else 200;
        var currentPlatX := if isFinalPlatform then platX + 200 else platX;
        var p := Platform(currentPlatX, platY, platWidth, 40);
        assert p == AscendingPlatform(startX, i, numPlatforms);
        assert rolls[..i + 1] == rolls[..i] + [rolls[i]];
        CoinsOverSnoc(plats, rolls[..i], p, rolls[i]);
        plats := plats + [p];
        if rolls[i] < CoinChance {
          coins := coins + [CoinAbove(p)];
        }
        if isFinalPlatform {
          blockY := platY - 220;
          blockXBase := platX;
        }
        platX := platX + 250;
        platY := platY - 90;
      }
    }
    assert rolls[..numPlatforms] == rolls;
  }

  /** The ground-coin loop. */
  method PlaceGroundCoins(startX: int) returns (coins: seq<Coin>)
    ensures |coins| == 3
    ensures forall i | 0 <= i < 3 :: coins[i].y == 450 && coins[i].x == startX + 400 + 150 * i
  {
    coins := [];
    for i := 0 to 3
      invariant |coins| == i
      invariant forall k | 0 <= k < i :: coins[k] == Coin(startX + 400 + 150 * k, 450)
    {
      var cx := startX + 400 + i * 150;
      coins := coins + [Coin(cx, 450)];
    }
  }

  /** The enemy loop: the enemies of a segment, 400 apart, walking left. */
  method PlaceEnemies(index: nat, startX: int) returns (enemies: seq<Enemy>)
    ensures EnemiesPlaced(index, startX, enemies)
  {
    var numMikes := NumEnemies(index);
    enemies := [];
    for i := 0 to numMikes
      invariant |enemies| == i
      invariant forall k | 0 <= k < i :: enemies[k] == Enemy(startX + 600 + 400 * k, startX + 600 + 400 * k, -PatrolSpeed)
    {
      var mikeX := startX + 600 + i * 400;
      enemies := enemies + [Enemy(mikeX, mikeX, -PatrolSpeed)];
    }
  }

  /** The block loop: the level's three words on blocks 200 apart from the anchor. */
  method PlaceBlocks(index: nat, blockXBase: int, blockY: int) returns (blocks: seq<WordBlock>)
    ensures |blocks| == 3
    ensures forall i | 0 <= i < 3 ::
              blocks[i] == WordBlock(blockXBase + 200 * i, blockY, LevelData(index).options[i], Untouched)
  {
    var data := LevelData(index);
    var positions := [blockXBase, blockXBase + 200, blockXBase + 400];
    blocks := [];
    for i := 0 to 3
      invariant |blocks| == i
      invariant forall k | 0 <= k < i :: blocks[k] == WordBlock(positions[k], blockY, data.options[k], Untouched)
    {
      blocks := blocks + [WordBlock(positions[i], blockY, data.options[i], Untouched)];
    }
  }

  /** `spawnLevel`'s placement arithmetic for level `index`. */
  method BuildLayout(index: nat, imageHeight: nat, d: Draws) returns (lay: Layout)
    requires ValidDraws(index, d)
    ensures LayoutOf(index, imageHeight, d, lay)
  {
    var startX := index * 2400;
    var newMaxX := startX + SegmentWidth;
    var fgHeight := FloorHeight(imageHeight);
    var floorX := startX + 1500;
    var floor := Floor(floorX - FloorWidth / 2, floorX + FloorWidth / 2, ScreenHeight - fgHeight, ScreenHeight);
    var hops, hopCoins := PlaceHops(startX, d);
    var plats, platCoins, blockXBase, blockY := PlaceAscending(index, startX, d.platCoin);
    var groundCoins := PlaceGroundCoins(startX);
    var enemies := PlaceEnemies(index, startX);
    var blocks := PlaceBlocks(index, blockXBase, blockY);
    assert groundCoins == GroundCoins(startX);
    lay := Layout(startX, newMaxX, floor, hops, plats, hopCoins + platCoins + groundCoins, enemies, blocks);
    assert HopsPlaced(lay.startX, d, lay.hops);
    assert PlatformsPlaced(index, lay.startX, lay.platforms);
    assert EnemiesPlaced(index, lay.startX, lay.enemies);
    assert BlocksPlaced(index, lay.startX, lay.platforms, lay.blocks);
  }

  /** The first hop is low enough to reach from the ground; hops are 120 to 160 apart. */
  lemma HopBounds(index: nat, imageHeight: nat, d: Draws, lay: Layout)
    requires ValidDraws(index, d) && LayoutOf(index, imageHeight, d, lay)
    ensures 450 <= lay.hops[0].y <= 480 && forall i | 1 <= i < 3 :: 350 <= lay.hops[i].y <= 480
    ensures forall i | 0 <= i < 2 :: 120 <= lay.hops[i + 1].x - lay.hops[i].x <= 160
  {
    assert forall i | 1 <= i < 3 :: d.hopY[i] == d.hopY[1..][i - 1];
  }

  /** The floor covers the whole segment, and every platform lies in it. */
  lemma PlatformsInSegment(index: nat, imageHeight: nat, d: Draws, lay: Layout)
    requires ValidDraws(index, d) && LayoutOf(index, imageHeight, d, lay)
    ensures lay.floor.left == lay.startX && lay.floor.right > lay.worldMaxX
    ensures forall i | 0 <= i < |lay.hops| :: InSegment(lay, lay.hops[i].x)
    ensures forall i | 0 <= i < |lay.platforms| :: InSegment(lay, lay.platforms[i].x)
  {
    assert lay.hops[1].x == lay.hops[0].x + d.hopStep[0];
    assert lay.hops[2].x == lay.hops[1].x + d.hopStep[1];
    assert 120 <= d.hopStep[0] <= 160 && 120 <= d.hopStep[1] <= 160;
    forall i | 0 <= i < |lay.platforms|
      ensures InSegment(lay, lay.platforms[i].x)
    {
      assert lay.platforms[i] == AscendingPlatform(lay.startX, i, |lay.platforms|);
    }
  }

  /** Every coin, enemy and block lies in the segment. */
  lemma ObjectsInSegment(index: nat, imageHeight: nat, d: Draws, lay: Layout)
    requires ValidDraws(index, d) && LayoutOf(index, imageHeight, d, lay)
    ensures forall c | c in lay.coins :: InSegment(lay, c.x)
    ensures forall i | 0 <= i < |lay.enemies| :: InSegment(lay, lay.enemies[i].x)
    ensures forall i | 0 <= i < |lay.blocks| :: InSegment(lay, lay.blocks[i].x)
  {
    PlatformsInSegment(index, imageHeight, d, lay);
    CoinsOverPlatforms(lay.hops, d.hopCoin);
    CoinsOverPlatforms(lay.platforms, d.platCoin);
    forall c | c in lay.coins
      ensures InSegment(lay, c.x)
    {
      if c in CoinsOver(lay.hops, d.hopCoin) {
        var k :| 0 <= k < |lay.hops| && d.hopCoin[k] < CoinChance && c == CoinAbove(lay.hops[k]);
      } else if c in CoinsOver(lay.platforms, d.platCoin) {
        var k :| 0 <= k < |lay.platforms| && d.platCoin[k] < CoinChance && c == CoinAbove(lay.platforms[k]);
      }
    }
    if lay.platforms != [] {
      var n := |lay.platforms|;
      assert lay.platforms[n - 1] == AscendingPlatform(lay.startX, n - 1, n);
    }
  }

  /** The last ascending platform spans all three blocks, which float above it. */
  lemma BlocksOverLastPlatform(index: nat, imageHeight: nat, d: Draws, lay: Layout)
    requires ValidDraws(index, d) && LayoutOf(index, imageHeight, d, lay)
    requires lay.platforms != []
    ensures var last := lay.platforms[|lay.platforms| - 1];
            forall b | b in lay.blocks :: last.x - last.width / 2 < b.x < last.x + last.width / 2 && b.y < last.y
  {
  }

  /** Enemies start at least as far apart as a successful respawn keeps them. */
  lemma SpawnedEnemiesSeparated(index: nat, imageHeight: nat, d: Draws, lay: Layout)
    requires ValidDraws(index, d) && LayoutOf(index, imageHeight, d, lay)
    ensures forall i | 0 <= i < |lay.enemies| :: Separated(Positions(lay.enemies), i, lay.enemies[i].x)
  {
  }

  /** Exactly one of the segment's blocks carries the target word. */
  lemma OneCorrectBlock(index: nat, imageHeight: nat, d: Draws, lay: Layout)
    requires ValidDraws(index, d) && LayoutOf(index, imageHeight, d, lay)
    ensures forall i | 0 <= i < 3 :: lay.blocks[i].word == LevelData(index).target <==> i == CorrectSlot(index)
  {
  }
}
