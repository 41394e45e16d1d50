/**
 The game's mutable state: the current level, the coin score, and what the
 scene's object groups hold (floors, platforms, coins, enemies, word blocks).
 Segments accumulate as levels chain: spawning a level appends its objects
 and moves the right edge of the world; only a restart clears them.
 */
module Game {
  import opened Levels
  import opened Enemies
  import opened Layout

  /** The level a new game starts at. */
  const FirstLevel: nat := 0

  /** Every collidable block in `bs` carries a word that is no level's target. */
  ghost predicate EnabledAreDecoys(bs: seq<WordBlock>)
  {
    forall i | 0 <= i < |bs| && bs[i].Enabled() :: !IsTarget(bs[i].word)
  }

  /**
   The last three blocks are the current level's, its correct block can still
   be struck, and every older block that can still be struck is a decoy: the
   current level can always be completed, and only from its own correct block.
   */
  ghost predicate Consistent(level: nat, worldMaxX: int, blocks: seq<WordBlock>)
  {
    && |blocks| >= 3
    && worldMaxX == level * 2400 + 2400
    && (forall k | 0 <= k < 3 :: blocks[|blocks| - 3 + k].word == LevelData(level).options[k])
    && blocks[|blocks| - 3 + CorrectSlot(level)].Enabled()
    && EnabledAreDecoys(blocks[..|blocks| - 3])
  }

  /** Spawning a segment over blocks that are all decoys makes the state consistent. */
  lemma SpawnConsistent(index: nat, imageHeight: nat, d: Draws, lay: Layout, old_blocks: seq<WordBlock>)
    requires ValidDraws(index, d) && LayoutOf(index, imageHeight, d, lay)
    requires EnabledAreDecoys(old_blocks)
    ensures Consistent(index, lay.worldMaxX, old_blocks + lay.blocks)
  {
    var bs := old_blocks + lay.blocks;
    assert bs[..|bs| - 3] == old_blocks;
    assert forall k | 0 <= k < 3 :: bs[|bs| - 3 + k] == lay.blocks[k];
  }

  /** Disabling one block keeps every collidable block a decoy. */
  lemma DisableKeepsDecoys(bs: seq<WordBlock>, i: nat, b: WordBlock)
    requires EnabledAreDecoys(bs) && i < |bs| && !b.Enabled()
    ensures EnabledAreDecoys(bs[i := b])
  {
  }

  /** Smashing a decoy keeps the state consistent. */
  lemma SmashConsistent(level: nat, worldMaxX: int, blocks: seq<WordBlock>, i: nat)
    requires Consistent(level, worldMaxX, blocks)
    requires i < |blocks| && blocks[i].word != LevelData(level).target
    ensures Consistent(level, worldMaxX, blocks[i := Struck(blocks[i], Smash)])
  {
    var n, k := |blocks| - 3, CorrectSlot(level);
    var b := Struck(blocks[i], Smash);
    var bs := blocks[i := b];
    if i < n {
      assert bs[..n] == blocks[..n][i := b];
      DisableKeepsDecoys(blocks[..n], i, b);
    } else {
      assert bs[..n] == blocks[..n];
    }
    assert i != n + k by {
      assert blocks[n + k].word == LevelData(level).target;
    }
    assert forall m | n <= m < n + 3 :: bs[m].word == blocks[m].word;
  }

  /**
   A block that carries the current target and can still be struck is the
   current level's correct block, and once it is cleared every block that
   can still be struck is a decoy.
   */
  lemma AdvanceLeavesDecoys(level: nat, worldMaxX: int, blocks: seq<WordBlock>, i: nat)
    requires Consistent(level, worldMaxX, blocks)
    requires i < |blocks| && blocks[i].Enabled() && blocks[i].word == LevelData(level).target
    ensures i == |blocks| - 3 + CorrectSlot(level)
    ensures EnabledAreDecoys(blocks[i := Struck(blocks[i], Advance(level + 1))])
  {
    var n := |blocks| - 3;
    LevelTargetIsTarget(level);
    assert forall j | 0 <= j < n :: blocks[j] == blocks[..n][j];
    assert i >= n;
    assert blocks[n + (i - n)].word == LevelData(level).options[i - n];
    var bs := blocks[i := Struck(blocks[i], Advance(level + 1))];
    forall j | 0 <= j < |bs| && bs[j].Enabled()
      ensures !IsTarget(bs[j].word)
    {
      if j < n {
        assert bs[j] == blocks[..n][j];
      } else {
        assert bs[j].word == LevelData(level).options[j - n];
        DecoyIsNoTarget(level, j - n);
      }
    }
  }

  class Scene {
    var currentLevel: nat
    var score: nat
    /** Right edge of the world and camera bounds. */
    var worldMaxX: int
    var floors: seq<Floor>
    var platforms: seq<Platform>
    var coins: seq<Coin>
    var enemies: seq<Enemy>
    var blocks: seq<WordBlock>

    /** The scene's state is `Consistent`. */
    ghost predicate Valid()
      reads this
    {
      Consistent(currentLevel, worldMaxX, blocks)
    }

    /** Game start: `create` on a new scene. */
    constructor (imageHeight: nat, d: Draws)
      requires ValidDraws(FirstLevel, d)
      ensures Valid() && currentLevel == FirstLevel && score == 0
      ensures exists lay ::
                && LayoutOf(FirstLevel, imageHeight, d, lay) && worldMaxX == lay.worldMaxX
                && floors == [lay.floor] && platforms == lay.hops + lay.platforms
                && coins == lay.coins && enemies == lay.enemies && blocks == lay.blocks
    {
      new;
      var lay := Create(imageHeight, d);
    }

    /**
     `create`: the score goes back to 0 and the scene starts with nothing but
     the segment of level 0, laid out as `spawnLevel(0)` lays it out.
     */
    method Create(imageHeight: nat, d: Draws) returns (lay: Layout)
      requires ValidDraws(FirstLevel, d)
      modifies this
      ensures Valid()
      ensures score == 0 && currentLevel == FirstLevel
      ensures LayoutOf(FirstLevel, imageHeight, d, lay)
      ensures worldMaxX == lay.worldMaxX
      ensures floors == [lay.floor] && platforms == lay.hops + lay.platforms
      ensures coins == lay.coins && enemies == lay.enemies && blocks == lay.blocks
    {
      lay := BuildLayout(FirstLevel, imageHeight, d);
      SpawnConsistent(FirstLevel, imageHeight, d, lay, []);
      worldMaxX := lay.worldMaxX;
      floors := [lay.floor];
      platforms := lay.hops + lay.platforms;
      coins := lay.coins;
      enemies := lay.enemies;
      blocks := lay.blocks;
      score := 0;
      currentLevel := FirstLevel;
    }

    /**
     `spawnLevel`: level `index` becomes current, the world grows to the end
     of its segment, and the segment's objects join the groups.
     */
    method SpawnLevel(index: nat, imageHeight: nat, d: Draws) returns (lay: Layout)
      requires ValidDraws(index, d)
      requires EnabledAreDecoys(blocks)
      modifies this`currentLevel, this`worldMaxX, this`floors, this`platforms, this`coins, this`enemies, this`blocks
      ensures Valid()
      ensures currentLevel == index
      ensures LayoutOf(index, imageHeight, d, lay) && worldMaxX == lay.worldMaxX
      ensures floors == old(floors) + [lay.floor]
      ensures platforms == old(platforms) + lay.hops + lay.platforms
      ensures coins == old(coins) + lay.coins
      ensures enemies == old(enemies) + lay.enemies
      ensures blocks == old(blocks) + lay.blocks
    {
      lay := BuildLayout(index, imageHeight, d);
      SpawnConsistent(index, imageHeight, d, lay, blocks);
      currentLevel, worldMaxX, floors, platforms, coins, enemies, blocks :=
        index, lay.worldMaxX, floors + [lay.floor], platforms + lay.hops + lay.platforms,
        coins + lay.coins, enemies + lay.enemies, blocks + lay.blocks;
    }

    /**
     `hitBlock` on block `i`. A strike that is not from below does nothing; a
     wrong word smashes the block (no longer collidable, label hidden) and
     keeps the level; the target word clears the block and spawns the next
     level, which can only happen on the current level's correct block.
     */
    method HitBlock(i: nat, fromBelow: bool, imageHeight: nat, d: Draws) returns (o: Outcome, ghost lay: Layout)
      requires Valid()
      requires i < |blocks| && blocks[i].Enabled()
      requires ValidDraws(currentLevel + 1, d)
      modifies this
      ensures Valid()
      ensures o == BlockOutcome(old(currentLevel), old(blocks[i].word), fromBelow)
      ensures o.Ignored? ==> unchanged(this)
      ensures o.Smash? ==>
                && blocks == old(blocks)[i := Struck(old(blocks[i]), o)]
                && currentLevel == old(currentLevel) && score == old(score) && worldMaxX == old(worldMaxX)
                && floors == old(floors) && platforms == old(platforms)
                && coins == old(coins) && enemies == old(enemies)
      ensures o.Advance? ==>
                && i == old(|blocks|) - 3 + CorrectSlot(old(currentLevel))
                && currentLevel == old(currentLevel) + 1 && score == old(score)
                && worldMaxX == old(worldMaxX) + 2400
                && LayoutOf(old(currentLevel) + 1, imageHeight, d, lay) && worldMaxX == lay.worldMaxX
                && floors == old(floors) + [lay.floor]
                && platforms == old(platforms) + lay.hops + lay.platforms
                && coins == old(coins) + lay.coins
                && enemies == old(enemies) + lay.enemies
                && blocks == old(blocks)[i := Struck(old(blocks[i]), o)] + lay.blocks
    {
      var b := blocks[i];
      o := BlockOutcome(currentLevel, b.word, fromBelow);
      lay := Layout(0, 0, Floor(0, 0, 0, 0), [], [], [], [], []);  // no segment unless advancing
      match o
      case Ignored =>
      case Smash =>
        SmashConsistent(currentLevel, worldMaxX, blocks, i);
        blocks := blocks[i := Struck(b, o)];
      case Advance(next) =>
        AdvanceLeavesDecoys(currentLevel, worldMaxX, blocks, i);
        blocks := blocks[i := Struck(b, o)];
        lay := SpawnLevel(next, imageHeight, d);
    }

    /**
     `hitEnemy`'s delayed restart: the level index goes back to 0 and the
     scene is created afresh, which also resets the score.
     */
    method HitEnemy(imageHeight: nat, d: Draws) returns (ghost lay: Layout)
      requires ValidDraws(FirstLevel, d)
      modifies this
      ensures Valid()
      ensures score == 0 && currentLevel == FirstLevel
      ensures LayoutOf(FirstLevel, imageHeight, d, lay) && worldMaxX == lay.worldMaxX
      ensures floors == [lay.floor] && platforms == lay.hops + lay.platforms
      ensures coins == lay.coins && enemies == lay.enemies && blocks == lay.blocks
    {
      currentLevel := FirstLevel;
      lay := Create(imageHeight, d);
    }

    /**
     `collectCoin` on coin `i`: the coin is removed, so it cannot be collected
     twice, and the score goes up by exactly one.
     */
    method CollectCoin(i: nat)
      requires i < |coins|
      modifies this`coins, this`score
      ensures coins == old(coins[..i] + coins[i + 1..])
      ensures score == old(score) + 1
      ensures score + |coins| == old(score + |coins|)
    {
      coins := coins[..i] + coins[i + 1..];
      score := score + 1;
    }

    /**
     The enemy block of `update` for a camera scrolled to `scrollX`: every
     enemy in turn either respawns ahead of the camera or applies the patrol
     turn. Each enemy whose respawn search ended safe stays at least 400
     pixels from every other enemy, except those whose search, later in the
     same frame, gave up.
     */
    method UpdateEnemies(scrollX: int) returns (steps: seq<Step>)
      modifies this`enemies
      ensures |steps| == |enemies|
      ensures FramePrefix(old(enemies), enemies, steps, scrollX)
    {
      steps := [];
      while |steps| < |enemies|
        invariant FramePrefix(old(enemies), enemies, steps, scrollX)
        decreases |enemies| - |steps|
      {
        var e, step := UpdateEnemy(enemies, |steps|, scrollX);
        FramePrefixStep(old(enemies), enemies, steps, scrollX, e, step);
        enemies := enemies[|steps| := e];
        steps := steps + [step];
      }
    }
  }
}
