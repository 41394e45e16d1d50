/**
 The level table of the word game and the rule that decides what striking a
 word block does. Each level names a target word and three candidate words;
 the level index wraps around the table, and a block struck from below
 succeeds exactly when its word is the current level's target.
 */
module Levels {

  /**
   A word of the game's vocabulary, numbered. The game only ever compares
   words for equality, and two words of the vocabulary are equal exactly when
   they are spelt alike, so each spelling gets its own number.
   */
  type Word = nat
  const BAT: Word := 0
  const CAT: Word := 1
  const RAT: Word := 2
  const DOG: Word := 3
  const LOG: Word := 4
  const FOG: Word := 5
  const RUN: Word := 6
  const SUN: Word := 7
  const FUN: Word := 8
  const BED: Word := 9
  const RED: Word := 10
  const FED: Word := 11
  const WON: Word := 12
  const TON: Word := 13
  const ONE: Word := 14
  const PIG: Word := 15
  const BIG: Word := 16
  const DIG: Word := 17
  const MOP: Word := 18
  const TOP: Word := 19
  const HOP: Word := 20
  const SKY: Word := 21
  const FLY: Word := 22
  const DRY: Word := 23
  const BOX: Word := 24
  const FOX: Word := 25
  const POX: Word := 26
  const HAM: Word := 27
  const JAM: Word := 28
  const DAM: Word := 29

  /** One entry of the level table: the spoken target and the three block words. */
  datatype Level = Level(target: Word, options: seq<Word>)

  /** Number of entries in the table (`levels.length`). */
  const LevelCount: nat := 10

  /** Entry `r` of the level table. */
  function Entry(r: nat): Level
    requires r < LevelCount
  {
    match r
    case 0 => Level(CAT, [BAT, CAT, RAT])
    case 1 => Level(DOG, [DOG, LOG, FOG])
    case 2 => Level(SUN, [RUN, SUN, FUN])
    case 3 => Level(RED, [BED, RED, FED])
    case 4 => Level(ONE, [WON, TON, ONE])
    case 5 => Level(BIG, [PIG, BIG, DIG])
    case 6 => Level(HOP, [MOP, TOP, HOP])
    case 7 => Level(SKY, [SKY, FLY, DRY])
    case 8 => Level(FOX, [BOX, FOX, POX])
    case 9 => Level(JAM, [HAM, JAM, DAM])
  }

  /** Number of positions of `s` that hold `w`. */
  function Occurrences(s: seq<Word>, w: Word): (n: nat)
    ensures n <= |s|
    ensures n == 0 <==> w !in s
  {
    if s == [] then 0 else (if s[0] == w then 1 else 0) + Occurrences(s[1..], w)
  }

  /** Two different positions holding `w` make at least two occurrences. */
  lemma {:induction false} OccursTwice(s: seq<Word>, w: Word, i: nat, j: nat)
    requires i < j < |s| && s[i] == w && s[j] == w
    ensures Occurrences(s, w) >= 2
  {
    if i == 0 {
      assert s[1..][j - 1] == w;
    } else {
      OccursTwice(s[1..], w, i - 1, j - 1);
    }
  }

  /** Three candidate words, exactly one of which is the target. */
  ghost predicate WellFormed(l: Level)
  {
    |l.options| == 3 && Occurrences(l.options, l.target) == 1
  }

  lemma TableWellFormed()
    ensures forall l | 0 <= l < LevelCount :: WellFormed(Entry(l))
  {
    forall l | 0 <= l < LevelCount
      ensures WellFormed(Entry(l))
    {
      var ws := Entry(l).options;
      assert ws == [ws[0], ws[1], ws[2]];
      assert ws[1..] == [ws[1], ws[2]] && ws[2..] == [ws[2]];
    }
  }

  /**
   The level data used for level `index`: the table wraps around, so every
   index, however large, gets a well-formed entry.
   */
  function LevelData(index: nat): (d: Level)
    ensures |d.options| == 3
  {
    Entry(index % LevelCount)
  }

  /** Every level's entry, however large the index, is well formed. */
  lemma LevelDataWellFormed(index: nat)
    ensures WellFormed(LevelData(index))
  {
    TableWellFormed();
  }

  /** Levels ten apart use the same words. */
  lemma LevelDataPeriodic(index: nat)
    ensures LevelData(index + LevelCount) == LevelData(index)
  {
    var q, r := index / LevelCount, index % LevelCount;
    assert index + LevelCount == (q + 1) * LevelCount + r;
    assert (index + LevelCount) % LevelCount == r;
  }

  /** In a well-formed level, the target sits at no position but `k`. */
  lemma OnlySlot(l: Level, k: nat)
    requires WellFormed(l) && k < 3 && l.options[k] == l.target
    ensures forall j | 0 <= j < 3 && j != k :: l.options[j] != l.target
  {
    forall j | 0 <= j < 3 && j != k
      ensures l.options[j] != l.target
    {
      if l.options[j] == l.target {
        if j < k {
          OccursTwice(l.options, l.target, j, k);
        } else {
          OccursTwice(l.options, l.target, k, j);
        }
      }
    }
  }

  /** The position (0, 1 or 2) of the one block that carries the target of level `index`. */
  function CorrectSlot(index: nat): (k: nat)
    ensures k < 3
    ensures LevelData(index).options[k] == LevelData(index).target
    ensures forall j | 0 <= j < 3 && j != k :: LevelData(index).options[j] != LevelData(index).target
  {
    var d := LevelData(index);
    LevelDataWellFormed(index);
    var k := if d.options[0] == d.target then 0 else if d.options[1] == d.target then 1 else 2;
    assert d.options[k] == d.target by {
      assert d.target in d.options;
      assert d.options == [d.options[0], d.options[1], d.options[2]];
    }
    OnlySlot(d, k);
    k
  }

  /** The target words of the ten levels. */
  predicate IsTarget(w: Word)
  {
    w in {CAT, DOG, SUN, RED, ONE, BIG, HOP, SKY, FOX, JAM}
  }

  /** A word is a target exactly when some entry of the table names it as its target. */
  lemma TargetsOfTable(w: Word)
    ensures IsTarget(w) <==> exists l | 0 <= l < LevelCount :: Entry(l).target == w
  {
    if IsTarget(w) {
      assert Entry(0).target == CAT && Entry(1).target == DOG && Entry(2).target == SUN;
      assert Entry(3).target == RED && Entry(4).target == ONE && Entry(5).target == BIG;
      assert Entry(6).target == HOP && Entry(7).target == SKY && Entry(8).target == FOX;
      assert Entry(9).target == JAM;
    }
  }

  /** Every level's target is a target word. */
  lemma LevelTargetIsTarget(index: nat)
    ensures IsTarget(LevelData(index).target)
  {
    TargetsOfTable(LevelData(index).target);
  }

  /** No level's decoy word is the target of any level (level 0's decoys included). */
  lemma DecoyIsNoTarget(index: nat, j: nat)
    requires j < 3
    requires LevelData(index).options[j] != LevelData(index).target
    ensures !IsTarget(LevelData(index).options[j])
  {
  }

  /** What a strike on a block can lead to. */
  datatype Outcome = Ignored | Advance(next: nat) | Smash

  /**
   The decision of `hitBlock`: nothing happens unless the block is struck from
   below; then its word is compared with the current level's target.
   */
  function BlockOutcome(currentLevel: nat, word: Word, fromBelow: bool): (o: Outcome)
    ensures o.Ignored? <==> !fromBelow
    ensures o.Advance? <==> fromBelow && word == LevelData(currentLevel).target
    ensures o.Smash? <==> fromBelow && word != LevelData(currentLevel).target
    ensures o.Advance? ==> o.next == currentLevel + 1
  {
    if !fromBelow then Ignored
    else if word == LevelData(currentLevel).target then Advance(currentLevel + 1)
    else Smash
  }

  /** Of the three blocks spawned for a level, the strike from below succeeds on exactly one. */
  lemma OneBlockAdvances(index: nat, j: nat)
    requires j < 3
    ensures BlockOutcome(index, LevelData(index).options[j], true).Advance? <==> j == CorrectSlot(index)
  {
  }

  /** In the first level (CAT among BAT, CAT, RAT) the middle block is the right one. */
  lemma FirstLevelMiddleBlock()
    ensures CorrectSlot(0) == 1
    ensures LevelData(0).options[CorrectSlot(0)] == CAT
  {
  }

  /**
   The per-block state: untouched (collidable, label shown), cleared (green,
   no longer collidable) or smashed (not collidable, label hidden).
   */
  datatype BlockState = Untouched | Cleared | Smashed

  datatype WordBlock = WordBlock(x: int, y: int, word: Word, state: BlockState)
  {
    /** The block's physics body still takes collisions. */
    predicate Enabled() { state == Untouched }

    /** The text label on the block is visible. */
    predicate LabelVisible() { state != Smashed }
  }

  /** The block after a strike with the given outcome. */
  function Struck(b: WordBlock, o: Outcome): (b': WordBlock)
    ensures b'.x == b.x && b'.y == b.y && b'.word == b.word
    ensures o.Ignored? ==> b' == b
    ensures o.Advance? ==> !b'.Enabled() && b'.LabelVisible()
    ensures o.Smash? ==> !b'.Enabled() && !b'.LabelVisible()
  {
    match o
    case Ignored => b
    case Advance(_) => b.(state := Cleared)
    case Smash => b.(state := Smashed)
  }
}
