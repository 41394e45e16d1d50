/**
 The per-frame rule for the patrolling enemies. An enemy that has fallen more
 than 100 pixels behind the camera's left edge is moved ahead of the camera,
 to the first candidate position (900, 1050, 1200, ... pixels past the left
 edge) that keeps 400 pixels from every other enemy, trying at most 50
 candidates; otherwise it turns round when it has strayed 200 pixels from its
 patrol anchor.
 */
module Enemies {

  /** An enemy: horizontal position, patrol anchor (`startX`) and horizontal velocity. */
  datatype Enemy = Enemy(x: int, anchor: int, vx: int)

  const PatrolSpeed: int := 30
  const PatrolRange: int := 200
  /** How far behind the camera's left edge an enemy may fall before it respawns. */
  const RespawnLag: int := 100
  /** First respawn candidate, relative to the camera's left edge: the 800-pixel view plus 100. */
  const RespawnLead: int := 900
  const RespawnStep: int := 150
  const MinSeparation: int := 400
  const MaxAttempts: nat := 50

  function Abs(n: int): nat
  {
    if n < 0 then -n else n
  }

  /** The horizontal positions of a group of enemies. */
  function Positions(es: seq<Enemy>): (xs: seq<int>)
    ensures |xs| == |es|
    ensures forall i | 0 <= i < |es| :: xs[i] == es[i].x
  {
    if es == [] then [] else [es[0].x] + Positions(es[1..])
  }

  /** The `k`-th respawn candidate for a camera scrolled to `scrollX`. */
  function Candidate(scrollX: int, k: nat): int
  {
    scrollX + RespawnLead + RespawnStep * k
  }

  /** Some enemy other than `self` stands within 400 pixels of `x`. */
  ghost predicate Conflicts(xs: seq<int>, self: nat, x: int)
  {
    exists j | 0 <= j < |xs| :: j != self && Abs(xs[j] - x) < MinSeparation
  }

  /** Every enemy other than `self` stands at least 400 pixels from `x`. */
  ghost predicate Separated(xs: seq<int>, self: nat, x: int)
  {
    forall j | 0 <= j < |xs| && j != self :: Abs(xs[j] - x) >= MinSeparation
  }

  /**
   The search of the respawn loop. `safe` tells whether it ended on a
   position clear of the others; `attempts` counts the passes made. The result
   is the first candidate with no conflict; when all 50 candidates conflict,
   it is the 51st candidate, which was never checked.
   */
  method FindRespawnX(xs: seq<int>, self: nat, scrollX: int) returns (x: int, safe: bool, attempts: nat)
    requires self < |xs|
    ensures 1 <= attempts <= MaxAttempts
    ensures safe ==> x == Candidate(scrollX, attempts - 1) && Separated(xs, self, x)
    ensures !safe ==> attempts == MaxAttempts && x == Candidate(scrollX, MaxAttempts)
    ensures forall k: nat | k < attempts - (if safe then 1 else 0) :: Conflicts(xs, self, Candidate(scrollX, k))
  {
    x := scrollX + RespawnLead;
    safe := false;
    attempts := 0;
    while !safe && attempts < MaxAttempts
      invariant attempts <= MaxAttempts
      invariant safe ==> attempts >= 1 && x == Candidate(scrollX, attempts - 1) && Separated(xs, self, x)
      invariant !safe ==> x == Candidate(scrollX, attempts)
      invariant forall k: nat | k < attempts - (if safe then 1 else 0) :: Conflicts(xs, self, Candidate(scrollX, k))
    {
      safe := true;
      attempts := attempts + 1;
      var j := 0;
      var conflict := false;
      while j < |xs| && !conflict
        invariant 0 <= j <= |xs|
        invariant safe == !conflict
        invariant !conflict ==> x == Candidate(scrollX, attempts - 1)
        invariant !conflict ==> forall i | 0 <= i < j && i != self :: Abs(xs[i] - x) >= MinSeparation
        invariant conflict ==> x == Candidate(scrollX, attempts) && Conflicts(xs, self, Candidate(scrollX, attempts - 1))
      {
        if j != self && Abs(xs[j] - x) < MinSeparation {
          x := x + RespawnStep;
          safe := false;
          conflict := true;
        }
        j := j + 1;
      }
    }
  }

  /**
   The patrol turn: an enemy walking left that is more than 200 pixels left
   of its anchor turns right, one walking right that is more than 200 pixels
   right of it turns left, and every other velocity is kept.
   */
  function PatrolVelocity(x: int, anchor: int, vx: int): (v: int)
    ensures x < anchor - PatrolRange ==> v >= 0
    ensures x > anchor + PatrolRange ==> v <= 0
    ensures v != vx ==>
              || (vx < 0 && x < anchor - PatrolRange && v == PatrolSpeed)
              || (vx > 0 && x > anchor + PatrolRange && v == -PatrolSpeed)
    ensures Abs(vx) == PatrolSpeed ==> Abs(v) == PatrolSpeed
  {
    if vx < 0 && x < anchor - PatrolRange then PatrolSpeed
    else if vx > 0 && x > anchor + PatrolRange then -PatrolSpeed
    else vx
  }

  /** Whether an enemy's frame was a patrol step or a respawn, and how the respawn ended. */
  datatype Step = Patrolled | Respawned(safe: bool)

  /** The search gives up: each of the 50 candidates it checks is within 400 pixels of another enemy. */
  ghost predicate AllConflict(xs: seq<int>, self: nat, scrollX: int)
  {
    forall k: nat | k < MaxAttempts :: Conflicts(xs, self, Candidate(scrollX, k))
  }

  /**
   `x` is where the search stops when it ends safe: the first of the 50
   candidates that is 400 pixels from every other enemy.
   */
  ghost predicate FirstClear(xs: seq<int>, self: nat, scrollX: int, x: int)
  {
    && Separated(xs, self, x)
    && exists k: nat | k < MaxAttempts ::
         x == Candidate(scrollX, k) && forall m: nat | m < k :: Conflicts(xs, self, Candidate(scrollX, m))
  }

  /**
   `e` and `step` are what one enemy's turn makes of `all[i]`: a respawn
   exactly when it is more than 100 pixels behind the camera, onto the first
   clear candidate when there is one among the 50 checked, and otherwise onto
   the unchecked 51st; a respawned enemy walks left from its new anchor.
   Without a respawn the enemy takes the patrol turn.
   */
  ghost predicate EnemyStepped(all: seq<Enemy>, i: nat, scrollX: int, e: Enemy, step: Step)
    requires i < |all|
  {
    && (step.Respawned? <==> all[i].x < scrollX - RespawnLag)
    && (step.Patrolled? ==> e == all[i].(vx := PatrolVelocity(all[i].x, all[i].anchor, all[i].vx)))
    && (step.Respawned? ==> e.anchor == e.x && e.vx == -PatrolSpeed)
    && (step == Respawned(true) ==> FirstClear(Positions(all), i, scrollX, e.x))
    && (step == Respawned(false) ==> e.x == Candidate(scrollX, MaxAttempts) && AllConflict(Positions(all), i, scrollX))
  }

  /**
   One enemy's update for a camera scrolled to `scrollX`, seen against the
   current positions of the whole group (`all[i]` is the enemy itself).
   */
  method UpdateEnemy(all: seq<Enemy>, i: nat, scrollX: int) returns (e: Enemy, step: Step)
    requires i < |all|
    ensures EnemyStepped(all, i, scrollX, e, step)
  {
    var me := all[i];
    if me.x < scrollX - RespawnLag {
      var x, safe, attempts := FindRespawnX(Positions(all), i, scrollX);
      if safe {
        var k: nat := attempts - 1;
        assert x == Candidate(scrollX, k) && forall m: nat | m < k :: Conflicts(Positions(all), i, Candidate(scrollX, m));
      }
      e := Enemy(x, x, -PatrolSpeed);
      step := Respawned(safe);
    } else {
      e := me.(vx := PatrolVelocity(me.x, me.anchor, me.vx));
      step := Patrolled;
    }
  }

  /**
   A lone enemy conflicts with nobody, so its respawn never gives up: it
   lands on the first candidate, 900 pixels past the camera's left edge.
   */
  lemma LoneEnemyRespawnsFirst(all: seq<Enemy>, scrollX: int, e: Enemy, step: Step)
    requires |all| == 1 && EnemyStepped(all, 0, scrollX, e, step)
    requires all[0].x < scrollX - RespawnLag
    ensures step == Respawned(true)
    ensures e == Enemy(scrollX + RespawnLead, scrollX + RespawnLead, -PatrolSpeed)
  {
    var xs := Positions(all);
    assert !Conflicts(xs, 0, Candidate(scrollX, 0));
    if step == Respawned(false) {
      assert false;
    }
    var k: nat :| k < MaxAttempts && e.x == Candidate(scrollX, k)
                  && forall m: nat | m < k :: Conflicts(xs, 0, Candidate(scrollX, m));
    if k > 0 {
      assert false;
    }
  }

  /**
   The first `|steps|` enemies of `es` have had their turn of the frame that
   started from `olds`, each against the positions it saw: those of the
   enemies before it after their turns, its own and those after it as they
   were. The rest are as they were. Every enemy whose respawn ended safe is
   400 pixels from every other, except from one whose search gave up later in
   the frame.
   */
  ghost predicate FramePrefix(olds: seq<Enemy>, es: seq<Enemy>, steps: seq<Step>, scrollX: int)
  {
    && |steps| <= |es| == |olds|
    && (forall i | |steps| <= i < |es| :: es[i] == olds[i])
    && (forall i | 0 <= i < |steps| :: EnemyStepped(es[..i] + olds[i..], i, scrollX, es[i], steps[i]))
    && SafeApart(es, steps)
  }

  /**
   Each of the first `|steps|` enemies whose respawn ended safe stands 400
   pixels from every other enemy, except from one whose search gave up later.
   */
  ghost predicate SafeApart(es: seq<Enemy>, steps: seq<Step>)
    requires |steps| <= |es|
  {
    forall i, j | 0 <= i < |steps| && 0 <= j < |es| && i != j ::
      steps[i] == Respawned(true) && (j < |steps| && steps[j] == Respawned(false) ==> j < i) ==>
        Abs(es[i].x - es[j].x) >= MinSeparation
  }

  /** One more enemy's turn keeps the safe respawns apart. */
  lemma SafeApartStep(es: seq<Enemy>, steps: seq<Step>, scrollX: int, e: Enemy, step: Step)
    requires |steps| < |es| && SafeApart(es, steps)
    requires EnemyStepped(es, |steps|, scrollX, e, step)
    ensures SafeApart(es[|steps| := e], steps + [step])
  {
    var k := |steps|;
    var es', steps' := es[k := e], steps + [step];
    assert forall j | 0 <= j < |es| :: Positions(es)[j] == es[j].x;
    forall i, j | 0 <= i < k + 1 && 0 <= j < |es'| && i != j &&
                  steps'[i] == Respawned(true) && (j < k + 1 && steps'[j] == Respawned(false) ==> j < i)
      ensures Abs(es'[i].x - es'[j].x) >= MinSeparation
    {
      if i == k {
        assert Abs(es[j].x - e.x) >= MinSeparation;
      } else if j == k {
        if step.Patrolled? {
          assert es'[j].x == es[j].x;
        } else {
          assert Abs(es[i].x - e.x) >= MinSeparation;
        }
      } else {
        assert es'[i] == es[i] && es'[j] == es[j];
      }
    }
  }

  /** One more enemy's turn extends the frame's prefix. */
  lemma FramePrefixStep(olds: seq<Enemy>, es: seq<Enemy>, steps: seq<Step>, scrollX: int, e: Enemy, step: Step)
    requires FramePrefix(olds, es, steps, scrollX) && |steps| < |es|
    requires EnemyStepped(es, |steps|, scrollX, e, step)
    ensures FramePrefix(olds, es[|steps| := e], steps + [step], scrollX)
  {
    var k := |steps|;
    var es', steps' := es[k := e], steps + [step];
    SafeApartStep(es, steps, scrollX, e, step);
    assert es[..k] + olds[k..] == es;
    forall i | 0 <= i < k + 1
      ensures EnemyStepped(es'[..i] + olds[i..], i, scrollX, es'[i], steps'[i])
    {
      if i < k {
        assert es'[..i] == es[..i] && es'[i] == es[i] && steps'[i] == steps[i];
      } else {
        assert es'[..k] == es[..k];
      }
    }
  }
}
