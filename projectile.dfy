/** A projectile slot (`Fire`): spawned at the enemy, rises in accelerating leaps, ends at the avatar or the horizon. */
module Projectile {
  import opened Geometry
  import Settings
  import Player
  import Enemy

  const FIRE_WIDTH := 45
  const FIRE_HEIGHT := 45
  const FIRE_VEL := 2

  /** The value `gameStatus` takes when a projectile reaches the avatar. */
  const LOST := 2

  /** The slot's modelled fields. */
  datatype FireState = FireState(
    posX: int,
    posY: int,
    velY: int,
    acceleration: int,
    velFromAcceleration: int,
    available: bool,
    activated: bool,
    collider: Rect)

  /** The state the `Fire` constructor leaves: idle, parked at (800, 800), with `mVelY` 100. */
  const InitialFire := FireState(800, 800, 100, 0, 0, true, false, Rect(0, 0, FIRE_WIDTH, FIRE_HEIGHT))

  /** C's integer division: the quotient truncated toward zero. */
  function TruncDiv(n: int, d: int): (q: int)
    requires d > 0
    ensures n >= 0 ==> d * q <= n < d * q + d
    ensures n < 0 ==> d * q - d < n <= d * q
  {
    if n >= 0 then n / d else -((-n) / d)
  }

  /** C's `%`: the remainder that goes with the truncated quotient, negative for a negative dividend. */
  function CRem(n: int, d: int): (r: int)
    requires d > 0
    ensures n >= 0 ==> r == n % d
    ensures n < 0 ==> -d < r <= 0
  {
    n - d * TruncDiv(n, d)
  }

  /**
   * `velFromAcceleration + FIRE_VEL * 1.2` stored back into an int: v + 12/5,
   * truncated toward zero. Adds 2 from v = -2 upward, 3 below.
   */
  function AccelerationStep(v: int): (r: int)
    ensures v >= -2 ==> r == v + 2
    ensures v < -2 ==> r == v + 3
  {
    TruncDiv(5 * v + FIRE_VEL * 6, 5)
  }

  /** Where an in-flight slot stands this tick before its vertical step: the enemy's position on its first tick. */
  function TestedCollider(s: FireState, devilX: int, devilY: int): Rect
  {
    if s.activated then s.collider.(x := devilX, y := devilY) else s.collider.(x := s.posX, y := s.posY)
  }

  /** The test of `Fire::move` that sets the game lost: an in-flight slot whose pre-step collider meets the avatar's. */
  predicate HitsAngel(s: FireState, devilX: int, devilY: int, angel: Rect)
  {
    !s.available && CheckCollision(TestedCollider(s, devilX, devilY), angel)
  }

  /** What a slot looks like after reaching the horizon: parked at (800, 800), idle, at rest. */
  function Parked(s: FireState, collider: Rect): FireState
  {
    FireState(800, 800, 0, 0, 0, true, s.activated, collider)
  }

  /**
   * `Fire::move`: an idle slot does nothing; a slot in flight snaps to the enemy on
   * its first tick, counts the tick, adds to its extra speed, records its collider,
   * rises only on ticks with `acceleration % 3 == 1`, and is parked at the horizon
   * unless it has met the avatar.
   */
  function AfterMove(s: FireState, devilX: int, devilY: int, angel: Rect, horizon: Rect, fireMovement: int): (r: FireState)
    ensures s.available ==> r == s
    ensures !s.available ==> !r.activated && r.collider == TestedCollider(s, devilX, devilY)
    ensures !s.available && !r.available ==> r.velY == if s.activated then 1 else s.velY
    ensures HitsAngel(s, devilX, devilY, angel) ==> !r.available
    ensures !s.available ==>
      (r.available <==> !CheckCollision(TestedCollider(s, devilX, devilY), angel)
                        && CheckCollision(TestedCollider(s, devilX, devilY), horizon))
    ensures !s.available && r.available ==>
      r == FireState(800, 800, 0, 0, 0, true, false, TestedCollider(s, devilX, devilY))
  {
    if s.available then s
    else
      var x, y, vy, act := if s.activated then devilX else s.posX, if s.activated then devilY else s.posY,
                           if s.activated then 1 else s.velY, false;
      var acc := s.acceleration + 1;
      var vfa := AccelerationStep(s.velFromAcceleration);
      var col := s.collider.(x := x, y := y);
      var y' := if CRem(acc, 3) == 1 then y - (vy * fireMovement + vfa + 5) else y;
      var flying := FireState(x, y', vy, acc, vfa, false, act, col);
      if CheckCollision(col, angel) then flying
      else if CheckCollision(col, horizon) then Parked(flying, col)
      else flying
  }

  /**
   * The slot invariant: the extra speed is twice the tick count, an idle slot is
   * parked and not marked for spawning, and a slot that has spawned moves at `mVelY` 1.
   */
  predicate WellFormed(s: FireState)
  {
    && s.acceleration >= 0
    && s.velFromAcceleration == 2 * s.acceleration
    && (s.available ==> !s.activated && s.acceleration == 0 && s.posX == 800 && s.posY == 800)
    && (!s.available && !s.activated ==> s.velY == 1)
  }

  /**
   * A move keeps the slot invariant, and a slot that stays in flight rises on
   * exactly the ticks with `acceleration % 3 == 1`, by `mVelY * fireMovement`
   * plus twice the tick count plus 5.
   */
  lemma MoveKeepsWellFormed(s: FireState, devilX: int, devilY: int, angel: Rect, horizon: Rect, fireMovement: int)
    requires WellFormed(s)
    ensures var r := AfterMove(s, devilX, devilY, angel, horizon, fireMovement);
      && WellFormed(r)
      && (!s.available ==> r.available || r.acceleration == s.acceleration + 1)
      && (!s.available && !r.available ==>
            var c := TestedCollider(s, devilX, devilY);
            r.posX == c.x &&
            r.posY == if r.acceleration % 3 == 1 then c.y - (r.velY * fireMovement + 2 * r.acceleration + 5) else c.y)
  {
  }

  /** After reaching the horizon a slot differs from a freshly constructed one: its `mVelY` is 0, not 100. */
  lemma HorizonResetIsNotConstruction(s: FireState, devilX: int, devilY: int, angel: Rect, horizon: Rect, fireMovement: int)
    requires !s.available
    requires AfterMove(s, devilX, devilY, angel, horizon, fireMovement).available
    ensures var r := AfterMove(s, devilX, devilY, angel, horizon, fireMovement);
      r != InitialFire && r == InitialFire.(velY := 0, collider := r.collider)
  {
  }

  /** A `Fire` object (`mVelX` is left out: it stays 0 and nothing reads it). */
  class Fire {
    var acceleration: int
    var velFromAcceleration: int
    var mPosX: int
    var mPosY: int
    var mVelY: int
    var available: bool
    var activated: bool
    var mCollider: Rect

    constructor ()
      ensures State() == InitialFire
    {
      mPosX := 800;
      mPosY := 800;
      acceleration := 0;
      velFromAcceleration := 0;
      mCollider := Rect(0, 0, FIRE_WIDTH, FIRE_HEIGHT);
      mVelY := 100;
      available := true;
      activated := false;
    }

    /** The fields as a value. */
    function State(): FireState
      reads this
    {
      FireState(mPosX, mPosY, mVelY, acceleration, velFromAcceleration, available, activated, mCollider)
    }

    /** `Fire::move`; returns the new `gameStatus`. */
    method Move(devil: Enemy.Devil, angel: Player.Angel, horizonLine: Rect, gameStatus: int, difficulty: Settings.Difficulty)
      returns (gameStatus': int)
      modifies this
      ensures State() == AfterMove(old(State()), devil.mPosX, devil.mPosY, angel.mCollider, horizonLine, difficulty.fireMovement)
      ensures gameStatus' == if HitsAngel(old(State()), devil.mPosX, devil.mPosY, angel.mCollider) then LOST else gameStatus
    {
      gameStatus' := gameStatus;
      if !available {
        if activated {
          mPosX := devil.mPosX;
          mPosY := devil.mPosY;
          mVelY := 1;
          activated := !activated;
        }
        acceleration := acceleration + 1;
        velFromAcceleration := AccelerationStep(velFromAcceleration);
        mCollider := mCollider.(x := mPosX, y := mPosY);
        if CRem(acceleration, 3) == 1 {
          mPosY := mPosY - (mVelY * difficulty.fireMovement + velFromAcceleration + 5);
        }
        if CheckCollision(mCollider, angel.mCollider) {
          gameStatus' := LOST;
        } else if CheckCollision(mCollider, horizonLine) {
          mVelY := 0;
          mPosY := 800;
          mPosX := 800;
          acceleration := 0;
          velFromAcceleration := 0;
          available := true;
        }
      }
    }
  }
}
