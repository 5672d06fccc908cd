/** The enemy (`Devil`): patrols left and right, changing lane at each turn, and loses when it meets the guardian. */
module Enemy {
  import opened Geometry
  import Settings
  import Guardian

  const DEVIL_WIDTH := 45
  const DEVIL_HEIGHT := 108

  /** The value `gameStatus` takes when the enemy meets the guardian. */
  const WON := 3

  /** The enemy's modelled fields. */
  datatype DevilState = DevilState(posX: int, posY: int, velX: int, facingRight: bool, collider: Rect)

  /** The state the `Devil` constructor leaves, given the value `rand()` returned. */
  function InitialDevil(roll: nat): (s: DevilState)
    ensures s.posX == 0 && 200 <= s.posY < 400 && s.velX == 1 && s.facingRight
  {
    DevilState(0, 200 + roll % 200, 1, true, Rect(0, 0, DEVIL_WIDTH, DEVIL_HEIGHT))
  }

  /** The x a move reaches: a step in the facing direction, never rolled back. */
  function NextX(s: DevilState, devilMovement: int): int
  {
    if s.facingRight then s.posX + s.velX * devilMovement else s.posX - s.velX * devilMovement
  }

  /**
   * `Devil::move`: steps horizontally; on leaving the screen turns round and moves
   * to the lane y + roll % 50 - 10 if that lies strictly between 5 and 620
   * (a bound taken from the screen width, not its height).
   */
  function AfterMove(s: DevilState, devilMovement: int, roll: nat): (r: DevilState)
    ensures r.posX == NextX(s, devilMovement) && r.velX == s.velX
    ensures r.facingRight != s.facingRight <==> r.posX < 0 || r.posX > SCREEN_WIDTH - DEVIL_WIDTH
    ensures r.posY != s.posY ==>
      && r.facingRight != s.facingRight
      && 5 < r.posY < SCREEN_WIDTH - 20
      && s.posY - 10 <= r.posY < s.posY + 40
    ensures r.collider == s.collider.(x := r.posX, y := r.posY)
  {
    var x := NextX(s, devilMovement);
    if x < 0 || x + DEVIL_WIDTH > SCREEN_WIDTH then
      var changePosition := s.posY + roll % 50 + (-10);
      var y := if changePosition < SCREEN_WIDTH - 20 && changePosition > 5 then changePosition else s.posY;
      DevilState(x, y, s.velX, !s.facingRight, s.collider.(x := x, y := y))
    else
      DevilState(x, s.posY, s.velX, s.facingRight, s.collider.(x := x, y := s.posY))
  }

  /** The collision test of `Devil::move`: the new x with the lane held before any change. */
  predicate HitsLight(s: DevilState, devilMovement: int, light: Rect)
  {
    CheckCollision(s.collider.(x := NextX(s, devilMovement), y := s.posY), light)
  }

  /** On a turn, every lane in (5, 620) from 10 above to 39 below the current one is reached by some roll. */
  lemma LaneReachable(s: DevilState, devilMovement: int, lane: int)
    requires NextX(s, devilMovement) < 0 || NextX(s, devilMovement) > SCREEN_WIDTH - DEVIL_WIDTH
    requires 5 < lane < SCREEN_WIDTH - 20 && s.posY - 10 <= lane < s.posY + 40
    ensures AfterMove(s, devilMovement, lane - s.posY + 10).posY == lane
  {
  }

  /** On a turn whose candidate lane lies outside (5, 620) the enemy keeps its lane; it does not draw again. */
  lemma LaneKeptWhenRejected(s: DevilState, devilMovement: int, roll: nat)
    requires NextX(s, devilMovement) < 0 || NextX(s, devilMovement) > SCREEN_WIDTH - DEVIL_WIDTH
    requires !(5 < s.posY + roll % 50 - 10 < SCREEN_WIDTH - 20)
    ensures AfterMove(s, devilMovement, roll).posY == s.posY
  {
  }

  /** Only `roll % 50` matters: any two rolls with the same remainder give the same move. */
  lemma MoveDependsOnRollModulo50(s: DevilState, devilMovement: int, roll: nat)
    ensures AfterMove(s, devilMovement, roll) == AfterMove(s, devilMovement, roll % 50)
  {
  }

  /** A turn can put the enemy on a lane whose bottom edge is far below the 480-pixel screen. */
  lemma LaneCanLeaveScreen()
    ensures var s := DevilState(600, 590, 1, true, Rect(599, 590, DEVIL_WIDTH, DEVIL_HEIGHT));
      var r := AfterMove(s, 1, 39);
      r.posY == 619 && r.posY + DEVIL_HEIGHT > SCREEN_HEIGHT
  {
  }

  /** A `Devil` object. */
  class Devil {
    var facingRight: bool
    var mPosX: int
    var mPosY: int
    var mVelX: int
    var mCollider: Rect

    /** `Devil::Devil`, given the value of its `rand()` call. */
    constructor (roll: nat)
      ensures State() == InitialDevil(roll)
    {
      facingRight := true;
      mPosX := 0;
      mPosY := 200 + roll % 200;
      mCollider := Rect(0, 0, DEVIL_WIDTH, DEVIL_HEIGHT);
      mVelX := 1;
    }

    /** The fields as a value. */
    function State(): DevilState
      reads this
    {
      DevilState(mPosX, mPosY, mVelX, facingRight, mCollider)
    }

    /** `Devil::move`, given the value of its `rand()` call; returns the new `gameStatus`. */
    method Move(light: Guardian.Light, difficulty: Settings.Difficulty, roll: nat, gameStatus: int)
      returns (gameStatus': int)
      modifies this
      ensures State() == AfterMove(old(State()), difficulty.devilMovement, roll)
      ensures gameStatus' == if HitsLight(old(State()), difficulty.devilMovement, light.mCollider) then WON else gameStatus
    {
      gameStatus' := gameStatus;
      if facingRight {
        mPosX := mPosX + mVelX * difficulty.devilMovement;
      } else {
        mPosX := mPosX - mVelX * difficulty.devilMovement;
      }
      mCollider := mCollider.(x := mPosX, y := mPosY);
      if mPosX < 0 || mPosX + DEVIL_WIDTH > SCREEN_WIDTH {
        mCollider := mCollider.(x := mPosX);
        var changePosition := mPosY + roll % 50 + (-10);
        if changePosition < SCREEN_WIDTH - 20 && changePosition > 5 {
          mPosY := changePosition;
        }
        facingRight := !facingRight;
      }
      if CheckCollision(mCollider, light.mCollider) {
        gameStatus' := WON;
      }
      mCollider := mCollider.(y := mPosY);
    }
  }
}
