/** The player avatar (`Angel`): horizontal motion driven by the arrow keys. */
module Player {
  import opened Geometry
  import opened Input
  import Settings

  const ANGEL_WIDTH := 46
  const ANGEL_HEIGHT := 98
  const ANGEL_VEL := 1

  /** The avatar's modelled fields: position, horizontal velocity and collider. */
  datatype AngelState = AngelState(posX: int, posY: int, velX: int, collider: Rect)

  /** The state the `Angel` constructor leaves (the collider's corner is still zero). */
  const InitialAngel := AngelState(0, 10, 0, Rect(0, 0, ANGEL_WIDTH, ANGEL_HEIGHT))

  /** `Angel::handleEvent` on one event. */
  function AfterEvent(s: AngelState, e: Event): (r: AngelState)
    ensures r.posX == s.posX && r.posY == s.posY && r.collider == s.collider
    ensures -ANGEL_VEL <= r.velX - s.velX <= ANGEL_VEL
    ensures !IsFresh(e) ==> r == s
  {
    match e
    case KeyDown(k, repeat) =>
      if repeat then s
      else if k == Left then s.(velX := s.velX - ANGEL_VEL)
      else if k == Right then s.(velX := s.velX + ANGEL_VEL)
      else s
    case KeyUp(k, repeat) =>
      if repeat then s
      else if k == Left then s.(velX := s.velX + ANGEL_VEL)
      else if k == Right then s.(velX := s.velX - ANGEL_VEL)
      else s
    case _ => s
  }

  /** `Angel::handleEvent` on each event of a drained batch, in order. */
  function AfterEvents(s: AngelState, es: seq<Event>): AngelState
  {
    if es == [] then s else AfterEvent(AfterEvents(s, es[..|es| - 1]), es[|es| - 1])
  }

  /** Pressing and then releasing LEFT or RIGHT restores the velocity. */
  lemma PressReleaseRestores(s: AngelState, k: Key)
    requires k == Left || k == Right
    ensures AfterEvent(AfterEvent(s, KeyDown(k, false)), KeyUp(k, false)) == s
  {
  }

  /**
   * After a batch the velocity is the old one plus one per RIGHT press and LEFT
   * release, minus one per LEFT press and RIGHT release; the position and the
   * collider are untouched.
   */
  lemma {:induction false} BatchVelocity(s: AngelState, es: seq<Event>)
    ensures var r := AfterEvents(s, es);
      var m := multiset(es);
      && r.velX == s.velX + m[KeyDown(Right, false)] - m[KeyDown(Left, false)]
                          + m[KeyUp(Left, false)] - m[KeyUp(Right, false)]
      && r.posX == s.posX && r.posY == s.posY && r.collider == s.collider
  {
    if es != [] {
      var init := es[..|es| - 1];
      BatchVelocity(s, init);
      assert es == init + [es[|es| - 1]];
    }
  }

  /** `Angel::move`: moves by velocity times multiplier, and on leaving the screen steps back by the velocity once. */
  function AfterMove(s: AngelState, angelMovement: int): (r: AngelState)
    ensures r.posY == s.posY && r.velX == s.velX
    ensures r.collider == s.collider.(x := r.posX, y := r.posY)
    ensures var moved := s.posX + s.velX * angelMovement;
      0 <= moved <= SCREEN_WIDTH - ANGEL_WIDTH ==> r.posX == moved
    ensures var moved := s.posX + s.velX * angelMovement;
      !(0 <= moved <= SCREEN_WIDTH - ANGEL_WIDTH) ==> r.posX == s.posX + s.velX * (angelMovement - 1)
  {
    var x := s.posX + s.velX * angelMovement;
    var x' := if x < 0 || x + ANGEL_WIDTH > SCREEN_WIDTH then x - s.velX else x;
    s.(posX := x', collider := s.collider.(x := x', y := s.posY))
  }

  /** At multiplier 1 a step that would leave the screen is undone entirely, so the avatar stays on screen. */
  lemma StaysOnScreenAtUnitSpeed(s: AngelState)
    requires 0 <= s.posX <= SCREEN_WIDTH - ANGEL_WIDTH
    ensures 0 <= AfterMove(s, 1).posX <= SCREEN_WIDTH - ANGEL_WIDTH
  {
  }

  /** At multiplier 2 the step back is only half the step: from x = 0 moving left the avatar ends at x = -1. */
  lemma DriftsOffScreenAtDoubleSpeed()
    ensures AfterMove(AngelState(0, 10, -1, Rect(0, 10, ANGEL_WIDTH, ANGEL_HEIGHT)), 2).posX == -1
  {
  }

  /** An `Angel` object (`mVelY` is left out: nothing reads it). */
  class Angel {
    var mPosX: int
    var mPosY: int
    var mVelX: int
    var mCollider: Rect

    constructor ()
      ensures State() == InitialAngel
    {
      mPosX := 0;
      mPosY := 10;
      mCollider := Rect(0, 0, ANGEL_WIDTH, ANGEL_HEIGHT);
      mVelX := 0;
    }

    /** The fields as a value. */
    function State(): AngelState
      reads this
    {
      AngelState(mPosX, mPosY, mVelX, mCollider)
    }

    /** `Angel::handleEvent`. */
    method HandleEvent(e: Event)
      modifies this
      ensures State() == AfterEvent(old(State()), e)
    {
      if e.KeyDown? && !e.repeat {
        match e.key
        case Left => mVelX := mVelX - ANGEL_VEL;
        case Right => mVelX := mVelX + ANGEL_VEL;
        case _ =>
      } else if e.KeyUp? && !e.repeat {
        match e.key
        case Left => mVelX := mVelX + ANGEL_VEL;
        case Right => mVelX := mVelX - ANGEL_VEL;
        case _ =>
      }
    }

    /** `Angel::move`. */
    method Move(difficulty: Settings.Difficulty)
      modifies this
      ensures State() == AfterMove(old(State()), difficulty.angelMovement)
    {
      mPosX := mPosX + mVelX * difficulty.angelMovement;
      mCollider := mCollider.(x := mPosX);
      if mPosX < 0 || mPosX + ANGEL_WIDTH > SCREEN_WIDTH {
        mPosX := mPosX - mVelX;
        mCollider := mCollider.(x := mPosX);
      }
      mCollider := mCollider.(y := mPosY);
    }
  }
}
