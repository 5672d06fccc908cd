/** The guardian (`Light`): deployed from the top onto the avatar, then descends until it leaves the screen. */
module Guardian {
  import opened Geometry
  import opened Input
  import Settings
  import Player

  const LIGHT_WIDTH := 15
  const LIGHT_HEIGHT := 60

  /** The guardian's modelled fields. */
  datatype LightState = LightState(posX: int, posY: int, velY: int, activated: bool, collider: Rect)

  /** The state the `Light` constructor leaves: parked off screen, at rest. */
  const InitialLight := LightState(666, 666, 0, false, Rect(0, 0, LIGHT_WIDTH, LIGHT_HEIGHT))

  /** `Light::handleEvent` on one event. */
  function AfterEvent(s: LightState, e: Event): (r: LightState)
    ensures r.posX == s.posX && r.posY == s.posY && r.collider == s.collider
    ensures r.activated == (s.activated || (s.posY < 20 && e == KeyDown(Down, false)))
    ensures r.velY == if s.posY < 20 && e == KeyDown(Down, false) then 1 else s.velY
  {
    if e.KeyDown? && !e.repeat && e.key == Down && s.posY < 20 then s.(velY := 1, activated := true)
    else s
  }

  /** `Light::handleEvent` on each event of a drained batch, in order. */
  function AfterEvents(s: LightState, es: seq<Event>): LightState
  {
    if es == [] then s else AfterEvent(AfterEvents(s, es[..|es| - 1]), es[|es| - 1])
  }

  /**
   * A batch arms the guardian exactly when it holds a non-repeat DOWN press while
   * the guardian is above y = 20; it never moves the guardian.
   */
  lemma {:induction false} BatchDeploy(s: LightState, es: seq<Event>)
    ensures var r := AfterEvents(s, es);
      var armed := s.posY < 20 && KeyDown(Down, false) in es;
      && r.activated == (s.activated || armed)
      && r.velY == (if armed then 1 else s.velY)
      && r.posX == s.posX && r.posY == s.posY && r.collider == s.collider
  {
    if es != [] {
      var init := es[..|es| - 1];
      BatchDeploy(s, init);
      assert es == init + [es[|es| - 1]];
    }
  }

  /**
   * `Light::move`: an armed guardian first jumps to the avatar; the collider takes
   * the position before the vertical step; a guardian that then leaves the screen
   * is parked at (1, 1) at rest, its collider keeping the old x.
   */
  function AfterMove(s: LightState, angelX: int, angelY: int, lightMovement: int): (r: LightState)
    ensures 0 <= r.posY <= SCREEN_HEIGHT - LIGHT_HEIGHT
    ensures !r.activated
    ensures var (x0, y0) := if s.activated then (angelX, angelY) else (s.posX, s.posY);
      var y1 := y0 + s.velY * lightMovement;
      && r.collider.x == x0 && r.collider.w == s.collider.w && r.collider.h == s.collider.h
      && (0 <= y1 <= SCREEN_HEIGHT - LIGHT_HEIGHT ==>
            r.posX == x0 && r.posY == y1 && r.velY == s.velY && r.collider.y == y0)
      && (!(0 <= y1 <= SCREEN_HEIGHT - LIGHT_HEIGHT) ==>
            r.posX == 1 && r.posY == 1 && r.velY == 0 && r.collider.y == 1)
  {
    var s1 := if s.activated then s.(posX := angelX, posY := angelY, activated := false) else s;
    var s2 := s1.(collider := s1.collider.(x := s1.posX, y := s1.posY), posY := s1.posY + s1.velY * lightMovement);
    if s2.posY < 0 || s2.posY + LIGHT_HEIGHT > SCREEN_HEIGHT then
      s2.(velY := 0, posY := 1, posX := 1, collider := s2.collider.(y := 1))
    else s2
  }

  /**
   * The deploy handshake: a DOWN press near the top arms the guardian; on the next
   * move its collider is exactly the avatar's position and it has started to
   * descend from there.
   */
  lemma DeployHandshake(s: LightState, angelX: int, angelY: int, lightMovement: int)
    requires s.posY < 20
    requires 0 <= angelY + lightMovement <= SCREEN_HEIGHT - LIGHT_HEIGHT
    ensures var armed := AfterEvent(s, KeyDown(Down, false));
      var r := AfterMove(armed, angelX, angelY, lightMovement);
      && armed.activated && armed.posX == s.posX && armed.posY == s.posY
      && r.collider.x == angelX && r.collider.y == angelY
      && r.posX == angelX && r.posY == angelY + lightMovement && r.velY == 1 && !r.activated
  {
  }

  /** A `Light` object (`mVelX` is left out: it stays 0 and nothing reads it). */
  class Light {
    var mPosX: int
    var mPosY: int
    var mVelY: int
    var activated: bool
    var mCollider: Rect

    constructor ()
      ensures State() == InitialLight
    {
      mPosX := 666;
      mPosY := 666;
      mCollider := Rect(0, 0, LIGHT_WIDTH, LIGHT_HEIGHT);
      mVelY := 0;
      activated := false;
    }

    /** The fields as a value. */
    function State(): LightState
      reads this
    {
      LightState(mPosX, mPosY, mVelY, activated, mCollider)
    }

    /** `Light::handleEvent`. */
    method HandleEvent(e: Event)
      modifies this
      ensures State() == AfterEvent(old(State()), e)
    {
      if e.KeyDown? && !e.repeat {
        match e.key
        case Down =>
          if mPosY < 20 {
            mVelY := 1;
            activated := true;
          }
        case _ =>
      }
    }

    /** `Light::move`. */
    method Move(angel: Player.Angel, difficulty: Settings.Difficulty)
      modifies this
      ensures State() == AfterMove(old(State()), angel.mPosX, angel.mPosY, difficulty.lightMovement)
    {
      if activated {
        mPosX := angel.mPosX;
        mPosY := angel.mPosY;
        activated := !activated;
      }
      mCollider := mCollider.(x := mPosX, y := mPosY);
      mPosY := mPosY + mVelY * difficulty.lightMovement;
      if mPosY < 0 || mPosY + LIGHT_HEIGHT > SCREEN_HEIGHT {
        mVelY := 0;
        mPosY := 1;
        mPosX := 1;
        mCollider := mCollider.(y := mPosY);
      }
    }
  }
}
