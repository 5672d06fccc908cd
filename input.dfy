/** The input events the game reads from its event queue. */
module Input {
  /** The key symbols the game reacts to; every other symbol is `OtherKey`. */
  datatype Key = Down | Left | Right | Num1 | Num2 | Num3 | Num4 | Escape | OtherKey

  /**
   * An `SDL_Event` as the game sees it: a key press or release with its
   * `repeat` flag (true for an auto-repeat), the window's quit request,
   * or any other event.
   */
  datatype Event = KeyDown(key: Key, repeat: bool) | KeyUp(key: Key, repeat: bool) | Quit | Other

  /** A key press or release that is not an auto-repeat: the only kind any handler reacts to. */
  predicate IsFresh(e: Event)
  {
    (e.KeyDown? || e.KeyUp?) && !e.repeat
  }
}
