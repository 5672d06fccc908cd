/** The difficulty multipliers and the menu that selects one of four presets. */
module Settings {
  import opened Input

  /** The five multipliers a `Difficulty` object holds, as a value. */
  datatype Profile = Profile(
    angelMovement: int,
    lightMovement: int,
    devilMovement: int,
    fireFrequency: int,
    fireMovement: int)

  /** What the `Difficulty` constructor sets before any level is chosen. */
  const DefaultProfile := Profile(1, 1, 1, 100, 1)

  /** The multipliers the menu writes for levels 1 to 4. */
  function Preset(level: int): (p: Profile)
    requires 1 <= level <= 4
    ensures p.angelMovement >= 1 && p.lightMovement >= 1 && p.devilMovement >= 1
    ensures p.fireFrequency >= 1 && p.fireMovement >= 1
  {
    if level == 1 then Profile(2, 5, 1, 3, 3)
    else if level == 2 then Profile(2, 4, 3, 4, 4)
    else if level == 3 then Profile(2, 3, 4, 6, 5)
    else Profile(1, 5, 10, 1, 7)
  }

  /** The level an event selects: 1 to 4 for a non-repeat press of `1` to `4`, 0 for any other event. */
  function SelectedLevel(e: Event): (level: int)
    ensures 0 <= level <= 4
    ensures level != 0 <==> e.KeyDown? && !e.repeat && e.key in {Num1, Num2, Num3, Num4}
  {
    if !e.KeyDown? || e.repeat then 0
    else match e.key
      case Num1 => 1
      case Num2 => 2
      case Num3 => 3
      case Num4 => 4
      case _ => 0
  }

  /** The pair (`difficultyLevel`, `difficulty`) that the menu writes through its reference parameters. */
  datatype Selection = Selection(level: int, profile: Profile)

  /** The profile is the one the level names: the default at level 0, a preset at levels 1 to 4. */
  predicate Consistent(st: Selection)
  {
    if st.level == 0 then st.profile == DefaultProfile
    else 1 <= st.level <= 4 && st.profile == Preset(st.level)
  }

  /** `Menu::handleEvent` on one event. */
  function AfterEvent(st: Selection, e: Event): (r: Selection)
    ensures r.level == if SelectedLevel(e) != 0 then SelectedLevel(e) else st.level
    ensures SelectedLevel(e) != 0 ==> Consistent(r)
    ensures Consistent(st) ==> Consistent(r)
  {
    var level := SelectedLevel(e);
    if level == 0 then st else Selection(level, Preset(level))
  }

  /** `Menu::handleEvent` on each event of a drained batch, in order. */
  function AfterEvents(st: Selection, es: seq<Event>): Selection
  {
    if es == [] then st else AfterEvent(AfterEvents(st, es[..|es| - 1]), es[|es| - 1])
  }

  /**
   * A non-repeat press of `1` to `4` selects that level and exactly its five
   * multipliers; every other event, repeats included, changes nothing.
   */
  lemma MenuSelection(st: Selection, e: Event)
    ensures e.KeyDown? && !e.repeat && e.key == Num1 ==> AfterEvent(st, e) == Selection(1, Profile(2, 5, 1, 3, 3))
    ensures e.KeyDown? && !e.repeat && e.key == Num2 ==> AfterEvent(st, e) == Selection(2, Profile(2, 4, 3, 4, 4))
    ensures e.KeyDown? && !e.repeat && e.key == Num3 ==> AfterEvent(st, e) == Selection(3, Profile(2, 3, 4, 6, 5))
    ensures e.KeyDown? && !e.repeat && e.key == Num4 ==> AfterEvent(st, e) == Selection(4, Profile(1, 5, 10, 1, 7))
    ensures !(e.KeyDown? && !e.repeat && e.key in {Num1, Num2, Num3, Num4}) ==> AfterEvent(st, e) == st
  {
  }

  /**
   * After a batch the level is positive exactly when it was before or the batch
   * held a selecting press; a batch without one changes nothing; and the
   * profile keeps matching the level.
   */
  lemma {:induction false} BatchSelection(st: Selection, es: seq<Event>)
    requires st.level >= 0
    ensures var r := AfterEvents(st, es);
      && (r.level > 0 <==> st.level > 0 || exists i :: 0 <= i < |es| && SelectedLevel(es[i]) != 0)
      && ((forall i :: 0 <= i < |es| ==> SelectedLevel(es[i]) == 0) ==> r == st)
      && (Consistent(st) ==> Consistent(r))
  {
    if es != [] {
      var init := es[..|es| - 1];
      BatchSelection(st, init);
      forall i | 0 <= i < |init| ensures init[i] == es[i] { }
    }
  }

  /** A `Difficulty` object. */
  class Difficulty {
    var angelMovement: int
    var lightMovement: int
    var devilMovement: int
    var fireFrequency: int
    var fireMovement: int

    constructor ()
      ensures Value() == DefaultProfile
    {
      angelMovement := 1;
      lightMovement := 1;
      devilMovement := 1;
      fireFrequency := 100;
      fireMovement := 1;
    }

    /** The five fields as a value. */
    function Value(): Profile
      reads this
    {
      Profile(angelMovement, lightMovement, devilMovement, fireFrequency, fireMovement)
    }
  }

  /** The menu screen; it keeps no state of its own. */
  class Menu {
    constructor ()
    {
    }

    /**
     * `Menu::handleEvent`: returns the new `difficultyLevel` and overwrites
     * the multipliers of `difficulty` when a level is chosen.
     */
    method HandleEvent(e: Event, difficultyLevel: int, difficulty: Difficulty) returns (difficultyLevel': int)
      modifies difficulty
      ensures Selection(difficultyLevel', difficulty.Value())
           == AfterEvent(Selection(difficultyLevel, old(difficulty.Value())), e)
    {
      difficultyLevel' := difficultyLevel;
      if e.KeyDown? && !e.repeat {
        match e.key
        case Num1 =>
          difficultyLevel' := 1;
          difficulty.fireFrequency := 3;
          difficulty.fireMovement := 3;
          difficulty.angelMovement := 2;
          difficulty.lightMovement := 5;
          difficulty.devilMovement := 1;
        case Num2 =>
          difficultyLevel' := 2;
          difficulty.fireFrequency := 4;
          difficulty.fireMovement := 4;
          difficulty.angelMovement := 2;
          difficulty.lightMovement := 4;
          difficulty.devilMovement := 3;
        case Num3 =>
          difficultyLevel' := 3;
          difficulty.fireFrequency := 6;
          difficulty.fireMovement := 5;
          difficulty.angelMovement := 2;
          difficulty.lightMovement := 3;
          difficulty.devilMovement := 4;
        case Num4 =>
          difficultyLevel' := 4;
          difficulty.fireFrequency := 1;
          difficulty.fireMovement := 7;
          difficulty.angelMovement := 1;
          difficulty.lightMovement := 5;
          difficulty.devilMovement := 10;
        case Escape =>
          // the program calls SDL_Quit() here, a library call outside this model
        case _ =>
      }
    }
  }
}
