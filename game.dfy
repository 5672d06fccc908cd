/**
 * The main loop: the game-status machine (0 Menu, 1 Playing, 2 Lost, 3 Won),
 * the per-frame call order of the actors, and the loop that runs until a quit
 * request.
 */
module Game {
  import opened Geometry
  import opened Input
  import Settings
  import Player
  import Guardian
  import Enemy
  import Projectile
  import Scheduler

  const MENU := 0
  const PLAYING := 1
  const LOST := Projectile.LOST
  const WON := Enemy.WON

  /** The horizon line: a one-pixel strip across the screen at y = 50. */
  const HORIZON := Rect(0, 50, SCREEN_WIDTH, 1)

  /** Everything one iteration of the main loop reads and writes, as a value. */
  datatype World = World(
    status: int,
    level: int,
    profile: Settings.Profile,
    angel: Player.AngelState,
    light: Guardian.LightState,
    devil: Enemy.DevilState,
    fires: seq<Projectile.FireState>,
    lightTimer: int,
    lastTime: int)

  /** The state before the first iteration, given the `rand()` value the enemy's constructor reads. */
  function InitialWorld(devilRoll: nat): World
  {
    World(MENU, 0, Settings.DefaultProfile, Player.InitialAngel, Guardian.InitialLight,
          Enemy.InitialDevil(devilRoll), seq(Scheduler.SLOTS, _ => Projectile.InitialFire),
          Scheduler.INITIAL_LIGHT_TIMER, 0)
  }

  /**
   * What one iteration reads from outside: the events each poll loop drains (the
   * menu poll, the playing poll, and the poll of the Lost or Won screen), the
   * clock, and the values of the two `rand()` calls of the playing step.
   */
  datatype FrameInput = FrameInput(
    menuEvents: seq<Event>,
    playEvents: seq<Event>,
    endEvents: seq<Event>,
    clock: int,
    devilRoll: nat,
    timerRoll: nat)

  /** A poll loop that hands each event to the menu (status 0, 2 and 3). */
  function MenuPoll(w: World, es: seq<Event>): World
  {
    var sel := Settings.AfterEvents(Settings.Selection(w.level, w.profile), es);
    w.(level := sel.level, profile := sel.profile)
  }

  /** The slots after the arming block: one more is armed when the timer has run out. */
  function ArmedSlots(w: World, clock: int): seq<Projectile.FireState>
  {
    if Scheduler.Expired(clock, w.lastTime, w.lightTimer) then Scheduler.ArmFirst(w.fires) else w.fires
  }

  /** The loop that moves every slot, in index order. */
  function MoveFires(slots: seq<Projectile.FireState>, devil: Enemy.DevilState, angel: Rect, fireMovement: int)
    : (r: seq<Projectile.FireState>)
    ensures |r| == |slots|
  {
    seq(|slots|, i requires 0 <= i < |slots| =>
      Projectile.AfterMove(slots[i], devil.posX, devil.posY, angel, HORIZON, fireMovement))
  }

  /** Some slot meets the avatar during the projectile loop. */
  predicate AnyHitsAngel(slots: seq<Projectile.FireState>, devil: Enemy.DevilState, angel: Rect)
  {
    exists i :: 0 <= i < |slots| && Projectile.HitsAngel(slots[i], devil.posX, devil.posY, angel)
  }

  /**
   * The first part of the playing step: input to the avatar and the guardian,
   * then the avatar, the guardian and the enemy move; the enemy reaching the
   * guardian sets Won.
   */
  function ActorsStep(w: World, es: seq<Event>, devilRoll: nat): World
  {
    var p := w.profile;
    var angel := Player.AfterMove(Player.AfterEvents(w.angel, es), p.angelMovement);
    var light := Guardian.AfterMove(Guardian.AfterEvents(w.light, es), angel.posX, angel.posY, p.lightMovement);
    w.(status := if Enemy.HitsLight(w.devil, p.devilMovement, light.collider) then WON else w.status,
       angel := angel, light := light, devil := Enemy.AfterMove(w.devil, p.devilMovement, devilRoll))
  }

  /** The arming block: on a timeout, a new timer from the roll, the clock as the last time, and one slot armed. */
  function ScheduleStep(w: World, clock: int, timerRoll: nat): World
  {
    var expired := Scheduler.Expired(clock, w.lastTime, w.lightTimer);
    w.(fires := ArmedSlots(w, clock),
       lightTimer := if expired then Scheduler.NextTimer(w.profile.fireFrequency, timerRoll) else w.lightTimer,
       lastTime := if expired then clock else w.lastTime)
  }

  /** The projectile loop: every slot moves; one that meets the avatar sets Lost. */
  function FiresStep(w: World): World
  {
    w.(status := if AnyHitsAngel(w.fires, w.devil, w.angel.collider) then LOST else w.status,
       fires := MoveFires(w.fires, w.devil, w.angel.collider, w.profile.fireMovement))
  }

  /**
   * The playing step, in the order of the main loop: input to the avatar and
   * the guardian, then the avatar, the guardian and the enemy move, then the
   * scheduler, then every projectile.
   */
  function PlayStep(w: World, es: seq<Event>, clock: int, devilRoll: nat, timerRoll: nat): (r: World)
    ensures r.level == w.level && r.profile == w.profile && |r.fires| == |w.fires|
    ensures r.status == w.status || r.status == LOST || r.status == WON
  {
    FiresStep(ScheduleStep(ActorsStep(w, es, devilRoll), clock, timerRoll))
  }

  /** The status-0 block: the menu poll, then Playing as soon as a level is chosen. */
  function MenuBlock(w: World, input: FrameInput): (r: World)
    ensures w.status != MENU ==> r == w
    ensures w.status == MENU ==> (r.status == PLAYING <==> r.level > 0)
    ensures w.status == MENU ==> r.status == MENU || r.status == PLAYING
  {
    if w.status != MENU then w
    else
      var m := MenuPoll(w, input.menuEvents);
      if m.level > 0 then m.(status := PLAYING) else m
  }

  /** The status-1 block. */
  function PlayBlock(w: World, input: FrameInput): World
  {
    if w.status != PLAYING then w
    else PlayStep(w, input.playEvents, input.clock, input.devilRoll, input.timerRoll)
  }

  /** The status-2 and status-3 blocks: the menu poll only. */
  function EndBlock(w: World, input: FrameInput, status: int): World
  {
    if w.status != status then w else MenuPoll(w, input.endEvents)
  }

  /** One iteration of the main loop: the four blocks in order, each seeing the status the one before left. */
  function AfterFrame(w: World, input: FrameInput): (r: World)
    ensures MENU <= w.status <= WON ==> w.status <= r.status <= WON
    ensures w.status == LOST || w.status == WON ==> r.status == w.status
  {
    EndBlock(EndBlock(PlayBlock(MenuBlock(w, input), input), input, LOST), input, WON)
  }

  /** Whether one iteration polls a quit request in a block that runs. */
  predicate FrameQuits(w: World, input: FrameInput)
  {
    var w1 := MenuBlock(w, input);
    var w2 := PlayBlock(w1, input);
    var w3 := EndBlock(w2, input, LOST);
    || (w.status == MENU && Quit in input.menuEvents)
    || (w1.status == PLAYING && Quit in input.playEvents)
    || (w2.status == LOST && Quit in input.endEvents)
    || (w3.status == WON && Quit in input.endEvents)
  }

  /** Iterations of the main loop over a script of inputs, in order. */
  function RunFrames(w: World, script: seq<FrameInput>): World
  {
    if script == [] then w else AfterFrame(RunFrames(w, script[..|script| - 1]), script[|script| - 1])
  }

  /** None of the first `n` iterations of a script polls a quit request. */
  predicate NoQuitBefore(w: World, script: seq<FrameInput>, n: nat)
    requires n <= |script|
  {
    n == 0 || (NoQuitBefore(w, script, n - 1) && !FrameQuits(RunFrames(w, script[..n - 1]), script[n - 1]))
  }

  /** Running one more iteration of a script applies one more frame. */
  lemma RunFramesStep(w: World, script: seq<FrameInput>, n: nat)
    requires n < |script|
    ensures RunFrames(w, script[..n + 1]) == AfterFrame(RunFrames(w, script[..n]), script[n])
  {
    assert script[..n + 1][..n] == script[..n];
  }

  /**
   * What holds between iterations: the status is one of the four; it is Menu
   * exactly while no level is chosen; the multipliers are those of the level;
   * there are nine well-formed slots; the avatar stays on its row; and once
   * play has begun the guardian is within the screen's height.
   */
  predicate Inv(w: World)
  {
    && MENU <= w.status <= WON
    && (w.status == MENU <==> w.level == 0)
    && Settings.Consistent(Settings.Selection(w.level, w.profile))
    && |w.fires| == Scheduler.SLOTS
    && (forall i :: 0 <= i < |w.fires| ==> Projectile.WellFormed(w.fires[i]))
    && w.angel.posY == 10
    && (w.status != MENU ==> 0 <= w.light.posY <= SCREEN_HEIGHT - Guardian.LIGHT_HEIGHT)
  }

  lemma InitialWorldInv(devilRoll: nat)
    ensures Inv(InitialWorld(devilRoll))
  {
  }

  /** The menu poll keeps the level non-negative and the multipliers matching it, and changes nothing else. */
  lemma MenuPollKeeps(w: World, es: seq<Event>)
    requires w.level >= 0 && Settings.Consistent(Settings.Selection(w.level, w.profile))
    ensures var r := MenuPoll(w, es);
      && r.level >= 0 && (w.level > 0 ==> r.level > 0)
      && Settings.Consistent(Settings.Selection(r.level, r.profile))
      && r.(level := w.level, profile := w.profile) == w
  {
    Settings.BatchSelection(Settings.Selection(w.level, w.profile), es);
  }

  /** The playing step keeps every slot well formed. */
  lemma PlayStepKeepsSlots(w: World, es: seq<Event>, clock: int, devilRoll: nat, timerRoll: nat)
    requires forall i :: 0 <= i < |w.fires| ==> Projectile.WellFormed(w.fires[i])
    ensures var r := PlayStep(w, es, clock, devilRoll, timerRoll);
      forall i :: 0 <= i < |r.fires| ==> Projectile.WellFormed(r.fires[i])
  {
    var r := PlayStep(w, es, clock, devilRoll, timerRoll);
    var slots := ArmedSlots(w, clock);
    Scheduler.ArmKeepsWellFormed(w.fires);
    forall i | 0 <= i < |r.fires| ensures Projectile.WellFormed(r.fires[i]) {
      Projectile.MoveKeepsWellFormed(slots[i], r.devil.posX, r.devil.posY, r.angel.collider, HORIZON, w.profile.fireMovement);
    }
  }

  /** The playing step keeps the avatar on its row. */
  lemma PlayStepKeepsAngelRow(w: World, es: seq<Event>, clock: int, devilRoll: nat, timerRoll: nat)
    ensures PlayStep(w, es, clock, devilRoll, timerRoll).angel.posY == w.angel.posY
  {
    Player.BatchVelocity(w.angel, es);
  }

  /** Every iteration keeps the invariant. */
  lemma FrameKeepsInv(w: World, input: FrameInput)
    requires Inv(w)
    ensures Inv(AfterFrame(w, input))
  {
    var w1 := MenuBlock(w, input);
    MenuPollKeeps(w, input.menuEvents);
    var w2 := PlayBlock(w1, input);
    if w1.status == PLAYING {
      PlayStepKeepsSlots(w1, input.playEvents, input.clock, input.devilRoll, input.timerRoll);
      PlayStepKeepsAngelRow(w1, input.playEvents, input.clock, input.devilRoll, input.timerRoll);
    }
    var w3 := EndBlock(w2, input, LOST);
    MenuPollKeeps(w2, input.endEvents);
    MenuPollKeeps(w3, input.endEvents);
  }

  /**
   * Leaving the menu: the status stays 0, and nothing at all changes, until a
   * batch holds a press of `1` to `4`; in that same iteration the status becomes
   * 1 or beyond and the first playing step runs with the chosen multipliers.
   */
  lemma MenuStartsPlaying(w: World, input: FrameInput)
    requires Inv(w) && w.status == MENU
    ensures var r := AfterFrame(w, input);
      var chosen := exists i :: 0 <= i < |input.menuEvents| && Settings.SelectedLevel(input.menuEvents[i]) != 0;
      && (r.status == MENU <==> !chosen)
      && (!chosen ==> r == w)
      && (chosen ==>
            var m := MenuPoll(w, input.menuEvents);
            && 1 <= m.level <= 4 && m.profile == Settings.Preset(m.level)
            && r.angel == Player.AfterMove(Player.AfterEvents(w.angel, input.playEvents), m.profile.angelMovement))
  {
    Settings.BatchSelection(Settings.Selection(w.level, w.profile), input.menuEvents);
    MenuPollKeeps(w, input.menuEvents);
  }

  /** Lost and Won are final: only the menu's level and multipliers can still change. */
  lemma EndStatusesAreFinal(w: World, input: FrameInput)
    requires w.status == LOST || w.status == WON
    ensures var r := AfterFrame(w, input);
      r.status == w.status && r.(level := w.level, profile := w.profile) == w
  {
  }

  /**
   * The outcome of a playing step: Lost exactly when some slot meets the avatar,
   * even when the enemy met the guardian in the same frame (the projectiles move
   * after the enemy); otherwise Won exactly when the enemy meets the guardian.
   */
  lemma PlayOutcome(w: World, es: seq<Event>, clock: int, devilRoll: nat, timerRoll: nat)
    requires w.status == PLAYING
    ensures var r := PlayStep(w, es, clock, devilRoll, timerRoll);
      var fireHit := AnyHitsAngel(ArmedSlots(w, clock), r.devil, r.angel.collider);
      var devilHit := Enemy.HitsLight(w.devil, w.profile.devilMovement, r.light.collider);
      && (r.status == LOST <==> fireHit)
      && (r.status == WON <==> !fireHit && devilHit)
      && (r.status == PLAYING <==> !fireHit && !devilHit)
  {
  }

  /** Over any run the invariant holds, the status never decreases, and Lost or Won never changes. */
  lemma {:induction false} RunKeepsInv(w: World, script: seq<FrameInput>)
    requires Inv(w)
    ensures var r := RunFrames(w, script);
      && Inv(r)
      && r.status >= w.status
      && (w.status == LOST || w.status == WON ==> r.status == w.status)
  {
    if script != [] {
      var prev := RunFrames(w, script[..|script| - 1]);
      RunKeepsInv(w, script[..|script| - 1]);
      FrameKeepsInv(prev, script[|script| - 1]);
      if prev.status == LOST || prev.status == WON {
        EndStatusesAreFinal(prev, script[|script| - 1]);
      }
    }
  }

  /** The declaration `Fire fire[9]`: nine freshly constructed, distinct slot objects. */
  method NewSlots() returns (slots: array<Projectile.Fire>)
    ensures fresh(slots) && slots.Length == Scheduler.SLOTS
    ensures forall j, k :: 0 <= j < k < slots.Length ==> slots[j] != slots[k]
    ensures forall j :: 0 <= j < slots.Length ==> fresh(slots[j]) && slots[j].State() == Projectile.InitialFire
  {
    var first := new Projectile.Fire();
    slots := new Projectile.Fire[Scheduler.SLOTS](_ => first);
    for i := 1 to Scheduler.SLOTS
      invariant forall j :: 0 <= j < Scheduler.SLOTS ==> fresh(slots[j]) && slots[j].State() == Projectile.InitialFire
      invariant forall j, k :: 0 <= j < k < i ==> slots[j] != slots[k]
      invariant forall j :: i <= j < Scheduler.SLOTS ==> slots[j] == first
    {
      var f := new Projectile.Fire();
      slots[i] := f;
    }
  }

  /** The locals and globals of `main`: the status, the level, the actors, the slots and the timer. */
  class Session {
    var gameStatus: int
    var difficultyLevel: int
    var lightTimer: int
    var lastTime: int
    const menu: Settings.Menu
    const difficulty: Settings.Difficulty
    const angel: Player.Angel
    const light: Guardian.Light
    const devil: Enemy.Devil
    const fire: array<Projectile.Fire>
    const horizonLine: Rect

    /** Nine distinct slot objects and the horizon line. */
    ghost predicate Valid()
      reads fire
    {
      && fire.Length == Scheduler.SLOTS
      && (forall i, j :: 0 <= i < j < fire.Length ==> fire[i] != fire[j])
      && horizonLine == HORIZON
    }

    /** The objects and variables as a value. */
    function State(): World
      reads this, difficulty, angel, light, devil, fire, fire[..]
    {
      World(gameStatus, difficultyLevel, difficulty.Value(), angel.State(), light.State(), devil.State(),
                 Scheduler.FireStates(fire), lightTimer, lastTime)
    }

    /** The set-up part of `main` that the simulation reads, given the value of the enemy's `rand()` call. */
    constructor (devilRoll: nat)
      ensures Valid() && State() == InitialWorld(devilRoll)
    {
      gameStatus := MENU;
      difficultyLevel := 0;
      menu := new Settings.Menu();
      difficulty := new Settings.Difficulty();
      angel := new Player.Angel();
      light := new Guardian.Light();
      devil := new Enemy.Devil(devilRoll);
      var slots := NewSlots();
      fire := slots;
      lightTimer := Scheduler.INITIAL_LIGHT_TIMER;
      lastTime := 0;
      horizonLine := HORIZON;
      new;
      assert Scheduler.FireStates(fire) == seq(Scheduler.SLOTS, _ => Projectile.InitialFire);
    }

    /** A poll loop that hands each event to the menu; returns whether it polled a quit request. */
    method PollMenu(events: seq<Event>) returns (quit: bool)
      requires Valid()
      modifies this, difficulty
      ensures Valid()
      ensures State() == MenuPoll(old(State()), events)
      ensures quit == (Quit in events)
    {
      ghost var w0 := State();
      quit := false;
      for i := 0 to |events|
        invariant State() == MenuPoll(w0, events[..i])
        invariant quit == (Quit in events[..i])
      {
        var e := events[i];
        assert events[..i + 1] == events[..i] + [e];
        difficultyLevel := menu.HandleEvent(e, difficultyLevel, difficulty);
        if e.Quit? {
          quit := true;
        }
      }
      assert events[..|events|] == events;
    }

    /** The poll loop of the playing block: each event goes to the avatar, then to the guardian. */
    method PollPlay(events: seq<Event>) returns (quit: bool)
      modifies angel, light
      ensures angel.State() == Player.AfterEvents(old(angel.State()), events)
      ensures light.State() == Guardian.AfterEvents(old(light.State()), events)
      ensures quit == (Quit in events)
    {
      quit := false;
      for i := 0 to |events|
        invariant angel.State() == Player.AfterEvents(old(angel.State()), events[..i])
        invariant light.State() == Guardian.AfterEvents(old(light.State()), events[..i])
        invariant quit == (Quit in events[..i])
      {
        var e := events[i];
        assert events[..i + 1] == events[..i] + [e];
        if e.Quit? {
          quit := true;
        }
        angel.HandleEvent(e);
        light.HandleEvent(e);
      }
      assert events[..|events|] == events;
    }

    /** The projectile loop: every slot moves in index order, and any that meets the avatar sets Lost. */
    method MoveAllFires()
      requires Valid()
      modifies this`gameStatus, fire[..]
      ensures State() == FiresStep(old(State()))
    {
      MoveSlots();
    }

    /** The loop of `MoveAllFires`, stated over the slots and the status alone. */
    method MoveSlots()
      requires Valid()
      modifies this`gameStatus, fire[..]
      ensures Scheduler.FireStates(fire)
           == MoveFires(old(Scheduler.FireStates(fire)), devil.State(), angel.mCollider, difficulty.fireMovement)
      ensures gameStatus
           == if AnyHitsAngel(old(Scheduler.FireStates(fire)), devil.State(), angel.mCollider) then LOST else old(gameStatus)
    {
      ghost var armed := Scheduler.FireStates(fire);
      for i := 0 to fire.Length
        invariant forall j :: 0 <= j < i ==>
          fire[j].State() == Projectile.AfterMove(armed[j], devil.mPosX, devil.mPosY, angel.mCollider, HORIZON, difficulty.fireMovement)
        invariant forall j :: i <= j < fire.Length ==> fire[j].State() == armed[j]
        invariant gameStatus == if AnyHitsAngel(armed[..i], devil.State(), angel.mCollider) then LOST else old(gameStatus)
      {
        assert armed[..i + 1] == armed[..i] + [armed[i]];
        gameStatus := fire[i].Move(devil, angel, horizonLine, gameStatus, difficulty);
      }
      assert armed[..fire.Length] == armed;
      assert Scheduler.FireStates(fire) == MoveFires(armed, devil.State(), angel.mCollider, difficulty.fireMovement);
    }

    /** The arming block: on a timeout, a new timer from the roll, the clock as the last time, and one slot armed. */
    method Schedule(clock: int, timerRoll: nat)
      requires Valid()
      modifies this`lightTimer, this`lastTime, fire[..]
      ensures State() == ScheduleStep(old(State()), clock, timerRoll)
    {
      var currentTime := clock;
      if currentTime > lastTime + lightTimer {
        lightTimer := 100 * difficulty.fireFrequency + difficulty.fireFrequency * (timerRoll % 1000);
        lastTime := currentTime;
        Scheduler.Arm(fire);
      }
    }

    /** The first part of the playing block: the poll loop, then the avatar, the guardian and the enemy move. */
    method MoveActors(events: seq<Event>, devilRoll: nat) returns (quit: bool)
      modifies this`gameStatus, angel, light, devil
      ensures quit == (Quit in events)
      ensures State() == ActorsStep(old(State()), events, devilRoll)
    {
      quit := PollPlay(events);
      angel.Move(difficulty);
      light.Move(angel, difficulty);
      gameStatus := devil.Move(light, difficulty, devilRoll, gameStatus);
    }

    /** The playing block: its poll loop, the three actor moves, the scheduler and the projectile loop. */
    method Play(events: seq<Event>, clock: int, devilRoll: nat, timerRoll: nat) returns (quit: bool)
      requires Valid()
      modifies this, angel, light, devil, fire[..]
      ensures Valid()
      ensures State() == PlayStep(old(State()), events, clock, devilRoll, timerRoll)
      ensures quit == (Quit in events)
    {
      quit := MoveActors(events, devilRoll);
      Schedule(clock, timerRoll);
      MoveAllFires();
    }

    /** One iteration of the main loop; returns whether a quit request was polled. */
    method Frame(input: FrameInput) returns (quit: bool)
      requires Valid()
      modifies this, difficulty, angel, light, devil, fire[..]
      ensures Valid()
      ensures State() == AfterFrame(old(State()), input)
      ensures quit == FrameQuits(old(State()), input)
    {
      quit := false;
      if gameStatus == MENU {
        quit := PollMenu(input.menuEvents);
        if difficultyLevel > 0 {
          gameStatus := PLAYING;
        }
      }
      if gameStatus == PLAYING {
        var q := Play(input.playEvents, input.clock, input.devilRoll, input.timerRoll);
        quit := quit || q;
      }
      if gameStatus == LOST {
        var q := PollMenu(input.endEvents);
        quit := quit || q;
      }
      if gameStatus == WON {
        var q := PollMenu(input.endEvents);
        quit := quit || q;
      }
    }

    /**
     * The `while (!quit)` loop over a script of iterations; returns how many ran:
     * up to and including the first that polls a quit request, or the whole script.
     */
    method Run(script: seq<FrameInput>) returns (frames: nat)
      requires Valid()
      modifies this, difficulty, angel, light, devil, fire[..]
      ensures Valid() && frames <= |script|
      ensures State() == RunFrames(old(State()), script[..frames])
      ensures NoQuitBefore(old(State()), script, if frames == 0 then 0 else frames - 1)
      ensures frames < |script| ==> 0 < frames && FrameQuits(RunFrames(old(State()), script[..frames - 1]), script[frames - 1])
    {
      ghost var w0 := State();
      var quit := false;
      frames := 0;
      while !quit && frames < |script|
        invariant Valid() && frames <= |script|
        invariant State() == RunFrames(w0, script[..frames])
        invariant NoQuitBefore(w0, script, if frames == 0 then 0 else frames - 1)
        invariant quit <==> 0 < frames && FrameQuits(RunFrames(w0, script[..frames - 1]), script[frames - 1])
      {
        RunFramesStep(w0, script, frames);
        quit := Frame(script[frames]);
        frames := frames + 1;
      }
    }
  }
}
