# Dodge-the-fire game core, modelled in Dafny

This project models the simulation core of a small SDL game (`Project1/main.cpp`).
An avatar (`Angel`) moves left and right along the top of the screen. On a DOWN key
it can drop a guardian (`Light`) from its own position. An enemy (`Devil`) patrols
left and right lower down; at each turn it moves to a random nearby lane when that
lane passes a bounds test, and otherwise keeps its lane. A pool of nine
projectile slots (`Fire`) is armed by a randomized timer. Each armed slot spawns at
the enemy and rises in accelerating leaps. The game is Lost when a projectile meets
the avatar and Won when the enemy meets the guardian. A menu picks one of four
difficulty presets, which scale every speed and the arming interval.

The model keeps the program's own form:

- Each simulation class (`Difficulty`, `Menu`, `Angel`, `Light`, `Devil`, `Fire`) is a
  Dafny `class` with the fields the simulation reads and its non-rendering methods.
  The rendering classes (`l_texture`, `Background`, `WinScreen`, `LoseScreen`) are
  not modelled.
- Each method is proved against a pure function on a value of the object's fields
  (`State() == AfterMove(old(State()), …)`).
- The lemmas about those functions state what the game promises.
- The locals of `main` are fields of `Game.Session`. Its `Frame` method is one
  iteration of the `while (!quit)` loop, and `Run` is the loop over a script of
  iterations.
- `checkCollision` is a pure function.

The following quirks of the code are reproduced as written:

- The guardian and the projectiles record their collider before they move.
- The avatar steps back by its velocity, not by the velocity times the multiplier.
- The enemy's lane bound uses the screen width.
- The projectile's `FIRE_VEL * 1.2` contribution is truncated to an integer.
- A Lost set by a projectile overwrites a Won the enemy set in the same frame.

Outside effects become parameters:

- Each `rand()` call becomes a `nat` roll.
- `SDL_GetTicks()` becomes the clock value of an iteration.
- Each `while (SDL_PollEvent(…))` loop becomes the batch of events it drains. One
  iteration has three batches: the menu's, the playing block's, and that of the
  Lost or Won screen.

Modules:

- `Geometry`: screen size and `checkCollision`.
- `Input`: SDL events.
- `Settings`: `Difficulty` and `Menu`.
- `Player`: `Angel`.
- `Guardian`: `Light`.
- `Enemy`: `Devil`.
- `Projectile`: `Fire`.
- `Scheduler`: the timer and the arming loop.
- `Game`: the main loop.

## Model

| member | source | states |
|---|---|---|
| Geometry.CheckCollision | Project1/main.cpp:790-827 | for boxes of positive size, a collision is reported exactly when the horizontal spans overlap and the vertical spans overlap |
| Geometry.CollisionIffSharedPixel | Project1/main.cpp:790-827 | for boxes of positive size, the four side tests report a collision exactly when the two boxes share a pixel (both directions) |
| Geometry.CollisionSymmetric | Project1/main.cpp:790-827 | the collision test gives the same answer with its arguments swapped |
| Geometry.TouchingEdgesDoNotCollide | Project1/main.cpp:805-823 | the rejections use `<=` and `>=`, so boxes that only share an edge do not collide, in either order |
| Geometry.AdjacentSquaresDoNotCollide | Project1/main.cpp:815-818 | two 10x10 boxes side by side at x = 0 and x = 10 do not collide |
| Settings.Preset | Project1/main.cpp:472-503 | the four presets, every multiplier and the frequency at least 1 |
| Settings.SelectedLevel | Project1/main.cpp:468-503 | an event selects a level (1 to 4) exactly when it is a non-repeat key-down of `1` to `4`; otherwise 0 |
| Settings.MenuSelection | Project1/main.cpp:466-511 | each of `1` to `4` writes its level and exactly its five multipliers; every other event, repeats and ESC included, changes neither |
| Settings.BatchSelection | Project1/main.cpp:886-898 | after a drained batch the level is positive exactly when it was before or the batch held a selecting press; a batch without one changes nothing; the multipliers keep matching the level |
| Settings.Difficulty.constructor | Project1/main.cpp:352-359 | the default multipliers (1, 1, 1, 100, 1) |
| Settings.AfterEvent | Project1/main.cpp:466-511 | the level becomes the one the event selects, or stays when it selects none; a selection leaves the multipliers matching the level, and a matching pair stays matching |
| Settings.Menu.HandleEvent | Project1/main.cpp:466-511 | the new level and multipliers are those of `Settings.AfterEvent` on the old pair |
| Player.AfterEvent | Project1/main.cpp:416-444 | handling an event never moves the avatar and changes its velocity by at most one; repeats and non-key events change nothing |
| Player.PressReleaseRestores | Project1/main.cpp:424-439 | pressing then releasing LEFT or RIGHT restores the state |
| Player.BatchVelocity | Project1/main.cpp:903-911 | after a batch the velocity is the old one plus the RIGHT presses and LEFT releases minus the LEFT presses and RIGHT releases; position and collider are untouched |
| Player.AfterMove | Project1/main.cpp:513-525 | the row and velocity stay; the collider is the new position; an in-bounds step lands on x + v·m; an out-of-bounds step ends at x + v·(m − 1) |
| Player.StaysOnScreenAtUnitSpeed | Project1/main.cpp:515-522 | at multiplier 1 an on-screen avatar stays on screen |
| Player.DriftsOffScreenAtDoubleSpeed | Project1/main.cpp:518-521 | at multiplier 2 the step back is too short: from x = 0 moving left the avatar ends at x = −1 |
| Player.Angel.constructor | Project1/main.cpp:362-372 | position (0, 10), at rest, collider 46x98 at the origin |
| Player.Angel.HandleEvent | Project1/main.cpp:416-444 | the new fields are `Player.AfterEvent` of the old ones |
| Player.Angel.Move | Project1/main.cpp:513-525 | the new fields are `Player.AfterMove` of the old ones |
| Guardian.AfterEvent | Project1/main.cpp:446-464 | an event never moves the guardian; it arms the guardian and sets its velocity to 1 exactly when it is a non-repeat DOWN press while the guardian is above y = 20 |
| Guardian.BatchDeploy | Project1/main.cpp:446-464 | a batch arms the guardian (velocity 1) exactly when it holds a non-repeat DOWN press while the guardian is above y = 20; it never moves the guardian |
| Guardian.AfterMove | Project1/main.cpp:527-546 | after a move the guardian is within the screen's height (0 ≤ y ≤ 420) and not armed; an armed guardian first jumps to the avatar; the collider holds the position before the vertical step; leaving the screen parks it at (1, 1) at rest |
| Guardian.DeployHandshake | Project1/main.cpp:446-546 | a DOWN press near the top arms the guardian without moving it; the next move puts its collider on the avatar and starts its descent from there |
| Guardian.Light.constructor | Project1/main.cpp:374-384 | parked at (666, 666), at rest, not armed |
| Guardian.Light.HandleEvent | Project1/main.cpp:446-464 | the new fields are `Guardian.AfterEvent` of the old ones |
| Guardian.Light.Move | Project1/main.cpp:527-546 | the new fields are `Guardian.AfterMove` of the old ones, given the avatar's position |
| Enemy.InitialDevil | Project1/main.cpp:386-396 | starts at x = 0 on a lane in [200, 400), moving right at speed 1 |
| Enemy.AfterMove | Project1/main.cpp:548-576 | the step is never rolled back; the enemy turns exactly when the new x is off screen; the lane changes only on a turn, into (5, 620) and by −10 to +39; the collider ends on the new position |
| Enemy.LaneReachable | Project1/main.cpp:560-568 | on a turn, every lane in (5, 620) from 10 above to 39 below the current one is taken for the roll that names it; with `Enemy.MoveDependsOnRollModulo50`, for every roll with that remainder |
| Enemy.LaneKeptWhenRejected | Project1/main.cpp:563-568 | on a turn whose candidate lane y + roll % 50 − 10 lies outside (5, 620), the enemy keeps its lane |
| Enemy.MoveDependsOnRollModulo50 | Project1/main.cpp:563 | only `roll % 50` matters: any roll gives the same move as its remainder |
| Enemy.LaneCanLeaveScreen | Project1/main.cpp:563-567 | the lane bound comes from the screen width, so a turn can put the enemy on lane 619, below the 480-pixel screen |
| Enemy.Devil.constructor | Project1/main.cpp:386-396 | the fields are `Enemy.InitialDevil` of the roll |
| Enemy.Devil.Move | Project1/main.cpp:548-576 | the new fields are `Enemy.AfterMove`; the status becomes 3 exactly when the collider at the new x and the old lane meets the guardian's |
| Projectile.TruncDiv | Project1/main.cpp:590 | division truncating toward zero, the conversion a `double` undergoes when stored into an `int` |
| Projectile.CRem | Project1/main.cpp:600 | C's `%`: the Euclidean remainder for a non-negative dividend; a non-positive remainder above −d otherwise |
| Projectile.AccelerationStep | Project1/main.cpp:590 | adding `FIRE_VEL * 1.2` to an int and truncating adds 2 from −2 upward and 3 below |
| Projectile.AfterMove | Project1/main.cpp:578-618 | an idle slot is unchanged; a slot in flight is no longer marked for spawning and its collider is its pre-step position (the enemy's on the first tick); a slot in flight returns to idle exactly when its pre-step collider meets the horizon and not the avatar, and is then parked at (800, 800) with every counter zero; a slot that meets the avatar stays in flight; a slot still in flight moves at `mVelY` 1 on the tick it spawns and keeps its `mVelY` after |
| Projectile.MoveKeepsWellFormed | Project1/main.cpp:578-618 | a move keeps the slot invariant (extra speed is twice the tick count; an idle slot is parked at (800, 800) with no ticks; a spawned slot has `mVelY` 1); a slot still in flight has counted one more tick and rises only on ticks with count % 3 == 1, by vy·m + 2·ticks + 5 with vy = 1 |
| Projectile.HorizonResetIsNotConstruction | Project1/main.cpp:607-615 | a slot reset at the horizon differs from a freshly constructed one only in the collider and in `mVelY`, which is 0 rather than 100 |
| Projectile.Fire.constructor | Project1/main.cpp:398-411 | idle at (800, 800) with `mVelY` 100 and no ticks |
| Projectile.Fire.Move | Project1/main.cpp:578-618 | the new fields are `Projectile.AfterMove`; the status becomes 2 exactly when the slot is in flight and its pre-step collider meets the avatar's |
| Scheduler.NextTimer | Project1/main.cpp:919 | the next timer lies between 100·f and 1099·f for a frequency f ≥ 0 |
| Scheduler.FirstAvailable | Project1/main.cpp:922-930 | the lowest index of an idle slot, or none when every slot is in flight |
| Scheduler.ArmFirst | Project1/main.cpp:922-931 | exactly the first idle slot is marked for spawning and taken out of the pool; every other slot is unchanged |
| Scheduler.ArmsAtMostOne | Project1/main.cpp:922-931 | one timeout lowers the count of idle slots by exactly one when there is one, and leaves it at 0 otherwise |
| Scheduler.NineIdleSlots | Project1/main.cpp:922-931 | with all nine slots idle, a timeout arms slot 0 and only slot 0 |
| Scheduler.ArmKeepsWellFormed | Project1/main.cpp:922-931 | arming keeps every slot well formed |
| Scheduler.Arm | Project1/main.cpp:922-931 | the `shot` loop over the slot array leaves exactly `Scheduler.ArmFirst` of the old slots |
| Game.MoveFires | Project1/main.cpp:936-939 | the projectile loop keeps the number of slots; what each slot becomes is proved of the loop itself by `Game.Session.MoveSlots` |
| Game.PlayStep | Project1/main.cpp:901-958 | the playing block keeps the level, the multipliers and the number of slots; its status is the old one, Lost or Won |
| Game.MenuBlock | Project1/main.cpp:884-899 | the block runs only in Menu; there it leaves the status at Menu or moves it to Playing, and Playing exactly when a level has been chosen |
| Game.AfterFrame | Project1/main.cpp:882-985 | an iteration never lowers the status nor takes it past Won, and it never changes Lost or Won |
| Game.InitialWorldInv | Project1/main.cpp:857-880 | the state set up before the loop satisfies the loop invariant |
| Game.MenuPollKeeps | Project1/main.cpp:886-893 | a menu poll keeps the level non-negative and positive once positive, keeps the multipliers matching it, and changes nothing else |
| Game.PlayStepKeepsSlots | Project1/main.cpp:913-939 | the playing block keeps every slot well formed |
| Game.PlayStepKeepsAngelRow | Project1/main.cpp:909-913 | the avatar never leaves its row |
| Game.FrameKeepsInv | Project1/main.cpp:882-985 | every iteration keeps the invariant: status 0 to 3, status 0 exactly at level 0, multipliers matching the level, nine well-formed slots, the avatar on row 10, the guardian within the screen's height once play has begun |
| Game.MenuStartsPlaying | Project1/main.cpp:884-915 | in Menu nothing changes until a batch holds a level key; in that iteration the status leaves 0, the chosen preset is in force, and the first playing step moves the avatar with it |
| Game.EndStatusesAreFinal | Project1/main.cpp:960-982 | in Lost and Won the status never changes, and only the level and the multipliers can |
| Game.PlayOutcome | Project1/main.cpp:913-939 | after a playing step the status is Lost exactly when some armed slot meets the avatar, even if the enemy met the guardian in the same frame; Won exactly when no slot did and the enemy met the guardian; Playing otherwise |
| Game.RunKeepsInv | Project1/main.cpp:882-986 | over any run the invariant holds, the status never decreases, and Lost or Won never changes |
| Game.NewSlots | Project1/main.cpp:870 | `Fire fire[9]`: nine distinct fresh slots, each in its constructed state |
| Game.Session.constructor | Project1/main.cpp:857-880 | the objects and locals before the loop form `Game.InitialWorld` |
| Game.Session.PollMenu | Project1/main.cpp:886-893 | the menu poll loop yields `Game.MenuPoll` of the batch and reports a quit exactly when the batch holds one |
| Game.Session.PollPlay | Project1/main.cpp:903-911 | the playing poll loop hands every event to the avatar, then to the guardian, and reports a quit exactly when the batch holds one |
| Game.Session.MoveActors | Project1/main.cpp:903-915 | the poll loop and the three actor moves yield `Game.ActorsStep` |
| Game.Session.Schedule | Project1/main.cpp:917-933 | the arming block yields `Game.ScheduleStep`: on a timeout a new timer, the clock as the last time, and `Scheduler.ArmFirst` of the slots |
| Game.Session.MoveSlots | Project1/main.cpp:936-939 | the projectile loop yields `Game.MoveFires` of the slots, and Lost exactly when some slot meets the avatar |
| Game.Session.MoveAllFires | Project1/main.cpp:936-939 | the projectile loop yields `Game.FiresStep` of the state |
| Game.Session.Play | Project1/main.cpp:901-958 | the playing block yields `Game.PlayStep` and reports a quit exactly when its batch holds one |
| Game.Session.Frame | Project1/main.cpp:884-984 | one iteration yields `Game.AfterFrame`, each block seeing the status the one before left; it reports a quit exactly as `Game.FrameQuits` |
| Game.Session.Run | Project1/main.cpp:882-986 | the loop runs the frames of the script up to and including the first that polls a quit, and ends in `Game.RunFrames` of them |

## Left out

- Rendering, textures, fonts, the window, audio and SDL start-up and shut-down are outside the simulation. So are the classes `l_texture`, `Background`, `WinScreen` and `LoseScreen`, and every `render` method. The `init`/`loadMedia` failure paths are left out with them.
- The `SDL_Quit()` call on ESC in `Menu::handleEvent` is a library call. The model treats ESC like any other non-selecting key.
- `Angel::mVelY` is left out. DOWN changes it, but nothing reads it.
- `Devil::mVelY` is left out. The constructor sets it to 0 and nothing reads it.
- `mVelX` of `Light` and `Fire` is left out. It stays 0 and nothing reads it.
- The `id` parameter of `Fire::move` is left out because it is unused.
- Projectile.AccelerationStep: `FIRE_VEL * 1.2` is a `double` in the source. The model adds exactly 12/5 and truncates toward zero. For the values an in-flight slot reaches, the double and the exact value truncate alike.
- Game.Session.Schedule: 32-bit `int` overflow and the `unsigned` wrap of `lastTime + lightTimer` are not modelled. Integers are unbounded, and the comparison is read as signed.
- Game.Session.Run: the `while (!quit)` loop also ends when the script of iterations runs out. This models a finite stretch of play, not an endless loop.
- Scheduler.Arm: `shot` is a local of the method. The source's `shot` is a variable of `main` that is always false outside the arming block.
- `SDL_Delay(15)` and the frame pacing are left out. The model has no time except the clock value it is given per iteration.

## Behaviour of the code worth knowing

- The guardian snaps onto the avatar on the first move after the DOWN press, and it starts its descent on that same move (`Guardian.DeployHandshake`).
- A projectile reset at the horizon is not in its constructed state: its `mVelY` is 0, where the constructor sets 100 (`Projectile.HorizonResetIsNotConstruction`). The next spawn sets `mVelY` to 1, so play is unaffected.
- The Lost and Won screens keep handing events to the menu. A level key there rewrites the level and the multipliers, but the status stays Lost or Won (`Game.EndStatusesAreFinal`).
- Nothing resets the projectile slots on a loss or a win. After Lost or Won the slots are no longer moved or armed.
