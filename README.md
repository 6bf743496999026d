# Sudoku screen state machine

A Dafny model of the screen-switching core of a Sudoku game built on the
ggez engine. The app driver `App` owns exactly one active screen and one
add-on session context (`AddOnContext`). On every update it asks the active
screen for an optional next `GameState`; when it gets one it builds that
screen with a four-way factory and puts it in place of the old one, which is
dropped. The main menu screen records a pending transition when the left
mouse button is pressed inside its "Play" or "LeaderBoard" button, asks the
host to quit when "Exit" is pressed, and hands the pending transition to the
driver on its next update, exactly once.

Files:

- `game_states.dfy` (module `GameStates`): the `GameState` enumeration,
  mouse buttons, points and rectangles, `GameResult` as `Result`, the add-on
  context as an opaque value tagged with how it was made (`New` or
  `Forced`), and `Host`, the engine context reduced to its "quit requested"
  flag.
- `main_menu.dfy` (module `MainMenuScreen`): class `MainMenu` with its
  `changeState` field and its three buttons, kept in the key order of the
  source's button map (`Exit`, `LeaderBoard`, `Play`). The press loop is
  proved against `PressAll`, a fold of `ApplyButton` over the buttons, and
  the lemmas state what a press does.
- `core.dfy` (module `Core`): the `Screen` datatype, the `NewScreen`
  factory, class `App` with a ghost log `activated` of every screen made
  active (the last one is the active screen), and client methods that state
  the app's scenarios as contracts.

Assumptions and choices:

- Button containment is inclusive on all four borders: x in `[rx, rx+w]`
  and y in `[ry, ry+h]`. It mirrors ggez's `Rect::contains`, whose code is
  not part of this model. Coordinates are exact reals, not `f32`.
- The three screens whose code is not part of this model (`SelectDifficulty`,
  `Playing`, `LeaderBoard`) are variants of `Screen` without state. The
  result of their update is a parameter `ScreenUpdate`: the context they
  leave and the `Option<GameState>` or error they return. The playing screen
  records the context it was built from.
- The main menu's update cannot fail, and it does not touch the context, so
  for that screen the `ScreenUpdate` parameter is ignored.
- The app's boot uses a forced context only as the argument to the playing
  screen's constructor. The app itself always keeps `AddOnContext::new()`.
  This is what `games/sudoku/src/game/core.rs` does at lines 34 and 39.
  The forced context is never kept by the app.
- `change_state` builds the new screen from the app's context as it stands
  after the old screen's update, which may have changed it.

## Model

| member | source | states |
|---|---|---|
| `GameStates.NewContext` | games/sudoku/src/game/core.rs:39 | the context the app keeps is made by the normal constructor |
| `GameStates.ForcedContext` | games/sudoku/src/game/core.rs:34 | the context given to a playing screen at boot is made by the forced constructor |
| `GameStates.Host.RequestQuit` | games/sudoku/src/game/game_states/main_menu.rs:170 | after the call the host has a quit request |
| `MainMenuScreen.MainMenu.constructor` | games/sudoku/src/game/game_states/main_menu.rs:19-125 | a new menu has exactly the three buttons Exit, LeaderBoard, Play with their rectangles, and no pending transition |
| `MainMenuScreen.MainMenu.Update` | games/sudoku/src/game/game_states/main_menu.rs:129-139 | returns the pending transition as it was, and leaves none pending; with nothing pending it returns `None` and changes nothing |
| `MainMenuScreen.MainMenu.MouseButtonDown` | games/sudoku/src/game/game_states/main_menu.rs:159-176 | always succeeds; the new pending transition and the host's quit flag are those of visiting every button in key order (`PressAll`) |
| `MainMenuScreen.MenuButtonsInKeyOrder` | games/sudoku/src/game/game_states/main_menu.rs:41-83 | the button sequence is in strictly increasing lexicographic key order, the order in which the button map is iterated |
| `MainMenuScreen.MenuButtonsDisjoint` | games/sudoku/src/game/game_states/main_menu.rs:46-74 | no point lies in two of the three button rectangles, so at most one button acts per press |
| `MainMenuScreen.NonLeftPressChangesNothing` | games/sudoku/src/game/game_states/main_menu.rs:166 | for any buttons, a press with a button other than Left leaves the pending transition and the quit flag as they were |
| `MainMenuScreen.MissChangesNothing` | games/sudoku/src/game/game_states/main_menu.rs:165-174 | for any buttons, a press outside all of them neither sets nor clears the pending transition and requests no quit |
| `MainMenuScreen.PressTargets` | games/sudoku/src/game/game_states/main_menu.rs:167-172 | for any buttons, a press leaves the pending transition as it was or sets it to SelectDifficulty or LeaderBoard; it never clears it, and a quit request is never withdrawn |
| `MainMenuScreen.MenuPressEffect` | games/sudoku/src/game/game_states/main_menu.rs:165-174 | the whole effect of a press on the menu: non-left or outside all buttons changes nothing; left in Play sets SelectDifficulty, in LeaderBoard sets LeaderBoard, in Exit requests quit and keeps the pending transition |
| `MainMenuScreen.MenuPressQuits` | games/sudoku/src/game/game_states/main_menu.rs:170 | a press requests quit if and only if it is a left press inside the Exit rectangle |
| `MainMenuScreen.MenuPressSetsPending` | games/sudoku/src/game/game_states/main_menu.rs:168-169 | the pending transition becomes SelectDifficulty or LeaderBoard if and only if the press is a left press in that button's rectangle; otherwise it is unchanged |
| `MainMenuScreen.PendingDeliveredOnce` | games/sudoku/src/game/game_states/main_menu.rs:134-137 | for every point inside the Play rectangle, after a left press there the first update returns SelectDifficulty and the second returns nothing; no quit is requested |
| `Core.NewScreen` | games/sudoku/src/game/core.rs:44-49 | the factory builds the screen whose id is the requested one; a playing screen is built from the given context; a menu is a new object with nothing pending |
| `Core.App.constructor` | games/sudoku/src/game/core.rs:30-41 | the active screen is the one for the initial state; the app keeps a normal context; a playing screen at boot is built from a forced context |
| `Core.App.ChangeState` | games/sudoku/src/game/core.rs:43-52 | the active screen becomes the one for the new state and is logged as the one activation; the context is unchanged; a playing screen is built from the app's own context |
| `Core.App.Update` | games/sudoku/src/game/core.rs:56-61 | an error from the screen is returned and nothing is activated; a `Some(s)` makes `s` active with exactly one activation; `None` leaves the active screen as it was; never more than one activation per call; the menu's pending transition is consumed |
| `Core.App.MouseButtonDown` | games/sudoku/src/game/core.rs:71-81 | the active screen, the context and the activation log are unchanged; for the menu the press has the effect `PressAll` gives |
| `Core.EnterDirectly` | games/sudoku/src/game/core.rs:30-41 | every state can be the initial one, and the app's context is then a normal one |
| `Core.PlayButtonScenario` | games/sudoku/src/game/core.rs:55-81 | from the main menu, a left press at any point inside the Play rectangle and one update make SelectDifficulty active, with no quit request |
| `Core.MissScenario` | games/sudoku/src/game/game_states/main_menu.rs:165-174 | from the main menu, a press outside all buttons followed by any number of updates activates nothing, keeps the main menu active and requests no quit |
| `Core.ExitScenario` | games/sudoku/src/game/game_states/main_menu.rs:170 | from the main menu, a left press at any point inside the Exit rectangle requests quit and the next update activates nothing |

## Left out

- Drawing (`draw` in both files: canvas, mesh, vertices, text layout) is graphics output with no effect on the state modelled here.
- `run()` (window setup, `ContextBuilder`, the event loop) is start-up plumbing of the engine.
- The `f32` arithmetic of `Rect::contains` and `Point2<f32>`: coordinates are exact reals and the inclusive border is an assumption.
- The internals of `SelectDifficulty`, `Playing`, `LeaderBoard` and `AddOnContext`: their code is not part of this model. Their update is a parameter; their mouse handler is modelled as returning a given result and changing nothing else, so a quit request from them is not represented.
- The texts map and the button labels of the main menu: they are only drawn.
- Dropping the old screen: Dafny has no deallocation. The old screen is no longer reachable from the app, and the `activated` log records that a new screen replaced it.
- Host termination after a quit request: only the request flag is modelled.
- Errors of graphics calls other than the one passed on by `update`: the main menu's callbacks never fail in this model.
