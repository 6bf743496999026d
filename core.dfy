/** The app driver: it owns exactly one active screen and the add-on session
    context, builds screens from their identifiers and swaps in the screen
    that the active one asks for. */
module Core {
  import opened GameStates
  import opened MainMenuScreen

  /** The active screen. The main menu is an object with its own state; the
      other three screens are not part of this model and are known only by
      their identifier, the playing screen also by the context it was built
      from. */
  datatype Screen =
    | MenuScreen(menu: MainMenu)
    | SelectDifficultyScreen
    | PlayingScreen(built: AddOnContext)
    | LeaderBoardScreen
  {
    function Id(): GameState {
      match this
      case MenuScreen(_) => MainMenu
      case SelectDifficultyScreen => SelectDifficulty
      case PlayingScreen(_) => Playing
      case LeaderBoardScreen => LeaderBoard
    }
  }

  /** What the update of a screen whose code is not modelled does: the
      context it leaves behind and what it returns. */
  datatype ScreenUpdate = ScreenUpdate(ctx: AddOnContext, result: Result<Option<GameState>>)

  /** The screen factory: builds the screen for `id`; the playing screen is
      built from `playingCtx`. */
  method NewScreen(id: GameState, playingCtx: AddOnContext) returns (s: Screen)
    ensures s.Id() == id
    ensures s.PlayingScreen? ==> s.built == playingCtx
    ensures s.MenuScreen? ==> fresh(s.menu) && s.menu.changeState == None && s.menu.buttons == MenuButtons
  {
    match id
    case MainMenu =>
      var m := new MainMenu();
      s := MenuScreen(m);
    case SelectDifficulty =>
      s := SelectDifficultyScreen;
    case Playing =>
      s := PlayingScreen(playingCtx);
    case LeaderBoard =>
      s := LeaderBoardScreen;
  }

  class App {
    var current: Screen
    var addonCtx: AddOnContext
    /** The screens activated so far, in order; the last is the active one. */
    ghost var activated: seq<GameState>

    ghost predicate Valid()
      reads this
    {
      |activated| > 0 && activated[|activated| - 1] == current.Id()
      && (current.MenuScreen? ==> current.menu.buttons == MenuButtons)
    }

    /** The objects the active screen owns. */
    function MenuObjects(): set<object>
      reads this
    {
      if current.MenuScreen? then {current.menu} else {}
    }

    /** `App::new`: the initial screen, built with a forced context if it is
        the playing screen; the app itself keeps a fresh normal context. */
    constructor (initial: GameState)
      ensures Valid()
      ensures current.Id() == initial && activated == [initial]
      ensures addonCtx == NewContext()
      ensures initial == Playing ==> current == PlayingScreen(ForcedContext())
      ensures current.MenuScreen? ==> fresh(current.menu) && current.menu.changeState == None
    {
      var s := NewScreen(initial, ForcedContext());
      current := s;
      addonCtx := NewContext();
      activated := [initial];
    }

    /** `App::change_state`: builds the screen for `newState` from the app's
        own context and puts it in place of the active one, which is dropped. */
    method ChangeState(newState: GameState)
      requires Valid()
      modifies this
      ensures Valid()
      ensures current.Id() == newState && activated == old(activated) + [newState]
      ensures addonCtx == old(addonCtx)
      ensures newState == Playing ==> current == PlayingScreen(old(addonCtx))
      ensures current.MenuScreen? ==> fresh(current.menu) && current.menu.changeState == None
    {
      var s := NewScreen(newState, addonCtx);
      current := s;
      activated := activated + [newState];
    }

    /** What the active screen's update returns, given what a screen that is
        not modelled does. */
    ghost function Requested(step: ScreenUpdate): Result<Option<GameState>>
      reads this, MenuObjects()
    {
      if current.MenuScreen? then Ok(current.menu.changeState) else step.result
    }

    /** `EventHandler::update`: runs the active screen's update (lending it the
        context); an error is passed on before anything else happens; a
        requested screen is swapped in. */
    method Update(step: ScreenUpdate) returns (res: Result<()>)
      requires Valid()
      modifies this, MenuObjects()
      ensures Valid()
      ensures var out := old(Requested(step));
        (res.Err? <==> out.Err?) && (out.Err? ==> res.error == out.error)
      ensures var out := old(Requested(step));
        if out.Ok? && out.value.Some? then
          current.Id() == out.value.value && activated == old(activated) + [out.value.value]
          && (current.MenuScreen? ==> fresh(current.menu) && current.menu.changeState == None)
        else
          current == old(current) && activated == old(activated)
      ensures |activated| <= |old(activated)| + 1
      ensures addonCtx == if old(current).MenuScreen? then old(addonCtx) else step.ctx
      ensures old(current).MenuScreen? ==> old(current).menu.changeState == None
      ensures old(Requested(step)) == Ok(Some(Playing)) ==> current == PlayingScreen(addonCtx)
    {
      var out: Result<Option<GameState>>;
      if current.MenuScreen? {
        var next := current.menu.Update();
        out := Ok(next);
      } else {
        addonCtx := step.ctx;
        out := step.result;
      }
      if out.Err? {
        return Err(out.error);
      }
      if out.value.Some? {
        ChangeState(out.value.value);
      }
      return Ok(());
    }

    /** `EventHandler::mouse_button_down_event`: forwards the press to the
        active screen and never changes which screen is active. A screen that
        is not modelled is taken to return `hidden` and change nothing here. */
    method MouseButtonDown(host: Host, button: MouseButton, x: real, y: real, hidden: Result<()>) returns (res: Result<()>)
      requires Valid()
      modifies MenuObjects(), host
      ensures Valid()
      ensures current == old(current) && addonCtx == old(addonCtx) && activated == old(activated)
      ensures old(current).MenuScreen? ==> res == Ok(())
      ensures old(current).MenuScreen? ==>
        var after := PressAll(Press(old(current.menu.changeState), false), MenuButtons, button, Point(x, y));
        current.menu.changeState == after.pending && host.quitRequested == (old(host.quitRequested) || after.quit)
      ensures !old(current).MenuScreen? ==> res == hidden && host.quitRequested == old(host.quitRequested)
    {
      if current.MenuScreen? {
        res := current.menu.MouseButtonDown(host, button, Point(x, y));
      } else {
        res := hidden;
      }
    }
  }

  /** Every screen can be entered directly at start-up; the app's own
      context is then always a normal one. */
  method EnterDirectly(initial: GameState) returns (active: GameState, origin: ContextOrigin)
    ensures active == initial && origin == New
  {
    var app := new App(initial);
    active, origin := app.current.Id(), app.addonCtx.origin;
  }

  /** Starting at the main menu, a left press anywhere on "Play" followed by
      one update makes the difficulty selection the active screen. */
  method PlayButtonScenario(x: real, y: real, step: ScreenUpdate) returns (before: GameState, after: GameState, quit: bool)
    requires PlayRect.Contains(Point(x, y))
    ensures before == MainMenu && after == SelectDifficulty && !quit
  {
    var app := new App(MainMenu);
    var host := new Host();
    before := app.current.Id();
    MenuPressEffect(Press(None, false), Left, Point(x, y));
    var _ := app.MouseButtonDown(host, Left, x, y, Ok(()));
    var _ := app.Update(step);
    after, quit := app.current.Id(), host.quitRequested;
  }

  /** A press outside every button, then any number of updates: the main
      menu stays active, nothing is activated, no quit is requested. */
  method MissScenario(button: MouseButton, x: real, y: real, step: ScreenUpdate, ticks: nat) returns (active: GameState, quit: bool, ghost transitions: nat)
    requires !PlayRect.Contains(Point(x, y)) && !LeaderBoardRect.Contains(Point(x, y)) && !ExitRect.Contains(Point(x, y))
    ensures active == MainMenu && !quit && transitions == 0
  {
    var app := new App(MainMenu);
    var host := new Host();
    MenuPressEffect(Press(None, false), button, Point(x, y));
    var _ := app.MouseButtonDown(host, button, x, y, Ok(()));
    var i := 0;
    while i < ticks
      invariant app.Valid() && app.current.MenuScreen? && app.current.menu.changeState == None
      invariant app.activated == [MainMenu] && !host.quitRequested
      invariant fresh(app.current.menu)
    {
      var _ := app.Update(step);
      i := i + 1;
    }
    active, quit := app.current.Id(), host.quitRequested;
    transitions := |app.activated| - 1;
  }

  /** A left press anywhere on "Exit" requests quit and the next update
      activates nothing. */
  method ExitScenario(x: real, y: real, step: ScreenUpdate) returns (active: GameState, quit: bool, ghost transitions: nat)
    requires ExitRect.Contains(Point(x, y))
    ensures active == MainMenu && quit && transitions == 0
  {
    var app := new App(MainMenu);
    var host := new Host();
    MenuPressEffect(Press(None, false), Left, Point(x, y));
    var _ := app.MouseButtonDown(host, Left, x, y, Ok(()));
    var _ := app.Update(step);
    active, quit := app.current.Id(), host.quitRequested;
    transitions := |app.activated| - 1;
  }
}
