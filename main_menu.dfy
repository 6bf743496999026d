/** The main menu screen: three buttons, a pending transition recorded by a
    mouse press and handed to the app by the next update. */
module MainMenuScreen {
  import opened GameStates

  /** A button: its key in the menu's button map and its rectangle. */
  type Button = (string, Rect)

  const PlayRect: Rect := Rect(320.0, 200.0, 80.0, 40.0)
  const LeaderBoardRect: Rect := Rect(280.0, 260.0, 160.0, 40.0)
  const ExitRect: Rect := Rect(320.0, 320.0, 80.0, 40.0)

  /** The menu's buttons in the order the button map yields them: by key. */
  const MenuButtons: seq<Button> := [("Exit", ExitRect), ("LeaderBoard", LeaderBoardRect), ("Play", PlayRect)]

  /** Lexicographic order on keys, the order of the button map. */
  predicate KeyBefore(a: string, b: string)
    decreases |a|
  {
    if |b| == 0 then false
    else if |a| == 0 then true
    else a[0] < b[0] || (a[0] == b[0] && KeyBefore(a[1..], b[1..]))
  }

  /** The effect of a mouse press so far: the pending transition, and whether
      a quit was requested during the press. */
  datatype Press = Press(pending: Option<GameState>, quit: bool)

  /** What one button does with a press of `button` at `p`. */
  function ApplyButton(acc: Press, b: Button, button: MouseButton, p: Point): Press {
    if b.1.Contains(p) && button == Left then
      if b.0 == "Play" then acc.(pending := Some(SelectDifficulty))
      else if b.0 == "LeaderBoard" then acc.(pending := Some(LeaderBoard))
      else if b.0 == "Exit" then acc.(quit := true)
      else acc
    else acc
  }

  /** The buttons visited in order, each applied to the press. */
  function PressAll(acc: Press, bs: seq<Button>, button: MouseButton, p: Point): Press
    decreases |bs|
  {
    if bs == [] then acc
    else ApplyButton(PressAll(acc, bs[..|bs| - 1], button, p), bs[|bs| - 1], button, p)
  }

  class MainMenu {
    const buttons: seq<Button>
    var changeState: Option<GameState>

    /** `MainMenu::new`: the three buttons, nothing pending. */
    constructor ()
      ensures buttons == MenuButtons
      ensures changeState == None
    {
      buttons := MenuButtons;
      changeState := None;
    }

    /** Hands out the pending transition, if any, and clears it. */
    method Update() returns (next: Option<GameState>)
      modifies this
      ensures next == old(changeState)
      ensures changeState == None
    {
      if changeState.Some? {
        var s := changeState.value;
        changeState := None;
        return Some(s);
      }
      return None;
    }

    /** Visits every button in key order; a left press inside a button
        records its transition, or asks the host to quit for "Exit". */
    method MouseButtonDown(host: Host, button: MouseButton, point: Point) returns (res: Result<()>)
      modifies this, host
      ensures res == Ok(())
      ensures var after := PressAll(Press(old(changeState), false), buttons, button, point);
        changeState == after.pending && host.quitRequested == (old(host.quitRequested) || after.quit)
    {
      ghost var quit := false;
      var i := 0;
      while i < |buttons|
        invariant 0 <= i <= |buttons|
        invariant Press(changeState, quit) == PressAll(Press(old(changeState), false), buttons[..i], button, point)
        invariant host.quitRequested == (old(host.quitRequested) || quit)
      {
        var (key, rect) := buttons[i];
        if rect.Contains(point) && button == Left {
          if key == "Play" {
            changeState := Some(SelectDifficulty);
          } else if key == "LeaderBoard" {
            changeState := Some(LeaderBoard);
          } else if key == "Exit" {
            host.RequestQuit();
            quit := true;
          }
        }
        assert buttons[..i + 1][..i] == buttons[..i];
        i := i + 1;
      }
      assert buttons[..i] == buttons;
      return Ok(());
    }
  }

  /** The map yields its buttons by strictly increasing key. */
  lemma MenuButtonsInKeyOrder()
    ensures forall i, j :: 0 <= i < j < |MenuButtons| ==> KeyBefore(MenuButtons[i].0, MenuButtons[j].0)
  {
  }

  /** No point lies in two of the menu's buttons. */
  lemma MenuButtonsDisjoint(p: Point)
    ensures forall i, j :: 0 <= i < j < |MenuButtons| ==> !(MenuButtons[i].1.Contains(p) && MenuButtons[j].1.Contains(p))
  {
  }

  /** A press with any button but the left one changes nothing. */
  lemma {:induction false} NonLeftPressChangesNothing(acc: Press, bs: seq<Button>, button: MouseButton, p: Point)
    requires button != Left
    ensures PressAll(acc, bs, button, p) == acc
  {
    if bs != [] {
      NonLeftPressChangesNothing(acc, bs[..|bs| - 1], button, p);
    }
  }

  /** A press outside every button changes nothing: the pending transition is
      neither set nor cleared, and no quit is requested. */
  lemma {:induction false} MissChangesNothing(acc: Press, bs: seq<Button>, button: MouseButton, p: Point)
    requires forall i :: 0 <= i < |bs| ==> !bs[i].1.Contains(p)
    ensures PressAll(acc, bs, button, p) == acc
  {
    if bs != [] {
      MissChangesNothing(acc, bs[..|bs| - 1], button, p);
    }
  }

  /** A press never clears a pending transition, and only sets it to the
      difficulty selection or the leader board; a quit once requested stays. */
  lemma {:induction false} PressTargets(acc: Press, bs: seq<Button>, button: MouseButton, p: Point)
    ensures var r := PressAll(acc, bs, button, p);
      (r.pending == acc.pending || r.pending == Some(SelectDifficulty) || r.pending == Some(LeaderBoard))
      && (acc.pending.Some? ==> r.pending.Some?)
      && (acc.quit ==> r.quit)
  {
    if bs != [] {
      PressTargets(acc, bs[..|bs| - 1], button, p);
    }
  }

  /** The full effect of a press on the main menu's buttons. */
  lemma MenuPressEffect(acc: Press, button: MouseButton, p: Point)
    ensures var r := PressAll(acc, MenuButtons, button, p);
      if button != Left then r == acc
      else if PlayRect.Contains(p) then r == Press(Some(SelectDifficulty), acc.quit)
      else if LeaderBoardRect.Contains(p) then r == Press(Some(LeaderBoard), acc.quit)
      else if ExitRect.Contains(p) then r == Press(acc.pending, true)
      else r == acc
  {
    var bs := MenuButtons;
    assert bs[..1][..0] == [] && bs[..2][..1] == bs[..1] && bs[..3] == bs;
    var r1 := ApplyButton(acc, bs[0], button, p);
    var r2 := ApplyButton(r1, bs[1], button, p);
    assert PressAll(acc, bs[..1], button, p) == r1;
    assert PressAll(acc, bs[..2], button, p) == r2;
    assert PressAll(acc, bs, button, p) == ApplyButton(r2, bs[2], button, p);
    MenuButtonsDisjoint(p);
  }

  /** A press requests quit exactly when it is a left press inside "Exit". */
  lemma MenuPressQuits(acc: Press, button: MouseButton, p: Point)
    ensures PressAll(acc, MenuButtons, button, p).quit <==> acc.quit || (button == Left && ExitRect.Contains(p))
  {
    MenuPressEffect(acc, button, p);
  }

  /** A press changes the pending transition exactly when it is a left press
      inside "Play" or "LeaderBoard", and then to that button's screen. */
  lemma MenuPressSetsPending(acc: Press, button: MouseButton, p: Point)
    ensures var r := PressAll(acc, MenuButtons, button, p);
      (r.pending == Some(SelectDifficulty) && acc.pending != r.pending ==> button == Left && PlayRect.Contains(p))
      && (r.pending == Some(LeaderBoard) && acc.pending != r.pending ==> button == Left && LeaderBoardRect.Contains(p))
      && (button == Left && PlayRect.Contains(p) ==> r.pending == Some(SelectDifficulty))
      && (button == Left && LeaderBoardRect.Contains(p) ==> r.pending == Some(LeaderBoard))
      && (!(button == Left && (PlayRect.Contains(p) || LeaderBoardRect.Contains(p))) ==> r.pending == acc.pending)
  {
    MenuPressEffect(acc, button, p);
  }

  /** A left press anywhere on "Play" is handed out by the next update and by no later one. */
  method PendingDeliveredOnce(p: Point) returns (first: Option<GameState>, second: Option<GameState>, quit: bool)
    requires PlayRect.Contains(p)
    ensures first == Some(SelectDifficulty) && second == None && !quit
  {
    var menu := new MainMenu();
    var host := new Host();
    MenuPressEffect(Press(None, false), Left, p);
    var _ := menu.MouseButtonDown(host, Left, p);
    first := menu.Update();
    second := menu.Update();
    quit := host.quitRequested;
  }
}
