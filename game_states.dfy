/** Types shared by the screens of the Sudoku app: the screen identifiers,
    mouse input, rectangles, the add-on session context, the result of a
    screen callback and the host (windowing) context that can be asked to quit. */
module GameStates {

  /** The four screens the app can show. */
  datatype GameState = MainMenu | SelectDifficulty | Playing | LeaderBoard

  datatype Option<T> = None | Some(value: T)

  /** An error raised by a graphics call of the host; its contents do not matter here. */
  datatype GameError = GameError(reason: string)

  /** `GameResult<T>`: a screen callback either succeeds with a value or fails. */
  datatype Result<T> = Ok(value: T) | Err(error: GameError)

  /** The mouse buttons the host reports. */
  datatype MouseButton = Left | Right | Middle | Back | Forward | Other(code: nat)

  /** A pointer position in window coordinates. */
  datatype Point = Point(x: real, y: real)

  /** An axis-aligned rectangle given by its top-left corner, width and height. */
  datatype Rect = Rect(x: real, y: real, w: real, h: real) {
    /** The point lies in the rectangle, borders included. */
    predicate Contains(p: Point) {
      x <= p.x <= x + w && y <= p.y <= y + h
    }
  }

  /** How an add-on context was made: by the normal constructor or by the
      constructor that fills in forced defaults. */
  datatype ContextOrigin = New | Forced

  /** The session data screens share. Its fields are not part of this model;
      `contents` stands for them as an opaque value. */
  datatype AddOnContext = AddOnContext(origin: ContextOrigin, contents: seq<int>)

  /** `AddOnContext::new()`. */
  function NewContext(): (c: AddOnContext)
    ensures c.origin == New
  {
    AddOnContext(New, [])
  }

  /** `AddOnContext::new_forced()`. */
  function ForcedContext(): (c: AddOnContext)
    ensures c.origin == Forced
  {
    AddOnContext(Forced, [])
  }

  /** The host context: of its state only whether the app asked to quit. */
  class Host {
    var quitRequested: bool

    constructor ()
      ensures !quitRequested
    {
      quitRequested := false;
    }

    /** `ctx.request_quit()`. */
    method RequestQuit()
      modifies this
      ensures quitRequested
    {
      quitRequested := true;
    }
  }
}
