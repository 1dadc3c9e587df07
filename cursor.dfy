/**
 * The cursor policy tied to the first-person mode: `grab_cursor` when it is
 * entered and `release_cursor` when it is left.
 */
module Cursor {

  datatype CursorGrabMode = None | Confined | Locked

  /** The cursor settings of a window. */
  class Window {
    var grabMode: CursorGrabMode
    var cursorVisible: bool

    constructor ()
      ensures grabMode == CursorGrabMode.None && cursorVisible
    {
      grabMode := CursorGrabMode.None;
      cursorVisible := true;
    }
  }

  /** What a window's cursor settings amount to, as a value. */
  datatype CursorState = CursorState(grabMode: CursorGrabMode, visible: bool)

  /** The cursor settings of every window, in order. */
  ghost function States(windows: seq<Window>): (r: seq<CursorState>)
    reads windows
    ensures |r| == |windows|
    ensures forall i | 0 <= i < |windows| :: r[i] == CursorState(windows[i].grabMode, windows[i].cursorVisible)
  {
    if |windows| == 0 then []
    else [CursorState(windows[0].grabMode, windows[0].cursorVisible)] + States(windows[1..])
  }

  /** The cursor is captured: locked to the window and hidden. */
  ghost predicate Grabbed(windows: seq<Window>)
    reads windows
  {
    |windows| == 1 ==> windows[0].grabMode == Locked && !windows[0].cursorVisible
  }

  /** The cursor is free: not grabbed and visible. */
  ghost predicate Released(windows: seq<Window>)
    reads windows
  {
    |windows| == 1 ==> windows[0].grabMode == CursorGrabMode.None && windows[0].cursorVisible
  }

  /**
   * `grab_cursor`, given the windows marked `PrimaryWindow`. It acts only when
   * there is exactly one of them and does nothing otherwise.
   */
  method GrabCursor(windows: seq<Window>)
    modifies windows
    ensures Grabbed(windows)
    ensures |windows| != 1 ==> States(windows) == old(States(windows))
  {
    if |windows| == 1 {
      windows[0].grabMode := Locked;
      windows[0].cursorVisible := false;
    }
  }

  /**
   * `release_cursor`, given the windows marked `PrimaryWindow`. It acts only
   * when there is exactly one of them and does nothing otherwise.
   */
  method ReleaseCursor(windows: seq<Window>)
    modifies windows
    ensures Released(windows)
    ensures |windows| != 1 ==> States(windows) == old(States(windows))
  {
    if |windows| == 1 {
      windows[0].grabMode := CursorGrabMode.None;
      windows[0].cursorVisible := true;
    }
  }
}
