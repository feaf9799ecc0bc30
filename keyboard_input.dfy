/** The held-key flags of `useKeyboardInput`: R/F for throttle, W/S/A/D for
    movement, set on keydown and cleared on keyup. */
module KeyboardInput {
  import opened Wrappers

  datatype KeyboardState = KeyboardState(
    throttleUp: bool, throttleDown: bool,
    forward: bool, back: bool, left: bool, right: bool)

  /** All six flags start released. */
  const Initial: KeyboardState := KeyboardState(false, false, false, false, false, false)

  /** The six flags, named so that properties can range over them. */
  datatype Flag = ThrottleUp | ThrottleDown | Forward | Back | Left | Right

  function Get(s: KeyboardState, f: Flag): bool {
    match f
    case ThrottleUp => s.throttleUp
    case ThrottleDown => s.throttleDown
    case Forward => s.forward
    case Back => s.back
    case Left => s.left
    case Right => s.right
  }

  /** Which flag a key code drives: the reference table for both handlers. */
  function FlagOf(code: string): Option<Flag> {
    if code == "KeyR" then Some(ThrottleUp)
    else if code == "KeyF" then Some(ThrottleDown)
    else if code == "KeyW" then Some(Forward)
    else if code == "KeyS" then Some(Back)
    else if code == "KeyA" then Some(Left)
    else if code == "KeyD" then Some(Right)
    else None
  }

  /** The state is nothing more than its six flags. */
  lemma StateIsItsFlags(a: KeyboardState, b: KeyboardState)
    requires forall f :: Get(a, f) == Get(b, f)
    ensures a == b
  {
    assert Get(a, ThrottleUp) == Get(b, ThrottleUp) && Get(a, ThrottleDown) == Get(b, ThrottleDown);
    assert Get(a, Forward) == Get(b, Forward) && Get(a, Back) == Get(b, Back);
    assert Get(a, Left) == Get(b, Left) && Get(a, Right) == Get(b, Right);
  }

  /** The keydown switch: a repeat event is ignored, a mapped key sets its
      flag, and no other flag changes. */
  function KeyDown(s: KeyboardState, code: string, repeat: bool): (r: KeyboardState)
    ensures forall f :: Get(r, f) == (if !repeat && FlagOf(code) == Some(f) then true else Get(s, f))
  {
    if repeat then s
    else if code == "KeyR" then s.(throttleUp := true)
    else if code == "KeyF" then s.(throttleDown := true)
    else if code == "KeyW" then s.(forward := true)
    else if code == "KeyS" then s.(back := true)
    else if code == "KeyA" then s.(left := true)
    else if code == "KeyD" then s.(right := true)
    else s
  }

  /** The keyup switch: a mapped key clears its flag, whether or not it was
      ever pressed, and no other flag changes. */
  function KeyUp(s: KeyboardState, code: string): (r: KeyboardState)
    ensures forall f :: Get(r, f) == (if FlagOf(code) == Some(f) then false else Get(s, f))
  {
    if code == "KeyR" then s.(throttleUp := false)
    else if code == "KeyF" then s.(throttleDown := false)
    else if code == "KeyW" then s.(forward := false)
    else if code == "KeyS" then s.(back := false)
    else if code == "KeyA" then s.(left := false)
    else if code == "KeyD" then s.(right := false)
    else s
  }

  /** Pressing and releasing a key leaves the same state as releasing it
      alone: the keydown leaves no trace once the key is up. */
  lemma PressThenRelease(s: KeyboardState, code: string, repeat: bool)
    ensures KeyUp(KeyDown(s, code, repeat), code) == KeyUp(s, code)
  {
    var a := KeyUp(KeyDown(s, code, repeat), code);
    var b := KeyUp(s, code);
    forall f
      ensures Get(a, f) == Get(b, f)
    {
    }
    StateIsItsFlags(a, b);
  }

  /** The hook's `stateRef`, updated in place by the window listeners. */
  class KeyboardInput {
    var state: KeyboardState

    constructor ()
      ensures forall f :: !Get(state, f)
    {
      state := Initial;
    }

    method OnKeyDown(code: string, repeat: bool)
      modifies this
      ensures state == KeyDown(old(state), code, repeat)
    {
      if repeat { return; }
      if code == "KeyR" {
        state := state.(throttleUp := true);
      } else if code == "KeyF" {
        state := state.(throttleDown := true);
      } else if code == "KeyW" {
        state := state.(forward := true);
      } else if code == "KeyS" {
        state := state.(back := true);
      } else if code == "KeyA" {
        state := state.(left := true);
      } else if code == "KeyD" {
        state := state.(right := true);
      }
    }

    method OnKeyUp(code: string)
      modifies this
      ensures state == KeyUp(old(state), code)
    {
      if code == "KeyR" {
        state := state.(throttleUp := false);
      } else if code == "KeyF" {
        state := state.(throttleDown := false);
      } else if code == "KeyW" {
        state := state.(forward := false);
      } else if code == "KeyS" {
        state := state.(back := false);
      } else if code == "KeyA" {
        state := state.(left := false);
      } else if code == "KeyD" {
        state := state.(right := false);
      }
    }
  }
}
