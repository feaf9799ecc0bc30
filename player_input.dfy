/** `usePlayerInput`: arrow keys, R/F and Shift held as flags, and a
    per-frame `read()` that picks the gamepad or the keyboard and writes the
    normalised move, lift and boost. */
module PlayerInput {
  import opened Wrappers
  import Smoothing

  datatype Keys = Keys(up: bool, down: bool, left: bool, right: bool, r: bool, f: bool, shift: bool)

  const NoKeys: Keys := Keys(false, false, false, false, false, false, false)

  datatype Key = Up | Down | LeftKey | RightKey | R | F | Shift

  function Get(k: Keys, key: Key): bool {
    match key
    case Up => k.up
    case Down => k.down
    case LeftKey => k.left
    case RightKey => k.right
    case R => k.r
    case F => k.f
    case Shift => k.shift
  }

  /** Which flag a key code drives; both Shift keys drive the same one. */
  function KeyOf(code: string): Option<Key> {
    if code == "ArrowUp" then Some(Up)
    else if code == "ArrowDown" then Some(Down)
    else if code == "ArrowLeft" then Some(LeftKey)
    else if code == "ArrowRight" then Some(RightKey)
    else if code == "KeyR" then Some(R)
    else if code == "KeyF" then Some(F)
    else if code == "ShiftLeft" || code == "ShiftRight" then Some(Shift)
    else None
  }

  lemma KeysAreTheirFlags(a: Keys, b: Keys)
    requires forall key :: Get(a, key) == Get(b, key)
    ensures a == b
  {
    assert Get(a, Up) == Get(b, Up) && Get(a, Down) == Get(b, Down);
    assert Get(a, LeftKey) == Get(b, LeftKey) && Get(a, RightKey) == Get(b, RightKey);
    assert Get(a, R) == Get(b, R) && Get(a, F) == Get(b, F) && Get(a, Shift) == Get(b, Shift);
  }

  /** The keydown switch: a repeat is ignored, a mapped key sets exactly its
      flag. */
  function KeyDown(k: Keys, code: string, repeat: bool): (r: Keys)
    ensures forall key :: Get(r, key) == (if !repeat && KeyOf(code) == Some(key) then true else Get(k, key))
  {
    if repeat then k
    else if code == "ArrowUp" then k.(up := true)
    else if code == "ArrowDown" then k.(down := true)
    else if code == "ArrowLeft" then k.(left := true)
    else if code == "ArrowRight" then k.(right := true)
    else if code == "KeyR" then k.(r := true)
    else if code == "KeyF" then k.(f := true)
    else if code == "ShiftLeft" || code == "ShiftRight" then k.(shift := true)
    else k
  }

  /** The keyup switch: a mapped key clears exactly its flag. */
  function KeyUp(k: Keys, code: string): (r: Keys)
    ensures forall key :: Get(r, key) == (if KeyOf(code) == Some(key) then false else Get(k, key))
  {
    if code == "ArrowUp" then k.(up := false)
    else if code == "ArrowDown" then k.(down := false)
    else if code == "ArrowLeft" then k.(left := false)
    else if code == "ArrowRight" then k.(right := false)
    else if code == "KeyR" then k.(r := false)
    else if code == "KeyF" then k.(f := false)
    else if code == "ShiftLeft" || code == "ShiftRight" then k.(shift := false)
    else k
  }

  /** Releasing either Shift key releases boost, even if the other one is
      still down. */
  lemma ShiftKeysShareOneFlag(k: Keys)
    ensures !KeyUp(KeyDown(k, "ShiftLeft", false), "ShiftRight").shift
    ensures KeyDown(k, "ShiftRight", false) == KeyDown(k, "ShiftLeft", false)
  {
    var a := KeyDown(k, "ShiftRight", false);
    var b := KeyDown(k, "ShiftLeft", false);
    assert forall key :: Get(a, key) == Get(b, key);
    KeysAreTheirFlags(a, b);
  }

  /** `deadzone(v)` with the default 0.12: small stick values read as 0. */
  const DeadZone: real := 0.12

  function Deadzone(v: real): (r: real)
    ensures r == 0.0 || r == v
    ensures r == v <==> Smoothing.Abs(v) >= DeadZone || v == 0.0
    ensures r == 0.0 || Smoothing.Abs(r) >= DeadZone
  {
    if Smoothing.Abs(v) < DeadZone then 0.0 else v
  }

  /** One keyboard axis: the positive key counts +1, the negative key -1. */
  function KeyAxis(pos: bool, neg: bool): (a: int)
    ensures -1 <= a <= 1
    ensures a == 1 <==> pos && !neg
    ensures a == -1 <==> neg && !pos
  {
    (if pos then 1 else 0) + (if neg then -1 else 0)
  }

  /** The first connected pad: stick axes 0 and 1, trigger values of
      buttons 6 (LT) and 7 (RT), and the pressed state of buttons 0 and 10.
      A missing axis or button reads as 0 or unpressed. */
  datatype Gamepad = Gamepad(axis0: real, axis1: real, lt: real, rt: real, button0: bool, button10: bool)

  /** The gamepad's contribution `gx, gz, glift, gboost`. */
  datatype PadReading = PadReading(gx: real, gz: real, glift: real, gboost: bool)

  function ReadPad(gp: Option<Gamepad>): (g: PadReading)
    ensures gp.None? ==> g == PadReading(0.0, 0.0, 0.0, false)
    ensures -1.0 <= g.glift <= 1.0
  {
    match gp
    case None => PadReading(0.0, 0.0, 0.0, false)
    case Some(p) =>
      PadReading(Deadzone(p.axis0), Deadzone(p.axis1), Smoothing.Clamp(p.rt - p.lt, -1.0, 1.0),
                 p.button0 || p.button10)
  }

  /** The pad wins as soon as any of its analog values is noticeably off
      zero; boost never decides the source. */
  predicate UseGamepad(g: PadReading) {
    Smoothing.Abs(g.gx) + Smoothing.Abs(g.gz) + Smoothing.Abs(g.glift) > 0.001
  }

  datatype Input = Input(moveX: real, moveZ: real, lift: real, boost: bool)

  /** The output of `read()`. */
  function Read(k: Keys, gp: Option<Gamepad>): (o: Input)
    ensures -1.0 <= o.moveX <= 1.0 && -1.0 <= o.moveZ <= 1.0 && -1.0 <= o.lift <= 1.0
  {
    var g := ReadPad(gp);
    var use := UseGamepad(g);
    Input(
      Smoothing.Clamp(if use then g.gx else KeyAxis(k.right, k.left) as real, -1.0, 1.0),
      Smoothing.Clamp(if use then g.gz else KeyAxis(k.down, k.up) as real, -1.0, 1.0),
      Smoothing.Clamp(if use then g.glift else KeyAxis(k.r, k.f) as real, -1.0, 1.0),
      if use then g.gboost else k.shift)
  }

  /** The selection rule for every input: when the pad's analog values sum
      to 0.001 or less the output is the keyboard-only one, and otherwise the
      pad alone decides and the keys do not matter. */
  lemma SelectionRule(k: Keys, k2: Keys, gp: Option<Gamepad>)
    ensures !UseGamepad(ReadPad(gp)) ==> Read(k, gp) == Read(k, None)
    ensures UseGamepad(ReadPad(gp)) ==> Read(k, gp) == Read(k2, gp)
  {
  }

  /** Without a pad, the keyboard decides everything: right-left, down-up
      (forward is negative z), R-F, and Shift for boost. */
  lemma NoPadMeansKeyboard(k: Keys)
    ensures Read(k, None) == Input(KeyAxis(k.right, k.left) as real, KeyAxis(k.down, k.up) as real,
                                   KeyAxis(k.r, k.f) as real, k.shift)
  {
  }

  /** A pad with its sticks in the dead zone and its triggers balanced leaves
      the keyboard in charge, whatever its buttons say. */
  lemma IdlePadMeansKeyboard(k: Keys, p: Gamepad)
    requires Smoothing.Abs(p.axis0) < DeadZone && Smoothing.Abs(p.axis1) < DeadZone && p.rt == p.lt
    ensures Read(k, Some(p)) == Read(k, None)
  {
  }

  /** A pad whose left stick is pushed past the dead zone takes over all
      four outputs, and its stick values pass through unchanged. */
  lemma ActivePadWins(k: Keys, p: Gamepad)
    requires DeadZone <= Smoothing.Abs(p.axis0) <= 1.0 && Smoothing.Abs(p.axis1) <= 1.0
    requires 0.0 <= p.lt <= 1.0 && 0.0 <= p.rt <= 1.0
    ensures Read(k, Some(p)).moveX == p.axis0
    ensures Read(k, Some(p)).moveZ == Deadzone(p.axis1)
    ensures Read(k, Some(p)).lift == p.rt - p.lt
    ensures Read(k, Some(p)).boost == (p.button0 || p.button10)
  {
  }

  /** The hook: `keys.current` updated by the listeners, and the output
      object `ref.current` rewritten by each `read()`. */
  class PlayerInputHook {
    var keys: Keys
    var out: Input

    constructor ()
      ensures keys == NoKeys && out == Input(0.0, 0.0, 0.0, false)
    {
      keys := NoKeys;
      out := Input(0.0, 0.0, 0.0, false);
    }

    method OnKeyDown(code: string, repeat: bool)
      modifies this
      ensures keys == KeyDown(old(keys), code, repeat) && out == old(out)
    {
      if repeat { return; }
      if code == "ArrowUp" {
        keys := keys.(up := true);
      } else if code == "ArrowDown" {
        keys := keys.(down := true);
      } else if code == "ArrowLeft" {
        keys := keys.(left := true);
      } else if code == "ArrowRight" {
        keys := keys.(right := true);
      } else if code == "KeyR" {
        keys := keys.(r := true);
      } else if code == "KeyF" {
        keys := keys.(f := true);
      } else if code == "ShiftLeft" || code == "ShiftRight" {
        keys := keys.(shift := true);
      }
    }

    method OnKeyUp(code: string)
      modifies this
      ensures keys == KeyUp(old(keys), code) && out == old(out)
    {
      if code == "ArrowUp" {
        keys := keys.(up := false);
      } else if code == "ArrowDown" {
        keys := keys.(down := false);
      } else if code == "ArrowLeft" {
        keys := keys.(left := false);
      } else if code == "ArrowRight" {
        keys := keys.(right := false);
      } else if code == "KeyR" {
        keys := keys.(r := false);
      } else if code == "KeyF" {
        keys := keys.(f := false);
      } else if code == "ShiftLeft" || code == "ShiftRight" {
        keys := keys.(shift := false);
      }
    }

    /** `read()`: the pad snapshot comes in as a value. */
    method ReadFrame(gp: Option<Gamepad>)
      modifies this
      ensures out == Read(keys, gp) && keys == old(keys)
    {
      var kx := KeyAxis(keys.right, keys.left);
      var kz := KeyAxis(keys.down, keys.up);
      var klift := KeyAxis(keys.r, keys.f);
      var gx, gz, glift, gboost := 0.0, 0.0, 0.0, false;
      if gp.Some? {
        gx := Deadzone(gp.value.axis0);
        gz := Deadzone(gp.value.axis1);
        glift := Smoothing.Clamp(gp.value.rt - gp.value.lt, -1.0, 1.0);
        gboost := gp.value.button0 || gp.value.button10;
      }
      var useGamepad := UseGamepad(PadReading(gx, gz, glift, gboost));
      out := Input(
        Smoothing.Clamp(if useGamepad then gx else kx as real, -1.0, 1.0),
        Smoothing.Clamp(if useGamepad then gz else kz as real, -1.0, 1.0),
        Smoothing.Clamp(if useGamepad then glift else klift as real, -1.0, 1.0),
        if useGamepad then gboost else keys.shift);
    }
  }
}
