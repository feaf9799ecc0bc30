/** `useShooterInput`: Space held/pressed, X and R one-shot edges raised by
    keydown and consumed once per frame by `__read`, plus the sticky
    gamepad R1 fire button. */
module ShooterInput {
  import opened Wrappers

  /** `heldRef` and `pressedRef`. */
  datatype Edges = Edges(held: bool, fire: bool, toggle: bool, reload: bool)

  const NoEdges: Edges := Edges(false, false, false, false)

  /** The fields `__read` writes into the output object. */
  datatype Output = Output(fireHeld: bool, firePressed: bool, toggleCockpitPressed: bool, reloadPressed: bool)

  /** The keydown listener. */
  function KeyDown(e: Edges, code: string, repeat: bool): (r: Edges)
    ensures repeat ==> r == e
    ensures !repeat ==> r.held == (e.held || code == "Space")
    ensures !repeat ==> (r.fire <==> e.fire || (code == "Space" && !e.held))
    ensures !repeat ==> r.toggle == (e.toggle || code == "KeyX")
    ensures !repeat ==> r.reload == (e.reload || code == "KeyR")
  {
    if repeat then e
    else
      var e1 := if code == "Space" then e.(fire := if !e.held then true else e.fire, held := true) else e;
      var e2 := if code == "KeyX" then e1.(toggle := true) else e1;
      if code == "KeyR" then e2.(reload := true) else e2
  }

  /** The keyup listener: only Space matters, and it releases the hold. */
  function KeyUp(e: Edges, code: string): (r: Edges)
    ensures r.fire == e.fire && r.toggle == e.toggle && r.reload == e.reload
    ensures r.held == (e.held && code != "Space")
  {
    if code == "Space" then e.(held := false) else e
  }

  datatype ReadResult = ReadResult(next: Edges, out: Output)

  /** `__read`: copy the hold, hand the edges out and clear them, then let a
      pressed R1 (`r1 == Some(true)`) raise a fresh fire edge if fire was not
      held and make the hold sticky. `r1` is `None` when no pad is at index 0. */
  function Read(e: Edges, r1: Option<bool>): (r: ReadResult)
    ensures r.out == Output(e.held, e.fire, e.toggle, e.reload)
    ensures !r.next.toggle && !r.next.reload
    ensures r.next.fire <==> r1 == Some(true) && !e.held
    ensures r.next.held <==> e.held || r1 == Some(true)
  {
    var out := Output(e.held, e.fire, e.toggle, e.reload);
    var cleared := e.(fire := false, toggle := false, reload := false);
    match r1
    case None => ReadResult(cleared, out)
    case Some(pressed) =>
      var queued := if pressed && !cleared.held then cleared.(fire := true) else cleared;
      ReadResult(queued.(held := pressed || queued.held), out)
  }

  /** One X (or R) keydown is seen as pressed by the next read and by no
      read after it, unless the key goes down again. */
  lemma EdgeSeenOnce(e: Edges, code: string, pad1: Option<bool>, pad2: Option<bool>)
    requires code == "KeyX" || code == "KeyR"
    ensures var first := Read(KeyDown(e, code, false), pad1);
            var second := Read(first.next, pad2);
            (code == "KeyX" ==> first.out.toggleCockpitPressed && !second.out.toggleCockpitPressed)
            && (code == "KeyR" ==> first.out.reloadPressed && !second.out.reloadPressed)
  {
  }

  /** A Space keydown from released gives exactly one fire edge; a second
      Space keydown while still held gives none. */
  lemma SpaceEdgeNeedsRelease(e: Edges)
    requires !e.held
    ensures var first := Read(KeyDown(e, "Space", false), None);
            first.out.firePressed && first.out.fireHeld
            && !Read(KeyDown(first.next, "Space", false), None).out.firePressed
  {
  }

  /** Once R1 has been seen pressed, fire stays held through any later read,
      pressed or released: only a Space keyup releases it. */
  lemma R1IsSticky(e: Edges, later: Option<bool>)
    ensures Read(Read(e, Some(true)).next, later).next.held
    ensures !KeyUp(Read(e, Some(true)).next, "Space").held
  {
  }

  /** The reported hold is the one from before the pad is polled: R1
      pressed from released shows up as held and pressed only on the next
      read. */
  lemma R1SeenNextFrame(e: Edges, later: Option<bool>)
    requires !e.held && !e.fire
    ensures !Read(e, Some(true)).out.fireHeld && !Read(e, Some(true)).out.firePressed
    ensures Read(Read(e, Some(true)).next, later).out.fireHeld
    ensures Read(Read(e, Some(true)).next, later).out.firePressed
  {
  }

  /** The hook's refs and the stable output object. */
  class ShooterInputHook {
    var edges: Edges
    var out: Output
    var lastKey: Option<string>

    constructor ()
      ensures edges == NoEdges && out == Output(false, false, false, false) && lastKey == None
    {
      edges := NoEdges;
      out := Output(false, false, false, false);
      lastKey := None;
    }

    method OnKeyDown(code: string, repeat: bool)
      modifies this
      ensures edges == KeyDown(old(edges), code, repeat) && out == old(out)
      ensures lastKey == if repeat then old(lastKey) else Some(code)
    {
      if repeat { return; }
      lastKey := Some(code);
      if code == "Space" {
        if !edges.held {
          edges := edges.(fire := true);
        }
        edges := edges.(held := true);
      }
      if code == "KeyX" {
        edges := edges.(toggle := true);
      }
      if code == "KeyR" {
        edges := edges.(reload := true);
      }
    }

    method OnKeyUp(code: string)
      modifies this
      ensures edges == KeyUp(old(edges), code) && out == old(out) && lastKey == Some(code)
    {
      lastKey := Some(code);
      if code == "Space" {
        edges := edges.(held := false);
      }
    }

    method ReadFrame(r1: Option<bool>)
      modifies this
      ensures edges == Read(old(edges), r1).next && out == Read(old(edges), r1).out
      ensures lastKey == old(lastKey)
    {
      out := Output(edges.held, edges.fire, edges.toggle, edges.reload);
      edges := edges.(fire := false, toggle := false, reload := false);
      if r1.Some? {
        var pressed := r1.value;
        if pressed && !edges.held {
          edges := edges.(fire := true);
        }
        edges := edges.(held := pressed || edges.held);
      }
    }
  }
}
