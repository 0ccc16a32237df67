/**
  Panning the canvas (src/components/ContentCreator/Canvas/CanvasNavigation.tsx): the middle or
  right mouse button starts a drag; every move during a drag adds the pointer's travel since the
  previous event to the canvas offset; releasing the button ends the drag; focusing a block
  recentres the canvas.
 */
module CanvasNavigation {
  import opened Common

  datatype Vec = Vec(x: int, y: int)

  function Add(a: Vec, b: Vec): Vec { Vec(a.x + b.x, a.y + b.y) }
  function Sub(a: Vec, b: Vec): Vec { Vec(a.x - b.x, a.y - b.y) }

  /** The pan state: whether a drag is on, where the pointer was last seen, and the offset. */
  datatype NavState = NavState(isDragging: bool, dragStart: Vec, canvasOffset: Vec)

  const Initial := NavState(false, Vec(0, 0), Vec(0, 0))

  /** The mouse handlers' inputs. */
  datatype MouseEvent =
    | MouseDown(button: int, at: Vec)
    | MouseMove(at: Vec)
    | MouseUp

  /**
    One handler: mouse-down with button 1 or 2 starts a drag at the pointer (any other button
    does nothing); a move during a drag adds the travel and records the pointer; a move outside
    a drag does nothing; mouse-up ends the drag and keeps the offset.
   */
  function Step(s: NavState, e: MouseEvent): (r: NavState)
    ensures e.MouseDown? && (e.button == 1 || e.button == 2) ==> r == s.(isDragging := true, dragStart := e.at)
    ensures e.MouseDown? && e.button != 1 && e.button != 2 ==> r == s
    ensures e.MouseMove? && !s.isDragging ==> r == s
    ensures e.MouseMove? && s.isDragging ==>
      r.isDragging && r.dragStart == e.at && Sub(r.canvasOffset, s.canvasOffset) == Sub(e.at, s.dragStart)
    ensures e.MouseUp? ==> !r.isDragging && r.canvasOffset == s.canvasOffset && r.dragStart == s.dragStart
  {
    match e
    case MouseDown(b, p) => if b == 2 || b == 1 then s.(isDragging := true, dragStart := p) else s
    case MouseMove(p) =>
      if s.isDragging then s.(canvasOffset := Add(s.canvasOffset, Sub(p, s.dragStart)), dragStart := p) else s
    case MouseUp => s.(isDragging := false)
  }

  /** The state after a run of mouse moves through the points `pts`. */
  function Moves(s: NavState, pts: seq<Vec>): NavState
    decreases |pts|
  {
    if pts == [] then s else Moves(Step(s, MouseMove(pts[0])), pts[1..])
  }

  /**
    Over a whole drag the per-move increments telescope: the offset grows by exactly the final
    pointer position minus the position the drag started from.
   */
  lemma {:induction false} MovesTelescope(s: NavState, pts: seq<Vec>)
    requires s.isDragging && |pts| > 0
    ensures var r := Moves(s, pts);
      && r.isDragging
      && r.dragStart == pts[|pts| - 1]
      && r.canvasOffset == Add(s.canvasOffset, Sub(pts[|pts| - 1], s.dragStart))
    decreases |pts|
  {
    var next := Step(s, MouseMove(pts[0]));
    if |pts| > 1 {
      MovesTelescope(next, pts[1..]);
    }
  }

  /** Outside a drag, moves change nothing. */
  lemma {:induction false} MovesWithoutDrag(s: NavState, pts: seq<Vec>)
    requires !s.isDragging
    ensures Moves(s, pts) == s
    decreases |pts|
  {
    if pts != [] {
      MovesWithoutDrag(s, pts[1..]);
    }
  }

  /**
    The focus effect: a truthy focused id (a non-empty string) with the canvas mounted puts the
    offset back to (0, 0); anything else leaves it.
   */
  function AfterFocus(s: NavState, focused: Option<Id>, mounted: bool): (r: NavState)
    ensures focused.Some? && focused.value != "" && mounted ==> r == s.(canvasOffset := Vec(0, 0))
    ensures !(focused.Some? && focused.value != "" && mounted) ==> r == s
  {
    if focused.Some? && focused.value != "" && mounted then s.(canvasOffset := Vec(0, 0)) else s
  }

  class CanvasNavigator {
    var isDragging: bool
    var dragStart: Vec
    var canvasOffset: Vec

    function State(): NavState
      reads this
    {
      NavState(isDragging, dragStart, canvasOffset)
    }

    /** Not dragging, both points at the origin. */
    constructor()
      ensures State() == Initial
    {
      isDragging := false;
      dragStart := Vec(0, 0);
      canvasOffset := Vec(0, 0);
    }

    /** `handleMouseDown(e)`. */
    method HandleMouseDown(button: int, at: Vec)
      modifies this`isDragging, this`dragStart
      ensures State() == Step(old(State()), MouseDown(button, at))
    {
      if button == 2 || button == 1 {
        isDragging := true;
        dragStart := at;
      }
    }

    /** `handleMouseMove(e)`: the offset update and the new drag start are one step. */
    method HandleMouseMove(at: Vec)
      modifies this`canvasOffset, this`dragStart
      ensures State() == Step(old(State()), MouseMove(at))
    {
      if isDragging {
        var dx := at.x - dragStart.x;
        var dy := at.y - dragStart.y;
        canvasOffset := Vec(canvasOffset.x + dx, canvasOffset.y + dy);
        dragStart := at;
      }
    }

    /** `handleMouseUp()`. */
    method HandleMouseUp()
      modifies this`isDragging
      ensures State() == Step(old(State()), MouseUp)
    {
      isDragging := false;
    }

    /** The effect that runs when the focused id changes. */
    method FocusChanged(focused: Option<Id>, mounted: bool)
      modifies this`canvasOffset
      ensures State() == AfterFocus(old(State()), focused, mounted)
    {
      if focused.Some? && focused.value != "" && mounted {
        canvasOffset := Vec(0, 0);
      }
    }
  }
}
