/**
  The canvas toolbar (src/components/PreziCanvas/CanvasControls.tsx): zoom in and out in steps of
  0.25 between 0.5 and 3, a reset to zoom 1 that also clears the focus, and the edit-mode toggle.
  Zoom is counted in quarter steps, so 2 is 0.5, 4 is 1 and 12 is 3, and every step is exact.
 */
module CanvasControls {
  import opened Common
  import ContentContext

  /** The bounds in quarter steps: 0.5 and 3. */
  const MinQuarters := 2
  const MaxQuarters := 12

  /** `Math.min(zoomLevel + 0.25, 3)`. */
  function ZoomedIn(q: int): (r: int)
    ensures r <= MaxQuarters
    ensures q < MaxQuarters ==> r == q + 1
    ensures q >= MaxQuarters ==> r == MaxQuarters
  {
    if q + 1 < MaxQuarters then q + 1 else MaxQuarters
  }

  /** `Math.max(zoomLevel - 0.25, 0.5)`. */
  function ZoomedOut(q: int): (r: int)
    ensures r >= MinQuarters
    ensures q > MinQuarters ==> r == q - 1
    ensures q <= MinQuarters ==> r == MinQuarters
  {
    if q - 1 > MinQuarters then q - 1 else MinQuarters
  }

  /** Zooming in then out returns to the start anywhere below the top of the range. */
  lemma ZoomInThenOut(q: int)
    requires MinQuarters <= q < MaxQuarters
    ensures ZoomedOut(ZoomedIn(q)) == q
  {
  }

  /** The toolbar's zoom buttons. */
  datatype ZoomButton = ZoomIn | ZoomOut | ZoomReset

  /** The zoom after one button. */
  function Press(q: int, b: ZoomButton): int
  {
    match b
    case ZoomIn => ZoomedIn(q)
    case ZoomOut => ZoomedOut(q)
    case ZoomReset => 4
  }

  /** The zoom after pressing the buttons in turn. */
  function PressAll(q: int, bs: seq<ZoomButton>): int
    decreases |bs|
  {
    if bs == [] then q else PressAll(Press(q, bs[0]), bs[1..])
  }

  /** From any zoom in [0.5, 3], every sequence of presses stays in [0.5, 3]. */
  lemma {:induction false} PressAllStaysInRange(q: int, bs: seq<ZoomButton>)
    requires MinQuarters <= q <= MaxQuarters
    ensures MinQuarters <= PressAll(q, bs) <= MaxQuarters
    decreases |bs|
  {
    if bs != [] {
      PressAllStaysInRange(Press(q, bs[0]), bs[1..]);
    }
  }

  /** `handleZoomIn()`. */
  method HandleZoomIn(store: ContentContext.ContentStore)
    modifies store`zoomQuarters
    ensures store.zoomQuarters == ZoomedIn(old(store.zoomQuarters))
  {
    store.SetZoomLevel(ZoomedIn(store.zoomQuarters));
  }

  /** `handleZoomOut()`. */
  method HandleZoomOut(store: ContentContext.ContentStore)
    modifies store`zoomQuarters
    ensures store.zoomQuarters == ZoomedOut(old(store.zoomQuarters))
  {
    store.SetZoomLevel(ZoomedOut(store.zoomQuarters));
  }

  /** `handleResetZoom()`: zoom exactly 1 and nothing focused. */
  method HandleResetZoom(store: ContentContext.ContentStore)
    modifies store`zoomQuarters, store`focusedContentId
    ensures store.zoomQuarters == 4 && store.focusedContentId.None?
  {
    store.SetZoomLevel(4);
    store.SetFocusedContentId(None);
  }

  /** The edit button: `setEditMode(!editMode)`. */
  method HandleToggleEdit(store: ContentContext.ContentStore)
    modifies store`editMode
    ensures store.editMode == !old(store.editMode)
  {
    store.SetEditMode(!store.editMode);
  }
}
