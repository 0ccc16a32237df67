/**
  The slide canvas's own zoom (src/components/ContentCreator/SlideCanvas/SlideCanvas.tsx), in
  integer percent: it starts at 100 and moves in steps of 10 between 50 and 200.
 */
module SlideCanvas {

  /** `Math.min(zoom + 10, 200)`. */
  function PercentIn(z: int): (r: int)
    ensures r <= 200
    ensures z + 10 <= 200 ==> r == z + 10
    ensures z + 10 > 200 ==> r == 200
  {
    if z + 10 < 200 then z + 10 else 200
  }

  /** `Math.max(zoom - 10, 50)`. */
  function PercentOut(z: int): (r: int)
    ensures r >= 50
    ensures z - 10 >= 50 ==> r == z - 10
    ensures z - 10 < 50 ==> r == 50
  {
    if z - 10 > 50 then z - 10 else 50
  }

  /** The zoom values reachable from 100: multiples of 10 in [50, 200]. */
  predicate Reachable(z: int)
  {
    50 <= z <= 200 && z % 10 == 0
  }

  /** Both buttons keep the zoom reachable. */
  lemma StepsStayReachable(z: int)
    requires Reachable(z)
    ensures Reachable(PercentIn(z)) && Reachable(PercentOut(z))
  {
  }

  /** Zooming in then out returns to the start anywhere below 200. */
  lemma InThenOut(z: int)
    requires 50 <= z <= 190
    ensures PercentOut(PercentIn(z)) == z
  {
  }

  class SlideCanvasZoom {
    var zoom: int

    constructor()
      ensures zoom == 100 && Reachable(zoom)
    {
      zoom := 100;
    }

    /** `handleZoomIn()`. */
    method HandleZoomIn()
      modifies this`zoom
      ensures zoom == PercentIn(old(zoom))
      ensures old(Reachable(zoom)) ==> Reachable(zoom)
    {
      zoom := PercentIn(zoom);
    }

    /** `handleZoomOut()`. */
    method HandleZoomOut()
      modifies this`zoom
      ensures zoom == PercentOut(old(zoom))
      ensures old(Reachable(zoom)) ==> Reachable(zoom)
    {
      zoom := PercentOut(zoom);
    }
  }
}
