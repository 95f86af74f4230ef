/** Rectangles on the canvas and the two geometric tests the drag manager
    makes on them: the pointer hit test and the scoring test. Coordinates
    are canvas pixels; the origin of a rectangle is its top-left corner. */
module Shapes {

  datatype Option<T> = None | Some(value: T)

  /** A rectangle: position, size and fill colour. */
  datatype Rect = Rect(x: real, y: real, width: real, height: real, color: string)

  /** The pointer (px, py) lies on the rectangle; all four edges count as
      inside. Equivalently, the pointer's offset from the origin lies
      within the size, so only a rectangle of non-negative size is hit. */
  function IsPointInRect(px: real, py: real, r: Rect): (inside: bool)
    ensures inside <==> 0.0 <= px - r.x <= r.width && 0.0 <= py - r.y <= r.height
    ensures inside ==> r.width >= 0.0 && r.height >= 0.0
  {
    px >= r.x && px <= r.x + r.width &&
    py >= r.y && py <= r.y + r.height
  }

  /** Edges are inclusive: a rectangle of non-negative size holds its four
      corners, and every point strictly left of, above, right of or below
      it is outside. */
  lemma InclusiveEdges(r: Rect, px: real, py: real)
    requires r.width >= 0.0 && r.height >= 0.0
    ensures IsPointInRect(r.x, r.y, r) && IsPointInRect(r.x + r.width, r.y, r)
    ensures IsPointInRect(r.x, r.y + r.height, r) && IsPointInRect(r.x + r.width, r.y + r.height, r)
    ensures (px < r.x || px > r.x + r.width || py < r.y || py > r.y + r.height) ==>
            !IsPointInRect(px, py, r)
  {
  }

  /** `hit` is the answer a top-down hit test must give: the highest index
      whose rectangle holds the point (later rectangles are drawn on top),
      or None when no rectangle holds it. */
  ghost predicate IsTopmost(rects: seq<Rect>, px: real, py: real, hit: Option<nat>)
  {
    match hit
    case Some(i) =>
      i < |rects| && IsPointInRect(px, py, rects[i]) &&
      forall j :: i < j < |rects| ==> !IsPointInRect(px, py, rects[j])
    case None =>
      forall j :: 0 <= j < |rects| ==> !IsPointInRect(px, py, rects[j])
  }

  /** Reference definition of the hit test: look at the last rectangle first. */
  ghost function TopmostHit(rects: seq<Rect>, px: real, py: real): (r: Option<nat>)
    ensures IsTopmost(rects, px, py, r)
    ensures forall h :: IsTopmost(rects, px, py, h) ==> h == r
    decreases |rects|
  {
    if |rects| == 0 then None
    else if IsPointInRect(px, py, rects[|rects| - 1]) then Some(|rects| - 1)
    else
      var front := rects[..|rects| - 1];
      assert forall j :: 0 <= j < |front| ==> front[j] == rects[j];
      TopmostHit(front, px, py)
  }

  /** The hit test both input paths run: scan from the last rectangle down
      to the first and stop at the first one that holds the point. */
  method FindTopmost(rects: seq<Rect>, px: real, py: real) returns (hit: Option<nat>)
    ensures hit == TopmostHit(rects, px, py)
  {
    var i := |rects| - 1;
    while i >= 0
      invariant -1 <= i < |rects|
      invariant forall j :: i < j < |rects| ==> !IsPointInRect(px, py, rects[j])
      decreases i
    {
      if IsPointInRect(px, py, rects[i]) {
        return Some(i);
      }
      i := i - 1;
    }
    return None;
  }

  /** The scoring test: the rectangle's horizontal centre lies strictly to
      the right of the vertical midline of a canvas `canvasWidth` wide. */
  function CentreInRightHalf(r: Rect, canvasWidth: nat): (right: bool)
    ensures right <==> 2.0 * r.x + r.width > canvasWidth as real
    ensures r.width >= 0.0 && 2.0 * r.x > canvasWidth as real ==> right
    ensures r.width >= 0.0 && 2.0 * (r.x + r.width) <= canvasWidth as real ==> !right
  {
    r.x + r.width / 2.0 > canvasWidth as real / 2.0
  }
}
