/** The rectangle manager: an ordered collection of rectangles that can be
    dragged by a pinch gesture or by the mouse, and a score that grows by a
    fixed amount the first time each rectangle is released from a pinch
    with its centre in the right half of the canvas; a mouse release
    awards nothing.

    Rectangle identity is its index in `rectangles`: rectangles are only
    ever appended, never removed or reordered, so an index names the same
    rectangle for the whole session. */
module Draggable {
  import opened Shapes

  /** Points awarded for each rectangle moved into the right half. */
  const Points: int := 25

  /** The drawing surface. Its width is owned by the page, which resizes
      it to the camera frame after the manager has been built, so the
      manager holds the canvas by reference and reads `width` when it
      scores. */
  class Canvas {
    var width: nat

    constructor (width: nat)
      ensures this.width == width
    {
      this.width := width;
    }
  }

  /** A set of indices, all below `n`, has at most `n` members. */
  lemma {:induction false} IndicesBelowBound(s: set<nat>, n: nat)
    requires forall i :: i in s ==> i < n
    ensures |s| <= n
  {
    if n == 0 {
      assert s == {};
    } else {
      var rest := s - {n - 1};
      IndicesBelowBound(rest, n - 1);
      if n - 1 in s {
        assert s == rest + {n - 1};
      } else {
        assert s == rest;
      }
    }
  }

  class DraggableRectangle {
    const canvas: Canvas
    var rectangles: seq<Rect>
    /** Drag session: the rectangle being dragged and the pointer's offset
        from its origin when the drag began. */
    var draggedRect: Option<nat>
    var offsetX: real
    var offsetY: real
    /** Pinch flag of the previous hand update. */
    var isPinching: bool
    /** Last hand position and closed-hand flag, kept for feedback only. */
    var handX: real
    var handY: real
    var isClosed: bool
    var score: int
    /** Rectangles that have already earned their points. */
    var scoredRects: set<nat>

    /** The drag session names an existing rectangle and its grab offset
        lies on that rectangle; every credited rectangle exists; and the
        score is exactly the points of the credited rectangles. */
    ghost predicate Valid()
      reads this
    {
      (draggedRect.Some? ==>
         draggedRect.value < |rectangles| &&
         0.0 <= offsetX <= rectangles[draggedRect.value].width &&
         0.0 <= offsetY <= rectangles[draggedRect.value].height) &&
      (forall i :: i in scoredRects ==> i < |rectangles|) &&
      score == Points * |scoredRects|
    }

    /** The rectangles after the dragged one has been moved so that its
        origin is (x, y) minus the grab offset. */
    ghost function DraggedTo(x: real, y: real): seq<Rect>
      reads this
      requires Valid() && draggedRect.Some?
    {
      var d := draggedRect.value;
      rectangles[d := rectangles[d].(x := x - offsetX, y := y - offsetY)]
    }

    /** Releasing rectangle `i` now would earn points. */
    ghost predicate Credits(i: nat)
      reads this, canvas
      requires i < |rectangles|
    {
      CentreInRightHalf(rectangles[i], canvas.width) && i !in scoredRects
    }

    /** A new manager on `canvas` holds the four starting rectangles down
        the left side, with no drag, no pinch and no score. */
    constructor (canvas: Canvas)
      ensures Valid() && this.canvas == canvas
      ensures rectangles == [Rect(50.0, 50.0, 120.0, 120.0, "#4CAF50"),
                             Rect(50.0, 200.0, 120.0, 120.0, "#2196F3"),
                             Rect(50.0, 350.0, 120.0, 120.0, "#FF9800"),
                             Rect(50.0, 500.0, 120.0, 120.0, "#E91E63")]
      ensures draggedRect == None && offsetX == 0.0 && offsetY == 0.0
      ensures !isPinching && handX == 0.0 && handY == 0.0 && !isClosed
      ensures score == 0 && scoredRects == {}
    {
      this.canvas := canvas;
      rectangles := [];
      draggedRect := None;
      offsetX, offsetY := 0.0, 0.0;
      isPinching := false;
      handX, handY := 0.0, 0.0;
      isClosed := false;
      score := 0;
      scoredRects := {};
      new;
      AddRectangle(50.0, 50.0, 120.0, 120.0, "#4CAF50");
      AddRectangle(50.0, 200.0, 120.0, 120.0, "#2196F3");
      AddRectangle(50.0, 350.0, 120.0, 120.0, "#FF9800");
      AddRectangle(50.0, 500.0, 120.0, 120.0, "#E91E63");
    }

    /** Appends one rectangle on top of all others; nothing else changes. */
    method AddRectangle(x: real, y: real, width: real, height: real, color: string)
      requires Valid()
      modifies this`rectangles
      ensures Valid()
      ensures rectangles == old(rectangles) + [Rect(x, y, width, height, color)]
    {
      rectangles := rectangles + [Rect(x, y, width, height, color)];
    }

    /** Mouse press at canvas point (x, y): start dragging the topmost
        rectangle under the pointer; a press on empty canvas leaves the
        drag session as it was. */
    method OnMouseDown(x: real, y: real)
      requires Valid()
      modifies this`draggedRect, this`offsetX, this`offsetY
      ensures Valid()
      ensures match TopmostHit(rectangles, x, y)
        case Some(i) =>
          draggedRect == Some(i) &&
          offsetX == x - rectangles[i].x && offsetY == y - rectangles[i].y
        case None =>
          draggedRect == old(draggedRect) &&
          offsetX == old(offsetX) && offsetY == old(offsetY)
    {
      var hit := FindTopmost(rectangles, x, y);
      if hit.Some? {
        draggedRect := hit;
        offsetX := x - rectangles[hit.value].x;
        offsetY := y - rectangles[hit.value].y;
      }
    }

    /** Mouse move to (x, y): a rigid translation of the dragged rectangle
        that keeps the grab offset, so the pointer stays on it; no other
        rectangle and no size or colour changes. */
    method OnMouseMove(x: real, y: real)
      requires Valid()
      modifies this`rectangles
      ensures Valid()
      ensures draggedRect.None? ==> rectangles == old(rectangles)
      ensures draggedRect.Some? ==> rectangles == old(DraggedTo(x, y))
      ensures draggedRect.Some? ==>
        rectangles[draggedRect.value].x == x - offsetX &&
        rectangles[draggedRect.value].y == y - offsetY &&
        IsPointInRect(x, y, rectangles[draggedRect.value])
      ensures |rectangles| == |old(rectangles)|
      ensures forall j :: 0 <= j < |rectangles| ==>
        rectangles[j].width == old(rectangles[j].width) &&
        rectangles[j].height == old(rectangles[j].height) &&
        rectangles[j].color == old(rectangles[j].color)
      ensures forall j :: 0 <= j < |rectangles| && Some(j) != draggedRect ==>
        rectangles[j] == old(rectangles[j])
    {
      if draggedRect.Some? {
        var d := draggedRect.value;
        rectangles := rectangles[d := rectangles[d].(x := x - offsetX, y := y - offsetY)];
      }
    }

    /** Mouse release: the drag session ends and no points are awarded. */
    method OnMouseUp()
      requires Valid()
      modifies this`draggedRect
      ensures Valid() && draggedRect == None
    {
      draggedRect := None;
    }

    /** Awards the points for rectangle `i` iff its centre is in the right
        half and it has not earned them before; otherwise nothing changes.
        The score never falls and the credited set only grows. */
    method CheckScore(i: nat)
      requires Valid() && i < |rectangles|
      modifies this`score, this`scoredRects
      ensures Valid()
      ensures score == old(score) + (if old(Credits(i)) then Points else 0)
      ensures scoredRects == if old(Credits(i)) then old(scoredRects) + {i} else old(scoredRects)
      ensures old(score) <= score && old(scoredRects) <= scoredRects
    {
      if CentreInRightHalf(rectangles[i], canvas.width) && i !in scoredRects {
        score := score + Points;
        scoredRects := scoredRects + {i};
      }
    }

    /** One frame of hand input: the index-fingertip at (x, y) and the
        pinch and closed-hand flags. The pinch transition against the
        previous frame's flag decides the action: a new pinch grabs the
        topmost rectangle under the fingertip, a held pinch moves the
        dragged rectangle, a released pinch scores it and ends the drag,
        and no pinch does nothing. The closed-hand flag is only stored:
        no other postcondition depends on it. */
    method UpdateHandPosition(x: real, y: real, pinching: bool, closed: bool)
      requires Valid()
      modifies this
      ensures Valid()
      ensures handX == x && handY == y && isClosed == closed && isPinching == pinching
      // pinch starts
      ensures pinching && !old(isPinching) ==>
        rectangles == old(rectangles) &&
        score == old(score) && scoredRects == old(scoredRects) &&
        match TopmostHit(rectangles, x, y)
        case Some(i) =>
          draggedRect == Some(i) &&
          offsetX == x - rectangles[i].x && offsetY == y - rectangles[i].y
        case None =>
          draggedRect == old(draggedRect) &&
          offsetX == old(offsetX) && offsetY == old(offsetY)
      // pinch ends
      ensures !pinching && old(isPinching) ==>
        draggedRect == None && rectangles == old(rectangles) &&
        offsetX == old(offsetX) && offsetY == old(offsetY) &&
        (old(draggedRect).None? ==>
           score == old(score) && scoredRects == old(scoredRects)) &&
        (old(draggedRect).Some? ==>
           score == old(score) + (if old(Credits(draggedRect.value)) then Points else 0) &&
           scoredRects == if old(Credits(draggedRect.value))
                          then old(scoredRects) + {old(draggedRect).value}
                          else old(scoredRects))
      // pinch held
      ensures pinching && old(isPinching) ==>
        draggedRect == old(draggedRect) &&
        offsetX == old(offsetX) && offsetY == old(offsetY) &&
        score == old(score) && scoredRects == old(scoredRects) &&
        rectangles == if draggedRect.Some? then old(DraggedTo(x, y)) else old(rectangles)
      ensures pinching && old(isPinching) && draggedRect.Some? ==>
        IsPointInRect(x, y, rectangles[draggedRect.value])
      // no pinch
      ensures !pinching && !old(isPinching) ==>
        rectangles == old(rectangles) && draggedRect == old(draggedRect) &&
        offsetX == old(offsetX) && offsetY == old(offsetY) &&
        score == old(score) && scoredRects == old(scoredRects)
      ensures old(score) <= score && old(scoredRects) <= scoredRects
    {
      handX := x;
      handY := y;
      isClosed := closed;

      if pinching && !isPinching {
        var hit := FindTopmost(rectangles, x, y);
        if hit.Some? {
          draggedRect := hit;
          offsetX := x - rectangles[hit.value].x;
          offsetY := y - rectangles[hit.value].y;
        }
      } else if !pinching && isPinching {
        if draggedRect.Some? {
          CheckScore(draggedRect.value);
        }
        draggedRect := None;
      } else if pinching && draggedRect.Some? {
        var d := draggedRect.value;
        rectangles := rectangles[d := rectangles[d].(x := x - offsetX, y := y - offsetY)];
      }

      isPinching := pinching;
    }

    /** The current score: the points of the credited rectangles, so a
        multiple of `Points` and at most `Points` per rectangle. */
    function GetScore(): (s: int)
      reads this
      requires Valid()
      ensures s == Points * |scoredRects|
      ensures 0 <= s <= Points * |rectangles|
    {
      IndicesBelowBound(scoredRects, |rectangles|);
      score
    }
  }
}
