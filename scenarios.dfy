/** Worked sessions on an 800-pixel-wide canvas, proved from the
    manager's contracts alone. */
module Scenarios {
  import opened Shapes
  import opened Draggable

  /** One whole pinch gesture with no drag in progress: pinch at (fx, fy),
      move the pinched hand to (tx, ty), open the hand there. The topmost
      rectangle under (fx, fy), if any, is translated by the hand's
      displacement and then scored once; with no rectangle under the
      pinch nothing changes but the hand fields. */
  method PinchDrag(m: DraggableRectangle, fx: real, fy: real, tx: real, ty: real)
    returns (grabbed: Option<nat>)
    requires m.Valid() && !m.isPinching && m.draggedRect == None
    modifies m
    ensures m.Valid() && !m.isPinching && m.draggedRect == None
    ensures grabbed == TopmostHit(old(m.rectangles), fx, fy)
    ensures grabbed.None? ==>
      m.rectangles == old(m.rectangles) &&
      m.score == old(m.score) && m.scoredRects == old(m.scoredRects)
    ensures grabbed.Some? ==>
      var i := grabbed.value;
      var r := old(m.rectangles[i]);
      m.rectangles == old(m.rectangles)[i := r.(x := r.x + (tx - fx), y := r.y + (ty - fy))] &&
      var credited := CentreInRightHalf(m.rectangles[i], m.canvas.width) && i !in old(m.scoredRects);
      m.score == old(m.score) + (if credited then Points else 0) &&
      m.scoredRects == if credited then old(m.scoredRects) + {i} else old(m.scoredRects)
  {
    m.UpdateHandPosition(fx, fy, true, false);
    grabbed := m.draggedRect;
    m.UpdateHandPosition(tx, ty, true, false);
    m.UpdateHandPosition(tx, ty, false, false);
  }

  /** Pinch the first rectangle at its centre (110, 110), drag it to
      (500, 110) and release: 25 points. Drag it back to its start and
      release: still 25. Drag it right again and release: still 25,
      because a rectangle earns its points once. */
  method DragAcrossAndBack() returns (afterFirst: int, afterBack: int, afterAgain: int)
    ensures afterFirst == 25 && afterBack == 25 && afterAgain == 25
  {
    var canvas := new Canvas(800);
    var m := new DraggableRectangle(canvas);
    assert IsTopmost(m.rectangles, 110.0, 110.0, Some(0));
    var g := PinchDrag(m, 110.0, 110.0, 500.0, 110.0);
    assert m.rectangles[0].x == 440.0;
    afterFirst := m.GetScore();

    assert IsTopmost(m.rectangles, 500.0, 110.0, Some(0));
    g := PinchDrag(m, 500.0, 110.0, 110.0, 110.0);
    assert m.rectangles[0].x == 50.0;
    afterBack := m.GetScore();

    assert IsTopmost(m.rectangles, 110.0, 110.0, Some(0));
    g := PinchDrag(m, 110.0, 110.0, 500.0, 110.0);
    afterAgain := m.GetScore();
  }

  /** Where rectangles overlap, the one added last is grabbed; a point on
      only one rectangle grabs that one. */
  method OverlapPicksLatest() returns (onOverlap: Option<nat>, onSingle: Option<nat>)
    ensures onOverlap == Some(4) && onSingle == Some(0)
  {
    var canvas := new Canvas(800);
    var m := new DraggableRectangle(canvas);
    m.AddRectangle(100.0, 100.0, 120.0, 120.0, "#000000");
    assert IsTopmost(m.rectangles, 110.0, 110.0, Some(4));
    m.UpdateHandPosition(110.0, 110.0, true, false);
    onOverlap := m.draggedRect;
    m.UpdateHandPosition(110.0, 110.0, false, false);

    assert IsTopmost(m.rectangles, 60.0, 60.0, Some(0));
    m.OnMouseDown(60.0, 60.0);
    onSingle := m.draggedRect;
  }

  /** A mouse drag into the right half moves the rectangle there but earns
      nothing: only the end of a pinch scores. */
  method MouseDragDoesNotScore() returns (x: real, score: int)
    ensures x == 440.0 && score == 0
  {
    var canvas := new Canvas(800);
    var m := new DraggableRectangle(canvas);
    assert IsTopmost(m.rectangles, 110.0, 110.0, Some(0));
    m.OnMouseDown(110.0, 110.0);
    m.OnMouseMove(500.0, 110.0);
    m.OnMouseUp();
    x := m.rectangles[0].x;
    score := m.GetScore();
  }

  /** A pinch that starts on empty canvas grabs nothing, so moving the
      pinched hand moves no rectangle and releasing it scores nothing. */
  method PinchOnEmptyCanvas() returns (rects: seq<Rect>, score: int)
    ensures rects == [Rect(50.0, 50.0, 120.0, 120.0, "#4CAF50"),
                      Rect(50.0, 200.0, 120.0, 120.0, "#2196F3"),
                      Rect(50.0, 350.0, 120.0, 120.0, "#FF9800"),
                      Rect(50.0, 500.0, 120.0, 120.0, "#E91E63")]
    ensures score == 0
  {
    var canvas := new Canvas(800);
    var m := new DraggableRectangle(canvas);
    assert IsTopmost(m.rectangles, 700.0, 40.0, None);
    m.UpdateHandPosition(700.0, 40.0, true, false);
    m.UpdateHandPosition(110.0, 110.0, true, false);
    m.UpdateHandPosition(110.0, 110.0, false, false);
    rects := m.rectangles;
    score := m.GetScore();
  }

  /** The mouse and the hand share one drag session: a mouse press grabs
      the first rectangle, a pinch that starts on empty canvas keeps that
      grab, the held pinch moves it to the right half and opening the hand
      scores it. */
  method MouseGrabThenPinch() returns (x: real, score: int)
    ensures x == 440.0 && score == 25
  {
    var canvas := new Canvas(800);
    var m := new DraggableRectangle(canvas);
    assert IsTopmost(m.rectangles, 110.0, 110.0, Some(0));
    m.OnMouseDown(110.0, 110.0);
    assert IsTopmost(m.rectangles, 700.0, 40.0, None);
    m.UpdateHandPosition(700.0, 40.0, true, false);
    assert m.draggedRect == Some(0);
    m.UpdateHandPosition(500.0, 110.0, true, false);
    m.UpdateHandPosition(500.0, 110.0, false, false);
    x := m.rectangles[0].x;
    score := m.GetScore();
  }
}
