# Pinch-drag rectangle manager, modelled in Dafny

The demo shows four coloured rectangles down the left side of a canvas. A
user drags them, with a pinch gesture seen by the camera or with the
mouse. The user earns 25 points the first time each one is released from
a pinch with its centre in the right half of the canvas; a mouse release
awards nothing. This project models the
`DraggableRectangle` class of `src/draggable.ts`: its rectangle collection,
its drag session (`draggedRect`, `offsetX`, `offsetY`), the previous pinch
flag, the hand-feedback fields, and the score with its set of credited
rectangles. It proves what each handler does to that state.

Files:

- `shapes.dfy` (module `Shapes`) holds the rectangle value and the
  inclusive point-in-rectangle test. It has a reference definition of the
  top-down hit test (`TopmostHit`) and the loop that computes it
  (`FindTopmost`). It also has the scoring test (`CentreInRightHalf`).
- `draggable.dfy` (module `Draggable`) holds the `DraggableRectangle`
  class. Its fields are the source's fields. Every handler is a method
  that changes only the fields its `modifies` clause names; its `ensures`
  say how. The object invariant `Valid()` is kept by every method. It
  says three things. The drag session names an existing rectangle. The
  grab offset lies on that rectangle. And `score == 25 * |scoredRects|`,
  where every credited index exists.
- `scenarios.dfy` (module `Scenarios`) holds whole sessions on an
  800-pixel canvas, proved from the method contracts alone.

Modelling choices:

- Coordinates are `real`. The source's numbers are IEEE doubles, and their
  rounding is not modelled. `width / 2` and `canvas.width / 2` are exact
  real halves.
- Object identity becomes index identity. `draggedRect` is an
  `Option<nat>` and `scoredRects` is a `set<nat>` of indices. Rectangles
  are only appended, and each `addRectangle` call creates a new object, so
  an index names one rectangle for the whole session.
- The canvas is a separate `Canvas` object with a mutable `width`. The
  manager holds it by reference and reads its width when it scores. The
  page resizes the canvas to the camera frame after the manager is built
  (`src/handTracking.ts:33`), so the width is not a constant.
- The mouse handlers take canvas-relative coordinates directly.
- The reverse `for` loop with `break` appears twice in the source, at
  lines 50-57 and 82-89. It is written once, as `FindTopmost`, and both
  handlers call it.
- `updateHandPosition`'s `isClosed` defaults to `false` in the source. Here
  the argument is always passed explicitly.
- The closed-hand flag only affects drawing. In the contract of
  `UpdateHandPosition`, the `closed` argument appears in one clause only,
  `isClosed == closed`. So drag and score state do not depend on it.
- The mouse and gesture paths share one drag session. Each handler is a
  separate sequential call, so any interleaving of the two is a sequence
  of calls.

## Model

| member | source | states |
|---|---|---|
| `Shapes.InclusiveEdges` | src/draggable.ts:40-43 | all four corners of a rectangle with non-negative size are on it; every point strictly left of, above, right of or below it is off it |
| `Shapes.IsPointInRect` | src/draggable.ts:40-43 | true iff the point's offset from the origin lies within the size on both axes, i.e. x <= px <= x + width and y <= py <= y + height, all four bounds inclusive; only a rectangle of non-negative size can hold a point |
| `Shapes.CentreInRightHalf` | src/draggable.ts:106-110 | true iff the centre x (x + width/2) is strictly greater than half the canvas width, both halves exact; a rectangle wholly right of the midline passes and one wholly left of it fails |
| `Shapes.TopmostHit` | src/draggable.ts:82-89 | the reference hit test returns the highest index whose rectangle holds the point, or None when none does, and it is the only answer with that property |
| `Shapes.FindTopmost` | src/draggable.ts:50-57 | the reverse scan with early exit returns exactly the reference hit test's answer |
| `Draggable.IndicesBelowBound` | src/draggable.ts:105-114 | a set of rectangle indices holds at most as many members as there are rectangles, so the score is at most 25 per rectangle |
| `Draggable.DraggableRectangle.constructor` | src/draggable.ts:10-28 | a new manager holds exactly the four starting rectangles (positions, sizes, colours), with no drag, no pinch, hand at (0, 0), score 0 and nothing credited; the invariant holds |
| `Draggable.DraggableRectangle.AddRectangle` | src/draggable.ts:36-38 | exactly one rectangle with the given fields is appended at the end; no other field changes |
| `Draggable.DraggableRectangle.OnMouseDown` | src/draggable.ts:45-58 | if a rectangle holds the point, the drag names the topmost one and the offset is the point minus its origin; otherwise the drag session is unchanged; rectangles and score do not change |
| `Draggable.DraggableRectangle.OnMouseMove` | src/draggable.ts:60-69 | with a drag, only the dragged rectangle moves: its origin becomes the point minus the offset, the point stays on it, and every size and colour is unchanged; without a drag nothing changes |
| `Draggable.DraggableRectangle.OnMouseUp` | src/draggable.ts:71-73 | the drag session ends; score, credited set and rectangles are unchanged |
| `Draggable.DraggableRectangle.CheckScore` | src/draggable.ts:105-114 | the score rises by exactly 25 and the index is credited iff the centre is right of the canvas midline and the index was not credited before; otherwise both are unchanged; score and credited set never shrink; `score == 25 * |scoredRects|` is kept |
| `Draggable.DraggableRectangle.UpdateHandPosition` | src/draggable.ts:75-103 | the hand fields and pinch flag equal the arguments. Pinch start: grab as in a mouse press. Pinch held: move as in a mouse move. Pinch end: the drag ends and only the dragged rectangle is scored, with no score change when nothing was dragged. No pinch: no change. The closed flag affects nothing else, and the score never falls |
| `Draggable.DraggableRectangle.GetScore` | src/draggable.ts:116-118 | reads state only and returns 25 times the number of credited rectangles, which lies between 0 and 25 times the number of rectangles |
| `Scenarios.PinchDrag` | src/draggable.ts:75-103 | starting with no pinch and no drag in progress (its precondition), a whole pinch-move-release gesture translates the topmost grabbed rectangle by the hand's displacement, then credits it once if it ends right of the midline; with nothing under the pinch, rectangles and score do not change |
| `Scenarios.DragAcrossAndBack` | src/draggable.ts:105-114 | dragging the first rectangle from (110, 110) to (500, 110) on an 800-wide canvas scores 25; dragging it back and then across again leaves the score at 25 |
| `Scenarios.OverlapPicksLatest` | src/draggable.ts:82-89 | on overlapping rectangles a pinch grabs the one added last; a press on a point covered by one rectangle grabs that one |
| `Scenarios.MouseDragDoesNotScore` | src/draggable.ts:71-73 | a mouse drag moves the rectangle into the right half but the mouse release awards nothing |
| `Scenarios.MouseGrabThenPinch` | src/draggable.ts:80-99 | mouse and hand share one drag session: after a mouse press on the first rectangle, a pinch starting on empty canvas keeps that grab, the held pinch moves the rectangle to x = 440 and the release scores 25 |
| `Scenarios.PinchOnEmptyCanvas` | src/draggable.ts:80-89 | a pinch that starts on empty canvas grabs nothing, so the following moves and release leave all four starting rectangles where they were and the score at 0 |

## Left out

- `draw` (src/draggable.ts:120-154) renders the state on a 2D canvas. It only reads the fields modelled here.
- `setupEventListeners` (src/draggable.ts:30-34) registers DOM callbacks. Here the handlers are called directly.
- The client-to-canvas conversion through `getBoundingClientRect` in the mouse handlers is a browser call. The handlers take canvas coordinates.
- All of `src/handTracking.ts` is left out: model loading, camera start-up, the per-frame loop and landmark drawing. That also covers the pinch (under 40 px) and closed-hand (mean under 150 px) thresholds, which are floating-point `Math.sqrt` distances over normalised landmarks. Only its resize of the canvas width is reflected, through the mutable `Canvas.width`.
- IEEE double rounding, NaN and infinities are not modelled: all coordinate arithmetic is exact over `real`. The source's inputs are finite canvas coordinates.
