/** The raster drawing engine as a value: the canvas (abstracted as the sequence of
    drawing commands stroked onto it), the stroke-start snapshot, the stroke session
    (active flag, anchor, last point), the Shift flag and the tool configuration; and
    each event handler as a function from session to session. Taking a snapshot copies
    the sequence, restoring it replaces the canvas by the copy, clearing empties it. */
module Engine {
  import opened Geometry
  import opened Toolbar

  datatype Point = Point(x: int, y: int)

  /** One stroked path, with the pen the context held when it was stroked. */
  datatype Command =
    | Segment(from: Point, to: Point, pen: Pen)
    | Rect(corner: Point, width: int, height: int, pen: Pen)
    | Ellipse(centre: Point, radiusX: nat, radiusY: nat, pen: Pen)

  type Canvas = seq<Command>

  datatype Session = Session(
    drawing: bool,     // isDrawing
    shift: bool,       // isShiftPress
    start: Point,      // (startX, startY), the anchor of the stroke
    last: Point,       // (lastX, lastY)
    canvas: Canvas,
    snapshot: Canvas,  // imageData
    tool: Tool)

  /** The state once the program has started: no stroke, no key, a blank canvas, the
      drawing mode selected. */
  const Initial := Session(false, false, Point(0, 0), Point(0, 0), [], [], SetMode(Defaults, Mode.Draw, []))

  predicate Freehand(m: Mode) { m == Mode.Draw || m == Mode.Erase }

  predicate Shape(m: Mode) { m == Mode.Rectangle || m == Mode.Ellipse }

  /** Pointer down: the stroke becomes active, anchored at p with p as last point, and
      the snapshot becomes a copy of the canvas, which is itself left as it was. */
  function StartDrawing(s: Session, p: Point): (r: Session)
    ensures r.drawing && r.start == p && r.last == p
    ensures r.snapshot == s.canvas && r.canvas == s.canvas
    ensures r.shift == s.shift && r.tool == s.tool
  {
    s.(drawing := true, start := p, last := p, snapshot := s.canvas)
  }

  /** The one shape drawn for pointer position p in a shape stroke anchored at start.
      A rectangle always has its corner at the anchor, with the Shift constraint on
      its size when Shift is held. An ellipse is centred at the anchor; Shift does not
      change it, and none is drawn when p is straight above or below the anchor, since
      its rotation pi / width - height is then not finite, and the canvas ignores an
      ellipse with a non-finite argument. */
  function Preview(t: Tool, start: Point, p: Point, shift: bool): (r: seq<Command>)
    requires Shape(t.mode)
    ensures |r| <= 1
    ensures forall c | c in r :: c.pen == t.pen
    ensures t.mode == Mode.Rectangle ==> |r| == 1 && r[0].Rect? && r[0].corner == start
    ensures t.mode == Mode.Rectangle && !shift ==> r[0].width == p.x - start.x && r[0].height == p.y - start.y
    ensures t.mode == Mode.Rectangle && shift ==> r[0].Rect? && (r[0].width, r[0].height) == SquareClamp(p.x - start.x, p.y - start.y)
    ensures t.mode == Mode.Ellipse ==> (|r| == 1 <==> p.x != start.x)
    ensures t.mode == Mode.Ellipse && |r| == 1 ==>
      r[0].Ellipse? && r[0].centre == start &&
      (r[0].radiusX, r[0].radiusY) == EllipseRadii(p.x - start.x, p.y - start.y)
  {
    var width, height := p.x - start.x, p.y - start.y;
    if t.mode == Mode.Rectangle then
      var size := if shift then SquareClamp(width, height) else (width, height);
      [Rect(start, size.0, size.1, t.pen)]
    else
      var radii := EllipseRadii(width, height);
      if width == 0 then [] else [Command.Ellipse(start, radii.0, radii.1, t.pen)]
  }

  /** Pointer move to p. Nothing happens unless a stroke is active. In the freehand
      modes one segment from the last point to p is stroked with the current pen and p
      becomes the last point. In the shape modes the canvas is restored to the snapshot
      and one preview shape is stroked on it. In picker mode nothing happens. The
      anchor, the snapshot, the flags and the tool never change. */
  function Draw(s: Session, p: Point): (r: Session)
    ensures !s.drawing || s.tool.mode == Picker ==> r == s
    ensures r.drawing == s.drawing && r.shift == s.shift && r.tool == s.tool
    ensures r.start == s.start && r.snapshot == s.snapshot
    ensures s.drawing && Freehand(s.tool.mode) ==>
      r.canvas == s.canvas + [Segment(s.last, p, s.tool.pen)] && r.last == p
    ensures s.drawing && Shape(s.tool.mode) ==>
      r.canvas == s.snapshot + Preview(s.tool, s.start, p, s.shift) && r.last == s.last
  {
    if !s.drawing then s
    else if Freehand(s.tool.mode) then
      s.(canvas := s.canvas + [Segment(s.last, p, s.tool.pen)], last := p)
    else if Shape(s.tool.mode) then
      s.(canvas := s.snapshot + Preview(s.tool, s.start, p, s.shift))
    else s
  }

  /** Pointer up or leaving the canvas: only the active flag is cleared. */
  function StopDrawing(s: Session): (r: Session)
    ensures !r.drawing && r.(drawing := s.drawing) == s
  {
    s.(drawing := false)
  }

  /** The clear button: the canvas becomes blank whatever the mode or stroke; the
      snapshot is not touched. */
  function ClearCanvas(s: Session): (r: Session)
    ensures r.canvas == [] && r.(canvas := s.canvas) == s
  {
    s.(canvas := [])
  }

  /** A colour chosen in the colour input becomes the stroke colour. */
  function HandlePickerColor(s: Session, value: Colour): (r: Session)
    ensures r.tool.pen.colour == value
    ensures r.(tool := r.tool.(pen := r.tool.pen.(colour := s.tool.pen.colour))) == s
  {
    s.(tool := s.tool.(pen := s.tool.pen.(colour := value)))
  }

  /** Any key press sets the Shift flag to whether that key is Shift. */
  function HandleKeyDown(s: Session, key: string): (r: Session)
    ensures r.shift <==> key == "Shift"
    ensures r.(shift := s.shift) == s
  {
    s.(shift := key == "Shift")
  }

  /** Releasing Shift clears the flag; releasing any other key changes nothing. */
  function HandleKeyUp(s: Session, key: string): (r: Session)
    ensures key == "Shift" ==> !r.shift
    ensures key != "Shift" ==> r == s
    ensures r.(shift := s.shift) == s
  {
    if key == "Shift" then s.(shift := false) else s
  }

  // ---------------------------------------------------------------------------
  // Strokes: sequences of pointer moves

  /** The session after the pointer moves through pts in order. */
  function Moves(s: Session, pts: seq<Point>): Session
    decreases |pts|
  {
    if pts == [] then s else Moves(Draw(s, pts[0]), pts[1..])
  }

  /** The segments joining from, pts[0], pts[1], ... in turn. */
  function Segments(from: Point, pts: seq<Point>, pen: Pen): (r: Canvas)
    ensures |r| == |pts|
  {
    seq(|pts|, i requires 0 <= i < |pts| => Segment(if i == 0 then from else pts[i - 1], pts[i], pen))
  }

  lemma SegmentsCons(from: Point, pts: seq<Point>, pen: Pen)
    requires pts != []
    ensures Segments(from, pts, pen) == [Segment(from, pts[0], pen)] + Segments(pts[0], pts[1..], pen)
  {
  }

  /** A freehand stroke is cumulative: the canvas gains exactly the segments between
      consecutive pointer positions, starting from the last point, with the stroke's
      pen, and the last point ends at the final position. */
  lemma {:induction false} FreehandStroke(s: Session, pts: seq<Point>)
    requires s.drawing && Freehand(s.tool.mode)
    ensures Moves(s, pts)
         == s.(canvas := s.canvas + Segments(s.last, pts, s.tool.pen),
               last := if pts == [] then s.last else pts[|pts| - 1])
    decreases |pts|
  {
    if pts == [] {
      assert s.canvas + Segments(s.last, pts, s.tool.pen) == s.canvas;
    } else {
      var pen := s.tool.pen;
      var s1 := Draw(s, pts[0]);
      FreehandStroke(s1, pts[1..]);
      SegmentsCons(s.last, pts, pen);
      assert s1.canvas + Segments(pts[0], pts[1..], pen)
          == s.canvas + ([Segment(s.last, pts[0], pen)] + Segments(pts[0], pts[1..], pen));
      if |pts| > 1 {
        assert pts[1..][|pts[1..]| - 1] == pts[|pts| - 1];
      }
    }
  }

  /** Previews never accumulate: in a shape stroke, a move followed by another leaves
      the session the second move alone would have left. */
  lemma PreviewsDoNotAccumulate(s: Session, p: Point, q: Point)
    requires s.drawing && Shape(s.tool.mode)
    ensures Draw(Draw(s, p), q) == Draw(s, q)
  {
  }

  /** At any point of a shape stroke the canvas is the snapshot plus the one shape for
      the latest pointer position. */
  lemma {:induction false} ShapeStroke(s: Session, pts: seq<Point>)
    requires s.drawing && Shape(s.tool.mode) && pts != []
    ensures Moves(s, pts) == Draw(s, pts[|pts| - 1])
    ensures Moves(s, pts).canvas == s.snapshot + Preview(s.tool, s.start, pts[|pts| - 1], s.shift)
    decreases |pts|
  {
    if |pts| > 1 {
      ShapeStroke(Draw(s, pts[0]), pts[1..]);
      assert pts[1..][|pts[1..]| - 1] == pts[|pts| - 1];
      PreviewsDoNotAccumulate(s, pts[0], pts[|pts| - 1]);
    }
  }

  /** Without an active stroke, or in picker mode, pointer moves change nothing. */
  lemma {:induction false} MovesIgnored(s: Session, pts: seq<Point>)
    requires !s.drawing || s.tool.mode == Picker
    ensures Moves(s, pts) == s
    decreases |pts|
  {
    if pts != [] {
      MovesIgnored(Draw(s, pts[0]), pts[1..]);
    }
  }

  /** After the pointer is released or leaves the canvas, later moves draw nothing. */
  lemma NothingAfterStop(s: Session, pts: seq<Point>)
    ensures Moves(StopDrawing(s), pts) == StopDrawing(s)
  {
  }

  /** A whole stroke from pointer-down at p through the moves pts: the snapshot is the
      canvas from before the stroke; a freehand stroke adds the segments joining p and
      the moves; a shape stroke shows that canvas plus at most one shape, the one for
      the latest position; in picker mode the canvas is untouched. */
  lemma StrokeFromStart(s: Session, p: Point, pts: seq<Point>)
    ensures var r := Moves(StartDrawing(s, p), pts);
      r.drawing && r.start == p && r.snapshot == s.canvas && r.tool == s.tool &&
      (Freehand(s.tool.mode) ==> r.canvas == s.canvas + Segments(p, pts, s.tool.pen)) &&
      (Shape(s.tool.mode) && pts != [] ==> r.canvas == s.canvas + Preview(s.tool, p, pts[|pts| - 1], s.shift)) &&
      (s.tool.mode == Picker ==> r.canvas == s.canvas)
  {
    var s0 := StartDrawing(s, p);
    if Freehand(s.tool.mode) {
      FreehandStroke(s0, pts);
    } else if Shape(s.tool.mode) {
      if pts != [] {
        ShapeStroke(s0, pts);
      }
    } else {
      MovesIgnored(s0, pts);
    }
  }

  /** Clearing in the middle of a shape stroke is undone by the next move, which
      restores the snapshot taken when the stroke started. */
  lemma ClearUndoneByShapeMove(s: Session, p: Point)
    requires s.drawing && Shape(s.tool.mode)
    ensures Draw(ClearCanvas(s), p) == Draw(s, p)
  {
  }

  /** Shift does not change an ellipse preview: the constraint is applied to the size
      after the radii have been computed from it. */
  lemma EllipseIgnoresShift(s: Session, p: Point, held: bool)
    requires s.drawing && s.tool.mode == Mode.Ellipse
    ensures Draw(s.(shift := held), p).canvas == Draw(s, p).canvas
  {
  }

  /** Pointer down at (10,10) and a move to (50,30) with Shift held in rectangle mode
      shows a 20 by 20 square anchored at (10,10) over the earlier canvas. */
  lemma ShiftRectangleExample(s: Session)
    requires s.tool.mode == Mode.Rectangle && s.shift
    ensures Draw(StartDrawing(s, Point(10, 10)), Point(50, 30)).canvas
         == s.canvas + [Rect(Point(10, 10), 20, 20, s.tool.pen)]
  {
  }

  // ---------------------------------------------------------------------------
  // The Shift flag over a sequence of key events

  datatype KeyEvent = Pressed(key: string) | Released(key: string)

  /** The Shift flag after one key event, given the flag before it. */
  function ShiftAfter(held: bool, e: KeyEvent): bool {
    match e
    case Pressed(k) => k == "Shift"
    case Released(k) => if k == "Shift" then false else held
  }

  /** One key event, handled by the key-down or key-up handler. */
  function HandleKey(s: Session, e: KeyEvent): (r: Session)
    ensures r == s.(shift := ShiftAfter(s.shift, e))
  {
    match e
    case Pressed(k) => HandleKeyDown(s, k)
    case Released(k) => HandleKeyUp(s, k)
  }

  /** The session after the key events evs, in order. */
  function Keys(s: Session, evs: seq<KeyEvent>): Session
    decreases |evs|
  {
    if evs == [] then s else Keys(HandleKey(s, evs[0]), evs[1..])
  }

  /** An event that leaves the Shift flag as it is: releasing a key other than Shift. */
  predicate Neutral(e: KeyEvent) {
    e.Released? && e.key != "Shift"
  }

  /** The flag after evs, stated directly: Shift was pressed and since then only other
      keys have been released, or the flag was already set and only other keys have
      been released. */
  ghost predicate ShiftHeld(initially: bool, evs: seq<KeyEvent>) {
    (exists i :: 0 <= i < |evs| && evs[i] == Pressed("Shift") &&
                 forall j :: i < j < |evs| ==> Neutral(evs[j])) ||
    (initially && forall j :: 0 <= j < |evs| ==> Neutral(evs[j]))
  }

  /** The direct description of the flag, one event at a time. */
  lemma ShiftHeldStep(initially: bool, evs: seq<KeyEvent>)
    requires evs != []
    ensures ShiftHeld(initially, evs) <==> ShiftHeld(ShiftAfter(initially, evs[0]), evs[1..])
  {
  }

  /** Key handling keeps the Shift flag equal to its direct description, and touches
      nothing else in the session. */
  lemma {:induction false} ShiftTracking(s: Session, evs: seq<KeyEvent>)
    ensures Keys(s, evs) == s.(shift := ShiftHeld(s.shift, evs))
    decreases |evs|
  {
    if evs != [] {
      var s1 := HandleKey(s, evs[0]);
      ShiftTracking(s1, evs[1..]);
      ShiftHeldStep(s.shift, evs);
    }
  }
}
