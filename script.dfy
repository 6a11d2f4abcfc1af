/** The paint program's event handlers as they run: the module-level variables and
    the drawing context's fields are the fields of one object, and every handler
    updates them in place. Each handler's new state is the engine's function of the
    old one, so the properties proved in Engine and Toolbar hold of the handlers. */
module Script {
  import opened Toolbar
  import opened Engine
  import Geometry

  class Painter {
    var isDrawing: bool
    var isShiftPress: bool
    var startX: int
    var startY: int
    var lastX: int
    var lastY: int
    var mode: Mode
    var activeButton: Mode
    var cursor: Cursor
    var strokeStyle: Colour
    var globalCompositeOperation: Composite
    var lineWidth: nat
    var canvas: Canvas
    var imageData: Canvas

    function ToolState(): Tool
      reads this
    {
      Tool(mode, activeButton, cursor, Pen(strokeStyle, globalCompositeOperation, lineWidth))
    }

    /** The whole state as an engine session. */
    function View(): Session
      reads this
    {
      Session(isDrawing, isShiftPress, Point(startX, startY), Point(lastX, lastY),
              canvas, imageData, ToolState())
    }

    /** Program start: the declared initial values, then the drawing mode selected. */
    constructor ()
      ensures View() == Initial
      ensures Consistent(ToolState())
    {
      isDrawing, isShiftPress := false, false;
      startX, startY := 0, 0;
      lastX, lastY := 0, 0;
      mode, activeButton, cursor := Mode.Draw, Mode.Draw, Default;
      strokeStyle, globalCompositeOperation, lineWidth := "#000000", SourceOver, 1;
      canvas, imageData := [], [];
      new;
      SetMode(Mode.Draw, []);
      InitialToolConsistent();
    }

    method StartDrawing(offsetX: int, offsetY: int)
      modifies this
      ensures View() == Engine.StartDrawing(old(View()), Point(offsetX, offsetY))
    {
      isDrawing := true;
      startX, startY := offsetX, offsetY;
      lastX, lastY := offsetX, offsetY;
      imageData := canvas;
    }

    method Draw(offsetX: int, offsetY: int)
      modifies this
      ensures View() == Engine.Draw(old(View()), Point(offsetX, offsetY))
    {
      ghost var before := View();
      ghost var p := Point(offsetX, offsetY);
      if !isDrawing {
        return;
      }
      if mode == Mode.Draw || mode == Mode.Erase {
        var pen := Pen(strokeStyle, globalCompositeOperation, lineWidth);
        canvas := canvas + [Segment(Point(lastX, lastY), Point(offsetX, offsetY), pen)];
        lastX, lastY := offsetX, offsetY;
      }
      if mode == Mode.Rectangle {
        canvas := imageData;
        var width := offsetX - startX;
        var height := offsetY - startY;
        if isShiftPress {
          var sideLength: int := Geometry.Min(Geometry.Abs(width), Geometry.Abs(height));
          width := if width > 0 then sideLength else -sideLength;
          height := if height > 0 then sideLength else -sideLength;
        }
        var pen := Pen(strokeStyle, globalCompositeOperation, lineWidth);
        canvas := canvas + [Rect(Point(startX, startY), width, height, pen)];
        assert canvas == before.snapshot + Preview(before.tool, before.start, p, before.shift);
        return;
      }
      if mode == Mode.Ellipse {
        canvas := imageData;
        var width := offsetX - startX;
        var height := offsetY - startY;
        var radiusX := width - height;
        var radiusY := width - height + 24;
        // the rotation pi / width - height is finite exactly when width is not 0
        var rotationFinite := width != 0;
        if radiusX < 0 || radiusX == 0 {
          radiusX := radiusX * -1;
        }
        if radiusY < 0 || radiusY == 0 {
          radiusY := radiusY * -1;
        }
        if isShiftPress {
          var sideLength: int := Geometry.Min(Geometry.Abs(width), Geometry.Abs(height));
          width := if width > 0 then sideLength else -sideLength;
          height := if height > 0 then sideLength else -sideLength;
        }
        if rotationFinite {
          var pen := Pen(strokeStyle, globalCompositeOperation, lineWidth);
          canvas := canvas + [Command.Ellipse(Point(startX, startY), radiusX, radiusY, pen)];
        }
        assert canvas == before.snapshot + Preview(before.tool, before.start, p, before.shift);
        return;
      }
    }

    method StopDrawing()
      modifies this
      ensures View() == Engine.StopDrawing(old(View()))
    {
      isDrawing := false;
    }

    method HandlePickerColor(value: Colour)
      modifies this
      ensures View() == Engine.HandlePickerColor(old(View()), value)
    {
      strokeStyle := value;
    }

    method ClearCanvas()
      modifies this
      ensures View() == Engine.ClearCanvas(old(View()))
    {
      canvas := [];
    }

    /** setMode; `picks` are the outcomes of the colour samplers it opens, in order. */
    method SetMode(newMode: Mode, picks: seq<PickOutcome>)
      modifies this
      decreases |picks|
      ensures ToolState() == Toolbar.SetMode(old(ToolState()), newMode, picks)
      ensures View() == old(View()).(tool := ToolState())
    {
      var prevMode := mode;
      mode := newMode;
      if mode == Mode.Draw {
        activeButton, cursor := Mode.Draw, Brush;
        globalCompositeOperation, lineWidth := SourceOver, 2;
        return;
      }
      if mode == Mode.Rectangle {
        activeButton, cursor := Mode.Rectangle, Resize;
        globalCompositeOperation, lineWidth := SourceOver, 2;
        return;
      }
      if mode == Mode.Ellipse {
        activeButton, cursor := Mode.Ellipse, Resize;
        globalCompositeOperation, lineWidth := SourceOver, 2;
        return;
      }
      if mode == Mode.Erase {
        activeButton, cursor := Mode.Erase, Eraser;
        globalCompositeOperation, lineWidth := DestinationOut, 20;
        return;
      }
      if mode == Picker {
        activeButton := Picker;
        if picks != [] && picks[0].Picked? {
          strokeStyle := picks[0].colour;
          SetMode(prevMode, picks[1..]);
        }
        return;
      }
    }

    method HandleKeyDown(key: string)
      modifies this
      ensures View() == Engine.HandleKeyDown(old(View()), key)
    {
      isShiftPress := key == "Shift";
    }

    method HandleKeyUp(key: string)
      modifies this
      ensures View() == Engine.HandleKeyUp(old(View()), key)
    {
      if key == "Shift" {
        isShiftPress := false;
      }
    }
  }
}
