# Paint program core, modelled in Dafny

This project models the event-driven core of a small browser paint program (`script.js`).
It covers the stroke session, the tool configuration and the Shift modifier. The pointer handlers keep a
session: an active flag, an anchor, a last point and a snapshot of the canvas taken
at pointer-down. In the freehand modes (draw, erase) each move strokes one more segment.
In the shape modes (rectangle, ellipse) each move restores the snapshot and strokes one
preview shape. The toolbar selects a mode. Each mode fixes the composite rule, line width,
cursor and highlighted button. The colour picker samples a colour and then returns
to the previous mode.

The canvas is a sequence of drawing commands: `Segment`, `Rect` and `Ellipse`. Each command
records the pen (colour, composite rule, width) it was stroked with. Taking the snapshot
(`getImageData`) copies the sequence. Restoring it (`putImageData`) replaces the canvas
with the copy. Clearing (`clearRect` over the whole canvas) empties it.

Files and modules:

- `geometry.dfy`, module `Geometry`: the Shift square constraint and the ellipse radii.
- `toolbar.dfy`, module `Toolbar`: modes, the mode table, `setMode` and the picker.
- `engine.dfy`, module `Engine`: the session as a value. Each handler is a function on it. The file also holds the lemmas about strokes and key sequences.
- `script.dfy`, module `Script`: class `Painter`. Its fields are the script's module-level variables and the drawing context's fields. Each handler is a method that updates them in place. Each method's postcondition says its new state is the matching `Engine`/`Toolbar` function of the old state. So every lemma proved about those functions holds of the handlers.

The colour sampler is asynchronous. It is modelled by its outcomes: `setMode` receives the
sequence of outcomes of the samplers it opens, in order. An empty sequence means the
sampler has not answered. When the mode before picking was the picker itself, a
successful sample calls `setMode(prevMode)` again. That opens another sampler, so the
model consumes the next outcome (`Toolbar.PickWhilePicking`).

Points where the code's behaviour is easy to misread:

- The second ellipse radius is `|width - height + 24|`: the 24 is added before the magnitude is taken.
- With Shift held, the ellipse does not change. The constraint is applied to width and height only after the radii have been computed from them, and nothing reads them afterwards.
- When the pointer is straight above or below the anchor (`width == 0`), no ellipse is drawn. The rotation `Math.PI / width - height` is then infinite. The canvas ignores an `ellipse()` call with a non-finite argument, and the stroke of the empty path draws nothing. The canvas is then exactly the snapshot.
- With Shift held, a rectangle's width is positive only when the horizontal delta is positive *and* the smaller magnitude is non-zero. When that magnitude is zero, both sides are zero whatever the signs.

## Model

| member | source | states |
|---|---|---|
| `Geometry.SquareClamp` | script.js:122-130 | Both sides of the result have magnitude min(\|dx\|, \|dy\|). Each side is non-negative when its delta is positive and non-positive otherwise. |
| `Geometry.SquareClampFixesSquares` | script.js:122-130 | The Shift constraint leaves a size unchanged exactly when its two magnitudes are already equal. |
| `Geometry.SquareClampIdempotent` | script.js:122-130 | Applying the Shift constraint twice gives the same size as applying it once. |
| `Geometry.EllipseRadii` | script.js:146-155 | The radii are \|dx - dy\| and \|dx - dy + 24\|. Both are non-negative and their sum is at least 24. |
| `Toolbar.SettingsOf` | script.js:194-224 | Mode table. Erase is the only destination-out mode and the only one 20 wide; the other modes are 2 wide. The rectangle and ellipse modes, and only they, use the resize cursor. Draw alone uses the brush cursor, and Erase alone the eraser cursor. |
| `Toolbar.Select` | script.js:188-224 | Selecting a drawing mode sets that mode and highlights only its button. It installs the mode's table row, keeps the stroke colour and satisfies the tool invariant. |
| `Toolbar.SetMode` | script.js:188-239 | For a drawing mode: that mode, its button and its table row, with the colour unchanged. For the picker: the result is picker mode or the previous mode. It preserves the tool invariant (button = mode; context holds a drawing mode's row). |
| `Toolbar.PickCancelled` | script.js:226-239 | If the sample is cancelled or still open, the mode and button become the picker's. Colour, width, composite rule and cursor are unchanged. |
| `Toolbar.PickSucceeded` | script.js:226-239 | From a drawing mode, a successful sample leaves the previous configuration (mode, button, cursor, rule, width) with only the colour replaced by the sampled one. |
| `Toolbar.PickWhilePicking` | script.js:226-239 | Picking while already in picker mode stays in picker mode. The colour ends as the last one sampled before the first cancellation, and nothing else changes. |
| `Toolbar.InitialToolConsistent` | script.js:250-251 | After the start-up `setMode(DRAW)`: draw mode, colour #000000, source-over, width 2, brush cursor. The tool invariant holds. |
| `Engine.StartDrawing` | script.js:80-91 | Pointer down sets the active flag. Anchor and last point both become the pointer position, and the snapshot becomes the current canvas. The canvas, flags and tool are untouched. |
| `Engine.Preview` | script.js:114-171 | At most one shape, stroked with the current pen. Rectangle: always exactly one, cornered at the anchor, sized by the deltas (Shift: the square constraint of the deltas). Ellipse: one exactly when dx ≠ 0, centred at the anchor, with the radii of `EllipseRadii`. |
| `Engine.Draw` | script.js:93-172 | Without an active stroke, and in picker mode, nothing changes. Draw/erase: the canvas gains exactly one segment from the last point to the pointer with the current pen, and the last point moves. Shapes: canvas = snapshot + the preview, last point kept. Anchor, snapshot, flags and tool never change. |
| `Engine.StopDrawing` | script.js:174-176 | Only the active flag changes, and it becomes false. |
| `Engine.ClearCanvas` | script.js:184-186 | The canvas becomes empty, whatever the mode or stroke. Nothing else, not even the snapshot, changes. |
| `Engine.HandlePickerColor` | script.js:178-182 | The stroke colour becomes the chosen value, and nothing else changes. |
| `Engine.HandleKeyDown` | script.js:242-244 | The Shift flag becomes true exactly when the pressed key is Shift, so any other key clears it. Nothing else changes. |
| `Engine.HandleKeyUp` | script.js:246-248 | Releasing Shift clears the flag. Releasing any other key changes nothing. |
| `Engine.FreehandStroke` | script.js:98-112 | Over any sequence of moves in draw/erase mode, the canvas gains exactly the segments joining the last point and the successive positions, in order, with the pen. The last point ends at the final position. |
| `Engine.PreviewsDoNotAccumulate` | script.js:114-171 | In a shape stroke, two moves leave the state that the second move alone would leave. The first preview is discarded. |
| `Engine.ShapeStroke` | script.js:114-171 | After any non-empty sequence of moves in a shape stroke, the canvas is the snapshot plus the preview for the latest position only. |
| `Engine.MovesIgnored` | script.js:93-94 | Without an active stroke, or in picker mode, any sequence of moves leaves the state unchanged. |
| `Engine.NothingAfterStop` | script.js:174-176 | After pointer up or leave, any later moves change nothing. |
| `Engine.StrokeFromStart` | script.js:80-171 | For a whole stroke from pointer-down: the snapshot is the pre-stroke canvas and the anchor is the down position. Freehand: pre-stroke canvas + the segments through the moves. Shapes: pre-stroke canvas + one preview for the latest move. Picker: canvas untouched. |
| `Engine.ClearUndoneByShapeMove` | script.js:184-186 | A clear during a shape stroke is undone by the next move, which restores the stroke-start snapshot. |
| `Engine.EllipseIgnoresShift` | script.js:140-171 | In ellipse mode the Shift flag does not change what a move draws. |
| `Engine.ShiftRectangleExample` | script.js:114-137 | Down at (10,10), then a move to (50,30) with Shift held in rectangle mode, shows a 20×20 square at (10,10) over the earlier canvas. |
| `Engine.ShiftTracking` | script.js:242-248 | After any sequence of key events the flag is true exactly when one of two things holds: Shift was pressed and since then only other keys were released, or the flag was already set and only other keys were released. Nothing else changes. |
| `Script.Painter.constructor` | script.js:36-43 | The initial values of the state variables (no stroke, no Shift, last point (0,0), blank canvas), followed by the start-up selection of draw mode. The tool invariant holds. |
| `Script.Painter.StartDrawing` | script.js:80-91 | The fields are updated in place to `Engine.StartDrawing` of the old state. |
| `Script.Painter.Draw` | script.js:93-172 | The fields are updated in place to `Engine.Draw` of the old state. This covers the freehand segment, snapshot restore, Shift clamp, radius negation and the skipped non-finite ellipse. |
| `Script.Painter.StopDrawing` | script.js:174-176 | The new state is `Engine.StopDrawing` of the old one. |
| `Script.Painter.HandlePickerColor` | script.js:178-182 | The new state is `Engine.HandlePickerColor` of the old one. |
| `Script.Painter.ClearCanvas` | script.js:184-186 | The new state is `Engine.ClearCanvas` of the old one. |
| `Script.Painter.SetMode` | script.js:188-240 | The tool fields become `Toolbar.SetMode` of the old ones, including the recursive re-selection after a sample. Stroke state and canvas are unchanged. |
| `Script.Painter.HandleKeyDown` | script.js:242-244 | The new state is `Engine.HandleKeyDown` of the old one. |
| `Script.Painter.HandleKeyUp` | script.js:246-248 | The new state is `Engine.HandleKeyUp` of the old one. |

## Left out

- DOM element lookup, event-listener wiring, and moving the `active` class between button elements are not modelled. The highlighted button is the `active` mode field.
- Cursor values are not modelled as strings. The cursor is one of four symbols; the default stands for the page's cursor before the first `setMode`.
- Pixel rasterisation, blending under the composite rule, and the pixel contents of `getImageData`/`putImageData` are not modelled. The canvas is the sequence of stroked commands, so two sequences that paint the same pixels count as different here.
- The ellipse rotation `Math.PI / width - height` and the arc extent `2 * Math.PI` are floating point, so neither is recorded in the `Ellipse` command. Only the rotation's one discrete effect is kept: when it is not finite (width 0), nothing is drawn.
- Pointer coordinates are integers here. Browsers may report fractional `offsetX`/`offsetY`.
- The `EyeDropper` API and its `await` are foreign and asynchronous. A sampler's answer is applied at once, inside `setMode`, so events arriving while a sampler is open are not interleaved with it.
- Feature detection of the sampler (lines 253-255) is not modelled. Neither is the update of the colour input's displayed value after a successful sample (line 234): the input's value is only read by `handlePickerColor`, which receives it as a parameter.
- The canvas ignores colour strings it cannot parse. This is not modelled: every colour string is taken as the stroke colour.
- `SECONDMODE`, `secondMode` and the normal/border/fill buttons are declared but never used.
- `startX`/`startY` and `imageData` start undefined in the source; here they start as 0 and the empty canvas. No handler reads them before `startDrawing` sets them.
