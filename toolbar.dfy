/** The tool state controller: the current mode, the highlighted toolbar button, the
    canvas cursor and the pen (stroke colour, composite rule, line width) that every
    later stroke uses, and the transitions made by selecting a mode. */
module Toolbar {

  /** The five values of MODES. */
  datatype Mode = Draw | Picker | Rectangle | Erase | Ellipse

  /** The canvas compositing rule: paint over ("source-over") or erase through
      ("destination-out"). */
  datatype Composite = SourceOver | DestinationOut

  /** The canvas cursor: the brush image, the eraser image, "nw-resize", or the
      page's own cursor before any mode has set one. */
  datatype Cursor = Brush | Eraser | Resize | Default

  type Colour = string

  /** The stroke parameters held by the drawing context. */
  datatype Pen = Pen(colour: Colour, op: Composite, width: nat)

  /** Tool configuration; `active` is the mode whose toolbar button carries the
      highlight (at most one button does). */
  datatype Tool = Tool(mode: Mode, active: Mode, cursor: Cursor, pen: Pen)

  /** What one opening of the platform colour sampler yields. */
  datatype PickOutcome = Picked(colour: Colour) | Cancelled

  /** One row of the mode table. */
  datatype Settings = Settings(cursor: Cursor, op: Composite, width: nat)

  /** The drawing context before the program selects its first mode. */
  const Defaults := Tool(Draw, Draw, Default, Pen("#000000", SourceOver, 1))

  /** The mode table: erasing is the only mode that composites destination-out and
      the only one 20 wide (the others are 2 wide); each of draw and erase has its own
      cursor, and the two shape modes share the resize cursor. */
  function SettingsOf(m: Mode): (s: Settings)
    requires m != Picker
    ensures s.op == DestinationOut <==> m == Erase
    ensures s.width == (if m == Erase then 20 else 2)
    ensures s.cursor == Resize <==> (m == Rectangle || m == Ellipse)
    ensures s.cursor == Brush <==> m == Draw
    ensures s.cursor == Eraser <==> m == Erase
  {
    match m
    case Draw => Settings(Brush, SourceOver, 2)
    case Rectangle => Settings(Resize, SourceOver, 2)
    case Ellipse => Settings(Resize, SourceOver, 2)
    case Erase => Settings(Eraser, DestinationOut, 20)
  }

  function SettingsIn(t: Tool): Settings {
    Settings(t.cursor, t.pen.op, t.pen.width)
  }

  /** The tool invariant: the highlighted button is the current mode's, and the
      context holds the table row of the current mode, or, in picker mode, the row of
      some drawing mode (the one active before picking). */
  predicate Consistent(t: Tool) {
    t.active == t.mode &&
    if t.mode == Picker then
      SettingsIn(t) in {SettingsOf(Draw), SettingsOf(Rectangle), SettingsOf(Erase)}
    else
      SettingsIn(t) == SettingsOf(t.mode)
  }

  /** Selecting a drawing mode: the mode, its button and its table row are installed;
      the stroke colour is kept. */
  function Select(t: Tool, m: Mode): (r: Tool)
    requires m != Picker
    ensures r.mode == m && r.active == m && SettingsIn(r) == SettingsOf(m)
    ensures r.pen.colour == t.pen.colour
    ensures Consistent(r)
  {
    var s := SettingsOf(m);
    Tool(m, m, s.cursor, Pen(t.pen.colour, s.op, s.width))
  }

  /** setMode. Selecting the picker highlights its button and opens the sampler, whose
      outcome is the head of `picks` (no outcome yet when `picks` is empty). A picked
      colour becomes the stroke colour and the previous mode is selected again, which
      opens another sampler, fed by the rest of `picks`, when that mode was the picker
      itself. A cancelled sample changes nothing more. */
  function SetMode(t: Tool, m: Mode, picks: seq<PickOutcome>): (r: Tool)
    decreases |picks|
    ensures m != Picker ==> r.mode == m && r.active == m && SettingsIn(r) == SettingsOf(m)
    ensures m != Picker ==> r.pen.colour == t.pen.colour
    ensures m == Picker ==> r.mode == Picker || r.mode == t.mode
    ensures Consistent(t) ==> Consistent(r)
  {
    if m != Picker then Select(t, m)
    else
      var picking := t.(mode := Picker, active := Picker);
      if picks == [] || picks[0].Cancelled? then picking
      else SetMode(picking.(pen := picking.pen.(colour := picks[0].colour)), t.mode, picks[1..])
  }

  /** A cancelled or still-open sample leaves the program in picker mode with the pen
      and the cursor of the previous mode: colour, width and composite rule unchanged. */
  lemma PickCancelled(t: Tool, picks: seq<PickOutcome>)
    requires picks == [] || picks[0] == Cancelled
    ensures var r := SetMode(t, Picker, picks);
      r.mode == Picker && r.active == Picker && r.pen == t.pen && r.cursor == t.cursor
  {
  }

  /** From a drawing mode, a successful sample changes only the stroke colour: the
      previous mode comes back with its button, cursor, composite rule and width. */
  lemma PickSucceeded(t: Tool, c: Colour, rest: seq<PickOutcome>)
    requires Consistent(t) && t.mode != Picker
    ensures SetMode(t, Picker, [Picked(c)] + rest) == t.(pen := t.pen.(colour := c))
  {
  }

  /** The colour after the leading run of successful samples. */
  function Sampled(colour: Colour, picks: seq<PickOutcome>): Colour
    decreases |picks|
  {
    if picks == [] || picks[0].Cancelled? then colour
    else Sampled(picks[0].colour, picks[1..])
  }

  /** Selecting the picker while already in picker mode reopens the sampler after every
      success, so the program stays in picker mode and ends with the last colour picked
      before the first cancellation; nothing else changes. */
  lemma {:induction false} PickWhilePicking(t: Tool, picks: seq<PickOutcome>)
    requires t.mode == Picker
    ensures SetMode(t, Picker, picks)
         == t.(active := Picker, pen := t.pen.(colour := Sampled(t.pen.colour, picks)))
    decreases |picks|
  {
    if picks == [] || picks[0].Cancelled? {
    } else {
      var next := t.(active := Picker, pen := t.pen.(colour := picks[0].colour));
      PickWhilePicking(next, picks[1..]);
    }
  }

  /** The configuration once the program has selected its first mode satisfies the
      tool invariant, with the drawing table row. */
  lemma InitialToolConsistent()
    ensures var t := SetMode(Defaults, Draw, []);
      Consistent(t) && t.mode == Draw && t.pen == Pen("#000000", SourceOver, 2) && t.cursor == Brush
  {
  }
}
