/** The editing screen (MainScreen/EditorView.swift): its undo and clear-all commands,
    the cancel button and exit alert, the colour the colour picker edits, and the export
    of the drawing scaled into the photo's own coordinate space. */
module Editor {
  import opened Platform
  import opened Tools
  import opened Lines
  import Canvas

  // ---------------------------------------------------------------------------
  // Undo and clear-all

  /** `popLast()` on the drawing: the last line goes, the others stay unchanged and in
      order; an empty drawing stays empty. */
  function Undone(lines: seq<Line>): (r: seq<Line>)
    ensures |lines| == 0 ==> r == []
    ensures |lines| > 0 ==> |r| == |lines| - 1 && r + [lines[|lines| - 1]] == lines
  {
    if |lines| == 0 then [] else lines[..|lines| - 1]
  }

  /** Undo keeps every remaining line non-empty. */
  lemma UndoneKeepsNonEmpty(lines: seq<Line>)
    requires AllNonEmpty(lines)
    ensures AllNonEmpty(Undone(lines))
  {
  }

  /** Undo after a whole gesture removes exactly the line that gesture drew, provided
      no event of the drag after the first returns to zero translation (otherwise the
      drag drew more than one line, see `Lines.ReturnToStartSplitsDrag`). */
  lemma UndoRemovesGesture(lines: seq<Line>, start: Input, inputs: seq<Input>)
    requires IsStart(start.value)
    requires AllContinue(inputs)
    ensures Undone(Replay(lines, [start] + inputs)) == lines
  {
    GestureBuildsLine(lines, start, inputs);
    var drawn := lines + [Line([start.value.location] + Locations(inputs), start.color)];
    assert drawn[..|drawn| - 1] == lines;
  }

  // ---------------------------------------------------------------------------
  // The cancel button

  /** What the cancel button does. */
  datatype CancelOutcome = ShowExitAlert | Deselect

  /** The cancel button deselects the tool exactly when the editor is in draw mode and
      the canvas's gesture is attached; in every other state it asks to leave. */
  function CancelAction(toolType: ToolType, selectedDrawTool: Option<int>): (r: CancelOutcome)
    ensures r == Deselect <==> toolType.Draw? && Canvas.GestureAttached(toolType, selectedDrawTool)
    ensures r == ShowExitAlert <==> toolType.Text? || selectedDrawTool.None?
  {
    if toolType.Text? || selectedDrawTool == None then ShowExitAlert else Deselect
  }

  // ---------------------------------------------------------------------------
  // The colour picker's binding

  /** The colour the colour picker edits (`getCurrentColorSetBinding`): the text colour
      in text mode; in draw mode the colour bound to the selected tool's button, so pen,
      brush, neon and pencil edit their own colours; nothing (a detached binding) for
      lasso, eraser, an index naming no tool, or no selection. */
  function ColorBindingTarget(toolType: ToolType, selectedDrawTool: Option<int>): (r: Option<ColorField>)
    ensures toolType.Text? ==> r == Some(TextColor)
    ensures toolType.Draw? ==>
              r == if selectedDrawTool.Some? && ToolAt(selectedDrawTool.value).Some?
                   then BoundColor(ToolAt(selectedDrawTool.value).value)
                   else None
    ensures r.None? <==>
              toolType.Draw? && (selectedDrawTool.None? || !(0 <= selectedDrawTool.value < 4))
  {
    if toolType.Text? then Some(TextColor)
    else if selectedDrawTool == Some(0) then Some(PenColor)
    else if selectedDrawTool == Some(1) then Some(BrushColor)
    else if selectedDrawTool == Some(2) then Some(NeonColor)
    else if selectedDrawTool == Some(3) then Some(PencilColor)
    else None
  }

  // ---------------------------------------------------------------------------
  // Export

  /** The export scale: the photo's width over the canvas's last drawn width, or 1 when
      the canvas has not been drawn yet. */
  function ExportScale(originWidth: real, canvasSize: Option<Size>): (scale: real)
    requires originWidth > 0.0
    requires canvasSize.Some? ==> canvasSize.value.width > 0.0
    ensures scale > 0.0
    ensures canvasSize.None? ==> scale == 1.0
    ensures canvasSize.Some? ==> scale * canvasSize.value.width == originWidth
  {
    var divisor := if canvasSize.Some? then canvasSize.value.width else originWidth;
    assert canvasSize.None? ==> 1.0 * originWidth / divisor == 1.0;
    1.0 * originWidth / divisor
  }

  /** `points.map { $0.applying(CGAffineTransform(scaleX: s, y: s)) }`. */
  function ScalePoints(ps: seq<Point>, s: real): (r: seq<Point>)
    ensures |r| == |ps|
  {
    if ps == [] then [] else [ps[0].Scaled(s)] + ScalePoints(ps[1..], s)
  }

  /** The stroke exported for one line: its points scaled, its own colour, width 5 * s. */
  function ExportLine(line: Line, s: real): (r: Stroke)
    ensures r.color == line.color && r.lineWidth == LineWidth * s
    ensures |r.path| == |line.points|
  {
    Stroke(ScalePoints(line.points, s), line.color, LineWidth * s)
  }

  /** The strokes drawn into the photo-sized image, one per line, in order. */
  function Exported(lines: seq<Line>, s: real): (r: seq<Stroke>)
    ensures |r| == |lines|
  {
    if lines == [] then []
    else Exported(lines[..|lines| - 1], s) + [ExportLine(lines[|lines| - 1], s)]
  }

  /** The flattened export: the photo, at its own size, with the strokes above it. */
  datatype Composite = Composite(size: Size, strokes: seq<Stroke>)

  /** Scaling keeps every point, in order, and multiplies both coordinates by the same
      factor. */
  lemma {:induction false} ScalePointsAt(ps: seq<Point>, s: real)
    ensures |ScalePoints(ps, s)| == |ps|
    ensures forall j :: 0 <= j < |ps| ==> ScalePoints(ps, s)[j] == Point(ps[j].x * s, ps[j].y * s)
    decreases |ps|
  {
    if ps != [] {
      ScalePointsAt(ps[1..], s);
      assert ScalePoints(ps, s) == [ps[0].Scaled(s)] + ScalePoints(ps[1..], s);
      assert forall j :: 1 <= j < |ps| ==> ps[1..][j - 1] == ps[j];
    }
  }

  /** Scaling by a non-zero factor loses nothing: scaling back recovers the points. */
  lemma {:induction false} ScalePointsInverse(ps: seq<Point>, s: real)
    requires s != 0.0
    ensures ScalePoints(ScalePoints(ps, s), 1.0 / s) == ps
    decreases |ps|
  {
    if ps != [] {
      var p := ps[0];
      var scaled := ScalePoints(ps, s);
      assert scaled == [p.Scaled(s)] + ScalePoints(ps[1..], s);
      assert scaled[0] == p.Scaled(s) && scaled[1..] == ScalePoints(ps[1..], s);
      ScalePointsInverse(ps[1..], s);
      assert p.x * s * (1.0 / s) == p.x;
      assert p.y * s * (1.0 / s) == p.y;
      assert scaled[0].Scaled(1.0 / s) == p;
      assert ScalePoints(scaled, 1.0 / s) == [p] + ps[1..];
      assert [p] + ps[1..] == ps;
    }
  }

  /** Scaling by 1 is the identity. */
  lemma {:induction false} ScalePointsByOne(ps: seq<Point>)
    ensures ScalePoints(ps, 1.0) == ps
    decreases |ps|
  {
    if ps != [] {
      ScalePointsByOne(ps[1..]);
      assert ps == [ps[0]] + ps[1..];
    }
  }

  /** The export holds one stroke per line, in order, each that line's own export. */
  lemma {:induction false} ExportedAt(lines: seq<Line>, s: real)
    ensures |Exported(lines, s)| == |lines|
    ensures forall k :: 0 <= k < |lines| ==> Exported(lines, s)[k] == ExportLine(lines[k], s)
    decreases |lines|
  {
    if lines != [] {
      var front := lines[..|lines| - 1];
      ExportedAt(front, s);
      assert forall k :: 0 <= k < |front| ==> front[k] == lines[k];
    }
  }

  /** One line's export keeps its colour and its point count, maps every point to
      (x * s, y * s), and has width 5 * s. */
  lemma ExportLineShape(line: Line, s: real)
    ensures ExportLine(line, s).color == line.color
    ensures ExportLine(line, s).lineWidth == LineWidth * s
    ensures |ExportLine(line, s).path| == |line.points|
    ensures forall j :: 0 <= j < |line.points| ==>
              ExportLine(line, s).path[j] == Point(line.points[j].x * s, line.points[j].y * s)
  {
    ScalePointsAt(line.points, s);
  }

  /** Export preserves the number of lines and their order, each line's point count and
      colour, maps every point to (x * s, y * s), and strokes every line with width 5 * s. */
  lemma ExportPreservesLines(lines: seq<Line>, s: real)
    ensures |Exported(lines, s)| == |lines|
    ensures forall k :: 0 <= k < |lines| ==>
              var e := Exported(lines, s)[k];
              e.color == lines[k].color && e.lineWidth == LineWidth * s &&
              |e.path| == |lines[k].points| &&
              forall j :: 0 <= j < |lines[k].points| ==>
                e.path[j] == Point(lines[k].points[j].x * s, lines[k].points[j].y * s)
  {
    ExportedAt(lines, s);
    forall k | 0 <= k < |lines|
      ensures var e := Exported(lines, s)[k];
              e.color == lines[k].color && e.lineWidth == LineWidth * s &&
              |e.path| == |lines[k].points| &&
              forall j :: 0 <= j < |lines[k].points| ==>
                e.path[j] == Point(lines[k].points[j].x * s, lines[k].points[j].y * s)
    {
      ExportLineShape(lines[k], s);
    }
  }

  /** With the canvas drawn at the photo's own width, the export is exactly what the
      canvas shows on screen. */
  lemma {:induction false} ExportAtUnitScale(lines: seq<Line>)
    ensures Exported(lines, 1.0) == Render(lines)
    decreases |lines|
  {
    if lines != [] {
      var last := lines[|lines| - 1];
      ExportAtUnitScale(lines[..|lines| - 1]);
      ScalePointsByOne(last.points);
    }
  }

  /** A worked example: one line (0,0)-(10,0) drawn on a 100 x 100 canvas over a photo
      200 wide exports at scale 2 as (0,0)-(20,0) with width 10. */
  lemma ExportExample(c: Color)
    ensures ExportScale(200.0, Some(Size(100.0, 100.0))) == 2.0
    ensures Exported([Line([Point(0.0, 0.0), Point(10.0, 0.0)], c)], 2.0) ==
              [Stroke([Point(0.0, 0.0), Point(20.0, 0.0)], c, 10.0)]
  {
    var ps := [Point(0.0, 0.0), Point(10.0, 0.0)];
    var line := Line(ps, c);
    assert ps[1..] == [Point(10.0, 0.0)];
    assert [Point(10.0, 0.0)][1..] == [];
    assert ScalePoints([Point(10.0, 0.0)], 2.0) == [Point(20.0, 0.0)];
    assert ScalePoints(ps, 2.0) == [ps[0].Scaled(2.0)] + ScalePoints(ps[1..], 2.0);
    assert ExportLine(line, 2.0) == Stroke([Point(0.0, 0.0), Point(20.0, 0.0)], c, 10.0);
    assert [line][..0] == [];
    assert Exported([line], 2.0) == [ExportLine(line, 2.0)];
  }

  // ---------------------------------------------------------------------------
  // The editor's state

  /** `struct EditorView` with its own state; `originSize` is the photo's native size. */
  class EditorView {
    var imageData: Option<seq<bv8>>
    const originSize: Size
    const colorSet: ColorSet
    var toolType: ToolType
    var selectedDrawTool: Option<int>
    var canvasSize: Option<Size>
    var drawnLines: seq<Line>
    var presentExitAlert: bool
    var presentSaveAlert: bool

    /** A new session over a decoded photo: no lines, draw mode with no tool selected,
        every draw tool cyan and text black. */
    constructor (data: seq<bv8>, imageSize: Size)
      ensures imageData == Some(data) && originSize == imageSize
      ensures fresh(colorSet)
      ensures colorSet.pen == Cyan && colorSet.brush == Cyan && colorSet.neon == Cyan
      ensures colorSet.pencil == Cyan && colorSet.text == Black
      ensures toolType == Draw && selectedDrawTool == None && canvasSize == None
      ensures drawnLines == [] && !presentExitAlert && !presentSaveAlert
    {
      imageData := Some(data);
      originSize := imageSize;
      colorSet := new ColorSet(Cyan);
      toolType := Draw;
      selectedDrawTool := None;
      canvasSize := None;
      drawnLines := [];
      presentExitAlert := false;
      presentSaveAlert := false;
    }

    /** The undo button. */
    method Undo()
      modifies this
      ensures drawnLines == Undone(old(drawnLines))
      ensures imageData == old(imageData) && toolType == old(toolType)
      ensures selectedDrawTool == old(selectedDrawTool) && canvasSize == old(canvasSize)
      ensures presentExitAlert == old(presentExitAlert) && presentSaveAlert == old(presentSaveAlert)
    {
      if |drawnLines| > 0 {
        drawnLines := drawnLines[..|drawnLines| - 1];
      }
    }

    /** The "Clear all" button: whatever was drawn, the drawing is empty afterwards. */
    method ClearAll()
      modifies this
      ensures drawnLines == []
      ensures imageData == old(imageData) && toolType == old(toolType)
      ensures selectedDrawTool == old(selectedDrawTool) && canvasSize == old(canvasSize)
      ensures presentExitAlert == old(presentExitAlert) && presentSaveAlert == old(presentSaveAlert)
    {
      drawnLines := [];
    }

    /** The cancel button: outside draw mode, or with no tool selected, it only opens the
        exit alert; otherwise it only deselects the tool, which detaches the canvas's
        gesture. */
    method Cancel()
      modifies this
      ensures CancelAction(old(toolType), old(selectedDrawTool)) == ShowExitAlert ==>
                presentExitAlert && selectedDrawTool == old(selectedDrawTool)
      ensures CancelAction(old(toolType), old(selectedDrawTool)) == Deselect ==>
                selectedDrawTool == None && presentExitAlert == old(presentExitAlert) &&
                !Canvas.GestureAttached(toolType, selectedDrawTool)
      ensures imageData == old(imageData) && toolType == old(toolType)
      ensures drawnLines == old(drawnLines) && canvasSize == old(canvasSize)
      ensures presentSaveAlert == old(presentSaveAlert)
    {
      if toolType != Draw || selectedDrawTool == None {
        presentExitAlert := true;
      } else {
        selectedDrawTool := None;
      }
    }

    /** The exit alert's "Leave" button: the photo is dropped, ending the session. */
    method Leave()
      modifies this
      ensures imageData == None
      ensures toolType == old(toolType) && selectedDrawTool == old(selectedDrawTool)
      ensures drawnLines == old(drawnLines) && canvasSize == old(canvasSize)
      ensures presentExitAlert == old(presentExitAlert) && presentSaveAlert == old(presentSaveAlert)
    {
      imageData := None;
    }

    /** The segmented picker between draw and text mode. */
    method SelectToolType(t: ToolType)
      modifies this
      ensures toolType == t
      ensures imageData == old(imageData) && selectedDrawTool == old(selectedDrawTool)
      ensures drawnLines == old(drawnLines) && canvasSize == old(canvasSize)
      ensures presentExitAlert == old(presentExitAlert) && presentSaveAlert == old(presentSaveAlert)
    {
      toolType := t;
    }

    /** The download button: it opens the save dialog. */
    method RequestSave()
      modifies this
      ensures presentSaveAlert
      ensures imageData == old(imageData) && toolType == old(toolType)
      ensures selectedDrawTool == old(selectedDrawTool) && drawnLines == old(drawnLines)
      ensures canvasSize == old(canvasSize) && presentExitAlert == old(presentExitAlert)
    {
      presentSaveAlert := true;
    }

    /** The canvas reporting, through its binding, the size it was drawn at. */
    method RecordCanvasSize(size: Size)
      modifies this
      ensures canvasSize == Some(size)
      ensures imageData == old(imageData) && toolType == old(toolType)
      ensures selectedDrawTool == old(selectedDrawTool) && drawnLines == old(drawnLines)
      ensures presentExitAlert == old(presentExitAlert) && presentSaveAlert == old(presentSaveAlert)
    {
      canvasSize := Some(size);
    }

    /** The colour the colour picker shows: the bound colour, or transparent when the
        binding is detached. */
    function PickerColor(): (c: Color)
      reads this, colorSet
      ensures toolType.Text? ==> c == colorSet.text
      ensures ColorBindingTarget(toolType, selectedDrawTool).None? ==> c == Transparent
      ensures ColorBindingTarget(toolType, selectedDrawTool).Some? ==>
                c == colorSet.Get(ColorBindingTarget(toolType, selectedDrawTool).value)
    {
      match ColorBindingTarget(toolType, selectedDrawTool)
      case None => Transparent
      case Some(field) => colorSet.Get(field)
    }

    /** The colour picker writing through its binding: the bound colour becomes `c` and
        no other colour changes; through a detached binding nothing changes. */
    method PickColor(c: Color)
      modifies colorSet
      ensures ColorBindingTarget(toolType, selectedDrawTool).None? ==> unchanged(colorSet)
      ensures ColorBindingTarget(toolType, selectedDrawTool).Some? ==>
                colorSet.Get(ColorBindingTarget(toolType, selectedDrawTool).value) == c
      ensures forall f: ColorField :: Some(f) != ColorBindingTarget(toolType, selectedDrawTool) ==>
                colorSet.Get(f) == old(colorSet.Get(f))
    {
      var target := ColorBindingTarget(toolType, selectedDrawTool);
      if target.Some? {
        colorSet.Set(target.value, c);
      }
    }

    /** "Save to Photos": snapshots the lines and the scale first, then strokes every line
        of the snapshot, scaled, into an image of the photo's size above the photo. The
        editor's state is not changed. */
    method SaveImage() returns (image: Composite)
      requires originSize.width > 0.0
      requires canvasSize.Some? ==> canvasSize.value.width > 0.0
      ensures image == Composite(originSize, Exported(drawnLines, ExportScale(originSize.width, canvasSize)))
    {
      var lines := drawnLines;
      var scale := 1.0 * originSize.width /
                   (if canvasSize.Some? then canvasSize.value.width else originSize.width);
      var strokes: seq<Stroke> := [];
      for i := 0 to |lines|
        invariant strokes == Exported(lines[..i], scale)
      {
        var line := lines[i];
        var affineStretched := ScalePoints(line.points, scale);
        assert lines[..i + 1][..i] == lines[..i];
        strokes := strokes + [Stroke(affineStretched, line.color, LineWidth * scale)];
      }
      assert lines[..|lines|] == lines;
      image := Composite(originSize, strokes);
    }
  }
}
