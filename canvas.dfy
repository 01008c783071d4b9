/** The editor's drawing overlay (CanvasToDraw.swift): the same drag handler as
    `DrawCanvas`, but the gesture is attached only while a tool that may receive it is
    active. */
module Canvas {
  import opened Platform
  import opened Tools
  import opened Lines

  /** The gesture is attached unless the editor is in draw mode with no tool selected;
      the canvas is then pass-through for the zoom gesture underneath. */
  function GestureAttached(toolType: ToolType, selectedDrawTool: Option<int>): (r: bool)
    ensures r <==> toolType == Text || selectedDrawTool.Some?
    ensures !r <==> toolType == Draw && selectedDrawTool == None
  {
    toolType != Draw || selectedDrawTool != None
  }

  /** The drawing after a sequence of drag events delivered to the canvas while the tool
      state stays fixed: an event only reaches the handler when the gesture is attached. */
  function Delivered(toolType: ToolType, selectedDrawTool: Option<int>, lines: seq<Line>, inputs: seq<Input>): seq<Line>
    decreases |inputs|
  {
    if inputs == [] then lines
    else
      var next := if GestureAttached(toolType, selectedDrawTool)
                  then Stroked(lines, inputs[0].value, inputs[0].color)
                  else lines;
      Delivered(toolType, selectedDrawTool, next, inputs[1..])
  }

  /** With the gesture detached, no event reaches the lines. */
  lemma {:induction false} DetachedIgnoresEvents(lines: seq<Line>, inputs: seq<Input>)
    ensures Delivered(Draw, None, lines, inputs) == lines
    decreases |inputs|
  {
    if inputs != [] {
      DetachedIgnoresEvents(lines, inputs[1..]);
    }
  }

  /** With the gesture attached, the canvas behaves exactly as the ungated handler. */
  lemma {:induction false} AttachedDeliversAll(toolType: ToolType, selectedDrawTool: Option<int>, lines: seq<Line>, inputs: seq<Input>)
    requires GestureAttached(toolType, selectedDrawTool)
    ensures Delivered(toolType, selectedDrawTool, lines, inputs) == Replay(lines, inputs)
    decreases |inputs|
  {
    if inputs != [] {
      AttachedDeliversAll(toolType, selectedDrawTool, Stroked(lines, inputs[0].value, inputs[0].color), inputs[1..]);
    }
  }

  /** `struct CanvasToDraw` with the values it binds. */
  class CanvasToDraw {
    var toolType: ToolType
    var selectedDrawTool: Option<int>
    var canvasSize: Option<Size>
    var drawnLines: seq<Line>
    var currentColor: Color

    constructor (toolType: ToolType, selectedDrawTool: Option<int>, canvasSize: Option<Size>,
                 drawnLines: seq<Line>, currentColor: Color)
      ensures this.toolType == toolType && this.selectedDrawTool == selectedDrawTool
      ensures this.canvasSize == canvasSize && this.drawnLines == drawnLines
      ensures this.currentColor == currentColor
    {
      this.toolType := toolType;
      this.selectedDrawTool := selectedDrawTool;
      this.canvasSize := canvasSize;
      this.drawnLines := drawnLines;
      this.currentColor := currentColor;
    }

    /** The `Canvas` closure: records the size it is drawn at, strokes every line in
        order with width 5, and changes nothing else. */
    method Redraw(size: Size) returns (strokes: seq<Stroke>)
      modifies this
      ensures canvasSize == Some(size)
      ensures strokes == Render(drawnLines)
      ensures drawnLines == old(drawnLines) && currentColor == old(currentColor)
      ensures toolType == old(toolType) && selectedDrawTool == old(selectedDrawTool)
    {
      canvasSize := Some(size);
      strokes := [];
      for i := 0 to |drawnLines|
        invariant strokes == Render(drawnLines[..i])
      {
        var line := drawnLines[i];
        assert drawnLines[..i + 1][..i] == drawnLines[..i];
        strokes := strokes + [Stroke(line.points, line.color, LineWidth)];
      }
      assert drawnLines[..|drawnLines|] == drawnLines;
    }

    /** The gesture's `onChanged` handler, applied in place with the current colour. */
    method OnChanged(value: DragValue)
      modifies this
      ensures drawnLines == Stroked(old(drawnLines), value, old(currentColor))
      ensures currentColor == old(currentColor) && canvasSize == old(canvasSize)
      ensures toolType == old(toolType) && selectedDrawTool == old(selectedDrawTool)
    {
      var position := value.location;
      if value.translation == Zero {
        drawnLines := drawnLines + [Line([position], currentColor)];
      } else {
        if |drawnLines| == 0 {
          return;
        }
        var lastIdx := |drawnLines| - 1;
        drawnLines := drawnLines[lastIdx := drawnLines[lastIdx].(points := drawnLines[lastIdx].points + [position])];
      }
    }

    /** A drag event arriving at the view: it reaches `OnChanged` only while the gesture
        is attached; otherwise the lines stay as they are. */
    method Receive(value: DragValue)
      modifies this
      ensures drawnLines == if GestureAttached(old(toolType), old(selectedDrawTool))
                            then Stroked(old(drawnLines), value, old(currentColor))
                            else old(drawnLines)
      ensures currentColor == old(currentColor) && canvasSize == old(canvasSize)
      ensures toolType == old(toolType) && selectedDrawTool == old(selectedDrawTool)
    {
      if toolType != Draw || selectedDrawTool != None {
        OnChanged(value);
      }
    }
  }
}
