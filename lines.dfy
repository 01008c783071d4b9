/** The freehand stroke model (DrawCanvas.swift): a `Line` is its points in drawing
    order plus the colour captured when it started; a drawing is an ordered sequence of
    lines. A drag event either starts a new line or extends the last one, and the canvas
    strokes every line, in order, as a polyline of width 5. */
module Lines {
  import opened Platform

  /** `struct Line`. */
  datatype Line = Line(points: seq<Point>, color: Color)

  /** `DragGesture.Value`, reduced to the two fields the handlers read. */
  datatype DragValue = DragValue(location: Point, translation: Size)

  /** One `onChanged` event together with the colour that is current when it arrives. */
  datatype Input = Input(value: DragValue, color: Color)

  /** One `context.stroke` call: the polyline through `path`, its colour and its line
      width (the caps and joins are always round). */
  datatype Stroke = Stroke(path: seq<Point>, color: Color, lineWidth: real)

  /** The line width the canvas uses on screen. */
  const LineWidth: real := 5.0

  /** An event with zero translation starts a new line. This is the first event of a
      drag, but also any later event of the same drag whose position is back exactly at
      the drag's start point (`ReturnToStartSplitsDrag`). */
  predicate IsStart(value: DragValue)
  {
    value.translation == Zero
  }

  /** Every line holds at least one point. */
  predicate AllNonEmpty(lines: seq<Line>)
  {
    forall i :: 0 <= i < |lines| ==> |lines[i].points| > 0
  }

  /** The drawing after one `onChanged` event, given the colour current at that moment.
      A start event appends exactly one line holding only the event's position, in that
      colour; any other event appends the position to the last line's points, keeping
      that line's colour, and does nothing to an empty drawing. No other line changes. */
  function Stroked(lines: seq<Line>, value: DragValue, color: Color): (r: seq<Line>)
    ensures IsStart(value) ==>
              |r| == |lines| + 1 && r[..|lines|] == lines && r[|lines|] == Line([value.location], color)
    ensures !IsStart(value) ==> |r| == |lines|
    ensures !IsStart(value) && |lines| == 0 ==> r == []
    ensures !IsStart(value) && |lines| > 0 ==>
              r[|r| - 1].points == lines[|lines| - 1].points + [value.location] &&
              r[|r| - 1].color == lines[|lines| - 1].color
    ensures forall i :: 0 <= i < |lines| - 1 ==> r[i] == lines[i]
  {
    if IsStart(value) then
      lines + [Line([value.location], color)]
    else if |lines| == 0 then
      lines
    else
      var last := |lines| - 1;
      lines[last := lines[last].(points := lines[last].points + [value.location])]
  }

  /** Both branches of the handler keep every line non-empty. */
  lemma StrokedKeepsNonEmpty(lines: seq<Line>, value: DragValue, color: Color)
    requires AllNonEmpty(lines)
    ensures AllNonEmpty(Stroked(lines, value, color))
  {
  }

  /** The drawing after a sequence of `onChanged` events, in order. */
  function Replay(lines: seq<Line>, inputs: seq<Input>): seq<Line>
    decreases |inputs|
  {
    if inputs == [] then lines
    else Replay(Stroked(lines, inputs[0].value, inputs[0].color), inputs[1..])
  }

  /** Every event of `inputs` continues a gesture. */
  predicate AllContinue(inputs: seq<Input>)
  {
    forall i :: 0 <= i < |inputs| ==> !IsStart(inputs[i].value)
  }

  /** The positions of a sequence of events, in order. */
  function Locations(inputs: seq<Input>): (ps: seq<Point>)
    ensures |ps| == |inputs|
    ensures forall i :: 0 <= i < |inputs| ==> ps[i] == inputs[i].value.location
  {
    if inputs == [] then [] else [inputs[0].value.location] + Locations(inputs[1..])
  }

  /** No sequence of events produces an empty line. */
  lemma {:induction false} ReplayKeepsNonEmpty(lines: seq<Line>, inputs: seq<Input>)
    requires AllNonEmpty(lines)
    ensures AllNonEmpty(Replay(lines, inputs))
    decreases |inputs|
  {
    if inputs != [] {
      var next := Stroked(lines, inputs[0].value, inputs[0].color);
      StrokedKeepsNonEmpty(lines, inputs[0].value, inputs[0].color);
      ReplayKeepsNonEmpty(next, inputs[1..]);
    }
  }

  /** The number of lines never decreases, and every line before the one being drawn
      is never modified by later events. */
  lemma {:induction false} ReplayKeepsEarlierLines(lines: seq<Line>, inputs: seq<Input>)
    ensures |Replay(lines, inputs)| >= |lines|
    ensures forall i :: 0 <= i < |lines| - 1 ==> Replay(lines, inputs)[i] == lines[i]
    decreases |inputs|
  {
    if inputs != [] {
      var next := Stroked(lines, inputs[0].value, inputs[0].color);
      ReplayKeepsEarlierLines(next, inputs[1..]);
    }
  }

  /** Continuation events on an empty drawing leave it empty. */
  lemma {:induction false} ContinueOnEmpty(inputs: seq<Input>)
    requires AllContinue(inputs)
    ensures Replay([], inputs) == []
    decreases |inputs|
  {
    if inputs != [] {
      assert Stroked([], inputs[0].value, inputs[0].color) == [];
      assert AllContinue(inputs[1..]) by {
        forall i | 0 <= i < |inputs[1..]| ensures !IsStart(inputs[1..][i].value) {
          assert inputs[1..][i] == inputs[i + 1];
        }
      }
      ContinueOnEmpty(inputs[1..]);
    }
  }

  /** Continuation events append their positions, in order, to the last line only;
      its colour stays the one it was created with, whatever colour is current later. */
  lemma {:induction false} ContinueExtendsLast(lines: seq<Line>, inputs: seq<Input>)
    requires |lines| > 0
    requires AllContinue(inputs)
    ensures Replay(lines, inputs) ==
              lines[..|lines| - 1] +
              [Line(lines[|lines| - 1].points + Locations(inputs), lines[|lines| - 1].color)]
    decreases |inputs|
  {
    var n := |lines|;
    var last := lines[n - 1];
    if inputs == [] {
      assert last.points + Locations(inputs) == last.points;
      assert lines == lines[..n - 1] + [last];
    } else {
      var p := inputs[0].value.location;
      var rest := inputs[1..];
      var next := Stroked(lines, inputs[0].value, inputs[0].color);
      assert next == lines[..n - 1] + [Line(last.points + [p], last.color)] by {
        assert !IsStart(inputs[0].value);
      }
      assert AllContinue(rest) by {
        forall i | 0 <= i < |rest| ensures !IsStart(rest[i].value) {
          assert rest[i] == inputs[i + 1];
        }
      }
      assert Replay(lines, inputs) == Replay(next, rest);
      ContinueExtendsLast(next, rest);
      assert next[..n - 1] == lines[..n - 1];
      assert next[n - 1] == Line(last.points + [p], last.color);
      assert Locations(inputs) == [p] + Locations(rest);
      assert (last.points + [p]) + Locations(rest) == last.points + Locations(inputs);
    }
  }

  /** One gesture: a start event followed by n continuation events adds one line whose
      points are exactly those n + 1 positions in order, in the colour current at the
      start, and leaves every earlier line as it was. */
  lemma {:induction false} GestureBuildsLine(lines: seq<Line>, start: Input, inputs: seq<Input>)
    requires IsStart(start.value)
    requires AllContinue(inputs)
    ensures Replay(lines, [start] + inputs) ==
              lines + [Line([start.value.location] + Locations(inputs), start.color)]
  {
    var next := Stroked(lines, start.value, start.color);
    assert ([start] + inputs)[1..] == inputs;
    assert Replay(lines, [start] + inputs) == Replay(next, inputs);
    ContinueExtendsLast(next, inputs);
    assert next[..|lines|] == lines;
  }

  /** The strokes the canvas issues on screen, one per line, in order. */
  function Render(lines: seq<Line>): (r: seq<Stroke>)
    ensures |r| == |lines|
  {
    if lines == [] then []
    else Render(lines[..|lines| - 1]) + [Stroke(lines[|lines| - 1].points, lines[|lines| - 1].color, LineWidth)]
  }

  /** On screen, every line is stroked through its own points, in its own captured
      colour, with width 5, in list order. */
  lemma {:induction false} RenderAt(lines: seq<Line>)
    ensures |Render(lines)| == |lines|
    ensures forall k :: 0 <= k < |lines| ==>
              Render(lines)[k] == Stroke(lines[k].points, lines[k].color, LineWidth)
    decreases |lines|
  {
    if lines != [] {
      var front := lines[..|lines| - 1];
      RenderAt(front);
      assert forall k :: 0 <= k < |front| ==> front[k] == lines[k];
    }
  }

  /** A line's colour is fixed when the line is created, and its points only grow:
      under any sequence of events every existing line, the last one included, keeps its
      colour whatever colour is current later, and its old points stay a prefix. */
  lemma {:induction false} ReplayKeepsLineColors(lines: seq<Line>, inputs: seq<Input>)
    ensures forall k :: 0 <= k < |lines| ==>
              k < |Replay(lines, inputs)| &&
              Replay(lines, inputs)[k].color == lines[k].color &&
              lines[k].points <= Replay(lines, inputs)[k].points
    decreases |inputs|
  {
    if inputs != [] {
      var next := Stroked(lines, inputs[0].value, inputs[0].color);
      ReplayKeepsLineColors(next, inputs[1..]);
    } else {
      assert Replay(lines, inputs) == lines;
    }
  }

  /** A drag that comes back exactly to its start point produces a second line: the
      events (0,0), (1,0), (0,0) of one drag draw two lines, not one. */
  lemma ReturnToStartSplitsDrag(c: Color)
    ensures Replay([], [Input(DragValue(Point(0.0, 0.0), Zero), c),
                        Input(DragValue(Point(1.0, 0.0), Size(1.0, 0.0)), c),
                        Input(DragValue(Point(0.0, 0.0), Zero), c)]) ==
              [Line([Point(0.0, 0.0), Point(1.0, 0.0)], c), Line([Point(0.0, 0.0)], c)]
  {
    var a := Input(DragValue(Point(0.0, 0.0), Zero), c);
    var b := Input(DragValue(Point(1.0, 0.0), Size(1.0, 0.0)), c);
    var l1 := Stroked([], a.value, c);
    assert l1 == [Line([Point(0.0, 0.0)], c)];
    assert !IsStart(b.value);
    var l2 := Stroked(l1, b.value, c);
    assert l2[0].points == [Point(0.0, 0.0)] + [Point(1.0, 0.0)] == [Point(0.0, 0.0), Point(1.0, 0.0)];
    assert |l2| == 1;
    assert l2 == [Line([Point(0.0, 0.0), Point(1.0, 0.0)], c)];
    var l3 := Stroked(l2, a.value, c);
    assert l3 == [Line([Point(0.0, 0.0), Point(1.0, 0.0)], c), Line([Point(0.0, 0.0)], c)];
    assert [a, b, a][1..] == [b, a];
    assert [b, a][1..] == [a];
    assert [a][1..] == [];
    assert Replay([], [a, b, a]) == Replay(l1, [b, a]);
    assert Replay(l1, [b, a]) == Replay(l2, [a]);
    assert Replay(l2, [a]) == Replay(l3, []);
  }

  /** `struct DrawCanvas` with the values it binds: the drawn lines, the selected colour
      and the recorded canvas size. Its drag gesture is always attached. */
  class DrawCanvas {
    var lines: seq<Line>
    var selectedColor: Color
    var canvasSize: Option<Size>

    constructor (lines: seq<Line>, selectedColor: Color, canvasSize: Option<Size>)
      ensures this.lines == lines && this.selectedColor == selectedColor
      ensures this.canvasSize == canvasSize
    {
      this.lines := lines;
      this.selectedColor := selectedColor;
      this.canvasSize := canvasSize;
    }

    /** The `Canvas` closure: records the size it is drawn at and strokes every line,
        without changing the lines. */
    method Redraw(size: Size) returns (strokes: seq<Stroke>)
      modifies this
      ensures canvasSize == Some(size)
      ensures strokes == Render(lines)
      ensures lines == old(lines) && selectedColor == old(selectedColor)
    {
      canvasSize := Some(size);
      strokes := [];
      for i := 0 to |lines|
        invariant strokes == Render(lines[..i])
      {
        var line := lines[i];
        assert lines[..i + 1][..i] == lines[..i];
        strokes := strokes + [Stroke(line.points, line.color, LineWidth)];
      }
      assert lines[..|lines|] == lines;
    }

    /** The gesture's `onChanged` handler, applied in place. */
    method OnChanged(value: DragValue)
      modifies this
      ensures lines == Stroked(old(lines), value, old(selectedColor))
      ensures selectedColor == old(selectedColor) && canvasSize == old(canvasSize)
    {
      var position := value.location;
      if value.translation == Zero {
        lines := lines + [Line([position], selectedColor)];
      } else {
        if |lines| == 0 {
          return;
        }
        var lastIdx := |lines| - 1;
        lines := lines[lastIdx := lines[lastIdx].(points := lines[lastIdx].points + [position])];
      }
    }
  }
}
