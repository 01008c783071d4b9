/** The tool palette (ToolViews.swift): the tool kinds, the six draw tools and the
    index each button stores in `selectedDrawTool`, the per-tool colour set, and the
    buttons' tap action. */
module Tools {
  import opened Platform

  /** `enum ToolType`: the segmented picker's two modes. */
  datatype ToolType = Draw | Text

  /** The six tool buttons of `AllToolsView`, in the order they are laid out. */
  datatype DrawTool = Pen | Brush | Neon | Pencil | Lasso | Eraser

  /** The colours of a `ColorSet`, one per field. */
  datatype ColorField = PenColor | BrushColor | NeonColor | PencilColor | TextColor

  /** The value a tool's button assigns to `selectedDrawTool`. Every tool has its own
      index in 0..5, and `ToolAt` reads the tool back from it. */
  function ToolIndex(tool: DrawTool): (i: int)
    ensures 0 <= i < 6
    ensures ToolAt(i) == Some(tool)
  {
    match tool
    case Pen => 0
    case Brush => 1
    case Neon => 2
    case Pencil => 3
    case Lasso => 4
    case Eraser => 5
  }

  /** The tool whose button stores index `i`, if any: exactly the indices 0..5 name a tool. */
  function ToolAt(i: int): (r: Option<DrawTool>)
    ensures r.Some? <==> 0 <= i < 6
  {
    if i == 0 then Some(Pen)
    else if i == 1 then Some(Brush)
    else if i == 2 then Some(Neon)
    else if i == 3 then Some(Pencil)
    else if i == 4 then Some(Lasso)
    else if i == 5 then Some(Eraser)
    else None
  }

  /** The reverse round trip: an index that names a tool is that tool's index. */
  lemma ToolAtIndex(i: int)
    requires 0 <= i < 6
    ensures ToolAt(i).Some? && ToolIndex(ToolAt(i).value) == i
  {
  }

  /** A button's label is shown raised (`padding(.top, -45)`) when the selection holds
      that button's own index. */
  predicate Raised(tool: DrawTool, selectedDrawTool: Option<int>)
  {
    selectedDrawTool == Some(ToolIndex(tool))
  }

  /** The vertical offset of a tool button's label. */
  function LabelOffset(tool: DrawTool, selectedDrawTool: Option<int>): (offset: real)
    ensures offset == -45.0 || offset == 0.0
    ensures offset == -45.0 <==> Raised(tool, selectedDrawTool)
  {
    if selectedDrawTool == Some(ToolIndex(tool)) then -45.0 else 0.0
  }

  /** Whatever the selection, at most one tool is shown raised, because the buttons
      compare against distinct indices. */
  lemma AtMostOneRaised(a: DrawTool, b: DrawTool, selectedDrawTool: Option<int>)
    requires Raised(a, selectedDrawTool) && Raised(b, selectedDrawTool)
    ensures a == b
  {
  }

  /** The colour binding `AllToolsView` hands each button: only pen, brush, neon and
      pencil have one, and it is never the text colour. */
  function BoundColor(tool: DrawTool): (r: Option<ColorField>)
    ensures r.None? <==> (tool == Lasso || tool == Eraser)
    ensures r != Some(TextColor)
  {
    match tool
    case Pen => Some(PenColor)
    case Brush => Some(BrushColor)
    case Neon => Some(NeonColor)
    case Pencil => Some(PencilColor)
    case Lasso => None
    case Eraser => None
  }

  /** No two tools share a colour binding. */
  lemma BoundColorInjective(a: DrawTool, b: DrawTool)
    requires BoundColor(a).Some? && BoundColor(a) == BoundColor(b)
    ensures a == b
  {
  }

  /** `class ColorSet`: the current colour of each colour-carrying tool and of text. */
  class ColorSet {
    var pen: Color
    var brush: Color
    var neon: Color
    var pencil: Color
    var text: Color

    /** `init(default:)`: every draw tool starts with the given colour, text starts black. */
    constructor (c: Color)
      ensures pen == c && brush == c && neon == c && pencil == c
      ensures text == Black
    {
      pen := c;
      brush := c;
      neon := c;
      pencil := c;
      text := Black;
    }

    /** The getter of the binding `$colorSet.<field>`. */
    function Get(field: ColorField): (c: Color)
      reads this
      ensures field == PenColor ==> c == pen
      ensures field == BrushColor ==> c == brush
      ensures field == NeonColor ==> c == neon
      ensures field == PencilColor ==> c == pencil
      ensures field == TextColor ==> c == text
    {
      match field
      case PenColor => pen
      case BrushColor => brush
      case NeonColor => neon
      case PencilColor => pencil
      case TextColor => text
    }

    /** The setter of the binding `$colorSet.<field>`: that colour changes, no other. */
    method Set(field: ColorField, c: Color)
      modifies this
      ensures Get(field) == c
      ensures forall f: ColorField :: f != field ==> Get(f) == old(Get(f))
    {
      match field
      case PenColor => pen := c;
      case BrushColor => brush := c;
      case NeonColor => neon := c;
      case PencilColor => pencil := c;
      case TextColor => text := c;
    }
  }

  /** `AllToolsView` with the values it binds: the tool type, the selected tool and the
      shared colour set. */
  class AllToolsView {
    var toolType: ToolType
    var selectedDrawTool: Option<int>
    const colorSet: ColorSet

    constructor (toolType: ToolType, selectedDrawTool: Option<int>, colorSet: ColorSet)
      ensures this.toolType == toolType && this.selectedDrawTool == selectedDrawTool
      ensures this.colorSet == colorSet
    {
      this.toolType := toolType;
      this.selectedDrawTool := selectedDrawTool;
      this.colorSet := colorSet;
    }

    /** A tap on a tool's button stores that tool's index and nothing else: no colour
        changes, and the new state does not depend on the old selection, so tapping the
        same tool twice leaves the state a single tap gives. */
    method Tap(tool: DrawTool)
      modifies this
      ensures selectedDrawTool == Some(ToolIndex(tool))
      ensures Raised(tool, selectedDrawTool)
      ensures forall t: DrawTool :: Raised(t, selectedDrawTool) ==> t == tool
      ensures toolType == old(toolType)
      ensures unchanged(colorSet)
    {
      match tool {
        case Pen => selectedDrawTool := Some(0);
        case Brush => selectedDrawTool := Some(1);
        case Neon => selectedDrawTool := Some(2);
        case Pencil => selectedDrawTool := Some(3);
        case Lasso => selectedDrawTool := Some(4);
        case Eraser => selectedDrawTool := Some(5);
      }
      forall t: DrawTool | Raised(t, selectedDrawTool)
        ensures t == tool
      {
        AtMostOneRaised(t, tool, selectedDrawTool);
      }
    }
  }
}
