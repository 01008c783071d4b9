# Freehand stroke model of the iOS photo editor

This project models the drawing core of the photo editor in Dafny and proves properties
of the model. A drawing is an ordered list of lines. Each line is an ordered list of
points plus the colour that was current when the line started. Four things act on it:

- The drag handler: a zero-translation event starts a new line, and any other event
  extends the last line. It appears twice: ungated in `DrawCanvas`, and in `CanvasToDraw`
  attached only while the tool state allows it.
- Undo, which pops the last line, and clear-all, which empties the drawing.
- Export. It snapshots the lines and the scale (photo width over canvas width, or 1 when
  the canvas has not been drawn yet). It then scales every point uniformly and strokes
  each line with width `5 * scale` into an image the size of the photo.
- The tool and colour state: the tool type, the index each tool button stores, the
  `ColorSet` defaults, the colour the colour picker edits, and the cancel button.

Files and modules, one per source file:

- `platform.dfy`, module `Platform`: Swift `Optional`, `CGPoint`, `CGSize`, `Color`.
  `CGFloat` is `real`.
- `tools.dfy`, module `Tools`: `MainScreen/ToolViews.swift`.
- `lines.dfy`, module `Lines`: `MainScreen/ViewModel/DrawCanvas.swift`.
- `canvas.dfy`, module `Canvas`: `MainScreen/CanvasToDraw.swift`.
- `editor.dfy`, module `Editor`: `MainScreen/EditorView.swift`.

Each SwiftUI view whose code changes state is a class. Its fields are the values it owns
or binds (`@State`, `@Binding`, `@Published`), and its button actions and gesture
handlers are methods with `modifies` clauses. Each method is specified by a pure
function (`Stroked`, `Undone`, `Render`, `Exported`, `CancelAction`,
`ColorBindingTarget`), and the lemmas are proved about those functions. A sequence of
drag events is modelled as a fold (`Replay`, `Delivered`). Each event is paired with the
colour that was current when it arrived, so the model can state that a line's colour is
fixed when the line is created.

Four facts about the code shape the model:

- A line has no width of its own. The on-screen width is the literal 5
  (`CanvasToDraw.swift:25`, `DrawCanvas.swift:28`), and the export width is `5 * scale`
  (`EditorView.swift:191`). These files have no per-tool width.
- The canvas gesture is attached when `toolType != .draw || selectedDrawTool != nil`
  (`CanvasToDraw.swift:27`). So it is also attached in text mode, not only when a draw
  sub-tool is selected.
- Export has no failure result. When the renderer produces no image, the code calls
  `fatalError` (`EditorView.swift:199`).
- A new line starts at every event with zero translation, not only at the first event
  of a drag. A drag that returns exactly to its start point therefore draws a second
  line from there (`Lines.ReturnToStartSplitsDrag`), and one undo removes only that
  second line.

## Model

| member | source | states |
|---|---|---|
| `Tools.ToolIndex` | ios-photo-editor/MainScreen/ToolViews.swift:87-217 | each tool button stores an index in 0..5 that reads back as that same tool |
| `Tools.ToolAt` | ios-photo-editor/MainScreen/ToolViews.swift:87-217 | exactly the indices 0..5 name a tool |
| `Tools.ToolAtIndex` | ios-photo-editor/MainScreen/ToolViews.swift:87-217 | an index that names a tool is that tool's button index: the round trip in the other direction |
| `Tools.LabelOffset` | ios-photo-editor/MainScreen/ToolViews.swift:105 | a button's label is offset by -45 exactly when the selection holds its own index, and by 0 otherwise |
| `Tools.AtMostOneRaised` | ios-photo-editor/MainScreen/ToolViews.swift:105-225 | whatever the selection, at most one tool's label is raised |
| `Tools.BoundColor` | ios-photo-editor/MainScreen/ToolViews.swift:20-30 | only pen, brush, neon and pencil carry a colour binding; lasso and eraser have none; no tool gets the text colour |
| `Tools.BoundColorInjective` | ios-photo-editor/MainScreen/ToolViews.swift:20-27 | no two tools share a colour binding |
| `Tools.ColorSet.constructor` | ios-photo-editor/MainScreen/ToolViews.swift:66-72 | `ColorSet(default: c)` has pen = brush = neon = pencil = c and text = black |
| `Tools.ColorSet.Get` | ios-photo-editor/MainScreen/ToolViews.swift:60-64 | the getter of each colour binding reads exactly the field it names |
| `Tools.ColorSet.Set` | ios-photo-editor/MainScreen/ToolViews.swift:60-64 | writing through one colour's binding changes that colour and no other |
| `Tools.AllToolsView.constructor` | ios-photo-editor/MainScreen/ToolViews.swift:15-17 | the palette starts with the tool type, selection and colour set it is bound to |
| `Tools.AllToolsView.Tap` | ios-photo-editor/MainScreen/ToolViews.swift:87-217 | a tap stores that tool's index and raises only that tool; the tool type and every colour are unchanged; the new state does not depend on the old selection, so a second tap of the same tool changes nothing |
| `Lines.Stroked` | ios-photo-editor/MainScreen/ViewModel/DrawCanvas.swift:33-43 | a zero-translation event appends exactly one line `[position]` in the current colour; any other event keeps the count, appends the position to the last line's points and keeps its colour, or leaves an empty drawing empty; no line before the last changes |
| `Lines.StrokedKeepsNonEmpty` | ios-photo-editor/MainScreen/ViewModel/DrawCanvas.swift:37-41 | both branches of the handler keep every line non-empty |
| `Lines.ReplayKeepsNonEmpty` | ios-photo-editor/MainScreen/ViewModel/DrawCanvas.swift:33-43 | no sequence of drag events produces an empty line |
| `Lines.ReplayKeepsEarlierLines` | ios-photo-editor/MainScreen/ViewModel/DrawCanvas.swift:33-43 | under any sequence of drag events the line count never decreases, and every line before the last one is never modified |
| `Lines.ContinueOnEmpty` | ios-photo-editor/MainScreen/ViewModel/DrawCanvas.swift:39 | non-zero-translation events on an empty drawing leave it empty |
| `Lines.ContinueExtendsLast` | ios-photo-editor/MainScreen/ViewModel/DrawCanvas.swift:38-41 | continuation events append their positions, in order, to the last line only; its colour stays the one it was created with, whatever colour is current later |
| `Lines.GestureBuildsLine` | ios-photo-editor/MainScreen/ViewModel/DrawCanvas.swift:33-43 | one zero-translation event followed by n other events adds one line whose points are exactly those n+1 positions in order, in the colour current at the start, and leaves earlier lines as they were |
| `Lines.Render` | ios-photo-editor/MainScreen/ViewModel/DrawCanvas.swift:25-29 | the canvas's draw loop issues exactly one stroke per line |
| `Lines.RenderAt` | ios-photo-editor/MainScreen/ViewModel/DrawCanvas.swift:25-29 | on screen, every line is stroked in list order through its own points, in its own colour, with width 5 |
| `Lines.ReplayKeepsLineColors` | ios-photo-editor/MainScreen/ViewModel/DrawCanvas.swift:33-43 | under any sequence of drag events every existing line, the last one included, keeps the colour it was created with, whatever colour is current later, and its old points stay a prefix of its new points |
| `Lines.ReturnToStartSplitsDrag` | ios-photo-editor/MainScreen/ViewModel/DrawCanvas.swift:36-37 | a single drag (0,0), (1,0), (0,0) draws two lines, because the event back at the start point has zero translation again |
| `Lines.DrawCanvas.constructor` | ios-photo-editor/MainScreen/ViewModel/DrawCanvas.swift:18-20 | the view starts with the lines, colour and canvas size it is bound to |
| `Lines.DrawCanvas.Redraw` | ios-photo-editor/MainScreen/ViewModel/DrawCanvas.swift:23-30 | drawing records the drawn size as `canvasSize`, issues exactly the strokes `Render` gives, and does not modify the lines |
| `Lines.DrawCanvas.OnChanged` | ios-photo-editor/MainScreen/ViewModel/DrawCanvas.swift:33-43 | the in-place handler leaves the lines equal to `Stroked` of the old lines with the selected colour; the colour and canvas size are unchanged |
| `Canvas.GestureAttached` | ios-photo-editor/MainScreen/CanvasToDraw.swift:27 | the drag gesture is attached exactly when the tool type is text or a tool is selected; that events then reach the lines, and otherwise never do, is stated by `Canvas.AttachedDeliversAll`, `Canvas.DetachedIgnoresEvents` and `Canvas.CanvasToDraw.Receive` |
| `Canvas.DetachedIgnoresEvents` | ios-photo-editor/MainScreen/CanvasToDraw.swift:27-28 | in draw mode with no tool selected, no sequence of drag events changes the lines |
| `Canvas.AttachedDeliversAll` | ios-photo-editor/MainScreen/CanvasToDraw.swift:27-40 | while the gesture is attached, the canvas behaves exactly as the ungated handler of `DrawCanvas` |
| `Canvas.CanvasToDraw.constructor` | ios-photo-editor/MainScreen/CanvasToDraw.swift:13-17 | the view starts with the tool state, size, lines and colour it is bound to |
| `Canvas.CanvasToDraw.Redraw` | ios-photo-editor/MainScreen/CanvasToDraw.swift:20-26 | drawing records the drawn size as `canvasSize`, issues exactly the strokes `Render` gives (width 5), and does not modify the lines or the tool state |
| `Canvas.CanvasToDraw.OnChanged` | ios-photo-editor/MainScreen/CanvasToDraw.swift:30-40 | the in-place handler leaves the lines equal to `Stroked` of the old lines with the current colour; nothing else changes |
| `Canvas.CanvasToDraw.Receive` | ios-photo-editor/MainScreen/CanvasToDraw.swift:27-40 | an arriving event reaches the handler only when the gesture is attached; otherwise the lines stay unchanged |
| `Editor.Undone` | ios-photo-editor/MainScreen/EditorView.swift:159 | popping N >= 1 lines leaves the first N-1 lines unchanged and in order; an empty drawing stays empty |
| `Editor.UndoneKeepsNonEmpty` | ios-photo-editor/MainScreen/EditorView.swift:159 | undo keeps every remaining line non-empty, so the invariant the drag handler keeps holds for every operation that changes the drawing (clear-all leaves no line) |
| `Editor.UndoRemovesGesture` | ios-photo-editor/MainScreen/EditorView.swift:159 | undo after a gesture restores the drawing from before it, when no event of the drag after the first is back at zero translation (a drag that returns to its start point draws two lines, see `Lines.ReturnToStartSplitsDrag`) |
| `Editor.CancelAction` | ios-photo-editor/MainScreen/EditorView.swift:42-48 | cancel deselects exactly when in draw mode with the canvas gesture attached, and opens the exit alert exactly when in text mode or with no tool selected |
| `Editor.ColorBindingTarget` | ios-photo-editor/MainScreen/EditorView.swift:203-221 | text mode edits the text colour; in draw mode the selected tool's own button colour (indices 0-3: pen, brush, neon, pencil); lasso, eraser, any other index or no selection give a detached binding |
| `Editor.ExportScale` | ios-photo-editor/MainScreen/EditorView.swift:182 | the scale is positive, satisfies scale * canvasWidth = originWidth, and is exactly 1 when the canvas size is unknown |
| `Platform.Point.Scaled` | ios-photo-editor/MainScreen/EditorView.swift:188 | the uniform scale about the origin: scaling by 1 keeps the point, scaling by s != 0 is undone by multiplying by 1/s, and the origin stays fixed |
| `Editor.ScalePoints` | ios-photo-editor/MainScreen/EditorView.swift:187-189 | mapping the transform over a line's points keeps their number |
| `Editor.ExportLine` | ios-photo-editor/MainScreen/EditorView.swift:186-191 | one line's export stroke keeps the line's colour and point count and has width 5 * s |
| `Editor.Exported` | ios-photo-editor/MainScreen/EditorView.swift:185-192 | the export loop issues exactly one stroke per snapshot line |
| `Editor.ScalePointsAt` | ios-photo-editor/MainScreen/EditorView.swift:187-189 | the mapped points keep their number and order, and each is (x * scale, y * scale), with the same factor on both axes |
| `Editor.ScalePointsInverse` | ios-photo-editor/MainScreen/EditorView.swift:187-189 | scaling by a non-zero factor and then by its inverse recovers the original points |
| `Editor.ScalePointsByOne` | ios-photo-editor/MainScreen/EditorView.swift:187-189 | scaling by 1 leaves the points unchanged |
| `Editor.ExportedAt` | ios-photo-editor/MainScreen/EditorView.swift:185-192 | the export has one stroke per snapshot line, in order, each that line's own scaled stroke |
| `Editor.ExportLineShape` | ios-photo-editor/MainScreen/EditorView.swift:186-191 | one line's exported stroke keeps its colour and point count, maps each point to (x * s, y * s), and has width 5 * s |
| `Editor.ExportPreservesLines` | ios-photo-editor/MainScreen/EditorView.swift:185-191 | export preserves the number of lines, their order, each line's point count and colour, scales every point uniformly, and strokes every line with width 5 * scale |
| `Editor.ExportAtUnitScale` | ios-photo-editor/MainScreen/EditorView.swift:182-191 | at scale 1 the export is exactly the on-screen rendering |
| `Editor.ExportExample` | ios-photo-editor/MainScreen/EditorView.swift:182-191 | a line (0,0)-(10,0) on a 100-wide canvas over a 200-wide photo exports at scale 2 as (0,0)-(20,0) with width 10 |
| `Editor.EditorView.constructor` | ios-photo-editor/MainScreen/EditorView.swift:16-31 | a session starts in draw mode with no tool selected, no canvas size, no lines, no alert, every draw colour cyan and text black |
| `Editor.EditorView.Undo` | ios-photo-editor/MainScreen/EditorView.swift:159 | the undo button leaves the lines equal to `Undone` of the old lines and changes nothing else |
| `Editor.EditorView.ClearAll` | ios-photo-editor/MainScreen/EditorView.swift:167 | clear-all leaves an empty drawing whatever the prior state, and changes nothing else |
| `Editor.EditorView.Cancel` | ios-photo-editor/MainScreen/EditorView.swift:42-48 | outside draw mode or with no tool selected it only sets `presentExitAlert`; otherwise it only sets `selectedDrawTool` to nil, which detaches the canvas gesture |
| `Editor.EditorView.Leave` | ios-photo-editor/MainScreen/EditorView.swift:56-57 | choosing "Leave" sets `imageData` to nil and changes nothing else |
| `Editor.EditorView.SelectToolType` | ios-photo-editor/MainScreen/EditorView.swift:78-83 | the segmented picker sets the tool type and changes nothing else |
| `Editor.EditorView.RequestSave` | ios-photo-editor/MainScreen/EditorView.swift:107-108 | the download button opens the save dialog and changes nothing else |
| `Editor.EditorView.RecordCanvasSize` | ios-photo-editor/MainScreen/EditorView.swift:139 | the canvas's binding write records the drawn size and changes nothing else |
| `Editor.EditorView.PickerColor` | ios-photo-editor/MainScreen/EditorView.swift:203-221 | the picker shows the bound colour, the text colour in text mode, and transparent through a detached binding |
| `Editor.EditorView.PickColor` | ios-photo-editor/MainScreen/EditorView.swift:37 | picking a colour sets exactly the bound colour and no other; through a detached binding nothing changes |
| `Editor.EditorView.SaveImage` | ios-photo-editor/MainScreen/EditorView.swift:176-197 | the export is a photo-sized image holding exactly `Exported` of the lines and scale taken at the call; the editor's state, `drawnLines` included, is not changed |

## Left out

- `Editor.ExportScale` requires a positive canvas width when the canvas size is known,
  because the source divides by it unguarded and a zero divisor gives an IEEE infinity
  or NaN, which `real` cannot represent. It also requires a positive photo width. A photo
  decoded by `UIImage(data:)` always has one, and `ensures scale > 0.0` depends on it.
  Without it, a zero photo width over a known canvas would give a finite scale of 0, and
  over an unknown canvas 0 / 0 = NaN.
- `Editor.UndoRemovesGesture` is stated only for drags whose later events never return to
  zero translation. Such a drag draws several lines and one undo removes only the last;
  `Lines.ReturnToStartSplitsDrag` shows the case.
- `Editor.EditorView.SaveImage` carries both requirements of `Editor.ExportScale`: a
  positive photo width (`originSize.width`) and a positive canvas width when the canvas
  size is known. It does not model the `fatalError` taken when `ImageRenderer` yields no
  image. Its result is the stroke data over a photo-sized canvas, not pixels.
- Rasterisation and compositing are left out: `Path`, `context.stroke`, `Image(size:)`,
  `ImageRenderer` and the `ZStack` overlay. They are library calls. The model returns the
  strokes they would be given, with round caps and joins implied.
- `UIImageWriteToSavedPhotosAlbum` is left out (I/O).
- The `fatalError` paths of `EditorView.init` and `UserData` are left out. So is decoding
  a `UIImage` from data. `MainScreen/Model/UserData.swift` and its screen-relative zoom
  scale are not part of this model (foreign platform calls and screen geometry). The
  constructor takes the decoded photo's size as a parameter.
- The mismatched wiring between views is left out: `colorSet:` is passed where
  `CanvasToDraw` expects `currentColor:`, and `UserData(image:)` is called where only
  `init(imageData:)` exists. Each view's own logic is modelled, with its bindings as
  fields, and `Editor.EditorView.RecordCanvasSize` stands for the canvas writing through
  `$canvasSize`.
- SwiftUI resetting `presentExitAlert` and `presentSaveAlert` when an alert is dismissed
  is left out (framework behaviour). So are the "Stay" and "Cancel" buttons, which do
  nothing.
- `print` calls are left out ("Show tool info action", "Add text on screen", "creating
  image"): console output.
- Layout is left out: `Zoomable`, blur and backdrop views, padding and frames.
- `ios-photo-editor/EditorView.swift` is an older prototype. It is not part of this
  model, and neither are `PhotoSelection/PhotoSelectionView.swift` (asynchronous photo
  picking) or `App.swift` (entry point and persistence).
- IEEE floating point is not modelled: coordinates, sizes and widths are exact reals.
- The second, identical `struct Line` in `EditorView.swift:233-236` is modelled once, as
  `Lines.Line`.
