# Spacecraft Rendering Tools — a Dafny model of the viewer's core

The Spacecraft Rendering Tools viewer loads a time series of triangle meshes, one text line
per time step, and shows one mesh at a time. It draws the mesh in one of three visualisation
modes: WIREFRAME, SHADOW (a per-triangle self-shadowing factor) or TEMPERATURE (a synthetic
per-triangle scalar). In the two scalar modes it adds a colour legend. The camera is an arcball
that rotates with the left button, pans with the middle and right buttons and zooms with the
wheel. The control panel can save a PNG screenshot.

The model has one module per part of the program:

- `Common`: Option, vectors, colours and 4x4 matrices.
- `Mesh`: the `MeshData` constructor (`include/utilities.h`). It decodes a flat record into
  3T vertices and the rotated sun vector.
- `Dataset`: `loadMesh` without the file open (`src/application.cpp`). A line is the sequence
  of outcomes of the stream extractions `iss >> val`. The lines are read into records, and the
  records are assembled into the time → mesh map and the `times_` list.
- `Camera`: the arcball, pan and zoom arithmetic of `onMouseMove` and `onScroll`. The
  floating-point geometry is a `Maths` value of opaque functions handed to the application:
  `mapToSphere`, the angle-axis delta rotation, quaternion normalisation, the camera axes,
  `lookAt` and `perspective`. Every property holds whatever those functions are.
- `Colors`: `floatToColor` and the arithmetic of the vertical and horizontal colorbars. This
  covers the 100 gradient segments, the six ticks and labels, the border and the centred title.
- `Rendering`: `Renderer::renderMesh` (`src/utilities.cpp`) as the list of OpenGL calls it
  issues. An interpreter replays the list and records the state every draw pass sees.
- `Screenshot`: the row stride and buffer layout of `screenshot()`, and the 256-character
  path buffer the constructor fills.
- `Application`: the class `SpacecraftRenderingTools`. It holds the viewer's fields, the
  constructor, `loadMesh`, the input callbacks, `setMode` and the mode combo box, the colorbar
  drawing, and one frame of `updateRender`. A frame is a sequence of `FrameStep`s: clear,
  GUI frame, mesh passes, legend, control panel, GUI render and screenshot.

The class invariant `Valid` is kept by the constructor, `loadMesh`, the input callbacks, the
mode combo box (`SelectMode`) and `updateRender`. `SetMode` on its own only sets the mode; its
one caller, the combo box, stores the same number in `setMode_` first and so restores `Valid`.
The invariant says:

- the camera is never closer than distance 1;
- the mode the renderer uses is the one the combo box selected;
- the path buffer holds a terminated string;
- `times_` lists exactly the keys of the mesh map.

Floats are modelled as reals. C++'s `int(x)` conversion is written out as truncation toward
zero (`Colors.Truncate`). The record's nine matrix values are passed to `glm::mat3` as
columns, which makes the record's matrix row-major. The SHADOW ramp goes from white at 0
(g = b = 255·(1 − 0)) to red at 1.

## Model

| member | source | states |
|---|---|---|
| Mesh.ModeOf | include/utilities.h:73-77 | `VisualizationMode(n)` for n in 0..2 yields the mode whose enum value is n |
| Mesh.ModeNumbering | include/utilities.h:73-77 | every mode's value is in 0..2, and converting that value back gives the same mode |
| Mesh.TriangleCount | include/utilities.h:45 | T = (len − 13) / 10 rounded down: 13 + 10T ≤ len < 13 + 10T + 10 |
| Mesh.CoordinateInRecord | include/utilities.h:45-56 | every coordinate index the loops read lies after the shadow block and inside the record; the last one is 13 + 10T − 1 |
| Mesh.SunPositionRowMajor | include/utilities.h:36-42 | the sun vector is the record's nine values read as a row-major matrix times the inertial sun vector |
| Mesh.DecodeRecord | include/utilities.h:33-63 | the constructor's nested loops produce exactly the mesh `MeshOf(record)`: vertex 3i+j is corner j of triangle i |
| Mesh.VertexCount | include/utilities.h:45-61 | the mesh has exactly 3T vertices, a multiple of three |
| Mesh.VertexLayout | include/utilities.h:48-58 | vertex 3i+j takes its position from record[13+T+9i+3j ..], its shadow from record[13+i] and temperature i/T |
| Mesh.TemperatureRamp | include/utilities.h:50 | the synthetic temperatures start at 0, lie in [0, 1) and never decrease along the vertices |
| Mesh.TrailingValuesIgnored | include/utilities.h:45-61 | up to nine values past 13 + 10T do not change the mesh |
| Mesh.TimestampNotStored | include/utilities.h:33-63 | the timestamp at index 0 is not part of the decoded mesh |
| Mesh.TwoTriangleTemperatures | include/utilities.h:50 | a 33-value record gives six vertices with temperatures 0, 0, 0, ½, ½, ½ |
| Dataset.NumbersOfIsParsedPrefix | src/application.cpp:71-76 | a line's values are the longest run of successful extractions at its start: in order, stopping at the end or at the first failure |
| Dataset.ReadLine | src/application.cpp:74-76 | the inner extraction loop returns exactly the line's parsed prefix |
| Dataset.RecordsConcat | src/application.cpp:69-80 | each line contributes its own record, or nothing when it gave no number, in file order |
| Dataset.RecordsNonEmpty | src/application.cpp:77-79 | no kept record is empty, and there are never more records than lines |
| Dataset.ReadRecords | src/application.cpp:69-80 | the getline loop yields exactly the non-empty records of the lines, in order |
| Dataset.TimesOf | src/application.cpp:86 | `times_` gets one entry per record, the record's first value, in record order |
| Dataset.LoadStep | src/application.cpp:83-87 | one more iteration stores the record's mesh under its timestamp and appends the timestamp |
| Dataset.AssembleKeys | src/application.cpp:83-87 | after loading, the map's keys are the old keys plus every record's timestamp, and nothing else |
| Dataset.AssemblePreservesTimes | src/application.cpp:83-87 | loading keeps `times_` and the map's keys in step, both ways |
| Dataset.AssembleLastWins | src/application.cpp:85 | with duplicate timestamps the last record with that timestamp supplies the mesh |
| Dataset.AssembleKeepsOthers | src/application.cpp:85 | a key that no record names keeps its old mesh |
| Camera.NoMotionNoAxis | src/application.cpp:232-234 | a cursor that has not moved since the press gives a zero axis, below the 0.0001 threshold |
| Camera.ArcballIsRelativeToPress | src/application.cpp:228-248 | once the axis passes the threshold, the new rotation does not depend on the previous rotation; a cursor back on the press point leaves the rotation unchanged |
| Camera.IdentityDeltaKeepsStart | src/application.cpp:239-246 | an identity delta rotation leaves the drag at the normalised start rotation, the same result as while ImGui wants the mouse |
| Camera.PanMovesAgainstDrag | src/application.cpp:261-262 | panning moves the offset against the cursor delta along the camera's right and up axes; a zero delta leaves it unchanged |
| Camera.PanMoveScalesWithDistance | src/application.cpp:250-266 | returning to the last cursor position leaves the offset unchanged; a move shifts it by the delta times distance × 0.002, with window y pointing down |
| Camera.Zoom | src/application.cpp:286-294 | the new distance is d − 5·yoffset when that exceeds 1, otherwise exactly 1, so it is never below 1 |
| Camera.ZoomDirection | src/application.cpp:286-294 | scrolling forward never moves the camera away, scrolling back never moves it closer, and a zero scroll changes nothing |
| Colors.Truncate | src/application.cpp:373-380 | `int(x)` truncates toward zero: the result is within one of x, on the zero side |
| Colors.FloatToColor | src/application.cpp:361-386 | alpha 255; SHADOW keeps red at 255 with equal green and blue; TEMPERATURE has green 0; for t in [0, 1] every channel is a byte |
| Colors.RampEnds | src/application.cpp:361-386 | SHADOW runs from white at 0 to red at 1, TEMPERATURE from blue at 0 to red at 1 |
| Colors.RampMonotone | src/application.cpp:371-382 | as t grows, SHADOW green/blue and TEMPERATURE blue never grow, and TEMPERATURE red never shrinks |
| Colors.ScaleOf | src/application.cpp:399-414 | every scalar mode's legend range is non-empty (min < max) |
| Colors.ScaleTable | src/application.cpp:399-414 | SHADOW shows [0, 1] titled "f [-]"; TEMPERATURE shows [250, 300] titled "T [K]" |
| Colors.VerticalSegmentsTile | src/application.cpp:424-439 | the 100 vertical segments are equally high and stack without gap from top to bottom; the colours join and run from value 1 at the top to 0 at the bottom |
| Colors.VerticalLabelsSpan | src/application.cpp:447-464 | the vertical labels run from the maximum at the top to the minimum at the bottom in five equal steps |
| Colors.VerticalLegendConsistent | src/application.cpp:424-464 | tick i sits where segment 20i begins, and its label prints the value whose position on the ramp gives that segment's colour |
| Colors.VerticalSegmentsInside | src/application.cpp:424-444 | for a positive size every vertical segment lies inside the border |
| Colors.VerticalTicksOnEdge | src/application.cpp:442-456 | every vertical tick starts on the border's right edge, between its top and bottom |
| Colors.VerticalTitleCentred | src/application.cpp:417-470 | the vertical legend has 100 segments and six ticks and labels; its title is centred over the bar, above it |
| Colors.HorizontalSegmentsTile | src/application.cpp:499-514 | the 100 horizontal segments are equally wide and sit side by side from left to right, from value 0 on the left to 1 on the right |
| Colors.HorizontalShadedTopToBottom | src/application.cpp:507-513 | as written, a horizontal segment has equal top corners and equal bottom corners, and its top and bottom colours differ: it shades top to bottom |
| Colors.HorizontalIntendedShading | src/application.cpp:499-514 | corrected corner order: each segment covers the same rectangle, its left edge has the colour of i/100 and its right edge that of (i + 1)/100, and neighbours meet in the same colour |
| Colors.HorizontalLabelsSpan | src/application.cpp:522-539 | the horizontal labels run from the minimum on the left to the maximum on the right in five equal steps |
| Colors.HorizontalLegendConsistent | src/application.cpp:499-539 | tick i sits where segment 20i begins, and its label prints the value whose position on the ramp gives that segment's colour |
| Colors.HorizontalSegmentsInside | src/application.cpp:499-519 | for a positive size every horizontal segment lies inside the border |
| Colors.HorizontalTicksOnEdge | src/application.cpp:517-531 | every horizontal tick starts on the border's bottom edge, between its left and right |
| Colors.HorizontalTitleCentred | src/application.cpp:492-545 | the horizontal legend has 100 segments and six ticks and labels; its title is centred over the bar, above it |
| Colors.PaintVerticalSegments | src/application.cpp:424-439 | the vertical segment loop draws exactly the 100 segments of the vertical legend |
| Colors.PaintVerticalLabels | src/application.cpp:447-464 | the vertical label loop draws exactly the six ticks and labels of the vertical legend |
| Colors.PaintHorizontalSegments | src/application.cpp:499-514 | the horizontal segment loop draws exactly the 100 segments of the horizontal legend |
| Colors.PaintHorizontalLabels | src/application.cpp:522-539 | the horizontal label loop draws exactly the six ticks and labels of the horizontal legend |
| Rendering.Renderer.constructor | include/utilities.h:90-95 | the renderer holds the program, buffer and uniform handles, and the wireframe overlay starts on |
| Rendering.Renderer.Upload | src/utilities.cpp:104-113 | the buffer holds exactly the mesh's vertices, the program is in use, view and projection are set, and nothing is drawn yet |
| Rendering.Renderer.OffsetOverlay | src/utilities.cpp:136-148 | the overlay is one grey line pass with polygon offset (−1, −1), and the offset is switched off again afterwards |
| Rendering.Renderer.RenderMesh | src/utilities.cpp:97-152 | WIREFRAME draws one grey line pass. The scalar modes draw one filled pass with the mode's uniform, plus an offset grey line pass exactly when the overlay is on. Every pass draws all vertices with the given transforms, and no vertex array is left bound |
| Rendering.Renderer.WireframePasses | src/utilities.cpp:116-125 | after the upload, WIREFRAME draws one line pass with the mode uniform at 0 and the grey colour |
| Rendering.Renderer.FilledPasses | src/utilities.cpp:127-148 | after the upload, a scalar mode draws a filled pass and then, when the overlay is on, the offset grey line pass |
| Screenshot.RowStride | src/application.cpp:554-556 | the stride is a multiple of 4 and within 3 bytes of 3·width |
| Screenshot.StrideIsRoundedUp | src/application.cpp:554-556 | the stride is the smallest multiple of 4 that holds a row, 4·⌈3·width/4⌉ |
| Screenshot.NoPaddingForWidthsDivisibleByFour | src/application.cpp:554-556 | a width divisible by four needs no padding |
| Screenshot.WindowWidthMismatch | src/application.cpp:563 | as written, the PNG width is `windowWidth_`: it shows half of every row, or reads past the buffer, when that differs from the framebuffer width |
| Screenshot.CaptureOf | src/application.cpp:550-564 | corrected capture: with the framebuffer width, every row the PNG writer reads lies in the buffer and the image is the whole area read, flipped, with 3 channels |
| Screenshot.CaptureAgreesWhenWidthsMatch | src/application.cpp:550-564 | when the window and framebuffer widths agree, the capture as written equals the corrected capture |
| Screenshot.CString | include/application.h:28-31 | a buffer's C string is its prefix before the first NUL |
| Screenshot.PathBuffer | include/application.h:28-31 | the path buffer has 256 characters and ends with NUL |
| Screenshot.PathBufferRoundTrip | include/application.h:28-31 | reading the buffer back gives the current directory, cut to 255 characters |
| Application.FrameOrder | src/application.cpp:144-173 | a screenshot is saved exactly when requested, right after the captured scene is rendered; the control panel is drawn once, after any capture, so it never appears in a screenshot |
| Application.Scene | src/application.cpp:161-170 | every step of a scene is a clear, a GUI frame, the mesh passes or the legend |
| Application.SpacecraftRenderingTools.constructor | include/application.h:18-33 | the initial state: distance 100, identity rotation, WIREFRAME, white background, colorbar defaults, no drag or pan, no screenshot pending, the path buffer filled from the current directory |
| Application.SpacecraftRenderingTools.LoadMesh | src/application.cpp:59-89 | all records are stored under their timestamps, `times_` is extended by the timestamps, the triangle count comes from the first record, and the time starts at the first entry of `times_`, which has a mesh |
| Application.SpacecraftRenderingTools.Install | src/application.cpp:81-88 | the bookkeeping after the read loop keeps `times_` and the map's keys in step |
| Application.SpacecraftRenderingTools.StoreRecords | src/application.cpp:83-87 | the loop leaves the map and `times_` as the assembled ones, and keeps them in step |
| Application.SpacecraftRenderingTools.OnMouseButton | src/application.cpp:197-221 | a left press starts a drag from the current rotation and the cursor's sphere point, and a left release ends it. A middle or right press starts panning at the cursor, and its release ends it. Nothing else changes |
| Application.SpacecraftRenderingTools.OnMouseMove | src/application.cpp:223-267 | while dragging, the rotation is the arcball rotation relative to the press. While panning, the offset moves by the distance-scaled pan along the new camera axes, and the cursor is remembered. Otherwise nothing changes |
| Application.SpacecraftRenderingTools.DragTo | src/application.cpp:228-248 | the dragging half: the rotation is the arcball rotation from the press state |
| Application.SpacecraftRenderingTools.PanTo | src/application.cpp:250-266 | the panning half: the offset moves by the distance-scaled pan and the cursor is remembered |
| Application.SpacecraftRenderingTools.OnScroll | src/application.cpp:286-294 | the distance becomes the clamped zoom, never below 1 |
| Application.SpacecraftRenderingTools.OnResize | src/application.cpp:296-300 | the window size is stored |
| Application.SpacecraftRenderingTools.SetMode | src/application.cpp:357-359 | the mode becomes the one with the given number |
| Application.SpacecraftRenderingTools.SelectMode | src/application.cpp:114-116 | the combo box's choice is stored in `setMode_` and the mode follows it |
| Application.SpacecraftRenderingTools.DrawColorbarVertical | src/application.cpp:397-471 | draws exactly the vertical legend for the current placement, mode and title width |
| Application.SpacecraftRenderingTools.DrawColorbarHorizontal | src/application.cpp:472-546 | draws exactly the horizontal legend for the current placement, mode and title width |
| Application.SpacecraftRenderingTools.DrawColorbar | src/application.cpp:388-395 | draws the vertical legend when `verticalColorbar_` is non-zero, otherwise the horizontal one |
| Application.SpacecraftRenderingTools.DrawScene | src/application.cpp:161-170 | the scene is the clear with the background, a GUI frame, the mesh as `renderMesh` draws it, and the legend exactly in the two scalar modes |
| Application.SpacecraftRenderingTools.UpdateRender | src/application.cpp:133-175 | sets view and projection. If the current time has a mesh, the frame is the capture frame when a screenshot was requested (clearing the request), saving the capture as written, with `windowWidth_` as the image width; then the shown scene, the control panel and the GUI render. Otherwise the frame ends at the failed lookup and the request is kept |
| Application.SpacecraftRenderingTools.DrawFrame | src/application.cpp:144-173 | the found-mesh half of `updateRender`: the frame is `FrameOf` the as-written capture (image width `windowWidth_`), the captured scene and the shown scene, and the request is cleared |
| Application.SpacecraftRenderingTools.ClickInPlace | src/application.cpp:197-248 | a left click released where it was pressed leaves the rotation unchanged and ends the drag |

## Left out

- Window creation, the GLFW event loop (`init`, `mainLoop`, `main`), shader loading and compilation, and `Renderer::init`'s GL object creation: these are platform and GPU I/O. The renderer's handles are constructor parameters.
- `drawGUI` apart from the view-mode combo box (`SelectMode`) and the screenshot request flag. The time slider, colour editor, overlay checkbox, colorbar sliders and the path text field are ImGui widgets that edit fields directly.
- The file open in `loadMesh` and its "path does not exist" exception, and number parsing itself: a line arrives as the outcomes of its stream extractions.
- Application.SpacecraftRenderingTools.LoadMesh: requires at least one record and every record of at least 13 values. The source indexes `allData[0]` and `record[1..12]` unchecked, so those inputs are undefined behaviour, not an error path.
- Float rounding: every `float(...)` and `double` conversion is exact in the model. In particular timestamps are not rounded to `float` before they become map keys, so two timestamps that differ only beyond float precision stay distinct here.
- Camera.Zoom: computed over the reals, not in single precision.
- The geometry behind `Camera.Maths`: `mapToSphere`, `acos`/`angleAxis`, quaternion normalisation, `mat3_cast`, `lookAt` and `perspective` involve square roots and trigonometry. They are opaque functions, so no property depends on them. `rotationBetweenVectors` is declared but never used by the core.
- `IM_COL32` packing of colours into 32 bits, the "%.1f" formatting of labels, font size, and ImGui's text width. The text width is a parameter.
- The colorbar's border, tick and text colours: the model records positions and values.
- `glViewport` in `onResize`, and the GL read-back, PNG encoding and file write of `screenshot()`. The model records the capture's layout.
- The GUI request flag `takeScreenshot_` is set by a button in `drawGUI`; the model takes it as state.
- Mode numbers outside 0..2 in `setMode`: the combo box only produces 0..2.
- `floatToColor` for WIREFRAME, which leaves its channels uninitialised: it is never called in that mode.
- `tempMax_`, `tempMin_`, `temperatureMax_` and `temperatureMin_`: these fields are never written or read by the core.

## Findings

| source | as written | input that shows it | evidently intended | confidence | as-written member | corrected member |
|---|---|---|---|---|---|---|
| src/application.cpp:563 | `stbi_write_png` gets `windowWidth_` as the image width, though the buffer was read at the framebuffer width `fbWidth` with a stride derived from it | a 2560×1920 framebuffer in a 1280-wide window (a high-density display) gives a PNG of the left half of every row; a 500-wide framebuffer with `windowWidth_` 1000 makes the writer read 3000-byte rows from a 1500-byte stride, past the end of the buffer | the image width is `fbWidth`, so the PNG is exactly the framebuffer read back | not executed | Screenshot.WindowWidthMismatch | Screenshot.CaptureOf |
| src/application.cpp:507-513 | the horizontal bar passes its corner colours as (c1, c1, c2, c2), copied from the vertical bar; in ImGui's corner order (upper-left, upper-right, bottom-right, bottom-left) each segment then shades from its top edge to its bottom edge | the first SHADOW segment is white along its top edge and (255, 252, 252) along its bottom edge, with equal left and right corners | (c1, c2, c2, c1), shading each segment from left to right along the bar | not executed | Colors.HorizontalShadedTopToBottom | Colors.HorizontalIntendedShading |

The frame and the legend keep the behaviour as written: `DrawFrame` saves
`CaptureAsWritten` and `DrawColorbarHorizontal` draws `HorizontalSegment`. The corrected
definitions sit beside them. `Screenshot.CaptureAgreesWhenWidthsMatch` shows that the saved
capture equals `CaptureOf` whenever `windowWidth_` equals the framebuffer width.
