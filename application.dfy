/** SpacecraftRenderingTools (include/application.h, src/application.cpp): the viewer's state,
    its input callbacks, mesh loading, the colorbar and one frame of updateRender.

    The window system, ImGui and OpenGL are outside the model. What they hand in becomes a
    parameter: the cursor position of a button event, whether ImGui wants the mouse, the
    framebuffer size read for a screenshot, the current directory, and the ImGui text width of
    the legend title. A frame is described by the steps it takes (FrameStep), the mesh draw
    by the GL calls it issues. */
module Application {
  import opened Common
  import opened Mesh
  import opened Dataset
  import opened Camera
  import opened Colors
  import opened Rendering
  import opened Screenshot

  // GLFW's mouse button and action codes.
  const MouseButtonLeft: int := 0
  const MouseButtonRight: int := 1
  const MouseButtonMiddle: int := 2
  const Release: int := 0
  const Press: int := 1

  /** One step of a frame. */
  datatype FrameStep =
    | Clear(background: Color4)           // glClearColor + glClear of colour and depth
    | NewGuiFrame                         // the ImGui backends' NewFrame and ImGui::NewFrame
    | MeshPasses(calls: seq<GlCall>)      // renderer_.renderMesh
    | Legend(bar: Colorbar)               // drawColorbar
    | ControlPanel                        // drawGUI
    | RenderGui                           // ImGui::Render and RenderDrawData
    | SaveScreenshot(capture: Capture)    // screenshot()
    | LookupFailed(time: real)            // spacecraftData_.at(time_) throws std::out_of_range

  /** The steps that draw the scene itself. */
  predicate SceneStep(s: FrameStep)
  {
    s.Clear? || s.NewGuiFrame? || s.MeshPasses? || s.Legend?
  }

  /** The scene: clear, start a GUI frame, draw the mesh, then the legend if one is shown. */
  function Scene(background: Color4, calls: seq<GlCall>, legend: Option<Colorbar>): (scene: seq<FrameStep>)
    ensures forall k :: 0 <= k < |scene| ==> SceneStep(scene[k])
  {
    [Clear(background), NewGuiFrame, MeshPasses(calls)] + (if legend.Some? then [Legend(legend.value)] else [])
  }

  /** A frame of updateRender once the mesh was found: when a screenshot was requested, the
      scene is drawn and rendered and the capture taken; then the scene is drawn again with
      the control panel on top and rendered. */
  function FrameOf(capture: Option<Capture>, captured: seq<FrameStep>, shown: seq<FrameStep>): seq<FrameStep>
  {
    (if capture.Some? then captured + [RenderGui, SaveScreenshot(capture.value)] else [])
    + shown + [ControlPanel, RenderGui]
  }

  /** The order within a frame: a screenshot is saved exactly when one was requested, right
      after the captured scene was rendered; the control panel is drawn once, after any
      capture, so it never appears in a screenshot; and the frame ends with the shown scene,
      the control panel and the GUI rendering. */
  lemma FrameOrder(capture: Option<Capture>, captured: seq<FrameStep>, shown: seq<FrameStep>)
    requires forall k :: 0 <= k < |captured| ==> SceneStep(captured[k])
    requires forall k :: 0 <= k < |shown| ==> SceneStep(shown[k])
    ensures var frame := FrameOf(capture, captured, shown);
            && ((exists i :: 0 <= i < |frame| && frame[i].SaveScreenshot?) <==> capture.Some?)
            && (forall i :: 0 <= i < |frame| && frame[i].SaveScreenshot? ==> capture == Some(frame[i].capture))
            && (capture.Some? ==> && frame[..|captured|] == captured
                                  && frame[|captured|] == RenderGui
                                  && frame[|captured| + 1] == SaveScreenshot(capture.value))
            && (forall i :: 0 <= i < |frame| ==> (frame[i].ControlPanel? <==> i == |frame| - 2))
            && frame[|frame| - 2 - |shown|..] == shown + [ControlPanel, RenderGui]
  {
    var frame := FrameOf(capture, captured, shown);
    var head := if capture.Some? then captured + [RenderGui, SaveScreenshot(capture.value)] else [];
    assert frame == head + shown + [ControlPanel, RenderGui];
    if capture.Some? {
      assert frame[|captured| + 1].SaveScreenshot?;
    }
    forall i | 0 <= i < |frame|
      ensures frame[i].SaveScreenshot? ==> capture == Some(frame[i].capture)
      ensures frame[i].ControlPanel? <==> i == |frame| - 2
    {
      if i < |head| {
        assert frame[i] == head[i];
        if i < |captured| {
          assert SceneStep(captured[i]);
        }
      } else if i < |head| + |shown| {
        assert frame[i] == shown[i - |head|];
        assert SceneStep(shown[i - |head|]);
      }
    }
    assert frame[|frame| - 2 - |shown|..] == frame[|head|..];
  }

  class SpacecraftRenderingTools {
    /** The camera's floating-point geometry (see Camera.Maths). */
    const maths: Maths
    /** The width ImGui measures for a text at the current font. */
    const textWidth: string -> real
    const renderer: Renderer

    var spacecraftData: map<real, MeshData>
    var timeSteps: int
    var times: seq<real>
    var numberOfTriangles: int
    var windowWidth: int
    var windowHeight: int
    var visualizationMode: VisualizationMode
    /** setMode_: the mode index the control panel's combo box edits. */
    var modeSelection: int
    var backgroundColor: Color4
    var time: real

    var xColorbar: real
    var yColorbar: real
    var verticalColorbar: int
    var sizeColorbar: real
    var fontSize: real

    var cameraDistance: real
    var rotation: Quat
    var startRotation: Quat
    var startDragPoint: Vec3
    var view: Mat4
    var projection: Mat4

    var isDragging: bool
    var lastMouseX: real
    var lastMouseY: real
    var panOffset: Vec3
    var isPanning: bool

    var takeScreenshot: int
    var pathToFolder: seq<char>

    /** What every operation keeps: the camera never closer than distance 1, the mode the
        renderer uses is the one the combo box selected, the path buffer holds a terminated
        string, and the loaded timestamps are exactly the keys of the mesh map. */
    ghost predicate Valid()
      reads this`cameraDistance, this`modeSelection, this`visualizationMode, this`pathToFolder
      reads this`times, this`spacecraftData
    {
      && cameraDistance >= MinDistance
      && 0 <= modeSelection <= 2 && ModeValue(visualizationMode) == modeSelection
      && PathBufferValid(pathToFolder)
      && TimesAreKeys(times, spacecraftData)
    }

    /** The constructor's initialiser list, member defaults and body, without the window
        and GL set-up of init(). Members the source leaves uninitialised (the view and
        projection matrices, the drag start, time_) are left unconstrained. */
    constructor (width: int, height: int, cwd: string, maths: Maths, textWidth: string -> real,
                 renderer: Renderer)
      ensures Valid()
      ensures this.maths == maths && this.textWidth == textWidth && this.renderer == renderer
      ensures windowWidth == width && windowHeight == height
      ensures cameraDistance == 100.0 && rotation == IdentityQuat && panOffset == Zero3
      ensures modeSelection == 0 && visualizationMode == Wireframe
      ensures backgroundColor == Color4(1.0, 1.0, 1.0, 1.0)
      ensures xColorbar == 0.35 && yColorbar == 0.1 && verticalColorbar == 0
      ensures sizeColorbar == 2.0 && fontSize == 15.0
      ensures !isDragging && !isPanning && lastMouseX == 0.0 && lastMouseY == 0.0
      ensures takeScreenshot == 0
      ensures pathToFolder == PathBuffer(cwd)
      ensures spacecraftData == map[] && times == []
    {
      this.maths := maths;
      this.textWidth := textWidth;
      this.renderer := renderer;
      spacecraftData := map[];
      times := [];
      windowWidth := width;
      windowHeight := height;
      backgroundColor := Color4(1.0, 1.0, 1.0, 1.0);
      xColorbar := 0.35;
      yColorbar := 0.1;
      verticalColorbar := 0;
      sizeColorbar := 2.0;
      fontSize := 15.0;
      cameraDistance := 100.0;
      isDragging := false;
      lastMouseX := 0.0;
      lastMouseY := 0.0;
      panOffset := Zero3;
      isPanning := false;
      takeScreenshot := 0;
      modeSelection := 0;
      visualizationMode := Wireframe;
      new;
      rotation := IdentityQuat;
      pathToFolder := PathBuffer(cwd);
    }

    /** loadMesh after the file was opened: read every line, keep the non-empty ones, decode
        each record into the map under its timestamp, append the timestamps to times_, and
        start at the first timestamp in times_. The source indexes allData[0] and the first
        thirteen values of every record unchecked, so it needs at least one record and every
        record to be long enough. */
    method LoadMesh(lines: seq<seq<Extraction>>)
      requires Valid()
      requires Records(lines) != [] && WellFormed(Records(lines))
      modifies this`spacecraftData, this`times, this`timeSteps, this`numberOfTriangles, this`time
      ensures Valid()
      ensures timeSteps == |Records(lines)|
      ensures numberOfTriangles == TriangleCount(|Records(lines)[0]|)
      ensures times == old(times) + TimesOf(Records(lines))
      ensures spacecraftData == Assemble(old(spacecraftData), Records(lines))
      ensures time == times[0] && time in spacecraftData
    {
      var allData := ReadRecords(lines);
      Install(allData);
    }

    /** The bookkeeping after the read loop: count the time steps and triangles, store every
        record, and start at the first timestamp. */
    method Install(allData: seq<seq<real>>)
      requires Valid()
      requires allData != [] && WellFormed(allData)
      modifies this`spacecraftData, this`times, this`timeSteps, this`numberOfTriangles, this`time
      ensures Valid()
      ensures timeSteps == |allData|
      ensures numberOfTriangles == TriangleCount(|allData[0]|)
      ensures times == old(times) + TimesOf(allData)
      ensures spacecraftData == Assemble(old(spacecraftData), allData)
      ensures time == times[0] && time in spacecraftData
    {
      timeSteps := |allData|;
      numberOfTriangles := TriangleCount(|allData[0]|);
      StoreRecords(allData);
      time := times[0];
    }

    /** The `for (auto timestep: allData)` loop: decode each record, store it under its
        timestamp and append the timestamp to times_. */
    method StoreRecords(allData: seq<seq<real>>)
      requires WellFormed(allData) && TimesAreKeys(times, spacecraftData)
      modifies this`spacecraftData, this`times
      ensures spacecraftData == Assemble(old(spacecraftData), allData)
      ensures times == old(times) + TimesOf(allData)
      ensures TimesAreKeys(times, spacecraftData)
    {
      assert allData[..0] == [];
      for k := 0 to |allData|
        invariant spacecraftData == Assemble(old(spacecraftData), allData[..k])
        invariant times == old(times) + TimesOf(allData[..k])
      {
        var timestep := allData[k];
        var mesh := DecodeRecord(timestep);
        LoadStep(allData, k);
        spacecraftData := spacecraftData[timestep[0] := mesh];
        times := times + [timestep[0]];
      }
      assert allData[..|allData|] == allData;
      AssemblePreservesTimes(old(times), old(spacecraftData), allData);
    }

    /** onMouseButton with the cursor position glfwGetCursorPos returns. The left button
        starts an arcball drag from the current rotation and the cursor's point on the
        sphere, and its release ends the drag; the middle and right buttons start and end
        panning from the cursor position. Other buttons and actions change nothing. */
    method OnMouseButton(button: int, action: int, mods: int, xpos: real, ypos: real)
      requires Valid()
      modifies this`isDragging, this`startRotation, this`startDragPoint
      modifies this`isPanning, this`lastMouseX, this`lastMouseY
      ensures Valid()
      ensures button == MouseButtonLeft && action == Press ==>
                && isDragging && startRotation == rotation
                && startDragPoint == maths.MapToSphere(xpos, ypos, windowWidth, windowHeight)
      ensures button == MouseButtonLeft && action == Release ==>
                !isDragging && startRotation == old(startRotation) && startDragPoint == old(startDragPoint)
      ensures button != MouseButtonLeft || (action != Press && action != Release) ==>
                && isDragging == old(isDragging) && startRotation == old(startRotation)
                && startDragPoint == old(startDragPoint)
      ensures (button == MouseButtonMiddle || button == MouseButtonRight) && action == Press ==>
                isPanning && lastMouseX == xpos && lastMouseY == ypos
      ensures (button == MouseButtonMiddle || button == MouseButtonRight) && action == Release ==>
                !isPanning && lastMouseX == old(lastMouseX) && lastMouseY == old(lastMouseY)
      ensures (button != MouseButtonMiddle && button != MouseButtonRight) || (action != Press && action != Release) ==>
                isPanning == old(isPanning) && lastMouseX == old(lastMouseX) && lastMouseY == old(lastMouseY)
    {
      if button == MouseButtonLeft {
        if action == Press {
          isDragging := true;
          startRotation := rotation;
          startDragPoint := maths.MapToSphere(xpos, ypos, windowWidth, windowHeight);
        } else if action == Release {
          isDragging := false;
        }
      }
      if button == MouseButtonMiddle || button == MouseButtonRight {
        if action == Press {
          isPanning := true;
          lastMouseX := xpos;
          lastMouseY := ypos;
        } else if action == Release {
          isPanning := false;
        }
      }
    }

    /** onMouseMove. While dragging, a rotation axis longer than 0.0001 sets the rotation to
        the drag's start rotation times the delta rotation, normalised, or, while ImGui wants
        the mouse, to the start rotation alone; a shorter axis changes nothing. While panning,
        the pan offset moves against the cursor along the camera's right and up axes (taken
        from the rotation just set) by distance * 0.002 per unit of cursor movement, and the
        cursor position is remembered. */
    method OnMouseMove(xpos: real, ypos: real, guiWantsMouse: bool)
      requires Valid()
      modifies this`rotation, this`panOffset, this`lastMouseX, this`lastMouseY
      ensures Valid()
      ensures rotation == if isDragging
                          then ArcballRotation(maths, old(rotation), startRotation, startDragPoint,
                                               maths.MapToSphere(xpos, ypos, windowWidth, windowHeight),
                                               guiWantsMouse)
                          else old(rotation)
      ensures isPanning ==>
                && panOffset == PanMove(old(panOffset), maths.CameraAxes(rotation), cameraDistance,
                                        old(lastMouseX), old(lastMouseY), xpos, ypos)
                && lastMouseX == xpos && lastMouseY == ypos
      ensures !isPanning ==>
                panOffset == old(panOffset) && lastMouseX == old(lastMouseX) && lastMouseY == old(lastMouseY)
    {
      if isDragging {
        DragTo(xpos, ypos, guiWantsMouse);
      }
      if isPanning {
        PanTo(xpos, ypos);
      }
    }

    /** The dragging half of onMouseMove. */
    method DragTo(xpos: real, ypos: real, guiWantsMouse: bool)
      modifies this`rotation
      ensures rotation == ArcballRotation(maths, old(rotation), startRotation, startDragPoint,
                                          maths.MapToSphere(xpos, ypos, windowWidth, windowHeight),
                                          guiWantsMouse)
    {
      var currentPoint := maths.MapToSphere(xpos, ypos, windowWidth, windowHeight);
      var axis := Cross(startDragPoint, currentPoint);
      if AxisNonDegenerate(axis) {
        var deltaRotation := maths.DeltaRotation(startDragPoint, currentPoint);
        if !guiWantsMouse {
          rotation := maths.Normalize(QuatMul(startRotation, deltaRotation));
        } else {
          rotation := maths.Normalize(startRotation);
        }
      }
    }

    /** The panning half of onMouseMove. */
    method PanTo(xpos: real, ypos: real)
      modifies this`panOffset, this`lastMouseX, this`lastMouseY
      ensures panOffset == PanMove(old(panOffset), maths.CameraAxes(rotation), cameraDistance,
                                   old(lastMouseX), old(lastMouseY), xpos, ypos)
      ensures lastMouseX == xpos && lastMouseY == ypos
    {
      var panSensitivity := cameraDistance * PanFactor;
      var dx := (xpos - lastMouseX) * panSensitivity;
      var dy := (lastMouseY - ypos) * panSensitivity;
      panOffset := Pan(panOffset, maths.CameraAxes(rotation), dx, dy);
      lastMouseX := xpos;
      lastMouseY := ypos;
    }

    /** onScroll: zoom by five units per scroll step, never closer than distance 1. */
    method OnScroll(xoffset: real, yoffset: real)
      requires Valid()
      modifies this`cameraDistance
      ensures Valid()
      ensures cameraDistance == Zoom(old(cameraDistance), yoffset)
    {
      cameraDistance := cameraDistance - yoffset * ZoomStep;
      if cameraDistance <= MinDistance {
        cameraDistance := MinDistance;
      }
    }

    /** onResize, the framebuffer-size callback: remember the new size (the glViewport
        call is not modelled). */
    method OnResize(width: int, height: int)
      requires Valid()
      modifies this`windowWidth, this`windowHeight
      ensures Valid()
      ensures windowWidth == width && windowHeight == height
    {
      windowWidth := width;
      windowHeight := height;
    }

    /** setMode: the mode with the given number. */
    method SetMode(mode: int)
      requires 0 <= mode <= 2
      modifies this`visualizationMode
      ensures ModeValue(visualizationMode) == mode
    {
      visualizationMode := ModeOf(mode);
    }

    /** The control panel's view-mode combo box: it stores the chosen index in setMode_
        (one of its three items) and setMode(setMode_) follows it. */
    method SelectMode(choice: int)
      requires Valid()
      requires 0 <= choice <= 2
      modifies this`modeSelection, this`visualizationMode
      ensures Valid()
      ensures modeSelection == choice && ModeValue(visualizationMode) == choice
    {
      modeSelection := choice;
      SetMode(modeSelection);
    }

    /** Where the legend goes: the colorbar position as fractions of the window size, and
        its size factor. */
    function ColorbarPlacement(): Placement
      reads this`xColorbar, this`yColorbar, this`windowWidth, this`windowHeight, this`sizeColorbar
    {
      Placement(xColorbar * windowWidth as real, yColorbar * windowHeight as real, sizeColorbar)
    }

    /** drawColorbarVertical: 100 gradient segments from the top down, the border, and six
        ticks and labels. */
    method DrawColorbarVertical() returns (bar: Colorbar)
      requires visualizationMode != Wireframe
      ensures bar == VerticalBar(ColorbarPlacement(), visualizationMode,
                                 textWidth(ScaleOf(visualizationMode).title))
    {
      var scale := ScaleOf(visualizationMode);
      var p := ColorbarPlacement();
      var barWidth := 25.0 * p.size;
      var barHeight := 200.0 * p.size;
      var segments := PaintVerticalSegments(p, visualizationMode);
      var ticks, labels := PaintVerticalLabels(p, scale);
      var textSize := textWidth(scale.title);
      bar := Colorbar(segments, Point(p.x, p.y), Point(p.x + barWidth, p.y + barHeight), ticks, labels,
                      Point(p.x + (barWidth - textSize) / 2.0, p.y - 20.0), scale.title);
    }

    /** drawColorbarHorizontal: 100 gradient segments from the left, the border, and six
        ticks and labels underneath. */
    method DrawColorbarHorizontal() returns (bar: Colorbar)
      requires visualizationMode != Wireframe
      ensures bar == HorizontalBar(ColorbarPlacement(), visualizationMode,
                                   textWidth(ScaleOf(visualizationMode).title))
    {
      var scale := ScaleOf(visualizationMode);
      var p := ColorbarPlacement();
      var barWidth := 200.0 * p.size;
      var barHeight := 25.0 * p.size;
      var segments := PaintHorizontalSegments(p, visualizationMode);
      var ticks, labels := PaintHorizontalLabels(p, scale);
      var textSize := textWidth(scale.title);
      bar := Colorbar(segments, Point(p.x, p.y), Point(p.x + barWidth, p.y + barHeight), ticks, labels,
                      Point(p.x + (barWidth - textSize) / 2.0, p.y - 25.0), scale.title);
    }

    /** The legend drawColorbar draws: vertical when verticalColorbar_ is non-zero. */
    function LegendOf(): Colorbar
      reads this`xColorbar, this`yColorbar, this`windowWidth, this`windowHeight, this`sizeColorbar
      reads this`visualizationMode, this`verticalColorbar
      requires visualizationMode != Wireframe
    {
      var titleWidth := textWidth(ScaleOf(visualizationMode).title);
      if verticalColorbar != 0 then VerticalBar(ColorbarPlacement(), visualizationMode, titleWidth)
      else HorizontalBar(ColorbarPlacement(), visualizationMode, titleWidth)
    }

    method DrawColorbar() returns (bar: Colorbar)
      requires visualizationMode != Wireframe
      ensures bar == LegendOf()
    {
      if verticalColorbar != 0 {
        bar := DrawColorbarVertical();
      } else {
        bar := DrawColorbarHorizontal();
      }
    }

    /** The legend is shown exactly for the two scalar modes, and then never for WIREFRAME. */
    function ShownLegend(): Option<Colorbar>
      reads this`xColorbar, this`yColorbar, this`windowWidth, this`windowHeight, this`sizeColorbar
      reads this`visualizationMode, this`verticalColorbar, this`modeSelection
      requires ModeValue(visualizationMode) == modeSelection
    {
      if modeSelection == 1 || modeSelection == 2 then Some(LegendOf()) else None
    }

    /** The scene drawn for the current time step: the background, the mesh as the
        renderer draws it with the current view, projection and mode, and the legend. */
    ghost predicate IsScene(scene: seq<FrameStep>)
      reads this`xColorbar, this`yColorbar, this`windowWidth, this`windowHeight, this`sizeColorbar
      reads this`visualizationMode, this`verticalColorbar, this`modeSelection
      reads this`spacecraftData, this`time, this`view, this`projection, this`backgroundColor, renderer
      requires ModeValue(visualizationMode) == modeSelection && time in spacecraftData
    {
      && |scene| >= 3 && scene[2].MeshPasses?
      && scene == Scene(backgroundColor, scene[2].calls, ShownLegend())
      && renderer.Renders(scene[2].calls, spacecraftData[time], view, projection, visualizationMode)
    }

    /** The drawing both halves of updateRender share. */
    method DrawScene() returns (scene: seq<FrameStep>)
      requires Valid() && time in spacecraftData
      ensures IsScene(scene)
    {
      var calls := renderer.RenderMesh(spacecraftData[time], view, projection, visualizationMode);
      scene := [Clear(backgroundColor), NewGuiFrame, MeshPasses(calls)];
      if modeSelection == 1 || modeSelection == 2 {
        var bar := DrawColorbar();
        scene := scene + [Legend(bar)];
      }
    }

    /** updateRender for a framebuffer of the given size: set the view and projection, draw
        and save a screenshot first when one was requested (clearing the request), then draw
        the frame shown with the control panel. A time with no mesh ends the frame at the
        lookup, with the request kept. The capture is the one screenshot() saves, with
        windowWidth_ as the image width (see Screenshot.WindowWidthMismatch). */
    method UpdateRender(fbWidth: nat, fbHeight: nat)
      returns (steps: seq<FrameStep>, captured: seq<FrameStep>, shown: seq<FrameStep>)
      requires Valid()
      modifies this`view, this`projection, this`takeScreenshot
      ensures Valid()
      ensures view == maths.ViewMatrix(rotation, cameraDistance, panOffset)
      ensures projection == maths.Perspective(windowWidth, windowHeight)
      ensures time !in spacecraftData ==>
                && takeScreenshot == old(takeScreenshot)
                && steps == [Clear(backgroundColor), NewGuiFrame, LookupFailed(time)]
      ensures time in spacecraftData ==>
                && takeScreenshot == 0
                && IsScene(shown) && (old(takeScreenshot) != 0 ==> IsScene(captured))
                && steps == FrameOf(if old(takeScreenshot) != 0
                                    then Some(CaptureAsWritten(fbWidth, fbHeight, windowWidth, pathToFolder))
                                    else None, captured, shown)
    {
      view := maths.ViewMatrix(rotation, cameraDistance, panOffset);
      projection := maths.Perspective(windowWidth, windowHeight);
      if time !in spacecraftData {
        steps, captured, shown := [Clear(backgroundColor), NewGuiFrame, LookupFailed(time)], [], [];
        return;
      }
      steps, captured, shown := DrawFrame(fbWidth, fbHeight);
    }

    /** The frame once the mesh for the current time was found: the screenshot frame first
        when one was requested, saved as screenshot() saves it, then the frame shown. */
    method DrawFrame(fbWidth: nat, fbHeight: nat)
      returns (steps: seq<FrameStep>, captured: seq<FrameStep>, shown: seq<FrameStep>)
      requires Valid() && time in spacecraftData
      modifies this`takeScreenshot
      ensures takeScreenshot == 0
      ensures IsScene(shown) && (old(takeScreenshot) != 0 ==> IsScene(captured))
      ensures steps == FrameOf(if old(takeScreenshot) != 0
                               then Some(CaptureAsWritten(fbWidth, fbHeight, windowWidth, pathToFolder))
                               else None, captured, shown)
    {
      steps, captured := [], [];
      if takeScreenshot != 0 {
        captured := DrawScene();
        var capture := CaptureAsWritten(fbWidth, fbHeight, windowWidth, pathToFolder);
        steps := captured + [RenderGui, SaveScreenshot(capture)];
        takeScreenshot := 0;
      }
      shown := DrawScene();
      steps := steps + shown + [ControlPanel, RenderGui];
    }

    /** A left click released where it was pressed, with the cursor moved onto the same
        point in between, leaves the rotation as it was, wherever ImGui wants the mouse. */
    method ClickInPlace(x: real, y: real, guiWantsMouse: bool)
      requires Valid()
      modifies this`isDragging, this`startRotation, this`startDragPoint
      modifies this`isPanning, this`lastMouseX, this`lastMouseY, this`rotation, this`panOffset
      ensures Valid()
      ensures rotation == old(rotation) && !isDragging
    {
      OnMouseButton(MouseButtonLeft, Press, 0, x, y);
      ArcballIsRelativeToPress(maths, rotation, rotation, startRotation, startDragPoint, startDragPoint, guiWantsMouse);
      OnMouseMove(x, y, guiWantsMouse);
      OnMouseButton(MouseButtonLeft, Release, 0, x, y);
    }
  }
}
