/** Renderer::renderMesh (src/utilities.cpp) as the list of OpenGL calls it issues, with an
    interpreter that replays such a list and records the GL state seen by every draw.

    The interpreter starts from "inherited" state: every field is None until the list itself
    sets it, so a property proved of a draw holds whatever state earlier frames left behind. */
module Rendering {
  import opened Common
  import opened Mesh

  datatype PolygonMode = Line | Fill

  const WireframeGrey := Color4(0.5, 0.5, 0.5, 1.0)

  datatype GlCall =
    | BindArrayBuffer(buffer: int)                 // glBindBuffer(GL_ARRAY_BUFFER, buffer)
    | BufferData(data: seq<Vertex>)                // glBufferData(GL_ARRAY_BUFFER, ...)
    | UseProgram(program: int)
    | UniformMatrix(name: string, matrix: Mat4)    // glUniformMatrix4fv(location of name, ...)
    | SetPolygonMode(polygon: PolygonMode)         // glPolygonMode(GL_FRONT_AND_BACK, ...)
    | Uniform1i(location: int, intValue: int)
    | Uniform4f(location: int, color: Color4)
    | BindVertexArray(array: int)
    | DrawTriangles(first: int, count: int)        // glDrawArrays(GL_TRIANGLES, first, count)
    | EnableOffsetLine                             // glEnable(GL_POLYGON_OFFSET_LINE)
    | DisableOffsetLine                            // glDisable(GL_POLYGON_OFFSET_LINE)
    | PolygonOffset(factor: real, units: real)

  datatype GlState = GlState(
    arrayBuffer: Option<int>,
    buffers: map<int, seq<Vertex>>,
    program: Option<int>,
    matrices: map<string, Mat4>,
    polygon: Option<PolygonMode>,
    ints: map<int, int>,
    colors: map<int, Color4>,
    vertexArray: Option<int>,
    offsetLine: Option<bool>,
    offset: Option<(real, real)>)

  const Inherited := GlState(None, map[], None, map[], None, map[], map[], None, None, None)

  /** The effect of one call on the GL state. */
  function Step(s: GlState, c: GlCall): GlState
  {
    match c
    case BindArrayBuffer(b) => s.(arrayBuffer := Some(b))
    case BufferData(data) =>
      if s.arrayBuffer.Some? then s.(buffers := s.buffers[s.arrayBuffer.value := data]) else s
    case UseProgram(p) => s.(program := Some(p))
    case UniformMatrix(name, m) => s.(matrices := s.matrices[name := m])
    case SetPolygonMode(m) => s.(polygon := Some(m))
    case Uniform1i(loc, v) => s.(ints := s.ints[loc := v])
    case Uniform4f(loc, v) => s.(colors := s.colors[loc := v])
    case BindVertexArray(a) => s.(vertexArray := Some(a))
    case DrawTriangles(_, _) => s
    case EnableOffsetLine => s.(offsetLine := Some(true))
    case DisableOffsetLine => s.(offsetLine := Some(false))
    case PolygonOffset(f, u) => s.(offset := Some((f, u)))
  }

  /** The state after replaying a call list. */
  function Exec(calls: seq<GlCall>): GlState
  {
    if calls == [] then Inherited
    else Step(Exec(calls[..|calls| - 1]), calls[|calls| - 1])
  }

  /** One glDrawArrays call with the state it ran in. */
  datatype Draw = Draw(state: GlState, first: int, count: int)

  /** The draw passes a call list issues, in order. */
  function Draws(calls: seq<GlCall>): seq<Draw>
  {
    if calls == [] then []
    else
      var prefix := calls[..|calls| - 1];
      var c := calls[|calls| - 1];
      Draws(prefix) + (if c.DrawTriangles? then [Draw(Exec(prefix), c.first, c.count)] else [])
  }

  /** A draw of the whole mesh with the renderer's program, buffers and transforms: all
      |vertices| vertices from 0, the vertex buffer holding exactly the mesh's vertices. */
  predicate DrawsWholeMesh(d: Draw, program: int, vao: int, vbo: int,
                           vertices: seq<Vertex>, view: Mat4, projection: Mat4)
  {
    && d.first == 0 && d.count == |vertices|
    && d.state.program == Some(program)
    && d.state.vertexArray == Some(vao)
    && vbo in d.state.buffers && d.state.buffers[vbo] == vertices
    && "view" in d.state.matrices && d.state.matrices["view"] == view
    && "projection" in d.state.matrices && d.state.matrices["projection"] == projection
  }

  /** A grey line pass with the shader told to ignore the scalar fields (mode uniform 0). */
  predicate WireframePass(d: Draw, modeLocation: int, colorLocation: int)
  {
    && d.state.polygon == Some(Line)
    && modeLocation in d.state.ints && d.state.ints[modeLocation] == 0
    && colorLocation in d.state.colors && d.state.colors[colorLocation] == WireframeGrey
  }

  /** A filled pass colouring by the scalar field the mode uniform selects. */
  predicate FilledPass(d: Draw, modeLocation: int, modeValue: int)
  {
    && d.state.polygon == Some(Fill)
    && modeLocation in d.state.ints && d.state.ints[modeLocation] == modeValue
  }

  /** Issuing one more call: replaying it after the others, and a draw adds one pass. */
  lemma Emit(calls: seq<GlCall>, c: GlCall)
    ensures Exec(calls + [c]) == Step(Exec(calls), c)
    ensures Draws(calls + [c])
            == Draws(calls) + (if c.DrawTriangles? then [Draw(Exec(calls), c.first, c.count)] else [])
  {
    assert (calls + [c])[..|calls|] == calls;
  }

  /** Issuing a call that draws nothing: the state advances by one step and the passes
      drawn so far stay as they were. */
  method Issue(calls: seq<GlCall>, c: GlCall) returns (calls': seq<GlCall>)
    requires !c.DrawTriangles?
    ensures calls' == calls + [c]
    ensures Exec(calls') == Step(Exec(calls), c)
    ensures Draws(calls') == Draws(calls)
  {
    Emit(calls, c);
    calls' := calls + [c];
  }

  class Renderer {
    var shaderProgram: int
    var vao: int
    var vbo: int
    var visualizationModeLocation: int
    var wireframeColorLocation: int
    var wireFrameOverlay: bool

    /** The renderer after Renderer::init: the handles GL handed out for the linked program,
        the vertex array and buffer and the two uniform locations; the overlay starts on. */
    constructor (program: int, vertexArray: int, vertexBuffer: int, modeLocation: int, colorLocation: int)
      ensures shaderProgram == program && vao == vertexArray && vbo == vertexBuffer
      ensures visualizationModeLocation == modeLocation && wireframeColorLocation == colorLocation
      ensures wireFrameOverlay
    {
      shaderProgram := program;
      vao := vertexArray;
      vbo := vertexBuffer;
      visualizationModeLocation := modeLocation;
      wireframeColorLocation := colorLocation;
      wireFrameOverlay := true;
    }

    /** The GL state right after the upload: the array buffer bound and filled with the
        vertices, the program in use and both transforms set; nothing else touched. */
    function Uploaded(vertices: seq<Vertex>, view: Mat4, projection: Mat4): GlState
      reads this
    {
      Inherited.(arrayBuffer := Some(vbo), buffers := map[vbo := vertices],
                 program := Some(shaderProgram),
                 matrices := map["view" := view, "projection" := projection])
    }

    /** Lines 104-113: replace the buffer's contents with the whole vertex array, use the
        program and set the view and projection uniforms. No draw happens yet. */
    method Upload(vertices: seq<Vertex>, view: Mat4, projection: Mat4) returns (calls: seq<GlCall>)
      ensures Draws(calls) == []
      ensures Exec(calls) == Uploaded(vertices, view, projection)
    {
      calls := Issue([], BindArrayBuffer(vbo));
      calls := Issue(calls, BufferData(vertices));
      calls := Issue(calls, UseProgram(shaderProgram));
      calls := Issue(calls, UniformMatrix("view", view));
      calls := Issue(calls, UniformMatrix("projection", projection));
    }

    /** `glBindVertexArray(VAO_); glDrawArrays(GL_TRIANGLES, 0, count); glBindVertexArray(0);`
        one pass over the vertex array with everything else as it was, leaving no array bound. */
    method DrawBound(calls: seq<GlCall>, count: int) returns (calls': seq<GlCall>)
      ensures Draws(calls') == Draws(calls) + [Draw(Exec(calls).(vertexArray := Some(vao)), 0, count)]
      ensures Exec(calls') == Exec(calls).(vertexArray := Some(0))
    {
      calls' := Issue(calls, BindVertexArray(vao));
      Emit(calls', DrawTriangles(0, count));
      calls' := calls' + [DrawTriangles(0, count)];
      calls' := Issue(calls', BindVertexArray(0));
    }

    /** The grey line settings: the shader told to ignore the scalar fields (mode uniform
        WIREFRAME = 0) and the wireframe colour set to grey. */
    function Greyed(s: GlState): GlState
      reads this
    {
      s.(ints := s.ints[visualizationModeLocation := ModeValue(Wireframe)],
         colors := s.colors[wireframeColorLocation := WireframeGrey])
    }

    /** `glUniform1i(mode, WIREFRAME); glUniform4f(colour, grey)` followed by one pass. */
    method GreyLines(calls: seq<GlCall>, count: int) returns (calls': seq<GlCall>)
      ensures Draws(calls') == Draws(calls) + [Draw(Greyed(Exec(calls)).(vertexArray := Some(vao)), 0, count)]
      ensures Exec(calls') == Greyed(Exec(calls)).(vertexArray := Some(0))
    {
      ghost var s0 := Exec(calls);
      calls' := Issue(calls, Uniform1i(visualizationModeLocation, ModeValue(Wireframe)));
      calls' := Issue(calls', Uniform4f(wireframeColorLocation, WireframeGrey));
      assert Exec(calls') == Greyed(s0);
      calls' := DrawBound(calls', count);
    }

    /** `glPolygonMode(FILL); glUniform1i(mode, value)` followed by one pass. */
    method FilledLayer(calls: seq<GlCall>, modeValue: int, count: int) returns (calls': seq<GlCall>)
      ensures var s := Exec(calls).(polygon := Some(Fill),
                                    ints := Exec(calls).ints[visualizationModeLocation := modeValue]);
              && Draws(calls') == Draws(calls) + [Draw(s.(vertexArray := Some(vao)), 0, count)]
              && Exec(calls') == s.(vertexArray := Some(0))
    {
      calls' := Issue(calls, SetPolygonMode(Fill));
      calls' := Issue(calls', Uniform1i(visualizationModeLocation, modeValue));
      calls' := DrawBound(calls', count);
    }

    /** `glPolygonMode(LINE); glEnable(GL_POLYGON_OFFSET_LINE); glPolygonOffset(-1, -1)`. */
    method OffsetLines(calls: seq<GlCall>) returns (calls': seq<GlCall>)
      ensures Draws(calls') == Draws(calls)
      ensures Exec(calls') == Exec(calls).(polygon := Some(Line), offsetLine := Some(true),
                                           offset := Some((-1.0, -1.0)))
    {
      calls' := Issue(calls, SetPolygonMode(Line));
      calls' := Issue(calls', EnableOffsetLine);
      calls' := Issue(calls', PolygonOffset(-1.0, -1.0));
    }

    /** The overlay: line mode with a polygon offset of (-1, -1) pulling the lines towards
        the viewer, one grey line pass, then the offset switched off again. */
    method OffsetOverlay(calls: seq<GlCall>, count: int) returns (calls': seq<GlCall>)
      ensures var s := Greyed(Exec(calls).(polygon := Some(Line), offsetLine := Some(true),
                                           offset := Some((-1.0, -1.0))));
              && Draws(calls') == Draws(calls) + [Draw(s.(vertexArray := Some(vao)), 0, count)]
              && Exec(calls') == s.(vertexArray := Some(0), offsetLine := Some(false))
    {
      calls' := OffsetLines(calls);
      calls' := GreyLines(calls', count);
      calls' := Issue(calls', DisableOffsetLine);
    }

    /** What renderMesh promises of the call list it issues for a mesh: one pass for
        WIREFRAME, otherwise a filled pass followed by an overlay pass exactly when the
        overlay is on; every pass draws all of the mesh's vertices from the uploaded buffer
        with this renderer's program and the given transforms; WIREFRAME and the overlay are
        grey line passes with the mode uniform at 0, the filled pass has the mode's own
        uniform value; the overlay is offset by (-1, -1) and the offset is switched off
        afterwards; and no vertex array is left bound. */
    ghost predicate Renders(calls: seq<GlCall>, mesh: MeshData, view: Mat4, projection: Mat4,
                            mode: VisualizationMode)
      reads this
    {
      var draws := Draws(calls);
      && |draws| == (if mode != Wireframe && wireFrameOverlay then 2 else 1)
      && (forall k :: 0 <= k < |draws| ==>
            DrawsWholeMesh(draws[k], shaderProgram, vao, vbo, mesh.vertices, view, projection))
      && (mode == Wireframe ==> WireframePass(draws[0], visualizationModeLocation, wireframeColorLocation))
      && (mode != Wireframe ==> FilledPass(draws[0], visualizationModeLocation, ModeValue(mode)))
      && (|draws| == 2 ==>
            && WireframePass(draws[1], visualizationModeLocation, wireframeColorLocation)
            && draws[1].state.offsetLine == Some(true)
            && draws[1].state.offset == Some((-1.0, -1.0))
            && Exec(calls).offsetLine == Some(false))
      && Exec(calls).vertexArray == Some(0)
    }

    /** renderMesh: upload the whole vertex array, set view and projection, then one pass
        for WIREFRAME, or a filled pass followed, when the overlay is on, by an offset grey
        line pass. */
    method RenderMesh(mesh: MeshData, view: Mat4, projection: Mat4, mode: VisualizationMode)
      returns (calls: seq<GlCall>)
      ensures Renders(calls, mesh, view, projection, mode)
    {
      calls := Upload(mesh.vertices, view, projection);
      if mode == Wireframe {
        calls := WireframePasses(calls, mesh, view, projection);
      } else {
        calls := FilledPasses(calls, mesh, view, projection, mode);
      }
    }

    /** Lines 116-125: WIREFRAME draws one grey line pass. */
    method WireframePasses(calls: seq<GlCall>, mesh: MeshData, view: Mat4, projection: Mat4)
      returns (calls': seq<GlCall>)
      requires Draws(calls) == [] && Exec(calls) == Uploaded(mesh.vertices, view, projection)
      ensures Renders(calls', mesh, view, projection, Wireframe)
    {
      calls' := Issue(calls, SetPolygonMode(Line));
      calls' := GreyLines(calls', |mesh.vertices|);
    }

    /** Lines 127-148: the scalar modes draw a filled pass and, when the overlay is on, an
        offset grey line pass over it. */
    method FilledPasses(calls: seq<GlCall>, mesh: MeshData, view: Mat4, projection: Mat4,
                        mode: VisualizationMode)
      returns (calls': seq<GlCall>)
      requires mode != Wireframe
      requires Draws(calls) == [] && Exec(calls) == Uploaded(mesh.vertices, view, projection)
      ensures Renders(calls', mesh, view, projection, mode)
    {
      calls' := FilledLayer(calls, ModeValue(mode), |mesh.vertices|);
      if wireFrameOverlay {
        calls' := OffsetOverlay(calls', |mesh.vertices|);
      }
    }
  }
}
