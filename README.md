# Drawing canvas: shapes, brush and retained scene

This project models the core of a small WebGL painting page in Dafny:

- the four brush shapes (square, triangle, circle, star) and how each one's
  `render()` expands into rasterizer commands (`src/shapes.js`);
- the page-level state and handlers (`src/ModifiedColoredPoints.js`):
  - the pointer-to-clip-space mapper and the slider percentage conversion;
  - the brush (`g_selected*`) and the two retained lists, `shapesList` and
    `pictureTriangles`;
  - the click, clear and draw-picture handlers, the cat-face illustration, and
    the full redraw `renderAllShapes`.

`shapes.dfy` (module `Shapes`) holds the shapes:
- A shape is a `datatype`, because no shape is changed after construction.
- The gl calls become an abstract command trace (`Cmd`: clear, point draw,
  triangle draw). The colour set with `gl.uniform4f` travels with the draw that
  uses it.
- Each `render()` is the method `Render`. Its loops `FanVertices`, `BuildRing`
  and `RingVertices` are proved against pure mesh functions (`CircleFan`,
  `StarRing`, `StarFan`, `Flatten`).
- Properties of those functions are proved as lemmas: centre-sharing fans,
  closure of the star outline, alternation of the star radii, and distances
  from the centre.

`painter.dfy` (module `Painter`) holds the page:
- The module-level state becomes the class `Scene`, whose handlers are methods
  that modify only the fields they assign.
- A redraw is specified by `SceneTrace`: one clear, then every placed shape's
  commands in list order, then every illustration triangle.
- Lemmas prove that trace's layout (painter's algorithm).

The environment becomes parameters:
- Whether `gl.createBuffer` succeeds is a parameter: `bufferOk` for one shape,
  and `ok(k)` for the k-th item drawn in a redraw.
- `Math.cos`, `Math.sin` and `Math.PI` are the parameter `Trig`.
- The canvas width and height are parameters of the mapper.
- Metric facts are proved under the single hypothesis `cos² + sin² = 1`
  (`Pythagorean`). Nothing else about the host's trigonometry is assumed.

`addCatFacePicture` issues 25 `tri(...)` calls
(src/ModifiedColoredPoints.js:244-281), and the model records exactly those 25.

## Model

| member | source | states |
|---|---|---|
| Shapes.TypeName | src/shapes.js:4-131 | every shape's `type` string is one of the four names the click handler dispatches on |
| Shapes.EffectiveCount | src/shapes.js:79 | the segment/point count used is at least 3, never below the requested count, and is either the requested count or 3 |
| Shapes.TriangleVertices | src/shapes.js:52-60 | six coordinates; the apex is straight above the position and as far above it as the base is below; the base is horizontal, centred under the apex, and 2·size/200 wide, equal to the height |
| Shapes.Flatten | src/shapes.js:91 | a mesh's vertex list has exactly six coordinates per triangle |
| Shapes.FlattenAt | src/shapes.js:91 | triangle i of a mesh occupies coordinates 6i .. 6i+5 of the vertex list, corner by corner |
| Shapes.FlattenSnoc | src/shapes.js:91 | pushing one more triangle appends exactly its six coordinates |
| Shapes.CircleFan | src/shapes.js:82-92 | the circle's fan has n triangles and every one of them starts at the centre |
| Shapes.CircleFanShared | src/shapes.js:83-84 | triangle i ends on the rim vertex where triangle i+1 begins, so neighbouring triangles share an edge from the centre |
| Shapes.CircleFanCloses | src/shapes.js:82-92 | the last rim vertex equals the first exactly when cos and sin agree at 2π and 0; closure is not structural |
| Shapes.PolarEq | src/shapes.js:86-89 | two rim points at the same non-zero radius coincide if and only if cos and sin agree at their angles |
| Shapes.PolarDistance | src/shapes.js:86-89 | under cos²+sin²=1 a rim point lies at distance r from the centre |
| Shapes.CircleEquidistant | src/shapes.js:78-89 | under cos²+sin²=1 both rim vertices of every circle triangle lie at radius size/200 |
| Shapes.StarRing | src/shapes.js:147-153 | the star's ring has n = 2p vertices |
| Shapes.NextIsMod | src/shapes.js:159 | the successor index used for the star fan is (i + 1) % n and stays on the ring |
| Shapes.StarFan | src/shapes.js:156-161 | the star fan has one triangle per ring vertex; triangle i starts at the centre and then at ring vertex i |
| Shapes.StarFanCloses | src/shapes.js:159 | each star triangle ends on the vertex where the cyclically next one begins, and the last one ends on ring vertex 0 |
| Shapes.StarAngleStep | src/shapes.js:148-150 | ring vertex 0 is at -π/2 (pointing up) and consecutive vertices are 2π/n apart |
| Shapes.StarRadiiAlternate | src/shapes.js:143-151 | with the even ring of 2p vertices, every star triangle joins an outer and an inner vertex, including the wrapping triangle |
| Shapes.StarRingRadii | src/shapes.js:140-152 | under cos²+sin²=1, even ring vertices lie at the outer radius size/200 and odd ones at 0.45 of it |
| Shapes.DrawTriangle | src/shapes.js:24-38 | drawTriangle issues one draw of three vertices from the list it is handed, in the given colour, when a buffer can be created, and nothing otherwise |
| Shapes.DrawVertsAsTriangles | src/shapes.js:111-122 | drawVertsAsTriangles issues one draw of the whole list, asking for half its length in vertices (whole vertices only), in the given colour, when a buffer can be created, and nothing otherwise |
| Shapes.DrawTriangleWellFormed | src/shapes.js:24-38 | drawTriangle's three-vertex draw is well formed if and only if it is handed six coordinates |
| Shapes.DrawVertsWellFormed | src/shapes.js:111-122 | drawVertsAsTriangles asks for verts.length / 2 vertices, which is well formed if and only if the list holds a positive multiple of six coordinates |
| Shapes.CircleVertices | src/shapes.js:81-92 | the circle's vertex list has 6n coordinates |
| Shapes.StarVertices | src/shapes.js:156-161 | the star's vertex list has 6n coordinates |
| Shapes.ShapeCommands | src/shapes.js:12-164 | whatever the shape and buffer outcome, render() issues at most one command, and that command is never a frame clear |
| Shapes.ShapeCommandsShape | src/shapes.js:12-164 | a square always issues one point draw with its own position, colour and size; the other shapes issue one well-formed triangle draw in their own colour when the buffer exists and nothing when it does not |
| Shapes.CircleCommandsShape | src/shapes.js:73-107 | a circle issues one well-formed triangle draw in its colour with a buffer, none without |
| Shapes.StarCommandsShape | src/shapes.js:133-164 | a star issues one well-formed triangle draw in its colour with a buffer, none without |
| Shapes.CircleDraw | src/shapes.js:73-107 | with a buffer a circle draws n·3 vertices (6n coordinates), n = max(3, segments); every triangle starts at the centre and consecutive triangles share a rim vertex |
| Shapes.StarMesh | src/shapes.js:156-161 | the star's vertex list has 6n coordinates, every triangle starts at the centre, and triangle i's second corner is ring vertex i |
| Shapes.StarMeshCloses | src/shapes.js:156-161 | in the star's vertex list each triangle ends where the next begins and the last one closes the outline on the first ring vertex |
| Shapes.StarDraw | src/shapes.js:133-164 | with a buffer a star draws the fan over its ring of 2p vertices, p = max(3, points), 3·2p vertices in its colour |
| Shapes.FanVertices | src/shapes.js:81-92 | Circle.render()'s loop builds exactly the vertex list of the circle's fan |
| Shapes.BuildRing | src/shapes.js:147-153 | Star.render()'s first loop builds exactly the star's ring |
| Shapes.RingVertices | src/shapes.js:156-163 | Star.render()'s second loop builds exactly the vertex list of the star fan over the ring |
| Shapes.Render | src/shapes.js:12-164 | render() issues exactly the commands of the shape's specification, for either buffer outcome |
| Painter.ToGL | src/ModifiedColoredPoints.js:91-101 | scaling the clip-space coordinate back by half the canvas size gives the pointer's offset from the canvas centre, with y measured upwards |
| Painter.ToGLRoundTrip | src/ModifiedColoredPoints.js:91-101 | mapping a pointer to clip space and back returns the same pointer (the mapper is injective) |
| Painter.FromGLRoundTrip | src/ModifiedColoredPoints.js:91-101 | every clip-space point is reached by the pointer FromGL gives (the mapper is onto) |
| Painter.CentreMapsToOrigin | src/ModifiedColoredPoints.js:97-98 | the canvas centre maps to the origin |
| Painter.ToGLInside | src/ModifiedColoredPoints.js:94-98 | a pointer is inside the canvas if and only if it maps into [-1,1]²; the left edge maps to -1 and the top edge to +1 (y flipped); nothing is clamped |
| Painter.PctToFloat01 | src/ModifiedColoredPoints.js:103-107 | the channel is in [0,1]; non-finite input gives 0; pct/100 inside [0,100]; 0 at or below 0; 1 at or above 100 |
| Painter.PctMonotone | src/ModifiedColoredPoints.js:103-107 | a higher slider value never gives a smaller channel |
| Painter.ShapeFor | src/ModifiedColoredPoints.js:195-203 | a shape is placed if and only if the selected type is one of the four names; it then has that type, the position, colour and size given, and the circle's segments or the star's points are the brush's segments |
| Painter.Paint | src/ModifiedColoredPoints.js:194 | a placed shape's colour copies the brush's RGB and has alpha 1 |
| Painter.PictureCommands | src/ModifiedColoredPoints.js:213-224 | drawColoredTriangle issues one three-vertex draw in the record's colour when a buffer can be created and nothing otherwise; that draw is well formed if and only if the record holds six coordinates |
| Painter.SceneTrace | src/ModifiedColoredPoints.js:181-189 | a redraw's first command is always the frame clear |
| Painter.TraceSnoc | src/ModifiedColoredPoints.js:184-188 | drawing one more item appends exactly that item's commands |
| Painter.TraceAppend | src/ModifiedColoredPoints.js:184-188 | the trace of two concatenated lists is the concatenation of their traces: items do not affect each other's draws |
| Painter.TraceSplit | src/ModifiedColoredPoints.js:184-188 | the trace around one item is the trace of the items before it, that item's own commands under its own number, then the items after it under theirs |
| Painter.TraceOnePerItem | src/ModifiedColoredPoints.js:184-188 | when every item issues one command, the trace has one command per item and command k is item k's |
| Painter.TraceAtMostOne | src/ModifiedColoredPoints.js:184-188 | when every item issues at most one command, the trace is no longer than the list |
| Painter.TraceAll | src/ModifiedColoredPoints.js:184-188 | a property of every command any item can issue holds of every command in the trace |
| Painter.TraceAllListed | src/ModifiedColoredPoints.js:184-188 | a property of every command the listed items issue holds of every command in the trace |
| Painter.ShapeDrawFacts | src/ModifiedColoredPoints.js:184 | a placed shape issues at most one command, never a clear, and only well-formed draws, whatever its buffer outcome |
| Painter.ShapeDrawAllOk | src/ModifiedColoredPoints.js:184 | with every buffer available, each placed shape issues exactly its one buffered render() command |
| Painter.ShapesInOrder | src/ModifiedColoredPoints.js:184 | with every buffer available, the shapes' part of a redraw is command k = placed shape k's command |
| Painter.PicturesInOrder | src/ModifiedColoredPoints.js:186-188 | with every buffer available, the illustration's part of a redraw is one three-vertex draw per triangle, in its own colour and in list order |
| Painter.ShapesDrawOnly | src/ModifiedColoredPoints.js:184 | placed shapes never clear the frame, only issue well-formed draws, and issue at most one command each |
| Painter.PicturesDrawOnly | src/ModifiedColoredPoints.js:186-223 | illustration triangles only ever issue three-vertex triangle draws, at most one each, and those draws are well formed when every record holds six coordinates |
| Painter.SceneOrder | src/ModifiedColoredPoints.js:181-189 | with every buffer available a redraw is the clear, then one command per placed shape in insertion order, then one draw per illustration triangle |
| Painter.SceneShapesOrder | src/ModifiedColoredPoints.js:181-184 | with every buffer available, right after the clear, command 1 + k of a redraw is placed shape k's |
| Painter.ScenePicturesOrder | src/ModifiedColoredPoints.js:181-188 | with every buffer available, after the shapes' commands, command 1 + n + k of a redraw (n placed shapes) is illustration triangle k's three-vertex draw |
| Painter.SceneClearsOnce | src/ModifiedColoredPoints.js:181-189 | a redraw clears the frame exactly once, first, then only draws, at most one command per item |
| Painter.ShapeFailureDropsOnlyItself | src/ModifiedColoredPoints.js:184 | a redraw's shape part splits around any one shape into the shapes before it, that shape's render() and the shapes after it; when that shape's buffer cannot be created and it is not a square, only its draw is missing |
| Painter.PictureFailureDropsOnlyItself | src/ModifiedColoredPoints.js:186-188 | a redraw's illustration part splits around any one triangle in the same way; when that triangle's buffer cannot be created, only its draw is missing |
| Painter.SceneWellFormed | src/ModifiedColoredPoints.js:181-189 | when every illustration record holds six coordinates, every command of a redraw is well formed |
| Painter.ShapeTraceStep | src/ModifiedColoredPoints.js:184 | one pass of the shapes loop extends the trace of the shapes before it by that shape's render() |
| Painter.PictureTraceStep | src/ModifiedColoredPoints.js:186-188 | one pass of the illustration loop extends the trace of the triangles before it by that triangle's drawColoredTriangle |
| Painter.ClearedTrace | src/ModifiedColoredPoints.js:153-157 | after the scene is emptied a redraw is the clear alone |
| Painter.TriRecord | src/ModifiedColoredPoints.js:225-230 | a recorded illustration triangle has six coordinates and the colour given |
| Painter.CatFaceShape | src/ModifiedColoredPoints.js:232-282 | the cat face has 25 triangles, each with six coordinates and an opaque colour |
| Painter.Scene.constructor | src/ModifiedColoredPoints.js:20-28 | the page starts with both lists empty (so every illustration record trivially holds six coordinates) and a white, opaque, 10-pixel square brush with 12 segments |
| Painter.Scene.Sync | src/ModifiedColoredPoints.js:128-137 | the brush becomes the sliders' channels through pctToFloat01 at alpha 1, the size and the truncated segment count; the selected type is untouched |
| Painter.Scene.SelectType | src/ModifiedColoredPoints.js:169-172 | a shape button sets only the selected type |
| Painter.Scene.RenderAllShapes | src/ModifiedColoredPoints.js:181-189 | the redraw's loops issue exactly the scene's trace (clear, shapes, then illustration) and change no state |
| Painter.Scene.HandleClick | src/ModifiedColoredPoints.js:191-205 | a click appends the brush's shape at the mapped pointer when the selected type is recognised and leaves the list unchanged otherwise, then redraws the new scene |
| Painter.Scene.ClearButton | src/ModifiedColoredPoints.js:153-157 | clearing empties both lists, and the redraw is the clear alone |
| Painter.Scene.Tri | src/ModifiedColoredPoints.js:225-230 | tri appends exactly one illustration triangle with the six coordinates and the RGBA given, so it keeps every record a six-coordinate triangle |
| Painter.Scene.AddCatFacePicture | src/ModifiedColoredPoints.js:232-282 | the illustration becomes exactly the cat face, whatever it held before, so loading it twice equals loading it once; every record then holds six coordinates |
| Painter.Scene.AddEars | src/ModifiedColoredPoints.js:244-255 | the eight ear triangles are appended in order |
| Painter.Scene.AddEyes | src/ModifiedColoredPoints.js:257-267 | the eight eye and pupil triangles are appended in order |
| Painter.Scene.AddNoseCheeks | src/ModifiedColoredPoints.js:268-270 | the nose and the two cheeks are appended in order |
| Painter.Scene.AddTeeth | src/ModifiedColoredPoints.js:273-279 | the five teeth are appended in order |
| Painter.Scene.AddChin | src/ModifiedColoredPoints.js:281 | the chin is appended |
| Painter.Scene.DrawPictureButton | src/ModifiedColoredPoints.js:161-167 | the button loads the cat face and the redraw is the scene with it, every command of which is well formed |

## Left out

- WebGL itself is not modelled: context and shader setup (`setupWebGL`,
  `connectVariablesToGLSL`), attribute and uniform locations, and buffer
  binding and upload. Each draw becomes one trace command; whether
  `gl.createBuffer` succeeds is a parameter. The `console.log` messages are
  not modelled, including "Failed to create buffer" when no buffer can be
  created (src/shapes.js:27, src/shapes.js:96); the model records only that
  the draw is skipped.
- The DOM is not modelled: element lookup, slider read-outs, event wiring in
  `setupUI` and `main`, and the drag-to-draw `mousemove` handler. A drag calls
  the same `click` handler that `HandleClick` models.
- Floating-point arithmetic and `Float32Array` rounding are not modelled:
  coordinates are reals. `Math.cos`, `Math.sin` and `Math.PI` are
  uninterpreted (`Trig`), so the circle's closure is proved only as an
  equivalence with cos/sin periodicity (`CircleFanCloses`).
- Shapes.EffectiveCount: the JS `| 0` (ToInt32, with 32-bit wrap-around) on the
  count is not modelled. The count is an integer by the time it reaches a shape,
  because `sync` already truncated it.
- Painter.Scene.Sync: `Number(...)` on the size and segment sliders is taken as
  already done. The size may not be NaN, and the segment count arrives as the
  truncated integer.
- Painter.ToGL: the canvas size is a parameter with a requires of width and
  height > 0. A zero-size canvas, where the JavaScript divides by zero, is not
  modelled.
- Trace commands do not model GL state left behind by a draw that was dropped.
  When a shape's buffer cannot be created, the uniform colour it set stays set,
  and the model does not record that.
- Painter.Scene.AddCatFacePicture: the colour constants are spread into `tri`
  as literal channels. The named constants exist only in the specification
  value `CatFace`.
