// The page-level state and handlers of the drawing canvas
// (src/ModifiedColoredPoints.js): the pointer-to-clip-space mapper, the brush
// sliders, the retained scene (placed shapes plus the cat-face illustration)
// and the full redraw that replays it.
//
// gl.clear and the draws are recorded as the command trace of module Shapes;
// whether gl.createBuffer succeeds for the k-th item drawn in a redraw is the
// parameter `ok(k)` (items are numbered in drawing order: placed shapes first,
// then illustration triangles).

module Painter {
  import opened Shapes

  datatype Option<T> = None | Some(value: T)

  /** The result of JavaScript's Number(...) on a slider value: a finite number,
      or NaN / an infinity. */
  datatype Number = Finite(value: real) | NonFinite

  /** The top-left corner of the canvas's bounding client rectangle. */
  datatype Rect = Rect(left: real, top: real)

  /** The parts of a mouse event the mapper reads. */
  datatype PointerEvent = PointerEvent(clientX: real, clientY: real, rect: Rect)

  /** One illustration triangle: six vertex coordinates and an RGBA colour. */
  datatype PictureTri = PictureTri(verts: seq<real>, color: Color)

  // ---------------------------------------------------------------------------
  // Coordinate mapper

  /** convertCoordinatesEventToGL: canvas-local pixels to clip space, y flipped. */
  function ToGL(ev: PointerEvent, width: real, height: real): (p: Point)
    requires width > 0.0 && height > 0.0
    ensures p.x * (width / 2.0) == (ev.clientX - ev.rect.left) - width / 2.0
    ensures p.y * (height / 2.0) == height / 2.0 - (ev.clientY - ev.rect.top)
  {
    var x := ev.clientX - ev.rect.left;
    var y := ev.clientY - ev.rect.top;
    Point((x - width / 2.0) / (width / 2.0), (height / 2.0 - y) / (height / 2.0))
  }

  /** The pointer position that the mapper sends to clip-space point p. */
  function FromGL(p: Point, rect: Rect, width: real, height: real): PointerEvent
  {
    PointerEvent(rect.left + width / 2.0 + p.x * (width / 2.0),
                 rect.top + height / 2.0 - p.y * (height / 2.0), rect)
  }

  /** Mapping a pointer to clip space and back gives the same pointer. */
  lemma ToGLRoundTrip(ev: PointerEvent, width: real, height: real)
    requires width > 0.0 && height > 0.0
    ensures FromGL(ToGL(ev, width, height), ev.rect, width, height) == ev
  {
    var hw, hh := width / 2.0, height / 2.0;
    var x := ev.clientX - ev.rect.left;
    var y := ev.clientY - ev.rect.top;
    assert ((x - hw) / hw) * hw == x - hw;
    assert ((hh - y) / hh) * hh == hh - y;
  }

  /** Every clip-space point is reached, by exactly the pointer FromGL gives. */
  lemma FromGLRoundTrip(p: Point, rect: Rect, width: real, height: real)
    requires width > 0.0 && height > 0.0
    ensures ToGL(FromGL(p, rect, width, height), width, height) == p
  {
    var hw, hh := width / 2.0, height / 2.0;
    assert (hw + p.x * hw - hw) / hw == p.x;
    assert (hh - (hh - p.y * hh)) / hh == p.y;
  }

  /** The canvas centre maps to the origin. */
  lemma CentreMapsToOrigin(rect: Rect, width: real, height: real)
    requires width > 0.0 && height > 0.0
    ensures ToGL(PointerEvent(rect.left + width / 2.0, rect.top + height / 2.0, rect), width, height) == Point(0.0, 0.0)
  {
  }

  /** The canvas maps exactly onto [-1, 1] x [-1, 1], left edge to -1 and top edge
      to +1; a pointer outside the canvas maps outside that square, unclamped. */
  lemma ToGLInside(ev: PointerEvent, width: real, height: real)
    requires width > 0.0 && height > 0.0
    ensures var x := ev.clientX - ev.rect.left;
      var y := ev.clientY - ev.rect.top;
      var p := ToGL(ev, width, height);
      (0.0 <= x <= width <==> -1.0 <= p.x <= 1.0) &&
      (0.0 <= y <= height <==> -1.0 <= p.y <= 1.0) &&
      (x == 0.0 ==> p.x == -1.0) && (y == 0.0 ==> p.y == 1.0)
  {
    var hw, hh := width / 2.0, height / 2.0;
    var x := ev.clientX - ev.rect.left;
    var y := ev.clientY - ev.rect.top;
    var p := ToGL(ev, width, height);
    assert p.x * hw == x - hw;
    assert p.y * hh == hh - y;
    if -1.0 <= p.x <= 1.0 {
      assert -hw <= p.x * hw <= hw;
    }
    if 0.0 <= x <= width {
      assert -1.0 * hw <= p.x * hw <= 1.0 * hw;
    }
    if -1.0 <= p.y <= 1.0 {
      assert -hh <= p.y * hh <= hh;
    }
    if 0.0 <= y <= height {
      assert -1.0 * hh <= p.y * hh <= 1.0 * hh;
    }
  }

  // ---------------------------------------------------------------------------
  // Slider percentages

  /** pctToFloat01: 0 for a non-finite value, else pct / 100 clamped into [0, 1]. */
  function PctToFloat01(pct: Number): (f: real)
    ensures 0.0 <= f <= 1.0
    ensures pct.NonFinite? ==> f == 0.0
    ensures pct.Finite? && 0.0 <= pct.value <= 100.0 ==> f == pct.value / 100.0
    ensures pct.Finite? && pct.value <= 0.0 ==> f == 0.0
    ensures pct.Finite? && 100.0 <= pct.value ==> f == 1.0
  {
    match pct
    case NonFinite => 0.0
    case Finite(n) =>
      var m := if 1.0 < n / 100.0 then 1.0 else n / 100.0;
      if 0.0 < m then m else 0.0
  }

  /** A higher slider value never gives a darker channel. */
  lemma PctMonotone(a: real, b: real)
    requires a <= b
    ensures PctToFloat01(Finite(a)) <= PctToFloat01(Finite(b))
  {
  }

  // ---------------------------------------------------------------------------
  // Placing a shape

  /** The shape handleClicks builds for the selected type, or None when the type
      is none of the four it recognises. */
  function ShapeFor(kind: string, pos: Point, col: Color, size: real, segments: int): (r: Option<Shape>)
    ensures r.Some? <==> kind in {"square", "triangle", "circle", "star"}
    ensures r.Some? ==> TypeName(r.value) == kind && r.value.position == pos &&
                        r.value.color == col && r.value.size == size
    ensures r.Some? && r.value.Circle? ==> r.value.segments == segments
    ensures r.Some? && r.value.Star? ==> r.value.points == segments
  {
    if kind == "square" then Some(Square(pos, col, size))
    else if kind == "triangle" then Some(Triangle(pos, col, size))
    else if kind == "circle" then Some(Circle(pos, col, size, segments))
    else if kind == "star" then Some(Star(pos, col, size, segments))
    else None
  }

  /** The colour a placed shape gets: a copy of the brush's RGB with alpha 1.0. */
  function Paint(brush: Color): (c: Color)
    ensures c.a == 1.0 && c.r == brush.r && c.g == brush.g && c.b == brush.b
  {
    Color(brush.r, brush.g, brush.b, 1.0)
  }

  // ---------------------------------------------------------------------------
  // The redraw trace

  /** drawColoredTriangle: one three-vertex draw in the triangle's colour, or nothing
      when no buffer could be created. */
  function PictureCommands(p: PictureTri, bufferOk: bool): (cmds: seq<Cmd>)
    ensures |cmds| == (if bufferOk then 1 else 0)
    ensures bufferOk ==> cmds[0].DrawTriangles? && cmds[0].count == 3 && cmds[0].color == p.color
    ensures bufferOk ==> (WellFormed(cmds[0]) <==> |p.verts| == 6)
  {
    if bufferOk then [DrawTriangles(p.verts, 3, p.color)] else []
  }

  /** The draws of a list of items, in list order: item k is drawn by `draw` as
      item number base + k of the redraw (that number picks its buffer outcome). */
  function Trace<T>(items: seq<T>, draw: (T, nat) -> seq<Cmd>, base: nat): seq<Cmd>
  {
    if items == [] then []
    else Trace(items[..|items| - 1], draw, base) + draw(items[|items| - 1], base + |items| - 1)
  }

  /** How a redraw draws placed shape number k: that shape's render(). */
  function ShapeDraw(t: Trig, ok: nat -> bool): (Shape, nat) -> seq<Cmd>
  {
    (s: Shape, k: nat) => ShapeCommands(s, t, ok(k))
  }

  /** How a redraw draws illustration triangle number k: drawColoredTriangle. */
  function PictureDraw(ok: nat -> bool): (PictureTri, nat) -> seq<Cmd>
  {
    (p: PictureTri, k: nat) => PictureCommands(p, ok(k))
  }

  /** renderAllShapes: clear the frame, draw every placed shape, then every
      illustration triangle. */
  function SceneTrace(shapes: seq<Shape>, pics: seq<PictureTri>, t: Trig, ok: nat -> bool): (trace: seq<Cmd>)
    ensures |trace| >= 1 && trace[0] == ClearFrame
  {
    [ClearFrame] + Trace(shapes, ShapeDraw(t, ok), 0) + Trace(pics, PictureDraw(ok), |shapes|)
  }

  /** Drawing one more item appends that item's commands. */
  lemma TraceSnoc<T>(items: seq<T>, x: T, draw: (T, nat) -> seq<Cmd>, base: nat)
    ensures Trace(items + [x], draw, base) == Trace(items, draw, base) + draw(x, base + |items|)
  {
    assert (items + [x])[..|items|] == items;
  }

  /** Each item's draws depend only on that item and its own number: the trace of
      a concatenation is the concatenation of the traces. */
  lemma {:induction false} TraceAppend<T>(a: seq<T>, b: seq<T>, draw: (T, nat) -> seq<Cmd>, base: nat)
    ensures Trace(a + b, draw, base) == Trace(a, draw, base) + Trace(b, draw, base + |a|)
    decreases |b|
  {
    if b != [] {
      var b' := b[..|b| - 1];
      assert (a + b)[..|a + b| - 1] == a + b';
      TraceAppend(a, b', draw, base);
    } else {
      assert a + b == a;
    }
  }

  /** The trace of a list around one item x: the items before it, then x's own
      commands under its own number, then the items after it under theirs. */
  lemma TraceSplit<T>(a: seq<T>, x: T, b: seq<T>, draw: (T, nat) -> seq<Cmd>, base: nat)
    ensures Trace(a + [x] + b, draw, base)
      == Trace(a, draw, base) + draw(x, base + |a|) + Trace(b, draw, base + |a| + 1)
  {
    TraceAppend(a + [x], b, draw, base);
    TraceSnoc(a, x, draw, base);
  }

  /** When every item issues exactly one command, command k is item k's. */
  lemma {:induction false} TraceOnePerItem<T>(items: seq<T>, draw: (T, nat) -> seq<Cmd>, base: nat)
    requires forall x: T, k: nat :: |draw(x, k)| == 1
    ensures |Trace(items, draw, base)| == |items|
    ensures forall k :: 0 <= k < |items| ==> Trace(items, draw, base)[k] == draw(items[k], base + k)[0]
  {
    if items != [] {
      var init := items[..|items| - 1];
      TraceOnePerItem(init, draw, base);
      forall k | 0 <= k < |init| ensures init[k] == items[k] { }
    }
  }

  /** When every item issues at most one command, so does the whole list. */
  lemma {:induction false} TraceAtMostOne<T>(items: seq<T>, draw: (T, nat) -> seq<Cmd>, base: nat)
    requires forall x: T, k: nat :: |draw(x, k)| <= 1
    ensures |Trace(items, draw, base)| <= |items|
  {
    if items != [] {
      TraceAtMostOne(items[..|items| - 1], draw, base);
    }
  }

  /** A property of every command any item issues holds of every command in the trace. */
  lemma {:induction false} TraceAll<T>(items: seq<T>, draw: (T, nat) -> seq<Cmd>, base: nat, P: Cmd -> bool)
    requires forall x: T, k: nat, c :: c in draw(x, k) ==> P(c)
    ensures forall c :: c in Trace(items, draw, base) ==> P(c)
  {
    if items != [] {
      TraceAll(items[..|items| - 1], draw, base, P);
    }
  }

  /** A property of every command the listed items issue holds of every command
      in the trace. */
  lemma {:induction false} TraceAllListed<T>(items: seq<T>, draw: (T, nat) -> seq<Cmd>, base: nat, P: Cmd -> bool)
    requires forall x: T, k: nat, c :: x in items && c in draw(x, k) ==> P(c)
    ensures forall c :: c in Trace(items, draw, base) ==> P(c)
  {
    if items != [] {
      var init := items[..|items| - 1];
      assert forall x :: x in init ==> x in items;
      TraceAllListed(init, draw, base, P);
      assert items[|items| - 1] in items;
    }
  }

  /** A placed shape issues at most one command, never a frame clear, and only
      well-formed draws, whatever its buffer outcome. */
  lemma ShapeDrawFacts(t: Trig, ok: nat -> bool)
    ensures forall s: Shape, k: nat :: |ShapeDraw(t, ok)(s, k)| <= 1
    ensures forall s: Shape, k: nat, c :: c in ShapeDraw(t, ok)(s, k) ==> !c.ClearFrame? && WellFormed(c)
  {
    forall s: Shape, k: nat
      ensures |ShapeDraw(t, ok)(s, k)| <= 1
      ensures forall c :: c in ShapeDraw(t, ok)(s, k) ==> !c.ClearFrame? && WellFormed(c)
    {
      ShapeCommandsShape(s, t, ok(k));
    }
  }

  /** A redraw with every buffer available replays the scene in insertion order:
      the frame clear, then one command per placed shape, then one draw per
      illustration triangle. */
  lemma SceneOrder(shapes: seq<Shape>, pics: seq<PictureTri>, t: Trig, ok: nat -> bool)
    requires forall k: nat :: ok(k)
    ensures var trace := SceneTrace(shapes, pics, t, ok);
      |trace| == 1 + |shapes| + |pics| && trace[0] == ClearFrame &&
      (forall k :: 0 <= k < |shapes| ==> trace[1 + k] == ShapeCommands(shapes[k], t, true)[0]) &&
      (forall k :: 0 <= k < |pics| ==> trace[1 + |shapes| + k] == DrawTriangles(pics[k].verts, 3, pics[k].color))
  {
    SceneShapesOrder(shapes, pics, t, ok);
    ScenePicturesOrder(shapes, pics, t, ok);
  }

  /** The shapes' half of SceneOrder: right after the clear, placed shape k
      issues command 1 + k. */
  lemma SceneShapesOrder(shapes: seq<Shape>, pics: seq<PictureTri>, t: Trig, ok: nat -> bool)
    requires forall k: nat :: ok(k)
    ensures var trace := SceneTrace(shapes, pics, t, ok);
      |trace| == 1 + |shapes| + |pics| &&
      forall k :: 0 <= k < |shapes| ==> trace[1 + k] == ShapeCommands(shapes[k], t, true)[0]
  {
    ShapesInOrder(shapes, t, ok, 0);
    PicturesInOrder(pics, ok, |shapes|);
    var st := Trace(shapes, ShapeDraw(t, ok), 0);
    var trace := SceneTrace(shapes, pics, t, ok);
    assert trace == [ClearFrame] + st + Trace(pics, PictureDraw(ok), |shapes|);
    forall k | 0 <= k < |shapes| ensures trace[1 + k] == ShapeCommands(shapes[k], t, true)[0] {
      assert trace[1 + k] == st[k];
    }
  }

  /** The illustration's half of SceneOrder: after the shapes, illustration
      triangle k issues command 1 + |shapes| + k. */
  lemma ScenePicturesOrder(shapes: seq<Shape>, pics: seq<PictureTri>, t: Trig, ok: nat -> bool)
    requires forall k: nat :: ok(k)
    ensures var trace := SceneTrace(shapes, pics, t, ok);
      |trace| == 1 + |shapes| + |pics| &&
      forall k :: 0 <= k < |pics| ==> trace[1 + |shapes| + k] == DrawTriangles(pics[k].verts, 3, pics[k].color)
  {
    ShapesInOrder(shapes, t, ok, 0);
    PicturesInOrder(pics, ok, |shapes|);
    var st := Trace(shapes, ShapeDraw(t, ok), 0);
    var pt := Trace(pics, PictureDraw(ok), |shapes|);
    var trace := SceneTrace(shapes, pics, t, ok);
    assert trace == [ClearFrame] + st + pt;
    forall k | 0 <= k < |pics| ensures trace[1 + |shapes| + k] == DrawTriangles(pics[k].verts, 3, pics[k].color) {
      assert trace[1 + |shapes| + k] == pt[k];
    }
  }

  /** With every buffer available, placed shape k issues exactly command k. */
  lemma ShapesInOrder(shapes: seq<Shape>, t: Trig, ok: nat -> bool, base: nat)
    requires forall k: nat :: ok(k)
    ensures var st := Trace(shapes, ShapeDraw(t, ok), base);
      |st| == |shapes| && forall k :: 0 <= k < |shapes| ==> st[k] == ShapeCommands(shapes[k], t, true)[0]
  {
    ShapeDrawAllOk(t, ok);
    TraceOnePerItem(shapes, ShapeDraw(t, ok), base);
  }

  /** With every buffer available, illustration triangle k issues exactly draw k. */
  lemma PicturesInOrder(pics: seq<PictureTri>, ok: nat -> bool, base: nat)
    requires forall k: nat :: ok(k)
    ensures var pt := Trace(pics, PictureDraw(ok), base);
      |pt| == |pics| && forall k :: 0 <= k < |pics| ==> pt[k] == DrawTriangles(pics[k].verts, 3, pics[k].color)
  {
    var pd := PictureDraw(ok);
    forall p: PictureTri, k: nat ensures pd(p, k) == [DrawTriangles(p.verts, 3, p.color)] {
      assert ok(k);
    }
    TraceOnePerItem(pics, pd, base);
    var pt := Trace(pics, pd, base);
    forall k | 0 <= k < |pics| ensures pt[k] == DrawTriangles(pics[k].verts, 3, pics[k].color) {
      assert pt[k] == pd(pics[k], base + k)[0];
    }
  }

  /** With every buffer available, each placed shape issues exactly its render()
      with a buffer: one command. */
  lemma ShapeDrawAllOk(t: Trig, ok: nat -> bool)
    requires forall k: nat :: ok(k)
    ensures forall s: Shape, k: nat :: ShapeDraw(t, ok)(s, k) == ShapeCommands(s, t, true)
    ensures forall s: Shape, k: nat :: |ShapeDraw(t, ok)(s, k)| == 1
  {
    forall s: Shape, k: nat
      ensures ShapeDraw(t, ok)(s, k) == ShapeCommands(s, t, true)
      ensures |ShapeDraw(t, ok)(s, k)| == 1
    {
      assert ok(k);
      ShapeCommandsShape(s, t, true);
    }
  }

  /** Placed shapes never clear the frame and only issue well-formed draws. */
  lemma ShapesDrawOnly(shapes: seq<Shape>, t: Trig, ok: nat -> bool, base: nat)
    ensures forall c :: c in Trace(shapes, ShapeDraw(t, ok), base) ==> !c.ClearFrame? && WellFormed(c)
    ensures |Trace(shapes, ShapeDraw(t, ok), base)| <= |shapes|
  {
    ShapeDrawFacts(t, ok);
    TraceAll(shapes, ShapeDraw(t, ok), base, (c: Cmd) => !c.ClearFrame? && WellFormed(c));
    TraceAtMostOne(shapes, ShapeDraw(t, ok), base);
  }

  /** Illustration triangles are only ever three-vertex triangle draws, and those
      draws are well-formed when every record holds six coordinates. */
  lemma PicturesDrawOnly(pics: seq<PictureTri>, ok: nat -> bool, base: nat)
    ensures forall c :: c in Trace(pics, PictureDraw(ok), base) ==> c.DrawTriangles? && c.count == 3
    ensures |Trace(pics, PictureDraw(ok), base)| <= |pics|
    ensures (forall p :: p in pics ==> |p.verts| == 6) ==>
      forall c :: c in Trace(pics, PictureDraw(ok), base) ==> WellFormed(c)
  {
    forall p: PictureTri, k: nat
      ensures |PictureDraw(ok)(p, k)| <= 1
      ensures forall c :: c in PictureDraw(ok)(p, k) ==> c.DrawTriangles? && c.count == 3
    {
      assert PictureDraw(ok)(p, k) == PictureCommands(p, ok(k));
    }
    TraceAll(pics, PictureDraw(ok), base, (c: Cmd) => c.DrawTriangles? && c.count == 3);
    TraceAtMostOne(pics, PictureDraw(ok), base);
    if forall p :: p in pics ==> |p.verts| == 6 {
      forall p: PictureTri, k: nat, c | p in pics && c in PictureDraw(ok)(p, k) ensures WellFormed(c)
      {
        assert PictureDraw(ok)(p, k) == PictureCommands(p, ok(k));
      }
      TraceAllListed(pics, PictureDraw(ok), base, WellFormed);
    }
  }

  /** Painter's algorithm: a redraw clears the frame once, first, and then only
      draws; a failed buffer only drops that item's draw, so the trace is never
      longer than one command per item. */
  lemma SceneClearsOnce(shapes: seq<Shape>, pics: seq<PictureTri>, t: Trig, ok: nat -> bool)
    ensures var trace := SceneTrace(shapes, pics, t, ok);
      trace[0] == ClearFrame &&
      (forall k :: 1 <= k < |trace| ==> !trace[k].ClearFrame?) &&
      |trace| <= 1 + |shapes| + |pics|
  {
    ShapesDrawOnly(shapes, t, ok, 0);
    PicturesDrawOnly(pics, ok, |shapes|);
    var st := Trace(shapes, ShapeDraw(t, ok), 0);
    var pt := Trace(pics, PictureDraw(ok), |shapes|);
    var trace := SceneTrace(shapes, pics, t, ok);
    forall k | 1 <= k < |trace| ensures !trace[k].ClearFrame?
    {
      if k < 1 + |st| {
        assert trace[k] == st[k - 1] && st[k - 1] in st;
      } else {
        assert trace[k] == pt[k - 1 - |st|] && pt[k - 1 - |st|] in pt;
      }
    }
  }

  /** A placed shape whose buffer cannot be created drops only its own draw: the
      shapes before and after it draw exactly as they would otherwise. */
  lemma ShapeFailureDropsOnlyItself(a: seq<Shape>, s: Shape, b: seq<Shape>, t: Trig, ok: nat -> bool, base: nat)
    ensures Trace(a + [s] + b, ShapeDraw(t, ok), base)
      == Trace(a, ShapeDraw(t, ok), base) + ShapeCommands(s, t, ok(base + |a|)) +
         Trace(b, ShapeDraw(t, ok), base + |a| + 1)
    ensures !ok(base + |a|) && !s.Square? ==>
      Trace(a + [s] + b, ShapeDraw(t, ok), base)
        == Trace(a, ShapeDraw(t, ok), base) + Trace(b, ShapeDraw(t, ok), base + |a| + 1)
  {
    TraceSplit(a, s, b, ShapeDraw(t, ok), base);
    assert ShapeDraw(t, ok)(s, base + |a|) == ShapeCommands(s, t, ok(base + |a|));
    ShapeCommandsShape(s, t, ok(base + |a|));
  }

  /** An illustration triangle whose buffer cannot be created drops only its own
      draw: the triangles before and after it draw exactly as they would otherwise. */
  lemma PictureFailureDropsOnlyItself(a: seq<PictureTri>, p: PictureTri, b: seq<PictureTri>, ok: nat -> bool, base: nat)
    ensures Trace(a + [p] + b, PictureDraw(ok), base)
      == Trace(a, PictureDraw(ok), base) + PictureCommands(p, ok(base + |a|)) +
         Trace(b, PictureDraw(ok), base + |a| + 1)
    ensures !ok(base + |a|) ==>
      Trace(a + [p] + b, PictureDraw(ok), base)
        == Trace(a, PictureDraw(ok), base) + Trace(b, PictureDraw(ok), base + |a| + 1)
  {
    TraceSplit(a, p, b, PictureDraw(ok), base);
    assert PictureDraw(ok)(p, base + |a|) == PictureCommands(p, ok(base + |a|));
  }

  /** When every illustration record holds six coordinates, every command of a
      redraw is well-formed. */
  lemma SceneWellFormed(shapes: seq<Shape>, pics: seq<PictureTri>, t: Trig, ok: nat -> bool)
    ensures (forall p :: p in pics ==> |p.verts| == 6) ==>
      forall c :: c in SceneTrace(shapes, pics, t, ok) ==> WellFormed(c)
  {
    ShapesDrawOnly(shapes, t, ok, 0);
    PicturesDrawOnly(pics, ok, |shapes|);
    var st := Trace(shapes, ShapeDraw(t, ok), 0);
    var pt := Trace(pics, PictureDraw(ok), |shapes|);
    assert forall c :: c in SceneTrace(shapes, pics, t, ok) ==> c == ClearFrame || c in st || c in pt;
  }

  /** One pass of renderAllShapes's first loop: drawing shape i extends the trace
      of the shapes before it by that shape's render(). */
  lemma ShapeTraceStep(shapes: seq<Shape>, i: nat, t: Trig, ok: nat -> bool)
    requires i < |shapes|
    ensures Trace(shapes[..i + 1], ShapeDraw(t, ok), 0)
      == Trace(shapes[..i], ShapeDraw(t, ok), 0) + ShapeCommands(shapes[i], t, ok(i))
  {
    assert shapes[..i + 1] == shapes[..i] + [shapes[i]];
    TraceSnoc(shapes[..i], shapes[i], ShapeDraw(t, ok), 0);
  }

  /** One pass of renderAllShapes's second loop: drawing illustration triangle j
      extends the trace of the triangles before it by its drawColoredTriangle. */
  lemma PictureTraceStep(pics: seq<PictureTri>, j: nat, ok: nat -> bool, base: nat)
    requires j < |pics|
    ensures Trace(pics[..j + 1], PictureDraw(ok), base)
      == Trace(pics[..j], PictureDraw(ok), base) + PictureCommands(pics[j], ok(base + j))
  {
    assert pics[..j + 1] == pics[..j] + [pics[j]];
    TraceSnoc(pics[..j], pics[j], PictureDraw(ok), base);
  }

  /** After the scene is emptied, a redraw is the frame clear alone. */
  lemma ClearedTrace(t: Trig, ok: nat -> bool)
    ensures SceneTrace([], [], t, ok) == [ClearFrame]
  {
  }

  // ---------------------------------------------------------------------------
  // The cat-face illustration

  const Out: Color := Color(0.05, 0.05, 0.05, 1.0)
  const FaceGrey: Color := Color(0.75, 0.78, 0.85, 1.0)
  const EyeWhite: Color := Color(0.90, 0.95, 1.00, 1.0)
  const Pupil: Color := Color(0.05, 0.05, 0.05, 1.0)
  const Nose: Color := Color(0.95, 0.55, 0.65, 1.0)
  const Tooth: Color := Color(0.95, 0.95, 0.95, 1.0)

  /** One illustration triangle as tri(...) records it. */
  function TriRecord(x1: real, y1: real, x2: real, y2: real, x3: real, y3: real, col: Color): (p: PictureTri)
    ensures |p.verts| == 6 && p.color == col
  {
    PictureTri([x1, y1, x2, y2, x3, y3], col)
  }

  /** The ears: outer grey, inner dark, and the grey tufts at their bases. */
  const CatEars: seq<PictureTri> := [
    TriRecord(-0.75, 0.55, -0.45, 0.55, -0.60, 0.88, FaceGrey),
    TriRecord(-0.68, 0.58, -0.52, 0.58, -0.60, 0.74, Out),
    TriRecord(-0.86, 0.42, -0.62, 0.42, -0.75, 0.55, FaceGrey),
    TriRecord(-0.58, 0.42, -0.34, 0.42, -0.45, 0.55, FaceGrey),
    TriRecord(0.45, 0.55, 0.75, 0.55, 0.60, 0.88, FaceGrey),
    TriRecord(0.52, 0.58, 0.68, 0.58, 0.60, 0.74, Out),
    TriRecord(0.62, 0.42, 0.86, 0.42, 0.75, 0.55, FaceGrey),
    TriRecord(0.34, 0.42, 0.58, 0.42, 0.45, 0.55, FaceGrey)
  ]

  /** The eyes: three white triangles and a dark pupil each. */
  const CatEyes: seq<PictureTri> := [
    TriRecord(-0.55, 0.10, -0.25, 0.10, -0.40, 0.32, EyeWhite),
    TriRecord(-0.58, -0.08, -0.40, 0.10, -0.70, 0.10, EyeWhite),
    TriRecord(-0.22, -0.08, -0.10, 0.10, -0.40, 0.10, EyeWhite),
    TriRecord(-0.43, 0.07, -0.37, 0.07, -0.40, 0.16, Pupil),
    TriRecord(0.25, 0.10, 0.55, 0.10, 0.40, 0.32, EyeWhite),
    TriRecord(0.10, 0.10, 0.40, 0.10, 0.22, -0.08, EyeWhite),
    TriRecord(0.40, 0.10, 0.70, 0.10, 0.58, -0.08, EyeWhite),
    TriRecord(0.37, 0.07, 0.43, 0.07, 0.40, 0.16, Pupil)
  ]

  /** The nose and the two cheeks. */
  const CatNoseCheeks: seq<PictureTri> := [
    TriRecord(-0.06, -0.05, 0.06, -0.05, 0.0, -0.16, Nose),
    TriRecord(-0.35, -0.10, 0.0, -0.16, -0.55, -0.32, FaceGrey),
    TriRecord(0.35, -0.10, 0.55, -0.32, 0.0, -0.16, FaceGrey)
  ]

  /** The five teeth. */
  const CatTeeth: seq<PictureTri> := [
    TriRecord(-0.42, -0.52, -0.30, -0.52, -0.36, -0.40, Tooth),
    TriRecord(-0.30, -0.52, -0.18, -0.52, -0.24, -0.40, Tooth),
    TriRecord(-0.12, -0.52, 0.00, -0.52, -0.06, -0.40, Tooth),
    TriRecord(0.06, -0.52, 0.18, -0.52, 0.12, -0.40, Tooth),
    TriRecord(0.24, -0.52, 0.36, -0.52, 0.30, -0.40, Tooth)
  ]

  /** The chin. */
  const CatChin: seq<PictureTri> := [
    TriRecord(-0.65, -0.30, 0.65, -0.30, 0.0, -0.75, FaceGrey)
  ]

  /** The 25 triangles addCatFacePicture records, in order. */
  const CatFace: seq<PictureTri> := CatEars + CatEyes + CatNoseCheeks + CatTeeth + CatChin

  /** The illustration has 25 triangles, each with six coordinates and an opaque colour. */
  lemma CatFaceShape()
    ensures |CatFace| == 25
    ensures forall p :: p in CatFace ==> |p.verts| == 6 && p.color.a == 1.0
  {
    assert forall p :: p in CatEars ==> |p.verts| == 6 && p.color.a == 1.0;
    assert forall p :: p in CatEyes ==> |p.verts| == 6 && p.color.a == 1.0;
    assert forall p :: p in CatNoseCheeks ==> |p.verts| == 6 && p.color.a == 1.0;
    assert forall p :: p in CatTeeth ==> |p.verts| == 6 && p.color.a == 1.0;
    assert forall p :: p in CatChin ==> |p.verts| == 6 && p.color.a == 1.0;
  }

  // ---------------------------------------------------------------------------
  // The page's state: the two retained lists and the brush

  class Scene {
    /** shapesList: the placed shapes, in insertion (= drawing) order. */
    var shapesList: seq<Shape>
    /** pictureTriangles: the illustration's triangles. */
    var pictureTriangles: seq<PictureTri>
    /** g_selectedColor, g_selectedSize, g_selectedSegments, g_selectedType. */
    var selectedColor: Color
    var selectedSize: real
    var selectedSegments: int
    var selectedType: string

    /** Every illustration record holds the six coordinates of one triangle. */
    predicate PicturesHoldTriangles()
      reads this
    {
      forall p :: p in pictureTriangles ==> |p.verts| == 6
    }

    /** The module's initial state: empty lists, a white 10-pixel square brush with 12 segments. */
    constructor ()
      ensures shapesList == [] && pictureTriangles == [] && PicturesHoldTriangles()
      ensures selectedColor == Color(1.0, 1.0, 1.0, 1.0) && selectedSize == 10.0
      ensures selectedSegments == 12 && selectedType == "square"
    {
      shapesList := [];
      pictureTriangles := [];
      selectedColor := Color(1.0, 1.0, 1.0, 1.0);
      selectedSize := 10.0;
      selectedSegments := 12;
      selectedType := "square";
    }

    /** sync(): reads the sliders into a fresh brush. Slider values arrive as
        Number(...) results; the segment count already truncated by `| 0`. */
    method Sync(red: Number, green: Number, blue: Number, size: real, segments: int)
      modifies this`selectedColor, this`selectedSize, this`selectedSegments
      ensures selectedColor == Color(PctToFloat01(red), PctToFloat01(green), PctToFloat01(blue), 1.0)
      ensures selectedSize == size && selectedSegments == segments
    {
      selectedColor := Color(PctToFloat01(red), PctToFloat01(green), PctToFloat01(blue), 1.0);
      selectedSize := size;
      selectedSegments := segments;
    }

    /** The four shape buttons: select the shape type the next click places. */
    method SelectType(kind: string)
      modifies this`selectedType
      ensures selectedType == kind
    {
      selectedType := kind;
    }

    /** renderAllShapes: clear, then draw every placed shape, then every illustration triangle. */
    method RenderAllShapes(t: Trig, ok: nat -> bool) returns (trace: seq<Cmd>)
      ensures trace == SceneTrace(shapesList, pictureTriangles, t, ok)
    {
      var shapes, pics := shapesList, pictureTriangles;
      trace := [ClearFrame];
      var i := 0;
      while i < |shapes|
        invariant 0 <= i <= |shapes|
        invariant trace == [ClearFrame] + Trace(shapes[..i], ShapeDraw(t, ok), 0)
      {
        var cmds := Render(shapes[i], t, ok(i));
        ShapeTraceStep(shapes, i, t, ok);
        trace := trace + cmds;
        i := i + 1;
      }
      assert shapes[..i] == shapes;
      ghost var shapesDrawn := trace;
      var j := 0;
      while j < |pics|
        invariant 0 <= j <= |pics|
        invariant trace == shapesDrawn + Trace(pics[..j], PictureDraw(ok), |shapes|)
      {
        var cmds := PictureCommands(pics[j], ok(|shapes| + j));
        PictureTraceStep(pics, j, ok, |shapes|);
        trace := trace + cmds;
        j := j + 1;
      }
      assert pics[..j] == pics;
    }

    /** handleClicks: place one shape of the selected type at the pointer, with
        the brush's size and segments and its RGB at full alpha, then redraw. */
    method HandleClick(ev: PointerEvent, width: real, height: real, t: Trig, ok: nat -> bool)
      returns (trace: seq<Cmd>)
      requires width > 0.0 && height > 0.0
      modifies this`shapesList
      ensures var placed := ShapeFor(selectedType, ToGL(ev, width, height), Paint(selectedColor),
                                     selectedSize, selectedSegments);
        shapesList == old(shapesList) + (if placed.Some? then [placed.value] else [])
      ensures trace == SceneTrace(shapesList, pictureTriangles, t, ok)
    {
      var p := ToGL(ev, width, height);
      var col := Color(selectedColor.r, selectedColor.g, selectedColor.b, 1.0);
      if selectedType == "square" {
        shapesList := shapesList + [Square(p, col, selectedSize)];
      } else if selectedType == "triangle" {
        shapesList := shapesList + [Triangle(p, col, selectedSize)];
      } else if selectedType == "circle" {
        shapesList := shapesList + [Circle(p, col, selectedSize, selectedSegments)];
      } else if selectedType == "star" {
        shapesList := shapesList + [Star(p, col, selectedSize, selectedSegments)];
      }
      trace := RenderAllShapes(t, ok);
    }

    /** The clear button: empty both lists, then redraw. */
    method ClearButton(t: Trig, ok: nat -> bool) returns (trace: seq<Cmd>)
      modifies this`shapesList, this`pictureTriangles
      ensures shapesList == [] && pictureTriangles == [] && PicturesHoldTriangles()
      ensures trace == [ClearFrame]
    {
      shapesList := [];
      pictureTriangles := [];
      trace := RenderAllShapes(t, ok);
    }

    /** tri(...): record one illustration triangle; alpha defaults to 1.0. */
    method Tri(x1: real, y1: real, x2: real, y2: real, x3: real, y3: real,
               r: real, g: real, b: real, a: real := 1.0)
      modifies this`pictureTriangles
      ensures pictureTriangles == old(pictureTriangles) + [TriRecord(x1, y1, x2, y2, x3, y3, Color(r, g, b, a))]
      ensures old(PicturesHoldTriangles()) ==> PicturesHoldTriangles()
    {
      pictureTriangles := pictureTriangles + [PictureTri([x1, y1, x2, y2, x3, y3], Color(r, g, b, a))];
    }

    /** addCatFacePicture: replace the illustration with the cat face. Whatever was
        there before is dropped, so calling it again changes nothing. */
    method AddCatFacePicture()
      modifies this`pictureTriangles
      ensures pictureTriangles == CatFace && PicturesHoldTriangles()
    {
      CatFaceShape();
      pictureTriangles := [];
      AddEars();
      AddEyes();
      AddNoseCheeks();
      AddTeeth();
      AddChin();
    }

    /** The tri(...) calls of addCatFacePicture that draw the ears. */
    method AddEars()
      modifies this`pictureTriangles
      ensures pictureTriangles == old(pictureTriangles) + CatEars
    {
      Tri(-0.75, 0.55, -0.45, 0.55, -0.60, 0.88, 0.75, 0.78, 0.85, 1.0);
      Tri(-0.68, 0.58, -0.52, 0.58, -0.60, 0.74, 0.05, 0.05, 0.05, 1.0);
      Tri(-0.86, 0.42, -0.62, 0.42, -0.75, 0.55, 0.75, 0.78, 0.85, 1.0);
      Tri(-0.58, 0.42, -0.34, 0.42, -0.45, 0.55, 0.75, 0.78, 0.85, 1.0);
      Tri(0.45, 0.55, 0.75, 0.55, 0.60, 0.88, 0.75, 0.78, 0.85, 1.0);
      Tri(0.52, 0.58, 0.68, 0.58, 0.60, 0.74, 0.05, 0.05, 0.05, 1.0);
      Tri(0.62, 0.42, 0.86, 0.42, 0.75, 0.55, 0.75, 0.78, 0.85, 1.0);
      Tri(0.34, 0.42, 0.58, 0.42, 0.45, 0.55, 0.75, 0.78, 0.85, 1.0);
    }

    /** The tri(...) calls of addCatFacePicture that draw the eyes. */
    method AddEyes()
      modifies this`pictureTriangles
      ensures pictureTriangles == old(pictureTriangles) + CatEyes
    {
      Tri(-0.55, 0.10, -0.25, 0.10, -0.40, 0.32, 0.90, 0.95, 1.00, 1.0);
      Tri(-0.58, -0.08, -0.40, 0.10, -0.70, 0.10, 0.90, 0.95, 1.00, 1.0);
      Tri(-0.22, -0.08, -0.10, 0.10, -0.40, 0.10, 0.90, 0.95, 1.00, 1.0);
      Tri(-0.43, 0.07, -0.37, 0.07, -0.40, 0.16, 0.05, 0.05, 0.05, 1.0);
      Tri(0.25, 0.10, 0.55, 0.10, 0.40, 0.32, 0.90, 0.95, 1.00, 1.0);
      Tri(0.10, 0.10, 0.40, 0.10, 0.22, -0.08, 0.90, 0.95, 1.00, 1.0);
      Tri(0.40, 0.10, 0.70, 0.10, 0.58, -0.08, 0.90, 0.95, 1.00, 1.0);
      Tri(0.37, 0.07, 0.43, 0.07, 0.40, 0.16, 0.05, 0.05, 0.05, 1.0);
    }

    /** The tri(...) calls of addCatFacePicture that draw the nose and cheeks. */
    method AddNoseCheeks()
      modifies this`pictureTriangles
      ensures pictureTriangles == old(pictureTriangles) + CatNoseCheeks
    {
      Tri(-0.06, -0.05, 0.06, -0.05, 0.0, -0.16, 0.95, 0.55, 0.65, 1.0);
      Tri(-0.35, -0.10, 0.0, -0.16, -0.55, -0.32, 0.75, 0.78, 0.85, 1.0);
      Tri(0.35, -0.10, 0.55, -0.32, 0.0, -0.16, 0.75, 0.78, 0.85, 1.0);
    }

    /** The tri(...) calls of addCatFacePicture that draw the teeth. */
    method AddTeeth()
      modifies this`pictureTriangles
      ensures pictureTriangles == old(pictureTriangles) + CatTeeth
    {
      Tri(-0.42, -0.52, -0.30, -0.52, -0.36, -0.40, 0.95, 0.95, 0.95, 1.0);
      Tri(-0.30, -0.52, -0.18, -0.52, -0.24, -0.40, 0.95, 0.95, 0.95, 1.0);
      Tri(-0.12, -0.52, 0.00, -0.52, -0.06, -0.40, 0.95, 0.95, 0.95, 1.0);
      Tri(0.06, -0.52, 0.18, -0.52, 0.12, -0.40, 0.95, 0.95, 0.95, 1.0);
      Tri(0.24, -0.52, 0.36, -0.52, 0.30, -0.40, 0.95, 0.95, 0.95, 1.0);
    }

    /** The tri(...) calls of addCatFacePicture that draw the chin. */
    method AddChin()
      modifies this`pictureTriangles
      ensures pictureTriangles == old(pictureTriangles) + CatChin
    {
      Tri(-0.65, -0.30, 0.65, -0.30, 0.0, -0.75, 0.75, 0.78, 0.85, 1.0);
    }

    /** The draw-picture button: load the illustration, then redraw. */
    method DrawPictureButton(t: Trig, ok: nat -> bool) returns (trace: seq<Cmd>)
      modifies this`pictureTriangles
      ensures pictureTriangles == CatFace && PicturesHoldTriangles()
      ensures trace == SceneTrace(shapesList, CatFace, t, ok)
      ensures forall c :: c in trace ==> WellFormed(c)
    {
      AddCatFacePicture();
      trace := RenderAllShapes(t, ok);
      SceneWellFormed(shapesList, CatFace, t, ok);
    }
  }

  /** On a 400 x 400 canvas a red 20-pixel square clicked at the centre is one
      point draw at the origin. */
  method ClickScenario(t: Trig)
  {
    var allOk: nat -> bool := _ => true;
    var scene := new Scene();
    scene.Sync(Finite(100.0), Finite(0.0), Finite(0.0), 20.0, 12);
    var centre := PointerEvent(200.0, 200.0, Rect(0.0, 0.0));
    var trace := scene.HandleClick(centre, 400.0, 400.0, t, allOk);
    var red := Color(1.0, 0.0, 0.0, 1.0);
    assert ToGL(centre, 400.0, 400.0) == Point(0.0, 0.0);
    assert scene.shapesList == [Square(Point(0.0, 0.0), red, 20.0)];
    TraceSnoc([], Square(Point(0.0, 0.0), red, 20.0), ShapeDraw(t, allOk), 0);
    assert ShapeDraw(t, allOk)(Square(Point(0.0, 0.0), red, 20.0), 0)
        == ShapeCommands(Square(Point(0.0, 0.0), red, 20.0), t, allOk(0));
    assert trace == [ClearFrame, DrawPoint(Point(0.0, 0.0), red, 20.0)];
  }

  /** A brush change after a click does not alter the placed shape; the next
      click places a green triangle with the new size. */
  method BrushScenario(t: Trig)
  {
    var allOk: nat -> bool := _ => true;
    var scene := new Scene();
    scene.Sync(Finite(100.0), Finite(0.0), Finite(0.0), 20.0, 12);
    var centre := PointerEvent(200.0, 200.0, Rect(0.0, 0.0));
    var trace := scene.HandleClick(centre, 400.0, 400.0, t, allOk);
    var red := Color(1.0, 0.0, 0.0, 1.0);
    assert ToGL(centre, 400.0, 400.0) == Point(0.0, 0.0);
    assert scene.shapesList == [Square(Point(0.0, 0.0), red, 20.0)];
    scene.Sync(Finite(0.0), Finite(100.0), Finite(0.0), 40.0, 5);
    assert scene.shapesList == [Square(Point(0.0, 0.0), red, 20.0)];
    scene.SelectType("triangle");
    trace := scene.HandleClick(centre, 400.0, 400.0, t, allOk);
    assert scene.shapesList[1] == Triangle(Point(0.0, 0.0), Color(0.0, 1.0, 0.0, 1.0), 40.0);
    assert TriangleVertices(Point(0.0, 0.0), 40.0) == [0.0, 0.2, -0.2, -0.2, 0.2, -0.2];
  }

  /** The cat face loaded twice is the cat face once, and the clear button
      empties the page whatever the buffers do. */
  method PictureScenario(t: Trig)
  {
    var scene := new Scene();
    scene.AddCatFacePicture();
    scene.AddCatFacePicture();
    assert scene.pictureTriangles == CatFace;
    var trace := scene.ClearButton(t, _ => false);
    assert trace == [ClearFrame];
  }
}
