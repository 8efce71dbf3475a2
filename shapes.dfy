// Shape expansion of the drawing canvas (src/shapes.js): the four brush shapes
// and how each one turns into draw commands for the rasterizer.
//
// The WebGL calls are modelled as an abstract trace of commands (Cmd). The
// host's Math.cos, Math.sin and Math.PI are unknown to the model: they are
// passed in as a Trig value, so every geometric fact below follows from the
// structure of the mesh alone, never from floating-point values.

module Shapes {

  /** A point in clip space; nominally inside [-1, 1] x [-1, 1], never clamped. */
  datatype Point = Point(x: real, y: real)

  /** The four channels handed to gl.uniform4f(u_FragColor, ...). */
  datatype Color = Color(r: real, g: real, b: real, a: real)

  /** The host's cosine, sine and pi, left uninterpreted. */
  datatype Trig = Trig(cos: real -> real, sin: real -> real, pi: real)

  /** A placed shape: the fields its JS constructor assigns. */
  datatype Shape =
    | Square(position: Point, color: Color, size: real)
    | Triangle(position: Point, color: Color, size: real)
    | Circle(position: Point, color: Color, size: real, segments: int)
    | Star(position: Point, color: Color, size: real, points: int)

  /** What the rasterizer is asked to do. The current fragment colour is carried
      by the draw command that uses it. */
  datatype Cmd =
    | ClearFrame
    | DrawPoint(position: Point, color: Color, size: real)
    | DrawTriangles(verts: seq<real>, count: int, color: Color)

  /** Three corners of one triangle of a mesh. */
  datatype Facet = Facet(a: Point, b: Point, c: Point)

  /** Half of the assumed 400-pixel canvas edge: sizes in pixels are divided by it. */
  const HalfCanvas: real := 200.0

  /** A star's inner radius as a fraction of its outer radius. */
  const InnerRatio: real := 0.45

  /** The `type` string each constructor stores. */
  function TypeName(s: Shape): (name: string)
    ensures name in {"square", "triangle", "circle", "star"}
  {
    match s
    case Square(_, _, _) => "square"
    case Triangle(_, _, _) => "triangle"
    case Circle(_, _, _, _) => "circle"
    case Star(_, _, _, _) => "star"
  }

  /** Math.max(3, k | 0) for a count that is already an integer. */
  function EffectiveCount(k: int): (n: int)
    ensures n >= 3 && n >= k
    ensures n == k || n == 3
  {
    if 3 < k then k else 3
  }

  // ---------------------------------------------------------------------------
  // Triangle

  /** The vertex list Triangle.render() hands to drawTriangle. */
  function TriangleVertices(p: Point, size: real): (v: seq<real>)
    ensures |v| == 6
    // the apex is straight above the position, as far above it as the base is below
    ensures v[0] == p.x && v[1] - p.y == p.y - v[3]
    // the base is horizontal and centred under the apex
    ensures v[3] == v[5] && v[2] + v[4] == 2.0 * p.x
    // the base is exactly as wide as the triangle is tall, 2 * size / 200
    ensures v[4] - v[2] == 2.0 * size / HalfCanvas && v[1] - v[3] == 2.0 * size / HalfCanvas
  {
    var d := size / HalfCanvas;
    [p.x, p.y + d, p.x - d, p.y - d, p.x + d, p.y - d]
  }

  // ---------------------------------------------------------------------------
  // Meshes and their vertex lists

  /** The point at angle `ang` and distance `r` from `c`: (c.x + cos(ang) * r, c.y + sin(ang) * r). */
  function Polar(c: Point, ang: real, r: real, t: Trig): Point
  {
    Point(c.x + t.cos(ang) * r, c.y + t.sin(ang) * r)
  }

  /** Squared distance between two points. */
  function SqDist(p: Point, q: Point): real
  {
    (q.x - p.x) * (q.x - p.x) + (q.y - p.y) * (q.y - p.y)
  }

  /** cos(a)^2 + sin(a)^2 == 1 for every a: the one trigonometric fact the metric lemmas use. */
  ghost predicate Pythagorean(t: Trig)
  {
    forall a: real :: t.cos(a) * t.cos(a) + t.sin(a) * t.sin(a) == 1.0
  }

  /** The six coordinates a triangle contributes to a vertex list. */
  function Coords(f: Facet): (v: seq<real>)
    ensures |v| == 6
  {
    [f.a.x, f.a.y, f.b.x, f.b.y, f.c.x, f.c.y]
  }

  /** The vertex list of a mesh: each triangle's six coordinates, in order. */
  function Flatten(fs: seq<Facet>): (v: seq<real>)
    ensures |v| == 6 * |fs|
  {
    if fs == [] then [] else Flatten(fs[..|fs| - 1]) + Coords(fs[|fs| - 1])
  }

  /** Triangle i of a mesh occupies coordinates 6i .. 6i+5 of its vertex list. */
  lemma {:induction false} FlattenAt(fs: seq<Facet>, i: int)
    requires 0 <= i < |fs|
    ensures |Flatten(fs)| == 6 * |fs|
    ensures Flatten(fs)[6 * i] == fs[i].a.x && Flatten(fs)[6 * i + 1] == fs[i].a.y
    ensures Flatten(fs)[6 * i + 2] == fs[i].b.x && Flatten(fs)[6 * i + 3] == fs[i].b.y
    ensures Flatten(fs)[6 * i + 4] == fs[i].c.x && Flatten(fs)[6 * i + 5] == fs[i].c.y
  {
    var init := fs[..|fs| - 1];
    assert Flatten(fs) == Flatten(init) + Coords(fs[|fs| - 1]);
    if i < |fs| - 1 {
      FlattenAt(init, i);
      assert init[i] == fs[i];
    }
  }

  /** Appending a triangle appends its six coordinates. */
  lemma FlattenSnoc(fs: seq<Facet>, f: Facet)
    ensures Flatten(fs + [f]) == Flatten(fs) + Coords(f)
  {
    assert (fs + [f])[..|fs|] == fs;
  }

  // ---------------------------------------------------------------------------
  // Circle: a fan of n triangles around the centre

  /** Angle (i / n) * PI * 2 of the i-th rim vertex. */
  function CircleAngle(i: int, n: int, t: Trig): real
    requires n > 0
  {
    (i as real / n as real) * t.pi * 2.0
  }

  /** The circle's triangle fan: triangle i is (centre, rim(i), rim(i + 1)). */
  function CircleFan(c: Point, r: real, n: int, t: Trig): (fan: seq<Facet>)
    requires n > 0
    ensures |fan| == n
    ensures forall i :: 0 <= i < n ==> fan[i].a == c
  {
    seq(n, i requires 0 <= i < n =>
      Facet(c, Polar(c, CircleAngle(i, n, t), r, t), Polar(c, CircleAngle(i + 1, n, t), r, t)))
  }

  /** Neighbouring fan triangles share a rim vertex, hence an edge from the centre. */
  lemma CircleFanShared(c: Point, r: real, n: int, t: Trig, i: int)
    requires n > 0 && 0 <= i < n - 1
    ensures CircleFan(c, r, n, t)[i].c == CircleFan(c, r, n, t)[i + 1].b
  {
  }

  /** The fan closes (last rim vertex = first rim vertex) exactly when the host's
      cos and sin agree at 2 * PI and at 0; nothing closes it structurally. */
  lemma CircleFanCloses(c: Point, r: real, n: int, t: Trig)
    requires n > 0 && r != 0.0
    ensures CircleFan(c, r, n, t)[n - 1].c == CircleFan(c, r, n, t)[0].b
        <==> t.cos(t.pi * 2.0) == t.cos(0.0) && t.sin(t.pi * 2.0) == t.sin(0.0)
  {
    var fan := CircleFan(c, r, n, t);
    assert CircleAngle(n, n, t) == t.pi * 2.0 by {
      assert n as real / n as real == 1.0;
    }
    assert CircleAngle(0, n, t) == 0.0;
    assert fan[n - 1].c == Polar(c, t.pi * 2.0, r, t);
    assert fan[0].b == Polar(c, 0.0, r, t);
    PolarEq(c, t.pi * 2.0, 0.0, r, t);
  }

  /** Two points at the same non-zero radius around the same centre coincide
      exactly when cos and sin agree at their angles. */
  lemma PolarEq(c: Point, a1: real, a2: real, r: real, t: Trig)
    requires r != 0.0
    ensures Polar(c, a1, r, t) == Polar(c, a2, r, t) <==> t.cos(a1) == t.cos(a2) && t.sin(a1) == t.sin(a2)
  {
    var p1, p2 := Polar(c, a1, r, t), Polar(c, a2, r, t);
    assert p1.x == c.x + t.cos(a1) * r && p1.y == c.y + t.sin(a1) * r;
    assert p2.x == c.x + t.cos(a2) * r && p2.y == c.y + t.sin(a2) * r;
    if p1 == p2 {
      RealCancel(t.cos(a1), t.cos(a2), r);
      RealCancel(t.sin(a1), t.sin(a2), r);
    }
  }

  /** Multiplication by a non-zero real is injective. */
  lemma RealCancel(u: real, v: real, r: real)
    requires r != 0.0 && u * r == v * r
    ensures u == v
  {
    assert (u - v) * r == 0.0;
  }

  /** Under cos^2 + sin^2 = 1, a polar point lies at distance r from its centre. */
  lemma PolarDistance(c: Point, ang: real, r: real, t: Trig)
    requires Pythagorean(t)
    ensures SqDist(c, Polar(c, ang, r, t)) == r * r
  {
    var p := Polar(c, ang, r, t);
    var co, si := t.cos(ang), t.sin(ang);
    assert p.x - c.x == co * r;
    assert p.y - c.y == si * r;
    assert co * co + si * si == 1.0;
    calc {
      SqDist(c, p);
      (co * r) * (co * r) + (si * r) * (si * r);
      (co * co + si * si) * (r * r);
      r * r;
    }
  }

  /** Every rim vertex of a circle lies at radius size / 200 from the centre. */
  lemma CircleEquidistant(c: Point, size: real, n: int, t: Trig, i: int)
    requires Pythagorean(t) && n > 0 && 0 <= i < n
    ensures SqDist(c, CircleFan(c, size / HalfCanvas, n, t)[i].b) == (size / HalfCanvas) * (size / HalfCanvas)
    ensures SqDist(c, CircleFan(c, size / HalfCanvas, n, t)[i].c) == (size / HalfCanvas) * (size / HalfCanvas)
  {
    PolarDistance(c, CircleAngle(i, n, t), size / HalfCanvas, t);
    PolarDistance(c, CircleAngle(i + 1, n, t), size / HalfCanvas, t);
  }

  // ---------------------------------------------------------------------------
  // Star: a ring of 2p vertices alternating outer and inner radius

  /** Angle -PI/2 + (i / n) * PI * 2 of the i-th ring vertex (vertex 0 points up). */
  function StarAngle(i: int, n: int, t: Trig): real
    requires n > 0
  {
    -t.pi / 2.0 + (i as real / n as real) * t.pi * 2.0
  }

  /** Outer radius on even ring indices, 0.45 of it on odd ones. */
  function StarRadius(i: int, outer: real): real
  {
    if i % 2 == 0 then outer else outer * InnerRatio
  }

  /** The star's ring of n vertices around the centre. */
  function StarRing(c: Point, outer: real, n: int, t: Trig): (ring: seq<Point>)
    requires n > 0
    ensures |ring| == n
  {
    seq(n, i requires 0 <= i < n => Polar(c, StarAngle(i, n, t), StarRadius(i, outer), t))
  }

  /** The index after i on a ring of n vertices, wrapping from n - 1 to 0. */
  function Next(i: int, n: int): int
    requires 0 <= i < n
  {
    if i + 1 < n then i + 1 else 0
  }

  /** Next is the source's (i + 1) % n. */
  lemma NextIsMod(i: int, n: int)
    requires 0 <= i < n
    ensures 0 <= Next(i, n) < n && Next(i, n) == (i + 1) % n
  {
    if i + 1 == n {
      assert (i + 1) % n == 0;
    }
  }

  /** The star's triangles: triangle i is (centre, ring[i], ring[(i + 1) mod n]). */
  function StarFan(c: Point, ring: seq<Point>): (fan: seq<Facet>)
    requires |ring| > 0
    ensures |fan| == |ring|
    ensures forall i {:trigger fan[i]} :: 0 <= i < |fan| ==> fan[i].a == c && fan[i].b == ring[i]
  {
    seq(|ring|, i requires 0 <= i < |ring| => Facet(c, ring[i], ring[Next(i, |ring|)]))
  }

  /** The star's fan is closed: each triangle ends on the ring vertex where the
      next one, cyclically, begins, and the last one ends on ring[0]. */
  lemma StarFanCloses(c: Point, ring: seq<Point>, i: int)
    requires 0 <= i < |ring|
    ensures StarFan(c, ring)[i].c == StarFan(c, ring)[Next(i, |ring|)].b
    ensures StarFan(c, ring)[|ring| - 1].c == ring[0]
  {
  }

  /** Consecutive ring vertices are 2 * PI / n apart, starting at -PI / 2. */
  lemma StarAngleStep(i: int, n: int, t: Trig)
    requires n > 0
    ensures StarAngle(0, n, t) == -t.pi / 2.0
    ensures StarAngle(i + 1, n, t) - StarAngle(i, n, t) == t.pi * 2.0 / n as real
  {
    var k := n as real;
    assert (i + 1) as real / k - i as real / k == 1.0 / k;
    calc {
      StarAngle(i + 1, n, t) - StarAngle(i, n, t);
      ((i + 1) as real / k) * t.pi * 2.0 - (i as real / k) * t.pi * 2.0;
      ((i + 1) as real / k - i as real / k) * (t.pi * 2.0);
      (1.0 / k) * (t.pi * 2.0);
      t.pi * 2.0 / k;
    }
  }

  /** With an even ring, every star triangle joins one outer and one inner vertex,
      including the wrapping triangle n - 1. */
  lemma {:induction false} StarRadiiAlternate(outer: real, n: int, i: int)
    requires n > 0 && n % 2 == 0 && 0 <= i < n
    ensures StarRadius(i, outer) == (if i % 2 == 0 then outer else InnerRatio * outer)
    ensures StarRadius(Next(i, n), outer) == (if i % 2 == 0 then InnerRatio * outer else outer)
  {
    if i == n - 1 {
      assert i % 2 == 1;
    }
  }

  /** Under cos^2 + sin^2 = 1, even ring vertices lie at the outer radius and odd
      ones at 0.45 of it. */
  lemma StarRingRadii(c: Point, outer: real, n: int, t: Trig, i: int)
    requires Pythagorean(t) && n > 0 && 0 <= i < n
    ensures i % 2 == 0 ==> SqDist(c, StarRing(c, outer, n, t)[i]) == outer * outer
    ensures i % 2 == 1 ==> SqDist(c, StarRing(c, outer, n, t)[i]) == (InnerRatio * outer) * (InnerRatio * outer)
  {
    PolarDistance(c, StarAngle(i, n, t), StarRadius(i, outer), t);
  }

  // ---------------------------------------------------------------------------
  // Draw commands of one shape

  /** drawTriangle(vertices): three vertices, or nothing when no buffer could be created. */
  function DrawTriangle(verts: seq<real>, color: Color, bufferOk: bool): (cmds: seq<Cmd>)
    ensures |cmds| == (if bufferOk then 1 else 0)
    ensures bufferOk ==>
      cmds[0].DrawTriangles? && cmds[0].count == 3 && cmds[0].verts == verts && cmds[0].color == color
  {
    if bufferOk then [DrawTriangles(verts, 3, color)] else []
  }

  /** drawVertsAsTriangles(verts): verts.length / 2 vertices, or nothing when no buffer could be created. */
  function DrawVertsAsTriangles(verts: seq<real>, color: Color, bufferOk: bool): (cmds: seq<Cmd>)
    ensures |cmds| == (if bufferOk then 1 else 0)
    ensures bufferOk ==>
      cmds[0].DrawTriangles? && 2 * cmds[0].count <= |verts| < 2 * cmds[0].count + 2 &&
      cmds[0].verts == verts && cmds[0].color == color
  {
    if bufferOk then [DrawTriangles(verts, |verts| / 2, color)] else []
  }

  /** drawTriangle issues a well-formed draw exactly when it is handed six coordinates. */
  lemma DrawTriangleWellFormed(verts: seq<real>, color: Color)
    ensures (forall cmd :: cmd in DrawTriangle(verts, color, true) ==> WellFormed(cmd)) <==> |verts| == 6
  {
    assert DrawTriangle(verts, color, true)[0] in DrawTriangle(verts, color, true);
  }

  /** drawVertsAsTriangles issues a well-formed draw exactly when the list holds a
      positive whole number of triangles (a multiple of six coordinates). */
  lemma DrawVertsWellFormed(verts: seq<real>, color: Color)
    ensures (forall cmd :: cmd in DrawVertsAsTriangles(verts, color, true) ==> WellFormed(cmd))
        <==> |verts| > 0 && |verts| % 6 == 0
  {
    var cmds := DrawVertsAsTriangles(verts, color, true);
    assert cmds[0] in cmds;
    var len := |verts|;
    if len > 0 && len % 6 == 0 {
      assert len == 6 * (len / 6);
      assert len / 2 == 3 * (len / 6);
    }
    if WellFormed(cmds[0]) {
      var k := len / 2;
      assert k % 3 == 0 && len == 2 * k;
      assert len == 6 * (k / 3);
    }
  }

  /** The vertex list Circle.render() uploads: a fan of n triangles around p, radius size / 200. */
  function CircleVertices(p: Point, size: real, n: int, t: Trig): (v: seq<real>)
    requires n > 0
    ensures |v| == 6 * n
  {
    Flatten(CircleFan(p, size / HalfCanvas, n, t))
  }

  /** The vertex list Star.render() uploads: a fan of n triangles around p over the star's ring. */
  function StarVertices(p: Point, size: real, n: int, t: Trig): (v: seq<real>)
    requires n > 0
    ensures |v| == 6 * n
  {
    Flatten(StarFan(p, StarRing(p, size / HalfCanvas, n, t)))
  }

  /** The commands Shape.render() issues; `bufferOk` is whether gl.createBuffer succeeds. */
  function ShapeCommands(s: Shape, t: Trig, bufferOk: bool): (cmds: seq<Cmd>)
    ensures |cmds| <= 1 && (|cmds| == 1 ==> !cmds[0].ClearFrame?)
  {
    match s
    case Square(p, col, size) => [DrawPoint(p, col, size)]
    case Triangle(p, col, size) => DrawTriangle(TriangleVertices(p, size), col, bufferOk)
    case Circle(p, col, size, segments) =>
      var n := EffectiveCount(segments);
      if bufferOk then [DrawTriangles(CircleVertices(p, size, n, t), n * 3, col)] else []
    case Star(p, col, size, points) =>
      var n := EffectiveCount(points) * 2;
      DrawVertsAsTriangles(StarVertices(p, size, n, t), col, bufferOk)
  }

  /** A triangle draw asks for exactly the vertices its list holds, whole triangles only. */
  predicate WellFormed(cmd: Cmd)
  {
    cmd.DrawTriangles? ==> cmd.count > 0 && cmd.count % 3 == 0 && |cmd.verts| == 2 * cmd.count
  }

  /** One shape issues at most one draw. A square always issues exactly one point
      draw with its own position, colour and size; the other shapes issue one
      well-formed triangle draw in their own colour, or nothing when the buffer
      cannot be created. */
  lemma ShapeCommandsShape(s: Shape, t: Trig, bufferOk: bool)
    ensures var cmds := ShapeCommands(s, t, bufferOk);
      (s.Square? ==> cmds == [DrawPoint(s.position, s.color, s.size)]) &&
      (!s.Square? ==> |cmds| == (if bufferOk then 1 else 0)) &&
      (!s.Square? && bufferOk ==> cmds[0].DrawTriangles? && cmds[0].color == s.color) &&
      forall cmd :: cmd in cmds ==> WellFormed(cmd)
  {
    match s
    case Square(_, _, _) =>
    case Triangle(_, _, _) =>
    case Circle(p, col, size, segments) => CircleCommandsShape(p, col, size, segments, t, bufferOk);
    case Star(p, col, size, points) => StarCommandsShape(p, col, size, points, t, bufferOk);
  }

  /** The circle case of ShapeCommandsShape. */
  lemma CircleCommandsShape(p: Point, col: Color, size: real, segments: int, t: Trig, bufferOk: bool)
    ensures var cmds := ShapeCommands(Circle(p, col, size, segments), t, bufferOk);
      |cmds| == (if bufferOk then 1 else 0) &&
      (bufferOk ==> cmds[0].DrawTriangles? && cmds[0].color == col && WellFormed(cmds[0]))
  {
    if bufferOk {
      CircleDraw(p, col, size, segments, t);
    }
  }

  /** The star case of ShapeCommandsShape. */
  lemma StarCommandsShape(p: Point, col: Color, size: real, points: int, t: Trig, bufferOk: bool)
    ensures var cmds := ShapeCommands(Star(p, col, size, points), t, bufferOk);
      |cmds| == (if bufferOk then 1 else 0) &&
      (bufferOk ==> cmds[0].DrawTriangles? && cmds[0].color == col && WellFormed(cmds[0]))
  {
    if bufferOk {
      StarDraw(p, col, size, points, t);
    }
  }

  /** A circle with a buffer draws a fan of n = max(3, segments) triangles (n * 3
      vertices, 6n reals): every triangle starts at the centre, and triangle i
      ends at the rim vertex where triangle i + 1 starts. */
  lemma CircleDraw(p: Point, col: Color, size: real, segments: int, t: Trig)
    ensures var n := EffectiveCount(segments);
      var cmds := ShapeCommands(Circle(p, col, size, segments), t, true);
      |cmds| == 1 && cmds[0].DrawTriangles? && cmds[0].count == n * 3 && n >= 3 &&
      |cmds[0].verts| == 6 * n &&
      (forall i :: 0 <= i < n ==> cmds[0].verts[6 * i] == p.x && cmds[0].verts[6 * i + 1] == p.y) &&
      (forall i :: 0 <= i < n - 1 ==>
        cmds[0].verts[6 * i + 4] == cmds[0].verts[6 * (i + 1) + 2] &&
        cmds[0].verts[6 * i + 5] == cmds[0].verts[6 * (i + 1) + 3])
  {
    var n := EffectiveCount(segments);
    var fan := CircleFan(p, size / HalfCanvas, n, t);
    var v := Flatten(fan);
    assert ShapeCommands(Circle(p, col, size, segments), t, true) == [DrawTriangles(v, n * 3, col)];
    forall i | 0 <= i < n
      ensures v[6 * i] == p.x && v[6 * i + 1] == p.y
    {
      FlattenAt(fan, i);
    }
    forall i | 0 <= i < n - 1
      ensures v[6 * i + 4] == v[6 * (i + 1) + 2] && v[6 * i + 5] == v[6 * (i + 1) + 3]
    {
      CircleFanShared(p, size / HalfCanvas, n, t, i);
      FlattenAt(fan, i);
      FlattenAt(fan, i + 1);
    }
  }

  /** The vertex list of a star fan over any ring of n points: triangle i is
      (centre, ring[i], ...), 6n reals in all. */
  lemma StarMesh(c: Point, ring: seq<Point>)
    requires |ring| > 0
    ensures var n := |ring|;
      var v := Flatten(StarFan(c, ring));
      |v| == 6 * n &&
      (forall i :: 0 <= i < n ==> v[6 * i] == c.x && v[6 * i + 1] == c.y) &&
      (forall i :: 0 <= i < n ==> v[6 * i + 2] == ring[i].x && v[6 * i + 3] == ring[i].y)
  {
    var fan := StarFan(c, ring);
    forall i | 0 <= i < |ring|
      ensures Flatten(fan)[6 * i] == c.x && Flatten(fan)[6 * i + 1] == c.y
      ensures Flatten(fan)[6 * i + 2] == ring[i].x && Flatten(fan)[6 * i + 3] == ring[i].y
    {
      FlattenAt(fan, i);
    }
  }

  /** In a star fan's vertex list each triangle ends on the vertex where the next
      one begins, and the last one closes the outline where the first one begins. */
  lemma StarMeshCloses(c: Point, ring: seq<Point>)
    requires |ring| > 0
    ensures var n := |ring|;
      var v := Flatten(StarFan(c, ring));
      |v| == 6 * n &&
      (forall i :: 0 <= i < n - 1 ==> v[6 * i + 4] == v[6 * (i + 1) + 2] && v[6 * i + 5] == v[6 * (i + 1) + 3]) &&
      v[6 * n - 2] == v[2] && v[6 * n - 1] == v[3]
  {
    var n := |ring|;
    var fan := StarFan(c, ring);
    var v := Flatten(fan);
    forall i | 0 <= i < n - 1
      ensures v[6 * i + 4] == v[6 * (i + 1) + 2] && v[6 * i + 5] == v[6 * (i + 1) + 3]
    {
      FlattenAt(fan, i);
      FlattenAt(fan, i + 1);
    }
    FlattenAt(fan, n - 1);
    FlattenAt(fan, 0);
  }

  /** A star with a buffer draws the star fan over its ring of 2p vertices,
      p = max(3, points): 2p triangles, 3 * 2p vertices. */
  lemma StarDraw(p: Point, col: Color, size: real, points: int, t: Trig)
    ensures var n := EffectiveCount(points) * 2;
      var ring := StarRing(p, size / HalfCanvas, n, t);
      var cmds := ShapeCommands(Star(p, col, size, points), t, true);
      n >= 6 && n % 2 == 0 && |ring| == n && |Flatten(StarFan(p, ring))| == 6 * n &&
      cmds == [DrawTriangles(Flatten(StarFan(p, ring)), 3 * n, col)]
  {
    var n := EffectiveCount(points) * 2;
    var ring := StarRing(p, size / HalfCanvas, n, t);
    var fan := StarFan(p, ring);
    assert |fan| == n;
    var v := Flatten(fan);
    assert |v| == 6 * n;
    assert |v| / 2 == 3 * n;
    assert ShapeCommands(Star(p, col, size, points), t, true) == DrawVertsAsTriangles(v, col, true);
  }

  // ---------------------------------------------------------------------------
  // render(): the loops that build the vertex lists

  /** Circle.render()'s loop: pushes (centre, rim(i), rim(i + 1)) for i = 0 .. n - 1. */
  method FanVertices(c: Point, r: real, n: int, t: Trig) returns (verts: seq<real>)
    requires n > 0
    ensures verts == Flatten(CircleFan(c, r, n, t))
  {
    ghost var fan := CircleFan(c, r, n, t);
    verts := [];
    var i := 0;
    while i < n
      invariant 0 <= i <= n
      invariant verts == Flatten(fan[..i])
    {
      var rim1 := Polar(c, CircleAngle(i, n, t), r, t);
      var rim2 := Polar(c, CircleAngle(i + 1, n, t), r, t);
      verts := verts + [c.x, c.y, rim1.x, rim1.y, rim2.x, rim2.y];
      assert fan[i] == Facet(c, rim1, rim2);
      FlattenSnoc(fan[..i], fan[i]);
      assert fan[..i + 1] == fan[..i] + [fan[i]];
      i := i + 1;
    }
    assert fan[..n] == fan;
  }

  /** Star.render()'s first loop: pushes ring vertex i for i = 0 .. n - 1. */
  method BuildRing(c: Point, outer: real, n: int, t: Trig) returns (ring: seq<Point>)
    requires n > 0
    ensures ring == StarRing(c, outer, n, t)
  {
    var inner := outer * InnerRatio;
    ring := [];
    var i := 0;
    while i < n
      invariant 0 <= i <= n
      invariant ring == StarRing(c, outer, n, t)[..i]
    {
      var r := if i % 2 == 0 then outer else inner;
      ring := ring + [Polar(c, StarAngle(i, n, t), r, t)];
      i := i + 1;
    }
  }

  /** Star.render()'s second loop: pushes (centre, ring[i], ring[(i + 1) % n]). */
  method RingVertices(c: Point, ring: seq<Point>) returns (verts: seq<real>)
    requires |ring| > 0
    ensures verts == Flatten(StarFan(c, ring))
  {
    ghost var fan := StarFan(c, ring);
    var n := |ring|;
    verts := [];
    var i := 0;
    while i < n
      invariant 0 <= i <= n
      invariant verts == Flatten(fan[..i])
    {
      var v1 := ring[i];
      var v2 := ring[(i + 1) % n];
      NextIsMod(i, n);
      verts := verts + [c.x, c.y, v1.x, v1.y, v2.x, v2.y];
      assert fan[i] == Facet(c, v1, v2);
      FlattenSnoc(fan[..i], fan[i]);
      assert fan[..i + 1] == fan[..i] + [fan[i]];
      i := i + 1;
    }
    assert fan[..n] == fan;
  }

  /** Shape.render(): the commands one shape issues, given whether its buffer can be created. */
  method Render(s: Shape, t: Trig, bufferOk: bool) returns (cmds: seq<Cmd>)
    ensures cmds == ShapeCommands(s, t, bufferOk)
  {
    match s
    case Square(p, col, size) =>
      cmds := [DrawPoint(p, col, size)];
    case Triangle(p, col, size) =>
      var d := size / HalfCanvas;
      var verts := [p.x, p.y + d, p.x - d, p.y - d, p.x + d, p.y - d];
      cmds := if bufferOk then [DrawTriangles(verts, 3, col)] else [];
    case Circle(p, col, size, segments) =>
      var r := size / HalfCanvas;
      var n := if 3 < segments then segments else 3;
      var verts := FanVertices(p, r, n, t);
      cmds := if bufferOk then [DrawTriangles(verts, n * 3, col)] else [];
    case Star(p, col, size, points) =>
      var outer := size / HalfCanvas;
      var n := (if 3 < points then points else 3) * 2;
      var ring := BuildRing(p, outer, n, t);
      var verts := RingVertices(p, ring);
      cmds := if bufferOk then [DrawTriangles(verts, |verts| / 2, col)] else [];
  }
}
