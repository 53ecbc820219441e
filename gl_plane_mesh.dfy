/**
 * `GLPlaneMesh` (loki/gl/shapes/gl_plane_mesh.js): a grid of `(detailX + 1) * (detailY + 1)`
 * vertices spanning the plane, two triangles per cell, handed to a new `GLMesh` as the
 * "P", "N" and "uv" streams and the "triangles" index stream.
 */
module PlaneMeshes {
  import opened Wrappers
  import opened OrderedMaps
  import opened GLContexts
  import opened GLMeshes
  import opened TypedArrays
  import opened GLBuffers

  /** A subdivision count after the fallbacks: never zero. */
  type Detail = d: nat | d >= 1 witness 1

  /** The options `GLPlaneMesh` reads; absent entries are `None`. */
  datatype PlaneOptions = PlaneOptions(
    detailX: Option<nat>, detailY: Option<nat>, detail: Option<nat>,
    width: Option<real>, height: Option<real>, size: Option<real>,
    xz: bool)

  /** The grid the options describe: subdivisions, half extents and orientation. */
  datatype Grid = Grid(detailX: Detail, detailY: Detail, halfWidth: real, halfHeight: real, xz: bool)

  /** `a || b` on an optional count: absent and 0 are falsy. */
  function OrCount(a: Option<nat>, b: Detail): Detail
  {
    if a.Some? && a.value != 0 then a.value else b
  }

  /** `a || b` on an optional length. */
  function OrLength(a: Option<real>, b: real): real
  {
    if a.Some? && a.value != 0.0 then a.value else b
  }

  /**
   * The grid of a plane: each detail falls back to `detail` and then to 1, each extent to
   * `size` and then to 1, and the extents are halved.
   */
  function GridOf(o: PlaneOptions): (g: Grid)
    ensures o.detailX.Some? && o.detailX.value != 0 ==> g.detailX == o.detailX.value
    ensures o.detailY.Some? && o.detailY.value != 0 ==> g.detailY == o.detailY.value
    ensures (o.detailX.None? || o.detailX.value == 0) && o.detail.Some? && o.detail.value != 0 ==> g.detailX == o.detail.value
    ensures (o.detailY.None? || o.detailY.value == 0) && o.detail.Some? && o.detail.value != 0 ==> g.detailY == o.detail.value
    ensures (o.detailX.None? || o.detailX.value == 0) && (o.detail.None? || o.detail.value == 0) ==> g.detailX == 1
    ensures (o.detailY.None? || o.detailY.value == 0) && (o.detail.None? || o.detail.value == 0) ==> g.detailY == 1
    ensures o.width.None? && o.size.None? ==> g.halfWidth == 0.5
    ensures o.height.None? && o.size.None? ==> g.halfHeight == 0.5
    ensures g.xz == o.xz
  {
    Grid(OrCount(o.detailX, OrCount(o.detail, 1)), OrCount(o.detailY, OrCount(o.detail, 1)),
         OrLength(o.width, OrLength(o.size, 1.0)) * 0.5, OrLength(o.height, OrLength(o.size, 1.0)) * 0.5,
         o.xz)
  }

  /** The four arrays the generator fills. */
  datatype Attribute = Position | Coord | Normal | Triangle

  /** The normal every vertex gets: +Z, or +Y for a horizontal (`xz`) plane. */
  function NormalOf(g: Grid): (n: seq<real>)
    ensures |n| == 3
  {
    if g.xz then [0.0, 1.0, 0.0] else [0.0, 0.0, 1.0]
  }

  /** The grid parameter `k / d` of column or row `k`. */
  function Param(k: nat, d: Detail): real
  {
    k as real / d as real
  }

  /** What one pass of the inner loop, at grid vertex (x, y), pushes onto `a`. */
  function Pushed(g: Grid, a: Attribute, x: nat, y: nat): seq<real>
  {
    var s := Param(x, g.detailX);
    var t := Param(y, g.detailY);
    match a
    case Position =>
      if g.xz then [(2.0 * s - 1.0) * g.halfWidth, 0.0, -(2.0 * t - 1.0) * g.halfHeight]
      else [(2.0 * s - 1.0) * g.halfWidth, (2.0 * t - 1.0) * g.halfHeight, 0.0]
    case Coord => [s, t]
    case Normal => NormalOf(g)
    case Triangle =>
      if x < g.detailX && y < g.detailY then
        var i := (x + y * (g.detailX + 1)) as real;
        var d := g.detailX as real;
        if g.xz then [i + 1.0, i + d + 1.0, i, i + 1.0, i + d + 2.0, i + d + 1.0]
        else [i, i + 1.0, i + d + 1.0, i + d + 1.0, i + 1.0, i + d + 2.0]
      else []
  }

  /** The loops have reached row `y`, column `x`: within a row, or just past the last row. */
  predicate Reached(g: Grid, y: nat, x: nat)
  {
    (y <= g.detailY && x <= g.detailX + 1) || (y == g.detailY + 1 && x == 0)
  }

  /** Everything pushed onto `a` before the loops reach row `y`, column `x`, in loop order. */
  function Emitted(g: Grid, a: Attribute, y: nat, x: nat): seq<real>
    requires Reached(g, y, x)
    decreases y, x
  {
    if x == 0 then (if y == 0 then [] else Emitted(g, a, y - 1, g.detailX + 1))
    else Emitted(g, a, y, x - 1) + Pushed(g, a, x - 1, y)
  }

  /** The number of grid vertices visited before row `y`, column `x`. */
  function Visited(g: Grid, y: nat, x: nat): nat
    requires Reached(g, y, x)
    decreases y, x
  {
    if x == 0 then (if y == 0 then 0 else Visited(g, y - 1, g.detailX + 1))
    else Visited(g, y, x - 1) + 1
  }

  /** Entries per vertex in each vertex array. */
  function ItemSize(a: Attribute): nat
  {
    match a
    case Position => 3
    case Coord => 2
    case Normal => 3
    case Triangle => 0
  }

  /** The visits so far are whole rows of `detailX + 1` vertices plus `x`. */
  lemma {:induction false} VisitedCount(g: Grid, y: nat, x: nat)
    requires Reached(g, y, x)
    ensures Visited(g, y, x) == y * (g.detailX + 1) + x
    decreases y, x
  {
    if x == 0 {
      if y > 0 {
        VisitedCount(g, y - 1, g.detailX + 1);
      }
    } else {
      VisitedCount(g, y, x - 1);
    }
  }

  /** Each vertex array grows by its item size per vertex visited. */
  lemma {:induction false} EmittedLength(g: Grid, a: Attribute, y: nat, x: nat)
    requires Reached(g, y, x) && a != Triangle
    ensures |Emitted(g, a, y, x)| == ItemSize(a) * Visited(g, y, x)
    decreases y, x
  {
    if x == 0 {
      if y > 0 {
        EmittedLength(g, a, y - 1, g.detailX + 1);
      }
    } else {
      EmittedLength(g, a, y, x - 1);
    }
  }

  /** The plane has `(detailX + 1) * (detailY + 1)` vertices, each with 3 position, 2 uv and 3 normal entries. */
  lemma VertexCounts(g: Grid)
    ensures Visited(g, g.detailY + 1, 0) == (g.detailX + 1) * (g.detailY + 1)
    ensures |Emitted(g, Position, g.detailY + 1, 0)| == 3 * (g.detailX + 1) * (g.detailY + 1)
    ensures |Emitted(g, Coord, g.detailY + 1, 0)| == 2 * (g.detailX + 1) * (g.detailY + 1)
    ensures |Emitted(g, Normal, g.detailY + 1, 0)| == 3 * (g.detailX + 1) * (g.detailY + 1)
  {
    VisitedCount(g, g.detailY + 1, 0);
    EmittedLength(g, Position, g.detailY + 1, 0);
    EmittedLength(g, Coord, g.detailY + 1, 0);
    EmittedLength(g, Normal, g.detailY + 1, 0);
  }

  /** Cells completed: `detailX` per full row below the last, plus those left of column `x`. */
  function CellsBefore(g: Grid, y: nat, x: nat): nat
  {
    (if y <= g.detailY then y else g.detailY) * g.detailX
    + (if y < g.detailY then (if x <= g.detailX then x else g.detailX) else 0)
  }

  /** Every cell pushes six indices, and only cells (not the last row or column) push any. */
  lemma {:induction false} TriangleLength(g: Grid, y: nat, x: nat)
    requires Reached(g, y, x)
    ensures |Emitted(g, Triangle, y, x)| == 6 * CellsBefore(g, y, x)
    decreases y, x
  {
    if x == 0 {
      if y > 0 {
        TriangleLength(g, y - 1, g.detailX + 1);
      }
    } else {
      TriangleLength(g, y, x - 1);
    }
  }

  /** The plane emits `2 * detailX * detailY` triangles: `6 * detailX * detailY` indices. */
  lemma TriangleCount(g: Grid)
    ensures |Emitted(g, Triangle, g.detailY + 1, 0)| == 6 * g.detailX * g.detailY
  {
    TriangleLength(g, g.detailY + 1, 0);
  }

  /** A vertex count as an index bound: `(detailX + 1) * (detailY + 1)`. */
  function VertexCount(g: Grid): nat
  {
    (g.detailX + 1) * (g.detailY + 1)
  }

  /** An index is a whole number naming one of the plane's vertices. */
  predicate IsVertexIndex(g: Grid, v: real)
  {
    0.0 <= v < VertexCount(g) as real && v == v.Floor as real
  }

  /** `a <= b` scales. */
  lemma MulMono(a: nat, b: nat, c: nat)
    requires a <= b
    ensures a * c <= b * c
  {
  }

  /** The largest index of cell (x, y), the vertex diagonally across, is still a grid vertex. */
  lemma CellCorner(g: Grid, x: nat, y: nat)
    requires x < g.detailX && y < g.detailY
    ensures x + y * (g.detailX + 1) + g.detailX + 2 < VertexCount(g)
  {
    var dx: nat, dy: nat := g.detailX, g.detailY;
    MulMono(y, dy - 1, dx + 1);
    assert (dy - 1) * (dx + 1) + 2 * (dx + 1) == (dx + 1) * (dy + 1);
  }

  /** A natural number below the vertex count is a vertex index. */
  lemma WholeIndex(g: Grid, v: nat)
    requires v < VertexCount(g)
    ensures IsVertexIndex(g, v as real)
  {
    assert (v as real).Floor == v;
  }

  /** The indices of one cell name vertices of the grid. */
  lemma CellIndices(g: Grid, x: nat, y: nat)
    requires x < g.detailX && y < g.detailY
    ensures forall k :: 0 <= k < |Pushed(g, Triangle, x, y)| ==> IsVertexIndex(g, Pushed(g, Triangle, x, y)[k])
  {
    CellCorner(g, x, y);
    var n := x + y * (g.detailX + 1);
    var i := n as real;
    var d := g.detailX as real;
    var top := (n + g.detailX + 2) as real;
    assert i + d + 2.0 == top && top < VertexCount(g) as real;
    WholeIndex(g, n);
    WholeIndex(g, n + 1);
    WholeIndex(g, n + g.detailX + 1);
    WholeIndex(g, n + g.detailX + 2);
    assert (n + 1) as real == i + 1.0 && (n + g.detailX + 1) as real == i + d + 1.0;
  }

  /** Every index emitted is a whole number below the vertex count. */
  lemma {:induction false} TriangleIndices(g: Grid, y: nat, x: nat)
    requires Reached(g, y, x)
    ensures forall k :: 0 <= k < |Emitted(g, Triangle, y, x)| ==> IsVertexIndex(g, Emitted(g, Triangle, y, x)[k])
    decreases y, x
  {
    if x == 0 {
      if y > 0 {
        TriangleIndices(g, y - 1, g.detailX + 1);
      }
    } else {
      TriangleIndices(g, y, x - 1);
      if x - 1 < g.detailX && y < g.detailY {
        CellIndices(g, x - 1, y);
      }
    }
  }

  /** A grid parameter of a column or row on the grid lies in [0, 1]. */
  lemma ParamInUnit(k: nat, d: Detail)
    requires k <= d
    ensures 0.0 <= Param(k, d) <= 1.0
  {
    assert Param(k, d) * d as real == k as real;
  }

  /** Every uv entry emitted lies in [0, 1]. */
  lemma {:induction false} CoordsInUnit(g: Grid, y: nat, x: nat)
    requires Reached(g, y, x)
    ensures forall k :: 0 <= k < |Emitted(g, Coord, y, x)| ==> 0.0 <= Emitted(g, Coord, y, x)[k] <= 1.0
    decreases y, x
  {
    if x == 0 {
      if y > 0 {
        CoordsInUnit(g, y - 1, g.detailX + 1);
      }
    } else {
      CoordsInUnit(g, y, x - 1);
      ParamInUnit(x - 1, g.detailX);
      ParamInUnit(y, g.detailY);
    }
  }

  /** `v` repeated `n` times. */
  function Repeat(v: seq<real>, n: nat): seq<real>
  {
    if n == 0 then [] else Repeat(v, n - 1) + v
  }

  /** The normals are the plane's one normal, once per vertex visited. */
  lemma {:induction false} NormalsUniform(g: Grid, y: nat, x: nat)
    requires Reached(g, y, x)
    ensures Emitted(g, Normal, y, x) == Repeat(NormalOf(g), Visited(g, y, x))
    decreases y, x
  {
    if x == 0 {
      if y > 0 {
        NormalsUniform(g, y - 1, g.detailX + 1);
      }
    } else {
      NormalsUniform(g, y, x - 1);
    }
  }

  /**
   * The generator's nested loops: row by row and column by column, each grid vertex pushes
   * its position, uv and normal, and each cell its two triangles.
   */
  method Generate(g: Grid) returns (vertices: seq<real>, coords: seq<real>, normals: seq<real>, triangles: seq<real>)
    ensures vertices == Emitted(g, Position, g.detailY + 1, 0)
    ensures coords == Emitted(g, Coord, g.detailY + 1, 0)
    ensures normals == Emitted(g, Normal, g.detailY + 1, 0)
    ensures triangles == Emitted(g, Triangle, g.detailY + 1, 0)
  {
    vertices, coords, normals, triangles := [], [], [], [];
    var n := if g.xz then [0.0, 1.0, 0.0] else [0.0, 0.0, 1.0];
    var y := 0;
    while y <= g.detailY
      invariant 0 <= y <= g.detailY + 1
      invariant vertices == Emitted(g, Position, y, 0) && coords == Emitted(g, Coord, y, 0)
      invariant normals == Emitted(g, Normal, y, 0) && triangles == Emitted(g, Triangle, y, 0)
    {
      var t := y as real / g.detailY as real;
      var x := 0;
      while x <= g.detailX
        invariant 0 <= x <= g.detailX + 1
        invariant vertices == Emitted(g, Position, y, x) && coords == Emitted(g, Coord, y, x)
        invariant normals == Emitted(g, Normal, y, x) && triangles == Emitted(g, Triangle, y, x)
      {
        vertices, coords, normals, triangles := Visit(g, x, y, t, n, vertices, coords, normals, triangles);
        x := x + 1;
      }
      y := y + 1;
    }
  }

  /** One pass of the inner loop at grid vertex (x, y), whose row parameter is `t`. */
  method Visit(g: Grid, x: nat, y: nat, t: real, n: seq<real>,
               vertices: seq<real>, coords: seq<real>, normals: seq<real>, triangles: seq<real>)
    returns (vertices': seq<real>, coords': seq<real>, normals': seq<real>, triangles': seq<real>)
    requires t == Param(y, g.detailY) && n == NormalOf(g)
    ensures vertices' == vertices + Pushed(g, Position, x, y)
    ensures coords' == coords + Pushed(g, Coord, x, y)
    ensures normals' == normals + Pushed(g, Normal, x, y)
    ensures triangles' == triangles + Pushed(g, Triangle, x, y)
  {
    var s := x as real / g.detailX as real;
    assert s == Param(x, g.detailX);
    if g.xz {
      vertices' := vertices + [(2.0 * s - 1.0) * g.halfWidth, 0.0, -(2.0 * t - 1.0) * g.halfHeight];
      assert Pushed(g, Position, x, y)[0] == (2.0 * s - 1.0) * g.halfWidth;
      assert Pushed(g, Position, x, y)[2] == -(2.0 * t - 1.0) * g.halfHeight;
    } else {
      vertices' := vertices + [(2.0 * s - 1.0) * g.halfWidth, (2.0 * t - 1.0) * g.halfHeight, 0.0];
      assert Pushed(g, Position, x, y)[0] == (2.0 * s - 1.0) * g.halfWidth;
      assert Pushed(g, Position, x, y)[1] == (2.0 * t - 1.0) * g.halfHeight;
    }
    coords' := coords + [s, t];
    normals' := normals + n;
    triangles' := triangles;
    if x < g.detailX && y < g.detailY {
      var i := (x + y * (g.detailX + 1)) as real;
      var d := g.detailX as real;
      if g.xz {
        triangles' := triangles + [i + 1.0, i + d + 1.0, i, i + 1.0, i + d + 2.0, i + d + 1.0];
      } else {
        triangles' := triangles + [i, i + 1.0, i + d + 1.0, i + d + 1.0, i + 1.0, i + d + 2.0];
      }
    }
  }

  /** The vertex streams the plane hands to `GLMesh`, in the order it lists them. */
  function PlaneStreams(vertices: seq<real>, normals: seq<real>, coords: seq<real>): (m: OMap<string, Stream>)
    ensures m.Valid() && m.values.Keys == {"P", "N", "uv"}
    ensures forall k :: k in m.values ==> m.values[k].Numbers?
  {
    OMap(["P", "N", "uv"], map["P" := Numbers(vertices), "N" := Numbers(normals), "uv" := Numbers(coords)])
  }

  /** `addBuffers` keeps all three plane streams: each is present and named in the schema. */
  lemma PlaneStreamsKept(vertices: seq<real>, normals: seq<real>, coords: seq<real>)
    ensures VertexNames(PlaneStreams(vertices, normals, coords)) == {"P", "N", "uv"}
  {
    var m := PlaneStreams(vertices, normals, coords);
    assert KeptVertex(m, "P") && KeptVertex(m, "N") && KeptVertex(m, "uv");
  }

  /**
   * What `addBuffers` makes of the plane's streams: every kept stream is stored as 32-bit
   * floats, the positions give the vertex count, and no stream has a kind a buffer refuses.
   */
  lemma PlaneStreamsConvert(vertices: seq<real>, normals: seq<real>, coords: seq<real>, triangles: seq<real>)
    ensures var vstreams := PlaneStreams(vertices, normals, coords);
      var istreams := OMap(["triangles"], map["triangles" := Numbers(triangles)]);
      var nv := CallVertexCount(vstreams, false);
      && VertexNames(vstreams) == {"P", "N", "uv"} && IndexNames(istreams) == {"triangles"}
      && KeptVertex(vstreams, "P") && KeptVertex(vstreams, "N") && KeptVertex(vstreams, "uv")
      && VertexArray("P", vstreams.values["P"]) == Convert(Float32, vertices)
      && VertexArray("N", vstreams.values["N"]) == Convert(Float32, normals)
      && VertexArray("uv", vstreams.values["uv"]) == Convert(Float32, coords)
      && nv == Some(|vertices| as real / 3.0)
      && IndexArray(istreams.values["triangles"], nv) == Convert(IndexKind(nv), triangles)
      && VertexKindsOk(vstreams) && IndexKindsOk(istreams, nv)
  {
    var vstreams := PlaneStreams(vertices, normals, coords);
    PlaneStreamsKept(vertices, normals, coords);
    PlainVertexKinds("P", vertices);
    PlainVertexKinds("N", normals);
    PlainVertexKinds("uv", coords);
    var istreams := OMap(["triangles"], map["triangles" := Numbers(triangles)]);
    assert IndexNames(istreams) == {"triangles"};
  }

  /**
   * `new GLPlaneMesh(gl, options)`: the grid the options describe, generated and given to a
   * new mesh as plain-number streams with default usage. The mesh then has exactly the "P",
   * "N" and "uv" vertex buffers, holding the generated positions, normals and texture
   * coordinates as 32-bit floats, and the "triangles" index buffer, holding the generated
   * indices as 16-bit integers, or 32-bit ones beyond 65536 vertices.
   */
  method NewPlaneMesh(gl: GLContext, options: PlaneOptions) returns (mesh: GLMesh, outcome: Outcome)
    modifies gl
    ensures fresh(mesh) && mesh.Valid() && mesh.gl == gl && outcome.Done?
    ensures mesh.vertexBuffers.values.Keys == {"P", "N", "uv"} && mesh.indexBuffers.values.Keys == {"triangles"}
    ensures var g := GridOf(options);
      var vertices := Emitted(g, Position, g.detailY + 1, 0);
      NewVertexStream("P", mesh.vertexBuffers.values["P"], Convert(Float32, vertices))
      && NewVertexStream("N", mesh.vertexBuffers.values["N"], Convert(Float32, Emitted(g, Normal, g.detailY + 1, 0)))
      && NewVertexStream("uv", mesh.vertexBuffers.values["uv"], Convert(Float32, Emitted(g, Coord, g.detailY + 1, 0)))
      && NewIndexStream(mesh.indexBuffers.values["triangles"],
                        Convert(IndexKind(Some(|vertices| as real / 3.0)), Emitted(g, Triangle, g.detailY + 1, 0)))
  {
    var g := GridOf(options);
    var vertices, coords, normals, triangles := Generate(g);
    mesh := new GLMesh(gl);
    outcome := FillPlane(mesh, vertices, normals, coords, triangles);
  }

  /** Hands the generated streams to a mesh that holds no buffer yet; plain numbers never fail to convert. */
  method FillPlane(mesh: GLMesh, vertices: seq<real>, normals: seq<real>, coords: seq<real>, triangles: seq<real>)
    returns (outcome: Outcome)
    requires mesh.Valid() && mesh.vertexBuffers == Empty() && mesh.indexBuffers == Empty() && mesh.contexts == {mesh.gl}
    modifies mesh`vertexBuffers, mesh`indexBuffers, mesh.gl
    ensures mesh.Valid() && outcome.Done?
    ensures mesh.vertexBuffers.values.Keys == {"P", "N", "uv"} && mesh.indexBuffers.values.Keys == {"triangles"}
    ensures NewVertexStream("P", mesh.vertexBuffers.values["P"], Convert(Float32, vertices))
    ensures NewVertexStream("N", mesh.vertexBuffers.values["N"], Convert(Float32, normals))
    ensures NewVertexStream("uv", mesh.vertexBuffers.values["uv"], Convert(Float32, coords))
    ensures NewIndexStream(mesh.indexBuffers.values["triangles"], Convert(IndexKind(Some(|vertices| as real / 3.0)), triangles))
  {
    var vstreams := PlaneStreams(vertices, normals, coords);
    var istreams := OMap(["triangles"], map["triangles" := Numbers(triangles)]);
    PlaneStreamsConvert(vertices, normals, coords, triangles);
    assert mesh.Buffers() == {};
    outcome := mesh.AddBuffers(vstreams, istreams, 0);
    PlaneStored(mesh, vertices, normals, coords, triangles, vstreams, istreams, old(mesh.vertexBuffers));
  }

  /** What `addBuffers` promises for any streams, read for the plane's streams on a mesh that had no buffer. */
  lemma PlaneStored(mesh: GLMesh, vertices: seq<real>, normals: seq<real>, coords: seq<real>, triangles: seq<real>,
                    vstreams: OMap<string, Stream>, istreams: OMap<string, Stream>, before: OMap<string, GLBuffer>)
    requires vstreams == PlaneStreams(vertices, normals, coords) && before == Empty()
    requires istreams == OMap(["triangles"], map["triangles" := Numbers(triangles)])
    requires mesh.vertexBuffers.values.Keys == before.values.Keys + VertexNames(vstreams)
    requires mesh.indexBuffers.values.Keys == before.values.Keys + IndexNames(istreams)
    requires forall k :: KeptVertex(vstreams, k) && k !in before.values ==>
      NewVertexStream(k, mesh.vertexBuffers.values[k], VertexArray(k, vstreams.values[k]))
    requires forall k :: k in istreams.values && !istreams.values[k].NoStream? ==>
      var nv := CallVertexCount(vstreams, "P" in before.values);
      NewIndexStream(mesh.indexBuffers.values[k], IndexArray(istreams.values[k], nv))
    ensures mesh.vertexBuffers.values.Keys == {"P", "N", "uv"} && mesh.indexBuffers.values.Keys == {"triangles"}
    ensures NewVertexStream("P", mesh.vertexBuffers.values["P"], Convert(Float32, vertices))
    ensures NewVertexStream("N", mesh.vertexBuffers.values["N"], Convert(Float32, normals))
    ensures NewVertexStream("uv", mesh.vertexBuffers.values["uv"], Convert(Float32, coords))
    ensures NewIndexStream(mesh.indexBuffers.values["triangles"], Convert(IndexKind(Some(|vertices| as real / 3.0)), triangles))
  {
    PlaneStreamsConvert(vertices, normals, coords, triangles);
  }
}
