/**
 * extras/geometries/BoxGeometry.go: a box mesh built side by side. Each of
 * the six calls to the buildPlane closure appends a grid of vertices, two
 * triangles per grid cell and one UV triple per triangle to the geometry.
 */
module BoxGeometries {
  import opened Vectors
  import opened Faces
  import opened Geometries

  /** The axis names buildPlane receives as the strings "x", "y", "z". */
  datatype Axis = X | Y | Z

  function AxisIndex(a: Axis): (i: int)
    ensures 0 <= i < 3
  {
    match a
    case X => 0
    case Y => 1
    case Z => 2
  }

  datatype Segments = Segments(width: int, height: int, depth: int) {
    predicate Valid() {
      width >= 1 && height >= 1 && depth >= 1
    }
  }

  /** The arguments of one buildPlane call. */
  datatype PlaneArgs = PlaneArgs(u: Axis, v: Axis, udir: int, vdir: int,
                                 width: real, height: real, depth: real, materialIndex: int)

  /** What buildPlane derives from its arguments: the third axis w and the grid resolution. */
  datatype Grid = Grid(args: PlaneArgs, w: Axis, gridX: int, gridY: int) {
    predicate Valid() {
      gridX >= 1 && gridY >= 1
    }
  }

  /**
   * w is the axis that is neither u nor v; the grid is widthSegments by
   * heightSegments, except that depthSegments replaces gridY when w is y and
   * gridX when w is x.
   */
  function GridOf(p: PlaneArgs, s: Segments): (g: Grid)
    requires p.u != p.v
    ensures g.args == p
    ensures g.w != p.u && g.w != p.v
    ensures g.gridX == (if g.w == X then s.depth else s.width)
    ensures g.gridY == (if g.w == Y then s.depth else s.height)
    ensures s.Valid() ==> g.Valid()
  {
    if (p.u == X && p.v == Y) || (p.u == Y && p.v == X) then Grid(p, Z, s.width, s.height)
    else if (p.u == X && p.v == Z) || (p.u == Z && p.v == X) then Grid(p, Y, s.width, s.depth)
    else
      assert p.u != X && p.v != X;
      Grid(p, X, s.depth, s.height)
  }

  /** The normal shared by all faces of the side: +1 on w when depth is positive, else -1. */
  function SideNormal(g: Grid): (n: Vec3)
    ensures n.Component(AxisIndex(g.w)) == if g.args.depth > 0.0 then 1.0 else -1.0
    ensures forall j | 0 <= j < 3 && j != AxisIndex(g.w) :: n.Component(j) == 0.0
  {
    Zero.WithComponent(AxisIndex(g.w), if g.args.depth > 0.0 then 1.0 else -1.0)
  }

  /** The grid vertex (ix, iy): u and v spread over the side, w fixed at depth. */
  function GridVertex(g: Grid, ix: int, iy: int): (r: Vec3)
    requires g.Valid()
  {
    var p := g.args;
    Zero.WithComponent(AxisIndex(p.u), Spread(ix, p.width / g.gridX as real, p.width / 2.0, p.udir))
        .WithComponent(AxisIndex(p.v), Spread(iy, p.height / g.gridY as real, p.height / 2.0, p.vdir))
        .WithComponent(AxisIndex(g.w), p.depth)
  }

  /** Position i of a row of segments centred on zero, mirrored when dir is -1. */
  function Spread(i: int, segment: real, half: real, dir: int): real {
    (i as real * segment - half) * dir as real
  }

  /**
   * Every grid vertex lies in the plane w = depth, and the first and last
   * columns sit at -width/2 and +width/2 along u (times udir).
   */
  lemma GridVertexPlacement(g: Grid, ix: int, iy: int)
    requires g.Valid() && g.args.u != g.args.v && g.w != g.args.u && g.w != g.args.v
    ensures GridVertex(g, ix, iy).Component(AxisIndex(g.w)) == g.args.depth
    ensures GridVertex(g, 0, iy).Component(AxisIndex(g.args.u)) == -(g.args.width / 2.0) * g.args.udir as real
    ensures GridVertex(g, g.gridX, iy).Component(AxisIndex(g.args.u)) == (g.args.width / 2.0) * g.args.udir as real
    ensures GridVertex(g, ix, 0).Component(AxisIndex(g.args.v)) == -(g.args.height / 2.0) * g.args.vdir as real
    ensures GridVertex(g, ix, g.gridY).Component(AxisIndex(g.args.v)) == (g.args.height / 2.0) * g.args.vdir as real
  {
    var p := g.args;
    SpreadEnds(g.gridX, p.width, p.udir);
    SpreadEnds(g.gridY, p.height, p.vdir);
  }

  /** A row of n segments of extent / n runs from -extent/2 to +extent/2. */
  lemma SpreadEnds(n: int, extent: real, dir: int)
    requires n >= 1
    ensures Spread(0, extent / n as real, extent / 2.0, dir) == -(extent / 2.0) * dir as real
    ensures Spread(n, extent / n as real, extent / 2.0, dir) == (extent / 2.0) * dir as real
  {
    assert n as real * (extent / n as real) == extent;
  }

  /** Row iy of the vertex grid, its first n columns. */
  function VertexRow(g: Grid, iy: int, n: nat): (r: seq<Vec3>)
    requires g.Valid()
    ensures |r| == n
  {
    if n == 0 then [] else VertexRow(g, iy, n - 1) + [GridVertex(g, n - 1, iy)]
  }

  /** The first rows of the vertex grid, row after row. */
  function VertexRows(g: Grid, rows: nat): (r: seq<Vec3>)
    requires g.Valid()
  {
    if rows == 0 then [] else VertexRows(g, rows - 1) + VertexRow(g, rows - 1, g.gridX + 1)
  }

  /** A default face over corners a, b, c given the side's normal (also at each corner) and material. */
  function SideFace(normal: Vec3, materialIndex: int, a: int, b: int, c: int): Face {
    DefaultFace(a, b, c).(normal := normal, vertexNormals := [normal, normal, normal], materialIndex := materialIndex)
  }

  /** The two triangles of grid cell (ix, iy): (a, b, d) and (b, c, d). */
  function CellFaces(g: Grid, offset: int, ix: int, iy: int): (r: seq<Face>)
    ensures |r| == 2
  {
    var gridX1 := g.gridX + 1;
    var a, b := ix + gridX1 * iy, ix + gridX1 * (iy + 1);
    var c, d := (ix + 1) + gridX1 * (iy + 1), (ix + 1) + gridX1 * iy;
    var n, mi := SideNormal(g), g.args.materialIndex;
    [SideFace(n, mi, a + offset, b + offset, d + offset), SideFace(n, mi, b + offset, c + offset, d + offset)]
  }

  /** The UV triples of cell (ix, iy), one per triangle. */
  function CellUvs(g: Grid, ix: int, iy: int): (r: seq<seq<Vec2>>)
    requires g.Valid()
    ensures |r| == 2
  {
    var uva, uvb := GridUv(ix, iy, g.gridX, g.gridY), GridUv(ix, iy + 1, g.gridX, g.gridY);
    var uvc, uvd := GridUv(ix + 1, iy + 1, g.gridX, g.gridY), GridUv(ix + 1, iy, g.gridX, g.gridY);
    [[uva, uvb, uvd], [uvb, uvc, uvd]]
  }

  /** The texture coordinate of grid point (ix, iy): u runs left to right, v top to bottom. */
  function GridUv(ix: int, iy: int, gridX: int, gridY: int): (uv: Vec2)
    requires gridX >= 1 && gridY >= 1
    ensures 0 <= ix <= gridX && 0 <= iy <= gridY ==> 0.0 <= uv.x <= 1.0 && 0.0 <= uv.y <= 1.0
  {
    GridFraction(ix, gridX);
    GridFraction(iy, gridY);
    Vec2(ix as real / gridX as real, 1.0 - iy as real / gridY as real)
  }

  /** A grid index over the grid size is a fraction in [0, 1]. */
  lemma GridFraction(i: int, n: int)
    requires n >= 1
    ensures 0 <= i <= n ==> 0.0 <= i as real / n as real <= 1.0
  {
    if 0 <= i <= n {
      var f := i as real / n as real;
      assert f * n as real == i as real;
    }
  }

  function FaceRow(g: Grid, offset: int, iy: int, n: nat): (r: seq<Face>)
    ensures |r| == 2 * n
  {
    if n == 0 then [] else FaceRow(g, offset, iy, n - 1) + CellFaces(g, offset, n - 1, iy)
  }

  function FaceRows(g: Grid, offset: int, rows: nat): (r: seq<Face>)
    requires g.Valid()
  {
    if rows == 0 then [] else FaceRows(g, offset, rows - 1) + FaceRow(g, offset, rows - 1, g.gridX)
  }

  function UvRow(g: Grid, iy: int, n: nat): (r: seq<seq<Vec2>>)
    requires g.Valid()
    ensures |r| == 2 * n
  {
    if n == 0 then [] else UvRow(g, iy, n - 1) + CellUvs(g, n - 1, iy)
  }

  function UvRows(g: Grid, rows: nat): (r: seq<seq<Vec2>>)
    requires g.Valid()
  {
    if rows == 0 then [] else UvRows(g, rows - 1) + UvRow(g, rows - 1, g.gridX)
  }

  /** The first rows of the grid hold gridX + 1 vertices and 2 * gridX faces and UV triples each. */
  lemma {:induction false} RowsLengths(g: Grid, offset: int, rows: nat)
    requires g.Valid()
    ensures |VertexRows(g, rows)| == (g.gridX + 1) * rows
    ensures |FaceRows(g, offset, rows)| == 2 * (g.gridX * rows)
    ensures |UvRows(g, rows)| == 2 * (g.gridX * rows)
  {
    if rows > 0 {
      RowsLengths(g, offset, rows - 1);
      assert (g.gridX + 1) * rows == (g.gridX + 1) * (rows - 1) + (g.gridX + 1);
      assert 2 * (g.gridX * rows) == 2 * (g.gridX * (rows - 1)) + 2 * g.gridX;
    }
  }

  /** One buildPlane call on a mesh: the side's vertices, faces (indexed past the existing vertices) and UVs appended. */
  function PlaneAppended(m: Mesh, g: Grid): (r: Mesh)
    requires g.Valid() && |m.faceVertexUvs| > 0
    ensures |r.faceVertexUvs| == |m.faceVertexUvs|
  {
    Mesh(m.vertices + VertexRows(g, g.gridY + 1),
         m.faces + FaceRows(g, |m.vertices|, g.gridY),
         m.faceVertexUvs[0 := m.faceVertexUvs[0] + UvRows(g, g.gridY)])
  }

  /** A side adds (gridX + 1) * (gridY + 1) vertices, and two faces and two UV triples per cell. */
  lemma PlaneAppendedCounts(m: Mesh, g: Grid)
    requires g.Valid() && |m.faceVertexUvs| > 0
    ensures var r := PlaneAppended(m, g);
      && |r.vertices| == |m.vertices| + (g.gridX + 1) * (g.gridY + 1)
      && |r.faces| == |m.faces| + 2 * (g.gridX * g.gridY)
      && |r.faceVertexUvs[0]| == |m.faceVertexUvs[0]| + 2 * (g.gridX * g.gridY)
  {
    RowsLengths(g, |m.vertices|, g.gridY);
    RowsLengths(g, |m.vertices|, g.gridY + 1);
  }

  /** A side only appends: existing vertices, faces and UV triples stay in place, other UV channels are untouched. */
  lemma PlaneAppendedKeeps(m: Mesh, g: Grid)
    requires g.Valid() && |m.faceVertexUvs| > 0
    ensures var r := PlaneAppended(m, g);
      && r.vertices[..|m.vertices|] == m.vertices && r.faces[..|m.faces|] == m.faces
      && r.faceVertexUvs[0][..|m.faceVertexUvs[0]|] == m.faceVertexUvs[0]
      && forall i | 1 <= i < |m.faceVertexUvs| :: r.faceVertexUvs[i] == m.faceVertexUvs[i]
  {
    var r := PlaneAppended(m, g);
    assert r.vertices[..|m.vertices|] == m.vertices;
    assert r.faces[..|m.faces|] == m.faces;
    assert r.faceVertexUvs[0][..|m.faceVertexUvs[0]|] == m.faceVertexUvs[0];
  }

  /** All corners of the face lie in [lo, hi). */
  predicate CornersWithin(f: Face, lo: int, hi: int) {
    lo <= f.a < hi && lo <= f.b < hi && lo <= f.c < hi
  }

  lemma MulMonotone(k: int, a: int, b: int)
    requires k >= 0 && a <= b
    ensures k * a <= k * b
  {
  }

  /** The four corner indices of a cell lie in [0, (gridX + 1) * (gridY + 1)). */
  lemma CellCornersInRange(g: Grid, offset: int, ix: int, iy: int)
    requires g.Valid() && 0 <= ix < g.gridX && 0 <= iy < g.gridY
    ensures forall k | 0 <= k < 2 ::
      CornersWithin(CellFaces(g, offset, ix, iy)[k], offset, offset + (g.gridX + 1) * (g.gridY + 1))
  {
    var gridX1 := g.gridX + 1;
    MulMonotone(gridX1, 0, iy);
    MulMonotone(gridX1, iy + 1, g.gridY);
    assert gridX1 * (iy + 1) == gridX1 * iy + gridX1;
    assert gridX1 * (g.gridY + 1) == gridX1 * g.gridY + gridX1;
  }

  lemma {:induction false} FaceRowInRange(g: Grid, offset: int, iy: int, n: nat)
    requires g.Valid() && 0 <= iy < g.gridY && n <= g.gridX
    ensures forall k | 0 <= k < |FaceRow(g, offset, iy, n)| ::
      CornersWithin(FaceRow(g, offset, iy, n)[k], offset, offset + (g.gridX + 1) * (g.gridY + 1))
  {
    if n > 0 {
      FaceRowInRange(g, offset, iy, n - 1);
      CellCornersInRange(g, offset, n - 1, iy);
    }
  }

  /** Every face a buildPlane call emits indexes the vertices that same call appended. */
  lemma {:induction false} FaceRowsInRange(g: Grid, offset: int, rows: nat)
    requires g.Valid() && rows <= g.gridY
    ensures forall k | 0 <= k < |FaceRows(g, offset, rows)| ::
      CornersWithin(FaceRows(g, offset, rows)[k], offset, offset + (g.gridX + 1) * (g.gridY + 1))
  {
    if rows > 0 {
      FaceRowsInRange(g, offset, rows - 1);
      FaceRowInRange(g, offset, rows - 1, g.gridX);
    }
  }

  /** Every face a buildPlane call emits carries the side normal and the call's material index. */
  lemma {:induction false} FaceRowsShared(g: Grid, offset: int, rows: nat)
    requires g.Valid()
    ensures forall k | 0 <= k < |FaceRows(g, offset, rows)| ::
      var f := FaceRows(g, offset, rows)[k];
      f.normal == SideNormal(g) && f.vertexNormals == [SideNormal(g), SideNormal(g), SideNormal(g)] &&
      f.materialIndex == g.args.materialIndex
  {
    if rows > 0 {
      FaceRowsShared(g, offset, rows - 1);
      FaceRowShared(g, offset, rows - 1, g.gridX);
    }
  }

  lemma {:induction false} FaceRowShared(g: Grid, offset: int, iy: int, n: nat)
    ensures forall k | 0 <= k < |FaceRow(g, offset, iy, n)| ::
      var f := FaceRow(g, offset, iy, n)[k];
      f.normal == SideNormal(g) && f.vertexNormals == [SideNormal(g), SideNormal(g), SideNormal(g)] &&
      f.materialIndex == g.args.materialIndex
  {
    if n > 0 {
      FaceRowShared(g, offset, iy, n - 1);
    }
  }

  /** A buildPlane call keeps every face of the mesh within its vertex list. */
  lemma PlaneAppendedInRange(m: Mesh, g: Grid)
    requires g.Valid() && |m.faceVertexUvs| > 0 && m.FacesInRange()
    ensures PlaneAppended(m, g).FacesInRange()
  {
    var r := PlaneAppended(m, g);
    PlaneAppendedCounts(m, g);
    FaceRowsInRange(g, |m.vertices|, g.gridY);
    forall i | 0 <= i < |r.faces|
      ensures r.faces[i].InRange(|r.vertices|)
    {
      if i < |m.faces| {
        assert r.faces[i] == m.faces[i];
      } else {
        assert r.faces[i] == FaceRows(g, |m.vertices|, g.gridY)[i - |m.faces|];
      }
    }
  }

  /** The six calls of NewBoxGeometry: +x, -x, +y, -y, +z, -z with material indices 0 to 5. */
  function Call(k: int, width: real, height: real, depth: real): (p: PlaneArgs)
    requires 0 <= k < 6
    ensures p.u != p.v && p.materialIndex == k
  {
    var widthHalf, heightHalf, depthHalf := width / 2.0, height / 2.0, depth / 2.0;
    if k == 0 then PlaneArgs(Z, Y, -1, -1, depth, height, widthHalf, 0)
    else if k == 1 then PlaneArgs(Z, Y, 1, -1, depth, height, -widthHalf, 1)
    else if k == 2 then PlaneArgs(X, Z, 1, 1, width, depth, heightHalf, 2)
    else if k == 3 then PlaneArgs(X, Z, 1, -1, width, depth, -heightHalf, 3)
    else if k == 4 then PlaneArgs(X, Y, 1, -1, width, height, depthHalf, 4)
    else PlaneArgs(X, Y, -1, -1, width, height, -depthHalf, 5)
  }

  /** The grids of the six calls, in call order. */
  function Sides(width: real, height: real, depth: real, s: Segments): (gs: seq<Grid>)
    requires s.Valid()
    ensures |gs| == 6 && AllValid(gs)
  {
    seq(6, k requires 0 <= k < 6 => GridOf(Call(k, width, height, depth), s))
  }

  predicate AllValid(gs: seq<Grid>) {
    forall j | 0 <= j < |gs| :: gs[j].Valid()
  }

  /** The mesh after one buildPlane call for each of the first k grids, in order. */
  function Built(m: Mesh, gs: seq<Grid>, k: nat): (r: Mesh)
    requires k <= |gs| && AllValid(gs) && |m.faceVertexUvs| > 0
    ensures |r.faceVertexUvs| == |m.faceVertexUvs|
  {
    if k == 0 then m else PlaneAppended(Built(m, gs, k - 1), gs[k - 1])
  }

  /** NewBoxGeometry's mesh: the six sides built onto NewGeometry's empty lists. */
  function BoxMesh(width: real, height: real, depth: real, s: Segments): Mesh
    requires s.Valid()
  {
    Built(Mesh([], [], [[]]), Sides(width, height, depth, s), 6)
  }

  /** Every face built indexes the vertex list, and its material index is one of the grids'. */
  lemma {:induction false} BuiltWellFormed(m: Mesh, gs: seq<Grid>, k: nat, materials: int)
    requires k <= |gs| && AllValid(gs) && |m.faceVertexUvs| > 0 && m.FacesInRange()
    requires forall i | 0 <= i < |m.faces| :: 0 <= m.faces[i].materialIndex < materials
    requires forall j | 0 <= j < |gs| :: 0 <= gs[j].args.materialIndex < materials
    ensures Built(m, gs, k).FacesInRange()
    ensures forall i | 0 <= i < |Built(m, gs, k).faces| :: 0 <= Built(m, gs, k).faces[i].materialIndex < materials
  {
    if k > 0 {
      BuiltWellFormed(m, gs, k - 1, materials);
      PlaneAppendedInRange(Built(m, gs, k - 1), gs[k - 1]);
      PlaneAppendedMaterials(Built(m, gs, k - 1), gs[k - 1], materials);
    }
  }

  /** A side's faces carry its material index; earlier faces keep theirs. */
  lemma PlaneAppendedMaterials(m: Mesh, g: Grid, materials: int)
    requires g.Valid() && |m.faceVertexUvs| > 0 && 0 <= g.args.materialIndex < materials
    requires forall i | 0 <= i < |m.faces| :: 0 <= m.faces[i].materialIndex < materials
    ensures forall i | 0 <= i < |PlaneAppended(m, g).faces| :: 0 <= PlaneAppended(m, g).faces[i].materialIndex < materials
  {
    var r := PlaneAppended(m, g);
    FaceRowsShared(g, |m.vertices|, g.gridY);
    forall i | 0 <= i < |r.faces|
      ensures 0 <= r.faces[i].materialIndex < materials
    {
      if i < |m.faces| {
        assert r.faces[i] == m.faces[i];
      } else {
        assert r.faces[i] == FaceRows(g, |m.vertices|, g.gridY)[i - |m.faces|];
      }
    }
  }

  /** Every face of the box indexes its vertex list and has a material index in 0..5, one per side. */
  lemma BoxMeshWellFormed(width: real, height: real, depth: real, s: Segments)
    requires s.Valid()
    ensures BoxMesh(width, height, depth, s).FacesInRange()
    ensures forall i | 0 <= i < |BoxMesh(width, height, depth, s).faces| ::
      0 <= BoxMesh(width, height, depth, s).faces[i].materialIndex < 6
  {
    BuiltWellFormed(Mesh([], [], [[]]), Sides(width, height, depth, s), 6, 6);
  }

  /** Vertices the first k grids add. */
  function SumVertices(gs: seq<Grid>, k: nat): int
    requires k <= |gs|
  {
    if k == 0 then 0 else SumVertices(gs, k - 1) + (gs[k - 1].gridX + 1) * (gs[k - 1].gridY + 1)
  }

  /** Grid cells the first k grids cover; each yields two faces and two UV triples. */
  function SumCells(gs: seq<Grid>, k: nat): int
    requires k <= |gs|
  {
    if k == 0 then 0 else SumCells(gs, k - 1) + gs[k - 1].gridX * gs[k - 1].gridY
  }

  lemma {:induction false} BuiltCounts(m: Mesh, gs: seq<Grid>, k: nat)
    requires k <= |gs| && AllValid(gs) && |m.faceVertexUvs| > 0
    ensures var r := Built(m, gs, k);
      && |r.vertices| == |m.vertices| + SumVertices(gs, k)
      && |r.faces| == |m.faces| + 2 * SumCells(gs, k)
      && |r.faceVertexUvs[0]| == |m.faceVertexUvs[0]| + 2 * SumCells(gs, k)
  {
    if k > 0 {
      BuiltCounts(m, gs, k - 1);
      PlaneAppendedCounts(Built(m, gs, k - 1), gs[k - 1]);
    }
  }

  /** The x sides have depthSegments by heightSegments cells, the y sides widthSegments by depthSegments, the z sides widthSegments by heightSegments. */
  lemma SixSidesTotals(width: real, height: real, depth: real, s: Segments)
    requires s.Valid()
    ensures SumVertices(Sides(width, height, depth, s), 6)
         == 2 * ((s.depth + 1) * (s.height + 1) + (s.width + 1) * (s.depth + 1) + (s.width + 1) * (s.height + 1))
    ensures SumCells(Sides(width, height, depth, s), 6) == 2 * (s.depth * s.height + s.width * s.depth + s.width * s.height)
  {
    var gs := Sides(width, height, depth, s);
    var x, y, z := (s.depth + 1) * (s.height + 1), (s.width + 1) * (s.depth + 1), (s.width + 1) * (s.height + 1);
    assert SumVertices(gs, 1) == x;
    assert SumVertices(gs, 2) == x + x;
    assert SumVertices(gs, 3) == x + x + y;
    assert SumVertices(gs, 4) == x + x + y + y;
    assert SumVertices(gs, 5) == x + x + y + y + z;
    var cx, cy, cz := s.depth * s.height, s.width * s.depth, s.width * s.height;
    assert SumCells(gs, 1) == cx;
    assert SumCells(gs, 2) == cx + cx;
    assert SumCells(gs, 3) == cx + cx + cy;
    assert SumCells(gs, 4) == cx + cx + cy + cy;
    assert SumCells(gs, 5) == cx + cx + cy + cy + cz;
  }

  /** The box's vertex, face and UV counts for any segment counts. */
  lemma BoxCounts(width: real, height: real, depth: real, s: Segments)
    requires s.Valid()
    ensures var m := BoxMesh(width, height, depth, s);
      && |m.vertices| == 2 * ((s.depth + 1) * (s.height + 1) + (s.width + 1) * (s.depth + 1) + (s.width + 1) * (s.height + 1))
      && |m.faces| == 4 * (s.depth * s.height + s.width * s.depth + s.width * s.height)
      && |m.faceVertexUvs[0]| == |m.faces|
  {
    BuiltCounts(Mesh([], [], [[]]), Sides(width, height, depth, s), 6);
    SixSidesTotals(width, height, depth, s);
  }

  /** With one segment per axis the box has 24 vertices (4 per side), 12 faces and 12 UV triples. */
  lemma UnitSegmentsCounts(width: real, height: real, depth: real)
    ensures var m := BoxMesh(width, height, depth, Segments(1, 1, 1));
      |m.vertices| == 24 && |m.faces| == 12 && |m.faceVertexUvs[0]| == 12
  {
    BoxCounts(width, height, depth, Segments(1, 1, 1));
  }

  class BoxGeometry {
    const geometry: Geometry
    var width: real
    var height: real
    var depth: real
    var widthSegments: int
    var heightSegments: int
    var depthSegments: int

    function Segs(): Segments
      reads this
    {
      Segments(widthSegments, heightSegments, depthSegments)
    }

    /**
     * NewBoxGeometry: a fresh geometry filled by the six buildPlane calls.
     * Segment counts must be positive, as each is a divisor.
     */
    constructor (width: real, height: real, depth: real, widthSegments: int, heightSegments: int, depthSegments: int)
      requires Segments(widthSegments, heightSegments, depthSegments).Valid()
      ensures fresh(geometry)
      ensures this.width == width && this.height == height && this.depth == depth
      ensures Segs() == Segments(widthSegments, heightSegments, depthSegments)
      ensures geometry.Value() == BoxMesh(width, height, depth, Segs())
    {
      geometry := new Geometry();
      this.width, this.height, this.depth := width, height, depth;
      this.widthSegments, this.heightSegments, this.depthSegments := widthSegments, heightSegments, depthSegments;
      new;
      BuildSides();
    }

    /** The six buildPlane calls, in source order: +x, -x, +y, -y, +z, -z. */
    method BuildSides()
      requires Segs().Valid() && geometry.Value() == Mesh([], [], [[]])
      modifies geometry
      ensures geometry.Value() == BoxMesh(width, height, depth, Segs())
    {
      ghost var sides := Sides(width, height, depth, Segs());
      for k := 0 to 6
        invariant geometry.Value() == Built(Mesh([], [], [[]]), sides, k)
      {
        BuildSide(k);
      }
    }

    /** The k-th of the six buildPlane calls. */
    method BuildSide(k: int)
      requires 0 <= k < 6 && Segs().Valid() && |geometry.faceVertexUvs| > 0
      modifies geometry
      ensures |geometry.faceVertexUvs| == |old(geometry.faceVertexUvs)|
      ensures geometry.Value() == PlaneAppended(old(geometry.Value()), Sides(width, height, depth, Segs())[k])
    {
      var p := Call(k, width, height, depth);
      BuildPlane(p.u, p.v, p.udir, p.vdir, p.width, p.height, p.depth, p.materialIndex);
    }

    /** The buildPlane closure: one side of the box appended to the geometry. */
    method BuildPlane(u: Axis, v: Axis, udir: int, vdir: int, width: real, height: real, depth: real, materialIndex: int)
      requires u != v && Segs().Valid() && |geometry.faceVertexUvs| > 0
      modifies geometry
      ensures |geometry.faceVertexUvs| == |old(geometry.faceVertexUvs)|
      ensures geometry.Value() == PlaneAppended(old(geometry.Value()),
        GridOf(PlaneArgs(u, v, udir, vdir, width, height, depth, materialIndex), Segs()))
      ensures geometry.colors == old(geometry.colors) && geometry.Flags() == old(geometry.Flags())
      ensures geometry.boundingBox == old(geometry.boundingBox) && geometry.boundingSphere == old(geometry.boundingSphere)
    {
      var offset := |geometry.vertices|;
      var g := PlaneGrid(PlaneArgs(u, v, udir, vdir, width, height, depth, materialIndex), Segs());
      var vertices := AppendPlaneVertices(geometry.vertices, g);
      var faces, uvs := AppendPlaneFaces(geometry.faces, geometry.faceVertexUvs[0], g, offset);
      geometry.vertices, geometry.faces := vertices, faces;
      geometry.faceVertexUvs := geometry.faceVertexUvs[0 := uvs];
    }

    /** The head of buildPlane: w is the axis the plane faces; gridX and gridY default to the width and height counts. */
    static method PlaneGrid(p: PlaneArgs, s: Segments) returns (g: Grid)
      requires p.u != p.v
      ensures g == GridOf(p, s)
    {
      var w: Axis;
      var gridX, gridY := s.width, s.height;
      if (p.u == X && p.v == Y) || (p.u == Y && p.v == X) {
        w := Z;
      } else if (p.u == X && p.v == Z) || (p.u == Z && p.v == X) {
        w := Y;
        gridY := s.depth;
      } else {
        w := X;
        gridX := s.depth;
      }
      g := Grid(p, w, gridX, gridY);
    }

    /** The first loop nest of buildPlane: the grid's vertices appended row by row. */
    static method AppendPlaneVertices(vertices0: seq<Vec3>, g: Grid) returns (vertices: seq<Vec3>)
      requires g.Valid()
      ensures vertices == vertices0 + VertexRows(g, g.gridY + 1)
    {
      var p := g.args;
      var gridX1, gridY1 := g.gridX + 1, g.gridY + 1;
      var segmentWidth, segmentHeight := p.width / g.gridX as real, p.height / g.gridY as real;
      var widthHalf, heightHalf := p.width / 2.0, p.height / 2.0;
      vertices := vertices0;
      for iy := 0 to gridY1
        invariant vertices == vertices0 + VertexRows(g, iy)
      {
        for ix := 0 to gridX1
          invariant vertices == vertices0 + VertexRows(g, iy) + VertexRow(g, iy, ix)
        {
          var vector := Zero.WithComponent(AxisIndex(p.u), Spread(ix, segmentWidth, widthHalf, p.udir))
                            .WithComponent(AxisIndex(p.v), Spread(iy, segmentHeight, heightHalf, p.vdir))
                            .WithComponent(AxisIndex(g.w), p.depth);
          vertices := vertices + [vector];
        }
      }
    }

    /** The second loop nest of buildPlane: two faces and two UV triples per grid cell, row by row. */
    static method AppendPlaneFaces(faces0: seq<Face>, uvs0: seq<seq<Vec2>>, g: Grid, offset: int)
      returns (faces: seq<Face>, uvs: seq<seq<Vec2>>)
      requires g.Valid()
      ensures faces == faces0 + FaceRows(g, offset, g.gridY)
      ensures uvs == uvs0 + UvRows(g, g.gridY)
    {
      var normal := Zero.WithComponent(AxisIndex(g.w), if g.args.depth > 0.0 then 1.0 else -1.0);
      faces, uvs := faces0, uvs0;
      for iy := 0 to g.gridY
        invariant faces == faces0 + FaceRows(g, offset, iy)
        invariant uvs == uvs0 + UvRows(g, iy)
      {
        faces, uvs := AppendRowFaces(faces, uvs, g, offset, normal, iy);
      }
    }

    /** One pass of the inner loop: the cells of row iy, left to right. */
    static method AppendRowFaces(faces0: seq<Face>, uvs0: seq<seq<Vec2>>, g: Grid, offset: int, normal: Vec3, iy: int)
      returns (faces: seq<Face>, uvs: seq<seq<Vec2>>)
      requires g.Valid() && normal == SideNormal(g)
      ensures faces == faces0 + FaceRow(g, offset, iy, g.gridX)
      ensures uvs == uvs0 + UvRow(g, iy, g.gridX)
    {
      var gridX, gridY := g.gridX, g.gridY;
      var gridX1 := gridX + 1;
      var materialIndex := g.args.materialIndex;
      faces, uvs := faces0, uvs0;
      for ix := 0 to gridX
        invariant faces == faces0 + FaceRow(g, offset, iy, ix)
        invariant uvs == uvs0 + UvRow(g, iy, ix)
      {
        ghost var facesBefore, uvsBefore := faces, uvs;
        var a := ix + gridX1 * iy;
        var b := ix + gridX1 * (iy + 1);
        var c := (ix + 1) + gridX1 * (iy + 1);
        var d := (ix + 1) + gridX1 * iy;

        var uva := GridUv(ix, iy, gridX, gridY);
        var uvb := GridUv(ix, iy + 1, gridX, gridY);
        var uvc := GridUv(ix + 1, iy + 1, gridX, gridY);
        var uvd := GridUv(ix + 1, iy, gridX, gridY);

        var face := SideFace(normal, materialIndex, a + offset, b + offset, d + offset);
        faces := faces + [face];
        uvs := uvs + [[uva, uvb, uvd]];

        face := SideFace(normal, materialIndex, b + offset, c + offset, d + offset);
        faces := faces + [face];
        uvs := uvs + [[uvb, uvc, uvd]];
        assert faces == facesBefore + CellFaces(g, offset, ix, iy);
        assert uvs == uvsBefore + CellUvs(g, ix, iy);
      }
    }
  }
}
