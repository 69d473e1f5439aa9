/**
 * core/Geometry.go: a mesh as a vertex list, a face list and per-face UV
 * channels, with lazily allocated bounding volumes and dirty flags.
 *
 * The pure part (the value type Mesh and the functions over it) states what
 * each operation computes; the Geometry object applies them in place.
 * Normalising a vector needs a square root and the normal matrix comes from
 * Matrix3.GetNormalMatrix, which is not part of this model: both arrive as
 * parameters (normalize, normalMatrixOf).
 */
module Geometries {
  import opened Wrappers
  import opened MatrixElements
  import opened Vectors
  import opened Colors
  import opened Boxes
  import opened Spheres
  import opened Faces

  /** The lists a Geometry owns. faceVertexUvs[k][f] is the UV triple of face f in channel k. */
  datatype Mesh = Mesh(vertices: seq<Vec3>, faces: seq<Face>, faceVertexUvs: seq<seq<seq<Vec2>>>) {

    /** Every face indexes existing vertices (the loops below index Vertices with A, B, C). */
    predicate FacesInRange() {
      forall i | 0 <= i < |faces| :: faces[i].InRange(|vertices|)
    }

    /** ApplyMatrix: vertices through the matrix, face and vertex normals through the normal matrix. */
    function Transformed(matrix: Mat4, normalMatrixOf: Mat4 -> Mat3, normalize: Vec3 -> Vec3): Mesh {
      var nm := Some(normalMatrixOf(matrix));
      Mesh(MapVertices(vertices, Some(matrix)),
           ReorientedFaces(faces, nm, normalize),
           faceVertexUvs)
    }

    /** ComputeFaceNormals: every face's normal is its normalised direction. */
    function WithFaceNormals(normalize: Vec3 -> Vec3): Mesh
      requires FacesInRange()
    {
      Mesh(vertices,
           seq(|faces|, i requires 0 <= i < |faces| =>
             faces[i].(normal := normalize(FaceDirection(vertices, faces[i])))),
           faceVertexUvs)
    }

    /** The normalised per-vertex accumulators of ComputeVertexNormals. */
    function VertexNormals(areaWeighted: bool, normalize: Vec3 -> Vec3): (ns: seq<Vec3>)
      requires FacesInRange()
      ensures |ns| == |vertices|
    {
      var sums := Accumulate(Zeros(|vertices|), vertices, faces, areaWeighted);
      seq(|sums|, k requires 0 <= k < |sums| => normalize(sums[k]))
    }

    /** ComputeVertexNormals: each face's first three vertex normals are those of its corners. */
    function WithVertexNormals(areaWeighted: bool, normalize: Vec3 -> Vec3): Mesh
      requires FacesInRange()
    {
      var ns := VertexNormals(areaWeighted, normalize);
      Mesh(vertices, CorneredFaces(faces, ns), faceVertexUvs)
    }
  }

  datatype UpdateFlags = UpdateFlags(vertices: bool, elements: bool, uvs: bool, normals: bool, colors: bool)

  /** A vertex as Merge copies it: through the matrix when there is one. */
  function Placed(v: Vec3, matrix: Option<Mat4>): Vec3 {
    if matrix.Some? then v.ApplyMatrix4(matrix.value) else v
  }

  function MapVertices(vs: seq<Vec3>, matrix: Option<Mat4>): (r: seq<Vec3>)
    ensures |r| == |vs|
  {
    seq(|vs|, k requires 0 <= k < |vs| => Placed(vs[k], matrix))
  }

  /** A face with its normal and its vertex normals through the normal matrix, then normalised. */
  function Reoriented(f: Face, normalMatrix: Option<Mat3>, normalize: Vec3 -> Vec3): Face {
    f.(normal := Oriented(f.normal, normalMatrix, normalize),
       vertexNormals := MapNormals(f.vertexNormals, normalMatrix, normalize))
  }

  /** Every face reoriented. */
  function ReorientedFaces(faces: seq<Face>, normalMatrix: Option<Mat3>, normalize: Vec3 -> Vec3): seq<Face> {
    seq(|faces|, i requires 0 <= i < |faces| => Reoriented(faces[i], normalMatrix, normalize))
  }

  /** A normal through the normal matrix, then normalised, when there is a normal matrix. */
  function Oriented(n: Vec3, normalMatrix: Option<Mat3>, normalize: Vec3 -> Vec3): Vec3 {
    if normalMatrix.Some? then normalize(n.ApplyMatrix3(normalMatrix.value)) else n
  }

  function MapNormals(ns: seq<Vec3>, normalMatrix: Option<Mat3>, normalize: Vec3 -> Vec3): (r: seq<Vec3>)
    ensures |r| == |ns|
  {
    seq(|ns|, k requires 0 <= k < |ns| => Oriented(ns[k], normalMatrix, normalize))
  }

  function Zeros(n: nat): (r: seq<Vec3>)
    ensures |r| == n
  {
    seq(n, _ => Zero)
  }

  /**
   * The direction ComputeFaceNormals normalises: (C - B) x (A - B). It is
   * orthogonal to both edges that meet at B.
   */
  function FaceDirection(vertices: seq<Vec3>, f: Face): (d: Vec3)
    requires f.InRange(|vertices|)
    ensures d.Dot(vertices[f.c].Sub(vertices[f.b])) == 0.0
    ensures d.Dot(vertices[f.a].Sub(vertices[f.b])) == 0.0
  {
    var cb, ab := vertices[f.c].Sub(vertices[f.b]), vertices[f.a].Sub(vertices[f.b]);
    CrossAntiCommutative(cb, ab);
    cb.Cross(ab)
  }

  /** A face whose corners A and B are the same point has no direction. */
  lemma DegenerateFaceHasNoDirection(vertices: seq<Vec3>, f: Face)
    requires f.InRange(|vertices|)
    requires vertices[f.a] == vertices[f.b]
    ensures FaceDirection(vertices, f) == Zero
  {
  }

  /** What face f adds at each of its corners: its direction when weighting by area, else its normal. */
  function Contribution(vertices: seq<Vec3>, f: Face, areaWeighted: bool): Vec3
    requires f.InRange(|vertices|)
  {
    if areaWeighted then FaceDirection(vertices, f) else f.normal
  }

  /** One face's step of the accumulation: d added at A, then at B, then at C. */
  function AddAtCorners(acc: seq<Vec3>, f: Face, d: Vec3): (r: seq<Vec3>)
    requires f.InRange(|acc|)
    ensures |r| == |acc|
  {
    var s1 := acc[f.a := acc[f.a].Add(d)];
    var s2 := s1[f.b := s1[f.b].Add(d)];
    s2[f.c := s2[f.c].Add(d)]
  }

  /** The accumulators after the faces, in order, have each added their contribution at their corners. */
  function Accumulate(acc: seq<Vec3>, vertices: seq<Vec3>, faces: seq<Face>, areaWeighted: bool): (r: seq<Vec3>)
    requires |acc| == |vertices|
    requires forall i | 0 <= i < |faces| :: faces[i].InRange(|vertices|)
    ensures |r| == |vertices|
    decreases |faces|
  {
    if |faces| == 0 then acc
    else
      var n := |faces| - 1;
      var f := faces[n];
      AddAtCorners(Accumulate(acc, vertices, faces[..n], areaWeighted), f, Contribution(vertices, f, areaWeighted))
  }

  /** d once for every corner of f that is vertex v. */
  function AtVertex(f: Face, v: int, d: Vec3): Vec3 {
    (if f.a == v then d else Zero).Add(if f.b == v then d else Zero).Add(if f.c == v then d else Zero)
  }

  /** Per vertex: the sum over the faces of their contribution, once per corner at that vertex. */
  function VertexSum(v: int, vertices: seq<Vec3>, faces: seq<Face>, areaWeighted: bool): Vec3
    requires forall i | 0 <= i < |faces| :: faces[i].InRange(|vertices|)
    decreases |faces|
  {
    if |faces| == 0 then Zero
    else
      var n := |faces| - 1;
      VertexSum(v, vertices, faces[..n], areaWeighted).Add(AtVertex(faces[n], v, Contribution(vertices, faces[n], areaWeighted)))
  }

  lemma AddAtCornersAt(acc: seq<Vec3>, f: Face, d: Vec3, v: int)
    requires f.InRange(|acc|) && 0 <= v < |acc|
    ensures AddAtCorners(acc, f, d)[v] == acc[v].Add(AtVertex(f, v, d))
  {
    var da, db, dc := if f.a == v then d else Zero, if f.b == v then d else Zero, if f.c == v then d else Zero;
    var s1 := acc[f.a := acc[f.a].Add(d)];
    var s2 := s1[f.b := s1[f.b].Add(d)];
    assert s1[v] == acc[v].Add(da);
    assert s2[v] == s1[v].Add(db);
    assert AddAtCorners(acc, f, d)[v] == s2[v].Add(dc);
    AddAssociative(acc[v], da, db, dc);
  }

  lemma AddAssociative(p: Vec3, a: Vec3, b: Vec3, c: Vec3)
    ensures p.Add(a).Add(b).Add(c) == p.Add(a.Add(b).Add(c))
  {
  }

  /**
   * The in-place accumulation over the face list gives every vertex the sum
   * of the contributions of the faces that have it as a corner.
   */
  lemma {:induction false} AccumulateIsSum(acc: seq<Vec3>, vertices: seq<Vec3>, faces: seq<Face>, areaWeighted: bool)
    requires |acc| == |vertices|
    requires forall i | 0 <= i < |faces| :: faces[i].InRange(|vertices|)
    ensures forall v | 0 <= v < |vertices| ::
      Accumulate(acc, vertices, faces, areaWeighted)[v] == acc[v].Add(VertexSum(v, vertices, faces, areaWeighted))
    decreases |faces|
  {
    if |faces| == 0 {
    } else {
      var n := |faces| - 1;
      var f := faces[n];
      var d := Contribution(vertices, f, areaWeighted);
      var prev := Accumulate(acc, vertices, faces[..n], areaWeighted);
      AccumulateIsSum(acc, vertices, faces[..n], areaWeighted);
      assert Accumulate(acc, vertices, faces, areaWeighted) == AddAtCorners(prev, f, d);
      forall v | 0 <= v < |vertices|
        ensures Accumulate(acc, vertices, faces, areaWeighted)[v] == acc[v].Add(VertexSum(v, vertices, faces, areaWeighted))
      {
        var before := VertexSum(v, vertices, faces[..n], areaWeighted);
        assert VertexSum(v, vertices, faces, areaWeighted) == before.Add(AtVertex(f, v, d));
        AddAtCornersAt(prev, f, d, v);
        assert prev[v] == acc[v].Add(before);
        AddAssociative2(acc[v], before, AtVertex(f, v, d));
      }
    }
  }

  lemma AddAssociative2(p: Vec3, a: Vec3, b: Vec3)
    ensures p.Add(a).Add(b) == p.Add(a.Add(b))
  {
  }

  /** Starting from zero accumulators, each vertex ends with exactly its sum. */
  lemma VertexNormalSums(m: Mesh, areaWeighted: bool)
    requires m.FacesInRange()
    ensures forall v | 0 <= v < |m.vertices| ::
      Accumulate(Zeros(|m.vertices|), m.vertices, m.faces, areaWeighted)[v] == VertexSum(v, m.vertices, m.faces, areaWeighted)
  {
    AccumulateIsSum(Zeros(|m.vertices|), m.vertices, m.faces, areaWeighted);
  }

  /**
   * The vertex-normal list ComputeVertexNormals intends for a face: the three
   * corner normals first, any further entries kept.
   */
  function CornerNormals(vertexNormals: seq<Vec3>, na: Vec3, nb: Vec3, nc: Vec3): (r: seq<Vec3>)
    ensures |r| >= 3 && r[0] == na && r[1] == nb && r[2] == nc
    ensures |r| == if |vertexNormals| < 3 then 3 else |vertexNormals|
    ensures forall k | 3 <= k < |vertexNormals| :: r[k] == vertexNormals[k]
  {
    [na, nb, nc] + if |vertexNormals| < 3 then [] else vertexNormals[3..]
  }

  /** A face whose first three vertex normals are the normals of its corners. */
  function WithCorners(f: Face, normals: seq<Vec3>): Face
    requires f.InRange(|normals|)
  {
    f.(vertexNormals := CornerNormals(f.vertexNormals, normals[f.a], normals[f.b], normals[f.c]))
  }

  /** Every face with its corners' normals. */
  function CorneredFaces(faces: seq<Face>, normals: seq<Vec3>): seq<Face>
    requires forall i | 0 <= i < |faces| :: faces[i].InRange(|normals|)
  {
    seq(|faces|, i requires 0 <= i < |faces| => WithCorners(faces[i], normals))
  }

  /**
   * The same step as the source writes it: the else branch assigns indices
   * 0..2 of a list shorter than three, which is out of range (None).
   */
  function CornerNormalsAsWritten(vertexNormals: seq<Vec3>, na: Vec3, nb: Vec3, nc: Vec3): Option<seq<Vec3>> {
    if |vertexNormals| == 3 then Some([na, nb, nc])
    else if |vertexNormals| < 3 then None
    else Some(vertexNormals[0 := na][1 := nb][2 := nc])
  }

  /** Wherever the source's step does not fail, it agrees with CornerNormals. */
  lemma CornerNormalsAgree(vertexNormals: seq<Vec3>, na: Vec3, nb: Vec3, nc: Vec3)
    requires CornerNormalsAsWritten(vertexNormals, na, nb, nc).Some?
    ensures CornerNormalsAsWritten(vertexNormals, na, nb, nc).value == CornerNormals(vertexNormals, na, nb, nc)
  {
    var w, c := CornerNormalsAsWritten(vertexNormals, na, nb, nc).value, CornerNormals(vertexNormals, na, nb, nc);
    assert |w| == |c|;
    forall k | 0 <= k < |w|
      ensures w[k] == c[k]
    {
    }
  }

  /** A face made by NewDefaultFace3 has no vertex normals, so the source's step fails on it. */
  lemma CornerNormalsAsWrittenFailsOnDefaultFace(a: int, b: int, c: int, na: Vec3, nb: Vec3, nc: Vec3)
    ensures CornerNormalsAsWritten(DefaultFace(a, b, c).vertexNormals, na, nb, nc) == None
    ensures |CornerNormals(DefaultFace(a, b, c).vertexNormals, na, nb, nc)| == 3
  {
  }

  /** The face Merge appends for a face of the other geometry. */
  function MergedFace(f: Face, vertexOffset: int, materialIndexOffset: int,
                      normalMatrix: Option<Mat3>, normalize: Vec3 -> Vec3): Face {
    Face(f.a + vertexOffset, f.b + vertexOffset, f.c + vertexOffset,
         Oriented(f.normal, normalMatrix, normalize),
         MapNormals(f.vertexNormals, normalMatrix, normalize),
         f.color, f.vertexColors, f.materialIndex + materialIndexOffset)
  }

  function NormalMatrixFor(matrix: Option<Mat4>, normalMatrixOf: Mat4 -> Mat3): Option<Mat3> {
    if matrix.Some? then Some(normalMatrixOf(matrix.value)) else None
  }

  /**
   * Merge as intended: the other geometry's vertices (transformed), its faces
   * with corners shifted by the vertex count taken before the merge and
   * material indices shifted by materialIndexOffset, and its UV channel 0.
   */
  function Merged(m: Mesh, other: Mesh, matrix: Option<Mat4>, normalMatrixOf: Mat4 -> Mat3,
                  materialIndexOffset: int, normalize: Vec3 -> Vec3): (r: Mesh)
    requires |m.faceVertexUvs| > 0 && |other.faceVertexUvs| > 0
    ensures |r.vertices| == |m.vertices| + |other.vertices|
    ensures |r.faces| == |m.faces| + |other.faces|
    ensures r.vertices[..|m.vertices|] == m.vertices && r.faces[..|m.faces|] == m.faces
    ensures forall i | 0 <= i < |other.faces| ::
      var f, g := r.faces[|m.faces| + i], other.faces[i];
      f.a == g.a + |m.vertices| && f.b == g.b + |m.vertices| && f.c == g.c + |m.vertices| &&
      f.materialIndex == g.materialIndex + materialIndexOffset &&
      f.color == g.color && f.vertexColors == g.vertexColors
    ensures forall i | 0 <= i < |other.faces| ::
      var f, g := r.faces[|m.faces| + i], other.faces[i];
      f.normal == Oriented(g.normal, NormalMatrixFor(matrix, normalMatrixOf), normalize) &&
      f.vertexNormals == MapNormals(g.vertexNormals, NormalMatrixFor(matrix, normalMatrixOf), normalize)
    ensures matrix.None? ==> forall i | 0 <= i < |other.faces| ::
      r.faces[|m.faces| + i].normal == other.faces[i].normal &&
      r.faces[|m.faces| + i].vertexNormals == other.faces[i].vertexNormals
    ensures forall k | 0 <= k < |other.vertices| ::
      r.vertices[|m.vertices| + k] ==
        (if matrix.Some? then other.vertices[k].ApplyMatrix4(matrix.value) else other.vertices[k])
    ensures matrix.None? ==> r.vertices[|m.vertices|..] == other.vertices
    ensures |r.faceVertexUvs| == |m.faceVertexUvs|
    ensures r.faceVertexUvs[0] == m.faceVertexUvs[0] + other.faceVertexUvs[0]
    ensures r.faceVertexUvs[1..] == m.faceVertexUvs[1..]
  {
    var nm := NormalMatrixFor(matrix, normalMatrixOf);
    var r := Mesh(m.vertices + MapVertices(other.vertices, matrix),
                  m.faces + seq(|other.faces|, i requires 0 <= i < |other.faces| =>
                    MergedFace(other.faces[i], |m.vertices|, materialIndexOffset, nm, normalize)),
                  m.faceVertexUvs[0 := m.faceVertexUvs[0] + other.faceVertexUvs[0]]);
    assert matrix.None? ==> r.vertices[|m.vertices|..] == other.vertices;
    r
  }

  /** Merging two meshes whose faces index their own vertices gives a mesh whose faces index its vertices. */
  lemma MergeKeepsFacesInRange(m: Mesh, other: Mesh, matrix: Option<Mat4>, normalMatrixOf: Mat4 -> Mat3,
                               materialIndexOffset: int, normalize: Vec3 -> Vec3)
    requires |m.faceVertexUvs| > 0 && |other.faceVertexUvs| > 0
    requires m.FacesInRange() && other.FacesInRange()
    ensures Merged(m, other, matrix, normalMatrixOf, materialIndexOffset, normalize).FacesInRange()
  {
    var r := Merged(m, other, matrix, normalMatrixOf, materialIndexOffset, normalize);
    forall i | 0 <= i < |r.faces|
      ensures r.faces[i].InRange(|r.vertices|)
    {
      if i < |m.faces| {
        assert r.faces[i] == r.faces[..|m.faces|][i] == m.faces[i];
      } else {
        assert other.faces[i - |m.faces|].InRange(|other.vertices|);
      }
    }
  }

  /**
   * Merge as the source writes it: the vertices, faces and UVs are appended
   * to local copies of the lists and never stored back, so the receiver's
   * lists are what they were.
   */
  function MergedAsWritten(m: Mesh, other: Mesh, matrix: Option<Mat4>, normalMatrixOf: Mat4 -> Mat3,
                           materialIndexOffset: int, normalize: Vec3 -> Vec3): Mesh
    requires |m.faceVertexUvs| > 0 && |other.faceVertexUvs| > 0
  {
    var vertices1 := m.vertices + MapVertices(other.vertices, matrix);
    var faces1 := m.faces + seq(|other.faces|, i requires 0 <= i < |other.faces| =>
      MergedFace(other.faces[i], |m.vertices|, materialIndexOffset, NormalMatrixFor(matrix, normalMatrixOf), normalize));
    var uvs1 := m.faceVertexUvs[0] + other.faceVertexUvs[0];
    m
  }

  /** Merging a geometry with at least one vertex: the source's version loses it. */
  lemma MergeAsWrittenLosesVertices(m: Mesh, other: Mesh, matrix: Option<Mat4>, normalMatrixOf: Mat4 -> Mat3,
                                    materialIndexOffset: int, normalize: Vec3 -> Vec3)
    requires |m.faceVertexUvs| > 0 && |other.faceVertexUvs| > 0
    requires |other.vertices| > 0
    ensures |MergedAsWritten(m, other, matrix, normalMatrixOf, materialIndexOffset, normalize).vertices|
         < |Merged(m, other, matrix, normalMatrixOf, materialIndexOffset, normalize).vertices|
  {
  }

  /**
   * The source's list copy as written: make(len(src)) already holds len(src)
   * nil entries, and append adds the copies after them.
   */
  function MakeThenAppend<T>(src: seq<T>): (r: seq<Option<T>>)
    ensures |r| == 2 * |src|
  {
    seq(|src|, _ => None) + seq(|src|, k requires 0 <= k < |src| => Some(src[k]))
  }

  /** A one-element list comes out with a nil hole in front of its copy. */
  lemma MakeThenAppendLeavesHoles<T>(x: T)
    ensures MakeThenAppend([x]) == [None, Some(x)]
  {
  }

  /**
   * Copy's UV-channel loop as written: the receiver's channel list starts
   * as make(..., 0), and channel i of the source is copied by indexing entry
   * i of that list, which the loop never grows. None stands for the
   * index-out-of-range panic.
   */
  function CopyChannelsAsWritten(source: seq<seq<seq<Vec2>>>, i: nat, copied: seq<seq<seq<Vec2>>>): Option<seq<seq<seq<Vec2>>>>
    requires i <= |source|
    decreases |source| - i
  {
    if i == |source| then Some(copied)
    else if i >= |copied| then None
    else CopyChannelsAsWritten(source, i + 1, copied[i := copied[i] + source[i]])
  }

  /** Copying a geometry with at least one UV channel panics at the first channel. */
  lemma CopyChannelsAsWrittenPanics(source: seq<seq<seq<Vec2>>>)
    requires |source| > 0
    ensures CopyChannelsAsWritten(source, 0, []) == None
  {
  }

  /** Geometry.Normalize's scale factor: 1 for a zero radius, else the reciprocal of the radius. */
  function ScaleFactor(radius: real): (s: real)
    ensures radius == 0.0 ==> s == 1.0
    ensures radius != 0.0 ==> s * radius == 1.0
  {
    if radius == 0.0 then 1.0 else 1.0 / radius
  }

  /**
   * The matrix Normalize builds (elements column-major): scale by s about the
   * origin after moving center to the origin.
   */
  function NormalizeMatrix(center: Vec3, s: real): (e: Mat4)
    ensures forall p: Vec3 {:trigger p.ApplyMatrix4(e)} :: p.ApplyMatrix4(e) == p.Sub(center).Scale(s)
  {
    [s, 0.0, 0.0, 0.0,
     0.0, s, 0.0, 0.0,
     0.0, 0.0, s, 0.0,
     -s * center.x, -s * center.y, -s * center.z, 1.0]
  }

  /** Scaling by s multiplies the squared length by s squared. */
  lemma ScaledLengthSq(d: Vec3, s: real)
    ensures d.Scale(s).LengthSq() == (s * s) * d.LengthSq()
  {
    assert (d.x * s) * (d.x * s) == (s * s) * (d.x * d.x);
    assert (d.y * s) * (d.y * s) == (s * s) * (d.y * d.y);
    assert (d.z * s) * (d.z * s) == (s * s) * (d.z * d.z);
  }

  lemma ScaledBound(s: real, a: real, r: real)
    requires a <= r * r && s * r == 1.0
    ensures (s * s) * a <= 1.0
  {
    assert s * s >= 0.0 by {
      if s < 0.0 {
        assert (-s) * (-s) > 0.0;
      }
    }
    assert (s * s) * a <= (s * s) * (r * r);
    assert (s * s) * (r * r) == (s * r) * (s * r);
  }

  /** A point of a ball of nonzero radius lands in the unit sphere under Normalize's matrix for that ball. */
  lemma NormalizedPointWithinUnitSphere(p: Vec3, b: Ball)
    requires b.radius != 0.0 && b.ContainsPoint(p)
    ensures p.ApplyMatrix4(NormalizeMatrix(b.center, ScaleFactor(b.radius))).LengthSq() <= 1.0
  {
    var c, r := b.center, b.radius;
    var s := ScaleFactor(r);
    var d := p.Sub(c);
    assert p.ApplyMatrix4(NormalizeMatrix(c, s)) == d.Scale(s);
    ScaledLengthSq(d, s);
    ScaledBound(s, d.LengthSq(), r);
  }

  /**
   * With an exact square root and a nonzero bounding radius, Normalize moves
   * every vertex into the unit sphere about the origin.
   */
  lemma NormalizedWithinUnitSphere(vertices: seq<Vec3>, sqrt: real -> real)
    requires |vertices| > 0 && IsSqrt(sqrt)
    requires Fitted(vertices, None, sqrt).radius != 0.0
    ensures var b := Fitted(vertices, None, sqrt);
      forall i | 0 <= i < |vertices| ::
        vertices[i].ApplyMatrix4(NormalizeMatrix(b.center, ScaleFactor(b.radius))).LengthSq() <= 1.0
  {
    var b := Fitted(vertices, None, sqrt);
    FittedContainsAll(vertices, None, sqrt);
    forall i | 0 <= i < |vertices|
      ensures vertices[i].ApplyMatrix4(NormalizeMatrix(b.center, ScaleFactor(b.radius))).LengthSq() <= 1.0
    {
      NormalizedPointWithinUnitSphere(vertices[i], b);
    }
  }

  class Geometry {
    var vertices: seq<Vec3>
    var colors: seq<Rgb>
    var faces: seq<Face>
    var faceVertexUvs: seq<seq<seq<Vec2>>>
    var boundingBox: Box3?
    var boundingSphere: Sphere?
    var verticesNeedUpdate: bool
    var elementsNeedUpdate: bool
    var uvsNeedUpdate: bool
    var normalsNeedUpdate: bool
    var colorsNeedUpdate: bool

    /** The vertex, face and UV lists. */
    function Value(): Mesh
      reads this
    {
      Mesh(vertices, faces, faceVertexUvs)
    }

    function Flags(): UpdateFlags
      reads this
    {
      UpdateFlags(verticesNeedUpdate, elementsNeedUpdate, uvsNeedUpdate, normalsNeedUpdate, colorsNeedUpdate)
    }

    /** NewGeometry: empty lists, UV channel 0 present and empty, no cached bounds, no dirty flag. */
    constructor ()
      ensures Value() == Mesh([], [], [[]]) && colors == []
      ensures boundingBox == null && boundingSphere == null
      ensures Flags() == UpdateFlags(false, false, false, false, false)
    {
      vertices, colors, faces, faceVertexUvs := [], [], [], [[]];
      boundingBox, boundingSphere := null, null;
      verticesNeedUpdate, elementsNeedUpdate, uvsNeedUpdate := false, false, false;
      normalsNeedUpdate, colorsNeedUpdate := false, false;
    }

    /** ComputeBoundingBox: the box is allocated once and refitted to the vertices. */
    method ComputeBoundingBox()
      modifies this, boundingBox
      ensures Value() == old(Value()) && colors == old(colors) && Flags() == old(Flags())
      ensures boundingBox != null && boundingBox.extent == FromPoints(vertices)
      ensures old(boundingBox) != null ==> boundingBox == old(boundingBox)
      ensures old(boundingBox) == null ==> fresh(boundingBox)
      ensures forall i | 0 <= i < |vertices| :: boundingBox.extent.ContainsPoint(vertices[i])
      ensures boundingSphere == old(boundingSphere)
    {
      if boundingBox == null {
        boundingBox := new Box3.Default();
      }
      boundingBox.SetFromPoints(vertices);
      if |vertices| > 0 {
        FromPointsBounds(vertices);
      }
    }

    /** ComputeBoundingSphere: the sphere is allocated once and refitted to the vertices. */
    method ComputeBoundingSphere(sqrt: real -> real)
      requires |vertices| > 0
      modifies this, boundingSphere
      ensures Value() == old(Value()) && colors == old(colors) && Flags() == old(Flags())
      ensures boundingSphere != null && boundingSphere.Value() == Fitted(vertices, None, sqrt)
      ensures old(boundingSphere) != null ==> boundingSphere == old(boundingSphere)
      ensures old(boundingSphere) == null ==> fresh(boundingSphere)
      ensures IsSqrt(sqrt) ==> forall i | 0 <= i < |vertices| :: boundingSphere.Value().ContainsPoint(vertices[i])
      ensures boundingBox == old(boundingBox)
    {
      if boundingSphere == null {
        boundingSphere := new Sphere.Default();
      }
      boundingSphere.SetFromPoints(vertices, None, sqrt);
      if IsSqrt(sqrt) {
        FittedContainsAll(vertices, None, sqrt);
      }
    }

    /**
     * ApplyMatrix: transforms vertices and normals; refits only the bounding
     * volumes that are already allocated; marks vertices and normals dirty.
     */
    method ApplyMatrix(matrix: Mat4, normalMatrixOf: Mat4 -> Mat3, normalize: Vec3 -> Vec3, sqrt: real -> real)
      requires boundingSphere != null ==> |vertices| > 0
      modifies this, boundingBox, boundingSphere
      ensures Value() == old(Value()).Transformed(matrix, normalMatrixOf, normalize)
      ensures boundingBox == old(boundingBox) && boundingSphere == old(boundingSphere)
      ensures boundingBox != null ==> boundingBox.extent == FromPoints(vertices)
      ensures boundingSphere != null ==> boundingSphere.Value() == Fitted(vertices, None, sqrt)
      ensures Flags() == old(Flags()).(vertices := true, normals := true)
      ensures colors == old(colors)
    {
      var normalMatrix := normalMatrixOf(matrix);

      var vs := TransformVertices(vertices, matrix);
      var fs := TransformFaces(faces, normalMatrix, normalize);
      vertices, faces := vs, fs;

      if boundingBox != null {
        ComputeBoundingBox();
      }
      if boundingSphere != null {
        ComputeBoundingSphere(sqrt);
      }
      verticesNeedUpdate := true;
      normalsNeedUpdate := true;
    }

    /** ComputeFaceNormals: every face normal becomes its normalised direction. */
    method ComputeFaceNormals(normalize: Vec3 -> Vec3)
      requires Value().FacesInRange()
      modifies this
      ensures Value() == old(Value()).WithFaceNormals(normalize)
      ensures colors == old(colors) && Flags() == old(Flags())
      ensures boundingBox == old(boundingBox) && boundingSphere == old(boundingSphere)
    {
      var fs := faces;
      for i := 0 to |fs|
        invariant |fs| == |faces|
        invariant forall k | 0 <= k < |fs| ::
          fs[k] == if k < i then faces[k].(normal := normalize(FaceDirection(vertices, faces[k]))) else faces[k]
      {
        var face := fs[i];
        var vA, vB, vC := vertices[face.a], vertices[face.b], vertices[face.c];
        var cb := vC.Sub(vB);
        var ab := vA.Sub(vB);
        cb := cb.Cross(ab);
        fs := fs[i := face.(normal := normalize(cb))];
      }
      assert fs == Value().WithFaceNormals(normalize).faces;
      faces := fs;
    }

    /**
     * ComputeVertexNormals: accumulate each face's contribution at its three
     * corners, normalise every accumulator, then give each face its corners'
     * normals.
     */
    method ComputeVertexNormals(areaWeighted: bool, normalize: Vec3 -> Vec3)
      requires Value().FacesInRange()
      modifies this
      ensures Value() == old(Value()).WithVertexNormals(areaWeighted, normalize)
      ensures colors == old(colors) && Flags() == old(Flags())
      ensures boundingBox == old(boundingBox) && boundingSphere == old(boundingSphere)
    {
      var sums := AccumulateNormals(vertices, faces, areaWeighted);
      var normals := NormalizeAll(sums, normalize);
      assert normals == Value().VertexNormals(areaWeighted, normalize);

      var fs := AssignCornerNormals(faces, normals);
      faces := fs;
    }

    /**
     * Normalize: fit the bounding sphere, then scale by the reciprocal of its
     * radius (1 for a zero radius) about its center, which moves to the origin.
     */
    method Normalize(normalMatrixOf: Mat4 -> Mat3, normalize: Vec3 -> Vec3, sqrt: real -> real)
      requires |vertices| > 0
      modifies this, boundingBox, boundingSphere
      ensures var b := Fitted(old(vertices), None, sqrt);
        Value() == old(Value()).Transformed(NormalizeMatrix(b.center, ScaleFactor(b.radius)), normalMatrixOf, normalize)
      ensures boundingSphere != null && boundingSphere.Value() == Fitted(vertices, None, sqrt)
      ensures Flags() == old(Flags()).(vertices := true, normals := true)
    {
      ComputeBoundingSphere(sqrt);
      var center := boundingSphere.center;
      var radius := boundingSphere.radius;
      var s := 1.0;
      if radius != 0.0 {
        s := 1.0 / radius;
      }
      var matrix := NormalizeMatrix(center, s);
      ApplyMatrix(matrix, normalMatrixOf, normalize, sqrt);
    }

    /**
     * Merge as intended: appends the other geometry's vertices (through matrix
     * when given), its faces re-indexed past the vertices already present and
     * its UV channel 0, and stores the grown lists back into this geometry.
     */
    method Merge(geometry: Geometry, matrix: Option<Mat4>, normalMatrixOf: Mat4 -> Mat3,
                 materialIndexOffset: int, normalize: Vec3 -> Vec3)
      requires |faceVertexUvs| > 0 && |geometry.faceVertexUvs| > 0
      modifies this
      ensures Value() == Merged(old(Value()), old(geometry.Value()), matrix, normalMatrixOf, materialIndexOffset, normalize)
      ensures geometry != this ==> geometry.Value() == old(geometry.Value())
      ensures colors == old(colors) && Flags() == old(Flags())
      ensures boundingBox == old(boundingBox) && boundingSphere == old(boundingSphere)
    {
      var normalMatrix: Option<Mat3> := None;
      var vertexOffset := |vertices|;
      var vertices1, vertices2 := vertices, geometry.vertices;
      var faces1, faces2 := faces, geometry.faces;
      var uvs1, uvs2 := faceVertexUvs[0], geometry.faceVertexUvs[0];

      if matrix.Some? {
        normalMatrix := Some(normalMatrixOf(matrix.value));
      }

      vertices1 := AppendVertices(vertices1, vertices2, matrix);
      faces1 := AppendFaces(faces1, faces2, vertexOffset, materialIndexOffset, normalMatrix, normalize);
      uvs1 := AppendUvs(uvs1, uvs2);

      // The source stops here, leaving the grown lists in local variables.
      vertices, faces := vertices1, faces1;
      faceVertexUvs := faceVertexUvs[0 := uvs1];
    }

    /**
     * Copy as intended: this geometry's lists become copies of the source's
     * (vertex and face entries are shared, UV pairs are copied).
     */
    method Copy(source: Geometry)
      modifies this
      ensures Value() == old(source.Value())
      ensures colors == old(colors) && Flags() == old(Flags())
      ensures boundingBox == old(boundingBox) && boundingSphere == old(boundingSphere)
    {
      var sourceVertices, sourceFaces, sourceUvs := source.vertices, source.faces, source.faceVertexUvs;
      var vs: seq<Vec3> := [];
      for i := 0 to |sourceVertices|
        invariant vs == sourceVertices[..i]
      {
        vs := vs + [sourceVertices[i]];
        assert sourceVertices[..i + 1] == sourceVertices[..i] + [sourceVertices[i]];
      }
      assert sourceVertices[..|sourceVertices|] == sourceVertices;

      var fs: seq<Face> := [];
      for i := 0 to |sourceFaces|
        invariant fs == sourceFaces[..i]
      {
        fs := fs + [sourceFaces[i]];
        assert sourceFaces[..i + 1] == sourceFaces[..i] + [sourceFaces[i]];
      }
      assert sourceFaces[..|sourceFaces|] == sourceFaces;

      var channels: seq<seq<seq<Vec2>>> := [];
      for i := 0 to |sourceUvs|
        modifies {}
        invariant channels == sourceUvs[..i]
      {
        var channel: seq<seq<Vec2>> := [];
        for j := 0 to |sourceUvs[i]|
          modifies {}
          invariant channel == sourceUvs[i][..j]
        {
          var uvsCopy := CopyUvs(sourceUvs[i][j]);
          channel := channel + [uvsCopy];
          assert sourceUvs[i][..j + 1] == sourceUvs[i][..j] + [sourceUvs[i][j]];
        }
        assert sourceUvs[i][..|sourceUvs[i]|] == sourceUvs[i];
        channels := channels + [channel];
        assert sourceUvs[..i + 1] == sourceUvs[..i] + [sourceUvs[i]];
      }
      assert sourceUvs[..|sourceUvs|] == sourceUvs;

      vertices, faces, faceVertexUvs := vs, fs, channels;
    }
  }

  /** ComputeVertexNormals' first loop: each face adds its contribution at A, B and C. */
  method AccumulateNormals(vertices: seq<Vec3>, faces: seq<Face>, areaWeighted: bool) returns (sums: seq<Vec3>)
    requires forall i | 0 <= i < |faces| :: faces[i].InRange(|vertices|)
    ensures sums == Accumulate(Zeros(|vertices|), vertices, faces, areaWeighted)
  {
    sums := Zeros(|vertices|);
    for i := 0 to |faces|
      invariant sums == Accumulate(Zeros(|vertices|), vertices, faces[..i], areaWeighted)
    {
      var face := faces[i];
      var d: Vec3;
      if areaWeighted {
        var cb := vertices[face.c].Sub(vertices[face.b]);
        var ab := vertices[face.a].Sub(vertices[face.b]);
        d := cb.Cross(ab);
      } else {
        d := face.normal;
      }
      assert d == Contribution(vertices, face, areaWeighted);
      sums := sums[face.a := sums[face.a].Add(d)];
      sums := sums[face.b := sums[face.b].Add(d)];
      sums := sums[face.c := sums[face.c].Add(d)];
      assert faces[..i + 1][..i] == faces[..i];
    }
    assert faces[..|faces|] == faces;
  }

  /** ComputeVertexNormals' second loop: every accumulator normalised in place. */
  method NormalizeAll(sums: seq<Vec3>, normalize: Vec3 -> Vec3) returns (normals: seq<Vec3>)
    ensures normals == seq(|sums|, k requires 0 <= k < |sums| => normalize(sums[k]))
  {
    normals := sums;
    for v := 0 to |normals|
      invariant |normals| == |sums|
      invariant forall k | 0 <= k < |normals| :: normals[k] == if k < v then normalize(sums[k]) else sums[k]
    {
      normals := normals[v := normalize(normals[v])];
    }
  }

  /** Merge's vertex loop: a copy of each vertex, through the matrix when given, appended. */
  method AppendVertices(vertices1: seq<Vec3>, vertices2: seq<Vec3>, matrix: Option<Mat4>) returns (r: seq<Vec3>)
    ensures r == vertices1 + MapVertices(vertices2, matrix)
  {
    r := vertices1;
    for i := 0 to |vertices2|
      invariant r == vertices1 + MapVertices(vertices2[..i], matrix)
    {
      var vertexCopy := vertices2[i];
      if matrix.Some? {
        vertexCopy := vertexCopy.ApplyMatrix4(matrix.value);
      }
      r := r + [vertexCopy];
      assert MapVertices(vertices2[..i + 1], matrix) == MapVertices(vertices2[..i], matrix) + [vertexCopy];
    }
    assert vertices2[..|vertices2|] == vertices2;
  }

  /** Merge's face loop: a re-indexed copy of each face appended. */
  method AppendFaces(faces1: seq<Face>, faces2: seq<Face>, vertexOffset: int, materialIndexOffset: int,
                     normalMatrix: Option<Mat3>, normalize: Vec3 -> Vec3) returns (r: seq<Face>)
    ensures r == faces1 + seq(|faces2|, i requires 0 <= i < |faces2| =>
      MergedFace(faces2[i], vertexOffset, materialIndexOffset, normalMatrix, normalize))
  {
    ghost var appended := seq(|faces2|, i requires 0 <= i < |faces2| =>
      MergedFace(faces2[i], vertexOffset, materialIndexOffset, normalMatrix, normalize));
    r := faces1;
    for i := 0 to |faces2|
      invariant r == faces1 + appended[..i]
    {
      var face := faces2[i];
      var faceCopy := DefaultFace(face.a + vertexOffset, face.b + vertexOffset, face.c + vertexOffset);
      faceCopy := faceCopy.(normal := Oriented(face.normal, normalMatrix, normalize));
      var normals := TransformNormals(face.vertexNormals, normalMatrix, normalize);
      faceCopy := faceCopy.(vertexNormals := normals);
      faceCopy := faceCopy.(color := face.color, vertexColors := face.vertexColors);
      faceCopy := faceCopy.(materialIndex := face.materialIndex + materialIndexOffset);
      r := r + [faceCopy];
      assert appended[..i + 1] == appended[..i] + [faceCopy];
    }
    assert appended[..|faces2|] == appended;
  }

  /** Merge's UV loop: a copy of each UV list of channel 0 appended. */
  method AppendUvs(uvs1: seq<seq<Vec2>>, uvs2: seq<seq<Vec2>>) returns (r: seq<seq<Vec2>>)
    ensures r == uvs1 + uvs2
  {
    r := uvs1;
    for i := 0 to |uvs2|
      invariant r == uvs1 + uvs2[..i]
    {
      var uvCopy := CopyUvs(uvs2[i]);
      r := r + [uvCopy];
      assert uvs2[..i + 1] == uvs2[..i] + [uvs2[i]];
    }
    assert uvs2[..|uvs2|] == uvs2;
  }

  /** ComputeVertexNormals' last loop: each face takes its corners' normals, in place. */
  method AssignCornerNormals(faces: seq<Face>, normals: seq<Vec3>) returns (fs: seq<Face>)
    requires forall i | 0 <= i < |faces| :: faces[i].InRange(|normals|)
    ensures fs == CorneredFaces(faces, normals)
  {
    fs := faces;
    for i := 0 to |fs|
      invariant |fs| == |faces|
      invariant forall k | 0 <= k < |fs| :: fs[k] == if k < i then WithCorners(faces[k], normals) else faces[k]
    {
      var face := fs[i];
      fs := fs[i := face.(vertexNormals := CornerNormals(face.vertexNormals, normals[face.a], normals[face.b], normals[face.c]))];
    }
  }

  /** ApplyMatrix's vertex loop: every vertex through the matrix, in place. */
  method TransformVertices(vertices: seq<Vec3>, matrix: Mat4) returns (vs: seq<Vec3>)
    ensures vs == MapVertices(vertices, Some(matrix))
  {
    vs := vertices;
    for i := 0 to |vs|
      invariant |vs| == |vertices|
      invariant forall k | 0 <= k < |vs| :: vs[k] == if k < i then Placed(vertices[k], Some(matrix)) else vertices[k]
    {
      vs := vs[i := vs[i].ApplyMatrix4(matrix)];
    }
  }

  /** ApplyMatrix's face loop: every face normal and vertex normal through the normal matrix, then normalised, in place. */
  method TransformFaces(faces: seq<Face>, normalMatrix: Mat3, normalize: Vec3 -> Vec3) returns (fs: seq<Face>)
    ensures fs == ReorientedFaces(faces, Some(normalMatrix), normalize)
  {
    fs := faces;
    for i := 0 to |fs|
      invariant |fs| == |faces|
      invariant forall k | 0 <= k < |fs| :: fs[k] == if k < i then Reoriented(faces[k], Some(normalMatrix), normalize) else faces[k]
    {
      var face := fs[i];
      var normals := TransformNormals(face.vertexNormals, Some(normalMatrix), normalize);
      fs := fs[i := face.(normal := normalize(face.normal.ApplyMatrix3(normalMatrix)), vertexNormals := normals)];
    }
  }

  /** The normal loops of ApplyMatrix and Merge: each normal through the normal matrix, then normalised. */
  method TransformNormals(normals: seq<Vec3>, normalMatrix: Option<Mat3>, normalize: Vec3 -> Vec3)
    returns (r: seq<Vec3>)
    ensures r == MapNormals(normals, normalMatrix, normalize)
  {
    r := [];
    for i := 0 to |normals|
      invariant r == MapNormals(normals[..i], normalMatrix, normalize)
    {
      var normal := normals[i];
      if normalMatrix.Some? {
        normal := normalize(normal.ApplyMatrix3(normalMatrix.value));
      }
      r := r + [normal];
      assert MapNormals(normals[..i + 1], normalMatrix, normalize) == MapNormals(normals[..i], normalMatrix, normalize) + [normal];
    }
    assert normals[..|normals|] == normals;
  }

  /** A UV list copied entry by entry: the copy equals the original. */
  method CopyUvs(uvs: seq<Vec2>) returns (r: seq<Vec2>)
    ensures r == uvs
  {
    r := [];
    for i := 0 to |uvs|
      invariant r == uvs[..i]
    {
      r := r + [uvs[i]];
      assert uvs[..i + 1] == uvs[..i] + [uvs[i]];
    }
    assert uvs[..|uvs|] == uvs;
  }
}
