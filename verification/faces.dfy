/**
 * core/Face3.go: a triangle of a mesh. A, B and C index the mesh's vertex
 * list; a face also carries a normal, optional per-vertex normals, a colour,
 * optional per-vertex colours and a material index. The value type Face is
 * what a Geometry stores; the Face3 object is the in-place API.
 */
module Faces {
  import opened Vectors
  import opened Colors

  datatype Face = Face(a: int, b: int, c: int, normal: Vec3, vertexNormals: seq<Vec3>,
                       color: Rgb, vertexColors: seq<Rgb>, materialIndex: int)
  {
    /** All three corners index a list of n vertices. */
    predicate InRange(n: int) {
      0 <= a < n && 0 <= b < n && 0 <= c < n
    }

    /** What Copy demands: its index-by-index loops need lists at least as long as the source's. */
    predicate CanCopyFrom(source: Face) {
      |source.vertexNormals| <= |vertexNormals| && |source.vertexColors| <= |vertexColors|
    }

    /** Copy: the source's corners, normal, colour and material; its lists over the prefix they cover. */
    function CopiedFrom(source: Face): (f: Face)
      requires CanCopyFrom(source)
      ensures f.a == source.a && f.b == source.b && f.c == source.c
      ensures f.normal == source.normal && f.color == source.color && f.materialIndex == source.materialIndex
      ensures |f.vertexNormals| == |vertexNormals| && |f.vertexColors| == |vertexColors|
      ensures forall i | 0 <= i < |vertexNormals| ::
        f.vertexNormals[i] == if i < |source.vertexNormals| then source.vertexNormals[i] else vertexNormals[i]
      ensures forall i | 0 <= i < |vertexColors| ::
        f.vertexColors[i] == if i < |source.vertexColors| then source.vertexColors[i] else vertexColors[i]
    {
      var n, k := |source.vertexNormals|, |source.vertexColors|;
      Face(source.a, source.b, source.c, source.normal, source.vertexNormals + vertexNormals[n..],
           source.color, source.vertexColors + vertexColors[k..], source.materialIndex)
    }
  }

  /** NewFace3: no per-vertex normals or colours yet. */
  function NewFace(a: int, b: int, c: int, normal: Vec3, color: Rgb, materialIndex: int): Face {
    Face(a, b, c, normal, [], color, [], materialIndex)
  }

  /** NewDefaultFace3: a zero normal, white, material 0. */
  function DefaultFace(a: int, b: int, c: int): Face {
    NewFace(a, b, c, Zero, White, 0)
  }

  /** Copying from a face whose lists have the receiver's lengths reproduces that face. */
  lemma CopyOfSameShape(target: Face, source: Face)
    requires |target.vertexNormals| == |source.vertexNormals|
    requires |target.vertexColors| == |source.vertexColors|
    ensures target.CopiedFrom(source) == source
  {
    var f := target.CopiedFrom(source);
    assert f.vertexNormals == source.vertexNormals;
    assert f.vertexColors == source.vertexColors;
  }

  /** Copying the same source a second time changes nothing. */
  lemma CopyIdempotent(target: Face, source: Face)
    requires target.CanCopyFrom(source)
    ensures target.CopiedFrom(source).CanCopyFrom(source)
    ensures target.CopiedFrom(source).CopiedFrom(source) == target.CopiedFrom(source)
  {
    var once := target.CopiedFrom(source);
    var twice := once.CopiedFrom(source);
    assert twice.vertexNormals == once.vertexNormals;
    assert twice.vertexColors == once.vertexColors;
  }

  /** One step of Copy's loops: overwriting slot i extends the copied prefix by one. */
  lemma OverwriteNext<T>(source: seq<T>, target: seq<T>, i: int)
    requires 0 <= i < |source| <= |target|
    ensures (source[..i] + target[i..])[i := source[i]] == source[..i + 1] + target[i + 1..]
  {
    var l, r := (source[..i] + target[i..])[i := source[i]], source[..i + 1] + target[i + 1..];
    assert |l| == |r|;
    forall k | 0 <= k < |l|
      ensures l[k] == r[k]
    {
      if k < i {
        assert l[k] == source[k] == r[k];
      } else if k > i {
        assert l[k] == target[k] == r[k];
      }
    }
  }

  class Face3 {
    var a: int
    var b: int
    var c: int
    var normal: Vec3
    var vertexNormals: seq<Vec3>
    var color: Rgb
    var vertexColors: seq<Rgb>
    var materialIndex: int

    function Value(): Face
      reads this
    {
      Face(a, b, c, normal, vertexNormals, color, vertexColors, materialIndex)
    }

    /** NewFace3. */
    constructor (a: int, b: int, c: int, normal: Vec3, color: Rgb, materialIndex: int)
      ensures Value() == NewFace(a, b, c, normal, color, materialIndex)
    {
      this.a, this.b, this.c := a, b, c;
      this.normal, this.vertexNormals := normal, [];
      this.color, this.vertexColors := color, [];
      this.materialIndex := materialIndex;
    }

    /** NewDefaultFace3. */
    constructor Default(a: int, b: int, c: int)
      ensures Value() == DefaultFace(a, b, c)
    {
      this.a, this.b, this.c := a, b, c;
      normal, vertexNormals := Zero, [];
      color, vertexColors := White, [];
      materialIndex := 0;
    }

    /** NewArraysFace3: the caller's lists are stored as given, with a zero normal and white. */
    constructor Arrays(a: int, b: int, c: int, normals: seq<Vec3>, colors: seq<Rgb>, materialIndex: int)
      ensures Value() == Face(a, b, c, Zero, normals, White, colors, materialIndex)
    {
      this.a, this.b, this.c := a, b, c;
      normal, vertexNormals := Zero, normals;
      color, vertexColors := White, colors;
      this.materialIndex := materialIndex;
    }

    /** A new face with this face's values. */
    method Clone() returns (f: Face3)
      ensures fresh(f) && f.Value() == Value()
    {
      f := new Face3.Arrays(a, b, c, vertexNormals, vertexColors, materialIndex);
      f.normal, f.color := normal, color;
    }

    method Copy(source: Face3)
      requires Value().CanCopyFrom(source.Value())
      modifies this
      ensures Value() == old(Value()).CopiedFrom(old(source.Value()))
    {
      var normals, colors := source.vertexNormals, source.vertexColors;
      ghost var copied := old(Value()).CopiedFrom(old(source.Value()));
      a, b, c := source.a, source.b, source.c;
      normal, color := source.normal, source.color;
      materialIndex := source.materialIndex;

      var il := |normals|;
      for i := 0 to il
        invariant Value() == copied.(vertexNormals := normals[..i] + old(vertexNormals)[i..], vertexColors := old(vertexColors))
      {
        OverwriteNext(normals, old(vertexNormals), i);
        vertexNormals := vertexNormals[i := normals[i]];
      }
      assert normals[..|normals|] == normals;

      il := |colors|;
      for i := 0 to il
        invariant Value() == copied.(vertexColors := colors[..i] + old(vertexColors)[i..])
      {
        OverwriteNext(colors, old(vertexColors), i);
        vertexColors := vertexColors[i := colors[i]];
      }
      assert colors[..|colors|] == colors;
    }
  }
}
