/**
 * The unit-cube builder `create_cube_mesh` of the normal-mapping demo: six faces,
 * each pushed as four vertices (lower-left, lower-right, upper-right, upper-left,
 * counter-clockwise seen from outside) and two triangles.
 */
module Cube {
  import opened Geometry

  /** The UV corners every face uses, in vertex order. */
  const FaceUVs: seq<Vec2> := [Vec2(0.0, 0.0), Vec2(1.0, 0.0), Vec2(1.0, 1.0), Vec2(0.0, 1.0)]
  const White: Vec4 := Vec4(1.0, 1.0, 1.0, 1.0)

  /** The literal data of one face block: its normal, its tangent and its four corner positions. */
  datatype FaceSpec = FaceSpec(normal: Vec3, tangent: Vec4, p0: Vec3, p1: Vec3, p2: Vec3, p3: Vec3)

  const Front := FaceSpec(Vec3(0.0, 0.0, 1.0), Vec4(1.0, 0.0, 0.0, 1.0),
    Vec3(-0.5, -0.5, 0.5), Vec3(0.5, -0.5, 0.5), Vec3(0.5, 0.5, 0.5), Vec3(-0.5, 0.5, 0.5))
  const Back := FaceSpec(Vec3(0.0, 0.0, -1.0), Vec4(-1.0, 0.0, 0.0, 1.0),
    Vec3(0.5, -0.5, -0.5), Vec3(-0.5, -0.5, -0.5), Vec3(-0.5, 0.5, -0.5), Vec3(0.5, 0.5, -0.5))
  const Right := FaceSpec(Vec3(1.0, 0.0, 0.0), Vec4(0.0, 0.0, -1.0, 1.0),
    Vec3(0.5, -0.5, 0.5), Vec3(0.5, -0.5, -0.5), Vec3(0.5, 0.5, -0.5), Vec3(0.5, 0.5, 0.5))
  const Left := FaceSpec(Vec3(-1.0, 0.0, 0.0), Vec4(0.0, 0.0, 1.0, 1.0),
    Vec3(-0.5, -0.5, -0.5), Vec3(-0.5, -0.5, 0.5), Vec3(-0.5, 0.5, 0.5), Vec3(-0.5, 0.5, -0.5))
  const Top := FaceSpec(Vec3(0.0, 1.0, 0.0), Vec4(1.0, 0.0, 0.0, 1.0),
    Vec3(-0.5, 0.5, 0.5), Vec3(0.5, 0.5, 0.5), Vec3(0.5, 0.5, -0.5), Vec3(-0.5, 0.5, -0.5))
  const Bottom := FaceSpec(Vec3(0.0, -1.0, 0.0), Vec4(1.0, 0.0, 0.0, 1.0),
    Vec3(-0.5, -0.5, -0.5), Vec3(0.5, -0.5, -0.5), Vec3(0.5, -0.5, 0.5), Vec3(-0.5, -0.5, 0.5))

  /** The six blocks in the order the builder pushes them. */
  const Faces: seq<FaceSpec> := [Front, Back, Right, Left, Top, Bottom]

  /** The four vertices one block pushes. */
  function Quad(s: FaceSpec): seq<Vertex> {
    [ Vertex(s.p0, s.normal, s.tangent, FaceUVs[0], Vec2(0.0, 0.0), White),
      Vertex(s.p1, s.normal, s.tangent, FaceUVs[1], Vec2(0.0, 0.0), White),
      Vertex(s.p2, s.normal, s.tangent, FaceUVs[2], Vec2(0.0, 0.0), White),
      Vertex(s.p3, s.normal, s.tangent, FaceUVs[3], Vec2(0.0, 0.0), White) ]
  }

  predicate IsHalf(r: real) { r == 0.5 || r == -0.5 }

  /** A normal along one of the six axis directions. */
  predicate IsAxisUnit(n: Vec3) {
    || n == Vec3(1.0, 0.0, 0.0) || n == Vec3(-1.0, 0.0, 0.0)
    || n == Vec3(0.0, 1.0, 0.0) || n == Vec3(0.0, -1.0, 0.0)
    || n == Vec3(0.0, 0.0, 1.0) || n == Vec3(0.0, 0.0, -1.0)
  }

  /** For an axis-aligned normal: the coordinate on the normal's axis is 0.5 times its component. */
  predicate OnFacePlane(p: Vec3, n: Vec3) {
    if n.x != 0.0 then p.x == 0.5 * n.x
    else if n.y != 0.0 then p.y == 0.5 * n.y
    else p.z == 0.5 * n.z
  }

  predicate IsCorner(p: Vec3, n: Vec3) {
    IsHalf(p.x) && IsHalf(p.y) && IsHalf(p.z) && OnFacePlane(p, n)
  }

  /**
   * The corners p0..p3 of a face with normal n and tangent t: all cube corners on the
   * face's plane, p0 p1 p2 p3 a parallelogram whose first edge p1 - p0 is the tangent.
   */
  predicate FaceCorners(n: Vec3, t: Vec4, p0: Vec3, p1: Vec3, p2: Vec3, p3: Vec3) {
    && IsAxisUnit(n)
    && t.w == 1.0
    && IsCorner(p0, n) && IsCorner(p1, n) && IsCorner(p2, n) && IsCorner(p3, n)
    && Sub(p1, p0) == Xyz(t)
    && Sub(p2, p0) == Add(Sub(p1, p0), Sub(p3, p0))
  }

  /**
   * The parallelogram's edges p1 - p0 and p3 - p0 have cross product n; with the
   * parallelogram shape this makes both triangles (p0, p1, p2) and (p0, p2, p3) wind
   * counter-clockwise around n, that is, seen from outside.
   */
  predicate CounterClockwise(n: Vec3, p0: Vec3, p1: Vec3, p3: Vec3) {
    Cross(Sub(p1, p0), Sub(p3, p0)) == n
  }

  /**
   * Four vertices form one correct face of the unit cube: they share the normal and
   * the tangent, their corners satisfy FaceCorners, their UVs run (0,0), (1,0), (1,1),
   * (0,1), their second UV set is zero and their colour white.
   */
  ghost predicate IsCubeFace(q: seq<Vertex>) {
    && |q| == 4
    && q[1].normal == q[0].normal && q[2].normal == q[0].normal && q[3].normal == q[0].normal
    && q[1].tangent == q[0].tangent && q[2].tangent == q[0].tangent && q[3].tangent == q[0].tangent
    && q[0].uv0 == FaceUVs[0] && q[1].uv0 == FaceUVs[1] && q[2].uv0 == FaceUVs[2] && q[3].uv0 == FaceUVs[3]
    && q[0].uv1 == q[1].uv1 == q[2].uv1 == q[3].uv1 == Vec2(0.0, 0.0)
    && q[0].color == q[1].color == q[2].color == q[3].color == White
    && FaceCorners(q[0].normal, q[0].tangent, q[0].position, q[1].position, q[2].position, q[3].position)
  }

  predicate FaceSpecOk(s: FaceSpec) {
    FaceCorners(s.normal, s.tangent, s.p0, s.p1, s.p2, s.p3)
  }

  // The literal data of each block describes a cube face. The corner checks and the
  // winding check of each block are separate lemmas so that each arithmetic check
  // stays small.
  lemma FrontCorners()
    ensures FaceCorners(Front.normal, Front.tangent, Front.p0, Front.p1, Front.p2, Front.p3)
  {
    assert Sub(Front.p1, Front.p0) == Vec3(1.0, 0.0, 0.0) == Xyz(Front.tangent);
    assert Sub(Front.p3, Front.p0) == Vec3(0.0, 1.0, 0.0);
  }
  lemma BackCorners()
    ensures FaceCorners(Back.normal, Back.tangent, Back.p0, Back.p1, Back.p2, Back.p3)
  {
    assert Sub(Back.p1, Back.p0) == Vec3(-1.0, 0.0, 0.0) == Xyz(Back.tangent);
    assert Sub(Back.p3, Back.p0) == Vec3(0.0, 1.0, 0.0);
  }
  lemma RightCorners()
    ensures FaceCorners(Right.normal, Right.tangent, Right.p0, Right.p1, Right.p2, Right.p3)
  {
    assert Sub(Right.p1, Right.p0) == Vec3(0.0, 0.0, -1.0) == Xyz(Right.tangent);
    assert Sub(Right.p3, Right.p0) == Vec3(0.0, 1.0, 0.0);
  }
  lemma LeftCorners()
    ensures FaceCorners(Left.normal, Left.tangent, Left.p0, Left.p1, Left.p2, Left.p3)
  {
    assert Sub(Left.p1, Left.p0) == Vec3(0.0, 0.0, 1.0) == Xyz(Left.tangent);
    assert Sub(Left.p3, Left.p0) == Vec3(0.0, 1.0, 0.0);
  }
  lemma TopCorners()
    ensures FaceCorners(Top.normal, Top.tangent, Top.p0, Top.p1, Top.p2, Top.p3)
  {
    assert Sub(Top.p1, Top.p0) == Vec3(1.0, 0.0, 0.0) == Xyz(Top.tangent);
    assert Sub(Top.p3, Top.p0) == Vec3(0.0, 0.0, -1.0);
  }
  lemma BottomCorners()
    ensures FaceCorners(Bottom.normal, Bottom.tangent, Bottom.p0, Bottom.p1, Bottom.p2, Bottom.p3)
  {
    assert Sub(Bottom.p1, Bottom.p0) == Vec3(1.0, 0.0, 0.0) == Xyz(Bottom.tangent);
    assert Sub(Bottom.p3, Bottom.p0) == Vec3(0.0, 0.0, 1.0);
  }
  lemma FrontWinding() ensures CounterClockwise(Front.normal, Front.p0, Front.p1, Front.p3) {}
  lemma BackWinding() ensures CounterClockwise(Back.normal, Back.p0, Back.p1, Back.p3) {}
  lemma RightWinding() ensures CounterClockwise(Right.normal, Right.p0, Right.p1, Right.p3) {}
  lemma LeftWinding() ensures CounterClockwise(Left.normal, Left.p0, Left.p1, Left.p3) {}
  lemma TopWinding() ensures CounterClockwise(Top.normal, Top.p0, Top.p1, Top.p3) {}
  lemma BottomWinding() ensures CounterClockwise(Bottom.normal, Bottom.p0, Bottom.p1, Bottom.p3) {}

  /** Every block of the builder holds face data. */
  lemma BlockIsFace(f: nat)
    requires f < |Faces|
    ensures FaceSpecOk(Faces[f])
  {
    if f == 0 { FrontCorners(); }
    else if f == 1 { BackCorners(); }
    else if f == 2 { RightCorners(); }
    else if f == 3 { LeftCorners(); }
    else if f == 4 { TopCorners(); }
    else { BottomCorners(); }
  }

  /** Every block of the builder winds counter-clockwise seen from outside. */
  lemma BlockWinds(f: nat)
    requires f < |Faces|
    ensures CounterClockwise(Faces[f].normal, Faces[f].p0, Faces[f].p1, Faces[f].p3)
  {
    if f == 0 { assert Faces[f] == Front; FrontWinding(); }
    else if f == 1 { assert Faces[f] == Back; BackWinding(); }
    else if f == 2 { assert Faces[f] == Right; RightWinding(); }
    else if f == 3 { assert Faces[f] == Left; LeftWinding(); }
    else if f == 4 { assert Faces[f] == Top; TopWinding(); }
    else { assert Faces[f] == Bottom; BottomWinding(); }
  }

  /** Four vertices whose triangles (0, 1, 2) and (0, 2, 3) face along their normal. */
  ghost predicate WindsOutward(q: seq<Vertex>) {
    |q| == 4 && CounterClockwise(q[0].normal, q[0].position, q[1].position, q[3].position)
  }

  /** A block with face data pushes a correct cube face. */
  lemma QuadIsCubeFace(s: FaceSpec)
    requires FaceSpecOk(s)
    ensures IsCubeFace(Quad(s))
  {
    var q := Quad(s);
    assert q[0].position == s.p0 && q[1].position == s.p1 && q[2].position == s.p2 && q[3].position == s.p3;
    assert q[0].normal == s.normal && q[0].tangent == s.tangent;
  }

  /** A block whose data winds counter-clockwise pushes an outward-facing quad. */
  lemma QuadWindsOutward(s: FaceSpec)
    requires CounterClockwise(s.normal, s.p0, s.p1, s.p3)
    ensures WindsOutward(Quad(s))
  {
    var q := Quad(s);
    assert q[0].position == s.p0 && q[1].position == s.p1 && q[3].position == s.p3;
    assert q[0].normal == s.normal;
  }

  /** The two triangles (base, base+1, base+2) and (base, base+2, base+3) over one block. */
  function QuadIndices(base: int): (r: seq<int>)
    ensures |r| == 6
  {
    [base, base + 1, base + 2, base, base + 2, base + 3]
  }

  /** The first n blocks have been pushed: vertices and indices hold exactly their output. */
  ghost predicate Built(vertices: seq<Vertex>, indices: seq<int>, n: nat) {
    && n <= |Faces|
    && |vertices| == 4 * n && |indices| == 6 * n
    && (forall f :: 0 <= f < n ==> vertices[4 * f..4 * f + 4] == Quad(Faces[f]))
    && (forall f :: 0 <= f < n ==>
          indices[6 * f..6 * f + 6] == QuadIndices(4 * f))
  }

  lemma PushKeepsBuilt(vertices: seq<Vertex>, indices: seq<int>, n: nat)
    requires Built(vertices, indices, n) && n < |Faces|
    ensures Built(vertices + Quad(Faces[n]),
                  indices + QuadIndices(|vertices|), n + 1)
  {
    var vs := vertices + Quad(Faces[n]);
    var ixs := indices + QuadIndices(|vertices|);
    forall f | 0 <= f < n + 1
      ensures vs[4 * f..4 * f + 4] == Quad(Faces[f])
      ensures ixs[6 * f..6 * f + 6] == QuadIndices(4 * f)
    {
      if f < n {
        assert vs[4 * f..4 * f + 4] == vertices[4 * f..4 * f + 4];
        assert ixs[6 * f..6 * f + 6] == indices[6 * f..6 * f + 6];
      } else {
        assert vs[4 * f..4 * f + 4] == Quad(Faces[n]);
      }
    }
  }

  /** Every pushed block is a correct cube face. */
  lemma BuiltFaces(vertices: seq<Vertex>, indices: seq<int>)
    requires Built(vertices, indices, 6)
    ensures forall f :: 0 <= f < 6 ==> IsCubeFace(vertices[4 * f..4 * f + 4])
  {
    forall f | 0 <= f < 6 ensures IsCubeFace(vertices[4 * f..4 * f + 4]) {
      BlockIsFace(f);
      QuadIsCubeFace(Faces[f]);
    }
  }

  /** Every pushed block faces outward. */
  lemma BuiltWinding(vertices: seq<Vertex>, indices: seq<int>)
    requires Built(vertices, indices, 6)
    ensures forall f :: 0 <= f < 6 ==> WindsOutward(vertices[4 * f..4 * f + 4])
  {
    forall f | 0 <= f < 6 ensures WindsOutward(vertices[4 * f..4 * f + 4]) {
      BlockWinds(f);
      QuadWindsOutward(Faces[f]);
    }
  }

  /** Every index of the finished cube addresses one of its 24 vertices. */
  lemma BuiltIndicesInRange(indices: seq<int>)
    requires |indices| == 36
    requires forall f :: 0 <= f < 6 ==>
      indices[6 * f..6 * f + 6] == QuadIndices(4 * f)
    ensures forall k :: 0 <= k < |indices| ==> 0 <= indices[k] < 24
  {
    forall k | 0 <= k < |indices| ensures 0 <= indices[k] < 24 {
      var f := k / 6;
      assert indices[k] == indices[6 * f..6 * f + 6][k - 6 * f];
      assert indices[k] in QuadIndices(4 * f);
    }
  }

  /** The six blocks face six different directions. */
  lemma BuiltNormalsDistinct(vertices: seq<Vertex>)
    requires |vertices| == 24
    requires forall f :: 0 <= f < 6 ==> vertices[4 * f..4 * f + 4] == Quad(Faces[f])
    ensures forall f, g :: 0 <= f < g < 6 ==> vertices[4 * f].normal != vertices[4 * g].normal
  {
    forall f | 0 <= f < 6 ensures vertices[4 * f].normal == Faces[f].normal {
      assert vertices[4 * f] == vertices[4 * f..4 * f + 4][0];
    }
  }

  /**
   * A finished cube: 24 vertices and 36 indices; face f owns vertices 4f..4f+3 and
   * indices 6f..6f+5, which are base, base+1, base+2, base, base+2, base+3 with
   * base = 4f; every index addresses a vertex; every face is a correct cube face
   * whose triangles face outward, and no two faces share a normal.
   */
  ghost predicate CubeMesh(vertices: seq<Vertex>, indices: seq<int>)
  {
    && |vertices| == 24 && |indices| == 36
    && (forall k :: 0 <= k < |indices| ==> 0 <= indices[k] < |vertices|)
    && (forall f :: 0 <= f < 6 ==>
          indices[6 * f..6 * f + 6] == QuadIndices(4 * f))
    && (forall f :: 0 <= f < 6 ==> IsCubeFace(vertices[4 * f..4 * f + 4]))
    && (forall f :: 0 <= f < 6 ==> WindsOutward(vertices[4 * f..4 * f + 4]))
    && (forall f, g :: 0 <= f < g < 6 ==> vertices[4 * f].normal != vertices[4 * g].normal)
  }

  /** The six pushed blocks make a finished cube. */
  lemma BuiltIsCube(vertices: seq<Vertex>, indices: seq<int>)
    requires Built(vertices, indices, 6)
    ensures CubeMesh(vertices, indices)
  {
    BuiltFaces(vertices, indices);
    BuiltWinding(vertices, indices);
    BuiltIndicesInRange(indices);
    BuiltNormalsDistinct(vertices);
  }

  /** One face block: push four vertices, then the two triangles over them. */
  method PushFace(vertices: seq<Vertex>, indices: seq<int>, s: FaceSpec)
    returns (vertices': seq<Vertex>, indices': seq<int>)
    ensures vertices' == vertices + Quad(s)
    ensures indices' == indices + QuadIndices(|vertices|)
  {
    var base := |vertices|;
    vertices' := vertices;
    vertices' := vertices' + [Vertex(s.p0, s.normal, s.tangent, FaceUVs[0], Vec2(0.0, 0.0), White)];
    vertices' := vertices' + [Vertex(s.p1, s.normal, s.tangent, FaceUVs[1], Vec2(0.0, 0.0), White)];
    vertices' := vertices' + [Vertex(s.p2, s.normal, s.tangent, FaceUVs[2], Vec2(0.0, 0.0), White)];
    vertices' := vertices' + [Vertex(s.p3, s.normal, s.tangent, FaceUVs[3], Vec2(0.0, 0.0), White)];
    indices' := indices + [base, base + 1, base + 2, base, base + 2, base + 3];
  }

  /** Builds the cube block by block, in the order front, back, right, left, top, bottom. */
  method CreateCubeMesh() returns (vertices: seq<Vertex>, indices: seq<int>)
    ensures Built(vertices, indices, 6)
    ensures CubeMesh(vertices, indices)
  {
    vertices, indices := [], [];
    ghost var v0, i0 := vertices, indices;
    vertices, indices := PushFace(vertices, indices, Faces[0]);
    PushKeepsBuilt(v0, i0, 0);
    ghost var v1, i1 := vertices, indices;
    vertices, indices := PushFace(vertices, indices, Faces[1]);
    PushKeepsBuilt(v1, i1, 1);
    ghost var v2, i2 := vertices, indices;
    vertices, indices := PushFace(vertices, indices, Faces[2]);
    PushKeepsBuilt(v2, i2, 2);
    ghost var v3, i3 := vertices, indices;
    vertices, indices := PushFace(vertices, indices, Faces[3]);
    PushKeepsBuilt(v3, i3, 3);
    ghost var v4, i4 := vertices, indices;
    vertices, indices := PushFace(vertices, indices, Faces[4]);
    PushKeepsBuilt(v4, i4, 4);
    ghost var v5, i5 := vertices, indices;
    vertices, indices := PushFace(vertices, indices, Faces[5]);
    PushKeepsBuilt(v5, i5, 5);
    BuiltIsCube(vertices, indices);
  }
}
