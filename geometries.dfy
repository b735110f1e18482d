/** The two constant geometries (src/geometries/BoxGeometry.ts and
    src/geometries/PlaneGeometry.ts) and the structure every geometry is
    meant to have (src/core/Geometry.ts): flat position, normal and uv
    arrays of 3, 3 and 2 numbers per vertex, and a triangle index list
    whose entries name existing vertices. */
module Geometries {

  datatype Vec3 = Vec3(x: real, y: real, z: real)

  datatype Vec2 = Vec2(u: real, v: real)

  /** A geometry's four attribute arrays. The flat `Float32Array`s hold
      3, 3 and 2 consecutive numbers per vertex; here they are grouped per
      vertex, in the same order. `Uint16Array` entries are naturals,
      bounded by `WellFormed`. */
  datatype Geometry = Geometry(positions: seq<Vec3>, normals: seq<Vec3>, uvs: seq<Vec2>, indices: seq<nat>)

  /** The layout every mesh draws from: one position, normal and uv per
      vertex, whole triangles, every index a 16-bit value naming an
      existing vertex. */
  predicate WellFormed(g: Geometry) {
    && |g.normals| == |g.positions|
    && |g.uvs| == |g.positions|
    && |g.indices| % 3 == 0
    && forall i :: 0 <= i < |g.indices| ==> g.indices[i] < |g.positions| && g.indices[i] < 0x1_0000
  }

  function Dot(a: Vec3, b: Vec3): real {
    a.x * b.x + a.y * b.y + a.z * b.z
  }

  /** The outward unit normal of face `f` of the box, in the order
      +X, -X, +Y, -Y, +Z, -Z. */
  function FaceNormal(f: nat): Vec3
    requires f < 6
  {
    [Vec3(1.0, 0.0, 0.0), Vec3(-1.0, 0.0, 0.0), Vec3(0.0, 1.0, 0.0),
     Vec3(0.0, -1.0, 0.0), Vec3(0.0, 0.0, 1.0), Vec3(0.0, 0.0, -1.0)][f]
  }

  /** `p` lies in the plane of face `f` of the box of half-extent `size`. */
  predicate OnFacePlane(p: Vec3, f: nat, size: real) {
    match f
    case 0 => p.x == size
    case 1 => p.x == -size
    case 2 => p.y == size
    case 3 => p.y == -size
    case 4 => p.z == size
    case _ => p.z == -size
  }

  /** `p` is a corner `(±size, ±size, ±size)`. */
  predicate IsCorner(p: Vec3, size: real) {
    (p.x == size || p.x == -size) && (p.y == size || p.y == -size) && (p.z == size || p.z == -size)
  }

  /** Both texture coordinates are 0 or 1. */
  predicate IsUvCorner(t: Vec2) {
    (t.u == 0.0 || t.u == 1.0) && (t.v == 0.0 || t.v == 1.0)
  }

  /** The two triangles of a quad `0 1 2 3`, sharing the diagonal 0-2. */
  const QuadIndices: seq<nat> := [0, 1, 2, 0, 2, 3]

  /** Indices `6f .. 6f+5` draw the quad of vertices `4f .. 4f+3` as its two
      triangles `4f, 4f+1, 4f+2` and `4f, 4f+2, 4f+3` (`QuadIndices` shifted
      by `4f`). */
  predicate QuadAt(indices: seq<nat>, f: nat)
    requires 6 * f + 5 < |indices|
  {
    && indices[6 * f] == 4 * f && indices[6 * f + 1] == 4 * f + 1 && indices[6 * f + 2] == 4 * f + 2
    && indices[6 * f + 3] == 4 * f && indices[6 * f + 4] == 4 * f + 2 && indices[6 * f + 5] == 4 * f + 3
  }

  /** `new BoxGeometry(size)`: 24 vertices, four per face, faces in the
      order +X, -X, +Y, -Y, +Z, -Z. The source's flat literals are written
      here vertex by vertex, one face per line, and the index list one
      face per display. */
  function BoxGeometry(size: real): (g: Geometry)
    ensures |g.positions| == 24 && |g.normals| == 24 && |g.uvs| == 24 && |g.indices| == 36
  {
    Geometry(BoxPositions(size), BoxNormals(), BoxUvs(), BoxIndices())
  }

  function BoxPositions(size: real): seq<Vec3> {
    [Vec3(size, size, -size), Vec3(size, size, size), Vec3(size, -size, size), Vec3(size, -size, -size),
     Vec3(-size, size, size), Vec3(-size, size, -size), Vec3(-size, -size, -size), Vec3(-size, -size, size),
     Vec3(-size, size, size), Vec3(size, size, size), Vec3(size, size, -size), Vec3(-size, size, -size),
     Vec3(-size, -size, -size), Vec3(size, -size, -size), Vec3(size, -size, size), Vec3(-size, -size, size),
     Vec3(size, size, size), Vec3(-size, size, size), Vec3(-size, -size, size), Vec3(size, -size, size),
     Vec3(-size, size, -size), Vec3(size, size, -size), Vec3(size, -size, -size), Vec3(-size, -size, -size)]
  }

  function BoxNormals(): seq<Vec3> {
    [Vec3(1.0, 0.0, 0.0), Vec3(1.0, 0.0, 0.0), Vec3(1.0, 0.0, 0.0), Vec3(1.0, 0.0, 0.0),
     Vec3(-1.0, 0.0, 0.0), Vec3(-1.0, 0.0, 0.0), Vec3(-1.0, 0.0, 0.0), Vec3(-1.0, 0.0, 0.0),
     Vec3(0.0, 1.0, 0.0), Vec3(0.0, 1.0, 0.0), Vec3(0.0, 1.0, 0.0), Vec3(0.0, 1.0, 0.0),
     Vec3(0.0, -1.0, 0.0), Vec3(0.0, -1.0, 0.0), Vec3(0.0, -1.0, 0.0), Vec3(0.0, -1.0, 0.0),
     Vec3(0.0, 0.0, 1.0), Vec3(0.0, 0.0, 1.0), Vec3(0.0, 0.0, 1.0), Vec3(0.0, 0.0, 1.0),
     Vec3(0.0, 0.0, -1.0), Vec3(0.0, 0.0, -1.0), Vec3(0.0, 0.0, -1.0), Vec3(0.0, 0.0, -1.0)]
  }

  function BoxUvs(): seq<Vec2> {
    [Vec2(1.0, 0.0), Vec2(0.0, 0.0), Vec2(0.0, 1.0), Vec2(1.0, 1.0),
     Vec2(1.0, 0.0), Vec2(0.0, 0.0), Vec2(0.0, 1.0), Vec2(1.0, 1.0),
     Vec2(1.0, 0.0), Vec2(0.0, 0.0), Vec2(0.0, 1.0), Vec2(1.0, 1.0),
     Vec2(1.0, 0.0), Vec2(0.0, 0.0), Vec2(0.0, 1.0), Vec2(1.0, 1.0),
     Vec2(1.0, 0.0), Vec2(0.0, 0.0), Vec2(0.0, 1.0), Vec2(1.0, 1.0),
     Vec2(1.0, 0.0), Vec2(0.0, 0.0), Vec2(0.0, 1.0), Vec2(1.0, 1.0)]
  }

  function BoxIndices(): seq<nat> {
    [0, 1, 2, 0, 2, 3] + [4, 5, 6, 4, 6, 7] + [8, 9, 10, 8, 10, 11] +
    [12, 13, 14, 12, 14, 15] + [16, 17, 18, 16, 18, 19] + [20, 21, 22, 20, 22, 23]
  }

  /** `new PlaneGeometry(size)`: one quad in the z = 0 plane. */
  function PlaneGeometry(size: real): (g: Geometry)
    ensures |g.positions| == 4 && |g.normals| == 4 && |g.uvs| == 4 && g.indices == QuadIndices
  {
    Geometry(
      [Vec3(-size, -size, 0.0), Vec3(size, -size, 0.0), Vec3(size, size, 0.0), Vec3(-size, size, 0.0)],
      [Vec3(0.0, 0.0, 1.0), Vec3(0.0, 0.0, 1.0), Vec3(0.0, 0.0, 1.0), Vec3(0.0, 0.0, 1.0)],
      [Vec2(0.0, 0.0), Vec2(1.0, 0.0), Vec2(1.0, 1.0), Vec2(0.0, 1.0)],
      [0, 1, 2, 0, 2, 3])
  }

  /** Lying in the plane of face `f` is being at distance `size` along its
      outward normal. */
  lemma DotOnFacePlane(p: Vec3, f: nat, size: real)
    requires f < 6
    ensures OnFacePlane(p, f, size) <==> Dot(p, FaceNormal(f)) == size
  {
    var n := FaceNormal(f);
    if f == 0 { assert n == Vec3(1.0, 0.0, 0.0); }
    else if f == 1 { assert n == Vec3(-1.0, 0.0, 0.0); }
    else if f == 2 { assert n == Vec3(0.0, 1.0, 0.0); }
    else if f == 3 { assert n == Vec3(0.0, -1.0, 0.0); }
    else if f == 4 { assert n == Vec3(0.0, 0.0, 1.0); }
    else { assert n == Vec3(0.0, 0.0, -1.0); }
  }

  lemma BoxIndicesInRange()
    ensures |BoxIndices()| == 36
    ensures forall i :: 0 <= i < 36 ==> BoxIndices()[i] < 24
  {
  }

  lemma BoxQuads()
    ensures |BoxIndices()| == 36
    ensures forall f :: 0 <= f < 6 ==> QuadAt(BoxIndices(), f)
  {
    forall f | 0 <= f < 6 ensures QuadAt(BoxIndices(), f) {
      assert f == 0 || f == 1 || f == 2 || f == 3 || f == 4 || f == 5;
    }
  }

  lemma BoxCorners(size: real)
    ensures |BoxPositions(size)| == 24 && |BoxUvs()| == 24
    ensures forall v :: 0 <= v < 24 ==> IsCorner(BoxPositions(size)[v], size)
    ensures forall v :: 0 <= v < 24 ==> OnFacePlane(BoxPositions(size)[v], v / 4, size)
    ensures forall v :: 0 <= v < 24 ==> IsUvCorner(BoxUvs()[v])
  {
  }

  lemma BoxFaceNormals()
    ensures |BoxNormals()| == 24
    ensures forall v :: 0 <= v < 24 ==> BoxNormals()[v] == FaceNormal(v / 4)
  {
  }

  /** The box's layout: 24 vertices, 12 triangles, and face `f` drawn as the
      quad `4f .. 4f+3`. */
  lemma BoxLayout(size: real)
    ensures var g := BoxGeometry(size);
      && |g.positions| == 24 && |g.indices| == 36 && WellFormed(g)
      && forall f :: 0 <= f < 6 ==> QuadAt(g.indices, f)
  {
    BoxIndicesInRange();
    BoxQuads();
    BoxCorners(size);
    BoxFaceNormals();
  }

  /** Every box vertex sits at a corner `(±size, ±size, ±size)`, both its uv
      components are 0 or 1, the four vertices of face `f` share its outward
      normal, and each vertex lies on that face: `position · normal == size`. */
  lemma BoxFaces(size: real)
    ensures var g := BoxGeometry(size);
      && |g.positions| == 24 && |g.normals| == 24 && |g.uvs| == 24
      && forall v :: 0 <= v < 24 ==>
           && IsCorner(g.positions[v], size)
           && IsUvCorner(g.uvs[v])
           && g.normals[v] == FaceNormal(v / 4)
           && Dot(g.positions[v], g.normals[v]) == size
  {
    var g := BoxGeometry(size);
    BoxCorners(size);
    BoxFaceNormals();
    forall v | 0 <= v < 24 ensures Dot(g.positions[v], g.normals[v]) == size {
      DotOnFacePlane(g.positions[v], v / 4, size);
    }
  }

  /** The plane: 4 vertices in the z = 0 plane at `(±size, ±size)`, all with
      normal +Z, two triangles sharing the diagonal 0-2. */
  lemma PlaneLayout(size: real)
    ensures var g := PlaneGeometry(size);
      && |g.positions| == 4 && WellFormed(g)
      && g.indices == QuadIndices
      && (forall v :: 0 <= v < 4 ==>
            && g.positions[v].z == 0.0
            && (g.positions[v].x == size || g.positions[v].x == -size)
            && (g.positions[v].y == size || g.positions[v].y == -size)
            && g.normals[v] == Vec3(0.0, 0.0, 1.0))
  {
  }

  /** For a plane of non-zero size, the uv of each vertex is 1 exactly where
      its position component is `+size` and 0 exactly where it is `-size`
      (at size 0 both signs coincide). */
  lemma PlaneUvs(size: real)
    requires size != 0.0
    ensures var g := PlaneGeometry(size);
      forall v :: 0 <= v < 4 ==>
        && (g.uvs[v].u == 1.0 <==> g.positions[v].x == size)
        && (g.uvs[v].u == 0.0 <==> g.positions[v].x == -size)
        && (g.uvs[v].v == 1.0 <==> g.positions[v].y == size)
        && (g.uvs[v].v == 0.0 <==> g.positions[v].y == -size)
  {
  }
}
