/** Triangle meshes as the converter sees them through trimesh: vertices,
    faces, the axis-aligned bounding box, translation, box creation and
    concatenation; the mutable `Trimesh` object; and the library calls the
    converter makes but does not implement (solver booleans, vertex merging,
    rotation, plane slicing, surface sampling, proximity, percentiles), which
    are parameters collected in `MeshLib`. */
module Meshes {
  import opened Results
  import opened Numeric

  datatype Vec3 = Vec3(x: real, y: real, z: real)

  datatype Axis = X | Y | Z

  function Coord(v: Vec3, a: Axis): real {
    match a
    case X => v.x
    case Y => v.y
    case Z => v.z
  }

  function Add(u: Vec3, v: Vec3): Vec3 {
    Vec3(u.x + v.x, u.y + v.y, u.z + v.z)
  }

  /** A point of a horizontal cross-section (XY projection). */
  datatype Point2 = Point2(x: real, y: real)

  /** One raw intersection segment of a plane with the mesh surface. */
  datatype Segment = Segment(a: Point2, b: Point2)

  /** Vertex index triple of one triangle. */
  datatype Face = Face(i: nat, j: nat, k: nat)

  datatype MeshData = MeshData(vertices: seq<Vec3>, faces: seq<Face>)

  /** `mesh.bounds`: `lo` is row 0 (the minima), `hi` row 1 (the maxima). */
  datatype Box3 = Box3(lo: Vec3, hi: Vec3)

  predicate Inside(v: Vec3, b: Box3) {
    b.lo.x <= v.x <= b.hi.x && b.lo.y <= v.y <= b.hi.y && b.lo.z <= v.z <= b.hi.z
  }

  /** Smallest `a`-coordinate of a non-empty vertex list. */
  function MinCoord(vs: seq<Vec3>, a: Axis): real
    requires |vs| > 0
  {
    if |vs| == 1 then Coord(vs[0], a)
    else
      var rest := MinCoord(vs[1..], a);
      if Coord(vs[0], a) <= rest then Coord(vs[0], a) else rest
  }

  /** Largest `a`-coordinate of a non-empty vertex list. */
  function MaxCoord(vs: seq<Vec3>, a: Axis): real
    requires |vs| > 0
  {
    if |vs| == 1 then Coord(vs[0], a)
    else
      var rest := MaxCoord(vs[1..], a);
      if Coord(vs[0], a) >= rest then Coord(vs[0], a) else rest
  }

  /** The minimum is below every vertex ... */
  lemma {:induction false} MinCoordBelow(vs: seq<Vec3>, a: Axis, i: nat)
    requires i < |vs|
    ensures MinCoord(vs, a) <= Coord(vs[i], a)
  {
    if |vs| > 1 && i > 0 {
      assert vs[i] == vs[1..][i - 1];
      MinCoordBelow(vs[1..], a, i - 1);
    }
  }

  /** ... and attained by one of them. */
  lemma {:induction false} MinCoordAttained(vs: seq<Vec3>, a: Axis) returns (w: nat)
    requires |vs| > 0
    ensures w < |vs| && Coord(vs[w], a) == MinCoord(vs, a)
  {
    if |vs| == 1 || Coord(vs[0], a) <= MinCoord(vs[1..], a) {
      w := 0;
    } else {
      var v := MinCoordAttained(vs[1..], a);
      w := v + 1;
      assert vs[w] == vs[1..][v];
    }
  }

  lemma {:induction false} MaxCoordAbove(vs: seq<Vec3>, a: Axis, i: nat)
    requires i < |vs|
    ensures Coord(vs[i], a) <= MaxCoord(vs, a)
  {
    if |vs| > 1 && i > 0 {
      assert vs[i] == vs[1..][i - 1];
      MaxCoordAbove(vs[1..], a, i - 1);
    }
  }

  lemma {:induction false} MaxCoordAttained(vs: seq<Vec3>, a: Axis) returns (w: nat)
    requires |vs| > 0
    ensures w < |vs| && Coord(vs[w], a) == MaxCoord(vs, a)
  {
    if |vs| == 1 || Coord(vs[0], a) >= MaxCoord(vs[1..], a) {
      w := 0;
    } else {
      var v := MaxCoordAttained(vs[1..], a);
      w := v + 1;
      assert vs[w] == vs[1..][v];
    }
  }

  /** A coordinate value that is attained and below every other is the minimum. */
  lemma MinCoordIs(vs: seq<Vec3>, a: Axis, r: real, w: nat)
    requires w < |vs| && Coord(vs[w], a) == r
    requires forall i :: 0 <= i < |vs| ==> r <= Coord(vs[i], a)
    ensures MinCoord(vs, a) == r
  {
    MinCoordBelow(vs, a, w);
    var v := MinCoordAttained(vs, a);
  }

  lemma MaxCoordIs(vs: seq<Vec3>, a: Axis, r: real, w: nat)
    requires w < |vs| && Coord(vs[w], a) == r
    requires forall i :: 0 <= i < |vs| ==> Coord(vs[i], a) <= r
    ensures MaxCoord(vs, a) == r
  {
    MaxCoordAbove(vs, a, w);
    var v := MaxCoordAttained(vs, a);
  }

  /** The axis-aligned bounding box of all vertices. */
  function Bounds(m: MeshData): (b: Box3)
    requires |m.vertices| > 0
    ensures b.lo.x <= b.hi.x && b.lo.y <= b.hi.y && b.lo.z <= b.hi.z
  {
    var vs := m.vertices;
    MinCoordBelow(vs, X, 0); MaxCoordAbove(vs, X, 0);
    MinCoordBelow(vs, Y, 0); MaxCoordAbove(vs, Y, 0);
    MinCoordBelow(vs, Z, 0); MaxCoordAbove(vs, Z, 0);
    Box3(Vec3(MinCoord(vs, X), MinCoord(vs, Y), MinCoord(vs, Z)),
         Vec3(MaxCoord(vs, X), MaxCoord(vs, Y), MaxCoord(vs, Z)))
  }

  /** Every vertex lies in the bounding box. */
  lemma BoundsContain(m: MeshData, i: nat)
    requires i < |m.vertices|
    ensures Inside(m.vertices[i], Bounds(m))
  {
    var vs := m.vertices;
    MinCoordBelow(vs, X, i); MaxCoordAbove(vs, X, i);
    MinCoordBelow(vs, Y, i); MaxCoordAbove(vs, Y, i);
    MinCoordBelow(vs, Z, i); MaxCoordAbove(vs, Z, i);
  }

  /** XY centre of a box, as `mesh_center_xy` computes it from the bounds. */
  function CenterX(b: Box3): real { (b.lo.x + b.hi.x) / 2.0 }

  function CenterY(b: Box3): real { (b.lo.y + b.hi.y) / 2.0 }

  function Shift(vs: seq<Vec3>, t: Vec3): seq<Vec3> {
    seq(|vs|, i requires 0 <= i < |vs| => Add(vs[i], t))
  }

  /** `apply_translation(t)` as a value: every vertex moves by `t`, faces stay. */
  function Translate(m: MeshData, t: Vec3): MeshData {
    MeshData(Shift(m.vertices, t), m.faces)
  }

  lemma ShiftExtremes(vs: seq<Vec3>, t: Vec3, a: Axis)
    requires |vs| > 0
    ensures MinCoord(Shift(vs, t), a) == MinCoord(vs, a) + Coord(t, a)
    ensures MaxCoord(Shift(vs, t), a) == MaxCoord(vs, a) + Coord(t, a)
  {
    var sv := Shift(vs, t);
    assert forall i :: 0 <= i < |vs| ==> Coord(sv[i], a) == Coord(vs[i], a) + Coord(t, a);
    forall i | 0 <= i < |vs|
      ensures MinCoord(vs, a) + Coord(t, a) <= Coord(sv[i], a) <= MaxCoord(vs, a) + Coord(t, a)
    {
      MinCoordBelow(vs, a, i);
      MaxCoordAbove(vs, a, i);
    }
    var lo := MinCoordAttained(vs, a);
    var hi := MaxCoordAttained(vs, a);
    MinCoordIs(sv, a, MinCoord(vs, a) + Coord(t, a), lo);
    MaxCoordIs(sv, a, MaxCoord(vs, a) + Coord(t, a), hi);
  }

  /** Translating a mesh translates its bounding box by the same vector. */
  lemma TranslateBounds(m: MeshData, t: Vec3)
    requires |m.vertices| > 0
    ensures |Translate(m, t).vertices| > 0
    ensures Bounds(Translate(m, t)) == Box3(Add(Bounds(m).lo, t), Add(Bounds(m).hi, t))
  {
    var vs, sv := m.vertices, Translate(m, t).vertices;
    assert MinCoord(sv, X) == MinCoord(vs, X) + t.x by { ShiftExtremes(vs, t, X); }
    assert MinCoord(sv, Y) == MinCoord(vs, Y) + t.y by { ShiftExtremes(vs, t, Y); }
    assert MinCoord(sv, Z) == MinCoord(vs, Z) + t.z by { ShiftExtremes(vs, t, Z); }
    assert MaxCoord(sv, X) == MaxCoord(vs, X) + t.x by { ShiftExtremes(vs, t, X); }
    assert MaxCoord(sv, Y) == MaxCoord(vs, Y) + t.y by { ShiftExtremes(vs, t, Y); }
    assert MaxCoord(sv, Z) == MaxCoord(vs, Z) + t.z by { ShiftExtremes(vs, t, Z); }
  }

  /** Two translations in a row are one translation by the sum. */
  lemma TranslateTwice(m: MeshData, s: Vec3, t: Vec3)
    ensures Translate(Translate(m, s), t) == Translate(m, Add(s, t))
  {
    assert Shift(Shift(m.vertices, s), t) == Shift(m.vertices, Add(s, t));
  }

  lemma TranslateZero(m: MeshData)
    ensures Translate(m, Vec3(0.0, 0.0, 0.0)) == m
  {
    assert Shift(m.vertices, Vec3(0.0, 0.0, 0.0)) == m.vertices;
  }

  /** Face list of trimesh's unit box. */
  const BoxFaces: seq<Face> := [
    Face(1, 3, 0), Face(4, 1, 0), Face(0, 3, 2), Face(2, 4, 0),
    Face(1, 7, 3), Face(5, 1, 4), Face(5, 7, 1), Face(3, 7, 2),
    Face(6, 4, 2), Face(2, 7, 6), Face(6, 5, 4), Face(7, 5, 6)]

  /** `trimesh.creation.box(extents, transform=translation_matrix(center))`:
      the unit cube's corners in trimesh's order (corner `i` has the bits
      x = i / 4, y = (i / 2) % 2, z = i % 2), shifted by -0.5, scaled by
      `extents` and moved to `center`. */
  function BoxMesh(extents: Vec3, center: Vec3): MeshData {
    var lx, ly, lz := center.x - extents.x / 2.0, center.y - extents.y / 2.0, center.z - extents.z / 2.0;
    var ux, uy, uz := center.x + extents.x / 2.0, center.y + extents.y / 2.0, center.z + extents.z / 2.0;
    MeshData(
      seq(8, i requires 0 <= i < 8 =>
        Vec3(if i < 4 then lx else ux, if i % 4 < 2 then ly else uy, if i % 2 == 0 then lz else uz)),
      BoxFaces)
  }

  lemma TwoValuedExtremes(vs: seq<Vec3>, a: Axis, p: real, q: real)
    requires |vs| == 8 && Coord(vs[0], a) == p && Coord(vs[7], a) == q
    requires forall i :: 0 <= i < 8 ==> Coord(vs[i], a) == p || Coord(vs[i], a) == q
    ensures MinCoord(vs, a) == Min(p, q) && MaxCoord(vs, a) == Max(p, q)
  {
    if p <= q {
      MinCoordIs(vs, a, p, 0);
      MaxCoordIs(vs, a, q, 7);
    } else {
      MinCoordIs(vs, a, q, 7);
      MaxCoordIs(vs, a, p, 0);
    }
  }

  /** A created box spans `center -/+ |extents| / 2` on every axis (a negative
      extent swaps the two faces of that axis). */
  lemma BoxBounds(extents: Vec3, center: Vec3)
    ensures |BoxMesh(extents, center).vertices| == 8
    ensures Bounds(BoxMesh(extents, center)) ==
      Box3(Vec3(center.x - Abs(extents.x) / 2.0, center.y - Abs(extents.y) / 2.0, center.z - Abs(extents.z) / 2.0),
           Vec3(center.x + Abs(extents.x) / 2.0, center.y + Abs(extents.y) / 2.0, center.z + Abs(extents.z) / 2.0))
  {
    var vs := BoxMesh(extents, center).vertices;
    TwoValuedExtremes(vs, X, center.x - extents.x / 2.0, center.x + extents.x / 2.0);
    TwoValuedExtremes(vs, Y, center.y - extents.y / 2.0, center.y + extents.y / 2.0);
    TwoValuedExtremes(vs, Z, center.z - extents.z / 2.0, center.z + extents.z / 2.0);
  }

  function OffsetFaces(fs: seq<Face>, k: nat): seq<Face> {
    seq(|fs|, i requires 0 <= i < |fs| => Face(fs[i].i + k, fs[i].j + k, fs[i].k + k))
  }

  /** `trimesh.util.concatenate`: vertices stacked in list order, each mesh's
      face indices offset by the number of vertices before it. */
  function Concatenate(ms: seq<MeshData>): MeshData {
    if |ms| == 0 then MeshData([], [])
    else
      var front := Concatenate(ms[..|ms| - 1]);
      var last := ms[|ms| - 1];
      MeshData(front.vertices + last.vertices, front.faces + OffsetFaces(last.faces, |front.vertices|))
  }

  /** The library calls the converter relies on, as opaque total functions.
      `None` stands for the call raising. */
  datatype MeshLib = MeshLib(
    /** manifold3d batch_boolean with OpType.Intersect */
    booleanIntersect: (MeshData, MeshData) -> Option<MeshData>,
    /** manifold3d batch_boolean with OpType.Add */
    booleanUnion: (MeshData, MeshData) -> Option<MeshData>,
    /** Trimesh.merge_vertices */
    mergeVertices: MeshData -> MeshData,
    /** copy and apply a rotation about Z by a number of degrees */
    rotateZ: (MeshData, int) -> MeshData,
    /** trimesh.intersections.mesh_plane at height z, projected to XY */
    meshPlane: (MeshData, real) -> Option<seq<Segment>>,
    /** trimesh.sample.sample_surface; random and unseeded in the library,
        here one fixed draw per mesh and count */
    sampleSurface: (MeshData, nat) -> Option<seq<Vec3>>,
    /** mesh.nearest.on_surface: distances from each point to the mesh */
    nearestOnSurface: (MeshData, seq<Vec3>) -> Option<seq<real>>,
    /** np.percentile(d, 95) of a non-empty list */
    percentile95: seq<real> -> real)

  /** `manifold_intersect`: the solver's result, or a boolean-failure error. */
  function ManifoldIntersect(lib: MeshLib, a: MeshData, b: MeshData): Result<MeshData> {
    match lib.booleanIntersect(a, b)
    case Some(r) => Ok(r)
    case None => Err(BooleanFailed(Intersection))
  }

  /** `manifold_union`: the solver's result, or a boolean-failure error. */
  function ManifoldUnion(lib: MeshLib, a: MeshData, b: MeshData): Result<MeshData> {
    match lib.booleanUnion(a, b)
    case Some(r) => Ok(r)
    case None => Err(BooleanFailed(Union))
  }

  /** A trimesh.Trimesh object, whose vertices the converter moves in place. */
  class Trimesh {
    var vertices: seq<Vec3>
    var faces: seq<Face>

    /** `trimesh.Trimesh(vertices=..., faces=..., process=False)` */
    constructor (m: MeshData)
      ensures Data() == m
    {
      vertices := m.vertices;
      faces := m.faces;
    }

    function Data(): MeshData
      reads this
    {
      MeshData(vertices, faces)
    }

    method ApplyTranslation(t: Vec3)
      modifies this
      ensures Data() == Translate(old(Data()), t)
    {
      vertices := Shift(vertices, t);
    }

    method Copy() returns (c: Trimesh)
      ensures fresh(c) && c.Data() == Data()
    {
      c := new Trimesh(Data());
    }

    method MergeVertices(lib: MeshLib)
      modifies this
      ensures Data() == lib.mergeVertices(old(Data()))
    {
      var merged := lib.mergeVertices(Data());
      vertices, faces := merged.vertices, merged.faces;
    }
  }
}
