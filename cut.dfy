/** Cutting a mesh at a Z plane by intersecting it with a large box that
    covers the mesh's footprint (with a margin) on one side of the plane. */
module Cut {
  import opened Results
  import opened Numeric
  import opened Meshes

  /** Extra width and depth of the cutting box beyond the mesh's own. */
  const FootprintMargin: real := 50.0
  /** Extra height of the cutting box beyond the mesh's extent past the plane. */
  const HeightMargin: real := 200.0

  /** The box `cut_keep_above` creates, before it is moved onto the plane. */
  function AboveBoxRaw(b: Box3, zCut: real): MeshData {
    BoxMesh(
      Vec3((b.hi.x - b.lo.x) + FootprintMargin, (b.hi.y - b.lo.y) + FootprintMargin, (b.hi.z - zCut) + HeightMargin),
      Vec3(CenterX(b), CenterY(b), (zCut + b.hi.z) / 2.0))
  }

  /** The box `cut_keep_below` creates, before it is moved onto the plane. */
  function BelowBoxRaw(b: Box3, zCut: real): MeshData {
    BoxMesh(
      Vec3((b.hi.x - b.lo.x) + FootprintMargin, (b.hi.y - b.lo.y) + FootprintMargin, (zCut - b.lo.z) + HeightMargin),
      Vec3(CenterX(b), CenterY(b), (b.lo.z + zCut) / 2.0))
  }

  /** The half-space box of `cut_keep_above`: its bottom face moved onto the plane. */
  function AboveBox(m: MeshData, zCut: real): MeshData
    requires |m.vertices| > 0
  {
    var raw := AboveBoxRaw(Bounds(m), zCut);
    Translate(raw, Vec3(0.0, 0.0, zCut - Bounds(raw).lo.z))
  }

  /** The half-space box of `cut_keep_below`: its top face moved onto the plane. */
  function BelowBox(m: MeshData, zCut: real): MeshData
    requires |m.vertices| > 0
  {
    var raw := BelowBoxRaw(Bounds(m), zCut);
    Translate(raw, Vec3(0.0, 0.0, zCut - Bounds(raw).hi.z))
  }

  /** The above-box spans the mesh's footprint grown by half the margin on
      every side; its bottom face lies on the cutting plane and its height is
      the mesh's extent above the plane plus the height margin. */
  lemma AboveBoxBounds(m: MeshData, zCut: real)
    requires |m.vertices| > 0
    ensures |AboveBox(m, zCut).vertices| > 0
    ensures
      var b := Bounds(m);
      Bounds(AboveBox(m, zCut)) ==
        Box3(Vec3(b.lo.x - FootprintMargin / 2.0, b.lo.y - FootprintMargin / 2.0, zCut),
             Vec3(b.hi.x + FootprintMargin / 2.0, b.hi.y + FootprintMargin / 2.0,
                  zCut + Abs((b.hi.z - zCut) + HeightMargin)))
  {
    var b := Bounds(m);
    var raw := AboveBoxRaw(b, zCut);
    BoxBounds(Vec3((b.hi.x - b.lo.x) + FootprintMargin, (b.hi.y - b.lo.y) + FootprintMargin, (b.hi.z - zCut) + HeightMargin),
      Vec3(CenterX(b), CenterY(b), (zCut + b.hi.z) / 2.0));
    TranslateBounds(raw, Vec3(0.0, 0.0, zCut - Bounds(raw).lo.z));
  }

  /** The below-box mirrors the above-box: its top face lies on the plane. */
  lemma BelowBoxBounds(m: MeshData, zCut: real)
    requires |m.vertices| > 0
    ensures |BelowBox(m, zCut).vertices| > 0
    ensures
      var b := Bounds(m);
      Bounds(BelowBox(m, zCut)) ==
        Box3(Vec3(b.lo.x - FootprintMargin / 2.0, b.lo.y - FootprintMargin / 2.0,
                  zCut - Abs((zCut - b.lo.z) + HeightMargin)),
             Vec3(b.hi.x + FootprintMargin / 2.0, b.hi.y + FootprintMargin / 2.0, zCut))
  {
    var b := Bounds(m);
    var raw := BelowBoxRaw(b, zCut);
    BoxBounds(Vec3((b.hi.x - b.lo.x) + FootprintMargin, (b.hi.y - b.lo.y) + FootprintMargin, (zCut - b.lo.z) + HeightMargin),
      Vec3(CenterX(b), CenterY(b), (b.lo.z + zCut) / 2.0));
    TranslateBounds(raw, Vec3(0.0, 0.0, zCut - Bounds(raw).hi.z));
  }

  /** Whenever the plane is not more than the height margin above the mesh,
      the above-box reaches the height margin above the mesh's top, so it never
      bounds the kept part from above; the below-box likewise reaches the
      height margin below the mesh's bottom whenever the plane is not more than
      that margin below it. */
  lemma BoxesOvershoot(m: MeshData, zCut: real)
    requires |m.vertices| > 0
    ensures |AboveBox(m, zCut).vertices| > 0 && |BelowBox(m, zCut).vertices| > 0
    ensures zCut <= Bounds(m).hi.z + HeightMargin ==>
      Bounds(AboveBox(m, zCut)).hi.z == Bounds(m).hi.z + HeightMargin
    ensures zCut >= Bounds(m).lo.z - HeightMargin ==>
      Bounds(BelowBox(m, zCut)).lo.z == Bounds(m).lo.z - HeightMargin
  {
    AboveBoxBounds(m, zCut);
    BelowBoxBounds(m, zCut);
  }

  /** Within the mesh's bounding box, the above-box holds exactly the points
      on or above the plane: the intersection keeps the upper part and
      nothing below the plane. */
  lemma AboveBoxSelects(m: MeshData, zCut: real, p: Vec3)
    requires |m.vertices| > 0 && Inside(p, Bounds(m))
    ensures |AboveBox(m, zCut).vertices| > 0
    ensures Inside(p, Bounds(AboveBox(m, zCut))) <==> p.z >= zCut
  {
    AboveBoxBounds(m, zCut);
  }

  /** Within the mesh's bounding box, the below-box holds exactly the points
      on or below the plane. */
  lemma BelowBoxSelects(m: MeshData, zCut: real, p: Vec3)
    requires |m.vertices| > 0 && Inside(p, Bounds(m))
    ensures |BelowBox(m, zCut).vertices| > 0
    ensures Inside(p, Bounds(BelowBox(m, zCut))) <==> p.z <= zCut
  {
    BelowBoxBounds(m, zCut);
  }

  /** The two boxes for one plane meet in the plane and their interiors do
      not overlap: the above-box starts where the below-box ends. */
  lemma BoxesMeetAtPlane(m: MeshData, zCut: real)
    requires |m.vertices| > 0
    ensures |AboveBox(m, zCut).vertices| > 0 && |BelowBox(m, zCut).vertices| > 0
    ensures Bounds(AboveBox(m, zCut)).lo.z == zCut == Bounds(BelowBox(m, zCut)).hi.z
  {
    AboveBoxBounds(m, zCut);
    BelowBoxBounds(m, zCut);
  }

  /** `cut_keep_above`: an empty mesh has no bounds (the source fails on
      them); otherwise the boolean intersection with the above-box. */
  function KeepAbove(lib: MeshLib, m: MeshData, zCut: real): (r: Result<MeshData>)
    ensures r.Err? ==> r.error == EmptyMesh || r.error == BooleanFailed(Intersection)
    ensures r.Ok? <==> |m.vertices| > 0 && lib.booleanIntersect(m, AboveBox(m, zCut)).Some?
    ensures r.Ok? ==> r.value == lib.booleanIntersect(m, AboveBox(m, zCut)).value
  {
    if |m.vertices| == 0 then Err(EmptyMesh)
    else ManifoldIntersect(lib, m, AboveBox(m, zCut))
  }

  /** `cut_keep_below`, symmetric to KeepAbove. */
  function KeepBelow(lib: MeshLib, m: MeshData, zCut: real): (r: Result<MeshData>)
    ensures r.Err? ==> r.error == EmptyMesh || r.error == BooleanFailed(Intersection)
    ensures r.Ok? <==> |m.vertices| > 0 && lib.booleanIntersect(m, BelowBox(m, zCut)).Some?
    ensures r.Ok? ==> r.value == lib.booleanIntersect(m, BelowBox(m, zCut)).value
  {
    if |m.vertices| == 0 then Err(EmptyMesh)
    else ManifoldIntersect(lib, m, BelowBox(m, zCut))
  }

  /** `cut_keep_above` step by step: create the box, move it in place so its
      bottom face lies on the plane, intersect. The input mesh is not changed. */
  method CutKeepAbove(lib: MeshLib, mesh: Trimesh, zCut: real) returns (r: Result<MeshData>)
    ensures r == KeepAbove(lib, mesh.Data(), zCut)
  {
    var m := mesh.Data();
    if |m.vertices| == 0 {
      return Err(EmptyMesh);
    }
    var box := new Trimesh(AboveBoxRaw(Bounds(m), zCut));
    var boxBottom := Bounds(box.Data()).lo.z;
    box.ApplyTranslation(Vec3(0.0, 0.0, zCut - boxBottom));
    r := ManifoldIntersect(lib, m, box.Data());
  }

  /** `cut_keep_below` step by step: the box's top face is moved onto the plane. */
  method CutKeepBelow(lib: MeshLib, mesh: Trimesh, zCut: real) returns (r: Result<MeshData>)
    ensures r == KeepBelow(lib, mesh.Data(), zCut)
  {
    var m := mesh.Data();
    if |m.vertices| == 0 {
      return Err(EmptyMesh);
    }
    var box := new Trimesh(BelowBoxRaw(Bounds(m), zCut));
    var boxTop := Bounds(box.Data()).hi.z;
    box.ApplyTranslation(Vec3(0.0, 0.0, zCut - boxTop));
    r := ManifoldIntersect(lib, m, box.Data());
  }
}
