/** The convert pipeline: rotate the input, decide the module counts, find the
    join plane, keep the body above it, build a tiled base slab from the
    reference tile, align and crop the slab under the body, union the two and
    optionally verify the written output. */
module Pipeline {
  import opened Results
  import opened Numeric
  import opened Meshes
  import opened CrossSection
  import opened FloorDetect
  import opened Footprint
  import opened Cut
  import opened Tile
  import opened Verify

  const PitchSrcDefault: real := 42.0
  const PitchDstDefault: real := 21.0
  /** How far the slab's top reaches into the body below the join plane. */
  const Overlap: real := 0.2
  /** Extra height of the crop box, split evenly above and below. */
  const CropSlack: real := 5.0

  /** The run's settings; the three file paths are left out. */
  datatype PipelineConfig = PipelineConfig(
    preserveFloor: bool,
    floorEpsilonMm: real,
    replaceHeightMm: real,
    refHeightMm: real,
    floorCapMm: real,
    bottomExtensionMm: real,
    modules: string,
    rotate: int,
    exportDebug: bool,
    dryRun: bool,
    verify: bool,
    verifyTolMm: real,
    pitchSrc: real,
    pitchDst: real)

  // ---------------------------------------------------------------------------
  // Planning: counts and planes
  // ---------------------------------------------------------------------------

  /** `rotate_z`: a multiple of a full turn leaves the mesh as it is. */
  function RotateZ(lib: MeshLib, m: MeshData, deg: int): (r: MeshData)
    ensures deg % 360 == 0 ==> r == m
    ensures deg % 360 != 0 ==> r == lib.rotateZ(m, deg)
  {
    if deg % 360 == 0 then m else lib.rotateZ(m, deg)
  }

  /** The source grid's counts: parsed from the setting unless it is "auto",
      else inferred from the footprint at the source pitch. */
  function ModuleCounts(cfg: PipelineConfig, m: MeshData): (r: Result<(int, int)>)
    ensures r.Ok? ==> r.value.0 >= 1 && r.value.1 >= 1
    ensures cfg.modules != "auto" ==> r == ParseModules(cfg.modules)
    ensures cfg.modules == "auto" ==>
      r == if |m.vertices| == 0 then Err(EmptyMesh) else InferModules(m, cfg.pitchSrc, InferTol)
  {
    if cfg.modules != "auto" then ParseModules(cfg.modules)
    else if |m.vertices| == 0 then Err(EmptyMesh)
    else InferModules(m, cfg.pitchSrc, InferTol)
  }

  /** Counts inferred under "auto" fit the input's footprint at the source
      pitch within the inference tolerance. */
  lemma AutoCountsFit(cfg: PipelineConfig, m: MeshData)
    requires cfg.modules == "auto" && |m.vertices| > 0
    ensures ModuleCounts(cfg, m).Ok? ==> FitsFootprint(m, ModuleCounts(cfg, m).value, cfg.pitchSrc, InferTol)
  {
    InferModulesSound(m, cfg.pitchSrc, InferTol);
  }

  /** A footprint that is an exact `n` by `k` multiple of a source pitch wider
      than twice the inference tolerance is inferred as `n` by `k` under "auto". */
  lemma AutoCountsExact(cfg: PipelineConfig, m: MeshData, n: int, k: int)
    requires cfg.modules == "auto" && |m.vertices| > 0
    requires cfg.pitchSrc > 2.0 * InferTol && n >= 1 && k >= 1
    requires Width(Bounds(m)) == n as real * cfg.pitchSrc && Depth(Bounds(m)) == k as real * cfg.pitchSrc
    ensures ModuleCounts(cfg, m) == Ok((n, k))
  {
    var w, d, p := Width(Bounds(m)), Depth(Bounds(m)), cfg.pitchSrc;
    PositiveMultiple(n, p);
    PositiveMultiple(k, p);
    InferCountsComplete(w, d, p, InferTol, n, k);
  }

  lemma PositiveMultiple(n: int, p: real)
    requires n >= 1 && p > 0.0
    ensures n as real * p > 0.0
  {
  }

  /** One target count: `int(round(n * (pitch_src / pitch_dst)))`. */
  function TargetCount(n: int, pitchSrc: real, pitchDst: real): int
    requires pitchDst != 0.0
  {
    RoundHalfEven(n as real * (pitchSrc / pitchDst))
  }

  /** The destination grid's counts; a zero destination pitch is a division by zero. */
  function TargetCounts(n: int, m: int, pitchSrc: real, pitchDst: real): (r: Result<(int, int)>)
    ensures pitchDst == 0.0 <==> r == Err(DivisionByZero)
    ensures r.Ok? ==> pitchDst != 0.0 && r.value == (TargetCount(n, pitchSrc, pitchDst), TargetCount(m, pitchSrc, pitchDst))
  {
    if pitchDst == 0.0 then Err(DivisionByZero)
    else Ok((TargetCount(n, pitchSrc, pitchDst), TargetCount(m, pitchSrc, pitchDst)))
  }

  /** When the source pitch is a whole multiple `k` of the destination pitch,
      each count is multiplied by `k`. */
  lemma TargetCountMultiple(n: int, pitchSrc: real, pitchDst: real, k: int)
    requires pitchDst != 0.0 && pitchSrc == k as real * pitchDst
    ensures TargetCount(n, pitchSrc, pitchDst) == n * k
  {
    assert pitchSrc / pitchDst == k as real;
    assert n as real * (pitchSrc / pitchDst) == (n * k) as real;
    RoundOfInteger(n * k);
  }

  /** With the default pitches (42 mm to 21 mm) every count doubles. */
  lemma DefaultPitchesDouble(n: int, m: int)
    ensures TargetCounts(n, m, PitchSrcDefault, PitchDstDefault) == Ok((2 * n, 2 * m))
  {
    TargetCountMultiple(n, PitchSrcDefault, PitchDstDefault, 2);
    TargetCountMultiple(m, PitchSrcDefault, PitchDstDefault, 2);
  }

  /** The area function the floor search samples. */
  function SectionArea(lib: MeshLib, m: MeshData): real -> real {
    (z: real) => AreaAtZ(lib, m, z)
  }

  /** `detect_floor_z(mesh)` with its default parameters, asked for only when
      the floor is preserved. */
  function FloorCandidate(lib: MeshLib, cfg: PipelineConfig, m: MeshData): Option<real>
    requires |m.vertices| > 0
  {
    if cfg.preserveFloor
    then FloorZ(SectionArea(lib, m), m, DefaultSearchMax, DefaultStep, DefaultAreaRatio, DefaultStableSteps)
    else None
  }

  /** `(z_join, z_cut_body)`: a preserved, detected floor is the join plane and
      the body is cut `floor_epsilon_mm` below it; otherwise both planes lie
      `replace_height_mm` above the lowest point. */
  function JoinPlanes(cfg: PipelineConfig, zmin: real, floor: Option<real>): (real, real) {
    if cfg.preserveFloor && floor.Some? then (floor.value, floor.value - cfg.floorEpsilonMm)
    else (zmin + cfg.replaceHeightMm, zmin + cfg.replaceHeightMm)
  }

  /** The join plane is the detected floor exactly when the floor is preserved
      and one was found; the body cut lies on or below the join plane whenever
      the epsilon is not negative. */
  lemma JoinPlanesProperties(cfg: PipelineConfig, zmin: real, floor: Option<real>)
    ensures cfg.preserveFloor && floor.Some? ==>
      JoinPlanes(cfg, zmin, floor).0 == floor.value &&
      JoinPlanes(cfg, zmin, floor).0 - JoinPlanes(cfg, zmin, floor).1 == cfg.floorEpsilonMm
    ensures !(cfg.preserveFloor && floor.Some?) ==>
      JoinPlanes(cfg, zmin, floor).0 == JoinPlanes(cfg, zmin, floor).1 == zmin + cfg.replaceHeightMm
    ensures cfg.floorEpsilonMm >= 0.0 ==> JoinPlanes(cfg, zmin, floor).1 <= JoinPlanes(cfg, zmin, floor).0
  {
  }

  /** The reference slice height, never more than the height being replaced. */
  function ClampRefHeight(refHeight: real, effectiveHeight: real): (h: real)
    ensures h <= effectiveHeight && h <= refHeight
    ensures h == refHeight || h == effectiveHeight
  {
    if refHeight > effectiveHeight then effectiveHeight else refHeight
  }

  /** The clamp is the minimum of the two heights. */
  lemma ClampIsMin(refHeight: real, effectiveHeight: real)
    ensures ClampRefHeight(refHeight, effectiveHeight) == Min(refHeight, effectiveHeight)
  {
  }

  /** The numbers fixed before any mesh is cut, as the run summary reports them.
      `floor` is only there to say where `zJoin` came from. */
  datatype RunPlan = RunPlan(
    n: int, m: int, n2: int, m2: int,
    zmin: real, floor: Option<real>, zJoin: real, zCutBody: real, effectiveReplaceHeight: real)

  /** Everything the pipeline decides from the settings and the rotated input
      mesh before cutting: counts, target counts, lowest point, join plane and
      body cut plane. */
  function Plan(lib: MeshLib, cfg: PipelineConfig, mesh: MeshData): (r: Result<RunPlan>)
    ensures r.Ok? ==> |mesh.vertices| > 0
    ensures r.Ok? ==> r.value.n >= 1 && r.value.m >= 1
    ensures r.Ok? ==> r.value.effectiveReplaceHeight == r.value.zJoin - r.value.zmin
    ensures r.Ok? ==> (r.value.zJoin, r.value.zCutBody) == JoinPlanes(cfg, r.value.zmin, r.value.floor)
  {
    match ModuleCounts(cfg, mesh)
    case Err(e) => Err(e)
    case Ok(counts) =>
      match TargetCounts(counts.0, counts.1, cfg.pitchSrc, cfg.pitchDst)
      case Err(e) => Err(e)
      case Ok(target) =>
        if |mesh.vertices| == 0 then Err(EmptyMesh)
        else
          var zmin := MeshMinZ(mesh);
          var floor := FloorCandidate(lib, cfg, mesh);
          var planes := JoinPlanes(cfg, zmin, floor);
          Ok(RunPlan(counts.0, counts.1, target.0, target.1, zmin, floor, planes.0, planes.1, planes.0 - zmin))
  }

  /** A plan exists exactly when the counts can be read or inferred, the
      destination pitch is not zero and the mesh has vertices; its fields are
      then the counts, the target counts, the lowest point and the floor
      candidate of the input. */
  lemma PlanInputs(lib: MeshLib, cfg: PipelineConfig, mesh: MeshData)
    ensures var r := Plan(lib, cfg, mesh);
      r.Ok? ==>
        ModuleCounts(cfg, mesh) == Ok((r.value.n, r.value.m)) &&
        TargetCounts(r.value.n, r.value.m, cfg.pitchSrc, cfg.pitchDst) == Ok((r.value.n2, r.value.m2)) &&
        r.value.zmin == MeshMinZ(mesh) && r.value.floor == FloorCandidate(lib, cfg, mesh)
    ensures Plan(lib, cfg, mesh).Ok? <==> ModuleCounts(cfg, mesh).Ok? && cfg.pitchDst != 0.0 && |mesh.vertices| > 0
    ensures ModuleCounts(cfg, mesh).Err? ==> Plan(lib, cfg, mesh) == Err(ModuleCounts(cfg, mesh).error)
  {
  }

  /** Without floor preservation both planes are `replace_height_mm` above the
      lowest point, and the replaced height is exactly that setting. */
  lemma PlanWithoutPreserve(lib: MeshLib, cfg: PipelineConfig, mesh: MeshData)
    requires !cfg.preserveFloor && Plan(lib, cfg, mesh).Ok?
    ensures var p := Plan(lib, cfg, mesh).value;
      p.zJoin == p.zCutBody == p.zmin + cfg.replaceHeightMm &&
      p.effectiveReplaceHeight == cfg.replaceHeightMm && p.floor.None?
  {
  }

  /** With floor preservation a detected floor becomes the join plane, and it
      lies inside the scanned band above the lowest point. */
  lemma PlanUsesFloor(lib: MeshLib, cfg: PipelineConfig, mesh: MeshData)
    requires cfg.preserveFloor && Plan(lib, cfg, mesh).Ok? && Plan(lib, cfg, mesh).value.floor.Some?
    ensures var p := Plan(lib, cfg, mesh).value;
      p.zJoin == p.floor.value && p.zCutBody == p.zJoin - cfg.floorEpsilonMm &&
      p.zmin + 0.5 <= p.zJoin < p.zmin + DefaultSearchMax
  {
    var p := Plan(lib, cfg, mesh).value;
    if |mesh.vertices| > 0 {
      FloorZRange(SectionArea(lib, mesh), mesh, DefaultSearchMax, DefaultStep, DefaultAreaRatio, DefaultStableSteps);
    }
  }

  // ---------------------------------------------------------------------------
  // The slab: placement, cap and crop
  // ---------------------------------------------------------------------------

  /** Move the slab's XY centre onto the body's, then its top to `Overlap`
      below the join plane, then down by the bottom extension when it is set. */
  function AlignSlab(slab: MeshData, body: Box3, zJoin: real, bottomExtension: real): (r: MeshData)
    requires |slab.vertices| > 0
    ensures |r.vertices| == |slab.vertices|
  {
    var c := MeshCenterXY(slab);
    var s1 := Translate(slab, Vec3(CenterX(body) - c.x, CenterY(body) - c.y, 0.0));
    var s2 := Translate(s1, Vec3(0.0, 0.0, (zJoin - Bounds(s1).hi.z) - Overlap));
    if bottomExtension != 0.0 then Translate(s2, Vec3(0.0, 0.0, -bottomExtension)) else s2
  }

  /** The aligned slab is centred on the body, its top lies `Overlap` plus the
      bottom extension below the join plane, and its height is unchanged. */
  lemma AlignSlabBounds(slab: MeshData, body: Box3, zJoin: real, bottomExtension: real)
    requires |slab.vertices| > 0
    ensures |AlignSlab(slab, body, zJoin, bottomExtension).vertices| > 0
    ensures var a := Bounds(AlignSlab(slab, body, zJoin, bottomExtension));
      CenterX(a) == CenterX(body) && CenterY(a) == CenterY(body) &&
      a.hi.z == zJoin - Overlap - bottomExtension &&
      a.hi.z - a.lo.z == Bounds(slab).hi.z - Bounds(slab).lo.z
  {
    var c := MeshCenterXY(slab);
    var t1 := Vec3(CenterX(body) - c.x, CenterY(body) - c.y, 0.0);
    var s1 := Translate(slab, t1);
    TranslateBounds(slab, t1);
    var t2 := Vec3(0.0, 0.0, (zJoin - Bounds(s1).hi.z) - Overlap);
    var s2 := Translate(s1, t2);
    TranslateBounds(s1, t2);
    if bottomExtension != 0.0 {
      TranslateBounds(s2, Vec3(0.0, 0.0, -bottomExtension));
    }
  }

  /** The cap's height: the larger of the floor cap and the bottom extension. */
  function CapHeight(floorCap: real, bottomExtension: real): real {
    Max(floorCap, bottomExtension)
  }

  /** The solid cap added under the join plane when the floor is not preserved. */
  function CapBox(body: Box3, zJoin: real, floorCap: real, bottomExtension: real): MeshData {
    var top := zJoin - Overlap;
    var h := CapHeight(floorCap, bottomExtension);
    BoxMesh(Vec3(Width(body), Depth(body), h), Vec3(CenterX(body), CenterY(body), (top + (top - h)) / 2.0))
  }

  /** The cap covers exactly the body's footprint; with a height that is not
      negative its top lies `Overlap` below the join plane and its bottom one
      cap height lower. */
  lemma CapBoxBounds(body: Box3, zJoin: real, floorCap: real, bottomExtension: real)
    requires body.lo.x <= body.hi.x && body.lo.y <= body.hi.y
    ensures |CapBox(body, zJoin, floorCap, bottomExtension).vertices| > 0
    ensures var c := Bounds(CapBox(body, zJoin, floorCap, bottomExtension));
      c.lo.x == body.lo.x && c.hi.x == body.hi.x && c.lo.y == body.lo.y && c.hi.y == body.hi.y
    ensures CapHeight(floorCap, bottomExtension) >= 0.0 ==>
      var c := Bounds(CapBox(body, zJoin, floorCap, bottomExtension));
      c.hi.z == zJoin - Overlap && c.lo.z == zJoin - Overlap - CapHeight(floorCap, bottomExtension)
  {
    var top := zJoin - Overlap;
    var h := CapHeight(floorCap, bottomExtension);
    BoxBounds(Vec3(Width(body), Depth(body), h), Vec3(CenterX(body), CenterY(body), (top + (top - h)) / 2.0));
  }

  /** The box the finished slab is intersected with. */
  function CropBox(body: Box3, zmin: real, zJoin: real, bottomExtension: real): MeshData {
    var height := (zJoin - zmin) + bottomExtension + CropSlack;
    BoxMesh(Vec3(Width(body), Depth(body), height), Vec3(CenterX(body), CenterY(body), (zmin - bottomExtension + zJoin) / 2.0))
  }

  /** The crop covers exactly the body's footprint and, when its height is not
      negative, reaches half the slack below the extended bottom and half the
      slack above the join plane: the slab never spills past the body's sides. */
  lemma CropBoxBounds(body: Box3, zmin: real, zJoin: real, bottomExtension: real)
    requires body.lo.x <= body.hi.x && body.lo.y <= body.hi.y
    ensures |CropBox(body, zmin, zJoin, bottomExtension).vertices| > 0
    ensures var c := Bounds(CropBox(body, zmin, zJoin, bottomExtension));
      c.lo.x == body.lo.x && c.hi.x == body.hi.x && c.lo.y == body.lo.y && c.hi.y == body.hi.y
    ensures (zJoin - zmin) + bottomExtension + CropSlack >= 0.0 ==>
      var c := Bounds(CropBox(body, zmin, zJoin, bottomExtension));
      c.lo.z == zmin - bottomExtension - CropSlack / 2.0 && c.hi.z == zJoin + CropSlack / 2.0
  {
    BoxBounds(Vec3(Width(body), Depth(body), (zJoin - zmin) + bottomExtension + CropSlack),
      Vec3(CenterX(body), CenterY(body), (zmin - bottomExtension + zJoin) / 2.0));
  }

  /** Cap (only without floor preservation), then crop to the body's footprint. */
  function FinishSlab(lib: MeshLib, cfg: PipelineConfig, aligned: MeshData, body: Box3, zmin: real, zJoin: real): (r: Result<MeshData>)
    ensures r.Err? ==> r.error.BooleanFailed?
    ensures cfg.preserveFloor ==> r == ManifoldIntersect(lib, aligned, CropBox(body, zmin, zJoin, cfg.bottomExtensionMm))
    ensures !cfg.preserveFloor ==>
      r == match ManifoldUnion(lib, aligned, CapBox(body, zJoin, cfg.floorCapMm, cfg.bottomExtensionMm))
           case Err(e) => Err(e)
           case Ok(capped) => ManifoldIntersect(lib, capped, CropBox(body, zmin, zJoin, cfg.bottomExtensionMm))
  {
    var capped :=
      if cfg.preserveFloor then Ok(aligned)
      else ManifoldUnion(lib, aligned, CapBox(body, zJoin, cfg.floorCapMm, cfg.bottomExtensionMm));
    match capped
    case Err(e) => Err(e)
    case Ok(c) => ManifoldIntersect(lib, c, CropBox(body, zmin, zJoin, cfg.bottomExtensionMm))
  }

  /** The whole slab: slice the reference to the clamped height above its
      lowest point, tile it at the destination pitch, align it under the body,
      cap and crop. An empty tiling has no centre (the source fails on it). */
  function BuildSlab(lib: MeshLib, cfg: PipelineConfig, ref: MeshData, p: RunPlan, body: Box3): (r: Result<MeshData>)
    requires |ref.vertices| > 0
    ensures r.Err? ==> r.error == EmptyMesh || r.error.BooleanFailed?
  {
    var refHeight := ClampRefHeight(cfg.refHeightMm, p.effectiveReplaceHeight);
    match KeepBelow(lib, ref, MeshMinZ(ref) + refHeight)
    case Err(e) => Err(e)
    case Ok(slice) =>
      var tiled := TileSlab(lib, slice, p.n2, p.m2, cfg.pitchDst);
      if |tiled.vertices| == 0 then Err(EmptyMesh)
      else FinishSlab(lib, cfg, AlignSlab(tiled, body, p.zJoin, cfg.bottomExtensionMm), body, p.zmin, p.zJoin)
  }

  /** A slab built is the reference cut below its lowest point plus the
      smaller of the reference height and the replaced height, tiled `n2` by
      `m2` at the destination pitch into a non-empty mesh, aligned under the
      body, then capped and cropped. */
  lemma BuildSlabSteps(lib: MeshLib, cfg: PipelineConfig, ref: MeshData, p: RunPlan, body: Box3)
    requires |ref.vertices| > 0
    ensures var slice := KeepBelow(lib, ref, MeshMinZ(ref) + Min(cfg.refHeightMm, p.effectiveReplaceHeight));
      BuildSlab(lib, cfg, ref, p, body).Ok? ==> (slice.Ok? &&
        var tiled := TileSlab(lib, slice.value, p.n2, p.m2, cfg.pitchDst);
        |tiled.vertices| > 0 &&
        BuildSlab(lib, cfg, ref, p, body) ==
          FinishSlab(lib, cfg, AlignSlab(tiled, body, p.zJoin, cfg.bottomExtensionMm), body, p.zmin, p.zJoin))
  {
    ClampIsMin(cfg.refHeightMm, p.effectiveReplaceHeight);
  }

  /** A zero or negative target count tiles nothing, and the run cannot place a slab. */
  lemma NoTilesNoSlab(lib: MeshLib, cfg: PipelineConfig, ref: MeshData, p: RunPlan, body: Box3)
    requires |ref.vertices| > 0 && (p.n2 <= 0 || p.m2 <= 0)
    requires forall m: MeshData :: |m.vertices| == 0 ==> |lib.mergeVertices(m).vertices| == 0
    ensures BuildSlab(lib, cfg, ref, p, body).Err?
  {
    NegativeCountIsEmpty(p.n2, p.m2, cfg.pitchDst);
  }

  // ---------------------------------------------------------------------------
  // The run
  // ---------------------------------------------------------------------------

  /** What the run does outside itself, in order. */
  datatype Effect =
    | DebugExport(body: MeshData, slab: MeshData)
    | OutputWritten(result: MeshData)
    | Verified(stats: VerifyStats)

  /** A finished run: its plan, the body, the slab and (unless dry) the union. */
  datatype Outcome = Outcome(plan: RunPlan, body: MeshData, slab: MeshData, result: Option<MeshData>)

  /** The planning steps of `run`, with the floor search done by its loop. */
  method PlanRun(lib: MeshLib, cfg: PipelineConfig, mesh: MeshData) returns (r: Result<RunPlan>)
    ensures r == Plan(lib, cfg, mesh)
  {
    match ModuleCounts(cfg, mesh) {
      case Err(e) => r := Err(e);
      case Ok(counts) =>
        match TargetCounts(counts.0, counts.1, cfg.pitchSrc, cfg.pitchDst) {
          case Err(e) => r := Err(e);
          case Ok(target) =>
            if |mesh.vertices| == 0 {
              r := Err(EmptyMesh);
            } else {
              var zmin := MeshMinZ(mesh);
              var floor := FindFloor(lib, cfg, mesh);
              var planes := JoinPlanes(cfg, zmin, floor);
              PlanOfParts(lib, cfg, mesh, counts, target);
              r := Ok(RunPlan(counts.0, counts.1, target.0, target.1, zmin, floor, planes.0, planes.1, planes.0 - zmin));
            }
        }
    }
  }

  /** The plan built from successful counts and target counts of a non-empty mesh. */
  lemma PlanOfParts(lib: MeshLib, cfg: PipelineConfig, mesh: MeshData, counts: (int, int), target: (int, int))
    requires ModuleCounts(cfg, mesh) == Ok(counts) && |mesh.vertices| > 0
    requires TargetCounts(counts.0, counts.1, cfg.pitchSrc, cfg.pitchDst) == Ok(target)
    ensures var zmin, floor := MeshMinZ(mesh), FloorCandidate(lib, cfg, mesh);
      var planes := JoinPlanes(cfg, zmin, floor);
      Plan(lib, cfg, mesh) == Ok(RunPlan(counts.0, counts.1, target.0, target.1, zmin, floor, planes.0, planes.1, planes.0 - zmin))
  {
  }

  /** The floor search of `run`: the detector's loop when the floor is to be
      preserved, no floor otherwise. */
  method FindFloor(lib: MeshLib, cfg: PipelineConfig, mesh: MeshData) returns (floor: Option<real>)
    requires |mesh.vertices| > 0
    ensures floor == FloorCandidate(lib, cfg, mesh)
    ensures !cfg.preserveFloor ==> floor.None?
  {
    floor := None;
    if cfg.preserveFloor {
      floor := DetectFloorZ(SectionArea(lib, mesh), mesh, DefaultSearchMax, DefaultStep, DefaultAreaRatio, DefaultStableSteps);
    }
  }

  /** The placement steps of `run` on the slab object: three translations in place. */
  method AlignInPlace(slab: Trimesh, body: Box3, zJoin: real, bottomExtension: real)
    requires |slab.vertices| > 0
    modifies slab
    ensures |old(slab.Data()).vertices| > 0
    ensures slab.Data() == AlignSlab(old(slab.Data()), body, zJoin, bottomExtension)
  {
    var c := MeshCenterXY(slab.Data());
    slab.ApplyTranslation(Vec3(CenterX(body) - c.x, CenterY(body) - c.y, 0.0));
    var slabTop := Bounds(slab.Data()).hi.z;
    slab.ApplyTranslation(Vec3(0.0, 0.0, (zJoin - slabTop) - Overlap));
    if bottomExtension != 0.0 {
      slab.ApplyTranslation(Vec3(0.0, 0.0, -bottomExtension));
    }
  }

  /** The slab steps of `run` on mesh objects: slice, tile, translate in place,
      cap and crop. */
  method MakeSlab(lib: MeshLib, cfg: PipelineConfig, ref: MeshData, p: RunPlan, body: Box3) returns (r: Result<MeshData>)
    requires |ref.vertices| > 0
    ensures r == BuildSlab(lib, cfg, ref, p, body)
  {
    var refHeight := ClampRefHeight(cfg.refHeightMm, p.effectiveReplaceHeight);
    var refObj := new Trimesh(ref);
    var slice := CutKeepBelow(lib, refObj, MeshMinZ(ref) + refHeight);
    if slice.Err? {
      return Err(slice.error);
    }
    var sliceObj := new Trimesh(slice.value);
    var slab := TileReference(lib, sliceObj, p.n2, p.m2, cfg.pitchDst);
    if |slab.vertices| == 0 {
      return Err(EmptyMesh);
    }
    AlignInPlace(slab, body, p.zJoin, cfg.bottomExtensionMm);
    r := FinishSlab(lib, cfg, slab.Data(), body, p.zmin, p.zJoin);
  }

  /** The stages of `run` before any output: plan, body, reference check and
      slab, as a dry run leaves them. */
  function Prepare(lib: MeshLib, cfg: PipelineConfig, mesh: MeshData, ref: MeshData): (r: Result<Outcome>)
    ensures r.Ok? ==> r.value.result.None?
  {
    match Plan(lib, cfg, mesh)
    case Err(e) => Err(e)
    case Ok(p) =>
      match KeepAbove(lib, mesh, p.zCutBody)
      case Err(e) => Err(e)
      case Ok(body) =>
        if |body.vertices| == 0 || |ref.vertices| == 0 then Err(EmptyMesh)
        else
          match ValidateRefTilePitch(ref, cfg.pitchDst, RefPitchTol)
          case Err(e) => Err(e)
          case Ok(_) =>
            match BuildSlab(lib, cfg, ref, p, Bounds(body))
            case Err(e) => Err(e)
            case Ok(slab) => Ok(Outcome(p, body, slab, None))
  }

  /** A prepared run holds the plan of the rotated mesh, the body is the part
      above the body cut plane, the reference passed its pitch check, and the
      slab was built under that body. */
  lemma PrepareProperties(lib: MeshLib, cfg: PipelineConfig, mesh: MeshData, ref: MeshData)
    requires Prepare(lib, cfg, mesh, ref).Ok?
    ensures var o := Prepare(lib, cfg, mesh, ref).value;
      Plan(lib, cfg, mesh) == Ok(o.plan) &&
      KeepAbove(lib, mesh, o.plan.zCutBody) == Ok(o.body) &&
      |o.body.vertices| > 0 && |ref.vertices| > 0 &&
      ValidateRefTilePitch(ref, cfg.pitchDst, RefPitchTol).Ok? &&
      BuildSlab(lib, cfg, ref, o.plan, Bounds(o.body)) == Ok(o.slab)
  {
  }

  /** The stages of `run` before any output, on mesh objects. */
  method PrepareRun(lib: MeshLib, cfg: PipelineConfig, mesh: MeshData, ref: MeshData) returns (r: Result<Outcome>)
    ensures r == Prepare(lib, cfg, mesh, ref)
  {
    var plan := PlanRun(lib, cfg, mesh);
    if plan.Err? {
      return Err(plan.error);
    }
    var p := plan.value;
    var meshObj := new Trimesh(mesh);
    var cut := CutKeepAbove(lib, meshObj, p.zCutBody);
    if cut.Err? {
      return Err(cut.error);
    }
    var body := cut.value;
    if |body.vertices| == 0 || |ref.vertices| == 0 {
      return Err(EmptyMesh);
    }
    var valid := ValidateRefTilePitch(ref, cfg.pitchDst, RefPitchTol);
    if valid.Err? {
      return Err(valid.error);
    }
    var slab := MakeSlab(lib, cfg, ref, p, Bounds(body));
    if slab.Err? {
      return Err(slab.error);
    }
    r := Ok(Outcome(p, body, slab.value, None));
  }

  /** The verification `run` asks for once the union is written. */
  function CheckOutput(lib: MeshLib, cfg: PipelineConfig, mesh: MeshData, o: Outcome, result: MeshData): Result<VerifyStats> {
    VerifyAbovePlane(lib, mesh, result, o.plan.zJoin, cfg.verifyTolMm, VerifySampleCount)
  }

  /** The steps of `run` after the slab is built: the debug export (always
      on a dry run), then, unless dry, the union, its export and the optional
      verification of what was written. */
  function Finish(lib: MeshLib, cfg: PipelineConfig, mesh: MeshData, o: Outcome): (Result<Outcome>, seq<Effect>) {
    var debug := if cfg.exportDebug || cfg.dryRun then [DebugExport(o.body, o.slab)] else [];
    if cfg.dryRun then (Ok(o), debug)
    else
      match ManifoldUnion(lib, o.body, o.slab)
      case Err(e) => (Err(e), debug)
      case Ok(result) =>
        var written := debug + [OutputWritten(result)];
        if !cfg.verify then (Ok(o.(result := Some(result))), written)
        else
          match CheckOutput(lib, cfg, mesh, o, result)
          case Err(e) => (Err(e), written)
          case Ok(stats) => (Ok(o.(result := Some(result))), written + [Verified(stats)])
  }

  /** The order of the run's effects: a dry run only exports the debug meshes
      and carries no union; otherwise the debug export (when asked for) comes
      first, the output is written once the union succeeds, and the
      verification comes only after the write and only passes; a failure after
      the write is the verification's, with the output left in place. */
  lemma FinishOrdering(lib: MeshLib, cfg: PipelineConfig, mesh: MeshData, o: Outcome)
    requires o.result.None?
    ensures var (r, log) := Finish(lib, cfg, mesh, o);
      cfg.dryRun ==> r == Ok(o) && log == [DebugExport(o.body, o.slab)]
    ensures var (r, log) := Finish(lib, cfg, mesh, o);
      r.Ok? ==> r.value.(result := None) == o && (r.value.result.None? <==> cfg.dryRun)
    ensures var (r, log) := Finish(lib, cfg, mesh, o);
      r.Ok? && !cfg.dryRun ==>
        ManifoldUnion(lib, o.body, o.slab) == Ok(r.value.result.value) &&
        (cfg.verify ==> CheckOutput(lib, cfg, mesh, o, r.value.result.value).Ok?) &&
        log == (if cfg.exportDebug then [DebugExport(o.body, o.slab)] else []) +
               [OutputWritten(r.value.result.value)] +
               (if cfg.verify then [Verified(CheckOutput(lib, cfg, mesh, o, r.value.result.value).value)] else [])
    ensures var (r, log) := Finish(lib, cfg, mesh, o);
      forall i :: 0 <= i < |log| && log[i].Verified? ==> 0 < i && log[i - 1].OutputWritten? && log[i].stats.passed
    ensures var (r, log) := Finish(lib, cfg, mesh, o);
      r.Err? && (exists i :: 0 <= i < |log| && log[i].OutputWritten?) ==>
        cfg.verify && log[|log| - 1].OutputWritten? &&
        r == Err(CheckOutput(lib, cfg, mesh, o, log[|log| - 1].result).error)
  {
  }

  /** The finishing steps of `run`, appending each effect as it happens. */
  method FinishRun(lib: MeshLib, cfg: PipelineConfig, mesh: MeshData, o: Outcome) returns (r: Result<Outcome>, log: seq<Effect>)
    ensures (r, log) == Finish(lib, cfg, mesh, o)
  {
    log := if cfg.exportDebug || cfg.dryRun then [DebugExport(o.body, o.slab)] else [];
    if cfg.dryRun {
      return Ok(o), log;
    }
    var union := ManifoldUnion(lib, o.body, o.slab);
    if union.Err? {
      return Err(union.error), log;
    }
    log := log + [OutputWritten(union.value)];
    if cfg.verify {
      var check := CheckOutput(lib, cfg, mesh, o, union.value);
      if check.Err? {
        return Err(check.error), log;
      }
      log := log + [Verified(check.value)];
    }
    r := Ok(o.(result := Some(union.value)));
  }

  /** `run` on an already loaded input and reference mesh: rotate, prepare,
      then finish with the union, its export and the optional verification. */
  method Run(lib: MeshLib, cfg: PipelineConfig, input: MeshData, ref: MeshData) returns (r: Result<Outcome>, log: seq<Effect>)
    ensures var mesh := RotateZ(lib, input, cfg.rotate);
      var prep := Prepare(lib, cfg, mesh, ref);
      (r, log) == if prep.Err? then (Err(prep.error), []) else Finish(lib, cfg, mesh, prep.value)
  {
    var mesh := RotateZ(lib, input, cfg.rotate);
    var prep := PrepareRun(lib, cfg, mesh, ref);
    if prep.Err? {
      return Err(prep.error), [];
    }
    r, log := FinishRun(lib, cfg, mesh, prep.value);
  }
}
