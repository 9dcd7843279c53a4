/** Interior-floor detection: sample the horizontal cross-section area at
    evenly spaced heights above the mesh bottom, and report the first height
    from which `stable_steps` consecutive samples all reach `area_ratio`
    times the largest area. The area sampler `_cross_section_area_at_z(mesh, .)`
    is the parameter `areaAt`; `CrossSection.AreaAtZ(lib, mesh, .)` is the
    sampler the converter uses. */
module FloorDetect {
  import opened Results
  import opened Numeric
  import opened Meshes
  import opened CrossSection

  /** Default search depth above the bottom, sampling step, area ratio and window length. */
  const DefaultSearchMax: real := 15.0
  const DefaultStep: real := 0.2
  const DefaultAreaRatio: real := 0.9
  const DefaultStableSteps: nat := 3

  /** Sample `k` of `np.arange(z_start, z_end, step)`. */
  function Height(zStart: real, step: real, k: nat): real {
    zStart + k as real * step
  }

  /** Smallest integer not below `q`. */
  function Ceil(q: real): (c: int)
    ensures c as real - 1.0 < q <= c as real
  {
    if q.Floor as real == q then q.Floor else q.Floor + 1
  }

  /** `len(np.arange(z_start, z_end, step))`: exactly the indices whose height
      lies strictly before `z_end` (after it, for a negative step). */
  function SampleCount(zStart: real, zEnd: real, step: real): (n: nat)
    requires step != 0.0
    ensures step > 0.0 ==> forall k: nat :: k < n <==> Height(zStart, step, k) < zEnd
    ensures step < 0.0 ==> forall k: nat :: k < n <==> Height(zStart, step, k) > zEnd
  {
    var q := (zEnd - zStart) / step;
    var n: nat := if q <= 0.0 then 0 else Ceil(q);
    assert q * step == zEnd - zStart;
    if step > 0.0 then
      assert forall k: nat :: k < n <==> Height(zStart, step, k) < zEnd by {
        forall k: nat ensures k < n <==> Height(zStart, step, k) < zEnd {
          CountBelow(n, q, k);
          HeightBelow(zStart, zEnd, step, q, k);
        }
      }
      n
    else
      assert forall k: nat :: k < n <==> Height(zStart, step, k) > zEnd by {
        forall k: nat ensures k < n <==> Height(zStart, step, k) > zEnd {
          CountBelow(n, q, k);
          HeightAbove(zStart, zEnd, step, q, k);
        }
      }
      n
  }

  /** The count `n` of `SampleCount` is the number of naturals below `q`. */
  lemma CountBelow(n: nat, q: real, k: nat)
    requires (q <= 0.0 && n == 0) || (q > 0.0 && n as real - 1.0 < q <= n as real)
    ensures k < n <==> (k as real) < q
  {
    if k < n { assert k as real <= n as real - 1.0; }
  }

  /** With a positive step, sample `k` is below `z_end` exactly when `k < q`. */
  lemma HeightBelow(zStart: real, zEnd: real, step: real, q: real, k: nat)
    requires step > 0.0 && q * step == zEnd - zStart
    ensures (k as real) < q <==> Height(zStart, step, k) < zEnd
  {
    ScaleLess(k as real, q, step);
  }

  /** With a negative step, sample `k` is above `z_end` exactly when `k < q`. */
  lemma HeightAbove(zStart: real, zEnd: real, step: real, q: real, k: nat)
    requires step < 0.0 && q * step == zEnd - zStart
    ensures (k as real) < q <==> Height(zStart, step, k) > zEnd
  {
    ScaleLess(k as real, q, -step);
    assert q * -step == zStart - zEnd;
    assert k as real * -step == -(k as real * step);
  }

  /** The areas at the sampled heights. */
  function SampledAreas(areaAt: real -> real, zStart: real, step: real, n: nat): (areas: seq<real>)
    ensures |areas| == n
  {
    seq(n, k requires 0 <= k < n => areaAt(Height(zStart, step, k)))
  }

  /** `np.all(areas[i : i + s] >= threshold)`. */
  predicate WindowOk(areas: seq<real>, i: nat, s: nat, threshold: real)
    requires i + s <= |areas|
  {
    forall j :: i <= j < i + s ==> areas[j] >= threshold
  }

  /** The window loop `for i in range(len(areas) - s + 1)` from `i` on: the
      first qualifying window start, with no qualifying start before it. */
  function FirstWindow(areas: seq<real>, s: nat, threshold: real, i: nat): (r: Option<nat>)
    requires s <= |areas| && i <= |areas| - s + 1
    ensures r.Some? ==> i <= r.value && r.value + s <= |areas| && WindowOk(areas, r.value, s, threshold)
    ensures r.Some? ==> forall j :: i <= j < r.value ==> !WindowOk(areas, j, s, threshold)
    ensures r.None? ==> forall j :: i <= j && j + s <= |areas| ==> !WindowOk(areas, j, s, threshold)
    decreases |areas| - s + 1 - i
  {
    if i == |areas| - s + 1 then None
    else if WindowOk(areas, i, s, threshold) then Some(i)
    else FirstWindow(areas, s, threshold, i + 1)
  }

  /** `area_ratio * max_area`. */
  function Threshold(areas: seq<real>, ratio: real): real
    requires |areas| > 0
  {
    ratio * MaxOf(areas)
  }

  /** The decision on the sampled areas: no samples, no positive area, or a
      window longer than the samples give no floor; otherwise the first
      window at or above `ratio` times the largest area. */
  function FloorIndex(areas: seq<real>, ratio: real, s: nat): Option<nat> {
    if |areas| == 0 || MaxOf(areas) <= 0.0 || s > |areas| then None
    else FirstWindow(areas, s, Threshold(areas, ratio), 0)
  }

  /** Bottom of the scanned range: half a millimetre above the mesh bottom. */
  function ScanStart(m: MeshData): real
    requires |m.vertices| > 0
  {
    Bounds(m).lo.z + 0.5
  }

  /** Top of the scanned range: the search depth above the bottom, but
      never closer than 0.01 to the mesh top. */
  function ScanEnd(m: MeshData, zSearchMax: real): real
    requires |m.vertices| > 0
  {
    Min(Bounds(m).lo.z + zSearchMax, Bounds(m).hi.z - 0.01)
  }

  /** The sampled areas `detect_floor_z` sees. */
  function ScanAreas(areaAt: real -> real, m: MeshData, zSearchMax: real, step: real): seq<real>
    requires |m.vertices| > 0 && step != 0.0
  {
    SampledAreas(areaAt, ScanStart(m), step, SampleCount(ScanStart(m), ScanEnd(m, zSearchMax), step))
  }

  /** `detect_floor_z` as a value. */
  function FloorZ(areaAt: real -> real, m: MeshData, zSearchMax: real, step: real, ratio: real, s: nat): Option<real>
    requires |m.vertices| > 0 && step != 0.0
  {
    if ScanEnd(m, zSearchMax) <= ScanStart(m) then None
    else
      match FloorIndex(ScanAreas(areaAt, m, zSearchMax, step), ratio, s)
      case None => None
      case Some(i) => Some(Height(ScanStart(m), step, i))
  }

  /** The loop `for z in z_values: areas.append(_cross_section_area_at_z(mesh, z))`. */
  method SampleAreas(areaAt: real -> real, zStart: real, step: real, n: nat) returns (areas: seq<real>)
    ensures areas == SampledAreas(areaAt, zStart, step, n)
  {
    areas := [];
    for k := 0 to n
      invariant areas == SampledAreas(areaAt, zStart, step, k)
    {
      areas := areas + [areaAt(Height(zStart, step, k))];
    }
  }

  /** The loop `for i in range(len(areas) - stable_steps + 1)` that returns
      at the first window whose areas all reach the threshold. */
  method FirstStableWindow(areas: seq<real>, s: nat, threshold: real) returns (r: Option<nat>)
    ensures r == if s <= |areas| then FirstWindow(areas, s, threshold, 0) else None
  {
    var n := |areas|;
    var i := 0;
    while i < n - s + 1
      invariant s <= n ==> i <= n - s + 1 && FirstWindow(areas, s, threshold, i) == FirstWindow(areas, s, threshold, 0)
    {
      if WindowOk(areas, i, s, threshold) {
        return Some(i);
      }
      i := i + 1;
    }
    return None;
  }

  /** `detect_floor_z(mesh, z_search_max, step, area_ratio, stable_steps)`. */
  method DetectFloorZ(areaAt: real -> real, m: MeshData, zSearchMax: real, step: real, ratio: real, s: nat)
    returns (r: Option<real>)
    requires |m.vertices| > 0 && step != 0.0
    ensures r == FloorZ(areaAt, m, zSearchMax, step, ratio, s)
  {
    var b := Bounds(m);
    var zmin := b.lo.z;
    var zStart := zmin + 0.5;
    var zEnd := Min(zmin + zSearchMax, b.hi.z - 0.01);
    if zEnd <= zStart {
      return None;
    }
    var n := SampleCount(zStart, zEnd, step);
    var areas := SampleAreas(areaAt, zStart, step, n);
    assert areas == ScanAreas(areaAt, m, zSearchMax, step);
    if n == 0 || MaxOf(areas) <= 0.0 {
      return None;
    }
    var maxArea := MaxOf(areas);
    var threshold := ratio * maxArea;
    assert threshold == Threshold(areas, ratio);
    var found := FirstStableWindow(areas, s, threshold);
    match found
    case None => return None;
    case Some(i) => return Some(Height(zStart, step, i));
  }

  /** The ways `detect_floor_z` finds no floor: an empty scan range, no
      samples, no positive area, or a window longer than the samples. */
  lemma FloorZNone(areaAt: real -> real, m: MeshData, zSearchMax: real, step: real, ratio: real, s: nat)
    requires |m.vertices| > 0 && step != 0.0
    ensures ScanEnd(m, zSearchMax) <= ScanStart(m) ==> FloorZ(areaAt, m, zSearchMax, step, ratio, s).None?
    ensures var areas := ScanAreas(areaAt, m, zSearchMax, step);
      (|areas| == 0 || s > |areas| || (|areas| > 0 && MaxOf(areas) <= 0.0)) ==>
        FloorZ(areaAt, m, zSearchMax, step, ratio, s).None?
    ensures step < 0.0 ==> FloorZ(areaAt, m, zSearchMax, step, ratio, s).None?
  {
    if step < 0.0 && ScanStart(m) < ScanEnd(m, zSearchMax) {
      assert Height(ScanStart(m), step, 0) == ScanStart(m);
    }
  }

  /** A detected floor is the height of the first index whose whole window
      of `s` samples reaches `ratio` times the largest area; no earlier
      window does. */
  lemma FloorZFirstWindow(areaAt: real -> real, m: MeshData, zSearchMax: real, step: real, ratio: real, s: nat)
    requires |m.vertices| > 0 && step != 0.0
    requires FloorZ(areaAt, m, zSearchMax, step, ratio, s).Some?
    ensures var areas := ScanAreas(areaAt, m, zSearchMax, step);
      |areas| > 0 && MaxOf(areas) > 0.0 &&
      exists i: nat :: i + s <= |areas| &&
        FloorZ(areaAt, m, zSearchMax, step, ratio, s).value == Height(ScanStart(m), step, i) &&
        WindowOk(areas, i, s, Threshold(areas, ratio)) &&
        forall j :: 0 <= j < i ==> !WindowOk(areas, j, s, Threshold(areas, ratio))
  {
    var areas := ScanAreas(areaAt, m, zSearchMax, step);
    var i := FloorIndex(areas, ratio, s).value;
    assert i + s <= |areas|;
  }

  /** A detected floor lies in `[zmin + 0.5, z_end)`: at least half a
      millimetre above the bottom, below the search depth and below the top
      margin. */
  lemma FloorZRange(areaAt: real -> real, m: MeshData, zSearchMax: real, step: real, ratio: real, s: nat)
    requires |m.vertices| > 0 && step != 0.0
    requires FloorZ(areaAt, m, zSearchMax, step, ratio, s).Some?
    ensures var z := FloorZ(areaAt, m, zSearchMax, step, ratio, s).value;
      Bounds(m).lo.z + 0.5 <= z < ScanEnd(m, zSearchMax) &&
      z < Bounds(m).lo.z + zSearchMax && z < Bounds(m).hi.z - 0.01
  {
    FloorZNone(areaAt, m, zSearchMax, step, ratio, s);
    var areas := ScanAreas(areaAt, m, zSearchMax, step);
    var i := FloorIndex(areas, ratio, s).value;
    if s == 0 {
      assert WindowOk(areas, 0, s, Threshold(areas, ratio));
    }
    assert i < |areas|;
    assert i as real * step >= 0.0;
  }

  /** The stability of the window `FloorIndex` picks: its smallest area
      relative to the largest area; 0 without a window. */
  function Confidence(areas: seq<real>, ratio: real, s: nat): real
    requires s >= 1
  {
    match FloorIndex(areas, ratio, s)
    case None => 0.0
    case Some(i) => WindowStability(areas, i, s)
  }

  /** The smallest area of the window at `i` relative to the largest area. */
  function WindowStability(areas: seq<real>, i: nat, s: nat): real
    requires i + s <= |areas| && s >= 1
  {
    var maxArea := MaxOf(areas);
    if maxArea > 0.0 then Ratio(MinOf(areas[i..i + s]), maxArea) else 0.0
  }

  /** `lo / hi`. */
  function Ratio(lo: real, hi: real): real
    requires hi != 0.0
  {
    lo / hi
  }

  /** The stability `detect_floor_z_with_confidence` reports beside the floor. */
  function Stability(areaAt: real -> real, m: MeshData, zSearchMax: real, step: real, ratio: real, s: nat): real
    requires |m.vertices| > 0 && step != 0.0 && s >= 1
  {
    if ScanEnd(m, zSearchMax) <= ScanStart(m) then 0.0
    else Confidence(ScanAreas(areaAt, m, zSearchMax, step), ratio, s)
  }

  /** `detect_floor_z_with_confidence(mesh, ...)`: the same floor as
      `detect_floor_z`, recomputed, with its stability. */
  method DetectFloorZWithConfidence(areaAt: real -> real, m: MeshData, zSearchMax: real, step: real, ratio: real, s: nat)
    returns (z: Option<real>, stability: real)
    requires |m.vertices| > 0 && step != 0.0 && s >= 1
    ensures z == FloorZ(areaAt, m, zSearchMax, step, ratio, s)
    ensures stability == Stability(areaAt, m, zSearchMax, step, ratio, s)
  {
    var b := Bounds(m);
    var zmin := b.lo.z;
    var zStart := zmin + 0.5;
    var zEnd := Min(zmin + zSearchMax, b.hi.z - 0.01);
    if zEnd <= zStart {
      return None, 0.0;
    }
    var n := SampleCount(zStart, zEnd, step);
    var areas := SampleAreas(areaAt, zStart, step, n);
    assert areas == ScanAreas(areaAt, m, zSearchMax, step);
    if n == 0 || MaxOf(areas) <= 0.0 {
      return None, 0.0;
    }
    var maxArea := MaxOf(areas);
    var threshold := ratio * maxArea;
    assert threshold == Threshold(areas, ratio);
    var found := FirstStableWindow(areas, s, threshold);
    FoundFloor(areaAt, m, zSearchMax, step, ratio, s);
    match found
    case None => return None, 0.0;
    case Some(i) =>
      var window := areas[i..i + s];
      stability := if maxArea > 0.0 then Ratio(MinOf(window), maxArea) else 0.0;
      StabilityOfWindow(areas, i, s);
      return Some(Height(zStart, step, i)), stability;
  }

  lemma StabilityOfWindow(areas: seq<real>, i: nat, s: nat)
    requires i + s <= |areas| && s >= 1 && MaxOf(areas) > 0.0
    ensures WindowStability(areas, i, s) == Ratio(MinOf(areas[i..i + s]), MaxOf(areas))
  {
  }

  /** Over a non-empty scan range, the floor and the stability are those of
      the window `FloorIndex` picks. */
  lemma FoundFloor(areaAt: real -> real, m: MeshData, zSearchMax: real, step: real, ratio: real, s: nat)
    requires |m.vertices| > 0 && step != 0.0 && s >= 1
    requires ScanStart(m) < ScanEnd(m, zSearchMax)
    ensures var areas := ScanAreas(areaAt, m, zSearchMax, step);
      match FloorIndex(areas, ratio, s)
      case None =>
        FloorZ(areaAt, m, zSearchMax, step, ratio, s) == None &&
        Stability(areaAt, m, zSearchMax, step, ratio, s) == 0.0
      case Some(i) =>
        i + s <= |areas| &&
        FloorZ(areaAt, m, zSearchMax, step, ratio, s) == Some(Height(ScanStart(m), step, i)) &&
        Stability(areaAt, m, zSearchMax, step, ratio, s) == WindowStability(areas, i, s)
  {
    var areas := ScanAreas(areaAt, m, zSearchMax, step);
    if FloorIndex(areas, ratio, s).Some? {
      ConfidenceValue(areas, ratio, s, FloorIndex(areas, ratio, s).value);
    }
  }

  /** Without a floor the stability is 0. */
  lemma StabilityWithoutFloor(areaAt: real -> real, m: MeshData, zSearchMax: real, step: real, ratio: real, s: nat)
    requires |m.vertices| > 0 && step != 0.0 && s >= 1
    requires FloorZ(areaAt, m, zSearchMax, step, ratio, s).None?
    ensures Stability(areaAt, m, zSearchMax, step, ratio, s) == 0.0
  {
  }

  lemma RatioBounds(ratio: real, lo: real, hi: real)
    requires hi > 0.0 && ratio * hi <= lo <= hi && 0.0 <= lo
    ensures ratio <= Ratio(lo, hi) <= 1.0 && 0.0 <= Ratio(lo, hi)
  {
    var r := Ratio(lo, hi);
    assert r * hi == lo;
    ScaleLess(r, ratio, hi);
    ScaleLess(1.0, r, hi);
    ScaleLess(r, 0.0, hi);
  }

  /** The smallest area of the chosen window lies between the threshold and
      the largest area, and is non-negative when all areas are. */
  lemma WindowMin(areas: seq<real>, ratio: real, s: nat, i: nat)
    requires s >= 1 && |areas| > 0 && i + s <= |areas| && WindowOk(areas, i, s, Threshold(areas, ratio))
    ensures Threshold(areas, ratio) <= MinOf(areas[i..i + s]) <= MaxOf(areas)
    ensures (forall j :: 0 <= j < |areas| ==> areas[j] >= 0.0) ==> MinOf(areas[i..i + s]) >= 0.0
  {
    var window := areas[i..i + s];
    var w := ArgMin(window);
    assert window[w] == areas[i + w];
    MaxOfAbove(areas, i + w);
  }

  /** A window whose smallest area lies between `ratio` times the largest
      area and the largest area has a stability in `[ratio, 1]`. */
  lemma WindowStabilityBounds(areas: seq<real>, ratio: real, s: nat, i: nat)
    requires s >= 1 && i + s <= |areas| && MaxOf(areas) > 0.0
    requires ratio * MaxOf(areas) <= MinOf(areas[i..i + s]) <= MaxOf(areas)
    requires 0.0 <= MinOf(areas[i..i + s])
    ensures ratio <= WindowStability(areas, i, s) <= 1.0 && 0.0 <= WindowStability(areas, i, s)
  {
    RatioBounds(ratio, MinOf(areas[i..i + s]), MaxOf(areas));
  }

  /** For non-negative areas, the stability of the chosen window lies in `[ratio, 1]` and in `[0, 1]`. */
  lemma ConfidenceBounds(areas: seq<real>, ratio: real, s: nat)
    requires s >= 1 && FloorIndex(areas, ratio, s).Some?
    requires forall j :: 0 <= j < |areas| ==> areas[j] >= 0.0
    ensures ratio <= Confidence(areas, ratio, s) <= 1.0 && 0.0 <= Confidence(areas, ratio, s)
  {
    var i := FloorIndex(areas, ratio, s).value;
    ConfidenceValue(areas, ratio, s, i);
    WindowMin(areas, ratio, s, i);
    WindowStabilityBounds(areas, ratio, s, i);
  }

  /** The chosen window is a qualifying one, and the stability is its own. */
  lemma ConfidenceValue(areas: seq<real>, ratio: real, s: nat, i: nat)
    requires s >= 1 && FloorIndex(areas, ratio, s) == Some(i)
    ensures |areas| > 0 && MaxOf(areas) > 0.0 && i + s <= |areas| && WindowOk(areas, i, s, Threshold(areas, ratio))
    ensures Confidence(areas, ratio, s) == WindowStability(areas, i, s)
  {
  }

  /** On success the stability lies in `[area_ratio, 1]`, and in `[0, 1]`
      because cross-section areas are never negative. */
  lemma StabilityBounds(areaAt: real -> real, m: MeshData, zSearchMax: real, step: real, ratio: real, s: nat)
    requires |m.vertices| > 0 && step != 0.0 && s >= 1
    requires forall z :: areaAt(z) >= 0.0
    requires FloorZ(areaAt, m, zSearchMax, step, ratio, s).Some?
    ensures var st := Stability(areaAt, m, zSearchMax, step, ratio, s);
      ratio <= st <= 1.0 && 0.0 <= st
  {
    ConfidenceBounds(ScanAreas(areaAt, m, zSearchMax, step), ratio, s);
  }
}
