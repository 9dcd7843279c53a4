/** The post-export check: the written mesh must match the original above the
    join plane, judged by nearest-surface distances sampled both ways. */
module Verify {
  import opened Results
  import opened Numeric
  import opened Meshes
  import opened Cut

  /** Default number of surface samples per direction. */
  const VerifySampleCount: int := 10000

  /** The number of points the sampler is asked for: `min(sample_count, len(faces))`. */
  function SamplesAsked(from: MeshData, sampleCount: int): (n: int)
    ensures n <= sampleCount && n <= |from.faces|
    ensures n == sampleCount || n == |from.faces|
  {
    if sampleCount <= |from.faces| then sampleCount else |from.faces|
  }

  /** `sample_and_distances`: at most `sampleCount` points on `from` (never
      more than it has faces), each with its distance to the surface of `to`.
      Fewer than three samples, or no sampled point, give no distances; a
      failing library call is reported as a sampling error. */
  function SampleAndDistances(lib: MeshLib, from: MeshData, to: MeshData, sampleCount: int): (r: Result<seq<real>>)
    ensures (sampleCount < 3 || |from.faces| < 3) ==> r == Ok([])
    ensures r.Err? ==> r.error == VerifySampling
    ensures var n := SamplesAsked(from, sampleCount);
      n >= 3 ==>
        (lib.sampleSurface(from, n).None? ==> r == Err(VerifySampling)) &&
        (lib.sampleSurface(from, n) == Some([]) ==> r == Ok([]))
    ensures var n := SamplesAsked(from, sampleCount);
      n >= 3 && lib.sampleSurface(from, n).Some? && |lib.sampleSurface(from, n).value| > 0 ==>
        var pts := lib.sampleSurface(from, n).value;
        (lib.nearestOnSurface(to, pts).None? ==> r == Err(VerifySampling)) &&
        (lib.nearestOnSurface(to, pts).Some? ==> r == Ok(lib.nearestOnSurface(to, pts).value))
  {
    var n := SamplesAsked(from, sampleCount);
    if n < 3 then Ok([])
    else
      match lib.sampleSurface(from, n)
      case None => Err(VerifySampling)
      case Some(pts) =>
        if |pts| == 0 then Ok([])
        else
          match lib.nearestOnSurface(to, pts)
          case None => Err(VerifySampling)
          case Some(d) => Ok(d)
  }

  /** `max(d)` of a list of distances, 0 when there are none. */
  function MaxOrZero(d: seq<real>): real {
    if |d| > 0 then MaxOf(d) else 0.0
  }

  /** The 95th percentile of a list of distances, 0 when there are none. */
  function P95OrZero(lib: MeshLib, d: seq<real>): real {
    if |d| > 0 then lib.percentile95(d) else 0.0
  }

  /** The statistics `verify_above_plane` reports. */
  datatype VerifyStats = VerifyStats(maxMm: real, p95OrigToOut: real, p95OutToOrig: real, passed: bool, tolMm: real)

  /** The statistics of the two distance lists. */
  function Stats(lib: MeshLib, origToOut: seq<real>, outToOrig: seq<real>, tol: real): (s: VerifyStats)
    ensures s.passed <==> s.maxMm <= tol
    ensures s.tolMm == tol
  {
    var maxMm := Max(MaxOrZero(origToOut), MaxOrZero(outToOrig));
    VerifyStats(maxMm, P95OrZero(lib, origToOut), P95OrZero(lib, outToOrig), maxMm <= tol, tol)
  }

  /** The part of the comparison after both meshes are cut at the join plane. */
  function CompareAbove(lib: MeshLib, origAbove: MeshData, outAbove: MeshData, tol: real, sampleCount: int): (r: Result<VerifyStats>)
    ensures r.Ok? ==> r.value.passed && r.value.maxMm <= tol && r.value.tolMm == tol
    ensures r.Err? ==> r.error == VerifySampling || r.error.VerifyFailed?
    ensures (SampleAndDistances(lib, origAbove, outAbove, sampleCount).Err? ||
             SampleAndDistances(lib, outAbove, origAbove, sampleCount).Err?) ==> r == Err(VerifySampling)
    ensures SampleAndDistances(lib, origAbove, outAbove, sampleCount).Ok? &&
            SampleAndDistances(lib, outAbove, origAbove, sampleCount).Ok? ==>
      var s := Stats(lib, SampleAndDistances(lib, origAbove, outAbove, sampleCount).value,
                          SampleAndDistances(lib, outAbove, origAbove, sampleCount).value, tol);
      (r.Ok? <==> s.maxMm <= tol) && (r.Ok? ==> r.value == s) &&
      (r.Err? ==> r.error == VerifyFailed(s.maxMm, tol) && s.maxMm > tol)
  {
    match SampleAndDistances(lib, origAbove, outAbove, sampleCount)
    case Err(_) => Err(VerifySampling)
    case Ok(d1) =>
      match SampleAndDistances(lib, outAbove, origAbove, sampleCount)
      case Err(_) => Err(VerifySampling)
      case Ok(d2) =>
        var s := Stats(lib, d1, d2, tol);
        if s.passed then Ok(s) else Err(VerifyFailed(s.maxMm, tol))
  }

  /** `verify_above_plane`: cut the original and the re-read output above
      `zJoin`, sample distances both ways, and pass only when the largest
      distance is within the tolerance. A failing cut propagates its own error. */
  function VerifyAbovePlane(lib: MeshLib, orig: MeshData, out: MeshData, zJoin: real, tol: real, sampleCount: int): (r: Result<VerifyStats>)
    ensures r.Ok? ==> r.value.passed && r.value.maxMm <= tol && r.value.tolMm == tol
    ensures KeepAbove(lib, orig, zJoin).Err? ==> r == Err(KeepAbove(lib, orig, zJoin).error)
    ensures KeepAbove(lib, orig, zJoin).Ok? && KeepAbove(lib, out, zJoin).Err? ==>
      r == Err(KeepAbove(lib, out, zJoin).error)
    ensures KeepAbove(lib, orig, zJoin).Ok? && KeepAbove(lib, out, zJoin).Ok? ==>
      r == CompareAbove(lib, KeepAbove(lib, orig, zJoin).value, KeepAbove(lib, out, zJoin).value, tol, sampleCount)
  {
    match KeepAbove(lib, orig, zJoin)
    case Err(e) => Err(e)
    case Ok(origAbove) =>
      match KeepAbove(lib, out, zJoin)
      case Err(e) => Err(e)
      case Ok(outAbove) => CompareAbove(lib, origAbove, outAbove, tol, sampleCount)
  }

  /** The reported maximum bounds every sampled distance of both directions. */
  lemma MaxBoundsDistances(lib: MeshLib, d1: seq<real>, d2: seq<real>, tol: real, i: nat)
    ensures i < |d1| ==> d1[i] <= Stats(lib, d1, d2, tol).maxMm
    ensures i < |d2| ==> d2[i] <= Stats(lib, d1, d2, tol).maxMm
  {
    if i < |d1| { MaxOfAbove(d1, i); }
    if i < |d2| { MaxOfAbove(d2, i); }
  }

  /** With distances that are not negative, the reported maximum is not negative. */
  lemma MaxNonNegative(lib: MeshLib, d1: seq<real>, d2: seq<real>, tol: real)
    requires forall i :: 0 <= i < |d1| ==> d1[i] >= 0.0
    ensures Stats(lib, d1, d2, tol).maxMm >= 0.0
  {
    if |d1| > 0 {
      MaxOfAbove(d1, 0);
    }
  }

  /** The maximum of a list is within a tolerance exactly when every element
      is (an empty list counts as 0). */
  lemma MaxOrZeroWithin(d: seq<real>, tol: real)
    ensures MaxOrZero(d) <= tol <==>
      if |d| > 0 then forall i :: 0 <= i < |d| ==> d[i] <= tol else 0.0 <= tol
  {
    if |d| > 0 {
      forall i | 0 <= i < |d| { MaxOfAbove(d, i); }
    }
  }

  /** Given both distance lists, the comparison passes exactly when every
      sampled distance, in both directions, is within the tolerance (an empty
      direction counting as distance 0). */
  lemma PassedIff(lib: MeshLib, d1: seq<real>, d2: seq<real>, tol: real)
    ensures Stats(lib, d1, d2, tol).passed <==>
      (if |d1| > 0 then forall i :: 0 <= i < |d1| ==> d1[i] <= tol else 0.0 <= tol) &&
      (if |d2| > 0 then forall i :: 0 <= i < |d2| ==> d2[i] <= tol else 0.0 <= tol)
  {
    MaxOrZeroWithin(d1, tol);
    MaxOrZeroWithin(d2, tol);
  }

  /** Once both cuts and both samplings succeed, the verification passes
      exactly when every sampled distance, in both directions, is within the
      tolerance; otherwise it fails carrying a maximum above the tolerance. */
  lemma VerdictIff(lib: MeshLib, orig: MeshData, out: MeshData, zJoin: real, tol: real, sampleCount: int)
    requires KeepAbove(lib, orig, zJoin).Ok? && KeepAbove(lib, out, zJoin).Ok?
    requires SampleAndDistances(lib, KeepAbove(lib, orig, zJoin).value, KeepAbove(lib, out, zJoin).value, sampleCount).Ok?
    requires SampleAndDistances(lib, KeepAbove(lib, out, zJoin).value, KeepAbove(lib, orig, zJoin).value, sampleCount).Ok?
    ensures var d1 := SampleAndDistances(lib, KeepAbove(lib, orig, zJoin).value, KeepAbove(lib, out, zJoin).value, sampleCount).value;
      var d2 := SampleAndDistances(lib, KeepAbove(lib, out, zJoin).value, KeepAbove(lib, orig, zJoin).value, sampleCount).value;
      var r := VerifyAbovePlane(lib, orig, out, zJoin, tol, sampleCount);
      (r.Ok? <==>
        (if |d1| > 0 then forall i :: 0 <= i < |d1| ==> d1[i] <= tol else 0.0 <= tol) &&
        (if |d2| > 0 then forall i :: 0 <= i < |d2| ==> d2[i] <= tol else 0.0 <= tol)) &&
      (r.Err? ==> r.error.VerifyFailed? && r.error.maxMm > tol && r.error.tolMm == tol)
  {
    var a, b := KeepAbove(lib, orig, zJoin).value, KeepAbove(lib, out, zJoin).value;
    PassedIff(lib, SampleAndDistances(lib, a, b, sampleCount).value, SampleAndDistances(lib, b, a, sampleCount).value, tol);
  }

  /** Swapping the original and the output swaps the two directions: the same
      maximum and verdict, with the two percentiles exchanged, for the one
      draw of the sampler per mesh and count. */
  lemma CompareSymmetric(lib: MeshLib, a: MeshData, b: MeshData, tol: real, sampleCount: int)
    ensures CompareAbove(lib, a, b, tol, sampleCount).Ok? <==> CompareAbove(lib, b, a, tol, sampleCount).Ok?
    ensures CompareAbove(lib, a, b, tol, sampleCount).Ok? ==>
      var s, t := CompareAbove(lib, a, b, tol, sampleCount).value, CompareAbove(lib, b, a, tol, sampleCount).value;
      s.maxMm == t.maxMm && s.p95OrigToOut == t.p95OutToOrig && s.p95OutToOrig == t.p95OrigToOut
  {
  }

  /** For the same sampled draws, a verdict at one tolerance carries over to
      any larger tolerance. */
  lemma PassMonotone(lib: MeshLib, orig: MeshData, out: MeshData, zJoin: real, tol: real, tol2: real, sampleCount: int)
    requires tol <= tol2
    requires VerifyAbovePlane(lib, orig, out, zJoin, tol, sampleCount).Ok?
    ensures VerifyAbovePlane(lib, orig, out, zJoin, tol2, sampleCount).Ok?
    ensures VerifyAbovePlane(lib, orig, out, zJoin, tol2, sampleCount).value.maxMm
         == VerifyAbovePlane(lib, orig, out, zJoin, tol, sampleCount).value.maxMm
  {
  }

  /** With fewer than three faces above the plane on both sides nothing is
      sampled, and the check passes exactly when the tolerance is not negative. */
  lemma SparseMeshesPass(lib: MeshLib, origAbove: MeshData, outAbove: MeshData, tol: real, sampleCount: int)
    requires |origAbove.faces| < 3 && |outAbove.faces| < 3
    ensures CompareAbove(lib, origAbove, outAbove, tol, sampleCount).Ok? <==> 0.0 <= tol
    ensures CompareAbove(lib, origAbove, outAbove, tol, sampleCount).Ok? ==>
      CompareAbove(lib, origAbove, outAbove, tol, sampleCount).value == VerifyStats(0.0, 0.0, 0.0, true, tol)
  {
  }

  /** Only the two meshes' parts above the plane enter the verdict: meshes
      whose cuts agree get the same result under the one draw of the sampler
      per mesh and count. */
  lemma OnlyAbovePlaneMatters(lib: MeshLib, orig: MeshData, out: MeshData, orig2: MeshData, out2: MeshData,
                              zJoin: real, tol: real, sampleCount: int)
    requires KeepAbove(lib, orig, zJoin) == KeepAbove(lib, orig2, zJoin)
    requires KeepAbove(lib, out, zJoin) == KeepAbove(lib, out2, zJoin)
    ensures VerifyAbovePlane(lib, orig, out, zJoin, tol, sampleCount) == VerifyAbovePlane(lib, orig2, out2, zJoin, tol, sampleCount)
  {
  }
}
