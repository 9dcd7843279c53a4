/** The bounds helpers of `detect.py` and the module-count logic built on
    them: parsing an explicit "NxM" string, inferring N and M from the XY
    footprint, and checking a reference tile against the destination pitch. */
module Footprint {
  import opened Results
  import opened Numeric
  import opened Meshes

  // ---------------------------------------------------------------------------
  // Bounds helpers
  // ---------------------------------------------------------------------------

  /** `mesh_bounds_xy(mesh)`: `(minx, maxx, miny, maxy)`. */
  function MeshBoundsXY(m: MeshData): (r: (real, real, real, real))
    requires |m.vertices| > 0
    ensures r.0 <= r.1 && r.2 <= r.3
  {
    var b := Bounds(m);
    (b.lo.x, b.hi.x, b.lo.y, b.hi.y)
  }

  /** Every vertex lies inside the XY rectangle, and each of its four sides
      touches a vertex. */
  lemma MeshBoundsXYTight(m: MeshData, i: nat)
    requires i < |m.vertices|
    ensures var r := MeshBoundsXY(m);
      r.0 <= m.vertices[i].x <= r.1 && r.2 <= m.vertices[i].y <= r.3
    ensures var r := MeshBoundsXY(m);
      (exists k :: 0 <= k < |m.vertices| && m.vertices[k].x == r.0) &&
      (exists k :: 0 <= k < |m.vertices| && m.vertices[k].x == r.1) &&
      (exists k :: 0 <= k < |m.vertices| && m.vertices[k].y == r.2) &&
      (exists k :: 0 <= k < |m.vertices| && m.vertices[k].y == r.3)
  {
    BoundsContain(m, i);
    var a := MinCoordAttained(m.vertices, X);
    var b := MaxCoordAttained(m.vertices, X);
    var c := MinCoordAttained(m.vertices, Y);
    var d := MaxCoordAttained(m.vertices, Y);
  }

  /** `mesh_min_z(mesh)`. */
  function MeshMinZ(m: MeshData): real
    requires |m.vertices| > 0
  {
    Bounds(m).lo.z
  }

  /** The lowest vertex height: no vertex lies below it and some vertex lies on it. */
  lemma MeshMinZLowest(m: MeshData, i: nat) returns (w: nat)
    requires i < |m.vertices|
    ensures MeshMinZ(m) <= m.vertices[i].z
    ensures w < |m.vertices| && m.vertices[w].z == MeshMinZ(m)
  {
    BoundsContain(m, i);
    w := MinCoordAttained(m.vertices, Z);
  }

  /** `mesh_center_xy(mesh)`. */
  function MeshCenterXY(m: MeshData): (c: Point2)
    requires |m.vertices| > 0
    ensures Bounds(m).lo.x <= c.x <= Bounds(m).hi.x && Bounds(m).lo.y <= c.y <= Bounds(m).hi.y
    ensures c.x - Bounds(m).lo.x == Bounds(m).hi.x - c.x && c.y - Bounds(m).lo.y == Bounds(m).hi.y - c.y
  {
    Point2(CenterX(Bounds(m)), CenterY(Bounds(m)))
  }

  /** Translating a mesh moves its centre by the XY part of the translation. */
  lemma CenterTranslate(m: MeshData, t: Vec3)
    requires |m.vertices| > 0
    ensures |Translate(m, t).vertices| > 0
    ensures MeshCenterXY(Translate(m, t)) == Point2(MeshCenterXY(m).x + t.x, MeshCenterXY(m).y + t.y)
  {
    TranslateBounds(m, t);
  }

  // ---------------------------------------------------------------------------
  // Text handling (ASCII)
  // ---------------------------------------------------------------------------

  /** `str.lower` on one character (ASCII letters only). */
  function LowerChar(c: char): char {
    if 'A' <= c <= 'Z' then (c as int + 32) as char else c
  }

  function Lower(s: string): string {
    seq(|s|, i requires 0 <= i < |s| => LowerChar(s[i]))
  }

  /** Python's ASCII whitespace: space, `\t \n \v \f \r` and the separators 0x1C-0x1F. */
  predicate IsSpace(c: char) {
    var k := c as int;
    k == 32 || 9 <= k <= 13 || 28 <= k <= 31
  }

  /** Drop leading whitespace. */
  function StripStart(s: string): string {
    if |s| > 0 && IsSpace(s[0]) then StripStart(s[1..]) else s
  }

  /** Drop trailing whitespace. */
  function StripEnd(s: string): string {
    if |s| > 0 && IsSpace(s[|s| - 1]) then StripEnd(s[..|s| - 1]) else s
  }

  /** `str.strip()`. */
  function Strip(s: string): string {
    StripEnd(StripStart(s))
  }

  /** StripStart removes a run of whitespace and stops at the first other character. */
  lemma {:induction false} StripStartRemovesSpace(s: string) returns (i: nat)
    ensures i <= |s| && StripStart(s) == s[i..]
    ensures forall k :: 0 <= k < i ==> IsSpace(s[k])
    ensures i < |s| ==> !IsSpace(s[i])
  {
    if |s| > 0 && IsSpace(s[0]) {
      var j := StripStartRemovesSpace(s[1..]);
      i := j + 1;
      assert s[1..][j..] == s[i..];
      assert forall k :: 1 <= k < i ==> s[k] == s[1..][k - 1];
    } else {
      i := 0;
    }
  }

  /** StripEnd removes a run of trailing whitespace and stops at the last other character. */
  lemma {:induction false} StripEndRemovesSpace(s: string) returns (j: nat)
    ensures j <= |s| && StripEnd(s) == s[..j]
    ensures forall k :: j <= k < |s| ==> IsSpace(s[k])
    ensures 0 < j ==> !IsSpace(s[j - 1])
  {
    if |s| > 0 && IsSpace(s[|s| - 1]) {
      var p := s[..|s| - 1];
      j := StripEndRemovesSpace(p);
      assert p[..j] == s[..j];
      assert forall k :: j <= k < |p| ==> s[k] == p[k];
    } else {
      j := |s|;
    }
  }

  /** `str.strip()` keeps the slice between the first and the last
      non-whitespace character; everything it drops is whitespace. */
  lemma StripKeepsMiddle(s: string) returns (i: nat, j: nat)
    ensures i <= j <= |s| && Strip(s) == s[i..j]
    ensures forall k :: 0 <= k < |s| && (k < i || j <= k) ==> IsSpace(s[k])
    ensures i < j ==> !IsSpace(s[i]) && !IsSpace(s[j - 1])
  {
    i := StripStartRemovesSpace(s);
    var t := s[i..];
    var e := StripEndRemovesSpace(t);
    j := i + e;
    assert t[..e] == s[i..j];
    assert forall k :: i <= k < |s| ==> s[k] == t[k - i];
  }

  /** A string that neither starts nor ends with whitespace is its own strip. */
  lemma StripNoSpace(s: string)
    requires |s| > 0 ==> !IsSpace(s[0]) && !IsSpace(s[|s| - 1])
    ensures Strip(s) == s
  {
  }

  /** Surrounding whitespace does not change the stripped text. */
  lemma {:induction false} StripPadded(s: string, c: char)
    requires IsSpace(c)
    ensures Strip([c] + s) == Strip(s) && Strip(s + [c]) == Strip(s)
  {
    assert ([c] + s)[1..] == s;
    StripEndPadded(StripStart(s), c);
    StripStartSuffix(s, c);
  }

  lemma StripEndPadded(s: string, c: char)
    requires IsSpace(c)
    ensures StripEnd(s + [c]) == StripEnd(s)
  {
    assert (s + [c])[..|s + [c]| - 1] == s;
  }

  /** Appending whitespace does not change what StripStart leaves in front of it. */
  lemma {:induction false} StripStartSuffix(s: string, c: char)
    requires IsSpace(c)
    ensures StripEnd(StripStart(s + [c])) == StripEnd(StripStart(s))
    decreases |s|
  {
    if |s| > 0 && IsSpace(s[0]) {
      assert (s + [c])[1..] == s[1..] + [c];
      StripStartSuffix(s[1..], c);
    } else if |s| == 0 {
      assert StripStart([c]) == [];
    } else {
      StripEndPadded(s, c);
    }
  }

  /** The first position of `c` in `s` from `i` on. */
  function FindChar(s: string, c: char, i: nat): (r: Option<nat>)
    requires i <= |s|
    ensures r.Some? ==> i <= r.value < |s| && s[r.value] == c && forall j :: i <= j < r.value ==> s[j] != c
    ensures r.None? ==> forall j :: i <= j < |s| ==> s[j] != c
    decreases |s| - i
  {
    if i == |s| then None
    else if s[i] == c then Some(i)
    else FindChar(s, c, i + 1)
  }

  predicate IsDigit(c: char) { '0' <= c <= '9' }

  function DigitValue(c: char): nat
    requires IsDigit(c)
  {
    c as int - '0' as int
  }

  /** The number a run of decimal digits denotes. */
  function DigitsValue(ds: string): nat
    requires forall i :: 0 <= i < |ds| ==> IsDigit(ds[i])
  {
    if |ds| == 0 then 0 else DigitsValue(ds[..|ds| - 1]) * 10 + DigitValue(ds[|ds| - 1])
  }

  predicate AllDigits(ds: string) {
    |ds| > 0 && forall i :: 0 <= i < |ds| ==> IsDigit(ds[i])
  }

  /** `int(text)` on base-10 text: optional surrounding whitespace, an
      optional sign, then one or more ASCII digits. */
  function ParseInt(text: string): Option<int> {
    var u := Strip(text);
    if |u| == 0 then None
    else if u[0] == '-' && AllDigits(u[1..]) then Some(-(DigitsValue(u[1..]) as int))
    else if u[0] == '+' && AllDigits(u[1..]) then Some(DigitsValue(u[1..]))
    else if AllDigits(u) then Some(DigitsValue(u))
    else None
  }

  function DigitChar(d: nat): (c: char)
    requires d < 10
    ensures IsDigit(c) && DigitValue(c) == d
  {
    ('0' as int + d) as char
  }

  /** `str(n)` for a natural number. */
  function NatStr(n: nat): (s: string)
    ensures AllDigits(s)
  {
    if n < 10 then [DigitChar(n)] else NatStr(n / 10) + [DigitChar(n % 10)]
  }

  /** Reading back the decimal text of `n` gives `n`. */
  lemma {:induction false} NatStrValue(n: nat)
    ensures DigitsValue(NatStr(n)) == n
  {
    var s := NatStr(n);
    if n >= 10 {
      assert s[..|s| - 1] == NatStr(n / 10);
      NatStrValue(n / 10);
    }
  }

  /** The decimal text of `n` reads as `int(str(n)) == n`. */
  lemma ParseIntNatStr(n: nat)
    ensures ParseInt(NatStr(n)) == Some(n)
  {
    var s := NatStr(n);
    StripNoSpace(s);
    NatStrValue(n);
  }

  // ---------------------------------------------------------------------------
  // parse_modules
  // ---------------------------------------------------------------------------

  /** The text `parse_modules` works on: lower-cased, then stripped. */
  function Normalize(s: string): string {
    Strip(Lower(s))
  }

  /** The decision of `parse_modules` on its normalised text: split at the
      first `x`, read both parts as integers, and require both to be at least 1. */
  function ParseCounts(t: string): (r: Result<(int, int)>)
    ensures r.Ok? ==> r.value.0 >= 1 && r.value.1 >= 1
  {
    match FindChar(t, 'x', 0)
    case None => Err(ModulesNoSeparator(t))
    case Some(k) => CheckCounts(t, ParseInt(t[..k]), ParseInt(t[k + 1..]))
  }

  /** The checks on the two parts once they have been read as integers (or not). */
  function CheckCounts(t: string, a: Option<int>, b: Option<int>): (r: Result<(int, int)>)
    ensures r.Ok? ==> r.value.0 >= 1 && r.value.1 >= 1 && a == Some(r.value.0) && b == Some(r.value.1)
    ensures r.Err? ==> r.error == ModulesNotInteger(t) || r.error == ModulesBelowOne(t)
    ensures r.Err? && r.error == ModulesNotInteger(t) <==> a.None? || b.None?
  {
    if a.None? || b.None? then Err(ModulesNotInteger(t))
    else if a.value < 1 || b.value < 1 then Err(ModulesBelowOne(t))
    else Ok((a.value, b.value))
  }

  /** `parse_modules(s)`: lower-case and strip, then decide. */
  function ParseModules(s: string): (r: Result<(int, int)>)
    ensures r.Ok? ==> r.value.0 >= 1 && r.value.1 >= 1
  {
    ParseCounts(Normalize(s))
  }

  /** `parse_modules` fails in exactly three ways, and it reports a missing
      separator exactly when the normalised text has no `x`. */
  lemma ParseModulesErrors(s: string)
    ensures var r := ParseModules(s);
      r.Err? ==> r.error.ModulesNoSeparator? || r.error.ModulesNotInteger? || r.error.ModulesBelowOne?
    ensures var r := ParseModules(s);
      r.Err? && r.error.ModulesNoSeparator? <==> 'x' !in Normalize(s)
  {
    var t := Normalize(s);
    match FindChar(t, 'x', 0)
    case None =>
    case Some(k) => assert t[k] in t;
  }

  /** Lower-casing leaves text without capitals alone. */
  lemma LowerOfLower(s: string)
    requires forall i :: 0 <= i < |s| ==> !('A' <= s[i] <= 'Z')
    ensures Lower(s) == s
  {
  }

  /** `parse_modules(f"{a}x{b}")` gives back `(a, b)` when both are at least
      1, and reports a count below 1 otherwise. */
  lemma ParseModulesRoundTrip(a: nat, b: nat)
    ensures var s := NatStr(a) + "x" + NatStr(b);
      ParseModules(s) == if a >= 1 && b >= 1 then Ok((a, b)) else Err(ModulesBelowOne(s))
  {
    var sa, sb := NatStr(a), NatStr(b);
    var s := sa + "x" + sb;
    LowerOfLower(s);
    StripNoSpace(s);
    assert Normalize(s) == s;
    ParseCountsOfNats(a, b);
  }

  lemma ParseCountsOfNats(a: nat, b: nat)
    ensures var s := NatStr(a) + "x" + NatStr(b);
      ParseCounts(s) == CheckCounts(s, Some(a), Some(b))
  {
    var sa, sb := NatStr(a), NatStr(b);
    var s := sa + "x" + sb;
    assert s[|sa|] == 'x';
    assert forall j :: 0 <= j < |sa| ==> s[j] == sa[j];
    assert FindChar(s, 'x', 0) == Some(|sa|);
    assert s[..|sa|] == sa;
    assert s[|sa| + 1..] == sb;
    ParseIntNatStr(a);
    ParseIntNatStr(b);
  }

  /** Letter case does not matter. */
  lemma ParseModulesIgnoresCase(s: string)
    ensures ParseModules(Lower(s)) == ParseModules(s)
  {
    assert Lower(Lower(s)) == Lower(s);
  }

  /** Surrounding whitespace does not matter. */
  lemma ParseModulesIgnoresPadding(s: string)
    ensures ParseModules(" " + s + " ") == ParseModules(s)
  {
    var p := " " + s + " ";
    assert Lower(p) == [' '] + Lower(s) + [' '];
    StripPadded(Lower(s), ' ');
    StripPadded([' '] + Lower(s), ' ');
    assert Normalize(p) == Normalize(s);
  }

  // ---------------------------------------------------------------------------
  // infer_modules and validate_ref_tile_pitch
  // ---------------------------------------------------------------------------

  /** Default tolerances of `infer_modules` and `validate_ref_tile_pitch`. */
  const InferTol: real := 2.0
  const RefPitchTol: real := 1.5

  function Width(b: Box3): real { b.hi.x - b.lo.x }

  function Depth(b: Box3): real { b.hi.y - b.lo.y }

  /** The decision of `infer_modules` on a footprint `w` by `d`. */
  function InferCounts(w: real, d: real, pitch: real, tol: real): (r: Result<(int, int)>)
    ensures r.Ok? ==> r.value.0 >= 1 && r.value.1 >= 1
    ensures (w <= 0.0 || d <= 0.0) ==> r == Err(DegenerateFootprint(w, d))
    ensures (w > 0.0 && d > 0.0 && pitch == 0.0) ==> r == Err(DivisionByZero)
  {
    if w <= 0.0 || d <= 0.0 then Err(DegenerateFootprint(w, d))
    else if pitch == 0.0 then Err(DivisionByZero)
    else CheckInferred(w, d, pitch, tol, RoundHalfEven(w / pitch), RoundHalfEven(d / pitch))
  }

  /** Each side of a `w` by `d` footprint is within `tol` of its count in `c`
      of pitches. */
  predicate FitsCounts(w: real, d: real, c: (int, int), pitch: real, tol: real)
  {
    Residual(w, c.0, pitch) <= tol && Residual(d, c.1, pitch) <= tol
  }

  /** How far a side of length `w` is from `n` pitches. */
  function Residual(w: real, n: int, pitch: real): real {
    Abs(w - n as real * pitch)
  }

  /** The checks on the rounded counts `n` and `m`: both at least 1, and each
      footprint side within the tolerance of its count of pitches. */
  function CheckInferred(w: real, d: real, pitch: real, tol: real, n: int, m: int): (r: Result<(int, int)>)
    ensures r.Ok? <==> n >= 1 && m >= 1 && FitsCounts(w, d, (n, m), pitch, tol)
    ensures r.Ok? ==> r.value == (n, m)
    ensures (n < 1 || m < 1) ==> r == Err(InferredBelowOne(n, m))
  {
    if n < 1 || m < 1 then Err(InferredBelowOne(n, m))
    else
      var errX, errY := Residual(w, n, pitch), Residual(d, m, pitch);
      if errX > tol || errY > tol then Err(FootprintMismatch(w, d, n, m, errX, errY))
      else Ok((n, m))
  }

  /** Accepted counts are within the tolerance of the footprint on both axes. */
  lemma InferCountsSound(w: real, d: real, pitch: real, tol: real)
    ensures var r := InferCounts(w, d, pitch, tol);
      r.Ok? ==> FitsCounts(w, d, r.value, pitch, tol)
  {
    if w > 0.0 && d > 0.0 && pitch != 0.0 {
      var n, m := RoundHalfEven(w / pitch), RoundHalfEven(d / pitch);
      var r := CheckInferred(w, d, pitch, tol, n, m);
      assert InferCounts(w, d, pitch, tol) == r;
      if r.Ok? {
        assert r.value == (n, m);
      }
    }
  }

  /** `infer_modules(mesh, pitch_src, tol_mm)`. */
  function InferModules(m: MeshData, pitch: real, tol: real): Result<(int, int)>
    requires |m.vertices| > 0
  {
    InferCounts(Width(Bounds(m)), Depth(Bounds(m)), pitch, tol)
  }

  /** Counts `c` fit the mesh's footprint at `pitch` within `tol` on both axes. */
  predicate FitsFootprint(m: MeshData, c: (int, int), pitch: real, tol: real)
    requires |m.vertices| > 0
  {
    FitsCounts(Width(Bounds(m)), Depth(Bounds(m)), c, pitch, tol)
  }

  /** Counts `infer_modules` returns fit the mesh's footprint within the tolerance. */
  lemma InferModulesSound(m: MeshData, pitch: real, tol: real)
    requires |m.vertices| > 0
    ensures InferModules(m, pitch, tol).Ok? ==> FitsFootprint(m, InferModules(m, pitch, tol).value, pitch, tol)
  {
    var w, d := Width(Bounds(m)), Depth(Bounds(m));
    InferCountsSound(w, d, pitch, tol);
    assert InferModules(m, pitch, tol) == InferCounts(w, d, pitch, tol);
  }

  /** A length within less than half a pitch of `n` pitches rounds to `n`. */
  lemma NearestCount(w: real, pitch: real, tol: real, n: int)
    requires pitch > 0.0 && 0.0 <= tol && 2.0 * tol < pitch
    requires Abs(w - n as real * pitch) <= tol
    ensures RoundHalfEven(w / pitch) == n
  {
    var q := w / pitch;
    assert q * pitch == w;
    var e := q - n as real;
    assert e * pitch == w - n as real * pitch;
    ScaleLess(e, 0.5, pitch);
    ScaleLess(-0.5, e, pitch);
    RoundHalfEvenUnique(q, n);
  }

  /** With a tolerance below half a pitch, `infer_modules` accepts exactly the
      footprints within the tolerance of a whole, positive number of modules,
      and then reports that number. */
  lemma InferCountsComplete(w: real, d: real, pitch: real, tol: real, n: int, m: int)
    requires pitch > 0.0 && 0.0 <= tol && 2.0 * tol < pitch
    requires n >= 1 && m >= 1 && w > 0.0 && d > 0.0
    requires Abs(w - n as real * pitch) <= tol && Abs(d - m as real * pitch) <= tol
    ensures InferCounts(w, d, pitch, tol) == Ok((n, m))
  {
    NearestCount(w, pitch, tol, n);
    NearestCount(d, pitch, tol, m);
  }

  /** The examples of the converter's own documentation: one and two 42 mm
      modules are recognised, a 50 mm footprint is rejected. */
  lemma InferCountsExamples()
    ensures InferCounts(42.0, 42.0, 42.0, InferTol) == Ok((1, 1))
    ensures InferCounts(84.1, 84.1, 42.0, InferTol) == Ok((2, 2))
    ensures InferCounts(84.1, 42.0, 42.0, InferTol) == Ok((2, 1))
    ensures InferCounts(50.0, 50.0, 42.0, InferTol).Err?
    ensures InferCounts(50.0, 50.0, 42.0, InferTol).error.FootprintMismatch?
  {
    InferCountsComplete(42.0, 42.0, 42.0, InferTol, 1, 1);
    InferCountsComplete(84.1, 84.1, 42.0, InferTol, 2, 2);
    InferCountsComplete(84.1, 42.0, 42.0, InferTol, 2, 1);
    RoundHalfEvenUnique(50.0 / 42.0, 1);
  }

  /** The decision of `validate_ref_tile_pitch` on a footprint `w` by `d`. */
  function CheckRefPitch(w: real, d: real, target: real, tol: real): (r: Result<()>)
    ensures r.Ok? <==> Abs(w - target) <= tol && Abs(d - target) <= tol
    ensures r.Err? ==> r.error == RefPitchMismatch(w, d, target)
  {
    if Abs(w - target) > tol || Abs(d - target) > tol then Err(RefPitchMismatch(w, d, target))
    else Ok(())
  }

  /** `validate_ref_tile_pitch(mesh, target_pitch_mm, tol_mm)`. */
  function ValidateRefTilePitch(m: MeshData, target: real, tol: real): Result<()>
    requires |m.vertices| > 0
  {
    CheckRefPitch(Width(Bounds(m)), Depth(Bounds(m)), target, tol)
  }

  /** A larger tolerance accepts every tile a smaller one accepts, and a tile
      of exactly the target size is accepted by any tolerance. */
  lemma CheckRefPitchMonotone(w: real, d: real, target: real, tol: real, tol2: real)
    requires tol <= tol2
    ensures CheckRefPitch(w, d, target, tol).Ok? ==> CheckRefPitch(w, d, target, tol2).Ok?
    ensures 0.0 <= tol ==> CheckRefPitch(target, target, target, tol).Ok?
  {
  }

  /** A reference tile accepted at pitch `p` with a tolerance below half a
      pitch is read by `infer_modules` as a single module. */
  lemma RefTileIsOneModule(m: MeshData, pitch: real, tol: real)
    requires |m.vertices| > 0 && pitch > 0.0 && 0.0 <= tol && 2.0 * tol < pitch
    requires ValidateRefTilePitch(m, pitch, tol).Ok?
    ensures InferModules(m, pitch, tol) == Ok((1, 1))
  {
    InferCountsComplete(Width(Bounds(m)), Depth(Bounds(m)), pitch, tol, 1, 1);
  }
}
