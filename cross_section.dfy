/** Horizontal cross-section area of a mesh: the raw plane/mesh intersection
    segments are chained greedily into loops, and the absolute shoelace areas
    of the closed loops are summed. */
module CrossSection {
  import opened Results
  import opened Numeric
  import opened Meshes

  /** Endpoint-matching tolerance used when chaining slice segments. */
  const TolChain: real := 0.0001

  function DistSq(p: Point2, q: Point2): real {
    (p.x - q.x) * (p.x - q.x) + (p.y - q.y) * (p.y - q.y)
  }

  /** `norm(p - q) <= tol`, compared on squares: no point is within a
      negative tolerance. */
  predicate Near(p: Point2, q: Point2, tol: real) {
    0.0 <= tol && DistSq(p, q) <= tol * tol
  }

  lemma NearSymmetric(p: Point2, q: Point2, tol: real)
    ensures Near(p, q, tol) <==> Near(q, p, tol)
  {
    assert DistSq(p, q) == DistSq(q, p);
  }

  // ---------------------------------------------------------------------
  // Shoelace formula

  /** The term one point contributes to `dot(x, roll(y, 1)) - dot(y, roll(x, 1))`:
      `roll(., 1)` pairs each point with its predecessor, the first with the last. */
  function Cross(prev: Point2, cur: Point2): real {
    cur.x * prev.y - cur.y * prev.x
  }

  lemma CrossSwap(p: Point2, q: Point2)
    ensures Cross(p, q) == -Cross(q, p)
  {
  }

  /** The point `roll(., 1)` lines up with point `k`. */
  function Prev(pts: seq<Point2>, k: nat): Point2
    requires k < |pts|
  {
    if k == 0 then pts[|pts| - 1] else pts[k - 1]
  }

  function Term(pts: seq<Point2>, k: nat): real
    requires k < |pts|
  {
    Cross(Prev(pts, k), pts[k])
  }

  function Terms(pts: seq<Point2>): (t: seq<real>)
    ensures |t| == |pts|
  {
    seq(|pts|, k requires 0 <= k < |pts| => Term(pts, k))
  }

  function Sum(s: seq<real>): real {
    if |s| == 0 then 0.0 else s[0] + Sum(s[1..])
  }

  /** `_shoelace_area`: half the sum of the cross terms; zero below three points.
      With the predecessor pairing above, a counter-clockwise polygon gets a
      negative value (see `ShoelaceTriangle`). */
  function ShoelaceArea(pts: seq<Point2>): real {
    if |pts| < 3 then 0.0 else 0.5 * Sum(Terms(pts))
  }

  lemma {:induction false} SumAppend(a: seq<real>, b: seq<real>)
    ensures Sum(a + b) == Sum(a) + Sum(b)
  {
    if |a| == 0 {
      assert a + b == b;
    } else {
      assert (a + b)[1..] == a[1..] + b;
      SumAppend(a[1..], b);
    }
  }

  lemma SumSingleton(x: real)
    ensures Sum([x]) == x
  {
    assert [x][1..] == [];
  }

  /** The elements negated and in reverse order. */
  function NegReverse(s: seq<real>): (r: seq<real>)
    ensures |r| == |s|
  {
    seq(|s|, i requires 0 <= i < |s| => -s[|s| - 1 - i])
  }

  lemma {:induction false} SumNegReverse(s: seq<real>)
    ensures Sum(NegReverse(s)) == -Sum(s)
  {
    if |s| > 0 {
      assert NegReverse(s) == NegReverse(s[1..]) + [-s[0]];
      SumAppend(NegReverse(s[1..]), [-s[0]]);
      SumSingleton(-s[0]);
      SumNegReverse(s[1..]);
    }
  }

  /** The first point moved to the end. */
  function Rotate(pts: seq<Point2>): (r: seq<Point2>)
    requires |pts| > 0
    ensures |r| == |pts|
  {
    pts[1..] + [pts[0]]
  }

  function Reverse(pts: seq<Point2>): (r: seq<Point2>)
    ensures |r| == |pts|
  {
    seq(|pts|, i requires 0 <= i < |pts| => pts[|pts| - 1 - i])
  }

  /** Starting the polygon at a different vertex does not change its area. */
  lemma ShoelaceRotate(pts: seq<Point2>)
    requires |pts| > 0
    ensures ShoelaceArea(Rotate(pts)) == ShoelaceArea(pts)
  {
    if |pts| >= 3 {
      var t := Terms(pts);
      var n := |pts|;
      var rt := Terms(Rotate(pts));
      assert rt == t[1..] + [t[0]] by {
        forall k | 0 <= k < n
          ensures rt[k] == (t[1..] + [t[0]])[k]
        {
          if k < n - 1 {
            assert Rotate(pts)[k] == pts[k + 1];
            if k == 0 { assert Rotate(pts)[n - 1] == pts[0]; }
          } else {
            assert Rotate(pts)[k - 1] == pts[n - 1];
          }
        }
      }
      SumAppend(t[1..], [t[0]]);
      SumSingleton(t[0]);
    }
  }

  /** Term `k > 0` of the reversed polygon is the negated term `n - k` of the original. */
  lemma ReverseTerm(pts: seq<Point2>, k: nat)
    requires 0 < k < |pts|
    ensures Term(Reverse(pts), k) == -Term(pts, |pts| - k)
  {
    var n := |pts|;
    var p, q := pts[n - k], pts[n - 1 - k];
    assert Prev(Reverse(pts), k) == p && Reverse(pts)[k] == q;
    assert Prev(pts, n - k) == q;
    CrossSwap(p, q);
  }

  lemma ReverseFirstTerm(pts: seq<Point2>)
    requires 0 < |pts|
    ensures Term(Reverse(pts), 0) == -Term(pts, 0)
  {
    var n := |pts|;
    assert Prev(Reverse(pts), 0) == pts[0] && Reverse(pts)[0] == pts[n - 1];
    assert Prev(pts, 0) == pts[n - 1];
    CrossSwap(pts[0], pts[n - 1]);
  }

  /** Traversing the polygon the other way round negates its signed area. */
  lemma ShoelaceReverse(pts: seq<Point2>)
    ensures ShoelaceArea(Reverse(pts)) == -ShoelaceArea(pts)
  {
    if |pts| >= 3 {
      var t := Terms(pts);
      var n := |pts|;
      var rt := Terms(Reverse(pts));
      var nr := [-t[0]] + NegReverse(t[1..]);
      assert rt == nr by {
        forall k | 0 <= k < n
          ensures rt[k] == nr[k]
        {
          if k == 0 {
            ReverseFirstTerm(pts);
          } else {
            ReverseTerm(pts, k);
          }
        }
      }
      SumAppend([-t[0]], NegReverse(t[1..]));
      SumSingleton(-t[0]);
      SumNegReverse(t[1..]);
    }
  }

  /** A triangle's signed area, term by term. */
  lemma ShoelaceOfTriangle(p: Point2, q: Point2, r: Point2)
    ensures ShoelaceArea([p, q, r]) == 0.5 * (Cross(r, p) + Cross(p, q) + Cross(q, r))
  {
    var pts := [p, q, r];
    var t := Terms(pts);
    assert t[0] == Cross(r, p) by { assert Prev(pts, 0) == r; }
    assert t[1] == Cross(p, q) by { assert Prev(pts, 1) == p; }
    assert t[2] == Cross(q, r) by { assert Prev(pts, 2) == q; }
    assert t[1..][1..] == [t[2]];
    SumSingleton(t[2]);
    assert Sum(t[1..]) == t[1] + t[2];
    assert Sum(t) == t[0] + Sum(t[1..]);
  }

  /** The counter-clockwise unit right triangle has area 1/2 and, under the
      source's pairing, a negative sign. */
  lemma ShoelaceTriangle()
    ensures ShoelaceArea([Point2(0.0, 0.0), Point2(1.0, 0.0), Point2(0.0, 1.0)]) == -0.5
  {
    var o, e1, e2 := Point2(0.0, 0.0), Point2(1.0, 0.0), Point2(0.0, 1.0);
    ShoelaceOfTriangle(o, e1, e2);
    assert Cross(e2, o) == 0.0 && Cross(o, e1) == 0.0 && Cross(e1, e2) == -1.0;
  }

  // ---------------------------------------------------------------------
  // Greedy chaining

  /** Segment `j` cannot be attached to `tail`: it is used, or neither
      endpoint is within `tol` of the tail. */
  predicate Skipped(segs: seq<Segment>, used: seq<bool>, tail: Point2, tol: real, j: nat)
    requires |used| == |segs| && j < |segs|
  {
    used[j] || (!Near(tail, segs[j].a, tol) && !Near(tail, segs[j].b, tol))
  }

  /** The segment found for the tail, and the endpoint that becomes the new tail. */
  datatype Match = Match(index: nat, next: Point2)

  /** Attaching segment `m.index` is the deliberate choice: it is unused, its
      `a` end touches the tail (then `b` is next) or else its `b` end does
      (then `a` is next). */
  predicate Attaches(segs: seq<Segment>, used: seq<bool>, tail: Point2, tol: real, m: Match)
    requires |used| == |segs|
  {
    m.index < |segs| && !used[m.index] &&
    ((Near(tail, segs[m.index].a, tol) && m.next == segs[m.index].b) ||
     (!Near(tail, segs[m.index].a, tol) && Near(tail, segs[m.index].b, tol) && m.next == segs[m.index].a))
  }

  /** The inner scan over `range(len(segs))` from index `i`. */
  function FindFrom(segs: seq<Segment>, used: seq<bool>, tail: Point2, tol: real, i: nat): (r: Option<Match>)
    requires |used| == |segs| && i <= |segs|
    ensures r.Some? ==> i <= r.value.index && Attaches(segs, used, tail, tol, r.value)
    ensures r.Some? ==> forall j :: i <= j < r.value.index ==> Skipped(segs, used, tail, tol, j)
    ensures r.None? ==> forall j :: i <= j < |segs| ==> Skipped(segs, used, tail, tol, j)
    decreases |segs| - i
  {
    if i == |segs| then None
    else if used[i] then FindFrom(segs, used, tail, tol, i + 1)
    else if Near(tail, segs[i].a, tol) then Some(Match(i, segs[i].b))
    else if Near(tail, segs[i].b, tol) then Some(Match(i, segs[i].a))
    else FindFrom(segs, used, tail, tol, i + 1)
  }

  /** First match, declaratively: the scan picks exactly the attachable
      segment of least index, and finds nothing exactly when every segment
      is skipped. */
  lemma FindFirst(segs: seq<Segment>, used: seq<bool>, tail: Point2, tol: real, m: Match)
    requires |used| == |segs|
    ensures FindFrom(segs, used, tail, tol, 0) == Some(m) <==>
      (Attaches(segs, used, tail, tol, m) && forall j :: 0 <= j < m.index ==> Skipped(segs, used, tail, tol, j))
  {
    var r := FindFrom(segs, used, tail, tol, 0);
    if Attaches(segs, used, tail, tol, m) && forall j :: 0 <= j < m.index ==> Skipped(segs, used, tail, tol, j) {
      assert !Skipped(segs, used, tail, tol, m.index);
      assert r.Some?;
      assert !Skipped(segs, used, tail, tol, r.value.index);
      assert r.value.index == m.index;
    }
  }

  lemma FindNone(segs: seq<Segment>, used: seq<bool>, tail: Point2, tol: real)
    requires |used| == |segs|
    ensures FindFrom(segs, used, tail, tol, 0) == None <==>
      forall j :: 0 <= j < |segs| ==> Skipped(segs, used, tail, tol, j)
  {
    var r := FindFrom(segs, used, tail, tol, 0);
    if r.Some? {
      assert !Skipped(segs, used, tail, tol, r.value.index);
    }
  }

  /** Number of segments not yet used. */
  function CountFree(used: seq<bool>): (n: nat)
    ensures n <= |used|
  {
    if |used| == 0 then 0 else (if used[0] then 0 else 1) + CountFree(used[1..])
  }

  lemma {:induction false} CountFreeMark(used: seq<bool>, i: nat)
    requires i < |used| && !used[i]
    ensures CountFree(used[i := true]) == CountFree(used) - 1
  {
    if i > 0 {
      assert used[i := true][1..] == used[1..][i - 1 := true];
      CountFreeMark(used[1..], i - 1);
    }
  }

  lemma {:induction false} CountFreeNone(n: nat)
    ensures CountFree(seq(n, _ => false)) == n
  {
    if n > 0 {
      assert seq(n, _ => false)[1..] == seq(n - 1, _ => false);
      CountFreeNone(n - 1);
    }
  }

  lemma {:induction false} CountFreeAllUsed(used: seq<bool>)
    requires forall j :: 0 <= j < |used| ==> used[j]
    ensures CountFree(used) == 0
  {
    if |used| > 0 {
      CountFreeAllUsed(used[1..]);
    }
  }

  /** `used` grows to `used'`: nothing becomes unused again. */
  predicate Grows(used: seq<bool>, used': seq<bool>) {
    |used| == |used'| && forall j :: 0 <= j < |used| && used[j] ==> used'[j]
  }

  /** The state of one loop being chained. */
  datatype Chain = Chain(used: seq<bool>, loop: seq<Point2>)

  /** The `while True` loop: attach the first match to the tail until none
      is left. The loop only grows at its end, by one point per segment
      consumed, and stops at a tail that no unused segment touches. */
  function Extend(segs: seq<Segment>, used: seq<bool>, loop: seq<Point2>, tol: real): (c: Chain)
    requires |used| == |segs| && |loop| > 0
    ensures Grows(used, c.used)
    ensures |c.loop| >= |loop| && c.loop[..|loop|] == loop
    ensures |c.loop| - |loop| == CountFree(used) - CountFree(c.used)
    ensures FindFrom(segs, c.used, c.loop[|c.loop| - 1], tol, 0).None?
    decreases CountFree(used)
  {
    match FindFrom(segs, used, loop[|loop| - 1], tol, 0)
    case None => Chain(used, loop)
    case Some(m) =>
      CountFreeMark(used, m.index);
      var c := Extend(segs, used[m.index := true], loop + [m.next], tol);
      assert c.loop[..|loop|] == (c.loop[..|loop| + 1])[..|loop|];
      c
  }

  /** The loop chained from `start` (which becomes used), given the segments used so far. */
  function StartChain(segs: seq<Segment>, used: seq<bool>, start: nat, tol: real): Chain
    requires |used| == |segs| && start < |segs|
  {
    Extend(segs, used[start := true], [segs[start].a, segs[start].b], tol)
  }

  datatype ScanState = ScanState(used: seq<bool>, loops: seq<seq<Point2>>)

  /** The outer `for start` loop from `start` on, with the loops chained so far. */
  function Scan(segs: seq<Segment>, used: seq<bool>, start: nat, loops: seq<seq<Point2>>, tol: real): (s: ScanState)
    requires |used| == |segs| && start <= |segs|
    ensures |s.used| == |segs|
    decreases |segs| - start
  {
    if start == |segs| then ScanState(used, loops)
    else if used[start] then Scan(segs, used, start + 1, loops, tol)
    else
      var c := StartChain(segs, used, start, tol);
      Scan(segs, c.used, start + 1, loops + [c.loop], tol)
  }

  /** Segments a list of loops accounts for: a loop of `k` points consumed `k - 1`. */
  function SegmentsIn(loops: seq<seq<Point2>>): int {
    if |loops| == 0 then 0 else SegmentsIn(loops[..|loops| - 1]) + |loops[|loops| - 1]| - 1
  }

  lemma {:induction false} SegmentsInAppend(a: seq<seq<Point2>>, b: seq<seq<Point2>>)
    ensures SegmentsIn(a + b) == SegmentsIn(a) + SegmentsIn(b)
  {
    if |b| > 0 {
      assert (a + b)[..|a + b| - 1] == a + b[..|b| - 1];
      SegmentsInAppend(a, b[..|b| - 1]);
    } else {
      assert a + b == a;
    }
  }

  /** What the outer loop accomplishes from `start` on, when every earlier
      segment is already used: the loops found so far are kept, every segment
      ends up used, and each new loop has at least the two points of its
      first segment. */
  lemma {:induction false} ScanAccounts(segs: seq<Segment>, used: seq<bool>, start: nat, loops: seq<seq<Point2>>, tol: real)
    requires |used| == |segs| && start <= |segs|
    requires forall j :: 0 <= j < start ==> used[j]
    ensures var s := Scan(segs, used, start, loops, tol);
      Grows(used, s.used) && (forall j :: 0 <= j < |segs| ==> s.used[j]) &&
      |s.loops| >= |loops| && s.loops[..|loops|] == loops &&
      (forall k :: |loops| <= k < |s.loops| ==> |s.loops[k]| >= 2)
    decreases |segs| - start
  {
    var s := Scan(segs, used, start, loops, tol);
    if start == |segs| {
    } else if used[start] {
      ScanAccounts(segs, used, start + 1, loops, tol);
    } else {
      var c := StartChain(segs, used, start, tol);
      var loops' := loops + [c.loop];
      ScanAccounts(segs, c.used, start + 1, loops', tol);
      assert s.loops[..|loops|] == s.loops[..|loops'|][..|loops|];
      forall k | |loops| <= k < |s.loops|
        ensures |s.loops[k]| >= 2
      {
        if k == |loops| {
          assert s.loops[k] == s.loops[..|loops'|][k];
        }
      }
    }
  }

  /** Under the same conditions, the new loops account for exactly the
      segments that were still free. */
  lemma {:induction false} ScanCounts(segs: seq<Segment>, used: seq<bool>, start: nat, loops: seq<seq<Point2>>, tol: real)
    requires |used| == |segs| && start <= |segs|
    requires forall j :: 0 <= j < start ==> used[j]
    ensures SegmentsIn(Scan(segs, used, start, loops, tol).loops) == SegmentsIn(loops) + CountFree(used)
    decreases |segs| - start
  {
    if start == |segs| {
      CountFreeAllUsed(used);
    } else if used[start] {
      ScanCounts(segs, used, start + 1, loops, tol);
    } else {
      var c := StartChain(segs, used, start, tol);
      CountFreeMark(used, start);
      var loops' := loops + [c.loop];
      assert SegmentsIn(loops') == SegmentsIn(loops) + |c.loop| - 1 by {
        assert loops'[..|loops'| - 1] == loops;
      }
      ScanCounts(segs, c.used, start + 1, loops', tol);
    }
  }

  /** Nothing used yet: `np.zeros(len(segs), dtype=bool)`. */
  function NoneUsed(n: nat): (u: seq<bool>)
    ensures |u| == n
  {
    seq(n, _ => false)
  }

  /** Every loop the greedy chaining builds, in order of their first segment. */
  function Loops(segs: seq<Segment>, tol: real): seq<seq<Point2>> {
    Scan(segs, NoneUsed(|segs|), 0, [], tol).loops
  }

  /** Every segment is used, and used exactly once: the loops hold one point
      more than their segment count each, and their segment counts add up
      to the number of segments. */
  lemma EachSegmentOnce(segs: seq<Segment>, tol: real)
    ensures forall j :: 0 <= j < |segs| ==> Scan(segs, NoneUsed(|segs|), 0, [], tol).used[j]
    ensures SegmentsIn(Loops(segs, tol)) == |segs|
    ensures forall k :: 0 <= k < |Loops(segs, tol)| ==> |Loops(segs, tol)[k]| >= 2
  {
    ScanAccounts(segs, NoneUsed(|segs|), 0, [], tol);
    ScanCounts(segs, NoneUsed(|segs|), 0, [], tol);
    CountFreeNone(|segs|);
  }

  /** A loop's share of the total: the absolute shoelace area of all its points
      but the last, if it has at least three points and its last point is back
      within `tol` of its head; zero for an open chain. A non-zero share needs
      a closed loop of at least four points (three distinct corners). */
  function LoopArea(loop: seq<Point2>, tol: real): (r: real)
    ensures r >= 0.0
    ensures r != 0.0 ==> |loop| >= 4 && Near(loop[|loop| - 1], loop[0], tol)
  {
    if |loop| >= 3 && Near(loop[|loop| - 1], loop[0], tol) then Abs(ShoelaceArea(loop[..|loop| - 1])) else 0.0
  }

  /** The running `total`, added up in loop order. */
  function SumAreas(loops: seq<seq<Point2>>, tol: real): (r: real)
    ensures r >= 0.0
  {
    if |loops| == 0 then 0.0 else SumAreas(loops[..|loops| - 1], tol) + LoopArea(loops[|loops| - 1], tol)
  }

  lemma SumAreasSnoc(loops: seq<seq<Point2>>, loop: seq<Point2>, tol: real)
    ensures SumAreas(loops + [loop], tol) == SumAreas(loops, tol) + LoopArea(loop, tol)
  {
    assert (loops + [loop])[..|loops|] == loops;
  }

  /** `_polygon_area_from_segments` as a value: non-negative, zero without segments. */
  function SegmentsArea(segs: seq<Segment>, tol: real): (r: real)
    ensures r >= 0.0
    ensures |segs| == 0 ==> r == 0.0
  {
    if |segs| == 0 then 0.0 else SumAreas(Loops(segs, tol), tol)
  }

  /** A reversed closed polygon, listed as a closed chain, has the same share. */
  lemma LoopAreaReverse(pts: seq<Point2>, tol: real)
    requires |pts| >= 2 && 0.0 <= tol
    ensures LoopArea(Reverse(pts) + [pts[|pts| - 1]], tol) == LoopArea(pts + [pts[0]], tol)
  {
    var l1 := pts + [pts[0]];
    var l2 := Reverse(pts) + [pts[|pts| - 1]];
    assert l1[..|l1| - 1] == pts;
    assert l2[..|l2| - 1] == Reverse(pts);
    ShoelaceReverse(pts);
  }

  /** The body of the outer loop up to the closing test: start a loop at
      the free segment `start`, then run the `while True` chaining in place
      on `used`. The loop and the new `used` are the ones `StartChain` predicts. */
  method ChainFrom(segs: seq<Segment>, used: array<bool>, start: nat, tol: real) returns (loop: seq<Point2>)
    requires used.Length == |segs| && start < |segs| && !used[start]
    modifies used
    ensures |loop| >= 2 && loop[0] == segs[start].a
    ensures Chain(used[..], loop) == StartChain(segs, old(used[..]), start, tol)
  {
    ghost var before := used[..];
    loop := [segs[start].a, segs[start].b];
    used[start] := true;
    var tail := loop[|loop| - 1];
    while true
      invariant |loop| >= 2 && loop[0] == segs[start].a && tail == loop[|loop| - 1]
      invariant Extend(segs, used[..], loop, tol) == StartChain(segs, before, start, tol)
      decreases CountFree(used[..])
    {
      var found := FindNext(segs, used, tail, tol);
      if found.None? {
        break;
      }
      var m := found.value;
      CountFreeMark(used[..], m.index);
      loop := loop + [m.next];
      tail := m.next;
      used[m.index] := true;
    }
  }

  /** One pass of the inner `for i in range(len(segs))` loop: the first unused
      segment with an end near `tail`, and the end it leads to. */
  method FindNext(segs: seq<Segment>, used: array<bool>, tail: Point2, tol: real) returns (r: Option<Match>)
    requires used.Length == |segs|
    ensures r == FindFrom(segs, used[..], tail, tol, 0)
  {
    var i := 0;
    while i < |segs|
      invariant 0 <= i <= |segs|
      invariant FindFrom(segs, used[..], tail, tol, i) == FindFrom(segs, used[..], tail, tol, 0)
    {
      if used[i] {
        i := i + 1;
        continue;
      }
      var a, b := segs[i].a, segs[i].b;
      if Near(tail, a, tol) {
        return Some(Match(i, b));
      }
      if Near(tail, b, tol) {
        return Some(Match(i, a));
      }
      i := i + 1;
    }
    return None;
  }

  /** `_polygon_area_from_segments(segs)` with the chaining tolerance as a parameter. */
  method PolygonAreaFromSegments(segs: seq<Segment>, tol: real) returns (total: real)
    ensures total == SegmentsArea(segs, tol)
  {
    if |segs| == 0 {
      return 0.0;
    }
    var used := new bool[|segs|](_ => false);
    assert used[..] == NoneUsed(|segs|);
    total := 0.0;
    ghost var loops: seq<seq<Point2>> := [];
    for start := 0 to |segs|
      invariant Scan(segs, used[..], start, loops, tol) == Scan(segs, NoneUsed(|segs|), 0, [], tol)
      invariant total == SumAreas(loops, tol)
    {
      if used[start] {
        continue;
      }
      var loop := ChainFrom(segs, used, start, tol);
      var head := loop[0];
      ghost var total0 := total;
      if |loop| >= 3 && Near(loop[|loop| - 1], head, tol) {
        var pts := loop[..|loop| - 1];
        total := total + Abs(ShoelaceArea(pts));
      }
      assert total == total0 + LoopArea(loop, tol);
      SumAreasSnoc(loops, loop, tol);
      loops := loops + [loop];
    }
  }

  /** `_cross_section_area_at_z`: zero when slicing raises or yields nothing,
      otherwise the chained area of the segments' XY projections. */
  function AreaAtZ(lib: MeshLib, m: MeshData, z: real): (r: real)
    ensures r >= 0.0
    ensures lib.meshPlane(m, z).None? ==> r == 0.0
    ensures lib.meshPlane(m, z) == Some([]) ==> r == 0.0
  {
    match lib.meshPlane(m, z)
    case None => 0.0
    case Some(segs) => if |segs| == 0 then 0.0 else SegmentsArea(segs, TolChain)
  }

  /** A successful slice contributes the chained area of its segments. */
  lemma AreaAtZOfSlice(lib: MeshLib, m: MeshData, z: real)
    requires lib.meshPlane(m, z).Some?
    ensures AreaAtZ(lib, m, z) == SegmentsArea(lib.meshPlane(m, z).value, TolChain)
  {
  }

  method CrossSectionAreaAtZ(lib: MeshLib, m: MeshData, z: real) returns (area: real)
    ensures area == AreaAtZ(lib, m, z)
  {
    var lines := lib.meshPlane(m, z);
    if lines.None? || |lines.value| == 0 {
      return 0.0;
    }
    area := PolygonAreaFromSegments(lines.value, TolChain);
  }
}
