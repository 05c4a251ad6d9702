/** The index walks of the forward-road renderer (PythonTesting/Main.py):
    finding the sample nearest the driver, walking forward from it for a
    fixed distance or until a turn, assembling the road polygon from the
    walked samples, and the dedupe pass of polyline sampling. Floating-point
    geometry (distances, the tangent's length, angles, the camera transform
    and the projection) is given as the `Geometry` parameter. */
module RoadView {
  import opened Http

  type Point = (real, real)
  type ScreenPoint = (int, int)

  /** The geometric primitives the walks use, taken as given. */
  datatype Geometry = Geometry(
    dist: (Point, Point) -> real,               // `dist(a, b)`, the length of b - a
    hypot: (real, real) -> real,                // `math.hypot(vx, vy)`
    angleDeg: (Point, Point) -> real,           // `angle_between_deg(u, v)`
    toCamera: (Point, Point, real) -> Point,    // `to_camera_frame(pt, driver_pos, heading)`
    project: (real, real, int, int) -> ScreenPoint)  // `project_point(lateral, forward, w, h)`

  const SAMPLE_STEP: real := 0.5
  const ROAD_WIDTH: real := 6.0
  const FORWARD_DISTANCE: real := 150.0
  const LOOKAHEAD_METERS: real := 30.0
  const TURN_ANGLE_DEG: real := 10.0
  const DEDUPE_EPSILON: real := 0.000001

  function Abs(x: real): real
  {
    if x < 0.0 then -x else x
  }

  /** [lo, lo + 1, ..., hi - 1]. */
  function Range(lo: nat, hi: nat): (r: seq<nat>)
    requires lo <= hi
    ensures |r| == hi - lo
    ensures forall k :: 0 <= k < |r| ==> r[k] == lo + k
  {
    seq(hi - lo, k requires 0 <= k < hi - lo => lo + k)
  }

  // ---------------------------------------------------------------------
  // find_closest_index

  /** A distance that may still be `float('inf')`. */
  datatype Extended = Infinity | Finite(value: real)

  function Below(d: real, best: Extended): bool
  {
    best.Infinity? || d < best.value
  }

  /** The index of the first sample nearest `pos` and its distance; an empty
      list gives (0, inf). */
  method FindClosestIndex(g: Geometry, samples: seq<Point>, pos: Point) returns (bestI: nat, bestD: Extended)
    ensures samples == [] ==> bestI == 0 && bestD == Infinity
    ensures samples != [] ==> bestI < |samples| && bestD == Finite(g.dist(samples[bestI], pos))
    ensures samples != [] ==> forall j :: 0 <= j < |samples| ==> g.dist(samples[bestI], pos) <= g.dist(samples[j], pos)
    ensures samples != [] ==> forall j :: 0 <= j < bestI ==> g.dist(samples[bestI], pos) < g.dist(samples[j], pos)
  {
    bestI, bestD := 0, Infinity;
    var i := 0;
    while i < |samples|
      invariant 0 <= i <= |samples|
      invariant i == 0 ==> bestI == 0 && bestD == Infinity
      invariant i > 0 ==> bestI < i && bestD == Finite(g.dist(samples[bestI], pos))
      invariant i > 0 ==> forall j :: 0 <= j < i ==> bestD.value <= g.dist(samples[j], pos)
      invariant i > 0 ==> forall j :: 0 <= j < bestI ==> bestD.value < g.dist(samples[j], pos)
    {
      var d := g.dist(samples[i], pos);
      if Below(d, bestD) {
        bestD := Finite(d);
        bestI := i;
      }
      i := i + 1;
    }
  }

  // ---------------------------------------------------------------------
  // forward_fixed_distance and forward_until_turn

  /** The distance a walk from `start` adds on reaching sample `i`: from the
      start sample to itself first, then from the previous sample. */
  function Step(g: Geometry, samples: seq<Point>, start: nat, i: nat): (d: real)
    requires start <= i < |samples|
    ensures i == start ==> d == g.dist(samples[start], samples[start])
    ensures i > start ==> d == g.dist(samples[i - 1], samples[i])
    ensures (forall p: Point, q: Point :: g.dist(p, q) >= 0.0) ==> d >= 0.0
  {
    if i == start then g.dist(samples[start], samples[start]) else g.dist(samples[i - 1], samples[i])
  }

  /** The cumulative distance `cum` of a walk from `start` after sample `k`. */
  function Walked(g: Geometry, samples: seq<Point>, start: nat, k: nat): (w: real)
    requires start <= k < |samples|
    ensures k == start ==> w == g.dist(samples[start], samples[start])
    ensures (forall p: Point, q: Point :: g.dist(p, q) >= 0.0) ==> w >= 0.0
    decreases k - start
  {
    (if k == start then 0.0 else Walked(g, samples, start, k - 1)) + Step(g, samples, start, k)
  }

  /** The walk from `start`, in order, up to and including the first index
      at which `stop` holds, or to the last sample if it never does. */
  ghost predicate WalkStopsAtFirst(samples: seq<Point>, start: nat, r: seq<nat>, stop: nat -> bool)
  {
    && 0 < |r| && start + |r| <= |samples|
    && r == Range(start, start + |r|)
    && (stop(start + |r| - 1) || start + |r| == |samples|)
    && (forall k :: start <= k < start + |r| - 1 ==> !stop(k))
  }

  /** Walk forward from `startIdx` until the walked distance reaches
      `lookahead`; `None` when `samples[start_idx]` raises IndexError. */
  method ForwardFixedDistance(g: Geometry, samples: seq<Point>, startIdx: nat, lookahead: real)
    returns (r: Option<seq<nat>>)
    ensures r.None? <==> startIdx >= |samples|
    ensures r.Some? ==> WalkStopsAtFirst(samples, startIdx, r.value,
                                         k => startIdx <= k < |samples| && Walked(g, samples, startIdx, k) >= lookahead)
    ensures r.Some? ==> r.value[0] == startIdx
  {
    if startIdx >= |samples| {
      return None;
    }
    var indices: seq<nat> := [];
    var cum := 0.0;
    var prev := samples[startIdx];
    var i := startIdx;
    while i < |samples|
      invariant startIdx <= i <= |samples|
      invariant indices == Range(startIdx, i)
      invariant prev == if i == startIdx then samples[startIdx] else samples[i - 1]
      invariant cum == if i == startIdx then 0.0 else Walked(g, samples, startIdx, i - 1)
      invariant forall k :: startIdx <= k < i ==> Walked(g, samples, startIdx, k) < lookahead
    {
      var p := samples[i];
      cum := cum + g.dist(prev, p);
      indices := indices + [i];
      if cum >= lookahead {
        break;
      }
      prev := p;
      i := i + 1;
    }
    r := Some(indices);
  }

  /** The two samples `tangent_at` differences: one-sided at the ends, central
      inside; `None` when an index it reads is out of range. */
  function TangentNeighbours(n: nat, idx: nat): (r: Option<(nat, nat)>)
    ensures r.Some? <==> idx < n && 2 <= n
    ensures r.Some? ==> r.value.0 <= idx <= r.value.1 < n && r.value.0 < r.value.1
    ensures r.Some? && idx == 0 ==> r.value == (0, 1)
    ensures r.Some? && idx == n - 1 ==> r.value.1 == idx && r.value.0 == idx - 1
    ensures r.Some? && 0 < idx < n - 1 ==> r.value == (idx - 1, idx + 1)
  {
    if idx == 0 then (if 2 <= n then Some((0, 1)) else None)
    else if idx == n - 1 then Some((n - 2, n - 1))
    else if idx + 1 < n then Some((idx - 1, idx + 1))
    else None
  }

  /** `tangent_at`: the neighbours' difference scaled by its length, or (1, 0)
      when that length is 0. */
  function TangentAt(g: Geometry, samples: seq<Point>, idx: nat): (t: Option<Point>)
    ensures t.Some? <==> idx < |samples| && 2 <= |samples|
  {
    match TangentNeighbours(|samples|, idx)
    case None => None
    case Some((a, b)) =>
      var vx := samples[b].0 - samples[a].0;
      var vy := samples[b].1 - samples[a].1;
      var len := g.hypot(vx, vy);
      if len == 0.0 then Some((1.0, 0.0)) else Some((vx / len, vy / len))
  }

  /** `abs(angle_between_deg(prev_tan, cur_tan)) >= turn_angle` at sample `i`
      of a walk from `start`. */
  function TurnAt(g: Geometry, samples: seq<Point>, start: nat, i: nat, turnAngle: real): (turn: bool)
    requires start <= i < |samples| && 2 <= |samples|
    ensures turnAngle <= 0.0 ==> turn
    ensures i > start ==> (turn <==> Abs(g.angleDeg(TangentAt(g, samples, i - 1).value, TangentAt(g, samples, i).value)) >= turnAngle)
  {
    var prevTan := TangentAt(g, samples, if i == start then start else i - 1).value;
    var curTan := TangentAt(g, samples, i).value;
    Abs(g.angleDeg(prevTan, curTan)) >= turnAngle
  }

  predicate UntilTurnStop(g: Geometry, samples: seq<Point>, start: nat, maxDistance: real, turnAngle: real, k: nat)
  {
    && start <= k < |samples| && 2 <= |samples|
    && (Walked(g, samples, start, k) >= maxDistance || (TurnAt(g, samples, start, k, turnAngle) && k > start + 2))
  }

  /** Walk forward from `startIdx` until the distance limit or a turn; a turn
      counts only after the third sample. `None` when an index the walk reads
      is out of range (the start itself, or a neighbour for the first tangent). */
  method ForwardUntilTurn(g: Geometry, samples: seq<Point>, startIdx: nat, maxDistance: real, turnAngle: real)
    returns (r: Option<seq<nat>>)
    ensures r.None? <==> startIdx >= |samples| || |samples| < 2
    ensures r.Some? ==> WalkStopsAtFirst(samples, startIdx, r.value,
                                         (k: nat) => UntilTurnStop(g, samples, startIdx, maxDistance, turnAngle, k))
    ensures r.Some? ==> var j := startIdx + |r.value| - 1;
                        j < startIdx + 3 ==> Walked(g, samples, startIdx, j) >= maxDistance || j == |samples| - 1
  {
    if startIdx >= |samples| || |samples| < 2 {
      return None;
    }
    var indices: seq<nat> := [];
    var cum := 0.0;
    var prev := samples[startIdx];
    var prevTan := TangentAt(g, samples, startIdx).value;
    var i := startIdx;
    while i < |samples|
      invariant startIdx <= i <= |samples|
      invariant indices == Range(startIdx, i)
      invariant prev == if i == startIdx then samples[startIdx] else samples[i - 1]
      invariant prevTan == TangentAt(g, samples, if i == startIdx then startIdx else i - 1).value
      invariant cum == if i == startIdx then 0.0 else Walked(g, samples, startIdx, i - 1)
      invariant forall k :: startIdx <= k < i ==> !UntilTurnStop(g, samples, startIdx, maxDistance, turnAngle, k)
    {
      var p := samples[i];
      cum := cum + g.dist(prev, p);
      indices := indices + [i];
      if cum >= maxDistance {
        break;
      }
      var curTan := TangentAt(g, samples, i).value;
      var ang := Abs(g.angleDeg(prevTan, curTan));
      if ang >= turnAngle && i > startIdx + 2 {
        break;
      }
      prev := p;
      prevTan := curTan;
      i := i + 1;
    }
    r := Some(indices);
  }

  /** With `hypot(0, 0) == 0`, coinciding neighbours give the tangent (1, 0). */
  lemma TangentOfCoincidentNeighbours(g: Geometry, samples: seq<Point>, idx: nat)
    requires idx < |samples| && 2 <= |samples|
    requires g.hypot(0.0, 0.0) == 0.0
    requires var nb := TangentNeighbours(|samples|, idx).value; samples[nb.0] == samples[nb.1]
    ensures TangentAt(g, samples, idx) == Some((1.0, 0.0))
  {
  }

  /** With a non-negative distance, the walked distance never decreases. */
  lemma {:induction false} WalkedMonotone(g: Geometry, samples: seq<Point>, start: nat, j: nat, k: nat)
    requires start <= j <= k < |samples|
    requires forall p: Point, q: Point :: g.dist(p, q) >= 0.0
    ensures Walked(g, samples, start, j) <= Walked(g, samples, start, k)
    decreases k - j
  {
    if j < k {
      WalkedMonotone(g, samples, start, j, k - 1);
    }
  }

  /** With `dist(p, p) == 0` the start sample adds nothing, so a positive
      lookahead always lets the walk go past the start when there is a next sample. */
  lemma StartAddsNothing(g: Geometry, samples: seq<Point>, start: nat, lookahead: real)
    requires start < |samples|
    requires forall p: Point :: g.dist(p, p) == 0.0
    requires lookahead > 0.0
    ensures Walked(g, samples, start, start) == 0.0
    ensures !(Walked(g, samples, start, start) >= lookahead)
  {
  }

  // ---------------------------------------------------------------------
  // build_road_polygon

  /** The left and right road edges at sample `i`: half a road width either
      side of the sample, along the normal of its tangent. */
  function EdgePoints(g: Geometry, samples: seq<Point>, i: nat, roadWidth: real): (e: (Point, Point))
    requires i < |samples| && 2 <= |samples|
    ensures (e.0.0 + e.1.0) / 2.0 == samples[i].0 && (e.0.1 + e.1.1) / 2.0 == samples[i].1
  {
    var c := samples[i];
    var tan := TangentAt(g, samples, i).value;
    var (nx, ny) := (tan.1, -tan.0);
    var half := roadWidth / 2.0;
    ((c.0 - nx * half, c.1 - ny * half), (c.0 + nx * half, c.1 + ny * half))
  }

  /** The projected left and right road edges at sample `i`, or `None` when
      both edge points are behind the camera and the sample is skipped. */
  function EdgeAt(g: Geometry, samples: seq<Point>, i: nat, driverPos: Point, heading: real,
                  roadWidth: real, screenW: int, screenH: int): (r: Option<(ScreenPoint, ScreenPoint)>)
    requires i < |samples| && 2 <= |samples|
    ensures var (left, right) := EdgePoints(g, samples, i, roadWidth);
            var lf := g.toCamera(left, driverPos, heading);
            var rf := g.toCamera(right, driverPos, heading);
            && (r.None? <==> lf.0 <= 0.0 && rf.0 <= 0.0)
            && (r.Some? ==> r.value == (g.project(lf.1, lf.0, screenW, screenH), g.project(rf.1, rf.0, screenW, screenH)))
  {
    var (left, right) := EdgePoints(g, samples, i, roadWidth);
    var lf := g.toCamera(left, driverPos, heading);
    var rf := g.toCamera(right, driverPos, heading);
    if lf.0 <= 0.0 && rf.0 <= 0.0 then None
    else Some((g.project(lf.1, lf.0, screenW, screenH), g.project(rf.1, rf.0, screenW, screenH)))
  }

  ghost predicate IndicesInRange(samples: seq<Point>, indices: seq<nat>)
  {
    forall k :: 0 <= k < |indices| ==> indices[k] < |samples| && 2 <= |samples|
  }

  /** The (left, right) pairs kept along `indices`, nearest first. */
  function KeptEdges(g: Geometry, samples: seq<Point>, indices: seq<nat>, driverPos: Point, heading: real,
                     roadWidth: real, screenW: int, screenH: int): (e: seq<(ScreenPoint, ScreenPoint)>)
    requires IndicesInRange(samples, indices)
    ensures |e| <= |indices|
  {
    if indices == [] then []
    else
      KeptEdges(g, samples, indices[..|indices| - 1], driverPos, heading, roadWidth, screenW, screenH)
      + match EdgeAt(g, samples, indices[|indices| - 1], driverPos, heading, roadWidth, screenW, screenH)
        case None => []
        case Some(pair) => [pair]
  }

  function Lefts(e: seq<(ScreenPoint, ScreenPoint)>): (l: seq<ScreenPoint>)
    ensures |l| == |e| && forall k :: 0 <= k < |e| ==> l[k] == e[k].0
  {
    seq(|e|, k requires 0 <= k < |e| => e[k].0)
  }

  function Rights(e: seq<(ScreenPoint, ScreenPoint)>): (r: seq<ScreenPoint>)
    ensures |r| == |e| && forall k :: 0 <= k < |e| ==> r[k] == e[k].1
  {
    seq(|e|, k requires 0 <= k < |e| => e[k].1)
  }

  function Reverse<T>(s: seq<T>): (r: seq<T>)
    ensures |r| == |s| && forall k :: 0 <= k < |s| ==> r[k] == s[|s| - 1 - k]
  {
    seq(|s|, k requires 0 <= k < |s| => s[|s| - 1 - k])
  }

  /** `left_pts[::-1] + [bottom_left, bottom_right] + right_pts`: far-left to
      near-left, down to the bottom edge of the screen, then near-right to far-right. */
  function AssemblePolygon(left: seq<ScreenPoint>, right: seq<ScreenPoint>, screenH: int): (poly: seq<ScreenPoint>)
    requires |left| == |right| > 0
    ensures |poly| == 2 * |left| + 2
    ensures forall k :: 0 <= k < |left| ==> poly[k] == left[|left| - 1 - k]
    ensures poly[|left|] == (left[0].0, screenH) && poly[|left| + 1] == (right[0].0, screenH)
    ensures forall k :: 0 <= k < |right| ==> poly[|left| + 2 + k] == right[k]
  {
    Reverse(left) + [(left[0].0, screenH), (right[0].0, screenH)] + right
  }

  datatype RoadPolygon =
    | IndexError
    | NoPolygon
    | Polygon(poly: seq<ScreenPoint>, left: seq<ScreenPoint>, right: seq<ScreenPoint>)

  lemma InRangeAt(samples: seq<Point>, indices: seq<nat>, k: nat)
    requires k < |indices| && !(indices[k] < |samples| && 2 <= |samples|)
    ensures !IndicesInRange(samples, indices)
  {
    var i := indices[k];
    assert !(i < |samples| && 2 <= |samples|);
  }

  /** One more walked index adds its edge pair, if it has one. */
  lemma KeptEdgesSnoc(g: Geometry, samples: seq<Point>, indices: seq<nat>, k: nat, driverPos: Point, heading: real,
                      roadWidth: real, screenW: int, screenH: int)
    requires k < |indices| && IndicesInRange(samples, indices[..k])
    requires indices[k] < |samples| && 2 <= |samples|
    ensures IndicesInRange(samples, indices[..k + 1])
    ensures KeptEdges(g, samples, indices[..k + 1], driverPos, heading, roadWidth, screenW, screenH)
            == KeptEdges(g, samples, indices[..k], driverPos, heading, roadWidth, screenW, screenH)
               + match EdgeAt(g, samples, indices[k], driverPos, heading, roadWidth, screenW, screenH)
                 case None => []
                 case Some(pair) => [pair]
  {
    assert indices[..k + 1][..k] == indices[..k];
  }

  /** `build_road_polygon`; the source's `[]` result is `NoPolygon`, an
      IndexError (an index past the samples, or fewer than two samples for
      a tangent) is `IndexError`. */
  method BuildRoadPolygon(g: Geometry, samples: seq<Point>, indices: seq<nat>, driverPos: Point, heading: real,
                          roadWidth: real, screenW: int, screenH: int) returns (r: RoadPolygon)
    ensures r.IndexError? <==> !IndicesInRange(samples, indices)
    ensures IndicesInRange(samples, indices) ==>
              var e := KeptEdges(g, samples, indices, driverPos, heading, roadWidth, screenW, screenH);
              if e == [] then r == NoPolygon
              else r == Polygon(AssemblePolygon(Lefts(e), Rights(e), screenH), Lefts(e), Rights(e))
    ensures r.Polygon? ==> 0 < |r.left| == |r.right| <= |indices| && |r.poly| == 2 * |r.left| + 2
  {
    var leftPts: seq<ScreenPoint> := [];
    var rightPts: seq<ScreenPoint> := [];
    ghost var kept: seq<(ScreenPoint, ScreenPoint)> := [];
    var k := 0;
    while k < |indices|
      invariant 0 <= k <= |indices|
      invariant IndicesInRange(samples, indices[..k])
      invariant kept == KeptEdges(g, samples, indices[..k], driverPos, heading, roadWidth, screenW, screenH)
      invariant leftPts == Lefts(kept) && rightPts == Rights(kept)
    {
      var i := indices[k];
      if !(i < |samples| && 2 <= |samples|) {
        InRangeAt(samples, indices, k);
        return IndexError;
      }
      var edge := EdgeAt(g, samples, i, driverPos, heading, roadWidth, screenW, screenH);
      KeptEdgesSnoc(g, samples, indices, k, driverPos, heading, roadWidth, screenW, screenH);
      match edge {
        case None =>
        case Some((pxLeft, pxRight)) =>
          kept := kept + [(pxLeft, pxRight)];
          leftPts := leftPts + [pxLeft];
          rightPts := rightPts + [pxRight];
      }
      k := k + 1;
    }
    assert indices[..|indices|] == indices;
    if leftPts == [] || rightPts == [] {
      return NoPolygon;
    }
    r := Polygon(AssemblePolygon(leftPts, rightPts, screenH), leftPts, rightPts);
  }

  /** Kept edges: at most one pair per walked index, and every index is kept
      when no sample has both edges behind the camera. */
  lemma {:induction false} KeptEdgesAllInFront(g: Geometry, samples: seq<Point>, indices: seq<nat>,
                                               driverPos: Point, heading: real, roadWidth: real,
                                               screenW: int, screenH: int)
    requires IndicesInRange(samples, indices)
    requires forall k :: 0 <= k < |indices| ==>
               EdgeAt(g, samples, indices[k], driverPos, heading, roadWidth, screenW, screenH).Some?
    ensures |KeptEdges(g, samples, indices, driverPos, heading, roadWidth, screenW, screenH)| == |indices|
  {
    if indices != [] {
      var init := indices[..|indices| - 1];
      forall k | 0 <= k < |init|
        ensures init[k] == indices[k] && init[k] < |samples| && 2 <= |samples|
      {
        assert indices[k] < |samples| && 2 <= |samples|;
      }
      assert IndicesInRange(samples, init);
      assert forall k :: 0 <= k < |init| ==>
               EdgeAt(g, samples, init[k], driverPos, heading, roadWidth, screenW, screenH).Some?;
      KeptEdgesAllInFront(g, samples, init, driverPos, heading, roadWidth, screenW, screenH);
    }
  }

  // ---------------------------------------------------------------------
  // sample_polyline

  datatype Seg = Seg(a: Point, b: Point, len: real)

  /** `(i + 1) % len(points)` for an index of the segment loop. */
  function Succ(i: nat, n: nat): (j: nat)
    requires i < n
    ensures j < n
  {
    if i + 1 == n then 0 else i + 1
  }

  lemma SuccIsModulo(i: nat, n: nat)
    requires i < n
    ensures Succ(i, n) == (i + 1) % n
  {
  }

  /** The segments between consecutive points, and back to the first one
      when the polyline is closed. */
  function Segments(g: Geometry, points: seq<Point>, closed: bool): (segs: seq<Seg>)
    requires 2 <= |points|
    ensures |segs| == |points| - 1 + (if closed then 1 else 0)
    ensures forall i :: 0 <= i < |segs| ==>
              segs[i] == Seg(points[i], points[Succ(i, |points|)], g.dist(points[i], points[Succ(i, |points|)]))
  {
    var count := |points| - 1 + (if closed then 1 else 0);
    seq(count, i requires 0 <= i < count =>
      Seg(points[i], points[Succ(i, |points|)], g.dist(points[i], points[Succ(i, |points|)])))
  }

  function TotalLength(segs: seq<Seg>): (t: real)
    ensures segs == [] ==> t == 0.0
    ensures (forall i :: 0 <= i < |segs| ==> segs[i].len >= 0.0) ==> t >= 0.0
  {
    if segs == [] then 0.0 else TotalLength(segs[..|segs| - 1]) + segs[|segs| - 1].len
  }

  function Lerp(a: Point, b: Point, t: real): (p: Point)
    ensures t == 0.0 ==> p.0 == a.0 && p.1 == a.1
    ensures t == 1.0 ==> p.0 == b.0 && p.1 == b.1
  {
    (a.0 + (b.0 - a.0) * t, a.1 + (b.1 - a.1) * t)
  }

  /** Where the inner segment scan puts the sample at distance `d`: on the
      first segment whose far end is within 1e-9 of `d` or beyond it. A
      zero-length such segment makes `(d - acc) / l` raise ZeroDivisionError;
      when there is none, no sample is emitted. */
  datatype Located = Missed | DivisionByZero | At(p: Point)

  function Locate(segs: seq<Seg>, d: real, acc: real): (r: Located)
    ensures segs == [] ==> r == Missed
    ensures r.DivisionByZero? ==> exists i :: 0 <= i < |segs| && segs[i].len == 0.0
  {
    if segs == [] then Missed
    else if acc + segs[0].len >= d - 0.000000001 then
      (if segs[0].len == 0.0 then DivisionByZero
       else At(Lerp(segs[0].a, segs[0].b, (d - acc) / segs[0].len)))
    else Locate(segs[1..], d, acc + segs[0].len)
  }

  /** The number of steps the emission loop still has to go from `s`. */
  function StepsLeft(total: real, step: real, s: real): int
    requires step > 0.0
  {
    ((total + 0.000001 - s) / step).Floor
  }

  lemma StepsLeftDecrease(total: real, step: real, s: real)
    requires step > 0.0
    ensures StepsLeft(total, step, s + step) == StepsLeft(total, step, s) - 1
  {
    var x := total + 0.000001 - s;
    assert step / step == 1.0;
    assert (x - step) / step == x / step - step / step;
    assert (x - step) / step == x / step - 1.0;
  }

  /** The interior samples, at distances s, s + step, ... up to the total
      length plus 1e-6; `None` for ZeroDivisionError. */
  function Emit(segs: seq<Seg>, total: real, step: real, s: real): (r: Option<seq<Point>>)
    requires step > 0.0
    ensures s > total + 0.000001 ==> r == Some([])
    ensures r.Some? && s <= total + 0.000001 ==> |r.value| <= StepsLeft(total, step, s) + 1
    decreases if s <= total + 0.000001 then StepsLeft(total, step, s) + 1 else 0
  {
    if s > total + 0.000001 then Some([])
    else
      StepsLeftDecrease(total, step, s);
      match Locate(segs, s, 0.0)
      case DivisionByZero => None
      case Missed => Emit(segs, total, step, s + step)
      case At(p) => Prepend([p], Emit(segs, total, step, s + step))
  }

  function Prepend(xs: seq<Point>, o: Option<seq<Point>>): Option<seq<Point>>
  {
    if o.None? then None else Some(xs + o.value)
  }

  lemma PrependFacts(xs: seq<Point>, ys: seq<Point>, o: Option<seq<Point>>)
    ensures Prepend([], o) == o
    ensures Prepend(xs, Some([])) == Some(xs)
    ensures Prepend(xs, Prepend(ys, o)) == Prepend(xs + ys, o)
  {
    assert xs + [] == xs;
    if o.Some? {
      assert [] + o.value == o.value;
      assert xs + (ys + o.value) == (xs + ys) + o.value;
    }
  }

  /** The dedupe pass: a sample is kept when it is more than 1e-6 from the
      last kept one. */
  function Dedupe(g: Geometry, s: seq<Point>): (r: seq<Point>)
    ensures |r| <= |s|
    ensures s != [] ==> r != [] && r[0] == s[0]
  {
    if s == [] then []
    else
      var d := Dedupe(g, s[..|s| - 1]);
      if d == [] || g.dist(d[|d| - 1], s[|s| - 1]) > DEDUPE_EPSILON then d + [s[|s| - 1]] else d
  }

  datatype Polyline = ZeroDivisionError | Polyline(points: seq<Point>)

  /** What `sample_polyline` returns. */
  function SampledPolyline(g: Geometry, points: seq<Point>, step: real, closed: bool): (r: Polyline)
    requires step > 0.0
    ensures |points| < 2 ==> r == Polyline(points)
    ensures step > 0.000000001 ==> r.Polyline?
  {
    if |points| < 2 then Polyline(points)
    else
      var segs := Segments(g, points, closed);
      EmitNeverFailsFromStep(segs, TotalLength(segs), step);
      match Emit(segs, TotalLength(segs), step, step)
      case None => ZeroDivisionError
      case Some(interior) => Polyline(Dedupe(g, [points[0]] + interior + [points[|points| - 1]]))
  }

  /** The inner segment scan for one sample distance. */
  method LocateSample(segs: seq<Seg>, d: real) returns (loc: Located)
    ensures loc == Locate(segs, d, 0.0)
  {
    var acc := 0.0;
    var j := 0;
    while j < |segs|
      invariant 0 <= j <= |segs|
      invariant Locate(segs, d, 0.0) == Locate(segs[j..], d, acc)
    {
      var sg := segs[j];
      assert segs[j..][1..] == segs[j + 1..];
      if acc + sg.len >= d - 0.000000001 {
        if sg.len == 0.0 {
          return DivisionByZero;
        }
        return At(Lerp(sg.a, sg.b, (d - acc) / sg.len));
      }
      acc := acc + sg.len;
      j := j + 1;
    }
    loc := Missed;
  }

  /** The segment loop of `sample_polyline`: the segments and their total length. */
  method BuildSegments(g: Geometry, points: seq<Point>, closed: bool) returns (segs: seq<Seg>, total: real)
    requires 2 <= |points|
    ensures segs == Segments(g, points, closed) && total == TotalLength(segs)
  {
    var n := |points|;
    var count := n - 1 + (if closed then 1 else 0);
    segs := [];
    total := 0.0;
    for i := 0 to count
      invariant |segs| == i
      invariant forall k :: 0 <= k < i ==> segs[k] == Segments(g, points, closed)[k]
      invariant total == TotalLength(segs)
    {
      var a := points[i];
      var b := points[Succ(i, n)];
      var l := g.dist(a, b);
      assert (segs + [Seg(a, b, l)])[..i] == segs;
      segs := segs + [Seg(a, b, l)];
      total := total + l;
    }
  }

  /** The emission loop: a sample every `step` metres while within 1e-6 of
      the total length. */
  method EmitSamples(segs: seq<Seg>, total: real, step: real) returns (interior: Option<seq<Point>>)
    requires step > 0.0
    ensures interior == Emit(segs, total, step, step)
  {
    var emitted: seq<Point> := [];
    var s := step;
    PrependFacts([], [], Emit(segs, total, step, s));
    while s <= total + 0.000001
      invariant Emit(segs, total, step, step) == Prepend(emitted, Emit(segs, total, step, s))
      decreases StepsLeft(total, step, s) + 1
    {
      StepsLeftDecrease(total, step, s);
      var loc := LocateSample(segs, s);
      match loc {
        case DivisionByZero =>
          return None;
        case Missed =>
        case At(p) =>
          PrependFacts(emitted, [p], Emit(segs, total, step, s + step));
          emitted := emitted + [p];
      }
      s := s + step;
    }
    PrependFacts(emitted, [], Some([]));
    return Some(emitted);
  }

  /** The dedupe loop. */
  method DedupeSamples(g: Geometry, samples: seq<Point>) returns (out: seq<Point>)
    ensures out == Dedupe(g, samples)
  {
    out := [];
    var prev: Option<Point> := None;
    var k := 0;
    while k < |samples|
      invariant 0 <= k <= |samples|
      invariant out == Dedupe(g, samples[..k])
      invariant prev == if out == [] then None else Some(out[|out| - 1])
    {
      var p := samples[k];
      assert samples[..k + 1][..k] == samples[..k];
      if prev.None? || g.dist(prev.value, p) > DEDUPE_EPSILON {
        out := out + [p];
        prev := Some(p);
      }
      k := k + 1;
    }
    assert samples[..|samples|] == samples;
  }

  /** `sample_polyline`. The step must be positive: otherwise the emission
      loop never ends. */
  method SamplePolyline(g: Geometry, points: seq<Point>, step: real, closed: bool) returns (r: Polyline)
    requires step > 0.0
    ensures r == SampledPolyline(g, points, step, closed)
  {
    if |points| < 2 {
      return Polyline(points);
    }
    var segs, total := BuildSegments(g, points, closed);
    var interior := EmitSamples(segs, total, step);
    if interior.None? {
      return ZeroDivisionError;
    }
    var out := DedupeSamples(g, [points[0]] + interior.value + [points[|points| - 1]]);
    r := Polyline(out);
  }

  ghost predicate Separated(g: Geometry, s: seq<Point>)
  {
    forall k :: 0 <= k < |s| - 1 ==> g.dist(s[k], s[k + 1]) > DEDUPE_EPSILON
  }

  /** The dedupe pass keeps only input samples and never leaves two
      consecutive points within 1e-6 of each other. */
  lemma {:induction false} DedupeProperties(g: Geometry, s: seq<Point>)
    ensures Separated(g, Dedupe(g, s))
    ensures forall k :: 0 <= k < |Dedupe(g, s)| ==> Dedupe(g, s)[k] in s
  {
    if s != [] {
      var init := s[..|s| - 1];
      DedupeProperties(g, init);
      if init == [] {
        assert Dedupe(g, init) == [];
      }
    }
  }

  /** A list that is already separated passes the dedupe unchanged. */
  lemma {:induction false} DedupeKeepsSeparated(g: Geometry, s: seq<Point>)
    requires Separated(g, s)
    ensures Dedupe(g, s) == s
  {
    if s != [] {
      var init := s[..|s| - 1];
      assert Separated(g, init);
      DedupeKeepsSeparated(g, init);
      if |init| > 0 {
        assert g.dist(s[|s| - 2], s[|s| - 1]) > DEDUPE_EPSILON;
      }
    }
  }

  lemma DedupeIdempotent(g: Geometry, s: seq<Point>)
    ensures Dedupe(g, Dedupe(g, s)) == Dedupe(g, s)
  {
    DedupeProperties(g, s);
    DedupeKeepsSeparated(g, Dedupe(g, s));
  }

  /** The scan divides only by the length of a segment it reaches while still
      more than 1e-9 short of `d`; such a segment cannot have length 0. */
  lemma {:induction false} LocateNeverDivides(segs: seq<Seg>, d: real, acc: real)
    requires acc < d - 0.000000001
    ensures Locate(segs, d, acc) != DivisionByZero
    decreases |segs|
  {
    if segs != [] && !(acc + segs[0].len >= d - 0.000000001) {
      LocateNeverDivides(segs[1..], d, acc + segs[0].len);
    }
  }

  /** With a step above 1e-9 sampling never raises ZeroDivisionError. */
  lemma {:induction false} EmitNeverFails(segs: seq<Seg>, total: real, step: real, s: real)
    requires step > 0.000000001 && s > 0.000000001
    ensures Emit(segs, total, step, s).Some?
    decreases if s <= total + 0.000001 then StepsLeft(total, step, s) + 1 else 0
  {
    if s <= total + 0.000001 {
      StepsLeftDecrease(total, step, s);
      LocateNeverDivides(segs, s, 0.0);
      EmitNeverFails(segs, total, step, s + step);
    }
  }

  lemma EmitNeverFailsFromStep(segs: seq<Seg>, total: real, step: real)
    requires step > 0.0
    ensures step > 0.000000001 ==> Emit(segs, total, step, step).Some?
  {
    if step > 0.000000001 {
      EmitNeverFails(segs, total, step, step);
    }
  }

  /** With the 0.5 m step (any step above 1e-9) a polyline of two or more
      points samples to a list that starts at its first point, and no two
      consecutive samples are within 1e-6 of each other. */
  lemma SampledPolylineShape(g: Geometry, points: seq<Point>, step: real, closed: bool)
    requires |points| >= 2 && step > 0.000000001
    ensures SampledPolyline(g, points, step, closed).Polyline?
    ensures var out := SampledPolyline(g, points, step, closed).points;
            out != [] && out[0] == points[0] && Separated(g, out)
  {
    var segs := Segments(g, points, closed);
    EmitNeverFails(segs, TotalLength(segs), step, step);
    var interior := Emit(segs, TotalLength(segs), step, step).value;
    DedupeProperties(g, [points[0]] + interior + [points[|points| - 1]]);
  }

  /** With non-negative lengths the scan misses exactly when `d` is more than
      1e-9 past the end of the last segment: a distance in the last 1e-6 of
      the emission window beyond the total length emits no sample. */
  lemma {:induction false} LocateMisses(segs: seq<Seg>, d: real, acc: real)
    requires segs != []
    requires forall i :: 0 <= i < |segs| ==> segs[i].len >= 0.0
    ensures Locate(segs, d, acc).Missed? <==> acc + TotalLength(segs) < d - 0.000000001
    decreases |segs|
  {
    TotalLengthFront(segs);
    if |segs| > 1 {
      assert forall i :: 0 <= i < |segs[1..]| ==> segs[1..][i] == segs[i + 1];
      LocateMisses(segs[1..], d, acc + segs[0].len);
    } else {
      assert segs[1..] == [];
    }
  }

  lemma {:induction false} TotalLengthFront(segs: seq<Seg>)
    requires segs != []
    ensures TotalLength(segs) == segs[0].len + TotalLength(segs[1..])
    decreases |segs|
  {
    if |segs| > 1 {
      var init := segs[..|segs| - 1];
      TotalLengthFront(init);
      assert init[1..] == segs[1..][..|segs[1..]| - 1];
    } else {
      assert segs[..0] == [];
    }
  }
}
