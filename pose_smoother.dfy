/** The temporal filter of the pose pipeline (pose_smoother.py): a bounded
    FIFO of the most recent landmark lists, a triangular-weighted moving
    average over that FIFO and a blend of the average with the current raw
    sample, controlled by a clamped smoothing factor. */
module Smoother {
  import opened Landmarks

  /** The coordinates the filter rewrites; visibility is carried through. */
  datatype Axis = X | Y | Z

  function Coord(l: Landmark, a: Axis): real
  {
    match a
    case X => l.x
    case Y => l.y
    case Z => l.z
  }

  /** What `apply_smoothing` hands back: the (possibly smoothed) landmark
      list, or the IndexError Python raises when a held frame has fewer
      landmarks than the current one and averaging reads past its end. */
  datatype Outcome = Smoothed(pose: Pose) | IndexError

  /** The clamp bounds of the smoothing factor and the default step. */
  const MinFactor: real := 0.0
  const MaxFactor: real := 0.95
  const DefaultStep: real := 0.05

  /** Fewer held frames than this and the input passes through. */
  const MinFramesToSmooth: nat := 3

  // ---------------------------------------------------------------------
  // The history FIFO
  // ---------------------------------------------------------------------

  /** One frame's effect on the history: append, then drop the oldest
      entry when the list has grown past `maxHistory`. */
  function Push(h: seq<Pose>, p: Pose, maxHistory: int): (r: seq<Pose>)
    ensures r == h + [p] || r == (h + [p])[1..]
    ensures r == h + [p] <==> |h| + 1 <= maxHistory
    ensures |h| <= maxHistory ==> |r| <= maxHistory
    ensures 1 <= maxHistory ==> |r| > 0 && r[|r| - 1] == p
  {
    var g := h + [p];
    if |g| > maxHistory then g[1..] else g
  }

  /** The last `maxHistory` entries of `s` (none at all when `maxHistory`
      is not positive): what a FIFO of that capacity holds after being fed
      `s` one entry at a time. */
  function Window(s: seq<Pose>, maxHistory: int): (r: seq<Pose>)
    ensures |r| <= maxHistory || r == []
    ensures |r| <= |s| && r == s[|s| - |r|..]
    ensures 0 <= maxHistory ==> |r| == if |s| <= maxHistory then |s| else maxHistory
  {
    if maxHistory <= 0 then []
    else if |s| <= maxHistory then s
    else s[|s| - maxHistory..]
  }

  /** Pushing onto the window of everything fed so far gives the window of
      everything fed so far plus the new frame: the history always holds
      exactly the most recent `maxHistory` frames, oldest first. */
  lemma PushKeepsWindow(s: seq<Pose>, p: Pose, maxHistory: int)
    ensures Push(Window(s, maxHistory), p, maxHistory) == Window(s + [p], maxHistory)
  {
    var w := Window(s, maxHistory);
    var t := s + [p];
    if maxHistory <= 0 {
    } else if |s| < maxHistory {
    } else {
      assert |w| == maxHistory;
      assert (w + [p])[1..] == t[|t| - maxHistory..];
    }
  }

  // ---------------------------------------------------------------------
  // The triangular-weighted average
  // ---------------------------------------------------------------------

  /** The weight `(j + 1) / n` of the j-th oldest of `n` held frames. */
  function Weight(j: nat, n: nat): (r: real)
    requires 0 < n
    ensures 0.0 < r
  {
    (j + 1) as real / n as real
  }

  /** Every frame of `h` has at least `n` landmarks. */
  predicate Covers(h: seq<Pose>, n: nat)
  {
    forall j :: 0 <= j < |h| ==> n <= |h[j]|
  }

  /** The first `k` frames of `h` have at least `n` landmarks. */
  predicate CoversFirst(h: seq<Pose>, k: nat, n: nat)
  {
    k <= |h| && forall j :: 0 <= j < k ==> n <= |h[j]|
  }

  /** The sum accumulated in `sumX` (`sumY`, `sumZ`) once the first `k`
      frames of `h` have been visited, frame `j` weighted by `Weight(j, n)`. */
  function WeightedSum(h: seq<Pose>, k: nat, i: nat, a: Axis, n: nat): real
    requires 0 < n && CoversFirst(h, k, i + 1)
  {
    if k == 0 then 0.0
    else WeightedSum(h, k - 1, i, a, n) + Coord(h[k - 1][i], a) * Weight(k - 1, n)
  }

  /** The sum accumulated in `total_weight` after the first `k` frames. */
  function TotalWeight(k: nat, n: nat): (r: real)
    requires 0 < n
    ensures 0.0 <= r
    ensures 0 < k ==> 0.0 < r
  {
    if k == 0 then 0.0 else TotalWeight(k - 1, n) + Weight(k - 1, n)
  }

  /** `sumX / total_weight` over the whole history, for landmark `i`. */
  function WeightedAverage(h: seq<Pose>, i: nat, a: Axis): real
    requires 0 < |h| && Covers(h, i + 1)
  {
    WeightedSum(h, |h|, i, a, |h|) / TotalWeight(|h|, |h|)
  }

  /** `raw * (1 - alpha) + avg * alpha`. */
  function Blend(raw: real, avg: real, alpha: real): (r: real)
    ensures alpha == 0.0 ==> r == raw
    ensures alpha == 1.0 ==> r == avg
    ensures raw == avg ==> r == raw
  {
    raw * (1.0 - alpha) + avg * alpha
  }

  /** Landmark `i` of the output: x, y and z blended with their averages,
      every other field of the current landmark kept. */
  function SmoothLandmark(h: seq<Pose>, cur: Landmark, i: nat, alpha: real): (r: Landmark)
    requires 0 < |h| && Covers(h, i + 1)
    ensures r.visibility == cur.visibility
  {
    cur.(x := Blend(cur.x, WeightedAverage(h, i, X), alpha),
         y := Blend(cur.y, WeightedAverage(h, i, Y), alpha),
         z := Blend(cur.z, WeightedAverage(h, i, Z), alpha))
  }

  /** The value `apply_smoothing` returns for the current landmarks `cur`,
      given the history `h` after `cur` has been pushed and the factor
      `alpha`. */
  function Smooth(h: seq<Pose>, cur: Pose, alpha: real): (r: Outcome)
    ensures |h| < MinFramesToSmooth ==> r == Smoothed(cur)
    ensures r.IndexError? <==>
              MinFramesToSmooth <= |h| && exists j :: 0 <= j < |h| && |h[j]| < |cur|
    ensures r.Smoothed? ==> |r.pose| == |cur|
    ensures r.Smoothed? ==>
              forall i :: 0 <= i < |cur| ==> r.pose[i].visibility == cur[i].visibility
  {
    if |h| < MinFramesToSmooth then Smoothed(cur)
    else if !Covers(h, |cur|) then IndexError
    else Smoothed(seq(|cur|, i requires 0 <= i < |cur| => SmoothLandmark(h, cur[i], i, alpha)))
  }

  /** The state of the inner loop of `apply_smoothing` for landmark `i`
      once the first `j` of `n` frames have been visited: each of them has
      a landmark `i`, and the running sums and total are the weighted sums
      of what was visited. */
  predicate Accumulated(h: seq<Pose>, j: nat, i: nat, n: nat, sumX: real, sumY: real, sumZ: real, total: real)
    requires 0 < n
  {
    CoversFirst(h, j, i + 1) &&
    sumX == WeightedSum(h, j, i, X, n) &&
    sumY == WeightedSum(h, j, i, Y, n) &&
    sumZ == WeightedSum(h, j, i, Z, n) &&
    total == TotalWeight(j, n)
  }

  /** Visiting frame `j` adds its weighted coordinates to the running sums
      and its weight to the running total. */
  lemma AccumulateFrame(h: seq<Pose>, j: nat, i: nat, n: nat, sumX: real, sumY: real, sumZ: real, total: real)
    requires 0 < n && j < |h| && i < |h[j]|
    requires Accumulated(h, j, i, n, sumX, sumY, sumZ, total)
    ensures Accumulated(h, j + 1, i, n, sumX + h[j][i].x * Weight(j, n), sumY + h[j][i].y * Weight(j, n),
                        sumZ + h[j][i].z * Weight(j, n), total + Weight(j, n))
  {
  }

  /** The inner loop of `apply_smoothing` for landmark `i`: accumulate the
      weighted sums and the total weight over the held frames, oldest
      first, and divide. `ok` is false exactly when some frame is too short
      to have a landmark `i`, where Python raises IndexError. */
  method AveragesAt(h: seq<Pose>, i: nat) returns (ok: bool, avgX: real, avgY: real, avgZ: real)
    requires 0 < |h|
    ensures ok <==> Covers(h, i + 1)
    ensures ok ==> avgX == WeightedAverage(h, i, X)
    ensures ok ==> avgY == WeightedAverage(h, i, Y)
    ensures ok ==> avgZ == WeightedAverage(h, i, Z)
  {
    var n := |h|;
    var sumX, sumY, sumZ, totalWeight := 0.0, 0.0, 0.0, 0.0;
    for j := 0 to n
      invariant Accumulated(h, j, i, n, sumX, sumY, sumZ, totalWeight)
    {
      var frame := h[j];
      if |frame| <= i {
        return false, 0.0, 0.0, 0.0;
      }
      var weight := Weight(j, n);
      AccumulateFrame(h, j, i, n, sumX, sumY, sumZ, totalWeight);
      sumX := sumX + frame[i].x * weight;
      sumY := sumY + frame[i].y * weight;
      sumZ := sumZ + frame[i].z * weight;
      totalWeight := totalWeight + weight;
    }
    ok := true;
    avgX := sumX / totalWeight;
    avgY := sumY / totalWeight;
    avgZ := sumZ / totalWeight;
  }

  /** The landmark the loop body of `apply_smoothing` writes, from the
      three averages, is `SmoothLandmark`. */
  lemma BlendedIsSmoothLandmark(h: seq<Pose>, cur: Landmark, i: nat, alpha: real, avgX: real, avgY: real, avgZ: real)
    requires 0 < |h| && Covers(h, i + 1)
    requires avgX == WeightedAverage(h, i, X)
    requires avgY == WeightedAverage(h, i, Y)
    requires avgZ == WeightedAverage(h, i, Z)
    ensures cur.(x := cur.x * (1.0 - alpha) + avgX * alpha,
                 y := cur.y * (1.0 - alpha) + avgY * alpha,
                 z := cur.z * (1.0 - alpha) + avgZ * alpha) == SmoothLandmark(h, cur, i, alpha)
  {
  }

  /** The state of the blending loop of `apply_smoothing` after the first
      `i` landmarks: every history frame has them, they are blended in the
      working copy `s`, and the rest of `s` is still the current frame. */
  predicate BlendedUpTo(h: seq<Pose>, cur: Pose, alpha: real, i: nat, s: seq<Landmark>)
    requires 0 < |h| && i <= |cur| == |s|
  {
    Covers(h, i) &&
    (forall k :: 0 <= k < i ==> s[k] == SmoothLandmark(h, cur[k], k, alpha)) &&
    (forall k :: i <= k < |cur| ==> s[k] == cur[k])
  }

  /** Blending landmark `i` from its three averages moves the loop state one
      landmark on. */
  lemma BlendNext(h: seq<Pose>, cur: Pose, alpha: real, i: nat, s: seq<Landmark>,
                  avgX: real, avgY: real, avgZ: real)
    requires 0 < |h| && i < |cur| == |s| && Covers(h, i + 1)
    requires BlendedUpTo(h, cur, alpha, i, s)
    requires avgX == WeightedAverage(h, i, X)
    requires avgY == WeightedAverage(h, i, Y)
    requires avgZ == WeightedAverage(h, i, Z)
    ensures BlendedUpTo(h, cur, alpha, i + 1,
                        s[i := s[i].(x := cur[i].x * (1.0 - alpha) + avgX * alpha,
                                     y := cur[i].y * (1.0 - alpha) + avgY * alpha,
                                     z := cur[i].z * (1.0 - alpha) + avgZ * alpha)])
  {
    BlendedIsSmoothLandmark(h, cur[i], i, alpha, avgX, avgY, avgZ);
    var blended := s[i].(x := cur[i].x * (1.0 - alpha) + avgX * alpha,
                         y := cur[i].y * (1.0 - alpha) + avgY * alpha,
                         z := cur[i].z * (1.0 - alpha) + avgZ * alpha);
    assert s[i] == cur[i];
    assert blended == SmoothLandmark(h, cur[i], i, alpha);
    var next := s[i := blended];
    assert forall k :: 0 <= k < |s| && k != i ==> next[k] == s[k];
  }

  /** The averaging and blending part of `apply_smoothing`, once the held
      frames `h` (at least three, the current one last) are known: a deep
      copy of `landmarks` whose x, y and z are rewritten landmark by
      landmark. */
  method SmoothHeld(h: seq<Pose>, landmarks: Pose, alpha: real) returns (r: Outcome)
    requires MinFramesToSmooth <= |h|
    ensures r == Smooth(h, landmarks, alpha)
  {
    var smoothed := new Landmark[|landmarks|](k requires 0 <= k < |landmarks| => landmarks[k]);
    for i := 0 to |landmarks|
      modifies smoothed
      invariant BlendedUpTo(h, landmarks, alpha, i, smoothed[..])
    {
      var ok, avgX, avgY, avgZ := AveragesAt(h, i);
      if !ok {
        ghost var j :| 0 <= j < |h| && |h[j]| < i + 1;
        assert |h[j]| < |landmarks|;
        return IndexError;
      }
      var blended := smoothed[i].(x := landmarks[i].x * (1.0 - alpha) + avgX * alpha,
                                  y := landmarks[i].y * (1.0 - alpha) + avgY * alpha,
                                  z := landmarks[i].z * (1.0 - alpha) + avgZ * alpha);
      BlendNext(h, landmarks, alpha, i, smoothed[..], avgX, avgY, avgZ);
      smoothed[i] := blended;
    }
    assert Covers(h, |landmarks|);
    r := Smoothed(smoothed[..]);
    assert r.pose == seq(|landmarks|, k requires 0 <= k < |landmarks| => SmoothLandmark(h, landmarks[k], k, alpha));
  }

  // ---------------------------------------------------------------------
  // Arithmetic facts the bounds need
  // ---------------------------------------------------------------------

  lemma MulNonNegative(a: real, b: real)
    requires 0.0 <= a && 0.0 <= b
    ensures 0.0 <= a * b
  {
  }

  lemma DivNonNegative(a: real, b: real)
    requires 0.0 <= a && 0.0 < b
    ensures 0.0 <= a / b
  {
  }

  /** `s` lies between `lo * t` and `hi * t`. */
  predicate ScaledBetween(lo: real, hi: real, t: real, s: real)
  {
    lo * t <= s <= hi * t
  }

  /** One accumulation step keeps the sum between the bounds times the
      total weight. */
  lemma AccumulateBounds(lo: real, hi: real, c: real, w: real, t: real, s: real, t': real, s': real)
    requires ScaledBetween(lo, hi, t, s) && lo <= c <= hi && 0.0 <= w
    requires t' == t + w && s' == s + c * w
    ensures ScaledBetween(lo, hi, t', s')
  {
    MulNonNegative(c - lo, w);
    MulNonNegative(hi - c, w);
    assert s' - lo * t' == (s - lo * t) + (c - lo) * w;
    assert hi * t' - s' == (hi * t - s) + (hi - c) * w;
  }

  /** Dividing through by a positive total keeps the bounds. */
  lemma DivideBounds(lo: real, hi: real, s: real, t: real)
    requires 0.0 < t && ScaledBetween(lo, hi, t, s)
    ensures lo <= s / t <= hi
  {
    var avg := s / t;
    DivNonNegative(s - lo * t, t);
    DivNonNegative(hi * t - s, t);
    assert avg - lo == (s - lo * t) / t;
    assert hi - avg == (hi * t - s) / t;
  }

  /** A ratio whose numerator and denominator are both known up to the
      same positive factor `n`. */
  lemma Rescale(s: real, t: real, n: real, m: real, q: real)
    requires 0.0 < n && 0.0 < t
    requires s * n == m && 2.0 * t * n == q
    ensures s / t == 2.0 * m / q
  {
    assert (s * (2.0 * n)) / (t * (2.0 * n)) == s / t;
  }

  // ---------------------------------------------------------------------
  // What the filter guarantees
  // ---------------------------------------------------------------------

  /** Landmark `i` of the output, read on one axis, is the blend of the
      input's coordinate with the average on that axis. */
  lemma SmoothLandmarkCoord(h: seq<Pose>, cur: Landmark, i: nat, alpha: real, a: Axis)
    requires 0 < |h| && Covers(h, i + 1)
    ensures Coord(SmoothLandmark(h, cur, i, alpha), a) == Blend(Coord(cur, a), WeightedAverage(h, i, a), alpha)
    ensures SmoothLandmark(h, cur, i, alpha).visibility == cur.visibility
  {
  }

  /** A factor of 0 keeps only the raw term of the blend: whatever the
      history, a smoothed result is the input itself. */
  lemma ZeroFactorIsIdentity(h: seq<Pose>, cur: Pose)
    requires Smooth(h, cur, 0.0).Smoothed?
    ensures Smooth(h, cur, 0.0) == Smoothed(cur)
  {
    if MinFramesToSmooth <= |h| {
      var out := Smooth(h, cur, 0.0).pose;
      forall i | 0 <= i < |cur|
        ensures out[i] == cur[i]
      {
        assert out[i] == SmoothLandmark(h, cur[i], i, 0.0);
      }
    }
  }

  /** Landmark `i`'s coordinate on axis `a` over the first `k` frames. */
  function Column(h: seq<Pose>, k: nat, i: nat, a: Axis): (r: seq<real>)
    requires CoversFirst(h, k, i + 1)
    ensures |r| == k && forall j :: 0 <= j < k ==> r[j] == Coord(h[j][i], a)
  {
    seq(k, j requires 0 <= j < k => Coord(h[j][i], a))
  }

  /** The weighted sum of the first `k` values of `v`, value `j` weighted
      by `Weight(j, n)`. */
  function ColumnSum(v: seq<real>, k: nat, n: nat): real
    requires 0 < n && k <= |v|
  {
    if k == 0 then 0.0 else ColumnSum(v, k - 1, n) + v[k - 1] * Weight(k - 1, n)
  }

  /** `WeightedSum` is the weighted sum of the coordinate column. */
  lemma {:induction false} WeightedSumIsColumnSum(h: seq<Pose>, k: nat, m: nat, i: nat, a: Axis, n: nat)
    requires 0 < n && k <= m && CoversFirst(h, m, i + 1)
    ensures WeightedSum(h, k, i, a, n) == ColumnSum(Column(h, m, i, a), k, n)
  {
    if k > 0 {
      WeightedSumIsColumnSum(h, k - 1, m, i, a, n);
    }
  }

  /** The weights are positive, so values bounded by [lo, hi] bound the
      weighted sum by the same bounds times the total weight. */
  lemma {:induction false} ColumnSumBounds(v: seq<real>, k: nat, n: nat, lo: real, hi: real)
    requires 0 < n && k <= |v|
    requires forall j :: 0 <= j < k ==> lo <= v[j] <= hi
    ensures ScaledBetween(lo, hi, TotalWeight(k, n), ColumnSum(v, k, n))
  {
    if k > 0 {
      ColumnSumBounds(v, k - 1, n, lo, hi);
      AccumulateBounds(lo, hi, v[k - 1], Weight(k - 1, n), TotalWeight(k - 1, n), ColumnSum(v, k - 1, n),
                       TotalWeight(k, n), ColumnSum(v, k, n));
    }
  }

  /** The weighted average is a convex combination of the held values. */
  lemma AverageWithinBounds(h: seq<Pose>, i: nat, a: Axis, lo: real, hi: real)
    requires 0 < |h| && Covers(h, i + 1)
    requires forall j :: 0 <= j < |h| ==> lo <= Coord(h[j][i], a) <= hi
    ensures lo <= WeightedAverage(h, i, a) <= hi
  {
    var v := Column(h, |h|, i, a);
    WeightedSumIsColumnSum(h, |h|, |h|, i, a, |h|);
    ColumnSumBounds(v, |h|, |h|, lo, hi);
    DivideBounds(lo, hi, ColumnSum(v, |h|, |h|), TotalWeight(|h|, |h|));
  }

  /** A blend with a factor in [0, 1] lies between its two inputs' bounds. */
  lemma BlendWithinBounds(raw: real, avg: real, alpha: real, lo: real, hi: real)
    requires 0.0 <= alpha <= 1.0
    requires lo <= raw <= hi && lo <= avg <= hi
    ensures lo <= Blend(raw, avg, alpha) <= hi
  {
    MulNonNegative(raw - lo, 1.0 - alpha);
    MulNonNegative(avg - lo, alpha);
    MulNonNegative(hi - raw, 1.0 - alpha);
    MulNonNegative(hi - avg, alpha);
    assert Blend(raw, avg, alpha) - lo == (raw - lo) * (1.0 - alpha) + (avg - lo) * alpha;
    assert hi - Blend(raw, avg, alpha) == (hi - raw) * (1.0 - alpha) + (hi - avg) * alpha;
  }

  /** With a factor in [0, 1], every smoothed coordinate lies between the
      least and the greatest value of that coordinate over the held frames,
      the current one (the last held frame) included. */
  lemma SmoothedWithinHeldRange(h: seq<Pose>, cur: Pose, alpha: real, i: nat, a: Axis, lo: real, hi: real)
    requires 0.0 <= alpha <= 1.0
    requires 0 < |h| && h[|h| - 1] == cur && i < |cur|
    requires forall j :: 0 <= j < |h| && i < |h[j]| ==> lo <= Coord(h[j][i], a) <= hi
    requires Smooth(h, cur, alpha).Smoothed?
    ensures lo <= Coord(Smooth(h, cur, alpha).pose[i], a) <= hi
  {
    assert lo <= Coord(cur[i], a) <= hi;
    if MinFramesToSmooth <= |h| {
      assert Covers(h, i + 1);
      AverageWithinBounds(h, i, a, lo, hi);
      BlendWithinBounds(Coord(cur[i], a), WeightedAverage(h, i, a), alpha, lo, hi);
      SmoothLandmarkCoord(h, cur[i], i, alpha, a);
    }
  }

  /** When every held frame has the same value `c` on one coordinate of
      landmark `i`, the average is `c`. */
  lemma AverageOfConstant(h: seq<Pose>, i: nat, a: Axis, c: real)
    requires 0 < |h| && Covers(h, i + 1)
    requires forall j :: 0 <= j < |h| ==> Coord(h[j][i], a) == c
    ensures WeightedAverage(h, i, a) == c
  {
    AverageWithinBounds(h, i, a, c, c);
  }

  /** When every held frame agrees with the input on one coordinate of
      landmark `i`, that coordinate of the output equals the input's, for
      any factor. */
  lemma SteadyCoordinateIsKept(h: seq<Pose>, cur: Pose, alpha: real, i: nat, a: Axis)
    requires i < |cur| && Smooth(h, cur, alpha).Smoothed?
    requires forall j :: 0 <= j < |h| && i < |h[j]| ==> Coord(h[j][i], a) == Coord(cur[i], a)
    ensures Coord(Smooth(h, cur, alpha).pose[i], a) == Coord(cur[i], a)
  {
    if MinFramesToSmooth <= |h| {
      assert Covers(h, i + 1);
      AverageOfConstant(h, i, a, Coord(cur[i], a));
      SmoothLandmarkCoord(h, cur[i], i, alpha, a);
    }
  }

  /** A constant input stream is a fixed point: when every held frame
      equals the input, the output is the input. */
  lemma ConstantStreamIsFixedPoint(h: seq<Pose>, cur: Pose, alpha: real)
    requires forall j :: 0 <= j < |h| ==> h[j] == cur
    ensures Smooth(h, cur, alpha) == Smoothed(cur)
  {
    if MinFramesToSmooth <= |h| {
      assert Covers(h, |cur|);
      var out := Smooth(h, cur, alpha).pose;
      forall i | 0 <= i < |cur|
        ensures out[i] == cur[i]
      {
        SteadyCoordinateIsKept(h, cur, alpha, i, X);
        SteadyCoordinateIsKept(h, cur, alpha, i, Y);
        SteadyCoordinateIsKept(h, cur, alpha, i, Z);
      }
    }
  }

  /** `Σ (j + 1) · v_j` over the first `k` frames, oldest first. */
  function IndexWeightedSum(h: seq<Pose>, k: nat, i: nat, a: Axis): real
    requires CoversFirst(h, k, i + 1)
  {
    if k == 0 then 0.0
    else IndexWeightedSum(h, k - 1, i, a) + k as real * Coord(h[k - 1][i], a)
  }

  /** One weighted term, scaled by `n`, is the index weight times the value. */
  lemma ScaledTerm(c: real, j: nat, n: nat)
    requires 0 < n
    ensures (c * Weight(j, n)) * n as real == (j + 1) as real * c
  {
    assert Weight(j, n) * n as real == (j + 1) as real;
  }

  lemma {:induction false} WeightedSumScaled(h: seq<Pose>, k: nat, i: nat, a: Axis, n: nat)
    requires 0 < n && CoversFirst(h, k, i + 1)
    ensures WeightedSum(h, k, i, a, n) * n as real == IndexWeightedSum(h, k, i, a)
  {
    if k > 0 {
      WeightedSumScaled(h, k - 1, i, a, n);
      ScaledTerm(Coord(h[k - 1][i], a), k - 1, n);
    }
  }

  lemma {:induction false} TotalWeightScaled(k: nat, n: nat)
    requires 0 < n
    ensures 2.0 * TotalWeight(k, n) * n as real == (k * (k + 1)) as real
  {
    if k > 0 {
      TotalWeightScaled(k - 1, n);
      assert Weight(k - 1, n) * n as real == k as real;
    }
  }

  /** Dividing out the common `1 / N`: the average is
      `Σ (j + 1) · v_j / Σ (j + 1)`, where `Σ (j + 1) = N (N + 1) / 2`. */
  lemma WeightedAverageClosedForm(h: seq<Pose>, i: nat, a: Axis)
    requires 0 < |h| && Covers(h, i + 1)
    ensures WeightedAverage(h, i, a) == 2.0 * IndexWeightedSum(h, |h|, i, a) / (|h| * (|h| + 1)) as real
  {
    var n := |h|;
    var sum, total, indexed := WeightedSum(h, n, i, a, n), TotalWeight(n, n), IndexWeightedSum(h, n, i, a);
    WeightedSumScaled(h, n, i, a, n);
    TotalWeightScaled(n, n);
    Rescale(sum, total, n as real, indexed, (n * (n + 1)) as real);
  }

  /** A one-landmark frame whose nose is at horizontal fraction `x`. */
  function NoseAt(x: real): Pose
  {
    [Landmark(x, 0.5, 0.0, 1.0)]
  }

  /** Five frames in which the nose moves right by 0.01 per frame, from
      0.40 to 0.44, smoothed with the factor 0.8 the application uses: the
      weighted average is 32/75 (about 0.4267), and the output, 161/375
      (about 0.4293), lies strictly between that average and the raw 0.44. */
  lemma LinearRampScenario()
    ensures var h := [NoseAt(0.40), NoseAt(0.41), NoseAt(0.42), NoseAt(0.43), NoseAt(0.44)];
            Covers(h, 1) && WeightedAverage(h, 0, X) == 32.0 / 75.0 &&
            Smooth(h, NoseAt(0.44), 0.8) == Smoothed([Landmark(161.0 / 375.0, 0.5, 0.0, 1.0)]) &&
            32.0 / 75.0 < 161.0 / 375.0 < 0.44
  {
    var h := [NoseAt(0.40), NoseAt(0.41), NoseAt(0.42), NoseAt(0.43), NoseAt(0.44)];
    assert Covers(h, 1);
    assert IndexWeightedSum(h, 1, 0, X) == 0.40;
    assert IndexWeightedSum(h, 2, 0, X) == 0.40 + 2.0 * 0.41;
    assert IndexWeightedSum(h, 3, 0, X) == 0.40 + 2.0 * 0.41 + 3.0 * 0.42;
    assert IndexWeightedSum(h, 4, 0, X) == 0.40 + 2.0 * 0.41 + 3.0 * 0.42 + 4.0 * 0.43;
    assert IndexWeightedSum(h, 5, 0, X) == 6.4;
    WeightedAverageClosedForm(h, 0, X);
    AverageOfConstant(h, 0, Y, 0.5);
    AverageOfConstant(h, 0, Z, 0.0);
    var out := Smooth(h, NoseAt(0.44), 0.8).pose;
    assert out[0] == SmoothLandmark(h, NoseAt(0.44)[0], 0, 0.8);
    assert out == [Landmark(161.0 / 375.0, 0.5, 0.0, 1.0)];
  }

  // ---------------------------------------------------------------------
  // The smoothing factor
  // ---------------------------------------------------------------------

  /** `min(0.95, f + step)`. */
  function Raised(f: real, step: real): (r: real)
    ensures r <= MaxFactor
    ensures r == f + step || r == MaxFactor
    ensures MinFactor <= f <= MaxFactor && 0.0 <= step ==> f <= r
  {
    if MaxFactor <= f + step then MaxFactor else f + step
  }

  /** `max(0.0, f - step)`. */
  function Lowered(f: real, step: real): (r: real)
    ensures MinFactor <= r
    ensures r == f - step || r == MinFactor
    ensures MinFactor <= f <= MaxFactor && 0.0 <= step ==> r <= f
  {
    if f - step <= MinFactor then MinFactor else f - step
  }

  /** A key press that changes the factor. */
  datatype Adjustment = Increase(step: real) | Decrease(step: real)

  /** The factor after the adjustments `adj`, applied first to last. */
  function Adjusted(f: real, adj: seq<Adjustment>): real
    decreases |adj|
  {
    if adj == [] then f
    else
      var g := match adj[0]
        case Increase(s) => Raised(f, s)
        case Decrease(s) => Lowered(f, s);
      Adjusted(g, adj[1..])
  }

  /** From a factor in [0, 0.95], any number of increases and decreases by
      non-negative steps keeps it in [0, 0.95]: saturation, never
      wrap-around or escape. */
  lemma {:induction false} AdjustedStaysInRange(f: real, adj: seq<Adjustment>)
    requires MinFactor <= f <= MaxFactor
    requires forall k :: 0 <= k < |adj| ==> 0.0 <= adj[k].step
    ensures MinFactor <= Adjusted(f, adj) <= MaxFactor
    decreases |adj|
  {
    if adj != [] {
      var g := match adj[0]
        case Increase(s) => Raised(f, s)
        case Decrease(s) => Lowered(f, s);
      assert MinFactor <= g <= MaxFactor;
      AdjustedStaysInRange(g, adj[1..]);
    }
  }

  // ---------------------------------------------------------------------
  // The stateful filter
  // ---------------------------------------------------------------------

  class PoseSmoother {
    /** The held frames, oldest first. */
    var poseHistory: seq<Pose>
    var maxHistory: int
    var smoothingFactor: real
    /** Every frame pushed since construction or the last reset. */
    ghost var pushed: seq<Pose>

    /** The history is the most recent `maxHistory` pushed frames. */
    ghost predicate Valid()
      reads this
    {
      poseHistory == Window(pushed, maxHistory)
    }

    constructor (maxHistory: int := 15, smoothingFactor: real := 0.8)
      ensures Valid()
      ensures poseHistory == [] && pushed == []
      ensures this.maxHistory == maxHistory && this.smoothingFactor == smoothingFactor
    {
      poseHistory := [];
      this.maxHistory := maxHistory;
      this.smoothingFactor := smoothingFactor;
      pushed := [];
    }

    /** Forget every held frame; the capacity and the factor stay. */
    method ResetHistory()
      modifies this`poseHistory, this`pushed
      ensures Valid()
      ensures poseHistory == [] && pushed == []
    {
      poseHistory := [];
      pushed := [];
    }

    method IncreaseSmoothing(step: real := DefaultStep)
      modifies this`smoothingFactor
      ensures smoothingFactor == Raised(old(smoothingFactor), step)
      ensures smoothingFactor <= MaxFactor
    {
      smoothingFactor := Raised(smoothingFactor, step);
    }

    method DecreaseSmoothing(step: real := DefaultStep)
      modifies this`smoothingFactor
      ensures smoothingFactor == Lowered(old(smoothingFactor), step)
      ensures MinFactor <= smoothingFactor
    {
      smoothingFactor := Lowered(smoothingFactor, step);
    }

    /** The first step of `apply_smoothing`: append the frame, then drop
        the oldest one when more than `maxHistory` are held. */
    method Remember(landmarks: Pose)
      requires Valid()
      modifies this`poseHistory, this`pushed
      ensures Valid()
      ensures pushed == old(pushed) + [landmarks]
      ensures poseHistory == Push(old(poseHistory), landmarks, maxHistory)
      ensures |poseHistory| <= maxHistory || poseHistory == []
    {
      PushKeepsWindow(pushed, landmarks, maxHistory);
      poseHistory := poseHistory + [landmarks];
      pushed := pushed + [landmarks];
      if |poseHistory| > maxHistory {
        poseHistory := poseHistory[1..];
      }
    }

    /** Push the current landmarks, then average each landmark's x, y and z
        over the held frames with weights `(j + 1) / N` and blend the
        average into a copy of the current landmarks. */
    method ApplySmoothing(landmarks: Pose) returns (r: Outcome)
      requires Valid()
      modifies this`poseHistory, this`pushed
      ensures Valid()
      ensures pushed == old(pushed) + [landmarks]
      ensures poseHistory == Push(old(poseHistory), landmarks, maxHistory)
      ensures |poseHistory| <= maxHistory || poseHistory == []
      ensures r == Smooth(poseHistory, landmarks, smoothingFactor)
    {
      Remember(landmarks);
      if |poseHistory| < MinFramesToSmooth {
        return Smoothed(landmarks);
      }

      r := SmoothHeld(poseHistory, landmarks, smoothingFactor);
    }
  }
}
