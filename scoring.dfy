/** The deviation scorer of checkPosture: a weighted distance between the
    current and the reference normalized pose, averaged over the tracked
    points, plus a penalty for leaning toward or away from the camera, and the
    percentage shown to the user. */
module Scoring {
  import opened Basics
  import opened Landmarks

  /** Per-axis weight of one tracked point. */
  datatype Weight = Weight(x: real, y: real, z: real)

  /** Weights in Pose order: facial points count little sideways (turning the
      head is not bad posture) and much vertically and in depth; the shoulders
      count moderately sideways and vertically and little in depth. */
  const Weights: seq<Weight> := [
    Weight(0.2, 1.2, 1.5),  // nose
    Weight(0.2, 1.2, 1.2),  // left eye
    Weight(0.2, 1.2, 1.2),  // right eye
    Weight(0.2, 1.2, 1.0),  // left ear
    Weight(0.2, 1.2, 1.0),  // right ear
    Weight(0.8, 1.0, 0.5),  // left shoulder
    Weight(0.8, 1.0, 0.5)   // right shoulder
  ]

  /** Shoulder-width ratios outside [BackwardLean, ForwardLean] are penalized. */
  const ForwardLean: real := 1.12
  const BackwardLean: real := 0.85
  const ForwardPenaltyRate: real := 3.0
  const BackwardPenaltyRate: real := 1.5

  /** Converts a final error to the displayed percentage (and a percentage
      setting to a threshold). */
  const UiScaleFactor: int := 350
  const MaxPercent: int := 100

  /** A score as JavaScript computes it: a number, or NaN when a pose was
      normalized by a zero shoulder width. */
  datatype Measure = Num(v: real) | NaN

  predicate Positive(w: Weight)
  {
    0.0 < w.x && 0.0 < w.y && 0.0 < w.z
  }

  lemma WeightsPositive(k: nat)
    requires k < PointCount
    ensures |Weights| == PointCount && Positive(Weights[k])
  {
  }

  // ------------------------------------------------------- point distances

  /** Weighted Euclidean distance between one current and one reference point. */
  function PointDistance(p: Point, q: Point, w: Weight, sqrt: real -> real): (r: real)
    requires IsSqrt(sqrt)
    requires Positive(w)
    ensures 0.0 <= r
    ensures r == 0.0 <==> p == q
  {
    var arg := WeightedSquares(p, q, w);
    SqrtZero(sqrt, arg);
    sqrt(arg)
  }

  /** The argument of the square root: the sum of the squared weighted axis
      differences. */
  function WeightedSquares(p: Point, q: Point, w: Weight): (r: real)
    requires Positive(w)
    ensures 0.0 <= r
    ensures r == 0.0 <==> p == q
  {
    var dx, dy, dz := Abs(p.x - q.x), Abs(p.y - q.y), Abs(p.z - q.z);
    Sq(Mul(dx, w.x)) + Sq(Mul(dy, w.y)) + Sq(Mul(dz, w.z))
  }

  /** Sum of the weighted distances of the first n tracked points. */
  function Total(cur: seq<Point>, ref: seq<Point>, n: nat, sqrt: real -> real): (r: real)
    requires IsSqrt(sqrt)
    requires |cur| == PointCount && |ref| == PointCount && n <= PointCount
    ensures 0.0 <= r
    ensures r == 0.0 <==> forall k :: 0 <= k < n ==> cur[k] == ref[k]
  {
    if n == 0 then 0.0
    else
      WeightsPositive(n - 1);
      Total(cur, ref, n - 1, sqrt) + PointDistance(cur[n - 1], ref[n - 1], Weights[n - 1], sqrt)
  }

  /** The `forEach` over the seven tracked points that accumulates totalError. */
  method WeightedTotal(cur: seq<Point>, ref: seq<Point>, sqrt: real -> real) returns (totalError: real)
    requires IsSqrt(sqrt)
    requires |cur| == PointCount && |ref| == PointCount
    ensures totalError == Total(cur, ref, PointCount, sqrt)
  {
    totalError := 0.0;
    for k := 0 to PointCount
      invariant totalError == Total(cur, ref, k, sqrt)
    {
      WeightsPositive(k);
      var dist := PointDistance(cur[k], ref[k], Weights[k], sqrt);
      totalError := totalError + dist;
    }
  }

  /** `p2` is farther from `q` than `p1` along every axis, and strictly
      farther along at least one. */
  predicate Farther(p2: Point, p1: Point, q: Point)
  {
    && Abs(p1.x - q.x) <= Abs(p2.x - q.x)
    && Abs(p1.y - q.y) <= Abs(p2.y - q.y)
    && Abs(p1.z - q.z) <= Abs(p2.z - q.z)
    && (Abs(p1.x - q.x) < Abs(p2.x - q.x) || Abs(p1.y - q.y) < Abs(p2.y - q.y)
        || Abs(p1.z - q.z) < Abs(p2.z - q.z))
  }

  /** Moving a point farther from its reference along an axis, the others held
      fixed, strictly increases its weighted distance. */
  lemma PointDistanceMonotone(p1: Point, p2: Point, q: Point, w: Weight, sqrt: real -> real)
    requires IsSqrt(sqrt)
    requires Positive(w)
    requires Farther(p2, p1, q)
    ensures PointDistance(p1, q, w, sqrt) < PointDistance(p2, q, w, sqrt)
  {
    WeightedSquaresMonotone(p1, p2, q, w);
    SqrtStrictlyIncreasing(sqrt, WeightedSquares(p1, q, w), WeightedSquares(p2, q, w));
  }

  lemma WeightedSquaresMonotone(p1: Point, p2: Point, q: Point, w: Weight)
    requires Positive(w)
    requires Farther(p2, p1, q)
    ensures WeightedSquares(p1, q, w) < WeightedSquares(p2, q, w)
  {
    WeightedSquareMonotone(Abs(p1.x - q.x), Abs(p2.x - q.x), w.x);
    WeightedSquareMonotone(Abs(p1.y - q.y), Abs(p2.y - q.y), w.y);
    WeightedSquareMonotone(Abs(p1.z - q.z), Abs(p2.z - q.z), w.z);
  }

  /** A weighted square grows with the difference, strictly when it does. */
  lemma WeightedSquareMonotone(d1: real, d2: real, w: real)
    requires 0.0 <= d1 <= d2 && 0.0 < w
    ensures Sq(Mul(d1, w)) <= Sq(Mul(d2, w))
    ensures d1 < d2 ==> Sq(Mul(d1, w)) < Sq(Mul(d2, w))
  {
    var m1, m2 := Mul(d1, w), Mul(d2, w);
    ScaleMonotone(d1, d2, w);
    assert 0.0 <= m1 <= m2;
    ScaleMonotone(m1, m2, m1);
    ScaleMonotone(m1, m2, m2);
    assert Mul(m1, m1) <= Mul(m2, m1) && Mul(m1, m2) <= Mul(m2, m2);
    assert Mul(m2, m1) == Mul(m1, m2);
    if d1 < d2 {
      assert m1 < m2;
      assert Mul(m1, m2) < Mul(m2, m2);
    }
  }

  /** Multiplying by a non-negative factor keeps order, and a positive one
      keeps strict order. */
  lemma ScaleMonotone(a: real, b: real, c: real)
    requires a <= b && 0.0 <= c
    ensures Mul(a, c) <= Mul(b, c)
    ensures a < b && 0.0 < c ==> Mul(a, c) < Mul(b, c)
  {
    assert Mul(b, c) - Mul(a, c) == Mul(b - a, c);
  }

  /** Replacing one point by one with a larger distance raises the total of
      every prefix that contains it and leaves shorter prefixes alone. */
  lemma {:induction false} TotalMonotone(cur: seq<Point>, cur': seq<Point>, ref: seq<Point>, k: nat, n: nat,
                                         sqrt: real -> real)
    requires IsSqrt(sqrt)
    requires |cur| == PointCount && |cur'| == PointCount && |ref| == PointCount && n <= PointCount
    requires k < PointCount && cur' == cur[k := cur'[k]]
    requires Positive(Weights[k])
    requires PointDistance(cur[k], ref[k], Weights[k], sqrt) < PointDistance(cur'[k], ref[k], Weights[k], sqrt)
    ensures n <= k ==> Total(cur', ref, n, sqrt) == Total(cur, ref, n, sqrt)
    ensures k < n ==> Total(cur, ref, n, sqrt) < Total(cur', ref, n, sqrt)
  {
    if n > 0 {
      TotalMonotone(cur, cur', ref, k, n - 1, sqrt);
      WeightsPositive(n - 1);
      var d, d' := PointDistance(cur[n - 1], ref[n - 1], Weights[n - 1], sqrt),
                   PointDistance(cur'[n - 1], ref[n - 1], Weights[n - 1], sqrt);
      assert Total(cur, ref, n, sqrt) == Total(cur, ref, n - 1, sqrt) + d;
      assert Total(cur', ref, n, sqrt) == Total(cur', ref, n - 1, sqrt) + d';
      if n - 1 != k {
        assert cur'[n - 1] == cur[n - 1];
      }
    }
  }

  /** Monotonicity of the score: moving one tracked point farther from its
      reference along an axis, everything else held fixed, strictly increases
      the final error. */
  lemma FinalErrorMonotone(cur: NormalizedPose, k: nat, p: Point, ref: NormalizedPose, sqrt: real -> real)
    requires IsSqrt(sqrt)
    requires cur.Scaled? && ref.Scaled? && k < PointCount
    requires Farther(p, cur.points[k], ref.points[k])
    ensures var cur' := Scaled(cur.points[k := p], cur.shoulderWidth);
            WellFormed(cur') && FinalError(cur, ref, sqrt).v < FinalError(cur', ref, sqrt).v
  {
    var cur': NormalizedPose := Scaled(cur.points[k := p], cur.shoulderWidth);
    WeightsPositive(k);
    PointDistanceMonotone(cur.points[k], p, ref.points[k], Weights[k], sqrt);
    TotalMonotone(cur.points, cur'.points, ref.points, k, PointCount, sqrt);
    assert LeanPenalty(cur', ref) == LeanPenalty(cur, ref);
  }

  // ------------------------------------------------------------ lean penalty

  /** Penalty for a change of apparent shoulder width: none inside the dead
      zone, growing linearly with the excess above it (leaning toward the
      screen) and, at half the rate, with the deficit below it (leaning back). */
  function ScalePenalty(ratio: real): (r: real)
    ensures 0.0 <= r
    ensures r == 0.0 <==> BackwardLean <= ratio <= ForwardLean
  {
    if ratio > ForwardLean then (ratio - ForwardLean) * ForwardPenaltyRate
    else if ratio < BackwardLean then (BackwardLean - ratio) * BackwardPenaltyRate
    else 0.0
  }

  /** The penalty grows the further the ratio leaves the dead zone, and leaning
      forward by some margin costs twice as much as leaning back by the same. */
  lemma ScalePenaltyShape(a: real, b: real, d: real)
    ensures ForwardLean <= a <= b ==> ScalePenalty(a) <= ScalePenalty(b)
    ensures a <= b <= BackwardLean ==> ScalePenalty(b) <= ScalePenalty(a)
    ensures 0.0 < d ==> ScalePenalty(ForwardLean + d) == 2.0 * ScalePenalty(BackwardLean - d)
  {
  }

  /** scaleError: the lean penalty of two scaled poses. For an unscaled pose
      (zero width) the model uses zero; such a frame scores NaN, is judged
      good, and a good frame never reads the penalty. */
  function LeanPenalty(cur: NormalizedPose, ref: NormalizedPose): (r: real)
    ensures 0.0 <= r
    ensures cur.Scaled? && ref.Scaled? ==> r == ScalePenalty(LeanRatio(cur, ref))
  {
    if cur.Scaled? && ref.Scaled? then ScalePenalty(LeanRatio(cur, ref)) else 0.0
  }

  // ------------------------------------------------------------- final error

  /** Ratio of the current to the reference shoulder width. */
  function LeanRatio(cur: NormalizedPose, ref: NormalizedPose): real
    requires cur.Scaled? && ref.Scaled?
  {
    cur.shoulderWidth / ref.shoulderWidth
  }

  /** finalError: the average weighted point distance plus the lean penalty; NaN
      when either pose carries not-a-number coordinates. */
  function FinalError(cur: NormalizedPose, ref: NormalizedPose, sqrt: real -> real): (r: Measure)
    requires IsSqrt(sqrt)
    ensures r.Num? <==> cur.Scaled? && ref.Scaled?
    ensures r.Num? ==> 0.0 <= r.v
  {
    if cur.Scaled? && ref.Scaled? then
      Num(Total(cur.points, ref.points, PointCount, sqrt) / PointCount as real + LeanPenalty(cur, ref))
    else NaN
  }

  /** The deviation is zero exactly when every tracked point is where it was in
      the reference and the shoulder-width ratio is inside the dead zone. */
  lemma ZeroDeviationIff(cur: NormalizedPose, ref: NormalizedPose, sqrt: real -> real)
    requires IsSqrt(sqrt)
    ensures FinalError(cur, ref, sqrt) == Num(0.0)
            <==> (cur.Scaled? && ref.Scaled? && cur.points == ref.points
                  && BackwardLean <= LeanRatio(cur, ref) <= ForwardLean)
  {
    if cur.Scaled? && ref.Scaled? {
      var total := Total(cur.points, ref.points, PointCount, sqrt);
      if cur.points == ref.points {
        assert total == 0.0;
      }
      if total == 0.0 {
        assert cur.points == ref.points;
      }
    }
  }

  /** When every tracked point matches, the deviation is the lean penalty alone. */
  lemma SamePointsScoreLeanOnly(cur: NormalizedPose, ref: NormalizedPose, sqrt: real -> real)
    requires IsSqrt(sqrt)
    requires cur.Scaled? && ref.Scaled? && cur.points == ref.points
    ensures FinalError(cur, ref, sqrt) == Num(ScalePenalty(LeanRatio(cur, ref)))
  {
    assert Total(cur.points, ref.points, PointCount, sqrt) == 0.0;
  }

  // ----------------------------------------------------------------- display

  /** deviationPercent: the final error times the UI scale, rounded to the
      nearest integer and capped at 100; NaN stays NaN. */
  function DisplayPercent(e: Measure): (r: Option<int>)
    ensures r.Some? <==> e.Num?
    ensures r.Some? ==> r.value <= MaxPercent
    ensures r.Some? && 0.0 <= e.v ==> 0 <= r.value
    ensures r.Some? && r.value < MaxPercent ==>
              r.value as real - 0.5 <= e.v * UiScaleFactor as real < r.value as real + 0.5
    ensures r.Some? && r.value == MaxPercent ==> MaxPercent as real - 0.5 <= e.v * UiScaleFactor as real
  {
    match e
    case NaN => None
    case Num(v) =>
      var rounded := Round(v * UiScaleFactor as real);
      Some(if rounded < MaxPercent then rounded else MaxPercent)
  }
}
