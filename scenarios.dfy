/** Worked cases of the pipeline, each proved for every pose of its shape:
    an unchanged pose, a nose that drops by a tenth of a shoulder width, a
    user leaning back to 70% of the reference width, and a user whose
    shoulders the detector is unsure of. */
module Scenarios {
  import opened Basics
  import opened Landmarks
  import opened Scoring
  import opened Monitor

  /** Sitting exactly as in the reference scores zero, shows 0% and is a good
      frame at any non-negative sensitivity. */
  lemma UnchangedPose(ref: NormalizedPose, sqrt: real -> real, percent: int)
    requires IsSqrt(sqrt)
    requires ref.Scaled?
    requires 0 <= percent
    ensures FinalError(ref, ref, sqrt) == Num(0.0)
    ensures DisplayPercent(FinalError(ref, ref, sqrt)) == Some(0)
    ensures !IsBad(FinalError(ref, ref, sqrt), DeviationThreshold(percent))
  {
    ZeroDeviationIff(ref, ref, sqrt);
  }

  /** The reference with the nose moved down by `dy` (image y grows downward). */
  function NoseMoved(ref: NormalizedPose, dy: real): (r: NormalizedPose)
    requires ref.Scaled?
    ensures r.Scaled? && r.shoulderWidth == ref.shoulderWidth
    ensures r.points[1..] == ref.points[1..]
  {
    var n := ref.points[0];
    Scaled(ref.points[0 := Point(n.x, n.y + dy, n.z)], ref.shoulderWidth)
  }

  /** A nose drop of 0.1 shoulder widths costs 0.1 * 1.2 = 0.12 on the nose
      alone, 0.12 / 7 after averaging, which shows as 6% and stays well
      below the default threshold of 60 / 350. */
  lemma NoseDrop(ref: NormalizedPose, sqrt: real -> real)
    requires IsSqrt(sqrt)
    requires ref.Scaled?
    ensures FinalError(NoseMoved(ref, 0.1), ref, sqrt) == Num(0.12 / 7.0)
    ensures DisplayPercent(FinalError(NoseMoved(ref, 0.1), ref, sqrt)) == Some(6)
    ensures !IsBad(FinalError(NoseMoved(ref, 0.1), ref, sqrt), DeviationThreshold(DefaultThresholdPercent))
  {
    var cur := NoseMoved(ref, 0.1);
    forall k | 1 <= k < PointCount
      ensures cur.points[k] == ref.points[k]
    {
      assert cur.points[k] == cur.points[1..][k - 1];
    }
    TotalOfFirstOnly(cur.points, ref.points, PointCount, sqrt);
    NoseDistance(cur.points[0], ref.points[0], sqrt);
    RatioOf(cur.shoulderWidth, ref.shoulderWidth, 1.0);
  }

  /** When every point but the first matches, the total is the first point's
      distance. */
  lemma {:induction false} TotalOfFirstOnly(cur: seq<Point>, ref: seq<Point>, n: nat, sqrt: real -> real)
    requires IsSqrt(sqrt)
    requires |cur| == PointCount && |ref| == PointCount && 1 <= n <= PointCount
    requires forall k :: 1 <= k < PointCount ==> cur[k] == ref[k]
    ensures Total(cur, ref, n, sqrt) == PointDistance(cur[0], ref[0], Weights[0], sqrt)
  {
    WeightsPositive(0);
    if n > 1 {
      TotalOfFirstOnly(cur, ref, n - 1, sqrt);
      WeightsPositive(n - 1);
      assert PointDistance(cur[n - 1], ref[n - 1], Weights[n - 1], sqrt) == 0.0;
    }
  }

  /** The nose weight puts 1.2 on a vertical move, so a drop of 0.1 is 0.12. */
  lemma NoseDistance(p: Point, q: Point, sqrt: real -> real)
    requires IsSqrt(sqrt)
    requires p == Point(q.x, q.y + 0.1, q.z)
    ensures PointDistance(p, q, Weights[0], sqrt) == 0.12
  {
    WeightsPositive(0);
    var arg := Sq(Mul(Abs(p.x - q.x), 0.2)) + Sq(Mul(Abs(p.y - q.y), 1.2)) + Sq(Mul(Abs(p.z - q.z), 1.5));
    assert Abs(p.y - q.y) == 0.1;
    assert Sq(Mul(0.1, 1.2)) == 0.0144;
    assert arg == 0.0144;
    assert 0.0 <= sqrt(arg) && Sq(sqrt(arg)) == arg;
    SquareInjective(sqrt(arg), 0.12);
  }

  /** Leaning back to 70% of the reference width costs (0.85 - 0.7) * 1.5 =
      0.225 on top of the point error, whatever the points do. */
  lemma LeanBack(cur: NormalizedPose, ref: NormalizedPose, sqrt: real -> real)
    requires IsSqrt(sqrt)
    requires cur.Scaled? && ref.Scaled?
    requires cur.shoulderWidth == 0.7 * ref.shoulderWidth
    ensures LeanRatio(cur, ref) == 0.7
    ensures FinalError(cur, ref, sqrt)
            == Num(Total(cur.points, ref.points, PointCount, sqrt) / PointCount as real + 0.225)
  {
    RatioOf(cur.shoulderWidth, ref.shoulderWidth, 0.7);
    assert ScalePenalty(0.7) == 0.225;
  }

  lemma RatioOf(a: real, w: real, r: real)
    requires 0.0 < w && a == r * w
    ensures a / w == r
  {
  }

  /** Shoulders seen with visibility 0.5 fail the presence filter whatever the
      face does, so a monitored frame is handled as an absence. */
  lemma UnsureShoulders(s: State, lms: seq<Landmark>, now: int, sqrt: real -> real)
    requires IsSqrt(sqrt)
    requires RightShoulderIndex < |lms|
    requires lms[LeftShoulderIndex].visibility == 0.5 && lms[RightShoulderIndex].visibility == 0.5
    requires Inv(s) && s.monitoring
    ensures !IsUserVisible(lms)
    ensures var r := FrameStep(s, Some(lms), now, sqrt);
            r.next.status == Away && !r.next.badPosture && r.next.badSeconds == 0.0 && !r.alerted
  {
    AwayResets(s, Some(lms), now, sqrt);
  }
}
