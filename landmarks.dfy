/** Detector keypoints, the presence filter (isUserVisible) and the landmark
    normalizer (normalizeLandmarks) of the posture monitor. */
module Landmarks {
  import opened Basics

  /** One detector keypoint: image coordinates and a confidence score. */
  datatype Landmark = Landmark(x: real, y: real, z: real, visibility: real)

  /** A coordinate triple; after normalization it is relative to the shoulder
      midpoint and measured in shoulder widths. */
  datatype Point = Point(x: real, y: real, z: real)

  /** A normalized pose. `Scaled` holds the seven tracked points in the order
      nose, left eye, right eye, left ear, right ear, left shoulder, right
      shoulder, and the shoulder width they were divided by. `Unscaled` is the
      pose computed from a frame whose shoulders coincide: the width is zero,
      every coordinate was divided by it, and at least the shoulders' x and y
      (zero over zero) are not a number. */
  datatype Pose =
    | Scaled(points: seq<Point>, shoulderWidth: real)
    | Unscaled

  predicate WellFormed(p: Pose)
  {
    p.Scaled? ==> |p.points| == PointCount && 0.0 < p.shoulderWidth
  }

  type NormalizedPose = p: Pose | WellFormed(p) witness Unscaled

  /** Detector indices of the landmarks the pipeline reads. */
  const NoseIndex: nat := 0
  const LeftEyeIndex: nat := 2
  const RightEyeIndex: nat := 5
  const LeftEarIndex: nat := 7
  const RightEarIndex: nat := 8
  const LeftShoulderIndex: nat := 11
  const RightShoulderIndex: nat := 12

  /** Number of tracked points, and the positions of the shoulders among them. */
  const PointCount: nat := 7
  const LeftShoulderPoint: nat := 5
  const RightShoulderPoint: nat := 6

  /** Detector index of each tracked point, in Pose order. */
  const Tracked: seq<nat> := [NoseIndex, LeftEyeIndex, RightEyeIndex, LeftEarIndex,
                              RightEarIndex, LeftShoulderIndex, RightShoulderIndex]

  /** Confidence a landmark must exceed to count as seen. */
  const MinVisibility: real := 0.75

  // ---------------------------------------------------------------- presence

  /** The landmark at `idx` exists and its confidence is strictly above the floor. */
  predicate Visible(lms: seq<Landmark>, idx: nat)
  {
    idx < |lms| && lms[idx].visibility > MinVisibility
  }

  /** `idxs.some(idx => landmarks[idx] && landmarks[idx].visibility > MIN_VISIBILITY)` */
  function AnyVisible(lms: seq<Landmark>, idxs: seq<nat>): (r: bool)
    ensures r <==> exists k :: 0 <= k < |idxs| && Visible(lms, idxs[k])
  {
    if idxs == [] then false
    else Visible(lms, idxs[0]) || AnyVisible(lms, idxs[1..])
  }

  lemma AnyVisibleUnfolds(lms: seq<Landmark>, idxs: seq<nat>)
    requires 2 <= |idxs| <= 3
    ensures AnyVisible(lms, idxs) <==> (Visible(lms, idxs[0]) || Visible(lms, idxs[1])
                                         || (|idxs| == 3 && Visible(lms, idxs[2])))
  {
    assert idxs[1..][0] == idxs[1];
    if |idxs| == 3 {
      assert idxs[1..][1..][0] == idxs[2];
      assert idxs[1..][1..][1..] == [];
    } else {
      assert idxs[1..][1..] == [];
    }
  }

  /** A user is in frame when a shoulder and a facial feature (nose or an ear)
      are each seen with enough confidence. */
  function IsUserVisible(lms: seq<Landmark>): (r: bool)
    ensures r <==> ((Visible(lms, LeftShoulderIndex) || Visible(lms, RightShoulderIndex))
                    && (Visible(lms, NoseIndex) || Visible(lms, LeftEarIndex) || Visible(lms, RightEarIndex)))
  {
    AnyVisibleUnfolds(lms, [LeftShoulderIndex, RightShoulderIndex]);
    AnyVisibleUnfolds(lms, [NoseIndex, LeftEarIndex, RightEarIndex]);
    var hasShoulder := AnyVisible(lms, [LeftShoulderIndex, RightShoulderIndex]);
    var hasFace := AnyVisible(lms, [NoseIndex, LeftEarIndex, RightEarIndex]);
    hasShoulder && hasFace
  }

  // ----------------------------------------------------------- normalization

  /** Midpoint of the two shoulders. */
  function Center(lms: seq<Landmark>): Point
    requires RightShoulderIndex < |lms|
  {
    var l, r := lms[LeftShoulderIndex], lms[RightShoulderIndex];
    Point((l.x + r.x) / 2.0, (l.y + r.y) / 2.0, (l.z + r.z) / 2.0)
  }

  /** Square of the shoulder-to-shoulder distance in the image plane. */
  function ShoulderSpread(lms: seq<Landmark>): (r: real)
    requires RightShoulderIndex < |lms|
    ensures 0.0 <= r
    ensures r == 0.0 <==> (lms[LeftShoulderIndex].x == lms[RightShoulderIndex].x
                           && lms[LeftShoulderIndex].y == lms[RightShoulderIndex].y)
  {
    var l, r := lms[LeftShoulderIndex], lms[RightShoulderIndex];
    Sq(l.x - r.x) + Sq(l.y - r.y)
  }

  /** One landmark re-expressed relative to `c` in units of `w`. */
  function Relative(p: Landmark, c: Point, w: real): Point
    requires w != 0.0
  {
    Point((p.x - c.x) / w, (p.y - c.y) / w, (p.z - c.z) / w)
  }

  /** normalizeLandmarks. `None` when a landmark it reads is missing (reading a
      field of the missing entry throws, so the caller stops); `Unscaled` when
      the shoulders coincide. Otherwise the seven tracked points relative to the
      shoulder midpoint, in shoulder widths, with the two shoulders mirror
      images of each other. */
  function Normalize(lms: seq<Landmark>, sqrt: real -> real): (r: Option<NormalizedPose>)
    requires IsSqrt(sqrt)
    ensures r.Some? <==> RightShoulderIndex < |lms|
    ensures r.Some? ==> (r.value.Unscaled? <==> (lms[LeftShoulderIndex].x == lms[RightShoulderIndex].x
                                                 && lms[LeftShoulderIndex].y == lms[RightShoulderIndex].y))
    ensures r.Some? && r.value.Scaled? ==>
              Sq(r.value.shoulderWidth) == ShoulderSpread(lms)
              && r.value.points[LeftShoulderPoint] == Negate(r.value.points[RightShoulderPoint])
  {
    if |lms| <= RightShoulderIndex then None
    else
      var w := sqrt(ShoulderSpread(lms));
      SqrtZero(sqrt, ShoulderSpread(lms));
      if w == 0.0 then Some(Unscaled)
      else
        Some(Scaled(Relatives(lms, Center(lms), w), w))
  }

  /** The tracked landmarks, in Pose order, each re-expressed relative to `c`
      in units of `w`: scaling a point back by `w` and moving it back to `c`
      gives the landmark it came from. */
  function Relatives(lms: seq<Landmark>, c: Point, w: real): (ps: seq<Point>)
    requires RightShoulderIndex < |lms| && w != 0.0
    ensures |ps| == PointCount
    ensures forall k :: 0 <= k < PointCount ==> Restore(ps[k], c, w) == Position(lms[Tracked[k]])
  {
    RestoreAll(lms, c, w);
    seq(PointCount, k requires 0 <= k < PointCount => Relative(lms[Tracked[k]], c, w))
  }

  lemma RestoreAll(lms: seq<Landmark>, c: Point, w: real)
    requires RightShoulderIndex < |lms| && w != 0.0
    ensures forall k :: 0 <= k < PointCount ==>
              Restore(Relative(lms[Tracked[k]], c, w), c, w) == Position(lms[Tracked[k]])
  {
    forall k | 0 <= k < PointCount
      ensures Restore(Relative(lms[Tracked[k]], c, w), c, w) == Position(lms[Tracked[k]])
    {
      RestoreRelative(lms[Tracked[k]], c, w);
    }
  }

  function Negate(p: Point): Point
  {
    Point(-p.x, -p.y, -p.z)
  }

  /** Every landmark moved by the same offset; confidences unchanged. */
  function Translate(lms: seq<Landmark>, t: Point): (r: seq<Landmark>)
    ensures |r| == |lms|
    ensures forall i :: 0 <= i < |lms| ==>
              r[i] == Landmark(lms[i].x + t.x, lms[i].y + t.y, lms[i].z + t.z, lms[i].visibility)
  {
    seq(|lms|, i requires 0 <= i < |lms| =>
      Landmark(lms[i].x + t.x, lms[i].y + t.y, lms[i].z + t.z, lms[i].visibility))
  }

  /** Every coordinate multiplied by k; confidences unchanged. */
  function Scale(lms: seq<Landmark>, k: real): (r: seq<Landmark>)
    ensures |r| == |lms|
    ensures forall i :: 0 <= i < |lms| ==>
              r[i] == Landmark(k * lms[i].x, k * lms[i].y, k * lms[i].z, lms[i].visibility)
  {
    seq(|lms|, i requires 0 <= i < |lms| =>
      Landmark(k * lms[i].x, k * lms[i].y, k * lms[i].z, lms[i].visibility))
  }

  /** Moving the whole body in the image does not change the normalized pose. */
  lemma TranslationInvariant(lms: seq<Landmark>, t: Point, sqrt: real -> real)
    requires IsSqrt(sqrt)
    ensures Normalize(Translate(lms, t), sqrt) == Normalize(lms, sqrt)
  {
    var moved := Translate(lms, t);
    if RightShoulderIndex < |lms| {
      assert ShoulderSpread(moved) == ShoulderSpread(lms);
      var c, c' := Center(lms), Center(moved);
      assert c' == Point(c.x + t.x, c.y + t.y, c.z + t.z);
      var w := sqrt(ShoulderSpread(lms));
      if w != 0.0 {
        forall k | 0 <= k < PointCount
          ensures Relative(moved[Tracked[k]], c', w) == Relative(lms[Tracked[k]], c, w)
        {
          var i := Tracked[k];
          assert moved[i].x - c'.x == lms[i].x - c.x;
          assert moved[i].y - c'.y == lms[i].y - c.y;
          assert moved[i].z - c'.z == lms[i].z - c.z;
        }
        assert Relatives(moved, c', w) == Relatives(lms, c, w);
      }
    }
  }

  /** The normalized pose seen from k times closer: same points, k times the width. */
  function Rescaled(p: Option<NormalizedPose>, k: real): Option<NormalizedPose>
    requires 0.0 < k
  {
    if p.Some? && p.value.Scaled? then
      Some(Scaled(p.value.points, Mul(k, p.value.shoulderWidth)))
    else p
  }

  /** Moving toward or away from the camera (a uniform scale k > 0) leaves the
      normalized points unchanged and scales the shoulder width by k. */
  lemma ScaleInvariant(lms: seq<Landmark>, k: real, sqrt: real -> real)
    requires IsSqrt(sqrt)
    requires 0.0 < k
    ensures Normalize(Scale(lms, k), sqrt) == Rescaled(Normalize(lms, sqrt), k)
  {
    var big := Scale(lms, k);
    if RightShoulderIndex < |lms| {
      SpreadScales(lms, k);
      SqrtScales(sqrt, k, ShoulderSpread(lms), ShoulderSpread(big));
      var w := sqrt(ShoulderSpread(lms));
      if w != 0.0 {
        assert 0.0 < w;
        RelativesScale(lms, k, w);
        assert Mul(k, w) == k * w;
      }
    }
  }

  lemma SpreadScales(lms: seq<Landmark>, k: real)
    requires RightShoulderIndex < |lms|
    ensures ShoulderSpread(Scale(lms, k)) == Mul(k * k, ShoulderSpread(lms))
  {
    var big := Scale(lms, k);
    var l, r := lms[LeftShoulderIndex], lms[RightShoulderIndex];
    var l', r' := big[LeftShoulderIndex], big[RightShoulderIndex];
    assert l'.x - r'.x == k * (l.x - r.x);
    assert l'.y - r'.y == k * (l.y - r.y);
    SqOfProduct(k, l.x - r.x, l'.x - r'.x);
    SqOfProduct(k, l.y - r.y, l'.y - r'.y);
    Distribute(k * k, Sq(l.x - r.x), Sq(l.y - r.y), ShoulderSpread(lms));
  }

  lemma RelativesScale(lms: seq<Landmark>, k: real, w: real)
    requires RightShoulderIndex < |lms|
    requires 0.0 < k && w != 0.0
    ensures Relatives(Scale(lms, k), Center(Scale(lms, k)), k * w) == Relatives(lms, Center(lms), w)
  {
    forall j | 0 <= j < PointCount
      ensures Relative(Scale(lms, k)[Tracked[j]], Center(Scale(lms, k)), k * w) == Relative(lms[Tracked[j]], Center(lms), w)
    {
      PointScales(lms, k, w, Tracked[j]);
    }
  }

  lemma PointScales(lms: seq<Landmark>, k: real, w: real, i: nat)
    requires RightShoulderIndex < |lms| && i < |lms|
    requires 0.0 < k && w != 0.0
    ensures Relative(Scale(lms, k)[i], Center(Scale(lms, k)), k * w) == Relative(lms[i], Center(lms), w)
  {
    CenterScales(lms, k);
    RelativeScales(lms[i], Center(lms), k, w, Scale(lms, k)[i], Center(Scale(lms, k)), k * w);
  }

  lemma CenterScales(lms: seq<Landmark>, k: real)
    requires RightShoulderIndex < |lms|
    ensures Center(Scale(lms, k)) == Point(k * Center(lms).x, k * Center(lms).y, k * Center(lms).z)
  {
  }

  lemma RelativeScales(p: Landmark, c: Point, k: real, w: real, q: Landmark, d: Point, kw: real)
    requires k != 0.0 && w != 0.0 && kw == k * w
    requires q.x == k * p.x && q.y == k * p.y && q.z == k * p.z
    requires d.x == k * c.x && d.y == k * c.y && d.z == k * c.z
    ensures kw != 0.0
    ensures Relative(q, d, kw) == Relative(p, c, w)
  {
    DivideBoth(p.x - c.x, k, w, q.x - d.x);
    DivideBoth(p.y - c.y, k, w, q.y - d.y);
    DivideBoth(p.z - c.z, k, w, q.z - d.z);
  }

  lemma DivideBoth(a: real, k: real, w: real, ka: real)
    requires k != 0.0 && w != 0.0
    requires ka == k * a
    ensures ka / (k * w) == a / w
  {
  }
  /** Undoes normalization for one point: scale back by `w`, move back to `c`. */
  function Restore(p: Point, c: Point, w: real): Point
  {
    Point(p.x * w + c.x, p.y * w + c.y, p.z * w + c.z)
  }

  function Position(l: Landmark): Point
  {
    Point(l.x, l.y, l.z)
  }

  /** Normalization loses nothing but the frame of reference: each tracked
      landmark is its normalized point scaled back by the shoulder width and
      moved back to the shoulder midpoint. */
  lemma NormalizeInverse(lms: seq<Landmark>, sqrt: real -> real, ps: seq<Point>, w: real, k: nat)
    requires IsSqrt(sqrt)
    requires Normalize(lms, sqrt) == Some(Scaled(ps, w))
    requires k < PointCount
    ensures Restore(ps[k], Center(lms), w) == Position(lms[Tracked[k]])
  {
    var c, q := Center(lms), lms[Tracked[k]];
    assert ps[k] == Relative(q, c, w);
    RestoreRelative(q, c, w);
  }

  lemma RestoreRelative(q: Landmark, c: Point, w: real)
    requires w != 0.0
    ensures Restore(Relative(q, c, w), c, w) == Position(q)
  {
    var dx, dy, dz := q.x - c.x, q.y - c.y, q.z - c.z;
    MultiplyBack(dx, w);
    MultiplyBack(dy, w);
    MultiplyBack(dz, w);
  }

  lemma MultiplyBack(a: real, w: real)
    requires w != 0.0
    ensures (a / w) * w == a
  {
  }
}
