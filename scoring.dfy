/**
 * The per-frame scoring rule of pose_comparison.py: two poses are compared
 * keypoint by keypoint, a keypoint is wrong when it lies farther than the
 * threshold from its counterpart, and the score is the fraction of keypoints
 * that are not wrong.
 */
module Scoring {
  import opened Wrappers

  /** A normalised image coordinate of one body keypoint. */
  datatype Point = Point(x: real, y: real)

  /** One landmark as the pose estimator reports it. */
  datatype Landmark = Landmark(x: real, y: real, visibility: real)

  /** The score and the indices of the keypoints found wrong. */
  datatype Comparison = Comparison(score: real, wrong: set<int>)

  /** The result when a pose is missing in either frame. */
  const NoData := Comparison(0.0, {})

  /** Threshold used by the live comparison loop (the default argument). */
  const DefaultThreshold: real := 0.1

  /** The coordinates of each landmark, in order (the estimator's x and y). */
  function Keypoints(landmarks: seq<Landmark>): (ps: seq<Point>)
    ensures |ps| == |landmarks|
    ensures forall i :: 0 <= i < |landmarks| ==> ps[i] == Point(landmarks[i].x, landmarks[i].y)
  {
    seq(|landmarks|, i requires 0 <= i < |landmarks| => Point(landmarks[i].x, landmarks[i].y))
  }

  /** Keypoints of a detection that may be absent. */
  function KeypointsOf(detected: Option<seq<Landmark>>): (r: Option<seq<Point>>)
    ensures r.Some? <==> detected.Some?
    ensures r.Some? ==> r.value == Keypoints(detected.value) && |r.value| == |detected.value|
  {
    match detected
    case None => None
    case Some(lms) => Some(Keypoints(lms))
  }

  /** Squared Euclidean distance between two keypoints. */
  function SqDist(p: Point, q: Point): (d: real)
    ensures d >= 0.0
  {
    var dx, dy := p.x - q.x, p.y - q.y;
    assert dx * dx >= 0.0 && dy * dy >= 0.0;
    dx * dx + dy * dy
  }

  /**
   * The distance between p and q is greater than t. A distance is never
   * negative, so every pair exceeds a negative threshold; otherwise squaring
   * both sides keeps the comparison.
   */
  predicate Exceeds(p: Point, q: Point, t: real) {
    t < 0.0 || SqDist(p, q) > t * t
  }

  /** Exceeds is the comparison of the true Euclidean distance d with t. */
  lemma ExceedsIffFartherThan(p: Point, q: Point, t: real, d: real)
    requires d >= 0.0 && d * d == SqDist(p, q)
    ensures Exceeds(p, q, t) <==> d > t
  {
    if t >= 0.0 {
      if d > t {
        assert d * d > t * t by {
          assert d * d - t * t == (d - t) * (d + t);
          PositiveProduct(d - t, d + t);
        }
      } else {
        assert d * d <= t * t by {
          assert t * t - d * d == (t - d) * (t + d);
          assert (t - d) * (t + d) >= 0.0;
        }
      }
    }
  }

  lemma PositiveProduct(x: real, y: real)
    requires x > 0.0 && y > 0.0
    ensures x * y > 0.0
  {
  }

  /** Indices whose keypoints are farther apart than the threshold. */
  function WrongIndices(a: seq<Point>, b: seq<Point>, t: real): set<int>
    requires |a| == |b|
  {
    set i | 0 <= i < |a| && Exceeds(a[i], b[i], t)
  }

  /** Number of keypoints within the threshold (the sum of the boolean mask). */
  function CorrectCount(a: seq<Point>, b: seq<Point>, t: real): (n: nat)
    requires |a| == |b|
    ensures n <= |a|
  {
    if |a| == 0 then 0
    else
      var k := |a| - 1;
      CorrectCount(a[..k], b[..k], t) + (if Exceeds(a[k], b[k], t) then 0 else 1)
  }

  /** Every index is either wrong or counted as correct, never both. */
  lemma {:induction false} WrongAndCorrectPartition(a: seq<Point>, b: seq<Point>, t: real)
    requires |a| == |b|
    ensures |WrongIndices(a, b, t)| + CorrectCount(a, b, t) == |a|
  {
    if |a| > 0 {
      var k := |a| - 1;
      WrongAndCorrectPartition(a[..k], b[..k], t);
      var w := WrongIndices(a[..k], b[..k], t);
      if Exceeds(a[k], b[k], t) {
        assert WrongIndices(a, b, t) == w + {k};
        assert k !in w;
      } else {
        assert WrongIndices(a, b, t) == w;
      }
    }
  }

  /** Both poses, when present, have the same positive number of keypoints. */
  predicate Comparable(pose1: Option<seq<Point>>, pose2: Option<seq<Point>>) {
    pose1.Some? && pose2.Some? ==> |pose1.value| == |pose2.value| > 0
  }

  /** The comparison of a user pose with a reference pose. */
  function CalculateScore(pose1: Option<seq<Point>>, pose2: Option<seq<Point>>, threshold: real): (r: Comparison)
    requires Comparable(pose1, pose2)
    ensures pose1.None? || pose2.None? ==> r == NoData
    ensures pose1.Some? && pose2.Some? ==>
      forall i :: i in r.wrong <==> 0 <= i < |pose1.value| && Exceeds(pose1.value[i], pose2.value[i], threshold)
    ensures pose1.Some? && pose2.Some? ==>
      r.score == (|pose1.value| - |r.wrong|) as real / |pose1.value| as real
    ensures 0.0 <= r.score <= 1.0
  {
    match (pose1, pose2)
    case (Some(a), Some(b)) =>
      var correct, wrong := CorrectCount(a, b, threshold), WrongIndices(a, b, threshold);
      WrongAndCorrectPartition(a, b, threshold);
      FractionOfTotal(correct, |wrong|, |a|);
      Comparison(correct as real / |a| as real, wrong)
    case _ => NoData
  }

  /** The fraction correct/total equals (total - wrong)/total and lies in [0, 1]. */
  lemma FractionOfTotal(correct: nat, wrong: nat, total: nat)
    requires correct + wrong == total && total > 0
    ensures correct as real / total as real == (total - wrong) as real / total as real
    ensures 0.0 <= correct as real / total as real <= 1.0
  {
  }

  /** A pose compared with itself under a non-negative threshold is perfect. */
  lemma IdenticalPosesScorePerfectly(p: seq<Point>, t: real)
    requires |p| > 0 && t >= 0.0
    ensures CalculateScore(Some(p), Some(p), t) == Comparison(1.0, {})
  {
    forall i | 0 <= i < |p| ensures !Exceeds(p[i], p[i], t) {
      assert SqDist(p[i], p[i]) == 0.0;
      assert t * t >= 0.0;
    }
    var r := CalculateScore(Some(p), Some(p), t);
    assert r.wrong == {} && |r.wrong| == 0;
    WholeIsOne(|p| as real);
  }

  lemma WholeIsOne(n: real)
    requires n > 0.0
    ensures n / n == 1.0
  {
  }

  /** A stricter threshold flags every index a looser one flags. */
  lemma StricterThresholdFlagsMore(a: seq<Point>, b: seq<Point>, t1: real, t2: real, i: int)
    requires |a| == |b| && t1 <= t2
    requires 0 <= i < |a| && Exceeds(a[i], b[i], t2)
    ensures Exceeds(a[i], b[i], t1)
  {
    if t1 >= 0.0 {
      assert t1 * t1 <= t2 * t2 by {
        assert t2 * t2 - t1 * t1 == (t2 - t1) * (t2 + t1);
        assert (t2 - t1) * (t2 + t1) >= 0.0;
      }
    }
  }

  /** Monotonicity: lowering the threshold flags a superset and never raises the score. */
  lemma ThresholdMonotone(a: seq<Point>, b: seq<Point>, t1: real, t2: real)
    requires |a| == |b| > 0 && t1 <= t2
    ensures CalculateScore(Some(a), Some(b), t2).wrong <= CalculateScore(Some(a), Some(b), t1).wrong
    ensures CalculateScore(Some(a), Some(b), t1).score <= CalculateScore(Some(a), Some(b), t2).score
  {
    var w1, w2 := WrongIndices(a, b, t1), WrongIndices(a, b, t2);
    forall i | i in w2 ensures i in w1 {
      StricterThresholdFlagsMore(a, b, t1, t2, i);
    }
    SubsetCardinality(w2, w1);
    var n := |a| as real;
    QuotientMonotone(n - |w1| as real, n - |w2| as real, n);
  }

  lemma QuotientMonotone(x: real, y: real, n: real)
    requires x <= y && n > 0.0
    ensures x / n <= y / n
  {
  }

  lemma SubsetCardinality(s: set<int>, t: set<int>)
    requires s <= t
    ensures |s| <= |t|
  {
    assert t == s + (t - s);
  }
}
