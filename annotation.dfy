/**
 * What pose_comparison.py draws on a frame: which limbs and keypoints of a
 * detected pose are drawn, which keypoints are highlighted as wrong, and the
 * score and count shown beside the pose. Pixels are not modelled: a drawing is
 * the sequence of marks it makes, in drawing order.
 */
module Annotation {
  import opened Wrappers
  import opened Scoring

  /** An OpenCV colour, in blue-green-red order. */
  datatype Bgr = Bgr(b: int, g: int, r: int)

  const Green := Bgr(0, 255, 0)
  const Orange := Bgr(0, 165, 255)
  const Red := Bgr(0, 0, 255)

  /** Number of keypoints the display assumes (the estimator's body model). */
  const TotalKeypoints := 33

  /** A line between two landmarks, or a circle around one landmark. */
  datatype Mark =
    | Line(from: int, to: int, colour: Bgr)
    | Circle(at: int, radius: int, colour: Bgr, filled: bool)

  /** A landmark is drawn only when its visibility is above one half. */
  predicate Visible(lm: Landmark) {
    lm.visibility > 0.5
  }

  /** Every connection joins two existing landmarks. */
  predicate ValidTopology(connections: seq<(int, int)>, n: nat) {
    forall k :: 0 <= k < |connections| ==>
      0 <= connections[k].0 < n && 0 <= connections[k].1 < n
  }

  /** The keypoint is listed in the set of wrong keypoints passed in. */
  predicate Flagged(wrong: Option<set<int>>, idx: int) {
    wrong.Some? && idx in wrong.value
  }

  /** The marks for one connection. */
  function LimbMark(lms: seq<Landmark>, c: (int, int), colour: Bgr): seq<Mark>
    requires 0 <= c.0 < |lms| && 0 <= c.1 < |lms|
  {
    if Visible(lms[c.0]) && Visible(lms[c.1]) then [Line(c.0, c.1, colour)] else []
  }

  /** The marks for one keypoint: a red ring and red dot when flagged, a dot in the pose colour otherwise. */
  function DotMarks(idx: int, lm: Landmark, colour: Bgr, wrong: Option<set<int>>): seq<Mark> {
    if !Visible(lm) then []
    else if Flagged(wrong, idx) then [Circle(idx, 10, Red, false), Circle(idx, 4, Red, true)]
    else [Circle(idx, 4, colour, true)]
  }

  /** The limb marks of the first k connections, in order. */
  function LimbMarks(lms: seq<Landmark>, connections: seq<(int, int)>, colour: Bgr, k: nat): seq<Mark>
    requires k <= |connections| && ValidTopology(connections, |lms|)
  {
    if k == 0 then [] else LimbMarks(lms, connections, colour, k - 1) + LimbMark(lms, connections[k - 1], colour)
  }

  /** The keypoint marks of the first k landmarks, in order. */
  function PointMarks(lms: seq<Landmark>, colour: Bgr, wrong: Option<set<int>>, k: nat): seq<Mark>
    requires k <= |lms|
  {
    if k == 0 then [] else PointMarks(lms, colour, wrong, k - 1) + DotMarks(k - 1, lms[k - 1], colour, wrong)
  }

  /** Everything drawn for a detection: all limbs first, then all keypoints. */
  function PoseMarks(detected: Option<seq<Landmark>>, connections: seq<(int, int)>, colour: Bgr, wrong: Option<set<int>>): seq<Mark>
    requires detected.Some? ==> ValidTopology(connections, |detected.value|)
  {
    match detected
    case None => []
    case Some(lms) => LimbMarks(lms, connections, colour, |connections|) + PointMarks(lms, colour, wrong, |lms|)
  }

  /** Draws a detected pose: limbs between visible landmarks, then visible keypoints. */
  method DrawPose(detected: Option<seq<Landmark>>, connections: seq<(int, int)>, colour: Bgr, wrong: Option<set<int>>)
    returns (marks: seq<Mark>)
    requires detected.Some? ==> ValidTopology(connections, |detected.value|)
    ensures marks == PoseMarks(detected, connections, colour, wrong)
  {
    marks := [];
    if detected.Some? {
      var lms := detected.value;
      for k := 0 to |connections|
        invariant marks == LimbMarks(lms, connections, colour, k)
      {
        var (s, e) := connections[k];
        assert LimbMarks(lms, connections, colour, k + 1) == marks + LimbMark(lms, (s, e), colour);
        if lms[s].visibility > 0.5 && lms[e].visibility > 0.5 {
          marks := marks + [Line(s, e, colour)];
        }
      }
      ghost var limbs := marks;
      for idx := 0 to |lms|
        invariant marks == limbs + PointMarks(lms, colour, wrong, idx)
      {
        var lm := lms[idx];
        ghost var dots := DotMarks(idx, lm, colour, wrong);
        assert limbs + PointMarks(lms, colour, wrong, idx + 1) == marks + dots;
        if lm.visibility > 0.5 {
          if wrong.Some? && idx in wrong.value {
            marks := marks + [Circle(idx, 10, Red, false), Circle(idx, 4, Red, true)];
          } else {
            marks := marks + [Circle(idx, 4, colour, true)];
          }
        }
      }
    }
  }

  lemma {:induction false} LimbMarksMembers(lms: seq<Landmark>, connections: seq<(int, int)>, colour: Bgr, k: nat, m: Mark)
    requires k <= |connections| && ValidTopology(connections, |lms|)
    ensures m in LimbMarks(lms, connections, colour, k) <==>
      exists j :: 0 <= j < k && m in LimbMark(lms, connections[j], colour)
  {
    if k > 0 {
      LimbMarksMembers(lms, connections, colour, k - 1, m);
    }
  }

  lemma {:induction false} PointMarksMembers(lms: seq<Landmark>, colour: Bgr, wrong: Option<set<int>>, k: nat, m: Mark)
    requires k <= |lms|
    ensures m in PointMarks(lms, colour, wrong, k) <==>
      exists j :: 0 <= j < k && m in DotMarks(j, lms[j], colour, wrong)
  {
    if k > 0 {
      PointMarksMembers(lms, colour, wrong, k - 1, m);
    }
  }

  /** A limb is drawn iff it is a connection whose two endpoints are both visible. */
  lemma LimbDrawnIffBothVisible(lms: seq<Landmark>, connections: seq<(int, int)>, colour: Bgr, wrong: Option<set<int>>, s: int, e: int, c: Bgr)
    requires ValidTopology(connections, |lms|)
    ensures Line(s, e, c) in PoseMarks(Some(lms), connections, colour, wrong) <==>
      c == colour && (s, e) in connections && Visible(lms[s]) && Visible(lms[e])
  {
    var m := Line(s, e, c);
    LimbMarksMembers(lms, connections, colour, |connections|, m);
    PointMarksMembers(lms, colour, wrong, |lms|, m);
    if (s, e) in connections {
      var j :| 0 <= j < |connections| && connections[j] == (s, e);
      assert m in LimbMark(lms, connections[j], colour) <==> c == colour && Visible(lms[s]) && Visible(lms[e]);
    }
  }

  /** A circle at a landmark is drawn iff it is one of that landmark's own dot marks. */
  lemma CircleMembership(lms: seq<Landmark>, connections: seq<(int, int)>, colour: Bgr, wrong: Option<set<int>>, m: Mark)
    requires ValidTopology(connections, |lms|) && m.Circle? && 0 <= m.at < |lms|
    ensures m in PoseMarks(Some(lms), connections, colour, wrong) <==> m in DotMarks(m.at, lms[m.at], colour, wrong)
  {
    LimbMarksMembers(lms, connections, colour, |connections|, m);
    PointMarksMembers(lms, colour, wrong, |lms|, m);
  }

  /**
   * A keypoint gets a filled dot iff it is visible; the dot is red iff the
   * keypoint is flagged (or the pose colour is red), and only flagged visible
   * keypoints get the red ring.
   */
  lemma PointClassification(lms: seq<Landmark>, connections: seq<(int, int)>, colour: Bgr, wrong: Option<set<int>>, idx: int)
    requires ValidTopology(connections, |lms|) && 0 <= idx < |lms|
    ensures (exists c :: Circle(idx, 4, c, true) in PoseMarks(Some(lms), connections, colour, wrong)) <==> Visible(lms[idx])
    ensures Circle(idx, 10, Red, false) in PoseMarks(Some(lms), connections, colour, wrong) <==>
      Visible(lms[idx]) && Flagged(wrong, idx)
    ensures forall c :: Circle(idx, 4, c, true) in PoseMarks(Some(lms), connections, colour, wrong) ==>
      c == if Flagged(wrong, idx) then Red else colour
  {
    var dot := if Flagged(wrong, idx) then Red else colour;
    CircleMembership(lms, connections, colour, wrong, Circle(idx, 10, Red, false));
    CircleMembership(lms, connections, colour, wrong, Circle(idx, 4, dot, true));
    forall c | Circle(idx, 4, c, true) in PoseMarks(Some(lms), connections, colour, wrong)
      ensures c == dot && Visible(lms[idx])
    {
      CircleMembership(lms, connections, colour, wrong, Circle(idx, 4, c, true));
    }
  }

  /** Circles appear only at landmarks that exist, are visible, and a ring only where flagged. */
  lemma NoOtherCircles(lms: seq<Landmark>, connections: seq<(int, int)>, colour: Bgr, wrong: Option<set<int>>, m: Mark)
    requires ValidTopology(connections, |lms|)
    requires m in PoseMarks(Some(lms), connections, colour, wrong) && m.Circle?
    ensures 0 <= m.at < |lms| && Visible(lms[m.at])
    ensures m.radius == 10 ==> Flagged(wrong, m.at) && m.colour == Red
  {
    LimbMarksMembers(lms, connections, colour, |connections|, m);
    PointMarksMembers(lms, colour, wrong, |lms|, m);
  }

  /** Python's int() of a real: truncation toward zero. */
  function Trunc(r: real): (n: int)
    ensures r >= 0.0 ==> n as real <= r < n as real + 1.0
    ensures r < 0.0 ==> n as real - 1.0 < r <= n as real
  {
    if r >= 0.0 then r.Floor else -((-r).Floor)
  }

  /** The whole percentage shown in "Score: p%". */
  function ScorePercent(score: real): (p: int)
    requires 0.0 <= score <= 1.0
    ensures 0 <= p <= 100
    ensures p as real <= score * 100.0 < p as real + 1.0
  {
    Trunc(score * 100.0)
  }

  /** The colour of the score text, in three bands. */
  function ScoreColour(score: real): (c: Bgr)
    ensures c == Green <==> score > 0.7
    ensures c == Orange <==> 0.4 < score <= 0.7
    ensures c == Red <==> score <= 0.4
  {
    if score > 0.7 then Green else if score > 0.4 then Orange else Red
  }

  /** The k in "Correct: k/33". */
  function DisplayedCorrect(wrong: set<int>): int {
    TotalKeypoints - |wrong|
  }

  /**
   * For two detected 33-keypoint poses the displayed count is the number of
   * keypoints within the threshold, and the score is that count over 33.
   */
  lemma DisplayedCountMatchesScore(a: seq<Point>, b: seq<Point>, t: real)
    requires |a| == |b| == TotalKeypoints
    ensures var r := CalculateScore(Some(a), Some(b), t);
      DisplayedCorrect(r.wrong) == CorrectCount(a, b, t) &&
      0 <= DisplayedCorrect(r.wrong) <= TotalKeypoints &&
      r.score == DisplayedCorrect(r.wrong) as real / TotalKeypoints as real
  {
    WrongAndCorrectPartition(a, b, t);
  }

  /**
   * When either pose is missing the display reads "Correct: 33/33" beside a
   * score of 0% in red: the no-data result carries no wrong keypoints.
   */
  lemma MissingPoseShowsFullCount(pose1: Option<seq<Point>>, pose2: Option<seq<Point>>, t: real)
    requires pose1.None? || pose2.None?
    ensures var r := CalculateScore(pose1, pose2, t);
      DisplayedCorrect(r.wrong) == TotalKeypoints && ScorePercent(r.score) == 0 && ScoreColour(r.score) == Red
  {
  }

  /**
   * For two detected 33-keypoint poses the score colour depends only on the
   * number k of correct keypoints: green iff k >= 24, orange iff 14 <= k <= 23,
   * red iff k <= 13.
   */
  lemma ColourBandByCorrectCount(a: seq<Point>, b: seq<Point>, t: real)
    requires |a| == |b| == TotalKeypoints
    ensures var r := CalculateScore(Some(a), Some(b), t);
      var k := CorrectCount(a, b, t);
      (ScoreColour(r.score) == Green <==> k >= 24) &&
      (ScoreColour(r.score) == Orange <==> 14 <= k <= 23) &&
      (ScoreColour(r.score) == Red <==> k <= 13)
  {
    DisplayedCountMatchesScore(a, b, t);
    var r := CalculateScore(Some(a), Some(b), t);
    var k := CorrectCount(a, b, t);
    assert r.score == k as real / 33.0;
    assert r.score > 0.7 <==> k >= 24;
    assert r.score > 0.4 <==> k >= 14;
  }
}
