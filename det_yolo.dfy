/** `detect_yolo` of `app/ballfinder/det_yolo.py`: the conversion of the
    boxes found by a YOLO model into candidate circles. The model itself is
    an oracle: its output (or the exception it raised) is an input. */
module DetYolo {
  import opened Common
  import opened DetUtil

  /** A bounding box in `xyxy` form: corners (xa, ya) and (xb, yb). */
  datatype Box = Box(xa: real, ya: real, xb: real, yb: real)

  /** The result sets returned by the model, each holding its boxes. */
  type YoloOutput = seq<seq<Box>>

  /** The candidate of one box: the box midpoint and the mean of its
      half-width and half-height. */
  function BoxCandidate(b: Box): Candidate {
    Candidate(0.5 * (b.xa + b.xb), 0.5 * (b.ya + b.yb), 0.25 * ((b.xb - b.xa) + (b.yb - b.ya)))
  }

  /** The circle of a well-formed box: its centre lies inside the box and
      its radius lies between the half of the shorter and the half of the
      longer side; a box with positive width and height gives a positive
      radius. */
  lemma BoxCandidateInside(b: Box)
    requires b.xa <= b.xb && b.ya <= b.yb
    ensures var c := BoxCandidate(b);
            var w, h := b.xb - b.xa, b.yb - b.ya;
            && b.xa <= c.x <= b.xb && b.ya <= c.y <= b.yb
            && c.x - b.xa == b.xb - c.x && c.y - b.ya == b.yb - c.y
            && (if w <= h then w / 2.0 <= c.r <= h / 2.0 else h / 2.0 <= c.r <= w / 2.0)
            && (w > 0.0 && h > 0.0 ==> c.r > 0.0)
  {
  }

  /** `detect_yolo` as a function of the model's output. */
  function YoloCandidates(res: Result<YoloOutput>): Result<seq<Candidate>> {
    var sets :- res;
    if |sets| < 1 then Success([])
    else Success(seq(|sets[0]|, i requires 0 <= i < |sets[0]| => BoxCandidate(sets[0][i])))
  }

  /** `detect_yolo` after the model call: no result set gives no
      candidates, otherwise one candidate per box of the first result set,
      in box order. */
  method DetectYolo(res: Result<YoloOutput>) returns (r: Result<seq<Candidate>>)
    ensures r == YoloCandidates(res)
    ensures res.Failure? ==> r == Failure(res.error)
    ensures res.Success? && |res.value| < 1 ==> r == Success([])
    ensures res.Success? && |res.value| >= 1 ==>
              && r.Success? && |r.value| == |res.value[0]|
              && forall i :: 0 <= i < |r.value| ==> r.value[i] == BoxCandidate(res.value[0][i])
  {
    var sets :- res;
    if |sets| < 1 {
      return Success([]);
    }
    var cands := [];
    var boxes := sets[0];
    for i := 0 to |boxes|
      invariant |cands| == i
      invariant forall k :: 0 <= k < i ==> cands[k] == BoxCandidate(boxes[k])
    {
      var b := boxes[i];
      var x, y := 0.5 * (b.xa + b.xb), 0.5 * (b.ya + b.yb);
      var rad := 0.25 * ((b.xb - b.xa) + (b.yb - b.ya));
      cands := cands + [Candidate(x, y, rad)];
    }
    assert cands == seq(|boxes|, i requires 0 <= i < |boxes| => BoxCandidate(boxes[i]));
    return Success(cands);
  }
}
