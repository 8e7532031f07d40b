/** `BallFinder` of `app/ballfinder/ballfinder.py`: the detector choice made
    at construction, and the per-image pipeline of `find_balls`. The
    pipeline runs stage by stage over all candidates (list comprehensions),
    keeps the candidates whose contour is valid, and assembles one detection
    record per kept candidate. Any exception in any stage ends the image:
    the error channel carries `str(e)`, the empty string on success. */
module BallFinder {
  import opened Common
  import opened Vectors
  import opened OcvCam
  import opened DetUtil
  import opened DetYolo

  /** The parts of the configuration that the finder reads: the detector
      name, the `FindContours` section and `ShowTargets.points`. */
  datatype FinderConfig = FinderConfig(detector: string, contours: ContourSettings, targetPoints: int)

  /** A constructed ball finder. Its YOLO model, if any, is an oracle. */
  datatype Finder = Finder(cfg: FinderConfig)

  /** `BallFinder.__init__`: only the YOLO and the Hough detectors exist;
      any other name fails the bare assertion. */
  function NewFinder(cfg: FinderConfig): (r: Result<Finder>)
    ensures r.Success? <==> cfg.detector == "YOLO" || cfg.detector == "HOUGH"
    ensures r.Success? ==> r.value.cfg == cfg
    ensures r.Failure? ==> r.error == AssertionFailed && Message(r.error) == ""
  {
    if cfg.detector == "YOLO" then Success(Finder(cfg))
    else if cfg.detector == "HOUGH" then Success(Finder(cfg))
    else Failure(AssertionFailed)
  }

  /** What the foreign code hands to `find_balls` for one image: the edge
      indicator of `canny` (or its exception), the output of the YOLO model,
      the candidates of `detect_hough`, the numerics, and the two
      least-squares solvers. */
  datatype Oracles = Oracles(
    edges: Result<Indicator>,
    yolo: Result<YoloOutput>,
    hough: Result<seq<Candidate>>,
    m: Math,
    lm: Solver,
    ls: Refiner)

  /** `(X, Y, Z, radius)` of a detection. */
  datatype Target = Target(x: real, y: real, z: real, radius: real)

  /** One detection record: `target`, `2d_center`, `2d_contour`,
      `candidate`. */
  datatype Detection = Detection(target: Target, center: V2, contour: seq<V2>, candidate: Candidate)

  /** Python reports the unassigned `cands_0` when the detector is neither
      of the two known ones. */
  const UnboundCandidates := "cannot access local variable 'cands_0' where it is not associated with a value"

  /** The detector dispatch: `cands_0`. */
  function Candidates(cfg: FinderConfig, o: Oracles): Result<seq<Candidate>> {
    if cfg.detector == "YOLO" then YoloCandidates(o.yolo)
    else if cfg.detector == "HOUGH" then o.hough
    else Failure(Raised(UnboundCandidates))
  }

  // The per-candidate work of each comprehension.

  function ContourFn(f: Indicator, st: ContourSettings, m: Math): Candidate -> Result<seq<V2>> {
    c => ContourOf(c, f, st, m)
  }

  function ConeFn(cam: Intrinsics, m: Math, lm: Solver): ((Candidate, seq<V2>)) -> Result<seq<Ray>> {
    (p: (Candidate, seq<V2>)) => ConeOf(p.0, p.1, cam, m, lm)
  }

  function FitFn(radius: real, m: Math): seq<Ray> -> Result<Estimate> {
    cone => FitBall(cone, radius, m)
  }

  function RefineFn(radius: real, m: Math, ls: Refiner): ((Estimate, seq<Ray>)) -> Result<V3> {
    (p: (Estimate, seq<Ray>)) => RefineBall(p.0, p.1, radius, m, ls)
  }

  function CenterFn(radius: real, cam: Intrinsics, m: Math): ((V3, Candidate)) -> Result<V2> {
    (p: (V3, Candidate)) => ProjectCenter(p.0, p.1, radius, cam, m)
  }

  function ReprojectFn(radius: real, cam: Intrinsics, points: int, m: Math): ((V3, seq<V2>)) -> Result<seq<V2>> {
    (p: (V3, seq<V2>)) => ContourProjection(p.0, radius, cam, points, m)
  }

  /** Whether the filter loop keeps a pair: its contour is valid. */
  predicate HasValidContour(p: (Candidate, seq<V2>)) {
    ValidContour(p.1)
  }

  /** The pairs of the filter loop whose contour is valid, in order. */
  function Kept(ps: seq<(Candidate, seq<V2>)>): seq<(Candidate, seq<V2>)> {
    Filter(HasValidContour, ps)
  }

  function Firsts<A, B>(ps: seq<(A, B)>): (r: seq<A>)
    ensures |r| == |ps|
  {
    seq(|ps|, i requires 0 <= i < |ps| => ps[i].0)
  }

  function Seconds<A, B>(ps: seq<(A, B)>): (r: seq<B>)
    ensures |r| == |ps|
  {
    seq(|ps|, i requires 0 <= i < |ps| => ps[i].1)
  }

  /** Lines 69 to 74: the edge indicator, the candidates and their
      contours. */
  function Front(fd: Finder, o: Oracles): Result<(seq<Candidate>, seq<seq<V2>>)> {
    var f :- o.edges;
    var cands0 :- Candidates(fd.cfg, o);
    var conts0 :- MapAll(ContourFn(f, fd.cfg.contours, o.m), cands0);
    Success((cands0, conts0))
  }

  /** The first three comprehensions of `find_balls`: the cones, the
      first estimates and the refined balls. */
  function Head(cands1: seq<Candidate>, conts1: seq<seq<V2>>, radius: real, cam: Intrinsics, o: Oracles)
    : Result<seq<V3>>
  {
    var cones :- MapAll(ConeFn(cam, o.m, o.lm), Zip(cands1, conts1));
    var balls1 :- MapAll(FitFn(radius, o.m), cones);
    MapAll(RefineFn(radius, o.m, o.ls), Zip(balls1, cones))
  }

  /** The comprehensions after the filter: cones, first estimates, refined
      balls, projected centres and reprojected contours. */
  function Back(cands1: seq<Candidate>, conts1: seq<seq<V2>>, radius: real, cam: Intrinsics,
                points: int, o: Oracles): Result<(seq<V3>, seq<V2>, seq<seq<V2>>)>
  {
    var balls2 :- Head(cands1, conts1, radius, cam, o);
    var ctrps :- MapAll(CenterFn(radius, cam, o.m), Zip(balls2, cands1));
    var conts2 :- MapAll(ReprojectFn(radius, cam, points, o.m), Zip(balls2, conts1));
    Success((balls2, ctrps, conts2))
  }

  function MakeDetection(cand: Candidate, ball: V3, ctrp: V2, cont: seq<V2>, radius: real): Detection {
    Detection(Target(ball.x, ball.y, ball.z, radius), ctrp, cont, cand)
  }

  function Shortest(a: nat, b: nat, c: nat, d: nat): (n: nat)
    ensures n <= a && n <= b && n <= c && n <= d
    ensures n == a || n == b || n == c || n == d
  {
    var ab := if a <= b then a else b;
    var cd := if c <= d then c else d;
    if ab <= cd then ab else cd
  }

  /** The records of the final loop over `zip(cands_1, balls_2, ctrps_2,
      conts_2)`. */
  function Records(cands1: seq<Candidate>, balls2: seq<V3>, ctrps: seq<V2>, conts2: seq<seq<V2>>,
                   radius: real): seq<Detection>
  {
    var n := Shortest(|cands1|, |balls2|, |ctrps|, |conts2|);
    seq(n, i requires 0 <= i < n => MakeDetection(cands1[i], balls2[i], ctrps[i], conts2[i], radius))
  }

  /** The candidates and contours that pass the filter. */
  function Survivors(front: (seq<Candidate>, seq<seq<V2>>)): seq<(Candidate, seq<V2>)> {
    Kept(Zip(front.0, front.1))
  }

  /** `find_balls` as a function: the detections, or the first exception. */
  function Detections(fd: Finder, o: Oracles, radius: real, cam: Intrinsics): Result<seq<Detection>> {
    var front :- Front(fd, o);
    var kept := Survivors(front);
    var back :- Back(Firsts(kept), Seconds(kept), radius, cam, fd.cfg.targetPoints, o);
    Success(Records(Firsts(kept), back.0, back.1, back.2, radius))
  }

  /** The pair `(res, err)` returned for a pipeline outcome: on an exception
      no record has been appended yet, and `err` is `str(e)`. */
  function Outcome(r: Result<seq<Detection>>): (seq<Detection>, string) {
    match r
    case Success(ds) => (ds, "")
    case Failure(e) => ([], Message(e))
  }

  /** The filter loop of lines 75 to 80. */
  method FilterValid(cands0: seq<Candidate>, conts0: seq<seq<V2>>)
    returns (cands1: seq<Candidate>, conts1: seq<seq<V2>>)
    ensures cands1 == Firsts(Survivors((cands0, conts0)))
    ensures conts1 == Seconds(Survivors((cands0, conts0)))
  {
    ghost var ps := Zip(cands0, conts0);
    var n := if |cands0| <= |conts0| then |cands0| else |conts0|;
    cands1, conts1 := [], [];
    for i := 0 to n
      invariant |cands1| == |conts1| == |Kept(ps[..i])|
      invariant forall j :: 0 <= j < |cands1| ==> (cands1[j], conts1[j]) == Kept(ps[..i])[j]
    {
      assert ps[..i + 1][..i] == ps[..i];
      var cand, cont := cands0[i], conts0[i];
      assert ps[i] == (cand, cont);
      if !ValidContour(cont) {
        continue;
      }
      cands1 := cands1 + [cand];
      conts1 := conts1 + [cont];
    }
    assert ps[..|ps|] == ps;
  }

  /** The record loop of lines 98 to 109. */
  method AssembleRecords(cands1: seq<Candidate>, balls2: seq<V3>, ctrps: seq<V2>, conts2: seq<seq<V2>>,
                         radius: real)
    returns (res: seq<Detection>)
    ensures res == Records(cands1, balls2, ctrps, conts2, radius)
  {
    var n := Shortest(|cands1|, |balls2|, |ctrps|, |conts2|);
    res := [];
    for i := 0 to n
      invariant |res| == i
      invariant forall j :: 0 <= j < i ==> res[j] == MakeDetection(cands1[j], balls2[j], ctrps[j], conts2[j], radius)
    {
      var cand, ball, ctrp, cont := cands1[i], balls2[i], ctrps[i], conts2[i];
      var contour := seq(|cont|, k requires 0 <= k < |cont| => cont[k]);
      assert contour == cont;
      res := res + [Detection(Target(ball.x, ball.y, ball.z, radius), ctrp, contour, cand)];
    }
  }

  /** `find_balls`: the detections and the error text of one image. */
  method FindBalls(fd: Finder, o: Oracles, radius: real, cam: Intrinsics)
    returns (res: seq<Detection>, err: string)
    ensures (res, err) == Outcome(Detections(fd, o, radius, cam))
    ensures Detections(fd, o, radius, cam).Failure? ==>
              res == [] && err == Message(Detections(fd, o, radius, cam).error)
  {
    res := [];
    var front := Front(fd, o);
    if front.Failure? {
      return res, Message(front.error);
    }
    var cands0, conts0 := front.value.0, front.value.1;
    var cands1, conts1 := FilterValid(cands0, conts0);
    var back := Back(cands1, conts1, radius, cam, fd.cfg.targetPoints, o);
    if back.Failure? {
      return res, Message(back.error);
    }
    res := AssembleRecords(cands1, back.value.0, back.value.1, back.value.2, radius);
    return res, "";
  }

  // ---------------------------------------------------------------------
  // Properties of the pipeline

  /** The work done for one candidate and its contour, all stages in a row:
      the reference against which the stage-by-stage comprehensions are
      checked. */
  function Chain(cand: Candidate, cont: seq<V2>, radius: real, cam: Intrinsics, points: int, o: Oracles)
    : Result<Detection>
  {
    var ball2 :- Refined(cand, cont, radius, cam, o);
    Tail(cand, ball2, radius, cam, points, o.m)
  }

  /** The refined ball of one candidate: its cone, first estimate and
      refinement. */
  function Refined(cand: Candidate, cont: seq<V2>, radius: real, cam: Intrinsics, o: Oracles): Result<V3> {
    var cone :- ConeOf(cand, cont, cam, o.m, o.lm);
    var ball1 :- FitBall(cone, radius, o.m);
    RefineBall(ball1, cone, radius, o.m, o.ls)
  }

  /** The three stages of `Refined`, one at a time. */
  lemma RefinedStages(cand: Candidate, cont: seq<V2>, radius: real, cam: Intrinsics, o: Oracles)
    ensures ConeOf(cand, cont, cam, o.m, o.lm).Failure? ==>
              Refined(cand, cont, radius, cam, o) == Failure(ConeOf(cand, cont, cam, o.m, o.lm).error)
    ensures ConeOf(cand, cont, cam, o.m, o.lm).Success? ==>
              var c := ConeOf(cand, cont, cam, o.m, o.lm).value;
              && (FitBall(c, radius, o.m).Failure? ==>
                    Refined(cand, cont, radius, cam, o) == Failure(FitBall(c, radius, o.m).error))
              && (FitBall(c, radius, o.m).Success? ==>
                    Refined(cand, cont, radius, cam, o) == RefineBall(FitBall(c, radius, o.m).value, c, radius, o.m, o.ls))
  {
  }

  /** `__init__` accepts a finder exactly when the dispatch of `find_balls`
      has a branch for its detector: an accepted finder never reaches the
      unassigned `cands_0`. */
  lemma CandidatesOfAcceptedFinder(cfg: FinderConfig, o: Oracles)
    ensures NewFinder(cfg).Success? ==>
              Candidates(cfg, o) == if cfg.detector == "YOLO" then YoloCandidates(o.yolo) else o.hough
    ensures NewFinder(cfg).Failure? ==> Candidates(cfg, o) == Failure(Raised(UnboundCandidates))
  {
  }

  /** The filter keeps, in order, exactly the pairs whose contour is valid,
      each candidate still with its own contour: `pos` lists their
      positions, strictly increasing. */
  lemma KeptSpec(ps: seq<(Candidate, seq<V2>)>)
    ensures var kept, pos := Kept(ps), FilterPositions(HasValidContour, ps);
            && |kept| == |pos|
            && (forall j :: 0 <= j < |pos| ==> 0 <= pos[j] < |ps| && kept[j] == ps[pos[j]])
            && (forall j, k :: 0 <= j < k < |pos| ==> pos[j] < pos[k])
            && (forall i :: 0 <= i < |ps| ==> (ValidContour(ps[i].1) <==> i in pos))
            && (forall j :: 0 <= j < |kept| ==> ValidContour(kept[j].1))
  {
    FilterSpec(HasValidContour, ps);
    FilterAccepted(HasValidContour, ps);
  }

  /** The comprehensions after the filter, run stage by stage over all
      candidates, succeed exactly when the chain of every candidate does;
      record i is then that candidate's chain, and otherwise the exception
      is one that a candidate's chain raises. */
  lemma {:induction false} BackPerCandidate(cands1: seq<Candidate>, conts1: seq<seq<V2>>, radius: real,
                                            cam: Intrinsics, points: int, o: Oracles)
    requires |cands1| == |conts1|
    ensures Back(cands1, conts1, radius, cam, points, o).Success? <==>
              forall i :: 0 <= i < |cands1| ==> Chain(cands1[i], conts1[i], radius, cam, points, o).Success?
    ensures Back(cands1, conts1, radius, cam, points, o).Success? ==>
              var b := Back(cands1, conts1, radius, cam, points, o).value;
              var ds := Records(cands1, b.0, b.1, b.2, radius);
              |ds| == |cands1| &&
              forall i :: 0 <= i < |cands1| ==> ds[i] == Chain(cands1[i], conts1[i], radius, cam, points, o).value
    ensures Back(cands1, conts1, radius, cam, points, o).Failure? ==>
              exists i :: 0 <= i < |cands1| &&
                Chain(cands1[i], conts1[i], radius, cam, points, o)
                  == Failure(Back(cands1, conts1, radius, cam, points, o).error)
  {
    var n := |cands1|;
    HeadSpec(cands1, conts1, radius, cam, o);
    var head := Head(cands1, conts1, radius, cam, o);
    if head.Failure? {
      var i :| 0 <= i < n && Refined(cands1[i], conts1[i], radius, cam, o) == Failure(head.error);
      assert Chain(cands1[i], conts1[i], radius, cam, points, o) == Failure(head.error);
      return;
    }
    var bs2 := head.value;
    BackTail(cands1, conts1, bs2, radius, cam, points, o);
    forall i | 0 <= i < n
      ensures Chain(cands1[i], conts1[i], radius, cam, points, o) == Tail(cands1[i], bs2[i], radius, cam, points, o.m)
    {
      assert Refined(cands1[i], conts1[i], radius, cam, o) == Success(bs2[i]);
    }
  }

  /** The first three comprehensions succeed exactly when every candidate's
      refinement does; ball i is then candidate i's, and a failure is that
      of some candidate. */
  lemma {:induction false} HeadSpec(cands1: seq<Candidate>, conts1: seq<seq<V2>>, radius: real,
                                    cam: Intrinsics, o: Oracles)
    requires |cands1| == |conts1|
    ensures Head(cands1, conts1, radius, cam, o).Success? <==>
              forall i :: 0 <= i < |cands1| ==> Refined(cands1[i], conts1[i], radius, cam, o).Success?
    ensures Head(cands1, conts1, radius, cam, o).Success? ==>
              var bs := Head(cands1, conts1, radius, cam, o).value;
              |bs| == |cands1| &&
              forall i :: 0 <= i < |cands1| ==> Refined(cands1[i], conts1[i], radius, cam, o) == Success(bs[i])
    ensures Head(cands1, conts1, radius, cam, o).Failure? ==>
              exists i :: 0 <= i < |cands1| &&
                Refined(cands1[i], conts1[i], radius, cam, o) == Failure(Head(cands1, conts1, radius, cam, o).error)
  {
    var n := |cands1|;
    var m := o.m;
    var zs := Zip(cands1, conts1);
    assert forall i :: 0 <= i < n ==> zs[i] == (cands1[i], conts1[i]);
    var cones := MapAll(ConeFn(cam, m, o.lm), zs);
    MapAllSpec(ConeFn(cam, m, o.lm), zs);
    if cones.Failure? {
      var i :| 0 <= i < n && ConeFn(cam, m, o.lm)(zs[i]) == Failure(cones.error);
      RefinedStages(cands1[i], conts1[i], radius, cam, o);
      return;
    }
    var cs := cones.value;
    var balls1 := MapAll(FitFn(radius, m), cs);
    MapAllSpec(FitFn(radius, m), cs);
    if balls1.Failure? {
      var i :| 0 <= i < n && FitFn(radius, m)(cs[i]) == Failure(balls1.error);
      assert ConeFn(cam, m, o.lm)(zs[i]) == Success(cs[i]);
      RefinedStages(cands1[i], conts1[i], radius, cam, o);
      return;
    }
    var bs1 := balls1.value;
    var zb := Zip(bs1, cs);
    assert forall i :: 0 <= i < n ==> zb[i] == (bs1[i], cs[i]);
    MapAllSpec(RefineFn(radius, m, o.ls), zb);
    forall i | 0 <= i < n
      ensures Refined(cands1[i], conts1[i], radius, cam, o) == RefineFn(radius, m, o.ls)(zb[i])
    {
      assert ConeFn(cam, m, o.lm)(zs[i]) == Success(cs[i]);
      assert FitFn(radius, m)(cs[i]) == Success(bs1[i]);
      RefinedStages(cands1[i], conts1[i], radius, cam, o);
    }
  }

  /** The last two comprehensions and the record loop, for refined balls
      already computed. */
  lemma {:induction false} BackTail(cands1: seq<Candidate>, conts1: seq<seq<V2>>, bs2: seq<V3>, radius: real,
                                    cam: Intrinsics, points: int, o: Oracles)
    requires |cands1| == |conts1| == |bs2|
    ensures var ctrps := MapAll(CenterFn(radius, cam, o.m), Zip(bs2, cands1));
            var conts2 := MapAll(ReprojectFn(radius, cam, points, o.m), Zip(bs2, conts1));
            && (ctrps.Success? && conts2.Success? <==>
                  forall i :: 0 <= i < |cands1| ==> Tail(cands1[i], bs2[i], radius, cam, points, o.m).Success?)
            && (ctrps.Success? && conts2.Success? ==>
                  var ds := Records(cands1, bs2, ctrps.value, conts2.value, radius);
                  |ds| == |cands1| &&
                  forall i :: 0 <= i < |cands1| ==> ds[i] == Tail(cands1[i], bs2[i], radius, cam, points, o.m).value)
            && (ctrps.Failure? ==>
                  exists i :: 0 <= i < |cands1| && Tail(cands1[i], bs2[i], radius, cam, points, o.m) == Failure(ctrps.error))
            && (ctrps.Success? && conts2.Failure? ==>
                  exists i :: 0 <= i < |cands1| && Tail(cands1[i], bs2[i], radius, cam, points, o.m) == Failure(conts2.error))
  {
    var n := |cands1|;
    var m := o.m;
    var zc := Zip(bs2, cands1);
    var zp := Zip(bs2, conts1);
    assert forall i :: 0 <= i < n ==> zc[i] == (bs2[i], cands1[i]) && zp[i] == (bs2[i], conts1[i]);
    MapAllSpec(CenterFn(radius, cam, m), zc);
    MapAllSpec(ReprojectFn(radius, cam, points, m), zp);
  }

  /** The stages after the refinement for one candidate. */
  function Tail(cand: Candidate, ball2: V3, radius: real, cam: Intrinsics, points: int, m: Math): Result<Detection> {
    var ctrp :- ProjectCenter(ball2, cand, radius, cam, m);
    var cont2 :- ContourProjection(ball2, radius, cam, points, m);
    Success(MakeDetection(cand, ball2, ctrp, cont2, radius))
  }

  /** The first stages succeed exactly when the edges, the candidates and
      the contour of every candidate do; contour i is then that of
      candidate i. */
  lemma FrontSpec(fd: Finder, o: Oracles)
    ensures Front(fd, o).Success? <==>
              && o.edges.Success? && Candidates(fd.cfg, o).Success?
              && var cands0 := Candidates(fd.cfg, o).value;
                 forall i :: 0 <= i < |cands0| ==> ContourOf(cands0[i], o.edges.value, fd.cfg.contours, o.m).Success?
    ensures Front(fd, o).Success? ==>
              var (cands0, conts0) := Front(fd, o).value;
              && cands0 == Candidates(fd.cfg, o).value
              && |conts0| == |cands0|
              && forall i :: 0 <= i < |cands0| ==>
                   conts0[i] == ContourOf(cands0[i], o.edges.value, fd.cfg.contours, o.m).value
  {
    if o.edges.Success? && Candidates(fd.cfg, o).Success? {
      MapAllSpec(ContourFn(o.edges.value, fd.cfg.contours, o.m), Candidates(fd.cfg, o).value);
    }
  }

  /** `find_balls` yields, in order, one record per candidate whose contour
      is valid, each the chain of that candidate alone; it succeeds exactly
      when the first stages and every kept candidate's chain do. */
  lemma DetectionsPerCandidate(fd: Finder, o: Oracles, radius: real, cam: Intrinsics)
    ensures Detections(fd, o, radius, cam).Success? <==>
              && Front(fd, o).Success?
              && var kept := Survivors(Front(fd, o).value);
                 forall i :: 0 <= i < |kept| ==>
                   Chain(kept[i].0, kept[i].1, radius, cam, fd.cfg.targetPoints, o).Success?
    ensures Detections(fd, o, radius, cam).Success? ==>
              var kept := Survivors(Front(fd, o).value);
              var ds := Detections(fd, o, radius, cam).value;
              && |ds| == |kept|
              && forall i :: 0 <= i < |kept| ==>
                   ds[i] == Chain(kept[i].0, kept[i].1, radius, cam, fd.cfg.targetPoints, o).value
  {
    if Front(fd, o).Success? {
      var kept := Survivors(Front(fd, o).value);
      var cands1, conts1 := Firsts(kept), Seconds(kept);
      var points := fd.cfg.targetPoints;
      BackPerCandidate(cands1, conts1, radius, cam, points, o);
      forall i | 0 <= i < |kept|
        ensures Chain(kept[i].0, kept[i].1, radius, cam, points, o) == Chain(cands1[i], conts1[i], radius, cam, points, o)
      {
        assert cands1[i] == kept[i].0 && conts1[i] == kept[i].1;
      }
      var back := Back(cands1, conts1, radius, cam, points, o);
      if back.Success? {
        var ds := Records(cands1, back.value.0, back.value.1, back.value.2, radius);
        assert Detections(fd, o, radius, cam) == Success(ds);
      } else {
        assert Detections(fd, o, radius, cam) == Failure(back.error);
      }
    }
  }

  /** A valid contour gives a cone of at least six rays: the first estimate
      cannot fail on its indexing, every ray has a nonzero direction, and
      the refinement has enough residuals. Of the chain, only the
      oracles can still fail. */
  lemma ValidContourFeedsFit(cand: Candidate, cont: seq<V2>, radius: real, cam: Intrinsics, o: Oracles)
    requires ValidContour(cont) && ConeOf(cand, cont, cam, o.m, o.lm).Success?
    ensures var cone := ConeOf(cand, cont, cam, o.m, o.lm).value;
            && |cone| >= 6
            && FitBall(cone, radius, o.m).Success?
            && Proper(ContourRays(cone))
            && (FitBall(cone, radius, o.m).value.Point? ==>
                  RefineBall(FitBall(cone, radius, o.m).value, cone, radius, o.m, o.ls)
                    == o.ls(Residuals(cone, radius, o.m), FitBall(cone, radius, o.m).value.p))
  {
    ConeLayout(cand, cont, cam, o.m, o.lm);
    ConeIsProper(cand, cont, cam, o.m, o.lm);
  }

  /** What every record says: its candidate is a detected candidate with a
      valid contour, the target carries the known radius and the refined
      centre, and the reprojected contour has the three rings of `points`
      points plus the four closing points. */
  lemma DetectionFacts(fd: Finder, o: Oracles, radius: real, cam: Intrinsics)
    requires Detections(fd, o, radius, cam).Success?
    ensures var ds := Detections(fd, o, radius, cam).value;
            var cands0 := Front(fd, o).value.0;
            forall i :: 0 <= i < |ds| ==>
              && ds[i].target.radius == radius
              && ds[i].candidate in cands0
              && |ds[i].contour| == 3 * fd.cfg.targetPoints + 4
  {
    DetectionsPerCandidate(fd, o, radius, cam);
    var front := Front(fd, o).value;
    var ps := Zip(front.0, front.1);
    var kept := Kept(ps);
    KeptSpec(ps);
    var ds := Detections(fd, o, radius, cam).value;
    forall i | 0 <= i < |ds|
      ensures ds[i].target.radius == radius && ds[i].candidate in front.0
      ensures |ds[i].contour| == 3 * fd.cfg.targetPoints + 4
    {
      var p := FilterPositions(HasValidContour, ps)[i];
      assert kept[i] == ps[p];
      assert front.0[p] == kept[i].0;
      ChainFacts(kept[i].0, kept[i].1, radius, cam, fd.cfg.targetPoints, o);
    }
  }

  /** A successful chain keeps its candidate and the known radius, and its
      contour is the reprojected one of `3 * points + 4` points. */
  lemma ChainFacts(cand: Candidate, cont: seq<V2>, radius: real, cam: Intrinsics, points: int, o: Oracles)
    requires Chain(cand, cont, radius, cam, points, o).Success?
    ensures var d := Chain(cand, cont, radius, cam, points, o).value;
            && d.candidate == cand && d.target.radius == radius
            && |d.contour| == 3 * points + 4
            && ContourProjection(V3(d.target.x, d.target.y, d.target.z), radius, cam, points, o.m) == Success(d.contour)
  {
  }

  /** An assertion failure anywhere in the pipeline is reported like an
      image without balls: `str(AssertionError())` is empty. */
  lemma AssertionLooksLikeSuccess()
    ensures Outcome(Failure(AssertionFailed)) == Outcome(Success([]))
  {
  }
}
