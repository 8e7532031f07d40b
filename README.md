# call-a-ball in Dafny

call-a-ball is a demonstrator that finds balls in camera images and
video and locates them in 3D. A detector proposes candidate circles in
the image, either YOLO boxes or Hough circles. For each candidate a
radial search over an edge image finds the ball's contour. Every contour
point is turned into a view ray through the calibrated OpenCV camera
model, with its radial, tangential, thin-prism and tilt distortion. A
sphere of known radius is fitted to the cone of rays and refined by
least squares. The sphere is then projected back as a centre point and
three rings for display. A small Qt front end draws the result, plays
videos, maps clicks on the shown frame back to frame pixels and holds
the settings in sliders.

This project models that core:

- `ocvcam.dfy` (`OcvCam`): the OpenCV projection `cvcore`, the
  parameter packing `to_ipar`/`from_ipar`, `cv_project` and the view ray
  search `cv_view_ray`.
- `det_util.dfy` (`DetUtil`): the contour search, the cone of view
  rays, the sphere fit, its refinement, and the projection of the
  centre and the rings.
- `det_yolo.dfy` (`DetYolo`): YOLO boxes to candidates.
- `ballfinder.dfy` (`BallFinder`): the `BallFinder` class and its
  `find_balls` pipeline.
- `camera_config.dfy` (`CameraConfig`): reading the camera
  calibration.
- `settings.dfy` (`Settings`): the `Config` store with its defaults,
  getters and setters.
- `drawing.dfy` (`Drawing`): the overlay drawing, with an image as a
  canvas that records strokes.
- `media_player.dfy` (`MediaPlayer`): the video player's state machine.
- `video_widget.dfy` (`VideoWidget`): the letterboxed frame and its
  click mapping.
- `slider.dfy` (`Slider`): the labeled slider that keeps a slider and a
  spin box in step.
- `common.dfy` and `vectors.dfy` hold the shared results, errors and
  vector algebra.

Arithmetic is exact. Python's floating point is modelled by reals. A
value that would become infinite or NaN ends as the error `NonFinite`.
`sin`, `cos`, `sqrt` and `pi` are an oracle `Math`. The facts the proofs
need about it are stated by the predicate `Common.Sound`, for example
sin² + cos² = 1 and sqrt as the non-negative root. Everything the code
hands to a library it cannot see is a parameter of the model:

- the edge image;
- the YOLO and Hough detectors;
- SciPy's Levenberg-Marquardt solver;
- moviepy's frame count and frame rate;
- OpenCV's bounding rectangle;
- the file contents.

An exception is a `Result` failure carrying the exception's message, or
`AssertionFailed` for a bare `assert`.

Some behaviour of the source is easy to miss. The model states it:

- The first guess `w0` of `cv_view_ray` comes from the pinhole model.
  `cvcore` negates x and y, because its image y axis points down.
  So for a pinhole camera `w0` reprojects onto `q` only at the
  principal point (`OcvCam.InitialGuessMisses`). The mirrored guess
  always reprojects onto `q` (`OcvCam.MirroredGuessReprojects`). Any
  pinhole pre-image of `q` is that mirrored guess
  (`OcvCam.PinholeInverseUnique`).
- `cv_view_ray` divides by the focal lengths without a check. With a
  zero focal length NumPy's guess is infinite, `cvcore` meets a NaN
  radial denominator there unless k4, k5, k6 are non-zero and of one
  sign, and its bare assertion fails (`OcvCam.ZeroFocalLengthAsserts`).
- `find_balls` catches every exception and returns `str(e)`. A bare
  `assert` has an empty message, so its outcome is indistinguishable
  from finding no ball (`BallFinder.AssertionLooksLikeSuccess`).
- A click less than one scaled frame pixel outside the shown frame
  still maps onto an edge pixel, because `int()` truncates toward zero
  (`VideoWidget.ClickAccepted`).

## Model

| member | source | states |
|---|---|---|
| Common.Message | app/ballfinder/ballfinder.py:111-113 | `str(e)` of a caught exception is empty exactly for a bare assertion failure |
| Common.Trunc | app/components/video_widget.py:79-80 | `int()` of a float truncates toward zero: the result lies within one of x on the side of zero |
| Common.Ceil | app/lib/drawing.py:34-41 | `math.ceil` gives the least integer not below x |
| OcvCam.UsedCoefficients | app/ballfinder/ocvcam.py:133-142 | the number of distortion coefficients taken is at most 14 and at most the number given |
| OcvCam.ToIpar | app/ballfinder/ocvcam.py:131-145 | packing succeeds iff at least 4 coefficients are given, else an index error; fx, fy, cx, cy come from the matrix and each of the 14 slots holds the given coefficient or 0.0 |
| OcvCam.FromIpar | app/ballfinder/ocvcam.py:157-160 | unpacking gives a pinhole matrix (zero skew, last row 0 0 1) and 14 coefficients |
| OcvCam.ToIparFromIpar | app/ballfinder/ocvcam.py:131-160 | packing what was unpacked gives back the 18 parameters |
| OcvCam.PaddedDistortion | app/ballfinder/ocvcam.py:133-142 | for the OpenCV lengths 4, 5, 8, 12 and 14 the coefficients are the given ones padded with zeros to 14 |
| OcvCam.FromIparToIpar | app/ballfinder/ocvcam.py:131-160 | a pinhole matrix and any coefficients survive packing then unpacking, the coefficients padded to 14 |
| OcvCam.NoTiltIsIdentity | app/ballfinder/ocvcam.py:92-108 | zero tilt angles give the identity tilt matrix |
| OcvCam.ToSensorUnit | app/ballfinder/ocvcam.py:112-116 | a point already at depth 1 is mapped to the sensor by the pinhole formula alone |
| OcvCam.CvCore | app/ballfinder/ocvcam.py:44-120 | `cvcore` fails only by its assertion or by a non-finite value; on the camera plane its IEEE outcome depends only on whether x or y is 0 and on k4, k5, k6 |
| OcvCam.CvCoreDistort | app/ballfinder/ocvcam.py:74-116 | off the camera plane, `cvcore` is the distortion of the normalised point under the tilt of `tx`, `ty` |
| OcvCam.CvCoreAssertion | app/ballfinder/ocvcam.py:80-82 | the assertion fails exactly when the radial denominator lies within eps of zero |
| OcvCam.CvCoreCameraPlane | app/ballfinder/ocvcam.py:74 | a point with z = 0 always fails, by the assertion when x or y is 0 |
| OcvCam.NormalisedScale | app/ballfinder/ocvcam.py:74 | scaling a point does not change its normalised image point |
| OcvCam.CvCoreScaleInvariant | app/ballfinder/ocvcam.py:44-120 | every non-zero multiple of p has the same `cvcore` outcome as p, on the camera plane z = 0 as well |
| OcvCam.RadialPinhole | app/ballfinder/ocvcam.py:80-81 | with zero coefficients both radial factors are 1 |
| OcvCam.TangentialPinhole | app/ballfinder/ocvcam.py:83-88 | with zero coefficients the tangential and thin-prism terms vanish |
| OcvCam.DistortPinhole | app/ballfinder/ocvcam.py:79-116 | without distortion or tilt, steps 3 to 6 are the pinhole map |
| OcvCam.CvCoreUntilted | app/ballfinder/ocvcam.py:91-110 | with zero tilt angles the tilt step changes nothing |
| OcvCam.CvCorePinhole | app/ballfinder/ocvcam.py:44-120 | a pinhole camera projects p to `f * (-x/z, -y/z) + c` |
| OcvCam.CvProject | app/ballfinder/ocvcam.py:173-183 | fewer than 4 coefficients raise an index error; otherwise the result is `cvcore` on the packed parameters |
| OcvCam.CvViewRay | app/ballfinder/ocvcam.py:198-233 | the ray has z = 1; its x, y are the solver's optimum from `w0`; with `check_conv` it reprojects within the tolerance, and a reprojection at or beyond the tolerance fails the bare assertion; without it, it succeeds iff projecting `w0` and the solver succeed; a zero focal length with a 0/0 guess is refused as non-finite |
| OcvCam.ZeroFocalLengthAsserts | app/ballfinder/ocvcam.py:210-220 | a zero focal length off the principal point, with no k4, fails `cvcore`'s bare assertion at the infinite guess, with an empty message |
| OcvCam.PinholeCameraIpar | app/ballfinder/ocvcam.py:131-145 | a pinhole camera's packed parameters have no distortion |
| OcvCam.NormalisedUnit | app/ballfinder/ocvcam.py:74 | the point (w, 1) normalises to -w |
| OcvCam.NormalisedMirrored | app/ballfinder/ocvcam.py:74 | the point (-w, 1) normalises to w |
| OcvCam.CvProjectPinhole | app/ballfinder/ocvcam.py:173-183 | a pinhole camera projects (w, 1) by the pinhole map of -w |
| OcvCam.CvProjectMirrored | app/ballfinder/ocvcam.py:173-183 | a pinhole camera projects (-w, 1) by the pinhole map of w |
| OcvCam.PinholeMapInverse | app/ballfinder/ocvcam.py:116 | the pinhole map hits q exactly at `((u - cx)/fx, (v - cy)/fy)` |
| OcvCam.InitialGuessIpar | app/ballfinder/ocvcam.py:206-210 | `w0` is that inverse, taken from the packed parameters |
| OcvCam.PinholeMapGuessHits | app/ballfinder/ocvcam.py:210 | the pinhole map of `w0` is q |
| OcvCam.PinholeMapGuess | app/ballfinder/ocvcam.py:210 | the map of `-w0` is also q exactly when q is the principal point |
| OcvCam.PinholeMapHit | app/ballfinder/ocvcam.py:210 | any w whose negation maps to q is `-w0` |
| OcvCam.MirroredReprojects | app/ballfinder/ocvcam.py:213-216 | if the pinhole map of w is q, the ray (-w, 1) projects to q |
| OcvCam.MirroredGuessReprojects | app/ballfinder/ocvcam.py:206-216 | the ray (-w0, 1) projects exactly to q |
| OcvCam.InitialGuessMisses | app/ballfinder/ocvcam.py:209-216 | the ray (w0, 1) projects to q exactly when q is the principal point |
| OcvCam.PinholeInverseUnique | app/ballfinder/ocvcam.py:206-216 | the only ray (w, 1) with zero reprojection error is (-w0, 1) |
| DetUtil.Linspace | app/ballfinder/det_util.py:114 | `np.linspace` raises on a negative count; otherwise n evenly spaced values from start to stop inclusive |
| DetUtil.LinspaceLast | app/ballfinder/det_util.py:114 | the last of the evenly spaced values is stop |
| DetUtil.StepCount | app/ballfinder/det_util.py:92 | `np.arange(min, max)` has no steps iff max <= min, and otherwise the last step is below max |
| DetUtil.SearchFromFirstHit | app/ballfinder/det_util.py:90-99 | the walk from step k0 returns exactly the first step where the edge is positive |
| DetUtil.RadialSearchFirstHit | app/ballfinder/det_util.py:73-99 | `find_radial` returns the point at the first step with a positive edge, and none iff there is no such step |
| DetUtil.OutOfBoundsStops | app/ballfinder/det_util.py:93-96 | a step outside the edge image ends the search with no point |
| DetUtil.FindRadial | app/ballfinder/det_util.py:73-99 | the loop computes the radial search |
| DetUtil.FindContour | app/ballfinder/det_util.py:112-121 | fails iff the point count is negative; otherwise the hits of the radial searches at the evenly spaced angles, in order |
| DetUtil.HitsBound | app/ballfinder/det_util.py:116-120 | the contour has at most one point per angle |
| DetUtil.HitsAreHits | app/ballfinder/det_util.py:116-120 | every contour point is the radial hit of some angle |
| DetUtil.HitsAppend | app/ballfinder/det_util.py:116-120 | the contour of concatenated angles is the concatenation of the contours |
| DetUtil.ContourRepeatsFirstPoint | app/ballfinder/det_util.py:114-120 | since 0 and 360 degrees are both sampled, a contour found at 0 degrees starts and ends at the same point |
| DetUtil.ViewRay | app/ballfinder/det_util.py:165 | every view ray has z = 1 |
| DetUtil.RaysPrefixFailure | app/ballfinder/det_util.py:168-174 | once one contour point's view ray fails, the cone fails with that error |
| DetUtil.RaysSpec | app/ballfinder/det_util.py:163-176 | the rays succeed iff every point's view ray does, ray i then comes from point i with origin 0, and a failure is that of the first failing point |
| DetUtil.RaysSuccess | app/ballfinder/det_util.py:163-176 | the rays succeed iff every point's view ray does, and ray i then comes from point i with origin 0 |
| DetUtil.RaysFailure | app/ballfinder/det_util.py:163-176 | a failure of the rays is the error of a point whose predecessors all succeed |
| DetUtil.ConeLayout | app/ballfinder/det_util.py:151-176 | the cone has the centre's ray first, then one ray per contour point in order, all from the origin with z = 1 |
| DetUtil.FindCone | app/ballfinder/det_util.py:151-176 | the loop computes that cone |
| DetUtil.FitBall | app/ballfinder/det_util.py:194-263 | fails iff the cone has fewer than 2 rays; otherwise a point exactly when the fit is defined, else a non-finite estimate |
| DetUtil.CoefficientA | app/ballfinder/det_util.py:251 | the leading coefficient is the squared cross product of the two rays, zero iff they are parallel |
| DetUtil.RootSolves | app/ballfinder/det_util.py:256 | the larger root solves the quadratic |
| DetUtil.FootOfPerpendicular | app/ballfinder/det_util.py:258-261 | the foot on the central ray is orthogonal to it, with the squared distance of Lagrange's identity |
| DetUtil.QuadraticIsDistance | app/ballfinder/det_util.py:204-253 | the quadratic in the edge ray parameter is the squared distance to the central ray minus the squared radius |
| DetUtil.FitBallGeometry | app/ballfinder/det_util.py:194-263 | the centre lies on the central ray at the foot of the contact point, and the contact point on the edge ray is at exactly the radius from it |
| DetUtil.PerpendicularOrthogonal | app/ballfinder/det_util.py:289-293 | the offset from a ray to a point is orthogonal to the ray |
| DetUtil.RpdistMinimal | app/ballfinder/det_util.py:289-293 | `rpdist` is non-negative and no point of the line is closer |
| DetUtil.RpdistScale | app/ballfinder/det_util.py:289-293 | `rpdist` does not depend on the length of the ray direction |
| DetUtil.FootParameterScale | app/ballfinder/det_util.py:291 | scaling the direction by k divides the foot parameter by k |
| DetUtil.RpdistOnLine | app/ballfinder/det_util.py:289-293 | a point on the ray is at distance 0 |
| DetUtil.Errf | app/ballfinder/det_util.py:298-300 | one residual per contour ray |
| DetUtil.RefineBall | app/ballfinder/det_util.py:279-306 | a non-finite start or residual raises, fewer than 3 residuals raise SciPy's error, and a success is the solver's answer from the first estimate |
| DetUtil.RefineIgnoresCentralRay | app/ballfinder/det_util.py:282-299 | the refinement uses the contour rays only, so the central ray has no influence |
| DetUtil.ConeIsProper | app/ballfinder/det_util.py:163-176 | every ray of a computed cone has a non-zero direction |
| DetUtil.FitBallFirstResidual | app/ballfinder/det_util.py:194-300 | at the first estimate, the first contour ray's residual is not positive |
| DetUtil.ProjectCenterOnRay | app/ballfinder/det_util.py:320-329 | a centre anywhere on a view ray projects where the ray's direction does |
| DetUtil.Ring | app/ballfinder/det_util.py:365-368 | one ring point per angle |
| DetUtil.Sines | app/ballfinder/det_util.py:357-358 | one sine offset per angle |
| DetUtil.Cosines | app/ballfinder/det_util.py:357-358 | one cosine offset per angle |
| DetUtil.ContourTargets | app/ballfinder/det_util.py:360-383 | the 3D targets are 3 rings of n points plus 4 copies of the centre |
| DetUtil.ProjectAll | app/ballfinder/det_util.py:361-383 | projecting all targets gives one point per target |
| DetUtil.ContourProjection | app/ballfinder/det_util.py:345-385 | the projected contour has 3n + 4 points, and n is not negative |
| DetUtil.ProjectAllAppendFailure | app/ballfinder/det_util.py:361-383 | after a failed projection later targets are not projected |
| DetUtil.ProjectAllAppendOne | app/ballfinder/det_util.py:361-383 | appending one target appends its projection or fails with its error |
| DetUtil.ProjectAllSpec | app/ballfinder/det_util.py:361-383 | succeeds iff every target projects, point i is then target i's projection, and a failure is that of the first failing target |
| DetUtil.ProjectAllAt | app/ballfinder/det_util.py:361-383 | point i of a successful projection is target i's projection |
| DetUtil.ProjectRing | app/ballfinder/det_util.py:365-369 | the loop appends the projections of one ring |
| DetUtil.ProjectRingStep | app/ballfinder/det_util.py:365-369 | each ring point's projection is appended, or its failure ends the whole projection |
| DetUtil.ProjectContour | app/ballfinder/det_util.py:345-385 | `project_contour` computes the contour projection |
| DetUtil.ProjectTargets | app/ballfinder/det_util.py:360-385 | the loops project all targets in order |
| DetUtil.ContourTargetsLayout | app/ballfinder/det_util.py:360-383 | the centre comes first and after each ring; ring p's j-th point is the centre plus that ring's offset |
| DetUtil.RingOnSphere | app/ballfinder/det_util.py:356-380 | every ring offset has length radius, so the rings lie on the sphere |
| DetUtil.ContourTargetAt | app/ballfinder/det_util.py:364-383 | the target at a ring's position j is that ring's j-th point |
| DetUtil.ContourProjectionCentres | app/ballfinder/det_util.py:360-385 | the 4 separator points are the projected centre |
| DetUtil.ContourProjectionRing | app/ballfinder/det_util.py:355-385 | each ring position holds the projection of its 3D ring point |
| DetUtil.RingsClose | app/ballfinder/det_util.py:356-383 | each projected ring starts and ends at the same point |
| DetUtil.RingEnds | app/ballfinder/det_util.py:356-358 | the offsets at 0 and at a full turn agree |
| DetYolo.BoxCandidateInside | app/ballfinder/det_yolo.py:55-57 | a box's candidate is at its centre, with a radius between half the shorter side and half the longer one |
| DetYolo.DetectYolo | app/ballfinder/det_yolo.py:46-59 | an error from the model propagates, no result gives no candidates, otherwise one candidate per box of the first result, in order |
| BallFinder.NewFinder | app/ballfinder/ballfinder.py:41-48 | a finder exists iff the detector is YOLO or HOUGH; otherwise a bare assertion fails |
| BallFinder.Shortest | app/ballfinder/ballfinder.py:98 | `zip` stops at the shortest of its four lists |
| BallFinder.FilterValid | app/ballfinder/ballfinder.py:75-80 | the loop keeps the candidates with a valid contour, paired with their contours |
| BallFinder.AssembleRecords | app/ballfinder/ballfinder.py:98-109 | the loop builds one record per zipped entry |
| BallFinder.FindBalls | app/ballfinder/ballfinder.py:66-114 | returns the detections and an empty message, or no detections and the message of the exception caught |
| BallFinder.CandidatesOfAcceptedFinder | app/ballfinder/ballfinder.py:41-73 | an accepted finder takes YOLO or Hough candidates by its detector; a refused one hits the unbound local variable |
| BallFinder.KeptSpec | app/ballfinder/ballfinder.py:75-80 | the kept pairs are exactly those with a valid contour, in their original order |
| BallFinder.BackPerCandidate | app/ballfinder/ballfinder.py:81-109 | the batched stages succeed iff every kept candidate's chain does, and record i is candidate i's chain result |
| BallFinder.HeadSpec | app/ballfinder/ballfinder.py:81-88 | the cone, fit and refine comprehensions succeed iff every kept candidate is refined, ball i is then candidate i's, and a failure is some candidate's |
| BallFinder.RefinedStages | app/ballfinder/ballfinder.py:81-88 | one candidate's refinement fails with its cone's error, else with its first fit's error, else is the refinement of that fit |
| BallFinder.BackTail | app/ballfinder/ballfinder.py:89-109 | the centre and contour projections, batched, agree with the per-candidate tail |
| BallFinder.FrontSpec | app/ballfinder/ballfinder.py:69-74 | the edge image, the candidates and every candidate's contour must succeed, and contour i belongs to candidate i |
| BallFinder.DetectionsPerCandidate | app/ballfinder/ballfinder.py:66-114 | `find_balls` succeeds iff every candidate with a valid contour goes through the chain, and gives one detection per such candidate in order |
| BallFinder.ValidContourFeedsFit | app/ballfinder/ballfinder.py:77-88 | a valid contour gives a cone of at least 6 rays, so the fit cannot fail on length and the refinement is the solver's call |
| BallFinder.DetectionFacts | app/ballfinder/ballfinder.py:98-109 | every detection carries the ball radius, one of the detector's candidates and a contour of 3n + 4 points |
| BallFinder.ChainFacts | app/ballfinder/ballfinder.py:81-109 | one candidate's record carries the candidate, the radius and the projection of the sphere at its target |
| BallFinder.AssertionLooksLikeSuccess | app/ballfinder/ballfinder.py:111-114 | a failed bare assertion gives the same outcome as finding no ball |
| CameraConfig.PixelParameters | app/lib/config.py:57-62 | focal lengths scale by the image size, and the centre moves from [-0.5, 0.5] to pixels; the coefficients are unchanged |
| CameraConfig.Hdf5ConfToDict | app/lib/config.py:55-84 | unpacking succeeds iff there are 18 values and gives a pinhole matrix and 14 coefficients |
| CameraConfig.Hdf5IsFromIpar | app/lib/config.py:55-84 | the HDF5 conversion is `from_ipar` of the pixel parameters, and packing it back gives them |
| CameraConfig.PixelCentreLandmarks | app/lib/config.py:61-62 | -0.5, 0 and 0.5 map to the image edge, middle and far edge, strictly increasing |
| CameraConfig.ReadCameraConfig | app/lib/config.py:33-52 | JSON is read or raises the JSON error; HDF5 succeeds iff it has 18 values and raises the HDF5 error otherwise; any other file raises the unknown-format error |
| Settings.Bounds | app/config/config.py:77-179 | every setting's lower bound lies below its upper bound |
| Settings.KeysDistinct | app/config/config.py:77-179 | distinct settings are stored under distinct keys |
| Settings.StoreThenLookup | app/config/config.py:81-83 | a setter succeeds iff its section exists, then the getter gives the stored value and no other entry or key changes |
| Settings.Config.Defaults | app/config/config.py:57-63 | a new store holds the defaults |
| Settings.Config.Loaded | app/config/config.py:57-60 | a loaded store holds the file's contents |
| Settings.Config.Reset | app/config/config.py:65-67 | `reset` restores the defaults |
| Settings.Config.Values | app/config/config.py:73-75 | `values` returns the whole store |
| Settings.Config.Get | app/config/config.py:77-179 | a getter returns the stored value with its bounds, or the error of the missing key |
| Settings.Config.Set | app/config/config.py:77-179 | a setter changes its own entry and nothing else; the getter then returns the new value |
| Settings.DefaultsInBounds | app/config/config.py:31-179 | every default is an integer within its setting's bounds |
| Settings.FinderSettings | app/ballfinder/det_util.py:74-113 | the settings give a finder configuration iff the detector is a string and the two point counts are integers and the two search limits numbers; its fields are those entries, an integer limit read as a float |
| Settings.IntegerScales | app/ballfinder/det_util.py:74-75 | integer search limits give the same configuration as the equal float limits |
| Settings.DefaultFinder | app/config/config.py:31-51 | the defaults select YOLO, 30 contour points and search limits 0.75 and 1.25, and the finder accepts them |
| Drawing.Canvas.constructor | app/lib/drawing.py:53-56 | an image of the given shape with nothing drawn |
| Drawing.Thickness | app/lib/drawing.py:34-41 | the line thickness is 0 for an empty image, 2 up to 1500 rows, and otherwise the ceiling of height/1500, never 1 |
| Drawing.ThicknessMonotone | app/lib/drawing.py:34-41 | a taller image never gets thinner lines |
| Drawing.FontScale | app/lib/drawing.py:44-50 | the font scale is at least 1 and at least height/2000, and equal to one of them |
| Drawing.Pixels | app/lib/drawing.py:62 | every point is cast to an integer pixel |
| Drawing.InImageSpec | app/lib/drawing.py:62-68 | the mask keeps only pixels inside the image, and every pixel inside |
| Drawing.ContourColor | app/lib/drawing.py:58-61 | the selected ball's contour is green, all others yellow |
| Drawing.DrawContour | app/lib/drawing.py:53-70 | one contour stroke per detection, in order |
| Drawing.CenterCross | app/lib/drawing.py:73-95 | a centre inside the image gets a horizontal and a vertical line crossing at it, each 10 thicknesses long; one outside gets nothing |
| Drawing.DrawCenter | app/lib/drawing.py:73-96 | the loop draws the crosses of all detections |
| Drawing.Centers | app/lib/drawing.py:106-108 | the end points are the detections' centres |
| Drawing.DrawLines | app/lib/drawing.py:99-111 | the lines from the start point to the end points are drawn |
| Drawing.LinesSpec | app/lib/drawing.py:99-111 | nothing is drawn from a start outside the image; every line is green from the start to an end inside the image, and each such end gets one |
| Drawing.ShownRelative | app/lib/drawing.py:125-139 | relative coordinates are the absolute ones minus the base's, so the base shows 0 and differences are kept |
| Drawing.LabelBlockLayout | app/lib/drawing.py:145-172 | at most 3 labels, each drawn black then yellow, right of the box, inside the image, showing that axis's value |
| Drawing.DrawText | app/lib/drawing.py:114-173 | the loop draws the label block of every detection, in order |
| Drawing.DrawLabels | app/lib/drawing.py:145-172 | one detection's label block is drawn |
| MediaPlayer.ReadsInOrder | app/modules/media_player.py:97-104 | successive reads return the next frames in order and stop at the end |
| MediaPlayer.Player.constructor | app/modules/media_player.py:41-51 | no source, no timer, and an empty frame 0 is announced |
| MediaPlayer.Player.UpdateFrame | app/modules/media_player.py:110-114 | the frame and its number become current and are announced |
| MediaPlayer.Player.Clear | app/modules/media_player.py:62-68 | the source, the frame count and the rate are dropped and an empty frame 0 is announced |
| MediaPlayer.Player.NextFrame | app/modules/media_player.py:97-104 | raises without a source; otherwise it reads the next frame and advances the number, or at the end stops the timer and announces the stop |
| MediaPlayer.Player.SetSource | app/modules/media_player.py:53-60 | a new source is opened and its first frame shown as number 1, or the player stops when it has none |
| MediaPlayer.Player.SetPosition | app/modules/media_player.py:70-78 | only positions 1 to the frame count are taken; the frame there becomes current |
| MediaPlayer.Player.Play | app/modules/media_player.py:80-86 | a running timer is left alone; at the last frame playback rewinds; Play is announced and the timer starts at 1000/fps ms, or a missing or zero rate raises with the timer and its interval untouched; a cleared player raises with its capture and interval untouched |
| MediaPlayer.Player.Pause | app/modules/media_player.py:88-91 | a running timer stops and Pause is announced; otherwise nothing happens |
| MediaPlayer.Player.IsPlaying | app/modules/media_player.py:93-95 | the player plays iff its timer is active |
| VideoWidget.Fit | app/components/video_widget.py:67-77 | the letterbox exists iff no division by zero occurs, and fails with that error otherwise |
| VideoWidget.FitCentres | app/components/video_widget.py:67-77 | the frame fills the widget along one axis and is centred along the other |
| VideoWidget.FitWide | app/components/video_widget.py:70-72 | a wider widget is filled in height with the frame narrower than it |
| VideoWidget.FitTall | app/components/video_widget.py:74-77 | otherwise the widget is filled in width with the frame no taller than it |
| VideoWidget.ClickRoundTrip | app/components/video_widget.py:79-86 | clicking where a frame pixel is drawn maps back to that pixel |
| VideoWidget.TruncInRange | app/components/video_widget.py:79-82 | the bounds check accepts truncated values from the open interval (-1, m + 1) |
| VideoWidget.ClickAccepted | app/components/video_widget.py:67-86 | a click is emitted iff it lies less than one scaled pixel outside the drawn frame |
| VideoWidget.Widget.constructor | app/components/video_widget.py:40-42 | no frame is shown yet and no click is emitted |
| VideoWidget.Widget.SetPixmap | app/components/video_widget.py:88-90 | the shown frame is remembered |
| VideoWidget.Widget.Resize | app/components/video_widget.py:92-93 | a resize changes only the widget's size |
| VideoWidget.Widget.MousePress | app/components/video_widget.py:44-86 | a click raises the mapping's division error, emits the mapped pixel, or does nothing |
| Slider.PrepareValue | app/components/labeled_slider_widget.py:50-56 | with odd parity the value is the largest odd number not above the raw one; otherwise unchanged |
| Slider.PrepareIdempotent | app/components/labeled_slider_widget.py:50-56 | preparing twice is preparing once |
| Slider.PrepareMonotone | app/components/labeled_slider_widget.py:52-53 | preparation keeps order and leaves odd values alone |
| Slider.Control.SetValue | app/components/labeled_slider_widget.py:71-72 | the control clamps a value into its bounds |
| Slider.Control.SetMinimum | app/components/labeled_slider_widget.py:65-66 | a new lower bound raises the upper bound and the value when they are below it |
| Slider.Control.SetMaximum | app/components/labeled_slider_widget.py:60-61 | a new upper bound lowers the lower bound and the value when they are above it |
| Slider.PreparedInRange | app/components/labeled_slider_widget.py:68-73 | with an odd lower bound a prepared in-range value is shown unclamped |
| Slider.LabeledSlider.constructor | app/components/labeled_slider_widget.py:42-48 | the slider and the spin box are the widget's children and nothing is announced |
| Slider.LabeledSlider.SetValue | app/components/labeled_slider_widget.py:68-73 | both controls take the prepared value, which is announced; agreeing controls keep agreeing |
| Slider.LabeledSlider.SetMax | app/components/labeled_slider_widget.py:58-61 | both controls get the same upper bound |
| Slider.LabeledSlider.SetMin | app/components/labeled_slider_widget.py:63-66 | both controls get the same lower bound |
| Slider.LabeledSlider.GetValue | app/components/labeled_slider_widget.py:75-77 | the value is the slider's, within its bounds |

## Left out

- `canny` and the `RegularGridInterpolator` sampling of the edge image are an oracle `Indicator` giving, for a point, the edge value or `None` outside the image.
- `detect_hough`, `init_yolo` and the YOLO model call are oracles: the Hough candidates and the raw YOLO output are parameters.
- SciPy's `least_squares` is an oracle, in `cv_view_ray` and in `refine_ball`. The model makes no claim about convergence or optimality beyond the `check_conv` test.
- IEEE floating point is modelled by exact reals. Overflow, rounding and NaN propagation are reduced to the error `NonFinite` where a division by zero or a non-finite residual can occur.
- OcvCam.CvCore: a NaN sensor point that `cvcore` returns without raising (on the camera plane with k4, k5, k6 non-zero and of one sign, or with zu = 0) is the error `NonFinite`. Inside `cv_view_ray` SciPy does reject it, but `project_center` and `project_contour` would pass it into a detection record with an empty error.
- Settings.FinderSettings: a configuration without the `Detector` entry, or without the `FindContours` and `ShowTargets` entries, gives `None`. The source raises a KeyError instead: `BallFinder.__init__` for `Detector`, and `find_balls` returns the others as its error. A `Detector` that is not a string gives `None` too, where `__init__` fails its assertion.
- Drawing.Thickness: `height * (1 / 1500)` is taken as the exact quotient, so rounding of the float product near multiples of 1500 is not modelled.
- Drawing.FontScale: `height * (1 / 2000)` is taken as the exact quotient, as above.
- File I/O (`is_json`, `is_hdf5`, `json.load`, `h5py`, the config file load and `save`) is replaced by the file's parsed contents as a parameter.
- Message texts of exceptions from Python, NumPy and SciPy are approximated. Examples are the unpacking errors of `hdf5_conf_to_dict` and the unbound local variable.
- Pixel rasterisation by `cv2.drawContours`, `cv2.line` and `cv2.putText` is not modelled. The canvas records the strokes drawn instead.
- The bounding rectangle `cv2.boundingRect` is an oracle.
- Drawing.DrawText: the text height from `cv2.getTextSize` is one parameter shared by the three lines, and labels carry the exact coordinate rather than its `round(x, 2)` text.
- `print` and logging in `find_balls` and elsewhere are left out.
- Qt signals are logs of what was emitted. The re-entrant `valueChanged` → `set_value` call of the slider is not modelled.
- `QTimer` scheduling is not modelled: a timeout is a call to `NextFrame`.
- MediaPlayer.Player.Play: a negative interval from a negative frame rate is taken as given. Qt's handling of it is not modelled.
- `cv2.VideoCapture` is an in-memory sequence of frames with a read position. moviepy's frame count and frame rate are parameters.
- `update_pixmap` scaling and painting is Qt's and is left out. Only the frame size it shows takes part in click mapping.
- Threads, the camera and image detector modules, the menus, the photo and video modules and the other widgets are outside the modelled core.
