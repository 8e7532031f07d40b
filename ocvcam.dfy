/** The OpenCV camera model of `app/ballfinder/ocvcam.py`: packing of the
    intrinsic parameters into one 18-vector, forward projection of a 3D
    point to sensor pixels (rational radial, tangential and thin-prism
    distortion, sensor tilt), and the numerical inverse that turns a sensor
    point into a view-ray direction. The Levenberg-Marquardt solver of SciPy
    is an oracle parameter. */
module OcvCam {
  import opened Common
  import opened Vectors

  /** `ipar`: fx, fy, cx, cy, k1, k2, p1, p2, k3, k4, k5, k6, s1, s2, s3, s4, tx, ty. */
  type Ipar = s: seq<real> | |s| == 18 witness seq(18, i => 0.0)

  /** OpenCV intrinsics as the callers hold them: a 3x3 camera matrix and a
      row of N distortion coefficients (N = 4, 5, 8, 12 or 14 in practice). */
  datatype Intrinsics = Intrinsics(cameraMatrix: Mat3, distortion: seq<real>)

  /** The default threshold `eps` of `cvcore`, `cv_project` and `cv_view_ray`. */
  const DefaultEps: real := 0.00000001
  /** The default `tolerance` of `cv_view_ray`. */
  const DefaultTolerance: real := 0.001

  /** How many leading distortion coefficients `to_ipar` reads from a row of
      `n` of them; the rest of the 14 slots are zero. */
  function UsedCoefficients(n: nat): (k: nat)
    ensures k <= 14 && (n >= 4 ==> k <= n)
  {
    if n >= 14 then 14 else if n >= 12 then 12 else if n >= 8 then 8 else if n >= 5 then 5 else 4
  }

  /** `to_ipar`: flatten the camera matrix and the distortion row. Rows with
      fewer than four coefficients raise an IndexError. */
  function ToIpar(imtx: Mat3, dist: seq<real>): (r: Result<Ipar>)
    ensures r.Success? <==> |dist| >= 4
    ensures r.Failure? ==> r.error == IndexOutOfRange
    ensures r.Success? ==>
      && r.value[0] == imtx.r0.x && r.value[1] == imtx.r1.y
      && r.value[2] == imtx.r0.z && r.value[3] == imtx.r1.z
      && forall i :: 0 <= i < 14 ==>
           r.value[4 + i] == if i < UsedCoefficients(|dist|) then dist[i] else 0.0
  {
    if |dist| < 4 then Failure(IndexOutOfRange)
    else Success(seq(18, i requires 0 <= i < 18 => IparEntry(imtx, dist, i)))
  }

  /** Entry i of the packed vector: fx, fy, cx, cy from the matrix, then
      k1, k2, p1, p2 always, k3 from five coefficients on, k4..k6 from
      eight, s1..s4 from twelve, tx, ty from fourteen, zero otherwise. */
  function IparEntry(imtx: Mat3, dist: seq<real>, i: int): real
    requires |dist| >= 4 && 0 <= i < 18
  {
    if i == 0 then imtx.r0.x
    else if i == 1 then imtx.r1.y
    else if i == 2 then imtx.r0.z
    else if i == 3 then imtx.r1.z
    else if i - 4 < UsedCoefficients(|dist|) then dist[i - 4]
    else 0.0
  }

  /** `from_ipar`: the zero-skew camera matrix and all 14 coefficients. */
  function FromIpar(ipar: Ipar): (r: Intrinsics)
    ensures |r.distortion| == 14
    ensures r.cameraMatrix.r0.y == 0.0 && r.cameraMatrix.r2 == V3(0.0, 0.0, 1.0)
  {
    Intrinsics(Mat3(V3(ipar[0], 0.0, ipar[2]), V3(0.0, ipar[1], ipar[3]), V3(0.0, 0.0, 1.0)),
               ipar[4..])
  }

  /** Packing after unpacking gives the same 18 values back. */
  lemma {:induction false} ToIparFromIpar(ipar: Ipar)
    ensures ToIpar(FromIpar(ipar).cameraMatrix, FromIpar(ipar).distortion) == Success(ipar)
  {
    var r := ToIpar(FromIpar(ipar).cameraMatrix, FromIpar(ipar).distortion);
    assert r.Success?;
    forall i | 0 <= i < 18
      ensures r.value[i] == ipar[i]
    {
      if i >= 4 {
        assert r.value[4 + (i - 4)] == ipar[4..][i - 4];
      }
    }
    assert r.value == ipar;
  }

  /** A camera matrix whose skew is zero and whose last row is (0, 0, 1). */
  predicate PinholeMatrix(imtx: Mat3) {
    imtx.r0.y == 0.0 && imtx.r1.x == 0.0 && imtx.r2 == V3(0.0, 0.0, 1.0)
  }

  /** The distortion row padded (or, for N = 6, 7, 9, 10, 11, 13, cut) the way
      `to_ipar` reads it. */
  function PaddedDistortion(dist: seq<real>): (d: seq<real>)
    requires |dist| >= 4
    ensures |d| == 14
    ensures |dist| in {4, 5, 8, 12, 14} ==> d == dist + seq(14 - |dist|, i => 0.0)
  {
    var k := UsedCoefficients(|dist|);
    dist[..k] + seq(14 - k, i => 0.0)
  }

  /** Unpacking after packing gives back a zero-skew camera matrix and the
      coefficients zero-padded to 14. */
  lemma {:induction false} FromIparToIpar(imtx: Mat3, dist: seq<real>)
    requires PinholeMatrix(imtx) && |dist| >= 4
    ensures ToIpar(imtx, dist).Success?
    ensures FromIpar(ToIpar(imtx, dist).value) == Intrinsics(imtx, PaddedDistortion(dist))
  {
    var ipar := ToIpar(imtx, dist).value;
    var pad := PaddedDistortion(dist);
    forall i | 0 <= i < 14
      ensures ipar[4..][i] == pad[i]
    {
      assert ipar[4 + i] == ipar[4..][i];
    }
    assert ipar[4..] == pad;
  }

  /** The sensor-tilt matrix `tm` of `cvcore`. */
  function TiltT(tx: real, ty: real, m: Math): Mat3 {
    Mat3(V3(m.cos(ty) * m.cos(tx), 0.0, m.sin(ty) * m.cos(tx)),
         V3(0.0, m.cos(ty) * m.cos(tx), -m.sin(tx)),
         V3(0.0, 0.0, 1.0))
  }

  /** The sensor-tilt matrix `rm` of `cvcore`. */
  function TiltR(tx: real, ty: real, m: Math): Mat3 {
    Mat3(V3(m.cos(ty), m.sin(ty) * m.sin(tx), -m.sin(ty) * m.cos(tx)),
         V3(0.0, m.cos(tx), m.sin(tx)),
         V3(m.sin(ty), -m.cos(ty) * m.sin(tx), m.cos(ty) * m.cos(tx)))
  }

  /** The tilt matrix `mm = tm @ rm` of `cvcore`. */
  function TiltMatrix(tx: real, ty: real, m: Math): Mat3 {
    Mul(TiltT(tx, ty, m), TiltR(tx, ty, m))
  }

  /** Without tilt both tilt matrices, and so their product, are the identity. */
  lemma NoTiltIsIdentity(tx: real, ty: real, m: Math)
    requires tx == 0.0 && ty == 0.0 && m.sin(0.0) == 0.0 && m.cos(0.0) == 1.0
    ensures TiltMatrix(tx, ty, m) == Identity
  {
    assert TiltT(tx, ty, m) == Identity;
    assert TiltR(tx, ty, m) == Identity;
    IdentityNeutral(Identity, Zero3);
  }

  /** Step 1: the normalised point (x', y') = (-x/z, -y/z). */
  function Normalised(p: V3): V2
    requires p.z != 0.0
  {
    V2(-p.x / p.z, -p.y / p.z)
  }

  /** Step 2: the squared radius r2 of a normalised point. */
  function SquaredRadius(n: V2): real {
    n.x * n.x + n.y * n.y
  }

  /** Step 3, radial part: the numerator `ffn` of the rational factor. */
  function RadialNumerator(r2: real, ipar: Ipar): real {
    1.0 + ipar[4] * r2 + ipar[5] * (r2 * r2) + ipar[8] * (r2 * r2 * r2)
  }

  /** Step 3, radial part: the denominator `ffd` of the rational factor. */
  function RadialDenominator(r2: real, ipar: Ipar): real {
    1.0 + ipar[9] * r2 + ipar[10] * (r2 * r2) + ipar[11] * (r2 * r2 * r2)
  }

  /** Step 3 after the radial factor: tangential (p1, p2) and thin-prism
      (s1..s4) terms give (x'', y''). */
  function Tangential(n: V2, radial: real, ipar: Ipar): V2 {
    var (xp, yp, r2) := (n.x, n.y, SquaredRadius(n));
    var (p1, p2, s1, s2, s3, s4) := (ipar[6], ipar[7], ipar[12], ipar[13], ipar[14], ipar[15]);
    V2(xp * radial + 2.0 * p1 * (xp * yp) + p2 * (r2 + 2.0 * (xp * xp)) + s1 * r2 + s2 * (r2 * r2),
       yp * radial + p1 * (r2 + 2.0 * (yp * yp)) + 2.0 * p2 * (xp * yp) + s3 * r2 + s4 * (r2 * r2))
  }

  /** The linear pinhole map of step 6: u = fx x + cx, v = fy y + cy. */
  function PinholeMap(n: V2, ipar: Ipar): V2 {
    V2(ipar[0] * n.x + ipar[2], ipar[1] * n.y + ipar[3])
  }

  /** Steps 5 and 6: dehomogenise the tilted point and apply the focal
      lengths and the principal point. A zero `zu` makes NumPy return a
      non-finite point. */
  function ToSensor(u: V3, ipar: Ipar): Result<V2> {
    if u.z == 0.0 then Failure(NonFinite)
    else Success(PinholeMap(V2(u.x / u.z, u.y / u.z), ipar))
  }

  /** A tilted point with `zu` = 1 goes through the pinhole map unchanged. */
  lemma ToSensorUnit(n: V2, ipar: Ipar)
    ensures ToSensor(V3(n.x, n.y, 1.0), ipar) == Success(PinholeMap(n, ipar))
  {
    assert V2(n.x / 1.0, n.y / 1.0) == n;
  }

  /** Steps 3 to 6 of `cvcore`, from the normalised point n, with the tilt
      matrix `mm` already computed. */
  function Distort(n: V2, ipar: Ipar, mm: Mat3, eps: real): Result<V2> {
    var r2 := SquaredRadius(n);
    var ffd := RadialDenominator(r2, ipar);
    if -eps <= ffd <= eps then Failure(AssertionFailed)
    else if ffd == 0.0 then Failure(NonFinite)  // only when eps < 0
    else
      var v := Tangential(n, RadialNumerator(r2, ipar) / ffd, ipar);
      ToSensor(MulV(mm, V3(v.x, v.y, 1.0)), ipar)
  }

  /** How `cvcore` ends in IEEE arithmetic once r2 is +inf: a zero k4, k5
      or k6 (0 * inf) or k4, k5, k6 of mixed signs (inf - inf) make `ffd`
      NaN, and the bare assertion fails. Otherwise `ffd` is infinite, the
      assertion holds and the returned point is NaN. */
  function InfiniteRadius(ipar: Ipar): Error {
    var (k4, k5, k6) := (ipar[9], ipar[10], ipar[11]);
    if k4 == 0.0 || k5 == 0.0 || k6 == 0.0 then AssertionFailed
    else if (k4 > 0.0) == (k5 > 0.0) == (k6 > 0.0) then NonFinite
    else AssertionFailed
  }

  /** `cvcore`: project a point given in camera coordinates. The image axes
      point opposite to the camera's x and y axes, hence the sign flip of
      step 1. On the camera plane z = 0, IEEE arithmetic makes x' or y'
      infinite, or NaN where x or y is 0 too. A NaN r2 fails the bare
      assertion; an infinite one ends as `InfiniteRadius` says. */
  function CvCore(p: V3, ipar: Ipar, eps: real, m: Math): (r: Result<V2>)
    ensures r.Failure? ==> r.error in {AssertionFailed, NonFinite}
  {
    if p.z == 0.0 then
      if p.x == 0.0 || p.y == 0.0 then Failure(AssertionFailed) else Failure(InfiniteRadius(ipar))
    else Distort(Normalised(p), ipar, TiltMatrix(ipar[16], ipar[17], m), eps)
  }

  /** Away from the camera plane, `cvcore` is steps 3 to 6 at the normalised
      point. */
  lemma CvCoreDistort(p: V3, ipar: Ipar, eps: real, m: Math)
    requires p.z != 0.0
    ensures CvCore(p, ipar, eps, m) == Distort(Normalised(p), ipar, TiltMatrix(ipar[16], ipar[17], m), eps)
  {
  }

  /** `cvcore` fails its bare assertion exactly when |ffd| <= eps. */
  lemma CvCoreAssertion(p: V3, ipar: Ipar, eps: real, m: Math)
    requires p.z != 0.0
    ensures CvCore(p, ipar, eps, m) == Failure(AssertionFailed)
            <==> -eps <= RadialDenominator(SquaredRadius(Normalised(p)), ipar) <= eps
  {
    CvCoreDistort(p, ipar, eps, m);
  }

  /** On the camera plane `cvcore` never returns a point. */
  lemma CvCoreCameraPlane(p: V3, ipar: Ipar, eps: real, m: Math)
    requires p.z == 0.0
    ensures CvCore(p, ipar, eps, m).Failure?
    ensures p.x == 0.0 || p.y == 0.0 ==> CvCore(p, ipar, eps, m) == Failure(AssertionFailed)
  {
  }

  /** Scaling a point does not move its normalised point. */
  lemma NormalisedScale(p: V3, k: real)
    requires k != 0.0 && p.z != 0.0
    ensures Normalised(Scale(k, p)) == Normalised(p)
  {
    var q := Scale(k, p);
    DivCancel(k, -p.x, p.z);
    DivCancel(k, -p.y, p.z);
    assert -q.x == k * -p.x && -q.y == k * -p.y;
  }

  /** `cvcore` sees a point only through x/z and y/z: every nonzero multiple
      of p projects to the same sensor point. */
  lemma CvCoreScaleInvariant(p: V3, k: real, ipar: Ipar, eps: real, m: Math)
    requires k != 0.0
    ensures CvCore(Scale(k, p), ipar, eps, m) == CvCore(p, ipar, eps, m)
  {
    if p.z != 0.0 {
      NormalisedScale(p, k);
      CvCoreDistort(p, ipar, eps, m);
      CvCoreDistort(Scale(k, p), ipar, eps, m);
    } else {
      assert k * p.x == 0.0 <==> p.x == 0.0;
      assert k * p.y == 0.0 <==> p.y == 0.0;
    }
  }

  lemma DivCancel(k: real, a: real, b: real)
    requires k != 0.0 && b != 0.0
    ensures (k * a) / (k * b) == a / b
  {
    assert (k * a) == (a / b) * (k * b);
  }

  /** All distortion coefficients and both tilt angles are zero. */
  predicate NoDistortion(ipar: Ipar) {
    && ipar[4] == 0.0 && ipar[5] == 0.0 && ipar[6] == 0.0 && ipar[7] == 0.0
    && ipar[8] == 0.0 && ipar[9] == 0.0 && ipar[10] == 0.0 && ipar[11] == 0.0
    && ipar[12] == 0.0 && ipar[13] == 0.0 && ipar[14] == 0.0 && ipar[15] == 0.0
    && ipar[16] == 0.0 && ipar[17] == 0.0
  }

  /** Without radial coefficients the radial factor is 1. */
  lemma RadialPinhole(r2: real, ipar: Ipar)
    requires NoDistortion(ipar)
    ensures RadialNumerator(r2, ipar) == 1.0 && RadialDenominator(r2, ipar) == 1.0
  {
  }

  /** Without tangential and thin-prism coefficients, (x'', y'') = (x', y'). */
  lemma TangentialPinhole(n: V2, ipar: Ipar)
    requires NoDistortion(ipar)
    ensures Tangential(n, 1.0, ipar) == n
  {
  }

  /** Without distortion and tilt, steps 3 to 6 reduce to the pinhole map. */
  lemma DistortPinhole(n: V2, ipar: Ipar, eps: real)
    requires NoDistortion(ipar) && eps < 1.0
    ensures Distort(n, ipar, Identity, eps) == Success(PinholeMap(n, ipar))
  {
    var r2 := SquaredRadius(n);
    RadialPinhole(r2, ipar);
    assert RadialNumerator(r2, ipar) / RadialDenominator(r2, ipar) == 1.0;
    TangentialPinhole(n, ipar);
    IdentityNeutral(Identity, V3(n.x, n.y, 1.0));
    ToSensorUnit(n, ipar);
  }

  /** Without tilt, `cvcore` applies steps 3 to 6 with the identity matrix. */
  lemma CvCoreUntilted(p: V3, ipar: Ipar, eps: real, m: Math)
    requires m.sin(0.0) == 0.0 && m.cos(0.0) == 1.0
    requires p.z != 0.0 && ipar[16] == 0.0 && ipar[17] == 0.0
    ensures CvCore(p, ipar, eps, m) == Distort(Normalised(p), ipar, Identity, eps)
  {
    CvCoreDistort(p, ipar, eps, m);
    NoTiltIsIdentity(ipar[16], ipar[17], m);
  }

  /** Without distortion and tilt, `cvcore` is the pinhole model with the
      sign flip: u = fx (-x/z) + cx, v = fy (-y/z) + cy. */
  lemma CvCorePinhole(p: V3, ipar: Ipar, eps: real, m: Math)
    requires m.sin(0.0) == 0.0 && m.cos(0.0) == 1.0
    requires NoDistortion(ipar) && p.z != 0.0 && eps < 1.0
    ensures CvCore(p, ipar, eps, m) == Success(PinholeMap(Normalised(p), ipar))
  {
    CvCoreUntilted(p, ipar, eps, m);
    DistortPinhole(Normalised(p), ipar, eps);
  }

  /** `cv_project`: pack the parameters, then project. */
  function CvProject(p: V3, cam: Intrinsics, eps: real, m: Math): (r: Result<V2>)
    ensures |cam.distortion| < 4 ==> r == Failure(IndexOutOfRange)
    ensures |cam.distortion| >= 4 ==>
              r == CvCore(p, ToIpar(cam.cameraMatrix, cam.distortion).value, eps, m)
  {
    var ipar :- ToIpar(cam.cameraMatrix, cam.distortion);
    CvCore(p, ipar, eps, m)
  }

  /** SciPy's `least_squares(..., method="lm")` on the reprojection error:
      given the sensor point and the initial guess it returns the optimum
      `w`, or the exception raised while iterating. */
  type Solver = (V2, V2) -> Result<V2>

  /** The initial guess of `cv_view_ray`, from the linear pinhole model
      without the sign flip of `cvcore`. */
  function InitialGuess(q: V2, cam: Intrinsics): V2
    requires cam.cameraMatrix.r0.x != 0.0 && cam.cameraMatrix.r1.y != 0.0
  {
    V2((q.x - cam.cameraMatrix.r0.z) / cam.cameraMatrix.r0.x,
       (q.y - cam.cameraMatrix.r1.z) / cam.cameraMatrix.r1.y)
  }

  /** The squared distance between two sensor points. */
  function Dist2(a: V2, b: V2): real {
    (a.x - b.x) * (a.x - b.x) + (a.y - b.y) * (a.y - b.y)
  }

  /** `cv_view_ray`: the direction (wx, wy, 1) of the view ray through the
      sensor point q. NumPy divides by a zero focal length without raising:
      0/0 gives a NaN component of the guess, which SciPy refuses as a start
      point, and any other numerator an infinite one, with which the first
      residual runs `cvcore` at r2 = +inf. Otherwise the solver first
      evaluates the reprojection error at the initial guess, so an exception
      there ends the search. The reprojection error is checked only when
      `checkConv` is set, by a bare assertion. */
  function CvViewRay(q: V2, cam: Intrinsics, m: Math, lm: Solver, tolerance: real, checkConv: bool)
    : (r: Result<V3>)
    ensures r.Success? ==> r.value.z == 1.0
    ensures r.Success? && checkConv ==>
              && CvProject(r.value, cam, DefaultEps, m).Success?
              && m.sqrt(Dist2(CvProject(r.value, cam, DefaultEps, m).value, q)) < tolerance
    ensures r.Success? ==>
              && cam.cameraMatrix.r0.x != 0.0 && cam.cameraMatrix.r1.y != 0.0
              && lm(q, InitialGuess(q, cam)) == Success(V2(r.value.x, r.value.y))
    ensures !checkConv && cam.cameraMatrix.r0.x != 0.0 && cam.cameraMatrix.r1.y != 0.0 ==>
              var w0 := InitialGuess(q, cam);
              (r.Success? <==> CvProject(V3(w0.x, w0.y, 1.0), cam, DefaultEps, m).Success?
                               && lm(q, w0).Success?)
    ensures checkConv && cam.cameraMatrix.r0.x != 0.0 && cam.cameraMatrix.r1.y != 0.0 ==>
              var w0 := InitialGuess(q, cam);
              (&& CvProject(V3(w0.x, w0.y, 1.0), cam, DefaultEps, m).Success?
               && lm(q, w0).Success?
               && var w := lm(q, w0).value;
                  && CvProject(V3(w.x, w.y, 1.0), cam, DefaultEps, m).Success?
                  && m.sqrt(Dist2(CvProject(V3(w.x, w.y, 1.0), cam, DefaultEps, m).value, q)) >= tolerance)
              ==> r == Failure(AssertionFailed)
    ensures ((cam.cameraMatrix.r0.x == 0.0 && q.x == cam.cameraMatrix.r0.z)
             || (cam.cameraMatrix.r1.y == 0.0 && q.y == cam.cameraMatrix.r1.z)) ==> r == Failure(NonFinite)
  {
    var (fx, fy, cx, cy) := (cam.cameraMatrix.r0.x, cam.cameraMatrix.r1.y,
                             cam.cameraMatrix.r0.z, cam.cameraMatrix.r1.z);
    if (fx == 0.0 && q.x == cx) || (fy == 0.0 && q.y == cy) then Failure(NonFinite)
    else if fx == 0.0 || fy == 0.0 then
      var ipar :- ToIpar(cam.cameraMatrix, cam.distortion);
      Failure(InfiniteRadius(ipar))
    else
      var w0 := InitialGuess(q, cam);
      var _ :- CvProject(V3(w0.x, w0.y, 1.0), cam, DefaultEps, m);
      var w :- lm(q, w0);
      var r := V3(w.x, w.y, 1.0);
      if !checkConv then Success(r)
      else
        var q' :- CvProject(r, cam, DefaultEps, m);
        if m.sqrt(Dist2(q', q)) < tolerance then Success(r) else Failure(AssertionFailed)
  }

  /** A zero focal length with the sensor point off the principal point
      sends an infinite guess into `cvcore`. Without k4 (fewer than six
      coefficients, or a zero sixth one) `ffd` is NaN there and the bare
      assertion fails, with the empty message `find_balls` reports for an
      image without balls. */
  lemma ZeroFocalLengthAsserts(q: V2, cam: Intrinsics, m: Math, lm: Solver, tolerance: real, checkConv: bool)
    requires cam.cameraMatrix.r0.x == 0.0 && q.x != cam.cameraMatrix.r0.z
    requires cam.cameraMatrix.r1.y != 0.0 || q.y != cam.cameraMatrix.r1.z
    requires 4 <= |cam.distortion| && (|cam.distortion| <= 5 || cam.distortion[5] == 0.0)
    ensures CvViewRay(q, cam, m, lm, tolerance, checkConv) == Failure(AssertionFailed)
    ensures Message(CvViewRay(q, cam, m, lm, tolerance, checkConv).error) == ""
  {
    var ipar := ToIpar(cam.cameraMatrix, cam.distortion).value;
    assert ipar[4 + 5] == 0.0;
  }

  /** The camera has no distortion and no tilt in any coefficient it stores. */
  predicate PinholeCamera(cam: Intrinsics) {
    && |cam.distortion| >= 4
    && (forall i :: 0 <= i < |cam.distortion| ==> cam.distortion[i] == 0.0)
    && cam.cameraMatrix.r0.x != 0.0 && cam.cameraMatrix.r1.y != 0.0
  }

  lemma PinholeCameraIpar(cam: Intrinsics)
    requires PinholeCamera(cam)
    ensures NoDistortion(ToIpar(cam.cameraMatrix, cam.distortion).value)
  {
    var ipar := ToIpar(cam.cameraMatrix, cam.distortion).value;
    forall i | 4 <= i < 18
      ensures ipar[i] == 0.0
    {
      assert ipar[4 + (i - 4)] == ipar[i];
    }
  }

  /** The normalised point of the direction (x, y, 1) is (-x, -y). */
  lemma NormalisedUnit(w: V2)
    ensures Normalised(V3(w.x, w.y, 1.0)) == V2(-w.x, -w.y)
  {
  }

  /** The normalised point of the direction (-x, -y, 1) is (x, y). */
  lemma NormalisedMirrored(w: V2)
    ensures Normalised(V3(-w.x, -w.y, 1.0)) == w
  {
  }

  /** For a pinhole camera, projecting the direction (x, y, 1) is the pinhole
      map at (-x, -y). */
  lemma CvProjectPinhole(w: V2, cam: Intrinsics, m: Math)
    requires m.sin(0.0) == 0.0 && m.cos(0.0) == 1.0 && PinholeCamera(cam)
    ensures CvProject(V3(w.x, w.y, 1.0), cam, DefaultEps, m)
            == Success(PinholeMap(V2(-w.x, -w.y), ToIpar(cam.cameraMatrix, cam.distortion).value))
  {
    var ipar := ToIpar(cam.cameraMatrix, cam.distortion).value;
    PinholeCameraIpar(cam);
    CvCorePinhole(V3(w.x, w.y, 1.0), ipar, DefaultEps, m);
    NormalisedUnit(w);
  }

  /** For a pinhole camera, projecting the direction (-x, -y, 1) is the
      pinhole map at (x, y). */
  lemma CvProjectMirrored(w: V2, cam: Intrinsics, m: Math)
    requires m.sin(0.0) == 0.0 && m.cos(0.0) == 1.0 && PinholeCamera(cam)
    ensures CvProject(V3(-w.x, -w.y, 1.0), cam, DefaultEps, m)
            == Success(PinholeMap(w, ToIpar(cam.cameraMatrix, cam.distortion).value))
  {
    var ipar := ToIpar(cam.cameraMatrix, cam.distortion).value;
    PinholeCameraIpar(cam);
    CvCorePinhole(V3(-w.x, -w.y, 1.0), ipar, DefaultEps, m);
    NormalisedMirrored(w);
  }

  /** The pinhole map hits q exactly at ((q.x - cx)/fx, (q.y - cy)/fy). */
  lemma PinholeMapInverse(n: V2, ipar: Ipar, q: V2)
    requires ipar[0] != 0.0 && ipar[1] != 0.0
    ensures PinholeMap(n, ipar) == q
            <==> n == V2((q.x - ipar[2]) / ipar[0], (q.y - ipar[3]) / ipar[1])
  {
    var (fx, fy, cx, cy) := (ipar[0], ipar[1], ipar[2], ipar[3]);
    if PinholeMap(n, ipar) == q {
      assert fx * n.x == q.x - cx && fy * n.y == q.y - cy;
      assert n.x == (q.x - cx) / fx && n.y == (q.y - cy) / fy;
    }
    if n == V2((q.x - cx) / fx, (q.y - cy) / fy) {
      assert fx * n.x == q.x - cx && fy * n.y == q.y - cy;
    }
  }

  /** The initial guess in terms of the packed parameters. */
  lemma InitialGuessIpar(q: V2, cam: Intrinsics)
    requires PinholeCamera(cam)
    ensures var ipar := ToIpar(cam.cameraMatrix, cam.distortion).value;
            && ipar[0] != 0.0 && ipar[1] != 0.0
            && InitialGuess(q, cam) == V2((q.x - ipar[2]) / ipar[0], (q.y - ipar[3]) / ipar[1])
  {
  }

  /** `a / f` equals `-(a / f)` only for a = 0. */
  lemma SelfNegation(a: real, f: real)
    requires f != 0.0
    ensures -(a / f) == a / f <==> a == 0.0
  {
    if a / f == -(a / f) {
      assert a / f == 0.0;
      assert a == (a / f) * f;
    }
  }

  /** In pinhole terms: the pinhole map takes the initial guess to q. */
  lemma PinholeMapGuessHits(q: V2, cam: Intrinsics)
    requires PinholeCamera(cam)
    ensures PinholeMap(InitialGuess(q, cam), ToIpar(cam.cameraMatrix, cam.distortion).value) == q
  {
    var ipar := ToIpar(cam.cameraMatrix, cam.distortion).value;
    InitialGuessIpar(q, cam);
    PinholeMapInverse(InitialGuess(q, cam), ipar, q);
  }

  /** In pinhole terms: the pinhole map takes the initial guess to q, and
      takes the mirrored guess to q only at the principal point. */
  lemma PinholeMapGuess(q: V2, cam: Intrinsics)
    requires PinholeCamera(cam)
    ensures var ipar := ToIpar(cam.cameraMatrix, cam.distortion).value;
            var w0 := InitialGuess(q, cam);
            && PinholeMap(w0, ipar) == q
            && (PinholeMap(V2(-w0.x, -w0.y), ipar) == q
                <==> q == V2(cam.cameraMatrix.r0.z, cam.cameraMatrix.r1.z))
  {
    var ipar := ToIpar(cam.cameraMatrix, cam.distortion).value;
    var w0 := InitialGuess(q, cam);
    InitialGuessIpar(q, cam);
    PinholeMapInverse(w0, ipar, q);
    PinholeMapInverse(V2(-w0.x, -w0.y), ipar, q);
    SelfNegation(q.x - ipar[2], ipar[0]);
    SelfNegation(q.y - ipar[3], ipar[1]);
  }

  /** In pinhole terms: a direction whose pinhole image at (-x, -y) is q is
      the mirrored initial guess. */
  lemma PinholeMapHit(q: V2, w: V2, cam: Intrinsics)
    requires PinholeCamera(cam)
    requires PinholeMap(V2(-w.x, -w.y), ToIpar(cam.cameraMatrix, cam.distortion).value) == q
    ensures w == V2(-InitialGuess(q, cam).x, -InitialGuess(q, cam).y)
  {
    var ipar := ToIpar(cam.cameraMatrix, cam.distortion).value;
    InitialGuessIpar(q, cam);
    PinholeMapInverse(V2(-w.x, -w.y), ipar, q);
  }

  /** The direction (-w0x, -w0y, 1) opposite to the initial guess. */
  function MirroredGuess(q: V2, cam: Intrinsics): V3
    requires cam.cameraMatrix.r0.x != 0.0 && cam.cameraMatrix.r1.y != 0.0
  {
    var w0 := InitialGuess(q, cam);
    V3(-w0.x, -w0.y, 1.0)
  }

  /** A point the pinhole map takes to q gives, mirrored, a direction that
      reprojects onto q. */
  lemma MirroredReprojects(q: V2, w: V2, cam: Intrinsics, m: Math)
    requires m.sin(0.0) == 0.0 && m.cos(0.0) == 1.0 && PinholeCamera(cam)
    requires PinholeMap(w, ToIpar(cam.cameraMatrix, cam.distortion).value) == q
    ensures CvProject(V3(-w.x, -w.y, 1.0), cam, DefaultEps, m) == Success(q)
  {
    CvProjectMirrored(w, cam, m);
  }

  /** For a pinhole camera the exact inverse of the projection is the
      NEGATED initial guess: (-w0x, -w0y, 1) reprojects onto q. */
  lemma {:induction false} MirroredGuessReprojects(q: V2, cam: Intrinsics, m: Math)
    requires m.sin(0.0) == 0.0 && m.cos(0.0) == 1.0 && PinholeCamera(cam)
    ensures CvProject(MirroredGuess(q, cam), cam, DefaultEps, m) == Success(q)
  {
    var w0 := InitialGuess(q, cam);
    PinholeMapGuessHits(q, cam);
    MirroredReprojects(q, w0, cam, m);
    assert MirroredGuess(q, cam) == V3(-w0.x, -w0.y, 1.0);
  }

  /** The initial guess (w0x, w0y, 1) itself reprojects onto q only when q
      is the principal point. */
  lemma {:induction false} InitialGuessMisses(q: V2, cam: Intrinsics, m: Math)
    requires m.sin(0.0) == 0.0 && m.cos(0.0) == 1.0 && PinholeCamera(cam)
    ensures var w0 := InitialGuess(q, cam);
            CvProject(V3(w0.x, w0.y, 1.0), cam, DefaultEps, m) == Success(q)
            <==> q == V2(cam.cameraMatrix.r0.z, cam.cameraMatrix.r1.z)
  {
    var w0 := InitialGuess(q, cam);
    var ipar := ToIpar(cam.cameraMatrix, cam.distortion).value;
    PinholeMapGuess(q, cam);
    assert PinholeMap(V2(-w0.x, -w0.y), ipar) == q
           <==> q == V2(cam.cameraMatrix.r0.z, cam.cameraMatrix.r1.z);
    CvProjectPinhole(w0, cam, m);
  }

  /** With a pinhole camera, (-w0x, -w0y, 1) is the only direction with
      z = 1 that reprojects exactly onto q. */
  lemma {:induction false} PinholeInverseUnique(q: V2, w: V2, cam: Intrinsics, m: Math)
    requires m.sin(0.0) == 0.0 && m.cos(0.0) == 1.0 && PinholeCamera(cam)
    requires CvProject(V3(w.x, w.y, 1.0), cam, DefaultEps, m) == Success(q)
    ensures w == V2(-InitialGuess(q, cam).x, -InitialGuess(q, cam).y)
  {
    CvProjectPinhole(w, cam, m);
    PinholeMapHit(q, w, cam);
  }
}
