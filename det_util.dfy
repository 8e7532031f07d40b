/** The single-camera sphere localisation of `app/ballfinder/det_util.py`:
    radial search for contour points around a 2D candidate circle, the cone
    of view rays through them, the closed-form first estimate of the ball
    centre, the residuals of the refinement, and the reprojection of the
    found ball as three rings of sensor points. The edge indicator built by
    `canny` and SciPy's least-squares solver are oracle parameters. */
module DetUtil {
  import opened Common
  import opened Vectors
  import opened OcvCam

  /** A candidate circle on the sensor: centre (x, y) and radius r, pixels. */
  datatype Candidate = Candidate(x: real, y: real, r: real)

  /** The `FindContours` section of the configuration. */
  datatype ContourSettings = ContourSettings(points: int, minRelScale: real, maxRelScale: real)

  /** `fun_c` of `canny`: the edge indicator at (row, column). `None` stands
      for the ValueError the interpolator raises outside the image. */
  type Indicator = (real, real) -> Option<real>

  /** A view ray: origin and direction. */
  datatype Ray = Ray(o: V3, r: V3)

  // ---------------------------------------------------------------------
  // np.linspace

  /** `np.linspace(start, stop, n)`: n equally spaced samples, both ends
      included; a negative count raises. */
  function Linspace(start: real, stop: real, n: int): (r: Result<seq<real>>)
    ensures r.Success? <==> n >= 0
    ensures r.Success? ==> |r.value| == n
    ensures r.Success? && n >= 1 ==> r.value[0] == start
    ensures r.Success? && n >= 2 ==> r.value[n - 1] == stop
    ensures r.Success? && n >= 2 ==>
              forall i :: 0 <= i < n - 1 ==> r.value[i + 1] - r.value[i] == (stop - start) / (n - 1) as real
  {
    if n < 0 then Failure(Raised("Number of samples must be non-negative."))
    else if n < 2 then Success(if n == 0 then [] else [start])
    else
      var step := (stop - start) / (n - 1) as real;
      var r := seq(n, i requires 0 <= i < n => if i == n - 1 then stop else start + i as real * step);
      LinspaceLast(start, stop, n);
      Success(r)
  }

  /** The last regular sample of `Linspace` would be `stop` anyway. */
  lemma LinspaceLast(start: real, stop: real, n: int)
    requires n >= 2
    ensures start + (n - 2) as real * ((stop - start) / (n - 1) as real) + (stop - start) / (n - 1) as real == stop
  {
    var step := (stop - start) / (n - 1) as real;
    assert (n - 2) as real * step + step == (n - 1) as real * step;
    assert (n - 1) as real * step == stop - start;
  }

  // ---------------------------------------------------------------------
  // find_radial

  /** The unit direction (sin a, cos a) of the angle a given in degrees. */
  function Direction(angDeg: real, m: Math): V2 {
    var a := angDeg * m.pi / 180.0;
    V2(m.sin(a), m.cos(a))
  }

  /** `rp(s)`: the point at distance s from the candidate centre. */
  function RayPoint(c: Candidate, dv: V2, s: real): V2 {
    V2(c.x + s * dv.x, c.y + s * dv.y)
  }

  /** `ef`: the indicator is indexed by (row, column), so the point is flipped. */
  function Edge(f: Indicator, p: V2): Option<real> {
    f(p.y, p.x)
  }

  /** The length of `np.arange(minS, maxS, 1.0)`. */
  function StepCount(minS: real, maxS: real): (n: nat)
    ensures n == 0 <==> maxS <= minS
    ensures n > 0 ==> minS + (n - 1) as real < maxS <= minS + n as real
  {
    if maxS <= minS then 0 else Ceil(maxS - minS)
  }

  /** Step k of the search: in the image and not on an edge. */
  predicate Passes(c: Candidate, f: Indicator, dv: V2, minS: real, k: nat) {
    var e := Edge(f, RayPoint(c, dv, minS + k as real));
    e.Some? && e.value <= 0.0
  }

  /** Step k is the first edge hit: every earlier step passes. */
  predicate FirstHit(c: Candidate, f: Indicator, dv: V2, minS: real, n: nat, k: nat) {
    var e := Edge(f, RayPoint(c, dv, minS + k as real));
    && k < n && e.Some? && e.value > 0.0
    && forall j: nat :: j < k ==> Passes(c, f, dv, minS, j)
  }

  /** The search from step k on: the first positive indicator value wins,
      and a step outside the image ends the search with nothing found. */
  function SearchFrom(c: Candidate, f: Indicator, dv: V2, minS: real, n: nat, k: nat): Option<V2>
    decreases n - k
  {
    if k >= n then None
    else
      var p := RayPoint(c, dv, minS + k as real);
      match Edge(f, p)
      case None => None
      case Some(v) => if v > 0.0 then Some(p) else SearchFrom(c, f, dv, minS, n, k + 1)
  }

  /** `min_s` and `max_s`: the search range, relative to the radius. */
  function MinStep(c: Candidate, st: ContourSettings): real { st.minRelScale * c.r }
  function MaxStep(c: Candidate, st: ContourSettings): real { st.maxRelScale * c.r }

  /** `find_radial` as a function of its inputs. */
  function RadialSearch(c: Candidate, f: Indicator, angDeg: real, st: ContourSettings, m: Math): Option<V2> {
    SearchFrom(c, f, Direction(angDeg, m), MinStep(c, st), StepCount(MinStep(c, st), MaxStep(c, st)), 0)
  }

  /** The search returns the point of the first hit, and finds something
      only when there is a first hit. */
  lemma {:induction false} SearchFromFirstHit(c: Candidate, f: Indicator, dv: V2, minS: real, n: nat, k0: nat)
    requires forall j: nat :: j < k0 ==> Passes(c, f, dv, minS, j)
    ensures forall k: nat :: k0 <= k && FirstHit(c, f, dv, minS, n, k) ==>
              SearchFrom(c, f, dv, minS, n, k0) == Some(RayPoint(c, dv, minS + k as real))
    ensures SearchFrom(c, f, dv, minS, n, k0).Some? ==>
              exists k: nat :: k0 <= k && FirstHit(c, f, dv, minS, n, k)
                && SearchFrom(c, f, dv, minS, n, k0) == Some(RayPoint(c, dv, minS + k as real))
    decreases n - k0
  {
    if k0 < n {
      var e := Edge(f, RayPoint(c, dv, minS + k0 as real));
      if e.Some? && e.value > 0.0 {
        assert FirstHit(c, f, dv, minS, n, k0);
        forall k: nat | k0 <= k && FirstHit(c, f, dv, minS, n, k)
          ensures k == k0
        {
          assert k0 < k ==> Passes(c, f, dv, minS, k0);
        }
      } else if e.Some? {
        assert Passes(c, f, dv, minS, k0);
        SearchFromFirstHit(c, f, dv, minS, n, k0 + 1);
        forall k: nat | k0 <= k && FirstHit(c, f, dv, minS, n, k)
          ensures k0 + 1 <= k
        {
        }
      } else {
        forall k: nat | k0 <= k
          ensures !FirstHit(c, f, dv, minS, n, k)
        {
          assert k0 < k ==> (FirstHit(c, f, dv, minS, n, k) ==> Passes(c, f, dv, minS, k0));
        }
      }
    }
  }

  /** `find_radial` returns the point of the first step whose indicator is
      positive, every earlier step lying inside the image, and None when
      there is no such step. */
  lemma RadialSearchFirstHit(c: Candidate, f: Indicator, angDeg: real, st: ContourSettings, m: Math)
    ensures var minS := MinStep(c, st);
            var n := StepCount(minS, MaxStep(c, st));
            var dv := Direction(angDeg, m);
            && (forall k: nat :: FirstHit(c, f, dv, minS, n, k) ==>
                  RadialSearch(c, f, angDeg, st, m) == Some(RayPoint(c, dv, minS + k as real)))
            && (RadialSearch(c, f, angDeg, st, m).Some? <==> exists k: nat :: FirstHit(c, f, dv, minS, n, k))
  {
    var minS := MinStep(c, st);
    var n := StepCount(minS, MaxStep(c, st));
    var dv := Direction(angDeg, m);
    SearchFromFirstHit(c, f, dv, minS, n, 0);
    if exists k: nat :: FirstHit(c, f, dv, minS, n, k) {
      var k: nat :| FirstHit(c, f, dv, minS, n, k);
      assert SearchFrom(c, f, dv, minS, n, 0) == Some(RayPoint(c, dv, minS + k as real));
    }
  }

  /** A step outside the image ends the search: if every step before j
      passes and step j is out of bounds, nothing is found, whatever the
      later steps hold. */
  lemma {:induction false} OutOfBoundsStops(c: Candidate, f: Indicator, dv: V2, minS: real, n: nat, k0: nat, j: nat)
    requires k0 <= j < n
    requires forall i: nat :: k0 <= i < j ==> Passes(c, f, dv, minS, i)
    requires Edge(f, RayPoint(c, dv, minS + j as real)).None?
    ensures SearchFrom(c, f, dv, minS, n, k0) == None
    decreases j - k0
  {
    if k0 < j {
      assert Passes(c, f, dv, minS, k0);
      OutOfBoundsStops(c, f, dv, minS, n, k0 + 1, j);
    }
  }

  /** `find_radial`: walk the ray in unit steps from `minRelScale * r` up to,
      not including, `maxRelScale * r`. */
  method FindRadial(c: Candidate, f: Indicator, angDeg: real, st: ContourSettings, m: Math)
    returns (pt: Option<V2>)
    ensures pt == RadialSearch(c, f, angDeg, st, m)
  {
    var minS, maxS := MinStep(c, st), MaxStep(c, st);
    var dv := Direction(angDeg, m);
    var n := StepCount(minS, maxS);
    var k := 0;
    while k < n
      invariant 0 <= k <= n
      invariant SearchFrom(c, f, dv, minS, n, k) == SearchFrom(c, f, dv, minS, n, 0)
    {
      var p := RayPoint(c, dv, minS + k as real);
      var v := Edge(f, p);
      if v.None? {
        break;
      }
      if v.value > 0.0 {
        return Some(p);
      }
      k := k + 1;
    }
    pt := None;
  }

  // ---------------------------------------------------------------------
  // find_contour

  /** The points found along the angles `angs`, in angle order, one per
      angle whose radial search hit. */
  function Hits(c: Candidate, f: Indicator, angs: seq<real>, st: ContourSettings, m: Math): seq<V2>
    decreases |angs|
  {
    if |angs| == 0 then []
    else
      var rest := Hits(c, f, angs[..|angs| - 1], st, m);
      match RadialSearch(c, f, angs[|angs| - 1], st, m)
      case None => rest
      case Some(p) => rest + [p]
  }

  /** `find_contour` as a function of its inputs. */
  function ContourOf(c: Candidate, f: Indicator, st: ContourSettings, m: Math): Result<seq<V2>> {
    var angs :- Linspace(0.0, 360.0, st.points);
    Success(Hits(c, f, angs, st, m))
  }

  /** `find_contour`: one radial search per angle of
      `np.linspace(0, 360, points)`, keeping the hits; a negative number of
      points raises. */
  method FindContour(c: Candidate, f: Indicator, st: ContourSettings, m: Math)
    returns (r: Result<seq<V2>>)
    ensures r.Success? <==> st.points >= 0
    ensures r.Success? ==> r.value == Hits(c, f, Linspace(0.0, 360.0, st.points).value, st, m)
    ensures r == ContourOf(c, f, st, m)
  {
    var angs :- Linspace(0.0, 360.0, st.points);
    var cont := [];
    for i := 0 to |angs|
      invariant cont == Hits(c, f, angs[..i], st, m)
    {
      assert angs[..i + 1][..i] == angs[..i];
      var pt := FindRadial(c, f, angs[i], st, m);
      if pt.None? {
        continue;
      }
      cont := cont + [pt.value];
    }
    assert angs[..|angs|] == angs;
    return Success(cont);
  }

  /** At most one point per angle. */
  lemma {:induction false} HitsBound(c: Candidate, f: Indicator, angs: seq<real>, st: ContourSettings, m: Math)
    ensures |Hits(c, f, angs, st, m)| <= |angs|
    decreases |angs|
  {
    if |angs| > 0 {
      HitsBound(c, f, angs[..|angs| - 1], st, m);
    }
  }

  /** Every point of the contour is the hit of one of the angles. */
  lemma {:induction false} HitsAreHits(c: Candidate, f: Indicator, angs: seq<real>, st: ContourSettings, m: Math)
    ensures forall p :: p in Hits(c, f, angs, st, m) ==>
              exists i :: 0 <= i < |angs| && RadialSearch(c, f, angs[i], st, m) == Some(p)
    decreases |angs|
  {
    if |angs| > 0 {
      var front := angs[..|angs| - 1];
      HitsAreHits(c, f, front, st, m);
      forall p | p in Hits(c, f, angs, st, m)
        ensures exists i :: 0 <= i < |angs| && RadialSearch(c, f, angs[i], st, m) == Some(p)
      {
        if p in Hits(c, f, front, st, m) {
          var i :| 0 <= i < |front| && RadialSearch(c, f, front[i], st, m) == Some(p);
          assert angs[i] == front[i];
        } else {
          assert RadialSearch(c, f, angs[|angs| - 1], st, m) == Some(p);
        }
      }
    }
  }

  /** The contour keeps the angle order: the hits of a concatenation of
      angle lists are the hits of the first followed by those of the second. */
  lemma {:induction false} HitsAppend(c: Candidate, f: Indicator, a: seq<real>, b: seq<real>, st: ContourSettings, m: Math)
    ensures Hits(c, f, a + b, st, m) == Hits(c, f, a, st, m) + Hits(c, f, b, st, m)
    decreases |b|
  {
    if |b| > 0 {
      var b' := b[..|b| - 1];
      assert (a + b)[..|a + b| - 1] == a + b';
      assert (a + b)[|a + b| - 1] == b[|b| - 1];
      HitsAppend(c, f, a, b', st, m);
    } else {
      assert a + b == a;
    }
  }

  /** Angle 360 is angle 0 again: `np.linspace(0, 360, points)` samples the
      same direction twice, so when the search at 0 degrees hits, the
      contour starts and ends with the same point. */
  lemma {:induction false} ContourRepeatsFirstPoint(c: Candidate, f: Indicator, st: ContourSettings, m: Math)
    requires Sound(m) && st.points >= 2
    requires RadialSearch(c, f, 0.0, st, m).Some?
    ensures var cont := Hits(c, f, Linspace(0.0, 360.0, st.points).value, st, m);
            |cont| >= 2 && cont[0] == cont[|cont| - 1] == RadialSearch(c, f, 0.0, st, m).value
  {
    var angs := Linspace(0.0, 360.0, st.points).value;
    var n := st.points;
    assert Direction(360.0, m) == Direction(0.0, m) by {
      assert 360.0 * m.pi / 180.0 == FullTurn(m);
      assert 0.0 * m.pi / 180.0 == 0.0;
    }
    var p := RadialSearch(c, f, 0.0, st, m).value;
    var mid := angs[1..n - 1];
    assert angs == [0.0] + mid + [360.0];
    HitsAppend(c, f, [0.0], mid, st, m);
    HitsAppend(c, f, [0.0] + mid, [360.0], st, m);
    assert Hits(c, f, [0.0], st, m) == [p] by {
      assert [0.0][..0] == [];
    }
    assert Hits(c, f, [360.0], st, m) == [p] by {
      assert [360.0][..0] == [];
    }
  }

  // ---------------------------------------------------------------------
  // valid_contour

  /** `valid_contour`: a contour is usable with more than four points; the
      configuration is not consulted. */
  predicate ValidContour(cont: seq<V2>) {
    |cont| > 4
  }

  // ---------------------------------------------------------------------
  // find_cone

  /** `cv_view_ray` with its default tolerance and no convergence check. */
  function ViewRay(q: V2, cam: Intrinsics, m: Math, lm: Solver): (r: Result<V3>)
    ensures r.Success? ==> r.value.z == 1.0
  {
    CvViewRay(q, cam, m, lm, DefaultTolerance, false)
  }

  /** The view rays through the sensor points `qs`, all from the origin,
      computed in order; the first failure is the result. */
  function Rays(qs: seq<V2>, cam: Intrinsics, m: Math, lm: Solver): Result<seq<Ray>>
    decreases |qs|
  {
    if |qs| == 0 then Success([])
    else
      var rs :- Rays(qs[..|qs| - 1], cam, m, lm);
      var r :- ViewRay(qs[|qs| - 1], cam, m, lm);
      Success(rs + [Ray(Zero3, r)])
  }

  function Centre(c: Candidate): V2 { V2(c.x, c.y) }

  /** `find_cone` as a function: the ray of the centre, then one per
      contour point. */
  function ConeOf(c: Candidate, cont: seq<V2>, cam: Intrinsics, m: Math, lm: Solver): Result<seq<Ray>> {
    Rays([Centre(c)] + cont, cam, m, lm)
  }

  /** Once a prefix of the points fails, the whole sequence fails with the
      same error. */
  lemma {:induction false} RaysPrefixFailure(qs: seq<V2>, k: nat, cam: Intrinsics, m: Math, lm: Solver)
    requires k <= |qs| && Rays(qs[..k], cam, m, lm).Failure?
    ensures Rays(qs, cam, m, lm) == Rays(qs[..k], cam, m, lm)
    decreases |qs|
  {
    if k < |qs| {
      var front := qs[..|qs| - 1];
      assert front[..k] == qs[..k];
      RaysPrefixFailure(front, k, cam, m, lm);
    } else {
      assert qs[..k] == qs;
    }
  }

  /** The rays succeed exactly when every point's view ray does; then ray i
      starts at the origin and points along the view ray of point i, and
      otherwise the error is that of the first point that failed. */
  lemma RaysSpec(qs: seq<V2>, cam: Intrinsics, m: Math, lm: Solver)
    ensures Rays(qs, cam, m, lm).Success? <==>
              forall i :: 0 <= i < |qs| ==> ViewRay(qs[i], cam, m, lm).Success?
    ensures Rays(qs, cam, m, lm).Success? ==>
              var rs := Rays(qs, cam, m, lm).value;
              |rs| == |qs| && forall i :: 0 <= i < |qs| ==> rs[i] == Ray(Zero3, ViewRay(qs[i], cam, m, lm).value)
    ensures Rays(qs, cam, m, lm).Failure? ==>
              exists i :: 0 <= i < |qs| && ViewRay(qs[i], cam, m, lm) == Failure(Rays(qs, cam, m, lm).error)
                && forall j :: 0 <= j < i ==> ViewRay(qs[j], cam, m, lm).Success?
  {
    RaysSuccess(qs, cam, m, lm);
    RaysFailure(qs, cam, m, lm);
  }

  /** The success half of `RaysSpec`, by induction on the points. */
  lemma {:induction false} RaysSuccess(qs: seq<V2>, cam: Intrinsics, m: Math, lm: Solver)
    ensures Rays(qs, cam, m, lm).Success? <==>
              forall i :: 0 <= i < |qs| ==> ViewRay(qs[i], cam, m, lm).Success?
    ensures Rays(qs, cam, m, lm).Success? ==>
              var rs := Rays(qs, cam, m, lm).value;
              |rs| == |qs| && forall i :: 0 <= i < |qs| ==> rs[i] == Ray(Zero3, ViewRay(qs[i], cam, m, lm).value)
    decreases |qs|
  {
    if |qs| > 0 {
      var front := qs[..|qs| - 1];
      RaysSuccess(front, cam, m, lm);
      assert forall i :: 0 <= i < |front| ==> front[i] == qs[i];
      var (rf, v) := (Rays(front, cam, m, lm), ViewRay(qs[|qs| - 1], cam, m, lm));
      if rf.Success? && v.Success? {
        assert Rays(qs, cam, m, lm) == Success(rf.value + [Ray(Zero3, v.value)]);
      }
    }
  }

  /** The failure half of `RaysSpec`, by induction on the points. */
  lemma {:induction false} RaysFailure(qs: seq<V2>, cam: Intrinsics, m: Math, lm: Solver)
    ensures Rays(qs, cam, m, lm).Failure? ==>
              exists i :: 0 <= i < |qs| && ViewRay(qs[i], cam, m, lm) == Failure(Rays(qs, cam, m, lm).error)
                && forall j :: 0 <= j < i ==> ViewRay(qs[j], cam, m, lm).Success?
    decreases |qs|
  {
    if |qs| > 0 {
      var front := qs[..|qs| - 1];
      RaysFailure(front, cam, m, lm);
      if Rays(front, cam, m, lm).Failure? {
        var i :| 0 <= i < |front| && ViewRay(front[i], cam, m, lm) == Failure(Rays(front, cam, m, lm).error)
                 && forall j :: 0 <= j < i ==> ViewRay(front[j], cam, m, lm).Success?;
        assert forall j :: 0 <= j <= i ==> front[j] == qs[j];
        assert ViewRay(qs[i], cam, m, lm) == Failure(Rays(qs, cam, m, lm).error);
      } else if ViewRay(qs[|qs| - 1], cam, m, lm).Failure? {
        RaysSuccess(front, cam, m, lm);
        assert forall j :: 0 <= j < |front| ==> front[j] == qs[j];
        assert ViewRay(qs[|qs| - 1], cam, m, lm) == Failure(Rays(qs, cam, m, lm).error);
      }
    }
  }

  /** The cone has one ray more than the contour has points: every ray
      starts at the camera centre, ray 0 belongs to the candidate centre and
      ray i + 1 to contour point i, and every direction has z = 1. */
  lemma ConeLayout(c: Candidate, cont: seq<V2>, cam: Intrinsics, m: Math, lm: Solver)
    requires ConeOf(c, cont, cam, m, lm).Success?
    ensures var cone := ConeOf(c, cont, cam, m, lm).value;
            && |cone| == |cont| + 1
            && (forall i :: 0 <= i < |cone| ==> cone[i].o == Zero3 && cone[i].r.z == 1.0)
            && ViewRay(Centre(c), cam, m, lm).Success?
            && cone[0].r == ViewRay(Centre(c), cam, m, lm).value
            && forall i :: 0 <= i < |cont| ==>
                 ViewRay(cont[i], cam, m, lm).Success? && cone[i + 1].r == ViewRay(cont[i], cam, m, lm).value
  {
    var qs := [Centre(c)] + cont;
    var cone := ConeOf(c, cont, cam, m, lm).value;
    RaysSpec(qs, cam, m, lm);
    assert qs[0] == Centre(c);
    forall i | 0 <= i < |cont|
      ensures ViewRay(cont[i], cam, m, lm).Success? && cone[i + 1].r == ViewRay(cont[i], cam, m, lm).value
    {
      assert qs[i + 1] == cont[i];
    }
  }

  /** `find_cone`: the view ray of the centre, then one per contour point,
      appended in order. */
  method FindCone(c: Candidate, cont: seq<V2>, cam: Intrinsics, m: Math, lm: Solver)
    returns (r: Result<seq<Ray>>)
    ensures r == ConeOf(c, cont, cam, m, lm)
  {
    var qs := [Centre(c)] + cont;
    var o := Zero3;
    var rc := ViewRay(Centre(c), cam, m, lm);
    assert qs[..1] == [Centre(c)];
    assert qs[..1][..0] == [];
    if rc.Failure? {
      RaysPrefixFailure(qs, 1, cam, m, lm);
      return Failure(rc.error);
    }
    var cone := [Ray(o, rc.value)];
    assert Rays(qs[..1], cam, m, lm) == Success([] + [Ray(Zero3, rc.value)]);
    assert [] + [Ray(Zero3, rc.value)] == cone;
    for i := 0 to |cont|
      invariant Rays(qs[..i + 1], cam, m, lm) == Success(cone)
    {
      assert qs[..i + 2][..i + 1] == qs[..i + 1];
      assert qs[i + 1] == cont[i];
      var v := ViewRay(cont[i], cam, m, lm);
      if v.Failure? {
        RaysPrefixFailure(qs, i + 2, cam, m, lm);
        return Failure(v.error);
      }
      cone := cone + [Ray(o, v.value)];
    }
    assert qs[..|cont| + 1] == qs;
    return Success(cone);
  }

  // ---------------------------------------------------------------------
  // fit_ball

  /** A 3D estimate; `NotFinite` stands for a point with NaN or infinite
      coordinates, which NumPy yields instead of raising. */
  datatype Estimate = Point(p: V3) | NotFinite

  /** The coefficients of `A ae^2 + B ae + C = 0`. */
  datatype Quadratic = Quadratic(a: real, b: real, c: real)

  /** The point at parameter t on a ray. */
  function OnRay(ray: Ray, t: real): V3 { Add(ray.o, Scale(t, ray.r)) }

  /** The quadratic in `ae` whose roots put `oe + ae re` at distance
      `radius` from the central ray (c: central ray, e: contour ray). */
  function Coefficients(c: Ray, e: Ray, radius: real): Quadratic {
    var d := Sub(c.o, e.o);
    var (rere, rcrc, dd) := (Dot(e.r, e.r), Dot(c.r, c.r), Dot(d, d));
    var (rerc, dre, drc) := (Dot(e.r, c.r), Dot(d, e.r), Dot(d, c.r));
    Quadratic(rere * rcrc - rerc * rerc,
              2.0 * (drc * rerc - dre * rcrc),
              dd * rcrc - drc * drc - radius * radius * rcrc)
  }

  function Discriminant(q: Quadratic): real { q.b * q.b - 4.0 * q.a * q.c }

  /** The root with `+sqrt`, the larger one when A > 0. */
  function LargerRoot(q: Quadratic, m: Math): real
    requires q.a != 0.0
  {
    (-q.b + m.sqrt(Discriminant(q))) / (2.0 * q.a)
  }

  /** `ac`: the parameter of the foot of the perpendicular from p onto the
      line of the ray. */
  function FootParameter(ray: Ray, p: V3): real
    requires Dot(ray.r, ray.r) != 0.0
  {
    -Dot(Sub(ray.o, p), ray.r) / Dot(ray.r, ray.r)
  }

  /** Every divisor of `fit_ball` is nonzero and the square root is real. */
  predicate FitDefined(c: Ray, e: Ray, radius: real) {
    var q := Coefficients(c, e, radius);
    q.a != 0.0 && Discriminant(q) >= 0.0 && Dot(c.r, c.r) != 0.0
  }

  /** `pe`: the point on the contour ray at the larger root. */
  function ContactPoint(c: Ray, e: Ray, radius: real, m: Math): V3
    requires FitDefined(c, e, radius)
  {
    OnRay(e, LargerRoot(Coefficients(c, e, radius), m))
  }

  /** `fit_ball`: the first estimate of the ball centre from the central ray
      and the first contour ray. A zero `A`, a negative discriminant or a
      zero central direction makes NumPy produce NaN/inf, not an exception. */
  function FitBall(cone: seq<Ray>, radius: real, m: Math): (r: Result<Estimate>)
    ensures r.Failure? <==> |cone| < 2
    ensures r.Failure? ==> r.error == IndexOutOfRange
    ensures r.Success? ==> (r.value.Point? <==> FitDefined(cone[0], cone[1], radius))
  {
    if |cone| < 2 then Failure(IndexOutOfRange)
    else if !FitDefined(cone[0], cone[1], radius) then Success(NotFinite)
    else
      var pe := ContactPoint(cone[0], cone[1], radius, m);
      Success(Point(OnRay(cone[0], FootParameter(cone[0], pe))))
  }

  /** A = |re x rc|^2: never negative, and zero exactly when the two
      directions are parallel. */
  lemma CoefficientA(c: Ray, e: Ray, radius: real)
    ensures Coefficients(c, e, radius).a == Dot(Cross(e.r, c.r), Cross(e.r, c.r))
    ensures Coefficients(c, e, radius).a >= 0.0
    ensures Coefficients(c, e, radius).a == 0.0 <==> Cross(e.r, c.r) == Zero3
  {
    Lagrange(e.r, c.r);
    DotSymmetric(e.r, c.r);
    DotNonNegative(Cross(e.r, c.r));
    DotZero(Cross(e.r, c.r));
  }

  /** The root formula solves the quadratic. */
  lemma RootSolves(q: Quadratic, s: real)
    requires q.a != 0.0 && s * s == Discriminant(q)
    ensures var t := (-q.b + s) / (2.0 * q.a);
            q.a * t * t + q.b * t + q.c == 0.0
  {
    var t := (-q.b + s) / (2.0 * q.a);
    var u := 2.0 * q.a * t;
    assert u == s - q.b;
    assert 4.0 * q.a * (q.a * t * t + q.b * t + q.c) == u * u + 2.0 * q.b * u + 4.0 * q.a * q.c;
    assert u * u + 2.0 * q.b * u + 4.0 * q.a * q.c == s * s - q.b * q.b + 4.0 * q.a * q.c;
  }

  /** The foot of the perpendicular: the offset from it to p is orthogonal
      to the ray, and its squared length times |r|^2 is
      |u|^2 |r|^2 - (u.r)^2 with u = o - p. */
  lemma FootOfPerpendicular(ray: Ray, p: V3)
    requires Dot(ray.r, ray.r) != 0.0
    ensures var d := Sub(p, OnRay(ray, FootParameter(ray, p)));
            var u := Sub(ray.o, p);
            && Dot(d, ray.r) == 0.0
            && Dot(d, d) * Dot(ray.r, ray.r) == Dot(u, u) * Dot(ray.r, ray.r) - Dot(u, ray.r) * Dot(u, ray.r)
  {
    var r, t := ray.r, FootParameter(ray, p);
    var u, v := Sub(ray.o, p), Sub(p, ray.o);
    var d := Sub(p, OnRay(ray, t));
    assert Dot(v, v) == Dot(u, u) && Dot(v, r) == -Dot(u, r) by {
      assert v == Scale(-1.0, u);
      DotScale(-1.0, u, r);
      DotScale(-1.0, u, v);
      DotScale(-1.0, u, u);
    }
    assert Dot(d, d) == Dot(v, v) - 2.0 * t * Dot(v, r) + t * t * Dot(r, r)
           && Dot(d, r) == Dot(v, r) - t * Dot(r, r) by {
      assert d == Sub(v, Scale(t, r));
      DotDifference(v, r, t);
      DotDifferenceWith(v, r, t, r);
    }
    FootScalar(Dot(v, v), Dot(v, r), Dot(r, r), t, Dot(d, d), Dot(d, r));
  }

  /** The scalar core of the foot of the perpendicular: with t = (v.r)/|r|^2,
      |v - t r|^2 |r|^2 = |v|^2 |r|^2 - (v.r)^2 and (v - t r).r = 0. */
  lemma FootScalar(vv: real, vr: real, rr: real, t: real, dd: real, dr: real)
    requires rr != 0.0 && t == vr / rr
    requires dd == vv - 2.0 * t * vr + t * t * rr && dr == vr - t * rr
    ensures dr == 0.0 && dd * rr == vv * rr - vr * vr
  {
    assert t * rr == vr;
    assert dd * rr == vv * rr - 2.0 * vr * (t * rr) + (t * rr) * (t * rr);
  }

  /** The quadratic of `fit_ball` is the distance condition multiplied out:
      for pe = oe + ae re and u = oc - pe,
      |u|^2 |rc|^2 - (u.rc)^2 - R^2 |rc|^2 = A ae^2 + B ae + C. */
  lemma QuadraticIsDistance(c: Ray, e: Ray, radius: real, ae: real)
    ensures var q := Coefficients(c, e, radius);
            var u := Sub(c.o, OnRay(e, ae));
            var rr := Dot(c.r, c.r);
            Dot(u, u) * rr - Dot(u, c.r) * Dot(u, c.r) - radius * radius * rr
              == q.a * ae * ae + q.b * ae + q.c
  {
    var d := Sub(c.o, e.o);
    var u := Sub(c.o, OnRay(e, ae));
    var dd, dre, rere := Dot(d, d), Dot(d, e.r), Dot(e.r, e.r);
    var drc, rerc, rr := Dot(d, c.r), Dot(e.r, c.r), Dot(c.r, c.r);
    assert Dot(u, u) == dd - 2.0 * ae * dre + ae * ae * rere && Dot(u, c.r) == drc - ae * rerc by {
      assert u == Sub(d, Scale(ae, e.r));
      DotDifference(d, e.r, ae);
      DotDifferenceWith(d, e.r, ae, c.r);
    }
    var q := Coefficients(c, e, radius);
    assert q.a == rere * rr - rerc * rerc && q.b == 2.0 * (drc * rerc - dre * rr)
           && q.c == dd * rr - drc * drc - radius * radius * rr;
    ScalarQuadratic(Dot(u, u), Dot(u, c.r), dd, dre, rere, drc, rerc, rr, ae, radius);
  }

  /** The scalar core: the squared distance multiplied out in `ae`. */
  lemma ScalarQuadratic(uu: real, urc: real, dd: real, dre: real, rere: real, drc: real, rerc: real, rr: real,
                        ae: real, radius: real)
    requires uu == dd - 2.0 * ae * dre + ae * ae * rere && urc == drc - ae * rerc
    ensures uu * rr - urc * urc - radius * radius * rr
            == (rere * rr - rerc * rerc) * ae * ae + 2.0 * (drc * rerc - dre * rr) * ae
               + (dd * rr - drc * drc - radius * radius * rr)
  {
  }

  /** The geometry behind `fit_ball`: the estimate pc lies on the central
      ray, the contact point pe on the contour ray sits at distance
      `radius` from pc, and pe - pc is perpendicular to the central ray. */
  lemma FitBallGeometry(cone: seq<Ray>, radius: real, m: Math)
    requires Sound(m) && |cone| >= 2 && FitDefined(cone[0], cone[1], radius)
    ensures var pe := ContactPoint(cone[0], cone[1], radius, m);
            var pc := FitBall(cone, radius, m).value.p;
            && pc == OnRay(cone[0], FootParameter(cone[0], pe))
            && pe == OnRay(cone[1], LargerRoot(Coefficients(cone[0], cone[1], radius), m))
            && Dot(Sub(pe, pc), cone[0].r) == 0.0
            && Dot(Sub(pe, pc), Sub(pe, pc)) == radius * radius
  {
    var c, e := cone[0], cone[1];
    var q := Coefficients(c, e, radius);
    var s := m.sqrt(Discriminant(q));
    assert s * s == Discriminant(q);
    var ae := LargerRoot(q, m);
    RootSolves(q, s);
    QuadraticIsDistance(c, e, radius, ae);
    var pe := ContactPoint(c, e, radius, m);
    FootOfPerpendicular(c, pe);
    var d := Sub(pe, OnRay(c, FootParameter(c, pe)));
    var rr := Dot(c.r, c.r);
    assert Dot(d, d) * rr == radius * radius * rr;
    assert Dot(d, d) == radius * radius by {
      assert (Dot(d, d) - radius * radius) * rr == 0.0;
    }
  }

  // ---------------------------------------------------------------------
  // refine_ball

  /** `d` of `rpdist`: from p to the foot of the perpendicular on the
      line of the ray. */
  function Perpendicular(ray: Ray, p: V3): V3
    requires Dot(ray.r, ray.r) != 0.0
  {
    Add(Sub(ray.o, p), Scale(FootParameter(ray, p), ray.r))
  }

  /** `rpdist`: the distance between the line of a ray and a point. */
  function Rpdist(ray: Ray, p: V3, m: Math): real
    requires Dot(ray.r, ray.r) != 0.0
  {
    var d := Perpendicular(ray, p);
    m.sqrt(Dot(d, d))
  }

  /** The offset to the foot of the perpendicular is orthogonal to the ray. */
  lemma PerpendicularOrthogonal(ray: Ray, p: V3)
    requires Dot(ray.r, ray.r) != 0.0
    ensures Dot(Perpendicular(ray, p), ray.r) == 0.0
  {
    var u, a := Sub(ray.o, p), FootParameter(ray, p);
    DotAdd(u, Scale(a, ray.r), ray.r);
    DotScale(a, ray.r, ray.r);
    assert a * Dot(ray.r, ray.r) == -Dot(u, ray.r);
  }

  /** `rpdist` is the least distance from p to a point of the line: never
      negative, and its square is at most the squared distance from p to
      the point at any parameter t. */
  lemma {:induction false} RpdistMinimal(ray: Ray, p: V3, t: real, m: Math)
    requires Sound(m) && Dot(ray.r, ray.r) != 0.0
    ensures Rpdist(ray, p, m) >= 0.0
    ensures var e := Sub(OnRay(ray, t), p);
            Rpdist(ray, p, m) * Rpdist(ray, p, m) <= Dot(e, e)
  {
    var w, a := Perpendicular(ray, p), FootParameter(ray, p);
    var e := Sub(OnRay(ray, t), p);
    LineOffset(ray, p, a, t);
    PerpendicularOrthogonal(ray, p);
    OrthogonalOffset(w, ray.r, a - t);
    DotNonNegative(w);
    assert Dot(e, e) >= Dot(w, w);
  }

  /** The offset from p to the point at t, split into the perpendicular
      part and a multiple of the direction. */
  lemma LineOffset(ray: Ray, p: V3, a: real, t: real)
    ensures Sub(OnRay(ray, t), p) == Sub(Add(Sub(ray.o, p), Scale(a, ray.r)), Scale(a - t, ray.r))
  {
  }

  /** Moving along v from a point w orthogonal to v only adds length. */
  lemma OrthogonalOffset(w: V3, v: V3, s: real)
    requires Dot(w, v) == 0.0
    ensures Dot(Sub(w, Scale(s, v)), Sub(w, Scale(s, v))) >= Dot(w, w)
  {
    DotDifference(w, v, s);
    DotNonNegative(v);
    SquareSign(s);
    NonNegativeProduct(Prod(s, s), Dot(v, v));
    assert s * s * Dot(v, v) == Prod(s, s) * Dot(v, v);
  }

  lemma NonNegativeProduct(a: real, b: real)
    requires a >= 0.0 && b >= 0.0
    ensures a * b >= 0.0
  {
  }

  /** Scaling the direction by a nonzero factor leaves the distance alone. */
  lemma RpdistScale(ray: Ray, k: real, p: V3, m: Math)
    requires Dot(ray.r, ray.r) != 0.0 && k != 0.0
    ensures Dot(Scale(k, ray.r), Scale(k, ray.r)) != 0.0
    ensures Rpdist(Ray(ray.o, Scale(k, ray.r)), p, m) == Rpdist(ray, p, m)
  {
    var kr := Scale(k, ray.r);
    FootParameterScale(ray, k, p);
    var b := FootParameter(Ray(ray.o, kr), p);
    assert Scale(b, kr) == Scale(b * k, ray.r);
    assert Scale(b, kr) == Scale(FootParameter(ray, p), ray.r);
    assert Perpendicular(Ray(ray.o, kr), p) == Perpendicular(ray, p);
  }

  /** Scaling the direction by k divides the foot parameter by k. */
  lemma FootParameterScale(ray: Ray, k: real, p: V3)
    requires Dot(ray.r, ray.r) != 0.0 && k != 0.0
    ensures Dot(Scale(k, ray.r), Scale(k, ray.r)) != 0.0
    ensures FootParameter(Ray(ray.o, Scale(k, ray.r)), p) * k == FootParameter(ray, p)
  {
    var r, u := ray.r, Sub(ray.o, p);
    var ur, rr := Dot(u, r), Dot(r, r);
    ScaledDots(u, r, k);
    ScaledNonZero(k, rr);
    DivCancel(k, -ur, k * rr);
    DivTimes(-ur, k, rr);
  }

  lemma ScaledNonZero(k: real, rr: real)
    requires k != 0.0 && rr != 0.0
    ensures k * (k * rr) != 0.0
  {
    NonZeroProduct(k, rr);
    NonZeroProduct(k, k * rr);
  }

  /** The dot products of the scaled direction kr. */
  lemma ScaledDots(u: V3, r: V3, k: real)
    ensures Dot(Sub(u, Zero3), Scale(k, r)) == k * Dot(u, r)
    ensures Dot(u, Scale(k, r)) == k * Dot(u, r)
    ensures Dot(Scale(k, r), Scale(k, r)) == k * (k * Dot(r, r))
  {
    DotScale(k, u, r);
    DotScale(k, r, Scale(k, r));
    DotScale(k, r, r);
    assert Sub(u, Zero3) == u;
  }

  lemma DivTimes(n: real, k: real, d: real)
    requires k != 0.0 && d != 0.0
    ensures (n / (k * d)) * k == n / d
  {
    NonZeroProduct(k, d);
    var x := n / (k * d);
    assert x * (k * d) == n;
    assert (x * k) * d == n;
  }

  lemma NonZeroProduct(a: real, b: real)
    requires a != 0.0 && b != 0.0
    ensures a * b != 0.0
  {
  }

  /** A point on the line of a ray is at distance zero from it. */
  lemma RpdistOnLine(ray: Ray, t: real, m: Math)
    requires Sound(m) && Dot(ray.r, ray.r) != 0.0
    ensures Rpdist(ray, OnRay(ray, t), m) == 0.0
  {
    var p := OnRay(ray, t);
    RpdistMinimal(ray, p, t, m);
    assert Sub(p, p) == Zero3;
    var d := Rpdist(ray, p, m);
    SquareSign(d);
  }

  /** The rays of a cone that `errf` uses: all but the central one. */
  function ContourRays(cone: seq<Ray>): seq<Ray> {
    if |cone| == 0 then [] else cone[1..]
  }

  /** Every ray has a nonzero direction, so `rpdist` divides by a nonzero
      number and every residual is finite. */
  predicate Proper(rays: seq<Ray>) {
    forall i :: 0 <= i < |rays| ==> Dot(rays[i].r, rays[i].r) != 0.0
  }

  /** `errf`: for each contour ray, its distance to p less the radius. */
  function Errf(rays: seq<Ray>, radius: real, p: V3, m: Math): (e: seq<real>)
    requires Proper(rays)
    ensures |e| == |rays|
  {
    seq(|rays|, i requires 0 <= i < |rays| => Rpdist(rays[i], p, m) - radius)
  }

  /** `errf` as the function handed to the solver. */
  function Residuals(cone: seq<Ray>, radius: real, m: Math): V3 -> seq<real>
    requires Proper(ContourRays(cone))
  {
    p => Errf(ContourRays(cone), radius, p, m)
  }

  /** SciPy's `least_squares(errf, x0, method="lm")`: given the residual
      function and the start point, the optimum or the exception raised. */
  type Refiner = (V3 -> seq<real>, V3) -> Result<V3>

  /** The Levenberg-Marquardt method needs at least as many residuals as
      the three unknowns of the ball centre. */
  const TooFewResiduals := "Method 'lm' doesn't work when the number of residuals is less than the number of variables."

  /** `refine_ball`: least squares on the contour residuals, from the first
      estimate. SciPy refuses a non-finite start point or non-finite
      residuals at it, and fewer residuals than unknowns. */
  function RefineBall(ball: Estimate, cone: seq<Ray>, radius: real, m: Math, ls: Refiner): (r: Result<V3>)
    ensures ball.NotFinite? || !Proper(ContourRays(cone)) ==> r == Failure(NonFinite)
    ensures ball.Point? && Proper(ContourRays(cone)) && |cone| < 4 ==> r == Failure(Raised(TooFewResiduals))
    ensures r.Success? ==>
              && ball.Point? && Proper(ContourRays(cone)) && |cone| >= 4
              && r == ls(Residuals(cone, radius, m), ball.p)
  {
    if ball.NotFinite? then Failure(NonFinite)
    else if !Proper(ContourRays(cone)) then Failure(NonFinite)
    else if |ContourRays(cone)| < 3 then Failure(Raised(TooFewResiduals))
    else ls(Residuals(cone, radius, m), ball.p)
  }

  /** The central ray plays no part in the refinement: cones that differ
      only in ray 0 refine to the same ball. */
  lemma RefineIgnoresCentralRay(ball: Estimate, cone: seq<Ray>, cone': seq<Ray>, radius: real, m: Math, ls: Refiner)
    requires |cone| >= 1 && |cone'| >= 1 && cone[1..] == cone'[1..]
    ensures RefineBall(ball, cone, radius, m, ls) == RefineBall(ball, cone', radius, m, ls)
  {
    assert ContourRays(cone) == ContourRays(cone');
    assert |cone| == |cone'|;
  }

  /** The rays of a found cone all have the direction z = 1, so their
      residuals are always defined. */
  lemma ConeIsProper(c: Candidate, cont: seq<V2>, cam: Intrinsics, m: Math, lm: Solver)
    requires ConeOf(c, cont, cam, m, lm).Success?
    ensures Proper(ConeOf(c, cont, cam, m, lm).value)
    ensures Proper(ContourRays(ConeOf(c, cont, cam, m, lm).value))
  {
    var cone := ConeOf(c, cont, cam, m, lm).value;
    ConeLayout(c, cont, cam, m, lm);
    UnitDepthProper(cone);
    UnitDepthProper(ContourRays(cone));
  }

  /** Rays at depth 1 have nonzero directions. */
  lemma UnitDepthProper(rays: seq<Ray>)
    requires forall i :: 0 <= i < |rays| ==> rays[i].r.z == 1.0
    ensures Proper(rays)
  {
    forall i | 0 <= i < |rays|
      ensures Dot(rays[i].r, rays[i].r) != 0.0
    {
      var v := rays[i].r;
      SquareSign(v.x);
      SquareSign(v.y);
      assert Dot(v, v) == Prod(v.x, v.x) + Prod(v.y, v.y) + 1.0;
    }
  }

  /** The first estimate already fits the first contour ray: the contact
      point lies on that ray at distance `radius` from the estimate, so the
      first residual of `errf` at the estimate is never positive. */
  lemma FitBallFirstResidual(cone: seq<Ray>, radius: real, m: Math)
    requires Sound(m) && |cone| >= 2 && FitDefined(cone[0], cone[1], radius)
    requires Proper(ContourRays(cone)) && radius >= 0.0
    ensures Errf(ContourRays(cone), radius, FitBall(cone, radius, m).value.p, m)[0] <= 0.0
  {
    var pc := FitBall(cone, radius, m).value.p;
    var e := cone[1];
    assert ContourRays(cone)[0] == e;
    var ae := LargerRoot(Coefficients(cone[0], e, radius), m);
    FitBallGeometry(cone, radius, m);
    var pe := OnRay(e, ae);
    RpdistMinimal(e, pc, ae, m);
    var d := Rpdist(e, pc, m);
    assert d * d <= radius * radius;
    if d > radius {
      MulPositive(d - radius, d + radius);
      assert false;
    }
  }

  // ---------------------------------------------------------------------
  // project_center

  /** `project_center`: the sensor point of the ball centre; the candidate
      and the radius are not used. */
  function ProjectCenter(ball: V3, cand: Candidate, radius: real, cam: Intrinsics, m: Math): Result<V2> {
    CvProject(ball, cam, DefaultEps, m)
  }

  /** A ball centre on a view ray from the camera centre projects to the
      same sensor point as the ray's direction. */
  lemma ProjectCenterOnRay(ray: Ray, t: real, cand: Candidate, radius: real, cam: Intrinsics, m: Math)
    requires ray.o == Zero3 && ray.r.z != 0.0 && t != 0.0
    ensures ProjectCenter(OnRay(ray, t), cand, radius, cam, m) == CvProject(ray.r, cam, DefaultEps, m)
  {
    assert OnRay(ray, t) == Scale(t, ray.r);
    if |cam.distortion| >= 4 {
      CvCoreScaleInvariant(ray.r, t, ToIpar(cam.cameraMatrix, cam.distortion).value, DefaultEps, m);
    }
  }

  // ---------------------------------------------------------------------
  // project_contour

  /** The offset of a ring point cut parallel to plane 0 (x = 0), 1 (y = 0)
      or 2 (z = 0). */
  function RingOffset(plane: int, u: real, v: real): V3 {
    if plane == 0 then V3(0.0, u, v)
    else if plane == 1 then V3(u, 0.0, v)
    else V3(u, v, 0.0)
  }

  /** The points `ball + offset(u, v)` for the pairs of `zip(us, vs)`. */
  function Ring(ball: V3, plane: int, us: seq<real>, vs: seq<real>): (ps: seq<V3>)
    requires |us| == |vs|
    ensures |ps| == |us|
  {
    seq(|us|, j requires 0 <= j < |us| => Add(ball, RingOffset(plane, us[j], vs[j])))
  }

  /** `us` and `vs`: the radius times the sines and the cosines of the
      angles. */
  function Sines(radius: real, angs: seq<real>, m: Math): (us: seq<real>)
    ensures |us| == |angs|
  {
    seq(|angs|, i requires 0 <= i < |angs| => radius * m.sin(angs[i]))
  }

  function Cosines(radius: real, angs: seq<real>, m: Math): (vs: seq<real>)
    ensures |vs| == |angs|
  {
    seq(|angs|, i requires 0 <= i < |angs| => radius * m.cos(angs[i]))
  }

  /** The 3D points `project_contour` projects, in order: the centre, then
      each ring followed by the centre again. */
  function ContourTargets(ball: V3, us: seq<real>, vs: seq<real>): (t: seq<V3>)
    requires |us| == |vs|
    ensures |t| == 3 * |us| + 4
  {
    [ball] + Ring(ball, 0, us, vs) + [ball] + Ring(ball, 1, us, vs) + [ball] + Ring(ball, 2, us, vs) + [ball]
  }

  /** `cv_project` applied to each point in order; the first failure is the
      result. */
  function ProjectAll(ps: seq<V3>, cam: Intrinsics, m: Math): (r: Result<seq<V2>>)
    ensures r.Success? ==> |r.value| == |ps|
    decreases |ps|
  {
    if |ps| == 0 then Success([])
    else
      var qs :- ProjectAll(ps[..|ps| - 1], cam, m);
      var q :- CvProject(ps[|ps| - 1], cam, DefaultEps, m);
      Success(qs + [q])
  }

  /** `project_contour` as a function of its inputs. */
  function ContourProjection(ball: V3, radius: real, cam: Intrinsics, points: int, m: Math): (r: Result<seq<V2>>)
    ensures r.Success? ==> points >= 0 && |r.value| == 3 * points + 4
  {
    var angs :- Linspace(0.0, FullTurn(m), points);
    ProjectAll(ContourTargets(ball, Sines(radius, angs, m), Cosines(radius, angs, m)), cam, m)
  }

  /** Once some points fail, appending more points keeps the same error. */
  lemma ProjectAllAppendFailure(a: seq<V3>, b: seq<V3>, cam: Intrinsics, m: Math)
    requires ProjectAll(a, cam, m).Failure?
    ensures ProjectAll(a + b, cam, m) == ProjectAll(a, cam, m)
    decreases |b|
  {
    if |b| > 0 {
      var ab := a + b;
      assert ab[..|ab| - 1] == a + b[..|b| - 1];
      ProjectAllAppendFailure(a, b[..|b| - 1], cam, m);
    } else {
      assert a + b == a;
    }
  }

  /** Appending one point whose projection succeeds appends its projection. */
  lemma ProjectAllAppendOne(a: seq<V3>, p: V3, cam: Intrinsics, m: Math)
    ensures ProjectAll(a, cam, m).Failure? ==> ProjectAll(a + [p], cam, m) == ProjectAll(a, cam, m)
    ensures ProjectAll(a, cam, m).Success? && CvProject(p, cam, DefaultEps, m).Failure? ==>
              ProjectAll(a + [p], cam, m) == Failure(CvProject(p, cam, DefaultEps, m).error)
    ensures ProjectAll(a, cam, m).Success? && CvProject(p, cam, DefaultEps, m).Success? ==>
              ProjectAll(a + [p], cam, m) == Success(ProjectAll(a, cam, m).value + [CvProject(p, cam, DefaultEps, m).value])
  {
    assert (a + [p])[..|a|] == a;
  }

  /** The projections succeed exactly when every point's does; then
      projection i is that of point i, and otherwise the error is that of
      the first point that failed. */
  lemma {:induction false} ProjectAllSpec(ps: seq<V3>, cam: Intrinsics, m: Math)
    ensures ProjectAll(ps, cam, m).Success? <==>
              forall i :: 0 <= i < |ps| ==> CvProject(ps[i], cam, DefaultEps, m).Success?
    ensures ProjectAll(ps, cam, m).Success? ==>
              var qs := ProjectAll(ps, cam, m).value;
              |qs| == |ps| && forall i :: 0 <= i < |ps| ==> qs[i] == CvProject(ps[i], cam, DefaultEps, m).value
    ensures ProjectAll(ps, cam, m).Failure? ==>
              exists i :: 0 <= i < |ps| && CvProject(ps[i], cam, DefaultEps, m) == Failure(ProjectAll(ps, cam, m).error)
                && forall j :: 0 <= j < i ==> CvProject(ps[j], cam, DefaultEps, m).Success?
    decreases |ps|
  {
    if |ps| > 0 {
      var front := ps[..|ps| - 1];
      ProjectAllSpec(front, cam, m);
      assert forall i :: 0 <= i < |front| ==> front[i] == ps[i];
      if ProjectAll(front, cam, m).Failure? {
        var i :| 0 <= i < |front| && CvProject(front[i], cam, DefaultEps, m) == Failure(ProjectAll(front, cam, m).error)
                 && forall j :: 0 <= j < i ==> CvProject(front[j], cam, DefaultEps, m).Success?;
        assert CvProject(ps[i], cam, DefaultEps, m) == Failure(ProjectAll(ps, cam, m).error);
      } else if CvProject(ps[|ps| - 1], cam, DefaultEps, m).Failure? {
        assert CvProject(ps[|ps| - 1], cam, DefaultEps, m) == Failure(ProjectAll(ps, cam, m).error);
      }
    }
  }

  /** One loop of `project_contour`: project the ring points of one plane
      and append them to the points projected so far. */
  method ProjectRing(ball: V3, plane: int, us: seq<real>, vs: seq<real>, cam: Intrinsics, m: Math,
                     ghost done: seq<V3>, acc: seq<V2>)
    returns (r: Result<seq<V2>>)
    requires |us| == |vs| && ProjectAll(done, cam, m) == Success(acc)
    ensures r == ProjectAll(done + Ring(ball, plane, us, vs), cam, m)
  {
    ghost var ring := Ring(ball, plane, us, vs);
    var cont := acc;
    assert done + ring[..0] == done;
    for j := 0 to |us|
      invariant ProjectAll(done + ring[..j], cam, m) == Success(cont)
    {
      var q := CvProject(Add(ball, RingOffset(plane, us[j], vs[j])), cam, DefaultEps, m);
      ProjectRingStep(done, ring, j, cam, m);
      if q.Failure? {
        return Failure(q.error);
      }
      cont := cont + [q.value];
    }
    assert ring[..|us|] == ring;
    return Success(cont);
  }

  /** One step of that loop: the next point's projection is appended, or
      its failure is the failure of the whole. */
  lemma ProjectRingStep(done: seq<V3>, ring: seq<V3>, j: int, cam: Intrinsics, m: Math)
    requires 0 <= j < |ring| && ProjectAll(done + ring[..j], cam, m).Success?
    ensures CvProject(ring[j], cam, DefaultEps, m).Success? ==>
              ProjectAll(done + ring[..j + 1], cam, m)
                == Success(ProjectAll(done + ring[..j], cam, m).value + [CvProject(ring[j], cam, DefaultEps, m).value])
    ensures CvProject(ring[j], cam, DefaultEps, m).Failure? ==>
              ProjectAll(done + ring, cam, m) == Failure(CvProject(ring[j], cam, DefaultEps, m).error)
  {
    assert done + ring[..j + 1] == (done + ring[..j]) + [ring[j]];
    ProjectAllAppendOne(done + ring[..j], ring[j], cam, m);
    if CvProject(ring[j], cam, DefaultEps, m).Failure? {
      assert done + ring == (done + ring[..j + 1]) + ring[j + 1..];
      ProjectAllAppendFailure(done + ring[..j + 1], ring[j + 1..], cam, m);
    }
  }

  /** `project_contour`: the centre, then three rings of `points` points on
      the ball's surface cut parallel to the x, y and z planes, each ring
      closed by the centre again, all projected onto the sensor. */
  method ProjectContour(ball: V3, cont: seq<V2>, radius: real, cam: Intrinsics, points: int, m: Math)
    returns (r: Result<seq<V2>>)
    ensures r == ContourProjection(ball, radius, cam, points, m)
  {
    var angs :- Linspace(0.0, FullTurn(m), points);
    var us := Sines(radius, angs, m);
    var vs := Cosines(radius, angs, m);
    r := ProjectTargets(ball, us, vs, cam, m);
  }

  /** The body of `project_contour` after the angles: project the centre,
      then each ring, appending the centre after each. */
  method ProjectTargets(ball: V3, us: seq<real>, vs: seq<real>, cam: Intrinsics, m: Math)
    returns (r: Result<seq<V2>>)
    requires |us| == |vs|
    ensures r == ProjectAll(ContourTargets(ball, us, vs), cam, m)
  {
    ghost var p1 := [ball];
    ghost var p2 := p1 + Ring(ball, 0, us, vs);
    ghost var p3 := p2 + [ball];
    ghost var p4 := p3 + Ring(ball, 1, us, vs);
    ghost var p5 := p4 + [ball];
    ghost var p6 := p5 + Ring(ball, 2, us, vs);
    ghost var p7 := p6 + [ball];
    assert p7 == ContourTargets(ball, us, vs);
    var c := CvProject(ball, cam, DefaultEps, m);
    ProjectAllAppendOne([], ball, cam, m);
    assert [] + [ball] == p1;
    if c.Failure? {
      ProjectAllAppendFailure(p1, Ring(ball, 0, us, vs), cam, m);
      ProjectAllAppendFailure(p2, [ball], cam, m);
      ProjectAllAppendFailure(p3, Ring(ball, 1, us, vs), cam, m);
      ProjectAllAppendFailure(p4, [ball], cam, m);
      ProjectAllAppendFailure(p5, Ring(ball, 2, us, vs), cam, m);
      ProjectAllAppendFailure(p6, [ball], cam, m);
      return Failure(c.error);
    }
    var ctr := c.value;
    var contR := [ctr];
    assert ProjectAll([], cam, m) == Success([]);
    assert ProjectAll(p1, cam, m) == Success([] + [ctr]);
    assert [] + [ctr] == contR;
    var r0 := ProjectRing(ball, 0, us, vs, cam, m, p1, contR);
    if r0.Failure? {
      ProjectAllAppendFailure(p2, [ball], cam, m);
      ProjectAllAppendFailure(p3, Ring(ball, 1, us, vs), cam, m);
      ProjectAllAppendFailure(p4, [ball], cam, m);
      ProjectAllAppendFailure(p5, Ring(ball, 2, us, vs), cam, m);
      ProjectAllAppendFailure(p6, [ball], cam, m);
      return r0;
    }
    ProjectAllAppendOne(p2, ball, cam, m);
    contR := r0.value + [ctr];
    var r1 := ProjectRing(ball, 1, us, vs, cam, m, p3, contR);
    if r1.Failure? {
      ProjectAllAppendFailure(p4, [ball], cam, m);
      ProjectAllAppendFailure(p5, Ring(ball, 2, us, vs), cam, m);
      ProjectAllAppendFailure(p6, [ball], cam, m);
      return r1;
    }
    ProjectAllAppendOne(p4, ball, cam, m);
    contR := r1.value + [ctr];
    var r2 := ProjectRing(ball, 2, us, vs, cam, m, p5, contR);
    if r2.Failure? {
      ProjectAllAppendFailure(p6, [ball], cam, m);
      return r2;
    }
    ProjectAllAppendOne(p6, ball, cam, m);
    contR := r2.value + [ctr];
    return Success(contR);
  }

  /** The targets: 3n + 4 points, the centre at 0, n + 1, 2n + 2 and 3n + 3,
      and ring k's point j right after the k-th centre. */
  lemma ContourTargetsLayout(ball: V3, us: seq<real>, vs: seq<real>)
    requires |us| == |vs|
    ensures var t, n := ContourTargets(ball, us, vs), |us|;
            && |t| == 3 * n + 4
            && t[0] == ball && t[n + 1] == ball && t[2 * n + 2] == ball && t[3 * n + 3] == ball
            && (forall j :: 0 <= j < n ==> t[1 + j] == Add(ball, RingOffset(0, us[j], vs[j])))
            && (forall j :: 0 <= j < n ==> t[n + 2 + j] == Add(ball, RingOffset(1, us[j], vs[j])))
            && (forall j :: 0 <= j < n ==> t[2 * n + 3 + j] == Add(ball, RingOffset(2, us[j], vs[j])))
  {
  }

  /** Every ring point lies on the ball's surface: its offset from the
      centre has length `radius`. */
  lemma RingOnSphere(plane: int, radius: real, angs: seq<real>, j: int, m: Math)
    requires Sound(m) && 0 <= j < |angs|
    ensures var o := RingOffset(plane, Sines(radius, angs, m)[j], Cosines(radius, angs, m)[j]);
            Dot(o, o) == radius * radius
  {
    var s, c := m.sin(angs[j]), m.cos(angs[j]);
    Pythagoras(m, angs[j]);
    ScaledUnit(radius, s, c);
    var u, v := Sines(radius, angs, m)[j], Cosines(radius, angs, m)[j];
    assert u == radius * s && v == radius * c;
    assert u * u + v * v == radius * radius;
  }

  lemma ScaledUnit(k: real, s: real, c: real)
    requires s * s + c * c == 1.0
    ensures (k * s) * (k * s) + (k * c) * (k * c) == k * k
  {
    assert (k * s) * (k * s) + (k * c) * (k * c) == k * k * (s * s + c * c);
  }

  /** Projection i of a successful `ProjectAll` is that of point i. */
  lemma ProjectAllAt(ps: seq<V3>, i: int, cam: Intrinsics, m: Math)
    requires ProjectAll(ps, cam, m).Success? && 0 <= i < |ps|
    ensures |ProjectAll(ps, cam, m).value| == |ps|
    ensures CvProject(ps[i], cam, DefaultEps, m).Success?
    ensures ProjectAll(ps, cam, m).value[i] == CvProject(ps[i], cam, DefaultEps, m).value
  {
    ProjectAllSpec(ps, cam, m);
  }

  /** Where point j of ring `plane` sits among the results. */
  function RingIndex(plane: int, n: int, j: int): int {
    if plane == 0 then 1 + j
    else if plane == 1 then n + 2 + j
    else 2 * n + 3 + j
  }

  /** Target `RingIndex(plane, n, j)` is point j of ring `plane`. */
  lemma ContourTargetAt(ball: V3, us: seq<real>, vs: seq<real>, plane: int, j: int)
    requires |us| == |vs| && 0 <= plane < 3 && 0 <= j < |us|
    ensures ContourTargets(ball, us, vs)[RingIndex(plane, |us|, j)] == Add(ball, RingOffset(plane, us[j], vs[j]))
  {
    ContourTargetsLayout(ball, us, vs);
  }

  /** What `project_contour` returns: 3n + 4 sensor points, with the
      projected centre at 0, n + 1, 2n + 2 and 3n + 3. */
  lemma ContourProjectionCentres(ball: V3, radius: real, cam: Intrinsics, n: int, m: Math)
    requires ContourProjection(ball, radius, cam, n, m).Success?
    ensures n >= 0
    ensures var cs := ContourProjection(ball, radius, cam, n, m).value;
            && |cs| == 3 * n + 4
            && CvProject(ball, cam, DefaultEps, m).Success?
            && var ctr := CvProject(ball, cam, DefaultEps, m).value;
               cs[0] == ctr && cs[n + 1] == ctr && cs[2 * n + 2] == ctr && cs[3 * n + 3] == ctr
  {
    var angs := Linspace(0.0, FullTurn(m), n).value;
    var us, vs := Sines(radius, angs, m), Cosines(radius, angs, m);
    var t := ContourTargets(ball, us, vs);
    ContourTargetsLayout(ball, us, vs);
    ProjectAllAt(t, 0, cam, m);
    ProjectAllAt(t, n + 1, cam, m);
    ProjectAllAt(t, 2 * n + 2, cam, m);
    ProjectAllAt(t, 3 * n + 3, cam, m);
  }

  /** Between the centres, result `RingIndex(plane, n, j)` is the projection
      of ring point j at the angle `linspace(0, 2 pi, n)[j]`, the rings cut
      parallel to the x, y and z planes in that order. */
  lemma ContourProjectionRing(ball: V3, radius: real, cam: Intrinsics, n: int, m: Math, plane: int, j: int)
    requires ContourProjection(ball, radius, cam, n, m).Success?
    requires 0 <= plane < 3 && 0 <= j < n
    ensures var angs := Linspace(0.0, FullTurn(m), n).value;
            var p := Add(ball, RingOffset(plane, Sines(radius, angs, m)[j], Cosines(radius, angs, m)[j]));
            && CvProject(p, cam, DefaultEps, m).Success?
            && ContourProjection(ball, radius, cam, n, m).value[RingIndex(plane, n, j)]
               == CvProject(p, cam, DefaultEps, m).value
  {
    var angs := Linspace(0.0, FullTurn(m), n).value;
    var us, vs := Sines(radius, angs, m), Cosines(radius, angs, m);
    var t := ContourTargets(ball, us, vs);
    ContourTargetAt(ball, us, vs, plane, j);
    ProjectAllAt(t, RingIndex(plane, n, j), cam, m);
  }

  /** Each ring is closed: its first and last points, at the angles 0 and
      2 pi, project to the same sensor point. */
  lemma RingsClose(ball: V3, radius: real, cam: Intrinsics, n: int, m: Math, plane: int)
    requires Sound(m) && n >= 2 && 0 <= plane < 3
    requires ContourProjection(ball, radius, cam, n, m).Success?
    ensures var cs := ContourProjection(ball, radius, cam, n, m).value;
            cs[RingIndex(plane, n, 0)] == cs[RingIndex(plane, n, n - 1)]
  {
    var angs := Linspace(0.0, FullTurn(m), n).value;
    RingEnds(radius, angs, m);
    ContourProjectionRing(ball, radius, cam, n, m, plane, 0);
    ContourProjectionRing(ball, radius, cam, n, m, plane, n - 1);
  }

  /** The angles 0 and 2 pi give the same ring offset. */
  lemma RingEnds(radius: real, angs: seq<real>, m: Math)
    requires m.sin(0.0) == 0.0 && m.cos(0.0) == 1.0
    requires m.sin(FullTurn(m)) == 0.0 && m.cos(FullTurn(m)) == 1.0
    requires |angs| >= 2 && angs[0] == 0.0 && angs[|angs| - 1] == FullTurn(m)
    ensures Sines(radius, angs, m)[0] == Sines(radius, angs, m)[|angs| - 1]
    ensures Cosines(radius, angs, m)[0] == Cosines(radius, angs, m)[|angs| - 1]
  {
  }
}
