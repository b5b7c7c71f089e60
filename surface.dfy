/** A rough surface patch of src/surface.py: a measured point cloud, the mesh
    triangulated from it, the rotation that turns the mesh to face its designated
    normal, the crop that trims the mesh edges and the area within which the tracker
    samples first crossing points.  The mesh library (Poisson reconstruction,
    rotation, plane slicing, translation) enters as a record of functions; a mesh is
    seen through its axis-aligned bounds. */
module SurfaceModel {

  import opened Wrappers
  import opened RealMath

  /** A triangulated mesh: an opaque shape (the vertices and triangles the library
      holds) and its axis-aligned bounds (`trimesh.bounds`). */
  datatype Mesh = Mesh(shape: nat, bounds: Bounds)

  /** `trimesh.extents` along `a`. */
  function Extent(m: Mesh, a: Axis): real {
    Get(m.bounds.hi, a) - Get(m.bounds.lo, a)
  }

  /** The mesh library: Poisson reconstruction of a point cloud with a depth and a
      scale, rotation about an axis by degrees, slicing by planes given by origins and
      normals, and translation. */
  datatype MeshOps = MeshOps(triangulate: (seq<Vec3>, int, real) -> Mesh,
                             rotate: (Mesh, Axis, real) -> Mesh,
                             slice: (Mesh, seq<Vec3>, seq<Vec3>) -> Mesh,
                             translate: (Mesh, Vec3) -> Mesh)

  /** A pair of crop limits along one axis: low, high. */
  type Limits = (real, real)

  // ---------------------------------------------------------------------------
  // Orientation table and rotation choice

  /** The constructor's orientation table (surface.py:75-85): one of the six labels
      or ValueError. */
  function OrientationOf(name: string): (r: Result<Face>)
    ensures forall f :: Label(f) == name <==> r == Ok(f)
    ensures r.Err? ==> r.error == ValueError
  {
    if name == "+x" then Ok(PosX)
    else if name == "-x" then Ok(NegX)
    else if name == "+y" then Ok(PosY)
    else if name == "-y" then Ok(NegY)
    else if name == "+z" then Ok(PosZ)
    else if name == "-z" then Ok(NegZ)
    else Err(ValueError)
  }

  /** The rotation `applyDefaultOrientation` applies (surface.py:201-206): an axis and
      an angle in degrees, none for +z, the orientation the scan is measured in. */
  function RotationFor(f: Face): (r: Option<(Axis, real)>)
    ensures r.None? <==> f == PosZ
    ensures r.Some? ==> r.value.0 != NormalAxis(f) || f == NegZ
  {
    match f
    case PosX => Some((Y, 90.0))
    case NegX => Some((Y, -90.0))
    case PosY => Some((X, -90.0))
    case NegY => Some((X, 90.0))
    case PosZ => None
    case NegZ => Some((X, 180.0))
  }

  /** Cosine and sine of the angles of the table, exactly: cos and sin of 90,
      -90 and 180 degrees, and of 0 for any angle the table does not hold. */
  function QuarterTurn(angle: real): (cs: (real, real))
    ensures angle == 90.0 ==> cs == (0.0, 1.0)
    ensures angle == -90.0 ==> cs == (0.0, -1.0)
    ensures angle == 180.0 ==> cs == (-1.0, 0.0)
    ensures angle == 0.0 ==> cs == (1.0, 0.0)
    ensures cs.0 * cs.0 + cs.1 * cs.1 == 1.0
  {
    if angle == 90.0 then (0.0, 1.0)
    else if angle == -90.0 then (0.0, -1.0)
    else if angle == 180.0 then (-1.0, 0.0)
    else (1.0, 0.0)
  }

  /** The rotation matrix of `rotateArea` (surface.py:393-410) with cosine `c` and
      sine `s`, applied to `v`. */
  function RotationApplied(a: Axis, c: real, s: real, v: Vec3): Vec3 {
    match a
    case X => Vec3(v.x, c * v.y - s * v.z, s * v.y + c * v.z)
    case Y => Vec3(c * v.x + s * v.z, v.y, -s * v.x + c * v.z)
    case Z => Vec3(c * v.x - s * v.y, s * v.x + c * v.y, v.z)
  }

  /** The default orientation turns a scan whose normal is +z so that its normal is
      the designated face normal. */
  lemma DefaultRotationFacesNormal(f: Face)
    ensures var up := Vec3(0.0, 0.0, 1.0);
            match RotationFor(f)
            case None => up == FaceNormal(f)
            case Some(r) =>
              var (c, s) := QuarterTurn(r.1);
              RotationApplied(r.0, c, s, up) == FaceNormal(f)
  {
  }

  /** `rotateSurfaceFeatures` turns the mesh about the axis of its normal, the
      column where the orientation has magnitude 1 (surface.py:307); that rotation
      leaves the normal itself fixed. */
  lemma FeatureRotationKeepsNormal(f: Face, c: real, s: real)
    ensures RotationApplied(NormalAxis(f), c, s, FaceNormal(f)) == FaceNormal(f)
  {
  }

  // ---------------------------------------------------------------------------
  // Crop limits, crop planes, shift and sampling area

  /** A limit pair inset by 2.5 % of the extent on each side. */
  function Inset(lo: real, hi: real): (r: Limits)
    ensures lo <= hi ==> lo <= r.0 <= r.1 <= hi
    ensures r.1 - r.0 == 0.95 * (hi - lo)
    ensures r.0 + r.1 == lo + hi
  {
    (lo + 0.025 * (hi - lo), hi - 0.025 * (hi - lo))
  }

  /** The crop limits of `applyDefaultOrientation` on the two lateral axes of the
      mesh (surface.py:210-217). */
  function CropLimits(m: Mesh, f: Face): (Limits, Limits) {
    var (a1, a2) := LateralAxes(f);
    (Inset(Get(m.bounds.lo, a1), Get(m.bounds.hi, a1)), Inset(Get(m.bounds.lo, a2), Get(m.bounds.hi, a2)))
  }

  /** The four plane origins of `cropTriangulatedArea` (surface.py:348-353): each row
      is zero but for one limit on its lateral axis. */
  function PlaneOrigins(f: Face, ax1: Limits, ax2: Limits): (o: seq<Vec3>)
    ensures |o| == 4
  {
    var (a1, a2) := LateralAxes(f);
    [With(Origin, a1, ax1.0), With(Origin, a1, ax1.1), With(Origin, a2, ax2.0), With(Origin, a2, ax2.1)]
  }

  /** `np.sign`. */
  function Sign(r: real): real {
    if r > 0.0 then 1.0 else if r < 0.0 then -1.0 else 0.0
  }

  /** `-1 * np.sign(planesOrigin)` (surface.py:358). */
  function PlaneNormals(o: seq<Vec3>): (n: seq<Vec3>)
    ensures |n| == |o|
    ensures forall i, a :: 0 <= i < |o| ==> Get(n[i], a) == -Sign(Get(o[i], a))
  {
    seq(|o|, i requires 0 <= i < |o| => Vec3(-Sign(o[i].x), -Sign(o[i].y), -Sign(o[i].z)))
  }

  /** A point lies on the kept side of plane `i` of a slice. */
  predicate KeptBy(p: Vec3, o: seq<Vec3>, n: seq<Vec3>, i: nat)
    requires i < |o| && i < |n|
  {
    Dot(Sub(p, o[i]), n[i]) >= 0.0
  }

  /** When each limit pair straddles 0, as the inset bounds of a centred mesh do, the
      four planes with normals `-sign(origin)` keep exactly the points between the
      limits on both lateral axes. */
  lemma CropPlanesKeepLimits(f: Face, ax1: Limits, ax2: Limits, p: Vec3)
    requires ax1.0 < 0.0 < ax1.1 && ax2.0 < 0.0 < ax2.1
    ensures var o := PlaneOrigins(f, ax1, ax2);
            var n := PlaneNormals(o);
            var (a1, a2) := LateralAxes(f);
            (KeptBy(p, o, n, 0) && KeptBy(p, o, n, 1) && KeptBy(p, o, n, 2) && KeptBy(p, o, n, 3))
            <==> (ax1.0 <= Get(p, a1) <= ax1.1 && ax2.0 <= Get(p, a2) <= ax2.1)
  {
    var o := PlaneOrigins(f, ax1, ax2);
    var n := PlaneNormals(o);
    match NormalAxis(f)
    case X =>
      assert o == [Vec3(0.0, ax1.0, 0.0), Vec3(0.0, ax1.1, 0.0), Vec3(0.0, 0.0, ax2.0), Vec3(0.0, 0.0, ax2.1)];
      assert n == [Vec3(0.0, 1.0, 0.0), Vec3(0.0, -1.0, 0.0), Vec3(0.0, 0.0, 1.0), Vec3(0.0, 0.0, -1.0)];
      assert KeptBy(p, o, n, 0) <==> ax1.0 <= p.y;
      assert KeptBy(p, o, n, 1) <==> p.y <= ax1.1;
      assert KeptBy(p, o, n, 2) <==> ax2.0 <= p.z;
      assert KeptBy(p, o, n, 3) <==> p.z <= ax2.1;
    case Y =>
      assert o == [Vec3(ax1.0, 0.0, 0.0), Vec3(ax1.1, 0.0, 0.0), Vec3(0.0, 0.0, ax2.0), Vec3(0.0, 0.0, ax2.1)];
      assert n == [Vec3(1.0, 0.0, 0.0), Vec3(-1.0, 0.0, 0.0), Vec3(0.0, 0.0, 1.0), Vec3(0.0, 0.0, -1.0)];
      assert KeptBy(p, o, n, 0) <==> ax1.0 <= p.x;
      assert KeptBy(p, o, n, 1) <==> p.x <= ax1.1;
      assert KeptBy(p, o, n, 2) <==> ax2.0 <= p.z;
      assert KeptBy(p, o, n, 3) <==> p.z <= ax2.1;
    case Z =>
      assert o == [Vec3(ax1.0, 0.0, 0.0), Vec3(ax1.1, 0.0, 0.0), Vec3(0.0, ax2.0, 0.0), Vec3(0.0, ax2.1, 0.0)];
      assert n == [Vec3(1.0, 0.0, 0.0), Vec3(-1.0, 0.0, 0.0), Vec3(0.0, 1.0, 0.0), Vec3(0.0, -1.0, 0.0)];
      assert KeptBy(p, o, n, 0) <==> ax1.0 <= p.x;
      assert KeptBy(p, o, n, 1) <==> p.x <= ax1.1;
      assert KeptBy(p, o, n, 2) <==> ax2.0 <= p.y;
      assert KeptBy(p, o, n, 3) <==> p.y <= ax2.1;
  }

  /** When both limits of a pair are positive both planes on that axis get the normal
      -axis, so the slice keeps the points below the low limit: a point between the
      limits is cut away. */
  lemma CropPlanesOffCentre(f: Face, ax1: Limits, ax2: Limits)
    requires 0.0 < ax1.0 < ax1.1
    ensures var o := PlaneOrigins(f, ax1, ax2);
            var n := PlaneNormals(o);
            var (a1, a2) := LateralAxes(f);
            var p := With(Origin, a1, (ax1.0 + ax1.1) / 2.0);
            !KeptBy(p, o, n, 0)
  {
    var (a1, a2) := LateralAxes(f);
    var o := PlaneOrigins(f, ax1, ax2);
    var p := With(Origin, a1, (ax1.0 + ax1.1) / 2.0);
    if a1 == X {
      assert Dot(Sub(p, o[0]), PlaneNormals(o)[0]) == -((ax1.1 - ax1.0) / 2.0);
    } else {
      assert Dot(Sub(p, o[0]), PlaneNormals(o)[0]) == -((ax1.1 - ax1.0) / 2.0);
    }
  }

  /** The translation `cropTriangulatedArea` applies after slicing (surface.py:354-356,
      362): the midpoint of each limit pair on its lateral axis, zero on the normal
      axis. */
  function CropShift(f: Face, ax1: Limits, ax2: Limits): (s: Vec3)
    ensures Get(s, LateralAxes(f).0) == (ax1.0 + ax1.1) / 2.0
    ensures Get(s, LateralAxes(f).1) == (ax2.0 + ax2.1) / 2.0
    ensures Get(s, NormalAxis(f)) == 0.0
  {
    var (a1, a2) := LateralAxes(f);
    With(With(Origin, a1, (ax1.1 - ax1.0) / 2.0 + ax1.0), a2, (ax2.1 - ax2.0) / 2.0 + ax2.0)
  }

  /** The mesh `cropTriangulatedArea` leaves: sliced by the four planes, then
      translated by the shift. */
  function Cropped(ops: MeshOps, m: Mesh, f: Face, ax1: Limits, ax2: Limits): Mesh {
    var o := PlaneOrigins(f, ax1, ax2);
    ops.translate(ops.slice(m, o, PlaneNormals(o)), CropShift(f, ax1, ax2))
  }

  /** `samplingBounds` (surface.py:366-371): the mesh bounds inset by 2.5 % on each
      lateral side, 0 in the normal column. */
  function SamplingArea(m: Mesh, f: Face): Bounds {
    var (a1, a2) := LateralAxes(f);
    var l1 := Inset(Get(m.bounds.lo, a1), Get(m.bounds.hi, a1));
    var l2 := Inset(Get(m.bounds.lo, a2), Get(m.bounds.hi, a2));
    Bounds(With(With(Origin, a1, l1.0), a2, l2.0), With(With(Origin, a1, l1.1), a2, l2.1))
  }

  /** The sampling area is 0 in the normal column and the inset of the mesh bounds
      in each lateral one. */
  lemma SamplingAreaShape(m: Mesh, f: Face)
    ensures var b := SamplingArea(m, f);
      && Get(b.lo, NormalAxis(f)) == 0.0 && Get(b.hi, NormalAxis(f)) == 0.0
      && forall a :: a != NormalAxis(f) ==>
        (Get(b.lo, a), Get(b.hi, a)) == Inset(Get(m.bounds.lo, a), Get(m.bounds.hi, a))
  {
  }

  /** On each lateral axis the sampling area lies within the mesh bounds, keeps their
      centre and spans 95 % of the extent. */
  lemma SamplingAreaInsideMesh(m: Mesh, f: Face, a: Axis)
    requires a != NormalAxis(f) && Get(m.bounds.lo, a) <= Get(m.bounds.hi, a)
    ensures var b := SamplingArea(m, f);
            && Get(m.bounds.lo, a) <= Get(b.lo, a) <= Get(b.hi, a) <= Get(m.bounds.hi, a)
            && Get(b.hi, a) - Get(b.lo, a) == 0.95 * Extent(m, a)
            && Get(b.lo, a) + Get(b.hi, a) == Get(m.bounds.lo, a) + Get(m.bounds.hi, a)
  {
    var b := SamplingArea(m, f);
    SamplingAreaShape(m, f);
    assert (Get(b.lo, a), Get(b.hi, a)) == Inset(Get(m.bounds.lo, a), Get(m.bounds.hi, a));
  }

  /** The crop limits of the default orientation and the sampling area of the same
      mesh are the same inset. */
  lemma CropLimitsAreSamplingArea(m: Mesh, f: Face)
    ensures var (a1, a2) := LateralAxes(f);
            var b := SamplingArea(m, f);
            CropLimits(m, f) == ((Get(b.lo, a1), Get(b.hi, a1)), (Get(b.lo, a2), Get(b.hi, a2)))
  {
    var (a1, a2) := LateralAxes(f);
    var b := SamplingArea(m, f);
    SamplingAreaShape(m, f);
    assert (Get(b.lo, a1), Get(b.hi, a1)) == Inset(Get(m.bounds.lo, a1), Get(m.bounds.hi, a1));
    assert (Get(b.lo, a2), Get(b.hi, a2)) == Inset(Get(m.bounds.lo, a2), Get(m.bounds.hi, a2));
  }

  // ---------------------------------------------------------------------------
  // Point cloud

  function MaxAlong(s: seq<Vec3>, a: Axis): (r: real)
    requires |s| > 0
    ensures forall i :: 0 <= i < |s| ==> Get(s[i], a) <= r
    ensures exists i :: 0 <= i < |s| && Get(s[i], a) == r
  {
    if |s| == 1 then Get(s[0], a)
    else
      var m := MaxAlong(s[1..], a);
      assert forall i :: 1 <= i < |s| ==> s[1..][i - 1] == s[i];
      if Get(s[0], a) > m then Get(s[0], a) else m
  }

  function MinAlong(s: seq<Vec3>, a: Axis): (r: real)
    requires |s| > 0
    ensures forall i :: 0 <= i < |s| ==> r <= Get(s[i], a)
    ensures exists i :: 0 <= i < |s| && Get(s[i], a) == r
  {
    if |s| == 1 then Get(s[0], a)
    else
      var m := MinAlong(s[1..], a);
      assert forall i :: 1 <= i < |s| ==> s[1..][i - 1] == s[i];
      if Get(s[0], a) < m then Get(s[0], a) else m
  }

  function SumAlong(s: seq<Vec3>, a: Axis): real {
    if |s| == 0 then 0.0 else Get(s[0], a) + SumAlong(s[1..], a)
  }

  /** Every row moved by `-d`. */
  function Shifted(s: seq<Vec3>, d: Vec3): (t: seq<Vec3>)
    ensures |t| == |s| && forall i :: 0 <= i < |s| ==> t[i] == Sub(s[i], d)
  {
    seq(|s|, i requires 0 <= i < |s| => Sub(s[i], d))
  }

  /** The shift of `loadPointCloud` (surface.py:106-111): half the range of x and of
      y, and the mean height. */
  function LoadShift(s: seq<Vec3>): Vec3
    requires |s| > 0
  {
    Vec3((MaxAlong(s, X) - MinAlong(s, X)) / 2.0, (MaxAlong(s, Y) - MinAlong(s, Y)) / 2.0,
         SumAlong(s, Z) / (|s| as real))
  }

  lemma ShiftedExtremes(s: seq<Vec3>, d: Vec3, a: Axis)
    requires |s| > 0
    ensures MaxAlong(Shifted(s, d), a) == MaxAlong(s, a) - Get(d, a)
    ensures MinAlong(Shifted(s, d), a) == MinAlong(s, a) - Get(d, a)
  {
    var t := Shifted(s, d);
    var j :| 0 <= j < |t| && Get(t[j], a) == MaxAlong(t, a);
    var k :| 0 <= k < |s| && Get(s[k], a) == MaxAlong(s, a);
    assert Get(t[k], a) == Get(s[k], a) - Get(d, a);
    assert Get(t[j], a) == Get(s[j], a) - Get(d, a);
    var j' :| 0 <= j' < |t| && Get(t[j'], a) == MinAlong(t, a);
    var k' :| 0 <= k' < |s| && Get(s[k'], a) == MinAlong(s, a);
    assert Get(t[k'], a) == Get(s[k'], a) - Get(d, a);
    assert Get(t[j'], a) == Get(s[j'], a) - Get(d, a);
  }

  lemma {:induction false} ShiftedSum(s: seq<Vec3>, d: Vec3, a: Axis)
    ensures SumAlong(Shifted(s, d), a) == SumAlong(s, a) - (|s| as real) * Get(d, a)
  {
    if |s| > 0 {
      assert Shifted(s, d)[1..] == Shifted(s[1..], d);
      ShiftedSum(s[1..], d, a);
    }
  }

  /** Along x and y the loaded cloud keeps its width, and its range runs from
      `min - width/2` to `max - width/2`: centred on the origin exactly when the
      measured minimum is 0. */
  lemma LoadedCloudLateral(s: seq<Vec3>, a: Axis)
    requires |s| > 0 && a != Z
    ensures var t := Shifted(s, LoadShift(s));
            && MaxAlong(t, a) - MinAlong(t, a) == MaxAlong(s, a) - MinAlong(s, a)
            && (MaxAlong(t, a) + MinAlong(t, a) == 0.0 <==> MinAlong(s, a) == 0.0)
  {
    var d := LoadShift(s);
    ShiftedExtremes(s, d, a);
    assert Get(d, a) == (MaxAlong(s, a) - MinAlong(s, a)) / 2.0;
  }

  /** The loaded cloud has mean height 0. */
  lemma LoadedCloudLevel(s: seq<Vec3>)
    requires |s| > 0
    ensures SumAlong(Shifted(s, LoadShift(s)), Z) == 0.0
  {
    var d := LoadShift(s);
    ShiftedSum(s, d, Z);
    var n := |s| as real;
    var S := SumAlong(s, Z);
    assert Get(d, Z) == S / n;
    assert n * (S / n) == S;
  }

  /** The point filter of `cropPointCloudAndReTriangulate` (surface.py:262-267): the
      rows strictly inside both limit pairs on x and y, in their order. */
  function KeptPoints(s: seq<Vec3>, ax1: Limits, ax2: Limits): (r: seq<Vec3>)
    ensures |r| <= |s|
    ensures forall p :: p in r <==> p in s && ax1.0 < p.x < ax1.1 && ax2.0 < p.y < ax2.1
  {
    if |s| == 0 then []
    else
      var rest := KeptPoints(s[1..], ax1, ax2);
      assert forall p :: p in s <==> p == s[0] || p in s[1..];
      if ax1.0 < s[0].x < ax1.1 && ax2.0 < s[0].y < ax2.1 then [s[0]] + rest else rest
  }

  // ---------------------------------------------------------------------------
  // The surface object

  class Surface {
    var surfaceFinish: string
    var normalOrientation: Face
    /** Attributes the source creates on first assignment: `None` when absent. */
    var pointCloud: Option<seq<Vec3>>
    var trimesh: Option<Mesh>
    var triangulationParams: Option<(int, real)>
    var samplingBounds: Option<Bounds>
    var rotAngle: Option<real>

    constructor (surfaceFinish: string, normalOrientation: Face)
      ensures this.surfaceFinish == surfaceFinish && this.normalOrientation == normalOrientation
      ensures pointCloud.None? && trimesh.None? && triangulationParams.None?
      ensures samplingBounds.None? && rotAngle.None?
    {
      this.surfaceFinish := surfaceFinish;
      this.normalOrientation := normalOrientation;
      pointCloud := None;
      trimesh := None;
      triangulationParams := None;
      samplingBounds := None;
      rotAngle := None;
    }

    /** `loadPointCloud` (surface.py:106-111) on the rows read from the file: each
        row moved by `LoadShift`.  A file of fewer than two rows loads as a flat
        array, which does not fill the three columns of the frame: ValueError. */
    method LoadPointCloud(rows: seq<Vec3>) returns (r: Result<()>)
      modifies this
      ensures r.Err? <==> |rows| <= 1
      ensures r.Err? ==> r.error == ValueError && pointCloud == old(pointCloud)
      ensures r.Ok? ==> pointCloud == Some(Shifted(rows, LoadShift(rows)))
      ensures surfaceFinish == old(surfaceFinish) && normalOrientation == old(normalOrientation)
      ensures trimesh == old(trimesh) && triangulationParams == old(triangulationParams)
      ensures samplingBounds == old(samplingBounds) && rotAngle == old(rotAngle)
    {
      if |rows| <= 1 {
        return Err(ValueError);
      }
      pointCloud := Some(Shifted(rows, LoadShift(rows)));
      r := Ok(());
    }

    /** `createTriangularMesh` (surface.py:146-171): AttributeError without a point
        cloud; otherwise the Poisson mesh of the cloud and the parameters used. */
    method CreateTriangularMesh(ops: MeshOps, depth: int := 6, scale: real := 1.0) returns (r: Result<()>)
      modifies this
      ensures r.Err? <==> old(pointCloud).None?
      ensures r.Err? ==> r.error == AttributeError && trimesh == old(trimesh)
                         && triangulationParams == old(triangulationParams)
      ensures r.Ok? ==> trimesh == Some(ops.triangulate(old(pointCloud).value, depth, scale))
                        && triangulationParams == Some((depth, scale))
      ensures surfaceFinish == old(surfaceFinish) && normalOrientation == old(normalOrientation)
      ensures pointCloud == old(pointCloud)
      ensures samplingBounds == old(samplingBounds) && rotAngle == old(rotAngle)
    {
      if pointCloud.None? {
        return Err(AttributeError);
      }
      trimesh := Some(ops.triangulate(pointCloud.value, depth, scale));
      triangulationParams := Some((depth, scale));
      r := Ok(());
    }

    /** `rotateArea` (surface.py:381-424): the mesh rotated about `axis` by `angle`
        degrees, and the angle recorded; AttributeError without a mesh. */
    method RotateArea(ops: MeshOps, axis: Axis, angle: real) returns (r: Result<()>)
      modifies this
      ensures r.Err? <==> old(trimesh).None?
      ensures r.Err? ==> r.error == AttributeError && trimesh == old(trimesh) && rotAngle == old(rotAngle)
      ensures r.Ok? ==> trimesh == Some(ops.rotate(old(trimesh).value, axis, angle)) && rotAngle == Some(angle)
      ensures surfaceFinish == old(surfaceFinish) && normalOrientation == old(normalOrientation)
      ensures pointCloud == old(pointCloud) && triangulationParams == old(triangulationParams)
      ensures samplingBounds == old(samplingBounds)
    {
      if trimesh.None? {
        return Err(AttributeError);
      }
      trimesh := Some(ops.rotate(trimesh.value, axis, angle));
      rotAngle := Some(angle);
      r := Ok(());
    }

    /** `cropTriangulatedArea` (surface.py:342-371): the sliced and shifted mesh and
        the sampling area of the result; AttributeError without a mesh. */
    method CropTriangulatedArea(ops: MeshOps, ax1: Limits, ax2: Limits) returns (r: Result<()>)
      modifies this
      ensures r.Err? <==> old(trimesh).None?
      ensures r.Err? ==> r.error == AttributeError && trimesh == old(trimesh)
                         && samplingBounds == old(samplingBounds)
      ensures r.Ok? ==> trimesh == Some(Cropped(ops, old(trimesh).value, normalOrientation, ax1, ax2))
                        && samplingBounds == Some(SamplingArea(trimesh.value, normalOrientation))
      ensures surfaceFinish == old(surfaceFinish) && normalOrientation == old(normalOrientation)
      ensures pointCloud == old(pointCloud) && triangulationParams == old(triangulationParams)
      ensures rotAngle == old(rotAngle)
    {
      if trimesh.None? {
        return Err(AttributeError);
      }
      var m := Cropped(ops, trimesh.value, normalOrientation, ax1, ax2);
      trimesh := Some(m);
      samplingBounds := Some(SamplingArea(m, normalOrientation));
      r := Ok(());
    }

    /** `applyDefaultOrientation` (surface.py:196-219): AttributeError without a mesh;
        otherwise the rotation of the table, then the crop to the inset bounds of the
        rotated mesh. */
    method ApplyDefaultOrientation(ops: MeshOps) returns (r: Result<()>)
      modifies this
      ensures r.Err? <==> old(trimesh).None?
      ensures r.Err? ==> r.error == AttributeError && trimesh == old(trimesh)
                         && samplingBounds == old(samplingBounds) && rotAngle == old(rotAngle)
      ensures r.Ok? ==>
        var f := normalOrientation;
        var turned := match RotationFor(f)
                      case None => old(trimesh).value
                      case Some(rot) => ops.rotate(old(trimesh).value, rot.0, rot.1);
        var (ax1, ax2) := CropLimits(turned, f);
        && trimesh == Some(Cropped(ops, turned, f, ax1, ax2))
        && samplingBounds == Some(SamplingArea(trimesh.value, f))
        && rotAngle == (match RotationFor(f) case None => old(rotAngle) case Some(rot) => Some(rot.1))
      ensures surfaceFinish == old(surfaceFinish) && normalOrientation == old(normalOrientation)
      ensures pointCloud == old(pointCloud) && triangulationParams == old(triangulationParams)
    {
      if trimesh.None? {
        return Err(AttributeError);
      }
      var rot := RotationFor(normalOrientation);
      if rot.Some? {
        var _ := RotateArea(ops, rot.value.0, rot.value.1);
      }
      var (ax1, ax2) := CropLimits(trimesh.value, normalOrientation);
      r := CropTriangulatedArea(ops, ax1, ax2);
    }

    /** `cropPointCloudAndReTriangulate` (surface.py:255-277): with both limit pairs
        the cloud keeps only the points strictly inside them (AttributeError without a
        cloud); the mesh is then rebuilt, with the given depth and scale when both are
        passed, and re-oriented. */
    method CropPointCloudAndReTriangulate(ops: MeshOps, limits: Option<(Limits, Limits)>,
                                          params: Option<(int, real)>) returns (r: Result<()>)
      modifies this
      ensures old(pointCloud).None? ==> r == Err(AttributeError)
      ensures old(pointCloud).Some? ==>
        && r.Ok?
        && pointCloud == (match limits
                          case None => old(pointCloud)
                          case Some(l) => Some(KeptPoints(old(pointCloud).value, l.0, l.1)))
        && triangulationParams == Some(match params case None => (6, 1.0) case Some(p) => p)
      ensures surfaceFinish == old(surfaceFinish) && normalOrientation == old(normalOrientation)
    {
      if pointCloud.None? {
        return Err(AttributeError);
      }
      if limits.Some? {
        pointCloud := Some(KeptPoints(pointCloud.value, limits.value.0, limits.value.1));
      }
      if params.Some? {
        r := CreateTriangularMesh(ops, params.value.0, params.value.1);
      } else {
        r := CreateTriangularMesh(ops);
      }
      r := ApplyDefaultOrientation(ops);
    }

    /** `rotateSurfaceFeatures` (surface.py:281-314): rotation of the mesh about the
        axis of its own normal. */
    method RotateSurfaceFeatures(ops: MeshOps, angle: real) returns (r: Result<()>)
      modifies this
      ensures r.Err? <==> old(trimesh).None?
      ensures r.Err? ==> r.error == AttributeError && trimesh == old(trimesh) && rotAngle == old(rotAngle)
      ensures r.Ok? ==> trimesh == Some(ops.rotate(old(trimesh).value, NormalAxis(normalOrientation), angle))
                        && rotAngle == Some(angle)
      ensures surfaceFinish == old(surfaceFinish) && normalOrientation == old(normalOrientation)
      ensures pointCloud == old(pointCloud) && triangulationParams == old(triangulationParams)
      ensures samplingBounds == old(samplingBounds)
    {
      r := RotateArea(ops, NormalAxis(normalOrientation), angle);
    }
  }

  /** `surface(surfaceFinish, normalOrientation)`: ValueError for a label outside the
      six, otherwise a surface facing the labelled normal with no cloud or mesh yet. */
  method NewSurface(surfaceFinish: string, orientation: string) returns (r: Result<Surface>)
    ensures r.Err? <==> OrientationOf(orientation).Err?
    ensures r.Err? ==> r.error == ValueError
    ensures r.Ok? ==> && fresh(r.value)
                      && Label(r.value.normalOrientation) == orientation
                      && r.value.surfaceFinish == surfaceFinish
                      && r.value.pointCloud.None? && r.value.trimesh.None?
                      && r.value.samplingBounds.None? && r.value.rotAngle.None?
  {
    var f := OrientationOf(orientation);
    if f.Err? {
      return Err(ValueError);
    }
    var s := new Surface(surfaceFinish, f.value);
    r := Ok(s);
  }
}
