/** Exact-real vector algebra, the six canonical face directions of a cuboid,
    and the transcendental functions the tracker calls (square root, exponential,
    inverse cosine and sine in degrees), which enter the model as a record of
    functions whose ranges are stated by `MathLib.Valid`. */
module RealMath {

  import opened Wrappers

  datatype Vec3 = Vec3(x: real, y: real, z: real)

  datatype Axis = X | Y | Z

  function Add(a: Vec3, b: Vec3): Vec3 { Vec3(a.x + b.x, a.y + b.y, a.z + b.z) }
  function Sub(a: Vec3, b: Vec3): Vec3 { Vec3(a.x - b.x, a.y - b.y, a.z - b.z) }
  function Scale(k: real, a: Vec3): Vec3 { Vec3(k * a.x, k * a.y, k * a.z) }
  function Neg(a: Vec3): Vec3 { Vec3(-a.x, -a.y, -a.z) }
  function Dot(a: Vec3, b: Vec3): real { a.x * b.x + a.y * b.y + a.z * b.z }
  function NormSq(a: Vec3): real { Dot(a, a) }
  function Cross(a: Vec3, b: Vec3): Vec3 {
    Vec3(a.y * b.z - a.z * b.y, a.z * b.x - a.x * b.z, a.x * b.y - a.y * b.x)
  }

  const Origin := Vec3(0.0, 0.0, 0.0)

  predicate IsUnit(a: Vec3) { NormSq(a) == 1.0 }

  /** An axis-aligned box or sampling area: its lower and upper corner rows (the
      two rows of a trimesh `bounds` array). */
  datatype Bounds = Bounds(lo: Vec3, hi: Vec3)

  /** Component of `v` along axis `a` (column `a` of a 1x3 numpy row). */
  function Get(v: Vec3, a: Axis): real {
    match a
    case X => v.x
    case Y => v.y
    case Z => v.z
  }

  /** `v` with its component along `a` replaced by `r`. */
  function With(v: Vec3, a: Axis, r: real): (w: Vec3)
    ensures Get(w, a) == r
    ensures forall b :: b != a ==> Get(w, b) == Get(v, b)
  {
    match a
    case X => Vec3(r, v.y, v.z)
    case Y => Vec3(v.x, r, v.z)
    case Z => Vec3(v.x, v.y, r)
  }

  /** The six canonical face directions, the keys -x, +x, -y, +y, -z, +z. */
  datatype Face = NegX | PosX | NegY | PosY | NegZ | PosZ

  const AllFaces: seq<Face> := [NegX, PosX, NegY, PosY, NegZ, PosZ]

  /** The position of a face in `AllFaces`: every face is listed. */
  function FaceIndex(f: Face): (i: nat)
    ensures i < |AllFaces| && AllFaces[i] == f
  {
    match f
    case NegX => 0
    case PosX => 1
    case NegY => 2
    case PosY => 3
    case NegZ => 4
    case PosZ => 5
  }

  /** The ray directions of the geometry checks, in their order (+x, -x, +y, -y, +z, -z). */
  const RayDirections: seq<Face> := [PosX, NegX, PosY, NegY, PosZ, NegZ]

  /** The position of a face in `RayDirections`: every face is cast along. */
  function RayIndex(f: Face): (i: nat)
    ensures i < |RayDirections| && RayDirections[i] == f
  {
    match f
    case PosX => 0
    case NegX => 1
    case PosY => 2
    case NegY => 3
    case PosZ => 4
    case NegZ => 5
  }

  function FaceNormal(f: Face): Vec3 {
    match f
    case NegX => Vec3(-1.0, 0.0, 0.0)
    case PosX => Vec3(1.0, 0.0, 0.0)
    case NegY => Vec3(0.0, -1.0, 0.0)
    case PosY => Vec3(0.0, 1.0, 0.0)
    case NegZ => Vec3(0.0, 0.0, -1.0)
    case PosZ => Vec3(0.0, 0.0, 1.0)
  }

  /** The component of `v` along the inward normal of face `f`, written out per
      face so that it stays linear. */
  function Inward(v: Vec3, f: Face): real {
    match f
    case NegX => v.x
    case PosX => -v.x
    case NegY => v.y
    case PosY => -v.y
    case NegZ => v.z
    case PosZ => -v.z
  }

  /** The inward component is the dot product with the negated face normal. */
  lemma InwardIsDot(v: Vec3, f: Face)
    ensures Inward(v, f) == Dot(v, Neg(FaceNormal(f)))
  {
    // Negating the normal inside the product directly is costly for the solver;
    // the two steps below keep every product linear.
    assert Dot(v, FaceNormal(f)) == -Inward(v, f);
    var u := FaceNormal(f);
    assert Dot(v, Neg(u)) == -Dot(v, u);
  }

  /** The face whose normal is the negation of `f`'s (the numpy `*= -1` on a face normal). */
  function Opposite(f: Face): (g: Face)
    ensures FaceNormal(g) == Neg(FaceNormal(f))
    ensures g != f
  {
    match f
    case NegX => PosX
    case PosX => NegX
    case NegY => PosY
    case PosY => NegY
    case NegZ => PosZ
    case PosZ => NegZ
  }

  /** The axis along which the normal of `f` points (the column where |n| == 1). */
  function NormalAxis(f: Face): (a: Axis)
    ensures Get(FaceNormal(f), a) == 1.0 || Get(FaceNormal(f), a) == -1.0
    ensures forall b :: b != a ==> Get(FaceNormal(f), b) == 0.0
  {
    match f
    case NegX => X
    case PosX => X
    case NegY => Y
    case PosY => Y
    case NegZ => Z
    case PosZ => Z
  }

  /** The two lateral axes of a face, in column order (the columns where the normal is 0). */
  function LateralAxes(f: Face): (r: (Axis, Axis))
    ensures Get(FaceNormal(f), r.0) == 0.0 && Get(FaceNormal(f), r.1) == 0.0
    ensures r.0 != r.1 && r.0 != NormalAxis(f) && r.1 != NormalAxis(f)
    ensures r.0 == X || (r.0 == Y && r.1 == Z)
  {
    match NormalAxis(f)
    case X => (Y, Z)
    case Y => (X, Z)
    case Z => (X, Y)
  }

  /** The orientation label of a face as the source spells it. */
  function Label(f: Face): string {
    match f
    case NegX => "-x"
    case PosX => "+x"
    case NegY => "-y"
    case PosY => "+y"
    case NegZ => "-z"
    case PosZ => "+z"
  }

  /** A key of the per-volume dictionaries: an orientation label such as "+x", or
      the tuple of a canonical face normal. */
  datatype Key = Named(text: string) | Normal(face: Face)

  lemma LabelInjective(f: Face, g: Face)
    ensures Label(f) == Label(g) ==> f == g
  {
    if Label(f) == Label(g) {
      assert Label(f)[0] == Label(g)[0] && Label(f)[1] == Label(g)[1];
    }
  }

  /** Inverse of `FaceNormal` on the six canonical vectors. */
  function FaceOfNormal(v: Vec3): (r: Option<Face>)
    ensures r.Some? <==> exists f :: FaceNormal(f) == v
    ensures r.Some? ==> FaceNormal(r.value) == v
  {
    if v == FaceNormal(NegX) then Some(NegX)
    else if v == FaceNormal(PosX) then Some(PosX)
    else if v == FaceNormal(NegY) then Some(NegY)
    else if v == FaceNormal(PosY) then Some(PosY)
    else if v == FaceNormal(NegZ) then Some(NegZ)
    else if v == FaceNormal(PosZ) then Some(PosZ)
    else None
  }

  lemma FaceNormalIsUnit(f: Face)
    ensures IsUnit(FaceNormal(f))
  {
  }

  lemma FaceNormalInjective(f: Face, g: Face)
    ensures FaceNormal(f) == FaceNormal(g) ==> f == g
  {
  }

  /** `np.clip(x, -1.0, 1.0)`, which the tracker applies to a cosine before `arccos`. */
  function Clip(x: real): (r: real)
    ensures -1.0 <= r <= 1.0
    ensures -1.0 <= x <= 1.0 ==> r == x
  {
    if x < -1.0 then -1.0 else if x > 1.0 then 1.0 else x
  }

  /** The transcendental functions used by the tracker.  `acosDeg` and `asinDeg`
      fill the angle columns of the tracking history; `acosDeg` also gives the
      incidence angle of the reflector's Lambertian fraction. */
  datatype MathLib = MathLib(sqrt: real -> real, exp: real -> real,
                             acosDeg: real -> real, asinDeg: real -> real)
  {
    ghost predicate Valid() {
      && (forall x :: 0.0 <= x ==> 0.0 <= sqrt(x) && sqrt(x) * sqrt(x) == x)
      && (forall x :: 0.0 < exp(x))
      && (forall x :: x <= 0.0 ==> exp(x) <= 1.0)
    }
  }

  lemma SqrtOfOne(m: MathLib)
    requires m.Valid()
    ensures m.sqrt(1.0) == 1.0
  {
    var r := m.sqrt(1.0);
    assert 0.0 <= r && r * r == 1.0;
    if r > 1.0 {
      PositiveProduct(r, r - 1.0);
      assert false;
    } else if r < 1.0 {
      assert false;
    }
  }

  lemma PositiveProduct(a: real, b: real)
    requires 0.0 < a && 0.0 < b
    ensures 0.0 < a * b
  {
  }

  lemma NonNegativeProduct(a: real, b: real)
    requires 0.0 <= a && 0.0 <= b
    ensures 0.0 <= a * b
  {
  }

  lemma SqrtPositive(m: MathLib, x: real)
    requires m.Valid() && 0.0 < x
    ensures 0.0 < m.sqrt(x)
  {
    assert 0.0 <= m.sqrt(x) && m.sqrt(x) * m.sqrt(x) == x;
  }

  /** Renormalisation `v /= np.linalg.norm(v)`. */
  function Normalize(m: MathLib, v: Vec3): (u: Vec3)
    requires m.Valid() && 0.0 < NormSq(v)
    ensures IsUnit(u)
  {
    SqrtPositive(m, NormSq(v));
    var s := m.sqrt(NormSq(v));
    var u := Scale(1.0 / s, v);
    NormalizeIsUnit(v, s);
    u
  }

  lemma NormalizeIsUnit(v: Vec3, s: real)
    requires 0.0 < s && s * s == NormSq(v)
    ensures IsUnit(Scale(1.0 / s, v))
  {
    var k := 1.0 / s;
    assert k * s == 1.0;
    calc {
      NormSq(Scale(k, v));
      (k * v.x) * (k * v.x) + (k * v.y) * (k * v.y) + (k * v.z) * (k * v.z);
      (k * k) * NormSq(v);
      (k * k) * (s * s);
      (k * s) * (k * s);
      1.0;
    }
  }

  /** Renormalising a vector that is already of unit length changes nothing. */
  lemma NormalizeUnit(m: MathLib, v: Vec3)
    requires m.Valid() && IsUnit(v)
    ensures Normalize(m, v) == v
  {
    SqrtOfOne(m);
  }
}
