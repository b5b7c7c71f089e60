/** The boundary optics of tracker.py: incidence cosine, Snell's law with total
    internal reflection, unpolarised Fresnel reflectance, the reflection and
    refraction vectors, the two interaction routines, and the traveled distance,
    time and attenuation of one step.  Random draws are parameters. */
module Optics {
  import opened Wrappers
  import opened RealMath

  // ---------------------------------------------------------------------------
  // Vector identities used below

  lemma DotSubLeft(a: Vec3, b: Vec3, c: Vec3)
    ensures Dot(Sub(a, b), c) == Dot(a, c) - Dot(b, c)
  {
  }

  lemma DotAddLeft(a: Vec3, b: Vec3, c: Vec3)
    ensures Dot(Add(a, b), c) == Dot(a, c) + Dot(b, c)
  {
  }

  lemma DotScaleLeft(k: real, a: Vec3, c: Vec3)
    ensures Dot(Scale(k, a), c) == k * Dot(a, c)
  {
  }

  lemma DotSymmetric(a: Vec3, b: Vec3)
    ensures Dot(a, b) == Dot(b, a)
  {
  }

  lemma DotNegRight(a: Vec3, b: Vec3)
    ensures Dot(a, Neg(b)) == -Dot(a, b)
  {
  }

  /** |a - b|^2 expanded. */
  lemma NormSqSub(a: Vec3, b: Vec3)
    ensures NormSq(Sub(a, b)) == NormSq(a) - 2.0 * Dot(a, b) + NormSq(b)
  {
  }

  lemma NormSqAdd(a: Vec3, b: Vec3)
    ensures NormSq(Add(a, b)) == NormSq(a) + 2.0 * Dot(a, b) + NormSq(b)
  {
  }

  lemma NormSqScale(k: real, a: Vec3)
    ensures NormSq(Scale(k, a)) == (k * k) * NormSq(a)
  {
  }

  lemma SquareNonNegative(x: real)
    ensures 0.0 <= x * x
  {
    if x < 0.0 {
      NonNegativeProduct(-x, -x);
    } else {
      NonNegativeProduct(x, x);
    }
  }

  /** A real in [-1, 1] has its square in [0, 1]. */
  lemma SquareAtMostOne(x: real)
    requires -1.0 <= x <= 1.0
    ensures 0.0 <= x * x <= 1.0
  {
    NonNegativeProduct(1.0 - x, 1.0 + x);
    if x < 0.0 {
      NonNegativeProduct(-x, -x);
    } else {
      NonNegativeProduct(x, x);
    }
  }

  /** Cauchy-Schwarz for unit vectors: their dot product lies in [-1, 1]. */
  lemma UnitDotBounded(a: Vec3, b: Vec3)
    requires IsUnit(a) && IsUnit(b)
    ensures -1.0 <= Dot(a, b) <= 1.0
  {
    NormSqSub(a, b);
    NormSqAdd(a, b);
    assert 0.0 <= NormSq(Sub(a, b));
    assert 0.0 <= NormSq(Add(a, b));
  }

  // ---------------------------------------------------------------------------
  // calculateCosineIncidenceAngle, calculateSineTransmissionAngle,
  // calculateReflectionProbability

  /** The incidence cosine: a ValueError when the direction and the normal point
      the same way, otherwise the non-negative cosine -(d.n). */
  function CosIncidence(d: Vec3, n: Vec3): (r: Result<real>)
    ensures r.Err? <==> Dot(d, n) > 0.0
    ensures r.Err? ==> r.error == ValueError
    ensures r.Ok? ==> 0.0 <= r.value && r.value + Dot(d, n) == 0.0
  {
    if Dot(d, n) > 0.0 then Err(ValueError) else Ok(-Dot(d, n))
  }

  function SinIncidence(m: MathLib, cosI: real): real {
    m.sqrt(1.0 - cosI * cosI)
  }

  /** n1/n2 times the incidence sine: Snell's law before the TIR test. */
  function SnellSine(m: MathLib, cosI: real, n1: real, n2: real): real
    requires n2 != 0.0
  {
    (n1 / n2) * SinIncidence(m, cosI)
  }

  /** The transmission sine, None under total internal reflection, and a
      ValueError for a negative sine. */
  function SinTransmission(m: MathLib, cosI: real, n1: real, n2: real): (r: Result<Option<real>>)
    requires n2 != 0.0
    ensures r == Ok(None) <==> SnellSine(m, cosI, n1, n2) > 1.0
    ensures r.Err? <==> SnellSine(m, cosI, n1, n2) < 0.0
    ensures r.Err? ==> r.error == ValueError
    ensures r.Ok? && r.value.Some? ==>
              0.0 <= r.value.value <= 1.0 && n2 * r.value.value == n1 * SinIncidence(m, cosI)
  {
    var s := SnellSine(m, cosI, n1, n2);
    if s > 1.0 then Ok(None)
    else if s < 0.0 then Err(ValueError)
    else Ok(Some(s))
  }

  /** With positive indices and a cosine in [0, 1] the transmission sine never
      raises. */
  lemma SinTransmissionNeverFails(m: MathLib, cosI: real, n1: real, n2: real)
    requires m.Valid() && 0.0 < n1 && 0.0 < n2 && 0.0 <= cosI <= 1.0
    ensures SinTransmission(m, cosI, n1, n2).Ok?
  {
    SquareAtMostOne(cosI);
    var s := SinIncidence(m, cosI);
    assert 0.0 <= s;
    assert 0.0 < n1 / n2;
    assert 0.0 <= (n1 / n2) * s;
  }

  function CosTransmission(m: MathLib, sinT: real): real {
    m.sqrt(1.0 - sinT * sinT)
  }

  /** The denominators of both Fresnel amplitude ratios are nonzero. */
  predicate FresnelDefined(m: MathLib, cosI: real, sinT: real, n1: real, n2: real) {
    && n1 * cosI + n2 * CosTransmission(m, sinT) != 0.0
    && n1 * CosTransmission(m, sinT) + n2 * cosI != 0.0
  }

  /** The Fresnel amplitude ratio (a - b)/(a + b). */
  function AmplitudeRatio(a: real, b: real): real
    requires a + b != 0.0
  {
    (a - b) / (a + b)
  }

  /** Unpolarised Fresnel reflectance from both cosines: the mean of the squared
      perpendicular and parallel amplitude ratios. */
  function Fresnel(n1: real, n2: real, cosI: real, cosT: real): real
    requires n1 * cosI + n2 * cosT != 0.0 && n1 * cosT + n2 * cosI != 0.0
  {
    var rs := AmplitudeRatio(n1 * cosI, n2 * cosT);
    var rp := AmplitudeRatio(n1 * cosT, n2 * cosI);
    0.5 * (rs * rs + rp * rp)
  }

  /** The reflectance with cosT derived from the transmission sine. */
  function Reflectance(m: MathLib, cosI: real, sinT: real, n1: real, n2: real): real
    requires FresnelDefined(m, cosI, sinT, n1, n2)
  {
    Fresnel(n1, n2, cosI, CosTransmission(m, sinT))
  }

  /** The reflection probability, a ValueError when it exceeds 1. */
  function ReflectionProbability(m: MathLib, cosI: real, sinT: real, n1: real, n2: real): (r: Result<real>)
    requires FresnelDefined(m, cosI, sinT, n1, n2)
    ensures r.Err? <==> Reflectance(m, cosI, sinT, n1, n2) > 1.0
    ensures r.Err? ==> r.error == ValueError
    ensures r.Ok? ==> 0.0 <= r.value <= 1.0 && r.value == Reflectance(m, cosI, sinT, n1, n2)
  {
    var R := Reflectance(m, cosI, sinT, n1, n2);
    if R > 1.0 then Err(ValueError) else Ok(R)
  }

  /** The squared amplitude ratio lies in [0, 1] for non-negative a, b. */
  lemma RatioSquareBounded(a: real, b: real)
    requires 0.0 <= a && 0.0 <= b && 0.0 < a + b
    ensures 0.0 <= AmplitudeRatio(a, b) * AmplitudeRatio(a, b) <= 1.0
  {
    var q := AmplitudeRatio(a, b);
    assert q * (a + b) == a - b;
    assert -1.0 <= q <= 1.0;
    SquareAtMostOne(q);
  }

  /** The scalar core of the reflectance bound. */
  lemma FresnelBound(n1: real, n2: real, cosI: real, cosT: real)
    requires 0.0 < n1 && 0.0 < n2 && 0.0 <= cosI && 0.0 <= cosT
    requires n1 * cosI + n2 * cosT != 0.0 && n1 * cosT + n2 * cosI != 0.0
    ensures 0.0 <= Fresnel(n1, n2, cosI, cosT) <= 1.0
  {
    NonNegativeProduct(n1, cosI);
    NonNegativeProduct(n2, cosT);
    NonNegativeProduct(n1, cosT);
    NonNegativeProduct(n2, cosI);
    RatioSquareBounded(n1 * cosI, n2 * cosT);
    RatioSquareBounded(n1 * cosT, n2 * cosI);
    MeanOfSquaresBounded(AmplitudeRatio(n1 * cosI, n2 * cosT), AmplitudeRatio(n1 * cosT, n2 * cosI));
  }

  lemma MeanOfSquaresBounded(x: real, y: real)
    requires 0.0 <= x * x <= 1.0 && 0.0 <= y * y <= 1.0
    ensures 0.0 <= 0.5 * (x * x + y * y) <= 1.0
  {
  }

  lemma CosTransmissionInRange(m: MathLib, sinT: real)
    requires m.Valid() && 0.0 <= sinT <= 1.0
    ensures 0.0 <= CosTransmission(m, sinT)
    ensures CosTransmission(m, sinT) * CosTransmission(m, sinT) == 1.0 - sinT * sinT
  {
    SquareAtMostOne(sinT);
  }

  /** With positive indices and non-negative cosines the Fresnel formula never
      exceeds 1, so calculateReflectionProbability never raises. */
  lemma ReflectanceAtMostOne(m: MathLib, cosI: real, sinT: real, n1: real, n2: real)
    requires m.Valid() && 0.0 < n1 && 0.0 < n2 && 0.0 <= cosI && 0.0 <= sinT <= 1.0
    requires FresnelDefined(m, cosI, sinT, n1, n2)
    ensures 0.0 <= Reflectance(m, cosI, sinT, n1, n2) <= 1.0
    ensures ReflectionProbability(m, cosI, sinT, n1, n2).Ok?
  {
    CosTransmissionInRange(m, sinT);
    ReflectanceBound(m, cosI, sinT, n1, n2);
  }

  lemma ReflectanceBound(m: MathLib, cosI: real, sinT: real, n1: real, n2: real)
    requires 0.0 < n1 && 0.0 < n2 && 0.0 <= cosI && 0.0 <= CosTransmission(m, sinT)
    requires FresnelDefined(m, cosI, sinT, n1, n2)
    ensures 0.0 <= Reflectance(m, cosI, sinT, n1, n2) <= 1.0
  {
    FresnelBound(n1, n2, cosI, CosTransmission(m, sinT));
  }

  /** At normal incidence (cosI == 1, sinT == 0, hence cosT == 1) the
      reflectance is ((n1 - n2)/(n1 + n2))^2. */
  lemma NormalIncidenceReflectance(m: MathLib, n1: real, n2: real)
    requires m.Valid() && 0.0 < n1 && 0.0 < n2
    ensures FresnelDefined(m, 1.0, 0.0, n1, n2)
    ensures Reflectance(m, 1.0, 0.0, n1, n2) == ((n1 - n2) / (n1 + n2)) * ((n1 - n2) / (n1 + n2))
  {
    SqrtOfOne(m);
    assert CosTransmission(m, 0.0) == 1.0;
    assert Fresnel(n1, n2, 1.0, 1.0) == ((n1 - n2) / (n1 + n2)) * ((n1 - n2) / (n1 + n2)) by {
      assert AmplitudeRatio(n1 * 1.0, n2 * 1.0) == (n1 - n2) / (n1 + n2);
    }
  }

  // ---------------------------------------------------------------------------
  // doReflection, doTransmission, doLambertian

  /** The reflected vector before renormalisation, d - 2(d.n)n. */
  function ReflectedRaw(d: Vec3, n: Vec3): Vec3 {
    Sub(d, Scale(2.0 * Dot(d, n), n))
  }

  /** For a unit normal, reflection negates the normal component and keeps the length. */
  lemma ReflectedRawProperties(d: Vec3, n: Vec3)
    requires IsUnit(n)
    ensures Dot(ReflectedRaw(d, n), n) == -Dot(d, n)
    ensures NormSq(ReflectedRaw(d, n)) == NormSq(d)
  {
    var k := 2.0 * Dot(d, n);
    DotSubLeft(d, Scale(k, n), n);
    DotScaleLeft(k, n, n);
    NormSqSub(d, Scale(k, n));
    DotSymmetric(d, Scale(k, n));
    DotScaleLeft(k, n, d);
    DotSymmetric(n, d);
    NormSqScale(k, n);
    assert Dot(d, Scale(k, n)) == k * Dot(d, n);
    assert NormSq(Sub(d, Scale(k, n))) == NormSq(d) - 2.0 * (k * Dot(d, n)) + k * k;
  }

  /** doReflection: the renormalised reflected vector; the polarisation is
      returned unchanged. */
  function DoReflection(m: MathLib, d: Vec3, pol: Vec3, n: Vec3): (r: (Vec3, Vec3))
    requires m.Valid() && 0.0 < NormSq(ReflectedRaw(d, n))
    ensures IsUnit(r.0) && r.1 == pol
    ensures IsUnit(d) && IsUnit(n) ==> r.0 == ReflectedRaw(d, n) && Dot(r.0, n) == -Dot(d, n)
  {
    var v := Normalize(m, ReflectedRaw(d, n));
    if IsUnit(d) && IsUnit(n) then
      ReflectedRawProperties(d, n);
      NormalizeUnit(m, ReflectedRaw(d, n));
      (v, pol)
    else
      (v, pol)
  }

  /** The refracted vector before renormalisation, (n1/n2)(d + cosI n) - cosT n. */
  function TransmittedRaw(m: MathLib, d: Vec3, n: Vec3, cosI: real, sinT: real, n1: real, n2: real): Vec3
    requires n2 != 0.0
  {
    Sub(Scale(n1 / n2, Add(d, Scale(cosI, n))), Scale(CosTransmission(m, sinT), n))
  }

  /** The tangential part d + cosI n of a unit direction is orthogonal to the
      unit normal and has squared length 1 - cosI^2. */
  lemma TangentialPart(d: Vec3, n: Vec3, cosI: real)
    requires IsUnit(d) && IsUnit(n) && cosI == -Dot(d, n)
    ensures Dot(Add(d, Scale(cosI, n)), n) == 0.0
    ensures NormSq(Add(d, Scale(cosI, n))) == 1.0 - cosI * cosI
  {
    var w := Add(d, Scale(cosI, n));
    assert Dot(w, n) == Dot(d, n) + cosI * NormSq(n);
    assert NormSq(w) == NormSq(d) + 2.0 * cosI * Dot(d, n) + cosI * cosI * NormSq(n);
  }

  /** k w - c n for w orthogonal to the unit normal n. */
  lemma OrthogonalCombination(w: Vec3, n: Vec3, k: real, c: real)
    requires IsUnit(n) && Dot(w, n) == 0.0
    ensures Dot(Sub(Scale(k, w), Scale(c, n)), n) == -c
    ensures NormSq(Sub(Scale(k, w), Scale(c, n))) == (k * k) * NormSq(w) + c * c
  {
    var t := Sub(Scale(k, w), Scale(c, n));
    assert Dot(t, n) == k * Dot(w, n) - c * NormSq(n);
    assert NormSq(t) == (k * k) * NormSq(w) - 2.0 * k * c * Dot(w, n) + (c * c) * NormSq(n);
  }

  /** Snell's law closes the unit length of the refracted vector. */
  lemma SnellUnitLength(k: real, sinI: real, sinT: real, cosI: real, cosT: real)
    requires sinI * sinI == 1.0 - cosI * cosI && cosT * cosT == 1.0 - sinT * sinT
    requires k * sinI == sinT
    ensures (k * k) * (1.0 - cosI * cosI) + cosT * cosT == 1.0
  {
    assert (k * k) * (sinI * sinI) == (k * sinI) * (k * sinI);
  }

  /** For unit d and n, cosI == -(d.n) and a Snell-consistent sine in [0, 1],
      the refracted vector is already of unit length and its normal component
      is -cosT: the photon continues across the boundary. */
  lemma TransmittedRawProperties(m: MathLib, d: Vec3, n: Vec3, cosI: real, sinT: real, n1: real, n2: real)
    requires m.Valid() && 0.0 < n2 && IsUnit(d) && IsUnit(n)
    requires cosI == -Dot(d, n) && 0.0 <= sinT <= 1.0
    requires n2 * sinT == n1 * SinIncidence(m, cosI)
    ensures Dot(TransmittedRaw(m, d, n, cosI, sinT, n1, n2), n) == -CosTransmission(m, sinT)
    ensures IsUnit(TransmittedRaw(m, d, n, cosI, sinT, n1, n2))
  {
    var k := n1 / n2;
    var cosT := CosTransmission(m, sinT);
    var w := Add(d, Scale(cosI, n));
    TangentialPart(d, n, cosI);
    OrthogonalCombination(w, n, k, cosT);
    UnitDotBounded(d, n);
    SquareAtMostOne(cosI);
    SquareAtMostOne(sinT);
    var sinI := SinIncidence(m, cosI);
    assert sinI * sinI == 1.0 - cosI * cosI;
    assert cosT * cosT == 1.0 - sinT * sinT;
    assert k * sinI == sinT by {
      assert n2 * (k * sinI) == n1 * sinI;
    }
    SnellUnitLength(k, sinI, sinT, cosI, cosT);
    assert (k * k) * NormSq(w) == (k * k) * (1.0 - cosI * cosI);
  }

  /** doTransmission: the renormalised refracted vector; the polarisation is
      returned unchanged. */
  function DoTransmission(m: MathLib, d: Vec3, pol: Vec3, n: Vec3, cosI: real, sinT: real, n1: real, n2: real): (r: (Vec3, Vec3))
    requires m.Valid() && n2 != 0.0 && 0.0 < NormSq(TransmittedRaw(m, d, n, cosI, sinT, n1, n2))
    ensures IsUnit(r.0) && r.1 == pol
  {
    (Normalize(m, TransmittedRaw(m, d, n, cosI, sinT, n1, n2)), pol)
  }

  /** The accepted direction of doLambertian: the sampled unit direction is
      turned into the hemisphere of the normal.  The rejection loop that makes
      the cosine distribution is not modelled; the raw direction is a draw. */
  function LambertianDirection(raw: Vec3, n: Vec3): (v: Vec3)
    ensures 0.0 <= Dot(v, n)
    ensures v == raw || v == Neg(raw)
    ensures IsUnit(raw) ==> IsUnit(v)
  {
    if Dot(raw, n) < 0.0 then
      DotSymmetric(Neg(raw), n);
      DotNegRight(n, raw);
      DotSymmetric(n, raw);
      Neg(raw)
    else raw
  }

  // ---------------------------------------------------------------------------
  // interactWithLocalSurface and interactWithReflector

  /** The interaction types recorded in the tracking history. */
  datatype Kind = Emission | Reflection | Transmission | TIR

  /** The outcome of one boundary interaction.  `normal` is the local normal after
      any flip, which the source performs in place on the caller's array. */
  datatype Interaction = Interaction(kind: Kind, cosI: real, sinT: Option<real>,
                                     dir: Vec3, pol: Vec3, normal: Vec3)

  /** The local normal turned against the photon direction. */
  function FacingNormal(d: Vec3, n: Vec3): (f: Vec3)
    ensures Dot(d, f) <= 0.0
    ensures f == n || f == Neg(n)
  {
    if Dot(d, n) > 0.0 then
      DotNegRight(d, n);
      Neg(n)
    else n
  }

  /** What interactWithLocalSurface needs of its inputs: positive indices, unit
      vectors, and not the grazing incidence between equal indices, where the
      parallel Fresnel ratio is 0/0. */
  predicate LocalSurfaceAdmissible(d: Vec3, n: Vec3, n1: real, n2: real) {
    0.0 < n1 && 0.0 < n2 && IsUnit(d) && IsUnit(n) && (Dot(d, n) != 0.0 || n1 != n2)
  }

  lemma FacingNormalFacts(d: Vec3, n: Vec3)
    requires IsUnit(d) && IsUnit(n)
    ensures IsUnit(FacingNormal(d, n))
    ensures 0.0 <= -Dot(d, FacingNormal(d, n)) <= 1.0
    ensures Dot(d, FacingNormal(d, n)) != 0.0 <==> Dot(d, n) != 0.0
  {
    DotNegRight(d, n);
    assert NormSq(Neg(n)) == NormSq(n);
    UnitDotBounded(d, FacingNormal(d, n));
  }

  /** interactWithLocalSurface: u is the uniform draw compared with the
      reflection probability.  Both renormalisations are the identity here, so
      the new direction is the raw reflected or refracted vector. */
  function InteractWithLocalSurface(m: MathLib, d: Vec3, pol: Vec3, n: Vec3, n1: real, n2: real, u: real): (r: Interaction)
    requires m.Valid() && LocalSurfaceAdmissible(d, n, n1, n2)
    ensures r.normal == FacingNormal(d, n) && r.cosI == -Dot(d, r.normal)
    ensures r.kind != Emission && r.pol == pol
    ensures r.kind == TIR <==> r.sinT.None?
    ensures r.sinT.None? <==> SnellSine(m, r.cosI, n1, n2) > 1.0
    ensures r.sinT.Some? ==> SinTransmission(m, r.cosI, n1, n2) == Ok(r.sinT)
                             && FresnelDefined(m, r.cosI, r.sinT.value, n1, n2)
                             && (r.kind == Reflection <==> u < Reflectance(m, r.cosI, r.sinT.value, n1, n2))
    ensures r.kind != Transmission ==> r.dir == ReflectedRaw(d, r.normal)
    ensures r.kind == Transmission ==> r.dir == TransmittedRaw(m, d, r.normal, r.cosI, r.sinT.value, n1, n2)
  {
    var nf := FacingNormal(d, n);
    FacingNormalFacts(d, n);
    var cosI := -Dot(d, nf);
    SinTransmissionNeverFails(m, cosI, n1, n2);
    ReflectedRawProperties(d, nf);
    match SinTransmission(m, cosI, n1, n2).value
    case None =>
      Interaction(TIR, cosI, None, DoReflection(m, d, pol, nf).0, pol, nf)
    case Some(sinT) =>
      LocalFresnelDefined(m, cosI, sinT, n1, n2);
      ReflectanceAtMostOne(m, cosI, sinT, n1, n2);
      var R := ReflectionProbability(m, cosI, sinT, n1, n2).value;
      if u < R then
        Interaction(Reflection, cosI, Some(sinT), DoReflection(m, d, pol, nf).0, pol, nf)
      else
        TransmittedRawProperties(m, d, nf, cosI, sinT, n1, n2);
        NormalizeUnit(m, TransmittedRaw(m, d, nf, cosI, sinT, n1, n2));
        Interaction(Transmission, cosI, Some(sinT), DoTransmission(m, d, pol, nf, cosI, sinT, n1, n2).0, pol, nf)
  }

  /** The new direction of interactWithLocalSurface is a unit vector that goes
      back into the incidence side on reflection and TIR (its normal component
      is -(d.n)) and crosses over on transmission (normal component -cosT). */
  lemma LocalSurfaceDirection(m: MathLib, d: Vec3, pol: Vec3, n: Vec3, n1: real, n2: real, u: real)
    requires m.Valid() && LocalSurfaceAdmissible(d, n, n1, n2)
    ensures var r := InteractWithLocalSurface(m, d, pol, n, n1, n2, u);
            && IsUnit(r.dir) && 0.0 <= r.cosI <= 1.0
            && (r.kind != Transmission ==> Dot(r.dir, r.normal) == r.cosI)
            && (r.kind == Transmission ==> Dot(r.dir, r.normal) == -CosTransmission(m, r.sinT.value)
                                           && Dot(r.dir, r.normal) <= 0.0)
  {
    var r := InteractWithLocalSurface(m, d, pol, n, n1, n2, u);
    FacingNormalFacts(d, n);
    ReflectedRawProperties(d, r.normal);
    if r.kind == Transmission {
      var sinT := r.sinT.value;
      TransmittedRawProperties(m, d, r.normal, r.cosI, sinT, n1, n2);
      CosTransmissionInRange(m, sinT);
    }
  }

  /** Away from grazing incidence between equal indices, the Fresnel
      denominators are positive. */
  lemma LocalFresnelDefined(m: MathLib, cosI: real, sinT: real, n1: real, n2: real)
    requires m.Valid() && 0.0 < n1 && 0.0 < n2 && 0.0 <= cosI <= 1.0 && 0.0 <= sinT <= 1.0
    requires SinTransmission(m, cosI, n1, n2) == Ok(Some(sinT))
    requires cosI != 0.0 || n1 != n2
    ensures FresnelDefined(m, cosI, sinT, n1, n2)
  {
    var cosT := CosTransmission(m, sinT);
    SquareAtMostOne(sinT);
    assert 0.0 <= cosT && cosT * cosT == 1.0 - sinT * sinT;
    if cosI == 0.0 {
      SqrtOfOne(m);
      assert SinIncidence(m, cosI) == 1.0;
      assert n2 * sinT == n1;
      assert sinT != 1.0;
      assert 0.0 < 1.0 - sinT * sinT;
      SqrtPositive(m, 1.0 - sinT * sinT);
      assert 0.0 < n2 * cosT && 0.0 < n1 * cosT;
    } else {
      assert 0.0 < n1 * cosI && 0.0 < n2 * cosI;
    }
  }

  /** interactWithLocalSurface raises nothing on admissible inputs: the flip
      makes the incidence test pass and the TIR test makes the sine and the
      reflectance stay in range. */
  lemma LocalSurfaceNeverRaises(m: MathLib, d: Vec3, n: Vec3, n1: real, n2: real)
    requires m.Valid() && LocalSurfaceAdmissible(d, n, n1, n2)
    ensures CosIncidence(d, FacingNormal(d, n)).Ok?
    ensures SinTransmission(m, -Dot(d, FacingNormal(d, n)), n1, n2).Ok?
  {
    DotNegRight(d, n);
    assert IsUnit(FacingNormal(d, n));
    UnitDotBounded(d, FacingNormal(d, n));
    SinTransmissionNeverFails(m, -Dot(d, FacingNormal(d, n)), n1, n2);
  }

  /** The optical data of a reflector material: its reflectivity, the
      double-exponential Lambertian-fraction fit and the specular-lobe widths. */
  datatype ReflectorOptics = ReflectorOptics(reflectivity: real, a1: real, b1: real, a2: real, b2: real,
                                             lobeSigma: seq<real>)

  /** The Lambertian fraction a1 e^(b1 theta) + a2 e^(b2 theta) at an incidence
      angle theta in degrees. */
  function LambertianFraction(m: MathLib, ro: ReflectorOptics, thetaDeg: real): real {
    ro.a1 * m.exp(ro.b1 * thetaDeg) + ro.a2 * m.exp(ro.b2 * thetaDeg)
  }

  /** interactWithReflector: u1 decides reflection against the reflectivity, u2
      decides Lambertian against specular lobe, `lambertRaw` is the sampled
      Lambertian direction and `lobeDir` the specular-lobe direction. */
  function InteractWithReflector(m: MathLib, ro: ReflectorOptics, n: Vec3, d: Vec3, pol: Vec3,
                                 u1: real, u2: real, lambertRaw: Vec3, lobeDir: Vec3): (r: Result<Interaction>)
    ensures r.Err? <==> Dot(d, n) > 0.0
    ensures r.Err? ==> r.error == ValueError
    ensures r.Ok? ==> r.value.pol == pol && r.value.cosI == -Dot(d, n) && r.value.normal == n
    ensures r.Ok? ==> (r.value.kind == Reflection <==> u1 < ro.reflectivity)
    ensures r.Ok? ==> (r.value.kind == Reflection || r.value.kind == Transmission)
    ensures r.Ok? && r.value.kind == Reflection ==>
              r.value.sinT.None?
              && (u2 < LambertianFraction(m, ro, m.acosDeg(Clip(r.value.cosI))) ==>
                    r.value.dir == LambertianDirection(lambertRaw, n))
              && (!(u2 < LambertianFraction(m, ro, m.acosDeg(Clip(r.value.cosI)))) ==> r.value.dir == lobeDir)
    ensures r.Ok? && r.value.kind == Transmission ==>
              r.value.dir == d && r.value.sinT == Some(m.sqrt(1.0 - Dot(d, Neg(n)) * Dot(d, Neg(n))))
  {
    var cosI :- CosIncidence(d, n);
    if u1 < ro.reflectivity then
      var lf := LambertianFraction(m, ro, m.acosDeg(Clip(cosI)));
      var dir := if u2 < lf then LambertianDirection(lambertRaw, n) else lobeDir;
      Ok(Interaction(Reflection, cosI, None, dir, pol, n))
    else
      var sinT := m.sqrt(1.0 - Dot(d, Neg(n)) * Dot(d, Neg(n)));
      Ok(Interaction(Transmission, cosI, Some(sinT), d, pol, n))
  }

  // ---------------------------------------------------------------------------
  // traveledDistanceAndTime and the attenuation of updatePhotonInfo

  /** Speed of light in vacuum, m/s. */
  const SpeedOfLight: real := 299792458.0

  /** Photon speed in a medium of index n, in micrometres per nanosecond. */
  function PhotonSpeed(n: real): real
    requires n != 0.0
  {
    SpeedOfLight * 0.001 / n
  }

  /** The distance to the intersection point (um) and the time it takes (ns). */
  function TraveledDistanceAndTime(m: MathLib, position: Vec3, point: Vec3, n: real): (r: (real, real))
    requires m.Valid() && 0.0 < n
    ensures r.0 == m.sqrt(NormSq(Sub(point, position))) && 0.0 <= r.0
    ensures 0.0 <= r.1 && r.1 * PhotonSpeed(n) == r.0
  {
    assert 0.0 <= NormSq(Sub(point, position));
    var dist := m.sqrt(NormSq(Sub(point, position)));
    (dist, dist / PhotonSpeed(n))
  }

  /** The weight factor exp(-(distance in mm)/L) of one step. */
  function AttenuationFactor(m: MathLib, distance: real, attenuationLength: real): (f: real)
    requires m.Valid() && 0.0 <= distance && 0.0 < attenuationLength
    ensures 0.0 < f <= 1.0
  {
    assert 0.0 <= (distance * 0.001) / attenuationLength;
    m.exp(-(distance * 0.001) / attenuationLength)
  }

  /** The weight after a step of `distance` (tracker.py:768): attenuation
      keeps a non-negative weight non-negative, does not raise it, and keeps a
      positive weight positive. */
  function Attenuate(m: MathLib, weight: real, distance: real, attenuationLength: real): (w: real)
    requires m.Valid() && 0.0 <= distance && 0.0 < attenuationLength
    ensures 0.0 <= weight ==> 0.0 <= w <= weight
    ensures 0.0 < weight ==> 0.0 < w
  {
    var f := AttenuationFactor(m, distance, attenuationLength);
    if 0.0 <= weight then
      NonNegativeProduct(weight, 1.0 - f);
      if 0.0 < weight then PositiveProduct(weight, f); weight * f else weight * f
    else weight * f
  }
}
