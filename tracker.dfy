/** The photon tracking loops of src/tracker.py: `updatePhotonInfo`,
    `prepareSurfaceTrimesh`, `trackOverSurfaceTrimesh` and `trackPhoton`.  The
    photon is the mutable `Photon` object; the history is a sequence that each
    interaction extends by one row.  The geometry is read only, so the tracker sees
    it as a value (`World`) whose ray queries are functions, and the random draws
    come from a stream `rng` read at a cursor. */
module Tracker {

  import opened Wrappers
  import opened RealMath
  import opened Optics
  import opened Materials
  import opened Intersector
  import opened OpticalPhoton
  import opened TrackingHistory

  // ---------------------------------------------------------------------------
  // The world the tracker reads
  // ---------------------------------------------------------------------------

  /** What the tracker reads of one volume: its material, the sampling bounds of
      its surface meshes by key (`None` when `surfaceTrimeshes` is None), its
      cuboid and its touching-volumes dictionary. */
  datatype VolumeView = VolumeView(material: Material, surfaces: Option<map<Key, Bounds>>, bounds: Bounds,
                                   touching: Option<map<Key, string>>)

  /** The volumes in dictionary order and by name, with the ray queries:
      `volumeHits(v, o, d)` are the hits of the ray from `o` along `d` with the
      cuboid of `v`, `surfaceHits(v, f, s, o, d)` those with the surface mesh of
      plane `f` of `v` shifted by `s`. */
  datatype World = World(order: seq<string>, volumes: map<string, VolumeView>,
                         volumeHits: (string, Vec3, Vec3) -> seq<VolumeHit>,
                         surfaceHits: (string, Face, Vec3, Vec3, Vec3) -> seq<LocalHit>)

  /** `if volume.surfaceTrimeshes:`, the truth value of the dictionary. */
  predicate Rough(v: VolumeView) {
    v.surfaces.Some? && |v.surfaces.value| > 0
  }

  predicate IsDetector(volume: string) {
    volume == "PD_l" || volume == "PD_r"
  }

  /** The photon is killed once its weight is below this (tracker.py:1288). */
  const MinWeight: real := 0.0001
  /** prepareSurfaceTrimesh resamples while its counter is below this (tracker.py:381). */
  const MaxResamples: nat := 20
  /** trackOverSurfaceTrimesh kills once its counter exceeds this (tracker.py:1081). */
  const MaxLocalInteractions: nat := 20

  /** What `getVolumeTrimeshIntersection` reads of the photon's own volume. */
  function OwnOf(w: World, volume: string, o: Vec3, d: Vec3): Option<OwnVolume> {
    if volume in w.volumes then Some(OwnVolume(w.volumeHits(volume, o, d), w.volumes[volume].touching)) else None
  }

  /** The hits of the ray with every volume, in dictionary order. */
  function ScansOf(w: World, o: Vec3, d: Vec3): (s: seq<Scan>)
    ensures |s| == |w.order| && forall i :: 0 <= i < |s| ==> s[i] == Scan(w.order[i], w.volumeHits(w.order[i], o, d))
  {
    seq(|w.order|, i requires 0 <= i < |w.order| => Scan(w.order[i], w.volumeHits(w.order[i], o, d)))
  }

  // ---------------------------------------------------------------------------
  // Random draws
  // ---------------------------------------------------------------------------

  /** The draws one random step consumes: two uniforms in [0, 1), the raw
      Lambertian direction and the specular-lobe direction. */
  datatype Draw = Draw(u1: real, u2: real, lambertRaw: Vec3, lobeDir: Vec3)

  predicate DrawValid(d: Draw) {
    0.0 <= d.u1 < 1.0 && 0.0 <= d.u2 < 1.0
  }

  ghost predicate DrawsValid(rng: nat -> Draw) {
    forall k :: DrawValid(rng(k))
  }

  // ---------------------------------------------------------------------------
  // How a tracking stage ends
  // ---------------------------------------------------------------------------

  /** Why the source sets `alive = False`. */
  datatype Fate = NoCrossing | LowWeight | Detected | TrappedAtCorner | EscapedBounds | TrappedInFeatures

  /** `Continue`: the stage ended with the photon as alive as before; `Killed`:
      it set `alive = False` for these reasons; `Raised`: the source raises;
      `Undefined`: an interaction the optics are not defined for (a non-unit
      vector, a negative index, a non-positive attenuation length, or grazing
      incidence between equal indices, where the source computes with negative,
      infinite or NaN values); `OutOfFuel`: the step bound ran out. */
  datatype Status = Continue | Killed(fates: set<Fate>) | Raised(error: Error) | Undefined | OutOfFuel

  /** The photon is described by the last row of a chained history. */
  predicate Tracks(p: Photon, h: seq<Record>)
    reads p
  {
    Describes(h, p.position, p.momentumDir, p.polarizationDir, p.time, p.weight)
  }

  // ---------------------------------------------------------------------------
  // The history
  // ---------------------------------------------------------------------------

  /** The history trackPhoton starts (tracker.py:1177-1194): the emission row alone. */
  method StartHistory(id: int, p: Photon) returns (h: seq<Record>)
    ensures h == [EmissionRecord(id, p.position, p.volume, p.momentumDir, p.polarizationDir, p.time, p.weight)]
    ensures Tracks(p, h) && h[0].step == 0 && h[0].relTime == 0.0 && h[0].distance == 0.0
  {
    h := [EmissionRecord(id, p.position, p.volume, p.momentumDir, p.polarizationDir, p.time, p.weight)];
    EmissionStarts(id, p.position, p.volume, p.momentumDir, p.polarizationDir, p.time, p.weight);
  }

  /** `updatePhotonInfo` (tracker.py:698-790): the photon moves to the point with its
      new directions, its time and distance grow by the step's, its weight is
      attenuated, and one row is appended; a history that described the photon
      before goes on describing it. */
  method UpdatePhotonInfo(m: MathLib, p: Photon, history: seq<Record>, point: Vec3, kind: Kind, plane: Face,
                          dir: Vec3, pol: Vec3, cosI: real, sinT: Option<real>, dd: real, dt: real, attLen: real)
    returns (h: seq<Record>)
    requires m.Valid() && |history| > 0 && kind != Emission && 0.0 <= dd && 0.0 < attLen
    modifies p
    ensures p.position == point && p.momentumDir == dir && p.polarizationDir == pol
    ensures p.time == old(p.time) + dt && p.traveledDistance == old(p.traveledDistance) + dd
    ensures p.weight == Attenuate(m, old(p.weight), dd, attLen)
    ensures p.volume == old(p.volume) && p.alive == old(p.alive) && p.wavelength == old(p.wavelength)
    ensures h == history + [NextRecord(m, history[|history| - 1], point, kind, plane, p.volume, dir, pol, cosI, sinT,
                                       dt, p.time, p.traveledDistance, p.weight)]
    ensures old(Tracks(p, history)) ==> Tracks(p, h)
  {
    ghost var tracked := Tracks(p, history);
    ghost var position0, dir0, pol0, time0, weight0 := p.position, p.momentumDir, p.polarizationDir, p.time, p.weight;
    p.position, p.momentumDir, p.polarizationDir := point, dir, pol;
    p.time, p.traveledDistance, p.weight := p.time + dt, p.traveledDistance + dd, Attenuate(m, p.weight, dd, attLen);
    h := history + [NextRecord(m, history[|history| - 1], point, kind, plane, p.volume, dir, pol, cosI, sinT, dt, p.time,
                               p.traveledDistance, p.weight)];
    if tracked {
      AppendNext(m, history, point, kind, plane, p.volume, dir, pol, cosI, sinT, dt, position0, dir0, pol0, time0,
                 p.time, p.traveledDistance, weight0, p.weight);
    }
  }

  // ---------------------------------------------------------------------------
  // prepareSurfaceTrimesh
  // ---------------------------------------------------------------------------

  /** One attempt of prepareSurfaceTrimesh: the surface mesh is shifted so that
      the point sampled within the sampling bounds lands on the volume crossing,
      and is intersected from the photon's position along its direction. */
  datatype Attempt = Attempt(shift: Vec3, hit: Option<LocalHit>)

  function TryDraw(m: MathLib, w: World, volume: string, b: Bounds, plane: Face, point: Vec3,
                   pos: Vec3, dir: Vec3, d: Draw): (r: Attempt)
    requires DrawValid(d)
    ensures r.hit.None? <==> forall h :: h in w.surfaceHits(volume, plane, r.shift, pos, dir) ==>
                           LocalDistance(m, pos, h) <= OriginTolerance
  {
    var shift := ShiftVector(plane, point, SampleSurfacePoint(b, plane, d.u1, d.u2));
    Attempt(shift, SurfaceIntersection(m, pos, w.surfaceHits(volume, plane, shift, pos, dir)))
  }

  /** Every valid draw can be tried. */
  ghost predicate Tryable(try: Draw --> Attempt) {
    forall d :: DrawValid(d) ==> try.requires(d)
  }

  /** The resampling of prepareSurfaceTrimesh from draw `t` on, with `counter`
      resamples already made and `try` the attempt made with one draw: the attempt
      that ends it and the next unused draw. */
  function Prepared(try: Draw --> Attempt, rng: nat -> Draw, t: nat, counter: nat): (r: (Attempt, nat))
    requires Tryable(try) && DrawsValid(rng) && counter <= MaxResamples
    ensures t < r.1 <= t + MaxResamples - counter + 1
    decreases MaxResamples - counter
  {
    assert DrawValid(rng(t));
    var a := try(rng(t));
    if a.hit.Some? || counter == MaxResamples then (a, t + 1)
    else Prepared(try, rng, t + 1, counter + 1)
  }

  /** The resampling stops at the first attempt with a hit, after at most
      MaxResamples + 1 attempts in all, and ends without a hit only when every one
      of those attempts missed. */
  lemma {:induction false} PreparedFacts(try: Draw --> Attempt, rng: nat -> Draw, t: nat, counter: nat)
    requires Tryable(try) && DrawsValid(rng) && counter <= MaxResamples
    ensures var (a, next) := Prepared(try, rng, t, counter);
      && t < next <= t + MaxResamples - counter + 1
      && DrawValid(rng(next - 1)) && a == try(rng(next - 1))
      && (forall k :: t <= k < next - 1 ==> DrawValid(rng(k)) && try(rng(k)).hit.None?)
      && (a.hit.None? ==> next == t + MaxResamples - counter + 1)
    decreases MaxResamples - counter
  {
    assert DrawValid(rng(t));
    var a := try(rng(t));
    if !(a.hit.Some? || counter == MaxResamples) {
      PreparedFacts(try, rng, t + 1, counter + 1);
    }
  }

  /** `prepareSurfaceTrimesh` (tracker.py:322-388): one draw per attempt from `t0`
      on, resampling while an attempt finds no local hit and fewer than
      MaxResamples resamples were made; the mesh shift and hit of the last attempt
      are returned with the next unused draw. */
  method PrepareSurfaceTrimesh(try: Draw --> Attempt, rng: nat -> Draw, t0: nat) returns (a: Attempt, t: nat)
    requires Tryable(try) && DrawsValid(rng)
    ensures (a, t) == Prepared(try, rng, t0, 0)
  {
    var counter := 0;
    t := t0;
    while true
      invariant counter <= MaxResamples
      invariant Prepared(try, rng, t0, 0) == Prepared(try, rng, t, counter)
      decreases MaxResamples - counter
    {
      assert DrawValid(rng(t));
      a := try(rng(t));
      t := t + 1;
      if a.hit.Some? || counter == MaxResamples {
        return;
      }
      counter := counter + 1;
    }
  }

  // ---------------------------------------------------------------------------
  // One interaction
  // ---------------------------------------------------------------------------

  /** The local-surface interaction of a photon in `volume` heading along `dir`
      with polarisation `pol`, at `point` with local normal `n` into `next`, with
      draw `u`, as the row `row` and the photon's new volume, position and
      directions record it: `interactWithLocalSurface` with the two volumes'
      refractive indices, the exchange of the volumes on transmission, and a row on
      `plane` in the photon's new volume. */
  predicate LocalOutcome(m: MathLib, w: World, volume: string, dir: Vec3, pol: Vec3, n: Vec3, next: string, u: real,
                         point: Vec3, plane: Face, row: Record,
                         newVolume: string, newPosition: Vec3, newDir: Vec3, newPol: Vec3)
    requires m.Valid()
  {
    && volume in w.volumes && next in w.volumes
    && var n1 := w.volumes[volume].material.refractiveIndex;
       var n2 := w.volumes[next].material.refractiveIndex;
       && LocalSurfaceAdmissible(dir, n, n1, n2)
       && var ia := InteractWithLocalSurface(m, dir, pol, n, n1, n2, u);
          && row.kind == ia.kind && row.plane == Some(plane) && row.volume == newVolume
          && newVolume == (if ia.kind == Transmission then next else volume)
          && newPosition == point && newDir == ia.dir && newPol == ia.pol
  }

  /** The reflector interaction of a photon in `volume` with normal `n` and draw
      `d`, as the row and the photon's new state record it: `interactWithReflector`
      with the reflector optics of the volume's material, the move to
      'environment' on transmission, and a row on `plane`. */
  predicate ReflectorOutcome(m: MathLib, w: World, volume: string, dir: Vec3, pol: Vec3, n: Vec3, d: Draw,
                             point: Vec3, plane: Face, row: Record,
                             newVolume: string, newPosition: Vec3, newDir: Vec3, newPol: Vec3)
  {
    && volume in w.volumes && w.volumes[volume].material.reflector.Some?
    && var r := InteractWithReflector(m, w.volumes[volume].material.reflector.value, n, dir, pol, d.u1, d.u2,
                                      d.lambertRaw, d.lobeDir);
       && r.Ok? && row.kind == r.value.kind && row.plane == Some(plane) && row.volume == newVolume
       && newVolume == (if r.value.kind == Transmission then "environment" else volume)
       && newPosition == point && newDir == r.value.dir && newPol == r.value.pol
  }

  /** A local-surface interaction and its row (tracker.py:1053-1074 and
      1244-1270): both volumes are looked up (KeyError); a zero refractive index
      raises ZeroDivisionError (the index ratio at tracker.py:450, the speed in the
      medium at 685); optics the model does not define for give `Undefined`;
      otherwise `LocalOutcome` with the material of the volume the photon came
      through for distance, time and attenuation.  `plane` is the plane the row
      records and `other` the next volume after the exchange. */
  method LocalInteraction(m: MathLib, w: World, p: Photon, history: seq<Record>, point: Vec3, n: Vec3,
                          plane: Face, next: string, u: real)
    returns (h: seq<Record>, other: string, s: Status)
    requires m.Valid() && Tracks(p, history)
    modifies p
    ensures Tracks(p, h) && history <= h && p.alive == old(p.alive)
    ensures s == Continue || s == Raised(KeyError) || s == Raised(ZeroDivisionError) || s == Undefined
    ensures s == Raised(KeyError) <==> old(p.volume) !in w.volumes || next !in w.volumes
    ensures s == Raised(ZeroDivisionError) <==>
      && old(p.volume) in w.volumes && next in w.volumes
      && (w.volumes[old(p.volume)].material.refractiveIndex == 0.0 || w.volumes[next].material.refractiveIndex == 0.0)
    ensures s == Undefined <==>
      && old(p.volume) in w.volumes && next in w.volumes
      && var n1 := w.volumes[old(p.volume)].material.refractiveIndex;
         var n2 := w.volumes[next].material.refractiveIndex;
         && n1 != 0.0 && n2 != 0.0
         && !(LocalSurfaceAdmissible(old(p.momentumDir), n, n1, n2)
              && 0.0 < w.volumes[old(p.volume)].material.attenuationLength)
    ensures s != Continue ==> h == history && p.volume == old(p.volume) && p.position == old(p.position)
    ensures s == Continue ==>
      && |h| == |history| + 1
      && LocalOutcome(m, w, old(p.volume), old(p.momentumDir), old(p.polarizationDir), n, next, u, point, plane,
                      h[|history|], p.volume, p.position, p.momentumDir, p.polarizationDir)
      && other == (if h[|history|].kind == Transmission then old(p.volume) else next)
  {
    h, other := history, next;
    if p.volume !in w.volumes || next !in w.volumes {
      return h, other, Raised(KeyError);
    }
    var here := w.volumes[p.volume].material;
    var n2 := w.volumes[next].material.refractiveIndex;
    if here.refractiveIndex == 0.0 || n2 == 0.0 {
      return h, other, Raised(ZeroDivisionError);
    }
    if !LocalSurfaceAdmissible(p.momentumDir, n, here.refractiveIndex, n2) || here.attenuationLength <= 0.0 {
      return h, other, Undefined;
    }
    var ia := InteractWithLocalSurface(m, p.momentumDir, p.polarizationDir, n, here.refractiveIndex, n2, u);
    if ia.kind == Transmission {
      other := p.volume;
      p.volume := next;
    }
    var (dd, dt) := TraveledDistanceAndTime(m, p.position, point, here.refractiveIndex);
    h := UpdatePhotonInfo(m, p, h, point, ia.kind, plane, ia.dir, ia.pol, ia.cosI, ia.sinT, dd, dt,
                          here.attenuationLength);
    assert h[|history|].kind == ia.kind && h[|history|].volume == p.volume;
    s := Continue;
  }

  /** An interaction with the reflector and its row (tracker.py:1098-1120 and
      1214-1235): the photon's volume is looked up (KeyError); the incidence
      cosine fails first when the photon moves along `n` (ValueError,
      tracker.py:942), and only then is the reflectivity read (KeyError for a
      material without reflector optics, 944).  After the interaction and the move
      to 'environment' on transmission, a zero refractive index raises
      ZeroDivisionError (685) and optics the model does not define for give
      `Undefined`; otherwise `ReflectorOutcome`. */
  method ReflectorInteraction(m: MathLib, w: World, p: Photon, history: seq<Record>, point: Vec3, n: Vec3,
                              plane: Face, d: Draw)
    returns (h: seq<Record>, s: Status, kind: Kind)
    requires m.Valid() && Tracks(p, history)
    modifies p
    ensures Tracks(p, h) && history <= h && p.alive == old(p.alive)
    ensures s == Continue || s.Raised? || s == Undefined
    ensures s != Continue ==> h == history && p.position == old(p.position)
    ensures s == Raised(KeyError) <==>
      old(p.volume) !in w.volumes ||
      (Dot(old(p.momentumDir), n) <= 0.0 && w.volumes[old(p.volume)].material.reflector.None?)
    ensures s == Raised(ValueError) <==> old(p.volume) in w.volumes && Dot(old(p.momentumDir), n) > 0.0
    ensures s == Raised(KeyError) || s == Raised(ValueError) ==> p.volume == old(p.volume)
    ensures s == Raised(ZeroDivisionError) <==>
      && old(p.volume) in w.volumes && Dot(old(p.momentumDir), n) <= 0.0
      && w.volumes[old(p.volume)].material.reflector.Some?
      && w.volumes[old(p.volume)].material.refractiveIndex == 0.0
    ensures s == Undefined <==>
      && old(p.volume) in w.volumes && Dot(old(p.momentumDir), n) <= 0.0
      && var mat := w.volumes[old(p.volume)].material;
         && mat.reflector.Some? && mat.refractiveIndex != 0.0
         && !(0.0 < mat.refractiveIndex && 0.0 < mat.attenuationLength)
    ensures s == Raised(ZeroDivisionError) || s == Undefined ==>
      p.volume == (if kind == Transmission then "environment" else old(p.volume))
    ensures s == Continue ==>
      && |h| == |history| + 1 && (kind == Reflection || kind == Transmission) && h[|history|].volume == p.volume
      && p.volume == (if kind == Transmission then "environment" else old(p.volume))
    ensures s == Continue && kind != Transmission ==>
      && |h| == |history| + 1 && kind == Reflection && p.volume == old(p.volume)
      && h[|history|].kind == Reflection && h[|history|].volume == old(p.volume)
    ensures s == Continue ==>
      && |h| == |history| + 1 && kind == h[|history|].kind
      && ReflectorOutcome(m, w, old(p.volume), old(p.momentumDir), old(p.polarizationDir), n, d, point, plane,
                          h[|history|], p.volume, p.position, p.momentumDir, p.polarizationDir)
  {
    h, kind := history, Reflection;
    if p.volume !in w.volumes {
      return h, Raised(KeyError), kind;
    }
    if Dot(p.momentumDir, n) > 0.0 {
      return h, Raised(ValueError), kind;
    }
    var mat := w.volumes[p.volume].material;
    if mat.reflector.None? {
      return h, Raised(KeyError), kind;
    }
    var r := InteractWithReflector(m, mat.reflector.value, n, p.momentumDir, p.polarizationDir, d.u1, d.u2,
                                   d.lambertRaw, d.lobeDir);
    if r.Err? {
      assert false;
    }
    kind := r.value.kind;
    if kind == Transmission {
      p.volume := "environment";
    }
    if mat.refractiveIndex == 0.0 {
      return h, Raised(ZeroDivisionError), kind;
    }
    if mat.refractiveIndex < 0.0 || mat.attenuationLength <= 0.0 {
      return h, Undefined, kind;
    }
    var (dd, dt) := TraveledDistanceAndTime(m, p.position, point, mat.refractiveIndex);
    h := UpdatePhotonInfo(m, p, h, point, kind, plane, r.value.dir, r.value.pol, r.value.cosI, r.value.sinT, dd, dt,
                          mat.attenuationLength);
    assert h[|history|].kind == kind && h[|history|].volume == p.volume;
    s := Continue;
  }

  // ---------------------------------------------------------------------------
  // trackOverSurfaceTrimesh
  // ---------------------------------------------------------------------------

  /** The volume whose surface mesh the photon tracks over (its own when its
      surface dictionary is non-empty, else the next volume's) and the sampling
      bounds of that mesh for `plane`, or the error the lookups raise
      (tracker.py:1018 and 368). */
  function MeshVolume(w: World, volume: string, next: string, plane: Face): (r: Result<(string, Bounds)>)
    ensures r.Ok? ==> volume in w.volumes && r.value.0 in w.volumes
    ensures r.Ok? ==> r.value.0 == (if Rough(w.volumes[volume]) then volume else next)
    ensures r.Ok? ==> var v := w.volumes[r.value.0];
      v.surfaces.Some? && Normal(plane) in v.surfaces.value && r.value.1 == v.surfaces.value[Normal(plane)]
    ensures r.Err? ==> r.error == KeyError || r.error == TypeError
  {
    if volume !in w.volumes then Err(KeyError)
    else
      var mesh := if Rough(w.volumes[volume]) then volume else next;
      if mesh !in w.volumes then Err(KeyError)
      else
        var surfaces := w.volumes[mesh].surfaces;
        if surfaces.None? then Err(TypeError)
        else if Normal(plane) !in surfaces.value then Err(KeyError)
        else Ok((mesh, surfaces.value[Normal(plane)]))
  }

  /** The three ways trackOverSurfaceTrimesh kills a photon. */
  predicate SurfaceKill(s: Status) {
    s == Killed({TrappedAtCorner}) || s == Killed({EscapedBounds}) || s == Killed({TrappedInFeatures})
  }

  /** The attempt of prepareSurfaceTrimesh for this mesh, crossing and ray. */
  function Sampler(m: MathLib, w: World, mesh: string, b: Bounds, plane: Face, point: Vec3, pos: Vec3, dir: Vec3)
    : (try: Draw --> Attempt)
    ensures Tryable(try)
  {
    (d: Draw) requires DrawValid(d) => TryDraw(m, w, mesh, b, plane, point, pos, dir, d)
  }

  /** How one round over the surface mesh ends: tracking stops with a status, or
      goes on with the next local hit, the next volume and the counter. */
  datatype Round = Stop(s: Status) | Again(hit: LocalHit, next: string, counter: nat)

  /** ReflectorInteraction at a hit on the reflector face `face`, whose inward
      normal is the face normal reversed, as a round over the surface mesh uses
      it: only what the round needs to go on or to stop. */
  method ReflectorStep(m: MathLib, w: World, p: Photon, history: seq<Record>, point: Vec3, face: Face, d: Draw)
    returns (h: seq<Record>, s: Status, kind: Kind)
    requires m.Valid() && Tracks(p, history)
    modifies p
    ensures Tracks(p, h) && history <= h && p.alive == old(p.alive)
    ensures s == Continue || s.Raised? || s == Undefined
    ensures s == Continue && kind != Transmission ==>
      && |h| == |history| + 1 && p.volume == old(p.volume)
      && h[|history|].kind == Reflection && h[|history|].volume == old(p.volume)
  {
    // FaceNormal(Opposite(face)), written out per face.
    var n: Vec3;
    match face {
      case NegX => n := Vec3(1.0, 0.0, 0.0);
      case PosX => n := Vec3(-1.0, 0.0, 0.0);
      case NegY => n := Vec3(0.0, 1.0, 0.0);
      case PosY => n := Vec3(0.0, -1.0, 0.0);
      case NegZ => n := Vec3(0.0, 0.0, 1.0);
      case PosZ => n := Vec3(0.0, 0.0, -1.0);
    }
    h, s, kind := ReflectorInteraction(m, w, p, history, point, n, face, d);
  }

  /** The end of a round of `trackOverSurfaceTrimesh` when the mesh is missed
      inside the reflector (tracker.py:1093-1133): when the first hit of the ray
      with the reflector lies on `plane` the photon interacts with the reflector
      (one draw) and, if reflected, the mesh is queried again with the counter
      reset. */
  method ReflectorRound(m: MathLib, w: World, p: Photon, history: seq<Record>, mesh: string, shift: Vec3,
                        plane: Face, rng: nat -> Draw, t0: nat)
    returns (h: seq<Record>, r: Round, t: nat)
    requires m.Valid() && DrawsValid(rng) && Tracks(p, history) && p.volume == "reflector"
    modifies p
    ensures Tracks(p, h) && history <= h && t0 <= t && p.alive == old(p.alive)
    ensures r.Stop? ==> r.s == Continue || r.s.Raised? || r.s == Undefined
    ensures r.Again? ==>
      && r.counter == 0 && |h| == |history| + 1 && r.next == mesh && p.volume == "reflector"
      && h[|history|].kind == Reflection && h[|history|].volume == "reflector"
  {
    h, t := history, t0;
    var rh := w.volumeHits("reflector", p.position, p.momentumDir);
    if |rh| == 0 {
      return h, Stop(Raised(IndexError)), t;
    }
    if rh[0].face != plane {
      return h, Stop(Continue), t;
    }
    var sr, kind;
    h, sr, kind := ReflectorStep(m, w, p, h, rh[0].point, rh[0].face, rng(t));
    t := t + 1;
    if sr != Continue || kind == Transmission {
      return h, Stop(sr), t;
    }
    var again := SurfaceIntersection(m, p.position, w.surfaceHits(mesh, plane, shift, p.position, p.momentumDir));
    if again.None? {
      return h, Stop(Continue), t;
    }
    r := Again(again.value, mesh, 0);
  }

  /** One round of the loop of `trackOverSurfaceTrimesh` (tracker.py:1036-1135) at
      local hit `hit`: a hit outside the lateral bounds of the mesh volume kills
      the photon; otherwise the photon interacts with the local surface (one draw),
      with its row on `plane`, and is killed if that made more than
      MaxLocalInteractions interactions since the last reset; else the mesh is
      queried again from the new position.  When it is missed inside the reflector
      and the first hit of the ray with the reflector lies on the same plane, the
      photon interacts with the reflector (one draw) and, unless transmitted, the
      counter is reset and the mesh queried again. */
  method SurfaceRound(m: MathLib, w: World, p: Photon, history: seq<Record>, mesh: string, shift: Vec3, plane: Face,
                      hit: LocalHit, next: string, counter: nat, rng: nat -> Draw, t0: nat)
    returns (h: seq<Record>, r: Round, t: nat)
    requires m.Valid() && DrawsValid(rng) && Tracks(p, history)
    requires mesh in w.volumes && counter <= MaxLocalInteractions
    modifies p
    ensures Tracks(p, h) && history <= h && t0 <= t
    ensures r == Stop(Killed({EscapedBounds})) <==> !PointIsWithinVolumeBounds(w.volumes[mesh].bounds, hit.point, plane)
    ensures r == Stop(Killed({EscapedBounds})) ==> h == history
    ensures PointIsWithinVolumeBounds(w.volumes[mesh].bounds, hit.point, plane) ==>
      t > t0 && (|h| > |history| || (r.Stop? && (r.s.Raised? || r.s == Undefined) && h == history))
    ensures |h| > |history| ==> h[|history|].plane == Some(plane)
    ensures r == Stop(Killed({TrappedInFeatures})) ==> counter == MaxLocalInteractions && |h| == |history| + 1
    ensures (PointIsWithinVolumeBounds(w.volumes[mesh].bounds, hit.point, plane) && counter == MaxLocalInteractions &&
             |h| > |history|) ==> r == Stop(Killed({TrappedInFeatures}))
    ensures r.Stop? && r.s.Killed? ==> !p.alive && (r.s == Killed({EscapedBounds}) || r.s == Killed({TrappedInFeatures}))
    ensures !(r.Stop? && r.s.Killed?) ==> p.alive == old(p.alive)
    ensures r.Stop? ==> r.s != OutOfFuel
    ensures r.Again? ==> r.counter <= MaxLocalInteractions && |h| > |history|
    ensures r.Again? && r.counter != 0 ==> r.counter == counter + 1 && |h| == |history| + 1
    ensures r.Again? && r.counter == 0 ==>
      && |h| == |history| + 2 && r.next == mesh && p.volume == "reflector"
      && h[|history| + 1].kind == Reflection && h[|history| + 1].volume == "reflector"
  {
    h, t := history, t0;
    if !PointIsWithinVolumeBounds(w.volumes[mesh].bounds, hit.point, plane) {
      p.alive := false;
      return h, Stop(Killed({EscapedBounds})), t;
    }
    var sl, other;
    h, other, sl := LocalInteraction(m, w, p, h, hit.point, hit.normal, plane, next, rng(t).u1);
    t := t + 1;
    if sl != Continue {
      return h, Stop(sl), t;
    }
    if counter + 1 > MaxLocalInteractions {
      p.alive := false;
      return h, Stop(Killed({TrappedInFeatures})), t;
    }
    var again := SurfaceIntersection(m, p.position, w.surfaceHits(mesh, plane, shift, p.position, p.momentumDir));
    if again.Some? {
      return h, Again(again.value, other, counter + 1), t;
    }
    if p.volume != "reflector" {
      return h, Stop(Continue), t;
    }
    ghost var h1 := h;
    h, r, t := ReflectorRound(m, w, p, h, mesh, shift, plane, rng, t);
    assert h[|history|] == h1[|history|];
  }

  /** The mesh volume, the attempt prepareSurfaceTrimesh ends with and the next
      unused draw, for the photon in `volume` at `pos` heading along `dir` and the
      crossing at `point` on `plane` into `next0`; None when the lookups fail. */
  function PreparedOver(m: MathLib, w: World, volume: string, next0: string, plane: Face, point: Vec3, pos: Vec3,
                        dir: Vec3, rng: nat -> Draw, t0: nat): (r: Option<(string, Attempt, nat)>)
    requires DrawsValid(rng)
    ensures r.None? <==> MeshVolume(w, volume, next0, plane).Err?
    ensures r.Some? ==> r.value.0 in w.volumes
  {
    var mv := MeshVolume(w, volume, next0, plane);
    if mv.Err? then None
    else
      var (a, t) := Prepared(Sampler(m, w, mv.value.0, mv.value.1, plane, point, pos, dir), rng, t0, 0);
      Some((mv.value.0, a, t))
  }

  /** How trackOverSurfaceTrimesh ends when its first round stops: a first hit
      outside the bounds kills the photon and adds no row; one inside adds a row
      or raises. */
  predicate FirstRoundEnds(w: World, mesh: string, hit: LocalHit, plane: Face, history: seq<Record>,
                           h: seq<Record>, s: Status)
    requires mesh in w.volumes
  {
    if PointIsWithinVolumeBounds(w.volumes[mesh].bounds, hit.point, plane)
    then |h| > |history| || ((s.Raised? || s == Undefined) && h == history)
    else s == Killed({EscapedBounds}) && h == history
  }

  /** The loop of `trackOverSurfaceTrimesh` (tracker.py:1036-1135) from the first
      local hit `hit0`: rounds are made while the mesh is hit, at most `fuel` of
      them, each adding at least one row; a photon killed inside the features
      made more than MaxLocalInteractions interactions since the last reset, each
      with its row. */
  method RoundsOver(m: MathLib, w: World, p: Photon, history: seq<Record>, mesh: string, shift: Vec3, plane: Face,
                    hit0: LocalHit, next0: string, rng: nat -> Draw, t0: nat, fuel: nat)
    returns (h: seq<Record>, s: Status, t: nat)
    requires m.Valid() && DrawsValid(rng) && Tracks(p, history) && mesh in w.volumes
    modifies p
    ensures Tracks(p, h) && history <= h && t0 <= t
    ensures s.Killed? ==> !p.alive && (s == Killed({EscapedBounds}) || s == Killed({TrappedInFeatures}))
    ensures !s.Killed? ==> p.alive == old(p.alive)
    ensures s == Continue ==> |h| > |history|
    ensures s == OutOfFuel ==> |h| >= |history| + fuel
    ensures fuel > 0 ==> FirstRoundEnds(w, mesh, hit0, plane, history, h, s)
    ensures s == Killed({TrappedInFeatures}) ==> |h| >= |history| + MaxLocalInteractions + 1
  {
    h, t := history, t0;
    var hit, next, counter: nat, n: nat := hit0, next0, 0, fuel;
    ghost var base := |history|;
    ghost var inside := PointIsWithinVolumeBounds(w.volumes[mesh].bounds, hit0.point, plane);
    while true
      invariant Tracks(p, h) && history <= h && t0 <= t && p.alive == old(p.alive)
      invariant |history| <= base && base + counter <= |h| && counter <= MaxLocalInteractions
      invariant n <= fuel && |history| + (fuel - n) <= |h|
      invariant n == fuel ==> h == history && hit == hit0
      invariant n < fuel ==> inside
      decreases n
    {
      if n == 0 {
        return h, OutOfFuel, t;
      }
      ghost var first := n == fuel;
      n := n - 1;
      var r;
      h, r, t := SurfaceRound(m, w, p, h, mesh, shift, plane, hit, next, counter, rng, t);
      if r.Stop? {
        assert first ==> FirstRoundEnds(w, mesh, hit0, plane, history, h, r.s);
        return h, r.s, t;
      }
      assert first ==> inside;
      if r.counter == 0 {
        base := |h|;
      }
      hit, next, counter := r.hit, r.next, r.counter;
    }
  }

  /** `trackOverSurfaceTrimesh` (tracker.py:991-1137): after the lookups the surface
      mesh is prepared; with no hit after all its attempts the photon is trapped at
      a corner, otherwise the rounds of RoundsOver follow from the first hit. */
  method TrackOverSurface(m: MathLib, w: World, p: Photon, history: seq<Record>, point: Vec3, plane: Face,
                          next0: string, rng: nat -> Draw, t0: nat, fuel: nat)
    returns (h: seq<Record>, s: Status, t: nat)
    requires m.Valid() && DrawsValid(rng) && Tracks(p, history)
    modifies p
    ensures Tracks(p, h) && history <= h && t0 <= t
    ensures s.Killed? ==> !p.alive && SurfaceKill(s)
    ensures !s.Killed? ==> p.alive == old(p.alive)
    ensures s == Continue ==> |h| > |history|
    ensures s == OutOfFuel ==> |h| >= |history| + fuel
    ensures var mv := MeshVolume(w, old(p.volume), next0, plane);
      mv.Err? ==> s == Raised(mv.error) && h == history && p.position == old(p.position)
    ensures var pr := PreparedOver(m, w, old(p.volume), next0, plane, point, old(p.position), old(p.momentumDir), rng, t0);
      && (s == Killed({TrappedAtCorner}) <==> pr.Some? && pr.value.1.hit.None?)
      && (s == Killed({TrappedAtCorner}) ==> h == history && t == pr.value.2)
      && (pr.Some? && pr.value.1.hit.Some? && fuel > 0 ==>
            FirstRoundEnds(w, pr.value.0, pr.value.1.hit.value, plane, history, h, s))
    ensures s == Killed({TrappedInFeatures}) ==> |h| >= |history| + MaxLocalInteractions + 1
  {
    h, t := history, t0;
    var mv := MeshVolume(w, p.volume, next0, plane);
    if mv.Err? {
      return h, Raised(mv.error), t;
    }
    var (mesh, b) := mv.value;
    var try := Sampler(m, w, mesh, b, plane, point, p.position, p.momentumDir);
    var a;
    a, t := PrepareSurfaceTrimesh(try, rng, t0);
    if a.hit.None? {
      p.alive := false;
      return h, Killed({TrappedAtCorner}), t;
    }
    h, s, t := RoundsOver(m, w, p, h, mesh, a.shift, plane, a.hit.value, next0, rng, t, fuel);
  }

  // ---------------------------------------------------------------------------
  // trackPhoton
  // ---------------------------------------------------------------------------

  /** The reasons the end of a step adds: the weight fell below MinWeight, or the
      photon is in a photodetector (tracker.py:1286-1292). */
  function EndOfStep(weight: real, volume: string): (f: set<Fate>)
    ensures LowWeight in f <==> weight < MinWeight
    ensures Detected in f <==> IsDetector(volume)
    ensures f <= {LowWeight, Detected}
  {
    (if weight < MinWeight then {LowWeight} else {}) + (if IsDetector(volume) then {Detected} else {})
  }

  /** The crossing plane as trackPhoton uses it: turned around when the photon's
      own volume has surface meshes (tracker.py:1213). */
  function CrossingPlane(w: World, volume: string, c: Crossing): Face
    requires volume in w.volumes
  {
    if Rough(w.volumes[volume]) then Opposite(c.normal) else c.normal
  }

  /** The plane the row of a polished crossing records: `interactWithLocalSurface`
      turns the crossing normal around in place when the photon moves along it
      (tracker.py:870-871), and the row records that normal reversed (1270). */
  function PolishedRowPlane(dir: Vec3, plane: Face): (r: Face)
    ensures r == plane <==> Dot(dir, FaceNormal(plane)) > 0.0
    ensures r == plane || r == Opposite(plane)
  {
    if Dot(dir, FaceNormal(plane)) > 0.0 then plane else Opposite(plane)
  }

  /** The crossing is between two reflector rows. */
  predicate ReflectorCrossing(w: World, volume: string, c: Crossing) {
    volume in w.volumes && volume == "reflector" && c.next == "reflector"
  }

  /** Neither volume at the crossing has surface meshes. */
  predicate PolishedCrossing(w: World, volume: string, c: Crossing) {
    && volume in w.volumes && !ReflectorCrossing(w, volume, c)
    && w.volumes[volume].surfaces.None? && c.next in w.volumes && w.volumes[c.next].surfaces.None?
  }

  /** The crossing is tracked over a surface mesh. */
  predicate RoughCrossing(w: World, volume: string, c: Crossing) {
    && volume in w.volumes && !ReflectorCrossing(w, volume, c)
    && (w.volumes[volume].surfaces.Some? || (c.next in w.volumes && w.volumes[c.next].surfaces.Some?))
  }

  /** The interaction at a volume crossing (tracker.py:1204-1284), with one draw
      per interaction: between two reflector rows the reflector interaction with
      the crossing plane (and `checked` false: this branch skips the end-of-step
      checks); when neither volume has surface meshes the local interaction with
      the crossing plane, whose row records `PolishedRowPlane`; otherwise the
      tracking over the surface mesh. */
  method InteractAtCrossing(m: MathLib, w: World, p: Photon, history: seq<Record>, c: Crossing, rng: nat -> Draw,
                            t0: nat, fuel: nat)
    returns (h: seq<Record>, s: Status, t: nat, checked: bool)
    requires m.Valid() && DrawsValid(rng) && Tracks(p, history)
    modifies p
    ensures Tracks(p, h) && history <= h && t0 <= t
    ensures s.Killed? ==> !p.alive && SurfaceKill(s)
    ensures !s.Killed? ==> p.alive == old(p.alive)
    ensures s == Continue ==> |h| > |history|
    ensures s == OutOfFuel ==> |h| >= |history| + fuel
    ensures old(p.volume) !in w.volumes ==> s == Raised(KeyError) && h == history
    ensures !checked <==> ReflectorCrossing(w, old(p.volume), c)
    ensures ReflectorCrossing(w, old(p.volume), c) ==>
      && t == t0 + 1 && (s == Continue || s.Raised? || s == Undefined)
      && (s != Continue ==> h == history)
      && (s == Continue ==>
            var plane := CrossingPlane(w, old(p.volume), c);
            && |h| == |history| + 1
            && ReflectorOutcome(m, w, old(p.volume), old(p.momentumDir), old(p.polarizationDir), FaceNormal(plane),
                                rng(t0), c.point, Opposite(plane), h[|history|],
                                p.volume, p.position, p.momentumDir, p.polarizationDir))
    ensures PolishedCrossing(w, old(p.volume), c) ==>
      && t == t0 + 1 && (s == Continue || s.Raised? || s == Undefined)
      && (s != Continue ==> h == history)
      && (s == Continue ==>
            && |h| == |history| + 1
            && LocalOutcome(m, w, old(p.volume), old(p.momentumDir), old(p.polarizationDir), FaceNormal(c.normal),
                            c.next, rng(t0).u1, c.point, PolishedRowPlane(old(p.momentumDir), c.normal), h[|history|],
                            p.volume, p.position, p.momentumDir, p.polarizationDir))
    ensures old(p.volume) in w.volumes && !ReflectorCrossing(w, old(p.volume), c) &&
            w.volumes[old(p.volume)].surfaces.None? && c.next !in w.volumes ==>
      s == Raised(KeyError) && h == history
    ensures RoughCrossing(w, old(p.volume), c) ==>
      var mv := MeshVolume(w, old(p.volume), c.next, CrossingPlane(w, old(p.volume), c));
      mv.Err? ==> s == Raised(mv.error) && h == history
  {
    h, t, checked := history, t0, true;
    if p.volume !in w.volumes {
      return h, Raised(KeyError), t, checked;
    }
    var own := w.volumes[p.volume];
    var plane := if Rough(own) then Opposite(c.normal) else c.normal;
    if p.volume == "reflector" && c.next == "reflector" {
      var kind;
      h, s, kind := ReflectorInteraction(m, w, p, h, c.point, FaceNormal(plane), Opposite(plane), rng(t));
      return h, s, t + 1, false;
    }
    if own.surfaces.None? {
      if c.next !in w.volumes {
        return h, Raised(KeyError), t, checked;
      }
      if w.volumes[c.next].surfaces.None? {
        var other;
        var rowPlane := if Dot(p.momentumDir, FaceNormal(plane)) > 0.0 then plane else Opposite(plane);
        h, other, s := LocalInteraction(m, w, p, h, c.point, FaceNormal(plane), rowPlane, c.next, rng(t).u1);
        return h, s, t + 1, checked;
      }
    }
    h, s, t := TrackOverSurface(m, w, p, h, c.point, plane, c.next, rng, t, fuel);
  }

  /** The volumes dictionary as Python holds it: the names in dictionary order are
      its keys, each once. */
  predicate WellFormed(w: World) {
    && (forall i, j :: 0 <= i < j < |w.order| ==> w.order[i] != w.order[j])
    && w.volumes.Keys == set v | v in w.order
  }

  /** One round of the loop of `trackPhoton` (tracker.py:1196-1292) for a living
      photon: the next volume crossing (none kills the photon), the interaction
      there, and last the weight and photodetector checks, which the reflector
      branch skips (`checked` false).  A step that goes on added a row, and one
      that went through the checks leaves a photon of at least MinWeight outside
      the photodetectors. */
  method TrackStep(m: MathLib, w: World, p: Photon, history: seq<Record>, rng: nat -> Draw, t0: nat, fuel: nat)
    returns (h: seq<Record>, s: Status, t: nat, checked: bool)
    requires m.Valid() && WellFormed(w) && DrawsValid(rng) && Tracks(p, history) && p.alive
    modifies p
    ensures Tracks(p, h) && history <= h && t0 <= t
    ensures s == Continue ==> p.alive && |h| > |history|
    ensures checked && s == Continue ==> !(p.weight < MinWeight) && !IsDetector(p.volume)
    ensures !checked ==> s == Continue || s.Raised? || s == Undefined
    ensures s == OutOfFuel ==> |h| >= |history| + fuel
    ensures s.Killed? ==> !p.alive && s.fates != {}
    ensures s.Killed? && NoCrossing !in s.fates ==>
      (LowWeight in s.fates <==> p.weight < MinWeight) && (Detected in s.fates <==> IsDetector(p.volume))
    ensures var g := GetCrossing(m, w, old(p.position), old(p.volume), old(p.momentumDir));
      !checked <==> g.Ok? && g.value.Some? && ReflectorCrossing(w, old(p.volume), g.value.value)
    ensures s == Killed({NoCrossing}) <==>
      GetCrossing(m, w, old(p.position), old(p.volume), old(p.momentumDir)) == Ok(None)
    ensures s == Killed({NoCrossing}) ==> h == history
    ensures GetCrossing(m, w, old(p.position), old(p.volume), old(p.momentumDir)).Err? ==>
      s == Raised(GetCrossing(m, w, old(p.position), old(p.volume), old(p.momentumDir)).error) && h == history
  {
    h, t, checked := history, t0, true;
    var r := FindCrossing(m, w, p.position, p.volume, p.momentumDir);
    if r.Err? {
      return h, Raised(r.error), t, checked;
    }
    if r.value.None? {
      p.alive := false;
      return h, Killed({NoCrossing}), t, checked;
    }
    h, s, t, checked := InteractAtCrossing(m, w, p, h, r.value.value, rng, t, fuel);
    if !checked || (s != Continue && !s.Killed?) {
      return;
    }
    var fates := (if s.Killed? then s.fates else {}) + EndOfStep(p.weight, p.volume);
    if fates == {} {
      s := Continue;
    } else {
      p.alive := false;
      s := Killed(fates);
    }
  }

  /** The crossing getVolumeTrimeshIntersection finds for a photon at `position` in
      `volume` heading along `dir`. */
  function GetCrossing(m: MathLib, w: World, position: Vec3, volume: string, dir: Vec3): Result<Option<Crossing>> {
    if IsShell(volume) then SelectCrossing(Collected(m, position, ScansOf(w, position, dir)), volume)
    else if OwnOf(w, volume, position, dir).None? then Err(KeyError)
    else OrdinaryCrossing(m, position, OwnOf(w, volume, position, dir).value)
  }

  /** The call of getVolumeTrimeshIntersection at tracker.py:1197-1200, with the
      world's ray queries for the photon's own volume and for every volume. */
  method FindCrossing(m: MathLib, w: World, position: Vec3, volume: string, dir: Vec3)
    returns (r: Result<Option<Crossing>>)
    ensures r == GetCrossing(m, w, position, volume, dir)
  {
    r := GetVolumeTrimeshIntersection(m, position, volume, OwnOf(w, volume, position, dir), ScansOf(w, position, dir));
  }

  /** `trackPhoton` (tracker.py:1140-1294): the history starts with the emission
      row, and steps are taken while the photon is alive, at most `fuel` of them,
      each step that goes on adding a row.  The history goes on describing the
      photon; when the photon was alive and the tracking ends without an error, the
      photon is dead and the status says why. */
  method TrackPhoton(m: MathLib, w: World, id: int, p: Photon, rng: nat -> Draw, fuel: nat)
    returns (h: seq<Record>, s: Status)
    requires m.Valid() && WellFormed(w) && DrawsValid(rng)
    modifies p
    ensures Tracks(p, h)
    ensures h[0] == EmissionRecord(id, old(p.position), old(p.volume), old(p.momentumDir), old(p.polarizationDir),
                                   old(p.time), old(p.weight))
    ensures s == Continue <==> !old(p.alive)
    ensures s == Continue ==> h == [h[0]]
    ensures s == OutOfFuel ==> fuel < |h|
    ensures s.Killed? ==> !p.alive && s.fates != {}
    ensures s.Killed? && NoCrossing !in s.fates ==>
      (LowWeight in s.fates <==> p.weight < MinWeight) && (Detected in s.fates <==> IsDetector(p.volume))
    ensures s == Continue || s.Killed? ==> !p.alive
  {
    h := StartHistory(id, p);
    s := Continue;
    var t: nat, n: nat := 0, fuel;
    while p.alive
      invariant Tracks(p, h) && |h| > 0 && n <= fuel && (s == Continue || s.Killed?)
      invariant p.alive ==> fuel - n < |h|
      invariant h[0] == EmissionRecord(id, old(p.position), old(p.volume), old(p.momentumDir), old(p.polarizationDir),
                                       old(p.time), old(p.weight))
      invariant !old(p.alive) ==> s == Continue && h == [h[0]] && !p.alive
      invariant old(p.alive) ==> (s == Continue <==> p.alive)
      invariant s.Killed? ==> !p.alive && s.fates != {}
      invariant s.Killed? && NoCrossing !in s.fates ==>
        (LowWeight in s.fates <==> p.weight < MinWeight) && (Detected in s.fates <==> IsDetector(p.volume))
      decreases n
    {
      if n == 0 {
        return h, OutOfFuel;
      }
      n := n - 1;
      ghost var h0 := h;
      var checked;
      h, s, t, checked := TrackStep(m, w, p, h, rng, t, fuel);
      assert h0 <= h;
      assert h[0] == h0[0];
      if s != Continue && !s.Killed? {
        return;
      }
    }
  }
}
