/** The boundary queries of the tracker (src/tracker.py): choosing the next volume
    crossing from the hits of a ray with the cuboid volumes, choosing the local hit
    on a surface mesh, sampling the point of a surface mesh that is placed on the
    crossing, the shift that places it, and the lateral bounds test.  The ray/mesh
    intersections themselves are inputs: a `Scan` is the hit list the ray query
    returned for one volume, a `LocalHit` one hit on a surface mesh. */
module Intersector {

  import opened Wrappers
  import opened RealMath
  import opened HitSelection

  /** One hit of a ray with a cuboid volume mesh: the point and the face it lies on. */
  datatype VolumeHit = VolumeHit(point: Vec3, face: Face)

  /** The hits of one ray with the volume called `volume`, in the order the query returned them. */
  datatype Scan = Scan(volume: string, hits: seq<VolumeHit>)

  /** The chosen crossing: the hit point, the plane normal pointing back into the
      volume the photon comes from, and the volume beyond the plane. */
  datatype Crossing = Crossing(point: Vec3, normal: Face, next: string)

  /** What the tracker sees of the photon's own volume in an ordinary volume: the
      hits of the ray with its cuboid and its touching-volumes dictionary. */
  datatype OwnVolume = OwnVolume(hits: seq<VolumeHit>, touching: Option<map<Key, string>>)

  /** The two volumes the selection treats as enclosing shells. */
  predicate IsShell(name: string) {
    name == "environment" || name == "reflector"
  }

  function HitDistance(m: MathLib, origin: Vec3, h: VolumeHit): real {
    Distance(m, origin, h.point)
  }

  // ---------------------------------------------------------------------------
  // Ordinary volume: the farthest hit of the photon's own cuboid
  // ---------------------------------------------------------------------------

  /** Hit `i` is at maximum distance and every earlier hit is strictly nearer. */
  predicate IsFirstFarthest(m: MathLib, origin: Vec3, hs: seq<VolumeHit>, i: int) {
    && 0 <= i < |hs|
    && (forall j :: 0 <= j < |hs| ==> HitDistance(m, origin, hs[j]) <= HitDistance(m, origin, hs[i]))
    && (forall j :: 0 <= j < i ==> HitDistance(m, origin, hs[j]) < HitDistance(m, origin, hs[i]))
  }

  /** `np.argmax(distances)`. */
  function FirstFarthest(m: MathLib, origin: Vec3, hs: seq<VolumeHit>): (i: nat)
    requires |hs| > 0
    ensures IsFirstFarthest(m, origin, hs, i)
    decreases |hs|
  {
    if |hs| == 1 then 0
    else
      var p := FirstFarthest(m, origin, hs[..|hs| - 1]);
      assert forall j :: 0 <= j < |hs| - 1 ==> hs[..|hs| - 1][j] == hs[j];
      if HitDistance(m, origin, hs[p]) < HitDistance(m, origin, hs[|hs| - 1]) then |hs| - 1 else p
  }

  /** The crossing out of an ordinary volume (tracker.py:53-69): no hit gives no
      crossing; otherwise the farthest hit is taken, the next volume is looked up
      under its face normal, and the normal is reversed. */
  function OrdinaryCrossing(m: MathLib, origin: Vec3, own: OwnVolume): (r: Result<Option<Crossing>>)
    ensures r == Ok(None) <==> |own.hits| == 0
    ensures r.Ok? && r.value.Some? ==>
      exists i :: IsFirstFarthest(m, origin, own.hits, i)
        && own.touching.Some? && Normal(own.hits[i].face) in own.touching.value
        && r.value.value == Crossing(own.hits[i].point, Opposite(own.hits[i].face),
                                     own.touching.value[Normal(own.hits[i].face)])
    ensures r.Err? ==>
      && |own.hits| > 0
      && (if own.touching.None? then r.error == TypeError
          else r.error == KeyError && Normal(own.hits[FirstFarthest(m, origin, own.hits)].face) !in own.touching.value)
  {
    if |own.hits| == 0 then Ok(None)
    else
      var i := FirstFarthest(m, origin, own.hits);
      var h := own.hits[i];
      if own.touching.None? then Err(TypeError)
      else if Normal(h.face) !in own.touching.value then Err(KeyError)
      else Ok(Some(Crossing(h.point, Opposite(h.face), own.touching.value[Normal(h.face)])))
  }

  // ---------------------------------------------------------------------------
  // Environment or reflector: the record array over all volumes
  // ---------------------------------------------------------------------------

  /** The replica-hit removal for the shells (tracker.py:98-101): two or more hits
      all at the first hit's point are reduced to that first hit. */
  function Deduplicated(s: Scan): seq<VolumeHit> {
    if IsShell(s.volume) && |s.hits| > 1 && (forall j :: 0 <= j < |s.hits| ==> s.hits[j].point == s.hits[0].point)
    then [s.hits[0]]
    else s.hits
  }

  /** The rows one scan contributes to the record array. */
  function Rows(m: MathLib, origin: Vec3, s: Scan): (C: seq<Candidate>)
    ensures |C| == |Deduplicated(s)|
  {
    var hs := Deduplicated(s);
    seq(|hs|, k requires 0 <= k < |hs| =>
      Candidate(s.volume, hs[k].point, hs[k].face, Distance(m, origin, hs[k].point)))
  }

  /** The record array after the loop over all volumes (tracker.py:74-110). */
  function Collected(m: MathLib, origin: Vec3, scans: seq<Scan>): seq<Candidate>
    decreases |scans|
  {
    if |scans| == 0 then []
    else Collected(m, origin, scans[..|scans| - 1]) + Rows(m, origin, scans[|scans| - 1])
  }

  /** Every recorded row comes from a hit of a scan of the same volume, and its
      distance is that hit's distance from the ray origin. */
  lemma {:induction false} CollectedRowsAreHits(m: MathLib, origin: Vec3, scans: seq<Scan>, c: Candidate)
    requires c in Collected(m, origin, scans)
    ensures exists s :: s in scans && s.volume == c.volume && VolumeHit(c.point, c.face) in s.hits
    ensures c.dist == Distance(m, origin, c.point)
    decreases |scans|
  {
    var n := |scans|;
    var pre := scans[..n - 1];
    var last := scans[n - 1];
    if c in Collected(m, origin, pre) {
      CollectedRowsAreHits(m, origin, pre, c);
      var s :| s in pre && s.volume == c.volume && VolumeHit(c.point, c.face) in s.hits;
      assert s in scans;
    } else {
      var R := Rows(m, origin, last);
      assert c in R;
      var k :| 0 <= k < |R| && R[k] == c;
      var hs := Deduplicated(last);
      assert hs[k] in last.hits;
      assert hs[k] == VolumeHit(c.point, c.face);
    }
  }

  /** The rows of the record array after the tie rule (tracker.py:121-126): when the
      minimum is shared, the 'pillar' and 'reflector' rows are deleted. */
  function TieBroken(C: seq<Candidate>): seq<Candidate> {
    if |C| > 0 && |Closest(C)| > 1 then WithoutVolumes(C, {"pillar", "reflector"}) else C
  }

  /** The rows after the lone-foreign-hit rule (tracker.py:157-165): a nearest row of
      another volume that has no other row is deleted. */
  function LoneForeignRemoved(C: seq<Candidate>, op: string): seq<Candidate>
    requires |C| > 0 && |Closest(C)| == 1
  {
    var i := Closest(C)[0];
    if C[i].volume != op && CountVolume(C, C[i].volume) == 1 then WithoutRow(C, i) else C
  }

  /** The selection that follows the recording loop in the environment or the
      reflector (tracker.py:113-184).  The `Err` cases are numpy's: `np.vstack` of no
      rows, and an `if` on a comparison with more than one nearest row. */
  function SelectCrossing(C: seq<Candidate>, op: string): Result<Option<Crossing>> {
    if |C| == 1 then Ok(None)
    else if |C| == 0 then Err(ValueError)
    else
      var C1 := TieBroken(C);
      if |C1| == 0 then Err(ValueError)
      else if |Closest(C1)| > 1 then Err(ValueError)
      else
        var C2 := LoneForeignRemoved(C1, op);
        if |C2| == 1 then Ok(None)
        else if |C2| == 0 then Err(ValueError)
        else
          var c := C2[Closest(C2)[0]];
          Ok(Some(Crossing(c.point, if c.volume == op then Opposite(c.face) else c.face, c.volume)))
  }

  /** A single recorded hit means no crossing (tracker.py:113-116). */
  lemma SingleRowNoCrossing(C: seq<Candidate>, op: string)
    requires |C| == 1
    ensures SelectCrossing(C, op) == Ok(None)
  {
  }

  /** A tie at the minimum deletes every 'pillar' and 'reflector' row and keeps every
      other row; without a tie nothing is deleted. */
  lemma TieRule(C: seq<Candidate>)
    requires |C| > 0
    ensures |Closest(C)| > 1 ==>
      forall c :: c in TieBroken(C) <==> c in C && c.volume != "pillar" && c.volume != "reflector"
    ensures |Closest(C)| <= 1 ==> TieBroken(C) == C
  {
    if |Closest(C)| > 1 {
      var D := WithoutVolumes(C, {"pillar", "reflector"});
      assert TieBroken(C) == D;
      forall c
        ensures c in D <==> c in C && c.volume != "pillar" && c.volume != "reflector"
      {
        assert c in D <==> c in C && c.volume !in {"pillar", "reflector"};
      }
    }
  }

  /** The nearest row is deleted exactly when it belongs to another volume that has
      no other row; the deleted row is that nearest one and the others keep their order. */
  lemma LoneForeignRule(C: seq<Candidate>, op: string)
    requires |C| > 0 && |Closest(C)| == 1
    ensures var i := Closest(C)[0];
      IsFirstNearest(C, i) &&
      if C[i].volume != op && (forall j :: 0 <= j < |C| && j != i ==> C[j].volume != C[i].volume)
      then LoneForeignRemoved(C, op) == C[..i] + C[i + 1..]
      else LoneForeignRemoved(C, op) == C
  {
    ClosestFacts(C);
    var i := Closest(C)[0];
    if C[i].volume != op && CountVolume(C, C[i].volume) == 1 {
      CountOne(C, i);
    } else if C[i].volume != op {
      assert C[i] in C;
      if forall j :: 0 <= j < |C| && j != i ==> C[j].volume != C[i].volume {
        CountIsOne(C, i);
        assert false;
      }
    }
  }

  /** A volume whose only row is row `i` has count one. */
  lemma {:induction false} CountIsOne(C: seq<Candidate>, i: nat)
    requires i < |C|
    requires forall j :: 0 <= j < |C| && j != i ==> C[j].volume != C[i].volume
    ensures CountVolume(C, C[i].volume) == 1
  {
    var v := C[i].volume;
    if i == 0 {
      assert forall c :: c in C[1..] ==> c.volume != v;
    } else {
      assert C[1..][i - 1] == C[i];
      forall j | 0 <= j < |C[1..]| && j != i - 1 ensures C[1..][j].volume != v {
        assert C[1..][j] == C[j + 1];
      }
      CountIsOne(C[1..], i - 1);
    }
  }

  /** A selection that returns a crossing had more than one row, a single nearest
      row after the tie rule, and more than one row after the lone-foreign-hit
      rule; the crossing is made from the first nearest of those. */
  lemma SelectedFrom(C: seq<Candidate>, op: string)
    requires SelectCrossing(C, op).Ok? && SelectCrossing(C, op).value.Some?
    ensures |C| > 1 && |TieBroken(C)| > 0 && |Closest(TieBroken(C))| == 1
    ensures var S := LoneForeignRemoved(TieBroken(C), op);
      && |S| > 1 && |Closest(S)| > 0
      && var c := S[Closest(S)[0]];
         SelectCrossing(C, op).value.value == Crossing(c.point, if c.volume == op then Opposite(c.face) else c.face, c.volume)
  {
    var C1 := TieBroken(C);
    ClosestFacts(C1);
    ClosestFacts(LoneForeignRemoved(C1, op));
  }

  /** A row that survives the lone-foreign-hit rule was a row before it. */
  lemma SurvivorWasRow(C1: seq<Candidate>, op: string, i: nat)
    requires |C1| > 0 && |Closest(C1)| == 1 && i < |LoneForeignRemoved(C1, op)|
    ensures LoneForeignRemoved(C1, op)[i] in C1
  {
    var S := LoneForeignRemoved(C1, op);
    var k := Closest(C1)[0];
    if S != C1 {
      assert S == WithoutRow(C1, k);
      if i < k { assert S[i] == C1[i]; } else { assert S[i] == C1[i + 1]; }
    }
  }

  /** The selected crossing is the first nearest of the surviving rows; its normal is
      the hit face's normal reversed exactly when the next volume is the photon's own
      volume; and it is a row that was recorded. */
  lemma SelectedIsNearestSurvivor(C: seq<Candidate>, op: string)
    requires SelectCrossing(C, op).Ok? && SelectCrossing(C, op).value.Some?
    ensures var x := SelectCrossing(C, op).value.value;
      var S := LoneForeignRemoved(TieBroken(C), op);
      && (exists i :: IsFirstNearest(S, i) && S[i].point == x.point && S[i].volume == x.next
            && x.normal == (if x.next == op then Opposite(S[i].face) else S[i].face))
      && (exists c :: c in C && c.point == x.point && c.volume == x.next)
  {
    SelectedFrom(C, op);
    var C1 := TieBroken(C);
    var S := LoneForeignRemoved(C1, op);
    ClosestFacts(S);
    var i := Closest(S)[0];
    SurvivorWasRow(C1, op, i);
    var c := S[i];
    assert c in C by {
      TieRule(C);
    }
  }

  /** The selection fails only with `ValueError`, and it never returns a crossing
      into a 'pillar' or 'reflector' row when the nearest rows were tied at first. */
  lemma SelectionOutcomes(C: seq<Candidate>, op: string)
    ensures SelectCrossing(C, op).Err? ==> SelectCrossing(C, op).error == ValueError
    ensures SelectCrossing(C, op).Ok? && SelectCrossing(C, op).value.Some? && |C| > 0 && |Closest(C)| > 1 ==>
      SelectCrossing(C, op).value.value.next != "pillar" && SelectCrossing(C, op).value.value.next != "reflector"
  {
    if SelectCrossing(C, op).Ok? && SelectCrossing(C, op).value.Some? && |C| > 0 && |Closest(C)| > 1 {
      SelectedFrom(C, op);
      var C1 := TieBroken(C);
      var S := LoneForeignRemoved(C1, op);
      SurvivorWasRow(C1, op, Closest(S)[0]);
      TieRule(C);
    }
  }

  /** `getVolumeTrimeshIntersection` (tracker.py:26-186): in an ordinary volume the
      farthest hit of its own cuboid; in the environment or the reflector the hits of
      every volume, in the order of `scans`, are recorded row by row and selected
      from.  `own` is the photon's volume as looked up in the geometry (`None` when
      the name is not a key, which raises `KeyError`). */
  method GetVolumeTrimeshIntersection(m: MathLib, origin: Vec3, op: string, own: Option<OwnVolume>, scans: seq<Scan>)
    returns (r: Result<Option<Crossing>>)
    ensures !IsShell(op) ==> r == (if own.None? then Err(KeyError) else OrdinaryCrossing(m, origin, own.value))
    ensures IsShell(op) ==> r == SelectCrossing(Collected(m, origin, scans), op)
  {
    if !IsShell(op) {
      if own.None? {
        return Err(KeyError);
      }
      return OrdinaryCrossing(m, origin, own.value);
    }
    var rows: seq<Candidate> := [];
    var k := 0;
    while k < |scans|
      invariant 0 <= k <= |scans|
      invariant rows == Collected(m, origin, scans[..k])
    {
      var hs := Deduplicated(scans[k]);
      var i := 0;
      while i < |hs|
        invariant 0 <= i <= |hs|
        invariant rows == Collected(m, origin, scans[..k]) + Rows(m, origin, scans[k])[..i]
      {
        rows := rows + [Candidate(scans[k].volume, hs[i].point, hs[i].face, Distance(m, origin, hs[i].point))];
        i := i + 1;
      }
      assert Rows(m, origin, scans[k])[..i] == Rows(m, origin, scans[k]);
      assert scans[..k + 1][..k] == scans[..k];
      k := k + 1;
    }
    assert scans[..k] == scans;
    r := SelectCrossing(rows, op);
  }

  // ---------------------------------------------------------------------------
  // Surface mesh: the local hit, the sampled point and the shift
  // ---------------------------------------------------------------------------

  /** One hit of a ray with a surface mesh: the point and the triangle's face normal. */
  datatype LocalHit = LocalHit(point: Vec3, normal: Vec3)

  /** Hits at or within this distance of the origin are the origin itself. */
  const OriginTolerance: real := 0.000000001

  function LocalDistance(m: MathLib, origin: Vec3, h: LocalHit): real {
    Distance(m, origin, h.point)
  }

  /** Hit `i` is beyond the tolerance, no hit beyond it is nearer, and every earlier
      hit beyond it is strictly farther. */
  predicate IsFirstTrueNearest(m: MathLib, origin: Vec3, hs: seq<LocalHit>, i: int) {
    && 0 <= i < |hs|
    && OriginTolerance < LocalDistance(m, origin, hs[i])
    && (forall j :: 0 <= j < |hs| && OriginTolerance < LocalDistance(m, origin, hs[j]) ==>
          LocalDistance(m, origin, hs[i]) <= LocalDistance(m, origin, hs[j]))
    && (forall j :: 0 <= j < i && OriginTolerance < LocalDistance(m, origin, hs[j]) ==>
          LocalDistance(m, origin, hs[i]) < LocalDistance(m, origin, hs[j]))
  }

  /** The index `getSurfaceTrimeshIntersection` picks: the hits within the tolerance are
      dropped, then `np.argmin` of the rest (tracker.py:301-313). */
  function TrueNearest(m: MathLib, origin: Vec3, hs: seq<LocalHit>): (r: Option<nat>)
    ensures r.None? <==> forall j :: 0 <= j < |hs| ==> LocalDistance(m, origin, hs[j]) <= OriginTolerance
    ensures r.Some? ==> IsFirstTrueNearest(m, origin, hs, r.value)
    decreases |hs|
  {
    if |hs| == 0 then None
    else
      var n := |hs| - 1;
      var p := TrueNearest(m, origin, hs[..n]);
      assert forall j :: 0 <= j < n ==> hs[..n][j] == hs[j];
      var d := LocalDistance(m, origin, hs[n]);
      if d <= OriginTolerance then p
      else if p.None? || d < LocalDistance(m, origin, hs[p.value]) then Some(n)
      else p
  }

  /** `getSurfaceTrimeshIntersection`: the nearest hit beyond the tolerance, or none. */
  function SurfaceIntersection(m: MathLib, origin: Vec3, hs: seq<LocalHit>): (r: Option<LocalHit>)
    ensures r.None? <==> forall h :: h in hs ==> LocalDistance(m, origin, h) <= OriginTolerance
    ensures r.Some? ==> exists i :: IsFirstTrueNearest(m, origin, hs, i) && hs[i] == r.value
  {
    var t := TrueNearest(m, origin, hs);
    if t.None? then None else Some(hs[t.value])
  }

  /** `np.random.uniform(a, b)` for a draw `u` in [0, 1). */
  function Uniform(a: real, b: real, u: real): real {
    a + (b - a) * u
  }

  lemma UniformInRange(a: real, b: real, u: real)
    requires 0.0 <= u < 1.0
    ensures a <= b ==> a <= Uniform(a, b, u) <= b
    ensures a < b ==> Uniform(a, b, u) < b
  {
    if a <= b {
      NonNegativeProduct(b - a, u);
      NonNegativeProduct(b - a, 1.0 - u);
    }
    if a < b {
      PositiveProduct(b - a, 1.0 - u);
    }
  }

  /** `sampleSurfaceTrimeshPoint` (tracker.py:217-227): both lateral coordinates of the
      crossing plane are drawn uniformly between the bounds, the vertical one is 0. */
  function SampleSurfacePoint(b: Bounds, f: Face, u1: real, u2: real): (p: Vec3)
    requires 0.0 <= u1 < 1.0 && 0.0 <= u2 < 1.0
    ensures Get(p, NormalAxis(f)) == 0.0
    ensures forall a :: a != NormalAxis(f) && Get(b.lo, a) <= Get(b.hi, a) ==> Get(b.lo, a) <= Get(p, a) <= Get(b.hi, a)
  {
    var (a1, a2) := LateralAxes(f);
    UniformInRange(Get(b.lo, a1), Get(b.hi, a1), u1);
    UniformInRange(Get(b.lo, a2), Get(b.hi, a2), u2);
    With(With(Origin, a1, Uniform(Get(b.lo, a1), Get(b.hi, a1), u1)), a2, Uniform(Get(b.lo, a2), Get(b.hi, a2), u2))
  }

  /** The translation of `shiftSurfaceTrimesh` (tracker.py:255-266). */
  function ShiftVector(f: Face, point: Vec3, sampled: Vec3): (s: Vec3)
    ensures forall a :: a != NormalAxis(f) ==> Get(s, a) == Get(point, a) - Get(sampled, a)
    ensures Get(s, NormalAxis(f)) == Get(point, NormalAxis(f))
  {
    var (a1, a2) := LateralAxes(f);
    With(With(With(Origin, a1, Get(point, a1) - Get(sampled, a1)), a2, Get(point, a2) - Get(sampled, a2)),
         NormalAxis(f), Get(point, NormalAxis(f)))
  }

  /** Vectors agree when all three components agree. */
  lemma ComponentsEqual(v: Vec3, w: Vec3)
    requires forall a :: Get(v, a) == Get(w, a)
    ensures v == w
  {
    assert Get(v, X) == Get(w, X) && Get(v, Y) == Get(w, Y) && Get(v, Z) == Get(w, Z);
  }

  /** The shift carries a sampled point (vertical coordinate 0) exactly onto the
      crossing point: the mesh point that was sampled lands on the crossing. */
  lemma ShiftPlacesSampleOnCrossing(f: Face, point: Vec3, sampled: Vec3)
    requires Get(sampled, NormalAxis(f)) == 0.0
    ensures Add(sampled, ShiftVector(f, point, sampled)) == point
  {
    var s := ShiftVector(f, point, sampled);
    forall a ensures Get(Add(sampled, s), a) == Get(point, a) {
      assert Get(Add(sampled, s), a) == Get(sampled, a) + Get(s, a);
    }
    ComponentsEqual(Add(sampled, s), point);
  }

  /** `pointIsWithinVolumeBounds` (tracker.py:817-832): strictly inside the volume's
      bounds along both lateral axes of the crossing plane. */
  function PointIsWithinVolumeBounds(b: Bounds, p: Vec3, f: Face): (r: bool)
    ensures r <==> forall a :: a != NormalAxis(f) ==> Get(b.lo, a) < Get(p, a) < Get(b.hi, a)
  {
    var (a1, a2) := LateralAxes(f);
    Get(b.lo, a1) < Get(p, a1) < Get(b.hi, a1) && Get(b.lo, a2) < Get(p, a2) < Get(b.hi, a2)
  }
}
