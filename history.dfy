/** The tracking history of src/tracker.py: one row per step of a photon, the
    emission row first and then one row per interaction, each chained from the
    row before it by `updatePhotonInfo`. */
module TrackingHistory {

  import opened Wrappers
  import opened RealMath
  import opened Optics

  /** One row of the history (the dtype of tracker.py:1159-1175): position and
      distance in mm, times in ns, angles in degrees.  The emission row has no
      plane, no incoming direction or polarisation and no angles. */
  datatype Record = Record(id: int, step: int, position: Vec3, kind: Kind, plane: Option<Face>, volume: string,
                           inDir: Option<Vec3>, outDir: Vec3, inAngle: Option<real>, outAngle: Option<real>,
                           inPol: Option<Vec3>, outPol: Vec3, absTime: real, relTime: real, distance: real,
                           weight: real)

  /** The exit angle of a row (tracker.py:736-744): the transmission angle when
      there is one; between two rows in the reflector, the angle between the new
      direction and the plane; otherwise the incidence angle. */
  function OutAngle(m: MathLib, cosI: real, sinT: Option<real>, lastVolume: string, volume: string,
                    dir: Vec3, plane: Face): real
  {
    if sinT.Some? then m.asinDeg(sinT.value)
    else if lastVolume == "reflector" && volume == "reflector" then m.acosDeg(Clip(Inward(dir, plane)))
    else m.acosDeg(Clip(cosI))
  }

  /** The emission row trackPhoton starts with (tracker.py:1177-1194). */
  function EmissionRecord(id: int, position: Vec3, volume: string, dir: Vec3, pol: Vec3, time: real, weight: real)
    : Record
  {
    Record(id, 0, Scale(0.001, position), Emission, None, volume, None, dir, None, None, None, pol, time,
           0.0, 0.0, weight)
  }

  /** The row updatePhotonInfo appends after `last` (tracker.py:746-790), given the
      photon's fields after the update. */
  function NextRecord(m: MathLib, last: Record, point: Vec3, kind: Kind, plane: Face, volume: string,
                      dir: Vec3, pol: Vec3, cosI: real, sinT: Option<real>, dt: real,
                      time: real, distance: real, weight: real): Record
  {
    Record(last.id, last.step + 1, Scale(0.001, point), kind, Some(plane), volume,
           Some(last.outDir), dir, Some(m.acosDeg(Clip(cosI))), Some(OutAngle(m, cosI, sinT, last.volume, volume, dir, plane)),
           Some(last.outPol), pol, time, last.relTime + dt, 0.001 * distance, weight)
  }

  /** Row `next` continues row `prev`: the same photon at the next step, coming
      in with the direction and polarisation `prev` went out with; the relative
      time advances as far as the absolute time, and the weight does not grow. */
  predicate Follows(prev: Record, next: Record) {
    && next.id == prev.id && next.step == prev.step + 1 && next.kind != Emission
    && next.inDir == Some(prev.outDir) && next.inPol == Some(prev.outPol)
    && next.relTime - prev.relTime == next.absTime - prev.absTime
    && NotHeavier(prev.weight, next.weight)
  }

  /** A weight `w1` that follows `w0` stays non-negative and does not grow. */
  predicate NotHeavier(w0: real, w1: real) {
    0.0 <= w0 ==> 0.0 <= w1 <= w0
  }

  /** A history as trackPhoton builds it: the emission row at step 0, relative time
      0 and distance 0, then rows each of which continues the one before. */
  predicate Chained(h: seq<Record>) {
    && |h| > 0
    && h[0].kind == Emission && h[0].step == 0 && h[0].relTime == 0.0 && h[0].distance == 0.0
    && h[0].inDir.None?
    && forall i :: 0 < i < |h| ==> Linked(h, i)
  }

  /** Row `i` of `h` continues row `i - 1`. */
  predicate Linked(h: seq<Record>, i: int)
    requires 0 < i < |h|
  {
    Follows(h[i - 1], h[i])
  }

  /** Row `r` records the photon state (position in um, directions, time, weight). */
  predicate Matches(r: Record, position: Vec3, dir: Vec3, pol: Vec3, time: real, weight: real) {
    r.position == Scale(0.001, position) && r.outDir == dir && r.outPol == pol && r.absTime == time && r.weight == weight
  }

  /** `h` is a history whose last row records the photon state. */
  predicate Describes(h: seq<Record>, position: Vec3, dir: Vec3, pol: Vec3, time: real, weight: real) {
    Chained(h) && Matches(h[|h| - 1], position, dir, pol, time, weight)
  }

  /** The emission row alone is a history, and it records the photon it was made from. */
  lemma EmissionStarts(id: int, position: Vec3, volume: string, dir: Vec3, pol: Vec3, time: real, weight: real)
    ensures var r := EmissionRecord(id, position, volume, dir, pol, time, weight);
      Describes([r], position, dir, pol, time, weight) && r.step == 0 && r.kind == Emission
  {
  }

  /** Appending a row that continues the last one keeps a history chained. */
  lemma ChainedAppend(h: seq<Record>, r: Record)
    requires Chained(h) && Follows(h[|h| - 1], r)
    ensures Chained(h + [r])
  {
    var h1 := h + [r];
    forall i | 0 < i < |h1|
      ensures Linked(h1, i)
    {
      if i < |h| {
        assert Linked(h, i);
        assert h1[i - 1] == h[i - 1] && h1[i] == h[i];
      }
    }
  }

  /** A chained history whose last row records the photon before updatePhotonInfo
      stays chained when the new row is appended, and its new last row records the
      photon after the update. */
  lemma AppendNext(m: MathLib, history: seq<Record>, point: Vec3, kind: Kind, plane: Face, volume: string,
                   dir: Vec3, pol: Vec3, cosI: real, sinT: Option<real>, dt: real,
                   position0: Vec3, dir0: Vec3, pol0: Vec3, time0: real, time: real, distance: real,
                   weight0: real, weight: real)
    requires Describes(history, position0, dir0, pol0, time0, weight0)
    requires kind != Emission && time == time0 + dt && NotHeavier(weight0, weight)
    ensures var h := history + [NextRecord(m, history[|history| - 1], point, kind, plane, volume, dir, pol, cosI, sinT,
                                           dt, time, distance, weight)];
      Describes(h, point, dir, pol, time, weight)
  {
    var last := history[|history| - 1];
    var r := NextRecord(m, last, point, kind, plane, volume, dir, pol, cosI, sinT, dt, time, distance, weight);
    assert Follows(last, r);
    ChainedAppend(history, r);
  }

  /** What a chained history says row by row: row i is step i of the same photon,
      no row after the first is an emission, the relative time of a row is its
      absolute time less the emission time, and from a non-negative emission
      weight on the weights never grow. */
  lemma {:induction false} ChainedFacts(h: seq<Record>)
    requires Chained(h)
    ensures forall i :: 0 <= i < |h| ==> h[i].step == i && h[i].id == h[0].id
    ensures forall i :: 0 < i < |h| ==> h[i].kind != Emission
    ensures forall i :: 0 <= i < |h| ==> h[i].relTime == h[i].absTime - h[0].absTime
    ensures 0.0 <= h[0].weight ==> forall i, j :: 0 <= i <= j < |h| ==> 0.0 <= h[j].weight <= h[i].weight
    decreases |h|
  {
    if |h| > 1 {
      var init := h[..|h| - 1];
      assert Chained(init) by {
        forall i | 0 < i < |init|
          ensures Linked(init, i)
        {
          assert Linked(h, i);
          assert init[i - 1] == h[i - 1] && init[i] == h[i];
        }
      }
      ChainedFacts(init);
      var n := |h| - 1;
      assert Linked(h, n);
      assert forall i :: 0 <= i < n ==> h[i] == init[i];
    }
  }
}
