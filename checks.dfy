/** The decisions of the geometry checks of src/geometry.py, stated on a snapshot
    of the geometry: the volumes in dictionary order, each with its name and box.
    From the centroid of each volume a ray is cast along each of the six axis
    directions against the boxes of the other volumes; the hits become record rows
    whose nearest one decides an overlap or a gap (`checkGeometry`) or the touching
    neighbour on that side (`identifyTouchingVolumes`). */
module GeometryChecks {

  import opened Wrappers
  import opened RealMath
  import opened HitSelection
  import opened Intersector
  import opened VolumeModel

  /** A volume as the checks see it. */
  datatype Placed = Placed(name: string, box: Bounds)

  /** The ray query of trimesh: the hits of the ray from a point along a face
      direction with a box, each with the box face it lies on. */
  type RayCast = (Vec3, Face, Bounds) -> seq<VolumeHit>

  /** The rows one volume contributes: its name, each hit and its distance. */
  function ScanRows(m: MathLib, origin: Vec3, name: string, hs: seq<VolumeHit>): (C: seq<Candidate>)
    ensures |C| == |hs|
    ensures forall k :: 0 <= k < |hs| ==> C[k] == Candidate(name, hs[k].point, hs[k].face, Distance(m, origin, hs[k].point))
  {
    seq(|hs|, k requires 0 <= k < |hs| => Candidate(name, hs[k].point, hs[k].face, Distance(m, origin, hs[k].point)))
  }

  /** The record array of one ray (geometry.py:252-270, 338-356): the rows of every
      volume in order, except the current one and the names in `skip`. */
  function DirectionRows(m: MathLib, cast: RayCast, origin: Vec3, P: seq<Placed>, current: string,
                         f: Face, skip: set<string>): (C: seq<Candidate>)
    ensures forall c :: c in C ==> c.volume != current && c.volume !in skip
    decreases |P|
  {
    if |P| == 0 then []
    else
      var p := P[|P| - 1];
      DirectionRows(m, cast, origin, P[..|P| - 1], current, f, skip)
      + (if p.name == current || p.name in skip then [] else ScanRows(m, origin, p.name, cast(origin, f, p.box)))
  }

  /** Half the extent of the current box along a direction. */
  function HalfExtent(b: Bounds, f: Face): real {
    Get(Extents(b), NormalAxis(f)) / 2.0
  }

  /** Where the nearest neighbour lies relative to the side of the current box. */
  datatype Contact = Overlap | Gap | Flush

  /** The classification of one ray of `checkGeometry` (geometry.py:273-286). */
  function DirectionContact(C: seq<Candidate>, half: real): Result<Option<Contact>> {
    if |C| == 0 then Ok(None)
    else
      var near := Closest(C);
      if |near| > 1 then Err(ValueError)
      else
        var d := C[near[0]].dist;
        if d < half then Ok(Some(Overlap))
        else if d > half then Ok(Some(Gap))
        else Ok(Some(Flush))
  }

  /** No hits is nothing to report; a shared minimum distance is an array in an
      `if`, ValueError; otherwise the nearest hit is an overlap when nearer than half
      the extent, a gap when farther, and flush when exactly there. */
  lemma DirectionContactMeaning(C: seq<Candidate>, half: real)
    ensures |C| == 0 ==> DirectionContact(C, half) == Ok(None)
    ensures |C| > 0 ==> (DirectionContact(C, half).Err? <==> |Closest(C)| > 1)
    ensures DirectionContact(C, half).Err? ==> DirectionContact(C, half).error == ValueError
    ensures |C| > 0 && DirectionContact(C, half).Ok? ==>
      && DirectionContact(C, half).value.Some?
      && (DirectionContact(C, half).value.value == Overlap <==> MinDist(C) < half)
      && (DirectionContact(C, half).value.value == Gap <==> MinDist(C) > half)
      && (DirectionContact(C, half).value.value == Flush <==> MinDist(C) == half)
  {
    if |C| > 0 {
      ClosestFacts(C);
    }
  }

  /** An overlap or a gap counts as one issue. */
  function IssueCount(c: Option<Contact>): nat {
    match c
    case Some(Overlap) => 1
    case Some(Gap) => 1
    case _ => 0
  }

  /** The rows of one ray of `checkGeometry`: the environment and the reflector
      are skipped as other volumes (geometry.py:257). */
  function CheckRows(m: MathLib, cast: RayCast, P: seq<Placed>, cur: Placed, f: Face): seq<Candidate> {
    DirectionRows(m, cast, Centroid(cur.box), P, cur.name, f, {"environment", "reflector"})
  }

  /** The classification of the ray from the centroid of `cur` along `f`. */
  function RayContact(m: MathLib, cast: RayCast, P: seq<Placed>, cur: Placed, f: Face): Result<Option<Contact>> {
    DirectionContact(CheckRows(m, cast, P, cur, f), HalfExtent(cur.box, f))
  }

  /** A ray that reports nothing: no hit, or a single nearest hit flush with the side. */
  predicate Clean(c: Result<Option<Contact>>) {
    c == Ok(None) || c == Ok(Some(Flush))
  }

  /** The outcome of each of the six rays from a volume, in the order they are cast. */
  function Contacts(m: MathLib, cast: RayCast, P: seq<Placed>, cur: Placed): (cs: seq<Result<Option<Contact>>>)
    ensures |cs| == |RayDirections|
    ensures forall j :: 0 <= j < |cs| ==> cs[j] == RayContact(m, cast, P, cur, RayDirections[j])
  {
    seq(|RayDirections|, j requires 0 <= j < |RayDirections| => RayContact(m, cast, P, cur, RayDirections[j]))
  }

  /** `issuesCounter` after the rays with outcomes `cs` (geometry.py:247-286): one per
      overlap or gap, or the ValueError of the first tie. */
  function Tally(cs: seq<Result<Option<Contact>>>): (r: Result<nat>)
    ensures r.Err? ==> exists j :: 0 <= j < |cs| && cs[j].Err? && r.error == cs[j].error
    decreases |cs|
  {
    if |cs| == 0 then Ok(0)
    else
      var pre := Tally(cs[..|cs| - 1]);
      var c := cs[|cs| - 1];
      assert forall j :: 0 <= j < |cs| - 1 ==> cs[..|cs| - 1][j] == cs[j];
      if pre.Err? then pre
      else if c.Err? then Err(c.error)
      else Ok(pre.value + IssueCount(c.value))
  }

  /** One more ray extends the tally of the rays before it. */
  lemma TallyStep(cs: seq<Result<Option<Contact>>>, c: Result<Option<Contact>>)
    requires Tally(cs).Ok?
    ensures c.Err? ==> Tally(cs + [c]) == Err(c.error)
    ensures c.Ok? ==> Tally(cs + [c]) == Ok(Tally(cs).value + IssueCount(c.value))
  {
    assert (cs + [c])[..|cs|] == cs;
  }

  /** A tally that has failed stays failed. */
  lemma {:induction false} TallyFailureStays(cs: seq<Result<Option<Contact>>>, n: nat)
    requires n <= |cs| && Tally(cs[..n]).Err?
    ensures Tally(cs) == Tally(cs[..n])
    decreases |cs| - n
  {
    if n < |cs| {
      assert cs[..n + 1][..n] == cs[..n];
      TallyFailureStays(cs, n + 1);
    } else {
      assert cs[..n] == cs;
    }
  }

  /** One ray of the loop over `all`: the tally so far extended by ray `j`, and a
      failing ray decides the whole tally. */
  lemma TallyLoopStep(all: seq<Result<Option<Contact>>>, j: nat, issues: nat)
    requires j < |all| && Tally(all[..j]) == Ok(issues)
    ensures all[j].Err? ==> Tally(all) == Err(all[j].error)
    ensures all[j].Ok? ==> Tally(all[..j + 1]) == Ok(issues + IssueCount(all[j].value))
  {
    assert all[..j + 1] == all[..j] + [all[j]];
    TallyStep(all[..j], all[j]);
    if all[j].Err? {
      TallyFailureStays(all, j + 1);
    }
  }

  /** The tally is formed exactly when no ray errs, and it is 0 exactly when every ray
      is clean. */
  lemma {:induction false} TallyFacts(cs: seq<Result<Option<Contact>>>)
    ensures Tally(cs).Ok? <==> forall j :: 0 <= j < |cs| ==> cs[j].Ok?
    ensures Tally(cs) == Ok(0) <==> forall j :: 0 <= j < |cs| ==> Clean(cs[j])
    decreases |cs|
  {
    if |cs| > 0 {
      var pre := cs[..|cs| - 1];
      TallyFacts(pre);
      assert forall j :: 0 <= j < |pre| ==> pre[j] == cs[j];
      var c := cs[|cs| - 1];
      assert c.Ok? ==> (IssueCount(c.value) == 0 <==> Clean(c));
    }
  }

  /** The issue count of a checked volume over the six rays. */
  function Issues(m: MathLib, cast: RayCast, P: seq<Placed>, cur: Placed): Result<nat> {
    Tally(Contacts(m, cast, P, cur))
  }

  /** A volume has no issue exactly when all six of its rays are clean. */
  lemma NoIssues(m: MathLib, cast: RayCast, P: seq<Placed>, cur: Placed)
    ensures Issues(m, cast, P, cur) == Ok(0) <==> forall f :: Clean(RayContact(m, cast, P, cur, f))
  {
    var cs := Contacts(m, cast, P, cur);
    TallyFacts(cs);
    if forall f :: Clean(RayContact(m, cast, P, cur, f)) {
      forall j | 0 <= j < |cs|
        ensures Clean(cs[j])
      {
        assert cs[j] == RayContact(m, cast, P, cur, RayDirections[j]);
      }
    }
    if Tally(cs) == Ok(0) {
      forall f
        ensures Clean(RayContact(m, cast, P, cur, f))
      {
        assert cs[RayIndex(f)] == RayContact(m, cast, P, cur, f);
      }
    }
  }

  /** `volumesIssuesRecord` after the volumes with (name, issue count) `vs`
      (geometry.py:241-292): the count of every checked volume that has one, or the
      first ValueError.  The environment and the reflector are not checked. */
  function IssuesRecord(vs: seq<(string, Result<nat>)>): (r: Result<map<string, nat>>)
    ensures r.Ok? ==> forall n :: n in r.value ==> r.value[n] > 0
    decreases |vs|
  {
    if |vs| == 0 then Ok(map[])
    else
      var pre := IssuesRecord(vs[..|vs| - 1]);
      var (name, n) := vs[|vs| - 1];
      if pre.Err? then pre
      else if IsShell(name) then pre
      else if n.Err? then Err(n.error)
      else if n.value == 0 then pre
      else Ok(pre.value[name := n.value])
  }

  /** A record that has failed stays failed. */
  lemma {:induction false} IssuesRecordFailureStays(vs: seq<(string, Result<nat>)>, n: nat)
    requires n <= |vs| && IssuesRecord(vs[..n]).Err?
    ensures IssuesRecord(vs) == IssuesRecord(vs[..n])
    decreases |vs| - n
  {
    if n < |vs| {
      assert vs[..n + 1][..n] == vs[..n];
      IssuesRecordFailureStays(vs, n + 1);
    } else {
      assert vs[..n] == vs;
    }
  }

  /** One volume of the loop over `vs`: the record so far extended by volume `i`,
      and a failing checked volume decides the whole record. */
  lemma IssuesRecordLoopStep(vs: seq<(string, Result<nat>)>, i: nat, record: map<string, nat>)
    requires i < |vs| && IssuesRecord(vs[..i]) == Ok(record)
    ensures IsShell(vs[i].0) ==> IssuesRecord(vs[..i + 1]) == Ok(record)
    ensures !IsShell(vs[i].0) && vs[i].1.Err? ==> IssuesRecord(vs) == Err(vs[i].1.error)
    ensures !IsShell(vs[i].0) && vs[i].1 == Ok(0) ==> IssuesRecord(vs[..i + 1]) == Ok(record)
    ensures !IsShell(vs[i].0) && vs[i].1.Ok? && vs[i].1.value > 0 ==>
      IssuesRecord(vs[..i + 1]) == Ok(record[vs[i].0 := vs[i].1.value])
  {
    assert vs[..i + 1][..i] == vs[..i];
    if !IsShell(vs[i].0) && vs[i].1.Err? {
      IssuesRecordFailureStays(vs, i + 1);
    }
  }

  /** The record is formed exactly when no checked volume errs, and it is empty
      exactly when each checked volume has no issue. */
  lemma {:induction false} IssuesRecordFacts(vs: seq<(string, Result<nat>)>)
    ensures IssuesRecord(vs).Ok? <==> forall i :: 0 <= i < |vs| && !IsShell(vs[i].0) ==> vs[i].1.Ok?
    ensures IssuesRecord(vs).Ok? ==>
      (|IssuesRecord(vs).value| == 0 <==> forall i :: 0 <= i < |vs| && !IsShell(vs[i].0) ==> vs[i].1 == Ok(0))
    ensures IssuesRecord(vs).Err? ==> exists i :: 0 <= i < |vs| && vs[i].1.Err? && IssuesRecord(vs).error == vs[i].1.error
    decreases |vs|
  {
    if |vs| > 0 {
      var pre := vs[..|vs| - 1];
      IssuesRecordFacts(pre);
      assert forall i :: 0 <= i < |pre| ==> pre[i] == vs[i];
      var (name, n) := vs[|vs| - 1];
      var r := IssuesRecord(vs);
      if IssuesRecord(pre).Ok? && !IsShell(name) && n.Ok? && n.value > 0 {
        assert name in r.value;
      }
    }
  }

  /** Each volume's name with its issue count, in dictionary order. */
  function VolumeIssues(m: MathLib, cast: RayCast, P: seq<Placed>): (vs: seq<(string, Result<nat>)>)
    ensures |vs| == |P|
    ensures forall i :: 0 <= i < |P| ==> vs[i] == (P[i].name, Issues(m, cast, P, P[i]))
  {
    seq(|P|, i requires 0 <= i < |P| => (P[i].name, Issues(m, cast, P, P[i])))
  }

  /** `checkGeometry` (geometry.py:211-299): the ValueError of the first tie, or
      ValueError when any checked volume has an issue. */
  function GeometryCheck(m: MathLib, cast: RayCast, P: seq<Placed>): Result<()> {
    match IssuesRecord(VolumeIssues(m, cast, P))
    case Err(e) => Err(e)
    case Ok(record) => if |record| > 0 then Err(ValueError) else Ok(())
  }

  /** The check fails only with ValueError: a tie on some ray, or an issue. */
  lemma GeometryCheckFails(m: MathLib, cast: RayCast, P: seq<Placed>)
    ensures GeometryCheck(m, cast, P).Err? ==> GeometryCheck(m, cast, P).error == ValueError
  {
    var vs := VolumeIssues(m, cast, P);
    IssuesRecordFacts(vs);
    if IssuesRecord(vs).Err? {
      var i :| 0 <= i < |vs| && vs[i].1.Err? && IssuesRecord(vs).error == vs[i].1.error;
      var cs := Contacts(m, cast, P, P[i]);
      var j :| 0 <= j < |cs| && cs[j].Err? && vs[i].1.error == cs[j].error;
      DirectionContactMeaning(CheckRows(m, cast, P, P[i], RayDirections[j]), HalfExtent(P[i].box, RayDirections[j]));
    }
  }

  /** The check passes exactly when, for every volume other than the environment
      and the reflector, every ray either hits nothing or has a single nearest hit
      at exactly half the extent: each volume touches its neighbours with neither
      gap nor overlap. */
  lemma GeometryCheckPasses(m: MathLib, cast: RayCast, P: seq<Placed>)
    ensures GeometryCheck(m, cast, P).Ok? <==>
      forall i, f :: 0 <= i < |P| && !IsShell(P[i].name) ==> Clean(RayContact(m, cast, P, P[i], f))
  {
    var vs := VolumeIssues(m, cast, P);
    IssuesRecordFacts(vs);
    forall i | 0 <= i < |P| && !IsShell(P[i].name)
      ensures vs[i].1 == Ok(0) <==> forall f :: Clean(RayContact(m, cast, P, P[i], f))
    {
      NoIssues(m, cast, P, P[i]);
    }
    assert GeometryCheck(m, cast, P).Ok? <==>
      forall i :: 0 <= i < |vs| && !IsShell(vs[i].0) ==> vs[i].1 == Ok(0);
  }

  // ---------------------------------------------------------------------------
  // Touching volumes

  /** The rows of one ray of `identifyTouchingVolumes`: only the environment is
      skipped as another volume, the reflector is a candidate (geometry.py:343). */
  function TouchRows(m: MathLib, cast: RayCast, P: seq<Placed>, cur: Placed, f: Face): seq<Candidate> {
    DirectionRows(m, cast, Centroid(cur.box), P, cur.name, f, {"environment"})
  }

  /** The neighbour on one side (geometry.py:357-375): 'environment' without hits;
      the volume of the nearest row when it is unique; on a shared minimum the
      reflector rows are deleted and the nearest remaining row is taken, with
      ValueError when none remains (`np.vstack` of nothing) or the tie persists. */
  function Neighbour(C: seq<Candidate>): Result<string> {
    if |C| == 0 then Ok("environment")
    else if |Closest(C)| > 1 then
      var D := WithoutVolumes(C, {"reflector"});
      if |D| == 0 then Err(ValueError)
      else if |Closest(D)| > 1 then Err(ValueError)
      else
        ClosestFacts(D);
        assert D[Closest(D)[0]] in D;
        Ok(D[Closest(D)[0]].volume)
    else
      ClosestFacts(C);
      Ok(C[Closest(C)[0]].volume)
  }

  /** What the neighbour is in each case: 'environment' without rows, the nearest
      row's volume when unique, otherwise the nearest row's volume after the reflector
      rows are deleted, never the reflector then, and ValueError exactly when no
      row remains or the tie persists. */
  lemma NeighbourMeaning(C: seq<Candidate>)
    ensures |C| == 0 ==> Neighbour(C) == Ok("environment")
    ensures Neighbour(C).Err? ==> Neighbour(C).error == ValueError
    ensures |C| > 0 && |Closest(C)| == 1 ==> Neighbour(C).Ok? && Neighbour(C).value == C[Closest(C)[0]].volume
    ensures |C| > 0 && |Closest(C)| > 1 ==>
      var D := WithoutVolumes(C, {"reflector"});
      && (Neighbour(C).Err? <==> |D| == 0 || |Closest(D)| > 1)
      && (Neighbour(C).Ok? ==> Neighbour(C).value == D[Closest(D)[0]].volume && Neighbour(C).value != "reflector")
  {
    if |C| > 0 {
      ClosestFacts(C);
      var D := WithoutVolumes(C, {"reflector"});
      if |Closest(C)| > 1 && |D| > 0 {
        ClosestFacts(D);
        assert D[Closest(D)[0]] in D;
      }
    }
  }

  /** A neighbour found without elimination is the volume of the unique nearest row:
      every other row is strictly farther. */
  lemma NeighbourIsUniqueNearest(C: seq<Candidate>)
    requires |C| > 0 && |Closest(C)| == 1
    ensures exists i :: 0 <= i < |C| && C[i].volume == Neighbour(C).value
                        && forall j :: 0 <= j < |C| && j != i ==> C[i].dist < C[j].dist
  {
    ClosestFacts(C);
    ClosestTie(C);
    var i := Closest(C)[0];
    forall j | 0 <= j < |C| && j != i ensures C[i].dist < C[j].dist {
      if C[j].dist == C[i].dist {
        assert false;
      }
    }
  }

  /** The neighbour of each of the six sides, in the order the rays are cast. */
  function Neighbours(m: MathLib, cast: RayCast, P: seq<Placed>, cur: Placed): (ns: seq<Result<string>>)
    ensures |ns| == |RayDirections|
  {
    seq(|RayDirections|, j requires 0 <= j < |RayDirections| => Neighbour(TouchRows(m, cast, P, cur, RayDirections[j])))
  }

  /** The touching dictionary after the rays along `dirs` with neighbours `ns`
      (geometry.py:336-376): each neighbour under its direction's normal tuple, or
      the first ValueError. */
  function Touching(dirs: seq<Face>, ns: seq<Result<string>>): (r: Result<map<Key, string>>)
    requires |ns| == |dirs|
    ensures r.Ok? <==> forall j :: 0 <= j < |ns| ==> ns[j].Ok?
    ensures r.Err? ==> exists j :: 0 <= j < |ns| && ns[j].Err? && r.error == ns[j].error
    ensures r.Ok? ==> r.value.Keys == set f | f in dirs :: Normal(f)
    decreases |dirs|
  {
    if |dirs| == 0 then Ok(map[])
    else
      var n := |dirs| - 1;
      var pre := Touching(dirs[..n], ns[..n]);
      assert dirs == dirs[..n] + [dirs[n]];
      assert forall j :: 0 <= j < n ==> ns[..n][j] == ns[j];
      if pre.Err? then pre
      else if ns[n].Err? then Err(ns[n].error)
      else Ok(pre.value[Normal(dirs[n]) := ns[n].value])
  }

  /** A dictionary that has failed stays failed. */
  lemma {:induction false} TouchingFailureStays(dirs: seq<Face>, ns: seq<Result<string>>, n: nat)
    requires |ns| == |dirs| && n <= |dirs| && Touching(dirs[..n], ns[..n]).Err?
    ensures Touching(dirs, ns) == Touching(dirs[..n], ns[..n])
    decreases |dirs| - n
  {
    if n < |dirs| {
      assert dirs[..n + 1][..n] == dirs[..n];
      assert ns[..n + 1][..n] == ns[..n];
      TouchingFailureStays(dirs, ns, n + 1);
    } else {
      assert dirs[..n] == dirs;
      assert ns[..n] == ns;
    }
  }

  /** One direction of the loop over `dirs`: the dictionary so far extended by
      direction `j`, and a failing direction decides the whole dictionary. */
  lemma TouchingLoopStep(dirs: seq<Face>, ns: seq<Result<string>>, j: nat, t: map<Key, string>)
    requires |ns| == |dirs| && j < |dirs| && Touching(dirs[..j], ns[..j]) == Ok(t)
    ensures ns[j].Err? ==> Touching(dirs, ns) == Err(ns[j].error)
    ensures ns[j].Ok? ==> Touching(dirs[..j + 1], ns[..j + 1]) == Ok(t[Normal(dirs[j]) := ns[j].value])
  {
    assert dirs[..j + 1][..j] == dirs[..j];
    assert ns[..j + 1][..j] == ns[..j];
    if ns[j].Err? {
      TouchingFailureStays(dirs, ns, j + 1);
    }
  }

  /** Each key holds the neighbour found along its direction (the last one when a
      direction repeats). */
  lemma {:induction false} TouchingEntry(dirs: seq<Face>, ns: seq<Result<string>>, i: nat)
    requires |ns| == |dirs| && i < |dirs| && Touching(dirs, ns).Ok?
    requires forall j :: i < j < |dirs| ==> dirs[j] != dirs[i]
    ensures Touching(dirs, ns).value[Normal(dirs[i])] == ns[i].value
    decreases |dirs|
  {
    var n := |dirs| - 1;
    if i < n {
      assert dirs[..n][i] == dirs[i];
      assert forall j :: i < j < n ==> dirs[..n][j] == dirs[j];
      TouchingEntry(dirs[..n], ns[..n], i);
    }
  }

  /** The touching dictionary `identifyTouchingVolumes` assigns to a checked volume. */
  function TouchingOf(m: MathLib, cast: RayCast, P: seq<Placed>, cur: Placed): Result<map<Key, string>> {
    Touching(RayDirections, Neighbours(m, cast, P, cur))
  }

  /** Over the six ray directions the dictionary has all six normal keys, each
      holding the neighbour along its own direction. */
  lemma TouchingSixSides(ns: seq<Result<string>>)
    requires |ns| == |RayDirections| && Touching(RayDirections, ns).Ok?
    ensures Touching(RayDirections, ns).value.Keys == NormalKeys()
    ensures forall f :: Touching(RayDirections, ns).value[Normal(f)] == ns[RayIndex(f)].value
  {
    RayKeys();
    RayDirectionsDistinct();
    forall f ensures Touching(RayDirections, ns).value[Normal(f)] == ns[RayIndex(f)].value {
      TouchingEntry(RayDirections, ns, RayIndex(f));
    }
  }

  /** The normal keys of the six ray directions are all six normal keys. */
  lemma RayKeys()
    ensures (set f | f in RayDirections :: Normal(f)) == NormalKeys()
  {
    forall k | k in NormalKeys()
      ensures k in set f | f in RayDirections :: Normal(f)
    {
      assert RayDirections[RayIndex(k.face)] == k.face;
    }
  }

  /** The six ray directions are distinct. */
  lemma RayDirectionsDistinct()
    ensures forall i, j :: 0 <= i < j < |RayDirections| ==> RayDirections[i] != RayDirections[j]
  {
  }

  /** A checked volume gets an entry for all six normal keys, each the neighbour
      along that direction, 'environment' where the ray hits nothing; the dictionary
      is formed exactly when every side's neighbour is, otherwise ValueError. */
  lemma TouchingCoversAllSides(m: MathLib, cast: RayCast, P: seq<Placed>, cur: Placed)
    ensures TouchingOf(m, cast, P, cur).Ok? <==> forall f :: Neighbour(TouchRows(m, cast, P, cur, f)).Ok?
    ensures TouchingOf(m, cast, P, cur).Err? ==> TouchingOf(m, cast, P, cur).error == ValueError
    ensures TouchingOf(m, cast, P, cur).Ok? ==>
      && TouchingOf(m, cast, P, cur).value.Keys == NormalKeys()
      && forall f :: TouchingOf(m, cast, P, cur).value[Normal(f)] == Neighbour(TouchRows(m, cast, P, cur, f)).value
  {
    var ns := Neighbours(m, cast, P, cur);
    forall f ensures ns[RayIndex(f)] == Neighbour(TouchRows(m, cast, P, cur, f)) {}
    if Touching(RayDirections, ns).Ok? {
      TouchingSixSides(ns);
    } else {
      var j :| 0 <= j < |ns| && ns[j].Err? && Touching(RayDirections, ns).error == ns[j].error;
      NeighbourMeaning(TouchRows(m, cast, P, cur, RayDirections[j]));
    }
  }

  /** A side whose ray hits nothing touches the environment. */
  lemma OpenSideTouchesEnvironment(m: MathLib, cast: RayCast, P: seq<Placed>, cur: Placed, f: Face)
    requires TouchingOf(m, cast, P, cur).Ok? && |TouchRows(m, cast, P, cur, f)| == 0
    ensures TouchingOf(m, cast, P, cur).value[Normal(f)] == "environment"
  {
    TouchingCoversAllSides(m, cast, P, cur);
    NeighbourMeaning(TouchRows(m, cast, P, cur, f));
  }
}
