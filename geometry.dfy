/** The geometry of src/geometry.py: a dictionary of volumes, keyed by name in
    insertion order, with the placement check and the identification of each
    volume's touching neighbours.  The loops here are proved to compute the
    decisions stated in GeometryChecks. */
module GeometryModel {

  import opened Wrappers
  import opened RealMath
  import opened Materials
  import opened HitSelection
  import opened Intersector
  import opened SurfaceModel
  import opened VolumeModel
  import opened GeometryChecks

  // ---------------------------------------------------------------------------
  // The loops of checkGeometry and identifyTouchingVolumes
  // ---------------------------------------------------------------------------

  /** The record array of one ray, built as the source builds it (geometry.py:252-272,
      338-358): for each other volume in order that is not skipped, one row per hit. */
  method GatherRows(m: MathLib, cast: RayCast, origin: Vec3, P: seq<Placed>, current: string,
                    f: Face, skip: set<string>) returns (C: seq<Candidate>)
    ensures C == DirectionRows(m, cast, origin, P, current, f, skip)
  {
    C := [];
    for k := 0 to |P|
      invariant C == DirectionRows(m, cast, origin, P[..k], current, f, skip)
    {
      assert P[..k + 1][..k] == P[..k];
      var other := P[k];
      if other.name == current || other.name in skip {
        continue;
      }
      var hs := cast(origin, f, other.box);
      ghost var base := C;
      ghost var rows := ScanRows(m, origin, other.name, hs);
      for i := 0 to |hs|
        invariant C == base + rows[..i]
      {
        assert rows[..i + 1] == rows[..i] + [rows[i]];
        C := C + [Candidate(other.name, hs[i].point, hs[i].face, Distance(m, origin, hs[i].point))];
      }
      assert rows[..|hs|] == rows;
    }
    assert P[..|P|] == P;
  }

  /** One ray of `checkGeometry` (geometry.py:251-286): its rows and their verdict. */
  method ContactOf(m: MathLib, cast: RayCast, P: seq<Placed>, cur: Placed, f: Face) returns (c: Result<Option<Contact>>)
    ensures c == RayContact(m, cast, P, cur, f)
  {
    var rows := GatherRows(m, cast, Centroid(cur.box), P, cur.name, f, {"environment", "reflector"});
    c := DirectionContact(rows, HalfExtent(cur.box, f));
  }

  /** `issuesCounter` of one volume (geometry.py:245-286): the six rays in order, the
      first tie failing with ValueError. */
  method CountIssues(m: MathLib, cast: RayCast, P: seq<Placed>, cur: Placed) returns (r: Result<nat>)
    ensures r == Issues(m, cast, P, cur)
  {
    ghost var all := Contacts(m, cast, P, cur);
    var issues := 0;
    for j := 0 to |RayDirections|
      invariant Tally(all[..j]) == Ok(issues)
    {
      var c := ContactOf(m, cast, P, cur, RayDirections[j]);
      TallyLoopStep(all, j, issues);
      if c.Err? {
        return Err(c.error);
      }
      issues := issues + IssueCount(c.value);
    }
    assert all[..|RayDirections|] == all;
    r := Ok(issues);
  }

  /** The loop of `checkGeometry` over all volumes (geometry.py:237-299), proved to
      reach the decision `GeometryCheck`. */
  method CheckPlacement(m: MathLib, cast: RayCast, P: seq<Placed>) returns (r: Result<()>)
    ensures r == GeometryCheck(m, cast, P)
  {
    ghost var vs := VolumeIssues(m, cast, P);
    var record: map<string, nat> := map[];
    for i := 0 to |P|
      invariant IssuesRecord(vs[..i]) == Ok(record)
    {
      IssuesRecordLoopStep(vs, i, record);
      var cur := P[i];
      if IsShell(cur.name) {
        continue;
      }
      var n := CountIssues(m, cast, P, cur);
      if n.Err? {
        return Err(n.error);
      }
      if n.value != 0 {
        record := record[cur.name := n.value];
      }
    }
    assert vs[..|P|] == vs;
    if |record| != 0 {
      return Err(ValueError);
    }
    r := Ok(());
  }

  /** One ray of `identifyTouchingVolumes` (geometry.py:337-375): its rows and the
      neighbour they select. */
  method NeighbourOf(m: MathLib, cast: RayCast, P: seq<Placed>, cur: Placed, f: Face) returns (n: Result<string>)
    ensures n == Neighbour(TouchRows(m, cast, P, cur, f))
  {
    var rows := GatherRows(m, cast, Centroid(cur.box), P, cur.name, f, {"environment"});
    n := Neighbour(rows);
  }

  /** The six-direction loop of `identifyTouchingVolumes` for one volume
      (geometry.py:331-375). */
  method IdentifyFor(m: MathLib, cast: RayCast, P: seq<Placed>, cur: Placed) returns (r: Result<map<Key, string>>)
    ensures r == TouchingOf(m, cast, P, cur)
  {
    ghost var ns := Neighbours(m, cast, P, cur);
    var touching: map<Key, string> := map[];
    for j := 0 to |RayDirections|
      invariant Touching(RayDirections[..j], ns[..j]) == Ok(touching)
    {
      var f := RayDirections[j];
      var n := NeighbourOf(m, cast, P, cur, f);
      TouchingLoopStep(RayDirections, ns, j, touching);
      if n.Err? {
        return Err(n.error);
      }
      touching := touching[Normal(f) := n.value];
    }
    assert RayDirections[..|RayDirections|] == RayDirections;
    assert ns[..|RayDirections|] == ns;
    r := Ok(touching);
  }

  /** The index of the first checked volume at or after `i` whose touching
      dictionary `T[i]` cannot be formed, or |P| when there is none. */
  function FirstTouchingFailure(P: seq<Placed>, T: seq<Result<map<Key, string>>>, i: nat): (k: nat)
    requires |T| == |P| && i <= |P|
    ensures i <= k <= |P|
    ensures forall j :: i <= j < k && !IsShell(P[j].name) ==> T[j].Ok?
    ensures k < |P| ==> !IsShell(P[k].name) && T[k].Err?
    decreases |P| - i
  {
    if i == |P| then i
    else if !IsShell(P[i].name) && T[i].Err? then i
    else FirstTouchingFailure(P, T, i + 1)
  }

  /** A volume at or before the first failure that is skipped or succeeds lies
      before it. */
  lemma BeforeFirstTouchingFailure(P: seq<Placed>, T: seq<Result<map<Key, string>>>, i: nat)
    requires |T| == |P| && i < |P| && i <= FirstTouchingFailure(P, T, 0)
    requires IsShell(P[i].name) || T[i].Ok?
    ensures i < FirstTouchingFailure(P, T, 0)
  {
  }

  /** A checked volume at or before the first failure whose dictionary fails is
      the first failure. */
  lemma AtFirstTouchingFailure(P: seq<Placed>, T: seq<Result<map<Key, string>>>, i: nat)
    requires |T| == |P| && i < |P| && i <= FirstTouchingFailure(P, T, 0)
    requires !IsShell(P[i].name) && T[i].Err?
    ensures i == FirstTouchingFailure(P, T, 0)
  {
  }

  /** The touching dictionary of each volume, in order. */
  function TouchingsOf(m: MathLib, cast: RayCast, P: seq<Placed>): (T: seq<Result<map<Key, string>>>)
    ensures |T| == |P|
    ensures forall i :: 0 <= i < |P| ==> T[i] == TouchingOf(m, cast, P, P[i])
  {
    seq(|P|, i requires 0 <= i < |P| => TouchingOf(m, cast, P, P[i]))
  }

  /** The dictionary of the `i`-th volume, as `identifyTouchingVolumes` forms it. */
  method IdentifyAt(m: MathLib, cast: RayCast, P: seq<Placed>, i: nat) returns (r: Result<map<Key, string>>)
    requires i < |P|
    ensures r == TouchingsOf(m, cast, P)[i]
  {
    r := IdentifyFor(m, cast, P, P[i]);
  }

  /** The dictionary outcome of the `i`-th volume when it is checked; the shell
      volumes are skipped (geometry.py:326-327) and get none formed. */
  method OutcomeAt(m: MathLib, cast: RayCast, P: seq<Placed>, i: nat) returns (r: Result<map<Key, string>>)
    requires i < |P|
    ensures !IsShell(P[i].name) ==> r == TouchingsOf(m, cast, P)[i]
    ensures IsShell(P[i].name) ==> r == Ok(map[])
  {
    r := Ok(map[]);
    if !IsShell(P[i].name) {
      r := IdentifyAt(m, cast, P, i);
    }
  }

  /** The touching dictionaries after the loop has visited the first `i` volumes:
      each checked volume among them whose dictionary is formed holds it, every
      other volume keeps `before`. */
  function Partial(P: seq<Placed>, T: seq<Result<map<Key, string>>>, before: seq<Option<map<Key, string>>>, i: nat)
    : (S: seq<Option<map<Key, string>>>)
    requires |T| == |P| == |before|
    ensures |S| == |P|
    ensures forall j :: 0 <= j < |P| ==> S[j] == if j < i && !IsShell(P[j].name) && T[j].Ok? then Some(T[j].value) else before[j]
  {
    seq(|P|, j requires 0 <= j < |P| => if j < i && !IsShell(P[j].name) && T[j].Ok? then Some(T[j].value) else before[j])
  }

  /** Visiting volume `i` sets its entry and no other. */
  lemma PartialStep(P: seq<Placed>, T: seq<Result<map<Key, string>>>, before: seq<Option<map<Key, string>>>, i: nat)
    requires |T| == |P| == |before| && i < |P|
    ensures IsShell(P[i].name) || T[i].Err? ==> Partial(P, T, before, i + 1) == Partial(P, T, before, i)
    ensures !IsShell(P[i].name) && T[i].Ok? ==>
      Partial(P, T, before, i + 1) == Partial(P, T, before, i)[i := Some(T[i].value)]
  {
  }

  /** The touching dictionaries `identifyTouchingVolumes` leaves: those of the
      checked volumes before the first failure are set, the rest are `before`. */
  function Touched(P: seq<Placed>, T: seq<Result<map<Key, string>>>, before: seq<Option<map<Key, string>>>)
    : seq<Option<map<Key, string>>>
    requires |T| == |P| == |before|
  {
    Partial(P, T, before, FirstTouchingFailure(P, T, 0))
  }

  /** What checking the placement and then identifying the touching volumes
      returns: the check's error, else ValueError when a checked volume fails. */
  function Finished(m: MathLib, cast: RayCast, P: seq<Placed>): Result<()> {
    if GeometryCheck(m, cast, P).Err? then GeometryCheck(m, cast, P)
    else if FirstTouchingFailure(P, TouchingsOf(m, cast, P), 0) == |P| then Ok(())
    else Err(ValueError)
  }

  // ---------------------------------------------------------------------------
  // The configuration records of createGeometry
  // ---------------------------------------------------------------------------

  /** One entry of `volumesConfiguration`: each key present or absent. */
  datatype VolumeConfig = VolumeConfig(name: Option<string>, material: Option<Material>, width: Option<real>,
                                       length: Option<real>, center: Option<Vec3>,
                                       surfaceTrimeshes: Option<Option<map<Key, SurfaceSource>>>)

  /** The five keys the error message of createGeometry asks for. */
  predicate Complete(c: VolumeConfig) {
    c.name.Some? && c.material.Some? && c.width.Some? && c.length.Some? && c.center.Some?
  }

  /** The guard of geometry.py:122 as written: `not in` binds tighter than `and`,
      and the non-empty strings before it are truthy, so only 'center' is checked. */
  predicate GuardAsWritten(c: VolumeConfig) {
    c.center.None?
  }

  /** The guard as intended: any of the five keys missing. */
  predicate GuardIntended(c: VolumeConfig) {
    !Complete(c)
  }

  /** What one entry raises, if anything: the guard's ValueError, or the KeyError
      of the first absent key the constructor call reads (geometry.py:126-131,
      including 'surfaceTrimeshes', which the guard never mentions). */
  function ConfigError(c: VolumeConfig, asWritten: bool): (e: Option<Error>)
    ensures e.None? ==> Usable(c)
    ensures !asWritten ==> (e == Some(ValueError) <==> !Complete(c))
    ensures asWritten ==> (e == Some(ValueError) <==> c.center.None?)
  {
    if (if asWritten then GuardAsWritten(c) else GuardIntended(c)) then Some(ValueError)
    else if !Complete(c) || c.surfaceTrimeshes.None? then Some(KeyError)
    else None
  }

  /** The index of the first entry that raises, or |configs| when none does. */
  function FirstBadConfig(configs: seq<VolumeConfig>, asWritten: bool, i: nat): (k: nat)
    requires i <= |configs|
    ensures i <= k <= |configs|
    ensures forall j :: i <= j < k ==> ConfigError(configs[j], asWritten).None?
    ensures k < |configs| ==> ConfigError(configs[k], asWritten).Some?
    decreases |configs| - i
  {
    if i == |configs| then i
    else if ConfigError(configs[i], asWritten).Some? then i
    else FirstBadConfig(configs, asWritten, i + 1)
  }

  /** An entry before the first bad one raises nothing, and the first that raises is it. */
  lemma BeforeFirstBadConfig(configs: seq<VolumeConfig>, asWritten: bool, i: nat)
    requires i < |configs| && i <= FirstBadConfig(configs, asWritten, 0)
    ensures ConfigError(configs[i], asWritten).None? <==> i < FirstBadConfig(configs, asWritten, 0)
  {
  }

  /** An entry with 'center' but without 'width' passes the guard as written and
      fails later with KeyError instead of the ValueError the guard is for. */
  lemma GuardAsWrittenMissesWidth(material: Material)
    ensures var c := VolumeConfig(Some("pillar"), Some(material), None, Some(1.0), Some(Vec3(0.0, 0.0, 0.0)), Some(None));
      && !GuardAsWritten(c) && GuardIntended(c)
      && ConfigError(c, true) == Some(KeyError) && ConfigError(c, false) == Some(ValueError)
  {
  }

  /** What a volume holds, as a value. */
  datatype VolumeData = VolumeData(name: string, material: Material, width: real, length: real, volumeTrimesh: Bounds,
                                   surfaceTrimeshes: Option<map<Key, SurfaceSource>>,
                                   touchingVolumes: Option<map<Key, string>>)

  function DataOf(v: Volume): VolumeData
    reads v
  {
    VolumeData(v.name, v.material, v.width, v.length, v.volumeTrimesh, v.surfaceTrimeshes, v.touchingVolumes)
  }

  /** What a volume holds apart from its touching dictionary. */
  function Held(v: Volume): (d: VolumeData)
    reads v`name, v`material, v`width, v`length, v`volumeTrimesh, v`surfaceTrimeshes
    ensures d.touchingVolumes == None
  {
    VolumeData(v.name, v.material, v.width, v.length, v.volumeTrimesh, v.surfaceTrimeshes, None)
  }

  /** An entry with every key the constructor call reads. */
  predicate Usable(c: VolumeConfig) {
    Complete(c) && c.surfaceTrimeshes.Some?
  }

  /** The volume `volume.volume(vol['name'], ...)` creates from an entry
      (geometry.py:126-131): dimensions in um, its cuboid, no touching volumes. */
  function Created(c: VolumeConfig): (v: VolumeData)
    requires Usable(c)
    ensures v.name == c.name.value && v.touchingVolumes == None && v.surfaceTrimeshes == c.surfaceTrimeshes.value
  {
    VolumeData(c.name.value, c.material.value, Microns(c.width.value), Microns(c.length.value),
               Cuboid(c.width.value, c.length.value, c.center.value), c.surfaceTrimeshes.value, None)
  }

  /** The names of the entries, in order ("" for an entry without one). */
  function ConfigNames(cs: seq<VolumeConfig>): (ns: seq<string>)
    ensures |ns| == |cs| && forall j :: 0 <= j < |cs| && cs[j].name.Some? ==> ns[j] == cs[j].name.value
  {
    seq(|cs|, j requires 0 <= j < |cs| => if cs[j].name.Some? then cs[j].name.value else "")
  }

  /** The volumes the entries create, under their names: a later entry of a name
      replaces an earlier one, as `self.volumes[vol['name']] = ...` does in turn. */
  function Made(cs: seq<VolumeConfig>): map<string, VolumeData>
    requires forall j :: 0 <= j < |cs| ==> Usable(cs[j])
    decreases |cs|
  {
    if |cs| == 0 then map[]
    else
      var c := cs[|cs| - 1];
      assert Usable(c);
      Made(cs[..|cs| - 1])[c.name.value := Created(c)]
  }

  /** One more entry: its volume is made under its name, and its name goes after
      the others. */
  lemma MadeSnoc(cs: seq<VolumeConfig>, c: VolumeConfig)
    requires Usable(c) && forall j :: 0 <= j < |cs| ==> Usable(cs[j])
    ensures Made(cs + [c]) == Made(cs)[c.name.value := Created(c)]
    ensures ConfigNames(cs + [c]) == ConfigNames(cs) + [c.name.value]
  {
    MadeAppend(cs, c);
    NamesAppend(cs, c);
  }

  /** The made volumes after one more entry. */
  lemma MadeAppend(cs: seq<VolumeConfig>, c: VolumeConfig)
    requires Usable(c) && forall j :: 0 <= j < |cs| ==> Usable(cs[j])
    ensures Made(cs + [c]) == Made(cs)[c.name.value := Created(c)]
  {
    assert (cs + [c])[..|cs|] == cs;
  }

  /** The names after one more entry. */
  lemma NamesAppend(cs: seq<VolumeConfig>, c: VolumeConfig)
    requires c.name.Some?
    ensures ConfigNames(cs + [c]) == ConfigNames(cs) + [c.name.value]
  {
  }

  /** The names of the volumes made are exactly the entries' names. */
  lemma {:induction false} MadeKeys(cs: seq<VolumeConfig>)
    requires forall j :: 0 <= j < |cs| ==> Usable(cs[j])
    ensures forall n :: n in Made(cs) <==> n in ConfigNames(cs)
    decreases |cs|
  {
    if |cs| > 0 {
      var init := cs[..|cs| - 1];
      MadeKeys(init);
      MadeSnoc(init, cs[|cs| - 1]);
      assert init + [cs[|cs| - 1]] == cs;
    }
  }

  /** The volume made under a name is the one created from the last entry of that name. */
  lemma {:induction false} MadeLast(cs: seq<VolumeConfig>, j: nat)
    requires forall i :: 0 <= i < |cs| ==> Usable(cs[i])
    requires j < |cs| && forall i :: j < i < |cs| ==> cs[i].name != cs[j].name
    ensures Usable(cs[j]) && cs[j].name.value in Made(cs) && Made(cs)[cs[j].name.value] == Created(cs[j])
    decreases |cs|
  {
    if j < |cs| - 1 {
      MadeLast(cs[..|cs| - 1], j);
    }
  }

  /** The key order of a dictionary after assigning under `names` in turn: a new
      key goes to the end, an existing key keeps its place. */
  function Inserted(order: seq<string>, names: seq<string>): seq<string>
    decreases |names|
  {
    if |names| == 0 then order
    else
      var o := Inserted(order, names[..|names| - 1]);
      var n := names[|names| - 1];
      if n in o then o else o + [n]
  }

  /** The inserted order keeps the old order as its prefix and holds exactly the
      old keys and the assigned names; with a distinct old order it is distinct. */
  lemma {:induction false} InsertedFacts(order: seq<string>, names: seq<string>)
    ensures var o := Inserted(order, names);
      && |order| <= |o| && o[..|order|] == order
      && (forall n :: n in o <==> n in order || n in names)
      && ((forall a, b :: 0 <= a < b < |order| ==> order[a] != order[b]) ==>
            forall a, b :: 0 <= a < b < |o| ==> o[a] != o[b])
    decreases |names|
  {
    if |names| > 0 {
      InsertedFacts(order, names[..|names| - 1]);
      assert forall n :: n in names <==> n in names[..|names| - 1] || n == names[|names| - 1];
    }
  }

  /** Assigning a name to the key order: a new name goes to the end. */
  lemma InsertedSnoc(order: seq<string>, names: seq<string>, n: string)
    ensures Inserted(order, names + [n]) == if n in Inserted(order, names) then Inserted(order, names) else Inserted(order, names) + [n]
  {
    assert (names + [n])[..|names|] == names;
  }

  /** Storing one volume under `n` in a dictionary that holds the volumes `v0`
      and, over them, entries under the keys of `M`. */
  lemma StoreStep<T, D>(vs0: map<string, T>, vs1: map<string, T>, v0: map<string, T>, M: map<string, D>, n: string, d: D)
    requires n in vs1 && vs1 == vs0[n := vs1[n]]
    requires vs0.Keys == v0.Keys + M.Keys
    requires forall x :: x in v0 && x !in M ==> vs0[x] == v0[x]
    ensures vs1.Keys == v0.Keys + M[n := d].Keys
    ensures forall x :: x in v0 && x !in M[n := d] ==> vs1[x] == v0[x]
  {
  }

  /** The dictionary `vs` holds the volumes of `v0` and, over them, volumes whose
      contents are the entries of `M`. */
  ghost predicate Holds(vs: map<string, Volume>, v0: map<string, Volume>, M: map<string, VolumeData>)
    reads vs.Values
  {
    && vs.Keys == v0.Keys + M.Keys
    && (forall x :: x in v0 && x !in M ==> vs[x] == v0[x])
    && (forall x :: x in M ==> DataOf(vs[x]) == M[x])
  }

  /** Storing a value adds at most that value to the dictionary's values. */
  lemma ValuesUpdate<K, V>(m: map<K, V>, k: K, v: V)
    ensures m[k := v].Values <= m.Values + {v}
  {
    forall x | x in m[k := v].Values
      ensures x in m.Values + {v}
    {
      var y :| y in m[k := v] && m[k := v][y] == x;
      if y != k {
        assert m[y] == x;
      }
    }
  }

  /** The volumes under `ks`, in that order, as the checks see them. */
  function PlacedAll(ks: seq<string>, vs: map<string, Volume>): (P: seq<Placed>)
    requires forall i :: 0 <= i < |ks| ==> ks[i] in vs
    reads vs.Values`name, vs.Values`volumeTrimesh
    ensures |P| == |ks|
    ensures forall i :: 0 <= i < |ks| ==> P[i] == Placed(vs[ks[i]].name, vs[ks[i]].volumeTrimesh)
    decreases |ks|
  {
    if |ks| == 0 then []
    else
      var n := |ks| - 1;
      PlacedAll(ks[..n], vs) + [Placed(vs[ks[n]].name, vs[ks[n]].volumeTrimesh)]
  }

  /** The touching dictionaries of the volumes under `ks`, in that order. */
  function TouchingsAll(ks: seq<string>, vs: map<string, Volume>): (S: seq<Option<map<Key, string>>>)
    requires forall i :: 0 <= i < |ks| ==> ks[i] in vs
    reads vs.Values`touchingVolumes
    ensures |S| == |ks|
    ensures forall i :: 0 <= i < |ks| ==> S[i] == vs[ks[i]].touchingVolumes
    decreases |ks|
  {
    if |ks| == 0 then []
    else
      var n := |ks| - 1;
      TouchingsAll(ks[..n], vs) + [vs[ks[n]].touchingVolumes]
  }

  /** The touching dictionaries, in the order `order`, once the entries `M` are
      stored over volumes whose dictionaries by name were `T0`: `None` under a made
      name, the old dictionary under the others. */
  predicate EntriesTouching(order: seq<string>, M: map<string, VolumeData>,
                            T0: map<string, Option<map<Key, string>>>, before: seq<Option<map<Key, string>>>)
  {
    && |before| == |order|
    && forall i :: 0 <= i < |order| ==>
         before[i] == if order[i] in M then None else if order[i] in T0 then T0[order[i]] else None
  }

  /** Every volume the entries make has no touching dictionary yet. */
  lemma {:induction false} MadeUntouched(cs: seq<VolumeConfig>)
    requires forall j :: 0 <= j < |cs| ==> Usable(cs[j])
    ensures forall n :: n in Made(cs) ==> Made(cs)[n].touchingVolumes == None
    decreases |cs|
  {
    if |cs| > 0 {
      MadeUntouched(cs[..|cs| - 1]);
    }
  }

  // ---------------------------------------------------------------------------
  // The geometry object
  // ---------------------------------------------------------------------------

  class Geometry {
    /** The keys of `volumes` in insertion order, the order `volumes.values()` visits. */
    var order: seq<string>
    var volumes: map<string, Volume>

    /** The keys are listed once each in `order`, and each volume is stored under its
        own name (so distinct keys hold distinct objects). */
    predicate Valid()
      reads this, volumes.Values`name
    {
      && (forall i, j :: 0 <= i < j < |order| ==> order[i] != order[j])
      && (forall i :: 0 <= i < |order| ==> order[i] in volumes)
      && (forall n :: n in volumes ==> n in order)
      && (forall n :: n in volumes ==> volumes[n].name == n)
    }

    /** The volumes as the checks see them, in dictionary order. */
    function Placement(): (P: seq<Placed>)
      requires Valid()
      reads this, volumes.Values`name, volumes.Values`volumeTrimesh
      ensures |P| == |order|
      ensures forall i :: 0 <= i < |order| ==> P[i] == Placed(order[i], volumes[order[i]].volumeTrimesh)
    {
      PlacedAll(order, volumes)
    }

    /** Each volume's touching dictionary, in dictionary order. */
    function TouchingState(): (S: seq<Option<map<Key, string>>>)
      requires Valid()
      reads this, volumes.Values`name, volumes.Values`touchingVolumes
      ensures |S| == |order|
      ensures forall i :: 0 <= i < |order| ==> S[i] == volumes[order[i]].touchingVolumes
    {
      TouchingsAll(order, volumes)
    }

    /** Each volume's touching dictionary, by name. */
    function TouchingByName(): (T: map<string, Option<map<Key, string>>>)
      reads this, volumes.Values`touchingVolumes
      ensures T.Keys == volumes.Keys
      ensures forall n :: n in volumes ==> T[n] == volumes[n].touchingVolumes
    {
      map n | n in volumes :: volumes[n].touchingVolumes
    }

    /** `geometry.__init__` with `firstTime` (geometry.py:49-52): no volumes. */
    constructor ()
      ensures order == [] && volumes == map[] && Valid()
    {
      order := [];
      volumes := map[];
    }

    /** `addVolume` (geometry.py:142-170): a new volume stored under its name,
        replacing any volume of that name in its place in the order. */
    method AddVolume(name: string, material: Material, width: real, length: real, center: Vec3,
                     surfaceTrimeshes: Option<map<Key, SurfaceSource>> := None)
      requires Valid()
      modifies this
      ensures Valid()
      ensures name in volumes && fresh(volumes[name])
      ensures volumes == old(volumes)[name := volumes[name]]
      ensures order == if name in old(volumes) then old(order) else old(order) + [name]
      ensures DataOf(volumes[name]) == VolumeData(name, material, Microns(width),
        Microns(length), Cuboid(width, length, center), surfaceTrimeshes, None)
      ensures forall n :: n in old(volumes) && n != name ==> DataOf(volumes[n]) == old(DataOf(volumes[n]))
    {
      var v := new Volume(name, material, width, length, center, surfaceTrimeshes);
      if name !in volumes {
        order := order + [name];
      }
      volumes := volumes[name := v];
    }

    /** `addSurfaceTrimeshes` (geometry.py:174-207): ValueError for a name that is not
        a key; otherwise the named volume's `addSurfaceTrimeshes`, with its outcomes. */
    method AddSurfaceTrimeshes(volumeName: string, d: map<Key, SurfaceSource>, alreadyCreated: bool,
                               load: string -> Surface, readCloud: string -> seq<Vec3>, ops: MeshOps)
      returns (r: Result<()>)
      modifies if volumeName in volumes then {volumes[volumeName]} else {}
      ensures volumeName !in volumes ==> r == Err(ValueError)
      ensures volumeName in volumes ==> var v := volumes[volumeName];
        && SurfacesAdded(d, alreadyCreated, load, readCloud, r, v.surfaceTrimeshes)
        && (r.Ok? && !alreadyCreated ==>
              && HasAllLabels(d) && AllMeasured(d) && v.surfaceTrimeshes.Some?
              && BuiltAll(d, v.surfaceTrimeshes.value, readCloud)
              && forall f :: Normal(f) in v.surfaceTrimeshes.value && v.surfaceTrimeshes.value[Normal(f)].Built? &&
                            fresh(v.surfaceTrimeshes.value[Normal(f)].surface))
        && (r.Err? ==> v.surfaceTrimeshes == old(v.surfaceTrimeshes))
        && v.name == old(v.name) && v.volumeTrimesh == old(v.volumeTrimesh) && v.touchingVolumes == old(v.touchingVolumes)
        && v.material == old(v.material) && v.width == old(v.width) && v.length == old(v.length)
    {
      if volumeName !in volumes {
        return Err(ValueError);
      }
      r := volumes[volumeName].AddSurfaceTrimeshes(d, alreadyCreated, load, readCloud, ops);
    }

    /** `checkGeometry` (geometry.py:211-299): the placement decision on the current
        volumes; nothing changes. */
    method CheckGeometry(m: MathLib, cast: RayCast) returns (r: Result<()>)
      requires Valid()
      ensures r == GeometryCheck(m, cast, Placement())
    {
      r := CheckPlacement(m, cast, Placement());
    }

    /** The loop of `createGeometry` over the configuration (geometry.py:120-131),
        with the guard as written or as intended: each entry that raises nothing
        replaces the volume of its name, keeping its place in the order, and the
        first entry that raises stops the loop with its error. */
    method AddConfigured(configs: seq<VolumeConfig>, asWritten: bool) returns (r: Result<()>, ghost made: set<Volume>)
      requires Valid()
      modifies this
      ensures Valid()
      ensures var k := FirstBadConfig(configs, asWritten, 0);
        && (r.Ok? <==> k == |configs|)
        && (r.Err? ==> Some(r.error) == ConfigError(configs[k], asWritten))
        && volumes.Keys == old(volumes).Keys + Made(configs[..k]).Keys
        && (forall n :: n in old(volumes) && n !in Made(configs[..k]) ==> volumes[n] == old(volumes)[n])
        && (forall n :: n in Made(configs[..k]) ==> DataOf(volumes[n]) == Made(configs[..k])[n])
        && order == Inserted(old(order), ConfigNames(configs[..k]))
      ensures fresh(made) && volumes.Values <= old(volumes).Values + made
    {
      ghost var k := FirstBadConfig(configs, asWritten, 0);
      made := {};
      for i := 0 to |configs|
        invariant Valid() && i <= k
        invariant Holds(volumes, old(volumes), Made(configs[..i]))
        invariant order == Inserted(old(order), ConfigNames(configs[..i]))
        invariant fresh(made) && volumes.Values <= old(volumes).Values + made
      {
        var e, added := AddAt(configs, asWritten, i, old(volumes), old(order));
        made := made + added;
        if e.Some? {
          return Err(e.value), made;
        }
      }
      assert configs[..|configs|] == configs;
      r := Ok(());
    }

    /** `createGeometry` (geometry.py:101-139) as written: the entries under the
        guard as written, then `self.checkOverlaps()`, a method the class does not
        define, so every call that gets past the entries raises AttributeError. */
    method CreateGeometryAsWritten(configs: seq<VolumeConfig>) returns (r: Result<()>)
      requires Valid()
      modifies this
      ensures Valid() && r.Err?
      ensures var k := FirstBadConfig(configs, true, 0);
        && (k < |configs| ==> Some(r.error) == ConfigError(configs[k], true))
        && (k == |configs| ==> r.error == AttributeError)
        && volumes.Keys == old(volumes).Keys + Made(configs[..k]).Keys
        && (forall n :: n in old(volumes) && n !in Made(configs[..k]) ==> volumes[n] == old(volumes)[n])
        && (forall n :: n in Made(configs[..k]) ==> DataOf(volumes[n]) == Made(configs[..k])[n])
        && order == Inserted(old(order), ConfigNames(configs[..k]))
    {
      ghost var made;
      r, made := AddConfigured(configs, true);
      if r.Ok? {
        r := Err(AttributeError);
      }
    }

    /** `createGeometry` as intended: the entries under the intended guard, then the
        placement check and the touching volumes, the order main.py follows
        (main.py:133-136). The first stage that raises stops the rest. `before` is
        the touching dictionaries once the entries are stored: `None` for a newly
        made volume, the old dictionary for the others. */
    method CreateGeometry(configs: seq<VolumeConfig>, m: MathLib, cast: RayCast)
      returns (r: Result<()>, ghost before: seq<Option<map<Key, string>>>)
      requires Valid()
      modifies this, volumes.Values`touchingVolumes
      ensures Valid()
      ensures var k := FirstBadConfig(configs, false, 0);
        && volumes.Keys == old(volumes).Keys + Made(configs[..k]).Keys
        && order == Inserted(old(order), ConfigNames(configs[..k]))
        && (forall n :: n in old(volumes) && n !in Made(configs[..k]) ==>
              volumes[n] == old(volumes)[n] && Held(volumes[n]) == old(Held(volumes[n])))
        && (forall n :: n in Made(configs[..k]) ==> Held(volumes[n]) == Made(configs[..k])[n])
        && EntriesTouching(order, Made(configs[..k]), old(TouchingByName()), before)
        && (k < |configs| ==> r.Err? && Some(r.error) == ConfigError(configs[k], false) && TouchingState() == before)
      ensures FirstBadConfig(configs, false, 0) == |configs| ==> var P := Placement();
        && r == Finished(m, cast, P)
        && (GeometryCheck(m, cast, P).Err? ==> TouchingState() == before)
        && (GeometryCheck(m, cast, P).Ok? ==> TouchingState() == Touched(P, TouchingsOf(m, cast, P), before))
    {
      ghost var made;
      r, before, made := StoreEntries(configs);
      if r.Err? {
        return;
      }
      r := Complete(m, cast, before);
    }

    /** The entries of `createGeometry` under the intended guard (geometry.py:120-131):
        the made volumes override the old ones, and `before` holds the touching
        dictionaries they leave. */
    method StoreEntries(configs: seq<VolumeConfig>)
      returns (r: Result<()>, ghost before: seq<Option<map<Key, string>>>, ghost made: set<Volume>)
      requires Valid()
      modifies this
      ensures Valid()
      ensures var k := FirstBadConfig(configs, false, 0);
        && (r.Ok? <==> k == |configs|)
        && (r.Err? ==> Some(r.error) == ConfigError(configs[k], false))
        && volumes.Keys == old(volumes).Keys + Made(configs[..k]).Keys
        && order == Inserted(old(order), ConfigNames(configs[..k]))
        && (forall n :: n in old(volumes) && n !in Made(configs[..k]) ==>
              volumes[n] == old(volumes)[n] && Held(volumes[n]) == old(Held(volumes[n])))
        && (forall n :: n in Made(configs[..k]) ==> Held(volumes[n]) == Made(configs[..k])[n])
        && EntriesTouching(order, Made(configs[..k]), old(TouchingByName()), before)
        && before == TouchingState()
      ensures fresh(made) && volumes.Values <= old(volumes).Values + made
    {
      ghost var T0 := TouchingByName();
      r, made := AddConfigured(configs, false);
      ghost var k := FirstBadConfig(configs, false, 0);
      ghost var M := Made(configs[..k]);
      MadeUntouched(configs[..k]);
      before := TouchingState();
      forall n | n in M ensures Held(volumes[n]) == M[n] {
        assert DataOf(volumes[n]) == M[n];
      }
      forall i | 0 <= i < |order|
        ensures before[i] == if order[i] in M then None else if order[i] in T0 then T0[order[i]] else None
      {
        var n := order[i];
        if n in M {
          assert DataOf(volumes[n]) == M[n];
        } else {
          assert volumes[n] == old(volumes)[n];
        }
      }
    }

    /** The calls after the entries, which leave what each volume holds apart from
        its touching dictionary as it was. */
    method Complete(m: MathLib, cast: RayCast, ghost before: seq<Option<map<Key, string>>>) returns (r: Result<()>)
      requires Valid() && TouchingState() == before
      modifies volumes.Values`touchingVolumes
      ensures unchanged(this) && Valid()
      ensures forall n :: n in volumes ==> Held(volumes[n]) == old(Held(volumes[n]))
      ensures var P := Placement();
        && r == Finished(m, cast, P)
        && (GeometryCheck(m, cast, P).Err? ==> TouchingState() == before)
        && (GeometryCheck(m, cast, P).Ok? ==> TouchingState() == Touched(P, TouchingsOf(m, cast, P), before))
    {
      r := Finish(m, cast);
    }

    /** The two calls after the volumes exist: `checkGeometry`, then, when it
        passes, `identifyTouchingVolumes`. */
    method Finish(m: MathLib, cast: RayCast) returns (r: Result<()>)
      requires Valid()
      modifies volumes.Values`touchingVolumes
      ensures unchanged(this) && Valid() && Placement() == old(Placement())
      ensures r == Finished(m, cast, Placement())
      ensures GeometryCheck(m, cast, Placement()).Err? ==> TouchingState() == old(TouchingState())
      ensures GeometryCheck(m, cast, Placement()).Ok? ==>
        var P := Placement(); var T := TouchingsOf(m, cast, P);
        TouchingState() == Touched(P, T, old(TouchingState()))
    {
      r := CheckGeometry(m, cast);
      if r.Err? {
        return;
      }
      r := IdentifyTouchingVolumes(m, cast);
      if r.Ok? {
        r := Ok(());
      }
    }

    /** Entry `i` of that loop: what it raises, or else its volume stored. */
    method AddAt(configs: seq<VolumeConfig>, asWritten: bool, i: nat, ghost v0: map<string, Volume>, ghost o0: seq<string>)
      returns (e: Option<Error>, ghost added: set<Volume>)
      requires Valid() && i < |configs| && i <= FirstBadConfig(configs, asWritten, 0)
      requires Holds(volumes, v0, Made(configs[..i])) && order == Inserted(o0, ConfigNames(configs[..i]))
      modifies this
      ensures Valid() && fresh(added) && volumes.Values <= old(volumes).Values + added
      ensures e == ConfigError(configs[i], asWritten)
      ensures e.Some? ==>
        && i == FirstBadConfig(configs, asWritten, 0)
        && Holds(volumes, v0, Made(configs[..i])) && order == Inserted(o0, ConfigNames(configs[..i]))
      ensures e.None? ==>
        && i < FirstBadConfig(configs, asWritten, 0)
        && Holds(volumes, v0, Made(configs[..i + 1])) && order == Inserted(o0, ConfigNames(configs[..i + 1]))
    {
      var c := configs[i];
      e := ConfigError(c, asWritten);
      BeforeFirstBadConfig(configs, asWritten, i);
      if e.Some? {
        return e, {};
      }
      assert configs[..i + 1] == configs[..i] + [c];
      MadeSnoc(configs[..i], c);
      AddEntry(c, Made(configs[..i]), ConfigNames(configs[..i]), v0, o0);
      added := {volumes[c.name.value]};
    }

    /** One entry of that loop that raises nothing: `self.volumes[vol['name']] =
        volume.volume(...)` (geometry.py:126-131), after earlier entries that made
        the volumes `M` under the names `N`. */
    method AddEntry(c: VolumeConfig, ghost M: map<string, VolumeData>, ghost N: seq<string>,
                    ghost v0: map<string, Volume>, ghost o0: seq<string>)
      requires Valid() && Usable(c)
      requires Holds(volumes, v0, M)
      requires order == Inserted(o0, N)
      modifies this
      ensures Valid()
      ensures Holds(volumes, v0, M[c.name.value := Created(c)])
      ensures order == Inserted(o0, N + [c.name.value])
      ensures c.name.value in volumes && fresh(volumes[c.name.value])
      ensures volumes.Values <= old(volumes).Values + {volumes[c.name.value]}
    {
      ghost var vs0 := volumes;
      AddVolume(c.name.value, c.material.value, c.width.value, c.length.value, c.center.value, c.surfaceTrimeshes.value);
      StoreStep(vs0, volumes, v0, M, c.name.value, Created(c));
      InsertedSnoc(o0, N, c.name.value);
      ValuesUpdate(vs0, c.name.value, volumes[c.name.value]);
      forall x | x in M[c.name.value := Created(c)]
        ensures DataOf(volumes[x]) == M[c.name.value := Created(c)][x]
      {
        if x != c.name.value {
          assert DataOf(volumes[x]) == old(DataOf(volumes[x])) == M[x];
        }
      }
    }

    /** `currentVol.touchingVolumes = touchingVolumes` (geometry.py:378) for the
        `i`-th volume: its entry changes and no other, so the dictionaries become
        those after visiting it. */
    method SetTouching(i: nat, t: map<Key, string>, ghost P: seq<Placed>, ghost T: seq<Result<map<Key, string>>>,
                       ghost before: seq<Option<map<Key, string>>>)
      requires Valid() && Placement() == P && |T| == |P| == |before| && i < |P|
      requires !IsShell(P[i].name) && T[i] == Ok(t) && TouchingState() == Partial(P, T, before, i)
      modifies volumes.Values`touchingVolumes
      ensures Valid() && Placement() == P
      ensures TouchingState() == old(TouchingState())[i := Some(t)] == Partial(P, T, before, i + 1)
    {
      PartialStep(P, T, before, i);
      volumes[order[i]].touchingVolumes := Some(t);
      forall j | 0 <= j < |order| && j != i ensures volumes[order[j]].name != volumes[order[i]].name {}
    }

    /** `identifyTouchingVolumes` (geometry.py:303-380): every checked volume, in
        order, is given the dictionary of its six neighbours, until the first one
        whose dictionary cannot be formed raises ValueError; the volumes after it,
        and the environment and the reflector, keep what they had. */
    method IdentifyTouchingVolumes(m: MathLib, cast: RayCast) returns (r: Result<()>)
      requires Valid()
      modifies volumes.Values`touchingVolumes
      ensures Valid() && Placement() == old(Placement())
      ensures var P := Placement(); var T := TouchingsOf(m, cast, P);
        && (r.Ok? <==> FirstTouchingFailure(P, T, 0) == |P|)
        && (r.Err? ==> r.error == ValueError)
        && TouchingState() == Touched(P, T, old(TouchingState()))
    {
      var P := Placement();
      ghost var T := TouchingsOf(m, cast, P);
      ghost var before := TouchingState();
      ghost var k := FirstTouchingFailure(P, T, 0);
      for i := 0 to |order|
        invariant Valid() && Placement() == P
        invariant i <= k
        invariant TouchingState() == Partial(P, T, before, i)
      {
        var failed := Step(m, cast, P, T, before, i);
        if failed {
          return Err(ValueError);
        }
      }
      r := Ok(());
    }

    /** One volume of `identifyTouchingVolumes` (geometry.py:325-378): the
        dictionary of a checked volume is formed and stored, or the loop stops at it. */
    method Step(m: MathLib, cast: RayCast, P: seq<Placed>, ghost T: seq<Result<map<Key, string>>>,
                ghost before: seq<Option<map<Key, string>>>, i: nat)
      returns (failed: bool)
      requires T == TouchingsOf(m, cast, P)
      requires Valid() && Placement() == P && |before| == |P| && i < |P|
      requires i <= FirstTouchingFailure(P, T, 0) && TouchingState() == Partial(P, T, before, i)
      modifies volumes.Values`touchingVolumes
      ensures Valid() && Placement() == P
      ensures failed ==> i == FirstTouchingFailure(P, T, 0) && TouchingState() == old(TouchingState())
      ensures !failed ==> i < FirstTouchingFailure(P, T, 0) && TouchingState() == Partial(P, T, before, i + 1)
    {
      var t := OutcomeAt(m, cast, P, i);
      failed := VisitVolume(P, T, before, i, t);
    }

    /** The same step, given the outcome `t` of forming the volume's dictionary
        (unused for a shell volume). */
    method VisitVolume(ghost P: seq<Placed>, ghost T: seq<Result<map<Key, string>>>,
                       ghost before: seq<Option<map<Key, string>>>, i: nat, t: Result<map<Key, string>>)
      returns (failed: bool)
      requires Valid() && Placement() == P && |T| == |P| == |before| && i < |P|
      requires i <= FirstTouchingFailure(P, T, 0) && TouchingState() == Partial(P, T, before, i)
      requires !IsShell(P[i].name) ==> t == T[i]
      modifies volumes.Values`touchingVolumes
      ensures Valid() && Placement() == P
      ensures failed ==> i == FirstTouchingFailure(P, T, 0) && TouchingState() == old(TouchingState())
      ensures !failed ==> i < FirstTouchingFailure(P, T, 0) && TouchingState() == Partial(P, T, before, i + 1)
    {
      if IsShell(volumes[order[i]].name) {
        PartialStep(P, T, before, i);
        BeforeFirstTouchingFailure(P, T, i);
        return false;
      }
      if t.Err? {
        AtFirstTouchingFailure(P, T, i);
        return true;
      }
      BeforeFirstTouchingFailure(P, T, i);
      SetTouching(i, t.value, P, T, before);
      failed := false;
    }
  }
}
