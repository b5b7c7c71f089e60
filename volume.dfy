/** A cuboid volume of src/volume.py: its name and material, its dimensions in um,
    the box the tracker first intersects rays with, the rough surface of each of its
    six sides, and the name of the volume touching each side.  Both per-side
    dictionaries are keyed by orientation label on input; the volume adds an entry
    under each canonical normal tuple. */
module VolumeModel {

  import opened Wrappers
  import opened RealMath
  import opened Materials
  import opened SurfaceModel

  /** The configuration gives lengths in mm; the volume stores um
      (1000 um per mm, volume.py:67-77). */
  function Microns(mm: real): real { 1000.0 * mm }

  function Centroid(b: Bounds): Vec3 { Scale(0.5, Add(b.lo, b.hi)) }

  function Extents(b: Bounds): Vec3 { Sub(b.hi, b.lo) }

  /** `trimesh.creation.box(extents, transform)` with a pure translation: the
      axis-aligned box of the given extents whose centroid is `center`. */
  function Box(center: Vec3, extents: Vec3): (b: Bounds)
    ensures Centroid(b) == center && Extents(b) == extents
  {
    Bounds(Sub(center, Scale(0.5, extents)), Add(center, Scale(0.5, extents)))
  }

  /** The cuboid of the constructor (volume.py:72-77): extents (width, width,
      length) and centre, all converted from mm to um. */
  function Cuboid(width: real, length: real, center: Vec3): (b: Bounds)
    ensures Centroid(b) == Scale(1000.0, center)
    ensures Extents(b) == Vec3(Microns(width), Microns(width), Microns(length))
  {
    Box(Scale(1000.0, center), Scale(1000.0, Vec3(width, width, length)))
  }

  /** A value of the surface dictionary: the stored file of a surface created
      earlier, the finish and point-cloud file of a surface to create (a dictionary
      whose first entry maps the finish to the file), an empty dictionary, or a
      surface. */
  datatype SurfaceSource = Stored(fileName: string) | Measured(finish: string, pointCloudFile: string)
                         | NoEntries | Built(surface: Surface)

  /** The six canonical normal keys. */
  function NormalKeys(): (ks: set<Key>)
    ensures forall k :: k in ks <==> k.Normal?
  {
    var ks := set f | f in AllFaces :: Normal(f);
    assert forall k: Key :: k.Normal? ==> AllFaces[FaceIndex(k.face)] == k.face;
    ks
  }

  /** The completeness check (volume.py:114-117, 166-169): every one of the six
      orientation labels is a key. */
  predicate HasAllLabels<V>(d: map<Key, V>) {
    forall f :: Named(Label(f)) in d
  }

  /** The dictionary after an entry `value(f)` is written under the normal of each
      face `f`; every other key keeps its entry. */
  function WithNormals<V>(d: map<Key, V>, value: Face --> V): (r: map<Key, V>)
    requires forall f :: value.requires(f)
    ensures r.Keys == d.Keys + NormalKeys()
    ensures forall f :: r[Normal(f)] == value(f)
    ensures forall k :: k in d && !k.Normal? ==> r[k] == d[k]
  {
    map k | k in d.Keys + NormalKeys() :: if k.Normal? then value(k.face) else d[k]
  }

  /** The loop over the six (label, normal) pairs of volume.py:121-122 and 171-172. */
  method AddUnderNormals<V>(d: map<Key, V>, value: Face --> V) returns (acc: map<Key, V>)
    requires forall f :: value.requires(f)
    ensures acc == WithNormals(d, value)
  {
    acc := d;
    for i := 0 to |AllFaces|
      invariant acc.Keys == d.Keys + (set j | 0 <= j < i :: Normal(AllFaces[j]))
      invariant forall j :: 0 <= j < i ==> acc[Normal(AllFaces[j])] == value(AllFaces[j])
      invariant forall k :: k in d && !(k.Normal? && k.face in AllFaces[..i]) ==> acc[k] == d[k]
    {
      acc := acc[Normal(AllFaces[i]) := value(AllFaces[i])];
    }
    assert AllFaces[..6] == AllFaces;
    assert forall f :: AllFaces[FaceIndex(f)] == f;
    assert (set j | 0 <= j < 6 :: Normal(AllFaces[j])) == NormalKeys() by {
      forall k | k in NormalKeys() ensures k in (set j | 0 <= j < 6 :: Normal(AllFaces[j])) {
        var j := FaceIndex(k.face);
      }
    }
    forall k | k in acc ensures acc[k] == WithNormals(d, value)[k] {
      if k.Normal? {
        var j := FaceIndex(k.face);
      }
    }
  }

  /** Every label names a stored surface file. */
  predicate AllStored(d: map<Key, SurfaceSource>)
    requires HasAllLabels(d)
  {
    forall f :: d[Named(Label(f))].Stored?
  }

  /** Every label names a finish and a point-cloud file. */
  predicate AllMeasured(d: map<Key, SurfaceSource>)
    requires HasAllLabels(d)
  {
    forall f :: d[Named(Label(f))].Measured?
  }

  /** The error side `m` raises in the creating loop of `addSurfaceTrimeshes`
      (volume.py:127-129): an entry that is not a dictionary has no `keys`
      (AttributeError), an empty dictionary has no first key (IndexError), and a
      point-cloud file of fewer than two rows does not make a three-column frame
      (ValueError). */
  function SideFailure(m: SurfaceSource, readCloud: string -> seq<Vec3>): Option<Error> {
    match m
    case Measured(_, file) => if |readCloud(file)| <= 1 then Some(ValueError) else None
    case NoEntries => Some(IndexError)
    case _ => Some(AttributeError)
  }

  /** The error of the first failing side at label index `i` or later, the sides
      taken in label order. */
  function FirstFailureFrom(d: map<Key, SurfaceSource>, readCloud: string -> seq<Vec3>, i: nat): Option<Error>
    requires HasAllLabels(d)
    decreases |AllFaces| - i
  {
    if i >= |AllFaces| then None
    else
      var e := SideFailure(d[Named(Label(AllFaces[i]))], readCloud);
      if e.Some? then e else FirstFailureFrom(d, readCloud, i + 1)
  }

  function FirstFailure(d: map<Key, SurfaceSource>, readCloud: string -> seq<Vec3>): Option<Error>
    requires HasAllLabels(d)
  {
    FirstFailureFrom(d, readCloud, 0)
  }

  lemma {:induction false} NoFailureFrom(d: map<Key, SurfaceSource>, readCloud: string -> seq<Vec3>, i: nat)
    requires HasAllLabels(d) && i <= |AllFaces|
    ensures FirstFailureFrom(d, readCloud, i).None? <==>
      forall j :: i <= j < |AllFaces| ==> SideFailure(d[Named(Label(AllFaces[j]))], readCloud).None?
    decreases |AllFaces| - i
  {
    if i < |AllFaces| {
      NoFailureFrom(d, readCloud, i + 1);
    }
  }

  /** Sides that raise nothing do not change which side fails first. */
  lemma {:induction false} FailureAfter(d: map<Key, SurfaceSource>, readCloud: string -> seq<Vec3>, k: nat, i: nat)
    requires HasAllLabels(d) && k <= i <= |AllFaces|
    requires forall j :: k <= j < i ==> SideFailure(d[Named(Label(AllFaces[j]))], readCloud).None?
    ensures FirstFailureFrom(d, readCloud, k) == FirstFailureFrom(d, readCloud, i)
    decreases i - k
  {
    if k < i {
      FailureAfter(d, readCloud, k + 1, i);
    }
  }

  /** The creating loop raises nothing exactly when every label names a finish and
      a point-cloud file of at least two rows. */
  lemma NoFailure(d: map<Key, SurfaceSource>, readCloud: string -> seq<Vec3>)
    requires HasAllLabels(d)
    ensures FirstFailure(d, readCloud).None? <==>
      AllMeasured(d) && forall f :: |readCloud(d[Named(Label(f))].pointCloudFile)| > 1
  {
    NoFailureFrom(d, readCloud, 0);
    assert forall f :: AllFaces[FaceIndex(f)] == f;
  }

  /** What a surface built by `addSurfaceTrimeshes` from a measured point cloud holds:
      it faces `f`, has the given finish and the loaded cloud, a mesh, and the
      sampling area of that mesh. */
  predicate BuiltFrom(s: Surface, f: Face, finish: string, cloud: seq<Vec3>)
    reads s
  {
    && s.normalOrientation == f && s.surfaceFinish == finish
    && |cloud| > 1 && s.pointCloud == Some(Shifted(cloud, LoadShift(cloud)))
    && s.trimesh.Some? && s.samplingBounds == Some(SamplingArea(s.trimesh.value, f))
  }

  /** Side `f` of `acc` holds a surface built from the cloud its label names. */
  predicate BuiltSide(d: map<Key, SurfaceSource>, acc: map<Key, SurfaceSource>, readCloud: string -> seq<Vec3>, f: Face)
    requires HasAllLabels(d) && AllMeasured(d)
    reads set k | k in acc && acc[k].Built? :: acc[k].surface
  {
    var m := d[Named(Label(f))];
    && Normal(f) in acc && acc[Normal(f)].Built?
    && BuiltFrom(acc[Normal(f)].surface, f, m.finish, readCloud(m.pointCloudFile))
  }

  /** The dictionary `addSurfaceTrimeshes` leaves from measured clouds: the given
      entries, and under each normal the surface built for that side. */
  predicate BuiltAll(d: map<Key, SurfaceSource>, acc: map<Key, SurfaceSource>, readCloud: string -> seq<Vec3>)
    requires HasAllLabels(d) && AllMeasured(d)
    reads set k | k in acc && acc[k].Built? :: acc[k].surface
  {
    && acc.Keys == d.Keys + NormalKeys()
    && (forall k :: k in d && !k.Normal? ==> acc[k] == d[k])
    && forall f :: BuiltSide(d, acc, readCloud, f)
  }

  /** The dictionary with the six new surfaces, in label order, under the normals. */
  function WithBuilt(d: map<Key, SurfaceSource>, made: seq<Surface>): map<Key, SurfaceSource>
    requires |made| == |AllFaces|
  {
    WithNormals(d, f => Built(made[FaceIndex(f)]))
  }

  lemma WithBuiltFacts(d: map<Key, SurfaceSource>, readCloud: string -> seq<Vec3>, made: seq<Surface>)
    requires HasAllLabels(d) && AllMeasured(d) && |made| == |AllFaces|
    requires forall j :: 0 <= j < |AllFaces| ==>
      var m := d[Named(Label(AllFaces[j]))];
      BuiltFrom(made[j], AllFaces[j], m.finish, readCloud(m.pointCloudFile))
    ensures BuiltAll(d, WithBuilt(d, made), readCloud)
    ensures forall f :: WithBuilt(d, made)[Normal(f)] == Built(made[FaceIndex(f)])
  {
    assert forall f :: AllFaces[FaceIndex(f)] == f;
  }

  /** The outcome `r` of `addSurfaceTrimeshes` on `d` (volume.py:106-135) and, for
      stored surfaces, the surface dictionary `st` it leaves on the volume.
      ValueError unless all six labels are keys.  With `alreadyCreated` each label
      names a stored surface, loaded from `<file>.pkl` by `load` (any other entry
      fails to concatenate: TypeError).  Otherwise the sides are created in label
      order and the first one that fails raises its error. */
  predicate SurfacesAdded(d: map<Key, SurfaceSource>, alreadyCreated: bool, load: string -> Surface,
                          readCloud: string -> seq<Vec3>, r: Result<()>, st: Option<map<Key, SurfaceSource>>)
  {
    if !HasAllLabels(d) then r == Err(ValueError)
    else if alreadyCreated then
      if AllStored(d) then
        r.Ok? && st == Some(WithNormals(d, f requires Named(Label(f)) in d && d[Named(Label(f))].Stored?
                                             => Built(load(d[Named(Label(f))].fileName + ".pkl"))))
      else r == Err(TypeError)
    else if FirstFailure(d, readCloud).Some? then r == Err(FirstFailure(d, readCloud).value)
    else r.Ok?
  }

  class Volume {
    var name: string
    var material: Material
    /** Width and length in um. */
    var width: real
    var length: real
    /** The cuboid the tracker intersects rays with first. */
    var volumeTrimesh: Bounds
    var surfaceTrimeshes: Option<map<Key, SurfaceSource>>
    var touchingVolumes: Option<map<Key, string>>

    /** `volume.__init__` (volume.py:33-79). */
    constructor (name: string, material: Material, width: real, length: real, center: Vec3,
                 surfaceTrimeshes: Option<map<Key, SurfaceSource>> := None,
                 touchingVolumes: Option<map<Key, string>> := None)
      ensures this.name == name && this.material == material
      ensures this.width == Microns(width) && this.length == Microns(length)
      ensures volumeTrimesh == Cuboid(width, length, center)
      ensures this.surfaceTrimeshes == surfaceTrimeshes && this.touchingVolumes == touchingVolumes
    {
      this.name := name;
      this.material := material;
      this.width := Microns(width);
      this.length := Microns(length);
      volumeTrimesh := Cuboid(width, length, center);
      this.surfaceTrimeshes := surfaceTrimeshes;
      this.touchingVolumes := touchingVolumes;
    }

    /** `addTouchingVolumes` (volume.py:158-175): ValueError unless all six labels are
        keys; otherwise the name loaded from each label's file, `<file>.pkl`, is
        added under the matching normal. */
    method AddTouchingVolumes(d: map<Key, string>, load: string -> string) returns (r: Result<()>)
      modifies this
      ensures r.Err? <==> !HasAllLabels(d)
      ensures r.Err? ==> r.error == ValueError && touchingVolumes == old(touchingVolumes)
      ensures r.Ok? ==> touchingVolumes == Some(WithNormals(d, f requires Named(Label(f)) in d => load(d[Named(Label(f))] + ".pkl")))
      ensures name == old(name) && material == old(material) && width == old(width) && length == old(length)
      ensures volumeTrimesh == old(volumeTrimesh) && surfaceTrimeshes == old(surfaceTrimeshes)
    {
      if !HasAllLabels(d) {
        return Err(ValueError);
      }
      var acc := AddUnderNormals(d, f requires Named(Label(f)) in d => load(d[Named(Label(f))] + ".pkl"));
      touchingVolumes := Some(acc);
      r := Ok(());
    }

    /** `addSurfaceTrimeshes` (volume.py:106-135), with the outcome of
        `SurfacesAdded`; when the sides are created, each side's new surface is added
        under the side's normal. */
    method AddSurfaceTrimeshes(d: map<Key, SurfaceSource>, alreadyCreated: bool, load: string -> Surface,
                               readCloud: string -> seq<Vec3>, ops: MeshOps) returns (r: Result<()>)
      modifies this
      ensures SurfacesAdded(d, alreadyCreated, load, readCloud, r, surfaceTrimeshes)
      ensures r.Ok? && !alreadyCreated ==>
        && HasAllLabels(d) && AllMeasured(d) && surfaceTrimeshes.Some?
        && BuiltAll(d, surfaceTrimeshes.value, readCloud)
        && forall f :: Normal(f) in surfaceTrimeshes.value && surfaceTrimeshes.value[Normal(f)].Built? &&
                      fresh(surfaceTrimeshes.value[Normal(f)].surface)
      ensures r.Err? ==> surfaceTrimeshes == old(surfaceTrimeshes)
      ensures name == old(name) && material == old(material) && width == old(width) && length == old(length)
      ensures volumeTrimesh == old(volumeTrimesh) && touchingVolumes == old(touchingVolumes)
    {
      if !HasAllLabels(d) {
        return Err(ValueError);
      }
      if alreadyCreated {
        if !AllStored(d) {
          return Err(TypeError);
        }
        var acc := AddUnderNormals(d, f requires Named(Label(f)) in d && d[Named(Label(f))].Stored?
                                        => Built(load(d[Named(Label(f))].fileName + ".pkl")));
        surfaceTrimeshes := Some(acc);
        return Ok(());
      }
      var made := CreateSurfaces(d, readCloud, ops);
      if made.Err? {
        return Err(made.error);
      }
      surfaceTrimeshes := Some(made.value);
      r := Ok(());
    }
  }

  /** One side of the creating loop of `addSurfaceTrimeshes` (volume.py:127-132):
      the side's entry fails as `SideFailure` says; otherwise a new surface facing
      `f` loads the cloud the entry names, is triangulated and takes its default
      orientation. */
  method BuildSurface(f: Face, m: SurfaceSource, readCloud: string -> seq<Vec3>, ops: MeshOps)
    returns (r: Result<Surface>)
    ensures r.Err? <==> SideFailure(m, readCloud).Some?
    ensures r.Err? ==> r.error == SideFailure(m, readCloud).value
    ensures r.Ok? ==> m.Measured? && fresh(r.value) && BuiltFrom(r.value, f, m.finish, readCloud(m.pointCloudFile))
  {
    if !m.Measured? {
      return Err(SideFailure(m, readCloud).value);
    }
    var made := NewSurface(m.finish, Label(f));
    if made.Err? {
      assert false;
    }
    var s := made.value;
    LabelInjective(s.normalOrientation, f);
    var loaded := s.LoadPointCloud(readCloud(m.pointCloudFile));
    if loaded.Err? {
      return Err(ValueError);
    }
    var _ := s.CreateTriangularMesh(ops);
    var _ := s.ApplyDefaultOrientation(ops);
    r := Ok(s);
  }

  /** The dictionary of the created surfaces (volume.py:126-134): the first side
      that fails raises its error; otherwise every given entry, and under each
      side's normal the new surface of that side. */
  method CreateSurfaces(d: map<Key, SurfaceSource>, readCloud: string -> seq<Vec3>, ops: MeshOps)
    returns (r: Result<map<Key, SurfaceSource>>)
    requires HasAllLabels(d)
    ensures r.Err? <==> FirstFailure(d, readCloud).Some?
    ensures r.Err? ==> r.error == FirstFailure(d, readCloud).value
    ensures r.Ok? ==> AllMeasured(d) && BuiltAll(d, r.value, readCloud)
    ensures r.Ok? ==> forall f :: Normal(f) in r.value && r.value[Normal(f)].Built? && fresh(r.value[Normal(f)].surface)
  {
    var built := BuildSurfaces(d, readCloud, ops);
    if built.Err? {
      return Err(built.error);
    }
    WithBuiltFacts(d, readCloud, built.value);
    r := Ok(WithBuilt(d, built.value));
  }

  /** The first `|made|` sides raise nothing and `made` holds their new surfaces. */
  predicate BuiltPrefix(d: map<Key, SurfaceSource>, readCloud: string -> seq<Vec3>, made: seq<Surface>)
    requires HasAllLabels(d)
    reads set s | s in made
  {
    && |made| <= |AllFaces|
    && forall j :: 0 <= j < |made| ==>
         var m := d[Named(Label(AllFaces[j]))];
         && SideFailure(m, readCloud).None? && m.Measured?
         && BuiltFrom(made[j], AllFaces[j], m.finish, readCloud(m.pointCloudFile))
  }

  lemma ExtendPrefix(d: map<Key, SurfaceSource>, readCloud: string -> seq<Vec3>, made: seq<Surface>, s: Surface)
    requires HasAllLabels(d) && BuiltPrefix(d, readCloud, made) && |made| < |AllFaces|
    requires var m := d[Named(Label(AllFaces[|made|]))];
      && SideFailure(m, readCloud).None? && m.Measured?
      && BuiltFrom(s, AllFaces[|made|], m.finish, readCloud(m.pointCloudFile))
    ensures BuiltPrefix(d, readCloud, made + [s])
  {
    var n := made + [s];
    forall j | 0 <= j < |n|
      ensures var m := d[Named(Label(AllFaces[j]))];
        && SideFailure(m, readCloud).None? && m.Measured?
        && BuiltFrom(n[j], AllFaces[j], m.finish, readCloud(m.pointCloudFile))
    {
      if j < |made| {
        assert n[j] == made[j];
      }
    }
  }

  /** A prefix that covers every side: all sides are measured, raise nothing, and
      `made` holds one surface per side. */
  lemma PrefixComplete(d: map<Key, SurfaceSource>, readCloud: string -> seq<Vec3>, made: seq<Surface>)
    requires HasAllLabels(d) && BuiltPrefix(d, readCloud, made) && |made| == |AllFaces|
    ensures AllMeasured(d)
    ensures FirstFailure(d, readCloud).None?
    ensures forall j :: 0 <= j < |AllFaces| ==>
      var m := d[Named(Label(AllFaces[j]))];
      m.Measured? && BuiltFrom(made[j], AllFaces[j], m.finish, readCloud(m.pointCloudFile))
  {
    FailureAfter(d, readCloud, 0, |AllFaces|);
    forall f ensures d[Named(Label(f))].Measured? {
      assert AllFaces[FaceIndex(f)] == f;
    }
  }

  /** One round of the creating loop of `addSurfaceTrimeshes` (volume.py:127-132):
      side `|made|` either raises the first error of the whole loop or adds one new
      surface to the prefix. */
  method BuildNext(d: map<Key, SurfaceSource>, readCloud: string -> seq<Vec3>, ops: MeshOps, made: seq<Surface>)
    returns (r: Result<Surface>)
    requires HasAllLabels(d) && BuiltPrefix(d, readCloud, made) && |made| < |AllFaces|
    ensures r.Err? ==> FirstFailure(d, readCloud) == Some(r.error)
    ensures r.Ok? ==> fresh(r.value) && BuiltPrefix(d, readCloud, made + [r.value])
  {
    var f := AllFaces[|made|];
    var s := BuildSurface(f, d[Named(Label(f))], readCloud, ops);
    if s.Err? {
      FailureAfter(d, readCloud, 0, |made|);
      return Err(s.error);
    }
    ExtendPrefix(d, readCloud, made, s.value);
    r := s;
  }

  /** The creating loop of `addSurfaceTrimeshes` (volume.py:126-132) over the six
      sides in label order: the first side that fails raises its error; otherwise
      one new surface per side, built from the cloud its label names. */
  method BuildSurfaces(d: map<Key, SurfaceSource>, readCloud: string -> seq<Vec3>, ops: MeshOps)
    returns (r: Result<seq<Surface>>)
    requires HasAllLabels(d)
    ensures r.Err? <==> FirstFailure(d, readCloud).Some?
    ensures r.Err? ==> r.error == FirstFailure(d, readCloud).value
    ensures r.Ok? ==> AllMeasured(d) && |r.value| == |AllFaces|
    ensures r.Ok? ==> forall j :: 0 <= j < |AllFaces| ==>
      var m := d[Named(Label(AllFaces[j]))];
      m.Measured? && fresh(r.value[j]) && BuiltFrom(r.value[j], AllFaces[j], m.finish, readCloud(m.pointCloudFile))
  {
    var made: seq<Surface> := [];
    for i := 0 to |AllFaces|
      invariant |made| == i
      invariant BuiltPrefix(d, readCloud, made)
      invariant forall j :: 0 <= j < i ==> fresh(made[j])
    {
      var s := BuildNext(d, readCloud, ops, made);
      if s.Err? {
        return Err(s.error);
      }
      made := made + [s.value];
    }
    PrefixComplete(d, readCloud, made);
    r := Ok(made);
  }
}
