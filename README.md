# OPTransInTopoScintPillars: optical photon tracking, modelled in Dafny

OPTransInTopoScintPillars is a Monte-Carlo tracker for scintillation photons in a geometry made of
cuboid volumes: a scintillator pillar, optical grease, photodetectors, a Teflon reflector and the
enclosing air. Any side of a volume may carry a triangulated surface mesh that models the measured
roughness of that side. A photon flies from boundary to boundary. At each boundary it is reflected,
refracted or totally internally reflected according to Snell's law and the Fresnel equations. At the
reflector it is reflected into a Lambertian or a specular-lobe direction, or transmitted. Its weight
is attenuated along its path. Every step appends one row to the photon's tracking history. The photon
dies when no boundary is left ahead, when its weight is below 1e-4, when it reaches a photodetector,
or when it is trapped on a rough surface.

The project models these pieces:

- `RealMath` (realmath.dfy): vectors, the six axis-aligned faces and their labels, and the square root
  and trigonometry the source calls, given as a `MathLib` value whose `Valid()` states their ranges.
- `Wrappers` (wrappers.dfy): `Option`, and `Result` with the Python exception raised.
- `OpticalPhoton` (photon.dfy): the photon, a class whose fields the tracker updates in place.
- `Materials` (materials.py): the materials library class, `addMeterial`/`deleteMeterial`, the emission
  spectrum conversion and normalisation, and the interpolated specular-lobe sigma table of Teflon.
- `SurfaceModel` (surface.py): the surface class. Its point cloud, triangle mesh, crop window, sampling
  bounds and rotation angle are fields that the methods reassign.
- `VolumeModel` (volume.py): the volume class, its cuboid, and its surface and touching-volume
  dictionaries.
- `GeometryModel` and `GeometryChecks` (geometry.py): the geometry class, `createGeometry`,
  `addVolume`, `addSurfaceTrimeshes`, `checkGeometry` and `identifyTouchingVolumes` as methods with
  loops. Each method is proved equal to a specification function, and the scan results are stated as
  lemmas about that function.
- `HitSelection` and `Intersector` (tracker.py:26-318, 796-832): the record arrays of ray hits and the
  numpy selections on them, `getVolumeTrimeshIntersection`, the surface-mesh hit filter, the point
  sampling and the mesh shift.
- `Optics` (tracker.py:392-689, 836-987): incidence and transmission angles, Fresnel reflectance,
  reflection, refraction, the Lambertian flip, the local-surface and reflector interactions, travel
  time and attenuation.
- `TrackingHistory` and `Tracker` (tracker.py:693-1297): the history rows, `updatePhotonInfo`,
  `prepareSurfaceTrimesh`, `trackOverSurfaceTrimesh` and `trackPhoton`.

These parts of the system are given to the model as parameters:

- Random numbers are a draw stream `rng: nat -> Draw` read at a cursor. Each draw carries two
  uniforms, a Lambertian candidate direction and a specular-lobe direction.
- The ray queries of trimesh are functions of a read-only `World` snapshot of the geometry
  (`volumeHits`, `surfaceHits`).
- Open3d's Poisson meshing, cropping and rotation are the function fields of `MeshOps`.
- File reads are functions from file name to contents.

Where the code and its documentation differ, the model follows the code, with one exception: the
emission spectrum of `addMeterial` follows the corrected reading of the first row of "## Findings":

- `loadPointCloud` subtracts half the range of x and y rather than the middle of the range. The
  cloud is therefore centred only when its minimum is 0 (see `SurfaceModel.LoadedCloudLateral`).
- A comparison that numpy evaluates on an array of several elements raises `ValueError`. This
  happens when two hits tie for nearest in `checkGeometry`, and when two hits tie in
  `getVolumeTrimeshIntersection` after the tie-breaking deletions.
- `getVolumeTrimeshIntersection` flips the normal only when the next volume is the photon's own
  volume.
- `addTouchingVolumes` stores the result of loading `<name>.pkl` for each side, as the code does.
- `cropTriangulatedArea` is documented to move the cropped mesh's centre to the origin
  (surface.py:362), but `apply_translation` adds the window's midpoint (surface.py:354-363). A
  window centred at c therefore ends up centred at 2c; only a window already centred at 0 stays
  there (see `SurfaceModel.CropShift`).

## Model

| member | source | states |
|---|---|---|
| RealMath.Opposite | src/tracker.py:69 | the opposite face has the negated normal and is a different face |
| RealMath.NormalAxis | src/surface.py:307 | the axis where the face normal is ±1; the normal is 0 on the other two axes |
| RealMath.LateralAxes | src/tracker.py:217 | the two axes, in ascending order, where the face normal is 0; neither is the normal axis |
| RealMath.LabelInjective | src/surface.py:75-81 | distinct faces have distinct labels '-x' … '+z' |
| RealMath.FaceOfNormal | src/tracker.py:753-759 | the orientation dictionary: a face is found exactly when the vector is one of the six normals, and its normal is that vector |
| RealMath.FaceNormalIsUnit | src/tracker.py:753-759 | every face normal is a unit vector |
| RealMath.InwardIsDot | src/tracker.py:741 | `dot(newMomentumDir, -normal)` of a face equals the signed inward component of the direction |
| RealMath.Normalize | src/tracker.py:545 | dividing a non-zero vector by its norm gives a unit vector |
| RealMath.NormalizeUnit | src/tracker.py:594 | renormalising a unit vector leaves it unchanged |
| RealMath.Clip | src/tracker.py:736 | `np.clip` to [−1, 1], the identity inside |
| OpticalPhoton.Photon.constructor | src/opticalPhoton.py:25-73 | every argument is stored in its field as passed |
| OpticalPhoton.NewPhoton | src/opticalPhoton.py:23-26 | a photon built from the four required arguments has time 0, distance 0, weight 1, volume 'pillar' and is alive |
| Materials.Assigned | src/materials.py:217-234 | a pandas column assignment: ValueError exactly when an array of another length than the row count goes to a frame with rows; an array given to an empty frame sets the row count and re-indexes the other columns to NaN; `None` fills the column with None; the other columns are kept |
| Materials.Inverse | src/materials.py:221-223 | `1240.0 / x`: a value whose product with x is 1240 (eV × nm), infinite for x = 0 |
| Materials.Converted | src/materials.py:221-223 | the array converted element by element, with its length kept |
| Materials.ConvertedRoundTrip | src/materials.py:221-223 | converting a non-zero energy to a wavelength and back gives the energy again |
| Materials.Normalized | src/materials.py:230-232 | same length; for a non-zero sum each amplitude divided by the sum, and the results sum to 1; for a zero sum only infinite or NaN cells |
| Materials.SumDivided | src/materials.py:232 | dividing every element by s divides the sum by s |
| Materials.ColumnsFilled | src/materials.py:216-227 | both arrays: ValueError exactly when the energies are non-empty and the wavelengths have another length, else both stored; one array: it is stored and the other column is its 1240/x conversion; none: the empty frame |
| Materials.AmplitudeFilled | src/materials.py:229-234 | ValueError exactly when the amplitude length differs from the row count of a frame with rows; otherwise the amplitude column is the normalised array or None, and the energy and wavelength columns are kept or re-indexed to NaN |
| Materials.Filling | src/materials.py:216-234 | a spectrum that is built has one cell per row in every column |
| Materials.ShortLists | src/materials.py:216-234 | the row count and the length clash of none, one or two given arrays |
| Materials.ThreeLists | src/materials.py:216-234 | the row count and the length clash of three given arrays |
| Materials.SpectrumFromArrays | src/materials.py:216-234 | ValueError exactly when a given array is non-empty and a later one has another length (pandas); otherwise the row count is that of the first non-empty array; a given energy or wavelength array is stored and a missing one is its 1240/x conversion, with a zero giving an infinite value; with neither given both columns are NaN; the amplitude is the normalised array when given, else None |
| Materials.ArrayTruth | src/materials.py:216-229 | Python's truth value of an optional numpy 1.x array: ValueError exactly for more than one element, true exactly for one non-zero element |
| Materials.SpectrumAsWrittenRefusesTables | src/materials.py:216 | the truth test `if energies and wavelengths` raises ValueError on a two-element energy array, where the intended behaviour derives the wavelengths |
| Materials.SingletonsFill | src/materials.py:216-234 | arrays of one element each never clash and make a frame of one row |
| Materials.SpectrumAsWrittenAgreesOnSingletons | src/materials.py:216-234 | on arrays of one element each, the code as written is the intended behaviour applied to the arrays it finds true (a zero element counts as not given), so the two agree when no element is zero |
| Materials.SpectrumAsWrittenDropsZero | src/materials.py:216-227 | as written, `np.array([0.0])` of energies is false and yields the empty frame; the intended reading stores the energy 0 and an infinite wavelength |
| Materials.BuildMaterials | src/materials.py:61-80 | the library holds exactly EJ-204, EJ-550, Air, SensLGlass and Teflon, each under its own name, each with a positive refractive index and attenuation length, and only Teflon with reflector optics |
| Materials.SigmaColumn | src/materials.py:519-524 | the interpolated sigma column has one entry per whole degree from 0 to 90 |
| Materials.SigmaAtKnots | src/materials.py:515-523 | at the seven tabulated angles the column takes the tabulated sigmas |
| Materials.SigmaLinearBetweenKnots | src/materials.py:519-523 | between two tabulated angles the column steps by the slope of that segment (linear interpolation) |
| Materials.InterpolatedRange | src/materials.py:515-523 | the interpolant stays between the smallest and largest tabulated sigma on 0-90 degrees |
| Materials.SigmaDecreasing | src/materials.py:515-523 | the sigma column strictly decreases with the angle and stays within 2.52-32.07 |
| Materials.NewMaterial | src/materials.py:188-236 | ValueError exactly when the name, refractive index or attenuation length is missing, or when all six scalars are present and the spectrum arrays clash in length; TypeError exactly when those three are present but the light yield, rise time or fall time is missing; otherwise a material holding the given values and no reflector optics, whose spectrum is the corrected reading SpectrumFromArrays (the code as written raises ValueError at line 216 for arrays of two or more elements) |
| Materials.AddFacts | src/materials.py:183-239 | AttributeError exactly when there is no library; on success the new material is stored under its name and every other entry is unchanged |
| Materials.DeleteFacts | src/materials.py:270-278 | deletion succeeds exactly when the library exists and holds the name; it then removes that key and changes nothing else |
| Materials.AddThenDelete | src/materials.py:239 | deleting a name just added to a library that lacked it gives the original library back |
| Materials.MaterialsLibrary.constructor | src/materials.py:29-59 | the first build stores BuildMaterials, otherwise the loaded library |
| Materials.MaterialsLibrary.SaveMaterialsLibrary | src/materials.py:86-110 | AttributeError exactly when no library has been built or loaded |
| Materials.MaterialsLibrary.LoadMaterialsLibrary | src/materials.py:117-130 | the library becomes the loaded one |
| Materials.MaterialsLibrary.AddMeterial | src/materials.py:138-246 | succeeds and fails as AddedToLibrary does (AttributeError without a library, then NewMaterial's errors, the spectrum's length clash included), with the corrected spectrum of NewMaterial, and the library becomes its result or stays as it was |
| Materials.MaterialsLibrary.DeleteMeterial | src/materials.py:249-285 | succeeds and fails as DeletedFromLibrary does, and the library becomes its result or stays as it was |
| SurfaceModel.OrientationOf | src/surface.py:75-85 | a label maps to the face that has it; any other label raises ValueError |
| SurfaceModel.RotationFor | src/surface.py:201-206 | no rotation exactly for '+z'; for every other face except '-z' the rotation axis is not the face's normal axis |
| SurfaceModel.QuarterTurn | src/surface.py:398-418 | the exact cosine and sine of 90, −90, 180 and 0 degrees, the angles of the rotation table, with cos² + sin² = 1 |
| SurfaceModel.DefaultRotationFacesNormal | src/surface.py:196-206 | the default rotation turns the mesh's +z normal onto the surface's own normal, for each of the six orientations |
| SurfaceModel.FeatureRotationKeepsNormal | src/surface.py:283-308 | rotating about the normal's own axis keeps the normal |
| SurfaceModel.Inset | src/surface.py:214-217 | trimming 2.5% of the extent from each end keeps the middle, spans 95% of the extent and lies inside it |
| SurfaceModel.PlaneNormals | src/surface.py:358 | each slicing-plane normal is minus the sign of its origin, axis by axis |
| SurfaceModel.CropPlanesKeepLimits | src/surface.py:342-361 | for a window around 0 the four slicing planes keep a point exactly when its lateral coordinates lie within the limits |
| SurfaceModel.CropPlanesOffCentre | src/surface.py:348-361 | for a window whose lower limit is positive, the plane at that limit cuts away the middle of the window |
| SurfaceModel.CropShift | src/surface.py:354-356 | the shift vector holds the window's lateral midpoint on each lateral axis and 0 on the normal axis |
| SurfaceModel.SamplingAreaShape | src/surface.py:366-371 | the sampling bounds are 0 on the normal axis and the 95% inset of the mesh bounds on each lateral axis |
| SurfaceModel.SamplingAreaInsideMesh | src/surface.py:366-371 | on each lateral axis the sampling bounds lie inside the mesh bounds, span 95% of the extent and share its middle |
| SurfaceModel.CropLimitsAreSamplingArea | src/surface.py:212-217 | the crop window applyDefaultOrientation passes on is the sampling area of the mesh |
| SurfaceModel.MaxAlong | src/surface.py:108 | `np.max` along an axis: no point exceeds it and some point attains it |
| SurfaceModel.MinAlong | src/surface.py:108 | `np.min` along an axis: no point is below it and some point attains it |
| SurfaceModel.Shifted | src/surface.py:108-111 | each point less the shift vector, in order |
| SurfaceModel.ShiftedExtremes | src/surface.py:108-109 | shifting moves the maximum and the minimum along an axis by the shift |
| SurfaceModel.ShiftedSum | src/surface.py:111 | shifting moves the sum along an axis by the count times the shift |
| SurfaceModel.LoadedCloudLateral | src/surface.py:108-109 | the loaded cloud keeps its lateral range and is centred on 0 exactly when its minimum was 0 |
| SurfaceModel.LoadedCloudLevel | src/surface.py:111 | the loaded cloud's heights sum to 0 (mean subtracted) |
| SurfaceModel.KeptPoints | src/surface.py:262-267 | the cropped cloud holds exactly the points whose x and y lie strictly inside the two limit pairs |
| SurfaceModel.Surface.constructor | src/surface.py:46-85 | stores the finish and normal; no cloud, mesh, bounds or angle yet |
| SurfaceModel.Surface.LoadPointCloud | src/surface.py:89-113 | a file of fewer than two rows raises ValueError (np.loadtxt flattens one row, which does not fill the three-column frame) and leaves the cloud as it was; otherwise the cloud becomes the file rows shifted by the load shift; nothing else changes |
| SurfaceModel.Surface.CreateTriangularMesh | src/surface.py:117-173 | AttributeError exactly without a cloud; otherwise the mesh is the Poisson mesh of the cloud and the parameters are recorded |
| SurfaceModel.Surface.RotateArea | src/surface.py:381-426 | AttributeError exactly without a mesh; otherwise the mesh is rotated and the angle recorded |
| SurfaceModel.Surface.CropTriangulatedArea | src/surface.py:318-377 | AttributeError exactly without a mesh; otherwise the mesh is sliced by the four planes and translated by the CropShift vector, and the sampling bounds are those of the new mesh |
| SurfaceModel.Surface.ApplyDefaultOrientation | src/surface.py:177-225 | AttributeError exactly without a mesh; otherwise the mesh is rotated for its orientation and cropped to its sampling area |
| SurfaceModel.Surface.CropPointCloudAndReTriangulate | src/surface.py:229-279 | AttributeError without a cloud; otherwise the cloud is cropped when limits are given and the mesh is rebuilt with the given or default parameters |
| SurfaceModel.Surface.RotateSurfaceFeatures | src/surface.py:283-314 | the mesh is rotated about the axis of its own normal |
| SurfaceModel.NewSurface | src/surface.py:46-85 | ValueError exactly for an invalid label; otherwise a fresh surface facing the labelled normal |
| VolumeModel.Box | src/volume.py:77 | the box has the given centroid and extents |
| VolumeModel.Cuboid | src/volume.py:72-77 | the volume's cuboid is centred at the centre in um and measures width × width × length in um |
| VolumeModel.WithNormals | src/volume.py:121-122 | every normal key gets its value, the other keys are kept, and the keys are the old ones plus the six normals |
| VolumeModel.AddUnderNormals | src/volume.py:171-172 | the loop over the six sides builds WithNormals |
| VolumeModel.Volume.constructor | src/volume.py:33-79 | stores name and material, width and length in um, the cuboid, and both dictionaries as passed |
| VolumeModel.Volume.AddTouchingVolumes | src/volume.py:139-175 | ValueError exactly when a side label is missing; otherwise each normal key maps to the loaded file of its side |
| VolumeModel.Volume.AddSurfaceTrimeshes | src/volume.py:83-135 | ValueError for a missing side label; when already created, loads every side's stored surface (TypeError if a side is not a stored file name); otherwise builds a fresh surface per side, the sides taken in label order and the first failing side raising its error (AttributeError for an entry that is not a dictionary, IndexError for an empty one, ValueError for a cloud of fewer than two rows); a failure leaves the volume's dictionary unchanged; no other field changes |
| VolumeModel.BuildSurface | src/volume.py:127-132 | fails exactly as SideFailure says (AttributeError, IndexError, or ValueError for a cloud of fewer than two rows); otherwise a fresh surface of that finish and face, built from the cloud |
| VolumeModel.BuildSurfaces | src/volume.py:126-133 | fails exactly when some side fails, with the error of the first failing side in label order; otherwise six fresh surfaces, one per face in label order, each built from its side's cloud |
| VolumeModel.BuildNext | src/volume.py:127-132 | one round of the loop: side `|made|` raises the first error of the whole loop, or adds a fresh surface that extends the built prefix |
| VolumeModel.CreateSurfaces | src/volume.py:126-133 | the error of the first failing side, or the dictionary holding the given entries and, under each normal, a fresh surface built from that side's cloud |
| VolumeModel.NoFailure | src/volume.py:126-132 | the creating loop raises nothing exactly when every side names a finish and a point-cloud file of at least two rows |
| VolumeModel.NoFailureFrom | src/volume.py:126-132 | no side from index i on fails exactly when each of those sides raises nothing |
| VolumeModel.FailureAfter | src/volume.py:126-132 | sides that raise nothing do not change which side fails first |
| GeometryChecks.ScanRows | src/geometry.py:268-272 | one record per hit, carrying the volume name, point, face and distance from the ray origin |
| GeometryChecks.DirectionRows | src/geometry.py:255-272 | no record comes from the current volume or a skipped volume |
| GeometryChecks.DirectionContactMeaning | src/geometry.py:273-286 | no hit: no contact; a tie for nearest raises ValueError; otherwise overlap, gap or flush as the nearest distance is below, above or equal to half the extent |
| GeometryChecks.Contacts | src/geometry.py:251-286 | one contact result per ray direction, in the source's direction order |
| GeometryChecks.Tally | src/geometry.py:245-286 | a failing tally carries the error of some failing direction |
| GeometryChecks.TallyFacts | src/geometry.py:245-286 | the tally succeeds exactly when no direction fails, and it is 0 exactly when every direction is flush or empty |
| GeometryChecks.NoIssues | src/geometry.py:245-289 | a volume has no issue exactly when each of its six directions is clean |
| GeometryChecks.IssuesRecord | src/geometry.py:237-292 | only volumes with a positive issue count are recorded |
| GeometryChecks.IssuesRecordFacts | src/geometry.py:237-295 | the record is built exactly when no checked volume fails; it is empty exactly when every checked volume has 0 issues; a failure carries a volume's error |
| GeometryChecks.VolumeIssues | src/geometry.py:240-292 | the issue count of every volume, in dictionary order |
| GeometryChecks.GeometryCheckFails | src/geometry.py:295-297 | a failing check raises ValueError |
| GeometryChecks.GeometryCheckPasses | src/geometry.py:211-299 | the check passes exactly when every volume other than the environment and reflector is clean in all six directions |
| GeometryChecks.NeighbourMeaning | src/geometry.py:359-375 | no hit gives 'environment'; a unique nearest hit gives its volume; a tie drops the reflector and then needs a unique nearest or raises ValueError |
| GeometryChecks.NeighbourIsUniqueNearest | src/geometry.py:361-373 | without a tie the neighbour is the volume of the strictly nearest hit |
| GeometryChecks.Touching | src/geometry.py:337-378 | the dictionary is built exactly when no direction fails, and its keys are the normals of the directions |
| GeometryChecks.TouchingSixSides | src/geometry.py:316-376 | the six-direction dictionary has exactly the six normal keys, each holding its direction's neighbour |
| GeometryChecks.TouchingCoversAllSides | src/geometry.py:331-378 | a volume's touching dictionary exists exactly when all six neighbours resolve; it holds each side's neighbour; failures are ValueError |
| GeometryChecks.OpenSideTouchesEnvironment | src/geometry.py:374-375 | a side whose ray hits nothing touches 'environment' |
| GeometryModel.GatherRows | src/geometry.py:253-272 | the intersection loop builds exactly DirectionRows |
| GeometryModel.ContactOf | src/geometry.py:251-286 | one direction's scan computes RayContact |
| GeometryModel.CountIssues | src/geometry.py:245-286 | the loop over the six directions computes the volume's issue count |
| GeometryModel.CheckPlacement | src/geometry.py:237-299 | the loop over the volumes computes GeometryCheck |
| GeometryModel.NeighbourOf | src/geometry.py:337-375 | one direction's scan computes its neighbour |
| GeometryModel.IdentifyFor | src/geometry.py:331-376 | the loop over the six directions computes the volume's touching dictionary |
| GeometryModel.FirstTouchingFailure | src/geometry.py:325-378 | the first checked volume whose dictionary fails; every checked volume before it succeeds |
| GeometryModel.OutcomeAt | src/geometry.py:325-328 | the environment and reflector are skipped; the other volumes get their touching dictionary |
| GeometryModel.ConfigError | src/geometry.py:121-131 | the intended guard raises ValueError exactly for an incomplete config; the guard as written raises it exactly when 'center' is missing; no error means the config can be built |
| GeometryModel.FirstBadConfig | src/geometry.py:121-131 | the first config that raises; every earlier one is built |
| GeometryModel.GuardAsWrittenMissesWidth | src/geometry.py:122 | a config without 'width' passes the guard as written and then raises KeyError, while the intended guard rejects it with ValueError |
| GeometryModel.Created | src/geometry.py:126-131 | a built volume holds the config's name and surfaces and no touching volumes yet |
| GeometryModel.MadeKeys | src/geometry.py:126 | the volumes created from the configs are keyed by exactly the config names |
| GeometryModel.MadeLast | src/geometry.py:126 | the last config of a name decides the stored volume |
| GeometryModel.InsertedFacts | src/geometry.py:126 | dictionary order: existing names keep their place, new names come after them in first-seen order, and no name appears twice |
| GeometryModel.Geometry.constructor | src/geometry.py:49-52 | an empty geometry |
| GeometryModel.Geometry.AddVolume | src/geometry.py:142-170 | stores a fresh volume under its name, appends an unseen name to the order, and leaves every other volume unchanged |
| GeometryModel.Geometry.AddSurfaceTrimeshes | src/geometry.py:174-207 | ValueError for an unknown volume; otherwise the volume's own addSurfaceTrimeshes contract, with the volume's name, material, width, length, cuboid and touching dictionary unchanged |
| GeometryModel.Geometry.CheckGeometry | src/geometry.py:211-299 | the result is GeometryCheck of the current placement |
| GeometryModel.Geometry.AddConfigured | src/geometry.py:120-132 | builds the configs up to the first bad one, which raises its ConfigError; the others are created in dictionary order |
| GeometryModel.Geometry.CreateGeometryAsWritten | src/geometry.py:101-134 | as written, createGeometry always fails: ConfigError of the first config the guard rejects, or AttributeError at the missing checkOverlaps; the configs before it are stored, each new volume holding what Made gives and every other volume the same object as before |
| GeometryModel.Geometry.CreateGeometry | src/geometry.py:101-138 | corrected: the configs before the first bad one are stored in dictionary order, each new volume holding what Made gives and no touching dictionary, every other volume the same object with the same contents; a bad config raises its ConfigError and leaves the touching dictionaries at that point; otherwise the result is Finished, a failing check keeps those dictionaries, and a passing one leaves Touched of them |
| GeometryModel.Geometry.StoreEntries | src/geometry.py:120-131 | the entries under the intended guard: the stored volumes and their order as above, with the touching dictionaries left (None under a new name, the old one otherwise) |
| GeometryModel.Geometry.Complete | src/geometry.py:133-136 | the check and the touching volumes change neither the dictionary nor any volume's contents other than its touching dictionary; the result is Finished |
| GeometryModel.MadeUntouched | src/geometry.py:126-131 | a volume made from a config has no touching dictionary yet |
| GeometryModel.Geometry.Finish | src/geometry.py:133-136 | the result is Finished; a failing check changes no touching dictionary; a passing one leaves Touched: the dictionaries up to the first checked volume that fails, the rest as they were |
| GeometryModel.Geometry.AddEntry | src/geometry.py:126-131 | one configured volume is stored under its name and placed in dictionary order |
| GeometryModel.Geometry.SetTouching | src/geometry.py:378 | only the current volume's touching dictionary changes |
| GeometryModel.Geometry.IdentifyTouchingVolumes | src/geometry.py:303-380 | succeeds exactly when no checked volume fails, with ValueError otherwise; the volumes before the failure get their dictionaries, the rest keep theirs |
| HitSelection.MinDist | src/tracker.py:122 | `distances[np.argmin(distances)]`: no distance is smaller, some row attains it |
| HitSelection.IndicesAt | src/tracker.py:122 | `np.where(distances == d)`: exactly the rows at distance d, in ascending order |
| HitSelection.ClosestFacts | src/tracker.py:121-122 | the tie set is non-empty, holds exactly the nearest rows, and starts with the first nearest row |
| HitSelection.ClosestTie | src/tracker.py:122-124 | the tie set has several rows exactly when two rows share the minimum distance |
| HitSelection.WithoutVolumes | src/tracker.py:125-126 | `np.delete` of the rows of the named volumes: the rows KeptRows lists, in their original order and with their multiplicity; a row survives exactly when its volume is not named |
| HitSelection.KeptRows | src/tracker.py:125-126 | the kept row indices are strictly ascending, each names a row of another volume, and every such row is listed |
| HitSelection.WithoutRow | src/tracker.py:165 | `np.delete` of one row keeps the others in order |
| HitSelection.CountVolume | src/tracker.py:163 | the count of a volume's rows is 0 exactly when no row has that volume |
| HitSelection.CountOne | src/tracker.py:163 | a volume counted once has no other row |
| Intersector.FirstFarthest | src/tracker.py:62-63 | `np.argmax`: the first row at the largest distance |
| Intersector.OrdinaryCrossing | src/tracker.py:53-69 | inside a volume: no hit gives no crossing; otherwise the farthest hit with the flipped face and the touching volume of that side; TypeError without touching volumes, KeyError for a missing side |
| Intersector.CollectedRowsAreHits | src/tracker.py:74-110 | every collected record is a hit of its volume's scan, at that hit's distance |
| Intersector.SingleRowNoCrossing | src/tracker.py:113-116 | a single record means no crossing |
| Intersector.TieRule | src/tracker.py:121-126 | on a tie for nearest, exactly the pillar and reflector records are dropped; otherwise nothing is |
| Intersector.LoneForeignRule | src/tracker.py:157-165 | the nearest record is dropped exactly when its volume is not the photon's and has no other record |
| Intersector.SelectedIsNearestSurvivor | src/tracker.py:167-184 | the crossing is the first nearest surviving record, its face flipped when the next volume is the photon's own, and it comes from an original hit |
| Intersector.SelectionOutcomes | src/tracker.py:113-184 | the selection only raises ValueError, and after a tie the next volume is never the pillar or the reflector |
| Intersector.GetVolumeTrimeshIntersection | src/tracker.py:26-186 | inside a volume: the ordinary crossing (KeyError for an unknown volume); in the environment or reflector: the selection over all volumes' hits |
| Intersector.TrueNearest | src/tracker.py:301-313 | no index exactly when every hit is within 1e-9 of the origin; otherwise the first nearest hit beyond it |
| Intersector.SurfaceIntersection | src/tracker.py:275-318 | no hit exactly when every hit is at the origin; otherwise the first nearest true hit |
| Intersector.UniformInRange | src/tracker.py:220-221 | `np.random.uniform(lo, hi)` stays in [lo, hi) |
| Intersector.SampleSurfacePoint | src/tracker.py:190-227 | the sampled point is 0 on the normal axis and within the sampling bounds on the lateral axes |
| Intersector.ShiftVector | src/tracker.py:255-266 | laterally the crossing point less the sample, on the normal axis the crossing point's coordinate |
| Intersector.ShiftPlacesSampleOnCrossing | src/tracker.py:231-271 | the shifted mesh puts the sampled point on the volume crossing point |
| Intersector.PointIsWithinVolumeBounds | src/tracker.py:796-832 | the point is inside exactly when both lateral coordinates are strictly within the cuboid's bounds |
| Optics.CosIncidence | src/tracker.py:392-421 | ValueError exactly when the direction has a positive component along the normal; otherwise the negated dot product, which is non-negative |
| Optics.SinTransmission | src/tracker.py:425-462 | None exactly past the critical angle (Snell sine above 1); ValueError exactly when the Snell sine is negative; otherwise a sine in [0, 1] satisfying n2·sinT = n1·sinI |
| Optics.SinTransmissionNeverFails | src/tracker.py:448-462 | for positive indices and a cosine in [0, 1] the ValueError branch is unreachable |
| Optics.ReflectionProbability | src/tracker.py:466-512 | ValueError exactly when the Fresnel reflectance exceeds 1; otherwise the reflectance, in [0, 1] |
| Optics.FresnelBound | src/tracker.py:495-502 | the mean of the squared s and p amplitude ratios is in [0, 1] for positive indices, non-negative cosines and non-zero denominators |
| Optics.CosTransmissionInRange | src/tracker.py:492 | the transmission cosine is non-negative and cos² = 1 − sin² |
| Optics.ReflectanceAtMostOne | src/tracker.py:505-512 | for physical inputs the reflectance is in [0, 1], so the ValueError is unreachable |
| Optics.ReflectanceBound | src/tracker.py:492-502 | the reflectance is in [0, 1] whenever the cosines are non-negative |
| Optics.NormalIncidenceReflectance | src/tracker.py:492-502 | at normal incidence the reflectance is ((n1 − n2)/(n1 + n2))² |
| Optics.ReflectedRawProperties | src/tracker.py:542-543 | mirror reflection negates the normal component and keeps the length |
| Optics.DoReflection | src/tracker.py:516-550 | a unit reflected direction with the polarisation kept; for unit inputs it is the mirror image |
| Optics.TransmittedRawProperties | src/tracker.py:588-594 | the refracted vector is a unit vector whose normal component is −cosT (Snell's law) |
| Optics.DoTransmission | src/tracker.py:554-599 | a unit refracted direction with the polarisation kept |
| Optics.LambertianDirection | src/tracker.py:645-649 | the candidate is flipped to the normal's side and stays a unit vector |
| Optics.FacingNormal | src/tracker.py:869-871 | the local normal is turned to face against the photon |
| Optics.FacingNormalFacts | src/tracker.py:869-874 | the turned normal is a unit vector and the incidence cosine is in [0, 1] |
| Optics.InteractWithLocalSurface | src/tracker.py:836-908 | TIR exactly past the critical angle; otherwise reflection exactly when the draw is below the reflectance, else transmission; the direction is the mirror or refracted vector and the polarisation is kept |
| Optics.LocalSurfaceDirection | src/tracker.py:836-908 | the new direction is a unit vector leaving on the reflected side, or crossing the surface with normal component −cosT |
| Optics.LocalFresnelDefined | src/tracker.py:495-499 | away from grazing incidence between equal indices the Fresnel denominators are non-zero |
| Optics.LocalSurfaceNeverRaises | src/tracker.py:869-879 | after the flip neither the incidence nor the transmission computation raises |
| Optics.InteractWithReflector | src/tracker.py:912-987 | ValueError exactly for a direction leaving the reflector; reflection exactly when the draw is below the reflectivity, Lambertian or lobe by the second draw against the fitted fraction at the arccos of the clipped cosine (tracker.py:947); transmission keeps the direction |
| Optics.TraveledDistanceAndTime | src/tracker.py:661-689 | the distance is the norm of the displacement and the time is distance over the speed c/n |
| Optics.AttenuationFactor | src/tracker.py:768 | the attenuation factor for a non-negative distance is in (0, 1] |
| Optics.Attenuate | src/tracker.py:768 | attenuation keeps a non-negative weight non-negative, keeps a positive weight positive, and never increases it |
| TrackingHistory.EmissionStarts | src/tracker.py:1177-1194 | the emission row alone is a chained history that records the photon it was made from |
| TrackingHistory.ChainedAppend | src/tracker.py:771-790 | appending a row that continues the last keeps the history chained |
| TrackingHistory.AppendNext | src/tracker.py:746-790 | the row updatePhotonInfo appends keeps the history chained and records the updated photon |
| TrackingHistory.ChainedFacts | src/tracker.py:747-751 | in a chained history row i is step i of the same photon, only row 0 is an emission, the relative time is the absolute time less the emission time, and the weights never grow |
| Tracker.ScansOf | src/tracker.py:77-80 | one scan per volume, in dictionary order, holding that volume's ray hits |
| Tracker.StartHistory | src/tracker.py:1177-1194 | the history starts with the emission row, which records the photon |
| Tracker.UpdatePhotonInfo | src/tracker.py:693-792 | moves the photon, sets its directions, advances time and distance, attenuates its weight, and keeps the history recording it |
| Tracker.TryDraw | src/tracker.py:369-377 | an attempt misses exactly when every hit of the shifted mesh is at the photon's origin |
| Tracker.PreparedFacts | src/tracker.py:366-386 | the attempt comes from the last draw used; every earlier draw missed; a miss uses up all 21 draws |
| Tracker.PrepareSurfaceTrimesh | src/tracker.py:322-388 | the resampling loop computes Prepared from the first draw |
| Tracker.LocalInteraction | src/tracker.py:1053-1075 | KeyError exactly when either volume is unknown; ZeroDivisionError exactly when either refractive index is 0 (tracker.py:450, 685); Undefined exactly when the Fresnel inputs are degenerate or the attenuation length is not positive; otherwise the local-surface interaction, one new history row on the given plane, and a swap of the two volumes exactly on transmission |
| Tracker.ReflectorInteraction | src/tracker.py:1104-1124 | KeyError for an unknown volume; then ValueError exactly when the photon moves along the normal (tracker.py:942), before the reflectivity lookup; then KeyError exactly when the material has no reflector optics (944); a zero index raises ZeroDivisionError; otherwise the reflector interaction, one new history row, and 'environment' as the volume exactly on transmission; a failure leaves the history unchanged |
| Tracker.MeshVolume | src/tracker.py:1018-1019 | the rough volume is the photon's own when it has surface meshes, otherwise the next one, and its mesh for the plane must exist |
| Tracker.SurfaceRound | src/tracker.py:1039-1135 | killed exactly when the hit leaves the volume bounds, with no new row; inside the bounds a draw is used and a row is added on the crossing plane unless the interaction raises; after that row, a counter at 20 kills the photon as trapped; a continuing round counts its one row, and only the reflector branch resets the counter, after a second, reflected row |
| Tracker.ReflectorRound | src/tracker.py:1093-1133 | IndexError when the ray misses the reflector; when its first hit lies on the crossing plane the reflector interaction, and if the photon is reflected the mesh queried again with the counter reset after one reflected row |
| Tracker.RoundsOver | src/tracker.py:1036-1135 | the local loop: a kill in the features follows at least 21 rows; a first hit outside the bounds kills with no row, one inside adds a row or raises; a continuing end added a row; the bound ran out only after at least `fuel` rows |
| Tracker.PreparedOver | src/tracker.py:1018-1026 | the mesh volume and the attempt prepareSurfaceTrimesh ends with, exactly when the mesh lookups succeed |
| Tracker.TrackOverSurface | src/tracker.py:991-1137 | a missing mesh raises its KeyError or TypeError with the history unchanged; killed at a corner exactly when the resampling ends in a miss, with no row; otherwise the first round's outcome as RoundsOver states (escaped with no row, or a row); killed in features only after at least 21 local rows; a continuing end added a row |
| Tracker.EndOfStep | src/tracker.py:1287-1294 | low weight exactly below 1e-4, detected exactly in 'PD_l' or 'PD_r' |
| Tracker.InteractAtCrossing | src/tracker.py:1204-1284 | an unknown volume raises KeyError; between two reflector rows the reflector interaction with the crossing plane's normal and one draw, skipping the end-of-step check; a polished crossing is the local interaction with one draw and its row on PolishedRowPlane; otherwise the surface tracking, whose lookup errors it raises; a continuing end added a row |
| Tracker.PolishedRowPlane | src/tracker.py:870-871 | the row of a polished crossing records the crossing plane exactly when the photon moves along its normal (the in-place flip), and its opposite otherwise |
| Tracker.TrackStep | src/tracker.py:1196-1294 | killed with no crossing exactly when none is found; a raising search leaves the history unchanged; a continuing step added a row and, unless it was the reflector branch, leaves a photon of at least 1e-4 weight outside the photodetectors; the end-of-step fates match the weight and volume |
| Tracker.FindCrossing | src/tracker.py:1200-1203 | the search computes GetCrossing |
| Tracker.TrackPhoton | src/tracker.py:1140-1297 | the history starts with the photon's emission row and stays chained; a dead photon gives only that row; the step bound runs out only after more than `fuel` rows; the loop ends dead with its fates matching the weight and volume |

## Left out

- Floating point: reals are exact. `np.round(…, 9)` of distances and points is not modelled, and
  the `np.isclose` test of the replica hits (tracker.py:99, Intersector.Deduplicated) is exact
  equality. In the emission spectrum infinite and NaN values are one cell kind, `NotFinite`. Where
  the source computes with NaN or infinite values (a non-unit vector, grazing incidence between
  equal indices, a zero attenuation length in the numpy division at tracker.py:768), the stage
  ends with the status `Undefined`.
- Non-physical materials: `addMeterial` accepts any refractive index and attenuation length
  (materials.py:188-205). A zero index raises ZeroDivisionError (`Raised(ZeroDivisionError)` in the
  model). A negative index or a negative attenuation length gives `Undefined`, where the source goes
  on computing with negative values or raises ValueError at tracker.py:455. This holds for
  Tracker.LocalInteraction, Tracker.ReflectorInteraction and every tracking member above them.
- Tracker.LocalInteraction: when the photon's own index is 0, the source has already exchanged the
  volumes on transmission (tracker.py:1064-1065) when traveledDistanceAndTime raises at line 685.
  The model raises with the photon unchanged.
- Randomness: `np.random.rand`, `uniform` and `normal` are the draw stream `rng`. doLambertian's
  rejection loop (tracker.py:637-652) and the Gaussian lobe loop (tracker.py:961-979) are not
  modelled; their accepted directions arrive as the draws `lambertRaw` and `lobeDir`.
- Unbounded loops: trackPhoton's `while alive` and trackOverSurfaceTrimesh's loop, whose counter
  the reflector branch resets, carry a `fuel` bound. A run that exhausts it ends with `OutOfFuel`,
  so the model says nothing about a photon that would need more steps.
- trimesh and open3d: ray queries, Poisson meshing, cropping, slicing and rotation of meshes are
  function parameters (`World`, `MeshOps`). A mesh is represented by its bounds.
- I/O: pickle and text files (`loadGeometry`, `saveGeometry`, the library's file contents,
  `np.loadtxt`) are function parameters or stored maps, and print statements are dropped.
- The tracker reads the geometry as a value snapshot (`World`). It does not model aliasing between
  the tracker and the geometry's volume objects.
- Plotting (`plotTriangulatedArea`, the seaborn setup) and `resetIPython` are left out: they have
  no effect on the model's state.
- `buildEJ204`, `buildEJ550`, `buildAir`, `buildSensLGlass` and `buildTeflon` are specified only
  through the facts `Materials.BuildMaterials` states about them. Their full tables of numbers are
  not restated.
- Materials.NewMaterial: builds the spectrum with the corrected reading SpectrumFromArrays, so it
  succeeds for energy, wavelength or amplitude arrays of two or more elements, where the code as
  written raises ValueError at materials.py:216 (first row of "## Findings"; the code as written is
  Materials.SpectrumAsWritten), and it stores a one-element array holding 0, which the code as
  written drops as false. The arrays are sequences of reals: lists, numpy's element types and
  arrays that already hold NaN or infinite values are not modelled.
- Materials.MaterialsLibrary.AddMeterial: inherits NewMaterial's corrected spectrum, so it adds a
  material for arrays of two or more elements, where the code as written raises ValueError at
  materials.py:216, and it keeps a one-element array holding 0, which the code as written drops.
- Materials.ConvertedRoundTrip: stated for one non-zero value. In numpy a zero converts to inf and
  back to 0.0 (`1240.0/np.inf`), so the round trip holds there too; the model loses it because its
  one `NotFinite` cell stands for both inf and NaN.
- The time-response table of `addMeterial` (materials.py:209-214) is left out because its values
  are floating-point exponentials.
- `opticalPhoton`'s `trackingHistory` argument is not modelled because the source ignores it.
- VolumeModel.Volume.AddSurfaceTrimeshes: `addSurfaceTrimeshes` writes each new surface into the
  dictionary the caller passed (volume.py:122, 132), so after a failing side the caller's
  dictionary already holds the surfaces of the earlier sides. The model treats the argument as a
  value and changes only the volume's own dictionary, and only on success.
- VolumeModel.Volume.AddTouchingVolumes: `addTouchingVolumes` writes the loaded names under the
  normal keys into the dictionary the caller passed and then stores that same dictionary
  (volume.py:171-173), so the caller's dictionary and the volume's share later changes. The model
  treats the argument as a value and stores a new map with the six normal keys added.
- Tracker.TrackOverSurface: the kill after more than 20 local interactions is stated round by round
  by Tracker.SurfaceRound (killed exactly when a row is added at counter 20). Over the whole loop
  the contract states only that such a kill follows at least 21 rows.
- Tracker.WellFormed requires that the world's names are the keys of its volumes, each once, which
  every Python dictionary satisfies.
- The KeyError of the `'reflector'` lookup in trackOverSurfaceTrimesh (tracker.py:1095) is not a
  separate status: that branch runs only when the photon's volume is 'reflector'.
- SurfaceModel.Surface.CropPointCloudAndReTriangulate: states the cropped cloud and the
  triangulation parameters but not the final mesh. The final mesh is whatever CreateTriangularMesh
  and then ApplyDefaultOrientation produce.
- Tracker.TrackPhoton: states how the photon's life ends and that the history stays chained, but
  not every row's contents. The per-row contents are stated by Tracker.UpdatePhotonInfo and
  TrackingHistory.ChainedFacts.
- src/source.py and main.py are not part of this model: they create photons and drive the geometry.

## Findings

| source | as written | input that shows it | evidently intended | confidence | as-written member | corrected member |
|---|---|---|---|---|---|---|
| src/materials.py:216 | `if energies and wavelengths:` takes the truth value of numpy arrays, which raises ValueError for any array with more than one element | `addMeterial(..., energies=np.array([2.5, 3.1]))` | test whether each array was given (`is not None`) and derive the missing one | not executed | Materials.SpectrumAsWrittenRefusesTables | Materials.SpectrumFromArrays |
| src/materials.py:219 | the same truth tests (`elif energies`, and `if emissionSpectrumAmplitude` at line 229) find a one-element array holding 0 false, so it is dropped as if not given | `addMeterial(..., energies=np.array([0.0]))` records no energy column | store the given array | not executed | Materials.SpectrumAsWrittenDropsZero | Materials.SpectrumFromArrays |
| src/geometry.py:122 | `'name' and 'material' and 'width' and 'length' and 'center' not in keys` tests only `'center'` | a config without `'width'` passes the guard and fails with KeyError at line 128 | ValueError whenever any of the five keys is missing | not executed | GeometryModel.GuardAsWrittenMissesWidth | GeometryModel.ConfigError |
| src/geometry.py:134 | `createGeometry` calls `self.checkOverlaps()`, which the class does not define | any configuration the guard accepts ends in AttributeError | call `checkGeometry()` (defined at line 211, and what main.py:135-136 calls) before `identifyTouchingVolumes()` | not executed | GeometryModel.Geometry.CreateGeometryAsWritten | GeometryModel.Geometry.CreateGeometry |
