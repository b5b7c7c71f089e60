/** The materials library of src/materials.py: the five pre-coded materials, the
    add/delete/save operations on the library dictionary with their guards, the
    emission-spectrum frame `addMeterial` fills in, and the specular-lobe width
    table of Teflon on integer incidence angles. */
module Materials {

  import opened Wrappers
  import opened Optics

  // ---------------------------------------------------------------------------
  // The emission-spectrum frame
  // ---------------------------------------------------------------------------

  /** One cell of the emission-spectrum frame: a number, an infinite or NaN value
      (what numpy's division gives for a zero divisor, and what pandas fills in when
      it re-indexes a column), or Python's `None`. */
  datatype Cell = Val(x: real) | NotFinite | Null

  /** `pd.DataFrame(columns=['energy', 'wavelength', 'amplitude'])` and what column
      assignments make of it: a row count and the three columns. */
  datatype Spectrum = Spectrum(rows: nat, energy: seq<Cell>, wavelength: seq<Cell>, amplitude: seq<Cell>)

  /** Every column has one cell per row. */
  predicate Shaped(s: Spectrum) {
    |s.energy| == s.rows && |s.wavelength| == s.rows && |s.amplitude| == s.rows
  }

  /** The frame as created, with no rows. */
  const NoSpectrum: Spectrum := Spectrum(0, [], [], [])

  datatype Column = EnergyColumn | WavelengthColumn | AmplitudeColumn

  /** The right-hand side of a column assignment: `None`, or a numpy array. */
  datatype ColumnValue = NoneValue | ArrayValue(cells: seq<Cell>)

  function ColumnOf(s: Spectrum, c: Column): seq<Cell> {
    match c
    case EnergyColumn => s.energy
    case WavelengthColumn => s.wavelength
    case AmplitudeColumn => s.amplitude
  }

  function WithColumn(s: Spectrum, c: Column, col: seq<Cell>): Spectrum {
    match c
    case EnergyColumn => s.(energy := col)
    case WavelengthColumn => s.(wavelength := col)
    case AmplitudeColumn => s.(amplitude := col)
  }

  function Filled(n: nat, c: Cell): (r: seq<Cell>)
    ensures |r| == n && forall i :: 0 <= i < n ==> r[i] == c
  {
    seq(n, i => c)
  }

  /** `emissionSpectrum[c] = v`.  `None` fills the column with `None`.  An array
      given to a frame without rows sets the row count to its length, and the other
      columns are re-indexed to NaN; otherwise an array of another length than the
      row count raises `ValueError`. */
  function Assigned(s: Spectrum, c: Column, v: ColumnValue): (r: Result<Spectrum>)
    requires Shaped(s)
    ensures r.Err? <==> v.ArrayValue? && 0 < s.rows && |v.cells| != s.rows
    ensures r.Err? ==> r.error == ValueError
    ensures r.Ok? ==> Shaped(r.value)
    ensures r.Ok? ==> r.value.rows == if s.rows == 0 && v.ArrayValue? then |v.cells| else s.rows
    ensures r.Ok? ==> ColumnOf(r.value, c) == if v.ArrayValue? then v.cells else Filled(s.rows, Null)
    ensures r.Ok? ==> forall d :: d != c ==>
      ColumnOf(r.value, d) == Reindexed(ColumnOf(s, d), r.value.rows)
  {
    if v.NoneValue? then Ok(WithColumn(s, c, Filled(s.rows, Null)))
    else if s.rows == 0 && |v.cells| > 0 then
      var n := |v.cells|;
      Ok(WithColumn(Spectrum(n, Filled(n, NotFinite), Filled(n, NotFinite), Filled(n, NotFinite)), c, v.cells))
    else if |v.cells| != s.rows then Err(ValueError)
    else Ok(WithColumn(s, c, v.cells))
  }

  /** A column that was given `n` cells, as it reads once the frame has `rows` rows:
      unchanged, or all NaN when the frame was re-indexed after it. */
  function Reindexed(col: seq<Cell>, rows: nat): seq<Cell> {
    if |col| == rows then col else Filled(rows, NotFinite)
  }

  // ---------------------------------------------------------------------------
  // Spectra
  // ---------------------------------------------------------------------------

  /** The constant of the conversion lambda [nm] = 1240 / E [eV]. */
  const EnergyWavelength: real := 1240.0

  /** `1240.0 / x` for one entry of a numpy array: infinite for a zero. */
  function Inverse(x: real): (c: Cell)
    ensures x != 0.0 ==> c.Val? && c.x * x == EnergyWavelength
    ensures x == 0.0 ==> c == NotFinite
  {
    if x == 0.0 then NotFinite else Val(EnergyWavelength / x)
  }

  /** `1240.0 / xs`, elementwise. */
  function Converted(xs: seq<real>): (ys: seq<Cell>)
    ensures |ys| == |xs|
    ensures forall i :: 0 <= i < |xs| ==> ys[i] == Inverse(xs[i])
  {
    seq(|xs|, i requires 0 <= i < |xs| => Inverse(xs[i]))
  }

  /** Converting a non-zero energy to a wavelength and back gives the energy again. */
  lemma ConvertedRoundTrip(x: real)
    requires x != 0.0
    ensures Inverse(x).Val? && Inverse(Inverse(x).x) == Val(x)
  {
    var y := Inverse(x).x;
    assert y != 0.0;
    var z := Inverse(y).x;
    assert z * y == EnergyWavelength && x * y == EnergyWavelength;
    ProductCancel(z, x, y);
  }

  lemma ProductCancel(a: real, b: real, c: real)
    requires c != 0.0 && a * c == b * c
    ensures a == b
  {
  }

  /** The cells of a numpy array of reals. */
  function Vals(xs: seq<real>): (r: seq<Cell>)
    ensures |r| == |xs| && forall i :: 0 <= i < |xs| ==> r[i] == Val(xs[i])
  {
    seq(|xs|, i requires 0 <= i < |xs| => Val(xs[i]))
  }

  function Sum(xs: seq<real>): real
    decreases |xs|
  {
    if |xs| == 0 then 0.0 else xs[0] + Sum(xs[1..])
  }

  /** `amplitude /= np.sum(amplitude)`: a column of area one, or, when the sum is
      zero, a column of infinite and NaN values. */
  function Normalized(a: seq<real>): (r: seq<Cell>)
    ensures |r| == |a|
    ensures Sum(a) != 0.0 ==>
      (forall i :: 0 <= i < |a| ==> r[i] == Val(a[i] / Sum(a))) && Sum(Divided(a, Sum(a))) == 1.0
    ensures Sum(a) == 0.0 ==> r == Filled(|a|, NotFinite)
  {
    if Sum(a) == 0.0 then Filled(|a|, NotFinite)
    else
      SumDivided(a, Sum(a));
      assert Sum(a) / Sum(a) == 1.0;
      Vals(Divided(a, Sum(a)))
  }

  function Divided(a: seq<real>, s: real): (r: seq<real>)
    requires s != 0.0
    ensures |r| == |a| && forall i :: 0 <= i < |a| ==> r[i] == a[i] / s
  {
    seq(|a|, i requires 0 <= i < |a| => a[i] / s)
  }

  lemma {:induction false} SumDivided(a: seq<real>, s: real)
    requires s != 0.0
    ensures Sum(Divided(a, s)) == Sum(a) / s
    decreases |a|
  {
    if |a| > 0 {
      assert Divided(a, s)[1..] == Divided(a[1..], s);
      SumDivided(a[1..], s);
      assert a[0] / s + Sum(a[1..]) / s == (a[0] + Sum(a[1..])) / s;
    }
  }

  /** Which branch of the energy/wavelength block of `addMeterial` runs, with the
      arrays it assigns. */
  datatype Columns = Both(e: seq<real>, w: seq<real>) | FromEnergies(e: seq<real>)
                   | FromWavelengths(w: seq<real>) | NoColumns

  /** The assignments of materials.py:217-227 once the branch is chosen: the
      energy column, then the wavelength column. */
  function ColumnsFilled(cols: Columns): (r: Result<Spectrum>)
    ensures r.Ok? ==> Shaped(r.value)
    ensures cols.Both? ==>
      && (r.Err? <==> |cols.e| > 0 && |cols.w| != |cols.e|)
      && (r.Ok? ==> r.value.rows == |cols.w| &&
                    r.value.energy == Reindexed(Vals(cols.e), r.value.rows) && r.value.wavelength == Vals(cols.w))
    ensures cols.FromEnergies? ==>
      r.Ok? && r.value.rows == |cols.e| && r.value.energy == Vals(cols.e) && r.value.wavelength == Converted(cols.e)
    ensures cols.FromWavelengths? ==>
      r.Ok? && r.value.rows == |cols.w| && r.value.energy == Converted(cols.w) && r.value.wavelength == Vals(cols.w)
    ensures cols.NoColumns? ==> r == Ok(NoSpectrum)
    ensures r.Err? ==> r.error == ValueError
  {
    var first := match cols
      case Both(e, _) => ArrayValue(Vals(e))
      case FromEnergies(e) => ArrayValue(Vals(e))
      case FromWavelengths(w) => ArrayValue(Converted(w))
      case NoColumns => NoneValue;
    var second := match cols
      case Both(_, w) => ArrayValue(Vals(w))
      case FromEnergies(e) => ArrayValue(Converted(e))
      case FromWavelengths(w) => ArrayValue(Vals(w))
      case NoColumns => NoneValue;
    var r1 := Assigned(NoSpectrum, EnergyColumn, first);
    if r1.Err? then r1 else Assigned(r1.value, WavelengthColumn, second)
  }

  /** The amplitude block of materials.py:229-234: the given array, normalised, or
      `None`. */
  function AmplitudeFilled(s: Spectrum, amplitude: Option<seq<real>>): (r: Result<Spectrum>)
    requires Shaped(s)
    ensures r.Err? <==> amplitude.Some? && 0 < s.rows && |amplitude.value| != s.rows
    ensures r.Err? ==> r.error == ValueError
    ensures r.Ok? ==> Shaped(r.value) && r.value.rows == if s.rows == 0 && amplitude.Some? then |amplitude.value| else s.rows
    ensures r.Ok? ==> r.value.energy == Reindexed(s.energy, r.value.rows) && r.value.wavelength == Reindexed(s.wavelength, r.value.rows)
    ensures r.Ok? ==> r.value.amplitude == if amplitude.Some? then Normalized(amplitude.value) else Filled(r.value.rows, Null)
  {
    if amplitude.None? then Assigned(s, AmplitudeColumn, NoneValue)
    else
      var r3 := Assigned(s, AmplitudeColumn, ArrayValue(Vals(amplitude.value)));
      if r3.Err? then r3 else Ok(WithColumn(r3.value, AmplitudeColumn, Normalized(amplitude.value)))
  }

  /** The whole block of materials.py:216-234 once the branches are chosen. */
  function Filling(cols: Columns, amplitude: Option<seq<real>>): (r: Result<Spectrum>)
    ensures r.Ok? ==> Shaped(r.value)
  {
    var s :- ColumnsFilled(cols);
    AmplitudeFilled(s, amplitude)
  }

  /** The arrays given to `addMeterial`, in the order their columns are assigned. */
  function Given(energies: Option<seq<real>>, wavelengths: Option<seq<real>>,
                 amplitude: Option<seq<real>>): seq<seq<real>> {
    (if energies.Some? then [energies.value] else []) +
    (if wavelengths.Some? then [wavelengths.value] else []) +
    (if amplitude.Some? then [amplitude.value] else [])
  }

  /** Some given array is not empty and a later one has another length. */
  predicate Clash(g: seq<seq<real>>) {
    exists i, j :: 0 <= i < j < |g| && |g[i]| > 0 && |g[j]| != |g[i]|
  }

  /** The length of the first non-empty given array, or 0. */
  function RowCount(g: seq<seq<real>>): nat {
    if |g| == 0 then 0 else if |g[0]| > 0 then |g[0]| else RowCount(g[1..])
  }

  /** `RowCount` and `Clash` on none, one and two given arrays. */
  lemma ShortLists(x: seq<real>, y: seq<real>)
    ensures RowCount([]) == 0 && !Clash([]) && RowCount([x]) == |x| && !Clash([x])
    ensures RowCount([x, y]) == if |x| > 0 then |x| else |y|
    ensures Clash([x, y]) <==> |x| > 0 && |y| != |x|
  {
    var g := [x, y];
    assert g[1..] == [y] && [y][1..] == [] && [x][1..] == [];
    if |x| > 0 && |y| != |x| {
      assert |g[0]| > 0 && |g[1]| != |g[0]|;
    }
  }

  /** `RowCount` and `Clash` on three given arrays. */
  lemma ThreeLists(x: seq<real>, y: seq<real>, z: seq<real>)
    ensures RowCount([x, y, z]) == if |x| > 0 then |x| else if |y| > 0 then |y| else |z|
    ensures Clash([x, y, z]) <==> (|x| > 0 && (|y| != |x| || |z| != |x|)) || (|y| > 0 && |z| != |y|)
  {
    var g := [x, y, z];
    assert g[1..] == [y, z] && [y, z][1..] == [z] && [z][1..] == [];
    ShortLists(y, z);
    if |x| > 0 && |y| != |x| {
      assert |g[0]| > 0 && |g[1]| != |g[0]|;
    } else if |x| > 0 && |z| != |x| {
      assert |g[0]| > 0 && |g[2]| != |g[0]|;
    } else if |y| > 0 && |z| != |y| {
      assert |g[1]| > 0 && |g[2]| != |g[1]|;
    } else {
      forall i, j | 0 <= i < j < |g| ensures |g[i]| == 0 || |g[j]| == |g[i]| {
        assert (i == 0 && (j == 1 || j == 2)) || (i == 1 && j == 2);
      }
    }
  }

  /** The branch the intended tests (`is not None`) choose. */
  function CorrectedColumns(energies: Option<seq<real>>, wavelengths: Option<seq<real>>): Columns {
    if energies.Some? && wavelengths.Some? then Both(energies.value, wavelengths.value)
    else if energies.Some? then FromEnergies(energies.value)
    else if wavelengths.Some? then FromWavelengths(wavelengths.value)
    else NoColumns
  }

  /** What the corrected block gives for the given arrays (the contract of
      `SpectrumFromArrays`). */
  predicate CorrectedSpectrum(energies: Option<seq<real>>, wavelengths: Option<seq<real>>,
                              amplitude: Option<seq<real>>, r: Result<Spectrum>)
  {
    && (r.Err? <==> Clash(Given(energies, wavelengths, amplitude)))
    && (r.Err? ==> r.error == ValueError)
    && (r.Ok? ==> Shaped(r.value) && r.value.rows == RowCount(Given(energies, wavelengths, amplitude)))
    && (r.Ok? && energies.Some? ==> r.value.energy == Reindexed(Vals(energies.value), r.value.rows))
    && (r.Ok? && wavelengths.Some? ==> r.value.wavelength == Reindexed(Vals(wavelengths.value), r.value.rows))
    && (r.Ok? && energies.Some? && wavelengths.None? ==>
          r.value.wavelength == Reindexed(Converted(energies.value), r.value.rows))
    && (r.Ok? && energies.None? && wavelengths.Some? ==>
          r.value.energy == Reindexed(Converted(wavelengths.value), r.value.rows))
    && (r.Ok? && energies.None? && wavelengths.None? ==>
          r.value.energy == Filled(r.value.rows, NotFinite) && r.value.wavelength == Filled(r.value.rows, NotFinite))
    && (r.Ok? ==>
          r.value.amplitude == if amplitude.Some? then Normalized(amplitude.value) else Filled(r.value.rows, Null))
  }

  /** The corrected block meets that contract, one case per choice of given arrays. */
  lemma CorrectedFilling(energies: Option<seq<real>>, wavelengths: Option<seq<real>>,
                         amplitude: Option<seq<real>>)
    ensures CorrectedSpectrum(energies, wavelengths, amplitude, Filling(CorrectedColumns(energies, wavelengths), amplitude))
  {
    if energies.Some? {
      CorrectedFromEnergies(energies.value, wavelengths, amplitude);
    } else {
      CorrectedWithoutEnergies(wavelengths, amplitude);
    }
  }

  lemma CorrectedFromEnergies(e: seq<real>, wavelengths: Option<seq<real>>, amplitude: Option<seq<real>>)
    ensures CorrectedSpectrum(Some(e), wavelengths, amplitude, Filling(CorrectedColumns(Some(e), wavelengths), amplitude))
  {
    var g := Given(Some(e), wavelengths, amplitude);
    if wavelengths.Some? {
      var w := wavelengths.value;
      if amplitude.Some? {
        assert g == [e, w, amplitude.value];
        ThreeLists(e, w, amplitude.value);
      } else {
        assert g == [e, w];
        ShortLists(e, w);
      }
    } else if amplitude.Some? {
      assert g == [e, amplitude.value];
      ShortLists(e, amplitude.value);
    } else {
      assert g == [e];
      ShortLists(e, e);
    }
  }

  lemma CorrectedWithoutEnergies(wavelengths: Option<seq<real>>, amplitude: Option<seq<real>>)
    ensures CorrectedSpectrum(None, wavelengths, amplitude, Filling(CorrectedColumns(None, wavelengths), amplitude))
  {
    var g := Given(None, wavelengths, amplitude);
    if wavelengths.Some? {
      var w := wavelengths.value;
      if amplitude.Some? {
        assert g == [w, amplitude.value];
        ShortLists(w, amplitude.value);
      } else {
        assert g == [w];
        ShortLists(w, w);
      }
    } else if amplitude.Some? {
      assert g == [amplitude.value];
      ShortLists(amplitude.value, amplitude.value);
    } else {
      assert g == [];
      ShortLists([], []);
    }
  }

  /** The emission spectrum `addMeterial` records, with the tests on the arrays read
      as "was the argument given" (`is not None`).  Arrays of different lengths are
      refused by pandas with `ValueError`, except that an empty array before the
      first non-empty one is re-indexed to NaN.  A given energy or wavelength column
      is stored and the other one derived from it by 1240/x; a given amplitude column
      is normalised to area one. */
  function SpectrumFromArrays(energies: Option<seq<real>>, wavelengths: Option<seq<real>>,
                              amplitude: Option<seq<real>>): (r: Result<Spectrum>)
    ensures r.Err? <==> Clash(Given(energies, wavelengths, amplitude))
    ensures r.Err? ==> r.error == ValueError
    ensures r.Ok? ==> Shaped(r.value) && r.value.rows == RowCount(Given(energies, wavelengths, amplitude))
    ensures r.Ok? && energies.Some? ==> r.value.energy == Reindexed(Vals(energies.value), r.value.rows)
    ensures r.Ok? && wavelengths.Some? ==> r.value.wavelength == Reindexed(Vals(wavelengths.value), r.value.rows)
    ensures r.Ok? && energies.Some? && wavelengths.None? ==>
      r.value.wavelength == Reindexed(Converted(energies.value), r.value.rows)
    ensures r.Ok? && energies.None? && wavelengths.Some? ==>
      r.value.energy == Reindexed(Converted(wavelengths.value), r.value.rows)
    ensures r.Ok? && energies.None? && wavelengths.None? ==>
      r.value.energy == Filled(r.value.rows, NotFinite) && r.value.wavelength == Filled(r.value.rows, NotFinite)
    ensures r.Ok? ==>
      r.value.amplitude == if amplitude.Some? then Normalized(amplitude.value) else Filled(r.value.rows, Null)
  {
    CorrectedFilling(energies, wavelengths, amplitude);
    Filling(CorrectedColumns(energies, wavelengths), amplitude)
  }

  /** Python's truth value of an optional numpy array (numpy 1.x): `None` and the
      empty array are false, a one-element array is the truth of its element, and a
      longer one raises `ValueError` (its truth value is ambiguous). */
  function ArrayTruth(a: Option<seq<real>>): (r: Result<bool>)
    ensures r.Err? <==> a.Some? && |a.value| > 1
    ensures r == Ok(true) <==> a.Some? && |a.value| == 1 && a.value[0] != 0.0
  {
    if a.None? || |a.value| == 0 then Ok(false)
    else if |a.value| == 1 then Ok(a.value[0] != 0.0)
    else Err(ValueError)
  }

  /** The branch choice of materials.py:216-227 as written, with `if energies and
      wavelengths`, `elif energies` and `elif wavelengths` evaluated on the arrays
      themselves. */
  function ColumnsAsWritten(energies: Option<seq<real>>, wavelengths: Option<seq<real>>): Result<Columns> {
    var te :- ArrayTruth(energies);
    var tw :- if te then ArrayTruth(wavelengths) else Ok(false);
    if te && tw then Ok(Both(energies.value, wavelengths.value))
    else if te then Ok(FromEnergies(energies.value))
    else
      var tw2 :- ArrayTruth(wavelengths);
      Ok(if tw2 then FromWavelengths(wavelengths.value) else NoColumns)
  }

  /** The spectrum block of `addMeterial` as written (materials.py:216-234), the
      amplitude test `if emissionSpectrumAmplitude` included. */
  function SpectrumAsWritten(energies: Option<seq<real>>, wavelengths: Option<seq<real>>,
                             amplitude: Option<seq<real>>): Result<Spectrum>
  {
    var cols :- ColumnsAsWritten(energies, wavelengths);
    var ta :- ArrayTruth(amplitude);
    Filling(cols, if ta then amplitude else None)
  }

  /** As written, a spectrum of two energies is refused with `ValueError`, while the
      evidently intended test records it with its converted wavelengths. */
  lemma SpectrumAsWrittenRefusesTables()
    ensures SpectrumAsWritten(Some([2.5, 3.1]), None, None) == Err(ValueError)
    ensures SpectrumFromArrays(Some([2.5, 3.1]), None, None).Ok?
    ensures SpectrumFromArrays(Some([2.5, 3.1]), None, None).value.wavelength == Converted([2.5, 3.1])
  {
  }

  /** A one-element array or `None` as the code as written sees it: a zero element
      makes the array false, as if it were not given. */
  function Truthful(a: Option<seq<real>>): Option<seq<real>>
    requires a.Some? ==> |a.value| == 1
  {
    if a.Some? && a.value[0] == 0.0 then None else a
  }

  /** No given one-element array holds a zero. */
  predicate NonZeroSingleton(a: Option<seq<real>>)
    requires a.Some? ==> |a.value| == 1
  {
    a.None? || a.value[0] != 0.0
  }

  /** Given arrays of one element each never clash and make a frame of one row. */
  lemma SingletonsFill(energies: Option<seq<real>>, wavelengths: Option<seq<real>>,
                       amplitude: Option<seq<real>>)
    requires energies.Some? ==> |energies.value| == 1
    requires wavelengths.Some? ==> |wavelengths.value| == 1
    requires amplitude.Some? ==> |amplitude.value| == 1
    ensures SpectrumFromArrays(energies, wavelengths, amplitude).Ok?
    ensures energies.Some? || wavelengths.Some? || amplitude.Some? ==>
      SpectrumFromArrays(energies, wavelengths, amplitude).value.rows == 1
  {
    var g := Given(energies, wavelengths, amplitude);
    assert forall k :: 0 <= k < |g| ==> |g[k]| == 1;
    if energies.Some? || wavelengths.Some? || amplitude.Some? {
      assert |g| > 0 && |g[0]| == 1;
    }
  }

  /** When every given array has exactly one element, the block as written is the
      intended one applied to the arrays it finds true, so the two build the same
      spectrum when none of those elements is zero. */
  lemma SpectrumAsWrittenAgreesOnSingletons(energies: Option<seq<real>>, wavelengths: Option<seq<real>>,
                                            amplitude: Option<seq<real>>)
    requires energies.Some? ==> |energies.value| == 1
    requires wavelengths.Some? ==> |wavelengths.value| == 1
    requires amplitude.Some? ==> |amplitude.value| == 1
    ensures SpectrumAsWritten(energies, wavelengths, amplitude) ==
      SpectrumFromArrays(Truthful(energies), Truthful(wavelengths), Truthful(amplitude))
    ensures NonZeroSingleton(energies) && NonZeroSingleton(wavelengths) && NonZeroSingleton(amplitude) ==>
      SpectrumAsWritten(energies, wavelengths, amplitude) == SpectrumFromArrays(energies, wavelengths, amplitude)
  {
    assert ColumnsAsWritten(energies, wavelengths) == Ok(CorrectedColumns(Truthful(energies), Truthful(wavelengths)));
    assert ArrayTruth(amplitude) == Ok(Truthful(amplitude).Some?);
  }

  /** A zero singleton is where the two differ: as written, `np.array([0.0])` is false
      and no column is made, while the intended reading records the energy and its
      infinite wavelength. */
  lemma SpectrumAsWrittenDropsZero()
    ensures SpectrumAsWritten(Some([0.0]), None, None) == Ok(NoSpectrum)
    ensures SpectrumFromArrays(Some([0.0]), None, None) == Ok(Spectrum(1, [Val(0.0)], [NotFinite], [Null]))
  {
    assert Given(Some([0.0]), None, None) == [[0.0]];
    ShortLists([0.0], [0.0]);
    assert Vals([0.0]) == [Val(0.0)] && Converted([0.0]) == [NotFinite] && Filled(1, Null) == [Null];
  }

  /** One entry of the library dictionary. `reflector` holds the reflectivity,
      Lambertian-fraction fit and specular-lobe table of a reflector material. */
  datatype Material = Material(name: string, lightYield: Option<real>, refractiveIndex: real,
                               attenuationLength: real, riseTime: Option<real>, fallTime: Option<real>,
                               emissionSpectrum: Spectrum, reflector: Option<ReflectorOptics>)

  // ---------------------------------------------------------------------------
  // The pre-coded materials
  // ---------------------------------------------------------------------------

  /** The tabulated EJ-204 emission spectrum (energies in eV, wavelengths in nm, raw
      amplitudes), which enters the model as data: three columns of one length. */
  datatype TableColumns = TableColumns(energy: seq<real>, wavelength: seq<real>, amplitude: seq<real>)

  type Tables = t: TableColumns | |t.energy| == |t.wavelength| == |t.amplitude| witness TableColumns([], [], [])

  function BuildEJ204(t: Tables): Material {
    Material("EJ-204", Some(10400.0), 1.58, 1600.0, Some(1.3), Some(2.0),
             Spectrum(|t.energy|, Vals(t.energy), Vals(t.wavelength), Normalized(t.amplitude)), None)
  }

  function BuildEJ550(): Material {
    Material("EJ-550", None, 1.46, 1600.0, None, None, NoSpectrum, None)
  }

  function BuildAir(): Material {
    Material("Air", None, 1.0, 3000.0, None, None, NoSpectrum, None)
  }

  function BuildSensLGlass(): Material {
    Material("SensLGlass", None, 1.53, 1600.0, None, None, NoSpectrum, None)
  }

  function BuildTeflon(): Material {
    Material("Teflon", None, 1.0, 3000.0, None, None, NoSpectrum,
             Some(ReflectorOptics(0.945, -0.00009182, 0.09479, 0.9799, -0.0000927, SigmaColumn())))
  }

  /** `buildMaterials` (materials.py:72-78). */
  function BuildMaterials(t: Tables): (lib: map<string, Material>)
    ensures lib.Keys == {"EJ-204", "EJ-550", "Air", "SensLGlass", "Teflon"}
    ensures forall k :: k in lib ==> lib[k].name == k
    ensures forall k :: k in lib ==> 0.0 < lib[k].refractiveIndex && 0.0 < lib[k].attenuationLength
    ensures forall k :: k in lib ==> (lib[k].reflector.Some? <==> k == "Teflon")
  {
    map["EJ-204" := BuildEJ204(t), "EJ-550" := BuildEJ550(), "Air" := BuildAir(),
        "SensLGlass" := BuildSensLGlass(), "Teflon" := BuildTeflon()]
  }

  // ---------------------------------------------------------------------------
  // The specular-lobe table of Teflon
  // ---------------------------------------------------------------------------

  const SigmaKnotAngles: seq<real> := [0.0, 10.0, 30.0, 50.0, 62.0, 74.0, 90.0]
  const SigmaKnotValues: seq<real> := [32.07, 25.97, 13.77, 13.4, 11.4, 7.60, 2.52]

  /** The slope of the knot segment `i`. */
  function SigmaSlope(i: nat): real
    requires i < 6
  {
    (SigmaKnotValues[i + 1] - SigmaKnotValues[i]) / (SigmaKnotAngles[i + 1] - SigmaKnotAngles[i])
  }

  /** The value on knot segment `i` at angle `x`. */
  function OnSegment(i: nat, x: real): real
    requires i < 6
  {
    SigmaKnotValues[i] + SigmaSlope(i) * (x - SigmaKnotAngles[i])
  }

  /** `interp1d` of the knots, on [0, 90]. */
  function Interpolated(x: real): real
    requires 0.0 <= x <= 90.0
  {
    if x <= 10.0 then OnSegment(0, x)
    else if x <= 30.0 then OnSegment(1, x)
    else if x <= 50.0 then OnSegment(2, x)
    else if x <= 62.0 then OnSegment(3, x)
    else if x <= 74.0 then OnSegment(4, x)
    else OnSegment(5, x)
  }

  /** The second row of `specularLobeSigma`, at the angles 0, 1, ..., 90 of the first. */
  function SigmaColumn(): (s: seq<real>)
    ensures |s| == 91
  {
    seq(91, k requires 0 <= k < 91 => Interpolated(k as real))
  }

  /** The table passes through every knot. */
  lemma SigmaAtKnots()
    ensures forall i :: 0 <= i < 7 ==> SigmaColumn()[SigmaKnotAngles[i].Floor] == SigmaKnotValues[i]
  {
    var s := SigmaColumn();
    assert s[0] == 32.07 && s[10] == 25.97 && s[30] == 13.77 && s[50] == 13.4;
    assert s[62] == 11.4 && s[74] == 7.60 && s[90] == 2.52;
  }

  /** Between two consecutive knots the table is linear: every step of one degree
      changes it by the slope of that segment. */
  lemma SigmaLinearBetweenKnots(i: nat, k: nat)
    requires i < 6
    requires SigmaKnotAngles[i] <= k as real && (k + 1) as real <= SigmaKnotAngles[i + 1]
    ensures SigmaColumn()[k + 1] - SigmaColumn()[k] == SigmaSlope(i)
  {
    var s := SigmaColumn();
    assert s[k] == Interpolated(k as real) && s[k + 1] == Interpolated((k + 1) as real);
  }

  /** The knot segment that holds the step from `k` to `k + 1` degrees. */
  function SegmentOf(k: nat): (i: nat)
    requires k < 90
    ensures i < 6 && SigmaKnotAngles[i] <= k as real && (k + 1) as real <= SigmaKnotAngles[i + 1]
  {
    if k < 10 then 0 else if k < 30 then 1 else if k < 50 then 2
    else if k < 62 then 3 else if k < 74 then 4 else 5
  }

  lemma InterpolatedRange(x: real)
    requires 0.0 <= x <= 90.0
    ensures 2.52 <= Interpolated(x) <= 32.07
  {
  }

  /** The lobe narrows with the incidence angle and stays within the knot range. */
  lemma SigmaDecreasing(k: nat)
    requires k < 90
    ensures SigmaColumn()[k + 1] < SigmaColumn()[k]
    ensures 2.52 <= SigmaColumn()[k + 1] && SigmaColumn()[k] <= 32.07
  {
    var s := SigmaColumn();
    var i := SegmentOf(k);
    SigmaLinearBetweenKnots(i, k);
    assert SigmaSlope(i) < 0.0;
    InterpolatedRange(k as real);
    InterpolatedRange((k + 1) as real);
    assert s[k] == Interpolated(k as real) && s[k + 1] == Interpolated((k + 1) as real);
  }

  // ---------------------------------------------------------------------------
  // Adding and deleting materials
  // ---------------------------------------------------------------------------

  /** The arguments of `addMeterial` after the library file name; `None` is Python's `None`. */
  datatype MaterialArgs = MaterialArgs(name: Option<string>, lightYield: Option<real>, refractiveIndex: Option<real>,
                                       attenuationLength: Option<real>, riseTime: Option<real>, fallTime: Option<real>,
                                       amplitude: Option<seq<real>>, energies: Option<seq<real>>,
                                       wavelengths: Option<seq<real>>)

  /** The entry `addMeterial` builds (materials.py:188-236).  A missing name, index or
      attenuation length is a `ValueError`; a missing light yield fails the fixed-point
      format of the log line and a missing rise or fall time the time-response
      formula, both with `TypeError`; then the spectrum block may raise `ValueError`
      for arrays of different lengths.  The spectrum is the corrected reading
      `SpectrumFromArrays`; the code as written is `SpectrumAsWritten`. */
  function NewMaterial(a: MaterialArgs): (r: Result<Material>)
    ensures r.Err? ==> r.error == ValueError || r.error == TypeError
    ensures r.Err? && r.error == TypeError <==>
      a.name.Some? && a.refractiveIndex.Some? && a.attenuationLength.Some? &&
      (a.lightYield.None? || a.riseTime.None? || a.fallTime.None?)
    ensures r.Err? && r.error == ValueError <==>
      a.name.None? || a.refractiveIndex.None? || a.attenuationLength.None? ||
      (a.lightYield.Some? && a.riseTime.Some? && a.fallTime.Some? &&
       Clash(Given(a.energies, a.wavelengths, a.amplitude)))
    ensures r.Ok? <==>
      a.name.Some? && a.refractiveIndex.Some? && a.attenuationLength.Some? &&
      a.lightYield.Some? && a.riseTime.Some? && a.fallTime.Some? &&
      !Clash(Given(a.energies, a.wavelengths, a.amplitude))
    ensures r.Ok? ==>
      && r.value.name == a.name.value && r.value.lightYield == a.lightYield
      && r.value.refractiveIndex == a.refractiveIndex.value
      && r.value.attenuationLength == a.attenuationLength.value
      && r.value.riseTime == a.riseTime && r.value.fallTime == a.fallTime
      && r.value.emissionSpectrum == SpectrumFromArrays(a.energies, a.wavelengths, a.amplitude).value
      && r.value.reflector.None?
  {
    if a.name.None? || a.refractiveIndex.None? || a.attenuationLength.None? then Err(ValueError)
    else if a.lightYield.None? then Err(TypeError)
    else if a.riseTime.None? || a.fallTime.None? then Err(TypeError)
    else
      var spectrum :- SpectrumFromArrays(a.energies, a.wavelengths, a.amplitude);
      Ok(Material(a.name.value, a.lightYield, a.refractiveIndex.value, a.attenuationLength.value,
                  a.riseTime, a.fallTime, spectrum, None))
  }

  /** The library after `addMeterial`; `None` is a library attribute that is absent. */
  function AddedToLibrary(lib: Option<map<string, Material>>, a: MaterialArgs): Result<map<string, Material>> {
    if lib.None? then Err(AttributeError)
    else
      var mat :- NewMaterial(a);
      Ok(lib.value[a.name.value := mat])
  }

  /** The library after `deleteMeterial` (materials.py:272-278); `del` of a missing
      key raises `KeyError`. */
  function DeletedFromLibrary(lib: Option<map<string, Material>>, name: string): Result<map<string, Material>> {
    if lib.None? then Err(AttributeError)
    else if name !in lib.value then Err(KeyError)
    else Ok(lib.value - {name})
  }

  /** A successful add stores the new entry under its name and leaves every other
      key as it was; an absent library is an `AttributeError`. */
  lemma AddFacts(lib: Option<map<string, Material>>, a: MaterialArgs)
    ensures AddedToLibrary(lib, a).Err? && AddedToLibrary(lib, a).error == AttributeError <==> lib.None?
    ensures AddedToLibrary(lib, a).Ok? ==>
      var r := AddedToLibrary(lib, a).value;
      && a.name.Some? && a.name.value in r && r[a.name.value] == NewMaterial(a).value
      && r[a.name.value].name == a.name.value
      && r.Keys == lib.value.Keys + {a.name.value}
      && forall k :: k in lib.value && k != a.name.value ==> r[k] == lib.value[k]
  {
  }

  /** A delete removes exactly the named key. */
  lemma DeleteFacts(lib: Option<map<string, Material>>, name: string)
    ensures DeletedFromLibrary(lib, name).Ok? <==> lib.Some? && name in lib.value
    ensures DeletedFromLibrary(lib, name).Ok? ==>
      var r := DeletedFromLibrary(lib, name).value;
      r.Keys == lib.value.Keys - {name} && forall k :: k in r ==> r[k] == lib.value[k]
  {
  }

  /** Adding a material under a new name and deleting it again restores the library. */
  lemma AddThenDelete(lib: map<string, Material>, a: MaterialArgs)
    requires AddedToLibrary(Some(lib), a).Ok? && a.name.value !in lib
    ensures DeletedFromLibrary(Some(AddedToLibrary(Some(lib), a).value), a.name.value) == Ok(lib)
  {
    var r := AddedToLibrary(Some(lib), a).value;
    assert r - {a.name.value} == lib;
  }

  /** The `materials` object, whose library attribute is `None` when absent. */
  class MaterialsLibrary {
    var materialsLibrary: Option<map<string, Material>>

    /** `materials(firstTime, ...)` (materials.py:48-57): built from the pre-coded
        materials the first time, otherwise the stored library (the content of the
        file being loaded) is taken. */
    constructor (firstTime: bool, ej204: Tables, stored: map<string, Material>)
      ensures materialsLibrary == Some(if firstTime then BuildMaterials(ej204) else stored)
    {
      materialsLibrary := Some(if firstTime then BuildMaterials(ej204) else stored);
    }

    /** `saveMaterialsLibrary`: only its guard; the pickle file is not modelled. */
    method SaveMaterialsLibrary() returns (r: Result<()>)
      ensures r.Err? <==> materialsLibrary.None?
      ensures r.Err? ==> r.error == AttributeError
    {
      if materialsLibrary.None? {
        return Err(AttributeError);
      }
      return Ok(());
    }

    /** `loadMaterialsLibrary`: the library becomes the unpickled content. */
    method LoadMaterialsLibrary(stored: map<string, Material>)
      modifies this
      ensures materialsLibrary == Some(stored)
    {
      materialsLibrary := Some(stored);
    }

    method AddMeterial(a: MaterialArgs) returns (r: Result<()>)
      modifies this
      ensures r.Ok? <==> AddedToLibrary(old(materialsLibrary), a).Ok?
      ensures r.Err? ==> r.error == AddedToLibrary(old(materialsLibrary), a).error
      ensures materialsLibrary ==
        (if r.Ok? then Some(AddedToLibrary(old(materialsLibrary), a).value) else old(materialsLibrary))
    {
      if materialsLibrary.None? {
        return Err(AttributeError);
      }
      var mat := NewMaterial(a);
      if mat.Err? {
        return Err(mat.error);
      }
      materialsLibrary := Some(materialsLibrary.value[a.name.value := mat.value]);
      r := SaveMaterialsLibrary();
    }

    method DeleteMeterial(name: string) returns (r: Result<()>)
      modifies this
      ensures r.Ok? <==> DeletedFromLibrary(old(materialsLibrary), name).Ok?
      ensures r.Err? ==> r.error == DeletedFromLibrary(old(materialsLibrary), name).error
      ensures materialsLibrary ==
        (if r.Ok? then Some(DeletedFromLibrary(old(materialsLibrary), name).value) else old(materialsLibrary))
    {
      if materialsLibrary.None? {
        return Err(AttributeError);
      }
      if name !in materialsLibrary.value {
        return Err(KeyError);
      }
      materialsLibrary := Some(materialsLibrary.value - {name});
      r := SaveMaterialsLibrary();
    }
  }
}
