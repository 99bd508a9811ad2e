/**
 * The decision logic of the decoder for the XML file that Quantum ESPRESSO `pw.x` writes from
 * version 6.2 on: the occupation flags kept for the older format, the magnetisation and spin
 * settings, the split of symmetry operations into crystal and lattice ones, the spin channels of
 * the band structure and the checks that reject it, and the cell volume.
 *
 * The decoded XML document is an input record; only the entries the decisions depend on are kept.
 */
module PwXml {
  import opened Wrappers
  import opened Strings

  // ---------------------------------------------------------------------------------------------
  // Errors
  // ---------------------------------------------------------------------------------------------

  /** The message of a failed `parser_assert`. */
  datatype AssertMessage =
    | OnlyOneSpinBandCount
    | InconsistentBandCount(nbnd: int, nbndUp: int, nbndDw: int)

  /** Why decoding stopped: a `QEXMLParsingError`, or the `TypeError` numpy raises. */
  datatype ParseError =
    | AssertFailed(message: AssertMessage)
    | AssertEqualFailed(actual: seq<int>, expected: seq<int>, note: string)
    | UnexpectedSymmetryType(symmetryType: string)
    | EigenvaluesNotNumeric

  /** `parser_assert`: passes exactly when the condition holds, otherwise raises with the message. */
  function ParserAssert(condition: bool, message: AssertMessage): (r: Outcome<ParseError>)
    ensures r.Pass? <==> condition
    ensures r.Fail? ==> r.error == AssertFailed(message)
  {
    if condition then Pass else Fail(AssertFailed(message))
  }

  /** `parser_assert_equal` on shape tuples: raises, carrying both values and the message, unless they are equal. */
  function ParserAssertEqual(actual: seq<int>, expected: seq<int>, message: string): (r: Outcome<ParseError>)
    ensures r.Pass? <==> actual == expected
    ensures r.Fail? ==> r.error == AssertEqualFailed(actual, expected, message)
  {
    if actual == expected then Pass else Fail(AssertEqualFailed(actual, expected, message))
  }

  // ---------------------------------------------------------------------------------------------
  // Cell volume
  // ---------------------------------------------------------------------------------------------

  datatype Vec3 = Vec3(x: real, y: real, z: real)

  function Abs(v: real): real {
    if v < 0.0 then -v else v
  }

  /** `cell_volume`: the absolute value of a1 . (a2 x a3). */
  function CellVolume(a1: Vec3, a2: Vec3, a3: Vec3): (v: real)
    ensures v >= 0.0
  {
    var mid0 := a2.y * a3.z - a2.z * a3.y;
    var mid1 := a2.z * a3.x - a2.x * a3.z;
    var mid2 := a2.x * a3.y - a2.y * a3.x;
    Abs(a1.x * mid0 + a1.y * mid1 + a1.z * mid2)
  }

  /** The determinant of the matrix with columns a1, a2, a3, expanded along its first row. */
  function Determinant(a1: Vec3, a2: Vec3, a3: Vec3): real {
    a1.x * (a2.y * a3.z - a3.y * a2.z)
    - a2.x * (a1.y * a3.z - a3.y * a1.z)
    + a3.x * (a1.y * a2.z - a2.y * a1.z)
  }

  /** The volume is the absolute value of the determinant of the three cell vectors. */
  lemma CellVolumeIsAbsDeterminant(a1: Vec3, a2: Vec3, a3: Vec3)
    ensures CellVolume(a1, a2, a3) == Abs(Determinant(a1, a2, a3))
  {
  }

  /** Exchanging two vectors changes only the sign of the determinant, so the volume stays. */
  lemma CellVolumeSymmetric(a1: Vec3, a2: Vec3, a3: Vec3)
    ensures CellVolume(a1, a2, a3) == CellVolume(a2, a1, a3)
    ensures CellVolume(a1, a2, a3) == CellVolume(a1, a3, a2)
    ensures CellVolume(a1, a2, a3) == CellVolume(a2, a3, a1)
  {
    CellVolumeIsAbsDeterminant(a1, a2, a3);
    CellVolumeIsAbsDeterminant(a2, a1, a3);
    CellVolumeIsAbsDeterminant(a1, a3, a2);
    CellVolumeIsAbsDeterminant(a2, a3, a1);
  }

  /** A cell spanned by a repeated vector is flat. */
  lemma CellVolumeOfRepeatedVector(a: Vec3, b: Vec3)
    ensures CellVolume(a, a, b) == 0.0
    ensures CellVolume(a, b, a) == 0.0
    ensures CellVolume(b, a, a) == 0.0
  {
  }

  /** Stretching one cell vector by k multiplies the volume by |k|. */
  lemma CellVolumeScales(k: real, a1: Vec3, a2: Vec3, a3: Vec3)
    ensures CellVolume(Vec3(k * a1.x, k * a1.y, k * a1.z), a2, a3) == Abs(k) * CellVolume(a1, a2, a3)
  {
    var mid0 := a2.y * a3.z - a2.z * a3.y;
    var mid1 := a2.z * a3.x - a2.x * a3.z;
    var mid2 := a2.x * a3.y - a2.y * a3.x;
    var t := a1.x * mid0 + a1.y * mid1 + a1.z * mid2;
    assert (k * a1.x) * mid0 + (k * a1.y) * mid1 + (k * a1.z) * mid2 == k * t;
    AbsOfProduct(k, t);
  }

  lemma AbsOfProduct(k: real, t: real)
    ensures Abs(k * t) == Abs(k) * Abs(t)
  {
    if k < 0.0 && t < 0.0 {
      assert k * t == (-k) * (-t);
    } else if k < 0.0 {
      assert -(k * t) == (-k) * t;
    } else if t < 0.0 {
      assert -(k * t) == k * (-t);
    }
  }

  // ---------------------------------------------------------------------------------------------
  // Occupations and the keys kept for the older format
  // ---------------------------------------------------------------------------------------------

  const FromInput := "from_input"

  datatype OccupationFlags = OccupationFlags(fixedOccupations: bool, tetrahedronMethod: bool, smearingMethod: bool)

  /** The three flags the older format carried, derived from the `occupations` string. */
  function OccupationFlagsOf(occupations: string): OccupationFlags {
    OccupationFlags(
      occupations == FromInput,
      Contains(occupations, "tetrahedra"),
      occupations != FromInput)
  }

  /** Exactly one of fixed occupations and smearing is set, and tetrahedra imply smearing. */
  lemma OccupationFlagsExclusive(occupations: string)
    ensures OccupationFlagsOf(occupations).fixedOccupations != OccupationFlagsOf(occupations).smearingMethod
    ensures OccupationFlagsOf(occupations).tetrahedronMethod ==> OccupationFlagsOf(occupations).smearingMethod
  {
    if occupations == FromInput {
      MissingCharNotContained(FromInput, "tetrahedra", 'h');
    }
  }

  /**
   * Whether the error about a missing smearing is logged: only when the older keys are requested,
   * the occupations are not fixed, and neither output/band_structure nor input/bands has `smearing`.
   */
  function SmearingMissingLogged(includeDeprecated: bool, occupations: string, smearingGiven: bool): (logged: bool)
    ensures logged ==> includeDeprecated && OccupationFlagsOf(occupations).smearingMethod && !smearingGiven
    ensures includeDeprecated && OccupationFlagsOf(occupations).smearingMethod && !smearingGiven ==> logged
  {
    includeDeprecated && occupations != FromInput && !smearingGiven
  }

  // ---------------------------------------------------------------------------------------------
  // Magnetisation and spin
  // ---------------------------------------------------------------------------------------------

  /** Per-species magnetisation entries, each of which may be absent from the document. */
  datatype Species = Species(startingMagnetization: Option<real>, magnetizationAngle1: Option<real>, magnetizationAngle2: Option<real>)

  datatype MagnetizationField = StartingMagnetization | MagnetizationAngle1 | MagnetizationAngle2

  function FieldOf(s: Species, field: MagnetizationField): Option<real> {
    match field
    case StartingMagnetization => s.startingMagnetization
    case MagnetizationAngle1 => s.magnetizationAngle1
    case MagnetizationAngle2 => s.magnetizationAngle2
  }

  /** One output list: per species, its entry or 0.0 when the species does not give it. */
  function MagnetizationColumn(species: seq<Species>, field: MagnetizationField): (col: seq<real>)
    ensures |col| == |species|
    ensures forall i :: 0 <= i < |species| && FieldOf(species[i], field).Some? ==> col[i] == FieldOf(species[i], field).value
    ensures forall i :: 0 <= i < |species| && FieldOf(species[i], field).None? ==> col[i] == 0.0
  {
    seq(|species|, i requires 0 <= i < |species| => FieldOf(species[i], field).GetOr(0.0))
  }

  /** The loop over species that fills the three magnetisation lists in document order. */
  method SpeciesMagnetization(species: seq<Species>) returns (starting: seq<real>, angle1: seq<real>, angle2: seq<real>)
    ensures starting == MagnetizationColumn(species, StartingMagnetization)
    ensures angle1 == MagnetizationColumn(species, MagnetizationAngle1)
    ensures angle2 == MagnetizationColumn(species, MagnetizationAngle2)
  {
    starting, angle1, angle2 := [], [], [];
    for i := 0 to |species|
      invariant starting == MagnetizationColumn(species[..i], StartingMagnetization)
      invariant angle1 == MagnetizationColumn(species[..i], MagnetizationAngle1)
      invariant angle2 == MagnetizationColumn(species[..i], MagnetizationAngle2)
    {
      starting := starting + [species[i].startingMagnetization.GetOr(0.0)];
      angle1 := angle1 + [species[i].magnetizationAngle1.GetOr(0.0)];
      angle2 := angle2 + [species[i].magnetizationAngle2.GetOr(0.0)];
    }
    assert species[..|species|] == species;
  }

  /** `constraint_mag`: the code of the spin constraint, 0 when none is given or the name is unknown. */
  function ConstraintMag(spinConstraints: Option<string>): (m: int)
    ensures m in {0, 1, 2, 3, 6}
    ensures spinConstraints.None? ==> m == 0
  {
    match spinConstraints
    case None => 0
    case Some(s) =>
      if s == "atomic" then 1
      else if s == "atomic direction" then 2
      else if s == "total" then 3
      else if s == "total direction" then 6
      else 0
  }

  /** The spin-constraint name behind each non-zero code. */
  function ConstraintName(m: int): Option<string> {
    if m == 1 then Some("atomic")
    else if m == 2 then Some("atomic direction")
    else if m == 3 then Some("total")
    else if m == 6 then Some("total direction")
    else None
  }

  /** Code and name are inverse to each other on the four known constraints. */
  lemma ConstraintMagRoundTrip(m: int, spinConstraints: Option<string>)
    ensures ConstraintName(m).Some? ==> ConstraintMag(ConstraintName(m)) == m
    ensures ConstraintMag(spinConstraints) != 0 ==> ConstraintName(ConstraintMag(spinConstraints)) == spinConstraints
  {
  }

  /** Time reversal is broken exactly in a non-collinear magnetic calculation. */
  function TimeReversal(nonColinear: bool, doMagnetization: bool): (t: bool)
    ensures !t <==> nonColinear && doMagnetization
  {
    !(nonColinear && doMagnetization)
  }

  /** `nspin`: 4 for non-collinear or spin-orbit, otherwise 2 for LSDA, otherwise 1. */
  function SpinComponents(lsda: bool, spinOrbit: bool, nonColinear: bool): (nspin: int)
    ensures nspin in {1, 2, 4}
    ensures nspin == 4 <==> nonColinear || spinOrbit
    ensures nspin == 1 <==> !nonColinear && !spinOrbit && !lsda
  {
    if nonColinear || spinOrbit then 4
    else if lsda then 2
    else 1
  }

  /** A calculation without time reversal always has four spin components. */
  lemma BrokenTimeReversalHasFourComponents(lsda: bool, spinOrbit: bool, nonColinear: bool, doMagnetization: bool)
    ensures !TimeReversal(nonColinear, doMagnetization) ==> SpinComponents(lsda, spinOrbit, nonColinear) == 4
  {
  }

  // ---------------------------------------------------------------------------------------------
  // Symmetries
  // ---------------------------------------------------------------------------------------------

  const CrystalSymmetry := "crystal_symmetry"
  const LatticeSymmetry := "lattice_symmetry"

  /** One `symmetry` element: its `info` text and name, the flat rotation and the optional entries. */
  datatype SymmetryEntry = SymmetryEntry(
    kind: string,
    name: string,
    rotation: seq<real>,
    equivalentAtoms: Option<seq<int>>,
    fractionalTranslation: Option<seq<real>>)

  /** One decoded symmetry operation. */
  datatype Symmetry = Symmetry(
    rotation: seq<seq<real>>,
    name: string,
    timeReversal: string,
    equivalentAtoms: Option<seq<int>>,
    fractionalTranslation: Option<seq<real>>)

  /** A Python slice index: negative ones count from the end, and both are clamped to the sequence. */
  function SliceIndex(i: int, n: nat): (k: nat)
    ensures k <= n
    ensures 0 <= i <= n ==> k == i
  {
    if i < 0 then (if i + n < 0 then 0 else i + n)
    else if i > n then n
    else i
  }

  /** Python's `s[i:j]`. */
  function PySlice<T>(s: seq<T>, i: int, j: int): (r: seq<T>)
    ensures 0 <= i <= j <= |s| ==> r == s[i..j]
    ensures |r| <= |s|
  {
    var a := SliceIndex(i, |s|);
    var b := SliceIndex(j, |s|);
    if a <= b then s[a..b] else []
  }

  /** The 3x3 rotation read row by row from the flat list of the document. */
  function RotationRows(flat: seq<real>): seq<seq<real>> {
    [PySlice(flat, 0, 3), PySlice(flat, 3, 6), PySlice(flat, 6, 9)]
  }

  /** The rows hold the first nine entries of the flat list in order; nine entries make a 3x3 matrix. */
  lemma RotationRowsRoundTrip(flat: seq<real>)
    ensures RotationRows(flat)[0] + RotationRows(flat)[1] + RotationRows(flat)[2]
      == if |flat| <= 9 then flat else flat[..9]
    ensures |flat| == 9 ==> forall i, j :: 0 <= i < 3 && 0 <= j < 3 ==> RotationRows(flat)[i][j] == flat[3 * i + j]
  {
    var rows := RotationRows(flat);
    if |flat| >= 9 {
      assert rows[0] + rows[1] + rows[2] == flat[..9];
    } else if |flat| >= 6 {
      assert rows[0] + rows[1] + rows[2] == flat;
    } else if |flat| >= 3 {
      assert rows[0] + rows[1] + rows[2] == flat;
    } else {
      assert rows[0] + rows[1] + rows[2] == flat;
    }
  }

  function SymmetryOf(e: SymmetryEntry): Symmetry {
    Symmetry(RotationRows(e.rotation), e.name, "0", e.equivalentAtoms, e.fractionalTranslation)
  }

  /** A crystal symmetry whose name is `inversion` in any case of ASCII letters. */
  predicate IsInversion(e: SymmetryEntry) {
    e.kind == CrystalSymmetry && Lower(e.name) == "inversion"
  }

  predicate KnownKind(e: SymmetryEntry) {
    e.kind == CrystalSymmetry || e.kind == LatticeSymmetry
  }

  datatype SymmetryTables = SymmetryTables(crystal: seq<Symmetry>, lattice: seq<Symmetry>, inversion: bool)

  /** The symmetry loop, entry by entry in document order, stopping at the first unknown kind. */
  function ClassifiedSymmetries(entries: seq<SymmetryEntry>): Result<SymmetryTables, ParseError>
    decreases |entries|
  {
    if |entries| == 0 then Success(SymmetryTables([], [], false))
    else
      match ClassifiedSymmetries(entries[..|entries| - 1])
      case Failure(err) => Failure(err)
      case Success(t) =>
        var e := entries[|entries| - 1];
        var t' := t.(inversion := t.inversion || IsInversion(e));
        if e.kind == CrystalSymmetry then Success(t'.(crystal := t.crystal + [SymmetryOf(e)]))
        else if e.kind == LatticeSymmetry then Success(t'.(lattice := t.lattice + [SymmetryOf(e)]))
        else Failure(UnexpectedSymmetryType(e.kind))
  }

  /** Reference definition: the decoded entries of one kind, in document order. */
  function SymmetriesOfKind(entries: seq<SymmetryEntry>, kind: string): seq<Symmetry> {
    if |entries| == 0 then []
    else (if entries[0].kind == kind then [SymmetryOf(entries[0])] else []) + SymmetriesOfKind(entries[1..], kind)
  }

  lemma {:induction false} SymmetriesOfKindSnoc(entries: seq<SymmetryEntry>, e: SymmetryEntry, kind: string)
    ensures SymmetriesOfKind(entries + [e], kind)
      == SymmetriesOfKind(entries, kind) + (if e.kind == kind then [SymmetryOf(e)] else [])
    decreases |entries|
  {
    if |entries| == 0 {
      assert entries + [e] == [e];
      assert [e][1..] == [];
    } else {
      assert (entries + [e])[1..] == entries[1..] + [e];
      SymmetriesOfKindSnoc(entries[1..], e, kind);
    }
  }

  /**
   * The loop accepts exactly the documents whose symmetries are all crystal or lattice ones; it then
   * keeps each kind in document order and reports inversion when some crystal symmetry is the
   * inversion.
   */
  lemma {:induction false} ClassifiedSymmetriesMeaning(entries: seq<SymmetryEntry>)
    ensures ClassifiedSymmetries(entries).Success? <==> forall i :: 0 <= i < |entries| ==> KnownKind(entries[i])
    ensures ClassifiedSymmetries(entries).Success? ==>
      && ClassifiedSymmetries(entries).value.crystal == SymmetriesOfKind(entries, CrystalSymmetry)
      && ClassifiedSymmetries(entries).value.lattice == SymmetriesOfKind(entries, LatticeSymmetry)
      && (ClassifiedSymmetries(entries).value.inversion <==> exists i :: 0 <= i < |entries| && IsInversion(entries[i]))
    decreases |entries|
  {
    if |entries| > 0 {
      var n := |entries| - 1;
      var prefix := entries[..n];
      var e := entries[n];
      assert entries == prefix + [e];
      assert forall i :: 0 <= i < n ==> prefix[i] == entries[i];
      ClassifiedSymmetriesMeaning(prefix);
      SymmetriesOfKindSnoc(prefix, e, CrystalSymmetry);
      SymmetriesOfKindSnoc(prefix, e, LatticeSymmetry);
      if ClassifiedSymmetries(prefix).Success? && IsInversion(e) {
        assert IsInversion(entries[n]);
      }
    }
  }

  /** A rejected document names the type of its first symmetry that is neither crystal nor lattice. */
  lemma {:induction false} ClassifiedSymmetriesRejects(entries: seq<SymmetryEntry>)
    ensures ClassifiedSymmetries(entries).Failure? ==>
      exists j :: 0 <= j < |entries| && !KnownKind(entries[j]) && (forall i :: 0 <= i < j ==> KnownKind(entries[i]))
        && ClassifiedSymmetries(entries).error == UnexpectedSymmetryType(entries[j].kind)
    decreases |entries|
  {
    if |entries| > 0 {
      var n := |entries| - 1;
      var prefix := entries[..n];
      assert forall i :: 0 <= i < n ==> prefix[i] == entries[i];
      ClassifiedSymmetriesRejects(prefix);
      if ClassifiedSymmetries(prefix).Success? {
        ClassifiedSymmetriesMeaning(prefix);
      }
    }
  }

  lemma {:induction false} ClassifiedFailurePersists(entries: seq<SymmetryEntry>, n: nat)
    requires n <= |entries|
    requires ClassifiedSymmetries(entries[..n]).Failure?
    ensures ClassifiedSymmetries(entries) == ClassifiedSymmetries(entries[..n])
    decreases |entries| - n
  {
    if n < |entries| {
      assert entries[..n + 1][..n] == entries[..n];
      ClassifiedFailurePersists(entries, n + 1);
    } else {
      assert entries[..n] == entries;
    }
  }

  /** The loop over the `symmetry` elements. */
  method ClassifySymmetries(entries: seq<SymmetryEntry>) returns (r: Result<SymmetryTables, ParseError>)
    ensures r == ClassifiedSymmetries(entries)
  {
    var crystal: seq<Symmetry> := [];
    var lattice: seq<Symmetry> := [];
    var inversion := false;
    for i := 0 to |entries|
      invariant ClassifiedSymmetries(entries[..i]) == Success(SymmetryTables(crystal, lattice, inversion))
    {
      var e := entries[i];
      assert entries[..i + 1][..i] == entries[..i];
      if e.kind == CrystalSymmetry && Lower(e.name) == "inversion" {
        inversion := true;
      }
      var sym := Symmetry(RotationRows(e.rotation), e.name, "0", e.equivalentAtoms, e.fractionalTranslation);
      if e.kind == CrystalSymmetry {
        crystal := crystal + [sym];
      } else if e.kind == LatticeSymmetry {
        lattice := lattice + [sym];
      } else {
        r := Failure(UnexpectedSymmetryType(e.kind));
        ClassifiedFailurePersists(entries, i + 1);
        return;
      }
    }
    assert entries[..|entries|] == entries;
    r := Success(SymmetryTables(crystal, lattice, inversion));
  }

  // ---------------------------------------------------------------------------------------------
  // Band structure
  // ---------------------------------------------------------------------------------------------

  /** One `ks_energies` element: the eigenvalues and occupations at one k-point. */
  datatype KsState = KsState(eigenvalues: seq<real>, occupations: seq<real>)

  /**
   * Whether the band structure is spin-polarised: not when neither `nbnd_up` nor `nbnd_dw` is given;
   * otherwise both must be given and add up to `nbnd`.
   */
  function SpinCase(nbnd: int, nbndUp: Option<int>, nbndDw: Option<int>): (r: Result<bool, ParseError>)
    ensures r == Success(false) <==> nbndUp.None? && nbndDw.None?
    ensures r == Success(true) <==> nbndUp.Some? && nbndDw.Some? && nbnd == nbndUp.value + nbndDw.value
    ensures r.Failure? && (nbndUp.None? || nbndDw.None?) ==> r.error == AssertFailed(OnlyOneSpinBandCount)
    ensures r.Failure? && nbndUp.Some? && nbndDw.Some? ==>
      r.error == AssertFailed(InconsistentBandCount(nbnd, nbndUp.value, nbndDw.value))
  {
    if nbndUp.None? && nbndDw.None? then Success(false)
    else
      match ParserAssert(nbndUp.Some? && nbndDw.Some?, OnlyOneSpinBandCount)
      case Fail(err) => Failure(err)
      case Pass =>
        match ParserAssert(nbnd == nbndUp.value + nbndDw.value,
                           InconsistentBandCount(nbnd, nbndUp.value, nbndDw.value))
        case Fail(err) => Failure(err)
        case Pass => Success(true)
  }

  function EigenvalueVectors(states: seq<KsState>): seq<seq<real>> {
    seq(|states|, k requires 0 <= k < |states| => states[k].eigenvalues)
  }

  function OccupationVectors(states: seq<KsState>): seq<seq<real>> {
    seq(|states|, k requires 0 <= k < |states| => states[k].occupations)
  }

  /** The row of one channel at one k-point: the whole vector, or its spin-up or spin-down part. */
  function ChannelRow(v: seq<real>, spins: bool, channel: nat, nbndUp: int, nbnd: int): seq<real> {
    if !spins then v
    else if channel == 0 then PySlice(v, 0, nbndUp)
    else PySlice(v, nbndUp, nbnd)
  }

  /** The nested list handed to numpy: one channel, or the spin-up and spin-down channels. */
  function Channels(vectors: seq<seq<real>>, spins: bool, nbndUp: int, nbnd: int): (c: seq<seq<seq<real>>>)
    ensures |c| == if spins then 2 else 1
    ensures forall ch :: 0 <= ch < |c| ==> |c[ch]| == |vectors|
  {
    seq(if spins then 2 else 1, ch requires 0 <= ch =>
      seq(|vectors|, k requires 0 <= k < |vectors| => ChannelRow(vectors[k], spins, ch, nbndUp, nbnd)))
  }

  /** Without spin there is one channel, holding the vectors unchanged. */
  lemma UnpolarisedChannels(vectors: seq<seq<real>>, nbndUp: int, nbnd: int)
    ensures Channels(vectors, false, nbndUp, nbnd) == [vectors]
  {
    var c := Channels(vectors, false, nbndUp, nbnd);
    assert c[0] == vectors;
  }

  /** The loop over `ks_energies` without spin: each k-point's vectors go whole into the one channel. */
  method SplitUnpolarised(states: seq<KsState>) returns (eigenvalues: seq<seq<seq<real>>>, occupations: seq<seq<seq<real>>>)
    ensures eigenvalues == [EigenvalueVectors(states)]
    ensures occupations == [OccupationVectors(states)]
  {
    var e0: seq<seq<real>> := [];
    var o0: seq<seq<real>> := [];
    for k := 0 to |states|
      invariant |e0| == |o0| == k
      invariant forall j :: 0 <= j < k ==> e0[j] == states[j].eigenvalues && o0[j] == states[j].occupations
    {
      e0 := e0 + [states[k].eigenvalues];
      o0 := o0 + [states[k].occupations];
    }
    assert e0 == EigenvalueVectors(states) && o0 == OccupationVectors(states);
    eigenvalues, occupations := [e0], [o0];
  }

  /** The loop over `ks_energies` with spin: each vector is cut at `nbnd_up` into the two channels. */
  method SplitPolarised(states: seq<KsState>, nbndUp: int, nbnd: int)
    returns (eigenvalues: seq<seq<seq<real>>>, occupations: seq<seq<seq<real>>>)
    ensures eigenvalues == Channels(EigenvalueVectors(states), true, nbndUp, nbnd)
    ensures occupations == Channels(OccupationVectors(states), true, nbndUp, nbnd)
  {
    var e0: seq<seq<real>> := [];
    var e1: seq<seq<real>> := [];
    var o0: seq<seq<real>> := [];
    var o1: seq<seq<real>> := [];
    for k := 0 to |states|
      invariant |e0| == |e1| == |o0| == |o1| == k
      invariant forall j :: 0 <= j < k ==>
        e0[j] == PySlice(states[j].eigenvalues, 0, nbndUp) && e1[j] == PySlice(states[j].eigenvalues, nbndUp, nbnd)
      invariant forall j :: 0 <= j < k ==>
        o0[j] == PySlice(states[j].occupations, 0, nbndUp) && o1[j] == PySlice(states[j].occupations, nbndUp, nbnd)
    {
      var s := states[k];
      e0 := e0 + [PySlice(s.eigenvalues, 0, nbndUp)];
      e1 := e1 + [PySlice(s.eigenvalues, nbndUp, nbnd)];
      o0 := o0 + [PySlice(s.occupations, 0, nbndUp)];
      o1 := o1 + [PySlice(s.occupations, nbndUp, nbnd)];
    }
    var ev := Channels(EigenvalueVectors(states), true, nbndUp, nbnd);
    var ov := Channels(OccupationVectors(states), true, nbndUp, nbnd);
    assert e0 == ev[0] && e1 == ev[1];
    assert o0 == ov[0] && o1 == ov[1];
    eigenvalues, occupations := [e0, e1], [o0, o1];
  }

  /** The band lists handed to numpy, built by one of the two loops. */
  method SplitBands(states: seq<KsState>, spins: bool, nbndUp: int, nbnd: int)
    returns (eigenvalues: seq<seq<seq<real>>>, occupations: seq<seq<seq<real>>>)
    ensures eigenvalues == Channels(EigenvalueVectors(states), spins, nbndUp, nbnd)
    ensures occupations == Channels(OccupationVectors(states), spins, nbndUp, nbnd)
  {
    if !spins {
      eigenvalues, occupations := SplitUnpolarised(states);
      UnpolarisedChannels(EigenvalueVectors(states), nbndUp, nbnd);
      UnpolarisedChannels(OccupationVectors(states), nbndUp, nbnd);
    } else {
      eigenvalues, occupations := SplitPolarised(states, nbndUp, nbnd);
    }
  }

  /** The shape numpy gives a nested list, and whether the array is numeric or holds Python lists. */
  datatype ArrayShape = ArrayShape(dims: seq<int>, numeric: bool)

  /**
   * `np.array(a).shape` for a list of lists of vectors: three dimensions when every level is
   * rectangular and not empty; a shorter shape and an array of objects when the lengths differ.
   */
  function NumpyShape(a: seq<seq<seq<real>>>): ArrayShape {
    if |a| == 0 then ArrayShape([0], true)
    else if exists i :: 0 <= i < |a| && |a[i]| != |a[0]| then ArrayShape([|a|], false)
    else if |a[0]| == 0 then ArrayShape([|a|, 0], true)
    else if forall i, j :: 0 <= i < |a| && 0 <= j < |a[i]| ==> |a[i][j]| == |a[0][0]|
    then ArrayShape([|a|, |a[0]|, |a[0][0]|], true)
    else ArrayShape([|a|, |a[0]|], false)
  }

  /** `a` is a rectangular c x k x b block. */
  predicate HasShape(a: seq<seq<seq<real>>>, c: int, k: int, b: int) {
    && |a| == c
    && (forall i :: 0 <= i < |a| ==> |a[i]| == k)
    && (forall i, j :: 0 <= i < |a| && 0 <= j < |a[i]| ==> |a[i][j]| == b)
  }

  /** numpy reports a three-dimensional shape exactly for a rectangular, non-empty block, and it is numeric. */
  lemma NumpyShapeThreeD(a: seq<seq<seq<real>>>, c: int, k: int, b: int)
    ensures NumpyShape(a).dims == [c, k, b] <==> c > 0 && k > 0 && HasShape(a, c, k, b)
    ensures |NumpyShape(a).dims| == 3 ==> NumpyShape(a).numeric
  {
    if c > 0 && k > 0 && HasShape(a, c, k, b) {
      assert |a[0]| == k;
      assert |a[0][0]| == b;
    }
  }

  datatype Bands = Bands(eigenvalues: seq<seq<seq<real>>>, occupations: seq<seq<seq<real>>>)

  /** The shape the band arrays must have: (1, nks, nbnd), or (2, nks, nbnd_up) when spin-polarised. */
  function ExpectedShape(nks: int, nbnd: int, nbndUp: int, spins: bool): seq<int> {
    [if spins then 2 else 1, nks, if spins then nbndUp else nbnd]
  }

  /** The band arrays, after the multiplication that fails on a ragged array and the two shape checks. */
  function CheckedBands(states: seq<KsState>, nks: int, nbnd: int, nbndUp: int, spins: bool): Result<Bands, ParseError> {
    var eigenvalues := Channels(EigenvalueVectors(states), spins, nbndUp, nbnd);
    var occupations := Channels(OccupationVectors(states), spins, nbndUp, nbnd);
    var expected := ExpectedShape(nks, nbnd, nbndUp, spins);
    if !NumpyShape(eigenvalues).numeric then Failure(EigenvaluesNotNumeric)
    else
      match ParserAssertEqual(NumpyShape(eigenvalues).dims, expected, "Unexpected shape of band_eigenvalues")
      case Fail(err) => Failure(err)
      case Pass =>
        match ParserAssertEqual(NumpyShape(occupations).dims, expected, "Unexpected shape of band_occupations")
        case Fail(err) => Failure(err)
        case Pass => Success(Bands(eigenvalues, occupations))
  }

  // ---------------------------------------------------------------------------------------------
  // The whole decoder
  // ---------------------------------------------------------------------------------------------

  /** The entries of the decoded XML document the decisions read. */
  datatype PwXmlDocument = PwXmlDocument(
    occupations: string,
    smearingGiven: bool,
    species: seq<Species>,
    spinConstraints: Option<string>,
    lsda: bool,
    spinOrbit: bool,
    nonColinear: bool,
    doMagnetization: bool,
    symmetries: seq<SymmetryEntry>,
    nks: int,
    nbnd: int,
    nbndUp: Option<int>,
    nbndDw: Option<int>,
    ksStates: seq<KsState>,
    a1: Vec3,
    a2: Vec3,
    a3: Vec3)

  /**
   * The values worked out before the symmetry loop: the occupation flags and the smearing log,
   * the per-species magnetisation, the spin constraint and the spin settings. None of them can
   * fail, so they are known, and the smearing error is logged, whatever the rest of the document holds.
   */
  datatype Header = Header(
    constraintMag: int,
    occupations: string,
    deprecated: Option<OccupationFlags>,
    smearingMissingLogged: bool,
    startingMagnetization: seq<real>,
    magnetizationAngle1: seq<real>,
    magnetizationAngle2: seq<real>,
    lsda: bool,
    spinOrbit: bool,
    nonColinear: bool,
    doMagnetization: bool,
    timeReversal: bool,
    numberOfSpinComponents: int)

  /** The decoded values the model keeps. */
  datatype PwXmlData = PwXmlData(
    header: Header,
    symmetries: seq<Symmetry>,
    latticeSymmetries: seq<Symmetry>,
    inversionSymmetry: bool,
    numberOfKPoints: int,
    numberOfBands: int,
    bands: Bands,
    volume: real)

  /** `nbnd_up` where it is used: only in the spin-polarised case, where it is present. */
  function UpCount(doc: PwXmlDocument): int {
    doc.nbndUp.GetOr(0)
  }

  function HeaderOf(doc: PwXmlDocument, includeDeprecated: bool): Header {
    Header(
      ConstraintMag(doc.spinConstraints),
      doc.occupations,
      if includeDeprecated then Some(OccupationFlagsOf(doc.occupations)) else None,
      SmearingMissingLogged(includeDeprecated, doc.occupations, doc.smearingGiven),
      MagnetizationColumn(doc.species, StartingMagnetization),
      MagnetizationColumn(doc.species, MagnetizationAngle1),
      MagnetizationColumn(doc.species, MagnetizationAngle2),
      doc.lsda,
      doc.spinOrbit,
      doc.nonColinear,
      doc.doMagnetization,
      TimeReversal(doc.nonColinear, doc.doMagnetization),
      SpinComponents(doc.lsda, doc.spinOrbit, doc.nonColinear))
  }

  function Assembled(doc: PwXmlDocument, header: Header, tables: SymmetryTables, spins: bool, bands: Bands): PwXmlData {
    PwXmlData(
      header,
      tables.crystal,
      tables.lattice,
      tables.inversion,
      doc.nks,
      if spins then doc.nbnd / 2 else doc.nbnd,
      bands,
      CellVolume(doc.a1, doc.a2, doc.a3))
  }

  /**
   * `parse_pw_xml_post_6_2`: the header values, then the symmetry loop, then the band counts, then
   * the band arrays. The first error raised ends decoding.
   */
  function Decode(doc: PwXmlDocument, includeDeprecated: bool): Result<PwXmlData, ParseError> {
    var header := HeaderOf(doc, includeDeprecated);
    match ClassifiedSymmetries(doc.symmetries)
    case Failure(err) => Failure(err)
    case Success(tables) =>
      match SpinCase(doc.nbnd, doc.nbndUp, doc.nbndDw)
      case Failure(err) => Failure(err)
      case Success(spins) =>
        match CheckedBands(doc.ksStates, doc.nks, doc.nbnd, UpCount(doc), spins)
        case Failure(err) => Failure(err)
        case Success(bands) => Success(Assembled(doc, header, tables, spins, bands))
  }

  /** The band arrays: the loop over `ks_energies`, numpy's conversion and the two shape checks. */
  method BuildBands(states: seq<KsState>, nks: int, nbnd: int, nbndUp: int, spins: bool) returns (r: Result<Bands, ParseError>)
    ensures r == CheckedBands(states, nks, nbnd, nbndUp, spins)
  {
    var eigenvalues, occupations := SplitBands(states, spins, nbndUp, nbnd);
    var expected := [if spins then 2 else 1, nks, if spins then nbndUp else nbnd];
    var eigenShape := NumpyShape(eigenvalues);
    if !eigenShape.numeric {
      return Failure(EigenvaluesNotNumeric);
    }
    var check := ParserAssertEqual(eigenShape.dims, expected, "Unexpected shape of band_eigenvalues");
    if check.Fail? {
      return Failure(check.error);
    }
    check := ParserAssertEqual(NumpyShape(occupations).dims, expected, "Unexpected shape of band_occupations");
    if check.Fail? {
      return Failure(check.error);
    }
    r := Success(Bands(eigenvalues, occupations));
  }

  /** The header values, in the order the decoder works them out. */
  method DecodeHeader(doc: PwXmlDocument, includeDeprecated: bool) returns (h: Header)
    ensures h == HeaderOf(doc, includeDeprecated)
  {
    var flags: Option<OccupationFlags> := None;
    if includeDeprecated {
      flags := Some(OccupationFlagsOf(doc.occupations));
    }
    var logged := SmearingMissingLogged(includeDeprecated, doc.occupations, doc.smearingGiven);
    var starting, angle1, angle2 := SpeciesMagnetization(doc.species);
    var constraintMag := ConstraintMag(doc.spinConstraints);
    var timeReversal := TimeReversal(doc.nonColinear, doc.doMagnetization);
    var nspin := SpinComponents(doc.lsda, doc.spinOrbit, doc.nonColinear);
    h := Header(
      constraintMag, doc.occupations, flags, logged, starting, angle1, angle2,
      doc.lsda, doc.spinOrbit, doc.nonColinear, doc.doMagnetization, timeReversal, nspin);
  }

  /**
   * The decoder, step by step in the order of the source. `logged` is whether the missing-smearing
   * error was logged; it is logged before the checks that can raise, so it is reported for every
   * document, decoded or not.
   */
  method ParsePwXml(doc: PwXmlDocument, includeDeprecated: bool) returns (logged: bool, r: Result<PwXmlData, ParseError>)
    ensures logged <==> includeDeprecated && OccupationFlagsOf(doc.occupations).smearingMethod && !doc.smearingGiven
    ensures r == Decode(doc, includeDeprecated)
    ensures r.Success? ==> r.value.header.smearingMissingLogged == logged
  {
    var header := DecodeHeader(doc, includeDeprecated);
    logged := header.smearingMissingLogged;
    var tables := ClassifySymmetries(doc.symmetries);
    if tables.Failure? {
      return logged, Failure(tables.error);
    }
    var spinCase := SpinCase(doc.nbnd, doc.nbndUp, doc.nbndDw);
    if spinCase.Failure? {
      return logged, Failure(spinCase.error);
    }
    var bands := BuildBands(doc.ksStates, doc.nks, doc.nbnd, doc.nbndUp.GetOr(0), spinCase.value);
    if bands.Failure? {
      return logged, Failure(bands.error);
    }
    r := Success(Assembled(doc, header, tables.value, spinCase.value, bands.value));
  }

  // ---------------------------------------------------------------------------------------------
  // Properties of the decoder
  // ---------------------------------------------------------------------------------------------

  /** A decoded band structure is a rectangular block of the shape the counts in the document declare. */
  lemma DecodedBandsShape(doc: PwXmlDocument, includeDeprecated: bool)
    requires Decode(doc, includeDeprecated).Success?
    ensures var d := Decode(doc, includeDeprecated).value;
      var spins := doc.nbndUp.Some?;
      && |doc.ksStates| == doc.nks > 0
      && HasShape(d.bands.eigenvalues, if spins then 2 else 1, doc.nks, if spins then UpCount(doc) else doc.nbnd)
      && HasShape(d.bands.occupations, if spins then 2 else 1, doc.nks, if spins then UpCount(doc) else doc.nbnd)
  {
    var spins := SpinCase(doc.nbnd, doc.nbndUp, doc.nbndDw).value;
    var bands := CheckedBands(doc.ksStates, doc.nks, doc.nbnd, UpCount(doc), spins).value;
    var c := if spins then 2 else 1;
    var b := if spins then UpCount(doc) else doc.nbnd;
    NumpyShapeThreeD(bands.eigenvalues, c, doc.nks, b);
    NumpyShapeThreeD(bands.occupations, c, doc.nks, b);
  }

  /** Without spin counts the bands are the document's vectors, unsliced, in one channel. */
  lemma UnpolarisedBandsVerbatim(doc: PwXmlDocument, includeDeprecated: bool)
    requires Decode(doc, includeDeprecated).Success?
    requires doc.nbndUp.None?
    ensures var d := Decode(doc, includeDeprecated).value;
      && d.bands.eigenvalues == [EigenvalueVectors(doc.ksStates)]
      && d.bands.occupations == [OccupationVectors(doc.ksStates)]
      && d.numberOfBands == doc.nbnd
  {
    UnpolarisedChannels(EigenvalueVectors(doc.ksStates), UpCount(doc), doc.nbnd);
    UnpolarisedChannels(OccupationVectors(doc.ksStates), UpCount(doc), doc.nbnd);
  }

  /** Two adjacent Python slices make up the slice that spans both. */
  lemma PySliceSplit<T>(v: seq<T>, u: int, n: int)
    requires 0 <= u <= n
    ensures PySlice(v, 0, u) + PySlice(v, u, n) == PySlice(v, 0, n)
  {
  }

  /**
   * When the eigenvalue vectors hold exactly `nbnd` values, a spin-polarised band structure is only
   * accepted with as many spin-up as spin-down bands; `number_of_bands` is then that count, and
   * each k-point's two channels put back together give its vector.
   */
  lemma PolarisedBandsHalves(doc: PwXmlDocument, includeDeprecated: bool)
    requires Decode(doc, includeDeprecated).Success?
    requires doc.nbndUp.Some?
    requires forall k :: 0 <= k < |doc.ksStates| ==> |doc.ksStates[k].eigenvalues| == doc.nbnd
    ensures doc.nbndDw == doc.nbndUp
    ensures Decode(doc, includeDeprecated).value.numberOfBands == doc.nbndUp.value
    ensures forall k :: 0 <= k < |doc.ksStates| ==>
      Decode(doc, includeDeprecated).value.bands.eigenvalues[0][k]
        + Decode(doc, includeDeprecated).value.bands.eigenvalues[1][k]
      == doc.ksStates[k].eigenvalues
  {
    var d := Decode(doc, includeDeprecated).value;
    var up := doc.nbndUp.value;
    DecodedBandsShape(doc, includeDeprecated);
    var eig := d.bands.eigenvalues;
    var v := doc.ksStates[0].eigenvalues;
    assert eig[0][0] == PySlice(v, 0, up);
    assert eig[1][0] == PySlice(v, up, doc.nbnd);
    assert |eig[0][0]| == up && |eig[1][0]| == up;
    assert up <= doc.nbnd;
    forall k | 0 <= k < |doc.ksStates|
      ensures eig[0][k] + eig[1][k] == doc.ksStates[k].eigenvalues
    {
      PySliceSplit(doc.ksStates[k].eigenvalues, up, doc.nbnd);
    }
  }

  /** Different spin-up and spin-down counts over complete vectors give a ragged array, which numpy refuses to scale. */
  lemma UnequalSpinCountsRejected(doc: PwXmlDocument, includeDeprecated: bool)
    requires forall i :: 0 <= i < |doc.symmetries| ==> KnownKind(doc.symmetries[i])
    requires doc.nbndUp.Some? && doc.nbndDw.Some? && 0 <= doc.nbndUp.value && 0 <= doc.nbndDw.value
    requires doc.nbnd == doc.nbndUp.value + doc.nbndDw.value
    requires doc.nbndUp != doc.nbndDw
    requires |doc.ksStates| > 0
    requires forall k :: 0 <= k < |doc.ksStates| ==> |doc.ksStates[k].eigenvalues| == doc.nbnd
    ensures Decode(doc, includeDeprecated) == Failure(EigenvaluesNotNumeric)
  {
    ClassifiedSymmetriesMeaning(doc.symmetries);
    var eig := Channels(EigenvalueVectors(doc.ksStates), true, UpCount(doc), doc.nbnd);
    assert |eig[0][0]| != |eig[1][0]|;
    assert !NumpyShape(eig).numeric;
  }

  /** Vectors of exactly `nbnd` values, split evenly when spin-polarised, make a rectangular block. */
  lemma ChannelsOfCompleteVectors(vectors: seq<seq<real>>, spins: bool, nbndUp: int, nbnd: int)
    requires spins ==> 0 <= nbndUp && nbnd == 2 * nbndUp
    requires forall k :: 0 <= k < |vectors| ==> |vectors[k]| == nbnd
    ensures HasShape(Channels(vectors, spins, nbndUp, nbnd), if spins then 2 else 1, |vectors|, if spins then nbndUp else nbnd)
  {
  }

  /** Spin counts present in a complete, consistent and equal form, with complete vectors, are accepted. */
  lemma WellFormedBandsAccepted(doc: PwXmlDocument, includeDeprecated: bool)
    requires forall i :: 0 <= i < |doc.symmetries| ==> KnownKind(doc.symmetries[i])
    requires (doc.nbndUp.None? && doc.nbndDw.None?) ||
      (doc.nbndUp.Some? && doc.nbndUp == doc.nbndDw && 0 <= doc.nbndUp.value && doc.nbnd == 2 * doc.nbndUp.value)
    requires |doc.ksStates| == doc.nks > 0
    requires forall k :: 0 <= k < |doc.ksStates| ==> |doc.ksStates[k].eigenvalues| == doc.nbnd
    requires forall k :: 0 <= k < |doc.ksStates| ==> |doc.ksStates[k].occupations| == doc.nbnd
    ensures Decode(doc, includeDeprecated).Success?
  {
    ClassifiedSymmetriesMeaning(doc.symmetries);
    var spins := doc.nbndUp.Some?;
    var c := if spins then 2 else 1;
    var b := if spins then UpCount(doc) else doc.nbnd;
    var eig := Channels(EigenvalueVectors(doc.ksStates), spins, UpCount(doc), doc.nbnd);
    var occ := Channels(OccupationVectors(doc.ksStates), spins, UpCount(doc), doc.nbnd);
    ChannelsOfCompleteVectors(EigenvalueVectors(doc.ksStates), spins, UpCount(doc), doc.nbnd);
    ChannelsOfCompleteVectors(OccupationVectors(doc.ksStates), spins, UpCount(doc), doc.nbnd);
    NumpyShapeThreeD(eig, c, doc.nks, b);
    NumpyShapeThreeD(occ, c, doc.nks, b);
  }

  /**
   * The symmetry check comes first: the first symmetry of an unknown type is reported, whatever the
   * band counts and bands hold.
   */
  lemma UnknownSymmetryReportedFirst(doc: PwXmlDocument, includeDeprecated: bool, j: int)
    requires 0 <= j < |doc.symmetries| && !KnownKind(doc.symmetries[j])
    requires forall i :: 0 <= i < j ==> KnownKind(doc.symmetries[i])
    ensures Decode(doc, includeDeprecated) == Failure(UnexpectedSymmetryType(doc.symmetries[j].kind))
  {
    ClassifiedSymmetriesMeaning(doc.symmetries);
    ClassifiedSymmetriesRejects(doc.symmetries);
  }

  /** Ten bands split as six up and three down are refused with the counts in the message. */
  lemma InconsistentBandCountReported(doc: PwXmlDocument, includeDeprecated: bool)
    requires forall i :: 0 <= i < |doc.symmetries| ==> KnownKind(doc.symmetries[i])
    requires doc.nbnd == 10 && doc.nbndUp == Some(6) && doc.nbndDw == Some(3)
    ensures Decode(doc, includeDeprecated) == Failure(AssertFailed(InconsistentBandCount(10, 6, 3)))
  {
    ClassifiedSymmetriesMeaning(doc.symmetries);
  }
}
