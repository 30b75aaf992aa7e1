/** What a caller can rely on when it sets a parameter and reads it back,
    proved from the accessors' contracts alone. */
module HamiltonianRoundTrips {
  import opened Vectormath
  import opened Constants
  import opened Neighbours
  import opened Engine
  import opened HamiltonianApi

  /** The flags read back are the flags written, on every variant. */
  method BoundaryConditionsRoundTrip(image: SpinSystem, periodical: array<bool>, out: array<bool>)
    requires image.Valid() && periodical.Length >= 3 && out.Length >= 3
    modifies image.hamiltonian, out
    ensures image.Valid()
    ensures out[..3] == old(periodical[..3])
  {
    var _ := SetBoundaryConditions(image, periodical);
    GetBoundaryConditions(image, out);
  }

  /** After setting mu_s, every unit-cell atom reads back that moment. */
  method MuSRoundTrip(image: SpinSystem, mu_s: real, out: array<real>)
    requires image.Valid() && image.hamiltonian.model.HeisenbergModel?
    requires image.geometry.nCellAtoms <= out.Length
    modifies image.hamiltonian.HeisenbergFrame(), out
    ensures image.Valid()
    ensures forall k :: 0 <= k < image.geometry.nCellAtoms ==> out[k] == mu_s
  {
    var _ := SetMuS(image, mu_s);
    GetMuS(image, out);
  }

  /** A positive field reads back with its magnitude and its normalised
      direction; any other magnitude reads back as no field along z. */
  method FieldRoundTrip(image: SpinSystem, magnitude: real, normal: array<real>,
                        normalize: Vector3 -> Vector3, out: array<real>)
    returns (got: Option<real>)
    requires image.Valid() && image.hamiltonian.model.HeisenbergModel?
    requires normal.Length >= 3 && out.Length >= 3
    modifies image.hamiltonian.HeisenbergFrame(), out
    ensures image.Valid()
    ensures magnitude > 0.0 ==>
      got == Some(magnitude) && FromBuffer(out) == normalize(old(FromBuffer(normal)))
    ensures magnitude <= 0.0 ==> got == Some(0.0) && FromBuffer(out) == UnitZ
  {
    var _ := SetField(image, magnitude, normal, normalize);
    got := GetField(image, out);
  }

  /** Anisotropy reads back with its magnitude and normalised axis when the
      unit cell has atoms, and as none along z when it has none. */
  method AnisotropyRoundTrip(image: SpinSystem, magnitude: real, normal: array<real>,
                             normalize: Vector3 -> Vector3, out: array<real>)
    returns (got: Option<real>)
    requires image.Valid() && image.hamiltonian.model.HeisenbergModel?
    requires normal.Length >= 3 && out.Length >= 3
    modifies image.hamiltonian.HeisenbergFrame(), out
    ensures image.Valid()
    ensures image.geometry.nCellAtoms > 0 ==>
      got == Some(magnitude) && FromBuffer(out) == normalize(old(FromBuffer(normal)))
    ensures image.geometry.nCellAtoms == 0 ==> got == Some(0.0) && FromBuffer(out) == UnitZ
  {
    var _ := SetAnisotropy(image, magnitude, normal, normalize);
    got := GetAnisotropy(image, out);
  }

  /** The shells read back are the first `nShells` values written, in order,
      and no explicit exchange pair survives. */
  method ExchangeRoundTrip(image: SpinSystem, nShells: nat, jij: array<real>, out: array<real>)
    returns (got: Option<int>)
    requires image.Valid() && image.hamiltonian.model.HeisenbergModel?
    requires nShells <= jij.Length && nShells <= out.Length
    modifies image.hamiltonian.HeisenbergFrame(), out
    ensures image.Valid()
    ensures got == Some(nShells) && out[..nShells] == old(jij[..nShells])
    ensures image.hamiltonian.model.heisenberg.exchangePairsIn == []
    ensures image.hamiltonian.model.heisenberg.exchangeMagnitudesIn == []
  {
    var _ := SetExchange(image, nShells, jij);
    got := GetExchangeShells(image, out);
  }

  /** The DMI shells and chirality read back are those written, and no
      explicit DMI pair survives. */
  method DMIRoundTrip(image: SpinSystem, nShells: nat, dij: array<real>, chirality: int,
                      out: array<real>)
    returns (gotShells: Option<int>, gotChirality: Option<int>)
    requires image.Valid() && image.hamiltonian.model.HeisenbergModel?
    requires nShells <= dij.Length && nShells <= out.Length
    modifies image.hamiltonian.HeisenbergFrame(), out
    ensures image.Valid()
    ensures gotShells == Some(nShells) && gotChirality == Some(chirality)
    ensures out[..nShells] == old(dij[..nShells])
    ensures image.hamiltonian.model.heisenberg.dmiPairsIn == []
    ensures image.hamiltonian.model.heisenberg.dmiMagnitudesIn == []
    ensures image.hamiltonian.model.heisenberg.dmiNormalsIn == []
  {
    var _ := SetDMI(image, nShells, dij, chirality);
    gotShells, gotChirality := GetDMIShells(image, out);
  }

  /** As written, setting the dipolar radius does not change the radius read
      back: a caller who sets any radius other than the stored one does not
      get it back. */
  method DDIRadiusNotStored(image: SpinSystem, radius: real,
                            pairsInRadius: (Geometry, real) -> seq<Pair>,
                            ddiFromPair: (Geometry, Pair) -> DDITerm)
    returns (got: Option<real>)
    requires image.Valid() && image.hamiltonian.model.HeisenbergModel?
    requires image.hamiltonian.model.heisenberg.ddiCutoffRadius != radius
    modifies image.hamiltonian.HeisenbergFrame()
    ensures image.Valid()
    ensures got == Some(old(image.hamiltonian.model.heisenberg.ddiCutoffRadius))
    ensures got != Some(radius)
  {
    var _ := SetDDI(image, radius, pairsInRadius, ddiFromPair);
    got := GetDDI(image);
  }

  /** With the radius stored, the radius read back is the radius set, and
      the dipolar lists describe the pairs within it. */
  method DDIRadiusRoundTrip(image: SpinSystem, radius: real,
                            pairsInRadius: (Geometry, real) -> seq<Pair>,
                            ddiFromPair: (Geometry, Pair) -> DDITerm)
    returns (got: Option<real>)
    requires image.Valid() && image.hamiltonian.model.HeisenbergModel?
    modifies image.hamiltonian.HeisenbergFrame()
    ensures image.Valid()
    ensures got == Some(radius)
    ensures image.hamiltonian.model.heisenberg.ddiPairs == pairsInRadius(image.geometry, radius)
  {
    var _ := SetDDIStoringRadius(image, radius, pairsInRadius, ddiFromPair);
    got := GetDDI(image);
  }

  /** On a Gaussian Hamiltonian every Heisenberg-only setter only warns,
      and the sequence runs with an empty frame: the Gaussian parameters and
      the boundary conditions stay as they were. */
  method GaussianIsUntouched(image: SpinSystem, nShells: nat, values: array<real>,
                             normal: array<real>, normalize: Vector3 -> Vector3,
                             pairsInRadius: (Geometry, real) -> seq<Pair>,
                             ddiFromPair: (Geometry, Pair) -> DDITerm)
    returns (reports: seq<Report>)
    requires image.Valid() && image.hamiltonian.model.GaussianModel?
    requires nShells <= values.Length && normal.Length >= 3
    ensures image.Valid()
    ensures |reports| == 6
    ensures forall k :: 0 <= k < |reports| ==> reports[k].Warning?
  {
    var r1 := SetMuS(image, 1.0);
    var r2 := SetField(image, 1.0, normal, normalize);
    var r3 := SetAnisotropy(image, 1.0, normal, normalize);
    var r4 := SetExchange(image, nShells, values);
    var r5 := SetDMI(image, nShells, values, 1);
    var r6 := SetDDI(image, 1.0, pairsInRadius, ddiFromPair);
    reports := [r1, r2, r3, r4, r5, r6];
  }
}
