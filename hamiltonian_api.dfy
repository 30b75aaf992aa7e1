/** The accessor layer: free-standing setters and getters that look up an
    image's Hamiltonian, check its name, and then either update the
    Heisenberg parameters in place or report that the operation is not
    supported on that variant. Getters write into buffers the caller owns. */
module HamiltonianApi {
  import opened Vectormath
  import opened Constants
  import opened Neighbours
  import opened Engine

  datatype Option<T> = None | Some(value: T)

  /** What a setter sends to the log: an info line on success, or a warning
      that names the operation and the variant it cannot be applied to. */
  datatype Report = Info | Warning(message: string)

  /** One spin-system image: its site count, its geometry and the
      Hamiltonian it owns. */
  class SpinSystem {
    const nos: nat
    const geometry: Geometry
    const hamiltonian: Hamiltonian

    /** The unit cell fits in the lattice, and a Heisenberg Hamiltonian has a
        moment for every atom of the unit cell. */
    ghost predicate Valid()
      reads this, hamiltonian, hamiltonian.Variant()
    {
      && geometry.nCellAtoms <= nos
      && hamiltonian.Valid()
      && (hamiltonian.model.HeisenbergModel? ==>
            geometry.nCellAtoms <= |hamiltonian.model.heisenberg.mu_s|)
    }

    constructor (nos: nat, geometry: Geometry, hamiltonian: Hamiltonian)
      requires geometry.nCellAtoms <= nos && hamiltonian.Valid()
      requires hamiltonian.model.HeisenbergModel? ==>
                 geometry.nCellAtoms <= |hamiltonian.model.heisenberg.mu_s|
      ensures Valid()
      ensures this.nos == nos && this.geometry == geometry && this.hamiltonian == hamiltonian
    {
      this.nos, this.geometry, this.hamiltonian := nos, geometry, hamiltonian;
    }
  }

  /*------------------------------------------------------------------------*/
  /*  Setters                                                               */
  /*------------------------------------------------------------------------*/

  /** Copies the three periodicity flags into the Hamiltonian, whatever its
      variant, without rebuilding anything. */
  method SetBoundaryConditions(image: SpinSystem, periodical: array<bool>) returns (report: Report)
    requires image.Valid() && periodical.Length >= 3
    modifies image.hamiltonian
    ensures image.Valid()
    ensures report == Info
    ensures image.hamiltonian.boundaryConditions == periodical[..3]
    ensures unchanged(image.hamiltonian.Variant())
  {
    var ham := image.hamiltonian;
    ham.boundaryConditions := ham.boundaryConditions[0 := periodical[0]];
    ham.boundaryConditions := ham.boundaryConditions[1 := periodical[1]];
    ham.boundaryConditions := ham.boundaryConditions[2 := periodical[2]];
    report := Info;
  }

  /** Gives every site the moment `mu_s`, keeping the number of sites. */
  method SetMuS(image: SpinSystem, mu_s: real) returns (report: Report)
    requires image.Valid()
    modifies image.hamiltonian.HeisenbergFrame()
    ensures image.Valid()
    ensures image.hamiltonian.model.HeisenbergModel? ==>
      var h := image.hamiltonian.model.heisenberg;
      && report == Info
      && |h.mu_s| == |old(h.mu_s)|
      && (forall k :: 0 <= k < |h.mu_s| ==> h.mu_s[k] == mu_s)
      && h.Parameters() == old(h.Parameters()).(mu_s := h.mu_s)
      && h.interactionUpdates == old(h.interactionUpdates)
      && h.energyContributionUpdates == old(h.energyContributionUpdates)
    ensures !image.hamiltonian.model.HeisenbergModel? ==>
      && report == Warning("mu_s cannot be set on " + image.hamiltonian.Name())
      && unchanged(image.hamiltonian.Variant())
  {
    var ham := image.hamiltonian;
    if ham.Name() == "Heisenberg" {
      var h := ham.model.heisenberg;
      var i := 0;
      while i < |h.mu_s|
        invariant 0 <= i <= |h.mu_s| == |old(h.mu_s)|
        invariant forall k :: 0 <= k < i ==> h.mu_s[k] == mu_s
        invariant h.Parameters() == old(h.Parameters()).(mu_s := h.mu_s)
        invariant h.interactionUpdates == old(h.interactionUpdates)
        invariant h.energyContributionUpdates == old(h.energyContributionUpdates)
      {
        h.mu_s := h.mu_s[i := mu_s];
        i := i + 1;
      }
      report := Info;
    } else {
      report := Warning("mu_s cannot be set on " + ham.Name());
    }
  }

  /** Stores the field magnitude in energy units (times the Bohr magneton)
      and the normalised direction, then rebuilds the energy contributions. */
  method SetField(image: SpinSystem, magnitude: real, normal: array<real>,
                  normalize: Vector3 -> Vector3) returns (report: Report)
    requires image.Valid() && normal.Length >= 3
    modifies image.hamiltonian.HeisenbergFrame()
    ensures image.Valid()
    ensures image.hamiltonian.model.HeisenbergModel? ==>
      var h := image.hamiltonian.model.heisenberg;
      && report == Info
      && h.Parameters() == old(h.Parameters()).(
           externalFieldMagnitude := magnitude * MuB,
           externalFieldNormal := normalize(FromBuffer(normal)))
      && h.interactionUpdates == old(h.interactionUpdates)
      && h.energyContributionUpdates == old(h.energyContributionUpdates) + 1
    ensures !image.hamiltonian.model.HeisenbergModel? ==>
      && report == Warning("External field cannot be set on " + image.hamiltonian.Name())
      && unchanged(image.hamiltonian.Variant())
  {
    var ham := image.hamiltonian;
    if ham.Name() == "Heisenberg" {
      var h := ham.model.heisenberg;
      var newNormal := normalize(Vector3(normal[0], normal[1], normal[2]));
      h.externalFieldMagnitude := magnitude * MuB;
      h.externalFieldNormal := newNormal;
      h.UpdateEnergyContributions();
      report := Info;
    } else {
      report := Warning("External field cannot be set on " + ham.Name());
    }
  }

  /** The loop that builds the anisotropy index and magnitude lists: one
      entry per unit-cell atom, the indices counting up from zero and every
      magnitude equal to `magnitude`. */
  method CellAtomLists(nCellAtoms: nat, magnitude: real)
    returns (indices: seq<int>, magnitudes: seq<real>)
    ensures |indices| == nCellAtoms && |magnitudes| == nCellAtoms
    ensures forall k :: 0 <= k < nCellAtoms ==> indices[k] == k
    ensures forall k :: 0 <= k < nCellAtoms ==> magnitudes[k] == magnitude
  {
    var newIndices := new int[nCellAtoms];
    var newMagnitudes := new real[nCellAtoms];
    for i := 0 to nCellAtoms
      invariant forall k :: 0 <= k < i ==> newIndices[k] == k
      invariant forall k :: 0 <= k < i ==> newMagnitudes[k] == magnitude
    {
      newIndices[i] := i;
      newMagnitudes[i] := magnitude;
    }
    indices, magnitudes := newIndices[..], newMagnitudes[..];
  }

  /** Makes every unit-cell atom anisotropic with the same magnitude, gives
      every site the same normalised axis, and rebuilds the energy
      contributions. */
  method SetAnisotropy(image: SpinSystem, magnitude: real, normal: array<real>,
                       normalize: Vector3 -> Vector3) returns (report: Report)
    requires image.Valid() && normal.Length >= 3
    modifies image.hamiltonian.HeisenbergFrame()
    ensures image.Valid()
    ensures image.hamiltonian.model.HeisenbergModel? ==>
      var h := image.hamiltonian.model.heisenberg;
      var n := image.geometry.nCellAtoms;
      && report == Info
      && |h.anisotropyIndices| == n
      && (forall k :: 0 <= k < n ==> h.anisotropyIndices[k] == k)
      && |h.anisotropyMagnitudes| == n
      && (forall k :: 0 <= k < n ==> h.anisotropyMagnitudes[k] == magnitude)
      && |h.anisotropyNormals| == image.nos
      && (forall k :: 0 <= k < image.nos ==>
            h.anisotropyNormals[k] == normalize(FromBuffer(normal)))
      && h.Parameters() == old(h.Parameters()).(
           anisotropyIndices := h.anisotropyIndices,
           anisotropyMagnitudes := h.anisotropyMagnitudes,
           anisotropyNormals := h.anisotropyNormals)
      && h.interactionUpdates == old(h.interactionUpdates)
      && h.energyContributionUpdates == old(h.energyContributionUpdates) + 1
    ensures !image.hamiltonian.model.HeisenbergModel? ==>
      && report == Warning("Anisotropy cannot be set on " + image.hamiltonian.Name())
      && unchanged(image.hamiltonian.Variant())
  {
    var ham := image.hamiltonian;
    if ham.Name() == "Heisenberg" {
      var h := ham.model.heisenberg;
      var newIndices, newMagnitudes := CellAtomLists(image.geometry.nCellAtoms, magnitude);
      var newNormal := normalize(Vector3(normal[0], normal[1], normal[2]));
      var newNormals := seq(image.nos, _ => newNormal);
      h.anisotropyIndices := newIndices;
      h.anisotropyMagnitudes := newMagnitudes;
      h.anisotropyNormals := newNormals;
      h.UpdateEnergyContributions();
      report := Info;
    } else {
      report := Warning("Anisotropy cannot be set on " + ham.Name());
    }
  }

  /** Replaces the exchange interaction by the first `nShells` shell
      magnitudes of `jij`, drops any explicit exchange pairs, and rebuilds
      the interactions. */
  method SetExchange(image: SpinSystem, nShells: nat, jij: array<real>) returns (report: Report)
    requires image.Valid() && nShells <= jij.Length
    modifies image.hamiltonian.HeisenbergFrame()
    ensures image.Valid()
    ensures image.hamiltonian.model.HeisenbergModel? ==>
      var h := image.hamiltonian.model.heisenberg;
      && report == Info
      && h.Parameters() == old(h.Parameters()).(
           exchangeShellMagnitudes := jij[..nShells],
           exchangePairsIn := [],
           exchangeMagnitudesIn := [])
      && h.interactionUpdates == old(h.interactionUpdates) + 1
      && h.energyContributionUpdates == old(h.energyContributionUpdates)
    ensures !image.hamiltonian.model.HeisenbergModel? ==>
      && report == Warning("Exchange cannot be set on " + image.hamiltonian.Name())
      && unchanged(image.hamiltonian.Variant())
  {
    var ham := image.hamiltonian;
    if ham.Name() == "Heisenberg" {
      var h := ham.model.heisenberg;
      h.exchangeShellMagnitudes := jij[..nShells];
      h.exchangePairsIn := [];
      h.exchangeMagnitudesIn := [];
      h.UpdateInteractions();
      report := Info;
    } else {
      report := Warning("Exchange cannot be set on " + ham.Name());
    }
  }

  /** Replaces the DMI by the first `nShells` shell magnitudes of `dij` with
      the given chirality, drops any explicit DMI pairs, and rebuilds the
      interactions. */
  method SetDMI(image: SpinSystem, nShells: nat, dij: array<real>, chirality: int)
    returns (report: Report)
    requires image.Valid() && nShells <= dij.Length
    modifies image.hamiltonian.HeisenbergFrame()
    ensures image.Valid()
    ensures image.hamiltonian.model.HeisenbergModel? ==>
      var h := image.hamiltonian.model.heisenberg;
      && report == Info
      && h.Parameters() == old(h.Parameters()).(
           dmiShellMagnitudes := dij[..nShells],
           dmiShellChirality := chirality,
           dmiPairsIn := [],
           dmiMagnitudesIn := [],
           dmiNormalsIn := [])
      && h.interactionUpdates == old(h.interactionUpdates) + 1
      && h.energyContributionUpdates == old(h.energyContributionUpdates)
    ensures !image.hamiltonian.model.HeisenbergModel? ==>
      && report == Warning("DMI cannot be set on " + image.hamiltonian.Name())
      && unchanged(image.hamiltonian.Variant())
  {
    var ham := image.hamiltonian;
    if ham.Name() == "Heisenberg" {
      var h := ham.model.heisenberg;
      h.dmiShellMagnitudes := dij[..nShells];
      h.dmiShellChirality := chirality;
      h.dmiPairsIn := [];
      h.dmiMagnitudesIn := [];
      h.dmiNormalsIn := [];
      h.UpdateInteractions();
      report := Info;
    } else {
      report := Warning("DMI cannot be set on " + ham.Name());
    }
  }

  /** The loop that derives, pair by pair and in pair order, the dipolar
      magnitude and normal of every pair. */
  method DDITerms(geometry: Geometry, pairs: seq<Pair>,
                  ddiFromPair: (Geometry, Pair) -> DDITerm)
    returns (magnitudes: seq<real>, normals: seq<Vector3>)
    ensures |magnitudes| == |pairs| && |normals| == |pairs|
    ensures forall k :: 0 <= k < |pairs| ==>
              magnitudes[k] == ddiFromPair(geometry, pairs[k]).magnitude
    ensures forall k :: 0 <= k < |pairs| ==>
              normals[k] == ddiFromPair(geometry, pairs[k]).normal
  {
    magnitudes, normals := [], [];
    for i := 0 to |pairs|
      invariant |magnitudes| == i && |normals| == i
      invariant forall k :: 0 <= k < i ==> magnitudes[k] == ddiFromPair(geometry, pairs[k]).magnitude
      invariant forall k :: 0 <= k < i ==> normals[k] == ddiFromPair(geometry, pairs[k]).normal
    {
      var term := ddiFromPair(geometry, pairs[i]);
      magnitudes := magnitudes + [term.magnitude];
      normals := normals + [term.normal];
    }
  }

  /** Regenerates the dipolar pair list from all pairs within `radius` and
      derives their couplings, then rebuilds the energy contributions. The
      stored cutoff radius is left as it was. */
  method SetDDI(image: SpinSystem, radius: real,
                pairsInRadius: (Geometry, real) -> seq<Pair>,
                ddiFromPair: (Geometry, Pair) -> DDITerm) returns (report: Report)
    requires image.Valid()
    modifies image.hamiltonian.HeisenbergFrame()
    ensures image.Valid()
    ensures image.hamiltonian.model.HeisenbergModel? ==>
      var h := image.hamiltonian.model.heisenberg;
      && report == Info
      && h.ddiPairs == pairsInRadius(image.geometry, radius)
      && |h.ddiMagnitudes| == |h.ddiPairs| && |h.ddiNormals| == |h.ddiPairs|
      && (forall k :: 0 <= k < |h.ddiPairs| ==>
            h.ddiMagnitudes[k] == ddiFromPair(image.geometry, h.ddiPairs[k]).magnitude)
      && (forall k :: 0 <= k < |h.ddiPairs| ==>
            h.ddiNormals[k] == ddiFromPair(image.geometry, h.ddiPairs[k]).normal)
      && h.Parameters() == old(h.Parameters()).(
           ddiPairs := h.ddiPairs,
           ddiMagnitudes := h.ddiMagnitudes,
           ddiNormals := h.ddiNormals)
      && h.interactionUpdates == old(h.interactionUpdates)
      && h.energyContributionUpdates == old(h.energyContributionUpdates) + 1
    ensures !image.hamiltonian.model.HeisenbergModel? ==>
      && report == Warning("DDI cannot be set on " + image.hamiltonian.Name())
      && unchanged(image.hamiltonian.Variant())
  {
    var ham := image.hamiltonian;
    if ham.Name() == "Heisenberg" {
      var h := ham.model.heisenberg;
      var pairs := pairsInRadius(image.geometry, radius);
      var magnitudes, normals := DDITerms(image.geometry, pairs, ddiFromPair);
      h.ddiPairs := pairs;
      h.ddiMagnitudes := magnitudes;
      h.ddiNormals := normals;
      h.UpdateEnergyContributions();
      report := Info;
    } else {
      report := Warning("DDI cannot be set on " + ham.Name());
    }
  }

  /** SetDDI as its name promises: identical, except that it also records
      `radius` as the cutoff radius that GetDDI reports. */
  method SetDDIStoringRadius(image: SpinSystem, radius: real,
                             pairsInRadius: (Geometry, real) -> seq<Pair>,
                             ddiFromPair: (Geometry, Pair) -> DDITerm) returns (report: Report)
    requires image.Valid()
    modifies image.hamiltonian.HeisenbergFrame()
    ensures image.Valid()
    ensures image.hamiltonian.model.HeisenbergModel? ==>
      var h := image.hamiltonian.model.heisenberg;
      && report == Info
      && h.ddiPairs == pairsInRadius(image.geometry, radius)
      && |h.ddiMagnitudes| == |h.ddiPairs| && |h.ddiNormals| == |h.ddiPairs|
      && (forall k :: 0 <= k < |h.ddiPairs| ==>
            h.ddiMagnitudes[k] == ddiFromPair(image.geometry, h.ddiPairs[k]).magnitude)
      && (forall k :: 0 <= k < |h.ddiPairs| ==>
            h.ddiNormals[k] == ddiFromPair(image.geometry, h.ddiPairs[k]).normal)
      && h.Parameters() == old(h.Parameters()).(
           ddiPairs := h.ddiPairs,
           ddiMagnitudes := h.ddiMagnitudes,
           ddiNormals := h.ddiNormals,
           ddiCutoffRadius := radius)
      && h.interactionUpdates == old(h.interactionUpdates)
      && h.energyContributionUpdates == old(h.energyContributionUpdates) + 1
    ensures !image.hamiltonian.model.HeisenbergModel? ==>
      && report == Warning("DDI cannot be set on " + image.hamiltonian.Name())
      && unchanged(image.hamiltonian.Variant())
  {
    var ham := image.hamiltonian;
    if ham.Name() == "Heisenberg" {
      var h := ham.model.heisenberg;
      var pairs := pairsInRadius(image.geometry, radius);
      var magnitudes, normals := DDITerms(image.geometry, pairs, ddiFromPair);
      h.ddiPairs := pairs;
      h.ddiMagnitudes := magnitudes;
      h.ddiNormals := normals;
      h.ddiCutoffRadius := radius;
      h.UpdateEnergyContributions();
      report := Info;
    } else {
      report := Warning("DDI cannot be set on " + ham.Name());
    }
  }

  /*------------------------------------------------------------------------*/
  /*  Getters                                                               */
  /*------------------------------------------------------------------------*/

  /** Writes the three periodicity flags, for every variant. */
  method GetBoundaryConditions(image: SpinSystem, periodical: array<bool>)
    requires image.Valid() && periodical.Length >= 3
    modifies periodical
    ensures periodical[..3] == image.hamiltonian.boundaryConditions
    ensures periodical[3..] == old(periodical[3..])
  {
    var ham := image.hamiltonian;
    periodical[0] := ham.boundaryConditions[0];
    periodical[1] := ham.boundaryConditions[1];
    periodical[2] := ham.boundaryConditions[2];
  }

  /** Writes the moments of the unit-cell atoms into the first
      `nCellAtoms` slots of `mu_s`; on any other variant writes nothing. */
  method GetMuS(image: SpinSystem, mu_s: array<real>)
    requires image.Valid()
    requires image.hamiltonian.model.HeisenbergModel? ==> image.geometry.nCellAtoms <= mu_s.Length
    modifies mu_s
    ensures image.hamiltonian.model.HeisenbergModel? ==>
      var h := image.hamiltonian.model.heisenberg;
      var n := image.geometry.nCellAtoms;
      && (forall k :: 0 <= k < n ==> mu_s[k] == h.mu_s[k])
      && (forall k :: n <= k < mu_s.Length ==> mu_s[k] == old(mu_s[k]))
    ensures !image.hamiltonian.model.HeisenbergModel? ==> mu_s[..] == old(mu_s[..])
  {
    var ham := image.hamiltonian;
    if ham.Name() == "Heisenberg" {
      var h := ham.model.heisenberg;
      for i := 0 to image.geometry.nCellAtoms
        invariant forall k :: 0 <= k < i ==> mu_s[k] == h.mu_s[k]
        invariant forall k :: i <= k < mu_s.Length ==> mu_s[k] == old(mu_s[k])
      {
        mu_s[i] := h.mu_s[i];
      }
    }
  }

  /** Reports the external field in the units it was set in. A stored
      magnitude that is not positive reads as no field: magnitude 0 along z.
      The result is what `*magnitude` receives; None means it is not written. */
  method GetField(image: SpinSystem, normal: array<real>) returns (magnitude: Option<real>)
    requires image.Valid() && normal.Length >= 3
    modifies normal
    ensures image.hamiltonian.model.HeisenbergModel? ==>
      var h := image.hamiltonian.model.heisenberg;
      && normal[3..] == old(normal[3..])
      && (h.externalFieldMagnitude > 0.0 ==>
            magnitude == Some(h.externalFieldMagnitude / MuB)
            && FromBuffer(normal) == h.externalFieldNormal)
      && (h.externalFieldMagnitude <= 0.0 ==>
            magnitude == Some(0.0) && FromBuffer(normal) == UnitZ)
    ensures !image.hamiltonian.model.HeisenbergModel? ==>
      magnitude == None && normal[..] == old(normal[..])
  {
    var ham := image.hamiltonian;
    magnitude := None;
    if ham.Name() == "Heisenberg" {
      var h := ham.model.heisenberg;
      if h.externalFieldMagnitude > 0.0 {
        magnitude := Some(h.externalFieldMagnitude / MuB);
        normal[0] := h.externalFieldNormal.x;
        normal[1] := h.externalFieldNormal.y;
        normal[2] := h.externalFieldNormal.z;
      } else {
        magnitude := Some(0.0);
        normal[0] := 0.0;
        normal[1] := 0.0;
        normal[2] := 1.0;
      }
    }
  }

  /** Reports the first anisotropic site's magnitude and axis, or magnitude
      0 along z when no site is anisotropic. None means `*magnitude` is not
      written. */
  method GetAnisotropy(image: SpinSystem, normal: array<real>) returns (magnitude: Option<real>)
    requires image.Valid() && normal.Length >= 3
    modifies normal
    ensures image.hamiltonian.model.HeisenbergModel? ==>
      var h := image.hamiltonian.model.heisenberg;
      && normal[3..] == old(normal[3..])
      && (|h.anisotropyIndices| > 0 ==>
            magnitude == Some(h.anisotropyMagnitudes[0])
            && FromBuffer(normal) == h.anisotropyNormals[0])
      && (|h.anisotropyIndices| == 0 ==>
            magnitude == Some(0.0) && FromBuffer(normal) == UnitZ)
    ensures !image.hamiltonian.model.HeisenbergModel? ==>
      magnitude == None && normal[..] == old(normal[..])
  {
    var ham := image.hamiltonian;
    magnitude := None;
    if ham.Name() == "Heisenberg" {
      var h := ham.model.heisenberg;
      if |h.anisotropyIndices| > 0 {
        magnitude := Some(h.anisotropyMagnitudes[0]);
        normal[0] := h.anisotropyNormals[0].x;
        normal[1] := h.anisotropyNormals[0].y;
        normal[2] := h.anisotropyNormals[0].z;
      } else {
        magnitude := Some(0.0);
        normal[0] := 0.0;
        normal[1] := 0.0;
        normal[2] := 1.0;
      }
    }
  }

  /** Reports the number of exchange shells and writes their magnitudes, in
      order, into the front of `jij`. None means `*n_shells` is not written. */
  method GetExchangeShells(image: SpinSystem, jij: array<real>) returns (nShells: Option<int>)
    requires image.Valid()
    requires image.hamiltonian.model.HeisenbergModel? ==>
      |image.hamiltonian.model.heisenberg.exchangeShellMagnitudes| <= jij.Length
    modifies jij
    ensures image.hamiltonian.model.HeisenbergModel? ==>
      var shells := image.hamiltonian.model.heisenberg.exchangeShellMagnitudes;
      && nShells == Some(|shells|)
      && jij[..|shells|] == shells
      && jij[|shells|..] == old(jij[|shells|..])
    ensures !image.hamiltonian.model.HeisenbergModel? ==>
      nShells == None && jij[..] == old(jij[..])
  {
    var ham := image.hamiltonian;
    nShells := None;
    if ham.Name() == "Heisenberg" {
      var h := ham.model.heisenberg;
      nShells := Some(|h.exchangeShellMagnitudes|);
      for i := 0 to |h.exchangeShellMagnitudes|
        invariant forall k :: 0 <= k < i ==> jij[k] == h.exchangeShellMagnitudes[k]
        invariant forall k :: i <= k < jij.Length ==> jij[k] == old(jij[k])
      {
        jij[i] := h.exchangeShellMagnitudes[i];
      }
    }
  }

  /** Fetching explicit exchange pairs is not implemented: the answer is 0
      pairs for every variant and every state, with a warning. */
  method GetExchangeNPairs(image: SpinSystem) returns (nPairs: int, report: Report)
    ensures nPairs == 0
    ensures report == Warning(image.hamiltonian.Name()
                              + " Hamiltonian: fetching exchange pairs is not yet implemented...")
  {
    report := Warning(image.hamiltonian.Name()
                      + " Hamiltonian: fetching exchange pairs is not yet implemented...");
    nPairs := 0;
  }

  /** Reports the number of DMI shells and their chirality, and writes the
      shell magnitudes, in order, into the front of `dij`. None means the
      scalar is not written. */
  method GetDMIShells(image: SpinSystem, dij: array<real>)
    returns (nShells: Option<int>, chirality: Option<int>)
    requires image.Valid()
    requires image.hamiltonian.model.HeisenbergModel? ==>
      |image.hamiltonian.model.heisenberg.dmiShellMagnitudes| <= dij.Length
    modifies dij
    ensures image.hamiltonian.model.HeisenbergModel? ==>
      var h := image.hamiltonian.model.heisenberg;
      var shells := h.dmiShellMagnitudes;
      && nShells == Some(|shells|)
      && chirality == Some(h.dmiShellChirality)
      && dij[..|shells|] == shells
      && dij[|shells|..] == old(dij[|shells|..])
    ensures !image.hamiltonian.model.HeisenbergModel? ==>
      nShells == None && chirality == None && dij[..] == old(dij[..])
  {
    var ham := image.hamiltonian;
    nShells, chirality := None, None;
    if ham.Name() == "Heisenberg" {
      var h := ham.model.heisenberg;
      var n := |h.dmiShellMagnitudes|;
      nShells := Some(n);
      chirality := Some(h.dmiShellChirality);
      for i := 0 to n
        invariant forall k :: 0 <= k < i ==> dij[k] == h.dmiShellMagnitudes[k]
        invariant forall k :: i <= k < dij.Length ==> dij[k] == old(dij[k])
      {
        dij[i] := h.dmiShellMagnitudes[i];
      }
    }
  }

  /** Fetching explicit DMI pairs is not implemented: the answer is 0 pairs
      for every variant and every state, with a warning. */
  method GetDMINPairs(image: SpinSystem) returns (nPairs: int, report: Report)
    ensures nPairs == 0
    ensures report == Warning(image.hamiltonian.Name()
                              + " Hamiltonian: fetching DMI pairs is not yet implemented...")
  {
    report := Warning(image.hamiltonian.Name()
                      + " Hamiltonian: fetching DMI pairs is not yet implemented...");
    nPairs := 0;
  }

  /** Reports the stored dipolar cutoff radius. None means `*radius` is not
      written. */
  method GetDDI(image: SpinSystem) returns (radius: Option<real>)
    ensures image.hamiltonian.model.HeisenbergModel? ==>
      radius == Some(image.hamiltonian.model.heisenberg.ddiCutoffRadius)
    ensures !image.hamiltonian.model.HeisenbergModel? ==> radius == None
  {
    var ham := image.hamiltonian;
    radius := None;
    if ham.Name() == "Heisenberg" {
      radius := Some(ham.model.heisenberg.ddiCutoffRadius);
    }
  }
}
