/** The Hamiltonian objects whose parameters the accessor layer reads and
    writes: a base object with the boundary conditions and a name, and the
    two concrete variants, Heisenberg and Gaussian. */
module Engine {
  import opened Vectormath
  import opened Neighbours

  /** A value snapshot of every parameter of a Heisenberg Hamiltonian that the
      accessors touch. */
  datatype HeisenbergParameters = HeisenbergParameters(
    mu_s: seq<real>,
    externalFieldMagnitude: real,
    externalFieldNormal: Vector3,
    anisotropyIndices: seq<int>,
    anisotropyMagnitudes: seq<real>,
    anisotropyNormals: seq<Vector3>,
    exchangeShellMagnitudes: seq<real>,
    exchangePairsIn: seq<Pair>,
    exchangeMagnitudesIn: seq<real>,
    dmiShellMagnitudes: seq<real>,
    dmiShellChirality: int,
    dmiPairsIn: seq<Pair>,
    dmiMagnitudesIn: seq<real>,
    dmiNormalsIn: seq<Vector3>,
    ddiPairs: seq<Pair>,
    ddiMagnitudes: seq<real>,
    ddiNormals: seq<Vector3>,
    ddiCutoffRadius: real)
  {
    /** The consistency the getters rely on: a non-empty anisotropy index
        list comes with a first magnitude and a first normal, and the dipolar
        lists run in parallel, one magnitude and one normal per pair. */
    predicate Valid() {
      && (|anisotropyIndices| > 0 ==> |anisotropyMagnitudes| > 0 && |anisotropyNormals| > 0)
      && |ddiMagnitudes| == |ddiPairs|
      && |ddiNormals| == |ddiPairs|
    }
  }

  /** The multi-term lattice Hamiltonian. The two counters record how often
      the interaction lists and the list of active energy contributions were
      rebuilt; what those rebuilds compute is outside this model. */
  class HamiltonianHeisenberg {
    var mu_s: seq<real>
    var externalFieldMagnitude: real
    var externalFieldNormal: Vector3
    var anisotropyIndices: seq<int>
    var anisotropyMagnitudes: seq<real>
    var anisotropyNormals: seq<Vector3>
    var exchangeShellMagnitudes: seq<real>
    var exchangePairsIn: seq<Pair>
    var exchangeMagnitudesIn: seq<real>
    var dmiShellMagnitudes: seq<real>
    var dmiShellChirality: int
    var dmiPairsIn: seq<Pair>
    var dmiMagnitudesIn: seq<real>
    var dmiNormalsIn: seq<Vector3>
    var ddiPairs: seq<Pair>
    var ddiMagnitudes: seq<real>
    var ddiNormals: seq<Vector3>
    var ddiCutoffRadius: real
    var interactionUpdates: nat
    var energyContributionUpdates: nat

    ghost function Parameters(): HeisenbergParameters
      reads this
    {
      HeisenbergParameters(
        mu_s, externalFieldMagnitude, externalFieldNormal,
        anisotropyIndices, anisotropyMagnitudes, anisotropyNormals,
        exchangeShellMagnitudes, exchangePairsIn, exchangeMagnitudesIn,
        dmiShellMagnitudes, dmiShellChirality, dmiPairsIn, dmiMagnitudesIn, dmiNormalsIn,
        ddiPairs, ddiMagnitudes, ddiNormals, ddiCutoffRadius)
    }

    ghost predicate Valid()
      reads this
    {
      Parameters().Valid()
    }

    constructor (p: HeisenbergParameters)
      requires p.Valid()
      ensures Valid() && Parameters() == p
      ensures interactionUpdates == 0 && energyContributionUpdates == 0
    {
      mu_s := p.mu_s;
      externalFieldMagnitude := p.externalFieldMagnitude;
      externalFieldNormal := p.externalFieldNormal;
      anisotropyIndices := p.anisotropyIndices;
      anisotropyMagnitudes := p.anisotropyMagnitudes;
      anisotropyNormals := p.anisotropyNormals;
      exchangeShellMagnitudes := p.exchangeShellMagnitudes;
      exchangePairsIn := p.exchangePairsIn;
      exchangeMagnitudesIn := p.exchangeMagnitudesIn;
      dmiShellMagnitudes := p.dmiShellMagnitudes;
      dmiShellChirality := p.dmiShellChirality;
      dmiPairsIn := p.dmiPairsIn;
      dmiMagnitudesIn := p.dmiMagnitudesIn;
      dmiNormalsIn := p.dmiNormalsIn;
      ddiPairs := p.ddiPairs;
      ddiMagnitudes := p.ddiMagnitudes;
      ddiNormals := p.ddiNormals;
      ddiCutoffRadius := p.ddiCutoffRadius;
      interactionUpdates, energyContributionUpdates := 0, 0;
    }

    /** Rebuilds the pair lists from the shells or explicit pairs; only the
        call itself is recorded. */
    method UpdateInteractions()
      modifies this
      ensures Parameters() == old(Parameters())
      ensures interactionUpdates == old(interactionUpdates) + 1
      ensures energyContributionUpdates == old(energyContributionUpdates)
    {
      interactionUpdates := interactionUpdates + 1;
    }

    /** Rebuilds the list of active energy contributions; only the call
        itself is recorded. */
    method UpdateEnergyContributions()
      modifies this
      ensures Parameters() == old(Parameters())
      ensures interactionUpdates == old(interactionUpdates)
      ensures energyContributionUpdates == old(energyContributionUpdates) + 1
    {
      energyContributionUpdates := energyContributionUpdates + 1;
    }
  }

  /** The Gaussian test landscape: its parameters are three lists, one entry
      per Gaussian. The accessor layer never changes them. */
  class HamiltonianGaussian {
    var nGaussians: nat
    var amplitude: seq<real>
    var width: seq<real>
    var center: seq<Vector3>

    constructor (amplitude: seq<real>, width: seq<real>, center: seq<Vector3>)
      ensures this.amplitude == amplitude && this.width == width && this.center == center
      ensures nGaussians == |amplitude|
    {
      this.amplitude, this.width, this.center := amplitude, width, center;
      nGaussians := |amplitude|;
    }
  }

  /** Which concrete Hamiltonian an image holds. Matching on it is the
      model's form of the downcast that follows a successful name check. */
  datatype Model =
    | HeisenbergModel(heisenberg: HamiltonianHeisenberg)
    | GaussianModel(gaussian: HamiltonianGaussian)

  /** The base Hamiltonian: three periodicity flags, one per lattice axis,
      and the concrete variant behind it. */
  class Hamiltonian {
    var boundaryConditions: seq<bool>
    const model: Model

    /** The variant's identity string, the only runtime type query callers make. */
    function Name(): (name: string)
      ensures name == "Heisenberg" <==> model.HeisenbergModel?
      ensures name == "Gaussian" <==> model.GaussianModel?
    {
      match model
      case HeisenbergModel(_) => "Heisenberg"
      case GaussianModel(_) => "Gaussian"
    }

    /** The object of the concrete variant. */
    function Variant(): set<object>
    {
      match model
      case HeisenbergModel(h) => {h}
      case GaussianModel(g) => {g}
    }

    /** What a Heisenberg-only setter may change: the Heisenberg object, or
        nothing at all on any other variant. */
    function HeisenbergFrame(): set<object>
    {
      if model.HeisenbergModel? then {model.heisenberg} else {}
    }

    ghost predicate Valid()
      reads this, Variant()
    {
      && |boundaryConditions| == 3
      && (model.HeisenbergModel? ==> model.heisenberg.Valid())
    }

    constructor (boundaryConditions: seq<bool>, model: Model)
      requires |boundaryConditions| == 3
      requires model.HeisenbergModel? ==> model.heisenberg.Valid()
      ensures Valid()
      ensures this.boundaryConditions == boundaryConditions && this.model == model
    {
      this.boundaryConditions := boundaryConditions;
      this.model := model;
    }
  }
}
