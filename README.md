# Spirit Hamiltonian parameter accessors, modelled in Dafny

This project models the parameter-accessor layer of the Spirit spin-dynamics
framework. That layer is the set of C-linkage functions that read and change
the parameters of an image's Hamiltonian.

- Each Heisenberg-only setter checks the Hamiltonian's name.
  - On a Heisenberg Hamiltonian it updates fields in place.
  - On any other variant it only logs a warning.
- All of them except `Set_mu_s` then call one rebuild step:
  `Update_Interactions` or `Update_Energy_Contributions`.
- `Set_Boundary_Conditions` is the exception to the name check. It writes
  the three flags on every variant and calls no rebuild.
- Each Heisenberg-only getter writes the stored parameters into buffers the
  caller owns. On any other variant it leaves those buffers untouched.
- `Get_Boundary_Conditions` writes the flags on every variant.
- The two pair-count getters answer 0 on every variant.

Layout:

- `vectormath.dfy`: `Vector3` over the reals and the default axis `UnitZ`.
  It also holds the `Constants` module with the Bohr magneton `MuB`
  (0.057883817555 meV/T). `utility/Constants.hpp` is not part of this model.
- `neighbours.dfy`: `Geometry` (only the unit-cell atom count is read
  directly), `Pair` and the per-pair dipolar term `DDITerm`.
- `engine.dfy`: the base `Hamiltonian` class, which holds the boundary
  conditions and a constant `model`. `model` is `HeisenbergModel(h)` or
  `GaussianModel(g)`. The C++ downcast after `Name() == "Heisenberg"` is
  `model.heisenberg`. The `HamiltonianHeisenberg` class holds the fields the
  accessors touch, plus two counters for the rebuild calls.
  `HamiltonianGaussian` holds amplitude, width and center
  (core/include/engine/Hamiltonian_Gaussian.hpp:39-42).
- `hamiltonian_api.dfy`: the image (`SpinSystem`: `nos`, geometry,
  Hamiltonian) and every accessor, as methods. Every setter's `ensures` gives
  the whole new Heisenberg state as a record update of the old one, and gives
  the rebuild counters. The accessors keep `SpinSystem.Valid()`.
- `round_trips.dfy`: client methods. They are proved from the accessors'
  contracts alone. Each one sets a parameter and reads it back.

Modelling choices:

- The collaborators whose bodies are not shown are parameters:
  - `normalize: Vector3 -> Vector3` (Eigen's `normalize`);
  - `pairsInRadius: (Geometry, real) -> seq<Pair>` (`Neighbours::Get_Pairs_in_Radius`);
  - `ddiFromPair: (Geometry, Pair) -> DDITerm` (`Neighbours::DDI_from_Pair`).
- A scalar out-pointer (`*magnitude`, `*n_shells`, `*chirality`, `*radius`)
  is an `Option` result. `None` means the pointer is not written.
- An array out-pointer is a Dafny `array` with `modifies`.
- Input pointers are arrays the method only reads.
- What a setter logs is a `Report`: `Info`, or `Warning(message)` with the
  warning text the source builds.

Behaviour that follows from the code:

- `Set_Boundary_Conditions` and `Set_mu_s` call no rebuild step
  (core/src/Spirit/Hamiltonian.cpp:35-37, 69-72).
- `Set_DDI` never stores the cutoff radius that `Get_DDI` reports. See
  Findings below.
- The name of the Gaussian variant is taken to be `"Gaussian"`. Its body
  (`Hamiltonian_Gaussian.cpp`) is not part of this model. Only its inequality
  with `"Heisenberg"` matters.

## Model

| member | source | states |
|---|---|---|
| `Engine.Hamiltonian.Name` | core/src/Spirit/Hamiltonian.cpp:69-71 | The name is "Heisenberg" exactly when the Hamiltonian is the Heisenberg variant, so the name check selects the downcast |
| `HamiltonianApi.SetBoundaryConditions` | core/src/Spirit/Hamiltonian.cpp:35-37 | For every variant, the three flags become the caller's three flags and an info line is reported; no variant object changes, so there is no rebuild |
| `HamiltonianApi.SetMuS` | core/src/Spirit/Hamiltonian.cpp:69-78 | Heisenberg: every moment equals the argument, the count is unchanged, no other parameter changes and no rebuild runs. Otherwise: warning "mu_s cannot be set on <name>" and nothing changes |
| `HamiltonianApi.SetField` | core/src/Spirit/Hamiltonian.cpp:109-130 | Heisenberg: the stored magnitude is the argument times mu_B, the normal is the normalised input, and exactly one energy-contribution rebuild runs. Otherwise: warning and no change |
| `HamiltonianApi.CellAtomLists` | core/src/Spirit/Hamiltonian.cpp:168-174 | Returns two lists of length n_cell_atoms: indices 0..n-1 in order, and every magnitude equal to the argument |
| `HamiltonianApi.SetAnisotropy` | core/src/Spirit/Hamiltonian.cpp:161-194 | Heisenberg: indices [0..n_cell_atoms-1]; n_cell_atoms magnitudes, all the argument; nos normals, all the normalised input; nothing else changes; one energy rebuild. Otherwise: warning and no change |
| `HamiltonianApi.SetExchange` | core/src/Spirit/Hamiltonian.cpp:223-238 | Heisenberg: the shells are the first n_shells values of jij in order, the explicit exchange pairs and magnitudes are empty, and one interaction rebuild runs. Otherwise: warning and no change |
| `HamiltonianApi.SetDMI` | core/src/Spirit/Hamiltonian.cpp:266-283 | Heisenberg: the shells are the first n_shells values of dij and the chirality is the argument; the explicit DMI pairs, magnitudes and normals are empty; one interaction rebuild. Otherwise: warning and no change |
| `HamiltonianApi.DDITerms` | core/src/Spirit/Hamiltonian.cpp:316-325 | One magnitude and one normal per pair, entry k derived from pair k, in pair order |
| `HamiltonianApi.SetDDI` | core/src/Spirit/Hamiltonian.cpp:311-337 | Heisenberg: the DDI pairs are those within the radius, with parallel derived magnitudes and normals, and one energy rebuild; the cutoff radius and all else unchanged. Otherwise: warning and no change |
| `HamiltonianApi.SetDDIStoringRadius` | core/src/Spirit/Hamiltonian.cpp:315-331 | As SetDDI, and the cutoff radius becomes the radius set |
| `HamiltonianApi.GetBoundaryConditions` | core/src/Spirit/Hamiltonian.cpp:385-387 | For every variant, the first three buffer slots hold the three flags; the rest of the buffer is untouched |
| `HamiltonianApi.GetMuS` | core/src/Spirit/Hamiltonian.cpp:405-410 | Heisenberg: slots 0..n_cell_atoms-1 hold the first moments and the later slots are untouched. Otherwise the buffer is untouched |
| `HamiltonianApi.GetField` | core/src/Spirit/Hamiltonian.cpp:428-449 | Heisenberg: a positive stored magnitude reads back divided by mu_B, with the stored normal; otherwise magnitude 0 and normal (0,0,1). Other variants write nothing |
| `HamiltonianApi.GetAnisotropy` | core/src/Spirit/Hamiltonian.cpp:467-488 | Heisenberg: with anisotropic sites, the magnitude and normal are those of the first entry; with none, 0 and (0,0,1). Other variants write nothing |
| `HamiltonianApi.GetExchangeShells` | core/src/Spirit/Hamiltonian.cpp:506-517 | Heisenberg: the count is the number of shells and the buffer front holds the shells in order; the rest is untouched. Other variants write nothing |
| `HamiltonianApi.GetExchangeNPairs` | core/src/Spirit/Hamiltonian.cpp:535-537 | For every variant and state: 0 pairs and a "not yet implemented" warning naming the variant |
| `HamiltonianApi.GetDMIShells` | core/src/Spirit/Hamiltonian.cpp:575-586 | Heisenberg: the count, the chirality, and the shells in order at the buffer front; the rest is untouched. Other variants write nothing |
| `HamiltonianApi.GetDMINPairs` | core/src/Spirit/Hamiltonian.cpp:604-606 | For every variant and state: 0 pairs and a "not yet implemented" warning naming the variant |
| `HamiltonianApi.GetDDI` | core/src/Spirit/Hamiltonian.cpp:625-630 | Heisenberg: reports the stored cutoff radius. Other variants write nothing |
| `HamiltonianRoundTrips.BoundaryConditionsRoundTrip` | core/src/Spirit/Hamiltonian.cpp:385-387 | Set then get boundary conditions returns the flags that were set, on every variant |
| `HamiltonianRoundTrips.MuSRoundTrip` | core/src/Spirit/Hamiltonian.cpp:405-409 | After Set_mu_s(v), Get_mu_s writes v into every unit-cell slot |
| `HamiltonianRoundTrips.FieldRoundTrip` | core/src/Spirit/Hamiltonian.cpp:432-447 | After Set_Field, a positive magnitude reads back unchanged with the normalised direction; a non-positive one reads back as 0 along z |
| `HamiltonianRoundTrips.AnisotropyRoundTrip` | core/src/Spirit/Hamiltonian.cpp:471-486 | After Set_Anisotropy, the magnitude and normalised axis read back if the unit cell has atoms, else 0 along z |
| `HamiltonianRoundTrips.ExchangeRoundTrip` | core/src/Spirit/Hamiltonian.cpp:510-516 | After Set_Exchange, Get_Exchange_Shells reports n_shells and the same values, and the explicit pair lists are empty |
| `HamiltonianRoundTrips.DMIRoundTrip` | core/src/Spirit/Hamiltonian.cpp:579-585 | After Set_DMI, Get_DMI_Shells reports the same count, chirality and values, and the explicit pair lists are empty |
| `HamiltonianRoundTrips.DDIRadiusNotStored` | core/src/Spirit/Hamiltonian.cpp:629 | As written, after Set_DDI(r) Get_DDI reports the old radius, never r when the two differ |
| `HamiltonianRoundTrips.DDIRadiusRoundTrip` | core/src/Spirit/Hamiltonian.cpp:315-331 | With the corrected setter, Get_DDI reports the radius set and the pairs are those within it |
| `HamiltonianRoundTrips.GaussianIsUntouched` | core/src/Spirit/Hamiltonian.cpp:76-78 | On a Gaussian Hamiltonian all six Heisenberg-only setters warn, with no modifies frame at all, so nothing changes |

## Left out

- `image->Lock()` / `Unlock()`: concurrency. The model is sequential.
- `from_indices`'s lookups, `try`/`catch` and `spirit_handle_exception_api`.
  These are state lookup and exception plumbing. The image is passed in
  directly.
- Info log lines: they format numbers as text. `Report.Info` stands for them.
- `Hamiltonian_Get_Name`: it returns a `c_str()` pointer, so there is nothing
  to state beyond `Engine.Hamiltonian.Name`.
- `Hamiltonian_Get_Exchange_Pairs`: it only logs the "not yet implemented"
  warning, the same one `GetExchangeNPairs` models, and writes nothing.
- The bodies of `Update_Interactions` and `Update_Energy_Contributions`: they
  are not part of this model. Only the number of calls is recorded. The model
  does not state what they recompute.
- The bodies of `Get_Pairs_in_Radius`, `DDI_from_Pair` and `normalize`: they
  are function parameters. The output of `normalize` for a zero vector is left
  to that parameter.
- `float` casts and single-precision rounding: the model uses exact reals.
  So `GetField`'s division by mu_B undoes the setter's multiplication exactly.
- `size_t` to `int` narrowing of shell counts: counts are unbounded integers.
- Aliasing between the C out-pointers is ruled out, because scalars are
  return values. This covers one scalar with one array (`magnitude` and
  `normal`). It also covers two scalars, such as `n_shells` and `chirality`
  in `Get_DMI_Shells`: the source reads `*n_shells` back as its loop bound
  after writing `*chirality`, so aliased pointers would change the loop
  bound. The model does not capture that case.
- SetExchange: the shell count is a `nat`. A negative `n_shells` gives the
  source an invalid range `jij .. jij + n_shells`. That is undefined
  behaviour, and at best an exception that the `catch` absorbs with no state
  change. The model does not cover that call.
- SetDMI: the same holds for a negative `n_shells` and `dij`.
- core/include/engine/Manifoldmath.hpp and the Gaussian energy formula: they
  are declarations only, and floating-point geometry.

## Findings

| source | as written | input that shows it | evidently intended | confidence | as-written member | corrected member |
|---|---|---|---|---|---|---|
| core/src/Spirit/Hamiltonian.cpp:315-331 | `Hamiltonian_Set_DDI` rebuilds the dipolar pairs for `radius` but never assigns `ddi_cutoff_radius`, which is what `Hamiltonian_Get_DDI` (line 629) reports | a Heisenberg Hamiltonian with stored cutoff 0, then Set_DDI with radius 2 and Get_DDI: it reports 0 | Set_DDI records the radius, so Get_DDI returns the radius set | medium, not executed | `HamiltonianRoundTrips.DDIRadiusNotStored` | `HamiltonianApi.SetDDIStoringRadius` |
