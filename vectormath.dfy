/** Three-component vectors over the reals; they stand in for the engine's
    floating-point `Vector3`. */
module Vectormath {

  datatype Vector3 = Vector3(x: real, y: real, z: real)

  /** The direction the field and anisotropy getters report when nothing is set. */
  const UnitZ := Vector3(0.0, 0.0, 1.0)

  /** The vector held in the first three entries of a caller's buffer. */
  function FromBuffer(a: array<real>): Vector3
    reads a
    requires a.Length >= 3
  {
    Vector3(a[0], a[1], a[2])
  }
}

/** Physical constants the accessors use. */
module Constants {

  /** The Bohr magneton in meV/T: the external field is stored pre-multiplied by it. */
  const MuB: real := 0.057883817555
}
