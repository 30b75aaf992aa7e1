/** The lattice data the accessor layer hands to the neighbour routines. */
module Neighbours {
  import opened Vectormath

  /** The part of the geometry the accessors read themselves: the number of
      atoms in the unit cell. Everything else about the lattice is consumed
      only by the neighbour routines, which the model takes as parameters. */
  datatype Geometry = Geometry(nCellAtoms: nat)

  /** Two sites, the second one possibly in a periodic image shifted by
      `translations` lattice vectors. */
  datatype Pair = Pair(i: int, j: int, translations: (int, int, int))

  /** The dipolar coupling of one pair: its strength and its unit direction. */
  datatype DDITerm = DDITerm(magnitude: real, normal: Vector3)
}
