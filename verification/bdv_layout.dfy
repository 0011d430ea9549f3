/** The BigDataViewer HDF5 tree as an immutable value.

    Only what the converter looks at is kept: the ordered names of the
    root group's members, the row counts of each `sNN/resolutions` and
    `sNN/subdivisions` table, and the `tNNNNN/sNN/<level>/cells` datasets,
    each reduced to its spatial shape, its chunk shape and an opaque token
    standing for its samples. */
module BdvLayout {
  import opened Sequences

  /** A (z, y, x) extent. */
  datatype Triple = Triple(z: nat, y: nat, x: nat)

  /** Stands for the samples of a dataset; only equality is observable. */
  type Token = nat

  /** An HDF5 `cells` dataset. */
  datatype Dataset = Dataset(shape: Triple, chunks: Triple, content: Token)

  /** The path `<tkey>/<chkey>/<level>/cells`, with `<level>` the decimal
      form of `level`. */
  datatype CellPath = CellPath(tkey: string, chkey: string, level: nat)

  datatype H5File = H5File(
    keys: seq<string>,                  // members of `/`, in h5py enumeration order
    resolutions: map<string, nat>,      // rows of `<ch>/resolutions`, where present
    subdivisions: map<string, nat>,     // rows of `<ch>/subdivisions`, where present
    cells: map<CellPath, Dataset>)      // every `cells` dataset present in the file

  /** Member names within an HDF5 group are unique. */
  type Container = f: H5File | Distinct(f.keys)
    witness H5File([], map[], map[], map[])
}
