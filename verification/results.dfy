/** Failure-compatible result types and the Python exceptions the
    converter can raise on its own: a missing HDF5 member (KeyError), a
    positional index outside a tuple or list (IndexError), and, in the
    corrected conversion only, a slice whose shape does not fit its
    destination (ValueError). */
module Results {

  /** The exceptions of the modelled core. */
  datatype Error =
    | KeyError    // h5py: no member of that name in the group
    | IndexError  // tuple or list index out of range
    | ValueError  // a slice value whose shape does not fit the destination

  datatype Option<+T> = None | Some(value: T)

  datatype Result<+T> = Ok(value: T) | Err(error: Error) {

    predicate IsFailure() {
      Err?
    }

    function PropagateFailure<U>(): Result<U>
      requires Err?
    {
      Err(error)
    }

    function Extract(): T
      requires Ok?
    {
      value
    }
  }
}
