/** Types every other module shares. */
module Values {

  /** A nullable column, or a lookup that may find nothing. */
  datatype Option<+T> = None | Some(value: T)

  /** How a call to an outside system ends, as the caller can observe it. */
  datatype Outcome =
    | Fine                     // the call took effect and its answer arrived
    | Broken                   // the call had no effect and raised
    | BrokenAfter(kept: nat)   // the call took effect (a write kept `kept` bytes) and raised
}
