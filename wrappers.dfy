/** Outcome wrappers. Every collaborator of the control plane (the RPC round trip,
    transport lookup, address resolution, listening, constructing a teleportation half) is
    modelled by the outcome it hands back: a value, or an error carried as its text. */
module Wrappers {

  datatype Option<+T> = None | Some(value: T)

  /** Go's `(value, error)` pair: `Err` carries the error's text. */
  datatype Outcome<+T> = Ok(value: T) | Err(error: string)
}
