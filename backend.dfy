/**
 * The shapes in which the hosted backend (relational store, blob store,
 * realtime feed, identity service) answers the handlers of the UI.  Every
 * backend call is modelled as an input to the handler that issued it.
 */
module Backend {
  /** Row identifiers and user ids are opaque strings (UUIDs in practice). */
  type Id = string

  /** A JavaScript value that may be `null` / `undefined`. */
  datatype Option<+T> = None | Some(value: T)

  /** The `{ data, error }` answer of a query: `Ok(data)` when `error` is null. */
  datatype Reply<+T> = Ok(value: T) | Err

  /** The `{ error }` answer of a mutation that returns no rows. */
  datatype Outcome = Done | Error
}
