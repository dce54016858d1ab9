/** Shared vocabulary: optional values, results, and the election record that
    every lock backend stores. */
module Records {

  datatype Option<+T> = None | Some(value: T)

  datatype Result<+T> = Ok(value: T) | Err(error: string)

  /** Identity of an elector; the empty string names nobody. */
  type Id = string

  /** The stored election record. All times are whole milliseconds read from
      the clock of the node named by `holder`. */
  datatype Record = Record(
    holder: Id,
    leaseMs: int,
    acquireMs: int,
    renewMs: int,
    transitions: int)

  const NO_RECORD := Record("", 0, 0, 0, 0)
}
