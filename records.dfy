/** Values shared by the hierarchical log: the records a handler stores and
    the Python exceptions the core raises, modelled as values. */
module Records {

  datatype Option<T> = None | Some(value: T)

  /** The exceptions raised by the core: a failed `assert`, an out-of-range
      deque subscript, and a read of a logger attribute that was never set. */
  datatype Error = AssertionError | IndexError | AttributeError

  datatype Result<T> = Ok(value: T) | Err(error: Error)

  /** Outcome of an operation that returns nothing in the source. */
  datatype Outcome = Done | Failed(error: Error)

  /** A logging record as the record factory produces it: the name of its
      logger, its level name, its message and the `hierarchyStage`
      attribute the factory stamps on it. */
  datatype LogRecord = LogRecord(
    loggerName: string,
    levelName: string,
    message: string,
    hierarchyStage: int)

  function Min(a: int, b: int): (m: int) { if a < b then a else b }

  function Max(a: int, b: int): (m: int) { if a < b then b else a }
}
