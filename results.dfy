/**
 * The shapes every operation of the model returns: an optional value, the
 * resolve/reject outcome of a promise, and the state of the tables an
 * operation leaves behind together with that outcome.
 */
module Results {
  import opened Errors

  datatype Option<T> = None | Some(value: T)

  /** A promise that resolved with `value` or rejected with `error`. */
  datatype Result<T> = Ok(value: T) | Err(error: Error)

  /** What a state-changing operation leaves: the new content of the tables it
      writes, and what its promise settled with. */
  datatype Step<S, T> = Step(state: S, result: Result<T>)
}
