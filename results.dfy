/** The two exception classes the dense output raises, and the wrappers that carry them. */
module Results {

  /** `LogicError` is a call made in the wrong state (nothing committed, nothing pending);
      `RuntimeError` is a bad argument (time order, shape, continuity, range). */
  datatype Error = LogicError | RuntimeError

  datatype Result<T> = Ok(value: T) | Err(error: Error)

  /** The result of an operation that returns nothing on success. */
  datatype Outcome = Pass | Fail(error: Error)

  datatype Option<T> = None | Some(value: T)
}
