/** Optional values, keys of a `Partial<…>` object, and results of calls that may throw. */
module Wrappers {

  /** A value that may be absent (`undefined` or `null` in the source). */
  datatype Option<+T> = None | Some(value: T) {

    /** The value, or `default` when it is absent. */
    function GetOr(default: T): T {
      match this
      case Some(v) => v
      case None => default
    }
  }

  /**
   * One optional key of a `Partial<…>` object that is spread over a record:
   * the key is absent (`Keep`: the record keeps its value) or present (`Put`),
   * and a present key may hold `undefined` (`Put(None)`), which clears the field.
   */
  datatype Field<+T> = Keep | Put(given: Option<T>) {

    /** The field after spreading this key over a record whose field is `current`. */
    function Over(current: Option<T>): Option<T> {
      match this
      case Keep => current
      case Put(v) => v
    }
  }

  /** The outcome of a call that either returns a value or throws an error. */
  datatype Result<+T, +E> = Ok(value: T) | Err(error: E)
}
