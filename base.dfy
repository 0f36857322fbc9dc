/** Shared wrappers: an optional value, and the outcome of a Python call that
    either returns a value or raises an exception (kept as its `str(err)` text). */
module Base {

  datatype Option<+T> = None | Some(value: T)

  datatype Outcome<+T> = Returned(value: T) | Raised(message: string)
}
