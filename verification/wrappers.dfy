/** The optional-value type used for the source's `?:` fields, nullable joins
    and "not found" results. */
module Wrappers {

  datatype Option<+T> = None | Some(value: T)
}
