/** Shared vocabulary. */
module Basics {

  // Identifiers, paths and texts whose only use is comparison for equality.
  type Id = int

  datatype Option<+T> = None | Some(value: T)

  datatype Result<+T, +E> = Ok(value: T) | Err(error: E)

  // JavaScript's Number.MAX_SAFE_INTEGER.
  const MAX_SAFE: int := 9007199254740991
}
