/** Small value types shared by every module. */
module Wrappers {

  datatype Option<+T> = None | Some(value: T)

  datatype Result<+T, +E> = Ok(value: T) | Err(error: E)

  /** SHA-256 taken as injective: a digest is its preimage behind a constructor. */
  datatype Digest<+T> = Sha256(preimage: T)
}
