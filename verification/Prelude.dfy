/** Small value types shared by every model: optional values, error results and an
    injective stand-in for a digest. */
module Prelude {

  datatype Option<+T> = None | Some(value: T)

  datatype Result<+T, +E> = Ok(value: T) | Err(error: E)

  /** A collision-free digest: two digests are equal exactly when their preimages are. */
  datatype Sha<+T> = Sha256(of: T)

  function Min(x: real, y: real): (r: real)
    ensures r <= x && r <= y && (r == x || r == y)
  {
    if x <= y then x else y
  }
}
