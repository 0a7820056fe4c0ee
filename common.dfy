/** Small value types shared by both decision loops. */
module Common {

  /** A value that may be absent; stands for a nullable reference. */
  datatype Option<+T> = None | Some(value: T)

  /** The outcome of an operation that can fail with an error `E`. */
  datatype Result<+T, +E> = Ok(value: T) | Err(error: E)

  /** A position in the Unity scene (`Vector3` / `transform.position`). */
  datatype Vec3 = Vec3(x: real, y: real, z: real)
}
