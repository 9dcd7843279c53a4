/** Option and Result values, and the error kinds the converter reports.
    Where the Python code raises an exception (ValueError, RuntimeError) or
    crashes, the model returns `Err` with one of these kinds. */
module Results {

  datatype Option<+T> = None | Some(value: T)

  datatype Result<+T> = Ok(value: T) | Err(error: Error)

  /** The two boolean operations handed to the CSG solver. */
  datatype BoolOp = Union | Intersection

  datatype Error =
      /** trimesh reports no bounds (None) for a mesh without vertices; reading them fails. */
    | EmptyMesh
      /** manifold3d raised; the wrapper re-raises as RuntimeError. */
    | BooleanFailed(op: BoolOp)
      /** `--modules` text without an `x`. */
    | ModulesNoSeparator(text: string)
      /** `--modules` text whose parts are not integers. */
    | ModulesNotInteger(text: string)
      /** `--modules` text with a count below 1. */
    | ModulesBelowOne(text: string)
      /** A division by a zero pitch (Python raises ZeroDivisionError). */
    | DivisionByZero
      /** Footprint width or depth is not positive. */
    | DegenerateFootprint(width: real, depth: real)
      /** Rounded module counts below 1. */
    | InferredBelowOne(n: int, m: int)
      /** Footprint is further than the tolerance from a whole number of modules. */
    | FootprintMismatch(width: real, depth: real, n: int, m: int, errX: real, errY: real)
      /** Reference tile footprint does not match the destination pitch. */
    | RefPitchMismatch(width: real, depth: real, target: real)
      /** Surface sampling or the proximity query raised during verification. */
    | VerifySampling
      /** Largest distance between the two surfaces exceeds the tolerance. */
    | VerifyFailed(maxMm: real, tolMm: real)
}
