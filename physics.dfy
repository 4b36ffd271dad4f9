/**
 * The rigid body the controller drives, seen from the controller's side: a velocity it may
 * overwrite, a mass it reads, and the log of forces and impulses it has asked the engine to
 * apply. The engine's integration of those forces is not part of this model.
 */
module Physics {
  import opened Vectors

  datatype ForceMode = Force | Impulse

  datatype AppliedForce = AppliedForce(force: Vec3, mode: ForceMode)

  datatype Body = Body(velocity: Vec3, mass: real, applied: seq<AppliedForce>)

  /** `Rigidbody.AddForce`: queued for the next physics step, so the velocity is not touched. */
  function AddForce(b: Body, f: Vec3, mode: ForceMode := Force): Body {
    b.(applied := b.applied + [AppliedForce(f, mode)])
  }
}
