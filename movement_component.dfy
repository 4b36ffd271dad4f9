/**
 * The `PlayerMovement` component: the fields it updates in place, and one method per method of
 * the component, each proved to change the fields exactly as the matching function of
 * MovementModel says. The engine callbacks (FixedUpdate, Update, OnCollisionStay, a deferred
 * Invoke coming due, the goal trigger) also keep MovementModel.Inv, by the lemmas of
 * MovementProperties.
 */
module MovementComponent {
  import opened Wrappers
  import opened Vectors
  import opened Physics
  import opened LayerMasks
  import M = MovementModel
  import P = MovementProperties
  import InputComponent

  class PlayerMovement {
    /** The inspector settings and the PlayerInputs component found at Start. */
    const tuning: M.Tuning
    const input: InputComponent.PlayerInputs

    var xRotation: real
    var desiredX: real
    var desiredWallRunRotation: real
    var grounded: bool
    var normalVector: Vec3
    var cancellingGrounded: bool
    var scale: Vec3
    var position: Vec3
    var playerScale: Vec3
    var readyToJump: bool
    var x: real
    var y: real
    var jumping: bool
    var crouching: bool
    var isWallRunning: bool
    var wallNormalVector: Vec3
    var readyToWallRun: bool
    var wallJumpCooldownActive: bool
    var paused: bool
    var goalReached: bool
    /** The values passed to the OnPause event so far. */
    var pauseNotices: seq<bool>
    /** The callbacks deferred with Invoke and not yet run. */
    var pending: set<M.Timer>
    var rb: Body

    /** The component's fields, and those of its PlayerInputs, as one value. */
    function State(): M.Motor
      reads this, input
    {
      M.Motor(xRotation, desiredX, desiredWallRunRotation,
              grounded, normalVector, cancellingGrounded,
              scale, position, playerScale,
              readyToJump,
              x, y, jumping, crouching,
              isWallRunning, wallNormalVector, readyToWallRun, wallJumpCooldownActive,
              paused, goalReached, pauseNotices,
              pending,
              rb, input.State())
    }

    predicate Valid()
      reads this, input
    {
      M.Inv(State())
    }

    /** The field initialisers, Awake and Start: the standing scale is the transform's scale. */
    constructor (tuning: M.Tuning, input: InputComponent.PlayerInputs, scale: Vec3, position: Vec3, rb: Body)
      ensures this.tuning == tuning && this.input == input
      ensures State() == M.Initial(scale, position, rb, input.State())
      ensures Valid()
    {
      this.tuning, this.input := tuning, input;
      xRotation, desiredX, desiredWallRunRotation := 0.0, 0.0, 0.0;
      grounded, normalVector, cancellingGrounded := false, Up, false;
      this.scale, this.position, playerScale := scale, position, scale;
      readyToJump := true;
      x, y, jumping, crouching := 0.0, 0.0, false, false;
      isWallRunning, wallNormalVector, readyToWallRun, wallJumpCooldownActive := false, Zero, true, false;
      paused, goalReached, pauseNotices := false, false, [];
      pending := {};
      this.rb := rb;
      new;
      P.InitialSatisfiesInv(scale, position, rb, input.State());
    }

    // ----- writes of one field, the rigid body and the transform -----
    // The methods below are composed of these, one field written per call.

    method SetGrounded(v: bool)
      modifies this
      ensures State() == old(State()).(grounded := v)
    {
      grounded := v;
    }

    method SetNormalVector(v: Vec3)
      modifies this
      ensures State() == old(State()).(normalVector := v)
    {
      normalVector := v;
    }

    method SetCancellingGrounded(v: bool)
      modifies this
      ensures State() == old(State()).(cancellingGrounded := v)
    {
      cancellingGrounded := v;
    }

    method SetWallNormalVector(v: Vec3)
      modifies this
      ensures State() == old(State()).(wallNormalVector := v)
    {
      wallNormalVector := v;
    }

    method SetWallRunning(v: bool)
      modifies this
      ensures State() == old(State()).(isWallRunning := v)
    {
      isWallRunning := v;
    }

    method SetReadyToJump(v: bool)
      modifies this
      ensures State() == old(State()).(readyToJump := v)
    {
      readyToJump := v;
    }

    method SetX(v: real)
      modifies this
      ensures State() == old(State()).(x := v)
    {
      x := v;
    }

    method SetY(v: real)
      modifies this
      ensures State() == old(State()).(y := v)
    {
      y := v;
    }

    method SetJumping(v: bool)
      modifies this
      ensures State() == old(State()).(jumping := v)
    {
      jumping := v;
    }

    method SetCrouching(v: bool)
      modifies this
      ensures State() == old(State()).(crouching := v)
    {
      crouching := v;
    }

    method SetPaused(v: bool)
      modifies this
      ensures State() == old(State()).(paused := v)
    {
      paused := v;
    }

    method SetDesiredX(v: real)
      modifies this
      ensures State() == old(State()).(desiredX := v)
    {
      desiredX := v;
    }

    method SetXRotation(v: real)
      modifies this
      ensures State() == old(State()).(xRotation := v)
    {
      xRotation := v;
    }

    /** `transform.localScale = v`. */
    method SetLocalScale(v: Vec3)
      modifies this
      ensures State() == old(State()).(scale := v)
    {
      scale := v;
    }

    /** `transform.position = v`. */
    method SetPosition(v: Vec3)
      modifies this
      ensures State() == old(State()).(position := v)
    {
      position := v;
    }

    /** `rb.AddForce(force, mode)`: the force is requested of the rigid body. */
    method AddForce(force: Vec3, mode: ForceMode := ForceMode.Force)
      modifies this
      ensures State() == M.ApplyForce(old(State()), force, mode)
    {
      rb := Physics.AddForce(rb, force, mode);
    }

    /** `rb.linearVelocity = v`. */
    method SetVelocity(v: Vec3)
      modifies this
      ensures State() == M.SetVelocity(old(State()), v)
    {
      rb := rb.(velocity := v);
    }

    /** `OnPause.Invoke(value)`: the listeners are told the new pause state. */
    method InvokeOnPause(value: bool)
      modifies this
      ensures State() == old(State()).(pauseNotices := old(pauseNotices) + [value])
    {
      pauseNotices := pauseNotices + [value];
    }

    // ----- deferred calls -----

    /** `Invoke(name, delay)`: the callback is pending; when it comes due is not modelled. */
    method Invoke(timer: M.Timer)
      modifies this
      ensures State() == M.Invoke(old(State()), timer)
    {
      pending := pending + {timer};
    }

    /** `CancelInvoke(name)`. */
    method CancelInvoke(timer: M.Timer)
      modifies this
      ensures State() == M.CancelInvoke(old(State()), timer)
    {
      pending := pending - {timer};
    }

    /** The scheduler running a deferred callback that has come due, once. */
    method Fire(timer: M.Timer)
      requires Valid()
      modifies this
      ensures State() == M.Fire(old(State()), timer)
      ensures Valid()
    {
      P.FireKeepsInv(State(), timer);
      if timer in pending {
        CancelInvoke(timer);
        match timer
        case GroundedTimer => StopGrounded();
        case WallRunTimer => StopWallRun();
        case JumpTimer => ResetJump();
        case WallJumpCooldownTimer => EndWallJumpCooldown();
      }
    }

    method StopGrounded()
      modifies this
      ensures State() == M.StopGrounded(old(State()))
    {
      grounded := false;
    }

    method StopWallRun()
      modifies this
      ensures State() == M.StopWallRun(old(State()))
    {
      isWallRunning := false;
    }

    method ResetJump()
      modifies this
      ensures State() == M.ResetJump(old(State()))
    {
      readyToJump := true;
    }

    method StartWallJumpCooldown()
      modifies this
      ensures State() == M.StartWallJumpCooldown(old(State()))
    {
      SetWallJumpCooldownActive(true);
      Invoke(M.WallJumpCooldownTimer);
    }

    method EndWallJumpCooldown()
      modifies this
      ensures State() == M.EndWallJumpCooldown(old(State()))
    {
      SetWallJumpCooldownActive(false);
    }

    method SetWallJumpCooldownActive(v: bool)
      modifies this
      ensures State() == old(State()).(wallJumpCooldownActive := v)
    {
      wallJumpCooldownActive := v;
    }

    // ----- contacts -----

    method StartWallRun(normal: Vec3)
      modifies this
      ensures State() == M.StartWallRun(tuning, old(State()), normal)
    {
      if grounded || !readyToWallRun || wallJumpCooldownActive {
        return;
      }
      SetWallNormalVector(normal);
      if !isWallRunning {
        SetVelocity(Vec3(rb.velocity.x, 0.0, rb.velocity.z));
        AddForce(Scale(Up, tuning.upForceWhenStartingWallRun), Impulse);
      }
      SetWallRunning(true);
    }

    /** The floor branch of OnCollisionStay's loop. */
    method TouchFloor(normal: Vec3)
      modifies this
      ensures State() == M.TouchFloor(old(State()), normal)
    {
      if isWallRunning {
        StopWallRun();
      }
      SetGrounded(true);
      SetNormalVector(normal);
      SetCancellingGrounded(false);
      CancelInvoke(M.GroundedTimer);
    }

    /** The wall branch of OnCollisionStay's loop. */
    method TouchWall(normal: Vec3)
      modifies this
      ensures State() == M.TouchWall(tuning, old(State()), normal)
    {
      StartWallRun(normal);
      CancelInvoke(M.WallRunTimer);
      Invoke(M.WallRunTimer);
    }

    /** The body of OnCollisionStay's loop: floor, then wall detection for one contact point. */
    method ContactPoint(contact: M.Contact, isOnGroundLayer: bool, isOnWallRunnableLayer: bool)
      modifies this
      ensures State() == M.ContactStep(tuning, old(State()), contact, isOnGroundLayer, isOnWallRunnableLayer)
    {
      if M.IsFloor(tuning.maxSlopeAngle, contact.angle) && isOnGroundLayer {
        TouchFloor(contact.normal);
      }
      if M.IsWall(contact.angle) && isOnWallRunnableLayer {
        TouchWall(contact.normal);
      }
    }

    /** OnCollisionStay's loop over the contact points, first to last. */
    method ContactPoints(contacts: seq<M.Contact>, isOnGroundLayer: bool, isOnWallRunnableLayer: bool)
      modifies this
      ensures State() == M.Contacts(tuning, old(State()), contacts, isOnGroundLayer, isOnWallRunnableLayer)
    {
      var i := 0;
      while i < |contacts|
        invariant 0 <= i <= |contacts|
        invariant State() == M.Contacts(tuning, old(State()), contacts[..i], isOnGroundLayer, isOnWallRunnableLayer)
      {
        ContactPoint(contacts[i], isOnGroundLayer, isOnWallRunnableLayer);
        assert contacts[..i + 1][..i] == contacts[..i];
        i := i + 1;
      }
      assert contacts[..i] == contacts;
    }

    /**
     * Ground and wall detection for one colliding object; when contact is lost, StopGrounded
     * comes due a few ticks later.
     */
    method OnCollisionStay(other: M.Collision)
      requires Valid()
      modifies this
      ensures State() == M.OnCollisionStay(tuning, old(State()), other)
      ensures Valid()
    {
      P.OnCollisionStayKeepsInv(tuning, State(), other);
      var isOnGroundLayer := Contains(tuning.whatIsGround, other.gameObject);
      var isOnWallRunnableLayer := Contains(tuning.whatIsWallRunnable, other.gameObject);
      if !isOnGroundLayer && !isOnWallRunnableLayer {
        return;
      }
      ContactPoints(other.contacts, isOnGroundLayer, isOnWallRunnableLayer);
      if !cancellingGrounded {
        SetCancellingGrounded(true);
        Invoke(M.GroundedTimer);
      }
    }

    // ----- the physics tick -----

    /** Slows the character down on the ground: sliding friction, or counter forces and the speed limit. */
    method CounterMovement(ctx: M.TickCtx)
      modifies this
      ensures State() == M.CounterMovement(tuning, old(State()), ctx)
    {
      if !grounded || jumping {
        return;
      }
      if crouching {
        AddForce(Scale(Scale(Scale(Neg(Normalized(rb.velocity, ctx.speed)), tuning.moveSpeed), ctx.dt), tuning.slideCounterMovement));
        return;
      }
      ghost var m0 := State();
      if M.NeedsCounter(ctx.xMag, x) {
        AddForce(Scale(Scale(Scale(Scale(ctx.right, tuning.moveSpeed), ctx.dt), -ctx.xMag), tuning.counterMovement));
      }
      assert State() == M.CounterForceX(tuning, m0, ctx);
      ghost var m1 := State();
      if M.NeedsCounter(ctx.yMag, y) {
        AddForce(Scale(Scale(Scale(Scale(ctx.forward, tuning.moveSpeed), ctx.dt), -ctx.yMag), tuning.counterMovement));
      }
      assert State() == M.CounterForceY(tuning, m1, ctx);
      if M.ExceedsMaxSpeed(rb.velocity, tuning.maxSpeed) {
        var fallspeed := rb.velocity.y;
        var n := Scale(Normalized(rb.velocity, ctx.speed), tuning.maxSpeed);
        SetVelocity(Vec3(n.x, fallspeed, n.z));
      }
    }

    /** Jumps when on the ground or a wall and the jump is ready; off a wall, also away from it. */
    method Jump()
      modifies this, input
      ensures State() == M.Jump(tuning, old(State()))
    {
      if (grounded || isWallRunning) && readyToJump {
        var normal := normalVector;
        ConsumeJump();
        AddJumpForces(normal);
        ResetFallingVelocity();
        JumpOffWall();
        Invoke(M.JumpTimer);
      }
    }

    /** The jump is used up: not ready again until the cooldown, and the press is consumed. */
    method ConsumeJump()
      modifies this, input
      ensures State() == M.ConsumeJump(old(State()))
    {
      SetReadyToJump(false);
      input.JumpInput(false);
    }

    /** The jump forces: straight up, and away from the surface with the given normal. */
    method AddJumpForces(normal: Vec3)
      modifies this
      ensures State() == M.JumpForces(tuning, old(State()), normal)
    {
      AddForce(Scale(Up, tuning.jumpForce * 1.5));
      AddForce(Scale(normal, tuning.jumpForce * 0.5));
    }

    /** Jumping while falling drops the vertical velocity; jumping while rising halves it. */
    method ResetFallingVelocity()
      modifies this
      ensures State() == M.ResetFallingVelocity(old(State()))
    {
      var vel := rb.velocity;
      if rb.velocity.y < 0.5 {
        SetVelocity(Vec3(vel.x, 0.0, vel.z));
      } else if rb.velocity.y > 0.0 {
        SetVelocity(Vec3(vel.x, vel.y / 2.0, vel.z));
      }
    }

    /** A jump off a wall: pushed away from it, the wall run stops and the wall-jump cooldown starts. */
    method JumpOffWall()
      modifies this
      ensures State() == M.JumpOffWall(tuning, old(State()))
    {
      if isWallRunning {
        AddForce(Scale(wallNormalVector, tuning.jumpForce * 3.0));
        StopWallRun();
        StartWallJumpCooldown();
      }
    }

    /** Extra gravity, counter-movement, a held jump, then the input forces; nothing while paused or done. */
    method Movement(ctx: M.TickCtx)
      modifies this, input
      ensures State() == M.Movement(tuning, old(State()), ctx)
    {
      if paused || goalReached {
        return;
      }
      ghost var m0 := State();
      AddForce(Scale(Down, ctx.dt * 10.0));
      assert State() == M.Gravity(m0, ctx);
      ghost var g := State();
      CounterMovement(ctx);
      assert State() == M.CounterMovement(tuning, g, ctx);
      ghost var before := State();
      if readyToJump && jumping {
        Jump();
      }
      assert State() == M.JumpIfHeld(tuning, before);
      ghost var j := State();
      Drive(ctx);
      assert State() == M.Drive(tuning, j, ctx);
      assert State() == M.Drive(tuning, M.JumpIfHeld(tuning, M.CounterMovement(tuning, M.Gravity(m0, ctx), ctx)), ctx);
    }

    /** The rest of Movement: the slope push while sliding, or the capped and scaled input forces. */
    method Drive(ctx: M.TickCtx)
      modifies this
      ensures State() == M.Drive(tuning, old(State()), ctx)
    {
      if crouching && grounded && readyToJump {
        AddForce(Scale(Down, ctx.dt * 3000.0));
        return;
      }
      // the speed cap: an axis pushing further past maxSpeed is dropped
      SetX(M.CapAxis(x, ctx.xMag, tuning.maxSpeed));
      SetY(M.CapAxis(y, ctx.yMag, tuning.maxSpeed));
      AddInputForces(ctx);
    }

    /** The input forces, scaled down in the air, while sliding and while running on a wall. */
    method AddInputForces(ctx: M.TickCtx)
      modifies this
      ensures State() == M.InputForces(tuning, old(State()), ctx)
    {
      var multiplier, multiplierV := 1.0, 1.0;
      if !grounded {
        multiplier, multiplierV := 0.5, 0.5;
      }
      if grounded && crouching {
        multiplierV := 0.0;
      }
      if isWallRunning {
        multiplier, multiplierV := 0.3, 0.3;
      }
      var x, y := x, y;
      AddForce(Scale(Scale(Scale(Scale(Scale(ctx.forward, y), tuning.moveSpeed), ctx.dt), multiplier), multiplierV));
      AddForce(Scale(Scale(Scale(Scale(ctx.right, x), tuning.moveSpeed), ctx.dt), multiplier));
    }

    method StickToWallWhileWallRunning(ctx: M.TickCtx)
      modifies this
      ensures State() == M.StickToWallWhileWallRunning(tuning, old(State()), ctx)
    {
      if !isWallRunning {
        return;
      }
      AddForce(Scale(Scale(Neg(wallNormalVector), ctx.dt), tuning.moveSpeed));
      AddForce(Scale(Scale(Scale(Scale(Up, ctx.dt), rb.mass), 100.0), tuning.wallRunGravity));
    }

    /** The physics tick. */
    method FixedUpdate(ctx: M.TickCtx)
      requires Valid()
      modifies this, input
      ensures State() == M.FixedUpdate(tuning, old(State()), ctx)
      ensures Valid()
    {
      P.FixedUpdateKeepsInv(tuning, State(), ctx);
      Movement(ctx);
      StickToWallWhileWallRunning(ctx);
    }

    // ----- the frame -----

    /** Shrinks the collider and lowers it; moving on the ground, also a forward boost into a slide. */
    method StartCrouch(f: M.FrameCtx)
      modifies this
      ensures State() == M.StartCrouch(tuning, old(State()), f)
    {
      SetLocalScale(M.CrouchScale);
      SetPosition(Vec3(position.x, position.y - 0.5, position.z));
      if SqrMagnitude(rb.velocity) > 0.25 {
        if grounded {
          AddForce(Scale(f.forward, tuning.slideForce));
        }
      }
    }

    /** Restores the standing scale and raises the collider back. */
    method StopCrouch()
      modifies this
      ensures State() == M.StopCrouch(old(State()))
    {
      SetLocalScale(playerScale);
      SetPosition(Vec3(position.x, position.y + 0.5, position.z));
    }

    /** Toggles pause, tells the listeners, and consumes the pause press. */
    method Pause()
      modifies this, input
      ensures State() == M.Pause(old(State()))
    {
      SetPaused(!paused);
      InvokeOnPause(paused);
      input.pause := false;
    }

    /** Called by the goal trigger: the goal counts only while not paused. */
    method GoalReached()
      requires Valid()
      modifies this
      ensures State() == M.GoalReached(old(State()))
      ensures Valid()
    {
      P.GoalReachedKeepsInv(State());
      if !paused {
        goalReached := true;
      }
    }

    /** The movement axes and the held jump and crouch, copied from the input. */
    method ReadInput()
      modifies this
      ensures State() == M.ReadInput(old(State()))
    {
      SetX(input.move.x);
      SetY(input.move.y);
      SetJumping(input.jump);
      SetCrouching(input.crouch);
    }

    /** Copies this frame's input, starts or stops crouching on the edges, and pauses on request. */
    method MyInput(f: M.FrameCtx)
      modifies this, input
      ensures State() == M.MyInput(tuning, old(State()), f)
    {
      ReadInput();
      HandleCrouch(f);
      HandlePause();
    }

    /** The crouch edges of this frame: a press starts crouching, a release stands up. */
    method HandleCrouch(f: M.FrameCtx)
      modifies this
      ensures State() == M.HandleCrouch(tuning, old(State()), f)
    {
      if input.crouchPressed {
        StartCrouch(f);
      }
      if input.crouchReleased {
        StopCrouch();
      }
    }

    /** A pause request toggles pause unless the goal has been reached. */
    method HandlePause()
      modifies this, input
      ensures State() == M.HandlePause(old(State()))
    {
      if input.pause && !goalReached {
        Pause();
      }
    }

    /** The camera roll to aim for: none off the wall, up to the maximum roll on it. */
    method UpdateWallRunCameraRoll(f: M.FrameCtx)
      modifies this
      ensures State() == old(State()).(desiredWallRunRotation := M.WallRunCameraRoll(tuning, old(State()), f))
    {
      if !isWallRunning {
        desiredWallRunRotation := 0.0;
        return;
      }
      desiredWallRunRotation := (0.0 - f.wallAngleDifference / 90.0) * tuning.maxCameraRollWhenRunningWall;
    }

    /** Mouse look: yaw follows the camera, pitch is clamped, the wall-run roll is updated. */
    method Look(f: M.FrameCtx)
      modifies this
      ensures State() == M.Look(tuning, old(State()), f)
    {
      if paused || goalReached {
        return;
      }
      var mouseX := input.look.x * tuning.sensitivity * f.fixedDt * tuning.sensMultiplier;
      var mouseY := input.look.y * tuning.sensitivity * f.fixedDt * tuning.sensMultiplier;
      SetDesiredX(f.camYaw + mouseX);
      SetXRotation(xRotation - mouseY);
      SetXRotation(M.Clamp(xRotation, -90.0, 90.0));
      UpdateWallRunCameraRoll(f);
    }

    /** The frame. */
    method Update(f: M.FrameCtx)
      requires Valid()
      modifies this, input
      ensures State() == M.Update(tuning, old(State()), f)
      ensures Valid()
    {
      P.UpdateKeepsInv(tuning, State(), f);
      MyInput(f);
      Look(f);
    }
  }
}
