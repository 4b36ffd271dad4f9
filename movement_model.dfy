/**
 * The discrete state of the `PlayerMovement` controller and what each of its methods does to
 * it, as functions on a snapshot of its fields (a `Motor`). The engine is abstracted away:
 * what it computes with floating-point vector math (the velocity seen from the look direction,
 * `Vector3.Angle` of a contact normal, magnitudes, the camera's current yaw) comes in as real
 * parameters, the rigid body is a record of its velocity and the forces requested of it, and
 * each deferred `Invoke` is a pending timer in a set. The controller class in module
 * MovementComponent is proved to follow these functions; MovementProperties proves what they
 * promise.
 */
module MovementModel {
  import opened Wrappers
  import opened Vectors
  import opened Physics
  import opened LayerMasks
  import IM = InputModel

  /** The controller's inspector settings; nothing in the controller writes them. */
  datatype Tuning = Tuning(
    sensitivity: real,
    sensMultiplier: real,
    moveSpeed: real,
    maxSpeed: real,
    whatIsGround: LayerMask,
    whatIsWallRunnable: LayerMask,
    counterMovement: real,
    maxSlopeAngle: real,
    slideForce: real,
    slideCounterMovement: real,
    jumpForce: real,
    maxCameraRollWhenRunningWall: real,
    upForceWhenStartingWallRun: real,
    wallRunGravity: real)   // a private field, never written

  /** The field initialisers; the two layer masks are set in the scene. */
  function DefaultTuning(whatIsGround: LayerMask, whatIsWallRunnable: LayerMask): Tuning {
    Tuning(50.0, 1.0, 4500.0, 20.0, whatIsGround, whatIsWallRunnable,
           0.175, 35.0, 400.0, 0.2, 550.0, 15.0, 20.0, 1.0)
  }

  /** Private constants of the controller. */
  const Threshold: real := 0.01
  const CrouchScale: Vec3 := Vec3(1.0, 0.5, 1.0)

  /** The callbacks the controller defers with `Invoke`. */
  datatype Timer =
    | GroundedTimer           // runs StopGrounded
    | WallRunTimer            // runs StopWallRun
    | JumpTimer               // runs ResetJump
    | WallJumpCooldownTimer   // runs EndWallJumpCooldown

  /** The controller's fields (those it writes, and the rigid body and input it drives). */
  datatype Motor = Motor(
    // rotation and look
    xRotation: real,
    desiredX: real,
    desiredWallRunRotation: real,
    // ground contact
    grounded: bool,
    normalVector: Vec3,
    cancellingGrounded: bool,
    // the transform's scale and position, and the standing scale recorded at Start
    scale: Vec3,
    position: Vec3,
    playerScale: Vec3,
    // jumping
    readyToJump: bool,
    // input copied each frame
    x: real,
    y: real,
    jumping: bool,
    crouching: bool,
    // wall-running
    isWallRunning: bool,
    wallNormalVector: Vec3,
    readyToWallRun: bool,
    wallJumpCooldownActive: bool,
    // game flow
    paused: bool,
    goalReached: bool,
    pauseNotices: seq<bool>,   // the values passed to the OnPause event, oldest first
    // deferred Invoke callbacks not yet run
    pending: set<Timer>,
    // the rigid body and the PlayerInputs component the controller holds
    rb: Body,
    input: IM.InputState)

  /** The state right after Awake and Start. */
  function Initial(playerScale: Vec3, position: Vec3, rb: Body, input: IM.InputState): Motor {
    Motor(0.0, 0.0, 0.0,
          false, Up, false,
          playerScale, position, playerScale,
          true,
          0.0, 0.0, false, false,
          false, Zero, true, false,
          false, false, [],
          {},
          rb, input)
  }

  /** What the engine supplies to one physics tick. */
  datatype TickCtx = TickCtx(
    dt: real,        // Time.deltaTime (the fixed step inside FixedUpdate)
    forward: Vec3,   // orientation.forward
    right: Vec3,     // orientation.right
    xMag: real,      // FindVelRelativeToLook().x: sideways velocity
    yMag: real,      // FindVelRelativeToLook().y: forward velocity
    speed: real)     // rb.linearVelocity.magnitude

  /** What the engine supplies to one frame. */
  datatype FrameCtx = FrameCtx(
    fixedDt: real,               // Time.fixedDeltaTime, which Look scales the mouse by
    forward: Vec3,               // orientation.forward, for the slide boost
    camYaw: real,                // playerCam.localRotation.eulerAngles.y
    wallAngleDifference: real)   // Mathf.DeltaAngle(camera yaw, wall angle)

  /** One contact point: its normal and `Vector3.Angle(Vector3.up, normal)`. */
  datatype Contact = Contact(normal: Vec3, angle: real)

  datatype Collision = Collision(gameObject: Option<GameObject>, contacts: seq<Contact>)

  // ----- contact classification -----

  /** A floor: tilted less than the steepest walkable slope. */
  predicate IsFloor(maxSlopeAngle: real, angle: real) {
    angle < maxSlopeAngle
  }

  /** A wall: within a tenth of a degree of vertical. */
  predicate IsWall(angle: real) {
    Abs(90.0 - angle) < 0.1
  }

  // ----- the rigid body -----

  /** `rb.AddForce(force, mode)`. */
  function ApplyForce(m: Motor, force: Vec3, mode: ForceMode := Force): Motor {
    m.(rb := AddForce(m.rb, force, mode))
  }

  /** `rb.linearVelocity = v`. */
  function SetVelocity(m: Motor, v: Vec3): Motor {
    m.(rb := m.rb.(velocity := v))
  }

  // ----- deferred calls -----

  /** `Invoke(name, delay)`: the callback is pending; when it comes due is not modelled. */
  function Invoke(m: Motor, timer: Timer): Motor {
    m.(pending := m.pending + {timer})
  }

  /** `CancelInvoke(name)`. */
  function CancelInvoke(m: Motor, timer: Timer): Motor {
    m.(pending := m.pending - {timer})
  }

  // ----- callbacks -----

  function StopGrounded(m: Motor): Motor {
    m.(grounded := false)
  }

  function StopWallRun(m: Motor): Motor {
    m.(isWallRunning := false)
  }

  function ResetJump(m: Motor): Motor {
    m.(readyToJump := true)
  }

  function EndWallJumpCooldown(m: Motor): Motor {
    m.(wallJumpCooldownActive := false)
  }

  function StartWallJumpCooldown(m: Motor): Motor {
    Invoke(m.(wallJumpCooldownActive := true), WallJumpCooldownTimer)
  }

  /** The callback a timer runs. */
  function RunCallback(m: Motor, timer: Timer): Motor {
    match timer
    case GroundedTimer => StopGrounded(m)
    case WallRunTimer => StopWallRun(m)
    case JumpTimer => ResetJump(m)
    case WallJumpCooldownTimer => EndWallJumpCooldown(m)
  }

  /** The scheduler runs a pending callback once and forgets it; one not pending does not run. */
  function Fire(m: Motor, timer: Timer): Motor {
    if timer in m.pending then RunCallback(CancelInvoke(m, timer), timer) else m
  }

  // ----- wall-run and contacts -----

  function StartWallRun(t: Tuning, m: Motor, normal: Vec3): Motor {
    if m.grounded || !m.readyToWallRun || m.wallJumpCooldownActive then m
    else
      var m1 := m.(wallNormalVector := normal);
      var m2 :=
        if !m1.isWallRunning then
          ApplyForce(SetVelocity(m1, m1.rb.velocity.(y := 0.0)), Scale(Up, t.upForceWhenStartingWallRun), Impulse)
        else m1;
      m2.(isWallRunning := true)
  }

  /** The floor branch of OnCollisionStay's loop: grounded on this normal, StopGrounded cancelled. */
  function TouchFloor(m: Motor, normal: Vec3): Motor {
    var m0 := if m.isWallRunning then StopWallRun(m) else m;
    CancelInvoke(m0.(grounded := true, normalVector := normal, cancellingGrounded := false), GroundedTimer)
  }

  /** The wall branch of OnCollisionStay's loop: CancelInvoke, then Invoke, so StopWallRun restarts. */
  function TouchWall(t: Tuning, m: Motor, normal: Vec3): Motor {
    Invoke(CancelInvoke(StartWallRun(t, m, normal), WallRunTimer), WallRunTimer)
  }

  /** The body of OnCollisionStay's loop, for one contact point. */
  function ContactStep(t: Tuning, m: Motor, c: Contact, onGround: bool, onWall: bool): Motor {
    var m1 := if IsFloor(t.maxSlopeAngle, c.angle) && onGround then TouchFloor(m, c.normal) else m;
    if IsWall(c.angle) && onWall then TouchWall(t, m1, c.normal) else m1
  }

  /** OnCollisionStay's loop over the contact points, first to last. */
  function Contacts(t: Tuning, m: Motor, cs: seq<Contact>, onGround: bool, onWall: bool): Motor
    decreases |cs|
  {
    if cs == [] then m
    else ContactStep(t, Contacts(t, m, cs[..|cs| - 1], onGround, onWall), cs[|cs| - 1], onGround, onWall)
  }

  function OnCollisionStay(t: Tuning, m: Motor, other: Collision): Motor {
    var isOnGroundLayer := Contains(t.whatIsGround, other.gameObject);
    var isOnWallRunnableLayer := Contains(t.whatIsWallRunnable, other.gameObject);
    if !isOnGroundLayer && !isOnWallRunnableLayer then m
    else
      var m1 := Contacts(t, m, other.contacts, isOnGroundLayer, isOnWallRunnableLayer);
      if !m1.cancellingGrounded then Invoke(m1.(cancellingGrounded := true), GroundedTimer)
      else m1
  }

  // ----- jumping -----

  /** The vertical-velocity rewrite of a jump. */
  function JumpVelocity(v: Vec3): Vec3 {
    if v.y < 0.5 then v.(y := 0.0)
    else if v.y > 0.0 then v.(y := v.y / 2.0)
    else v
  }

  /** Jumping while falling drops the vertical velocity; jumping while rising halves it. */
  function ResetFallingVelocity(m: Motor): Motor {
    SetVelocity(m, JumpVelocity(m.rb.velocity))
  }

  /** A jump off a wall pushes away from it, stops the wall run and starts the wall-jump cooldown. */
  function JumpOffWall(t: Tuning, m: Motor): Motor {
    if m.isWallRunning then
      StartWallJumpCooldown(StopWallRun(ApplyForce(m, Scale(m.wallNormalVector, t.jumpForce * 3.0))))
    else m
  }

  /** The jump is used up: not ready again until the cooldown, and the press is consumed. */
  function ConsumeJump(m: Motor): Motor {
    m.(readyToJump := false).(input := m.input.(jump := false))
  }

  /** The jump forces: straight up, and away from the surface with the given normal. */
  function JumpForces(t: Tuning, m: Motor, normal: Vec3): Motor {
    ApplyForce(ApplyForce(m, Scale(Up, t.jumpForce * 1.5)), Scale(normal, t.jumpForce * 0.5))
  }

  function Jump(t: Tuning, m: Motor): Motor {
    if (m.grounded || m.isWallRunning) && m.readyToJump then
      Invoke(JumpOffWall(t, ResetFallingVelocity(JumpForces(t, ConsumeJump(m), m.normalVector))), JumpTimer)
    else m
  }

  // ----- counter-movement -----

  /** Whether one look-relative axis gets a counter force: no input while moving, or input against the motion. */
  predicate NeedsCounter(mag: real, input: real) {
    (Abs(mag) > Threshold && Abs(input) < 0.05) || (mag < -Threshold && input > 0.0) || (mag > Threshold && input < 0.0)
  }

  /** `Mathf.Sqrt(vx² + vz²) > maxSpeed`, without the square root. */
  predicate ExceedsMaxSpeed(v: Vec3, maxSpeed: real) {
    maxSpeed < 0.0 || HorizontalSqrMagnitude(v) > maxSpeed * maxSpeed
  }

  /** The diagonal-running limit: horizontal part of `v.normalized * maxSpeed`, vertical part kept. */
  function LimitDiagonal(v: Vec3, speed: real, maxSpeed: real): Vec3 {
    var n := Scale(Normalized(v, speed), maxSpeed);
    Vec3(n.x, v.y, n.z)
  }

  /** Sliding friction: a push against the velocity. */
  function SlideFriction(t: Tuning, m: Motor, ctx: TickCtx): Motor {
    ApplyForce(m, Scale(Scale(Scale(Neg(Normalized(m.rb.velocity, ctx.speed)), t.moveSpeed), ctx.dt), t.slideCounterMovement))
  }

  /** The sideways counter force, when the sideways input stopped or opposes the sideways velocity. */
  function CounterForceX(t: Tuning, m: Motor, ctx: TickCtx): Motor {
    if NeedsCounter(ctx.xMag, m.x) then ApplyForce(m, Scale(Scale(Scale(Scale(ctx.right, t.moveSpeed), ctx.dt), -ctx.xMag), t.counterMovement))
    else m
  }

  /** The forward counter force, when the forward input stopped or opposes the forward velocity. */
  function CounterForceY(t: Tuning, m: Motor, ctx: TickCtx): Motor {
    if NeedsCounter(ctx.yMag, m.y) then ApplyForce(m, Scale(Scale(Scale(Scale(ctx.forward, t.moveSpeed), ctx.dt), -ctx.yMag), t.counterMovement))
    else m
  }

  /** The diagonal-running limit, applied when the horizontal speed is over maxSpeed. */
  function LimitSpeed(t: Tuning, m: Motor, ctx: TickCtx): Motor {
    if ExceedsMaxSpeed(m.rb.velocity, t.maxSpeed) then SetVelocity(m, LimitDiagonal(m.rb.velocity, ctx.speed, t.maxSpeed))
    else m
  }

  function CounterMovement(t: Tuning, m: Motor, ctx: TickCtx): Motor {
    if !m.grounded || m.jumping then m
    else if m.crouching then SlideFriction(t, m, ctx)
    else LimitSpeed(t, CounterForceY(t, CounterForceX(t, m, ctx), ctx), ctx)
  }

  // ----- movement -----

  /** One input axis after the speed cap: zeroed when it pushes further past the cap. */
  function CapAxis(input: real, mag: real, maxSpeed: real): real {
    var a := if input > 0.0 && mag > maxSpeed then 0.0 else input;
    if a < 0.0 && mag < -maxSpeed then 0.0 else a
  }

  /** (multiplier, multiplierV): each later rule overrides the earlier ones. */
  function Multipliers(grounded: bool, crouching: bool, wallRunning: bool): (real, real) {
    var p0 := (1.0, 1.0);
    var p1 := if !grounded then (0.5, 0.5) else p0;
    var p2 := if grounded && crouching then (p1.0, 0.0) else p1;
    if wallRunning then (0.3, 0.3) else p2
  }

  /** The speed cap on both input axes. */
  function CapInput(t: Tuning, m: Motor, ctx: TickCtx): Motor {
    m.(x := CapAxis(m.x, ctx.xMag, t.maxSpeed)).(y := CapAxis(m.y, ctx.yMag, t.maxSpeed))
  }

  /** The input forces, forward and sideways, scaled by the multipliers of the current state. */
  function InputForces(t: Tuning, m: Motor, ctx: TickCtx): Motor {
    var (multiplier, multiplierV) := Multipliers(m.grounded, m.crouching, m.isWallRunning);
    var m1 := ApplyForce(m, Scale(Scale(Scale(Scale(Scale(ctx.forward, m.y), t.moveSpeed), ctx.dt), multiplier), multiplierV));
    ApplyForce(m1, Scale(Scale(Scale(Scale(ctx.right, m.x), t.moveSpeed), ctx.dt), multiplier))
  }

  /** Movement after the jump: the slope push while sliding, or the capped and scaled input forces. */
  function Drive(t: Tuning, m: Motor, ctx: TickCtx): Motor {
    if m.crouching && m.grounded && m.readyToJump then
      ApplyForce(m, Scale(Down, ctx.dt * 3000.0))
    else
      InputForces(t, CapInput(t, m, ctx), ctx)
  }

  /** Extra gravity. */
  function Gravity(m: Motor, ctx: TickCtx): Motor {
    ApplyForce(m, Scale(Down, ctx.dt * 10.0))
  }

  /** Holding jump while ready to jump, jump. */
  function JumpIfHeld(t: Tuning, m: Motor): Motor {
    if m.readyToJump && m.jumping then Jump(t, m) else m
  }

  function Movement(t: Tuning, m: Motor, ctx: TickCtx): Motor {
    if m.paused || m.goalReached then m
    else Drive(t, JumpIfHeld(t, CounterMovement(t, Gravity(m, ctx), ctx)), ctx)
  }

  function StickToWallWhileWallRunning(t: Tuning, m: Motor, ctx: TickCtx): Motor {
    if !m.isWallRunning then m
    else
      var m1 := ApplyForce(m, Scale(Scale(Neg(m.wallNormalVector), ctx.dt), t.moveSpeed));
      ApplyForce(m1, Scale(Scale(Scale(Scale(Up, ctx.dt), m1.rb.mass), 100.0), t.wallRunGravity))
  }

  function FixedUpdate(t: Tuning, m: Motor, ctx: TickCtx): Motor {
    StickToWallWhileWallRunning(t, Movement(t, m, ctx), ctx)
  }

  // ----- per-frame input, crouch, pause and goal -----

  function StartCrouch(t: Tuning, m: Motor, f: FrameCtx): Motor {
    var m1 := m.(scale := CrouchScale).(position := m.position.(y := m.position.y - 0.5));
    // rb.linearVelocity.magnitude > 0.5, squared
    if SqrMagnitude(m1.rb.velocity) > 0.25 && m1.grounded then ApplyForce(m1, Scale(f.forward, t.slideForce))
    else m1
  }

  function StopCrouch(m: Motor): Motor {
    m.(scale := m.playerScale).(position := m.position.(y := m.position.y + 0.5))
  }

  function Pause(m: Motor): Motor {
    var m1 := m.(paused := !m.paused);
    m1.(pauseNotices := m1.pauseNotices + [m1.paused]).(input := m1.input.(pause := false))
  }

  function GoalReached(m: Motor): Motor {
    if !m.paused then m.(goalReached := true) else m
  }

  /** The movement axes and the held jump and crouch, copied from the input. */
  function ReadInput(m: Motor): Motor {
    m.(x := m.input.move.x).(y := m.input.move.y).(jumping := m.input.jump).(crouching := m.input.crouch)
  }

  /** A crouch press starts crouching and a release stands up, both in the same frame if both came. */
  function HandleCrouch(t: Tuning, m: Motor, f: FrameCtx): Motor {
    var m1 := if m.input.crouchPressed then StartCrouch(t, m, f) else m;
    if m.input.crouchReleased then StopCrouch(m1) else m1
  }

  /** A pause request toggles pause unless the goal has been reached. */
  function HandlePause(m: Motor): Motor {
    if m.input.pause && !m.goalReached then Pause(m) else m
  }

  function MyInput(t: Tuning, m: Motor, f: FrameCtx): Motor {
    HandlePause(HandleCrouch(t, ReadInput(m), f))
  }

  // ----- look -----

  /** `Mathf.Clamp`. */
  function Clamp(v: real, lo: real, hi: real): real {
    if v < lo then lo else if v > hi then hi else v
  }

  /** UpdateWallRunCameraRoll's target roll: a 90-degree difference gives the full roll. */
  function WallRunCameraRoll(t: Tuning, m: Motor, f: FrameCtx): real {
    if !m.isWallRunning then 0.0
    else (0.0 - f.wallAngleDifference / 90.0) * t.maxCameraRollWhenRunningWall
  }

  function Look(t: Tuning, m: Motor, f: FrameCtx): Motor {
    if m.paused || m.goalReached then m
    else
      var mouseX := m.input.look.x * t.sensitivity * f.fixedDt * t.sensMultiplier;
      var mouseY := m.input.look.y * t.sensitivity * f.fixedDt * t.sensMultiplier;
      m.(desiredX := f.camYaw + mouseX,
         xRotation := Clamp(m.xRotation - mouseY, -90.0, 90.0),
         desiredWallRunRotation := WallRunCameraRoll(t, m, f))
  }

  function Update(t: Tuning, m: Motor, f: FrameCtx): Motor {
    Look(t, MyInput(t, m, f), f)
  }

  // ----- the whole machine -----

  /** Everything that can happen to the controller, one at a time. */
  datatype Event =
    | PhysicsTick(tick: TickCtx)         // FixedUpdate
    | Frame(frame: FrameCtx)             // Update
    | Touching(other: Collision)         // OnCollisionStay
    | TimerFires(timer: Timer)           // a deferred Invoke comes due
    | GoalTouched                        // the goal trigger calls GoalReached
    | InputArrives(action: IM.InputAction)  // a PlayerInputs handler, or its LateUpdate

  function Step(t: Tuning, m: Motor, e: Event): Motor {
    match e
    case PhysicsTick(ctx) => FixedUpdate(t, m, ctx)
    case Frame(f) => Update(t, m, f)
    case Touching(other) => OnCollisionStay(t, m, other)
    case TimerFires(timer) => Fire(m, timer)
    case GoalTouched => GoalReached(m)
    case InputArrives(a) => m.(input := IM.Handle(m.input, a))
  }

  /** The state after a sequence of events, the last one handled last. */
  function Run(t: Tuning, m: Motor, es: seq<Event>): Motor
    decreases |es|
  {
    if es == [] then m else Step(t, Run(t, m, es[..|es| - 1]), es[|es| - 1])
  }

  /**
   * What holds between events:
   * - the character is never grounded and wall-running at once;
   * - while grounded, a StopGrounded is pending, and it is pending only once cancellingGrounded
   *   is set (so the guarded Invoke in OnCollisionStay never finds one already pending);
   * - while wall-running, a StopWallRun is pending;
   * - a ResetJump is pending exactly while the jump is not ready, and an EndWallJumpCooldown
   *   exactly while the wall-jump cooldown is active (so neither Invoke finds one pending);
   * - the wall-jump cooldown excludes wall-running;
   * - the goal is only reached unpaused, and the camera pitch stays within [-90, 90].
   */
  predicate Inv(m: Motor) {
    && !(m.grounded && m.isWallRunning)
    && (m.grounded ==> GroundedTimer in m.pending)
    && (GroundedTimer in m.pending ==> m.cancellingGrounded)
    && (m.isWallRunning ==> WallRunTimer in m.pending)
    && (m.readyToJump <==> JumpTimer !in m.pending)
    && (m.wallJumpCooldownActive <==> WallJumpCooldownTimer in m.pending)
    && (m.wallJumpCooldownActive ==> !m.isWallRunning)
    && (m.goalReached ==> !m.paused)
    && -90.0 <= m.xRotation <= 90.0
  }
}
