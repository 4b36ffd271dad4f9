/** What the movement controller's rules promise, proved about the functions of MovementModel. */
module MovementProperties {
  import opened Wrappers
  import opened Vectors
  import opened Physics
  import opened LayerMasks
  import opened MovementModel
  import IM = InputModel

  // ----- contact classification -----

  /** With the default steepest slope of 35 degrees, no contact is both a floor and a wall. */
  lemma DefaultFloorAndWallDisjoint(angle: real)
    ensures !(IsFloor(35.0, angle) && IsWall(angle))
  {
  }

  /** Floors and walls never overlap exactly when the steepest slope is at most 89.9 degrees. */
  lemma FloorAndWallDisjointIff(maxSlopeAngle: real)
    ensures (forall angle :: !(IsFloor(maxSlopeAngle, angle) && IsWall(angle))) <==> maxSlopeAngle <= 89.9
  {
    if maxSlopeAngle > 89.9 {
      var a := if maxSlopeAngle > 90.0 then 90.0 else (89.9 + maxSlopeAngle) / 2.0;
      assert IsFloor(maxSlopeAngle, a) && IsWall(a);
    }
  }

  // ----- wall-run start -----

  /** StartWallRun refuses while grounded, not ready, or in the wall-jump cooldown. */
  lemma StartWallRunRefuses(t: Tuning, m: Motor, normal: Vec3)
    requires m.grounded || !m.readyToWallRun || m.wallJumpCooldownActive
    ensures StartWallRun(t, m, normal) == m
  {
  }

  /**
   * Otherwise it wall-runs along the given wall, and only on the first contact zeroes the
   * vertical velocity and adds the upward impulse; nothing else changes.
   */
  lemma StartWallRunStarts(t: Tuning, m: Motor, normal: Vec3)
    requires !m.grounded && m.readyToWallRun && !m.wallJumpCooldownActive
    ensures var r := StartWallRun(t, m, normal);
      && r.isWallRunning && r.wallNormalVector == normal
      && (m.isWallRunning ==> r.rb == m.rb)
      && (!m.isWallRunning ==>
            r.rb.velocity == Vec3(m.rb.velocity.x, 0.0, m.rb.velocity.z)
            && r.rb.applied == m.rb.applied + [AppliedForce(Scale(Up, t.upForceWhenStartingWallRun), Impulse)])
      && r.(isWallRunning := m.isWallRunning, wallNormalVector := m.wallNormalVector, rb := m.rb) == m
  {
  }

  // ----- OnCollisionStay -----

  /** Some contact point is a floor, on a ground-layer object. */
  predicate HasFloor(t: Tuning, cs: seq<Contact>, onGround: bool) {
    onGround && exists i :: 0 <= i < |cs| && IsFloor(t.maxSlopeAngle, cs[i].angle)
  }

  /** Some contact point is a wall, on a wall-runnable-layer object. */
  predicate HasWall(cs: seq<Contact>, onWall: bool) {
    onWall && exists i :: 0 <= i < |cs| && IsWall(cs[i].angle)
  }

  lemma HasFloorSplit(t: Tuning, cs: seq<Contact>, onGround: bool)
    requires cs != []
    ensures HasFloor(t, cs, onGround) <==>
      HasFloor(t, cs[..|cs| - 1], onGround) || (onGround && IsFloor(t.maxSlopeAngle, cs[|cs| - 1].angle))
  {
    var n := |cs| - 1;
    if HasFloor(t, cs, onGround) && !(onGround && IsFloor(t.maxSlopeAngle, cs[n].angle)) {
      var i :| 0 <= i < |cs| && IsFloor(t.maxSlopeAngle, cs[i].angle);
      assert cs[..n][i] == cs[i];
    }
    if HasFloor(t, cs[..n], onGround) {
      var i :| 0 <= i < n && IsFloor(t.maxSlopeAngle, cs[..n][i].angle);
      assert cs[i] == cs[..n][i];
    }
  }

  lemma HasWallSplit(cs: seq<Contact>, onWall: bool)
    requires cs != []
    ensures HasWall(cs, onWall) <==> HasWall(cs[..|cs| - 1], onWall) || (onWall && IsWall(cs[|cs| - 1].angle))
  {
    var n := |cs| - 1;
    if HasWall(cs, onWall) && !(onWall && IsWall(cs[n].angle)) {
      var i :| 0 <= i < |cs| && IsWall(cs[i].angle);
      assert cs[..n][i] == cs[i];
    }
    if HasWall(cs[..n], onWall) {
      var i :| 0 <= i < n && IsWall(cs[..n][i].angle);
      assert cs[i] == cs[..n][i];
    }
  }

  /** One contact point's effect on the ground state and the floor normal. */
  lemma ContactStepGrounding(t: Tuning, m: Motor, c: Contact, onGround: bool, onWall: bool)
    ensures var r := ContactStep(t, m, c, onGround, onWall);
      var floor := onGround && IsFloor(t.maxSlopeAngle, c.angle);
      && (r.grounded <==> m.grounded || floor)
      && (r.cancellingGrounded <==> m.cancellingGrounded && !floor)
      && (GroundedTimer in r.pending <==> GroundedTimer in m.pending && !floor)
      && r.normalVector == (if floor then c.normal else m.normalVector)
  {
  }

  /** One contact point's effect on the wall-run state. */
  lemma ContactStepWallRun(t: Tuning, m: Motor, c: Contact, onGround: bool, onWall: bool)
    ensures var r := ContactStep(t, m, c, onGround, onWall);
      var wall := onWall && IsWall(c.angle);
      && (WallRunTimer in r.pending <==> WallRunTimer in m.pending || wall)
      && (r.isWallRunning ==> m.isWallRunning || wall)
  {
  }

  /** What one contact point leaves alone. */
  lemma ContactStepKeepsJumpState(t: Tuning, m: Motor, c: Contact, onGround: bool, onWall: bool)
    ensures SameJumpState(m, ContactStep(t, m, c, onGround, onWall))
  {
    var m1 := if IsFloor(t.maxSlopeAngle, c.angle) && onGround then TouchFloor(m, c.normal) else m;
    TouchFloorKeepsJumpState(m, c.normal);
    TouchWallKeepsJumpState(t, m1, c.normal);
  }

  /** The jump state, the timers other than the contact ones, the game flow and the camera pitch. */
  predicate SameJumpState(m: Motor, r: Motor) {
    && r.readyToJump == m.readyToJump && r.wallJumpCooldownActive == m.wallJumpCooldownActive
    && (JumpTimer in r.pending <==> JumpTimer in m.pending)
    && (WallJumpCooldownTimer in r.pending <==> WallJumpCooldownTimer in m.pending)
    && r.paused == m.paused && r.goalReached == m.goalReached && r.xRotation == m.xRotation
  }

  lemma TouchFloorKeepsJumpState(m: Motor, normal: Vec3)
    ensures SameJumpState(m, TouchFloor(m, normal))
  {
  }

  lemma TouchWallKeepsJumpState(t: Tuning, m: Motor, normal: Vec3)
    ensures SameJumpState(m, TouchWall(t, m, normal))
  {
  }

  /**
   * After the contact loop: grounded exactly when it was or some contact is a floor; the pending
   * StopGrounded and the cancelling flag survive exactly when no contact is a floor.
   */
  lemma {:induction false} ContactsGrounding(t: Tuning, m: Motor, cs: seq<Contact>, onGround: bool, onWall: bool)
    ensures var r := Contacts(t, m, cs, onGround, onWall);
      && (r.grounded <==> m.grounded || HasFloor(t, cs, onGround))
      && (r.cancellingGrounded <==> m.cancellingGrounded && !HasFloor(t, cs, onGround))
      && (GroundedTimer in r.pending <==> GroundedTimer in m.pending && !HasFloor(t, cs, onGround))
    decreases |cs|
  {
    if cs != [] {
      var n := |cs| - 1;
      ContactsGrounding(t, m, cs[..n], onGround, onWall);
      ContactStepGrounding(t, Contacts(t, m, cs[..n], onGround, onWall), cs[n], onGround, onWall);
      HasFloorSplit(t, cs, onGround);
    }
  }

  /**
   * After the contact loop a StopWallRun is pending exactly when one was or some contact is a
   * wall, whether or not the wall-run started; a wall-run is under way only if one was or some
   * contact is a wall.
   */
  lemma {:induction false} ContactsWallRun(t: Tuning, m: Motor, cs: seq<Contact>, onGround: bool, onWall: bool)
    ensures var r := Contacts(t, m, cs, onGround, onWall);
      && (WallRunTimer in r.pending <==> WallRunTimer in m.pending || HasWall(cs, onWall))
      && (r.isWallRunning ==> m.isWallRunning || HasWall(cs, onWall))
    decreases |cs|
  {
    if cs != [] {
      var n := |cs| - 1;
      ContactsWallRun(t, m, cs[..n], onGround, onWall);
      ContactStepWallRun(t, Contacts(t, m, cs[..n], onGround, onWall), cs[n], onGround, onWall);
      HasWallSplit(cs, onWall);
    }
  }

  /** The contact loop leaves the jump and cooldown state, the game flow and the pitch alone. */
  lemma {:induction false} ContactsKeepJumpState(t: Tuning, m: Motor, cs: seq<Contact>, onGround: bool, onWall: bool)
    ensures var r := Contacts(t, m, cs, onGround, onWall);
      && r.readyToJump == m.readyToJump && r.wallJumpCooldownActive == m.wallJumpCooldownActive
      && (JumpTimer in r.pending <==> JumpTimer in m.pending)
      && (WallJumpCooldownTimer in r.pending <==> WallJumpCooldownTimer in m.pending)
      && r.paused == m.paused && r.goalReached == m.goalReached && r.xRotation == m.xRotation
    decreases |cs|
  {
    if cs != [] {
      var n := |cs| - 1;
      ContactsKeepJumpState(t, m, cs[..n], onGround, onWall);
      ContactStepKeepsJumpState(t, Contacts(t, m, cs[..n], onGround, onWall), cs[n], onGround, onWall);
    }
  }

  /**
   * The floor normal recorded by the loop is that of the last floor contact (`i` below), or the
   * old one when no contact is a floor.
   */
  lemma {:induction false} ContactsRecordLastFloorNormal(t: Tuning, m: Motor, cs: seq<Contact>, onGround: bool, onWall: bool, i: int)
    requires onGround && 0 <= i < |cs| && IsFloor(t.maxSlopeAngle, cs[i].angle)
    requires forall j :: i < j < |cs| ==> !IsFloor(t.maxSlopeAngle, cs[j].angle)
    ensures Contacts(t, m, cs, onGround, onWall).normalVector == cs[i].normal
    decreases |cs|
  {
    var n := |cs| - 1;
    ContactStepGrounding(t, Contacts(t, m, cs[..n], onGround, onWall), cs[n], onGround, onWall);
    if i < n {
      assert cs[..n][i] == cs[i];
      ContactsRecordLastFloorNormal(t, m, cs[..n], onGround, onWall, i);
    }
  }

  lemma {:induction false} ContactsKeepNormalWithoutFloor(t: Tuning, m: Motor, cs: seq<Contact>, onGround: bool, onWall: bool)
    requires !HasFloor(t, cs, onGround)
    ensures Contacts(t, m, cs, onGround, onWall).normalVector == m.normalVector
    decreases |cs|
  {
    if cs != [] {
      var n := |cs| - 1;
      HasFloorSplit(t, cs, onGround);
      ContactsKeepNormalWithoutFloor(t, m, cs[..n], onGround, onWall);
      ContactStepGrounding(t, Contacts(t, m, cs[..n], onGround, onWall), cs[n], onGround, onWall);
    }
  }

  /** What the contact loop keeps: Inv, except that grounded may lack its timer until the loop ends. */
  predicate ContactInv(m: Motor) {
    && !(m.grounded && m.isWallRunning)
    && (m.grounded ==> GroundedTimer in m.pending || !m.cancellingGrounded)
    && (GroundedTimer in m.pending ==> m.cancellingGrounded)
    && (m.isWallRunning ==> WallRunTimer in m.pending)
    && (m.wallJumpCooldownActive ==> !m.isWallRunning)
  }

  /** A floor contact stops the wall-run before grounding; a wall contact never starts one while grounded. */
  lemma ContactStepKeepsContactInv(t: Tuning, m: Motor, c: Contact, onGround: bool, onWall: bool)
    requires ContactInv(m)
    ensures ContactInv(ContactStep(t, m, c, onGround, onWall))
  {
  }

  lemma {:induction false} ContactsKeepContactInv(t: Tuning, m: Motor, cs: seq<Contact>, onGround: bool, onWall: bool)
    requires ContactInv(m)
    ensures ContactInv(Contacts(t, m, cs, onGround, onWall))
    decreases |cs|
  {
    if cs != [] {
      ContactsKeepContactInv(t, m, cs[..|cs| - 1], onGround, onWall);
      ContactStepKeepsContactInv(t, Contacts(t, m, cs[..|cs| - 1], onGround, onWall), cs[|cs| - 1], onGround, onWall);
    }
  }

  /** An object on neither layer changes nothing. */
  lemma OnCollisionStayIgnoresOtherLayers(t: Tuning, m: Motor, other: Collision)
    requires !Contains(t.whatIsGround, other.gameObject) && !Contains(t.whatIsWallRunnable, other.gameObject)
    ensures OnCollisionStay(t, m, other) == m
  {
  }

  /**
   * An object on either layer: afterwards cancellingGrounded is set and, while grounded, a
   * StopGrounded is pending; a floor contact grounds the character and re-arms StopGrounded;
   * a wall contact leaves a StopWallRun pending.
   */
  lemma OnCollisionStayEffects(t: Tuning, m: Motor, other: Collision)
    requires Inv(m)
    requires Contains(t.whatIsGround, other.gameObject) || Contains(t.whatIsWallRunnable, other.gameObject)
    ensures var r := OnCollisionStay(t, m, other);
      var onGround := Contains(t.whatIsGround, other.gameObject);
      var onWall := Contains(t.whatIsWallRunnable, other.gameObject);
      && r.cancellingGrounded
      && (r.grounded ==> GroundedTimer in r.pending)
      && (HasFloor(t, other.contacts, onGround) ==> r.grounded && GroundedTimer in r.pending)
      && (r.grounded <==> m.grounded || HasFloor(t, other.contacts, onGround))
      && (HasWall(other.contacts, onWall) ==> WallRunTimer in r.pending)
  {
    var onGround := Contains(t.whatIsGround, other.gameObject);
    var onWall := Contains(t.whatIsWallRunnable, other.gameObject);
    ContactsGrounding(t, m, other.contacts, onGround, onWall);
    ContactsWallRun(t, m, other.contacts, onGround, onWall);
    ContactsKeepContactInv(t, m, other.contacts, onGround, onWall);
  }

  lemma OnCollisionStayKeepsInv(t: Tuning, m: Motor, other: Collision)
    requires Inv(m)
    ensures Inv(OnCollisionStay(t, m, other))
  {
    var onGround := Contains(t.whatIsGround, other.gameObject);
    var onWall := Contains(t.whatIsWallRunnable, other.gameObject);
    if onGround || onWall {
      ContactsGrounding(t, m, other.contacts, onGround, onWall);
      ContactsKeepJumpState(t, m, other.contacts, onGround, onWall);
      ContactsKeepContactInv(t, m, other.contacts, onGround, onWall);
    }
  }

  // ----- jumping -----

  /** A jump fires exactly when grounded or wall-running and ready; otherwise nothing changes. */
  lemma JumpFiresExactlyWhen(t: Tuning, m: Motor)
    ensures Jump(t, m) != m <==> (m.grounded || m.isWallRunning) && m.readyToJump
  {
    if (m.grounded || m.isWallRunning) && m.readyToJump {
      assert !Jump(t, m).readyToJump;
    }
  }

  /**
   * After a jump fires: not ready, the jump input consumed, a ResetJump pending, the vertical
   * velocity rewritten, the jump forces queued; from a wall-run it also ends the wall-run,
   * pushes off the wall and starts the wall-jump cooldown.
   */
  lemma JumpEffects(t: Tuning, m: Motor)
    requires (m.grounded || m.isWallRunning) && m.readyToJump
    ensures var r := Jump(t, m);
      && !r.readyToJump && !r.input.jump && JumpTimer in r.pending
      && r.rb.velocity == JumpVelocity(m.rb.velocity)
      && r.grounded == m.grounded
      && (m.isWallRunning ==>
            !r.isWallRunning && r.wallJumpCooldownActive && WallJumpCooldownTimer in r.pending
            && r.rb.applied == m.rb.applied + [AppliedForce(Scale(Up, t.jumpForce * 1.5), Force),
                                               AppliedForce(Scale(m.normalVector, t.jumpForce * 0.5), Force),
                                               AppliedForce(Scale(m.wallNormalVector, t.jumpForce * 3.0), Force)])
      && (!m.isWallRunning ==>
            r.isWallRunning == m.isWallRunning && r.wallJumpCooldownActive == m.wallJumpCooldownActive
            && r.rb.applied == m.rb.applied + [AppliedForce(Scale(Up, t.jumpForce * 1.5), Force),
                                               AppliedForce(Scale(m.normalVector, t.jumpForce * 0.5), Force)])
  {
    var pushes := [AppliedForce(Scale(Up, t.jumpForce * 1.5), Force),
                   AppliedForce(Scale(m.normalVector, t.jumpForce * 0.5), Force)];
    var pushed := JumpForces(t, ConsumeJump(m), m.normalVector);
    assert pushed.rb.applied == m.rb.applied + pushes;
    var slowed := ResetFallingVelocity(pushed);
    assert slowed == pushed.(rb := pushed.rb.(velocity := JumpVelocity(m.rb.velocity)));
    assert Jump(t, m) == Invoke(JumpOffWall(t, slowed), JumpTimer);
    if m.isWallRunning {
      var wallPush := AppliedForce(Scale(m.wallNormalVector, t.jumpForce * 3.0), Force);
      assert JumpOffWall(t, slowed).rb.applied == m.rb.applied + pushes + [wallPush];
    } else {
      assert JumpOffWall(t, slowed) == slowed;
    }
  }

  /**
   * The jump's velocity rewrite keeps the horizontal velocity; the vertical velocity becomes 0
   * below 0.5 and is halved otherwise, so it is never negative and never grows.
   */
  lemma JumpVelocityRule(v: Vec3)
    ensures var r := JumpVelocity(v);
      && r.x == v.x && r.z == v.z
      && (v.y < 0.5 ==> r.y == 0.0)
      && (v.y >= 0.5 ==> r.y == v.y / 2.0)
      && 0.0 <= r.y && (r.y <= v.y || r.y == 0.0)
  {
  }

  /** Under Inv a firing jump never arms a ResetJump or EndWallJumpCooldown that is already pending. */
  lemma JumpArmsIdleTimers(t: Tuning, m: Motor)
    requires Inv(m) && (m.grounded || m.isWallRunning) && m.readyToJump
    ensures JumpTimer !in m.pending
    ensures m.isWallRunning ==> WallJumpCooldownTimer !in m.pending
  {
  }

  lemma JumpKeepsInv(t: Tuning, m: Motor)
    requires Inv(m)
    ensures Inv(Jump(t, m))
  {
  }

  // ----- the physics tick -----

  /** One input axis is zeroed exactly when it pushes further in a direction already past the cap. */
  lemma CapAxisRule(input: real, mag: real, maxSpeed: real)
    ensures var r := CapAxis(input, mag, maxSpeed);
      && (r == 0.0 <==> input == 0.0 || (input > 0.0 && mag > maxSpeed) || (input < 0.0 && mag < -maxSpeed))
      && (r == 0.0 || r == input)
  {
  }

  /** The multiplier table: wall-running overrides everything, then sliding, then being airborne. */
  lemma MultipliersTable(grounded: bool, crouching: bool, wallRunning: bool)
    ensures wallRunning ==> Multipliers(grounded, crouching, wallRunning) == (0.3, 0.3)
    ensures !wallRunning && !grounded ==> Multipliers(grounded, crouching, wallRunning) == (0.5, 0.5)
    ensures !wallRunning && grounded && crouching ==> Multipliers(grounded, crouching, wallRunning) == (1.0, 0.0)
    ensures !wallRunning && grounded && !crouching ==> Multipliers(grounded, crouching, wallRunning) == (1.0, 1.0)
  {
  }

  /** While paused or after the goal, Movement changes nothing. */
  lemma MovementGated(t: Tuning, m: Motor, ctx: TickCtx)
    requires m.paused || m.goalReached
    ensures Movement(t, m, ctx) == m
  {
  }

  /** A counter force on an axis exactly when it moves past the threshold without input, or against it. */
  lemma NeedsCounterIff(mag: real, input: real)
    ensures NeedsCounter(mag, input) <==> Abs(mag) > Threshold && (Abs(input) < 0.05 || mag * input < 0.0)
  {
    if mag > 0.0 && input > 0.0 {
      assert mag * input > 0.0;
    } else if mag < 0.0 && input < 0.0 {
      assert mag * input > 0.0;
    } else if mag > 0.0 && input < 0.0 {
      assert mag * input < 0.0;
    } else if mag < 0.0 && input > 0.0 {
      assert mag * input < 0.0;
    }
  }

  /**
   * The diagonal-running limit keeps the vertical velocity and leaves a horizontal speed of at
   * most maxSpeed, given the engine's true magnitude of the velocity.
   */
  lemma LimitDiagonalBound(v: Vec3, speed: real, maxSpeed: real)
    requires 0.0 <= speed && speed * speed == SqrMagnitude(v) && 0.0 <= maxSpeed
    ensures LimitDiagonal(v, speed, maxSpeed).y == v.y
    ensures HorizontalSqrMagnitude(LimitDiagonal(v, speed, maxSpeed)) <= maxSpeed * maxSpeed
  {
    if speed > 0.00001 {
      var k := 1.0 / speed * maxSpeed;
      var w := LimitDiagonal(v, speed, maxSpeed);
      ScaleTwice(v.x, 1.0 / speed, maxSpeed);
      ScaleTwice(v.z, 1.0 / speed, maxSpeed);
      assert w.x == v.x * k && w.z == v.z * k;
      var h := HorizontalSqrMagnitude(v);
      ScaledSquares(v.x, v.z, k);
      assert HorizontalSqrMagnitude(w) == h * (k * k);
      assert h <= speed * speed;
      assert speed * k == maxSpeed;
      ScaledBound(h, speed, k);
    }
  }

  lemma ScaleTwice(a: real, p: real, q: real)
    ensures a * p * q == a * (p * q)
  {
  }

  lemma ScaledSquares(a: real, b: real, k: real)
    ensures (a * k) * (a * k) + (b * k) * (b * k) == (a * a + b * b) * (k * k)
  {
  }

  /** h <= s² implies h k² <= (s k)². */
  lemma ScaledBound(h: real, s: real, k: real)
    requires h <= s * s
    ensures h * (k * k) <= (s * k) * (s * k)
  {
    assert 0.0 <= k * k;
    assert h * (k * k) <= (s * s) * (k * k);
  }

  /**
   * An illustration of the fall speed counting in the normalisation: falling at 40 while moving
   * sideways at 30, the limit of 20 leaves a horizontal speed of only 12.
   */
  lemma LimitDiagonalWhileFalling()
    ensures LimitDiagonal(Vec3(30.0, -40.0, 0.0), 50.0, 20.0) == Vec3(12.0, -40.0, 0.0)
  {
  }

  /**
   * Grounded, not jumping and not crouching, counter-movement leaves the horizontal speed at most
   * maxSpeed (the engine's magnitude being the true one).
   */
  lemma CounterMovementLimitsSpeed(t: Tuning, m: Motor, ctx: TickCtx)
    requires m.grounded && !m.jumping && !m.crouching
    requires 0.0 <= ctx.speed && ctx.speed * ctx.speed == SqrMagnitude(m.rb.velocity) && 0.0 <= t.maxSpeed
    ensures HorizontalSqrMagnitude(CounterMovement(t, m, ctx).rb.velocity) <= t.maxSpeed * t.maxSpeed
  {
    CounterForceXOnlyPushes(t, m, ctx);
    CounterForceYOnlyPushes(t, CounterForceX(t, m, ctx), ctx);
    LimitDiagonalBound(m.rb.velocity, ctx.speed, t.maxSpeed);
  }

  /** In the air or while jumping, counter-movement does nothing. */
  lemma CounterMovementGate(t: Tuning, m: Motor, ctx: TickCtx)
    requires !m.grounded || m.jumping
    ensures CounterMovement(t, m, ctx) == m
  {
  }

  /**
   * Grounded, not jumping and crouching, counter-movement is the slide friction alone: one force
   * against the velocity, and no speed limit, so the velocity is left as it was.
   */
  lemma CounterMovementSlides(t: Tuning, m: Motor, ctx: TickCtx)
    requires m.grounded && !m.jumping && m.crouching
    ensures var r := CounterMovement(t, m, ctx);
      && OnlyBodyChanged(m, r)
      && r.rb.velocity == m.rb.velocity
      && r.rb.applied == m.rb.applied + [AppliedForce(SlideFrictionForce(t, m.rb.velocity, ctx), Force)]
  {
    assert CounterMovement(t, m, ctx) == SlideFriction(t, m, ctx);
  }

  /** The sliding friction force: against the velocity, scaled by moveSpeed, the step and slideCounterMovement. */
  function SlideFrictionForce(t: Tuning, v: Vec3, ctx: TickCtx): Vec3 {
    Scale(Scale(Scale(Neg(Normalized(v, ctx.speed)), t.moveSpeed), ctx.dt), t.slideCounterMovement)
  }

  /**
   * Sliding down a slope (crouching, grounded, ready to jump, jump not held): the tick adds extra
   * gravity, the slide friction and the downward slope push, in that order, and nothing else;
   * the input axes are neither capped nor applied.
   */
  lemma SlopePushSkipsInput(t: Tuning, m: Motor, ctx: TickCtx)
    requires !m.paused && !m.goalReached
    requires m.crouching && m.grounded && m.readyToJump && !m.jumping
    ensures var r := Movement(t, m, ctx);
      && OnlyBodyChanged(m, r)
      && r.rb.velocity == m.rb.velocity
      && r.rb.applied == m.rb.applied + [AppliedForce(Scale(Down, ctx.dt * 10.0), Force),
                                         AppliedForce(SlideFrictionForce(t, m.rb.velocity, ctx), Force),
                                         AppliedForce(Scale(Down, ctx.dt * 3000.0), Force)]
  {
    var g := Gravity(m, ctx);
    GravityPushes(m, ctx);
    var c := CounterMovement(t, g, ctx);
    CounterMovementSlides(t, g, ctx);
    OnlyBodyChangedTrans(m, g, c);
    SlopePushOnly(t, c, ctx);
    var r := ApplyForce(c, Scale(Down, ctx.dt * 3000.0));
    ApplyForceOnlyPushes(c, Scale(Down, ctx.dt * 3000.0), Force);
    OnlyBodyChangedTrans(m, c, r);
    MovementUnfolds(t, m, ctx);
    ThreePushes(m.rb.applied, g.rb.applied, c.rb.applied, r.rb.applied,
      AppliedForce(Scale(Down, ctx.dt * 10.0), Force),
      AppliedForce(SlideFrictionForce(t, m.rb.velocity, ctx), Force),
      AppliedForce(Scale(Down, ctx.dt * 3000.0), Force));
  }

  lemma GravityPushes(m: Motor, ctx: TickCtx)
    ensures var g := Gravity(m, ctx);
      && OnlyBodyChanged(m, g)
      && g.rb.velocity == m.rb.velocity
      && g.rb.applied == m.rb.applied + [AppliedForce(Scale(Down, ctx.dt * 10.0), Force)]
  {
    ApplyForceOnlyPushes(m, Scale(Down, ctx.dt * 10.0), Force);
  }

  lemma MovementUnfolds(t: Tuning, m: Motor, ctx: TickCtx)
    requires !m.paused && !m.goalReached
    ensures Movement(t, m, ctx) == Drive(t, JumpIfHeld(t, CounterMovement(t, Gravity(m, ctx), ctx)), ctx)
  {
  }

  lemma ThreePushes(s0: seq<AppliedForce>, s1: seq<AppliedForce>, s2: seq<AppliedForce>, s3: seq<AppliedForce>,
                    a: AppliedForce, b: AppliedForce, c: AppliedForce)
    requires s1 == s0 + [a] && s2 == s1 + [b] && s3 == s2 + [c]
    ensures s3 == s0 + [a, b, c]
  {
    assert s0 + [a] + [b] + [c] == s0 + [a, b, c];
  }

  /** With the jump not held, the jump step passes; sliding and ready, Drive is the slope push alone. */
  lemma SlopePushOnly(t: Tuning, c: Motor, ctx: TickCtx)
    requires c.crouching && c.grounded && c.readyToJump && !c.jumping
    ensures Drive(t, JumpIfHeld(t, c), ctx) == ApplyForce(c, Scale(Down, ctx.dt * 3000.0))
  {
    assert JumpIfHeld(t, c) == c;
  }

  /** The fields Inv speaks of, except paused. */
  predicate SameFlags(a: Motor, b: Motor) {
    && a.grounded == b.grounded && a.isWallRunning == b.isWallRunning && a.pending == b.pending
    && a.cancellingGrounded == b.cancellingGrounded && a.readyToJump == b.readyToJump
    && a.wallJumpCooldownActive == b.wallJumpCooldownActive && a.goalReached == b.goalReached
    && a.xRotation == b.xRotation
  }

  /** `r` differs from `m` at most in the rigid body. */
  predicate OnlyBodyChanged(m: Motor, r: Motor) {
    r == m.(rb := r.rb)
  }

  lemma OnlyBodyChangedTrans(a: Motor, b: Motor, c: Motor)
    requires OnlyBodyChanged(a, b) && OnlyBodyChanged(b, c)
    ensures OnlyBodyChanged(a, c)
  {
  }

  /** A force only touches the rigid body, and there only the list of applied forces. */
  lemma ApplyForceOnlyPushes(m: Motor, force: Vec3, mode: ForceMode)
    ensures OnlyBodyChanged(m, ApplyForce(m, force, mode))
    ensures ApplyForce(m, force, mode).rb.velocity == m.rb.velocity
  {
  }

  /** A velocity write only touches the rigid body. */
  lemma SetVelocityOnlyPushes(m: Motor, v: Vec3)
    ensures OnlyBodyChanged(m, SetVelocity(m, v))
  {
  }

  /** The sideways counter force only pushes: the velocity is left to the physics step. */
  lemma CounterForceXOnlyPushes(t: Tuning, m: Motor, ctx: TickCtx)
    ensures OnlyBodyChanged(m, CounterForceX(t, m, ctx)) && CounterForceX(t, m, ctx).rb.velocity == m.rb.velocity
  {
    ApplyForceOnlyPushes(m, Scale(Scale(Scale(Scale(ctx.right, t.moveSpeed), ctx.dt), -ctx.xMag), t.counterMovement), Force);
  }

  /** The forward counter force only pushes. */
  lemma CounterForceYOnlyPushes(t: Tuning, m: Motor, ctx: TickCtx)
    ensures OnlyBodyChanged(m, CounterForceY(t, m, ctx)) && CounterForceY(t, m, ctx).rb.velocity == m.rb.velocity
  {
    ApplyForceOnlyPushes(m, Scale(Scale(Scale(Scale(ctx.forward, t.moveSpeed), ctx.dt), -ctx.yMag), t.counterMovement), Force);
  }

  /** Counter-movement only pushes and limits the rigid body. */
  lemma CounterMovementOnlyPushes(t: Tuning, m: Motor, ctx: TickCtx)
    ensures OnlyBodyChanged(m, CounterMovement(t, m, ctx))
  {
    if !m.grounded || m.jumping {
    } else if m.crouching {
      ApplyForceOnlyPushes(m, Scale(Scale(Scale(Neg(Normalized(m.rb.velocity, ctx.speed)), t.moveSpeed), ctx.dt), t.slideCounterMovement), Force);
    } else {
      var m1 := CounterForceX(t, m, ctx);
      var m2 := CounterForceY(t, m1, ctx);
      CounterForceXOnlyPushes(t, m, ctx);
      CounterForceYOnlyPushes(t, m1, ctx);
      OnlyBodyChangedTrans(m, m1, m2);
      SetVelocityOnlyPushes(m2, LimitDiagonal(m2.rb.velocity, ctx.speed, t.maxSpeed));
      OnlyBodyChangedTrans(m, m2, LimitSpeed(t, m2, ctx));
    }
  }

  /** After the jump step, Movement only pushes the rigid body and caps the input axes. */
  lemma DriveOnlyPushes(t: Tuning, m: Motor, ctx: TickCtx)
    ensures OnlyBodyAndAxesChanged(m, Drive(t, m, ctx))
  {
    if m.crouching && m.grounded && m.readyToJump {
      ApplyForceOnlyPushes(m, Scale(Down, ctx.dt * 3000.0), Force);
      assert Drive(t, m, ctx) == ApplyForce(m, Scale(Down, ctx.dt * 3000.0));
      AxesThenBody(m, m, Drive(t, m, ctx));
    } else {
      CappedInputForcesOnlyPush(t, m, ctx);
      assert Drive(t, m, ctx) == InputForces(t, CapInput(t, m, ctx), ctx);
    }
  }

  /** The speed cap changes only the input axes, and the input forces then only push. */
  lemma CappedInputForcesOnlyPush(t: Tuning, m: Motor, ctx: TickCtx)
    ensures OnlyBodyAndAxesChanged(m, InputForces(t, CapInput(t, m, ctx), ctx))
  {
    var c := CapInput(t, m, ctx);
    InputForcesOnlyPush(t, c, ctx);
    AxesThenBody(m, c, InputForces(t, c, ctx));
  }

  lemma AxesThenBody(m: Motor, c: Motor, r: Motor)
    requires c == m.(x := c.x, y := c.y) && OnlyBodyChanged(c, r)
    ensures OnlyBodyAndAxesChanged(m, r)
  {
  }

  /** `r` differs from `m` at most in the rigid body and the input axes. */
  predicate OnlyBodyAndAxesChanged(m: Motor, r: Motor) {
    r == m.(x := r.x, y := r.y, rb := r.rb)
  }

  /** The input forces only push. */
  lemma InputForcesOnlyPush(t: Tuning, m: Motor, ctx: TickCtx)
    ensures OnlyBodyChanged(m, InputForces(t, m, ctx))
  {
    var (multiplier, multiplierV) := Multipliers(m.grounded, m.crouching, m.isWallRunning);
    var forward := Scale(Scale(Scale(Scale(Scale(ctx.forward, m.y), t.moveSpeed), ctx.dt), multiplier), multiplierV);
    var m1 := ApplyForce(m, forward);
    ApplyForceOnlyPushes(m, forward, Force);
    ApplyForceOnlyPushes(m1, Scale(Scale(Scale(Scale(ctx.right, m.x), t.moveSpeed), ctx.dt), multiplier), Force);
    OnlyBodyChangedTrans(m, m1, InputForces(t, m, ctx));
  }

  /** Sticking to the wall only pushes the rigid body, and only while wall-running. */
  lemma StickToWallOnlyPushes(t: Tuning, m: Motor, ctx: TickCtx)
    ensures StickToWallWhileWallRunning(t, m, ctx).(rb := m.rb) == m
    ensures !m.isWallRunning ==> StickToWallWhileWallRunning(t, m, ctx) == m
  {
  }

  /**
   * Apart from a jump, a physics tick changes only the rigid body and the capped input axes:
   * after the jump step, Movement keeps every flag and timer.
   */
  lemma MovementKeepsInv(t: Tuning, m: Motor, ctx: TickCtx)
    requires Inv(m)
    ensures Inv(Movement(t, m, ctx))
  {
    if !(m.paused || m.goalReached) {
      var m2 := CounterMovement(t, Gravity(m, ctx), ctx);
      PushesKeepInv(t, m, ctx);
      JumpKeepsInv(t, m2);
      DriveKeepsInv(t, JumpIfHeld(t, m2), ctx);
    }
  }

  /** Extra gravity and counter-movement keep Inv. */
  lemma PushesKeepInv(t: Tuning, m: Motor, ctx: TickCtx)
    requires Inv(m)
    ensures Inv(CounterMovement(t, Gravity(m, ctx), ctx))
  {
    var m1 := Gravity(m, ctx);
    CounterMovementOnlyPushes(t, m1, ctx);
    InvIgnoresBodyAndAxes(m, m.x, m.y, CounterMovement(t, m1, ctx).rb);
  }

  lemma DriveKeepsInv(t: Tuning, m: Motor, ctx: TickCtx)
    requires Inv(m)
    ensures Inv(Drive(t, m, ctx))
  {
    var r := Drive(t, m, ctx);
    DriveOnlyPushes(t, m, ctx);
    InvIgnoresBodyAndAxes(m, r.x, r.y, r.rb);
  }

  /** Inv says nothing of the rigid body or the input axes. */
  lemma InvIgnoresBodyAndAxes(m: Motor, x: real, y: real, rb: Body)
    requires Inv(m)
    ensures Inv(m.(x := x, y := y, rb := rb))
  {
  }

  lemma FixedUpdateKeepsInv(t: Tuning, m: Motor, ctx: TickCtx)
    requires Inv(m)
    ensures Inv(FixedUpdate(t, m, ctx))
  {
    MovementKeepsInv(t, m, ctx);
    StickToWallOnlyPushes(t, Movement(t, m, ctx), ctx);
  }

  // ----- the frame: input, crouch, pause, goal, look -----

  /** Crouching then standing up restores the position and the standing scale exactly. */
  lemma CrouchRoundTrip(t: Tuning, m: Motor, f: FrameCtx)
    ensures var r := StopCrouch(StartCrouch(t, m, f));
      && r.position == m.position && r.scale == m.playerScale
      && r.(rb := m.rb) == m.(scale := m.playerScale)
      && (r.rb == m.rb <==> !(m.grounded && SqrMagnitude(m.rb.velocity) > 0.25))
  {
    if m.grounded && SqrMagnitude(m.rb.velocity) > 0.25 {
      assert |StopCrouch(StartCrouch(t, m, f)).rb.applied| == |m.rb.applied| + 1;
    }
  }

  /** Crouching changes only the scale, the position and (for the slide boost) the body. */
  lemma StartCrouchOnlyResizes(t: Tuning, m: Motor, f: FrameCtx)
    ensures var r := StartCrouch(t, m, f); r == m.(scale := r.scale, position := r.position, rb := r.rb)
  {
    var m1 := m.(scale := CrouchScale).(position := m.position.(y := m.position.y - 0.5));
    if SqrMagnitude(m1.rb.velocity) > 0.25 && m1.grounded {
      ApplyForceOnlyPushes(m1, Scale(f.forward, t.slideForce), Force);
      assert StartCrouch(t, m, f) == ApplyForce(m1, Scale(f.forward, t.slideForce));
    } else {
      assert StartCrouch(t, m, f) == m1;
    }
  }

  /** Standing up changes only the scale and the position. */
  lemma StopCrouchOnlyResizes(m: Motor)
    ensures var r := StopCrouch(m); r == m.(scale := r.scale, position := r.position)
  {
  }

  /** GoalReached takes effect only when not paused, and touches nothing else. */
  lemma GoalReachedRule(m: Motor)
    ensures GoalReached(m).goalReached <==> m.goalReached || !m.paused
    ensures GoalReached(m).(goalReached := m.goalReached) == m
  {
  }

  /**
   * In a frame, a pause request toggles paused, notifies the new value and clears the request,
   * exactly when the goal has not been reached; otherwise paused and the request stay.
   */
  lemma MyInputPauseRule(t: Tuning, m: Motor, f: FrameCtx)
    ensures var r := MyInput(t, m, f);
      && (m.input.pause && !m.goalReached ==>
            r.paused == !m.paused && !r.input.pause && r.pauseNotices == m.pauseNotices + [!m.paused])
      && (!(m.input.pause && !m.goalReached) ==>
            r.paused == m.paused && r.input == m.input && r.pauseNotices == m.pauseNotices)
      && SameFlags(m, r)
  {
    var m3 := MyInputCrouch(t, m, f);
  }

  /** The first part of MyInput: copy the input and crouch or stand up; the game flow and flags stay. */
  lemma MyInputCrouch(t: Tuning, m: Motor, f: FrameCtx) returns (m3: Motor)
    ensures SameFlags(m, m3) && m3.paused == m.paused && m3.input == m.input && m3.pauseNotices == m.pauseNotices
    ensures MyInput(t, m, f) == HandlePause(m3)
  {
    var m1 := ReadInput(m);
    StartCrouchOnlyResizes(t, m1, f);
    var m2 := if m1.input.crouchPressed then StartCrouch(t, m1, f) else m1;
    StopCrouchOnlyResizes(m2);
    m3 := HandleCrouch(t, m1, f);
  }


  /** While paused or after the goal, Look changes nothing. */
  lemma LookGated(t: Tuning, m: Motor, f: FrameCtx)
    requires m.paused || m.goalReached
    ensures Look(t, m, f) == m
  {
  }

  lemma ClampRange(v: real, lo: real, hi: real)
    requires lo <= hi
    ensures lo <= Clamp(v, lo, hi) <= hi
    ensures lo <= v <= hi ==> Clamp(v, lo, hi) == v
  {
  }

  /** The camera roll target: none off the wall; a 90-degree difference gives the full roll, opposite in sign. */
  lemma WallRunCameraRollRule(t: Tuning, m: Motor, f: FrameCtx)
    ensures !m.isWallRunning ==> WallRunCameraRoll(t, m, f) == 0.0
    ensures m.isWallRunning && f.wallAngleDifference == 0.0 ==> WallRunCameraRoll(t, m, f) == 0.0
    ensures m.isWallRunning && f.wallAngleDifference == 90.0 ==> WallRunCameraRoll(t, m, f) == -t.maxCameraRollWhenRunningWall
    ensures m.isWallRunning && f.wallAngleDifference == -90.0 ==> WallRunCameraRoll(t, m, f) == t.maxCameraRollWhenRunningWall
  {
  }

  /** Look keeps the camera pitch within [-90, 90] and changes only the three camera targets. */
  lemma LookKeepsPitchInRange(t: Tuning, m: Motor, f: FrameCtx)
    requires -90.0 <= m.xRotation <= 90.0
    ensures -90.0 <= Look(t, m, f).xRotation <= 90.0
    ensures Look(t, m, f).(xRotation := m.xRotation, desiredX := m.desiredX, desiredWallRunRotation := m.desiredWallRunRotation) == m
  {
    ClampRange(m.xRotation - m.input.look.y * t.sensitivity * f.fixedDt * t.sensMultiplier, -90.0, 90.0);
  }

  lemma UpdateKeepsInv(t: Tuning, m: Motor, f: FrameCtx)
    requires Inv(m)
    ensures Inv(Update(t, m, f))
  {
    MyInputPauseRule(t, m, f);
    var m1 := MyInput(t, m, f);
    assert Inv(m1);
    LookKeepsPitchInRange(t, m1, f);
  }

  // ----- timers -----

  /**
   * A pending callback runs once and is forgotten; one not pending does nothing. Each callback
   * clears the one flag it is named for (ResetJump sets readyToJump) and leaves the other three,
   * and the rest of the motor (body, inputs, other flags) is untouched.
   */
  lemma FireRule(m: Motor, timer: Timer)
    ensures timer !in m.pending ==> Fire(m, timer) == m
    ensures timer in m.pending ==> Fire(m, timer).pending == m.pending - {timer}
    ensures var r := Fire(m, timer);
      timer in m.pending ==>
        && (r.grounded <==> m.grounded && timer != GroundedTimer)
        && (r.isWallRunning <==> m.isWallRunning && timer != WallRunTimer)
        && (r.readyToJump <==> m.readyToJump || timer == JumpTimer)
        && (r.wallJumpCooldownActive <==> m.wallJumpCooldownActive && timer != WallJumpCooldownTimer)
    ensures OnlyTimerStateChanged(m, Fire(m, timer))
  {
    FireSetsFlags(m, timer);
    FireOnlyTouchesTimerState(m, timer);
  }

  lemma FireSetsFlags(m: Motor, timer: Timer)
    ensures timer !in m.pending ==> Fire(m, timer) == m
    ensures timer in m.pending ==> Fire(m, timer).pending == m.pending - {timer}
    ensures var r := Fire(m, timer);
      timer in m.pending ==>
        && (r.grounded <==> m.grounded && timer != GroundedTimer)
        && (r.isWallRunning <==> m.isWallRunning && timer != WallRunTimer)
        && (r.readyToJump <==> m.readyToJump || timer == JumpTimer)
        && (r.wallJumpCooldownActive <==> m.wallJumpCooldownActive && timer != WallJumpCooldownTimer)
  {
    match timer
    case GroundedTimer =>
    case WallRunTimer =>
    case JumpTimer =>
    case WallJumpCooldownTimer =>
  }

  /** `r` differs from `m` at most in the four flags the callbacks write and in the pending set. */
  predicate OnlyTimerStateChanged(m: Motor, r: Motor) {
    r == m.(grounded := r.grounded, isWallRunning := r.isWallRunning, readyToJump := r.readyToJump,
            wallJumpCooldownActive := r.wallJumpCooldownActive, pending := r.pending)
  }

  lemma CancelInvokeOnlyTouchesTimerState(m: Motor, timer: Timer)
    ensures OnlyTimerStateChanged(m, CancelInvoke(m, timer))
  { }

  lemma StopGroundedOnlyTouchesTimerState(m: Motor, c: Motor)
    requires OnlyTimerStateChanged(m, c)
    ensures OnlyTimerStateChanged(m, StopGrounded(c))
  { }

  lemma StopWallRunOnlyTouchesTimerState(m: Motor, c: Motor)
    requires OnlyTimerStateChanged(m, c)
    ensures OnlyTimerStateChanged(m, StopWallRun(c))
  { }

  lemma ResetJumpOnlyTouchesTimerState(m: Motor, c: Motor)
    requires OnlyTimerStateChanged(m, c)
    ensures OnlyTimerStateChanged(m, ResetJump(c))
  { }

  lemma EndWallJumpCooldownOnlyTouchesTimerState(m: Motor, c: Motor)
    requires OnlyTimerStateChanged(m, c)
    ensures OnlyTimerStateChanged(m, EndWallJumpCooldown(c))
  { }

  lemma FireRunsCallback(m: Motor, timer: Timer)
    requires timer in m.pending
    ensures Fire(m, timer) == RunCallback(CancelInvoke(m, timer), timer)
  { }

  /** A callback coming due writes its own flag and the pending set, and nothing else. */
  lemma FireOnlyTouchesTimerState(m: Motor, timer: Timer)
    ensures OnlyTimerStateChanged(m, Fire(m, timer))
  {
    if timer in m.pending {
      var c := CancelInvoke(m, timer);
      FireRunsCallback(m, timer);
      CancelInvokeOnlyTouchesTimerState(m, timer);
      match timer
      case GroundedTimer => StopGroundedOnlyTouchesTimerState(m, c);
      case WallRunTimer => StopWallRunOnlyTouchesTimerState(m, c);
      case JumpTimer => ResetJumpOnlyTouchesTimerState(m, c);
      case WallJumpCooldownTimer => EndWallJumpCooldownOnlyTouchesTimerState(m, c);
    }
  }

  /**
   * Neither state can stick: while grounded (wall-running), a StopGrounded (StopWallRun) is
   * pending, and when it fires the state ends.
   */
  lemma DebounceAlwaysEnds(m: Motor)
    requires Inv(m)
    ensures m.grounded ==> GroundedTimer in m.pending && !Fire(m, GroundedTimer).grounded
    ensures m.isWallRunning ==> WallRunTimer in m.pending && !Fire(m, WallRunTimer).isWallRunning
  {
  }

  // ----- the whole machine -----

  lemma InitialSatisfiesInv(playerScale: Vec3, position: Vec3, rb: Body, input: IM.InputState)
    ensures Inv(Initial(playerScale, position, rb, input))
  {
  }

  lemma FireKeepsInv(m: Motor, timer: Timer)
    requires Inv(m)
    ensures Inv(Fire(m, timer))
  {
  }

  lemma GoalReachedKeepsInv(m: Motor)
    requires Inv(m)
    ensures Inv(GoalReached(m))
  {
  }

  lemma InputKeepsInv(m: Motor, a: IM.InputAction)
    requires Inv(m)
    ensures Inv(m.(input := IM.Handle(m.input, a)))
  {
  }

  lemma StepKeepsInv(t: Tuning, m: Motor, e: Event)
    requires Inv(m)
    ensures Inv(Step(t, m, e))
  {
    match e
    case PhysicsTick(ctx) => FixedUpdateKeepsInv(t, m, ctx);
    case Frame(f) => UpdateKeepsInv(t, m, f);
    case Touching(other) => OnCollisionStayKeepsInv(t, m, other);
    case TimerFires(timer) => FireKeepsInv(m, timer);
    case GoalTouched => GoalReachedKeepsInv(m);
    case InputArrives(a) => InputKeepsInv(m, a);
  }

  /** Inv holds after any sequence of events; in particular, never grounded and wall-running at once. */
  lemma {:induction false} RunKeepsInv(t: Tuning, m: Motor, es: seq<Event>)
    requires Inv(m)
    ensures Inv(Run(t, m, es))
    ensures !(Run(t, m, es).grounded && Run(t, m, es).isWallRunning)
    decreases |es|
  {
    if es != [] {
      RunKeepsInv(t, m, es[..|es| - 1]);
      StepKeepsInv(t, Run(t, m, es[..|es| - 1]), es[|es| - 1]);
    }
  }

  lemma FixedUpdateKeepsGoal(t: Tuning, m: Motor, ctx: TickCtx)
    requires m.goalReached
    ensures FixedUpdate(t, m, ctx).goalReached
  {
    MovementGated(t, m, ctx);
    StickToWallOnlyPushes(t, m, ctx);
  }

  lemma UpdateKeepsGoal(t: Tuning, m: Motor, f: FrameCtx)
    requires m.goalReached
    ensures Update(t, m, f).goalReached
  {
    MyInputPauseRule(t, m, f);
  }

  lemma OnCollisionStayKeepsGoal(t: Tuning, m: Motor, other: Collision)
    requires m.goalReached
    ensures OnCollisionStay(t, m, other).goalReached
  {
    var onGround := Contains(t.whatIsGround, other.gameObject);
    var onWall := Contains(t.whatIsWallRunnable, other.gameObject);
    ContactsKeepJumpState(t, m, other.contacts, onGround, onWall);
  }

  lemma FireKeepsGoal(m: Motor, timer: Timer)
    requires m.goalReached
    ensures Fire(m, timer).goalReached
  {
    match timer
    case GroundedTimer =>
    case WallRunTimer =>
    case JumpTimer =>
    case WallJumpCooldownTimer =>
  }

  /** No event un-reaches the goal. */
  lemma StepKeepsGoal(t: Tuning, m: Motor, e: Event)
    requires m.goalReached
    ensures Step(t, m, e).goalReached
  {
    match e
    case PhysicsTick(ctx) => FixedUpdateKeepsGoal(t, m, ctx);
    case Frame(f) => UpdateKeepsGoal(t, m, f);
    case Touching(other) => OnCollisionStayKeepsGoal(t, m, other);
    case TimerFires(timer) => FireKeepsGoal(m, timer);
    case GoalTouched =>
    case InputArrives(_) =>
  }

  /** Once the goal is reached it stays reached and the game stays unpaused, whatever happens. */
  lemma {:induction false} GoalIsFinal(t: Tuning, m: Motor, es: seq<Event>)
    requires Inv(m) && m.goalReached
    ensures Run(t, m, es).goalReached && !Run(t, m, es).paused
    decreases |es|
  {
    if es != [] {
      GoalIsFinal(t, m, es[..|es| - 1]);
      StepKeepsGoal(t, Run(t, m, es[..|es| - 1]), es[|es| - 1]);
    }
    RunKeepsInv(t, m, es);
  }
}
