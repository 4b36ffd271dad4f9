# First-person controller "like Karlson": a Dafny model

This project models the core of a Unity first-person controller built on a rigid body, after Dani's
"FPS_Movement_Rigidbody". Three parts are modelled:

- **`PlayerMovement`** works as a state machine over flags:
  - grounded, with a debounced StopGrounded;
  - wall-running, with a StopWallRun that is re-armed on every wall contact;
  - the jump cooldown and the wall-jump cooldown;
  - pause and goal.

  Each physics tick it also applies forces: extra gravity, counter-movement and the diagonal speed limit, the jump, the input forces under a speed cap and a multiplier table, and the stick-to-wall forces. Each frame it reads the input, handles the crouch edges and pause requests, and does mouse look.
- **`PlayerInputs`** holds the input fields that the Input System's handlers assign. It latches crouch press and release edges and clears them in `LateUpdate`.
- **`LayerMaskExtensions.Contains`** is the 32-bit layer-mask test.

The modules follow the program's structure:

| module | file | what it is |
|---|---|---|
| `LayerMasks` | layer_masks.dfy | `Contains` over `bv32`, with its bit-level properties |
| `InputModel` | input_model.dfy | the `PlayerInputs` fields as a value, one function per handler, and the edge-latching lemma |
| `InputComponent` | input_component.dfy | class `PlayerInputs`, whose methods assign its fields and are proved to follow `InputModel` |
| `MovementModel` | movement_model.dfy | the `PlayerMovement` fields as a value (`Motor`), one function per method, the event machine (`Step`/`Run`) and its invariant `Inv` |
| `MovementProperties` | movement_properties.dfy | what the movement rules promise, proved about `MovementModel` |
| `MovementComponent` | movement_component.dfy | class `PlayerMovement`, whose methods update its fields in place and are proved to follow `MovementModel`; the engine callbacks also keep `Inv` |
| `Vectors`, `Physics`, `Wrappers` | vectors.dfy, physics.dfy, wrappers.dfy | vectors over `real`, the rigid body, and `Option` |

The engine itself is abstracted away:

- **Engine numbers become parameters.** These values reach the model as parameters (`TickCtx`, `FrameCtx`, `Contact`):
  - the look-relative velocity from `FindVelRelativeToLook`;
  - `Vector3.Angle` of each contact normal;
  - `rb.linearVelocity.magnitude`;
  - the orientation's forward and right vectors;
  - the camera yaw and the wall angle difference;
  - `Time.deltaTime`.
- **The rigid body is a record.** It holds its velocity, its mass and the list of forces requested of it.
- **Deferred calls are pending timers.** Each `Invoke` becomes a timer in a `pending` set. Every callback can come due, once, at any later point, as an event of the machine.

The main results:

- `Inv` holds after any sequence of events (`RunKeepsInv`). Consequences:
  - the character is never grounded and wall-running at once;
  - while grounded (wall-running), a StopGrounded (StopWallRun) is pending, so neither state can get stuck (`DebounceAlwaysEnds`);
  - no guarded `Invoke` ever finds its own callback already pending;
  - the camera pitch stays within [-90, 90].
- Once reached, the goal stays reached whatever happens (`GoalIsFinal`).
- The contact loop grounds the character exactly when some contact is a floor on a ground-layer object (`ContactsGrounding`).
- A jump fires exactly when grounded or wall-running and ready (`JumpFiresExactlyWhen`), with the effects listed in `JumpEffects`.
- Grounded, not jumping and not crouching, counter-movement leaves the horizontal speed at most `maxSpeed`, given that the engine's magnitude is the true one (`CounterMovementLimitsSpeed`). In the air or while jumping it does nothing (`CounterMovementGate`); while sliding it adds only the slide friction and applies no limit (`CounterMovementSlides`).
- Sliding while grounded and ready to jump, with jump not held, a tick adds gravity, the slide friction and the slope push and never reads the input axes (`SlopePushSkipsInput`).
- The crouch edge flags latch for exactly one frame (`EdgeFlagsLatchForOneFrame`).

The model follows the code in four places where a plain reading of the controller's design might expect otherwise:

- A jump inside `Movement` does not end the tick. The input forces are still applied after it (PlayerMovement.cs:222-269).
- The forward input force is scaled by `multiplier * multiplierV`, not by `multiplierV` alone (PlayerMovement.cs:268).
- The stick-to-wall forces in `FixedUpdate` are not gated by pause or goal (PlayerMovement.cs:124-128, 547-555).
- StopGrounded is armed only while `cancellingGrounded` is false. Only a floor contact clears that flag; StopGrounded itself leaves it set (PlayerMovement.cs:469, 489-494, 497-500). After StopGrounded has fired, a contact that touches walls only does not arm it again. So the model proves that being grounded implies a pending StopGrounded, not that leaving the floor always leaves one pending.

## Model

| member | source | states |
|---|---|---|
| LayerMasks.Contains | Assets/FirstPersonLikeKarlson/Scripts/LayerMaskExtensions.cs:7-12 | a null object is in no mask |
| LayerMasks.LayerBitReadsShift | Assets/FirstPersonLikeKarlson/Scripts/LayerMaskExtensions.cs:11 | `mask & (1 << k) != 0` holds exactly when bit `k` of the mask, read by shifting down, is 1 |
| LayerMasks.ContainsReadsLayerBit | Assets/FirstPersonLikeKarlson/Scripts/LayerMaskExtensions.cs:7-12 | an object is in the mask if and only if it is not null and the mask's bit for its layer is set |
| LayerMasks.EmptyMaskContainsNothing | Assets/FirstPersonLikeKarlson/Scripts/LayerMaskExtensions.cs:7-12 | the empty mask contains no object, null or not |
| LayerMasks.ContainsDistributesOverOr | Assets/FirstPersonLikeKarlson/Scripts/LayerMaskExtensions.cs:7-12 | the bitwise or of two masks contains an object if and only if either mask does |
| InputModel.MoveInput | Assets/FirstPersonLikeKarlson/Inputs/PlayerInputs.cs:91-94 | `move` becomes the new direction; every other field is kept |
| InputModel.LookInput | Assets/FirstPersonLikeKarlson/Inputs/PlayerInputs.cs:96-99 | `look` becomes the new direction; every other field is kept |
| InputModel.OnLook | Assets/FirstPersonLikeKarlson/Inputs/PlayerInputs.cs:34-40 | with cursor look on, the same as LookInput; otherwise no field changes |
| InputModel.JumpInput | Assets/FirstPersonLikeKarlson/Inputs/PlayerInputs.cs:101-104 | `jump` becomes the new state; every other field is kept |
| InputModel.SprintInput | Assets/FirstPersonLikeKarlson/Inputs/PlayerInputs.cs:106-109 | `sprint` becomes the new state; every other field is kept |
| InputModel.OnShoot | Assets/FirstPersonLikeKarlson/Inputs/PlayerInputs.cs:52-55 | `shoot` becomes the pressed state; every other field is kept |
| InputModel.OnAutoShoot | Assets/FirstPersonLikeKarlson/Inputs/PlayerInputs.cs:57-60 | `autoShoot` becomes the pressed state; every other field is kept |
| InputModel.OnPause | Assets/FirstPersonLikeKarlson/Inputs/PlayerInputs.cs:76-79 | `pause` becomes the pressed state; every other field is kept |
| InputModel.OnCrouch | Assets/FirstPersonLikeKarlson/Inputs/PlayerInputs.cs:62-74 | `crouch` becomes the pressed state. A press sets the press edge and a release sets the release edge. The other edge and every other field are kept |
| InputModel.LateUpdate | Assets/FirstPersonLikeKarlson/Inputs/PlayerInputs.cs:84-89 | both crouch edges are cleared; every other field is kept |
| InputModel.EdgeFlagsLatchForOneFrame | Assets/FirstPersonLikeKarlson/Inputs/PlayerInputs.cs:62-89 | after any sequence of handler calls and frame ends, the press (release) edge is set if and only if a press (release) came since the last frame end, or it was already set and no frame has ended |
| InputComponent.PlayerInputs.constructor | Assets/FirstPersonLikeKarlson/Inputs/PlayerInputs.cs:10-26 | the fields start at their initialisers (cursor locked, cursor drives look, all else off) |
| InputComponent.PlayerInputs.OnMove | Assets/FirstPersonLikeKarlson/Inputs/PlayerInputs.cs:29-32 | forwards to MoveInput; the new fields are InputModel.MoveInput of the old |
| InputComponent.PlayerInputs.OnLook | Assets/FirstPersonLikeKarlson/Inputs/PlayerInputs.cs:34-40 | the gated look update: the new fields are InputModel.OnLook of the old |
| InputComponent.PlayerInputs.OnJump | Assets/FirstPersonLikeKarlson/Inputs/PlayerInputs.cs:42-45 | forwards to JumpInput; the new fields are InputModel.JumpInput of the old |
| InputComponent.PlayerInputs.OnSprint | Assets/FirstPersonLikeKarlson/Inputs/PlayerInputs.cs:47-50 | forwards to SprintInput; the new fields are InputModel.SprintInput of the old |
| InputComponent.PlayerInputs.OnShoot | Assets/FirstPersonLikeKarlson/Inputs/PlayerInputs.cs:52-55 | the new fields are InputModel.OnShoot of the old |
| InputComponent.PlayerInputs.OnAutoShoot | Assets/FirstPersonLikeKarlson/Inputs/PlayerInputs.cs:57-60 | the new fields are InputModel.OnAutoShoot of the old |
| InputComponent.PlayerInputs.OnCrouch | Assets/FirstPersonLikeKarlson/Inputs/PlayerInputs.cs:62-74 | held state and edge latch: the new fields are InputModel.OnCrouch of the old |
| InputComponent.PlayerInputs.OnPause | Assets/FirstPersonLikeKarlson/Inputs/PlayerInputs.cs:76-79 | the new fields are InputModel.OnPause of the old |
| InputComponent.PlayerInputs.LateUpdate | Assets/FirstPersonLikeKarlson/Inputs/PlayerInputs.cs:84-89 | end-of-frame edge reset: the new fields are InputModel.LateUpdate of the old |
| InputComponent.PlayerInputs.MoveInput | Assets/FirstPersonLikeKarlson/Inputs/PlayerInputs.cs:91-94 | the new fields are InputModel.MoveInput of the old |
| InputComponent.PlayerInputs.LookInput | Assets/FirstPersonLikeKarlson/Inputs/PlayerInputs.cs:96-99 | the new fields are InputModel.LookInput of the old |
| InputComponent.PlayerInputs.JumpInput | Assets/FirstPersonLikeKarlson/Inputs/PlayerInputs.cs:101-104 | the new fields are InputModel.JumpInput of the old |
| InputComponent.PlayerInputs.SprintInput | Assets/FirstPersonLikeKarlson/Inputs/PlayerInputs.cs:106-109 | the new fields are InputModel.SprintInput of the old |
| MovementProperties.DefaultFloorAndWallDisjoint | Assets/FirstPersonLikeKarlson/Scripts/PlayerMovement.cs:414-427 | with the default steepest slope of 35 degrees, no contact angle is both a floor and a wall |
| MovementProperties.FloorAndWallDisjointIff | Assets/FirstPersonLikeKarlson/Scripts/PlayerMovement.cs:414-427 | floors and walls never overlap if and only if the steepest slope is at most 89.9 degrees |
| MovementProperties.StartWallRunRefuses | Assets/FirstPersonLikeKarlson/Scripts/PlayerMovement.cs:502-505 | grounded, not ready to wall-run, or in the wall-jump cooldown: nothing changes |
| MovementProperties.StartWallRunStarts | Assets/FirstPersonLikeKarlson/Scripts/PlayerMovement.cs:502-517 | otherwise wall-running along the new wall. Only on the first contact is the vertical velocity zeroed and the upward impulse added |
| MovementProperties.ContactStepGrounding | Assets/FirstPersonLikeKarlson/Scripts/PlayerMovement.cs:456-472 | one contact: grounded if and only if it was or this is a floor on a ground layer. A floor records its normal and clears the cancelling flag and the pending StopGrounded |
| MovementProperties.ContactStepWallRun | Assets/FirstPersonLikeKarlson/Scripts/PlayerMovement.cs:474-485 | one contact: a StopWallRun is pending if and only if one was or this is a wall on a wall-runnable layer; a wall-run starts only from a wall |
| MovementProperties.ContactStepKeepsJumpState | Assets/FirstPersonLikeKarlson/Scripts/PlayerMovement.cs:451-486 | one contact leaves the jump state, the other timers, pause, goal and pitch unchanged |
| MovementProperties.TouchFloorKeepsJumpState | Assets/FirstPersonLikeKarlson/Scripts/PlayerMovement.cs:458-472 | the floor branch leaves the jump state, the other timers, pause, goal and pitch unchanged |
| MovementProperties.TouchWallKeepsJumpState | Assets/FirstPersonLikeKarlson/Scripts/PlayerMovement.cs:475-485 | the wall branch leaves the jump state, the other timers, pause, goal and pitch unchanged |
| MovementProperties.ContactsGrounding | Assets/FirstPersonLikeKarlson/Scripts/PlayerMovement.cs:451-486 | after the loop: grounded if and only if it was or some contact is a floor. The cancelling flag and the pending StopGrounded survive if and only if no contact is |
| MovementProperties.ContactsWallRun | Assets/FirstPersonLikeKarlson/Scripts/PlayerMovement.cs:451-486 | after the loop: a StopWallRun is pending if and only if one was or some contact is a wall; wall-running only if it was or some contact is a wall |
| MovementProperties.ContactsKeepJumpState | Assets/FirstPersonLikeKarlson/Scripts/PlayerMovement.cs:451-486 | the loop keeps the jump and cooldown flags and their timers, pause, goal and pitch |
| MovementProperties.ContactsRecordLastFloorNormal | Assets/FirstPersonLikeKarlson/Scripts/PlayerMovement.cs:451-472 | the recorded floor normal is that of the last floor contact |
| MovementProperties.ContactsKeepNormalWithoutFloor | Assets/FirstPersonLikeKarlson/Scripts/PlayerMovement.cs:451-472 | with no floor contact the floor normal is unchanged |
| MovementProperties.ContactStepKeepsContactInv | Assets/FirstPersonLikeKarlson/Scripts/PlayerMovement.cs:456-485 | a floor stops the wall-run before grounding, and a wall never starts one while grounded, so the loop invariant is kept |
| MovementProperties.ContactsKeepContactInv | Assets/FirstPersonLikeKarlson/Scripts/PlayerMovement.cs:451-486 | the whole loop keeps that invariant |
| MovementProperties.OnCollisionStayIgnoresOtherLayers | Assets/FirstPersonLikeKarlson/Scripts/PlayerMovement.cs:442-447 | an object on neither layer changes nothing |
| MovementProperties.OnCollisionStayEffects | Assets/FirstPersonLikeKarlson/Scripts/PlayerMovement.cs:439-495 | afterwards cancellingGrounded is set, and grounded implies a pending StopGrounded. Grounded if and only if it was or some floor was touched; a wall contact leaves StopWallRun pending |
| MovementProperties.OnCollisionStayKeepsInv | Assets/FirstPersonLikeKarlson/Scripts/PlayerMovement.cs:439-495 | the collision callback keeps Inv |
| MovementProperties.JumpFiresExactlyWhen | Assets/FirstPersonLikeKarlson/Scripts/PlayerMovement.cs:275 | Jump changes the state if and only if grounded or wall-running and ready to jump |
| MovementProperties.JumpEffects | Assets/FirstPersonLikeKarlson/Scripts/PlayerMovement.cs:272-313 | a jump: not ready, jump input consumed, ResetJump pending, velocity rewritten, the two jump forces added. From a wall it also pushes off, ends the wall-run and starts the wall-jump cooldown |
| MovementProperties.JumpVelocityRule | Assets/FirstPersonLikeKarlson/Scripts/PlayerMovement.cs:286-296 | horizontal velocity kept. Vertical becomes 0 below 0.5 and is halved otherwise, so it is never negative and never grows |
| MovementProperties.JumpArmsIdleTimers | Assets/FirstPersonLikeKarlson/Scripts/PlayerMovement.cs:299-311 | under Inv a jump never re-arms a ResetJump or EndWallJumpCooldown that is already pending |
| MovementProperties.JumpKeepsInv | Assets/FirstPersonLikeKarlson/Scripts/PlayerMovement.cs:272-313 | Jump keeps Inv |
| MovementProperties.CapAxisRule | Assets/FirstPersonLikeKarlson/Scripts/PlayerMovement.cs:236-241 | an input axis is zeroed if and only if it pushes further in a direction already past the speed cap; otherwise it is kept |
| MovementProperties.MultipliersTable | Assets/FirstPersonLikeKarlson/Scripts/PlayerMovement.cs:243-265 | multipliers (0.3, 0.3) while wall-running, else (0.5, 0.5) in the air, else (1, 0) sliding, else (1, 1) |
| MovementProperties.MovementGated | Assets/FirstPersonLikeKarlson/Scripts/PlayerMovement.cs:203-205 | while paused or after the goal, Movement changes nothing |
| MovementProperties.NeedsCounterIff | Assets/FirstPersonLikeKarlson/Scripts/PlayerMovement.cs:365-378 | a counter force on an axis if and only if its speed exceeds the threshold and the input is idle or opposes the motion |
| MovementProperties.LimitDiagonalBound | Assets/FirstPersonLikeKarlson/Scripts/PlayerMovement.cs:380-387 | the diagonal limit keeps the fall speed and leaves a horizontal speed of at most maxSpeed |
| MovementProperties.LimitDiagonalWhileFalling | Assets/FirstPersonLikeKarlson/Scripts/PlayerMovement.cs:380-387 | a concrete case: falling at 40 and moving sideways at 30, the limit of 20 leaves a horizontal speed of 12 (the fall speed counts in the normalisation) |
| MovementProperties.CounterMovementLimitsSpeed | Assets/FirstPersonLikeKarlson/Scripts/PlayerMovement.cs:351-388 | grounded, not jumping, not crouching: afterwards the horizontal speed is at most maxSpeed |
| MovementProperties.CounterForceXOnlyPushes | Assets/FirstPersonLikeKarlson/Scripts/PlayerMovement.cs:365-371 | the sideways counter force only adds a force: no flag and no velocity changes |
| MovementProperties.CounterForceYOnlyPushes | Assets/FirstPersonLikeKarlson/Scripts/PlayerMovement.cs:373-378 | the forward counter force only adds a force: no flag and no velocity changes |
| MovementProperties.CounterMovementGate | Assets/FirstPersonLikeKarlson/Scripts/PlayerMovement.cs:355 | in the air or while jumping, counter-movement leaves the motor as it was |
| MovementProperties.CounterMovementSlides | Assets/FirstPersonLikeKarlson/Scripts/PlayerMovement.cs:359-363 | grounded, not jumping and crouching, counter-movement adds exactly one force, against the velocity, and changes nothing else (no speed limit) |
| MovementProperties.SlopePushSkipsInput | Assets/FirstPersonLikeKarlson/Scripts/PlayerMovement.cs:203-234 | not paused, goal not reached, crouching, grounded, ready and jump not held: the tick adds gravity, the slide friction and the downward slope push, in that order, and changes nothing else; the input axes are not applied |
| MovementProperties.CounterMovementOnlyPushes | Assets/FirstPersonLikeKarlson/Scripts/PlayerMovement.cs:351-388 | counter-movement changes only the rigid body |
| MovementProperties.DriveOnlyPushes | Assets/FirstPersonLikeKarlson/Scripts/PlayerMovement.cs:227-269 | after the jump step, Movement changes only the rigid body and the capped input axes |
| MovementProperties.CappedInputForcesOnlyPush | Assets/FirstPersonLikeKarlson/Scripts/PlayerMovement.cs:236-269 | the speed cap changes only the axes, and the input forces only the body |
| MovementProperties.InputForcesOnlyPush | Assets/FirstPersonLikeKarlson/Scripts/PlayerMovement.cs:243-269 | the input forces change only the rigid body |
| MovementProperties.StickToWallOnlyPushes | Assets/FirstPersonLikeKarlson/Scripts/PlayerMovement.cs:547-555 | sticking to the wall changes only the rigid body, and nothing when not wall-running |
| MovementProperties.MovementKeepsInv | Assets/FirstPersonLikeKarlson/Scripts/PlayerMovement.cs:203-269 | Movement keeps Inv |
| MovementProperties.PushesKeepInv | Assets/FirstPersonLikeKarlson/Scripts/PlayerMovement.cs:207-219 | extra gravity and counter-movement keep Inv |
| MovementProperties.DriveKeepsInv | Assets/FirstPersonLikeKarlson/Scripts/PlayerMovement.cs:227-269 | the slope push or the input forces keep Inv |
| MovementProperties.FixedUpdateKeepsInv | Assets/FirstPersonLikeKarlson/Scripts/PlayerMovement.cs:124-128 | the physics tick keeps Inv |
| MovementProperties.CrouchRoundTrip | Assets/FirstPersonLikeKarlson/Scripts/PlayerMovement.cs:177-201 | crouching then standing restores the position and the standing scale. Only the body may differ, and it does exactly when the slide boost fired |
| MovementProperties.StartCrouchOnlyResizes | Assets/FirstPersonLikeKarlson/Scripts/PlayerMovement.cs:177-191 | StartCrouch changes only scale, position and (slide boost) the body |
| MovementProperties.StopCrouchOnlyResizes | Assets/FirstPersonLikeKarlson/Scripts/PlayerMovement.cs:197-201 | StopCrouch changes only scale and position |
| MovementProperties.GoalReachedRule | Assets/FirstPersonLikeKarlson/Scripts/PlayerMovement.cs:158-164 | the goal is reached afterwards if and only if it was or the game is not paused; nothing else changes |
| MovementProperties.MyInputPauseRule | Assets/FirstPersonLikeKarlson/Scripts/PlayerMovement.cs:139-156 | a pause request toggles paused, notifies the new value and clears the request if and only if the goal is not reached; otherwise pause and request stay. Jump, wall-run, ground and cooldown flags are kept |
| MovementProperties.MyInputCrouch | Assets/FirstPersonLikeKarlson/Scripts/PlayerMovement.cs:139-151 | copying the input and crouching or standing keeps the flags, pause, input and notices |
| MovementProperties.LookGated | Assets/FirstPersonLikeKarlson/Scripts/PlayerMovement.cs:322-324 | while paused or after the goal, Look changes nothing |
| MovementProperties.WallRunCameraRollRule | Assets/FirstPersonLikeKarlson/Scripts/PlayerMovement.cs:561-577 | no roll off the wall. On a wall, a 90-degree difference gives the full roll with opposite sign, and 0 gives none |
| MovementProperties.LookKeepsPitchInRange | Assets/FirstPersonLikeKarlson/Scripts/PlayerMovement.cs:322-345 | the pitch stays within [-90, 90]; only the three camera targets change |
| MovementProperties.UpdateKeepsInv | Assets/FirstPersonLikeKarlson/Scripts/PlayerMovement.cs:130-134 | the frame keeps Inv |
| MovementProperties.FireRule | Assets/FirstPersonLikeKarlson/Scripts/PlayerMovement.cs:497-542 | a pending callback runs once and is forgotten; one not pending does nothing. Each callback sets or clears its own flag and keeps the other three; nothing else of the motor but the pending set changes |
| MovementProperties.DebounceAlwaysEnds | Assets/FirstPersonLikeKarlson/Scripts/PlayerMovement.cs:488-500 | under Inv, while grounded (wall-running) a StopGrounded (StopWallRun) is pending, and firing it ends that state |
| MovementProperties.InitialSatisfiesInv | Assets/FirstPersonLikeKarlson/Scripts/PlayerMovement.cs:42-102 | the initial field values satisfy Inv |
| MovementProperties.FireKeepsInv | Assets/FirstPersonLikeKarlson/Scripts/PlayerMovement.cs:497-542 | a callback coming due keeps Inv |
| MovementProperties.GoalReachedKeepsInv | Assets/FirstPersonLikeKarlson/Scripts/PlayerMovement.cs:158-164 | GoalReached keeps Inv |
| MovementProperties.InputKeepsInv | Assets/FirstPersonLikeKarlson/Inputs/PlayerInputs.cs:29-109 | an input handler keeps the controller's Inv |
| MovementProperties.StepKeepsInv | Assets/FirstPersonLikeKarlson/Scripts/PlayerMovement.cs:124-577 | every event keeps Inv |
| MovementProperties.RunKeepsInv | Assets/FirstPersonLikeKarlson/Scripts/PlayerMovement.cs:124-577 | Inv holds after any event sequence, so never grounded and wall-running at once |
| MovementProperties.FixedUpdateKeepsGoal | Assets/FirstPersonLikeKarlson/Scripts/PlayerMovement.cs:124-128 | a physics tick never un-reaches the goal |
| MovementProperties.UpdateKeepsGoal | Assets/FirstPersonLikeKarlson/Scripts/PlayerMovement.cs:130-134 | a frame never un-reaches the goal |
| MovementProperties.OnCollisionStayKeepsGoal | Assets/FirstPersonLikeKarlson/Scripts/PlayerMovement.cs:439-495 | a collision never un-reaches the goal |
| MovementProperties.FireKeepsGoal | Assets/FirstPersonLikeKarlson/Scripts/PlayerMovement.cs:497-542 | a callback never un-reaches the goal |
| MovementProperties.StepKeepsGoal | Assets/FirstPersonLikeKarlson/Scripts/PlayerMovement.cs:124-577 | no event un-reaches the goal |
| MovementProperties.GoalIsFinal | Assets/FirstPersonLikeKarlson/Scripts/PlayerMovement.cs:152-164 | once reached, the goal stays reached and the game stays unpaused after any event sequence |
| MovementComponent.PlayerMovement.constructor | Assets/FirstPersonLikeKarlson/Scripts/PlayerMovement.cs:104-121 | fields at their initialisers, standing scale taken from the transform, Inv holds |
| MovementComponent.PlayerMovement.StopGrounded | Assets/FirstPersonLikeKarlson/Scripts/PlayerMovement.cs:497-500 | clears grounded, nothing else |
| MovementComponent.PlayerMovement.StopWallRun | Assets/FirstPersonLikeKarlson/Scripts/PlayerMovement.cs:522-525 | clears isWallRunning, nothing else |
| MovementComponent.PlayerMovement.ResetJump | Assets/FirstPersonLikeKarlson/Scripts/PlayerMovement.cs:315-318 | sets readyToJump, nothing else |
| MovementComponent.PlayerMovement.StartWallJumpCooldown | Assets/FirstPersonLikeKarlson/Scripts/PlayerMovement.cs:530-534 | cooldown active and EndWallJumpCooldown pending |
| MovementComponent.PlayerMovement.EndWallJumpCooldown | Assets/FirstPersonLikeKarlson/Scripts/PlayerMovement.cs:539-542 | cooldown inactive, nothing else |
| MovementComponent.PlayerMovement.Fire | Assets/FirstPersonLikeKarlson/Scripts/PlayerMovement.cs:497-542 | a deferred callback coming due follows MovementModel.Fire and keeps Inv |
| MovementComponent.PlayerMovement.StartWallRun | Assets/FirstPersonLikeKarlson/Scripts/PlayerMovement.cs:502-517 | the fields follow MovementModel.StartWallRun (refusal and start as in the two lemmas) |
| MovementComponent.PlayerMovement.TouchFloor | Assets/FirstPersonLikeKarlson/Scripts/PlayerMovement.cs:458-472 | the floor branch of the loop, as MovementModel.TouchFloor |
| MovementComponent.PlayerMovement.TouchWall | Assets/FirstPersonLikeKarlson/Scripts/PlayerMovement.cs:475-485 | the wall branch of the loop, as MovementModel.TouchWall |
| MovementComponent.PlayerMovement.ContactPoint | Assets/FirstPersonLikeKarlson/Scripts/PlayerMovement.cs:454-485 | one loop iteration, as MovementModel.ContactStep |
| MovementComponent.PlayerMovement.ContactPoints | Assets/FirstPersonLikeKarlson/Scripts/PlayerMovement.cs:451-486 | the `for` loop over the contacts, with a loop invariant tying it to MovementModel.Contacts |
| MovementComponent.PlayerMovement.OnCollisionStay | Assets/FirstPersonLikeKarlson/Scripts/PlayerMovement.cs:439-495 | follows MovementModel.OnCollisionStay and keeps Inv |
| MovementComponent.PlayerMovement.CounterMovement | Assets/FirstPersonLikeKarlson/Scripts/PlayerMovement.cs:351-388 | follows MovementModel.CounterMovement (speed limit and push-only lemmas above) |
| MovementComponent.PlayerMovement.Jump | Assets/FirstPersonLikeKarlson/Scripts/PlayerMovement.cs:272-313 | follows MovementModel.Jump (guard and effects lemmas above) |
| MovementComponent.PlayerMovement.ConsumeJump | Assets/FirstPersonLikeKarlson/Scripts/PlayerMovement.cs:277-278 | not ready to jump and the jump input cleared, nothing else |
| MovementComponent.PlayerMovement.AddJumpForces | Assets/FirstPersonLikeKarlson/Scripts/PlayerMovement.cs:280-284 | exactly the two jump forces are added |
| MovementComponent.PlayerMovement.ResetFallingVelocity | Assets/FirstPersonLikeKarlson/Scripts/PlayerMovement.cs:286-296 | the velocity becomes MovementModel.JumpVelocity of the old velocity |
| MovementComponent.PlayerMovement.JumpOffWall | Assets/FirstPersonLikeKarlson/Scripts/PlayerMovement.cs:299-308 | from a wall: pushed off, wall-run ended, cooldown started; otherwise nothing |
| MovementComponent.PlayerMovement.Movement | Assets/FirstPersonLikeKarlson/Scripts/PlayerMovement.cs:203-270 | follows MovementModel.Movement (gate, cap and multiplier lemmas above) |
| MovementComponent.PlayerMovement.Drive | Assets/FirstPersonLikeKarlson/Scripts/PlayerMovement.cs:227-269 | the slope push, or the capped axes and input forces, as MovementModel.Drive |
| MovementComponent.PlayerMovement.AddInputForces | Assets/FirstPersonLikeKarlson/Scripts/PlayerMovement.cs:243-269 | the input forces with the multiplier table, as MovementModel.InputForces |
| MovementComponent.PlayerMovement.StickToWallWhileWallRunning | Assets/FirstPersonLikeKarlson/Scripts/PlayerMovement.cs:547-555 | follows MovementModel.StickToWallWhileWallRunning |
| MovementComponent.PlayerMovement.FixedUpdate | Assets/FirstPersonLikeKarlson/Scripts/PlayerMovement.cs:124-128 | follows MovementModel.FixedUpdate and keeps Inv |
| MovementComponent.PlayerMovement.StartCrouch | Assets/FirstPersonLikeKarlson/Scripts/PlayerMovement.cs:177-191 | follows MovementModel.StartCrouch (round trip with StopCrouch proved) |
| MovementComponent.PlayerMovement.StopCrouch | Assets/FirstPersonLikeKarlson/Scripts/PlayerMovement.cs:197-201 | standing scale restored and collider raised by 0.5 |
| MovementComponent.PlayerMovement.Pause | Assets/FirstPersonLikeKarlson/Scripts/PlayerMovement.cs:166-171 | paused toggled, the new value passed to the OnPause listeners, the pause request cleared |
| MovementComponent.PlayerMovement.GoalReached | Assets/FirstPersonLikeKarlson/Scripts/PlayerMovement.cs:158-164 | follows MovementModel.GoalReached and keeps Inv |
| MovementComponent.PlayerMovement.ReadInput | Assets/FirstPersonLikeKarlson/Scripts/PlayerMovement.cs:141-144 | x, y, jumping and crouching copied from the input, nothing else |
| MovementComponent.PlayerMovement.HandleCrouch | Assets/FirstPersonLikeKarlson/Scripts/PlayerMovement.cs:147-150 | a press edge crouches and a release edge stands up, as MovementModel.HandleCrouch |
| MovementComponent.PlayerMovement.HandlePause | Assets/FirstPersonLikeKarlson/Scripts/PlayerMovement.cs:152-155 | a pause request pauses unless the goal is reached, as MovementModel.HandlePause |
| MovementComponent.PlayerMovement.MyInput | Assets/FirstPersonLikeKarlson/Scripts/PlayerMovement.cs:139-156 | follows MovementModel.MyInput (pause rule lemma above) |
| MovementComponent.PlayerMovement.UpdateWallRunCameraRoll | Assets/FirstPersonLikeKarlson/Scripts/PlayerMovement.cs:561-577 | only the target roll changes, to MovementModel.WallRunCameraRoll |
| MovementComponent.PlayerMovement.Look | Assets/FirstPersonLikeKarlson/Scripts/PlayerMovement.cs:322-345 | follows MovementModel.Look (gate and pitch lemmas above) |
| MovementComponent.PlayerMovement.Update | Assets/FirstPersonLikeKarlson/Scripts/PlayerMovement.cs:130-134 | follows MovementModel.Update and keeps Inv |

## Left out

- Floating point: every float is a `real`. Rounding is not modelled, and neither are the magnitude and normalisation the engine computes. `rb.linearVelocity.magnitude` is a parameter; `CounterMovementLimitsSpeed` and `LimitDiagonalBound` assume it is the true magnitude.
- Engine math done outside the controller's own logic is a parameter, not computed:
  - `FindVelRelativeToLook` (Atan2, DeltaAngle, Cos);
  - `Vector3.Angle` and `Vector3.SignedAngle`;
  - the camera's Euler angles and `Quaternion.Euler`.
- `Mathf.SmoothDamp` of the current wall roll is not modelled, and neither are `currentWallRotation` or `wallRotationVelocity`. Look records only the targets: `desiredX`, `xRotation` and `desiredWallRunRotation`.
- The physics step is not modelled: forces are logged on the body, not integrated. Gravity from the engine is also out, as are contacts arising from motion and collisions other than through `OnCollisionStay`.
- `Invoke` delays are not modelled: `jumpCooldown`, `wallJumpCooldownDuration`, `Time.deltaTime * 3`. A pending callback may come due at any later event, once.
- Cursor locking is not modelled, since it is presentation: `Start`, `OnApplicationFocus`, `SetCursorState`. Neither is the `PlayerInput` lookup.
- `GameManager`, `MainMenu`, `KillZone` and `Goal` are not part of this model. The goal trigger is the `GoalTouched` event, and the `OnPause` listeners are the recorded `pauseNotices`.
- The fields `sprinting` and `readyToWallRun` are declared but never written by the controller. The model keeps `readyToWallRun` as a field that nothing changes.
- `ExceedsMaxSpeed` compares squared speeds instead of taking a square root. The two agree for every `maxSpeed`.
- `StartCrouch` compares squared speeds in the same way.
- The four cap `if`s are collapsed into `CapAxis` with the same order of tests.
- `Vector2.up` in the jump force becomes the 3D up vector, as its implicit conversion gives.
- Some source methods are split into helper methods with the same effect, one per step, so that each step is proved on its own: `ConsumeJump`, `AddJumpForces`, `ResetFallingVelocity`, `JumpOffWall`, `Drive`, `AddInputForces`, `ReadInput`, `HandleCrouch`, `HandlePause`, and the `OnCollisionStay` loop body.
- `MyInput` reads the input's crouch and pause flags after copying the axes. Nothing between those reads writes them, so the reading order does not matter.
