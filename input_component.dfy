/**
 * The `PlayerInputs` component: public fields that the Input System's handlers assign in place
 * and that `LateUpdate` resets at the end of every frame. Each handler is proved to change the
 * fields exactly as the matching function of InputModel says.
 */
module InputComponent {
  import opened Vectors
  import IM = InputModel

  class PlayerInputs {
    var move: Vec2
    var look: Vec2
    var jump: bool
    var sprint: bool
    var shoot: bool
    var autoShoot: bool
    var pause: bool
    var crouch: bool
    var crouchPressed: bool
    var crouchReleased: bool
    var analogMovement: bool
    var cursorLocked: bool
    var cursorInputForLook: bool

    /** The component's fields as one value. */
    function State(): IM.InputState
      reads this
    {
      IM.InputState(move, look, jump, sprint, shoot, autoShoot, pause,
                    crouch, crouchPressed, crouchReleased,
                    analogMovement, cursorLocked, cursorInputForLook)
    }

    /** The field initialisers. */
    constructor ()
      ensures State() == IM.Initial
    {
      move, look := Zero2, Zero2;
      jump, sprint, shoot, autoShoot, pause := false, false, false, false, false;
      crouch, crouchPressed, crouchReleased := false, false, false;
      analogMovement, cursorLocked, cursorInputForLook := false, true, true;
    }

    method OnMove(value: Vec2)
      modifies this
      ensures State() == IM.MoveInput(old(State()), value)
    {
      MoveInput(value);
    }

    method OnLook(value: Vec2)
      modifies this
      ensures State() == IM.OnLook(old(State()), value)
    {
      if cursorInputForLook {
        LookInput(value);
      }
    }

    method OnJump(isPressed: bool)
      modifies this
      ensures State() == IM.JumpInput(old(State()), isPressed)
    {
      JumpInput(isPressed);
    }

    method OnSprint(isPressed: bool)
      modifies this
      ensures State() == IM.SprintInput(old(State()), isPressed)
    {
      SprintInput(isPressed);
    }

    method OnShoot(isPressed: bool)
      modifies this
      ensures State() == IM.OnShoot(old(State()), isPressed)
    {
      shoot := isPressed;
    }

    method OnAutoShoot(isPressed: bool)
      modifies this
      ensures State() == IM.OnAutoShoot(old(State()), isPressed)
    {
      autoShoot := isPressed;
    }

    method OnCrouch(isPressed: bool)
      modifies this
      ensures State() == IM.OnCrouch(old(State()), isPressed)
    {
      crouch := isPressed;
      if crouch {
        crouchPressed := true;
      } else {
        crouchReleased := true;
      }
    }

    method OnPause(isPressed: bool)
      modifies this
      ensures State() == IM.OnPause(old(State()), isPressed)
    {
      pause := isPressed;
    }

    method LateUpdate()
      modifies this
      ensures State() == IM.LateUpdate(old(State()))
    {
      crouchPressed := false;
      crouchReleased := false;
    }

    method MoveInput(newMoveDirection: Vec2)
      modifies this
      ensures State() == IM.MoveInput(old(State()), newMoveDirection)
    {
      move := newMoveDirection;
    }

    method LookInput(newLookDirection: Vec2)
      modifies this
      ensures State() == IM.LookInput(old(State()), newLookDirection)
    {
      look := newLookDirection;
    }

    method JumpInput(newJumpState: bool)
      modifies this
      ensures State() == IM.JumpInput(old(State()), newJumpState)
    {
      jump := newJumpState;
    }

    method SprintInput(newSprintState: bool)
      modifies this
      ensures State() == IM.SprintInput(old(State()), newSprintState)
    {
      sprint := newSprintState;
    }
  }
}
