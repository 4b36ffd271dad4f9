/**
 * The fields of the `PlayerInputs` component and what each input-action handler does to them,
 * as functions on a snapshot of those fields. The component itself (a class whose handlers
 * assign its fields in place) is in module InputComponent; its methods are proved to follow
 * these functions.
 */
module InputModel {
  import opened Vectors

  datatype InputState = InputState(
    move: Vec2,
    look: Vec2,
    jump: bool,
    sprint: bool,
    shoot: bool,
    autoShoot: bool,
    pause: bool,
    crouch: bool,          // held: true while the key is down
    crouchPressed: bool,   // edge: true in the frame the key went down
    crouchReleased: bool,  // edge: true in the frame the key came up
    analogMovement: bool,
    cursorLocked: bool,
    cursorInputForLook: bool)

  /** The component's field initialisers. */
  const Initial: InputState :=
    InputState(Zero2, Zero2, false, false, false, false, false, false, false, false, false, true, true)

  /** `MoveInput` (and `OnMove`, which forwards to it): overwrites `move` and nothing else. */
  function MoveInput(s: InputState, v: Vec2): (r: InputState)
    ensures r.move == v && r.(move := s.move) == s
  {
    s.(move := v)
  }

  /** `LookInput`: overwrites `look` and nothing else. */
  function LookInput(s: InputState, v: Vec2): (r: InputState)
    ensures r.look == v && r.(look := s.look) == s
  {
    s.(look := v)
  }

  /** `OnLook`: takes the new look delta only while the cursor drives the look. */
  function OnLook(s: InputState, v: Vec2): (r: InputState)
    ensures s.cursorInputForLook ==> r == LookInput(s, v)
    ensures !s.cursorInputForLook ==> r == s
  {
    if s.cursorInputForLook then LookInput(s, v) else s
  }

  /** `JumpInput` (and `OnJump`): overwrites `jump` and nothing else. */
  function JumpInput(s: InputState, pressed: bool): (r: InputState)
    ensures r.jump == pressed && r.(jump := s.jump) == s
  {
    s.(jump := pressed)
  }

  /** `SprintInput` (and `OnSprint`): overwrites `sprint` and nothing else. */
  function SprintInput(s: InputState, pressed: bool): (r: InputState)
    ensures r.sprint == pressed && r.(sprint := s.sprint) == s
  {
    s.(sprint := pressed)
  }

  /** `OnShoot`: overwrites `shoot` and nothing else. */
  function OnShoot(s: InputState, pressed: bool): (r: InputState)
    ensures r.shoot == pressed && r.(shoot := s.shoot) == s
  {
    s.(shoot := pressed)
  }

  /** `OnAutoShoot`: overwrites `autoShoot` and nothing else. */
  function OnAutoShoot(s: InputState, pressed: bool): (r: InputState)
    ensures r.autoShoot == pressed && r.(autoShoot := s.autoShoot) == s
  {
    s.(autoShoot := pressed)
  }

  /** `OnPause`: overwrites `pause` and nothing else. */
  function OnPause(s: InputState, pressed: bool): (r: InputState)
    ensures r.pause == pressed && r.(pause := s.pause) == s
  {
    s.(pause := pressed)
  }

  /**
   * `OnCrouch`: records the held state, and latches the press edge on a press or the release
   * edge on a release; the other edge flag keeps whatever it had this frame.
   */
  function OnCrouch(s: InputState, pressed: bool): (r: InputState)
    ensures r.crouch == pressed
    ensures pressed ==> r.crouchPressed && r.crouchReleased == s.crouchReleased
    ensures !pressed ==> r.crouchReleased && r.crouchPressed == s.crouchPressed
    ensures r.(crouch := s.crouch, crouchPressed := s.crouchPressed, crouchReleased := s.crouchReleased) == s
  {
    var s1 := s.(crouch := pressed);
    if s1.crouch then s1.(crouchPressed := true) else s1.(crouchReleased := true)
  }

  /** `LateUpdate`: clears both crouch edges at the end of a frame, and nothing else. */
  function LateUpdate(s: InputState): (r: InputState)
    ensures !r.crouchPressed && !r.crouchReleased
    ensures r.(crouchPressed := s.crouchPressed, crouchReleased := s.crouchReleased) == s
  {
    s.(crouchPressed := false, crouchReleased := false)
  }

  /** The messages the Input System delivers to the component, and the end of a frame. */
  datatype InputAction =
    | MoveAction(v: Vec2)
    | LookAction(v: Vec2)
    | JumpAction(pressed: bool)
    | SprintAction(pressed: bool)
    | ShootAction(pressed: bool)
    | AutoShootAction(pressed: bool)
    | CrouchAction(pressed: bool)
    | PauseAction(pressed: bool)
    | FrameEnd

  function Handle(s: InputState, a: InputAction): InputState {
    match a
    case MoveAction(v) => MoveInput(s, v)
    case LookAction(v) => OnLook(s, v)
    case JumpAction(p) => JumpInput(s, p)
    case SprintAction(p) => SprintInput(s, p)
    case ShootAction(p) => OnShoot(s, p)
    case AutoShootAction(p) => OnAutoShoot(s, p)
    case CrouchAction(p) => OnCrouch(s, p)
    case PauseAction(p) => OnPause(s, p)
    case FrameEnd => LateUpdate(s)
  }

  /** The state after a sequence of actions, the last one handled last. */
  function HandleAll(s: InputState, as_: seq<InputAction>): InputState
    decreases |as_|
  {
    if as_ == [] then s else Handle(HandleAll(s, as_[..|as_| - 1]), as_[|as_| - 1])
  }

  /** No frame has ended after position `i` of `as_`. */
  predicate NoFrameEndAfter(as_: seq<InputAction>, i: int) {
    forall j :: 0 <= j < |as_| && i < j ==> !as_[j].FrameEnd?
  }

  /** A crouch press (release) has arrived since the last frame ended. */
  predicate EdgeSinceFrameEnd(as_: seq<InputAction>, pressed: bool) {
    exists i :: 0 <= i < |as_| && as_[i] == CrouchAction(pressed) && NoFrameEndAfter(as_, i)
  }

  /**
   * The edge flags latch for one frame: after any sequence of actions, the press (release) flag
   * is set exactly when a press (release) has arrived since the last frame ended, or it was
   * already set and no frame has ended since.
   */
  lemma {:induction false} EdgeFlagsLatchForOneFrame(s: InputState, as_: seq<InputAction>)
    ensures HandleAll(s, as_).crouchPressed <==>
      EdgeSinceFrameEnd(as_, true) || (s.crouchPressed && NoFrameEndAfter(as_, -1))
    ensures HandleAll(s, as_).crouchReleased <==>
      EdgeSinceFrameEnd(as_, false) || (s.crouchReleased && NoFrameEndAfter(as_, -1))
    decreases |as_|
  {
    if as_ != [] {
      var n := |as_| - 1;
      var pre := as_[..n];
      EdgeFlagsLatchForOneFrame(s, pre);
      forall i | 0 <= i < n ensures pre[i] == as_[i] { }
      if as_[n].FrameEnd? {
        assert !NoFrameEndAfter(as_, -1);
        forall i | 0 <= i < n ensures !NoFrameEndAfter(as_, i) { }
      } else {
        forall i | -1 <= i < n ensures NoFrameEndAfter(as_, i) <==> NoFrameEndAfter(pre, i) { }
        if as_[n] == CrouchAction(true) {
          assert NoFrameEndAfter(as_, n);
        }
        if as_[n] == CrouchAction(false) {
          assert NoFrameEndAfter(as_, n);
        }
      }
    }
  }
}
