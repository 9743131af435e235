# CharacterController2D — the controller's state machine, verified

`Assets/Scripts/CharacterController2D.cs` is the movement component of a 2D
platformer character. Most of it hands work to the game engine, but inside it
is a small discrete state machine. This project models that machine in Dafny
and proves its transition rules.

The machine's state:

- grounded (`m_Grounded`);
- facing right (`m_FacingRight`);
- was crouching (`m_wasCrouching`);
- the enabled flag of the optional crouch-disable collider;
- the sign-carrying x scale of the transform.

The model also records one output: the last horizontal target velocity handed
to the engine. In the source this is only a local value at line 107.

Three operations change that state:

- **FixedUpdate** (the physics tick) recomputes grounded from the colliders
  that the ground check overlaps. When the character was airborne, it emits a
  landing event for each overlapping collider of another object.
- **Move** turns the crouch input into an effective crouch; a ceiling overhead
  forces a crouch. When the character is controllable (grounded, or with air
  control), Move emits crouch events on changes only, toggles the crouch
  collider, slows a crouched move and turns to face the move. A jump is
  possible only from the ground, and it clears grounded.
- **Flip** toggles facing and mirrors the x scale.

The engine's queries become inputs:

- the ground overlap query becomes a sequence of `Overlap` values, each
  tagged with whether the collider belongs to the character itself;
- the ceiling query becomes a `ceilingHit` boolean.

Emitted events and the jump force are appended, in order, to a log of
`Effect` values.

There are two modules:

- `ControllerSpec` (`controller_spec.dfy`) gives the pure transition
  functions over a `State` value and the lemmas about them.
- `Controller` (`controller.dfy`) holds the class `CharacterController2D`
  with the source's fields. Its methods mutate those fields. Each method
  (FixedUpdate, Move, Control, UpdateCrouch, Flip) requires and keeps the
  invariant `Valid()`. Each is proved to move `Snapshot()` exactly as the
  matching `ControllerSpec` function says. The invariant says three things:
  - the crouch speed lies in [0, 1];
  - the x scale is the rest scale when facing right and its negation
    otherwise;
  - crouch events strictly alternate, starting with a crouch start, and
    was-crouching records whether the last one was a start.

In `Move`, the branch that runs only while the character is controllable
(source lines 76-119) is a method of its own, `Control`. Its crouch block
(lines 79-104, without the speed scaling at line 88) is in turn the method
`UpdateCrouch`. Both bodies follow the source statement by statement.
Splitting them out keeps each proof small.

## Model

| member | source | states |
|---|---|---|
| ControllerSpec.OtherCountBounds | Assets/Scripts/CharacterController2D.cs:51-58 | The number of overlapping colliders of other objects is at most the number of overlaps. It is positive exactly when some overlap belongs to another object. |
| ControllerSpec.FixedUpdateStep | Assets/Scripts/CharacterController2D.cs:44-60 | After a tick, grounded holds iff some overlapping collider belongs to another object. Only landing events are appended: one per such collider when the character was airborne before, none when it was already grounded. So something is emitted exactly on the airborne-to-grounded transition. Nothing else changes. |
| ControllerSpec.Landings | Assets/Scripts/CharacterController2D.cs:56-57 | The landing events of one tick are n copies of the landing event. |
| Controller.CharacterController2D.FixedUpdate | Assets/Scripts/CharacterController2D.cs:44-60 | The loop that resets grounded and then scans the overlaps, with its invariants, yields exactly FixedUpdateStep of the old state. It keeps Valid(). |
| ControllerSpec.SecondTickSilent | Assets/Scripts/CharacterController2D.cs:46-59 | A second tick over the same overlaps changes nothing: no second landing, same grounded. |
| ControllerSpec.EffectiveCrouch | Assets/Scripts/CharacterController2D.cs:65-73 | A crouch input is never overridden. Without a crouch input, the effective crouch is exactly the ceiling hit. |
| ControllerSpec.MoveUsed | Assets/Scripts/CharacterController2D.cs:79-88 | Standing, the move used is the input. Crouched, it is never faster than the input and never points the other way. With a positive crouch speed it keeps the input's direction. |
| ControllerSpec.ScaledMove | Assets/Scripts/CharacterController2D.cs:7 | Scaling a move by a factor in [0, 1] keeps its sign, or makes it zero, and never grows its magnitude. |
| ControllerSpec.CrouchControl | Assets/Scripts/CharacterController2D.cs:79-104 | Afterwards was-crouching equals the effective crouch. The crouch collider, if present, is disabled exactly while crouching. The log gains one crouch event, carrying the new value, exactly when was-crouching changes. Nothing else changes. |
| ControllerSpec.CrouchDelta | Assets/Scripts/CharacterController2D.cs:81-103 | The crouch part of a move's output holds at most one event. It holds no crouch event when the flag is unchanged, and the new value when it changes. It holds no landing or jump. |
| ControllerSpec.Flipped | Assets/Scripts/CharacterController2D.cs:129-135 | Flip negates facing and the x scale and changes nothing else. |
| ControllerSpec.FlipTwice | Assets/Scripts/CharacterController2D.cs:129-135 | Flipping twice restores the state, and a flip always changes it. |
| ControllerSpec.FaceDirection | Assets/Scripts/CharacterController2D.cs:110-118 | After turning, the character faces right if the move used is positive and left if it is negative. A zero move leaves the state unchanged. The scale is mirrored exactly when facing changes. Nothing else changes. |
| ControllerSpec.JumpControl | Assets/Scripts/CharacterController2D.cs:120-125 | Grounded afterwards is grounded-before and not jump. Exactly one jump force is appended when a jump is taken, and none otherwise. |
| ControllerSpec.JumpDelta | Assets/Scripts/CharacterController2D.cs:121-125 | The jump part of a move's output holds one jump force when the jump is taken and none otherwise. It holds no crouch or landing event. |
| ControllerSpec.ControlledMove | Assets/Scripts/CharacterController2D.cs:76-119 | In the controllable branch: was-crouching follows the crouch, and the collider is off exactly while crouching. The target velocity is ten times the move used. Facing follows the sign of the move used. Grounded is untouched. The log gains only the crouch event of a change. |
| ControllerSpec.MoveStep | Assets/Scripts/CharacterController2D.cs:63-126 | Uncontrollable: every field and the log stay as they were. Controllable: the crouch, collider, velocity and facing rules above hold. In both cases grounded becomes grounded-before and not jump. The log grows by exactly the crouch event of a change, then the force of a taken jump. |
| Controller.CharacterController2D.Move | Assets/Scripts/CharacterController2D.cs:63-126 | The method, with its reassigned crouch input, yields exactly MoveStep of the old state. It keeps Valid(). |
| Controller.CharacterController2D.Control | Assets/Scripts/CharacterController2D.cs:76-119 | The controllable branch, written as in the source, yields exactly ControlledMove of the old state. It keeps Valid(). |
| Controller.CharacterController2D.UpdateCrouch | Assets/Scripts/CharacterController2D.cs:79-104 | The crouch block, written as in the source, yields exactly CrouchControl of the old state. It keeps Valid(). |
| Controller.CharacterController2D.Flip | Assets/Scripts/CharacterController2D.cs:129-135 | The method yields exactly Flipped of the old state. It keeps Valid(). |
| Controller.CharacterController2D.constructor | Assets/Scripts/CharacterController2D.cs:16-31 | A new character is not grounded, faces right, is not crouching and has emitted nothing. Valid() holds. |
| ControllerSpec.CrouchEventsAppend | Assets/Scripts/CharacterController2D.cs:84 | The crouch events of a concatenated log are the crouch events of each part, in order. |
| ControllerSpec.LandingsHaveNoCrouchEvents | Assets/Scripts/CharacterController2D.cs:57 | Landing events carry no crouch events. |
| ControllerSpec.FixedUpdateKeepsCrouchHistory | Assets/Scripts/CharacterController2D.cs:44-60 | A tick keeps crouch events alternating and in agreement with was-crouching. |
| ControllerSpec.MoveKeepsCrouchHistory | Assets/Scripts/CharacterController2D.cs:79-104 | A move keeps crouch events alternating, starting with a start, and keeps was-crouching equal to the last of them. |
| ControllerSpec.AppendKeepsCrouchHistory | Assets/Scripts/CharacterController2D.cs:99-103 | Appending the crouch event of a change, then no other crouch events, keeps the history consistent with the new flag. |
| ControllerSpec.MoveKeepsAligned | Assets/Scripts/CharacterController2D.cs:110-135 | A move keeps the x scale equal to the rest scale when facing right and to its negation when facing left. |
| ControllerSpec.CrouchControlKeepsConsistent | Assets/Scripts/CharacterController2D.cs:79-107 | The crouch block, followed by a new target velocity, preserves the whole controller invariant. |
| ControllerSpec.FlipKeepsConsistent | Assets/Scripts/CharacterController2D.cs:129-135 | A flip preserves the whole controller invariant. |
| ControllerSpec.MoveKeepsConsistent | Assets/Scripts/CharacterController2D.cs:63-126 | A move preserves the whole controller invariant. |
| ControllerSpec.FixedUpdateKeepsConsistent | Assets/Scripts/CharacterController2D.cs:44-60 | A tick preserves the whole controller invariant. |
| ControllerSpec.AirborneMoveNoJump | Assets/Scripts/CharacterController2D.cs:121-125 | One move of an airborne character leaves it airborne and applies no jump force. |
| ControllerSpec.AirborneMovesNeverJump | Assets/Scripts/CharacterController2D.cs:121-125 | Through any run of moves with no tick in between, an airborne character stays airborne and applies no jump force, whatever jumps are requested. |
| ControllerSpec.NoDoubleJump | Assets/Scripts/CharacterController2D.cs:121-125 | A jump consumes grounded. After a taken jump, no run of further moves applies a jump force until a tick finds ground again. |

## Left out

- Physics2D.OverlapCircleAll and Physics2D.OverlapCircle (circle geometry, layer masks, the two radii) are engine queries. Their answers are inputs: a sequence of overlaps tagged "self" or "other", and a ceiling-hit boolean.
- Rigidbody2D velocity, Vector3.SmoothDamp, the movement smoothing and the vertical velocity component are engine numerics. Only the horizontal target velocity (move used times 10) is kept.
- The jump force magnitude and AddForce are left out. Each applied jump force is one JumpForce entry in the log.
- UnityEvent and BoolEvent dispatch, and their listeners, are left out. Invoking an event appends it to the log.
- Awake is not part of this model. It only looks up engine components and creates the event objects when they are missing.
- Inspector attributes and editor configuration are left out. The Range(0, 1) of the crouch speed is kept as a requirement of the constructor and as part of Valid().
- The transform scale's y and z components are left out. Only the x component, whose sign the flip mirrors, is kept.
- MoveUsed: computes with exact reals instead of 32-bit floats. It therefore does not capture a float product that underflows to zero for a tiny move, which would leave facing unchanged.
- The Rigidbody2D and the ground-check and ceiling-check transforms are assumed to be present. If any of them is missing, the source throws a NullReferenceException at line 50, 69 or 107; the model has no such failure.
- The engine's calling order of FixedUpdate and Move is not modelled. Each method is verified for any call sequence that starts from a Valid() state.
