/** The character controller component itself: its fields, the three
    operations the engine and the input script call (FixedUpdate, Move, Flip)
    and the two parts of Move split out as methods (Control, UpdateCrouch),
    each proved to keep Valid() and to move the state exactly as the matching
    function of ControllerSpec says. */
module Controller {
  import opened ControllerSpec

  /** The collider that is switched off while crouching; only its enabled flag
      is part of the model. */
  class Collider2D {
    var enabled: bool

    constructor (enabled: bool)
      ensures this.enabled == enabled
    {
      this.enabled := enabled;
    }
  }

  class CharacterController2D {
    // serialized tuning, fixed once the component exists
    const airControl: bool
    const crouchSpeed: real
    const crouchDisableCollider: Collider2D?
    // the horizontal scale the transform had when the character faced right
    ghost const restScaleX: real

    var grounded: bool
    var facingRight: bool
    var wasCrouching: bool
    var scaleX: real            // sign-carrying x component of the transform's scale
    var targetVelocityX: real   // the last horizontal target velocity handed to the engine
    var log: seq<Effect>        // landing and crouch events, jump forces, in order

    function Cfg(): Config {
      Config(airControl, crouchSpeed)
    }

    /** The abstract state the specification functions act on. */
    function Snapshot(): State
      reads this, crouchDisableCollider
    {
      State(grounded, facingRight, wasCrouching,
            if crouchDisableCollider == null then None else Some(crouchDisableCollider.enabled),
            scaleX, targetVelocityX, log)
    }

    /** The crouch speed lies in [0, 1]; the scale is mirrored exactly when
        facing left; crouch events alternate and agree with was-crouching. */
    ghost predicate Valid()
      reads this, crouchDisableCollider
    {
      Consistent(Snapshot(), Cfg(), restScaleX)
    }

    /** A freshly placed character: airborne until the first physics tick,
        facing right, standing, with nothing emitted yet. */
    constructor (airControl: bool, crouchSpeed: real, crouchDisableCollider: Collider2D?, scaleX: real)
      requires 0.0 <= crouchSpeed <= 1.0
      ensures Valid()
      ensures this.airControl == airControl && this.crouchSpeed == crouchSpeed
      ensures this.crouchDisableCollider == crouchDisableCollider
      ensures !grounded && facingRight && !wasCrouching
      ensures this.scaleX == scaleX && log == []
    {
      this.airControl := airControl;
      this.crouchSpeed := crouchSpeed;
      this.crouchDisableCollider := crouchDisableCollider;
      restScaleX := scaleX;
      grounded := false;
      facingRight := true;
      wasCrouching := false;
      this.scaleX := scaleX;
      targetVelocityX := 0.0;
      log := [];
    }

    /** The physics tick: grounded is recomputed from the colliders the ground
        check overlaps, emitting a landing event per collider of another
        object when the character was airborne. */
    method FixedUpdate(overlaps: seq<Overlap>)
      requires Valid()
      modifies this
      ensures Valid()
      ensures Snapshot() == FixedUpdateStep(old(Snapshot()), overlaps)
    {
      var wasGrounded := grounded;
      grounded := false;
      for i := 0 to |overlaps|
        invariant grounded == HasOther(overlaps[..i])
        invariant log == old(log) + Landings(if wasGrounded then 0 else OtherCount(overlaps[..i]))
        invariant facingRight == old(facingRight) && wasCrouching == old(wasCrouching)
        invariant scaleX == old(scaleX) && targetVelocityX == old(targetVelocityX)
      {
        assert overlaps[..i + 1][..i] == overlaps[..i];
        if !overlaps[i].ofSelf {
          grounded := true;
          if !wasGrounded {
            log := log + [Landed];
          }
        } else {
          assert HasOther(overlaps[..i + 1]) ==> HasOther(overlaps[..i]) by {
            if HasOther(overlaps[..i + 1]) {
              var j :| 0 <= j < i + 1 && !overlaps[..i + 1][j].ofSelf;
              assert j < i && !overlaps[..i][j].ofSelf;
            }
          }
        }
        assert !overlaps[i].ofSelf ==> !overlaps[..i + 1][i].ofSelf;
      }
      assert overlaps[..|overlaps|] == overlaps;
      FixedUpdateKeepsConsistent(old(Snapshot()), Cfg(), overlaps, restScaleX);
    }

    /** One move request from the input script; ceilingHit stands for the
        ceiling overlap query. */
    method Move(move: real, crouch: bool, jump: bool, ceilingHit: bool)
      requires Valid()
      modifies this, crouchDisableCollider
      ensures Valid()
      ensures Snapshot() == MoveStep(old(Snapshot()), Cfg(), move, crouch, jump, ceilingHit)
    {
      ghost var s := Snapshot();
      var crouching := crouch;
      // a ceiling overhead keeps the character crouched
      if !crouching {
        if ceilingHit {
          crouching := true;
        }
      }
      assert crouching == EffectiveCrouch(crouch, ceilingHit);
      // only a grounded character, or one with air control, can be steered
      if grounded || airControl {
        Control(move, crouching);
      }
      ghost var controlled := Snapshot();
      if grounded && jump {
        grounded := false;
        log := log + [JumpForce];
      }
      assert Snapshot() == JumpControl(controlled, jump);
      MoveKeepsConsistent(s, Cfg(), move, crouch, jump, ceilingHit, restScaleX);
    }

    /** The steering part of Move: the crouch handling, a slowed crouched
        move, the target velocity, and turning to face the move. */
    method Control(move: real, crouching: bool)
      requires Valid()
      modifies this, crouchDisableCollider
      ensures Valid()
      ensures Snapshot() == ControlledMove(old(Snapshot()), Cfg(), move, crouching)
    {
      var speed := move;
      UpdateCrouch(crouching);
      if crouching {
        // a crouched move is slowed down
        speed := speed * crouchSpeed;
      }
      ghost var crouched := Snapshot();
      targetVelocityX := speed * RunSpeed;
      ghost var moved := Snapshot();
      assert moved == crouched.(targetVelocityX := speed * RunSpeed);
      if speed > 0.0 && !facingRight {
        Flip();
      } else if speed < 0.0 && facingRight {
        Flip();
      }
      assert Snapshot() == FaceDirection(moved, speed);
    }

    /** The crouch handling of a controlled move: crouch events fire on
        changes only, and the crouch collider is off while crouching. */
    method UpdateCrouch(crouching: bool)
      requires Valid()
      modifies this, crouchDisableCollider
      ensures Valid()
      ensures Snapshot() == CrouchControl(old(Snapshot()), crouching)
    {
      if crouching {
        if !wasCrouching {
          wasCrouching := true;
          log := log + [CrouchChanged(true)];
        }
        if crouchDisableCollider != null {
          crouchDisableCollider.enabled := false;
        }
      } else {
        if crouchDisableCollider != null {
          crouchDisableCollider.enabled := true;
        }
        if wasCrouching {
          wasCrouching := false;
          log := log + [CrouchChanged(false)];
        }
      }
      CrouchControlKeepsConsistent(old(Snapshot()), Cfg(), crouching, targetVelocityX, restScaleX);
    }

    /** Turning around: facing toggles and the transform is mirrored. */
    method Flip()
      requires Valid()
      modifies this
      ensures Valid()
      ensures Snapshot() == Flipped(old(Snapshot()))
    {
      FlipKeepsConsistent(Snapshot(), Cfg(), restScaleX);
      facingRight := !facingRight;
      var theScale := scaleX;
      theScale := -theScale;
      scaleX := theScale;
    }
  }
}
