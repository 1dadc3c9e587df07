/**
 * The per-frame state of the player controller and the three systems that
 * drive it: `reset_movement_input` (before the frame's input systems),
 * `handle_movement_input` (key accumulation and the jump edge) and
 * `handle_movement_physics` (smoothing, the horizontal correction, the ground
 * probe and the jump impulse).
 */
module PlayerControl {
  import opened Wrappers
  import opened Glam
  import opened BevyInput
  import opened Ecs
  import opened Rapier
  import opened GroundProbe
  import opened GameCore

  const MaxSpeed: real := 5.0
  const Accel: real := 50.0
  const MaxAccelForce: real := 10.0
  /** Magnitude of the upward impulse of a jump. */
  const JumpImpulse: real := 100.0
  /** Radius of the sphere cast downwards to find the ground. */
  const ProbeRadius: real := 0.45
  /** How far the ground probe is cast. */
  const ProbeMaxToi: real := 1.0
  /** Limits of the camera pitch, in radians. */
  const PitchLimit: real := 1.54

  /** `PlayerController`, the component that carries the controller's state between systems and frames. */
  class PlayerController {
    var movementDirection: Vec3
    var jumping: bool
    var lastTargetVelocity: Vec3
    var cameraRotation: Quat

    /** `PlayerController::default()`. */
    constructor ()
      ensures movementDirection == Zero && !jumping
      ensures lastTargetVelocity == Zero && cameraRotation == Identity
    {
      movementDirection := Zero;
      jumping := false;
      lastTargetVelocity := Zero;
      cameraRotation := Identity;
    }
  }

  /** Rapier's `ExternalImpulse` component of the player body. */
  class ExternalImpulse {
    var impulse: Vec3
    var torqueImpulse: Vec3

    constructor ()
      ensures impulse == Zero && torqueImpulse == Zero
    {
      impulse := Zero;
      torqueImpulse := Zero;
    }
  }

  /** The camera's horizontal forward and right unit vectors. */
  datatype Basis = Basis(forward: Vec3, right: Vec3)

  /** The number of times one key pair moves along its axis: +1, -1, or 0 when both or neither are held. */
  function AxisCoefficient(input: Input<KeyCode>, plus: KeyCode, minus: KeyCode): (c: int)
    ensures -1 <= c <= 1
    ensures c == 1 <==> plus in input.pressed && minus !in input.pressed
    ensures c == -1 <==> minus in input.pressed && plus !in input.pressed
  {
    (if plus in input.pressed then 1 else 0) - (if minus in input.pressed then 1 else 0)
  }

  /** `c` times `v` for a coefficient `c` of -1, 0 or 1. */
  function Times(c: int, v: Vec3): Vec3
    requires -1 <= c <= 1
  {
    if c == 1 then v else if c == -1 then Neg(v) else Zero
  }

  /**
   * The movement intent one frame of held keys contributes: forward for W,
   * minus forward for S, right for D and minus right for A, not normalised;
   * nothing without a camera.
   */
  function InputDirection(camera: Option<Basis>, input: Input<KeyCode>): Vec3 {
    match camera
    case None => Zero
    case Some(b) => Add(Sub(IfHeld(input, W, b.forward), IfHeld(input, S, b.forward)),
                        Sub(IfHeld(input, D, b.right), IfHeld(input, A, b.right)))
  }

  /** `v` when key `k` is held, otherwise the zero vector. */
  function IfHeld(input: Input<KeyCode>, k: KeyCode, v: Vec3): Vec3 {
    if k in input.pressed then v else Zero
  }

  lemma AxisTimes(input: Input<KeyCode>, plus: KeyCode, minus: KeyCode, v: Vec3)
    ensures Times(AxisCoefficient(input, plus, minus), v) == Sub(IfHeld(input, plus, v), IfHeld(input, minus, v))
  {
  }

  /**
   * The movement intent in axis form: `[W]-[S]` times forward plus `[D]-[A]`
   * times right, so a pair of opposite keys held together cancels.
   */
  lemma InputDirectionAxes(camera: Option<Basis>, input: Input<KeyCode>)
    requires camera.Some?
    ensures InputDirection(camera, input) ==
      Add(Times(AxisCoefficient(input, W, S), camera.value.forward), Times(AxisCoefficient(input, D, A), camera.value.right))
  {
    AxisTimes(input, W, S, camera.value.forward);
    AxisTimes(input, D, A, camera.value.right);
  }

  /** The four conditional updates of `handle_movement_input` add up to `InputDirection`. */
  lemma DirectionUpdates(start: Vec3, camera: Option<Basis>, input: Input<KeyCode>, forward: Vec3, right: Vec3)
    requires camera.None? ==> forward == Zero && right == Zero
    requires camera.Some? ==> forward == camera.value.forward && right == camera.value.right
    ensures Sub(Add(Sub(Add(start, IfHeld(input, W, forward)), IfHeld(input, S, forward)), IfHeld(input, D, right)),
                IfHeld(input, A, right))
         == Add(start, InputDirection(camera, input))
  {
    if camera.None? {
      assert IfHeld(input, W, forward) == IfHeld(input, S, forward) == Zero;
      assert IfHeld(input, D, right) == IfHeld(input, A, right) == Zero;
    } else {
      AddSubRegroup(start, IfHeld(input, W, forward), IfHeld(input, S, forward), IfHeld(input, D, right), IfHeld(input, A, right));
    }
  }

  /** `reset_movement_input`: clears the frame's movement intent and jump request. */
  method ResetMovementInput(controller: PlayerController)
    modifies controller
    ensures controller.movementDirection == Zero && !controller.jumping
    ensures controller.lastTargetVelocity == old(controller.lastTargetVelocity)
    ensures controller.cameraRotation == old(controller.cameraRotation)
  {
    controller.movementDirection := Zero;
    controller.jumping := false;
  }

  /**
   * The key loop of `handle_movement_input`: starting from `start`, forward is
   * added for W and taken away for S, right is added for D and taken away for A.
   */
  method AccumulateDirection(start: Vec3, input: Input<KeyCode>, forward: Vec3, right: Vec3) returns (direction: Vec3)
    ensures direction == Sub(Add(Sub(Add(start, IfHeld(input, W, forward)), IfHeld(input, S, forward)),
                                 IfHeld(input, D, right)), IfHeld(input, A, right))
  {
    direction := start;
    if W in input.pressed {
      direction := Add(direction, forward);
    }
    if S in input.pressed {
      direction := Sub(direction, forward);
    }
    if D in input.pressed {
      direction := Add(direction, right);
    }
    if A in input.pressed {
      direction := Sub(direction, right);
    }
  }

  /**
   * `handle_movement_input`: adds the held direction keys to the movement
   * intent, and raises the jump request on a freshly pressed Space.
   */
  method HandleMovementInput(controller: PlayerController, camera: Option<Basis>, input: Input<KeyCode>)
    modifies controller
    ensures controller.movementDirection == Add(old(controller.movementDirection), InputDirection(camera, input))
    ensures controller.jumping == (old(controller.jumping) || Space in input.justPressed)
    ensures controller.lastTargetVelocity == old(controller.lastTargetVelocity)
    ensures controller.cameraRotation == old(controller.cameraRotation)
  {
    var forward, right := Zero, Zero;
    if camera.Some? {
      forward, right := camera.value.forward, camera.value.right;
    }
    var direction := AccumulateDirection(controller.movementDirection, input, forward, right);
    DirectionUpdates(controller.movementDirection, camera, input, forward, right);
    controller.movementDirection := direction;
    if Space in input.justPressed {
      controller.jumping := true;
    }
  }

  /**
   * The target velocity after smoothing: a step from last frame's target
   * towards `MaxSpeed` times the movement intent, by `min(Accel * dt, 1)`.
   */
  function SmoothedTarget(last: Vec3, direction: Vec3, dt: real): Vec3 {
    Lerp(last, Scale(direction, MaxSpeed), Min(Accel * dt, 1.0))
  }

  /**
   * The velocity correction applied each frame: the gap between the smoothed
   * target and the current velocity, capped at `MaxAccelForce`, with its
   * vertical component removed.
   */
  function HorizontalCorrection(smoothed: Vec3, linvel: Vec3, sqrt: real -> real): (r: Vec3)
    requires PositiveRoot(sqrt)
    ensures r.y == 0.0
    ensures LengthSquared(Sub(smoothed, linvel)) <= MaxAccelForce * MaxAccelForce ==>
      r == Vec3(smoothed.x - linvel.x, 0.0, smoothed.z - linvel.z)
  {
    WithY(ClampLengthMax(Sub(smoothed, linvel), MaxAccelForce, sqrt), 0.0)
  }

  /** The upward impulse of a jump. */
  const JumpVector: Vec3 := Scale(Up, JumpImpulse)

  /**
   * The ground probe's filter: `QueryFilter::new().exclude_sensors()` with
   * the predicate `collider != entity`.
   */
  function GroundFilter(entity: Entity): (f: QueryFilter)
    ensures forall ctx: RapierContext, e: Entity :: Admits(ctx, f, e) <==> e != entity && e !in ctx.sensors
  {
    NewFilter.(excludeSensors := true).(pred := Some((c: Entity) => c != entity))
  }

  /** The ground probe's shape: a ball of radius 0.45 at the body centre, cast straight down. */
  function GroundShape(global: Transform): ShapeDesc {
    ShapeDesc(global.translation, global.rotation, Neg(Up), Ball(ProbeRadius))
  }

  /**
   * `handle_movement_physics` for the player body `entity`: adds the
   * horizontal correction to the pending impulse, probes the ground, adds the
   * jump impulse when grounded and a jump was requested, and keeps the
   * smoothed target for the next frame.
   */
  method HandleMovementPhysics(entity: Entity, controller: PlayerController, global: Transform, linvel: Vec3,
                               impulse: ExternalImpulse, ctx: RapierContext, collisions: HitBuffer,
                               sqrt: real -> real)
    requires CastHonoursFilter(ctx) && PositiveRoot(sqrt)
    modifies controller, impulse, collisions
    ensures collisions.hits == Sweep(ctx, GroundShape(global), ProbeMaxToi, GroundFilter(entity), [])
    ensures forall i | 0 <= i < |collisions.hits| ::
      collisions.hits[i].entity != entity && collisions.hits[i].entity !in ctx.sensors
    ensures controller.lastTargetVelocity ==
      SmoothedTarget(old(controller.lastTargetVelocity), old(controller.movementDirection), ctx.dt)
    ensures impulse.impulse.x ==
      old(impulse.impulse.x) + HorizontalCorrection(controller.lastTargetVelocity, linvel, sqrt).x
    ensures impulse.impulse.z ==
      old(impulse.impulse.z) + HorizontalCorrection(controller.lastTargetVelocity, linvel, sqrt).z
    ensures impulse.impulse.y ==
      old(impulse.impulse.y) + if Grounded(collisions.hits) && old(controller.jumping) then JumpImpulse else 0.0
    ensures impulse.torqueImpulse == old(impulse.torqueImpulse)
    ensures controller.movementDirection == old(controller.movementDirection)
    ensures controller.jumping == old(controller.jumping)
    ensures controller.cameraRotation == old(controller.cameraRotation)
  {
    // The probe's shape only passes through to the cast: its definition is not needed here.
    hide GroundShape;
    var targetVelocity := SmoothedTarget(controller.lastTargetVelocity, controller.movementDirection, ctx.dt);
    var neededAccel := HorizontalCorrection(targetVelocity, linvel, sqrt);
    impulse.impulse := Add(impulse.impulse, neededAccel);

    var filter := GroundFilter(entity);
    Intersections(ctx, GroundShape(global), ProbeMaxToi, filter, collisions);
    var grounded := Grounded(collisions.hits);

    if grounded && controller.jumping {
      impulse.impulse := Add(impulse.impulse, JumpVector);
    }
    controller.lastTargetVelocity := targetVelocity;
  }

  /** `pitch.clamp(-1.54, 1.54)` in `handle_mouse`: keeps the camera short of looking straight up or down. */
  function ClampPitch(pitch: real): (r: real)
    ensures -PitchLimit <= r <= PitchLimit
    ensures -PitchLimit <= pitch <= PitchLimit ==> r == pitch
    ensures pitch < -PitchLimit ==> r == -PitchLimit
    ensures pitch > PitchLimit ==> r == PitchLimit
  {
    Clamp(pitch, -PitchLimit, PitchLimit)
  }

  /**
   * What `handle_mouse` does to the controller: each mouse event while a
   * primary window exists sets the camera rotation, so the rotation of the
   * frame's last event is the one kept. `look` is that rotation, absent when
   * there is no primary window or no mouse motion; computing it from the
   * events is orientation arithmetic this model leaves to the caller.
   */
  method HandleMouse(controller: PlayerController, look: Option<Quat>)
    modifies controller
    ensures controller.cameraRotation == if look.Some? then look.value else old(controller.cameraRotation)
    ensures controller.movementDirection == old(controller.movementDirection)
    ensures controller.jumping == old(controller.jumping)
    ensures controller.lastTargetVelocity == old(controller.lastTargetVelocity)
  {
    if look.Some? {
      controller.cameraRotation := look.value;
    }
  }

  /** `handle_other_input`: a freshly pressed Tab requests the menu. */
  method HandleOtherInput(input: Input<KeyCode>, next: NextState)
    modifies next
    ensures next.pending == if Tab in input.justPressed then Some(MenuOpen) else old(next.pending)
  {
    if Tab in input.justPressed {
      next.Set(MenuOpen);
    }
  }
}
