/** `Camera` (src/app/core/engine/class/Camera.ts): per-frame velocity integration with
    clamping and damping, the yaw projection of the velocity onto the ground plane,
    mouse-look, and the view matrix with its inverse. Whether the pointer is locked is a
    parameter, `Math`'s trigonometry is the `trig` the camera is built with, and the
    promise wrapper of `move` is left out, so `move` runs to completion. */
module EngineCamera {
  import opened Wrappers
  import opened Numeric
  import opened Vectors
  import opened Matrix4
  import opened CofactorInverse
  import opened Transforms
  import opened KeyControls

  /** `maxSpeed` and `acceleration`. */
  const MaxSpeed: real := 800.0
  const Acceleration: real := 100.0

  /** The `Movements` record: each flag is 1 or 0. */
  datatype Movements = Movements(forward: real, back: real, left: real, right: real, up: real, down: real)

  function Flag(b: bool): real { if b then 1.0 else 0.0 }

  /** The movement record `move` reads off the pressed keys (a missing flag counts as up). */
  function MovementOf(pressed: map<ControlKey, bool>): Movements {
    var held := (k: ControlKey) => k in pressed && pressed[k];
    Movements(Flag(held(Forward)), Flag(held(Back)), Flag(held(Left)), Flag(held(Right)), Flag(held(Up)), Flag(held(Down)))
  }

  predicate Binary(m: Movements) {
    m.forward in {0.0, 1.0} && m.back in {0.0, 1.0} && m.left in {0.0, 1.0} &&
    m.right in {0.0, 1.0} && m.up in {0.0, 1.0} && m.down in {0.0, 1.0}
  }

  /** `m ? 1 : 0.95`: a direction without input is damped. */
  function Damping(m: real): real { if m != 0.0 then 1.0 else 0.95 }

  /** The new velocity of `setAccelerationVector(movement, time)`, `time` in seconds. */
  function AccelerationStep(v: Vec3, movement: Movements, time: real): Vec3 {
    var accFactor := Acceleration * (time / 10.0);
    var mx := movement.back - movement.forward;
    var my := movement.right - movement.left;
    var mz := movement.up - movement.down;
    Vec3(Clamp(v.x + mx * accFactor, MaxSpeed * -1.0, MaxSpeed) * Damping(mx),
         Clamp(v.y + my * accFactor, MaxSpeed * -1.0, MaxSpeed) * Damping(my),
         Clamp(v.z + mz * MaxSpeed * 1000.0, MaxSpeed * -1.0 * 2.0, MaxSpeed * 2.0))
  }

  /** `getSideMovementValue(acc)`. */
  function SideMovement(trig: Trig, yaw: real, acc: Vec3): real {
    trig.cos(yaw) * acc.y + trig.sin(yaw) * (acc.x * -1.0)
  }

  /** `getForwardMovementValue(acc)`. */
  function ForwardMovement(trig: Trig, yaw: real, acc: Vec3): real {
    trig.cos(yaw) * acc.x + trig.sin(yaw) * acc.y
  }

  /** What `move` adds to the position: the velocity turned by the yaw on the ground
      plane, and the raw up/down flags vertically. */
  function Step(trig: Trig, yaw: real, acc: Vec3, movement: Movements): Vec3 {
    Vec3(SideMovement(trig, yaw, acc), movement.up - movement.down, ForwardMovement(trig, yaw, acc))
  }

  /** `updateView()`: `Translation(position).multiply(RotY(rotationReset(yaw)))
      .multiply(RotX(clamp(pitch, -π/2, π/2)))`. */
  function ViewMatrix(trig: Trig, position: Vec3, rotation: Vec3): Mat4 {
    Multiply(Multiply(Translation(position), RotationY(trig, WrapAngle(rotation.y))),
             RotationX(trig, Clamp(rotation.x, -Pi / 2.0, Pi / 2.0)))
  }

  class Camera {
    const trig: Trig
    var fov: real
    var position: Vec3
    var rotation: Vec3
    var view: Mat4
    var accelerationVector: Vec3
    const controls: Controls

    /** `new Camera(fov, position, canvas)`: no rotation, no velocity, the identity view
        and fresh AZERTY controls with every key up. */
    constructor (trig: Trig, fov: real, position: Vec3)
      ensures this.trig == trig && this.fov == fov && this.position == position
      ensures rotation == Vec3(0.0, 0.0, 0.0) && accelerationVector == Vec3(0.0, 0.0, 0.0)
      ensures view == Identity()
      ensures fresh(controls) && controls.keymap == AzertyKeyMap
      ensures controls.pressedKeys.Keys == AllKeys && forall k :: k in controls.pressedKeys ==> !controls.pressedKeys[k]
    {
      this.trig := trig;
      this.fov := fov;
      this.position := position;
      rotation := Vec3(0.0, 0.0, 0.0);
      view := Identity();
      accelerationVector := Vec3(0.0, 0.0, 0.0);
      controls := new Controls();
    }

    /** `updateView()`. */
    method UpdateView()
      modifies this
      ensures position == old(position) && rotation == old(rotation) && accelerationVector == old(accelerationVector)
      ensures view == ViewMatrix(trig, position, rotation)
    {
      var yaw := RotationReset(rotation.y);
      var pitch := Clamp(rotation.x, -Pi / 2.0, Pi / 2.0);
      view := Multiply(Multiply(Translation(position), RotationY(trig, yaw)), RotationX(trig, pitch));
    }

    /** `getCameraMatrix()`: refreshes `view` and returns `inverse2` of it, which undoes it
        whenever its determinant is not zero (JavaScript would return infinities or NaN
        otherwise). */
    method GetCameraMatrix() returns (r: Option<Mat4>)
      modifies this
      ensures position == old(position) && rotation == old(rotation) && accelerationVector == old(accelerationVector)
      ensures view == ViewMatrix(trig, position, rotation)
      ensures r == Inverse2(view)
      ensures r.Some? <==> Det(view) != 0.0
      ensures r.Some? ==> Product(view, r.value) == Identity()
    {
      UpdateView();
      r := Inverse2(view);
      if r.Some? {
        Inverse2IsRightInverse(view);
      }
    }

    /** `setAccelerationVector(movement, time)`: the new velocity, also returned. */
    method SetAccelerationVector(movement: Movements, time: real) returns (r: Vec3)
      modifies this
      ensures position == old(position) && rotation == old(rotation) && view == old(view)
      ensures accelerationVector == AccelerationStep(old(accelerationVector), movement, time)
      ensures r == accelerationVector
    {
      var (x, y, z) := (accelerationVector.x, accelerationVector.y, accelerationVector.z);
      var accFactor := Acceleration * (time / 10.0);
      var mx := movement.back - movement.forward;
      var my := movement.right - movement.left;
      var mz := movement.up - movement.down;
      accelerationVector := Vec3(
        Clamp(x + mx * accFactor, MaxSpeed * -1.0, MaxSpeed) * (if mx != 0.0 then 1.0 else 0.95),
        Clamp(y + my * accFactor, MaxSpeed * -1.0, MaxSpeed) * (if my != 0.0 then 1.0 else 0.95),
        Clamp(z + mz * MaxSpeed * 1000.0, MaxSpeed * -1.0 * 2.0, MaxSpeed * 2.0));
      r := accelerationVector;
    }

    /** `move(time)`, `time` in milliseconds: only while the pointer is locked, the velocity
        is integrated from the pressed keys and the position moved by the step. */
    method Move(time: real, pointerLocked: bool)
      modifies this
      ensures rotation == old(rotation) && view == old(view)
      ensures !pointerLocked ==> position == old(position) && accelerationVector == old(accelerationVector)
      ensures pointerLocked ==>
                var movement := MovementOf(controls.pressedKeys);
                accelerationVector == AccelerationStep(old(accelerationVector), movement, time / 1000.0) &&
                position == Plus(old(position), Step(trig, rotation.y, accelerationVector, movement))
    {
      if pointerLocked {
        var movement := MovementOf(controls.pressedKeys);
        var accel := SetAccelerationVector(movement, time / 1000.0);
        position := Plus(position, Vec3(SideMovement(trig, rotation.y, accel), movement.up - movement.down,
                                        ForwardMovement(trig, rotation.y, accel)));
      }
    }

    /** The `mousemove` handler: only while the pointer is locked, pitch grows by the
        vertical and yaw by the horizontal movement, in degrees. */
    method MouseMove(movementX: real, movementY: real, pointerLocked: bool)
      modifies this
      ensures position == old(position) && view == old(view) && accelerationVector == old(accelerationVector)
      ensures rotation == if pointerLocked then Plus(old(rotation), Vec3(movementY * Pi / 180.0, movementX * Pi / 180.0, 0.0))
                          else old(rotation)
    {
      if pointerLocked {
        rotation := Plus(rotation, Vec3(movementY * Pi / 180.0, movementX * Pi / 180.0, 0.0));
      }
    }
  }

  /** The key flags give a binary movement record, so each direction is -1, 0 or 1. */
  lemma MovementIsBinary(pressed: map<ControlKey, bool>)
    ensures Binary(MovementOf(pressed))
    ensures var m := MovementOf(pressed);
            m.back - m.forward in {-1.0, 0.0, 1.0} && m.right - m.left in {-1.0, 0.0, 1.0} && m.up - m.down in {-1.0, 0.0, 1.0}
  {
  }

  /** The horizontal speed never exceeds `maxSpeed` and the vertical one `2·maxSpeed`. */
  lemma AccelerationBounded(v: Vec3, movement: Movements, time: real)
    ensures var r := AccelerationStep(v, movement, time);
            Abs(r.x) <= MaxSpeed && Abs(r.y) <= MaxSpeed && Abs(r.z) <= 2.0 * MaxSpeed
  {
    var mx := movement.back - movement.forward;
    var my := movement.right - movement.left;
    var cx := Clamp(v.x + mx * (Acceleration * (time / 10.0)), MaxSpeed * -1.0, MaxSpeed);
    var cy := Clamp(v.y + my * (Acceleration * (time / 10.0)), MaxSpeed * -1.0, MaxSpeed);
    DampingShrinks(cx, Damping(mx));
    DampingShrinks(cy, Damping(my));
  }

  lemma DampingShrinks(c: real, d: real)
    requires -MaxSpeed <= c <= MaxSpeed && 0.0 <= d <= 1.0
    ensures Abs(c * d) <= MaxSpeed
  {
    if c >= 0.0 {
      assert c * d <= c * 1.0;
    } else {
      assert c * d >= c * 1.0;
    }
  }

  /** With no input on a horizontal axis and a speed within the limit, the speed decays by
      exactly 5%; the vertical speed is never damped, only clamped. */
  lemma AccelerationWithoutInput(v: Vec3, time: real)
    requires Abs(v.x) <= MaxSpeed && Abs(v.y) <= MaxSpeed
    ensures var r := AccelerationStep(v, Movements(0.0, 0.0, 0.0, 0.0, 0.0, 0.0), time);
            r.x == 0.95 * v.x && r.y == 0.95 * v.y && r.z == Clamp(v.z, -2.0 * MaxSpeed, 2.0 * MaxSpeed)
  {
  }

  /** Holding up or down drives the vertical speed straight to its limit. */
  lemma VerticalInputSaturates(v: Vec3, movement: Movements, time: real)
    requires Abs(v.z) <= 2.0 * MaxSpeed && movement.up - movement.down in {-1.0, 1.0}
    ensures AccelerationStep(v, movement, time).z == (movement.up - movement.down) * 2.0 * MaxSpeed
  {
  }

  /** The ground-plane step is the velocity turned by the yaw: its length is the
      horizontal speed wherever `sin² + cos² = 1`. */
  lemma StepKeepsSpeed(trig: Trig, yaw: real, acc: Vec3, movement: Movements)
    requires Pythagorean(trig, yaw)
    ensures var s := Step(trig, yaw, acc, movement);
            s.x * s.x + s.z * s.z == acc.x * acc.x + acc.y * acc.y
  {
    var c, s := trig.cos(yaw), trig.sin(yaw);
    TurnKeepsLength(acc.x, acc.y, c, s);
    assert SideMovement(trig, yaw, acc) == acc.y * c - acc.x * s;
    assert ForwardMovement(trig, yaw, acc) == acc.x * c + acc.y * s;
  }

  /** Facing yaw 0 (`cos 0 = 1`, `sin 0 = 0`), `x` velocity moves along `z` and `y`
      velocity along `x`. */
  lemma StepAtZeroYaw(trig: Trig, acc: Vec3, movement: Movements)
    requires ZeroAngle(trig)
    ensures Step(trig, 0.0, acc, movement) == Vec3(acc.y, movement.up - movement.down, acc.x)
  {
  }

  /** The view transforms a row vector by the pitch first, then the yaw, then the
      translation (the product `RX·RY·T`): it places the camera in the world, and
      `getCameraMatrix` returns the inverse, which maps the world into the camera. */
  lemma ViewAppliesPitchYawTranslation(trig: Trig, position: Vec3, rotation: Vec3, v: seq<real>)
    requires |v| == 4
    ensures var ry, rx := RotationY(trig, WrapAngle(rotation.y)), RotationX(trig, Clamp(rotation.x, -Pi / 2.0, Pi / 2.0));
            ViewMatrix(trig, position, rotation) == Product(rx, Product(ry, Translation(position))) &&
            Apply(v, ViewMatrix(trig, position, rotation)) == Apply(Apply(Apply(v, rx), ry), Translation(position))
  {
    var t := Translation(position);
    var ry, rx := RotationY(trig, WrapAngle(rotation.y)), RotationX(trig, Clamp(rotation.x, -Pi / 2.0, Pi / 2.0));
    MultiplyAppliesRightOperandFirst(Multiply(t, ry), rx, v);
    MultiplyAppliesRightOperandFirst(t, ry, Apply(v, rx));
  }

  /** A frame with the pointer locked and only `W` held moves the camera forward. */
  method ForwardScenario(trig: Trig)
    requires ZeroAngle(trig)
  {
    var camera := new Camera(trig, 1.0, Vec3(0.0, 0.0, 0.0));
    camera.controls.KeyDown("KeyW");
    assert AzertyKeyMap["KeyW"] == Forward;
    ForwardOnlyFrame(trig, camera.controls.pressedKeys);
    camera.Move(1000.0, true);
    assert camera.accelerationVector.x == -10.0;
    assert camera.position == Vec3(0.0, 0.0, -10.0);
  }

  /** One second with only the forward key held, from rest at yaw 0. */
  lemma ForwardOnlyFrame(trig: Trig, pressed: map<ControlKey, bool>)
    requires ZeroAngle(trig)
    requires Forward in pressed && pressed[Forward]
    requires forall k :: k in pressed && k != Forward ==> !pressed[k]
    ensures MovementOf(pressed) == Movements(1.0, 0.0, 0.0, 0.0, 0.0, 0.0)
    ensures AccelerationStep(Vec3(0.0, 0.0, 0.0), MovementOf(pressed), 1.0) == Vec3(-10.0, 0.0, 0.0)
    ensures Plus(Vec3(0.0, 0.0, 0.0), Step(trig, 0.0, Vec3(-10.0, 0.0, 0.0), MovementOf(pressed))) == Vec3(0.0, 0.0, -10.0)
  {
  }
}
