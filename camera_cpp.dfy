/** The out-of-line definitions of `camera.cpp`. Its constructors, mouse
    movement and scroll handling are the same as the inline ones of
    `camera.h` (module Camera); its `process_keyboard` is not: RIGHT
    subtracts the right vector and LEFT adds it, the opposite of the
    header's sign convention: RIGHT moves against the `right` basis vector. */
module CameraCpp {
  import opened Vectors
  import opened Camera

  /** `Camera::process_keyboard` of `camera.cpp`, as written: FORWARD and
      LEFT displace the camera by `velocity` along their axis, BACKWARD and
      RIGHT by `velocity` against it. */
  function KeyboardStepAsWritten(position: Vec3, front: Vec3, right: Vec3, direction: Movement, velocity: real): (r: Vec3)
    ensures direction == Forward || direction == Left ==>
      r.Minus(position) == Axis(direction, front, right).Scale(velocity)
    ensures direction == Backward || direction == Right ==>
      r.Minus(position) == Axis(direction, front, right).Scale(-velocity)
  {
    match direction
    case Forward => position.Plus(front.Scale(velocity))
    case Backward => position.Minus(front.Scale(velocity))
    case Right => position.Minus(right.Scale(velocity))
    case Left => position.Plus(right.Scale(velocity))
  }

  /** FORWARD and BACKWARD agree with the inline definition; RIGHT and LEFT
      are swapped. */
  lemma AsWrittenSwapsRightLeft(position: Vec3, front: Vec3, right: Vec3, direction: Movement, velocity: real)
    ensures direction == Forward || direction == Backward ==>
      KeyboardStepAsWritten(position, front, right, direction, velocity) == KeyboardStep(position, front, right, direction, velocity)
    ensures direction == Right ==>
      KeyboardStepAsWritten(position, front, right, Right, velocity) == KeyboardStep(position, front, right, Left, velocity)
    ensures direction == Left ==>
      KeyboardStepAsWritten(position, front, right, Left, velocity) == KeyboardStep(position, front, right, Right, velocity)
  {
  }

  /** Intended behaviour, proved of the model's `KeyboardStep`: RIGHT
      displaces the camera by `velocity` along its right vector, LEFT by
      `velocity` against it. */
  lemma RightMovesAlongRight(position: Vec3, front: Vec3, right: Vec3, velocity: real)
    ensures KeyboardStep(position, front, right, Right, velocity).Minus(position) == right.Scale(velocity)
    ensures KeyboardStep(position, front, right, Left, velocity).Minus(position) == right.Scale(-velocity)
  {
  }

  /** The discrepancy as written: in `camera.cpp`, RIGHT displaces the camera
      by `velocity` AGAINST its right vector, and LEFT along it. */
  lemma RightMovesAgainstRightAsWritten(position: Vec3, front: Vec3, right: Vec3, velocity: real)
    ensures KeyboardStepAsWritten(position, front, right, Right, velocity).Minus(position) == right.Scale(-velocity)
    ensures KeyboardStepAsWritten(position, front, right, Left, velocity).Minus(position) == right.Scale(velocity)
  {
  }

  /** A concrete input: the default camera looks down -Z with right = +X
      (what `update_camera_vectors` gives for yaw -90, pitch 0, world up +Y).
      Any positive velocity of RIGHT takes it from the origin toward -X,
      against `right`, where the inline definition takes it toward +X. */
  lemma RightExampleAsWritten(velocity: real)
    requires velocity > 0.0
    ensures KeyboardStepAsWritten(Zero, Vec3(0.0, 0.0, -1.0), Vec3(1.0, 0.0, 0.0), Right, velocity) == Vec3(-velocity, 0.0, 0.0)
    ensures KeyboardStep(Zero, Vec3(0.0, 0.0, -1.0), Vec3(1.0, 0.0, 0.0), Right, velocity) == Vec3(velocity, 0.0, 0.0)
  {
  }
}
