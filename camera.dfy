/** The fly-through camera of `camera.h`: Euler angles (yaw, pitch), a
    position moved by the keyboard, a zoom (field of view in degrees) changed
    by the scroll wheel, and the basis vectors derived from the angles.

    Deriving the basis (`update_camera_vectors`: trigonometry and
    normalisation on floats) is not modelled; the camera is given that
    derivation as a function `orient` when it is built, and the model keeps
    track of WHEN it is re-run and on WHICH angles. */
module Camera {
  import opened Vectors

  /** `Camera_Movement`: the four directions a key can move the camera in. */
  datatype Movement = Forward | Backward | Right | Left

  // Defaults (`Yaw`, `Pitch`, `Speed`, `Sensitivity`, `Zoom`)
  const Yaw: real := -90.0
  const Pitch: real := 0.0
  const Speed: real := 2.5
  const Sensitivity: real := 0.1
  const Zoom: real := 45.0

  // Limits used by the clamps
  const MaxPitch: real := 89.0
  const MinZoom: real := 1.0
  const MaxZoom: real := 45.0

  /** The front, right and up vectors that `update_camera_vectors` derives. */
  datatype Basis = Basis(front: Vec3, right: Vec3, up: Vec3)

  /** What `update_camera_vectors` computes from yaw, pitch and the world up vector. */
  type Orientation = (real, real, Vec3) -> Basis

  /** The basis vector a movement goes along. */
  function Axis(direction: Movement, front: Vec3, right: Vec3): Vec3 {
    if direction == Forward || direction == Backward then front else right
  }

  /** Whether a movement goes with (+1) or against (-1) its axis. */
  function Sign(direction: Movement): real {
    if direction == Forward || direction == Right then 1.0 else -1.0
  }

  /** The length of one keyboard move: the speed times the frame time. */
  function Velocity(movementSpeed: real, deltaTime: real): real {
    movementSpeed * deltaTime
  }

  /** Position after one keyboard move of the given velocity
      (`movementSpeed * deltaTime`), with the sign convention of `camera.h`:
      FORWARD and RIGHT go along `front` and `right`, BACKWARD and LEFT against. */
  function KeyboardStep(position: Vec3, front: Vec3, right: Vec3, direction: Movement, velocity: real): Vec3 {
    match direction
    case Forward => position.Plus(front.Scale(velocity))
    case Backward => position.Minus(front.Scale(velocity))
    case Right => position.Plus(right.Scale(velocity))
    case Left => position.Minus(right.Scale(velocity))
  }

  /** Every move displaces the camera by `velocity` along its axis, with the
      movement's sign. */
  lemma KeyboardStepAlongAxis(position: Vec3, front: Vec3, right: Vec3, direction: Movement, velocity: real)
    ensures KeyboardStep(position, front, right, direction, velocity) ==
      position.Plus(Axis(direction, front, right).Scale(Sign(direction) * velocity))
  {
  }

  /** Pitch after a mouse move whose scaled vertical offset is `delta`. With
      the constraint on, the result is `pitch + delta` clamped to
      [-MaxPitch, MaxPitch]; without it, `pitch + delta` whatever it is. */
  function PitchAfter(pitch: real, delta: real, constrainPitch: bool): (r: real)
    ensures constrainPitch ==> -MaxPitch <= r <= MaxPitch
    ensures !constrainPitch || -MaxPitch <= pitch + delta <= MaxPitch ==> r == pitch + delta
    ensures constrainPitch && pitch + delta > MaxPitch ==> r == MaxPitch
    ensures constrainPitch && pitch + delta < -MaxPitch ==> r == -MaxPitch
  {
    var p := pitch + delta;
    if !constrainPitch then p
    else if p > MaxPitch then MaxPitch
    else if p < -MaxPitch then -MaxPitch
    else p
  }

  /** Zoom after a scroll of `yOffset`: `zoom - yOffset`, clamped to
      [MinZoom, MaxZoom]. */
  function ZoomAfterScroll(zoom: real, yOffset: real): (r: real)
    ensures MinZoom <= r <= MaxZoom
    ensures MinZoom <= zoom - yOffset <= MaxZoom ==> r == zoom - yOffset
    ensures zoom - yOffset < MinZoom ==> r == MinZoom
    ensures zoom - yOffset > MaxZoom ==> r == MaxZoom
  {
    var z := zoom - yOffset;
    if z < MinZoom then MinZoom
    else if z > MaxZoom then MaxZoom
    else z
  }

  /** Scrolling is monotone on a valid zoom: scrolling up (a non-negative
      offset) never widens the view, scrolling down never narrows it. */
  lemma ScrollMonotone(zoom: real, yOffset: real)
    requires MinZoom <= zoom <= MaxZoom
    ensures yOffset >= 0.0 ==> ZoomAfterScroll(zoom, yOffset) <= zoom
    ensures yOffset <= 0.0 ==> ZoomAfterScroll(zoom, yOffset) >= zoom
  {
  }

  /** A move and the opposite move with the same velocity cancel out:
      FORWARD then BACKWARD, and RIGHT then LEFT, restore the position. */
  lemma OppositeMovesCancel(position: Vec3, front: Vec3, right: Vec3, velocity: real)
    ensures KeyboardStep(KeyboardStep(position, front, right, Forward, velocity), front, right, Backward, velocity) == position
    ensures KeyboardStep(KeyboardStep(position, front, right, Backward, velocity), front, right, Forward, velocity) == position
    ensures KeyboardStep(KeyboardStep(position, front, right, Right, velocity), front, right, Left, velocity) == position
    ensures KeyboardStep(KeyboardStep(position, front, right, Left, velocity), front, right, Right, velocity) == position
  {
    PlusMinusCancel(position, front.Scale(velocity));
    PlusMinusCancel(position, right.Scale(velocity));
  }

  /** A frame with no elapsed time does not move the camera, whatever the key. */
  lemma ZeroDeltaTimeStill(position: Vec3, front: Vec3, right: Vec3, direction: Movement, movementSpeed: real)
    ensures KeyboardStep(position, front, right, direction, Velocity(movementSpeed, 0.0)) == position
  {
    ScaleZero(position, Axis(direction, front, right));
  }

  /** The camera (`class Camera` of `camera.h`). */
  class Camera {
    var position: Vec3
    var front: Vec3
    var up: Vec3
    var right: Vec3
    var worldUp: Vec3

    var yaw: real
    var pitch: real

    var movementSpeed: real
    var mouseSensitivity: real
    var zoom: real

    /** `update_camera_vectors`, supplied from outside. */
    const orient: Orientation

    /** The zoom is within its clamp range, and the basis vectors are the ones
        derived from the current angles. */
    ghost predicate Valid()
      reads this`zoom, this`front, this`right, this`up, this`yaw, this`pitch, this`worldUp
    {
      MinZoom <= zoom <= MaxZoom &&
      Basis(front, right, up) == orient(yaw, pitch, worldUp)
    }

    /** Constructor with scalars. The angle arguments (defaulting to `Yaw`
        and `Pitch`) are accepted and ignored: yaw and pitch always start at
        the defaults `Yaw` and `Pitch`. `orient` comes first because it has
        no default. */
    constructor FromScalars(orient: Orientation, posX: real, posY: real, posZ: real, upX: real, upY: real, upZ: real,
                            yawArg: real := Yaw, pitchArg: real := Pitch)
      ensures Valid()
      ensures position == Vec3(posX, posY, posZ) && worldUp == Vec3(upX, upY, upZ)
      ensures yaw == Yaw && pitch == Pitch
      ensures movementSpeed == Speed && mouseSensitivity == Sensitivity && zoom == Zoom
      ensures this.orient == orient
    {
      front := Vec3(0.0, 0.0, -1.0);
      movementSpeed := Speed;
      mouseSensitivity := Sensitivity;
      zoom := Zoom;
      position := Vec3(posX, posY, posZ);
      worldUp := Vec3(upX, upY, upZ);
      yaw := Yaw;
      pitch := Pitch;
      this.orient := orient;
      new;
      UpdateCameraVectors();
    }

    /** Constructor with vectors, with the same defaults as the header: the
        origin, world up +Y, and the default angles. As above, the angle
        arguments are ignored. */
    constructor (orient: Orientation, position: Vec3 := Zero, up: Vec3 := Vec3(0.0, 1.0, 0.0),
                 yawArg: real := Yaw, pitchArg: real := Pitch)
      ensures Valid()
      ensures this.position == position && worldUp == up
      ensures yaw == Yaw && pitch == Pitch
      ensures movementSpeed == Speed && mouseSensitivity == Sensitivity && zoom == Zoom
      ensures this.orient == orient
    {
      front := Vec3(0.0, 0.0, -1.0);
      movementSpeed := Speed;
      mouseSensitivity := Sensitivity;
      zoom := Zoom;
      this.position := position;
      worldUp := up;
      yaw := Yaw;
      pitch := Pitch;
      this.orient := orient;
      new;
      UpdateCameraVectors();
    }

    /** Moves the camera one step in `direction`; only the position changes. */
    method ProcessKeyboard(direction: Movement, deltaTime: real)
      modifies this`position
      ensures position == KeyboardStep(old(position), front, right, direction, Velocity(movementSpeed, deltaTime))
      ensures front == old(front) && right == old(right) && movementSpeed == old(movementSpeed)
    {
      var velocity := Velocity(movementSpeed, deltaTime);
      if direction == Forward {
        position := position.Plus(front.Scale(velocity));
      }
      if direction == Backward {
        position := position.Minus(front.Scale(velocity));
      }
      if direction == Right {
        position := position.Plus(right.Scale(velocity));
      }
      if direction == Left {
        position := position.Minus(right.Scale(velocity));
      }
    }

    /** Turns the camera: yaw grows by the scaled horizontal offset without
        any bound, pitch by the scaled vertical offset, clamped when
        `constrainPitch` holds (the default); the basis is then re-derived. */
    method ProcessMouseMovement(xOffset: real, yOffset: real, constrainPitch: bool := true)
      requires Valid()
      modifies this`yaw, this`pitch, this`front, this`right, this`up
      ensures Valid()
      ensures yaw == old(yaw) + xOffset * mouseSensitivity
      ensures pitch == PitchAfter(old(pitch), yOffset * mouseSensitivity, constrainPitch)
    {
      var dx := xOffset * mouseSensitivity;
      var dy := yOffset * mouseSensitivity;

      yaw := yaw + dx;
      pitch := pitch + dy;

      if constrainPitch {
        if pitch > MaxPitch {
          pitch := MaxPitch;
        }
        if pitch < -MaxPitch {
          pitch := -MaxPitch;
        }
      }

      UpdateCameraVectors();
    }

    /** Zooms: only the zoom changes, and it stays within [MinZoom, MaxZoom]. */
    method ProcessMouseScroll(yOffset: real)
      requires Valid()
      modifies this`zoom
      ensures Valid()
      ensures zoom == ZoomAfterScroll(old(zoom), yOffset)
    {
      zoom := zoom - yOffset;
      if zoom < MinZoom {
        zoom := MinZoom;
      }
      if zoom > MaxZoom {
        zoom := MaxZoom;
      }
    }

    /** Re-derives the basis vectors from the current angles. */
    method UpdateCameraVectors()
      modifies this`front, this`right, this`up
      ensures Basis(front, right, up) == orient(yaw, pitch, worldUp)
    {
      var b := orient(yaw, pitch, worldUp);
      front := b.front;
      right := b.right;
      up := b.up;
    }
  }
}
