/** The input handling of the demo program: the global camera, the
    last cursor position with its "first event" flag, the frame timing that
    scales keyboard moves, and the three callbacks that forward keyboard,
    cursor and scroll input to the camera. Window creation, the render loop
    body and the GL calls it makes are not modelled. */
module Aurora {
  import opened Vectors
  import opened Camera

  /** `SCR_WIDTH`, `SCR_HEIGHT` */
  const ScreenWidth: real := 1280.0
  const ScreenHeight: real := 720.0

  /** The keys `processInput` polls. */
  datatype Key = Escape | W | S | A | D

  /** The offsets `mouse_callback` hands to the camera. On the first event
      the last position is first reset to the cursor, so both offsets are 0;
      afterwards they are the motion since the last event, with y inverted
      (screen y grows downward, pitch grows upward). */
  function CursorOffsets(firstMouse: bool, lastX: real, lastY: real, xPos: real, yPos: real): (r: (real, real))
    ensures firstMouse ==> r == (0.0, 0.0)
    ensures !firstMouse ==> r == (xPos - lastX, lastY - yPos)
  {
    var (fromX, fromY) := if firstMouse then (xPos, yPos) else (lastX, lastY);
    (xPos - fromX, fromY - yPos)
  }

  /** Offsets summed over a stream of cursor events, starting from the
      tracker state (`firstMouse`, `lastX`, `lastY`). */
  function TotalOffsets(firstMouse: bool, lastX: real, lastY: real, events: seq<(real, real)>): (real, real)
    decreases events
  {
    if events == [] then (0.0, 0.0)
    else
      var offset := CursorOffsets(firstMouse, lastX, lastY, events[0].0, events[0].1);
      var rest := TotalOffsets(false, events[0].0, events[0].1, events[1..]);
      (offset.0 + rest.0, offset.1 + rest.1)
  }

  /** The tracker neither loses nor invents motion: over any stream of events
      the offsets add up to the displacement from where tracking started (the
      first event when `firstMouse` holds, the last recorded position
      otherwise) to the last event, y inverted. */
  lemma {:induction false} OffsetsTelescope(firstMouse: bool, lastX: real, lastY: real, events: seq<(real, real)>)
    requires events != []
    decreases events
    ensures var from := if firstMouse then events[0] else (lastX, lastY);
      var to := events[|events| - 1];
      TotalOffsets(firstMouse, lastX, lastY, events) == (to.0 - from.0, from.1 - to.1)
  {
    if |events| > 1 {
      OffsetsTelescope(false, events[0].0, events[0].1, events[1..]);
    }
  }

  /** The movement a movement key stands for. */
  function KeyFor(m: Movement): Key {
    match m
    case Forward => W
    case Backward => S
    case Left => A
    case Right => D
  }

  /** The moves `processInput` makes for a set of pressed keys, in the order
      it polls them: W, S, A, D. */
  function KeyMoves(pressed: set<Key>): seq<Movement> {
    (if W in pressed then [Forward] else []) +
    (if S in pressed then [Backward] else []) +
    (if A in pressed then [Left] else []) +
    (if D in pressed then [Right] else [])
  }

  /** A move is made exactly when its key is pressed, and at most once. */
  lemma KeyMovesPressed(pressed: set<Key>)
    ensures forall m :: m in KeyMoves(pressed) <==> KeyFor(m) in pressed
    ensures forall i, j :: 0 <= i < j < |KeyMoves(pressed)| ==> KeyMoves(pressed)[i] != KeyMoves(pressed)[j]
  {
  }

  /** The position after making `moves` one after another. */
  function ApplyMoves(position: Vec3, front: Vec3, right: Vec3, velocity: real, moves: seq<Movement>): Vec3 {
    if moves == [] then position
    else
      KeyboardStep(ApplyMoves(position, front, right, velocity, moves[..|moves| - 1]),
                   front, right, moves[|moves| - 1], velocity)
  }

  /** Holding both keys of an opposite pair cancels it out: the position is
      the one the other keys alone give. */
  lemma OppositeKeysCancel(position: Vec3, front: Vec3, right: Vec3, velocity: real, pressed: set<Key>)
    ensures W in pressed && S in pressed ==>
      ApplyMoves(position, front, right, velocity, KeyMoves(pressed)) ==
      ApplyMoves(position, front, right, velocity, KeyMoves(pressed - {W, S}))
    ensures A in pressed && D in pressed ==>
      ApplyMoves(position, front, right, velocity, KeyMoves(pressed)) ==
      ApplyMoves(position, front, right, velocity, KeyMoves(pressed - {A, D}))
  {
    var ad := (if A in pressed then [Left] else []) + (if D in pressed then [Right] else []);
    if W in pressed && S in pressed {
      OppositeMovesCancel(position, front, right, velocity);
      assert KeyMoves(pressed) == [Forward, Backward] + ad;
      assert KeyMoves(pressed - {W, S}) == ad;
      ApplyMovesAfter(position, front, right, velocity, [Forward, Backward], ad);
      ApplyTwoMoves(position, front, right, velocity, Forward, Backward);
    }
    if A in pressed && D in pressed {
      var ws := (if W in pressed then [Forward] else []) + (if S in pressed then [Backward] else []);
      var p := ApplyMoves(position, front, right, velocity, ws);
      OppositeMovesCancel(p, front, right, velocity);
      assert KeyMoves(pressed) == ws + [Left, Right];
      assert KeyMoves(pressed - {A, D}) == ws;
      ApplyMovesAfter(position, front, right, velocity, ws, [Left, Right]);
      ApplyTwoMoves(p, front, right, velocity, Left, Right);
      assert ApplyMoves(position, front, right, velocity, ws + [Left, Right]) == p;
    }
  }

  /** Two moves, one after the other. */
  lemma ApplyTwoMoves(position: Vec3, front: Vec3, right: Vec3, velocity: real, m1: Movement, m2: Movement)
    ensures ApplyMoves(position, front, right, velocity, [m1, m2]) ==
      KeyboardStep(KeyboardStep(position, front, right, m1, velocity), front, right, m2, velocity)
  {
    ApplyMovesSnoc(position, front, right, velocity, [], m1);
    ApplyMovesSnoc(position, front, right, velocity, [m1], m2);
    assert [] + [m1] == [m1] && [m1] + [m2] == [m1, m2];
  }

  /** One more move is one more keyboard step. */
  lemma ApplyMovesSnoc(position: Vec3, front: Vec3, right: Vec3, velocity: real, moves: seq<Movement>, m: Movement)
    ensures ApplyMoves(position, front, right, velocity, moves + [m]) ==
      KeyboardStep(ApplyMoves(position, front, right, velocity, moves), front, right, m, velocity)
  {
    assert (moves + [m])[..|moves|] == moves;
  }

  /** Making the moves of `KeyMoves` is polling W, S, A and D in turn and
      stepping for each key that is pressed. */
  lemma KeyMovesInOrder(start: Vec3, front: Vec3, right: Vec3, velocity: real, pressed: set<Key>,
                        afterW: Vec3, afterS: Vec3, afterA: Vec3, afterD: Vec3)
    requires afterW == if W in pressed then KeyboardStep(start, front, right, Forward, velocity) else start
    requires afterS == if S in pressed then KeyboardStep(afterW, front, right, Backward, velocity) else afterW
    requires afterA == if A in pressed then KeyboardStep(afterS, front, right, Left, velocity) else afterS
    requires afterD == if D in pressed then KeyboardStep(afterA, front, right, Right, velocity) else afterA
    ensures afterD == ApplyMoves(start, front, right, velocity, KeyMoves(pressed))
  {
    var w := if W in pressed then [Forward] else [];
    var ws := w + (if S in pressed then [Backward] else []);
    var wsa := ws + (if A in pressed then [Left] else []);
    var wsad := wsa + (if D in pressed then [Right] else []);
    assert afterW == ApplyMoves(start, front, right, velocity, w) by {
      if W in pressed { ApplyMovesSnoc(start, front, right, velocity, [], Forward); }
    }
    assert afterS == ApplyMoves(start, front, right, velocity, ws) by {
      if S in pressed { ApplyMovesSnoc(start, front, right, velocity, w, Backward); } else { assert ws == w; }
    }
    assert afterA == ApplyMoves(start, front, right, velocity, wsa) by {
      if A in pressed { ApplyMovesSnoc(start, front, right, velocity, ws, Left); } else { assert wsa == ws; }
    }
    assert afterD == ApplyMoves(start, front, right, velocity, wsad) by {
      if D in pressed { ApplyMovesSnoc(start, front, right, velocity, wsa, Right); } else { assert wsad == wsa; }
    }
    assert wsad == KeyMoves(pressed);
  }

  /** Making `a` then `b` is making `b` from where `a` ended. */
  lemma {:induction false} ApplyMovesAfter(position: Vec3, front: Vec3, right: Vec3, velocity: real, a: seq<Movement>, b: seq<Movement>)
    ensures ApplyMoves(position, front, right, velocity, a + b) ==
            ApplyMoves(ApplyMoves(position, front, right, velocity, a), front, right, velocity, b)
  {
    if b == [] {
      assert a + b == a;
    } else {
      var b' := b[..|b| - 1];
      assert (a + b)[..|a + b| - 1] == a + b';
      ApplyMovesAfter(position, front, right, velocity, a, b');
    }
  }

  /** The program's global state as far as input goes. */
  class App {
    /** The global camera, placed at (0, 0, 3). */
    const camera: Camera
    var deltaTime: real
    var lastFrame: real
    var lastX: real
    var lastY: real
    var firstMouse: bool
    /** Whether the window has been asked to close. */
    var shouldClose: bool

    /** The camera is valid, its pitch stays within the clamp (every cursor
        event constrains it) and its speed and sensitivity keep their
        defaults (nothing assigns them). */
    ghost predicate Valid()
      reads camera`zoom, camera`front, camera`right, camera`up, camera`yaw, camera`pitch, camera`worldUp
      reads camera`movementSpeed, camera`mouseSensitivity
    {
      camera.Valid() &&
      -MaxPitch <= camera.pitch <= MaxPitch &&
      camera.movementSpeed == Speed && camera.mouseSensitivity == Sensitivity
    }

    /** The initial values of the globals; `orient` is the basis derivation
        handed to the camera. */
    constructor (orient: Orientation)
      ensures Valid()
      ensures camera.position == Vec3(0.0, 0.0, 3.0) && camera.worldUp == Vec3(0.0, 1.0, 0.0)
      ensures camera.yaw == Yaw && camera.pitch == Pitch && camera.zoom == Zoom
      ensures deltaTime == 0.0 && lastFrame == 0.0
      ensures lastX == ScreenWidth / 2.0 && lastY == ScreenHeight / 2.0 && firstMouse
      ensures !shouldClose
    {
      camera := new Camera(orient, Vec3(0.0, 0.0, 3.0));
      deltaTime := 0.0;
      lastFrame := 0.0;
      lastX := ScreenWidth / 2.0;
      lastY := ScreenHeight / 2.0;
      firstMouse := true;
      shouldClose := false;
    }

    /** The frame timing at the top of the render loop, with the clock
        reading as input. */
    method BeginFrame(currentFrame: real)
      modifies this`deltaTime, this`lastFrame
      ensures deltaTime == currentFrame - old(lastFrame)
      ensures lastFrame == currentFrame
    {
      deltaTime := currentFrame - lastFrame;
      lastFrame := currentFrame;
    }

    /** `processInput`: Escape asks the window to close; each pressed W, S, A,
        D key makes one keyboard move (FORWARD, BACKWARD, LEFT, RIGHT) scaled
        by the last frame time. Only the position moves. */
    method ProcessInput(pressed: set<Key>)
      requires Valid()
      modifies this`shouldClose, camera`position
      ensures Valid()
      ensures shouldClose == (old(shouldClose) || Escape in pressed)
      ensures camera.position ==
        ApplyMoves(old(camera.position), camera.front, camera.right, Velocity(camera.movementSpeed, deltaTime), KeyMoves(pressed))
    {
      if Escape in pressed {
        shouldClose := true;
      }
      ghost var start := camera.position;
      PollMoveKey(pressed, W, Forward);
      ghost var afterW := camera.position;
      PollMoveKey(pressed, S, Backward);
      ghost var afterS := camera.position;
      PollMoveKey(pressed, A, Left);
      ghost var afterA := camera.position;
      PollMoveKey(pressed, D, Right);
      KeyMovesInOrder(start, camera.front, camera.right, Velocity(camera.movementSpeed, deltaTime), pressed,
                      afterW, afterS, afterA, camera.position);
    }

    /** One line of `processInput`: when `key` is pressed, one keyboard move
        in `direction` scaled by the last frame time. */
    method PollMoveKey(pressed: set<Key>, key: Key, direction: Movement)
      modifies camera`position
      ensures camera.position ==
        if key in pressed then KeyboardStep(old(camera.position), camera.front, camera.right, direction, Velocity(camera.movementSpeed, deltaTime))
        else old(camera.position)
      ensures camera.front == old(camera.front) && camera.right == old(camera.right)
      ensures camera.movementSpeed == old(camera.movementSpeed)
    {
      if key in pressed {
        camera.ProcessKeyboard(direction, deltaTime);
      }
    }

    /** `mouse_callback`: records the cursor position and turns the camera by
        the offsets, with the pitch constrained. */
    method MouseCallback(xPos: real, yPos: real)
      requires Valid()
      modifies this`lastX, this`lastY, this`firstMouse
      modifies camera`yaw, camera`pitch, camera`front, camera`right, camera`up
      ensures Valid()
      ensures lastX == xPos && lastY == yPos && !firstMouse
      ensures var offset := CursorOffsets(old(firstMouse), old(lastX), old(lastY), xPos, yPos);
        camera.yaw == old(camera.yaw) + offset.0 * Sensitivity &&
        camera.pitch == PitchAfter(old(camera.pitch), offset.1 * Sensitivity, true)
    {
      if firstMouse {
        lastX := xPos;
        lastY := yPos;
        firstMouse := false;
      }

      var xOffset := xPos - lastX;
      var yOffset := lastY - yPos;
      lastX := xPos;
      lastY := yPos;

      camera.ProcessMouseMovement(xOffset, yOffset);
    }

    /** `scroll_callback`: only the vertical scroll offset is used. */
    method ScrollCallback(xOffset: real, yOffset: real)
      requires Valid()
      modifies camera`zoom
      ensures Valid()
      ensures camera.zoom == ZoomAfterScroll(old(camera.zoom), yOffset)
    {
      camera.ProcessMouseScroll(yOffset);
    }
  }
}
