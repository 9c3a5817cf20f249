# OpenGL_Sandbox input, camera, mesh and texture rules in Dafny

This project models the parts of the Aurora OpenGL sandbox that hold decisions rather than plain GL glue:

- the fly-through `Camera` (`headers/camera.h`, `camera.cpp`): keyboard moves along the basis vectors, mouse look with the pitch clamp, scroll zoom with the zoom clamp, and the constructor defaults;
- `Mesh::Draw` (`mesh.cpp`): texture `i` goes to texture unit `i`, and its sampler uniform is named `"material." + type + n`, where `n` counts separately for `texture_diffuse` and `texture_specular`;
- the helpers and callbacks of `Aurora.cpp`:
  - the channel-count → pixel-format choice and the format → wrap-mode choice of `loadTexture`;
  - the face loop of `loadCubemap`;
  - the cursor tracker of `mouse_callback` with its `first_mouse` reset;
  - the key dispatch of `processInput`;
  - `scroll_callback`;
  - the per-frame `deltaTime`.

GL calls have no result the program looks at. An operation's effect on the GL is therefore modelled as the list of `Gl.Command` values it issues, in order (`gl.dfy`). The enumerant values are those of the OpenGL 3.3 core profile. The six cube-map face targets are consecutive enumerants starting at `GL_TEXTURE_CUBE_MAP_POSITIVE_X`, in the order +X, -X, +Y, -Y, +Z, -Z.

Floats are modelled as reals. `glm::vec3` is `Vectors.Vec3`. `unsigned int` object names are `Gl.uint32`.

`update_camera_vectors` is trigonometry on floats. The camera is given it as a function `orient` from (yaw, pitch, world up) to the basis, and the class invariant `Camera.Camera.Valid` states that the stored basis is always `orient` of the current angles.

The class keeps the inline definitions of `headers/camera.h`; that is the header `Aurora.cpp` includes. `camera.cpp` repeats the same members out of line; since the header already defines them inline, the two files cannot be compiled together. Its constructors, mouse movement and scroll are identical to the header's, but its `process_keyboard` uses the opposite sign for RIGHT and LEFT: RIGHT moves against the `right` basis vector. That version is modelled separately in `camera_cpp.dfy` and is reported under Findings.

Files:

| file | module | contents |
|---|---|---|
| `gl.dfy` | `Gl` | GL enumerants, `uint32`, the `Command` trace |
| `vectors.dfy` | `Vectors` | `Vec3` arithmetic |
| `decimal.dfy` | `Decimal` | `std::to_string` on counters, with its read-back |
| `camera.dfy` | `Camera` | `Camera_Movement`, defaults, step and clamp functions, `class Camera` |
| `camera_cpp.dfy` | `CameraCpp` | `camera.cpp`'s keyboard step as written |
| `mesh.dfy` | `Mesh` | `Vertex`, `Texture`, the sampler naming rule, `class Mesh` |
| `textures.dfy` | `Textures` | `loadTexture`, `loadCubemap` |
| `aurora.dfy` | `Aurora` | the globals of `Aurora.cpp` as `class App`, with its callbacks |

## Model

| member | source | states |
|---|---|---|
| Camera.Camera.FromScalars | headers/camera.h:39-46 | position and world up are the given scalars. yaw = -90, pitch = 0, speed = 2.5, sensitivity = 0.1 and zoom = 45, whatever angle arguments are passed. The basis is derived from those angles (Valid). |
| Camera.Camera.constructor | headers/camera.h:49-56 | the same for the vector constructor, whose defaults are the origin, world up +Y and the default angles |
| Camera.Camera.ProcessKeyboard | headers/camera.h:63-78 | only `position` changes (the modifies frame). The new position is one signed step of `movementSpeed * deltaTime` along `front` (FORWARD/BACKWARD) or `right` (RIGHT/LEFT). |
| Camera.KeyboardStepAlongAxis | headers/camera.h:63-77 | `KeyboardStep`, the step `process_keyboard` takes: each of the four movements displaces the position by exactly one basis vector times ±velocity: + for FORWARD and RIGHT, - for BACKWARD and LEFT |
| Camera.OppositeMovesCancel | headers/camera.h:66-77 | FORWARD then BACKWARD, BACKWARD then FORWARD, RIGHT then LEFT and LEFT then RIGHT, all with equal velocity, restore the position |
| Camera.ZeroDeltaTimeStill | headers/camera.h:65-77 | with deltaTime = 0 a move leaves the position unchanged, for every direction |
| Camera.Camera.ProcessMouseMovement | headers/camera.h:80-99 | `constrainPitch` defaults to true. yaw grows by `xOffset * mouseSensitivity`, unbounded. pitch becomes `PitchAfter(old pitch, yOffset * mouseSensitivity, constrainPitch)`. The basis is re-derived, so the invariant is kept. |
| Camera.PitchAfter | headers/camera.h:85-96 | when constrained, the result is in [-89, 89]; it is exactly old + delta when unconstrained or when that sum is in range, and otherwise saturates at ±89 |
| Camera.Camera.ProcessMouseScroll | headers/camera.h:101-110 | only `zoom` changes, to `ZoomAfterScroll(old zoom, yOffset)`; the invariant is kept |
| Camera.ZoomAfterScroll | headers/camera.h:103-109 | the result is in [1, 45]; it is exactly zoom - yOffset when that is in range, and otherwise saturates at 1 or 45 |
| Camera.ScrollMonotone | camera.cpp:64-73 | from a zoom in [1, 45], a non-negative offset never increases the zoom and a non-positive one never decreases it |
| Camera.Camera.UpdateCameraVectors | headers/camera.h:113-122 | front, right and up become the basis derived from the current yaw, pitch and world up; nothing else changes |
| CameraCpp.KeyboardStepAsWritten | camera.cpp:26-41 | FORWARD moves by `front * velocity` and BACKWARD by `front * -velocity`; RIGHT moves by `right * -velocity` and LEFT by `right * velocity` |
| CameraCpp.AsWrittenSwapsRightLeft | camera.cpp:26-41 | the out-of-line step agrees with the header's for FORWARD and BACKWARD. Its RIGHT is the header's LEFT and its LEFT is the header's RIGHT. |
| CameraCpp.RightMovesAgainstRightAsWritten | camera.cpp:35-40 | as written, RIGHT displaces by `right * -velocity` and LEFT by `right * velocity` |
| CameraCpp.RightExampleAsWritten | camera.cpp:35-40 | default camera (front -Z, right +X) at the origin with any positive velocity: as written, RIGHT goes to (-velocity, 0, 0); the header's version goes to (velocity, 0, 0) |
| CameraCpp.RightMovesAlongRight | headers/camera.h:72-77 | the model's step: RIGHT displaces by `right * velocity` and LEFT by `right * -velocity` |
| Decimal.NatToStringDigits | mesh.cpp:58 | the decimal rendering of a counter is a non-empty digit string, with a leading `0` only for 0 |
| Decimal.ParseNatToString | mesh.cpp:58 | reading the rendering back gives the counter |
| Decimal.NatToStringInjective | mesh.cpp:58-61 | different counters render differently |
| Mesh.Mesh.constructor | mesh.cpp:3-10 | vertices, indices and textures are stored unchanged |
| Mesh.Mesh.Draw | mesh.cpp:47-72 | changes nothing in the mesh. The commands it issues are exactly `DrawCommands`: per texture, activate its unit, set its uniform and bind it; then unit 0, bind the VAO, draw `|indices|` indices as triangles, unbind. The loop counters are the per-type counts. |
| Mesh.TextureCommandsAt | mesh.cpp:52-66 | texture `i` gets commands 3i..3i+2: activate `GL_TEXTURE0 + i`, set uniform `SamplerName(textures, i)` to `i`, bind its id as a 2D texture |
| Mesh.DrawCommandsShape | mesh.cpp:52-71 | the draw issues 3·|textures| + 4 commands, unit `i` and value `i` for texture `i`; it ends by activating unit 0 and drawing `indexCount` indices as unsigned-int triangles |
| Mesh.SamplerNameRule | mesh.cpp:49-64 | a diffuse/specular texture is named `material.` + type + its 1-based rank among the textures of that type up to and including itself; any other type gets `material.` + type with no number |
| Mesh.SamplerNamesDistinct | mesh.cpp:57-64 | two textures of the same numbered type never get the same uniform name |
| Mesh.CountBeforeMonotone | mesh.cpp:49-62 | a per-type count never decreases along the list |
| Mesh.CountBeforeInsert | mesh.cpp:49-62 | inserting a texture adds one to the count of its own type after the insertion point and leaves every other type's count alone |
| Mesh.InsertOtherTypeKeepsName | mesh.cpp:49-62 | the counters are independent: inserting a texture of one type anywhere leaves the name of every texture of another type unchanged |
| Textures.FormatFor | Aurora.cpp:122-131 | a format exists exactly for 1, 3 or 4 channels (RED, RGB, RGBA), and its channel count is the given one |
| Textures.FormatForChannels | Aurora.cpp:122-131 | each format is chosen for its own channel count |
| Textures.WrapFor | Aurora.cpp:137-138 | the wrap is CLAMP_TO_EDGE exactly for RGBA, and REPEAT otherwise |
| Textures.WrapFollowsChannels | Aurora.cpp:122-138 | an image that gets a format is clamped exactly when it has 4 channels |
| Textures.LoadTexture | Aurora.cpp:114-150 | the generated id is always returned. A failed decode, or a channel count with no format, issues no commands. Otherwise it binds, uploads with the chosen format and the image size, and sets the S and T wrap (clamp iff 4 channels). |
| Textures.UploadedIffSupported | Aurora.cpp:121-131 | an image is uploaded exactly when it decoded with 1, 3 or 4 channels |
| Textures.LoadCubemap | Aurora.cpp:152-177 | the id is returned. The commands are: bind the cube map, then `FaceUploads` of every face in order, then the five parameters. |
| Textures.FaceUploadsMembers | Aurora.cpp:159-169 | an upload is issued exactly for each face that decoded, to `POSITIVE_X + i`, as RGB with that face's size. A failed face is skipped and the faces after it still load. |
| Textures.FaceUploadsOrdered | Aurora.cpp:159-162 | uploads go out in face order, each target at most once, within the first n targets |
| Textures.SkyboxFaceTargets | Aurora.cpp:47-54 | right, left, top, bottom, front, back land on +X, -X, +Y, -Y, +Z, -Z |
| Aurora.CursorOffsets | Aurora.cpp:94-101 | on the first event both offsets are 0; afterwards they are (x - lastX, lastY - y), y inverted |
| Aurora.OffsetsTelescope | Aurora.cpp:91-106 | over any stream of events the offsets add up to the motion from the starting point to the last event, with y inverted; no motion is lost or invented |
| Aurora.KeyMovesPressed | Aurora.cpp:77-88 | a move is made exactly when its key (W, S, A, D for FORWARD, BACKWARD, LEFT, RIGHT) is pressed, and at most once |
| Aurora.KeyMovesInOrder | Aurora.cpp:77-88 | polling W, S, A, D in turn and stepping for each pressed key gives the position of `KeyMoves` applied in order |
| Aurora.OppositeKeysCancel | Aurora.cpp:77-88 | holding W and S together, or A and D, moves the camera as the other keys alone would |
| Aurora.App.constructor | Aurora.cpp:57-63 | the camera is at (0, 0, 3) with up +Y and the default angles and zoom. deltaTime = lastFrame = 0, the cursor is at the screen centre (640, 360), and the first-event flag is set. |
| Aurora.App.BeginFrame | Aurora.cpp:349-351 | deltaTime is the time since the previous frame, and the frame time is recorded |
| Aurora.App.ProcessInput | Aurora.cpp:72-89 | Escape asks to close. The position becomes `KeyMoves(pressed)` applied in order with velocity speed·deltaTime. Nothing else of the camera changes, and the invariant (pitch in [-89, 89], defaults kept) holds. |
| Aurora.App.PollMoveKey | Aurora.cpp:77-79 | one key line: a single keyboard move when the key is pressed, no change otherwise |
| Aurora.App.MouseCallback | Aurora.cpp:91-106 | the last position becomes the cursor and the flag is cleared. yaw and pitch change by `CursorOffsets` times 0.1, with the pitch constrained, so it stays in [-89, 89]. |
| Aurora.App.ScrollCallback | Aurora.cpp:108-111 | only the vertical offset is used: the zoom becomes `ZoomAfterScroll(old zoom, yoffset)` |

## Left out

- All GL, GLFW and GLAD calls with no decision in them: the window, context and loader set-up, the render loop body, `framebuffer_size_callback`, buffer and vertex-array set-up (`Mesh::setupMesh`). The mesh is given the VAO name set-up produced, and the texture loaders are given the name `glGenTextures` produced.
- `update_camera_vectors`, `get_view_matrix` (`glm::lookAt`) and `glm::perspective`: floating-point trigonometry and matrix library code. The basis is supplied as `orient`.
- stb_image: the decoder's answer for a file (failure, or width, height and channels) is an input, and pixel data is not modelled. The "failed to load" messages printed on standard output are not modelled.
- Float rounding: `float`/`double` values are reals, and the `static_cast<float>` conversions of the cursor position and scroll offset are identities.
- Textures.LoadTexture: for a channel count other than 1, 3 or 4 the C++ leaves `format` unassigned and still issues the upload and parameter calls with that indeterminate value (undefined behaviour). The model stops there with an explicit `UnsupportedChannels` outcome and issues no commands.
- Textures.LoadCubemap: `GL_TEXTURE_CUBE_MAP_POSITIVE_X + i` is a valid face target only for i < 6. A list of more than six faces yields targets past -Z, which the model computes but does not flag.
- 32-bit wrap-around of the texture-unit index and of the `diffuseNr`/`specularNr` counters (more than 2^32 textures) is not modelled. Counters are unbounded naturals.
- `glfwSetWindowShouldClose` is modelled as the `shouldClose` flag of `App`. Key states are given as the set of pressed keys.
- `headers/shader.h` (file reading and program compilation) is not part of this model. `Shader::setInt` becomes the `Uniform1i` command on a program name.
- `headers/model.h` and `project.cpp` are not part of this model.
- The static vertex arrays and shader and texture paths of `Aurora.cpp` are not modelled, except the skybox face list.

## Findings

| source | as written | input that shows it | evidently intended | confidence | as-written member | corrected member |
|---|---|---|---|---|---|---|
| camera.cpp:35-40 | RIGHT does `position -= right * velocity` and LEFT does `position += right * velocity` | the default camera at the origin (front -Z, right +X), any `movementSpeed * deltaTime > 0`, RIGHT: the camera moves to x = -velocity, against `right` | RIGHT moves along `right` and LEFT against it, as in headers/camera.h:72-77. The header's `up = cross(front, right)` is (0, -1, 0) at the default orientation, which rolls the rendered view, so the on-screen effect of either sign is not settled here | low, not executed | CameraCpp.RightExampleAsWritten | CameraCpp.RightMovesAlongRight |
