# Camera, gravity and input state of a small OpenGL scene

This project models the state of a small real-time 3D scene program: a
free-fly camera, a toggleable gravity simulation, and the global variables that
the window's event handlers and the render loop update. The model has four modules:

- `Vectors` (`vector.dfy`): `glm::vec3` as a datatype over the reals, with
  addition, scaling, dot and cross products, and the identities the camera
  proofs rely on.
- `Physics` (`gravity.dfy`): the `Gravity` class and its constants (terminal
  velocity 80, gravity constant 9.8). Each method of the class is tied to a
  pure transition function on `GravityState`. Sequences of calls are modelled
  as `Run` over `Op`.
- `Render` (`camera.dfy`): the `Camera` class with its position, viewing
  direction, up, right, world-up and movement speed. `ProcessKeyboard`
  moves the position, and `UpdateCameraVectors` derives the basis by cross
  products. The view matrix is represented by the arguments given to `glm::lookAt`.
- `Application` (`app.dfy`): the `Globals` namespace as a class. It covers:
  - the key handler (E toggles wireframe; Space toggles light movement and the animation pause);
  - the pointer handler (look offsets, with the first event producing none);
  - the per-frame time logic (the animation time wraps at 2π);
  - the held-key poll (Escape closes; W, S, A and D move the camera in that order).

Single-precision floats are modelled as mathematical reals. Decimal constants
such as 9.8, 0.1, 80 and the light position are taken at the value written in
the source. π has no finite decimal form, so some rational value has to stand
for it. The model uses the value the program actually compares against,
`std::numbers::pi_v<float>`, which is exactly 3.1415927410125732421875; doubling
it is exact in binary floating point. GLFW's public key and action codes are
used: Space 32, A 65, D 68, E 69, S 83, W 87, Escape 256, press 1.

`Core/Render/Camera.cpp` has no yaw or pitch angles, no zoom, and does not use
its mouse sensitivity. Nothing after the constructor changes the viewing
direction, so the camera always looks along (0, 0, −1). The pointer handler
returns its look offsets instead of passing them to a camera operation.

## Model

| member | source | states |
|---|---|---|
| Physics.Clamp | Core/System/Gravity.cpp:19-20 | The result's magnitude is at most 80. A velocity already within ±80 is unchanged. One beyond it becomes exactly ±80 with its sign kept. |
| Physics.ClampIsProjection | Core/System/Gravity.cpp:19-20 | The clamp is the projection of the velocity onto the interval [−80, 80]. |
| Physics.Fall | Core/System/Gravity.cpp:16-20 | One enabled step loses 9.8·dt of velocity. The result is within ±80. It is exact when the new velocity is within the limit and ±80 with the right sign otherwise. |
| Physics.UpdateState | Core/System/Gravity.cpp:11-21 | Disabled gravity leaves the state untouched. Enabled gravity stays enabled, stays within ±80, and its velocity becomes the clamp of v − 9.8·dt. |
| Physics.ToggleState | Core/System/Gravity.cpp:23-29 | The flag flips. Switching off zeroes the velocity. Switching on keeps it. |
| Physics.ResetState | Core/System/Gravity.cpp:36-39 | The velocity becomes 0 and the flag is kept. |
| Physics.ToggleTwice | Core/System/Gravity.cpp:23-29 | Toggling twice restores the flag and equals a reset. |
| Physics.StepsPreserveInvariant | Core/System/Gravity.cpp:11-39 | Update, toggle and reset each keep two facts: disabled means zero velocity, and the speed is at most 80. |
| Physics.RunPreservesInvariant | Core/System/Gravity.cpp:4-39 | Any sequence of calls keeps both facts. |
| Physics.RunFlag | Core/System/Gravity.cpp:23-29 | After any sequence of calls the flag has flipped exactly when the number of toggles is odd. |
| Physics.DisabledRunIsIdle | Core/System/Gravity.cpp:11-39 | Without toggles, disabled gravity at rest stays exactly as it is through any updates and resets. |
| Physics.Gravity.constructor | Core/System/Gravity.cpp:4-9 | A new object is disabled with velocity 0 and stores the given strength. The strength defaults to the gravity constant. |
| Physics.Gravity.Update | Core/System/Gravity.cpp:11-21 | The new state is `UpdateState` of the old one. The invariant is kept. |
| Physics.Gravity.Toggle | Core/System/Gravity.cpp:23-29 | The new state is `ToggleState` of the old one. The invariant is kept. |
| Physics.Gravity.IsEnabled | Core/System/Gravity.cpp:31-34 | Returns the enabled flag of the state. |
| Physics.Gravity.Reset | Core/System/Gravity.cpp:36-39 | The new state is `ResetState` of the old one. The invariant is kept. |
| Physics.Gravity.Log | Core/System/Gravity.cpp:41-47 | A line is produced exactly when gravity is enabled, and it carries the velocity. |
| Render.BasisOrthogonal | Core/Render/Camera.cpp:30-34 | Right is perpendicular to the viewing direction and to world up. Up is perpendicular to right and to the viewing direction. |
| Vectors.CrossZeroIffParallel | Core/Render/Camera.cpp:32 | The cross product vanishes exactly when its arguments are parallel. Parallel is defined independently, as equality in the Cauchy–Schwarz inequality, `(a·b)² = |a|²|b|²`. The proof uses Lagrange's identity and that only the zero vector has length zero. |
| Render.BasisDegenerate | Core/Render/Camera.cpp:32-33 | Right vanishes exactly when the viewing direction is parallel to world up, in the Cauchy–Schwarz sense. The squared length of up is the squared length of right times that of the direction. |
| Render.DefaultBasis | Core/Render/Camera.cpp:3-10 | With the initial direction (0,0,−1) and the default world up (0,1,0), right is (1,0,0) and up is (0,1,0). Both have unit length. |
| Render.DefaultMoves | Core/Render/Camera.cpp:17-28 | With the default basis, forward moves by exactly −velocity along z, backward by +velocity along z, left by −velocity along x and right by +velocity along x. |
| Render.DefaultCamera | Core/Render/Camera.cpp:3-10 | A valid camera whose direction and world up have their default values has right (1,0,0) and up (0,1,0). That is what the source's normalised vectors are. |
| Render.MovedDisplacement | Core/Render/Camera.cpp:17-28 | One movement command displaces the position by ±velocity along its own axis: direction for forward and backward, right for left and right. |
| Render.MovedZero | Core/Render/Camera.cpp:17-28 | No elapsed time means no movement. |
| Render.MovedInverse | Core/Render/Camera.cpp:20-27 | Backward undoes forward and left undoes right, in both orders. |
| Render.MovedCommutes | Core/Render/Camera.cpp:17-28 | Two movement commands with the same basis and step commute. |
| Render.MoveAllNet | Core/Render/Camera.cpp:17-28 | A sequence of commands moves the position by (forwards − backwards)·velocity along the direction plus (rights − lefts)·velocity along right, whatever the order. |
| Render.Camera.constructor | Core/Render/Camera.cpp:3-10 | Stores the position and world up, starts looking along (0,0,−1) with speed 0.1, and leaves the basis derived from them. |
| Render.Camera.ViewMatrix | Core/Render/Camera.cpp:12-15 | The view looks from the position towards position + direction, with up as the up vector. |
| Render.Camera.ProcessKeyboard | Core/Render/Camera.cpp:17-28 | The position moves by `Moved` with step speed·deltaTime. Every other field is unchanged. |
| Render.Camera.UpdateCameraVectors | Core/Render/Camera.cpp:30-34 | Afterwards right and up are the ones derived from the direction and world up. |
| Application.KeyStep | Main.cpp:361-370 | A press of E flips only the wireframe flag. A press of Space flips light movement and pause and not wireframe. Any other key or action changes nothing. "Light moves iff not paused" holds afterwards iff it held before. |
| Application.KeyRunFlips | Main.cpp:361-370 | After any key events, wireframe has flipped once per E press, and light movement and pause once per Space press. |
| Application.KeyRunKeepsLightInvariant | Main.cpp:365-369 | From the initial flags, the light moves exactly when the animation runs, after any key events. |
| Application.AnimationStep | Main.cpp:213-222 | A paused animation keeps its time. Otherwise the time advances by the delta and is wrapped back by 2π exactly when the sum passes 2π. A time within [0, 2π] with a delta within [0, 2π] stays within [0, 2π]. |
| Application.Tick | Main.cpp:208-222 | The frame's delta time is the time since the last frame. The last time becomes now. The animation time advances by `AnimationStep`. |
| Application.ClockRunInRange | Main.cpp:208-222 | Over frames whose times never go backwards and are at most 2π apart, the animation time stays within [0, 2π], and the last frame time is remembered. |
| Application.ClockRunPaused | Main.cpp:214-222 | While paused, no number of frames changes the animation time. |
| Application.MouseStep | Main.cpp:310-331 | The first event gives zero offsets. Later events give x − lastX and lastY − y. The event's position is remembered and the first-event flag cleared. |
| Application.MouseTelescopes | Main.cpp:317-328 | The offsets of a sequence of events add up to the whole movement from the start position to the last one, with y inverted. |
| Application.InputMoves | Main.cpp:347-358 | At most four commands are issued, each exactly when its key (W, S, A, D) is held. |
| Application.InputMovesInOrder | Main.cpp:347-358 | The held keys move the camera one after another in the order W, S, A, D. |
| Application.OpposedKeysCancel | Main.cpp:347-358 | Holding W with S, or A with D, leaves that axis unmoved. Holding both pairs leaves the camera where it was. |
| Application.DefaultInputDisplacement | Main.cpp:347-358 | For the program's camera (initial direction, default world up), the held keys move the position by exactly one step of speed·deltaTime per axis: +x for D alone, −x for A alone, −z for W alone, +z for S alone, and nothing when both or neither of a pair are held. |
| Application.CountInputMoves | Main.cpp:347-358 | Each held movement key issues its command exactly once. |
| Application.Globals.constructor | Main.cpp:33-48 | Every global starts at its declared value: the camera at (0,0,3), zero clocks, the pointer at (1200, 900) before a first event, wireframe off, light movement on, not paused, and the light at (1, 0.4, 1.5). |
| Application.Globals.KeyCallback | Main.cpp:361-370 | The flags become `KeyStep` of the old ones, and the light/pause invariant is kept. |
| Application.Globals.MouseCallback | Main.cpp:310-331 | The pointer state and the returned offsets are those of `MouseStep`. |
| Application.Globals.AdvanceClock | Main.cpp:208-222 | The clock becomes `Tick` of the old clock at the current time. |
| Application.Globals.ProcessInput | Main.cpp:339-359 | Closing is requested exactly when Escape is held. The camera position becomes `MoveAll` of the commands for the held keys with step speed·deltaTime. No other camera field changes. |
| Application.Globals.Frame | Main.cpp:208-225 | The time logic runs before the key poll, so the camera moves by speed times the time since the last frame. |

## Left out

- Render.Camera.UpdateCameraVectors: stores `direction × worldUp` and `right × direction` without `glm::normalize`, which needs a square root.
  - Orthogonality does not change under scaling by a non-zero factor (`Vectors.OrthogonalScaled`).
  - Strafing does change. `ProcessKeyboard` with left or right moves by velocity·|direction × worldUp| in the model, against velocity in the source. With world up (1, 1, 0), for example, the model's right vector is (1, −1, 0) and a strafe covers √2 times the source's distance.
  - The model is exact for the default world up, the only one the program constructs. Both cross products are then already of unit length (`Render.DefaultBasis`, `Render.DefaultCamera`). Every held key then moves the program's camera by exactly speed·deltaTime (`Application.DefaultInputDisplacement`).
- Render.Camera.ViewMatrix: returns the eye, centre and up arguments instead of the 4×4 matrix `glm::lookAt` builds from them.
- Floating-point rounding throughout: every `float` is a `real`, including the double-to-float casts of the time and pointer positions.
- The camera's `m_sensitivity` and `m_view` members: the code never uses them.
- The camera operations that `Main.cpp` calls with the pointer and scroll offsets, `ProcessMouseMovement` and `ProcessScrollWheel`: `Core/Render/Camera.h` declares neither. The scroll handler is therefore not modelled, and the pointer handler returns its offsets.
- The light's orbit and `g_lastLightPos` updates in the render loop: trigonometry over floats. The light position is only initialised.
- Window and context creation, GLAD loading, the framebuffer-size callback, polygon-mode switching, clearing, drawing and buffer swaps: these are external graphics and window calls.
- The Shader, Texture, VAO, VBO and EBO classes: these are thin wrappers over OpenGL objects.
- Physics.Gravity.Log: the console output is returned as an optional value instead of being written to standard output.
- Key polling: the window system's `glfwGetKey` is modelled as the set of keys currently held. The window-close request is the returned flag.
- The unused `window`, `scancode` and `mods` parameters of the callbacks.
