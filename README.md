# First-person camera of the OpenGL lighting demo

This project models the part of the demo that moves the viewer. It has two
parts.

- The `Camera` class of `source/camera/camera.h`:
  - yaw and pitch, with pitch clamped to ±89 degrees;
  - the front, right and up vectors derived from them;
  - keyboard movement that stays level;
  - a jump under constant gravity that lands back on the ground plane at height 2.
- The globals and callbacks of `source/main.cpp` that drive the camera:
  - the frame timer (`deltaTime`, `lastFrame`);
  - the key dispatch of `processInput`;
  - the cursor tracking of `mouse_callback` (`firstMouse`, `lastX`, `lastY`);
  - the order of the calls inside the render loop.

The project has three modules.

- `Glm` (`glm.dfy`) holds the vector arithmetic GLM provides, defined
  exactly over the reals. The transcendental routines (`sin`, `cos`,
  `inversesqrt`) and `glm::lookAt` are passed in as a `MathLib` value. The
  predicate `Sound` collects the few facts about them that the proofs use.
- `Camera` (`camera.dfy`) holds:
  - one pure function per camera operation on a `CameraState` value;
  - the list of operations (`Operation`, `Step`, `Steps`);
  - the lemmas about them;
  - `class Camera`, whose fields are the C++ members and whose methods are
    proved to change them as the pure functions say.
- `App` (`app.dfy`) holds:
  - the key dispatch, the cursor tracking and one frame of the loop, as
    functions on values (`World` gathers the globals);
  - `class Game`, whose fields are the globals of `main.cpp` and whose methods
    (`MouseCallback`, `ProcessInput`, `Frame`, `PollEvents`, `Pass`, `FrameLoop`,
    `MainLoop`) are proved to follow those functions.

The model keeps these facts from the source:

- Pitch is clamped after the sensitivity (0.1) is applied. Yaw is never clamped.
- `processKeyboard` zeroes the vertical part of the move and then normalizes
  it. One key therefore moves the camera by exactly `2.5 * deltaTime` along a
  level unit vector. W and D together move it by two such steps at right
  angles, `sqrt 2` times as far.
- `jump` does nothing while airborne. `updateJump` integrates the velocity
  first and the height second. It snaps the camera to height 2 with zero
  velocity when the height falls to 2 or below.
- The first cursor event yields a zero offset. The y offset is inverted
  (`lastY - ypos`).
- In a frame the timer is updated first, then `processInput`, then
  `updateJump`, then the view matrix is read. Cursor events are delivered by
  `glfwPollEvents` at the end of the frame. They reach the next frame's view.

## Model

| member | source | states |
|---|---|---|
| Camera.ClampPitch | source/camera/camera.h:67-70 | the pitch lies in [-89, 89]; a value already inside is unchanged; a value above 89 becomes 89 and one below -89 becomes -89 |
| Camera.MoveDirection | source/camera/camera.h:43-54 | the move direction built from front or right always has a zero vertical component |
| Camera.MouseMovementOrients | source/camera/camera.h:59-73 | after a mouse movement, yaw grows by exactly 0.1 times the x offset; pitch grows by 0.1 times the y offset, clamped to ±89; the basis is recomputed from the new angles; position and jump state are unchanged |
| Camera.Camera.ProcessMouseMovement | source/camera/camera.h:59-73 | the fields become the mouse-movement state of the previous fields, and the camera stays consistent |
| Camera.CosPitchPositive | source/camera/camera.h:67-70 | with pitch inside the clamp, the cosine of the pitch angle is positive |
| Camera.DirectionIsNotVertical | source/camera/camera.h:118-121 | at a clamped pitch the raw direction vector has a non-zero horizontal part |
| Camera.FrontIsNotVertical | source/camera/camera.h:122 | the normalized front vector has a non-zero horizontal part at any clamped pitch |
| Camera.RightIsLevel | source/camera/camera.h:123 | for a vertical world up, the right vector is level and non-zero |
| Camera.UpIsDefined | source/camera/camera.h:124 | with world up vertical and pitch clamped, right crossed with front is not zero, so up is normalized from a vector other than zero |
| Camera.RightCrossFrontNonZero | source/camera/camera.h:123-124 | for a front with a horizontal part and a vertical world up, normalize(front x worldUp) crossed with front is not zero |
| Camera.Camera.UpdateCameraVectors | source/camera/camera.h:116-125 | front, right and up become the vectors derived from yaw, pitch and world up |
| Camera.FrontAtZeroAngles | source/camera/camera.h:118-122 | at yaw 0 and pitch 0 the front vector is exactly (1, 0, 0) |
| Camera.QuarterTurnLooksAlongX | source/camera/camera.h:59-73 | from the initial yaw of -90, a mouse movement of 900 in x gives yaw 0, keeps pitch 0 and turns the front to (1, 0, 0) |
| Camera.MoveDirectionNonZero | source/camera/camera.h:43-54 | for a consistent camera with a vertical world up, each of the four move directions is non-zero, so its normalization is defined |
| Camera.KeyboardMovesLevel | source/camera/camera.h:40-57 | one keyboard move adds 2.5 * deltaTime times a level unit vector to the position and changes nothing else |
| Camera.Camera.ProcessKeyboard | source/camera/camera.h:40-57 | the fields become the keyboard state of the previous fields; the height is unchanged |
| Camera.ForwardPerpendicularToRight | source/camera/camera.h:40-57 | the level unit steps for forward and for right are perpendicular |
| Camera.KeyboardOrderIrrelevant | source/camera/camera.h:40-57 | two keyboard moves in the same frame give the same state in either order |
| Camera.Launch | source/camera/camera.h:75-81 | on the ground a jump starts with velocity 5 and the jumping flag set; in the air it changes nothing |
| Camera.Camera.Jump | source/camera/camera.h:75-81 | the fields become the jump state of the previous fields |
| Camera.Tick | source/camera/camera.h:83-95 | when not jumping nothing changes; when jumping the velocity gains gravity times deltaTime before the height gains velocity times deltaTime; a height at or below 2 snaps to 2 with zero velocity and ends the jump; a camera still jumping is strictly above 2, and a jumping camera never ends below 2 |
| Camera.Camera.UpdateJump | source/camera/camera.h:83-95 | the fields become the jump-update state of the previous fields |
| Camera.AirborneVelocityFalls | source/camera/camera.h:86 | while the camera stays airborne with a positive deltaTime, each update strictly lowers the vertical velocity |
| Camera.Descends | source/camera/camera.h:83-95 | a falling camera within n steps of the ground lands after finitely many updates |
| Camera.Rises | source/camera/camera.h:83-95 | a jumping camera whose upward velocity gravity cancels within n steps lands after finitely many updates |
| Camera.Lands | source/camera/camera.h:83-95 | for every positive fixed deltaTime, every jump ends: some number of updates clears the jumping flag, and a camera that was jumping reaches exactly the landed state, height 2 with zero velocity |
| Camera.RunKeepsLandedOrJumping | source/camera/camera.h:83-95 | from a camera in the air or landed at rest at height 2, any number of updates leaves it in the air or landed at rest at height 2, never in any other resting state |
| Camera.JumpArc | source/camera/camera.h:75-95 | a jump from the ground at a fixed deltaTime of 0.1 stays above 2 for nine updates, peaks at the fifth and lands on the tenth at height 2 with zero velocity |
| Camera.StepKeepsAboveGround | source/camera/camera.h:40-95 | every camera operation keeps the camera consistent, at height 2 or above, and with zero vertical velocity whenever it is not jumping |
| Camera.StepsKeepAboveGround | source/camera/camera.h:40-95 | any sequence of camera operations keeps the camera consistent, at height 2 or above, and with zero vertical velocity whenever it is not jumping |
| Camera.StepsConcat | source/camera/camera.h:40-95 | running two operation sequences one after the other equals running their concatenation |
| Camera.Camera.Perform | source/camera/camera.h:40-95 | the fields become the state that the given operation yields from the previous fields |
| Camera.Camera.constructor | source/camera/camera.h:18-23 | the new camera holds the initial state: the given position (by default the origin) and world up (by default (0, 1, 0)), yaw -90, pitch 0, not jumping, and the basis derived from those angles |
| Camera.Camera.GetViewMatrix | source/camera/camera.h:25-28 | the view matrix is lookAt applied to the position, the position plus front, and up |
| Camera.Camera.GetPosition | source/camera/camera.h:30-33 | returns the current position |
| Camera.Camera.GetFront | source/camera/camera.h:35-38 | returns the current front vector |
| Glm.Normalize | source/camera/camera.h:122-124 | normalizing keeps a zero vertical component zero, and a vector on the vertical axis stays on it |
| Glm.NormalizeIsUnit | source/camera/camera.h:122-124 | a vector other than zero normalizes to a unit vector, a positive multiple of itself |
| App.MovesDispatch | source/main.cpp:782-789 | each of W, S, D and A yields a keyboard call in its own direction exactly when it is held, with the frame's deltaTime; no other call is made for them |
| App.JumpDispatch | source/main.cpp:779-791 | Space yields exactly one jump call, after all the moves; Escape yields no camera call |
| App.DispatchedRunsCommands | source/main.cpp:777-792 | the branch-by-branch effect of processInput equals running the dispatched calls in source order |
| App.Game.ProcessInput | source/main.cpp:777-792 | Escape sets the close flag and the flag is never cleared; the camera ends in the state the branches give in the order W, S, D, A, Space |
| App.Game.Press | source/main.cpp:782-791 | a held key runs its camera call; a released key leaves the camera unchanged |
| App.TwoMoves | source/main.cpp:782-789 | two keyboard calls in one frame add their two separately normalized unit steps of 2.5 * deltaTime to the position |
| App.DiagonalMove | source/main.cpp:782-789 | holding W and D moves the camera by one forward and one right unit step, which are perpendicular, so the move has squared length 2 c c and is sqrt 2 times a single-key move |
| App.Track | source/main.cpp:802-820 | the first event gives offset (0, 0); later ones give (xpos - lastX, lastY - ypos) with y inverted; afterwards lastX and lastY hold the event and firstMouse is false |
| App.Game.MouseCallback | source/main.cpp:802-820 | the globals become the tracked pointer, and the camera receives exactly the tracked offset |
| App.Feed | source/main.cpp:807-817 | after a run of events lastX and lastY hold the last event; firstMouse is cleared by any event and is never set again |
| App.Offsets | source/main.cpp:814-815 | one offset per cursor event |
| App.Telescope | source/main.cpp:807-817 | the offsets of a run of events sum to the last position minus the first tracked position in x, and to its inverse in y |
| App.Turns | source/main.cpp:819 | one mouse-movement call per offset |
| App.TurnsAddYaw | source/camera/camera.h:61-64 | after the mouse-movement calls, yaw has grown by 0.1 times the sum of the x offsets |
| App.CursorYaw | source/main.cpp:802-820 | after a run of cursor events, yaw has grown by 0.1 times the net x travel of the cursor, whatever the path |
| App.FeedStep | source/main.cpp:807-817 | tracking one more event extends the pointer state and the list of offsets by that event's result |
| App.TurnsConcat | source/main.cpp:819 | the mouse calls of two runs of events are the calls of the first run followed by those of the second |
| App.MovesKeepVertical | source/main.cpp:782-789 | keyboard calls never change the height, the vertical velocity or the jumping flag |
| App.FrameVertical | source/main.cpp:568-570 | within one frame the vertical state after processInput and updateJump is one jump update applied to the launched state if Space is held, or to the unchanged one otherwise |
| App.JumpInSameFrame | source/main.cpp:568-570 | pressing Space on the ground with a deltaTime below 0.5 leaves the camera jumping, above height 2, with velocity 5 + gravity * deltaTime, in the same frame |
| App.PassWorld | source/main.cpp:562-570 | after a frame, deltaTime is the clock reading minus the previous lastFrame and lastFrame is that reading; the close flag is the old flag or Escape; firstMouse is never set again |
| App.Game.Frame | source/main.cpp:564-631 | the globals become the frame state: timer first, then processInput, then updateJump; the returned view is the one of the camera after those calls |
| App.Game.PollEvents | source/main.cpp:751 | the globals become the state after the cursor events in order: the pointer is fed the events and the camera gets one mouse call per offset |
| App.Game.Pass | source/main.cpp:562-751 | one loop iteration: the globals become the frame-then-events state and the view is the camera's after processInput and updateJump |
| App.Views | source/main.cpp:562-631 | at most one view per frame input, and the first one is the view of the camera after the first frame's processInput and updateJump, before its cursor events |
| App.PlayKeepsAboveGround | source/main.cpp:562-752 | however many frames run, the camera stays consistent, never goes below height 2, and has zero vertical velocity whenever it is not jumping |
| App.Game.MainLoop | source/main.cpp:562-752 | the loop runs frames until the first one in which Escape is held, and that frame is still completed, or until the inputs run out; the close flag is set exactly when the last frame held Escape; lastFrame is the last clock reading; firstMouse is never set again; the camera stays at height 2 or above, with zero vertical velocity whenever it is not jumping; the final globals are the ones the frame-by-frame function gives; the returned views are exactly the views that function reads, one per frame run, each taken after that frame's processInput and updateJump |
| App.Game.FrameLoop | source/main.cpp:562-752 | the loop stops only once a frame has held Escape or the inputs have run out; then no earlier frame held Escape, the close flag and lastFrame come from the last frame, firstMouse has not been set again, and the globals and the returned views are exactly what the frame-by-frame functions give for the inputs |
| App.Game.constructor | source/main.cpp:24-30 | the globals start with the camera at (0, 2, 0) with world up (0, 1, 0), the cursor at the screen centre (800, 480) with firstMouse set, both timers at 0, and the window open |

## Left out

- Rendering: every GL call, shader, texture, vertex buffer and the skybox. None of them changes the camera. The one that reads it, `setVec3("viewPos", camera.getPosition())` at `source/main.cpp:576`, comes after `updateJump` in the same frame, so it sees the same camera state as the view the model returns for that frame.
- GLFW: window creation, the clock, key polling and the cursor callback registration. The clock reading, the held keys and the cursor events of each frame are parameters.
- Closing the window through the window system (its close button, for example) also makes `glfwWindowShouldClose` true. The model has no such event: a loop that ends this way is modelled by the sequence of frame inputs ending there.
- The framebuffer-size callback and the projection matrix. The callback only resizes the viewport to the new window size (`source/main.cpp:766-769`), and the projection is built from constants. Neither reads or changes the camera.
- The two later `getViewMatrix` calls in a frame: the one for the skybox (with the translation removed by `glm::mat3`) and the one for the light cubes. Nothing changes the camera after the first call, so both read the same camera state as the modelled view.
- Single-precision floats: every scalar is a real. This leaves out the rounding of `float` arithmetic and the conversions from the `double` cursor position.
- The numerics of `sin`, `cos`, `inversesqrt` and `glm::lookAt`. They are abstract functions, constrained only by the predicate `Sound`.
- Glm.Normalize: `glm::normalize` of the zero vector yields NaN components, and here it yields the zero vector. With world up vertical and pitch clamped, none of the four normalizations is applied to zero: the move direction (Camera.MoveDirectionNonZero), the raw front direction (Camera.DirectionIsNotVertical), front crossed with world up (Camera.RightIsLevel) and right crossed with front (Camera.UpIsDefined).
- The orthonormality of the basis is not proved. The facts proved are a level right vector, perpendicular level moves, and an up vector that is defined (normalized from a vector other than zero).
- `m_fov` is declared and never used by the camera.
- Camera.KeyboardMovesLevel, App.DiagonalMove, App.TwoMoves, Camera.MoveDirectionNonZero, Camera.UpIsDefined: stated only for a vertical world up (`(0, y, 0)` with y ≠ 0), which is what `main.cpp` gets: it passes only the position (`source/main.cpp:27`), so world up is the constructor's default `(0, 1, 0)` (`source/camera/camera.h:18`). With a tilted world up the move is still level, but its length is not known.
- Camera.Lands: states that every jump ends for a fixed positive deltaTime. It does not cover a deltaTime that varies between frames.
