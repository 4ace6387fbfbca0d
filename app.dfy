/**
  The parts of main.cpp that drive the camera: the global frame timer, the
  keyboard dispatch of processInput, the cursor tracking of mouse_callback, and
  the frame loop that calls them in order.

  The pure functions say what one frame or one cursor event does; class Game
  holds main.cpp's globals in fields and its methods are proved to follow them.
  GLFW is not modelled: the clock reading, the held keys and the cursor events
  that glfwPollEvents delivers are parameters.
 */
module App {
  import opened Glm
  import Camera

  const ScreenWidth: int := 1600
  const ScreenHeight: int := 960

  /** The keys processInput polls, each true when held down. */
  datatype Keys = Keys(escape: bool, w: bool, s: bool, d: bool, a: bool, space: bool)

  function Count(held: bool): nat { if held then 1 else 0 }

  /** The call a key makes in a frame: op while the key is held, nothing otherwise. */
  function Piece(held: bool, op: Camera.Operation): seq<Camera.Operation>
  {
    if held then [op] else []
  }

  /** The movement calls processInput makes, in the order it polls W, S, D and A. */
  function Moves(keys: Keys, deltaTime: real): seq<Camera.Operation>
  {
    Piece(keys.w, Camera.KeyboardInput(Camera.Forward, deltaTime))
    + Piece(keys.s, Camera.KeyboardInput(Camera.Backward, deltaTime))
    + Piece(keys.d, Camera.KeyboardInput(Camera.Right, deltaTime))
    + Piece(keys.a, Camera.KeyboardInput(Camera.Left, deltaTime))
  }

  /**
    Every camera call processInput makes in one frame: one per held key, the
    jump (Space) last. Escape closes the window and makes no camera call.
   */
  function Commands(keys: Keys, deltaTime: real): seq<Camera.Operation>
  {
    Moves(keys, deltaTime) + Piece(keys.space, Camera.JumpInput)
  }

  /**
    processInput's movement keys: W, S, D and A each make exactly one
    processKeyboard call with the frame's deltaTime (forward, backward, right,
    left), and nothing else is called.
   */
  lemma MovesDispatch(keys: Keys, deltaTime: real)
    ensures var moves := Moves(keys, deltaTime);
      && (forall op | op in moves :: op.KeyboardInput? && op.deltaTime == deltaTime)
      && (Camera.KeyboardInput(Camera.Forward, deltaTime) in moves) == keys.w
      && (Camera.KeyboardInput(Camera.Backward, deltaTime) in moves) == keys.s
      && (Camera.KeyboardInput(Camera.Right, deltaTime) in moves) == keys.d
      && (Camera.KeyboardInput(Camera.Left, deltaTime) in moves) == keys.a
      && |moves| == Count(keys.w) + Count(keys.s) + Count(keys.d) + Count(keys.a)
  {
  }

  /** Space makes exactly one jump call, after every move; Escape makes no camera call. */
  lemma JumpDispatch(keys: Keys, deltaTime: real)
    ensures var moves, ops := Moves(keys, deltaTime), Commands(keys, deltaTime);
      && ops[..|moves|] == moves
      && (Camera.JumpInput in ops) == keys.space
      && (keys.space ==> ops[|ops| - 1] == Camera.JumpInput)
      && |ops| == |moves| + Count(keys.space)
  {
    MovesDispatch(keys, deltaTime);
  }

  /** The camera after one key's branch of processInput. */
  function Pressed(lib: MathLib, s: Camera.CameraState, held: bool, op: Camera.Operation): Camera.CameraState
  {
    if held then Camera.Step(lib, s, op) else s
  }

  /** The camera after processInput, branch by branch in the order the keys are polled. */
  function Dispatched(lib: MathLib, s: Camera.CameraState, keys: Keys, deltaTime: real): Camera.CameraState
  {
    var w := Pressed(lib, s, keys.w, Camera.KeyboardInput(Camera.Forward, deltaTime));
    var ws := Pressed(lib, w, keys.s, Camera.KeyboardInput(Camera.Backward, deltaTime));
    var wsd := Pressed(lib, ws, keys.d, Camera.KeyboardInput(Camera.Right, deltaTime));
    var wsda := Pressed(lib, wsd, keys.a, Camera.KeyboardInput(Camera.Left, deltaTime));
    Pressed(lib, wsda, keys.space, Camera.JumpInput)
  }

  lemma StepsPiece(lib: MathLib, s: Camera.CameraState, held: bool, op: Camera.Operation)
    ensures Camera.Steps(lib, s, Piece(held, op)) == Pressed(lib, s, held, op)
  {
    if held {
      assert Piece(held, op)[1..] == [];
    }
  }

  /** processInput's branches make exactly the calls Commands lists, in that order. */
  lemma DispatchedRunsCommands(lib: MathLib, s: Camera.CameraState, keys: Keys, deltaTime: real)
    ensures Dispatched(lib, s, keys, deltaTime) == Camera.Steps(lib, s, Commands(keys, deltaTime))
  {
    var pw := Piece(keys.w, Camera.KeyboardInput(Camera.Forward, deltaTime));
    var ps := Piece(keys.s, Camera.KeyboardInput(Camera.Backward, deltaTime));
    var pd := Piece(keys.d, Camera.KeyboardInput(Camera.Right, deltaTime));
    var pa := Piece(keys.a, Camera.KeyboardInput(Camera.Left, deltaTime));
    var pj := Piece(keys.space, Camera.JumpInput);
    assert Commands(keys, deltaTime) == pw + ps + pd + pa + pj;
    Camera.StepsConcat(lib, s, pw + ps + pd + pa, pj);
    Camera.StepsConcat(lib, s, pw + ps + pd, pa);
    Camera.StepsConcat(lib, s, pw + ps, pd);
    Camera.StepsConcat(lib, s, pw, ps);
    var w := Camera.Steps(lib, s, pw);
    var ws := Camera.Steps(lib, w, ps);
    var wsd := Camera.Steps(lib, ws, pd);
    var wsda := Camera.Steps(lib, wsd, pa);
    StepsPiece(lib, s, keys.w, Camera.KeyboardInput(Camera.Forward, deltaTime));
    StepsPiece(lib, w, keys.s, Camera.KeyboardInput(Camera.Backward, deltaTime));
    StepsPiece(lib, ws, keys.d, Camera.KeyboardInput(Camera.Right, deltaTime));
    StepsPiece(lib, wsd, keys.a, Camera.KeyboardInput(Camera.Left, deltaTime));
    StepsPiece(lib, wsda, keys.space, Camera.JumpInput);
  }

  /**
    Holding W and D makes two processKeyboard calls, each normalizing its own
    direction: the camera moves by the sum of two perpendicular horizontal steps
    of length movementSpeed * deltaTime, so its squared displacement is twice that
    of a single key.
   */
  lemma DiagonalMove(lib: MathLib, s: Camera.CameraState, deltaTime: real)
    requires Sound(lib) && Camera.Oriented(lib, s) && Camera.VerticalAxis(s.worldUp)
    ensures var c := Camera.MovementSpeed * deltaTime;
      var forward := Normalize(lib, Camera.MoveDirection(s.basis, Camera.Forward));
      var right := Normalize(lib, Camera.MoveDirection(s.basis, Camera.Right));
      var d := Add(Scale(forward, c), Scale(right, c));
      && Camera.Steps(lib, s, Commands(Keys(false, true, false, true, false, false), deltaTime)).position
         == Add(s.position, d)
      && Dot(forward, right) == 0.0
      && Dot(d, d) == 2.0 * c * c
  {
    var keys := Keys(false, true, false, true, false, false);
    DispatchedRunsCommands(lib, s, keys, deltaTime);
    TwoMoves(lib, s, Camera.Forward, Camera.Right, deltaTime);
    Camera.ForwardPerpendicularToRight(lib, s.basis, s.worldUp);
    var forward := Normalize(lib, Camera.MoveDirection(s.basis, Camera.Forward));
    var right := Normalize(lib, Camera.MoveDirection(s.basis, Camera.Right));
    SumOfPerpendicularUnits(forward, right, Camera.MovementSpeed * deltaTime);
  }

  /** Two keyboard calls in a frame add their two separately normalized steps. */
  lemma TwoMoves(lib: MathLib, s: Camera.CameraState, first: Camera.Movement, second: Camera.Movement, deltaTime: real)
    requires Sound(lib) && Camera.Oriented(lib, s) && Camera.VerticalAxis(s.worldUp)
    ensures var c := Camera.MovementSpeed * deltaTime;
      var u := Normalize(lib, Camera.MoveDirection(s.basis, first));
      var v := Normalize(lib, Camera.MoveDirection(s.basis, second));
      && Dot(u, u) == 1.0 && Dot(v, v) == 1.0
      && Camera.AfterKeyboard(lib, Camera.AfterKeyboard(lib, s, first, deltaTime), second, deltaTime)
         == s.(position := Add(s.position, Add(Scale(u, c), Scale(v, c))))
  {
    Camera.KeyboardMovesLevel(lib, s, first, deltaTime);
    var s1 := Camera.AfterKeyboard(lib, s, first, deltaTime);
    assert s1.basis == s.basis && s1.worldUp == s.worldUp && s1.yaw == s.yaw && s1.pitch == s.pitch;
    Camera.KeyboardMovesLevel(lib, s1, second, deltaTime);
  }

  /** Every camera operation of one frame: processInput's calls, then updateJump. */
  function FrameOps(keys: Keys, deltaTime: real): seq<Camera.Operation>
  {
    Commands(keys, deltaTime) + [Camera.JumpUpdate(deltaTime)]
  }

  // ---------------------------------------------------------------------------
  // Cursor tracking

  /** The globals mouse_callback reads and writes. */
  datatype Pointer = Pointer(firstMouse: bool, lastX: real, lastY: real)

  /** Before any event the cursor is taken to be at the centre of the window. */
  const InitialPointer: Pointer :=
    Pointer(true, ScreenWidth as real / 2.0, ScreenHeight as real / 2.0)

  datatype Cursor = Cursor(x: real, y: real)

  datatype Offset = Offset(dx: real, dy: real)

  datatype Tracked = Tracked(pointer: Pointer, offset: Offset)

  /** The position offsets are measured from: the event itself on the first event, else the last one. */
  function Origin(p: Pointer, c: Cursor): Cursor
  {
    if p.firstMouse then c else Cursor(p.lastX, p.lastY)
  }

  /** One mouse_callback: the offsets it passes to the camera and the globals it leaves. */
  function Track(p: Pointer, c: Cursor): (r: Tracked)
    ensures r.pointer == Pointer(false, c.x, c.y)
    ensures p.firstMouse ==> r.offset == Offset(0.0, 0.0)
    ensures !p.firstMouse ==> r.offset == Offset(c.x - p.lastX, p.lastY - c.y)
  {
    var (lastX, lastY) := if p.firstMouse then (c.x, c.y) else (p.lastX, p.lastY);
    Tracked(Pointer(false, c.x, c.y), Offset(c.x - lastX, lastY - c.y))
  }

  /** The globals after a sequence of events. */
  function Feed(p: Pointer, events: seq<Cursor>): (r: Pointer)
    ensures events == [] ==> r == p
    ensures events != [] ==> r == Pointer(false, events[|events| - 1].x, events[|events| - 1].y)
    ensures p.firstMouse || !r.firstMouse
    decreases |events|
  {
    if events == [] then p else Feed(Track(p, events[0]).pointer, events[1..])
  }

  /** The offsets a sequence of events passes to the camera, one per event. */
  function Offsets(p: Pointer, events: seq<Cursor>): (r: seq<Offset>)
    ensures |r| == |events|
    decreases |events|
  {
    if events == [] then []
    else
      var t := Track(p, events[0]);
      [t.offset] + Offsets(t.pointer, events[1..])
  }

  function SumX(offsets: seq<Offset>): real
    decreases |offsets|
  {
    if offsets == [] then 0.0 else offsets[0].dx + SumX(offsets[1..])
  }

  function SumY(offsets: seq<Offset>): real
    decreases |offsets|
  {
    if offsets == [] then 0.0 else offsets[0].dy + SumY(offsets[1..])
  }

  /**
    The offsets telescope: over any non-empty sequence of events their x parts add
    up to the last x minus the origin's x, and their y parts (inverted) to the
    origin's y minus the last y. From the first event on, the origin is that event.
   */
  lemma {:induction false} Telescope(p: Pointer, events: seq<Cursor>)
    requires events != []
    ensures var origin, last := Origin(p, events[0]), events[|events| - 1];
      && SumX(Offsets(p, events)) == last.x - origin.x
      && SumY(Offsets(p, events)) == origin.y - last.y
    decreases |events|
  {
    var t := Track(p, events[0]);
    var rest := events[1..];
    assert Offsets(p, events) == [t.offset] + Offsets(t.pointer, rest);
    assert ([t.offset] + Offsets(t.pointer, rest))[1..] == Offsets(t.pointer, rest);
    if rest != [] {
      Telescope(t.pointer, rest);
      assert rest[|rest| - 1] == events[|events| - 1];
    } else {
      assert Offsets(t.pointer, rest) == [];
    }
  }

  /** The camera operations a sequence of offsets becomes. */
  function Turns(offsets: seq<Offset>): (ops: seq<Camera.Operation>)
    ensures |ops| == |offsets|
    decreases |offsets|
  {
    if offsets == [] then []
    else [Camera.MouseInput(offsets[0].dx, offsets[0].dy)] + Turns(offsets[1..])
  }

  /** Yaw is never clamped, so a run of mouse movements turns it by the sum of the x offsets. */
  lemma {:induction false} TurnsAddYaw(lib: MathLib, s: Camera.CameraState, offsets: seq<Offset>)
    ensures Camera.Steps(lib, s, Turns(offsets)).yaw == s.yaw + SumX(offsets) * Camera.MouseSensitivity
    decreases |offsets|
  {
    if offsets != [] {
      var op := Camera.MouseInput(offsets[0].dx, offsets[0].dy);
      assert Turns(offsets)[1..] == Turns(offsets[1..]);
      TurnsAddYaw(lib, Camera.Step(lib, s, op), offsets[1..]);
    }
  }

  /**
    The yaw a cursor stream produces depends only on where the stream starts and
    ends: 0.1 degree per pixel between the origin and the last event.
   */
  lemma CursorYaw(lib: MathLib, s: Camera.CameraState, p: Pointer, events: seq<Cursor>)
    requires events != []
    ensures Camera.Steps(lib, s, Turns(Offsets(p, events))).yaw
         == s.yaw + (events[|events| - 1].x - Origin(p, events[0]).x) * Camera.MouseSensitivity
  {
    TurnsAddYaw(lib, s, Offsets(p, events));
    Telescope(p, events);
  }

  // ---------------------------------------------------------------------------
  // One frame

  /** The camera's vertical motion in a frame: the jump (when Space is held), then one tick. */
  lemma FrameVertical(lib: MathLib, s: Camera.CameraState, keys: Keys, deltaTime: real)
    ensures var v := Camera.VerticalOf(s);
      Camera.VerticalOf(Camera.Steps(lib, s, FrameOps(keys, deltaTime)))
      == Camera.Tick(if keys.space then Camera.Launch(v) else v, deltaTime)
  {
    var moves := Moves(keys, deltaTime);
    var jumps := Piece(keys.space, Camera.JumpInput);
    assert FrameOps(keys, deltaTime) == moves + (jumps + [Camera.JumpUpdate(deltaTime)]);
    Camera.StepsConcat(lib, s, moves, jumps + [Camera.JumpUpdate(deltaTime)]);
    MovesDispatch(keys, deltaTime);
    MovesKeepVertical(lib, s, moves);
    var m := Camera.Steps(lib, s, moves);
    Camera.StepsConcat(lib, m, jumps, [Camera.JumpUpdate(deltaTime)]);
  }

  /** Keyboard moves never change the height, the velocity or the jumping flag. */
  lemma {:induction false} MovesKeepVertical(lib: MathLib, s: Camera.CameraState, ops: seq<Camera.Operation>)
    requires forall op | op in ops :: op.KeyboardInput?
    ensures Camera.VerticalOf(Camera.Steps(lib, s, ops)) == Camera.VerticalOf(s)
    decreases |ops|
  {
    if ops != [] {
      assert ops[0] in ops;
      assert forall op | op in ops[1..] :: op in ops;
      MovesKeepVertical(lib, Camera.Step(lib, s, ops[0]), ops[1..]);
    }
  }

  /**
    Space takes effect in the frame it is held: a grounded camera at the ground
    height leaves the ground in that very frame, before the view is read, with the
    jump strength already reduced by one tick of gravity.
   */
  lemma JumpInSameFrame(lib: MathLib, s: Camera.CameraState, keys: Keys, deltaTime: real)
    requires !s.isJumping && s.position.y == Camera.GroundHeight && keys.space
    requires 0.0 < deltaTime < 0.5
    ensures var r := Camera.Steps(lib, s, FrameOps(keys, deltaTime));
      && r.isJumping
      && r.jumpVelocity == Camera.JumpStrength + Camera.Gravity * deltaTime
      && r.position.y > Camera.GroundHeight
  {
    FrameVertical(lib, s, keys, deltaTime);
    var velocity := Camera.JumpStrength + Camera.Gravity * deltaTime;
    MulPositive(velocity, deltaTime);
  }

  // ---------------------------------------------------------------------------

  /** main.cpp's globals as one value: the camera, the cursor tracking, the frame timer and the close flag. */
  datatype World = World(camera: Camera.CameraState, pointer: Pointer, deltaTime: real, lastFrame: real, shouldClose: bool)

  /** The frame part of a pass: the timer, processInput and updateJump; the view is read from its camera. */
  function FrameWorld(lib: MathLib, w: World, time: real, keys: Keys): World
  {
    var deltaTime := time - w.lastFrame;
    World(Camera.Steps(lib, w.camera, FrameOps(keys, deltaTime)), w.pointer,
          deltaTime, time, w.shouldClose || keys.escape)
  }

  /** The event part of a pass: each cursor event polled at the end of the frame. */
  function EventsWorld(lib: MathLib, w: World, events: seq<Cursor>): World
  {
    w.(camera := Camera.Steps(lib, w.camera, Turns(Offsets(w.pointer, events))), pointer := Feed(w.pointer, events))
  }

  /** The world after one pass of the frame loop. */
  function PassWorld(lib: MathLib, w: World, input: FrameInput): (r: World)
    ensures r.deltaTime == input.time - w.lastFrame && r.lastFrame == input.time
    ensures r.shouldClose == (w.shouldClose || input.keys.escape)
    ensures w.pointer.firstMouse || !r.pointer.firstMouse
  {
    EventsWorld(lib, FrameWorld(lib, w, input.time, input.keys), input.events)
  }

  /** The loop keeps the camera oriented and at or above the ground, whatever the input. */
  lemma {:induction false} PlayKeepsAboveGround(lib: MathLib, w: World, inputs: seq<FrameInput>)
    requires Camera.AboveGround(lib, w.camera)
    ensures Camera.AboveGround(lib, Play(lib, w, inputs).camera)
    decreases |inputs|
  {
    if !w.shouldClose && inputs != [] {
      var input := inputs[0];
      var framed := FrameWorld(lib, w, input.time, input.keys);
      Camera.StepsKeepAboveGround(lib, w.camera, FrameOps(input.keys, framed.deltaTime));
      Camera.StepsKeepAboveGround(lib, framed.camera, Turns(Offsets(w.pointer, input.events)));
      PlayKeepsAboveGround(lib, PassWorld(lib, w, input), inputs[1..]);
    }
  }

  /** The frame loop on a sequence of inputs: passes run while the window is open and input remains. */
  function Play(lib: MathLib, w: World, inputs: seq<FrameInput>): World
    decreases |inputs|
  {
    if w.shouldClose || inputs == [] then w else Play(lib, PassWorld(lib, w, inputs[0]), inputs[1..])
  }

  /**
    The view matrices the frame loop reads, one per pass that Play runs: each is
    taken after that frame's processInput and updateJump, before its cursor events.
   */
  function Views(lib: MathLib, w: World, inputs: seq<FrameInput>): (views: seq<Mat4>)
    ensures |views| <= |inputs|
    ensures views != [] ==> views[0] == Camera.ViewOf(lib, FrameWorld(lib, w, inputs[0].time, inputs[0].keys).camera)
    decreases |inputs|
  {
    if w.shouldClose || inputs == [] then []
    else
      var input := inputs[0];
      [Camera.ViewOf(lib, FrameWorld(lib, w, input.time, input.keys).camera)]
        + Views(lib, PassWorld(lib, w, input), inputs[1..])
  }

  /**
    One pass of the loop, taken from the world w reached after the first i
    frames, extends the frames run so far: Play and Views from the start equal
    the pass's world and views followed by the loop from frame i + 1.
   */
  lemma PassExtends(lib: MathLib, start: World, inputs: seq<FrameInput>, i: nat,
                    views: seq<Mat4>, w: World, view: Mat4, next: World)
    requires !w.shouldClose && i < |inputs|
    requires Play(lib, start, inputs) == Play(lib, w, inputs[i..])
    requires Views(lib, start, inputs) == views + Views(lib, w, inputs[i..])
    requires next == PassWorld(lib, w, inputs[i])
    requires view == Camera.ViewOf(lib, FrameWorld(lib, w, inputs[i].time, inputs[i].keys).camera)
    ensures Play(lib, start, inputs) == Play(lib, next, inputs[i + 1..])
    ensures Views(lib, start, inputs) == (views + [view]) + Views(lib, next, inputs[i + 1..])
  {
    var rest := inputs[i..];
    assert rest[0] == inputs[i] && rest[1..] == inputs[i + 1..];
    PlayUnfolds(lib, w, rest);
    ViewsUnfold(lib, w, rest);
    assert views + ([view] + Views(lib, next, rest[1..]))
        == (views + [view]) + Views(lib, next, rest[1..]);
  }

  /** While the window is open, Play takes one pass and continues with the rest. */
  lemma PlayUnfolds(lib: MathLib, w: World, rest: seq<FrameInput>)
    requires !w.shouldClose && rest != []
    ensures Play(lib, w, rest) == Play(lib, PassWorld(lib, w, rest[0]), rest[1..])
  {
  }

  /** While the window is open, Views reads one view and continues with the rest. */
  lemma ViewsUnfold(lib: MathLib, w: World, rest: seq<FrameInput>)
    requires !w.shouldClose && rest != []
    ensures Views(lib, w, rest)
         == [Camera.ViewOf(lib, FrameWorld(lib, w, rest[0].time, rest[0].keys).camera)]
            + Views(lib, PassWorld(lib, w, rest[0]), rest[1..])
  {
  }

  /** No frame before the n-th holds Escape. */
  ghost predicate NoEscapeBefore(inputs: seq<FrameInput>, n: nat)
    requires n <= |inputs|
  {
    forall j | 0 <= j < n :: !inputs[j].keys.escape
  }

  lemma NoEscapeExtend(inputs: seq<FrameInput>, n: nat)
    requires n < |inputs| && NoEscapeBefore(inputs, n) && !inputs[n].keys.escape
    ensures NoEscapeBefore(inputs, n + 1)
  {
  }

  /**
    What holds after the first n frames of the loop, started from the world
    start, have left the world w and returned views: no frame before the last
    held Escape, the close flag and timer come from the last frame, firstMouse
    is not set again, and the rest of the loop from w completes Play and Views.
   */
  ghost predicate Resumes(lib: MathLib, start: World, inputs: seq<FrameInput>, n: nat, views: seq<Mat4>, w: World)
  {
    && n <= |inputs| && |views| == n
    && (0 < n ==> NoEscapeBefore(inputs, n - 1))
    && w.shouldClose == (0 < n && inputs[n - 1].keys.escape)
    && (0 < n ==> w.lastFrame == inputs[n - 1].time)
    && (!start.pointer.firstMouse ==> !w.pointer.firstMouse)
    && Play(lib, start, inputs) == Play(lib, w, inputs[n..])
    && Views(lib, start, inputs) == views + Views(lib, w, inputs[n..])
  }

  /** Before any frame, the whole loop is still to come. */
  lemma ResumesAtStart(lib: MathLib, start: World, inputs: seq<FrameInput>)
    requires !start.shouldClose
    ensures Resumes(lib, start, inputs, 0, [], start)
  {
    assert inputs[0..] == inputs;
    assert [] + Views(lib, start, inputs) == Views(lib, start, inputs);
  }

  /** One more pass from an open window keeps Resumes, one frame further on. */
  lemma ResumesNext(lib: MathLib, start: World, inputs: seq<FrameInput>, i: nat,
                    views: seq<Mat4>, w: World, view: Mat4, next: World)
    requires Resumes(lib, start, inputs, i, views, w)
    requires !w.shouldClose && i < |inputs|
    requires next == PassWorld(lib, w, inputs[i])
    requires view == Camera.ViewOf(lib, FrameWorld(lib, w, inputs[i].time, inputs[i].keys).camera)
    ensures Resumes(lib, start, inputs, i + 1, views + [view], next)
  {
    if 0 < i {
      NoEscapeExtend(inputs, i - 1);
    }
    PassExtends(lib, start, inputs, i, views, w, view, next);
  }

  /** Once the window is closing or the inputs have run out, the loop from w has nothing left to add. */
  lemma ResumesDone(lib: MathLib, start: World, inputs: seq<FrameInput>, n: nat, views: seq<Mat4>, w: World)
    requires Resumes(lib, start, inputs, n, views, w)
    requires w.shouldClose || n == |inputs|
    ensures n < |inputs| ==> 0 < n && inputs[n - 1].keys.escape
    ensures w == Play(lib, start, inputs)
    ensures views == Views(lib, start, inputs)
  {
    if !w.shouldClose {
      assert inputs[n..] == [];
    }
  }

  /** One frame of input for the loop: the clock reading, the held keys, and the cursor events polled at its end. */
  datatype FrameInput = FrameInput(time: real, keys: Keys, events: seq<Cursor>)

  /** main.cpp's globals that the modelled code touches. */
  class Game {
    const camera: Camera.Camera
    var firstMouse: bool
    var lastX: real
    var lastY: real
    var deltaTime: real
    var lastFrame: real
    var shouldClose: bool

    function PointerState(): Pointer
      reads this
    {
      Pointer(firstMouse, lastX, lastY)
    }

    function Globals(): World
      reads this, camera
    {
      World(camera.State(), PointerState(), deltaTime, lastFrame, shouldClose)
    }

    /**
      The invariant main keeps: the camera's orientation invariant, its height at or
      above the ground, and no vertical velocity while not jumping.
     */
    ghost predicate Valid()
      reads this, camera
    {
      camera.Valid() && Camera.AboveGround(camera.lib, camera.State())
    }

    /** The globals as main.cpp initializes them, with the camera at (0, 2, 0). */
    constructor (lib: MathLib)
      ensures fresh(camera) && camera.lib == lib && Valid()
      ensures camera.State() == Camera.Initial(lib, Vec3(0.0, 2.0, 0.0), Vec3(0.0, 1.0, 0.0))
      ensures PointerState() == InitialPointer
      ensures deltaTime == 0.0 && lastFrame == 0.0 && !shouldClose
    {
      camera := new Camera.Camera(lib, Vec3(0.0, 2.0, 0.0));
      firstMouse := true;
      lastX := ScreenWidth as real / 2.0;
      lastY := ScreenHeight as real / 2.0;
      deltaTime := 0.0;
      lastFrame := 0.0;
      shouldClose := false;
    }

    /** mouse_callback: track the cursor and turn the camera by the offsets. */
    method MouseCallback(xpos: real, ypos: real)
      modifies this`firstMouse, this`lastX, this`lastY, camera
      ensures var t := Track(old(PointerState()), Cursor(xpos, ypos));
        && PointerState() == t.pointer
        && camera.State() == Camera.Step(camera.lib, old(camera.State()), Camera.MouseInput(t.offset.dx, t.offset.dy))
    {
      ghost var t := Track(PointerState(), Cursor(xpos, ypos));
      if firstMouse {
        lastX := xpos;
        lastY := ypos;
        firstMouse := false;
      }
      var xoffset := xpos - lastX;
      var yoffset := lastY - ypos;
      lastX := xpos;
      lastY := ypos;
      assert PointerState() == t.pointer && Offset(xoffset, yoffset) == t.offset;
      camera.ProcessMouseMovement(xoffset, yoffset);
    }

    /** processInput: one camera call per held key, and Escape asks the window to close. */
    method ProcessInput(keys: Keys)
      modifies this`shouldClose, camera
      ensures shouldClose == (old(shouldClose) || keys.escape)
      ensures camera.State() == Dispatched(camera.lib, old(camera.State()), keys, deltaTime)
    {
      if keys.escape {
        shouldClose := true;
      }
      Press(keys.w, Camera.KeyboardInput(Camera.Forward, deltaTime));
      Press(keys.s, Camera.KeyboardInput(Camera.Backward, deltaTime));
      Press(keys.d, Camera.KeyboardInput(Camera.Right, deltaTime));
      Press(keys.a, Camera.KeyboardInput(Camera.Left, deltaTime));
      Press(keys.space, Camera.JumpInput);
    }

    /** One key's branch of processInput: while the key is held, the camera call it maps to. */
    method Press(held: bool, op: Camera.Operation)
      modifies camera
      ensures camera.State() == Pressed(camera.lib, old(camera.State()), held, op)
    {
      if held {
        camera.Perform(op);
      }
    }

    /**
      The first part of one pass of the frame loop: read the clock, process the
      keys, advance the jump, and read the view matrix the frame is drawn with.
     */
    method Frame(currentFrame: real, keys: Keys) returns (view: Mat4)
      modifies this`deltaTime, this`lastFrame, this`shouldClose, camera
      ensures Globals() == FrameWorld(camera.lib, old(Globals()), currentFrame, keys)
      ensures view == Camera.ViewOf(camera.lib, camera.State())
    {
      deltaTime := currentFrame - lastFrame;
      lastFrame := currentFrame;
      ghost var start := camera.State();
      ProcessInput(keys);
      DispatchedRunsCommands(camera.lib, start, keys, deltaTime);
      Camera.StepsConcat(camera.lib, start, Commands(keys, deltaTime), [Camera.JumpUpdate(deltaTime)]);
      ghost var middle := camera.State();
      camera.UpdateJump(deltaTime);
      assert camera.State() == Camera.Steps(camera.lib, middle, [Camera.JumpUpdate(deltaTime)]);
      view := camera.GetViewMatrix();
    }

    /** glfwPollEvents at the end of a frame: each cursor event reaches mouse_callback in turn. */
    method PollEvents(events: seq<Cursor>)
      modifies this`firstMouse, this`lastX, this`lastY, camera
      ensures Globals() == EventsWorld(camera.lib, old(Globals()), events)
    {
      ghost var p0 := PointerState();
      ghost var s0 := camera.State();
      var i := 0;
      while i < |events|
        invariant 0 <= i <= |events|
        invariant PointerState() == Feed(p0, events[..i])
        invariant camera.State() == Camera.Steps(camera.lib, s0, Turns(Offsets(p0, events[..i])))
      {
        ghost var t := Track(PointerState(), events[i]);
        MouseCallback(events[i].x, events[i].y);
        FeedStep(p0, events, i);
        TurnsConcat(Offsets(p0, events[..i]), [t.offset]);
        Camera.StepsConcat(camera.lib, s0, Turns(Offsets(p0, events[..i])), Turns([t.offset]));
        i := i + 1;
      }
      assert events[..|events|] == events;
    }

    /** One pass of the frame loop: the frame itself, then the cursor events polled at its end. */
    method Pass(input: FrameInput) returns (view: Mat4)
      modifies this, camera
      ensures Globals() == PassWorld(camera.lib, old(Globals()), input)
      ensures view == Camera.ViewOf(camera.lib, FrameWorld(camera.lib, old(Globals()), input.time, input.keys).camera)
    {
      view := Frame(input.time, input.keys);
      PollEvents(input.events);
    }

    /**
      The while loop of main: frames run until Escape has been seen or the inputs
      run out, each reading the view after its input and jump update, then
      delivering its cursor events.
     */
    method FrameLoop(inputs: seq<FrameInput>) returns (frames: nat, views: seq<Mat4>)
      requires !shouldClose
      modifies this, camera
      ensures Resumes(camera.lib, old(Globals()), inputs, frames, views, Globals())
      ensures shouldClose || frames == |inputs|
    {
      ghost var start, lib := Globals(), camera.lib;
      ghost var w := start;
      frames, views := 0, [];
      ResumesAtStart(lib, start, inputs);
      while !shouldClose && frames < |inputs|
        invariant Globals() == w
        invariant Resumes(lib, start, inputs, frames, views, w)
        decreases |inputs| - frames
      {
        var view := Pass(inputs[frames]);
        ghost var next := PassWorld(lib, w, inputs[frames]);
        ResumesNext(lib, start, inputs, frames, views, w, view, next);
        w := next;
        views := views + [view];
        frames := frames + 1;
      }
    }

    /** main from the loop on: the frame loop, which keeps the camera's invariant. */
    method MainLoop(inputs: seq<FrameInput>) returns (frames: nat, views: seq<Mat4>)
      requires Valid() && !shouldClose
      modifies this, camera
      ensures Valid()
      ensures frames <= |inputs| && |views| == frames
      ensures 0 < frames ==> NoEscapeBefore(inputs, frames - 1)
      ensures frames < |inputs| ==> 0 < frames && inputs[frames - 1].keys.escape
      ensures shouldClose == (0 < frames && inputs[frames - 1].keys.escape)
      ensures 0 < frames ==> lastFrame == inputs[frames - 1].time
      ensures !old(firstMouse) ==> !firstMouse
      ensures Globals() == Play(camera.lib, old(Globals()), inputs)
      ensures views == Views(camera.lib, old(Globals()), inputs)
    {
      frames, views := FrameLoop(inputs);
      ResumesDone(camera.lib, old(Globals()), inputs, frames, views, Globals());
      PlayKeepsAboveGround(camera.lib, old(Globals()), inputs);
    }
  }

  /** Feeding one more event extends the pointer history and the offsets by that event's step. */
  lemma {:induction false} FeedStep(p: Pointer, events: seq<Cursor>, i: nat)
    requires i < |events|
    ensures var t := Track(Feed(p, events[..i]), events[i]);
      && Feed(p, events[..i + 1]) == t.pointer
      && Offsets(p, events[..i + 1]) == Offsets(p, events[..i]) + [t.offset]
    decreases i
  {
    var t := Track(p, events[0]);
    if i > 0 {
      FeedStep(t.pointer, events[1..], i - 1);
      assert events[..i + 1][1..] == events[1..][..i];
      assert events[..i][1..] == events[1..][..i - 1];
      assert events[1..][i - 1] == events[i];
    } else {
      assert events[..1][1..] == [];
    }
  }

  lemma {:induction false} TurnsConcat(a: seq<Offset>, b: seq<Offset>)
    ensures Turns(a + b) == Turns(a) + Turns(b)
    decreases |a|
  {
    if a == [] {
      assert a + b == b;
    } else {
      assert (a + b)[1..] == a[1..] + b;
      TurnsConcat(a[1..], b);
    }
  }
}
