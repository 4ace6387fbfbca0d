/**
  The first-person camera: orientation from yaw and pitch, level movement from
  the keyboard, and a one-axis jump under constant gravity.

  The pure functions below say what each operation does to a CameraState value;
  class Camera holds the same state in fields, and each of its methods is proved
  to change them exactly as the matching function says.
 */
module Camera {
  import opened Glm

  datatype Movement = Forward | Backward | Left | Right

  const MovementSpeed: real := 2.5
  const MouseSensitivity: real := 0.1
  const Gravity: real := -9.81
  const JumpStrength: real := 5.0
  /** The height at which a falling camera lands. */
  const GroundHeight: real := 2.0
  const PitchLimit: real := 89.0
  const DefaultYaw: real := -90.0
  const DefaultPitch: real := 0.0

  datatype Basis = Basis(front: Vec3, right: Vec3, up: Vec3)

  /** Everything the camera stores, as one value. */
  datatype CameraState = CameraState(
    position: Vec3,
    worldUp: Vec3,
    yaw: real,
    pitch: real,
    basis: Basis,
    isJumping: bool,
    jumpVelocity: real)

  /** The unnormalized look direction for the two angles, in degrees. */
  function Direction(lib: MathLib, yaw: real, pitch: real): Vec3
  {
    Vec3(lib.cos(Radians(yaw)) * lib.cos(Radians(pitch)),
         lib.sin(Radians(pitch)),
         lib.sin(Radians(yaw)) * lib.cos(Radians(pitch)))
  }

  /** What updateCameraVectors stores: front from the angles, then right, then up. */
  function CameraVectors(lib: MathLib, yaw: real, pitch: real, worldUp: Vec3): Basis
  {
    var front := Normalize(lib, Direction(lib, yaw, pitch));
    var right := Normalize(lib, Cross(front, worldUp));
    Basis(front, right, Normalize(lib, Cross(right, front)))
  }

  /** The pitch saturated to [-89, 89], as the two guards in processMouseMovement do it. */
  function ClampPitch(p: real): (r: real)
    ensures -PitchLimit <= r <= PitchLimit
    ensures -PitchLimit <= p <= PitchLimit ==> r == p
    ensures p > PitchLimit ==> r == PitchLimit
    ensures p < -PitchLimit ==> r == -PitchLimit
  {
    var capped := if p > PitchLimit then PitchLimit else p;
    if capped < -PitchLimit then -PitchLimit else capped
  }

  /** The orientation invariant: pitch within its limits and the basis derived from the angles. */
  ghost predicate Oriented(lib: MathLib, s: CameraState)
  {
    && -PitchLimit <= s.pitch <= PitchLimit
    && s.basis == CameraVectors(lib, s.yaw, s.pitch, s.worldUp)
  }

  function Initial(lib: MathLib, position: Vec3, worldUp: Vec3): CameraState
  {
    CameraState(position, worldUp, DefaultYaw, DefaultPitch,
                CameraVectors(lib, DefaultYaw, DefaultPitch, worldUp), false, 0.0)
  }

  /** The vector processKeyboard normalizes: front or right, signed, with its y set to zero. */
  function MoveDirection(b: Basis, direction: Movement): (m: Vec3)
    ensures m.y == 0.0
  {
    var v := match direction
      case Forward => Add(Zero, b.front)
      case Backward => Sub(Zero, b.front)
      case Right => Add(Zero, b.right)
      case Left => Sub(Zero, b.right);
    v.(y := 0.0)
  }

  function AfterKeyboard(lib: MathLib, s: CameraState, direction: Movement, deltaTime: real): CameraState
  {
    var step := Scale(Normalize(lib, MoveDirection(s.basis, direction)), MovementSpeed * deltaTime);
    s.(position := Add(s.position, step))
  }

  function AfterMouseMovement(lib: MathLib, s: CameraState, xoffset: real, yoffset: real): CameraState
  {
    var yaw := s.yaw + xoffset * MouseSensitivity;
    var pitch := ClampPitch(s.pitch + yoffset * MouseSensitivity);
    s.(yaw := yaw, pitch := pitch, basis := CameraVectors(lib, yaw, pitch, s.worldUp))
  }

  /** The view matrix getViewMatrix returns: looking from the position one step along front. */
  function ViewOf(lib: MathLib, s: CameraState): Mat4
  {
    lib.lookAt(s.position, Add(s.position, s.basis.front), s.basis.up)
  }

  // ---------------------------------------------------------------------------
  // Vertical kinematics: grounded (not jumping) or airborne (jumping).

  datatype Vertical = Vertical(y: real, velocity: real, jumping: bool)

  function VerticalOf(s: CameraState): Vertical
  {
    Vertical(s.position.y, s.jumpVelocity, s.isJumping)
  }

  function WithVertical(s: CameraState, v: Vertical): CameraState
  {
    s.(position := s.position.(y := v.y), jumpVelocity := v.velocity, isJumping := v.jumping)
  }

  /** jump(): launches only from the ground; in the air it changes nothing. */
  function Launch(v: Vertical): (r: Vertical)
    ensures !v.jumping ==> r == Vertical(v.y, JumpStrength, true)
    ensures v.jumping ==> r == v
  {
    if v.jumping then v else v.(jumping := true, velocity := JumpStrength)
  }

  /**
    updateJump(dt): one explicit Euler step while airborne, velocity first and then
    height; at or below the ground the camera lands there at rest.
   */
  function Tick(v: Vertical, deltaTime: real): (r: Vertical)
    ensures !v.jumping ==> r == v
    ensures v.jumping ==>
      var velocity := v.velocity + Gravity * deltaTime;
      var y := v.y + velocity * deltaTime;
      if y <= GroundHeight then r == Vertical(GroundHeight, 0.0, false)
      else r == Vertical(y, velocity, true)
    ensures r.jumping ==> r.y > GroundHeight
    ensures v.jumping ==> r.y >= GroundHeight
  {
    if !v.jumping then v
    else
      var velocity := v.velocity + Gravity * deltaTime;
      var y := v.y + velocity * deltaTime;
      if y <= GroundHeight then Vertical(GroundHeight, 0.0, false)
      else Vertical(y, velocity, true)
  }

  function AfterJump(s: CameraState): CameraState
  {
    WithVertical(s, Launch(VerticalOf(s)))
  }

  function AfterUpdateJump(s: CameraState, deltaTime: real): CameraState
  {
    WithVertical(s, Tick(VerticalOf(s), deltaTime))
  }

  /** n successive updateJump(dt) calls. */
  function Run(v: Vertical, deltaTime: real, n: nat): Vertical
    decreases n
  {
    if n == 0 then v else Run(Tick(v, deltaTime), deltaTime, n - 1)
  }

  // ---------------------------------------------------------------------------
  // The public operations of the camera, as one datatype.

  datatype Operation =
    | KeyboardInput(direction: Movement, deltaTime: real)
    | MouseInput(xoffset: real, yoffset: real)
    | JumpInput
    | JumpUpdate(deltaTime: real)

  function Step(lib: MathLib, s: CameraState, op: Operation): CameraState
  {
    match op
    case KeyboardInput(direction, deltaTime) => AfterKeyboard(lib, s, direction, deltaTime)
    case MouseInput(xoffset, yoffset) => AfterMouseMovement(lib, s, xoffset, yoffset)
    case JumpInput => AfterJump(s)
    case JumpUpdate(deltaTime) => AfterUpdateJump(s, deltaTime)
  }

  function Steps(lib: MathLib, s: CameraState, ops: seq<Operation>): CameraState
    decreases |ops|
  {
    if ops == [] then s else Steps(lib, Step(lib, s, ops[0]), ops[1..])
  }

  // ---------------------------------------------------------------------------
  // Orientation

  /** processMouseMovement: yaw moves freely, pitch saturates, the basis follows the angles. */
  lemma MouseMovementOrients(lib: MathLib, s: CameraState, xoffset: real, yoffset: real)
    ensures var r := AfterMouseMovement(lib, s, xoffset, yoffset);
      && Oriented(lib, r)
      && r.yaw == s.yaw + xoffset * MouseSensitivity
      && (-PitchLimit <= s.pitch + yoffset * MouseSensitivity <= PitchLimit ==>
            r.pitch == s.pitch + yoffset * MouseSensitivity)
      && (s.pitch + yoffset * MouseSensitivity > PitchLimit ==> r.pitch == PitchLimit)
      && (s.pitch + yoffset * MouseSensitivity < -PitchLimit ==> r.pitch == -PitchLimit)
      && r.position == s.position && VerticalOf(r) == VerticalOf(s)
  {
  }

  /** Cosine of a pitch within the limits is positive, so the look direction never turns vertical. */
  lemma CosPitchPositive(lib: MathLib, pitch: real)
    requires Sound(lib) && -PitchLimit <= pitch <= PitchLimit
    ensures 0.0 < lib.cos(Radians(pitch))
  {
    assert -BelowQuarterTurn <= Radians(pitch) <= BelowQuarterTurn;
  }

  /** The look direction has a horizontal part. */
  lemma DirectionIsNotVertical(lib: MathLib, yaw: real, pitch: real)
    requires Sound(lib) && -PitchLimit <= pitch <= PitchLimit
    ensures Direction(lib, yaw, pitch).x != 0.0 || Direction(lib, yaw, pitch).z != 0.0
  {
    var cp := lib.cos(Radians(pitch));
    var cy, sy := lib.cos(Radians(yaw)), lib.sin(Radians(yaw));
    CosPitchPositive(lib, pitch);
    assert sy * sy + cy * cy == 1.0;
    if cy != 0.0 {
      MulNonZero(cy, cp);
    } else {
      assert sy != 0.0;
      MulNonZero(sy, cp);
    }
  }

  /** Scaling by a positive factor keeps a horizontal part. */
  lemma ScaleKeepsLevelPart(v: Vec3, k: real)
    requires v.x != 0.0 || v.z != 0.0
    requires 0.0 < k
    ensures Scale(v, k).x != 0.0 || Scale(v, k).z != 0.0
  {
    if v.x != 0.0 {
      MulNonZero(v.x, k);
    } else {
      MulNonZero(v.z, k);
    }
  }

  ghost predicate VerticalAxis(u: Vec3)
  {
    u.x == 0.0 && u.z == 0.0 && u.y != 0.0
  }

  /** The front vector of a clamped pitch has a horizontal part. */
  lemma FrontIsNotVertical(lib: MathLib, yaw: real, pitch: real)
    requires Sound(lib) && -PitchLimit <= pitch <= PitchLimit
    ensures var front := Normalize(lib, Direction(lib, yaw, pitch));
      front.x != 0.0 || front.z != 0.0
  {
    var d := Direction(lib, yaw, pitch);
    DirectionIsNotVertical(lib, yaw, pitch);
    NormalizeIsUnit(lib, d);
    ScaleKeepsLevelPart(d, lib.inverseSqrt(Dot(d, d)));
  }

  /** Crossing a vector with a horizontal part and a vertical axis gives a horizontal vector other than zero. */
  lemma RightIsLevel(lib: MathLib, front: Vec3, worldUp: Vec3)
    requires Sound(lib) && VerticalAxis(worldUp)
    requires front.x != 0.0 || front.z != 0.0
    ensures var right := Normalize(lib, Cross(front, worldUp));
      right.y == 0.0 && (right.x != 0.0 || right.z != 0.0)
  {
    var c := Cross(front, worldUp);
    assert c == Vec3(0.0 - front.z * worldUp.y, 0.0, front.x * worldUp.y);
    if front.x != 0.0 {
      MulNonZero(front.x, worldUp.y);
    } else {
      MulNonZero(front.z, worldUp.y);
    }
    NormalizeIsUnit(lib, c);
    ScaleKeepsLevelPart(c, lib.inverseSqrt(Dot(c, c)));
  }

  /**
    With the pitch clamped and worldUp along the y axis, each of the four movement
    directions has a horizontal part, so processKeyboard never normalizes zero.
   */
  lemma MoveDirectionNonZero(lib: MathLib, s: CameraState, direction: Movement)
    requires Sound(lib) && Oriented(lib, s) && VerticalAxis(s.worldUp)
    ensures MoveDirection(s.basis, direction) != Zero
  {
    FrontIsNotVertical(lib, s.yaw, s.pitch);
    RightIsLevel(lib, s.basis.front, s.worldUp);
  }

  /**
    For c = front x (0, a, 0), the y component of c x front, scaled by a, is the
    squared length of c.
   */
  lemma CrossWithAxisBack(front: Vec3, a: real)
    ensures var c := Cross(front, Vec3(0.0, a, 0.0));
      a * Cross(c, front).y == Dot(c, c)
  {
    var c := Cross(front, Vec3(0.0, a, 0.0));
    var p, q := front.x * a, front.z * a;
    assert c == Vec3(0.0 - q, 0.0, p);
    assert Cross(c, front).y == p * front.x + q * front.z;
    assert a * Cross(c, front).y == a * (p * front.x) + a * (q * front.z);
    assert a * (p * front.x) == p * p;
    assert a * (q * front.z) == q * q;
    NegatedSquare(q);
    assert Dot(c, c) == q * q + p * p;
  }

  /** Negation does not change a square. */
  lemma NegatedSquare(q: real)
    ensures (0.0 - q) * (0.0 - q) == q * q
  {
  }

  /** The y component of a cross product is linear in its first argument. */
  lemma CrossScaleLeftY(c: Vec3, f: Vec3, k: real)
    ensures Cross(Scale(c, k), f).y == Cross(c, f).y * k
  {
    ScaledDifference(c.z, f.x, c.x, f.z, k);
  }

  /** One component of a cross product whose left factor is scaled by k. */
  lemma ScaledDifference(a: real, b: real, d: real, e: real, k: real)
    ensures (a * k) * b - (d * k) * e == (a * b - d * e) * k
  {
  }

  /** A factor of a non-zero product is not zero. */
  lemma FactorNonZero(a: real, y: real, d: real)
    requires a * y == d && d != 0.0
    ensures y != 0.0
  {
  }

  /** updateCameraVectors' right is a positive multiple of a non-zero front x worldUp. */
  lemma RightIsScaledCross(lib: MathLib, front: Vec3, worldUp: Vec3)
    requires Sound(lib) && VerticalAxis(worldUp)
    requires front.x != 0.0 || front.z != 0.0
    ensures var c := Cross(front, worldUp);
      && Dot(c, c) != 0.0
      && 0.0 < lib.inverseSqrt(Dot(c, c))
      && Normalize(lib, c) == Scale(c, lib.inverseSqrt(Dot(c, c)))
  {
    var c := Cross(front, worldUp);
    assert c.y == 0.0 && c.x == 0.0 - front.z * worldUp.y && c.z == front.x * worldUp.y;
    if front.x != 0.0 {
      MulNonZero(front.x, worldUp.y);
    } else {
      MulNonZero(front.z, worldUp.y);
    }
    NormalizeIsUnit(lib, c);
  }

  /**
    With the pitch clamped and worldUp along the y axis, the vector that
    updateCameraVectors normalizes into up, right crossed with front, is not
    zero: so none of the three normalizations there is applied to zero.
   */
  lemma UpIsDefined(lib: MathLib, s: CameraState)
    requires Sound(lib) && Oriented(lib, s) && VerticalAxis(s.worldUp)
    ensures Cross(s.basis.right, s.basis.front) != Zero
  {
    FrontIsNotVertical(lib, s.yaw, s.pitch);
    assert s.basis.right == Normalize(lib, Cross(s.basis.front, s.worldUp));
    RightCrossFrontNonZero(lib, s.basis.front, s.worldUp);
  }

  /** For a front with a horizontal part and a vertical worldUp, right x front is not zero. */
  lemma RightCrossFrontNonZero(lib: MathLib, f: Vec3, worldUp: Vec3)
    requires Sound(lib) && VerticalAxis(worldUp)
    requires f.x != 0.0 || f.z != 0.0
    ensures Cross(Normalize(lib, Cross(f, worldUp)), f) != Zero
  {
    var a := worldUp.y;
    RightIsScaledCross(lib, f, worldUp);
    assert worldUp == Vec3(0.0, a, 0.0);
    var c := Cross(f, worldUp);
    var k := lib.inverseSqrt(Dot(c, c));
    CrossWithAxisBack(f, a);
    FactorNonZero(a, Cross(c, f).y, Dot(c, c));
    CrossScaleLeftY(c, f, k);
    MulNonZero(Cross(c, f).y, k);
  }

  /**
    processKeyboard moves the camera by a horizontal unit vector times
    movementSpeed * deltaTime and changes nothing else.
   */
  lemma KeyboardMovesLevel(lib: MathLib, s: CameraState, direction: Movement, deltaTime: real)
    requires Sound(lib) && Oriented(lib, s) && VerticalAxis(s.worldUp)
    ensures var u := Normalize(lib, MoveDirection(s.basis, direction));
      && u.y == 0.0 && Dot(u, u) == 1.0
      && AfterKeyboard(lib, s, direction, deltaTime)
         == s.(position := Add(s.position, Scale(u, MovementSpeed * deltaTime)))
  {
    MoveDirectionNonZero(lib, s, direction);
    NormalizeIsUnit(lib, MoveDirection(s.basis, direction));
  }

  /**
    The horizontal part of front and right are perpendicular: right is a positive
    multiple of front crossed with the vertical world up.
   */
  lemma ForwardPerpendicularToRight(lib: MathLib, b: Basis, worldUp: Vec3)
    requires VerticalAxis(worldUp) && b.right == Normalize(lib, Cross(b.front, worldUp))
    ensures Dot(Normalize(lib, MoveDirection(b, Forward)), Normalize(lib, MoveDirection(b, Right))) == 0.0
  {
    var f := b.front;
    var mf := MoveDirection(b, Forward);
    var mr := MoveDirection(b, Right);
    var cross := Cross(f, worldUp);
    var k := lib.inverseSqrt(Dot(cross, cross));
    assert mf == Vec3(f.x, 0.0, f.z);
    assert mr == Vec3((0.0 - f.z * worldUp.y) * k, 0.0, f.x * worldUp.y * k);
    assert Dot(mf, mr) == 0.0;
    DotScale(mf, mr, lib.inverseSqrt(Dot(mf, mf)), lib.inverseSqrt(Dot(mr, mr)));
  }

  /** cos(0) is 1: it is positive and its square is 1 because sin(0) is 0. */
  lemma CosZero(lib: MathLib)
    requires Sound(lib)
    ensures lib.cos(0.0) == 1.0
  {
    var c := lib.cos(0.0);
    assert lib.sin(0.0) * lib.sin(0.0) + c * c == 1.0;
    assert 0.0 < c;
    if c != 1.0 {
      MulNonZero(c - 1.0, c + 1.0);
    }
  }

  /** At yaw 0 and pitch 0 the camera looks along +x. */
  lemma FrontAtZeroAngles(lib: MathLib)
    requires Sound(lib)
    ensures Normalize(lib, Direction(lib, 0.0, 0.0)) == Vec3(1.0, 0.0, 0.0)
  {
    CosZero(lib);
    assert Radians(0.0) == 0.0;
    assert Direction(lib, 0.0, 0.0) == Vec3(1.0, 0.0, 0.0);
    NormalizeUnitX(lib);
  }

  /** From the default yaw of -90, a horizontal offset of 900 pixels turns the camera to look along +x. */
  lemma QuarterTurnLooksAlongX(lib: MathLib, position: Vec3, worldUp: Vec3)
    requires Sound(lib)
    ensures var r := AfterMouseMovement(lib, Initial(lib, position, worldUp), 900.0, 0.0);
      r.yaw == 0.0 && r.pitch == 0.0 && r.basis.front == Vec3(1.0, 0.0, 0.0)
  {
    var r := AfterMouseMovement(lib, Initial(lib, position, worldUp), 900.0, 0.0);
    assert r.yaw == 0.0 && r.pitch == 0.0;
    assert r.basis == CameraVectors(lib, 0.0, 0.0, worldUp);
    FrontAtZeroAngles(lib);
  }

  // ---------------------------------------------------------------------------
  // Vertical kinematics

  /** Airborne with a positive time step, the velocity strictly decreases. */
  lemma AirborneVelocityFalls(v: Vertical, deltaTime: real)
    requires v.jumping && 0.0 < deltaTime && Tick(v, deltaTime).jumping
    ensures Tick(v, deltaTime).velocity < v.velocity
  {
    MulMonotone(0.0, deltaTime, 9.81);
  }

  /** The velocity an airborne tick of length deltaTime removes. */
  function Drop(deltaTime: real): real { -Gravity * deltaTime }

  /** Once the velocity is not positive, each airborne tick lowers the camera by at least Drop(dt) * dt. */
  lemma {:induction false} Descends(v: Vertical, deltaTime: real, height: nat)
    requires v.jumping && 0.0 < deltaTime && v.velocity <= 0.0
    requires v.y - GroundHeight <= height as real * (Drop(deltaTime) * deltaTime)
    ensures exists n: nat :: !Run(v, deltaTime, n).jumping
    decreases height
  {
    var next := Tick(v, deltaTime);
    var velocity := v.velocity + Gravity * deltaTime;
    assert velocity <= -Drop(deltaTime);
    MulMonotone(velocity, -Drop(deltaTime), deltaTime);
    MulPositive(Drop(deltaTime), deltaTime);
    assert next.jumping ==> next.y <= v.y - Drop(deltaTime) * deltaTime;
    assert Run(v, deltaTime, 1) == next;
    if next.jumping {
      assert 0 < height;
      assert next.y - GroundHeight <= (height - 1) as real * (Drop(deltaTime) * deltaTime);
      Descends(next, deltaTime, height - 1);
      var n: nat :| !Run(next, deltaTime, n).jumping;
      assert Run(v, deltaTime, n + 1) == Run(next, deltaTime, n);
    }
  }

  /** The number of whole units that cover an amount. */
  function Cover(amount: real, unit: real): (n: nat)
    requires 0.0 < unit
    ensures amount <= n as real * unit
  {
    if amount <= 0.0 then 0
    else
      var q := amount / unit;
      assert q * unit == amount;
      var f := q.Floor + 1;
      MulMonotone(q, f as real, unit);
      f
  }

  /** While rising, each tick removes Drop(dt) of velocity, so the rise ends after finitely many ticks. */
  lemma {:induction false} Rises(v: Vertical, deltaTime: real, rise: nat)
    requires v.jumping && 0.0 < deltaTime
    requires v.velocity <= rise as real * Drop(deltaTime)
    ensures exists n: nat :: !Run(v, deltaTime, n).jumping
    decreases rise
  {
    if v.velocity <= 0.0 {
      MulPositive(Drop(deltaTime), deltaTime);
      Descends(v, deltaTime, Cover(v.y - GroundHeight, Drop(deltaTime) * deltaTime));
    } else {
      var next := Tick(v, deltaTime);
      assert Run(v, deltaTime, 1) == next;
      if next.jumping {
        assert 0 < rise;
        Rises(next, deltaTime, rise - 1);
        var n: nat :| !Run(next, deltaTime, n).jumping;
        assert Run(v, deltaTime, n + 1) == Run(next, deltaTime, n);
      }
    }
  }

  /** Every jump ends: with a positive time step the camera is back on the ground after finitely many ticks. */
  lemma Lands(v: Vertical, deltaTime: real)
    requires 0.0 < deltaTime
    ensures exists n: nat :: !Run(v, deltaTime, n).jumping
    ensures v.jumping ==> exists n: nat :: Run(v, deltaTime, n) == Vertical(GroundHeight, 0.0, false)
  {
    if !v.jumping {
      assert Run(v, deltaTime, 0) == v;
    } else {
      Rises(v, deltaTime, Cover(v.velocity, Drop(deltaTime)));
      var n: nat :| !Run(v, deltaTime, n).jumping;
      RunKeepsLandedOrJumping(v, deltaTime, n);
    }
  }

  /** Updates keep a jump either in the air or landed at the ground at rest: no other resting state is reached. */
  lemma {:induction false} RunKeepsLandedOrJumping(v: Vertical, deltaTime: real, n: nat)
    requires v.jumping || v == Vertical(GroundHeight, 0.0, false)
    ensures Run(v, deltaTime, n).jumping || Run(v, deltaTime, n) == Vertical(GroundHeight, 0.0, false)
    decreases n
  {
    if n > 0 {
      RunKeepsLandedOrJumping(Tick(v, deltaTime), deltaTime, n - 1);
    }
  }

  /**
    From the ground at y = 2, a jump ticked every 0.1 s rises to a peak after five
    ticks, falls, and lands on the tenth tick exactly at y = 2 with zero velocity.
   */
  lemma JumpArc()
    ensures var start := Launch(Vertical(GroundHeight, 0.0, false));
      && (forall k :: 1 <= k <= 9 ==> Run(start, 0.1, k).jumping && Run(start, 0.1, k).y > GroundHeight)
      && Run(start, 0.1, 4).y < Run(start, 0.1, 5).y
      && Run(start, 0.1, 6).y < Run(start, 0.1, 5).y
      && Run(start, 0.1, 10) == Vertical(GroundHeight, 0.0, false)
  {
  }

  // ---------------------------------------------------------------------------
  // Invariants over any sequence of operations

  /** The invariant main relies on: oriented, and never below the ground once at or above it. */
  ghost predicate AboveGround(lib: MathLib, s: CameraState)
  {
    && Oriented(lib, s)
    && s.position.y >= GroundHeight
    && (!s.isJumping ==> s.jumpVelocity == 0.0)
  }

  lemma StepKeepsAboveGround(lib: MathLib, s: CameraState, op: Operation)
    requires AboveGround(lib, s)
    ensures AboveGround(lib, Step(lib, s, op))
  {
  }

  /** Starting at or above the ground with the orientation invariant, every operation sequence keeps both. */
  lemma {:induction false} StepsKeepAboveGround(lib: MathLib, s: CameraState, ops: seq<Operation>)
    requires AboveGround(lib, s)
    ensures AboveGround(lib, Steps(lib, s, ops))
    decreases |ops|
  {
    if ops != [] {
      StepKeepsAboveGround(lib, s, ops[0]);
      StepsKeepAboveGround(lib, Step(lib, s, ops[0]), ops[1..]);
    }
  }

  /** Running two operation sequences one after the other is running their concatenation. */
  lemma {:induction false} StepsConcat(lib: MathLib, s: CameraState, first: seq<Operation>, second: seq<Operation>)
    ensures Steps(lib, s, first + second) == Steps(lib, Steps(lib, s, first), second)
    decreases |first|
  {
    if first == [] {
      assert first + second == second;
    } else {
      assert (first + second)[1..] == first[1..] + second;
      StepsConcat(lib, Step(lib, s, first[0]), first[1..], second);
    }
  }

  /** The four movement keys commute: processKeyboard leaves the basis alone and adds to the position. */
  lemma KeyboardOrderIrrelevant(lib: MathLib, s: CameraState, d1: Movement, d2: Movement, deltaTime: real)
    ensures AfterKeyboard(lib, AfterKeyboard(lib, s, d1, deltaTime), d2, deltaTime)
         == AfterKeyboard(lib, AfterKeyboard(lib, s, d2, deltaTime), d1, deltaTime)
  {
  }

  // ---------------------------------------------------------------------------

  class Camera {
    const lib: MathLib
    const worldUp: Vec3
    var position: Vec3
    var front: Vec3
    var up: Vec3
    var right: Vec3
    var yaw: real
    var pitch: real
    var isJumping: bool
    var jumpVelocity: real

    function State(): CameraState
      reads this
    {
      CameraState(position, worldUp, yaw, pitch, Basis(front, right, up), isJumping, jumpVelocity)
    }

    ghost predicate Valid()
      reads this
    {
      Oriented(lib, State())
    }

    constructor (lib: MathLib, position: Vec3 := Zero, worldUp: Vec3 := Vec3(0.0, 1.0, 0.0))
      ensures this.lib == lib && Valid()
      ensures State() == Initial(lib, position, worldUp)
    {
      this.lib := lib;
      this.worldUp := worldUp;
      this.position := position;
      front := Vec3(0.0, 0.0, -1.0);
      up := Zero;
      right := Zero;
      yaw := DefaultYaw;
      pitch := DefaultPitch;
      isJumping := false;
      jumpVelocity := 0.0;
      new;
      UpdateCameraVectors();
    }

    function GetViewMatrix(): (m: Mat4)
      reads this
      ensures m == ViewOf(lib, State())
    {
      lib.lookAt(position, Add(position, front), up)
    }

    function GetPosition(): (p: Vec3)
      reads this
      ensures p == State().position
    {
      position
    }

    function GetFront(): (f: Vec3)
      reads this
      ensures f == State().basis.front
    {
      front
    }

    method ProcessKeyboard(direction: Movement, deltaTime: real)
      modifies this`position
      ensures State() == AfterKeyboard(lib, old(State()), direction, deltaTime)
      ensures position.y == old(position.y)
    {
      var cameraSpeed := MovementSpeed * deltaTime;
      var moveDirection := Zero;
      if direction == Forward {
        moveDirection := Add(moveDirection, front);
      }
      if direction == Backward {
        moveDirection := Sub(moveDirection, front);
      }
      if direction == Right {
        moveDirection := Add(moveDirection, right);
      }
      if direction == Left {
        moveDirection := Sub(moveDirection, right);
      }
      moveDirection := moveDirection.(y := 0.0);
      position := Add(position, Scale(Normalize(lib, moveDirection), cameraSpeed));
    }

    method ProcessMouseMovement(xoffset: real, yoffset: real)
      modifies this`yaw, this`pitch, this`front, this`right, this`up
      ensures State() == AfterMouseMovement(lib, old(State()), xoffset, yoffset)
      ensures Valid()
    {
      ghost var target := AfterMouseMovement(lib, State(), xoffset, yoffset);
      var dx := xoffset * MouseSensitivity;
      var dy := yoffset * MouseSensitivity;
      yaw := yaw + dx;
      pitch := pitch + dy;
      if pitch > PitchLimit {
        pitch := PitchLimit;
      }
      if pitch < -PitchLimit {
        pitch := -PitchLimit;
      }
      assert yaw == target.yaw && pitch == target.pitch;
      UpdateCameraVectors();
    }

    method Jump()
      modifies this`isJumping, this`jumpVelocity
      ensures State() == AfterJump(old(State()))
    {
      if !isJumping {
        isJumping := true;
        jumpVelocity := JumpStrength;
      }
    }

    method UpdateJump(deltaTime: real)
      modifies this`jumpVelocity, this`position, this`isJumping
      ensures State() == AfterUpdateJump(old(State()), deltaTime)
    {
      if isJumping {
        jumpVelocity := jumpVelocity + Gravity * deltaTime;
        position := position.(y := position.y + jumpVelocity * deltaTime);
        if position.y <= GroundHeight {
          position := position.(y := GroundHeight);
          isJumping := false;
          jumpVelocity := 0.0;
        }
      }
    }

    /** Performs one public operation, as main.cpp's callers do. */
    method Perform(op: Operation)
      modifies this
      ensures State() == Step(lib, old(State()), op)
    {
      match op {
        case KeyboardInput(direction, deltaTime) => ProcessKeyboard(direction, deltaTime);
        case MouseInput(xoffset, yoffset) => ProcessMouseMovement(xoffset, yoffset);
        case JumpInput => Jump();
        case JumpUpdate(deltaTime) => UpdateJump(deltaTime);
      }
    }

    method UpdateCameraVectors()
      modifies this`front, this`right, this`up
      ensures Basis(front, right, up) == CameraVectors(lib, yaw, pitch, worldUp)
    {
      var direction := Vec3(lib.cos(Radians(yaw)) * lib.cos(Radians(pitch)),
                            lib.sin(Radians(pitch)),
                            lib.sin(Radians(yaw)) * lib.cos(Radians(pitch)));
      assert direction == Direction(lib, yaw, pitch);
      front := Normalize(lib, direction);
      right := Normalize(lib, Cross(front, worldUp));
      up := Normalize(lib, Cross(right, front));
    }
  }
}
