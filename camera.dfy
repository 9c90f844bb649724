/** XGL::Camera (src/Camera/Camera.h, src/Core/Camera/Camera.cpp): a camera with
    a current and a target value for its position, its Euler angles and its field
    of view, each with its own smoothing constant. The setters and the move,
    rotate and zoom operations change only target values (and the lens
    settings); update(deltaT) blends every current value toward its target and
    recomputes the view and projection matrices.

    The trigonometric functions and the two matrix builders View::euler and
    Projection::perspFov are not modelled here; they are supplied to the camera
    as uninterpreted functions (ExternalMath), so what is proved holds for any
    sin, cos, tan, atan and any euler and perspFov. Floats are reals. */
module CameraModel {
  import opened Tool
  import opened Vectors
  import opened Matrices
  import opened Outcomes

  /** The functions the camera calls but does not define. */
  datatype ExternalMath = ExternalMath(
    sin: real -> real,
    cos: real -> real,
    tan: real -> real,
    atan: real -> real,
    euler: (Vec3, real, real, real) -> Mat4,
    perspFov: (real, real, real, real) -> Mat4)

  // Applying the external functions (no heap is involved).
  function Sin(m: ExternalMath, x: real): real { m.sin(x) }
  function Cos(m: ExternalMath, x: real): real { m.cos(x) }
  function Tan(m: ExternalMath, x: real): real { m.tan(x) }
  function Atan(m: ExternalMath, x: real): real { m.atan(x) }
  function Euler(m: ExternalMath, p: Vec3, a: real, b: real, c: real): Mat4 { m.euler(p, a, b, c) }
  function PerspFov(m: ExternalMath, a: real, b: real, c: real, d: real): Mat4 { m.perspFov(a, b, c, d) }

  /** The error setAspect throws. */
  datatype CameraError = InvalidSetValue

  // ---- ranges ----

  const PITCH_MAX: real := PI / 2.0
  const FOV_MIN: real := PI / 18.0
  const FOV_MAX: real := 2.0 * PI / 3.0

  predicate PitchInRange(p: real) {
    -PITCH_MAX <= p <= PITCH_MAX
  }

  predicate FovInRange(f: real) {
    FOV_MIN <= f <= FOV_MAX
  }

  /** `x > hi ? hi : x < lo ? lo : x`: the value in [lo, hi] nearest to x. */
  function Clamp(x: real, lo: real, hi: real): (r: real)
    requires lo <= hi
    ensures lo <= r <= hi
    ensures lo <= x <= hi <==> r == x
    ensures x > hi ==> r == hi
    ensures x < lo ==> r == lo
  {
    if x > hi then hi else if x < lo then lo else x
  }

  /** Clamping a value already clamped changes nothing. */
  lemma ClampIdempotent(x: real, lo: real, hi: real)
    requires lo <= hi
    ensures Clamp(Clamp(x, lo, hi), lo, hi) == Clamp(x, lo, hi)
  {
  }

  /** Clamping never reverses the order of two values. */
  lemma ClampMonotone(x: real, y: real, lo: real, hi: real)
    requires lo <= hi && x <= y
    ensures Clamp(x, lo, hi) <= Clamp(y, lo, hi)
  {
  }

  /** A smoothing constant below 0 is stored as 0. */
  function NonNegative(factor: real): (s: real)
    ensures s >= 0.0
    ensures factor >= 0.0 ==> s == factor
    ensures factor < 0.0 ==> s == 0.0
  {
    if factor < 0.0 then 0.0 else factor
  }

  // ---- exponential smoothing ----

  /** k = 1 / (1 + s / deltaT): in (0, 1], and 1 exactly when there is no
      smoothing. */
  function SmoothingFactor(s: real, deltaT: real): (k: real)
    requires s >= 0.0 && deltaT > 0.0
    ensures 0.0 < k <= 1.0
    ensures k == 1.0 <==> s == 0.0
  {
    var q := s / deltaT;
    assert q >= 0.0 && (q == 0.0 <==> s == 0.0) by {
      assert q * deltaT == s;
    }
    assert 1.0 / (1.0 + q) * (1.0 + q) == 1.0;
    1.0 / (1.0 + q)
  }

  /** target * k + current * (1 - k): a value between current and target, and
      the target itself when k is 1. */
  function Blend(target: real, current: real, k: real): (r: real)
    requires 0.0 < k <= 1.0
    ensures current <= target ==> current <= r <= target
    ensures target <= current ==> target <= r <= current
    ensures k == 1.0 ==> r == target
  {
    var d := target - current;
    var m := k * d;
    ScaleWithinUnit(k, d);
    assert target * k + current * (1.0 - k) == current + m;
    target * k + current * (1.0 - k)
  }

  /** A factor in (0, 1] shrinks a difference without reversing its sign. */
  lemma ScaleWithinUnit(k: real, d: real)
    requires 0.0 < k <= 1.0
    ensures d >= 0.0 ==> 0.0 <= k * d <= d
    ensures d <= 0.0 ==> d <= k * d <= 0.0
  {
    assert d - k * d == (1.0 - k) * d;
  }

  /** Blending keeps a value inside any interval that holds both ends. */
  lemma BlendStaysInRange(target: real, current: real, k: real, lo: real, hi: real)
    requires 0.0 < k <= 1.0
    requires lo <= target <= hi && lo <= current <= hi
    ensures lo <= Blend(target, current, k) <= hi
  {
  }

  /** With no smoothing, update moves a current value all the way to its
      target, whatever the frame time. */
  lemma NoSmoothingSnaps(target: real, current: real, s: real, deltaT: real)
    requires s == 0.0 && deltaT > 0.0
    ensures Blend(target, current, SmoothingFactor(s, deltaT)) == target
  {
  }

  /** With smoothing, update moves a current value strictly toward its target
      without reaching it in one step. */
  lemma SmoothingLags(target: real, current: real, s: real, deltaT: real)
    requires s > 0.0 && deltaT > 0.0 && current != target
    ensures var r := Blend(target, current, SmoothingFactor(s, deltaT));
      r != target && (current < target ==> current < r) && (target < current ==> r < current)
  {
    var k := SmoothingFactor(s, deltaT);
    var d := target - current;
    assert Blend(target, current, k) == current + k * d;
    assert (1.0 - k) * d != 0.0;
    assert target - Blend(target, current, k) == (1.0 - k) * d;
  }

  /** The same blend, component by component, for a position. */
  function BlendVec(target: Vec3, current: Vec3, k: real): (r: Vec3)
    requires 0.0 < k <= 1.0
    ensures forall i :: 0 <= i < 3 ==> r[i] == Blend(target[i], current[i], k)
    ensures k == 1.0 ==> r == target
  {
    Add(Scale(k, target), Scale(1.0 - k, current))
  }

  // ---- axes read back from the view matrix (updateToAxis) ----

  function FrontOf(view: Mat4): Vec3 {
    [-Entry(view, 2, 0), -Entry(view, 2, 1), -Entry(view, 2, 2)]
  }

  function RightOf(view: Mat4): Vec3 {
    [Entry(view, 0, 0), Entry(view, 0, 1), Entry(view, 0, 2)]
  }

  function UpOf(view: Mat4): Vec3 {
    [Entry(view, 1, 0), Entry(view, 1, 1), Entry(view, 1, 2)]
  }

  // ---- moves aligned to the yaw angle (the *Al operations) ----
  // s and c are sin(yaw) and cos(yaw); p is the target position.

  function ForwardAl(p: Vec3, d: real, s: real, c: real): Vec3 {
    [p[0] + d * s, p[1], p[2] - d * c]
  }

  function BackwardAl(p: Vec3, d: real, s: real, c: real): Vec3 {
    [p[0] - d * s, p[1], p[2] + d * c]
  }

  function LeftAl(p: Vec3, d: real, s: real, c: real): Vec3 {
    [p[0] - d * c, p[1], p[2] - d * s]
  }

  function RightAl(p: Vec3, d: real, s: real, c: real): Vec3 {
    [p[0] + d * c, p[1], p[2] + d * s]
  }

  function UpAl(p: Vec3, d: real): Vec3 {
    [p[0], p[1] + d, p[2]]
  }

  function DownAl(p: Vec3, d: real): Vec3 {
    [p[0], p[1] - d, p[2]]
  }

  /** The aligned moves are horizontal, except up and down, which are vertical;
      each move is undone by its opposite over the same distance. */
  lemma AlignedMovesLevelAndCancel(p: Vec3, d: real, s: real, c: real)
    ensures ForwardAl(p, d, s, c)[1] == p[1] && BackwardAl(p, d, s, c)[1] == p[1]
    ensures LeftAl(p, d, s, c)[1] == p[1] && RightAl(p, d, s, c)[1] == p[1]
    ensures UpAl(p, d)[0] == p[0] && UpAl(p, d)[2] == p[2]
    ensures BackwardAl(ForwardAl(p, d, s, c), d, s, c) == p
    ensures LeftAl(RightAl(p, d, s, c), d, s, c) == p
    ensures DownAl(UpAl(p, d), d) == p
  {
  }

  /** moveAl(shift) as written: the z component adds shift.y() * sin(yaw). It
      agrees with the intended aligned shift in x and y, and is off in z by
      (shift.y() - shift.x()) * sin(yaw). */
  function MoveAlAsWritten(p: Vec3, shift: Vec3, s: real, c: real): (r: Vec3)
    ensures r[0] == AlignedShift(p, shift, s, c)[0] && r[1] == AlignedShift(p, shift, s, c)[1]
    ensures r[2] == AlignedShift(p, shift, s, c)[2] + (shift[1] - shift[0]) * s
  {
    [p[0] + shift[0] * c - shift[2] * s,
     p[1] + shift[1],
     p[2] + shift[1] * s + shift[2] * c]
  }

  /** As written, moveAl disagrees with moveRightAl for a sideways shift and
      moves the camera horizontally for a vertical shift, whenever sin(yaw) is
      not 0. */
  lemma MoveAlAsWrittenDiverges(p: Vec3, d: real, s: real, c: real)
    requires d != 0.0 && s != 0.0
    ensures MoveAlAsWritten(p, [d, 0.0, 0.0], s, c) != RightAl(p, d, s, c)
    ensures MoveAlAsWritten(p, [0.0, d, 0.0], s, c) != UpAl(p, d)
  {
    assert d * s != 0.0;
    assert MoveAlAsWritten(p, [d, 0.0, 0.0], s, c)[2] != RightAl(p, d, s, c)[2];
    assert MoveAlAsWritten(p, [0.0, d, 0.0], s, c)[2] != UpAl(p, d)[2];
  }

  /** moveAl(shift) as intended: shift.x() to the right, shift.y() up and
      shift.z() backward, each aligned to the yaw angle. */
  function AlignedShift(p: Vec3, shift: Vec3, s: real, c: real): (r: Vec3)
    ensures r == BackwardAl(UpAl(RightAl(p, shift[0], s, c), shift[1]), shift[2], s, c)
  {
    [p[0] + shift[0] * c - shift[2] * s,
     p[1] + shift[1],
     p[2] + shift[0] * s + shift[2] * c]
  }

  /** move(shift): shift.x() along right, shift.y() along up, shift.z() against
      front. */
  function BasisShift(p: Vec3, shift: Vec3, front: Vec3, right: Vec3, up: Vec3): (r: Vec3)
    ensures forall i :: 0 <= i < 3 ==>
      r[i] == p[i] + shift[0] * right[i] + shift[1] * up[i] - shift[2] * front[i]
  {
    Add(p, Sub(Add(Scale(shift[0], right), Scale(shift[1], up)), Scale(shift[2], front)))
  }

  /** A shift along one axis of the basis is the matching single move. */
  lemma BasisShiftAlongOneAxis(p: Vec3, d: real, front: Vec3, right: Vec3, up: Vec3)
    ensures BasisShift(p, [d, 0.0, 0.0], front, right, up) == Add(p, Scale(d, right))
    ensures BasisShift(p, [0.0, d, 0.0], front, right, up) == Add(p, Scale(d, up))
    ensures BasisShift(p, [0.0, 0.0, d], front, right, up) == Sub(p, Scale(d, front))
  {
    var r := BasisShift(p, [d, 0.0, 0.0], front, right, up);
    assert forall i :: 0 <= i < 3 ==> r[i] == Add(p, Scale(d, right))[i];
    var u := BasisShift(p, [0.0, d, 0.0], front, right, up);
    assert forall i :: 0 <= i < 3 ==> u[i] == Add(p, Scale(d, up))[i];
    var b := BasisShift(p, [0.0, 0.0, d], front, right, up);
    assert forall i :: 0 <= i < 3 ==> b[i] == Sub(p, Scale(d, front))[i];
  }

  class Camera {
    const math: ExternalMath

    // --- position ---
    var position: Vec3
    var targetPosition: Vec3
    var smoothPosition: real

    // --- axis ---
    var front: Vec3
    var up: Vec3
    var right: Vec3

    // --- euler ---
    var yaw: real
    var pitch: real
    var roll: real
    var targetYaw: real
    var targetPitch: real
    var targetRoll: real
    var smoothEuler: real

    // --- len ---
    var fov: real
    var aspect: real
    var near: real
    var far: real
    var targetFov: real
    var smoothFov: real

    // --- output ---
    var view: Mat4
    var projection: Mat4

    /** Pitch and fov, current and target, stay in their ranges; smoothing
        constants are never negative; the view matrix is the one of the current
        position and angles, and the axes are read from it. */
    ghost predicate Valid()
      reads this`pitch, this`targetPitch, this`fov, this`targetFov
      reads this`smoothPosition, this`smoothEuler, this`smoothFov
      reads this`view, this`position, this`yaw, this`roll, this`front, this`right, this`up
    {
      && PitchInRange(pitch) && PitchInRange(targetPitch)
      && FovInRange(fov) && FovInRange(targetFov)
      && smoothPosition >= 0.0 && smoothEuler >= 0.0 && smoothFov >= 0.0
      && view == Euler(math, position, yaw, pitch, roll)
      && front == FrontOf(view) && right == RightOf(view) && up == UpOf(view)
    }

    /** Camera(): angles 0, fov 45 degrees, aspect 16:9, near 0.1, far 100, no
        smoothing. The default-constructed position vectors are a parameter.
        The calls to updateEuler() and updateLen() are written out: view, axes
        and projection get the values those two methods give them. */
    constructor (externals: ExternalMath, initialPosition: Vec3)
      ensures Valid()
      ensures math == externals
      ensures position == initialPosition && targetPosition == initialPosition
      ensures yaw == 0.0 && pitch == 0.0 && roll == 0.0
      ensures targetYaw == 0.0 && targetPitch == 0.0 && targetRoll == 0.0
      ensures fov == PI / 4.0 && targetFov == PI / 4.0
      ensures aspect == 16.0 / 9.0 && near == 0.1 && far == 100.0
      ensures smoothPosition == 0.0 && smoothEuler == 0.0 && smoothFov == 0.0
      ensures view == Euler(externals, initialPosition, 0.0, 0.0, 0.0)
      ensures projection == PerspFov(externals, PI / 4.0, 16.0 / 9.0, 0.1, 100.0)
    {
      DegToRadLandmarks();
      DefaultFovInRange();
      math := externals;
      position, targetPosition := initialPosition, initialPosition;
      yaw, pitch, roll := 0.0, 0.0, 0.0;
      targetYaw, targetPitch, targetRoll := 0.0, 0.0, 0.0;
      var v := Euler(externals, initialPosition, 0.0, 0.0, 0.0);
      view := v;
      front, right, up := FrontOf(v), RightOf(v), UpOf(v);
      fov, targetFov := DegToRad(45.0), DegToRad(45.0);
      aspect, near, far := 16.0 / 9.0, 0.1, 100.0;
      projection := PerspFov(externals, DegToRad(45.0), 16.0 / 9.0, 0.1, 100.0);
      smoothPosition, smoothEuler, smoothFov := 0.0, 0.0, 0.0;
    }

    /** updateToAxis: front is minus row 2 of the view matrix, right is row 0
        and up is row 1, written component by component. */
    method UpdateToAxis()
      modifies this`front, this`right, this`up
      ensures front == FrontOf(view) && right == RightOf(view) && up == UpOf(view)
    {
      front := WithZ(WithY(WithX(front, -Entry(view, 2, 0)), -Entry(view, 2, 1)), -Entry(view, 2, 2));
      right := WithZ(WithY(WithX(right, Entry(view, 0, 0)), Entry(view, 0, 1)), Entry(view, 0, 2));
      up := WithZ(WithY(WithX(up, Entry(view, 1, 0)), Entry(view, 1, 1)), Entry(view, 1, 2));
    }

    /** updateEuler: the view matrix from the current position and angles, then
        the axes. */
    method UpdateEuler()
      modifies this`view, this`front, this`right, this`up
      ensures view == Euler(math, position, yaw, pitch, roll)
      ensures front == FrontOf(view) && right == RightOf(view) && up == UpOf(view)
    {
      view := Euler(math, position, yaw, pitch, roll);
      UpdateToAxis();
    }

    /** updateLen: the projection matrix from the current lens settings. */
    method UpdateLen()
      modifies this`projection
      ensures projection == PerspFov(math, fov, aspect, near, far)
    {
      projection := PerspFov(math, fov, aspect, near, far);
    }

    /** setPosition: only the target position changes. */
    method SetPosition(pos: Vec3)
      modifies this`targetPosition
      ensures targetPosition == pos
    {
      targetPosition := pos;
    }

    /** setEuler(yaw, pitch, roll = 0): warns exactly when pitch is outside
        [-PI/2, PI/2], stores it clamped, and stores yaw and roll as given. The
        current angles are untouched. */
    method SetEuler(newYaw: real, newPitch: real, newRoll: real := 0.0) returns (warned: bool)
      requires Valid()
      modifies this`targetYaw, this`targetPitch, this`targetRoll
      ensures Valid()
      ensures warned <==> !PitchInRange(newPitch)
      ensures targetYaw == newYaw && targetRoll == newRoll
      ensures targetPitch == Clamp(newPitch, -PITCH_MAX, PITCH_MAX)
    {
      warned := newPitch > PITCH_MAX || newPitch < -PITCH_MAX;
      targetYaw := newYaw;
      targetPitch := Clamp(newPitch, -PITCH_MAX, PITCH_MAX);
      targetRoll := newRoll;
    }

    /** setLen(fov, aspect, near = 0.1, far = 100): warns exactly when fov is
        outside [PI/18, 2PI/3], stores it clamped as the target fov, and stores
        aspect, near and far without any check. */
    method SetLen(newFov: real, newAspect: real, newNear: real := 0.1, newFar: real := 100.0)
      returns (warned: bool)
      requires Valid()
      modifies this`targetFov, this`aspect, this`near, this`far
      ensures Valid()
      ensures warned <==> !FovInRange(newFov)
      ensures targetFov == Clamp(newFov, FOV_MIN, FOV_MAX)
      ensures aspect == newAspect && near == newNear && far == newFar
    {
      warned := newFov > FOV_MAX || newFov < FOV_MIN;
      targetFov := Clamp(newFov, FOV_MIN, FOV_MAX);
      aspect := newAspect;
      near := newNear;
      far := newFar;
    }

    /** setFov: warns exactly when fov is out of range and stores it clamped. */
    method SetFov(newFov: real) returns (warned: bool)
      requires Valid()
      modifies this`targetFov
      ensures Valid()
      ensures warned <==> !FovInRange(newFov)
      ensures targetFov == Clamp(newFov, FOV_MIN, FOV_MAX)
    {
      warned := newFov > FOV_MAX || newFov < FOV_MIN;
      targetFov := Clamp(newFov, FOV_MIN, FOV_MAX);
    }

    /** setAspect: INVALID_SET_VALUE for an aspect that is not positive, which
        is then not stored. */
    method SetAspect(newAspect: real) returns (r: Outcome<CameraError>)
      modifies this`aspect
      ensures newAspect <= 0.0 ==> r == Fail(InvalidSetValue) && aspect == old(aspect)
      ensures newAspect > 0.0 ==> r == Pass && aspect == newAspect
    {
      if newAspect <= 0.0 {
        return Fail(InvalidSetValue);
      }
      aspect := newAspect;
      r := Pass;
    }

    // ---- moves along the current axes ----

    method MoveForward(distance: real)
      modifies this`targetPosition
      ensures targetPosition == Add(old(targetPosition), Scale(distance, front))
    {
      targetPosition := Add(targetPosition, Scale(distance, front));
    }

    method MoveBackward(distance: real)
      modifies this`targetPosition
      ensures targetPosition == Sub(old(targetPosition), Scale(distance, front))
    {
      targetPosition := Sub(targetPosition, Scale(distance, front));
    }

    method MoveLeft(distance: real)
      modifies this`targetPosition
      ensures targetPosition == Sub(old(targetPosition), Scale(distance, right))
    {
      targetPosition := Sub(targetPosition, Scale(distance, right));
    }

    method MoveRight(distance: real)
      modifies this`targetPosition
      ensures targetPosition == Add(old(targetPosition), Scale(distance, right))
    {
      targetPosition := Add(targetPosition, Scale(distance, right));
    }

    method MoveUp(distance: real)
      modifies this`targetPosition
      ensures targetPosition == Add(old(targetPosition), Scale(distance, up))
    {
      targetPosition := Add(targetPosition, Scale(distance, up));
    }

    method MoveDown(distance: real)
      modifies this`targetPosition
      ensures targetPosition == Sub(old(targetPosition), Scale(distance, up))
    {
      targetPosition := Sub(targetPosition, Scale(distance, up));
    }

    /** move(shift): right, up and backward by the three components. */
    method Move(shift: Vec3)
      modifies this`targetPosition
      ensures targetPosition == BasisShift(old(targetPosition), shift, front, right, up)
    {
      targetPosition := Add(targetPosition,
        Sub(Add(Scale(X(shift), right), Scale(Y(shift), up)), Scale(Z(shift), front)));
    }

    // ---- moves aligned to the current yaw (through the component accessors) ----

    method MoveForwardAl(distance: real)
      modifies this`targetPosition
      ensures targetPosition == ForwardAl(old(targetPosition), distance, Sin(math, yaw), Cos(math, yaw))
    {
      targetPosition := WithX(targetPosition, X(targetPosition) + distance * Sin(math, yaw));
      targetPosition := WithZ(targetPosition, Z(targetPosition) - distance * Cos(math, yaw));
      SameComponents(targetPosition, ForwardAl(old(targetPosition), distance, Sin(math, yaw), Cos(math, yaw)));
    }

    method MoveBackwardAl(distance: real)
      modifies this`targetPosition
      ensures targetPosition == BackwardAl(old(targetPosition), distance, Sin(math, yaw), Cos(math, yaw))
    {
      targetPosition := WithX(targetPosition, X(targetPosition) - distance * Sin(math, yaw));
      targetPosition := WithZ(targetPosition, Z(targetPosition) + distance * Cos(math, yaw));
      SameComponents(targetPosition, BackwardAl(old(targetPosition), distance, Sin(math, yaw), Cos(math, yaw)));
    }

    method MoveLeftAl(distance: real)
      modifies this`targetPosition
      ensures targetPosition == LeftAl(old(targetPosition), distance, Sin(math, yaw), Cos(math, yaw))
    {
      targetPosition := WithX(targetPosition, X(targetPosition) - distance * Cos(math, yaw));
      targetPosition := WithZ(targetPosition, Z(targetPosition) - distance * Sin(math, yaw));
      SameComponents(targetPosition, LeftAl(old(targetPosition), distance, Sin(math, yaw), Cos(math, yaw)));
    }

    method MoveRightAl(distance: real)
      modifies this`targetPosition
      ensures targetPosition == RightAl(old(targetPosition), distance, Sin(math, yaw), Cos(math, yaw))
    {
      targetPosition := WithX(targetPosition, X(targetPosition) + distance * Cos(math, yaw));
      targetPosition := WithZ(targetPosition, Z(targetPosition) + distance * Sin(math, yaw));
      SameComponents(targetPosition, RightAl(old(targetPosition), distance, Sin(math, yaw), Cos(math, yaw)));
    }

    method MoveUpAl(distance: real)
      modifies this`targetPosition
      ensures targetPosition == UpAl(old(targetPosition), distance)
    {
      targetPosition := WithY(targetPosition, Y(targetPosition) + distance);
    }

    method MoveDownAl(distance: real)
      modifies this`targetPosition
      ensures targetPosition == DownAl(old(targetPosition), distance)
    {
      targetPosition := WithY(targetPosition, Y(targetPosition) - distance);
    }

    /** moveAl(shift), with the z component corrected to shift.x() * sin(yaw)
        (see MoveAlAsWritten for the line as written). */
    method MoveAl(shift: Vec3)
      modifies this`targetPosition
      ensures targetPosition == AlignedShift(old(targetPosition), shift, Sin(math, yaw), Cos(math, yaw))
    {
      var s, c := Sin(math, yaw), Cos(math, yaw);
      targetPosition := WithX(targetPosition, X(targetPosition) + X(shift) * c - Z(shift) * s);
      targetPosition := WithY(targetPosition, Y(targetPosition) + Y(shift));
      targetPosition := WithZ(targetPosition, Z(targetPosition) + X(shift) * s + Z(shift) * c);
      SameComponents(targetPosition, AlignedShift(old(targetPosition), shift, s, c));
    }

    // ---- rotations ----

    /** rotateYaw: the yaw target moves by the angle, without a bound. */
    method RotateYaw(angle: real)
      modifies this`targetYaw
      ensures targetYaw == old(targetYaw) + angle
    {
      targetYaw := targetYaw + angle;
    }

    /** rotatePitch: the pitch target moves by the angle and is clamped. */
    method RotatePitch(angle: real)
      requires Valid()
      modifies this`targetPitch
      ensures Valid()
      ensures targetPitch == Clamp(old(targetPitch) + angle, -PITCH_MAX, PITCH_MAX)
    {
      targetPitch := targetPitch + angle;
      targetPitch := Clamp(targetPitch, -PITCH_MAX, PITCH_MAX);
    }

    /** rotateRoll: the roll target moves by the angle, without a bound. */
    method RotateRoll(angle: real)
      modifies this`targetRoll
      ensures targetRoll == old(targetRoll) + angle
    {
      targetRoll := targetRoll + angle;
    }

    /** rotate(yaw, pitch, roll = 0): all three targets move; pitch is clamped. */
    method Rotate(deltaYaw: real, deltaPitch: real, deltaRoll: real := 0.0)
      requires Valid()
      modifies this`targetYaw, this`targetPitch, this`targetRoll
      ensures Valid()
      ensures targetYaw == old(targetYaw) + deltaYaw
      ensures targetPitch == Clamp(old(targetPitch) + deltaPitch, -PITCH_MAX, PITCH_MAX)
      ensures targetRoll == old(targetRoll) + deltaRoll
    {
      targetYaw := targetYaw + deltaYaw;
      targetPitch := targetPitch + deltaPitch;
      targetRoll := targetRoll + deltaRoll;
      targetPitch := Clamp(targetPitch, -PITCH_MAX, PITCH_MAX);
    }

    /** zoom(coe): the fov target becomes 2 atan((1 - coe) tan(fov / 2)),
        clamped to [PI/18, 2PI/3] whatever tan and atan return. */
    method Zoom(coe: real)
      requires Valid()
      modifies this`targetFov
      ensures Valid()
      ensures targetFov == Clamp(2.0 * Atan(math, (1.0 - coe) * Tan(math, old(targetFov) / 2.0)), FOV_MIN, FOV_MAX)
    {
      targetFov := 2.0 * Atan(math, (1.0 - coe) * Tan(math, targetFov / 2.0));
      targetFov := Clamp(targetFov, FOV_MIN, FOV_MAX);
    }

    // ---- smoothing constants ----

    method SmoothMove(factor: real)
      requires Valid()
      modifies this`smoothPosition
      ensures Valid()
      ensures smoothPosition == NonNegative(factor)
    {
      smoothPosition := NonNegative(factor);
    }

    method SmoothRotate(factor: real)
      requires Valid()
      modifies this`smoothEuler
      ensures Valid()
      ensures smoothEuler == NonNegative(factor)
    {
      smoothEuler := NonNegative(factor);
    }

    method SmoothZoom(factor: real)
      requires Valid()
      modifies this`smoothFov
      ensures Valid()
      ensures smoothFov == NonNegative(factor)
    {
      smoothFov := NonNegative(factor);
    }

    /** update(deltaT): angles, position and fov each move toward their target
        by their own factor k = 1 / (1 + s / deltaT), snapping to it when s is 0;
        the view matrix and the axes follow the new position and angles, and the
        projection follows the new fov and the current aspect, near and far.
        The targets, the smoothing constants and the lens settings are kept. */
    method Update(deltaT: real)
      requires Valid() && deltaT > 0.0
      modifies this`yaw, this`pitch, this`roll, this`position, this`fov
      modifies this`view, this`front, this`right, this`up, this`projection
      ensures Valid()
      ensures var k := SmoothingFactor(smoothEuler, deltaT);
        && yaw == Blend(targetYaw, old(yaw), k)
        && pitch == Blend(targetPitch, old(pitch), k)
        && roll == Blend(targetRoll, old(roll), k)
      ensures position == BlendVec(targetPosition, old(position), SmoothingFactor(smoothPosition, deltaT))
      ensures fov == Blend(targetFov, old(fov), SmoothingFactor(smoothFov, deltaT))
      ensures view == Euler(math, position, yaw, pitch, roll)
      ensures projection == PerspFov(math, fov, aspect, near, far)
    {
      BlendAngles(SmoothingFactor(smoothEuler, deltaT));
      BlendPosition(SmoothingFactor(smoothPosition, deltaT));
      UpdateEuler();
      BlendFov(SmoothingFactor(smoothFov, deltaT));
      UpdateLen();
    }

    /** The angle step of update(deltaT): each angle moves by the factor k
        toward its target; pitch stays in range. */
    method BlendAngles(k: real)
      requires 0.0 < k <= 1.0 && PitchInRange(pitch) && PitchInRange(targetPitch)
      modifies this`yaw, this`pitch, this`roll
      ensures yaw == Blend(targetYaw, old(yaw), k)
      ensures pitch == Blend(targetPitch, old(pitch), k)
      ensures roll == Blend(targetRoll, old(roll), k)
      ensures PitchInRange(pitch)
    {
      BlendStaysInRange(targetPitch, pitch, k, -PITCH_MAX, PITCH_MAX);
      yaw, pitch, roll := Blend(targetYaw, yaw, k), Blend(targetPitch, pitch, k), Blend(targetRoll, roll, k);
    }

    /** The position step of update(deltaT). */
    method BlendPosition(k: real)
      requires 0.0 < k <= 1.0
      modifies this`position
      ensures position == BlendVec(targetPosition, old(position), k)
    {
      position := BlendVec(targetPosition, position, k);
    }

    /** The fov step of update(deltaT): fov stays in range. */
    method BlendFov(k: real)
      requires 0.0 < k <= 1.0 && FovInRange(fov) && FovInRange(targetFov)
      modifies this`fov
      ensures fov == Blend(targetFov, old(fov), k)
      ensures FovInRange(fov)
    {
      BlendStaysInRange(targetFov, fov, k, FOV_MIN, FOV_MAX);
      fov := Blend(targetFov, fov, k);
    }

    /** viewMat() */
    function ViewMat(): (m: Mat4)
      reads this
      ensures Valid() ==> m == Euler(math, position, yaw, pitch, roll)
    {
      view
    }

    /** projectionMat() */
    function ProjectionMat(): Mat4
      reads this
    {
      projection
    }
  }

  /** A fresh camera moved to (0, 0, 3) with no smoothing, turned by 0.5 in yaw
      and updated once shows exactly the view euler((0, 0, 3), 0.5, 0, 0), and
      the projection of the default lens. */
  method SnapScenario(externals: ExternalMath, initialPosition: Vec3)
    returns (view: Mat4, projection: Mat4)
    ensures view == Euler(externals, [0.0, 0.0, 3.0], 0.5, 0.0, 0.0)
    ensures projection == PerspFov(externals, PI / 4.0, 16.0 / 9.0, 0.1, 100.0)
  {
    var camera := new Camera(externals, initialPosition);
    camera.SetPosition([0.0, 0.0, 3.0]);
    camera.RotateYaw(0.5);
    camera.Update(1.0);
    view := camera.ViewMat();
    projection := camera.ProjectionMat();
  }

  /** setEuler(0, 10, 0) warns and stores the pitch target PI/2; after the roll
      target is rotated to 1, a later setEuler(yaw, pitch) without a roll
      resets the roll target to 0. */
  method ClampScenario(externals: ExternalMath, initialPosition: Vec3)
    returns (warned: bool, targetPitch: real, rolled: real, targetRoll: real)
    ensures warned && targetPitch == PI / 2.0
    ensures rolled == 1.0 && targetRoll == 0.0
  {
    var camera := new Camera(externals, initialPosition);
    warned := camera.SetEuler(0.0, 10.0, 0.0);
    targetPitch := camera.targetPitch;
    camera.RotateRoll(1.0);
    rolled := camera.targetRoll;
    var warnedAgain := camera.SetEuler(0.0, 10.0);
    targetRoll := camera.targetRoll;
  }
}
