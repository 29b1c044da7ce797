/** Held keys turned into movement: the pattern `if pressed(neg) { d -= 1 }
    if pressed(pos) { d += 1 }` that the camera and player systems share. */
module Input {

  import opened Geometry

  /** One axis of key input: -1, 0 or 1; opposing keys cancel. */
  function KeyAxis(neg: bool, pos: bool): (d: real)
    ensures d in {-1.0, 0.0, 1.0}
    ensures d == 0.0 <==> neg == pos
    ensures d > 0.0 <==> pos && !neg
    ensures d < 0.0 <==> neg && !pos
  {
    (if neg then -1.0 else 0.0) + (if pos then 1.0 else 0.0)
  }

  /** The four movement keys: A and D move along x, S and W along the
      second axis. */
  datatype MoveKeys = MoveKeys(a: bool, d: bool, w: bool, s: bool)

  const NoKeys := MoveKeys(false, false, false, false)

  /** The key direction: A/D on the first axis, S/W on the second. Each
      component is -1, 0 or 1, and it is zero exactly when both key pairs
      cancel or are absent. */
  function Direction(keys: MoveKeys): (dir: Vec2)
    ensures IsKeyDirection(dir)
    ensures dir == Zero2 <==> keys.a == keys.d && keys.w == keys.s
  {
    Vec2(KeyAxis(keys.a, keys.d), KeyAxis(keys.s, keys.w))
  }

  /** A direction built from keys: each component is -1, 0 or 1. */
  predicate IsKeyDirection(dir: Vec2)
  {
    dir.x in {-1.0, 0.0, 1.0} && dir.y in {-1.0, 0.0, 1.0}
  }

  /** `diagonal` is 1/sqrt(2), the positive number whose square is 1/2
      (square roots are not part of this model, so it is given). */
  predicate IsHalfRoot(diagonal: real)
  {
    0.0 < diagonal && diagonal * diagonal == 0.5
  }

  /** The squared length of a vector. */
  function SquaredLength(v: Vec2): real
  {
    v.x * v.x + v.y * v.y
  }

  /** `normalize_or_zero` on a key direction: the zero vector stays zero,
      any other comes back with length one, pointing the same way (an axis
      direction is already a unit vector, a diagonal is scaled by 1/sqrt(2)). */
  function NormalizeOrZero(dir: Vec2, diagonal: real): (u: Vec2)
    requires IsKeyDirection(dir) && IsHalfRoot(diagonal)
    ensures dir == Zero2 ==> u == Zero2
    ensures dir != Zero2 ==> SquaredLength(u) == 1.0
    ensures dir.x == 0.0 || dir.y == 0.0 ==> u == dir
    ensures dir.x != 0.0 && dir.y != 0.0 ==> u == Scale2(dir, diagonal)
  {
    if dir.x != 0.0 && dir.y != 0.0 then
      assert dir.x * dir.x == 1.0 && dir.y * dir.y == 1.0;
      assert SquaredLength(Scale2(dir, diagonal)) == (dir.x * dir.x + dir.y * dir.y) * (diagonal * diagonal);
      Scale2(dir, diagonal)
    else
      dir
  }

  /** Scaling a vector by `k` scales its squared length by `k * k`. */
  lemma ScaledLength(u: Vec2, k: real)
    ensures SquaredLength(Scale2(u, k)) == SquaredLength(u) * (k * k)
  {
    calc {
      SquaredLength(Scale2(u, k));
      (u.x * k) * (u.x * k) + (u.y * k) * (u.y * k);
      (u.x * u.x) * (k * k) + (u.y * u.y) * (k * k);
    }
  }

  /** Scaling twice is scaling once by the product. */
  lemma ScaleTwice(v: Vec2, a: real, b: real)
    ensures Scale2(Scale2(v, a), b) == Scale2(v, a * b)
  {
    assert (v.x * a) * b == v.x * (a * b);
    assert (v.y * a) * b == v.y * (a * b);
  }

  /** The step along an axis whose keys do not cancel, when the other
      axis is still. */
  lemma AxisStep(keys: MoveKeys, dt: real, diagonal: real, step: Vec2)
    requires IsHalfRoot(diagonal)
    requires step == Scale2(NormalizeOrZero(Direction(keys), diagonal), dt * 50.0)
    ensures keys.a == keys.d ==> step.x == 0.0
    ensures keys.w == keys.s ==> step.y == 0.0
    ensures keys.w == keys.s ==> step.x == KeyAxis(keys.a, keys.d) * (dt * 50.0)
    ensures keys.a == keys.d ==> step.y == KeyAxis(keys.s, keys.w) * (dt * 50.0)
  {
  }

  /** The step for two keys on different axes. */
  lemma DiagonalStep(keys: MoveKeys, dt: real, diagonal: real, step: Vec2)
    requires IsHalfRoot(diagonal)
    requires step == Scale2(NormalizeOrZero(Direction(keys), diagonal), dt * 50.0)
    ensures keys.a != keys.d && keys.w != keys.s ==>
      step == Scale2(Direction(keys), diagonal * (dt * 50.0))
  {
    ScaleTwice(Direction(keys), diagonal, dt * 50.0);
  }

  /** The length of a step that does not cancel. */
  lemma StepLength(keys: MoveKeys, dt: real, diagonal: real, step: Vec2)
    requires IsHalfRoot(diagonal)
    requires step == Scale2(NormalizeOrZero(Direction(keys), diagonal), dt * 50.0)
    ensures !(keys.a == keys.d && keys.w == keys.s) ==>
      SquaredLength(step) == (dt * 50.0) * (dt * 50.0)
  {
    ScaledLength(NormalizeOrZero(Direction(keys), diagonal), dt * 50.0);
  }

  /** The movement of one frame, `dt` seconds long, at 50 units a second:
      `dir.normalize_or_zero() * time.delta_secs() * 50.`. Any held
      combination that does not cancel moves exactly `dt * 50` units. */
  function MoveStep(keys: MoveKeys, dt: real, diagonal: real): (step: Vec2)
    requires IsHalfRoot(diagonal)
    ensures keys.a == keys.d ==> step.x == 0.0
    ensures keys.w == keys.s ==> step.y == 0.0
    ensures keys.w == keys.s ==> step.x == KeyAxis(keys.a, keys.d) * (dt * 50.0)
    ensures keys.a == keys.d ==> step.y == KeyAxis(keys.s, keys.w) * (dt * 50.0)
    ensures keys.a != keys.d && keys.w != keys.s ==>
      step == Scale2(Direction(keys), diagonal * (dt * 50.0))
    ensures !(keys.a == keys.d && keys.w == keys.s) ==>
      SquaredLength(step) == (dt * 50.0) * (dt * 50.0)
  {
    var step := Scale2(NormalizeOrZero(Direction(keys), diagonal), dt * 50.0);
    AxisStep(keys, dt, diagonal, step);
    DiagonalStep(keys, dt, diagonal, step);
    StepLength(keys, dt, diagonal, step);
    step
  }
}
