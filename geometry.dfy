/** Vectors, transforms and orthographic projections: the small part of the
    engine's math library that the camera rig reads and writes. */
module Geometry {

  datatype Option<T> = None | Some(value: T)

  datatype Vec2 = Vec2(x: real, y: real)

  datatype Vec3 = Vec3(x: real, y: real, z: real)

  /** A rotation, kept as the quaternion the engine stores; the model never
      computes with it, it only checks that it is left alone. */
  datatype Quat = Quat(x: real, y: real, z: real, w: real)

  const Zero2 := Vec2(0.0, 0.0)
  const Zero3 := Vec3(0.0, 0.0, 0.0)

  function Add2(a: Vec2, b: Vec2): Vec2 { Vec2(a.x + b.x, a.y + b.y) }

  function Scale2(a: Vec2, k: real): Vec2 { Vec2(a.x * k, a.y * k) }

  function Add3(a: Vec3, b: Vec3): Vec3 { Vec3(a.x + b.x, a.y + b.y, a.z + b.z) }

  function Scale3(a: Vec3, k: real): Vec3 { Vec3(a.x * k, a.y * k, a.z * k) }

  /** The world point `right * p.x + up * p.y` that a position in the
      camera's own plane stands for. */
  function InPlane(right: Vec3, up: Vec3, p: Vec2): (w: Vec3)
    ensures p == Zero2 ==> w == Zero3
    ensures p.y == 0.0 ==> w == Scale3(right, p.x)
    ensures p.x == 0.0 ==> w == Scale3(up, p.y)
  {
    Add3(Scale3(right, p.x), Scale3(up, p.y))
  }

  /** The scale of an orthographic projection. `1.0 / 0.0` is positive
      infinity in 32-bit floating point, so a reciprocal of zero is kept
      as its own case rather than excluded. */
  datatype Scale = Finite(value: real) | Infinite

  function Reciprocal(n: int): (s: Scale)
    requires n >= 0
    ensures s.Infinite? <==> n == 0
    ensures s.Finite? ==> s.value > 0.0 && s.value * n as real == 1.0
  {
    if n == 0 then Infinite else Finite(1.0 / n as real)
  }

  /** An entity's transform: the camera, the canvas quad, the camera anchor
      and the player each own one. */
  class Transform {
    var translation: Vec3
    var rotation: Quat

    constructor (translation: Vec3, rotation: Quat)
      ensures this.translation == translation && this.rotation == rotation
    {
      this.translation := translation;
      this.rotation := rotation;
    }
  }

  /** An orthographic projection component; only its scale is modelled. */
  class Projection {
    var scale: Scale

    constructor (scale: Scale)
      ensures this.scale == scale
    {
      this.scale := scale;
    }
  }
}
