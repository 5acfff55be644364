/** Vectors, quaternions, sides and wheel identifiers shared by every
    subsystem.  All arithmetic is on `real`: floating-point rounding is not
    modelled.  Frames follow the vehicle convention: X to the rear, Y to the
    right, Z up. */
module Geometry {

  datatype Vec3 = Vec3(x: real, y: real, z: real)

  /** A quaternion (e0 is the scalar part). */
  datatype Quat = Quat(e0: real, e1: real, e2: real, e3: real)

  /** The value of a default-constructed vector. */
  const Zero: Vec3 := Vec3(0.0, 0.0, 0.0)

  function Add(a: Vec3, b: Vec3): Vec3 {
    Vec3(a.x + b.x, a.y + b.y, a.z + b.z)
  }

  function Scale(k: real, v: Vec3): Vec3 {
    Vec3(k * v.x, k * v.y, k * v.z)
  }

  function Dot(a: Vec3, b: Vec3): real {
    a.x * b.x + a.y * b.y + a.z * b.z
  }

  function Abs(r: real): real {
    if r < 0.0 then -r else r
  }

  /** Reflection through the vehicle's longitudinal plane (y = 0): how a
      left-side point is obtained from a right-side one. */
  function MirrorY(v: Vec3): Vec3 {
    Vec3(v.x, -v.y, v.z)
  }

  lemma MirrorYInvolution(v: Vec3)
    ensures MirrorY(MirrorY(v)) == v
  {
  }

  lemma MirrorYKeepsXZ(v: Vec3)
    ensures MirrorY(v).x == v.x && MirrorY(v).z == v.z && MirrorY(v).y == -v.y
    ensures MirrorY(v) == v <==> v.y == 0.0
  {
  }

  /** Mirroring commutes with a translation whose lateral part is zero. */
  lemma MirrorYAddCentred(location: Vec3, v: Vec3)
    requires location.y == 0.0
    ensures Add(location, MirrorY(v)) == MirrorY(Add(location, v))
  {
  }

  datatype Side = LEFT | RIGHT {
    /** Position of the side in a two-entry per-side array. */
    function Index(): nat {
      if LEFT? then 0 else 1
    }
  }

  /** A right-side point expressed for `side`: unchanged on the right,
      reflected in y on the left. */
  function OnSide(side: Side, v: Vec3): (r: Vec3)
    ensures r.x == v.x && r.z == v.z
    ensures r.y == (if side.RIGHT? then v.y else -v.y)
  {
    if side == LEFT then MirrorY(v) else v
  }

  /** A wheel identifier as received by the dispatch functions: one of the
      four enumerators, or any other value (`OtherWheel`). */
  datatype WheelId = FRONT_LEFT | FRONT_RIGHT | REAR_LEFT | REAR_RIGHT | OtherWheel(code: int) {

    predicate IsValid() {
      !OtherWheel?
    }

    predicate IsFront() {
      FRONT_LEFT? || FRONT_RIGHT?
    }

    predicate IsRear() {
      REAR_LEFT? || REAR_RIGHT?
    }

    /** Position in a four-entry per-wheel vector (declaration order). */
    function Index(): (i: nat)
      requires IsValid()
      ensures i < 4
    {
      match this
      case FRONT_LEFT => 0
      case FRONT_RIGHT => 1
      case REAR_LEFT => 2
      case REAR_RIGHT => 3
    }

    function WheelSide(): Side
      requires IsValid()
    {
      if FRONT_LEFT? || REAR_LEFT? then LEFT else RIGHT
    }
  }

  lemma WheelIndexInjective(a: WheelId, b: WheelId)
    requires a.IsValid() && b.IsValid()
    ensures a.Index() == b.Index() ==> a == b
  {
  }
}
