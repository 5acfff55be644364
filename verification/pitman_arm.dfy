/** The HMMWV Pitman-arm steering geometry: constant tables of hardpoint
    locations and joint axis directions, each with a fallback for an
    unknown identifier. */
module PitmanArm {
  import opened Geometry

  /** The hardpoints of the mechanism, and any other identifier value. */
  datatype PointId =
    | STEERINGLINK   // steering link centre of mass
    | PITMANARM      // Pitman arm centre of mass
    | REV            // revolute joint of the Pitman arm to the chassis
    | UNIV           // universal joint of the Pitman arm to the steering link
    | REVSPH_R       // revolute side of the idler arm
    | REVSPH_S       // spherical side of the idler arm
    | TIEROD_PA      // tie rod attachment on the Pitman-arm side
    | TIEROD_IA      // tie rod attachment on the idler-arm side
    | OtherPoint(code: int)

  /** The joint axes, and any other identifier value. */
  datatype DirectionId =
    | REV_AXIS
    | UNIV_AXIS_ARM
    | UNIV_AXIS_LINK
    | REVSPH_AXIS
    | OtherDirection(code: int)

  /** Hardpoint locations in the steering frame; the origin for an unknown
      identifier.  Only the two tie-rod points leave the plane z = 0. */
  function GetLocation(which: PointId): (r: Vec3)
    ensures which.OtherPoint? ==> r == Zero
    ensures r.z != 0.0 <==> which == TIEROD_PA || which == TIEROD_IA
  {
    match which
    case STEERINGLINK => Vec3(-0.192, 0.0, 0.0)
    case PITMANARM => Vec3(-0.064, -0.249, 0.0)
    case REV => Vec3(0.0, -0.249, 0.0)
    case UNIV => Vec3(-0.129, -0.249, 0.0)
    case REVSPH_R => Vec3(0.0, 0.325, 0.0)
    case REVSPH_S => Vec3(-0.129, 0.325, 0.0)
    case TIEROD_PA => Vec3(-0.195, -0.448, 0.035)
    case TIEROD_IA => Vec3(-0.195, 0.448, 0.035)
    case OtherPoint(_) => Vec3(0.0, 0.0, 0.0)
  }

  /** Joint axis directions: the vertical axis for every identifier,
      known or not, except the link-side universal axis, which is X. */
  function GetDirection(which: DirectionId): (r: Vec3)
    ensures which != UNIV_AXIS_LINK ==> r == Vec3(0.0, 0.0, 1.0)
    ensures which == UNIV_AXIS_LINK ==> r == Vec3(1.0, 0.0, 0.0)
    ensures Dot(r, r) == 1.0
  {
    match which
    case REV_AXIS => Vec3(0.0, 0.0, 1.0)
    case UNIV_AXIS_ARM => Vec3(0.0, 0.0, 1.0)
    case UNIV_AXIS_LINK => Vec3(1.0, 0.0, 0.0)
    case REVSPH_AXIS => Vec3(0.0, 0.0, 1.0)
    case OtherDirection(_) => Vec3(0.0, 0.0, 1.0)
  }

  /** The two tie-rod attachments are mirror images across y = 0. */
  lemma TierodsMirror()
    ensures GetLocation(TIEROD_IA) == MirrorY(GetLocation(TIEROD_PA))
    ensures GetLocation(TIEROD_IA) != GetLocation(TIEROD_PA)
  {
  }

  /** The Pitman arm, its revolute and its universal joint lie on one line
      y = -0.249; both idler-arm points lie on y = 0.325; the Pitman-arm
      side is the left (negative y) side. */
  lemma SharedLateralLines()
    ensures GetLocation(PITMANARM).y == GetLocation(REV).y == GetLocation(UNIV).y == -0.249
    ensures GetLocation(REVSPH_R).y == GetLocation(REVSPH_S).y == 0.325
    ensures GetLocation(TIEROD_PA).y < 0.0 < GetLocation(TIEROD_IA).y
  {
  }

  /** The two axes of the universal joint are perpendicular. */
  lemma UniversalAxesPerpendicular()
    ensures Dot(GetDirection(UNIV_AXIS_ARM), GetDirection(UNIV_AXIS_LINK)) == 0.0
  {
  }
}
