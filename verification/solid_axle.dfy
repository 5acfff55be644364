/** Solid-axle suspension template (ChSolidAxle): its named hardpoints, the
    mirroring convention that derives the left side from the right, and the
    per-side structure of its bodies, joints and force elements.  The
    numeric hardpoint table is supplied by a concrete vehicle (the template
    declares `getLocation` abstract), so it is a parameter here. */
module SolidAxleSuspension {
  import opened Geometry
  import opened Physics

  datatype PointId =
    | AXLE_OUTER | SHOCK_A | SHOCK_C | KNUCKLE_L | KNUCKLE_U
    | LL_A | LL_A_X | LL_A_Z | LL_C | LL_C_X | LL_C_Z
    | UL_A | UL_A_X | UL_A_Z | UL_C | UL_C_X | UL_C_Z
    | SPRING_A | SPRING_C | TIEROD_C | TIEROD_K
    | SPINDLE | KNUCKLE_CM | LL_CM | UL_CM | AXLE_CM

  const NUM_POINTS: nat := 26

  /** The enumerator's position in the declaration. */
  function Ordinal(p: PointId): (i: nat)
    ensures i < NUM_POINTS
  {
    match p
    case AXLE_OUTER => 0  case SHOCK_A => 1  case SHOCK_C => 2  case KNUCKLE_L => 3
    case KNUCKLE_U => 4  case LL_A => 5  case LL_A_X => 6  case LL_A_Z => 7
    case LL_C => 8  case LL_C_X => 9  case LL_C_Z => 10  case UL_A => 11
    case UL_A_X => 12  case UL_A_Z => 13  case UL_C => 14  case UL_C_X => 15
    case UL_C_Z => 16  case SPRING_A => 17  case SPRING_C => 18  case TIEROD_C => 19
    case TIEROD_K => 20  case SPINDLE => 21  case KNUCKLE_CM => 22  case LL_CM => 23
    case UL_CM => 24  case AXLE_CM => 25
  }

  /** The enumerator at a position. */
  function PointAt(i: nat): (p: PointId)
    requires i < NUM_POINTS
    ensures Ordinal(p) == i
  {
    [AXLE_OUTER, SHOCK_A, SHOCK_C, KNUCKLE_L, KNUCKLE_U, LL_A, LL_A_X, LL_A_Z,
     LL_C, LL_C_X, LL_C_Z, UL_A, UL_A_X, UL_A_Z, UL_C, UL_C_X, UL_C_Z,
     SPRING_A, SPRING_C, TIEROD_C, TIEROD_K, SPINDLE, KNUCKLE_CM, LL_CM, UL_CM, AXLE_CM][i]
  }

  /** Reading back the identifier at an identifier's position gives it back. */
  lemma {:induction false} PointAtOrdinal(p: PointId)
    ensures PointAt(Ordinal(p)) == p
  {
    match p {
      case AXLE_OUTER =>  case SHOCK_A =>  case SHOCK_C =>  case KNUCKLE_L =>
      case KNUCKLE_U =>  case LL_A =>  case LL_A_X =>  case LL_A_Z =>
      case LL_C =>  case LL_C_X =>  case LL_C_Z =>  case UL_A =>
      case UL_A_X =>  case UL_A_Z =>  case UL_C =>  case UL_C_X =>
      case UL_C_Z =>  case SPRING_A =>  case SPRING_C =>  case TIEROD_C =>
      case TIEROD_K =>  case SPINDLE =>  case KNUCKLE_CM =>  case LL_CM =>
      case UL_CM =>  case AXLE_CM =>
    }
  }

  /** The 26 identifiers are numbered 0..25 without repetitions, so a
      hardpoint table holds exactly one slot per identifier. */
  lemma {:induction false} OrdinalInjective(p: PointId, q: PointId)
    ensures Ordinal(p) == Ordinal(q) <==> p == q
  {
    PointAtOrdinal(p);
    PointAtOrdinal(q);
  }

  /** A right-side hardpoint table: one location per identifier. */
  predicate IsTable(table: seq<Vec3>) {
    |table| == NUM_POINTS
  }

  /** `getLocation`: the right-side location of a hardpoint. */
  function GetLocation(table: seq<Vec3>, which: PointId): Vec3
    requires IsTable(table)
  {
    table[Ordinal(which)]
  }

  /** The location of a hardpoint on `side`, relative to the suspension
      reference: the table entry on the right, its y-reflection on the left. */
  function SideLocation(table: seq<Vec3>, side: Side, which: PointId): (p: Vec3)
    requires IsTable(table)
    ensures p.x == GetLocation(table, which).x && p.z == GetLocation(table, which).z
    ensures side == RIGHT ==> p.y == GetLocation(table, which).y
    ensures side == LEFT ==> p.y == -GetLocation(table, which).y
  {
    OnSide(side, GetLocation(table, which))
  }

  /** The points handed to the per-side initialization: every hardpoint of
      `side`, offset by the suspension's location on the chassis, in
      identifier order. */
  function SidePoints(table: seq<Vec3>, side: Side, location: Vec3): (pts: seq<Vec3>)
    requires IsTable(table)
    ensures |pts| == NUM_POINTS
    ensures forall i :: 0 <= i < NUM_POINTS ==> pts[i] == Add(location, SideLocation(table, side, PointAt(i)))
  {
    seq(NUM_POINTS, i requires 0 <= i < NUM_POINTS => Add(location, SideLocation(table, side, PointAt(i))))
  }

  /** Mounted on the vehicle's centre plane, the two sides are exact
      y-mirrors of each other, point by point, and reflecting twice gives
      the original side back. */
  lemma {:induction false} SidesAreMirrorImages(table: seq<Vec3>, location: Vec3)
    requires IsTable(table) && location.y == 0.0
    ensures forall i :: 0 <= i < NUM_POINTS ==>
      SidePoints(table, LEFT, location)[i] == MirrorY(SidePoints(table, RIGHT, location)[i])
    ensures forall i :: 0 <= i < NUM_POINTS ==>
      MirrorY(SidePoints(table, LEFT, location)[i]) == SidePoints(table, RIGHT, location)[i]
  {
    forall i | 0 <= i < NUM_POINTS
      ensures SidePoints(table, LEFT, location)[i] == MirrorY(SidePoints(table, RIGHT, location)[i])
      ensures MirrorY(SidePoints(table, LEFT, location)[i]) == SidePoints(table, RIGHT, location)[i]
    {
      var v := GetLocation(table, PointAt(i));
      MirrorYAddCentred(location, v);
      MirrorYInvolution(Add(location, v));
    }
  }

  /** The members the template keeps once per side (its two-entry arrays,
      one entry of each here).  The spindle, its revolute joint and the axle
      shaft are the members every suspension exposes to the vehicle; the
      axle shaft exists only on a driven suspension. */
  datatype SideParts = SideParts(
    knuckle: Body, upperLink: Body, lowerLink: Body,
    revoluteKingpin: Joint,
    sphericalUpperLink: Joint, sphericalLowerLink: Joint,
    universalUpperLink: Joint, universalLowerLink: Joint,
    distTierod: Joint,
    shock: LinkSpring, spring: LinkSpring,
    spindle: Body, revolute: Joint, axle: Shaft?)

  /** The joint kinds the template declares: the kingpin and the spindle
      joint are revolute, the four link joints (including the two called
      universal) are spherical, and the tie rod is a distance constraint. */
  predicate JointKinds(p: SideParts) {
    && p.revoluteKingpin.kind == Revolute && p.revolute.kind == Revolute
    && p.sphericalUpperLink.kind == Spherical && p.sphericalLowerLink.kind == Spherical
    && p.universalUpperLink.kind == Spherical && p.universalLowerLink.kind == Spherical
    && p.distTierod.kind == Distance
  }

  /** Builds the members of one side. */
  method NewSide(driven: bool) returns (p: SideParts)
    ensures JointKinds(p)
    ensures fresh(p.knuckle) && fresh(p.spindle) && fresh(p.spring) && fresh(p.revolute)
    ensures p.axle != null <==> driven
    ensures p.axle != null ==> fresh(p.axle)
  {
    var knuckle := new Body();
    var upperLink := new Body();
    var lowerLink := new Body();
    var kingpin := new Joint(Revolute);
    var sphUpper := new Joint(Spherical);
    var sphLower := new Joint(Spherical);
    var uniUpper := new Joint(Spherical);
    var uniLower := new Joint(Spherical);
    var tierod := new Joint(Distance);
    var shock := new LinkSpring();
    var spring := new LinkSpring();
    var spindle := new Body();
    var revolute := new Joint(Revolute);
    var axle: Shaft? := null;
    if driven {
      axle := new Shaft(0.0);
    }
    p := SideParts(knuckle, upperLink, lowerLink, kingpin, sphUpper, sphLower,
                   uniUpper, uniLower, tierod, shock, spring, spindle, revolute, axle);
  }

  /** The structure of a solid-axle suspension: one axle tube shared by both
      sides, and the per-side members indexed by `Side.Index()`.  Everything
      is built once, with the object. */
  class SolidAxle {
    const name: string
    const steerable: bool
    const driven: bool
    const axleTube: Body
    const sides: seq<SideParts>
    /** The spindle bodies of both sides. */
    const spindles: set<Body>

    /** One entry per side, built from distinct objects, with the template's
        joint kinds, and with axle shafts exactly when driven. */
    predicate Valid() {
      && |sides| == 2
      && spindles == {sides[0].spindle, sides[1].spindle}
      && JointKinds(sides[0]) && JointKinds(sides[1])
      && sides[0].knuckle != sides[1].knuckle
      && sides[0].spindle != sides[1].spindle
      && sides[0].spring != sides[1].spring
      && sides[0].revolute != sides[1].revolute
      && (sides[0].axle != null <==> driven) && (sides[1].axle != null <==> driven)
      && (driven ==> sides[0].axle != sides[1].axle)
    }

    constructor (name: string, steerable: bool := false, driven: bool := false)
      ensures Valid()
      ensures this.name == name && this.steerable == steerable && this.driven == driven
      ensures fresh(axleTube) && fresh(spindles)
      ensures axleTube != sides[0].spindle && axleTube != sides[1].spindle
    {
      this.name, this.steerable, this.driven := name, steerable, driven;
      axleTube := new Body();
      var left := NewSide(driven);
      var right := NewSide(driven);
      sides := [left, right];
      spindles := {left.spindle, right.spindle};
    }

    /** The spindle of a side: one of the suspension's spindles, and not the
        other side's. */
    function GetSpindle(side: Side): (s: Body)
      requires |sides| == 2
      ensures Valid() ==> s in spindles && s != sides[1 - side.Index()].spindle
    {
      sides[side.Index()].spindle
    }

    /** The revolute joint that carries a side's spindle, distinct from the
        other side's. */
    function GetRevolute(side: Side): (j: Joint)
      requires |sides| == 2
      ensures Valid() ==> j.kind == Revolute && j != sides[1 - side.Index()].revolute
    {
      sides[side.Index()].revolute
    }

    /** The axle shaft of a side; null on a suspension that is not driven. */
    function GetAxle(side: Side): (a: Shaft?)
      requires |sides| == 2
      ensures Valid() ==> (a != null <==> driven)
    {
      sides[side.Index()].axle
    }

    function GetSpringForce(side: Side): real
      requires |sides| == 2
      reads sides[side.Index()].spring
    {
      sides[side.Index()].spring.force
    }

    function GetSpringLen(side: Side): real
      requires |sides| == 2
      reads sides[side.Index()].spring
    {
      sides[side.Index()].spring.length
    }
  }

  /** Each side's spring readings come from that side's own spring, and the
      two springs are distinct objects: a side's force and length depend on
      its own spring only (the `reads` clauses). */
  lemma SpringsPerSide(a: SolidAxle)
    requires a.Valid()
    ensures a.GetSpringForce(LEFT) == a.sides[0].spring.force && a.GetSpringForce(RIGHT) == a.sides[1].spring.force
    ensures a.GetSpringLen(LEFT) == a.sides[0].spring.length && a.GetSpringLen(RIGHT) == a.sides[1].spring.length
    ensures a.sides[0].spring != a.sides[1].spring
  {
  }
}
