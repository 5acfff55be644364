/** Reduced double-wishbone suspension template (ChDoubleWishboneReduced):
    one instance per side, its twelve named hardpoints, the y-reflection
    that turns the right-side table into a left suspension, and the
    linkage of one revolute joint, five distance constraints and one
    shock. */
module DoubleWishbone {
  import opened Geometry
  import opened Physics

  datatype PointId =
    | SPINDLE | UPRIGHT | UCA_F | UCA_B | UCA_U | LCA_F | LCA_B | LCA_U
    | SHOCK_C | SHOCK_U | TIEROD_C | TIEROD_U

  const NUM_POINTS: nat := 12

  /** The enumerator's position in the declaration. */
  function Ordinal(p: PointId): (i: nat)
    ensures i < NUM_POINTS
  {
    match p
    case SPINDLE => 0  case UPRIGHT => 1  case UCA_F => 2  case UCA_B => 3
    case UCA_U => 4  case LCA_F => 5  case LCA_B => 6  case LCA_U => 7
    case SHOCK_C => 8  case SHOCK_U => 9  case TIEROD_C => 10  case TIEROD_U => 11
  }

  /** The enumerator at a position. */
  function PointAt(i: nat): (p: PointId)
    requires i < NUM_POINTS
    ensures Ordinal(p) == i
  {
    [SPINDLE, UPRIGHT, UCA_F, UCA_B, UCA_U, LCA_F, LCA_B, LCA_U,
     SHOCK_C, SHOCK_U, TIEROD_C, TIEROD_U][i]
  }

  /** Reading back the identifier at an identifier's position gives it back. */
  lemma {:induction false} PointAtOrdinal(p: PointId)
    ensures PointAt(Ordinal(p)) == p
  {
    match p {
      case SPINDLE =>  case UPRIGHT =>  case UCA_F =>  case UCA_B =>
      case UCA_U =>  case LCA_F =>  case LCA_B =>  case LCA_U =>
      case SHOCK_C =>  case SHOCK_U =>  case TIEROD_C =>  case TIEROD_U =>
    }
  }

  /** The twelve identifiers are numbered 0..11 without repetitions, so the
      points array holds exactly one slot per identifier. */
  lemma {:induction false} OrdinalInjective(p: PointId, q: PointId)
    ensures Ordinal(p) == Ordinal(q) <==> p == q
  {
    PointAtOrdinal(p);
    PointAtOrdinal(q);
  }

  /** A right-side hardpoint table, one location per identifier, supplied by
      the concrete suspension (`getLocation` is abstract in the template). */
  predicate IsTable(table: seq<Vec3>) {
    |table| == NUM_POINTS
  }

  /** The chassis-frame location of hardpoint number `i` of a suspension
      built for `side` and mounted at `location` (relative to the chassis):
      the right-side table entry, reflected in y for a left suspension,
      offset by the location. */
  function PlacedPoint(table: seq<Vec3>, side: Side, location: Vec3, i: nat): (p: Vec3)
    requires IsTable(table) && i < NUM_POINTS
    ensures p.x == location.x + table[i].x && p.z == location.z + table[i].z
    ensures p.y == location.y + (if side == RIGHT then table[i].y else -table[i].y)
  {
    Add(location, OnSide(side, table[i]))
  }

  /** Every hardpoint of a suspension built for `side` at `location`. */
  function PlacedPoints(table: seq<Vec3>, side: Side, location: Vec3): (pts: seq<Vec3>)
    requires IsTable(table)
    ensures |pts| == NUM_POINTS
    ensures forall i :: 0 <= i < NUM_POINTS ==> pts[i] == PlacedPoint(table, side, location, i)
  {
    seq(NUM_POINTS, i requires 0 <= i < NUM_POINTS => PlacedPoint(table, side, location, i))
  }

  /** A left and a right suspension built from the same table and placed on
      the centre plane at the same x and z are exact y-mirrors, hardpoint by
      hardpoint. */
  lemma {:induction false} LeftMirrorsRight(table: seq<Vec3>, location: Vec3)
    requires IsTable(table) && location.y == 0.0
    ensures forall i :: 0 <= i < NUM_POINTS ==>
      PlacedPoints(table, LEFT, location)[i] == MirrorY(PlacedPoints(table, RIGHT, location)[i])
  {
    forall i | 0 <= i < NUM_POINTS
      ensures PlacedPoints(table, LEFT, location)[i] == MirrorY(PlacedPoints(table, RIGHT, location)[i])
    {
      MirrorYAddCentred(location, table[i]);
    }
  }

  /** One side of a reduced double-wishbone suspension.  The upright is
      held to the chassis by five distance constraints (the two upper and
      the two lower control-arm links and the tie rod), the spindle turns on
      one revolute joint, and one shock acts between chassis and upright.
      Only a driven suspension has an axle shaft. */
  class DoubleWishboneReduced {
    const name: string
    const side: Side
    const driven: bool

    const points: array<Vec3>

    const spindle: Body
    const upright: Body
    const revolute: Joint
    const distUCA_F: Joint
    const distUCA_B: Joint
    const distLCA_F: Joint
    const distLCA_B: Joint
    const distTierod: Joint
    const shock: LinkSpring
    const axle: Shaft?

    /** One point slot per identifier, the template's joint kinds, and an
        axle shaft exactly when driven. */
    predicate Valid() {
      && points.Length == NUM_POINTS
      && revolute.kind == Revolute
      && distUCA_F.kind == Distance && distUCA_B.kind == Distance
      && distLCA_F.kind == Distance && distLCA_B.kind == Distance
      && distTierod.kind == Distance
      && (axle != null <==> driven)
    }

    constructor (name: string, side: Side, driven: bool := false)
      ensures Valid()
      ensures this.name == name && this.side == side && this.driven == driven
      ensures fresh(points) && fresh(spindle) && fresh(upright) && spindle != upright
    {
      this.name, this.side, this.driven := name, side, driven;
      points := new Vec3[NUM_POINTS](_ => Zero);
      spindle := new Body();
      upright := new Body();
      revolute := new Joint(Revolute);
      distUCA_F := new Joint(Distance);
      distUCA_B := new Joint(Distance);
      distLCA_F := new Joint(Distance);
      distLCA_B := new Joint(Distance);
      distTierod := new Joint(Distance);
      shock := new LinkSpring();
      if driven {
        axle := new Shaft(0.0);
      } else {
        axle := null;
      }
    }

    /** Records the suspension's hardpoints for its side at `location`, one
        slot per identifier. */
    method InitializePoints(table: seq<Vec3>, location: Vec3)
      requires Valid() && IsTable(table)
      modifies points
      ensures points[..] == PlacedPoints(table, side, location)
    {
      var i := 0;
      while i < NUM_POINTS
        invariant 0 <= i <= NUM_POINTS
        invariant forall k :: 0 <= k < i ==> points[k] == PlacedPoint(table, side, location, k)
      {
        points[i] := PlacedPoint(table, side, location, i);
        i := i + 1;
      }
    }

    /** The recorded location of one hardpoint. */
    function Point(which: PointId): Vec3
      requires Valid()
      reads points
    {
      points[Ordinal(which)]
    }
  }

  /** `getLocation`: the right-side location of a hardpoint. */
  function GetLocation(table: seq<Vec3>, which: PointId): Vec3
    requires IsTable(table)
  {
    table[Ordinal(which)]
  }

  /** After initialization each identifier's slot holds that identifier's
      own table entry, mirrored for a left suspension and offset by the
      location; a right suspension holds the table entry itself. */
  lemma {:induction false} InitializedPoint(d: DoubleWishboneReduced, table: seq<Vec3>, location: Vec3, which: PointId)
    requires d.Valid() && IsTable(table)
    requires d.points[..] == PlacedPoints(table, d.side, location)
    ensures d.Point(which) == Add(location, OnSide(d.side, GetLocation(table, which)))
    ensures d.side == RIGHT ==> d.Point(which) == Add(location, GetLocation(table, which))
    ensures d.side == LEFT ==> d.Point(which) == Add(location, MirrorY(GetLocation(table, which)))
  {
    assert d.points[Ordinal(which)] == d.points[..][Ordinal(which)];
  }
}
