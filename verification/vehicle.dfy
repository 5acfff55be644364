/** The solid-axle HMMWV vehicle assembly (HMMWV_VehicleSolidAxle): a
    chassis, a non-driven front and a driven rear solid-axle suspension,
    four wheels, a rear-wheel-drive shaft driveline, a powertrain and four
    brakes.  `Initialize` wires the subsystems to each other, `Update` fans
    the driver inputs and the tire forces out to them, and the accessors
    dispatch a wheel identifier to the spindle of its axle and side.

    The wheels, the brakes, the powertrain used by this vehicle and the
    suspension commands (`Initialize`, `ApplySteering`, `ApplyTireForce` of
    the suspension base class) are implemented outside this model; each is
    represented by a small record holding what it was last told. */
module Vehicle {
  import opened Wrappers
  import opened Geometry
  import opened Physics
  import opened SolidAxleSuspension
  import opened Driveline

  /** Inches to metres. */
  const IN2M: real := 0.0254

  /** Steering input (in [-1, 1]) to steering-rack displacement. */
  const STEERING_GAIN: real := 0.08

  /** Where each suspension is mounted on the chassis.  X points to the
      rear, so the front axle has the smaller x. */
  const FRONT_LOCATION: Vec3 := Vec3(-1.691386, 0.0, 0.0263906)
  const REAR_LOCATION: Vec3 := Vec3(1.68656, 0.0, 0.0263906)

  /** The mount locations are the source's inch coordinates converted to
      metres. */
  lemma MountLocationsInInches()
    ensures FRONT_LOCATION == Scale(IN2M, Vec3(-66.59, 0.0, 1.039))
    ensures REAR_LOCATION == Scale(IN2M, Vec3(66.4, 0.0, 1.039))
  {
  }

  /** Both suspensions sit on the vehicle's centre plane at the same height,
      the front one ahead of the rear one. */
  lemma MountLocations()
    ensures FRONT_LOCATION.y == 0.0 && REAR_LOCATION.y == 0.0
    ensures FRONT_LOCATION.z == REAR_LOCATION.z
    ensures FRONT_LOCATION.x < 0.0 < REAR_LOCATION.x
  {
  }

  datatype Axle = Front | Rear

  /** A wheel position: an axle and a side. */
  datatype Slot = Slot(axle: Axle, side: Side)

  /** The axle and side a wheel identifier refers to.  An identifier outside
      the four wheels falls back to the front right position, as every
      body-returning accessor does. */
  function WheelSlot(which: WheelId): (s: Slot)
    ensures which.IsValid() ==> (s.axle == Front <==> which.IsFront())
    ensures which.IsValid() ==> s.side == which.WheelSide()
    ensures !which.IsValid() ==> s == Slot(Front, RIGHT)
  {
    match which
    case FRONT_LEFT => Slot(Front, LEFT)
    case FRONT_RIGHT => Slot(Front, RIGHT)
    case REAR_LEFT => Slot(Rear, LEFT)
    case REAR_RIGHT => Slot(Rear, RIGHT)
    case OtherWheel(_) => Slot(Front, RIGHT)
  }

  /** The wheel identifier of a position. */
  function SlotWheel(s: Slot): (w: WheelId)
    ensures w.IsValid()
  {
    match s
    case Slot(Front, LEFT) => FRONT_LEFT
    case Slot(Front, RIGHT) => FRONT_RIGHT
    case Slot(Rear, LEFT) => REAR_LEFT
    case Slot(Rear, RIGHT) => REAR_RIGHT
  }

  /** The four wheel identifiers and the four positions correspond one to
      one. */
  lemma {:induction false} WheelSlotBijective(which: WheelId, s: Slot)
    ensures WheelSlot(SlotWheel(s)) == s
    ensures which.IsValid() ==> SlotWheel(WheelSlot(which)) == which
  {
    match s {
      case Slot(Front, LEFT) =>
      case Slot(Front, RIGHT) =>
      case Slot(Rear, LEFT) =>
      case Slot(Rear, RIGHT) =>
    }
    match which {
      case FRONT_LEFT =>
      case FRONT_RIGHT =>
      case REAR_LEFT =>
      case REAR_RIGHT =>
      case OtherWheel(_) =>
    }
  }

  /** A tire force as handed to a spindle: force and moment about a point,
      all in the absolute frame. */
  datatype TireForce = TireForce(force: Vec3, moment: Vec3, point: Vec3)

  /** What one suspension was told: where it was mounted and the last
      steering displacement. */
  datatype SuspensionInputs = SuspensionInputs(location: Option<Vec3>, steering: Option<real>)

  /** A wheel and the spindle it was attached to. */
  datatype Wheel = Wheel(spindle: Option<Body>)

  /** A brake, the revolute joint it acts on and the last modulation it
      received. */
  datatype Brake = Brake(revolute: Option<Joint>, modulation: Option<real>)

  /** The powertrain: what it was attached to, the last (time, throttle) it
      was updated with, and how many updates it received. */
  datatype PowertrainInputs = PowertrainInputs(
    chassis: Option<Body>, driveshaft: Option<Shaft>,
    lastUpdate: Option<(real, real)>, updates: nat)

  /** One value per wheel position, as the vehicle keeps one wheel, one
      brake and one spindle per corner. */
  datatype Corners<T> = Corners(frontLeft: T, frontRight: T, rearLeft: T, rearRight: T) {
    function At(s: Slot): T {
      match s
      case Slot(Front, LEFT) => frontLeft
      case Slot(Front, RIGHT) => frontRight
      case Slot(Rear, LEFT) => rearLeft
      case Slot(Rear, RIGHT) => rearRight
    }
  }

  function Same<T>(x: T): Corners<T> {
    Corners(x, x, x, x)
  }

  const NoSuspensionInputs := SuspensionInputs(None, None)

  class SolidAxleVehicle {
    const system: ChSystem
    const chassis: Body
    const front: SolidAxle
    const rear: SolidAxle
    const driveline: ShaftsDriveline2WD

    var frontInputs: SuspensionInputs
    var rearInputs: SuspensionInputs
    /** The last tire force applied to each spindle. */
    var tireForce: Corners<Option<TireForce>>
    var wheels: Corners<Wheel>
    var brakes: Corners<Brake>
    var powertrain: PowertrainInputs

    /** The front suspension is not driven and the rear one is, and the four
        spindles are distinct bodies.  All of this is fixed at construction,
        so it holds in every later state. */
    predicate Valid() {
      && front.Valid() && rear.Valid()
      && !front.driven && rear.driven
      && front != rear
      && front.spindles !! rear.spindles
    }

    /** What wiring the subsystems needs: both suspensions have their two
        sides and the rear one has both axle shafts.  Every valid vehicle
        is assembled (`ValidIsAssembled`). */
    predicate Assembled() {
      && |front.sides| == 2 && |rear.sides| == 2
      && rear.GetAxle(LEFT) != null && rear.GetAxle(RIGHT) != null
    }

    /** The chassis is registered with the system. */
    predicate Registered()
      reads system
    {
      chassis in system.items
    }

    /** Builds the chassis and registers it, then the front (non-driven) and
        rear (driven) suspensions and the driveline; wheels, brakes and the
        powertrain start detached.  The steerable flags and the driveline
        parameters belong to the concrete HMMWV subsystem classes and are
        parameters here. */
    constructor (frontSteerable: bool, rearSteerable: bool, drivelineParams: Params,
                 dirMotorBlock: Vec3, dirAxle: Vec3)
      ensures Valid() && Registered()
      ensures system.items == [chassis]
      ensures front.name == "FrontSusp" && rear.name == "RearSusp"
      ensures front.steerable == frontSteerable && rear.steerable == rearSteerable
      ensures driveline.params == drivelineParams && driveline.driveType == RWD
      ensures driveline.driveshaft == null && driveline.differential == null
      ensures frontInputs == rearInputs == NoSuspensionInputs
      ensures tireForce == Same(None)
      ensures wheels == Same(Wheel(None)) && brakes == Same(Brake(None, None))
      ensures powertrain == PowertrainInputs(None, None, None, 0)
    {
      var sys, body := NewRegisteredChassis();
      system, chassis := sys, body;
      var f, r := NewSuspensions(frontSteerable, rearSteerable);
      front, rear := f, r;
      driveline := new ShaftsDriveline2WD(drivelineParams, dirMotorBlock, dirAxle);
      frontInputs, rearInputs := NoSuspensionInputs, NoSuspensionInputs;
      tireForce := Same(None);
      wheels, brakes := Same(Wheel(None)), Same(Brake(None, None));
      powertrain := PowertrainInputs(None, None, None, 0);
    }

    function Suspension(axle: Axle): SolidAxle {
      if axle == Front then front else rear
    }

    /** Positions the chassis, mounts both suspensions, puts each wheel on
        the spindle of its own axle and side, connects the driveline to the
        rear left and right axle shafts (in that order), gives the
        powertrain the driveline's new driveshaft, and puts each brake on
        the revolute joint of its own spindle. */
    method Initialize(chassisPos: Vec3, chassisRot: Quat)
      requires Assembled() && Registered()
      modifies this, chassis, driveline, system
      ensures chassis.pos == chassisPos && chassis.rot == chassisRot
      ensures frontInputs == old(frontInputs).(location := Some(FRONT_LOCATION))
      ensures rearInputs == old(rearInputs).(location := Some(REAR_LOCATION))
      ensures wheels == SpindleWheels() && brakes == WithRevolutes(old(brakes))
      ensures tireForce == old(tireForce)
      ensures DrivelineOnRearAxle() && fresh(driveline.driveshaft)
      ensures system.items == old(system.items) + [driveline.driveshaft, driveline.differentialBox,
                                                   driveline.conicalGear, driveline.differential]
      ensures powertrain == old(powertrain).(chassis := Some(chassis), driveshaft := Some(driveline.driveshaft))
    {
      PlaceChassis(chassisPos, chassisRot);
      WireDriveline();
      AttachBrakes();
    }

    /** Positions the chassis, mounts both suspensions and puts the wheels
        on their spindles. */
    method PlaceChassis(chassisPos: Vec3, chassisRot: Quat)
      requires |front.sides| == 2 && |rear.sides| == 2
      modifies this, chassis
      ensures chassis.pos == chassisPos && chassis.rot == chassisRot
      ensures frontInputs == old(frontInputs).(location := Some(FRONT_LOCATION))
      ensures rearInputs == old(rearInputs).(location := Some(REAR_LOCATION))
      ensures wheels == SpindleWheels()
      ensures tireForce == old(tireForce) && brakes == old(brakes) && powertrain == old(powertrain)
    {
      chassis.SetPose(chassisPos, chassisRot);
      MountSuspensions();
      AttachWheels();
    }

    /** Initializes the driveline on the rear axle shafts and hands its new
        driveshaft to the powertrain. */
    method WireDriveline()
      requires Assembled() && Registered()
      modifies this, driveline, system
      ensures DrivelineOnRearAxle() && fresh(driveline.driveshaft)
      ensures system.items == old(system.items) + [driveline.driveshaft, driveline.differentialBox,
                                                   driveline.conicalGear, driveline.differential]
      ensures powertrain == old(powertrain).(chassis := Some(chassis), driveshaft := Some(driveline.driveshaft))
      ensures frontInputs == old(frontInputs) && rearInputs == old(rearInputs) && tireForce == old(tireForce)
      ensures wheels == old(wheels) && brakes == old(brakes)
    {
      driveline.Initialize(system, chassis, rear.GetAxle(LEFT), rear.GetAxle(RIGHT));
      ConnectPowertrain(driveline.driveshaft);
    }

    /** The wheels of the assembled vehicle: each on the spindle of its own
        axle and side. */
    function SpindleWheels(): Corners<Wheel>
      requires |front.sides| == 2 && |rear.sides| == 2
    {
      Corners(Wheel(Some(front.GetSpindle(LEFT))), Wheel(Some(front.GetSpindle(RIGHT))),
              Wheel(Some(rear.GetSpindle(LEFT))), Wheel(Some(rear.GetSpindle(RIGHT))))
    }

    /** The brakes `b` with each put on the revolute joint of its own
        spindle, keeping what else they held. */
    function WithRevolutes(b: Corners<Brake>): Corners<Brake>
      requires |front.sides| == 2 && |rear.sides| == 2
    {
      Corners(b.frontLeft.(revolute := Some(front.GetRevolute(LEFT))),
              b.frontRight.(revolute := Some(front.GetRevolute(RIGHT))),
              b.rearLeft.(revolute := Some(rear.GetRevolute(LEFT))),
              b.rearRight.(revolute := Some(rear.GetRevolute(RIGHT))))
    }

    /** The driveline is wired, reacts against the chassis, and drives the
        rear left and right axle shafts as members 2 and 3. */
    predicate DrivelineOnRearAxle()
      reads driveline
    {
      && driveline.Wired() && |rear.sides| == 2
      && driveline.conicalGear.truss == chassis
      && driveline.differential.shaft2 == rear.GetAxle(LEFT)
      && driveline.differential.shaft3 == rear.GetAxle(RIGHT)
    }

    method MountSuspensions()
      modifies this
      ensures frontInputs == old(frontInputs).(location := Some(FRONT_LOCATION))
      ensures rearInputs == old(rearInputs).(location := Some(REAR_LOCATION))
      ensures tireForce == old(tireForce) && wheels == old(wheels)
      ensures brakes == old(brakes) && powertrain == old(powertrain)
    {
      frontInputs := frontInputs.(location := Some(FRONT_LOCATION));
      rearInputs := rearInputs.(location := Some(REAR_LOCATION));
    }

    method AttachWheels()
      requires |front.sides| == 2 && |rear.sides| == 2
      modifies this
      ensures wheels == SpindleWheels()
      ensures frontInputs == old(frontInputs) && rearInputs == old(rearInputs) && tireForce == old(tireForce)
      ensures brakes == old(brakes) && powertrain == old(powertrain)
    {
      wheels := SpindleWheels();
    }

    method ConnectPowertrain(driveshaft: Shaft)
      modifies this
      ensures powertrain == old(powertrain).(chassis := Some(chassis), driveshaft := Some(driveshaft))
      ensures frontInputs == old(frontInputs) && rearInputs == old(rearInputs) && tireForce == old(tireForce)
      ensures wheels == old(wheels) && brakes == old(brakes)
    {
      powertrain := powertrain.(chassis := Some(chassis), driveshaft := Some(driveshaft));
    }

    method AttachBrakes()
      requires |front.sides| == 2 && |rear.sides| == 2
      modifies this
      ensures brakes == WithRevolutes(old(brakes))
      ensures frontInputs == old(frontInputs) && rearInputs == old(rearInputs) && tireForce == old(tireForce)
      ensures wheels == old(wheels) && powertrain == old(powertrain)
    {
      brakes := WithRevolutes(brakes);
    }

    /** Applies one step of driver inputs: the steering displacement
        (0.08 times the steering input) to the front suspension only, the
        throttle to the powertrain once, each wheel's tire force to the
        spindle of that wheel, and the same braking value to all four
        brakes.  `tireForces` is indexed by wheel identifier. */
    method Update(time: real, throttle: real, steering: real, braking: real, tireForces: seq<TireForce>)
      requires |tireForces| >= 4
      modifies this
      ensures frontInputs == old(frontInputs).(steering := Some(STEERING_GAIN * steering))
      ensures rearInputs == old(rearInputs)
      ensures forall w: WheelId :: w.IsValid() ==> tireForce.At(WheelSlot(w)) == Some(tireForces[w.Index()])
      ensures powertrain == old(powertrain).(lastUpdate := Some((time, throttle)), updates := old(powertrain.updates) + 1)
      ensures forall s: Slot :: brakes.At(s) == old(brakes.At(s)).(modulation := Some(braking))
      ensures wheels == old(wheels)
    {
      var displ := STEERING_GAIN * steering;
      frontInputs := frontInputs.(steering := Some(displ));

      powertrain := powertrain.(lastUpdate := Some((time, throttle)), updates := powertrain.updates + 1);

      tireForce := Corners(Some(tireForces[FRONT_LEFT.Index()]), Some(tireForces[FRONT_RIGHT.Index()]),
                           Some(tireForces[REAR_LEFT.Index()]), Some(tireForces[REAR_RIGHT.Index()]));

      brakes := Corners(brakes.frontLeft.(modulation := Some(braking)),
                        brakes.frontRight.(modulation := Some(braking)),
                        brakes.rearLeft.(modulation := Some(braking)),
                        brakes.rearRight.(modulation := Some(braking)));
    }

    /** The spindle body of a wheel: the spindle of the wheel's own axle
        and side, and the front-right spindle for any other identifier. */
    function GetWheelBody(which: WheelId): (b: Body)
      requires Valid()
      reads this
      ensures which.IsValid() ==>
        b == Suspension(if which.IsFront() then Front else Rear).GetSpindle(which.WheelSide())
      ensures !which.IsValid() ==> b == front.GetSpindle(RIGHT)
      ensures b in front.spindles + rear.spindles
    {
      var s := WheelSlot(which);
      Suspension(s.axle).GetSpindle(s.side)
    }

    function GetWheelPos(which: WheelId): (r: Vec3)
      requires Valid()
      reads this, GetWheelBody(which)
      ensures which.IsValid() ==>
        r == Suspension(if which.IsFront() then Front else Rear).GetSpindle(which.WheelSide()).pos
      ensures !which.IsValid() ==> r == front.GetSpindle(RIGHT).pos
    {
      GetWheelBody(which).pos
    }

    function GetWheelRot(which: WheelId): (r: Quat)
      requires Valid()
      reads this, GetWheelBody(which)
      ensures which.IsValid() ==>
        r == Suspension(if which.IsFront() then Front else Rear).GetSpindle(which.WheelSide()).rot
      ensures !which.IsValid() ==> r == front.GetSpindle(RIGHT).rot
    {
      GetWheelBody(which).rot
    }

    function GetWheelLinVel(which: WheelId): (r: Vec3)
      requires Valid()
      reads this, GetWheelBody(which)
      ensures which.IsValid() ==>
        r == Suspension(if which.IsFront() then Front else Rear).GetSpindle(which.WheelSide()).linVel
      ensures !which.IsValid() ==> r == front.GetSpindle(RIGHT).linVel
    {
      GetWheelBody(which).linVel
    }

    function GetWheelAngVel(which: WheelId): (r: Vec3)
      requires Valid()
      reads this, GetWheelBody(which)
      ensures which.IsValid() ==>
        r == Suspension(if which.IsFront() then Front else Rear).GetSpindle(which.WheelSide()).angVel
      ensures !which.IsValid() ==> r == front.GetSpindle(RIGHT).angVel
    {
      GetWheelBody(which).angVel
    }

    /** The axle-shaft speed of a wheel, and -1 for an identifier outside
        the four wheels.  Only the driven (rear) suspension has axle
        shafts. */
    function GetWheelOmega(which: WheelId): (r: real)
      requires Valid()
      requires which.IsValid() ==> Suspension(WheelSlot(which).axle).driven
      reads this, if which.IsValid() then {Suspension(WheelSlot(which).axle).GetAxle(WheelSlot(which).side)} else {}
      ensures which.IsRear() ==> r == rear.GetAxle(which.WheelSide()).speed
      ensures !which.IsValid() ==> r == -1.0
    {
      if which.IsValid() then
        var s := WheelSlot(which);
        Suspension(s.axle).GetAxle(s.side).speed
      else -1.0
    }

    function GetSpringForce(which: WheelId): (r: real)
      requires Valid()
      reads this, if which.IsValid() then {Suspension(WheelSlot(which).axle).sides[WheelSlot(which).side.Index()].spring} else {}
      ensures which.IsValid() ==>
        r == Suspension(if which.IsFront() then Front else Rear).GetSpringForce(which.WheelSide())
      ensures !which.IsValid() ==> r == -1.0
    {
      if which.IsValid() then
        var s := WheelSlot(which);
        Suspension(s.axle).GetSpringForce(s.side)
      else -1.0
    }

    function GetSpringLength(which: WheelId): (r: real)
      requires Valid()
      reads this, if which.IsValid() then {Suspension(WheelSlot(which).axle).sides[WheelSlot(which).side.Index()].spring} else {}
      ensures which.IsValid() ==>
        r == Suspension(if which.IsFront() then Front else Rear).GetSpringLen(which.WheelSide())
      ensures !which.IsValid() ==> r == -1.0
    {
      if which.IsValid() then
        var s := WheelSlot(which);
        Suspension(s.axle).GetSpringLen(s.side)
      else -1.0
    }
  }

  /** A valid vehicle meets what `Initialize` needs. */
  lemma ValidIsAssembled(v: SolidAxleVehicle)
    requires v.Valid()
    ensures v.Assembled()
  {
  }

  /** After initialization each position's wheel sits on the spindle of
      that position's own axle and side. */
  lemma SpindleWheelsBySlot(v: SolidAxleVehicle, s: Slot)
    requires |v.front.sides| == 2 && |v.rear.sides| == 2
    ensures v.SpindleWheels().At(s) == Wheel(Some(v.Suspension(s.axle).GetSpindle(s.side)))
  {
  }

  /** After initialization each position's brake acts on the revolute joint
      of that position's own spindle, and keeps its modulation. */
  lemma WithRevolutesBySlot(v: SolidAxleVehicle, b: Corners<Brake>, s: Slot)
    requires |v.front.sides| == 2 && |v.rear.sides| == 2
    ensures v.WithRevolutes(b).At(s).revolute == Some(v.Suspension(s.axle).GetRevolute(s.side))
    ensures v.WithRevolutes(b).At(s).modulation == b.At(s).modulation
  {
  }

  /** The four wheel identifiers reach four different spindles, each the
      spindle of the identifier's own axle and side; any other identifier
      reaches the front right spindle. */
  lemma {:induction false} WheelBodiesDistinct(v: SolidAxleVehicle, a: WheelId, b: WheelId, other: WheelId)
    requires v.Valid() && a.IsValid() && b.IsValid()
    ensures v.GetWheelBody(a) == v.GetWheelBody(b) <==> a == b
    ensures v.GetWheelBody(a) == v.Suspension(if a.IsFront() then Front else Rear).GetSpindle(a.WheelSide())
    ensures !other.IsValid() ==> v.GetWheelBody(other) == v.front.GetSpindle(RIGHT)
  {
    WheelSlotBijective(a, WheelSlot(a));
    WheelSlotBijective(b, WheelSlot(b));
    if WheelSlot(a) != WheelSlot(b) {
      var sa, sb := WheelSlot(a), WheelSlot(b);
      if sa.axle == sb.axle {
        assert sa.side != sb.side;
        assert v.Suspension(sa.axle).Valid();
      }
    }
  }

  /** Once the driveline is wired to the rear axle, a rear wheel's torque is
      the negated differential reaction on the member that is that wheel's
      own axle shaft: exactly one of the two members is, since the two
      axle shafts are distinct. */
  lemma RearTorqueFromOwnAxle(v: SolidAxleVehicle, w: WheelId)
    requires v.Valid() && v.DrivelineOnRearAxle() && w.IsRear()
    ensures var d := v.driveline.differential; var own := v.rear.GetAxle(w.WheelSide());
      (d.shaft2 == own) != (d.shaft3 == own)
    ensures var d := v.driveline.differential;
      v.driveline.GetWheelTorque(w)
      == -(if d.shaft2 == v.rear.GetAxle(w.WheelSide()) then d.torqueReactionOn2 else d.torqueReactionOn3)
  {
  }

  /** The pose and velocity accessors read the spindle of the wheel's own
      axle and side; any other identifier reads the front right spindle. */
  lemma SpindleAccessors(v: SolidAxleVehicle, which: WheelId)
    requires v.Valid()
    ensures var b := v.Suspension(WheelSlot(which).axle).GetSpindle(WheelSlot(which).side);
      v.GetWheelPos(which) == b.pos && v.GetWheelRot(which) == b.rot &&
      v.GetWheelLinVel(which) == b.linVel && v.GetWheelAngVel(which) == b.angVel
    ensures !which.IsValid() ==> v.GetWheelPos(which) == v.front.GetSpindle(RIGHT).pos
    ensures which == REAR_LEFT ==> v.GetWheelAngVel(which) == v.rear.GetSpindle(LEFT).angVel
  {
  }

  /** The scalar accessors return -1 for an identifier outside the four
      wheels and otherwise read the spring or axle shaft of the wheel's own
      axle and side. */
  lemma ScalarAccessors(v: SolidAxleVehicle, which: WheelId)
    requires v.Valid()
    ensures !which.IsValid() ==> v.GetSpringForce(which) == -1.0 && v.GetSpringLength(which) == -1.0
    ensures !which.IsValid() ==> v.GetWheelOmega(which) == -1.0
    ensures which.IsRear() ==> v.GetWheelOmega(which) == v.rear.GetAxle(which.WheelSide()).speed
    ensures which.IsValid() ==>
      v.GetSpringForce(which) == v.Suspension(WheelSlot(which).axle).GetSpringForce(which.WheelSide())
    ensures which.IsValid() ==>
      v.GetSpringLength(which) == v.Suspension(WheelSlot(which).axle).GetSpringLen(which.WheelSide())
  {
  }

  /** The front (non-driven) and rear (driven) suspensions, built from
      distinct objects. */
  method NewSuspensions(frontSteerable: bool, rearSteerable: bool) returns (f: SolidAxle, r: SolidAxle)
    ensures f.Valid() && r.Valid() && f != r && f.spindles !! r.spindles
    ensures f.name == "FrontSusp" && !f.driven && f.steerable == frontSteerable
    ensures r.name == "RearSusp" && r.driven && r.steerable == rearSteerable
  {
    f := new SolidAxle("FrontSusp", frontSteerable, false);
    r := new SolidAxle("RearSusp", rearSteerable, true);
  }

  /** A new system with a new chassis body as its only registered item. */
  method NewRegisteredChassis() returns (system: ChSystem, chassis: Body)
    ensures system.items == [chassis]
  {
    system := new ChSystem();
    chassis := new Body();
    system.Add(chassis);
  }
}
