/** Two-wheel-drive shaft driveline (ChShaftsDriveline2WD): a driveshaft
    coupled through an angled (conical) gear to a differential box, which a
    planetary constraint couples to the left and right axle shafts. */
module Driveline {
  import opened Geometry
  import opened Physics

  datatype DriveType = FWD | RWD

  /** The values a concrete driveline supplies. */
  datatype Params = Params(driveshaftInertia: real, differentialBoxInertia: real,
                           conicalGearRatio: real, differentialRatio: real)

  class ShaftsDriveline2WD {
    const params: Params
    const driveType: DriveType
    /** Direction of the driveshaft (conical gear input), chassis-local. */
    const dirMotorBlock: Vec3
    /** Direction of the axle (conical gear output), chassis-local. */
    const dirAxle: Vec3

    var driveshaft: Shaft?
    var differentialBox: Shaft?
    var conicalGear: ShaftsGearboxAngled?
    var differential: ShaftsPlanetary?

    constructor (params: Params, dirMotorBlock: Vec3, dirAxle: Vec3)
      ensures this.params == params && driveType == RWD
      ensures this.dirMotorBlock == dirMotorBlock && this.dirAxle == dirAxle
      ensures driveshaft == null && differentialBox == null && conicalGear == null && differential == null
    {
      this.params := params;
      driveType := RWD;
      this.dirMotorBlock, this.dirAxle := dirMotorBlock, dirAxle;
      driveshaft, differentialBox, conicalGear, differential := null, null, null, null;
    }

    /** The four entities exist and play their roles: the conical gear turns
        the driveshaft into the differential box against the truss, and the
        differential has the box as carrier. */
    predicate Wired()
      reads this
    {
      && driveshaft != null && differentialBox != null && conicalGear != null && differential != null
      && conicalGear.input == driveshaft && conicalGear.output == differentialBox
      && conicalGear.dirInput == dirMotorBlock && conicalGear.dirOutput == dirAxle
      && conicalGear.ratio == params.conicalGearRatio
      && differential.carrier == differentialBox
      && differential.ordinaryRatio == params.differentialRatio
    }

    /** Creates the driveshaft, the differential box, the conical gear and
        the differential, in this order, and registers each with the system
        the chassis belongs to.  A null chassis or axle, or a chassis that
        belongs to no system, is a fatal assertion in the source and is
        excluded here. */
    method Initialize(system: ChSystem, chassis: Body?, axleL: Shaft?, axleR: Shaft?)
      requires chassis != null && axleL != null && axleR != null
      requires chassis in system.items
      modifies this, system
      ensures Wired()
      ensures fresh(driveshaft) && fresh(differentialBox) && fresh(conicalGear) && fresh(differential)
      ensures driveshaft != differentialBox
      ensures system.items == old(system.items) + [driveshaft, differentialBox, conicalGear, differential]
      ensures driveshaft.inertia == params.driveshaftInertia
      ensures differentialBox.inertia == params.differentialBoxInertia
      ensures conicalGear.truss == chassis
      ensures differential.shaft2 == axleL && differential.shaft3 == axleR
    {
      AddShafts(system);
      AddConstraints(system, chassis, axleL, axleR);
    }

    /** Creates and registers the driveshaft, then the differential box. */
    method AddShafts(system: ChSystem)
      modifies this, system
      ensures fresh(driveshaft) && fresh(differentialBox) && driveshaft != differentialBox
      ensures system.items == old(system.items) + [driveshaft, differentialBox]
      ensures driveshaft.inertia == params.driveshaftInertia
      ensures differentialBox.inertia == params.differentialBoxInertia
      ensures conicalGear == old(conicalGear) && differential == old(differential)
    {
      var shaft := new Shaft(params.driveshaftInertia);
      driveshaft := shaft;
      system.Add(shaft);

      var box := new Shaft(params.differentialBoxInertia);
      differentialBox := box;
      system.Add(box);
    }

    /** Creates and registers the conical gear, then the differential,
        between the shafts already created. */
    method AddConstraints(system: ChSystem, chassis: Body, axleL: Shaft, axleR: Shaft)
      requires driveshaft != null && differentialBox != null
      modifies this, system
      ensures Wired()
      ensures fresh(conicalGear) && fresh(differential)
      ensures driveshaft == old(driveshaft) && differentialBox == old(differentialBox)
      ensures system.items == old(system.items) + [conicalGear, differential]
      ensures conicalGear.truss == chassis
      ensures differential.shaft2 == axleL && differential.shaft3 == axleR
    {
      var gear := new ShaftsGearboxAngled(driveshaft, differentialBox, chassis, dirMotorBlock, dirAxle, params.conicalGearRatio);
      conicalGear := gear;
      system.Add(gear);

      var diff := new ShaftsPlanetary(differentialBox, axleL, axleR, params.differentialRatio);
      differential := diff;
      system.Add(diff);
    }

    /** Torque delivered to a wheel: none to the front wheels (rear-wheel
        drive), the negated reaction the differential reports on member 2
        (left axle) or member 3 (right axle) to the rear wheels, and -1 for
        an identifier outside the four wheels. */
    function GetWheelTorque(which: WheelId): (t: real)
      requires which.IsRear() ==> differential != null
      reads this, if which.IsRear() then {differential} else {}
      ensures which.IsFront() ==> t == 0.0
      ensures which.IsRear() ==>
        t == -(if which.WheelSide() == LEFT then differential.torqueReactionOn2 else differential.torqueReactionOn3)
      ensures !which.IsValid() ==> t == -1.0
    {
      match which
      case FRONT_LEFT => 0.0
      case FRONT_RIGHT => 0.0
      case REAR_LEFT => -differential.torqueReactionOn2
      case REAR_RIGHT => -differential.torqueReactionOn3
      case OtherWheel(_) => -1.0
    }
  }
}
