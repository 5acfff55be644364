/** The helpers of the 9-body HMMWV (one chassis and four wheels, each on
    its own suspension; the two rear wheels driven by engine links): the
    closed-form wheel torque through a differential and two gear stages,
    the steering gain, tire-index dispatch, hub force application and the
    mirrored wheel and spindle placement. */
module NineBody {
  import opened Wrappers
  import opened Geometry
  import opened Physics
  import Powertrain

  /** Inches to metres and inch-pounds to newton-metres, as the model
      defines them. */
  const IN_TO_M: real := 1.0 / 39.3701
  const INLB_TO_NM: real := 1.0 / 8.851

  /** Engine data: maximum torque (8600 in-lb) and maximum engine speed. */
  const MAX_TORQUE: real := 8600.0 * INLB_TO_NM
  const MAX_ENGINE_N: real := 2000.0

  /** Speed of the motor for the given wheel speeds: the differential makes
      the transmission shaft turn at the mean of the two wheel speeds, and
      the conical and motor gear stages divide by their ratios in turn. */
  function MotorSpeed(conicTau: real, gearTau: real, speedL: real, speedR: real): real
    requires conicTau != 0.0 && gearTau != 0.0
  {
    (0.5 * (speedL + speedR) / conicTau) / gearTau
  }

  /** The torque delivered to each driven wheel: the linear motor curve
      scaled by the throttle, multiplied back up through both gear stages
      and split in half by the differential. */
  function SingleWheelTorque(conicTau: real, gearTau: real, maxTorque: real, maxSpeed: real,
                             throttle: real, speedL: real, speedR: real): (t: real)
    requires conicTau != 0.0 && gearTau != 0.0 && maxSpeed != 0.0
    ensures throttle == 0.0 ==> t == 0.0
    ensures MotorSpeed(conicTau, gearTau, speedL, speedR) == maxSpeed ==> t == 0.0
    ensures speedL + speedR == 0.0 ==> t * (gearTau * conicTau) == 0.5 * throttle * maxTorque
  {
    0.5 * throttle * (maxTorque - MotorSpeed(conicTau, gearTau, speedL, speedR) * (maxTorque / maxSpeed))
      / (gearTau * conicTau)
  }

  /** The 9-body drivetrain is the simple powertrain's update step with a
      single ratio (motor gear times conical gear) driven by the mean wheel
      speed, whose shaft torque the differential then halves for each wheel. */
  lemma WheelTorqueIsHalfPowertrainShaftTorque(conicTau: real, gearTau: real, maxTorque: real, maxSpeed: real,
                                               throttle: real, speedL: real, speedR: real)
    requires conicTau != 0.0 && gearTau != 0.0 && maxSpeed != 0.0
    ensures var ratio := gearTau * conicTau;
      SingleWheelTorque(conicTau, gearTau, maxTorque, maxSpeed, throttle, speedL, speedR)
      == 0.5 * Powertrain.Step(Powertrain.Params(ratio, ratio, maxTorque, maxSpeed), ratio, throttle, 0.5 * (speedL + speedR)).shaftTorque
  {
    var ratio := gearTau * conicTau;
    var o := Powertrain.Step(Powertrain.Params(ratio, ratio, maxTorque, maxSpeed), ratio, throttle, 0.5 * (speedL + speedR));
    assert o.motorSpeed == MotorSpeed(conicTau, gearTau, speedL, speedR) by {
      assert o.motorSpeed * ratio == 0.5 * (speedL + speedR);
      assert MotorSpeed(conicTau, gearTau, speedL, speedR) * ratio == 0.5 * (speedL + speedR);
    }
  }

  /** Swapping the two wheel speeds does not change the torque: both driven
      wheels always receive the same value. */
  lemma WheelTorqueSymmetric(conicTau: real, gearTau: real, maxTorque: real, maxSpeed: real,
                             throttle: real, speedL: real, speedR: real)
    requires conicTau != 0.0 && gearTau != 0.0 && maxSpeed != 0.0
    ensures SingleWheelTorque(conicTau, gearTau, maxTorque, maxSpeed, throttle, speedL, speedR)
         == SingleWheelTorque(conicTau, gearTau, maxTorque, maxSpeed, throttle, speedR, speedL)
  {
    assert speedL + speedR == speedR + speedL;
  }

  /** The steering input is a displacement in metres: 0.125 m per unit of
      steering. */
  const STEER_GAIN: real := 0.125

  /** Wheel and spindle centres relative to the chassis centre of mass, in
      chassis coordinates (X to the rear, Y to the right, Z up).  Each
      spindle sits SPINDLE_OFFSET inboard of its wheel. */
  const SPINDLE_OFFSET: real := 5.0 * IN_TO_M
  const WHEEL_RF: Vec3 := Scale(IN_TO_M, Vec3(-83.8, 35.82, -33.325))
  const WHEEL_LF: Vec3 := Scale(IN_TO_M, Vec3(-83.8, -35.82, -33.325))
  const WHEEL_RB: Vec3 := Scale(IN_TO_M, Vec3(46.2, 35.82, -33.325))
  const WHEEL_LB: Vec3 := Scale(IN_TO_M, Vec3(46.2, -35.82, -33.325))
  const SPINDLE_RF: Vec3 := WHEEL_RF.(y := WHEEL_RF.y - SPINDLE_OFFSET)
  const SPINDLE_LF: Vec3 := WHEEL_LF.(y := WHEEL_LF.y + SPINDLE_OFFSET)
  const SPINDLE_RB: Vec3 := WHEEL_RB.(y := WHEEL_RB.y - SPINDLE_OFFSET)
  const SPINDLE_LB: Vec3 := WHEEL_LB.(y := WHEEL_LB.y + SPINDLE_OFFSET)

  /** Left wheels and spindles are the y-mirrors of the right ones. */
  lemma PlacementMirrors()
    ensures WHEEL_LF == MirrorY(WHEEL_RF) && WHEEL_LB == MirrorY(WHEEL_RB)
    ensures SPINDLE_LF == MirrorY(SPINDLE_RF) && SPINDLE_LB == MirrorY(SPINDLE_RB)
  {
  }

  /** Every spindle shares its wheel's x and z and lies SPINDLE_OFFSET
      closer to the centre plane. */
  lemma SpindlesInboard()
    ensures SPINDLE_OFFSET > 0.0
    ensures SPINDLE_RF.x == WHEEL_RF.x && SPINDLE_RF.z == WHEEL_RF.z && SPINDLE_RF.y == WHEEL_RF.y - SPINDLE_OFFSET
    ensures SPINDLE_LF.x == WHEEL_LF.x && SPINDLE_LF.z == WHEEL_LF.z && SPINDLE_LF.y == WHEEL_LF.y + SPINDLE_OFFSET
    ensures SPINDLE_RB.x == WHEEL_RB.x && SPINDLE_RB.z == WHEEL_RB.z && SPINDLE_RB.y == WHEEL_RB.y - SPINDLE_OFFSET
    ensures SPINDLE_LB.x == WHEEL_LB.x && SPINDLE_LB.z == WHEEL_LB.z && SPINDLE_LB.y == WHEEL_LB.y + SPINDLE_OFFSET
    ensures 0.0 < SPINDLE_RF.y < WHEEL_RF.y && WHEEL_LF.y < SPINDLE_LF.y < 0.0
    ensures 0.0 < SPINDLE_RB.y < WHEEL_RB.y && WHEEL_LB.y < SPINDLE_LB.y < 0.0
  {
  }

  /** The tire-index order used by the dispatch functions: 0 right front,
      1 left front, 2 right back, 3 left back. */
  function WheelPlacement(tireIdx: int): (v: Vec3)
    requires 0 <= tireIdx < 4
  {
    if tireIdx == 0 then WHEEL_RF
    else if tireIdx == 1 then WHEEL_LF
    else if tireIdx == 2 then WHEEL_RB
    else WHEEL_LB
  }

  /** The index order agrees with the geometry: even indices are on the
      right (y > 0), indices below 2 are at the front (x < 0, X pointing to
      the rear), and the wheels at 1 and 3 mirror those at 0 and 2. */
  lemma TireIndexMatchesPlacement(tireIdx: int)
    requires 0 <= tireIdx < 4
    ensures WheelPlacement(tireIdx).y > 0.0 <==> tireIdx % 2 == 0
    ensures WheelPlacement(tireIdx).x < 0.0 <==> tireIdx < 2
    ensures tireIdx % 2 == 1 ==> WheelPlacement(tireIdx) == MirrorY(WheelPlacement(tireIdx - 1))
  {
  }

  /** The value of a default-constructed quaternion (all components zero). */
  const DefaultQuat: Quat := Quat(0.0, 0.0, 0.0, 0.0)

  /** The load one wheel hub receives: a force applied at the absolute
      origin and a torque, both in absolute coordinates. */
  datatype HubLoad = HubLoad(force: Vec3, moment: Vec3)

  /** The loads as the hub-force routine applies them: entry 0 of each
      vector goes to all four wheels, entries 1 to 3 are never read. */
  function HubLoadsAsWritten(forces: seq<Vec3>, moments: seq<Vec3>): (loads: seq<HubLoad>)
    requires |forces| >= 1 && |moments| >= 1
    ensures |loads| == 4
    ensures forall i :: 0 <= i < 4 ==> loads[i] == HubLoad(forces[0], moments[0])
  {
    var load := HubLoad(forces[0], moments[0]);
    [load, load, load, load]
  }

  /** The loads as evidently intended: entry i to the wheel at tire
      index i. */
  function HubLoads(forces: seq<Vec3>, moments: seq<Vec3>): (loads: seq<HubLoad>)
    requires |forces| >= 4 && |moments| >= 4
    ensures |loads| == 4
    ensures forall i :: 0 <= i < 4 ==> loads[i] == HubLoad(forces[i], moments[i])
  {
    seq(4, i requires 0 <= i < 4 => HubLoad(forces[i], moments[i]))
  }

  /** The routine as written agrees with the intended one exactly when all
      four entries of both vectors are equal; so a vehicle that turns or
      brakes unevenly gets the right-front load on every wheel. */
  lemma HubLoadsAsWrittenDiffer(forces: seq<Vec3>, moments: seq<Vec3>)
    requires |forces| >= 4 && |moments| >= 4
    ensures HubLoadsAsWritten(forces, moments) == HubLoads(forces, moments)
        <==> (forall i :: 0 <= i < 4 ==> forces[i] == forces[0] && moments[i] == moments[0])
  {
    var a, b := HubLoadsAsWritten(forces, moments), HubLoads(forces, moments);
    if a == b {
      forall i | 0 <= i < 4
        ensures forces[i] == forces[0] && moments[i] == moments[0]
      {
        assert a[i] == b[i];
      }
    }
  }

  /** A body's accumulators hold exactly one hub load. */
  predicate Loaded(b: Body, load: HubLoad)
    reads b
  {
    b.forces == [AppliedForce(load.force, Zero, false)] && b.torques == [AppliedTorque(load.moment, false)]
  }

  /** Nothing but the accumulators of `b` changed. */
  twostate predicate KinematicsUnchanged(b: Body)
    reads b
  {
    b.pos == old(b.pos) && b.rot == old(b.rot) && b.linVel == old(b.linVel) && b.linAcc == old(b.linAcc)
    && b.angVel == old(b.angVel) && b.angVelLocal == old(b.angVelLocal)
  }

  /** The driver inputs the vehicle reads: throttle in [0, 1] and steering
      in [-1, 1] by convention. */
  class VehicleDriver {
    var throttle: real
    var steer: real

    constructor (throttle: real, steer: real)
      ensures this.throttle == throttle && this.steer == steer
    {
      this.throttle, this.steer := throttle, steer;
    }
  }

  /** The 9-body vehicle.  The handles are built by the physics layer and
      passed in: four distinct wheel bodies and two distinct engine links
      on the rear wheels. */
  class HMMWV9Body {
    const conicTau: real := 0.2
    const gearTau: real := 0.3
    const maxMotorTorque: real := MAX_TORQUE
    const maxMotorSpeed: real := MAX_ENGINE_N
    const chassis: Body
    const wheelRF: Body
    const wheelLF: Body
    const wheelRB: Body
    const wheelLB: Body
    const engineL: LinkEngine
    const engineR: LinkEngine
    const driver: VehicleDriver
    /** The torque last sent to each driven wheel. */
    var currTorque: real

    predicate Valid() {
      wheelRF != wheelLF && wheelRF != wheelRB && wheelRF != wheelLB
      && wheelLF != wheelRB && wheelLF != wheelLB && wheelRB != wheelLB
      && engineL != engineR
    }

    constructor (chassis: Body, wheelRF: Body, wheelLF: Body, wheelRB: Body, wheelLB: Body,
                 engineL: LinkEngine, engineR: LinkEngine, driver: VehicleDriver)
      requires wheelRF != wheelLF && wheelRF != wheelRB && wheelRF != wheelLB
      requires wheelLF != wheelRB && wheelLF != wheelLB && wheelRB != wheelLB
      requires engineL != engineR
      ensures Valid()
      ensures this.chassis == chassis && this.driver == driver
      ensures this.wheelRF == wheelRF && this.wheelLF == wheelLF && this.wheelRB == wheelRB && this.wheelLB == wheelLB
      ensures this.engineL == engineL && this.engineR == engineR
    {
      this.chassis, this.driver := chassis, driver;
      this.wheelRF, this.wheelLF, this.wheelRB, this.wheelLB := wheelRF, wheelLF, wheelRB, wheelLB;
      this.engineL, this.engineR := engineL, engineR;
      currTorque := 0.0;
    }

    /** Computes the wheel torque from the engine-link speeds and the
        throttle, installs it in every engine link whose torque law is a
        constant, records it and returns it. */
    method ComputeWheelTorque() returns (t: real)
      requires Valid()
      modifies this, engineL, engineR
      ensures t == SingleWheelTorque(conicTau, gearTau, maxMotorTorque, maxMotorSpeed,
                                     driver.throttle, engineL.speed, engineR.speed)
      ensures currTorque == t
      ensures engineL.speed == old(engineL.speed) && engineR.speed == old(engineR.speed)
      ensures engineL.torqueFunction == (if old(engineL.torqueFunction).ConstTorque? then ConstTorque(t) else old(engineL.torqueFunction))
      ensures engineR.torqueFunction == (if old(engineR.torqueFunction).ConstTorque? then ConstTorque(t) else old(engineR.torqueFunction))
    {
      var shaftSpeed := (1.0 / conicTau) * 0.5 * (engineL.speed + engineR.speed);
      var motorSpeed := (1.0 / gearTau) * shaftSpeed;
      var motorTorque := maxMotorTorque - motorSpeed * (maxMotorTorque / maxMotorSpeed);
      motorTorque := motorTorque * driver.throttle;
      var shaftTorque := motorTorque * (1.0 / gearTau);
      var singleWheelTorque := 0.5 * shaftTorque * (1.0 / conicTau);
      assert motorSpeed == MotorSpeed(conicTau, gearTau, engineL.speed, engineR.speed);
      if engineL.torqueFunction.ConstTorque? {
        engineL.torqueFunction := ConstTorque(singleWheelTorque);
      }
      if engineR.torqueFunction.ConstTorque? {
        engineR.torqueFunction := ConstTorque(singleWheelTorque);
      }
      currTorque := singleWheelTorque;
      t := singleWheelTorque;
    }

    /** The steering displacement in metres: an input in [-1, 1] gives a
        displacement within 0.125 m either way. */
    function ComputeSteerDisplacement(): (d: real)
      reads driver
      ensures d * 8.0 == driver.steer
      ensures -1.0 <= driver.steer <= 1.0 ==> -0.125 <= d <= 0.125
    {
      STEER_GAIN * driver.steer
    }

    /** The wheel body at a tire index, in the order 0 right front, 1 left
        front, 2 right back, 3 left back; none for any other index. */
    function WheelBodyAt(tireIdx: int): (b: Option<Body>)
      ensures b.Some? <==> 0 <= tireIdx < 4
    {
      if tireIdx == 0 then Some(wheelRF)
      else if tireIdx == 1 then Some(wheelLF)
      else if tireIdx == 2 then Some(wheelRB)
      else if tireIdx == 3 then Some(wheelLB)
      else None
    }

    /** Distinct tire indices name distinct wheels. */
    lemma WheelBodyAtInjective(i: int, j: int)
      requires Valid() && 0 <= i < 4 && 0 <= j < 4
      ensures WheelBodyAt(i) == WheelBodyAt(j) <==> i == j
    {
    }

    /** The centre-of-mass position of the wheel at a tire index, or the
        zero vector for an index out of range. */
    function GetCMPos(tireIdx: int): (r: Vec3)
      reads wheelRF, wheelLF, wheelRB, wheelLB
      ensures WheelBodyAt(tireIdx).Some? ==> r == WheelBodyAt(tireIdx).value.pos
      ensures WheelBodyAt(tireIdx).None? ==> r == Zero
    {
      match WheelBodyAt(tireIdx)
      case Some(b) => b.pos
      case None => Zero
    }

    /** The orientation of the wheel at a tire index, or the
        default-constructed quaternion for an index out of range. */
    function GetCMRot(tireIdx: int): (r: Quat)
      reads wheelRF, wheelLF, wheelRB, wheelLB
      ensures WheelBodyAt(tireIdx).Some? ==> r == WheelBodyAt(tireIdx).value.rot
      ensures WheelBodyAt(tireIdx).None? ==> r == DefaultQuat
    {
      match WheelBodyAt(tireIdx)
      case Some(b) => b.rot
      case None => DefaultQuat
    }

    /** The velocity accessor as written: the wheel's velocity is read and
        dropped, so the zero vector comes back for every index. */
    function GetCMVelAsWritten(tireIdx: int): (r: Vec3)
      ensures r == Zero
    {
      Zero
    }

    /** The angular-velocity accessor as written: likewise always zero. */
    function GetCMAngVelAsWritten(tireIdx: int): (r: Vec3)
      ensures r == Zero
    {
      Zero
    }

    /** The acceleration accessor as written: likewise always zero. */
    function GetCMAccAsWritten(tireIdx: int): (r: Vec3)
      ensures r == Zero
    {
      Zero
    }

    /** The velocity accessor as intended: the same dispatch as GetCMPos,
        returning the wheel's linear velocity. */
    function GetCMVel(tireIdx: int): (r: Vec3)
      reads wheelRF, wheelLF, wheelRB, wheelLB
      ensures WheelBodyAt(tireIdx).Some? ==> r == WheelBodyAt(tireIdx).value.linVel
      ensures WheelBodyAt(tireIdx).None? ==> r == Zero
    {
      match WheelBodyAt(tireIdx)
      case Some(b) => b.linVel
      case None => Zero
    }

    /** The angular-velocity accessor as intended: the wheel's angular
        velocity in its local frame. */
    function GetCMAngVel(tireIdx: int): (r: Vec3)
      reads wheelRF, wheelLF, wheelRB, wheelLB
      ensures WheelBodyAt(tireIdx).Some? ==> r == WheelBodyAt(tireIdx).value.angVelLocal
      ensures WheelBodyAt(tireIdx).None? ==> r == Zero
    {
      match WheelBodyAt(tireIdx)
      case Some(b) => b.angVelLocal
      case None => Zero
    }

    /** The acceleration accessor as intended: the wheel's linear
        acceleration. */
    function GetCMAcc(tireIdx: int): (r: Vec3)
      reads wheelRF, wheelLF, wheelRB, wheelLB
      ensures WheelBodyAt(tireIdx).Some? ==> r == WheelBodyAt(tireIdx).value.linAcc
      ensures WheelBodyAt(tireIdx).None? ==> r == Zero
    {
      match WheelBodyAt(tireIdx)
      case Some(b) => b.linAcc
      case None => Zero
    }

    /** The accessors as written report the wheel's state correctly only
        when that state happens to be zero. */
    lemma CMRatesAsWrittenDiffer(tireIdx: int)
      requires 0 <= tireIdx < 4
      ensures GetCMVelAsWritten(tireIdx) == GetCMVel(tireIdx) <==> WheelBodyAt(tireIdx).value.linVel == Zero
      ensures GetCMAngVelAsWritten(tireIdx) == GetCMAngVel(tireIdx) <==> WheelBodyAt(tireIdx).value.angVelLocal == Zero
      ensures GetCMAccAsWritten(tireIdx) == GetCMAcc(tireIdx) <==> WheelBodyAt(tireIdx).value.linAcc == Zero
    {
    }

    /** Hub-force application as written: all four accumulators are emptied,
        then every wheel receives entry 0 of each vector. */
    method ApplyHubFMAsWritten(forces: seq<Vec3>, moments: seq<Vec3>)
      requires Valid()
      requires |forces| >= 1 && |moments| >= 1
      modifies wheelRF, wheelLF, wheelRB, wheelLB
      ensures forall i :: 0 <= i < 4 ==> Loaded(WheelBodyAt(i).value, HubLoadsAsWritten(forces, moments)[i])
      ensures KinematicsUnchanged(wheelRF) && KinematicsUnchanged(wheelLF)
      ensures KinematicsUnchanged(wheelRB) && KinematicsUnchanged(wheelLB)
    {
      wheelLB.EmptyForceAccumulators();
      wheelLF.EmptyForceAccumulators();
      wheelRB.EmptyForceAccumulators();
      wheelRF.EmptyForceAccumulators();
      wheelRF.AccumulateForce(forces[0], Zero, false);
      wheelRF.AccumulateTorque(moments[0], false);
      wheelLF.AccumulateForce(forces[0], Zero, false);
      wheelLF.AccumulateTorque(moments[0], false);
      wheelRB.AccumulateForce(forces[0], Zero, false);
      wheelRB.AccumulateTorque(moments[0], false);
      wheelLB.AccumulateForce(forces[0], Zero, false);
      wheelLB.AccumulateTorque(moments[0], false);
    }

    /** Hub-force application as intended: the wheel at tire index i
        receives entry i of each vector. */
    method ApplyHubFM(forces: seq<Vec3>, moments: seq<Vec3>)
      requires Valid()
      requires |forces| >= 4 && |moments| >= 4
      modifies wheelRF, wheelLF, wheelRB, wheelLB
      ensures forall i :: 0 <= i < 4 ==> Loaded(WheelBodyAt(i).value, HubLoads(forces, moments)[i])
      ensures KinematicsUnchanged(wheelRF) && KinematicsUnchanged(wheelLF)
      ensures KinematicsUnchanged(wheelRB) && KinematicsUnchanged(wheelLB)
    {
      wheelLB.EmptyForceAccumulators();
      wheelLF.EmptyForceAccumulators();
      wheelRB.EmptyForceAccumulators();
      wheelRF.EmptyForceAccumulators();
      wheelRF.AccumulateForce(forces[0], Zero, false);
      wheelRF.AccumulateTorque(moments[0], false);
      wheelLF.AccumulateForce(forces[1], Zero, false);
      wheelLF.AccumulateTorque(moments[1], false);
      wheelRB.AccumulateForce(forces[2], Zero, false);
      wheelRB.AccumulateTorque(moments[2], false);
      wheelLB.AccumulateForce(forces[3], Zero, false);
      wheelLB.AccumulateTorque(moments[3], false);
    }
  }
}
