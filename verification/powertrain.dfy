/** Simple powertrain template (ChSimplePowertrain): a three-state drive-mode
    machine with a cached gear ratio, and a stateless update step that turns
    throttle and shaft speed into motor speed, motor torque and shaft torque
    on a linear torque-speed curve. */
module Powertrain {
  import opened Geometry

  datatype DriveMode = FORWARD | REVERSE | NEUTRAL

  /** The four values a concrete powertrain supplies (forward and reverse gear
      ratio, maximum motor torque and maximum motor speed). */
  datatype Params = Params(forwardGearRatio: real, reverseGearRatio: real, maxTorque: real, maxSpeed: real)

  /** The effectively infinite ratio that decouples the motor in NEUTRAL. */
  const NEUTRAL_GEAR_RATIO: real := 1e20

  /** The gear ratio that selecting `mode` caches: one of the two gear ratios
      or the decoupling ratio, and never zero when neither gear ratio is, so
      that the update step's division by it is defined. */
  function RatioFor(p: Params, mode: DriveMode): (r: real)
    ensures r == p.forwardGearRatio || r == p.reverseGearRatio || r == NEUTRAL_GEAR_RATIO
    ensures p.forwardGearRatio != 0.0 && p.reverseGearRatio != 0.0 ==> r != 0.0
    ensures mode == NEUTRAL ==> r > 0.0
  {
    match mode
    case FORWARD => p.forwardGearRatio
    case REVERSE => p.reverseGearRatio
    case NEUTRAL => NEUTRAL_GEAR_RATIO
  }

  /** The three quantities one update step produces. */
  datatype Outputs = Outputs(motorSpeed: real, motorTorque: real, shaftTorque: real)

  /** One update step: the motor turns `ratio` times slower than the output
      shaft sees it, the torque falls linearly from `maxTorque` at rest to
      zero at `maxSpeed` (unclamped beyond), is scaled by the throttle, and is
      divided by the ratio again on its way to the shaft. */
  function Step(p: Params, ratio: real, throttle: real, shaftSpeed: real): (o: Outputs)
    requires ratio != 0.0 && p.maxSpeed != 0.0
    ensures o.motorSpeed * ratio == shaftSpeed
    ensures o.shaftTorque * ratio == o.motorTorque
    ensures o.motorTorque == throttle * p.maxTorque * (1.0 - o.motorSpeed / p.maxSpeed)
  {
    var motorSpeed := shaftSpeed / ratio;
    var motorTorque := (p.maxTorque - motorSpeed * (p.maxTorque / p.maxSpeed)) * throttle;
    Outputs(motorSpeed, motorTorque, motorTorque / ratio)
  }

  lemma ZeroThrottleGivesZeroTorque(p: Params, ratio: real, shaftSpeed: real)
    requires ratio != 0.0 && p.maxSpeed != 0.0
    ensures Step(p, ratio, 0.0, shaftSpeed).motorTorque == 0.0
    ensures Step(p, ratio, 0.0, shaftSpeed).shaftTorque == 0.0
  {
  }

  lemma StallTorqueIsScaledMaximum(p: Params, ratio: real, throttle: real)
    requires ratio != 0.0 && p.maxSpeed != 0.0
    ensures Step(p, ratio, throttle, 0.0).motorSpeed == 0.0
    ensures Step(p, ratio, throttle, 0.0).motorTorque == throttle * p.maxTorque
  {
  }

  /** At maximum motor speed (shaft speed = maxSpeed times the ratio) the
      motor gives no torque whatever the throttle. */
  lemma NoTorqueAtMaxSpeed(p: Params, ratio: real, throttle: real)
    requires ratio != 0.0 && p.maxSpeed != 0.0
    ensures Step(p, ratio, throttle, p.maxSpeed * ratio).motorSpeed == p.maxSpeed
    ensures Step(p, ratio, throttle, p.maxSpeed * ratio).motorTorque == 0.0
    ensures Step(p, ratio, throttle, p.maxSpeed * ratio).shaftTorque == 0.0
  {
    var o := Step(p, ratio, throttle, p.maxSpeed * ratio);
    assert o.motorSpeed == p.maxSpeed;
  }

  /** Above maximum speed the curve is not clamped: with positive throttle
      and positive maximum torque the motor torque turns negative. */
  lemma NegativeTorqueAboveMaxSpeed(p: Params, ratio: real, throttle: real, shaftSpeed: real)
    requires ratio > 0.0 && p.maxSpeed > 0.0 && p.maxTorque > 0.0 && throttle > 0.0
    requires shaftSpeed > p.maxSpeed * ratio
    ensures Step(p, ratio, throttle, shaftSpeed).motorTorque < 0.0
  {
    var o := Step(p, ratio, throttle, shaftSpeed);
    assert o.motorSpeed * ratio > p.maxSpeed * ratio;
    assert o.motorSpeed > p.maxSpeed;
    assert o.motorSpeed / p.maxSpeed > 1.0;
  }

  /** In NEUTRAL the motor is decoupled: the motor speed and the shaft torque
      are 1e20 times smaller than the shaft speed and the motor torque. */
  lemma NeutralDecouples(p: Params, throttle: real, shaftSpeed: real)
    requires p.maxSpeed != 0.0
    ensures var o := Step(p, RatioFor(p, NEUTRAL), throttle, shaftSpeed);
      Abs(o.motorSpeed) * NEUTRAL_GEAR_RATIO == Abs(shaftSpeed) &&
      Abs(o.shaftTorque) * NEUTRAL_GEAR_RATIO == Abs(o.motorTorque)
  {
  }

  /** The powertrain object.  The constructor of the base class is not part
      of this model, so the drive mode and the cached ratio are unspecified
      until `Initialize` or `SetDriveMode` runs. */
  class SimplePowertrain {
    const params: Params
    var driveMode: DriveMode
    var currentGearRatio: real
    var motorSpeed: real
    var motorTorque: real
    var shaftTorque: real

    /** The cached ratio is the one the current drive mode selects. */
    predicate Consistent()
      reads this
    {
      currentGearRatio == RatioFor(params, driveMode)
    }

    constructor (params: Params)
      ensures this.params == params
      ensures motorSpeed == 0.0 && motorTorque == 0.0 && shaftTorque == 0.0
    {
      this.params := params;
      driveMode := FORWARD;
      currentGearRatio := params.forwardGearRatio;
      motorSpeed, motorTorque, shaftTorque := 0.0, 0.0, 0.0;
    }

    /** Caches the forward ratio; the drive mode is left as it was, so the
        object is consistent afterwards only if the mode is FORWARD (or the
        cached value happens to coincide). */
    method Initialize()
      modifies this
      ensures currentGearRatio == params.forwardGearRatio
      ensures driveMode == old(driveMode)
      ensures motorSpeed == old(motorSpeed) && motorTorque == old(motorTorque) && shaftTorque == old(shaftTorque)
      ensures Consistent() <==> RatioFor(params, driveMode) == params.forwardGearRatio
    {
      currentGearRatio := params.forwardGearRatio;
    }

    method SetDriveMode(mode: DriveMode)
      modifies this
      ensures driveMode == mode
      ensures currentGearRatio == RatioFor(params, mode)
      ensures Consistent()
      ensures motorSpeed == old(motorSpeed) && motorTorque == old(motorTorque) && shaftTorque == old(shaftTorque)
    {
      driveMode := mode;
      match mode {
        case FORWARD => currentGearRatio := params.forwardGearRatio;
        case REVERSE => currentGearRatio := params.reverseGearRatio;
        case NEUTRAL => currentGearRatio := NEUTRAL_GEAR_RATIO;
      }
    }

    /** Recomputes all three outputs from the throttle, the shaft speed and
        the cached ratio alone; `time` is not used, and nothing of the
        previous outputs survives. */
    method Update(time: real, throttle: real, shaftSpeed: real)
      requires currentGearRatio != 0.0 && params.maxSpeed != 0.0
      modifies this
      ensures driveMode == old(driveMode) && currentGearRatio == old(currentGearRatio)
      ensures Outputs(motorSpeed, motorTorque, shaftTorque) == Step(params, currentGearRatio, throttle, shaftSpeed)
    {
      motorSpeed := shaftSpeed / currentGearRatio;
      motorTorque := params.maxTorque - motorSpeed * (params.maxTorque / params.maxSpeed);
      motorTorque := motorTorque * throttle;
      shaftTorque := motorTorque / currentGearRatio;
    }
  }

  /** Selecting the same mode twice leaves exactly the state one selection
      leaves: the mode, its ratio, and untouched outputs. */
  method SetDriveModeTwice(pt: SimplePowertrain, mode: DriveMode)
    modifies pt
    ensures pt.driveMode == mode && pt.currentGearRatio == RatioFor(pt.params, mode)
    ensures pt.motorSpeed == old(pt.motorSpeed) && pt.motorTorque == old(pt.motorTorque)
    ensures pt.shaftTorque == old(pt.shaftTorque)
  {
    pt.SetDriveMode(mode);
    ghost var once := (pt.driveMode, pt.currentGearRatio, pt.motorSpeed, pt.motorTorque, pt.shaftTorque);
    pt.SetDriveMode(mode);
    assert (pt.driveMode, pt.currentGearRatio, pt.motorSpeed, pt.motorTorque, pt.shaftTorque) == once;
  }

  /** The worked scenario: forward ratio 4, maximum torque 300, half throttle
      at rest gives 150 at the motor and 37.5 at the shaft. */
  method ForwardScenario() returns (motorTorque: real, shaftTorque: real)
    ensures motorTorque == 150.0 && shaftTorque == 37.5
  {
    var pt := new SimplePowertrain(Params(4.0, -3.0, 300.0, 600.0));
    pt.Initialize();
    pt.Update(0.0, 0.5, 0.0);
    motorTorque, shaftTorque := pt.motorTorque, pt.shaftTorque;
  }
}
