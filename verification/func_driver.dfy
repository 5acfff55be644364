/** The scripted driver of the 9-body demonstration: throttle and steering
    are fixed piecewise-linear functions of the simulation time. */
module FuncDriver {
  import opened Geometry

  /** Throttle: idle until 0.5 s, a ramp of 0.4 per second until 1.5 s,
      then held at 0.4. */
  function Throttle(time: real): (throttle: real)
    ensures 0.0 <= throttle <= 0.4
    ensures time < 0.5 ==> throttle == 0.0
    ensures time >= 1.5 ==> throttle == 0.4
  {
    if time < 0.5 then 0.0
    else if time < 1.5 then 0.4 * (time - 0.5)
    else 0.4
  }

  /** Steering: straight until 4 s, a ramp of 0.25 per second up to 0.5 at
      6 s, a ramp down to -0.5 at 10 s, then held. */
  function Steering(time: real): (steering: real)
    ensures -0.5 <= steering <= 0.5
    ensures time < 4.0 ==> steering == 0.0
    ensures time >= 10.0 ==> steering == -0.5
  {
    if time < 4.0 then 0.0
    else if time < 6.0 then 0.25 * (time - 4.0)
    else if time < 10.0 then -0.25 * (time - 6.0) + 0.5
    else -0.5
  }

  /** The throttle never decreases over time. */
  lemma ThrottleMonotone(t1: real, t2: real)
    requires t1 <= t2
    ensures Throttle(t1) <= Throttle(t2)
  {
  }

  /** The steering peaks at 6 s: it rises up to there and falls after. */
  lemma SteeringPeak(t1: real, t2: real)
    requires t1 <= t2
    ensures t2 <= 6.0 ==> Steering(t1) <= Steering(t2)
    ensures 6.0 <= t1 ==> Steering(t2) <= Steering(t1)
    ensures Steering(6.0) == 0.5
  {
  }

  /** Continuity of both schedules, in its strongest form: neither changes
      faster than its ramp slope, so in particular neither jumps at a
      breakpoint (0.5 s and 1.5 s; 4 s, 6 s and 10 s). */
  lemma SchedulesContinuous(t1: real, t2: real)
    ensures Abs(Throttle(t2) - Throttle(t1)) <= 0.4 * Abs(t2 - t1)
    ensures Abs(Steering(t2) - Steering(t1)) <= 0.25 * Abs(t2 - t1)
  {
  }

  /** The driver's two outputs, overwritten by every update. */
  class HMMWV9FuncDriver {
    var throttle: real
    var steering: real

    constructor ()
      ensures throttle == 0.0 && steering == 0.0
    {
      throttle, steering := 0.0, 0.0;
    }

    /** Sets both outputs from the time alone: the previous values play no
        part. */
    method Update(time: real)
      modifies this
      ensures throttle == Throttle(time) && steering == Steering(time)
    {
      if time < 0.5 {
        throttle := 0.0;
      } else if time < 1.5 {
        throttle := 0.4 * (time - 0.5);
      } else {
        throttle := 0.4;
      }
      if time < 4.0 {
        steering := 0.0;
      } else if time < 6.0 {
        steering := 0.25 * (time - 4.0);
      } else if time < 10.0 {
        steering := -0.25 * (time - 6.0) + 0.5;
      } else {
        steering := -0.5;
      }
    }
  }

  /** Two drivers updated at the same time agree, whatever they held
      before: the driver keeps no memory of earlier calls. */
  method UpdateForgetsHistory(a: HMMWV9FuncDriver, b: HMMWV9FuncDriver, time: real)
    requires a != b
    modifies a, b
    ensures a.throttle == b.throttle && a.steering == b.steering
  {
    a.Update(time);
    b.Update(time);
  }
}
