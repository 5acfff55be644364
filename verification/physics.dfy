/** Opaque handles for the entities owned by the external physical system.
    The solver itself is not modelled: the state it integrates (positions,
    velocities, shaft speeds, reaction torques, spring forces) appears as
    fields that only the solver would write.  What this core does to these
    entities (creating them, configuring their roles, registering them,
    filling force accumulators) is modelled exactly. */
module Physics {
  import opened Geometry

  /** A force added to a body's accumulator, with its application point and
      whether that point is in body-local coordinates. */
  datatype AppliedForce = AppliedForce(force: Vec3, point: Vec3, local: bool)

  /** A torque added to a body's accumulator. */
  datatype AppliedTorque = AppliedTorque(torque: Vec3, local: bool)

  /** A rigid body.  Kinematic state is written by the solver; the force and
      torque accumulators record what the core added since they were last
      emptied. */
  class Body {
    var pos: Vec3
    var rot: Quat
    var linVel: Vec3
    var linAcc: Vec3
    /** Angular velocity in the absolute frame. */
    var angVel: Vec3
    /** Angular velocity in the body's local frame. */
    var angVelLocal: Vec3
    var forces: seq<AppliedForce>
    var torques: seq<AppliedTorque>

    constructor ()
      ensures forces == [] && torques == []
    {
      pos, rot := Zero, Quat(1.0, 0.0, 0.0, 0.0);
      linVel, linAcc, angVel, angVelLocal := Zero, Zero, Zero, Zero;
      forces, torques := [], [];
    }

    /** Places the body: sets its position and orientation, nothing else. */
    method SetPose(pos: Vec3, rot: Quat)
      modifies this
      ensures this.pos == pos && this.rot == rot
      ensures linVel == old(linVel) && linAcc == old(linAcc) && angVel == old(angVel) && angVelLocal == old(angVelLocal)
      ensures forces == old(forces) && torques == old(torques)
    {
      this.pos, this.rot := pos, rot;
    }

    method EmptyForceAccumulators()
      modifies this
      ensures forces == [] && torques == []
      ensures pos == old(pos) && rot == old(rot) && linVel == old(linVel)
      ensures linAcc == old(linAcc) && angVel == old(angVel) && angVelLocal == old(angVelLocal)
    {
      forces, torques := [], [];
    }

    method AccumulateForce(force: Vec3, point: Vec3, local: bool)
      modifies this
      ensures forces == old(forces) + [AppliedForce(force, point, local)]
      ensures torques == old(torques)
      ensures pos == old(pos) && rot == old(rot) && linVel == old(linVel)
      ensures linAcc == old(linAcc) && angVel == old(angVel) && angVelLocal == old(angVelLocal)
    {
      forces := forces + [AppliedForce(force, point, local)];
    }

    method AccumulateTorque(torque: Vec3, local: bool)
      modifies this
      ensures torques == old(torques) + [AppliedTorque(torque, local)]
      ensures forces == old(forces)
      ensures pos == old(pos) && rot == old(rot) && linVel == old(linVel)
      ensures linAcc == old(linAcc) && angVel == old(angVel) && angVelLocal == old(angVelLocal)
    {
      torques := torques + [AppliedTorque(torque, local)];
    }
  }

  /** A one-degree-of-freedom rotating element with rotational inertia. */
  class Shaft {
    const inertia: real
    /** Angular speed, written by the solver. */
    var speed: real

    constructor (inertia: real)
      ensures this.inertia == inertia
    {
      this.inertia := inertia;
      speed := 0.0;
    }
  }

  datatype JointKind = Revolute | Spherical | Distance

  /** A kinematic joint or constraint between bodies. */
  class Joint {
    const kind: JointKind

    constructor (kind: JointKind)
      ensures this.kind == kind
    {
      this.kind := kind;
    }
  }

  /** A spring or shock element; its current force and length are written
      by the solver. */
  class LinkSpring {
    var force: real
    var length: real

    constructor ()
    {
      force, length := 0.0, 0.0;
    }
  }

  /** A transmission-ratio constraint between two non-parallel shafts that
      passes its reaction torque to a truss body. */
  class ShaftsGearboxAngled {
    const input: Shaft
    const output: Shaft
    const truss: Body
    const dirInput: Vec3
    const dirOutput: Vec3
    const ratio: real

    constructor (input: Shaft, output: Shaft, truss: Body, dirInput: Vec3, dirOutput: Vec3, ratio: real)
      ensures this.input == input && this.output == output && this.truss == truss
      ensures this.dirInput == dirInput && this.dirOutput == dirOutput && this.ratio == ratio
    {
      this.input, this.output, this.truss := input, output, truss;
      this.dirInput, this.dirOutput, this.ratio := dirInput, dirOutput, ratio;
    }
  }

  /** An epicyclic constraint between a carrier (member 1) and two further
      members (2 and 3).  The reaction torques on members 2 and 3 are
      written by the solver. */
  class ShaftsPlanetary {
    const carrier: Shaft
    const shaft2: Shaft
    const shaft3: Shaft
    const ordinaryRatio: real
    var torqueReactionOn2: real
    var torqueReactionOn3: real

    constructor (carrier: Shaft, shaft2: Shaft, shaft3: Shaft, ordinaryRatio: real)
      ensures this.carrier == carrier && this.shaft2 == shaft2 && this.shaft3 == shaft3
      ensures this.ordinaryRatio == ordinaryRatio
    {
      this.carrier, this.shaft2, this.shaft3 := carrier, shaft2, shaft3;
      this.ordinaryRatio := ordinaryRatio;
      torqueReactionOn2, torqueReactionOn3 := 0.0, 0.0;
    }
  }

  /** The torque law attached to an engine link: a constant function, or
      some other kind of function that the core does not touch. */
  datatype TorqueFunction = ConstTorque(y: real) | OtherTorque

  /** A revolute joint driven by a torque law; its relative rotation speed
      is written by the solver. */
  class LinkEngine {
    var speed: real
    var torqueFunction: TorqueFunction

    constructor (torqueFunction: TorqueFunction)
      ensures this.torqueFunction == torqueFunction
    {
      speed := 0.0;
      this.torqueFunction := torqueFunction;
    }
  }

  /** The physical system: the single system-wide collection every newly
      created entity is registered in, in registration order. */
  class ChSystem {
    var items: seq<object>

    constructor ()
      ensures items == []
    {
      items := [];
    }

    method Add(item: object)
      modifies this
      ensures items == old(items) + [item]
    {
      items := items + [item];
    }
  }
}
