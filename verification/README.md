# HMMWV signal flow and dispatch, in Dafny

This project models the signal-flow and dispatch layer of the Chrono::Vehicle
HMMWV models, and proves properties of that model. The layer has these parts:

- the simple powertrain's drive-mode state machine and its linear
  torque–speed update step;
- the two-wheel-drive shaft driveline, with its wiring order and per-wheel
  torque dispatch;
- the solid-axle HMMWV vehicle: how `Initialize` wires the subsystems, how
  `Update` fans the driver inputs out, and how a wheel identifier is
  dispatched to an axle and side;
- the hardpoint tables of the solid-axle and reduced double-wishbone
  suspension templates, with their y-mirroring convention;
- the helpers of the 9-body HMMWV: the closed-form wheel torque, the
  steering gain, tire-index dispatch, hub loads and the mirrored placement;
- the scripted 9-body driver;
- the Pitman-arm geometry tables;
- the `ChValidation` comparator, which parses two result files and takes
  per-column difference norms.

Bodies, shafts, joints, springs and engine links are opaque handles, meaning
Dafny objects that hold only the values this layer reads or writes. The
physical system is the sequence of registered handles. All arithmetic is on
`real`.

Modules, one per file:

- `Wrappers`: `Option`.
- `Geometry`: vectors, y-mirroring, sides and wheel identifiers.
- `Physics`: the opaque handles and the system.
- `Powertrain`, `Driveline`, `SolidAxleSuspension`, `DoubleWishbone`,
  `Vehicle`, `NineBody`, `FuncDriver`, `PitmanArm` and `Validation`: one
  module per core source file.

Code that changes state step by step is modelled with classes and methods:
the powertrain, the driveline's `Initialize`, the vehicle's `Initialize` and
`Update`, the 9-body torque and hub-load routines, the double-wishbone point
array, and the validation file reader and norm loop. Each of these methods is
specified against a function whose properties are proved as lemmas. Switch
dispatch and constant tables are modelled as functions.

## Model

| member | source | states |
|---|---|---|
| Geometry.MirrorYInvolution | subsys/suspension/ChSolidAxle.h:19-21 | Reflecting a point across y = 0 twice gives the point back. |
| Geometry.MirrorYKeepsXZ | subsys/suspension/ChDoubleWishboneReduced.h:21-23 | Mirroring changes only y, which it negates. A point is its own mirror exactly when its y is 0. |
| Geometry.OnSide | subsys/suspension/ChDoubleWishboneReduced.h:19-23 | A point keeps its x and z on either side. Its y is kept on the right side and negated on the left. |
| Geometry.WheelIndexInjective | models/hmmwv/vehicle/HMMWV_VehicleSolidAxle.cpp:316-319 | The four wheel identifiers index four distinct entries of the tire-force vector. |
| Powertrain.Step | subsys/powertrain/ChSimplePowertrain.cpp:57-73 | Motor speed times the gear ratio is the shaft speed, and shaft torque times the ratio is the motor torque. The motor torque lies on the linear curve from maxTorque at standstill to 0 at maxSpeed, scaled by the throttle. |
| Powertrain.ZeroThrottleGivesZeroTorque | subsys/powertrain/ChSimplePowertrain.cpp:66-72 | With zero throttle, motor and shaft torque are 0 at every shaft speed. |
| Powertrain.StallTorqueIsScaledMaximum | subsys/powertrain/ChSimplePowertrain.cpp:62-69 | At shaft speed 0 the motor is still and delivers throttle × maxTorque. |
| Powertrain.NoTorqueAtMaxSpeed | subsys/powertrain/ChSimplePowertrain.cpp:62-72 | When the motor turns at maxSpeed, motor and shaft torque are 0. |
| Powertrain.NegativeTorqueAboveMaxSpeed | subsys/powertrain/ChSimplePowertrain.cpp:62-69 | Above maxSpeed a positive throttle gives a negative (braking) motor torque. |
| Powertrain.NeutralDecouples | subsys/powertrain/ChSimplePowertrain.cpp:51-72 | In neutral (ratio 1e20) the motor speed is the shaft speed divided by 1e20, and so is the shaft torque relative to the motor torque. |
| Powertrain.SimplePowertrain.constructor | subsys/powertrain/ChSimplePowertrain.cpp:28-34 | A new powertrain keeps its parameters and starts with motor speed, motor torque and shaft torque all 0. |
| Powertrain.SimplePowertrain.Initialize | subsys/powertrain/ChSimplePowertrain.cpp:38-41 | Sets the cached ratio to the forward ratio and changes nothing else, including the drive mode. Ratio and mode agree afterwards exactly when the mode's ratio is the forward one. |
| Powertrain.RatioFor | subsys/powertrain/ChSimplePowertrain.cpp:47-51 | The selected ratio is the forward ratio, the reverse ratio or 1e20. It is non-zero whenever both gear ratios are, so the update step's division by it is defined. Neutral gives a positive ratio. |
| Powertrain.SimplePowertrain.SetDriveMode | subsys/powertrain/ChSimplePowertrain.cpp:45-53 | Records the mode and caches its ratio: forward, reverse, or 1e20 for neutral. The outputs are untouched. |
| Powertrain.SimplePowertrain.Update | subsys/powertrain/ChSimplePowertrain.cpp:57-73 | Recomputes all three outputs from the throttle, the shaft speed and the cached ratio alone; time plays no part. Mode and ratio are unchanged. |
| Powertrain.SetDriveModeTwice | subsys/powertrain/ChSimplePowertrain.cpp:45-53 | Setting the same mode twice leaves the same state as setting it once. |
| Powertrain.ForwardScenario | subsys/powertrain/ChSimplePowertrain.cpp:57-73 | A worked instance after Initialize: half throttle at rest, with forward ratio 4 and maxTorque 300, gives motor torque 150 and shaft torque 37.5. |
| Driveline.ShaftsDriveline2WD.constructor | subsys/driveline/ChShaftsDriveline2WD.cpp:35-42 | Stores both direction vectors unchanged, sets rear-wheel drive, and creates none of the four entities. |
| Driveline.ShaftsDriveline2WD.Initialize | subsys/driveline/ChShaftsDriveline2WD.cpp:47-96 | Appends exactly four new entities to the system, in this order: driveshaft, differential box, conical gear, differential. The gear turns the driveshaft into the box against the chassis, with the stored directions and the conical ratio. The differential has the box as carrier, the left axle as member 2, the right axle as member 3 and the differential ratio. The chassis and both axles must be non-null, and the chassis must be registered. |
| Driveline.ShaftsDriveline2WD.AddShafts | subsys/driveline/ChShaftsDriveline2WD.cpp:61-69 | Creates and registers the driveshaft and then the differential box, each with its own inertia. |
| Driveline.ShaftsDriveline2WD.AddConstraints | subsys/driveline/ChShaftsDriveline2WD.cpp:76-95 | Creates and registers the conical gear and then the differential, with the roles listed above. The shafts are unchanged. |
| Driveline.ShaftsDriveline2WD.GetWheelTorque | subsys/driveline/ChShaftsDriveline2WD.cpp:101-115 | Front wheels get 0. A rear wheel gets the negated differential reaction of its side: member 2 on the left, member 3 on the right. Any other identifier gets -1. |
| SolidAxleSuspension.Ordinal | subsys/suspension/ChSolidAxle.h:63-91 | Every hardpoint identifier has a slot below NUM_POINTS = 26. |
| SolidAxleSuspension.PointAt | subsys/suspension/ChSolidAxle.h:63-91 | Every slot below 26 belongs to an identifier. |
| SolidAxleSuspension.PointAtOrdinal | subsys/suspension/ChSolidAxle.h:63-91 | Identifier to slot to identifier is the identity. |
| SolidAxleSuspension.OrdinalInjective | subsys/suspension/ChSolidAxle.h:63-91 | Distinct identifiers have distinct slots. |
| SolidAxleSuspension.SideLocation | subsys/suspension/ChSolidAxle.h:18-21 | A right-side location is the table entry. A left-side location has the same x and z and the opposite y. |
| SolidAxleSuspension.SidePoints | subsys/suspension/ChSolidAxle.h:18-21 | A side's 26 chassis-frame hardpoints are the mount location plus that side's location of each identifier. |
| SolidAxleSuspension.SidesAreMirrorImages | subsys/suspension/ChSolidAxle.h:19-21 | Mounted on the centre plane, every left hardpoint is the y-mirror of its right counterpart, and the reverse. |
| SolidAxleSuspension.NewSide | subsys/suspension/ChSolidAxle.h:121-136 | Builds one side's members, with revolute kingpin and spindle joints, spherical link joints and a distance tie rod. An axle shaft exists exactly when the suspension is driven. |
| SolidAxleSuspension.SolidAxle.constructor | subsys/suspension/ChSolidAxle.h:44-46 | Stores the name and the steerable and driven flags, which default to false. Builds one shared axle tube and two sides of distinct members. |
| SolidAxleSuspension.SolidAxle.GetSpindle | subsys/suspension/ChSolidAxle.h:18-25 | On a valid suspension a side's spindle is one of its two spindles and not the other side's. |
| SolidAxleSuspension.SolidAxle.GetRevolute | subsys/suspension/ChSolidAxle.h:18-25 | On a valid suspension a side's spindle joint is a revolute joint, and not the other side's. |
| SolidAxleSuspension.SpringsPerSide | subsys/suspension/ChSolidAxle.h:54-55 | The LEFT spring force and length come from spring 0 and the RIGHT ones from spring 1. The two springs are distinct objects. |
| SolidAxleSuspension.SolidAxle.GetAxle | subsys/suspension/ChSolidAxle.h:23-25 | A side has an axle shaft exactly when the suspension is driven. |
| DoubleWishbone.Ordinal | subsys/suspension/ChDoubleWishboneReduced.h:57-71 | Every hardpoint identifier has a slot below NUM_POINTS = 12. |
| DoubleWishbone.PointAt | subsys/suspension/ChDoubleWishboneReduced.h:57-71 | Every slot below 12 belongs to an identifier. |
| DoubleWishbone.PointAtOrdinal | subsys/suspension/ChDoubleWishboneReduced.h:57-71 | Identifier to slot to identifier is the identity. |
| DoubleWishbone.OrdinalInjective | subsys/suspension/ChDoubleWishboneReduced.h:57-71 | Distinct identifiers have distinct slots. |
| DoubleWishbone.PlacedPoint | subsys/suspension/ChDoubleWishboneReduced.h:18-24 | A placed (chassis-frame) hardpoint is the location plus the table entry, with y negated on the left side only. |
| DoubleWishbone.PlacedPoints | subsys/suspension/ChDoubleWishboneReduced.h:90 | One placed point per identifier slot, 12 in all. |
| DoubleWishbone.LeftMirrorsRight | subsys/suspension/ChDoubleWishboneReduced.h:19-23 | On the centre plane, the left suspension's points are the y-mirrors of the right one's. |
| DoubleWishbone.DoubleWishboneReduced.constructor | subsys/suspension/ChDoubleWishboneReduced.h:45-47 | One instance per side, driven defaulting to false. Builds one point slot per identifier, one revolute, five distance constraints and one shock, plus an axle shaft exactly when driven. |
| DoubleWishbone.DoubleWishboneReduced.InitializePoints | subsys/suspension/ChDoubleWishboneReduced.h:90 | Fills the point array in place with exactly the placed points of the instance's side. |
| DoubleWishbone.InitializedPoint | subsys/suspension/ChDoubleWishboneReduced.h:19-24 | After initialization each identifier's point is the location plus its table entry, mirrored for a left suspension. |
| Vehicle.MountLocationsInInches | models/hmmwv/vehicle/HMMWV_VehicleSolidAxle.cpp:142-143 | The front and rear mount locations are in2m · (-66.59, 0, 1.039) and in2m · (66.4, 0, 1.039). |
| Vehicle.MountLocations | models/hmmwv/vehicle/HMMWV_VehicleSolidAxle.cpp:142-143 | Both suspensions sit on the centre plane at the same height, the front one ahead of the rear one. |
| Vehicle.WheelSlot | models/hmmwv/vehicle/HMMWV_VehicleSolidAxle.cpp:167-181 | A valid identifier maps to its own axle and side. Any other identifier falls back to front right. |
| Vehicle.SlotWheel | models/hmmwv/vehicle/HMMWV_VehicleSolidAxle.cpp:316-319 | Every axle and side has a valid identifier. |
| Vehicle.WheelSlotBijective | models/hmmwv/vehicle/HMMWV_VehicleSolidAxle.cpp:167-181 | Identifier-to-slot dispatch is a bijection between the four valid identifiers and the four corners. |
| Vehicle.SolidAxleVehicle.constructor | models/hmmwv/vehicle/HMMWV_VehicleSolidAxle.cpp:48-126 | Only the chassis is registered. Builds "FrontSusp" non-driven and "RearSusp" driven, plus a rear-wheel-drive driveline. Wheels, brakes and powertrain start detached. |
| Vehicle.SolidAxleVehicle.Initialize | models/hmmwv/vehicle/HMMWV_VehicleSolidAxle.cpp:136-162 | Sets the chassis pose and mounts both suspensions at their locations. Each wheel goes on its own corner's spindle. The driveline gets the rear LEFT then RIGHT axle and registers its four entities. The powertrain gets the chassis and the new driveshaft. Each brake goes on its own corner's revolute, keeping its modulation. Tire forces are untouched. |
| Vehicle.SolidAxleVehicle.PlaceChassis | models/hmmwv/vehicle/HMMWV_VehicleSolidAxle.cpp:138-149 | Sets the pose, mounts the suspensions and attaches the wheels. Brakes and powertrain are untouched. |
| Vehicle.SolidAxleVehicle.WireDriveline | models/hmmwv/vehicle/HMMWV_VehicleSolidAxle.cpp:152-155 | Wires the driveline to the rear axles and hands its driveshaft to the powertrain. Wheels, brakes and suspension inputs are untouched. |
| Vehicle.SolidAxleVehicle.MountSuspensions | models/hmmwv/vehicle/HMMWV_VehicleSolidAxle.cpp:142-143 | Each suspension records its own mount location, and nothing else changes. |
| Vehicle.SolidAxleVehicle.AttachWheels | models/hmmwv/vehicle/HMMWV_VehicleSolidAxle.cpp:146-149 | Each wheel is on the spindle of its own corner, and nothing else changes. |
| Vehicle.SolidAxleVehicle.ConnectPowertrain | models/hmmwv/vehicle/HMMWV_VehicleSolidAxle.cpp:155 | The powertrain records the chassis and the given driveshaft, and nothing else changes. |
| Vehicle.SolidAxleVehicle.AttachBrakes | models/hmmwv/vehicle/HMMWV_VehicleSolidAxle.cpp:158-161 | Each brake is on the revolute of its own corner, keeps its modulation, and nothing else changes. |
| Vehicle.SolidAxleVehicle.Update | models/hmmwv/vehicle/HMMWV_VehicleSolidAxle.cpp:301-326 | Only the front suspension receives steering, at 0.08 × steering. The powertrain receives (time, throttle) exactly once. Each valid identifier's tire force reaches its own corner. All four brakes receive the same braking value. Wheels are unchanged. |
| Vehicle.ValidIsAssembled | models/hmmwv/vehicle/HMMWV_VehicleSolidAxle.cpp:100-101 | Because the rear suspension is built driven, a constructed vehicle has both rear axle shafts, which is what Initialize needs. |
| Vehicle.SpindleWheelsBySlot | models/hmmwv/vehicle/HMMWV_VehicleSolidAxle.cpp:146-149 | The wheel at each corner is attached to that corner's spindle. |
| Vehicle.WithRevolutesBySlot | models/hmmwv/vehicle/HMMWV_VehicleSolidAxle.cpp:158-161 | The brake at each corner acts on that corner's revolute and keeps its modulation. |
| Vehicle.SolidAxleVehicle.GetWheelBody | models/hmmwv/vehicle/HMMWV_VehicleSolidAxle.cpp:167-181 | A valid identifier gets the spindle of its own axle (front or rear) and side. Any other identifier gets the front-right spindle. The result is always one of the four spindles. |
| Vehicle.SolidAxleVehicle.GetWheelPos | models/hmmwv/vehicle/HMMWV_VehicleSolidAxle.cpp:183-197 | The position of the spindle of the wheel's own axle and side. Any other identifier reads the front-right spindle. |
| Vehicle.SolidAxleVehicle.GetWheelRot | models/hmmwv/vehicle/HMMWV_VehicleSolidAxle.cpp:199-213 | The orientation of the spindle of the wheel's own axle and side. Any other identifier reads the front-right spindle. |
| Vehicle.SolidAxleVehicle.GetWheelLinVel | models/hmmwv/vehicle/HMMWV_VehicleSolidAxle.cpp:215-229 | The linear velocity of the spindle of the wheel's own axle and side. Any other identifier reads the front-right spindle. |
| Vehicle.SolidAxleVehicle.GetWheelAngVel | models/hmmwv/vehicle/HMMWV_VehicleSolidAxle.cpp:231-245 | The angular velocity of the spindle of the wheel's own axle and side. Any other identifier reads the front-right spindle. |
| Vehicle.SolidAxleVehicle.GetWheelOmega | models/hmmwv/vehicle/HMMWV_VehicleSolidAxle.cpp:247-261 | A rear wheel gets the speed of the rear axle shaft on its side. An identifier outside the four wheels gets -1. The front wheels are excluded (see Left out). |
| Vehicle.SolidAxleVehicle.GetSpringForce | models/hmmwv/vehicle/HMMWV_VehicleSolidAxle.cpp:266-280 | A valid identifier gets the spring force of its own axle and side. Any other identifier gets -1. |
| Vehicle.SolidAxleVehicle.GetSpringLength | models/hmmwv/vehicle/HMMWV_VehicleSolidAxle.cpp:282-296 | A valid identifier gets the spring length of its own axle and side. Any other identifier gets -1. |
| Vehicle.WheelBodiesDistinct | models/hmmwv/vehicle/HMMWV_VehicleSolidAxle.cpp:167-181 | Each valid identifier's body is its own axle and side's spindle. Two identifiers give the same body exactly when they are equal. Any other identifier gives the front-right spindle. |
| Vehicle.RearTorqueFromOwnAxle | models/hmmwv/vehicle/HMMWV_VehicleSolidAxle.cpp:150-152 | After the driveline is wired to the rear axle, exactly one differential member is a rear wheel's own axle shaft. The wheel's torque is the negated reaction on that member. |
| Vehicle.SpindleAccessors | models/hmmwv/vehicle/HMMWV_VehicleSolidAxle.cpp:183-245 | Position, rotation, linear and angular velocity are read from the dispatched spindle. An invalid identifier reads the front-right spindle. |
| Vehicle.ScalarAccessors | models/hmmwv/vehicle/HMMWV_VehicleSolidAxle.cpp:247-296 | The spring force and spring length of a valid identifier read its own axle and side's spring. A rear wheel's omega is its side's axle-shaft speed. An invalid identifier gives -1 for all three. |
| Vehicle.NewSuspensions | models/hmmwv/vehicle/HMMWV_VehicleSolidAxle.cpp:100-101 | The front suspension is "FrontSusp" and not driven. The rear is "RearSusp" and driven. They have distinct spindles. |
| Vehicle.NewRegisteredChassis | models/hmmwv/vehicle/HMMWV_VehicleSolidAxle.cpp:56-94 | The new chassis is the only registered item. |
| NineBody.SingleWheelTorque | models/hmmwv_9body/HMMWV_9body.cpp:199-212 | Zero throttle, or a motor at maximum speed, gives zero wheel torque. Wheels at rest give half the throttled maximum torque multiplied up through both gear stages. |
| NineBody.WheelTorqueIsHalfPowertrainShaftTorque | models/hmmwv_9body/HMMWV_9body.cpp:199-212 | The wheel torque is half the shaft torque of the simple powertrain's update step. That step uses ratio gear_tau · conic_tau and the mean wheel speed. |
| NineBody.WheelTorqueSymmetric | models/hmmwv_9body/HMMWV_9body.cpp:199-217 | Swapping the two wheel speeds does not change the torque. |
| NineBody.PlacementMirrors | models/hmmwv_9body/HMMWV_9body.cpp:86-97 | The left wheels and spindles are the y-mirrors of the right ones. |
| NineBody.SpindlesInboard | models/hmmwv_9body/HMMWV_9body.cpp:82-97 | Each spindle shares its wheel's x and z and sits 5 in closer to the centre plane. |
| NineBody.TireIndexMatchesPlacement | models/hmmwv_9body/HMMWV_9body.cpp:263-287 | Tire indices 0 and 2 are right, 1 and 3 left. Indices 0 and 1 are front. Each odd index mirrors the index before it. |
| NineBody.HubLoadsAsWritten | models/hmmwv_9body/HMMWV_9body.cpp:236-259 | All four wheels receive entry 0 of the force and moment vectors. |
| NineBody.HubLoads | models/hmmwv_9body/HMMWV_9body.cpp:236-259 | Wheel i receives entry i of the force and moment vectors. |
| NineBody.HubLoadsAsWrittenDiffer | models/hmmwv_9body/HMMWV_9body.cpp:247-257 | The two agree exactly when all four entries of both vectors are equal. |
| NineBody.HMMWV9Body.constructor | models/hmmwv_9body/HMMWV_9body.cpp:50-53 | Keeps the four distinct wheel bodies, the two engine links and the driver. The gear ratios are 0.2 (conical) and 0.3 (motor gear). |
| NineBody.HMMWV9Body.ComputeWheelTorque | models/hmmwv_9body/HMMWV_9body.cpp:194-223 | Returns the closed-form single-wheel torque of the current throttle and engine speeds. Installs that torque in both engine links that have a constant torque law. Records it as currTorque. |
| NineBody.HMMWV9Body.ComputeSteerDisplacement | models/hmmwv_9body/HMMWV_9body.cpp:226-234 | The displacement is steer / 8, that is 0.125 · steer, so within ±0.125 m for steer in [-1, 1]. |
| NineBody.HMMWV9Body.WheelBodyAt | models/hmmwv_9body/HMMWV_9body.cpp:263-287 | A wheel exists exactly for tire indices 0 to 3. |
| NineBody.HMMWV9Body.WheelBodyAtInjective | models/hmmwv_9body/HMMWV_9body.cpp:263-287 | Distinct indices name distinct wheels. |
| NineBody.HMMWV9Body.GetCMPos | models/hmmwv_9body/HMMWV_9body.cpp:263-287 | Indices 0 to 3 give the position of RF, LF, RB or LB. Any other index gives the zero vector. |
| NineBody.HMMWV9Body.GetCMRot | models/hmmwv_9body/HMMWV_9body.cpp:290-314 | Indices 0 to 3 give the rotation of RF, LF, RB or LB. Any other index gives the default quaternion. |
| NineBody.HMMWV9Body.GetCMVelAsWritten | models/hmmwv_9body/HMMWV_9body.cpp:326-349 | The zero vector for every index, because the body read is discarded. |
| NineBody.HMMWV9Body.GetCMAngVelAsWritten | models/hmmwv_9body/HMMWV_9body.cpp:351-374 | The zero vector for every index, because the body read is discarded. |
| NineBody.HMMWV9Body.GetCMAccAsWritten | models/hmmwv_9body/HMMWV_9body.cpp:376-399 | The zero vector for every index, because the body read is discarded. |
| NineBody.HMMWV9Body.GetCMVel | models/hmmwv_9body/HMMWV_9body.cpp:326-349 | Intended: the linear velocity of the indexed wheel, or zero for any other index. |
| NineBody.HMMWV9Body.GetCMAngVel | models/hmmwv_9body/HMMWV_9body.cpp:351-374 | Intended: the body-frame angular velocity of the indexed wheel, or zero for any other index. |
| NineBody.HMMWV9Body.GetCMAcc | models/hmmwv_9body/HMMWV_9body.cpp:376-399 | Intended: the linear acceleration of the indexed wheel, or zero for any other index. |
| NineBody.HMMWV9Body.CMRatesAsWrittenDiffer | models/hmmwv_9body/HMMWV_9body.cpp:326-399 | For a wheel index, each as-written rate agrees with the intended one exactly when the wheel's rate is zero. |
| NineBody.HMMWV9Body.ApplyHubFMAsWritten | models/hmmwv_9body/HMMWV_9body.cpp:236-259 | Empties the four wheels' accumulators, then loads each with exactly entry 0 of the forces and moments, applied at the origin in absolute coordinates. The wheels' kinematics are unchanged. |
| NineBody.HMMWV9Body.ApplyHubFM | models/hmmwv_9body/HMMWV_9body.cpp:236-259 | Intended: the same, with wheel i loaded with entry i. |
| FuncDriver.Throttle | models/hmmwv_9body/HMMWV9_FuncDriver.cpp:28-33 | The throttle stays within [0, 0.4]. It is 0 before 0.5 s and 0.4 from 1.5 s on. |
| FuncDriver.Steering | models/hmmwv_9body/HMMWV9_FuncDriver.cpp:35-42 | The steering stays within [-0.5, 0.5]. It is 0 before 4 s and -0.5 from 10 s on. |
| FuncDriver.ThrottleMonotone | models/hmmwv_9body/HMMWV9_FuncDriver.cpp:28-33 | The throttle never decreases over time. |
| FuncDriver.SteeringPeak | models/hmmwv_9body/HMMWV9_FuncDriver.cpp:35-42 | The steering rises up to 6 s, peaks there at 0.5, and falls after. |
| FuncDriver.SchedulesContinuous | models/hmmwv_9body/HMMWV9_FuncDriver.cpp:28-42 | Neither schedule changes faster than its ramp slope (0.4 and 0.25 per second), so neither jumps at a breakpoint. |
| FuncDriver.HMMWV9FuncDriver.constructor | models/hmmwv_9body/demo_HMMWV9.cpp:147 | A default-constructed driver has throttle 0 and steering 0. The zeros come from the base driver class (ChDriver), which is not part of this model. |
| FuncDriver.HMMWV9FuncDriver.Update | models/hmmwv_9body/HMMWV9_FuncDriver.cpp:26-43 | Overwrites both outputs with the two schedules at the given time. |
| FuncDriver.UpdateForgetsHistory | models/hmmwv_9body/HMMWV9_FuncDriver.cpp:26-43 | Two drivers updated at the same time agree, whatever they held before. |
| PitmanArm.GetLocation | models/hmmwv/steering/HMMWV_PitmanArm.cpp:51-64 | An unknown identifier gives the origin. Exactly the two tie-rod points leave the plane z = 0. |
| PitmanArm.GetDirection | models/hmmwv/steering/HMMWV_PitmanArm.cpp:66-75 | Every axis, including the default, is (0, 0, 1) except the link-side universal axis, which is (1, 0, 0). All are unit vectors. |
| PitmanArm.TierodsMirror | models/hmmwv/steering/HMMWV_PitmanArm.cpp:60-61 | The two tie-rod points are distinct y-mirrors of each other. |
| PitmanArm.SharedLateralLines | models/hmmwv/steering/HMMWV_PitmanArm.cpp:55-61 | Pitman arm, revolute and universal joint share y = -0.249. Both idler points share y = 0.325. The Pitman-arm tie rod is on the negative-y side. |
| PitmanArm.UniversalAxesPerpendicular | models/hmmwv/steering/HMMWV_PitmanArm.cpp:70-71 | The two universal-joint axes are perpendicular. |
| Validation.FieldEnd | utils/ChUtilsValidation.cpp:128 | The end of the first field: no delimiter before it, and the delimiter at it unless the line ends there. |
| Validation.SplitFields | utils/ChUtilsValidation.cpp:128 | No field contains the delimiter, and a non-empty line has at least one field. |
| Validation.SplitStep | utils/ChUtilsValidation.cpp:128-129 | Splitting yields the first field, then the split of the rest after the delimiter. |
| Validation.JoinSplit | utils/ChUtilsValidation.cpp:128-129 | Joining the fields of a line that does not end with the delimiter gives the line back. |
| Validation.SplitJoin | utils/ChUtilsValidation.cpp:128-129 | Splitting the join of delimiter-free fields, the last one non-empty, gives the fields back. |
| Validation.HeaderLine | utils/ChUtilsValidation.cpp:119-124 | The header is the third line when there is one. In a shorter file it is the last line if that line has no final newline, and empty otherwise. |
| Validation.OneLineFileHeader | utils/ChUtilsValidation.cpp:119-129 | A one-line file without a final newline has that line as its single header field. With a final newline it has no header fields. Neither has data rows. |
| Validation.GridOfUnique | utils/ChUtilsValidation.cpp:131-147 | The data grid is determined by the data lines and its shape. |
| Validation.ReadDataFile | utils/ChUtilsValidation.cpp:110-148 | Skips two lines and appends the header's fields (the third line, or in a shorter file an unterminated last line) to the headers passed in, without clearing them. Builds one zeroed column of num_data_points entries per header. Row r of every column takes data line r's values. Returns the number of data lines. |
| Validation.ReadHeaders | utils/ChUtilsValidation.cpp:124-129 | The loop appends exactly the delimiter-split fields of the header line to the existing headers. |
| Validation.ScanField | utils/ChUtilsValidation.cpp:128 | The scan stops at the first delimiter from the position, or at the end of the line. |
| Validation.ScanStep | utils/ChUtilsValidation.cpp:128-129 | One scanned field followed by the split of the rest is the split of the line from the position. |
| Validation.ReadRow | utils/ChUtilsValidation.cpp:141-144 | Row r of each column takes that column's value from the line, or keeps its cell if the line has no value there. All other cells are unchanged. |
| Validation.Diff | utils/ChUtilsValidation.cpp:68-70 | The element-wise difference of two equal-length columns. |
| Validation.SumSquares | utils/ChUtilsValidation.cpp:92-100 | A sum of squares is never negative. |
| Validation.SumSquaresOfZero | utils/ChUtilsValidation.cpp:92-100 | An all-zero column has sum of squares 0, so its L2 and RMS norms are sqrt(0). |
| Validation.InfNorm | utils/ChUtilsValidation.cpp:102-105 | The INF norm bounds the absolute value of every entry and equals one of them. |
| Validation.InfNormZeroIff | utils/ChUtilsValidation.cpp:102-105 | The INF norm of a difference is 0 exactly when the two columns are equal. |
| Validation.L2Norm | utils/ChUtilsValidation.cpp:92-95 | The square root of the sum of squares. A column of zeros has norm sqrt(0). |
| Validation.RMSNorm | utils/ChUtilsValidation.cpp:97-100 | The square root of the mean square. It equals the L2 norm on a one-entry column, and a column of zeros has norm sqrt(0). |
| Validation.DiffNorms | utils/ChUtilsValidation.cpp:61-71 | Entry c of the three norm vectors holds the L2, RMS and INF norm of data column c + 1's difference, skipping time. There are num_cols − 1 entries. |
| Validation.ChValidation.Process | utils/ChUtilsValidation.cpp:28-74 | Reads both files. Succeeds exactly when the column counts match, then the row counts, then the time columns' L2 difference is at most 1e-10. On success the norms of every non-time column are stored. On failure the norms are left as they were. |
| Validation.ChValidation.LoadFiles | utils/ChUtilsValidation.cpp:33-38 | Reads the simulation file, then the reference file, and leaves the norms alone. |
| Validation.ChValidation.GetDiffMetrics | utils/ChUtilsValidation.cpp:79-87 | Returns the three stored norms at the index unchanged. The INF one is never negative. |
| Validation.CompareWithItself | utils/ChUtilsValidation.cpp:28-105 | A file compared with itself passes every check, with an INF difference of 0 in every column, given a header line and a square root with sqrt(0) = 0. |

## Left out

- The rigid-body solver, system stepping, body, joint and shaft construction
  details, and reaction-force computation. Handles are opaque objects, and the
  reactions a differential reports are inputs.
- Visualization, meshes, logging and diagnostic output (`LogHardpointLocations`,
  `DebugLog`, the warnings printed by `getCM_*`), and the output file writer
  of the 9-body model. These produce output only.
- Floating-point rounding: all arithmetic is on exact reals.
- Validation.L2Norm, Validation.RMSNorm: the square root is a parameter, so no
  property of it is assumed. The converse of `SumSquaresOfZero` (a non-zero
  difference gives a positive norm) is not proved, because it needs
  non-linear real reasoning.
- Validation.ReadDataFile, Validation.ChValidation.LoadFiles,
  Validation.ChValidation.Process: a file is its lines plus whether its text
  ends in a newline; other stream failures are not modelled. In a file of
  fewer than three lines whose last line is unterminated, that last line is
  read as the header, because a read that fails at the end of the text does
  not clear the string (`HeaderLine`, `OneLineFileHeader`).
- Validation.ReadDataFile: numeric
  extraction with `>>` is a parameter that gives the values read from a line.
  A line with fewer values leaves zeros in the remaining cells, as a freshly
  resized column holds zeros.
- Validation.ReadDataFile: requires at least as many rows as data lines,
  because the source writes past the end of its columns otherwise (undefined
  behaviour).
- Validation.ChValidation.Process: requires at least one column once the
  count checks pass, and at least one data point when there is a column
  besides time. The source's time check and RMS divisor are undefined
  otherwise.
- Vehicle.SolidAxleVehicle.Update: requires at least four tire forces,
  because the source indexes the tire-force vector at all four wheels
  (models/hmmwv/vehicle/HMMWV_VehicleSolidAxle.cpp:301-326), which is
  undefined behaviour on a shorter vector.
- Vehicle.SolidAxleVehicle.GetWheelOmega: requires the suspension of a valid
  identifier to be driven. The source asks the non-driven front suspension
  for its axle speed, and that axle does not exist. The model does not decide
  what that call returns.
- Vehicle.SolidAxleVehicle.Initialize: requires `Assembled()` (both rear axle
  shafts exist) and `Registered()` (the chassis is in the system) rather than
  the full `Valid()`. `ValidIsAssembled` shows that every constructed vehicle
  meets the first; the constructor establishes the second.
- The suspension, wheel, brake and HMMWV powertrain implementations
  (ChSolidAxle.cpp, ChDoubleWishboneReduced.cpp, ChSuspension, HMMWV_Wheel,
  HMMWV_BrakeSimple, HMMWV_Powertrain) are not part of this model.
  - The vehicle records what each of them was told: mount location, steering
    displacement, tire force, spindle, revolute, brake modulation, powertrain
    attachment and last update.
  - What they do with that input is not modelled, including the suspension's
    own body creation, tierod markers and spindle queries.
  - The suspensions' numeric hardpoint tables belong to the concrete HMMWV
    suspensions, so the templates take a table as a parameter.
- The vehicle's chassis mass, inertia and visualization switches. The order
  in which the suspensions register their own bodies is not modelled, and
  neither is the HMMWV powertrain's own registration in Initialize
  (HMMWV_VehicleSolidAxle.cpp:155). The clause on the system's items in
  `Initialize` covers only the driveline's four entities.
- The 9-body constructor (models/hmmwv_9body/HMMWV_9body.cpp:42-191), except
  the wheel and spindle placements (lines 82-97), which are modelled. The
  bodies, links and driver are passed in, and the engine links' torque law
  is either a constant or something else.
- `getCM_pos_chassis` and `getCM_vel_chassis` of the 9-body model, which
  forward the chassis state unchanged.
- The Pitman arm's masses, radii, inertias and maximum steering angle
  (`m_maxAngle`, defined through π).
- The test programs and demos (demo_HMMWV9.cpp, test_spherical.cpp) and the
  JSON-loaded powertrain (SimplePowertrain.h), whose four values are the
  powertrain's parameter record.
- Powertrain.Step, Powertrain.SimplePowertrain.Update: require a non-zero
  gear ratio and a non-zero maxSpeed. The source divides by both without a
  check (subsys/powertrain/ChSimplePowertrain.cpp:62, 66, 72), and its
  result for a zero divisor is not modelled. `RatioFor` shows the ratio is
  non-zero after `SetDriveMode` whenever both gear ratios are.
- SolidAxleSuspension.SidePoints, DoubleWishbone.PlacedPoint: the points are
  in the chassis frame, relative to the chassis reference. The chassis pose
  transform that the suspensions' own initialization applies to them is not
  modelled.
- Powertrain.SimplePowertrain.constructor: the base class leaves the drive
  mode and the cached ratio uninitialised, so the constructor states nothing
  about them.

## Findings

| source | as written | input that shows it | evidently intended | confidence | as-written member | corrected member |
|---|---|---|---|---|---|---|
| models/hmmwv_9body/HMMWV_9body.cpp:326-399 | `getCM_vel`, `getCM_w` and `getCM_acc` read the wheel's rate, discard it, and return the zero vector they started with | tire index 0 with the right-front wheel moving at linear velocity (1, 0, 0): the result is (0, 0, 0) | return the indexed wheel's linear velocity, angular velocity or acceleration, as `getCM_pos` and `getCM_q` do | not executed | NineBody.HMMWV9Body.GetCMVelAsWritten, NineBody.HMMWV9Body.GetCMAngVelAsWritten, NineBody.HMMWV9Body.GetCMAccAsWritten, NineBody.HMMWV9Body.CMRatesAsWrittenDiffer | NineBody.HMMWV9Body.GetCMVel, NineBody.HMMWV9Body.GetCMAngVel, NineBody.HMMWV9Body.GetCMAcc |
| models/hmmwv_9body/HMMWV_9body.cpp:247-257 | `applyHub_FM` adds `F_hub[0]` and `M_hub[0]` to all four wheels | forces whose entry 1 differs from entry 0: the left-front wheel receives entry 0 | wheel i receives entry i | not executed | NineBody.HubLoadsAsWritten, NineBody.HMMWV9Body.ApplyHubFMAsWritten, NineBody.HubLoadsAsWrittenDiffer | NineBody.HubLoads, NineBody.HMMWV9Body.ApplyHubFM |
