# SpoutAPI math and GUI core in Dafny

This project models three pieces of SpoutAPI and proves properties about them:

- **Quaternion library** (`org.spout.api.math.QuaternionMath`), in `quaternion_math.dfy`. It is stateless. It covers:
  - the length squared, the length and normalisation;
  - the Hamilton product;
  - rotations built by pre-multiplying axis-angle quaternions;
  - the identity short-circuit of `rotationTo`;
  - the conversion of a quaternion to pitch, yaw and roll in degrees, including the gimbal-pole branch and the yaw wrap.

  Quaternions are values of `Quat`. Floats are exact reals. Library calls that cannot be reasoned about over the reals are function-valued parameters: `Math.sqrt`, `Math.atan2`, `Math.asin`, `Math.toDegrees` and the `Quaternion(angle, axis)` constructors. The constant `TrigMath.HALF_PI` is the real field `halfPi` of the same `Trig` parameter. Each assumption a lemma makes about them is a named predicate in its `requires`: `IsSqrtAt`, `IsUnit`, `ZeroAngleIsIdentity`, `OverloadsAgree`, `Atan2InRange`, `AsinInRange`, `PositiveHalfPi`, `DegreesConsistent` and `ExactAtZero`.
- **Vector3** (`org.getspout.commons.math.Vector3`), in `commons_math.dfy`. It has three mutable `double` fields, setters, and static and instance `add`, `subtract`, `dot` and `cross`.
  - The class `Vector3` keeps the fields and the setters (`modifies this`). The arithmetic methods return fresh objects.
  - Java overloads the static and instance forms by arity. The static forms are the module-level `StaticAdd`, `StaticSubtract`, `StaticDot` and `StaticCross`, and the instance methods delegate to them.
  - Each method's contract ties the new object to a value-level function on `Vec3`, and the algebra is proved about those functions.
  - `dot` is modelled as written: it adds the z components instead of multiplying them (see Findings).
- **ScrollBarPolicy** (`org.spout.api.gui.ScrollBarPolicy`), in `gui.dfy`. An enumeration with integer ids, and a static id-to-policy table filled by a loop when the class is initialised.
  - `FillIds` is that loop, proved against the fold `IdsOf`.
  - `GetById` looks ids up in the table the loop builds, giving `None` where Java gives `null`.

`wrappers.dfy` holds the `Option` type.

## Model

| member | source | states |
|---|---|---|
| QuaternionMath.LengthSquared | src/main/java/org/spout/api/math/QuaternionMath.java:43-45 | the sum of the four squares is never negative |
| QuaternionMath.LengthSquaredZero | src/main/java/org/spout/api/math/QuaternionMath.java:43-45 | the length squared is 0 exactly for the all-zero quaternion and positive for every other one |
| QuaternionMath.Length | src/main/java/org/spout/api/math/QuaternionMath.java:53-55 | the square root parameter applied to the length squared; LengthOfProduct and NormalizeIsUnit state what it satisfies |
| QuaternionMath.LengthOfProduct | src/main/java/org/spout/api/math/QuaternionMath.java:53-55 | with sqrt returning the non-negative root, the length of a product is the product of the lengths |
| QuaternionMath.Normalize | src/main/java/org/spout/api/math/QuaternionMath.java:63-66 | there is a result exactly when the length is non-zero, and scaling the result by the length gives back the input |
| QuaternionMath.NormalizeIsUnit | src/main/java/org/spout/api/math/QuaternionMath.java:57-66 | a non-zero quaternion normalises to one of length squared 1 |
| QuaternionMath.NormalizeKeepsUnit | src/main/java/org/spout/api/math/QuaternionMath.java:63-66 | with sqrt giving the non-negative root of 1, normalising a unit quaternion returns it unchanged |
| QuaternionMath.Multiply | src/main/java/org/spout/api/math/QuaternionMath.java:74-84 | the four component formulas of the Hamilton product; MultiplyScalarVectorForm, MultiplyAssociative, LengthSquaredMultiply and the lemmas below state what they satisfy |
| QuaternionMath.MultiplyScalarVectorForm | src/main/java/org/spout/api/math/QuaternionMath.java:74-84 | the four component formulas equal the textbook Hamilton product (st - u.v, s v + t u + u x v), built from the vector operations |
| QuaternionMath.MultiplyIdentity | src/main/java/org/spout/api/math/QuaternionMath.java:74-84 | (0, 0, 0, 1) is a left and a right unit of the product |
| QuaternionMath.MultiplyAssociative | src/main/java/org/spout/api/math/QuaternionMath.java:74-84 | the product is associative |
| QuaternionMath.MultiplyNotCommutative | src/main/java/org/spout/api/math/QuaternionMath.java:74-84 | i j = k while j i = -k, so the order of the operands matters |
| QuaternionMath.LengthSquaredMultiply | src/main/java/org/spout/api/math/QuaternionMath.java:74-84 | the length squared of a product is the product of the lengths squared (four-square identity) |
| QuaternionMath.MultiplyUnitClosed | src/main/java/org/spout/api/math/QuaternionMath.java:75-83 | a product of unit quaternions is a unit quaternion, which is why the result is flagged as normalised |
| QuaternionMath.Rotation | src/main/java/org/spout/api/math/QuaternionMath.java:93-98 | the product yaw * pitch * roll of the axis-angle rotations about Y, X and Z, bracketed as (yaw * pitch) * roll |
| QuaternionMath.RotationIsSuccessiveRotates | src/main/java/org/spout/api/math/QuaternionMath.java:93-98 | rotation(pitch, yaw, roll) is the roll about Z, rotated by pitch about X and then by yaw about Y |
| QuaternionMath.RotationOfZeroAngles | src/main/java/org/spout/api/math/QuaternionMath.java:93-98 | zero angles give the identity when zero-degree axis rotations are the identity |
| QuaternionMath.RotationOfYawOnly | src/main/java/org/spout/api/math/QuaternionMath.java:93-98 | with zero pitch and roll the result is the yaw rotation about Y alone |
| QuaternionMath.RotationIsUnit | src/main/java/org/spout/api/math/QuaternionMath.java:93-98 | unit axis-angle rotations compose to a unit quaternion |
| QuaternionMath.Rotate | src/main/java/org/spout/api/math/QuaternionMath.java:108-110 | the length squared of the result is that of the axis-angle rotation times that of the input |
| QuaternionMath.RotateTwice | src/main/java/org/spout/api/math/QuaternionMath.java:108-110 | two rotates compose on the left: the later rotation is the outer factor |
| QuaternionMath.RotateKeepsUnit | src/main/java/org/spout/api/math/QuaternionMath.java:108-110 | rotating a unit quaternion by a unit rotation keeps it unit |
| QuaternionMath.RotateXyz | src/main/java/org/spout/api/math/QuaternionMath.java:122-124 | the length squared of the result is that of the axis-angle rotation times that of the input |
| QuaternionMath.RotateXyzAgrees | src/main/java/org/spout/api/math/QuaternionMath.java:122-124 | the component overload equals the vector overload when both constructors build the same rotation |
| QuaternionMath.RotationTo | src/main/java/org/spout/api/math/QuaternionMath.java:132-135 | equal vectors give the identity quaternion |
| QuaternionMath.WrapYaw | src/main/java/org/spout/api/math/QuaternionMath.java:177-182 | the result differs from the input by at most one turn, maps any yaw in [-540, 540] into [-180, 180], and leaves [-180, 180] unchanged |
| QuaternionMath.EulerRadians | src/main/java/org/spout/api/math/QuaternionMath.java:154-171 | roll, pitch and yaw in radians: the atan2/asin formulas when abs(w x - y z) is below 0.4999, and otherwise a zero roll, a pitch of sign * pi/2 and a yaw of -sign * 2 atan2(z, w) |
| QuaternionMath.ToDegrees | src/main/java/org/spout/api/math/QuaternionMath.java:174-183 | each angle through toDegrees, the yaw through WrapYaw, returned in the order (pitch, yaw, roll) |
| QuaternionMath.AxisAngles | src/main/java/org/spout/api/math/QuaternionMath.java:152-184 | getAxisAngles as EulerRadians followed by ToDegrees; AxisAnglesAtPole, AxisAnglesInRange and AxisAnglesOfIdentity state what it satisfies |
| QuaternionMath.AxisAnglesAtPole | src/main/java/org/spout/api/math/QuaternionMath.java:160-176 | when abs(w x - y z) is at least 0.4999 the roll is 0 and the pitch is -90 or +90 by the sign of the test |
| QuaternionMath.EulerRadiansInRange | src/main/java/org/spout/api/math/QuaternionMath.java:160-171 | in both branches roll is within [-pi, pi], pitch within [-pi/2, pi/2] and the raw yaw within [-2 pi, 2 pi] |
| QuaternionMath.DegreesInRange | src/main/java/org/spout/api/math/QuaternionMath.java:174-183 | radians in those ranges convert to pitch in [-90, 90], yaw in [-180, 180] after the wrap, and roll in [-180, 180] |
| QuaternionMath.AxisAnglesInRange | src/main/java/org/spout/api/math/QuaternionMath.java:152-184 | every result has pitch in [-90, 90], yaw in [-180, 180] and roll in [-180, 180] |
| QuaternionMath.AxisAnglesOfIdentity | src/main/java/org/spout/api/math/QuaternionMath.java:152-184 | the identity quaternion gives three zero angles |
| CommonsMath.Vector3.constructor | src/main/java/org/getspout/commons/math/Vector3.java:10-14 | the new vector holds the three given components |
| CommonsMath.Vector3.GetX | src/main/java/org/getspout/commons/math/Vector3.java:16-18 | the x component currently held |
| CommonsMath.Vector3.GetY | src/main/java/org/getspout/commons/math/Vector3.java:24-26 | the y component currently held |
| CommonsMath.Vector3.GetZ | src/main/java/org/getspout/commons/math/Vector3.java:32-34 | the z component currently held |
| CommonsMath.Vector3.SetX | src/main/java/org/getspout/commons/math/Vector3.java:20-22 | x becomes the argument; y and z keep their old values |
| CommonsMath.Vector3.SetY | src/main/java/org/getspout/commons/math/Vector3.java:28-30 | y becomes the argument; x and z keep their old values |
| CommonsMath.Vector3.SetZ | src/main/java/org/getspout/commons/math/Vector3.java:36-38 | z becomes the argument; x and y keep their old values |
| CommonsMath.Vector3.Add | src/main/java/org/getspout/commons/math/Vector3.java:40-42 | a fresh vector holding the componentwise sum, with this as the left operand |
| CommonsMath.Vector3.Subtract | src/main/java/org/getspout/commons/math/Vector3.java:44-46 | a fresh vector holding this minus that, componentwise |
| CommonsMath.Vector3.Dot | src/main/java/org/getspout/commons/math/Vector3.java:48-50 | the dot product as written, with this as the left operand |
| CommonsMath.Vector3.Cross | src/main/java/org/getspout/commons/math/Vector3.java:51-53 | a fresh vector holding this cross that |
| CommonsMath.StaticSubtract | src/main/java/org/getspout/commons/math/Vector3.java:56-58 | a fresh vector holding the componentwise difference; the arguments are not modified |
| CommonsMath.StaticAdd | src/main/java/org/getspout/commons/math/Vector3.java:60-62 | a fresh vector holding the componentwise sum; the arguments are not modified |
| CommonsMath.StaticDot | src/main/java/org/getspout/commons/math/Vector3.java:64-66 | the value is a.x b.x + a.y b.y + a.z + b.z, as written |
| CommonsMath.StaticCross | src/main/java/org/getspout/commons/math/Vector3.java:68-70 | a fresh vector holding the right-handed cross product; the arguments are not modified |
| CommonsMath.SetterAndArithmeticClient | src/main/java/org/getspout/commons/math/Vector3.java:20-62 | a setter leaves the other vector alone, and changing a result of add does not change its operands |
| CommonsMath.SumCommutes | src/main/java/org/getspout/commons/math/Vector3.java:60-62 | add is commutative |
| CommonsMath.DifferenceUndoesSum | src/main/java/org/getspout/commons/math/Vector3.java:56-62 | subtracting b after adding b gives back a, and adding after subtracting too |
| CommonsMath.CrossAnticommutes | src/main/java/org/getspout/commons/math/Vector3.java:68-70 | cross(a, b) is the negation of cross(b, a) |
| CommonsMath.CrossSelfIsZero | src/main/java/org/getspout/commons/math/Vector3.java:68-70 | cross(a, a) is the zero vector |
| CommonsMath.CrossRightHanded | src/main/java/org/getspout/commons/math/Vector3.java:69 | cross((1,0,0), (0,1,0)) = (0,0,1) |
| CommonsMath.CrossOrthogonal | src/main/java/org/getspout/commons/math/Vector3.java:68-70 | under the standard inner product the cross product is orthogonal to both operands |
| CommonsMath.DotAsWrittenSymmetric | src/main/java/org/getspout/commons/math/Vector3.java:64-66 | dot as written is symmetric in its operands |
| CommonsMath.DotAsWrittenVersusInnerProduct | src/main/java/org/getspout/commons/math/Vector3.java:64-66 | dot as written minus the inner product is a.z + b.z - a.z b.z, so they agree exactly when that is 0 |
| CommonsMath.DotAsWrittenNotBilinear | src/main/java/org/getspout/commons/math/Vector3.java:64-66 | dot((0,0,1), (0,0,0)) = 1, where the inner product gives 0, and dot is not additive in its second operand |
| CommonsMath.DotAsWrittenBreaksOrthogonality | src/main/java/org/getspout/commons/math/Vector3.java:64-70 | dot((1,0,0), cross((1,0,0), (0,1,0))) = 1, not 0 |
| CommonsMath.InnerProductBilinear | src/main/java/org/getspout/commons/math/Vector3.java:64-66 | the corrected dot product is symmetric, additive and homogeneous in its second operand |
| Gui.Id | src/main/java/org/spout/api/gui/ScrollBarPolicy.java:38-59 | the id is 0, 1 or 2, and it is the constant's position in values() |
| Gui.IdInjective | src/main/java/org/spout/api/gui/ScrollBarPolicy.java:38-48 | distinct constants have distinct ids |
| Gui.ValuesListEveryConstantOnce | src/main/java/org/spout/api/gui/ScrollBarPolicy.java:38-48 | the constant `Values`, which stands for values() as used on line 66, lists every constant in declaration order, each exactly once |
| Gui.IdsOf | src/main/java/org/spout/api/gui/ScrollBarPolicy.java:65-69 | the table after putting each constant of a sequence under its id, in order, a later put replacing an earlier one |
| Gui.IdsOfKeys | src/main/java/org/spout/api/gui/ScrollBarPolicy.java:65-69 | after the puts, the keys of the table are the ids of the constants put |
| Gui.IdsOfFindsEach | src/main/java/org/spout/api/gui/ScrollBarPolicy.java:65-69 | every constant put is found under its own id |
| Gui.FillNeverOverwrites | src/main/java/org/spout/api/gui/ScrollBarPolicy.java:65-69 | when the loop puts the k-th constant, its id is not yet a key, so no entry is overwritten |
| Gui.FillIds | src/main/java/org/spout/api/gui/ScrollBarPolicy.java:65-69 | the loop builds exactly the table with keys {0, 1, 2}, mapping each constant's id to that constant |
| Gui.GetById | src/main/java/org/spout/api/gui/ScrollBarPolicy.java:61-63 | there is a result exactly for ids 0 to 2, and the result has the id looked up |
| Gui.GetByIdRoundTrip | src/main/java/org/spout/api/gui/ScrollBarPolicy.java:61-69 | looking up the id of any constant gives that constant back |

## Left out

- Floating point is not modelled: no IEEE-754 rounding, no NaN or infinity, and no `(float)` or `(double)` casts. Every float and double is an exact real.
- Normalize: a zero length is `None`. Java would instead return a quaternion of NaN or infinite components.
- Math.sqrt, Math.atan2, Math.asin, Math.acos and Math.toDegrees are function-valued parameters with no body, and TrigMath.HALF_PI is a real parameter with no fixed value.
  - A lemma that needs a property of one of them states it in its `requires` as a named predicate. The properties are:
    - sqrt gives the non-negative root at the points used;
    - atan2 lies within [-pi, pi];
    - asin maps [-1, 1] into [-pi/2, pi/2];
    - pi/2 is positive;
    - toDegrees is monotone and exact at 0 and at plus or minus pi/2, pi and 2 pi;
    - atan2(0, 1), asin(0) and toDegrees(0) are exactly 0.
  - The same holds for the axis-angle constructors `axisAngle` and `axisAngleXyz`. Depending on the lemma, it assumes that:
    - a zero angle about an axis gives the identity;
    - the rotation built is a unit quaternion;
    - the two overloads build the same quaternion for the same angle and axis.
- The round trip from `rotation(pitch, yaw, roll)` back through `getAxisAngles` is not stated. It depends on what the axis-angle constructor, atan2 and asin compute, and all three are parameters here.
- The unseen `org.spout.api.math.Quaternion` class is represented as follows:
  - its axis-angle constructors are the parameters `axisAngle` and `axisAngleXyz`;
  - `Quaternion.IDENTITY` is taken to be (0, 0, 0, 1);
  - its instance `multiply`, used by rotation, is taken to be the static multiply;
  - the `normalized` flag the constructors take is not represented. MultiplyUnitClosed is the property that justifies it.
- The unseen `org.spout.api.math.Vector3` and its `UNIT_X`, `UNIT_Y`, `UNIT_Z` constants are represented by the value type `Vec3` and the unit vectors along the axes.
- QuaternionMath.RotationTo: only the equal-vectors short-circuit is modelled. Reference equality and `equals` are both value equality. The acos/cross-product construction for unequal vectors is the parameter `general`, because it relies on acos and on the unseen `normalize`.
- QuaternionMath.WrapYaw: the source comment promises an open interval (-180, 180), but the code keeps exactly 180 and -180. The model follows the code, and its range is closed.
- toQuaternionf and toQuaternion are not modelled. They only copy the four components to or from the foreign `javax.vecmath.Quat4f` type.
- `LongGrass` is not part of this model. It holds only constant getters and a constructor delegating to an unseen superclass.
- Gui.GetById: reads the table as the value `IdsOf(values())`, the value that `FillIds` is proved to build. JVM class initialisation is not modelled, and neither is the `HashMap` as a shared mutable static field, nor boxing of `Integer` keys.

## Findings

| source | as written | input that shows it | evidently intended | confidence | as-written member | corrected member |
|---|---|---|---|---|---|---|
| src/main/java/org/getspout/commons/math/Vector3.java:65 | `dot` returns `a.x*b.x + a.y*b.y + a.z + b.z`, adding the z components | dot((0,0,1), (0,0,0)) = 1; dot((1,0,0), cross((1,0,0), (0,1,0))) = 1 | the inner product `a.x*b.x + a.y*b.y + a.z*b.z`, which is bilinear and makes the cross product orthogonal to its operands | high; not executed | CommonsMath.DotAsWrittenNotBilinear | CommonsMath.InnerProductBilinear |
