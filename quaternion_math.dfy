/**
 The stateless quaternion library of the engine's math package: length,
 normalisation, the Hamilton product, rotations built from axis-angle
 quaternions, the identity short-circuit of rotationTo, and the conversion
 of a quaternion to pitch, yaw and roll in degrees.

 Floats and doubles are exact reals here. The library calls that cannot be
 reasoned about over the reals are parameters of the functions that use
 them: the square root, atan2, asin, toDegrees, the constant pi/2, and the
 quaternion constructors that build a rotation from an angle and an axis.
 The properties assumed of each are stated as predicates next to it.
 */
module QuaternionMath {
  import opened Wrappers
  import V = CommonsMath

  /** A quaternion x i + y j + z k + w. */
  datatype Quat = Quat(x: real, y: real, z: real, w: real)

  /** The identity rotation, Quaternion.IDENTITY. */
  const Identity := Quat(0.0, 0.0, 0.0, 1.0)

  const ZeroQuat := Quat(0.0, 0.0, 0.0, 0.0)

  const UnitX := V.Vec3(1.0, 0.0, 0.0)
  const UnitY := V.Vec3(0.0, 1.0, 0.0)
  const UnitZ := V.Vec3(0.0, 0.0, 1.0)

  /** The quaternion constructor that builds a rotation of `angle` degrees about an axis. */
  type AxisAngle = (real, V.Vec3) -> Quat

  /** The constructor overload that takes the axis as three components. */
  type AxisAngleXyz = (real, real, real, real) -> Quat

  function Scale(k: real, q: Quat): Quat {
    Quat(k * q.x, k * q.y, k * q.z, k * q.w)
  }

  function VectorPart(q: Quat): V.Vec3 {
    V.Vec3(q.x, q.y, q.z)
  }

  function FromParts(scalar: real, vector: V.Vec3): Quat {
    Quat(vector.x, vector.y, vector.z, scalar)
  }

  // ---------------------------------------------------------------------
  // Length and normalisation
  // ---------------------------------------------------------------------

  /** The sum of the squares of the four components. */
  function LengthSquared(a: Quat): (r: real)
    ensures r >= 0.0
  {
    a.x * a.x + a.y * a.y + a.z * a.z + a.w * a.w
  }

  /**
   A product of two positive reals. The product is returned as an
   out-parameter so that callers reason linearly about a plain name: the
   solver does not derive the sign of a product that appears inside a
   larger sum.
   */
  lemma MulPositive(p: real, q: real) returns (m: real)
    requires p > 0.0 && q > 0.0
    ensures m == p * q
    ensures m > 0.0
  {
    m := p * q;
  }

  /** The square of a real, which is positive unless the real is zero; returned for the same reason as in MulPositive. */
  lemma Square(r: real) returns (s: real)
    ensures s == r * r
    ensures s >= 0.0
    ensures r != 0.0 ==> s > 0.0
  {
    s := r * r;
    if r < 0.0 {
      var m := MulPositive(-r, -r);
    } else if r > 0.0 {
      var m := MulPositive(r, r);
    }
  }

  /** The length squared is zero exactly for the zero quaternion and positive otherwise. */
  lemma LengthSquaredZero(a: Quat)
    ensures LengthSquared(a) > 0.0 <==> a != ZeroQuat
    ensures LengthSquared(a) == 0.0 <==> a == ZeroQuat
  {
    var sx := Square(a.x);
    var sy := Square(a.y);
    var sz := Square(a.z);
    var sw := Square(a.w);
    assert LengthSquared(a) == sx + sy + sz + sw;
    if a != ZeroQuat {
      assert a.x != 0.0 || a.y != 0.0 || a.z != 0.0 || a.w != 0.0;
    }
  }

  predicate IsUnit(a: Quat) {
    LengthSquared(a) == 1.0
  }

  /** `sqrt` returns the non-negative square root of `v`. */
  predicate IsSqrtAt(sqrt: real -> real, v: real) {
    sqrt(v) >= 0.0 && sqrt(v) * sqrt(v) == v
  }

  /** The length, as the square root of the length squared. */
  function Length(a: Quat, sqrt: real -> real): real {
    sqrt(LengthSquared(a))
  }

  /**
   Divides every component by the length. A zero length makes the Java
   result non-finite (NaN or infinity); that case is `None` here.
   */
  function Normalize(a: Quat, sqrt: real -> real): (r: Option<Quat>)
    ensures r.None? <==> Length(a, sqrt) == 0.0
    ensures r.Some? ==> Scale(Length(a, sqrt), r.value) == a
  {
    var length := Length(a, sqrt);
    if length == 0.0 then None
    else Some(Quat(a.x / length, a.y / length, a.z / length, a.w / length))
  }

  /** A non-zero quaternion normalises to a unit quaternion. */
  lemma NormalizeIsUnit(a: Quat, sqrt: real -> real)
    requires a != ZeroQuat
    requires IsSqrtAt(sqrt, LengthSquared(a))
    ensures Normalize(a, sqrt).Some?
    ensures IsUnit(Normalize(a, sqrt).value)
  {
    var l := Length(a, sqrt);
    LengthSquaredZero(a);
    var s := Square(l);
    assert l != 0.0;
    UnitAfterDivide(a.x, a.y, a.z, a.w, l);
  }

  /** Dividing four reals by the square root of the sum of their squares leaves squares summing to one. */
  lemma UnitAfterDivide(x: real, y: real, z: real, w: real, l: real)
    requires l != 0.0
    requires l * l == x * x + y * y + z * z + w * w
    ensures (x / l) * (x / l) + (y / l) * (y / l) + (z / l) * (z / l) + (w / l) * (w / l) == 1.0
  {
    SquareOfQuotient(x, l);
    SquareOfQuotient(y, l);
    SquareOfQuotient(z, l);
    SquareOfQuotient(w, l);
    var v := (x / l) * (x / l) + (y / l) * (y / l) + (z / l) * (z / l) + (w / l) * (w / l);
    var s := Square(l);
    if v > 1.0 {
      var m := MulPositive(v - 1.0, s);
    } else if v < 1.0 {
      var m := MulPositive(1.0 - v, s);
    }
  }

  lemma SquareOfQuotient(x: real, l: real)
    requires l != 0.0
    ensures (x / l) * (x / l) * (l * l) == x * x
  {
  }

  /** Normalising a quaternion that already has unit length leaves it unchanged. */
  lemma NormalizeKeepsUnit(a: Quat, sqrt: real -> real)
    requires IsUnit(a)
    requires IsSqrtAt(sqrt, 1.0)
    ensures Normalize(a, sqrt) == Some(a)
  {
    NonNegativeSquareRootUnique(sqrt(1.0), 1.0);
  }

  /** The length of a product is the product of the lengths. */
  lemma LengthOfProduct(a: Quat, b: Quat, sqrt: real -> real)
    requires IsSqrtAt(sqrt, LengthSquared(a))
    requires IsSqrtAt(sqrt, LengthSquared(b))
    requires IsSqrtAt(sqrt, LengthSquared(Multiply(a, b)))
    ensures Length(Multiply(a, b), sqrt) == Length(a, sqrt) * Length(b, sqrt)
  {
    var la, lb, lab := Length(a, sqrt), Length(b, sqrt), Length(Multiply(a, b), sqrt);
    LengthSquaredMultiply(a, b);
    assert lab * lab == (la * lb) * (la * lb);
    NonNegativeSquareRootUnique(lab, la * lb);
  }

  /** Two non-negative reals with equal squares are equal. */
  lemma NonNegativeSquareRootUnique(p: real, q: real)
    requires p >= 0.0 && q >= 0.0
    requires p * p == q * q
    ensures p == q
  {
    if p < q {
      var m := MulPositive(q - p, q + p);
    } else if q < p {
      var m := MulPositive(p - q, p + q);
    }
  }

  // ---------------------------------------------------------------------
  // The Hamilton product
  // ---------------------------------------------------------------------

  /** a * b. The Java result is flagged as already normalised. */
  function Multiply(a: Quat, b: Quat): Quat {
    Quat(a.w * b.x + a.x * b.w + a.y * b.z - a.z * b.y,
         a.w * b.y + a.y * b.w + a.z * b.x - a.x * b.z,
         a.w * b.z + a.z * b.w + a.x * b.y - a.y * b.x,
         a.w * b.w - a.x * b.x - a.y * b.y - a.z * b.z)
  }

  /**
   The product agrees with the textbook scalar/vector form of the Hamilton
   product: (s, u)(t, v) = (st - u.v, s v + t u + u x v).
   */
  lemma MultiplyScalarVectorForm(a: Quat, b: Quat)
    ensures Multiply(a, b) ==
      FromParts(a.w * b.w - V.InnerProduct(VectorPart(a), VectorPart(b)),
                V.Sum(V.Sum(V.Scale(a.w, VectorPart(b)), V.Scale(b.w, VectorPart(a))),
                      V.CrossProduct(VectorPart(a), VectorPart(b))))
  {
  }

  lemma MultiplyIdentity(a: Quat)
    ensures Multiply(Identity, a) == a
    ensures Multiply(a, Identity) == a
  {
  }

  /** The product is associative, so successive rotations may be regrouped. */
  lemma MultiplyAssociative(a: Quat, b: Quat, c: Quat)
    ensures Multiply(Multiply(a, b), c) == Multiply(a, Multiply(b, c))
  {
    var ab, bc := Multiply(a, b), Multiply(b, c);
    MultiplyComponents(a, b);
    MultiplyComponents(b, c);
    MultiplyComponents(ab, c);
    MultiplyComponents(a, bc);
    AssociativeComponents(a.x, a.y, a.z, a.w, b.x, b.y, b.z, b.w, c.x, c.y, c.z, c.w,
                          ab.x, ab.y, ab.z, ab.w, bc.x, bc.y, bc.z, bc.w);
  }

  /** The four components of a product, as separate facts about plain reals. */
  lemma MultiplyComponents(p: Quat, q: Quat)
    ensures Multiply(p, q).x == p.w * q.x + p.x * q.w + p.y * q.z - p.z * q.y
    ensures Multiply(p, q).y == p.w * q.y + p.y * q.w + p.z * q.x - p.x * q.z
    ensures Multiply(p, q).z == p.w * q.z + p.z * q.w + p.x * q.y - p.y * q.x
    ensures Multiply(p, q).w == p.w * q.w - p.x * q.x - p.y * q.y - p.z * q.z
  {
  }

  /** The polynomial identities behind associativity, over twelve plain reals. */
  lemma AssocReals(x1: real, y1: real, z1: real, w1: real, x2: real, y2: real, z2: real, w2: real,
                   x3: real, y3: real, z3: real, w3: real)
    ensures (w1 * w2 - x1 * x2 - y1 * y2 - z1 * z2) * x3 + (w1 * x2 + x1 * w2 + y1 * z2 - z1 * y2) * w3 + (w1 * y2 + y1 * w2 + z1 * x2 - x1 * z2) * z3 - (w1 * z2 + z1 * w2 + x1 * y2 - y1 * x2) * y3
         == w1 * (w2 * x3 + x2 * w3 + y2 * z3 - z2 * y3) + x1 * (w2 * w3 - x2 * x3 - y2 * y3 - z2 * z3) + y1 * (w2 * z3 + z2 * w3 + x2 * y3 - y2 * x3) - z1 * (w2 * y3 + y2 * w3 + z2 * x3 - x2 * z3)
    ensures (w1 * w2 - x1 * x2 - y1 * y2 - z1 * z2) * y3 + (w1 * y2 + y1 * w2 + z1 * x2 - x1 * z2) * w3 + (w1 * z2 + z1 * w2 + x1 * y2 - y1 * x2) * x3 - (w1 * x2 + x1 * w2 + y1 * z2 - z1 * y2) * z3
         == w1 * (w2 * y3 + y2 * w3 + z2 * x3 - x2 * z3) + y1 * (w2 * w3 - x2 * x3 - y2 * y3 - z2 * z3) + z1 * (w2 * x3 + x2 * w3 + y2 * z3 - z2 * y3) - x1 * (w2 * z3 + z2 * w3 + x2 * y3 - y2 * x3)
    ensures (w1 * w2 - x1 * x2 - y1 * y2 - z1 * z2) * z3 + (w1 * z2 + z1 * w2 + x1 * y2 - y1 * x2) * w3 + (w1 * x2 + x1 * w2 + y1 * z2 - z1 * y2) * y3 - (w1 * y2 + y1 * w2 + z1 * x2 - x1 * z2) * x3
         == w1 * (w2 * z3 + z2 * w3 + x2 * y3 - y2 * x3) + z1 * (w2 * w3 - x2 * x3 - y2 * y3 - z2 * z3) + x1 * (w2 * y3 + y2 * w3 + z2 * x3 - x2 * z3) - y1 * (w2 * x3 + x2 * w3 + y2 * z3 - z2 * y3)
    ensures (w1 * w2 - x1 * x2 - y1 * y2 - z1 * z2) * w3 - (w1 * x2 + x1 * w2 + y1 * z2 - z1 * y2) * x3 - (w1 * y2 + y1 * w2 + z1 * x2 - x1 * z2) * y3 - (w1 * z2 + z1 * w2 + x1 * y2 - y1 * x2) * z3
         == w1 * (w2 * w3 - x2 * x3 - y2 * y3 - z2 * z3) - x1 * (w2 * x3 + x2 * w3 + y2 * z3 - z2 * y3) - y1 * (w2 * y3 + y2 * w3 + z2 * x3 - x2 * z3) - z1 * (w2 * z3 + z2 * w3 + x2 * y3 - y2 * x3)
  {
  }

  /** The components of p = a b and q = b c, combined the two ways the triple product can be bracketed. */
  lemma AssociativeComponents(x1: real, y1: real, z1: real, w1: real,
                              x2: real, y2: real, z2: real, w2: real,
                              x3: real, y3: real, z3: real, w3: real,
                              px: real, py: real, pz: real, pw: real,
                              qx: real, qy: real, qz: real, qw: real)
    requires px == w1 * x2 + x1 * w2 + y1 * z2 - z1 * y2
    requires py == w1 * y2 + y1 * w2 + z1 * x2 - x1 * z2
    requires pz == w1 * z2 + z1 * w2 + x1 * y2 - y1 * x2
    requires pw == w1 * w2 - x1 * x2 - y1 * y2 - z1 * z2
    requires qx == w2 * x3 + x2 * w3 + y2 * z3 - z2 * y3
    requires qy == w2 * y3 + y2 * w3 + z2 * x3 - x2 * z3
    requires qz == w2 * z3 + z2 * w3 + x2 * y3 - y2 * x3
    requires qw == w2 * w3 - x2 * x3 - y2 * y3 - z2 * z3
    ensures pw * x3 + px * w3 + py * z3 - pz * y3 == w1 * qx + x1 * qw + y1 * qz - z1 * qy
    ensures pw * y3 + py * w3 + pz * x3 - px * z3 == w1 * qy + y1 * qw + z1 * qx - x1 * qz
    ensures pw * z3 + pz * w3 + px * y3 - py * x3 == w1 * qz + z1 * qw + x1 * qy - y1 * qx
    ensures pw * w3 - px * x3 - py * y3 - pz * z3 == w1 * qw - x1 * qx - y1 * qy - z1 * qz
  {
    AssocReals(x1, y1, z1, w1, x2, y2, z2, w2, x3, y3, z3, w3);
  }

  /** The product is not commutative: i j = k but j i = -k. */
  lemma MultiplyNotCommutative()
    ensures Multiply(Quat(1.0, 0.0, 0.0, 0.0), Quat(0.0, 1.0, 0.0, 0.0)) == Quat(0.0, 0.0, 1.0, 0.0)
    ensures Multiply(Quat(0.0, 1.0, 0.0, 0.0), Quat(1.0, 0.0, 0.0, 0.0)) == Quat(0.0, 0.0, -1.0, 0.0)
  {
    var i, j := Quat(1.0, 0.0, 0.0, 0.0), Quat(0.0, 1.0, 0.0, 0.0);
    var ij, ji := Multiply(i, j), Multiply(j, i);
    assert ij.x == 0.0 && ij.y == 0.0 && ij.w == 0.0;
    assert ij.z == 1.0;
    assert ji.x == 0.0 && ji.y == 0.0 && ji.w == 0.0;
    assert ji.z == -1.0;
  }

  /** The length squared is multiplicative (Euler's four-square identity). */
  lemma LengthSquaredMultiply(a: Quat, b: Quat)
    ensures LengthSquared(Multiply(a, b)) == LengthSquared(a) * LengthSquared(b)
  {
    var ab := Multiply(a, b);
    MultiplyComponents(a, b);
    FourSquares(a.x, a.y, a.z, a.w, b.x, b.y, b.z, b.w, ab.x, ab.y, ab.z, ab.w);
  }

  /**
   Euler's four-square identity over plain reals: the components p of the
   product of (x1, y1, z1, w1) and (x2, y2, z2, w2) have as sum of squares the
   product of the two sums of squares.
   */
  lemma FourSquares(x1: real, y1: real, z1: real, w1: real, x2: real, y2: real, z2: real, w2: real,
                    px: real, py: real, pz: real, pw: real)
    requires px == w1 * x2 + x1 * w2 + y1 * z2 - z1 * y2
    requires py == w1 * y2 + y1 * w2 + z1 * x2 - x1 * z2
    requires pz == w1 * z2 + z1 * w2 + x1 * y2 - y1 * x2
    requires pw == w1 * w2 - x1 * x2 - y1 * y2 - z1 * z2
    ensures px * px + py * py + pz * pz + pw * pw
         == (x1 * x1 + y1 * y1 + z1 * z1 + w1 * w1) * (x2 * x2 + y2 * y2 + z2 * z2 + w2 * w2)
  {
  }

  /** A product of unit quaternions is a unit quaternion, which justifies the normalised flag. */
  lemma MultiplyUnitClosed(a: Quat, b: Quat)
    requires IsUnit(a) && IsUnit(b)
    ensures IsUnit(Multiply(a, b))
  {
    LengthSquaredMultiply(a, b);
  }

  // ---------------------------------------------------------------------
  // Rotations
  // ---------------------------------------------------------------------

  /** yaw * pitch * roll, about the Y, X and Z axes. */
  function Rotation(pitch: real, yaw: real, roll: real, axisAngle: AxisAngle): Quat {
    var qpitch := axisAngle(pitch, UnitX);
    var qyaw := axisAngle(yaw, UnitY);
    var qroll := axisAngle(roll, UnitZ);
    Multiply(Multiply(qyaw, qpitch), qroll)
  }

  /** Pre-multiplies the rotation of `angle` about `axis` onto `a`. */
  function Rotate(a: Quat, angle: real, axis: V.Vec3, axisAngle: AxisAngle): (r: Quat)
    ensures LengthSquared(r) == LengthSquared(axisAngle(angle, axis)) * LengthSquared(a)
  {
    LengthSquaredMultiply(axisAngle(angle, axis), a);
    Multiply(axisAngle(angle, axis), a)
  }

  /** The constructor builds the identity for a zero angle about `axis`. */
  predicate ZeroAngleIsIdentity(axisAngle: AxisAngle, axis: V.Vec3) {
    axisAngle(0.0, axis) == Identity
  }

  /** The two constructor overloads build the same rotation for these arguments. */
  predicate OverloadsAgree(axisAngle: AxisAngle, axisAngleXyz: AxisAngleXyz, angle: real, x: real, y: real, z: real) {
    axisAngleXyz(angle, x, y, z) == axisAngle(angle, V.Vec3(x, y, z))
  }

  /** The overload taking the axis as three components. */
  function RotateXyz(a: Quat, angle: real, x: real, y: real, z: real, axisAngleXyz: AxisAngleXyz): (r: Quat)
    ensures LengthSquared(r) == LengthSquared(axisAngleXyz(angle, x, y, z)) * LengthSquared(a)
  {
    LengthSquaredMultiply(axisAngleXyz(angle, x, y, z), a);
    Multiply(axisAngleXyz(angle, x, y, z), a)
  }

  /** Both overloads agree whenever the two constructors build the same rotation. */
  lemma RotateXyzAgrees(a: Quat, angle: real, x: real, y: real, z: real,
                        axisAngle: AxisAngle, axisAngleXyz: AxisAngleXyz)
    requires OverloadsAgree(axisAngle, axisAngleXyz, angle, x, y, z)
    ensures RotateXyz(a, angle, x, y, z, axisAngleXyz) == Rotate(a, angle, V.Vec3(x, y, z), axisAngle)
  {
  }

  /** Two successive rotations compose on the left: the later one is applied outermost. */
  lemma RotateTwice(a: Quat, angle1: real, axis1: V.Vec3, angle2: real, axis2: V.Vec3, axisAngle: AxisAngle)
    ensures Rotate(Rotate(a, angle1, axis1, axisAngle), angle2, axis2, axisAngle)
         == Multiply(Multiply(axisAngle(angle2, axis2), axisAngle(angle1, axis1)), a)
  {
    MultiplyAssociative(axisAngle(angle2, axis2), axisAngle(angle1, axis1), a);
  }

  /** Rotating a unit quaternion by a unit rotation gives a unit quaternion. */
  lemma RotateKeepsUnit(a: Quat, angle: real, axis: V.Vec3, axisAngle: AxisAngle)
    requires IsUnit(a) && IsUnit(axisAngle(angle, axis))
    ensures IsUnit(Rotate(a, angle, axis, axisAngle))
  {
  }

  /**
   rotation(pitch, yaw, roll) is roll about Z, then pitch about X, then yaw
   about Y, each step pre-multiplied as rotate does.
   */
  lemma RotationIsSuccessiveRotates(pitch: real, yaw: real, roll: real, axisAngle: AxisAngle)
    ensures Rotation(pitch, yaw, roll, axisAngle)
         == Rotate(Rotate(axisAngle(roll, UnitZ), pitch, UnitX, axisAngle), yaw, UnitY, axisAngle)
  {
    MultiplyAssociative(axisAngle(yaw, UnitY), axisAngle(pitch, UnitX), axisAngle(roll, UnitZ));
  }

  /** With zero-degree rotations being the identity, rotation(0, 0, 0) is the identity. */
  lemma RotationOfZeroAngles(axisAngle: AxisAngle)
    requires ZeroAngleIsIdentity(axisAngle, UnitX)
    requires ZeroAngleIsIdentity(axisAngle, UnitY)
    requires ZeroAngleIsIdentity(axisAngle, UnitZ)
    ensures Rotation(0.0, 0.0, 0.0, axisAngle) == Identity
  {
    MultiplyIdentity(Identity);
  }

  /** With a single non-zero angle, rotation is that one axis-angle rotation. */
  lemma RotationOfYawOnly(yaw: real, axisAngle: AxisAngle)
    requires ZeroAngleIsIdentity(axisAngle, UnitX)
    requires ZeroAngleIsIdentity(axisAngle, UnitZ)
    ensures Rotation(0.0, yaw, 0.0, axisAngle) == axisAngle(yaw, UnitY)
  {
    MultiplyIdentity(axisAngle(yaw, UnitY));
  }

  /** rotation builds a unit quaternion from unit axis-angle rotations. */
  lemma RotationIsUnit(pitch: real, yaw: real, roll: real, axisAngle: AxisAngle)
    requires IsUnit(axisAngle(pitch, UnitX))
    requires IsUnit(axisAngle(yaw, UnitY))
    requires IsUnit(axisAngle(roll, UnitZ))
    ensures IsUnit(Rotation(pitch, yaw, roll, axisAngle))
  {
    MultiplyUnitClosed(axisAngle(yaw, UnitY), axisAngle(pitch, UnitX));
    MultiplyUnitClosed(Multiply(axisAngle(yaw, UnitY), axisAngle(pitch, UnitX)), axisAngle(roll, UnitZ));
  }

  /**
   The rotation taking vector a onto vector b. Equal vectors short-circuit
   to the identity; every other pair is handed to `general`, which stands
   for the acos/cross-product construction.
   */
  function RotationTo(a: V.Vec3, b: V.Vec3, general: (V.Vec3, V.Vec3) -> Quat): (r: Quat)
    ensures a == b ==> r == Identity
  {
    if a == b then Identity else general(a, b)
  }

  // ---------------------------------------------------------------------
  // Axis angles
  // ---------------------------------------------------------------------

  /**
   The library calls the angle extraction uses: Math.atan2, Math.asin,
   TrigMath.HALF_PI and Math.toDegrees.
   */
  datatype Trig = Trig(atan2: (real, real) -> real, asin: real -> real, halfPi: real, toDegrees: real -> real)

  /** atan2 stays within [-pi, pi]. */
  ghost predicate Atan2InRange(t: Trig) {
    forall y: real, x: real :: -2.0 * t.halfPi <= t.atan2(y, x) <= 2.0 * t.halfPi
  }

  /** asin maps [-1, 1] into [-pi/2, pi/2]. */
  ghost predicate AsinInRange(t: Trig) {
    forall v: real :: -1.0 <= v <= 1.0 ==> -t.halfPi <= t.asin(v) <= t.halfPi
  }

  /** pi/2 is positive. */
  predicate PositiveHalfPi(t: Trig) {
    t.halfPi > 0.0
  }

  /** atan2(0, 1), asin(0) and toDegrees(0) are exactly zero. */
  predicate ExactAtZero(t: Trig) {
    t.atan2(0.0, 1.0) == 0.0 && t.asin(0.0) == 0.0 && t.toDegrees(0.0) == 0.0
  }

  /**
   toDegrees is monotone and sends the multiples of pi/2 that bound the
   angles to the matching multiples of 90 degrees.
   */
  ghost predicate DegreesConsistent(t: Trig) {
    && PositiveHalfPi(t)
    && (forall r: real, s: real :: r <= s ==> t.toDegrees(r) <= t.toDegrees(s))
    && t.toDegrees(0.0) == 0.0
    && t.toDegrees(t.halfPi) == 90.0 && t.toDegrees(-t.halfPi) == -90.0
    && t.toDegrees(2.0 * t.halfPi) == 180.0 && t.toDegrees(-2.0 * t.halfPi) == -180.0
    && t.toDegrees(4.0 * t.halfPi) == 360.0 && t.toDegrees(-4.0 * t.halfPi) == -360.0
  }

  function Abs(r: real): real {
    if r < 0.0 then -r else r
  }

  /** The gimbal-pole test value w x - y z. */
  function PoleTest(a: Quat): real {
    a.w * a.x - a.y * a.z
  }

  /** Brings a yaw in degrees back by one turn when it lies outside [-180, 180]. */
  function WrapYaw(yaw: real): (r: real)
    ensures -540.0 <= yaw <= 540.0 ==> -180.0 <= r <= 180.0
    ensures -180.0 <= yaw <= 180.0 ==> r == yaw
    ensures r == yaw || r == yaw - 360.0 || r == yaw + 360.0
  {
    if yaw > 180.0 then yaw - 360.0
    else if yaw < -180.0 then yaw + 360.0
    else yaw
  }

  /** The three Tait-Bryan angles in radians, before conversion to degrees. */
  datatype Radians = Radians(roll: real, pitch: real, yaw: real)

  /**
   The angles in radians: the atan2/asin formulas away from the poles, and
   at a pole (|test| at least 0.4999) a zero roll, a pitch of sign * pi/2
   and a yaw of -sign * 2 atan2(z, w), where sign is the sign of the test.
   */
  function EulerRadians(a: Quat, t: Trig): Radians {
    var q0, q1, q2, q3 := a.w, a.z, a.x, a.y;
    var test := q0 * q2 - q3 * q1;
    if Abs(test) < 0.4999 then
      Radians(t.atan2(2.0 * (q0 * q1 + q2 * q3), 1.0 - 2.0 * (q1 * q1 + q2 * q2)),
              t.asin(2.0 * test),
              t.atan2(2.0 * (q0 * q3 + q1 * q2), 1.0 - 2.0 * (q2 * q2 + q3 * q3)))
    else if test < 0.0 then
      Radians(0.0, -t.halfPi, 2.0 * t.atan2(q1, q0))
    else
      Radians(0.0, t.halfPi, -2.0 * t.atan2(q1, q0))
  }

  /** Converts to degrees, wraps the yaw, and orders the angles as (pitch, yaw, roll). */
  function ToDegrees(r: Radians, t: Trig): V.Vec3 {
    V.Vec3(t.toDegrees(r.pitch), WrapYaw(t.toDegrees(r.yaw)), t.toDegrees(r.roll))
  }

  /** The angles about X (pitch), Y (yaw) and Z (roll), in degrees. */
  function AxisAngles(a: Quat, t: Trig): V.Vec3 {
    ToDegrees(EulerRadians(a, t), t)
  }

  /** At a gimbal pole the roll is forced to zero and the pitch is +90 or -90 degrees by the sign of the test. */
  lemma AxisAnglesAtPole(a: Quat, t: Trig)
    requires Abs(PoleTest(a)) >= 0.4999
    requires DegreesConsistent(t)
    ensures AxisAngles(a, t).z == 0.0
    ensures AxisAngles(a, t).x == if PoleTest(a) < 0.0 then -90.0 else 90.0
  {
  }

  lemma Atan2Bounds(t: Trig, y: real, x: real)
    requires Atan2InRange(t)
    ensures -2.0 * t.halfPi <= t.atan2(y, x) <= 2.0 * t.halfPi
  {
  }

  /** The radians lie in [-pi, pi] for roll, [-pi/2, pi/2] for pitch and [-2 pi, 2 pi] for yaw. */
  lemma EulerRadiansInRange(a: Quat, t: Trig)
    requires Atan2InRange(t) && AsinInRange(t)
    requires PositiveHalfPi(t)
    ensures -2.0 * t.halfPi <= EulerRadians(a, t).roll <= 2.0 * t.halfPi
    ensures -t.halfPi <= EulerRadians(a, t).pitch <= t.halfPi
    ensures -4.0 * t.halfPi <= EulerRadians(a, t).yaw <= 4.0 * t.halfPi
  {
    var q0, q1, q2, q3 := a.w, a.z, a.x, a.y;
    var test := q0 * q2 - q3 * q1;
    if Abs(test) < 0.4999 {
      Atan2Bounds(t, 2.0 * (q0 * q1 + q2 * q3), 1.0 - 2.0 * (q1 * q1 + q2 * q2));
      Atan2Bounds(t, 2.0 * (q0 * q3 + q1 * q2), 1.0 - 2.0 * (q2 * q2 + q3 * q3));
      assert -1.0 <= 2.0 * test <= 1.0;
    } else {
      Atan2Bounds(t, q1, q0);
    }
  }

  /** Monotonicity of toDegrees at two given points. */
  lemma DegreesMonotone(t: Trig, r: real, s: real)
    requires DegreesConsistent(t)
    requires r <= s
    ensures t.toDegrees(r) <= t.toDegrees(s)
  {
  }

  /** Radians within the ranges of EulerRadiansInRange convert to degrees within the documented ranges. */
  lemma DegreesInRange(r: Radians, t: Trig)
    requires DegreesConsistent(t)
    requires -2.0 * t.halfPi <= r.roll <= 2.0 * t.halfPi
    requires -t.halfPi <= r.pitch <= t.halfPi
    requires -4.0 * t.halfPi <= r.yaw <= 4.0 * t.halfPi
    ensures -90.0 <= ToDegrees(r, t).x <= 90.0
    ensures -180.0 <= ToDegrees(r, t).y <= 180.0
    ensures -180.0 <= ToDegrees(r, t).z <= 180.0
  {
    DegreesMonotone(t, -t.halfPi, r.pitch);
    DegreesMonotone(t, r.pitch, t.halfPi);
    DegreesMonotone(t, -2.0 * t.halfPi, r.roll);
    DegreesMonotone(t, r.roll, 2.0 * t.halfPi);
    DegreesMonotone(t, -4.0 * t.halfPi, r.yaw);
    DegreesMonotone(t, r.yaw, 4.0 * t.halfPi);
  }

  /**
   Every angle ends in range: pitch in [-90, 90], yaw in [-180, 180] (the
   wrap covers the doubled pole yaw) and roll in [-180, 180].
   */
  lemma AxisAnglesInRange(a: Quat, t: Trig)
    requires Atan2InRange(t) && AsinInRange(t)
    requires DegreesConsistent(t)
    ensures -90.0 <= AxisAngles(a, t).x <= 90.0
    ensures -180.0 <= AxisAngles(a, t).y <= 180.0
    ensures -180.0 <= AxisAngles(a, t).z <= 180.0
  {
    EulerRadiansInRange(a, t);
    DegreesInRange(EulerRadians(a, t), t);
  }

  /** The identity quaternion has all three angles zero. */
  lemma AxisAnglesOfIdentity(t: Trig)
    requires ExactAtZero(t)
    ensures AxisAngles(Identity, t) == V.Vec3(0.0, 0.0, 0.0)
  {
  }
}
