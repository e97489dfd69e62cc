/**
 The three-component vector of the commons math package: a class with three
 mutable fields, setters that each change one field, and static and instance
 forms of add, subtract, dot and cross that build new vectors.

 Doubles are modelled as exact reals. The arithmetic is stated once on the
 value type `Vec3`; the class methods are tied to it by their contracts.
 */
module CommonsMath {

  /** The value held by a vector: its three components. */
  datatype Vec3 = Vec3(x: real, y: real, z: real)

  const Zero := Vec3(0.0, 0.0, 0.0)

  /** Componentwise sum. */
  function Sum(a: Vec3, b: Vec3): Vec3 {
    Vec3(a.x + b.x, a.y + b.y, a.z + b.z)
  }

  /** Componentwise difference. */
  function Difference(a: Vec3, b: Vec3): Vec3 {
    Vec3(a.x - b.x, a.y - b.y, a.z - b.z)
  }

  /** The dot product exactly as the source computes it: the z components are added, not multiplied. */
  function DotAsWritten(a: Vec3, b: Vec3): real {
    a.x * b.x + a.y * b.y + a.z + b.z
  }

  /** The standard (Euclidean) inner product, which the dot product evidently means. */
  function InnerProduct(a: Vec3, b: Vec3): real {
    a.x * b.x + a.y * b.y + a.z * b.z
  }

  /** Right-handed cross product. */
  function CrossProduct(a: Vec3, b: Vec3): Vec3 {
    Vec3(a.y * b.z - a.z * b.y, a.z * b.x - a.x * b.z, a.x * b.y - a.y * b.x)
  }

  function Scale(k: real, a: Vec3): Vec3 {
    Vec3(k * a.x, k * a.y, k * a.z)
  }

  function Negate(a: Vec3): Vec3 {
    Vec3(-a.x, -a.y, -a.z)
  }

  // ---------------------------------------------------------------------
  // Properties of the value operations
  // ---------------------------------------------------------------------

  lemma SumCommutes(a: Vec3, b: Vec3)
    ensures Sum(a, b) == Sum(b, a)
  {
  }

  /** Subtracting what was added gives back the original vector. */
  lemma DifferenceUndoesSum(a: Vec3, b: Vec3)
    ensures Difference(Sum(a, b), b) == a
    ensures Sum(Difference(a, b), b) == a
  {
  }

  lemma CrossAnticommutes(a: Vec3, b: Vec3)
    ensures CrossProduct(a, b) == Negate(CrossProduct(b, a))
  {
  }

  lemma CrossSelfIsZero(a: Vec3)
    ensures CrossProduct(a, a) == Zero
  {
  }

  /** x cross y is z: the right-handed convention. */
  lemma CrossRightHanded()
    ensures CrossProduct(Vec3(1.0, 0.0, 0.0), Vec3(0.0, 1.0, 0.0)) == Vec3(0.0, 0.0, 1.0)
  {
    var c := CrossProduct(Vec3(1.0, 0.0, 0.0), Vec3(0.0, 1.0, 0.0));
    assert c.x == 0.0;
    assert c.y == 0.0;
    assert c.z == 1.0;
  }

  /** Under the standard inner product the cross product is orthogonal to both operands. */
  lemma CrossOrthogonal(a: Vec3, b: Vec3)
    ensures InnerProduct(a, CrossProduct(a, b)) == 0.0
    ensures InnerProduct(b, CrossProduct(a, b)) == 0.0
  {
    var c := CrossProduct(a, b);
    assert a.x * c.x == a.x * a.y * b.z - a.x * a.z * b.y;
    assert a.y * c.y == a.y * a.z * b.x - a.y * a.x * b.z;
    assert a.z * c.z == a.z * a.x * b.y - a.z * a.y * b.x;
    assert b.x * c.x == b.x * a.y * b.z - b.x * a.z * b.y;
    assert b.y * c.y == b.y * a.z * b.x - b.y * a.x * b.z;
    assert b.z * c.z == b.z * a.x * b.y - b.z * a.y * b.x;
  }

  /** The standard inner product is symmetric and linear in its second operand. */
  lemma InnerProductBilinear(a: Vec3, b: Vec3, c: Vec3, k: real)
    ensures InnerProduct(a, b) == InnerProduct(b, a)
    ensures InnerProduct(a, Sum(b, c)) == InnerProduct(a, b) + InnerProduct(a, c)
    ensures InnerProduct(a, Scale(k, b)) == k * InnerProduct(a, b)
  {
    assert a.x * (k * b.x) == k * (a.x * b.x);
    assert a.y * (k * b.y) == k * (a.y * b.y);
    assert a.z * (k * b.z) == k * (a.z * b.z);
  }

  /** The dot product as written is still symmetric in its operands. */
  lemma DotAsWrittenSymmetric(a: Vec3, b: Vec3)
    ensures DotAsWritten(a, b) == DotAsWritten(b, a)
  {
  }

  /**
   The dot product as written agrees with the inner product exactly when
   the sum of the z components equals their product.
   */
  lemma DotAsWrittenVersusInnerProduct(a: Vec3, b: Vec3)
    ensures DotAsWritten(a, b) - InnerProduct(a, b) == a.z + b.z - a.z * b.z
    ensures DotAsWritten(a, b) == InnerProduct(a, b) <==> a.z + b.z == a.z * b.z
  {
  }

  /**
   The dot product as written is not bilinear: dotting with the zero vector
   gives 1 for (0,0,1), and it differs from the inner product there.
   */
  lemma DotAsWrittenNotBilinear()
    ensures DotAsWritten(Vec3(0.0, 0.0, 1.0), Zero) == 1.0
    ensures InnerProduct(Vec3(0.0, 0.0, 1.0), Zero) == 0.0
    ensures DotAsWritten(Vec3(0.0, 0.0, 1.0), Sum(Zero, Zero))
         != DotAsWritten(Vec3(0.0, 0.0, 1.0), Zero) + DotAsWritten(Vec3(0.0, 0.0, 1.0), Zero)
  {
    var k := Vec3(0.0, 0.0, 1.0);
    assert DotAsWritten(k, Zero) == 1.0;
    assert InnerProduct(k, Zero) == 0.0;
    assert Sum(Zero, Zero) == Zero;
  }

  /** Even the cross product is not orthogonal to its operands under the dot product as written. */
  lemma DotAsWrittenBreaksOrthogonality()
    ensures DotAsWritten(Vec3(1.0, 0.0, 0.0), CrossProduct(Vec3(1.0, 0.0, 0.0), Vec3(0.0, 1.0, 0.0))) == 1.0
  {
    var i, k := Vec3(1.0, 0.0, 0.0), Vec3(0.0, 0.0, 1.0);
    assert DotAsWritten(i, k) == 1.0;
    CrossRightHanded();
  }

  // ---------------------------------------------------------------------
  // The mutable class
  // ---------------------------------------------------------------------

  class Vector3 {
    var x: real
    var y: real
    var z: real

    constructor (x: real, y: real, z: real)
      ensures Value() == Vec3(x, y, z)
    {
      this.x := x;
      this.y := y;
      this.z := z;
    }

    /** The components currently held. */
    function Value(): Vec3
      reads this
    {
      Vec3(x, y, z)
    }

    function GetX(): real
      reads this
    {
      x
    }

    function GetY(): real
      reads this
    {
      y
    }

    function GetZ(): real
      reads this
    {
      z
    }

    method SetX(x: real)
      modifies this
      ensures Value() == old(Value()).(x := x)
    {
      this.x := x;
    }

    method SetY(y: real)
      modifies this
      ensures Value() == old(Value()).(y := y)
    {
      this.y := y;
    }

    method SetZ(z: real)
      modifies this
      ensures Value() == old(Value()).(z := z)
    {
      this.z := z;
    }

    /** `this + that`, the static form with this as the left operand. */
    method Add(that: Vector3) returns (r: Vector3)
      ensures fresh(r)
      ensures r.Value() == Sum(Value(), that.Value())
    {
      r := StaticAdd(this, that);
    }

    /** `this - that`, the static form with this as the left operand. */
    method Subtract(that: Vector3) returns (r: Vector3)
      ensures fresh(r)
      ensures r.Value() == Difference(Value(), that.Value())
    {
      r := StaticSubtract(this, that);
    }

    /** `this . that` as written, the static form with this as the left operand. */
    function Dot(that: Vector3): (r: real)
      reads this, that
      ensures r == DotAsWritten(Value(), that.Value())
    {
      StaticDot(this, that)
    }

    /** `this x that`, the static form with this as the left operand. */
    method Cross(that: Vector3) returns (r: Vector3)
      ensures fresh(r)
      ensures r.Value() == CrossProduct(Value(), that.Value())
    {
      r := StaticCross(this, that);
    }
  }

  // ---------------------------------------------------------------------
  // The static forms. Java overloads add, subtract, dot and cross by
  // arity; here the two-argument forms carry a Static prefix instead.
  // ---------------------------------------------------------------------

  method StaticSubtract(a: Vector3, b: Vector3) returns (r: Vector3)
    ensures fresh(r)
    ensures r.Value() == Difference(a.Value(), b.Value())
  {
    r := new Vector3(a.GetX() - b.GetX(), a.GetY() - b.GetY(), a.GetZ() - b.GetZ());
  }

  method StaticAdd(a: Vector3, b: Vector3) returns (r: Vector3)
    ensures fresh(r)
    ensures r.Value() == Sum(a.Value(), b.Value())
  {
    r := new Vector3(a.GetX() + b.GetX(), a.GetY() + b.GetY(), a.GetZ() + b.GetZ());
  }

  function StaticDot(a: Vector3, b: Vector3): (r: real)
    reads a, b
    ensures r == DotAsWritten(a.Value(), b.Value())
  {
    a.GetX() * b.GetX() + a.GetY() * b.GetY() + a.GetZ() + b.GetZ()
  }

  method StaticCross(a: Vector3, b: Vector3) returns (r: Vector3)
    ensures fresh(r)
    ensures r.Value() == CrossProduct(a.Value(), b.Value())
  {
    r := new Vector3(a.GetY() * b.GetZ() - a.GetZ() * b.GetY(),
                     a.GetZ() * b.GetX() - a.GetX() * b.GetZ(),
                     a.GetX() * b.GetY() - a.GetY() * b.GetX());
  }

  /**
   A client: setting one component leaves the others alone, the static
   methods leave their arguments as they were, and the result is a new
   object, so changing it does not affect the arguments.
   */
  method SetterAndArithmeticClient(a: Vector3, b: Vector3)
    requires a != b
    modifies a
    ensures a.Value() == Vec3(old(a.x), 5.0, old(a.z))
    ensures b.Value() == old(b.Value())
  {
    a.SetY(5.0);
    var s := StaticAdd(a, b);
    assert s.Value() == Sum(a.Value(), b.Value());
    s.SetX(0.0);
    assert a.Value() == Vec3(old(a.x), 5.0, old(a.z));
    var d := StaticSubtract(s, b);
    assert d.Value().y == 5.0;
  }
}
