/**
 * Quantity[T] (quantity.go): a value paired with a unit, and the arithmetic
 * on it.  The Category methods ConvertToBaseUnit / ConvertFromBaseUnit are
 * dispatched on the unit type here: FuelEfficiencyUnit overrides them for
 * the inverse unit "L/100km" (fuel_efficiency.go), every other type uses the
 * BaseUnit conversions.  Go panics are preconditions.
 */
module Quantities {
  import opened Units

  datatype Quantity = Quantity(value: real, unit: Unit)

  /** The one unit whose conversion is an inverse rather than an affine map. */
  predicate IsInverse(u: Unit)
  {
    u.kind == FuelEfficiencyUnit && u.base.symbol == "L/100km"
  }

  /** ConvertToBaseUnit panics on 0 L/100km. */
  predicate CanToBase(u: Unit, value: real)
  {
    IsInverse(u) ==> value != 0.0
  }

  /** ConvertFromBaseUnit panics on 0 km/L for L/100km; a zero coefficient would divide by zero. */
  predicate CanFromBase(u: Unit, value: real)
  {
    if IsInverse(u) then value != 0.0 else u.base.isBase || u.base.coefficient != 0.0
  }

  function ToBase(u: Unit, value: real): (r: real)
    requires CanToBase(u, value)
    ensures IsInverse(u) ==> r * value == 100.0
    ensures !IsInverse(u) ==> r == ConvertToBaseUnit(u.base, value)
  {
    if IsInverse(u) then 100.0 / value else ConvertToBaseUnit(u.base, value)
  }

  function FromBase(u: Unit, value: real): (r: real)
    requires CanFromBase(u, value)
    ensures IsInverse(u) ==> r * value == 100.0
    ensures !IsInverse(u) ==> r == ConvertFromBaseUnit(u.base, value)
  {
    if IsInverse(u) then 100.0 / value else ConvertFromBaseUnit(u.base, value)
  }

  /** Converting to the base unit and back is the identity, for the inverse unit as well. */
  lemma RoundTripThroughBase(u: Unit, value: real)
    requires CanToBase(u, value) && CanFromBase(u, ToBase(u, value))
    ensures FromBase(u, ToBase(u, value)) == value
  {
    if IsInverse(u) {
      var b := ToBase(u, value);
      assert b != 0.0;
      assert FromBase(u, b) * b == value * b;
    } else {
      FromBaseUndoesToBase(u.base, value);
    }
  }

  lemma RoundTripFromBase(u: Unit, value: real)
    requires CanFromBase(u, value)
    ensures CanToBase(u, FromBase(u, value))
    ensures ToBase(u, FromBase(u, value)) == value
  {
    if IsInverse(u) {
      var r := FromBase(u, value);
      assert r != 0.0;
      assert ToBase(u, r) * r == value * r;
    } else {
      ToBaseUndoesFromBase(u.base, value);
    }
  }

  function New(value: real, unit: Unit): (q: Quantity)
    ensures q.value == value && q.unit == unit
  {
    Quantity(value, unit)
  }

  const Epsilon: real := 0.000000001

  function Abs(x: real): real
  {
    if x < 0.0 then -x else x
  }

  /** Both sides must be convertible whenever their dimensions agree. */
  predicate CanCompare(a: Quantity, b: Quantity)
  {
    a.unit.base.dimension == b.unit.base.dimension ==>
      CanToBase(a.unit, a.value) && CanToBase(b.unit, b.value)
  }

  /** Same dimension and base-unit values closer than 1e-9. */
  function Equal(a: Quantity, b: Quantity): (r: bool)
    requires CanCompare(a, b)
    ensures r ==> a.unit.base.dimension == b.unit.base.dimension
    ensures r <==> a.unit.base.dimension == b.unit.base.dimension
                   && -Epsilon < ToBase(a.unit, a.value) - ToBase(b.unit, b.value) < Epsilon
  {
    if a.unit.base.dimension != b.unit.base.dimension then false
    else Abs(ToBase(a.unit, a.value) - ToBase(b.unit, b.value)) < Epsilon
  }

  lemma EqualReflexiveSymmetric(a: Quantity, b: Quantity)
    requires CanToBase(a.unit, a.value) && CanCompare(a, b)
    ensures Equal(a, a)
    ensures Equal(a, b) == Equal(b, a)
  {
  }

  /** What ConvertTo needs: the units are Equal, or they share a dimension and both conversions are defined. */
  predicate CanConvert(q: Quantity, target: Unit)
  {
    Units.Equals(q.unit.base, target.base) ||
    (q.unit.base.dimension == target.base.dimension
     && CanToBase(q.unit, q.value) && CanFromBase(target, ToBase(q.unit, q.value)))
  }

  /**
   * The target unit with the base-unit value unchanged; an Equal unit keeps
   * the number as it is.  Incompatible dimensions panic (excluded).
   */
  function ConvertTo(q: Quantity, target: Unit): (r: Quantity)
    requires CanConvert(q, target)
    ensures r.unit == target
    ensures Units.Equals(q.unit.base, target.base) ==> r.value == q.value
    ensures !Units.Equals(q.unit.base, target.base) ==>
              CanToBase(target, r.value) && ToBase(target, r.value) == ToBase(q.unit, q.value)
  {
    if Units.Equals(q.unit.base, target.base) then Quantity(q.value, target)
    else
      var r := Quantity(FromBase(target, ToBase(q.unit, q.value)), target);
      RoundTripFromBase(target, ToBase(q.unit, q.value));
      r
  }

  /** A converted quantity is Equal to the original (an Equal target that is the same unit included). */
  lemma ConvertToIsEqual(q: Quantity, target: Unit)
    requires CanConvert(q, target) && q.unit.base.dimension == target.base.dimension
    requires CanToBase(q.unit, q.value)
    requires Units.Equals(q.unit.base, target.base) ==> q.unit == target
    ensures CanCompare(q, ConvertTo(q, target)) && Equal(q, ConvertTo(q, target))
  {
  }

  /** Converting to another unit of the same dimension and back gives the original quantity exactly. */
  lemma ConvertToAndBack(q: Quantity, target: Unit)
    requires q.unit.base.dimension == target.base.dimension
    requires CanToBase(q.unit, q.value) && CanFromBase(target, ToBase(q.unit, q.value))
    requires CanFromBase(q.unit, ToBase(q.unit, q.value))
    ensures CanConvert(q, target) && CanConvert(ConvertTo(q, target), q.unit)
    ensures ConvertTo(ConvertTo(q, target), q.unit) == q
  {
    if !Units.Equals(q.unit.base, target.base) {
      assert !Units.Equals(target.base, q.unit.base);
      RoundTripThroughBase(q.unit, q.value);
    }
  }

  /** Add and Subtract panic on a dimension mismatch and convert `other` into `m`'s unit. */
  predicate CanCombine(m: Quantity, other: Quantity)
  {
    m.unit.base.dimension == other.unit.base.dimension && CanConvert(other, m.unit)
  }

  function Add(m: Quantity, other: Quantity): (r: Quantity)
    requires CanCombine(m, other)
    ensures r.unit == m.unit
    ensures r.value == m.value + ConvertTo(other, m.unit).value
  {
    Quantity(m.value + ConvertTo(other, m.unit).value, m.unit)
  }

  function Subtract(m: Quantity, other: Quantity): (r: Quantity)
    requires CanCombine(m, other)
    ensures r.unit == m.unit
    ensures r.value == m.value - ConvertTo(other, m.unit).value
  {
    Quantity(m.value - ConvertTo(other, m.unit).value, m.unit)
  }

  /** Subtracting what was added gives back the original quantity exactly. */
  lemma SubtractUndoesAdd(m: Quantity, other: Quantity)
    requires CanCombine(m, other)
    ensures CanCombine(Add(m, other), other)
    ensures Subtract(Add(m, other), other) == m
  {
  }

  /** Add commutes in value when both quantities have the same unit. */
  lemma AddSameUnitCommutes(m: Quantity, other: Quantity)
    requires m.unit == other.unit
    ensures CanCombine(m, other) && CanCombine(other, m)
    ensures Add(m, other).value == Add(other, m).value == m.value + other.value
  {
  }

  /**
   * For units without an offset (and not the inverse unit) the sum's base
   * value is the sum of the base values.  Affine units such as Fahrenheit
   * do not have this property: the offset is added once, not twice.
   */
  lemma AddIsLinearWithoutOffset(m: Quantity, other: Quantity)
    requires CanCombine(m, other)
    requires m.unit.base.offset == 0.0 && !IsInverse(m.unit) && CanToBase(other.unit, other.value)
    requires Units.Equals(other.unit.base, m.unit.base) ==> other.unit == m.unit
    ensures ToBase(m.unit, Add(m, other).value) == ToBase(m.unit, m.value) + ToBase(other.unit, other.value)
  {
    if !Units.Equals(other.unit.base, m.unit.base) {
      var c := ConvertTo(other, m.unit);
      assert ToBase(m.unit, c.value) == ToBase(other.unit, other.value);
      if !m.unit.base.isBase {
        assert ToBase(m.unit, m.value + c.value) == (m.value + c.value) * m.unit.base.coefficient;
      }
    }
  }

  function MultiplyByScalar(m: Quantity, scalar: real): (r: Quantity)
    ensures r.unit == m.unit && r.value == m.value * scalar
  {
    Quantity(m.value * scalar, m.unit)
  }

  /** Division by zero panics (excluded). */
  function DivideByScalar(m: Quantity, scalar: real): (r: Quantity)
    requires scalar != 0.0
    ensures r.unit == m.unit && r.value * scalar == m.value
  {
    Quantity(m.value / scalar, m.unit)
  }

  lemma DivideUndoesMultiply(m: Quantity, scalar: real)
    requires scalar != 0.0
    ensures DivideByScalar(MultiplyByScalar(m, scalar), scalar) == m
  {
    var p := MultiplyByScalar(m, scalar);
    var d := DivideByScalar(p, scalar);
    assert d.value * scalar == m.value * scalar;
  }

  /** Scaling commutes with conversion to the base unit for units without an offset. */
  lemma ScalingIsLinearWithoutOffset(m: Quantity, scalar: real)
    requires m.unit.base.offset == 0.0 && !IsInverse(m.unit)
    ensures ToBase(m.unit, MultiplyByScalar(m, scalar).value) == ToBase(m.unit, m.value) * scalar
  {
  }
}
