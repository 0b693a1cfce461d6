/**
  The three-component vector algebra of the renderer (coord.c, coord.h).

  `Vec` is the value of a `coord_t`; the functions on `Vec` are the
  mathematical meaning of each operation.  The class `Coord` is the
  `coord_t` record that the C functions write through their `out` pointer,
  and each C function is a method taking nullable pointers (`Coord?`), so
  that both the NULL convention and aliasing between `out` and an input are
  part of what is verified.  `float` is idealised as `real`.
 */
module Coord {

  /** The value held by a `coord_t`: three components. */
  datatype Vec = Vec(x: real, y: real, z: real)

  const Zero: Vec := Vec(0.0, 0.0, 0.0)

  // ---------------------------------------------------------------------
  // The meaning of each operation, on values
  // ---------------------------------------------------------------------

  function Sum(a: Vec, b: Vec): Vec {
    Vec(a.x + b.x, a.y + b.y, a.z + b.z)
  }

  function Difference(a: Vec, b: Vec): Vec {
    Vec(a.x - b.x, a.y - b.y, a.z - b.z)
  }

  function Negation(v: Vec): Vec {
    Vec(-v.x, -v.y, -v.z)
  }

  function Scaled(v: Vec, k: real): Vec {
    Vec(v.x * k, v.y * k, v.z * k)
  }

  function Shifted(v: Vec, c: real): Vec {
    Vec(v.x + c, v.y + c, v.z + c)
  }

  /** The inner product of two vectors. */
  function Inner(a: Vec, b: Vec): real {
    a.x * b.x + a.y * b.y + a.z * b.z
  }

  /** The squared Euclidean length. */
  function SqLength(v: Vec): real {
    Inner(v, v)
  }

  /** The mirror image of `v` about the direction `n`: 2·(v·n)·n − v. */
  function Reflection(v: Vec, n: Vec): Vec {
    Difference(Scaled(n, 2.0 * Inner(v, n)), v)
  }

  /**
    clamp (coord.c:99-109): the upper bound is compared first, so when
    `min > max` the result is `max` for `a > max`.
   */
  function Clamp(a: real, min: real, max: real): (r: real)
    ensures r == a || r == min || r == max
    ensures a > max ==> r == max
    ensures a <= max && a < min ==> r == min
    ensures min <= a <= max ==> r == a
    ensures min <= max ==> min <= r <= max
  {
    if a > max then max
    else if a < min then min
    else a
  }

  function ClampedV(v: Vec, min: real, max: real): Vec {
    Vec(Clamp(v.x, min, max), Clamp(v.y, min, max), Clamp(v.z, min, max))
  }

  // ---------------------------------------------------------------------
  // Properties of the value operations
  // ---------------------------------------------------------------------

  /** Subtracting what was added gives back the original vector. */
  lemma SubAddRoundTrip(a: Vec, b: Vec)
    ensures Difference(Sum(a, b), b) == a
  {
  }

  /** Negation is an involution. */
  lemma NegInvolutive(v: Vec)
    ensures Negation(Negation(v)) == v
  {
  }

  /** Shifting by `c` and then by `-c` gives back the original vector. */
  lemma ShiftInverse(v: Vec, c: real)
    ensures Shifted(Shifted(v, c), -c) == v
    ensures Shifted(v, c) == Sum(v, Vec(c, c, c))
  {
  }

  /** Negating a vector negates its inner product with any other. */
  lemma NegInner(v: Vec, n: Vec)
    ensures Inner(Negation(v), n) == -Inner(v, n)
  {
  }

  /** For `min <= max` clamping is idempotent. */
  lemma ClampIdempotent(a: real, min: real, max: real)
    requires min <= max
    ensures Clamp(Clamp(a, min, max), min, max) == Clamp(a, min, max)
  {
  }

  /** For `min <= max`, `Clamp` picks the point of [min, max] nearest `a`. */
  lemma ClampIsNearest(a: real, min: real, max: real, c: real)
    requires min <= c <= max
    ensures var r := Clamp(a, min, max);
            (a - r) * (a - r) <= (a - c) * (a - c)
  {
    var r := Clamp(a, min, max);
    if a > max {
      assert a - c >= a - r >= 0.0;
      MulMonotone(a - r, a - c);
    } else if a < min {
      assert c - a >= r - a >= 0.0;
      MulMonotone(r - a, c - a);
    }
  }

  /** Squaring is monotone on the non-negative reals. */
  lemma MulMonotone(p: real, q: real)
    requires 0.0 <= p <= q
    ensures p * p <= q * q
  {
    assert p * p <= p * q;
    assert p * q <= q * q;
  }

  /** With `min <= max` every component of a clamped vector lies in [min, max]. */
  lemma ClampedVInRange(v: Vec, min: real, max: real)
    requires min <= max
    ensures var r := ClampedV(v, min, max);
            min <= r.x <= max && min <= r.y <= max && min <= r.z <= max
  {
  }

  /** The inner product is linear in its first argument. */
  lemma InnerLinear(a: Vec, b: Vec, k: real, n: Vec)
    ensures Inner(Scaled(a, k), n) == k * Inner(a, n)
    ensures Inner(Difference(a, b), n) == Inner(a, n) - Inner(b, n)
  {
    calc {
      Inner(Scaled(a, k), n);
      (a.x * k) * n.x + (a.y * k) * n.y + (a.z * k) * n.z;
      k * (a.x * n.x) + k * (a.y * n.y) + k * (a.z * n.z);
      k * Inner(a, n);
    }
  }

  /** Dividing by the magnitude gives a vector of squared length 1. */
  lemma NormalizedIsUnit(v: Vec, s: real)
    requires s > 0.0 && s * s == SqLength(v)
    ensures SqLength(Scaled(v, 1.0 / s)) == 1.0
  {
    var k := 1.0 / s;
    assert k * s == 1.0;
    calc {
      SqLength(Scaled(v, k));
      (v.x * k) * (v.x * k) + (v.y * k) * (v.y * k) + (v.z * k) * (v.z * k);
      (k * k) * (v.x * v.x + v.y * v.y + v.z * v.z);
      (k * k) * (s * s);
      (k * s) * (k * s);
      1.0;
    }
  }

  /** About a unit normal, reflection keeps the component along the normal. */
  lemma ReflectionKeepsNormalComponent(v: Vec, n: Vec)
    requires SqLength(n) == 1.0
    ensures Inner(Reflection(v, n), n) == Inner(v, n)
    ensures Inner(Negation(Reflection(v, n)), n) == -Inner(v, n)
  {
    var d := 2.0 * Inner(v, n);
    InnerLinear(Scaled(n, d), v, d, n);
    InnerLinear(n, v, d, n);
    assert Inner(Reflection(v, n), n) == d * SqLength(n) - Inner(v, n);
    NegInner(Reflection(v, n), n);
  }

  // ---------------------------------------------------------------------
  // coord_t and the C functions over pointers to it
  // ---------------------------------------------------------------------

  /** The `coord_t` record (coord.h:31-35), updated field by field. */
  class Coord {
    var x: real
    var y: real
    var z: real

    constructor (x0: real, y0: real, z0: real)
      ensures Val() == Vec(x0, y0, z0)
    {
      x, y, z := x0, y0, z0;
    }

    /** The value currently stored in the record. */
    function Val(): Vec
      reads this
    {
      Vec(x, y, z)
    }
  }

  /**
    normalize (coord.c:31-45).  The C code computes `s = sqrt(...)` before
    writing any field; `s` is that square root, supplied by the caller.
    A zero vector (NaN result in C) is excluded by `s > 0`.
   */
  method Normalize(v: Coord?, out: Coord?, s: real) returns (r: Coord?)
    requires v != null && out != null ==> s > 0.0 && s * s == SqLength(v.Val())
    modifies out
    ensures r == null <==> v == null || out == null
    ensures r == null && out != null ==> unchanged(out)
    ensures r != null ==> r == out && out.Val() == Scaled(old(v.Val()), 1.0 / s)
    ensures r != null ==> SqLength(out.Val()) == 1.0
  {
    if v == null || out == null {
      return null;
    }
    ghost var v0 := v.Val();
    out.x := v.x / s;
    out.y := v.y / s;
    out.z := v.z / s;
    NormalizedIsUnit(v0, s);
    return out;
  }

  /** sub (coord.c:47-59); `out` may alias either input. */
  method Sub(a: Coord?, b: Coord?, out: Coord?) returns (r: Coord?)
    modifies out
    ensures r == null <==> a == null || b == null || out == null
    ensures r == null && out != null ==> unchanged(out)
    ensures r != null ==> r == out && out.Val() == Difference(old(a.Val()), old(b.Val()))
  {
    if a == null || b == null || out == null {
      return null;
    }
    out.x := a.x - b.x;
    out.y := a.y - b.y;
    out.z := a.z - b.z;
    return out;
  }

  /** add (coord.c:61-73); `out` may alias either input. */
  method Add(a: Coord?, b: Coord?, out: Coord?) returns (r: Coord?)
    modifies out
    ensures r == null <==> a == null || b == null || out == null
    ensures r == null && out != null ==> unchanged(out)
    ensures r != null ==> r == out && out.Val() == Sum(old(a.Val()), old(b.Val()))
  {
    if a == null || b == null || out == null {
      return null;
    }
    out.x := a.x + b.x;
    out.y := a.y + b.y;
    out.z := a.z + b.z;
    return out;
  }

  /** neg (coord.c:75-87); `out` may alias the input. */
  method Neg(v: Coord?, out: Coord?) returns (r: Coord?)
    modifies out
    ensures r == null <==> v == null || out == null
    ensures r == null && out != null ==> unchanged(out)
    ensures r != null ==> r == out && out.Val() == Negation(old(v.Val()))
  {
    if v == null || out == null {
      return null;
    }
    out.x := -v.x;
    out.y := -v.y;
    out.z := -v.z;
    return out;
  }

  /** dot (coord.c:89-97): 0.0 when either pointer is NULL. */
  function Dot(a: Coord?, b: Coord?): (r: real)
    reads a, b
    ensures a == null || b == null ==> r == 0.0
    ensures a != null && b != null ==> r == Inner(a.Val(), b.Val())
  {
    if a == null || b == null then 0.0
    else a.x * b.x + a.y * b.y + a.z * b.z
  }

  /** clamp_v (coord.c:111-123); `out` may alias the input. */
  method ClampV(v: Coord?, min: real, max: real, out: Coord?) returns (r: Coord?)
    modifies out
    ensures r == null <==> v == null || out == null
    ensures r == null && out != null ==> unchanged(out)
    ensures r != null ==> r == out && out.Val() == ClampedV(old(v.Val()), min, max)
    ensures r != null && min <= max ==>
              min <= out.x <= max && min <= out.y <= max && min <= out.z <= max
  {
    if v == null || out == null {
      return null;
    }
    out.x := Clamp(v.x, min, max);
    out.y := Clamp(v.y, min, max);
    out.z := Clamp(v.z, min, max);
    return out;
  }

  /** mul_by_const (coord.c:139-151); `out` may alias the input. */
  method MulByConst(v: Coord?, a: real, out: Coord?) returns (r: Coord?)
    modifies out
    ensures r == null <==> v == null || out == null
    ensures r == null && out != null ==> unchanged(out)
    ensures r != null ==> r == out && out.Val() == Scaled(old(v.Val()), a)
  {
    if v == null || out == null {
      return null;
    }
    out.x := v.x * a;
    out.y := v.y * a;
    out.z := v.z * a;
    return out;
  }

  /** add_const (coord.c:153-165); `out` may alias the input. */
  method AddConst(v: Coord?, a: real, out: Coord?) returns (r: Coord?)
    modifies out
    ensures r == null <==> v == null || out == null
    ensures r == null && out != null ==> unchanged(out)
    ensures r != null ==> r == out && out.Val() == Shifted(old(v.Val()), a)
  {
    if v == null || out == null {
      return null;
    }
    out.x := v.x + a;
    out.y := v.y + a;
    out.z := v.z + a;
    return out;
  }

  /**
    reflect (coord.c:167-180): `out := 2·dot(v,n)·n`, then `out := out − v`.
    The first write happens before `v` is read again, so when `out` is `v`
    the subtraction sees the overwritten vector and yields zero.  When
    `out` is `n` (but not `v`) the result is the reflection.
   */
  method Reflect(v: Coord?, n: Coord?, out: Coord?) returns (r: Coord?)
    modifies out
    ensures r == null <==> v == null || n == null || out == null
    ensures r == null && out != null ==> unchanged(out)
    ensures r != null ==> r == out
    ensures r != null && out != v ==>
              out.Val() == Reflection(old(v.Val()), old(n.Val()))
    ensures r != null && out == v ==> out.Val() == Zero
  {
    if v == null || n == null || out == null {
      return null;
    }
    var d := Dot(v, n) * 2.0;
    var _ := MulByConst(n, d, out);
    var _ := Sub(out, v, out);
    return out;
  }
}
