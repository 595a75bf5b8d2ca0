/** Fixed-length numeric vectors (math::Vector<T, size>), with T taken as `real`.
 *
 *  The vector owns a fixed-size buffer: `vec` is allocated once and its length,
 *  the template parameter `size`, never changes. Value-returning operators fill
 *  a fresh result vector in a loop; `+=` and `-=` overwrite `vec` in place.
 *  Each operator is specified by a function on the sequence of components.
 */
module Vectors {

  /** The two exceptions the vector throws, and the one `std::array::at` throws. */
  datatype VectorError =
    | IndexOutOfArray    // operator[] with i >= size: "Index out of array"
    | OutOfRange         // at(i) with i >= size: std::array::at throws std::out_of_range
    | InvalidDimension   // cross on a vector with fewer than three components

  datatype Result<T> = Ok(value: T) | Err(error: VectorError)

  datatype Outcome = Pass | Fail(error: VectorError)

  /** Smallest size for which `cross` is defined (MIN_ARGS_CROSS). */
  const MinArgsCross: nat := 3

  // ---------------------------------------------------------------------------
  // Specification functions on component sequences
  // ---------------------------------------------------------------------------

  /** Componentwise sum. */
  function Plus(a: seq<real>, b: seq<real>): (r: seq<real>)
    requires |a| == |b|
  {
    seq(|a|, i requires 0 <= i < |a| => a[i] + b[i])
  }

  /** Componentwise difference. */
  function Minus(a: seq<real>, b: seq<real>): (r: seq<real>)
    requires |a| == |b|
  {
    seq(|a|, i requires 0 <= i < |a| => a[i] - b[i])
  }

  /** Componentwise negation. */
  function Negated(a: seq<real>): (r: seq<real>)
  {
    seq(|a|, i requires 0 <= i < |a| => -a[i])
  }

  /** Every component multiplied by `scalar`. */
  function Scaled(a: seq<real>, scalar: real): (r: seq<real>)
  {
    seq(|a|, i requires 0 <= i < |a| => a[i] * scalar)
  }

  /** Sum of pairwise products, accumulated from index 0 upwards. */
  function DotProduct(a: seq<real>, b: seq<real>): (r: real)
    requires |a| == |b|
    decreases |a|
  {
    if |a| == 0 then 0.0
    else DotProduct(a[..|a| - 1], b[..|b| - 1]) + a[|a| - 1] * b[|b| - 1]
  }

  /** The three components written by `cross`. */
  function CrossProduct(a: seq<real>, b: seq<real>): (r: seq<real>)
    requires |a| == 3 && |b| == 3
  {
    [ a[1] * b[2] - a[2] * b[1],
      a[2] * b[0] - a[0] * b[2],
      a[0] * b[1] - a[1] * b[0] ]
  }

  // ---------------------------------------------------------------------------
  // Properties of the specification functions
  // ---------------------------------------------------------------------------

  /** Subtraction is addition of the negation. */
  lemma SubIsAddNegated(a: seq<real>, b: seq<real>)
    requires |a| == |b|
    ensures Minus(a, b) == Plus(a, Negated(b))
  {
    assert forall i | 0 <= i < |a| :: Minus(a, b)[i] == Plus(a, Negated(b))[i];
  }

  /** Subtracting `b` undoes adding it, so `a += b; a -= b` restores `a`. */
  lemma MinusUndoesPlus(a: seq<real>, b: seq<real>)
    requires |a| == |b|
    ensures Minus(Plus(a, b), b) == a
  {
    assert forall i | 0 <= i < |a| :: Minus(Plus(a, b), b)[i] == a[i];
  }

  /** The dot product does not depend on the order of its operands. */
  lemma {:induction false} DotSymmetric(a: seq<real>, b: seq<real>)
    requires |a| == |b|
    ensures DotProduct(a, b) == DotProduct(b, a)
    decreases |a|
  {
    if |a| > 0 {
      DotSymmetric(a[..|a| - 1], b[..|b| - 1]);
    }
  }

  /** The dot product of the first two unit axes is zero. */
  lemma UnitAxesOrthogonal()
    ensures DotProduct([1.0, 0.0, 0.0], [0.0, 1.0, 0.0]) == 0.0
  {
    var a, b := [1.0, 0.0, 0.0], [0.0, 1.0, 0.0];
    assert a[..2] == [1.0, 0.0] && b[..2] == [0.0, 1.0];
    assert a[..2][..1] == [1.0] && b[..2][..1] == [0.0];
    assert [1.0][..0] == [] && [0.0][..0] == [];
    assert DotProduct([1.0], [0.0]) == 0.0;
    assert DotProduct([1.0, 0.0], [0.0, 1.0]) == 0.0;
  }

  /** A vector crossed with itself is zero. */
  lemma CrossSelfZero(u: seq<real>)
    requires |u| == 3
    ensures CrossProduct(u, u) == [0.0, 0.0, 0.0]
  {
  }

  /** The cross product is anti-commutative. */
  lemma CrossAntiCommutative(u: seq<real>, v: seq<real>)
    requires |u| == 3 && |v| == 3
    ensures CrossProduct(u, v) == Negated(CrossProduct(v, u))
  {
  }

  // ---------------------------------------------------------------------------
  // The vector itself
  // ---------------------------------------------------------------------------

  class Vector {
    /** The component buffer (std::array<T, size>); its length is `size`. */
    const vec: array<real>

    function Size(): (n: nat)
    {
      vec.Length
    }

    /** A vector holding the components `s`. */
    constructor (s: seq<real>)
      ensures fresh(vec) && vec[..] == s
    {
      vec := new real[|s|](i requires 0 <= i < |s| => s[i]);
    }

    /** `at(i)`: reads through std::array::at, which throws out_of_range when i >= size. */
    function At(i: nat): (r: Result<real>)
      reads vec
      ensures r.Ok? <==> i < Size()
      ensures r.Ok? ==> r.value == vec[i]
      ensures r.Err? ==> r.error == OutOfRange
    {
      if i < vec.Length then Ok(vec[i]) else Err(OutOfRange)
    }

    /** Read form of `operator[]`: fails with "Index out of array" when i >= size. */
    function Get(i: nat): (r: Result<real>)
      reads vec
      ensures r.Ok? <==> i < Size()
      ensures r.Ok? ==> r.value == vec[i]
      ensures r.Err? ==> r.error == IndexOutOfArray
    {
      if i >= vec.Length then Err(IndexOutOfArray) else Ok(vec[i])
    }

    /** Write through the reference returned by `operator[]`; the bounds check
     *  fires before anything is written. */
    method Set(i: nat, x: real) returns (r: Outcome)
      modifies vec
      ensures r == if i < Size() then Pass else Fail(IndexOutOfArray)
      ensures i < Size() ==> vec[..] == old(vec[..])[i := x]
      ensures i >= Size() ==> vec[..] == old(vec[..])
    {
      if i >= vec.Length {
        return Fail(IndexOutOfArray);
      }
      vec[i] := x;
      r := Pass;
    }

    /** `cross`: throws when size < 3, otherwise writes components 0..2 of the result. */
    method Cross(v: Vector) returns (r: Result<Vector>)
      requires v.Size() == Size()
      ensures r.Err? <==> Size() < MinArgsCross
      ensures r.Err? ==> r.error == InvalidDimension
      ensures r.Ok? ==> fresh(r.value.vec) && r.value.Size() == Size()
      ensures r.Ok? ==> r.value.vec[..3] == CrossProduct(vec[..3], v.vec[..3])
    {
      if vec.Length < MinArgsCross {
        return Err(InvalidDimension);
      }
      ghost var a, b := vec[..3], v.vec[..3];
      assert a[0] == vec[0] && a[1] == vec[1] && a[2] == vec[2];
      assert b[0] == v.vec[0] && b[1] == v.vec[1] && b[2] == v.vec[2];
      ghost var expected := CrossProduct(a, b);
      var c0 := vec[1] * v.vec[2] - vec[2] * v.vec[1];
      var c1 := vec[2] * v.vec[0] - vec[0] * v.vec[2];
      var c2 := vec[0] * v.vec[1] - vec[1] * v.vec[0];
      assert expected[0] == c0 && expected[1] == c1 && expected[2] == c2;
      var res := new Vector(seq(vec.Length, _ => 0.0));
      res.vec[0] := c0;
      res.vec[1] := c1;
      res.vec[2] := c2;
      assert res.vec[..3] == [c0, c1, c2];
      r := Ok(res);
    }

    /** `*this * v`: the dot product, summed from 0 upwards. */
    method Dot(v: Vector) returns (somme: real)
      requires v.Size() == Size()
      ensures somme == DotProduct(vec[..], v.vec[..])
    {
      somme := 0.0;
      for i := 0 to vec.Length
        invariant somme == DotProduct(vec[..i], v.vec[..i])
      {
        assert vec[..i + 1][..i] == vec[..i] && v.vec[..i + 1][..i] == v.vec[..i];
        somme := somme + vec[i] * v.vec[i];
      }
      assert vec[..vec.Length] == vec[..] && v.vec[..v.vec.Length] == v.vec[..];
    }

    /** `is_ortho(v)`: the dot product is exactly zero. */
    method IsOrtho(v: Vector) returns (b: bool)
      requires v.Size() == Size()
      ensures b <==> DotProduct(vec[..], v.vec[..]) == 0.0
    {
      var d := Dot(v);
      b := d == 0.0;
    }

    /** Binary `+`. */
    method Add(v: Vector) returns (r: Vector)
      requires v.Size() == Size()
      ensures fresh(r.vec) && r.vec[..] == Plus(vec[..], v.vec[..])
    {
      r := new Vector(seq(vec.Length, _ => 0.0));
      for i := 0 to vec.Length
        invariant forall k | 0 <= k < i :: r.vec[k] == vec[k] + v.vec[k]
      {
        r.vec[i] := vec[i] + v.vec[i];
      }
    }

    /** `+=`: each component is overwritten in place; `v` may be this vector. */
    method AddAssign(v: Vector)
      requires v.Size() == Size()
      modifies vec
      ensures vec[..] == Plus(old(vec[..]), old(v.vec[..]))
      ensures v.vec != vec ==> v.vec[..] == old(v.vec[..])
    {
      for i := 0 to vec.Length
        invariant forall k | 0 <= k < i :: vec[k] == old(vec[k]) + old(v.vec[k])
        invariant forall k | i <= k < vec.Length :: vec[k] == old(vec[k]) && v.vec[k] == old(v.vec[k])
      {
        vec[i] := vec[i] + v.vec[i];
      }
    }

    /** Unary `-`. */
    method Negate() returns (r: Vector)
      ensures fresh(r.vec) && r.vec[..] == Negated(vec[..])
    {
      r := new Vector(seq(vec.Length, _ => 0.0));
      for i := 0 to vec.Length
        invariant forall k | 0 <= k < i :: r.vec[k] == -vec[k]
      {
        r.vec[i] := -vec[i];
      }
    }

    /** Binary `-`. */
    method Subtract(v: Vector) returns (r: Vector)
      requires v.Size() == Size()
      ensures fresh(r.vec) && r.vec[..] == Minus(vec[..], v.vec[..])
    {
      r := new Vector(seq(vec.Length, _ => 0.0));
      for i := 0 to vec.Length
        invariant forall k | 0 <= k < i :: r.vec[k] == vec[k] - v.vec[k]
      {
        r.vec[i] := vec[i] - v.vec[i];
      }
    }

    /** `-=`: each component is overwritten in place; `v` may be this vector. */
    method SubtractAssign(v: Vector)
      requires v.Size() == Size()
      modifies vec
      ensures vec[..] == Minus(old(vec[..]), old(v.vec[..]))
      ensures v.vec != vec ==> v.vec[..] == old(v.vec[..])
    {
      for i := 0 to vec.Length
        invariant forall k | 0 <= k < i :: vec[k] == old(vec[k]) - old(v.vec[k])
        invariant forall k | i <= k < vec.Length :: vec[k] == old(vec[k]) && v.vec[k] == old(v.vec[k])
      {
        vec[i] := vec[i] - v.vec[i];
      }
    }

    /** `v * scalar`. */
    method Scale(scalar: real) returns (r: Vector)
      ensures fresh(r.vec) && r.vec[..] == Scaled(vec[..], scalar)
    {
      r := new Vector(seq(vec.Length, _ => 0.0));
      for i := 0 to vec.Length
        invariant forall k | 0 <= k < i :: r.vec[k] == vec[k] * scalar
      {
        r.vec[i] := vec[i] * scalar;
      }
      assert forall k | 0 <= k < vec.Length :: r.vec[..][k] == Scaled(vec[..], scalar)[k];
    }
  }

  /** The friend `scalar * v`, which forwards to `v * scalar`. */
  method ScalarTimes(scalar: real, v: Vector) returns (r: Vector)
    ensures fresh(r.vec) && r.vec[..] == Scaled(v.vec[..], scalar)
  {
    r := v.Scale(scalar);
  }

  /** `at(i)` and the read form of `operator[]` agree on every valid index, and
   *  both fail past the end. */
  lemma AtAgreesWithIndex(v: Vector, i: nat)
    ensures v.At(i).Ok? <==> v.Get(i).Ok?
    ensures i < v.Size() ==> v.At(i) == v.Get(i)
  {
  }
}
