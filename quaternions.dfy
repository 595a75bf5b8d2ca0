/** Quaternions (geometry::Quaternion<T>) with T taken as `real`.
 *
 *  A quaternion owns a length-4 vector of members (w, x, y, z): the real part
 *  w and the imaginary part (x, y, z). The const operators build new values;
 *  they are functions on the value type `Quat`. The compound assignments
 *  `+=`, `-=` and `*=` overwrite the members in place; they are methods of
 *  the class `Quaternion`, whose `Value()` is the `Quat` it currently holds.
 *
 *  The product is the one the source writes, which differs from Hamilton's in
 *  the sign of one term of x'; see `Product` and `ProductNotAssociative`.
 */
module Quaternions {
  import opened Vectors

  /** Number of members (QUATERNION_DIMENSION). */
  const QuaternionDimension: nat := 4
  /** Number of members of the imaginary part (IMAGINARY_PART_DIMENSION). */
  const ImaginaryPartDimension: nat := 3

  /** The value of a quaternion: members[0..3] = (w, x, y, z). */
  datatype Quat = Quat(w: real, x: real, y: real, z: real)

  /** The multiplicative identity (1, 0, 0, 0). */
  const One := Quat(1.0, 0.0, 0.0, 0.0)
  /** The zero quaternion. */
  const Zero := Quat(0.0, 0.0, 0.0, 0.0)

  // ---------------------------------------------------------------------------
  // Members, real and imaginary parts
  // ---------------------------------------------------------------------------

  /** `getMembers()`: the member vector (w, x, y, z). */
  function Members(q: Quat): (r: seq<real>)
    ensures |r| == QuaternionDimension && OfMembers(r) == q
  {
    [q.w, q.x, q.y, q.z]
  }

  /** The quaternion whose members are the four components `m`
   *  (the constructor from a member vector). */
  function OfMembers(m: seq<real>): (r: Quat)
    requires |m| == QuaternionDimension
  {
    Quat(m[0], m[1], m[2], m[3])
  }

  /** `re()`: the real part, members[0]. */
  function Re(q: Quat): (r: real)
    ensures r == Members(q)[0]
  {
    q.w
  }

  /** `im()`: the imaginary part, members[1..3]. */
  function Im(q: Quat): (r: seq<real>)
    ensures |r| == ImaginaryPartDimension
    ensures r == Members(q)[1..]
  {
    [q.x, q.y, q.z]
  }

  /** The member vector and the quaternion determine each other. */
  lemma MembersRoundTrip(q: Quat, m: seq<real>)
    requires |m| == QuaternionDimension
    ensures OfMembers(Members(q)) == q
    ensures Members(OfMembers(m)) == m
  {
  }

  /** The member vector is the real part followed by the imaginary part. */
  lemma MembersSplitReIm(q: Quat)
    ensures Members(q) == [Re(q)] + Im(q)
  {
  }

  // ---------------------------------------------------------------------------
  // Construction from an angle and an axis
  // ---------------------------------------------------------------------------

  /** The angle constructor, given the already rounded cosine `c` and sine `s`
   *  of the half angle: the real part is `c`, the imaginary part the axis
   *  scaled by `s`. */
  function AxisAngle(c: real, s: real, dir: seq<real>): (r: Quat)
    requires |dir| == 3
    ensures Re(r) == c && Im(r) == Scaled(dir, s)
  {
    var r := Quat(c, dir[0] * s, dir[1] * s, dir[2] * s);
    assert Scaled(dir, s)[0] == dir[0] * s && Scaled(dir, s)[1] == dir[1] * s;
    assert Scaled(dir, s)[2] == dir[2] * s;
    r
  }

  /** A zero angle (c = 1, s = 0) gives the identity, whatever the axis. */
  lemma AxisAngleZeroIsOne(dir: seq<real>)
    requires |dir| == 3
    ensures AxisAngle(1.0, 0.0, dir) == One
  {
  }

  /** A half turn about z (c = 0, s = 1) gives (0, 0, 0, 1). */
  lemma AxisAngleHalfTurnZ()
    ensures AxisAngle(0.0, 1.0, [0.0, 0.0, 1.0]) == Quat(0.0, 0.0, 0.0, 1.0)
  {
  }

  // ---------------------------------------------------------------------------
  // Conjugate and rotation of a direction
  // ---------------------------------------------------------------------------

  /** `conjugate()`: keeps the real part and negates the imaginary part. */
  function Conjugate(q: Quat): (r: Quat)
    ensures Re(r) == Re(q) && Im(r) == Negated(Im(q))
  {
    Quat(q.w, -q.x, -q.y, -q.z)
  }

  /** Conjugating twice gives back the original quaternion. */
  lemma ConjugateInvolutive(q: Quat)
    ensures Conjugate(Conjugate(q)) == q
  {
  }

  /** `rotate(Direction)` as written: component i of the direction is scaled by
   *  member i of the quaternion, so the first axis is scaled by w and z is unused. */
  function RotateDirection(q: Quat, d: seq<real>): (r: seq<real>)
    requires |d| == 3
    ensures |r| == 3
    ensures forall i | 0 <= i < 3 :: r[i] == d[i] * Members(q)[i]
  {
    [d[0] * q.w, d[1] * q.x, d[2] * q.y]
  }

  /** `rotate(Direction)` is not a rotation: the identity quaternion, which
   *  should leave every direction unchanged, keeps only its first component. */
  lemma RotateDirectionOfOne(d: seq<real>)
    requires |d| == 3
    ensures RotateDirection(One, d) == [d[0], 0.0, 0.0]
  {
  }

  /** `rotate(Direction)` never reads the last member z of the quaternion. */
  lemma RotateDirectionIgnoresZ(q: Quat, z: real, d: seq<real>)
    requires |d| == 3
    ensures RotateDirection(q, d) == RotateDirection(q.(z := z), d)
  {
    var r, r' := RotateDirection(q, d), RotateDirection(q.(z := z), d);
    assert Members(q)[..3] == Members(q.(z := z))[..3];
    assert r[0] == r'[0] && r[1] == r'[1] && r[2] == r'[2];
  }

  // ---------------------------------------------------------------------------
  // Arithmetic
  // ---------------------------------------------------------------------------

  /** `q + scalar`: only the real part changes. */
  function AddScalar(q: Quat, scalar: real): (r: Quat)
    ensures Re(r) == Re(q) + scalar && Im(r) == Im(q)
  {
    Quat(q.w + scalar, q.x, q.y, q.z)
  }

  /** `q - scalar`: only the real part changes. */
  function SubScalar(q: Quat, scalar: real): (r: Quat)
    ensures Re(r) == Re(q) - scalar && Im(r) == Im(q)
  {
    Quat(q.w - scalar, q.x, q.y, q.z)
  }

  /** The friend `scalar + q`, the same as `q + scalar`. */
  function ScalarPlus(scalar: real, q: Quat): (r: Quat)
    ensures r == AddScalar(q, scalar)
  {
    Quat(q.w + scalar, q.x, q.y, q.z)
  }

  /** The friend `scalar - q` as written: it subtracts the scalar from the real
   *  part, so it equals `q - scalar` rather than the negation of it. */
  function ScalarMinus(scalar: real, q: Quat): (r: Quat)
    ensures r == SubScalar(q, scalar)
  {
    Quat(q.w - scalar, q.x, q.y, q.z)
  }

  /** Subtracting a scalar undoes adding it. */
  lemma SubScalarUndoesAddScalar(q: Quat, scalar: real)
    ensures SubScalar(AddScalar(q, scalar), scalar) == q
  {
  }

  /** Binary `+`: componentwise on all four members. */
  function Add(p: Quat, q: Quat): (r: Quat)
    ensures Members(r) == Plus(Members(p), Members(q))
  {
    Quat(p.w + q.w, p.x + q.x, p.y + q.y, p.z + q.z)
  }

  /** Binary `-`: componentwise on all four members. */
  function Sub(p: Quat, q: Quat): (r: Quat)
    ensures Members(r) == Minus(Members(p), Members(q))
  {
    Quat(p.w - q.w, p.x - q.x, p.y - q.y, p.z - q.z)
  }

  /** Unary `-`: every member negated. */
  function Neg(q: Quat): (r: Quat)
    ensures Members(r) == Negated(Members(q))
  {
    Quat(-q.w, -q.x, -q.y, -q.z)
  }

  /** `q * scalar`: every member multiplied. */
  function Scale(q: Quat, scalar: real): (r: Quat)
    ensures Members(r) == Scaled(Members(q), scalar)
  {
    var r := Quat(q.w * scalar, q.x * scalar, q.y * scalar, q.z * scalar);
    ghost var m := Scaled(Members(q), scalar);
    assert m[0] == q.w * scalar && m[1] == q.x * scalar;
    assert m[2] == q.y * scalar && m[3] == q.z * scalar;
    r
  }

  /** `q / scalar`: every member divided. */
  function Div(q: Quat, scalar: real): (r: Quat)
    requires scalar != 0.0
    ensures Members(r) == Scaled(Members(q), 1.0 / scalar)
  {
    var r := Quat(q.w / scalar, q.x / scalar, q.y / scalar, q.z / scalar);
    var inv := 1.0 / scalar;
    assert q.w / scalar == q.w * inv && q.x / scalar == q.x * inv;
    assert q.y / scalar == q.y * inv && q.z / scalar == q.z * inv;
    ghost var m := Scaled(Members(q), inv);
    assert m[0] == q.w * inv && m[1] == q.x * inv;
    assert m[2] == q.y * inv && m[3] == q.z * inv;
    r
  }

  /** Dividing by a non-zero scalar undoes multiplying by it. */
  lemma DivUndoesScale(q: Quat, scalar: real)
    requires scalar != 0.0
    ensures Div(Scale(q, scalar), scalar) == q
  {
  }

  /** A quaternion minus itself is zero, and subtraction is addition of the negation. */
  lemma SubProperties(p: Quat, q: Quat)
    ensures Sub(q, q) == Zero
    ensures Sub(p, q) == Add(p, Neg(q))
  {
  }

  /** `==`: all four members equal. */
  function Equal(p: Quat, q: Quat): (r: bool)
    ensures r <==> p == q
  {
    p.w == q.w && p.x == q.x && p.y == q.y && p.z == q.z
  }

  /** Equality is reflexive and fails as soon as one member differs. */
  lemma EqualProperties(p: Quat, q: Quat)
    ensures Equal(q, q)
    ensures Members(p) != Members(q) ==> !Equal(p, q)
  {
  }

  // ---------------------------------------------------------------------------
  // Product
  // ---------------------------------------------------------------------------

  /** The Hamilton product, as a reference against which `Product` is compared. */
  function Hamilton(p: Quat, q: Quat): (r: Quat)
  {
    Quat(p.w * q.w - p.x * q.x - p.y * q.y - p.z * q.z,
         p.w * q.x + p.x * q.w + p.y * q.z - p.z * q.y,
         p.w * q.y - p.x * q.z + p.y * q.w + p.z * q.x,
         p.w * q.z + p.x * q.y - p.y * q.x + p.z * q.w)
  }

  /** `p * q` as written (see `ProductVersusHamilton`). */
  function Product(p: Quat, q: Quat): (r: Quat)
  {
    Quat(p.w * q.w - p.x * q.x - p.y * q.y - p.z * q.z,
         p.w * q.x + p.x * q.w + p.y * q.z + p.z * q.y,
         p.w * q.y - p.x * q.z + p.y * q.w + p.z * q.x,
         p.w * q.z + p.x * q.y - p.y * q.x + p.z * q.w)
  }

  /** The product as written is Hamilton's product except that the last term
   *  of x' is added instead of subtracted: the two differ by 2 * z1 * y2 in x'. */
  lemma ProductVersusHamilton(p: Quat, q: Quat)
    ensures Product(p, q).w == Hamilton(p, q).w
    ensures Product(p, q).x == Hamilton(p, q).x + 2.0 * p.z * q.y
    ensures Product(p, q).y == Hamilton(p, q).y
    ensures Product(p, q).z == Hamilton(p, q).z
  {
  }

  /** (1, 0, 0, 0) is a two-sided identity for the product as written. */
  lemma ProductIdentity(q: Quat)
    ensures Product(One, q) == q
    ensures Product(q, One) == q
  {
  }

  /** The unit quaternions i, j and k. */
  const I := Quat(0.0, 1.0, 0.0, 0.0)
  const J := Quat(0.0, 0.0, 1.0, 0.0)
  const K := Quat(0.0, 0.0, 0.0, 1.0)

  /** Products of unit quaternions under the product as written. */
  lemma ProductKJ()
    ensures Product(K, J) == I
  {
  }

  lemma ProductJK()
    ensures Product(J, K) == I
  {
  }

  lemma ProductIJ()
    ensures Product(I, J) == K
  {
  }

  lemma ProductJJ()
    ensures Product(J, J) == Quat(-1.0, 0.0, 0.0, 0.0)
  {
  }

  lemma ProductKMinusOne()
    ensures Product(K, Quat(-1.0, 0.0, 0.0, 0.0)) == Quat(0.0, 0.0, 0.0, -1.0)
  {
  }

  lemma HamiltonKJ()
    ensures Hamilton(K, J) == Quat(0.0, -1.0, 0.0, 0.0)
  {
  }

  /** The product as written is not associative: (k * j) * j is k, but
   *  k * (j * j) is -k. It also gives k * j == j * k == i, where Hamilton's
   *  product gives k * j == -i. */
  lemma ProductNotAssociative()
    ensures Product(K, J) == Product(J, K) == I
    ensures Hamilton(K, J) == Quat(0.0, -1.0, 0.0, 0.0)
    ensures Product(Product(K, J), J) == K
    ensures Product(K, Product(J, J)) == Quat(0.0, 0.0, 0.0, -1.0)
  {
    ProductKJ();
    ProductJK();
    ProductIJ();
    ProductJJ();
    ProductKMinusOne();
    HamiltonKJ();
  }

  // ---------------------------------------------------------------------------
  // The quaternion object and its compound assignments
  // ---------------------------------------------------------------------------

  class Quaternion {
    /** The member vector (w, x, y, z). */
    const members: Vector

    predicate Valid()
    {
      members.Size() == QuaternionDimension
    }

    /** The quaternion the members currently hold. */
    function Value(): (v: Quat)
      reads members.vec
      requires Valid()
    {
      OfMembers(members.vec[..])
    }

    /** Construction from a member vector, which is copied. */
    constructor (m: Vector)
      requires m.Size() == QuaternionDimension
      ensures Valid() && fresh(members) && fresh(members.vec)
      ensures Value() == OfMembers(m.vec[..])
    {
      members := new Vector(m.vec[..]);
    }

    /** Construction from an angle and an axis; `c` and `s` are the rounded
     *  cosine and sine of the half angle. */
    constructor FromAxisAngle(c: real, s: real, dir: seq<real>)
      requires |dir| == 3
      ensures Valid() && fresh(members) && fresh(members.vec)
      ensures Value() == AxisAngle(c, s, dir)
    {
      var m := new Vector([0.0, 0.0, 0.0, 0.0]);
      m.vec[0] := c;
      m.vec[1] := dir[0] * s;
      m.vec[2] := dir[1] * s;
      m.vec[3] := dir[2] * s;
      members := m;
    }

    /** `+= scalar`: only the real part changes. */
    method AddScalarAssign(scalar: real)
      requires Valid()
      modifies members.vec
      ensures Value() == AddScalar(old(Value()), scalar)
    {
      members.vec[0] := members.vec[0] + scalar;
    }

    /** `-= scalar`: only the real part changes. */
    method SubScalarAssign(scalar: real)
      requires Valid()
      modifies members.vec
      ensures Value() == SubScalar(old(Value()), scalar)
    {
      members.vec[0] := members.vec[0] - scalar;
    }

    /** `+= q`, member by member; `q` may be this quaternion. */
    method AddAssign(q: Quaternion)
      requires Valid() && q.Valid()
      modifies members.vec
      ensures Value() == Add(old(Value()), old(q.Value()))
      ensures q.members.vec != members.vec ==> q.Value() == old(q.Value())
    {
      members.vec[0] := members.vec[0] + q.members.vec[0];
      members.vec[1] := members.vec[1] + q.members.vec[1];
      members.vec[2] := members.vec[2] + q.members.vec[2];
      members.vec[3] := members.vec[3] + q.members.vec[3];
    }

    /** `-= q`, member by member; `q` may be this quaternion. */
    method SubAssign(q: Quaternion)
      requires Valid() && q.Valid()
      modifies members.vec
      ensures Value() == Sub(old(Value()), old(q.Value()))
      ensures q.members.vec != members.vec ==> q.Value() == old(q.Value())
    {
      members.vec[0] := members.vec[0] - q.members.vec[0];
      members.vec[1] := members.vec[1] - q.members.vec[1];
      members.vec[2] := members.vec[2] - q.members.vec[2];
      members.vec[3] := members.vec[3] - q.members.vec[3];
    }

    /** `*= scalar`: every member multiplied. */
    method ScaleAssign(scalar: real)
      requires Valid()
      modifies members.vec
      ensures Value() == Scale(old(Value()), scalar)
    {
      members.vec[0] := members.vec[0] * scalar;
      members.vec[1] := members.vec[1] * scalar;
      members.vec[2] := members.vec[2] * scalar;
      members.vec[3] := members.vec[3] * scalar;
    }

    /** `*= q`: the new members are all computed from the old ones before any
     *  is overwritten, so `q *= q` squares `q`. */
    method MulAssign(q: Quaternion)
      requires Valid() && q.Valid()
      modifies members.vec
      ensures Value() == Product(old(Value()), old(q.Value()))
      ensures q.members.vec != members.vec ==> q.Value() == old(q.Value())
    {
      var newMembers := Members(Product(Value(), q.Value()));
      members.vec[0] := newMembers[0];
      members.vec[1] := newMembers[1];
      members.vec[2] := newMembers[2];
      members.vec[3] := newMembers[3];
    }
  }
}
