/** Affine transformations (geometry::Transformation<T>) with T taken as `real`.
 *
 *  A transformation owns a 4x4 matrix that its constructors and factories fill
 *  cell by cell; cells they do not assign hold 0. Points are transformed with
 *  homogeneous coordinate 1, directions with 0, and a sphere through its centre.
 *
 *  The vector-times-matrix product belongs to a matrix type that is not part
 *  of this model, so its orientation is a parameter: `RowVector` reads `v * M`
 *  as a row vector times the matrix, `ColumnVector` as the matrix times a
 *  column vector. Properties that do not depend on it are proved for both.
 *  Cosine and sine are inputs (`c`, `s`); the degree conversion is not modelled.
 */
module Transformations {
  import opened Quaternions

  /** Number of rows and columns (TRANSFORMATION_DIMENSION). */
  const TransformationDimension: nat := 4

  type Matrix = seq<seq<real>>

  predicate IsMatrix4(m: Matrix)
  {
    |m| == 4 && forall i | 0 <= i < 4 :: |m[i]| == 4
  }

  /** How `v * M` combines a vector with the matrix. */
  datatype Convention = RowVector | ColumnVector

  /** Component k of `v * M` under the given convention. */
  function Entry(conv: Convention, v: seq<real>, m: Matrix, k: nat): (r: real)
    requires |v| == 4 && IsMatrix4(m) && k < 4
  {
    match conv
    case RowVector => v[0] * m[0][k] + v[1] * m[1][k] + v[2] * m[2][k] + v[3] * m[3][k]
    case ColumnVector => m[k][0] * v[0] + m[k][1] * v[1] + m[k][2] * v[2] + m[k][3] * v[3]
  }

  /** `v * M` for a 4-vector and a 4x4 matrix. */
  function Multiply(conv: Convention, v: seq<real>, m: Matrix): (r: seq<real>)
    requires |v| == 4 && IsMatrix4(m)
    ensures |r| == 4
  {
    [Entry(conv, v, m, 0), Entry(conv, v, m, 1), Entry(conv, v, m, 2), Entry(conv, v, m, 3)]
  }

  /** A 3D coordinate triple extended with the homogeneous coordinate `h`. */
  function Homogeneous(p: seq<real>, h: real): (r: seq<real>)
    requires |p| == 3
  {
    [p[0], p[1], p[2], h]
  }

  /** `transform(Point)`: multiply (x, y, z, 1) by the matrix and keep the first three components. */
  function ApplyToPoint(conv: Convention, m: Matrix, p: seq<real>): (r: seq<real>)
    requires IsMatrix4(m) && |p| == 3
  {
    var v := Multiply(conv, Homogeneous(p, 1.0), m);
    [v[0], v[1], v[2]]
  }

  /** `transform(Direction)`: multiply (x, y, z, 0) by the matrix and keep the first three components. */
  function ApplyToDirection(conv: Convention, m: Matrix, d: seq<real>): (r: seq<real>)
    requires IsMatrix4(m) && |d| == 3
  {
    var v := Multiply(conv, Homogeneous(d, 0.0), m);
    [v[0], v[1], v[2]]
  }

  /** A sphere: its centre and its radius. */
  datatype Sphere = Sphere(center: seq<real>, radius: real)

  // ---------------------------------------------------------------------------
  // The matrices the constructors and factories build
  // ---------------------------------------------------------------------------

  const ZeroMatrix: Matrix :=
    [[0.0, 0.0, 0.0, 0.0], [0.0, 0.0, 0.0, 0.0], [0.0, 0.0, 0.0, 0.0], [0.0, 0.0, 0.0, 0.0]]

  const Identity: Matrix :=
    [[1.0, 0.0, 0.0, 0.0], [0.0, 1.0, 0.0, 0.0], [0.0, 0.0, 1.0, 0.0], [0.0, 0.0, 0.0, 1.0]]

  /** The matrix built from a quaternion: the rotation block computed from its
   *  real part and its imaginary part. */
  function QuaternionMatrix(q: Quat): (r: Matrix)
  {
    BlockMatrix(Re(q), Im(q))
  }

  /** The 3x3 block computed from a real part `reel` and an imaginary part
   *  `img`, [3][3] = 1, every other cell 0. */
  function BlockMatrix(reel: real, img: seq<real>): (r: Matrix)
    requires |img| == 3
  {
    [[1.0 - 2.0 * img[1] * img[1] - 2.0 * img[2] * img[2],
      2.0 * img[0] * img[1] - 2.0 * reel * img[2],
      2.0 * img[0] * img[2] + 2.0 * reel * img[1],
      0.0],
     [2.0 * img[0] * img[1] + 2.0 * reel * img[2],
      1.0 - 2.0 * img[0] * img[0] - 2.0 * img[2] * img[2],
      2.0 * img[1] * img[2] - 2.0 * reel * img[0],
      0.0],
     [2.0 * img[0] * img[2] - 2.0 * reel * img[1],
      2.0 * img[1] * img[2] + 2.0 * reel * img[0],
      1.0 - 2.0 * img[0] * img[0] - 2.0 * img[1] * img[1],
      0.0],
     [0.0, 0.0, 0.0, 1.0]]
  }

  /** The matrix built from an axis `d` and the cosine `c` and sine `s` of the
   *  angle, with the sine terms as the source writes them. */
  function AxisAngleMatrix(d: seq<real>, c: real, s: real): (r: Matrix)
    requires |d| == 3
  {
    [[c + (1.0 - c) * (d[0] * d[0]),
      (1.0 - c) * d[0] * d[1] + s * d[1],
      (1.0 - c) * d[0] * d[2] + s * d[1],
      0.0],
     [(1.0 - c) * d[0] * d[1] + s * d[2],
      c + (1.0 - c) * (d[1] * d[1]),
      (1.0 - c) * d[1] * d[2] + s * d[0],
      0.0],
     [(1.0 - c) * d[0] * d[2] + s * d[1],
      (1.0 - c) * d[1] * d[2] + s * d[0],
      c + (1.0 - c) * (d[2] * d[2]),
      0.0],
     [0.0, 0.0, 0.0, 1.0]]
  }

  /** Rodrigues' rotation matrix about axis `d` (for column vectors), as a
   *  reference against which `AxisAngleMatrix` is compared. */
  function Rodrigues(d: seq<real>, c: real, s: real): (r: Matrix)
    requires |d| == 3
  {
    [[c + (1.0 - c) * (d[0] * d[0]),
      (1.0 - c) * d[0] * d[1] - s * d[2],
      (1.0 - c) * d[0] * d[2] + s * d[1],
      0.0],
     [(1.0 - c) * d[0] * d[1] + s * d[2],
      c + (1.0 - c) * (d[1] * d[1]),
      (1.0 - c) * d[1] * d[2] - s * d[0],
      0.0],
     [(1.0 - c) * d[0] * d[2] - s * d[1],
      (1.0 - c) * d[1] * d[2] + s * d[0],
      c + (1.0 - c) * (d[2] * d[2]),
      0.0],
     [0.0, 0.0, 0.0, 1.0]]
  }

  /** `createTranslation(x, y, z)`: [0][3], [1][3], [2][3] and [3][3] assigned. */
  function TranslationMatrix(x: real, y: real, z: real): (r: Matrix)
  {
    [[0.0, 0.0, 0.0, x], [0.0, 0.0, 0.0, y], [0.0, 0.0, 0.0, z], [0.0, 0.0, 0.0, 1.0]]
  }

  /** `createScaling(x, y, z)`: [0][0], [1][1], [2][2] and [3][3] assigned. */
  function ScalingMatrix(x: real, y: real, z: real): (r: Matrix)
  {
    [[x, 0.0, 0.0, 0.0], [0.0, y, 0.0, 0.0], [0.0, 0.0, z, 0.0], [0.0, 0.0, 0.0, 1.0]]
  }

  // ---------------------------------------------------------------------------
  // Properties of the matrices
  // ---------------------------------------------------------------------------

  /** Multiplying by the identity matrix returns the vector unchanged, under either convention. */
  lemma MultiplyIdentity(conv: Convention, v: seq<real>)
    requires |v| == 4
    ensures Multiply(conv, v, Identity) == v
  {
    assert Entry(conv, v, Identity, 0) == v[0];
    assert Entry(conv, v, Identity, 1) == v[1];
    assert Entry(conv, v, Identity, 2) == v[2];
    assert Entry(conv, v, Identity, 3) == v[3];
  }

  /** The identity quaternion gives the identity matrix. */
  lemma QuaternionMatrixOfOne()
    ensures QuaternionMatrix(One) == Identity
  {
  }

  /** In the quaternion-built block, M[i][j] + M[j][i] depends only on the
   *  imaginary part (x, y, z): it is 4xy, 4xz or 4yz off the diagonal. With a
   *  zero real part the whole matrix is symmetric. */
  lemma QuaternionMatrixSymmetry(q: Quat)
    ensures IsMatrix4(QuaternionMatrix(q))
    ensures var m := QuaternionMatrix(q);
      && m[0][1] + m[1][0] == 4.0 * q.x * q.y
      && m[0][2] + m[2][0] == 4.0 * q.x * q.z
      && m[1][2] + m[2][1] == 4.0 * q.y * q.z
    ensures Re(q) == 0.0 ==>
      forall i, j | 0 <= i < 4 && 0 <= j < 4 :: QuaternionMatrix(q)[i][j] == QuaternionMatrix(q)[j][i]
  {
    var m := QuaternionMatrix(q);
    if Re(q) == 0.0 {
      assert m[0][1] == 2.0 * q.x * q.y == m[1][0];
      assert m[0][2] == 2.0 * q.x * q.z == m[2][0];
      assert m[1][2] == 2.0 * q.y * q.z == m[2][1];
    }
  }

  /** The axis-angle block has c + (1 - c) d_i^2 on its diagonal. It agrees with
   *  Rodrigues' matrix except in [0][1], [1][2] and [2][0], whose sine terms
   *  use d[1], d[0] and d[1] with a plus sign. */
  lemma AxisAngleVersusRodrigues(d: seq<real>, c: real, s: real)
    requires |d| == 3
    ensures IsMatrix4(AxisAngleMatrix(d, c, s)) && IsMatrix4(Rodrigues(d, c, s))
    ensures forall i | 0 <= i < 3 :: AxisAngleMatrix(d, c, s)[i][i] == c + (1.0 - c) * d[i] * d[i]
    ensures forall i, j | 0 <= i < 4 && 0 <= j < 4 ::
      AxisAngleMatrix(d, c, s)[i][j] == Rodrigues(d, c, s)[i][j] + SineDeviation(d, s, i, j)
  {
    forall i | 0 <= i < 3 ensures AxisAngleMatrix(d, c, s)[i][i] == c + (1.0 - c) * d[i] * d[i] {
      AxisAngleDiagonal(d, c, s, i);
    }
    forall i, j | 0 <= i < 4 && 0 <= j < 4
      ensures AxisAngleMatrix(d, c, s)[i][j] == Rodrigues(d, c, s)[i][j] + SineDeviation(d, s, i, j)
    {
      AxisAngleCell(d, c, s, i, j);
    }
  }

  /** One diagonal cell of the axis-angle block. */
  lemma AxisAngleDiagonal(d: seq<real>, c: real, s: real, i: nat)
    requires |d| == 3 && i < 3
    ensures AxisAngleMatrix(d, c, s)[i][i] == c + (1.0 - c) * d[i] * d[i]
  {
    assert (1.0 - c) * (d[i] * d[i]) == (1.0 - c) * d[i] * d[i];
  }

  /** One cell of the axis-angle matrix against the same cell of Rodrigues' matrix. */
  lemma AxisAngleCell(d: seq<real>, c: real, s: real, i: nat, j: nat)
    requires |d| == 3 && i < 4 && j < 4
    ensures AxisAngleMatrix(d, c, s)[i][j] == Rodrigues(d, c, s)[i][j] + SineDeviation(d, s, i, j)
  {
    var m, r := AxisAngleMatrix(d, c, s), Rodrigues(d, c, s);
    if i == 0 && j == 1 {
      assert m[0][1] == (1.0 - c) * d[0] * d[1] + s * d[1];
      assert r[0][1] == (1.0 - c) * d[0] * d[1] - s * d[2];
      assert s * d[1] == -s * d[2] + s * (d[1] + d[2]);
    } else if i == 1 && j == 2 {
      assert m[1][2] == (1.0 - c) * d[1] * d[2] + s * d[0];
      assert r[1][2] == (1.0 - c) * d[1] * d[2] - s * d[0];
    } else if i == 2 && j == 0 {
      assert m[2][0] == (1.0 - c) * d[0] * d[2] + s * d[1];
      assert r[2][0] == (1.0 - c) * d[0] * d[2] - s * d[1];
    }
  }

  /** How far cell [i][j] of the axis-angle matrix is from Rodrigues' matrix. */
  function SineDeviation(d: seq<real>, s: real, i: nat, j: nat): (r: real)
    requires |d| == 3
  {
    if i == 0 && j == 1 then s * (d[1] + d[2])
    else if i == 1 && j == 2 then 2.0 * s * d[0]
    else if i == 2 && j == 0 then 2.0 * s * d[1]
    else 0.0
  }

  /** A zero angle (c = 1, s = 0) gives the identity matrix for any axis. */
  lemma AxisAngleZeroIsIdentity(d: seq<real>)
    requires |d| == 3
    ensures AxisAngleMatrix(d, 1.0, 0.0) == Identity
  {
  }

  /** `createTranslation` assigns exactly the translation column and [3][3]. */
  lemma TranslationCells(x: real, y: real, z: real)
    ensures IsMatrix4(TranslationMatrix(x, y, z))
    ensures forall i, j | 0 <= i < 4 && 0 <= j < 4 ::
      TranslationMatrix(x, y, z)[i][j] ==
        if j == 3 && i < 3 then [x, y, z][i]
        else if i == 3 && j == 3 then 1.0
        else 0.0
  {
  }

  /** `createScaling` assigns exactly the first three diagonal cells and [3][3]. */
  lemma ScalingCells(x: real, y: real, z: real)
    ensures IsMatrix4(ScalingMatrix(x, y, z))
    ensures forall i, j | 0 <= i < 4 && 0 <= j < 4 ::
      ScalingMatrix(x, y, z)[i][j] ==
        if i == j && i < 3 then [x, y, z][i]
        else if i == 3 && j == 3 then 1.0
        else 0.0
  {
  }

  // ---------------------------------------------------------------------------
  // Properties of applying a matrix
  // ---------------------------------------------------------------------------

  /** A scaling matrix scales each coordinate of a point, under either convention. */
  lemma ScalingScalesPoint(conv: Convention, x: real, y: real, z: real, p: seq<real>)
    requires |p| == 3
    ensures ApplyToPoint(conv, ScalingMatrix(x, y, z), p) == [p[0] * x, p[1] * y, p[2] * z]
  {
    var m, v := ScalingMatrix(x, y, z), Homogeneous(p, 1.0);
    assert Entry(conv, v, m, 0) == p[0] * x;
    assert Entry(conv, v, m, 1) == p[1] * y;
    assert Entry(conv, v, m, 2) == p[2] * z;
  }

  /** A direction has homogeneous coordinate 0, so the cells it multiplies
   *  (row 3 for row vectors, column 3 for column vectors) never contribute,
   *  and only the upper-left 3x3 block matters, under either convention. */
  lemma DirectionUsesOnlyBlock(conv: Convention, m: Matrix, m': Matrix, d: seq<real>)
    requires IsMatrix4(m) && IsMatrix4(m') && |d| == 3
    requires forall i, j | 0 <= i < 3 && 0 <= j < 3 :: m[i][j] == m'[i][j]
    ensures ApplyToDirection(conv, m, d) == ApplyToDirection(conv, m', d)
  {
    var v := Homogeneous(d, 0.0);
    assert v[3] == 0.0;
    forall k | 0 <= k < 3 ensures Entry(conv, v, m, k) == Entry(conv, v, m', k) {
      assert m[0][k] == m'[0][k] && m[1][k] == m'[1][k] && m[2][k] == m'[2][k];
      assert m[k][0] == m'[k][0] && m[k][1] == m'[k][1] && m[k][2] == m'[k][2];
    }
  }

  /** A translation matrix sends every direction to (0, 0, 0), under either convention. */
  lemma TranslationNullsDirection(conv: Convention, x: real, y: real, z: real, d: seq<real>)
    requires |d| == 3
    ensures ApplyToDirection(conv, TranslationMatrix(x, y, z), d) == [0.0, 0.0, 0.0]
  {
    var t := TranslationMatrix(x, y, z);
    TranslationCells(x, y, z);
    DirectionUsesOnlyBlock(conv, t, ZeroMatrix, d);
  }

  /** A translation matrix leaves its 3x3 block zero, so it sends every point to
   *  (x, y, z) when vectors are columns and to (0, 0, 0) when they are rows. */
  lemma TranslationOfPoint(x: real, y: real, z: real, p: seq<real>)
    requires |p| == 3
    ensures ApplyToPoint(ColumnVector, TranslationMatrix(x, y, z), p) == [x, y, z]
    ensures ApplyToPoint(RowVector, TranslationMatrix(x, y, z), p) == [0.0, 0.0, 0.0]
  {
  }

  // ---------------------------------------------------------------------------
  // The transformation object
  // ---------------------------------------------------------------------------

  /** A 4x4 array read as a sequence of rows. */
  function RowsOf(a: array2<real>): (m: Matrix)
    reads a
    requires a.Length0 == 4 && a.Length1 == 4
    ensures IsMatrix4(m)
    ensures forall i, j | 0 <= i < 4 && 0 <= j < 4 :: m[i][j] == a[i, j]
  {
    [[a[0, 0], a[0, 1], a[0, 2], a[0, 3]],
     [a[1, 0], a[1, 1], a[1, 2], a[1, 3]],
     [a[2, 0], a[2, 1], a[2, 2], a[2, 3]],
     [a[3, 0], a[3, 1], a[3, 2], a[3, 3]]]
  }

  class Transformation {
    /** The 4x4 transformation matrix. */
    const transformMat: array2<real>

    predicate Valid()
    {
      transformMat.Length0 == TransformationDimension && transformMat.Length1 == TransformationDimension
    }

    /** The matrix as a sequence of rows. */
    function Cells(): (m: Matrix)
      reads transformMat
      requires Valid()
      ensures IsMatrix4(m)
    {
      RowsOf(transformMat)
    }

    /** The default constructor: every cell 0. */
    constructor Default()
      ensures Valid() && fresh(transformMat)
      ensures Cells() == ZeroMatrix
    {
      transformMat := new real[4, 4]((i, j) => 0.0);
    }

    /** Construction from a quaternion, through its real and imaginary parts. */
    constructor FromQuaternion(q: Quaternion)
      requires q.Valid()
      ensures Valid() && fresh(transformMat)
      ensures Cells() == QuaternionMatrix(q.Value())
    {
      var reel := Re(q.Value());
      var img := Im(q.Value());
      var m := NewBlockMatrix(reel, img);
      transformMat := m;
    }

    /** A fresh 4x4 array holding `BlockMatrix(reel, img)`. */
    static method NewBlockMatrix(reel: real, img: seq<real>) returns (m: array2<real>)
      requires |img| == 3
      ensures fresh(m) && m.Length0 == 4 && m.Length1 == 4
      ensures RowsOf(m) == BlockMatrix(reel, img)
    {
      var expected := BlockMatrix(reel, img);
      m := new real[4, 4]((i, j) => 0.0);

      m[0, 0] := 1.0 - 2.0 * img[1] * img[1] - 2.0 * img[2] * img[2];
      m[0, 1] := 2.0 * img[0] * img[1] - 2.0 * reel * img[2];
      m[0, 2] := 2.0 * img[0] * img[2] + 2.0 * reel * img[1];

      m[1, 0] := 2.0 * img[0] * img[1] + 2.0 * reel * img[2];
      m[1, 1] := 1.0 - 2.0 * img[0] * img[0] - 2.0 * img[2] * img[2];
      m[1, 2] := 2.0 * img[1] * img[2] - 2.0 * reel * img[0];

      m[2, 0] := 2.0 * img[0] * img[2] - 2.0 * reel * img[1];
      m[2, 1] := 2.0 * img[1] * img[2] + 2.0 * reel * img[0];
      m[2, 2] := 1.0 - 2.0 * img[0] * img[0] - 2.0 * img[1] * img[1];

      m[3, 3] := 1.0;
      assert RowsOf(m)[0] == expected[0];
      assert RowsOf(m)[1] == expected[1];
      assert RowsOf(m)[2] == expected[2];
      assert RowsOf(m)[3] == expected[3];
    }

    /** Construction from a rotation axis `d` and the cosine `c` and sine `s`
     *  of the angle. */
    constructor FromAxisAngle(d: seq<real>, c: real, s: real)
      requires |d| == 3
      ensures Valid() && fresh(transformMat)
      ensures Cells() == AxisAngleMatrix(d, c, s)
    {
      var m := NewAxisAngleMatrix(d, c, s);
      transformMat := m;
    }

    /** A fresh 4x4 array holding `AxisAngleMatrix(d, c, s)`. */
    static method NewAxisAngleMatrix(d: seq<real>, c: real, s: real) returns (m: array2<real>)
      requires |d| == 3
      ensures fresh(m) && m.Length0 == 4 && m.Length1 == 4
      ensures RowsOf(m) == AxisAngleMatrix(d, c, s)
    {
      var expected := AxisAngleMatrix(d, c, s);
      m := new real[4, 4]((i, j) => 0.0);

      m[0, 0] := c + (1.0 - c) * (d[0] * d[0]);
      m[0, 1] := (1.0 - c) * d[0] * d[1] + s * d[1];
      m[0, 2] := (1.0 - c) * d[0] * d[2] + s * d[1];

      m[1, 0] := (1.0 - c) * d[0] * d[1] + s * d[2];
      m[1, 1] := c + (1.0 - c) * (d[1] * d[1]);
      m[1, 2] := (1.0 - c) * d[1] * d[2] + s * d[0];

      m[2, 0] := (1.0 - c) * d[0] * d[2] + s * d[1];
      m[2, 1] := (1.0 - c) * d[1] * d[2] + s * d[0];
      m[2, 2] := c + (1.0 - c) * (d[2] * d[2]);

      m[3, 3] := 1.0;
      assert RowsOf(m)[0] == expected[0];
      assert RowsOf(m)[1] == expected[1];
      assert RowsOf(m)[2] == expected[2];
      assert RowsOf(m)[3] == expected[3];
    }

    /** `createTranslation(x, y, z)`. */
    static method CreateTranslation(x: real, y: real, z: real) returns (t: Transformation)
      ensures t.Valid() && fresh(t.transformMat)
      ensures t.Cells() == TranslationMatrix(x, y, z)
    {
      t := new Transformation.Default();
      t.transformMat[0, 3] := x;
      t.transformMat[1, 3] := y;
      t.transformMat[2, 3] := z;
      t.transformMat[3, 3] := 1.0;
    }

    /** `createScaling(x, y, z)`. */
    static method CreateScaling(x: real, y: real, z: real) returns (t: Transformation)
      ensures t.Valid() && fresh(t.transformMat)
      ensures t.Cells() == ScalingMatrix(x, y, z)
    {
      t := new Transformation.Default();
      t.transformMat[0, 0] := x;
      t.transformMat[1, 1] := y;
      t.transformMat[2, 2] := z;
      t.transformMat[3, 3] := 1.0;
    }

    /** `transform(Point)`: like the source, the method reassigns a local
     *  homogeneous vector `v` to its product with the matrix; `ApplyToPoint`
     *  is the same computation as a function, about which the lemmas speak. */
    method TransformPoint(conv: Convention, p: seq<real>) returns (r: seq<real>)
      requires Valid() && |p| == 3
      ensures r == ApplyToPoint(conv, Cells(), p)
    {
      var v := [p[0], p[1], p[2], 1.0];
      v := Multiply(conv, v, Cells());
      r := [v[0], v[1], v[2]];
    }

    /** `transform(Direction)`: the local `v` is reassigned as in `TransformPoint`,
     *  with homogeneous coordinate 0; `ApplyToDirection` is its function form. */
    method TransformDirection(conv: Convention, d: seq<real>) returns (r: seq<real>)
      requires Valid() && |d| == 3
      ensures r == ApplyToDirection(conv, Cells(), d)
    {
      var v := [d[0], d[1], d[2], 0.0];
      v := Multiply(conv, v, Cells());
      r := [v[0], v[1], v[2]];
    }

    /** `transform(Sphere)`: the centre is transformed as a point, the radius is kept. */
    method TransformSphere(conv: Convention, s: Sphere) returns (r: Sphere)
      requires Valid() && |s.center| == 3
      ensures r.center == ApplyToPoint(conv, Cells(), s.center)
      ensures r.radius == s.radius
    {
      var center := TransformPoint(conv, s.center);
      r := Sphere(center, s.radius);
    }
  }
}
