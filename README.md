# GraphicEngine geometry core in Dafny

This project models the exact algebra behind GraphicEngine's three geometric value types. The element type `T` is taken as `real`, so floating-point rounding is not modelled.

- **`math::Vector<T, size>`** (module `Vectors`, `vectors.dfy`) is a class over a fixed-size `array<real>`.
  - Indexing is bounds-checked.
  - `cross` fails below three components.
  - The value-returning operators (`+`, `-`, unary `-`, scalar `*`) fill a fresh vector in a loop.
  - The dot product accumulates a sum in a loop.
  - `+=` and `-=` overwrite the buffer in place.
  - Each loop is proved against a specification function on component sequences: `Plus`, `Minus`, `Negated`, `Scaled` and `DotProduct`. `cross` has no loop; its three writes are proved against `CrossProduct`.
- **`geometry::Quaternion<T>`** (module `Quaternions`, `quaternions.dfy`) has two parts.
  - The value type `Quat(w, x, y, z)` carries the pure operations: conjugate, real and imaginary parts, componentwise and scalar arithmetic, `==`, `rotate(Direction)` and the product.
  - The class `Quaternion` owns a member `Vector` of length 4. Its compound assignments (`+=`, `-=`, `*=`) overwrite that vector in place. Each one is proved to leave the quaternion equal to the matching value-returning operator applied to the old value.
  - The product is modelled exactly as written. Its x′ component is `w1x2 + x1w2 + y1z2 + z1y2`; Hamilton's product subtracts the last term. `Hamilton` is kept as a reference definition, and `ProductVersusHamilton` states exactly where the two differ. `ProductNotAssociative` shows that the product as written is not associative.
- **`geometry::Transformation<T>`** (module `Transformations`, `transformations.dfy`) is a class over a 4x4 `array2<real>`. Cells that no constructor assigns hold 0.
  - The quaternion constructor and the axis-angle constructor write the 3x3 block cell by cell. So do `createTranslation` and `createScaling` for their cells.
  - `transform` multiplies a homogeneous 4-vector by the matrix. A point gets 4th coordinate 1 and a direction gets 0. A sphere is transformed through its centre.
  - The vector-times-matrix product belongs to `math::Matrix`, which is not part of this model. `Multiply` therefore takes a `Convention`: `RowVector` (`v * M` with `v` as a row) or `ColumnVector` (`M * v`). Properties that hold under both are proved for both.
  - Cosine and sine are inputs `c` and `s`.
  - Where the quaternion constructor uses `re`, it means the local `reel` read from `q.re()`. This is modelled as `BlockMatrix(reel, img)`.

The code has two index errors, and the model keeps them apart:
- `at(i)` goes through `std::array::at`, which fails with `OutOfRange`.
- `operator[]` throws the literal "Index out of array", modelled as `IndexOutOfArray`.

Throws are modelled as `Result`/`Outcome` values carrying a `VectorError`.

## Model

| member | source | states |
|---|---|---|
| Vectors.Vector.At | src/Vector.hpp:19 | `at(i)` succeeds exactly when `i < size`, with the component `vec[i]`; past the end it fails with `OutOfRange` |
| Vectors.Vector.Get | src/Vector.hpp:70-76 | read `operator[]` succeeds exactly when `i < size`, with `vec[i]`; otherwise it fails with `IndexOutOfArray` |
| Vectors.Vector.Set | src/Vector.hpp:78-84 | write through `operator[]`: for `i < size` only component `i` becomes `x`; for `i >= size` it fails with `IndexOutOfArray` and the buffer is unchanged |
| Vectors.AtAgreesWithIndex | src/Vector.hpp:70-76 | `at(i)` and `operator[](i)` succeed for the same indices and return the same component |
| Vectors.Vector.Cross | src/Vector.hpp:21-33 | fails with `InvalidDimension` exactly when `size < 3`; otherwise the result has the same size and components 0..2 are `(a1b2-a2b1, a2b0-a0b2, a0b1-a1b0)` |
| Vectors.CrossSelfZero | src/Vector.hpp:28-30 | `u x u` is the zero vector |
| Vectors.CrossAntiCommutative | src/Vector.hpp:28-30 | `u x v` is the negation of `v x u` |
| Vectors.Vector.Add | src/Vector.hpp:86-96 | binary `+` returns a fresh vector whose components are the componentwise sums |
| Vectors.Vector.AddAssign | src/Vector.hpp:98-106 | `+=` leaves the receiver equal to old receiver plus old `v`, and `v` unchanged unless it is the receiver |
| Vectors.Vector.Negate | src/Vector.hpp:108-116 | unary `-` returns a fresh vector with every component negated |
| Vectors.Vector.Subtract | src/Vector.hpp:118-126 | binary `-` returns a fresh vector whose components are the componentwise differences |
| Vectors.SubIsAddNegated | src/Vector.hpp:108-126 | `a - b` equals `a + (-b)` |
| Vectors.Vector.SubtractAssign | src/Vector.hpp:128-134 | `-=` leaves the receiver equal to old receiver minus old `v`, and `v` unchanged unless it is the receiver |
| Vectors.MinusUndoesPlus | src/Vector.hpp:98-134 | subtracting `b` after adding it gives back the original components |
| Vectors.Vector.Scale | src/Vector.hpp:136-146 | `v * scalar` returns a fresh vector with every component multiplied by `scalar` |
| Vectors.ScalarTimes | src/Vector.hpp:160-163 | `scalar * v` yields the same components as `v * scalar` |
| Vectors.Vector.Dot | src/Vector.hpp:148-158 | the loop's sum equals the sum of pairwise products of all components |
| Vectors.DotSymmetric | src/Vector.hpp:148-158 | the dot product is symmetric in its operands |
| Vectors.Vector.IsOrtho | src/Vector.hpp:35-38 | `is_ortho(v)` holds exactly when the dot product is zero |
| Vectors.UnitAxesOrthogonal | src/Vector.hpp:35-38 | the x and y unit axes have dot product zero |
| Quaternions.Im | include/geometry/Quaternion.hpp:85-90 | `im()` has `IMAGINARY_PART_DIMENSION` components: members 1 to 3, `(x, y, z)` |
| Quaternions.Re | include/geometry/Quaternion.hpp:106-109 | `re()` is member 0 of the member vector |
| Quaternions.MembersSplitReIm | include/geometry/Quaternion.hpp:85-109 | the member vector is `re()` followed by the three components of `im()` |
| Quaternions.Members | include/geometry/Quaternion.hpp:111-114 | `getMembers()` has `QUATERNION_DIMENSION` components, and the quaternion built from them is the original one |
| Quaternions.MembersRoundTrip | include/geometry/Quaternion.hpp:111-114 | a quaternion and its member vector (`getMembers`) determine each other |
| Quaternions.Quaternion.constructor | include/geometry/Quaternion.hpp:41-44 | the quaternion built from a member vector holds exactly those four members |
| Quaternions.AxisAngle | include/geometry/Quaternion.hpp:52-60 | with cosine `c` and sine `s`, the real part is `c` and the imaginary part is the axis scaled by `s` |
| Quaternions.Quaternion.FromAxisAngle | include/geometry/Quaternion.hpp:52-60 | the constructor writes `(c, d0*s, d1*s, d2*s)` into a fresh member vector |
| Quaternions.AxisAngleZeroIsOne | include/geometry/Quaternion.hpp:52-60 | `c = 1`, `s = 0` gives `(1, 0, 0, 0)` for every axis |
| Quaternions.AxisAngleHalfTurnZ | include/geometry/Quaternion.hpp:52-60 | `c = 0`, `s = 1` about the z axis gives `(0, 0, 0, 1)` |
| Quaternions.Conjugate | include/geometry/Quaternion.hpp:67-70 | the conjugate keeps the real part and negates the imaginary part |
| Quaternions.ConjugateInvolutive | include/geometry/Quaternion.hpp:67-70 | conjugating twice gives back the original quaternion |
| Quaternions.RotateDirection | include/geometry/Quaternion.hpp:144-147 | `rotate(d)` scales direction component `i` by member `i`, giving `(d0*w, d1*x, d2*y)` |
| Quaternions.RotateDirectionOfOne | include/geometry/Quaternion.hpp:144-147 | `rotate(d)` is not a rotation: the identity quaternion maps `d` to `(d0, 0, 0)` instead of leaving it unchanged |
| Quaternions.RotateDirectionIgnoresZ | include/geometry/Quaternion.hpp:144-147 | `rotate(d)` does not depend on the member z: changing z leaves the result unchanged |
| Quaternions.AddScalar | include/geometry/Quaternion.hpp:164-170 | `q + s` adds `s` to the real part and leaves the imaginary part unchanged |
| Quaternions.SubScalar | include/geometry/Quaternion.hpp:190-196 | `q - s` subtracts `s` from the real part and leaves the imaginary part unchanged |
| Quaternions.ScalarPlus | include/geometry/Quaternion.hpp:368-375 | the friend `s + q` equals `q + s` |
| Quaternions.ScalarMinus | include/geometry/Quaternion.hpp:377-384 | the friend `s - q` equals `q - s`: the real part becomes `w - s`, not `s - w` |
| Quaternions.SubScalarUndoesAddScalar | include/geometry/Quaternion.hpp:164-196 | subtracting a scalar undoes adding it |
| Quaternions.Add | include/geometry/Quaternion.hpp:177-183 | `p + q` is the componentwise sum of the four members |
| Quaternions.Sub | include/geometry/Quaternion.hpp:203-209 | `p - q` is the componentwise difference of the four members |
| Quaternions.Neg | include/geometry/Quaternion.hpp:228-231 | unary `-` negates all four members |
| Quaternions.SubProperties | include/geometry/Quaternion.hpp:203-231 | `q - q` is zero and `p - q` equals `p + (-q)` |
| Quaternions.Scale | include/geometry/Quaternion.hpp:238-244 | `q * s` multiplies all four members by `s` |
| Quaternions.Div | include/geometry/Quaternion.hpp:265-271 | for a non-zero scalar, `q / s` multiplies all four members by `1/s` |
| Quaternions.DivUndoesScale | include/geometry/Quaternion.hpp:238-271 | dividing by a non-zero scalar undoes multiplying by it |
| Quaternions.Equal | include/geometry/Quaternion.hpp:216-222 | `==` holds exactly when all four members are equal |
| Quaternions.EqualProperties | include/geometry/Quaternion.hpp:216-222 | `==` is reflexive and fails as soon as one member differs |
| Quaternions.Product | include/geometry/Quaternion.hpp:251-257 | `operator*` as written, with x′ = `w1x2 + x1w2 + y1z2 + z1y2`; its properties are stated by `ProductVersusHamilton`, `ProductIdentity` and `ProductNotAssociative` |
| Quaternions.ProductVersusHamilton | include/geometry/Quaternion.hpp:251-257 | the product as written agrees with Hamilton's in w', y' and z'; in x' it exceeds Hamilton's by `2*z1*y2` |
| Quaternions.ProductIdentity | include/geometry/Quaternion.hpp:251-257 | `(1, 0, 0, 0)` is a left and right identity of the product as written |
| Quaternions.ProductNotAssociative | include/geometry/Quaternion.hpp:251-257 | the product as written gives `k*j = j*k = i`, where Hamilton's gives `k*j = -i`; `(k*j)*j = k` but `k*(j*j) = -k`, so it is not associative |
| Quaternions.Quaternion.AddScalarAssign | include/geometry/Quaternion.hpp:278-283 | `+= s` leaves the quaternion equal to old value `+ s` |
| Quaternions.Quaternion.AddAssign | include/geometry/Quaternion.hpp:290-298 | `+= q` leaves the receiver equal to old receiver `+` old `q`, and `q` unchanged unless it shares the members |
| Quaternions.Quaternion.SubScalarAssign | include/geometry/Quaternion.hpp:305-310 | `-= s` leaves the quaternion equal to old value `- s` |
| Quaternions.Quaternion.SubAssign | include/geometry/Quaternion.hpp:317-325 | `-= q` leaves the receiver equal to old receiver `-` old `q`, and `q` unchanged unless it shares the members |
| Quaternions.Quaternion.ScaleAssign | include/geometry/Quaternion.hpp:332-340 | `*= s` leaves the quaternion equal to old value `* s` |
| Quaternions.Quaternion.MulAssign | include/geometry/Quaternion.hpp:347-356 | `*= q` leaves the receiver equal to the product of the old values, even when `q` is the receiver; `q` is otherwise unchanged |
| Transformations.Transformation.Default | include/geometry/Transformation.hpp:25-28 | the default transformation's matrix is all zeros |
| Transformations.Transformation.FromQuaternion | include/geometry/Transformation.hpp:35-53 | the matrix is the rotation block computed from `re()` and `im()` of the quaternion, with `[3][3] = 1` and every other border cell 0 |
| Transformations.Transformation.NewBlockMatrix | include/geometry/Transformation.hpp:40-52 | the nine block cells hold the formulas in the real part `reel` and the imaginary part `img`, `[3][3]` is 1 and the rest is 0 |
| Transformations.QuaternionMatrixOfOne | include/geometry/Transformation.hpp:35-53 | the quaternion `(1, 0, 0, 0)` gives the identity matrix |
| Transformations.QuaternionMatrixSymmetry | include/geometry/Transformation.hpp:40-50 | `M[i][j] + M[j][i]` is `4xy`, `4xz` or `4yz`, so it depends only on the imaginary part; with `w = 0` the matrix is symmetric |
| Transformations.Transformation.FromAxisAngle | include/geometry/Transformation.hpp:60-78 | the matrix is the axis-angle block with the sine terms as written, `[3][3] = 1`, every other border cell 0 |
| Transformations.Transformation.NewAxisAngleMatrix | include/geometry/Transformation.hpp:65-77 | the nine block cells hold the axis-angle formulas in `c`, `s` and the axis, `[3][3]` is 1 and the rest is 0 |
| Transformations.AxisAngleVersusRodrigues | include/geometry/Transformation.hpp:65-75 | the diagonal is `c + (1-c)*d_i^2`; every cell equals Rodrigues' rotation matrix except `[0][1]`, `[1][2]` and `[2][0]`, which differ by `s*(d1+d2)`, `2*s*d0` and `2*s*d1` |
| Transformations.AxisAngleDiagonal | include/geometry/Transformation.hpp:65-75 | diagonal cell `i` of the axis-angle block is `c + (1-c)*d_i^2` |
| Transformations.AxisAngleCell | include/geometry/Transformation.hpp:65-75 | one cell of the axis-angle block against the same cell of Rodrigues' matrix |
| Transformations.AxisAngleZeroIsIdentity | include/geometry/Transformation.hpp:60-78 | `c = 1`, `s = 0` gives the identity matrix for any axis |
| Transformations.Transformation.CreateTranslation | include/geometry/Transformation.hpp:153-164 | the matrix is the translation matrix, starting from an all-zero default |
| Transformations.TranslationCells | include/geometry/Transformation.hpp:153-164 | the translation matrix assigns exactly `[0][3]`, `[1][3]`, `[2][3]` to `x, y, z` and `[3][3]` to 1; every other cell is 0 |
| Transformations.Transformation.CreateScaling | include/geometry/Transformation.hpp:173-184 | the matrix is the scaling matrix, starting from an all-zero default |
| Transformations.ScalingCells | include/geometry/Transformation.hpp:173-184 | the scaling matrix assigns exactly `[0][0]`, `[1][1]`, `[2][2]` to `x, y, z` and `[3][3]` to 1; every other cell is 0 |
| Transformations.Multiply | include/geometry/Transformation.hpp:114 | `v * transformMat` under an explicit row or column convention gives a 4-vector |
| Transformations.MultiplyIdentity | include/geometry/Transformation.hpp:141 | under either convention, multiplying a 4-vector by the identity matrix returns it unchanged |
| Transformations.Transformation.TransformPoint | include/geometry/Transformation.hpp:110-117 | the result is the first three components of `(p0, p1, p2, 1)` times the matrix |
| Transformations.ScalingScalesPoint | include/geometry/Transformation.hpp:110-117 | under either convention, a scaling matrix maps `(a, b, c)` to `(a*x, b*y, c*z)` |
| Transformations.TranslationOfPoint | include/geometry/Transformation.hpp:110-117 | a translation matrix maps every point to `(x, y, z)` with column vectors and to `(0, 0, 0)` with row vectors, since its 3x3 block is zero |
| Transformations.Transformation.TransformDirection | include/geometry/Transformation.hpp:137-144 | the result is the first three components of `(d0, d1, d2, 0)` times the matrix |
| Transformations.DirectionUsesOnlyBlock | include/geometry/Transformation.hpp:137-144 | under either convention, two matrices with the same 3x3 block transform every direction the same way |
| Transformations.TranslationNullsDirection | include/geometry/Transformation.hpp:137-144 | under either convention, a translation matrix sends every direction to `(0, 0, 0)` |
| Transformations.Transformation.TransformSphere | include/geometry/Transformation.hpp:124-130 | the centre is transformed as a point and the radius is unchanged |

## Left out

- `norme`, `is_unit` and `to_unit` (src/Vector.hpp:48-68) are not modelled. They rely on `sqrt` over floats, and `to_unit` has no return statement.
- `is_null` (src/Vector.hpp:40-46) is not modelled. It is a NaN test, which has no meaning over `real`.
- `Quaternion::norm`, `to_norm` and `inverse` (include/geometry/Quaternion.hpp:76-100, 120-123) are not modelled. They depend on the square-root norm, which `math::Vector` does not define as called.
- `rotate(Point)` and `rotate(Plane)` (include/geometry/Quaternion.hpp:130-137, 154-157) are not modelled. They depend on `Point` and `Plane`, which are not part of this model, and do not type-check as written.
- `concat` (include/geometry/Transformation.hpp:85-103) is not modelled. It has no return statement, so its result is undefined.
- The stream output operators (include/geometry/Quaternion.hpp:386-391, include/geometry/Transformation.hpp:189-197) are text I/O and are not modelled.
- Trigonometry and degree conversion are not modelled: `PI`, `deg2rad`, `std::sin`, `std::cos` and `ROUND`. The constructors take the cosine and sine as inputs `c` and `s`.
- Floating-point rounding, NaN and infinities are not modelled. Every element is a mathematical `real`.
- Quaternions.Div: requires a non-zero scalar. The source divides anyway and yields infinities or NaN.
- Vectors.Vector.Cross: states only components 0..2 of the result. The source leaves components 3 and up of a larger vector uninitialised; the model sets them to 0.
- Vectors.Vector.Dot: starts the sum at 0. The source leaves `somme` uninitialised.
- A default-constructed `Vector` has indeterminate contents in the source; the default contents of a `Transformation` are unknown, because `math::Matrix` is not part of this model. The model takes every component and every cell as 0.
- `math::Matrix`, `Point`, `Direction`, `Plane` and `Sphere` are not part of this model. Points and directions are 3-element sequences, a matrix is a 4x4 array, and the vector-times-matrix product is a function with an explicit row-or-column `Convention`.
- The template parameter `size` is the fixed length of the vector's buffer. Operations on two vectors require equal lengths, which the C++ type system enforces.
