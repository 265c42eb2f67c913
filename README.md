# vector — a verified model

The Go package `vector` offers basic Euclidean vector operations on a
`Vector`, a slice of `float64` of any length (zero included):

- the magnitude;
- element-wise addition, subtraction, multiplication and division;
- the dot product;
- the cross product, which exists only for 3-dimensional vectors.

Shape errors are reported with two sentinel errors:

- `ErrDiffSizes`: the operands' lengths differ;
- `ErrAvailableOnly3Dim`: an operand of the cross product does not have length 3.

On an error every operation returns a zero result (`nil`, or `0` for the dot
product), never a partial one.

The model has four modules:

- `VectorErrors` (errors.dfy) holds the two errors as the constructors of
  `VecError`. It also holds `Result`: `Success(value)` is a result with a nil
  error, and `Failure(error)` is the zero result paired with that error.
- `VectorSpec` (vector_spec.dfy) holds reference definitions over sequences of
  reals:
  - `ZipWith`: the vector an element-wise loop builds;
  - `Dot`: the dot product as a left fold;
  - `SumSquares`: the sum under Magnitude's square root;
  - `Total`: the sum of a sequence.

  It also holds the algebraic laws proved about these definitions.
- `VectorOps` (vector.dfy) holds the operations. The loops of `Magnitude`,
  `Add`, `Subtract`, `Multiply`, `Divide` and `DotProduct` are methods over
  `array<real>` with loop invariants. Each method is proved against the
  reference definitions. None of them has a `modifies` clause, so none can
  write to its operands, and the element-wise ones return a `fresh` array.
  `CrossProduct` is a pure function on sequence values.
- `VectorScenarios` (scenarios.dfy) restates the package's test scenarios as
  calls whose outcome follows from the methods' contracts and, for the cross
  product, from its body, which is the package's formula. For example, `[1,2]·[2,3] = 8`,
  `[1,2,3]×[2,3,4] = [-1,2,-1]`, and every mismatch case fails with its error.

`float64` is modelled by `real`.

## Model

| member | source | states |
|---|---|---|
| VectorOps.SquaredMagnitude | vector.go:18-22 | The loop's sum equals the sum of squares of the elements and equals the vector's dot product with itself. It is never negative, and it is zero exactly when every element is zero. |
| VectorOps.Add | vector.go:27-38 | It fails with DiffSizes exactly when the lengths differ. Otherwise it returns a fresh vector whose element i is v1[i] + v2[i], for every index. The operands are unchanged. |
| VectorOps.Subtract | vector.go:41-52 | It fails with DiffSizes exactly when the lengths differ. Otherwise it returns a fresh vector whose element i is v1[i] - v2[i], for every index. The operands are unchanged. |
| VectorOps.Multiply | vector.go:55-66 | It fails with DiffSizes exactly when the lengths differ. Otherwise it returns a fresh vector whose element i is v1[i] * v2[i], for every index. The operands are unchanged. |
| VectorOps.Divide | vector.go:69-80 | It fails with DiffSizes exactly when the lengths differ. Otherwise it returns a fresh vector of the same length in which every element with a non-zero divisor is v1[i] / v2[i]. When no divisor is zero, the result is the whole element-wise quotient. The operands are unchanged. |
| VectorOps.DotProduct | vector.go:82-93 | It fails with DiffSizes exactly when the lengths differ; Failure stands for the 0 returned beside the error. Otherwise it returns the left-to-right sum of v1[i] * v2[i]. |
| VectorOps.CrossProduct | vector.go:97-107 | It fails with Only3Dim exactly when either operand's length is not 3. Otherwise it returns a 3-vector orthogonal to both operands: its dot product with each of them is zero. |
| VectorOps.CrossProductAntiCommutes | vector.go:102-106 | Swapping the operands does not change whether the cross product fails. On success, swapping them negates every component. |
| VectorOps.CrossProductOfItself | vector.go:102-106 | The cross product of a 3-vector with itself is the zero vector. |
| VectorSpec.ZipWith | vector.go:33-37 | The vector built one element per step has the operands' length, and element i is the operator applied to the operands' elements i. |
| VectorSpec.ZipWithCommutes | vector.go:35 | Element-wise addition and multiplication do not depend on the order of their operands. |
| VectorSpec.SubtractThenAdd | vector.go:47-51 | Subtracting b and then adding b gives back the original vector, so Add undoes Subtract. |
| VectorSpec.DivideThenMultiply | vector.go:75-79 | Dividing by a vector with no zero element and then multiplying by it gives back the original vector, so Multiply undoes Divide. |
| VectorSpec.DotCommutes | vector.go:88-92 | The dot product does not depend on the order of its operands. |
| VectorSpec.DotIsTotalOfProducts | vector.go:88-92 | The dot product is the sum of the element-wise product that Multiply computes. |
| VectorSpec.DotDistributesOverPlus | vector.go:88-92 | The dot product of an element-wise sum with c is the sum of the two dot products with c. |
| VectorSpec.SumSquaresIsDot | vector.go:19-22 | Magnitude's sum of squares equals the dot product of the vector with itself. |
| VectorSpec.DotOfSameSigns | vector.go:88-92 | When two vectors agree in sign at every index, their dot product is non-negative. It is zero exactly when the first vector is all zeros. |
| VectorSpec.SumSquaresZeroIff | vector.go:19-22 | The sum of squares is never negative, and it is zero exactly when every element is zero. |

## Left out

- VectorOps.SquaredMagnitude: it stops at the sum of squares. `math.Sqrt` (vector.go:23) is a foreign floating-point call and is not modelled. The magnitude is the square root of this sum, so the sum's sign and zero facts carry over to it.
- VectorOps.Divide: Go divides unguarded, so a zero divisor gives an infinity or NaN, and no error. No real stands for those values, so for a zero divisor the model leaves that element as allocated and states nothing about it. No error kind is added for this case.
- IEEE-754 `float64` rounding, overflow and special values are not modelled. Every operation is stated over exact reals. The sums are still left folds in the loops' order, but exact reals do not depend on that order.
- The sentinel errors are global values compared by identity (vector.go:8-13). The model makes them the constructors of a datatype, and their message text is not modelled.
- A `nil` Vector operand is modelled as an array of length 0, which is how Go's `len` and `range` treat it.
- VectorOps.CrossProduct takes and returns sequence values rather than slices. The Go code builds its result as a fresh literal and never writes to its operands, so no aliasing is lost.
- The Ginkgo/Gomega test harness (vector_test.go:3-14) is not modelled. Its scenarios appear in `VectorScenarios` as assertions.
