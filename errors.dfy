/** The package's two sentinel errors and the shape of what its operations return. */
module VectorErrors {

  /** DiffSizes: the two operands have different lengths.
      Only3Dim: an operand of the cross product is not 3-dimensional. */
  datatype VecError = DiffSizes | Only3Dim

  /** Success carries the computed value with a nil error.
      Failure carries the error; it stands for the zero value the operation
      returns beside it (a nil vector, or 0 for the dot product). */
  datatype Result<T> = Success(value: T) | Failure(error: VecError)
}
