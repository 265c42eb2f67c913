/** The package's test scenarios, restated as calls whose outcome follows
    from the contracts of VectorOps and, for the cross product, from the
    function's body, which is the package's formula. */
module VectorScenarios {
  import opened VectorErrors
  import opened VectorSpec
  import opened VectorOps

  /** <3, 4> has squared magnitude 25, the square of the expected 5. */
  method MagnitudeOfThreeFour() {
    var v := new real[] [3.0, 4.0];
    var sum := SquaredMagnitude(v);
    assert v[..] == [3.0, 4.0];
    assert [3.0, 4.0][..1] == [3.0];
    assert sum == 25.0 == 5.0 * 5.0;
  }

  method ElementWise() {
    var a := new real[] [2.0, 2.0];
    var b := new real[] [3.0, 3.0];
    var c := new real[] [5.0, 5.0];
    var d := new real[] [6.0, 6.0];

    var sum := Add(a, b);
    assert sum.Success? && sum.value[..] == [5.0, 5.0];
    var diff := Subtract(c, b);
    assert diff.Success? && diff.value[..] == [2.0, 2.0];
    var prod := Multiply(a, b);
    assert prod.Success? && prod.value[..] == [6.0, 6.0];
    var quot := Divide(d, b);
    assert quot.Success? && quot.value[..] == [2.0, 2.0];
  }

  /** Operands of lengths 2 and 3 are refused with DiffSizes by every
      element-wise operation and by the dot product. */
  method DifferentSizes() {
    var a := new real[] [0.0, 0.0];
    var b := new real[] [0.0, 0.0, 0.0];

    var sum := Add(a, b);
    assert sum == Failure(DiffSizes);
    var diff := Subtract(a, b);
    assert diff == Failure(DiffSizes);
    var prod := Multiply(a, b);
    assert prod == Failure(DiffSizes);
    var quot := Divide(a, b);
    assert quot == Failure(DiffSizes);
    var dot := DotProduct(a, b);
    assert dot == Failure(DiffSizes);
  }

  method DotOfOneTwoAndTwoThree() {
    var a := new real[] [1.0, 2.0];
    var b := new real[] [2.0, 3.0];
    var dot := DotProduct(a, b);
    assert a[..] == [1.0, 2.0] && b[..] == [2.0, 3.0];
    assert [1.0, 2.0][..1] == [1.0] && [2.0, 3.0][..1] == [2.0];
    assert dot == Success(8.0);
  }

  method Cross() {
    assert CrossProduct([1.0, 2.0, 3.0], [2.0, 3.0, 4.0]) == Success([-1.0, 2.0, -1.0]);
    assert CrossProduct([0.0, 0.0, 0.0], [0.0, 0.0, 0.0, 0.0]) == Failure(Only3Dim);
  }
}
