/** The operations of the vector package. A Vector is a slice of float64
    values, modelled as an array of reals. No method here has a modifies
    clause, so none of them can write to the vectors it is given; the
    element-wise ones write only into an array they allocate themselves. */
module VectorOps {
  import opened VectorErrors
  import opened VectorSpec

  type Vector = array<real>

  /** The loop of Magnitude: the squares of the elements summed left to right.
      Magnitude hands this sum to a square root, which is not modelled. */
  method SquaredMagnitude(vec: Vector) returns (sum: real)
    ensures sum == SumSquares(vec[..])
    ensures sum == Dot(vec[..], vec[..])
    ensures sum >= 0.0
    ensures sum == 0.0 <==> forall i :: 0 <= i < vec.Length ==> vec[i] == 0.0
  {
    sum := 0.0;
    for i := 0 to vec.Length
      invariant sum == SumSquares(vec[..i])
    {
      assert vec[..i + 1][..i] == vec[..i];
      sum := sum + vec[i] * vec[i];
    }
    assert vec[..vec.Length] == vec[..];
    SumSquaresIsDot(vec[..]);
    SumSquaresZeroIff(vec[..]);
  }

  method Add(v1: Vector, v2: Vector) returns (r: Result<Vector>)
    ensures r.Failure? <==> v1.Length != v2.Length
    ensures r.Failure? ==> r.error == DiffSizes
    ensures r.Success? ==> fresh(r.value) && r.value[..] == ZipWith(Plus, v1[..], v2[..])
    ensures unchanged(v1, v2)
  {
    var n := v1.Length;
    if n != v2.Length {
      return Failure(DiffSizes);
    }
    var res := new real[n];
    for i := 0 to n
      invariant res[..i] == ZipWith(Plus, v1[..i], v2[..i])
    {
      res[i] := v1[i] + v2[i];
      assert v1[..i + 1][..i] == v1[..i] && v2[..i + 1][..i] == v2[..i];
      assert res[i] == Combine(Plus, v1[i], v2[i]);
    }
    assert v1[..n] == v1[..] && v2[..n] == v2[..] && res[..n] == res[..];
    return Success(res);
  }

  method Subtract(v1: Vector, v2: Vector) returns (r: Result<Vector>)
    ensures r.Failure? <==> v1.Length != v2.Length
    ensures r.Failure? ==> r.error == DiffSizes
    ensures r.Success? ==> fresh(r.value) && r.value[..] == ZipWith(Minus, v1[..], v2[..])
    ensures unchanged(v1, v2)
  {
    var n := v1.Length;
    if n != v2.Length {
      return Failure(DiffSizes);
    }
    var res := new real[n];
    for i := 0 to n
      invariant res[..i] == ZipWith(Minus, v1[..i], v2[..i])
    {
      res[i] := v1[i] - v2[i];
      assert v1[..i + 1][..i] == v1[..i] && v2[..i + 1][..i] == v2[..i];
      assert res[i] == Combine(Minus, v1[i], v2[i]);
    }
    assert v1[..n] == v1[..] && v2[..n] == v2[..] && res[..n] == res[..];
    return Success(res);
  }

  method Multiply(v1: Vector, v2: Vector) returns (r: Result<Vector>)
    ensures r.Failure? <==> v1.Length != v2.Length
    ensures r.Failure? ==> r.error == DiffSizes
    ensures r.Success? ==> fresh(r.value) && r.value[..] == ZipWith(Times, v1[..], v2[..])
    ensures unchanged(v1, v2)
  {
    var n := v1.Length;
    if n != v2.Length {
      return Failure(DiffSizes);
    }
    var res := new real[n];
    for i := 0 to n
      invariant res[..i] == ZipWith(Times, v1[..i], v2[..i])
    {
      res[i] := v1[i] * v2[i];
      assert v1[..i + 1][..i] == v1[..i] && v2[..i + 1][..i] == v2[..i];
      assert res[i] == Combine(Times, v1[i], v2[i]);
    }
    assert v1[..n] == v1[..] && v2[..n] == v2[..] && res[..n] == res[..];
    return Success(res);
  }

  /** Element-wise quotient. Go divides unguarded: a zero divisor yields an
      infinity or NaN rather than an error. No real stands for those values,
      so for a zero divisor the model leaves the element as allocated and the
      contract says nothing about it. */
  method Divide(v1: Vector, v2: Vector) returns (r: Result<Vector>)
    ensures r.Failure? <==> v1.Length != v2.Length
    ensures r.Failure? ==> r.error == DiffSizes
    ensures r.Success? ==> fresh(r.value) && r.value.Length == v1.Length
    ensures r.Success? ==>
      forall i :: 0 <= i < v1.Length && v2[i] != 0.0 ==> r.value[i] == v1[i] / v2[i]
    ensures r.Success? && Defined(Over, v2[..]) ==> r.value[..] == ZipWith(Over, v1[..], v2[..])
    ensures unchanged(v1, v2)
  {
    var n := v1.Length;
    if n != v2.Length {
      return Failure(DiffSizes);
    }
    var res := new real[n];
    for i := 0 to n
      invariant forall k :: 0 <= k < i && v2[k] != 0.0 ==> res[k] == v1[k] / v2[k]
    {
      if v2[i] != 0.0 {
        res[i] := v1[i] / v2[i];
      }
    }
    return Success(res);
  }

  method DotProduct(v1: Vector, v2: Vector) returns (r: Result<real>)
    ensures r.Failure? <==> v1.Length != v2.Length
    ensures r.Failure? ==> r.error == DiffSizes
    ensures r.Success? ==> r.value == Dot(v1[..], v2[..])
  {
    var n := v1.Length;
    if n != v2.Length {
      return Failure(DiffSizes);
    }
    var prod := 0.0;
    for i := 0 to n
      invariant prod == Dot(v1[..i], v2[..i])
    {
      assert v1[..i + 1][..i] == v1[..i] && v2[..i + 1][..i] == v2[..i];
      prod := prod + v1[i] * v2[i];
    }
    assert v1[..n] == v1[..] && v2[..n] == v2[..];
    return Success(prod);
  }

  /** The dot product of two 3-vectors, written out. */
  lemma Dot3(a: seq<real>, b: seq<real>)
    requires |a| == 3 && |b| == 3
    ensures Dot(a, b) == a[0] * b[0] + a[1] * b[1] + a[2] * b[2]
  {
    assert a[..2][..1] == a[..1] && b[..2][..1] == b[..1];
    assert a[..1][..0] == [] && b[..1][..0] == [];
    assert Dot(a[..1], b[..1]) == a[0] * b[0];
    assert Dot(a[..2], b[..2]) == a[0] * b[0] + a[1] * b[1];
  }

  /** The cross product, defined for 3-dimensional operands only; the result
      is orthogonal to both operands. */
  function CrossProduct(v1: seq<real>, v2: seq<real>): (r: Result<seq<real>>)
    ensures r.Failure? <==> |v1| != 3 || |v2| != 3
    ensures r.Failure? ==> r.error == Only3Dim
    ensures r.Success? ==> |r.value| == 3
    ensures r.Success? ==> Dot(r.value, v1) == 0.0 && Dot(r.value, v2) == 0.0
  {
    if |v1| != 3 || |v2| != 3 then
      Failure(Only3Dim)
    else
      var c := [v1[1] * v2[2] - v1[2] * v2[1],
                v1[2] * v2[0] - v1[0] * v2[2],
                v1[0] * v2[1] - v1[1] * v2[0]];
      Dot3(c, v1);
      Dot3(c, v2);
      Success(c)
  }

  /** Swapping the operands negates every component of the cross product,
      and the length check does not depend on their order. */
  lemma CrossProductAntiCommutes(v1: seq<real>, v2: seq<real>)
    ensures CrossProduct(v2, v1).Failure? == CrossProduct(v1, v2).Failure?
    ensures CrossProduct(v1, v2).Success? ==>
      forall i :: 0 <= i < 3 ==> CrossProduct(v2, v1).value[i] == -CrossProduct(v1, v2).value[i]
  {
  }

  /** The cross product of a 3-vector with itself is the zero vector. */
  lemma CrossProductOfItself(v: seq<real>)
    requires |v| == 3
    ensures CrossProduct(v, v) == Success([0.0, 0.0, 0.0])
  {
  }
}
